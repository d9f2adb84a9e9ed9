/** The scheduler's replays of one letter, over whole runs in which anything else may happen:
    operators replay other letters and delete any, store writes fail, listings abort. Only a manual
    replay of the letter itself is excluded. */
module LetterStories {
  import opened KeyOrder
  import opened Backoff
  import opened Numbers
  import opened DeadLetters
  import opened SchedulerRuns
  import M = ReplayMachine

  ghost predicate ReplaysByHand(a: Action, id: string) {
    a.Operate? && a.step.Snapshot? && a.step.id == id
  }

  ghost predicate NoManualReplay(acts: seq<Action>, id: string) {
    forall a | a in acts :: !ReplaysByHand(a, id)
  }

  // ---- invariant -------------------------------------------------------------------------

  /** The flight belongs to the pass under way, which is done reading its letter. */
  ghost predicate InPass(s: State, id: string, k: nat)
    requires k in s.m.flights
  {
    && s.pass.Some? && (k in s.active || (k in s.pass.value.todo && s.m.flights[k].post.None?))
    && id !in s.pass.value.toRead
  }

  /** A replay of the letter under way is the scheduler's, found the letter eligible, and works on
      the letter as it is stored, if it still is. */
  ghost predicate FlightAt(p: Params, s: State, id: string, k: nat)
    requires k in s.m.flights && id in s.stories
  {
    var f, st := s.m.flights[k], s.stories[id];
    && f.who == Scheduler(p.coolingOff) && InPass(s, id, k)
    && 0 <= f.rec.attempts < p.maxAttempts
    && st.base + Floor(p.coolingOff, f.rec.attempts) <= f.rec.nextRetryAfter <= s.pass.value.began
    && f.rec.attempts + st.lost + (if f.post.Some? then 1 else 0) == st.first + |st.starts|
    && (id in s.m.letters ==> s.m.letters[id] == f.rec)
    && id in s.m.successes && s.m.successes[id] <= st.lost + (if f.post == Some(Delivered) then 1 else 0)
  }

  ghost predicate IdleAt(p: Params, s: State, id: string)
    requires id in s.m.letters && id in s.stories
  {
    var r, st := s.m.letters[id], s.stories[id];
    && 0 <= r.attempts <= Max(st.first, p.maxAttempts)
    && r.nextRetryAfter >= st.base + Floor(p.coolingOff, r.attempts)
    && r.attempts + st.lost == st.first + |st.starts|
    && id in s.m.successes && s.m.successes[id] <= st.lost
  }

  /** The n-th replay found what the replays before it left, counted or lost, and it did not begin
      before that count's time. */
  ghost predicate StartAt(p: Params, st: Story, n: nat)
    requires n < |st.starts|
  {
    var b := st.starts[n];
    && b.count + b.lost == st.first + n && b.lost <= st.lost
    && 0 <= b.count < p.maxAttempts && b.at >= st.base + Floor(p.coolingOff, b.count)
  }

  ghost predicate StartsOk(p: Params, st: Story) {
    st.first >= 0 && forall n: nat | n < |st.starts| :: StartAt(p, st, n)
  }

  ghost predicate FlightsAt(p: Params, s: State, id: string)
    requires id in s.stories
  {
    M.OneFlight(s.m, id) && forall k | k in s.m.flights && s.m.flights[k].rec.id == id :: FlightAt(p, s, id, k)
  }

  ghost predicate At(p: Params, s: State, id: string) {
    && id in s.stories && StartsOk(p, s.stories[id]) && FlightsAt(p, s, id)
    && (id in s.m.letters && !M.Busy(s.m, id) ==> IdleAt(p, s, id))
    && id in s.m.successes && s.m.successes[id] <= s.stories[id].lost + 1
  }

  // ---- steps that do not work on the letter ----------------------------------------------

  ghost predicate Touches(p: Params, s: State, a: Action, id: string)
    requires Enabled(p, s, a)
  {
    var u := Underlying(p, s, a);
    u.Some? && M.Touches(s.m, u.value, id)
  }

  lemma UntouchedStory(p: Params, s: State, a: Action, id: string)
    requires Inv(s) && Enabled(p, s, a) && !Touches(p, s, a, id) && id in s.stories
    ensures id in Apply(p, s, a).stories && Apply(p, s, a).stories[id] == s.stories[id]
  {
  }

  lemma UntouchedMachine(p: Params, s: State, a: Action, id: string)
    requires Inv(s) && Enabled(p, s, a) && !Touches(p, s, a, id)
    ensures M.SameLetter(s.m, MachineAfter(p, s, a), id) && M.SameFlights(s.m, MachineAfter(p, s, a), id)
  {
    var u := Underlying(p, s, a);
    if u.Some? {
      if u.value.Snapshot? { assert M.LetterOk(s.m, u.value.id); }
      M.UntouchedIsSame(s.m, u.value, id);
    }
  }

  lemma SameBusy(s: M.State, t: M.State, id: string)
    requires M.SameFlights(s, t, id)
    ensures M.Busy(s, id) <==> M.Busy(t, id)
    ensures M.OneFlight(s, id) ==> M.OneFlight(t, id)
  {
    if k :| k in s.flights && s.flights[k].rec.id == id { assert t.flights[k].rec.id == id; }
  }

  /** A flight of the letter that nobody touches stays part of its pass. */
  lemma UntouchedInPass(p: Params, s: State, a: Action, id: string, k: nat)
    requires PassOk(s) && Enabled(p, s, a) && !Touches(p, s, a, id)
    requires k in s.m.flights && s.m.flights[k].rec.id == id && InPass(s, id, k)
    requires k in MachineAfter(p, s, a).flights && MachineAfter(p, s, a).flights[k] == s.m.flights[k]
    ensures InPass(Apply(p, s, a), id, k) && Apply(p, s, a).pass.value.began == s.pass.value.began
  {
  }

  lemma UntouchedFlight(p: Params, s: State, a: Action, id: string, k: nat)
    requires Inv(s) && Enabled(p, s, a) && !Touches(p, s, a, id) && id in s.stories
    requires k in s.m.flights && s.m.flights[k].rec.id == id && FlightAt(p, s, id, k)
    ensures k in Apply(p, s, a).m.flights && id in Apply(p, s, a).stories && FlightAt(p, Apply(p, s, a), id, k)
  {
    UntouchedMachine(p, s, a, id);
    UntouchedStory(p, s, a, id);
    UntouchedInPass(p, s, a, id, k);
  }

  lemma UntouchedKeepsAt(p: Params, s: State, a: Action, id: string)
    requires Inv(s) && At(p, s, id) && Enabled(p, s, a) && !Touches(p, s, a, id)
    ensures At(p, Apply(p, s, a), id)
  {
    var t := Apply(p, s, a);
    UntouchedMachine(p, s, a, id);
    UntouchedStory(p, s, a, id);
    SameBusy(s.m, t.m, id);
    forall k | k in t.m.flights && t.m.flights[k].rec.id == id ensures FlightAt(p, t, id, k) {
      UntouchedFlight(p, s, a, id, k);
    }
  }

  // ---- steps that do ---------------------------------------------------------------------

  lemma DeliverKeepsAt(p: Params, s: State, a: Action, id: string)
    requires Inv(s) && Enabled(p, s, a) && a.Deliver? && Touches(p, s, a, id) && p.maxAttempts >= 1
    ensures At(p, Apply(p, s, a), id)
  {
    var t := Apply(p, s, a);
    assert forall k | k in s.m.flights :: M.FlightOk(s.m, k);
    assert t.stories[id] == Story(a.d.at, 0, [], 0);
  }

  lemma ReadEffect(p: Params, s: State, a: Action)
    requires Enabled(p, s, a) && a.Read? && Picks(p, s)
    ensures var t, pass := Apply(p, s, a), s.pass.value;
            && t.m == s.m.(flights := s.m.flights[a.token := M.Flight(Scheduler(p.coolingOff), s.m.letters[pass.toRead[0]], None)])
            && t.pass == Some(Pass(pass.began, pass.toRead[1..], pass.todo + [a.token]))
            && t.active == s.active && t.stories == s.stories && a.token !in s.m.flights
  {
  }

  lemma ReadKeepsAt(p: Params, s: State, a: Action, id: string)
    requires Inv(s) && At(p, s, id) && Enabled(p, s, a) && a.Read? && Touches(p, s, a, id) && p.maxAttempts >= 1
    ensures At(p, Apply(p, s, a), id)
  {
    assert M.LetterOk(s.m, id);
    assert forall k | k in s.m.flights && s.m.flights[k].rec.id == id :: FlightAt(p, s, id, k);
    ReadEffect(p, s, a);
    ReadIsAt(p, s, Apply(p, s, a), id, a.token);
  }

  lemma ReadIsAt(p: Params, s: State, t: State, id: string, token: nat)
    requires At(p, s, id) && !M.Busy(s.m, id) && id in s.m.letters && s.m.letters[id].id == id && token !in s.m.flights
    requires p.maxAttempts >= 1 && s.pass.Some? && s.pass.value.toRead != [] && s.pass.value.toRead[0] == id
    requires DistinctKeys(s.pass.value.toRead) && Eligible(s.pass.value.began, p.maxAttempts)(s.m.letters[id])
    requires t.m == s.m.(flights := s.m.flights[token := M.Flight(Scheduler(p.coolingOff), s.m.letters[id], None)])
    requires t.pass == Some(Pass(s.pass.value.began, s.pass.value.toRead[1..], s.pass.value.todo + [token]))
    requires t.active == s.active && t.stories == s.stories
    ensures At(p, t, id)
  {
    assert IdleAt(p, s, id);
    assert t.m.flights[token].rec.id == id && FlightAt(p, t, id, token);
    assert forall k | k in t.m.flights && t.m.flights[k].rec.id == id :: k == token by {
      assert forall k | k in s.m.flights :: s.m.flights[k].rec.id != id;
    }
  }

  lemma AbortKeepsAt(p: Params, s: State, a: Action, id: string)
    requires Inv(s) && At(p, s, id) && Enabled(p, s, a) && a.Abort?
    ensures At(p, Apply(p, s, a), id)
  {
    var t := Apply(p, s, a);
    forall k | k in s.m.flights && s.m.flights[k].rec.id == id ensures k !in t.m.flights {
      assert FlightAt(p, s, id, k);
    }
    if k :| k in s.m.flights && s.m.flights[k].rec.id == id { assert FlightAt(p, s, id, k); }
  }

  lemma StartsSnoc(p: Params, st: Story, count: int, at: int)
    requires StartsOk(p, st) && count + st.lost == st.first + |st.starts|
    requires 0 <= count < p.maxAttempts && at >= st.base + Floor(p.coolingOff, count)
    ensures StartsOk(p, Begins(st, count, at))
  {
    var t := Begins(st, count, at);
    forall n: nat | n < |t.starts| ensures StartAt(p, t, n) {
      if n < |st.starts| { assert StartAt(p, st, n); }
    }
  }

  lemma PostEffect(p: Params, s: State, a: Action, id: string)
    requires Enabled(p, s, a) && a.PostReturns? && s.m.flights[a.token].rec.id == id && id in s.stories && id in s.m.successes
    ensures var t, f := Apply(p, s, a), s.m.flights[a.token];
            && t.m.flights == s.m.flights[a.token := f.(post := Some(a.post))]
            && t.m.letters == s.m.letters && t.pass == s.pass && t.active == s.active
            && id in t.stories && t.stories[id] == Begins(s.stories[id], f.rec.attempts, a.start)
            && id in t.m.successes && t.m.successes[id] == s.m.successes[id] + (if a.post.Delivered? then 1 else 0)
  {
  }

  lemma PostKeepsAt(p: Params, s: State, a: Action, id: string)
    requires Inv(s) && At(p, s, id) && Enabled(p, s, a) && a.PostReturns? && Touches(p, s, a, id)
    ensures At(p, Apply(p, s, a), id)
  {
    assert FlightAt(p, s, id, a.token);
    PostEffect(p, s, a, id);
    StartsSnoc(p, s.stories[id], s.m.flights[a.token].rec.attempts, a.start);
    PostedIsAt(p, s, Apply(p, s, a), id, a.token, a.post, a.start);
  }

  lemma PostedIsAt(p: Params, s: State, t: State, id: string, k: nat, post: Post, start: int)
    requires At(p, s, id) && k in s.m.flights && s.m.flights[k].rec.id == id && s.m.flights[k].post.None?
    requires t.m.flights == s.m.flights[k := s.m.flights[k].(post := Some(post))]
    requires t.m.letters == s.m.letters && t.pass == s.pass && k in s.active && t.active == s.active
    requires id in t.stories && t.stories[id] == Begins(s.stories[id], s.m.flights[k].rec.attempts, start)
    requires StartsOk(p, t.stories[id])
    requires id in t.m.successes && t.m.successes[id] == s.m.successes[id] + (if post.Delivered? then 1 else 0)
    ensures At(p, t, id)
  {
    assert FlightAt(p, s, id, k);
    assert t.m.flights[k].rec.id == id && FlightAt(p, t, id, k);
    assert forall l | l in t.m.flights && t.m.flights[l].rec.id == id :: l in s.m.flights && s.m.flights[l].rec.id == id;
    assert forall l | l in t.m.flights && t.m.flights[l].rec.id == id :: l == k;
  }

  lemma StartsLose(p: Params, st: Story)
    requires StartsOk(p, st)
    ensures StartsOk(p, st.(lost := st.lost + 1))
  {
    var t := st.(lost := st.lost + 1);
    forall n: nat | n < |t.starts| ensures StartAt(p, t, n) { assert StartAt(p, st, n); }
  }

  lemma CommitEffect(p: Params, s: State, a: Action)
    requires Enabled(p, s, a) && a.Commit?
    ensures var t, f := Apply(p, s, a), s.m.flights[a.token];
            && t.m.letters == Settle(s.m.letters, f.rec, f.who, f.post.value, a.at, a.fault)
            && t.m.flights == s.m.flights - {a.token} && t.m.successes == s.m.successes
            && t.stories.Keys == s.stories.Keys
            && (f.rec.id in s.stories ==>
                  t.stories[f.rec.id]
                  == s.stories[f.rec.id].(lost := s.stories[f.rec.id].lost + if a.fault then 1 else 0))
  {
  }

  lemma CommitKeepsAt(p: Params, s: State, a: Action, id: string)
    requires Inv(s) && At(p, s, id) && Enabled(p, s, a) && a.Commit? && Touches(p, s, a, id)
    ensures At(p, Apply(p, s, a), id)
  {
    assert FlightAt(p, s, id, a.token);
    CommitEffect(p, s, a);
    CommittedIsAt(p, s, Apply(p, s, a), id, a.token, a.at, a.fault);
  }

  lemma CommittedIsAt(p: Params, s: State, t: State, id: string, k: nat, at: int, fault: bool)
    requires At(p, s, id) && k in s.m.flights && s.m.flights[k].rec.id == id && s.m.flights[k].post.Some?
    requires s.pass.Some? && at >= s.pass.value.began
    requires var f := s.m.flights[k]; t.m.letters == Settle(s.m.letters, f.rec, f.who, f.post.value, at, fault)
    requires t.m.flights == s.m.flights - {k} && t.m.successes == s.m.successes && id in t.stories
    requires t.stories[id] == s.stories[id].(lost := s.stories[id].lost + if fault then 1 else 0)
    ensures At(p, t, id)
  {
    assert FlightAt(p, s, id, k);
    forall l | l in t.m.flights ensures t.m.flights[l].rec.id != id { assert l in s.m.flights && l != k; }
    if fault { StartsLose(p, s.stories[id]); }
  }

  lemma CancelEffect(p: Params, s: State, a: Action)
    requires Enabled(p, s, a) && a.Operate? && a.step.Cancel?
    ensures var t := Apply(p, s, a);
            && t.m.flights == s.m.flights && t.pass == s.pass && t.active == s.active
            && t.stories == s.stories && t.m.successes == s.m.successes
            && forall id | id in t.m.letters :: id in s.m.letters && t.m.letters[id] == s.m.letters[id]
  {
  }

  lemma CancelKeepsAt(p: Params, s: State, t: State, id: string)
    requires At(p, s, id)
    requires t.m.flights == s.m.flights && t.pass == s.pass && t.active == s.active
    requires t.stories == s.stories && t.m.successes == s.m.successes
    requires id in t.m.letters ==> id in s.m.letters && t.m.letters[id] == s.m.letters[id]
    ensures At(p, t, id)
  {
    forall k | k in t.m.flights && t.m.flights[k].rec.id == id ensures FlightAt(p, t, id, k) {
      assert FlightAt(p, s, id, k);
    }
    assert M.Busy(t.m, id) == M.Busy(s.m, id);
  }

  lemma OperatorOnlyCancels(p: Params, s: State, a: Action, id: string)
    requires At(p, s, id) && Enabled(p, s, a) && a.Operate? && Touches(p, s, a, id) && !ReplaysByHand(a, id)
    ensures a.step.Cancel?
  {
    assert forall k | k in s.m.flights && s.m.flights[k].rec.id == id :: FlightAt(p, s, id, k);
  }

  lemma StepKeepsAt(p: Params, s: State, a: Action, id: string)
    requires Inv(s) && (id in s.stories ==> At(p, s, id)) && Enabled(p, s, a) && p.maxAttempts >= 1
    requires !ReplaysByHand(a, id)
    ensures id in Apply(p, s, a).stories ==> At(p, Apply(p, s, a), id)
  {
    if a.Deliver? && Touches(p, s, a, id) {
      DeliverKeepsAt(p, s, a, id);
    } else if id in s.stories {
      if !Touches(p, s, a, id) {
        UntouchedKeepsAt(p, s, a, id);
      } else {
        match a
        case Read(_) => ReadKeepsAt(p, s, a, id);
        case Abort => AbortKeepsAt(p, s, a, id);
        case PostReturns(_, _, _, _) => PostKeepsAt(p, s, a, id);
        case Commit(_, _, _, _) => CommitKeepsAt(p, s, a, id);
        case Operate(_, _) =>
          OperatorOnlyCancels(p, s, a, id);
          CancelEffect(p, s, a);
          CancelKeepsAt(p, s, Apply(p, s, a), id);
      }
    }
  }

  lemma {:induction false} RunKeepsAt(p: Params, s: State, acts: seq<Action>, id: string)
    requires Inv(s) && (id in s.stories ==> At(p, s, id)) && Runs(p, s, acts) && p.maxAttempts >= 1
    requires NoManualReplay(acts, id)
    ensures Inv(Exec(p, s, acts)) && (id in Exec(p, s, acts).stories ==> At(p, Exec(p, s, acts), id))
    decreases |acts|
  {
    if acts != [] {
      assert acts[0] in acts;
      StepKeepsInv(p, s, acts[0]);
      StepKeepsAt(p, s, acts[0], id);
      RunKeepsAt(p, Apply(p, s, acts[0]), acts[1..], id);
    }
  }

  lemma StartAtOk(p: Params, letters: Letters, clock: int, id: string)
    requires M.WellFormed(letters) && p.maxAttempts >= 1
    ensures Inv(Start(p, letters, clock)) && (id in letters ==> At(p, Start(p, letters, clock), id))
  {
    StartInv(p, letters, clock);
  }

  // ---- what the stories tell -------------------------------------------------------------

  /** A story goes on: where it began never changes. */
  lemma StepGoesOn(p: Params, s: State, a: Action, id: string)
    requires s.stories.Keys == s.m.origins.Keys && Enabled(p, s, a) && id in s.stories
    ensures var t := Apply(p, s, a);
            id in t.stories && t.stories[id].base == s.stories[id].base && t.stories[id].first == s.stories[id].first
  {
  }

  lemma {:induction false} StoryGoesOn(p: Params, s: State, acts: seq<Action>, id: string)
    requires Inv(s) && Runs(p, s, acts) && id in s.stories
    ensures var t := Exec(p, s, acts);
            id in t.stories && t.stories[id].base == s.stories[id].base && t.stories[id].first == s.stories[id].first
    decreases |acts|
  {
    if acts != [] {
      StepKeepsInv(p, s, acts[0]);
      StepGoesOn(p, s, acts[0], id);
      StoryGoesOn(p, Apply(p, s, acts[0]), acts[1..], id);
    }
  }

  lemma StoryOfFound(p: Params, letters: Letters, clock: int, acts: seq<Action>, id: string)
    requires M.WellFormed(letters) && Runs(p, Start(p, letters, clock), acts) && id in letters
    ensures var s := Exec(p, Start(p, letters, clock), acts);
            && id in s.stories && s.stories[id].first == letters[id].attempts
            && s.stories[id].base == letters[id].nextRetryAfter - Floor(p.coolingOff, letters[id].attempts)
  {
    StartInv(p, letters, clock);
    StoryGoesOn(p, Start(p, letters, clock), acts, id);
  }

  ghost function After(p: Params, letters: Letters, clock: int, acts: seq<Action>): State
    requires Runs(p, Start(p, letters, clock), acts)
  {
    Exec(p, Start(p, letters, clock), acts)
  }

  /** The hypotheses of all laws below: the program starts on any bucket, runs in any way, and
      nobody replays this letter by hand. */
  ghost predicate Unhandled(p: Params, letters: Letters, clock: int, acts: seq<Action>, id: string) {
    p.maxAttempts >= 1 && M.WellFormed(letters) && Runs(p, Start(p, letters, clock), acts) && NoManualReplay(acts, id)
  }

  lemma RunIsAt(p: Params, letters: Letters, clock: int, acts: seq<Action>, id: string)
    requires Unhandled(p, letters, clock, acts, id)
    ensures Inv(After(p, letters, clock, acts))
    ensures id in After(p, letters, clock, acts).stories ==> At(p, After(p, letters, clock, acts), id)
  {
    StartAtOk(p, letters, clock, id);
    RunKeepsAt(p, Start(p, letters, clock), acts, id);
  }

  /** A scheduler replay that finds the letter with Attempts a begins no earlier than the letter's
      base plus the cooling-off period plus one back-off per counted replay; and its n-th replay
      finds n counted, but for commits the store had refused by then. */
  lemma ReplaysAreSpaced(p: Params, letters: Letters, clock: int, acts: seq<Action>, id: string, n: nat)
    requires Unhandled(p, letters, clock, acts, id)
    requires var s := After(p, letters, clock, acts); id in s.stories && n < |s.stories[id].starts|
    ensures var st := After(p, letters, clock, acts).stories[id];
            var b := st.starts[n];
            && b.at >= st.base + Floor(p.coolingOff, b.count)
            && b.count == st.first + n - b.lost && b.lost <= st.lost && 0 <= b.count < p.maxAttempts
  {
    RunIsAt(p, letters, clock, acts, id);
    assert StartAt(p, After(p, letters, clock, acts).stories[id], n);
  }

  /** As long as no commit of the letter was lost, replay n + 1 of a new letter waits at least
      c * 2^n for n <= 9, and every later one adds 256 c, when 256 cooling-off periods fit a day. */
  lemma ReplaysSpacedExponentially(p: Params, letters: Letters, clock: int, acts: seq<Action>, id: string, n: nat)
    requires Unhandled(p, letters, clock, acts, id) && p.coolingOff >= 1 && 256 * p.coolingOff <= DAY
    requires var s := After(p, letters, clock, acts);
             id in s.stories && n < |s.stories[id].starts| && s.stories[id].lost == 0
    ensures var c, st := p.coolingOff, After(p, letters, clock, acts).stories[id];
            var k := st.first + n;
            && k >= 0 && (k <= 9 ==> st.starts[n].at >= st.base + c * Pow2(k))
            && (k >= 9 ==> st.starts[n].at >= st.base + 512 * c + (k - 9) * (256 * c))
  {
    ReplaysAreSpaced(p, letters, clock, acts, id, n);
    var k := After(p, letters, clock, acts).stories[id].first + n;
    assert After(p, letters, clock, acts).stories[id].starts[n].lost == 0 by {
      RunIsAt(p, letters, clock, acts, id);
      assert StartAt(p, After(p, letters, clock, acts).stories[id], n);
    }
    if k <= 9 { FloorDoubles(p.coolingOff, k); }
    if k >= 9 { FloorGrowsLinearly(p.coolingOff, k); }
  }

  /** While no replay of it is under way, Attempts and the refused commits together account for
      every scheduler replay of the letter. */
  lemma ReplaysAreAccountedFor(p: Params, letters: Letters, clock: int, acts: seq<Action>, id: string)
    requires Unhandled(p, letters, clock, acts, id)
    requires var s := After(p, letters, clock, acts); id in s.stories && id in s.m.letters && !M.Busy(s.m, id)
    ensures var s := After(p, letters, clock, acts);
            s.m.letters[id].attempts + s.stories[id].lost == s.stories[id].first + |s.stories[id].starts|
  {
    RunIsAt(p, letters, clock, acts, id);
  }

  /** The scheduler POSTs a letter at most as often as its first Attempts leaves room for, plus
      once per refused commit; it delivers it at most once more than commits were refused; and it
      never counts beyond the maximum. */
  lemma ReplaysAreBounded(p: Params, letters: Letters, clock: int, acts: seq<Action>, id: string)
    requires Unhandled(p, letters, clock, acts, id) && id in After(p, letters, clock, acts).stories
    ensures var s := After(p, letters, clock, acts);
            var st := s.stories[id];
            && |st.starts| <= Max(p.maxAttempts - st.first, 0) + st.lost
            && id in s.m.successes && s.m.successes[id] <= 1 + st.lost
            && (id in s.m.letters ==> 0 <= s.m.letters[id].attempts <= Max(st.first, p.maxAttempts))
  {
    RunIsAt(p, letters, clock, acts, id);
    var s := After(p, letters, clock, acts);
    if |s.stories[id].starts| > 0 { assert StartAt(p, s.stories[id], |s.stories[id].starts| - 1); }
    if k :| k in s.m.flights && s.m.flights[k].rec.id == id { assert FlightAt(p, s, id, k); }
  }

  // ---- a refused commit ------------------------------------------------------------------

  /** After a failed replay of a letter that is still stored, a pass that began at once would pick
      it up again if and only if the store refused the commit, or the base is so large that the
      back-off overflows: the waiting time is part of what was not stored. */
  lemma PickedAgainAtOnceExactlyWhen(p: Params, s: State, a: Action, id: string)
    requires Inv(s) && At(p, s, id) && Enabled(p, s, a) && a.Commit? && s.m.flights[a.token].rec.id == id
    requires s.m.flights[a.token].post.value.Failed? && id in s.m.letters
    ensures var t, n := Apply(p, s, a), s.m.letters[id].attempts + 1;
            && id in t.m.letters
            && (Eligible(a.at, p.maxAttempts)(t.m.letters[id]) <==>
                  a.fault || (n < p.maxAttempts && DlqBackoff(p.coolingOff, n) <= 0))
  {
    assert FlightAt(p, s, id, a.token);
    CommitEffect(p, s, a);
  }

  /** Such a run: the second replay begins with the next scan, however soon that is and whatever
      the cooling-off period, so without its hypothesis the spacing law by number fails. The model
      has no ticker, so here the next scan comes at the same clock reading. */
  lemma LostCommitReplaysAtOnce(p: Params, r: Record, clock: int, error: string) returns (acts: seq<Action>)
    requires p.maxAttempts >= 1 && p.workers >= 1 && r.id != "" && 0 <= r.attempts < p.maxAttempts
    requires r.nextRetryAfter <= clock
    ensures Unhandled(p, map[r.id := r], clock, acts, r.id)
    ensures var s := After(p, map[r.id := r], clock, acts);
            r.id in s.stories && s.stories[r.id].starts == [Begun(r.attempts, clock, 0), Begun(r.attempts, clock, 1)]
  {
    var s0 := Start(p, map[r.id := r], clock);
    acts := TwoReplays(p, s0, r, clock, error);
    assert s0.stories[r.id].starts + [Begun(r.attempts, clock, 0)] == [Begun(r.attempts, clock, 0)];
  }

  ghost predicate Automatic(acts: seq<Action>) {
    forall a | a in acts :: !a.Operate?
  }

  lemma TwoReplays(p: Params, s: State, r: Record, clock: int, error: string) returns (acts: seq<Action>)
    requires p.workers >= 1 && OneLetter(s, r, clock, None, {}, map[]) && Eligible(clock, p.maxAttempts)(r)
    ensures Automatic(acts) && Runs(p, s, acts) && r.id in Exec(p, s, acts).stories
    ensures var st := s.stories[r.id];
            Exec(p, s, acts).stories[r.id].starts
            == st.starts + [Begun(r.attempts, clock, st.lost)] + [Begun(r.attempts, clock, st.lost + 1)]
  {
    var t, one := LostReplay(p, s, r, clock, error);
    var two := OneReplay(p, t, r, clock, error);
    Joined(p, s, one, two);
    acts := one + two;
  }

  lemma LostReplay(p: Params, s: State, r: Record, clock: int, error: string) returns (t: State, acts: seq<Action>)
    requires p.workers >= 1 && OneLetter(s, r, clock, None, {}, map[]) && Eligible(clock, p.maxAttempts)(r)
    ensures Automatic(acts) && Runs(p, s, acts) && t == Exec(p, s, acts) && OneLetter(t, r, clock, None, {}, map[])
    ensures var st := s.stories[r.id];
            t.stories[r.id] == Begins(st, r.attempts, clock).(lost := st.lost + 1)
  {
    var one := OneReplay(p, s, r, clock, error);
    var lose;
    t, lose := LoseCommit(p, Exec(p, s, one), r, clock);
    Joined(p, s, one, lose);
    acts := one + lose;
  }

  lemma {:induction false} Joined(p: Params, s: State, a: seq<Action>, b: seq<Action>)
    requires Runs(p, s, a) && Runs(p, Exec(p, s, a), b)
    ensures Runs(p, s, a + b) && Exec(p, s, a + b) == Exec(p, Exec(p, s, a), b)
    decreases |a|
  {
    if a == [] {
      assert a + b == b;
    } else {
      var first, rest := a[0], a[1..];
      var next := Apply(p, s, first);
      Joined(p, next, rest, b);
      assert Exec(p, s, a) == Exec(p, next, rest);
      Cons(p, s, first, rest + b);
      assert a + b == [first] + (rest + b);
    }
  }

  lemma Cons(p: Params, s: State, a: Action, rest: seq<Action>)
    requires Enabled(p, s, a) && Runs(p, Apply(p, s, a), rest)
    ensures Runs(p, s, [a] + rest) && Exec(p, s, [a] + rest) == Exec(p, Apply(p, s, a), rest)
  {
    assert ([a] + rest)[1..] == rest;
  }

  /** A queue of one letter, with these snapshots under way. */
  ghost predicate OneLetter(s: State, r: Record, clock: int, pass: Option<Pass>, active: set<nat>, flights: map<nat, M.Flight>) {
    && s.m.letters == map[r.id := r] && s.m.flights == flights && s.clock == clock && s.pass == pass && s.active == active
    && r.id in s.stories
  }

  lemma BeginOne(p: Params, s: State, r: Record, clock: int)
    requires OneLetter(s, r, clock, None, {}, map[])
    ensures Enabled(p, s, Begin(clock)) && Apply(p, s, Begin(clock)).stories == s.stories
    ensures OneLetter(Apply(p, s, Begin(clock)), r, clock, Some(Pass(clock, [r.id], [])), {}, map[])
  {
    SortedUnique([r.id], {r.id});
    assert s.m.letters.Keys == {r.id};
  }

  lemma ReadOne(p: Params, s: State, r: Record, clock: int)
    requires OneLetter(s, r, clock, Some(Pass(clock, [r.id], [])), {}, map[]) && Eligible(clock, p.maxAttempts)(r)
    ensures Enabled(p, s, Read(0)) && Apply(p, s, Read(0)).stories == s.stories
    ensures OneLetter(Apply(p, s, Read(0)), r, clock, Some(Pass(clock, [], [0])), {},
                      map[0 := M.Flight(Scheduler(p.coolingOff), r, None)])
  {
    assert [r.id][1..] == [] && [] + [0] == [0];
  }

  lemma LaunchOne(p: Params, s: State, r: Record, clock: int, flights: map<nat, M.Flight>)
    requires OneLetter(s, r, clock, Some(Pass(clock, [], [0])), {}, flights) && p.workers >= 1
    ensures Enabled(p, s, Launch) && Apply(p, s, Launch).stories == s.stories
    ensures OneLetter(Apply(p, s, Launch), r, clock, Some(Pass(clock, [], [])), {0}, flights)
  {
    assert [0][1..] == [];
  }

  lemma PostOne(p: Params, s: State, r: Record, clock: int, error: string)
    requires OneLetter(s, r, clock, Some(Pass(clock, [], [])), {0}, map[0 := M.Flight(Scheduler(p.coolingOff), r, None)])
    ensures var post := PostReturns(0, clock, clock, Failed(error));
            && Enabled(p, s, post)
            && Apply(p, s, post).stories == s.stories[r.id := Begins(s.stories[r.id], r.attempts, clock)]
            && OneLetter(Apply(p, s, post), r, clock, Some(Pass(clock, [], [])), {0},
                         map[0 := M.Flight(Scheduler(p.coolingOff), r, Some(Failed(error)))])
  {
  }

  /** A pass over a queue of one eligible letter, up to the return of its POST. */
  lemma OneReplay(p: Params, s: State, r: Record, clock: int, error: string) returns (acts: seq<Action>)
    requires p.workers >= 1 && OneLetter(s, r, clock, None, {}, map[]) && Eligible(clock, p.maxAttempts)(r)
    ensures Automatic(acts) && Runs(p, s, acts)
    ensures OneLetter(Exec(p, s, acts), r, clock, Some(Pass(clock, [], [])), {0},
                      map[0 := M.Flight(Scheduler(p.coolingOff), r, Some(Failed(error)))])
    ensures Exec(p, s, acts).stories == s.stories[r.id := Begins(s.stories[r.id], r.attempts, clock)]
  {
    var post, f := PostReturns(0, clock, clock, Failed(error)), M.Flight(Scheduler(p.coolingOff), r, None);
    BeginOne(p, s, r, clock);
    var s1 := Apply(p, s, Begin(clock));
    ReadOne(p, s1, r, clock);
    var s2 := Apply(p, s1, Read(0));
    LaunchOne(p, s2, r, clock, map[0 := f]);
    var s3 := Apply(p, s2, Launch);
    PostOne(p, s3, r, clock, error);
    Cons(p, s3, post, []);
    Cons(p, s2, Launch, [post] + []);
    Cons(p, s1, Read(0), [Launch] + ([post] + []));
    Cons(p, s, Begin(clock), [Read(0)] + ([Launch] + ([post] + [])));
    acts := [Begin(clock)] + ([Read(0)] + ([Launch] + ([post] + [])));
  }

  /** The store refuses the commit, and the pass ends. */
  lemma LoseCommit(p: Params, s: State, r: Record, clock: int) returns (t: State, acts: seq<Action>)
    requires exists f :: OneLetter(s, r, clock, Some(Pass(clock, [], [])), {0}, map[0 := f])
                         && f.rec == r && f.post.Some? && f.who.Scheduler?
    ensures Automatic(acts) && Runs(p, s, acts) && t == Exec(p, s, acts) && OneLetter(t, r, clock, None, {}, map[])
    ensures t.stories == s.stories[r.id := s.stories[r.id].(lost := s.stories[r.id].lost + 1)]
  {
    var commit := Commit(0, clock, clock, true);
    var s1 := Apply(p, s, commit);
    assert s1.m.flights == map[] && s1.active == {};
    t := Apply(p, s1, End);
    Cons(p, s1, End, []);
    Cons(p, s, commit, [End] + []);
    acts := [commit] + ([End] + []);
  }

  // ---- terminal letters ------------------------------------------------------------------

  ghost predicate Deletes(a: Action, id: string) {
    a.Operate? && a.step.Cancel? && a.step.id == id
  }

  lemma TerminalIsIdle(p: Params, s: State, id: string)
    requires At(p, s, id) && id in s.m.letters && s.m.letters[id].IsTerminal(p.maxAttempts)
    ensures !M.Busy(s.m, id)
  {
    assert forall k | k in s.m.flights && s.m.flights[k].rec.id == id :: FlightAt(p, s, id, k);
  }

  lemma TerminalStays(p: Params, s: State, a: Action, id: string)
    requires Inv(s) && At(p, s, id) && Enabled(p, s, a) && !ReplaysByHand(a, id) && !Deletes(a, id)
    requires id in s.m.letters && s.m.letters[id].IsTerminal(p.maxAttempts)
    ensures id in Apply(p, s, a).m.letters && Apply(p, s, a).m.letters[id] == s.m.letters[id]
  {
    TerminalIsIdle(p, s, id);
    IdleIsUntouched(p, s, a, id);
    UntouchedMachine(p, s, a, id);
  }

  /** Nobody but an operator works on a terminal letter. */
  lemma IdleIsUntouched(p: Params, s: State, a: Action, id: string)
    requires Inv(s) && Enabled(p, s, a) && !ReplaysByHand(a, id) && !Deletes(a, id)
    requires id in s.m.letters && s.m.letters[id].IsTerminal(p.maxAttempts) && !M.Busy(s.m, id)
    ensures !Touches(p, s, a, id)
  {
    assert M.LetterOk(s.m, id);
  }

  lemma {:induction false} TerminalStaysAlong(p: Params, s: State, acts: seq<Action>, id: string)
    requires Inv(s) && At(p, s, id) && Runs(p, s, acts) && p.maxAttempts >= 1
    requires NoManualReplay(acts, id) && forall a | a in acts :: !Deletes(a, id)
    requires id in s.m.letters && s.m.letters[id].IsTerminal(p.maxAttempts)
    ensures id in Exec(p, s, acts).m.letters && Exec(p, s, acts).m.letters[id] == s.m.letters[id]
    decreases |acts|
  {
    if acts != [] {
      assert acts[0] in acts;
      TerminalStays(p, s, acts[0], id);
      StepKeepsInv(p, s, acts[0]);
      StepKeepsAt(p, s, acts[0], id);
      TerminalStaysAlong(p, Apply(p, s, acts[0]), acts[1..], id);
    }
  }

  /** A terminal letter, found at start-up or made so since, stays as it is until an operator
      replays or deletes it. */
  lemma TerminalStaysForGood(p: Params, letters: Letters, clock: int, before: seq<Action>, after: seq<Action>, id: string)
    requires Unhandled(p, letters, clock, before, id)
    requires NoManualReplay(after, id) && forall a | a in after :: !Deletes(a, id)
    requires var s := After(p, letters, clock, before);
             Runs(p, s, after) && id in s.m.letters && s.m.letters[id].IsTerminal(p.maxAttempts)
    ensures var s := After(p, letters, clock, before);
            id in Exec(p, s, after).m.letters && Exec(p, s, after).m.letters[id] == s.m.letters[id]
  {
    RunIsAt(p, letters, clock, before, id);
    var s := After(p, letters, clock, before);
    assert M.LetterOk(s.m, id);
    TerminalStaysAlong(p, s, after, id);
  }
}
