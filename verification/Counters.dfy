/** Runs without operators and with a store that accepts every commit: replays never overlap, and
    the three metrics balance. */
module Counters {
  import opened DeadLetters
  import opened SchedulerRuns
  import opened LetterStories
  import opened MapSums
  import M = ReplayMachine

  // ---- the scheduler alone never overlaps with itself ------------------------------------

  /** No operator replays or deletes the letter in this step, and the store refuses no commit. */
  ghost predicate Gentle(a: Action, id: string) {
    && (a.Operate? ==> !(a.step.Snapshot? && a.step.id == id) && !(a.step.Cancel? && a.step.id == id))
    && (a.Commit? ==> !a.fault)
  }

  ghost predicate GentleRun(acts: seq<Action>, id: string) {
    forall a | a in acts :: Gentle(a, id)
  }

  lemma UnreadIsIdle(p: Params, s: State, id: string)
    requires M.Inv(s.m) && s.stories.Keys == s.m.origins.Keys && (id in s.stories ==> At(p, s, id))
    requires s.pass.Some? && id in s.pass.value.toRead
    ensures !M.Busy(s.m, id)
  {
    if id in s.stories {
      assert forall k | k in s.m.flights && s.m.flights[k].rec.id == id :: FlightAt(p, s, id, k);
    } else {
      assert forall k | k in s.m.flights :: M.FlightOk(s.m, k);
    }
  }

  /** Although nothing in the code locks a letter, no step of the scheduler overlaps with another
      replay of the same letter. */
  lemma SchedulerIsExclusive(p: Params, s: State, a: Action, id: string)
    requires Inv(s) && (id in s.stories ==> At(p, s, id)) && Enabled(p, s, a) && Gentle(a, id)
    ensures var u := Underlying(p, s, a);
            u.Some? ==> M.Enabled(s.m, u.value) && M.ExclusiveFor(s.m, u.value, id)
  {
    if a.Read? && s.pass.value.toRead[0] == id { UnreadIsIdle(p, s, id); }
    if a.Operate? && a.step.Commit? && s.m.flights[a.step.token].rec.id == id { HandsOff(p, s, a, id); }
  }

  /** An operator has no replay of the letter under way. */
  lemma HandsOff(p: Params, s: State, a: Action, id: string)
    requires M.Inv(s.m) && s.stories.Keys == s.m.origins.Keys && (id in s.stories ==> At(p, s, id))
    requires a.Operate? && ByOperator(s.m, a.step) && a.step.Commit?
    ensures s.m.flights[a.step.token].rec.id != id
  {
    assert M.FlightOk(s.m, a.step.token);
    assert forall k | id in s.stories && k in s.m.flights && s.m.flights[k].rec.id == id :: FlightAt(p, s, id, k);
  }

  /** So, letter by letter, a run is a run of ReplayMachine without overlap, and everything proved
      of those holds of it. */
  lemma {:induction false} RunIsExclusive(p: Params, s: State, acts: seq<Action>, id: string)
    requires Inv(s) && (id in s.stories ==> At(p, s, id)) && Runs(p, s, acts) && p.maxAttempts >= 1
    requires GentleRun(acts, id)
    ensures M.Runs(s.m, Trace(p, s, acts)) && M.ExclusiveRunFor(s.m, Trace(p, s, acts), id)
    ensures M.Exec(s.m, Trace(p, s, acts)) == Exec(p, s, acts).m
    decreases |acts|
  {
    if acts != [] {
      var a, t := acts[0], Apply(p, s, acts[0]);
      assert a in acts;
      SchedulerIsExclusive(p, s, a, id);
      StepKeepsInv(p, s, a);
      StepKeepsAt(p, s, a, id);
      RunIsExclusive(p, t, acts[1..], id);
      var u, rest := Underlying(p, s, a), Trace(p, t, acts[1..]);
      if u.Some? {
        M.ExecCons(s.m, u.value, rest);
        assert ([u.value] + rest)[1..] == rest;
      } else {
        assert [] + rest == rest;
      }
    }
  }

  // ---- what the metrics count ------------------------------------------------------------

  ghost predicate ClosedOk(s: State, id: string)
    requires id in s.closed
  {
    && id !in s.m.letters && id in s.m.origins
    && id in s.m.failures && s.closed[id] == s.m.failures[id]
    && id in s.m.successes && s.m.successes[id] == 1
  }

  /** A stored letter is still there or was closed by its one successful replay. */
  ghost predicate LedgerOk(s: State) {
    && (forall id | id in s.closed :: ClosedOk(s, id))
    && (forall id | id in s.m.origins :: id in s.m.letters || id in s.closed)
    && (forall id | id in s.m.letters :: id in s.m.origins)
  }

  ghost predicate TotalsOk(m: M.State) {
    && m.storedTotal == |m.origins|
    && m.replaySuccessTotal == Sum(m.successes)
    && m.replayFailureTotal == Sum(m.failures)
  }

  ghost predicate Quiet(a: Action) {
    !a.Operate? && (a.Commit? ==> !a.fault)
  }

  /** The flight a step works on is the scheduler's and is exact. */
  ghost predicate StepFlight(s: State, a: Action) {
    (a.PostReturns? || a.Commit?) ==>
      a.token in s.m.flights && s.m.flights[a.token].who.Scheduler? && M.ExactFlight(s.m, a.token)
  }

  lemma LedgerKept(p: Params, s: State, a: Action)
    requires Enabled(p, s, a) && LedgerOk(s) && StepFlight(s, a) && Quiet(a)
    ensures LedgerOk(Apply(p, s, a))
  {
    var t := Apply(p, s, a);
    forall id | id in t.closed ensures ClosedOk(t, id) {
      if id in s.closed { assert ClosedOk(s, id); }
    }
  }

  lemma StoreKeepsTotals(m: M.State, a: M.Action)
    requires a.Store? && M.Enabled(m, a) && TotalsOk(m)
    requires m.failures.Keys == m.origins.Keys && m.successes.Keys == m.origins.Keys
    ensures TotalsOk(M.Apply(m, a))
  {
    if !a.fault {
      assert m.origins[a.id := OriginOf(a.rec)].Keys == m.origins.Keys + {a.id};
      SumSet(m.successes, a.id, 0);
      SumSet(m.failures, a.id, 0);
    }
  }

  lemma CountUpAddsOne(m: map<string, nat>, id: string)
    requires id in m
    ensures Sum(M.CountUp(m, id)) == Sum(m) + 1
  {
    SumSet(m, id, m[id] + 1);
  }

  lemma PostKeepsTotals(m: M.State, a: M.Action)
    requires a.PostReturns? && M.Enabled(m, a) && TotalsOk(m) && m.flights[a.token].who.Scheduler?
    requires var id := m.flights[a.token].rec.id; id in m.failures && id in m.successes
    ensures TotalsOk(M.Apply(m, a))
  {
    var id := m.flights[a.token].rec.id;
    CountUpAddsOne(m.successes, id);
    CountUpAddsOne(m.failures, id);
  }

  lemma TotalsKept(p: Params, s: State, a: Action)
    requires Enabled(p, s, a) && TotalsOk(s.m) && StepFlight(s, a) && Quiet(a)
    requires s.m.failures.Keys == s.m.origins.Keys && s.m.successes.Keys == s.m.origins.Keys
    ensures TotalsOk(MachineAfter(p, s, a))
  {
    var u := Underlying(p, s, a);
    if u.Some? {
      if u.value.Store? { StoreKeepsTotals(s.m, u.value); }
      if u.value.PostReturns? { PostKeepsTotals(s.m, u.value); }
    }
  }

  // ---- whole runs ------------------------------------------------------------------------

  ghost predicate AllExact(p: Params, s: State) {
    && (forall id | id in s.stories :: At(p, s, id))
    && (forall id :: M.ExactAt(s.m, id))
  }

  ghost predicate QuietInv(p: Params, s: State) {
    p.maxAttempts >= 1 && Inv(s) && AllExact(p, s) && LedgerOk(s) && TotalsOk(s.m)
  }

  lemma QuietFlight(p: Params, s: State, a: Action)
    requires Inv(s) && AllExact(p, s) && Enabled(p, s, a)
    ensures StepFlight(s, a)
  {
    if a.PostReturns? || a.Commit? {
      assert M.FlightOk(s.m, a.token);
      assert M.ExactAt(s.m, s.m.flights[a.token].rec.id);
    }
  }

  lemma StepKeepsAllExact(p: Params, s: State, a: Action)
    requires p.maxAttempts >= 1 && Inv(s) && AllExact(p, s) && Enabled(p, s, a) && Quiet(a)
    ensures AllExact(p, Apply(p, s, a))
  {
    var t := Apply(p, s, a);
    forall id | id in t.stories ensures At(p, t, id) { StepKeepsAt(p, s, a, id); }
    forall id ensures M.ExactAt(t.m, id) {
      SchedulerIsExclusive(p, s, a, id);
      var u := Underlying(p, s, a);
      assert M.ExactAt(s.m, id);
      if u.Some? { M.StepKeepsExact(s.m, u.value, id); }
    }
  }

  lemma StepKeepsQuietInv(p: Params, s: State, a: Action)
    requires QuietInv(p, s) && Enabled(p, s, a) && Quiet(a)
    ensures QuietInv(p, Apply(p, s, a))
  {
    QuietFlight(p, s, a);
    StepKeepsInv(p, s, a);
    StepKeepsAllExact(p, s, a);
    LedgerKept(p, s, a);
    TotalsKept(p, s, a);
  }

  lemma {:induction false} RunKeepsQuietInv(p: Params, s: State, acts: seq<Action>)
    requires QuietInv(p, s) && Runs(p, s, acts) && forall a | a in acts :: Quiet(a)
    ensures QuietInv(p, Exec(p, s, acts))
    decreases |acts|
  {
    if acts != [] {
      assert acts[0] in acts;
      StepKeepsQuietInv(p, s, acts[0]);
      RunKeepsQuietInv(p, Apply(p, s, acts[0]), acts[1..]);
    }
  }

  lemma EmptyStart(p: Params, clock: int)
    requires p.maxAttempts >= 1
    ensures QuietInv(p, Start(p, map[], clock))
  {
    M.BootInv(map[]);
  }

  ghost function AttemptsOf(letters: Letters): map<string, int> {
    map id | id in letters :: letters[id].attempts
  }

  /** Whenever no replay is under way the metrics balance: letters stored minus letters delivered
      is the size of the queue, and every failed replay is found again in the Attempts of a live
      letter or in those a delivered letter had just before it was removed. The metrics count from
      the start of the process, so this is about runs that began with an empty queue. */
  lemma CountersBalance(p: Params, clock: int, acts: seq<Action>)
    requires p.maxAttempts >= 1 && Runs(p, Start(p, map[], clock), acts) && forall a | a in acts :: Quiet(a)
    requires Exec(p, Start(p, map[], clock), acts).m.flights == map[]
    ensures var s := Exec(p, Start(p, map[], clock), acts);
            && s.m.storedTotal - s.m.replaySuccessTotal == |s.m.letters|
            && s.m.replayFailureTotal == Sum(AttemptsOf(s.m.letters)) + Sum(s.closed)
  {
    EmptyStart(p, clock);
    RunKeepsQuietInv(p, Start(p, map[], clock), acts);
    QuiescentBalance(Exec(p, Start(p, map[], clock), acts), p);
  }

  ghost predicate SettledOk(m: M.State, id: string)
    requires id in m.letters
  {
    && id in m.failures && m.failures[id] == m.letters[id].attempts
    && id in m.successes && m.successes[id] == 0
  }

  lemma QuiescentBalance(s: State, p: Params)
    requires QuietInv(p, s) && s.m.flights == map[]
    ensures s.m.storedTotal - s.m.replaySuccessTotal == |s.m.letters|
    ensures s.m.replayFailureTotal == Sum(AttemptsOf(s.m.letters)) + Sum(s.closed)
  {
    forall id | id in s.m.letters ensures SettledOk(s.m, id) {
      assert M.ExactAt(s.m, id) && !M.Busy(s.m, id);
    }
    SplitLedger(s);
    SplitSuccesses(s);
    SplitFailures(s);
  }

  lemma SplitLedger(s: State)
    requires LedgerOk(s)
    ensures |s.m.origins| == |s.m.letters| + |s.closed|
  {
    forall id | id in s.closed ensures ClosedOk(s, id) {}
    SizeSplit(s.m.origins.Keys, s.m.letters.Keys, s.closed.Keys);
  }

  lemma SplitSuccesses(s: State)
    requires LedgerOk(s) && s.m.successes.Keys == s.m.origins.Keys
    requires forall id | id in s.m.letters :: SettledOk(s.m, id)
    ensures Sum(s.m.successes) == |s.closed|
  {
    var zeros: map<string, int> := map id | id in s.m.letters :: 0;
    var ones: map<string, int> := map id | id in s.closed :: 1;
    assert Splits(s.m.successes, zeros, ones) by {
      forall id | id in s.closed ensures ClosedOk(s, id) {}
    }
    SumSplit(s.m.successes, zeros, ones);
    SumConst(zeros, 0);
    SumConst(ones, 1);
    assert ones.Keys == s.closed.Keys;
  }

  lemma SplitFailures(s: State)
    requires LedgerOk(s) && s.m.failures.Keys == s.m.origins.Keys
    requires forall id | id in s.m.letters :: SettledOk(s.m, id)
    ensures Sum(s.m.failures) == Sum(AttemptsOf(s.m.letters)) + Sum(s.closed)
  {
    assert Splits(s.m.failures, AttemptsOf(s.m.letters), s.closed) by {
      forall id | id in s.closed ensures ClosedOk(s, id) {}
    }
    SumSplit(s.m.failures, AttemptsOf(s.m.letters), s.closed);
  }

  lemma SizeSplit(whole: set<string>, left: set<string>, right: set<string>)
    requires left !! right && whole == left + right
    ensures |whole| == |left| + |right|
  {
  }

  // ---- work left -------------------------------------------------------------------------

  ghost function Remaining(p: Params, letters: Letters): map<string, int> {
    map id | id in letters :: p.maxAttempts - letters[id].attempts
  }

  /** Replays the scheduler may still make of the letters in the bucket. */
  ghost function Work(p: Params, s: State): int {
    Sum(Remaining(p, s.m.letters))
  }

  lemma WorkNew(p: Params, letters: Letters, r: Record)
    requires r.id !in letters && r.attempts == 0
    ensures Sum(Remaining(p, letters[r.id := r])) == Sum(Remaining(p, letters)) + p.maxAttempts
  {
    assert Remaining(p, letters[r.id := r]) == Remaining(p, letters)[r.id := p.maxAttempts];
    SumSet(Remaining(p, letters), r.id, p.maxAttempts);
  }

  lemma WorkSettle(p: Params, letters: Letters, r: Record, who: Replayer, post: Post, now: int)
    requires r.id in letters && letters[r.id] == r && r.attempts < p.maxAttempts
    ensures Sum(Remaining(p, Settle(letters, r, who, post, now, false))) < Sum(Remaining(p, letters))
  {
    SumPick(Remaining(p, letters), r.id);
    match post
    case Delivered =>
      assert Remaining(p, letters - {r.id}) == Remaining(p, letters) - {r.id};
    case Failed(e) =>
      var r1 := AfterFailure(r, who, e, now);
      assert Remaining(p, letters[r.id := r1]) == Remaining(p, letters)[r.id := p.maxAttempts - r1.attempts];
      SumSet(Remaining(p, letters), r.id, p.maxAttempts - r1.attempts);
  }

  /** Each settled replay uses up work; only a new letter brings more. */
  lemma WorkFalls(p: Params, s: State, a: Action)
    requires Inv(s) && AllExact(p, s) && Enabled(p, s, a) && Quiet(a)
    ensures Work(p, Apply(p, s, a))
         <= Work(p, s) + (if a.Deliver? && Saved(p, a.d) then p.maxAttempts else 0) - (if a.Commit? then 1 else 0)
  {
    if a.Deliver? && Saved(p, a.d) {
      assert LetterOf(p, a.d).id !in s.m.letters by { assert forall id | id in s.m.letters :: M.LetterOk(s.m, id); }
      WorkNew(p, s.m.letters, LetterOf(p, a.d));
    } else if a.Commit? {
      QuietFlight(p, s, a);
      var f := s.m.flights[a.token];
      assert M.FlightOk(s.m, a.token);
      assert FlightAt(p, s, f.rec.id, a.token);
      CommitEffect(p, s, a);
      WorkSettle(p, s.m.letters, f.rec, f.who, f.post.value, a.at);
    } else {
      SameLetters(p, s, a);
    }
  }

  lemma SameLetters(p: Params, s: State, a: Action)
    requires Enabled(p, s, a) && Quiet(a) && !a.Commit? && !(a.Deliver? && Saved(p, a.d))
    ensures Apply(p, s, a).m.letters == s.m.letters
  {
  }
}
