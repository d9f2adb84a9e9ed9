/** Totals over whole runs: the POSTs of one delivery and its dead letter, of the scheduler
    altogether, and the three metrics. */
module SchedulerTotals {
  import opened Numbers
  import opened DeadLetters
  import opened SchedulerRuns
  import opened LetterStories
  import opened MapSums
  import M = ReplayMachine

  // ---- deliveries and their letters ------------------------------------------------------

  /** The letter of the j-th delivery has its own id, and carries the event and the address. */
  ghost predicate LetterOfDelivery(p: Params, s: State, j: nat)
    requires j < |s.deliveries|
  {
    var d := s.deliveries[j];
    var id := LetterOf(p, d).id;
    Saved(p, d) ==>
      && id in s.stories && s.stories[id].first == 0 && s.stories[id].base == d.at
      && id in s.m.origins && s.m.origins[id] == Origin(d.sub.id, d.sub.url, d.sub.secret, d.evt)
  }

  ghost predicate OwnLetters(p: Params, s: State) {
    forall i, j | 0 <= i < j < |s.deliveries| && Saved(p, s.deliveries[i]) && Saved(p, s.deliveries[j]) ::
      LetterOf(p, s.deliveries[i]).id != LetterOf(p, s.deliveries[j]).id
  }

  ghost predicate DeliveriesOk(p: Params, s: State) {
    OwnLetters(p, s) && forall j: nat | j < |s.deliveries| :: LetterOfDelivery(p, s, j)
  }

  lemma StepKeepsLetters(p: Params, s: State, a: Action, j: nat)
    requires Inv(s) && Enabled(p, s, a) && j < |s.deliveries| && LetterOfDelivery(p, s, j)
    ensures j < |Apply(p, s, a).deliveries| && Apply(p, s, a).deliveries[j] == s.deliveries[j]
    ensures LetterOfDelivery(p, Apply(p, s, a), j)
  {
    if Saved(p, s.deliveries[j]) {
      var id := LetterOf(p, s.deliveries[j]).id;
      StepGoesOn(p, s, a, id);
      var u := Underlying(p, s, a);
      if u.Some? { M.StepKeepsOrigin(s.m, u.value, id); }
    }
  }

  lemma DeliverEffect(p: Params, s: State, a: Action)
    requires Enabled(p, s, a) && a.Deliver?
    ensures var t := Apply(p, s, a); t.deliveries == s.deliveries + [a.d] && LetterOfDelivery(p, t, |s.deliveries|)
    ensures Saved(p, a.d) ==> LetterOf(p, a.d).id !in s.m.origins
  {
  }

  lemma NewLetterIsOwn(p: Params, s: State, a: Action)
    requires DeliveriesOk(p, s) && a.Deliver? && (Saved(p, a.d) ==> LetterOf(p, a.d).id !in s.m.origins)
    ensures OwnLetters(p, s.(deliveries := s.deliveries + [a.d]))
  {
    forall i: nat | Saved(p, a.d) && i < |s.deliveries| && Saved(p, s.deliveries[i])
      ensures LetterOf(p, s.deliveries[i]).id != LetterOf(p, a.d).id
    {
      assert LetterOfDelivery(p, s, i);
    }
  }

  lemma OtherSteps(p: Params, s: State, a: Action)
    requires Enabled(p, s, a) && !a.Deliver?
    ensures Apply(p, s, a).deliveries == s.deliveries
  {
  }

  lemma StepKeepsDeliveries(p: Params, s: State, a: Action)
    requires Inv(s) && Enabled(p, s, a) && DeliveriesOk(p, s)
    ensures DeliveriesOk(p, Apply(p, s, a))
  {
    var t := Apply(p, s, a);
    if a.Deliver? {
      DeliverEffect(p, s, a);
      NewLetterIsOwn(p, s, a);
    } else {
      OtherSteps(p, s, a);
    }
    forall j: nat | j < |t.deliveries| ensures LetterOfDelivery(p, t, j) {
      if j < |s.deliveries| { StepKeepsLetters(p, s, a, j); }
    }
  }

  lemma {:induction false} RunKeepsDeliveries(p: Params, s: State, acts: seq<Action>)
    requires Inv(s) && DeliveriesOk(p, s) && Runs(p, s, acts)
    ensures DeliveriesOk(p, Exec(p, s, acts))
    decreases |acts|
  {
    if acts != [] {
      StepKeepsInv(p, s, acts[0]);
      StepKeepsDeliveries(p, s, acts[0]);
      RunKeepsDeliveries(p, Apply(p, s, acts[0]), acts[1..]);
    }
  }

  /** Scheduler POSTs made over a run on account of the j-th delivery. */
  ghost function ReplaysOf(p: Params, s: State, j: nat): nat
    requires j < |s.deliveries| && LetterOfDelivery(p, s, j)
  {
    if Saved(p, s.deliveries[j]) then |s.stories[LetterOf(p, s.deliveries[j]).id].starts| else 0
  }

  /** Commits of that letter the store refused. */
  ghost function LostOf(p: Params, s: State, j: nat): nat
    requires j < |s.deliveries| && LetterOfDelivery(p, s, j)
  {
    if Saved(p, s.deliveries[j]) then s.stories[LetterOf(p, s.deliveries[j]).id].lost else 0
  }

  /** Over a whole run, the POSTs of one delivery of an event to a subscription, its own and those
      the scheduler makes of the dead letter it left, are at most the two maxima together, plus
      one per refused commit; a delivery that was accepted, or whose letter could not be saved,
      stays within the first. Each of the replays carries the same event to the same address. */
  lemma DeliveryPostsBounded(p: Params, letters: Letters, clock: int, acts: seq<Action>, j: nat)
    requires p.maxAttempts >= 1 && M.WellFormed(letters) && Runs(p, Start(p, letters, clock), acts)
    requires var s := LetterStories.After(p, letters, clock, acts);
             j < |s.deliveries| && (Saved(p, s.deliveries[j]) ==> NoManualReplay(acts, LetterOf(p, s.deliveries[j]).id))
    ensures var s := LetterStories.After(p, letters, clock, acts);
            var d := s.deliveries[j];
            && OwnLetters(p, s) && LetterOfDelivery(p, s, j)
            && ReportOf(p, d).attempts <= p.deliveryAttempts
            && ReplaysOf(p, s, j) <= (if Saved(p, d) then p.maxAttempts + LostOf(p, s, j) else 0)
            && ReportOf(p, d).attempts + ReplaysOf(p, s, j) <= p.deliveryAttempts + p.maxAttempts + LostOf(p, s, j)
  {
    var s := LetterStories.After(p, letters, clock, acts);
    StartInv(p, letters, clock);
    RunKeepsDeliveries(p, Start(p, letters, clock), acts);
    assert LetterOfDelivery(p, s, j);
    if Saved(p, s.deliveries[j]) { ReplaysAreBounded(p, letters, clock, acts, LetterOf(p, s.deliveries[j]).id); }
  }

  // ---- the scheduler runs dry ------------------------------------------------------------

  ghost function Total(acts: seq<Action>, g: Action -> int): int {
    if acts == [] then 0 else g(acts[0]) + Total(acts[1..], g)
  }

  /** Steps that are POSTs of the scheduler. */
  function IsPost(): Action -> int {
    (a: Action) => if a.PostReturns? then 1 else 0
  }

  /** Deliveries that leave a letter. */
  function IsLetter(p: Params): Action -> int {
    (a: Action) => if a.Deliver? && Saved(p, a.d) then 1 else 0
  }

  /** Commits the store refuses. */
  function IsRefusal(): Action -> int {
    (a: Action) => if a.Commit? && a.fault then 1 else 0
  }

  /** The replays that a new letter has room for. */
  function NewRoom(p: Params): Action -> int {
    (a: Action) => if a.Deliver? && Saved(p, a.d) then p.maxAttempts else 0
  }

  lemma {:induction false} NewRoomCounts(p: Params, acts: seq<Action>)
    ensures Total(acts, NewRoom(p)) == p.maxAttempts * Total(acts, IsLetter(p))
  {
    if acts != [] {
      NewRoomCounts(p, acts[1..]);
      Distribute(p.maxAttempts, IsLetter(p)(acts[0]), Total(acts[1..], IsLetter(p)));
    }
  }

  lemma Distribute(k: int, m: int, n: int)
    ensures k * (m + n) == k * m + k * n
  {
  }

  /** What grows by g at each step grows by the total over a run. */
  lemma {:induction false} RunGains(p: Params, s: State, acts: seq<Action>, f: map<string, Story> -> int, g: Action -> int)
    requires Inv(s) && Runs(p, s, acts)
    requires forall t, a | Inv(t) && Enabled(p, t, a) :: f(StoriesAfter(p, t, a)) == f(t.stories) + g(a)
    ensures f(Exec(p, s, acts).stories) == f(s.stories) + Total(acts, g)
    decreases |acts|
  {
    if acts != [] {
      StepKeepsInv(p, s, acts[0]);
      RunGains(p, Apply(p, s, acts[0]), acts[1..], f, g);
    }
  }

  function Room(p: Params, attempts: int): int {
    Max(p.maxAttempts - attempts, 0)
  }

  ghost function Rooms(p: Params, stories: map<string, Story>): map<string, int> {
    map id | id in stories :: Room(p, stories[id].first)
  }

  ghost function Made(stories: map<string, Story>): map<string, int> {
    map id | id in stories :: |stories[id].starts|
  }

  ghost function Lost(stories: map<string, Story>): map<string, int> {
    map id | id in stories :: stories[id].lost
  }

  ghost function AllMade(): map<string, Story> -> int {
    (m: map<string, Story>) => Sum(Made(m))
  }

  ghost function AllLost(): map<string, Story> -> int {
    (m: map<string, Story>) => Sum(Lost(m))
  }

  ghost function AllRoom(p: Params): map<string, Story> -> int {
    (m: map<string, Story>) => Sum(Rooms(p, m))
  }

  /** One story changes or begins. */
  lemma StorySet(p: Params, stories: map<string, Story>, id: string, st: Story)
    ensures var was := if id in stories then stories[id] else Story(0, p.maxAttempts, [], 0);
            var next := stories[id := st];
            && Sum(Made(next)) == Sum(Made(stories)) + |st.starts| - |was.starts|
            && Sum(Lost(next)) == Sum(Lost(stories)) + st.lost - was.lost
            && Sum(Rooms(p, next)) == Sum(Rooms(p, stories)) + Room(p, st.first) - Room(p, was.first)
  {
    assert Made(stories[id := st]) == Made(stories)[id := |st.starts|];
    assert Lost(stories[id := st]) == Lost(stories)[id := st.lost];
    assert Rooms(p, stories[id := st]) == Rooms(p, stories)[id := Room(p, st.first)];
    SumSet(Made(stories), id, |st.starts|);
    SumSet(Lost(stories), id, st.lost);
    SumSet(Rooms(p, stories), id, Room(p, st.first));
  }

  /** A step changes at most one story. */
  lemma OneStory(p: Params, s: State, a: Action) returns (id: string, st: Story)
    requires Inv(s) && Enabled(p, s, a) && p.maxAttempts >= 1
    ensures StoriesAfter(p, s, a) == s.stories || StoriesAfter(p, s, a) == s.stories[id := st]
    ensures StoriesAfter(p, s, a) == s.stories[id := st] ==>
              var was := if id in s.stories then s.stories[id] else Story(0, p.maxAttempts, [], 0);
              && |st.starts| == |was.starts| + IsPost()(a) && st.lost == was.lost + IsRefusal()(a)
              && Room(p, st.first) == Room(p, was.first) + NewRoom(p)(a)
    ensures StoriesAfter(p, s, a) != s.stories[id := st] ==> IsPost()(a) == IsRefusal()(a) == NewRoom(p)(a) == 0
  {
    id, st := "", Story(0, p.maxAttempts, [], 0);
    if a.Deliver? && Saved(p, a.d) {
      id, st := LetterOf(p, a.d).id, Story(a.d.at, 0, [], 0);
    } else if a.PostReturns? {
      assert M.FlightOk(s.m, a.token);
      var r := s.m.flights[a.token].rec;
      id, st := r.id, Begins(s.stories[r.id], r.attempts, a.start);
    } else if a.Commit? && a.fault {
      assert M.FlightOk(s.m, a.token);
      id := s.m.flights[a.token].rec.id;
      st := s.stories[id].(lost := s.stories[id].lost + 1);
    }
  }

  lemma StepTotals(p: Params, s: State, a: Action)
    requires Inv(s) && Enabled(p, s, a) && p.maxAttempts >= 1
    ensures AllMade()(StoriesAfter(p, s, a)) == AllMade()(s.stories) + IsPost()(a)
    ensures AllLost()(StoriesAfter(p, s, a)) == AllLost()(s.stories) + IsRefusal()(a)
    ensures AllRoom(p)(StoriesAfter(p, s, a)) == AllRoom(p)(s.stories) + NewRoom(p)(a)
  {
    var id, st := OneStory(p, s, a);
    StorySet(p, s.stories, id, st);
  }

  /** No letter is replayed by hand; operators may still delete. */
  ghost predicate Unattended(acts: seq<Action>) {
    forall a | a in acts :: !(a.Operate? && a.step.Snapshot?)
  }

  ghost function RoomIn(p: Params, letters: DeadLetters.Letters): map<string, int> {
    map id | id in letters :: Room(p, letters[id].attempts)
  }

  /** The scheduler runs dry: over a whole run from any bucket it POSTs at most what the letters
      found there have room for, the configured maximum per new letter, and once more per refused
      commit. */
  lemma SchedulerRunsDry(p: Params, letters: DeadLetters.Letters, clock: int, acts: seq<Action>)
    requires p.maxAttempts >= 1 && M.WellFormed(letters) && Runs(p, Start(p, letters, clock), acts) && Unattended(acts)
    ensures Total(acts, IsPost())
         <= Sum(RoomIn(p, letters)) + p.maxAttempts * Total(acts, IsLetter(p)) + Total(acts, IsRefusal())
  {
    var s0, s := Start(p, letters, clock), LetterStories.After(p, letters, clock, acts);
    StartInv(p, letters, clock);
    forall t, a | Inv(t) && Enabled(p, t, a)
      ensures AllMade()(StoriesAfter(p, t, a)) == AllMade()(t.stories) + IsPost()(a)
      ensures AllLost()(StoriesAfter(p, t, a)) == AllLost()(t.stories) + IsRefusal()(a)
      ensures AllRoom(p)(StoriesAfter(p, t, a)) == AllRoom(p)(t.stories) + NewRoom(p)(a)
    {
      StepTotals(p, t, a);
    }
    RunGains(p, s0, acts, AllMade(), IsPost());
    RunGains(p, s0, acts, AllLost(), IsRefusal());
    RunGains(p, s0, acts, AllRoom(p), NewRoom(p));
    NewRoomCounts(p, acts);
    forall id | id in s.stories ensures |s.stories[id].starts| <= Room(p, s.stories[id].first) + s.stories[id].lost {
      ReplaysAreBounded(p, letters, clock, acts, id);
    }
    RoomEnough(p, s.stories);
    StartTotals(p, letters, clock);
  }

  lemma StartTotals(p: Params, letters: DeadLetters.Letters, clock: int)
    ensures var stories := Start(p, letters, clock).stories;
            Sum(Made(stories)) == 0 && Sum(Lost(stories)) == 0 && Rooms(p, stories) == RoomIn(p, letters)
  {
    var stories := Start(p, letters, clock).stories;
    SumConst(Made(stories), 0);
    SumConst(Lost(stories), 0);
  }

  lemma RoomEnough(p: Params, stories: map<string, Story>)
    requires forall id | id in stories :: |stories[id].starts| <= Room(p, stories[id].first) + stories[id].lost
    ensures Sum(Made(stories)) <= Sum(Rooms(p, stories)) + Sum(Lost(stories))
  {
    SumBounded(Made(stories), Rooms(p, stories), Lost(stories));
  }
}
