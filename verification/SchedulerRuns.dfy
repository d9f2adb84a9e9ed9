/** The dead-letter queue with its clocks (runAutoRetryPass and replayAndUpdate in
    internal/webhooks/worker_dispatcher.go): ReplayMachine once more, now with the structure of a
    scheduler pass and the readings of a clock that does not go back. A pass reads the letters one
    by one, launches the eligible ones in order, a bounded number at a time, and ends when all have
    committed. Workers deliver events and store what they could not deliver, and operators replay
    and delete, at any point; any store access may fail. */
module SchedulerRuns {
  import opened KeyOrder
  import opened Subscriptions
  import opened Backoff
  import opened DeadLetters
  import opened Delivery
  import M = ReplayMachine

  /** `maxAttempts` bounds the replays of a letter, `deliveryAttempts` the POSTs of a delivery. */
  datatype Params = Params(coolingOff: int, maxAttempts: int, deliveryAttempts: nat, workers: nat)

  /** Keys still to be read, and the snapshots read so far and not launched yet. */
  datatype Pass = Pass(began: int, toRead: seq<string>, todo: seq<nat>)

  /** One scheduler replay: the Attempts it found, when it began, and how many commits of its
      letter had been lost by then. */
  datatype Begun = Begun(count: int, at: int, lost: nat)

  /** What happened to one letter: the time its back-off is counted from, the Attempts it came
      with, its scheduler replays, and how many of their commits the store refused. */
  datatype Story = Story(base: int, first: int, starts: seq<Begun>, lost: nat)

  /** One delivery of an event to a subscription: the outcomes its POSTs have, and the clock
      readings and the store failure that saving it as a dead letter would meet. */
  datatype Attempt = Attempt(sub: Subscription, evt: Event, post: nat -> Post, at: int, keyNs: int, fault: bool)

  function ReportOf(p: Params, d: Attempt): Report {
    ReportFor(d.post, p.deliveryAttempts, true)
  }

  /** The delivery leaves a dead letter. */
  predicate Saved(p: Params, d: Attempt) {
    ReportOf(p, d).Abandoned? && !d.fault
  }

  function LetterOf(p: Params, d: Attempt): Record {
    DeadLetter(d.sub, d.evt, Outcome(d.post(p.deliveryAttempts)), d.at, d.keyNs, p.coolingOff)
  }

  /** `active` are the scheduler's goroutines; `closed` is the Attempts a letter had just before
      its successful replay removed it. */
  datatype State = State(
    m: M.State, clock: int, pass: Option<Pass>, active: set<nat>,
    stories: map<string, Story>, deliveries: seq<Attempt>, closed: map<string, int>)

  datatype Action =
    | Deliver(d: Attempt, now: int)
    | Begin(now: int)
    | Read(token: nat)
    | Abort
    | Launch
    | PostReturns(token: nat, start: int, now: int, post: Post)
    | Commit(token: nat, at: int, now: int, fault: bool)
    | End
    | Operate(step: M.Action, now: int)

  /** A letter found at start-up counts as if it had waited out its earlier back-offs exactly. */
  function Found(p: Params, r: Record): Story {
    Story(r.nextRetryAfter - Floor(p.coolingOff, r.attempts), r.attempts, [], 0)
  }

  ghost function Start(p: Params, letters: Letters, clock: int): State {
    State(M.Boot(letters), clock, None, {}, map id | id in letters :: Found(p, letters[id]), [], map[])
  }

  /** What a pass that began at `now` picks up. */
  function Eligible(now: int, maxAttempts: int): Record -> bool {
    (r: Record) => !r.IsTerminal(maxAttempts) && r.nextRetryAfter <= now
  }

  /** The letter the pass reads next, if it is still there and eligible. */
  ghost predicate Picks(p: Params, s: State) {
    && s.pass.Some? && s.pass.value.toRead != []
    && var id := s.pass.value.toRead[0];
       id in s.m.letters && Eligible(s.pass.value.began, p.maxAttempts)(s.m.letters[id])
  }

  ghost function Tokens(todo: seq<nat>): set<nat> {
    set k | k in todo
  }

  /** Steps an operator's request takes in ReplayMachine. */
  ghost predicate ByOperator(m: M.State, step: M.Action) {
    match step
    case Store(_, _, _) => false
    case Snapshot(_, who, _) => who.Operator?
    case PostReturns(token, _) => token in m.flights && m.flights[token].who.Operator?
    case Commit(token, _, _) => token in m.flights && m.flights[token].who.Operator?
    case Cancel(_, _) => true
    case Drop(tokens) => forall k | k in tokens :: k in m.flights && m.flights[k].who.Operator?
  }

  /** The step of ReplayMachine that a step amounts to, if any. */
  ghost function Underlying(p: Params, s: State, a: Action): Option<M.Action> {
    match a
    case Deliver(d, _) =>
      if ReportOf(p, d).Abandoned? then Some(M.Store(LetterOf(p, d).id, LetterOf(p, d), d.fault)) else None
    case Read(token) =>
      if Picks(p, s) then Some(M.Snapshot(token, Scheduler(p.coolingOff), s.pass.value.toRead[0])) else None
    case Abort => if s.pass.Some? then Some(M.Drop(Tokens(s.pass.value.todo))) else None
    case PostReturns(token, _, _, post) => Some(M.PostReturns(token, post))
    case Commit(token, at, _, fault) => Some(M.Commit(token, at, fault))
    case Operate(step, _) => Some(step)
    case _ => None
  }

  ghost predicate MachineAllows(p: Params, s: State, a: Action) {
    var u := Underlying(p, s, a);
    u.Some? ==> M.Enabled(s.m, u.value)
  }

  ghost predicate Scheduled(s: State, token: nat) {
    s.pass.Some? && token in s.active && token in s.m.flights && s.m.flights[token].who.Scheduler?
  }

  ghost predicate Enabled(p: Params, s: State, a: Action) {
    && MachineAllows(p, s, a)
    && match a
       case Deliver(d, now) => d.at <= now && s.clock <= now
       case Begin(now) => s.pass.None? && s.clock <= now
       case Read(token) => s.pass.Some? && s.pass.value.toRead != [] && token !in s.m.flights
       case Abort => s.pass.Some? && s.pass.value.toRead != []
       case Launch =>
         s.pass.Some? && s.pass.value.toRead == [] && s.pass.value.todo != [] && |s.active| < p.workers
       case PostReturns(token, start, now, _) =>
         Scheduled(s, token) && s.pass.value.began <= start <= now && s.clock <= now
       case Commit(token, at, now, _) =>
         Scheduled(s, token) && s.pass.value.began <= at <= now && s.clock <= now
       case End => s.pass.Some? && s.pass.value.toRead == [] && s.pass.value.todo == [] && s.active == {}
       case Operate(step, now) => ByOperator(s.m, step) && s.clock <= now
  }

  ghost function ClockAfter(s: State, a: Action): int {
    match a
    case Deliver(_, now) => now
    case Begin(now) => now
    case PostReturns(_, _, now, _) => now
    case Commit(_, _, now, _) => now
    case Operate(_, now) => now
    case _ => s.clock
  }

  ghost function PassAfter(p: Params, s: State, a: Action): Option<Pass> {
    match a
    case Begin(now) => Some(Pass(now, Sorted(s.m.letters.Keys), []))
    case Read(token) =>
      if s.pass.None? || s.pass.value.toRead == [] then s.pass else
        var rest := s.pass.value.(toRead := s.pass.value.toRead[1..]);
        Some(if Picks(p, s) then rest.(todo := rest.todo + [token]) else rest)
    case Launch =>
      if s.pass.None? || s.pass.value.todo == [] then s.pass
      else Some(s.pass.value.(todo := s.pass.value.todo[1..]))
    case Abort => None
    case End => None
    case _ => s.pass
  }

  ghost function ActiveAfter(s: State, a: Action): set<nat> {
    match a
    case Launch => if s.pass.None? || s.pass.value.todo == [] then s.active else s.active + {s.pass.value.todo[0]}
    case Commit(token, _, _, _) => s.active - {token}
    case _ => s.active
  }

  ghost function Begins(st: Story, count: int, at: int): Story {
    st.(starts := st.starts + [Begun(count, at, st.lost)])
  }

  ghost function StoriesAfter(p: Params, s: State, a: Action): map<string, Story> {
    match a
    case Deliver(d, _) => if Saved(p, d) then s.stories[LetterOf(p, d).id := Story(d.at, 0, [], 0)] else s.stories
    case PostReturns(token, start, _, _) =>
      if token !in s.m.flights || s.m.flights[token].rec.id !in s.stories then s.stories else
        var r := s.m.flights[token].rec;
        s.stories[r.id := Begins(s.stories[r.id], r.attempts, start)]
    case Commit(token, _, _, fault) =>
      if !fault || token !in s.m.flights || s.m.flights[token].rec.id !in s.stories then s.stories else
        var id := s.m.flights[token].rec.id;
        s.stories[id := s.stories[id].(lost := s.stories[id].lost + 1)]
    case _ => s.stories
  }

  ghost function ClosedAfter(s: State, a: Action): map<string, int> {
    if a.Commit? && !a.fault && a.token in s.m.flights && s.m.flights[a.token].post == Some(Delivered)
       && s.m.flights[a.token].rec.id in s.m.letters
    then var id := s.m.flights[a.token].rec.id; s.closed[id := s.m.letters[id].attempts]
    else s.closed
  }

  ghost function MachineAfter(p: Params, s: State, a: Action): M.State
    requires MachineAllows(p, s, a)
  {
    var u := Underlying(p, s, a);
    if u.None? then s.m else M.Apply(s.m, u.value)
  }

  ghost function Apply(p: Params, s: State, a: Action): State
    requires Enabled(p, s, a)
  {
    State(MachineAfter(p, s, a), ClockAfter(s, a), PassAfter(p, s, a), ActiveAfter(s, a), StoriesAfter(p, s, a),
          if a.Deliver? then s.deliveries + [a.d] else s.deliveries, ClosedAfter(s, a))
  }

  ghost predicate Runs(p: Params, s: State, acts: seq<Action>)
    decreases |acts|
  {
    acts == [] || (Enabled(p, s, acts[0]) && Runs(p, Apply(p, s, acts[0]), acts[1..]))
  }

  ghost function Exec(p: Params, s: State, acts: seq<Action>): State
    requires Runs(p, s, acts)
    decreases |acts|
  {
    if acts == [] then s else Exec(p, Apply(p, s, acts[0]), acts[1..])
  }

  // ---- concurrency -----------------------------------------------------------------------

  lemma StepKeepsSlots(p: Params, s: State, a: Action)
    requires Enabled(p, s, a) && |s.active| <= p.workers
    ensures |ActiveAfter(s, a)| <= p.workers
  {
    if a.Commit? { assert s.active == ActiveAfter(s, a) + (s.active * {a.token}); }
  }

  /** The scheduler never has more goroutines at work than the configured workers. */
  lemma {:induction false} SchedulerStaysWithinWorkers(p: Params, s: State, acts: seq<Action>)
    requires Runs(p, s, acts) && |s.active| <= p.workers
    ensures |Exec(p, s, acts).active| <= p.workers
    decreases |acts|
  {
    if acts != [] {
      StepKeepsSlots(p, s, acts[0]);
      SchedulerStaysWithinWorkers(p, Apply(p, s, acts[0]), acts[1..]);
    }
  }

  // ---- refinement ------------------------------------------------------------------------

  ghost function Trace(p: Params, s: State, acts: seq<Action>): seq<M.Action>
    requires Runs(p, s, acts)
    decreases |acts|
  {
    if acts == [] then [] else
      var u := Underlying(p, s, acts[0]);
      (if u.Some? then [u.value] else []) + Trace(p, Apply(p, s, acts[0]), acts[1..])
  }

  /** Every run is a run of ReplayMachine, so everything proved there holds here. */
  lemma {:induction false} TraceIsMachineRun(p: Params, s: State, acts: seq<Action>)
    requires Runs(p, s, acts)
    ensures M.Runs(s.m, Trace(p, s, acts)) && M.Exec(s.m, Trace(p, s, acts)) == Exec(p, s, acts).m
    decreases |acts|
  {
    if acts != [] {
      var u, t := Underlying(p, s, acts[0]), Apply(p, s, acts[0]);
      TraceIsMachineRun(p, t, acts[1..]);
      if u.Some? { M.ExecCons(s.m, u.value, Trace(p, t, acts[1..])); } else { assert [] + Trace(p, t, acts[1..]) == Trace(p, t, acts[1..]); }
    }
  }

  // ---- invariants of the whole machine ---------------------------------------------------

  ghost predicate DistinctKeys(keys: seq<string>) {
    forall i, j | 0 <= i < j < |keys| :: keys[i] != keys[j]
  }

  /** Goroutines start only once everything is read. */
  ghost predicate PassOk(s: State) {
    && (s.pass.None? ==> s.active == {})
    && (s.pass.Some? ==> DistinctKeys(s.pass.value.toRead) && (s.pass.value.toRead != [] ==> s.active == {}))
  }

  ghost predicate Inv(s: State) {
    M.Inv(s.m) && PassOk(s) && s.stories.Keys == s.m.origins.Keys
  }

  lemma SortedDistinct(keys: set<string>)
    ensures DistinctKeys(Sorted(keys)) && forall k :: k in Sorted(keys) <==> k in keys
  {
    SortedSpec(keys);
    forall i, j | 0 <= i < j < |Sorted(keys)| ensures Sorted(keys)[i] != Sorted(keys)[j] {
      LessAsym(Sorted(keys)[i], Sorted(keys)[j]);
    }
  }

  lemma StepKeepsPass(p: Params, s: State, a: Action)
    requires PassOk(s) && Enabled(p, s, a)
    ensures PassOk(Apply(p, s, a))
  {
    if a.Begin? { SortedDistinct(s.m.letters.Keys); }
  }

  lemma StepKeepsStoryKeys(p: Params, s: State, a: Action)
    requires s.stories.Keys == s.m.origins.Keys && Enabled(p, s, a)
    ensures Apply(p, s, a).stories.Keys == Apply(p, s, a).m.origins.Keys
  {
    OriginKeys(p, s, a);
    StoryKeys(p, s, a);
  }

  /** Only a delivery that leaves a letter adds an id. */
  lemma OriginKeys(p: Params, s: State, a: Action)
    requires Enabled(p, s, a)
    ensures MachineAfter(p, s, a).origins.Keys
         == s.m.origins.Keys + if a.Deliver? && Saved(p, a.d) then {LetterOf(p, a.d).id} else {}
  {
  }

  lemma StoryKeys(p: Params, s: State, a: Action)
    ensures StoriesAfter(p, s, a).Keys == s.stories.Keys + if a.Deliver? && Saved(p, a.d) then {LetterOf(p, a.d).id} else {}
  {
  }

  lemma StepKeepsInv(p: Params, s: State, a: Action)
    requires Inv(s) && Enabled(p, s, a)
    ensures Inv(Apply(p, s, a))
  {
    StepKeepsPass(p, s, a);
    StepKeepsStoryKeys(p, s, a);
    var u := Underlying(p, s, a);
    if u.Some? { M.StepKeepsInv(s.m, u.value); }
  }

  lemma {:induction false} RunKeepsInv(p: Params, s: State, acts: seq<Action>)
    requires Inv(s) && Runs(p, s, acts)
    ensures Inv(Exec(p, s, acts))
    decreases |acts|
  {
    if acts != [] {
      StepKeepsInv(p, s, acts[0]);
      RunKeepsInv(p, Apply(p, s, acts[0]), acts[1..]);
    }
  }

  lemma StartInv(p: Params, letters: Letters, clock: int)
    requires M.WellFormed(letters)
    ensures Inv(Start(p, letters, clock))
  {
    M.BootInv(letters);
  }
}
