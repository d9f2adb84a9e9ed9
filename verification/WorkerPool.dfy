/** The dispatcher's job channel and workers (Dispatch, worker and Close in
    internal/webhooks/worker_dispatcher.go), for any interleaving of callers and workers. Nobody
    calls Dispatch once Close has been called; Go would panic. */
module WorkerPool {
  import opened Storage
  import opened Subscriptions
  import opened Delivery
  import opened DeadLetters

  datatype Worker = Idle | Busy(task: Task) | Gone

  /** `accepted` lists the events Dispatch took, `taken` those a worker received, `done` the jobs
      finished, each in the order it happened. */
  datatype State = State(queue: seq<Event>, workers: seq<Worker>, closed: bool, returned: bool,
                         accepted: seq<Event>, taken: seq<Event>, done: seq<Job>)

  datatype Params = Params(workerCount: nat, maxAttempts: nat, hasDlq: bool)

  datatype Action =
    | Dispatch(evt: Event)
    | Take(w: nat, task: Task)
    | Finish(w: nat)
    | Close
    | Exit(w: nat)
    | CloseReturns

  ghost function Start(p: Params): State {
    State([], seq(p.workerCount, _ => Idle), false, false, [], [], [])
  }

  ghost predicate Enabled(p: Params, s: State, a: Action) {
    match a
    case Dispatch(_) => !s.closed && |s.queue| < 4 * p.workerCount
    case Take(w, task) => w < |s.workers| && s.workers[w] == Idle && s.queue != [] && task.evt == s.queue[0]
    case Finish(w) => w < |s.workers| && s.workers[w].Busy?
    case Close => !s.closed
    case Exit(w) => w < |s.workers| && s.workers[w] == Idle && s.queue == [] && s.closed
    case CloseReturns => s.closed && !s.returned && forall w | 0 <= w < |s.workers| :: s.workers[w] == Gone
  }

  ghost function Apply(p: Params, s: State, a: Action): State
    requires Enabled(p, s, a)
  {
    match a
    case Dispatch(evt) => s.(queue := s.queue + [evt], accepted := s.accepted + [evt])
    case Take(w, task) =>
      s.(queue := s.queue[1..], workers := s.workers[w := Busy(task)], taken := s.taken + [s.queue[0]])
    case Finish(w) =>
      s.(workers := s.workers[w := Idle], done := s.done + [JobFor(s.workers[w].task, p.maxAttempts, p.hasDlq)])
    case Close => s.(closed := true)
    case Exit(w) => s.(workers := s.workers[w := Gone])
    case CloseReturns => s.(returned := true)
  }

  ghost predicate Runs(p: Params, s: State, acts: seq<Action>)
    decreases |acts|
  {
    acts == [] || (Enabled(p, s, acts[0]) && Runs(p, Apply(p, s, acts[0]), acts[1..]))
  }

  ghost function Exec(p: Params, s: State, acts: seq<Action>): State
    requires Runs(p, s, acts)
    decreases |acts|
  {
    if acts == [] then s else Exec(p, Apply(p, s, acts[0]), acts[1..])
  }

  // ---- accounting ------------------------------------------------------------------------

  ghost function InHand(w: Worker): multiset<Event> {
    if w.Busy? then multiset{w.task.evt} else multiset{}
  }

  ghost function InFlight(workers: seq<Worker>): multiset<Event> {
    if workers == [] then multiset{} else InHand(workers[0]) + InFlight(workers[1..])
  }

  ghost function Events(done: seq<Job>): multiset<Event> {
    if done == [] then multiset{} else Events(done[..|done| - 1]) + multiset{done[|done| - 1].evt}
  }

  lemma {:induction false} InFlightUpdate(workers: seq<Worker>, w: nat, x: Worker)
    requires w < |workers|
    ensures InFlight(workers[w := x]) + InHand(workers[w]) == InFlight(workers) + InHand(x)
  {
    var rest := workers[1..];
    if w == 0 {
      assert workers[0 := x][1..] == rest;
      Shuffle(InHand(x), InFlight(rest), InHand(workers[0]));
    } else {
      InFlightUpdate(rest, w - 1, x);
      assert workers[w := x][1..] == rest[w - 1 := x];
      Shuffle(InHand(workers[0]), InFlight(rest[w - 1 := x]), InHand(workers[w]));
      Shuffle(InHand(workers[0]), InFlight(rest), InHand(x));
    }
  }

  lemma Shuffle(a: multiset<Event>, b: multiset<Event>, c: multiset<Event>)
    ensures (a + b) + c == a + (b + c) == (c + b) + a
  {
  }

  lemma {:induction false} AllIdle(n: nat)
    ensures InFlight(seq(n, _ => Idle)) == multiset{} && Weight(seq(n, _ => Idle)) == n
  {
    if n > 0 {
      assert seq(n, _ => Idle)[1..] == seq(n - 1, _ => Idle);
      AllIdle(n - 1);
    }
  }

  lemma {:induction false} AllGone(workers: seq<Worker>)
    requires forall w | 0 <= w < |workers| :: workers[w] == Gone
    ensures InFlight(workers) == multiset{}
  {
    if workers != [] { AllGone(workers[1..]); }
  }

  /** Accepted = queued + in flight + processed, in arrival order up to the workers' hands. */
  ghost predicate FlowOk(s: State) {
    && s.accepted == s.taken + s.queue
    && multiset(s.taken) == InFlight(s.workers) + Events(s.done)
  }

  /** Workers leave only a closed, drained queue. */
  ghost predicate WorkersOk(p: Params, s: State) {
    && |s.workers| == p.workerCount && |s.queue| <= 4 * p.workerCount
    && (forall w | 0 <= w < |s.workers| && s.workers[w] == Gone :: s.closed && s.queue == [])
    && (s.returned ==> s.closed && forall w | 0 <= w < |s.workers| :: s.workers[w] == Gone)
  }

  ghost predicate Inv(p: Params, s: State) {
    FlowOk(s) && WorkersOk(p, s) && forall i | 0 <= i < |s.done| :: JobOk(s.done[i], p.maxAttempts, p.hasDlq)
  }

  lemma Unit(a: multiset<Event>)
    ensures a + multiset{} == a
  {
  }

  lemma TakeFromHands(workers: seq<Worker>, w: nat, task: Task, done: multiset<Event>)
    requires w < |workers| && workers[w] == Idle
    ensures InFlight(workers[w := Busy(task)]) + done == (InFlight(workers) + done) + multiset{task.evt}
  {
    var e := task.evt;
    InFlightUpdate(workers, w, Busy(task));
    Unit(InFlight(workers[w := Busy(task)]));
    Shuffle(InFlight(workers), multiset{e}, done);
    Shuffle(InFlight(workers), done, multiset{e});
    Shuffle(multiset{e}, done, InFlight(workers));
  }

  lemma HeadMoves(taken: seq<Event>, queue: seq<Event>)
    requires queue != []
    ensures taken + queue == (taken + [queue[0]]) + queue[1..]
    ensures multiset(taken + [queue[0]]) == multiset(taken) + multiset{queue[0]}
  {
    assert queue == [queue[0]] + queue[1..];
  }

  lemma TakeKeepsFlow(p: Params, s: State, a: Action)
    requires a.Take? && FlowOk(s) && Enabled(p, s, a)
    ensures FlowOk(Apply(p, s, a))
  {
    HeadMoves(s.taken, s.queue);
    TakeFromHands(s.workers, a.w, a.task, Events(s.done));
  }

  lemma ReturnFromHands(workers: seq<Worker>, w: nat, done: multiset<Event>)
    requires w < |workers| && workers[w].Busy?
    ensures InFlight(workers[w := Idle]) + (done + multiset{workers[w].task.evt}) == InFlight(workers) + done
  {
    var e := workers[w].task.evt;
    InFlightUpdate(workers, w, Idle);
    Unit(InFlight(workers));
    var rest := InFlight(workers[w := Idle]);
    Shuffle(rest, multiset{e}, done);
    Shuffle(multiset{e}, done, rest);
    Shuffle(done, multiset{e}, rest);
  }

  lemma FinishKeepsFlow(p: Params, s: State, a: Action)
    requires a.Finish? && FlowOk(s) && Enabled(p, s, a)
    ensures FlowOk(Apply(p, s, a))
  {
    ReturnFromHands(s.workers, a.w, Events(s.done));
    var job := JobFor(s.workers[a.w].task, p.maxAttempts, p.hasDlq);
    assert (s.done + [job])[..|s.done|] == s.done;
  }

  lemma ExitKeepsFlow(p: Params, s: State, a: Action)
    requires a.Exit? && FlowOk(s) && Enabled(p, s, a)
    ensures FlowOk(Apply(p, s, a))
  {
    InFlightUpdate(s.workers, a.w, Gone);
    Unit(InFlight(s.workers));
    Unit(InFlight(Apply(p, s, a).workers));
  }

  lemma StepKeepsFlow(p: Params, s: State, a: Action)
    requires FlowOk(s) && Enabled(p, s, a)
    ensures FlowOk(Apply(p, s, a))
  {
    match a
    case Dispatch(evt) => assert s.taken + s.queue + [evt] == s.taken + (s.queue + [evt]);
    case Take(_, _) => TakeKeepsFlow(p, s, a);
    case Finish(_) => FinishKeepsFlow(p, s, a);
    case Close =>
    case Exit(_) => ExitKeepsFlow(p, s, a);
    case CloseReturns =>
  }

  lemma StepKeepsWorkers(p: Params, s: State, a: Action)
    requires WorkersOk(p, s) && Enabled(p, s, a)
    ensures WorkersOk(p, Apply(p, s, a))
  {
  }

  lemma StepKeepsInv(p: Params, s: State, a: Action)
    requires Inv(p, s) && Enabled(p, s, a)
    ensures Inv(p, Apply(p, s, a))
  {
    StepKeepsFlow(p, s, a);
    StepKeepsWorkers(p, s, a);
  }

  lemma {:induction false} RunKeepsInv(p: Params, s: State, acts: seq<Action>)
    requires Inv(p, s) && Runs(p, s, acts)
    ensures Inv(p, Exec(p, s, acts))
    decreases |acts|
  {
    if acts != [] {
      StepKeepsInv(p, s, acts[0]);
      RunKeepsInv(p, Apply(p, s, acts[0]), acts[1..]);
    }
  }

  /** At every moment: the queue is within its capacity, events are taken in the order they were
      accepted, and every accepted event is queued, in a worker's hands, or processed. */
  lemma QueueAccounts(p: Params, acts: seq<Action>)
    requires Runs(p, Start(p), acts)
    ensures var s := Exec(p, Start(p), acts);
            && |s.queue| <= 4 * p.workerCount && s.accepted == s.taken + s.queue
            && multiset(s.accepted) == multiset(s.queue) + InFlight(s.workers) + Events(s.done)
  {
    AllIdle(p.workerCount);
    RunKeepsInv(p, Start(p), acts);
  }

  /** When Close returns, every accepted event has been processed exactly once, and every job
      ended as it should: dropped if its listing failed, and otherwise one report per receiver. */
  lemma CloseDrains(p: Params, acts: seq<Action>)
    requires Runs(p, Start(p), acts) && Exec(p, Start(p), acts).returned && p.workerCount >= 1
    ensures var s := Exec(p, Start(p), acts);
            && Events(s.done) == multiset(s.accepted)
            && forall i | 0 <= i < |s.done| :: JobOk(s.done[i], p.maxAttempts, p.hasDlq)
  {
    AllIdle(p.workerCount);
    RunKeepsInv(p, Start(p), acts);
    Drained(p, Exec(p, Start(p), acts));
  }

  lemma Drained(p: Params, s: State)
    requires Inv(p, s) && s.returned && p.workerCount >= 1
    ensures Events(s.done) == multiset(s.accepted)
  {
    AllGone(s.workers);
    assert s.workers[0] == Gone;
  }

  // ---- Close returns ---------------------------------------------------------------------

  ghost function Weight(workers: seq<Worker>): nat {
    if workers == [] then 0
    else WeightOf(workers[0]) + Weight(workers[1..])
  }

  ghost function WeightOf(w: Worker): nat {
    match w case Idle => 1 case Busy(_) => 2 case Gone => 0
  }

  lemma {:induction false} WeightUpdate(workers: seq<Worker>, w: nat, x: Worker)
    requires w < |workers|
    ensures Weight(workers[w := x]) + WeightOf(workers[w]) == Weight(workers) + WeightOf(x)
  {
    if w == 0 {
      assert workers[0 := x][1..] == workers[1..];
    } else {
      assert workers[w := x][1..] == workers[1..][w - 1 := x];
      WeightUpdate(workers[1..], w - 1, x);
    }
  }

  /** Steps left after Close was called: two per queued event, one per job in hand, one exit per
      worker, and the return. */
  ghost function Left(s: State): nat {
    2 * |s.queue| + Weight(s.workers) + if s.returned then 0 else 1
  }

  /** After Close has been called every step brings its return one step nearer. */
  lemma ClosingStep(p: Params, s: State, a: Action)
    requires Inv(p, s) && Enabled(p, s, a) && s.closed
    ensures Left(Apply(p, s, a)) == Left(s) - 1 && Apply(p, s, a).accepted == s.accepted
  {
    match a
    case Take(w, task) => WeightUpdate(s.workers, w, Busy(task));
    case Finish(w) => WeightUpdate(s.workers, w, Idle);
    case Exit(w) => WeightUpdate(s.workers, w, Gone);
    case CloseReturns =>
  }

  /** And until it returns some step can be taken: a closing pool cannot deadlock. */
  lemma ClosingNeverStuck(p: Params, s: State) returns (a: Action)
    requires Inv(p, s) && s.closed && !s.returned
    ensures Enabled(p, s, a)
  {
    if forall w | 0 <= w < |s.workers| :: s.workers[w] == Gone {
      a := CloseReturns;
    } else {
      var w: nat :| w < |s.workers| && s.workers[w] != Gone;
      if s.workers[w].Busy? {
        a := Finish(w);
      } else if s.queue == [] {
        a := Exit(w);
      } else {
        a := Take(w, Task(s.queue[0], Err(Fault), true, World(_ => _ => Delivered, _ => 0, _ => 0, _ => false)));
      }
    }
  }

  /** Every run from the call of Close on has at most Left steps, and none longer exists. */
  lemma {:induction false} ClosingEnds(p: Params, s: State, acts: seq<Action>)
    requires Inv(p, s) && s.closed && Runs(p, s, acts)
    ensures |acts| == Left(s) - Left(Exec(p, s, acts))
    ensures Exec(p, s, acts).accepted == s.accepted
    decreases |acts|
  {
    if acts != [] {
      ClosingStep(p, s, acts[0]);
      StepKeepsInv(p, s, acts[0]);
      ClosingEnds(p, Apply(p, s, acts[0]), acts[1..]);
    }
  }
}
