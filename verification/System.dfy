/** Workers and the dead-letter queue together: callers dispatch, workers serve one receiver after
    the other and store what they could not deliver, while replays and deletes go on around them. */
module System {
  import opened DeadLetters
  import opened Delivery
  import W = WorkerPool
  import M = ReplayMachine

  datatype Params = Params(workerCount: nat, maxAttempts: nat, coolingOff: int)

  function PoolParams(p: Params): W.Params {
    W.Params(p.workerCount, p.maxAttempts, true)
  }

  /** One delivery: to the i-th receiver of the n-th event taken from the queue. */
  datatype Slot = Slot(n: nat, i: nat)

  /** `served` says how many receivers of its event each worker is done with, `turn` which event
      that is, and `turns` the same for the jobs done. `owner` is the delivery that stored a
      letter. */
  datatype State = State(pool: W.State, m: M.State, served: map<nat, nat>,
                         turn: map<nat, nat>, turns: seq<nat>, owner: map<string, Slot>)

  datatype Action =
    | Pool(step: W.Action)
    | Serve(w: nat)
    | Replay(move: M.Action)

  ghost function Start(p: Params, letters: Letters): State {
    State(W.Start(PoolParams(p)), M.Boot(letters), map[], map[], [], map[])
  }

  /** The report of the i-th receiver of a task. */
  function ReportAt(p: Params, t: Task, i: nat): Report {
    ReportFor(t.world.posts(i), p.maxAttempts, true)
  }

  /** The dead letter it leaves when it is abandoned. */
  function LetterAt(p: Params, t: Task, i: nat): Record
    requires i < |ReceiversOf(t)|
  {
    DeadLetter(ReceiversOf(t)[i], t.evt, Outcome(t.world.posts(i)(p.maxAttempts)), t.world.nows(i), t.world.keyNs(i), p.coolingOff)
  }

  function SaveAt(p: Params, t: Task, i: nat): M.Action
    requires i < |ReceiversOf(t)|
  {
    M.Store(LetterAt(p, t, i).id, LetterAt(p, t, i), t.world.faults(i))
  }

  /** The i-th delivery of a task leaves a letter. */
  predicate Stores(p: Params, t: Task, i: nat) {
    ReportAt(p, t, i).Abandoned? && !t.world.faults(i)
  }

  ghost predicate Serving(s: State, w: nat) {
    w < |s.pool.workers| && s.pool.workers[w].Busy? && w in s.served && w in s.turn
  }

  ghost predicate Enabled(p: Params, s: State, a: Action) {
    match a
    case Pool(b) =>
      W.Enabled(PoolParams(p), s.pool, b)
      && (b.Finish? ==> Serving(s, b.w) && s.served[b.w] == |ReceiversOf(s.pool.workers[b.w].task)|)
    case Serve(w) =>
      && Serving(s, w) && s.served[w] < |ReceiversOf(s.pool.workers[w].task)|
      && (ReportAt(p, s.pool.workers[w].task, s.served[w]).Abandoned? ==>
            M.Enabled(s.m, SaveAt(p, s.pool.workers[w].task, s.served[w])))
    case Replay(b) => !b.Store? && M.Enabled(s.m, b)
  }

  ghost function Apply(p: Params, s: State, a: Action): State
    requires Enabled(p, s, a)
  {
    match a
    case Pool(b) =>
      s.(pool := W.Apply(PoolParams(p), s.pool, b),
         served := if b.Take? then s.served[b.w := 0] else s.served,
         turn := if b.Take? then s.turn[b.w := |s.pool.taken|] else s.turn,
         turns := if b.Finish? && b.w in s.turn then s.turns + [s.turn[b.w]] else s.turns)
    case Serve(w) =>
      var t, i := s.pool.workers[w].task, s.served[w];
      s.(m := if ReportAt(p, t, i).Abandoned? then M.Apply(s.m, SaveAt(p, t, i)) else s.m,
         served := s.served[w := i + 1],
         owner := if Stores(p, t, i) then s.owner[NewKey(t.world, i) := Slot(s.turn[w], i)] else s.owner)
    case Replay(b) => s.(m := M.Apply(s.m, b))
  }

  ghost predicate Runs(p: Params, s: State, acts: seq<Action>)
    decreases |acts|
  {
    acts == [] || (Enabled(p, s, acts[0]) && Runs(p, Apply(p, s, acts[0]), acts[1..]))
  }

  ghost function Exec(p: Params, s: State, acts: seq<Action>): State
    requires Runs(p, s, acts)
    decreases |acts|
  {
    if acts == [] then s else Exec(p, Apply(p, s, acts[0]), acts[1..])
  }

  // ---- what became of each receiver ------------------------------------------------------

  /** The letter was stored once, with this origin. */
  ghost predicate Known(m: M.State, id: string, o: Origin) {
    id in m.origins && m.origins[id] == o
  }

  function OriginAt(t: Task, i: nat): Origin
    requires i < |ReceiversOf(t)|
  {
    var sub := ReceiversOf(t)[i];
    Origin(sub.id, sub.url, sub.secret, t.evt)
  }

  /** If the delivery left a letter, that letter is known, and is its own. */
  ghost predicate Recorded(p: Params, m: M.State, owner: map<string, Slot>, n: nat, t: Task, i: nat)
    requires i < |ReceiversOf(t)|
  {
    Stores(p, t, i) ==>
      var id := NewKey(t.world, i);
      Known(m, id, OriginAt(t, i)) && id in owner && owner[id] == Slot(n, i)
  }

  ghost predicate RecordedUpTo(p: Params, m: M.State, owner: map<string, Slot>, n: nat, t: Task, count: nat) {
    count <= |ReceiversOf(t)| && forall i: nat | i < count :: Recorded(p, m, owner, n, t, i)
  }

  ghost predicate WorkerRecorded(p: Params, s: State, w: nat) {
    Serving(s, w) ==> RecordedUpTo(p, s.m, s.owner, s.turn[w], s.pool.workers[w].task, s.served[w])
  }

  ghost predicate TaskRecorded(p: Params, m: M.State, owner: map<string, Slot>, n: nat, t: Task, j: Job) {
    JobFor(t, p.maxAttempts, true) == j && RecordedUpTo(p, m, owner, n, t, |ReceiversOf(t)|)
  }

  ghost predicate JobRecorded(p: Params, m: M.State, owner: map<string, Slot>, n: nat, j: Job) {
    exists t: Task :: TaskRecorded(p, m, owner, n, t, j)
  }

  ghost predicate JobsRecorded(p: Params, s: State) {
    |s.turns| == |s.pool.done| && forall j | 0 <= j < |s.pool.done| :: JobRecorded(p, s.m, s.owner, s.turns[j], s.pool.done[j])
  }

  ghost predicate WorkersRecorded(p: Params, s: State) {
    forall w: nat | w < |s.pool.workers| :: WorkerRecorded(p, s, w)
  }

  /** No two deliveries under way or done belong to the same taken event. */
  ghost predicate TurnsOk(s: State) {
    && (forall w: nat | Serving(s, w) :: s.turn[w] < |s.pool.taken|)
    && (forall j | 0 <= j < |s.turns| :: s.turns[j] < |s.pool.taken|)
    && (forall w: nat, v: nat | Serving(s, w) && Serving(s, v) && s.turn[w] == s.turn[v] :: w == v)
    && (forall j, k | 0 <= j < k < |s.turns| :: s.turns[j] != s.turns[k])
    && (forall w: nat, j | Serving(s, w) && 0 <= j < |s.turns| :: s.turn[w] != s.turns[j])
  }

  ghost predicate Inv(p: Params, s: State) {
    && M.Inv(s.m) && W.Inv(PoolParams(p), s.pool) && WorkersRecorded(p, s) && JobsRecorded(p, s)
    && TurnsOk(s) && s.owner.Keys <= s.m.origins.Keys
  }

  /** What was recorded stays so. */
  ghost predicate RecordsGrow(m: M.State, owner: map<string, Slot>, m': M.State, owner': map<string, Slot>) {
    && (forall id | id in m.origins :: id in m'.origins && m'.origins[id] == m.origins[id])
    && (forall id | id in owner :: id in owner' && owner'[id] == owner[id])
  }

  lemma MachineGrows(m: M.State, b: M.Action)
    requires M.Enabled(m, b)
    ensures forall id | id in m.origins :: id in M.Apply(m, b).origins && M.Apply(m, b).origins[id] == m.origins[id]
  {
  }

  lemma RecordsStay(p: Params, m: M.State, owner: map<string, Slot>, m': M.State, owner': map<string, Slot>,
                    n: nat, t: Task, count: nat)
    requires RecordsGrow(m, owner, m', owner') && RecordedUpTo(p, m, owner, n, t, count)
    ensures RecordedUpTo(p, m', owner', n, t, count)
  {
    forall i: nat | i < count ensures Recorded(p, m', owner', n, t, i) { assert Recorded(p, m, owner, n, t, i); }
  }

  lemma JobsStay(p: Params, s: State, m': M.State, owner': map<string, Slot>)
    requires RecordsGrow(s.m, s.owner, m', owner') && JobsRecorded(p, s)
    ensures JobsRecorded(p, s.(m := m', owner := owner'))
  {
    forall j | 0 <= j < |s.pool.done| ensures JobRecorded(p, m', owner', s.turns[j], s.pool.done[j]) {
      assert JobRecorded(p, s.m, s.owner, s.turns[j], s.pool.done[j]);
      var t: Task :| TaskRecorded(p, s.m, s.owner, s.turns[j], t, s.pool.done[j]);
      RecordsStay(p, s.m, s.owner, m', owner', s.turns[j], t, |ReceiversOf(t)|);
      assert TaskRecorded(p, m', owner', s.turns[j], t, s.pool.done[j]);
    }
  }

  lemma WorkersStay(p: Params, s: State, m': M.State, owner': map<string, Slot>)
    requires RecordsGrow(s.m, s.owner, m', owner') && WorkersRecorded(p, s)
    ensures WorkersRecorded(p, s.(m := m', owner := owner'))
  {
    forall w: nat | w < |s.pool.workers| ensures WorkerRecorded(p, s.(m := m', owner := owner'), w) {
      assert WorkerRecorded(p, s, w);
      if Serving(s, w) {
        RecordsStay(p, s.m, s.owner, m', owner', s.turn[w], s.pool.workers[w].task, s.served[w]);
      }
    }
  }

  // ---- replays ---------------------------------------------------------------------------

  lemma ReplayKeepsInv(p: Params, s: State, a: Action)
    requires Inv(p, s) && Enabled(p, s, a) && a.Replay?
    ensures Inv(p, Apply(p, s, a))
  {
    M.StepKeepsInv(s.m, a.move);
    MachineGrows(s.m, a.move);
    ReplayedKeepsInv(p, s, M.Apply(s.m, a.move));
  }

  lemma ReplayedKeepsInv(p: Params, s: State, m: M.State)
    requires Inv(p, s) && M.Inv(m) && RecordsGrow(s.m, s.owner, m, s.owner)
    ensures Inv(p, s.(m := m))
  {
    var t := s.(m := m);
    RecordedJobsStay(p, s, t);
    WorkersStay(p, s, m, s.owner);
    SameTurns(s, t);
    assert s.(m := m, owner := s.owner) == t;
  }

  // ---- a worker serves its next receiver -------------------------------------------------

  /** The next delivery of worker w, and what the machine and the owners are after it. */
  ghost predicate ServedTo(p: Params, s: State, w: nat, m: M.State, owner: map<string, Slot>)
    requires Serving(s, w)
  {
    && M.Inv(m) && RecordsGrow(s.m, s.owner, m, owner) && owner.Keys <= m.origins.Keys
    && RecordedUpTo(p, m, owner, s.turn[w], s.pool.workers[w].task, s.served[w] + 1)
  }

  lemma StoreRecords(p: Params, m: M.State, owner: map<string, Slot>, n: nat, t: Task, i: nat)
    requires i < |ReceiversOf(t)| && Stores(p, t, i) && M.Enabled(m, SaveAt(p, t, i)) && owner.Keys <= m.origins.Keys
    ensures var m', owner' := M.Apply(m, SaveAt(p, t, i)), owner[NewKey(t.world, i) := Slot(n, i)];
            RecordsGrow(m, owner, m', owner') && owner'.Keys <= m'.origins.Keys && Recorded(p, m', owner', n, t, i)
  {
    assert LetterAt(p, t, i).id == NewKey(t.world, i) && OriginOf(LetterAt(p, t, i)) == OriginAt(t, i);
  }

  lemma RefusedRecords(p: Params, m: M.State, owner: map<string, Slot>, n: nat, t: Task, i: nat)
    requires i < |ReceiversOf(t)| && !Stores(p, t, i) && owner.Keys <= m.origins.Keys
    requires ReportAt(p, t, i).Abandoned? ==> M.Enabled(m, SaveAt(p, t, i))
    ensures var m' := if ReportAt(p, t, i).Abandoned? then M.Apply(m, SaveAt(p, t, i)) else m;
            m' == m && RecordsGrow(m, owner, m', owner) && owner.Keys <= m'.origins.Keys && Recorded(p, m', owner, n, t, i)
  {
  }

  lemma NextRecorded(p: Params, m: M.State, owner: map<string, Slot>, m': M.State, owner': map<string, Slot>,
                     n: nat, t: Task, i: nat)
    requires RecordedUpTo(p, m, owner, n, t, i) && RecordsGrow(m, owner, m', owner')
    requires i < |ReceiversOf(t)| && Recorded(p, m', owner', n, t, i)
    ensures RecordedUpTo(p, m', owner', n, t, i + 1)
  {
    RecordsStay(p, m, owner, m', owner', n, t, i);
  }

  lemma ServeRecords(p: Params, s: State, a: Action)
    requires M.Inv(s.m) && WorkersRecorded(p, s) && s.owner.Keys <= s.m.origins.Keys && Enabled(p, s, a) && a.Serve?
    ensures Serving(s, a.w) && ServedTo(p, s, a.w, Apply(p, s, a).m, Apply(p, s, a).owner)
  {
    var t, n, i := s.pool.workers[a.w].task, s.turn[a.w], s.served[a.w];
    assert WorkerRecorded(p, s, a.w);
    if Stores(p, t, i) { StoreRecords(p, s.m, s.owner, n, t, i); } else { RefusedRecords(p, s.m, s.owner, n, t, i); }
    if ReportAt(p, t, i).Abandoned? { M.StepKeepsInv(s.m, SaveAt(p, t, i)); }
    NextRecorded(p, s.m, s.owner, Apply(p, s, a).m, Apply(p, s, a).owner, n, t, i);
  }

  lemma ServeEffect(p: Params, s: State, a: Action)
    requires Enabled(p, s, a) && a.Serve?
    ensures var t := Apply(p, s, a);
            && Serving(s, a.w) && t.pool == s.pool && t.turn == s.turn && t.turns == s.turns
            && t.served == s.served[a.w := s.served[a.w] + 1]
  {
  }

  lemma RecordedJobsStay(p: Params, s: State, t: State)
    requires JobsRecorded(p, s) && RecordsGrow(s.m, s.owner, t.m, t.owner)
    requires t.pool == s.pool && t.turns == s.turns
    ensures JobsRecorded(p, t)
  {
    JobsStay(p, s, t.m, t.owner);
    forall j | 0 <= j < |t.pool.done| ensures JobRecorded(p, t.m, t.owner, t.turns[j], t.pool.done[j]) {
      assert JobRecorded(p, t.m, t.owner, s.turns[j], s.(m := t.m, owner := t.owner).pool.done[j]);
    }
  }

  lemma ServedKeepsWorkers(p: Params, s: State, t: State, w: nat)
    requires WorkersRecorded(p, s) && RecordsGrow(s.m, s.owner, t.m, t.owner) && Serving(s, w)
    requires t.pool == s.pool && t.turn == s.turn && t.served == s.served[w := s.served[w] + 1]
    requires RecordedUpTo(p, t.m, t.owner, s.turn[w], s.pool.workers[w].task, s.served[w] + 1)
    ensures WorkersRecorded(p, t)
  {
    WorkersStay(p, s, t.m, t.owner);
    forall v: nat | v < |t.pool.workers| ensures WorkerRecorded(p, t, v) {
      assert WorkerRecorded(p, s.(m := t.m, owner := t.owner), v);
    }
  }

  lemma SameTurns(s: State, t: State)
    requires TurnsOk(s)
    requires t.pool == s.pool && t.turn == s.turn && t.turns == s.turns && t.served.Keys == s.served.Keys
    ensures TurnsOk(t)
  {
    assert forall v: nat :: Serving(t, v) <==> Serving(s, v);
  }

  lemma ServeKeepsWorkers(p: Params, s: State, a: Action)
    requires WorkersRecorded(p, s) && Enabled(p, s, a) && a.Serve?
    requires Serving(s, a.w) && ServedTo(p, s, a.w, Apply(p, s, a).m, Apply(p, s, a).owner)
    ensures WorkersRecorded(p, Apply(p, s, a))
  {
    ServeEffect(p, s, a);
    ServedKeepsWorkers(p, s, Apply(p, s, a), a.w);
  }

  lemma ServeKeepsJobs(p: Params, s: State, a: Action)
    requires JobsRecorded(p, s) && Enabled(p, s, a) && a.Serve?
    requires RecordsGrow(s.m, s.owner, Apply(p, s, a).m, Apply(p, s, a).owner)
    ensures JobsRecorded(p, Apply(p, s, a))
  {
    ServeEffect(p, s, a);
    RecordedJobsStay(p, s, Apply(p, s, a));
  }

  lemma ServeKeepsTurns(p: Params, s: State, a: Action)
    requires TurnsOk(s) && Enabled(p, s, a) && a.Serve?
    ensures TurnsOk(Apply(p, s, a)) && Apply(p, s, a).pool == s.pool
  {
    ServeEffect(p, s, a);
    assert Apply(p, s, a).served.Keys == s.served.Keys;
    SameTurns(s, Apply(p, s, a));
  }

  lemma ServeKeepsInv(p: Params, s: State, a: Action)
    requires Inv(p, s) && Enabled(p, s, a) && a.Serve?
    ensures Inv(p, Apply(p, s, a))
  {
    ServeRecords(p, s, a);
    ServeKeepsWorkers(p, s, a);
    ServeKeepsJobs(p, s, a);
    ServeKeepsTurns(p, s, a);
  }

  // ---- steps of the pool -----------------------------------------------------------------

  lemma PoolKeepsJobs(p: Params, s: State, a: Action)
    requires WorkersRecorded(p, s) && JobsRecorded(p, s) && Enabled(p, s, a) && a.Pool?
    ensures JobsRecorded(p, Apply(p, s, a))
  {
    var t := Apply(p, s, a);
    if a.step.Finish? {
      assert WorkerRecorded(p, s, a.step.w);
      assert TaskRecorded(p, s.m, s.owner, s.turn[a.step.w], s.pool.workers[a.step.w].task, t.pool.done[|s.pool.done|]);
    }
    forall j | 0 <= j < |t.pool.done| ensures JobRecorded(p, t.m, t.owner, t.turns[j], t.pool.done[j]) {
      if j < |s.pool.done| { assert JobRecorded(p, s.m, s.owner, s.turns[j], s.pool.done[j]); }
    }
  }

  lemma PoolKeepsWorkers(p: Params, s: State, a: Action)
    requires WorkersRecorded(p, s) && Enabled(p, s, a) && a.Pool?
    ensures WorkersRecorded(p, Apply(p, s, a))
  {
    var t := Apply(p, s, a);
    forall w: nat | w < |t.pool.workers| ensures WorkerRecorded(p, t, w) { assert WorkerRecorded(p, s, w); }
  }

  lemma TakeKeepsTurns(p: Params, s: State, a: Action)
    requires TurnsOk(s) && Enabled(p, s, a) && a.Pool? && a.step.Take?
    ensures TurnsOk(Apply(p, s, a))
  {
    var t := Apply(p, s, a);
    assert forall w: nat | Serving(t, w) && w != a.step.w :: Serving(s, w) && t.turn[w] == s.turn[w];
  }

  lemma FinishEffect(p: Params, s: State, a: Action)
    requires Enabled(p, s, a) && a.Pool? && a.step.Finish?
    ensures var t, w := Apply(p, s, a), a.step.w;
            && Serving(s, w) && t.turns == s.turns + [s.turn[w]] && t.turn == s.turn && t.pool.taken == s.pool.taken
            && forall v: nat | Serving(t, v) :: Serving(s, v) && v != w
  {
  }

  lemma FinishedKeepsTurns(s: State, t: State, w: nat)
    requires TurnsOk(s) && Serving(s, w) && t.turns == s.turns + [s.turn[w]] && t.turn == s.turn
    requires t.pool.taken == s.pool.taken && forall v: nat | Serving(t, v) :: Serving(s, v) && v != w
    ensures TurnsOk(t)
  {
  }

  lemma FinishKeepsTurns(p: Params, s: State, a: Action)
    requires TurnsOk(s) && Enabled(p, s, a) && a.Pool? && a.step.Finish?
    ensures TurnsOk(Apply(p, s, a))
  {
    FinishEffect(p, s, a);
    FinishedKeepsTurns(s, Apply(p, s, a), a.step.w);
  }

  lemma OthersKeepTurns(p: Params, s: State, a: Action)
    requires TurnsOk(s) && Enabled(p, s, a) && a.Pool? && !a.step.Take? && !a.step.Finish?
    ensures TurnsOk(Apply(p, s, a))
  {
    var t := Apply(p, s, a);
    assert forall w: nat | Serving(t, w) :: Serving(s, w);
  }

  lemma PoolKeepsTurns(p: Params, s: State, a: Action)
    requires TurnsOk(s) && Enabled(p, s, a) && a.Pool?
    ensures TurnsOk(Apply(p, s, a))
  {
    if a.step.Take? {
      TakeKeepsTurns(p, s, a);
    } else if a.step.Finish? {
      FinishKeepsTurns(p, s, a);
    } else {
      OthersKeepTurns(p, s, a);
    }
  }

  lemma PoolKeepsInv(p: Params, s: State, a: Action)
    requires Inv(p, s) && Enabled(p, s, a) && a.Pool?
    ensures Inv(p, Apply(p, s, a))
  {
    W.StepKeepsInv(PoolParams(p), s.pool, a.step);
    PoolKeepsJobs(p, s, a);
    PoolKeepsWorkers(p, s, a);
    PoolKeepsTurns(p, s, a);
  }

  lemma StepKeepsInv(p: Params, s: State, a: Action)
    requires Inv(p, s) && Enabled(p, s, a)
    ensures Inv(p, Apply(p, s, a))
  {
    match a
    case Pool(_) => PoolKeepsInv(p, s, a);
    case Serve(_) => ServeKeepsInv(p, s, a);
    case Replay(_) => ReplayKeepsInv(p, s, a);
  }

  lemma {:induction false} RunKeepsInv(p: Params, s: State, acts: seq<Action>)
    requires Inv(p, s) && Runs(p, s, acts)
    ensures Inv(p, Exec(p, s, acts))
    decreases |acts|
  {
    if acts != [] {
      StepKeepsInv(p, s, acts[0]);
      RunKeepsInv(p, Apply(p, s, acts[0]), acts[1..]);
    }
  }

  lemma StartInv(p: Params, letters: Letters)
    requires M.WellFormed(letters)
    ensures Inv(p, Start(p, letters))
  {
    M.BootInv(letters);
    W.AllIdle(p.workerCount);
  }

  // ---- the whole story of an event -------------------------------------------------------

  ghost predicate ReceiverOf(j: Job, i: nat) {
    i < |Receivers(j.evt, j.listing, j.encoded)| && i < |j.reports|
  }

  /** The i-th delivery of a job was abandoned, and the store took its letter. */
  ghost predicate LeftLetter(j: Job, i: nat)
    requires ReceiverOf(j, i)
  {
    j.reports[i].Abandoned? && !j.world.faults(i)
  }

  /** A receiver of a finished job got the event with one of its own POSTs; or the store refused
      its dead letter; or its letter, known with the event and the receiver's address, is in the
      queue, was delivered by a replay, or was deleted by an operator. */
  ghost predicate Settled(p: Params, m: M.State, j: Job, i: nat)
    requires ReceiverOf(j, i)
  {
    var sub, r := Receivers(j.evt, j.listing, j.encoded)[i], j.reports[i];
    var id, o := NewKey(j.world, i), Origin(sub.id, sub.url, sub.secret, j.evt);
    match r
    case Accepted(k) => 1 <= k <= p.maxAttempts && j.world.posts(i)(k).Delivered?
    case Abandoned(_, _) =>
      || j.world.faults(i)
      || (Known(m, id, o)
          && ((id in m.letters && OriginOf(m.letters[id]) == o)
              || (id in m.successes && m.successes[id] > 0)
              || id in m.cancelled))
  }

  lemma RecordedIsSettled(p: Params, s: State, n: nat, t: Task, i: nat)
    requires M.Inv(s.m) && i < |ReceiversOf(t)| && Recorded(p, s.m, s.owner, n, t, i)
    ensures var j := JobFor(t, p.maxAttempts, true);
            && ReceiverOf(j, i) && Settled(p, s.m, j, i)
            && (LeftLetter(j, i) ==> NewKey(j.world, i) in s.owner && s.owner[NewKey(j.world, i)] == Slot(n, i))
  {
    var j := JobFor(t, p.maxAttempts, true);
    assert ReportOk(j.reports[i], j.world.posts(i), p.maxAttempts, true);
    ReportIsDetermined(j.reports[i], ReportAt(p, t, i), t.world.posts(i), p.maxAttempts, true);
    var id := NewKey(t.world, i);
    if id in s.m.origins { assert M.Accounted(s.m, id); }
    if id in s.m.letters { assert M.LetterOk(s.m, id); }
  }

  lemma DoneIsSettled(p: Params, s: State, k: nat, i: nat)
    requires Inv(p, s) && k < |s.pool.done| && i < |Receivers(s.pool.done[k].evt, s.pool.done[k].listing, s.pool.done[k].encoded)|
    ensures var j := s.pool.done[k];
            && ReceiverOf(j, i) && Settled(p, s.m, j, i)
            && (LeftLetter(j, i) ==> NewKey(j.world, i) in s.owner && s.owner[NewKey(j.world, i)] == Slot(s.turns[k], i))
  {
    var j := s.pool.done[k];
    assert JobRecorded(p, s.m, s.owner, s.turns[k], j);
    var t: Task :| TaskRecorded(p, s.m, s.owner, s.turns[k], t, j);
    assert Recorded(p, s.m, s.owner, s.turns[k], t, i);
    RecordedIsSettled(p, s, s.turns[k], t, i);
  }

  ghost predicate AllSettled(p: Params, m: M.State, done: seq<Job>) {
    forall k, i: nat | 0 <= k < |done| && i < |Receivers(done[k].evt, done[k].listing, done[k].encoded)| ::
      ReceiverOf(done[k], i) && Settled(p, m, done[k], i)
  }

  ghost predicate Left(done: seq<Job>, k: nat, i: nat) {
    k < |done| && ReceiverOf(done[k], i) && LeftLetter(done[k], i)
  }

  /** No two deliveries that left a letter left the same one. */
  ghost predicate OwnLetters(done: seq<Job>) {
    forall k: nat, i: nat, l: nat, h: nat | Left(done, k, i) && Left(done, l, h) ::
      NewKey(done[k].world, i) == NewKey(done[l].world, h) ==> k == l && i == h
  }

  lemma LettersAreOwn(p: Params, s: State)
    requires Inv(p, s)
    ensures OwnLetters(s.pool.done)
  {
    var done := s.pool.done;
    forall k: nat, i: nat, l: nat, h: nat |
      Left(done, k, i) && Left(done, l, h) && NewKey(done[k].world, i) == NewKey(done[l].world, h)
      ensures k == l && i == h
    {
      DoneIsSettled(p, s, k, i);
      DoneIsSettled(p, s, l, h);
      SameTurn(s, k, l);
    }
  }

  lemma SameTurn(s: State, k: nat, l: nat)
    requires TurnsOk(s) && k < |s.turns| && l < |s.turns| && s.turns[k] == s.turns[l]
    ensures k == l
  {
  }

  /** When Close has returned, every accepted event has been processed exactly once; every
      receiver of every one of them is settled, whatever else went on and still goes on; and no
      two deliveries that left a letter left the same one. */
  lemma NothingIsLost(p: Params, letters: Letters, acts: seq<Action>)
    requires M.WellFormed(letters) && p.workerCount >= 1 && Runs(p, Start(p, letters), acts)
    requires Exec(p, Start(p, letters), acts).pool.returned
    ensures var s := Exec(p, Start(p, letters), acts);
            && W.Events(s.pool.done) == multiset(s.pool.accepted)
            && AllSettled(p, s.m, s.pool.done) && OwnLetters(s.pool.done)
  {
    StartInv(p, letters);
    RunKeepsInv(p, Start(p, letters), acts);
    var s := Exec(p, Start(p, letters), acts);
    W.Drained(PoolParams(p), s.pool);
    LettersAreOwn(p, s);
    forall k, i: nat | 0 <= k < |s.pool.done|
      && i < |Receivers(s.pool.done[k].evt, s.pool.done[k].listing, s.pool.done[k].encoded)|
      ensures ReceiverOf(s.pool.done[k], i) && Settled(p, s.m, s.pool.done[k], i)
    {
      DoneIsSettled(p, s, k, i);
    }
  }
}
