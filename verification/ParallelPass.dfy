/** One parallel pass over listed letters: runAutoRetryPass with WorkerCount goroutines, or the
    replay-all endpoint with eight. A loop launches a goroutine per record, blocking while the
    semaphore is full; each goroutine POSTs, settles the letter in the store, and reports. */
module ParallelPass {
  import opened KeyOrder
  import opened DeadLetters

  /** What the pass works on. POST outcome, clock reading and store failure are fixed per id, and
      so do not depend on the order the goroutines run in. */
  datatype Job = Job(who: Replayer, records: seq<Record>, slots: nat,
                     post: string -> Post, clock: string -> int, fault: string -> bool)

  /** `posted`, `settled` and `results` are the record positions that got that far. */
  datatype State = State(letters: Letters, launched: nat, posted: set<nat>, settled: set<nat>, results: set<nat>,
                         successes: nat, failures: nat)

  datatype Action = Launch | PostReturns(i: nat) | Commit(i: nat) | Report(i: nat)

  ghost function Start(letters: Letters): State {
    State(letters, 0, {}, {}, {}, 0, 0)
  }

  function SettleRecord(j: Job, letters: Letters, r: Record): Letters {
    Settle(letters, r, j.who, j.post(r.id), j.clock(r.id), j.fault(r.id))
  }

  /** The same pass, one record after the other, left to right. */
  function Sequential(j: Job, letters: Letters, n: nat): Letters
    requires n <= |j.records|
  {
    if n == 0 then letters else SettleRecord(j, Sequential(j, letters, n - 1), j.records[n - 1])
  }

  lemma {:induction false} SequentialPrefix(j: Job, letters: Letters, r: Record, n: nat)
    requires n <= |j.records|
    ensures Sequential(j.(records := j.records + [r]), letters, n) == Sequential(j, letters, n)
  {
    if n > 0 { SequentialPrefix(j, letters, r, n - 1); }
  }

  lemma SequentialExtends(j: Job, letters: Letters, r: Record)
    ensures Sequential(j.(records := j.records + [r]), letters, |j.records| + 1)
         == SettleRecord(j, Sequential(j, letters, |j.records|), r)
  {
    SequentialPrefix(j, letters, r, |j.records|);
  }

  ghost predicate Enabled(j: Job, s: State, a: Action) {
    match a
    case Launch => s.launched < |j.records| && s.launched - |s.results| < j.slots
    case PostReturns(i) => i < s.launched && i !in s.posted
    case Commit(i) => i in s.posted && i !in s.settled && i < |j.records|
    case Report(i) => i in s.settled && i !in s.results && i < |j.records|
  }

  ghost function Apply(j: Job, s: State, a: Action): State
    requires Enabled(j, s, a)
  {
    match a
    case Launch => s.(launched := s.launched + 1)
    case PostReturns(i) => s.(posted := s.posted + {i})
    case Commit(i) => s.(settled := s.settled + {i}, letters := SettleRecord(j, s.letters, j.records[i]))
    case Report(i) =>
      var s1 := s.(results := s.results + {i});
      if j.post(j.records[i].id).Delivered? then s1.(successes := s.successes + 1)
      else s1.(failures := s.failures + 1)
  }

  ghost predicate Runs(j: Job, s: State, acts: seq<Action>)
    decreases |acts|
  {
    acts == [] || (Enabled(j, s, acts[0]) && Runs(j, Apply(j, s, acts[0]), acts[1..]))
  }

  ghost function Exec(j: Job, s: State, acts: seq<Action>): State
    requires Runs(j, s, acts)
    decreases |acts|
  {
    if acts == [] then s else Exec(j, Apply(j, s, acts[0]), acts[1..])
  }

  /** wg.Wait returns when every launched goroutine has reported and none is left to launch. */
  ghost predicate Complete(j: Job, s: State) {
    s.launched == |j.records| && |s.results| == s.launched
  }

  // ---- sets of positions -----------------------------------------------------------------

  lemma SubsetSize<T>(a: set<T>, b: set<T>)
    requires a <= b
    ensures |a| <= |b| && (|a| == |b| ==> a == b)
  {
    assert b == a + (b - a);
  }

  function Range(n: nat): set<nat> {
    if n == 0 then {} else Range(n - 1) + {n - 1}
  }

  lemma {:induction false} RangeSpec(n: nat)
    ensures |Range(n)| == n && forall i: nat :: i in Range(n) <==> i < n
  {
    if n > 0 { RangeSpec(n - 1); }
  }

  // ---- what is stored, key by key --------------------------------------------------------

  ghost function LookUp(letters: Letters, id: string): Option<Record> {
    if id in letters then Some(letters[id]) else None
  }

  ghost predicate DistinctIds(records: seq<Record>) {
    forall a, b | 0 <= a < b < |records| :: records[a].id != records[b].id
  }

  ghost predicate Mentions(j: Job, done: set<nat>, id: string) {
    exists i :: i in done && i < |j.records| && j.records[i].id == id
  }

  /** Each letter is as its own replay left it, if that has settled, and untouched otherwise. */
  ghost predicate SettledExactly(j: Job, start: Letters, letters: Letters, done: set<nat>) {
    && (forall i | i in done :: i < |j.records|
          && LookUp(letters, j.records[i].id) == LookUp(SettleRecord(j, start, j.records[i]), j.records[i].id))
    && (forall id | !Mentions(j, done, id) :: LookUp(letters, id) == LookUp(start, id))
  }

  lemma SettleOne(j: Job, start: Letters, letters: Letters, done: set<nat>, i: nat)
    requires DistinctIds(j.records) && SettledExactly(j, start, letters, done) && i < |j.records| && i !in done
    ensures SettledExactly(j, start, SettleRecord(j, letters, j.records[i]), done + {i})
  {
    var after := SettleRecord(j, letters, j.records[i]);
    assert !Mentions(j, done, j.records[i].id);
    forall id | !Mentions(j, done + {i}, id) ensures LookUp(after, id) == LookUp(start, id) {
      assert i in done + {i};
      assert forall k | k in done :: k in done + {i};
      assert !Mentions(j, done, id);
    }
  }

  lemma SettledAgree(j: Job, start: Letters, a: Letters, b: Letters, done: set<nat>)
    requires SettledExactly(j, start, a, done) && SettledExactly(j, start, b, done)
    ensures a == b
  {
    forall id ensures LookUp(a, id) == LookUp(b, id) {
      if Mentions(j, done, id) {
        var i :| i in done && i < |j.records| && j.records[i].id == id;
      }
    }
    assert forall id :: id in a <==> LookUp(a, id).Some?;
    assert forall id :: id in b <==> LookUp(b, id).Some?;
    assert forall id | id in a :: a[id] == LookUp(a, id).value == LookUp(b, id).value;
  }

  lemma RangeEnds(n: nat)
    ensures n !in Range(n) && Range(n + 1) == Range(n) + {n}
  {
    RangeSpec(n);
  }

  lemma NextSettles(j: Job, start: Letters, n: nat)
    requires DistinctIds(j.records) && 0 < n <= |j.records|
    requires SettledExactly(j, start, Sequential(j, start, n - 1), Range(n - 1))
    ensures SettledExactly(j, start, Sequential(j, start, n), Range(n))
  {
    RangeEnds(n - 1);
    SettleOne(j, start, Sequential(j, start, n - 1), Range(n - 1), n - 1);
  }

  lemma NoneSettled(j: Job, start: Letters)
    ensures SettledExactly(j, start, Sequential(j, start, 0), Range(0))
  {
  }

  lemma {:induction false} SequentialSettles(j: Job, start: Letters, n: nat)
    requires DistinctIds(j.records) && n <= |j.records|
    ensures SettledExactly(j, start, Sequential(j, start, n), Range(n))
  {
    if n > 0 {
      SequentialSettles(j, start, n - 1);
      NextSettles(j, start, n);
    } else {
      NoneSettled(j, start);
    }
  }

  // ---- every interleaving ----------------------------------------------------------------

  ghost function DeliveredAmong(j: Job, xs: set<nat>): set<nat> {
    set i | i in xs && i < |j.records| && j.post(j.records[i].id).Delivered?
  }

  /** Every record passes through the stages in order. */
  ghost predicate StagesOk(j: Job, s: State) {
    && s.launched <= |j.records| && s.launched - |s.results| <= j.slots
    && s.results <= s.settled <= s.posted <= Range(s.launched)
  }

  ghost predicate TalliesOk(j: Job, s: State) {
    s.successes == |DeliveredAmong(j, s.results)| && s.successes + s.failures == |s.results|
  }

  ghost predicate Inv(j: Job, start: Letters, s: State) {
    StagesOk(j, s) && TalliesOk(j, s) && SettledExactly(j, start, s.letters, s.settled)
  }

  lemma StepKeepsStages(j: Job, s: State, a: Action)
    requires StagesOk(j, s) && Enabled(j, s, a)
    ensures StagesOk(j, Apply(j, s, a))
  {
    if a.PostReturns? { RangeSpec(s.launched); }
    if a.Launch? { assert Range(s.launched) <= Range(s.launched + 1); }
  }

  lemma DeliveredGrows(j: Job, xs: set<nat>, i: nat)
    requires i !in xs && i < |j.records|
    ensures |DeliveredAmong(j, xs + {i})|
         == |DeliveredAmong(j, xs)| + if j.post(j.records[i].id).Delivered? then 1 else 0
  {
    if j.post(j.records[i].id).Delivered? {
      assert DeliveredAmong(j, xs + {i}) == DeliveredAmong(j, xs) + {i};
    } else {
      assert DeliveredAmong(j, xs + {i}) == DeliveredAmong(j, xs);
    }
  }

  /** How many of some records are delivered. */
  function Successes(post: string -> Post, records: seq<Record>): nat {
    if records == [] then 0 else
      var n := |records| - 1;
      Successes(post, records[..n]) + if post(records[n].id).Delivered? then 1 else 0
  }

  lemma SuccessesSnoc(post: string -> Post, records: seq<Record>, rec: Record)
    ensures Successes(post, records + [rec]) == Successes(post, records) + if post(rec.id).Delivered? then 1 else 0
  {
    assert (records + [rec])[..|records|] == records;
  }

  lemma {:induction false} SuccessesCounted(j: Job, n: nat)
    requires n <= |j.records|
    ensures |DeliveredAmong(j, Range(n))| == Successes(j.post, j.records[..n])
  {
    if n > 0 {
      SuccessesCounted(j, n - 1);
      RangeSpec(n - 1);
      DeliveredGrows(j, Range(n - 1), n - 1);
      assert j.records[..n][..n - 1] == j.records[..n - 1];
    }
  }

  /** The records delivered, by position. */
  lemma {:induction false} SuccessPlaces(post: string -> Post, records: seq<Record>) returns (places: seq<nat>)
    ensures |places| == Successes(post, records)
    ensures forall a, b | 0 <= a < b < |places| :: places[a] < places[b]
    ensures forall i: nat :: i in places <==> i < |records| && post(records[i].id).Delivered?
  {
    places := [];
    if records != [] {
      var n := |records| - 1;
      var init := SuccessPlaces(post, records[..n]);
      forall a | 0 <= a < |init| ensures init[a] < n { assert init[a] in init; }
      assert forall i: nat | i < n :: records[..n][i] == records[i];
      places := if post(records[n].id).Delivered? then init + [n] else init;
    }
  }

  lemma StepKeepsTallies(j: Job, s: State, a: Action)
    requires TalliesOk(j, s) && Enabled(j, s, a)
    ensures TalliesOk(j, Apply(j, s, a))
  {
    if a.Report? { DeliveredGrows(j, s.results, a.i); }
  }

  lemma StepKeepsInv(j: Job, start: Letters, s: State, a: Action)
    requires DistinctIds(j.records) && Inv(j, start, s) && Enabled(j, s, a)
    ensures Inv(j, start, Apply(j, s, a))
  {
    StepKeepsStages(j, s, a);
    StepKeepsTallies(j, s, a);
    if a.Commit? { SettleOne(j, start, s.letters, s.settled, a.i); }
  }

  lemma {:induction false} RunKeepsInv(j: Job, start: Letters, s: State, acts: seq<Action>)
    requires DistinctIds(j.records) && Inv(j, start, s) && Runs(j, s, acts)
    ensures Inv(j, start, Exec(j, s, acts))
    decreases |acts|
  {
    if acts != [] {
      StepKeepsInv(j, start, s, acts[0]);
      RunKeepsInv(j, start, Apply(j, s, acts[0]), acts[1..]);
    }
  }

  lemma CompleteMeansAll(j: Job, start: Letters, s: State)
    requires Inv(j, start, s) && Complete(j, s)
    ensures s.posted == s.settled == s.results == Range(|j.records|)
  {
    RangeSpec(s.launched);
    SubsetSize(s.results, Range(s.launched));
  }

  ghost function PostsOf(acts: seq<Action>, i: nat): nat {
    if acts == [] then 0 else (if acts[0] == PostReturns(i) then 1 else 0) + PostsOf(acts[1..], i)
  }

  lemma {:induction false} PostedOnce(j: Job, s: State, acts: seq<Action>, i: nat)
    requires Runs(j, s, acts)
    ensures PostsOf(acts, i) == if i in Exec(j, s, acts).posted && i !in s.posted then 1 else 0
    ensures i in s.posted ==> i in Exec(j, s, acts).posted
    decreases |acts|
  {
    if acts != [] {
      PostedOnce(j, Apply(j, s, acts[0]), acts[1..], i);
    }
  }

  /** Whatever the goroutines' interleaving, a finished pass leaves the bucket that replaying the
      records one by one leaves, and has POSTed every record exactly once. */
  lemma PassIsScheduleIndependent(j: Job, letters: Letters, acts: seq<Action>)
    requires DistinctIds(j.records) && Runs(j, Start(letters), acts) && Complete(j, Exec(j, Start(letters), acts))
    ensures Exec(j, Start(letters), acts).letters == Sequential(j, letters, |j.records|)
    ensures forall i: nat | i < |j.records| :: PostsOf(acts, i) == 1
  {
    RunKeepsInv(j, letters, Start(letters), acts);
    var s := Exec(j, Start(letters), acts);
    RangeSpec(|j.records|);
    CompleteMeansAll(j, letters, s);
    SequentialSettles(j, letters, |j.records|);
    SettledAgree(j, letters, s.letters, Sequential(j, letters, |j.records|), s.settled);
    forall i: nat | i < |j.records| ensures PostsOf(acts, i) == 1 {
      PostedOnce(j, Start(letters), acts, i);
      assert i in Range(|j.records|);
    }
  }

  /** The summary adds up: total = succeeded + failed = number of results, and `succeeded`
      counts the records that were delivered. */
  lemma SummaryAddsUp(j: Job, letters: Letters, acts: seq<Action>)
    requires DistinctIds(j.records) && Runs(j, Start(letters), acts) && Complete(j, Exec(j, Start(letters), acts))
    ensures var s := Exec(j, Start(letters), acts);
            && s.successes + s.failures == |s.results| == |j.records|
            && s.successes == Successes(j.post, j.records)
  {
    RunKeepsInv(j, letters, Start(letters), acts);
    var s := Exec(j, Start(letters), acts);
    RangeSpec(|j.records|);
    CompleteMeansAll(j, letters, s);
    SuccessesCounted(j, |j.records|);
    assert j.records[..|j.records|] == j.records;
  }

  /** The number of goroutines at work never exceeds the slots. */
  lemma SlotsRespected(j: Job, letters: Letters, acts: seq<Action>)
    requires DistinctIds(j.records) && Runs(j, Start(letters), acts)
    ensures var s := Exec(j, Start(letters), acts); 0 <= s.launched - |s.results| <= j.slots
  {
    RunKeepsInv(j, letters, Start(letters), acts);
    var s := Exec(j, Start(letters), acts);
    RangeSpec(s.launched);
    SubsetSize(s.results, Range(s.launched));
  }

  /** With a working store a pass removes exactly the letters it picked and delivered, counts one
      more attempt on those it picked and failed to deliver, and leaves the others alone. */
  lemma SurvivorsAreTheFailures(j: Job, letters: Letters, id: string)
    requires DistinctIds(j.records) && forall k | k in letters :: letters[k].id == k
    requires forall r | r in j.records :: r.id in letters && letters[r.id] == r && !j.fault(r.id)
    ensures var after := Sequential(j, letters, |j.records|);
            var picked := id in letters && letters[id] in j.records;
            && (id in after <==> id in letters && !(picked && j.post(id).Delivered?))
            && (id in after && !picked ==> after[id] == letters[id])
            && (id in after && picked ==>
                  after[id] == AfterFailure(letters[id], j.who, j.post(id).error, j.clock(id)))
  {
    var n := |j.records|;
    var after := Sequential(j, letters, n);
    RangeSpec(n);
    SequentialSettles(j, letters, n);
    if id in letters && letters[id] in j.records {
      var i :| 0 <= i < n && j.records[i] == letters[id];
      assert i in Range(n);
      assert LookUp(after, id) == LookUp(SettleRecord(j, letters, j.records[i]), id);
    } else {
      forall i | 0 <= i < n ensures j.records[i].id != id { assert j.records[i] in j.records; }
      assert !Mentions(j, Range(n), id);
      assert LookUp(after, id) == LookUp(letters, id);
    }
  }

  /** Field by field: after a pass over distinct letters with the store at work for record i, its
      letter is gone if it was delivered, and otherwise is the record with one more attempt and
      the new error and time. */
  lemma PassFields(j: Job, start: Letters, i: nat)
    requires DistinctIds(j.records) && i < |j.records|
    ensures var after, r := Sequential(j, start, |j.records|), j.records[i];
            && (j.fault(r.id) ==> (r.id in after <==> r.id in start) && (r.id in start ==> after[r.id] == start[r.id]))
            && (!j.fault(r.id) && j.post(r.id).Delivered? ==> r.id !in after)
            && (!j.fault(r.id) && j.post(r.id).Failed? ==>
                  && r.id in after
                  && var t := after[r.id];
                     && t.id == r.id && t.subId == r.subId && t.subUrl == r.subUrl && t.subSecret == r.subSecret
                     && t.event == r.event && t.attempts == r.attempts + 1
                     && t.lastError == j.post(r.id).error && t.failedAt == j.clock(r.id)
                     && (j.who.Operator? ==> t.nextRetryAfter == j.clock(r.id) + 300_000_000_000)
                     && (j.who.Scheduler? && 1 <= j.who.coolingOff <= 36_028_797_018_963_967 ==>
                           var p := [1, 2, 4, 8, 16, 32, 64, 128, 256][if r.attempts < 0 then 0 else if r.attempts > 8 then 8 else r.attempts];
                           t.nextRetryAfter == j.clock(r.id) + if j.who.coolingOff * p > 86_400_000_000_000 then 86_400_000_000_000 else j.who.coolingOff * p))
  {
    var r := j.records[i];
    RangeSpec(|j.records|);
    SequentialSettles(j, start, |j.records|);
    assert i in Range(|j.records|);
    assert LookUp(Sequential(j, start, |j.records|), r.id) == LookUp(SettleRecord(j, start, r), r.id);
    SettleFields(start, r, j.who, j.post(r.id), j.clock(r.id));
  }

  /** And letters that are not among its records are as they were. */
  lemma PassSpares(j: Job, start: Letters, id: string)
    requires DistinctIds(j.records) && forall r | r in j.records :: r.id != id
    ensures var after := Sequential(j, start, |j.records|);
            (id in after <==> id in start) && (id in start ==> after[id] == start[id])
  {
    RangeSpec(|j.records|);
    SequentialSettles(j, start, |j.records|);
    assert forall i | 0 <= i < |j.records| :: j.records[i] in j.records;
    assert !Mentions(j, Range(|j.records|), id);
    assert LookUp(Sequential(j, start, |j.records|), id) == LookUp(start, id);
  }

  // ---- progress --------------------------------------------------------------------------

  ghost function Progress(s: State): nat {
    s.launched + |s.posted| + |s.settled| + |s.results|
  }

  lemma StagesShrink(j: Job, start: Letters, s: State)
    requires Inv(j, start, s)
    ensures |s.results| <= |s.settled| <= |s.posted| <= s.launched <= |j.records|
    ensures s.posted == Range(s.launched) ==> |s.posted| == s.launched
  {
    RangeSpec(s.launched);
    SubsetSize(s.results, s.settled);
    SubsetSize(s.settled, s.posted);
    SubsetSize(s.posted, Range(s.launched));
  }

  /** The semaphore never deadlocks the pass: until it is complete some step can be taken. */
  lemma PassNeverStuck(j: Job, start: Letters, s: State) returns (a: Action)
    requires Inv(j, start, s) && j.slots >= 1 && !Complete(j, s)
    ensures Enabled(j, s, a)
  {
    RangeSpec(s.launched);
    StagesShrink(j, start, s);
    if i :| i in s.settled && i !in s.results {
      a := Report(i);
    } else if i :| i in s.posted && i !in s.settled {
      a := Commit(i);
    } else if i :| i in Range(s.launched) && i !in s.posted {
      a := PostReturns(i);
    } else {
      assert s.results == s.settled == s.posted == Range(s.launched);
      a := Launch;
    }
  }

  lemma StepIsProgress(j: Job, s: State, a: Action)
    requires Enabled(j, s, a)
    ensures Progress(Apply(j, s, a)) == Progress(s) + 1
  {
  }

  lemma ProgressBound(j: Job, start: Letters, s: State)
    requires Inv(j, start, s)
    ensures Progress(s) <= 4 * |j.records| && (Complete(j, s) ==> Progress(s) == 4 * |j.records|)
  {
    StagesShrink(j, start, s);
    if Complete(j, s) { CompleteMeansAll(j, start, s); }
  }

  lemma {:induction false} StepsAreProgress(j: Job, s: State, acts: seq<Action>)
    requires Runs(j, s, acts)
    ensures |acts| == Progress(Exec(j, s, acts)) - Progress(s)
    decreases |acts|
  {
    if acts != [] {
      StepIsProgress(j, s, acts[0]);
      StepsAreProgress(j, Apply(j, s, acts[0]), acts[1..]);
    }
  }

  /** Every step is progress, so a pass over n records takes exactly 4n steps in every schedule. */
  lemma PassLength(j: Job, letters: Letters, acts: seq<Action>)
    requires DistinctIds(j.records) && Runs(j, Start(letters), acts)
    ensures |acts| <= 4 * |j.records|
    ensures Complete(j, Exec(j, Start(letters), acts)) ==> |acts| == 4 * |j.records|
  {
    StepsAreProgress(j, Start(letters), acts);
    RunKeepsInv(j, letters, Start(letters), acts);
    ProgressBound(j, letters, Exec(j, Start(letters), acts));
  }
}
