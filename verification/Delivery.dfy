/** What a delivery and a job should come to. */
module Delivery {
  import opened Storage
  import opened Subscriptions
  import opened FirstWinsUnion
  import opened KeyFormat
  import opened DeadLetters

  /** How the delivery to one subscription ended, after how many POSTs. */
  datatype Report =
    | Accepted(attempts: nat)
    | Abandoned(attempts: nat, dlqSaves: nat)

  ghost predicate AllFail(post: nat -> Post, n: nat) {
    forall a: nat | 1 <= a <= n :: post(a).Failed?
  }

  /** `post(a)` is the outcome the a-th POST has, or would have. A delivery ends with its first
      success, or after exactly the maximum of failures and then with one attempt to save a
      dead letter, when there is a queue for them. */
  ghost predicate ReportOk(r: Report, post: nat -> Post, maxAttempts: nat, hasDlq: bool) {
    match r
    case Accepted(k) => 1 <= k <= maxAttempts && post(k).Delivered? && AllFail(post, k - 1)
    case Abandoned(n, saves) => n == maxAttempts && AllFail(post, n) && saves == (if hasDlq then 1 else 0)
  }

  /** The outcomes of the POSTs leave only one acceptable report. */
  lemma ReportIsDetermined(r: Report, r': Report, post: nat -> Post, maxAttempts: nat, hasDlq: bool)
    requires ReportOk(r, post, maxAttempts, hasDlq) && ReportOk(r', post, maxAttempts, hasDlq)
    ensures r == r'
  {
    if r.Accepted? && r'.Accepted? {
      assert r.attempts < r'.attempts ==> post(r.attempts).Failed?;
      assert r'.attempts < r.attempts ==> post(r'.attempts).Failed?;
    }
  }

  /** The first accepted attempt from the a-th on, or one more than the maximum. */
  function FirstDelivered(post: nat -> Post, a: nat, maxAttempts: nat): (r: nat)
    ensures a <= maxAttempts + 1 ==> a <= r <= maxAttempts + 1
    ensures forall b: nat | a <= b < r && b <= maxAttempts :: post(b).Failed?
    ensures r <= maxAttempts && a <= maxAttempts ==> post(r).Delivered?
    decreases maxAttempts + 1 - a
  {
    if a > maxAttempts || post(a).Delivered? then a else FirstDelivered(post, a + 1, maxAttempts)
  }

  /** The report that the outcomes of the POSTs leave. */
  function ReportFor(post: nat -> Post, maxAttempts: nat, hasDlq: bool): (r: Report)
    ensures ReportOk(r, post, maxAttempts, hasDlq)
  {
    var k := FirstDelivered(post, 1, maxAttempts);
    if k <= maxAttempts then Accepted(k) else Abandoned(maxAttempts, if hasDlq then 1 else 0)
  }

  /** One processed event: what listing the subscriptions gave, whether the event could be
      encoded, what its deliveries met, and the reports, one per receiver. */
  datatype Job = Job(evt: Event, listing: Result<seq<Subscription>>, encoded: bool, world: World, reports: seq<Report>)

  function Receivers(evt: Event, listing: Result<seq<Subscription>>, encoded: bool): seq<Subscription> {
    if listing.Err? || !encoded then [] else Filter(listing.value, Receiver(evt.kind))
  }

  /** An event whose listing failed is dropped, without reports and without dead letters; any
      other is delivered to every enabled, matching subscription occurrence. */
  ghost predicate JobOk(j: Job, maxAttempts: nat, hasDlq: bool) {
    && |j.reports| == |Receivers(j.evt, j.listing, j.encoded)|
    && forall i: nat | i < |j.reports| :: ReportOk(j.reports[i], j.world.posts(i), maxAttempts, hasDlq)
  }

  /** Everything outside the dispatcher that one job meets: POST outcomes, clock readings and
      store failures, per receiver. */
  datatype World = World(posts: nat -> nat -> Post, nows: nat -> int, keyNs: nat -> int, faults: nat -> bool)

  /** An event in a worker's hands, with all that its delivery will meet. */
  datatype Task = Task(evt: Event, listing: Result<seq<Subscription>>, encoded: bool, world: World)

  function ReceiversOf(t: Task): seq<Subscription> {
    Receivers(t.evt, t.listing, t.encoded)
  }

  /** The job a worker makes of a task: one delivery per receiver, in listing order. */
  function JobFor(t: Task, maxAttempts: nat, hasDlq: bool): (j: Job)
    ensures JobOk(j, maxAttempts, hasDlq)
    ensures j.evt == t.evt && j.listing == t.listing && j.encoded == t.encoded && j.world == t.world
  {
    Job(t.evt, t.listing, t.encoded, t.world,
        seq(|ReceiversOf(t)|, (i: int) requires 0 <= i => ReportFor(t.world.posts(i), maxAttempts, hasDlq)))
  }

  function Outcome(p: Post): string {
    if p.Failed? then p.error else ""
  }

  ghost predicate Dies(w: World, i: nat, maxAttempts: nat) {
    AllFail(w.posts(i), maxAttempts) && !w.faults(i)
  }

  /** The dead-letter queue once the first n receivers have been served. */
  ghost function LettersAfter(letters: Letters, subs: seq<Subscription>, evt: Event, w: World,
                              maxAttempts: nat, coolingOff: int, n: nat): Letters
    requires n <= |subs|
  {
    if n == 0 then letters else
      var before := LettersAfter(letters, subs, evt, w, maxAttempts, coolingOff, n - 1);
      if Dies(w, n - 1, maxAttempts) then
        var rec := DeadLetter(subs[n - 1], evt, Outcome(w.posts(n - 1)(maxAttempts)), w.nows(n - 1), w.keyNs(n - 1), coolingOff);
        before[rec.id := rec]
      else before
  }

  ghost function DeathsAmong(w: World, maxAttempts: nat, n: nat): nat {
    if n == 0 then 0 else DeathsAmong(w, maxAttempts, n - 1) + if Dies(w, n - 1, maxAttempts) then 1 else 0
  }

  function NewKey(w: World, i: nat): string {
    TimestampKey(w.keyNs(i))
  }

  /** The keys made for the dead letters of the first n receivers are new, and differ from each
      other. */
  ghost predicate FreshKeys(letters: Letters, w: World, maxAttempts: nat, n: nat) {
    && (forall i: nat | i < n && Dies(w, i, maxAttempts) :: NewKey(w, i) !in letters)
    && (forall i: nat, k: nat | i < k < n && Dies(w, i, maxAttempts) && Dies(w, k, maxAttempts) ::
          NewKey(w, i) != NewKey(w, k))
  }

  ghost predicate MadeHere(w: World, maxAttempts: nat, n: nat, id: string) {
    exists i: nat :: i < n && Dies(w, i, maxAttempts) && NewKey(w, i) == id
  }

  lemma LettersAfterStep(letters: Letters, subs: seq<Subscription>, evt: Event, w: World,
                         maxAttempts: nat, coolingOff: int, n: nat)
    returns (rec: Record)
    requires n < |subs|
    ensures LettersAfter(letters, subs, evt, w, maxAttempts, coolingOff, n + 1)
         == var before := LettersAfter(letters, subs, evt, w, maxAttempts, coolingOff, n);
            if Dies(w, n, maxAttempts) then before[NewKey(w, n) := rec] else before
    ensures rec.attempts == 0 && OriginOf(rec) == Origin(subs[n].id, subs[n].url, subs[n].secret, evt)
    ensures w.posts(n)(maxAttempts).Failed? ==> rec.lastError == w.posts(n)(maxAttempts).error
    ensures rec.failedAt == w.nows(n) && rec.nextRetryAfter == w.nows(n) + coolingOff
  {
    rec := DeadLetter(subs[n], evt, Outcome(w.posts(n)(maxAttempts)), w.nows(n), w.keyNs(n), coolingOff);
  }

  lemma {:induction false} LettersAfterKeys(letters: Letters, subs: seq<Subscription>, evt: Event, w: World,
                                            maxAttempts: nat, coolingOff: int, n: nat, id: string)
    requires n <= |subs|
    ensures id in LettersAfter(letters, subs, evt, w, maxAttempts, coolingOff, n)
            <==> id in letters || MadeHere(w, maxAttempts, n, id)
  {
    if n > 0 {
      LettersAfterKeys(letters, subs, evt, w, maxAttempts, coolingOff, n - 1, id);
      var rec := LettersAfterStep(letters, subs, evt, w, maxAttempts, coolingOff, n - 1);
      MadeHereStep(w, maxAttempts, n - 1, id);
    }
  }

  lemma MadeHereStep(w: World, maxAttempts: nat, n: nat, id: string)
    ensures MadeHere(w, maxAttempts, n + 1, id)
            <==> MadeHere(w, maxAttempts, n, id) || (Dies(w, n, maxAttempts) && NewKey(w, n) == id)
  {
    if MadeHere(w, maxAttempts, n, id) {
      var i: nat :| i < n && Dies(w, i, maxAttempts) && NewKey(w, i) == id;
      assert i < n + 1 && Dies(w, i, maxAttempts) && NewKey(w, i) == id;
    }
  }

  lemma FreshKeysStep(letters: Letters, subs: seq<Subscription>, evt: Event, w: World,
                      maxAttempts: nat, coolingOff: int, n: nat)
    requires n < |subs|
    ensures FreshKeys(letters, w, maxAttempts, n + 1)
            <==> FreshKeys(letters, w, maxAttempts, n)
                 && (Dies(w, n, maxAttempts) ==> NewKey(w, n) !in LettersAfter(letters, subs, evt, w, maxAttempts, coolingOff, n))
  {
    LettersAfterKeys(letters, subs, evt, w, maxAttempts, coolingOff, n, NewKey(w, n));
  }

  lemma PutSize(letters: Letters, id: string, rec: Record)
    ensures |letters[id := rec]| == |letters| + if id in letters then 0 else 1
  {
    assert letters[id := rec].Keys == letters.Keys + {id};
    if id in letters { assert letters.Keys + {id} == letters.Keys; }
  }

  lemma StepSize(letters: Letters, subs: seq<Subscription>, evt: Event, w: World,
                 maxAttempts: nat, coolingOff: int, n: nat)
    requires n < |subs|
    ensures var before := LettersAfter(letters, subs, evt, w, maxAttempts, coolingOff, n);
            |LettersAfter(letters, subs, evt, w, maxAttempts, coolingOff, n + 1)|
            == |before| + if Dies(w, n, maxAttempts) && NewKey(w, n) !in before then 1 else 0
  {
    var rec := LettersAfterStep(letters, subs, evt, w, maxAttempts, coolingOff, n);
    PutSize(LettersAfter(letters, subs, evt, w, maxAttempts, coolingOff, n), NewKey(w, n), rec);
  }

  /** Each dead letter in turn got a key that was not in the queue by then. */
  ghost predicate EachKeyNew(letters: Letters, subs: seq<Subscription>, evt: Event, w: World,
                             maxAttempts: nat, coolingOff: int, n: nat)
    requires n <= |subs|
  {
    n == 0 || (EachKeyNew(letters, subs, evt, w, maxAttempts, coolingOff, n - 1)
               && (Dies(w, n - 1, maxAttempts) ==>
                     NewKey(w, n - 1) !in LettersAfter(letters, subs, evt, w, maxAttempts, coolingOff, n - 1)))
  }

  lemma {:induction false} FreshMeansEachNew(letters: Letters, subs: seq<Subscription>, evt: Event, w: World,
                                             maxAttempts: nat, coolingOff: int, n: nat)
    requires n <= |subs|
    ensures FreshKeys(letters, w, maxAttempts, n) <==> EachKeyNew(letters, subs, evt, w, maxAttempts, coolingOff, n)
  {
    if n > 0 {
      FreshMeansEachNew(letters, subs, evt, w, maxAttempts, coolingOff, n - 1);
      FreshKeysStep(letters, subs, evt, w, maxAttempts, coolingOff, n - 1);
    }
  }

  lemma {:induction false} EachNewCounts(letters: Letters, subs: seq<Subscription>, evt: Event, w: World,
                                         maxAttempts: nat, coolingOff: int, n: nat)
    requires n <= |subs|
    ensures var size := |LettersAfter(letters, subs, evt, w, maxAttempts, coolingOff, n)|;
            && size <= |letters| + DeathsAmong(w, maxAttempts, n)
            && (size == |letters| + DeathsAmong(w, maxAttempts, n)
                <==> EachKeyNew(letters, subs, evt, w, maxAttempts, coolingOff, n))
  {
    if n > 0 {
      EachNewCounts(letters, subs, evt, w, maxAttempts, coolingOff, n - 1);
      StepSize(letters, subs, evt, w, maxAttempts, coolingOff, n - 1);
    }
  }

  /** The queue grows by exactly the deliveries that died if, and only if, their keys are new and
      differ: two that get the same clock reading share a key, and the second save overwrites
      the first letter. It never grows by more. */
  lemma EveryDeathCountsExactlyWhen(letters: Letters, subs: seq<Subscription>, evt: Event, w: World,
                                    maxAttempts: nat, coolingOff: int)
    ensures var size := |LettersAfter(letters, subs, evt, w, maxAttempts, coolingOff, |subs|)|;
            && size <= |letters| + DeathsAmong(w, maxAttempts, |subs|)
            && (size == |letters| + DeathsAmong(w, maxAttempts, |subs|) <==> FreshKeys(letters, w, maxAttempts, |subs|))
  {
    FreshMeansEachNew(letters, subs, evt, w, maxAttempts, coolingOff, |subs|);
    EachNewCounts(letters, subs, evt, w, maxAttempts, coolingOff, |subs|);
  }

  lemma StepKeepsLetter(letters: Letters, subs: seq<Subscription>, evt: Event, w: World,
                        maxAttempts: nat, coolingOff: int, n: nat, id: string)
    requires n < |subs| && FreshKeys(letters, w, maxAttempts, n + 1)
    requires id in LettersAfter(letters, subs, evt, w, maxAttempts, coolingOff, n)
    ensures var before := LettersAfter(letters, subs, evt, w, maxAttempts, coolingOff, n);
            var after := LettersAfter(letters, subs, evt, w, maxAttempts, coolingOff, n + 1);
            id in after && after[id] == before[id]
  {
    FreshKeysStep(letters, subs, evt, w, maxAttempts, coolingOff, n);
    var rec := LettersAfterStep(letters, subs, evt, w, maxAttempts, coolingOff, n);
  }

  /** With fresh keys no letter that was there is touched. */
  lemma {:induction false} FreshKeysKeepLetters(letters: Letters, subs: seq<Subscription>, evt: Event, w: World,
                                                maxAttempts: nat, coolingOff: int, n: nat, id: string)
    requires n <= |subs| && FreshKeys(letters, w, maxAttempts, n) && id in letters
    ensures var after := LettersAfter(letters, subs, evt, w, maxAttempts, coolingOff, n);
            id in after && after[id] == letters[id]
  {
    if n > 0 {
      FreshKeysKeepLetters(letters, subs, evt, w, maxAttempts, coolingOff, n - 1, id);
      StepKeepsLetter(letters, subs, evt, w, maxAttempts, coolingOff, n - 1, id);
    }
  }

  /** With fresh keys every dead delivery is in the queue afterwards, as a letter of its own that
      carries the event and the subscription's address. */
  lemma {:induction false} EveryDeathIsStored(letters: Letters, subs: seq<Subscription>, evt: Event, w: World,
                                              maxAttempts: nat, coolingOff: int, n: nat, i: nat)
    requires n <= |subs| && FreshKeys(letters, w, maxAttempts, n) && i < n && Dies(w, i, maxAttempts)
    ensures var after := LettersAfter(letters, subs, evt, w, maxAttempts, coolingOff, n);
            && NewKey(w, i) in after && after[NewKey(w, i)].attempts == 0
            && OriginOf(after[NewKey(w, i)]) == Origin(subs[i].id, subs[i].url, subs[i].secret, evt)
            && (maxAttempts >= 1 ==> w.posts(i)(maxAttempts) == Failed(after[NewKey(w, i)].lastError))
            && after[NewKey(w, i)].failedAt == w.nows(i) && after[NewKey(w, i)].nextRetryAfter == w.nows(i) + coolingOff
  {
    if i < n - 1 {
      EveryDeathIsStored(letters, subs, evt, w, maxAttempts, coolingOff, n - 1, i);
      StepKeepsLetter(letters, subs, evt, w, maxAttempts, coolingOff, n - 1, NewKey(w, i));
    } else {
      var rec := LettersAfterStep(letters, subs, evt, w, maxAttempts, coolingOff, i);
      assert maxAttempts >= 1 ==> w.posts(i)(maxAttempts).Failed?;
    }
  }

  function Repeat<T>(x: T, n: nat): seq<T> {
    if n == 0 then [] else Repeat(x, n - 1) + [x]
  }

  lemma {:induction false} RepeatIsUniform<T>(x: T, n: nat)
    ensures |Repeat(x, n)| == n && forall k | 0 <= k < n :: Repeat(x, n)[k] == x
  {
    if n > 0 { RepeatIsUniform(x, n - 1); }
  }

  /** What was appended is n times x. */
  lemma AppendedIsUniform<T>(was: seq<T>, now: seq<T>, x: T, n: nat)
    requires now == was + Repeat(x, n)
    ensures was <= now && |now| == |was| + n && forall k | |was| <= k < |now| :: now[k] == x
  {
    RepeatIsUniform(x, n);
    forall k | |was| <= k < |now| ensures now[k] == x { assert now[k] == Repeat(x, n)[k - |was|]; }
  }
}
