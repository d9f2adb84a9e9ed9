/** The dispatcher object (internal/webhooks/worker_dispatcher.go), its methods run one call at
    a time; WorkerPool and ReplayMachine treat their interleaving. */
module Dispatcher {
  import opened KeyOrder
  import opened Numbers
  import opened Storage
  import opened Subscriptions
  import opened FirstWinsUnion
  import opened Backoff
  import opened KeyFormat
  import opened DeadLetters
  import opened Delivery
  import opened Loading
  import ParallelPass
  import SchedulerRuns

  datatype Config = Config(
    timeoutSeconds: int, maxAttempts: int, workerCount: int, retryBackoff: Option<int -> int>,
    dlqCoolingOff: int, dlqScanInterval: int, dlqMaxAttempts: int)

  const DEFAULT_TIMEOUT_SECONDS := 5
  const DEFAULT_MAX_ATTEMPTS := 5
  const DEFAULT_WORKER_COUNT := 4
  const DEFAULT_DLQ_COOLING_OFF := 5 * MINUTE
  const DEFAULT_DLQ_SCAN_INTERVAL := 60 * SECOND
  const DEFAULT_DLQ_MAX_ATTEMPTS := 10

  function OrDefault(n: int, default: int): int {
    if n <= 0 then default else n
  }

  function BackoffOf(cfg: Config): int -> int {
    if cfg.retryBackoff.None? then RetryDelay else cfg.retryBackoff.value
  }

  /** A POST as the receiver sees it. */
  datatype Sent = Sent(url: string, secret: string, evt: Event)

  /** What delivering depends on, and what it changes. */
  datatype Settings = Settings(maxAttempts: nat, coolingOff: int, backoff: int -> int, hasDlq: bool)
  datatype Books = Books(letters: Letters, stored: nat, posts: seq<Sent>, slept: int)

  class WorkerDispatcher {
    const timeoutSeconds: int
    const maxAttempts: nat
    const workerCount: nat
    const queueCapacity: nat
    const retryBackoff: int -> int
    const coolingOff: int
    const scanInterval: int
    const dlqMaxAttempts: nat
    const dlq: DLQStore?

    var posts: seq<Sent>
    var slept: int
    var storedTotal: nat
    var replaySuccessTotal: nat
    var replayFailureTotal: nat

    /** Every setting that is zero or negative falls back to its default, so all are positive;
        the job queue holds four events per worker. */
    constructor (cfg: Config, dlq: DLQStore?)
      ensures maxAttempts == OrDefault(cfg.maxAttempts, DEFAULT_MAX_ATTEMPTS) >= 1
      ensures workerCount == OrDefault(cfg.workerCount, DEFAULT_WORKER_COUNT) >= 1
      ensures queueCapacity == 4 * workerCount && this.dlq == dlq
      ensures coolingOff == OrDefault(cfg.dlqCoolingOff, DEFAULT_DLQ_COOLING_OFF) >= 1
      ensures dlqMaxAttempts == OrDefault(cfg.dlqMaxAttempts, DEFAULT_DLQ_MAX_ATTEMPTS) >= 1
      ensures scanInterval == OrDefault(cfg.dlqScanInterval, DEFAULT_DLQ_SCAN_INTERVAL) >= 1
      ensures timeoutSeconds == OrDefault(cfg.timeoutSeconds, DEFAULT_TIMEOUT_SECONDS) >= 1
      ensures retryBackoff == BackoffOf(cfg)
      ensures cfg.maxAttempts > 0 ==> maxAttempts == cfg.maxAttempts
      ensures cfg.workerCount > 0 ==> workerCount == cfg.workerCount
      ensures cfg.dlqCoolingOff > 0 ==> coolingOff == cfg.dlqCoolingOff
      ensures cfg.dlqMaxAttempts > 0 ==> dlqMaxAttempts == cfg.dlqMaxAttempts
      ensures cfg.dlqScanInterval > 0 ==> scanInterval == cfg.dlqScanInterval
      ensures cfg.timeoutSeconds > 0 ==> timeoutSeconds == cfg.timeoutSeconds
      ensures cfg.retryBackoff.Some? ==> retryBackoff == cfg.retryBackoff.value
      ensures cfg.maxAttempts <= 0 ==> maxAttempts == 5
      ensures cfg.workerCount <= 0 ==> workerCount == 4
      ensures cfg.dlqCoolingOff <= 0 ==> coolingOff == 300_000_000_000
      ensures cfg.dlqMaxAttempts <= 0 ==> dlqMaxAttempts == 10
      ensures cfg.dlqScanInterval <= 0 ==> scanInterval == 60_000_000_000
      ensures cfg.timeoutSeconds <= 0 ==> timeoutSeconds == 5
      ensures cfg.retryBackoff.None? ==> retryBackoff == RetryDelay
      ensures posts == [] && slept == 0 && storedTotal == replaySuccessTotal == replayFailureTotal == 0
    {
      timeoutSeconds := OrDefault(cfg.timeoutSeconds, DEFAULT_TIMEOUT_SECONDS);
      maxAttempts := OrDefault(cfg.maxAttempts, DEFAULT_MAX_ATTEMPTS);
      workerCount := OrDefault(cfg.workerCount, DEFAULT_WORKER_COUNT);
      queueCapacity := OrDefault(cfg.workerCount, DEFAULT_WORKER_COUNT) * 4;
      retryBackoff := BackoffOf(cfg);
      coolingOff := OrDefault(cfg.dlqCoolingOff, DEFAULT_DLQ_COOLING_OFF);
      scanInterval := OrDefault(cfg.dlqScanInterval, DEFAULT_DLQ_SCAN_INTERVAL);
      dlqMaxAttempts := OrDefault(cfg.dlqMaxAttempts, DEFAULT_DLQ_MAX_ATTEMPTS);
      this.dlq := dlq;
      posts, slept := [], 0;
      storedTotal, replaySuccessTotal, replayFailureTotal := 0, 0, 0;
    }

    function StoreFrame(): set<object> {
      if dlq == null then {} else {dlq.store}
    }

    ghost predicate Valid()
      reads StoreFrame()
    {
      dlq != null ==> dlq.Valid()
    }

    function Letters(): Letters
      reads StoreFrame()
    {
      if dlq == null then map[] else dlq.Letters()
    }

    ghost function OwnSettings(): Settings {
      Settings(maxAttempts, coolingOff, retryBackoff, dlq != null)
    }

    ghost function Ledger(): Books
      reads this, StoreFrame()
    {
      Books(Letters(), storedTotal, posts, slept)
    }

    /** `post(a)` is the outcome of the a-th POST; `now`, `keyNs` and `fault` serve the save. */
    method DeliverWithRetry(sub: Subscription, evt: Event, post: nat -> Post, now: int, keyNs: int, fault: bool)
      returns (report: Report)
      requires Valid() && maxAttempts >= 1
      modifies this`posts, this`slept, this`storedTotal, StoreFrame()
      ensures Valid()
      ensures dlq != null ==> forall b | b != DLQ_BUCKET :: dlq.store.Bucket(b) == old(dlq.store.Bucket(b))
      ensures ReportOk(report, post, maxAttempts, dlq != null)
      ensures posts == old(posts) + Repeat(Sent(sub.url, sub.secret, evt), report.attempts)
      ensures old(posts) <= posts && |posts| == |old(posts)| + report.attempts
      ensures forall k | |old(posts)| <= k < |posts| :: posts[k] == Sent(sub.url, sub.secret, evt)
      ensures slept == old(slept) + Slept(retryBackoff, report.attempts - 1)
      ensures var dies := report.Abandoned? && dlq != null && !fault;
              var rec := DeadLetter(sub, evt, Outcome(post(maxAttempts)), now, keyNs, coolingOff);
              && Letters() == (if dies then old(Letters())[rec.id := rec] else old(Letters()))
              && storedTotal == old(storedTotal) + (if dies then 1 else 0)
      ensures report.Abandoned? && dlq != null && !fault ==>
                && TimestampKey(keyNs) in Letters()
                && var t := Letters()[TimestampKey(keyNs)];
                   && t.subId == sub.id && t.subUrl == sub.url && t.subSecret == sub.secret && t.event == evt
                   && t.attempts == 0 && t.lastError == post(maxAttempts).error
                   && t.failedAt == now && t.nextRetryAfter == now + coolingOff
    {
      var attempt, lastErr := PostUntilAccepted(sub, evt, post);
      if attempt <= maxAttempts {
        return Accepted(attempt);
      }
      if dlq == null {
        return Abandoned(maxAttempts, 0);
      }
      SaveToDLQ(sub, evt, lastErr, now, keyNs, fault);
      return Abandoned(maxAttempts, 1);
    }

    /** The retry loop: the accepted attempt, or one more than the maximum and the last error. */
    method PostUntilAccepted(sub: Subscription, evt: Event, post: nat -> Post) returns (attempt: nat, lastErr: string)
      requires maxAttempts >= 1
      modifies this`posts, this`slept
      ensures 1 <= attempt <= maxAttempts + 1 && AllFail(post, attempt - 1)
      ensures attempt <= maxAttempts ==> post(attempt).Delivered?
      ensures attempt > maxAttempts ==> post(maxAttempts) == Failed(lastErr)
      ensures var n := if attempt <= maxAttempts then attempt else maxAttempts;
              && posts == old(posts) + Repeat(Sent(sub.url, sub.secret, evt), n)
              && slept == old(slept) + Slept(retryBackoff, n - 1)
              && old(posts) <= posts && |posts| == |old(posts)| + n
              && forall k | |old(posts)| <= k < |posts| :: posts[k] == Sent(sub.url, sub.secret, evt)
    {
      ghost var sent := Sent(sub.url, sub.secret, evt);
      lastErr := "";
      attempt := 1;
      while attempt <= maxAttempts
        invariant 1 <= attempt <= maxAttempts + 1
        invariant AllFail(post, attempt - 1)
        invariant posts == old(posts) + Repeat(sent, attempt - 1)
        invariant slept == old(slept) + Slept(retryBackoff, if attempt <= maxAttempts then attempt - 1 else maxAttempts - 1)
        invariant attempt > 1 ==> post(attempt - 1) == Failed(lastErr)
      {
        posts := posts + [Sent(sub.url, sub.secret, evt)];
        if post(attempt).Delivered? {
          AppendedIsUniform(old(posts), posts, sent, attempt);
          return attempt, lastErr;
        }
        lastErr := post(attempt).error;
        if attempt < maxAttempts {
          slept := slept + retryBackoff(attempt);
        }
        attempt := attempt + 1;
      }
      AppendedIsUniform(old(posts), posts, sent, maxAttempts);
    }

    method SaveToDLQ(sub: Subscription, evt: Event, deliveryErr: string, now: int, keyNs: int, fault: bool)
      requires Valid() && dlq != null
      modifies this`storedTotal, dlq.store
      ensures Valid()
      ensures forall b | b != DLQ_BUCKET :: dlq.store.Bucket(b) == old(dlq.store.Bucket(b))
      ensures var rec := DeadLetter(sub, evt, deliveryErr, now, keyNs, coolingOff);
              && Letters() == (if fault then old(Letters()) else old(Letters())[rec.id := rec])
              && storedTotal == old(storedTotal) + (if fault then 0 else 1)
      ensures !fault ==>
                && TimestampKey(keyNs) in Letters()
                && var t := Letters()[TimestampKey(keyNs)];
                   && t.subId == sub.id && t.subUrl == sub.url && t.subSecret == sub.secret && t.event == evt
                   && t.attempts == 0 && t.lastError == deliveryErr
                   && t.failedAt == now && t.nextRetryAfter == now + coolingOff
    {
      var rec := Record("", sub.id, sub.url, sub.secret, evt, 0, deliveryErr, now, now + coolingOff);
      var saved, ok := dlq.Save(rec, keyNs, fault);
      if !ok {
        return;
      }
      storedTotal := storedTotal + 1;
    }

    /** Deliver one event; `listing` is what the provider answered and `encoded` whether the
        event could be marshalled. `places` are the listed positions served, and receiver a got
        the new POSTs from marks[a] up to marks[a + 1]. */
    method Process(evt: Event, listing: Result<seq<Subscription>>, encoded: bool, w: World)
      returns (job: Job, ghost places: seq<nat>, ghost marks: seq<nat>)
      requires Valid() && maxAttempts >= 1
      modifies this`posts, this`slept, this`storedTotal, StoreFrame()
      ensures Valid()
      ensures dlq != null ==> forall b | b != DLQ_BUCKET :: dlq.store.Bucket(b) == old(dlq.store.Bucket(b))
      ensures job.evt == evt && job.listing == listing && job.encoded == encoded && job.world == w
      ensures JobOk(job, maxAttempts, dlq != null)
      ensures var subs := Receivers(evt, listing, encoded);
              && Letters() == (if dlq == null then map[]
                               else LettersAfter(old(Letters()), subs, evt, w, maxAttempts, coolingOff, |subs|))
              && storedTotal == old(storedTotal) + (if dlq == null then 0 else DeathsAmong(w, maxAttempts, |subs|))
              && posts == old(posts) + Sends(subs, evt, job.reports)
              && slept == old(slept) + SleptIn(retryBackoff, job.reports)
      ensures listing.Err? || !encoded ==> job.reports == [] && places == [] && posts == old(posts)
      ensures listing.Ok? && encoded ==>
                && (forall a, b | 0 <= a < b < |places| :: places[a] < places[b])
                && (forall i: nat :: i in places <==>
                      i < |listing.value|
                      && var sub := listing.value[i];
                         sub.enabled && (sub.events == [] || "*" in sub.events || evt.kind in sub.events))
      ensures |job.reports| == |places| && |marks| == |places| + 1
      ensures old(posts) <= posts && marks[0] == |old(posts)| && marks[|places|] == |posts|
      ensures forall a: nat | a < |places| :: listing.Ok? && places[a] < |listing.value|
      ensures forall a: nat {:trigger job.reports[a]} | a < |places| ::
                marks[a] + job.reports[a].attempts == marks[a + 1] <= |posts|
      ensures forall a: nat, k: nat | a < |places| && marks[a] <= k < marks[a + 1] <= |posts| ::
                posts[k] == Sent(listing.value[places[a]].url, listing.value[places[a]].secret, evt)
    {
      places, marks := [], [|posts|];
      job := Job(evt, listing, encoded, w, []);
      if listing.Err? {
        return;
      }
      if !encoded {
        return;
      }
      var reports := ServeListed(evt, listing.value, w);
      job := Job(evt, listing, encoded, w, reports);
      places := ReceiverPlaces(listing.value, evt.kind);
      marks := PostMarks(Filter(listing.value, Receiver(evt.kind)), evt, reports, old(posts), posts);
    }

    /** The loop over the listed subscriptions. */
    method ServeListed(evt: Event, subs: seq<Subscription>, w: World) returns (reports: seq<Report>)
      requires Valid() && maxAttempts >= 1
      modifies this`posts, this`slept, this`storedTotal, StoreFrame()
      ensures Valid()
      ensures dlq != null ==> forall b | b != DLQ_BUCKET :: dlq.store.Bucket(b) == old(dlq.store.Bucket(b))
      ensures Served(OwnSettings(), evt, w, Filter(subs, Receiver(evt.kind)), reports, old(Ledger()), Ledger())
    {
      reports := [];
      for i := 0 to |subs|
        invariant Valid()
        invariant dlq != null ==> forall b | b != DLQ_BUCKET :: dlq.store.Bucket(b) == old(dlq.store.Bucket(b))
        invariant Served(OwnSettings(), evt, w, Filter(subs[..i], Receiver(evt.kind)), reports, old(Ledger()), Ledger())
      {
        assert subs[..i + 1] == subs[..i] + [subs[i]];
        FilterSnoc(subs[..i], subs[i], Receiver(evt.kind));
        if !subs[i].enabled {
          continue;
        }
        var matches := MatchesEventType(subs[i], evt.kind);
        if !matches {
          continue;
        }
        var n := |reports|;
        ghost var before := Ledger();
        var report := DeliverWithRetry(subs[i], evt, w.posts(n), w.nows(n), w.keyNs(n), w.faults(n));
        ServeOne(OwnSettings(), evt, w, Filter(subs[..i], Receiver(evt.kind)), reports, old(Ledger()), before, subs[i], report);
        reports := reports + [report];
      }
      assert subs[..|subs|] == subs;
    }

    ghost function PassLedger(): PassBooks
      reads this, StoreFrame()
    {
      PassBooks(Letters(), posts, replaySuccessTotal, replayFailureTotal)
    }

    /** One scheduled replay of a listed record. */
    method ReplayAndUpdate(rec: Record, post: Post, now: int, fault: bool)
      requires Valid() && dlq != null
      modifies this`posts, this`replaySuccessTotal, this`replayFailureTotal, dlq.store
      ensures Valid()
      ensures forall b | b != DLQ_BUCKET :: dlq.store.Bucket(b) == old(dlq.store.Bucket(b))
      ensures rec.id != "" ==> Letters() == Settle(old(Letters()), rec, Scheduler(coolingOff), post, now, fault)
      ensures rec.id != "" && !fault && post.Delivered? ==> rec.id !in Letters()
      ensures rec.id != "" && !fault && post.Failed? ==>
                && rec.id in Letters()
                && var t := Letters()[rec.id];
                   && t.id == rec.id && t.subId == rec.subId && t.subUrl == rec.subUrl && t.subSecret == rec.subSecret
                   && t.event == rec.event && t.attempts == rec.attempts + 1
                   && t.lastError == post.error && t.failedAt == now
                   && (1 <= coolingOff <= 36_028_797_018_963_967 ==>
                         var p := [1, 2, 4, 8, 16, 32, 64, 128, 256][if rec.attempts < 0 then 0 else if rec.attempts > 8 then 8 else rec.attempts];
                         t.nextRetryAfter == now + if coolingOff * p > 86_400_000_000_000 then 86_400_000_000_000 else coolingOff * p)
      ensures posts == old(posts) + [Sent(rec.subUrl, rec.subSecret, rec.event)]
      ensures replaySuccessTotal == old(replaySuccessTotal) + (if post.Delivered? then 1 else 0)
      ensures replayFailureTotal == old(replayFailureTotal) + (if post.Delivered? then 0 else 1)
    {
      SettleFields(Letters(), rec, Scheduler(coolingOff), post, now);
      posts := posts + [Sent(rec.subUrl, rec.subSecret, rec.event)];
      var r := rec.(attempts := rec.attempts + 1, failedAt := now);
      if post.Delivered? {
        replaySuccessTotal := replaySuccessTotal + 1;
        var deleted := dlq.Delete(r.id, fault);
        return;
      }
      replayFailureTotal := replayFailureTotal + 1;
      r := r.(lastError := post.error);
      var backoff := WrapInt64(coolingOff * Pow2(Min(Max(r.attempts - 1, 0), 8)));
      if backoff > DAY {
        backoff := DAY;
      }
      r := r.(nextRetryAfter := r.failedAt + backoff);
      var saved, ok := dlq.Save(r, now, fault);
    }

    /** One scan of the queue, its goroutines run in launch order; by
        ParallelPass.PassIsScheduleIndependent any other order ends the same. `views` is what the
        reads after the key listing see, and `places` are the listed positions replayed. */
    method RunAutoRetryPass(now: int, listFault: bool, views: Views<Blob>, readFaults: nat -> bool,
                            post: string -> Post, clock: string -> int, fault: string -> bool)
      returns (ghost places: seq<nat>)
      requires Valid() && dlq != null && forall i: nat :: Keyed(views(i))
      modifies this`posts, this`replaySuccessTotal, this`replayFailureTotal, dlq.store
      ensures Valid()
      ensures forall b | b != DLQ_BUCKET :: dlq.store.Bucket(b) == old(dlq.store.Bucket(b))
      ensures Listed(old(dlq.Bucket()), listFault, views, readFaults).Err? ==>
                && Letters() == old(Letters()) && posts == old(posts)
                && replaySuccessTotal == old(replaySuccessTotal) && replayFailureTotal == old(replayFailureTotal)
      ensures Listed(old(dlq.Bucket()), listFault, views, readFaults).Ok? ==>
                var records := Listed(old(dlq.Bucket()), listFault, views, readFaults).value;
                var todo := Filter(records, SchedulerRuns.Eligible(now, dlqMaxAttempts));
                var j := ParallelPass.Job(Scheduler(coolingOff), todo, workerCount, post, clock, fault);
                && Letters() == ParallelPass.Sequential(j, old(Letters()), |todo|)
                && posts == old(posts) + Resends(todo)
                && replaySuccessTotal == old(replaySuccessTotal) + ParallelPass.Successes(post, todo)
                && replaySuccessTotal + replayFailureTotal
                   == old(replaySuccessTotal) + old(replayFailureTotal) + |todo|
      ensures Listed(old(dlq.Bucket()), listFault, views, readFaults).Ok? ==>
                var records := Listed(old(dlq.Bucket()), listFault, views, readFaults).value;
                && (forall a, b | 0 <= a < b < |places| :: places[a] < places[b])
                && (forall i: nat :: i in places <==>
                      i < |records| && !(dlqMaxAttempts > 0 && records[i].attempts >= dlqMaxAttempts)
                      && records[i].nextRetryAfter <= now)
                && old(posts) <= posts && |posts| == |old(posts)| + |places|
                && (forall a: nat | a < |places| ::
                      places[a] < |records|
                      && var r := records[places[a]]; posts[|old(posts)| + a] == Sent(r.subUrl, r.subSecret, r.event))
                && forall a: nat | a < |places| ::
                     places[a] < |records|
                     && var r := records[places[a]];
                        && (!fault(r.id) && post(r.id).Delivered? ==> r.id !in Letters())
                        && (!fault(r.id) && post(r.id).Failed? ==>
                              && r.id in Letters()
                              && var t := Letters()[r.id];
                                 && t.subId == r.subId && t.subUrl == r.subUrl && t.subSecret == r.subSecret
                                 && t.event == r.event && t.attempts == r.attempts + 1
                                 && t.lastError == post(r.id).error && t.failedAt == clock(r.id))
      ensures Listed(old(dlq.Bucket()), listFault, views, readFaults).Ok? ==>
                var records := Listed(old(dlq.Bucket()), listFault, views, readFaults).value;
                forall id | (forall a: nat | a < |places| && places[a] < |records| :: records[places[a]].id != id) ::
                  (id in Letters() <==> id in old(Letters())) && (id in Letters() ==> Letters()[id] == old(Letters())[id])
    {
      places := [];
      var listing := dlq.List(listFault, views, readFaults);
      if listing.Err? {
        return;
      }
      ListedHaveIds(dlq.Bucket(), listFault, views, readFaults);
      ReplayEligible(now, listing.value, post, clock, fault);
      ListedOnce(old(dlq.Bucket()), listFault, views, readFaults);
      ghost var j := ParallelPass.Job(Scheduler(coolingOff), [], workerCount, post, clock, fault);
      places := PassOutcome(j, listing.value, now, dlqMaxAttempts, old(PassLedger()), PassLedger());
    }

    /** The loop over the listed records. */
    method ReplayEligible(now: int, records: seq<Record>, post: string -> Post, clock: string -> int, fault: string -> bool)
      requires Valid() && dlq != null && forall r | r in records :: r.id != ""
      modifies this`posts, this`replaySuccessTotal, this`replayFailureTotal, dlq.store
      ensures Valid()
      ensures forall b | b != DLQ_BUCKET :: dlq.store.Bucket(b) == old(dlq.store.Bucket(b))
      ensures var todo := Filter(records, SchedulerRuns.Eligible(now, dlqMaxAttempts));
              var j := ParallelPass.Job(Scheduler(coolingOff), todo, workerCount, post, clock, fault);
              Replayed(j, todo, old(PassLedger()), PassLedger())
    {
      ghost var eligible := SchedulerRuns.Eligible(now, dlqMaxAttempts);
      ghost var j := ParallelPass.Job(Scheduler(coolingOff), Filter(records, eligible), workerCount, post, clock, fault);
      for i := 0 to |records|
        invariant Valid()
        invariant forall b | b != DLQ_BUCKET :: dlq.store.Bucket(b) == old(dlq.store.Bucket(b))
        invariant Replayed(j, Filter(records[..i], eligible), old(PassLedger()), PassLedger())
      {
        var rec := records[i];
        assert records[..i + 1] == records[..i] + [rec] && rec in records;
        FilterSnoc(records[..i], rec, eligible);
        ReplayedOne(j, Filter(records[..i], eligible), rec, old(PassLedger()), PassLedger());
        if rec.IsTerminal(dlqMaxAttempts) {
          continue;
        }
        if rec.nextRetryAfter > now {
          continue;
        }
        ReplayAndUpdate(rec, post(rec.id), clock(rec.id), fault(rec.id));
      }
      assert records[..|records|] == records;
    }
  }

  /** The POSTs behind some reports, receiver by receiver. */
  function Sends(receivers: seq<Subscription>, evt: Event, reports: seq<Report>): seq<Sent> {
    if receivers == [] || reports == [] then [] else
      var r, n := |receivers| - 1, |reports| - 1;
      Sends(receivers[..r], evt, reports[..n])
      + Repeat(Sent(receivers[r].url, receivers[r].secret, evt), reports[n].attempts)
  }

  /** Block a of the POSTs, from marks[a] to marks[a + 1], are those of report a: as many as it has
      attempts, all to receiver a. */
  ghost predicate Blocks(sends: seq<Sent>, marks: seq<nat>, receivers: seq<Subscription>, evt: Event, reports: seq<Report>)
    requires |receivers| == |reports|
  {
    && |marks| == |reports| + 1 && marks[0] == 0 && marks[|reports|] == |sends|
    && forall a: nat | a < |reports| :: BlockOf(sends, marks, receivers[a], evt, reports[a], a)
  }

  ghost predicate BlockOf(sends: seq<Sent>, marks: seq<nat>, sub: Subscription, evt: Event, report: Report, a: nat)
    requires a + 1 < |marks|
  {
    && marks[a + 1] == marks[a] + report.attempts <= |sends|
    && forall k | marks[a] <= k < marks[a + 1] :: sends[k] == Sent(sub.url, sub.secret, evt)
  }

  lemma {:induction false} SendsBlocks(receivers: seq<Subscription>, evt: Event, reports: seq<Report>) returns (marks: seq<nat>)
    requires |receivers| == |reports|
    ensures Blocks(Sends(receivers, evt, reports), marks, receivers, evt, reports)
  {
    marks := [0];
    if reports != [] {
      var n := |reports| - 1;
      var init := SendsBlocks(receivers[..n], evt, reports[..n]);
      var before, x := Sends(receivers[..n], evt, reports[..n]), Sent(receivers[n].url, receivers[n].secret, evt);
      var sends := Sends(receivers, evt, reports);
      AppendedIsUniform(before, sends, x, reports[n].attempts);
      marks := init + [|sends|];
      forall a: nat | a < |reports| ensures BlockOf(sends, marks, receivers[a], evt, reports[a], a) {
        if a < n { assert BlockOf(before, init, receivers[..n][a], evt, reports[..n][a], a); }
      }
    }
  }

  /** The positions of the enabled subscriptions that ask for all events or for this kind. */
  lemma ReceiverPlaces(subs: seq<Subscription>, kind: string) returns (places: seq<nat>)
    ensures Picks(Filter(subs, Receiver(kind)), places, subs)
    ensures forall a, b | 0 <= a < b < |places| :: places[a] < places[b]
    ensures forall i: nat :: i in places <==>
              i < |subs| && subs[i].enabled && (subs[i].events == [] || "*" in subs[i].events || kind in subs[i].events)
  {
    places := FilterPlaces(subs, Receiver(kind));
  }

  /** Where the POSTs of each report are, behind some earlier ones. */
  lemma PostMarks(receivers: seq<Subscription>, evt: Event, reports: seq<Report>, was: seq<Sent>, now: seq<Sent>)
    returns (marks: seq<nat>)
    requires |receivers| == |reports| && now == was + Sends(receivers, evt, reports)
    ensures |marks| == |reports| + 1
    ensures was <= now && marks[0] == |was| && marks[|reports|] == |now|
    ensures forall a: nat {:trigger reports[a]} | a < |reports| :: marks[a] + reports[a].attempts == marks[a + 1] <= |now|
    ensures forall a: nat, k: nat | a < |reports| && marks[a] <= k < marks[a + 1] <= |now| ::
              now[k] == Sent(receivers[a].url, receivers[a].secret, evt)
  {
    var m := SendsBlocks(receivers, evt, reports);
    marks := seq(|m|, a requires 0 <= a < |m| => |was| + m[a]);
    forall a: nat {:trigger reports[a]} | a < |reports|
      ensures marks[a] + reports[a].attempts == marks[a + 1] <= |now|
      ensures forall k: nat | marks[a] <= k < marks[a + 1] :: now[k] == Sent(receivers[a].url, receivers[a].secret, evt)
    {
      BlockBehind(was, Sends(receivers, evt, reports), m, receivers[a], evt, reports[a], a);
    }
  }

  lemma BlockBehind(was: seq<Sent>, sends: seq<Sent>, m: seq<nat>, sub: Subscription, evt: Event, report: Report, a: nat)
    requires a + 1 < |m| && BlockOf(sends, m, sub, evt, report, a)
    ensures |was| + m[a] + report.attempts == |was| + m[a + 1] <= |was + sends|
    ensures forall k: nat | |was| + m[a] <= k < |was| + m[a + 1] :: (was + sends)[k] == Sent(sub.url, sub.secret, evt)
  {
    forall k: nat | |was| + m[a] <= k < |was| + m[a + 1] ensures (was + sends)[k] == Sent(sub.url, sub.secret, evt) {
      assert (was + sends)[k] == sends[k - |was|];
    }
  }

  /** The time slept behind some reports. */
  function SleptIn(backoff: int -> int, reports: seq<Report>): int {
    if reports == [] then 0 else
      var n := |reports| - 1;
      SleptIn(backoff, reports[..n]) + if reports[n].attempts == 0 then 0 else Slept(backoff, reports[n].attempts - 1)
  }

  lemma SendOne(receivers: seq<Subscription>, evt: Event, reports: seq<Report>, sub: Subscription, report: Report,
                backoff: int -> int)
    ensures Sends(receivers + [sub], evt, reports + [report])
         == Sends(receivers, evt, reports) + Repeat(Sent(sub.url, sub.secret, evt), report.attempts)
    ensures SleptIn(backoff, reports + [report])
         == SleptIn(backoff, reports) + if report.attempts == 0 then 0 else Slept(backoff, report.attempts - 1)
  {
    assert (receivers + [sub])[..|receivers|] == receivers;
    assert (reports + [report])[..|reports|] == reports;
  }

  /** The POSTs of a pass over some letters. */
  function Resends(records: seq<Record>): seq<Sent> {
    if records == [] then [] else
      var n := |records| - 1;
      Resends(records[..n]) + [Sent(records[n].subUrl, records[n].subSecret, records[n].event)]
  }

  lemma {:induction false} ResendsAre(records: seq<Record>)
    ensures |Resends(records)| == |records|
    ensures forall k | 0 <= k < |records| ::
              Resends(records)[k] == Sent(records[k].subUrl, records[k].subSecret, records[k].event)
  {
    if records != [] { ResendsAre(records[..|records| - 1]); }
  }

  lemma ResendOne(records: seq<Record>, rec: Record)
    ensures Resends(records + [rec]) == Resends(records) + [Sent(rec.subUrl, rec.subSecret, rec.event)]
  {
    assert (records + [rec])[..|records|] == records;
  }

  /** The letters of the records at some places, each settled, and all others. */
  lemma PassLetters(j: ParallelPass.Job, records: seq<Record>, places: seq<nat>, start: Letters)
    requires ParallelPass.DistinctIds(j.records) && Picks(j.records, places, records)
    ensures var after := ParallelPass.Sequential(j, start, |j.records|);
            && (forall a: nat | a < |places| ::
                  places[a] < |records|
                  && var r := records[places[a]];
                     && (!j.fault(r.id) && j.post(r.id).Delivered? ==> r.id !in after)
                     && (!j.fault(r.id) && j.post(r.id).Failed? ==>
                           && r.id in after
                           && var t := after[r.id];
                              && t.subId == r.subId && t.subUrl == r.subUrl && t.subSecret == r.subSecret
                              && t.event == r.event && t.attempts == r.attempts + 1
                              && t.lastError == j.post(r.id).error && t.failedAt == j.clock(r.id)))
            && (forall id | (forall a: nat | a < |places| && places[a] < |records| :: records[places[a]].id != id) ::
                  (id in after <==> id in start) && (id in after ==> after[id] == start[id]))
  {
    forall a: nat | a < |places| { ParallelPass.PassFields(j, start, a); }
    forall id | (forall a: nat | a < |places| && places[a] < |records| :: records[places[a]].id != id)
      ensures var after := ParallelPass.Sequential(j, start, |j.records|);
              (id in after <==> id in start) && (id in after ==> after[id] == start[id])
    {
      forall r | r in j.records ensures r.id != id { var a :| 0 <= a < |places| && j.records[a] == r; assert places[a] < |records|; }
      ParallelPass.PassSpares(j, start, id);
    }
  }

  lemma PickedAreDistinct(records: seq<Record>, todo: seq<Record>, places: seq<nat>)
    requires ParallelPass.DistinctIds(records) && Ascending(places) && Picks(todo, places, records)
    ensures ParallelPass.DistinctIds(todo)
  {
  }

  /** The POSTs of a pass, by position. */
  lemma PassPosts(was: seq<Sent>, todo: seq<Record>, records: seq<Record>, places: seq<nat>)
    requires Picks(todo, places, records)
    ensures var now := was + Resends(todo);
            && was <= now && |now| == |was| + |places|
            && forall a: nat | a < |places| ::
                 places[a] < |records|
                 && var r := records[places[a]]; now[|was| + a] == Sent(r.subUrl, r.subSecret, r.event)
  {
    ResendsAre(todo);
  }

  /** Field by field: the listed records that are neither terminal nor still cooling off, and only
      those, are POSTed once each, in listing order, and settled; other letters stay. */
  lemma PassOutcome(j: ParallelPass.Job, records: seq<Record>, now: int, maxAttempts: int, was: PassBooks, after: PassBooks)
    returns (places: seq<nat>)
    requires ParallelPass.DistinctIds(records)
    requires var todo := Filter(records, SchedulerRuns.Eligible(now, maxAttempts));
             Replayed(j.(records := todo), todo, was, after)
    ensures forall a, b | 0 <= a < b < |places| :: places[a] < places[b]
    ensures forall i: nat :: i in places <==>
              i < |records| && !(maxAttempts > 0 && records[i].attempts >= maxAttempts) && records[i].nextRetryAfter <= now
    ensures was.posts <= after.posts && |after.posts| == |was.posts| + |places|
    ensures forall a: nat | a < |places| ::
              places[a] < |records|
              && var r := records[places[a]]; after.posts[|was.posts| + a] == Sent(r.subUrl, r.subSecret, r.event)
    ensures forall a: nat | a < |places| ::
              places[a] < |records|
              && var r := records[places[a]];
                 && (!j.fault(r.id) && j.post(r.id).Delivered? ==> r.id !in after.letters)
                 && (!j.fault(r.id) && j.post(r.id).Failed? ==>
                       && r.id in after.letters
                       && var t := after.letters[r.id];
                          && t.subId == r.subId && t.subUrl == r.subUrl && t.subSecret == r.subSecret
                          && t.event == r.event && t.attempts == r.attempts + 1
                          && t.lastError == j.post(r.id).error && t.failedAt == j.clock(r.id))
    ensures forall id | (forall a: nat | a < |places| && places[a] < |records| :: records[places[a]].id != id) ::
              (id in after.letters <==> id in was.letters) && (id in after.letters ==> after.letters[id] == was.letters[id])
  {
    var todo := Filter(records, SchedulerRuns.Eligible(now, maxAttempts));
    places := FilterPlaces(records, SchedulerRuns.Eligible(now, maxAttempts));
    PickedAreDistinct(records, todo, places);
    PassPosts(was.posts, todo, records, places);
    PassLetters(j.(records := todo), records, places, was.letters);
  }

  /** What a pass changes. */
  datatype PassBooks = PassBooks(letters: Letters, posts: seq<Sent>, successes: nat, failures: nat)

  /** The letters in `todo` have been replayed, one after the other. */
  ghost predicate Replayed(j: ParallelPass.Job, todo: seq<Record>, start: PassBooks, now: PassBooks) {
    && now.letters == ParallelPass.Sequential(j.(records := todo), start.letters, |todo|)
    && now.posts == start.posts + Resends(todo)
    && now.successes == start.successes + ParallelPass.Successes(j.post, todo)
    && now.successes + now.failures == start.successes + start.failures + |todo|
  }

  lemma ReplayedOne(j: ParallelPass.Job, todo: seq<Record>, rec: Record, start: PassBooks, before: PassBooks)
    requires Replayed(j, todo, start, before)
    ensures var d := if j.post(rec.id).Delivered? then 1 else 0;
            Replayed(j, todo + [rec], start,
                     PassBooks(ParallelPass.SettleRecord(j, before.letters, rec),
                               before.posts + [Sent(rec.subUrl, rec.subSecret, rec.event)],
                               before.successes + d, before.failures + 1 - d))
  {
    ParallelPass.SequentialExtends(j.(records := todo), start.letters, rec);
    ResendOne(todo, rec);
    ParallelPass.SuccessesSnoc(j.post, todo, rec);
  }

  /** The receivers served so far have their reports, and their POSTs, sleeps and dead letters
      are in the books. */
  ghost predicate Served(c: Settings, evt: Event, w: World, receivers: seq<Subscription>, reports: seq<Report>,
                         start: Books, now: Books)
  {
    && |reports| == |receivers|
    && (forall k: nat | k < |reports| :: ReportOk(reports[k], w.posts(k), c.maxAttempts, c.hasDlq))
    && now.posts == start.posts + Sends(receivers, evt, reports)
    && now.slept == start.slept + SleptIn(c.backoff, reports)
    && (c.hasDlq ==>
          && now.letters == LettersAfter(start.letters, receivers, evt, w, c.maxAttempts, c.coolingOff, |receivers|)
          && now.stored == start.stored + DeathsAmong(w, c.maxAttempts, |receivers|))
    && (!c.hasDlq ==> now.letters == start.letters && now.stored == start.stored)
  }

  /** The books once the delivery behind the next report is over. */
  ghost function Entered(c: Settings, evt: Event, w: World, n: nat, sub: Subscription, report: Report, before: Books): Books {
    var dies := report.Abandoned? && c.hasDlq && !w.faults(n);
    var rec := DeadLetter(sub, evt, Outcome(w.posts(n)(c.maxAttempts)), w.nows(n), w.keyNs(n), c.coolingOff);
    Books(if dies then before.letters[rec.id := rec] else before.letters,
          before.stored + (if dies then 1 else 0),
          before.posts + Repeat(Sent(sub.url, sub.secret, evt), report.attempts),
          before.slept + (if report.attempts == 0 then 0 else Slept(c.backoff, report.attempts - 1)))
  }

  lemma ServeOne(c: Settings, evt: Event, w: World, receivers: seq<Subscription>, reports: seq<Report>,
                 start: Books, before: Books, sub: Subscription, report: Report)
    requires Served(c, evt, w, receivers, reports, start, before)
    requires ReportOk(report, w.posts(|reports|), c.maxAttempts, c.hasDlq)
    ensures Served(c, evt, w, receivers + [sub], reports + [report], start,
                   Entered(c, evt, w, |reports|, sub, report, before))
  {
    LettersAfterExtends(start.letters, receivers, sub, evt, w, c.maxAttempts, c.coolingOff, |reports|);
    SendOne(receivers, evt, reports, sub, report, c.backoff);
  }

  /** The letters left by the first receivers do not depend on those that follow. */
  lemma {:induction false} LettersAfterPrefix(letters: Letters, subs: seq<Subscription>, sub: Subscription, evt: Event,
                                              w: World, maxAttempts: nat, coolingOff: int, n: nat)
    requires n <= |subs|
    ensures LettersAfter(letters, subs + [sub], evt, w, maxAttempts, coolingOff, n)
         == LettersAfter(letters, subs, evt, w, maxAttempts, coolingOff, n)
  {
    if n > 0 { LettersAfterPrefix(letters, subs, sub, evt, w, maxAttempts, coolingOff, n - 1); }
  }

  lemma LettersAfterExtends(letters: Letters, subs: seq<Subscription>, sub: Subscription, evt: Event, w: World,
                            maxAttempts: nat, coolingOff: int, n: nat)
    requires n == |subs|
    ensures var before := LettersAfter(letters, subs, evt, w, maxAttempts, coolingOff, n);
            var rec := DeadLetter(sub, evt, Outcome(w.posts(n)(maxAttempts)), w.nows(n), w.keyNs(n), coolingOff);
            LettersAfter(letters, subs + [sub], evt, w, maxAttempts, coolingOff, n + 1)
            == if Dies(w, n, maxAttempts) then before[rec.id := rec] else before
  {
    LettersAfterPrefix(letters, subs, sub, evt, w, maxAttempts, coolingOff, n);
  }
}
