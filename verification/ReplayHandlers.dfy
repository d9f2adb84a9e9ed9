/** The operator's endpoints on the dead-letter queue (internal/http/dlq_handlers.go), each run
    in one piece; ReplayMachine and ParallelPass treat their interleaving. */
module ReplayHandlers {
  import opened Storage
  import opened DeadLetters
  import opened Loading
  import ParallelPass

  const MAX_REPLAY_ALL_CONCURRENCY := 8

  datatype Status = NoSuchRecord | ServerError | NoContent | Replayed | BadGateway(error: string)

  /** DELETE /webhooks/dlq/{id} */
  method DeleteDLQ(dlq: DLQStore, id: string, fault: bool) returns (status: Status)
    requires dlq.Valid()
    modifies dlq.store
    ensures dlq.Valid()
    ensures status == if fault then ServerError
                      else if id in old(dlq.Bucket()) then NoContent else NoSuchRecord
    ensures dlq.Letters() == if fault then old(dlq.Letters()) else old(dlq.Letters()) - {id}
    ensures forall b | b != DLQ_BUCKET :: dlq.store.Bucket(b) == old(dlq.store.Bucket(b))
  {
    var r := dlq.Delete(id, fault);
    if r.Err? {
      return if r.error == NotFound then NoSuchRecord else ServerError;
    }
    return NoContent;
  }

  /** What both replay endpoints do with one record once its POST has returned. */
  method SettleManually(dlq: DLQStore, rec: Record, post: Post, now: int, fault: bool)
    requires dlq.Valid()
    modifies dlq.store
    ensures dlq.Valid()
    ensures rec.id != "" ==> dlq.Letters() == Settle(old(dlq.Letters()), rec, Operator, post, now, fault)
    ensures rec.id != "" && !fault && post.Delivered? ==> rec.id !in dlq.Letters()
    ensures rec.id != "" && !fault && post.Failed? ==>
              && rec.id in dlq.Letters()
              && var t := dlq.Letters()[rec.id];
                 && t.id == rec.id && t.subId == rec.subId && t.subUrl == rec.subUrl && t.subSecret == rec.subSecret
                 && t.event == rec.event && t.attempts == rec.attempts + 1
                 && t.lastError == post.error && t.failedAt == now && t.nextRetryAfter == now + 300_000_000_000
    ensures forall b | b != DLQ_BUCKET :: dlq.store.Bucket(b) == old(dlq.store.Bucket(b))
  {
    SettleFields(dlq.Letters(), rec, Operator, post, now);
    var r := rec.(attempts := rec.attempts + 1, failedAt := now);
    if post.Delivered? {
      var deleted := dlq.Delete(r.id, fault);
    } else {
      r := r.(lastError := post.error);
      r := r.(nextRetryAfter := r.failedAt + MANUAL_COOLING_OFF);
      var saved, ok := dlq.Save(r, now, fault);
    }
  }

  /** POST /webhooks/dlq/{id}/replay */
  method ReplayDLQ(dlq: DLQStore, id: string, readFault: bool, post: Post, now: int, fault: bool) returns (status: Status)
    requires dlq.Valid()
    modifies dlq.store
    ensures dlq.Valid()
    ensures status.NoSuchRecord? <==> !readFault && id !in old(dlq.Bucket())
    ensures status.ServerError? <==> readFault || (id in old(dlq.Bucket()) && id !in old(dlq.Letters()))
    ensures status.NoSuchRecord? || status.ServerError? ==> dlq.Letters() == old(dlq.Letters())
    ensures !status.NoSuchRecord? && !status.ServerError? ==>
              && status == (if post.Delivered? then Replayed else BadGateway(post.error))
              && dlq.Letters() == Settle(old(dlq.Letters()), old(dlq.Letters())[id], Operator, post, now, fault)
    ensures status.Replayed? && !fault ==> id !in dlq.Letters()
    ensures status.BadGateway? && !fault ==>
              && id in old(dlq.Letters()) && id in dlq.Letters()
              && var r, t := old(dlq.Letters())[id], dlq.Letters()[id];
                 && t.id == id && t.subId == r.subId && t.subUrl == r.subUrl && t.subSecret == r.subSecret && t.event == r.event
                 && t.attempts == r.attempts + 1 && t.lastError == status.error
                 && t.failedAt == now && t.nextRetryAfter == now + 300_000_000_000
    ensures forall k | k != id :: (k in dlq.Letters() <==> k in old(dlq.Letters()))
                                  && (k in dlq.Letters() ==> dlq.Letters()[k] == old(dlq.Letters())[k])
    ensures forall b | b != DLQ_BUCKET :: dlq.store.Bucket(b) == old(dlq.store.Bucket(b))
  {
    var read := dlq.Get(id, readFault);
    if read.Err? {
      return if read.error == NotFound then NoSuchRecord else ServerError;
    }
    SettleManually(dlq, read.value, post, now, fault);
    return if post.Delivered? then Replayed else BadGateway(post.error);
  }

  /** No more than eight of its goroutines are at work at any time. */
  lemma ReplayAllStaysWithinEight(j: ParallelPass.Job, letters: Letters, acts: seq<ParallelPass.Action>)
    requires j.slots == MAX_REPLAY_ALL_CONCURRENCY && ParallelPass.DistinctIds(j.records)
    requires ParallelPass.Runs(j, ParallelPass.Start(letters), acts)
    ensures var s := ParallelPass.Exec(j, ParallelPass.Start(letters), acts); s.launched - |s.results| <= 8
  {
    ParallelPass.SlotsRespected(j, letters, acts);
  }

  datatype Line = Line(id: string, delivered: bool, error: string)
  datatype Summary = Summary(total: nat, succeeded: nat, failed: nat, results: seq<Line>)

  function LineFor(rec: Record, post: string -> Post): Line {
    Line(rec.id, post(rec.id).Delivered?, if post(rec.id).Failed? then post(rec.id).error else "")
  }

  /** The summary of the first n records of a job. */
  ghost predicate SummaryOk(j: ParallelPass.Job, n: nat, sum: Summary)
    requires n <= |j.records|
  {
    && sum.total == sum.succeeded + sum.failed == |sum.results| == n
    && sum.succeeded == ParallelPass.Successes(j.post, j.records[..n])
    && forall k | 0 <= k < n :: sum.results[k] == LineFor(j.records[k], j.post)
  }

  lemma SummaryGrows(j: ParallelPass.Job, n: nat, sum: Summary)
    requires n < |j.records| && SummaryOk(j, n, sum)
    ensures var d := if j.post(j.records[n].id).Delivered? then 1 else 0;
            SummaryOk(j, n + 1, Summary(n + 1, sum.succeeded + d, sum.failed + 1 - d,
                                        sum.results + [LineFor(j.records[n], j.post)]))
  {
    assert j.records[..n + 1] == j.records[..n] + [j.records[n]];
    ParallelPass.SuccessesSnoc(j.post, j.records[..n], j.records[n]);
  }

  /** The first n records are settled, and the summary is theirs. */
  ghost predicate DoneUpTo(j: ParallelPass.Job, n: nat, start: Letters, letters: Letters, sum: Summary) {
    n <= |j.records| && letters == ParallelPass.Sequential(j, start, n) && SummaryOk(j, n, sum)
  }

  lemma DoneOne(j: ParallelPass.Job, n: nat, start: Letters, letters: Letters, sum: Summary)
    requires n < |j.records| && DoneUpTo(j, n, start, letters, sum)
    ensures var rec := j.records[n];
            var d := if j.post(rec.id).Delivered? then 1 else 0;
            DoneUpTo(j, n + 1, start, ParallelPass.SettleRecord(j, letters, rec),
                     Summary(n + 1, sum.succeeded + d, sum.failed + 1 - d, sum.results + [LineFor(rec, j.post)]))
  {
    SummaryGrows(j, n, sum);
  }

  /** Field by field, the letters after replaying all of some records by hand. */
  lemma ReplayAllLetters(j: ParallelPass.Job, start: Letters)
    requires j.who == Operator && ParallelPass.DistinctIds(j.records)
    ensures var after := ParallelPass.Sequential(j, start, |j.records|);
            && (forall i | 0 <= i < |j.records| ::
                  var rec := j.records[i];
                  && (!j.fault(rec.id) && j.post(rec.id).Delivered? ==> rec.id !in after)
                  && (!j.fault(rec.id) && j.post(rec.id).Failed? ==>
                        && rec.id in after
                        && var t := after[rec.id];
                           && t.subId == rec.subId && t.subUrl == rec.subUrl && t.subSecret == rec.subSecret
                           && t.event == rec.event && t.attempts == rec.attempts + 1
                           && t.lastError == j.post(rec.id).error && t.failedAt == j.clock(rec.id)
                           && t.nextRetryAfter == j.clock(rec.id) + 300_000_000_000))
            && (forall id | (forall rec | rec in j.records :: rec.id != id) ::
                  (id in after <==> id in start) && (id in after ==> after[id] == start[id]))
  {
    forall i | 0 <= i < |j.records| { ParallelPass.PassFields(j, start, i); }
    forall id | (forall rec | rec in j.records :: rec.id != id) { ParallelPass.PassSpares(j, start, id); }
  }

  /** POST /webhooks/dlq/replay-all, its goroutines run in launch order. `views` is what the reads
      after the key listing see; outcomes, clock readings and store failures come per id.
      `delivered` are the listed positions that succeeded. */
  method ReplayAllDLQ(dlq: DLQStore, listFault: bool, views: Views<Blob>, readFaults: nat -> bool,
                      post: string -> Post, clock: string -> int, fault: string -> bool)
    returns (r: Result<Summary>, ghost delivered: seq<nat>)
    requires dlq.Valid() && forall i: nat :: Keyed(views(i))
    modifies dlq.store
    ensures dlq.Valid()
    ensures forall b | b != DLQ_BUCKET :: dlq.store.Bucket(b) == old(dlq.store.Bucket(b))
    ensures var listing := Listed(old(dlq.Bucket()), listFault, views, readFaults);
            && (listing.Err? ==> r == Err(listing.error) && dlq.Letters() == old(dlq.Letters()))
            && (listing.Ok? ==>
                  var j := ParallelPass.Job(Operator, listing.value, MAX_REPLAY_ALL_CONCURRENCY, post, clock, fault);
                  && dlq.Letters() == ParallelPass.Sequential(j, old(dlq.Letters()), |listing.value|)
                  && r.Ok? && SummaryOk(j, |listing.value|, r.value))
    ensures var listing := Listed(old(dlq.Bucket()), listFault, views, readFaults);
            listing.Ok? ==>
              && r.Ok? && r.value.total == |listing.value| && |r.value.results| == |listing.value|
              && r.value.succeeded == |delivered| && r.value.failed == |listing.value| - |delivered|
              && (forall a, b | 0 <= a < b < |delivered| :: delivered[a] < delivered[b])
              && (forall i: nat :: i in delivered <==> i < |listing.value| && post(listing.value[i].id).Delivered?)
              && (forall i | 0 <= i < |listing.value| ::
                    var rec, line := listing.value[i], r.value.results[i];
                    && line.id == rec.id && (line.delivered <==> post(rec.id).Delivered?)
                    && line.error == (match post(rec.id) case Delivered => "" case Failed(e) => e)
                    && (!fault(rec.id) && post(rec.id).Delivered? ==> rec.id !in dlq.Letters())
                    && (!fault(rec.id) && post(rec.id).Failed? ==>
                          && rec.id in dlq.Letters()
                          && var t := dlq.Letters()[rec.id];
                             && t.subId == rec.subId && t.subUrl == rec.subUrl && t.subSecret == rec.subSecret
                             && t.event == rec.event && t.attempts == rec.attempts + 1
                             && t.lastError == post(rec.id).error && t.failedAt == clock(rec.id)
                             && t.nextRetryAfter == clock(rec.id) + 300_000_000_000))
              && (forall id | (forall rec | rec in listing.value :: rec.id != id) ::
                    (id in dlq.Letters() <==> id in old(dlq.Letters()))
                    && (id in dlq.Letters() ==> dlq.Letters()[id] == old(dlq.Letters())[id]))
  {
    var records := dlq.List(listFault, views, readFaults);
    if records.Err? {
      return Err(records.error), [];
    }
    ListedHaveIds(dlq.Bucket(), listFault, views, readFaults);
    ghost var before := dlq.Letters();
    var sum := ReplayEach(dlq, records.value, post, clock, fault);
    ListedOnce(old(dlq.Bucket()), listFault, views, readFaults);
    ghost var j := ParallelPass.Job(Operator, records.value, MAX_REPLAY_ALL_CONCURRENCY, post, clock, fault);
    delivered := ParallelPass.SuccessPlaces(post, records.value);
    assert records.value[..|records.value|] == records.value;
    ReplayAllLetters(j, before);
    return Ok(sum), delivered;
  }

  /** One of its goroutines: what it does with its record, and the line it reports. */
  method ReplayOne(dlq: DLQStore, rec: Record, post: Post, now: int, fault: bool) returns (line: Line)
    requires dlq.Valid() && rec.id != ""
    modifies dlq.store
    ensures dlq.Valid()
    ensures forall b | b != DLQ_BUCKET :: dlq.store.Bucket(b) == old(dlq.store.Bucket(b))
    ensures dlq.Letters() == Settle(old(dlq.Letters()), rec, Operator, post, now, fault)
    ensures line == Line(rec.id, post.Delivered?, if post.Failed? then post.error else "")
  {
    SettleManually(dlq, rec, post, now, fault);
    if post.Delivered? {
      return Line(rec.id, true, "");
    }
    return Line(rec.id, false, post.error);
  }

  /** The loop over the listed records. */
  method ReplayEach(dlq: DLQStore, recs: seq<Record>, post: string -> Post, clock: string -> int, fault: string -> bool)
    returns (sum: Summary)
    requires dlq.Valid() && forall rec | rec in recs :: rec.id != ""
    modifies dlq.store
    ensures dlq.Valid()
    ensures forall b | b != DLQ_BUCKET :: dlq.store.Bucket(b) == old(dlq.store.Bucket(b))
    ensures var j := ParallelPass.Job(Operator, recs, MAX_REPLAY_ALL_CONCURRENCY, post, clock, fault);
            dlq.Letters() == ParallelPass.Sequential(j, old(dlq.Letters()), |recs|) && SummaryOk(j, |recs|, sum)
  {
    ghost var j := ParallelPass.Job(Operator, recs, MAX_REPLAY_ALL_CONCURRENCY, post, clock, fault);
    var successes, failures: nat := 0, 0;
    var results: seq<Line> := [];
    for i := 0 to |recs|
      invariant dlq.Valid()
      invariant forall b | b != DLQ_BUCKET :: dlq.store.Bucket(b) == old(dlq.store.Bucket(b))
      invariant DoneUpTo(j, i, old(dlq.Letters()), dlq.Letters(), Summary(i, successes, failures, results))
    {
      var rec := recs[i];
      assert rec in recs;
      DoneOne(j, i, old(dlq.Letters()), dlq.Letters(), Summary(i, successes, failures, results));
      var line := ReplayOne(dlq, rec, post(rec.id), clock(rec.id), fault(rec.id));
      if line.delivered {
        successes := successes + 1;
      } else {
        failures := failures + 1;
      }
      results := results + [line];
    }
    return Summary(|recs|, successes, failures, results);
  }
}
