/** Dead-letter records, what one replay does to them, and their store (internal/webhooks/dlq.go). */
module DeadLetters {
  import opened KeyOrder
  import opened KeyFormat
  import opened Backoff
  import opened Storage
  import opened Subscriptions
  import opened Loading

  datatype Record = Record(
    id: string, subId: string, subUrl: string, subSecret: string, event: Event,
    attempts: int, lastError: string, failedAt: int, nextRetryAfter: int)
  {
    predicate IsTerminal(maxAttempts: int) {
      maxAttempts > 0 && attempts >= maxAttempts
    }
  }

  /** The part of a record that no replay may change: what to deliver and where. */
  datatype Origin = Origin(subId: string, subUrl: string, subSecret: string, event: Event)

  function OriginOf(r: Record): Origin {
    Origin(r.subId, r.subUrl, r.subSecret, r.event)
  }

  function IdOf(r: Record): string {
    r.id
  }

  /** Outcome of one POST. */
  datatype Post = Delivered | Failed(error: string)

  /** Who replays: the scheduler backs off from its configured base, an operator's replay
      always waits the same short time. */
  datatype Replayer = Scheduler(coolingOff: int) | Operator

  const MANUAL_COOLING_OFF := 5 * MINUTE

  function Wait(who: Replayer, attempts: int): int {
    match who
    case Scheduler(c) => DlqBackoff(c, attempts)
    case Operator => MANUAL_COOLING_OFF
  }

  /** A new dead letter, before the store gives it an id. */
  function NewRecord(sub: Subscription, evt: Event, error: string, now: int, coolingOff: int): Record {
    Record("", sub.id, sub.url, sub.secret, evt, 0, error, now, now + coolingOff)
  }

  function AfterFailure(r: Record, who: Replayer, error: string, now: int): Record {
    r.(attempts := r.attempts + 1, failedAt := now, lastError := error,
       nextRetryAfter := now + Wait(who, r.attempts + 1))
  }

  type Letters = map<string, Record>

  /** The dead letters once a replay of snapshot r has settled at time `now`. Save is an upsert
      and Delete ignores absence, so the result does not depend on what is stored under r.id. */
  function Settle(letters: Letters, r: Record, who: Replayer, post: Post, now: int, fault: bool): Letters {
    if fault then letters
    else
      match post
      case Delivered => letters - {r.id}
      case Failed(error) => letters[r.id := AfterFailure(r, who, error, now)]
  }

  /** Field by field, what a settled replay leaves: nothing after a success; after a failure the
      same letter with one more attempt, the new error and time, and its next time; and all other
      letters as they were. */
  lemma SettleFields(letters: Letters, r: Record, who: Replayer, post: Post, now: int)
    ensures var after := Settle(letters, r, who, post, now, false);
            && (post.Delivered? ==> r.id !in after)
            && (post.Failed? ==>
                  && r.id in after
                  && var t := after[r.id];
                     && t.id == r.id && t.subId == r.subId && t.subUrl == r.subUrl && t.subSecret == r.subSecret
                     && t.event == r.event && t.attempts == r.attempts + 1 && t.lastError == post.error && t.failedAt == now
                     && (who.Operator? ==> t.nextRetryAfter == now + 300_000_000_000)
                     && (who.Scheduler? && 1 <= who.coolingOff <= 36_028_797_018_963_967 ==>
                           var p := [1, 2, 4, 8, 16, 32, 64, 128, 256][if r.attempts < 0 then 0 else if r.attempts > 8 then 8 else r.attempts];
                           t.nextRetryAfter == now + if who.coolingOff * p > 86_400_000_000_000 then 86_400_000_000_000 else who.coolingOff * p))
            && (forall k | k != r.id :: (k in after <==> k in letters) && (k in letters ==> after[k] == letters[k]))
    ensures Settle(letters, r, who, post, now, true) == letters
  {
    if who.Scheduler? && 1 <= who.coolingOff <= 36_028_797_018_963_967 { WaitInNanoseconds(who.coolingOff, r.attempts); }
  }

  /** A stored value: what JSON decoding finds in the bytes. */
  datatype Blob = RecordJson(record: Record) | SubscriptionJson(sub: Subscription) | Garbled

  function AsRecord(b: Blob): Option<Record> {
    if b.RecordJson? then Some(b.record) else None
  }

  /** The records a bucket decodes to. */
  function LettersIn(bucket: map<string, Blob>): Letters {
    map k | k in bucket && bucket[k].RecordJson? :: bucket[k].record
  }

  const DLQ_BUCKET := "webhook_dlq"

  function Identified(r: Record, keyNs: int): Record {
    if r.id == "" then r.(id := TimestampKey(keyNs)) else r
  }

  /** The dead letter saved for an abandoned delivery, under its fresh key. */
  function DeadLetter(sub: Subscription, evt: Event, error: string, now: int, keyNs: int, coolingOff: int): (r: Record)
    ensures r.id == TimestampKey(keyNs) != "" && r.attempts == 0
    ensures OriginOf(r) == Origin(sub.id, sub.url, sub.secret, evt)
    ensures r.subId == sub.id && r.subUrl == sub.url && r.subSecret == sub.secret && r.event == evt
    ensures r.lastError == error && r.failedAt == now && r.nextRetryAfter == now + coolingOff
  {
    Identified(NewRecord(sub, evt, error, now, coolingOff), keyNs)
  }

  lemma LettersAfterPut(bucket: map<string, Blob>, key: string, r: Record)
    ensures LettersIn(bucket[key := RecordJson(r)]) == LettersIn(bucket)[key := r]
  {
  }

  lemma LettersAfterRemove(bucket: map<string, Blob>, key: string)
    ensures LettersIn(bucket - {key}) == LettersIn(bucket) - {key}
  {
  }

  /** Every record sits under its own id, so one read back carries its key. */
  ghost predicate Keyed(bucket: map<string, Blob>) {
    forall k | k in bucket && bucket[k].RecordJson? :: bucket[k].record.id == k
  }

  /** What listing the whole queue gives. */
  ghost function Listed(bucket: map<string, Blob>, fault: bool, views: Views<Blob>, faults: nat -> bool): Result<seq<Record>> {
    if fault then Err(Fault) else Loaded(Sorted(bucket.Keys), views, faults, AsRecord)
  }

  /** The store never holds an empty key, so every record listed has an id. */
  lemma ListedHaveIds(bucket: map<string, Blob>, fault: bool, views: Views<Blob>, faults: nat -> bool)
    requires "" !in bucket && forall i: nat :: Keyed(views(i))
    requires Listed(bucket, fault, views, faults).Ok?
    ensures forall r | r in Listed(bucket, fault, views, faults).value :: r.id != ""
  {
    SortedSpec(bucket.Keys);
    LoadedCarryKeys(Sorted(bucket.Keys), views, faults, AsRecord, IdOf);
    forall r | r in Listed(bucket, fault, views, faults).value ensures r.id != "" { assert IdOf(r) in Sorted(bucket.Keys); }
  }

  /** No record is listed twice. */
  lemma ListedOnce(bucket: map<string, Blob>, fault: bool, views: Views<Blob>, faults: nat -> bool)
    requires forall i: nat :: Keyed(views(i))
    requires Listed(bucket, fault, views, faults).Ok?
    ensures var records := Listed(bucket, fault, views, faults).value;
            forall a, b | 0 <= a < b < |records| :: records[a].id != records[b].id
  {
    var keys := Sorted(bucket.Keys);
    SortedSpec(bucket.Keys);
    LoadedIsKept(keys, views, faults, AsRecord, IdOf);
    KeptIsOrdered(keys, views);
    var records := Listed(bucket, fault, views, faults).value;
    forall a, b | 0 <= a < b < |records| ensures records[a].id != records[b].id {
      assert IdOf(records[a]) == Kept(keys, views)[a] && IdOf(records[b]) == Kept(keys, views)[b];
      LessAsym(Kept(keys, views)[a], Kept(keys, views)[b]);
    }
  }

  class DLQStore {
    const store: BBoltStore<Blob>

    constructor (store: BBoltStore<Blob>)
      ensures this.store == store
    {
      this.store := store;
    }

    ghost predicate Valid()
      reads store
    {
      store.Valid() && Keyed(Bucket())
    }

    function Bucket(): map<string, Blob>
      reads store
    {
      store.Bucket(DLQ_BUCKET)
    }

    function Letters(): Letters
      reads store
    {
      LettersIn(Bucket())
    }

    /** Save assigns an id to a record that has none, then writes; `keyNs` is the clock reading
        the id is made from, `fault` any failure to encode or write. */
    method Save(r: Record, keyNs: int, fault: bool) returns (saved: Record, ok: bool)
      requires Valid()
      modifies store
      ensures Valid()
      ensures saved == Identified(r, keyNs) && (ok <==> !fault)
      ensures saved == (if r.id == "" then r.(id := TimestampKey(keyNs)) else r)
      ensures Letters() == if fault then old(Letters()) else old(Letters())[saved.id := saved]
      ensures forall b | b != DLQ_BUCKET :: store.Bucket(b) == old(store.Bucket(b))
    {
      saved := r;
      if saved.id == "" {
        saved := saved.(id := TimestampKey(keyNs));
        assert saved.id[|FormatInt(keyNs)|] == '.';
      }
      LettersAfterPut(Bucket(), saved.id, saved);
      ok := store.Write(DLQ_BUCKET, saved.id, RecordJson(saved), fault);
    }

    method Get(id: string, fault: bool) returns (r: Result<Record>)
      requires Valid()
      ensures r == if fault then Err(Fault)
                   else if id !in Bucket() then Err(NotFound)
                   else if id !in Letters() then Err(Undecodable) else Ok(Letters()[id])
      ensures r.Ok? ==> r.value.id == id != ""
    {
      var data := store.Get(DLQ_BUCKET, id, fault);
      if data.Err? {
        return Err(data.error);
      }
      var record := AsRecord(data.value);
      if record.None? {
        return Err(Undecodable);
      }
      return Ok(record.value);
    }

    method Delete(id: string, fault: bool) returns (r: Result<()>)
      requires Valid()
      modifies store
      ensures Valid()
      ensures r == if fault then Err(Fault) else if id in old(Bucket()) then Ok(()) else Err(NotFound)
      ensures Letters() == if fault then old(Letters()) else old(Letters()) - {id}
      ensures forall b | b != DLQ_BUCKET :: store.Bucket(b) == old(store.Bucket(b))
    {
      LettersAfterRemove(Bucket(), id);
      r := store.Delete(DLQ_BUCKET, id, fault);
    }

    /** All records in key order; `views` is what the reads after the key listing see. */
    method List(fault: bool, views: Views<Blob>, faults: nat -> bool) returns (r: Result<seq<Record>>)
      requires Valid()
      ensures r == Listed(Bucket(), fault, views, faults)
    {
      var keys := store.List(DLQ_BUCKET, fault);
      if keys.Err? {
        return Err(keys.error);
      }
      r := LoadKeys(keys.value, views, faults, AsRecord);
    }

    method ListPage(cursor: string, limit: int, fault: bool, views: Views<Blob>, faults: nat -> bool)
      returns (r: Result<(seq<Record>, string)>)
      requires Valid()
      ensures var page := Page(Bucket().Keys, cursor, limit);
              var records := Loaded(page, views, faults, AsRecord);
              r == if fault then Err(Fault)
                   else if records.Err? then Err(records.error)
                   else Ok((records.value, NextCursor(page, limit)))
    {
      var page := store.ListPage(DLQ_BUCKET, cursor, limit, fault);
      if page.Err? {
        return Err(page.error);
      }
      var records := LoadKeys(page.value.0, views, faults, AsRecord);
      if records.Err? {
        return Err(records.error);
      }
      return Ok((records.value, page.value.1));
    }
  }

  /** With nobody else at work, listing returns every stored record, in key order. */
  lemma UndisturbedList(bucket: map<string, Blob>, views: Views<Blob>, faults: nat -> bool)
    requires Keyed(bucket) && forall k | k in bucket :: bucket[k].RecordJson?
    requires forall i: nat :: views(i) == bucket && !faults(i)
    ensures var keys, r := Sorted(bucket.Keys), Loaded(Sorted(bucket.Keys), views, faults, AsRecord);
            && r.Ok? && |r.value| == |keys| == |bucket|
            && forall a | 0 <= a < |keys| ::
                 keys[a] in LettersIn(bucket) && r.value[a] == LettersIn(bucket)[keys[a]] && r.value[a].id == keys[a]
  {
    var keys := Sorted(bucket.Keys);
    SortedSpec(bucket.Keys);
    forall i | 0 <= i < |keys| ensures keys[i] in bucket { assert keys[i] in keys; }
    UndisturbedPrefix(bucket, views, faults, keys);
  }

  lemma {:induction false} UndisturbedPrefix(bucket: map<string, Blob>, views: Views<Blob>, faults: nat -> bool, keys: seq<string>)
    requires forall k | k in bucket :: bucket[k].RecordJson?
    requires forall i: nat :: views(i) == bucket && !faults(i)
    requires forall i | 0 <= i < |keys| :: keys[i] in bucket
    ensures var r := Loaded(keys, views, faults, AsRecord);
            && r.Ok? && |r.value| == |keys|
            && forall a | 0 <= a < |keys| :: r.value[a] == bucket[keys[a]].record
  {
    if keys != [] {
      var n := |keys| - 1;
      UndisturbedPrefix(bucket, views, faults, keys[..n]);
      assert forall a | 0 <= a < n :: keys[..n][a] == keys[a];
      assert views(n) == bucket;
    }
  }
}
