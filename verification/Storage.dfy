/** The bbolt-backed store (internal/storage/bbolt.go): named buckets of key/value pairs,
    each call one atomic transaction, keys visited in byte order. */
module Storage {
  import opened KeyOrder

  /** NotFound is the store's sentinel error; Fault stands for any other failure of the
      database (closed file, full disk, key too large); Undecodable is a JSON error. */
  datatype Error = NotFound | Fault | Undecodable

  datatype Result<+T> = Ok(value: T) | Err(error: Error)

  /** Keys strictly after the cursor. */
  function After(keys: set<string>, cursor: string): set<string> {
    set k | k in keys && Less(cursor, k)
  }

  ghost function Take<T>(s: seq<T>, n: int): (r: seq<T>) {
    if n <= 0 then [] else if n < |s| then s[..n] else s
  }

  /** What one page of the bucket should be: the first `limit` keys after the cursor. */
  ghost function Page(keys: set<string>, cursor: string, limit: int): (page: seq<string>) {
    Take(Sorted(After(keys, cursor)), limit)
  }

  /** The cursor ListPage hands out: the last key of a full page, and nothing after a short
      one. An exactly full last page still yields a cursor. */
  function NextCursor(page: seq<string>, limit: int): (next: string) {
    if |page| > 0 && |page| >= limit then page[|page| - 1] else ""
  }

  // ---- cursor movement -------------------------------------------------------------------

  /** Seek: the first key at or after `target`. */
  function Seek(keys: set<string>, target: string): Option<string> {
    Least(set k | k in keys && !Less(k, target))
  }

  /** Next: the first key after the one the cursor stands on. */
  function Next(keys: set<string>, at: string): Option<string> {
    Least(After(keys, at))
  }

  /** What follows the i-th key after `cursor` is the rest of the same enumeration. */
  lemma SortedAfter(keys: set<string>, cursor: string, i: nat)
    requires i < |Sorted(After(keys, cursor))|
    ensures var s := Sorted(After(keys, cursor));
            Less(cursor, s[i]) && s[i] in keys && Sorted(After(keys, s[i])) == s[i + 1..]
  {
    var s := Sorted(After(keys, cursor));
    SortedSpec(After(keys, cursor));
    assert s[i] in s;
    forall k ensures k in s[i + 1..] <==> k in After(keys, s[i]) {
      if k in After(keys, s[i]) {
        LessTrans(cursor, s[i], k);
        assert k in s;
        var j :| 0 <= j < |s| && s[j] == k;
        IncreasingIndex(s, i, j);
        assert s[i + 1..][j - i - 1] == k;
      }
      if k in s[i + 1..] { assert k in s; }
    }
    SortedUnique(s[i + 1..], After(keys, s[i]));
  }

  /** Where ListPage puts the cursor before it starts copying keys. */
  lemma StartOfPage(keys: set<string>, cursor: string)
    requires "" !in keys
    ensures var s := Sorted(After(keys, cursor));
            Least(After(keys, cursor)) == if s == [] then None else Some(s[0])
    ensures cursor == "" ==> After(keys, cursor) == keys
    ensures cursor !in keys ==> Seek(keys, cursor) == Least(After(keys, cursor))
    ensures cursor in keys ==> Seek(keys, cursor) == Some(cursor)
  {
    var s := Sorted(After(keys, cursor));
    SortedSpec(After(keys, cursor));
    if s == [] {
      assert forall k :: k in After(keys, cursor) ==> k in s;
    } else {
      HeadIsLeast(s, After(keys, cursor));
      LeastUnique(s[0], Least(After(keys, cursor)).value, After(keys, cursor));
    }
    var from := set k | k in keys && !Less(k, cursor);
    forall k | k in keys ensures k in from <==> k == cursor || Less(cursor, k) {
      LessTotal(k, cursor);
      if Less(cursor, k) { LessAsym(cursor, k); }
      if Less(k, cursor) { LessAsym(k, cursor); }
    }
    if cursor in keys {
      LeastUnique(cursor, Seek(keys, cursor).value, from);
    } else {
      assert from == After(keys, cursor);
    }
  }

  class BBoltStore<V> {
    var buckets: map<string, map<string, V>>

    /** bbolt refuses the empty key, so no bucket holds it. */
    ghost predicate Valid()
      reads this
    {
      forall b | b in buckets :: "" !in buckets[b]
    }

    /** The contents of a bucket; one that does not exist yet is empty. */
    function Bucket(bucket: string): (m: map<string, V>)
      reads this
    {
      if bucket in buckets then buckets[bucket] else map[]
    }

    constructor ()
      ensures Valid() && buckets == map[]
    {
      buckets := map[];
    }

    method Write(bucket: string, key: string, value: V, fault: bool) returns (ok: bool)
      requires Valid()
      modifies this
      ensures Valid()
      ensures ok <==> !fault && bucket != "" && key != ""
      ensures ok ==> Bucket(bucket) == old(Bucket(bucket))[key := value]
      ensures !ok ==> buckets == old(buckets)
      ensures forall b | b != bucket :: Bucket(b) == old(Bucket(b))
    {
      ok := !fault && bucket != "" && key != "";
      if ok {
        buckets := buckets[bucket := Bucket(bucket)[key := value]];
      }
    }

    method Get(bucket: string, key: string, fault: bool) returns (r: Result<V>)
      ensures r == if fault then Err(Fault)
                   else if key in Bucket(bucket) then Ok(Bucket(bucket)[key]) else Err(NotFound)
    {
      if fault {
        return Err(Fault);
      }
      if bucket !in buckets {
        return Err(NotFound);
      }
      if key !in buckets[bucket] {
        return Err(NotFound);
      }
      return Ok(buckets[bucket][key]);
    }

    method List(bucket: string, fault: bool) returns (r: Result<seq<string>>)
      requires Valid()
      ensures r == if fault then Err(Fault) else Ok(Sorted(Bucket(bucket).Keys))
    {
      if fault {
        return Err(Fault);
      }
      var present := Bucket(bucket).Keys;
      ghost var s := Sorted(present);
      StartOfPage(present, "");
      var keys: seq<string>, k := [], Least(present);
      while k.Some?
        invariant |keys| <= |s| && keys == s[..|keys|]
        invariant k == if |keys| < |s| then Some(s[|keys|]) else None
        decreases |s| - |keys|
      {
        SortedAfter(present, "", |keys|);
        StartOfPage(present, k.value);
        keys := keys + [k.value];
        k := Next(present, k.value);
      }
      assert s[..|s|] == s;
      return Ok(keys);
    }

    method Delete(bucket: string, key: string, fault: bool) returns (r: Result<()>)
      requires Valid()
      modifies this
      ensures Valid()
      ensures r == if fault then Err(Fault) else if key in old(Bucket(bucket)) then Ok(()) else Err(NotFound)
      ensures r.Ok? ==> Bucket(bucket) == old(Bucket(bucket)) - {key}
      ensures r.Err? ==> buckets == old(buckets)
      ensures forall b | b != bucket :: Bucket(b) == old(Bucket(b))
    {
      if fault {
        return Err(Fault);
      }
      if bucket !in buckets {
        return Err(NotFound);
      }
      if key !in buckets[bucket] {
        return Err(NotFound);
      }
      buckets := buckets[bucket := buckets[bucket] - {key}];
      return Ok(());
    }

    method ListPage(bucket: string, cursor: string, limit: int, fault: bool)
      returns (r: Result<(seq<string>, string)>)
      requires Valid()
      ensures r == if fault then Err(Fault) else
                   var page := Page(Bucket(bucket).Keys, cursor, limit);
                   Ok((page, NextCursor(page, limit)))
    {
      if fault {
        return Err(Fault);
      }
      var present := Bucket(bucket).Keys;
      StartOfPage(present, cursor);
      var k;
      if cursor == "" {
        k := Least(present);
      } else {
        k := Seek(present, cursor);
        if k == Some(cursor) {
          k := Next(present, cursor);
        }
      }
      ghost var s := Sorted(After(present, cursor));
      var keys: seq<string> := [];
      while k.Some? && |keys| < limit
        invariant |keys| <= |s| && keys == s[..|keys|] && (keys == [] || |keys| <= limit)
        invariant k == if |keys| < |s| then Some(s[|keys|]) else None
        decreases |s| - |keys|
      {
        SortedAfter(present, cursor, |keys|);
        StartOfPage(present, k.value);
        keys := keys + [k.value];
        k := Next(present, k.value);
      }
      assert keys == Take(s, limit);
      var nextCursor := "";
      if |keys| > 0 {
        nextCursor := keys[|keys| - 1];
        if |keys| < limit {
          nextCursor := "";
        }
      }
      return Ok((keys, nextCursor));
    }
  }
}
