/** Stored values and the shared "read and decode every listed key" loop of DLQStore.loadKeys
    (internal/webhooks/dlq.go) and StoreProvider (internal/webhooks/store_provider.go). */
module Loading {
  import opened KeyOrder
  import opened Storage
  import opened StoreWalk

  /** What the i-th read of a loading loop sees of the bucket. Other goroutines commit between
      the reads, so nothing ties one view to the next. */
  type Views<V> = nat -> map<string, V>

  function ReadAt<V>(view: map<string, V>, key: string, fault: bool): Result<V> {
    if fault then Err(Fault) else if key in view then Ok(view[key]) else Err(NotFound)
  }

  /** The list a loading loop returns: a key that has vanished is skipped, any other failure
      to read or decode fails the whole list. */
  function Loaded<V, T>(keys: seq<string>, views: Views<V>, faults: nat -> bool, decode: V -> Option<T>)
    : Result<seq<T>>
  {
    if keys == [] then Ok([]) else
      var n := |keys| - 1;
      var init := Loaded(keys[..n], views, faults, decode);
      var read := ReadAt(views(n), keys[n], faults(n));
      if init.Err? then init
      else if read.Err? then if read.error == NotFound then init else Err(read.error)
      else
        var item := decode(read.value);
        if item.None? then Err(Undecodable) else Ok(init.value + [item.value])
  }

  method LoadKeys<V, T>(keys: seq<string>, views: Views<V>, faults: nat -> bool, decode: V -> Option<T>)
    returns (r: Result<seq<T>>)
    ensures r == Loaded(keys, views, faults, decode)
  {
    var out: seq<T> := [];
    for i := 0 to |keys|
      invariant Loaded(keys[..i], views, faults, decode) == Ok(out)
      invariant i < |keys| ==> keys[..i + 1][..i] == keys[..i]
    {
      var read := ReadAt(views(i), keys[i], faults(i));
      if read.Err? {
        if read.error == NotFound {
          continue;
        }
        LoadedErr(keys, i + 1, views, faults, decode);
        return Err(read.error);
      }
      var item := decode(read.value);
      if item.None? {
        LoadedErr(keys, i + 1, views, faults, decode);
        return Err(Undecodable);
      }
      out := out + [item.value];
    }
    assert keys[..|keys|] == keys;
    return Ok(out);
  }

  /** The first failure decides the whole list. */
  lemma {:induction false} LoadedErr<V, T>(keys: seq<string>, n: nat, views: Views<V>, faults: nat -> bool, decode: V -> Option<T>)
    requires n <= |keys| && Loaded(keys[..n], views, faults, decode).Err?
    ensures Loaded(keys, views, faults, decode) == Loaded(keys[..n], views, faults, decode)
    decreases |keys|
  {
    if n == |keys| {
      assert keys[..n] == keys;
    } else {
      assert keys[..|keys| - 1][..n] == keys[..n];
      LoadedErr(keys[..|keys| - 1], n, views, faults, decode);
    }
  }

  /** No read fails and everything present decodes. */
  ghost predicate Readable<V, T>(keys: seq<string>, views: Views<V>, faults: nat -> bool, decode: V -> Option<T>) {
    forall i: nat | i < |keys| :: !faults(i) && (keys[i] in views(i) ==> decode(views(i)[keys[i]]).Some?)
  }

  /** A list fails exactly when some read fails or some value present does not decode. */
  lemma {:induction false} LoadFailsExactlyWhen<V, T>(keys: seq<string>, views: Views<V>, faults: nat -> bool, decode: V -> Option<T>)
    ensures Loaded(keys, views, faults, decode).Ok? <==> Readable(keys, views, faults, decode)
  {
    if keys != [] {
      var n := |keys| - 1;
      LoadFailsExactlyWhen(keys[..n], views, faults, decode);
      assert forall i | 0 <= i < n :: keys[..n][i] == keys[i];
    }
  }

  /** Whatever is listed carries one of the keys. */
  lemma {:induction false} LoadedCarryKeys<V, T>(keys: seq<string>, views: Views<V>, faults: nat -> bool,
                                                 decode: V -> Option<T>, idOf: T -> string)
    requires Loaded(keys, views, faults, decode).Ok?
    requires forall i: nat, k | k in views(i) && decode(views(i)[k]).Some? :: idOf(decode(views(i)[k]).value) == k
    ensures forall x | x in Loaded(keys, views, faults, decode).value :: idOf(x) in keys
  {
    if keys != [] {
      LoadedCarryKeys(keys[..|keys| - 1], views, faults, decode, idOf);
    }
  }

  // ---- whole walks of loaded pages -------------------------------------------------------

  /** Keys of one page that were still there when the page's records were read. */
  ghost function Kept<V>(page: seq<string>, views: Views<V>): seq<string> {
    if page == [] then [] else
      var n := |page| - 1;
      Kept(page[..n], views) + if page[n] in views(n) then [page[n]] else []
  }

  lemma KeptSnoc<V>(page: seq<string>, views: Views<V>)
    requires page != []
    ensures var n := |page| - 1;
            Kept(page, views) == Kept(page[..n], views) + if page[n] in views(n) then [page[n]] else []
  {
  }

  lemma IncreasingSnoc(s: seq<string>, k: string)
    requires Increasing(s) && forall x | x in s :: Less(x, k)
    ensures Increasing(s + [k])
  {
    forall i, j | 0 <= i < j < |s| + 1 ensures Less((s + [k])[i], (s + [k])[j]) { assert s[i] in s; }
  }

  /** In an ascending page what comes before the last key is less. */
  lemma BeforeLast(page: seq<string>, x: string)
    requires page != [] && Increasing(page) && x in page[..|page| - 1]
    ensures Less(x, page[|page| - 1]) && x in page
  {
    var b :| 0 <= b < |page| - 1 && page[..|page| - 1][b] == x;
    assert page[b] == x;
  }

  lemma {:induction false} KeptIsOrdered<V>(page: seq<string>, views: Views<V>)
    requires Increasing(page)
    ensures Increasing(Kept(page, views)) && forall k | k in Kept(page, views) :: k in page
    ensures forall i: nat | i < |page| && page[i] in views(i) :: page[i] in Kept(page, views)
  {
    if page != [] {
      var n := |page| - 1;
      var init := Kept(page[..n], views);
      KeptIsOrdered(page[..n], views);
      KeptSnoc(page, views);
      forall x | x in init ensures Less(x, page[n]) && x in page { BeforeLast(page, x); }
      IncreasingSnoc(init, page[n]);
      assert forall i | 0 <= i < n :: page[..n][i] == page[i];
    }
  }

  /** The i-th read found the key and decoded it to x. */
  ghost predicate ItemAt<V, T>(keys: seq<string>, views: Views<V>, decode: V -> Option<T>, i: nat, x: T) {
    i < |keys| && keys[i] in views(i) && decode(views(i)[keys[i]]) == Some(x)
  }

  ghost predicate ItemsOf<V, T>(keys: seq<string>, views: Views<V>, decode: V -> Option<T>, out: seq<T>) {
    forall a | 0 <= a < |out| :: WasRead(keys, views, decode, out[a])
  }

  ghost predicate WasRead<V, T>(keys: seq<string>, views: Views<V>, decode: V -> Option<T>, x: T) {
    exists i: nat :: ItemAt(keys, views, decode, i, x)
  }

  lemma ItemsSnoc<V, T>(keys: seq<string>, views: Views<V>, decode: V -> Option<T>, init: seq<T>)
    requires keys != [] && ItemsOf(keys[..|keys| - 1], views, decode, init)
    ensures ItemsOf(keys, views, decode, init)
    ensures var n := |keys| - 1;
            keys[n] in views(n) && decode(views(n)[keys[n]]).Some? ==>
              ItemsOf(keys, views, decode, init + [decode(views(n)[keys[n]]).value])
  {
    var n := |keys| - 1;
    forall a | 0 <= a < |init| ensures WasRead(keys, views, decode, init[a]) {
      var i: nat :| ItemAt(keys[..n], views, decode, i, init[a]);
      assert ItemAt(keys, views, decode, i, init[a]);
    }
    if keys[n] in views(n) && decode(views(n)[keys[n]]).Some? {
      assert ItemAt(keys, views, decode, n, decode(views(n)[keys[n]]).value);
    }
  }

  /** A loaded list holds exactly those keys' items, in key order, each as its read saw it;
      `idOf` is the key an item carries inside. */
  lemma {:induction false} LoadedIsKept<V, T>(keys: seq<string>, views: Views<V>, faults: nat -> bool,
                                              decode: V -> Option<T>, idOf: T -> string)
    requires Loaded(keys, views, faults, decode).Ok?
    requires forall i: nat | i < |keys| && keys[i] in views(i) && decode(views(i)[keys[i]]).Some?
               :: idOf(decode(views(i)[keys[i]]).value) == keys[i]
    ensures var out := Loaded(keys, views, faults, decode).value;
            && |out| == |Kept(keys, views)|
            && (forall a | 0 <= a < |out| :: idOf(out[a]) == Kept(keys, views)[a])
            && ItemsOf(keys, views, decode, out)
  {
    if keys != [] {
      var n := |keys| - 1;
      assert forall i | 0 <= i < n :: keys[..n][i] == keys[i];
      LoadedIsKept(keys[..n], views, faults, decode, idOf);
      var init := Loaded(keys[..n], views, faults, decode).value;
      ItemsSnoc(keys, views, decode, init);
    }
  }

  ghost function KeptPages<V>(pages: seq<seq<string>>, loads: seq<Views<V>>): seq<seq<string>>
    requires |pages| <= |loads|
  {
    if pages == [] then [] else [Kept(pages[0], loads[0])] + KeptPages(pages[1..], loads[1..])
  }

  lemma {:induction false} FlatOfKept<V>(pages: seq<seq<string>>, loads: seq<Views<V>>)
    requires |pages| <= |loads| && Increasing(Flat(pages))
    ensures var kept := Flat(KeptPages(pages, loads));
            Increasing(kept) && forall k | k in kept :: k in Flat(pages)
    ensures forall k | k in Flat(pages) && (forall i, j: nat | 0 <= i < |pages| :: k in loads[i](j))
              :: k in Flat(KeptPages(pages, loads))
  {
    if pages != [] {
      var page, rest := pages[0], Flat(pages[1..]);
      assert Flat(pages) == page + rest;
      assert Increasing(page) by { assert forall i | 0 <= i < |page| :: Flat(pages)[i] == page[i]; }
      assert Increasing(rest) by { assert forall i | 0 <= i < |rest| :: Flat(pages)[|page| + i] == rest[i]; }
      KeptIsOrdered(page, loads[0]);
      FlatOfKept(pages[1..], loads[1..]);
      var k0, k1 := Kept(page, loads[0]), Flat(KeptPages(pages[1..], loads[1..]));
      assert Flat(KeptPages(pages, loads)) == k0 + k1;
      forall a, b | 0 <= a < |k0| && 0 <= b < |k1| ensures Less(k0[a], k1[b]) {
        assert k0[a] in page && k1[b] in rest;
        var i :| 0 <= i < |page| && page[i] == k0[a];
        var j :| 0 <= j < |rest| && rest[j] == k1[b];
        assert Less(Flat(pages)[i], Flat(pages)[|page| + j]);
      }
      forall k | k in Flat(pages) && (forall i, j: nat | 0 <= i < |pages| :: k in loads[i](j)) ensures k in k0 + k1 {
        if k in page {
          var i :| 0 <= i < |page| && page[i] == k;
          assert k in loads[0](i);
        } else {
          forall i, j: nat | 0 <= i < |pages[1..]| ensures k in loads[1..][i](j) { assert k in loads[i + 1](j); }
        }
      }
    }
  }

  // ---- the records themselves ------------------------------------------------------------

  /** Everything read on the way decodes and carries its key as its id. */
  ghost predicate CarryKeys<V, T>(loads: seq<Views<V>>, decode: V -> Option<T>, idOf: T -> string) {
    forall i, n: nat, k | 0 <= i < |loads| && k in loads[i](n) && decode(loads[i](n)[k]).Some? ::
      idOf(decode(loads[i](n)[k]).value) == k
  }

  ghost predicate AllLoad<V, T>(pages: seq<seq<string>>, loads: seq<Views<V>>, faults: seq<nat -> bool>, decode: V -> Option<T>)
    requires |pages| <= |loads| && |pages| <= |faults|
  {
    forall i | 0 <= i < |pages| :: Loaded(pages[i], loads[i], faults[i], decode).Ok?
  }

  /** The record pages a client gets for its key pages. */
  ghost function RecordPages<V, T>(pages: seq<seq<string>>, loads: seq<Views<V>>, faults: seq<nat -> bool>, decode: V -> Option<T>)
    : seq<seq<T>>
    requires |pages| <= |loads| && |pages| <= |faults| && AllLoad(pages, loads, faults, decode)
  {
    if pages == [] then [] else
      [Loaded(pages[0], loads[0], faults[0], decode).value] + RecordPages(pages[1..], loads[1..], faults[1..], decode)
  }

  ghost function Ids<T>(records: seq<T>, idOf: T -> string): seq<string> {
    seq(|records|, i requires 0 <= i < |records| => idOf(records[i]))
  }

  lemma {:induction false} IdsAreKept<V, T>(pages: seq<seq<string>>, loads: seq<Views<V>>, faults: seq<nat -> bool>,
                                            decode: V -> Option<T>, idOf: T -> string)
    requires |pages| <= |loads| && |pages| <= |faults| && AllLoad(pages, loads, faults, decode)
    requires CarryKeys(loads, decode, idOf)
    ensures Ids(Flat(RecordPages(pages, loads, faults, decode)), idOf) == Flat(KeptPages(pages, loads))
  {
    if pages != [] {
      LoadedIsKept(pages[0], loads[0], faults[0], decode, idOf);
      IdsAreKept(pages[1..], loads[1..], faults[1..], decode, idOf);
      var first, rest := Loaded(pages[0], loads[0], faults[0], decode).value, Flat(RecordPages(pages[1..], loads[1..], faults[1..], decode));
      assert Ids(first + rest, idOf) == Ids(first, idOf) + Ids(rest, idOf);
      assert Ids(first, idOf) == Kept(pages[0], loads[0]);
    }
  }

  /** A walk over record pages, finished or not, returns records in strictly ascending order of
      their ids, each listed in its page. */
  lemma RecordWalkIsOrdered<V, T>(views: seq<set<string>>, loads: seq<Views<V>>, faults: seq<nat -> bool>, limit: int,
                                  decode: V -> Option<T>, idOf: T -> string)
    requires limit >= 1 && |loads| == |faults| == |views| && CarryKeys(loads, decode, idOf)
    requires |Pages(views, "", limit)| <= |views| ==> AllLoad(Pages(views, "", limit), loads, faults, decode)
    ensures |Pages(views, "", limit)| <= |views|
    ensures var ids := Ids(Flat(RecordPages(Pages(views, "", limit), loads, faults, decode)), idOf);
            Increasing(ids) && forall k | k in ids :: k in Flat(Pages(views, "", limit))
  {
    WalkIsOrderedAndPresent(views, "", limit);
    FlatOfKept(Pages(views, "", limit), loads);
    IdsAreKept(Pages(views, "", limit), loads, faults, decode, idOf);
  }

  /** A completed one returns every record that was there at every listing and every read made. */
  lemma RecordWalkKeepsStableKeys<V, T>(views: seq<set<string>>, loads: seq<Views<V>>, faults: seq<nat -> bool>, limit: int,
                                        decode: V -> Option<T>, idOf: T -> string, k: string)
    requires limit >= 1 && |loads| == |faults| == |views| && CarryKeys(loads, decode, idOf)
    requires |Pages(views, "", limit)| <= |views| ==> AllLoad(Pages(views, "", limit), loads, faults, decode)
    requires Completed(views, "", limit) && k != ""
    requires forall i | 0 <= i < |Pages(views, "", limit)| :: i < |views| && k in views[i] && forall j: nat :: k in loads[i](j)
    ensures |Pages(views, "", limit)| <= |views|
    ensures k in Ids(Flat(RecordPages(Pages(views, "", limit), loads, faults, decode)), idOf)
  {
    var pages := Pages(views, "", limit);
    WalkIsOrderedAndPresent(views, "", limit);
    WalkReaches(views, "", limit, k);
    FlatOfKept(pages, loads);
    assert forall i, j: nat | 0 <= i < |pages| :: k in loads[i](j);
    IdsAreKept(pages, loads, faults, decode, idOf);
  }
}
