/** The filtered list endpoint (internal/http/handlers.go, listFilteredPage): filter first,
    page afterwards, over a full key listing. */
module FilteredList {
  import opened KeyOrder
  import opened KeyFormat
  import opened Numbers
  import opened Storage
  import opened StoreWalk

  function Matching(keys: set<string>, f: ListFilter): set<string> {
    set k | k in keys && KeyMatchesFilter(k, f)
  }

  /** A cursor that is not a listed, matching key is ignored: the page restarts from the front. */
  function EffectiveCursor(matching: set<string>, cursor: string): string {
    if cursor in matching then cursor else ""
  }

  /** The cursor this endpoint hands out: the last key of the page, only if more follow it. */
  ghost function FilteredNext(matching: set<string>, cursor: string, limit: int): string {
    var page := Page(matching, cursor, limit);
    if page != [] && |After(matching, cursor)| > |page| then page[|page| - 1] else ""
  }

  // ---- the matching keys of a listing ----------------------------------------------------

  ghost function Select(all: seq<string>, f: ListFilter): seq<string> {
    if all == [] then []
    else (if KeyMatchesFilter(all[0], f) then [all[0]] else []) + Select(all[1..], f)
  }

  lemma {:induction false} SelectMembers(all: seq<string>, f: ListFilter)
    ensures forall k :: k in Select(all, f) <==> k in all && KeyMatchesFilter(k, f)
  {
    if all != [] {
      SelectMembers(all[1..], f);
      assert all == [all[0]] + all[1..];
    }
  }

  lemma {:induction false} SelectIncreasing(all: seq<string>, f: ListFilter)
    requires Increasing(all)
    ensures Increasing(Select(all, f))
  {
    if all != [] {
      SelectIncreasing(all[1..], f);
      SelectMembers(all[1..], f);
      var rest := Select(all[1..], f);
      forall i | 0 <= i < |rest| ensures Less(all[0], rest[i]) {
        assert rest[i] in rest;
        var j :| 0 <= j < |all[1..]| && all[1..][j] == rest[i];
      }
    }
  }

  /** What follows a position of an ascending listing is what lies beyond the key before it. */
  lemma SuffixIsBeyond(all: seq<string>, start: nat, k: string)
    requires Increasing(all) && 0 < start <= |all|
    ensures k in all[start..] <==> k in all && Less(all[start - 1], k)
  {
    if k in all {
      var j :| 0 <= j < |all| && all[j] == k;
      IncreasingIndex(all, start - 1, j);
      if j >= start { assert all[start..][j - start] == k; }
    }
    if k in all[start..] {
      var i :| 0 <= i < |all[start..]| && all[start..][i] == k;
      IncreasingIndex(all, start - 1, start + i);
      assert all[start + i] == k;
    }
  }

  lemma SuffixIncreases(all: seq<string>, start: nat)
    requires Increasing(all) && start <= |all|
    ensures Increasing(all[start..])
  {
  }

  /** Where the second scan starts, what it collects is the enumeration the page is cut from. */
  lemma SelectFromStart(keys: set<string>, cursor: string, f: ListFilter, start: nat)
    requires "" !in keys && start <= |Sorted(keys)|
    requires var c := EffectiveCursor(Matching(keys, f), cursor);
             if c == "" then start == 0 else start > 0 && Sorted(keys)[start - 1] == c
    ensures var m := Matching(keys, f);
            Select(Sorted(keys)[start..], f) == Sorted(After(m, EffectiveCursor(m, cursor)))
  {
    var all, m := Sorted(keys), Matching(keys, f);
    var c := EffectiveCursor(m, cursor);
    SortedSpec(keys);
    SuffixIncreases(all, start);
    SelectIncreasing(all[start..], f);
    SelectMembers(all[start..], f);
    forall k ensures k in all[start..] <==> k in keys && Less(c, k) {
      if start > 0 { SuffixIsBeyond(all, start, k); } else { assert all[0..] == all; }
    }
    SortedUnique(Select(all[start..], f), After(m, c));
  }

  /** More keys follow the page exactly when some matching key lies beyond its last key. */
  lemma MoreFollow(m: set<string>, c: string, limit: int)
    requires Page(m, c, limit) != []
    ensures var page := Page(m, c, limit);
            |After(m, c)| > |page| <==> exists k :: k in m && Less(page[|page| - 1], k)
  {
    var s, page := Sorted(After(m, c)), Page(m, c, limit);
    SortedSpec(After(m, c));
    SortedAfter(m, c, |page| - 1);
    SortedSpec(After(m, s[|page| - 1]));
    if |s| > |page| {
      assert s[|page|] in s[|page|..];
      assert s[|page|] in After(m, s[|page| - 1]);
    }
    if k :| k in m && Less(page[|page| - 1], k) {
      assert k in After(m, s[|page| - 1]);
      assert k in s[|page|..];
    }
  }

  method ListFilteredPage<V>(store: BBoltStore<V>, bucket: string, cursor: string, limit: nat,
                             f: ListFilter, fault: bool)
    returns (r: Result<(seq<string>, string)>)
    requires store.Valid()
    ensures r == if fault then Err(Fault) else
                 var m := Matching(store.Bucket(bucket).Keys, f);
                 var c := EffectiveCursor(m, cursor);
                 Ok((Page(m, c, limit), FilteredNext(m, c, limit)))
  {
    var listing := store.List(bucket, fault);
    if listing.Err? {
      return Err(listing.error);
    }
    var all := listing.value;
    ghost var keys := store.Bucket(bucket).Keys;
    ghost var m := Matching(keys, f);
    ghost var c := EffectiveCursor(m, cursor);
    var startIdx := FindStart(all, cursor, f, keys);
    var out := Collect(all, startIdx, limit, f);
    if |out| == 0 {
      return Ok(([], ""));
    }
    var last := out[|out| - 1];
    MoreFollow(m, c, limit);
    SortedAfter(m, c, |out| - 1);
    var hasMore := HasMatchAfter(all, f, last, keys);
    return Ok((out, if hasMore then last else ""));
  }

  /** The first scan: one past the position of a matching cursor, or 0. */
  method FindStart(all: seq<string>, cursor: string, f: ListFilter, ghost keys: set<string>) returns (startIdx: nat)
    requires all == Sorted(keys) && "" !in keys
    ensures startIdx <= |all|
    ensures var m := Matching(keys, f);
            Select(all[startIdx..], f) == Sorted(After(m, EffectiveCursor(m, cursor)))
  {
    SortedSpec(keys);
    startIdx := 0;
    if cursor != "" {
      for i := 0 to |all|
        invariant startIdx == 0
        invariant forall j | 0 <= j < i && KeyMatchesFilter(all[j], f) :: all[j] != cursor
      {
        if !KeyMatchesFilter(all[i], f) {
          continue;
        }
        if all[i] == cursor {
          startIdx := i + 1;
          assert all[i] in all;
          break;
        }
      }
    }
    assert startIdx == 0 && cursor in Matching(keys, f) ==> cursor in all;
    SelectFromStart(keys, cursor, f, startIdx);
  }

  /** The second scan: the first `limit` matching keys from a position on. */
  method Collect(all: seq<string>, startIdx: nat, limit: nat, f: ListFilter) returns (out: seq<string>)
    requires startIdx <= |all|
    ensures out == Take(Select(all[startIdx..], f), limit)
  {
    ghost var s := Select(all[startIdx..], f);
    out := [];
    var i := startIdx;
    while i < |all| && |out| < limit
      invariant startIdx <= i <= |all| && |out| <= limit
      invariant out + Select(all[i..], f) == s
    {
      assert all[i..][0] == all[i] && all[i..][1..] == all[i + 1..];
      if KeyMatchesFilter(all[i], f) {
        assert out + ([all[i]] + Select(all[i + 1..], f)) == (out + [all[i]]) + Select(all[i + 1..], f);
        out := out + [all[i]];
      }
      i := i + 1;
    }
  }

  /** The third scan: is there a matching key after `last` in the listing? */
  method HasMatchAfter(all: seq<string>, f: ListFilter, last: string, ghost keys: set<string>) returns (hasMore: bool)
    requires all == Sorted(keys) && last in Matching(keys, f)
    ensures hasMore <==> exists k :: k in Matching(keys, f) && Less(last, k)
  {
    SortedSpec(keys);
    assert last in all;
    ghost var at :| 0 <= at < |all| && all[at] == last;
    var foundLast := false;
    hasMore := false;
    for j := 0 to |all|
      invariant foundLast <==> at < j
      invariant !hasMore
      invariant forall n | 0 <= n < j && KeyMatchesFilter(all[n], f) :: !Less(last, all[n])
    {
      IncreasingIndex(all, at, j);
      if !KeyMatchesFilter(all[j], f) {
        continue;
      }
      if !foundLast {
        if all[j] == last {
          foundLast := true;
        }
        continue;
      }
      hasMore := true;
      assert all[j] in all;
      break;
    }
    assert forall k :: k in Matching(keys, f) ==> k in all;
  }

  // ---- walks over a bucket nobody changes ------------------------------------------------

  /** One step of the walk: the last page returns no cursor; any other page is full, and the
      next one starts right behind it. */
  lemma FilteredStep(m: set<string>, c: string, limit: int)
    requires limit >= 1
    ensures var s := Sorted(After(m, c));
            var page := Page(m, c, limit);
            var next := FilteredNext(m, c, limit);
            && |s| == |After(m, c)|
            && (|s| <= limit ==> page == s && next == "")
            && (|s| > limit ==> next != "" && next in m && s == page + Sorted(After(m, next))
                                && |After(m, next)| == |s| - limit)
  {
    PageSplits(m, c, limit);
    var s := Sorted(After(m, c));
    if |s| > limit {
      SortedAfter(m, c, limit - 1);
    }
  }

  ghost function FilteredPages(m: set<string>, c: string, limit: int): (pages: seq<seq<string>>)
    requires limit >= 1
    decreases |After(m, c)|
  {
    var next := FilteredNext(m, c, limit);
    FilteredStep(m, c, limit);
    [Page(m, c, limit)] + if next == "" then [] else FilteredPages(m, next, limit)
  }

  lemma PagesNeeded(n: nat, limit: int)
    requires limit >= 1
    ensures 1 <= n <= limit ==> (n + limit - 1) / limit == 1
    ensures n > limit ==> (n + limit - 1) / limit == 1 + (n - limit + limit - 1) / limit
  {
    if 1 <= n <= limit { DivUnique(n + limit - 1, limit, 1, n - 1); }
    if n > limit { DivStep(n + limit - 1, limit); }
  }

  /** The walk lists every matching key once, in order, in max(1, ceil(n / limit)) calls. */
  lemma {:induction false} FilteredWalkListsAll(m: set<string>, c: string, limit: int)
    requires limit >= 1
    ensures Flat(FilteredPages(m, c, limit)) == Sorted(After(m, c))
    ensures var n := |After(m, c)|;
            |FilteredPages(m, c, limit)| == if n == 0 then 1 else (n + limit - 1) / limit
    decreases |After(m, c)|
  {
    var page, next := Page(m, c, limit), FilteredNext(m, c, limit);
    FilteredStep(m, c, limit);
    PagesNeeded(|After(m, c)|, limit);
    if |After(m, c)| <= limit {
      assert Flat([page]) == page;
    } else {
      FilteredWalkListsAll(m, next, limit);
    }
  }

  lemma {:induction false} OnSomePage(pages: seq<seq<string>>, key: string)
    ensures key in Flat(pages) <==> exists i :: 0 <= i < |pages| && key in pages[i]
  {
    if pages != [] {
      OnSomePage(pages[1..], key);
      if i :| 0 <= i < |pages[1..]| && key in pages[1..][i] { assert key in pages[i + 1]; }
    }
  }

  /** In the caller's terms: a key is on some page of the walk if and only if it is in the bucket,
      begins with the prefix, has the other text somewhere inside, and is ".json" after digits
      whose number lies within the bounds. */
  lemma WalkShowsExactly(keys: set<string>, f: ListFilter, limit: int, key: string)
    requires limit >= 1 && "" !in keys
    ensures (exists i :: 0 <= i < |FilteredPages(Matching(keys, f), "", limit)| && key in FilteredPages(Matching(keys, f), "", limit)[i])
       <==> && key in keys && f.prefix <= key && (exists a, b :: key == a + f.contains + b)
            && (f.since.Some? || f.until.Some? ==>
                  exists sign, digits ::
                    && SignedDigits(sign + digits, sign, digits) && key == sign + digits + ".json"
                    && DigitsValue(digits) <= 9_223_372_036_854_775_807 && (sign == "-" ==> DigitsValue(digits) == 0)
                    && (f.since.Some? ==> f.since.value <= DigitsValue(digits))
                    && (f.until.Some? ==> DigitsValue(digits) <= f.until.value))
  {
    var m := Matching(keys, f);
    FilteredWalkListsAll(m, "", limit);
    OnSomePage(FilteredPages(m, "", limit), key);
    SortedSpec(After(m, ""));
    KeyMatchesExactly(key, f);
    if n :| KeyNS(key) == Some(n) { KeyNSExactly(key, n); }
    forall sign, digits | SignedDigits(sign + digits, sign, digits) && key == sign + digits + ".json"
                          && DigitsValue(digits) <= 9_223_372_036_854_775_807 && (sign == "-" ==> DigitsValue(digits) == 0)
      ensures KeyNS(key) == Some(DigitsValue(digits))
    {
      KeyNSExactly(key, DigitsValue(digits));
    }
  }

  /** The two pagers give the same page for every cursor they both know; their cursors differ
      exactly after an exactly full last page. */
  lemma PagersAgree(keys: set<string>, cursor: string, limit: int)
    requires limit >= 1 && "" !in keys && (cursor == "" || cursor in keys)
    ensures var m := Matching(keys, ListFilter(None, None, "", ""));
            && m == keys && EffectiveCursor(m, cursor) == cursor
            && (NextCursor(Page(keys, cursor, limit), limit) == FilteredNext(m, cursor, limit)
                <==> |After(keys, cursor)| != limit)
  {
    FilteredStep(keys, cursor, limit);
    PageSplits(keys, cursor, limit);
    assert Matching(keys, ListFilter(None, None, "", "")) == keys;
  }

  // ---- walks over a changing bucket ------------------------------------------------------

  /** The pages a client sees; `views[i]` holds the matching keys when the i-th call is made. */
  ghost function ChangingPages(views: seq<set<string>>, cursor: string, limit: int): (pages: seq<seq<string>>) {
    if views == [] then [] else
      var c := EffectiveCursor(views[0], cursor);
      var next := FilteredNext(views[0], c, limit);
      [Page(views[0], c, limit)] + if next == "" then [] else ChangingPages(views[1..], next, limit)
  }

  ghost predicate Finished(views: seq<set<string>>, cursor: string, limit: int) {
    && views != []
    && var next := FilteredNext(views[0], EffectiveCursor(views[0], cursor), limit);
       next == "" || Finished(views[1..], next, limit)
  }

  /** A cursor does no harm if it is a matching key or lies before all of them. */
  ghost predicate Harmless(m: set<string>, cursor: string) {
    cursor in m || forall k | k in m :: Less(cursor, k)
  }

  /** Each cursor handed out does no harm when it is used. */
  ghost predicate CursorsHarmless(views: seq<set<string>>, cursor: string, limit: int) {
    views != [] ==>
      && Harmless(views[0], cursor)
      && var next := FilteredNext(views[0], EffectiveCursor(views[0], cursor), limit);
         next == "" || CursorsHarmless(views[1..], next, limit)
  }

  /** One call with a harmless cursor. */
  lemma HarmlessStep(m: set<string>, cursor: string, limit: int)
    requires limit >= 1 && "" !in m && Harmless(m, cursor)
    ensures var c := EffectiveCursor(m, cursor);
            var page, next := Page(m, c, limit), FilteredNext(m, c, limit);
            && Increasing(page) && (forall k | k in page :: k in m && Less(cursor, k))
            && (next != "" ==> page != [] && next == page[|page| - 1])
            && (forall k | k in m && Less(cursor, k) && k !in page :: next != "" && Less(next, k))
  {
    var c := EffectiveCursor(m, cursor);
    PageSpec(m, c, limit);
    var page, next := Page(m, c, limit), FilteredNext(m, c, limit);
    if page != [] { assert page[|page| - 1] in page; }
    forall k | k in m && Less(cursor, k) && k !in page ensures next != "" && Less(next, k) {
      assert Less(c, k) by { assert c == cursor || c == "" != k; }
      assert page[|page| - 1] in page;
      FilteredStep(m, c, limit);
      SortedSpec(After(m, c));
      assert k in After(m, c);
      assert k in Sorted(After(m, c));
    }
  }

  /** One call with any other cursor restarts: its page begins with a key not beyond the cursor. */
  lemma HarmfulStep(m: set<string>, cursor: string, limit: int)
    requires limit >= 1 && "" !in m && !Harmless(m, cursor)
    ensures var page := Page(m, EffectiveCursor(m, cursor), limit); page != [] && !Less(cursor, page[0])
  {
    StartOfPage(m, "");
    var first := Least(m).value;
    assert Page(m, "", limit)[0] == first;
    var k :| k in m && !Less(cursor, k);
    if Less(cursor, first) && first != k { LessTrans(cursor, first, k); }
  }

  /** The walk emits keys in strictly ascending order, all of them beyond its first cursor. */
  ghost predicate Ascends(keys: seq<string>, cursor: string) {
    Increasing(keys) && forall k | k in keys :: Less(cursor, k)
  }

  lemma AscendsJoin(page: seq<string>, rest: seq<string>, cursor: string)
    requires Ascends(page, cursor) && page != []
    ensures Ascends(page + rest, cursor) <==> Ascends(rest, page[|page| - 1])
  {
    var last := page[|page| - 1];
    assert last in page;
    if Ascends(rest, last) {
      forall k | k in rest ensures Less(cursor, k) { LessTrans(cursor, last, k); }
      forall i, j | 0 <= i < |page| && 0 <= j < |rest| ensures Less(page[i], rest[j]) {
        assert rest[j] in rest;
        if i < |page| - 1 { LessTrans(page[i], last, rest[j]); }
      }
    }
    if Ascends(page + rest, cursor) {
      forall i, j | 0 <= i < j < |rest| ensures Less(rest[i], rest[j]) {
        assert (page + rest)[|page| + i] == rest[i] && (page + rest)[|page| + j] == rest[j];
      }
      forall k | k in rest ensures Less(last, k) {
        var j :| 0 <= j < |rest| && rest[j] == k;
        assert (page + rest)[|page| - 1] == last && (page + rest)[|page| + j] == k;
      }
    }
  }

  /** Under writes and deletes between the calls the walk never repeats or reorders a key if and
      only if each cursor, when it is used, is a matching key or lies before all of them. */
  lemma {:induction false} WalkAscendsExactlyWhen(views: seq<set<string>>, cursor: string, limit: int)
    requires limit >= 1 && forall i | 0 <= i < |views| :: "" !in views[i]
    ensures Ascends(Flat(ChangingPages(views, cursor, limit)), cursor) <==> CursorsHarmless(views, cursor, limit)
    decreases |views|
  {
    if views != [] {
      var c := EffectiveCursor(views[0], cursor);
      var page, next := Page(views[0], c, limit), FilteredNext(views[0], c, limit);
      var rest := if next == "" then [] else ChangingPages(views[1..], next, limit);
      assert ChangingPages(views, cursor, limit) == [page] + rest;
      assert Flat([page] + rest) == page + Flat(rest);
      if Harmless(views[0], cursor) {
        HarmlessStep(views[0], cursor, limit);
        if next == "" {
          assert page + Flat(rest) == page;
        } else {
          WalkAscendsExactlyWhen(views[1..], next, limit);
          AscendsJoin(page, Flat(rest), cursor);
        }
      } else {
        HarmfulStep(views[0], cursor, limit);
        assert page[0] in page + Flat(rest);
      }
    }
  }

  /** Whatever the cursors, every key emitted was there when its page was read. */
  lemma {:induction false} WalkEmitsPresentKeys(views: seq<set<string>>, cursor: string, limit: int)
    requires limit >= 1
    ensures var pages := ChangingPages(views, cursor, limit);
            |pages| <= |views| && forall i, k | 0 <= i < |pages| && k in pages[i] :: k in views[i]
    decreases |views|
  {
    if views != [] {
      var c := EffectiveCursor(views[0], cursor);
      PageSpec(views[0], c, limit);
      if FilteredNext(views[0], c, limit) != "" {
        WalkEmitsPresentKeys(views[1..], FilteredNext(views[0], c, limit), limit);
      }
    }
  }

  /** And a finished walk whose cursors do no harm emits every key that matched at each call. */
  lemma {:induction false} HarmlessWalkReaches(views: seq<set<string>>, cursor: string, limit: int, k: string)
    requires limit >= 1 && CursorsHarmless(views, cursor, limit) && Finished(views, cursor, limit) && Less(cursor, k)
    requires forall i | 0 <= i < |views| :: "" !in views[i]
    requires forall i | 0 <= i < |views| && i < |ChangingPages(views, cursor, limit)| :: k in views[i]
    ensures k in Flat(ChangingPages(views, cursor, limit))
    decreases |views|
  {
    var c := EffectiveCursor(views[0], cursor);
    var page, next := Page(views[0], c, limit), FilteredNext(views[0], c, limit);
    HarmlessStep(views[0], cursor, limit);
    assert k in views[0];
    if k !in page {
      var rest := ChangingPages(views[1..], next, limit);
      assert ChangingPages(views, cursor, limit) == [page] + rest;
      forall i | 0 <= i < |views[1..]| && i < |rest| ensures k in views[1..][i] { assert k in views[i + 1]; }
      HarmlessWalkReaches(views[1..], next, limit, k);
    }
  }

  // ---- where the endpoint departs from its comment ---------------------------------------

  /** "Start strictly after the cursor" holds exactly when the cursor is a matching key or lies
      before all of them; otherwise the page restarts from the front. */
  lemma RestartsExactlyWhen(m: set<string>, cursor: string, limit: int)
    requires limit >= 1 && "" !in m
    ensures Page(m, EffectiveCursor(m, cursor), limit) == Page(m, cursor, limit)
            <==> cursor in m || forall k | k in m :: Less(cursor, k)
  {
    StartOfPage(m, "");
    if cursor !in m {
      if forall k | k in m :: Less(cursor, k) {
        assert After(m, cursor) == m;
      } else {
        var k :| k in m && !Less(cursor, k);
        LessTotal(k, cursor);
        var first := Least(m).value;
        assert Page(m, "", limit)[0] == first;
        if Less(cursor, first) {
          if first != k { LessTrans(cursor, first, k); }
        }
        PageSpec(m, cursor, limit);
        assert first !in Page(m, cursor, limit);
        assert Page(m, "", limit)[0] in Page(m, "", limit);
      }
    }
  }

  /** Deleting the cursor's key between two calls makes the walk repeat keys, which ListPage
      never does: with limit 2 over any x < y < z, once y is gone the second page starts at x. */
  lemma FilteredWalkCanRepeat(x: string, y: string, z: string)
    requires x != "" && Less(x, y) && Less(y, z)
    ensures var next := FilteredNext({x, y, z}, "", 2);
            && next == y && Page({x, y, z}, "", 2) == [x, y]
            && Page({x, z}, EffectiveCursor({x, z}, next), 2) == [x, z]
  {
    LessTrans(x, y, z);
    LessAsym(x, y);
    LessAsym(y, z);
    assert After({x, y, z}, "") == {x, y, z} && After({x, z}, "") == {x, z};
    SortedUnique([x, y, z], {x, y, z});
    SortedUnique([x, z], {x, z});
    SortedSize({x, y, z});
  }
}
