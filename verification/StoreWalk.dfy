/** Walking a bucket with ListPage while other goroutines write and delete between the calls. */
module StoreWalk {
  import opened KeyOrder
  import opened Numbers
  import opened Storage

  /** The pages a client sees. `views[i]` holds the bucket's keys when the i-th call is made;
      consecutive views are unrelated, so any writes and deletes may happen in between. */
  ghost function Pages(views: seq<set<string>>, cursor: string, limit: int): (pages: seq<seq<string>>) {
    if views == [] then [] else
      var page := Page(views[0], cursor, limit);
      var next := NextCursor(page, limit);
      if next == "" then [page] else [page] + Pages(views[1..], next, limit)
  }

  /** The walk reached an empty cursor before the views ran out. */
  ghost predicate Completed(views: seq<set<string>>, cursor: string, limit: int) {
    && views != []
    && var page := Page(views[0], cursor, limit);
       var next := NextCursor(page, limit);
       next == "" || Completed(views[1..], next, limit)
  }

  ghost function Flat<T>(pages: seq<seq<T>>): seq<T> {
    if pages == [] then [] else pages[0] + Flat(pages[1..])
  }

  /** One page, described without the enumeration: ascending keys of the bucket after the
      cursor, at most `limit`, and anything left out lies beyond a full page. */
  lemma PageSpec(keys: set<string>, cursor: string, limit: nat)
    ensures var page := Page(keys, cursor, limit);
            && Increasing(page) && |page| <= limit
            && (forall k | k in page :: k in keys && Less(cursor, k))
            && (forall k | k in keys && Less(cursor, k) && k !in page ::
                  |page| == limit && forall q | q in page :: Less(q, k))
  {
    var s := Sorted(After(keys, cursor));
    var page := Page(keys, cursor, limit);
    SortedSpec(After(keys, cursor));
    forall k | k in page ensures k in keys && Less(cursor, k) { assert k in s; }
    assert forall m | 0 <= m < |page| :: page[m] == s[m] && s[m] in page;
    forall k, q | k in After(keys, cursor) && k !in page && q in page ensures Less(q, k) {
      assert k in s;
      var i :| 0 <= i < |s| && s[i] == k;
      var j :| 0 <= j < |page| && page[j] == q;
      assert s[j] == q;
    }
    forall k | k in After(keys, cursor) && k !in page ensures |page| == limit {
      assert k in s;
      assert page != s;
    }
  }

  /** A walk never repeats or reorders a key, and every key it emits was in the bucket when
      its page was read, whatever happened between the calls. */
  lemma {:induction false} WalkIsOrderedAndPresent(views: seq<set<string>>, cursor: string, limit: int)
    requires limit >= 1
    ensures var pages := Pages(views, cursor, limit);
            && Increasing(Flat(pages)) && (forall k | k in Flat(pages) :: Less(cursor, k))
            && |pages| <= |views|
            && forall i, k | 0 <= i < |pages| && k in pages[i] :: k in views[i]
    decreases |views|
  {
    if views != [] {
      var page := Page(views[0], cursor, limit);
      var next := NextCursor(page, limit);
      PageSpec(views[0], cursor, limit);
      if next == "" {
        assert Flat([page]) == page;
      } else {
        WalkIsOrderedAndPresent(views[1..], next, limit);
        var rest := Flat(Pages(views[1..], next, limit));
        assert Flat(Pages(views, cursor, limit)) == page + rest;
        assert next in page;
        forall k | k in rest ensures Less(cursor, k) { LessTrans(cursor, next, k); }
        forall i, j | 0 <= i < |page| && 0 <= j < |rest| ensures Less(page[i], rest[j]) {
          assert rest[j] in rest;
          if i < |page| - 1 { LessTrans(page[i], next, rest[j]); }
        }
      }
    }
  }

  /** A completed walk emits, exactly once, every key that was present in each page's view. */
  lemma WalkEmitsEveryStableKey(views: seq<set<string>>, cursor: string, limit: int, k: string)
    requires limit >= 1 && Completed(views, cursor, limit) && Less(cursor, k)
    requires forall i | 0 <= i < |Pages(views, cursor, limit)| :: i < |views| && k in views[i]
    ensures var flat := Flat(Pages(views, cursor, limit));
            exists i | 0 <= i < |flat| :: flat[i] == k && forall j | 0 <= j < |flat| && flat[j] == k :: j == i
  {
    WalkReaches(views, cursor, limit, k);
    WalkIsOrderedAndPresent(views, cursor, limit);
    var flat := Flat(Pages(views, cursor, limit));
    var i :| 0 <= i < |flat| && flat[i] == k;
    forall j | 0 <= j < |flat| && flat[j] == k ensures j == i { IncreasingIndex(flat, i, j); }
  }

  lemma {:induction false} WalkReaches(views: seq<set<string>>, cursor: string, limit: int, k: string)
    requires limit >= 1 && Completed(views, cursor, limit) && Less(cursor, k)
    requires forall i | 0 <= i < |Pages(views, cursor, limit)| :: i < |views| && k in views[i]
    ensures k in Flat(Pages(views, cursor, limit))
    decreases |views|
  {
    var page := Page(views[0], cursor, limit);
    var next := NextCursor(page, limit);
    PageSpec(views[0], cursor, limit);
    WalkIsOrderedAndPresent(views[1..], next, limit);
    assert k in views[0];
    if k !in page {
      assert page[limit - 1] in page;
      var rest := Pages(views[1..], next, limit);
      assert Pages(views, cursor, limit) == [page] + rest;
      forall i | 0 <= i < |rest| ensures k in views[1..][i] { assert k in views[i + 1]; }
      WalkReaches(views[1..], next, limit, k);
    }
  }

  /** A page either ends the enumeration, or the next page starts where it stopped. */
  lemma PageSplits(keys: set<string>, cursor: string, limit: int)
    requires limit >= 1
    ensures var s := Sorted(After(keys, cursor));
            var page := Page(keys, cursor, limit);
            var next := NextCursor(page, limit);
            && |s| == |After(keys, cursor)|
            && (|s| < limit ==> page == s && next == "")
            && (|s| >= limit ==> next != "" && s == page + Sorted(After(keys, next))
                                 && |After(keys, next)| == |s| - limit)
  {
    var s := Sorted(After(keys, cursor));
    SortedSize(After(keys, cursor));
    if |s| >= limit {
      SortedAfter(keys, cursor, limit - 1);
      assert Page(keys, cursor, limit) == s[..limit];
      SortedSize(After(keys, s[limit - 1]));
    }
  }

  /** The store interface promises an empty cursor exactly when no key follows the page. That
      holds exactly when the keys left are not `limit` in number. */
  lemma CursorPromiseKeptExactlyWhen(keys: set<string>, cursor: string, limit: int)
    requires limit >= 1
    ensures var page := Page(keys, cursor, limit);
            (NextCursor(page, limit) == "" <==> |After(keys, cursor)| == |page|) <==> |After(keys, cursor)| != limit
  {
    PageSplits(keys, cursor, limit);
  }

  /** On a bucket nobody changes, the walk lists it all in exactly n/limit + 1 calls: an
      exactly full last page costs one extra, empty call. */
  lemma {:induction false} StaticWalk(keys: set<string>, views: seq<set<string>>, cursor: string, limit: int)
    requires limit >= 1 && forall i | 0 <= i < |views| :: views[i] == keys
    requires |views| > |After(keys, cursor)| / limit
    ensures Completed(views, cursor, limit)
    ensures Flat(Pages(views, cursor, limit)) == Sorted(After(keys, cursor))
    ensures |Pages(views, cursor, limit)| == |After(keys, cursor)| / limit + 1
    decreases |views|
  {
    var n := |After(keys, cursor)|;
    PageSplits(keys, cursor, limit);
    DivBounds(n, limit);
    var page := Page(keys, cursor, limit);
    if n < limit {
      assert Flat([page]) == page;
    } else {
      DivStep(n, limit);
      StaticWalk(keys, views[1..], NextCursor(page, limit), limit);
    }
  }
}
