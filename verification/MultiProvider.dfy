/** First-wins deduplication of a sequence by a key, and filtering by a predicate. */
module FirstWinsUnion {

  function Keys<T, K>(xs: seq<T>, key: T -> K): set<K> {
    set i | 0 <= i < |xs| :: key(xs[i])
  }

  /** Keep an element only when no earlier one has its key. */
  function FirstWins<T, K(==)>(xs: seq<T>, key: T -> K): seq<T> {
    if xs == [] then [] else
      var init, last := xs[..|xs| - 1], xs[|xs| - 1];
      FirstWins(init, key) + if key(last) in Keys(init, key) then [] else [last]
  }

  function Filter<T>(xs: seq<T>, p: T -> bool): seq<T> {
    if xs == [] then [] else
      var init, last := xs[..|xs| - 1], xs[|xs| - 1];
      Filter(init, p) + if p(last) then [last] else []
  }

  lemma FirstWinsSnoc<T, K>(xs: seq<T>, x: T, key: T -> K)
    ensures Keys(xs + [x], key) == Keys(xs, key) + {key(x)}
    ensures FirstWins(xs + [x], key) == FirstWins(xs, key) + if key(x) in Keys(xs, key) then [] else [x]
  {
    var s := xs + [x];
    assert s[..|s| - 1] == xs;
    forall k ensures k in Keys(s, key) <==> k in Keys(xs, key) || k == key(x) {
      if k in Keys(xs, key) { var i :| 0 <= i < |xs| && key(xs[i]) == k; assert s[i] == xs[i]; }
      if k == key(x) { assert s[|xs|] == x; }
    }
  }

  lemma FilterSnoc<T>(xs: seq<T>, x: T, p: T -> bool)
    ensures Filter(xs + [x], p) == if p(x) then Filter(xs, p) + [x] else Filter(xs, p)
  {
    assert (xs + [x])[..|xs|] == xs;
  }

  lemma {:induction false} FilterAll<T>(xs: seq<T>, p: T -> bool)
    requires forall i | 0 <= i < |xs| :: p(xs[i])
    ensures Filter(xs, p) == xs
  {
    if xs != [] { FilterAll(xs[..|xs| - 1], p); }
  }

  // ---- what first-wins means -------------------------------------------------------------

  /** Position i holds the first element with its key. */
  ghost predicate IsFirst<T, K>(xs: seq<T>, key: T -> K, i: int) {
    0 <= i < |xs| && forall j | 0 <= j < i :: key(xs[j]) != key(xs[i])
  }

  ghost predicate Ascending(idx: seq<nat>) {
    forall a, b | 0 <= a < b < |idx| :: idx[a] < idx[b]
  }

  ghost predicate Distinct<T, K>(xs: seq<T>, key: T -> K) {
    forall a, b | 0 <= a < b < |xs| :: key(xs[a]) != key(xs[b])
  }

  lemma IsFirstIn<T, K>(xs: seq<T>, key: T -> K, n: nat, i: nat)
    requires i < n <= |xs|
    ensures IsFirst(xs, key, i) <==> IsFirst(xs[..n], key, i)
  {
    assert forall j | 0 <= j <= i :: xs[..n][j] == xs[j];
  }

  lemma IsFirstLast<T, K>(xs: seq<T>, key: T -> K, n: nat)
    requires n < |xs|
    ensures IsFirst(xs, key, n) <==> key(xs[n]) !in Keys(xs[..n], key)
  {
    assert forall j | 0 <= j < n :: xs[..n][j] == xs[j];
  }

  /** The positions of first occurrences, ascending. */
  ghost predicate FirstPositions<T, K>(idx: seq<nat>, xs: seq<T>, key: T -> K) {
    Ascending(idx) && forall i: nat :: i in idx <==> IsFirst(xs, key, i)
  }

  lemma FirstPositionsSnoc<T, K>(idx: seq<nat>, xs: seq<T>, key: T -> K, n: nat)
    requires |xs| == n + 1 && FirstPositions(idx, xs[..n], key)
    ensures FirstPositions(if key(xs[n]) in Keys(xs[..n], key) then idx else idx + [n], xs, key)
    ensures forall a | 0 <= a < |idx| :: idx[a] < n
  {
    forall a | 0 <= a < |idx| ensures idx[a] < n { assert idx[a] in idx; }
    IsFirstLast(xs, key, n);
    forall i: nat | i < n ensures IsFirst(xs, key, i) <==> IsFirst(xs[..n], key, i) { IsFirstIn(xs, key, n, i); }
  }

  /** The sequence lists the elements of xs at these positions. */
  ghost predicate Picks<T>(out: seq<T>, idx: seq<nat>, xs: seq<T>) {
    |out| == |idx| && forall a | 0 <= a < |idx| :: idx[a] < |xs| && out[a] == xs[idx[a]]
  }

  lemma PicksLonger<T>(out: seq<T>, idx: seq<nat>, xs: seq<T>, n: nat)
    requires |xs| == n + 1 && Picks(out, idx, xs[..n])
    ensures Picks(out, idx, xs) && Picks(out + [xs[n]], idx + [n], xs)
  {
  }

  lemma FirstWinsStep<T, K>(xs: seq<T>, key: T -> K, n: nat)
    requires |xs| == n + 1
    ensures FirstWins(xs, key) == FirstWins(xs[..n], key) + if key(xs[n]) in Keys(xs[..n], key) then [] else [xs[n]]
  {
  }

  /** The result is exactly the input at the positions of first occurrences, in order. */
  lemma {:induction false} FirstWinsIsFirstOccurrences<T, K>(xs: seq<T>, key: T -> K) returns (idx: seq<nat>)
    ensures FirstPositions(idx, xs, key) && |idx| == |FirstWins(xs, key)|
    ensures forall a | 0 <= a < |idx| :: idx[a] < |xs| && FirstWins(xs, key)[a] == xs[idx[a]]
  {
    idx := [];
    if xs != [] {
      var n := |xs| - 1;
      var init := FirstWinsIsFirstOccurrences(xs[..n], key);
      assert Picks(FirstWins(xs[..n], key), init, xs[..n]);
      FirstPositionsSnoc(init, xs, key, n);
      FirstWinsStep(xs, key, n);
      PicksLonger(FirstWins(xs[..n], key), init, xs, n);
      idx := if key(xs[n]) in Keys(xs[..n], key) then init else init + [n];
      assert Picks(FirstWins(xs, key), idx, xs);
    }
  }

  lemma {:induction false} FirstWithKey<T, K>(xs: seq<T>, key: T -> K, k: K) returns (i: nat)
    requires k in Keys(xs, key)
    ensures IsFirst(xs, key, i) && key(xs[i]) == k
  {
    var n := |xs| - 1;
    if k in Keys(xs[..n], key) {
      i := FirstWithKey(xs[..n], key, k);
      IsFirstIn(xs, key, n, i);
    } else {
      i := n;
      IsFirstLast(xs, key, n);
      assert forall j | 0 <= j < n :: xs[..n][j] == xs[j];
    }
  }

  /** Result keys are pairwise distinct, and no key of the input is lost. */
  lemma FirstWinsKeys<T, K>(xs: seq<T>, key: T -> K)
    ensures Distinct(FirstWins(xs, key), key)
    ensures Keys(FirstWins(xs, key), key) == Keys(xs, key)
  {
    var out := FirstWins(xs, key);
    var idx := FirstWinsIsFirstOccurrences(xs, key);
    forall a, b | 0 <= a < b < |out| ensures key(out[a]) != key(out[b]) {
      assert idx[b] in idx && IsFirst(xs, key, idx[b]);
    }
    forall k | k in Keys(xs, key) ensures k in Keys(out, key) {
      var i := FirstWithKey(xs, key, k);
      assert i in idx;
      var a :| 0 <= a < |idx| && idx[a] == i;
      assert key(out[a]) == k;
    }
    forall k | k in Keys(out, key) ensures k in Keys(xs, key) {
      var a :| 0 <= a < |out| && key(out[a]) == k;
      assert out[a] == xs[idx[a]];
    }
  }

  lemma {:induction false} FirstWinsOnDistinct<T, K>(xs: seq<T>, key: T -> K)
    requires Distinct(xs, key)
    ensures FirstWins(xs, key) == xs
  {
    if xs != [] {
      var n := |xs| - 1;
      FirstWinsOnDistinct(xs[..n], key);
      IsFirstLast(xs, key, n);
    }
  }

  /** Merging an already merged list changes nothing. */
  lemma FirstWinsIdempotent<T, K>(xs: seq<T>, key: T -> K)
    ensures FirstWins(FirstWins(xs, key), key) == FirstWins(xs, key)
  {
    FirstWinsKeys(xs, key);
    FirstWinsOnDistinct(FirstWins(xs, key), key);
  }

  // ---- what filtering means --------------------------------------------------------------

  /** The accepted positions, ascending. */
  ghost predicate AcceptedPlaces<T>(places: seq<nat>, xs: seq<T>, p: T -> bool) {
    Ascending(places) && forall i: nat :: i in places <==> i < |xs| && p(xs[i])
  }

  lemma AcceptedSnoc<T>(places: seq<nat>, xs: seq<T>, p: T -> bool, n: nat)
    requires |xs| == n + 1 && AcceptedPlaces(places, xs[..n], p)
    ensures AcceptedPlaces(if p(xs[n]) then places + [n] else places, xs, p)
  {
    forall a | 0 <= a < |places| ensures places[a] < n { assert places[a] in places; }
    assert forall i: nat | i < n :: xs[..n][i] == xs[i];
  }

  lemma FilterStep<T>(xs: seq<T>, p: T -> bool, n: nat)
    requires |xs| == n + 1
    ensures Filter(xs, p) == if p(xs[n]) then Filter(xs[..n], p) + [xs[n]] else Filter(xs[..n], p)
  {
  }

  /** A filter keeps exactly the elements at the accepted positions, in order. */
  lemma {:induction false} FilterPlaces<T>(xs: seq<T>, p: T -> bool) returns (places: seq<nat>)
    ensures AcceptedPlaces(places, xs, p) && Picks(Filter(xs, p), places, xs)
  {
    places := [];
    if xs != [] {
      var n := |xs| - 1;
      var init := FilterPlaces(xs[..n], p);
      AcceptedSnoc(init, xs, p, n);
      FilterStep(xs, p, n);
      PicksLonger(Filter(xs[..n], p), init, xs, n);
      places := if p(xs[n]) then init + [n] else init;
    }
  }

  // ---- composed with a filter ------------------------------------------------------------

  lemma {:induction false} FilterMembers<T>(xs: seq<T>, p: T -> bool)
    ensures forall a | 0 <= a < |Filter(xs, p)| :: Filter(xs, p)[a] in xs && p(Filter(xs, p)[a])
    ensures forall i | 0 <= i < |xs| && p(xs[i]) :: xs[i] in Filter(xs, p)
  {
    if xs != [] {
      var n := |xs| - 1;
      FilterMembers(xs[..n], p);
      assert xs == xs[..n] + [xs[n]];
      assert forall i | 0 <= i < n :: xs[..n][i] == xs[i];
    }
  }

  lemma {:induction false} FilterKeepsDistinct<T, K>(xs: seq<T>, key: T -> K, p: T -> bool)
    requires Distinct(xs, key)
    ensures Distinct(Filter(xs, p), key)
  {
    if xs != [] {
      var n := |xs| - 1;
      FilterKeepsDistinct(xs[..n], key, p);
      FilterMembers(xs[..n], p);
      var t := Filter(xs[..n], p);
      forall a | 0 <= a < |t| ensures key(t[a]) != key(xs[n]) {
        var b :| 0 <= b < n && xs[..n][b] == t[a];
      }
    }
  }

  /** Some element with key k is accepted. */
  ghost predicate SomeAccepted<T, K>(xs: seq<T>, key: T -> K, p: T -> bool, k: K) {
    exists i :: 0 <= i < |xs| && p(xs[i]) && key(xs[i]) == k
  }

  /** The first element with key k is accepted. */
  ghost predicate FirstAccepted<T, K>(xs: seq<T>, key: T -> K, p: T -> bool, k: K) {
    exists i :: IsFirst(xs, key, i) && p(xs[i]) && key(xs[i]) == k
  }

  lemma KeysOfFilter<T, K>(xs: seq<T>, key: T -> K, p: T -> bool, k: K)
    ensures k in Keys(Filter(xs, p), key) <==> SomeAccepted(xs, key, p, k)
  {
    FilterMembers(xs, p);
    var t := Filter(xs, p);
    if k in Keys(t, key) { var a :| 0 <= a < |t| && key(t[a]) == k; assert t[a] in t; }
    if i :| 0 <= i < |xs| && p(xs[i]) && key(xs[i]) == k { assert xs[i] in t; }
  }

  lemma KeysOfFilteredFirsts<T, K>(xs: seq<T>, key: T -> K, p: T -> bool, k: K)
    ensures k in Keys(Filter(FirstWins(xs, key), p), key) <==> FirstAccepted(xs, key, p, k)
  {
    var merged := FirstWins(xs, key);
    KeysOfFilter(merged, key, p, k);
    var idx := FirstWinsIsFirstOccurrences(xs, key);
    if a :| 0 <= a < |merged| && p(merged[a]) && key(merged[a]) == k {
      assert idx[a] in idx;
    }
    if i :| IsFirst(xs, key, i) && p(xs[i]) && key(xs[i]) == k {
      assert i in idx;
      var a :| 0 <= a < |idx| && idx[a] == i;
      assert p(merged[a]);
    }
  }

  /** Deduplicating before the filter can only lose keys, and loses none exactly when no
      rejected first occurrence shadows an accepted later one. */
  lemma ShadowingLosesKeys<T, K>(xs: seq<T>, key: T -> K, p: T -> bool)
    ensures Keys(Filter(FirstWins(xs, key), p), key) <= Keys(FirstWins(Filter(xs, p), key), key)
    ensures Keys(Filter(FirstWins(xs, key), p), key) == Keys(FirstWins(Filter(xs, p), key), key) <==>
            forall i, j | 0 <= j < |xs| && p(xs[j]) && IsFirst(xs, key, i) && key(xs[i]) == key(xs[j]) :: p(xs[i])
  {
    var late, early := Keys(Filter(FirstWins(xs, key), p), key), Keys(FirstWins(Filter(xs, p), key), key);
    FirstWinsKeys(Filter(xs, p), key);
    forall k | k in late ensures k in early {
      KeysOfFilteredFirsts(xs, key, p, k);
      KeysOfFilter(xs, key, p, k);
    }
    forall i, j | late == early && 0 <= j < |xs| && p(xs[j]) && IsFirst(xs, key, i) && key(xs[i]) == key(xs[j])
      ensures p(xs[i])
    {
      KeysOfFilter(xs, key, p, key(xs[j]));
      KeysOfFilteredFirsts(xs, key, p, key(xs[j]));
      var i' :| IsFirst(xs, key, i') && p(xs[i']) && key(xs[i']) == key(xs[j]);
      assert i == i';
    }
    if forall i, j | 0 <= j < |xs| && p(xs[j]) && IsFirst(xs, key, i) && key(xs[i]) == key(xs[j]) :: p(xs[i]) {
      forall k | k in early ensures k in late {
        KeysOfFilter(xs, key, p, k);
        KeysOfFilteredFirsts(xs, key, p, k);
        var j :| 0 <= j < |xs| && p(xs[j]) && key(xs[j]) == k;
        assert k in Keys(xs, key);
        var i := FirstWithKey(xs, key, k);
      }
    }
  }
}

/** The deduplicated union of several providers (internal/webhooks/multi_provider.go). */
module MultiProvider {
  import opened Storage
  import opened Subscriptions
  import opened FirstWinsUnion

  /** All subscriptions of the providers that answered, in provider order. */
  function Union(answers: seq<Result<seq<Subscription>>>): seq<Subscription> {
    if answers == [] then []
    else Union(answers[..|answers| - 1]) +
         (if answers[|answers| - 1].Ok? then answers[|answers| - 1].value else [])
  }

  /** The union is the answers one after the other: nothing for no provider or a failed one, the
      list of a single one that answered, and for more of them first the first ones' union. */
  lemma UnionOfOne(answer: Result<seq<Subscription>>)
    ensures Union([]) == [] && Union([answer]) == if answer.Ok? then answer.value else []
  {
    assert [answer][..0] == [];
  }

  lemma {:induction false} UnionOfParts(first: seq<Result<seq<Subscription>>>, rest: seq<Result<seq<Subscription>>>)
    ensures Union(first + rest) == Union(first) + Union(rest)
    decreases |rest|
  {
    if rest == [] {
      assert first + rest == first;
    } else {
      var n := |rest| - 1;
      assert (first + rest)[..|first + rest| - 1] == first + rest[..n];
      UnionOfParts(first, rest[..n]);
    }
  }

  lemma UnionStep(answers: seq<Result<seq<Subscription>>>, i: nat)
    requires i < |answers|
    ensures Union(answers[..i + 1]) == Union(answers[..i]) + if answers[i].Ok? then answers[i].value else []
  {
    assert answers[..i + 1][..i] == answers[..i];
  }

  /** Each provider answers once; one that fails is skipped. */
  method ListSubscriptions(answers: seq<Result<seq<Subscription>>>) returns (out: seq<Subscription>)
    ensures out == FirstWins(Union(answers), DedupeKey)
  {
    var seen: set<string> := {};
    out := [];
    ghost var merged: seq<Subscription> := [];
    for i := 0 to |answers|
      invariant merged == Union(answers[..i])
      invariant out == FirstWins(merged, DedupeKey) && seen == Keys(merged, DedupeKey)
    {
      UnionStep(answers, i);
      if answers[i].Err? {
        continue;
      }
      out, seen := Absorb(answers[i].value, out, seen, merged);
      merged := merged + answers[i].value;
    }
    assert answers[..|answers|] == answers;
  }

  lemma OneMore(merged: seq<Subscription>, subs: seq<Subscription>, j: nat)
    requires j < |subs|
    ensures merged + subs[..j + 1] == merged + subs[..j] + [subs[j]]
  {
  }

  /** The inner loop: one provider's list joins what the earlier ones gave. */
  method Absorb(subs: seq<Subscription>, out0: seq<Subscription>, seen0: set<string>, ghost merged: seq<Subscription>)
    returns (out: seq<Subscription>, seen: set<string>)
    requires out0 == FirstWins(merged, DedupeKey) && seen0 == Keys(merged, DedupeKey)
    ensures out == FirstWins(merged + subs, DedupeKey) && seen == Keys(merged + subs, DedupeKey)
  {
    out, seen := out0, seen0;
    ghost var sofar := merged;
    for j := 0 to |subs|
      invariant sofar == merged + subs[..j]
      invariant out == FirstWins(sofar, DedupeKey) && seen == Keys(sofar, DedupeKey)
    {
      var sub := subs[j];
      FirstWinsSnoc(sofar, sub, DedupeKey);
      OneMore(merged, subs, j);
      sofar := sofar + [sub];
      var key := DedupeKey(sub);
      if key in seen {
        continue;
      }
      seen := seen + {key};
      out := out + [sub];
    }
    assert subs[..|subs|] == subs;
  }

  /** An event reaches each dedupe key at most once, whatever the providers answered. */
  lemma EachKeyTargetedOnce(answers: seq<Result<seq<Subscription>>>, kind: string)
    ensures Distinct(Filter(FirstWins(Union(answers), DedupeKey), Receiver(kind)), DedupeKey)
  {
    FirstWinsKeys(Union(answers), DedupeKey);
    FilterKeepsDistinct(FirstWins(Union(answers), DedupeKey), DedupeKey, Receiver(kind));
  }

  /** A subscription listed by a failed provider is still found through a later one. */
  lemma LaterProviderCovers(answers: seq<Result<seq<Subscription>>>, i: nat, sub: Subscription)
    requires i < |answers| && answers[i].Ok? && sub in answers[i].value
    ensures DedupeKey(sub) in Keys(FirstWins(Union(answers), DedupeKey), DedupeKey)
  {
    InUnion(answers, i, sub);
    FirstWinsKeys(Union(answers), DedupeKey);
    var u := Union(answers);
    var n :| 0 <= n < |u| && u[n] == sub;
  }

  lemma {:induction false} InUnion(answers: seq<Result<seq<Subscription>>>, i: nat, sub: Subscription)
    requires i < |answers| && answers[i].Ok? && sub in answers[i].value
    ensures sub in Union(answers)
  {
    if i < |answers| - 1 {
      InUnion(answers[..|answers| - 1], i, sub);
    }
  }
}
