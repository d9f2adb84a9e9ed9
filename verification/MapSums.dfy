/** Sums over finite maps. */
module MapSums {

  ghost function Sum(m: map<string, int>): int {
    if m == map[] then 0 else
      var k :| k in m;
      m[k] + Sum(m - {k})
  }

  lemma {:induction false} SumPick(m: map<string, int>, k: string)
    requires k in m
    ensures Sum(m) == m[k] + Sum(m - {k})
    decreases |m|
  {
    var p :| p in m && Sum(m) == m[p] + Sum(m - {p});
    if p != k {
      SumPick(m - {p}, k);
      SumPick(m - {k}, p);
      assert m - {p} - {k} == m - {k} - {p};
    }
  }

  lemma SumSet(m: map<string, int>, k: string, v: int)
    ensures Sum(m[k := v]) == Sum(m) - (if k in m then m[k] else 0) + v
  {
    SumPick(m[k := v], k);
    assert m[k := v] - {k} == m - {k};
    if k in m { SumPick(m, k); } else { assert m - {k} == m; }
  }

  /** `whole` is `left` and `right` put together. */
  ghost predicate Splits(whole: map<string, int>, left: map<string, int>, right: map<string, int>) {
    && (forall k | k in whole :: k in left || k in right)
    && (forall k | k in left :: k in whole && k !in right && whole[k] == left[k])
    && (forall k | k in right :: k in whole && whole[k] == right[k])
  }

  lemma {:induction false} SumSplit(whole: map<string, int>, left: map<string, int>, right: map<string, int>)
    requires Splits(whole, left, right)
    ensures Sum(whole) == Sum(left) + Sum(right)
    decreases |left|
  {
    if left == map[] {
      assert whole == right;
    } else {
      var k :| k in left;
      SumPick(whole, k);
      SumPick(left, k);
      assert |left - {k}| < |left| by { assert (left - {k}).Keys == left.Keys - {k}; }
      SumSplit(whole - {k}, left - {k}, right);
    }
  }

  lemma {:induction false} SumConst(m: map<string, int>, v: int)
    requires forall k | k in m :: m[k] == v
    ensures Sum(m) == v * |m|
    decreases |m|
  {
    if m != map[] {
      var k :| k in m;
      SumPick(m, k);
      SumConst(m - {k}, v);
      assert |m - {k}| == |m| - 1 by { assert (m - {k}).Keys == m.Keys - {k}; }
      assert v * |m| == v * (|m| - 1) + v;
    }
  }

  /** A sum is bounded by the sums of bounds, key by key. */
  lemma {:induction false} SumBounded(m: map<string, int>, a: map<string, int>, b: map<string, int>)
    requires m.Keys == a.Keys == b.Keys && forall k | k in m :: m[k] <= a[k] + b[k]
    ensures Sum(m) <= Sum(a) + Sum(b)
    decreases |m|
  {
    if m != map[] {
      var k :| k in m;
      SumPick(m, k);
      SumPick(a, k);
      SumPick(b, k);
      assert |m - {k}| < |m| by { assert (m - {k}).Keys == m.Keys - {k}; }
      SumBounded(m - {k}, a - {k}, b - {k});
    }
  }
}
