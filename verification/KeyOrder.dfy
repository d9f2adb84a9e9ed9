/** Byte order on storage keys, and the ascending enumeration of a finite set of keys.

    A key is a Go string, a sequence of bytes; here each byte is one `char`. */
module KeyOrder {

  datatype Option<+T> = None | Some(value: T)

  /** a comes strictly before b in byte order; a proper prefix comes first. */
  predicate Less(a: string, b: string) {
    && b != []
    && (a == [] || a[0] < b[0] || (a[0] == b[0] && Less(a[1..], b[1..])))
  }

  lemma {:induction false} LessTrans(a: string, b: string, c: string)
    requires Less(a, b) && Less(b, c)
    ensures Less(a, c)
  {
    if a != [] && a[0] == b[0] == c[0] {
      LessTrans(a[1..], b[1..], c[1..]);
    }
  }

  lemma {:induction false} LessAsym(a: string, b: string)
    requires Less(a, b)
    ensures !Less(b, a) && a != b
  {
    if a != [] && a[0] == b[0] {
      LessAsym(a[1..], b[1..]);
    }
  }

  lemma {:induction false} LessTotal(a: string, b: string)
    ensures a == b || Less(a, b) || Less(b, a)
  {
    if a != [] && b != [] && a[0] == b[0] {
      LessTotal(a[1..], b[1..]);
      assert a == [a[0]] + a[1..] && b == [b[0]] + b[1..];
    }
  }

  predicate IsLeast(m: string, keys: set<string>) {
    m in keys && forall k | k in keys :: k == m || Less(m, k)
  }

  lemma {:induction false} LeastExists(keys: set<string>) returns (m: string)
    requires keys != {}
    ensures IsLeast(m, keys)
  {
    var x :| x in keys;
    var rest := keys - {x};
    if rest == {} {
      m := x;
      assert keys == {x};
    } else {
      var r := LeastExists(rest);
      LessTotal(x, r);
      m := if Less(x, r) then x else r;
      forall k | k in keys ensures k == m || Less(m, k) {
        if k != x && k != r && m == x { LessTrans(x, r, k); }
      }
    }
  }

  lemma LeastUnique(m: string, n: string, keys: set<string>)
    requires IsLeast(m, keys) && IsLeast(n, keys)
    ensures m == n
  {
    if m != n { LessAsym(m, n); }
  }

  /** The first key of a set in byte order, if there is one. */
  function Least(keys: set<string>): (r: Option<string>)
    ensures r.None? <==> keys == {}
    ensures r.Some? ==> IsLeast(r.value, keys)
  {
    if keys == {} then None else
      var w := LeastWitness(keys);
      Some(w)
  }

  function LeastWitness(keys: set<string>): (m: string)
    requires keys != {}
    ensures IsLeast(m, keys)
  {
    assert exists m :: m in keys && IsLeast(m, keys) by { var m := LeastExists(keys); assert IsLeast(m, keys); }
    assert forall m, n | IsLeast(m, keys) && IsLeast(n, keys) :: m == n by {
      forall m, n | IsLeast(m, keys) && IsLeast(n, keys) ensures m == n { LeastUnique(m, n, keys); }
    }
    var m :| m in keys && IsLeast(m, keys);
    m
  }

  ghost predicate Increasing(s: seq<string>) {
    forall i, j | 0 <= i < j < |s| :: Less(s[i], s[j])
  }

  /** The sequence lists exactly the keys of the set. */
  ghost predicate Lists(s: seq<string>, keys: set<string>) {
    forall k :: k in s <==> k in keys
  }

  /** The keys of a set in ascending byte order: what a bbolt cursor visits. */
  ghost function Sorted(keys: set<string>): seq<string> {
    if keys == {} then [] else
      var m := LeastWitness(keys);
      [m] + Sorted(keys - {m})
  }

  lemma {:induction false} SortedSpec(keys: set<string>)
    ensures Increasing(Sorted(keys)) && Lists(Sorted(keys), keys) && |Sorted(keys)| == |keys|
  {
    if keys != {} {
      var m := LeastWitness(keys);
      SortedSpec(keys - {m});
      var t := Sorted(keys - {m});
      assert forall k | k in t :: k in keys - {m};
      assert Sorted(keys) == [m] + t;
    }
  }

  lemma SortedSize(keys: set<string>)
    ensures |Sorted(keys)| == |keys|
  {
    SortedSpec(keys);
  }

  /** An ascending sequence is determined by its elements. */
  lemma {:induction false} SortedUnique(s: seq<string>, keys: set<string>)
    requires Increasing(s) && Lists(s, keys)
    ensures s == Sorted(keys)
    decreases |s|
  {
    if s == [] {
      assert keys == {} by { assert forall k :: k in keys ==> k in s; }
    } else {
      HeadIsLeast(s, keys);
      LeastUnique(s[0], LeastWitness(keys), keys);
      SortedUnique(s[1..], keys - {s[0]});
      assert s == [s[0]] + s[1..];
    }
  }

  lemma HeadIsLeast(s: seq<string>, keys: set<string>)
    requires Increasing(s) && Lists(s, keys) && s != []
    ensures IsLeast(s[0], keys) && Lists(s[1..], keys - {s[0]})
  {
    forall k | k in s[1..] ensures k != s[0] {
      var i :| 1 <= i < |s| && s[i] == k;
      LessAsym(s[0], k);
    }
    assert s[0] in s;
    assert forall k | k in s :: k == s[0] || k in s[1..];
  }

  /** Positions of an ascending sequence are ordered like its keys. */
  lemma IncreasingIndex(s: seq<string>, i: nat, j: nat)
    requires Increasing(s) && i < |s| && j < |s|
    ensures Less(s[i], s[j]) <==> i < j
    ensures s[i] == s[j] <==> i == j
  {
    if i < j { LessAsym(s[i], s[j]); } else if j < i { LessAsym(s[j], s[i]); } else if Less(s[i], s[j]) { LessAsym(s[i], s[j]); }
  }
}
