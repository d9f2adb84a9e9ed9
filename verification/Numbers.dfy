/** Integer helpers shared by the other modules. */
module Numbers {

  const MAX_INT64 := 0x7FFF_FFFF_FFFF_FFFF

  function Min(a: int, b: int): int {
    if a <= b then a else b
  }

  function Max(a: int, b: int): int {
    if a >= b then a else b
  }

  lemma DivUnique(x: int, d: int, q: int, r: int)
    requires x == q * d + r && 0 <= r < d
    ensures x / d == q
  {
    var q', r' := x / d, x % d;
    assert (q' - q) * d == r - r';
    if q' > q { MulAtLeast(q' - q, d); } else if q > q' { MulAtLeast(q - q', d); }
  }

  lemma MulAtLeast(k: int, d: int)
    requires k >= 1 && d >= 0
    ensures k * d >= d
  {
    assert k * d == d + (k - 1) * d;
  }

  lemma DivStep(n: int, d: int)
    requires n >= d >= 1
    ensures (n - d) / d == n / d - 1
  {
    var q, r := n / d, n % d;
    assert (q - 1) * d == q * d - d;
    DivUnique(n - d, d, q - 1, r);
  }

  lemma DivBounds(n: int, d: int)
    requires n >= 0 && d >= 1
    ensures n / d >= 0 && (n < d ==> n / d == 0)
  {
    if n < d { DivUnique(n, d, 0, n); }
  }
}
