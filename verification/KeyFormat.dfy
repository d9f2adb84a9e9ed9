/** Timestamped keys, their numeric reading and the list filters (internal/http/handlers.go,
    internal/audit/audit.go). */
module KeyFormat {
  import opened KeyOrder
  import opened Numbers

  const JSON_SUFFIX := ".json"

  predicate IsDigit(c: char) {
    '0' <= c <= '9'
  }

  predicate AllDigits(s: string) {
    forall i | 0 <= i < |s| :: IsDigit(s[i])
  }

  /** Decimal digits of n, as Sprintf("%d") prints them. */
  function Decimal(n: nat): (s: string)
    ensures s != [] && AllDigits(s)
  {
    if n < 10 then ['0' + n as char] else Decimal(n / 10) + ['0' + (n % 10) as char]
  }

  function FormatInt(n: int): string {
    if n < 0 then "-" + Decimal(-n) else Decimal(n)
  }

  function DigitsValue(s: string): nat
    requires AllDigits(s)
  {
    if s == [] then 0
    else 10 * DigitsValue(s[..|s| - 1]) + (s[|s| - 1] as int - '0' as int)
  }

  /** strconv.ParseInt(s, 10, 64): an optional sign, at least one digit, nothing else, and the
      value must fit an int64. */
  function ParseInt64(s: string): (r: Option<int>) {
    var signed := s != [] && (s[0] == '+' || s[0] == '-');
    var digits := if signed then s[1..] else s;
    if digits == [] || !AllDigits(digits) then None
    else
      var n: int := DigitsValue(digits);
      var v: int := if signed && s[0] == '-' then -n else n;
      if -MAX_INT64 - 1 <= v <= MAX_INT64 then Some(v) else None
  }

  function TrimSuffix(s: string, suffix: string): (r: string)
    ensures r == s || r + suffix == s
  {
    if |s| >= |suffix| && s[|s| - |suffix|..] == suffix then s[..|s| - |suffix|] else s
  }

  /** The nanosecond timestamp in a key "<ns>.json", if it is one. */
  function KeyNS(key: string): (r: Option<int>)
    ensures r.Some? ==> 0 <= r.value <= MAX_INT64
  {
    var trim := TrimSuffix(key, JSON_SUFFIX);
    if trim == key then None
    else
      var n := ParseInt64(trim);
      if n.None? || n.value < 0 then None else n
  }

  /** The key given to a stored body, and to a new dead letter: "<ns>.json". */
  function TimestampKey(ns: int): string {
    FormatInt(ns) + JSON_SUFFIX
  }

  /** The key of an audit entry: "<ns>-<seq>.json". */
  function AuditKey(ns: int, seqNo: nat): string {
    FormatInt(ns) + "-" + Decimal(seqNo) + JSON_SUFFIX
  }

  // ---- numerals --------------------------------------------------------------------------

  lemma {:induction false} DecimalValue(n: nat)
    ensures DigitsValue(Decimal(n)) == n
  {
    if n >= 10 {
      DecimalValue(n / 10);
      var s := Decimal(n);
      assert s[..|s| - 1] == Decimal(n / 10);
    }
  }

  /** A written timestamp reads back exactly when it fits an int64; no other n is readable. */
  lemma TimestampRoundTrip(n: nat)
    ensures KeyNS(TimestampKey(n)) == if n <= MAX_INT64 then Some(n) else None
  {
    var key := TimestampKey(n);
    DecimalValue(n);
    assert key[|key| - 5..] == JSON_SUFFIX && key[..|key| - 5] == Decimal(n);
  }

  /** The last character decides only between strings that agree before it. */
  lemma {:induction false} LessSnoc(a: string, x: char, b: string, y: char)
    requires |a| == |b|
    ensures Less(a + [x], b + [y]) <==> Less(a, b) || (a == b && x < y)
  {
    if a == [] {
    } else {
      assert (a + [x])[1..] == a[1..] + [x] && (b + [y])[1..] == b[1..] + [y];
      LessSnoc(a[1..], x, b[1..], y);
      assert a == [a[0]] + a[1..] && b == [b[0]] + b[1..];
      if a[0] == b[0] && Less(a[1..], b[1..]) { LessAsym(a[1..], b[1..]); }
    }
  }

  lemma {:induction false} LessCommonSuffix(a: string, b: string, t: string)
    requires |a| == |b|
    ensures Less(a + t, b + t) <==> Less(a, b)
    decreases |t|
  {
    if t == [] {
      assert a + t == a && b + t == b;
    } else {
      var u, z := t[..|t| - 1], t[|t| - 1];
      assert a + t == (a + u) + [z] && b + t == (b + u) + [z];
      LessSnoc(a + u, z, b + u, z);
      LessCommonSuffix(a, b, u);
    }
  }

  /** Numerals of equal length: byte order is numeric order. */
  lemma {:induction false} NumeralOrder(a: string, b: string)
    requires |a| == |b| && AllDigits(a) && AllDigits(b)
    ensures Less(a, b) <==> DigitsValue(a) < DigitsValue(b)
    ensures a == b <==> DigitsValue(a) == DigitsValue(b)
    decreases |a|
  {
    if a != [] {
      var a', b' := a[..|a| - 1], b[..|b| - 1];
      var x, y := a[|a| - 1], b[|b| - 1];
      assert a == a' + [x] && b == b' + [y];
      NumeralOrder(a', b');
      LessSnoc(a', x, b', y);
    }
  }

  /** Keys whose numerals have equal length sort by time. */
  lemma TimestampOrder(m: nat, n: nat)
    requires |Decimal(m)| == |Decimal(n)|
    ensures Less(TimestampKey(m), TimestampKey(n)) <==> m < n
  {
    DecimalValue(m);
    DecimalValue(n);
    NumeralOrder(Decimal(m), Decimal(n));
    LessCommonSuffix(Decimal(m), Decimal(n), JSON_SUFFIX);
  }

  function Pow10(k: nat): nat {
    if k == 0 then 1 else 10 * Pow10(k - 1)
  }

  lemma {:induction false} DecimalLength(n: nat, k: nat)
    requires Pow10(k) <= n < Pow10(k + 1)
    ensures |Decimal(n)| == k + 1
  {
    if k > 0 {
      DecimalLength(n / 10, k - 1);
    }
  }

  /** Every clock reading from 10^18 ns (September 2001) to the end of int64 has 19 digits,
      so over that whole range key order is time order. */
  lemma ModernTimestampsSortByTime(m: nat, n: nat)
    requires 1_000_000_000_000_000_000 <= m <= MAX_INT64
    requires 1_000_000_000_000_000_000 <= n <= MAX_INT64
    ensures Less(TimestampKey(m), TimestampKey(n)) <==> m < n
  {
    assert Pow10(6) == 1_000_000;
    assert Pow10(12) == 1_000_000_000_000;
    assert Pow10(18) == 1_000_000_000_000_000_000;
    assert Pow10(19) == 10_000_000_000_000_000_000;
    DecimalLength(m, 18);
    DecimalLength(n, 18);
    TimestampOrder(m, n);
  }

  /** Without equal lengths it is not: "10.json" sorts before "9.json". */
  lemma ShortTimestampsMisorder()
    ensures Less(TimestampKey(10), TimestampKey(9))
  {
    assert Decimal(10) == "10" && Decimal(9) == "9";
    assert TimestampKey(10)[0] == '1' && TimestampKey(9)[0] == '9';
  }

  // ---- what is readable ------------------------------------------------------------------

  /** s is an optional sign and at least one digit. */
  ghost predicate SignedDigits(s: string, sign: string, digits: string) {
    && s == sign + digits && (sign == "" || sign == "+" || sign == "-")
    && digits != [] && forall i | 0 <= i < |digits| :: '0' <= digits[i] <= '9'
  }

  lemma SignSplits(s: string, sign: string, digits: string)
    requires SignedDigits(s, sign, digits)
    ensures s != [] && ((s[0] == '+' || s[0] == '-') <==> sign != "")
    ensures (if sign != "" then s[1..] else s) == digits && (sign != "" ==> sign == [s[0]])
  {
    if sign != "" { assert s[0] == sign[0] && s[1..] == digits; } else { assert s == digits; }
  }

  /** The integers that can be read, and what they read as. */
  lemma ParseInt64Exactly(s: string, v: int)
    ensures ParseInt64(s) == Some(v) <==>
              exists sign, digits ::
                && SignedDigits(s, sign, digits) && (sign == "-" ==> v == 0 - DigitsValue(digits))
                && (sign != "-" ==> v == DigitsValue(digits))
                && -9_223_372_036_854_775_808 <= v <= 9_223_372_036_854_775_807
  {
    var signed := s != [] && (s[0] == '+' || s[0] == '-');
    var digits := if signed then s[1..] else s;
    var sign := if signed then [s[0]] else "";
    assert s == sign + digits;
    if digits != [] && AllDigits(digits) { assert SignedDigits(s, sign, digits); }
    forall sign', digits' | SignedDigits(s, sign', digits') ensures sign' == sign && digits' == digits {
      SignSplits(s, sign', digits');
    }
  }

  /** The keys that carry a timestamp: digits and ".json", with a plus, or a minus before zero,
      tolerated in front. */
  lemma KeyNSExactly(key: string, n: int)
    ensures KeyNS(key) == Some(n) <==>
              exists sign, digits ::
                && SignedDigits(sign + digits, sign, digits) && key == sign + digits + ".json"
                && n == DigitsValue(digits) && n <= 9_223_372_036_854_775_807 && (sign == "-" ==> n == 0)
  {
    var trim := TrimSuffix(key, JSON_SUFFIX);
    if KeyNS(key) == Some(n) {
      ParseInt64Exactly(trim, n);
      var sign, digits :| SignedDigits(trim, sign, digits) && (sign == "-" ==> n == 0 - DigitsValue(digits))
                          && (sign != "-" ==> n == DigitsValue(digits));
      assert key == sign + digits + ".json";
    }
    if sign, digits :| SignedDigits(sign + digits, sign, digits) && key == sign + digits + ".json"
                       && n == DigitsValue(digits) && n <= 9_223_372_036_854_775_807 && (sign == "-" ==> n == 0) {
      assert key[|key| - 5..] == ".json" && key[..|key| - 5] == sign + digits;
      ParseInt64Exactly(sign + digits, n);
    }
  }

  /** The text is the plain decimal numeral of n. */
  ghost predicate Spells(text: string, n: nat) {
    SignedDigits(text, "", text) && DigitsValue(text) == n
  }

  lemma DecimalSpells(n: nat)
    ensures Spells(Decimal(n), n)
  {
    DecimalValue(n);
    assert "" + Decimal(n) == Decimal(n);
  }

  /** Written keys are the digits of the number and ".json". */
  lemma TimestampKeyText(ns: nat)
    ensures exists text :: Spells(text, ns) && TimestampKey(ns) == text + ".json"
  {
    DecimalSpells(ns);
  }

  /** Numerals are decimal: each digit counts ten times the one after it. */
  lemma DigitsAreDecimal(s: string, c: char)
    requires AllDigits(s) && '0' <= c <= '9'
    ensures AllDigits(s + [c]) && DigitsValue(s + [c]) == 10 * DigitsValue(s) + (c as int - 48)
    ensures DigitsValue("") == 0
  {
    assert (s + [c])[..|s|] == s;
  }

  // ---- audit keys ------------------------------------------------------------------------

  lemma FormatIntInjective(m: int, n: int)
    requires FormatInt(m) == FormatInt(n)
    ensures m == n
  {
    DecimalValue(if m < 0 then -m else m);
    DecimalValue(if n < 0 then -n else n);
    assert m < 0 <==> FormatInt(m)[0] == '-';
    assert n < 0 <==> FormatInt(n)[0] == '-';
    assert m < 0 ==> FormatInt(m)[1..] == Decimal(-m);
    assert n < 0 ==> FormatInt(n)[1..] == Decimal(-n);
  }

  /** The text after the last dash is determined. */
  lemma LastDashSplits(x: string, d: string, x': string, d': string)
    requires AllDigits(d) && AllDigits(d') && x + "-" + d == x' + "-" + d'
    ensures x == x' && d == d'
  {
    var s := x + "-" + d;
    assert s[|x|] == '-' && s[|x'|] == '-';
    assert forall i | |x| < i < |s| :: s[i] == d[i - |x| - 1];
    assert forall i | |x'| < i < |s| :: s[i] == d'[i - |x'| - 1];
    assert s[..|x|] == x && s[..|x'|] == x' && s[|x| + 1..] == d && s[|x'| + 1..] == d';
  }

  /** Audit keys never collide: they determine the clock reading and the sequence number. */
  lemma AuditKeyInjective(ns: int, seqNo: nat, ns': int, seqNo': nat)
    requires AuditKey(ns, seqNo) == AuditKey(ns', seqNo')
    ensures ns == ns' && seqNo == seqNo'
  {
    var k, k' := FormatInt(ns) + "-" + Decimal(seqNo), FormatInt(ns') + "-" + Decimal(seqNo');
    assert (k + JSON_SUFFIX)[..|k|] == k && (k' + JSON_SUFFIX)[..|k'|] == k';
    LastDashSplits(FormatInt(ns), Decimal(seqNo), FormatInt(ns'), Decimal(seqNo'));
    FormatIntInjective(ns, ns');
    DecimalValue(seqNo);
    DecimalValue(seqNo');
  }

  /** The text of an audit key. */
  lemma AuditKeyText(ns: nat, seqNo: nat)
    ensures exists a, b :: Spells(a, ns) && Spells(b, seqNo) && AuditKey(ns, seqNo) == a + "-" + b + ".json"
  {
    DecimalSpells(ns);
    DecimalSpells(seqNo);
  }

  /** No audit key carries a readable timestamp. */
  lemma AuditKeyHasNoNS(ns: int, seqNo: nat)
    ensures KeyNS(AuditKey(ns, seqNo)).None?
  {
    var key := AuditKey(ns, seqNo);
    var trim := FormatInt(ns) + "-" + Decimal(seqNo);
    assert key[|key| - 5..] == JSON_SUFFIX && key[..|key| - 5] == trim;
    var digits := if trim[0] == '+' || trim[0] == '-' then trim[1..] else trim;
    assert trim[|FormatInt(ns)|] == '-' && |FormatInt(ns)| > 0;
    assert digits[|digits| - |Decimal(seqNo)| - 1] == '-';
    assert '-' in digits;
  }

  // ---- filters ---------------------------------------------------------------------------

  datatype ListFilter = ListFilter(since: Option<int>, until: Option<int>, prefix: string, contains: string) {
    predicate HasBounds() {
      since.Some? || until.Some?
    }
  }

  predicate HasPrefix(s: string, p: string) {
    |p| <= |s| && s[..|p|] == p
  }

  predicate Contains(s: string, p: string) {
    exists i :: 0 <= i <= |s| && HasPrefix(s[i..], p)
  }

  predicate KeyMatchesFilter(key: string, f: ListFilter) {
    && (f.prefix != "" ==> HasPrefix(key, f.prefix))
    && (f.contains != "" ==> Contains(key, f.contains))
    && (f.HasBounds() ==>
          var ns := KeyNS(key);
          && ns.Some?
          && (f.since.Some? ==> f.since.value <= ns.value)
          && (f.until.Some? ==> ns.value <= f.until.value))
  }

  /** The filter in the caller's terms: the key begins with the prefix, has the other text
      somewhere inside, and carries a timestamp within the bounds that were given. */
  lemma KeyMatchesExactly(key: string, f: ListFilter)
    ensures KeyMatchesFilter(key, f) <==>
              && f.prefix <= key
              && (exists a, b :: key == a + f.contains + b)
              && (f.since.Some? || f.until.Some? ==>
                    exists n :: KeyNS(key) == Some(n)
                                && (f.since.Some? ==> f.since.value <= n) && (f.until.Some? ==> n <= f.until.value))
  {
    ContainsExactly(key, f.contains);
    if f.contains == "" { assert key == "" + f.contains + key; }
  }

  lemma ContainsExactly(s: string, p: string)
    ensures Contains(s, p) <==> exists a, b :: s == a + p + b
    ensures HasPrefix(s, p) <==> p <= s
  {
    if Contains(s, p) {
      var i :| 0 <= i <= |s| && HasPrefix(s[i..], p);
      assert s == s[..i] + p + s[i..][|p|..];
    }
    if a, b :| s == a + p + b {
      assert s[|a|..] == p + b && HasPrefix(s[|a|..], p);
    }
  }

  /** A bound that was given but is no readable non-negative number. */
  predicate BadBound(raw: string) {
    raw != "" && (ParseInt64(raw).None? || ParseInt64(raw).value < 0)
  }

  /** The accepted query parameters: what was given is kept, bounds are non-negative and in
      order; nothing else is refused. */
  function ParseFilterParams(since: string, until: string, prefix: string, contains: string): (r: Option<ListFilter>)
    ensures r.Some? ==>
              && (r.value.since.Some? ==> 0 <= r.value.since.value <= MAX_INT64)
              && (r.value.until.Some? ==> 0 <= r.value.until.value <= MAX_INT64)
              && (r.value.since.Some? && r.value.until.Some? ==> r.value.since.value <= r.value.until.value)
              && (r.value.HasBounds() <==> since != "" || until != "")
              && (since != "" ==> r.value.since == ParseInt64(since)) && (until != "" ==> r.value.until == ParseInt64(until))
              && r.value.prefix == prefix && r.value.contains == contains
    ensures r.None? <==> (since != "" && (ParseInt64(since).None? || ParseInt64(since).value < 0))
                         || (until != "" && (ParseInt64(until).None? || ParseInt64(until).value < 0))
                         || (since != "" && until != "" && ParseInt64(since).value > ParseInt64(until).value)
  {
    var s := if since == "" then None else ParseInt64(since);
    var u := if until == "" then None else ParseInt64(until);
    if BadBound(since) then None
    else if BadBound(until) then None
    else if s.Some? && u.Some? && s.value > u.value then None
    else Some(ListFilter(s, u, prefix, contains))
  }

  const DEFAULT_PAGE_LIMIT := 50
  const MAX_PAGE_LIMIT := 200

  /** The accepted page limit: always within 1..200, and as asked when that is possible. */
  function ParseLimit(raw: string): (r: Option<int>)
    ensures r.Some? ==> 1 <= r.value <= 200
    ensures raw == "" ==> r == Some(50)
    ensures r.Some? && raw != "" ==> ParseInt64(raw).Some? && (ParseInt64(raw).value > 200 ==> r.value == 200)
    ensures r.Some? && raw != "" ==> ParseInt64(raw).Some? && (ParseInt64(raw).value <= MAX_PAGE_LIMIT ==> r == ParseInt64(raw))
    ensures r.None? <==> raw != "" && (ParseInt64(raw).None? || ParseInt64(raw).value < 1)
  {
    if raw == "" then Some(DEFAULT_PAGE_LIMIT)
    else
      var n := ParseInt64(raw);
      if n.None? || n.value < 1 then None
      else if n.value > MAX_PAGE_LIMIT then Some(MAX_PAGE_LIMIT) else n
  }

  /** Over keys with numerals of one length, since/until picks one contiguous block, in time
      order, and picks it by time. */
  lemma BoundsSelectOneBlock(keys: seq<string>, ns: seq<nat>, f: ListFilter)
    requires Increasing(keys) && |keys| == |ns|
    requires forall i | 0 <= i < |ns| :: keys[i] == TimestampKey(ns[i]) && ns[i] <= MAX_INT64
    requires forall i, j | 0 <= i < |ns| && 0 <= j < |ns| :: |Decimal(ns[i])| == |Decimal(ns[j])|
    requires f.prefix == "" && f.contains == "" && f.HasBounds()
    ensures forall i, j | 0 <= i < j < |ns| :: ns[i] < ns[j]
    ensures forall i | 0 <= i < |ns| ::
              KeyMatchesFilter(keys[i], f) <==>
              (f.since.Some? ==> f.since.value <= ns[i]) && (f.until.Some? ==> ns[i] <= f.until.value)
    ensures forall i, j, k | 0 <= i < j < k < |keys| && KeyMatchesFilter(keys[i], f) && KeyMatchesFilter(keys[k], f)
              :: KeyMatchesFilter(keys[j], f)
  {
    forall i, j | 0 <= i < j < |ns| ensures ns[i] < ns[j] { TimestampOrder(ns[i], ns[j]); }
    forall i | 0 <= i < |ns| ensures KeyNS(keys[i]) == Some(ns[i]) { TimestampRoundTrip(ns[i]); }
  }
}
