/** Decimal printing and reading of natural numbers: `n.toString()`, `padStart(w, '0')`. */
module Decimal {
  import opened Wrappers

  predicate IsDigit(c: char) {
    '0' <= c <= '9'
  }

  predicate AllDigits(s: string) {
    forall i | 0 <= i < |s| :: IsDigit(s[i])
  }

  function Digit(d: nat): (c: char)
    requires d < 10
    ensures IsDigit(c)
  {
    '0' + d as char
  }

  function Digits(n: nat): (s: string)
    ensures |s| >= 1 && AllDigits(s)
  {
    if n < 10 then [Digit(n)] else Digits(n / 10) + [Digit(n % 10)]
  }

  function Value(s: string): nat
    requires AllDigits(s)
  {
    if s == [] then 0 else 10 * Value(s[..|s| - 1]) + (s[|s| - 1] - '0') as nat
  }

  function Zeros(k: nat): (s: string)
    ensures |s| == k && AllDigits(s)
  {
    seq(k, _ => '0')
  }

  function Pad(s: string, w: nat): (r: string)
    ensures |r| == if |s| < w then w else |s|
    ensures AllDigits(s) ==> AllDigits(r)
  {
    if |s| < w then Zeros(w - |s|) + s else s
  }

  function Pow10(w: nat): nat {
    if w == 0 then 1 else 10 * Pow10(w - 1)
  }

  lemma {:induction false} ValueOfDigits(n: nat)
    ensures Value(Digits(n)) == n
  {
    if n >= 10 {
      ValueOfDigits(n / 10);
      assert Digits(n)[..|Digits(n)| - 1] == Digits(n / 10);
    }
  }

  lemma {:induction false} ValueOfZerosThen(k: nat, s: string)
    requires AllDigits(s)
    ensures Value(Zeros(k) + s) == Value(s)
  {
    var t := Zeros(k) + s;
    if s != [] {
      ValueOfZerosThen(k, s[..|s| - 1]);
      assert t[..|t| - 1] == Zeros(k) + s[..|s| - 1];
    } else if k > 0 {
      ValueOfZerosThen(k - 1, s);
      assert t[..|t| - 1] == Zeros(k - 1) + s;
    }
  }

  lemma ValueOfPadded(n: nat, w: nat)
    ensures Value(Pad(Digits(n), w)) == n
  {
    ValueOfDigits(n);
    if |Digits(n)| < w {
      ValueOfZerosThen(w - |Digits(n)|, Digits(n));
    }
  }

  lemma {:induction false} DigitCount(n: nat, w: nat)
    requires w >= 1
    ensures |Digits(n)| <= w <==> n < Pow10(w)
  {
    if w > 1 && n >= 10 {
      DigitCount(n / 10, w - 1);
      assert Pow10(w) == 10 * Pow10(w - 1);
    } else if n < 10 {
      Pow10Monotone(1, w);
    } else {
      assert Pow10(1) == 10;
    }
  }

  lemma {:induction false} Pow10Monotone(a: nat, b: nat)
    requires a <= b
    ensures Pow10(a) <= Pow10(b)
  {
    if a < b {
      Pow10Monotone(a, b - 1);
    }
  }

  /** The number of leading digits. */
  function DigitRun(s: string): (k: nat)
    ensures k <= |s| && AllDigits(s[..k])
    ensures k < |s| ==> !IsDigit(s[k])
  {
    if s == [] || !IsDigit(s[0]) then 0
    else
      var k := 1 + DigitRun(s[1..]);
      assert forall i | 1 <= i < k :: s[i] == s[1..][i - 1];
      k
  }

  /** Reads the longest digit run at the start of `s`. */
  function TakeNat(s: string): Option<(nat, string)> {
    var k := DigitRun(s);
    if k == 0 then None else Some((Value(s[..k]), s[k..]))
  }

  predicate NoDigitFirst(r: string) {
    r == [] || !IsDigit(r[0])
  }

  lemma DigitRunOf(d: string, r: string)
    requires AllDigits(d) && NoDigitFirst(r)
    ensures DigitRun(d + r) == |d|
  {
    var s, k := d + r, DigitRun(d + r);
    assert forall i | 0 <= i < |d| :: s[i] == d[i];
    assert forall i | 0 <= i < k :: IsDigit(s[..k][i]) && IsDigit(s[i]);
    assert r != [] ==> s[|d|] == r[0];
  }

  lemma TakeNatOf(n: nat, r: string)
    requires NoDigitFirst(r)
    ensures TakeNat(Digits(n) + r) == Some((n, r))
  {
    DigitRunOf(Digits(n), r);
    ValueOfDigits(n);
    assert (Digits(n) + r)[..|Digits(n)|] == Digits(n);
    assert (Digits(n) + r)[|Digits(n)|..] == r;
  }

  /** Reads exactly `w` digits at the start of `s`. */
  function TakeFixed(s: string, w: nat): Option<(nat, string)> {
    if w <= |s| && AllDigits(s[..w]) then Some((Value(s[..w]), s[w..])) else None
  }

  lemma TakeFixedOf(n: nat, w: nat, r: string)
    requires |Digits(n)| <= w
    ensures TakeFixed(Pad(Digits(n), w) + r, w) == Some((n, r))
  {
    var p := Pad(Digits(n), w);
    ValueOfPadded(n, w);
    assert (p + r)[..w] == p && (p + r)[w..] == r;
  }

  /**
   * Where a character sorts by its UTF-16 code units: surrogate pairs come before the characters
   * from U+E000 on.
   */
  function UnitRank(c: char): int {
    var k := c as int;
    if k < 0xE000 then k else if k < 0x1_0000 then k + 0x10_0000 else k - 0x1_0000 + 0xD800
  }

  lemma UnitRankInjective(a: char, b: char)
    requires UnitRank(a) == UnitRank(b)
    ensures a == b
  {
    assert a as int == b as int;
  }

  /** `a < b` on strings: lexicographic by code unit. */
  predicate Less(a: string, b: string) {
    if b == [] then false
    else if a == [] then true
    else UnitRank(a[0]) < UnitRank(b[0]) || (a[0] == b[0] && Less(a[1..], b[1..]))
  }

  lemma {:induction false} LessAfterPrefix(p: string, a: string, b: string)
    ensures Less(p + a, p + b) <==> Less(a, b)
  {
    if p == [] {
      assert p + a == a && p + b == b;
    } else {
      LessAfterPrefix(p[1..], a, b);
      assert (p + a)[1..] == p[1..] + a && (p + b)[1..] == p[1..] + b;
    }
  }

  lemma {:induction false} ValueBound(s: string)
    requires AllDigits(s)
    ensures Value(s) < Pow10(|s|)
  {
    if s != [] {
      ValueBound(s[..|s| - 1]);
    }
  }

  lemma {:induction false} ValueFromFront(s: string)
    requires AllDigits(s) && s != []
    ensures Value(s) == (s[0] - '0') as nat * Pow10(|s| - 1) + Value(s[1..])
  {
    if |s| == 1 {
      assert s[..0] == [] && s[1..] == [];
    } else {
      var t, d, e := s[..|s| - 1], (s[0] - '0') as nat, (s[|s| - 1] - '0') as nat;
      calc {
        Value(s);
        10 * Value(t) + e;
        { ValueFromFront(t); }
        10 * (d * Pow10(|t| - 1) + Value(t[1..])) + e;
        d * Pow10(|t|) + (10 * Value(t[1..]) + e);
        { assert s[1..][..|s| - 2] == t[1..]; }
        d * Pow10(|t|) + Value(s[1..]);
      }
    }
  }

  /** For equally long digit strings, string order is numeric order. */
  lemma {:induction false} LessIsNumeric(a: string, b: string)
    requires AllDigits(a) && AllDigits(b) && |a| == |b|
    ensures Less(a, b) <==> Value(a) < Value(b)
  {
    if a != [] {
      ValueFromFront(a);
      ValueFromFront(b);
      ValueBound(a[1..]);
      ValueBound(b[1..]);
      LessIsNumeric(a[1..], b[1..]);
      LeadingDigitDecides((a[0] - '0') as nat, (b[0] - '0') as nat, Pow10(|a| - 1), Value(a[1..]), Value(b[1..]));
    }
  }

  lemma LeadingDigitDecides(x: nat, y: nat, p: nat, u: nat, v: nat)
    requires u < p && v < p
    ensures x * p + u < y * p + v <==> x < y || (x == y && u < v)
  {
    if x < y {
      assert (x + 1) * p <= y * p;
    } else if y < x {
      assert (y + 1) * p <= x * p;
    }
  }

  lemma {:induction false} LessIrreflexive(a: string)
    ensures !Less(a, a)
  {
    if a != [] {
      LessIrreflexive(a[1..]);
    }
  }
}
