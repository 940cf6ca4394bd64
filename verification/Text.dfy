/** Splitting, joining and consuming strings, as the JavaScript library calls do. */
module Text {
  import opened Wrappers

  /** A UTF-16 code unit, the element of a JavaScript string. */
  newtype CodeUnit = u: int | 0 <= u < 0x1_0000

  /** One unit for a character of the basic plane, a surrogate pair for any other. */
  function UnitsOf(c: char): seq<CodeUnit> {
    var k := c as int;
    if k < 0x1_0000 then [k as CodeUnit]
    else [(0xD800 + (k - 0x1_0000) / 0x400) as CodeUnit, (0xDC00 + (k - 0x1_0000) % 0x400) as CodeUnit]
  }

  function Units(s: string): seq<CodeUnit> {
    if s == [] then [] else UnitsOf(s[0]) + Units(s[1..])
  }

  predicate Free(s: string, c: char) {
    c !in s
  }

  /** `s.split(sep)` for a one-character separator: always at least one piece. */
  function Split(s: string, sep: char): (parts: seq<string>)
    ensures |parts| >= 1
    ensures forall i | 0 <= i < |parts| :: Free(parts[i], sep)
  {
    if s == [] then [[]]
    else
      var rest := Split(s[1..], sep);
      if s[0] == sep then [[]] + rest
      else
        assert Free(rest[0], sep);
        [[s[0]] + rest[0]] + rest[1..]
  }

  /** `parts.join(sep)`. */
  function Join(parts: seq<string>, sep: string): string {
    if |parts| == 0 then ""
    else if |parts| == 1 then parts[0]
    else parts[0] + sep + Join(parts[1..], sep)
  }

  lemma {:induction false} SplitPiece(a: string, r: string, sep: char)
    requires Free(a, sep)
    ensures Split(a, sep) == [a]
    ensures Split(a + [sep] + r, sep) == [a] + Split(r, sep)
  {
    if a == [] {
      assert (a + [sep] + r)[1..] == r;
    } else {
      SplitPiece(a[1..], r, sep);
      assert (a + [sep] + r)[1..] == a[1..] + [sep] + r;
      assert a == [a[0]] + a[1..];
    }
  }

  lemma {:induction false} SplitAppend(a: string, b: string, sep: char)
    ensures Split(a + [sep] + b, sep) == Split(a, sep) + Split(b, sep)
  {
    hide Split;
    if a == [] {
      SplitPiece([], b, sep);
      assert [] + [sep] + b == [sep] + b;
    } else {
      SplitAppend(a[1..], b, sep);
      assert (a + [sep] + b)[1..] == a[1..] + [sep] + b;
      SplitFront(a, sep);
      SplitFront(a + [sep] + b, sep);
      FirstJoined(a[0], Split(a[1..], sep), Split(b, sep));
    }
  }

  lemma SplitFront(s: string, sep: char)
    requires s != []
    ensures var r := Split(s[1..], sep);
      Split(s, sep) == if s[0] == sep then [[]] + r else [[s[0]] + r[0]] + r[1..]
  {
  }

  lemma FirstJoined(c: char, ra: seq<string>, rb: seq<string>)
    requires ra != []
    ensures [[c] + (ra + rb)[0]] + (ra + rb)[1..] == ([[c] + ra[0]] + ra[1..]) + rb
    ensures [[]] + (ra + rb) == ([[]] + ra) + rb
  {
    assert (ra + rb)[1..] == ra[1..] + rb;
  }

  lemma {:induction false} SplitJoin(parts: seq<string>, sep: char)
    requires |parts| >= 1
    requires forall i | 0 <= i < |parts| :: Free(parts[i], sep)
    ensures Split(Join(parts, [sep]), sep) == parts
  {
    if |parts| == 1 {
      SplitPiece(parts[0], [], sep);
    } else {
      SplitPiece(parts[0], Join(parts[1..], [sep]), sep);
      SplitJoin(parts[1..], sep);
    }
  }

  lemma {:induction false} JoinSplit(s: string, sep: char)
    ensures Join(Split(s, sep), [sep]) == s
  {
    if s != [] {
      JoinSplit(s[1..], sep);
      var rest := Split(s[1..], sep);
      assert s == [s[0]] + s[1..];
      if s[0] != sep && |rest| > 1 {
        assert Split(s, sep)[1..] == rest[1..];
      } else if s[0] == sep {
        assert Split(s, sep)[1..] == rest;
      }
    }
  }

  /** The two strings part at the first separator: what stands before it is determined. */
  lemma PrefixDetermined(a: string, r: string, b: string, t: string, sep: char)
    requires Free(a, sep) && Free(b, sep)
    requires a + [sep] + r == b + [sep] + t
    ensures a == b && r == t
  {
    var x := a + [sep] + r;
    assert x[|a|] == sep && x[|b|] == sep;
    assert x[..|a|] == a && x[..|b|] == b;
    assert x[|a| + 1..] == r && x[|b| + 1..] == t;
  }

  /** `s` without the leading `lit`, if it starts that way. */
  function Strip(s: string, lit: string): (r: Option<string>)
    ensures r.Some? <==> lit <= s
    ensures r.Some? ==> s == lit + r.value
  {
    if lit <= s then Some(s[|lit|..]) else None
  }

  /** `s` without the trailing `lit`, if it ends that way. */
  function StripEnd(s: string, lit: string): (r: Option<string>)
    ensures r.Some? ==> s == r.value + lit
  {
    if |lit| <= |s| && s[|s| - |lit|..] == lit then Some(s[..|s| - |lit|]) else None
  }

  lemma StripOf(lit: string, r: string)
    ensures Strip(lit + r, lit) == Some(r)
  {
    assert (lit + r)[|lit|..] == r;
  }

  lemma StripEndOf(r: string, lit: string)
    ensures StripEnd(r + lit, lit) == Some(r)
  {
    assert (r + lit)[|r|..] == lit && (r + lit)[..|r|] == r;
  }

  function Flatten<T>(ss: seq<seq<T>>): seq<T> {
    if ss == [] then [] else ss[0] + Flatten(ss[1..])
  }

  lemma {:induction false} FlattenAppend<T>(a: seq<seq<T>>, b: seq<seq<T>>)
    ensures Flatten(a + b) == Flatten(a) + Flatten(b)
  {
    if a == [] {
      assert a + b == b;
    } else {
      calc {
        Flatten(a + b);
        { assert (a + b)[1..] == a[1..] + b; }
        a[0] + Flatten(a[1..] + b);
        { FlattenAppend(a[1..], b); }
        a[0] + (Flatten(a[1..]) + Flatten(b));
        Flatten(a) + Flatten(b);
      }
    }
  }

  /** The characters of `s` that differ from `c`, in order. */
  function Without(s: string, c: char): (r: string)
    ensures Free(s, c) ==> r == s
  {
    if s == [] then [] else (if s[0] == c then [] else [s[0]]) + Without(s[1..], c)
  }

  lemma {:induction false} WithoutAppend(a: string, b: string, c: char)
    ensures Without(a + b, c) == Without(a, c) + Without(b, c)
  {
    if a == [] {
      assert a + b == b;
    } else {
      var head := if a[0] == c then [] else [a[0]];
      calc {
        Without(a + b, c);
        { assert (a + b)[1..] == a[1..] + b; }
        head + Without(a[1..] + b, c);
        { WithoutAppend(a[1..], b, c); }
        head + (Without(a[1..], c) + Without(b, c));
        Without(a, c) + Without(b, c);
      }
    }
  }
}
