/**
 * A reader for PDF files laid out as ISO 32000-1 sections 7.3.4.2 (literal strings), 7.3.7
 * (dictionaries), 7.3.8 (streams), 7.5.4 (cross-reference table) and 7.5.5 (trailer) describe. It
 * finds objects through the table and values by their names, and recovers from a written file
 * exactly the lines of every page.
 */
module PdfReader {
  import opened Wrappers
  import opened Text
  import opened Decimal
  import opened Pdf

  // ---- the reader ----

  /** A fixed piece of text followed by a number. */
  function Field(s: string, lit: string): Option<(nat, string)> {
    var r :- Strip(s, lit);
    TakeNat(r)
  }

  /** What follows the name `/key` where it first stands in `s`. */
  function Lookup(s: string, key: string): Option<string> {
    if s == [] then None
    else if s[0] == '/' && Strip(s[1..], key + " ").Some? then Strip(s[1..], key + " ")
    else Lookup(s[1..], key)
  }

  /** The number under `key`, and what follows it. */
  function LookupNat(s: string, key: string): Option<(nat, string)> {
    var r :- Lookup(s, key);
    TakeNat(r)
  }

  /** Under `key` stands the name `/name`. */
  predicate HasName(s: string, key: string, name: string) {
    var r := Lookup(s, key);
    r.Some? && "/" + name + " " <= r.value
  }

  predicate HasType(s: string, name: string) {
    HasName(s, "Type", name)
  }

  /** The number that ends `s`, and what stands before it. */
  function TakeNatBack(s: string): Option<(nat, string)> {
    var k := DigitSuffix(s);
    if k == |s| then None else Some((Value(s[k..]), s[..k]))
  }

  /** Where the trailing digits of `s` begin. */
  function DigitSuffix(s: string): (k: nat)
    ensures k <= |s| && AllDigits(s[k..])
    ensures k > 0 ==> !IsDigit(s[k - 1])
  {
    if s == [] then 0
    else if !IsDigit(s[|s| - 1]) then |s|
    else
      var k := DigitSuffix(s[..|s| - 1]);
      assert s[k..] == s[..|s| - 1][k..] + [s[|s| - 1]];
      k
  }

  /** The byte offset of the cross-reference table, found from the end of the file. */
  function StartXref(f: string): Option<nat> {
    var r :- StripEnd(f, "\n%%EOF\n");
    var (n, before) :- TakeNatBack(r);
    var _ :- StripEnd(before, "startxref\n");
    Some(n)
  }

  /** `n` entries of 20 bytes: ten digits, generation, type, end of line. */
  function ReadEntries(s: string, n: nat): Option<(seq<nat>, string)> {
    if n == 0 then Some(([], s))
    else
      var (offset, r) :- TakeFixed(s, 10);
      var r1 :- Strip(r, " 00000 n \n");
      var (offsets, r2) :- ReadEntries(r1, n - 1);
      Some(([offset] + offsets, r2))
  }

  /** The text after the header of object `num`, reached through its table entry. */
  function ReadObject(f: string, offsets: seq<nat>, num: nat): Option<string> {
    if num >= |offsets| || offsets[num] > |f| then None
    else
      var (n, r) :- TakeNat(f[offsets[num]..]);
      if n != num then None else Strip(r, " 0 obj\n")
  }

  /** References `n 0 R` separated by blanks. */
  function ReadRefs(s: string): Option<(seq<nat>, string)>
    decreases |s|
  {
    var (n, r) :- TakeNat(s);
    var r1 :- Strip(r, " 0 R");
    match Strip(r1, " ")
    case None => Some(([n], r1))
    case Some(r2) =>
      var (more, r3) :- ReadRefs(r2);
      Some(([n] + more, r3))
  }

  function ReadKids(f: string, offsets: seq<nat>, root: nat): Option<seq<nat>> {
    var catalog :- ReadObject(f, offsets, root);
    var (tree, _) :- LookupNat(catalog, "Pages");
    var text :- ReadObject(f, offsets, tree);
    var kids :- ReadTree(text);
    if HasType(catalog, "Catalog") then Some(kids) else None
  }

  /** The page tree: the references under /Kids, as many as /Count says. */
  function ReadTree(text: string): Option<seq<nat>> {
    var list :- Lookup(text, "Kids");
    var r :- Strip(list, "[");
    var (kids, r1) :- ReadRefs(r);
    var (count, _) :- LookupNat(r1, "Count");
    if count == |kids| && HasType(text, "Pages") then Some(kids) else None
  }

  /**
   * A literal string after its opening parenthesis, up to the matching closing one. A reverse
   * solidus stands before a reverse solidus or a parenthesis that is meant literally.
   */
  function Literal(s: string, depth: nat): Option<(string, string)> {
    if s == [] then None
    else if s[0] == '\\' then
      if |s| > 1 && s[1] in "\\()" then
        var (text, r) :- Literal(s[2..], depth);
        Some(([s[1]] + text, r))
      else None
    else if s[0] == ')' && depth == 0 then Some(([], s[1..]))
    else
      var (text, r) :- Literal(s[1..], if s[0] == '(' then depth + 1 else if s[0] == ')' then depth - 1 else depth);
      Some(([s[0]] + text, r))
  }

  /** The strings shown by a content stream after its preamble. */
  function ReadShown(s: string): Option<seq<string>>
    decreases |s|
  {
    var r :- Strip(s, "(");
    var (line, r1) :- Literal(r, 0);
    LiteralShrinks(r, 0);
    var r2 :- Strip(r1, " Tj T*");
    if r2 == "\nET" then Some([line])
    else
      var r3 :- Strip(r2, "\n");
      var more :- ReadShown(r3);
      Some([line] + more)
  }

  lemma {:induction false} LiteralShrinks(s: string, depth: nat)
    ensures Literal(s, depth).Some? ==> |Literal(s, depth).value.1| < |s|
  {
    if s == [] || (s[0] == ')' && depth == 0) {
    } else if s[0] == '\\' {
      if |s| > 1 {
        LiteralShrinks(s[2..], depth);
      }
    } else {
      LiteralShrinks(s[1..], if s[0] == '(' then depth + 1 else if s[0] == ')' then depth - 1 else depth);
    }
  }

  /** The page's font F1: one of the standard fonts, with the encoding that prints Latin-1. */
  predicate HasFont(f: string, offsets: seq<nat>, page: string) {
    var num := LookupNat(page, "F1");
    num.Some? &&
    var font := ReadObject(f, offsets, num.value.0);
    font.Some? && HasType(font.value, "Font") && HasName(font.value, "BaseFont", "Helvetica") &&
      HasName(font.value, "Encoding", "WinAnsiEncoding")
  }

  /** The lines of the page object `num`: its content stream is cut by its /Length. */
  function ReadPage(f: string, offsets: seq<nat>, num: nat): Option<seq<string>> {
    var page :- ReadObject(f, offsets, num);
    var (content, _) :- LookupNat(page, "Contents");
    var text :- ReadObject(f, offsets, content);
    if HasType(page, "Page") && HasFont(f, offsets, page) then ReadStream(text) else None
  }

  function ReadStream(text: string): Option<seq<string>> {
    var (length, r) :- LookupNat(text, "Length");
    var r1 :- Strip(r, " >>\nstream\n");
    if length > |r1| then None
    else
      var _ :- Strip(r1[length..], "\nendstream");
      var shown :- Strip(r1[..length], "BT\n/F1 11 Tf\n15.5 TL\n56 736 Td\n");
      ReadShown(shown)
  }

  function ReadPages(f: string, offsets: seq<nat>, kids: seq<nat>): Option<seq<seq<string>>> {
    if kids == [] then Some([])
    else
      var page :- ReadPage(f, offsets, kids[0]);
      var pages :- ReadPages(f, offsets, kids[1..]);
      Some([page] + pages)
  }

  /** The cross-reference table at the start of `s`, and the number of the root object. */
  function ReadXref(s: string): Option<(seq<nat>, nat)> {
    var (size, r) :- Field(s, "xref\n0 ");
    var r1 :- Strip(r, "\n");
    var r2 :- Strip(r1, "0000000000 65535 f \n");
    if size == 0 then None
    else
      var (offsets, r3) :- ReadEntries(r2, size - 1);
      var trailer :- Strip(r3, "trailer\n");
      var (count, r4) :- LookupNat(trailer, "Size");
      var (root, _) :- LookupNat(r4, "Root");
      if count == size then Some(([0] + offsets, root)) else None
  }

  function ReadPdf(f: string): Option<seq<seq<string>>> {
    var start :- StartXref(f);
    if start > |f| then None
    else
      var (offsets, root) :- ReadXref(f[start..]);
      var kids :- ReadKids(f, offsets, root);
      ReadPages(f, offsets, kids)
  }

  // ---- small steps ----

  lemma FieldOf(lit: string, n: nat, r: string)
    requires NoDigitFirst(r)
    ensures Field(lit + Digits(n) + r, lit) == Some((n, r))
  {
    assert lit + Digits(n) + r == lit + (Digits(n) + r);
    StripOf(lit, Digits(n) + r);
    TakeNatOf(n, r);
  }

  lemma {:induction false} LookupPast(before: string, s: string, key: string)
    requires Free(before, '/')
    ensures Lookup(before + s, key) == Lookup(s, key)
  {
    if before == [] {
      assert before + s == s;
    } else {
      assert (before + s)[1..] == before[1..] + s;
      LookupPast(before[1..], s, key);
    }
  }

  /** A name, a blank and a value. */
  function Pair(name: string, value: string): string {
    "/" + name + " " + value
  }

  /** The search passes over another name and what stands behind it. */
  lemma LookupPass(name: string, value: string, s: string, key: string)
    requires name != key && Free(name, '/') && Free(value, '/') && Free(name, ' ') && Free(key, ' ')
    ensures Lookup(Pair(name, value) + s, key) == Lookup(s, key)
  {
    var r, rest := value + s, name + " " + value;
    var t := name + [' '] + r;
    assert Pair(name, value) + s == "/" + t && t == rest + s;
    assert key + " " == key + [' '];
    if Strip(t, key + " ").Some? {
      PrefixDetermined(name, r, key, Strip(t, key + " ").value, ' ');
    }
    assert ("/" + t)[1..] == t;
    LookupPast(rest, s, key);
  }

  lemma LookupHit(key: string, r: string)
    ensures Lookup("/" + key + " " + r, key) == Some(r)
  {
    var t := key + " " + r;
    assert "/" + key + " " + r == "/" + t && ("/" + t)[1..] == t;
    StripOf(key + " ", r);
  }

  /** A number under `key`, behind text that holds no name. */
  lemma LookupNatOf(head: string, before: string, key: string, n: nat, r: string)
    requires head == before + ("/" + key + " ") && Free(before, '/') && NoDigitFirst(r)
    ensures LookupNat(head + Digits(n) + r, key) == Some((n, r))
  {
    hide Lookup, Digits;
    var name, rest := "/" + key + " ", Digits(n) + r;
    assert head + Digits(n) + r == before + (name + rest);
    LookupPast(before, name + rest, key);
    LookupHit(key, rest);
    TakeNatOf(n, r);
  }

  lemma {:induction false} DigitSuffixOf(p: string, d: string)
    requires p != [] && !IsDigit(p[|p| - 1]) && AllDigits(d)
    ensures DigitSuffix(p + d) == |p|
  {
    if d == [] {
      assert p + d == p;
    } else {
      DigitSuffixOf(p, d[..|d| - 1]);
      assert (p + d)[..|p + d| - 1] == p + d[..|d| - 1];
    }
  }

  lemma TakeNatBackOf(p: string, n: nat)
    requires p != [] && !IsDigit(p[|p| - 1])
    ensures TakeNatBack(p + Digits(n)) == Some((n, p))
  {
    var s := p + Digits(n);
    DigitSuffixOf(p, Digits(n));
    assert s[|p|..] == Digits(n) && s[..|p|] == p;
    ValueOfDigits(n);
  }

  lemma StartXrefOf(before: string, n: nat)
    ensures StartXref(before + START_XREF + Digits(n) + END_FILE) == Some(n)
  {
    var p := before + START_XREF;
    StripEndOf(p + Digits(n), END_FILE);
    assert p[|p| - 1] == START_XREF[|START_XREF| - 1] == '\n';
    TakeNatBackOf(p, n);
    StripEndOf(before, START_XREF);
  }

  // ---- literal strings ----

  lemma {:induction false} ReplaceAppend(a: string, b: string, c: char, sub: string)
    ensures ReplaceAll(a + b, c, sub) == ReplaceAll(a, c, sub) + ReplaceAll(b, c, sub)
  {
    if a == [] {
      assert a + b == b;
    } else {
      var head := if a[0] == c then sub else [a[0]];
      calc {
        ReplaceAll(a + b, c, sub);
        { assert (a + b)[1..] == a[1..] + b; }
        head + ReplaceAll(a[1..] + b, c, sub);
        { ReplaceAppend(a[1..], b, c, sub); }
        head + (ReplaceAll(a[1..], c, sub) + ReplaceAll(b, c, sub));
        ReplaceAll(a, c, sub) + ReplaceAll(b, c, sub);
      }
    }
  }

  function EscapedChar(c: char): string {
    if c == '\\' || c == '(' || c == ')' then ['\\', c] else [c]
  }

  lemma ReplaceOne(a: char, c: char, sub: string)
    ensures ReplaceAll([a], c, sub) == if a == c then sub else [a]
  {
    assert ReplaceAll([a][1..], c, sub) == [];
  }

  lemma ReplaceTwo(a: char, b: char, c: char, sub: string)
    requires a != c && b != c
    ensures ReplaceAll([a, b], c, sub) == [a, b]
  {
    ReplaceAppend([a], [b], c, sub);
    ReplaceOne(a, c, sub);
    ReplaceOne(b, c, sub);
    assert [a] + [b] == [a, b];
  }

  lemma EscapeOne(c: char)
    ensures EscapePdf([c]) == EscapedChar(c)
  {
    ReplaceOne(c, '\\', "\\\\");
    ReplaceOne(c, '(', "\\(");
    ReplaceOne(c, ')', "\\)");
    ReplaceTwo('\\', '\\', '(', "\\(");
    ReplaceTwo('\\', '\\', ')', "\\)");
    ReplaceTwo('\\', '(', ')', "\\)");
  }

  /** Escaping works character by character, whatever the order of the three replacements. */
  lemma EscapeFront(line: string)
    requires line != []
    ensures EscapePdf(line) == EscapedChar(line[0]) + EscapePdf(line[1..])
  {
    var c, rest := [line[0]], line[1..];
    var c1, r1 := ReplaceAll(c, '\\', "\\\\"), ReplaceAll(rest, '\\', "\\\\");
    assert line == c + rest;
    ReplaceAppend(c, rest, '\\', "\\\\");
    ReplaceAppend(c1, r1, '(', "\\(");
    ReplaceAppend(ReplaceAll(c1, '(', "\\("), ReplaceAll(r1, '(', "\\("), ')', "\\)");
    EscapeOne(line[0]);
  }

  lemma LiteralStep(c: char, t: string, line: string, r: string)
    requires Literal(t, 0) == Some((line, r))
    ensures Literal(EscapedChar(c) + t, 0) == Some(([c] + line, r))
  {
    var s := EscapedChar(c) + t;
    assert s[|EscapedChar(c)|..] == t;
  }

  /** Reading an escaped string back gives the string, up to the closing parenthesis. */
  lemma {:induction false} LiteralOf(line: string, r: string)
    ensures Literal(EscapePdf(line) + ")" + r, 0) == Some((line, r))
  {
    if line == [] {
      assert EscapePdf(line) == "";
      assert ("" + ")" + r)[1..] == r;
    } else {
      var e, t := EscapedChar(line[0]), EscapePdf(line[1..]) + ")" + r;
      calc {
        EscapePdf(line) + ")" + r;
        { EscapeFront(line); }
        e + t;
      }
      LiteralOf(line[1..], r);
      LiteralStep(line[0], t, line[1..], r);
      assert [line[0]] + line[1..] == line;
    }
  }

  // ---- pages ----

  lemma ShownStep(line: string, tail: string)
    ensures Strip(ShowLine(line) + tail, "(") == Some(EscapePdf(line) + ")" + (SHOW + tail))
    ensures Literal(EscapePdf(line) + ")" + (SHOW + tail), 0) == Some((line, SHOW + tail))
    ensures Strip(SHOW + tail, SHOW) == Some(tail)
  {
    assert ShowLine(line) + tail == "(" + (EscapePdf(line) + ")" + (SHOW + tail));
    StripOf("(", EscapePdf(line) + ")" + (SHOW + tail));
    LiteralOf(line, SHOW + tail);
    StripOf(SHOW, tail);
  }

  lemma ShownNext(line: string, t: string, more: seq<string>)
    requires t != [] && t[0] == '(' && ReadShown(t) == Some(more)
    ensures ReadShown(ShowLine(line) + ("\n" + t)) == Some([line] + more)
  {
    hide Literal, EscapePdf, ShowLine;
    ShownStep(line, "\n" + t);
    StripOf("\n", t);
    assert ("\n" + t)[1] == '(' && END_TEXT[1] == 'E';
  }

  lemma {:induction false} ShownOf(lines: seq<string>)
    requires lines != []
    ensures ReadShown(Join(ShowLines(lines), "\n") + END_TEXT) == Some(lines)
  {
    hide ReadShown, Join, ShowLines, ShowLine;
    var first, rest := lines[0], lines[1..];
    ShownFront(lines);
    if rest == [] {
      ShownLast(first);
      assert lines == [first];
    } else {
      ShownOf(rest);
      ShownFront(rest);
      ShownNext(first, Join(ShowLines(rest), "\n") + END_TEXT, rest);
      assert lines == [first] + rest;
    }
  }

  lemma ShownFront(lines: seq<string>)
    requires lines != []
    ensures var t := Join(ShowLines(lines), "\n") + END_TEXT;
      && t != [] && t[0] == '('
      && t == ShowLine(lines[0]) +
         (if |lines| == 1 then END_TEXT else "\n" + (Join(ShowLines(lines[1..]), "\n") + END_TEXT))
  {
    var first, rest := ShowLine(lines[0]), ShowLines(lines[1..]);
    ShowLineOpens(lines[0]);
    ShowLinesFront(lines);
    hide ShowLine, ShowLines, Join;
    JoinFirst(first, rest);
    if rest != [] {
      Regrouped(first, "\n", Join(rest, "\n"), END_TEXT);
    }
  }

  lemma Regrouped(a: string, b: string, c: string, d: string)
    ensures a + b + c + d == a + (b + (c + d))
  {
  }

  lemma ShowLinesFront(lines: seq<string>)
    requires lines != []
    ensures ShowLines(lines) == [ShowLine(lines[0])] + ShowLines(lines[1..])
    ensures |lines| == 1 <==> ShowLines(lines[1..]) == []
  {
    hide ShowLine;
  }

  lemma JoinFirst(first: string, rest: seq<string>)
    ensures Join([first] + rest, "\n") == if rest == [] then first else first + "\n" + Join(rest, "\n")
  {
    assert ([first] + rest)[1..] == rest;
  }

  lemma ShowLineOpens(line: string)
    ensures ShowLine(line) != [] && ShowLine(line)[0] == '('
  {
    hide EscapePdf;
  }

  lemma ShownLast(line: string)
    ensures ReadShown(ShowLine(line) + END_TEXT) == Some([line])
  {
    hide Literal, EscapePdf, ShowLine;
    ShownStep(line, END_TEXT);
  }

  lemma StreamOf(lines: seq<string>, r: string)
    requires lines != []
    ensures ReadStream(Show(Content(lines)) + r) == Some(lines)
  {
    hide Lookup, Strip, ContentStream, ReadShown, Digits;
    var stream := ContentStream(lines);
    var tail := stream + (END_STREAM + r);
    assert Show(Content(lines)) + r == LENGTH + Digits(|stream|) + (STREAM + tail);
    LookupNatOf(LENGTH, "<< ", "Length", |stream|, STREAM + tail);
    StripOf(STREAM, tail);
    assert tail[|stream|..] == END_STREAM + r && tail[..|stream|] == stream;
    StripOf(END_STREAM, r);
    ContentReads(lines);
  }

  lemma ContentReads(lines: seq<string>)
    requires lines != []
    ensures Strip(ContentStream(lines), HEAD).Some? && ReadShown(Strip(ContentStream(lines), HEAD).value) == Some(lines)
  {
    hide ReadShown, ShowLines;
    var shown := Join(ShowLines(lines), "\n") + END_TEXT;
    assert ContentStream(lines) == HEAD + shown;
    StripOf(HEAD, shown);
    ShownOf(lines);
  }

  lemma RefStep(n: nat, tail: string)
    ensures TakeNat(Digits(n) + REF + tail) == Some((n, REF + tail))
    ensures Strip(REF + tail, REF) == Some(tail)
  {
    assert Digits(n) + REF + tail == Digits(n) + (REF + tail);
    TakeNatOf(n, REF + tail);
    StripOf(REF, tail);
  }

  lemma RefNext(n: nat, t: string, more: seq<nat>, r: string)
    requires ReadRefs(t) == Some((more, r))
    ensures ReadRefs(Digits(n) + REF + (" " + t)) == Some(([n] + more, r))
  {
    RefStep(n, " " + t);
    StripOf(" ", t);
  }

  lemma {:induction false} RefsOf(nums: seq<nat>, r: string)
    requires nums != [] && r != [] && r[0] != ' '
    ensures ReadRefs(Join(KidRefs(nums), " ") + r) == Some((nums, r))
  {
    hide ReadRefs, Join, KidRefs, Digits;
    var n, rest := nums[0], nums[1..];
    RefsFront(nums, r);
    if rest == [] {
      RefLast(n, r);
      assert nums == [n];
    } else {
      RefsOf(rest, r);
      RefNext(n, Join(KidRefs(rest), " ") + r, rest, r);
      assert nums == [n] + rest;
    }
  }

  lemma RefsFront(nums: seq<nat>, r: string)
    requires nums != []
    ensures Join(KidRefs(nums), " ") + r ==
      Digits(nums[0]) + REF + (if |nums| == 1 then r else " " + (Join(KidRefs(nums[1..]), " ") + r))
  {
    hide Digits;
    var refs := KidRefs(nums);
    assert refs[1..] == KidRefs(nums[1..]) && refs[0] == Digits(nums[0]) + REF;
  }

  lemma RefLast(n: nat, r: string)
    requires r != [] && r[0] != ' '
    ensures ReadRefs(Digits(n) + REF + r) == Some(([n], r))
  {
    RefStep(n, r);
    assert " "[0] == ' ';
  }

  // ---- the cross-reference table ----

  const LIMIT := 1_0000_000_000

  lemma TenDigits(n: nat)
    ensures |Digits(n)| <= 10 <==> n < LIMIT
  {
    DigitCount(n, 10);
    assert Pow10(5) == 100000;
    assert Pow10(10) == 10 * 10 * 10 * 10 * 10 * Pow10(5) by {
      assert Pow10(7) == 100 * Pow10(5);
    }
  }

  /** Each entry below the limit takes exactly 20 bytes; a larger offset spoils the table. */
  lemma EntryOf(o: nat, r: string)
    ensures o < LIMIT ==> |Entry(o)| == 20 && TakeFixed(Entry(o) + r, 10) == Some((o, IN_USE + r))
    ensures o < LIMIT ==> Strip(IN_USE + r, IN_USE) == Some(r)
    ensures o >= LIMIT ==> ReadEntries(Entry(o) + r, 1) == None
  {
    TenDigits(o);
    var p := Pad(Digits(o), 10);
    assert Entry(o) + r == p + (IN_USE + r);
    if o < LIMIT {
      TakeFixedOf(o, 10, IN_USE + r);
      StripOf(IN_USE, r);
    } else {
      assert (Entry(o) + r)[10..][0] == p[10] && IN_USE[0] == ' ';
    }
  }

  /** One entry, and what is read of the rest. */
  lemma EntryNext(o: nat, t: string, n: nat)
    ensures o >= LIMIT ==> ReadEntries(Entry(o) + t, n + 1) == None
    ensures o < LIMIT && ReadEntries(t, n).None? ==> ReadEntries(Entry(o) + t, n + 1) == None
    ensures o < LIMIT && ReadEntries(t, n).Some? ==>
      ReadEntries(Entry(o) + t, n + 1) == Some(([o] + ReadEntries(t, n).value.0, ReadEntries(t, n).value.1))
  {
    hide Entry, Strip, TakeFixed;
    EntryOf(o, t);
  }

  lemma EntriesFront(offsets: seq<nat>, r: string)
    requires offsets != []
    ensures Entries(offsets) + r == Entry(offsets[0]) + (Entries(offsets[1..]) + r)
  {
    hide Entry;
    Assoc(Entry(offsets[0]), Entries(offsets[1..]), r);
  }

  ghost predicate AllBelow(offsets: seq<nat>) {
    forall i | 0 <= i < |offsets| :: offsets[i] < LIMIT
  }

  lemma AllBelowFront(offsets: seq<nat>)
    requires offsets != []
    ensures AllBelow(offsets) <==> offsets[0] < LIMIT && AllBelow(offsets[1..])
  {
    var rest := offsets[1..];
    assert forall i | 0 <= i < |rest| :: rest[i] == offsets[i + 1];
    if offsets[0] < LIMIT && AllBelow(rest) {
      forall i | 0 <= i < |offsets| ensures offsets[i] < LIMIT {
        assert i > 0 ==> offsets[i] == rest[i - 1];
      }
    }
  }

  lemma {:induction false} EntriesOf(offsets: seq<nat>, r: string)
    ensures ReadEntries(Entries(offsets) + r, |offsets|) == if AllBelow(offsets) then Some((offsets, r)) else None
  {
    hide Entry, Entries, ReadEntries, AllBelow;
    if offsets == [] {
      NoEntries(r);
    } else {
      var rest := offsets[1..];
      EntriesFront(offsets, r);
      EntryNext(offsets[0], Entries(rest) + r, |rest|);
      EntriesOf(rest, r);
      AllBelowFront(offsets);
      assert offsets == [offsets[0]] + rest;
    }
  }

  lemma NoEntries(r: string)
    ensures ReadEntries(Entries([]) + r, 0) == Some(([], r)) && AllBelow([])
  {
    assert "" + r == r;
  }

  lemma Assoc(a: string, b: string, r: string)
    ensures a + b + r == a + (b + r)
  {
  }

  lemma XrefOf(offsets: seq<nat>, x: nat)
    requires offsets != [] && offsets[0] == 0
    ensures ReadXref(XrefTable(offsets) + Trailer(|offsets|, x)) ==
      if AllBelow(offsets) then Some((offsets, 1)) else None
  {
    hide Trailer, Entries, ReadEntries, Digits, Field, Strip;
    var n, tail, rest := |offsets|, Trailer(|offsets|, x), offsets[1..];
    XrefHead(n, Entries(rest), tail);
    EntriesOf(rest, tail);
    TrailerOf(n, x);
    assert offsets == [0] + rest;
    AllBelowFront(offsets);
  }

  lemma XrefHead(n: nat, entries: string, tail: string)
    ensures var r := entries + tail;
      && Field(XREF + Digits(n) + "\n" + FREE_ENTRY + entries + tail, XREF) == Some((n, "\n" + (FREE_ENTRY + r)))
      && Strip("\n" + (FREE_ENTRY + r), "\n") == Some(FREE_ENTRY + r)
      && Strip(FREE_ENTRY + r, FREE_ENTRY) == Some(r)
  {
    var r := entries + tail;
    Regroup(XREF + Digits(n), "\n", FREE_ENTRY, entries, tail);
    FieldOf(XREF, n, "\n" + (FREE_ENTRY + r));
    StripOf("\n", FREE_ENTRY + r);
    StripOf(FREE_ENTRY, r);
  }

  lemma Regroup(a: string, b: string, c: string, d: string, r: string)
    ensures a + b + c + d + r == a + (b + (c + (d + r)))
  {
  }

  lemma TrailerOf(n: nat, x: nat)
    ensures var t := Strip(Trailer(n, x), "trailer\n");
      && t.Some? && LookupNat(t.value, "Size").Some?
      && LookupNat(t.value, "Size").value.0 == n
      && LookupNat(LookupNat(t.value, "Size").value.1, "Root").Some?
      && LookupNat(LookupNat(t.value, "Size").value.1, "Root").value.0 == 1
  {
    hide Lookup, Strip;
    var r1 := " 0 R >>\n" + START_XREF + Digits(x) + END_FILE;
    var r := ROOT + Digits(1) + r1;
    assert Trailer(n, x) == TRAILER + Digits(n) + r;
    SizeOf(n, r);
    LookupNatOf(ROOT, " ", "Root", 1, r1);
  }

  lemma SizeOf(n: nat, r: string)
    requires NoDigitFirst(r)
    ensures var t := Strip(TRAILER + Digits(n) + r, "trailer\n");
      t.Some? && LookupNat(t.value, "Size") == Some((n, r))
  {
    hide Lookup, Strip;
    var head := "<< /Size ";
    assert TRAILER == "trailer\n" + head;
    assert TRAILER + Digits(n) + r == "trailer\n" + (head + Digits(n) + r);
    StripOf("trailer\n", head + Digits(n) + r);
    LookupNatOf(head, "<< ", "Size", n, r);
  }

  // ---- objects ----

  /** The table entry of `num` points at the text of object `o`. */
  ghost predicate At(f: string, offsets: seq<nat>, num: nat, o: PdfObject) {
    num < |offsets| && offsets[num] <= |f| && Framed(num, o) <= f[offsets[num]..]
  }

  lemma ReadAt(f: string, offsets: seq<nat>, num: nat, o: PdfObject) returns (r: string)
    requires At(f, offsets, num, o)
    ensures ReadObject(f, offsets, num) == Some(Show(o) + r)
  {
    var s := f[offsets[num]..];
    var rest := s[|Framed(num, o)|..];
    r := END_OBJ + rest;
    assert s == Framed(num, o) + rest;
    Regroup(Digits(num), OBJ, Show(o), END_OBJ, rest);
    TakeNatOf(num, OBJ + (Show(o) + r));
    StripOf(OBJ, Show(o) + r);
  }

  /** The start of a dictionary of the given type. */
  function TypedHead(name: string): string {
    "<< /Type " + Pair(name, "")
  }

  lemma TypedOf(name: string, s: string, key: string)
    requires key != "Type" && key != name && Free(name, '/') && Free(name, ' ') && Free(key, ' ')
    ensures HasType(TypedHead(name) + s, name)
    ensures Lookup(TypedHead(name) + s, key) == Lookup(s, key)
  {
    hide Lookup;
    var t := Pair(name, "") + s;
    assert TypedHead(name) + s == "<< " + (Pair("Type", "") + t);
    LookupPast("<< ", Pair("Type", "") + t, "Type");
    assert Pair("Type", "") + t == "/" + "Type" + " " + t;
    LookupHit("Type", t);
    LookupPast("<< ", Pair("Type", "") + t, key);
    LookupPass("Type", "", t, key);
    LookupPass(name, "", s, key);
  }

  lemma CatalogIs()
    ensures CATALOG_HEAD == TypedHead("Catalog") + "/Pages "
  {
  }

  lemma CatalogOf(r: string)
    ensures var s := Show(Catalog) + r;
      HasType(s, "Catalog") && LookupNat(s, "Pages") == Some((2, " 0 R >>" + r))
  {
    hide Lookup, HasType, Digits, TypedHead;
    var head, rest := "/Pages ", " 0 R >>" + r;
    CatalogIs();
    assert Show(Catalog) + r == TypedHead("Catalog") + (head + Digits(2) + rest);
    TypedOf("Catalog", head + Digits(2) + rest, "Pages");
    LookupNatOf(head, "", "Pages", 2, rest);
  }

  lemma KidsOf(f: string, offsets: seq<nat>, kids: seq<nat>)
    requires kids != [] && At(f, offsets, 1, Catalog) && At(f, offsets, 2, PageTree(kids))
    ensures ReadKids(f, offsets, 1) == Some(kids)
  {
    hide Show, Lookup, HasType, At, ReadTree;
    var r1 := ReadAt(f, offsets, 1, Catalog);
    CatalogOf(r1);
    var r2 := ReadAt(f, offsets, 2, PageTree(kids));
    TreeOf(kids, r2);
  }

  lemma TreeOf(kids: seq<nat>, r: string)
    requires kids != []
    ensures ReadTree(Show(PageTree(kids)) + r) == Some(kids)
  {
    hide Lookup, HasType, ReadRefs, Digits, Join, KidRefs;
    var refs, end := Join(KidRefs(kids), " "), " >>" + r;
    var t := COUNT + Digits(|kids|) + end;
    RegroupTree(TREE_HEAD, refs, COUNT, Digits(|kids|), " >>", r);
    TreeHeadOf(refs + t);
    StripOf("[", refs + t);
    assert t[0] == COUNT[0] == ']';
    RefsOf(kids, t);
    LookupNatOf(COUNT, "] ", "Count", |kids|, end);
  }

  lemma TreeHeadIs()
    ensures TREE_HEAD == TypedHead("Pages") + "/Kids ["
  {
  }

  lemma TreeHeadOf(r: string)
    ensures HasType(TREE_HEAD + r, "Pages") && Lookup(TREE_HEAD + r, "Kids") == Some("[" + r)
  {
    hide Lookup, HasType, TypedHead;
    var t := "/" + "Kids" + " " + ("[" + r);
    TreeHeadIs();
    assert TREE_HEAD + r == TypedHead("Pages") + t;
    TypedOf("Pages", t, "Kids");
    LookupHit("Kids", "[" + r);
  }

  lemma RegroupTree(a: string, b: string, c: string, d: string, e: string, r: string)
    ensures a + b + c + d + e + r == a + (b + (c + d + (e + r)))
  {
  }

  /** What stands before the name of the page's content. */
  function BeforeContents(): string {
    Pair("Parent", "2 0 R ") + (Pair("MediaBox", "[0 0 612 792] ") +
      (Pair("Resources", "<< ") + (Pair("Font", "<< ") + Pair("F1", "3 0 R >> >> "))))
  }

  lemma FirstHalf()
    ensures TypedHead("Page") == "<< /Type /Page "
    ensures Pair("Parent", "2 0 R ") == "/Parent 2 0 R "
    ensures Pair("MediaBox", "[0 0 612 792] ") == "/MediaBox [0 0 612 792] "
  {
  }

  lemma SecondHalf()
    ensures Pair("Resources", "<< ") == "/Resources << "
    ensures Pair("Font", "<< ") == "/Font << "
    ensures Pair("F1", "3 0 R >> >> ") == "/F1 3 0 R >> >> "
  {
  }

  lemma PageHeadIs()
    ensures PAGE_HEAD == TypedHead("Page") + (BeforeContents() + "/Contents ")
  {
    hide TypedHead, Pair;
    FirstHalf();
    SecondHalf();
    Regroup7(TypedHead("Page"), Pair("Parent", "2 0 R "), Pair("MediaBox", "[0 0 612 792] "),
      Pair("Resources", "<< "), Pair("Font", "<< "), Pair("F1", "3 0 R >> >> "), "/Contents ");
  }

  lemma Regroup7(a: string, b: string, c: string, d: string, e: string, f: string, g: string)
    ensures a + b + c + d + e + f + g == a + ((b + (c + (d + (e + f)))) + g)
  {
  }

  lemma Pass4(a: string, b: string, c: string, d: string, e: string, r: string, key: string)
    requires forall s :: Lookup(a + s, key) == Lookup(s, key)
    requires forall s :: Lookup(b + s, key) == Lookup(s, key)
    requires forall s :: Lookup(c + s, key) == Lookup(s, key)
    requires forall s :: Lookup(d + s, key) == Lookup(s, key)
    ensures Lookup(a + (b + (c + (d + e))) + r, key) == Lookup(e + r, key)
  {
    hide Lookup;
    assert a + (b + (c + (d + e))) + r == a + (b + (c + (d + (e + r))));
  }

  lemma PassAll(name: string, value: string, key: string)
    requires name != key && Free(name, '/') && Free(value, '/') && Free(name, ' ') && Free(key, ' ')
    ensures forall s :: Lookup(Pair(name, value) + s, key) == Lookup(s, key)
  {
    forall s ensures Lookup(Pair(name, value) + s, key) == Lookup(s, key) {
      LookupPass(name, value, s, key);
    }
  }

  /** The names before the font are passed over. */
  lemma FontIsBehind(r: string, key: string)
    requires key == "Contents" || key == "F1"
    ensures Lookup(BeforeContents() + r, key) == Lookup(Pair("F1", "3 0 R >> >> ") + r, key)
  {
    hide Lookup, Pair;
    PassAll("Parent", "2 0 R ", key);
    PassAll("MediaBox", "[0 0 612 792] ", key);
    PassAll("Resources", "<< ", key);
    PassAll("Font", "<< ", key);
    Pass4(Pair("Parent", "2 0 R "), Pair("MediaBox", "[0 0 612 792] "), Pair("Resources", "<< "), Pair("Font", "<< "),
      Pair("F1", "3 0 R >> >> "), r, key);
  }

  /** The page dictionary up to its font. */
  lemma PageFontOf(r: string)
    ensures LookupNat(PAGE_HEAD + r, "F1") == Some((3, " 0 R >> >> " + ("/Contents " + r)))
  {
    hide Lookup, HasType, TypedHead, BeforeContents;
    var t := "/Contents " + r;
    PageHeadIs();
    assert PAGE_HEAD + r == TypedHead("Page") + (BeforeContents() + t);
    TypedOf("Page", BeforeContents() + t, "F1");
    FontIsBehind(t, "F1");
    var rest := " 0 R >> >> " + t;
    assert Digits(3) == "3";
    assert Pair("F1", "3 0 R >> >> ") + t == "/" + "F1" + " " + (Digits(3) + rest);
    LookupHit("F1", Digits(3) + rest);
    TakeNatOf(3, rest);
  }

  /** What stands in the font's dictionary behind its type. */
  function FontNames(): string {
    Pair("Subtype", "") + (Pair("Type1", "") + (Pair("BaseFont", "") + (Pair("Helvetica", "") +
      (Pair("Encoding", "") + (Pair("WinAnsiEncoding", "") + ">>")))))
  }

  lemma FontSpelled()
    ensures TypedHead("Font") == "<< /Type /Font " && Pair("Subtype", "") == "/Subtype "
    ensures Pair("Type1", "") == "/Type1 " && Pair("BaseFont", "") == "/BaseFont "
  {
  }

  lemma FontSpelledOn()
    ensures Pair("Helvetica", "") == "/Helvetica " && Pair("Encoding", "") == "/Encoding "
    ensures Pair("WinAnsiEncoding", "") == "/WinAnsiEncoding "
  {
  }

  lemma FontIs()
    ensures FONT == TypedHead("Font") + FontNames()
  {
    hide TypedHead, Pair;
    FontSpelled();
    FontSpelledOn();
    Regroup8(TypedHead("Font"), Pair("Subtype", ""), Pair("Type1", ""), Pair("BaseFont", ""), Pair("Helvetica", ""),
      Pair("Encoding", ""), Pair("WinAnsiEncoding", ""), ">>");
  }

  lemma Regroup8(a: string, b: string, c: string, d: string, e: string, f: string, g: string, h: string)
    ensures a + b + c + d + e + f + g + h == a + (b + (c + (d + (e + (f + (g + h))))))
  {
  }

  lemma FontNamesOf(r: string)
    ensures HasName(FontNames() + r, "BaseFont", "Helvetica")
    ensures HasName(FontNames() + r, "Encoding", "WinAnsiEncoding")
  {
    hide Lookup, Pair, HasName;
    var t0 := Pair("WinAnsiEncoding", "") + (">>" + r);
    var t1 := Pair("Encoding", "") + t0;
    var t2 := Pair("Helvetica", "") + t1;
    var t3 := Pair("BaseFont", "") + t2;
    var t4 := Pair("Type1", "") + t3;
    assert FontNames() + r == Pair("Subtype", "") + t4;
    NamePass("Subtype", t4, "BaseFont", "Helvetica");
    NamePass("Type1", t3, "BaseFont", "Helvetica");
    NamedOf("BaseFont", "Helvetica", t1);
    NamePass("Subtype", t4, "Encoding", "WinAnsiEncoding");
    NamePass("Type1", t3, "Encoding", "WinAnsiEncoding");
    NamePass("BaseFont", t2, "Encoding", "WinAnsiEncoding");
    NamePass("Helvetica", t1, "Encoding", "WinAnsiEncoding");
    NamedOf("Encoding", "WinAnsiEncoding", ">>" + r);
  }

  lemma NamePass(other: string, s: string, key: string, name: string)
    requires other != key && Free(other, '/') && Free(other, ' ') && Free(key, ' ')
    ensures HasName(Pair(other, "") + s, key, name) <==> HasName(s, key, name)
  {
    hide Lookup;
    LookupPass(other, "", s, key);
  }

  lemma NamedOf(key: string, name: string, r: string)
    ensures HasName(Pair(key, "") + (Pair(name, "") + r), key, name)
  {
    hide Lookup;
    var t := Pair(name, "") + r;
    assert Pair(key, "") + t == "/" + key + " " + t;
    LookupHit(key, t);
    assert Pair(name, "") == "/" + name + " ";
  }

  /** The page dictionary up to its content: the names and values before it are passed over. */
  lemma PageHeadOf(r: string)
    ensures HasType(PAGE_HEAD + r, "Page") && Lookup(PAGE_HEAD + r, "Contents") == Some(r)
  {
    hide Lookup, HasType, TypedHead, BeforeContents;
    var t := "/" + "Contents" + " " + r;
    PageHeadIs();
    assert PAGE_HEAD + r == TypedHead("Page") + (BeforeContents() + t);
    TypedOf("Page", BeforeContents() + t, "Contents");
    FontIsBehind(t, "Contents");
    LookupPass("F1", "3 0 R >> >> ", t, "Contents");
    LookupHit("Contents", r);
  }

  lemma FontOf(f: string, offsets: seq<nat>)
    requires At(f, offsets, 3, Font)
    ensures var font := ReadObject(f, offsets, 3);
      font.Some? && HasType(font.value, "Font") && HasName(font.value, "BaseFont", "Helvetica") &&
      HasName(font.value, "Encoding", "WinAnsiEncoding")
  {
    hide Lookup, At, TypedHead, FontNames;
    var r := ReadAt(f, offsets, 3, Font);
    FontIs();
    assert FONT + r == TypedHead("Font") + (FontNames() + r);
    TypedOf("Font", FontNames() + r, "BaseFont");
    TypedOf("Font", FontNames() + r, "Encoding");
    FontNamesOf(r);
  }

  lemma PageOf(f: string, offsets: seq<nat>, c: nat, lines: seq<string>)
    requires lines != [] && At(f, offsets, c, Content(lines)) && At(f, offsets, c + 1, Page(c)) &&
      At(f, offsets, 3, Font)
    ensures ReadPage(f, offsets, c + 1) == Some(lines)
  {
    hide Lookup, HasType, HasName, At, ReadStream;
    var r := ReadAt(f, offsets, c + 1, Page(c));
    var t := Digits(c) + (" 0 R >>" + r);
    assert Show(Page(c)) + r == PAGE_HEAD + t;
    PageHeadOf(t);
    PageFontOf(t);
    FontOf(f, offsets);
    TakeNatOf(c, " 0 R >>" + r);
    var r1 := ReadAt(f, offsets, c, Content(lines));
    StreamOf(lines, r1);
  }

  /** Every table entry leads to the object of its number. */
  ghost predicate Layout(f: string, offsets: seq<nat>, pages: seq<seq<string>>) {
    forall num | 1 <= num <= ObjectCount(pages) :: At(f, offsets, num, ObjectOf(pages, num))
  }

  lemma PageInLayout(f: string, offsets: seq<nat>, pages: seq<seq<string>>, i: nat)
    requires i < |pages| && pages[i] != [] && Layout(f, offsets, pages)
    ensures ReadPage(f, offsets, 5 + 2 * i) == Some(pages[i])
  {
    hide At, ReadPage, Show;
    var c := 4 + 2 * i;
    assert At(f, offsets, c, ObjectOf(pages, c)) && At(f, offsets, c + 1, ObjectOf(pages, c + 1));
    assert At(f, offsets, 3, ObjectOf(pages, 3));
    assert ObjectOf(pages, c) == Content(pages[i]) && ObjectOf(pages, c + 1) == Page(c);
    PageOf(f, offsets, c, pages[i]);
  }

  lemma KidsInLayout(f: string, offsets: seq<nat>, pages: seq<seq<string>>)
    requires pages != [] && Layout(f, offsets, pages)
    ensures ReadKids(f, offsets, 1) == Some(PageNumbers(|pages|))
  {
    hide At, ReadKids;
    assert ObjectOf(pages, 1) == Catalog && ObjectOf(pages, 2) == PageTree(PageNumbers(|pages|));
    KidsOf(f, offsets, PageNumbers(|pages|));
  }

  lemma {:induction false} PagesOf(f: string, offsets: seq<nat>, kids: seq<nat>, pages: seq<seq<string>>)
    requires |kids| == |pages|
    requires forall k | 0 <= k < |kids| :: ReadPage(f, offsets, kids[k]) == Some(pages[k])
    ensures ReadPages(f, offsets, kids) == Some(pages)
  {
    hide ReadPage;
    if kids != [] {
      PagesOf(f, offsets, kids[1..], pages[1..]);
      assert ReadPage(f, offsets, kids[0]) == Some(pages[0]);
      assert pages == [pages[0]] + pages[1..];
    }
  }

  // ---- the whole file ----

  lemma {:induction false} ThroughPrefix(pages: seq<seq<string>>, k: nat, n: nat)
    requires k <= n <= ObjectCount(pages)
    ensures Through(pages, k) <= Through(pages, n)
  {
    if k < n {
      ThroughPrefix(pages, k, n - 1);
    }
  }

  lemma {:induction false} OffsetsAt(pages: seq<seq<string>>, num: nat, k: nat)
    requires k <= num <= ObjectCount(pages)
    ensures Offsets(pages, num)[k] == if k == 0 then 0 else Offset(pages, k)
  {
    if k < num {
      OffsetsAt(pages, num - 1, k);
    }
  }

  lemma OffsetBelow(pages: seq<seq<string>>, n: nat, i: nat)
    requires 1 <= n <= ObjectCount(pages) && i <= n
    ensures Offsets(pages, n)[i] <= Offset(pages, n)
  {
    OffsetsAt(pages, n, i);
    if i > 0 {
      ThroughPrefix(pages, i - 1, n - 1);
    }
  }

  lemma PrefixAt(before: string, t: string, rest: string)
    ensures |before| <= |before + t + rest| && t <= (before + t + rest)[|before|..]
  {
    assert (before + t + rest)[|before|..] == t + rest;
  }

  lemma PrefixSplit(p: string, s: string, rest: string)
    requires p <= s
    ensures s + rest == p + (s[|p|..] + rest)
  {
  }

  /** Every offset in the table points at its own "n 0 obj". */
  lemma Placed(pages: seq<seq<string>>, num: nat)
    requires 1 <= num <= ObjectCount(pages)
    ensures At(Rendered(pages), Offsets(pages, ObjectCount(pages)), num, ObjectOf(pages, num))
  {
    hide Show, XrefTable, Trailer, ObjectOf;
    var n := ObjectCount(pages);
    var before, t := Through(pages, num - 1), ObjectText(pages, num);
    var objects := Through(pages, n);
    var tail := XrefTable(Offsets(pages, n)) + Trailer(n + 1, |objects|);
    OffsetsAt(pages, n, num);
    ThroughPrefix(pages, num, n);
    Assoc(objects, XrefTable(Offsets(pages, n)), Trailer(n + 1, |objects|));
    PrefixSplit(before + t, objects, tail);
    PrefixAt(before, t, objects[|before + t|..] + tail);
  }

  lemma TrailerEnd(p: string, size: nat, x: nat)
    ensures StartXref(p + Trailer(size, x)) == Some(x)
  {
    var start := TRAILER + Digits(size) + ROOT + Digits(1) + " 0 R >>\n";
    Regroup(p, start, START_XREF, Digits(x), END_FILE);
    Assoc4(start, START_XREF, Digits(x), END_FILE);
    StartXrefOf(p + start, x);
  }

  lemma Assoc4(a: string, b: string, c: string, d: string)
    ensures a + b + c + d == a + (b + (c + d))
  {
  }

  lemma RenderedStart(pages: seq<seq<string>>)
    ensures var n := ObjectCount(pages);
      var f, objects, offsets := Rendered(pages), Through(pages, n), Offsets(pages, n);
      && StartXref(f) == Some(|objects|)
      && |objects| <= |f|
      && f[|objects|..] == XrefTable(offsets) + Trailer(|offsets|, |objects|)
  {
    hide XrefTable, Trailer, StartXref;
    var n := ObjectCount(pages);
    var objects, table := Through(pages, n), XrefTable(Offsets(pages, n));
    TrailerEnd(objects + table, n + 1, |objects|);
    DropFirst(objects, table, Trailer(n + 1, |objects|));
  }

  lemma DropFirst(a: string, b: string, c: string)
    ensures (a + b + c)[|a|..] == b + c
  {
  }

  lemma ReadLayout(f: string, offsets: seq<nat>, pages: seq<seq<string>>)
    requires pages != [] && (forall k | 0 <= k < |pages| :: pages[k] != []) && Layout(f, offsets, pages)
    ensures ReadKids(f, offsets, 1) == Some(PageNumbers(|pages|))
    ensures ReadPages(f, offsets, PageNumbers(|pages|)) == Some(pages)
  {
    hide At, ReadPage, ReadKids;
    KidsInLayout(f, offsets, pages);
    var kids := PageNumbers(|pages|);
    forall k | 0 <= k < |kids| ensures ReadPage(f, offsets, kids[k]) == Some(pages[k]) {
      PageInLayout(f, offsets, pages, k);
    }
    PagesOf(f, offsets, kids, pages);
  }

  /**
   * A written file reads back as exactly its pages if every object begins below byte 10^10,
   * and not at all otherwise.
   */
  lemma ReadRendered(pages: seq<seq<string>>)
    requires pages != [] && forall k | 0 <= k < |pages| :: pages[k] != []
    ensures ReadPdf(Rendered(pages)) ==
      if Offset(pages, ObjectCount(pages)) < LIMIT then Some(pages) else None
  {
    hide Rendered, ReadXref, ReadKids, ReadPages, At, Trailer, XrefTable;
    var n := ObjectCount(pages);
    var f, offsets := Rendered(pages), Offsets(pages, n);
    RenderedStart(pages);
    OffsetsAt(pages, n, 0);
    XrefOf(offsets, |Through(pages, n)|);
    OffsetsAt(pages, n, n);
    if Offset(pages, n) < LIMIT {
      forall i | 0 <= i < |offsets| ensures offsets[i] < LIMIT {
        OffsetBelow(pages, n, i);
      }
      forall num | 1 <= num <= n ensures At(f, offsets, num, ObjectOf(pages, num)) {
        Placed(pages, num);
      }
      ReadLayout(f, offsets, pages);
    } else {
      assert offsets[n] >= LIMIT;
    }
  }

  /** What is written for a title and a body is what a reader finds: the wrapped text, page by page. */
  lemma SummaryRoundTrip(title: seq<CodeUnit>, body: seq<seq<CodeUnit>>)
    ensures var pages := Pages(title, body);
      ReadPdf(Rendered(pages)) == if Offset(pages, ObjectCount(pages)) < LIMIT then Some(pages) else None
  {
    PagesPartitionText(title, body);
    ReadRendered(Pages(title, body));
  }
}
