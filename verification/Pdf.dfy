/**
 * The hand-written PDF writer: sanitising, wrapping, escaping, pagination, object
 * numbering and the cross-reference table. Text comes in as UTF-16 code units and is
 * Latin-1 from `Sanitize` on, so one character of output is one byte.
 */
module Pdf {
  import opened Text
  import opened Decimal

  const PAGE_H := 792
  const MARGIN := 56
  const LEADING := 15.5
  const MAX_CHARS := 95

  /** Printable Latin-1 is kept; every other code unit becomes '?'. */
  function Sanitize(line: seq<CodeUnit>): (r: string)
    ensures |r| == |line|
    ensures forall i | 0 <= i < |r| :: ' ' <= r[i] <= '~' || '\U{A0}' <= r[i] <= '\U{FF}'
  {
    seq(|line|, i requires 0 <= i < |line| =>
      if 0x20 <= line[i] <= 0x7E || 0xA0 <= line[i] <= 0xFF then line[i] as char else '?')
  }

  /** `s.replace(/c/g, sub)`. */
  function ReplaceAll(s: string, c: char, sub: string): string {
    if s == [] then [] else (if s[0] == c then sub else [s[0]]) + ReplaceAll(s[1..], c, sub)
  }

  /** The three replacements, in the order the writer makes them. */
  function EscapePdf(line: string): string {
    ReplaceAll(ReplaceAll(ReplaceAll(line, '\\', "\\\\"), '(', "\\("), ')', "\\)")
  }

  /** Consecutive slices of length `n`; the last may be shorter. */
  function Slices<T>(s: seq<T>, n: nat): (r: seq<seq<T>>)
    requires n > 0
  {
    if s == [] then []
    else if |s| <= n then [s]
    else [s[..n]] + Slices(s[n..], n)
  }

  lemma {:induction false} SlicesPartition<T>(s: seq<T>, n: nat)
    requires n > 0
    ensures var r := Slices(s, n);
      && Flatten(r) == s
      && (forall i | 0 <= i < |r| :: 0 < |r[i]| <= n)
      && (forall i | 0 <= i < |r| - 1 :: |r[i]| == n)
  {
    if |s| > n {
      SlicesPartition(s[n..], n);
      assert s == s[..n] + s[n..];
    } else if s != [] {
      assert Flatten([s]) == s;
    }
  }

  /** The slicing loop, for the letters of an overlong word and for the lines of a document. */
  method Sliced<T>(s: seq<T>, n: nat) returns (out: seq<seq<T>>)
    requires n > 0
    ensures out == Slices(s, n)
  {
    out := [];
    var i := 0;
    while i < |s|
      invariant 0 <= i <= |s|
      invariant out + Slices(s[i..], n) == Slices(s, n)
    {
      var to := if i + n < |s| then i + n else |s|;
      NextSlice(s, n, i, to);
      assert out + Slices(s[i..], n) == out + [s[i..to]] + Slices(s[to..], n);
      out := out + [s[i..to]];
      i := to;
    }
  }

  lemma NextSlice<T>(s: seq<T>, n: nat, i: nat, to: nat)
    requires n > 0 && i < |s| && to == if i + n < |s| then i + n else |s|
    ensures Slices(s[i..], n) == [s[i..to]] + Slices(s[to..], n)
  {
    assert s[i..][..to - i] == s[i..to];
    if to < |s| {
      assert s[i..][n..] == s[to..];
    } else {
      assert s[i..] == s[i..to];
    }
  }

  // ---- wrapping ----

  /** The loop state of the wrapper: finished lines and the line being filled. */
  datatype Wrapping = Wrapping(out: seq<string>, cur: string)

  function Pushed(out: seq<string>, cur: string): seq<string> {
    if cur == "" then out else out + [cur]
  }

  function Extended(cur: string, word: string): string {
    if cur == "" then word else cur + " " + word
  }

  function AddWord(w: Wrapping, word: string, max: nat): Wrapping
    requires max > 0
  {
    if |w.cur + (if w.cur == "" then "" else " ") + word| > max then
      var out := Pushed(w.out, w.cur);
      if |word| > max then Wrapping(out + Slices(word, max), "") else Wrapping(out, word)
    else
      Wrapping(w.out, Extended(w.cur, word))
  }

  function AddWords(words: seq<string>, max: nat): Wrapping
    requires max > 0
  {
    if words == [] then Wrapping([], "")
    else AddWord(AddWords(words[..|words| - 1], max), words[|words| - 1], max)
  }

  function Wrapped(line: string, max: nat): seq<string>
    requires max > 0
  {
    if |line| <= max then [line]
    else
      var w := AddWords(Split(line, ' '), max);
      var out := Pushed(w.out, w.cur);
      if out == [] then [""] else out
  }

  lemma AddWordsNext(words: seq<string>, k: nat, max: nat)
    requires k < |words| && max > 0
    ensures AddWords(words[..k + 1], max) == AddWord(AddWords(words[..k], max), words[k], max)
  {
    hide AddWord;
    assert words[..k + 1][..k] == words[..k];
  }

  method WrapLine(line: string, max: nat) returns (out: seq<string>)
    requires max > 0
    ensures out == Wrapped(line, max)
    ensures |out| >= 1 && forall i | 0 <= i < |out| :: |out[i]| <= max
    ensures Without(Flatten(out), ' ') == Without(line, ' ')
  {
    WrappedFits(line, max);
    WrappedKeepsText(line, max);
    hide Without, Flatten, Slices, AddWords, Split;
    if |line| <= max {
      return [line];
    }
    var words := Split(line, ' ');
    out := [];
    var cur := "";
    NoText(max);
    for k := 0 to |words|
      invariant Wrapping(out, cur) == AddWords(words[..k], max)
    {
      var w := words[k];
      AddWordsNext(words, k, max);
      if |cur + (if cur != "" then " " else "") + w| > max {
        if cur != "" {
          out := out + [cur];
        }
        if |w| > max {
          var pieces := Sliced(w, max);
          out := out + pieces;
          cur := "";
        } else {
          cur := w;
        }
      } else {
        cur := if cur != "" then cur + " " + w else w;
      }
    }
    assert words[..|words|] == words;
    if cur != "" {
      out := out + [cur];
    }
    out := if |out| > 0 then out else [""];
  }

  lemma AddWordFits(w: Wrapping, word: string, max: nat)
    requires max > 0 && |w.cur| <= max && forall i | 0 <= i < |w.out| :: |w.out[i]| <= max
    ensures var r := AddWord(w, word, max);
      |r.cur| <= max && forall i | 0 <= i < |r.out| :: |r.out[i]| <= max
  {
    SlicesPartition(word, max);
  }

  lemma {:induction false} AddWordsFits(words: seq<string>, max: nat)
    requires max > 0
    ensures var w := AddWords(words, max);
      |w.cur| <= max && forall i | 0 <= i < |w.out| :: |w.out[i]| <= max
  {
    if words != [] {
      AddWordsFits(words[..|words| - 1], max);
      AddWordFits(AddWords(words[..|words| - 1], max), words[|words| - 1], max);
    }
  }

  lemma WrappedFits(line: string, max: nat)
    requires max > 0
    ensures |Wrapped(line, max)| >= 1
    ensures forall i | 0 <= i < |Wrapped(line, max)| :: |Wrapped(line, max)[i]| <= max
  {
    AddWordsFits(Split(line, ' '), max);
  }

  lemma {:induction false} FlattenJoin(parts: seq<string>)
    ensures Without(Join(parts, " "), ' ') == Without(Flatten(parts), ' ')
  {
    if |parts| == 1 {
      assert Flatten(parts) == parts[0];
    } else if |parts| > 1 {
      var rest := Join(parts[1..], " ");
      calc {
        Without(Join(parts, " "), ' ');
        { WithoutAppend(parts[0] + " ", rest, ' '); }
        Without(parts[0] + " ", ' ') + Without(rest, ' ');
        { WithoutAppend(parts[0], " ", ' '); assert Without(" ", ' ') == ""; }
        Without(parts[0], ' ') + Without(rest, ' ');
        { FlattenJoin(parts[1..]); }
        Without(parts[0], ' ') + Without(Flatten(parts[1..]), ' ');
        { WithoutAppend(parts[0], Flatten(parts[1..]), ' '); }
        Without(Flatten(parts), ' ');
      }
    }
  }

  lemma PushedText(out: seq<string>, cur: string)
    ensures Flatten(Pushed(out, cur)) == Flatten(out) + cur
  {
    FlattenAppend(out, [cur]);
    assert Flatten([cur]) == cur;
  }

  /** One word more in the wrapper's state is one word more in its text, blanks aside. */
  lemma AddWordKeepsText(w: Wrapping, word: string, max: nat)
    requires max > 0
    ensures var r := AddWord(w, word, max);
      Without(Flatten(r.out) + r.cur, ' ') == Without(Flatten(w.out) + w.cur, ' ') + Without(word, ' ')
  {
    var r := AddWord(w, word, max);
    if |w.cur + (if w.cur == "" then "" else " ") + word| > max {
      BrokenText(w, word, max);
      WithoutAppend(Flatten(w.out) + w.cur, word, ' ');
    } else {
      WithoutAppend(Flatten(w.out), Extended(w.cur, word), ' ');
      WithoutAppend(Flatten(w.out), w.cur, ' ');
      ExtendedText(w.cur, word);
    }
  }

  lemma ExtendedText(cur: string, word: string)
    ensures Without(Extended(cur, word), ' ') == Without(cur, ' ') + Without(word, ' ')
  {
    WithoutAppend(cur + " ", word, ' ');
    WithoutAppend(cur, " ", ' ');
  }

  lemma BrokenText(w: Wrapping, word: string, max: nat)
    requires max > 0
    requires |w.cur + (if w.cur == "" then "" else " ") + word| > max
    ensures var r := AddWord(w, word, max);
      Flatten(r.out) + r.cur == Flatten(w.out) + w.cur + word
  {
    PushedText(w.out, w.cur);
    if |word| > max {
      FlattenAppend(Pushed(w.out, w.cur), Slices(word, max));
      SlicesPartition(word, max);
    }
  }

  lemma {:induction false} AddWordsKeepsText(words: seq<string>, max: nat)
    requires max > 0
    ensures var w := AddWords(words, max);
      Without(Flatten(w.out) + w.cur, ' ') == Without(Flatten(words), ' ')
  {
    hide AddWord, Flatten, Without, Slices;
    if words == [] {
      NoText(max);
    } else {
      var init, last := words[..|words| - 1], words[|words| - 1];
      AddWordsKeepsText(init, max);
      AddWordKeepsText(AddWords(init, max), last, max);
      assert words == init + [last];
      TextPush(init, last);
    }
  }

  lemma NoText(max: nat)
    requires max > 0
    ensures AddWords([], max) == Wrapping([], "") && Flatten<char>([]) == ""
  {
  }

  lemma TextPush(words: seq<string>, word: string)
    ensures Without(Flatten(words + [word]), ' ') == Without(Flatten(words), ' ') + Without(word, ' ')
  {
    hide Without;
    FlattenAppend(words, [word]);
    assert [word][1..] == [] && Flatten([word]) == word;
    WithoutAppend(Flatten(words), word, ' ');
  }

  /** Wrapping loses and invents nothing but blanks. */
  lemma WrappedKeepsText(line: string, max: nat)
    requires max > 0
    ensures Without(Flatten(Wrapped(line, max)), ' ') == Without(line, ' ')
  {
    if |line| <= max {
      assert Flatten([line]) == line;
    } else {
      var words := Split(line, ' ');
      var w := AddWords(words, max);
      AddWordsKeepsText(words, max);
      PushedText(w.out, w.cur);
      FlattenJoin(words);
      JoinSplit(line, ' ');
      assert Flatten([""]) == "";
    }
  }

  predicate ProperWords(words: seq<string>, max: nat) {
    forall i | 0 <= i < |words| :: 0 < |words[i]| <= max
  }

  lemma JoinPush(parts: seq<string>, last: string)
    requires parts != []
    ensures Join(parts + [last], " ") == Join(parts, " ") + " " + last
  {
    if |parts| > 1 {
      JoinPush(parts[1..], last);
      assert (parts + [last])[1..] == parts[1..] + [last];
    } else {
      assert (parts + [last])[1..] == [last];
    }
  }

  /** A line break replaces exactly one blank, and only where the next word did not fit. */
  ghost predicate GreedyBreaks(out: seq<string>, max: nat) {
    |out| > 1 ==>
      var k := |out| - 1;
      GreedyBreaks(out[..k], max) && |out[k - 1]| + 1 + |Split(out[k], ' ')[0]| > max
  }

  lemma FirstWord(cur: string, word: string)
    requires Free(word, ' ')
    ensures Split(word, ' ')[0] == word
    ensures cur != "" ==> Split(cur + " " + word, ' ')[0] == Split(cur, ' ')[0]
  {
    SplitPiece(word, [], ' ');
    if cur != "" {
      var parts := Split(cur, ' ');
      JoinSplit(cur, ' ');
      JoinPush(parts, word);
      SplitJoin(parts + [word], ' ');
    }
  }

  /** What the wrapper holds after a nonempty run of proper words. */
  ghost predicate Greedy(w: Wrapping, words: seq<string>, max: nat) {
    && w.cur != ""
    && Join(w.out + [w.cur], " ") == Join(words, " ")
    && GreedyBreaks(w.out + [w.cur], max)
  }

  lemma AddWordGreedy(w: Wrapping, words: seq<string>, word: string, max: nat)
    requires words != [] && Greedy(w, words, max)
    requires 0 < |word| <= max && Free(word, ' ')
    ensures Greedy(AddWord(w, word, max), words + [word], max)
  {
    var r := AddWord(w, word, max);
    var lines := w.out + [w.cur];
    JoinPush(words, word);
    FirstWord(w.cur, word);
    if |w.cur + " " + word| > max {
      JoinPush(lines, word);
      assert r.out + [r.cur] == lines + [word];
      assert (lines + [word])[..|lines|] == lines;
    } else {
      assert r.out + [r.cur] == w.out + [w.cur + " " + word];
      assert (r.out + [r.cur])[..|w.out|] == lines[..|w.out|] == w.out;
      LastExtended(w.out, w.cur, word);
    }
  }

  lemma LastExtended(out: seq<string>, cur: string, word: string)
    ensures Join(out + [cur + " " + word], " ") == Join(out + [cur], " ") + " " + word
  {
    if out != [] {
      JoinPush(out, cur);
      JoinPush(out, cur + " " + word);
    } else {
      assert out + [cur] == [cur] && out + [cur + " " + word] == [cur + " " + word];
    }
  }

  lemma {:induction false} AddWordsGreedy(words: seq<string>, max: nat)
    requires max > 0 && words != [] && ProperWords(words, max)
    requires forall i | 0 <= i < |words| :: Free(words[i], ' ')
    ensures Greedy(AddWords(words, max), words, max)
  {
    hide Greedy, AddWord, Slices;
    var init, last := words[..|words| - 1], words[|words| - 1];
    assert words == init + [last];
    if init == [] {
      FirstIsGreedy(last, max);
      assert words == [last];
    } else {
      AddWordsGreedy(init, max);
      AddWordGreedy(AddWords(init, max), init, last, max);
    }
  }

  lemma FirstIsGreedy(word: string, max: nat)
    requires 0 < |word| <= max
    ensures Greedy(AddWords([word], max), [word], max)
  {
    assert [word][..0] == [] && AddWords([], max) == Wrapping([], "");
    assert AddWords([word], max) == Wrapping([], word);
    assert [] + [word] == [word];
  }

  /**
   * For single-spaced text whose words all fit, the wrapped lines joined by blanks are the
   * original line, and every break was forced by the word after it.
   */
  lemma WrappedIsGreedy(line: string, max: nat)
    requires max > 0 && ProperWords(Split(line, ' '), max)
    ensures Join(Wrapped(line, max), " ") == line
    ensures GreedyBreaks(Wrapped(line, max), max)
  {
    if |line| > max {
      AddWordsGreedy(Split(line, ' '), max);
      JoinSplit(line, ' ');
    }
  }

  // ---- pages and objects ----

  function MaxLinesPerPage(): (n: nat)
    ensures n == 43
  {
    ((PAGE_H - 2 * MARGIN) as real / LEADING).Floor
  }

  function Repeated(u: CodeUnit, n: nat): seq<CodeUnit> {
    seq(n, _ => u)
  }

  /** Title, underline and blank line, followed by the body. */
  function AllLines(title: seq<CodeUnit>, body: seq<seq<CodeUnit>>): seq<seq<CodeUnit>> {
    var len := if |title| == 0 then 1 else |title|;
    [title, Repeated(0x3D, if len < MAX_CHARS then len else MAX_CHARS), []] + body
  }

  function WrappedLines(lines: seq<seq<CodeUnit>>): seq<string> {
    if lines == [] then []
    else WrappedLines(lines[..|lines| - 1]) + Wrapped(Sanitize(lines[|lines| - 1]), MAX_CHARS)
  }

  function Pages(title: seq<CodeUnit>, body: seq<seq<CodeUnit>>): seq<seq<string>> {
    Slices(WrappedLines(AllLines(title, body)), MaxLinesPerPage())
  }

  const SHOW := " Tj T*"
  const END_TEXT := "\nET"
  const HEAD := "BT\n/F1 11 Tf\n15.5 TL\n56 736 Td\n"

  function ShowLine(line: string): string {
    "(" + EscapePdf(line) + ")" + SHOW
  }

  function ShowLines(lines: seq<string>): seq<string> {
    if lines == [] then [] else [ShowLine(lines[0])] + ShowLines(lines[1..])
  }

  function ContentStream(lines: seq<string>): string {
    HEAD + Join(ShowLines(lines), "\n") + END_TEXT
  }

  function PageNumbers(count: nat): (nums: seq<nat>) {
    seq(count, i => 5 + 2 * i)
  }

  function KidRefs(nums: seq<nat>): (refs: seq<string>)
    ensures |refs| == |nums|
  {
    seq(|nums|, i requires 0 <= i < |nums| => Digits(nums[i]) + REF)
  }

  /** The kinds of object the writer makes. */
  datatype PdfObject = Catalog | PageTree(kids: seq<nat>) | Font | Page(contentNum: nat) | Content(lines: seq<string>)

  const REF := " 0 R"
  const OBJ := " 0 obj\n"
  const END_OBJ := "\nendobj\n"
  const COUNT := "] /Count "
  const LENGTH := "<< /Length "
  const STREAM := " >>\nstream\n"
  const END_STREAM := "\nendstream"
  const CATALOG_HEAD := "<< /Type /Catalog /Pages "
  const TREE_HEAD := "<< /Type /Pages /Kids ["
  const PAGE_HEAD := "<< /Type /Page " + "/Parent 2 0 R " + "/MediaBox [0 0 612 792] " +
    "/Resources << " + "/Font << " + "/F1 3 0 R >> >> " + "/Contents "
  const FONT := "<< /Type /Font " + "/Subtype " + "/Type1 " + "/BaseFont " + "/Helvetica " + "/Encoding " +
    "/WinAnsiEncoding " + ">>"

  /** The body of an object, as the writer spells it. */
  function Show(o: PdfObject): string {
    match o
    case Catalog => CATALOG_HEAD + Digits(2) + " 0 R >>"
    case PageTree(kids) => TREE_HEAD + Join(KidRefs(kids), " ") + COUNT + Digits(|kids|) + " >>"
    case Font => FONT
    case Page(contentNum) => PAGE_HEAD + Digits(contentNum) + " 0 R >>"
    case Content(lines) =>
      var stream := ContentStream(lines);
      LENGTH + Digits(|stream|) + STREAM + stream + END_STREAM
  }

  function ObjectCount(pages: seq<seq<string>>): nat {
    3 + 2 * |pages|
  }

  /** Object `num` of the file: page `i` has its content in `4 + 2 * i` and itself in `5 + 2 * i`. */
  function ObjectOf(pages: seq<seq<string>>, num: nat): PdfObject
    requires 1 <= num <= ObjectCount(pages)
  {
    if num == 1 then Catalog
    else if num == 2 then PageTree(PageNumbers(|pages|))
    else if num == 3 then Font
    else if num % 2 == 0 then Content(pages[(num - 4) / 2])
    else Page(num - 1)
  }

  function Framed(num: nat, o: PdfObject): string {
    Digits(num) + OBJ + Show(o) + END_OBJ
  }

  function ObjectText(pages: seq<seq<string>>, num: nat): string
    requires 1 <= num <= ObjectCount(pages)
  {
    Framed(num, ObjectOf(pages, num))
  }

  const FILE_HEAD := "%PDF-1.4\n%\U{E2}\U{E3}\U{CF}\U{D3}\n"

  /** The file up to and including object `num`. */
  function Through(pages: seq<seq<string>>, num: nat): string
    requires num <= ObjectCount(pages)
  {
    if num == 0 then FILE_HEAD else Through(pages, num - 1) + ObjectText(pages, num)
  }

  function Offset(pages: seq<seq<string>>, num: nat): nat
    requires 1 <= num <= ObjectCount(pages)
  {
    |Through(pages, num - 1)|
  }

  /** The offsets by object number; entry 0 is not an object. */
  function Offsets(pages: seq<seq<string>>, num: nat): (offsets: seq<nat>)
    requires num <= ObjectCount(pages)
    ensures |offsets| == num + 1
  {
    if num == 0 then [0] else Offsets(pages, num - 1) + [Offset(pages, num)]
  }

  const XREF := "xref\n0 "
  const FREE_ENTRY := "0000000000 65535 f \n"

  const IN_USE := " 00000 n \n"

  function Entry(offset: nat): string {
    Pad(Digits(offset), 10) + IN_USE
  }

  function EntryTexts(offsets: seq<nat>): (texts: seq<string>) {
    if offsets == [] then [] else [Entry(offsets[0])] + EntryTexts(offsets[1..])
  }

  function Entries(offsets: seq<nat>): string {
    Flatten(EntryTexts(offsets))
  }

  lemma {:induction false} EntriesPush(offsets: seq<nat>, o: nat)
    ensures Entries(offsets + [o]) == Entries(offsets) + Entry(o)
  {
    EntryTextsPush(offsets, o);
    FlattenAppend(EntryTexts(offsets), [Entry(o)]);
    assert Flatten([Entry(o)]) == Entry(o);
  }

  lemma {:induction false} EntryTextsPush(offsets: seq<nat>, o: nat)
    ensures EntryTexts(offsets + [o]) == EntryTexts(offsets) + [Entry(o)]
  {
    if offsets == [] {
      assert [] + [o] == [o];
    } else {
      EntryTextsPush(offsets[1..], o);
      assert (offsets + [o])[1..] == offsets[1..] + [o];
    }
  }

  function XrefTable(offsets: seq<nat>): string
    requires offsets != []
  {
    XREF + Digits(|offsets|) + "\n" + FREE_ENTRY + Entries(offsets[1..])
  }

  const TRAILER := "trailer\n<< /Size "
  const ROOT := " /Root "
  const START_XREF := "startxref\n"
  const END_FILE := "\n%%EOF\n"

  function Trailer(size: nat, xrefOffset: nat): string {
    TRAILER + Digits(size) + ROOT + Digits(1) + " 0 R >>\n" + START_XREF + Digits(xrefOffset) + END_FILE
  }

  function Rendered(pages: seq<seq<string>>): string {
    var n := ObjectCount(pages);
    var objects := Through(pages, n);
    objects + XrefTable(Offsets(pages, n)) + Trailer(n + 1, |objects|)
  }

  method WrapAll(lines: seq<seq<CodeUnit>>) returns (wrapped: seq<string>)
    ensures wrapped == WrappedLines(lines)
  {
    wrapped := [];
    for k := 0 to |lines|
      invariant wrapped == WrappedLines(lines[..k])
    {
      var more := WrapLine(Sanitize(lines[k]), MAX_CHARS);
      assert lines[..k + 1][..k] == lines[..k];
      wrapped := wrapped + more;
    }
    assert lines[..|lines|] == lines;
  }

  /** The object table after `k` pages: catalog 1, font 3, then a content and a page object a page. */
  function AddPage(m: map<nat, PdfObject>, lines: seq<string>, contentNum: nat): map<nat, PdfObject> {
    m[contentNum := Content(lines)][contentNum + 1 := Page(contentNum)]
  }

  function PagesNumbered(pages: seq<seq<string>>, k: nat): map<nat, PdfObject>
    requires k <= |pages|
  {
    if k == 0 then map[1 := Catalog, 3 := Font]
    else AddPage(PagesNumbered(pages, k - 1), pages[k - 1], 2 + 2 * k)
  }

  ghost predicate Numbered(m: map<nat, PdfObject>, pages: seq<seq<string>>, next: nat) {
    && next <= ObjectCount(pages) + 1
    && |m| == next - 2
    && (forall n :: n in m <==> 1 <= n < next && n != 2)
    && (forall n | n in m :: m[n] == ObjectOf(pages, n))
  }

  lemma NumberPage(m: map<nat, PdfObject>, pages: seq<seq<string>>, k: nat, c: nat)
    requires k < |pages| && c == 4 + 2 * k && Numbered(m, pages, c)
    ensures Numbered(AddPage(m, pages[k], c), pages, c + 2)
  {
    ObjectsOfPage(pages, k);
    hide ObjectOf;
    var one := m[c := Content(pages[k])];
    PutOne(m, c, Content(pages[k]));
    PutOne(one, c + 1, Page(c));
    assert AddPage(m, pages[k], c) == one[c + 1 := Page(c)];
  }

  lemma PutOne(m: map<nat, PdfObject>, n: nat, o: PdfObject)
    requires n !in m
    ensures |m[n := o]| == |m| + 1
  {
  }

  lemma ObjectsOfPage(pages: seq<seq<string>>, k: nat)
    requires k < |pages|
    ensures ObjectOf(pages, 4 + 2 * k) == Content(pages[k]) && ObjectOf(pages, 5 + 2 * k) == Page(4 + 2 * k)
  {
  }

  lemma NumberFirst(pages: seq<seq<string>>)
    ensures Numbered(map[1 := Catalog, 3 := Font], pages, 4)
  {
    var m := map[1 := Catalog][3 := Font];
    assert |m| == 2 && m == map[1 := Catalog, 3 := Font];
  }

  lemma {:induction false} PagesNumberedIs(pages: seq<seq<string>>, k: nat)
    requires k <= |pages|
    ensures Numbered(PagesNumbered(pages, k), pages, 4 + 2 * k)
  {
    hide Numbered, AddPage;
    if k == 0 {
      NumberFirst(pages);
    } else {
      PagesNumberedIs(pages, k - 1);
      NumberPage(PagesNumbered(pages, k - 1), pages, k - 1, 2 + 2 * k);
    }
  }

  /** `byNum` holds exactly the objects `1..3 + 2 * |pages|`. */
  ghost predicate AllNumbered(byNum: map<nat, PdfObject>, pages: seq<seq<string>>) {
    && |byNum| == ObjectCount(pages)
    && (forall n :: n in byNum <==> 1 <= n <= ObjectCount(pages))
    && (forall n | n in byNum :: byNum[n] == ObjectOf(pages, n))
  }

  lemma TreeCompletes(pages: seq<seq<string>>)
    ensures AllNumbered(PagesNumbered(pages, |pages|)[2 := PageTree(PageNumbers(|pages|))], pages)
  {
    hide PagesNumbered;
    PagesNumberedIs(pages, |pages|);
  }

  method NumberObjects(pages: seq<seq<string>>) returns (byNum: map<nat, PdfObject>)
    ensures AllNumbered(byNum, pages)
  {
    byNum := map[1 := Catalog, 3 := Font];
    var pageObjNums: seq<nat> := [];
    var next := 4;
    for k := 0 to |pages|
      invariant next == 4 + 2 * k && pageObjNums == PageNumbers(k) && byNum == PagesNumbered(pages, k)
    {
      var contentNum, pageNum := next, next + 1;
      next := next + 2;
      pageObjNums := pageObjNums + [pageNum];
      byNum := byNum[contentNum := Content(pages[k])][pageNum := Page(contentNum)];
    }
    byNum := byNum[2 := PageTree(pageObjNums)];
    TreeCompletes(pages);
  }

  /** Writes the objects and notes where each begins; entry 0 is not an object. */
  method WriteObjects(byNum: map<nat, PdfObject>, ghost pages: seq<seq<string>>)
    returns (out: string, offsets: seq<nat>)
    requires AllNumbered(byNum, pages)
    ensures out == Through(pages, ObjectCount(pages))
    ensures offsets == Offsets(pages, ObjectCount(pages))
  {
    out := FILE_HEAD;
    offsets := [0];
    for num := 1 to |byNum| + 1
      invariant out == Through(pages, num - 1) && offsets == Offsets(pages, num - 1)
    {
      offsets := offsets + [|out|];
      out := out + Framed(num, byNum[num]);
    }
  }

  method WriteXref(offsets: seq<nat>) returns (table: string)
    requires offsets != []
    ensures table == XrefTable(offsets)
  {
    table := "";
    for num := 1 to |offsets|
      invariant table == Entries(offsets[1..num])
    {
      assert offsets[1..num + 1] == offsets[1..num] + [offsets[num]];
      EntriesPush(offsets[1..num], offsets[num]);
      table := table + Entry(offsets[num]);
    }
    assert offsets[1..|offsets|] == offsets[1..];
    table := XREF + Digits(|offsets|) + "\n" + FREE_ENTRY + table;
  }

  method RenderPages(pages: seq<seq<string>>) returns (file: string)
    ensures file == Rendered(pages)
  {
    hide Through, XrefTable, Trailer, Offsets, AllNumbered;
    var byNum := NumberObjects(pages);
    var totalObjs := |byNum|;
    var out, offsets := WriteObjects(byNum, pages);
    var table := WriteXref(offsets);
    file := out + table + Trailer(totalObjs + 1, |out|);
  }

  method RenderSummaryPdf(title: seq<CodeUnit>, body: seq<seq<CodeUnit>>) returns (file: string)
    ensures file == Rendered(Pages(title, body))
  {
    hide Rendered, Wrapped;
    var wrapped := WrapAll(AllLines(title, body));
    var pages := Sliced(wrapped, MaxLinesPerPage());
    WrappedLinesNonEmpty(AllLines(title, body));
    if |pages| == 0 {
      pages := [[""]];
    }
    file := RenderPages(pages);
  }

  lemma {:induction false} WrappedLinesNonEmpty(lines: seq<seq<CodeUnit>>)
    ensures |WrappedLines(lines)| >= |lines|
    ensures forall i | 0 <= i < |WrappedLines(lines)| :: |WrappedLines(lines)[i]| <= MAX_CHARS
  {
    if lines != [] {
      WrappedLinesNonEmpty(lines[..|lines| - 1]);
      WrappedFits(Sanitize(lines[|lines| - 1]), MAX_CHARS);
    }
  }

  /** Every page holds between one and 43 lines of at most 95 characters, all text in order. */
  lemma PagesPartitionText(title: seq<CodeUnit>, body: seq<seq<CodeUnit>>)
    ensures var pages := Pages(title, body);
      && pages != []
      && Flatten(pages) == WrappedLines(AllLines(title, body))
      && (forall i | 0 <= i < |pages| :: 1 <= |pages[i]| <= 43)
      && (forall i | 0 <= i < |pages| - 1 :: |pages[i]| == 43)
      && (forall i, j | 0 <= i < |pages| && 0 <= j < |pages[i]| :: |pages[i][j]| <= MAX_CHARS)
  {
    var wrapped := WrappedLines(AllLines(title, body));
    WrappedLinesNonEmpty(AllLines(title, body));
    var pages := Pages(title, body);
    SlicesPartition(wrapped, MaxLinesPerPage());
    forall i, j | 0 <= i < |pages| && 0 <= j < |pages[i]| ensures |pages[i][j]| <= MAX_CHARS {
      InFlatten(pages, i, j);
    }
  }

  lemma {:induction false} InFlatten(pages: seq<seq<string>>, i: nat, j: nat)
    requires i < |pages| && j < |pages[i]|
    ensures pages[i][j] in Flatten(pages)
  {
    if i > 0 {
      InFlatten(pages[1..], i - 1, j);
    }
  }
}
