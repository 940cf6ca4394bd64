/**
 * The WebVTT and SubRip printers, and a reader that inverts them. Speech segments come from the
 * transcription service; times are in milliseconds.
 */
module Transcript {
  import opened Wrappers
  import opened Text
  import opened Decimal

  /** A segment whose speaker labels are of type `L`: text here, code units where they are made. */
  datatype SegmentOf<L> = Segment(startMs: real, endMs: real, text: string, speaker: Option<L>)

  type Segment = SegmentOf<string>

  // ---- timestamps ----

  /** `Math.max(0, Math.floor(ms))`. */
  function Clamped(ms: real): nat {
    if ms.Floor < 0 then 0 else ms.Floor
  }

  function Stamp(ms: nat, sep: char): string {
    Pad(Digits(ms / 3600000), 2) + ":" + Pad(Digits(ms % 3600000 / 60000), 2) + ":"
    + Pad(Digits(ms % 60000 / 1000), 2) + [sep] + Pad(Digits(ms % 1000), 3)
  }

  function MsToTimestamp(ms: real, sep: char): string {
    Stamp(Clamped(ms), sep)
  }

  /** Reads a timestamp at the start of `s`: hours of two digits or more, then two, two and three digits. */
  function TakeStamp(s: string, sep: char): Option<(nat, string)> {
    var h :- TakeNat(s);
    var r1 :- Strip(h.1, ":");
    var m :- TakeFixed(r1, 2);
    var r2 :- Strip(m.1, ":");
    var sec :- TakeFixed(r2, 2);
    var r3 :- Strip(sec.1, [sep]);
    var milli :- TakeFixed(r3, 3);
    if |s| - |h.1| < 2 || m.0 >= 60 || sec.0 >= 60 then None
    else Some((h.0 * 3600000 + m.0 * 60000 + sec.0 * 1000 + milli.0, milli.1))
  }

  lemma TwoDigits(n: nat)
    requires n < 100
    ensures |Digits(n)| <= 2
  {
    DigitCount(n, 2);
    assert Pow10(2) == 100;
  }

  lemma ThreeDigits(n: nat)
    requires n < 1000
    ensures |Digits(n)| <= 3
  {
    DigitCount(n, 3);
    assert Pow10(3) == 1000;
  }

  lemma Minutes(ms: nat, q: nat, r: nat)
    requires ms == 60000 * q + r && r < 60000
    ensures ms % 60000 == r
  {
  }

  lemma Seconds(ms: nat, q: nat, r: nat)
    requires ms == 1000 * q + r && r < 1000
    ensures ms % 1000 == r
  {
  }

  /** Hours, minutes, seconds and milliseconds make up the whole. */
  lemma DigitsAdd(ms: nat)
    ensures ms / 3600000 * 3600000 + ms % 3600000 / 60000 * 60000 + ms % 60000 / 1000 * 1000 + ms % 1000 == ms
    ensures ms % 3600000 / 60000 < 60 && ms % 60000 / 1000 < 60
  {
    var h, a := ms / 3600000, ms % 3600000;
    assert ms == 3600000 * h + a;
    var m, b := a / 60000, a % 60000;
    assert a == 60000 * m + b;
    Minutes(ms, 60 * h + m, b);
    var s, z := b / 1000, b % 1000;
    assert b == 1000 * s + z;
    Seconds(ms, 3600 * h + 60 * m + s, z);
  }

  lemma TakePadded(n: nat, r: string)
    requires NoDigitFirst(r)
    ensures TakeNat(Pad(Digits(n), 2) + r) == Some((n, r))
  {
    var d := Pad(Digits(n), 2);
    DigitRunOf(d, r);
    ValueOfPadded(n, 2);
    assert (d + r)[..|d|] == d && (d + r)[|d|..] == r;
  }

  /** What is printed is read back, to the millisecond. */
  lemma StampReads(ms: nat, sep: char, r: string)
    requires !IsDigit(sep)
    ensures TakeStamp(Stamp(ms, sep) + r, sep) == Some((ms, r))
  {
    hide Digits, Pad, TakeNat, TakeFixed, Strip;
    var h, m, s, z := ms / 3600000, ms % 3600000 / 60000, ms % 60000 / 1000, ms % 1000;
    var r3 := Pad(Digits(z), 3) + r;
    var r2 := Pad(Digits(s), 2) + ([sep] + r3);
    var r1 := Pad(Digits(m), 2) + (":" + r2);
    DigitsAdd(ms);
    TwoDigits(m);
    TwoDigits(s);
    ThreeDigits(z);
    assert Stamp(ms, sep) + r == Pad(Digits(h), 2) + (":" + r1);
    TakePadded(h, ":" + r1);
    StripOf(":", r1);
    TakeFixedOf(m, 2, ":" + r2);
    StripOf(":", r2);
    TakeFixedOf(s, 2, [sep] + r3);
    StripOf([sep], r3);
    TakeFixedOf(z, 3, r);
  }

  /** Timestamps of different whole milliseconds differ. */
  lemma TimestampInjective(a: real, b: real, sep: char)
    requires !IsDigit(sep)
    ensures MsToTimestamp(a, sep) == MsToTimestamp(b, sep) <==> Clamped(a) == Clamped(b)
  {
    hide Stamp, TakeStamp;
    StampReads(Clamped(a), sep, "");
    StampReads(Clamped(b), sep, "");
  }

  // ---- trimming ----

  /** The white space and line terminators `trim` removes. */
  predicate IsSpace(c: char) {
    var k := c as int;
    9 <= k <= 13 || k == 0x20 || k == 0xA0 || k == 0x1680 || 0x2000 <= k <= 0x200A || k == 0x2028 || k == 0x2029 ||
    k == 0x202F || k == 0x205F || k == 0x3000 || k == 0xFEFF
  }

  function TrimStart(s: string): string {
    if s != [] && IsSpace(s[0]) then TrimStart(s[1..]) else s
  }

  function TrimEnd(s: string): string {
    if s != [] && IsSpace(s[|s| - 1]) then TrimEnd(s[..|s| - 1]) else s
  }

  function Trim(s: string): string {
    TrimEnd(TrimStart(s))
  }

  /** Behind a head that ends in a visible character only the tail is trimmed. */
  lemma {:induction false} TrimTail(head: string, tail: string)
    requires head != [] && !IsSpace(head[|head| - 1])
    ensures TrimEnd(head + "\n" + tail) == if TrimEnd(tail) == [] then head else head + "\n" + TrimEnd(tail)
    decreases |tail|
  {
    hide IsSpace;
    var s := head + "\n" + tail;
    if tail == [] {
      NewlineIsSpace();
      assert s[..|s| - 1] == head;
    } else if IsSpace(tail[|tail| - 1]) {
      assert s[..|s| - 1] == head + "\n" + tail[..|tail| - 1];
      TrimTail(head, tail[..|tail| - 1]);
    }
  }

  lemma NewlineIsSpace()
    ensures IsSpace('\n') && IsSpace('\r')
  {
  }

  // ---- the printers ----

  function Body(seg: Segment): string {
    (if seg.speaker.Some? && seg.speaker.value != "" then seg.speaker.value + ": " else "") + seg.text
  }

  function Range(seg: Segment, sep: char): string {
    MsToTimestamp(seg.startMs, sep) + " --> " + MsToTimestamp(seg.endMs, sep)
  }

  function VttCue(seg: Segment): string {
    Trim(Range(seg, '.') + "\n" + Body(seg))
  }

  function SrtBlock(seg: Segment, i: nat): string {
    Trim(Digits(i + 1) + "\n" + Range(seg, ',') + "\n" + Body(seg))
  }

  /** The blocks with an empty line between each two. */
  function WithBlanks(blocks: seq<string>): seq<string> {
    if |blocks| <= 1 then blocks else [blocks[0], ""] + WithBlanks(blocks[1..])
  }

  lemma {:induction false} WithBlanksPush(blocks: seq<string>, b: string)
    requires blocks != []
    ensures WithBlanks(blocks + [b]) == WithBlanks(blocks) + ["", b]
  {
    if |blocks| > 1 {
      WithBlanksPush(blocks[1..], b);
      assert (blocks + [b])[1..] == blocks[1..] + [b];
    } else {
      assert (blocks + [b])[1..] == [b];
    }
  }

  method JoinWithBlank(blocks: seq<string>) returns (out: seq<string>)
    ensures out == WithBlanks(blocks)
  {
    out := [];
    for i := 0 to |blocks|
      invariant out == WithBlanks(blocks[..i]) + if 0 < i < |blocks| then [""] else []
    {
      assert blocks[..i + 1] == blocks[..i] + [blocks[i]];
      if i > 0 {
        WithBlanksPush(blocks[..i], blocks[i]);
      }
      out := out + [blocks[i]];
      if i < |blocks| - 1 {
        out := out + [""];
      }
    }
    assert blocks[..|blocks|] == blocks;
  }

  function VttCues(segments: seq<Segment>): seq<string> {
    if segments == [] then [] else [VttCue(segments[0])] + VttCues(segments[1..])
  }

  function SrtBlocks(segments: seq<Segment>, i: nat): seq<string> {
    if segments == [] then [] else [SrtBlock(segments[0], i)] + SrtBlocks(segments[1..], i + 1)
  }

  function VttText(segments: seq<Segment>): string {
    Join(["WEBVTT", ""] + WithBlanks(VttCues(segments)), "\n")
  }

  function SrtText(segments: seq<Segment>): string {
    Join(WithBlanks(SrtBlocks(segments, 0)), "\n")
  }

  method ToVtt(segments: seq<Segment>) returns (s: string)
    ensures s == VttText(segments)
  {
    var cues := JoinWithBlank(VttCues(segments));
    s := Join(["WEBVTT", ""] + cues, "\n");
  }

  method ToSrt(segments: seq<Segment>) returns (s: string)
    ensures s == SrtText(segments)
  {
    var blocks := JoinWithBlank(SrtBlocks(segments, 0));
    s := Join(blocks, "\n");
  }

  // ---- the reader ----

  datatype Cue = Cue(startMs: nat, endMs: nat, body: string)

  function Lines(s: string): seq<string> {
    Split(s, '\n')
  }

  /** CR and CRLF count as line ends too. */
  function Normalized(s: string): string {
    if s == [] then []
    else if s[0] == '\r' then (if |s| > 1 && s[1] == '\n' then [] else ['\n']) + Normalized(s[1..])
    else [s[0]] + Normalized(s[1..])
  }

  /** The first position of an empty line, or the number of lines. */
  function BlankAt(lines: seq<string>): (k: nat)
    ensures k <= |lines| && (k < |lines| ==> lines[k] == "")
    ensures forall i | 0 <= i < k :: lines[i] != ""
  {
    if lines == [] || lines[0] == "" then 0 else 1 + BlankAt(lines[1..])
  }

  const ARROW := "-->"

  predicate HasArrow(s: string) {
    s != [] && (ARROW <= s || HasArrow(s[1..]))
  }

  function ReadRange(line: string, sep: char): Option<(nat, nat)> {
    var a :- TakeStamp(line, sep);
    var r :- Strip(a.1, " --> ");
    var b :- TakeStamp(r, sep);
    if b.1 == "" then Some((a.0, b.0)) else None
  }

  /** A cue: its time range, then lines none of which contains an arrow. */
  function ReadCue(block: seq<string>, sep: char): Option<Cue> {
    if block == [] then None
    else
      var range :- ReadRange(block[0], sep);
      if exists l :: l in block[1..] && HasArrow(l) then None
      else Some(Cue(range.0, range.1, Join(block[1..], "\n")))
  }

  /** Cues separated by empty lines, numbered from `i + 1` if `numbered`. */
  function ReadCues(lines: seq<string>, numbered: bool, sep: char, i: nat): Option<seq<Cue>>
    decreases |lines|
  {
    if lines == [] then Some([])
    else if lines[0] == "" then ReadCues(lines[1..], numbered, sep, i)
    else
      var k := BlankAt(lines);
      if numbered && lines[0] != Digits(i + 1) then None
      else
        var cue :- ReadCue(lines[if numbered then 1 else 0..k], sep);
        var rest :- ReadCues(lines[k..], numbered, sep, i + 1);
        Some([cue] + rest)
  }

  function ReadVtt(s: string): Option<seq<Cue>> {
    var lines := Lines(Normalized(s));
    if |lines| >= 2 && lines[0] == "WEBVTT" && lines[1] == "" then ReadCues(lines[2..], false, '.', 0) else None
  }

  function ReadSrt(s: string): Option<seq<Cue>> {
    ReadCues(Lines(Normalized(s)), true, ',', 0)
  }

  // ---- reading back what was printed ----

  /** What a cue's body is expected to read as. */
  function Payload(seg: Segment): string {
    TrimEnd(Body(seg))
  }

  function CueOf(seg: Segment): Cue {
    Cue(Clamped(seg.startMs), Clamped(seg.endMs), Payload(seg))
  }

  function CuesOf(segments: seq<Segment>): seq<Cue> {
    if segments == [] then [] else [CueOf(segments[0])] + CuesOf(segments[1..])
  }

  /** `t` is `s` up to its last visible character. */
  ghost predicate EndTrimmed(t: string, s: string) {
    t <= s && (forall j | |t| <= j < |s| :: IsSpace(s[j])) && (t != "" ==> !IsSpace(t[|t| - 1]))
  }

  lemma {:induction false} TrimEndIs(s: string)
    ensures EndTrimmed(TrimEnd(s), s)
  {
    hide IsSpace;
    if s != [] && IsSpace(s[|s| - 1]) {
      TrimEndIs(s[..|s| - 1]);
    }
  }

  /**
   * There is a cue for every segment. Its times are the segment's in whole milliseconds, or 0 before
   * the start, and its body is the text behind the speaker's name, if there is one, without trailing
   * white space.
   */
  lemma CuesAre(segments: seq<Segment>, i: nat)
    requires i < |segments|
    ensures |CuesOf(segments)| == |segments|
    ensures var seg, cue := segments[i], CuesOf(segments)[i];
      && (seg.startMs < 0.0 ==> cue.startMs == 0) && (seg.endMs < 0.0 ==> cue.endMs == 0)
      && (seg.startMs >= 0.0 ==> cue.startMs as real <= seg.startMs < cue.startMs as real + 1.0)
      && (seg.endMs >= 0.0 ==> cue.endMs as real <= seg.endMs < cue.endMs as real + 1.0)
      && var named := seg.speaker.Some? && seg.speaker.value != "";
         EndTrimmed(cue.body, if named then seg.speaker.value + ": " + seg.text else seg.text)
  {
    hide IsSpace, TrimEnd, Clamped, EndTrimmed;
    var seg := segments[i];
    CuesAt(segments, i);
    ClampedIs(seg.startMs);
    ClampedIs(seg.endMs);
    var named := seg.speaker.Some? && seg.speaker.value != "";
    assert "" + seg.text == seg.text;
    assert Body(seg) == if named then seg.speaker.value + ": " + seg.text else seg.text;
    TrimEndIs(Body(seg));
  }

  lemma ClampedIs(ms: real)
    ensures ms < 0.0 ==> Clamped(ms) == 0
    ensures ms >= 0.0 ==> Clamped(ms) as real <= ms < Clamped(ms) as real + 1.0
  {
  }

  lemma {:induction false} CuesAt(segments: seq<Segment>, i: nat)
    requires i < |segments|
    ensures |CuesOf(segments)| == |segments| && CuesOf(segments)[i] == CueOf(segments[i])
  {
    hide CueOf;
    if |segments| > 1 {
      CuesAt(segments[1..], if i == 0 then 0 else i - 1);
    }
  }

  /** A body a cue can carry: empty, or lines that are not empty and hold no arrow. */
  predicate Carried(body: string) {
    Free(body, '\r') && (body == "" || forall l :: l in Lines(body) ==> l != "" && !HasArrow(l))
  }

  predicate AllCarried(cues: seq<Cue>) {
    forall i | 0 <= i < |cues| :: Carried(cues[i].body)
  }

  lemma LinesAppend(a: string, b: string)
    ensures Lines(a + "\n" + b) == Lines(a) + Lines(b)
  {
    hide Split;
    SplitAppend(a, b, '\n');
  }

  lemma SplitStep(s: string)
    requires s != []
    ensures var r := Lines(s[1..]);
      Lines(s) == if s[0] == '\n' then [[]] + r else [[s[0]] + r[0]] + r[1..]
  {
  }

  lemma OneLine(s: string)
    requires Free(s, '\n')
    ensures Lines(s) == [s]
  {
    SplitPiece(s, [], '\n');
  }

  // ---- the shape of what is printed ----

  predicate StampChar(c: char) {
    IsDigit(c) || c == ':' || c == '.' || c == ','
  }

  ghost predicate Stamplike(s: string) {
    s != [] && IsDigit(s[0]) && IsDigit(s[|s| - 1]) && forall i | 0 <= i < |s| :: StampChar(s[i])
  }

  lemma DigitsStamplike(n: nat, w: nat)
    ensures Stamplike(Pad(Digits(n), w)) && Stamplike(Digits(n))
  {
    var p := Pad(Digits(n), w);
    assert forall i | 0 <= i < |p| :: IsDigit(p[i]);
  }

  lemma StamplikeJoins(a: string, sep: string, b: string)
    requires Stamplike(a) && Stamplike(b) && (sep == ":" || sep == "." || sep == ",")
    ensures Stamplike(a + sep + b)
  {
  }

  lemma StampIsStamplike(ms: nat, sep: char)
    requires sep == '.' || sep == ','
    ensures Stamplike(Stamp(ms, sep))
  {
    hide Digits, Pad, Stamplike;
    var h, m, s, z := Pad(Digits(ms / 3600000), 2), Pad(Digits(ms % 3600000 / 60000), 2),
      Pad(Digits(ms % 60000 / 1000), 2), Pad(Digits(ms % 1000), 3);
    DigitsStamplike(ms / 3600000, 2);
    DigitsStamplike(ms % 3600000 / 60000, 2);
    DigitsStamplike(ms % 60000 / 1000, 2);
    DigitsStamplike(ms % 1000, 3);
    StamplikeJoins(h, ":", m);
    StamplikeJoins(h + ":" + m, ":", s);
    StamplikeJoins(h + ":" + m + ":" + s, [sep], z);
  }

  /** A head of a cue: it starts and ends with a digit, so trimming does not touch it. */
  ghost predicate Headlike(s: string) {
    s != [] && IsDigit(s[0]) && IsDigit(s[|s| - 1]) && Free(s, '\r')
  }

  lemma RangeIsHead(seg: Segment, sep: char)
    requires sep == '.' || sep == ','
    ensures Headlike(Range(seg, sep)) && Free(Range(seg, sep), '\n')
  {
    hide Stamp;
    StampIsStamplike(Clamped(seg.startMs), sep);
    StampIsStamplike(Clamped(seg.endMs), sep);
  }

  lemma HeadTrims(head: string, body: string)
    requires Headlike(head)
    ensures Trim(head + "\n" + body) == if TrimEnd(body) == [] then head else head + "\n" + TrimEnd(body)
  {
    TrimTail(head, body);
  }

  /** The lines of a cue behind its head. */
  function PayloadLines(seg: Segment): seq<string> {
    if Payload(seg) == "" then [] else Lines(Payload(seg))
  }

  function BlockLines(seg: Segment, numbered: bool, sep: char, i: nat): seq<string> {
    (if numbered then [Digits(i + 1)] else []) + [Range(seg, sep)] + PayloadLines(seg)
  }

  function Block(seg: Segment, numbered: bool, i: nat): string {
    if numbered then SrtBlock(seg, i) else VttCue(seg)
  }

  function SepOf(numbered: bool): char {
    if numbered then ',' else '.'
  }

  lemma SrtHead(seg: Segment, i: nat)
    ensures Headlike(Digits(i + 1) + "\n" + Range(seg, ','))
    ensures Lines(Digits(i + 1) + "\n" + Range(seg, ',')) == [Digits(i + 1), Range(seg, ',')]
  {
    hide Digits, Range;
    RangeIsHead(seg, ',');
    DigitsStamplike(i + 1, 0);
    assert Free(Digits(i + 1), '\n') && Free(Digits(i + 1), '\r');
    OneLine(Digits(i + 1));
    OneLine(Range(seg, ','));
    LinesAppend(Digits(i + 1), Range(seg, ','));
  }

  /** The printed block is its head and, on lines of their own, the trimmed body. */
  lemma BlockHasLines(seg: Segment, numbered: bool, i: nat)
    ensures Lines(Block(seg, numbered, i)) == BlockLines(seg, numbered, SepOf(numbered), i)
    ensures Free(Payload(seg), '\r') ==> Free(Block(seg, numbered, i), '\r')
  {
    hide Digits, Range, Body, Lines, TrimEnd, Trim, Headlike;
    var head := if numbered then Digits(i + 1) + "\n" + Range(seg, ',') else Range(seg, '.');
    SrtHead(seg, i);
    RangeIsHead(seg, '.');
    OneLine(Range(seg, '.'));
    HeadTrims(head, Body(seg));
    HeadIsFree(head);
    LinesAppend(head, Payload(seg));
  }

  lemma HeadIsFree(head: string)
    requires Headlike(head)
    ensures Free(head, '\r') && Free("\n", '\r')
  {
  }

  // ---- the whole document ----

  function Blocks(segments: seq<Segment>, numbered: bool, i: nat): seq<string> {
    if segments == [] then [] else [Block(segments[0], numbered, i)] + Blocks(segments[1..], numbered, i + 1)
  }

  lemma {:induction false} BlocksAre(segments: seq<Segment>, i: nat)
    ensures Blocks(segments, false, i) == VttCues(segments)
    ensures Blocks(segments, true, i) == SrtBlocks(segments, i)
  {
    if segments != [] {
      BlocksAre(segments[1..], i + 1);
    }
  }

  function DocLines(segments: seq<Segment>, numbered: bool, i: nat): seq<string> {
    if segments == [] then []
    else if |segments| == 1 then BlockLines(segments[0], numbered, SepOf(numbered), i)
    else BlockLines(segments[0], numbered, SepOf(numbered), i) + [""] + DocLines(segments[1..], numbered, i + 1)
  }

  lemma {:induction false} DocHasLines(segments: seq<Segment>, numbered: bool, i: nat)
    requires segments != []
    ensures Lines(Join(WithBlanks(Blocks(segments, numbered, i)), "\n")) == DocLines(segments, numbered, i)
    decreases |segments|
  {
    hide Block, BlockLines, Lines;
    BlockHasLines(segments[0], numbered, i);
    var b, rest := Block(segments[0], numbered, i), Blocks(segments[1..], numbered, i + 1);
    assert Blocks(segments, numbered, i) == [b] + rest && ([b] + rest)[1..] == rest;
    if |segments| > 1 {
      DocHasLines(segments[1..], numbered, i + 1);
      var tail := Join(WithBlanks(rest), "\n");
      BlankBetween(b, rest);
      LinesAppend(b + "\n" + "", tail);
      LinesAppend(b, "");
      assert Lines("") == [""] by { OneLine(""); }
    }
  }

  lemma BlankBetween(b: string, rest: seq<string>)
    requires rest != []
    ensures Join(WithBlanks([b] + rest), "\n") == b + "\n" + "" + "\n" + Join(WithBlanks(rest), "\n")
  {
    var all, tail := [b] + rest, WithBlanks(rest);
    assert all[1..] == rest;
    assert WithBlanks(all) == [b, ""] + tail && ([b, ""] + tail)[1..] == [""] + tail && ([""] + tail)[1..] == tail;
  }

  // ---- reading it ----

  lemma RangeReads(seg: Segment, sep: char)
    requires sep == '.' || sep == ','
    ensures ReadRange(Range(seg, sep), sep) == Some((Clamped(seg.startMs), Clamped(seg.endMs)))
  {
    hide Stamp, TakeStamp, Strip;
    var b := MsToTimestamp(seg.endMs, sep);
    assert Range(seg, sep) == MsToTimestamp(seg.startMs, sep) + (" --> " + b);
    StampReads(Clamped(seg.startMs), sep, " --> " + b);
    StripOf(" --> ", b);
    StampReads(Clamped(seg.endMs), sep, "");
    assert b + "" == b;
  }

  lemma CueReads(seg: Segment, sep: char)
    requires (sep == '.' || sep == ',') && Carried(Payload(seg))
    ensures ReadCue([Range(seg, sep)] + PayloadLines(seg), sep) == Some(CueOf(seg))
  {
    hide Range, ReadRange, HasArrow, Payload;
    RangeReads(seg, sep);
    var block := [Range(seg, sep)] + PayloadLines(seg);
    assert block[1..] == PayloadLines(seg);
    JoinSplit(Payload(seg), '\n');
  }

  lemma BlankAfter(block: seq<string>, rest: seq<string>)
    requires forall i | 0 <= i < |block| :: block[i] != ""
    requires rest == [] || rest[0] == ""
    ensures BlankAt(block + rest) == |block|
  {
    var all := block + rest;
    assert forall i | 0 <= i < |block| :: all[i] == block[i];
    assert rest != [] ==> all[|block|] == rest[0];
  }

  lemma BlockNotBlank(seg: Segment, numbered: bool, sep: char, i: nat)
    requires Carried(Payload(seg)) && (sep == '.' || sep == ',')
    ensures var b := BlockLines(seg, numbered, sep, i); b != [] && forall k | 0 <= k < |b| :: b[k] != ""
  {
    hide Range, Digits, Payload, HasArrow;
    RangeIsHead(seg, sep);
    var pl := PayloadLines(seg);
    forall k | 0 <= k < |pl| ensures pl[k] != "" {
      assert pl[k] in pl;
    }
  }

  /** The reader takes one block off the front. */
  lemma BlockReads(seg: Segment, numbered: bool, i: nat, rest: seq<string>)
    requires Carried(Payload(seg)) && (rest == [] || rest[0] == "")
    ensures var sep := SepOf(numbered);
      ReadCues(BlockLines(seg, numbered, sep, i) + rest, numbered, sep, i) ==
        match ReadCues(rest, numbered, sep, i + 1)
        case Some(cues) => Some([CueOf(seg)] + cues)
        case None => None
  {
    hide Range, Digits, PayloadLines, ReadCue, CueOf, Carried, ReadCues;
    var sep := SepOf(numbered);
    var block := BlockLines(seg, numbered, sep, i);
    BlockNotBlank(seg, numbered, sep, i);
    BlankAfter(block, rest);
    CueReads(seg, sep);
    var all := block + rest;
    assert all[|block|..] == rest && all[0] == block[0];
    assert all[if numbered then 1 else 0..|block|] == [Range(seg, sep)] + PayloadLines(seg);
    ReadCuesStep(all, numbered, sep, i);
  }

  lemma ReadCuesStep(lines: seq<string>, numbered: bool, sep: char, i: nat)
    requires lines != [] && lines[0] != ""
    ensures ReadCues(lines, numbered, sep, i) ==
      if numbered && lines[0] != Digits(i + 1) then None
      else
        match ReadCue(lines[if numbered then 1 else 0..BlankAt(lines)], sep)
        case None => None
        case Some(cue) =>
          match ReadCues(lines[BlankAt(lines)..], numbered, sep, i + 1)
          case None => None
          case Some(cues) => Some([cue] + cues)
  {
    hide ReadCue, Digits;
  }

  lemma {:induction false} DocReads(segments: seq<Segment>, numbered: bool, i: nat)
    requires AllCarried(CuesOf(segments))
    ensures ReadCues(DocLines(segments, numbered, i), numbered, SepOf(numbered), i) == Some(CuesOf(segments))
    decreases |segments|
  {
    hide BlockLines, Carried, CueOf, ReadCues;
    NothingToRead(numbered, SepOf(numbered), i);
    if segments != [] {
      var seg, rest := segments[0], DocLines(segments[1..], numbered, i + 1);
      assert CuesOf(segments)[0] == CueOf(seg) && CuesOf(segments)[1..] == CuesOf(segments[1..]);
      CarriedOf(seg);
      assert forall k | 0 <= k < |CuesOf(segments[1..])| :: CuesOf(segments[1..])[k] == CuesOf(segments)[k + 1];
      DocReads(segments[1..], numbered, i + 1);
      var block := BlockLines(seg, numbered, SepOf(numbered), i);
      if |segments| == 1 {
        BlockReads(seg, numbered, i, []);
        assert block + [] == block;
        NothingToRead(numbered, SepOf(numbered), i + 1);
      } else {
        BlockReads(seg, numbered, i, [""] + rest);
        BlankSkips(rest, numbered, SepOf(numbered), i + 1);
        assert block + [""] + rest == block + ([""] + rest);
      }
    }
  }

  lemma CarriedOf(seg: Segment)
    ensures CueOf(seg).body == Payload(seg)
  {
  }

  lemma NothingToRead(numbered: bool, sep: char, i: nat)
    ensures ReadCues([], numbered, sep, i) == Some([])
  {
  }

  lemma BlankSkips(rest: seq<string>, numbered: bool, sep: char, i: nat)
    ensures ReadCues([""] + rest, numbered, sep, i) == ReadCues(rest, numbered, sep, i)
  {
    assert ([""] + rest)[1..] == rest;
  }

  lemma {:induction false} NormalizedFixes(s: string)
    requires Free(s, '\r')
    ensures Normalized(s) == s
  {
    if s != [] {
      NormalizedFixes(s[1..]);
      assert s == [s[0]] + s[1..];
    }
  }

  lemma {:induction false} JoinFree(parts: seq<string>, sep: string, c: char)
    requires Free(sep, c) && forall i | 0 <= i < |parts| :: Free(parts[i], c)
    ensures Free(Join(parts, sep), c)
  {
    if |parts| > 1 {
      JoinFree(parts[1..], sep, c);
    }
  }

  lemma {:induction false} BlocksFree(segments: seq<Segment>, numbered: bool, i: nat)
    requires AllCarried(CuesOf(segments))
    ensures forall k | 0 <= k < |Blocks(segments, numbered, i)| :: Free(Blocks(segments, numbered, i)[k], '\r')
    decreases |segments|
  {
    hide Block, Payload;
    if segments != [] {
      assert CuesOf(segments)[0] == CueOf(segments[0]);
      assert forall k | 0 <= k < |CuesOf(segments[1..])| :: CuesOf(segments[1..])[k] == CuesOf(segments)[k + 1];
      BlockHasLines(segments[0], numbered, i);
      BlocksFree(segments[1..], numbered, i + 1);
    }
  }

  lemma {:induction false} BlanksFree(blocks: seq<string>)
    requires forall k | 0 <= k < |blocks| :: Free(blocks[k], '\r')
    ensures forall k | 0 <= k < |WithBlanks(blocks)| :: Free(WithBlanks(blocks)[k], '\r')
  {
    if |blocks| > 1 {
      BlanksFree(blocks[1..]);
    }
  }

  // ---- what a reader can return ----

  lemma {:induction false} NormalizedFree(s: string)
    ensures Free(Normalized(s), '\r')
  {
    if s != [] {
      NormalizedFree(s[1..]);
    }
  }

  lemma {:induction false} LinesFree(s: string, c: char)
    requires Free(s, c)
    ensures forall i | 0 <= i < |Lines(s)| :: Free(Lines(s)[i], c)
  {
    if s != [] {
      LinesFree(s[1..], c);
      SplitStep(s);
    }
  }

  ghost predicate CleanLines(lines: seq<string>) {
    forall i | 0 <= i < |lines| :: Free(lines[i], '\n') && Free(lines[i], '\r')
  }

  lemma ReadCueCarried(block: seq<string>, sep: char)
    requires CleanLines(block) && (forall i | 0 <= i < |block| :: block[i] != "") && ReadCue(block, sep).Some?
    ensures Carried(ReadCue(block, sep).value.body)
  {
    hide ReadRange, HasArrow, Split;
    var pl := block[1..];
    JoinFree(pl, "\n", '\r');
    if pl != [] {
      SplitJoin(pl, '\n');
    }
  }

  lemma {:induction false} ReadCuesCarried(lines: seq<string>, numbered: bool, sep: char, i: nat)
    requires CleanLines(lines) && ReadCues(lines, numbered, sep, i).Some?
    ensures AllCarried(ReadCues(lines, numbered, sep, i).value)
    decreases |lines|
  {
    hide Carried, ReadCue, Digits;
    if lines != [] {
      if lines[0] == "" {
        ReadCuesCarried(lines[1..], numbered, sep, i);
      } else {
        var k := BlankAt(lines);
        ReadCueCarried(lines[if numbered then 1 else 0..k], sep);
        ReadCuesCarried(lines[k..], numbered, sep, i + 1);
      }
    }
  }

  lemma LinesOfClean(s: string)
    ensures CleanLines(Lines(Normalized(s)))
  {
    NormalizedFree(s);
    LinesFree(Normalized(s), '\r');
  }

  /** Reading a WebVTT file back gives its cues, in order, exactly when a cue can carry every body. */
  lemma VttRoundTrip(segments: seq<Segment>)
    ensures ReadVtt(VttText(segments)) == Some(CuesOf(segments)) <==> AllCarried(CuesOf(segments))
  {
    hide AllCarried, CuesOf, Split, Normalized, Join, WithBlanks, ReadCues, CleanLines;
    var text := VttText(segments);
    LinesOfClean(text);
    if ReadVtt(text).Some? {
      CleanTail(Lines(Normalized(text)));
      ReadCuesCarried(Lines(Normalized(text))[2..], false, '.', 0);
    }
    if AllCarried(CuesOf(segments)) {
      VttReads(segments);
    }
  }

  lemma CleanTail(lines: seq<string>)
    requires CleanLines(lines) && |lines| >= 2
    ensures CleanLines(lines[2..])
  {
  }

  lemma VttReads(segments: seq<Segment>)
    requires AllCarried(CuesOf(segments))
    ensures ReadVtt(VttText(segments)) == Some(CuesOf(segments))
  {
    hide AllCarried, CuesOf, Split, Normalized, ReadCues, Blocks, DocLines, VttCues, Free, Join, WithBlanks;
    var parts := WithBlanks(Blocks(segments, false, 0));
    BlocksAre(segments, 0);
    BlocksFree(segments, false, 0);
    BlanksFree(Blocks(segments, false, 0));
    VttHead(parts);
    NormalizedFixes(VttText(segments));
    DocReads(segments, false, 0);
    VttTail(segments);
    assert (["WEBVTT", ""] + DocLines(segments, false, 0))[2..] == DocLines(segments, false, 0);
  }

  lemma VttTail(segments: seq<Segment>)
    ensures var parts := WithBlanks(Blocks(segments, false, 0));
      DocLines(segments, false, 0) == if parts == [] then [] else Lines(Join(parts, "\n"))
  {
    hide Split, Join, Block, BlockLines;
    if segments != [] {
      DocHasLines(segments, false, 0);
    }
  }

  lemma JoinFirst(a: string, rest: seq<string>, sep: string)
    requires rest != []
    ensures Join([a] + rest, sep) == a + sep + Join(rest, sep)
  {
    assert ([a] + rest)[1..] == rest;
  }

  lemma JoinOne(a: string, sep: string)
    ensures Join([a], sep) == a
  {
  }

  /** The header lines in front of the cues. */
  lemma VttHead(parts: seq<string>)
    requires forall k | 0 <= k < |parts| :: Free(parts[k], '\r')
    ensures var text := Join(["WEBVTT", ""] + parts, "\n");
      && Free(text, '\r')
      && Lines(text) == ["WEBVTT", ""] + if parts == [] then [] else Lines(Join(parts, "\n"))
  {
    hide Split;
    var all := ["WEBVTT", ""] + parts;
    assert all == ["WEBVTT"] + ([""] + parts);
    JoinFree(all, "\n", '\r');
    JoinFirst("WEBVTT", [""] + parts, "\n");
    hide Join;
    OneLine("WEBVTT");
    OneLine("");
    var text := Join(all, "\n");
    if parts == [] {
      JoinOne("", "\n");
      assert [""] + parts == [""];
      LinesAppend("WEBVTT", "");
    } else {
      var tail := Join(parts, "\n");
      JoinFirst("", parts, "\n");
      LinesAppend("", tail);
      LinesAppend("WEBVTT", "" + "\n" + tail);
    }
  }

  lemma NoCues(numbered: bool, i: nat)
    ensures DocLines([], numbered, i) == [] && Blocks([], numbered, i) == [] && CuesOf([]) == []
  {
  }

  /** Likewise for SubRip, whose cues must also be numbered from 1 upwards. */
  lemma SrtRoundTrip(segments: seq<Segment>)
    ensures ReadSrt(SrtText(segments)) == Some(CuesOf(segments)) <==> AllCarried(CuesOf(segments))
  {
    hide AllCarried, CuesOf, Split, Normalized, Join, WithBlanks, ReadCues, CleanLines;
    var text := SrtText(segments);
    LinesOfClean(text);
    if ReadSrt(text).Some? {
      ReadCuesCarried(Lines(Normalized(text)), true, ',', 0);
    }
    if AllCarried(CuesOf(segments)) {
      SrtReads(segments);
    }
  }

  lemma SrtReads(segments: seq<Segment>)
    requires AllCarried(CuesOf(segments))
    ensures ReadSrt(SrtText(segments)) == Some(CuesOf(segments))
  {
    hide AllCarried, CuesOf, Split, Normalized, ReadCues, Blocks, DocLines, SrtBlocks, Free;
    var blocks := Blocks(segments, true, 0);
    BlocksAre(segments, 0);
    BlocksFree(segments, true, 0);
    BlanksFree(blocks);
    NewlineFree();
    JoinFree(WithBlanks(blocks), "\n", '\r');
    NormalizedFixes(SrtText(segments));
    DocReads(segments, true, 0);
    if segments != [] {
      DocHasLines(segments, true, 0);
    } else {
      NoCues(true, 0);
      OneLine("");
      BlankSkips([], true, ',', 0);
      NothingToRead(true, ',', 0);
      assert [""] + [] == [""];
    }
  }

  lemma NewlineFree()
    ensures Free("\n", '\r') && Free("", '\n')
  {
  }
}
