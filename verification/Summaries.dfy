/**
 * End to end for the summary PDF: what a reader finds in the written file is the title, its underline
 * and the body that were given, line by line.
 */
module Summaries {
  import opened Text
  import opened Pdf
  import opened PdfReader

  /** Printable Latin-1. */
  predicate Printable(u: CodeUnit) {
    0x20 <= u <= 0x7E || 0xA0 <= u <= 0xFF
  }

  /** Unit for unit: a printable one stands for itself, any other is a question mark. */
  ghost predicate Shown(text: string, units: seq<CodeUnit>) {
    |text| == |units| &&
    forall i | 0 <= i < |units| :: text[i] == if Printable(units[i]) then units[i] as char else '?'
  }

  /** The title, as many equals signs within a line, an empty line, and the body. */
  ghost predicate Given(texts: seq<string>, title: seq<CodeUnit>, body: seq<seq<CodeUnit>>) {
    && |texts| == 3 + |body|
    && Shown(texts[0], title)
    && |texts[1]| == (if |title| == 0 then 1 else if |title| > 95 then 95 else |title|)
    && (forall i | 0 <= i < |texts[1]| :: texts[1][i] == '=')
    && texts[2] == ""
    && (forall k | 0 <= k < |body| :: Shown(texts[3 + k], body[k]))
  }

  /**
   * Lines of at most 95 characters with the text's characters in order, blanks aside: the text itself
   * if it fits, and of single-spaced words that fit the text broken only at blanks and only where it had to be.
   */
  ghost predicate BrokenInto(lines: seq<string>, text: string) {
    && lines != [] && (forall i | 0 <= i < |lines| :: |lines[i]| <= 95)
    && Without(Flatten(lines), ' ') == Without(text, ' ')
    && (|text| <= 95 ==> lines == [text])
    && (ProperWords(Split(text, ' '), 95) ==> Join(lines, " ") == text && GreedyBreaks(lines, 95))
  }

  lemma Breaks(text: string)
    ensures BrokenInto(Wrapped(text, MAX_CHARS), text)
  {
    hide Without, Flatten, Split, Join, GreedyBreaks, ProperWords, AddWords;
    WrappedFits(text, MAX_CHARS);
    WrappedKeepsText(text, MAX_CHARS);
    if ProperWords(Split(text, ' '), MAX_CHARS) {
      WrappedIsGreedy(text, MAX_CHARS);
    }
  }

  lemma AllLinesAre(title: seq<CodeUnit>, body: seq<seq<CodeUnit>>) returns (texts: seq<string>)
    ensures Given(texts, title, body) && |texts| == |AllLines(title, body)|
    ensures forall k | 0 <= k < |texts| :: texts[k] == Sanitize(AllLines(title, body)[k])
  {
    var all := AllLines(title, body);
    texts := seq(|all|, k requires 0 <= k < |all| => Sanitize(all[k]));
    forall k | 0 <= k < |body| ensures Shown(texts[3 + k], body[k]) {
      assert all[3 + k] == body[k];
    }
  }

  lemma {:induction false} WrappedInGroups(lines: seq<seq<CodeUnit>>) returns (groups: seq<seq<string>>)
    ensures |groups| == |lines| && Flatten(groups) == WrappedLines(lines)
    ensures forall k | 0 <= k < |lines| :: groups[k] == Wrapped(Sanitize(lines[k]), MAX_CHARS)
  {
    hide Wrapped, Sanitize;
    if lines == [] {
      groups := [];
    } else {
      var init, last := lines[..|lines| - 1], Wrapped(Sanitize(lines[|lines| - 1]), MAX_CHARS);
      var before := WrappedInGroups(init);
      groups := before + [last];
      FlattenAppend(before, [last]);
      assert [last][1..] == [] && Flatten([last]) == last + [] == last;
    }
  }

  /**
   * Of the file written for a title and a body, a reader gets on its pages, in order and with nothing
   * else, the lines that the title, its underline, an empty line and each line of the body are broken
   * into. It can be read if every object begins below byte 10^10, and only then.
   */
  lemma SummaryText(title: seq<CodeUnit>, body: seq<seq<CodeUnit>>)
    returns (texts: seq<string>, groups: seq<seq<string>>)
    ensures Given(texts, title, body)
    ensures |groups| == |texts| && forall k | 0 <= k < |texts| :: BrokenInto(groups[k], texts[k])
    ensures var pages := Pages(title, body); var r := ReadPdf(Rendered(pages));
      && (r.Some? <==> Offset(pages, ObjectCount(pages)) < LIMIT)
      && (r.Some? ==> Flatten(r.value) == Flatten(groups))
  {
    hide Given, BrokenInto, ReadPdf, Rendered, Wrapped, Flatten, WrappedLines, Offset, Sanitize;
    texts := AllLinesAre(title, body);
    groups := WrappedInGroups(AllLines(title, body));
    forall k | 0 <= k < |texts| ensures BrokenInto(groups[k], texts[k]) {
      Breaks(texts[k]);
    }
    SummaryRoundTrip(title, body);
    PagesPartitionText(title, body);
  }

  /** When every line fits, that is the given lines themselves, one for one. */
  lemma ShortSummary(title: seq<CodeUnit>, body: seq<seq<CodeUnit>>)
    requires |title| <= 95 && forall k | 0 <= k < |body| :: |body[k]| <= 95
    ensures var pages := Pages(title, body); var r := ReadPdf(Rendered(pages));
      r.Some? ==> Given(Flatten(r.value), title, body)
  {
    hide ReadPdf, Rendered, Pages, Flatten, Offset, Without, Split, Join, GreedyBreaks, ProperWords;
    var texts, groups := SummaryText(title, body);
    forall k | 0 <= k < |texts| ensures groups[k] == [texts[k]] {
      if k >= 3 {
        assert Shown(texts[3 + (k - 3)], body[k - 3]);
      }
      assert BrokenInto(groups[k], texts[k]);
    }
    FlattenOnes(groups, texts);
  }

  lemma {:induction false} FlattenOnes<T>(groups: seq<seq<T>>, texts: seq<T>)
    requires |groups| == |texts| && forall k | 0 <= k < |texts| :: groups[k] == [texts[k]]
    ensures Flatten(groups) == texts
  {
    if texts != [] {
      FlattenOnes(groups[1..], texts[1..]);
    }
  }
}
