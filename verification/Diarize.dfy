/** Speaker labels by silence gaps, and grouping of consecutive segments by speaker. */
module Diarize {
  import opened Wrappers
  import opened Transcript
  import opened Text

  type Label = seq<CodeUnit>

  type Turn = SegmentOf<Label>

  predicate Labelled(s: Turn) {
    s.speaker.Some? && s.speaker.value != []
  }

  /** Labels end in a letter from 'A' on, one code unit; an index that is not a number gives the unit 0. */
  function SpeakerLabel(index: Option<nat>): (r: Label)
    ensures r != []
  {
    Units("Speaker ") + [match index case Some(k) => ((65 + k) % 0x1_0000) as CodeUnit case None => 0]
  }

  function Abs(m: int): nat {
    if m < 0 then -m else m
  }

  /** `(index + 1) % maxSpeakers`: not a number for 0, and the sign of a negative one is of no effect. */
  function NextIndex(index: Option<nat>, maxSpeakers: int): Option<nat> {
    match index
    case None => None
    case Some(k) => if maxSpeakers == 0 then None else Some((k + 1) % Abs(maxSpeakers))
  }

  method HasSpeakers(segments: seq<Turn>) returns (r: bool)
    ensures r <==> exists i :: 0 <= i < |segments| && Labelled(segments[i])
  {
    for i := 0 to |segments|
      invariant forall k | 0 <= k < i :: !Labelled(segments[k])
    {
      if Labelled(segments[i]) {
        return true;
      }
    }
    r := false;
  }

  /** Whether the silence before segment `i` is long enough for a turn. */
  predicate GapBefore(segments: seq<Turn>, i: nat, gapMs: real)
    requires i < |segments|
  {
    i > 0 && segments[i].startMs - segments[i - 1].endMs >= gapMs
  }

  /** The running speaker index after the segments. */
  function IndexAfter(segments: seq<Turn>, gapMs: real, maxSpeakers: int): Option<nat> {
    if segments == [] then Some(0)
    else
      var init, k := IndexAfter(segments[..|segments| - 1], gapMs, maxSpeakers), |segments| - 1;
      if !Labelled(segments[k]) && GapBefore(segments, k, gapMs) then NextIndex(init, maxSpeakers) else init
  }

  function Assigned(segments: seq<Turn>, gapMs: real, maxSpeakers: int): (r: seq<Turn>)
    ensures |r| == |segments|
  {
    if segments == [] then []
    else
      var init, last := segments[..|segments| - 1], segments[|segments| - 1];
      var speaker := SpeakerLabel(IndexAfter(segments, gapMs, maxSpeakers));
      Assigned(init, gapMs, maxSpeakers) + [if Labelled(last) then last else last.(speaker := Some(speaker))]
  }

  lemma AssignedNext(segments: seq<Turn>, gapMs: real, maxSpeakers: int, i: nat)
    requires i < |segments|
    ensures var init, seg := IndexAfter(segments[..i], gapMs, maxSpeakers), segments[i];
      var next := if !Labelled(seg) && GapBefore(segments, i, gapMs) then NextIndex(init, maxSpeakers) else init;
      && IndexAfter(segments[..i + 1], gapMs, maxSpeakers) == next
      && Assigned(segments[..i + 1], gapMs, maxSpeakers) ==
         Assigned(segments[..i], gapMs, maxSpeakers) +
           [if Labelled(seg) then seg else seg.(speaker := Some(SpeakerLabel(next)))]
  {
    hide SpeakerLabel, NextIndex;
    assert segments[..i + 1][..i] == segments[..i];
  }

  method AssignSpeakersByGaps(segments: seq<Turn>, gapMs: real, maxSpeakers: int) returns (r: seq<Turn>)
    ensures r == Assigned(segments, gapMs, maxSpeakers)
  {
    hide SpeakerLabel, NextIndex, IndexAfter, Assigned;
    r := [];
    var speakerIndex: Option<nat> := Some(0);
    var prevEnd: Option<real> := None;
    NothingAssigned(gapMs, maxSpeakers);
    for i := 0 to |segments|
      invariant r == Assigned(segments[..i], gapMs, maxSpeakers)
      invariant speakerIndex == IndexAfter(segments[..i], gapMs, maxSpeakers)
      invariant prevEnd == if i == 0 then None else Some(segments[i - 1].endMs)
    {
      var seg := segments[i];
      AssignedNext(segments, gapMs, maxSpeakers, i);
      if Labelled(seg) {
        r := r + [seg];
      } else {
        if prevEnd.Some? && seg.startMs - prevEnd.value >= gapMs {
          speakerIndex := NextIndex(speakerIndex, maxSpeakers);
        }
        r := r + [seg.(speaker := Some(SpeakerLabel(speakerIndex)))];
      }
      prevEnd := Some(seg.endMs);
    }
    assert segments[..|segments|] == segments;
  }

  lemma NothingAssigned(gapMs: real, maxSpeakers: int)
    ensures Assigned([], gapMs, maxSpeakers) == [] && IndexAfter([], gapMs, maxSpeakers) == Some(0)
  {
  }

  /** Labelled segments are untouched; the others get a label and nothing else changes. */
  lemma {:induction false} AssignedKeeps(segments: seq<Turn>, gapMs: real, maxSpeakers: int, i: nat)
    requires i < |segments|
    ensures var r := Assigned(segments, gapMs, maxSpeakers)[i];
      && Labelled(r) && r.(speaker := segments[i].speaker) == segments[i]
      && (Labelled(segments[i]) ==> r == segments[i])
      && (!Labelled(segments[i]) ==>
            r.speaker == Some(SpeakerLabel(IndexAfter(segments[..i + 1], gapMs, maxSpeakers))))
  {
    hide SpeakerLabel, IndexAfter;
    var init := segments[..|segments| - 1];
    if i < |init| {
      AssignedKeeps(init, gapMs, maxSpeakers, i);
      assert init[..i + 1] == segments[..i + 1];
    } else {
      assert segments[..i + 1] == segments;
    }
  }

  // ---- grouping ----

  datatype Block = Block(speaker: Option<Label>, startMs: real, endMs: real, segments: seq<Turn>)

  function MaxOf(a: real, b: real): real {
    if a < b then b else a
  }

  /** Extends the last block if its speaker goes on, or begins a new one. */
  function Joined(blocks: seq<Block>, seg: Turn): seq<Block> {
    if blocks != [] && blocks[|blocks| - 1].speaker == seg.speaker then
      var last := blocks[|blocks| - 1];
      blocks[|blocks| - 1 := last.(segments := last.segments + [seg], endMs := MaxOf(last.endMs, seg.endMs))]
    else blocks + [Block(seg.speaker, seg.startMs, seg.endMs, [seg])]
  }

  function Grouped(segments: seq<Turn>): seq<Block> {
    if segments == [] then [] else Joined(Grouped(segments[..|segments| - 1]), segments[|segments| - 1])
  }

  method GroupSegmentsBySpeaker(segments: seq<Turn>) returns (blocks: seq<Block>)
    ensures blocks == Grouped(segments)
  {
    blocks := [];
    for i := 0 to |segments|
      invariant blocks == Grouped(segments[..i])
    {
      var seg := segments[i];
      assert segments[..i + 1][..i] == segments[..i];
      if |blocks| > 0 && blocks[|blocks| - 1].speaker == seg.speaker {
        var last := blocks[|blocks| - 1];
        var endMs := if last.endMs < seg.endMs then seg.endMs else last.endMs;
        blocks := blocks[|blocks| - 1 := last.(segments := last.segments + [seg], endMs := endMs)];
      } else {
        blocks := blocks + [Block(seg.speaker, seg.startMs, seg.endMs, [seg])];
      }
    }
    assert segments[..|segments|] == segments;
  }

  function Runs(blocks: seq<Block>): seq<seq<Turn>> {
    if blocks == [] then [] else Runs(blocks[..|blocks| - 1]) + [blocks[|blocks| - 1].segments]
  }

  /** A block is one speaker's: it begins with its first segment and lasts to its latest end. */
  ghost predicate GoodBlock(b: Block) {
    && b.segments != [] && b.startMs == b.segments[0].startMs
    && (forall i | 0 <= i < |b.segments| :: b.segments[i].speaker == b.speaker && b.segments[i].endMs <= b.endMs)
    && exists i :: 0 <= i < |b.segments| && b.segments[i].endMs == b.endMs
  }

  ghost predicate Maximal(blocks: seq<Block>) {
    && (forall k | 0 <= k < |blocks| :: GoodBlock(blocks[k]))
    && (forall k | 1 <= k < |blocks| :: blocks[k - 1].speaker != blocks[k].speaker)
  }

  lemma BlockGrows(b: Block, seg: Turn)
    requires GoodBlock(b) && b.speaker == seg.speaker
    ensures GoodBlock(b.(segments := b.segments + [seg], endMs := MaxOf(b.endMs, seg.endMs)))
  {
    var r := b.(segments := b.segments + [seg], endMs := MaxOf(b.endMs, seg.endMs));
    var i :| 0 <= i < |b.segments| && b.segments[i].endMs == b.endMs;
    assert r.segments[i] == b.segments[i] && r.segments[|b.segments|] == seg;
  }

  lemma BlockBegins(seg: Turn)
    ensures GoodBlock(Block(seg.speaker, seg.startMs, seg.endMs, [seg]))
  {
    assert [seg][0].endMs == seg.endMs;
  }

  lemma MaximalPush(blocks: seq<Block>, b: Block)
    requires Maximal(blocks) && GoodBlock(b) && (blocks != [] ==> blocks[|blocks| - 1].speaker != b.speaker)
    ensures Maximal(blocks + [b])
  {
    hide GoodBlock;
  }

  lemma MaximalLast(blocks: seq<Block>, b: Block)
    requires Maximal(blocks) && blocks != [] && GoodBlock(b) && b.speaker == blocks[|blocks| - 1].speaker
    ensures Maximal(blocks[..|blocks| - 1] + [b])
  {
    hide GoodBlock;
  }

  lemma LastIsGood(blocks: seq<Block>)
    requires Maximal(blocks) && blocks != []
    ensures GoodBlock(blocks[|blocks| - 1])
  {
  }

  /** One more segment: the runs still lie end to end, and there is a new block only at a change. */
  lemma JoinedIs(blocks: seq<Block>, seg: Turn)
    requires Maximal(blocks)
    ensures Maximal(Joined(blocks, seg))
    ensures Flatten(Runs(Joined(blocks, seg))) == Flatten(Runs(blocks)) + [seg]
    ensures Joined(blocks, seg)[|Joined(blocks, seg)| - 1].speaker == seg.speaker
    ensures |Joined(blocks, seg)| ==
      if blocks != [] && blocks[|blocks| - 1].speaker == seg.speaker then |blocks| else |blocks| + 1
  {
    hide GoodBlock, Maximal, Runs, Flatten;
    if blocks != [] && blocks[|blocks| - 1].speaker == seg.speaker {
      var init, last := blocks[..|blocks| - 1], blocks[|blocks| - 1];
      var grown := last.(segments := last.segments + [seg], endMs := MaxOf(last.endMs, seg.endMs));
      LastIsGood(blocks);
      BlockGrows(last, seg);
      MaximalLast(blocks, grown);
      assert blocks == init + [last] && Joined(blocks, seg) == init + [grown];
      RunsFlatten(init, last);
      RunsFlatten(init, grown);
      assert Flatten(Runs(init)) + (last.segments + [seg]) == Flatten(Runs(init)) + last.segments + [seg];
    } else {
      var b := Block(seg.speaker, seg.startMs, seg.endMs, [seg]);
      BlockBegins(seg);
      MaximalPush(blocks, b);
      RunsFlatten(blocks, b);
    }
  }

  lemma RunsFlatten(init: seq<Block>, b: Block)
    ensures Flatten(Runs(init + [b])) == Flatten(Runs(init)) + b.segments
  {
    assert (init + [b])[..|init|] == init;
    FlattenAppend(Runs(init), [b.segments]);
    assert [b.segments][1..] == [];
  }

  /** How often the speaker changes from one segment to the next. */
  function Changes(segments: seq<Turn>): nat {
    if |segments| <= 1 then 0
    else
      var k := |segments| - 1;
      Changes(segments[..k]) + if segments[k - 1].speaker != segments[k].speaker then 1 else 0
  }

  /** Grouping splits the segments, in order, into the maximal runs of one speaker. */
  lemma {:induction false} GroupedIsMaximal(segments: seq<Turn>)
    ensures Maximal(Grouped(segments)) && Flatten(Runs(Grouped(segments))) == segments
    ensures |Grouped(segments)| == if segments == [] then 0 else 1 + Changes(segments)
    ensures segments != [] ==>
      var bs := Grouped(segments); bs != [] && bs[|bs| - 1].speaker == segments[|segments| - 1].speaker
  {
    hide Maximal, Runs, Joined, Flatten;
    if segments == [] {
      NoBlocks();
    } else {
      var init, seg := segments[..|segments| - 1], segments[|segments| - 1];
      GroupedIsMaximal(init);
      JoinedIs(Grouped(init), seg);
      assert segments == init + [seg];
    }
  }

  lemma NoBlocks()
    ensures Maximal([]) && Flatten(Runs([])) == []
  {
  }

  /** The unlabelled segments after a silence that is long enough for a turn. */
  ghost function LongSilences(segments: seq<Turn>, gapMs: real): set<int> {
    set j | 0 < j < |segments| && !Labelled(segments[j]) && segments[j].startMs - segments[j - 1].endMs >= gapMs
  }

  ghost function Gaps(segments: seq<Turn>, gapMs: real): nat {
    |LongSilences(segments, gapMs)|
  }

  lemma GapsNext(segments: seq<Turn>, gapMs: real)
    requires segments != []
    ensures var k := |segments| - 1;
      Gaps(segments, gapMs) == Gaps(segments[..k], gapMs) +
        if !Labelled(segments[k]) && GapBefore(segments, k, gapMs) then 1 else 0
  {
    var k := |segments| - 1;
    var all, init := LongSilences(segments, gapMs), LongSilences(segments[..k], gapMs);
    if !Labelled(segments[k]) && GapBefore(segments, k, gapMs) {
      assert all == init + {k};
    } else {
      assert all == init;
    }
  }

  ghost predicate Unlabelled(segments: seq<Turn>) {
    forall i | 0 <= i < |segments| :: !Labelled(segments[i])
  }

  /** The index after `n` long silences. */
  function IndexAt(n: nat, maxSpeakers: int): Option<nat> {
    if n == 0 then Some(0) else if maxSpeakers == 0 then None else Some(n % Abs(maxSpeakers))
  }

  /**
   * How often the label changes in `n` long silences. Without speakers it changes once, to the
   * unnumbered one. Otherwise it changes each time, except where the index starts again from a label
   * that looks like the first: with one speaker, and with 65,537 of them and the like.
   */
  function Turns(n: nat, maxSpeakers: int): nat {
    if maxSpeakers == 0 then if n == 0 then 0 else 1
    else if Abs(maxSpeakers) % 0x1_0000 == 1 then n - n / Abs(maxSpeakers)
    else n
  }

  lemma DivStep(n: nat, m: nat)
    requires m > 0
    ensures n % m + 1 < m ==> (n + 1) / m == n / m && (n + 1) % m == n % m + 1
    ensures n % m + 1 == m ==> (n + 1) / m == n / m + 1 && (n + 1) % m == 0
  {
    var q, k := n / m, n % m;
    assert n + 1 == m * q + (k + 1);
    if k + 1 < m {
      DivIs(q, m, k + 1);
    } else {
      assert n + 1 == m * (q + 1) + 0;
      DivIs(q + 1, m, 0);
    }
  }

  lemma DivIs(q: nat, m: nat, k: nat)
    requires k < m
    ensures (m * q + k) / m == q && (m * q + k) % m == k
  {
    var n := m * q + k;
    assert n == m * (n / m) + n % m;
    Scaled(m, q, n / m);
    Scaled(m, n / m, q);
  }

  lemma Scaled(m: nat, a: nat, b: nat)
    ensures a < b ==> m * a + m <= m * b
  {
    if a < b {
      assert m * (a + 1) <= m * b;
    }
  }

  lemma IndexStep(n: nat, maxSpeakers: int)
    ensures NextIndex(IndexAt(n, maxSpeakers), maxSpeakers) == IndexAt(n + 1, maxSpeakers)
  {
    if maxSpeakers != 0 {
      var m := Abs(maxSpeakers);
      DivStep(n, m);
      DivIs(0, m, 0);
      var k := n % m;
      if k + 1 < m {
        DivIs(0, m, k + 1);
      } else {
        DivIs(1, m, 0);
      }
      assert IndexAt(n, maxSpeakers) == Some(k);
    }
  }

  /** One more long silence changes the label exactly as `Turns` counts. */
  lemma TurnStep(n: nat, maxSpeakers: int)
    ensures Turns(n + 1, maxSpeakers) ==
      Turns(n, maxSpeakers) +
      if SpeakerLabel(IndexAt(n, maxSpeakers)) != SpeakerLabel(IndexAt(n + 1, maxSpeakers)) then 1 else 0
  {
    var a, b := IndexAt(n, maxSpeakers), IndexAt(n + 1, maxSpeakers);
    UnitDecides(a, b);
    if maxSpeakers != 0 {
      var m := Abs(maxSpeakers);
      DivStep(n, m);
      DivIs(0, m, 0);
      assert a == Some(n % m) && b == Some((n + 1) % m);
      UnitStep(n % m, m);
    }
  }

  function LastUnit(index: Option<nat>): int {
    match index case Some(k) => (65 + k) % 0x1_0000 case None => 0
  }

  lemma UnitDecides(a: Option<nat>, b: Option<nat>)
    ensures SpeakerLabel(a) == SpeakerLabel(b) <==> LastUnit(a) == LastUnit(b)
  {
    var n := |Units("Speaker ")|;
    assert SpeakerLabel(a)[n] as int == LastUnit(a) && SpeakerLabel(b)[n] as int == LastUnit(b);
  }

  lemma UnitStep(k: nat, m: nat)
    requires k < m
    ensures k + 1 < m ==> LastUnit(Some(k)) != LastUnit(Some(k + 1))
    ensures k + 1 == m ==> (LastUnit(Some(k)) == LastUnit(Some(0)) <==> m % 0x1_0000 == 1)
  {
  }

  lemma {:induction false} IndexIsGaps(segments: seq<Turn>, gapMs: real, maxSpeakers: int)
    ensures IndexAfter(segments, gapMs, maxSpeakers) == IndexAt(Gaps(segments, gapMs), maxSpeakers)
  {
    hide Gaps, NextIndex, GapBefore;
    if segments == [] {
      FirstGaps([], gapMs);
    } else {
      var init := segments[..|segments| - 1];
      IndexIsGaps(init, gapMs, maxSpeakers);
      IndexStep(Gaps(init, gapMs), maxSpeakers);
      GapsNext(segments, gapMs);
    }
  }

  lemma SpeakerOf(segments: seq<Turn>, gapMs: real, maxSpeakers: int, i: nat)
    requires i < |segments| && !Labelled(segments[i])
    ensures Assigned(segments, gapMs, maxSpeakers)[i].speaker ==
      Some(SpeakerLabel(IndexAt(Gaps(segments[..i + 1], gapMs), maxSpeakers)))
  {
    hide SpeakerLabel, IndexAfter, Assigned, IndexAt, Gaps;
    AssignedKeeps(segments, gapMs, maxSpeakers, i);
    IndexIsGaps(segments[..i + 1], gapMs, maxSpeakers);
  }

  /**
   * Every unlabelled segment becomes "Speaker " and a letter. The letter says how many unlabelled
   * segments up to it followed a long silence, counted in turn from 'A' over as many letters as there
   * are speakers, whatever their sign; with no speakers only those before the first such silence get a
   * letter, and the others the unit 0.
   */
  lemma LabelIs(segments: seq<Turn>, gapMs: real, maxSpeakers: int, i: nat)
    requires i < |segments| && !Labelled(segments[i])
    ensures var speaker, turns := Assigned(segments, gapMs, maxSpeakers)[i].speaker, Gaps(segments[..i + 1], gapMs);
      && speaker.Some? && |speaker.value| == 9
      && (forall k | 0 <= k < 8 :: speaker.value[k] as int == "Speaker "[k] as int)
      && speaker.value[8] as int ==
         if maxSpeakers == 0 then if turns == 0 then 'A' as int else 0
         else ('A' as int + turns % (if maxSpeakers < 0 then -maxSpeakers else maxSpeakers)) % 0x1_0000
  {
    hide Assigned, Gaps, Units;
    SpeakerOf(segments, gapMs, maxSpeakers, i);
    SpeakerUnits();
  }

  lemma SpeakerUnits()
    ensures |Units("Speaker ")| == 8 && forall k | 0 <= k < 8 :: Units("Speaker ")[k] as int == "Speaker "[k] as int
  {
    BasicUnits("Speaker ");
  }

  lemma {:induction false} BasicUnits(s: string)
    requires forall k | 0 <= k < |s| :: s[k] as int < 0x1_0000
    ensures |Units(s)| == |s| && forall k | 0 <= k < |s| :: Units(s)[k] as int == s[k] as int
  {
    if s != [] {
      BasicUnits(s[1..]);
    }
  }

  lemma AssignedInit(segments: seq<Turn>, gapMs: real, maxSpeakers: int)
    requires segments != []
    ensures Assigned(segments, gapMs, maxSpeakers)[..|segments| - 1] ==
      Assigned(segments[..|segments| - 1], gapMs, maxSpeakers)
  {
    hide SpeakerLabel, IndexAfter;
  }

  /** On unlabelled segments the label changes at the gaps, as often as `Turns` counts. */
  lemma {:induction false} ChangesAreTurns(segments: seq<Turn>, gapMs: real, maxSpeakers: int)
    requires Unlabelled(segments)
    ensures Changes(Assigned(segments, gapMs, maxSpeakers)) == Turns(Gaps(segments, gapMs), maxSpeakers)
  {
    hide SpeakerLabel, IndexAfter, IndexAt, Turns, Assigned, Gaps;
    if |segments| <= 1 {
      NoTurns(maxSpeakers);
      FirstGaps(segments, gapMs);
    } else {
      var init := segments[..|segments| - 1];
      ChangesAreTurns(init, gapMs, maxSpeakers);
      AssignedInit(segments, gapMs, maxSpeakers);
      assert init[..|init|] == init && segments[..|segments|] == segments;
      SpeakerOf(init, gapMs, maxSpeakers, |init| - 1);
      SpeakerOf(segments, gapMs, maxSpeakers, |segments| - 1);
      TurnStep(Gaps(init, gapMs), maxSpeakers);
      GapsNext(segments, gapMs);
    }
  }

  lemma FirstGaps(segments: seq<Turn>, gapMs: real)
    requires |segments| <= 1
    ensures Gaps(segments, gapMs) == 0
  {
    assert LongSilences(segments, gapMs) == {};
  }

  lemma NoTurns(maxSpeakers: int)
    ensures Turns(0, maxSpeakers) == 0
  {
    if maxSpeakers != 0 {
      DivIs(0, Abs(maxSpeakers), 0);
    }
  }

  lemma AllTurns(n: nat, maxSpeakers: int)
    ensures Turns(n, maxSpeakers) == n <==>
      if maxSpeakers == 0 then n <= 1 else n < Abs(maxSpeakers) || Abs(maxSpeakers) % 0x1_0000 != 1
  {
    if maxSpeakers != 0 {
      var m := Abs(maxSpeakers);
      assert n == m * (n / m) + n % m;
      assert n / m == 0 ==> m * (n / m) == 0;
      if n < m {
        DivIs(0, m, n);
      }
    }
  }

  /**
   * Diarising and then grouping: the blocks are the maximal runs, they hold the given segments in
   * order with only labels added, and there is one more of them than label changes. Every long silence
   * begins a block exactly when no two neighbouring labels in the cycle of speakers are alike, or the
   * cycle is not gone through.
   */
  lemma DiarizedBlocks(segments: seq<Turn>, gapMs: real, maxSpeakers: int)
    requires Unlabelled(segments) && segments != []
    ensures var labelled := Assigned(segments, gapMs, maxSpeakers); var blocks := Grouped(labelled);
      var gaps := Gaps(segments, gapMs);
      && Maximal(blocks) && Flatten(Runs(blocks)) == labelled
      && (forall i | 0 <= i < |segments| :: labelled[i].(speaker := segments[i].speaker) == segments[i])
      && |blocks| == 1 + Turns(gaps, maxSpeakers)
      && (|blocks| == 1 + gaps <==>
            if maxSpeakers == 0 then gaps <= 1 else gaps < Abs(maxSpeakers) || Abs(maxSpeakers) % 0x1_0000 != 1)
  {
    hide Maximal, Grouped, Assigned, Changes, Gaps, Runs, Turns;
    var labelled := Assigned(segments, gapMs, maxSpeakers);
    GroupedIsMaximal(labelled);
    ChangesAreTurns(segments, gapMs, maxSpeakers);
    AllTurns(Gaps(segments, gapMs), maxSpeakers);
    forall i | 0 <= i < |segments| ensures labelled[i].(speaker := segments[i].speaker) == segments[i] {
      AssignedKeeps(segments, gapMs, maxSpeakers, i);
    }
  }
}
