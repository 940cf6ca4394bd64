/**
 * Crash-recovery analysis of the chunk metadata that survived: per channel the playback
 * order, what is missing, what is duplicated, and the totals.
 */
module Reassemble {
  import opened Common
  import opened JsMap
  import opened Lists
  import opened Grouping

  datatype ChannelReassembly = ChannelReassembly(
    channel: string, ordered: seq<AudioChunk>, missingSequences: seq<nat>, duplicateSequences: seq<nat>,
    totalDurationMs: int, totalBytes: int, contiguous: bool)

  datatype ReassemblyPlan = ReassemblyPlan(
    sessionId: string, channels: seq<ChannelReassembly>, clean: bool, totalDurationMs: int, totalBytes: int)

  function SeqOf(c: AudioChunk): int { c.sequence }
  function DurationOf(c: AudioChunk): int { c.durationMs }
  function BytesOf(c: AudioChunk): int { c.byteLength }

  // ---- one channel ----

  /** The kept chunk of each sequence: the largest so far, the later one on ties. */
  function Seen(chunks: seq<AudioChunk>): JsMap<nat, AudioChunk> {
    if chunks == [] then Empty()
    else
      var seen, c := Seen(chunks[..|chunks| - 1]), chunks[|chunks| - 1];
      if seen.Has(c.sequence) && c.byteLength < seen.at[c.sequence].byteLength then seen
      else seen.Put(c.sequence, c)
  }

  /** A sequence is noted each time it is met again. */
  function Duplicates(chunks: seq<AudioChunk>): seq<nat> {
    if chunks == [] then []
    else
      var init, c := chunks[..|chunks| - 1], chunks[|chunks| - 1];
      if Seen(init).Has(c.sequence) then Duplicates(init) + [c.sequence] else Duplicates(init)
  }

  /** `[...new Set(s)]`. */
  function Deduplicated(s: seq<nat>): (r: seq<nat>)
    ensures Distinct(r) && forall x :: x in r <==> x in s
  {
    if s == [] then []
    else
      var init, x := s[..|s| - 1], s[|s| - 1];
      var r := Deduplicated(init);
      assert s == init + [x];
      if x in r then r else r + [x]
  }

  function Values(m: JsMap<nat, AudioChunk>): (r: seq<AudioChunk>)
    requires forall k | k in m.keys :: k in m.at
    ensures |r| == |m.keys|
  {
    seq(|m.keys|, i requires 0 <= i < |m.keys| => m.at[m.keys[i]])
  }

  /** The numbers below `n` that are not in `present`, ascending. */
  function MissingBelow(present: set<nat>, n: nat): seq<nat> {
    if n == 0 then []
    else MissingBelow(present, n - 1) + (if n - 1 in present then [] else [n - 1])
  }

  ghost predicate SeenInv(chunks: seq<AudioChunk>) {
    var m := Seen(chunks);
    && m.Valid()
    && (forall k | k in m.at :: m.at[k].sequence == k && m.at[k] in chunks)
    && (forall c | c in chunks :: c.sequence in m.at)
  }

  lemma {:induction false} SeenIsValid(chunks: seq<AudioChunk>)
    ensures SeenInv(chunks)
  {
    if chunks != [] {
      var init, c := chunks[..|chunks| - 1], chunks[|chunks| - 1];
      assert chunks == init + [c];
      SeenIsValid(init);
    }
  }

  function Ordered(chunks: seq<AudioChunk>): (r: seq<AudioChunk>) {
    SeenIsValid(chunks);
    SortBy(Values(Seen(chunks)), SeqOf)
  }

  /** One more than the largest sequence, or 0. */
  function Bound(ordered: seq<AudioChunk>): nat {
    if ordered == [] then 0 else ordered[|ordered| - 1].sequence + 1
  }

  function ChannelPlan(channel: string, chunks: seq<AudioChunk>): ChannelReassembly {
    var ordered := Ordered(chunks);
    var missing := MissingBelow(Seen(chunks).at.Keys, Bound(ordered));
    ChannelReassembly(channel, ordered, missing, Deduplicated(Duplicates(chunks)),
      Total(ordered, DurationOf), Total(ordered, BytesOf),
      missing == [] && ordered != [] && ordered[0].sequence == 0)
  }

  /** The first loop: keep one chunk a sequence and note every repetition. */
  method Scan(chunks: seq<AudioChunk>) returns (seen: JsMap<nat, AudioChunk>, duplicates: seq<nat>)
    ensures seen == Seen(chunks) && duplicates == Duplicates(chunks)
  {
    seen, duplicates := Empty(), [];
    for i := 0 to |chunks|
      invariant seen == Seen(chunks[..i]) && duplicates == Duplicates(chunks[..i])
    {
      var c := chunks[i];
      assert chunks[..i + 1][..i] == chunks[..i];
      if seen.Has(c.sequence) {
        duplicates := duplicates + [c.sequence];
        if c.byteLength >= seen.at[c.sequence].byteLength {
          seen := seen.Put(c.sequence, c);
        }
      } else {
        seen := seen.Put(c.sequence, c);
      }
    }
    assert chunks[..|chunks|] == chunks;
  }

  method ReassembleChannel(channel: string, chunks: seq<AudioChunk>) returns (r: ChannelReassembly)
    ensures r == ChannelPlan(channel, chunks)
  {
    hide Seen, Duplicates, SortBy;
    var seen, duplicates := Scan(chunks);
    SeenIsValid(chunks);
    var ordered := SortBy(Values(seen), SeqOf);
    var missing: seq<nat> := [];
    if |ordered| > 0 {
      var maxSeq := ordered[|ordered| - 1].sequence;
      for i := 0 to maxSeq + 1
        invariant missing == MissingBelow(seen.at.Keys, i)
      {
        if !seen.Has(i) {
          missing := missing + [i];
        }
      }
    }
    var contiguous := |missing| == 0 && |ordered| > 0 && ordered[0].sequence == 0;
    r := ChannelReassembly(channel, ordered, missing, Deduplicated(duplicates),
      Total(ordered, DurationOf), Total(ordered, BytesOf), contiguous);
  }

  // ---- what the analysis of one channel means ----

  lemma ValuesDistinct(chunks: seq<AudioChunk>)
    ensures SeenInv(chunks) && DistinctBy(Values(Seen(chunks)), SeqOf)
    ensures forall c :: c in Values(Seen(chunks)) <==> c.sequence in Seen(chunks).at && Seen(chunks).at[c.sequence] == c
  {
    hide Seen;
    SeenIsValid(chunks);
    var m := Seen(chunks);
    var v := Values(m);
    forall i | 0 <= i < |v| ensures v[i].sequence == m.keys[i] {
      assert m.keys[i] in m.keys;
    }
    forall c: AudioChunk | c.sequence in m.at && m.at[c.sequence] == c ensures c in v {
      var i :| 0 <= i < |m.keys| && m.keys[i] == c.sequence;
      assert v[i] == c;
    }
  }

  /** Playback order is strictly increasing and holds exactly the kept chunks. */
  lemma OrderedIs(chunks: seq<AudioChunk>)
    ensures SeenInv(chunks) && Increasing(Ordered(chunks), SeqOf)
    ensures forall c :: c in Ordered(chunks) <==> c.sequence in Seen(chunks).at && Seen(chunks).at[c.sequence] == c
  {
    hide Seen;
    ValuesDistinct(chunks);
    SortDistinct(Values(Seen(chunks)), SeqOf);
    SameElements(Ordered(chunks), Values(Seen(chunks)));
  }

  lemma {:induction false} MissingIs(present: set<nat>, n: nat)
    ensures forall i: nat :: i in MissingBelow(present, n) <==> i < n && i !in present
    ensures forall a, b | 0 <= a < b < |MissingBelow(present, n)| ::
      MissingBelow(present, n)[a] < MissingBelow(present, n)[b]
  {
    if n > 0 {
      MissingIs(present, n - 1);
      var m := MissingBelow(present, n - 1);
      assert forall a | 0 <= a < |m| :: m[a] in m;
    }
  }

  predicate Present(chunks: seq<AudioChunk>, s: nat) {
    exists i :: 0 <= i < |chunks| && chunks[i].sequence == s
  }

  lemma SeenKeysArePresent(chunks: seq<AudioChunk>, s: nat)
    requires SeenInv(chunks)
    ensures s in Seen(chunks).at <==> Present(chunks, s)
  {
    hide Seen;
  }

  /** `ordered` is strictly increasing; it and `missingSequences` partition the numbers up to the largest sequence. */
  lemma GapsAreExact(channel: string, chunks: seq<AudioChunk>, s: nat)
    ensures var r := ChannelPlan(channel, chunks);
      && Increasing(r.ordered, SeqOf)
      && (s in r.missingSequences <==> !Present(chunks, s) && s < Bound(r.ordered))
      && (Present(r.ordered, s) <==> Present(chunks, s))
      && (Present(chunks, s) ==> s < Bound(r.ordered))
      && (r.ordered == [] <==> chunks == [])
  {
    hide Seen, SortBy;
    OrderedIs(chunks);
    SeenKeysArePresent(chunks, s);
    var ordered := Ordered(chunks);
    MissingIs(Seen(chunks).at.Keys, Bound(ordered));
    if Present(chunks, s) {
      var c := Seen(chunks).at[s];
      assert c in ordered;
      var i :| 0 <= i < |ordered| && ordered[i] == c;
      assert SeqOf(ordered[i]) <= SeqOf(ordered[|ordered| - 1]);
    }
    if Present(ordered, s) {
      var i :| 0 <= i < |ordered| && ordered[i].sequence == s;
      assert ordered[i] in ordered;
    }
    if ordered != [] {
      assert ordered[0] in ordered;
    }
    if chunks != [] {
      assert chunks[0] in chunks;
      assert Seen(chunks).at[chunks[0].sequence] in ordered;
    }
  }

  lemma NoneMissing(channel: string, chunks: seq<AudioChunk>)
    ensures var r := ChannelPlan(channel, chunks);
      r.missingSequences == [] <==> forall s: nat | s < Bound(r.ordered) :: Present(chunks, s)
  {
    hide ChannelPlan, Bound, Present;
    var r := ChannelPlan(channel, chunks);
    forall s: nat ensures s in r.missingSequences <==> !Present(chunks, s) && s < Bound(r.ordered) {
      GapsAreExact(channel, chunks, s);
    }
    Inhabited(r.missingSequences);
  }

  lemma FirstIsZero(chunks: seq<AudioChunk>)
    requires Present(Ordered(chunks), 0)
    ensures Ordered(chunks)[0].sequence == 0
  {
    hide Ordered;
    OrderedIs(chunks);
    var ordered := Ordered(chunks);
    var i :| 0 <= i < |ordered| && ordered[i].sequence == 0;
    assert i == 0 || SeqOf(ordered[0]) < SeqOf(ordered[i]);
  }

  /** A channel is contiguous exactly when something is there and no number up to the last is missing. */
  lemma ContiguousIsExact(channel: string, chunks: seq<AudioChunk>)
    ensures ChannelPlan(channel, chunks).contiguous <==>
      chunks != [] && forall s: nat | s < Bound(Ordered(chunks)) :: Present(chunks, s)
  {
    hide Ordered, MissingBelow, Present, Seen;
    NoneMissing(channel, chunks);
    GapsAreExact(channel, chunks, 0);
    if Present(Ordered(chunks), 0) {
      FirstIsZero(chunks);
    }
  }

  ghost predicate Twice(chunks: seq<AudioChunk>, s: nat) {
    exists i, j :: 0 <= i < j < |chunks| && chunks[i].sequence == s && chunks[j].sequence == s
  }

  lemma {:induction false} DuplicatesAre(chunks: seq<AudioChunk>, s: nat)
    ensures s in Duplicates(chunks) <==> Twice(chunks, s)
  {
    if chunks != [] {
      var init, c := chunks[..|chunks| - 1], chunks[|chunks| - 1];
      hide Twice, Present, Seen;
      DuplicatesAre(init, s);
      SeenIsValid(init);
      SeenKeysArePresent(init, c.sequence);
      assert chunks == init + [c];
      TwiceStep(init, c, s);
    }
  }

  /** A sequence occurs twice if it did before, or occurs again now. */
  lemma TwiceStep(init: seq<AudioChunk>, c: AudioChunk, s: nat)
    ensures Twice(init + [c], s) <==> Twice(init, s) || (c.sequence == s && Present(init, s))
  {
    var chunks := init + [c];
    if Twice(init, s) {
      var i, j :| 0 <= i < j < |init| && init[i].sequence == s && init[j].sequence == s;
      assert chunks[i].sequence == s && chunks[j].sequence == s;
    } else if c.sequence == s && Present(init, s) {
      var i :| 0 <= i < |init| && init[i].sequence == s;
      assert chunks[i].sequence == s && chunks[|init|].sequence == s;
    } else if Twice(chunks, s) {
      TwiceLater(init, c, s);
    }
  }

  lemma TwiceLater(init: seq<AudioChunk>, c: AudioChunk, s: nat)
    requires Twice(init + [c], s)
    ensures Twice(init, s) || (c.sequence == s && Present(init, s))
  {
    var chunks := init + [c];
    var i, j :| 0 <= i < j < |chunks| && chunks[i].sequence == s && chunks[j].sequence == s;
    assert init[i] == chunks[i];
    assert j < |init| ==> init[j] == chunks[j];
  }

  /** The reported duplicates are exactly the sequences that occur more than once, each once. */
  lemma DuplicatesAreExact(channel: string, chunks: seq<AudioChunk>, s: nat)
    ensures var d := ChannelPlan(channel, chunks).duplicateSequences;
      Distinct(d) && (s in d <==> Twice(chunks, s))
  {
    DuplicatesAre(chunks, s);
  }

  /** The kept chunk is at position `i`, no smaller than any of its sequence and larger than later ones. */
  ghost predicate Wins(chunks: seq<AudioChunk>, i: nat) {
    && i < |chunks|
    && forall j | 0 <= j < |chunks| && chunks[j].sequence == chunks[i].sequence ::
      if j <= i then chunks[j].byteLength <= chunks[i].byteLength else chunks[j].byteLength < chunks[i].byteLength
  }

  lemma SeenStep(init: seq<AudioChunk>, c: AudioChunk)
    ensures var m, r := Seen(init).at, Seen(init + [c]).at;
      r == if c.sequence in m && c.byteLength < m[c.sequence].byteLength then m else m[c.sequence := c]
  {
    assert (init + [c])[..|init|] == init;
  }

  lemma WinsLater(init: seq<AudioChunk>, c: AudioChunk, i: nat)
    requires Wins(init, i) && (c.sequence == init[i].sequence ==> c.byteLength < init[i].byteLength)
    ensures Wins(init + [c], i)
  {
    var all := init + [c];
    assert forall j | 0 <= j < |init| :: all[j] == init[j];
  }

  lemma WinsAgain(init: seq<AudioChunk>, c: AudioChunk, i: nat)
    requires Wins(init, i) && c.sequence == init[i].sequence && c.byteLength >= init[i].byteLength
    ensures Wins(init + [c], |init|)
  {
    var all := init + [c];
    assert forall j | 0 <= j < |init| :: all[j] == init[j];
  }

  lemma {:induction false} KeptIsLargest(chunks: seq<AudioChunk>, s: nat) returns (i: nat)
    requires s in Seen(chunks).at
    ensures i < |chunks| && Wins(chunks, i) && chunks[i] == Seen(chunks).at[s] && chunks[i].sequence == s
  {
    hide Wins, Seen;
    SeenIsValid(chunks);
    var init, c := chunks[..|chunks| - 1], chunks[|chunks| - 1];
    assert chunks == init + [c];
    SeenStep(init, c);
    if s in Seen(init).at {
      var k := KeptIsLargest(init, s);
      if c.sequence == s && c.byteLength >= init[k].byteLength {
        i := |init|;
        WinsAgain(init, c, k);
      } else {
        i := k;
        WinsLater(init, c, k);
      }
    } else {
      i := |init|;
      FirstWins(init, c);
    }
  }

  lemma FirstWins(init: seq<AudioChunk>, c: AudioChunk)
    requires c.sequence !in Seen(init).at
    ensures Wins(init + [c], |init|)
  {
    hide Seen, Present;
    var all := init + [c];
    forall j | 0 <= j < |init| ensures all[j] == init[j] && all[j].sequence != c.sequence {
      SeenHas(init, j);
    }
  }

  lemma SeenHas(chunks: seq<AudioChunk>, j: nat)
    requires j < |chunks|
    ensures chunks[j].sequence in Seen(chunks).at
  {
    hide Seen;
    SeenIsValid(chunks);
    assert chunks[j] in chunks;
  }

  // ---- independence of order, and replanning ----

  function SizeAt(c: AudioChunk): (nat, nat) {
    (c.sequence, c.byteLength)
  }

  function First(p: (nat, nat)): int { p.0 }
  function Second(p: (nat, nat)): int { p.1 }

  lemma KeptSizeAgrees(a: seq<AudioChunk>, b: seq<AudioChunk>, s: nat)
    requires multiset(a) == multiset(b) && s in Seen(a).at
    ensures s in Seen(b).at && Seen(b).at[s].byteLength == Seen(a).at[s].byteLength
  {
    hide Seen;
    SameElements(a, b);
    SeenIsValid(a);
    SeenIsValid(b);
    assert Seen(a).at[s] in b;
    var i := KeptIsLargest(a, s);
    var j := KeptIsLargest(b, s);
    assert a[i] in b && b[j] in a;
    var p :| 0 <= p < |b| && b[p] == a[i];
    var q :| 0 <= q < |a| && a[q] == b[j];
    assert b[p].byteLength <= b[j].byteLength && a[q].byteLength <= a[i].byteLength;
  }

  lemma SizesIn(chunks: seq<AudioChunk>, p: (nat, nat))
    ensures p in Mapped(Ordered(chunks), SizeAt) <==>
      p.0 in Seen(chunks).at && Seen(chunks).at[p.0].byteLength == p.1
  {
    hide Seen, Ordered;
    OrderedIs(chunks);
    var m := Mapped(Ordered(chunks), SizeAt);
    if p in m {
      var i :| 0 <= i < |m| && m[i] == p;
      assert Ordered(chunks)[i] in Ordered(chunks);
    }
    if p.0 in Seen(chunks).at && Seen(chunks).at[p.0].byteLength == p.1 {
      var c := Seen(chunks).at[p.0];
      assert c in Ordered(chunks);
      var i :| 0 <= i < |Ordered(chunks)| && Ordered(chunks)[i] == c;
      assert m[i] == p;
    }
  }

  /** Which sizes are kept, in which order, does not depend on the order of the input. */
  lemma SizesAreOrderFree(a: seq<AudioChunk>, b: seq<AudioChunk>)
    requires multiset(a) == multiset(b)
    ensures Mapped(Ordered(a), SizeAt) == Mapped(Ordered(b), SizeAt)
    ensures Total(Ordered(a), BytesOf) == Total(Ordered(b), BytesOf)
  {
    hide Seen, Ordered;
    OrderedIs(a);
    OrderedIs(b);
    var x, y := Mapped(Ordered(a), SizeAt), Mapped(Ordered(b), SizeAt);
    forall p ensures p in x <==> p in y {
      SizesIn(a, p);
      SizesIn(b, p);
      if p.0 in Seen(a).at {
        KeptSizeAgrees(a, b, p.0);
      }
      if p.0 in Seen(b).at {
        KeptSizeAgrees(b, a, p.0);
      }
    }
    assert forall i | 0 <= i < |x| :: First(x[i]) == SeqOf(Ordered(a)[i]);
    assert forall i | 0 <= i < |y| :: First(y[i]) == SeqOf(Ordered(b)[i]);
    IncreasingUnique(x, y, First);
    TotalMapped(Ordered(a), SizeAt, Second, BytesOf);
    TotalMapped(Ordered(b), SizeAt, Second, BytesOf);
  }

  lemma NewSequence(init: seq<AudioChunk>, c: AudioChunk)
    requires DistinctBy(init + [c], SeqOf)
    ensures !Seen(init).Has(c.sequence)
  {
    hide Seen;
    SeenIsValid(init);
    var all := init + [c];
    assert forall i | 0 <= i < |init| :: all[i] == init[i] && SeqOf(all[i]) != SeqOf(all[|init|]);
    assert forall k | k in init :: k.sequence != c.sequence;
  }

  lemma ValuesPush(m: JsMap<nat, AudioChunk>, c: AudioChunk)
    requires m.Valid() && !m.Has(c.sequence)
    ensures Values(m.Put(c.sequence, c)) == Values(m) + [c]
  {
    assert forall i | 0 <= i < |m.keys| :: m.keys[i] in m.keys;
  }

  lemma {:induction false} DistinctSeen(chunks: seq<AudioChunk>)
    requires DistinctBy(chunks, SeqOf)
    ensures SeenInv(chunks) && Values(Seen(chunks)) == chunks && Duplicates(chunks) == []
  {
    hide Values;
    SeenIsValid(chunks);
    if chunks != [] {
      var init, c := chunks[..|chunks| - 1], chunks[|chunks| - 1];
      assert chunks == init + [c];
      DistinctSeen(init);
      NewSequence(init, c);
      ValuesPush(Seen(init), c);
    } else {
      NoValues();
    }
  }

  lemma NoValues()
    ensures Values(Empty()) == []
  {
  }

  /** Without repeated sequences, playback order is just the chunks sorted. */
  lemma OrderedOfDistinct(chunks: seq<AudioChunk>)
    requires DistinctBy(chunks, SeqOf)
    ensures Ordered(chunks) == SortBy(chunks, SeqOf) && Duplicates(chunks) == []
  {
    DistinctSeen(chunks);
  }

  /** Analysing the kept chunks again changes nothing and finds no duplicate. */
  lemma ReplanIsFixed(channel: string, chunks: seq<AudioChunk>)
    ensures var r := ChannelPlan(channel, chunks);
      ChannelPlan(channel, r.ordered) == r.(duplicateSequences := [])
  {
    hide SortBy, Seen;
    OrderedIs(chunks);
    var ordered := Ordered(chunks);
    OrderedOfDistinct(ordered);
    SortDistinct(ordered, SeqOf);
    SameElements(SortBy(ordered, SeqOf), ordered);
    IncreasingUnique(SortBy(ordered, SeqOf), ordered, SeqOf);
    OrderedIs(ordered);
    SeenIsValid(chunks);
    SeenIsValid(ordered);
    forall s: nat ensures s in Seen(ordered).at <==> s in Seen(chunks).at {
      SeenKeysArePresent(chunks, s);
      SeenKeysArePresent(ordered, s);
      GapsAreExact(channel, chunks, s);
    }
    assert Seen(ordered).at.Keys == Seen(chunks).at.Keys;
    assert Deduplicated([]) == [];
  }

  // ---- the whole session ----

  function ChannelOf(c: AudioChunk): string { c.channel }

  function OnChannel(chunks: seq<AudioChunk>, channel: string): (r: seq<AudioChunk>) {
    OnKey(chunks, ChannelOf, channel)
  }

  /** The channels in order of first appearance. */
  function ChannelsOf(chunks: seq<AudioChunk>): (r: seq<string>) {
    KeysOf(chunks, ChannelOf)
  }

  function PlanChannels(chunks: seq<AudioChunk>, channels: seq<string>): seq<ChannelReassembly> {
    if channels == [] then []
    else
      var init, ch := channels[..|channels| - 1], channels[|channels| - 1];
      PlanChannels(chunks, init) + [ChannelPlan(ch, OnChannel(chunks, ch))]
  }

  function ChannelBytes(r: ChannelReassembly): int { r.totalBytes }

  function LongestDuration(rs: seq<ChannelReassembly>): int {
    if rs == [] then 0
    else
      var m, d := LongestDuration(rs[..|rs| - 1]), rs[|rs| - 1].totalDurationMs;
      if m < d then d else m
  }

  function Plan(sessionId: string, chunks: seq<AudioChunk>): ReassemblyPlan {
    var channels := PlanChannels(chunks, ChannelsOf(chunks));
    ReassemblyPlan(sessionId, channels, channels != [] && (forall r | r in channels :: r.contiguous),
      LongestDuration(channels), Total(channels, ChannelBytes))
  }

  method PlanReassembly(sessionId: string, chunks: seq<AudioChunk>) returns (plan: ReassemblyPlan)
    ensures plan == Plan(sessionId, chunks)
  {
    hide ChannelPlan, OnKey, KeysOf, PlanChannels, LongestDuration, Total;
    var byChannel := GroupBy(chunks, ChannelOf);
    NoChannels(chunks);
    var channels: seq<ChannelReassembly> := [];
    for i := 0 to |byChannel.keys|
      invariant channels == PlanChannels(chunks, byChannel.keys[..i])
    {
      var ch := byChannel.keys[i];
      assert ch in byChannel.keys;
      NextChannel(chunks, byChannel.keys, i);
      var r := ReassembleChannel(ch, byChannel.at[ch]);
      channels := channels + [r];
    }
    assert byChannel.keys[..|byChannel.keys|] == byChannel.keys;
    plan := ReassemblyPlan(sessionId, channels, |channels| > 0 && forall r | r in channels :: r.contiguous,
      LongestDuration(channels), Total(channels, ChannelBytes));
  }

  lemma NoChannels(chunks: seq<AudioChunk>)
    ensures PlanChannels(chunks, []) == []
  {
  }

  lemma NextChannel(chunks: seq<AudioChunk>, channels: seq<string>, i: nat)
    requires i < |channels|
    ensures PlanChannels(chunks, channels[..i + 1]) ==
      PlanChannels(chunks, channels[..i]) + [ChannelPlan(channels[i], OnChannel(chunks, channels[i]))]
  {
    hide ChannelPlan, OnChannel;
    assert channels[..i + 1][..i] == channels[..i];
  }

  lemma {:induction false} PlanChannelsAre(chunks: seq<AudioChunk>, channels: seq<string>)
    ensures var rs := PlanChannels(chunks, channels);
      |rs| == |channels| &&
      forall i | 0 <= i < |rs| :: rs[i] == ChannelPlan(channels[i], OnChannel(chunks, channels[i]))
  {
    hide ChannelPlan, OnChannel;
    if channels != [] {
      PlanChannelsAre(chunks, channels[..|channels| - 1]);
    }
  }

  /** A session is clean exactly when it has chunks and no channel with chunks has a gap. */
  lemma CleanIsExact(sessionId: string, chunks: seq<AudioChunk>)
    ensures Plan(sessionId, chunks).clean <==>
      chunks != [] && forall ch | OnChannel(chunks, ch) != [] :: ChannelPlan(ch, OnChannel(chunks, ch)).contiguous
  {
    hide ChannelPlan, OnChannel, KeysOf, Total;
    var channels := ChannelsOf(chunks);
    PlanChannelsAre(chunks, channels);
    var rs := PlanChannels(chunks, channels);
    ChannelsHave(chunks);
    assert forall i | 0 <= i < |rs| :: rs[i] in rs;
    assert forall i | 0 <= i < |channels| :: channels[i] in channels;
  }

  lemma ChannelsHave(chunks: seq<AudioChunk>)
    ensures forall ch :: ch in ChannelsOf(chunks) <==> OnChannel(chunks, ch) != []
    ensures ChannelsOf(chunks) == [] <==> chunks == []
  {
    KeysAre(chunks, ChannelOf);
    if chunks != [] {
      OnKeyMember(chunks, ChannelOf, chunks[0].channel, chunks[0]);
    }
  }

  /**
   * For every chunk the plan keeps one of its channel and sequence that is no smaller, in that channel's
   * entry, of which there is one.
   */
  lemma PlanKeeps(sessionId: string, chunks: seq<AudioChunk>, c: AudioChunk)
    returns (r: ChannelReassembly, kept: AudioChunk)
    requires c in chunks
    ensures var plan := Plan(sessionId, chunks);
      && plan.sessionId == sessionId && r in plan.channels && r.channel == c.channel
      && forall q | q in plan.channels && q.channel == c.channel :: q == r
    ensures kept in r.ordered && kept.sequence == c.sequence && kept.byteLength >= c.byteLength
  {
    hide KeysOf, OnChannel, OnKey, Ordered, Wins, PlanChannels;
    var channels, own := ChannelsOf(chunks), OnChannel(chunks, c.channel);
    PlanChannelsAre(chunks, channels);
    OnChannelMember(chunks, c.channel, c);
    ChannelsHave(chunks);
    var i :| 0 <= i < |channels| && channels[i] == c.channel;
    r := PlanChannels(chunks, channels)[i];
    kept := LargestKept(own, c);
    forall q | q in PlanChannels(chunks, channels) && q.channel == c.channel ensures q == r {
      var j :| 0 <= j < |channels| && PlanChannels(chunks, channels)[j] == q;
    }
  }

  lemma LargestKept(chunks: seq<AudioChunk>, c: AudioChunk) returns (kept: AudioChunk)
    requires c in chunks
    ensures kept in Ordered(chunks) && kept.sequence == c.sequence && kept.byteLength >= c.byteLength
  {
    hide Seen, Ordered;
    OrderedIs(chunks);
    SeenIsValid(chunks);
    var i := KeptIsLargest(chunks, c.sequence);
    kept := chunks[i];
    var j :| 0 <= j < |chunks| && chunks[j] == c;
  }

  lemma OnChannelMember(chunks: seq<AudioChunk>, ch: string, c: AudioChunk)
    ensures c in OnChannel(chunks, ch) <==> c in chunks && c.channel == ch
  {
    OnKeyMember(chunks, ChannelOf, ch, c);
  }

  /** And it keeps nothing but given chunks of the channel. */
  lemma PlanKeepsOnly(sessionId: string, chunks: seq<AudioChunk>, r: ChannelReassembly, kept: AudioChunk)
    requires r in Plan(sessionId, chunks).channels && kept in r.ordered
    ensures kept in chunks && kept.channel == r.channel
  {
    hide KeysOf, OnChannel, OnKey, Ordered, PlanChannels, Seen;
    var channels := ChannelsOf(chunks);
    PlanChannelsAre(chunks, channels);
    var i :| 0 <= i < |channels| && PlanChannels(chunks, channels)[i] == r;
    OrderedIs(OnChannel(chunks, channels[i]));
    OnChannelMember(chunks, channels[i], kept);
  }

  lemma {:induction false} PlanTotal(chunks: seq<AudioChunk>, channels: seq<string>, f: string -> int)
    requires forall ch | ch in channels :: f(ch) == Total(Ordered(OnChannel(chunks, ch)), BytesOf)
    ensures Total(PlanChannels(chunks, channels), ChannelBytes) == Total(channels, f)
  {
    hide OnChannel, Ordered;
    if channels != [] {
      var init, ch := channels[..|channels| - 1], channels[|channels| - 1];
      assert ch in channels;
      PlanTotal(chunks, init, f);
      TotalPush(PlanChannels(chunks, init), ChannelPlan(ch, OnChannel(chunks, ch)), ChannelBytes);
    }
  }

  /** The bytes a plan finds do not depend on the order in which chunks come. */
  lemma PlanBytesAreOrderFree(sessionId: string, a: seq<AudioChunk>, b: seq<AudioChunk>)
    requires multiset(a) == multiset(b)
    ensures Plan(sessionId, a).totalBytes == Plan(sessionId, b).totalBytes
  {
    hide OnKey, KeysOf, Ordered, Total;
    var f := (ch: string) => Total(Ordered(OnChannel(a, ch)), BytesOf);
    forall ch: string ensures f(ch) == Total(Ordered(OnChannel(b, ch)), BytesOf) {
      OnKeyPerm(a, b, ChannelOf, ch);
      SizesAreOrderFree(OnChannel(a, ch), OnChannel(b, ch));
    }
    PlanTotal(a, ChannelsOf(a), f);
    PlanTotal(b, ChannelsOf(b), f);
    KeysPerm(a, b, ChannelOf);
    TotalPerm(ChannelsOf(a), ChannelsOf(b), f);
  }

  lemma {:induction false} TotalPositive<T>(s: seq<T>, f: T -> int)
    requires forall x | x in s :: f(x) >= 0
    ensures Total(s, f) >= 0
    ensures Total(s, f) > 0 <==> exists x :: x in s && f(x) > 0
  {
    if s != [] {
      assert s == s[..|s| - 1] + [s[|s| - 1]];
      TotalPositive(s[..|s| - 1], f);
    }
  }

  predicate HasAudio(chunks: seq<AudioChunk>) {
    exists c :: c in chunks && c.byteLength > 0
  }

  lemma ChannelBytesPositive(channel: string, chunks: seq<AudioChunk>)
    ensures ChannelPlan(channel, chunks).totalBytes >= 0
    ensures ChannelPlan(channel, chunks).totalBytes > 0 <==> HasAudio(chunks)
  {
    hide Seen, Ordered;
    OrderedIs(chunks);
    var ordered := Ordered(chunks);
    TotalPositive(ordered, BytesOf);
    if c :| c in chunks && c.byteLength > 0 {
      var i := KeptIsLargest(chunks, c.sequence);
      var j :| 0 <= j < |chunks| && chunks[j] == c;
      assert chunks[i] in ordered && chunks[j].byteLength <= chunks[i].byteLength;
    }
  }

  /** A session is surfaced for recovery exactly when some surviving chunk has bytes. */
  lemma PlanBytesPositive(sessionId: string, chunks: seq<AudioChunk>)
    ensures Plan(sessionId, chunks).totalBytes > 0 <==> HasAudio(chunks)
  {
    hide ChannelPlan, KeysOf, OnKey;
    var channels := ChannelsOf(chunks);
    var rs := PlanChannels(chunks, channels);
    PlanChannelsAre(chunks, channels);
    ChannelsHave(chunks);
    forall i | 0 <= i < |rs|
      ensures rs[i].totalBytes >= 0 && (rs[i].totalBytes > 0 <==> HasAudio(OnChannel(chunks, channels[i])))
    {
      ChannelBytesPositive(channels[i], OnChannel(chunks, channels[i]));
    }
    TotalPositive(rs, ChannelBytes);
    if c :| c in chunks && c.byteLength > 0 {
      OnKeyMember(chunks, ChannelOf, c.channel, c);
      assert c in OnChannel(chunks, c.channel);
      assert c.channel in channels;
      var i :| 0 <= i < |channels| && channels[i] == c.channel;
      assert rs[i] in rs && ChannelBytes(rs[i]) > 0;
    }
    if r :| r in rs && ChannelBytes(r) > 0 {
      var i :| 0 <= i < |rs| && rs[i] == r;
      var c :| c in OnChannel(chunks, channels[i]) && c.byteLength > 0;
      OnKeyMember(chunks, ChannelOf, channels[i], c);
    }
  }
}
