/**
 * Recovery on the next launch: which open sessions to offer, and the rebuilt audio of each
 * channel. Its completeness test is a second algorithm, which agrees with the plan's gap scan.
 */
module RecoveryManager {
  import opened Common
  import opened JsMap
  import opened Lists
  import opened Grouping
  import opened Reassemble
  import opened RecoveryStore
  import Decimal
  import Text

  datatype RecoverableSession = RecoverableSession(manifest: Manifest, plan: ReassemblyPlan, hasGaps: bool)

  datatype RecoveredChannel = RecoveredChannel(
    channel: string, blob: Bytes, mimeType: string, durationMs: int, byteLength: int, complete: bool)

  function MetaOf(s: StoredChunk): AudioChunk { s.meta }
  function DataOf(s: StoredChunk): Bytes { s.data }
  function StoredChannel(s: StoredChunk): string { s.meta.channel }
  function StoredSeq(s: StoredChunk): int { s.meta.sequence }
  function StoredDuration(s: StoredChunk): int { s.meta.durationMs }
  function StoredBytes(s: StoredChunk): int { s.meta.byteLength }

  function Metas(stored: seq<StoredChunk>): seq<AudioChunk> {
    Mapped(stored, MetaOf)
  }

  /** One channel rebuilt from its chunks: their data in sequence order. */
  function RecoverChannel(channel: string, chunks: seq<StoredChunk>): RecoveredChannel {
    var sorted := SortBy(chunks, StoredSeq);
    var maxSeq := if sorted == [] then -1 else sorted[|sorted| - 1].meta.sequence;
    RecoveredChannel(channel, Text.Flatten(Mapped(sorted, DataOf)),
      if sorted == [] then "audio/webm" else sorted[0].meta.mimeType,
      Total(sorted, StoredDuration), Total(sorted, StoredBytes),
      |sorted| == maxSeq + 1 && sorted != [] && sorted[0].meta.sequence == 0)
  }

  function RecoverChannels(stored: seq<StoredChunk>, channels: seq<string>): seq<RecoveredChannel> {
    if channels == [] then []
    else
      var init, ch := channels[..|channels| - 1], channels[|channels| - 1];
      RecoverChannels(stored, init) + [RecoverChannel(ch, OnKey(stored, StoredChannel, ch))]
  }

  function Recover(stored: seq<StoredChunk>): seq<RecoveredChannel> {
    RecoverChannels(stored, KeysOf(stored, StoredChannel))
  }

  /** `r` lists the chunks of a session as the store returns them. */
  ghost predicate SessionChunks(chunks: JsMap<string, StoredChunk>, sessionId: string, r: seq<StoredChunk>) {
    && (forall c: StoredChunk :: c in r <==> Holds(chunks, c) && HasPrefix(ChunkKey(c.meta), sessionId))
    && KeyOrdered(r)
  }

  /** An open session with at least one surviving byte. */
  ghost predicate Recoverable(chunks: JsMap<string, StoredChunk>, m: Manifest) {
    && IsOpen(m)
    && exists c: StoredChunk :: Holds(chunks, c) && HasPrefix(ChunkKey(c.meta), m.sessionId) && c.meta.byteLength > 0
  }

  /** An offer is recoverable, and carries the plan of the session's chunks. */
  ghost predicate Offer(chunks: JsMap<string, StoredChunk>, s: RecoverableSession) {
    && Recoverable(chunks, s.manifest) && s.hasGaps == !s.plan.clean
    && exists r :: SessionChunks(chunks, s.manifest.sessionId, r) && s.plan == Plan(s.manifest.sessionId, Metas(r))
  }

  /** The offers for some open sessions: the recoverable ones, each once. */
  ghost predicate Offered(chunks: JsMap<string, StoredChunk>, open: seq<Manifest>, result: seq<RecoverableSession>) {
    && (forall s | s in result :: s.manifest in open && Offer(chunks, s))
    && (forall m | m in open && Recoverable(chunks, m) :: exists s :: s in result && s.manifest == m)
    && (forall i, j | 0 <= i < j < |result| :: result[i].manifest.sessionId != result[j].manifest.sessionId)
  }

  class RecoveryManager {
    const store: MemoryRecoveryStore

    constructor (store: MemoryRecoveryStore)
      ensures this.store == store
    {
      this.store := store;
    }

    /** Offers exactly the recoverable sessions, each once and with the plan of its surviving chunks. */
    method FindRecoverable() returns (result: seq<RecoverableSession>)
      requires store.Valid()
      ensures forall s | s in result ::
        && s.manifest.sessionId in store.manifests.at && store.manifests.at[s.manifest.sessionId] == s.manifest
        && Offer(store.chunks, s)
      ensures forall k | k in store.manifests.at && Recoverable(store.chunks, store.manifests.at[k]) ::
        exists s :: s in result && s.manifest == store.manifests.at[k]
      ensures forall i, j | 0 <= i < j < |result| :: result[i].manifest.sessionId != result[j].manifest.sessionId
    {
      hide Plan, Metas, ChunkKey, HasPrefix, KeyOrdered, Holds, Offer, OpenOf;
      var open := store.ListOpenSessions();
      result := [];
      for i := 0 to |open|
        invariant Offered(store.chunks, open[..i], result)
      {
        var manifest := open[i];
        assert manifest in open;
        var stored := store.GetChunks(manifest.sessionId);
        var plan := PlanReassembly(manifest.sessionId, Metas(stored));
        assert SessionChunks(store.chunks, manifest.sessionId, stored);
        hide SessionChunks, Offered, Recoverable;
        OfferStep(store.chunks, open, i, result, stored);
        if plan.totalBytes > 0 {
          result := result + [RecoverableSession(manifest, plan, !plan.clean)];
        }
      }
      assert open[..|open|] == open;
    }

    method ReassembleSession(sessionId: string) returns (recovered: seq<RecoveredChannel>)
      requires store.Valid()
      ensures exists r :: SessionChunks(store.chunks, sessionId, r) && recovered == Recover(r)
    {
      hide RecoverChannel, OnKey, KeysOf;
      var stored := store.GetChunks(sessionId);
      var byChannel := GroupBy(stored, StoredChannel);
      recovered := [];
      for i := 0 to |byChannel.keys|
        invariant recovered == RecoverChannels(stored, byChannel.keys[..i])
      {
        var ch := byChannel.keys[i];
        assert ch in byChannel.keys && byChannel.keys[..i + 1][..i] == byChannel.keys[..i];
        recovered := recovered + [RecoverChannel(ch, byChannel.at[ch])];
      }
      assert byChannel.keys[..|byChannel.keys|] == byChannel.keys;
      assert SessionChunks(store.chunks, sessionId, stored) && recovered == Recover(stored);
    }

    method Discard(sessionId: string)
      requires store.Valid()
      modifies store
      ensures store.Valid() && store.manifests == old(store.manifests).Remove(sessionId)
      ensures store.chunks == RemoveAll(old(store.chunks), SessionKeys(old(store.chunks).keys, sessionId))
    {
      store.DeleteSession(sessionId);
    }

    method MarkHandled(sessionId: string, now: string)
      requires store.Valid()
      modifies store
      ensures store.Valid() && store.chunks == old(store.chunks)
      ensures sessionId in old(store.manifests).at && now != "" ==>
        sessionId in store.manifests.at && !IsOpen(store.manifests.at[sessionId])
    {
      store.MarkClosed(sessionId, now);
    }
  }

  lemma EarlierSessions(open: seq<Manifest>, i: nat, result: seq<RecoverableSession>)
    requires i < |open| && forall a, b | 0 <= a < b < |open| :: open[a].sessionId != open[b].sessionId
    requires forall s | s in result :: s.manifest in open[..i]
    ensures forall a | 0 <= a < |result| :: result[a].manifest.sessionId != open[i].sessionId
  {
    forall a | 0 <= a < |result| ensures result[a].manifest.sessionId != open[i].sessionId {
      assert result[a] in result;
      var k :| 0 <= k < i && open[..i][k] == result[a].manifest;
    }
  }

  lemma OfferStep(chunks: JsMap<string, StoredChunk>, open: seq<Manifest>, i: nat, result: seq<RecoverableSession>,
      stored: seq<StoredChunk>)
    requires i < |open| && forall a, b | 0 <= a < b < |open| :: open[a].sessionId != open[b].sessionId
    requires Offered(chunks, open[..i], result) && IsOpen(open[i]) && SessionChunks(chunks, open[i].sessionId, stored)
    ensures var plan := Plan(open[i].sessionId, Metas(stored));
      Offered(chunks, open[..i + 1],
        if plan.totalBytes > 0 then result + [RecoverableSession(open[i], plan, !plan.clean)] else result)
  {
    hide Plan, Metas, Recoverable, SessionChunks;
    var plan := Plan(open[i].sessionId, Metas(stored));
    SurfacedIsRecoverable(chunks, open[i], stored);
    EarlierSessions(open, i, result);
    assert open[..i + 1] == open[..i] + [open[i]];
    var session := RecoverableSession(open[i], plan, !plan.clean);
    assert session in result + [session];
  }

  lemma SurfacedIsRecoverable(chunks: JsMap<string, StoredChunk>, m: Manifest, stored: seq<StoredChunk>)
    requires IsOpen(m) && SessionChunks(chunks, m.sessionId, stored)
    ensures Plan(m.sessionId, Metas(stored)).totalBytes > 0 <==> Recoverable(chunks, m)
  {
    hide Plan, ChunkKey, HasPrefix, KeyOrdered;
    PlanBytesPositive(m.sessionId, Metas(stored));
    if HasAudio(Metas(stored)) {
      var c :| c in Metas(stored) && c.byteLength > 0;
      var i :| 0 <= i < |stored| && Metas(stored)[i] == c;
      assert stored[i] in stored;
    }
    if Recoverable(chunks, m) {
      var c: StoredChunk :| Holds(chunks, c) && HasPrefix(ChunkKey(c.meta), m.sessionId) && c.meta.byteLength > 0;
      assert c in stored;
      var i :| 0 <= i < |stored| && stored[i] == c;
      assert Metas(stored)[i] == c.meta && Metas(stored)[i] in Metas(stored);
    }
  }

  // ---- the two reassembly algorithms agree ----

  /** Pigeonhole: an increasing list of naturals that ends at its length minus one skips nothing. */
  lemma {:induction false} IncreasingAtLeast(s: seq<AudioChunk>, i: nat)
    requires Increasing(s, SeqOf) && i < |s|
    ensures s[i].sequence >= i
  {
    if i > 0 {
      IncreasingAtLeast(s, i - 1);
      assert SeqOf(s[i - 1]) < SeqOf(s[i]);
    }
  }

  lemma {:induction false} LastDecides(s: seq<AudioChunk>, i: nat)
    requires Increasing(s, SeqOf) && i < |s| && s[|s| - 1].sequence == |s| - 1
    ensures s[i].sequence == i
    decreases |s| - i
  {
    IncreasingAtLeast(s, i);
    if i < |s| - 1 {
      LastDecides(s, i + 1);
      assert SeqOf(s[i]) < SeqOf(s[i + 1]);
    }
  }

  lemma {:induction false} NoGapsPositions(s: seq<AudioChunk>, i: nat)
    requires Increasing(s, SeqOf) && i < |s|
    requires forall k: nat | k < Bound(s) :: Present(s, k)
    ensures s[i].sequence == i
  {
    IncreasingAtLeast(s, i);
    if i > 0 {
      NoGapsPositions(s, i - 1);
    }
    assert SeqOf(s[i]) <= SeqOf(s[|s| - 1]);
    assert Present(s, i);
    var j :| 0 <= j < |s| && s[j].sequence == i;
    assert forall k | 0 <= k < i :: SeqOf(s[k]) <= i - 1;
    assert forall k | i < k < |s| :: SeqOf(s[i]) < SeqOf(s[k]);
  }

  /** The length-and-first test holds exactly when no sequence number is missing. */
  lemma LengthTestIsGapScan(s: seq<AudioChunk>)
    requires s != [] && Increasing(s, SeqOf)
    ensures |s| == Bound(s) <==> forall k: nat | k < Bound(s) :: Present(s, k)
  {
    if |s| == Bound(s) {
      forall k: nat | k < Bound(s) ensures Present(s, k) {
        LastDecides(s, k);
      }
    }
    if forall k: nat | k < Bound(s) :: Present(s, k) {
      NoGapsPositions(s, |s| - 1);
    }
  }

  lemma SortCommutes(chunks: seq<StoredChunk>)
    requires DistinctBy(chunks, StoredSeq)
    ensures Metas(SortBy(chunks, StoredSeq)) == SortBy(Metas(chunks), SeqOf)
    ensures DistinctBy(Metas(chunks), SeqOf)
  {
    hide SortBy;
    var sorted, metas := SortBy(chunks, StoredSeq), Metas(chunks);
    forall i, j | 0 <= i < j < |metas| ensures SeqOf(metas[i]) != SeqOf(metas[j]) {
      assert StoredSeq(chunks[i]) != StoredSeq(chunks[j]);
    }
    SortDistinct(chunks, StoredSeq);
    SortDistinct(metas, SeqOf);
    SameElements(sorted, chunks);
    SameElements(SortBy(metas, SeqOf), metas);
    MappedMembers(sorted, chunks);
    forall i, j | 0 <= i < j < |sorted| ensures SeqOf(Metas(sorted)[i]) < SeqOf(Metas(sorted)[j]) {
      assert StoredSeq(sorted[i]) < StoredSeq(sorted[j]);
    }
    IncreasingUnique(Metas(sorted), SortBy(metas, SeqOf), SeqOf);
  }

  lemma MappedMembers(a: seq<StoredChunk>, b: seq<StoredChunk>)
    requires forall x :: x in a <==> x in b
    ensures forall m :: m in Metas(a) <==> m in Metas(b)
  {
    forall m | m in Metas(a) ensures m in Metas(b) {
      var i :| 0 <= i < |a| && Metas(a)[i] == m;
      assert a[i] in b;
      var j :| 0 <= j < |b| && b[j] == a[i];
      assert Metas(b)[j] == m;
    }
    forall m | m in Metas(b) ensures m in Metas(a) {
      var i :| 0 <= i < |b| && Metas(b)[i] == m;
      assert b[i] in a;
      var j :| 0 <= j < |a| && a[j] == b[i];
      assert Metas(a)[j] == m;
    }
  }

  lemma OrderAgreement(chunks: seq<StoredChunk>)
    requires DistinctBy(chunks, StoredSeq)
    ensures var sorted, ordered := SortBy(chunks, StoredSeq), Ordered(Metas(chunks));
      && Metas(sorted) == ordered && Duplicates(Metas(chunks)) == []
      && Total(ordered, DurationOf) == Total(sorted, StoredDuration)
      && Total(ordered, BytesOf) == Total(sorted, StoredBytes)
  {
    hide SortBy, Seen, Duplicates;
    var sorted := SortBy(chunks, StoredSeq);
    SortCommutes(chunks);
    OrderedOfDistinct(Metas(chunks));
    TotalMapped(sorted, MetaOf, DurationOf, StoredDuration);
    TotalMapped(sorted, MetaOf, BytesOf, StoredBytes);
  }

  /** The plan's gap scan, by the length and first number of its own order. */
  lemma ContiguousByLength(channel: string, metas: seq<AudioChunk>)
    ensures var ordered := Ordered(metas);
      ChannelPlan(channel, metas).contiguous <==>
        ordered != [] && |ordered| == Bound(ordered) && ordered[0].sequence == 0
  {
    hide Ordered, Present, ChannelPlan;
    var ordered := Ordered(metas);
    OrderedIs(metas);
    ContiguousIsExact(channel, metas);
    PresentEither(channel, metas);
    if ordered != [] {
      LengthTestIsGapScan(ordered);
      if |ordered| == Bound(ordered) {
        LastDecides(ordered, 0);
      }
    }
  }

  lemma PresentEither(channel: string, metas: seq<AudioChunk>)
    ensures forall s: nat :: Present(Ordered(metas), s) <==> Present(metas, s)
    ensures Ordered(metas) == [] <==> metas == []
  {
    hide Ordered, Present;
    forall s: nat ensures Present(Ordered(metas), s) <==> Present(metas, s) {
      GapsAreExact(channel, metas, s);
    }
    GapsAreExact(channel, metas, 0);
  }

  /** On chunks with distinct sequences the two algorithms find the same order, totals and verdict. */
  lemma ChannelAgreement(channel: string, chunks: seq<StoredChunk>)
    requires DistinctBy(chunks, StoredSeq)
    ensures var r, p := RecoverChannel(channel, chunks), ChannelPlan(channel, Metas(chunks));
      && Metas(SortBy(chunks, StoredSeq)) == p.ordered
      && r.complete == p.contiguous
      && r.durationMs == p.totalDurationMs && r.byteLength == p.totalBytes
      && p.duplicateSequences == []
  {
    hide SortBy, Ordered, Total, Duplicates, MissingBelow, Seen;
    OrderAgreement(chunks);
    ContiguousByLength(channel, Metas(chunks));
    assert Deduplicated([]) == [];
  }

  /** Every channel's chunks have distinct sequences. */
  ghost predicate DistinctChannels(stored: seq<StoredChunk>) {
    forall ch :: DistinctBy(OnKey(stored, StoredChannel, ch), StoredSeq)
  }

  lemma {:induction false} RecoverChannelsAre(stored: seq<StoredChunk>, channels: seq<string>)
    ensures var rs := RecoverChannels(stored, channels);
      |rs| == |channels| &&
      forall i | 0 <= i < |rs| :: rs[i] == RecoverChannel(channels[i], OnKey(stored, StoredChannel, channels[i]))
  {
    hide RecoverChannel, OnKey;
    if channels != [] {
      RecoverChannelsAre(stored, channels[..|channels| - 1]);
    }
  }

  /** Session by session: same channels in the same order, same totals, same verdict. */
  lemma SessionAgreement(sessionId: string, stored: seq<StoredChunk>)
    requires DistinctChannels(stored)
    ensures var rs, ps := Recover(stored), Plan(sessionId, Metas(stored)).channels;
      && |rs| == |ps|
      && forall i | 0 <= i < |rs| ::
        && rs[i].channel == ps[i].channel && rs[i].complete == ps[i].contiguous
        && rs[i].durationMs == ps[i].totalDurationMs && rs[i].byteLength == ps[i].totalBytes
  {
    hide OnKey, KeysOf, RecoverChannel, ChannelPlan;
    var channels, metas := KeysOf(stored, StoredChannel), Metas(stored);
    OnKeyMapped(stored, MetaOf, StoredChannel, ChannelOf, "");
    RecoverChannelsAre(stored, channels);
    PlanChannelsAre(metas, channels);
    forall i | 0 <= i < |channels|
      ensures var r, p := RecoverChannel(channels[i], OnKey(stored, StoredChannel, channels[i])),
                          ChannelPlan(channels[i], OnChannel(metas, channels[i]));
        && r.channel == p.channel && r.complete == p.contiguous
        && r.durationMs == p.totalDurationMs && r.byteLength == p.totalBytes
    {
      OnKeyMapped(stored, MetaOf, StoredChannel, ChannelOf, channels[i]);
      ChannelAgreement(channels[i], OnKey(stored, StoredChannel, channels[i]));
      ChannelNames(channels[i], OnKey(stored, StoredChannel, channels[i]), OnChannel(metas, channels[i]));
    }
  }

  lemma ChannelNames(channel: string, stored: seq<StoredChunk>, chunks: seq<AudioChunk>)
    ensures RecoverChannel(channel, stored).channel == channel && ChannelPlan(channel, chunks).channel == channel
  {
  }

  /** What the store returns for a session has distinct sequences in every channel. */
  lemma StoreGivesDistinct(chunks: JsMap<string, StoredChunk>, view: map<ChunkId, StoredChunk>, sessionId: string,
      stored: seq<StoredChunk>)
    requires Refines(chunks, view) && Text.Free(sessionId, ':') && SessionChunks(chunks, sessionId, stored)
    ensures DistinctChannels(stored)
  {
    hide OnKey, Refines, Holds, HasPrefix, KeyOf;
    forall c | c in stored ensures c.meta.sessionId == sessionId {
      GetRefines(chunks, view, sessionId, c);
    }
    forall i, j | 0 <= i < j < |stored| ensures stored[i] != stored[j] {
      Decimal.LessIrreflexive(ChunkKey(stored[i].meta));
    }
    forall ch ensures DistinctBy(OnKey(stored, StoredChannel, ch), StoredSeq) {
      OnKeyDistinct(stored, ch, sessionId);
    }
  }

  lemma {:induction false} OnKeyDistinct(stored: seq<StoredChunk>, ch: string, sessionId: string)
    requires KeyOrdered(stored) && forall c | c in stored :: c.meta.sessionId == sessionId
    ensures DistinctBy(OnKey(stored, StoredChannel, ch), StoredSeq)
  {
    hide OnKey, KeyOf;
    if stored == [] {
      NothingGrouped(StoredChannel, ch);
    } else {
      var init, x := stored[..|stored| - 1], stored[|stored| - 1];
      assert stored == init + [x];
      OnKeyDistinct(init, ch, sessionId);
      OnKeyPush(init, x, StoredChannel, ch);
      var own := OnKey(init, StoredChannel, ch);
      if x.meta.channel == ch {
        forall i | 0 <= i < |own| ensures StoredSeq(own[i]) != StoredSeq(x) {
          assert own[i] in own;
          EarlierSequence(stored, ch, sessionId, own[i]);
        }
      }
    }
  }

  /** The last chunk's sequence differs from that of any other chunk of its channel. */
  lemma EarlierSequence(stored: seq<StoredChunk>, ch: string, sessionId: string, y: StoredChunk)
    requires KeyOrdered(stored) && (forall c | c in stored :: c.meta.sessionId == sessionId) && stored != []
    requires stored[|stored| - 1].meta.channel == ch && y in OnKey(stored[..|stored| - 1], StoredChannel, ch)
    ensures y.meta.sequence != stored[|stored| - 1].meta.sequence
  {
    hide OnKey, KeyOf;
    var init, x := stored[..|stored| - 1], stored[|stored| - 1];
    OnKeyMember(init, StoredChannel, ch, y);
    var k :| 0 <= k < |init| && init[k] == y;
    assert Decimal.Less(ChunkKey(stored[k].meta), ChunkKey(stored[|stored| - 1].meta));
    Decimal.LessIrreflexive(ChunkKey(x.meta));
    assert stored[k] in stored && x in stored;
  }

  /** With repeated sequences the length test can be fooled: chunks 0, 0, 2 look complete. */
  lemma RepeatsFoolTheLengthTest(b: StoredChunk, c: StoredChunk, d: StoredChunk)
    requires b.meta.sequence == 0 && c.meta.sequence == 0 && d.meta.sequence == 2
    ensures RecoverChannel("tab", [b, c, d]).complete && !ChannelPlan("tab", Metas([b, c, d])).contiguous
  {
    hide ChannelPlan, SortBy, Total, Text.Flatten;
    var chunks := [b, c, d];
    SortedIsFixed(chunks, StoredSeq);
    FooledPlan(Metas(chunks));
  }

  /** The chunk of that session and sequence, on channel "tab". */
  function OnTab(c: StoredChunk, session: string, sequence: nat): StoredChunk {
    c.(meta := c.meta.(sessionId := session, channel := "tab", sequence := sequence))
  }

  function StoreOf(b: StoredChunk, c: StoredChunk, d: StoredChunk): JsMap<string, StoredChunk> {
    Empty<string, StoredChunk>().Put(ChunkKey(b.meta), b).Put(ChunkKey(c.meta), c).Put(ChunkKey(d.meta), d)
  }

  /**
   * A store does return repeats, for ids with colons. With chunks 0 and 2 of session "a", and chunk 0
   * of session "a::b", reading "a" gives all three, and recovery takes the channel for complete
   * although its chunk 1 is missing.
   */
  lemma ColonsFoolRecovery(c: StoredChunk) returns (stored: seq<StoredChunk>)
    ensures var store := StoreOf(OnTab(c, "a::b", 0), OnTab(c, "a", 0), OnTab(c, "a", 2));
      && store.Valid() && (forall k | k in store.at :: k == ChunkKey(store.at[k].meta))
      && SessionChunks(store, "a", stored)
    ensures var rc := RecoverChannel("tab", OnKey(stored, StoredChannel, "tab"));
      rc in Recover(stored) && rc.complete && !ChannelPlan("tab", Metas(stored)).contiguous
  {
    hide RecoverChannel, ChannelPlan, OnKey, KeysOf, SessionChunks, Recover;
    var x, y, z := OnTab(c, "a::b", 0), OnTab(c, "a", 0), OnTab(c, "a", 2);
    stored := [x, y, z];
    MixedOrder(x, y, z);
    AllReturned(x, y, z);
    AllOnKey(stored, StoredChannel, "tab");
    RepeatsFoolTheLengthTest(x, y, z);
    ChannelIsRecovered(stored, "tab");
  }

  lemma MixedOrder(x: StoredChunk, y: StoredChunk, z: StoredChunk)
    requires IdOf(x.meta) == ChunkId("a::b", "tab", 0) && IdOf(y.meta) == ChunkId("a", "tab", 0) &&
      IdOf(z.meta) == ChunkId("a", "tab", 2)
    ensures KeyOrdered([x, y, z])
    ensures ChunkKey(x.meta) != ChunkKey(y.meta) && ChunkKey(x.meta) != ChunkKey(z.meta) &&
      ChunkKey(y.meta) != ChunkKey(z.meta)
  {
    hide KeyOf, Decimal.Less, Decimal.Pad, Decimal.Digits;
    KeyOrderIsSequenceOrder(IdOf(y.meta), IdOf(z.meta));
    ColonFirst(0);
    ColonFirst(2);
    forall k: string ensures !Decimal.Less(k, k) {
      Decimal.LessIrreflexive(k);
    }
    assert ChunkKey(x.meta) == KeyOf(IdOf(x.meta)) && ChunkKey(y.meta) == KeyOf(IdOf(y.meta)) &&
      ChunkKey(z.meta) == KeyOf(IdOf(z.meta));
  }

  lemma ColonFirst(sequence: nat)
    ensures Decimal.Less(KeyOf(ChunkId("a::b", "tab", 0)), KeyOf(ChunkId("a", "tab", sequence)))
  {
    hide Decimal.Pad, Decimal.Digits;
    var p, q := Decimal.Pad(Decimal.Digits(0), 6), Decimal.Pad(Decimal.Digits(sequence), 6);
    var r, t := "b::tab::" + p, "tab::" + q;
    assert KeyOf(ChunkId("a::b", "tab", 0)) == "a::" + r && KeyOf(ChunkId("a", "tab", sequence)) == "a::" + t;
    assert r[0] == 'b' && t[0] == 't';
    Decimal.LessAfterPrefix("a::", r, t);
  }

  lemma StoreShape(x: StoredChunk, y: StoredChunk, z: StoredChunk)
    requires ChunkKey(x.meta) != ChunkKey(y.meta)
    requires ChunkKey(x.meta) != ChunkKey(z.meta) && ChunkKey(y.meta) != ChunkKey(z.meta)
    ensures var store := StoreOf(x, y, z);
      && store.Valid() && store.keys == [ChunkKey(x.meta), ChunkKey(y.meta), ChunkKey(z.meta)]
      && store.at == map[ChunkKey(x.meta) := x, ChunkKey(y.meta) := y, ChunkKey(z.meta) := z]
  {
    hide ChunkKey, JsMap.Valid;
    var k, l, m := ChunkKey(x.meta), ChunkKey(y.meta), ChunkKey(z.meta);
    var none := Empty<string, StoredChunk>();
    EmptyValid<string, StoredChunk>();
    PutNew(none, k, x);
    PutNew(none.Put(k, x), l, y);
    PutNew(none.Put(k, x).Put(l, y), m, z);
    assert [] + [k] + [l] + [m] == [k, l, m];
  }

  lemma AllReturned(x: StoredChunk, y: StoredChunk, z: StoredChunk)
    requires IdOf(x.meta) == ChunkId("a::b", "tab", 0)
    requires IdOf(y.meta) == ChunkId("a", "tab", 0) && IdOf(z.meta) == ChunkId("a", "tab", 2)
    requires KeyOrdered([x, y, z])
    requires ChunkKey(x.meta) != ChunkKey(y.meta)
    requires ChunkKey(x.meta) != ChunkKey(z.meta) && ChunkKey(y.meta) != ChunkKey(z.meta)
    ensures var store := StoreOf(x, y, z);
      && store.Valid() && (forall k | k in store.at :: k == ChunkKey(store.at[k].meta))
      && SessionChunks(store, "a", [x, y, z])
  {
    UnderA(x);
    UnderA(y);
    UnderA(z);
    hide ChunkKey, KeyOrdered, HasPrefix, StoreOf, IdOf, JsMap.Valid;
    StoreShape(x, y, z);
    HeldAre(StoreOf(x, y, z).at, x, y, z);
  }

  lemma HeldAre(at: map<string, StoredChunk>, x: StoredChunk, y: StoredChunk, z: StoredChunk)
    requires at == map[ChunkKey(x.meta) := x, ChunkKey(y.meta) := y, ChunkKey(z.meta) := z]
    requires ChunkKey(x.meta) != ChunkKey(y.meta)
    requires ChunkKey(x.meta) != ChunkKey(z.meta) && ChunkKey(y.meta) != ChunkKey(z.meta)
    ensures forall k | k in at :: k == ChunkKey(at[k].meta)
    ensures forall c: StoredChunk :: c in [x, y, z] <==> ChunkKey(c.meta) in at && at[ChunkKey(c.meta)] == c
  {
    hide ChunkKey;
  }

  lemma UnderA(c: StoredChunk)
    requires c.meta.sessionId == "a" || c.meta.sessionId == "a::b"
    ensures HasPrefix(ChunkKey(c.meta), "a")
  {
    ColonsMixSessions(c.meta.channel, c.meta.sequence);
  }

  lemma {:induction false} AllOnKey<T>(s: seq<T>, key: T -> string, k: string)
    requires forall x | x in s :: key(x) == k
    ensures OnKey(s, key, k) == s
  {
    if s != [] {
      AllOnKey(s[..|s| - 1], key, k);
    }
  }

  /** What recovery returns has every channel that has a chunk. */
  lemma ChannelIsRecovered(stored: seq<StoredChunk>, ch: string)
    requires OnKey(stored, StoredChannel, ch) != []
    ensures RecoverChannel(ch, OnKey(stored, StoredChannel, ch)) in Recover(stored)
  {
    hide RecoverChannel, OnKey, KeysOf;
    KeysAre(stored, StoredChannel);
    var channels := KeysOf(stored, StoredChannel);
    RecoverChannelsAre(stored, channels);
    var i :| 0 <= i < |channels| && channels[i] == ch;
    assert Recover(stored)[i] == RecoverChannel(ch, OnKey(stored, StoredChannel, ch));
  }

  lemma FooledPlan(metas: seq<AudioChunk>)
    requires |metas| == 3 && metas[0].sequence == 0 && metas[1].sequence == 0 && metas[2].sequence == 2
    ensures !ChannelPlan("tab", metas).contiguous
  {
    hide Seen, Ordered, ChannelPlan;
    assert Present(metas, 2);
    assert !Present(metas, 1);
    GapsAreExact("tab", metas, 2);
    ContiguousIsExact("tab", metas);
    PlanOrdered("tab", metas);
  }

  lemma PlanOrdered(channel: string, metas: seq<AudioChunk>)
    ensures ChannelPlan(channel, metas).ordered == Ordered(metas)
  {
  }
}
