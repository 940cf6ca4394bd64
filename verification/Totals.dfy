/**
 * End to end, the numbers: once chunks are confirmed, the rows and the recording on the server add up
 * to what was captured, in milliseconds and in bytes.
 */
module Totals {
  import opened Wrappers
  import opened Common
  import opened Lists
  import opened Grouping
  import opened RecoveryStore
  import opened Pipeline
  import opened Durability
  import opened Guarantees
  import opened Convergence
  import opened CrashCost
  import opened Rebuild
  import opened Keys
  import Capture
  import Server
  import Text

  /** While its page lives, the duration of a channel's first chunks is that of those it has emitted. */
  lemma {:induction false} DurationIsCaptured(session: string, ch: string, st: Capture.ChannelState, l: Log, n: nat)
    requires GoodChannel(session, ch, st, l) && n <= |st.emitted|
    ensures FinalizedDuration(l, session, ch, n) == Capture.Durations(st.emitted[..n])
  {
    hide Capture.Durations, GoodChannel;
    if n == 0 {
      NoDuration();
      assert st.emitted[..0] == [];
    } else {
      DurationIsCaptured(session, ch, st, l, n - 1);
      EmittedDuration(session, ch, st, l, n - 1);
      assert st.emitted[..n] == st.emitted[..n - 1] + [st.emitted[n - 1]];
      Capture.DurationsPush(st.emitted[..n - 1], st.emitted[n - 1]);
    }
  }

  lemma NoDuration()
    ensures Capture.Durations([]) == 0
  {
  }

  lemma EmittedDuration(session: string, ch: string, st: Capture.ChannelState, l: Log, k: nat)
    requires GoodChannel(session, ch, st, l) && k < |st.emitted|
    ensures ChunkId(session, ch, k) in l.finalized
    ensures l.finalized[ChunkId(session, ch, k)].meta.durationMs == st.emitted[k].meta.durationMs
  {
    hide Capture.Inv, Text.Flatten;
    assert l.finalized[ChunkId(session, ch, k)] == AsStored(st.emitted[k]);
  }

  // ---- the rows of a channel ----

  /** The row of a confirmed chunk describes it. */
  lemma ConfirmedRow(w: World, s: System, id: ChunkId)
    requires Reached(w, s) && id in s.log.delivered && id.session !in s.removed
    ensures id in s.log.finalized && Owned(w, s.server, id.session)
    ensures Row(s.server, id).Some? && Describes(w, Row(s.server, id).value, s.log.finalized[id])
  {
    hide Reached, Describes, Owned, Dto, Server.RowOf, Server.Fetch;
    DeliveredIsCommitted(w, s, id);
    EffectIsExactlyOnce(w, s, id);
  }

  /** The rows of a channel's first `n` chunks add up to their duration and their bytes. */
  lemma {:induction false} FirstRows(w: World, s: System, session: string, ch: string, n: nat)
    returns (rows: seq<Server.ChunkRow>)
    requires Reached(w, s) && session !in s.removed
    requires forall k: nat | k < n :: ChunkId(session, ch, k) in s.log.delivered
    ensures |rows| == n && forall k: nat | k < n :: Row(s.server, ChunkId(session, ch, k)) == Some(rows[k])
    ensures forall k: nat | k < n ::
      ChunkId(session, ch, k) in s.log.finalized &&
      rows[k].sequence == s.log.finalized[ChunkId(session, ch, k)].meta.sequence
    ensures Total(rows, Server.RowDuration) == FinalizedDuration(s.log, session, ch, n)
    ensures Total(rows, Server.RowBytes) == |FinalizedBytes(s.log, session, ch, n)|
  {
    hide Reached, Row, Total;
    if n == 0 {
      rows := [];
      NoRows();
    } else {
      var init := FirstRows(w, s, session, ch, n - 1);
      var id := ChunkId(session, ch, n - 1);
      ConfirmedRow(w, s, id);
      var row := Row(s.server, id).value;
      rows := init + [row];
      TotalPush(init, row, Server.RowDuration);
      TotalPush(init, row, Server.RowBytes);
    }
  }

  lemma NoRows()
    ensures Total([], Server.RowDuration) == 0 && Total([], Server.RowBytes) == 0
  {
  }

  /** A recording's rows of a channel. */
  function ChannelRows(server: Server.ServerState, session: string, ch: string): seq<Server.ChunkRow> {
    OnKey(Server.OfRecording(server.rows, session), Server.RowChannel, ch)
  }

  /** With every finalised chunk of a channel confirmed, these are just the rows of its chunks. */
  lemma ChannelRowsMember(w: World, s: System, session: string, ch: string, n: nat, rows: seq<Server.ChunkRow>,
      r: Server.ChunkRow)
    requires Reached(w, s) && Owned(w, s.server, session) && Counts(s.log, session, ch, n)
    requires |rows| == n && forall k: nat | k < n :: Row(s.server, ChunkId(session, ch, k)) == Some(rows[k])
    ensures r in ChannelRows(s.server, session, ch) <==> r in rows
  {
    hide Reached, OnKey, Owned, Dto, Server.RowOf;
    OnKeyMember(Server.OfRecording(s.server.rows, session), Server.RowChannel, ch, r);
    OnKeyMember(s.server.rows, Server.RowRecording, session, r);
    if r in rows {
      var k :| 0 <= k < n && rows[k] == r;
      assert Row(s.server, ChunkId(session, ch, k)) == Some(r);
      Server.RowOfMember(s.server.rows, session, ch, k);
    }
    if r in s.server.rows && r.recordingId == session && r.channel == ch {
      var id := ChunkId(session, ch, r.sequence);
      EffectIsExactlyOnce(w, s, id);
      Server.RowFound(s.server.rows, r);
      assert Row(s.server, id) == Some(r);
      assert id in s.log.finalized;
      assert rows[r.sequence] == r;
    }
  }

  /** With every finalised chunk of a channel confirmed, its rows add up to its duration and bytes. */
  lemma ChannelAddsUp(w: World, s: System, session: string, ch: string, n: nat)
    requires Reached(w, s) && session !in s.removed && Owned(w, s.server, session)
    requires Counts(s.log, session, ch, n) && forall k: nat | k < n :: ChunkId(session, ch, k) in s.log.delivered
    ensures var rows := ChannelRows(s.server, session, ch);
      && Total(rows, Server.RowDuration) == FinalizedDuration(s.log, session, ch, n)
      && Total(rows, Server.RowBytes) == |FinalizedBytes(s.log, session, ch, n)|
  {
    hide Reached, Owned, Row, OnKey, ChannelRows, Counts, SortBy, Total, FinalizedBytes, FinalizedDuration;
    var own := ChannelRows(s.server, session, ch);
    var rows := FirstRows(w, s, session, ch, n);
    var sorted := SortBy(own, Server.RowSeq);
    DistinctRows(w, s, session, ch);
    SortDistinct(own, Server.RowSeq);
    SameElements(sorted, own);
    forall x ensures x in sorted <==> x in rows {
      ChannelRowsMember(w, s, session, ch, n, rows, x);
    }
    RowsIncrease(w, s, session, ch, rows);
    IncreasingUnique(sorted, rows, Server.RowSeq);
    TotalPerm(sorted, own, Server.RowDuration);
    TotalPerm(sorted, own, Server.RowBytes);
  }

  lemma DistinctRows(w: World, s: System, session: string, ch: string)
    requires Reached(w, s)
    ensures DistinctBy(ChannelRows(s.server, session, ch), Server.RowSeq)
  {
    hide Reached, Server.UniqueRows, Server.OfRecording;
    EffectIsExactlyOnce(w, s, ChunkId(session, ch, 0));
    Server.ChannelRowsDistinct(s.server.rows, session, ch);
  }

  lemma RowsIncrease(w: World, s: System, session: string, ch: string, rows: seq<Server.ChunkRow>)
    requires Reached(w, s) && forall k: nat | k < |rows| ::
      ChunkId(session, ch, k) in s.log.finalized &&
      rows[k].sequence == s.log.finalized[ChunkId(session, ch, k)].meta.sequence
    ensures Increasing(rows, Server.RowSeq)
  {
    hide Reached, Inv;
    ReachedInv(w, s);
    forall i, j | 0 <= i < j < |rows| ensures Server.RowSeq(rows[i]) < Server.RowSeq(rows[j]) {
      InvHasId(w, s, ChunkId(session, ch, i));
      InvHasId(w, s, ChunkId(session, ch, j));
    }
  }

  // ---- the recording ----

  /** The channels listed are all the session has, and every chunk of theirs was confirmed. */
  ghost predicate AllConfirmed(s: System, session: string, channels: seq<string>, counts: string -> nat) {
    && Distinct(channels)
    && (forall id | id in s.log.finalized && id.session == session :: id.channel in channels)
    && (forall ch | ch in channels :: Counts(s.log, session, ch, counts(ch)))
    && (forall ch, k: nat | ch in channels && k < counts(ch) :: ChunkId(session, ch, k) in s.log.delivered)
  }

  /** The bytes of each channel. */
  function BytesOf(l: Log, session: string, counts: string -> nat): string -> int {
    (ch: string) => |FinalizedBytes(l, session, ch, counts(ch))|
  }

  /**
   * Once all of a session's chunks are confirmed, its recording on the server is as many bytes as they
   * are, and lasts as long as the longest channel.
   */
  lemma RecordingAddsUp(w: World, s: System, session: string, channels: seq<string>, counts: string -> nat)
    requires Reached(w, s) && session !in s.removed && Owned(w, s.server, session)
    requires AllConfirmed(s, session, channels, counts)
    ensures session in s.server.recordings
    ensures var rec := s.server.recordings[session];
      && rec.sizeBytes == Total(channels, BytesOf(s.log, session, counts))
      && (forall ch | ch in channels :: FinalizedDuration(s.log, session, ch, counts(ch)) <= rec.durationMs)
      && (rec.durationMs == 0 ||
          exists ch :: ch in channels && FinalizedDuration(s.log, session, ch, counts(ch)) == rec.durationMs)
  {
    hide Reached, OnKey, FinalizedBytes, FinalizedDuration, Server.OfRecording, Total, Inv;
    var rows := Server.OfRecording(s.server.rows, session);
    ReachedInv(w, s);
    RecordingSums(w, s, session);
    forall r | r in rows ensures r.channel in channels {
      RowsChannel(w, s, session, r);
    }
    forall ch | ch in channels
      ensures var own := OnKey(rows, Server.RowChannel, ch);
        && Total(own, Server.RowBytes) == |FinalizedBytes(s.log, session, ch, counts(ch))|
        && Total(own, Server.RowDuration) == FinalizedDuration(s.log, session, ch, counts(ch))
    {
      ChannelAddsUp(w, s, session, ch, counts(ch));
    }
    TotalOverKeys(rows, channels, Server.RowChannel, Server.RowBytes);
    SameTotal(channels, KeyTotal(rows, Server.RowChannel, Server.RowBytes), BytesOf(s.log, session, counts));
    LongestIsMax(rows, channels);
  }

  lemma RecordingSums(w: World, s: System, session: string)
    requires Inv(w, s) && Owned(w, s.server, session)
    ensures session in s.server.recordings
    ensures Server.SumsUp(s.server.recordings[session], Server.OfRecording(s.server.rows, session))
  {
    hide GoodLog, GoodStore, GoodPages, Counted, Server.SumsUp, Server.UniqueRows, OwnRow, HasRow, HasBytes;
  }

  lemma RowsChannel(w: World, s: System, session: string, r: Server.ChunkRow)
    requires Reached(w, s) && Owned(w, s.server, session) && r in Server.OfRecording(s.server.rows, session)
    ensures ChunkId(session, r.channel, r.sequence) in s.log.finalized
  {
    hide Reached, Owned, Dto, Server.RowOf;
    Server.OfRecordingMembers(s.server.rows, session);
    EffectIsExactlyOnce(w, s, ChunkId(session, r.channel, r.sequence));
    Server.RowFound(s.server.rows, r);
  }

  lemma {:induction false} SameTotal(keys: seq<string>, f: string -> int, g: string -> int)
    requires forall k | k in keys :: f(k) == g(k)
    ensures Total(keys, f) == Total(keys, g)
  {
    if keys != [] {
      assert forall k | k in keys[..|keys| - 1] :: k in keys;
      SameTotal(keys[..|keys| - 1], f, g);
    }
  }

  /** The longest channel is a maximum over any list of channels that has all the rows'. */
  lemma LongestIsMax(rows: seq<Server.ChunkRow>, channels: seq<string>)
    requires forall r | r in rows :: r.channel in channels
    ensures var m := Server.LongestChannel(rows, KeysOf(rows, Server.RowChannel));
      && m >= 0 && (forall ch :: Total(OnKey(rows, Server.RowChannel, ch), Server.RowDuration) <= m)
      && (m == 0 ||
          exists ch :: ch in channels && Total(OnKey(rows, Server.RowChannel, ch), Server.RowDuration) == m)
  {
    hide OnKey, KeysOf, Total, Server.LongestChannel;
    var keys := KeysOf(rows, Server.RowChannel);
    KeysAre(rows, Server.RowChannel);
    LongestIs(rows, keys);
    forall ch
      ensures Total(OnKey(rows, Server.RowChannel, ch), Server.RowDuration) <= Server.LongestChannel(rows, keys)
    {
      if ch !in keys {
        NoRows();
      }
    }
    forall ch | ch in keys ensures ch in channels {
      Inhabited(OnKey(rows, Server.RowChannel, ch));
      var own := OnKey(rows, Server.RowChannel, ch);
      OnKeyMember(rows, Server.RowChannel, ch, own[0]);
    }
  }

  lemma {:induction false} LongestIs(rows: seq<Server.ChunkRow>, keys: seq<string>)
    ensures var m := Server.LongestChannel(rows, keys);
      && m >= 0 && (forall ch | ch in keys :: Total(OnKey(rows, Server.RowChannel, ch), Server.RowDuration) <= m)
      && (m == 0 || exists ch :: ch in keys && Total(OnKey(rows, Server.RowChannel, ch), Server.RowDuration) == m)
  {
    hide OnKey, Total;
    if keys != [] {
      var init, last := keys[..|keys| - 1], keys[|keys| - 1];
      LongestIs(rows, init);
      assert keys == init + [last];
      assert forall ch :: ch in keys <==> ch in init || ch == last;
    }
  }

  /** How many chunks each channel of a page has emitted. */
  function EmittedCounts(p: Page): string -> nat {
    (ch: string) => if ch in p.channels then |p.channels[ch].emitted| else 0
  }

  /** How many bytes each channel of a page has captured up to its pending parts. */
  function CapturedSizes(p: Page): string -> int {
    (ch: string) => if ch in p.channels then |Text.Flatten(Capture.PartsOf(p.channels[ch].emitted))| else 0
  }

  /**
   * End to end while the page lives: once every chunk it has emitted is confirmed, the recording on the
   * server has the bytes captured and the duration of the longest channel captured.
   */
  lemma CapturedAddsUp(w: World, s: System, session: string, channels: seq<string>)
    requires Reached(w, s) && session in s.pages && session !in s.removed && Owned(w, s.server, session)
    requires Distinct(channels) && forall ch :: ch in channels <==> ch in s.pages[session].channels
    requires forall ch, k: nat | ch in channels && k < |s.pages[session].channels[ch].emitted| ::
      ChunkId(session, ch, k) in s.log.delivered
    ensures session in s.server.recordings
    ensures var rec, p := s.server.recordings[session], s.pages[session];
      && rec.sizeBytes == Total(channels, CapturedSizes(p))
      && (forall ch | ch in channels :: Capture.Durations(p.channels[ch].emitted) <= rec.durationMs)
      && (rec.durationMs == 0 ||
          exists ch :: ch in channels && Capture.Durations(p.channels[ch].emitted) == rec.durationMs)
  {
    hide Reached, Inv, Owned, Capture.Durations, Text.Flatten, FinalizedBytes, FinalizedDuration, Capture.PartsOf;
    hide Counts;
    var p, counts := s.pages[session], EmittedCounts(s.pages[session]);
    ReachedInv(w, s);
    forall ch | ch in channels
      ensures Counts(s.log, session, ch, counts(ch))
      ensures FinalizedDuration(s.log, session, ch, counts(ch)) == Capture.Durations(p.channels[ch].emitted)
      ensures |FinalizedBytes(s.log, session, ch, counts(ch))| == CapturedSizes(p)(ch)
    {
      LiveCounts(w, s, session, ch);
      LiveSums(w, s, session, ch);
    }
    LiveChannels(w, s, session);
    RecordingAddsUp(w, s, session, channels, counts);
    SameTotal(channels, BytesOf(s.log, session, counts), CapturedSizes(p));
  }

  lemma LiveChannels(w: World, s: System, session: string)
    requires Inv(w, s) && session in s.pages
    ensures forall id | id in s.log.finalized && id.session == session :: id.channel in s.pages[session].channels
  {
    hide GoodLog, GoodStore, GoodServer, GoodPages;
  }

  lemma LiveSums(w: World, s: System, session: string, ch: string)
    requires Inv(w, s) && session in s.pages && ch in s.pages[session].channels
    ensures var emitted := s.pages[session].channels[ch].emitted;
      && FinalizedDuration(s.log, session, ch, |emitted|) == Capture.Durations(emitted)
      && FinalizedBytes(s.log, session, ch, |emitted|) == Text.Flatten(Capture.PartsOf(emitted))
  {
    hide GoodLog, GoodStore, GoodServer, GoodQueue, GoodPersist, Counted, Capture.Inv, PlainId;
    hide Capture.Durations, Text.Flatten, FinalizedBytes, FinalizedDuration, Capture.PartsOf;
    var st := s.pages[session].channels[ch];
    assert GoodPage(w, session, s.pages[session], s.log);
    assert GoodChannel(session, ch, st, s.log);
    assert st.emitted[..|st.emitted|] == st.emitted;
    hide GoodChannel;
    DurationIsCaptured(session, ch, st, s.log, |st.emitted|);
    EmittedBytes(session, ch, st, s.log, |st.emitted|);
  }
}
