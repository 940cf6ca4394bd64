/**
 * End to end: what the store and the server hold together, also after a crash, is the audio the
 * channel captured, and recovery and the server each give it back when they hold it alone.
 */
module Rebuild {
  import opened Wrappers
  import opened Common
  import opened RecoveryStore
  import opened Pipeline
  import opened Durability
  import opened DurableRuns
  import opened Guarantees
  import opened Convergence
  import opened CrashCost
  import opened Losses
  import opened Keys
  import opened Lists
  import opened Grouping
  import opened JsMap
  import Capture
  import Crashes
  import Queue = UploadQueue
  import Manager = RecoveryManager
  import Server
  import Text

  /** The first `n` chunks of a channel, in order. */
  function FinalizedChunks(l: Log, session: string, ch: string, n: nat): (r: seq<StoredChunk>)
    requires forall k: nat | k < n :: ChunkId(session, ch, k) in l.finalized
    ensures |r| == n && forall k: nat | k < n :: r[k] == l.finalized[ChunkId(session, ch, k)]
  {
    seq(n, k requires 0 <= k < n => l.finalized[ChunkId(session, ch, k)])
  }

  /** The duration of the first `n` chunks of a channel. */
  function FinalizedDuration(l: Log, session: string, ch: string, n: nat): int {
    if n == 0 then 0
    else
      var id := ChunkId(session, ch, n - 1);
      FinalizedDuration(l, session, ch, n - 1) + if id in l.finalized then l.finalized[id].meta.durationMs else 0
  }

  lemma BytesPush(chunks: seq<StoredChunk>, c: StoredChunk)
    ensures Text.Flatten(Mapped(chunks + [c], Manager.DataOf)) == Text.Flatten(Mapped(chunks, Manager.DataOf)) + c.data
    ensures Total(chunks + [c], Manager.StoredBytes) == Total(chunks, Manager.StoredBytes) + Manager.StoredBytes(c)
    ensures Total(chunks + [c], Manager.StoredDuration) ==
      Total(chunks, Manager.StoredDuration) + Manager.StoredDuration(c)
  {
    hide Mapped;
    MappedPush(chunks, c, Manager.DataOf);
    Text.FlattenAppend(Mapped(chunks, Manager.DataOf), [c.data]);
    assert [c.data][1..] == [];
    TotalPush(chunks, c, Manager.StoredBytes);
    TotalPush(chunks, c, Manager.StoredDuration);
  }

  lemma FinalizedSize(w: World, l: Log, id: ChunkId)
    requires GoodLog(w, l) && id in l.finalized
    ensures Manager.StoredBytes(l.finalized[id]) == |l.finalized[id].data|
  {
    hide Faithful, DistinctIds, CommitOf, PlainSlot;
    assert GoodChunk(id, l.finalized[id]);
  }

  lemma {:induction false} ChunksHaveBytes(w: World, l: Log, session: string, ch: string, n: nat)
    requires GoodLog(w, l) && forall k: nat | k < n :: ChunkId(session, ch, k) in l.finalized
    ensures var r := FinalizedChunks(l, session, ch, n);
      && Text.Flatten(Mapped(r, Manager.DataOf)) == FinalizedBytes(l, session, ch, n)
      && Total(r, Manager.StoredBytes) == |FinalizedBytes(l, session, ch, n)|
      && Total(r, Manager.StoredDuration) == FinalizedDuration(l, session, ch, n)
  {
    hide GoodLog, Mapped, Total, Text.Flatten;
    if n > 0 {
      ChunksHaveBytes(w, l, session, ch, n - 1);
      var id := ChunkId(session, ch, n - 1);
      var init, c := FinalizedChunks(l, session, ch, n - 1), l.finalized[id];
      assert FinalizedChunks(l, session, ch, n) == init + [c];
      BytesPush(init, c);
      FinalizedSize(w, l, id);
    } else {
      NoChunks();
      assert FinalizedChunks(l, session, ch, n) == [];
    }
  }

  lemma NoChunks()
    ensures Text.Flatten(Mapped<StoredChunk, Bytes>([], Manager.DataOf)) == []
    ensures Total([], Manager.StoredBytes) == 0 && Total([], Manager.StoredDuration) == 0
  {
    assert Mapped<StoredChunk, Bytes>([], Manager.DataOf) == [];
  }

  // ---- how many chunks a channel has finalised ----

  /** The channel has finalised exactly the chunks 0 to n - 1. */
  ghost predicate Counts(l: Log, session: string, ch: string, n: nat) {
    && (forall k: nat | k < n :: ChunkId(session, ch, k) in l.finalized)
    && (forall id | id in l.finalized && id.session == session && id.channel == ch :: id.sequence < n)
  }

  lemma CountsUnique(l: Log, session: string, ch: string, n: nat, m: nat)
    requires Counts(l, session, ch, n) && Counts(l, session, ch, m)
    ensures n == m
  {
    assert n < m ==> ChunkId(session, ch, n) in l.finalized;
    assert m < n ==> ChunkId(session, ch, m) in l.finalized;
  }

  /** While its page lives, that is the number of chunks the channel has emitted. */
  lemma LiveCounts(w: World, s: System, session: string, ch: string)
    requires Inv(w, s) && session in s.pages && ch in s.pages[session].channels
    ensures Counts(s.log, session, ch, |s.pages[session].channels[ch].emitted|)
  {
    hide GoodLog, GoodStore, GoodServer, GoodQueue, GoodPersist, Capture.Inv, PlainId;
    assert GoodPage(w, session, s.pages[session], s.log);
    assert GoodChannel(session, ch, s.pages[session].channels[ch], s.log);
  }

  /** Events only add chunks. */
  lemma StepGrows(w: World, s: System, e: Event)
    requires Inv(w, s) && Enabled(w, s, e)
    ensures Grows(s.log, Step(w, s, e).log)
  {
    hide GoodLog, GoodStore, GoodServer, GoodPages, Counted, PlainId, Server.Handle, Server.Owns, Server.Removed;
    hide Queue.Step, Queue.Enabled, Answered, Sends, Matches, Capture.Step, Capture.Enabled, Emitted, AsStored;
    hide FreshChunk;
    if e.OnChannel? && Emitted(s.pages[e.session].channels[e.channel], e.event).Some? {
      NewIsNew(w, s, e);
    }
  }

  lemma {:induction false} RunGrows(w: World, s: System, events: seq<Event>, r: System)
    requires Inv(w, s) && Run(w, s, events, r)
    ensures Grows(s.log, r.log) && Inv(w, r)
    decreases |events|
  {
    hide Inv, Step, Enabled;
    if events != [] {
      StepGrows(w, s, events[0]);
      StepKeepsInv(w, s, events[0]);
      RunGrows(w, Step(w, s, events[0]), events[1..], r);
    }
  }

  lemma StepCounts(w: World, s: System, e: Event, session: string, ch: string, n: nat) returns (m: nat)
    requires Inv(w, s) && Enabled(w, s, e) && Counts(s.log, session, ch, n)
    ensures Counts(Step(w, s, e).log, session, ch, m)
  {
    hide Inv, PlainId, Server.Handle, Server.Owns, Server.Removed, Queue.Step, Queue.Enabled, Answered, Sends;
    hide Matches, Capture.Step, Capture.Enabled, Emitted, AsStored, FreshChunk, IdOf;
    m := n;
    if e.OnChannel? && Emitted(s.pages[e.session].channels[e.channel], e.event).Some? {
      var st := s.pages[e.session].channels[e.channel];
      EmissionIs(w, s, e);
      if e.session == session && e.channel == ch {
        LiveCounts(w, s, session, ch);
        CountsUnique(s.log, session, ch, n, |st.emitted|);
        m := n + 1;
      }
    }
  }

  lemma EmissionIs(w: World, s: System, e: Event)
    requires Inv(w, s) && Enabled(w, s, e) && e.OnChannel?
    requires Emitted(s.pages[e.session].channels[e.channel], e.event).Some?
    ensures var st := s.pages[e.session].channels[e.channel];
      IdOf(Emitted(st, e.event).value.meta) == ChunkId(e.session, e.channel, |st.emitted|)
  {
    hide Inv, PlainId, Capture.Step, Capture.Enabled, Emitted, AsStored, FreshChunk;
    EmissionCounts(w, s, e.session, e.channel, e.event);
  }

  lemma {:induction false} RunCounts(w: World, s: System, events: seq<Event>, r: System, session: string, ch: string,
      n: nat)
    returns (m: nat)
    requires Inv(w, s) && Run(w, s, events, r) && Counts(s.log, session, ch, n)
    ensures Counts(r.log, session, ch, m)
    decreases |events|
  {
    hide Inv, Step, Enabled, Counts;
    m := n;
    if events != [] {
      m := StepCounts(w, s, events[0], session, ch, n);
      StepKeepsInv(w, s, events[0]);
      m := RunCounts(w, Step(w, s, events[0]), events[1..], r, session, ch, m);
    }
  }

  /** Every channel has such a number in every reached state, with or without its page. */
  lemma ReachedCounts(w: World, s: System, session: string, ch: string) returns (n: nat)
    requires Reached(w, s)
    ensures Counts(s.log, session, ch, n)
  {
    hide Run, Inv;
    var events :| Run(w, START, events, s);
    StartInv(w);
    n := RunCounts(w, START, events, s, session, ch, 0);
  }

  // ---- recovery ----

  /** With all its chunks in the store, a channel's stored chunks are its finalised ones. */
  lemma StoredAreFinalized(w: World, s: System, chunks: JsMap<string, StoredChunk>, session: string, ch: string,
                           n: nat, stored: seq<StoredChunk>, x: StoredChunk)
    requires Inv(w, s) && Counts(s.log, session, ch, n)
    requires Refines(chunks, s.chunks) && Manager.SessionChunks(chunks, session, stored) && Text.Free(session, ':')
    requires forall k: nat | k < n :: ChunkId(session, ch, k) in s.chunks
    ensures x in OnKey(stored, Manager.StoredChannel, ch) <==>
      exists k: nat | k < n ::
        ChunkId(session, ch, k) in s.log.finalized && x == s.log.finalized[ChunkId(session, ch, k)]
  {
    hide Refines, Holds, HasPrefix, KeyOrdered, KeyOf, Inv, OnKey;
    OnKeyMember(stored, Manager.StoredChannel, ch, x);
    GetRefines(chunks, s.chunks, session, x);
    StoreHasFinalized(w, s);
    if k: nat :| k < n && ChunkId(session, ch, k) in s.log.finalized && x == s.log.finalized[ChunkId(session, ch, k)] {
      InvHasId(w, s, ChunkId(session, ch, k));
    }
    if x in stored && x.meta.channel == ch {
      var id := IdOf(x.meta);
      assert id in s.chunks && id == ChunkId(session, ch, id.sequence);
    }
  }

  lemma StoreHasFinalized(w: World, s: System)
    requires Inv(w, s)
    ensures forall id | id in s.chunks :: id in s.log.finalized && s.chunks[id] == s.log.finalized[id]
  {
    hide GoodLog, GoodServer, GoodPages, Counted, Taken;
  }

  lemma FinalizedHasId(w: World, l: Log, id: ChunkId)
    requires GoodLog(w, l) && id in l.finalized
    ensures IdOf(l.finalized[id].meta) == id
  {
    assert GoodChunk(id, l.finalized[id]);
  }

  lemma SortedAreFinalized(w: World, s: System, chunks: JsMap<string, StoredChunk>, session: string, ch: string, n: nat,
      stored: seq<StoredChunk>)
    requires Inv(w, s) && Counts(s.log, session, ch, n)
    requires Refines(chunks, s.chunks) && Manager.SessionChunks(chunks, session, stored) && Text.Free(session, ':')
    requires forall k: nat | k < n :: ChunkId(session, ch, k) in s.chunks && ChunkId(session, ch, k) in s.log.finalized
    ensures SortBy(OnKey(stored, Manager.StoredChannel, ch), Manager.StoredSeq) ==
      FinalizedChunks(s.log, session, ch, n)
  {
    hide Refines, Holds, HasPrefix, KeyOrdered, OnKey, Inv, SortBy, Manager.SessionChunks, Counts;
    var own := OnKey(stored, Manager.StoredChannel, ch);
    var sorted := SortBy(own, Manager.StoredSeq);
    var list := FinalizedChunks(s.log, session, ch, n);
    Manager.StoreGivesDistinct(chunks, s.chunks, session, stored);
    SortDistinct(own, Manager.StoredSeq);
    SameElements(sorted, own);
    forall i, j | 0 <= i < j < n ensures Manager.StoredSeq(list[i]) < Manager.StoredSeq(list[j]) {
      InvHasId(w, s, ChunkId(session, ch, i));
      InvHasId(w, s, ChunkId(session, ch, j));
    }
    forall x ensures x in sorted <==> x in list {
      StoredAreFinalized(w, s, chunks, session, ch, n, stored, x);
      if x in list {
        var k: nat :| k < n && list[k] == x;
        assert ChunkId(session, ch, k) in s.log.finalized;
      }
    }
    IncreasingUnique(sorted, list, Manager.StoredSeq);
  }

  lemma InvHasId(w: World, s: System, id: ChunkId)
    requires Inv(w, s) && id in s.log.finalized
    ensures IdOf(s.log.finalized[id].meta) == id
  {
    hide GoodStore, GoodServer, GoodPages, Counted, GoodLog;
    FinalizedHasId(w, s.log, id);
  }

  /** On a channel whose sorted chunks are known, what recovery rebuilds. */
  lemma RecoveredFrom(w: World, l: Log, session: string, ch: string, n: nat, own: seq<StoredChunk>)
    requires GoodLog(w, l) && n > 0 && forall k: nat | k < n :: ChunkId(session, ch, k) in l.finalized
    requires SortBy(own, Manager.StoredSeq) == FinalizedChunks(l, session, ch, n)
    ensures var rc := Manager.RecoverChannel(ch, own);
      && rc.blob == FinalizedBytes(l, session, ch, n) && rc.byteLength == |rc.blob| && rc.complete && rc.channel == ch
      && rc.durationMs == FinalizedDuration(l, session, ch, n)
      && rc.mimeType == l.finalized[ChunkId(session, ch, 0)].meta.mimeType && own != []
  {
    hide GoodLog, SortBy, FinalizedBytes, FinalizedDuration, Text.Flatten, Total;
    ChunksHaveBytes(w, l, session, ch, n);
    FinalizedHasId(w, l, ChunkId(session, ch, 0));
    FinalizedHasId(w, l, ChunkId(session, ch, n - 1));
  }

  /**
   * Recovery gives back the recording: in any reached state, with the page gone or not, when the
   * chunks a channel has finalised are in the store, the rebuilt audio is all of them, byte by
   * byte, it lasts as long as they do and is of the first one's type, and recovery calls it complete.
   */
  lemma RecoveryRebuilds(w: World, s: System, chunks: JsMap<string, StoredChunk>, session: string, ch: string, n: nat,
      stored: seq<StoredChunk>)
    requires Reached(w, s) && Counts(s.log, session, ch, n) && n > 0
    requires Refines(chunks, s.chunks) && Manager.SessionChunks(chunks, session, stored)
    requires forall k: nat | k < n :: ChunkId(session, ch, k) in s.chunks
    ensures var rc := Manager.RecoverChannel(ch, OnKey(stored, Manager.StoredChannel, ch));
      && rc in Manager.Recover(stored) && rc.channel == ch
      && rc.complete && rc.byteLength == |rc.blob| && rc.blob == FinalizedBytes(s.log, session, ch, n)
      && rc.durationMs == FinalizedDuration(s.log, session, ch, n)
      && ChunkId(session, ch, 0) in s.log.finalized
      && rc.mimeType == s.log.finalized[ChunkId(session, ch, 0)].meta.mimeType
  {
    hide Manager.Recover;
    hide Reached, GoodServer, Counted, Refines, Manager.SessionChunks, Manager.RecoverChannel, OnKey, SortBy;
    hide Text.Flatten, FinalizedBytes, FinalizedDuration, PlainId, GoodPages, GoodStore, Taken, DistinctIds, Faithful;
    hide CommitOf;
    ReachedInv(w, s);
    assert GoodChunk(ChunkId(session, ch, 0), s.log.finalized[ChunkId(session, ch, 0)]);
    Crashes.PlainIsColonFree(session);
    hide GoodLog;
    SortedAreFinalized(w, s, chunks, session, ch, n, stored);
    RecoveredFrom(w, s.log, session, ch, n, OnKey(stored, Manager.StoredChannel, ch));
    Manager.ChannelIsRecovered(stored, ch);
  }

  // ---- the recording on the server ----

  /** The files of a channel's first `n` rows, in sequence order. */
  function ServedBytes(server: Server.ServerState, session: string, ch: string, n: nat): Option<Bytes> {
    if n == 0 then Some([])
    else
      match (ServedBytes(server, session, ch, n - 1), ServedChunk(server, ChunkId(session, ch, n - 1)))
      case (Some(front), Some(data)) => Some(front + data)
      case _ => None
  }

  /** The bytes the server reads for a chunk: the file its row names. */
  function ServedChunk(server: Server.ServerState, id: ChunkId): Option<Bytes> {
    match Server.RowOf(server.rows, id.session, id.channel, id.sequence)
    case None => None
    case Some(row) => Server.Fetch(server, row.storageKey)
  }

  lemma CommittedIsServed(w: World, s: System, id: ChunkId)
    requires id in s.log.finalized && Committed(w, s, id)
    ensures ServedChunk(s.server, id) == Some(s.log.finalized[id].data)
  {
    hide Server.RowOf, Server.Fetch, Dto;
    RowNames(w, s.log.finalized[id]);
  }

  lemma RowNames(w: World, c: StoredChunk)
    ensures Server.Created(Dto(w, c)).storageKey == Dto(w, c).storageKey
  {
  }

  /**
   * When every chunk a channel has finalised was confirmed, the server's rows in sequence order
   * lead to all of them, byte by byte, in any reached state.
   */
  lemma {:induction false} ServerRebuilds(w: World, s: System, session: string, ch: string, n: nat)
    requires Reached(w, s) && session !in s.removed
    requires forall k: nat | k < n :: ChunkId(session, ch, k) in s.log.delivered
    ensures ServedBytes(s.server, session, ch, n) == Some(FinalizedBytes(s.log, session, ch, n))
  {
    hide Reached, ServedChunk, Committed;
    if n > 0 {
      ServerRebuilds(w, s, session, ch, n - 1);
      var id := ChunkId(session, ch, n - 1);
      DeliveredIsCommitted(w, s, id);
      CommittedIsServed(w, s, id);
    }
  }

  // ---- store and server together ----

  /** A chunk's bytes, from the store or else from the server. */
  function HeldChunk(s: System, id: ChunkId): Option<Bytes> {
    if id in s.chunks then Some(s.chunks[id].data) else ServedChunk(s.server, id)
  }

  function HeldBytes(s: System, session: string, ch: string, n: nat): Option<Bytes> {
    if n == 0 then Some([])
    else
      match (HeldBytes(s, session, ch, n - 1), HeldChunk(s, ChunkId(session, ch, n - 1)))
      case (Some(front), Some(data)) => Some(front + data)
      case _ => None
  }

  lemma HeldIsFinalized(w: World, s: System, id: ChunkId)
    requires Reached(w, s) && id in s.log.persisted && !Taken(s.log, id)
    requires id.session !in s.discarded && id.session !in s.removed
    ensures id in s.log.finalized && HeldChunk(s, id) == Some(s.log.finalized[id].data)
  {
    hide Reached, Taken, ServedChunk, Committed, GoodLog, GoodServer, GoodPages, Counted;
    StoredIsNeverLost(w, s, id);
    if id in s.chunks {
      ReachedInv(w, s);
    } else {
      CommittedIsServed(w, s, id);
    }
  }

  /** In any reached state, also after a crash, the stored chunks of a channel are all held, in store or server. */
  lemma {:induction false} StoredIsHeld(w: World, s: System, session: string, ch: string, n: nat)
    requires Reached(w, s) && session !in s.discarded && session !in s.removed
    requires forall k: nat | k < n ::
      ChunkId(session, ch, k) in s.log.persisted && !Taken(s.log, ChunkId(session, ch, k))
    ensures HeldBytes(s, session, ch, n) == Some(FinalizedBytes(s.log, session, ch, n))
  {
    hide Reached, HeldChunk, Taken;
    if n > 0 {
      StoredIsHeld(w, s, session, ch, n - 1);
      HeldIsFinalized(w, s, ChunkId(session, ch, n - 1));
    }
  }

  lemma {:induction false} BytesGrow(l: Log, m: Log, session: string, ch: string, n: nat)
    requires Grows(l, m) && forall k: nat | k < n :: ChunkId(session, ch, k) in l.finalized
    ensures FinalizedBytes(m, session, ch, n) == FinalizedBytes(l, session, ch, n)
  {
    if n > 0 {
      BytesGrow(l, m, session, ch, n - 1);
    }
  }

  /**
   * What a channel had captured at some moment, in any later state, also after crashes: if its
   * chunks were stored by then, store and server together hold every byte up to what was pending.
   */
  lemma CapturedIsHeld(w: World, s: System, events: seq<Event>, r: System, session: string, ch: string)
    requires Reached(w, s) && session in s.pages && ch in s.pages[session].channels && Run(w, s, events, r)
    requires session !in r.discarded && session !in r.removed
    requires forall k: nat | k < |s.pages[session].channels[ch].emitted| ::
      ChunkId(session, ch, k) in r.log.persisted && !Taken(r.log, ChunkId(session, ch, k))
    ensures var st := s.pages[session].channels[ch];
      var held := HeldBytes(r, session, ch, |st.emitted|);
      held.Some? && Text.Flatten(st.received) == held.value + Text.Flatten(st.buffer.parts)
  {
    hide Reached, Run, GoodLog, GoodStore, GoodServer, GoodQueue, GoodPersist, Counted, Capture.Inv, Text.Flatten;
    hide FinalizedBytes, HeldBytes, AsStored, PlainId, Taken, Grows;
    ReachedOn(w, s, events, r);
    StoredIsHeld(w, r, session, ch, |s.pages[session].channels[ch].emitted|);
    ReachedInv(w, s);
    assert GoodPage(w, session, s.pages[session], s.log) &&
      GoodChannel(session, ch, s.pages[session].channels[ch], s.log);
    CapturedBytes(session, ch, s.pages[session].channels[ch], s.log);
    RunGrows(w, s, events, r);
    BytesGrow(s.log, r.log, session, ch, |s.pages[session].channels[ch].emitted|);
  }
}
