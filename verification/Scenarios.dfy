/** Runs that show where the pipeline's promises end. */
module Scenarios {
  import opened Wrappers
  import opened Common
  import opened RecoveryStore
  import opened Pipeline
  import opened Durability
  import opened Guarantees
  import opened CrashCost
  import opened Crashes
  import opened Losses
  import opened StoreRuns
  import opened Keys
  import Capture
  import Convergence
  import Queue = UploadQueue
  import Server
  import Text

  /** The channel is recording its chunk `n`, with nothing pending yet. */
  predicate Listening(st: Capture.ChannelState, n: nat) {
    && st.active && !st.finalizing && st.encoders != [] && Capture.Last(st) == Capture.Live(false, [])
    && st.buffer.parts == [] && st.buffer.sequence == n && |st.emitted| == n
  }

  predicate Recording(s: System, session: string, ch: string, n: nat) {
    && session in s.pages && ch in s.pages[session].channels
    && var st := s.pages[session].channels[ch];
       st.opts.sessionId == session && st.opts.channel == ch && Listening(st, n)
  }

  /** Some sound, a rotation, the encoder's data and its stop event. */
  function ChunkEvents(i: nat, part: Bytes, id: string): seq<Capture.ChannelEvent> {
    [Capture.Encode(i, part), Capture.RotateTick, Capture.Data(i, part), Capture.Stopped(i, 0.0, id, "")]
  }

  /** One chunk through the channel's machine. */
  lemma ChunkThrough(st: Capture.ChannelState, n: nat, part: Bytes, id: string)
    returns (a: Capture.ChannelState, b: Capture.ChannelState, c: Capture.ChannelState, d: Capture.ChannelState)
    requires Listening(st, n) && part != []
    ensures var es := ChunkEvents(|st.encoders| - 1, part, id);
      && Capture.Enabled(st, es[0]) && a == Capture.Step(st, es[0]) && Emitted(st, es[0]).None?
      && Capture.Enabled(a, es[1]) && b == Capture.Step(a, es[1]) && Emitted(a, es[1]).None?
      && Capture.Enabled(b, es[2]) && c == Capture.Step(b, es[2]) && Emitted(b, es[2]).None?
      && Capture.Enabled(c, es[3]) && d == Capture.Step(c, es[3]) && Emitted(c, es[3]).Some?
      && IdOf(Emitted(c, es[3]).value.meta) == ChunkId(st.opts.sessionId, st.opts.channel, n) &&
        Emitted(c, es[3]).value.meta.id == id
      && Emitted(c, es[3]).value.data == part
    ensures c.opts == st.opts && c.buffer.sequence == n && d.opts == st.opts && Listening(d, n + 1)
  {
    var es := ChunkEvents(|st.encoders| - 1, part, id);
    a := Capture.Step(st, es[0]);
    b := Capture.Step(a, es[1]);
    assert Capture.Last(b) == Capture.Draining(part);
    c := Capture.Step(b, es[2]);
    assert c.buffer.parts == [] + [part] == [part];
    FlattenOne(part);
    d := Capture.Step(c, es[3]);
  }

  lemma FlattenOne(part: Bytes)
    ensures Text.Flatten([part]) == part
  {
    assert [part][1..] == [] && part + [] == part;
  }

  function OnCh(s: System, session: string, ch: string, st: Capture.ChannelState): System
    requires session in s.pages && ch in s.pages[session].channels
  {
    WithPage(s, session, s.pages[session].(channels := s.pages[session].channels[ch := st]))
  }

  lemma QuietStep(w: World, s: System, session: string, ch: string, e: Capture.ChannelEvent)
    requires Reached(w, s) && session in s.pages && ch in s.pages[session].channels
    requires Capture.Enabled(s.pages[session].channels[ch], e) && !e.Stopped?
    ensures var r := OnCh(s, session, ch, Capture.Step(s.pages[session].channels[ch], e));
      Reached(w, r) && Run(w, s, [OnChannel(session, ch, e)], r)
  {
    hide Reached, Run, Capture.Step, Capture.Enabled, PlainId;
    ReachedStep(w, s, OnChannel(session, ch, e));
  }

  /** The state after a chunk has been finalised and is being put. */
  function Finalised(s: System, session: string, ch: string, st: Capture.ChannelState, c: StoredChunk): System
    requires session in s.pages && ch in s.pages[session].channels
  {
    var p := s.pages[session];
    WithPage(s, session, p.(channels := p.channels[ch := st], persists := p.persists + [Persist(c, PuttingChunk)]))
      .(log := s.log.(finalized := s.log.finalized[IdOf(c.meta) := c]))
  }

  /** A channel can always finalise one more chunk, under any id its page has not used. */
  lemma CaptureOne(w: World, s: System, session: string, ch: string, n: nat, part: Bytes, id: string)
    returns (st: Capture.ChannelState, c: StoredChunk, r: System)
    requires Reached(w, s) && Recording(s, session, ch, n) && part != [] && n <= MAX_SEQUENCE
    requires forall x | x in s.log.finalized && x.session == session :: s.log.finalized[x].meta.id != id
    ensures r == Finalised(s, session, ch, st, c) && Reached(w, r) && Recording(r, session, ch, n + 1)
    ensures c.meta.id == id && IdOf(c.meta) == ChunkId(session, ch, n) && c.data == part
  {
    hide Reached, Run, Capture.Step, Capture.Enabled, Emitted, PlainId, IdOf;
    var st0 := s.pages[session].channels[ch];
    var es := ChunkEvents(|st0.encoders| - 1, part, id);
    var a, b, d, f := ChunkThrough(st0, n, part, id);
    QuietStep(w, s, session, ch, es[0]);
    var s1 := OnCh(s, session, ch, a);
    QuietStep(w, s1, session, ch, es[1]);
    var s2 := OnCh(s1, session, ch, b);
    assert s2 == OnCh(s, session, ch, b) by { OnChTwice(s, session, ch, a, b); }
    QuietStep(w, s2, session, ch, es[2]);
    var s3 := OnCh(s2, session, ch, d);
    OnChTwice(s, session, ch, b, d);
    st, c := f, Emitted(d, es[3]).value;
    StopStep(w, s, s3, session, ch, d, es[3]);
    r := Finalised(s, session, ch, st, c);
  }

  lemma OnChTwice(s: System, session: string, ch: string, a: Capture.ChannelState, b: Capture.ChannelState)
    requires session in s.pages && ch in s.pages[session].channels
    ensures OnCh(OnCh(s, session, ch, a), session, ch, b) == OnCh(s, session, ch, b)
  {
    var p := s.pages[session];
    assert p.channels[ch := a][ch := b] == p.channels[ch := b];
    var pa, pb := p.(channels := p.channels[ch := a]), p.(channels := p.channels[ch := b]);
    assert s.pages[session := pa][session := pb] == s.pages[session := pb];
  }

  lemma StopStep(w: World, s: System, t: System, session: string, ch: string, st: Capture.ChannelState,
      e: Capture.ChannelEvent)
    requires Reached(w, t) && session in s.pages && ch in s.pages[session].channels && t == OnCh(s, session, ch, st)
    requires Capture.Enabled(st, e) && e.Stopped? && Emitted(st, e).Some? && FreshChunk(s, st, e.id)
    ensures Reached(w, Finalised(s, session, ch, Capture.Step(st, e), Emitted(st, e).value))
  {
    hide Reached, Capture.Step, Capture.Enabled, Emitted, PlainId, IdOf;
    var p := s.pages[session];
    assert p.channels[ch := st][ch := Capture.Step(st, e)] == p.channels[ch := Capture.Step(st, e)];
    var pa := p.(channels := p.channels[ch := st]);
    ReachedStep(w, t, OnChannel(session, ch, e));
    var r := Step(w, t, OnChannel(session, ch, e));
    assert r.pages == Finalised(s, session, ch, Capture.Step(st, e), Emitted(st, e).value).pages;
  }

  function OpenManifest(session: string): Manifest {
    Manifest(session, "", "", "", None, ["tab"], "", 1000)
  }

  /** A page with one channel, started. */
  lemma BeginOne(w: World, s: System, session: string) returns (r: System)
    requires Reached(w, s) && PlainId(session) && session !in s.started
    ensures Reached(w, r) && Recording(r, session, "tab", 0)
    ensures r.pages == s.pages[session := r.pages[session]] && r.pages[session].persists == []
    ensures r.pages[session].queue == Queue.IDLE && r.pages[session].serverOk
    ensures r == s.(pages := r.pages, manifests := s.manifests[session := OpenManifest(session)],
      started := s.started + {session})
  {
    hide Reached, PlainId;
    TabIsPlain();
    var e := Begin(session, {"tab"}, OpenManifest(session), true);
    ReachedStep(w, s, e);
    var t := Step(w, s, e);
    var st := Capture.Fresh(Capture.Options(session, "tab", 1000, ""));
    assert t.pages[session].channels["tab"] == st;
    hide Step, Enabled, Run;
    QuietStep(w, t, session, "tab", Capture.Start);
    r := OnCh(t, session, "tab", Capture.Step(st, Capture.Start));
  }

  lemma TabIsPlain()
    ensures PlainId("tab") && PlainId("a") && PlainId("b")
  {
  }

  lemma StartReached(w: World)
    requires PlainId(w.owner)
    ensures Reached(w, START)
  {
    NoEvents(w, START);
  }

  /**
   * A chunk that ends while the one before it is still being stored: a crash then costs both, and
   * more than one chunk of the channel is lost for good.
   */
  lemma TwoCanBeLost(w: World) returns (s: System)
    requires PlainId(w.owner)
    ensures Reached(w, s) && "a" in s.pages
    ensures InFlight(s.pages["a"].persists, ChunkId("a", "tab", 0)) &&
      InFlight(s.pages["a"].persists, ChunkId("a", "tab", 1))
    ensures var r := Step(w, s, Crashed("a"));
      !Survives(w, r, ChunkId("a", "tab", 0)) && !Survives(w, r, ChunkId("a", "tab", 1))
  {
    hide Reached, PlainId, Survives, IdOf;
    TabIsPlain();
    StartReached(w);
    var s0 := BeginOne(w, START, "a");
    var st1, c1, s1 := CaptureOne(w, s0, "a", "tab", 0, [0], "x");
    var st2, c2, s2 := CaptureOne(w, s1, "a", "tab", 1, [0], "y");
    s := s2;
    assert s.pages["a"].persists == [Persist(c1, PuttingChunk), Persist(c2, PuttingChunk)];
    assert s.pages["a"].persists[0].chunk == c1 && s.pages["a"].persists[1].chunk == c2;
    ReachedStep(w, s, Crashed("a"));
    var r := Step(w, s, Crashed("a"));
    assert s.log.persisted == {};
    SurvivesIfStored(w, r, ChunkId("a", "tab", 0));
    SurvivesIfStored(w, r, ChunkId("a", "tab", 1));
  }

  // ---- two pages, one chunk id ----

  lemma PutFirst(w: World, s: System, session: string, c: StoredChunk) returns (r: System)
    requires Reached(w, s) && session in s.pages && s.pages[session].persists == [Persist(c, PuttingChunk)]
    ensures Enabled(w, s, ChunkPut(session, 0)) && r == Step(w, s, ChunkPut(session, 0))
    ensures Reached(w, r) && r.chunks == s.chunks[IdOf(c.meta) := c]
    ensures r.pages == s.pages[session := s.pages[session].(persists := [Persist(c, ReadingManifest)])]
    ensures r == s.(chunks := r.chunks, pages := r.pages, log := s.log.(persisted := s.log.persisted + {IdOf(c.meta)}))
  {
    hide Reached, IdOf;
    var e := ChunkPut(session, 0);
    ReachedStep(w, s, e);
    r := Step(w, s, e);
    assert s.pages[session].persists[0 := Persist(c, ReadingManifest)] == [Persist(c, ReadingManifest)];
  }

  /** The store puts the chunk behind what it holds. */
  lemma StorePuts(w: World, s: System, store: Store, session: string, c: StoredChunk) returns (store': Store)
    requires StoreReached(w, s, store) && session in s.pages && s.pages[session].persists == [Persist(c, PuttingChunk)]
    requires IdOf(c.meta) !in s.chunks
    ensures Enabled(w, s, ChunkPut(session, 0)) && StoreReached(w, Step(w, s, ChunkPut(session, 0)), store')
    ensures store'.chunks.keys == store.chunks.keys + [ChunkKey(c.meta)] &&
      store'.chunks.at == store.chunks.at[ChunkKey(c.meta) := c]
  {
    hide StoreReached, Reached, Refines, IdOf, ChunkKey, Step;
    StoreSimulates(w, s, store);
    NewInStore(w, s, store, session, c);
    var e := ChunkPut(session, 0);
    StoreReachedStep(w, s, store, e);
    store' := StoreAfter(w, s, store, e);
  }

  lemma NewInStore(w: World, s: System, store: Store, session: string, c: StoredChunk)
    requires Reached(w, s) && StoreIs(s, store) && session in s.pages
    requires s.pages[session].persists == [Persist(c, PuttingChunk)] && IdOf(c.meta) !in s.chunks
    ensures ChunkKey(c.meta) !in store.chunks.at
  {
    hide Reached, KeyOf, Inv;
    ReachedInv(w, s);
    FinalizedColonFree(w, s, session, 0);
    if ChunkKey(c.meta) in store.chunks.at {
      KeyInjective(IdOf(c.meta), IdOf(store.chunks.at[ChunkKey(c.meta)].meta));
    }
  }

  lemma HandOverFirst(w: World, s: System, session: string, c: StoredChunk) returns (events: seq<Event>, r: System)
    requires Reached(w, s) && session in s.pages && s.pages[session].persists == [Persist(c, ReadingManifest)]
    requires s.pages[session].queue == Queue.IDLE && s.pages[session].serverOk
    ensures Run(w, s, events, r) && forall e | e in events :: LeavesChunks(e)
    ensures Reached(w, r) && r == s.(pages := r.pages, manifests := r.manifests)
    ensures session in r.pages && r.pages == s.pages[session := r.pages[session]]
    ensures var q := r.pages[session].queue;
      q.tasks == [Queue.Task(c.meta, c.data, 0, 0)] && q.loops == [Queue.Loop(c.meta, Queue.Requesting)]
  {
    hide Reached, Run;
    var e := ManifestRead(session, 0);
    ReachedStep(w, s, e);
    var t := Step(w, s, e);
    var copy := if session in s.manifests then Some(s.manifests[session]) else None;
    assert t.pages[session].persists == [Persist(c, WritingManifest(copy))];
    var f := ManifestWritten(session, 0, "");
    ReachedStep(w, t, f);
    r := Step(w, t, f);
    events := [e] + [f];
    RunAppend(w, s, [e], t, [f], r);
    assert t.pages[session := r.pages[session]] == s.pages[session := r.pages[session]];
  }

  lemma OpenFirst(w: World, s: System, session: string) returns (r: System)
    requires Reached(w, s) && s.server.recordings == map[]
    ensures Run(w, s, [Requested(Server.Open(w.owner, session))], r)
    ensures Reached(w, r) && r == s.(server := r.server)
    ensures Owned(w, r.server, session) && r.server.recordings.Keys == {session}
  {
    hide Reached, Run;
    var e := Requested(Server.Open(w.owner, session));
    ReachedStep(w, s, e);
    r := Step(w, s, e);
  }

  /** Two pages each put a chunk under the same id. */
  lemma SameIdTwice(w: World) returns (s: System, ca: StoredChunk, cb: StoredChunk)
    requires PlainId(w.owner)
    ensures Reached(w, s) && "a" in s.pages && "b" in s.pages && s.chunks == map[]
    ensures ca.meta.id == cb.meta.id == "x" && ca.data == [0]
    ensures IdOf(ca.meta) == ChunkId("a", "tab", 0) && IdOf(cb.meta) == ChunkId("b", "tab", 0)
    ensures s.pages["a"].persists == [Persist(ca, PuttingChunk)] && s.pages["b"].persists == [Persist(cb, PuttingChunk)]
    ensures s.pages["a"].queue == Queue.IDLE && s.pages["a"].serverOk && HasOpen(s, "a")
    ensures s.server == Server.EMPTY && s.log.delivered == {} && s.discarded == {} && s.removed == {}
  {
    hide Reached, PlainId, IdOf, Recording;
    TabIsPlain();
    StartReached(w);
    var s0 := BeginOne(w, START, "a");
    var s1 := BeginOne(w, s0, "b");
    StillRecording(s0, s1, "a", "b");
    var sta, a, s2 := CaptureOne(w, s1, "a", "tab", 0, [0], "x");
    StillRecording(s1, s2, "b", "a");
    var stb, b, s3 := CaptureOne(w, s2, "b", "tab", 0, [0], "x");
    s, ca, cb := s3, a, b;
  }

  lemma StillRecording(s: System, r: System, session: string, other: string)
    requires Recording(s, session, "tab", 0) && session != other && other in r.pages
    requires session in r.pages && r.pages[session] == s.pages[session]
    ensures Recording(r, session, "tab", 0)
  {
  }

  lemma NoRecordingNoCommit(w: World, s: System, id: ChunkId)
    requires id.session !in s.server.recordings && id !in s.chunks
    ensures !Survives(w, s, id)
  {
    hide Server.RowOf, Server.Fetch, Dto;
  }

  /** The store has put `cb` and then `ca`, and `ca` has been confirmed. */
  lemma ConfirmedSecond(w: World) returns (s: System, store: Store, ca: StoredChunk, cb: StoredChunk)
    requires PlainId(w.owner)
    ensures StoreReached(w, s, store) && store.chunks.keys == [ChunkKey(cb.meta), ChunkKey(ca.meta)]
    ensures s.chunks == map[IdOf(cb.meta) := cb, IdOf(ca.meta) := ca]
    ensures ca.meta.id == cb.meta.id && IdOf(ca.meta) == ChunkId("a", "tab", 0) &&
      IdOf(cb.meta) == ChunkId("b", "tab", 0)
    ensures IdOf(cb.meta) in s.log.persisted && s.discarded == {} && s.removed == {}
    ensures "a" in s.pages && Deleting(s.pages["a"].queue) && s.pages["a"].queue.loops[0].at.chunkId == ca.meta.id
    ensures "b" !in s.server.recordings
  {
    hide Reached, StoreReached, PlainId, IdOf, ChunkKey, Run, Owned, Step, HasOpen;
    var s3;
    s3, ca, cb := SameIdTwice(w);
    var store3 := StoreCanReach(w, s3);
    NothingStored(w, s3, store3);
    var store4 := StorePuts(w, s3, store3, "b", cb);
    var s4 := PutFirst(w, s3, "b", cb);
    var store5 := StorePuts(w, s4, store4, "a", ca);
    var s5 := PutFirst(w, s4, "a", ca);
    var handing, s6 := HandOverFirst(w, s5, "a", ca);
    var store6 := StoreFollows(w, s5, store5, handing, s6);
    var s7 := OpenFirst(w, s6, "a");
    var store7 := StoreFollows(w, s6, store6, [Requested(Server.Open(w.owner, "a"))], s7);
    var sending, s8 := Convergence.HeadCanBeDelivered(w, s7, "a");
    store := StoreFollows(w, s7, store7, sending, s8);
    s := s8;
  }

  lemma NothingStored(w: World, s: System, store: Store)
    requires StoreReached(w, s, store) && s.chunks == map[]
    ensures store.chunks.keys == []
  {
    hide StoreReached, Reached, KeyOf;
    StoreSimulates(w, s, store);
    KeysOfNothing(store.chunks.keys, store.chunks.at);
  }

  lemma KeysOfNothing(keys: seq<string>, at: map<string, StoredChunk>)
    ensures (forall k | k in keys :: k in at) && |keys| > 0 ==> keys[0] in at
  {
  }

  /**
   * Chunk ids are unique to a page only. When two pages have used the same one, reclaiming the
   * confirmed chunk of one deletes the first the store finds, here the stored and unconfirmed chunk
   * of the other, which is then neither in the store nor on the server.
   */
  lemma SharedIdLosesStoredChunk(w: World) returns (s: System, store: Store)
    requires PlainId(w.owner)
    ensures var id := ChunkId("b", "tab", 0);
      && StoreReached(w, s, store) && id in s.log.persisted && id.session !in s.discarded && id.session !in s.removed
      && !Survives(w, s, id)
  {
    hide StoreReached, Reached, PlainId, Survives, Refines;
    var id := ChunkId("b", "tab", 0);
    var s8, store8, ca, cb := ConfirmedSecond(w);
    StoreSimulates(w, s8, store8);
    FirstIsOther(s8, store8, ca, cb);
    var e := Reclaimed("a", Some(id));
    StoreReachedStep(w, s8, store8, e);
    s, store := Step(w, s8, e), StoreAfter(w, s8, store8, e);
    NoRecordingNoCommit(w, s, id);
  }

  lemma FirstIsOther(s: System, store: Store, ca: StoredChunk, cb: StoredChunk)
    requires StoreIs(s, store) && IdOf(cb.meta) in s.chunks && s.chunks[IdOf(cb.meta)] == cb
    requires store.chunks.keys == [ChunkKey(cb.meta), ChunkKey(ca.meta)]
    ensures Readable(store.chunks) && Found(store.chunks, cb.meta.id) == Some(IdOf(cb.meta))
  {
    hide KeyOf, ColonFree;
  }

  // ---- closed too soon ----

  /** A recording closed while a `persistChunk` has just read its manifest: it is open in the end. */
  lemma ClosedTooSoon(w: World) returns (s: System)
    requires PlainId(w.owner)
    ensures Reached(w, s) && "a" in s.closed && HasOpen(s, "a") && "a" in s.pages && s.pages["a"].persists == []
  {
    hide Reached, PlainId, IdOf, HasOpen;
    var s0, ca, cb := SameIdTwice(w);
    var s1 := PutFirst(w, s0, "a", ca);
    OpenIsOpen(s0, s1, "a");
    ClosingTooSoonReopens(w, s1, "a", 0, "now");
    var read := Step(w, s1, ManifestRead("a", 0));
    ReachedStep(w, s1, ManifestRead("a", 0));
    var closed := Step(w, read, MarkedClosed("a", "now"));
    ReachedStep(w, read, MarkedClosed("a", "now"));
    ReachedStep(w, closed, ManifestWritten("a", 0, "now"));
    s := Step(w, closed, ManifestWritten("a", 0, "now"));
  }

  lemma OpenIsOpen(s: System, r: System, session: string)
    requires r.manifests == s.manifests
    ensures HasOpen(r, session) <==> HasOpen(s, session)
    ensures HasOpen(r, session) ==> session in r.manifests && IsOpen(r.manifests[session])
  {
  }
}
