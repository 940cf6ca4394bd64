/** Where a chunk is until it is stored, and what a crash costs when each is stored before the next ends. */
module CrashCost {
  import opened Wrappers
  import opened Common
  import opened RecoveryStore
  import opened Pipeline
  import opened Durability
  import opened DurableRuns
  import opened Guarantees
  import opened Keys
  import Capture
  import Queue = UploadQueue
  import Server
  import Text

  // ---- every finalised chunk is accounted for ----

  /** Its `putChunk` has not settled yet. */
  predicate InFlight(persists: seq<Persist>, id: ChunkId) {
    exists i :: 0 <= i < |persists| && persists[i].phase.PuttingChunk? && IdOf(persists[i].chunk.meta) == id
  }

  /** A finalised chunk is stored, its failure was reported, it is being stored, or a crash took it. */
  ghost predicate Accounted(s: System, id: ChunkId) {
    || id in s.log.persisted || id in s.failed
    || id.session !in s.pages || InFlight(s.pages[id.session].persists, id)
  }

  ghost predicate AllAccounted(s: System) {
    forall id | id in s.log.finalized :: Accounted(s, id)
  }

  lemma InFlightPush(persists: seq<Persist>, c: StoredChunk, id: ChunkId)
    ensures InFlight(persists + [Persist(c, PuttingChunk)], id) <==> InFlight(persists, id) || id == IdOf(c.meta)
  {
    var r := persists + [Persist(c, PuttingChunk)];
    assert r[|persists|] == Persist(c, PuttingChunk);
    if InFlight(persists, id) {
      var i :| 0 <= i < |persists| && persists[i].phase.PuttingChunk? && IdOf(persists[i].chunk.meta) == id;
      assert r[i] == persists[i];
    }
  }

  /** A chunk leaves flight only by the step of its own promise. */
  lemma InFlightWithout(persists: seq<Persist>, i: nat, id: ChunkId)
    requires i < |persists| && InFlight(persists, id)
    ensures InFlight(WithoutPersist(persists, i), id) ||
      (persists[i].phase.PuttingChunk? && IdOf(persists[i].chunk.meta) == id)
  {
    var j :| 0 <= j < |persists| && persists[j].phase.PuttingChunk? && IdOf(persists[j].chunk.meta) == id;
    var r := WithoutPersist(persists, i);
    if j != i {
      assert r[if j < i then j else j - 1] == persists[j];
    }
  }

  lemma InFlightPhase(persists: seq<Persist>, i: nat, phase: Phase, id: ChunkId)
    requires i < |persists| && InFlight(persists, id)
    ensures InFlight(persists[i := persists[i].(phase := phase)], id) ||
      (persists[i].phase.PuttingChunk? && IdOf(persists[i].chunk.meta) == id)
  {
    var j :| 0 <= j < |persists| && persists[j].phase.PuttingChunk? && IdOf(persists[j].chunk.meta) == id;
    var r := persists[i := persists[i].(phase := phase)];
    if j != i {
      assert r[j] == persists[j];
    }
  }

  /** A page replaced: its chunks in flight still are, or are accounted for otherwise. */
  lemma PageAccounted(s: System, r: System, session: string)
    requires AllAccounted(s) && session in s.pages && session in r.pages
    requires r.pages == s.pages[session := r.pages[session]]
    requires s.log.persisted <= r.log.persisted && s.failed <= r.failed
    requires forall id | id in r.log.finalized :: id in s.log.finalized || Accounted(r, id)
    requires forall id: ChunkId | id.session == session && InFlight(s.pages[session].persists, id) ::
      InFlight(r.pages[session].persists, id) || id in r.log.persisted || id in r.failed
    ensures AllAccounted(r)
  {
    hide InFlight;
    forall id | id in r.log.finalized ensures Accounted(r, id) {
      if id in s.log.finalized {
        assert Accounted(s, id);
      }
    }
  }

  lemma EmittedSession(w: World, s: System, session: string, ch: string, e: Capture.ChannelEvent)
    requires Inv(w, s) && session in s.pages && ch in s.pages[session].channels
    requires Emitted(s.pages[session].channels[ch], e).Some?
    ensures IdOf(Emitted(s.pages[session].channels[ch], e).value.meta).session == session
  {
    hide GoodLog, GoodStore, GoodServer, Counted, GoodQueue, PlainId, Capture.Inv, Capture.Sizes, Text.Flatten;
    assert GoodPage(w, session, s.pages[session], s.log);
    assert GoodChannel(session, ch, s.pages[session].channels[ch], s.log);
  }

  lemma ChannelAccounted(w: World, s: System, e: Event)
    requires Inv(w, s) && AllAccounted(s) && Enabled(w, s, e) && e.OnChannel?
    ensures AllAccounted(Step(w, s, e))
  {
    hide Inv, PlainId, Capture.Step, Emitted, Capture.Enabled, FreshChunk, AsStored, InFlight, AllAccounted, IdOf;
    var st := s.pages[e.session].channels[e.channel];
    var r := Step(w, s, e);
    if Emitted(st, e.event).Some? {
      var c := Emitted(st, e.event).value;
      EmittedSession(w, s, e.session, e.channel, e.event);
      forall id ensures InFlight(r.pages[e.session].persists, id) <==>
        InFlight(s.pages[e.session].persists, id) || id == IdOf(c.meta) {
        InFlightPush(s.pages[e.session].persists, c, id);
      }
    }
    PageAccounted(s, r, e.session);
  }

  lemma PersistAccounted(w: World, s: System, e: Event)
    requires AllAccounted(s) && Enabled(w, s, e)
    requires e.ChunkPut? || e.ManifestRead? || e.PersistFailed?
    ensures AllAccounted(Step(w, s, e))
  {
    hide InFlight, AllAccounted, IdOf, WithoutPersist;
    var persists := s.pages[e.session].persists;
    var r := Step(w, s, e);
    forall id: ChunkId | InFlight(persists, id)
      ensures InFlight(r.pages[e.session].persists, id) || id in r.log.persisted || id in r.failed
    {
      match e
      case ChunkPut(session, i) => InFlightPhase(persists, i, ReadingManifest, id);
      case ManifestRead(session, i) =>
        InFlightPhase(persists, i,
          WritingManifest(if session in s.manifests then Some(s.manifests[session]) else None), id);
      case PersistFailed(session, i) => InFlightWithout(persists, i, id);
    }
    PageAccounted(s, r, e.session);
  }

  lemma WrittenAccounted(w: World, s: System, e: Event)
    requires AllAccounted(s) && Enabled(w, s, e) && e.ManifestWritten?
    ensures AllAccounted(Step(w, s, e))
  {
    hide InFlight, AllAccounted, IdOf, WithoutPersist, HandedOver;
    var persists := s.pages[e.session].persists;
    HandedOverKeepsChannels(s.pages[e.session], e.i);
    forall id | InFlight(persists, id) ensures InFlight(WithoutPersist(persists, e.i), id) {
      InFlightWithout(persists, e.i, id);
    }
    PageAccounted(s, Step(w, s, e), e.session);
  }

  lemma StepAccounted(w: World, s: System, e: Event)
    requires Inv(w, s) && AllAccounted(s) && Enabled(w, s, e)
    ensures AllAccounted(Step(w, s, e))
  {
    hide PlainId, Server.Handle, Server.Owns, Server.Removed, Queue.Step, Queue.Enabled, Answered, Sends, GoodLog;
    hide GoodStore, GoodServer, GoodPages, InFlight;
    match e
    case OnChannel(_, _, _) => ChannelAccounted(w, s, e);
    case ChunkPut(_, _) => PersistAccounted(w, s, e);
    case ManifestRead(_, _) => PersistAccounted(w, s, e);
    case PersistFailed(_, _) => PersistAccounted(w, s, e);
    case ManifestWritten(_, _, _) => WrittenAccounted(w, s, e);
    case OnQueue(session, _) => PageAccounted(s, Step(w, s, e), session);
    case _ =>
  }

  lemma {:induction false} RunAccounted(w: World, s: System, events: seq<Event>, r: System)
    requires Inv(w, s) && AllAccounted(s) && Run(w, s, events, r)
    ensures AllAccounted(r)
    decreases |events|
  {
    hide Inv, AllAccounted, Step, Enabled;
    if events != [] {
      StepKeepsInv(w, s, events[0]);
      StepAccounted(w, s, events[0]);
      RunAccounted(w, Step(w, s, events[0]), events[1..], r);
    }
  }

  // ---- captured bytes ----

  /** The bytes of the first `n` chunks a channel finalised. */
  function FinalizedBytes(l: Log, session: string, ch: string, n: nat): Bytes {
    if n == 0 then []
    else
      var id := ChunkId(session, ch, n - 1);
      FinalizedBytes(l, session, ch, n - 1) + if id in l.finalized then l.finalized[id].data else []
  }

  lemma {:induction false} EmittedBytes(session: string, ch: string, st: Capture.ChannelState, l: Log, n: nat)
    requires GoodChannel(session, ch, st, l) && n <= |st.emitted|
    ensures Text.Flatten(Capture.PartsOf(st.emitted[..n])) == FinalizedBytes(l, session, ch, n)
  {
    hide GoodChannel, Capture.PartsOf, Text.Flatten;
    if n == 0 {
      NoBytes();
      assert st.emitted[..0] == [];
    } else {
      EmittedBytes(session, ch, st, l, n - 1);
      EmittedAt(session, ch, st, l, n - 1);
      assert st.emitted[..n] == st.emitted[..n - 1] + [st.emitted[n - 1]];
      Capture.PartsOfPush(st.emitted[..n - 1], st.emitted[n - 1]);
      Text.FlattenAppend(Capture.PartsOf(st.emitted[..n - 1]), st.emitted[n - 1].parts);
    }
  }

  lemma NoBytes()
    ensures Text.Flatten(Capture.PartsOf([])) == []
  {
  }

  lemma EmittedAt(session: string, ch: string, st: Capture.ChannelState, l: Log, k: nat)
    requires GoodChannel(session, ch, st, l) && k < |st.emitted|
    ensures ChunkId(session, ch, k) in l.finalized
    ensures l.finalized[ChunkId(session, ch, k)].data == Text.Flatten(st.emitted[k].parts)
  {
    hide Capture.Inv, PlainId, Text.Flatten;
    assert l.finalized[ChunkId(session, ch, k)] == AsStored(st.emitted[k]);
  }

  /**
   * Byte by byte, what a channel received is what its chunks hold and then what is pending, and what
   * was encoded is that and then what the encoder has not handed over.
   */
  lemma CapturedBytes(session: string, ch: string, st: Capture.ChannelState, l: Log)
    requires GoodChannel(session, ch, st, l)
    ensures Text.Flatten(st.received) ==
      FinalizedBytes(l, session, ch, |st.emitted|) + Text.Flatten(st.buffer.parts)
    ensures st.encoded == Text.Flatten(st.received) + Capture.Held(Capture.Last(st))
  {
    hide PlainId, AsStored, Capture.GoodChunk, Capture.OneEncoder;
    EmittedBytes(session, ch, st, l, |st.emitted|);
    assert st.emitted[..|st.emitted|] == st.emitted;
    Text.FlattenAppend(Capture.PartsOf(st.emitted), st.buffer.parts);
  }

  /**
   * Nothing vanishes unaccounted: a channel has received its chunks' bytes and the pending parts,
   * and each chunk was stored, or reported as failed, or is being stored. The crash itself touches
   * neither the store nor the server.
   */
  lemma CrashCosts(w: World, s: System, session: string, ch: string)
    requires Reached(w, s) && session in s.pages && ch in s.pages[session].channels
    ensures var st := s.pages[session].channels[ch]; var r := Step(w, s, Crashed(session));
      && Text.Flatten(st.received) ==
           FinalizedBytes(s.log, session, ch, |st.emitted|) + Text.Flatten(st.buffer.parts)
      && (forall k: nat | k < |st.emitted| :: var id := ChunkId(session, ch, k);
            id in s.log.persisted || id in s.failed || InFlight(s.pages[session].persists, id))
      && session !in r.pages && r.chunks == s.chunks && r.manifests == s.manifests && r.server == s.server
  {
    hide PlainId, GoodLog, GoodStore, GoodServer, Counted, GoodQueue, GoodPersist, InFlight, FinalizedBytes;
    hide Text.Flatten, Capture.Inv, Run;
    ReachedAccounted(w, s);
    assert GoodPage(w, session, s.pages[session], s.log);
    var st := s.pages[session].channels[ch];
    CapturedBytes(session, ch, st, s.log);
    forall k: nat | k < |st.emitted|
      ensures var id := ChunkId(session, ch, k);
        id in s.log.persisted || id in s.failed || InFlight(s.pages[session].persists, id)
    {
      assert Accounted(s, ChunkId(session, ch, k));
    }
  }

  lemma ReachedAccounted(w: World, s: System)
    requires Reached(w, s)
    ensures Inv(w, s) && AllAccounted(s)
  {
    hide Inv, Run;
    ReachedInv(w, s);
    var events :| Run(w, START, events, s);
    StartInv(w);
    RunAccounted(w, START, events, s);
  }

  // ---- at most one chunk, when each is stored before the next ends ----

  /** A chunk ends only after the one before it on its channel has been stored, or failed to. */
  ghost predicate Prompt(s: System, e: Event) {
    e.OnChannel? && e.session in s.pages && e.channel in s.pages[e.session].channels &&
    Emitted(s.pages[e.session].channels[e.channel], e.event).Some? ==>
      forall id: ChunkId | InFlight(s.pages[e.session].persists, id) :: id.channel != e.channel
  }

  ghost predicate PromptRun(w: World, s: System, events: seq<Event>, r: System)
    decreases |events|
  {
    if events == [] then r == s
    else Enabled(w, s, events[0]) && Prompt(s, events[0]) && PromptRun(w, Step(w, s, events[0]), events[1..], r)
  }

  /** Only the last chunk of a channel can still be in flight. */
  ghost predicate OnlyLast(p: Page) {
    forall id: ChunkId | InFlight(p.persists, id) ::
      id.channel in p.channels && id.sequence + 1 == |p.channels[id.channel].emitted|
  }

  ghost predicate AllOnlyLast(s: System) {
    forall session | session in s.pages :: OnlyLast(s.pages[session])
  }

  lemma InFlightSubset(persists: seq<Persist>, i: nat, phase: Phase, id: ChunkId)
    requires i < |persists| && !phase.PuttingChunk?
    ensures InFlight(WithoutPersist(persists, i), id) ==> InFlight(persists, id)
    ensures InFlight(persists[i := persists[i].(phase := phase)], id) ==> InFlight(persists, id)
  {
    if InFlight(WithoutPersist(persists, i), id) {
      var r := WithoutPersist(persists, i);
      var j :| 0 <= j < |r| && r[j].phase.PuttingChunk? && IdOf(r[j].chunk.meta) == id;
      assert r[j] == persists[if j < i then j else j + 1];
    }
    if InFlight(persists[i := persists[i].(phase := phase)], id) {
      var r := persists[i := persists[i].(phase := phase)];
      var j :| 0 <= j < |r| && r[j].phase.PuttingChunk? && IdOf(r[j].chunk.meta) == id;
      assert r[j] == persists[j];
    }
  }

  lemma ChannelOnlyLast(w: World, s: System, e: Event)
    requires Inv(w, s) && AllOnlyLast(s) && Enabled(w, s, e) && Prompt(s, e) && e.OnChannel?
    ensures AllOnlyLast(Step(w, s, e))
  {
    hide Inv, PlainId, Capture.Step, Emitted, Capture.Enabled, FreshChunk, AsStored, InFlight;
    var st := s.pages[e.session].channels[e.channel];
    var r := Step(w, s, e);
    EmissionCounts(w, s, e.session, e.channel, e.event);
    assert OnlyLast(s.pages[e.session]);
    if Emitted(st, e.event).Some? {
      var c := Emitted(st, e.event).value;
      forall id ensures InFlight(r.pages[e.session].persists, id) <==>
        InFlight(s.pages[e.session].persists, id) || id == IdOf(c.meta) {
        InFlightPush(s.pages[e.session].persists, c, id);
      }
    }
    assert OnlyLast(r.pages[e.session]);
  }

  lemma EmissionCounts(w: World, s: System, session: string, ch: string, e: Capture.ChannelEvent)
    requires Inv(w, s) && session in s.pages && ch in s.pages[session].channels
    requires Capture.Enabled(s.pages[session].channels[ch], e)
    requires e.Stopped? ==> FreshChunk(s, s.pages[session].channels[ch], e.id)
    ensures var st := s.pages[session].channels[ch]; var t := Capture.Step(st, e);
      match Emitted(st, e)
      case None => |t.emitted| == |st.emitted|
      case Some(c) => |t.emitted| == |st.emitted| + 1 && IdOf(c.meta) == ChunkId(session, ch, |st.emitted|)
  {
    hide GoodLog, GoodStore, GoodServer, Counted, GoodQueue, PlainId, Capture.Step, Capture.Enabled, Emitted, AsStored;
    assert GoodPage(w, session, s.pages[session], s.log);
    var st := s.pages[session].channels[ch];
    ChannelStep(session, ch, st, s.log, e);
  }

  lemma StepOnlyLast(w: World, s: System, e: Event)
    requires Inv(w, s) && AllOnlyLast(s) && Enabled(w, s, e) && Prompt(s, e)
    ensures AllOnlyLast(Step(w, s, e))
  {
    hide Inv, PlainId, Server.Handle, Server.Owns, Server.Removed, Queue.Step, Queue.Enabled, Answered, Sends;
    hide InFlight, WithoutPersist, HandedOver, Prompt;
    match e
    case OnChannel(_, _, _) => ChannelOnlyLast(w, s, e);
    case Begin(_, _, _, _) => NoneInFlight();
    case ChunkPut(session, i) => PersistOnlyLast(s, Step(w, s, e), session, i, ReadingManifest);
    case ManifestRead(session, i) =>
      PersistOnlyLast(s, Step(w, s, e), session, i,
        WritingManifest(if session in s.manifests then Some(s.manifests[session]) else None));
    case ManifestWritten(session, i, _) =>
      HandedOverKeepsChannels(s.pages[session], i);
      PersistOnlyLast(s, Step(w, s, e), session, i, ReadingManifest);
    case PersistFailed(session, i) => PersistOnlyLast(s, Step(w, s, e), session, i, ReadingManifest);
    case OnQueue(session, _) => assert OnlyLast(s.pages[session]);
    case _ =>
  }

  lemma NoneInFlight()
    ensures forall id: ChunkId :: !InFlight([], id)
  {
  }

  lemma PersistOnlyLast(s: System, r: System, session: string, i: nat, phase: Phase)
    requires AllOnlyLast(s) && HasPersist(s, session, i) && !phase.PuttingChunk?
    requires session in r.pages && r.pages == s.pages[session := r.pages[session]]
    requires r.pages[session].channels == s.pages[session].channels
    requires var persists := s.pages[session].persists;
      r.pages[session].persists == WithoutPersist(persists, i) ||
      r.pages[session].persists == persists[i := persists[i].(phase := phase)]
    ensures AllOnlyLast(r)
  {
    hide InFlight, WithoutPersist;
    assert OnlyLast(s.pages[session]);
    forall id: ChunkId | InFlight(r.pages[session].persists, id) ensures InFlight(s.pages[session].persists, id) {
      InFlightSubset(s.pages[session].persists, i, phase, id);
    }
    assert OnlyLast(r.pages[session]);
  }

  lemma {:induction false} PromptRunOnlyLast(w: World, s: System, events: seq<Event>, r: System)
    requires Inv(w, s) && AllOnlyLast(s) && PromptRun(w, s, events, r)
    ensures AllOnlyLast(r) && Run(w, s, events, r)
    decreases |events|
  {
    hide Inv, AllOnlyLast, Step, Enabled, Prompt;
    if events != [] {
      StepKeepsInv(w, s, events[0]);
      StepOnlyLast(w, s, events[0]);
      PromptRunOnlyLast(w, Step(w, s, events[0]), events[1..], r);
    }
  }

  /** When storing keeps up, every chunk of a channel but the last is stored or was reported as failed. */
  lemma EarlierStoredOrFailed(w: World, events: seq<Event>, s: System, session: string, ch: string, k: nat)
    requires PlainId(w.owner) && PromptRun(w, START, events, s)
    requires session in s.pages && ch in s.pages[session].channels
    requires k + 1 < |s.pages[session].channels[ch].emitted|
    ensures Reached(w, s)
    ensures ChunkId(session, ch, k) in s.log.persisted || ChunkId(session, ch, k) in s.failed
  {
    hide PlainId, InFlight, PromptRun, Run, Step;
    StartInv(w);
    PromptRunOnlyLast(w, START, events, s);
    assert Reached(w, s);
    CrashCosts(w, s, session, ch);
    assert OnlyLast(s.pages[session]);
  }
}
