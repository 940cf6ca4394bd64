/** The pipeline's invariant survives every event, and what follows from it for every run. */
module DurableRuns {
  import opened Wrappers
  import opened Common
  import opened RecoveryStore
  import opened Pipeline
  import opened Durability
  import opened Keys
  import opened Lists
  import Capture
  import Delivery
  import Queue = UploadQueue
  import Server
  import Text

  lemma StartInv(w: World)
    requires PlainId(w.owner)
    ensures Inv(w, START)
  {
    hide PlainId;
    forall id: ChunkId ensures OwnRow(w, Server.EMPTY, NOTHING, id) {
    }
  }

  // ---- starting a session ----

  lemma FreshPage(w: World, session: string, channels: set<string>, manifest: Manifest, serverOk: bool, l: Log)
    requires PlainId(session) && forall ch | ch in channels :: PlainId(ch)
    ensures GoodPage(w, session,
      Page(map ch | ch in channels ::
             Capture.Fresh(Capture.Options(session, ch, manifest.chunkDurationMs, manifest.mimeType)),
           [], Queue.IDLE, serverOk), l)
  {
    hide PlainId, Capture.Inv, Queue.Inv;
    Queue.IdleInv();
    forall ch | ch in channels
      ensures GoodChannel(session, ch,
        Capture.Fresh(Capture.Options(session, ch, manifest.chunkDurationMs, manifest.mimeType)), l)
    {
      Capture.FreshInv(Capture.Options(session, ch, manifest.chunkDurationMs, manifest.mimeType));
    }
  }

  lemma BeginKeepsInv(w: World, s: System, e: Event)
    requires Inv(w, s) && Enabled(w, s, e) && e.Begin?
    ensures Inv(w, Step(w, s, e))
  {
    hide PlainId, GoodLog, GoodStore, GoodServer, GoodPage;
    FreshPage(w, e.session, e.channels, e.manifest, e.serverOk, s.log);
    assert e.session !in s.pages;
  }

  // ---- capture ----

  lemma {:induction false} FlattenSize(parts: seq<Bytes>)
    ensures |Text.Flatten(parts)| == Capture.Sizes(parts)
  {
    if parts != [] {
      var init, last := parts[..|parts| - 1], parts[|parts| - 1];
      assert parts == init + [last];
      FlattenSize(init);
      Text.FlattenAppend(init, [last]);
      assert [last][1..] == [];
    }
  }

  lemma SizesPositive(parts: seq<Bytes>)
    requires parts != [] && forall i | 0 <= i < |parts| :: parts[i] != []
    ensures Capture.Sizes(parts) >= 1
  {
  }

  /** A channel event adds at most one chunk, the next one of its channel. */
  lemma ChannelStep(session: string, ch: string, st: Capture.ChannelState, l: Log, e: Capture.ChannelEvent)
    requires GoodChannel(session, ch, st, l) && Capture.Enabled(st, e)
    requires e.Stopped? ==> st.buffer.sequence <= MAX_SEQUENCE
    requires PlainId(session)
    ensures var t := Capture.Step(st, e);
      && Capture.Inv(t) && t.opts == st.opts
      && match Emitted(st, e)
         case None => t.emitted == st.emitted
         case Some(c) =>
           && |t.emitted| == |st.emitted| + 1 && t.emitted[..|st.emitted|] == st.emitted
           && c == AsStored(t.emitted[|st.emitted|])
           && GoodChunk(ChunkId(session, ch, |st.emitted|), c) && c.meta.id == e.id
  {
    hide PlainId, Capture.Inv, AsStored, GoodChunk;
    Capture.StepKeepsInv(st, e);
    SequenceIsCount(st);
    if e.Stopped? && st.buffer.parts != [] {
      EmissionIsGood(session, ch, st, l, e);
      hide Capture.ChunkOf;
    }
  }

  lemma EmissionIsGood(session: string, ch: string, st: Capture.ChannelState, l: Log, e: Capture.ChannelEvent)
    requires GoodChannel(session, ch, st, l) && e.Stopped? && st.buffer.parts != []
    requires PlainId(session) && st.buffer.sequence <= MAX_SEQUENCE
    ensures var c := AsStored(Capture.ChunkOf(st.opts, st.buffer, e.offsetMs, e.id, e.now));
      GoodChunk(ChunkId(session, ch, |st.emitted|), c) && c.meta.id == e.id
  {
    hide PlainId, Capture.OneEncoder, Capture.PartsOf, Capture.GoodChunk, Capture.Round, Capture.Sizes, Text.Flatten;
    FlattenSize(st.buffer.parts);
    SizesPositive(st.buffer.parts);
  }

  lemma GoodChannelStep(session: string, ch: string, st: Capture.ChannelState, l: Log, m: Log, e: Capture.ChannelEvent)
    requires GoodChannel(session, ch, st, l) && Capture.Enabled(st, e) && Grows(l, m)
    requires var t := Capture.Step(st, e);
      && Capture.Inv(t) && t.opts == st.opts
      && match Emitted(st, e)
         case None => t.emitted == st.emitted
         case Some(c) =>
           && |t.emitted| == |st.emitted| + 1 && t.emitted[..|st.emitted|] == st.emitted
           && c == AsStored(t.emitted[|st.emitted|])
           && ChunkId(session, ch, |st.emitted|) in m.finalized && m.finalized[ChunkId(session, ch, |st.emitted|)] == c
    ensures GoodChannel(session, ch, Capture.Step(st, e), m)
  {
    hide PlainId, Capture.Inv, Capture.Step, Capture.Enabled, AsStored, Emitted;
    var t := Capture.Step(st, e);
    forall k: nat | k < |t.emitted|
      ensures ChunkId(session, ch, k) in m.finalized && m.finalized[ChunkId(session, ch, k)] == AsStored(t.emitted[k])
    {
      if k < |st.emitted| {
        assert t.emitted[k] == st.emitted[k];
        assert ChunkId(session, ch, k) in l.finalized;
      }
    }
  }

  lemma FinalizedKeepsLog(w: World, l: Log, id: ChunkId, c: StoredChunk)
    requires GoodLog(w, l) && GoodChunk(id, c) && id !in l.finalized
    requires forall x | x in l.finalized && x.session == id.session :: l.finalized[x].meta.id != c.meta.id
    ensures GoodLog(w, l.(finalized := l.finalized[id := c])) && Grows(l, l.(finalized := l.finalized[id := c]))
  {
    hide GoodChunk, Faithful, CommitOf;
    var m := l.(finalized := l.finalized[id := c]);
    forall q | q in m.sent ensures Faithful(w, m, q) {
      FaithfulGrows(w, l, m, q);
    }
  }

  lemma FinalizedKeepsServer(w: World, s: Server.ServerState, l: Log, removed: set<string>, id: ChunkId, c: StoredChunk)
    requires GoodLog(w, l) && GoodServer(w, s, l, removed) && id !in l.finalized
    ensures GoodServer(w, s, l.(finalized := l.finalized[id := c]), removed)
  {
    hide Server.Consistent, HasRow, HasBytes, PutOf, CommitOf, GoodChunk, DistinctIds, Row, Owned;
    var m := l.(finalized := l.finalized[id := c]);
    forall x: ChunkId ensures OwnRow(w, s, m, x) {
      assert OwnRow(w, s, l, x);
    }
  }

  /** A channel with its chunks accounted for, in the page's place. */
  lemma ChannelInPage(w: World, session: string, ch: string, p: Page, t: Capture.ChannelState, persists: seq<Persist>,
      l: Log, m: Log)
    requires GoodPage(w, session, p, l) && Grows(l, m) && GoodChannel(session, ch, t, m)
    requires persists == p.persists || exists c ::
      && persists == p.persists + [Persist(c, PuttingChunk)] && IdOf(c.meta).session == session
      && IdOf(c.meta) in m.finalized && m.finalized[IdOf(c.meta)] == c
    ensures GoodPage(w, session, p.(channels := p.channels[ch := t], persists := persists), m)
  {
    hide PlainId, GoodChannel, GoodQueue, Grows;
    PageGrows(w, session, p, l, m);
  }

  lemma CountedStep(s: System, session: string, ch: string, p: Page, t: Capture.ChannelState, m: Log)
    requires Counted(s.pages, s.log, s.started) && session in s.pages && ch in s.pages[session].channels
    requires p.channels == s.pages[session].channels[ch := t]
    requires |t.emitted| >= |s.pages[session].channels[ch].emitted|
    requires forall id | id in m.finalized ::
      id in s.log.finalized || (id.session == session && id.channel == ch && id.sequence < |t.emitted|)
    ensures Counted(s.pages[session := p], m, s.started)
  {
  }

  lemma OnChannelKeepsInv(w: World, s: System, e: Event)
    requires Inv(w, s) && Enabled(w, s, e) && e.OnChannel?
    ensures Inv(w, Step(w, s, e))
  {
    hide PlainId, GoodLog, GoodStore, GoodServer, GoodChunk, Capture.Inv, Capture.Step, Emitted, GoodQueue, AsStored;
    hide PlainSlot, Grows, Counted;
    var p := s.pages[e.session];
    var st := p.channels[e.channel];
    assert GoodPage(w, e.session, p, s.log) && GoodChannel(e.session, e.channel, st, s.log);
    SequenceIsCount(st);
    ChannelStep(e.session, e.channel, st, s.log, e.event);
    match Emitted(st, e.event)
    case None => QuietKeepsInv(w, s, e);
    case Some(c) =>
      EmittedIsStopped(st, e.event);
      GoodChunkId(ChunkId(e.session, e.channel, |st.emitted|), c);
      EmittingKeepsInv(w, s, e, c);
  }

  lemma QuietKeepsInv(w: World, s: System, e: Event)
    requires Inv(w, s) && Enabled(w, s, e) && e.OnChannel?
    requires var st := s.pages[e.session].channels[e.channel];
      && Emitted(st, e.event).None? && Capture.Inv(Capture.Step(st, e.event))
      && Capture.Step(st, e.event).opts == st.opts && Capture.Step(st, e.event).emitted == st.emitted
    ensures Inv(w, Step(w, s, e))
  {
    hide PlainId, GoodLog, GoodStore, GoodServer, Capture.Inv, Capture.Step, Capture.Enabled, Emitted, GoodQueue;
    hide AsStored, Grows, Counted, FreshChunk;
    var p := s.pages[e.session];
    var st := p.channels[e.channel];
    var t := Capture.Step(st, e.event);
    assert GoodPage(w, e.session, p, s.log) && GoodChannel(e.session, e.channel, st, s.log);
    var q := p.(channels := p.channels[e.channel := t]);
    Unchanged(s.log);
    ChannelInPage(w, e.session, e.channel, p, t, p.persists, s.log, s.log);
    assert q == p.(channels := p.channels[e.channel := t], persists := p.persists);
    PagesStep(w, s.pages, e.session, q, s.log, s.log);
    CountedStep(s, e.session, e.channel, q, t, s.log);
  }

  lemma EmittingKeepsInv(w: World, s: System, e: Event, c: StoredChunk)
    requires Inv(w, s) && Enabled(w, s, e) && e.OnChannel? && e.event.Stopped?
    requires var st := s.pages[e.session].channels[e.channel]; var t := Capture.Step(st, e.event);
      && Emitted(st, e.event) == Some(c) && Capture.Inv(t) && t.opts == st.opts
      && |t.emitted| == |st.emitted| + 1 && t.emitted[..|st.emitted|] == st.emitted
      && c == AsStored(t.emitted[|st.emitted|]) && IdOf(c.meta) == ChunkId(e.session, e.channel, |st.emitted|)
      && GoodChunk(IdOf(c.meta), c) && c.meta.id == e.event.id
    ensures Inv(w, Step(w, s, e))
  {
    hide PlainId, GoodLog, GoodStore, GoodServer, GoodChunk, Capture.Inv, Capture.Step, Capture.Enabled, Emitted;
    hide GoodQueue, AsStored, Grows, Counted, GoodPage;
    var p := s.pages[e.session];
    var st := p.channels[e.channel];
    var t := Capture.Step(st, e.event);
    var id := IdOf(c.meta);
    var m := s.log.(finalized := s.log.finalized[id := c]);
    var q := p.(channels := p.channels[e.channel := t], persists := p.persists + [Persist(c, PuttingChunk)]);
    NotYetCounted(s, id);
    ChannelOf(w, e.session, p, s.log, e.channel);
    assert st.opts.sessionId == e.session;
    FinalizedKeepsLog(w, s.log, id, c);
    FinalizedKeepsServer(w, s.server, s.log, s.removed, id, c);
    FinalizedKeepsStore(s.chunks, s.log, s.discarded, id, c);
    GoodChannelStep(e.session, e.channel, st, s.log, m, e.event);
    ChannelInPage(w, e.session, e.channel, p, t, q.persists, s.log, m);
    PagesStep(w, s.pages, e.session, q, s.log, m);
    CountedStep(s, e.session, e.channel, q, t, m);
  }

  lemma NotYetCounted(s: System, id: ChunkId)
    requires Counted(s.pages, s.log, s.started) && id.session in s.pages
    requires id.channel in s.pages[id.session].channels &&
      id.sequence >= |s.pages[id.session].channels[id.channel].emitted|
    ensures id !in s.log.finalized
  {
  }

  lemma ChannelOf(w: World, session: string, p: Page, l: Log, ch: string)
    requires GoodPage(w, session, p, l) && ch in p.channels
    ensures GoodChannel(session, ch, p.channels[ch], l)
  {
  }

  lemma SequenceIsCount(st: Capture.ChannelState)
    requires Capture.Inv(st)
    ensures st.buffer.sequence == |st.emitted|
  {
  }

  lemma EmittedIsStopped(st: Capture.ChannelState, e: Capture.ChannelEvent)
    requires Emitted(st, e).Some?
    ensures e.Stopped?
  {
  }

  lemma GoodChunkId(id: ChunkId, c: StoredChunk)
    requires GoodChunk(id, c)
    ensures IdOf(c.meta) == id
  {
  }

  lemma FinalizedKeepsStore(chunks: map<ChunkId, StoredChunk>, l: Log, discarded: set<string>, id: ChunkId,
      c: StoredChunk)
    requires GoodStore(chunks, l, discarded) && id !in l.finalized
    ensures GoodStore(chunks, l.(finalized := l.finalized[id := c]), discarded)
  {
    var m := l.(finalized := l.finalized[id := c]);
    forall x | x in l.persisted && Taken(l, x) ensures Taken(m, x) {
      TakenGrows(l, m, x);
    }
  }

  // ---- persisting ----

  lemma PersistOf(w: World, s: System, session: string, i: nat)
    requires GoodPages(w, s.pages, s.log) && HasPersist(s, session, i)
    ensures GoodPage(w, session, s.pages[session], s.log) && GoodPersist(session, PersistAt(s, session, i), s.log)
  {
    hide GoodPersist;
  }

  lemma PhaseInPage(w: World, session: string, p: Page, i: nat, phase: Phase, l: Log, m: Log)
    requires GoodPage(w, session, p, l) && Grows(l, m) && i < |p.persists|
    requires GoodPersist(session, p.persists[i].(phase := phase), m)
    ensures GoodPage(w, session, p.(persists := p.persists[i := p.persists[i].(phase := phase)]), m)
  {
    hide PlainId, GoodChannel, GoodQueue, Grows, GoodPersist;
    PageGrows(w, session, p, l, m);
  }

  lemma CountedSame(s: System, session: string, p: Page, m: Log)
    requires Counted(s.pages, s.log, s.started) && session in s.pages && p.channels == s.pages[session].channels
    requires m.finalized == s.log.finalized
    ensures Counted(s.pages[session := p], m, s.started)
  {
  }

  lemma PersistedKeepsLog(w: World, l: Log, id: ChunkId)
    requires GoodLog(w, l) && id in l.finalized
    ensures GoodLog(w, l.(persisted := l.persisted + {id})) && Grows(l, l.(persisted := l.persisted + {id}))
  {
    hide GoodChunk, Faithful, CommitOf, DistinctIds;
    var m := l.(persisted := l.persisted + {id});
    forall q | q in m.sent ensures Faithful(w, m, q) {
      FaithfulGrows(w, l, m, q);
    }
  }

  lemma PersistedKeepsServer(w: World, s: Server.ServerState, l: Log, removed: set<string>, id: ChunkId)
    requires GoodLog(w, l) && GoodServer(w, s, l, removed) && id in l.finalized
    ensures GoodServer(w, s, l.(persisted := l.persisted + {id}), removed)
  {
    hide Server.Consistent, HasRow, HasBytes, PutOf, CommitOf, GoodChunk, DistinctIds, Row, Owned, Faithful;
    var m := l.(persisted := l.persisted + {id});
    if id !in l.persisted {
      NothingSentYet(w, l, id);
    }
    forall x: ChunkId ensures OwnRow(w, s, m, x) {
      assert OwnRow(w, s, l, x);
    }
  }

  lemma ChunkPutKeepsInv(w: World, s: System, e: Event)
    requires Inv(w, s) && Enabled(w, s, e) && e.ChunkPut?
    ensures Inv(w, Step(w, s, e))
  {
    hide PlainId, GoodLog, GoodServer, GoodPage, GoodPages, Grows, Counted;
    var p := s.pages[e.session];
    PersistOf(w, s, e.session, e.i);
    var c := PersistAt(s, e.session, e.i).chunk;
    var m := s.log.(persisted := s.log.persisted + {IdOf(c.meta)});
    PersistedKeepsLog(w, s.log, IdOf(c.meta));
    PersistedKeepsServer(w, s.server, s.log, s.removed, IdOf(c.meta));
    PhaseInPage(w, e.session, p, e.i, ReadingManifest, s.log, m);
    var q := p.(persists := p.persists[e.i := p.persists[e.i].(phase := ReadingManifest)]);
    PagesStep(w, s.pages, e.session, q, s.log, m);
    CountedSame(s, e.session, q, m);
  }

  lemma ManifestReadKeepsInv(w: World, s: System, e: Event)
    requires Inv(w, s) && Enabled(w, s, e) && e.ManifestRead?
    ensures Inv(w, Step(w, s, e))
  {
    hide PlainId, GoodLog, GoodServer, GoodStore, GoodPage, GoodPages, Grows, Counted;
    var p := s.pages[e.session];
    PersistOf(w, s, e.session, e.i);
    Unchanged(s.log);
    var phase := WritingManifest(if e.session in s.manifests then Some(s.manifests[e.session]) else None);
    PhaseInPage(w, e.session, p, e.i, phase, s.log, s.log);
    var q := p.(persists := p.persists[e.i := p.persists[e.i].(phase := phase)]);
    PagesStep(w, s.pages, e.session, q, s.log, s.log);
    CountedSame(s, e.session, q, s.log);
  }

  lemma WithoutPersistInPage(w: World, session: string, p: Page, i: nat, l: Log)
    requires GoodPage(w, session, p, l) && i < |p.persists|
    ensures GoodPage(w, session, p.(persists := WithoutPersist(p.persists, i)), l)
  {
    hide PlainId, GoodChannel, GoodQueue, GoodPersist;
    var rest := WithoutPersist(p.persists, i);
    forall k | 0 <= k < |rest| ensures GoodPersist(session, rest[k], l) {
      assert rest[k] == if k < i then p.persists[k] else p.persists[k + 1];
    }
  }

  lemma EnqueueGood(w: World, session: string, q: Queue.QueueState, c: StoredChunk, l: Log)
    requires GoodQueue(w, session, q, l) && GoodTask(session, Queue.Task(c.meta, c.data, 0, 0), l)
    ensures GoodQueue(w, session, Queue.Step(q, Queue.Enqueue(c.meta, c.data)), l)
  {
    hide GoodTask, TicketKey;
    Queue.StepKeepsInv(q, Queue.Enqueue(c.meta, c.data));
    assert Queue.Inv(q);
    QueueShape(q);
    hide Queue.Inv;
  }

  lemma QueueShape(q: Queue.QueueState)
    requires Queue.Inv(q)
    ensures |q.loops| == (if q.running then 1 else 0)
    ensures q.running && !q.loops[0].at.Deleting? ==> q.tasks != [] && q.tasks[0].chunk == q.loops[0].chunk
  {
  }

  lemma HandedOverInPage(w: World, session: string, p: Page, i: nat, l: Log)
    requires GoodPage(w, session, p, l) && i < |p.persists| && !p.persists[i].phase.PuttingChunk?
    ensures GoodPage(w, session, HandedOver(p, i), l)
  {
    hide PlainId, GoodChannel, GoodQueue, Queue.Step, WithoutPersist;
    var c := p.persists[i].chunk;
    assert GoodPersist(session, p.persists[i], l);
    WithoutPersistInPage(w, session, p, i, l);
    EnqueueGood(w, session, p.queue, c, l);
  }

  lemma ManifestWrittenKeepsInv(w: World, s: System, e: Event)
    requires Inv(w, s) && Enabled(w, s, e) && e.ManifestWritten?
    ensures Inv(w, Step(w, s, e))
  {
    hide PlainId, GoodLog, GoodServer, GoodStore, GoodPage, GoodPages, Grows, Counted, HandedOver;
    var p := s.pages[e.session];
    PersistOf(w, s, e.session, e.i);
    Unchanged(s.log);
    HandedOverInPage(w, e.session, p, e.i, s.log);
    HandedOverKeepsChannels(p, e.i);
    PagesStep(w, s.pages, e.session, HandedOver(p, e.i), s.log, s.log);
    CountedSame(s, e.session, HandedOver(p, e.i), s.log);
  }

  lemma HandedOverKeepsChannels(p: Page, i: nat)
    requires i < |p.persists|
    ensures HandedOver(p, i).channels == p.channels && HandedOver(p, i).persists == WithoutPersist(p.persists, i)
    ensures HandedOver(p, i).serverOk == p.serverOk
  {
  }

  lemma PersistFailedKeepsInv(w: World, s: System, e: Event)
    requires Inv(w, s) && Enabled(w, s, e) && e.PersistFailed?
    ensures Inv(w, Step(w, s, e))
  {
    hide PlainId, GoodLog, GoodServer, GoodStore, GoodPage, GoodPages, Grows, Counted, WithoutPersist;
    var p := s.pages[e.session];
    PersistOf(w, s, e.session, e.i);
    Unchanged(s.log);
    WithoutPersistInPage(w, e.session, p, e.i, s.log);
    var q := p.(persists := WithoutPersist(p.persists, e.i));
    PagesStep(w, s.pages, e.session, q, s.log, s.log);
    CountedSame(s, e.session, q, s.log);
  }

  // ---- uploading ----

  lemma HeadIsGood(w: World, session: string, q: Queue.QueueState, l: Log)
    requires GoodLog(w, l) && GoodQueue(w, session, q, l) && q.tasks != []
    ensures var id := IdOf(Head(q).meta);
      id in l.persisted && id in l.finalized && l.finalized[id] == Head(q) && GoodChunk(id, Head(q)) &&
        id.session == session
  {
    hide TicketKey, Queue.Inv, Faithful, GoodChunk, GoodLoop;
    assert GoodTask(session, q.tasks[0], l);
  }

  /** What a queue event sends stems from the stored chunk at the head. */
  lemma SendsFaithful(w: World, session: string, q: Queue.QueueState, s: System, e: Queue.QueueEvent)
    requires PlainId(w.owner) && GoodLog(w, s.log) && GoodQueue(w, session, q, s.log)
    requires Queue.Enabled(q, e) && Answered(w, s, q, e)
    ensures forall x | x in Sends(w, q, e) :: Faithful(w, s.log, x)
  {
    hide PlainId, PlainSlot, Queue.Enabled, GoodQueue, GoodLog, SanitizeKey, BuildChunkKey, Dto;
    if q.tasks != [] {
      HeadIsGood(w, session, q, s.log);
      TicketIsKey(w, IdOf(Head(q).meta));
    }
  }

  /** The log after a queue event: what was sent is faithful, what was confirmed is committed. */
  lemma QueuedKeepsLog(w: World, session: string, q: Queue.QueueState, l: Log, s: System, e: Queue.QueueEvent)
    requires PlainId(w.owner) && GoodLog(w, l) && GoodQueue(w, session, q, l) && s.log == l
    requires Queue.Enabled(q, e) && Answered(w, s, q, e)
    ensures var m := QueuedLog(w, l, q, e);
      GoodLog(w, m) && Grows(l, m) && m.finalized == l.finalized && m.persisted == l.persisted && m.acked == l.acked
  {
    hide PlainId, Queue.Enabled, GoodQueue, DistinctIds, Faithful, Sends, GoodChunk, CommitOf, TicketKey;
    var m := QueuedLog(w, l, q, e);
    SendsFaithful(w, session, q, s, e);
    if q.tasks != [] {
      HeadIsGood(w, session, q, l);
    }
    forall x | x in m.sent ensures Faithful(w, m, x) {
      FaithfulGrows(w, l, m, x);
    }
  }

  function QueuedLog(w: World, l: Log, q: Queue.QueueState, e: Queue.QueueEvent): Log {
    l.(sent := l.sent + Sends(w, q, e),
       delivered := l.delivered + if e.CommitOk? && q.tasks != [] then {IdOf(Head(q).meta)} else {})
  }

  lemma TicketIsKey(w: World, id: ChunkId)
    requires PlainId(w.owner) && PlainSlot(id)
    ensures SanitizeKey(TicketKey(w, id)) == Ok(TicketKey(w, id))
  {
    hide PlainId, SanitizeKey, BuildChunkKey, InNamespace;
    PlainTicket(w.owner, id.session, id.channel, id.sequence);
  }

  lemma QueuedKeepsTasks(session: string, q: Queue.QueueState, l: Log, e: Queue.QueueEvent)
    requires Queue.Inv(q) && Queue.Enabled(q, e) && !e.Enqueue?
    requires forall k | 0 <= k < |q.tasks| :: GoodTask(session, q.tasks[k], l)
    ensures var r := Queue.Step(q, e); forall k | 0 <= k < |r.tasks| :: GoodTask(session, r.tasks[k], l)
  {
    hide Queue.Delay, Queue.Backoff, Mapped, IdOf;
  }

  lemma QueuedKeepsLoop(w: World, s: System, session: string, q: Queue.QueueState, l: Log, e: Queue.QueueEvent)
    requires PlainId(w.owner) && GoodLog(w, l) && GoodQueue(w, session, q, l) && s.log == l
    requires Queue.Enabled(q, e) && Answered(w, s, q, e)
    ensures GoodLoop(w, Queue.Step(q, e), QueuedLog(w, l, q, e))
  {
    hide PlainId, PlainSlot, SanitizeKey, BuildChunkKey, Queue.Delay, GoodTask, Dto, DistinctIds, Faithful, Queue.Inv;
    QueueShape(q);
    if q.tasks != [] {
      HeadIsGood(w, session, q, l);
      TicketIsKey(w, IdOf(Head(q).meta));
    }
  }

  lemma QueuedGood(w: World, s: System, session: string, q: Queue.QueueState, l: Log, e: Queue.QueueEvent)
    requires PlainId(w.owner) && GoodLog(w, l) && GoodQueue(w, session, q, l) && s.log == l
    requires Queue.Enabled(q, e) && Answered(w, s, q, e)
    ensures GoodQueue(w, session, Queue.Step(q, e), QueuedLog(w, l, q, e))
  {
    hide PlainId, GoodLog, GoodLoop, GoodTask, Queue.Inv, Queue.Step, Queue.Enabled, Grows;
    Queue.StepKeepsInv(q, e);
    QueuedKeepsTasks(session, q, l, e);
    QueuedKeepsLoop(w, s, session, q, l, e);
    QueuedKeepsLog(w, session, q, l, s, e);
    TasksGrow(session, Queue.Step(q, e).tasks, l, QueuedLog(w, l, q, e));
  }

  lemma TasksGrow(session: string, tasks: seq<Queue.Task>, l: Log, m: Log)
    requires Grows(l, m) && forall k | 0 <= k < |tasks| :: GoodTask(session, tasks[k], l)
    ensures forall k | 0 <= k < |tasks| :: GoodTask(session, tasks[k], m)
  {
    forall k | 0 <= k < |tasks| ensures GoodTask(session, tasks[k], m) {
      assert GoodTask(session, tasks[k], l);
    }
  }

  lemma OnQueueKeepsInv(w: World, s: System, e: Event)
    requires Inv(w, s) && Enabled(w, s, e) && e.OnQueue?
    ensures Inv(w, Step(w, s, e))
  {
    hide PlainId, GoodLog, GoodServer, GoodStore, GoodChannel, GoodPersist, GoodQueue, Grows, Counted, Queue.Step;
    hide Queue.Enabled, Answered, Sends;
    var p := s.pages[e.session];
    assert GoodPage(w, e.session, p, s.log);
    var m := QueuedLog(w, s.log, p.queue, e.queued);
    QueuedKeepsLog(w, e.session, p.queue, s.log, s, e.queued);
    QueuedGood(w, s, e.session, p.queue, s.log, e.queued);
    PageGrows(w, e.session, p, s.log, m);
    var q := p.(queue := Queue.Step(p.queue, e.queued));
    PagesStep(w, s.pages, e.session, q, s.log, m);
    CountedSame(s, e.session, q, m);
    LogKeepsServer(w, s.server, s.log, m, s.removed);
    LogKeepsStore(s.chunks, s.log, m, s.discarded);
  }

  lemma LogKeepsServer(w: World, s: Server.ServerState, l: Log, m: Log, removed: set<string>)
    requires GoodServer(w, s, l, removed) && m.finalized == l.finalized && m.persisted == l.persisted &&
      m.acked == l.acked
    ensures GoodServer(w, s, m, removed)
  {
    hide Server.Consistent, HasRow, HasBytes, PutOf, CommitOf, Row, Owned;
    forall x: ChunkId ensures OwnRow(w, s, m, x) {
      assert OwnRow(w, s, l, x);
    }
  }

  lemma LogKeepsStore(chunks: map<ChunkId, StoredChunk>, l: Log, m: Log, discarded: set<string>)
    requires GoodStore(chunks, l, discarded) && m.finalized == l.finalized && m.persisted == l.persisted
    requires l.delivered <= m.delivered
    ensures GoodStore(chunks, m, discarded)
  {
    hide Taken;
    forall id | id in l.persisted && Taken(l, id) ensures Taken(m, id) {
      TakenGrows(l, m, id);
    }
  }

  // ---- the store, the network and the server ----

  /** The local copy deleted is one whose commit was confirmed, or one whose id a confirmed chunk has too. */
  lemma ReclaimedKeepsStore(w: World, chunks: map<ChunkId, StoredChunk>, l: Log, discarded: set<string>,
      q: Queue.QueueState, gone: ChunkId)
    requires GoodLog(w, l) && GoodStore(chunks, l, discarded) && GoodLoop(w, q, l) && Deleting(q)
    requires Matches(chunks, q.loops[0].at.chunkId, Some(gone))
    ensures gone in l.delivered || Taken(l, gone)
    ensures GoodStore(chunks - {gone}, l, discarded)
  {
    hide TicketKey, Faithful, GoodChunk, CommitOf, PutOf, IdOf, Taken, DistinctIds;
    var id := IdOf(q.loops[0].chunk);
    if gone != id {
      TakenBy(l, gone, id);
    }
  }

  lemma TakenBy(l: Log, id: ChunkId, other: ChunkId)
    requires other in l.delivered && SameId(l, other, id)
    ensures Taken(l, id)
  {
  }

  lemma ReclaimedKeepsInv(w: World, s: System, e: Event)
    requires Inv(w, s) && Enabled(w, s, e) && e.Reclaimed?
    ensures Inv(w, Step(w, s, e))
  {
    hide PlainId, GoodLog, GoodServer, GoodStore, GoodChannel, GoodPersist, GoodLoop, Counted, Queue.Inv, Matches;
    assert GoodPage(w, e.session, s.pages[e.session], s.log);
    if e.gone.Some? {
      ReclaimedKeepsStore(w, s.chunks, s.log, s.discarded, s.pages[e.session].queue, e.gone.value);
    }
  }

  lemma AckedKeepsLog(w: World, l: Log, q: Server.Request)
    requires GoodLog(w, l) && q in l.sent
    ensures GoodLog(w, l.(acked := l.acked + {q})) && Grows(l, l.(acked := l.acked + {q}))
  {
    hide GoodChunk, Faithful, CommitOf, DistinctIds;
    var m := l.(acked := l.acked + {q});
    forall x | x in m.sent ensures Faithful(w, m, x) {
      FaithfulGrows(w, l, m, x);
    }
  }

  lemma AckedKeepsPages(w: World, pages: map<string, Page>, l: Log, m: Log)
    requires GoodPages(w, pages, l) && Grows(l, m)
    ensures GoodPages(w, pages, m)
  {
    hide GoodPage, Grows;
    forall session | session in pages ensures GoodPage(w, session, pages[session], m) {
      PageGrows(w, session, pages[session], l, m);
    }
  }

  lemma DeliveredKeepsInv(w: World, s: System, e: Event)
    requires Inv(w, s) && Enabled(w, s, e) && e.Delivered?
    ensures Inv(w, Step(w, s, e))
  {
    hide PlainId, GoodLog, GoodServer, GoodStore, GoodPages, Counted, Grows, Server.Handle;
    if Server.Handle(w.cfg, s.server, e.request).Ok? {
      var m := s.log.(acked := s.log.acked + {e.request});
      Delivery.DeliveredKeepsServer(w, s.server, s.log, s.removed, e.request);
      AckedKeepsLog(w, s.log, e.request);
      AckedKeepsPages(w, s.pages, s.log, m);
      LogKeepsStore(s.chunks, s.log, m, s.discarded);
      CountedLog(s, m);
    }
  }

  lemma CountedLog(s: System, m: Log)
    requires Counted(s.pages, s.log, s.started) && m.finalized == s.log.finalized
    ensures Counted(s.pages, m, s.started)
  {
  }

  lemma OtherKeepsInv(w: World, s: System, e: Event)
    requires Inv(w, s) && Enabled(w, s, e)
    requires e.Requested? || e.RecordingRemoved? || e.MarkedClosed? || e.Discarded? || e.Crashed?
    ensures Inv(w, Step(w, s, e))
  {
    hide PlainId, GoodLog, GoodServer, GoodPage, Server.Handle, Server.Owns, Server.Removed;
    match e
    case Requested(q) => Delivery.RequestKeepsServer(w, s.server, s.log, s.removed, q);
    case RecordingRemoved(id) => Delivery.RemovedKeepsServer(w, s.server, s.log, s.removed, id);
    case _ =>
  }

  /** Every event keeps the invariant. */
  lemma StepKeepsInv(w: World, s: System, e: Event)
    requires Inv(w, s) && Enabled(w, s, e)
    ensures Inv(w, Step(w, s, e))
  {
    hide Inv, Step, Enabled;
    match e
    case Begin(_, _, _, _) => BeginKeepsInv(w, s, e);
    case OnChannel(_, _, _) => OnChannelKeepsInv(w, s, e);
    case ChunkPut(_, _) => ChunkPutKeepsInv(w, s, e);
    case ManifestRead(_, _) => ManifestReadKeepsInv(w, s, e);
    case ManifestWritten(_, _, _) => ManifestWrittenKeepsInv(w, s, e);
    case PersistFailed(_, _) => PersistFailedKeepsInv(w, s, e);
    case OnQueue(_, _) => OnQueueKeepsInv(w, s, e);
    case Reclaimed(_, _) => ReclaimedKeepsInv(w, s, e);
    case Delivered(_) => DeliveredKeepsInv(w, s, e);
    case _ => OtherKeepsInv(w, s, e);
  }

  lemma {:induction false} RunKeepsInv(w: World, s: System, events: seq<Event>, r: System)
    requires Inv(w, s) && Run(w, s, events, r)
    ensures Inv(w, r)
    decreases |events|
  {
    hide Inv, Step, Enabled;
    if events != [] {
      StepKeepsInv(w, s, events[0]);
      RunKeepsInv(w, Step(w, s, events[0]), events[1..], r);
    }
  }
}
