/**
 * Durability over all runs of the pipeline: a stored chunk stays in the local store until the
 * server has it, and repeated delivery leaves one row per chunk.
 */
module Durability {
  import opened Wrappers
  import opened Common
  import opened RecoveryStore
  import opened Pipeline
  import opened Keys
  import Capture
  import Queue = UploadQueue
  import Server

  // ---- the invariant, part by part ----

  ghost predicate GoodChunk(id: ChunkId, c: StoredChunk) {
    && IdOf(c.meta) == id && PlainSlot(id)
    && 1 <= |c.data| == c.meta.byteLength
  }

  /** A request stems from a stored chunk, and a commit only follows its answered upload. */
  ghost predicate Faithful(w: World, l: Log, q: Server.Request) {
    && (q.Put? || q.CommitChunk?)
    && exists id | id in l.persisted ::
      && id in l.finalized
      && if q.Put? then q == PutOf(w, l.finalized[id])
         else q == CommitOf(w, l.finalized[id]) && PutOf(w, l.finalized[id]) in l.acked
  }

  /** Chunk ids are distinct within a session; pages do not know of one another's. */
  ghost predicate DistinctIds(finalized: map<ChunkId, StoredChunk>) {
    forall a, b | a in finalized && b in finalized && a.session == b.session &&
      finalized[a].meta.id == finalized[b].meta.id :: a == b
  }

  /** A confirmed chunk of another page has the same id, so that reclaiming it may have taken this one. */
  ghost predicate Taken(l: Log, id: ChunkId) {
    exists other | other in l.delivered :: SameId(l, other, id)
  }

  predicate SameId(l: Log, a: ChunkId, b: ChunkId) {
    a != b && a in l.finalized && b in l.finalized && l.finalized[a].meta.id == l.finalized[b].meta.id
  }

  ghost predicate GoodLog(w: World, l: Log) {
    && (forall id | id in l.finalized :: GoodChunk(id, l.finalized[id]))
    && DistinctIds(l.finalized)
    && l.persisted <= l.finalized.Keys && l.delivered <= l.persisted && l.acked <= l.sent
    && (forall id | id in l.delivered :: CommitOf(w, l.finalized[id]) in l.acked)
    && (forall q | q in l.sent :: Faithful(w, l, q))
  }

  /** The store holds stored chunks unchanged, and all but those confirmed, discarded or taken. */
  ghost predicate GoodStore(chunks: map<ChunkId, StoredChunk>, l: Log, discarded: set<string>) {
    && (forall id | id in chunks :: id in l.persisted && id in l.finalized && chunks[id] == l.finalized[id])
    && (forall id | id in l.persisted :: id in chunks || id in l.delivered || id.session in discarded || Taken(l, id))
  }

  function Row(server: Server.ServerState, id: ChunkId): Option<Server.ChunkRow> {
    Server.RowOf(server.rows, id.session, id.channel, id.sequence)
  }

  predicate Owned(w: World, server: Server.ServerState, session: string) {
    Server.Owns(server, w.owner, session).None?
  }

  /** The server has the chunk: its row, and its bytes under the row's key. */
  predicate HasRow(w: World, server: Server.ServerState, id: ChunkId, c: StoredChunk) {
    Owned(w, server, id.session) && Row(server, id) == Some(Server.Created(Dto(w, c)))
  }

  predicate HasBytes(w: World, server: Server.ServerState, id: ChunkId, c: StoredChunk) {
    TicketKey(w, id) in server.files && server.files[TicketKey(w, id)] == c.data
  }

  /** No row of the user's recordings is anything but the row of a stored chunk. */
  ghost predicate OwnRow(w: World, server: Server.ServerState, l: Log, id: ChunkId) {
    Owned(w, server, id.session) ==>
      Row(server, id) == None || (id in l.persisted && id in l.finalized && HasRow(w, server, id, l.finalized[id]))
  }

  ghost predicate GoodServer(w: World, server: Server.ServerState, l: Log, removed: set<string>) {
    && Server.Consistent(server)
    && (forall id | id in l.persisted && id in l.finalized && PutOf(w, l.finalized[id]) in l.acked ::
       HasBytes(w, server, id, l.finalized[id]))
    && (forall id | id in l.persisted && id in l.finalized && CommitOf(w, l.finalized[id]) in l.acked ::
       id.session in removed || HasRow(w, server, id, l.finalized[id]))
    && (forall id: ChunkId :: OwnRow(w, server, l, id))
  }

  /** A channel of a page has finalised exactly its emitted chunks. */
  ghost predicate GoodChannel(session: string, ch: string, st: Capture.ChannelState, l: Log) {
    && Capture.Inv(st) && st.opts.sessionId == session && st.opts.channel == ch && PlainId(ch)
    && forall k: nat | k < |st.emitted| ::
      ChunkId(session, ch, k) in l.finalized && l.finalized[ChunkId(session, ch, k)] == AsStored(st.emitted[k])
  }

  ghost predicate GoodPersist(session: string, p: Persist, l: Log) {
    var id := IdOf(p.chunk.meta);
    && id.session == session && id in l.finalized && l.finalized[id] == p.chunk
    && (!p.phase.PuttingChunk? ==> id in l.persisted)
  }

  ghost predicate GoodTask(session: string, t: Queue.Task, l: Log) {
    var id := IdOf(t.chunk);
    id.session == session && id in l.persisted && id in l.finalized && l.finalized[id] == StoredChunk(t.chunk, t.blob)
  }

  /** The loop uploads and commits what it has sent, under its ticket's key, and deletes only what was confirmed. */
  ghost predicate GoodLoop(w: World, q: Queue.QueueState, l: Log) {
    q.loops != [] ==>
      var lp := q.loops[0];
      match lp.at
      case Putting(key) =>
        var id := IdOf(lp.chunk);
        key == TicketKey(w, id) && id in l.finalized && PutOf(w, l.finalized[id]) in l.sent
      case Committing(key) =>
        var id := IdOf(lp.chunk);
        key == TicketKey(w, id) && id in l.finalized && PutOf(w, l.finalized[id]) in l.acked &&
          CommitOf(w, l.finalized[id]) in l.sent
      case Deleting(chunkId) =>
        var id := IdOf(lp.chunk);
        id in l.delivered && id in l.finalized && l.finalized[id].meta.id == chunkId
      case _ => true
  }

  ghost predicate GoodQueue(w: World, session: string, q: Queue.QueueState, l: Log) {
    && Queue.Inv(q) && GoodLoop(w, q, l)
    && forall k | 0 <= k < |q.tasks| :: GoodTask(session, q.tasks[k], l)
  }

  ghost predicate GoodPage(w: World, session: string, p: Page, l: Log) {
    && PlainId(session)
    && (forall ch | ch in p.channels :: GoodChannel(session, ch, p.channels[ch], l))
    && (forall i | 0 <= i < |p.persists| :: GoodPersist(session, p.persists[i], l))
    && GoodQueue(w, session, p.queue, l)
  }

  /** Every finalised chunk came from a started session, and a running one still counts it. */
  ghost predicate Counted(pages: map<string, Page>, l: Log, started: set<string>) {
    && (forall session | session in pages :: session in started)
    && (forall id | id in l.finalized :: id.session in started)
    && (forall id | id in l.finalized && id.session in pages ::
          id.channel in pages[id.session].channels &&
          id.sequence < |pages[id.session].channels[id.channel].emitted|)
  }

  ghost predicate GoodPages(w: World, pages: map<string, Page>, l: Log) {
    forall session | session in pages :: GoodPage(w, session, pages[session], l)
  }

  ghost predicate Inv(w: World, s: System) {
    && PlainId(w.owner)
    && GoodLog(w, s.log)
    && GoodStore(s.chunks, s.log, s.discarded)
    && GoodServer(w, s.server, s.log, s.removed)
    && Counted(s.pages, s.log, s.started)
    && GoodPages(w, s.pages, s.log)
  }

  // ---- the log only grows ----

  ghost predicate Grows(l: Log, m: Log) {
    && (forall id | id in l.finalized :: id in m.finalized && m.finalized[id] == l.finalized[id])
    && l.persisted <= m.persisted && l.delivered <= m.delivered && l.sent <= m.sent && l.acked <= m.acked
  }

  lemma PageGrows(w: World, session: string, p: Page, l: Log, m: Log)
    requires GoodPage(w, session, p, l) && Grows(l, m)
    ensures GoodPage(w, session, p, m)
  {
    hide Capture.Inv, Queue.Inv, TicketKey, AsStored, PlainId;
    forall ch | ch in p.channels ensures GoodChannel(session, ch, p.channels[ch], m) {
      assert GoodChannel(session, ch, p.channels[ch], l);
    }
    forall k | 0 <= k < |p.queue.tasks| ensures GoodTask(session, p.queue.tasks[k], m) {
      assert GoodTask(session, p.queue.tasks[k], l);
    }
    forall i | 0 <= i < |p.persists| ensures GoodPersist(session, p.persists[i], m) {
      assert GoodPersist(session, p.persists[i], l);
    }
  }

  /** Replacing one page while the log grows. */
  lemma PagesStep(w: World, pages: map<string, Page>, session: string, p: Page, l: Log, m: Log)
    requires GoodPages(w, pages, l) && Grows(l, m) && GoodPage(w, session, p, m)
    ensures GoodPages(w, pages[session := p], m)
  {
    hide GoodPage, Grows;
    forall other | other in pages && other != session ensures GoodPage(w, other, pages[other], m) {
      PageGrows(w, other, pages[other], l, m);
    }
  }

  lemma FaithfulGrows(w: World, l: Log, m: Log, q: Server.Request)
    requires Faithful(w, l, q) && Grows(l, m)
    ensures Faithful(w, m, q)
  {
    hide PutOf, CommitOf;
    var id :| id in l.persisted && id in l.finalized &&
      if q.Put? then q == PutOf(w, l.finalized[id])
      else q == CommitOf(w, l.finalized[id]) && PutOf(w, l.finalized[id]) in l.acked;
    assert id in m.persisted;
  }

  lemma TakenGrows(l: Log, m: Log, id: ChunkId)
    requires Taken(l, id) && l.delivered <= m.delivered
    requires forall x | x in l.finalized :: x in m.finalized && m.finalized[x] == l.finalized[x]
    ensures Taken(m, id)
  {
    var other :| other in l.delivered && SameId(l, other, id);
    assert SameId(m, other, id);
  }

  lemma Unchanged(l: Log)
    ensures Grows(l, l)
  {
  }

  // ---- requests are determined by their chunk ----

  lemma PutDetermines(w: World, a: StoredChunk, b: StoredChunk)
    requires PlainSlot(IdOf(a.meta)) && PlainSlot(IdOf(b.meta))
    requires TicketKey(w, IdOf(a.meta)) == TicketKey(w, IdOf(b.meta))
    ensures IdOf(a.meta) == IdOf(b.meta)
  {
    hide PlainId, BuildChunkKey;
    var x, y := IdOf(a.meta), IdOf(b.meta);
    ChunkKeyInjective(w.owner, x.session, x.channel, x.sequence, y.session, y.channel, y.sequence);
  }

  lemma CommitDetermines(w: World, a: StoredChunk, b: StoredChunk)
    requires CommitOf(w, a) == CommitOf(w, b)
    ensures IdOf(a.meta) == IdOf(b.meta)
  {
    assert Dto(w, a) == Dto(w, b);
  }

  /** A storing that is not yet in the log has not been asked for either. */
  lemma NothingSentYet(w: World, l: Log, id: ChunkId)
    requires GoodLog(w, l) && id in l.finalized && id !in l.persisted
    ensures PutOf(w, l.finalized[id]) !in l.sent && CommitOf(w, l.finalized[id]) !in l.sent
  {
    hide TicketKey, PlainSlot, Dto;
    var c := l.finalized[id];
    if PutOf(w, c) in l.sent {
      assert Faithful(w, l, PutOf(w, c));
      var other :| other in l.persisted && other in l.finalized && PutOf(w, c) == PutOf(w, l.finalized[other]);
      PutDetermines(w, c, l.finalized[other]);
    }
    if CommitOf(w, c) in l.sent {
      assert Faithful(w, l, CommitOf(w, c));
      var other :| other in l.persisted && other in l.finalized && CommitOf(w, c) == CommitOf(w, l.finalized[other]);
      CommitDetermines(w, c, l.finalized[other]);
    }
  }
}
