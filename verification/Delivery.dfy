/** What the server does with the pipeline's requests: duplicates, strangers and removals included. */
module Delivery {
  import opened Wrappers
  import opened Common
  import opened RecoveryStore
  import opened Pipeline
  import opened Durability
  import opened Keys
  import Server

  /** Nothing that concerns the user's chunks differs, except that a recording may be newly theirs and empty. */
  ghost predicate Undisturbed(w: World, a: Server.ServerState, b: Server.ServerState) {
    && (forall session: string :: Owned(w, a, session) ==> Owned(w, b, session))
    && (forall id: ChunkId :: Owned(w, b, id.session) ==>
          if Owned(w, a, id.session) then Row(b, id) == Row(a, id) else Row(b, id) == None)
    && (forall id | PlainSlot(id) && TicketKey(w, id) in a.files ::
          TicketKey(w, id) in b.files && b.files[TicketKey(w, id)] == a.files[TicketKey(w, id)])
  }

  lemma UndisturbedKeeps(w: World, a: Server.ServerState, b: Server.ServerState, l: Log, removed: set<string>)
    requires GoodLog(w, l) && GoodServer(w, a, l, removed) && Server.Consistent(b) && Undisturbed(w, a, b)
    ensures GoodServer(w, b, l, removed)
  {
    hide TicketKey, PlainSlot, Server.RowOf, Server.Owns, Dto, DistinctIds, Server.Consistent;
    forall id | id in l.persisted && id in l.finalized && PutOf(w, l.finalized[id]) in l.acked
      ensures HasBytes(w, b, id, l.finalized[id])
    {
      assert GoodChunk(id, l.finalized[id]) && HasBytes(w, a, id, l.finalized[id]);
    }
    forall id | id in l.persisted && id in l.finalized && CommitOf(w, l.finalized[id]) in l.acked
      ensures id.session in removed || HasRow(w, b, id, l.finalized[id])
    {
      assert id.session in removed || HasRow(w, a, id, l.finalized[id]);
    }
    forall id: ChunkId ensures OwnRow(w, b, l, id) {
      assert OwnRow(w, a, l, id);
    }
  }

  lemma NoRowsWithoutRecording(a: Server.ServerState, id: ChunkId)
    requires Server.Consistent(a) && id.session !in a.recordings
    ensures Row(a, id) == None
  {
    hide Server.SumsUp, Server.UniqueRows;
    Server.RowOfMember(a.rows, id.session, id.channel, id.sequence);
  }

  lemma OpenUndisturbed(w: World, a: Server.ServerState, ownerId: string, id: string)
    requires Server.Consistent(a)
    ensures Undisturbed(w, a, Server.Create(a, ownerId, id))
  {
    hide TicketKey, PlainSlot, Server.RowOf, Server.Consistent;
    var b := Server.Create(a, ownerId, id);
    forall x: ChunkId | Owned(w, b, x.session) && !Owned(w, a, x.session) ensures Row(b, x) == None {
      NoRowsWithoutRecording(a, x);
    }
  }

  lemma CompleteUndisturbed(w: World, a: Server.ServerState, ownerId: string, id: string)
    requires Server.Complete(a, ownerId, id).Ok?
    ensures Undisturbed(w, a, Server.Complete(a, ownerId, id).value)
  {
    hide TicketKey, PlainSlot, Server.RowOf, Server.LongestChannel, Server.OfRecording, Server.AnyPending;
  }

  lemma ForeignPutUndisturbed(w: World, a: Server.ServerState, ownerId: string, key: string, bytes: Bytes)
    requires PlainId(w.owner) && PlainId(ownerId) && ownerId != w.owner
    requires Server.StoreBytes(a, ownerId, key, bytes).Ok?
    ensures Undisturbed(w, a, Server.StoreBytes(a, ownerId, key, bytes).value)
  {
    hide PlainId, BuildChunkKey, SanitizeKey, InNamespace, Server.RowOf;
    forall id | PlainSlot(id) ensures SanitizeKey(key) != Ok(TicketKey(w, id)) {
      ForeignUploadsMiss(key, ownerId, w.owner, id.session, id.channel, id.sequence);
    }
  }

  lemma ForeignCommitUndisturbed(w: World, a: Server.ServerState, ownerId: string, d: Server.CommitDto)
    requires ownerId != w.owner && Server.Commit(w.cfg, a, ownerId, d).Ok?
    ensures Undisturbed(w, a, Server.Commit(w.cfg, a, ownerId, d).value)
  {
    hide TicketKey, PlainSlot, Server.RowOf, Server.Upsert, Server.Summary, Server.OfRecording, Server.ChecksumHolds;
    CommitKeepsOwners(w, a, ownerId, d);
    forall id: ChunkId | id.session != d.recordingId
      ensures Row(Server.Commit(w.cfg, a, ownerId, d).value, id) == Row(a, id)
    {
      Server.UpsertDecides(a.rows, d, id.session, id.channel, id.sequence);
    }
  }

  lemma CommitKeepsOwners(w: World, a: Server.ServerState, ownerId: string, d: Server.CommitDto)
    requires Server.Commit(w.cfg, a, ownerId, d).Ok?
    ensures var b := Server.Commit(w.cfg, a, ownerId, d).value;
      && Server.Owns(a, ownerId, d.recordingId).None?
      && b.files == a.files && b.rows == Server.Upsert(a.rows, d)
      && forall session: string :: Owned(w, b, session) <==> Owned(w, a, session)
  {
    hide Server.Upsert, Server.OfRecording, Server.LongestChannel, Server.AnyPending, Server.ChecksumHolds;
  }

  /** Requests of strangers, and opening or completing one's own recordings, disturb nothing. */
  lemma RequestKeepsServer(w: World, a: Server.ServerState, l: Log, removed: set<string>, q: Server.Request)
    requires PlainId(w.owner) && GoodLog(w, l) && GoodServer(w, a, l, removed)
    requires if q.ownerId == w.owner then q.Open? || q.CompleteRecording? else PlainId(q.ownerId)
    ensures GoodServer(w, Server.After(a, Server.Handle(w.cfg, a, q)), l, removed)
  {
    hide GoodLog, Undisturbed, PlainId, Server.Consistent, Server.Create, Server.Complete, Server.Commit;
    hide Server.StoreBytes, OwnRow, HasRow, HasBytes;
    Server.HandleKeepsConsistent(w.cfg, a, q);
    var r := Server.Handle(w.cfg, a, q);
    if r.Ok? {
      match q {
        case Open(ownerId, id) => OpenUndisturbed(w, a, ownerId, id);
        case Put(ownerId, key, bytes) => ForeignPutUndisturbed(w, a, ownerId, key, bytes);
        case CommitChunk(ownerId, dto) => ForeignCommitUndisturbed(w, a, ownerId, dto);
        case CompleteRecording(ownerId, id) => CompleteUndisturbed(w, a, ownerId, id);
      }
      UndisturbedKeeps(w, a, r.value, l, removed);
    }
  }

  // ---- the user's own uploads and commits ----

  /** An upload, first or repeated, puts the chunk's bytes under its key and changes no other key. */
  lemma PutIs(w: World, a: Server.ServerState, c: StoredChunk)
    requires PlainId(w.owner) && PlainSlot(IdOf(c.meta)) && Server.Handle(w.cfg, a, PutOf(w, c)).Ok?
    ensures Server.Handle(w.cfg, a, PutOf(w, c)).value == a.(files := a.files[TicketKey(w, IdOf(c.meta)) := c.data])
  {
    hide PlainId, BuildChunkKey, SanitizeKey, InNamespace;
    var id := IdOf(c.meta);
    PlainTicket(w.owner, id.session, id.channel, id.sequence);
  }

  lemma PutKeepsServer(w: World, a: Server.ServerState, l: Log, m: Log, removed: set<string>, id0: ChunkId)
    requires PlainId(w.owner) && GoodLog(w, l) && GoodServer(w, a, l, removed) && id0 in l.persisted
    requires m == l.(acked := l.acked + {PutOf(w, l.finalized[id0])})
    requires Server.Handle(w.cfg, a, PutOf(w, l.finalized[id0])).Ok?
    ensures GoodServer(w, Server.Handle(w.cfg, a, PutOf(w, l.finalized[id0])).value, m, removed)
  {
    hide PlainId, PlainSlot, TicketKey, Server.Handle, Server.Consistent, Server.RowOf, Server.Owns, Dto, DistinctIds;
    hide Faithful;
    var c0 := l.finalized[id0];
    assert GoodChunk(id0, c0);
    PutIs(w, a, c0);
    Server.HandleKeepsConsistent(w.cfg, a, PutOf(w, c0));
    var b := Server.Handle(w.cfg, a, PutOf(w, c0)).value;
    forall id | id in m.persisted && id in m.finalized && PutOf(w, m.finalized[id]) in m.acked
      ensures HasBytes(w, b, id, m.finalized[id])
    {
      var c := l.finalized[id];
      assert GoodChunk(id, c);
      if TicketKey(w, id) == TicketKey(w, id0) {
        PutDetermines(w, c, c0);
      } else {
        assert HasBytes(w, a, id, c);
      }
    }
    SameRows(w, a, b, l, m, removed);
  }

  /** An answered upload changes no row. */
  lemma SameRows(w: World, a: Server.ServerState, b: Server.ServerState, l: Log, m: Log, removed: set<string>)
    requires GoodServer(w, a, l, removed) && b.rows == a.rows && b.recordings == a.recordings
    requires m.persisted == l.persisted && m.finalized == l.finalized
    requires forall q | q in m.acked :: q in l.acked || q.Put?
    ensures forall id | id in m.persisted && id in m.finalized && CommitOf(w, m.finalized[id]) in m.acked ::
      id.session in removed || HasRow(w, b, id, m.finalized[id])
    ensures forall id: ChunkId :: OwnRow(w, b, m, id)
  {
    hide TicketKey, Server.Consistent, Server.RowOf, Dto, HasBytes;
    forall id: ChunkId ensures OwnRow(w, b, m, id) {
      assert OwnRow(w, a, l, id);
    }
    forall id | id in m.persisted && id in m.finalized && CommitOf(w, m.finalized[id]) in m.acked
      ensures id.session in removed || HasRow(w, b, id, m.finalized[id])
    {
      assert id.session in removed || HasRow(w, a, id, l.finalized[id]);
    }
  }

  /** A commit, first or repeated, leaves its chunk with the row a single commit creates. */
  lemma CommitIs(w: World, a: Server.ServerState, l: Log, id0: ChunkId, id: ChunkId)
    requires id0 in l.persisted && id0 in l.finalized && GoodChunk(id0, l.finalized[id0])
    requires OwnRow(w, a, l, id0) && Server.Commit(w.cfg, a, w.owner, Dto(w, l.finalized[id0])).Ok?
    ensures var b := Server.Commit(w.cfg, a, w.owner, Dto(w, l.finalized[id0])).value;
      && Row(b, id) == (if id == id0 then Some(Server.Created(Dto(w, l.finalized[id0]))) else Row(a, id))
      && b.files == a.files && Owned(w, b, id0.session)
      && forall session: string :: Owned(w, b, session) <==> Owned(w, a, session)
  {
    hide TicketKey, PlainSlot, Server.RowOf, Server.Upsert, Server.Commit;
    var d := Dto(w, l.finalized[id0]);
    CommitKeepsOwners(w, a, w.owner, d);
    if id == id0 {
      Server.OneCommit(a.rows, d, d);
    } else {
      Server.UpsertDecides(a.rows, d, id.session, id.channel, id.sequence);
    }
  }

  lemma CommitKeepsServer(w: World, a: Server.ServerState, l: Log, m: Log, removed: set<string>, id0: ChunkId)
    requires GoodLog(w, l) && GoodServer(w, a, l, removed) && id0 in l.persisted
    requires m == l.(acked := l.acked + {CommitOf(w, l.finalized[id0])})
    requires Server.Commit(w.cfg, a, w.owner, Dto(w, l.finalized[id0])).Ok?
    ensures GoodServer(w, Server.Commit(w.cfg, a, w.owner, Dto(w, l.finalized[id0])).value, m, removed)
  {
    hide PlainSlot, TicketKey, Server.Commit, Server.Consistent, Server.RowOf, Server.Owns, Dto, DistinctIds;
    hide Faithful, Server.SumsUp;
    var c0 := l.finalized[id0];
    assert GoodChunk(id0, c0) && OwnRow(w, a, l, id0);
    Server.CommitKeepsConsistent(w.cfg, a, w.owner, Dto(w, c0));
    var b := Server.Commit(w.cfg, a, w.owner, Dto(w, c0)).value;
    forall id | id in m.persisted && id in m.finalized && PutOf(w, m.finalized[id]) in m.acked
      ensures HasBytes(w, b, id, m.finalized[id])
    {
      CommitIs(w, a, l, id0, id0);
      assert HasBytes(w, a, id, l.finalized[id]);
    }
    forall id | id in m.persisted && id in m.finalized && CommitOf(w, m.finalized[id]) in m.acked
      ensures id.session in removed || HasRow(w, b, id, m.finalized[id])
    {
      CommitIs(w, a, l, id0, id);
      if CommitOf(w, l.finalized[id]) == CommitOf(w, c0) {
        CommitDetermines(w, l.finalized[id], c0);
        assert GoodChunk(id, l.finalized[id]);
      } else {
        assert id.session in removed || HasRow(w, a, id, l.finalized[id]);
      }
    }
    forall id: ChunkId ensures OwnRow(w, b, m, id) {
      CommitIs(w, a, l, id0, id);
      assert OwnRow(w, a, l, id);
    }
  }

  lemma RemovedKeepsServer(w: World, a: Server.ServerState, l: Log, removed: set<string>, gone: string)
    requires GoodServer(w, a, l, removed)
    ensures GoodServer(w, Server.Removed(a, gone), l, removed + {gone})
  {
    hide TicketKey, Server.Consistent, Server.RowOf, Dto, Server.OtherRows;
    Server.RemovedKeepsConsistent(a, gone);
    var b := Server.Removed(a, gone);
    forall id: ChunkId ensures Row(b, id) == if id.session == gone then None else Row(a, id) {
      Server.OtherRowsAre(a.rows, gone, id.session, id.channel, id.sequence);
    }
    forall id: ChunkId ensures OwnRow(w, b, l, id) {
      assert OwnRow(w, a, l, id);
    }
    forall id | id in l.persisted && id in l.finalized && PutOf(w, l.finalized[id]) in l.acked
      ensures HasBytes(w, b, id, l.finalized[id])
    {
      assert HasBytes(w, a, id, l.finalized[id]);
    }
  }

  /** The chunk a request stems from. */
  lemma Origin(w: World, l: Log, q: Server.Request) returns (id: ChunkId)
    requires GoodLog(w, l) && q in l.sent
    ensures id in l.persisted && (q == PutOf(w, l.finalized[id]) || q == CommitOf(w, l.finalized[id]))
  {
    hide PutOf, CommitOf, GoodChunk, DistinctIds;
    assert Faithful(w, l, q);
    id :| id in l.persisted && id in l.finalized &&
      if q.Put? then q == PutOf(w, l.finalized[id])
      else q == CommitOf(w, l.finalized[id]) && PutOf(w, l.finalized[id]) in l.acked;
  }

  /** Delivering any request ever sent, for the first time or again. */
  lemma DeliveredKeepsServer(w: World, a: Server.ServerState, l: Log, removed: set<string>, q: Server.Request)
    requires PlainId(w.owner) && GoodLog(w, l) && GoodServer(w, a, l, removed) && q in l.sent
    requires Server.Handle(w.cfg, a, q).Ok?
    ensures GoodServer(w, Server.Handle(w.cfg, a, q).value, l.(acked := l.acked + {q}), removed)
  {
    hide GoodLog, GoodServer, PlainId, Server.Commit, Server.StoreBytes, Dto, TicketKey;
    var id := Origin(w, l, q);
    PersistedIsFinalized(w, l, id);
    if q == PutOf(w, l.finalized[id]) {
      PutKeepsServer(w, a, l, l.(acked := l.acked + {q}), removed, id);
    } else {
      CommitKeepsServer(w, a, l, l.(acked := l.acked + {q}), removed, id);
    }
  }

  lemma PersistedIsFinalized(w: World, l: Log, id: ChunkId)
    requires GoodLog(w, l) && id in l.persisted
    ensures id in l.finalized && GoodChunk(id, l.finalized[id])
  {
  }
}
