/**
 * What the pipeline guarantees after any run: no stored chunk is lost, delivery has an
 * exactly-once effect, and a crash costs what had not been stored.
 */
module Guarantees {
  import opened Wrappers
  import opened Common
  import opened RecoveryStore
  import opened Pipeline
  import opened Durability
  import opened DurableRuns
  import opened Keys
  import Server

  ghost predicate Reached(w: World, s: System) {
    PlainId(w.owner) && exists events :: Run(w, START, events, s)
  }

  lemma ReachedInv(w: World, s: System)
    requires Reached(w, s)
    ensures Inv(w, s)
  {
    hide Inv;
    var events :| Run(w, START, events, s);
    StartInv(w);
    RunKeepsInv(w, START, events, s);
  }

  // ---- runs ----

  lemma NoEvents(w: World, s: System)
    ensures Run(w, s, [], s)
  {
  }

  lemma {:induction false} RunPush(w: World, s: System, events: seq<Event>, r: System, e: Event)
    requires Run(w, s, events, r) && Enabled(w, r, e)
    ensures Run(w, s, events + [e], Step(w, r, e))
    decreases |events|
  {
    hide Step, Enabled;
    if events == [] {
      assert [] + [e] == [e] && [e][1..] == [];
      assert Run(w, Step(w, r, e), [], Step(w, r, e));
    } else {
      RunPush(w, Step(w, s, events[0]), events[1..], r, e);
      assert (events + [e])[1..] == events[1..] + [e];
    }
  }

  lemma {:induction false} RunAppend(w: World, s: System, a: seq<Event>, m: System, b: seq<Event>, r: System)
    requires Run(w, s, a, m) && Run(w, m, b, r)
    ensures Run(w, s, a + b, r)
    decreases |a|
  {
    hide Step, Enabled;
    if a == [] {
      assert a + b == b;
    } else {
      RunAppend(w, Step(w, s, a[0]), a[1..], m, b, r);
      assert (a + b)[1..] == a[1..] + b;
    }
  }

  lemma ReachedOn(w: World, s: System, events: seq<Event>, r: System)
    requires Reached(w, s) && Run(w, s, events, r)
    ensures Reached(w, r)
  {
    hide Run, PlainId;
    var before :| Run(w, START, before, s);
    RunAppend(w, START, before, s, events, r);
  }

  lemma ReachedStep(w: World, s: System, e: Event)
    requires Reached(w, s) && Enabled(w, s, e)
    ensures Reached(w, Step(w, s, e)) && Run(w, s, [e], Step(w, s, e))
  {
    hide Reached, Step, Enabled, Run;
    NoEvents(w, s);
    RunPush(w, s, [], s, e);
    assert [] + [e] == [e];
    ReachedOn(w, s, [e], Step(w, s, e));
  }

  // ---- durability ----

  /** The user's recording has the chunk's row, and its bytes under the key the row names. */
  predicate Committed(w: World, s: System, id: ChunkId)
    requires id in s.log.finalized
  {
    var c := s.log.finalized[id];
    && Owned(w, s.server, id.session)
    && Server.RowOf(s.server.rows, id.session, id.channel, id.sequence) == Some(Server.Created(Dto(w, c)))
    && Server.Fetch(s.server, Dto(w, c).storageKey) == Some(c.data)
  }

  /**
   * After any run, with any failures, lost replies, retries, strangers and crashes, a chunk whose
   * `putChunk` completed is still in the local store or committed with the same bytes, unless
   * its session was discarded, its recording deleted, or its id is also that of a confirmed chunk.
   */
  lemma StoredIsNeverLost(w: World, s: System, id: ChunkId)
    requires Reached(w, s) && id in s.log.persisted
    ensures id in s.log.finalized
    ensures (id in s.chunks && s.chunks[id] == s.log.finalized[id]) || Committed(w, s, id) ||
      id.session in s.discarded || id.session in s.removed || Taken(s.log, id)
  {
    hide PlainId, Server.Consistent, DistinctIds, Taken, Server.Owns, SanitizeKey, BuildChunkKey, OwnRow;
    hide Server.RowOf, Counted, GoodPages;
    ReachedInv(w, s);
    assert GoodChunk(id, s.log.finalized[id]);
    if id in s.log.delivered {
      CommitFollowsPut(w, s.log, id);
      TicketIsKey(w, id);
    }
  }

  lemma CommitFollowsPut(w: World, l: Log, id: ChunkId)
    requires GoodLog(w, l) && id in l.finalized && CommitOf(w, l.finalized[id]) in l.acked
    ensures id in l.persisted && PutOf(w, l.finalized[id]) in l.acked
  {
    hide TicketKey, PlainSlot, Dto, DistinctIds;
    var q := CommitOf(w, l.finalized[id]);
    assert Faithful(w, l, q);
    var other :| other in l.persisted && other in l.finalized &&
      q == CommitOf(w, l.finalized[other]) && PutOf(w, l.finalized[other]) in l.acked;
    CommitDetermines(w, l.finalized[id], l.finalized[other]);
    assert GoodChunk(id, l.finalized[id]) && GoodChunk(other, l.finalized[other]);
  }

  /** The row says of the chunk what the recorder finalised: its place, its times, its size and its digest. */
  predicate Describes(w: World, row: Server.ChunkRow, c: StoredChunk) {
    && row.recordingId == c.meta.sessionId && row.channel == c.meta.channel && row.sequence == c.meta.sequence
    && row.uploaded && row.startOffsetMs == c.meta.startOffsetMs && row.durationMs == c.meta.durationMs
    && row.byteLength == |c.data| && row.mimeType == c.meta.mimeType && row.checksum == Some(w.cfg.sha(c.data))
  }

  lemma RowDescribes(w: World, l: Log, id: ChunkId)
    requires GoodLog(w, l) && id in l.finalized
    ensures Describes(w, Server.Created(Dto(w, l.finalized[id])), l.finalized[id])
  {
    hide TicketKey, PlainSlot, DistinctIds, Faithful, CommitOf;
    assert GoodChunk(id, l.finalized[id]);
  }

  /**
   * At-least-once delivery has an exactly-once effect: however uploads and commits are repeated
   * and interleaved, each chunk has at most one row; a row of the user's is the one a single
   * commit of a stored chunk creates, and describes that chunk; and every commit ever accepted has
   * its row until the recording is deleted.
   */
  lemma EffectIsExactlyOnce(w: World, s: System, id: ChunkId)
    requires Reached(w, s)
    ensures Server.UniqueRows(s.server.rows)
    ensures Owned(w, s.server, id.session) && Row(s.server, id).Some? ==>
      id in s.log.persisted && id in s.log.finalized &&
        Row(s.server, id) == Some(Server.Created(Dto(w, s.log.finalized[id])))
    ensures id in s.log.finalized && CommitOf(w, s.log.finalized[id]) in s.log.acked && id.session !in s.removed ==>
      Committed(w, s, id)
    ensures Owned(w, s.server, id.session) && Row(s.server, id).Some? ==>
      Describes(w, Row(s.server, id).value, s.log.finalized[id])
  {
    hide PlainId, DistinctIds, SanitizeKey, BuildChunkKey, Server.RowOf, Counted, GoodPages, Server.SumsUp;
    ReachedInv(w, s);
    assert OwnRow(w, s.server, s.log, id);
    if id in s.log.finalized {
      RowDescribes(w, s.log, id);
    }
    hide Describes;
    if id in s.log.finalized && CommitOf(w, s.log.finalized[id]) in s.log.acked {
      assert GoodChunk(id, s.log.finalized[id]);
      CommitFollowsPut(w, s.log, id);
      TicketIsKey(w, id);
    }
  }
}
