/**
 * With the network answering, a queue empties into committed rows, whatever await it is at: no
 * step of the way is refused.
 */
module Convergence {
  import opened Wrappers
  import opened Common
  import opened RecoveryStore
  import opened Pipeline
  import opened Durability
  import opened DurableRuns
  import opened Guarantees
  import opened Keys
  import Delivery
  import Queue = UploadQueue
  import Server

  /** The loop of the queue is at an attempt to upload `c`, its head. */
  ghost predicate AttemptAt(s: System, session: string, c: StoredChunk, at: Queue.Await) {
    && session in s.pages
    && var q := s.pages[session].queue;
       q.running && |q.loops| == 1 && q.loops[0].at == at && q.loops[0].chunk == c.meta && q.tasks != [] && Head(q) == c
  }

  /** What an upload leaves alone: everything but its own queue, the server's tables and the requests. */
  ghost predicate Kept(w: World, s: System, r: System, session: string) {
    && session in s.pages && session in r.pages && r.pages == s.pages[session := r.pages[session]]
    && r.pages[session].channels == s.pages[session].channels && r.pages[session].persists == s.pages[session].persists
    && r.chunks == s.chunks && r.manifests == s.manifests && r.failed == s.failed
    && r.started == s.started && r.closed == s.closed && r.discarded == s.discarded && r.removed == s.removed
    && r.log.finalized == s.log.finalized && r.log.persisted == s.log.persisted
    && r.server.recordings.Keys == s.server.recordings.Keys
    && (forall x: string :: Owned(w, r.server, x) <==> Owned(w, s.server, x))
  }

  ghost predicate SameQueue(s: System, r: System, session: string) {
    && session in s.pages && session in r.pages && r.pages[session].queue.tasks == s.pages[session].queue.tasks
    && r.log.delivered == s.log.delivered
  }

  lemma KeptTwice(w: World, s: System, q: System, r: System, session: string)
    requires Kept(w, s, q, session) && Kept(w, q, r, session)
    ensures Kept(w, s, r, session)
  {
    hide Owned;
  }

  /** A queue event changes nothing but its queue and the log. */
  lemma OnQueueKeeps(w: World, s: System, session: string, e: Queue.QueueEvent)
    requires Enabled(w, s, OnQueue(session, e))
    ensures var r := Step(w, s, OnQueue(session, e)); var q := s.pages[session].queue;
      && Kept(w, s, r, session) && r.server == s.server
      && r.pages[session].queue == Queue.Step(q, e) && r.log.sent == s.log.sent + Sends(w, q, e)
      && r.log.delivered == s.log.delivered + if e.CommitOk? && q.tasks != [] then {IdOf(Head(q).meta)} else {}
  {
    hide Queue.Step, Queue.Enabled, Answered, Sends, Owned;
  }

  lemma TargetStep(w: World, s: System, session: string, c: StoredChunk)
    requires AttemptAt(s, session, c, Queue.Requesting) && PlainId(w.owner) && PlainSlot(IdOf(c.meta))
    ensures var e := OnQueue(session, Queue.TargetOk(0, TicketKey(w, IdOf(c.meta))));
      Enabled(w, s, e) && var r := Step(w, s, e);
        && AttemptAt(r, session, c, Queue.Putting(TicketKey(w, IdOf(c.meta)))) && PutOf(w, c) in r.log.sent
        && Kept(w, s, r, session) && SameQueue(s, r, session)
  {
    hide PlainId, PlainSlot, TicketKey, Owned, Kept;
    TicketIsKey(w, IdOf(c.meta));
    var e := Queue.TargetOk(0, TicketKey(w, IdOf(c.meta)));
    assert Enabled(w, s, OnQueue(session, e));
    hide Enabled, Step;
    OnQueueKeeps(w, s, session, e);
  }

  lemma UploadStep(w: World, s: System, session: string, c: StoredChunk, key: string)
    requires AttemptAt(s, session, c, Queue.Putting(key)) && PutOf(w, c) in s.log.acked
    ensures var e := OnQueue(session, Queue.UploadOk(0));
      Enabled(w, s, e) && var r := Step(w, s, e);
        && AttemptAt(r, session, c, Queue.Committing(key)) && CommitOf(w, c) in r.log.sent && r.server == s.server
        && Kept(w, s, r, session) && SameQueue(s, r, session)
  {
    hide TicketKey, Owned, Kept;
    assert Enabled(w, s, OnQueue(session, Queue.UploadOk(0)));
    hide Enabled, Step;
    OnQueueKeeps(w, s, session, Queue.UploadOk(0));
  }

  lemma CommitStep(w: World, s: System, session: string, c: StoredChunk, key: string)
    requires AttemptAt(s, session, c, Queue.Committing(key)) && CommitOf(w, c) in s.log.acked
    ensures var e := OnQueue(session, Queue.CommitOk(0));
      Enabled(w, s, e) && var r := Step(w, s, e);
        && Kept(w, s, r, session) && r.log.delivered == s.log.delivered + {IdOf(c.meta)}
        && AfterUpload(s, r, session, c)
  {
    hide TicketKey, Owned, Kept;
    assert Enabled(w, s, OnQueue(session, Queue.CommitOk(0)));
    hide Enabled, Step;
    OnQueueKeeps(w, s, session, Queue.CommitOk(0));
  }

  /** The head is gone from the queue, and its local copy is being deleted. */
  ghost predicate AfterUpload(s: System, r: System, session: string, c: StoredChunk) {
    && session in s.pages && session in r.pages && s.pages[session].queue.tasks != []
    && r.pages[session].queue.tasks == s.pages[session].queue.tasks[1..]
    && r.pages[session].queue.loops == [Queue.Loop(c.meta, Queue.Deleting(c.meta.id))]
  }

  /** A ticket is issued to the recording's owner only, and with the key the queue goes on with. */
  lemma TargetAnswers(w: World, server: Server.ServerState, ownerId: string, c: StoredChunk)
    requires PlainId(w.owner) && PlainSlot(IdOf(c.meta))
    ensures var m := c.meta; var reply := Server.RequestUploadTarget(server, ownerId, m.sessionId, m.channel,
      m.sequence);
      && (reply.Ok? <==> Server.Owns(server, ownerId, m.sessionId).None? &&
                         IssuedKey(ownerId, m.sessionId, m.channel, m.sequence).Ok?)
      && (ownerId == w.owner && Owned(w, server, m.sessionId) ==> reply == Ok(TicketKey(w, IdOf(m))))
  {
    hide PlainId, SanitizeKey, BuildChunkKey;
    TicketIsKey(w, IdOf(c.meta));
  }

  /** The server takes the upload: it is in the user's namespace and of an accepted size. */
  lemma PutStep(w: World, s: System, session: string, c: StoredChunk, at: Queue.Await)
    requires AttemptAt(s, session, c, at) && PutOf(w, c) in s.log.sent
    requires PlainId(w.owner) && PlainSlot(IdOf(c.meta)) && 1 <= |c.data| <= Server.MAX_CHUNK_BYTES
    ensures var e := Delivered(PutOf(w, c));
      Enabled(w, s, e) && var r := Step(w, s, e);
        && AttemptAt(r, session, c, at) && PutOf(w, c) in r.log.acked
        && Kept(w, s, r, session) && SameQueue(s, r, session)
  {
    hide PlainId, BuildChunkKey, SanitizeKey, InNamespace;
    var id := IdOf(c.meta);
    PlainTicket(w.owner, id.session, id.channel, id.sequence);
    assert s.pages == s.pages[session := s.pages[session]];
  }

  /** The server takes the commit: the recording is the user's and the checksum is that of the stored bytes. */
  lemma CommitAccepted(w: World, server: Server.ServerState, c: StoredChunk)
    requires PlainId(w.owner) && PlainSlot(IdOf(c.meta))
    requires Owned(w, server, c.meta.sessionId) && HasBytes(w, server, IdOf(c.meta), c)
    ensures Server.Handle(w.cfg, server, CommitOf(w, c)).Ok?
  {
    hide PlainId, BuildChunkKey, SanitizeKey, Server.Upsert, Server.Summary, Server.OfRecording, Server.Owns;
    TicketIsKey(w, IdOf(c.meta));
  }

  lemma CommitDelivered(w: World, s: System, session: string, c: StoredChunk, at: Queue.Await)
    requires AttemptAt(s, session, c, at) && CommitOf(w, c) in s.log.sent
    requires Server.Handle(w.cfg, s.server, CommitOf(w, c)).Ok?
    ensures var e := Delivered(CommitOf(w, c));
      Enabled(w, s, e) && var r := Step(w, s, e);
        && AttemptAt(r, session, c, at) && CommitOf(w, c) in r.log.acked
        && Kept(w, s, r, session) && SameQueue(s, r, session)
  {
    hide Server.Commit, Dto, Owned;
    CommitKeepsKeys(w, s.server, Dto(w, c));
    assert s.pages == s.pages[session := s.pages[session]];
  }

  lemma CommitKeepsKeys(w: World, a: Server.ServerState, d: Server.CommitDto)
    requires Server.Commit(w.cfg, a, w.owner, d).Ok?
    ensures var b := Server.Commit(w.cfg, a, w.owner, d).value;
      b.recordings.Keys == a.recordings.Keys && forall x: string :: Owned(w, b, x) <==> Owned(w, a, x)
  {
    hide Server.Upsert, Server.Summary, Server.OfRecording, Server.ChecksumHolds, Owned;
    Delivery.CommitKeepsOwners(w, a, w.owner, d);
  }

  // ---- one chunk, from any await of its attempt ----

  /** What is known of a loop in the middle of an attempt. */
  lemma AttemptFacts(w: World, s: System, session: string)
    requires Reached(w, s) && session in s.pages && s.pages[session].queue.tasks != []
    requires s.pages[session].queue.loops != [] && Queue.Attempting(s.pages[session].queue.loops[0].at)
    ensures PlainId(w.owner)
    ensures var q := s.pages[session].queue; var c := Head(q); var id := IdOf(c.meta); var at := q.loops[0].at;
      && AttemptAt(s, session, c, at) && PlainSlot(id) && 1 <= |c.data| && id.session == session == c.meta.sessionId
      && id in s.log.finalized && s.log.finalized[id] == c
      && (at.Putting? ==> at.key == TicketKey(w, id) && PutOf(w, c) in s.log.sent)
      && (at.Committing? ==> at.key == TicketKey(w, id) && CommitOf(w, c) in s.log.sent && HasBytes(w, s.server, id, c))
  {
    hide Reached, GoodStore, Counted, GoodLog, PlainId, PlainSlot, GoodChannel, GoodPersist, GoodTask, TicketKey, Dto;
    hide Server.Consistent, OwnRow, HasRow, HasBytes, Queue.Delay, Queue.Backoff, Queue.FairOutcome;
    ReachedInv(w, s);
    assert GoodPage(w, session, s.pages[session], s.log);
    HeadIsGood(w, session, s.pages[session].queue, s.log);
  }

  /** From any await of the attempt the head can be uploaded and committed. */
  lemma HeadCanBeDelivered(w: World, s: System, session: string) returns (events: seq<Event>, r: System)
    requires Reached(w, s) && session in s.pages && s.pages[session].queue.tasks != []
    requires s.pages[session].queue.loops != [] && Queue.Attempting(s.pages[session].queue.loops[0].at)
    requires Owned(w, s.server, session) && |s.pages[session].queue.tasks[0].blob| <= Server.MAX_CHUNK_BYTES
    ensures Run(w, s, events, r) && Reached(w, r) && Kept(w, s, r, session)
    ensures forall e | e in events :: LeavesChunks(e)
    ensures var c := Head(s.pages[session].queue);
      r.log.delivered == s.log.delivered + {IdOf(c.meta)} && AfterUpload(s, r, session, c)
  {
    hide Reached, Step, Enabled, Run, PutOf, CommitOf, TicketKey, PlainId, PlainSlot, IdOf, Kept, AttemptAt, Owned;
    hide HasBytes;
    AttemptFacts(w, s, session);
    var q := s.pages[session].queue;
    var c := Head(q);
    var key := TicketKey(w, IdOf(c.meta));
    if q.loops[0].at.Requesting? {
      TargetStep(w, s, session, c);
      var e := OnQueue(session, Queue.TargetOk(0, key));
      var t := Step(w, s, e);
      ReachedStep(w, s, e);
      KeptOwned(w, s, t, session);
      var more;
      more, r := PutCanBeDelivered(w, t, session, c);
      RunAppend(w, s, [e], t, more, r);
      KeptTwice(w, s, t, r, session);
      events := [e] + more;
    } else if q.loops[0].at.Putting? {
      events, r := PutCanBeDelivered(w, s, session, c);
    } else {
      events, r := CommitCanBeDelivered(w, s, session, c);
    }
  }

  lemma KeptOwned(w: World, s: System, r: System, session: string)
    requires Kept(w, s, r, session)
    ensures Owned(w, r.server, session) <==> Owned(w, s.server, session)
  {
    hide Owned;
  }

  lemma PutCanBeDelivered(w: World, s: System, session: string, c: StoredChunk) returns (events: seq<Event>, r: System)
    requires Reached(w, s) && AttemptAt(s, session, c, Queue.Putting(TicketKey(w, IdOf(c.meta)))) &&
      PutOf(w, c) in s.log.sent
    requires Owned(w, s.server, session) && |c.data| <= Server.MAX_CHUNK_BYTES
    ensures Run(w, s, events, r) && Reached(w, r) && Kept(w, s, r, session)
    ensures forall e | e in events :: LeavesChunks(e)
    ensures r.log.delivered == s.log.delivered + {IdOf(c.meta)} && AfterUpload(s, r, session, c)
  {
    hide Reached, Step, Enabled, Run, PutOf, CommitOf, TicketKey, PlainId, PlainSlot, IdOf, Kept, Owned, HasBytes;
    AttemptFacts(w, s, session);
    var key := TicketKey(w, IdOf(c.meta));
    PutStep(w, s, session, c, Queue.Putting(key));
    var e := Delivered(PutOf(w, c));
    var t := Step(w, s, e);
    ReachedStep(w, s, e);
    KeptOwned(w, s, t, session);
    UploadStep(w, t, session, c, key);
    var f := OnQueue(session, Queue.UploadOk(0));
    var u := Step(w, t, f);
    ReachedStep(w, t, f);
    KeptOwned(w, t, u, session);
    KeptTwice(w, s, t, u, session);
    var more;
    more, r := CommitCanBeDelivered(w, u, session, c);
    KeptTwice(w, s, u, r, session);
    RunAppend(w, t, [f], u, more, r);
    RunAppend(w, s, [e], t, [f] + more, r);
    events := [e] + ([f] + more);
  }

  lemma CommitCanBeDelivered(w: World, s: System, session: string, c: StoredChunk)
    returns (events: seq<Event>, r: System)
    requires Reached(w, s) && AttemptAt(s, session, c, Queue.Committing(TicketKey(w, IdOf(c.meta))))
    requires Owned(w, s.server, session)
    ensures Run(w, s, events, r) && Reached(w, r) && Kept(w, s, r, session)
    ensures forall e | e in events :: LeavesChunks(e)
    ensures r.log.delivered == s.log.delivered + {IdOf(c.meta)} && AfterUpload(s, r, session, c)
  {
    hide Reached, Step, Enabled, Run, PutOf, CommitOf, TicketKey, PlainId, PlainSlot, IdOf, Kept, Owned, HasBytes;
    hide Server.Handle;
    AttemptFacts(w, s, session);
    var key := TicketKey(w, IdOf(c.meta));
    CommitAccepted(w, s.server, c);
    CommitDelivered(w, s, session, c, Queue.Committing(key));
    var e := Delivered(CommitOf(w, c));
    var t := Step(w, s, e);
    ReachedStep(w, s, e);
    CommitStep(w, t, session, c, key);
    var f := OnQueue(session, Queue.CommitOk(0));
    r := Step(w, t, f);
    ReachedStep(w, t, f);
    KeptTwice(w, s, t, r, session);
    RunAppend(w, s, [e], t, [f], r);
    events := [e] + [f];
  }

  // ---- the whole queue ----

  /** A wait is over: the loop is at the head again, or has ended. */
  lemma SettledStep(w: World, s: System, session: string)
    requires Reached(w, s) && session in s.pages
    requires s.pages[session].queue.loops != [] && !Queue.Attempting(s.pages[session].queue.loops[0].at)
    ensures var e := OnQueue(session, Queue.Settled(0));
      Enabled(w, s, e) && var r := Step(w, s, e);
        && Kept(w, s, r, session) && SameQueue(s, r, session)
        && (r.pages[session].queue.tasks != [] ==>
           r.pages[session].queue.loops != [] && r.pages[session].queue.loops[0].at.Requesting?)
  {
    hide Reached, Owned, Queue.Inv;
  }

  lemma TasksHaveLoop(w: World, s: System, session: string)
    requires Reached(w, s) && session in s.pages && s.pages[session].queue.tasks != []
    ensures s.pages[session].queue.loops != []
  {
    hide Reached, GoodStore, GoodServer, Counted, GoodLog, PlainId, GoodChannel, GoodPersist, GoodTask, GoodLoop;
    hide Queue.Delay, Queue.Backoff, Queue.FairOutcome;
    ReachedInv(w, s);
    assert GoodPage(w, session, s.pages[session], s.log);
  }

  ghost predicate Accepted(tasks: seq<Queue.Task>) {
    forall k | 0 <= k < |tasks| :: |tasks[k].blob| <= Server.MAX_CHUNK_BYTES
  }

  /** Every task's chunk is confirmed. */
  ghost predicate AllDelivered(tasks: seq<Queue.Task>, l: Log) {
    forall k | 0 <= k < |tasks| :: IdOf(tasks[k].chunk) in l.delivered
  }

  /** From any reached state and any await the queue can be emptied, every chunk in it confirmed. */
  lemma {:induction false} QueueCanBeEmptied(w: World, s: System, session: string)
    returns (events: seq<Event>, r: System)
    requires Reached(w, s) && session in s.pages && Owned(w, s.server, session) &&
      Accepted(s.pages[session].queue.tasks)
    ensures Run(w, s, events, r) && Reached(w, r) && Kept(w, s, r, session)
    ensures r.pages[session].queue.tasks == [] && s.log.delivered <= r.log.delivered
    ensures AllDelivered(s.pages[session].queue.tasks, r.log)
    decreases |s.pages[session].queue.tasks|,
      if s.pages[session].queue.loops != [] && Queue.Attempting(s.pages[session].queue.loops[0].at) then 0 else 1
  {
    hide Reached, Step, Enabled, Run, IdOf, Owned, AttemptAt;
    var q := s.pages[session].queue;
    if q.tasks == [] {
      NoEvents(w, s);
      events, r := [], s;
      assert s.pages == s.pages[session := s.pages[session]];
    } else {
      TasksHaveLoop(w, s, session);
      if Queue.Attempting(q.loops[0].at) {
        var first, t := HeadCanBeDelivered(w, s, session);
        var more;
        assert q.tasks == [q.tasks[0]] + q.tasks[1..];
        more, r := QueueCanBeEmptied(w, t, session);
        RunAppend(w, s, first, t, more, r);
        KeptTwice(w, s, t, r, session);
        events := first + more;
        forall k | 0 <= k < |q.tasks| ensures IdOf(q.tasks[k].chunk) in r.log.delivered {
          if k > 0 {
            assert q.tasks[1..][k - 1] == q.tasks[k];
          }
        }
      } else {
        SettledStep(w, s, session);
        var e := OnQueue(session, Queue.Settled(0));
        var t := Step(w, s, e);
        ReachedStep(w, s, e);
        var more;
        more, r := QueueCanBeEmptied(w, t, session);
        RunAppend(w, s, [e], t, more, r);
        KeptTwice(w, s, t, r, session);
        events := [e] + more;
      }
    }
  }

  /** A confirmed chunk is a committed row with its bytes. */
  lemma DeliveredIsCommitted(w: World, r: System, id: ChunkId)
    requires Reached(w, r) && id in r.log.delivered && id.session !in r.removed
    ensures id in r.log.finalized && Committed(w, r, id)
  {
    hide Reached, GoodStore, GoodServer, GoodPages, Counted, GoodChunk, Faithful, DistinctIds, CommitOf, Committed;
    hide Row, Owned, Server.UniqueRows;
    ReachedInv(w, r);
    EffectIsExactlyOnce(w, r, id);
  }

  /**
   * Convergence: with the network answering, every chunk in a queue becomes a committed row with
   * its bytes, from whatever state the queue is in.
   */
  lemma QueueConverges(w: World, s: System, session: string) returns (events: seq<Event>, r: System)
    requires Reached(w, s) && session in s.pages && Owned(w, s.server, session) && session !in s.removed
    requires Accepted(s.pages[session].queue.tasks)
    ensures Run(w, s, events, r) && Reached(w, r) && session in r.pages && r.pages[session].queue.tasks == []
    ensures forall k | 0 <= k < |s.pages[session].queue.tasks| ::
      var id := IdOf(s.pages[session].queue.tasks[k].chunk); id in r.log.finalized && Committed(w, r, id)
  {
    hide Reached, Run, IdOf, Owned, Committed;
    events, r := QueueCanBeEmptied(w, s, session);
    var tasks := s.pages[session].queue.tasks;
    forall k | 0 <= k < |tasks|
      ensures var id := IdOf(tasks[k].chunk); id in r.log.finalized && Committed(w, r, id)
    {
      TaskSession(w, s, session, k);
      DeliveredIsCommitted(w, r, IdOf(tasks[k].chunk));
    }
  }

  lemma TaskSession(w: World, s: System, session: string, k: nat)
    requires Reached(w, s) && session in s.pages && k < |s.pages[session].queue.tasks|
    ensures IdOf(s.pages[session].queue.tasks[k].chunk).session == session
  {
    hide Reached, GoodStore, GoodServer, Counted, GoodLog, PlainId, GoodChannel, GoodPersist, GoodLoop, Queue.Inv;
    ReachedInv(w, s);
    assert GoodPage(w, session, s.pages[session], s.log);
    assert GoodTask(session, s.pages[session].queue.tasks[k], s.log);
  }
}
