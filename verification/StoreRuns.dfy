/** The recovery store itself follows the pipeline through every run, and so recovery finds what survives. */
module StoreRuns {
  import opened Wrappers
  import opened Common
  import opened JsMap
  import opened RecoveryStore
  import opened Pipeline
  import opened Durability
  import opened DurableRuns
  import opened Guarantees
  import opened Crashes
  import opened Keys
  import Capture
  import Manager = RecoveryManager
  import Queue = UploadQueue
  import Server

  /** The two maps of the recovery store. */
  datatype Store = Store(manifests: JsMap<string, Manifest>, chunks: JsMap<string, StoredChunk>)

  /** The store holds the pipeline's manifests, and its chunks under their string keys. */
  ghost predicate StoreIs(s: System, store: Store) {
    store.manifests.Valid() && store.manifests.at == s.manifests && Refines(store.chunks, s.chunks)
  }

  predicate Readable(chunks: JsMap<string, StoredChunk>) {
    forall k | k in chunks.keys :: k in chunks.at
  }

  /** The chunk `deleteChunk` finds: the first in the store's own order. */
  function Found(chunks: JsMap<string, StoredChunk>, chunkId: string): Option<ChunkId>
    requires Readable(chunks)
  {
    match FirstWithId(chunks, chunks.keys, chunkId)
    case None => None
    case Some(key) => Some(IdOf(chunks.at[key].meta))
  }

  /** The event reclaims what the store finds. */
  ghost predicate Agrees(w: World, s: System, store: Store, e: Event)
    requires Enabled(w, s, e) && Readable(store.chunks)
  {
    e.Reclaimed? ==> e.gone == Found(store.chunks, s.pages[e.session].queue.loops[0].at.chunkId)
  }

  /** What the event does to the store's chunks, operation by operation. */
  function ChunksAfter(w: World, s: System, chunks: JsMap<string, StoredChunk>, e: Event): JsMap<string, StoredChunk>
    requires Enabled(w, s, e) && Readable(chunks)
  {
    match e
    case ChunkPut(session, i) =>
      var c := PersistAt(s, session, i).chunk;
      chunks.Put(ChunkKey(c.meta), c)
    case Reclaimed(session, _) => DeletedById(chunks, s.pages[session].queue.loops[0].at.chunkId)
    case Discarded(session) => RemoveAll(chunks, SessionKeys(chunks.keys, session))
    case _ => chunks
  }

  /** What the event does to the store's manifests: a put goes under the manifest's own session. */
  function ManifestsAfter(w: World, s: System, manifests: JsMap<string, Manifest>, e: Event): JsMap<string, Manifest>
    requires Enabled(w, s, e)
  {
    match e
    case Begin(_, _, manifest, _) => manifests.Put(manifest.sessionId, manifest)
    case ManifestWritten(session, i, now) =>
      var copy := PersistAt(s, session, i).phase.copy;
      if copy.Some? then manifests.Put(copy.value.sessionId, copy.value.(updatedAt := now)) else manifests
    case MarkedClosed(session, now) =>
      if session in manifests.at then
        manifests.Put(session, manifests.at[session].(closedAt := Some(now), updatedAt := now))
      else manifests
    case Discarded(session) => manifests.Remove(session)
    case _ => manifests
  }

  function StoreAfter(w: World, s: System, store: Store, e: Event): Store
    requires Enabled(w, s, e) && Readable(store.chunks)
  {
    Store(ManifestsAfter(w, s, store.manifests, e), ChunksAfter(w, s, store.chunks, e))
  }

  lemma PlainSlotColonFree(id: ChunkId)
    requires PlainSlot(id)
    ensures ColonFree(id)
  {
    hide PlainId;
    PlainIsColonFree(id.session);
    PlainIsColonFree(id.channel);
  }

  lemma RefinedKeys(chunks: JsMap<string, StoredChunk>, view: map<ChunkId, StoredChunk>)
    requires Refines(chunks, view)
    ensures Readable(chunks)
  {
  }

  lemma FinalizedColonFree(w: World, s: System, session: string, i: nat)
    requires Inv(w, s) && HasPersist(s, session, i)
    ensures ColonFree(IdOf(PersistAt(s, session, i).chunk.meta))
  {
    hide GoodServer, GoodStore, Counted, PlainId, Faithful, CommitOf, GoodChannel, GoodQueue, DistinctIds, PlainSlot;
    PersistOf(w, s, session, i);
    var c := PersistAt(s, session, i).chunk;
    assert GoodChunk(IdOf(c.meta), c);
    PlainSlotColonFree(IdOf(c.meta));
  }

  /** What the store finds is a chunk the pipeline allows to be reclaimed. */
  lemma FoundMatches(chunks: JsMap<string, StoredChunk>, view: map<ChunkId, StoredChunk>, chunkId: string)
    requires Refines(chunks, view)
    ensures Readable(chunks) && Matches(view, chunkId, Found(chunks, chunkId))
    ensures var found := Found(chunks, chunkId);
      Refines(DeletedById(chunks, chunkId), if found.Some? then view - {found.value} else view)
  {
    hide Refines, DeletedById, FirstWithId;
    RefinedKeys(chunks, view);
    DeleteFirstRefines(chunks, view, chunkId);
  }

  lemma ChunksSimulate(w: World, s: System, store: Store, e: Event)
    requires Inv(w, s) && Enabled(w, s, e) && Refines(store.chunks, s.chunks)
    ensures Readable(store.chunks)
    ensures Agrees(w, s, store, e) ==> Refines(ChunksAfter(w, s, store.chunks, e), Step(w, s, e).chunks)
  {
    var chunks := store.chunks;
    hide Inv, PlainId, Refines, DeletedById, RemoveAll, SessionKeys, ChunkKey, IdOf, AfterQueue, AfterChannel;
    hide HandedOver, Server.Handle, Server.Removed, Matches, Found;
    RefinedKeys(chunks, s.chunks);
    match e
    case ChunkPut(session, i) =>
      FinalizedColonFree(w, s, session, i);
      PutRefines(chunks, s.chunks, PersistAt(s, session, i).chunk);
    case Reclaimed(session, _) => FoundMatches(chunks, s.chunks, s.pages[session].queue.loops[0].at.chunkId);
    case Discarded(session) =>
      PlainIsColonFree(session);
      DeleteSessionRefines(chunks, s.chunks, session);
    case OnChannel(session, channel, event) => ChannelKeepsStore(s, session, channel, event);
    case OnQueue(session, queued) => QueueKeepsStore(w, s, session, queued);
    case _ =>
  }

  lemma ChannelKeepsStore(s: System, session: string, channel: string, e: Capture.ChannelEvent)
    requires session in s.pages && channel in s.pages[session].channels
    requires Capture.Enabled(s.pages[session].channels[channel], e)
    ensures var r := AfterChannel(s, session, channel, e); r.chunks == s.chunks && r.manifests == s.manifests
  {
    hide Emitted, Capture.Step, Capture.Enabled;
  }

  lemma QueueKeepsStore(w: World, s: System, session: string, e: Queue.QueueEvent)
    requires session in s.pages && Queue.Enabled(s.pages[session].queue, e)
    ensures var r := AfterQueue(w, s, session, e); r.chunks == s.chunks && r.manifests == s.manifests
  {
    hide Queue.Step, Queue.Enabled, Sends;
  }

  lemma WrittenSimulates(w: World, s: System, manifests: JsMap<string, Manifest>, e: Event)
    requires e.ManifestWritten?
    requires GoodManifests(s) && Enabled(w, s, e) && manifests.Valid() && manifests.at == s.manifests
    ensures var r := ManifestsAfter(w, s, manifests, e); r.Valid() && r.at == Step(w, s, e).manifests
  {
    hide PlainId, HandedOver, PlainSlot, IdOf;
    CopyAt(e.session, s.pages[e.session].persists, e.i, s.closed);
  }

  /** Events of the page and the network leave the manifests alone. */
  lemma OthersSimulate(w: World, s: System, manifests: JsMap<string, Manifest>, e: Event)
    requires e.OnChannel? || e.OnQueue? || e.ChunkPut? || e.ManifestRead? || e.PersistFailed? || e.Reclaimed? ||
      e.Delivered? || e.Requested? || e.RecordingRemoved? || e.Crashed?
    requires Enabled(w, s, e)
    ensures ManifestsAfter(w, s, manifests, e) == manifests && Step(w, s, e).manifests == s.manifests
  {
    hide PlainId, AfterQueue, AfterChannel, Server.Handle, Server.Removed, Server.Owns, Matches, WithoutPersist;
    hide Capture.Enabled, Queue.Enabled, Answered, FreshChunk, IdOf;
    if e.OnChannel? {
      ChannelKeepsStore(s, e.session, e.channel, e.event);
    } else if e.OnQueue? {
      QueueKeepsStore(w, s, e.session, e.queued);
    }
  }

  lemma ManifestsSimulate(w: World, s: System, manifests: JsMap<string, Manifest>, e: Event)
    requires GoodManifests(s) && Enabled(w, s, e) && manifests.Valid() && manifests.at == s.manifests
    ensures var r := ManifestsAfter(w, s, manifests, e); r.Valid() && r.at == Step(w, s, e).manifests
  {
    hide PlainId, Others, FreshChunk, HandedOver, GoodManifests, Capture.Fresh;
    match e
    case Begin(_, _, _, _) =>
    case MarkedClosed(_, _) =>
    case Discarded(session) => RemoveValid(manifests, session);
    case ManifestWritten(_, _, _) => WrittenSimulates(w, s, manifests, e);
    case _ => OthersSimulate(w, s, manifests, e);
  }

  // ---- runs of the store ----

  /** The events, with the store making its own choices, lead the store to `store'`. */
  ghost predicate StoreRun(w: World, s: System, store: Store, events: seq<Event>, r: System, store': Store)
    decreases |events|
  {
    if events == [] then r == s && store' == store
    else
      && Enabled(w, s, events[0]) && Readable(store.chunks) && Agrees(w, s, store, events[0])
      && StoreRun(w, Step(w, s, events[0]), StoreAfter(w, s, store, events[0]), events[1..], r, store')
  }

  /** Every run of the store refines the run of the pipeline. */
  lemma {:induction false} StoreRunRefines(w: World, s: System, store: Store, events: seq<Event>, r: System,
      store': Store)
    requires Inv(w, s) && GoodManifests(s) && StoreIs(s, store)
    requires StoreRun(w, s, store, events, r, store')
    ensures Run(w, s, events, r) && StoreIs(r, store')
    decreases |events|
  {
    hide Inv, GoodManifests, Step, Enabled, Refines, ManifestsAfter, ChunksAfter, Agrees;
    if events != [] {
      ChunksSimulate(w, s, store, events[0]);
      ManifestsSimulate(w, s, store.manifests, events[0]);
      StepKeepsInv(w, s, events[0]);
      ManifestsStep(w, s, events[0]);
      StoreRunRefines(w, Step(w, s, events[0]), StoreAfter(w, s, store, events[0]), events[1..], r, store');
    }
  }

  const NO_STORE := Store(Empty(), Empty())

  ghost predicate StoreReached(w: World, s: System, store: Store) {
    PlainId(w.owner) && exists events :: StoreRun(w, START, NO_STORE, events, s, store)
  }

  /**
   * From an empty store on, through any run, the string-keyed store holds exactly the pipeline's
   * manifests and chunks: a put replaces its own chunk only, a delete by id takes the first chunk
   * found, and discarding takes a session's chunks and no other's.
   */
  lemma StoreSimulates(w: World, s: System, store: Store)
    requires StoreReached(w, s, store)
    ensures Reached(w, s) && StoreIs(s, store)
  {
    hide PlainId, Run, StoreRun;
    var events :| StoreRun(w, START, NO_STORE, events, s, store);
    StartInv(w);
    EmptyStore();
    StoreRunRefines(w, START, NO_STORE, events, s, store);
  }

  lemma EmptyStore()
    ensures StoreIs(START, NO_STORE) && GoodManifests(START)
  {
  }

  // ---- following a run ----

  lemma {:induction false} StoreRunPush(w: World, s: System, store: Store, events: seq<Event>, m: System, mid: Store,
      e: Event)
    requires StoreRun(w, s, store, events, m, mid) && Enabled(w, m, e) && Readable(mid.chunks) && Agrees(w, m, mid, e)
    ensures StoreRun(w, s, store, events + [e], Step(w, m, e), StoreAfter(w, m, mid, e))
    decreases |events|
  {
    hide Step, Enabled, StoreAfter, Agrees, Readable;
    if events == [] {
      assert [] + [e] == [e] && [e][1..] == [];
      assert StoreRun(w, Step(w, m, e), StoreAfter(w, m, mid, e), [], Step(w, m, e), StoreAfter(w, m, mid, e));
    } else {
      StoreRunPush(w, Step(w, s, events[0]), StoreAfter(w, s, store, events[0]), events[1..], m, mid, e);
      assert (events + [e])[1..] == events[1..] + [e];
    }
  }

  lemma StoreReachedStep(w: World, s: System, store: Store, e: Event)
    requires StoreReached(w, s, store) && Enabled(w, s, e)
    ensures Readable(store.chunks)
    ensures Agrees(w, s, store, e) ==> StoreReached(w, Step(w, s, e), StoreAfter(w, s, store, e))
  {
    hide StoreRun, Step, Enabled, StoreAfter, Agrees, Reached, Refines, PlainId;
    StoreSimulates(w, s, store);
    RefinedKeys(store.chunks, s.chunks);
    var events :| StoreRun(w, START, NO_STORE, events, s, store);
    if Agrees(w, s, store, e) {
      StoreRunPush(w, START, NO_STORE, events, s, store, e);
    }
  }

  /** A store can follow any run in which nothing is reclaimed; events that leave the chunks alone leave its chunks. */
  lemma {:induction false} StoreFollows(w: World, s: System, store: Store, events: seq<Event>, r: System)
    returns (store': Store)
    requires StoreReached(w, s, store) && Run(w, s, events, r) && forall e | e in events :: !e.Reclaimed?
    ensures StoreReached(w, r, store')
    ensures (forall e | e in events :: LeavesChunks(e)) ==> store'.chunks == store.chunks
    decreases |events|
  {
    hide StoreReached, Step, Enabled;
    store' := store;
    if events != [] {
      StoreReachedStep(w, s, store, events[0]);
      assert events[0] in events && forall e | e in events[1..] :: e in events;
      store' := StoreFollows(w, Step(w, s, events[0]), StoreAfter(w, s, store, events[0]), events[1..], r);
    }
  }

  /** While no upload was ever confirmed, nothing has been reclaimed. */
  lemma {:induction false} NothingReclaimed(w: World, s: System, events: seq<Event>, r: System)
    requires Inv(w, s) && Run(w, s, events, r) && r.log.delivered == {}
    ensures s.log.delivered == {} && forall e | e in events :: !e.Reclaimed?
    decreases |events|
  {
    hide Inv, Step, Enabled;
    if events != [] {
      StepKeepsInv(w, s, events[0]);
      NothingReclaimed(w, Step(w, s, events[0]), events[1..], r);
      ReclaimConfirmed(w, s, events[0]);
      assert forall e | e in events :: e == events[0] || e in events[1..];
    }
  }

  lemma ReclaimConfirmed(w: World, s: System, e: Event)
    requires Inv(w, s) && Enabled(w, s, e)
    ensures s.log.delivered <= Step(w, s, e).log.delivered
    ensures e.Reclaimed? ==> s.log.delivered != {}
  {
    hide GoodLog, GoodStore, GoodServer, Counted, GoodChannel, GoodPersist, PlainId, Queue.Inv, TicketKey;
    hide AfterChannel, Server.Handle, Server.Removed, Server.Owns, Queue.Step, Queue.Enabled, Answered, Sends;
    hide Matches, FreshChunk, Capture.Enabled, HandedOver, GoodTask;
    if e.Reclaimed? {
      assert GoodPage(w, e.session, s.pages[e.session], s.log);
    } else if e.OnChannel? {
      ChannelKeepsDelivered(s, e.session, e.channel, e.event);
    }
  }

  lemma ChannelKeepsDelivered(s: System, session: string, channel: string, e: Capture.ChannelEvent)
    requires session in s.pages && channel in s.pages[session].channels
    requires Capture.Enabled(s.pages[session].channels[channel], e)
    ensures AfterChannel(s, session, channel, e).log.delivered == s.log.delivered
  {
    hide Emitted, Capture.Step, Capture.Enabled;
  }

  /** Any state in which nothing was confirmed yet is one the store can be in, too. */
  lemma StoreCanReach(w: World, s: System) returns (store: Store)
    requires Reached(w, s) && s.log.delivered == {}
    ensures StoreReached(w, s, store)
  {
    hide Inv, Run, StoreReached, PlainId;
    var events :| Run(w, START, events, s);
    StartInv(w);
    NothingReclaimed(w, START, events, s);
    StoreStarts(w);
    store := StoreFollows(w, START, NO_STORE, events, s);
  }

  lemma StoreStarts(w: World)
    requires PlainId(w.owner)
    ensures StoreReached(w, START, NO_STORE)
  {
    hide PlainId;
    assert StoreRun(w, START, NO_STORE, [], START, NO_STORE);
  }

  // ---- reclaiming ----

  /** The chunk at position `i` is the first, as the store iterates, with the id. */
  predicate FirstAt(chunks: JsMap<string, StoredChunk>, chunkId: string, i: int)
    requires Readable(chunks)
  {
    && 0 <= i < |chunks.keys| && chunks.at[chunks.keys[i]].meta.id == chunkId
    && forall j | 0 <= j < i :: chunks.at[chunks.keys[j]].meta.id != chunkId
  }

  lemma {:induction false} FirstIs(chunks: JsMap<string, StoredChunk>, keys: seq<string>, chunkId: string)
    returns (i: nat)
    requires (forall k | k in keys :: k in chunks.at) && FirstWithId(chunks, keys, chunkId).Some?
    ensures i < |keys| && keys[i] == FirstWithId(chunks, keys, chunkId).value
    ensures forall j | 0 <= j < i :: chunks.at[keys[j]].meta.id != chunkId
  {
    i := 0;
    if chunks.at[keys[0]].meta.id != chunkId {
      i := FirstIs(chunks, keys[1..], chunkId);
      assert keys[1..][i] == keys[i + 1] && forall j | 0 < j < i + 1 :: keys[1..][j - 1] == keys[j];
      i := i + 1;
    }
  }

  lemma FoundIsFirst(chunks: JsMap<string, StoredChunk>, chunkId: string, id: ChunkId)
    requires Readable(chunks)
    ensures Found(chunks, chunkId) == Some(id) <==>
      exists i :: FirstAt(chunks, chunkId, i) && IdOf(chunks.at[chunks.keys[i]].meta) == id
  {
    hide FirstWithId, IdOf;
    if FirstWithId(chunks, chunks.keys, chunkId).Some? {
      var i := FirstIs(chunks, chunks.keys, chunkId);
      assert FirstAt(chunks, chunkId, i);
      forall k | FirstAt(chunks, chunkId, k) ensures k == i {
      }
    }
  }

  /**
   * Reclaiming space after an upload deletes the first chunk, in the store's order, with the uploaded
   * chunk's id. So a chunk not yet confirmed is lost locally exactly when that one is not confirmed.
   */
  lemma ReclaimTakesUnconfirmedExactly(w: World, s: System, store: Store, session: string)
    requires StoreReached(w, s, store) && session in s.pages && Deleting(s.pages[session].queue)
    ensures var chunkId := s.pages[session].queue.loops[0].at.chunkId;
      && Readable(store.chunks)
      && var e := Reclaimed(session, Found(store.chunks, chunkId));
      && Enabled(w, s, e) && StoreReached(w, Step(w, s, e), StoreAfter(w, s, store, e))
      && ((exists id :: id in s.chunks && id !in s.log.delivered && id !in Step(w, s, e).chunks) <==>
          (exists i :: FirstAt(store.chunks, chunkId, i) &&
            IdOf(store.chunks.at[store.chunks.keys[i]].meta) !in s.log.delivered))
  {
    hide StoreReached, Reached, Refines, Found, FirstAt, IdOf, StoreAfter;
    StoreSimulates(w, s, store);
    var chunkId := s.pages[session].queue.loops[0].at.chunkId;
    FoundMatches(store.chunks, s.chunks, chunkId);
    var found := Found(store.chunks, chunkId);
    var e := Reclaimed(session, found);
    StoreReachedStep(w, s, store, e);
    if found.Some? {
      FoundIsFirst(store.chunks, chunkId, found.value);
      OneFirst(store.chunks, chunkId);
    } else {
      NoneIsFirst(store.chunks, chunkId);
    }
  }

  lemma OneFirst(chunks: JsMap<string, StoredChunk>, chunkId: string)
    requires Readable(chunks)
    ensures forall i, j | FirstAt(chunks, chunkId, i) && FirstAt(chunks, chunkId, j) :: i == j
  {
  }

  lemma NoneIsFirst(chunks: JsMap<string, StoredChunk>, chunkId: string)
    requires Readable(chunks) && Found(chunks, chunkId) == None
    ensures forall i :: !FirstAt(chunks, chunkId, i)
  {
    hide IdOf;
  }

  /**
   * On the next launch the recovery manager, over the store a run has left, offers exactly the
   * sessions with an open manifest and a surviving chunk.
   */
  method OfferSurvivors(manager: Manager.RecoveryManager, ghost w: World, ghost s: System)
    returns (result: seq<Manager.RecoverableSession>)
    requires manager.store.Valid() && Reached(w, s) && StoreIs(s, Store(manager.store.manifests, manager.store.chunks))
    ensures forall id | id in s.chunks && HasOpen(s, id.session) ::
      exists o :: o in result && o.manifest == s.manifests[id.session]
    ensures forall o | o in result ::
      HasOpen(s, o.manifest.sessionId) && s.manifests[o.manifest.sessionId] == o.manifest &&
        HasChunk(s, o.manifest.sessionId)
  {
    hide Reached, Refines, Manager.Recoverable, Manager.SessionChunks;
    result := manager.FindRecoverable();
    forall id | id in s.chunks && HasOpen(s, id.session)
      ensures exists o :: o in result && o.manifest == s.manifests[id.session]
    {
      SurvivorsAreRecoverable(w, s, manager.store.chunks, id);
    }
    forall o | o in result ensures HasOpen(s, o.manifest.sessionId) && HasChunk(s, o.manifest.sessionId) {
      OfferHasChunk(w, s, manager.store.chunks, o.manifest);
    }
  }

  ghost predicate HasChunk(s: System, session: string) {
    exists id :: id in s.chunks && id.session == session
  }

  lemma OfferHasChunk(w: World, s: System, chunks: JsMap<string, StoredChunk>, m: Manifest)
    requires Reached(w, s) && Refines(chunks, s.chunks) && m.sessionId in s.manifests && s.manifests[m.sessionId] == m
    requires Manager.Recoverable(chunks, m)
    ensures IsOpen(m) && HasChunk(s, m.sessionId)
  {
    hide Reached, KeyOf, HasPrefix, Refines, Holds;
    var c :| Holds(chunks, c) && HasPrefix(ChunkKey(c.meta), m.sessionId) && c.meta.byteLength > 0;
    ReachedManifests(w, s);
    PlainIsColonFree(m.sessionId);
    GetRefines(chunks, s.chunks, m.sessionId, c);
    assert IdOf(c.meta) in s.chunks;
  }
}
