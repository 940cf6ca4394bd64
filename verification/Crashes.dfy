/**
 * Crashes and recovery: which sessions are offered again, exactly what a crash costs, what the
 * rebuilt audio is, and when a closed session can be open again.
 */
module Crashes {
  import opened Wrappers
  import opened Common
  import opened RecoveryStore
  import opened Pipeline
  import opened Durability
  import opened DurableRuns
  import opened Guarantees
  import opened Keys
  import opened JsMap
  import Capture
  import Manager = RecoveryManager
  import Queue = UploadQueue
  import Server
  import Text

  // ---- manifests ----

  /** A manifest about to be written back belongs to its session, and is open unless that was closed. */
  ghost predicate GoodCopy(session: string, p: Persist, closed: set<string>) {
    p.phase.WritingManifest? && p.phase.copy.Some? ==>
      p.phase.copy.value.sessionId == session && (session !in closed ==> IsOpen(p.phase.copy.value))
  }

  ghost predicate GoodCopies(session: string, persists: seq<Persist>, closed: set<string>) {
    forall i | 0 <= i < |persists| :: GoodCopy(session, persists[i], closed)
  }

  /** Every session has its manifest from the start until it is discarded, open until it is closed. */
  ghost predicate GoodManifests(s: System) {
    && (forall k | k in s.manifests ::
       PlainId(k) && s.manifests[k].sessionId == k && (k !in s.closed ==> IsOpen(s.manifests[k])))
    && (forall k | k in s.started :: k in s.manifests || k in s.discarded)
    && (forall k | k in s.pages :: PlainId(k) && k in s.started && GoodCopies(k, s.pages[k].persists, s.closed))
  }

  lemma CopiesPush(session: string, persists: seq<Persist>, c: StoredChunk, closed: set<string>)
    requires GoodCopies(session, persists, closed)
    ensures GoodCopies(session, persists + [Persist(c, PuttingChunk)], closed)
  {
  }

  lemma CopiesWithout(session: string, persists: seq<Persist>, i: nat, closed: set<string>)
    requires GoodCopies(session, persists, closed) && i < |persists|
    ensures GoodCopies(session, WithoutPersist(persists, i), closed)
  {
  }

  lemma ManifestsOnRead(w: World, s: System, e: Event)
    requires GoodManifests(s) && Enabled(w, s, e) && (e.ChunkPut? || e.ManifestRead? || e.PersistFailed?)
    ensures GoodManifests(Step(w, s, e))
  {
    CopiesOnRead(s, e);
    hide GoodCopies, WithoutPersist, PlainId, IdOf, GoodCopy;
    var persists := s.pages[e.session].persists;
    var r := Step(w, s, e);
    assert r.pages == s.pages[e.session := r.pages[e.session]];
    assert r.manifests == s.manifests && r.closed == s.closed;
  }

  function ReadCopy(s: System, session: string): Phase {
    WritingManifest(if session in s.manifests then Some(s.manifests[session]) else None)
  }

  lemma CopiesOnRead(s: System, e: Event)
    requires GoodManifests(s) && (e.ChunkPut? || e.ManifestRead? || e.PersistFailed?) && HasPersist(s, e.session, e.i)
    ensures var persists := s.pages[e.session].persists;
      && GoodCopies(e.session, WithoutPersist(persists, e.i), s.closed)
      && GoodCopies(e.session, persists[e.i := persists[e.i].(phase := ReadingManifest)], s.closed)
      && GoodCopies(e.session, persists[e.i := persists[e.i].(phase := ReadCopy(s, e.session))], s.closed)
  {
    hide GoodCopies, WithoutPersist, PlainId;
    var persists := s.pages[e.session].persists;
    CopiesWithout(e.session, persists, e.i, s.closed);
    CopiesPhase(e.session, persists, e.i, ReadingManifest, s.closed);
    CopiesPhase(e.session, persists, e.i, ReadCopy(s, e.session), s.closed);
  }

  lemma ManifestsOnWrite(w: World, s: System, e: Event)
    requires GoodManifests(s) && Enabled(w, s, e) && e.ManifestWritten?
    ensures GoodManifests(Step(w, s, e))
  {
    hide GoodCopies, WithoutPersist, HandedOver;
    CopyAt(e.session, s.pages[e.session].persists, e.i, s.closed);
    CopiesWithout(e.session, s.pages[e.session].persists, e.i, s.closed);
    HandedOverKeepsChannels(s.pages[e.session], e.i);
  }

  lemma ManifestsOnClose(w: World, s: System, e: Event)
    requires GoodManifests(s) && Enabled(w, s, e) && e.MarkedClosed?
    ensures GoodManifests(Step(w, s, e))
  {
    hide GoodCopies;
    forall k | k in s.pages ensures GoodCopies(k, s.pages[k].persists, s.closed + {e.session}) {
      CopiesClose(k, s.pages[k].persists, s.closed, e.session);
    }
  }

  lemma ManifestsOnChannel(w: World, s: System, e: Event)
    requires GoodManifests(s) && Enabled(w, s, e) && e.OnChannel?
    ensures GoodManifests(Step(w, s, e))
  {
    hide PlainId, Capture.Step, Emitted, Capture.Enabled, FreshChunk, GoodCopies, AsStored;
    var st := s.pages[e.session].channels[e.channel];
    if Emitted(st, e.event).Some? {
      CopiesPush(e.session, s.pages[e.session].persists, Emitted(st, e.event).value, s.closed);
    }
  }

  /** The other events leave the manifests, and the copies of them, as they are or drop them. */
  /** Nothing the invariant speaks of has changed. */
  lemma ManifestsKept(s: System, r: System)
    requires GoodManifests(s) && r.manifests == s.manifests && r.started == s.started
    requires r.closed == s.closed && r.discarded == s.discarded
    requires forall k | k in r.pages :: k in s.pages && r.pages[k].persists == s.pages[k].persists
    ensures GoodManifests(r)
  {
    hide PlainId, GoodCopies;
  }

  lemma QueueKeepsPersists(w: World, s: System, session: string, e: Queue.QueueEvent)
    requires session in s.pages && Queue.Enabled(s.pages[session].queue, e)
    ensures var r := AfterQueue(w, s, session, e);
      && r.manifests == s.manifests && r.started == s.started && r.closed == s.closed && r.discarded == s.discarded
      && forall k | k in r.pages :: k in s.pages && r.pages[k].persists == s.pages[k].persists
  {
    hide Queue.Step, Queue.Enabled, Sends;
  }

  /** The other events leave the manifests, and the copies of them, as they are or drop them. */
  lemma ManifestsOtherwise(w: World, s: System, e: Event)
    requires GoodManifests(s) && Enabled(w, s, e)
    requires e.OnQueue? || e.Reclaimed? || e.Delivered? || e.Requested? || e.RecordingRemoved? || e.Crashed?
    ensures GoodManifests(Step(w, s, e))
  {
    hide Server.Handle, Server.Owns, Server.Removed, Queue.Enabled, Answered, AfterQueue, GoodManifests, Matches;
    if e.OnQueue? {
      QueueKeepsPersists(w, s, e.session, e.queued);
    }
    ManifestsKept(s, Step(w, s, e));
  }

  lemma ManifestsOnSession(w: World, s: System, e: Event)
    requires GoodManifests(s) && Enabled(w, s, e) && (e.Begin? || e.Discarded?)
    ensures GoodManifests(Step(w, s, e))
  {
    hide PlainId, GoodCopies, Capture.Fresh;
    NoCopies(e.session, s.closed);
  }

  lemma ManifestsStep(w: World, s: System, e: Event)
    requires GoodManifests(s) && Enabled(w, s, e)
    ensures GoodManifests(Step(w, s, e))
  {
    hide GoodManifests, Enabled, Step;
    match e
    case OnChannel(_, _, _) => ManifestsOnChannel(w, s, e);
    case ChunkPut(_, _) => ManifestsOnRead(w, s, e);
    case ManifestRead(_, _) => ManifestsOnRead(w, s, e);
    case PersistFailed(_, _) => ManifestsOnRead(w, s, e);
    case ManifestWritten(_, _, _) => ManifestsOnWrite(w, s, e);
    case MarkedClosed(_, _) => ManifestsOnClose(w, s, e);
    case Begin(_, _, _, _) => ManifestsOnSession(w, s, e);
    case Discarded(_) => ManifestsOnSession(w, s, e);
    case _ => ManifestsOtherwise(w, s, e);
  }

  lemma NoCopies(session: string, closed: set<string>)
    ensures GoodCopies(session, [], closed)
  {
  }

  lemma CopyAt(session: string, persists: seq<Persist>, i: nat, closed: set<string>)
    requires GoodCopies(session, persists, closed) && i < |persists|
    ensures GoodCopy(session, persists[i], closed)
  {
  }

  lemma CopiesPhase(session: string, persists: seq<Persist>, i: nat, phase: Phase, closed: set<string>)
    requires GoodCopies(session, persists, closed) && i < |persists|
    requires GoodCopy(session, persists[i].(phase := phase), closed)
    ensures GoodCopies(session, persists[i := persists[i].(phase := phase)], closed)
  {
  }

  lemma CopiesClose(session: string, persists: seq<Persist>, closed: set<string>, k: string)
    requires GoodCopies(session, persists, closed)
    ensures GoodCopies(session, persists, closed + {k})
  {
    forall i | 0 <= i < |persists| ensures GoodCopy(session, persists[i], closed + {k}) {
      assert GoodCopy(session, persists[i], closed);
    }
  }

  lemma {:induction false} ManifestsRun(w: World, s: System, events: seq<Event>, r: System)
    requires GoodManifests(s) && Run(w, s, events, r)
    ensures GoodManifests(r)
    decreases |events|
  {
    hide GoodManifests, Step, Enabled;
    if events != [] {
      ManifestsStep(w, s, events[0]);
      ManifestsRun(w, Step(w, s, events[0]), events[1..], r);
    }
  }

  lemma ReachedManifests(w: World, s: System)
    requires Reached(w, s)
    ensures GoodManifests(s)
  {
    var events :| Run(w, START, events, s);
    hide Run, Reached;
    ManifestsRun(w, START, events, s);
  }

  /** A session never closed nor discarded has its manifest from its start on, and open. */
  lemma NeverClosedIsOpen(w: World, s: System, session: string)
    requires Reached(w, s) && session in s.started && session !in s.closed && session !in s.discarded
    ensures session in s.manifests && IsOpen(s.manifests[session])
  {
    hide Reached;
    ReachedManifests(w, s);
  }

  /**
   * After a crash at any step: a session whose manifest is open, and of which any chunk is left in
   * the store, is recoverable. A session with a chunk left that was neither closed nor discarded
   * has an open manifest.
   */
  lemma SurvivorsAreRecoverable(w: World, s: System, chunks: JsMap<string, StoredChunk>, id: ChunkId)
    requires Reached(w, s) && Refines(chunks, s.chunks) && id in s.chunks
    ensures id.session !in s.closed && id.session !in s.discarded ==> HasOpen(s, id.session)
    ensures id.session in s.manifests ==> s.manifests[id.session].sessionId == id.session
    ensures HasOpen(s, id.session) ==> Manager.Recoverable(chunks, s.manifests[id.session])
  {
    hide KeyOf, DistinctIds, GoodServer, GoodPages, PlainId, Refines, Reached, Taken;
    ReachedInv(w, s);
    ReachedManifests(w, s);
    assert id.session in s.started;
    if id.session !in s.closed && id.session !in s.discarded {
      NeverClosedIsOpen(w, s, id.session);
    }
    var c := s.chunks[id];
    assert GoodChunk(id, c);
    PlainIsColonFree(id.session) by { assert PlainSlot(id); }
    GetRefines(chunks, s.chunks, id.session, c);
  }

  lemma PlainIsColonFree(s: string)
    requires PlainId(s)
    ensures Text.Free(s, ':')
  {
  }

  // ---- closed stays closed, or not ----

  /** A `persistChunk` of the session holds a copy of the manifest from before it was closed. */
  predicate Stale(persists: seq<Persist>) {
    exists i :: 0 <= i < |persists| && persists[i].phase.WritingManifest? && persists[i].phase.copy.Some? &&
      IsOpen(persists[i].phase.copy.value)
  }

  ghost predicate HasOpen(s: System, session: string) {
    session in s.manifests && IsOpen(s.manifests[session])
  }

  ghost predicate Shut(s: System, session: string) {
    && session in s.started && !HasOpen(s, session)
    && (session in s.pages ==> !Stale(s.pages[session].persists))
  }

  lemma StaleWithout(persists: seq<Persist>, i: nat)
    requires i < |persists| && !Stale(persists)
    ensures !Stale(WithoutPersist(persists, i))
    ensures persists[i].phase.WritingManifest? && persists[i].phase.copy.Some? ==> !IsOpen(persists[i].phase.copy.value)
  {
    var r := WithoutPersist(persists, i);
    forall j | 0 <= j < |r| ensures r[j] == persists[if j < i then j else j + 1] {
    }
  }

  lemma StalePhase(persists: seq<Persist>, i: nat, phase: Phase)
    requires i < |persists| && !Stale(persists)
    requires phase.WritingManifest? && phase.copy.Some? ==> !IsOpen(phase.copy.value)
    ensures !Stale(persists[i := persists[i].(phase := phase)])
  {
    var r := persists[i := persists[i].(phase := phase)];
    forall j | 0 <= j < |r| && j != i ensures r[j] == persists[j] {
    }
  }

  lemma StalePush(persists: seq<Persist>, c: StoredChunk)
    requires !Stale(persists)
    ensures !Stale(persists + [Persist(c, PuttingChunk)])
  {
    var r := persists + [Persist(c, PuttingChunk)];
    forall j | 0 <= j < |persists| ensures r[j] == persists[j] {
    }
  }

  lemma ShutOnPersist(w: World, s: System, e: Event)
    requires e.ChunkPut? || e.ManifestRead? || e.PersistFailed? || e.ManifestWritten?
    requires Shut(s, e.session) && Enabled(w, s, e)
    ensures Shut(Step(w, s, e), e.session)
  {
    hide Stale, WithoutPersist, HandedOver;
    var persists := s.pages[e.session].persists;
    StaleWithout(persists, e.i);
    HandedOverKeepsChannels(s.pages[e.session], e.i);
    if e.ChunkPut? {
      StalePhase(persists, e.i, ReadingManifest);
    } else if e.ManifestRead? {
      StalePhase(persists, e.i,
        WritingManifest(if e.session in s.manifests then Some(s.manifests[e.session]) else None));
    }
  }

  lemma ShutOnChannel(w: World, s: System, e: Event)
    requires e.OnChannel? && Shut(s, e.session) && Enabled(w, s, e)
    ensures Shut(Step(w, s, e), e.session)
  {
    hide Stale, Capture.Step, Capture.Enabled, Emitted, AsStored, FreshChunk;
    var st := s.pages[e.session].channels[e.channel];
    if Emitted(st, e.event).Some? {
      StalePush(s.pages[e.session].persists, Emitted(st, e.event).value);
    }
  }

  lemma ShutStep(w: World, s: System, e: Event, session: string)
    requires Shut(s, session) && Enabled(w, s, e)
    ensures Shut(Step(w, s, e), session)
  {
    hide PlainId, Capture.Step, Queue.Step, Server.Handle, Server.Owns, Server.Removed, Emitted, Capture.Enabled;
    hide Queue.Enabled, FreshChunk, Answered, Sends, WithoutPersist, HandedOver, AsStored, Stale;
    match e
    case OnChannel(other, _, _) => if other == session { ShutOnChannel(w, s, e); }
    case ChunkPut(other, _) => if other == session { ShutOnPersist(w, s, e); }
    case ManifestRead(other, _) => if other == session { ShutOnPersist(w, s, e); }
    case PersistFailed(other, _) => if other == session { ShutOnPersist(w, s, e); }
    case ManifestWritten(other, _, _) => if other == session { ShutOnPersist(w, s, e); }
    case _ =>
  }

  lemma {:induction false} ShutRun(w: World, s: System, events: seq<Event>, r: System, session: string)
    requires Shut(s, session) && Run(w, s, events, r)
    ensures Shut(r, session)
    decreases |events|
  {
    hide Shut, Step, Enabled;
    if events != [] {
      ShutStep(w, s, events[0], session);
      ShutRun(w, Step(w, s, events[0]), events[1..], r, session);
    }
  }

  lemma StaleReopens(w: World, s: System, session: string)
    requires session in s.pages && Stale(s.pages[session].persists)
    ensures exists events, r :: Run(w, s, events, r) && HasOpen(r, session)
  {
    var persists := s.pages[session].persists;
    var i :| 0 <= i < |persists| && persists[i].phase.WritingManifest? && persists[i].phase.copy.Some? &&
      IsOpen(persists[i].phase.copy.value);
    hide HandedOver, Stale;
    var e := ManifestWritten(session, i, "now");
    assert Enabled(w, s, e);
    var r := Step(w, s, e);
    assert HasOpen(r, session);
    OneStep(w, s, e);
    assert Run(w, s, [e], r);
  }

  lemma OneStep(w: World, s: System, e: Event)
    requires Enabled(w, s, e)
    ensures Run(w, s, [e], Step(w, s, e))
  {
    hide Step, Enabled;
    assert [e][1..] == [];
    assert Run(w, Step(w, s, e), [], Step(w, s, e));
  }

  /**
   * A session that is not open now can be open again later exactly when some `persistChunk`
   * of it still holds a copy of the manifest read before it was closed.
   */
  lemma ReopensExactlyIfStale(w: World, s: System, session: string)
    requires session in s.started && !HasOpen(s, session)
    ensures (exists events, r :: Run(w, s, events, r) && HasOpen(r, session)) <==>
      (session in s.pages && Stale(s.pages[session].persists))
  {
    hide Run, Stale, HasOpen;
    if session in s.pages && Stale(s.pages[session].persists) {
      StaleReopens(w, s, session);
    } else if exists events, r :: Run(w, s, events, r) && HasOpen(r, session) {
      var events, r :| Run(w, s, events, r) && HasOpen(r, session);
      ShutRun(w, s, events, r, session);
    }
  }

  /**
   * Waiting a fixed time before `markClosed` does not suffice: a `persistChunk` that has just read
   * the manifest reopens the session it was called on.
   */
  lemma ClosingTooSoonReopens(w: World, s: System, session: string, i: nat, now: string)
    requires session in s.manifests && IsOpen(s.manifests[session]) && now != ""
    requires HasPersist(s, session, i) && PersistAt(s, session, i).phase.ReadingManifest?
    ensures var read := Step(w, s, ManifestRead(session, i)); var closed := Step(w, read, MarkedClosed(session, now));
      && !HasOpen(closed, session) && Enabled(w, closed, ManifestWritten(session, i, now))
      && HasOpen(Step(w, closed, ManifestWritten(session, i, now)), session)
  {
    hide HandedOver;
  }
}
