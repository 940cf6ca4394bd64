/** A crash costs exactly the chunks that were not stored yet, for good. */
module Losses {
  import opened Wrappers
  import opened Common
  import opened RecoveryStore
  import opened Pipeline
  import opened Durability
  import opened DurableRuns
  import opened Guarantees
  import opened CrashCost
  import opened HandOver
  import opened Keys
  import Capture
  import Queue = UploadQueue
  import Server
  import Text

  /** Some `persistChunk` has the chunk, at whatever await. */
  ghost predicate Persisting(persists: seq<Persist>, id: ChunkId) {
    exists i :: 0 <= i < |persists| && IdOf(persists[i].chunk.meta) == id
  }

  /** What is being put is not stored yet. */
  ghost predicate NotYetStored(persists: seq<Persist>, persisted: set<ChunkId>) {
    forall i | 0 <= i < |persists| && persists[i].phase.PuttingChunk? :: IdOf(persists[i].chunk.meta) !in persisted
  }

  /** A failed chunk is not stored and nothing will store it. */
  ghost predicate Abandoned(s: System, id: ChunkId) {
    && id in s.log.finalized && id !in s.log.persisted
    && (id.session in s.pages ==> !Persisting(s.pages[id.session].persists, id))
  }

  ghost predicate Exclusive(s: System) {
    && (forall id | id in s.failed :: Abandoned(s, id))
    && (forall session | session in s.pages :: NotYetStored(s.pages[session].persists, s.log.persisted))
  }

  lemma PersistingPush(persists: seq<Persist>, c: StoredChunk, id: ChunkId)
    ensures Persisting(persists + [Persist(c, PuttingChunk)], id) <==> Persisting(persists, id) || id == IdOf(c.meta)
  {
    var r := persists + [Persist(c, PuttingChunk)];
    assert r[|persists|] == Persist(c, PuttingChunk);
    if Persisting(persists, id) {
      var i :| 0 <= i < |persists| && IdOf(persists[i].chunk.meta) == id;
      assert r[i] == persists[i];
    }
  }

  lemma PersistingPhase(persists: seq<Persist>, i: nat, phase: Phase, id: ChunkId)
    requires i < |persists|
    ensures Persisting(persists[i := persists[i].(phase := phase)], id) ==> Persisting(persists, id)
  {
    var r := persists[i := persists[i].(phase := phase)];
    if Persisting(r, id) {
      var j :| 0 <= j < |r| && IdOf(r[j].chunk.meta) == id;
      assert IdOf(persists[j].chunk.meta) == id;
    }
  }

  lemma PersistingWithout(persists: seq<Persist>, i: nat, id: ChunkId)
    requires i < |persists|
    ensures Persisting(WithoutPersist(persists, i), id) ==> Persisting(persists, id)
  {
    var r := WithoutPersist(persists, i);
    if Persisting(r, id) {
      var j :| 0 <= j < |r| && IdOf(r[j].chunk.meta) == id;
      assert r[j] == persists[if j < i then j else j + 1];
    }
  }

  lemma RemovedIsGone(persists: seq<Persist>, enqueued: seq<AudioChunk>, i: nat)
    requires i < |persists| && Once(persists, enqueued)
    ensures !Persisting(WithoutPersist(persists, i), IdOf(persists[i].chunk.meta))
  {
    hide IdOf;
    var r := WithoutPersist(persists, i);
    assert forall j | 0 <= j < |r| :: r[j] == persists[if j < i then j else j + 1];
  }

  lemma NotYetWithout(persists: seq<Persist>, i: nat, persisted: set<ChunkId>)
    requires i < |persists| && NotYetStored(persists, persisted)
    ensures NotYetStored(WithoutPersist(persists, i), persisted)
  {
    var r := WithoutPersist(persists, i);
    assert forall j | 0 <= j < |r| :: r[j] == persists[if j < i then j else j + 1];
  }

  lemma NotYetPut(persists: seq<Persist>, enqueued: seq<AudioChunk>, i: nat, persisted: set<ChunkId>)
    requires i < |persists| && NotYetStored(persists, persisted) && Once(persists, enqueued)
    ensures NotYetStored(persists[i := persists[i].(phase := ReadingManifest)],
      persisted + {IdOf(persists[i].chunk.meta)})
  {
    hide IdOf;
  }

  /** One page and its persists change. */
  lemma PageExclusive(s: System, r: System, session: string)
    requires Exclusive(s) && session in s.pages && session in r.pages && r.pages == s.pages[session := r.pages[session]]
    requires forall id | id in s.log.finalized :: id in r.log.finalized
    requires r.log.persisted == s.log.persisted && NotYetStored(r.pages[session].persists, r.log.persisted)
    requires forall id | id in r.failed :: id in s.failed || Abandoned(r, id)
    requires forall id: ChunkId | id.session == session && id in s.failed :: !Persisting(r.pages[session].persists, id)
    ensures Exclusive(r)
  {
    hide NotYetStored, Persisting;
    forall id | id in r.failed ensures Abandoned(r, id) {
      if id in s.failed {
        assert Abandoned(s, id);
      }
    }
  }

  lemma ChannelExclusive(w: World, s: System, e: Event)
    requires Inv(w, s) && AllHandedOver(s) && Exclusive(s) && Enabled(w, s, e) && e.OnChannel?
    ensures Exclusive(Step(w, s, e))
  {
    hide Inv, PlainId, Capture.Step, Capture.Enabled, Emitted, AsStored, FreshChunk, AllHandedOver, IdOf, Persisting;
    var p := s.pages[e.session];
    var r := Step(w, s, e);
    if Emitted(p.channels[e.channel], e.event).Some? {
      var c := Emitted(p.channels[e.channel], e.event).value;
      NewIsNew(w, s, e);
      forall id ensures Persisting(r.pages[e.session].persists, id) <==>
        Persisting(p.persists, id) || id == IdOf(c.meta) {
        PersistingPush(p.persists, c, id);
      }
    }
    forall id | id in s.failed ensures Abandoned(s, id) {
    }
    PageExclusive(s, r, e.session);
  }

  lemma NewIsNew(w: World, s: System, e: Event)
    requires Inv(w, s) && Enabled(w, s, e) && e.OnChannel?
    requires Emitted(s.pages[e.session].channels[e.channel], e.event).Some?
    ensures var id := IdOf(Emitted(s.pages[e.session].channels[e.channel], e.event).value.meta);
      id !in s.log.finalized && id !in s.log.persisted
  {
    hide PlainId, GoodServer, GoodStore, Capture.Step, Capture.Enabled, Emitted, AsStored, GoodPages, GoodChunk;
    hide Faithful, DistinctIds, CommitOf, Counted;
    EmissionCounts(w, s, e.session, e.channel, e.event);
    NotYetCounted(s, ChunkId(e.session, e.channel, |s.pages[e.session].channels[e.channel].emitted|));
  }

  lemma PutExclusive(w: World, s: System, e: Event)
    requires Inv(w, s) && AllHandedOver(s) && Exclusive(s) && Enabled(w, s, e) && e.ChunkPut?
    ensures Exclusive(Step(w, s, e))
  {
    hide GoodLog, GoodStore, GoodServer, Counted, GoodChannel, GoodQueue, PlainId, AllStored, WasDelivered, Once;
    hide Persisting;
    var p := s.pages[e.session];
    var id0 := IdOf(p.persists[e.i].chunk.meta);
    assert GoodPage(w, e.session, p, s.log) && GoodPersist(e.session, p.persists[e.i], s.log) &&
      GoodHandOver(e.session, p, s.log);
    NotYetPut(p.persists, p.queue.enqueued, e.i, s.log.persisted);
    var r := Step(w, s, e);
    IsPersisting(p.persists, e.i);
    forall id | id in r.failed ensures Abandoned(r, id) {
      assert Abandoned(s, id);
      PersistingPhase(p.persists, e.i, ReadingManifest, id);
    }
    forall session | session in r.pages ensures NotYetStored(r.pages[session].persists, r.log.persisted) {
      if session != e.session {
        OtherPage(w, s, session, id0);
      }
    }
  }

  lemma IsPersisting(persists: seq<Persist>, i: nat)
    requires i < |persists|
    ensures Persisting(persists, IdOf(persists[i].chunk.meta))
  {
  }

  lemma OtherPage(w: World, s: System, session: string, id0: ChunkId)
    requires Inv(w, s) && session in s.pages && id0.session != session &&
      NotYetStored(s.pages[session].persists, s.log.persisted)
    ensures NotYetStored(s.pages[session].persists, s.log.persisted + {id0})
  {
    hide GoodLog, GoodStore, GoodServer, Counted, GoodChannel, GoodQueue, PlainId;
    assert GoodPage(w, session, s.pages[session], s.log);
    var persists := s.pages[session].persists;
    forall i | 0 <= i < |persists| && persists[i].phase.PuttingChunk?
      ensures IdOf(persists[i].chunk.meta) !in s.log.persisted + {id0}
    {
      assert GoodPersist(session, persists[i], s.log);
    }
  }

  lemma RestExclusive(w: World, s: System, e: Event)
    requires Inv(w, s) && AllHandedOver(s) && Exclusive(s) && Enabled(w, s, e)
    requires e.ManifestRead? || e.ManifestWritten? || e.PersistFailed?
    ensures Exclusive(Step(w, s, e))
  {
    hide Inv, AllStored, WasDelivered, Once, Persisting, NotYetStored, WithoutPersist, HandedOver;
    var p := s.pages[e.session];
    var r := Step(w, s, e);
    assert GoodHandOver(e.session, p, s.log);
    HandedOverKeepsChannels(p, e.i);
    NotYetWithout(p.persists, e.i, s.log.persisted);
    RemovedIsGone(p.persists, p.queue.enqueued, e.i);
    var phase := WritingManifest(if e.session in s.manifests then Some(s.manifests[e.session]) else None);
    NotYetPhase(p.persists, e.i, phase, s.log.persisted);
    forall id: ChunkId | id.session == e.session && id in s.failed
      ensures !Persisting(r.pages[e.session].persists, id) {
      assert Abandoned(s, id);
      PersistingPhase(p.persists, e.i, phase, id);
      PersistingWithout(p.persists, e.i, id);
    }
    if e.PersistFailed? && p.persists[e.i].phase.PuttingChunk? {
      FailedIsAbandoned(w, s, e);
    }
    PageExclusive(s, r, e.session);
  }

  lemma NotYetPhase(persists: seq<Persist>, i: nat, phase: Phase, persisted: set<ChunkId>)
    requires i < |persists| && NotYetStored(persists, persisted) && !phase.PuttingChunk?
    ensures NotYetStored(persists[i := persists[i].(phase := phase)], persisted)
  {
  }

  lemma FailedIsAbandoned(w: World, s: System, e: Event)
    requires Inv(w, s) && AllHandedOver(s) && Exclusive(s) && Enabled(w, s, e)
    requires e.PersistFailed? && PersistAt(s, e.session, e.i).phase.PuttingChunk?
    ensures Abandoned(Step(w, s, e), IdOf(PersistAt(s, e.session, e.i).chunk.meta))
  {
    hide GoodLog, GoodStore, GoodServer, Counted, GoodChannel, GoodQueue, PlainId, AllStored, WasDelivered, Once;
    hide Persisting, WithoutPersist;
    var p := s.pages[e.session];
    assert GoodPage(w, e.session, p, s.log) && GoodPersist(e.session, p.persists[e.i], s.log) &&
      GoodHandOver(e.session, p, s.log);
    assert NotYetStored(p.persists, s.log.persisted);
    RemovedIsGone(p.persists, p.queue.enqueued, e.i);
  }

  lemma StepExclusive(w: World, s: System, e: Event)
    requires Inv(w, s) && AllHandedOver(s) && Exclusive(s) && Enabled(w, s, e)
    ensures Exclusive(Step(w, s, e))
  {
    hide Inv, AllHandedOver, PlainId, Server.Handle, Server.Owns, Server.Removed, Queue.Step, Queue.Enabled, Answered;
    hide Sends, NotYetStored, Persisting, Matches;
    match e
    case OnChannel(_, _, _) => ChannelExclusive(w, s, e);
    case ChunkPut(_, _) => PutExclusive(w, s, e);
    case ManifestRead(_, _) => RestExclusive(w, s, e);
    case ManifestWritten(_, _, _) => RestExclusive(w, s, e);
    case PersistFailed(_, _) => RestExclusive(w, s, e);
    case Begin(session, _, _, _) => BeginExclusive(w, s, e);
    case OnQueue(session, _) => SameExclusive(s, Step(w, s, e));
    case _ => SameExclusive(s, Step(w, s, e));
  }

  /** Events that leave every page's persists alone, or take the page away. */
  lemma SameExclusive(s: System, r: System)
    requires Exclusive(s) && r.failed == s.failed && r.log.finalized == s.log.finalized &&
      r.log.persisted == s.log.persisted
    requires forall session | session in r.pages ::
      session in s.pages && r.pages[session].persists == s.pages[session].persists
    ensures Exclusive(r)
  {
    hide NotYetStored, Persisting;
    forall id | id in r.failed ensures Abandoned(r, id) {
      assert Abandoned(s, id);
    }
  }

  lemma BeginExclusive(w: World, s: System, e: Event)
    requires Inv(w, s) && Exclusive(s) && Enabled(w, s, e) && e.Begin?
    ensures Exclusive(Step(w, s, e))
  {
    hide GoodLog, GoodStore, GoodServer, GoodPages, PlainId;
    var r := Step(w, s, e);
    forall id | id in r.failed ensures Abandoned(r, id) {
      assert Abandoned(s, id);
    }
  }

  lemma {:induction false} RunExclusive(w: World, s: System, events: seq<Event>, r: System)
    requires Inv(w, s) && AllHandedOver(s) && Exclusive(s) && Run(w, s, events, r)
    ensures Exclusive(r)
    decreases |events|
  {
    hide Inv, AllHandedOver, Exclusive, Step, Enabled;
    if events != [] {
      StepKeepsInv(w, s, events[0]);
      StepHandsOver(w, s, events[0]);
      StepExclusive(w, s, events[0]);
      RunExclusive(w, Step(w, s, events[0]), events[1..], r);
    }
  }

  lemma ReachedExclusive(w: World, s: System)
    requires Reached(w, s)
    ensures Inv(w, s) && Exclusive(s)
  {
    hide Inv, Run;
    ReachedInv(w, s);
    var events :| Run(w, START, events, s);
    StartInv(w);
    RunExclusive(w, START, events, s);
  }

  /** While its page lives a finalised chunk is stored, or failed, or in flight: exactly one of the three. */
  lemma ExactlyOneFate(w: World, s: System, id: ChunkId)
    requires Reached(w, s) && id in s.log.finalized && id.session in s.pages
    ensures var stored, failed, flying := id in s.log.persisted, id in s.failed,
      InFlight(s.pages[id.session].persists, id);
      (stored || failed || flying) && !(stored && failed) && !(stored && flying) && !(failed && flying)
  {
    hide Inv, Reached;
    ReachedExclusive(w, s);
    ReachedAccounted(w, s);
    assert Accounted(s, id);
    var persists := s.pages[id.session].persists;
    assert NotYetStored(persists, s.log.persisted);
    if InFlight(persists, id) {
      assert Persisting(persists, id);
    }
  }

  /** The chunk's bytes are still somewhere: in the local store, or committed. */
  ghost predicate Survives(w: World, s: System, id: ChunkId) {
    id in s.chunks || (id in s.log.finalized && Committed(w, s, id))
  }

  /** Absent discarding, deletion and a confirmed chunk of the same id, a chunk survives exactly if it was stored. */
  lemma SurvivesIfStored(w: World, s: System, id: ChunkId)
    requires Reached(w, s)
    ensures Survives(w, s, id) ==> id in s.log.persisted
    ensures id in s.log.persisted && !Taken(s.log, id) && id.session !in s.discarded && id.session !in s.removed ==>
      Survives(w, s, id)
  {
    hide Reached, Taken, GoodLog, GoodServer, GoodPages, Counted, Row, Owned, Server.UniqueRows, Server.Fetch;
    ReachedInv(w, s);
    EffectIsExactlyOnce(w, s, id);
    if id in s.log.persisted {
      StoredIsNeverLost(w, s, id);
    }
    RowIs(s.server, id);
  }

  lemma RowIs(server: Server.ServerState, id: ChunkId)
    ensures Row(server, id) == Server.RowOf(server.rows, id.session, id.channel, id.sequence)
  {
  }

  /**
   * What a crash costs, exactly. A channel has received its chunks' bytes and the pending parts, and
   * what was encoded besides is what the encoder had not handed over. After the crash a chunk survives
   * if and only if its `putChunk` had completed, that is, if it had not failed and was not in flight.
   * (No confirmed chunk of another page has its id, and the session is neither discarded nor deleted.)
   */
  lemma CrashCostsExactly(w: World, s: System, session: string, ch: string)
    requires Reached(w, s) && session in s.pages && ch in s.pages[session].channels
    requires session !in s.discarded && session !in s.removed
    ensures var st := s.pages[session].channels[ch]; var r := Step(w, s, Crashed(session));
      && Text.Flatten(st.received) == FinalizedBytes(s.log, session, ch, |st.emitted|) + Text.Flatten(st.buffer.parts)
      && st.encoded == Text.Flatten(st.received) + Capture.Held(Capture.Last(st))
      && forall k: nat | k < |st.emitted| && !Taken(s.log, ChunkId(session, ch, k)) ::
        var id := ChunkId(session, ch, k);
        && (Survives(w, r, id) <==> id in s.log.persisted)
        && (id in s.log.persisted <==> id !in s.failed && !InFlight(s.pages[session].persists, id))
  {
    hide Reached, Taken, Survives, InFlight, FinalizedBytes, Text.Flatten, GoodLog, GoodStore, GoodServer, Counted;
    hide GoodQueue, GoodPersist, Capture.Inv, PlainId;
    ReachedInv(w, s);
    assert GoodPage(w, session, s.pages[session], s.log);
    var st := s.pages[session].channels[ch];
    CapturedBytes(session, ch, st, s.log);
    ReachedStep(w, s, Crashed(session));
    var r := Step(w, s, Crashed(session));
    forall k: nat | k < |st.emitted| && !Taken(s.log, ChunkId(session, ch, k))
      ensures var id := ChunkId(session, ch, k);
        && (Survives(w, r, id) <==> id in s.log.persisted)
        && (id in s.log.persisted <==> id !in s.failed && !InFlight(s.pages[session].persists, id))
    {
      var id := ChunkId(session, ch, k);
      assert id in s.log.finalized;
      SurvivesIfStored(w, r, id);
      ExactlyOneFate(w, s, id);
    }
  }

  /** A crash costs a channel at most its last chunk exactly if no earlier one had failed or was in flight. */
  lemma OnlyLastLostExactlyIf(w: World, s: System, session: string, ch: string)
    requires Reached(w, s) && session in s.pages && ch in s.pages[session].channels
    requires session !in s.discarded && session !in s.removed
    requires forall k: nat | k < |s.pages[session].channels[ch].emitted| :: !Taken(s.log, ChunkId(session, ch, k))
    ensures var n := |s.pages[session].channels[ch].emitted|; var r := Step(w, s, Crashed(session));
      (forall k: nat | k + 1 < n :: Survives(w, r, ChunkId(session, ch, k))) <==>
      (forall k: nat | k + 1 < n :: NotAtRisk(s, ChunkId(session, ch, k)))
  {
    hide Reached, Taken, Survives, InFlight, FinalizedBytes, Text.Flatten;
    CrashCostsExactly(w, s, session, ch);
    var n := |s.pages[session].channels[ch].emitted|;
    var r := Step(w, s, Crashed(session));
    forall k: nat | k + 1 < n
      ensures Survives(w, r, ChunkId(session, ch, k)) <==> NotAtRisk(s, ChunkId(session, ch, k))
    {
      assert !Taken(s.log, ChunkId(session, ch, k));
    }
  }

  ghost predicate NotAtRisk(s: System, id: ChunkId) {
    id !in s.failed && (id.session in s.pages ==> !InFlight(s.pages[id.session].persists, id))
  }

  /**
   * When every chunk's `putChunk` has completed or failed before the next chunk of its channel ends, a
   * crash costs, besides the pending parts, at most the channel's last chunk and those that failed:
   * every other one survives, and none that failed does.
   */
  lemma AtMostOneChunk(w: World, events: seq<Event>, s: System, session: string, ch: string, k: nat)
    requires PlainId(w.owner) && PromptRun(w, START, events, s)
    requires session in s.pages && ch in s.pages[session].channels
    requires k + 1 < |s.pages[session].channels[ch].emitted| && !Taken(s.log, ChunkId(session, ch, k))
    requires session !in s.discarded && session !in s.removed
    ensures Survives(w, Step(w, s, Crashed(session)), ChunkId(session, ch, k)) <==> ChunkId(session, ch, k) !in s.failed
  {
    hide PlainId, Reached, PromptRun, Taken, Survives, InFlight, FinalizedBytes, Text.Flatten;
    EarlierStoredOrFailed(w, events, s, session, ch, k);
    CrashCostsExactly(w, s, session, ch);
    var id := ChunkId(session, ch, k);
    assert id in s.log.persisted <==> id !in s.failed && !InFlight(s.pages[session].persists, id);
  }

  lemma NothingStoredLater(w: World, s: System, e: Event, session: string)
    requires Inv(w, s) && Enabled(w, s, e) && session in s.started && session !in s.pages
    ensures var r := Step(w, s, e); session in r.started && session !in r.pages
    ensures forall id: ChunkId | id.session == session :: id in Step(w, s, e).log.persisted ==> id in s.log.persisted
  {
    hide GoodLog, GoodStore, GoodServer, Counted, PlainId, GoodPages, Server.Handle, Server.Owns, Server.Removed;
    hide Queue.Step, Queue.Enabled, Answered, Sends, Matches, Capture.Step, Capture.Enabled, Emitted, AsStored;
    hide FreshChunk;
    if e.ChunkPut? {
      PersistOf(w, s, e.session, e.i);
    }
  }

  /** What a crash took is gone for good: no later run stores it or commits it. */
  lemma {:induction false} LostForGood(w: World, s: System, events: seq<Event>, r: System, id: ChunkId)
    requires Reached(w, s) && Run(w, s, events, r)
    requires id.session in s.started && id.session !in s.pages && id !in s.log.persisted
    ensures id !in r.log.persisted && !Survives(w, r, id)
    decreases |events|
  {
    hide Reached, Step, Enabled, Survives;
    if events == [] {
      SurvivesIfStored(w, s, id);
    } else {
      ReachedInv(w, s);
      NothingStoredLater(w, s, events[0], id.session);
      ReachedStep(w, s, events[0]);
      LostForGood(w, Step(w, s, events[0]), events[1..], r, id);
    }
  }
}
