/** Each chunk reaches the queue once, so a chunk the queue gave up on was never confirmed. */
module HandOver {
  import opened Wrappers
  import opened Common
  import opened RecoveryStore
  import opened Pipeline
  import opened Durability
  import opened DurableRuns
  import opened Guarantees
  import opened Keys
  import opened Lists
  import Capture
  import CrashCost
  import Queue = UploadQueue
  import Server

  /** No chunk is persisted twice, enqueued twice, or persisted after being enqueued. */
  ghost predicate Once(persists: seq<Persist>, enqueued: seq<AudioChunk>) {
    && (forall i, j | 0 <= i < j < |persists| :: IdOf(persists[i].chunk.meta) != IdOf(persists[j].chunk.meta))
    && (forall i, k | 0 <= i < |persists| && 0 <= k < |enqueued| :: IdOf(persists[i].chunk.meta) != IdOf(enqueued[k]))
    && (forall k, m | 0 <= k < m < |enqueued| :: IdOf(enqueued[k]) != IdOf(enqueued[m]))
  }

  ghost predicate AllStored(session: string, enqueued: seq<AudioChunk>, persisted: set<ChunkId>) {
    forall k | 0 <= k < |enqueued| :: IdOf(enqueued[k]) in persisted && IdOf(enqueued[k]).session == session
  }

  ghost predicate WasDelivered(outcomes: seq<Queue.Outcome>, id: ChunkId) {
    exists k :: 0 <= k < |outcomes| && outcomes[k].Delivered? && IdOf(outcomes[k].chunk) == id
  }

  ghost predicate GoodHandOver(session: string, p: Page, l: Log) {
    && Once(p.persists, p.queue.enqueued) && AllStored(session, p.queue.enqueued, l.persisted)
    && forall id | id in l.delivered && id.session == session :: WasDelivered(p.queue.outcomes, id)
  }

  ghost predicate AllHandedOver(s: System) {
    forall session | session in s.pages :: GoodHandOver(session, s.pages[session], s.log)
  }

  lemma OnceWithout(persists: seq<Persist>, enqueued: seq<AudioChunk>, i: nat)
    requires Once(persists, enqueued) && i < |persists|
    ensures Once(WithoutPersist(persists, i), enqueued)
    ensures Once(WithoutPersist(persists, i), enqueued + [persists[i].chunk.meta])
  {
    hide IdOf;
    var r := WithoutPersist(persists, i);
    assert forall j | 0 <= j < |r| :: r[j] == persists[if j < i then j else j + 1];
  }

  lemma OncePhase(persists: seq<Persist>, enqueued: seq<AudioChunk>, i: nat, phase: Phase)
    requires Once(persists, enqueued) && i < |persists|
    ensures Once(persists[i := persists[i].(phase := phase)], enqueued)
  {
    hide IdOf;
  }

  lemma OncePush(persists: seq<Persist>, enqueued: seq<AudioChunk>, c: StoredChunk)
    requires Once(persists, enqueued)
    requires forall i | 0 <= i < |persists| :: IdOf(persists[i].chunk.meta) != IdOf(c.meta)
    requires forall k | 0 <= k < |enqueued| :: IdOf(enqueued[k]) != IdOf(c.meta)
    ensures Once(persists + [Persist(c, PuttingChunk)], enqueued)
  {
    hide IdOf;
  }

  /** One page changes; the log of deliveries grows by chunks of that page only. */
  lemma PageHandsOver(s: System, r: System, session: string)
    requires AllHandedOver(s) && session in r.pages && GoodHandOver(session, r.pages[session], r.log)
    requires r.pages == s.pages[session := r.pages[session]] && s.log.persisted <= r.log.persisted
    requires forall id | id in r.log.delivered :: id in s.log.delivered || id.session == session
    ensures AllHandedOver(r)
  {
    hide Once, WasDelivered, IdOf;
    forall other | other in r.pages && other != session ensures GoodHandOver(other, r.pages[other], r.log) {
      assert GoodHandOver(other, s.pages[other], s.log);
    }
  }

  lemma ChannelHandsOver(w: World, s: System, e: Event)
    requires Inv(w, s) && AllHandedOver(s) && Enabled(w, s, e) && e.OnChannel?
    ensures AllHandedOver(Step(w, s, e))
  {
    hide Inv, PlainId, Capture.Step, Capture.Enabled, Emitted, AsStored, FreshChunk, Once, WasDelivered, IdOf;
    hide AllStored;
    var p := s.pages[e.session];
    assert GoodHandOver(e.session, p, s.log);
    var st := p.channels[e.channel];
    if Emitted(st, e.event).Some? {
      var c := Emitted(st, e.event).value;
      NewChunk(w, s, e);
      OncePush(p.persists, p.queue.enqueued, c);
    }
    PageHandsOver(s, Step(w, s, e), e.session);
  }

  lemma NewChunk(w: World, s: System, e: Event)
    requires Inv(w, s) && AllHandedOver(s) && Enabled(w, s, e) && e.OnChannel?
    requires Emitted(s.pages[e.session].channels[e.channel], e.event).Some?
    ensures var p := s.pages[e.session]; var c := Emitted(p.channels[e.channel], e.event).value;
      && (forall i | 0 <= i < |p.persists| :: IdOf(p.persists[i].chunk.meta) != IdOf(c.meta))
      && (forall k | 0 <= k < |p.queue.enqueued| :: IdOf(p.queue.enqueued[k]) != IdOf(c.meta))
  {
    hide PlainId, GoodServer, GoodStore, Capture.Step, Capture.Enabled, Emitted, AsStored, GoodChannel, GoodQueue;
    hide Once, WasDelivered, IdOf, GoodChunk, Faithful, DistinctIds, CommitOf, Counted;
    var p := s.pages[e.session];
    assert GoodPage(w, e.session, p, s.log) && GoodHandOver(e.session, p, s.log);
    CrashCost.EmissionCounts(w, s, e.session, e.channel, e.event);
    var id := ChunkId(e.session, e.channel, |p.channels[e.channel].emitted|);
    NotYetCounted(s, id);
    forall i | 0 <= i < |p.persists| ensures IdOf(p.persists[i].chunk.meta) != id {
      assert GoodPersist(e.session, p.persists[i], s.log);
    }
  }

  lemma PersistHandsOver(w: World, s: System, e: Event)
    requires AllHandedOver(s) && Enabled(w, s, e)
    requires e.ChunkPut? || e.ManifestRead? || e.PersistFailed?
    ensures AllHandedOver(Step(w, s, e))
  {
    hide Once, WasDelivered, IdOf, WithoutPersist;
    var p := s.pages[e.session];
    assert GoodHandOver(e.session, p, s.log);
    match e {
      case ChunkPut(session, i) => OncePhase(p.persists, p.queue.enqueued, i, ReadingManifest);
      case ManifestRead(session, i) =>
        OncePhase(p.persists, p.queue.enqueued, i,
          WritingManifest(if session in s.manifests then Some(s.manifests[session]) else None));
      case PersistFailed(session, i) => OnceWithout(p.persists, p.queue.enqueued, i);
    }
    PageHandsOver(s, Step(w, s, e), e.session);
  }

  lemma HandedOverIs(p: Page, i: nat)
    requires i < |p.persists|
    ensures var q := HandedOver(p, i);
      && q.persists == WithoutPersist(p.persists, i) && q.queue.outcomes == p.queue.outcomes
      && q.queue.enqueued == p.queue.enqueued + if p.serverOk then [p.persists[i].chunk.meta] else []
  {
  }

  lemma WrittenHandsOver(w: World, s: System, e: Event)
    requires Inv(w, s) && AllHandedOver(s) && Enabled(w, s, e) && e.ManifestWritten?
    ensures AllHandedOver(Step(w, s, e))
  {
    hide GoodLog, GoodServer, GoodStore, GoodChannel, GoodQueue, PlainId, Counted, Once, WasDelivered, IdOf;
    hide WithoutPersist, HandedOver;
    var p := s.pages[e.session];
    assert GoodPage(w, e.session, p, s.log) && GoodPersist(e.session, p.persists[e.i], s.log);
    assert GoodHandOver(e.session, p, s.log);
    HandedOverIs(p, e.i);
    OnceWithout(p.persists, p.queue.enqueued, e.i);
    assert p.queue.enqueued + [] == p.queue.enqueued;
    PageHandsOver(s, Step(w, s, e), e.session);
  }

  /** A queue event keeps what was enqueued, and records a confirmed commit as delivered. */
  lemma QueueOutcomes(q: Queue.QueueState, e: Queue.QueueEvent)
    requires Queue.Inv(q) && Queue.Enabled(q, e) && !e.Enqueue?
    ensures var r := Queue.Step(q, e);
      && r.enqueued == q.enqueued && |q.outcomes| <= |r.outcomes| && r.outcomes[..|q.outcomes|] == q.outcomes
      && (e.CommitOk? && q.tasks != [] ==>
            && |r.outcomes| == |q.outcomes| + 1 && r.outcomes[|q.outcomes|].Delivered?
            && r.outcomes[|q.outcomes|].chunk == q.tasks[0].chunk)
  {
    hide Queue.Delay, Queue.Backoff, Mapped;
  }

  lemma DeliveredKept(a: seq<Queue.Outcome>, b: seq<Queue.Outcome>, id: ChunkId)
    requires WasDelivered(a, id) && |a| <= |b| && b[..|a|] == a
    ensures WasDelivered(b, id)
  {
    var k :| 0 <= k < |a| && a[k].Delivered? && IdOf(a[k].chunk) == id;
    assert b[k] == b[..|a|][k];
  }

  lemma QueueHandsOver(w: World, s: System, e: Event)
    requires Inv(w, s) && AllHandedOver(s) && Enabled(w, s, e) && e.OnQueue?
    ensures AllHandedOver(Step(w, s, e))
  {
    hide GoodServer, GoodStore, GoodLog, GoodChannel, PlainId, Counted, Once, WasDelivered, Queue.Step, Queue.Enabled;
    hide Queue.Inv, GoodLoop, GoodTask, Sends, AllStored;
    var p := s.pages[e.session];
    var r := Step(w, s, e);
    assert GoodPage(w, e.session, p, s.log) && GoodHandOver(e.session, p, s.log);
    QueueOutcomes(p.queue, e.queued);
    forall id | id in r.log.delivered && id.session == e.session
      ensures WasDelivered(r.pages[e.session].queue.outcomes, id) {
      if id in s.log.delivered {
        DeliveredKept(p.queue.outcomes, r.pages[e.session].queue.outcomes, id);
      } else {
        LastDelivered(r.pages[e.session].queue.outcomes, |p.queue.outcomes|, id);
      }
    }
    if p.queue.tasks != [] {
      HeadIsGood(w, e.session, p.queue, s.log);
    }
    PageHandsOver(s, r, e.session);
  }

  lemma LastDelivered(outcomes: seq<Queue.Outcome>, k: nat, id: ChunkId)
    requires k < |outcomes| && outcomes[k].Delivered? && IdOf(outcomes[k].chunk) == id
    ensures WasDelivered(outcomes, id)
  {
  }

  lemma NothingHandedOver(session: string, p: Page, l: Log)
    requires p.persists == [] && p.queue == Queue.IDLE && forall id | id in l.delivered :: id.session != session
    ensures GoodHandOver(session, p, l)
  {
  }

  lemma BeginHandsOver(w: World, s: System, e: Event)
    requires Inv(w, s) && AllHandedOver(s) && Enabled(w, s, e) && e.Begin?
    ensures AllHandedOver(Step(w, s, e))
  {
    hide GoodServer, GoodStore, GoodPages, PlainId, GoodHandOver, GoodChunk, Faithful, DistinctIds, CommitOf;
    var r := Step(w, s, e);
    NothingHandedOver(e.session, r.pages[e.session], r.log);
    hide GoodLog;
    PageHandsOver(s, r, e.session);
  }

  lemma StepHandsOver(w: World, s: System, e: Event)
    requires Inv(w, s) && AllHandedOver(s) && Enabled(w, s, e)
    ensures AllHandedOver(Step(w, s, e))
  {
    hide Inv, PlainId, Server.Handle, Server.Owns, Server.Removed, GoodHandOver;
    match e
    case Begin(_, _, _, _) => BeginHandsOver(w, s, e);
    case OnChannel(_, _, _) => ChannelHandsOver(w, s, e);
    case ChunkPut(_, _) => PersistHandsOver(w, s, e);
    case ManifestRead(_, _) => PersistHandsOver(w, s, e);
    case PersistFailed(_, _) => PersistHandsOver(w, s, e);
    case ManifestWritten(_, _, _) => WrittenHandsOver(w, s, e);
    case OnQueue(_, _) => QueueHandsOver(w, s, e);
    case Delivered(_) => SameHandOver(s, Step(w, s, e));
    case _ =>
  }

  lemma SameHandOver(s: System, r: System)
    requires AllHandedOver(s) && r.pages == s.pages
    requires r.log.delivered == s.log.delivered && r.log.persisted == s.log.persisted
    ensures AllHandedOver(r)
  {
    hide Once, WasDelivered, IdOf;
    forall other | other in r.pages ensures GoodHandOver(other, r.pages[other], r.log) {
      assert GoodHandOver(other, s.pages[other], s.log);
    }
  }

  lemma {:induction false} RunHandsOver(w: World, s: System, events: seq<Event>, r: System)
    requires Inv(w, s) && AllHandedOver(s) && Run(w, s, events, r)
    ensures AllHandedOver(r)
    decreases |events|
  {
    hide Inv, AllHandedOver, Step, Enabled;
    if events != [] {
      StepKeepsInv(w, s, events[0]);
      StepHandsOver(w, s, events[0]);
      RunHandsOver(w, Step(w, s, events[0]), events[1..], r);
    }
  }

  /**
   * A chunk the queue has given up on, after its 8 failures, is still in the local store, unless a
   * confirmed chunk of another page has its id.
   */
  lemma GivenUpKeepsLocal(w: World, s: System, session: string, k: nat)
    requires Reached(w, s) && session in s.pages && k < |s.pages[session].queue.outcomes|
    requires s.pages[session].queue.outcomes[k].GivenUp? && session !in s.discarded
    ensures var id := IdOf(s.pages[session].queue.outcomes[k].chunk);
      id.session == session && (id in s.chunks || Taken(s.log, id))
  {
    hide Run, Taken, PlainId, GoodServer, GoodChannel, GoodPersist, GoodLoop, GoodTask, Counted, IdOf;
    hide Queue.FairOutcome, Queue.Delay, Queue.Backoff;
    ReachedInv(w, s);
    var events :| Run(w, START, events, s);
    StartInv(w);
    RunHandsOver(w, START, events, s);
    var q := s.pages[session].queue;
    assert GoodPage(w, session, s.pages[session], s.log) && GoodHandOver(session, s.pages[session], s.log);
    OutcomeIsEnqueued(q, k);
    var id := IdOf(q.outcomes[k].chunk);
    if id in s.log.delivered {
      var j :| 0 <= j < |q.outcomes| && q.outcomes[j].Delivered? && IdOf(q.outcomes[j].chunk) == id;
      OneOutcome(s.pages[session].persists, q, j, k);
    }
  }

  lemma OneOutcome(persists: seq<Persist>, q: Queue.QueueState, j: nat, k: nat)
    requires Queue.Inv(q) && Once(persists, q.enqueued) && j < |q.outcomes| && k < |q.outcomes|
    ensures IdOf(q.outcomes[j].chunk) == IdOf(q.outcomes[k].chunk) ==> j == k
  {
    hide IdOf, Queue.Inv;
    OutcomeIsEnqueued(q, j);
    OutcomeIsEnqueued(q, k);
  }

  lemma OutcomeIsEnqueued(q: Queue.QueueState, k: nat)
    requires Queue.Inv(q) && k < |q.outcomes|
    ensures k < |q.enqueued| && q.enqueued[k] == q.outcomes[k].chunk
  {
    hide Queue.FairOutcome, Queue.Delay, Queue.Backoff;
    assert Mapped(q.outcomes, Queue.Concluded)[k] == q.outcomes[k].chunk;
  }
}
