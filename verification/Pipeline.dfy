/**
 * The whole durability pipeline as one transition system. Every await of the client is a
 * suspension point; the environment picks which promise settles next, which requests the
 * network delivers (any number of times, with or without the reply arriving), what other users
 * do, and when a page crashes.
 */
module Pipeline {
  import opened Wrappers
  import opened Common
  import opened RecoveryStore
  import Capture
  import Keys
  import Queue = UploadQueue
  import Server
  import Text

  /** Which await of `persistChunk` a finalised chunk is at. */
  datatype Phase = PuttingChunk | ReadingManifest | WritingManifest(copy: Option<Manifest>)

  datatype Persist = Persist(chunk: StoredChunk, phase: Phase)

  /** What a page holds in memory for its session: all of it is lost in a crash. */
  datatype Page = Page(
    channels: map<string, Capture.ChannelState>, persists: seq<Persist>, queue: Queue.QueueState, serverOk: bool)

  /**
   * What has happened so far, for stating properties: every chunk finalised, those whose
   * `putChunk` completed, those whose commit was confirmed to the client, and the requests
   * sent and answered.
   */
  datatype Log = Log(
    finalized: map<ChunkId, StoredChunk>, persisted: set<ChunkId>, delivered: set<ChunkId>,
    sent: set<Server.Request>, acked: set<Server.Request>)

  datatype System = System(
    pages: map<string, Page>, chunks: map<ChunkId, StoredChunk>, manifests: map<string, Manifest>,
    server: Server.ServerState, log: Log, failed: set<ChunkId>,
    started: set<string>, closed: set<string>, discarded: set<string>, removed: set<string>)

  /** The server's configuration and the user whose pages these are. */
  datatype World = World(cfg: Server.Config, owner: string)

  datatype Event =
    | Begin(session: string, channels: set<string>, manifest: Manifest, serverOk: bool)
    | OnChannel(session: string, channel: string, event: Capture.ChannelEvent)
    | ChunkPut(session: string, i: nat)
    | ManifestRead(session: string, i: nat)
    | ManifestWritten(session: string, i: nat, now: string)
    | PersistFailed(session: string, i: nat)
    | OnQueue(session: string, queued: Queue.QueueEvent)
    | Reclaimed(session: string, gone: Option<ChunkId>)
    | Delivered(request: Server.Request)
    | Requested(request: Server.Request)
    | RecordingRemoved(id: string)
    | MarkedClosed(session: string, now: string)
    | Discarded(session: string)
    | Crashed(session: string)

  const NOTHING := Log(map[], {}, {}, {}, {})
  const START := System(map[], map[], map[], Server.EMPTY, NOTHING, {}, {}, {}, {}, {})

  // ---- what the client sends ----

  function TicketKey(w: World, id: ChunkId): string {
    Keys.BuildChunkKey(w.owner, id.session, id.channel, id.sequence)
  }

  function Dto(w: World, c: StoredChunk): Server.CommitDto {
    var m := c.meta;
    Server.CommitDto(m.sessionId, m.channel, m.sequence, m.startOffsetMs, m.durationMs, m.byteLength, m.mimeType,
      Some(w.cfg.sha(c.data)), TicketKey(w, IdOf(m)))
  }

  function PutOf(w: World, c: StoredChunk): Server.Request {
    Server.Put(w.owner, TicketKey(w, IdOf(c.meta)), c.data)
  }

  function CommitOf(w: World, c: StoredChunk): Server.Request {
    Server.CommitChunk(w.owner, Dto(w, c))
  }

  /** Ids a key can be built from without change, as the recorder's UUIDs and channel names are. */
  predicate PlainSlot(id: ChunkId) {
    Keys.PlainId(id.session) && Keys.PlainId(id.channel) && id.sequence <= Keys.MAX_SEQUENCE
  }

  // ---- steps of a page ----

  /** `persistChunk` stores the finalised chunk with status 'stored' and its parts as one blob. */
  function AsStored(c: Capture.Finalized<Bytes>): StoredChunk {
    StoredChunk(c.meta.(status := ChunkStatus.Stored), Text.Flatten(c.parts))
  }

  /** The chunk a channel event finalises, if it does. */
  function Emitted(st: Capture.ChannelState, e: Capture.ChannelEvent): Option<StoredChunk> {
    if e.Stopped? && st.buffer.parts != [] then
      Some(AsStored(Capture.ChunkOf(st.opts, st.buffer, e.offsetMs, e.id, e.now)))
    else None
  }

  function WithoutPersist(persists: seq<Persist>, i: nat): seq<Persist>
    requires i < |persists|
  {
    persists[..i] + persists[i + 1..]
  }

  predicate HasPersist(s: System, session: string, i: nat) {
    session in s.pages && i < |s.pages[session].persists|
  }

  function PersistAt(s: System, session: string, i: nat): Persist
    requires HasPersist(s, session, i)
  {
    s.pages[session].persists[i]
  }

  function WithPage(s: System, session: string, p: Page): System {
    s.(pages := s.pages[session := p])
  }

  function InPhase(s: System, session: string, i: nat, phase: Phase): System
    requires HasPersist(s, session, i)
  {
    var p := s.pages[session];
    WithPage(s, session, p.(persists := p.persists[i := p.persists[i].(phase := phase)]))
  }

  /** The task a queue event is about. */
  function Head(q: Queue.QueueState): StoredChunk
    requires q.tasks != []
  {
    StoredChunk(q.tasks[0].chunk, q.tasks[0].blob)
  }

  /** What the network must have answered before the promise of a queue event can settle well. */
  predicate Answered(w: World, s: System, q: Queue.QueueState, e: Queue.QueueEvent) {
    match e
    case Enqueue(_, _) => false
    case TargetOk(_, key) => q.tasks != [] && Keys.SanitizeKey(TicketKey(w, IdOf(Head(q).meta))) == Ok(key)
    case UploadOk(_) => q.tasks != [] && PutOf(w, Head(q)) in s.log.acked
    case CommitOk(_) => q.tasks != [] && CommitOf(w, Head(q)) in s.log.acked
    case AttemptFailed(_) => true
    case Settled(_) => true
  }

  /** The request a queue event makes the client send. */
  function Sends(w: World, q: Queue.QueueState, e: Queue.QueueEvent): set<Server.Request> {
    if q.tasks == [] then {}
    else if e.TargetOk? then {Server.Put(w.owner, e.key, Head(q).data)}
    else if e.UploadOk? then {CommitOf(w, Head(q))}
    else {}
  }

  predicate Enabled(w: World, s: System, e: Event) {
    match e
    case Begin(session, channels, manifest, _) =>
      && Keys.PlainId(session) && (forall ch | ch in channels :: Keys.PlainId(ch)) && session !in s.started
      && manifest.sessionId == session && IsOpen(manifest)
    case OnChannel(session, channel, event) =>
      && session in s.pages && channel in s.pages[session].channels
      && Capture.Enabled(s.pages[session].channels[channel], event)
      && (event.Stopped? ==> FreshChunk(s, s.pages[session].channels[channel], event.id))
    case ChunkPut(session, i) => HasPersist(s, session, i) && PersistAt(s, session, i).phase.PuttingChunk?
    case ManifestRead(session, i) => HasPersist(s, session, i) && PersistAt(s, session, i).phase.ReadingManifest?
    case ManifestWritten(session, i, _) => HasPersist(s, session, i) && PersistAt(s, session, i).phase.WritingManifest?
    case PersistFailed(session, i) => HasPersist(s, session, i)
    case OnQueue(session, queued) =>
      session in s.pages && Queue.Enabled(s.pages[session].queue, queued) &&
        Answered(w, s, s.pages[session].queue, queued)
    case Reclaimed(session, gone) =>
      session in s.pages && Deleting(s.pages[session].queue) &&
        Matches(s.chunks, s.pages[session].queue.loops[0].at.chunkId, gone)
    case Delivered(request) => request in s.log.sent
    case Requested(request) =>
      if request.ownerId == w.owner then request.Open? || request.CompleteRecording?
      else Keys.PlainId(request.ownerId)
    case RecordingRemoved(id) => Server.Owns(s.server, w.owner, id).None?
    case MarkedClosed(_, now) => now != ""
    case Discarded(session) => Keys.PlainId(session)
    case Crashed(_) => true
  }

  /** A chunk that `deleteChunk` may find first: one with the id, or none if there is none. */
  predicate Matches(chunks: map<ChunkId, StoredChunk>, chunkId: string, gone: Option<ChunkId>) {
    match gone
    case Some(id) => id in chunks && chunks[id].meta.id == chunkId
    case None => forall id | id in chunks :: chunks[id].meta.id != chunkId
  }

  predicate Deleting(q: Queue.QueueState) {
    q.loops != [] && q.loops[0].at.Deleting?
  }

  /** The chunk id is new to its page, and the sequence number one JavaScript counts exactly. */
  predicate FreshChunk(s: System, st: Capture.ChannelState, id: string) {
    && st.buffer.sequence <= Keys.MAX_SEQUENCE
    && forall c | c in s.log.finalized && c.session == st.opts.sessionId :: s.log.finalized[c].meta.id != id
  }

  /** A finished `persistChunk`: the chunk is handed to the queue if the server is known to be there. */
  function HandedOver(p: Page, i: nat): Page
    requires i < |p.persists|
  {
    var c := p.persists[i].chunk;
    p.(persists := WithoutPersist(p.persists, i),
       queue := if p.serverOk then Queue.Step(p.queue, Queue.Enqueue(c.meta, c.data)) else p.queue)
  }

  function AfterChannel(s: System, session: string, channel: string, e: Capture.ChannelEvent): System
    requires session in s.pages && channel in s.pages[session].channels
    requires Capture.Enabled(s.pages[session].channels[channel], e)
  {
    var p := s.pages[session];
    var st := p.channels[channel];
    var q := p.(channels := p.channels[channel := Capture.Step(st, e)]);
    match Emitted(st, e)
    case None => WithPage(s, session, q)
    case Some(c) =>
      WithPage(s, session, q.(persists := p.persists + [Persist(c, PuttingChunk)]))
        .(log := s.log.(finalized := s.log.finalized[IdOf(c.meta) := c]))
  }

  function AfterQueue(w: World, s: System, session: string, e: Queue.QueueEvent): System
    requires session in s.pages && Queue.Enabled(s.pages[session].queue, e)
  {
    var p := s.pages[session];
    var q := p.queue;
    WithPage(s, session, p.(queue := Queue.Step(q, e)))
      .(log := s.log.(sent := s.log.sent + Sends(w, q, e),
                      delivered := s.log.delivered + if e.CommitOk? && q.tasks != [] then {IdOf(Head(q).meta)} else {}))
  }

  function Step(w: World, s: System, e: Event): System
    requires Enabled(w, s, e)
  {
    match e
    case Begin(session, channels, manifest, serverOk) =>
      var page := Page(
        map ch | ch in channels ::
          Capture.Fresh(Capture.Options(session, ch, manifest.chunkDurationMs, manifest.mimeType)),
        [], Queue.IDLE, serverOk);
      WithPage(s, session, page).(manifests := s.manifests[session := manifest], started := s.started + {session})
    case OnChannel(session, channel, event) => AfterChannel(s, session, channel, event)
    case ChunkPut(session, i) =>
      var c := PersistAt(s, session, i).chunk;
      InPhase(s, session, i, ReadingManifest)
        .(chunks := s.chunks[IdOf(c.meta) := c], log := s.log.(persisted := s.log.persisted + {IdOf(c.meta)}))
    case ManifestRead(session, i) =>
      InPhase(s, session, i, WritingManifest(if session in s.manifests then Some(s.manifests[session]) else None))
    case ManifestWritten(session, i, now) =>
      var copy := PersistAt(s, session, i).phase.copy;
      WithPage(s, session, HandedOver(s.pages[session], i))
        .(manifests := if copy.Some? then s.manifests[session := copy.value.(updatedAt := now)] else s.manifests)
    case PersistFailed(session, i) =>
      var p := s.pages[session];
      var lost := if p.persists[i].phase.PuttingChunk? then {IdOf(p.persists[i].chunk.meta)} else {};
      WithPage(s, session, p.(persists := WithoutPersist(p.persists, i))).(failed := s.failed + lost)
    case OnQueue(session, queued) => AfterQueue(w, s, session, queued)
    case Reclaimed(_, gone) => if gone.Some? then s.(chunks := s.chunks - {gone.value}) else s
    case Delivered(request) =>
      match Server.Handle(w.cfg, s.server, request) {
        case Ok(server) => s.(server := server, log := s.log.(acked := s.log.acked + {request}))
        case Err(_) => s
      }
    case Requested(request) => s.(server := Server.After(s.server, Server.Handle(w.cfg, s.server, request)))
    case RecordingRemoved(id) => s.(server := Server.Removed(s.server, id), removed := s.removed + {id})
    case MarkedClosed(session, now) =>
      if session in s.manifests then
        s.(manifests := s.manifests[session := s.manifests[session].(closedAt := Some(now), updatedAt := now)],
           closed := s.closed + {session})
      else s
    case Discarded(session) =>
      s.(manifests := s.manifests - {session}, chunks := WithoutSession(s.chunks, session),
         discarded := s.discarded + {session})
    case Crashed(session) => s.(pages := s.pages - {session})
  }

  /** Events that neither store nor delete a local chunk. */
  predicate LeavesChunks(e: Event) {
    !e.ChunkPut? && !e.Reclaimed? && !e.Discarded?
  }

  /** `r` is where the events lead from `s`, each enabled in its turn. */
  ghost predicate Run(w: World, s: System, events: seq<Event>, r: System)
    decreases |events|
  {
    if events == [] then r == s
    else Enabled(w, s, events[0]) && Run(w, Step(w, s, events[0]), events[1..], r)
  }
}
