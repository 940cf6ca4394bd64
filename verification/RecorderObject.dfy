/** The recorder as an object: its channels, its clock, its totals and its store. */
module RecorderObject {
  import opened Wrappers
  import opened Common
  import opened RecoveryStore
  import opened Recorder
  import Capture

  /** The await of `persistChunk` that rejects, if one does. */
  datatype PersistOutcome = PutRejects | ReadRejects | WriteRejects | AllResolve

  class AudioRecorder {
    const sessionId: string
    const store: MemoryRecoveryStore
    var state: Lifecycle
    var channels: seq<Capture.ChannelRecorder>
    var startTimestamp: real
    var pausedAccumMs: real
    var pausedAt: real
    var chunkCount: nat
    var sizeBytes: nat

    constructor (sessionId: string, store: MemoryRecoveryStore)
      ensures this.sessionId == sessionId && this.store == store
      ensures ClockState() == NEW_CLOCK && channels == [] && chunkCount == 0 && sizeBytes == 0
    {
      this.sessionId, this.store := sessionId, store;
      state, channels := Idle, [];
      startTimestamp, pausedAccumMs, pausedAt := 0.0, 0.0, 0.0;
      chunkCount, sizeBytes := 0, 0;
    }

    function ClockState(): Clock
      reads this
    {
      Clock(state, startTimestamp, pausedAccumMs, pausedAt)
    }

    /** The channels are separate objects, each in a good state. */
    ghost predicate Valid()
      reads this, channels, set c | c in channels :: c.buffer
    {
      && (forall i | 0 <= i < |channels| :: channels[i].Valid())
      && (forall i, j | 0 <= i < j < |channels| :: channels[i] != channels[j])
    }

    method GetOffsetMs(now: real) returns (offset: real)
      ensures offset == Offset(ClockState(), now)
    {
      if startTimestamp == 0.0 {
        return 0.0;
      }
      var base := now - startTimestamp - pausedAccumMs;
      offset := if base < 0.0 then 0.0 else base;
    }

    static method Tell(c: Capture.ChannelRecorder, e: Capture.ChannelEvent)
      requires c.Valid() && (e.Pause? || e.Resume? || e.Stop? || e.RotateTick?)
      modifies c
      ensures c.Valid() && c.State() == Capture.Step(old(c.State()), e)
    {
      hide Capture.Step, Capture.Inv;
      match e
      case Pause => c.PauseChannel();
      case Resume => c.ResumeChannel();
      case Stop => c.StopChannel();
      case RotateTick => c.RotateChannel();
    }

    /** `channels.forEach((c) => c.pause())`, and likewise for the other commands. */
    method ForEachChannel(e: Capture.ChannelEvent)
      requires Valid() && (e.Pause? || e.Resume? || e.Stop? || e.RotateTick?)
      modifies channels
      ensures Valid()
      ensures forall i | 0 <= i < |channels| :: channels[i].State() == Capture.Step(old(channels[i].State()), e)
    {
      hide Capture.Step, Capture.Inv;
      for i := 0 to |channels|
        invariant Valid()
        invariant forall k | 0 <= k < i :: channels[k].State() == Capture.Step(old(channels[k].State()), e)
        invariant forall k | i <= k < |channels| :: channels[k].State() == old(channels[k].State())
      {
        Tell(channels[i], e);
      }
    }

    method PauseRecording(now: real)
      requires Valid()
      modifies this, channels
      ensures Valid() && channels == old(channels) && ClockState() == Step(old(ClockState()), Timed(now, Pause))
      ensures forall i | 0 <= i < |channels| ::
        channels[i].State() == ChannelAfter(old(ClockState()), old(channels[i].State()), Timed(now, Pause))
    {
      hide Capture.Step, Capture.Inv;
      if !state.Running? {
        return;
      }
      ForEachChannel(Capture.Pause);
      pausedAt := now;
      state := Paused;
    }

    method ResumeRecording(now: real)
      requires Valid()
      modifies this, channels
      ensures Valid() && channels == old(channels) && ClockState() == Step(old(ClockState()), Timed(now, Resume))
      ensures forall i | 0 <= i < |channels| ::
        channels[i].State() == ChannelAfter(old(ClockState()), old(channels[i].State()), Timed(now, Resume))
    {
      hide Capture.Step, Capture.Inv;
      if !state.Paused? {
        return;
      }
      pausedAccumMs := pausedAccumMs + (now - pausedAt);
      ForEachChannel(Capture.Resume);
      state := Running;
    }

    /** The synchronous part of `stop`: the last chunks are finalised by the stop events that follow. */
    method BeginStop(now: real)
      requires Valid()
      modifies this, channels
      ensures Valid() && channels == old(channels) && ClockState() == Step(old(ClockState()), Timed(now, Stop))
      ensures forall i | 0 <= i < |channels| ::
        channels[i].State() == ChannelAfter(old(ClockState()), old(channels[i].State()), Timed(now, Stop))
    {
      hide Capture.Step, Capture.Inv;
      if !state.Running? && !state.Paused? {
        return;
      }
      state := Stopping;
      ForEachChannel(Capture.Stop);
    }

    /** The rest of `stop`, once its wait is over: the session is closed. */
    method FinishStop(now: real, closedAt: string)
      requires store.Valid() && state.Stopping?
      modifies this, store
      ensures store.Valid() && store.chunks == old(store.chunks) &&
        ClockState() == Step(old(ClockState()), Timed(now, Finish))
      ensures sessionId in old(store.manifests).at && closedAt != "" ==>
        sessionId in store.manifests.at && !IsOpen(store.manifests.at[sessionId])
    {
      store.MarkClosed(sessionId, closedAt);
      state := Stopped;
    }

    /**
     * `start`: the manifest is written first, so that a crash from then on leaves a recoverable
     * session; then one recorder per channel starts.
     */
    method StartRecording(manifest: Manifest, opts: seq<Capture.Options>, now: real, putRejects: bool)
      returns (started: bool)
      requires store.Valid() && channels == [] && manifest.sessionId == sessionId
      modifies this, store
      ensures store.Valid() && store.chunks == old(store.chunks)
      ensures started <==> old(state).Idle? && !putRejects && opts != []
      ensures old(state).Idle? && !putRejects ==> store.manifests == old(store.manifests).Put(sessionId, manifest)
      ensures !old(state).Idle? || putRejects ==> store.manifests == old(store.manifests)
      ensures !old(state).Idle? ==> ClockState() == old(ClockState())
      ensures old(state).Idle? ==>
        ClockState() == Step(Step(old(ClockState()), Timed(now, Start)),
          Timed(now, if started then Ready else Abort(!putRejects)))
      ensures Valid() && (forall c | c in channels :: fresh(c))
      ensures started ==> |channels| == |opts|
      ensures started ==>
        forall i | 0 <= i < |opts| :: channels[i].State() == Capture.Step(Capture.Fresh(opts[i]), Capture.Start)
    {
      hide Capture.Step, Capture.Inv, Capture.Fresh;
      started := false;
      if !state.Idle? {
        return;
      }
      state := Starting;
      if putRejects {
        state := Errored;
        return;
      }
      store.PutManifest(manifest);
      startTimestamp := now;
      if |opts| == 0 {
        state := Errored;
        return;
      }
      BuildChannels(opts);
      StartChannels(opts);
      state := Running;
      started := true;
    }

    method BuildChannels(opts: seq<Capture.Options>)
      requires channels == []
      modifies this`channels
      ensures Valid() && |channels| == |opts| && forall c | c in channels :: fresh(c) && fresh(c.buffer)
      ensures forall i | 0 <= i < |opts| :: channels[i].State() == Capture.Fresh(opts[i])
    {
      hide Capture.Inv;
      for i := 0 to |opts|
        invariant Valid() && |channels| == i && forall c | c in channels :: fresh(c) && fresh(c.buffer)
        invariant forall k | 0 <= k < i :: channels[k].State() == Capture.Fresh(opts[k])
      {
        var c := new Capture.ChannelRecorder(opts[i]);
        assert forall k | 0 <= k < i :: channels[k] in channels && channels[k] != c;
        channels := channels + [c];
      }
    }

    method StartChannels(ghost opts: seq<Capture.Options>)
      requires Valid() && |channels| == |opts|
      requires forall i | 0 <= i < |opts| :: channels[i].State() == Capture.Fresh(opts[i])
      modifies channels
      ensures Valid()
      ensures forall i | 0 <= i < |opts| :: channels[i].State() == Capture.Step(Capture.Fresh(opts[i]), Capture.Start)
    {
      hide Capture.Step, Capture.Inv;
      for i := 0 to |channels|
        invariant Valid()
        invariant forall k | 0 <= k < i :: channels[k].State() == Capture.Step(Capture.Fresh(opts[k]), Capture.Start)
        invariant forall k | i <= k < |channels| :: channels[k].State() == Capture.Fresh(opts[k])
      {
        channels[i].StartCapture();
      }
    }

    /**
     * `persistChunk`: a chunk is counted and handed to the upload only when it is in the store
     * unchanged but for its status; when it cannot be stored the store is as it was.
     */
    method PersistChunk(meta: AudioChunk, blob: Bytes, now: string, outcome: PersistOutcome)
      returns (ready: Option<StoredChunk>)
      requires store.Valid()
      modifies this, store
      ensures store.Valid() && ClockState() == old(ClockState()) && channels == old(channels)
      ensures ready.Some? <==> outcome.AllResolve?
      ensures ready.Some? ==>
        && ready.value == StoredChunk(meta.(status := ChunkStatus.Stored), blob) && Holds(store.chunks, ready.value)
        && chunkCount == old(chunkCount) + 1 && sizeBytes == old(sizeBytes) + meta.byteLength
      ensures ready.None? ==> chunkCount == old(chunkCount) && sizeBytes == old(sizeBytes)
      ensures outcome.PutRejects? ==> store.chunks == old(store.chunks)
      ensures !outcome.PutRejects? ==>
        store.chunks == old(store.chunks).Put(ChunkKey(meta), StoredChunk(meta.(status := ChunkStatus.Stored), blob))
      ensures ready.None? ==> store.manifests == old(store.manifests)
      ensures ready.Some? && sessionId in old(store.manifests).at ==>
        store.manifests == old(store.manifests).Put(sessionId, old(store.manifests).at[sessionId].(updatedAt := now))
    {
      hide KeyOf;
      ready := None;
      var stored := StoredChunk(meta.(status := ChunkStatus.Stored), blob);
      if outcome.PutRejects? {
        return;
      }
      store.PutChunk(stored);
      if outcome.ReadRejects? {
        return;
      }
      var manifest := store.GetManifest(sessionId);
      if outcome.WriteRejects? {
        return;
      }
      if manifest.Some? {
        store.PutManifest(manifest.value.(updatedAt := now));
      }
      chunkCount := chunkCount + 1;
      sizeBytes := sizeBytes + meta.byteLength;
      ready := Some(stored);
    }
  }
}
