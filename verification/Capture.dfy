/**
 * Capture of one channel: the chunk buffer and the stop/respawn machine around the encoder.
 * The encoder is an environment: it produces bytes while it records, hands over what it holds as a
 * part of data, and after a stop produces its last bytes, hands them over and fires its stop event.
 */
module Capture {
  import opened Wrappers
  import opened Common
  import Text

  // ---- the chunk buffer ----

  datatype Options = Options(sessionId: string, channel: string, chunkDurationMs: nat, mimeType: string)

  datatype Finalized<T> = Finalized(meta: AudioChunk, parts: seq<T>)

  datatype BufferState<T> = BufferState(sequence: nat, parts: seq<T>, bytes: nat, chunkStartOffsetMs: real)

  /** `Math.round`. */
  function Round(x: real): (r: int)
    ensures x - 0.5 < r as real <= x + 0.5
  {
    (x + 0.5).Floor
  }

  function Max0(x: int): nat {
    if x < 0 then 0 else x
  }

  function Added<T>(b: BufferState<T>, part: T, size: nat): BufferState<T> {
    b.(parts := b.parts + [part], bytes := b.bytes + size)
  }

  function ChunkOf<T>(o: Options, b: BufferState<T>, endOffsetMs: real, id: string, now: string): Finalized<T> {
    Finalized(
      AudioChunk(id, o.sessionId, o.channel, b.sequence, Captured, Round(b.chunkStartOffsetMs),
        Max0(Round(endOffsetMs - b.chunkStartOffsetMs)), b.bytes, o.mimeType, now),
      b.parts)
  }

  function Rotated<T>(b: BufferState<T>, endOffsetMs: real): BufferState<T> {
    if b.parts == [] then b else BufferState(b.sequence + 1, [], 0, endOffsetMs)
  }

  /** The rotation state machine of a single channel, generic over the encoder's parts. */
  class ChunkBuffer<T> {
    const opts: Options
    var sequence: nat
    var parts: seq<T>
    var bytes: nat
    var chunkStartOffsetMs: real

    constructor (opts: Options)
      ensures this.opts == opts && State() == BufferState(0, [], 0, 0.0)
    {
      this.opts := opts;
      sequence, parts, bytes, chunkStartOffsetMs := 0, [], 0, 0.0;
    }

    function State(): BufferState<T>
      reads this
    {
      BufferState(sequence, parts, bytes, chunkStartOffsetMs)
    }

    method AddPart(part: T, size: nat)
      modifies this
      ensures State() == Added(old(State()), part, size)
    {
      parts := parts + [part];
      bytes := bytes + size;
    }

    /** Exactly when something is buffered and the chunk has lasted its duration. */
    method ShouldRotate(nowMs: real) returns (due: bool)
      ensures due <==> parts != [] && nowMs >= chunkStartOffsetMs + opts.chunkDurationMs as real
    {
      if |parts| == 0 {
        return false;
      }
      due := nowMs - chunkStartOffsetMs >= opts.chunkDurationMs as real;
    }

    /** Finalises what is buffered; an empty buffer is left alone. */
    method Rotate(endOffsetMs: real, id: string, now: string) returns (r: Option<Finalized<T>>)
      modifies this
      ensures State() == Rotated(old(State()), endOffsetMs)
      ensures r == if old(parts) == [] then None else Some(ChunkOf(opts, old(State()), endOffsetMs, id, now))
    {
      if |parts| == 0 {
        return None;
      }
      var durationMs := Max0(Round(endOffsetMs - chunkStartOffsetMs));
      var meta := AudioChunk(id, opts.sessionId, opts.channel, sequence, Captured,
        Round(chunkStartOffsetMs), durationMs, bytes, opts.mimeType, now);
      r := Some(Finalized(meta, parts));
      sequence := sequence + 1;
      parts := [];
      bytes := 0;
      chunkStartOffsetMs := endOffsetMs;
    }
  }

  // ---- the channel recorder ----

  /**
   * One encoder session and the bytes it has not handed over; a `Draining` one was stopped and still
   * fires what data it has, and its stop event.
   */
  datatype Encoder = Live(paused: bool, held: Bytes) | Draining(held: Bytes) | Ended

  /**
   * A channel: every encoder ever spawned, the buffer, and logs of the bytes encoded, the parts that
   * came in and the chunks that went out.
   */
  datatype ChannelState = ChannelState(
    opts: Options, active: bool, finalizing: bool, encoders: seq<Encoder>, buffer: BufferState<Bytes>,
    encoded: Bytes, received: seq<Bytes>, emitted: seq<Finalized<Bytes>>)

  datatype ChannelEvent =
    | Start
    | Encode(encoder: nat, bytes: Bytes)
    | Data(encoder: nat, part: Bytes)
    | Stopped(encoder: nat, offsetMs: real, id: string, now: string)
    | TrackEnded(encoder: nat)
    | RotateTick
    | Pause
    | Resume
    | Stop

  function Fresh(o: Options): ChannelState {
    ChannelState(o, false, false, [], BufferState(0, [], 0, 0.0), [], [], [])
  }

  function Held(e: Encoder): Bytes {
    if e.Ended? then [] else e.held
  }

  /** Sound is encoded while recording and not paused; a stopped encoder may still complete its output. */
  predicate Encodes(e: Encoder) {
    e.Draining? || (e.Live? && !e.paused)
  }

  /**
   * What the environment may do: an encoder hands over all it holds, also while paused, and fires
   * its stop event last.
   */
  predicate Enabled(s: ChannelState, e: ChannelEvent) {
    match e
    case Start => s.encoders == []
    case Encode(i, _) => i < |s.encoders| && Encodes(s.encoders[i])
    case Data(i, part) => i < |s.encoders| && !s.encoders[i].Ended? && part == s.encoders[i].held
    case Stopped(i, _, _, _) => i < |s.encoders| && s.encoders[i] == Draining([])
    case TrackEnded(i) => i < |s.encoders| && s.encoders[i].Live?
    case _ => true
  }

  function Last(s: ChannelState): Encoder {
    if s.encoders == [] then Ended else s.encoders[|s.encoders| - 1]
  }

  function WithLast(s: ChannelState, e: Encoder): ChannelState
    requires s.encoders != []
  {
    s.(encoders := s.encoders[|s.encoders| - 1 := e])
  }

  function Spawned(s: ChannelState): ChannelState {
    s.(encoders := s.encoders + [Live(false, [])])
  }

  function Received(s: ChannelState, part: Bytes): ChannelState {
    if |part| == 0 then s
    else s.(buffer := Added(s.buffer, part, |part|), received := s.received + [part])
  }

  function Produced(s: ChannelState, i: nat, bytes: Bytes): ChannelState
    requires i < |s.encoders| && !s.encoders[i].Ended?
  {
    var e := s.encoders[i];
    s.(encoders := s.encoders[i := e.(held := e.held + bytes)], encoded := s.encoded + bytes)
  }

  function HandleStop(s: ChannelState, offsetMs: real, id: string, now: string): ChannelState {
    var emitted := if s.buffer.parts == [] then s.emitted
                   else s.emitted + [ChunkOf(s.opts, s.buffer, offsetMs, id, now)];
    var r := s.(buffer := Rotated(s.buffer, offsetMs), emitted := emitted, finalizing := false);
    if s.active then Spawned(r) else r
  }

  function Step(s: ChannelState, e: ChannelEvent): ChannelState
    requires Enabled(s, e)
  {
    match e
    case Start => Spawned(s.(active := true))
    case Encode(i, bytes) => Produced(s, i, bytes)
    case Data(i, part) => Received(s.(encoders := s.encoders[i := s.encoders[i].(held := [])]), part)
    case Stopped(i, offsetMs, id, now) =>
      HandleStop(s.(encoders := s.encoders[i := Ended]), offsetMs, id, now)
    case TrackEnded(i) => s.(encoders := s.encoders[i := Draining(s.encoders[i].held)])
    case RotateTick =>
      if s.active && !s.finalizing && Last(s).Live? then
        WithLast(s.(finalizing := true), Draining(Last(s).held))
      else s
    case Pause => if Last(s).Live? then WithLast(s, Live(true, Last(s).held)) else s
    case Resume => if Last(s).Live? then WithLast(s, Live(false, Last(s).held)) else s
    case Stop =>
      var r := s.(active := false);
      if Last(r).Live? then WithLast(r, Draining(Last(r).held)) else r
  }

  /** `r` is where the events lead from `s`, each enabled in its turn. */
  ghost predicate Run(s: ChannelState, events: seq<ChannelEvent>, r: ChannelState)
    decreases |events|
  {
    if events == [] then r == s
    else Enabled(s, events[0]) && Run(Step(s, events[0]), events[1..], r)
  }

  lemma RunPush(s: ChannelState, e: ChannelEvent, t: ChannelState, events: seq<ChannelEvent>, r: ChannelState)
    requires Enabled(s, e) && t == Step(s, e) && Run(t, events, r)
    ensures Run(s, [e] + events, r)
  {
    hide Step;
    assert ([e] + events)[1..] == events;
  }

  // ---- conservation ----

  function Sizes(parts: seq<Bytes>): nat {
    if parts == [] then 0 else Sizes(parts[..|parts| - 1]) + |parts[|parts| - 1]|
  }

  function PartsOf(chunks: seq<Finalized<Bytes>>): seq<Bytes> {
    if chunks == [] then [] else PartsOf(chunks[..|chunks| - 1]) + chunks[|chunks| - 1].parts
  }

  ghost predicate GoodChunk(o: Options, c: Finalized<Bytes>, k: nat) {
    && c.meta.sequence == k && c.meta.sessionId == o.sessionId && c.meta.channel == o.channel
    && c.meta.status == Captured && c.meta.mimeType == o.mimeType
    && c.parts != [] && c.meta.byteLength == Sizes(c.parts)
    && (forall i | 0 <= i < |c.parts| :: c.parts[i] != [])
  }

  /** Nothing captured is lost or reordered, and sequence numbers are exactly 0, 1, 2, ... */
  ghost predicate Conserved(s: ChannelState) {
    && PartsOf(s.emitted) + s.buffer.parts == s.received
    && s.buffer.bytes == Sizes(s.buffer.parts)
    && s.buffer.sequence == |s.emitted|
    && (forall k | 0 <= k < |s.emitted| :: GoodChunk(s.opts, s.emitted[k], k))
    && (forall i | 0 <= i < |s.buffer.parts| :: s.buffer.parts[i] != [])
  }

  /** At most the last encoder is not finished, and the flags say what it is doing. */
  ghost predicate OneEncoder(s: ChannelState) {
    && (forall i | 0 <= i < |s.encoders| - 1 :: s.encoders[i] == Ended)
    && (s.active ==> !Last(s).Ended?)
    && (!s.active ==> !Last(s).Live?)
    && (s.finalizing ==> Last(s).Draining?)
    && (Last(s).Ended? ==> s.buffer.parts == [])
  }

  /** Every byte encoded was handed over, in order, but for what the last encoder holds. */
  ghost predicate HandedOver(s: ChannelState) {
    s.encoded == Text.Flatten(s.received) + Held(Last(s))
  }

  ghost predicate Inv(s: ChannelState) {
    Conserved(s) && OneEncoder(s) && HandedOver(s)
  }

  lemma SizesPush(parts: seq<Bytes>, part: Bytes)
    ensures Sizes(parts + [part]) == Sizes(parts) + |part|
  {
    assert (parts + [part])[..|parts|] == parts;
  }

  lemma PartsOfPush(chunks: seq<Finalized<Bytes>>, c: Finalized<Bytes>)
    ensures PartsOf(chunks + [c]) == PartsOf(chunks) + c.parts
  {
    assert (chunks + [c])[..|chunks|] == chunks;
  }

  lemma ReceivedConserves(s: ChannelState, part: Bytes)
    requires Conserved(s)
    ensures Conserved(Received(s, part))
  {
    hide GoodChunk, PartsOf;
    SizesPush(s.buffer.parts, part);
    assert PartsOf(s.emitted) + (s.buffer.parts + [part]) == PartsOf(s.emitted) + s.buffer.parts + [part];
  }

  lemma HandleStopConserves(s: ChannelState, offsetMs: real, id: string, now: string)
    requires Conserved(s)
    ensures Conserved(HandleStop(s, offsetMs, id, now))
  {
    hide GoodChunk, PartsOf, Sizes, Round;
    var c := ChunkOf(s.opts, s.buffer, offsetMs, id, now);
    var r := HandleStop(s, offsetMs, id, now);
    NothingBuffered();
    assert PartsOf(r.emitted) + [] == PartsOf(r.emitted);
    if s.buffer.parts != [] {
      PartsOfPush(s.emitted, c);
      EmittedIsGood(s, offsetMs, id, now);
    }
  }

  lemma NothingBuffered()
    ensures Sizes([]) == 0
  {
  }

  lemma EmittedIsGood(s: ChannelState, offsetMs: real, id: string, now: string)
    requires Conserved(s) && s.buffer.parts != []
    ensures GoodChunk(s.opts, ChunkOf(s.opts, s.buffer, offsetMs, id, now), |s.emitted|)
  {
    hide PartsOf, Sizes, Round;
  }

  lemma StepConserves(s: ChannelState, e: ChannelEvent)
    requires Conserved(s) && Enabled(s, e)
    ensures Conserved(Step(s, e))
  {
    match e
    case Data(i, part) => ReceivedConserves(s.(encoders := s.encoders[i := s.encoders[i].(held := [])]), part);
    case Stopped(i, offsetMs, id, now) =>
      HandleStopConserves(s.(encoders := s.encoders[i := Ended]), offsetMs, id, now);
    case _ =>
      var r := Step(s, e);
      assert r.buffer == s.buffer && r.emitted == s.emitted && r.received == s.received && r.opts == s.opts;
  }

  lemma StepKeepsOneEncoder(s: ChannelState, e: ChannelEvent)
    requires OneEncoder(s) && Enabled(s, e)
    ensures OneEncoder(Step(s, e))
  {
  }

  lemma FlattenPush(parts: seq<Bytes>, part: Bytes)
    ensures Text.Flatten(parts + [part]) == Text.Flatten(parts) + part
  {
    Text.FlattenAppend(parts, [part]);
    assert [part][1..] == [] && Text.Flatten([part]) == part + [] == part;
  }

  lemma StepHandsOver(s: ChannelState, e: ChannelEvent)
    requires OneEncoder(s) && HandedOver(s) && Enabled(s, e)
    ensures HandedOver(Step(s, e))
  {
    hide Text.Flatten, Rotated, ChunkOf;
    match e
    case Encode(i, bytes) =>
      assert i == |s.encoders| - 1;
      assert Step(s, e).encoded == Text.Flatten(s.received) + (s.encoders[i].held + bytes);
    case Data(i, part) =>
      assert i == |s.encoders| - 1;
      FlattenPush(s.received, part);
    case _ =>
  }

  lemma StepKeepsInv(s: ChannelState, e: ChannelEvent)
    requires Inv(s) && Enabled(s, e)
    ensures Inv(Step(s, e))
  {
    hide Conserved, OneEncoder, HandedOver, Step, Enabled;
    StepConserves(s, e);
    StepKeepsOneEncoder(s, e);
    StepHandsOver(s, e);
  }

  lemma FreshInv(o: Options)
    ensures Inv(Fresh(o))
  {
    assert PartsOf([]) == [] && Text.Flatten<Byte>([]) == [];
  }

  /** Conservation and the encoder discipline hold after any run of events. */
  lemma {:induction false} RunKeepsInv(s: ChannelState, events: seq<ChannelEvent>, r: ChannelState)
    requires Inv(s) && Run(s, events, r)
    ensures Inv(r) && r.opts == s.opts
    decreases |events|
  {
    hide Inv, Step;
    if events != [] {
      StepKeepsInv(s, events[0]);
      RunKeepsInv(Step(s, events[0]), events[1..], r);
      StepKeepsOptions(s, events[0]);
    }
  }

  lemma StepKeepsOptions(s: ChannelState, e: ChannelEvent)
    requires Enabled(s, e)
    ensures Step(s, e).opts == s.opts
  {
  }

  /** After `stop` no encoder is live and none is ever spawned again. */
  ghost predicate Stopping(s: ChannelState) {
    Inv(s) && !s.active && s.encoders != []
  }

  lemma StoppingStep(s: ChannelState, e: ChannelEvent)
    requires Stopping(s) && Enabled(s, e)
    ensures Stopping(Step(s, e)) && |Step(s, e).encoders| == |s.encoders|
  {
    hide Conserved;
    StepKeepsInv(s, e);
  }

  lemma {:induction false} StoppedForGood(s: ChannelState, events: seq<ChannelEvent>, r: ChannelState)
    requires Stopping(s) && Run(s, events, r)
    ensures Stopping(r) && |r.encoders| == |s.encoders|
    ensures forall i | 0 <= i < |r.encoders| :: !r.encoders[i].Live?
    decreases |events|
  {
    hide Step, Conserved;
    if events != [] {
      StoppingStep(s, events[0]);
      StoppedForGood(Step(s, events[0]), events[1..], r);
    }
  }

  /** Whatever happens after `stop`, no encoder is live and no new one is spawned. */
  lemma StopIsForGood(s: ChannelState, events: seq<ChannelEvent>, r: ChannelState)
    requires Inv(s) && s.encoders != [] && Run(Step(s, Stop), events, r)
    ensures Inv(r) && !r.active && |r.encoders| == |s.encoders|
    ensures forall i | 0 <= i < |r.encoders| :: !r.encoders[i].Live?
  {
    hide Conserved, Run;
    StepKeepsInv(s, Stop);
    StoppedForGood(Step(s, Stop), events, r);
  }

  /** Once the last encoder has fired its stop event, all that was ever encoded is in an emitted chunk. */
  lemma NothingPending(s: ChannelState)
    requires Inv(s) && Last(s).Ended?
    ensures s.buffer.parts == [] && PartsOf(s.emitted) == s.received
    ensures Text.Flatten(PartsOf(s.emitted)) == s.encoded
  {
    assert PartsOf(s.emitted) + [] == PartsOf(s.emitted);
  }

  /** All the encoder holds handed over, then its stop event. */
  function Ending(s: ChannelState, offsetMs: real, id: string, now: string): seq<ChannelEvent>
    requires Last(s).Draining?
  {
    [Data(|s.encoders| - 1, Last(s).held), Stopped(|s.encoders| - 1, offsetMs, id, now)]
  }

  /** A stopped encoder can always come to its end. */
  lemma DrainingEnds(s: ChannelState, offsetMs: real, id: string, now: string) returns (r: ChannelState)
    requires Inv(s) && Last(s).Draining?
    ensures Run(s, Ending(s, offsetMs, id, now), r) && Last(r) == if s.active then Live(false, []) else Ended
  {
    hide Inv, Added, Rotated, ChunkOf;
    var es := Ending(s, offsetMs, id, now);
    var t := Step(s, es[0]);
    assert Last(t) == Draining([]) && t.active == s.active;
    r := Step(t, es[1]);
    assert es[1..] == [es[1]] && es[1..][1..] == [];
    assert Run(r, [], r) && Run(t, es[1..], r);
  }

  /**
   * The rotation timer keeps running while the recorder is paused: a tick then ends with a new
   * encoder that is recording.
   */
  lemma RotationDuringPauseRecords(s: ChannelState, offsetMs: real, id: string, now: string) returns (r: ChannelState)
    requires Inv(s) && s.active && !s.finalizing && Last(s).Live? && Last(s).paused
    ensures Run(s, [RotateTick] + Ending(Step(s, RotateTick), offsetMs, id, now), r)
    ensures Last(r) == Live(false, [])
  {
    hide Inv;
    StepKeepsInv(s, RotateTick);
    var t := Step(s, RotateTick);
    r := DrainingEnds(t, offsetMs, id, now);
    RunPush(s, RotateTick, t, Ending(t, offsetMs, id, now), r);
  }

  /** No event that would stop or resume the encoder. */
  predicate KeepsEncoder(e: ChannelEvent) {
    !e.Resume? && !e.RotateTick? && !e.Stop? && !e.TrackEnded?
  }

  /** A paused encoder records nothing: only what it already held still comes in. */
  lemma {:induction false} PausedIsQuiet(s: ChannelState, events: seq<ChannelEvent>, r: ChannelState)
    requires Inv(s) && Last(s).Live? && Last(s).paused && Run(s, events, r)
    requires forall i | 0 <= i < |events| :: KeepsEncoder(events[i])
    ensures r.encoded == s.encoded && Last(r).Live? && Last(r).paused && |r.encoders| == |s.encoders|
    decreases |events|
  {
    hide Inv, Step;
    if events != [] {
      StepKeepsInv(s, events[0]);
      PausedStep(s, events[0]);
      PausedIsQuiet(Step(s, events[0]), events[1..], r);
    }
  }

  lemma PausedStep(s: ChannelState, e: ChannelEvent)
    requires Inv(s) && Last(s).Live? && Last(s).paused && Enabled(s, e) && KeepsEncoder(e)
    ensures var t := Step(s, e);
      t.encoded == s.encoded && Last(t).Live? && Last(t).paused && |t.encoders| == |s.encoders|
  {
    hide Conserved, HandedOver;
  }

  // ---- the timeline ----

  function Durations(chunks: seq<Finalized<Bytes>>): int {
    if chunks == [] then 0 else Durations(chunks[..|chunks| - 1]) + chunks[|chunks| - 1].meta.durationMs
  }

  predicate Within(a: int, b: int, d: nat) {
    -(d as int) <= a - b <= d
  }

  ghost predicate Follows(next: AudioChunk, prev: AudioChunk) {
    Within(next.startOffsetMs, prev.startOffsetMs + prev.durationMs, 1)
  }

  /**
   * Summed durations stay within half a millisecond a chunk of the last end offset `t`, and each
   * chunk starts within a millisecond of where the one before it ended.
   */
  ghost predicate Contiguous(chunks: seq<Finalized<Bytes>>, t: real) {
    var n := |chunks|;
    && -(n as real) <= 2.0 * (Durations(chunks) as real - t) <= n as real
    && (forall k | 1 <= k < n :: Follows(chunks[k].meta, chunks[k - 1].meta))
    && (n == 0 ==> t == 0.0)
    && (n > 0 ==>
      && chunks[0].meta.startOffsetMs == 0
      && Within(Round(t), chunks[n - 1].meta.startOffsetMs + chunks[n - 1].meta.durationMs, 1))
  }

  ghost predicate Timeline(s: ChannelState) {
    Contiguous(s.emitted, s.buffer.chunkStartOffsetMs)
  }

  /** How much before its beginning a chunk ends. */
  function Late(s: ChannelState, e: ChannelEvent): real {
    if e.Stopped? && s.buffer.parts != [] && e.offsetMs < s.buffer.chunkStartOffsetMs then
      s.buffer.chunkStartOffsetMs - e.offsetMs
    else 0.0
  }

  /** A chunk does not end before it began. */
  predicate Timely(s: ChannelState, e: ChannelEvent) {
    Late(s, e) == 0.0
  }

  lemma Rounding(start: real, end: real)
    requires start <= end
    ensures Round(end - start) >= 0
    ensures -1.0 <= 2.0 * (Round(end - start) as real - (end - start)) <= 1.0
    ensures Within(Round(end), Round(start) + Round(end - start), 1)
  {
  }

  lemma ContiguousPush(chunks: seq<Finalized<Bytes>>, t: real, c: Finalized<Bytes>, end: real)
    requires Contiguous(chunks, t) && t <= end
    requires c.meta.startOffsetMs == Round(t) && c.meta.durationMs == Round(end - t)
    ensures Contiguous(chunks + [c], end)
  {
    hide Round;
    var all := chunks + [c];
    assert all[..|chunks|] == chunks;
    Rounding(t, end);
    assert Round(0.0) == 0;
  }

  lemma StepKeepsTimeline(s: ChannelState, e: ChannelEvent)
    requires Timeline(s) && Enabled(s, e) && Timely(s, e)
    ensures Timeline(Step(s, e))
  {
    hide Contiguous;
    if e.Stopped? && s.buffer.parts != [] {
      Rounding(s.buffer.chunkStartOffsetMs, e.offsetMs);
      ContiguousPush(s.emitted, s.buffer.chunkStartOffsetMs,
        ChunkOf(s.opts, s.buffer, e.offsetMs, e.id, e.now), e.offsetMs);
    }
  }

  /** Summed durations stay within half a millisecond a chunk of the last end offset plus `late`. */
  ghost predicate Summed(s: ChannelState, late: real) {
    var n := |s.emitted|;
    -(n as real) <= 2.0 * (Durations(s.emitted) as real - (s.buffer.chunkStartOffsetMs + late)) <= n as real
  }

  lemma RoundingLate(start: real, end: real)
    ensures var late := if end < start then start - end else 0.0;
      -1.0 <= 2.0 * (Max0(Round(end - start)) as real - (end - start + late)) <= 1.0
  {
  }

  lemma DurationsPush(chunks: seq<Finalized<Bytes>>, c: Finalized<Bytes>)
    ensures Durations(chunks + [c]) == Durations(chunks) + c.meta.durationMs
  {
    assert (chunks + [c])[..|chunks|] == chunks;
  }

  lemma StepSums(s: ChannelState, e: ChannelEvent, late: real)
    requires Summed(s, late) && Enabled(s, e)
    ensures Summed(Step(s, e), late + Late(s, e))
  {
    hide Durations, Round;
    if e.Stopped? && s.buffer.parts != [] {
      RoundingLate(s.buffer.chunkStartOffsetMs, e.offsetMs);
      DurationsPush(s.emitted, ChunkOf(s.opts, s.buffer, e.offsetMs, e.id, e.now));
    }
  }

  /** The lateness of all chunk ends of a run. */
  ghost function Lateness(s: ChannelState, events: seq<ChannelEvent>): real
    decreases |events|
  {
    if events == [] || !Enabled(s, events[0]) then 0.0
    else Late(s, events[0]) + Lateness(Step(s, events[0]), events[1..])
  }

  ghost predicate AllTimely(s: ChannelState, events: seq<ChannelEvent>)
    decreases |events|
  {
    events == [] || (Enabled(s, events[0]) && Timely(s, events[0]) && AllTimely(Step(s, events[0]), events[1..]))
  }

  lemma {:induction false} RunSums(s: ChannelState, events: seq<ChannelEvent>, r: ChannelState, late: real)
    requires Summed(s, late) && Run(s, events, r)
    ensures Summed(r, late + Lateness(s, events))
    ensures Lateness(s, events) >= 0.0
    ensures Lateness(s, events) == 0.0 <==> AllTimely(s, events)
    decreases |events|
  {
    hide Summed, Step;
    if events != [] {
      StepSums(s, events[0], late);
      RunSums(Step(s, events[0]), events[1..], r, late + Late(s, events[0]));
    }
  }

  /**
   * For every run, summed durations exceed the last end offset by the chunks' lateness, within half
   * a millisecond a chunk. No correction is needed exactly when every chunk ends after it began.
   */
  lemma DurationsExceedByLateness(o: Options, events: seq<ChannelEvent>, r: ChannelState)
    requires Run(Fresh(o), events, r)
    ensures Summed(r, Lateness(Fresh(o), events))
    ensures Lateness(Fresh(o), events) == 0.0 <==> AllTimely(Fresh(o), events)
  {
    assert Summed(Fresh(o), 0.0);
    RunSums(Fresh(o), events, r, 0.0);
  }

  lemma {:induction false} TimelyRunKeepsTimeline(s: ChannelState, events: seq<ChannelEvent>, r: ChannelState)
    requires Timeline(s) && Run(s, events, r) && AllTimely(s, events)
    ensures Timeline(r)
    decreases |events|
  {
    hide Timeline, Step, Timely;
    if events != [] {
      StepKeepsTimeline(s, events[0]);
      TimelyRunKeepsTimeline(Step(s, events[0]), events[1..], r);
    }
  }

  /** Any number of rotations at nondecreasing offsets keeps the timeline. */
  lemma TimelineOverRuns(o: Options, events: seq<ChannelEvent>, r: ChannelState)
    requires Run(Fresh(o), events, r) && AllTimely(Fresh(o), events)
    ensures Timeline(r)
  {
    TimelyRunKeepsTimeline(Fresh(o), events, r);
  }

  /** More lateness than chunks, in milliseconds, always breaks the timeline. */
  lemma LatenessBreaks(s: ChannelState, late: real)
    requires Summed(s, late) && late > |s.emitted| as real
    ensures !Timeline(s)
  {
  }

  // ---- the recorder object ----

  /** One channel of the recorder; `encoders` stands for the browser objects it has created. */
  class ChannelRecorder {
    const opts: Options
    var active: bool
    var finalizing: bool
    var encoders: seq<Encoder>
    const buffer: ChunkBuffer<Bytes>
    ghost var encoded: Bytes
    ghost var received: seq<Bytes>
    ghost var emitted: seq<Finalized<Bytes>>

    constructor (opts: Options)
      ensures fresh(buffer) && Valid() && State() == Fresh(opts)
    {
      this.opts := opts;
      active, finalizing, encoders := false, false, [];
      buffer := new ChunkBuffer<Bytes>(opts);
      encoded, received, emitted := [], [], [];
      new;
      FreshInv(opts);
    }

    ghost function State(): ChannelState
      reads this, buffer
    {
      ChannelState(opts, active, finalizing, encoders, buffer.State(), encoded, received, emitted)
    }

    ghost predicate Valid()
      reads this, buffer
    {
      buffer.opts == opts && Inv(State())
    }

    method SpawnRecorder()
      modifies this`encoders
      ensures State() == Spawned(old(State()))
    {
      encoders := encoders + [Live(false, [])];
    }

    method StartCapture()
      requires Valid() && Enabled(State(), Start)
      modifies this
      ensures Valid() && State() == Step(old(State()), Start)
    {
      StepKeepsInv(State(), Start);
      active := true;
      SpawnRecorder();
    }

    method OnDataAvailable(i: nat, part: Bytes)
      requires Valid() && Enabled(State(), Data(i, part))
      modifies this, buffer
      ensures Valid() && State() == Step(old(State()), Data(i, part))
    {
      hide Conserved;
      StepKeepsInv(State(), Data(i, part));
      encoders := encoders[i := encoders[i].(held := [])];
      if |part| > 0 {
        buffer.AddPart(part, |part|);
        received := received + [part];
      }
    }

    /** The stop event of encoder `i`; the chunk, if any, is what `onChunk` is called with. */
    method HandleStopEvent(i: nat, offsetMs: real, id: string, now: string) returns (chunk: Option<(AudioChunk, Bytes)>)
      requires Valid() && Enabled(State(), Stopped(i, offsetMs, id, now))
      modifies this, buffer
      ensures Valid() && State() == Step(old(State()), Stopped(i, offsetMs, id, now))
      ensures chunk.Some? <==> old(buffer.parts) != []
      ensures chunk.Some? ==>
        var c := emitted[|emitted| - 1];
        emitted == old(emitted) + [c] && chunk.value == (c.meta, Text.Flatten(c.parts))
    {
      hide Conserved, ChunkOf;
      StepKeepsInv(State(), Stopped(i, offsetMs, id, now));
      encoders := encoders[i := Ended];
      var finalized := buffer.Rotate(offsetMs, id, now);
      chunk := None;
      if finalized.Some? {
        chunk := Some((finalized.value.meta, Text.Flatten(finalized.value.parts)));
        emitted := emitted + [finalized.value];
      }
      finalizing := false;
      if active {
        SpawnRecorder();
      }
    }

    method RotateChannel()
      requires Valid()
      modifies this
      ensures Valid() && State() == Step(old(State()), RotateTick)
    {
      hide Conserved;
      StepKeepsInv(State(), RotateTick);
      if !active || finalizing {
        return;
      }
      if |encoders| > 0 && encoders[|encoders| - 1].Live? {
        finalizing := true;
        encoders := encoders[|encoders| - 1 := Draining(encoders[|encoders| - 1].held)];
      }
    }

    method PauseChannel()
      requires Valid()
      modifies this
      ensures Valid() && State() == Step(old(State()), Pause)
    {
      hide Conserved;
      StepKeepsInv(State(), Pause);
      if |encoders| > 0 && encoders[|encoders| - 1].Live? && !encoders[|encoders| - 1].paused {
        encoders := encoders[|encoders| - 1 := encoders[|encoders| - 1].(paused := true)];
      }
    }

    method ResumeChannel()
      requires Valid()
      modifies this
      ensures Valid() && State() == Step(old(State()), Resume)
    {
      hide Conserved;
      StepKeepsInv(State(), Resume);
      if |encoders| > 0 && encoders[|encoders| - 1].Live? && encoders[|encoders| - 1].paused {
        encoders := encoders[|encoders| - 1 := encoders[|encoders| - 1].(paused := false)];
      }
    }

    method StopChannel()
      requires Valid()
      modifies this
      ensures Valid() && State() == Step(old(State()), Stop)
    {
      hide Conserved;
      StepKeepsInv(State(), Stop);
      active := false;
      if |encoders| > 0 && encoders[|encoders| - 1].Live? {
        encoders := encoders[|encoders| - 1 := Draining(encoders[|encoders| - 1].held)];
      }
    }
  }
}
