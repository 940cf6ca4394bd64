/**
 * The recorder's lifecycle and its clock, which is meant to count recording time only. It keeps
 * advancing during a pause and falls back on resume, so the timeline of a channel holds as long
 * as no chunk ends while paused.
 */
module Recorder {
  import opened Common
  import Capture
  import Text

  datatype Lifecycle = Idle | Starting | Running | Paused | Stopping | Stopped | Errored

  /** The recorder's clock fields; times are in milliseconds, and 0 means not started. */
  datatype Clock = Clock(phase: Lifecycle, startTimestamp: real, pausedAccumMs: real, pausedAt: real)

  const NEW_CLOCK := Clock(Idle, 0.0, 0.0, 0.0)

  /** `getOffsetMs`. */
  function Offset(c: Clock, now: real): real {
    if c.startTimestamp == 0.0 then 0.0
    else
      var base := now - c.startTimestamp - c.pausedAccumMs;
      if base < 0.0 then 0.0 else base
  }

  /**
   * `start` writes the manifest before it is ready; it aborts if that fails, or after the clock
   * has started if there is nothing to capture. `stop` finishes when the session is closed.
   */
  datatype Command = Start | Ready | Abort(clockStarted: bool) | Pause | Resume | Stop | Finish

  datatype Timed = Timed(now: real, command: Command)

  /** A command that does not fit the state is ignored; `start` throws without a change. */
  function Step(c: Clock, e: Timed): Clock {
    match e.command
    case Start => if c.phase.Idle? then c.(phase := Starting) else c
    case Ready => if c.phase.Starting? then c.(phase := Running, startTimestamp := e.now) else c
    case Abort(clockStarted) =>
      if !c.phase.Starting? then c
      else if clockStarted then c.(phase := Errored, startTimestamp := e.now) else c.(phase := Errored)
    case Pause => if c.phase.Running? then c.(phase := Paused, pausedAt := e.now) else c
    case Resume =>
      if c.phase.Paused? then c.(phase := Running, pausedAccumMs := c.pausedAccumMs + (e.now - c.pausedAt)) else c
    case Stop => if c.phase.Running? || c.phase.Paused? then c.(phase := Stopping) else c
    case Finish => if c.phase.Stopping? then c.(phase := Stopped) else c
  }

  function After(events: seq<Timed>): Clock {
    if events == [] then NEW_CLOCK else Step(After(events[..|events| - 1]), events[|events| - 1])
  }

  function LastTime(events: seq<Timed>): real {
    if events == [] then 0.0 else events[|events| - 1].now
  }

  /** Time moves on, and the page clock is past 0 when anything happens. */
  ghost predicate Chronological(events: seq<Timed>) {
    (forall i | 0 <= i < |events| :: events[i].now > 0.0) &&
    (forall i, j | 0 <= i < j < |events| :: events[i].now <= events[j].now)
  }

  predicate Ended(p: Lifecycle) {
    p.Stopping? || p.Stopped?
  }

  /** The clock runs on after a stop: chunks still end then. */
  predicate Advancing(p: Lifecycle) {
    p.Running? || Ended(p)
  }

  /** The time by `t` spent recording, not paused and not stopped: the reference the clock is held to. */
  function RecordedTime(events: seq<Timed>, t: real): real {
    if events == [] then 0.0
    else
      var init, last := events[..|events| - 1], events[|events| - 1];
      RecordedTime(init, last.now) + if After(events).phase.Running? then t - last.now else 0.0
  }

  /** When the recording was stopped. */
  function StopTime(events: seq<Timed>): real {
    if events == [] then 0.0
    else
      var init, last := events[..|events| - 1], events[|events| - 1];
      if Ended(After(events).phase) && !Ended(After(init).phase) then last.now else StopTime(init)
  }

  /** How long ago the recording was stopped, if it was. */
  function SinceStop(events: seq<Timed>, t: real): real {
    if Ended(After(events).phase) then t - StopTime(events) else 0.0
  }

  /** The length of the pause that was cut short by a stop, which no resume took off the clock. */
  function PauseBeforeStop(events: seq<Timed>): real {
    if events == [] then 0.0
    else
      var init, last := After(events[..|events| - 1]), events[|events| - 1];
      if last.command.Stop? && init.phase.Paused? then last.now - init.pausedAt
      else PauseBeforeStop(events[..|events| - 1])
  }

  /** The reading the clock is at, not counting an unfinished pause. */
  function Settled(c: Clock, t: real): real {
    Offset(c, if c.phase.Paused? then c.pausedAt else t)
  }

  predicate Begun(c: Clock, t: real) {
    0.0 < c.startTimestamp && c.startTimestamp + c.pausedAccumMs <= t
  }

  /** What holds of the clock's fields after any chronological run up to time `t`. */
  ghost predicate Ticking(c: Clock, t: real) {
    && c.pausedAccumMs >= 0.0
    && match c.phase
       case Paused => 0.0 < c.startTimestamp && c.startTimestamp + c.pausedAccumMs <= c.pausedAt <= t
       case Running => Begun(c, t)
       case Stopping => Begun(c, t)
       case Stopped => Begun(c, t)
       case Errored => (c.startTimestamp == 0.0 || Begun(c, t)) && c.pausedAccumMs == 0.0
       case _ => c.startTimestamp == 0.0 && c.pausedAccumMs == 0.0
  }

  lemma StepTicks(c: Clock, t: real, e: Timed)
    requires Ticking(c, t) && t <= e.now && 0.0 < e.now
    ensures Ticking(Step(c, e), e.now) && Settled(c, t) <= Settled(Step(c, e), e.now)
  {
  }

  lemma {:induction false} RunTicks(events: seq<Timed>)
    requires Chronological(events)
    ensures Ticking(After(events), LastTime(events))
  {
    if events != [] {
      var init, last := events[..|events| - 1], events[|events| - 1];
      assert forall i | 0 <= i < |init| :: init[i] == events[i];
      RunTicks(init);
      StepTicks(After(init), LastTime(init), last);
    }
  }

  /**
   * While recording the reading is exactly the time spent recording, all completed pauses taken out.
   * During a pause it is ahead by the pause so far. After a stop it is ahead by the time since, and by
   * a pause that the stop cut short.
   */
  lemma {:induction false} ClockIsRecordedTime(events: seq<Timed>, t: real)
    requires Chronological(events) && LastTime(events) <= t
    requires Advancing(After(events).phase) || After(events).phase.Paused?
    ensures After(events).phase.Running? ==> Offset(After(events), t) == RecordedTime(events, t)
    ensures Ended(After(events).phase) ==>
      Offset(After(events), t) == RecordedTime(events, t) + PauseBeforeStop(events) + SinceStop(events, t)
    ensures After(events).phase.Paused? ==>
      Offset(After(events), t) == RecordedTime(events, t) + (t - After(events).pausedAt)
    ensures After(events).phase.Running? || After(events).phase.Paused? ==> PauseBeforeStop(events) == 0.0
  {
    hide Chronological, Ticking;
    var init, last := events[..|events| - 1], events[|events| - 1];
    ChronologicalPrefix(events);
    RunTicks(init);
    RunTicks(events);
    SettledGrows(After(init), LastTime(init), last.now);
    if Advancing(After(init).phase) || After(init).phase.Paused? {
      ClockIsRecordedTime(init, last.now);
      ReadingMoves(After(init), last, t);
    } else {
      NothingRecorded(init, last.now);
      FirstReading(After(init), last, t);
    }
  }

  /** How a command moves the reading of a clock that has begun. */
  lemma ReadingMoves(c: Clock, e: Timed, t: real)
    requires Ticking(c, e.now) && e.now <= t && (Advancing(c.phase) || c.phase.Paused?)
    ensures var d := Step(c, e);
      && (Advancing(d.phase) || d.phase.Paused?)
      && (Advancing(c.phase) && Advancing(d.phase) ==> Offset(d, t) == Offset(c, e.now) + (t - e.now))
      && (Advancing(c.phase) && d.phase.Paused? ==>
         d.pausedAt == e.now && Offset(d, t) == Offset(c, e.now) + (t - e.now))
      && (c.phase.Paused? && d.phase.Paused? ==>
         d.pausedAt == c.pausedAt && Offset(d, t) == Offset(c, e.now) + (t - e.now))
      && (c.phase.Paused? && d.phase.Running? ==> Offset(d, t) == Offset(c, e.now) - (e.now - c.pausedAt) + (t - e.now))
      && (Ended(c.phase) ==> Ended(d.phase)) && (!Ended(c.phase) && Ended(d.phase) ==> e.command.Stop?)
      && (c.phase.Paused? && d.phase.Stopping? ==> e.command.Stop? && Offset(d, t) == Offset(c, e.now) + (t - e.now))
  {
  }

  lemma FirstReading(c: Clock, e: Timed, t: real)
    requires Ticking(c, e.now) && e.now <= t && !Advancing(c.phase) && !c.phase.Paused? && 0.0 < e.now
    ensures var d := Step(c, e);
      !d.phase.Paused? && (Advancing(d.phase) ==> d.phase.Running? && Offset(d, t) == t - e.now)
  {
  }

  lemma ChronologicalPrefix(events: seq<Timed>)
    requires Chronological(events) && events != []
    ensures Chronological(events[..|events| - 1]) && LastTime(events[..|events| - 1]) <= LastTime(events)
    ensures 0.0 < LastTime(events)
  {
    var init := events[..|events| - 1];
    assert forall i | 0 <= i < |init| :: init[i] == events[i];
  }

  lemma {:induction false} NothingRecorded(events: seq<Timed>, t: real)
    requires !Advancing(After(events).phase) && !After(events).phase.Paused?
    ensures RecordedTime(events, t) == 0.0 && PauseBeforeStop(events) == 0.0
  {
    if events != [] {
      NothingRecorded(events[..|events| - 1], LastTime(events));
    }
  }

  /** The reading right after a resume is the reading at the pause. */
  lemma ResumeContinues(c: Clock, t: real, pause: Timed, resume: Timed)
    requires Ticking(c, t) && c.phase.Running? && pause.command.Pause? && resume.command.Resume?
    requires t <= pause.now <= resume.now && 0.0 < pause.now
    ensures Offset(Step(Step(c, pause), resume), resume.now) == Offset(c, pause.now)
  {
  }

  /** The reading falls back on resume exactly when the pause lasted at all. */
  lemma ResumeFallsBack(c: Clock, t: real, resume: Timed)
    requires Ticking(c, t) && c.phase.Paused? && resume.command.Resume? && t <= resume.now
    ensures Offset(Step(c, resume), resume.now) < Offset(c, resume.now) <==> c.pausedAt < resume.now
  {
  }

  /** Readings taken while recording never decrease, whatever pauses lie between them. */
  lemma {:induction false} ReadingsNeverDecrease(events: seq<Timed>, more: seq<Timed>, t: real, u: real)
    requires Chronological(events + more) && LastTime(events) <= t <= u && LastTime(events + more) <= u
    requires more != [] ==> t <= more[0].now
    ensures Settled(After(events), t) <= Settled(After(events + more), u)
    decreases |more|
  {
    hide Step, Ticking, Settled, After, Chronological;
    var all := events + more;
    if more == [] {
      assert all == events;
      ReadingGrows(events, t, u);
    } else {
      var init, last := more[..|more| - 1], more[|more| - 1];
      assert all[..|all| - 1] == events + init && all[|all| - 1] == last && all[|events|] == more[0];
      ChronologicalPrefix(all);
      LastIsLatest(all, |events|);
      ReadingsNeverDecrease(events, init, t, last.now);
      ReadingStep(all, u);
    }
  }

  lemma ReadingGrows(events: seq<Timed>, t: real, u: real)
    requires Chronological(events) && LastTime(events) <= t <= u
    ensures Settled(After(events), t) <= Settled(After(events), u)
  {
    hide After, Chronological;
    RunTicks(events);
    SettledGrows(After(events), LastTime(events), t);
    SettledGrows(After(events), t, u);
  }

  lemma ReadingStep(events: seq<Timed>, u: real)
    requires Chronological(events) && events != [] && LastTime(events) <= u
    ensures Settled(After(events[..|events| - 1]), LastTime(events)) <= Settled(After(events), u)
  {
    hide Chronological, Step, Ticking, Settled;
    var init, last := events[..|events| - 1], events[|events| - 1];
    ChronologicalPrefix(events);
    RunTicks(init);
    SettledGrows(After(init), LastTime(init), last.now);
    StepTicks(After(init), last.now, last);
    ReadingGrows(events, last.now, u);
  }

  lemma LastIsLatest(events: seq<Timed>, i: nat)
    requires Chronological(events) && i < |events|
    ensures 0.0 < events[i].now <= LastTime(events)
  {
  }

  lemma SettledGrows(c: Clock, t: real, u: real)
    requires Ticking(c, t) && t <= u
    ensures Ticking(c, u) && Settled(c, t) <= Settled(c, u)
  {
  }

  // ---- a channel under the recorder's clock ----

  /** The clock, one channel, and the time so far. */
  datatype Studio = Studio(clock: Clock, channel: Capture.ChannelState, now: real)

  /** What happens at a time: a command of the user, or an event of the channel. */
  datatype Happening = Happening(now: real, what: What)
  datatype What = Commanded(command: Command) | OnChannel(event: Capture.ChannelEvent)

  /** Commands reach the channel too: it is paused, resumed and stopped together with the clock. */
  function ChannelAfter(c: Clock, st: Capture.ChannelState, e: Timed): Capture.ChannelState {
    match e.command
    case Ready => if c.phase.Starting? && st.encoders == [] then Capture.Step(st, Capture.Start) else st
    case Pause => if c.phase.Running? then Capture.Step(st, Capture.Pause) else st
    case Resume => if c.phase.Paused? then Capture.Step(st, Capture.Resume) else st
    case Stop => if c.phase.Running? || c.phase.Paused? then Capture.Step(st, Capture.Stop) else st
    case _ => st
  }

  /** A chunk ends at the clock's reading; the rotation timer runs from the start to the stop. */
  predicate Possible(s: Studio, h: Happening) {
    && s.now <= h.now && 0.0 < h.now
    && match h.what
       case Commanded(_) => true
       case OnChannel(event) =>
         && Capture.Enabled(s.channel, event)
         && (event.Stopped? ==> event.offsetMs == Offset(s.clock, h.now))
         && (event.RotateTick? ==> s.clock.phase.Running? || s.clock.phase.Paused?)
         && (event.Encode? || event.Data? || event.Stopped? || event.TrackEnded? || event.RotateTick?)
  }

  function StudioStep(s: Studio, h: Happening): Studio
    requires Possible(s, h)
  {
    match h.what
    case Commanded(command) =>
      Studio(Step(s.clock, Timed(h.now, command)), ChannelAfter(s.clock, s.channel, Timed(h.now, command)), h.now)
    case OnChannel(event) => Studio(s.clock, Capture.Step(s.channel, event), h.now)
  }

  ghost predicate StudioRun(s: Studio, hs: seq<Happening>, r: Studio)
    decreases |hs|
  {
    if hs == [] then r == s
    else Possible(s, hs[0]) && StudioRun(StudioStep(s, hs[0]), hs[1..], r)
  }

  /** The states a run goes through. */
  ghost predicate Trace(ss: seq<Studio>, hs: seq<Happening>) {
    |ss| == |hs| + 1 && forall i | 0 <= i < |hs| :: Possible(ss[i], hs[i]) && ss[i + 1] == StudioStep(ss[i], hs[i])
  }

  lemma {:induction false} TraceIsRun(ss: seq<Studio>, hs: seq<Happening>)
    requires Trace(ss, hs)
    ensures StudioRun(ss[0], hs, ss[|hs|])
    decreases |hs|
  {
    hide StudioStep, Possible;
    if hs != [] {
      TraceIsRun(ss[1..], hs[1..]);
    }
  }

  /** No chunk ends while the recorder is paused. */
  predicate EndsUnpaused(s: Studio, h: Happening) {
    h.what.OnChannel? && h.what.event.Stopped? && s.channel.buffer.parts != [] ==> !s.clock.phase.Paused?
  }

  ghost predicate UnpausedRun(s: Studio, hs: seq<Happening>)
    decreases |hs|
  {
    hs == [] || (Possible(s, hs[0]) && EndsUnpaused(s, hs[0]) && UnpausedRun(StudioStep(s, hs[0]), hs[1..]))
  }

  /** The current chunk started at a reading the clock will not fall behind. */
  ghost predicate InStep(s: Studio) {
    && Ticking(s.clock, s.now) && Capture.Timeline(s.channel)
    && 0.0 <= s.channel.buffer.chunkStartOffsetMs <= Settled(s.clock, s.now)
  }

  lemma CommandKeepsBuffer(c: Clock, st: Capture.ChannelState, e: Timed)
    ensures ChannelAfter(c, st, e).buffer == st.buffer && ChannelAfter(c, st, e).emitted == st.emitted
  {
  }

  lemma StudioKeepsStep(s: Studio, h: Happening)
    requires InStep(s) && Possible(s, h) && EndsUnpaused(s, h)
    ensures InStep(StudioStep(s, h))
  {
    hide Capture.Contiguous, Capture.ChunkOf, Ticking, Settled, Offset, Step;
    SettledGrows(s.clock, s.now, h.now);
    match h.what
    case Commanded(command) =>
      CommandKeepsBuffer(s.clock, s.channel, Timed(h.now, command));
      hide ChannelAfter;
      StepTicks(s.clock, s.now, Timed(h.now, command));
    case OnChannel(event) =>
      ReadingIsSettled(s.clock, h.now);
      Capture.StepKeepsTimeline(s.channel, event);
  }

  lemma ReadingIsSettled(c: Clock, t: real)
    ensures !c.phase.Paused? ==> Offset(c, t) == Settled(c, t)
  {
  }

  lemma {:induction false} UnpausedKeepsStep(s: Studio, hs: seq<Happening>, r: Studio)
    requires InStep(s) && StudioRun(s, hs, r) && UnpausedRun(s, hs)
    ensures InStep(r)
    decreases |hs|
  {
    hide InStep, StudioStep, Possible, EndsUnpaused;
    if hs != [] {
      StudioKeepsStep(s, hs[0]);
      UnpausedKeepsStep(StudioStep(s, hs[0]), hs[1..], r);
    }
  }

  /**
   * The timeline of a channel over a whole recording: whatever is paused, resumed, rotated and
   * stopped, if no chunk ends while paused then chunk durations sum to the last end offset within
   * half a millisecond a chunk, and each chunk starts where the one before it ended within one.
   */
  lemma TimelineHolds(o: Capture.Options, hs: seq<Happening>, r: Studio)
    requires var s := Studio(NEW_CLOCK, Capture.Fresh(o), 0.0); StudioRun(s, hs, r) && UnpausedRun(s, hs)
    ensures Capture.Timeline(r.channel)
  {
    var s := Studio(NEW_CLOCK, Capture.Fresh(o), 0.0);
    UnpausedKeepsStep(s, hs, r);
  }

  // ---- every recording, exactly ----

  /** The lateness of the chunk ends of a recording. */
  ghost function Lateness(s: Studio, hs: seq<Happening>): real
    decreases |hs|
  {
    if hs == [] || !Possible(s, hs[0]) then 0.0
    else
      (if hs[0].what.OnChannel? then Capture.Late(s.channel, hs[0].what.event) else 0.0)
      + Lateness(StudioStep(s, hs[0]), hs[1..])
  }

  ghost predicate EndsTimely(s: Studio, hs: seq<Happening>)
    decreases |hs|
  {
    hs == [] ||
    (Possible(s, hs[0]) && (hs[0].what.OnChannel? ==> Capture.Timely(s.channel, hs[0].what.event)) &&
     EndsTimely(StudioStep(s, hs[0]), hs[1..]))
  }

  lemma {:induction false} StudioSums(s: Studio, hs: seq<Happening>, r: Studio, late: real)
    requires Capture.Summed(s.channel, late) && StudioRun(s, hs, r)
    ensures Capture.Summed(r.channel, late + Lateness(s, hs))
    ensures Lateness(s, hs) >= 0.0 && (Lateness(s, hs) == 0.0 <==> EndsTimely(s, hs))
    decreases |hs|
  {
    hide Step, Capture.Step, Capture.Enabled, ChannelAfter;
    if hs != [] {
      var h, t := hs[0], StudioStep(s, hs[0]);
      match h.what {
        case Commanded(command) =>
          CommandKeepsBuffer(s.clock, s.channel, Timed(h.now, command));
          StudioSums(t, hs[1..], r, late);
        case OnChannel(event) =>
          Capture.StepSums(s.channel, event, late);
          StudioSums(t, hs[1..], r, late + Capture.Late(s.channel, event));
      }
    }
  }

  /**
   * For every recording, chunk durations sum to the last end offset plus the lateness of the chunk
   * ends, within half a millisecond a chunk; the lateness is zero exactly when every chunk ends
   * after it began.
   */
  lemma DurationsOfEveryRun(o: Capture.Options, hs: seq<Happening>, r: Studio)
    requires StudioRun(Quiet(o), hs, r)
    ensures Capture.Summed(r.channel, Lateness(Quiet(o), hs))
    ensures Lateness(Quiet(o), hs) == 0.0 <==> EndsTimely(Quiet(o), hs)
  {
    StudioSums(Quiet(o), hs, r, 0.0);
  }

  function Quiet(o: Capture.Options): Studio {
    Studio(NEW_CLOCK, Capture.Fresh(o), 0.0)
  }

  /** How late the first chunk end after a resume is, when the one before fell into the pause. */
  lemma PausedEndIsLate(s: Studio, h: Happening, resume: real, q: Studio, next: Happening)
    requires Ticking(s.clock, s.now) && s.clock.phase.Paused?
    requires Possible(s, h) && h.what.OnChannel? && h.what.event.Stopped? && s.channel.buffer.parts != []
    requires h.now <= resume <= next.now && q.clock == Step(s.clock, Timed(resume, Resume))
    requires q.channel.buffer.chunkStartOffsetMs == StudioStep(s, h).channel.buffer.chunkStartOffsetMs
    requires Possible(q, next) && next.what.OnChannel? && next.what.event.Stopped? && q.channel.buffer.parts != []
    ensures var behind := (h.now - s.clock.pausedAt) - (next.now - resume);
      Capture.Late(q.channel, next.what.event) == if behind > 0.0 then behind else 0.0
  {
  }

  // ---- durations and recorded time ----

  /** The commands of a recording, with their times. */
  function Commands(hs: seq<Happening>): seq<Timed> {
    if hs == [] then []
    else (if hs[0].what.Commanded? then [Timed(hs[0].now, hs[0].what.command)] else []) + Commands(hs[1..])
  }

  /** The clock is where its commands have led it, and there is no encoder before it runs. */
  ghost predicate Clocked(s: Studio, events: seq<Timed>) {
    && s.clock == After(events) && Chronological(events) && LastTime(events) <= s.now
    && (Advancing(s.clock.phase) || s.clock.phase.Paused? || s.channel.encoders == [])
  }

  lemma ChronologicalPush(events: seq<Timed>, e: Timed)
    requires Chronological(events) && LastTime(events) <= e.now && 0.0 < e.now
    ensures Chronological(events + [e]) && LastTime(events + [e]) == e.now
    ensures After(events + [e]) == Step(After(events), e)
  {
    assert (events + [e])[..|events|] == events;
  }

  lemma StepClocked(s: Studio, events: seq<Timed>, h: Happening)
    requires Clocked(s, events) && Possible(s, h)
    ensures Clocked(StudioStep(s, h), events + Commands([h]))
  {
    hide After, Chronological, LastTime, Commands;
    CommandsOne(h);
    assert events + [] == events;
    if h.what.Commanded? {
      ChronologicalPush(events, Timed(h.now, h.what.command));
    }
  }

  lemma CommandsOne(h: Happening)
    ensures Commands([h]) == if h.what.Commanded? then [Timed(h.now, h.what.command)] else []
  {
    assert [h][1..] == [] && Commands([]) == [];
  }

  lemma {:induction false} RunClocked(s: Studio, events: seq<Timed>, hs: seq<Happening>, r: Studio)
    requires Clocked(s, events) && StudioRun(s, hs, r)
    ensures Clocked(r, events + Commands(hs))
    decreases |hs|
  {
    hide Clocked, StudioStep, Possible;
    if hs == [] {
      assert events + [] == events;
    } else {
      StepClocked(s, events, hs[0]);
      RunClocked(StudioStep(s, hs[0]), events + Commands([hs[0]]), hs[1..], r);
      CommandsOne(hs[0]);
      assert events + Commands([hs[0]]) + Commands(hs[1..]) == events + Commands(hs);
    }
  }

  /**
   * What the chunk durations are for: when no chunk has ended while paused, then at the end of any
   * chunk they sum to the time spent recording up to it, within half a millisecond a chunk. Only for
   * the last chunk, which ends after the stop, the time since the stop is counted in, and a pause that
   * the stop cut short.
   */
  lemma DurationsAreRecordedTime(o: Capture.Options, hs: seq<Happening>, q: Studio, h: Happening)
    requires StudioRun(Quiet(o), hs, q) && UnpausedRun(Quiet(o), hs)
    requires Possible(q, h) && h.what.OnChannel? && h.what.event.Stopped? && q.channel.buffer.parts != []
    requires !q.clock.phase.Paused?
    ensures var chunks := StudioStep(q, h).channel.emitted;
      var recorded := RecordedTime(Commands(hs), h.now) + PauseBeforeStop(Commands(hs)) +
        SinceStop(Commands(hs), h.now);
      -(|chunks| as real) <= 2.0 * (Capture.Durations(chunks) as real - recorded) <= |chunks| as real
    ensures q.clock.phase.Running? ==> PauseBeforeStop(Commands(hs)) == 0.0 && SinceStop(Commands(hs), h.now) == 0.0
  {
    hide StudioRun, UnpausedRun, After, Chronological, Capture.Durations, Capture.Follows, Offset, Ticking, Settled;
    QuietIsClocked(o);
    UnpausedKeepsStep(Quiet(o), hs, q);
    StudioKeepsStep(q, h);
    RunClocked(Quiet(o), [], hs, q);
    assert [] + Commands(hs) == Commands(hs);
    hide Commands, RecordedTime, PauseBeforeStop, LastTime;
    ClockIsRecordedTime(Commands(hs), h.now);
  }

  lemma QuietIsClocked(o: Capture.Options)
    ensures Clocked(Quiet(o), []) && InStep(Quiet(o))
  {
  }

  // ---- the encoder under the recorder's commands ----

  /** There is an encoder from the start on; it is paused only while the recorder is. */
  ghost predicate Attuned(s: Studio) {
    var last, phase := Capture.Last(s.channel), s.clock.phase;
    && Capture.Inv(s.channel)
    && (s.channel.encoders != [] <==> Advancing(phase) || phase.Paused?)
    && (s.channel.active <==> phase.Running? || phase.Paused?)
    && (last.Live? && last.paused ==> phase.Paused?)
  }

  lemma StepAttuned(s: Studio, h: Happening)
    requires Attuned(s) && Possible(s, h)
    ensures Attuned(StudioStep(s, h))
  {
    hide Capture.Conserved, Capture.HandedOver, Offset;
    match h.what
    case Commanded(command) =>
      CommandAttuned(s, h.now, command);
    case OnChannel(event) =>
      Capture.StepKeepsInv(s.channel, event);
  }

  lemma CommandAttuned(s: Studio, now: real, command: Command)
    requires Attuned(s) && Possible(s, Happening(now, Commanded(command)))
    ensures Attuned(StudioStep(s, Happening(now, Commanded(command))))
  {
    hide Capture.Conserved, Capture.HandedOver, Offset;
    var st, t := s.channel, ChannelAfter(s.clock, s.channel, Timed(now, command));
    if t != st {
      var e := if command.Ready? then Capture.Start else if command.Pause? then Capture.Pause
               else if command.Resume? then Capture.Resume else Capture.Stop;
      Capture.StepKeepsInv(st, e);
    }
  }

  lemma {:induction false} RunAttuned(s: Studio, hs: seq<Happening>, r: Studio)
    requires Attuned(s) && StudioRun(s, hs, r)
    ensures Attuned(r)
    decreases |hs|
  {
    hide Attuned, StudioStep, Possible;
    if hs != [] {
      StepAttuned(s, hs[0]);
      RunAttuned(StudioStep(s, hs[0]), hs[1..], r);
    }
  }

  lemma QuietAttuned(o: Capture.Options)
    ensures Attuned(Quiet(o))
  {
    Capture.FreshInv(o);
  }

  /**
   * In every recording at most the last encoder is unfinished. While recording it records, unless it
   * is just being replaced; from the stop on it is none that records.
   */
  lemma EncoderFollowsRecorder(o: Capture.Options, hs: seq<Happening>, r: Studio)
    requires StudioRun(Quiet(o), hs, r)
    ensures forall i | 0 <= i < |r.channel.encoders| - 1 :: r.channel.encoders[i].Ended?
    ensures var last, phase := Capture.Last(r.channel), r.clock.phase;
      && (phase.Running? ==> last.Draining? || (last.Live? && !last.paused))
      && (phase.Paused? ==> last.Draining? || last.Live?)
      && (Ended(phase) ==> r.channel.encoders != [] && (last.Draining? || last.Ended?))
      && (!Advancing(phase) && !phase.Paused? ==> r.channel.encoders == [])
  {
    hide StudioRun, Capture.Conserved, Capture.HandedOver;
    QuietAttuned(o);
    RunAttuned(Quiet(o), hs, r);
  }

  /** A pause that is accepted leaves no encoder recording; one being replaced is the only exception. */
  lemma PausePauses(o: Capture.Options, hs: seq<Happening>, q: Studio, now: real)
    requires StudioRun(Quiet(o), hs, q) && q.clock.phase.Running? && q.now <= now && 0.0 < now
    ensures var r := StudioStep(q, Happening(now, Commanded(Pause)));
      && r.clock.phase.Paused?
      && (forall i | 0 <= i < |r.channel.encoders| :: r.channel.encoders[i].Live? ==> r.channel.encoders[i].paused)
      && (Capture.Last(r.channel).Live? <==> Capture.Last(q.channel).Live?)
      && Capture.Held(Capture.Last(r.channel)) == Capture.Held(Capture.Last(q.channel))
  {
    hide StudioRun, Capture.Conserved, Capture.HandedOver;
    EncoderFollowsRecorder(o, hs, q);
  }

  /** A resume that is accepted makes the encoder record again, unless it is being replaced. */
  lemma ResumeResumes(o: Capture.Options, hs: seq<Happening>, q: Studio, now: real, bytes: Bytes)
    requires StudioRun(Quiet(o), hs, q) && q.clock.phase.Paused? && q.now <= now && 0.0 < now
    ensures var r := StudioStep(q, Happening(now, Commanded(Resume)));
      && r.clock.phase.Running?
      && (forall i | 0 <= i < |r.channel.encoders| :: r.channel.encoders[i].Live? ==> !r.channel.encoders[i].paused)
      && (Capture.Last(r.channel).Live? <==> Capture.Last(q.channel).Live?)
      && r.channel.encoders != []
      && Possible(r, Happening(now, OnChannel(Capture.Encode(|r.channel.encoders| - 1, bytes))))
  {
    hide StudioRun, Capture.Conserved, Capture.HandedOver;
    EncoderFollowsRecorder(o, hs, q);
  }

  /** Neither resumes or stops the recorder, nor replaces or loses the encoder. */
  predicate Undisturbed(h: Happening) {
    match h.what
    case Commanded(command) => !command.Resume? && !command.Stop?
    case OnChannel(event) => Capture.KeepsEncoder(event)
  }

  lemma {:induction false} PausedRun(s: Studio, hs: seq<Happening>, r: Studio)
    requires Attuned(s) && Capture.Last(s.channel).Live? && Capture.Last(s.channel).paused && StudioRun(s, hs, r)
    requires forall i | 0 <= i < |hs| :: Undisturbed(hs[i])
    ensures r.channel.encoded == s.channel.encoded
    ensures r.clock.phase.Paused? && Capture.Last(r.channel).Live? && Capture.Last(r.channel).paused
    decreases |hs|
  {
    hide Attuned, StudioStep, Possible;
    if hs != [] {
      StepAttuned(s, hs[0]);
      UndisturbedStep(s, hs[0]);
      PausedRun(StudioStep(s, hs[0]), hs[1..], r);
    } else {
      PausedByRecorder(s);
    }
  }

  /**
   * In every recording, while the recorder stays paused with its encoder paused nothing is recorded,
   * however long that lasts. A rotation in a pause is different: it ends with an encoder that records.
   */
  lemma PauseRecordsNothing(o: Capture.Options, hs: seq<Happening>, q: Studio, more: seq<Happening>, r: Studio)
    requires StudioRun(Quiet(o), hs, q) && StudioRun(q, more, r)
    requires Capture.Last(q.channel).Live? && Capture.Last(q.channel).paused
    requires forall i | 0 <= i < |more| :: Undisturbed(more[i])
    ensures r.channel.encoded == q.channel.encoded
    ensures r.clock.phase.Paused? && Capture.Last(r.channel).Live? && Capture.Last(r.channel).paused
  {
    hide StudioRun, Attuned;
    QuietAttuned(o);
    RunAttuned(Quiet(o), hs, q);
    PausedRun(q, more, r);
  }

  lemma PausedByRecorder(s: Studio)
    requires Attuned(s) && Capture.Last(s.channel).Live? && Capture.Last(s.channel).paused
    ensures s.clock.phase.Paused?
  {
  }

  lemma UndisturbedStep(s: Studio, h: Happening)
    requires Attuned(s) && Possible(s, h) && Undisturbed(h)
    requires Capture.Last(s.channel).Live? && Capture.Last(s.channel).paused
    ensures var t := StudioStep(s, h).channel;
      t.encoded == s.channel.encoded && Capture.Last(t).Live? && Capture.Last(t).paused
  {
    hide Capture.Inv, Capture.Step, Offset;
    if h.what.OnChannel? {
      Capture.PausedStep(s.channel, h.what.event);
    }
  }

  /** After a stop. */
  ghost predicate Halted(s: Studio) {
    Ended(s.clock.phase) && Capture.Stopping(s.channel)
  }

  lemma HaltedStep(s: Studio, h: Happening)
    requires Halted(s) && Possible(s, h)
    ensures var t := StudioStep(s, h);
      Halted(t) && |t.channel.encoders| == |s.channel.encoders| && s.channel.encoded <= t.channel.encoded
  {
    hide Capture.Conserved, Capture.OneEncoder, Capture.HandedOver, Offset;
    if h.what.OnChannel? {
      Capture.StoppingStep(s.channel, h.what.event);
    }
  }

  lemma {:induction false} HaltedRun(s: Studio, hs: seq<Happening>, r: Studio)
    requires Halted(s) && StudioRun(s, hs, r)
    ensures Halted(r) && |r.channel.encoders| == |s.channel.encoders| && s.channel.encoded <= r.channel.encoded
    decreases |hs|
  {
    hide Halted, StudioStep, Possible;
    if hs != [] {
      HaltedStep(s, hs[0]);
      HaltedRun(StudioStep(s, hs[0]), hs[1..], r);
    }
  }

  /**
   * A stop that is accepted, also during a pause, is for good: no encoder records or is spawned
   * after it. Once the last one has ended, all that was encoded before and after the stop is in the
   * emitted chunks.
   */
  lemma StopEmitsAll(o: Capture.Options, hs: seq<Happening>, q: Studio, now: real, more: seq<Happening>, r: Studio)
    requires StudioRun(Quiet(o), hs, q) && (q.clock.phase.Running? || q.clock.phase.Paused?)
    requires q.now <= now && 0.0 < now
    requires StudioRun(StudioStep(q, Happening(now, Commanded(Stop))), more, r)
    ensures Ended(r.clock.phase) && !r.channel.active && |r.channel.encoders| == |q.channel.encoders|
    ensures forall i | 0 <= i < |r.channel.encoders| :: !r.channel.encoders[i].Live?
    ensures q.channel.encoded <= r.channel.encoded
    ensures Capture.Last(r.channel).Ended? ==>
      r.channel.buffer.parts == [] && Text.Flatten(Capture.PartsOf(r.channel.emitted)) == r.channel.encoded
  {
    hide StudioRun, Capture.Conserved, Capture.HandedOver;
    QuietAttuned(o);
    RunAttuned(Quiet(o), hs, q);
    var h := Happening(now, Commanded(Stop));
    StepAttuned(q, h);
    HaltedRun(StudioStep(q, h), more, r);
    if Capture.Last(r.channel).Ended? {
      Capture.NothingPending(r.channel);
    }
  }

  /** And it can come to that: the encoder that was stopped hands over what it holds and ends. */
  lemma StoppedEnds(s: Studio, now: real, id: string, stamp: string) returns (r: Studio)
    requires Halted(s) && Capture.Last(s.channel).Draining? && s.now <= now && 0.0 < now
    ensures var events := Capture.Ending(s.channel, Offset(s.clock, now), id, stamp);
      StudioRun(s, [Happening(now, OnChannel(events[0])), Happening(now, OnChannel(events[1]))], r)
    ensures Capture.Last(r.channel).Ended?
  {
    hide Capture.Conserved, Capture.HandedOver, Capture.Added, Capture.Rotated, Capture.ChunkOf, Offset;
    var events := Capture.Ending(s.channel, Offset(s.clock, now), id, stamp);
    var h1, h2 := Happening(now, OnChannel(events[0])), Happening(now, OnChannel(events[1]));
    var t := StudioStep(s, h1);
    assert Capture.Last(t.channel) == Capture.Draining([]);
    r := StudioStep(t, h2);
    TraceIsRun([s, t, r], [h1, h2]);
  }

  // ---- a recording whose timeline breaks ----

  /** A second of sound, a pause with a rotation in it, and two milliseconds more. */
  function RotatedWhilePaused(part: seq<Byte>): seq<Happening> {
    [Happening(1000.0, Commanded(Start)), Happening(1000.0, Commanded(Ready)),
     Happening(2000.0, OnChannel(Capture.Encode(0, part))), Happening(2000.0, Commanded(Pause)),
     Happening(5000.0, OnChannel(Capture.RotateTick)), Happening(5000.0, OnChannel(Capture.Data(0, part))),
     Happening(5000.0, OnChannel(Capture.Stopped(0, 4000.0, "a", ""))), Happening(5000.0, Commanded(Resume)),
     Happening(5002.0, OnChannel(Capture.Encode(1, part))), Happening(5002.0, Commanded(Stop)),
     Happening(5002.0, OnChannel(Capture.Data(1, part))),
       Happening(5002.0, OnChannel(Capture.Stopped(1, 1002.0, "b", "")))]
  }

  /** A second of sound, then the pause. */
  function PausedAfterSound(o: Capture.Options, part: Bytes): Studio {
    Studio(Clock(Paused, 1000.0, 0.0, 2000.0),
      Capture.ChannelState(o, true, false, [Capture.Live(true, part)], Capture.BufferState(0, [], 0, 0.0), part,
        [], []),
      2000.0)
  }

  lemma SoundThenPause(o: Capture.Options, part: Bytes)
    ensures StudioRun(Quiet(o), RotatedWhilePaused(part)[..4], PausedAfterSound(o, part))
  {
    var hs := RotatedWhilePaused(part)[..4];
    assert [] + part == part;
    var s1 := StudioStep(Quiet(o), hs[0]);
    var s2 := StudioStep(s1, hs[1]);
    assert s2.channel.encoders == [Capture.Live(false, [])];
    var s3 := StudioStep(s2, hs[2]);
    assert s3.channel.encoders == [Capture.Live(false, part)];
    var s4 := StudioStep(s3, hs[3]);
    assert s4.channel.encoders == [Capture.Live(true, part)];
    hide StudioStep, Possible;
    TraceIsRun([Quiet(o), s1, s2, s3, s4], hs);
  }

  /** Up to the chunk that ends in the pause, at a reading of four seconds. */
  lemma PausedChunk(o: Capture.Options, part: Bytes) returns (q: Studio)
    requires part != []
    ensures StudioRun(PausedAfterSound(o, part), RotatedWhilePaused(part)[4..7], q)
    ensures q.clock == Clock(Paused, 1000.0, 0.0, 2000.0) && q.now == 5000.0
    ensures q.channel.encoders == [Capture.Ended, Capture.Live(false, [])] && q.channel.active
    ensures q.channel.buffer == Capture.BufferState(1, [], 0, 4000.0)
    ensures |q.channel.emitted| == 1 && Capture.Durations(q.channel.emitted) == 4000
  {
    var hs := RotatedWhilePaused(part)[4..7];
    var s4 := PausedAfterSound(o, part);
    var s5 := StudioStep(s4, hs[0]);
    assert s5.channel.encoders == [Capture.Draining(part)];
    var s6 := StudioStep(s5, hs[1]);
    assert s6.channel.encoders == [Capture.Draining([])] && s6.channel.buffer.parts == [part];
    q := StudioStep(s6, hs[2]);
    assert q.channel.encoders == [Capture.Ended, Capture.Live(false, [])];
    var c := Capture.ChunkOf(o, s6.channel.buffer, 4000.0, "a", "");
    assert q.channel.emitted == [] + [c];
    Capture.DurationsPush([], c);
    assert Capture.Round(4000.0) == 4000;
    hide StudioStep, Possible;
    TraceIsRun([s4, s5, s6, q], hs);
  }

  /** Then two milliseconds of sound, and the stop. */
  lemma StoppedShortly(q: Studio, part: Bytes) returns (r: Studio)
    requires q.clock == Clock(Paused, 1000.0, 0.0, 2000.0) && q.now == 5000.0
    requires q.channel.encoders == [Capture.Ended, Capture.Live(false, [])]
    ensures StudioRun(q, RotatedWhilePaused(part)[7..10], r)
    ensures r.clock == Clock(Stopping, 1000.0, 3000.0, 2000.0) && r.now == 5002.0
    ensures r.channel.encoders == [Capture.Ended, Capture.Draining(part)] && !r.channel.active
    ensures r.channel.opts == q.channel.opts && r.channel.buffer == q.channel.buffer
    ensures r.channel.emitted == q.channel.emitted
  {
    var hs := RotatedWhilePaused(part)[7..10];
    assert [] + part == part;
    var s8 := StudioStep(q, hs[0]);
    assert s8.channel.encoders == q.channel.encoders;
    var s9 := StudioStep(s8, hs[1]);
    assert s9.channel.encoders == [Capture.Ended, Capture.Live(false, part)];
    r := StudioStep(s9, hs[2]);
    assert r.channel.encoders == [Capture.Ended, Capture.Draining(part)];
    hide StudioStep, Possible;
    TraceIsRun([q, s8, s9, r], hs);
  }

  lemma LastChunk(q: Studio, part: Bytes) returns (r: Studio)
    requires part != []
    requires q.clock == Clock(Stopping, 1000.0, 3000.0, 2000.0) && q.now == 5002.0 && !q.channel.active
    requires q.channel.encoders == [Capture.Ended, Capture.Draining(part)]
    requires q.channel.buffer == Capture.BufferState(1, [], 0, 4000.0)
    ensures StudioRun(q, RotatedWhilePaused(part)[10..], r) && r.channel.buffer.chunkStartOffsetMs == 1002.0
    ensures |r.channel.emitted| == |q.channel.emitted| + 1
    ensures Capture.Durations(r.channel.emitted) == Capture.Durations(q.channel.emitted)
  {
    var hs := RotatedWhilePaused(part)[10..];
    var s11 := StudioStep(q, hs[0]);
    assert s11.channel.encoders == [Capture.Ended, Capture.Draining([])] && s11.channel.buffer.parts == [part];
    r := StudioStep(s11, hs[1]);
    var c := Capture.ChunkOf(s11.channel.opts, s11.channel.buffer, 1002.0, "b", "");
    assert r.channel.emitted == q.channel.emitted + [c];
    Capture.DurationsPush(q.channel.emitted, c);
    hide StudioStep, Possible;
    TraceIsRun([q, s11, r], hs);
  }

  /**
   * Rotation goes on during a pause, and that breaks the timeline: the chunks last four seconds
   * together while the recording ends at one.
   */
  lemma PausedRotationBreaks(o: Capture.Options, part: Bytes) returns (r: Studio)
    requires part != []
    ensures StudioRun(Quiet(o), RotatedWhilePaused(part), r) && !Capture.Timeline(r.channel)
    ensures |r.channel.emitted| == 2 && Capture.Durations(r.channel.emitted) == 4000
    ensures r.channel.buffer.chunkStartOffsetMs == 1002.0
  {
    hide StudioStep, Possible, StudioRun, Capture.Durations;
    var hs := RotatedWhilePaused(part);
    SoundThenPause(o, part);
    var q := PausedChunk(o, part);
    var s := StoppedShortly(q, part);
    r := LastChunk(s, part);
    assert hs[..4] + hs[4..7] == hs[..7] && hs[..7] + hs[7..10] == hs[..10] && hs[..10] + hs[10..] == hs;
    StudioRunAppend(Quiet(o), hs[..4], PausedAfterSound(o, part), hs[4..7], q);
    StudioRunAppend(Quiet(o), hs[..7], q, hs[7..10], s);
    StudioRunAppend(Quiet(o), hs[..10], s, hs[10..], r);
  }

  lemma {:induction false} StudioRunAppend(s: Studio, a: seq<Happening>, q: Studio, b: seq<Happening>, r: Studio)
    requires StudioRun(s, a, q) && StudioRun(q, b, r)
    ensures StudioRun(s, a + b, r)
    decreases |a|
  {
    hide StudioStep, Possible;
    if a == [] {
      assert a + b == b;
    } else {
      StudioRunAppend(StudioStep(s, a[0]), a[1..], q, b, r);
      assert (a + b)[1..] == a[1..] + b;
    }
  }
}
