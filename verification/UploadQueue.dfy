/**
 * The retrying upload queue. `drain` is an asynchronous loop; every `await` in it is a
 * suspension point, so its state is the queue plus where each running loop is suspended.
 */
module UploadQueue {
  import opened Common
  import opened Lists

  const MAX_ATTEMPTS := 8
  const BASE_DELAY_MS := 1000
  const MAX_DELAY_MS := 30000

  /** `waited` logs the backoff slept for this task so far. */
  datatype Task = Task(chunk: AudioChunk, blob: Bytes, attempts: nat, waited: nat)

  /** The await a loop is suspended at. */
  datatype Await =
    | Requesting
    | Putting(key: string)
    | Committing(key: string)
    | Deleting(chunkId: string)
    | Sleeping(ms: nat)

  /** A running `drain` and the task it took from the head of the queue. */
  datatype Loop = Loop(chunk: AudioChunk, at: Await)

  datatype Outcome = Delivered(chunk: AudioChunk, attempts: nat, waited: nat) | GivenUp(chunk: AudioChunk, waited: nat)

  datatype QueueState = QueueState(
    tasks: seq<Task>, running: bool, loops: seq<Loop>, enqueued: seq<AudioChunk>, outcomes: seq<Outcome>)

  /** What can happen: a new chunk, or the settling of an awaited promise of some loop. */
  datatype QueueEvent =
    | Enqueue(chunk: AudioChunk, blob: Bytes)
    | TargetOk(i: nat, key: string)
    | UploadOk(i: nat)
    | CommitOk(i: nat)
    | AttemptFailed(i: nat)
    | Settled(i: nat)

  const IDLE := QueueState([], false, [], [], [])

  function Pow2(n: nat): nat {
    if n == 0 then 1 else 2 * Pow2(n - 1)
  }

  /** `Math.min(BASE_DELAY_MS * 2 ** (attempts - 1), 30_000)`. */
  function Delay(attempts: nat): nat
    requires attempts >= 1
  {
    var d := BASE_DELAY_MS * Pow2(attempts - 1);
    if d < MAX_DELAY_MS then d else MAX_DELAY_MS
  }

  /** The backoff before attempt `n + 1`. */
  function Backoff(n: nat): nat {
    if n == 0 then 0 else Backoff(n - 1) + Delay(n)
  }

  /** The backoff begins with a second and doubles up to 30 seconds; it comes to 91 before the last attempt. */
  lemma BackoffBound(n: nat)
    requires n <= 7
    ensures Delay(1) == 1000 && Delay(n + 2) == if 2 * Delay(n + 1) < 30000 then 2 * Delay(n + 1) else 30000
    ensures Backoff(n) <= 91000 && Backoff(7) == 91000
  {
    assert Pow2(1) == 2 && Pow2(2) == 4 && Pow2(3) == 8 && Pow2(4) == 16 && Pow2(5) == 32 && Pow2(6) == 64;
    assert Backoff(1) == 1000 && Backoff(2) == 3000 && Backoff(3) == 7000 && Backoff(4) == 15000;
    assert Backoff(5) == 31000 && Backoff(6) == 61000;
  }

  function WithoutLoop(loops: seq<Loop>, i: nat): seq<Loop>
    requires i < |loops|
  {
    loops[..i] + loops[i + 1..]
  }

  /** The head of the `while`: take the first task, or stop running. */
  function NextIteration(s: QueueState, i: nat): QueueState
    requires i < |s.loops|
  {
    if s.tasks == [] then s.(running := false, loops := WithoutLoop(s.loops, i))
    else s.(loops := s.loops[i := Loop(s.tasks[0].chunk, Requesting)])
  }

  /** A call of `drain`: it returns at once if one is running. */
  function Drain(s: QueueState): QueueState {
    if s.running then s
    else if s.tasks == [] then s
    else s.(running := true, loops := s.loops + [Loop(s.tasks[0].chunk, Requesting)])
  }

  predicate Attempting(a: Await) {
    a.Requesting? || a.Putting? || a.Committing?
  }

  predicate Enabled(s: QueueState, e: QueueEvent) {
    match e
    case Enqueue(_, _) => true
    case TargetOk(i, _) => i < |s.loops| && s.loops[i].at.Requesting?
    case UploadOk(i) => i < |s.loops| && s.loops[i].at.Putting?
    case CommitOk(i) => i < |s.loops| && s.loops[i].at.Committing?
    case AttemptFailed(i) => i < |s.loops| && Attempting(s.loops[i].at)
    case Settled(i) => i < |s.loops| && (s.loops[i].at.Deleting? || s.loops[i].at.Sleeping?)
  }

  function Suspend(s: QueueState, i: nat, at: Await): QueueState
    requires i < |s.loops|
  {
    s.(loops := s.loops[i := s.loops[i].(at := at)])
  }

  function Shift(tasks: seq<Task>): seq<Task> {
    if tasks == [] then [] else tasks[1..]
  }

  /** The upload succeeded: drop the head, then reclaim the local copy. */
  function Succeeded(s: QueueState, i: nat): QueueState
    requires i < |s.loops| && s.tasks != []
  {
    var c, t := s.loops[i].chunk, s.tasks[0];
    Suspend(s.(tasks := Shift(s.tasks), outcomes := s.outcomes + [Delivered(c, t.attempts + 1, t.waited)]), i,
      Deleting(c.id))
  }

  /** The upload failed: count it, and give up or back off. */
  function Retried(s: QueueState, i: nat): QueueState
    requires i < |s.loops| && s.tasks != []
  {
    var t := s.tasks[0];
    var n := t.attempts + 1;
    if n >= MAX_ATTEMPTS then
      NextIteration(s.(tasks := Shift(s.tasks), outcomes := s.outcomes + [GivenUp(s.loops[i].chunk, t.waited)]), i)
    else
      Suspend(s.(tasks := [t.(attempts := n, waited := t.waited + Delay(n))] + Shift(s.tasks)), i, Sleeping(Delay(n)))
  }

  function Step(s: QueueState, e: QueueEvent): QueueState
    requires Enabled(s, e)
  {
    match e
    case Enqueue(chunk, blob) =>
      Drain(s.(tasks := s.tasks + [Task(chunk, blob, 0, 0)], enqueued := s.enqueued + [chunk]))
    case TargetOk(i, key) => Suspend(s, i, Putting(key))
    case UploadOk(i) => Suspend(s, i, Committing(s.loops[i].at.key))
    case CommitOk(i) => if s.tasks == [] then s else Succeeded(s, i)
    case AttemptFailed(i) => if s.tasks == [] then s else Retried(s, i)
    case Settled(i) => NextIteration(s, i)
  }

  function ChunkOf(t: Task): AudioChunk { t.chunk }
  function Concluded(o: Outcome): AudioChunk { o.chunk }

  /** One loop while running and none otherwise; the loop works on the head; retries are bounded. */
  ghost predicate Inv(s: QueueState) {
    && |s.loops| == (if s.running then 1 else 0)
    && (s.tasks != [] ==> s.running)
    && (s.running && !s.loops[0].at.Deleting? ==> s.tasks != [] && s.tasks[0].chunk == s.loops[0].chunk)
    && (s.running && s.loops[0].at.Sleeping? ==>
       s.tasks[0].attempts >= 1 && s.loops[0].at.ms == Delay(s.tasks[0].attempts))
    && (forall k | 0 <= k < |s.tasks| ::
       s.tasks[k].attempts < MAX_ATTEMPTS && s.tasks[k].waited == Backoff(s.tasks[k].attempts))
    && (forall k | 1 <= k < |s.tasks| :: s.tasks[k].attempts == 0)
    && (forall k | 0 <= k < |s.outcomes| :: FairOutcome(s.outcomes[k]))
    && Mapped(s.outcomes, Concluded) + Mapped(s.tasks, ChunkOf) == s.enqueued
  }

  /** At most 8 attempts and 91 seconds of backoff; giving up takes all of them. */
  predicate FairOutcome(o: Outcome) {
    match o
    case Delivered(_, attempts, waited) => 1 <= attempts <= MAX_ATTEMPTS && waited == Backoff(attempts - 1)
    case GivenUp(_, waited) => waited == Backoff(MAX_ATTEMPTS - 1)
  }

  lemma IdleInv()
    ensures Inv(IDLE)
  {
  }

  lemma OrderOnShift(s: QueueState, o: Outcome)
    requires s.tasks != [] && o.chunk == s.tasks[0].chunk
    requires Mapped(s.outcomes, Concluded) + Mapped(s.tasks, ChunkOf) == s.enqueued
    ensures Mapped(s.outcomes + [o], Concluded) + Mapped(Shift(s.tasks), ChunkOf) == s.enqueued
  {
    hide Mapped;
    var rest := Shift(s.tasks);
    assert s.tasks == [s.tasks[0]] + rest;
    MappedFront(s.tasks[0], rest, ChunkOf);
    MappedPush(s.outcomes, o, Concluded);
    Reassociate(Mapped(s.outcomes, Concluded), o.chunk, Mapped(rest, ChunkOf));
  }

  lemma Reassociate(a: seq<AudioChunk>, c: AudioChunk, b: seq<AudioChunk>)
    ensures (a + [c]) + b == a + ([c] + b)
  {
  }

  lemma OrderOnEnqueue(s: QueueState, t: Task)
    requires Mapped(s.outcomes, Concluded) + Mapped(s.tasks, ChunkOf) == s.enqueued
    ensures Mapped(s.outcomes, Concluded) + Mapped(s.tasks + [t], ChunkOf) == s.enqueued + [t.chunk]
  {
    hide Mapped;
    MappedPush(s.tasks, t, ChunkOf);
  }

  lemma OrderOnRetry(s: QueueState, t: Task)
    requires s.tasks != [] && t.chunk == s.tasks[0].chunk
    ensures Mapped([t] + Shift(s.tasks), ChunkOf) == Mapped(s.tasks, ChunkOf)
  {
    hide Mapped;
    assert s.tasks == [s.tasks[0]] + Shift(s.tasks);
    MappedFront(s.tasks[0], Shift(s.tasks), ChunkOf);
    MappedFront(t, Shift(s.tasks), ChunkOf);
  }

  lemma EnqueueKeepsInv(s: QueueState, chunk: AudioChunk, blob: Bytes)
    requires Inv(s)
    ensures Inv(Step(s, Enqueue(chunk, blob)))
  {
    hide Mapped, Delay, Backoff, FairOutcome;
    OrderOnEnqueue(s, Task(chunk, blob, 0, 0));
    NoBackoff();
  }

  lemma CommitKeepsInv(s: QueueState, i: nat)
    requires Inv(s) && Enabled(s, CommitOk(i))
    ensures Inv(Step(s, CommitOk(i)))
  {
    hide Mapped, Delay, Backoff, FairOutcome;
    var o := Delivered(s.loops[i].chunk, s.tasks[0].attempts + 1, s.tasks[0].waited);
    OrderOnShift(s, o);
    DeliveredIsFair(s.tasks[0], o.chunk);
  }

  /** Single flight, queue order and the retry budget survive every event. */
  lemma StepKeepsInv(s: QueueState, e: QueueEvent)
    requires Inv(s) && Enabled(s, e)
    ensures Inv(Step(s, e))
  {
    match e
    case Enqueue(chunk, blob) => EnqueueKeepsInv(s, chunk, blob);
    case CommitOk(i) => CommitKeepsInv(s, i);
    case AttemptFailed(i) => FailedKeepsInv(s, i);
    case _ =>
  }

  lemma DeliveredIsFair(t: Task, c: AudioChunk)
    requires t.attempts < MAX_ATTEMPTS && t.waited == Backoff(t.attempts)
    ensures FairOutcome(Delivered(c, t.attempts + 1, t.waited))
  {
  }

  lemma GivenUpIsFair(t: Task, c: AudioChunk)
    requires t.attempts == MAX_ATTEMPTS - 1 && t.waited == Backoff(t.attempts)
    ensures FairOutcome(GivenUp(c, t.waited))
  {
  }

  lemma NoBackoff()
    ensures Backoff(0) == 0
  {
  }

  lemma FailedKeepsInv(s: QueueState, i: nat)
    requires Inv(s) && Enabled(s, AttemptFailed(i))
    ensures Inv(Step(s, AttemptFailed(i)))
  {
    hide Mapped, Delay, FairOutcome;
    var t := s.tasks[0];
    var n := t.attempts + 1;
    if n >= MAX_ATTEMPTS {
      OrderOnShift(s, GivenUp(s.loops[i].chunk, t.waited));
      assert FairOutcome(GivenUp(s.loops[i].chunk, t.waited)) by { GivenUpIsFair(t, s.loops[i].chunk); }
    } else {
      OrderOnRetry(s, t.(attempts := n, waited := t.waited + Delay(n)));
      assert Backoff(n) == Backoff(t.attempts) + Delay(n);
    }
  }

  lemma AttemptHasTask(s: QueueState, i: nat)
    requires Inv(s) && i < |s.loops| && Attempting(s.loops[i].at)
    ensures i == 0 && s.running && s.tasks != [] && s.tasks[0].chunk == s.loops[0].chunk
  {
  }

  /** `r` is where the events lead from `s`. */
  ghost predicate Run(s: QueueState, events: seq<QueueEvent>, r: QueueState)
    decreases |events|
  {
    if events == [] then r == s
    else Enabled(s, events[0]) && Run(Step(s, events[0]), events[1..], r)
  }

  lemma {:induction false} RunKeepsInv(s: QueueState, events: seq<QueueEvent>, r: QueueState)
    requires Inv(s) && Run(s, events, r)
    ensures Inv(r)
    decreases |events|
  {
    hide Inv, Step;
    if events != [] {
      StepKeepsInv(s, events[0]);
      RunKeepsInv(Step(s, events[0]), events[1..], r);
    }
  }

  lemma {:induction false} RunPush(s: QueueState, events: seq<QueueEvent>, r: QueueState, e: QueueEvent)
    requires Run(s, events, r) && Enabled(r, e)
    ensures Run(s, events + [e], Step(r, e))
    decreases |events|
  {
    hide Step, Enabled;
    if events == [] {
      assert [e][1..] == [] && ([] + [e])[0] == e && [] + [e] == [e];
      assert Run(Step(r, e), [], Step(r, e));
    } else {
      RunPush(Step(s, events[0]), events[1..], r, e);
      assert (events + [e])[1..] == events[1..] + [e];
    }
  }

  // ---- every drain ends ----

  function Remaining(t: Task): int { MAX_ATTEMPTS - t.attempts }

  /** The sum of the attempts the queued tasks have left. */
  function Budget(s: QueueState): int {
    Total(s.tasks, Remaining)
  }

  function Rank(a: Await): nat {
    match a
    case Requesting => 3
    case Putting(_) => 2
    case Committing(_) => 1
    case Deleting(_) => 4
    case Sleeping(_) => 4
  }

  function Work(s: QueueState): int {
    5 * Budget(s) + if s.running && s.loops != [] then Rank(s.loops[0].at) else 0
  }

  lemma TotalFront(t: Task, rest: seq<Task>)
    ensures Total([t] + rest, Remaining) == Remaining(t) + Total(rest, Remaining)
  {
    TotalAppend([t], rest, Remaining);
    assert [t][..0] == [];
    assert Total([t], Remaining) == Remaining(t);
  }

  /** Every settled attempt uses up budget, and between attempts the loop only moves forward. */
  lemma StepDecreases(s: QueueState, e: QueueEvent)
    requires Inv(s) && Enabled(s, e) && !e.Enqueue?
    ensures Work(Step(s, e)) < Work(s)
    ensures e.CommitOk? || e.AttemptFailed? ==> Budget(Step(s, e)) < Budget(s)
    ensures !(e.CommitOk? || e.AttemptFailed?) ==> Budget(Step(s, e)) == Budget(s)
  {
    hide Mapped, Delay, Backoff, Total;
    if e.CommitOk? || e.AttemptFailed? {
      var t, rest := s.tasks[0], Shift(s.tasks);
      assert s.tasks == [t] + rest;
      TotalFront(t, rest);
      TotalFront(t.(attempts := t.attempts + 1, waited := t.waited + Delay(t.attempts + 1)), rest);
    }
  }

  lemma {:induction false} BudgetBounds(tasks: seq<Task>)
    requires forall k | 0 <= k < |tasks| :: tasks[k].attempts < MAX_ATTEMPTS
    ensures |tasks| <= Total(tasks, Remaining) <= MAX_ATTEMPTS * |tasks|
  {
    if tasks != [] {
      BudgetBounds(tasks[..|tasks| - 1]);
    }
  }

  lemma WorkBounds(s: QueueState)
    requires Inv(s)
    ensures 0 <= Work(s) <= 40 * |s.tasks| + 4
  {
    hide Mapped, Delay, Backoff;
    BudgetBounds(s.tasks);
  }

  /** Without new chunks, a drain takes at most 40 steps a queued chunk and 4 more, whatever fails. */
  lemma {:induction false} DrainEnds(s: QueueState, events: seq<QueueEvent>, r: QueueState)
    requires Inv(s) && Run(s, events, r) && forall k | 0 <= k < |events| :: !events[k].Enqueue?
    ensures |events| + Work(r) <= Work(s)
    ensures |events| <= 40 * |s.tasks| + 4
    decreases |events|
  {
    hide Inv, Step, Enabled;
    WorkBounds(s);
    RunKeepsInv(s, events, r);
    WorkBounds(r);
    if events != [] {
      var t := Step(s, events[0]);
      StepKeepsInv(s, events[0]);
      StepDecreases(s, events[0]);
      DrainEnds(t, events[1..], r);
    }
  }

  /** A queue in which nothing can settle any more is empty and idle. */
  lemma QuiescentIsEmpty(s: QueueState)
    requires Inv(s) && forall e :: Enabled(s, e) ==> e.Enqueue?
    ensures s.tasks == [] && !s.running
  {
    if s.running {
      match s.loops[0].at {
        case Requesting => assert Enabled(s, AttemptFailed(0));
        case Putting(_) => assert Enabled(s, AttemptFailed(0));
        case Committing(_) => assert Enabled(s, AttemptFailed(0));
        case Deleting(_) => assert Enabled(s, Settled(0));
        case Sleeping(_) => assert Enabled(s, Settled(0));
      }
    }
  }

  // ---- exactly when a chunk is given up ----

  function HeadAttempts(s: QueueState): nat {
    if s.tasks == [] then 0 else s.tasks[0].attempts
  }

  /** What an event does to the outcomes and to the head's attempts. */
  lemma StepOutcome(s: QueueState, e: QueueEvent)
    requires Inv(s) && Enabled(s, e)
    ensures var t := Step(s, e); var n := HeadAttempts(s);
      && n < MAX_ATTEMPTS
      && if e.CommitOk? then
           && |t.outcomes| == |s.outcomes| + 1 && t.outcomes[..|s.outcomes|] == s.outcomes && HeadAttempts(t) == 0
           && t.outcomes[|s.outcomes|].Delivered? && t.outcomes[|s.outcomes|].attempts == n + 1
         else if e.AttemptFailed? && n == MAX_ATTEMPTS - 1 then
           && |t.outcomes| == |s.outcomes| + 1 && t.outcomes[..|s.outcomes|] == s.outcomes && HeadAttempts(t) == 0
           && t.outcomes[|s.outcomes|].GivenUp?
         else t.outcomes == s.outcomes && HeadAttempts(t) == n + if e.AttemptFailed? then 1 else 0
  {
    hide Mapped, Delay, Backoff, FairOutcome;
  }

  /** How many attempts fail while the first `k` chunks are concluded and the next is not. */
  ghost function FailuresAt(s: QueueState, events: seq<QueueEvent>, k: nat): nat
    decreases |events|
  {
    if events == [] || !Enabled(s, events[0]) then 0
    else
      (if events[0].AttemptFailed? && |s.outcomes| == k then 1 else 0) + FailuresAt(Step(s, events[0]), events[1..], k)
  }

  predicate DecidedBy(o: Outcome, failures: nat) {
    match o
    case Delivered(_, attempts, _) => failures < MAX_ATTEMPTS && attempts == failures + 1
    case GivenUp(_, _) => failures == MAX_ATTEMPTS
  }

  lemma {:induction false} OutcomesKept(s: QueueState, events: seq<QueueEvent>, r: QueueState)
    requires Inv(s) && Run(s, events, r)
    ensures |s.outcomes| <= |r.outcomes| && r.outcomes[..|s.outcomes|] == s.outcomes
    ensures forall k: nat | k < |s.outcomes| :: FailuresAt(s, events, k) == 0
    decreases |events|
  {
    hide Inv, Step, Enabled;
    if events != [] {
      var t := Step(s, events[0]);
      StepKeepsInv(s, events[0]);
      StepOutcome(s, events[0]);
      OutcomesKept(t, events[1..], r);
      assert r.outcomes[..|s.outcomes|] == r.outcomes[..|t.outcomes|][..|s.outcomes|];
    }
  }

  lemma {:induction false} FailuresDecide(s: QueueState, events: seq<QueueEvent>, r: QueueState, k: nat)
    requires Inv(s) && Run(s, events, r) && |s.outcomes| <= k < |r.outcomes|
    ensures DecidedBy(r.outcomes[k], (if k == |s.outcomes| then HeadAttempts(s) else 0) + FailuresAt(s, events, k))
    decreases |events|
  {
    hide Inv, Step, Enabled;
    if events != [] {
      var t := Step(s, events[0]);
      StepKeepsInv(s, events[0]);
      StepOutcome(s, events[0]);
      if k < |t.outcomes| {
        OutcomesKept(t, events[1..], r);
        assert r.outcomes[..|t.outcomes|][k] == r.outcomes[k];
      } else {
        FailuresDecide(t, events[1..], r, k);
      }
    }
  }

  /** A chunk is given up exactly when 8 attempts at it fail; delivered after n failures, it took n + 1. */
  lemma GivenUpExactlyAfterEight(events: seq<QueueEvent>, r: QueueState, k: nat)
    requires Run(IDLE, events, r) && k < |r.outcomes|
    ensures r.outcomes[k].GivenUp? <==> FailuresAt(IDLE, events, k) == MAX_ATTEMPTS
    ensures r.outcomes[k].Delivered? <==> FailuresAt(IDLE, events, k) < MAX_ATTEMPTS
    ensures r.outcomes[k].Delivered? ==> r.outcomes[k].attempts == FailuresAt(IDLE, events, k) + 1
  {
    hide Inv, Run, FailuresAt;
    IdleInv();
    FailuresDecide(IDLE, events, r, k);
  }

  /** The queue after `n` failed attempts at its only chunk. */
  function FailingAt(c: AudioChunk, blob: Bytes, n: nat): QueueState {
    QueueState([Task(c, blob, n, Backoff(n))], true, [Loop(c, Requesting)], [c], [])
  }

  lemma {:induction false} FailTimes(c: AudioChunk, blob: Bytes, n: nat) returns (events: seq<QueueEvent>)
    requires n < MAX_ATTEMPTS
    ensures Run(IDLE, events, FailingAt(c, blob, n))
  {
    hide Backoff, Delay;
    if n == 0 {
      events := [Enqueue(c, blob)];
      NoBackoff();
      NoEvents(IDLE);
      RunPush(IDLE, [], IDLE, Enqueue(c, blob));
      assert [] + [Enqueue(c, blob)] == events;
    } else {
      var before := FailTimes(c, blob, n - 1);
      var s := FailingAt(c, blob, n - 1);
      assert Backoff(n) == Backoff(n - 1) + Delay(n) by { NextBackoff(n); }
      RunPush(IDLE, before, s, AttemptFailed(0));
      var t := Step(s, AttemptFailed(0));
      assert t.tasks == [Task(c, blob, n, Backoff(n))] && t.loops == [Loop(c, Sleeping(Delay(n)))];
      RunPush(IDLE, before + [AttemptFailed(0)], t, Settled(0));
      events := before + [AttemptFailed(0)] + [Settled(0)];
      assert Step(t, Settled(0)) == FailingAt(c, blob, n);
    }
  }

  lemma NextBackoff(n: nat)
    requires n >= 1
    ensures Backoff(n) == Backoff(n - 1) + Delay(n)
  {
  }

  /** A network that stays down: after 8 attempts the chunk is dropped, and the queue is idle. */
  lemma StayingOfflineGivesUp(c: AudioChunk, blob: Bytes) returns (events: seq<QueueEvent>, r: QueueState)
    ensures Run(IDLE, events, r) && r.outcomes == [GivenUp(c, 91000)] && r.tasks == [] && !r.running
  {
    hide Delay, Backoff;
    var before := FailTimes(c, blob, MAX_ATTEMPTS - 1);
    var s := FailingAt(c, blob, MAX_ATTEMPTS - 1);
    BackoffBound(MAX_ATTEMPTS - 1);
    RunPush(IDLE, before, s, AttemptFailed(0));
    events, r := before + [AttemptFailed(0)], Step(s, AttemptFailed(0));
  }

  // ---- whole drains ----

  /** Where an attempt fails, if it does, and the key its upload target came with. */
  datatype Stage = AtTarget | AtUpload | AtCommit | Nowhere
  datatype Reply = Reply(key: string, fails: Stage)

  /** The loop, if one runs, is about to attempt the head. */
  ghost predicate AtHead(s: QueueState) {
    s.running ==> |s.loops| == 1 && s.loops[0].at.Requesting?
  }

  ghost predicate NoArrivals(events: seq<QueueEvent>) {
    forall k | 0 <= k < |events| :: !events[k].Enqueue?
  }

  /** How the attempts at a task end, when attempt `n` of the drain is its next. */
  function Conclude(t: Task, replies: nat -> Reply, n: nat): (o: Outcome)
    requires t.attempts < MAX_ATTEMPTS
    decreases MAX_ATTEMPTS - t.attempts
  {
    if replies(n).fails == Nowhere then Delivered(t.chunk, t.attempts + 1, t.waited)
    else if t.attempts + 1 >= MAX_ATTEMPTS then GivenUp(t.chunk, t.waited)
    else Conclude(Retrying(t), replies, n + 1)
  }

  function Retrying(t: Task): Task {
    t.(attempts := t.attempts + 1, waited := t.waited + Delay(t.attempts + 1))
  }

  /** How many attempts that takes. */
  function Used(t: Task, replies: nat -> Reply, n: nat): nat
    requires t.attempts < MAX_ATTEMPTS
    decreases MAX_ATTEMPTS - t.attempts
  {
    if replies(n).fails == Nowhere || t.attempts + 1 >= MAX_ATTEMPTS then 1 else 1 + Used(Retrying(t), replies, n + 1)
  }

  ghost predicate Attemptable(tasks: seq<Task>) {
    forall k | 0 <= k < |tasks| :: tasks[k].attempts < MAX_ATTEMPTS
  }

  /** The outcomes of a whole drain. */
  function ConcludeAll(tasks: seq<Task>, replies: nat -> Reply, n: nat): (r: seq<Outcome>)
    requires Attemptable(tasks)
    ensures |r| == |tasks|
  {
    if tasks == [] then []
    else [Conclude(tasks[0], replies, n)] + ConcludeAll(tasks[1..], replies, n + Used(tasks[0], replies, n))
  }

  /** The number of the first attempt at task `k`. */
  function FirstAttempt(tasks: seq<Task>, replies: nat -> Reply, n: nat, k: nat): nat
    requires k < |tasks| && Attemptable(tasks)
  {
    if k == 0 then n else FirstAttempt(tasks[1..], replies, n + Used(tasks[0], replies, n), k - 1)
  }

  /** One of the `tries` attempts from number `n` on is answered all the way. */
  ghost predicate Succeeds(replies: nat -> Reply, n: nat, tries: nat) {
    exists m: nat :: n <= m < n + tries && replies(m).fails == Nowhere
  }

  lemma SucceedsNext(replies: nat -> Reply, n: nat, tries: nat)
    requires tries > 0
    ensures Succeeds(replies, n, tries) <==> replies(n).fails == Nowhere || Succeeds(replies, n + 1, tries - 1)
  {
    if Succeeds(replies, n, tries) {
      var m: nat :| n <= m < n + tries && replies(m).fails == Nowhere;
      assert m == n || n + 1 <= m < n + 1 + (tries - 1);
    }
  }

  lemma {:induction false} ConcludedIf(t: Task, replies: nat -> Reply, n: nat)
    requires t.attempts < MAX_ATTEMPTS
    ensures Conclude(t, replies, n).Delivered? <==> Succeeds(replies, n, MAX_ATTEMPTS - t.attempts)
    ensures Conclude(t, replies, n).chunk == t.chunk
    decreases MAX_ATTEMPTS - t.attempts
  {
    hide Delay;
    SucceedsNext(replies, n, MAX_ATTEMPTS - t.attempts);
    if replies(n).fails != Nowhere && t.attempts + 1 < MAX_ATTEMPTS {
      ConcludedIf(Retrying(t), replies, n + 1);
    } else {
      NoTriesLeft(replies, n + 1);
    }
  }

  lemma NoTriesLeft(replies: nat -> Reply, n: nat)
    ensures !Succeeds(replies, n, 0)
  {
  }

  /** In a drain a chunk is delivered exactly when one of its remaining attempts succeeds: of 8, for a new one. */
  lemma {:induction false} DrainDecides(tasks: seq<Task>, replies: nat -> Reply, n: nat, k: nat)
    requires Attemptable(tasks) && k < |tasks|
    ensures var o := ConcludeAll(tasks, replies, n)[k];
      && o.chunk == tasks[k].chunk
      && (o.Delivered? <==> Succeeds(replies, FirstAttempt(tasks, replies, n, k), MAX_ATTEMPTS - tasks[k].attempts))
    decreases k
  {
    hide Conclude, Used, Succeeds;
    ConcludedIf(tasks[0], replies, n);
    if k > 0 {
      DrainDecides(tasks[1..], replies, n + Used(tasks[0], replies, n), k - 1);
    }
  }

  /** What one pass of the loop makes of the queue. */
  ghost predicate Passed(s: QueueState, r: QueueState, reply: Reply)
    requires s.tasks != [] && s.tasks[0].attempts < MAX_ATTEMPTS
  {
    var t := s.tasks[0];
    if reply.fails == Nowhere then
      r.tasks == s.tasks[1..] && r.outcomes == s.outcomes + [Delivered(t.chunk, t.attempts + 1, t.waited)]
    else if t.attempts + 1 >= MAX_ATTEMPTS then
      r.tasks == s.tasks[1..] && r.outcomes == s.outcomes + [GivenUp(t.chunk, t.waited)]
    else r.tasks == [Retrying(t)] + s.tasks[1..] && r.outcomes == s.outcomes
  }

  /** The events of a pass, one by one. */
  lemma PassMoves(s: QueueState, e: QueueEvent)
    requires Inv(s) && Enabled(s, e)
    ensures var r := Step(s, e);
      && (e.TargetOk? || e.UploadOk? || e.Settled? ==> r.tasks == s.tasks && r.outcomes == s.outcomes)
      && (e.CommitOk? ==> s.tasks != [] && s.tasks[0].attempts < MAX_ATTEMPTS && Passed(s, r, Reply("", Nowhere)))
      && (e.AttemptFailed? ==> s.tasks != [] && s.tasks[0].attempts < MAX_ATTEMPTS && Passed(s, r, Reply("", AtTarget)))
  {
    hide Mapped, Delay, Backoff, FairOutcome;
  }

  lemma PassConcludes(s: QueueState, r: QueueState, replies: nat -> Reply, n: nat)
    requires s.tasks != [] && Attemptable(s.tasks) && Passed(s, r, replies(n))
    ensures Attemptable(r.tasks)
    ensures |r.outcomes| >= |s.outcomes|
    ensures s.outcomes + ConcludeAll(s.tasks, replies, n) == r.outcomes + ConcludeAll(r.tasks, replies, n + 1)
  {
    hide Delay;
    var t, rest := s.tasks[0], s.tasks[1..];
    if replies(n).fails != Nowhere && t.attempts + 1 < MAX_ATTEMPTS {
      assert r.tasks[0] == Retrying(t) && r.tasks[1..] == rest;
    }
  }

  lemma InvAttemptable(s: QueueState)
    requires Inv(s)
    ensures Attemptable(s.tasks)
  {
  }

  lemma NoEvents(s: QueueState)
    ensures Run(s, [], s)
  {
  }

  lemma Starting(s: QueueState)
    requires Inv(s) && AtHead(s) && s.tasks != []
    ensures Run(s, [], s) && s.running && |s.loops| == 1 && s.loops[0].at.Requesting?
    ensures Enabled(s, AttemptFailed(0)) && forall key :: Enabled(s, TargetOk(0, key))
  {
  }

  /** What follows an event of a drain: the run is extended, the work shrinks, and the loop has moved on. */
  /** What can happen next after a step of the attempt. */
  lemma NextEnabled(s: QueueState, e: QueueEvent)
    requires Inv(s) && Enabled(s, e) && !e.Enqueue?
    ensures var t := Step(s, e);
      && (e.TargetOk? ==> Enabled(t, UploadOk(0)) && Enabled(t, AttemptFailed(0)))
      && (e.UploadOk? ==> Enabled(t, CommitOk(0)) && Enabled(t, AttemptFailed(0)))
      && (e.CommitOk? ==> Enabled(t, Settled(0)))
      && (e.Settled? ==> AtHead(t))
      && (e.AttemptFailed? && t.running ==>
         |t.loops| == 1 && (AtHead(t) || (t.loops[0].at.Sleeping? && Enabled(t, Settled(0)))))
      && (e.AttemptFailed? && !t.running ==> AtHead(t))
  {
    hide Mapped, Delay, Backoff, FairOutcome, Work;
  }

  lemma Advance(s0: QueueState, events: seq<QueueEvent>, s: QueueState, e: QueueEvent)
    requires Inv(s) && Run(s0, events, s) && Enabled(s, e) && NoArrivals(events) && !e.Enqueue?
    ensures var t := Step(s, e);
      && Inv(t) && Run(s0, events + [e], t) && NoArrivals(events + [e])
      && Work(t) < Work(s) && t.enqueued == s.enqueued
      && (e.TargetOk? ==> Enabled(t, UploadOk(0)) && Enabled(t, AttemptFailed(0)))
      && (e.UploadOk? ==> Enabled(t, CommitOk(0)) && Enabled(t, AttemptFailed(0)))
      && (e.CommitOk? ==> Enabled(t, Settled(0)))
      && (e.Settled? ==> AtHead(t))
      && (e.AttemptFailed? && t.running ==>
         |t.loops| == 1 && (AtHead(t) || (t.loops[0].at.Sleeping? && Enabled(t, Settled(0)))))
      && (e.AttemptFailed? && !t.running ==> AtHead(t))
  {
    NextEnabled(s, e);
    EnqueuedKept(s, e);
    hide Mapped, Delay, Work, Inv, Step, Enabled, Run, AtHead;
    StepKeepsInv(s, e);
    StepDecreases(s, e);
    RunPush(s0, events, s, e);
  }

  lemma EnqueuedKept(s: QueueState, e: QueueEvent)
    requires Enabled(s, e) && !e.Enqueue?
    ensures Step(s, e).enqueued == s.enqueued
  {
  }

  lemma {:induction false} RunAppend(s: QueueState, a: seq<QueueEvent>, m: QueueState, b: seq<QueueEvent>,
      r: QueueState)
    requires Run(s, a, m) && Run(m, b, r) && NoArrivals(a) && NoArrivals(b)
    ensures Run(s, a + b, r) && NoArrivals(a + b)
    decreases |a|
  {
    hide Step, Enabled;
    if a == [] {
      assert a + b == b;
    } else {
      RunAppend(Step(s, a[0]), a[1..], m, b, r);
      assert (a + b)[1..] == a[1..] + b;
    }
  }

  lemma DrainedIsConcluded(s: QueueState)
    requires Inv(s) && AtHead(s) && s.tasks == []
    ensures !s.running && Mapped(s.outcomes, Concluded) == s.enqueued
  {
    hide Delay;
    assert Mapped(s.outcomes, Concluded) + [] == Mapped(s.outcomes, Concluded);
  }

  // ---- the queue object ----

  class Uploader {
    var queue: seq<Task>
    var running: bool
    var loops: seq<Loop>
    ghost var enqueued: seq<AudioChunk>
    ghost var outcomes: seq<Outcome>

    constructor ()
      ensures State() == IDLE && Inv(State())
    {
      queue, running, loops, enqueued, outcomes := [], false, [], [], [];
    }

    ghost function State(): QueueState
      reads this
    {
      QueueState(queue, running, loops, enqueued, outcomes)
    }

    method Add(chunk: AudioChunk, blob: Bytes)
      requires Inv(State())
      modifies this
      ensures Inv(State()) && State() == Step(old(State()), Enqueue(chunk, blob))
    {
      hide Inv;
      StepKeepsInv(State(), Enqueue(chunk, blob));
      queue := queue + [Task(chunk, blob, 0, 0)];
      enqueued := enqueued + [chunk];
      StartDrain();
    }

    method StartDrain()
      modifies this
      ensures State() == Drain(old(State()))
    {
      if running || |queue| == 0 {
        return;
      }
      running := true;
      loops := loops + [Loop(queue[0].chunk, Requesting)];
    }

    method LoopHead(i: nat)
      requires i < |loops|
      modifies this
      ensures State() == NextIteration(old(State()), i)
    {
      if |queue| > 0 {
        loops := loops[i := Loop(queue[0].chunk, Requesting)];
      } else {
        running := false;
        loops := loops[..i] + loops[i + 1..];
      }
    }

    method OnCommitted(i: nat)
      requires Inv(State()) && Enabled(State(), CommitOk(i))
      modifies this
      ensures Inv(State()) && State() == Step(old(State()), CommitOk(i))
    {
      hide Inv;
      AttemptHasTask(State(), i);
      StepKeepsInv(State(), CommitOk(i));
      var task := queue[0];
      queue := queue[1..];
      outcomes := outcomes + [Delivered(loops[i].chunk, task.attempts + 1, task.waited)];
      loops := loops[i := loops[i].(at := Deleting(loops[i].chunk.id))];
    }

    method OnFailed(i: nat)
      requires Inv(State()) && Enabled(State(), AttemptFailed(i))
      modifies this
      ensures Inv(State()) && State() == Step(old(State()), AttemptFailed(i))
    {
      hide Inv, Delay;
      AttemptHasTask(State(), i);
      StepKeepsInv(State(), AttemptFailed(i));
      var task := queue[0];
      var n := task.attempts + 1;
      if n >= MAX_ATTEMPTS {
        queue := queue[1..];
        outcomes := outcomes + [GivenUp(loops[i].chunk, task.waited)];
        LoopHead(i);
      } else {
        var delay := Delay(n);
        queue := [task.(attempts := n, waited := task.waited + delay)] + queue[1..];
        loops := loops[i := loops[i].(at := Sleeping(delay))];
      }
    }

    /** A sleep is over, or the local deletion has settled, failed or not. */
    method OnSettled(i: nat)
      requires Inv(State()) && Enabled(State(), Settled(i))
      modifies this
      ensures Inv(State()) && State() == Step(old(State()), Settled(i))
    {
      hide Inv;
      StepKeepsInv(State(), Settled(i));
      LoopHead(i);
    }

    method OnTarget(i: nat, key: string)
      requires Inv(State()) && Enabled(State(), TargetOk(i, key))
      modifies this
      ensures Inv(State()) && State() == Step(old(State()), TargetOk(i, key))
    {
      hide Inv;
      StepKeepsInv(State(), TargetOk(i, key));
      loops := loops[i := loops[i].(at := Putting(key))];
    }

    method OnUploaded(i: nat)
      requires Inv(State()) && Enabled(State(), UploadOk(i))
      modifies this
      ensures Inv(State()) && State() == Step(old(State()), UploadOk(i))
    {
      hide Inv;
      StepKeepsInv(State(), UploadOk(i));
      loops := loops[i := loops[i].(at := Committing(loops[i].at.key))];
    }

    /** One pass of the loop: an attempt, and the wait after it. */
    method Attempt(reply: Reply) returns (ghost events: seq<QueueEvent>)
      requires Inv(State()) && AtHead(State()) && queue != []
      modifies this
      ensures Inv(State()) && AtHead(State()) && Work(State()) < Work(old(State()))
      ensures Run(old(State()), events, State()) && NoArrivals(events) && enqueued == old(enqueued)
      ensures old(queue)[0].attempts < MAX_ATTEMPTS && Passed(old(State()), State(), reply)
    {
      hide Inv, Run, Step, Enabled, Work, Retrying;
      Starting(State());
      events := [];
      if reply.fails != AtTarget {
        PassMoves(State(), TargetOk(0, reply.key));
        Advance(old(State()), events, State(), TargetOk(0, reply.key));
        OnTarget(0, reply.key);
        events := events + [TargetOk(0, reply.key)];
        if reply.fails != AtUpload {
          PassMoves(State(), UploadOk(0));
          Advance(old(State()), events, State(), UploadOk(0));
          OnUploaded(0);
          events := events + [UploadOk(0)];
          if reply.fails == Nowhere {
            PassMoves(State(), CommitOk(0));
            Advance(old(State()), events, State(), CommitOk(0));
            OnCommitted(0);
            events := events + [CommitOk(0)];
            PassMoves(State(), Settled(0));
            Advance(old(State()), events, State(), Settled(0));
            OnSettled(0);
            events := events + [Settled(0)];
            return;
          }
        }
      }
      PassMoves(State(), AttemptFailed(0));
      Advance(old(State()), events, State(), AttemptFailed(0));
      OnFailed(0);
      events := events + [AttemptFailed(0)];
      if running && loops[0].at.Sleeping? {
        PassMoves(State(), Settled(0));
        Advance(old(State()), events, State(), Settled(0));
        OnSettled(0);
        events := events + [Settled(0)];
      }
    }

    /**
     * A whole drain while nothing is enqueued: it ends with an empty queue and every chunk
     * concluded in the order of arrival, as the replies decide.
     */
    method DrainToEnd(replies: nat -> Reply) returns (ghost events: seq<QueueEvent>)
      requires Inv(State()) && AtHead(State())
      modifies this
      ensures Run(old(State()), events, State()) && NoArrivals(events) && enqueued == old(enqueued)
      ensures Inv(State()) && queue == [] && !running && Mapped(outcomes, Concluded) == enqueued
      ensures Attemptable(old(queue)) && outcomes == old(outcomes) + ConcludeAll(old(queue), replies, 0)
    {
      hide Inv, Run, AtHead, Work, Passed, ConcludeAll, Attemptable;
      InvAttemptable(State());
      var n: nat := 0;
      events := [];
      NoEvents(State());
      while |queue| > 0
        invariant Inv(State()) && AtHead(State()) && Run(old(State()), events, State()) && NoArrivals(events)
        invariant enqueued == old(enqueued) && Attemptable(queue) && Attemptable(old(queue))
        invariant outcomes + ConcludeAll(queue, replies, n) == old(outcomes) + ConcludeAll(old(queue), replies, 0)
        decreases Work(State())
      {
        ghost var was := State();
        WorkBounds(was);
        var more := Attempt(replies(n));
        PassConcludes(was, State(), replies, n);
        RunAppend(old(State()), events, was, more, State());
        events := events + more;
        n := n + 1;
      }
      DrainedIsConcluded(State());
      NothingLeft(replies, n);
      assert outcomes + [] == outcomes;
    }
  }

  lemma NothingLeft(replies: nat -> Reply, n: nat)
    ensures ConcludeAll([], replies, n) == []
  {
  }
}
