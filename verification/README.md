# A verified model of the recording durability path

The repository records audio in a browser, stores every finalised chunk locally before it is
uploaded, uploads it through a retrying queue, and commits it to a server that derives its
totals from the committed chunks; on the next launch it offers what a crash left behind. This
project models that path and proves what it promises, together with the byte-exact writers that
export a recording (PDF, WAV, WebVTT, SubRip) and the diarisation of a transcript.

## How it is laid out

- `Capture` is one channel: the chunk buffer and the stop/respawn machine around the encoder.
  `Recorder` is the lifecycle and the pause-aware clock; `RecorderObject` the recorder itself.
- `RecoveryStore` is the in-memory store, as a class and as a map it refines. `Reassemble` and
  `RecoveryManager` are the two reassembly algorithms and their agreement.
- `UploadQueue` is the retry loop. An asynchronous loop is a state machine: its state is the queue
  and the await each running loop is suspended at; the class has one method a callback, and
  `DrainToEnd` is the loop itself when nothing else happens in between.
- `Keys`, `Server` and `ServerObjects` are storage keys, requests against the tables and the
  object store as functions, and the services that change them in place; `Requests` says of each
  request when it is refused and what it writes.
- `Pipeline` puts them together as one transition system: each `await` is a step of its own, and
  the environment chooses encoder events, which promise settles next, which requests the network
  delivers (any number of times, with the reply arriving or not), other users' requests, deletions
  and crashes. `Durability` is its invariant, `Delivery` the server's part of it, `DurableRuns` its
  preservation by every event, and `Guarantees`, `CrashCost`, `Losses`, `Crashes`, `HandOver`,
  `Rebuild`, `Totals`, `StoreRuns` and `Convergence` what follows for every run. `Scenarios` builds the
  runs that show what can go wrong.
- `Pdf` and `PdfReader` (with `Summaries` on the text that is read), `Wav`, and `Transcript` are the
  writers, each with a reader that inverts it (sections 7.3.4.2, 7.3.7, 7.3.8, 7.5.4 and 7.5.5 of
  ISO 32000-1; section 4.1 of WebVTT). `Diarize` is the gap heuristic and the grouping by speaker.
- `Common`, `Wrappers`, `Lists`, `Grouping`, `JsMap`, `Text` and `Decimal` are the vocabulary.

Class methods are proved equal to a specification function, and the properties are proved of that
function. `dafny verify dfyconfig.toml` checks everything.

## What is assumed of the environment

These are the conditions of `Pipeline.Enabled` and are part of every statement about its runs.

- Session, channel, owner and other users' ids are letters, digits, '_' and '-', 1 to 128 long, as
  UUIDs and the three channel names are; a session id is used once (`crypto.randomUUID`, line 78 of
  apps/web/src/hooks/useRecorder.ts); chunk ids differ within a page, where a counter tells them
  apart; sequences are below 2^53.
- An encoder encodes nothing while paused, but may still hand over what it holds; a stopped one hands
  over all it has before its stop event, and nothing after. Event callbacks do not throw.
- A field that an update does not name keeps its value, as the database client has it.
- The user's uploads and commits come from these pages. The session id the client commits with
  (line 95 of apps/web/src/lib/uploader.ts) is the recording id the server asks for.
- Each call of the local store is one atomic step that may fail. Requests are handled one at a time.

## Where the code is weaker than its comments

- The queue's comment promises to retry indefinitely; it gives up after exactly 8 failures
  (`UploadQueue.GivenUpExactlyAfterEight`, with a run in `UploadQueue.StayingOfflineGivesUp`). What
  holds is `HandOver.GivenUpKeepsLocal`.
- The clock is meant to leave out pauses; it runs on during one and falls back on resume
  (`Recorder.ResumeFallsBack`), and rotation continues while paused
  (`Capture.RotationDuringPauseRecords`), which breaks the chunk timeline
  (`Recorder.PausedRotationBreaks`). By how much is `Recorder.DurationsOfEveryRun`; when not at all,
  `Recorder.TimelineHolds` and `Recorder.DurationsAreRecordedTime`.
- `stop` waits a fixed 50 ms before it closes the session; a slower `persistChunk` reopens it.
  `Crashes.ReopensExactlyIfStale` is the exact condition, `Scenarios.ClosedTooSoon` a run.
- A crash is said to cost at most one chunk; it costs the pending parts and every chunk that failed
  or is still being stored (`Losses.CrashCostsExactly`), which can be several
  (`Scenarios.TwoCanBeLost`), and is at most one a channel exactly when storing keeps up and none fails
  (`Losses.OnlyLastLostExactlyIf`; `Losses.AtMostOneChunk` says what keeping up means).
- A chunk is said to leave the local store only once it is committed; a chunk id is a time and a
  counter of the page (lines 35 to 39 of packages/audio-engine/src/chunk-buffer.ts), so two pages can
  use the same one, and then reclaiming one chunk may delete the other
  (`Scenarios.SharedIdLosesStoredChunk`, `StoreRuns.ReclaimTakesUnconfirmedExactly`).
- A commit is said to be refused for a corrupt chunk; one that names no checksum is not checked, and
  leaves the checksum of an earlier commit in the row, beside its own key
  (`Requests.OmittedChecksumStays`; `Requests.KeyWasChecked` says when the two belong together).
- `ownerIdSegment` is called a mirror of `safeSegment` but does not collapse runs, and keeps an id that
  is a single dot, which the ticket's key does not (`Keys.TicketPasses`, `Keys.RunsAreRejected`).

## Model

| member | source | states |
|---|---|---|
| `Guarantees.StoredIsNeverLost` | apps/web/src/lib/uploader.ts:27-104 | Over all runs: a chunk whose `putChunk` completed is still in the local store unchanged, or is a committed row whose storage key holds the same bytes, unless its session was discarded, its recording deleted, or a confirmed chunk of another page has its id |
| `StoreRuns.ReclaimTakesUnconfirmedExactly` | packages/audio-engine/src/recovery-store.ts:96-103 | Over every run of the store: reclaiming space after an upload takes an unconfirmed chunk if and only if the first chunk with the uploaded one's id, in the store's iteration order, is unconfirmed |
| `Scenarios.SharedIdLosesStoredChunk` | packages/audio-engine/src/chunk-buffer.ts:34-39 | A run of the store, with its own choices, in which two pages give their chunks the same id and the stored chunk of one is neither in the store nor on the server in the end |
| `Guarantees.EffectIsExactlyOnce` | apps/backend/src/chunks/chunks.service.ts:61-113 | After any interleaving of repeated uploads and commits, crashes and other users' requests: rows are unique per (recording, channel, sequence), every row of the user is that of one stored chunk and has its start, duration and MIME type, the number of its bytes and their digest, and every accepted commit has its row and bytes until the recording is deleted |
| `Totals.ConfirmedRow` | apps/web/src/lib/uploader.ts:94-103 | In every reached state the row of a confirmed chunk has the finalised chunk's start, duration and type, the number of its bytes and their digest |
| `Totals.FirstRows` | apps/backend/src/chunks/chunks.service.ts:81-100 | Once a channel's first n chunks are confirmed their rows are the n rows of sequence 0 to n - 1, and add up to the chunks' duration and to the number of their bytes |
| `Totals.ChannelAddsUp` | apps/backend/src/recordings/recordings.service.ts:77-87 | With all of a channel's finalised chunks confirmed, all rows the server has of the channel add up to their duration and bytes: none is missing or counted twice |
| `Totals.RecordingAddsUp` | apps/backend/src/recordings/recordings.service.ts:73-93 | With all of a session's chunks confirmed, the recording's size is the number of bytes of all its channels and its duration that of the longest channel |
| `Totals.CapturedAddsUp` | apps/backend/src/recordings/recordings.service.ts:73-93 | End to end while the page lives: once every chunk emitted is confirmed, the recording's size is the number of bytes captured in them, and its duration the sum of the chunk durations of the longest channel |
| `DurableRuns.StepKeepsInv` | packages/audio-engine/src/recorder.ts:165-189 | Every event of the system (capture, each await of persisting and uploading, delivery, duplication, removal, crash) keeps the whole invariant: log, store, server, accounting and pages |
| `DurableRuns.RunKeepsInv` | apps/web/src/lib/uploader.ts:49-104 | The invariant holds after every run |
| `DurableRuns.ReclaimedKeepsStore` | apps/web/src/lib/uploader.ts:65-68 | The local deletion after an upload takes only a chunk whose commit was confirmed, or one that has the id of such a chunk |
| `Delivery.DeliveredKeepsServer` | apps/backend/src/chunks/chunks.service.ts:49-113 | Delivering any request ever sent, first or again, keeps: answered uploads have their bytes, accepted commits their row, and no row but those of stored chunks |
| `Delivery.RequestKeepsServer` | apps/backend/src/chunks/chunks.service.ts:34-62 | Requests of other users, and opening or completing one's own recordings, disturb no row and no byte of the user's chunks |
| `Delivery.RemovedKeepsServer` | apps/backend/src/recordings/recordings.service.ts:68-71 | Deleting a recording takes its rows and no others |
| `Convergence.QueueConverges` | apps/web/src/lib/uploader.ts:49-104 | From every reached state and from whatever await the queue is in there is a run that empties it, with every chunk in it a committed row with its bytes |
| `Convergence.HeadCanBeDelivered` | apps/web/src/lib/uploader.ts:84-104 | From every await of an attempt the chunk at the head can be uploaded and committed: ticket key, namespace, size, checksum and ownership checks all pass, and the queue moves on |
| `Convergence.TargetAnswers` | apps/backend/src/chunks/chunks.service.ts:34-47 | A ticket is issued to the recording's owner only, with the chunk's own key |
| `Crashes.SurvivorsAreRecoverable` | packages/audio-engine/src/recovery-manager.ts:33-49 | After a crash at any step, a session with an open manifest and any chunk left is recoverable; a session with a chunk left that was neither closed nor discarded has an open manifest |
| `Losses.CrashCostsExactly` | packages/audio-engine/src/recorder.ts:165-189 | What a crash costs a channel, exactly: what was encoded is its chunks' bytes, the pending parts and what the encoder had not handed over; after the crash a chunk survives in store or server if and only if its `putChunk` had completed, that is, if and only if it had neither failed nor was in flight |
| `Losses.OnlyLastLostExactlyIf` | packages/audio-engine/src/recorder.ts:165-197 | A crash costs a channel at most its last chunk if and only if no earlier one had failed or was in flight |
| `Losses.ExactlyOneFate` | packages/audio-engine/src/recorder.ts:166-189 | While its page lives, a finalised chunk is stored, or failed, or in flight, and exactly one of the three |
| `Losses.LostForGood` | packages/audio-engine/src/recorder.ts:165-189 | A chunk not stored when its page went is never stored or committed in any continuation |
| `Scenarios.TwoCanBeLost` | packages/audio-engine/src/recorder.ts:165-197 | A run that has two chunks of one channel in flight, both lost by a crash |
| `Losses.AtMostOneChunk` | packages/audio-engine/src/recorder.ts:165-197 | If each `putChunk` has completed or failed before the next chunk of its channel ends, then of the chunks before the channel's last a crash takes none: each survives if and only if it had not failed |
| `CrashCost.CapturedBytes` | packages/audio-engine/src/channel-recorder.ts:49-72 | Byte by byte, what a channel received is what its finalised chunks hold followed by the pending parts, and what was encoded is that followed by what the encoder has not handed over |
| `Rebuild.ReachedCounts` | packages/audio-engine/src/chunk-buffer.ts:98-125 | In every reached state, page gone or not, the chunks a channel has finalised are those of sequence 0 to n - 1 for some n |
| `Rebuild.RecoveryRebuilds` | packages/audio-engine/src/recovery-manager.ts:54-76 | In any reached state, page gone or not: when the chunks a channel has finalised are in the store, what recovery returns for the session has that channel, with their bytes in order, their duration and the first one's MIME type, and reports it complete |
| `Rebuild.ServerRebuilds` | apps/backend/src/chunks/chunks.service.ts:114-122 | In any reached state: when the first n chunks of a channel are confirmed, the server's rows in sequence order lead to their bytes |
| `Rebuild.StoredIsHeld` | packages/audio-engine/src/recovery-manager.ts:54-76 | In any reached state, also after a crash: the stored chunks of a channel, each from the store or else from the server, give their bytes in order |
| `Rebuild.CapturedIsHeld` | packages/audio-engine/src/channel-recorder.ts:49-72 | Whatever a channel had captured at some moment is, in any later state in which its chunks had been stored, held by store and server together, up to the parts then pending |
| `HandOver.GivenUpKeepsLocal` | apps/web/src/lib/uploader.ts:69-74 | A chunk dropped after its 8 failures is still in the local store, unless its session was discarded or a confirmed chunk of another page has its id |
| `Crashes.ReopensExactlyIfStale` | packages/audio-engine/src/recorder.ts:166-173 | A session that is not open can be open again later if and only if some `persistChunk` of it still holds a manifest copy read before it was closed |
| `Crashes.ClosingTooSoonReopens` | packages/audio-engine/src/recorder.ts:234-240 | A `markClosed` between the manifest read and write of a `persistChunk` is undone by the write |
| `Scenarios.ClosedTooSoon` | packages/audio-engine/src/recorder.ts:229-243 | A run that closes a session and ends with it open |
| `StoreRuns.StoreSimulates` | packages/audio-engine/src/recovery-store.ts:56-111 | From the empty store through any run, with the store itself choosing what a deletion by id finds, the string-keyed store holds exactly the pipeline's manifests and chunks by (session, channel, sequence) |
| `StoreRuns.OfferSurvivors` | packages/audio-engine/src/recovery-manager.ts:34-49 | Over the store any run has left, the manager offers every session with an open manifest and a surviving chunk, and no other |
| `UploadQueue.StepKeepsInv` | apps/web/src/lib/uploader.ts:49-82 | Single flight, a non-empty queue is being drained, the loop works on the head, outcomes and queue together are the chunks in order of arrival, at most 8 attempts, exact backoff |
| `UploadQueue.RunKeepsInv` | apps/web/src/lib/uploader.ts:49-82 | The queue discipline holds after every run of callbacks |
| `UploadQueue.BackoffBound` | apps/web/src/lib/uploader.ts:76-76 | The delay begins with 1000 ms and doubles up to 30,000; the backoff before any of the 8 attempts is at most, and before the last exactly, 91,000 ms |
| `UploadQueue.StepDecreases` | apps/web/src/lib/uploader.ts:58-81 | Each settled attempt lowers the sum of attempts left; every other settling only moves the loop forward |
| `UploadQueue.DrainEnds` | apps/web/src/lib/uploader.ts:55-82 | Without new chunks a drain is over within 40 steps a queued chunk and 4 more, whatever fails |
| `UploadQueue.QuiescentIsEmpty` | apps/web/src/lib/uploader.ts:55-82 | A queue nothing can settle in any more is empty and not running |
| `UploadQueue.Uploader.constructor` | apps/web/src/lib/uploader.ts:35-43 | A new queue is empty and idle |
| `UploadQueue.Uploader.Add` | apps/web/src/lib/uploader.ts:49-53 | `enqueue`: appends the task and starts a drain if none runs |
| `UploadQueue.Uploader.StartDrain` | apps/web/src/lib/uploader.ts:55-59 | A second drain returns at once |
| `UploadQueue.Uploader.OnTarget` | apps/web/src/lib/uploader.ts:86-92 | The ticket's key is what the upload goes to |
| `UploadQueue.Uploader.OnUploaded` | apps/web/src/lib/uploader.ts:92-94 | A stored upload leads to its commit |
| `UploadQueue.Uploader.OnCommitted` | apps/web/src/lib/uploader.ts:62-68 | A commit drops the head and only then deletes the local copy |
| `UploadQueue.Uploader.OnFailed` | apps/web/src/lib/uploader.ts:69-79 | A failure counts an attempt, then gives up at 8 or waits the capped doubling delay |
| `UploadQueue.Uploader.OnSettled` | apps/web/src/lib/uploader.ts:58-68 | After the wait or the deletion the loop takes the head again or stops |
| `UploadQueue.Uploader.Attempt` | apps/web/src/lib/uploader.ts:58-80 | One pass of the loop is a run of the queue and shrinks the work left |
| `UploadQueue.Uploader.DrainToEnd` | apps/web/src/lib/uploader.ts:55-82 | A whole drain ends empty and idle, every chunk concluded in order of arrival, delivered or given up as the replies decide |
| `UploadQueue.DrainDecides` | apps/web/src/lib/uploader.ts:60-80 | In a drain a chunk is delivered if and only if one of its remaining attempts, 8 for a new one, is answered all the way |
| `UploadQueue.GivenUpExactlyAfterEight` | apps/web/src/lib/uploader.ts:69-74 | Over any run of callbacks: a chunk is given up if and only if exactly 8 attempts at it failed; delivered after n failures it took n + 1 attempts |
| `UploadQueue.StayingOfflineGivesUp` | apps/web/src/lib/uploader.ts:60-80 | A run that gives up: 8 failures and 91,000 ms of backoff later the chunk is dropped and the queue idle |
| `Capture.RunKeepsInv` | packages/audio-engine/src/channel-recorder.ts:44-98 | After any run of sound, data, rotate, pause, resume, stop and encoder events: emitted parts in order then pending parts are the non-empty parts received, which are every byte encoded but for what the last encoder holds; sizes add up, sequences are 0..n-1, at most one encoder is unfinished |
| `Capture.StopIsForGood` | packages/audio-engine/src/channel-recorder.ts:92-98 | After `stop` no encoder is live or spawned again, in any continuation |
| `Capture.NothingPending` | packages/audio-engine/src/channel-recorder.ts:63-72 | Once the last encoder has fired its stop event nothing is pending, and the emitted chunks are all bytes ever encoded |
| `Capture.DrainingEnds` | packages/audio-engine/src/channel-recorder.ts:63-72 | A stopped encoder can always hand over what it holds and end, and is replaced by one that records exactly while the channel is active |
| `Capture.PausedIsQuiet` | packages/audio-engine/src/channel-recorder.ts:83-85 | Over any run without a resume, rotation, stop or loss of the track a paused encoder records nothing |
| `Capture.RotationDuringPauseRecords` | packages/audio-engine/src/recorder.ts:191-197 | A rotation tick during a pause ends with a recording encoder |
| `Capture.DurationsExceedByLateness` | packages/audio-engine/src/chunk-buffer.ts:98-125 | Over every run summed durations exceed the last end offset by the lateness of the chunk ends, within half a millisecond a chunk; the lateness is 0 if and only if every chunk ends after it began |
| `Capture.LatenessBreaks` | packages/audio-engine/src/chunk-buffer.ts:98-125 | A lateness of more milliseconds than there are chunks always breaks the timeline |
| `Capture.TimelineOverRuns` | packages/audio-engine/src/chunk-buffer.ts:98-125 | Over any number of rotations at nondecreasing offsets durations sum to the last end offset within half a millisecond a chunk, and each start is within 1 ms of the previous start plus duration |
| `Capture.ChunkBuffer.constructor` | packages/audio-engine/src/chunk-buffer.ts:42-58 | A new buffer: sequence 0, nothing pending, start at 0 |
| `Capture.ChunkBuffer.AddPart` | packages/audio-engine/src/chunk-buffer.ts:78-81 | A part is appended and its size added |
| `Capture.ChunkBuffer.ShouldRotate` | packages/audio-engine/src/chunk-buffer.ts:87-90 | Due exactly when something is pending and the duration has passed |
| `Capture.ChunkBuffer.Rotate` | packages/audio-engine/src/chunk-buffer.ts:98-125 | Finalises the pending parts under the next sequence and anchors the next chunk; an empty buffer is left alone |
| `Capture.ChannelRecorder.constructor` | packages/audio-engine/src/channel-recorder.ts:31-38 | A new channel has no encoder and an empty buffer of its own |
| `Capture.ChannelRecorder.StartCapture` | packages/audio-engine/src/channel-recorder.ts:44-47 | Starts the first encoder and keeps the invariant |
| `Capture.ChannelRecorder.OnDataAvailable` | packages/audio-engine/src/channel-recorder.ts:51-55 | Non-empty data is buffered; the invariant is kept |
| `Capture.ChannelRecorder.HandleStopEvent` | packages/audio-engine/src/channel-recorder.ts:63-72 | Emits the finalised chunk with its parts as one blob, and respawns exactly while active |
| `Capture.ChannelRecorder.RotateChannel` | packages/audio-engine/src/channel-recorder.ts:75-81 | Stops the encoder unless stopping already |
| `Capture.ChannelRecorder.PauseChannel` | packages/audio-engine/src/channel-recorder.ts:83-85 | Pauses a recording encoder only |
| `Capture.ChannelRecorder.ResumeChannel` | packages/audio-engine/src/channel-recorder.ts:87-89 | Resumes a paused encoder only |
| `Capture.ChannelRecorder.StopChannel` | packages/audio-engine/src/channel-recorder.ts:92-98 | Stops for good and keeps the invariant |
| `Recorder.ClockIsRecordedTime` | packages/audio-engine/src/recorder.ts:75-82 | While recording the reading is exactly the time spent recording, all completed pauses taken out; during a pause it is ahead by the pause so far; after a stop by the time since and by a pause the stop cut short |
| `Recorder.EncoderFollowsRecorder` | packages/audio-engine/src/recorder.ts:214-243 | In every recording at most the last encoder is unfinished; while the recorder runs it records or is just being replaced, never paused; from the stop on none records |
| `Recorder.PausePauses` | packages/audio-engine/src/recorder.ts:214-219 | An accepted pause leaves no encoder recording, but one that is being replaced, and loses nothing an encoder holds |
| `Recorder.ResumeResumes` | packages/audio-engine/src/recorder.ts:221-227 | After an accepted resume no encoder is paused, and sound is recorded again |
| `Recorder.PauseRecordsNothing` | packages/audio-engine/src/recorder.ts:214-227 | However long the recorder stays paused with its encoder paused, nothing is recorded |
| `Recorder.StopEmitsAll` | packages/audio-engine/src/recorder.ts:229-240 | An accepted stop, also of a paused recorder, is for good in every continuation, and once the last encoder has ended the emitted chunks are all bytes encoded before and after the stop |
| `Recorder.StoppedEnds` | packages/audio-engine/src/recorder.ts:229-240 | After a stop the last encoder can always come to its end |
| `Recorder.ReadingsNeverDecrease` | packages/audio-engine/src/recorder.ts:75-82 | Readings not counting an unfinished pause never decrease over any run |
| `Recorder.ResumeContinues` | packages/audio-engine/src/recorder.ts:214-227 | The reading right after a resume is the reading at the pause |
| `Recorder.ResumeFallsBack` | packages/audio-engine/src/recorder.ts:76-82 | The reading falls back on resume exactly when the pause lasted at all |
| `Recorder.TimelineHolds` | packages/audio-engine/src/recorder.ts:191-240 | For a whole recording under the recorder's clock, the channel timeline holds if no chunk ends while paused |
| `Recorder.DurationsOfEveryRun` | packages/audio-engine/src/chunk-buffer.ts:50-54 | For every recording under the recorder's clock, chunk durations sum to the last end offset plus the lateness, which is 0 if and only if no chunk ends before it began |
| `Recorder.DurationsAreRecordedTime` | packages/audio-engine/src/chunk-buffer.ts:50-54 | When no chunk has ended while paused, durations at the end of any chunk sum to the time spent recording up to it within half a millisecond a chunk; the chunk that ends after a stop adds the time since the stop and a pause it cut short |
| `Recorder.PausedRotationBreaks` | packages/audio-engine/src/recorder.ts:191-227 | A run rotated during a pause whose two chunks last 4000 ms together while the recording ends at 1002 ms |
| `Recorder.PausedEndIsLate` | packages/audio-engine/src/recorder.ts:191-227 | After a chunk that ended during a pause, the next end is late by exactly what is left of the pause then elapsed |
| `RecorderObject.AudioRecorder.GetOffsetMs` | packages/audio-engine/src/recorder.ts:76-82 | The clock's reading |
| `RecorderObject.AudioRecorder.ForEachChannel` | packages/audio-engine/src/recorder.ts:192-197 | A command reaches every channel, each by its own machine |
| `RecorderObject.AudioRecorder.PauseRecording` | packages/audio-engine/src/recorder.ts:214-219 | Pauses clock and channels, only when recording |
| `RecorderObject.AudioRecorder.ResumeRecording` | packages/audio-engine/src/recorder.ts:221-227 | Resumes clock and channels, adding the pause to the account, only when paused |
| `RecorderObject.AudioRecorder.BeginStop` | packages/audio-engine/src/recorder.ts:229-235 | Stops every channel, only when recording or paused |
| `RecorderObject.AudioRecorder.FinishStop` | packages/audio-engine/src/recorder.ts:237-243 | Closes the session's manifest and leaves the chunks |
| `RecorderObject.AudioRecorder.StartRecording` | packages/audio-engine/src/recorder.ts:89-151 | The manifest is written before any channel starts; starting fails from other states, without channels, or if the write fails, each with its own state |
| `RecorderObject.AudioRecorder.PersistChunk` | packages/audio-engine/src/recorder.ts:166-189 | A chunk is counted and handed over only when it is in the store; when it cannot be stored, the store is as it was |
| `RecoveryStore.MemoryRecoveryStore.constructor` | packages/audio-engine/src/recovery-store.ts:56-58 | A new store is empty |
| `RecoveryStore.MemoryRecoveryStore.PutManifest` | packages/audio-engine/src/recovery-store.ts:60-62 | Sets the session's manifest |
| `RecoveryStore.MemoryRecoveryStore.GetManifest` | packages/audio-engine/src/recovery-store.ts:64-67 | Present exactly for a known session, and the manifest of that session |
| `RecoveryStore.MemoryRecoveryStore.ListOpenSessions` | packages/audio-engine/src/recovery-store.ts:73-75 | Exactly the manifests not closed, one a session, in the order they were first written |
| `RecoveryStore.MemoryRecoveryStore.MarkClosed` | packages/audio-engine/src/recovery-store.ts:77-83 | Closes a known session only |
| `RecoveryStore.MemoryRecoveryStore.PutChunk` | packages/audio-engine/src/recovery-store.ts:85-87 | Sets the chunk under its key |
| `RecoveryStore.MemoryRecoveryStore.GetChunks` | packages/audio-engine/src/recovery-store.ts:89-94 | Exactly the chunks under the session's prefix, in strictly ascending key order |
| `RecoveryStore.MemoryRecoveryStore.DeleteChunk` | packages/audio-engine/src/recovery-store.ts:96-103 | Removes the first chunk with the id |
| `RecoveryStore.MemoryRecoveryStore.DeleteSession` | packages/audio-engine/src/recovery-store.ts:105-110 | Removes the manifest and every key under the prefix |
| `RecoveryStore.KeyInjective` | packages/audio-engine/src/recovery-store.ts:48-50 | For ids without ':' a key determines its chunk |
| `RecoveryStore.PrefixIsSession` | packages/audio-engine/src/recovery-store.ts:89-91 | For ids without ':' a session's prefix selects that session's keys only |
| `RecoveryStore.PutRefines` | packages/audio-engine/src/recovery-store.ts:85-87 | Storing refines an update of the map by (session, channel, sequence) |
| `RecoveryStore.GetRefines` | packages/audio-engine/src/recovery-store.ts:89-94 | Reading a session gives exactly its chunks of the map |
| `RecoveryStore.DeleteSessionRefines` | packages/audio-engine/src/recovery-store.ts:105-110 | Deleting a session takes all of its chunks and none of another's |
| `RecoveryStore.DeleteFirstRefines` | packages/audio-engine/src/recovery-store.ts:96-103 | Deleting by id takes from the map exactly one chunk of that id, and nothing if there is none, also when chunks share an id |
| `RecoveryStore.DeleteByIdRefines` | packages/audio-engine/src/recovery-store.ts:96-103 | Deleting by id leaves no chunk of the id if and only if at most one had it |
| `RecoveryStore.KeyOrderIsSequenceOrder` | packages/audio-engine/src/recovery-store.ts:89-94 | Below a million the string order of a channel's keys is the order of sequences |
| `RecoveryStore.KeyOrderHoldsExactly` | packages/audio-engine/src/recovery-store.ts:48-50 | Key order is sequence order on 0 to n - 1 if and only if n is at most 1,000,000 |
| `RecoveryStore.ColonsMixSessions` | packages/audio-engine/src/recovery-store.ts:89-91 | With colons in an id a session's prefix selects another session's chunk of any number |
| `Reassemble.ReassembleChannel` | packages/audio-engine/src/reassemble.ts:35-75 | The loops compute the channel plan |
| `Reassemble.PlanReassembly` | packages/audio-engine/src/reassemble.ts:80-99 | The loops compute the session plan |
| `Reassemble.GapsAreExact` | packages/audio-engine/src/reassemble.ts:51-59 | `ordered` is strictly increasing; it and the missing sequences partition 0 to the largest |
| `Reassemble.ContiguousIsExact` | packages/audio-engine/src/reassemble.ts:63-64 | Contiguous means every sequence up to the largest is present, and there is one |
| `Reassemble.DuplicatesAreExact` | packages/audio-engine/src/reassemble.ts:40-41 | The duplicates are exactly the sequences that occur more than once, each once |
| `Reassemble.KeptIsLargest` | packages/audio-engine/src/reassemble.ts:42-48 | The kept chunk has the largest size of its sequence, and is the last such |
| `Reassemble.SizesAreOrderFree` | packages/audio-engine/src/reassemble.ts:51-62 | Kept sizes and the byte total do not depend on the order of the input |
| `Reassemble.PlanBytesAreOrderFree` | packages/audio-engine/src/reassemble.ts:80-99 | The session's byte total does not depend on the order of the input |
| `Reassemble.ReplanIsFixed` | packages/audio-engine/src/reassemble.ts:35-75 | Planning the ordered chunks again changes nothing and finds no duplicate |
| `Reassemble.CleanIsExact` | packages/audio-engine/src/reassemble.ts:92-96 | Clean means there are chunks and every channel with chunks is contiguous |
| `Reassemble.PlanKeeps` | packages/audio-engine/src/reassemble.ts:35-99 | For every surviving chunk the plan has one entry of its channel, which keeps a chunk of its sequence that is no smaller |
| `Reassemble.PlanKeepsOnly` | packages/audio-engine/src/reassemble.ts:35-99 | The plan keeps nothing but surviving chunks, each under its own channel |
| `Reassemble.PlanBytesPositive` | packages/audio-engine/src/recovery-manager.ts:43-46 | The plan has bytes exactly when some chunk has |
| `RecoveryManager.RecoveryManager.FindRecoverable` | packages/audio-engine/src/recovery-manager.ts:34-49 | Offers exactly the open sessions with a surviving byte, each once and with the plan of its chunks |
| `RecoveryManager.RecoveryManager.ReassembleSession` | packages/audio-engine/src/recovery-manager.ts:54-76 | Rebuilds every channel of the session |
| `RecoveryManager.RecoveryManager.Discard` | packages/audio-engine/src/recovery-manager.ts:79-81 | Deletes the session from the store |
| `RecoveryManager.RecoveryManager.MarkHandled` | packages/audio-engine/src/recovery-manager.ts:84-86 | Closes the session and keeps its chunks |
| `RecoveryManager.LengthTestIsGapScan` | packages/audio-engine/src/recovery-manager.ts:71-72 | Pigeonhole: an increasing list has length last+1 exactly when no sequence is missing |
| `RecoveryManager.ChannelAgreement` | packages/audio-engine/src/recovery-manager.ts:65-73 | On distinct sequences both algorithms find the same order, totals and verdict |
| `RecoveryManager.SessionAgreement` | packages/audio-engine/src/recovery-manager.ts:54-76 | Channel by channel, recovery and plan agree on a session |
| `RecoveryManager.StoreGivesDistinct` | packages/audio-engine/src/recovery-store.ts:89-94 | What the store returns has distinct sequences in every channel |
| `RecoveryManager.RepeatsFoolTheLengthTest` | packages/audio-engine/src/recovery-manager.ts:71-72 | With repeated sequences 0, 0, 2 the length test says complete although 1 is missing |
| `RecoveryManager.ColonsFoolRecovery` | packages/audio-engine/src/recovery-manager.ts:54-76 | A store holding chunks 0 and 2 of session "a" and chunk 0 of "a::b": reading "a" returns all three, and recovery reports the channel complete |
| `Keys.SafeSegmentIsNormal` | apps/backend/src/storage/key-util.ts:15-17 | A segment becomes safe characters without two dots in a row, 1 to 128 long |
| `Keys.SafeSegmentIdempotent` | apps/backend/src/storage/key-util.ts:15-17 | Making a segment safe twice is making it safe once |
| `Keys.SanitizeIdempotent` | apps/backend/src/storage/key-util.ts:23-31 | Cleaning a key twice is cleaning it once |
| `Keys.CleaningIsPiecewise` | apps/backend/src/storage/key-util.ts:24-31 | Cleaning works piece by piece between slashes, drops empty pieces and those of one or two dots, makes the others safe, and fails exactly when nothing is left |
| `Keys.SanitizeFixesBuilt` | apps/backend/src/storage/key-util.ts:33-49 | A built chunk key is in normal form exactly when no id is "." |
| `Keys.PlainKeyIs` | apps/backend/src/storage/key-util.ts:33-49 | Plain ids stand in the key unchanged, owner first, with the sequence padded to six digits |
| `Keys.ChunkKeyInjective` | apps/backend/src/storage/key-util.ts:33-49 | For plain ids a chunk key names one chunk |
| `Keys.IssuedKeyIs` | apps/backend/src/storage/drivers/local.driver.ts:56-63 | A ticket always carries a key: the built segments, less the ids that are a single dot |
| `Keys.TicketPasses` | apps/backend/src/chunks/chunks.service.ts:50-57 | The key on a ticket passes the owner's ingest check if the owner id is not a single dot and has no two unsafe UTF-16 code units and no two dots in a row, and for ids of up to 128 code units only then |
| `Keys.HiddenRunPasses` | apps/backend/src/chunks/chunks.service.ts:191-193 | Beyond 128 code units an id with such a run can still pass, since truncation hides the difference |
| `Keys.PlainTicket` | apps/backend/src/chunks/chunks.service.ts:40-57 | For plain ids an issued key is stored under itself and passes the ingest check |
| `Keys.UploadsMeetIfSame` | apps/backend/src/chunks/chunks.service.ts:53-57 | For any two owner ids not made of dots: an upload in the one's namespace can be stored under the other's chunk key if and only if their segments come out the same |
| `Keys.ForeignUploadsMiss` | apps/backend/src/chunks/chunks.service.ts:53-57 | For plain ids no upload of another user reaches the key of one's chunk, whatever key it asks for |
| `Keys.RunsAreRejected` | apps/backend/src/chunks/chunks.service.ts:191-193 | An owner id with two blanks, with one character outside the basic plane, or that is a dot has its own uploads rejected |
| `Server.UpsertDecides` | apps/backend/src/chunks/chunks.service.ts:81-108 | An upsert decides the row of its own chunk and leaves every other |
| `Server.UpsertKeepsUnique` | apps/backend/src/chunks/chunks.service.ts:81-108 | Upserts keep the unique constraint |
| `Server.ExactlyOnce` | apps/backend/src/chunks/chunks.service.ts:61-113 | Over any run of requests in which a chunk's commits carry the same data, it has the row of one accepted commit, or none |
| `Server.CommitIdempotent` | apps/backend/src/chunks/chunks.service.ts:61-113 | A repeated commit changes nothing at all |
| `Server.AllRunsConsistent` | apps/backend/src/recordings/recordings.service.ts:73-93 | After any serialised requests the table is unique and every recording row sums up its chunks |
| `Server.StatsRefinePlan` | apps/backend/src/recordings/recordings.service.ts:77-93 | After any serialised requests the recording's duration and size are the recovery plan's, whatever the order |
| `ServerObjects.RecordingsService.CreateRecording` | apps/backend/src/recordings/recordings.service.ts:12-32 | Creates a recording that does not exist yet |
| `ServerObjects.RecordingsService.RecomputeStats` | apps/backend/src/recordings/recordings.service.ts:77-93 | The loop computes the summary of the recording's rows and writes nothing else |
| `ServerObjects.RecordingsService.MaxValue` | apps/backend/src/recordings/recordings.service.ts:88-88 | The longest channel timeline, 0 without channels |
| `ServerObjects.RecordingsService.CompleteRecording` | apps/backend/src/recordings/recordings.service.ts:58-66 | Completes an owned recording with a fresh summary, and otherwise changes nothing |
| `ServerObjects.ChunksService.UploadTarget` | apps/backend/src/chunks/chunks.service.ts:34-47 | Not found and forbidden exactly when the recording is unknown or another's; an issued key is clean, and for plain ids it is the chunk's own and passes the ingest check |
| `ServerObjects.ChunksService.StoreUpload` | apps/backend/src/chunks/chunks.service.ts:50-59 | Rejects empty, oversized and foreign uploads unchanged; stores the rest under the clean key |
| `ServerObjects.ChunksService.CommitUpload` | apps/backend/src/chunks/chunks.service.ts:61-113 | Rejects foreign and corrupt commits unchanged; upserts and recomputes otherwise |
| `ServerObjects.ChunksService.UpsertRow` | apps/backend/src/chunks/chunks.service.ts:81-108 | Finds the row of the chunk and updates it, or appends one |
| `Requests.CommitDecides` | apps/backend/src/chunks/chunks.service.ts:61-79 | A commit is accepted exactly when the recording is the user's and, where commits are verified and it names a checksum, the bytes stored under its key have that digest; each refusal exactly in its case, and with no effect |
| `Requests.CommitWrites` | apps/backend/src/chunks/chunks.service.ts:81-110 | An accepted commit sets its own row, field by field, keeps the start, type and an unnamed checksum of a row that was there, and changes no other row, file or recording |
| `Requests.RowsWereChecked` | apps/backend/src/chunks/chunks.service.ts:61-108 | Over every run of requests: a row's checksum was that of the bytes stored under the key of the commit that named it last, and its key is the last commit's |
| `Requests.KeyWasChecked` | apps/backend/src/chunks/chunks.service.ts:61-108 | If every commit names a checksum, a row's checksum was the digest of the bytes under the row's own key |
| `Requests.OmittedChecksumStays` | apps/backend/src/chunks/chunks.service.ts:100-108 | A later commit without a checksum moves a row to any other key and leaves its old checksum in place |
| `Requests.UploadDecides` | apps/backend/src/chunks/chunks.service.ts:50-59 | Uploads of 1 to 67,108,864 bytes in the user's namespace are stored under the clean key, any other is refused for its own reason and with no effect |
| `Requests.OpenDecides` | apps/backend/src/recordings/recordings.service.ts:12-32 | Opening makes an empty, pending recording for whoever asks first, and otherwise changes nothing |
| `Requests.CompleteDecides` | apps/backend/src/recordings/recordings.service.ts:58-66 | Completing is refused to strangers with no effect; it marks the owner's recording, whose pending flag then says whether it has a row not uploaded, and touches no other |
| `Requests.CompletedIsForGood` | apps/backend/src/recordings/recordings.service.ts:58-66 | A completed recording stays completed and its owner's, whatever is asked later |
| `Summaries.SummaryText` | apps/backend/src/export/pdf.ts:55-110 | End to end, for every title and body: on the pages a reader finds, in order and with nothing else, are the title, as many equals signs (1 to 95), an empty line and each line of the body, a printable Latin-1 unit as itself and any other as a question mark; each stands as it is if it fits in 95 characters, is otherwise broken into lines that do, with nothing but blanks lost or added, and where its words are single-spaced and fit, at blanks only and only where the next word did not fit |
| `Summaries.ShortSummary` | apps/backend/src/export/pdf.ts:55-66 | When every line fits, the lines read are the given ones, one for one |
| `PdfReader.SummaryRoundTrip` | apps/backend/src/export/pdf.ts:55-110 | For every title and body, a reader following startxref, the table, the dictionary keys and the lengths the page's font and the lengths finds the pages as they were laid out, exactly when the last object begins below byte 10^10 |
| `PdfReader.ReadRendered` | apps/backend/src/export/pdf.ts:94-109 | The same for any non-empty pages |
| `PdfReader.Placed` | apps/backend/src/export/pdf.ts:97-100 | Every offset points at its own "n 0 obj" and that object's text |
| `PdfReader.EntryOf` | apps/backend/src/export/pdf.ts:104-106 | A table entry takes 20 bytes and reads back below 10^10, and spoils the table from there on |
| `PdfReader.EscapeFront` | apps/backend/src/export/pdf.ts:22-24 | The three replacements escape character by character |
| `PdfReader.LiteralOf` | apps/backend/src/export/pdf.ts:22-24 | An escaped line reads back as a literal string, whatever follows |
| `Pdf.WrapLine` | apps/backend/src/export/pdf.ts:26-47 | Lines fit, and nothing but blanks is lost or added |
| `Pdf.WrappedIsGreedy` | apps/backend/src/export/pdf.ts:26-47 | For single-spaced text of fitting words the lines joined by blanks are the line, and every break was forced |
| `Pdf.PagesPartitionText` | apps/backend/src/export/pdf.ts:56-66 | Pages hold all lines in order, 43 each but the last, never none, of at most 95 characters |
| `Pdf.NumberObjects` | apps/backend/src/export/pdf.ts:68-92 | Numbers 1 to 3 + 2 * pages are all present, each with its object |
| `Pdf.WriteObjects` | apps/backend/src/export/pdf.ts:95-100 | Writes the objects in order and notes where each begins |
| `Pdf.WriteXref` | apps/backend/src/export/pdf.ts:102-106 | Writes one entry an offset |
| `Pdf.RenderSummaryPdf` | apps/backend/src/export/pdf.ts:55-110 | The loops produce the file that `Summaries.SummaryText` is about |
| `Wav.EncodeWav` | packages/audio-engine/src/wav.ts:28-72 | Rejects no channels; otherwise writes every byte of the buffer, by the mono path and the interleaving path alike |
| `Wav.FloatTo16BitPCM` | packages/audio-engine/src/wav.ts:13-19 | Writes the samples of one channel end to end |
| `Wav.SampleSits` | packages/audio-engine/src/wav.ts:57-69 | At byte 44 + 2 * (frame * N + ch) of the file is the sample of that channel's own frame, quantised, or 0 past the channel's end |
| `Wav.WavRoundTrip` | packages/audio-engine/src/wav.ts:28-72 | The file reads back as the number of channels, the rate and, frame by frame, each channel's own samples quantised, with silence past a channel's end, exactly when the sizes fit their fields |
| `Wav.HeaderReads` | packages/audio-engine/src/wav.ts:38-55 | Every numeric header field holds its value modulo the field's width |
| `Wav.QuantizeIsClose` | packages/audio-engine/src/wav.ts:16-17 | A decoded sample is less than one step from the clamped input, on the side of zero, which determines it |
| `Wav.QuantizeIsMonotone` | packages/audio-engine/src/wav.ts:16-17 | Quantisation is monotone |
| `Wav.QuantizeInverts` | packages/audio-engine/src/wav.ts:16-17 | A 16-bit sample is encoded without loss |
| `Transcript.VttRoundTrip` | apps/backend/src/export/transcript-format.ts:28-35 | Reading a WebVTT file back gives its times and bodies in order exactly when every body is empty or has no empty line, carriage return or arrow |
| `Transcript.SrtRoundTrip` | apps/backend/src/export/transcript-format.ts:37-44 | The same for SubRip, with cues numbered 1 to n |
| `Transcript.CuesAre` | apps/backend/src/export/transcript-format.ts:19-44 | The cues that are read back are one a segment: whole milliseconds clamped at 0, and the text behind its speaker's name, if any, without trailing white space |
| `Transcript.StampReads` | apps/backend/src/export/transcript-format.ts:8-17 | A timestamp reads back to the millisecond, whatever follows |
| `Transcript.TimestampInjective` | apps/backend/src/export/transcript-format.ts:8-17 | Timestamps differ exactly when the whole milliseconds do |
| `Transcript.JoinWithBlank` | apps/backend/src/export/transcript-format.ts:46-54 | One empty line between each two blocks |
| `Transcript.ToVtt` | apps/backend/src/export/transcript-format.ts:28-35 | Prints the text the reader inverts |
| `Transcript.ToSrt` | apps/backend/src/export/transcript-format.ts:37-44 | Prints the text the reader inverts |
| `Diarize.AssignSpeakersByGaps` | apps/backend/src/transcription/diarize.ts:47-68 | The loop computes the assignment, for any number of speakers, none and negative ones included |
| `Diarize.HasSpeakers` | apps/backend/src/transcription/diarize.ts:30-32 | True exactly when some label is not empty |
| `Diarize.AssignedKeeps` | apps/backend/src/transcription/diarize.ts:57-67 | Labelled segments are untouched, the others get a label and change in nothing else |
| `Diarize.LabelIs` | apps/backend/src/transcription/diarize.ts:47-68 | Each unlabelled segment becomes "Speaker " and the letter that counts, from 'A' and modulo the number of speakers, the unlabelled segments up to it that followed a long silence |
| `Diarize.GroupSegmentsBySpeaker` | apps/web/src/lib/transcript.ts:15-32 | The loop computes the grouping |
| `Diarize.GroupedIsMaximal` | apps/web/src/lib/transcript.ts:15-32 | The blocks are the maximal runs of one speaker, hold the segments in order, and end at their latest end |
| `Diarize.DiarizedBlocks` | apps/backend/src/transcription/diarize.ts:47-68 | Diarising then grouping unlabelled segments restores the segments, and gives one block more than long gaps if and only if the cycle of speakers is not gone through or does not return to a label like its last one, which it does with one speaker and with 65,537 |

## Left out

- IndexedDB: its transactions are each one atomic step of the in-memory store; partial failure inside a transaction is not modelled.
- Web Audio, MediaRecorder internals, stream capture, level metering: the encoder is an environment that emits data and stop events.
- HTTP, authentication, token rotation, S3, encryption at rest: requests arrive or do not; stored bytes read back as written; the digest is an uninterpreted function.
- Concurrent commits of one recording: requests are serialised, so the race between two recomputations of the same summary is not modelled.
- An upload queue without a local store, which the application never builds.
- Database column widths and bigint sums: integers are unbounded.
- Wall-clock values (ids, `createdAt`, `updatedAt`, `uploadedAt`) are inputs or dropped; recording titles, tags, notes and metadata are dropped.
- A chunk's `createdAt` is carried but nothing is claimed of it.
- A commit whose checksum is an explicit null, which its declared type does not have.
- Progress, level and state events for the dashboard, and `dispose`.
- `DurableRuns.RunKeepsInv`: a manifest written back after its session was deleted from the in-memory store goes under the key `undefined` in the source; the model leaves the manifests as they are, which no named session can observe.
- `UploadQueue.Uploader.OnFailed`: counts the attempt on the task at the head; the source counts it on the object taken from the head, which is the same one while a single loop runs, as the invariant says.
- `Diarize.AssignSpeakersByGaps`: numbers of speakers that are not whole are not modelled.
- `Keys.UploadsMeetIfSame`: owner ids whose segment is one dot or two are left out; ids are made by the database and have neither.
- `Wav.EncodeWav`: samples are real numbers, so rounding, NaN and infinities are not modelled.
- `Recorder.ClockIsRecordedTime`: times are real numbers above 0, since a start at exactly 0 reads as not started.
- `Transcript.VttRoundTrip`: the reader does not interpret cue tags or settings, which the printer never writes on purpose.
- `Keys.SanitizeFixesBuilt`: chunk keys are built with the default extension only, as every caller does; export keys would be the same lemma again.
- `toPlainText`, `listSpeakers`, `distinctSpeakers`, colour maps, export bundles, search, summarising and the external services: one-branch facts or library behaviour.
