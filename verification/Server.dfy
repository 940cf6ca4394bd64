/**
 * The server side of the durability path: issuing upload targets, storing bytes, committing
 * chunk rows idempotently, and the recording row as a summary derived from its chunks.
 */
module Server {
  import opened Wrappers
  import opened Common
  import opened Lists
  import opened Grouping
  import opened Keys
  import Reassemble

  datatype ChunkRow = ChunkRow(
    recordingId: string, channel: string, sequence: nat, uploaded: bool, startOffsetMs: int, durationMs: nat,
    byteLength: nat, mimeType: string, checksum: Option<string>, storageKey: string)

  datatype RecordingRow = RecordingRow(
    ownerId: string, completed: bool, durationMs: int, sizeBytes: int, hasPendingUploads: bool)

  datatype CommitDto = CommitDto(
    recordingId: string, channel: string, sequence: nat, startOffsetMs: int, durationMs: nat,
    byteLength: nat, mimeType: string, checksum: Option<string>, storageKey: string)

  datatype ServerError = NotFound | Forbidden | BadRequest | InvalidKey

  /** The recordings and chunks tables and the object store, by normal-form key. */
  datatype ServerState = ServerState(
    recordings: map<string, RecordingRow>, rows: seq<ChunkRow>, files: map<string, Bytes>)

  /** Whether commits verify the stored bytes, and the digest they use. */
  datatype Config = Config(verify: bool, sha: Bytes -> string)

  const MAX_CHUNK_BYTES := 64 * 1024 * 1024

  // ---- the chunks table ----

  /** The unique constraint on (recording, channel, sequence). */
  ghost predicate UniqueRows(rows: seq<ChunkRow>) {
    forall i, j | 0 <= i < j < |rows| :: !SameChunk(rows[i], rows[j].recordingId, rows[j].channel, rows[j].sequence)
  }

  predicate SameChunk(r: ChunkRow, recordingId: string, channel: string, sequence: nat) {
    r.recordingId == recordingId && r.channel == channel && r.sequence == sequence
  }

  /** The position of a chunk's row, or the number of rows. */
  function Position(rows: seq<ChunkRow>, recordingId: string, channel: string, sequence: nat): (i: nat)
    ensures i <= |rows| && (i < |rows| ==> SameChunk(rows[i], recordingId, channel, sequence))
    ensures forall j | 0 <= j < i :: !SameChunk(rows[j], recordingId, channel, sequence)
  {
    if rows == [] || SameChunk(rows[0], recordingId, channel, sequence) then 0
    else 1 + Position(rows[1..], recordingId, channel, sequence)
  }

  function Created(d: CommitDto): ChunkRow {
    ChunkRow(d.recordingId, d.channel, d.sequence, true, d.startOffsetMs, d.durationMs,
      d.byteLength, d.mimeType, d.checksum, d.storageKey)
  }

  /** The update branch of the upsert; the database client leaves alone a field that is not given. */
  function Updated(r: ChunkRow, d: CommitDto): ChunkRow {
    r.(uploaded := true, byteLength := d.byteLength, durationMs := d.durationMs,
       checksum := if d.checksum.Some? then d.checksum else r.checksum, storageKey := d.storageKey)
  }

  function Upsert(rows: seq<ChunkRow>, d: CommitDto): seq<ChunkRow> {
    var i := Position(rows, d.recordingId, d.channel, d.sequence);
    if i < |rows| then rows[i := Updated(rows[i], d)] else rows + [Created(d)]
  }

  lemma UpsertKeepsUnique(rows: seq<ChunkRow>, d: CommitDto)
    requires UniqueRows(rows)
    ensures UniqueRows(Upsert(rows, d))
  {
    var i := Position(rows, d.recordingId, d.channel, d.sequence);
    var r := Upsert(rows, d);
    forall a, b | 0 <= a < b < |r|
      ensures !SameChunk(r[a], r[b].recordingId, r[b].channel, r[b].sequence)
    {
      if i < |rows| {
        assert SameChunk(r[a], rows[a].recordingId, rows[a].channel, rows[a].sequence);
        assert SameChunk(r[b], rows[b].recordingId, rows[b].channel, rows[b].sequence);
        assert !SameChunk(rows[a], rows[b].recordingId, rows[b].channel, rows[b].sequence);
      }
    }
  }

  /** The row of a chunk, if there is one. */
  function RowOf(rows: seq<ChunkRow>, recordingId: string, channel: string, sequence: nat): Option<ChunkRow> {
    var i := Position(rows, recordingId, channel, sequence);
    if i < |rows| then Some(rows[i]) else None
  }

  lemma RowOfMember(rows: seq<ChunkRow>, recordingId: string, channel: string, sequence: nat)
    ensures var r := RowOf(rows, recordingId, channel, sequence);
      r.Some? ==> r.value in rows && SameChunk(r.value, recordingId, channel, sequence)
  {
  }

  lemma RowFound(rows: seq<ChunkRow>, r: ChunkRow)
    requires UniqueRows(rows) && r in rows
    ensures RowOf(rows, r.recordingId, r.channel, r.sequence) == Some(r)
  {
    var j :| 0 <= j < |rows| && rows[j] == r;
  }

  /** An upsert decides the row of its own chunk and leaves every other. */
  lemma UpsertDecides(rows: seq<ChunkRow>, d: CommitDto, recordingId: string, channel: string, sequence: nat)
    ensures RowOf(Upsert(rows, d), recordingId, channel, sequence) ==
      if d.recordingId == recordingId && d.channel == channel && d.sequence == sequence then
        match RowOf(rows, recordingId, channel, sequence)
        case None => Some(Created(d))
        case Some(r) => Some(Updated(r, d))
      else RowOf(rows, recordingId, channel, sequence)
  {
    var i := Position(rows, d.recordingId, d.channel, d.sequence);
    if i < |rows| {
      PositionKept(rows, rows[i := Updated(rows[i], d)], recordingId, channel, sequence);
    } else {
      PositionAppended(rows, Created(d), recordingId, channel, sequence);
    }
  }

  lemma {:induction false} PositionKept(a: seq<ChunkRow>, b: seq<ChunkRow>, recordingId: string, channel: string,
      sequence: nat)
    requires |a| == |b|
    requires forall i | 0 <= i < |a| :: SameChunk(a[i], b[i].recordingId, b[i].channel, b[i].sequence)
    ensures Position(a, recordingId, channel, sequence) == Position(b, recordingId, channel, sequence)
  {
    if a != [] {
      PositionKept(a[1..], b[1..], recordingId, channel, sequence);
    }
  }

  lemma {:induction false} PositionAppended(rows: seq<ChunkRow>, r: ChunkRow, recordingId: string, channel: string,
      sequence: nat)
    ensures var i := Position(rows, recordingId, channel, sequence);
      Position(rows + [r], recordingId, channel, sequence) ==
        if i < |rows| || SameChunk(r, recordingId, channel, sequence) then i else |rows| + 1
  {
    if rows != [] {
      PositionAppended(rows[1..], r, recordingId, channel, sequence);
      assert (rows + [r])[1..] == rows[1..] + [r];
    } else {
      assert [] + [r] == [r] && [r][1..] == [];
    }
  }

  // ---- derived statistics ----

  function OfRecording(rows: seq<ChunkRow>, id: string): seq<ChunkRow> {
    OnKey(rows, RowRecording, id)
  }

  function RowRecording(r: ChunkRow): string { r.recordingId }
  function RowChannel(r: ChunkRow): string { r.channel }
  function RowDuration(r: ChunkRow): int { r.durationMs }
  function RowBytes(r: ChunkRow): int { r.byteLength }

  function LongestChannel(rows: seq<ChunkRow>, channels: seq<string>): int {
    if channels == [] then 0
    else
      var m, d := LongestChannel(rows, channels[..|channels| - 1]),
                  Total(OnKey(rows, RowChannel, channels[|channels| - 1]), RowDuration);
      if m < d then d else m
  }

  predicate AnyPending(rows: seq<ChunkRow>) {
    exists r :: r in rows && !r.uploaded
  }

  function Summary(rec: RecordingRow, rows: seq<ChunkRow>): RecordingRow {
    rec.(durationMs := LongestChannel(rows, KeysOf(rows, RowChannel)), sizeBytes := Total(rows, RowBytes),
         hasPendingUploads := AnyPending(rows))
  }

  function Recomputed(recordings: map<string, RecordingRow>, rows: seq<ChunkRow>, id: string): map<string, RecordingRow>
    requires id in recordings
  {
    recordings[id := Summary(recordings[id], OfRecording(rows, id))]
  }

  // ---- requests ----

  function Owns(s: ServerState, ownerId: string, id: string): Option<ServerError> {
    if id !in s.recordings then Some(NotFound)
    else if s.recordings[id].ownerId != ownerId then Some(Forbidden)
    else None
  }

  /** The storage key an upload target is issued with. */
  function RequestUploadTarget(s: ServerState, ownerId: string, recordingId: string, channel: string,
      sequence: nat): Result<string, ServerError> {
    match Owns(s, ownerId, recordingId)
    case Some(e) => Err(e)
    case None =>
      match IssuedKey(ownerId, recordingId, channel, sequence)
      case Err(_) => Err(InvalidKey)
      case Ok(key) => Ok(key)
  }

  function StoreBytes(s: ServerState, ownerId: string, key: string, bytes: Bytes): Result<ServerState, ServerError> {
    if |bytes| == 0 || |bytes| > MAX_CHUNK_BYTES then Err(BadRequest)
    else if !InNamespace(key, ownerId) then Err(Forbidden)
    else
      match SanitizeKey(key)
      case Err(_) => Err(InvalidKey)
      case Ok(path) => Ok(s.(files := s.files[path := bytes]))
  }

  /** The bytes read back for a key, if any. */
  function Fetch(s: ServerState, key: string): Option<Bytes> {
    match SanitizeKey(key)
    case Err(_) => None
    case Ok(path) => if path in s.files then Some(s.files[path]) else None
  }

  predicate ChecksumHolds(cfg: Config, s: ServerState, d: CommitDto) {
    d.checksum.Some? && d.checksum.value != "" && cfg.verify ==>
      Fetch(s, d.storageKey).Some? && cfg.sha(Fetch(s, d.storageKey).value) == d.checksum.value
  }

  function Commit(cfg: Config, s: ServerState, ownerId: string, d: CommitDto): Result<ServerState, ServerError> {
    match Owns(s, ownerId, d.recordingId)
    case Some(e) => Err(e)
    case None =>
      if !ChecksumHolds(cfg, s, d) then Err(BadRequest)
      else
        var rows := Upsert(s.rows, d);
        Ok(s.(rows := rows, recordings := Recomputed(s.recordings, rows, d.recordingId)))
  }

  function Complete(s: ServerState, ownerId: string, id: string): Result<ServerState, ServerError> {
    match Owns(s, ownerId, id)
    case Some(e) => Err(e)
    case None =>
      var recordings := Recomputed(s.recordings, s.rows, id);
      Ok(s.(recordings := recordings[id := recordings[id].(completed := true)]))
  }

  function Create(s: ServerState, ownerId: string, id: string): ServerState {
    if id in s.recordings then s
    else s.(recordings := s.recordings[id := RecordingRow(ownerId, false, 0, 0, true)])
  }

  /** Deleting a recording takes its chunk rows with it. */
  function Removed(s: ServerState, id: string): ServerState {
    s.(recordings := s.recordings - {id}, rows := OtherRows(s.rows, id))
  }

  function OtherRows(rows: seq<ChunkRow>, id: string): seq<ChunkRow> {
    if rows == [] then []
    else
      var r := rows[|rows| - 1];
      OtherRows(rows[..|rows| - 1], id) + (if r.recordingId == id then [] else [r])
  }

  datatype Request =
    | Open(ownerId: string, id: string)
    | Put(ownerId: string, key: string, bytes: Bytes)
    | CommitChunk(ownerId: string, dto: CommitDto)
    | CompleteRecording(ownerId: string, id: string)

  /** The outcome of a request: a rejected one leaves the state alone. */
  function Handle(cfg: Config, s: ServerState, q: Request): Result<ServerState, ServerError> {
    match q
    case Open(ownerId, id) => Ok(Create(s, ownerId, id))
    case Put(ownerId, key, bytes) => StoreBytes(s, ownerId, key, bytes)
    case CommitChunk(ownerId, dto) => Commit(cfg, s, ownerId, dto)
    case CompleteRecording(ownerId, id) => Complete(s, ownerId, id)
  }

  function After(s: ServerState, r: Result<ServerState, ServerError>): ServerState {
    match r
    case Ok(t) => t
    case Err(_) => s
  }

  function HandleAll(cfg: Config, s: ServerState, qs: seq<Request>): ServerState {
    if qs == [] then s
    else
      var t := HandleAll(cfg, s, qs[..|qs| - 1]);
      After(t, Handle(cfg, t, qs[|qs| - 1]))
  }

  const EMPTY := ServerState(map[], [], map[])

  // ---- the derived row refines the recovery plan ----

  function ToChunk(r: ChunkRow): AudioChunk {
    AudioChunk("", r.recordingId, r.channel, r.sequence, if r.uploaded then Uploaded else Stored,
      r.startOffsetMs, r.durationMs, r.byteLength, r.mimeType, "")
  }

  function Chunks(rows: seq<ChunkRow>): seq<AudioChunk> {
    Mapped(rows, ToChunk)
  }

  function RowSeq(r: ChunkRow): int { r.sequence }

  /** The table obeys its constraint and every recording row sums up its chunks. */
  ghost predicate Consistent(s: ServerState) {
    && UniqueRows(s.rows)
    && (forall r | r in s.rows :: r.recordingId in s.recordings && r.uploaded)
    && (forall id | id in s.recordings :: SumsUp(s.recordings[id], OfRecording(s.rows, id)))
  }

  ghost predicate SumsUp(rec: RecordingRow, rows: seq<ChunkRow>) {
    && rec.durationMs == LongestChannel(rows, KeysOf(rows, RowChannel))
    && rec.sizeBytes == Total(rows, RowBytes)
    && (rows != [] ==> !rec.hasPendingUploads)
  }

  lemma OtherRecordingKept(rows: seq<ChunkRow>, d: CommitDto, id: string)
    requires id != d.recordingId
    ensures OfRecording(Upsert(rows, d), id) == OfRecording(rows, id)
  {
    hide Position;
    var i := Position(rows, d.recordingId, d.channel, d.sequence);
    if i < |rows| {
      var l, r, x := rows[..i], rows[i + 1..], rows[i];
      var y := Updated(x, d);
      assert rows == (l + [x]) + r && Upsert(rows, d) == (l + [y]) + r;
      OnKeyAppend(l + [x], r, RowRecording, id);
      OnKeyAppend(l + [y], r, RowRecording, id);
      OnKeyPush(l, x, RowRecording, id);
      OnKeyPush(l, y, RowRecording, id);
    } else {
      OnKeyPush(rows, Created(d), RowRecording, id);
    }
  }

  lemma UpsertRows(rows: seq<ChunkRow>, d: CommitDto)
    ensures forall r | r in Upsert(rows, d) :: r in rows || (r.recordingId == d.recordingId && r.uploaded)
  {
  }

  lemma RecomputedSumsUp(rec: RecordingRow, rows: seq<ChunkRow>)
    requires forall r | r in rows :: r.uploaded
    ensures SumsUp(Summary(rec, rows), rows)
  {
  }

  lemma OfRecordingMembers(rows: seq<ChunkRow>, id: string)
    ensures forall r | r in OfRecording(rows, id) :: r in rows && r.recordingId == id
  {
    forall r | r in OfRecording(rows, id) ensures r in rows && r.recordingId == id {
      OnKeyMember(rows, RowRecording, id, r);
    }
  }

  lemma CommitKeepsConsistent(cfg: Config, s: ServerState, ownerId: string, d: CommitDto)
    requires Consistent(s) && Commit(cfg, s, ownerId, d).Ok?
    ensures Consistent(Commit(cfg, s, ownerId, d).value)
  {
    hide SumsUp, Summary, Upsert, OfRecording, ChecksumHolds, UniqueRows;
    var t := Commit(cfg, s, ownerId, d).value;
    UpsertKeepsUnique(s.rows, d);
    UpsertRows(s.rows, d);
    forall id | id in t.recordings ensures SumsUp(t.recordings[id], OfRecording(t.rows, id)) {
      if id == d.recordingId {
        OfRecordingMembers(t.rows, id);
        RecomputedSumsUp(s.recordings[id], OfRecording(t.rows, id));
      } else {
        OtherRecordingKept(s.rows, d, id);
      }
    }
  }

  lemma CompleteKeepsConsistent(s: ServerState, ownerId: string, id: string)
    requires Consistent(s) && Complete(s, ownerId, id).Ok?
    ensures Consistent(Complete(s, ownerId, id).value)
  {
    hide KeysOf, LongestChannel, Total, OfRecording, UniqueRows;
    OfRecordingMembers(s.rows, id);
    RecomputedSumsUp(s.recordings[id], OfRecording(s.rows, id));
  }

  lemma CreateKeepsConsistent(s: ServerState, ownerId: string, id: string)
    requires Consistent(s)
    ensures Consistent(Create(s, ownerId, id))
  {
    hide UniqueRows;
    if id !in s.recordings {
      OfRecordingMembers(s.rows, id);
      Inhabited(OfRecording(s.rows, id));
    }
  }

  lemma NoRow(recordingId: string, channel: string, sequence: nat)
    ensures RowOf([], recordingId, channel, sequence) == None
  {
  }

  lemma RowOfPush(rows: seq<ChunkRow>, r: ChunkRow, recordingId: string, channel: string, sequence: nat)
    ensures RowOf(rows + [r], recordingId, channel, sequence) ==
      match RowOf(rows, recordingId, channel, sequence)
      case Some(x) => Some(x)
      case None => if SameChunk(r, recordingId, channel, sequence) then Some(r) else None
  {
    hide Position;
    PositionAppended(rows, r, recordingId, channel, sequence);
  }

  lemma {:induction false} OtherRowsAre(rows: seq<ChunkRow>, gone: string, recordingId: string, channel: string,
      sequence: nat)
    ensures RowOf(OtherRows(rows, gone), recordingId, channel, sequence) ==
      if recordingId == gone then None else RowOf(rows, recordingId, channel, sequence)
    ensures forall r | r in OtherRows(rows, gone) :: r in rows && r.recordingId != gone
  {
    hide RowOf;
    NoRow(recordingId, channel, sequence);
    if rows != [] {
      var init, r := rows[..|rows| - 1], rows[|rows| - 1];
      assert rows == init + [r];
      OtherRowsAre(init, gone, recordingId, channel, sequence);
      RowOfPush(init, r, recordingId, channel, sequence);
      RowOfPush(OtherRows(init, gone), r, recordingId, channel, sequence);
      assert OtherRows(init, gone) + [] == OtherRows(init, gone);
    }
  }

  lemma {:induction false} OtherRowsUnique(rows: seq<ChunkRow>, gone: string)
    requires UniqueRows(rows)
    ensures UniqueRows(OtherRows(rows, gone))
  {
    if rows != [] {
      var init, r := rows[..|rows| - 1], rows[|rows| - 1];
      OtherRowsUnique(init, gone);
      OtherRowsAre(init, gone, "", "", 0);
      var others := OtherRows(init, gone);
      forall i | 0 <= i < |others| ensures !SameChunk(others[i], r.recordingId, r.channel, r.sequence) {
        assert others[i] in others;
        var k :| 0 <= k < |init| && init[k] == others[i];
        assert !SameChunk(rows[k], rows[|rows| - 1].recordingId, rows[|rows| - 1].channel, rows[|rows| - 1].sequence);
      }
    }
  }

  lemma {:induction false} OtherRowsOf(rows: seq<ChunkRow>, gone: string, id: string)
    requires id != gone
    ensures OfRecording(OtherRows(rows, gone), id) == OfRecording(rows, id)
  {
    hide OfRecording, OtherRows;
    if rows == [] {
      NoOtherRows(gone);
    } else {
      var init, r := rows[..|rows| - 1], rows[|rows| - 1];
      assert rows == init + [r];
      OtherRowsOf(init, gone, id);
      OtherRowsPush(init, r, gone);
      OfRecordingPush(init, r, id);
      OfRecordingPush(OtherRows(init, gone), r, id);
    }
  }

  lemma OfRecordingPush(rows: seq<ChunkRow>, r: ChunkRow, id: string)
    ensures OfRecording(rows + [r], id) ==
      if r.recordingId == id then OfRecording(rows, id) + [r] else OfRecording(rows, id)
  {
    hide OnKey;
    OnKeyPush(rows, r, RowRecording, id);
    assert OfRecording(rows, id) + [] == OfRecording(rows, id);
  }

  lemma NoOtherRows(gone: string)
    ensures OtherRows([], gone) == []
  {
  }

  lemma OtherRowsPush(rows: seq<ChunkRow>, r: ChunkRow, gone: string)
    ensures OtherRows(rows + [r], gone) ==
      if r.recordingId == gone then OtherRows(rows, gone) else OtherRows(rows, gone) + [r]
  {
    assert (rows + [r])[..|rows|] == rows;
    assert OtherRows(rows, gone) + [] == OtherRows(rows, gone);
  }

  /** Deleting a recording leaves the others' rows and summaries as they were. */
  lemma RemovedKeepsConsistent(s: ServerState, id: string)
    requires Consistent(s)
    ensures Consistent(Removed(s, id))
  {
    hide UniqueRows, SumsUp, OtherRows, OfRecording;
    OtherRowsUnique(s.rows, id);
    OtherRowsAre(s.rows, id, "", "", 0);
    var t := Removed(s, id);
    forall other | other in t.recordings ensures SumsUp(t.recordings[other], OfRecording(t.rows, other)) {
      OtherRowsOf(s.rows, id, other);
    }
  }

  /** Any request, accepted or rejected, keeps the table unique and the summaries right. */
  lemma HandleKeepsConsistent(cfg: Config, s: ServerState, q: Request)
    requires Consistent(s)
    ensures Consistent(After(s, Handle(cfg, s, q)))
  {
    hide Commit, Complete, Create, SumsUp, UniqueRows;
    match q
    case Open(ownerId, id) => CreateKeepsConsistent(s, ownerId, id);
    case Put(_, _, _) =>
    case CommitChunk(ownerId, dto) =>
      if Commit(cfg, s, ownerId, dto).Ok? {
        CommitKeepsConsistent(cfg, s, ownerId, dto);
      }
    case CompleteRecording(ownerId, id) =>
      if Complete(s, ownerId, id).Ok? {
        CompleteKeepsConsistent(s, ownerId, id);
      }
  }

  lemma {:induction false} AllRunsConsistent(cfg: Config, s: ServerState, qs: seq<Request>)
    requires Consistent(s)
    ensures Consistent(HandleAll(cfg, s, qs))
  {
    hide Consistent, Handle;
    if qs != [] {
      AllRunsConsistent(cfg, s, qs[..|qs| - 1]);
      HandleKeepsConsistent(cfg, HandleAll(cfg, s, qs[..|qs| - 1]), qs[|qs| - 1]);
    }
  }

  lemma {:induction false} ChannelRowsDistinct(rows: seq<ChunkRow>, id: string, ch: string)
    requires UniqueRows(rows)
    ensures DistinctBy(OnKey(OfRecording(rows, id), RowChannel, ch), RowSeq)
  {
    hide OnKey, OfRecording;
    if rows == [] {
      NoneOfRecording(id);
      NothingGrouped(RowChannel, ch);
    } else {
      var init, x := rows[..|rows| - 1], rows[|rows| - 1];
      assert rows == init + [x];
      ChannelRowsDistinct(init, id, ch);
      OfRecordingPush(init, x, id);
      OnKeyPush(OfRecording(init, id), x, RowChannel, ch);
      var own := OnKey(OfRecording(init, id), RowChannel, ch);
      if x.recordingId == id && x.channel == ch {
        forall i | 0 <= i < |own| ensures RowSeq(own[i]) != RowSeq(x) {
          assert own[i] in own;
          OtherSequence(rows, id, ch, own[i]);
        }
      }
    }
  }

  lemma NoneOfRecording(id: string)
    ensures OfRecording([], id) == []
  {
  }

  /** The last row's sequence differs from that of any other row of its recording and channel. */
  lemma OtherSequence(rows: seq<ChunkRow>, id: string, ch: string, y: ChunkRow)
    requires UniqueRows(rows) && rows != []
    requires y in OnKey(OfRecording(rows[..|rows| - 1], id), RowChannel, ch)
    requires var x := rows[|rows| - 1]; x.recordingId == id && x.channel == ch
    ensures y.sequence != rows[|rows| - 1].sequence
  {
    hide OnKey;
    var init, x := rows[..|rows| - 1], rows[|rows| - 1];
    OnKeyMember(OfRecording(init, id), RowChannel, ch, y);
    OnKeyMember(init, RowRecording, id, y);
    var k :| 0 <= k < |init| && init[k] == y;
    assert !SameChunk(rows[k], rows[|rows| - 1].recordingId, rows[|rows| - 1].channel, rows[|rows| - 1].sequence);
  }

  /** Per channel, the sum over rows in any order is the plan's total. */
  lemma ChannelTotals(rows: seq<ChunkRow>, ch: string)
    requires DistinctBy(OnKey(rows, RowChannel, ch), RowSeq)
    ensures var p := Reassemble.ChannelPlan(ch, Reassemble.OnChannel(Chunks(rows), ch));
      && p.totalDurationMs == Total(OnKey(rows, RowChannel, ch), RowDuration)
      && p.totalBytes == Total(OnKey(rows, RowChannel, ch), RowBytes)
  {
    hide OnKey, SortBy, Total, Reassemble.Seen, Reassemble.Duplicates, Reassemble.MissingBelow;
    var own := OnKey(rows, RowChannel, ch);
    OnKeyMapped(rows, ToChunk, RowChannel, Reassemble.ChannelOf, ch);
    var chunks := Chunks(own);
    forall i, j | 0 <= i < j < |chunks| ensures Reassemble.SeqOf(chunks[i]) != Reassemble.SeqOf(chunks[j]) {
      assert RowSeq(own[i]) != RowSeq(own[j]);
    }
    Reassemble.OrderedOfDistinct(chunks);
    var ordered := SortBy(chunks, Reassemble.SeqOf);
    TotalPerm(ordered, chunks, Reassemble.DurationOf);
    TotalPerm(ordered, chunks, Reassemble.BytesOf);
    TotalMapped(own, ToChunk, Reassemble.DurationOf, RowDuration);
    TotalMapped(own, ToChunk, Reassemble.BytesOf, RowBytes);
  }

  lemma {:induction false} LongestAgrees(rows: seq<ChunkRow>, channels: seq<string>)
    requires forall ch :: DistinctBy(OnKey(rows, RowChannel, ch), RowSeq)
    ensures LongestChannel(rows, channels) ==
      Reassemble.LongestDuration(Reassemble.PlanChannels(Chunks(rows), channels))
  {
    hide OnKey, Total, Reassemble.ChannelPlan, Reassemble.OnChannel;
    if channels != [] {
      LongestAgrees(rows, channels[..|channels| - 1]);
      ChannelTotals(rows, channels[|channels| - 1]);
    }
  }

  lemma {:induction false} BytesByChannel(rows: seq<ChunkRow>, channels: seq<string>)
    requires forall ch :: DistinctBy(OnKey(rows, RowChannel, ch), RowSeq)
    ensures Total(Reassemble.PlanChannels(Chunks(rows), channels), Reassemble.ChannelBytes) ==
      Total(channels, KeyTotal(rows, RowChannel, RowBytes))
  {
    hide OnKey, Reassemble.ChannelPlan, Reassemble.OnChannel;
    if channels != [] {
      var init, ch := channels[..|channels| - 1], channels[|channels| - 1];
      BytesByChannel(rows, init);
      ChannelTotals(rows, ch);
      var p := Reassemble.ChannelPlan(ch, Reassemble.OnChannel(Chunks(rows), ch));
      TotalPush(Reassemble.PlanChannels(Chunks(rows), init), p, Reassemble.ChannelBytes);
    }
  }

  /** The derived row and the recovery plan of the committed chunks give the same totals. */
  lemma SummaryIsPlan(s: ServerState, id: string)
    requires Consistent(s) && id in s.recordings
    ensures var p := Reassemble.Plan(id, Chunks(OfRecording(s.rows, id)));
      s.recordings[id].durationMs == p.totalDurationMs && s.recordings[id].sizeBytes == p.totalBytes
  {
    hide OnKey, KeysOf, Total, LongestChannel, UniqueRows, Reassemble.PlanChannels, KeyTotal;
    var rows := OfRecording(s.rows, id);
    forall ch ensures DistinctBy(OnKey(rows, RowChannel, ch), RowSeq) {
      ChannelRowsDistinct(s.rows, id, ch);
    }
    OnKeyMapped(rows, ToChunk, RowChannel, Reassemble.ChannelOf, "");
    LongestAgrees(rows, KeysOf(rows, RowChannel));
    BytesByChannel(rows, KeysOf(rows, RowChannel));
    TotalByKeys(rows, RowChannel, RowBytes);
    assert SumsUp(s.recordings[id], rows);
  }

  /** After any serialised run of requests the recording row equals the plan, whatever their order. */
  lemma StatsRefinePlan(cfg: Config, qs: seq<Request>, id: string)
    requires id in HandleAll(cfg, EMPTY, qs).recordings
    ensures var s := HandleAll(cfg, EMPTY, qs);
      var p := Reassemble.Plan(id, Chunks(OfRecording(s.rows, id)));
      s.recordings[id].durationMs == p.totalDurationMs && s.recordings[id].sizeBytes == p.totalBytes
  {
    hide HandleAll, Reassemble.Plan, OfRecording;
    assert Consistent(EMPTY);
    AllRunsConsistent(cfg, EMPTY, qs);
    SummaryIsPlan(HandleAll(cfg, EMPTY, qs), id);
  }

  // ---- at-least-once delivery has an exactly-once effect ----

  /** A repeated commit changes nothing at all. */
  lemma CommitIdempotent(cfg: Config, s: ServerState, ownerId: string, d: CommitDto)
    requires Commit(cfg, s, ownerId, d).Ok?
    ensures Commit(cfg, Commit(cfg, s, ownerId, d).value, ownerId, d) == Commit(cfg, s, ownerId, d)
  {
    hide Summary, OfRecording, Position, SanitizeKey;
    var t := Commit(cfg, s, ownerId, d).value;
    UpsertTwice(s.rows, d);
    SummaryTwice(s.recordings[d.recordingId], OfRecording(t.rows, d.recordingId));
    assert t.recordings[d.recordingId := t.recordings[d.recordingId]] == t.recordings;
  }

  lemma SummaryTwice(rec: RecordingRow, rows: seq<ChunkRow>)
    ensures Summary(Summary(rec, rows), rows) == Summary(rec, rows)
    ensures Summary(rec, rows).ownerId == rec.ownerId
  {
  }

  lemma UpsertTwice(rows: seq<ChunkRow>, d: CommitDto)
    ensures Upsert(Upsert(rows, d), d) == Upsert(rows, d)
  {
    var i := Position(rows, d.recordingId, d.channel, d.sequence);
    var r := Upsert(rows, d);
    if i < |rows| {
      PositionKept(rows, r, d.recordingId, d.channel, d.sequence);
    } else {
      PositionAppended(rows, Created(d), d.recordingId, d.channel, d.sequence);
    }
    assert r[i := Updated(r[i], d)] == r;
  }

  predicate SameTarget(a: CommitDto, b: CommitDto) {
    a.recordingId == b.recordingId && a.channel == b.channel && a.sequence == b.sequence
  }

  /** Some commit of `d` in the run was accepted. */
  ghost predicate Accepted(cfg: Config, s: ServerState, qs: seq<Request>, d: CommitDto) {
    qs != [] &&
      var init, q := qs[..|qs| - 1], qs[|qs| - 1];
      (Accepted(cfg, s, init, d) || (q.CommitChunk? && q.dto == d && Handle(cfg, HandleAll(cfg, s, init), q).Ok?))
  }

  /**
   * However often uploads and commits are repeated and interleaved, a chunk whose commits all
   * carry the same data has one row, the one a single accepted commit creates, or none if no
   * commit was accepted.
   */
  lemma {:induction false} ExactlyOnce(cfg: Config, s: ServerState, qs: seq<Request>, d: CommitDto)
    requires RowOf(s.rows, d.recordingId, d.channel, d.sequence).None?
    requires forall q | q in qs && q.CommitChunk? && SameTarget(q.dto, d) :: q.dto == d
    ensures RowOf(HandleAll(cfg, s, qs).rows, d.recordingId, d.channel, d.sequence) ==
      if Accepted(cfg, s, qs, d) then Some(Created(d)) else None
  {
    hide Owns, Recomputed, ChecksumHolds, Upsert, RowOf, SanitizeKey, InNamespace, SameTarget;
    if qs != [] {
      var init, q := qs[..|qs| - 1], qs[|qs| - 1];
      assert q in qs && forall x | x in init :: x in qs;
      ExactlyOnce(cfg, s, init, d);
      var t := HandleAll(cfg, s, init);
      if q.CommitChunk? {
        OneCommit(t.rows, q.dto, d);
      }
    }
  }

  lemma OneCommit(rows: seq<ChunkRow>, e: CommitDto, d: CommitDto)
    requires SameTarget(e, d) ==> e == d
    requires var r := RowOf(rows, d.recordingId, d.channel, d.sequence); r == None || r == Some(Created(d))
    ensures RowOf(Upsert(rows, e), d.recordingId, d.channel, d.sequence) ==
      if e == d then Some(Created(d)) else RowOf(rows, d.recordingId, d.channel, d.sequence)
  {
    UpsertDecides(rows, e, d.recordingId, d.channel, d.sequence);
  }
}
