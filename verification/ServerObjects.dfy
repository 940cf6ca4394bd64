/** The services as objects that change the database and the object store in place. */
module ServerObjects {
  import opened Wrappers
  import opened Common
  import opened JsMap
  import opened Lists
  import opened Grouping
  import opened Keys
  import opened Server

  /** The tables and the local storage driver's directory. */
  class Backend {
    var recordings: map<string, RecordingRow>
    var rows: seq<ChunkRow>
    var files: map<string, Bytes>

    constructor ()
      ensures State() == EMPTY
    {
      recordings, rows, files := map[], [], map[];
    }

    function State(): ServerState
      reads this
    {
      ServerState(recordings, rows, files)
    }
  }

  /** The per-channel sums gathered from some rows. */
  ghost predicate SumsPerChannel(m: JsMap<string, int>, rows: seq<ChunkRow>) {
    && m.keys == KeysOf(rows, RowChannel)
    && (forall ch :: ch in m.at <==> ch in m.keys)
    && (forall ch | ch in m.at :: m.at[ch] == Total(OnKey(rows, RowChannel, ch), RowDuration))
  }

  lemma SumStep(m: JsMap<string, int>, rows: seq<ChunkRow>, r: ChunkRow)
    requires SumsPerChannel(m, rows)
    ensures var d := (if m.Has(r.channel) then m.at[r.channel] else 0) + r.durationMs;
      SumsPerChannel(m.Put(r.channel, d), rows + [r])
  {
    hide OnKey, KeysOf, Total;
    var d := (if m.Has(r.channel) then m.at[r.channel] else 0) + r.durationMs;
    var n := m.Put(r.channel, d);
    KeysAre(rows, RowChannel);
    OnKeyPush(rows, r, RowChannel, r.channel);
    TotalPush(OnKey(rows, RowChannel, r.channel), r, RowDuration);
    NoTotal();
    forall ch | ch in n.at ensures n.at[ch] == Total(OnKey(rows + [r], RowChannel, ch), RowDuration) {
      OnKeyPush(rows, r, RowChannel, ch);
      assert OnKey(rows, RowChannel, ch) + [] == OnKey(rows, RowChannel, ch);
    }
  }

  lemma NoTotal()
    ensures Total([], RowDuration) == 0
  {
  }

  function ErrorOf(r: Result<ServerState, ServerError>): Option<ServerError> {
    match r
    case Ok(_) => None
    case Err(e) => Some(e)
  }

  class RecordingsService {
    const db: Backend

    constructor (db: Backend)
      ensures this.db == db
    {
      this.db := db;
    }

    method CreateRecording(ownerId: string, id: string)
      modifies db
      ensures db.State() == Create(old(db.State()), ownerId, id)
    {
      if id !in db.recordings {
        db.recordings := db.recordings[id := RecordingRow(ownerId, false, 0, 0, true)];
      }
    }

    /** Recomputes the summary of a recording from its chunk rows. */
    method RecomputeStats(id: string)
      requires id in db.recordings
      modifies db
      ensures db.State() == old(db.State()).(recordings := Recomputed(old(db.recordings), old(db.rows), id))
    {
      hide OnKey, KeysOf, Total, SumsPerChannel;
      var chunks := OfRecording(db.rows, id);
      var perChannel: JsMap<string, int> := Empty();
      var sizeBytes := 0;
      var pending := false;
      NothingSummed();
      for i := 0 to |chunks|
        invariant db.State() == old(db.State()) && SumsPerChannel(perChannel, chunks[..i])
        invariant sizeBytes == Total(chunks[..i], RowBytes) && pending == AnyPending(chunks[..i])
      {
        var c := chunks[i];
        assert chunks[..i + 1] == chunks[..i] + [c];
        SumStep(perChannel, chunks[..i], c);
        TotalPush(chunks[..i], c, RowBytes);
        var sum := if perChannel.Has(c.channel) then perChannel.at[c.channel] else 0;
        perChannel := perChannel.Put(c.channel, sum + c.durationMs);
        sizeBytes := sizeBytes + c.byteLength;
        if !c.uploaded {
          pending := true;
        }
      }
      assert chunks[..|chunks|] == chunks;
      var durationMs := MaxValue(perChannel, chunks);
      var row := db.recordings[id].(durationMs := durationMs, sizeBytes := sizeBytes, hasPendingUploads := pending);
      db.recordings := db.recordings[id := row];
    }

    /** `Math.max(0, ...perChannel.values(), 0)`. */
    method MaxValue(perChannel: JsMap<string, int>, ghost rows: seq<ChunkRow>) returns (m: int)
      requires SumsPerChannel(perChannel, rows)
      ensures m == LongestChannel(rows, KeysOf(rows, RowChannel))
    {
      hide OnKey, KeysOf, Total;
      m := 0;
      for i := 0 to |perChannel.keys|
        invariant m == LongestChannel(rows, perChannel.keys[..i])
      {
        var ch := perChannel.keys[i];
        assert ch in perChannel.keys && perChannel.keys[..i + 1][..i] == perChannel.keys[..i];
        if m < perChannel.at[ch] {
          m := perChannel.at[ch];
        }
      }
      assert perChannel.keys[..|perChannel.keys|] == perChannel.keys;
    }

    method CompleteRecording(ownerId: string, id: string) returns (error: Option<ServerError>)
      modifies db
      ensures db.State() == After(old(db.State()), Complete(old(db.State()), ownerId, id))
      ensures error == ErrorOf(Complete(old(db.State()), ownerId, id))
    {
      hide Summary, OfRecording;
      error := Owns(db.State(), ownerId, id);
      if error.Some? {
        return;
      }
      RecomputeStats(id);
      db.recordings := db.recordings[id := db.recordings[id].(completed := true)];
    }
  }

  lemma NothingSummed()
    ensures SumsPerChannel(Empty(), []) && Total([], RowBytes) == 0 && !AnyPending([])
  {
  }

  class ChunksService {
    const db: Backend
    const recordings: RecordingsService
    const cfg: Config

    constructor (db: Backend, recordings: RecordingsService, cfg: Config)
      requires recordings.db == db
      ensures this.db == db && this.recordings == recordings && this.cfg == cfg
    {
      this.db := db;
      this.recordings := recordings;
      this.cfg := cfg;
    }

    /**
     * Issues a key to the recording's owner only. The key is already clean, so it is stored under
     * itself, and for plain ids it passes the ingest check and names the chunk.
     */
    method UploadTarget(ownerId: string, recordingId: string, channel: string, sequence: nat)
      returns (r: Result<string, ServerError>)
      ensures r == Err(NotFound) <==> recordingId !in db.recordings
      ensures r == Err(Forbidden) <==> recordingId in db.recordings && db.recordings[recordingId].ownerId != ownerId
      ensures r.Ok? ==> SanitizeKey(r.value) == Ok(r.value)
      ensures (PlainId(ownerId) && PlainId(recordingId) && PlainId(channel) && sequence <= MAX_SEQUENCE &&
               recordingId in db.recordings && db.recordings[recordingId].ownerId == ownerId) ==>
        r == Ok(BuildChunkKey(ownerId, recordingId, channel, sequence)) && InNamespace(r.value, ownerId)
      ensures r == RequestUploadTarget(db.State(), ownerId, recordingId, channel, sequence)
    {
      hide SanitizeKey, BuildChunkKey, InNamespace, PlainId;
      if recordingId !in db.recordings {
        return Err(NotFound);
      }
      if db.recordings[recordingId].ownerId != ownerId {
        return Err(Forbidden);
      }
      var key := BuildChunkKey(ownerId, recordingId, channel, sequence);
      SanitizeIdempotent(key);
      if PlainId(ownerId) && PlainId(recordingId) && PlainId(channel) && sequence <= MAX_SEQUENCE {
        PlainTicket(ownerId, recordingId, channel, sequence);
      }
      var clean := SanitizeKey(key);
      if clean.Err? {
        return Err(InvalidKey);
      }
      r := Ok(clean.value);
    }

    method StoreUpload(ownerId: string, key: string, bytes: Bytes) returns (error: Option<ServerError>)
      modifies db
      ensures db.State() == After(old(db.State()), StoreBytes(old(db.State()), ownerId, key, bytes))
      ensures error == ErrorOf(StoreBytes(old(db.State()), ownerId, key, bytes))
    {
      hide SanitizeKey, InNamespace;
      if |bytes| == 0 || |bytes| > MAX_CHUNK_BYTES {
        return Some(BadRequest);
      }
      if !InNamespace(key, ownerId) {
        return Some(Forbidden);
      }
      var path := SanitizeKey(key);
      if path.Err? {
        return Some(InvalidKey);
      }
      db.files := db.files[path.value := bytes];
      error := None;
    }

    method CommitUpload(ownerId: string, d: CommitDto) returns (error: Option<ServerError>)
      requires recordings.db == db
      modifies db
      ensures db.State() == After(old(db.State()), Commit(cfg, old(db.State()), ownerId, d))
      ensures error == ErrorOf(Commit(cfg, old(db.State()), ownerId, d))
    {
      hide Summary, OfRecording, SanitizeKey, Position;
      error := Owns(db.State(), ownerId, d.recordingId);
      if error.Some? {
        return;
      }
      if d.checksum.Some? && d.checksum.value != "" && cfg.verify {
        var stored := Fetch(db.State(), d.storageKey);
        if stored.None? || cfg.sha(stored.value) != d.checksum.value {
          return Some(BadRequest);
        }
      }
      UpsertRow(d);
      recordings.RecomputeStats(d.recordingId);
    }

    method UpsertRow(d: CommitDto)
      modifies db
      ensures db.State() == old(db.State()).(rows := Upsert(old(db.rows), d))
    {
      var i := 0;
      while i < |db.rows| && !SameChunk(db.rows[i], d.recordingId, d.channel, d.sequence)
        invariant 0 <= i <= |db.rows|
        invariant Position(db.rows, d.recordingId, d.channel, d.sequence) ==
          i + Position(db.rows[i..], d.recordingId, d.channel, d.sequence)
      {
        assert db.rows[i..][1..] == db.rows[i + 1..];
        i := i + 1;
      }
      if i < |db.rows| {
        db.rows := db.rows[i := Updated(db.rows[i], d)];
      } else {
        db.rows := db.rows + [Created(d)];
      }
    }
  }
}
