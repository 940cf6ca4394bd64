/**
 * What each request does to the tables and the object store, field by field: when it is refused,
 * what it writes, and what every row of a run has been checked against.
 */
module Requests {
  import opened Wrappers
  import opened Common
  import opened Keys
  import opened Server
  import Grouping

  predicate OwnedBy(s: ServerState, ownerId: string, id: string) {
    id in s.recordings && s.recordings[id].ownerId == ownerId
  }

  /** There are bytes under the clean key, and their digest is the checksum. */
  predicate HasDigest(cfg: Config, files: map<string, Bytes>, key: string, checksum: string) {
    var path := SanitizeKey(key);
    path.Ok? && path.value in files && cfg.sha(files[path.value]) == checksum
  }

  predicate Verified(cfg: Config, checksum: Option<string>) {
    cfg.verify && checksum.Some? && checksum.value != ""
  }

  // ---- commits ----

  /**
   * A commit is accepted exactly when its recording is the user's and, where commits are verified and
   * it names a checksum, the bytes stored under its key have that digest. Otherwise nothing changes.
   */
  lemma CommitDecides(cfg: Config, s: ServerState, ownerId: string, d: CommitDto)
    ensures var r := Commit(cfg, s, ownerId, d);
      var corrupt := Verified(cfg, d.checksum) && !HasDigest(cfg, s.files, d.storageKey, d.checksum.value);
      && (r == Err(NotFound) <==> d.recordingId !in s.recordings)
      && (r == Err(Forbidden) <==> d.recordingId in s.recordings && s.recordings[d.recordingId].ownerId != ownerId)
      && (r == Err(BadRequest) <==> OwnedBy(s, ownerId, d.recordingId) && corrupt)
      && (r.Ok? <==> OwnedBy(s, ownerId, d.recordingId) && !corrupt)
      && (r.Err? ==> After(s, r) == s)
  {
    hide SanitizeKey, Upsert, Recomputed;
  }

  /** What an accepted commit writes: its own row, replaced in part if there was one, and nothing else. */
  lemma CommitWrites(cfg: Config, s: ServerState, ownerId: string, d: CommitDto)
    requires Commit(cfg, s, ownerId, d).Ok?
    ensures var t := Commit(cfg, s, ownerId, d).value;
      var was, row := RowOf(s.rows, d.recordingId, d.channel, d.sequence),
                      RowOf(t.rows, d.recordingId, d.channel, d.sequence);
      && row.Some? && row.value in t.rows
      && row.value.recordingId == d.recordingId && row.value.channel == d.channel && row.value.sequence == d.sequence
      && row.value.uploaded && row.value.durationMs == d.durationMs && row.value.byteLength == d.byteLength
      && row.value.storageKey == d.storageKey
      && row.value.checksum == (if was.Some? && d.checksum.None? then was.value.checksum else d.checksum)
      && row.value.startOffsetMs == (if was.Some? then was.value.startOffsetMs else d.startOffsetMs)
      && row.value.mimeType == (if was.Some? then was.value.mimeType else d.mimeType)
    ensures var t := Commit(cfg, s, ownerId, d).value;
      && t.files == s.files && t.recordings.Keys == s.recordings.Keys
      && (forall id | id in s.recordings && id != d.recordingId :: t.recordings[id] == s.recordings[id])
      && (forall id, ch, n | id != d.recordingId || ch != d.channel || n != d.sequence ::
            RowOf(t.rows, id, ch, n) == RowOf(s.rows, id, ch, n))
  {
    hide SanitizeKey, ChecksumHolds, Upsert, RowOf, OfRecording;
    var rows := Upsert(s.rows, d);
    UpsertDecides(s.rows, d, d.recordingId, d.channel, d.sequence);
    RowOfMember(s.rows, d.recordingId, d.channel, d.sequence);
    RowOfMember(rows, d.recordingId, d.channel, d.sequence);
    forall id, ch, n | id != d.recordingId || ch != d.channel || n != d.sequence
      ensures RowOf(rows, id, ch, n) == RowOf(s.rows, id, ch, n)
    {
      UpsertDecides(s.rows, d, id, ch, n);
    }
  }

  /** Request `i` of the run is an accepted commit of the row's chunk. */
  predicate CommitsTo(cfg: Config, qs: seq<Request>, i: nat, row: ChunkRow)
    requires i < |qs|
  {
    && qs[i].CommitChunk? && Commit(cfg, HandleAll(cfg, EMPTY, qs[..i]), qs[i].ownerId, qs[i].dto).Ok?
    && qs[i].dto.recordingId == row.recordingId && qs[i].dto.channel == row.channel
    && qs[i].dto.sequence == row.sequence
  }

  /** And the row's checksum is its, the digest of the bytes then stored under its key. */
  predicate GaveChecksum(cfg: Config, qs: seq<Request>, i: nat, row: ChunkRow)
    requires i < |qs|
  {
    && CommitsTo(cfg, qs, i, row) && row.checksum.Some? && qs[i].dto.checksum == row.checksum
    && HasDigest(cfg, HandleAll(cfg, EMPTY, qs[..i]).files, qs[i].dto.storageKey, row.checksum.value)
  }

  /** Commit `i` gave the row its checksum, none after it names one, and the last, `j`, gave the row its key. */
  ghost predicate CheckedBy(cfg: Config, qs: seq<Request>, i: nat, j: nat, row: ChunkRow) {
    && i <= j < |qs| && GaveChecksum(cfg, qs, i, row)
    && CommitsTo(cfg, qs, j, row) && qs[j].dto.storageKey == row.storageKey
    && (forall k: nat | i < k < |qs| && CommitsTo(cfg, qs, k, row) :: qs[k].dto.checksum.None? && k <= j)
  }

  /** One request more: what was the case of the others still is. */
  lemma SameBefore(cfg: Config, qs: seq<Request>, q: Request, i: nat, row: ChunkRow)
    requires i < |qs|
    ensures CommitsTo(cfg, qs + [q], i, row) <==> CommitsTo(cfg, qs, i, row)
    ensures GaveChecksum(cfg, qs + [q], i, row) <==> GaveChecksum(cfg, qs, i, row)
  {
    hide HandleAll, HasDigest, Commit;
    assert (qs + [q])[..i] == qs[..i];
  }

  /** The last commit so far named a checksum. */
  lemma CheckedNow(cfg: Config, qs: seq<Request>, q: Request, row: ChunkRow)
    requires CommitsTo(cfg, qs + [q], |qs|, row) && q.dto.storageKey == row.storageKey
    requires GaveChecksum(cfg, qs + [q], |qs|, row)
    ensures CheckedBy(cfg, qs + [q], |qs|, |qs|, row)
  {
    hide HandleAll, HasDigest, Commit, CommitsTo, GaveChecksum;
  }

  /** It named none, or was no commit of the chunk. */
  lemma CheckedBefore(cfg: Config, qs: seq<Request>, q: Request, i: nat, j: nat, was: ChunkRow, row: ChunkRow)
    requires CheckedBy(cfg, qs, i, j, was) && was.checksum == row.checksum
    requires was.recordingId == row.recordingId && was.channel == row.channel && was.sequence == row.sequence
    requires var n := |qs|;
      if CommitsTo(cfg, qs + [q], n, row) then q.dto.checksum.None? && q.dto.storageKey == row.storageKey
      else was.storageKey == row.storageKey
    ensures CheckedBy(cfg, qs + [q], i, if CommitsTo(cfg, qs + [q], |qs|, row) then |qs| else j, row)
  {
    hide HandleAll, HasDigest, Commit;
    SameBefore(cfg, qs, q, i, row);
    SameBefore(cfg, qs, q, j, row);
    forall k: nat | i < k < |qs| && CommitsTo(cfg, qs + [q], k, row) ensures qs[k].dto.checksum.None? && k <= j {
      SameBefore(cfg, qs, q, k, row);
      assert CommitsTo(cfg, qs, k, was);
    }
  }

  /** What the last request of a run does to the row of a chunk. */
  lemma LastDecides(cfg: Config, qs: seq<Request>, q: Request, id: string, ch: string, n: nat)
    ensures var t, u := HandleAll(cfg, EMPTY, qs), HandleAll(cfg, EMPTY, qs + [q]);
      var was, row := RowOf(t.rows, id, ch, n), RowOf(u.rows, id, ch, n);
      && (row.Some? ==> row.value.recordingId == id && row.value.channel == ch && row.value.sequence == n)
      && (row.Some? ==>
          if CommitsTo(cfg, qs + [q], |qs|, row.value) then
            && row.value.storageKey == q.dto.storageKey
            && (q.dto.checksum.Some? ==> row.value.checksum == q.dto.checksum)
            && (q.dto.checksum.None? && row.value.checksum.Some? ==>
                was.Some? && row.value.checksum == was.value.checksum)
          else was == row)
  {
    hide Upsert, RowOf, SanitizeKey, InNamespace, Recomputed, ChecksumHolds, SameChunk;
    var t, u := HandleAll(cfg, EMPTY, qs), HandleAll(cfg, EMPTY, qs + [q]);
    assert (qs + [q])[..|qs|] == qs;
    assert u == After(t, Handle(cfg, t, q));
    RowOfMember(u.rows, id, ch, n);
    RowNamed(u.rows, id, ch, n);
    if q.CommitChunk? && Commit(cfg, t, q.ownerId, q.dto).Ok? {
      UpsertDecides(t.rows, q.dto, id, ch, n);
    }
  }

  lemma RowNamed(rows: seq<ChunkRow>, id: string, ch: string, n: nat)
    ensures var row := RowOf(rows, id, ch, n);
      row.Some? ==> row.value.recordingId == id && row.value.channel == ch && row.value.sequence == n
  {
  }

  /**
   * Over every run of requests: where commits are verified, a row's checksum comes from an accepted
   * commit and is the digest of the bytes that were stored under the key named there; the row's key
   * comes from the last accepted commit, and those in between named no checksum.
   */
  lemma {:induction false} RowsWereChecked(cfg: Config, qs: seq<Request>, id: string, ch: string, n: nat)
    returns (i: nat, j: nat)
    requires var row := RowOf(HandleAll(cfg, EMPTY, qs).rows, id, ch, n); row.Some? && Verified(cfg, row.value.checksum)
    ensures CheckedBy(cfg, qs, i, j, RowOf(HandleAll(cfg, EMPTY, qs).rows, id, ch, n).value)
  {
    hide HasDigest, Handle, CheckedBy, Commit, RowOf;
    NoRowAtFirst(cfg, id, ch, n);
    var init, q := qs[..|qs| - 1], qs[|qs| - 1];
    var t, row := HandleAll(cfg, EMPTY, init), RowOf(HandleAll(cfg, EMPTY, qs).rows, id, ch, n).value;
    assert qs == init + [q];
    LastDecides(cfg, init, q, id, ch, n);
    if CommitsTo(cfg, qs, |init|, row) && q.dto.checksum.Some? {
      CommitChecked(cfg, init, q, row);
      CheckedNow(cfg, init, q, row);
      i, j := |init|, |init|;
    } else {
      i, j := RowsWereChecked(cfg, init, id, ch, n);
      RowNamed(t.rows, id, ch, n);
      CheckedBefore(cfg, init, q, i, j, RowOf(t.rows, id, ch, n).value, row);
      j := if CommitsTo(cfg, qs, |init|, row) then |init| else j;
    }
  }

  lemma NoRowAtFirst(cfg: Config, id: string, ch: string, n: nat)
    ensures RowOf(HandleAll(cfg, EMPTY, []).rows, id, ch, n).None?
  {
  }

  lemma CommitChecked(cfg: Config, qs: seq<Request>, q: Request, row: ChunkRow)
    requires CommitsTo(cfg, qs + [q], |qs|, row) && q.dto.checksum == row.checksum && Verified(cfg, row.checksum)
    ensures GaveChecksum(cfg, qs + [q], |qs|, row)
  {
    hide HandleAll, HasDigest, Commit;
    assert (qs + [q])[..|qs|] == qs;
    CommitDecides(cfg, HandleAll(cfg, EMPTY, qs), q.ownerId, q.dto);
  }

  /** If every commit names a checksum, the row's is the digest of the bytes then stored under the row's own key. */
  lemma KeyWasChecked(cfg: Config, qs: seq<Request>, id: string, ch: string, n: nat) returns (i: nat)
    requires var row := RowOf(HandleAll(cfg, EMPTY, qs).rows, id, ch, n); row.Some? && Verified(cfg, row.value.checksum)
    requires forall k | 0 <= k < |qs| && qs[k].CommitChunk? :: qs[k].dto.checksum.Some?
    ensures var row := RowOf(HandleAll(cfg, EMPTY, qs).rows, id, ch, n).value;
      i < |qs| && GaveChecksum(cfg, qs, i, row) && qs[i].dto.storageKey == row.storageKey
  {
    hide HasDigest, HandleAll, Commit, RowOf;
    var j;
    i, j := RowsWereChecked(cfg, qs, id, ch, n);
  }

  /** A later commit without a checksum moves the row to any other key and leaves the old checksum in it. */
  lemma OmittedChecksumStays(cfg: Config, s: ServerState, ownerId: string, d: CommitDto, key: string)
    requires Commit(cfg, s, ownerId, d).Ok? && d.checksum.Some?
    ensures var t := Commit(cfg, s, ownerId, d).value;
      var r := Commit(cfg, t, ownerId, d.(checksum := None, storageKey := key));
      r.Ok? && var row := RowOf(r.value.rows, d.recordingId, d.channel, d.sequence);
      row.Some? && row.value.checksum == d.checksum && row.value.storageKey == key
  {
    hide SanitizeKey, ChecksumHolds, Upsert, RowOf, OfRecording, Commit;
    var t, e := Commit(cfg, s, ownerId, d).value, d.(checksum := None, storageKey := key);
    CommitDecides(cfg, s, ownerId, d);
    CommitWrites(cfg, s, ownerId, d);
    CommitKeepsOwner(cfg, s, ownerId, d);
    CommitDecides(cfg, t, ownerId, e);
    CommitWrites(cfg, t, ownerId, e);
  }

  lemma CommitKeepsOwner(cfg: Config, s: ServerState, ownerId: string, d: CommitDto)
    requires Commit(cfg, s, ownerId, d).Ok?
    ensures OwnedBy(Commit(cfg, s, ownerId, d).value, ownerId, d.recordingId)
  {
    hide SanitizeKey, ChecksumHolds, Upsert, OfRecording;
  }

  // ---- uploads ----

  /** An upload of up to 64 MiB in the user's namespace is stored under its clean key, any other refused. */
  lemma UploadDecides(s: ServerState, ownerId: string, key: string, bytes: Bytes)
    ensures var r := StoreBytes(s, ownerId, key, bytes); var sized := 1 <= |bytes| <= 67_108_864;
      && (r == Err(BadRequest) <==> !sized)
      && (r == Err(Forbidden) <==> sized && !InNamespace(key, ownerId))
      && (r.Ok? <==> sized && InNamespace(key, ownerId) && SanitizeKey(key).Ok?)
      && (r.Err? ==> After(s, r) == s)
      && (r.Ok? ==>
        && r.value.files == s.files[SanitizeKey(key).value := bytes]
        && r.value.rows == s.rows && r.value.recordings == s.recordings)
  {
    hide SanitizeKey, InNamespace;
  }

  // ---- recordings ----

  /** Opening a recording makes it, empty and pending, for whoever asks first. */
  lemma OpenDecides(s: ServerState, ownerId: string, id: string)
    ensures var t := Create(s, ownerId, id);
      && id in t.recordings && t.rows == s.rows && t.files == s.files
      && (id in s.recordings ==> t == s)
      && (id !in s.recordings ==>
        && t.recordings.Keys == s.recordings.Keys + {id} && t.recordings[id].ownerId == ownerId
        && !t.recordings[id].completed && t.recordings[id].hasPendingUploads
        && t.recordings[id].durationMs == 0 && t.recordings[id].sizeBytes == 0)
      && (forall other | other in s.recordings :: t.recordings[other] == s.recordings[other])
  {
  }

  /** Completing is the owner's, marks the recording, and touches no other. */
  lemma CompleteDecides(s: ServerState, ownerId: string, id: string)
    ensures var r := Complete(s, ownerId, id);
      && (r == Err(NotFound) <==> id !in s.recordings)
      && (r == Err(Forbidden) <==> id in s.recordings && s.recordings[id].ownerId != ownerId)
      && (r.Ok? <==> OwnedBy(s, ownerId, id))
      && (r.Err? ==> After(s, r) == s)
      && (r.Ok? ==>
        && r.value.rows == s.rows && r.value.files == s.files && r.value.recordings.Keys == s.recordings.Keys
        && (r.value.recordings[id].hasPendingUploads <==>
              exists row :: row in s.rows && row.recordingId == id && !row.uploaded)
        && r.value.recordings[id].completed && r.value.recordings[id].ownerId == ownerId
        && forall other | other in s.recordings && other != id :: r.value.recordings[other] == s.recordings[other])
  {
    hide OfRecording, LongestChannel;
    forall row ensures row in OfRecording(s.rows, id) <==> row in s.rows && row.recordingId == id {
      Grouping.OnKeyMember(s.rows, RowRecording, id, row);
      OfRecordingIs(s.rows, id);
    }
  }

  lemma OfRecordingIs(rows: seq<ChunkRow>, id: string)
    ensures OfRecording(rows, id) == Grouping.OnKey(rows, RowRecording, id)
  {
  }

  lemma CompletedKept(cfg: Config, s: ServerState, q: Request, id: string)
    requires id in s.recordings && s.recordings[id].completed
    ensures var t := After(s, Handle(cfg, s, q)); id in t.recordings && t.recordings[id].completed
    ensures After(s, Handle(cfg, s, q)).recordings[id].ownerId == s.recordings[id].ownerId
  {
    hide OfRecording, SanitizeKey, InNamespace, ChecksumHolds, Upsert;
  }

  /** A completed recording stays completed and its owner's, whatever is asked later. */
  lemma {:induction false} CompletedIsForGood(cfg: Config, s: ServerState, qs: seq<Request>, id: string)
    requires id in s.recordings && s.recordings[id].completed
    ensures var t := HandleAll(cfg, s, qs);
      id in t.recordings && t.recordings[id].completed && t.recordings[id].ownerId == s.recordings[id].ownerId
  {
    hide Handle;
    if qs != [] {
      CompletedIsForGood(cfg, s, qs[..|qs| - 1], id);
      CompletedKept(cfg, HandleAll(cfg, s, qs[..|qs| - 1]), qs[|qs| - 1], id);
    }
  }
}
