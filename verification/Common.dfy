/** Bytes and the chunk record every part of the pipeline shares. */
module Common {
  newtype Byte = b: int | 0 <= b < 256
  type Bytes = seq<Byte>

  ghost predicate Distinct<T>(s: seq<T>) {
    forall i, j | 0 <= i < j < |s| :: s[i] != s[j]
  }

  lemma DistinctFront<T>(x: T, s: seq<T>)
    ensures Distinct([x] + s) <==> Distinct(s) && x !in s
  {
    var t := [x] + s;
    if Distinct(t) {
      assert forall i | 0 <= i < |s| :: t[i + 1] == s[i] != t[0];
      forall i, j | 0 <= i < j < |s| ensures s[i] != s[j] {
        assert t[i + 1] != t[j + 1];
      }
    }
  }

  /** The outer limits of the stages a chunk goes through. */
  datatype ChunkStatus = Recording | Captured | Stored | Uploading | Uploaded | Failed

  /** The metadata of one chunk; `sequence` counts from 0 within its session and channel. */
  datatype AudioChunk = AudioChunk(
    id: string, sessionId: string, channel: string, sequence: nat, status: ChunkStatus,
    startOffsetMs: int, durationMs: nat, byteLength: nat, mimeType: string, createdAt: string)

  /** A chunk as the recovery store holds it. */
  datatype StoredChunk = StoredChunk(meta: AudioChunk, data: Bytes)
}
