/**
 * The local recovery store: open and closed manifests, and chunks under string keys. The
 * string keys refine a map from (session, channel, sequence) whenever ids are free of ':'.
 */
module RecoveryStore {
  import opened Wrappers
  import opened Common
  import opened Decimal
  import opened JsMap
  import Text

  datatype Manifest = Manifest(
    sessionId: string, title: string, startedAt: string, updatedAt: string, closedAt: Option<string>,
    channels: seq<string>, mimeType: string, chunkDurationMs: nat)

  /** `!m.closedAt`: absent, or the empty string. */
  predicate IsOpen(m: Manifest) {
    m.closedAt.None? || m.closedAt.value == ""
  }

  /** What identifies a chunk. */
  datatype ChunkId = ChunkId(session: string, channel: string, sequence: nat)

  function IdOf(m: AudioChunk): ChunkId {
    ChunkId(m.sessionId, m.channel, m.sequence)
  }

  function KeyOf(id: ChunkId): string {
    id.session + "::" + id.channel + "::" + Pad(Digits(id.sequence), 6)
  }

  function ChunkKey(m: AudioChunk): string {
    KeyOf(IdOf(m))
  }

  predicate HasPrefix(key: string, sessionId: string) {
    sessionId + "::" <= key
  }

  /** The keys of a session's chunks, in the order the map iterates them. */
  function SessionKeys(keys: seq<string>, sessionId: string): (r: seq<string>)
    ensures forall k :: k in r <==> k in keys && HasPrefix(k, sessionId)
  {
    if keys == [] then []
    else (if HasPrefix(keys[0], sessionId) then [keys[0]] else []) + SessionKeys(keys[1..], sessionId)
  }

  function RemoveAll(chunks: JsMap<string, StoredChunk>, keys: seq<string>): JsMap<string, StoredChunk> {
    if keys == [] then chunks else RemoveAll(chunks, keys[..|keys| - 1]).Remove(keys[|keys| - 1])
  }

  /** The first key, in iteration order, whose chunk has the given id. */
  function FirstWithId(chunks: JsMap<string, StoredChunk>, keys: seq<string>, chunkId: string): (r: Option<string>)
    requires forall k | k in keys :: k in chunks.at
    ensures r.Some? ==> r.value in keys && chunks.at[r.value].meta.id == chunkId
    ensures r.None? ==> forall k | k in keys :: chunks.at[k].meta.id != chunkId
  {
    if keys == [] then None
    else if chunks.at[keys[0]].meta.id == chunkId then Some(keys[0])
    else FirstWithId(chunks, keys[1..], chunkId)
  }

  function DeletedById(chunks: JsMap<string, StoredChunk>, chunkId: string): JsMap<string, StoredChunk>
    requires forall k | k in chunks.keys :: k in chunks.at
  {
    match FirstWithId(chunks, chunks.keys, chunkId)
    case None => chunks
    case Some(key) => chunks.Remove(key)
  }

  ghost predicate Holds(chunks: JsMap<string, StoredChunk>, c: StoredChunk) {
    ChunkKey(c.meta) in chunks.at && chunks.at[ChunkKey(c.meta)] == c
  }

  ghost predicate KeyOrdered(r: seq<StoredChunk>) {
    forall i, j | 0 <= i < j < |r| :: Less(ChunkKey(r[i].meta), ChunkKey(r[j].meta))
  }

  function ChunksAt(chunks: JsMap<string, StoredChunk>, keys: seq<string>): (r: seq<StoredChunk>)
    requires forall i | 0 <= i < |keys| :: keys[i] in chunks.at
    ensures |r| == |keys|
  {
    seq(|keys|, i requires 0 <= i < |keys| => chunks.at[keys[i]])
  }

  lemma ChunksAtKeys(chunks: JsMap<string, StoredChunk>, keys: seq<string>)
    requires forall k | k in chunks.at :: k == ChunkKey(chunks.at[k].meta)
    requires (forall i | 0 <= i < |keys| :: keys[i] in chunks.at) && SortedKeys(keys)
    ensures KeyOrdered(ChunksAt(chunks, keys))
    ensures forall c: StoredChunk :: c in ChunksAt(chunks, keys) <==> Holds(chunks, c) && ChunkKey(c.meta) in keys
  {
    hide ChunkKey;
    var r := ChunksAt(chunks, keys);
    forall c | Holds(chunks, c) && ChunkKey(c.meta) in keys ensures c in r {
      var i :| 0 <= i < |keys| && keys[i] == ChunkKey(c.meta);
      assert r[i] == c;
    }
  }

  ghost predicate SortedKeys(keys: seq<string>) {
    forall i, j | 0 <= i < j < |keys| :: Less(keys[i], keys[j])
  }

  /** The manifests under the keys that were never closed, in order. */
  function OpenOf(manifests: JsMap<string, Manifest>, keys: seq<string>): seq<Manifest>
    requires forall k | k in keys :: k in manifests.at
  {
    if keys == [] then []
    else
      var m := manifests.at[keys[|keys| - 1]];
      assert keys[|keys| - 1] in keys;
      OpenOf(manifests, keys[..|keys| - 1]) + (if IsOpen(m) then [m] else [])
  }

  lemma NoneOpen(manifests: JsMap<string, Manifest>)
    ensures OpenOf(manifests, []) == []
  {
  }

  lemma OpenNext(manifests: JsMap<string, Manifest>, keys: seq<string>, i: nat)
    requires i < |keys| && forall k | k in keys :: k in manifests.at
    ensures var m := manifests.at[keys[i]];
      OpenOf(manifests, keys[..i + 1]) == OpenOf(manifests, keys[..i]) + (if IsOpen(m) then [m] else [])
  {
    assert keys[..i + 1][..i] == keys[..i];
  }

  lemma NewKey(keys: seq<string>, i: nat)
    requires Distinct(keys) && i < |keys|
    ensures keys[i] !in keys[..i]
  {
  }

  /** The in-memory store. */
  class MemoryRecoveryStore {
    var manifests: JsMap<string, Manifest>
    var chunks: JsMap<string, StoredChunk>

    ghost predicate Valid()
      reads this
    {
      && manifests.Valid() && chunks.Valid()
      && (forall k | k in manifests.at :: manifests.at[k].sessionId == k)
      && (forall k | k in chunks.at :: k == ChunkKey(chunks.at[k].meta))
    }

    constructor ()
      ensures Valid() && manifests == Empty() && chunks == Empty()
    {
      manifests, chunks := Empty(), Empty();
    }

    method PutManifest(manifest: Manifest)
      requires Valid()
      modifies this`manifests
      ensures Valid() && manifests == old(manifests).Put(manifest.sessionId, manifest)
    {
      manifests := manifests.Put(manifest.sessionId, manifest);
    }

    /** Present exactly for a known session, and that session's own. */
    method GetManifest(sessionId: string) returns (r: Option<Manifest>)
      requires Valid()
      ensures r.Some? <==> sessionId in manifests.keys
      ensures r.Some? ==> r.value.sessionId == sessionId && manifests.Put(sessionId, r.value) == manifests
    {
      r := None;
      if sessionId in manifests.at {
        r := Some(manifests.at[sessionId]);
        assert manifests.at[sessionId := r.value] == manifests.at;
      }
    }

    /** The sessions never closed, in the order they were first written. */
    method ListOpenSessions() returns (r: seq<Manifest>)
      requires Valid()
      ensures r == OpenOf(manifests, manifests.keys)
      ensures forall m :: m in r <==> IsOpen(m) && m.sessionId in manifests.at && manifests.at[m.sessionId] == m
      ensures forall i, j | 0 <= i < j < |r| :: r[i].sessionId != r[j].sessionId
    {
      hide OpenOf, Distinct;
      r := [];
      NoneOpen(manifests);
      for i := 0 to |manifests.keys|
        invariant forall m :: m in r <==>
          IsOpen(m) && m.sessionId in manifests.keys[..i] && manifests.at[m.sessionId] == m
        invariant forall a, b | 0 <= a < b < |r| :: r[a].sessionId != r[b].sessionId
        invariant r == OpenOf(manifests, manifests.keys[..i])
      {
        OpenNext(manifests, manifests.keys, i);
        NewKey(manifests.keys, i);
        var m := manifests.at[manifests.keys[i]];
        if IsOpen(m) {
          assert forall a | 0 <= a < |r| :: r[a] in r && r[a].sessionId in manifests.keys[..i];
          r := r + [m];
        }
      }
      assert manifests.keys[..|manifests.keys|] == manifests.keys;
    }

    method MarkClosed(sessionId: string, closedAt: string)
      requires Valid()
      modifies this`manifests
      ensures Valid()
      ensures sessionId !in old(manifests).at ==> manifests == old(manifests)
      ensures sessionId in old(manifests).at ==>
        var m := old(manifests).at[sessionId];
        manifests == old(manifests).Put(sessionId, m.(closedAt := Some(closedAt), updatedAt := closedAt))
    {
      if sessionId in manifests.at {
        var m := manifests.at[sessionId];
        manifests := manifests.Put(sessionId, m.(closedAt := Some(closedAt), updatedAt := closedAt));
      }
    }

    method PutChunk(chunk: StoredChunk)
      requires Valid()
      modifies this`chunks
      ensures Valid() && chunks == old(chunks).Put(ChunkKey(chunk.meta), chunk)
    {
      hide ChunkKey;
      chunks := chunks.Put(ChunkKey(chunk.meta), chunk);
    }

    /** Exactly the chunks under the session's prefix, in ascending order of their keys. */
    method GetChunks(sessionId: string) returns (r: seq<StoredChunk>)
      requires Valid()
      ensures forall c: StoredChunk :: c in r <==> Holds(chunks, c) && HasPrefix(ChunkKey(c.meta), sessionId)
      ensures KeyOrdered(r)
    {
      hide ChunkKey;
      var keys := SortKeys(SessionKeys(chunks.keys, sessionId));
      SessionKeysDistinct(chunks.keys, sessionId);
      r := [];
      for i := 0 to |keys|
        invariant r == ChunksAt(chunks, keys[..i])
      {
        assert keys[i] in keys;
        r := r + [chunks.at[keys[i]]];
      }
      assert keys[..|keys|] == keys;
      ChunksAtKeys(chunks, keys);
    }

    method DeleteChunk(chunkId: string)
      requires Valid()
      modifies this`chunks
      ensures Valid() && chunks == DeletedById(old(chunks), chunkId)
    {
      hide ChunkKey, Others, Distinct;
      var i := 0;
      while i < |chunks.keys|
        invariant 0 <= i <= |chunks.keys| && chunks == old(chunks)
        invariant FirstWithId(chunks, chunks.keys, chunkId) == FirstWithId(chunks, chunks.keys[i..], chunkId)
      {
        var key := chunks.keys[i];
        if chunks.at[key].meta.id == chunkId {
          RemoveValid(chunks, key);
          chunks := chunks.Remove(key);
          return;
        }
        assert chunks.keys[i..][1..] == chunks.keys[i + 1..];
        i := i + 1;
      }
    }

    method DeleteSession(sessionId: string)
      requires Valid()
      modifies this
      ensures Valid() && manifests == old(manifests).Remove(sessionId)
      ensures chunks == RemoveAll(old(chunks), SessionKeys(old(chunks).keys, sessionId))
    {
      hide ChunkKey, SessionKeys, Others, Distinct, HasPrefix;
      RemoveValid(manifests, sessionId);
      manifests := manifests.Remove(sessionId);
      var keys := SessionKeys(chunks.keys, sessionId);
      for i := 0 to |keys|
        invariant manifests == old(manifests).Remove(sessionId)
        invariant chunks == RemoveAll(old(chunks), keys[..i])
      {
        assert keys[..i + 1][..i] == keys[..i];
        chunks := chunks.Remove(keys[i]);
      }
      assert keys[..|keys|] == keys;
      RemoveAllIs(old(chunks), keys);
    }
  }

  lemma {:induction false} SessionKeysDistinct(keys: seq<string>, sessionId: string)
    requires Distinct(keys)
    ensures Distinct(SessionKeys(keys, sessionId))
  {
    if keys != [] {
      assert keys == [keys[0]] + keys[1..];
      DistinctFront(keys[0], keys[1..]);
      SessionKeysDistinct(keys[1..], sessionId);
      DistinctFront(keys[0], SessionKeys(keys[1..], sessionId));
    }
  }

  // ---- sorting keys ----

  method SortKeys(keys: seq<string>) returns (r: seq<string>)
    ensures forall k :: k in r <==> k in keys
    ensures Distinct(keys) ==> SortedKeys(r) && |r| == |keys|
  {
    r := [];
    for i := 0 to |keys|
      invariant forall k :: k in r <==> k in keys[..i]
      invariant Distinct(keys) ==> SortedKeys(r) && |r| == i
    {
      var key := keys[i];
      r := InsertKey(r, key);
    }
  }

  method InsertKey(sorted: seq<string>, key: string) returns (r: seq<string>)
    ensures forall k :: k in r <==> k in sorted || k == key
    ensures |r| == |sorted| + 1
    ensures SortedKeys(sorted) && key !in sorted ==> SortedKeys(r)
  {
    hide Less;
    var i := 0;
    while i < |sorted| && Less(sorted[i], key)
      invariant i <= |sorted| && forall k | 0 <= k < i :: Less(sorted[k], key)
    {
      i := i + 1;
    }
    r := sorted[..i] + [key] + sorted[i..];
    assert sorted == sorted[..i] + sorted[i..];
    if SortedKeys(sorted) && key !in sorted {
      if i < |sorted| {
        LessTotal(sorted[i], key);
      }
      forall k | i <= k < |sorted| ensures Less(key, sorted[k]) {
        if k > i {
          LessTransitive(key, sorted[i], sorted[k]);
        }
      }
    }
  }

  lemma {:induction false} LessTotal(a: string, b: string)
    ensures Less(a, b) || a == b || Less(b, a)
    ensures !(Less(a, b) && Less(b, a)) && !Less(a, a)
  {
    if a != [] && b != [] {
      if UnitRank(a[0]) == UnitRank(b[0]) {
        UnitRankInjective(a[0], b[0]);
      }
      LessTotal(a[1..], b[1..]);
      LessTotal(a[1..], a[1..]);
    } else if a != [] {
      LessTotal(a[1..], a[1..]);
    }
  }

  lemma {:induction false} LessTransitive(a: string, b: string, c: string)
    requires Less(a, b) && Less(b, c)
    ensures Less(a, c)
  {
    if a != [] && a[0] == b[0] == c[0] {
      LessTransitive(a[1..], b[1..], c[1..]);
    }
  }

  // ---- the store as a map from (session, channel, sequence) ----

  predicate ColonFree(id: ChunkId) {
    Text.Free(id.session, ':') && Text.Free(id.channel, ':')
  }

  lemma KeyShape(id: ChunkId)
    ensures KeyOf(id) == id.session + [':'] + (":" + (id.channel + [':'] + (":" + Pad(Digits(id.sequence), 6))))
  {
  }

  /** Without colons in ids, a key determines its chunk. */
  lemma KeyInjective(a: ChunkId, b: ChunkId)
    requires ColonFree(a) && ColonFree(b) && KeyOf(a) == KeyOf(b)
    ensures a == b
  {
    KeyShape(a);
    KeyShape(b);
    var restA := a.channel + [':'] + (":" + Pad(Digits(a.sequence), 6));
    var restB := b.channel + [':'] + (":" + Pad(Digits(b.sequence), 6));
    Text.PrefixDetermined(a.session, ":" + restA, b.session, ":" + restB, ':');
    assert (":" + restA)[1..] == restA && (":" + restB)[1..] == restB;
    Text.PrefixDetermined(a.channel, restA[|a.channel| + 1..], b.channel, restB[|b.channel| + 1..], ':');
    var padA, padB := Pad(Digits(a.sequence), 6), Pad(Digits(b.sequence), 6);
    assert (":" + padA)[1..] == padA && (":" + padB)[1..] == padB;
    ValueOfPadded(a.sequence, 6);
    ValueOfPadded(b.sequence, 6);
  }

  /** A session's prefix selects that session's keys only. */
  lemma PrefixIsSession(id: ChunkId, sessionId: string)
    requires ColonFree(id) && Text.Free(sessionId, ':')
    ensures HasPrefix(KeyOf(id), sessionId) <==> id.session == sessionId
  {
    KeyShape(id);
    var key := KeyOf(id);
    if HasPrefix(key, sessionId) {
      var rest := key[|sessionId| + 2..];
      assert key == sessionId + [':'] + (":" + rest);
      Text.PrefixDetermined(id.session, key[|id.session| + 1..], sessionId, ":" + rest, ':');
    }
  }

  /** With colons in ids a session's prefix also selects another session's chunk of the same number. */
  lemma ColonsMixSessions(channel: string, sequence: nat)
    ensures HasPrefix(KeyOf(ChunkId("a", channel, sequence)), "a") &&
      HasPrefix(KeyOf(ChunkId("a::b", channel, sequence)), "a")
  {
    KeyShape(ChunkId("a", channel, sequence));
    KeyShape(ChunkId("a::b", channel, sequence));
    var key := KeyOf(ChunkId("a::b", channel, sequence));
    assert key[..3] == "a::";
  }

  /** The string-keyed map holds exactly the chunks of `view`. */
  ghost predicate Refines(chunks: JsMap<string, StoredChunk>, view: map<ChunkId, StoredChunk>) {
    && chunks.Valid()
    && (forall id | id in view :: ColonFree(id) && IdOf(view[id].meta) == id &&
          KeyOf(id) in chunks.at && chunks.at[KeyOf(id)] == view[id])
    && (forall k | k in chunks.at :: IdOf(chunks.at[k].meta) in view && k == KeyOf(IdOf(chunks.at[k].meta)))
  }

  lemma PutRefines(chunks: JsMap<string, StoredChunk>, view: map<ChunkId, StoredChunk>, c: StoredChunk)
    requires Refines(chunks, view) && ColonFree(IdOf(c.meta))
    ensures Refines(chunks.Put(ChunkKey(c.meta), c), view[IdOf(c.meta) := c])
  {
    hide KeyOf, ColonFree, JsMap.Valid;
    PutValid(chunks, ChunkKey(c.meta), c);
    forall id | id in view && KeyOf(id) == ChunkKey(c.meta) ensures id == IdOf(c.meta) {
      KeyInjective(id, IdOf(c.meta));
    }
  }

  lemma RemoveRefines(chunks: JsMap<string, StoredChunk>, view: map<ChunkId, StoredChunk>, id: ChunkId)
    requires Refines(chunks, view) && id in view
    ensures Refines(chunks.Remove(KeyOf(id)), view - {id})
  {
    hide KeyOf, Others;
    RemoveValid(chunks, KeyOf(id));
    forall other | other in view && KeyOf(other) == KeyOf(id) ensures other == id {
      KeyInjective(other, id);
    }
  }

  /** `getChunks` returns exactly the chunks of its session. */
  lemma GetRefines(chunks: JsMap<string, StoredChunk>, view: map<ChunkId, StoredChunk>, sessionId: string,
      c: StoredChunk)
    requires Refines(chunks, view) && Text.Free(sessionId, ':')
    ensures Holds(chunks, c) && HasPrefix(ChunkKey(c.meta), sessionId) <==>
      var id := IdOf(c.meta); id in view && view[id] == c && id.session == sessionId
  {
    hide KeyOf, HasPrefix;
    var id := IdOf(c.meta);
    if id in view {
      PrefixIsSession(id, sessionId);
    }
    if Holds(chunks, c) {
      assert id in view;
    }
  }

  lemma {:induction false} RemoveAllIs(chunks: JsMap<string, StoredChunk>, keys: seq<string>)
    requires chunks.Valid()
    ensures var r := RemoveAll(chunks, keys);
      r.Valid() && r.at == chunks.at - (set k | k in keys)
  {
    if keys != [] {
      hide Others, Distinct;
      var init, last := keys[..|keys| - 1], keys[|keys| - 1];
      RemoveAllIs(chunks, init);
      RemoveValid(RemoveAll(chunks, init), last);
      KeysMinus(chunks.at, init, last);
      assert keys == init + [last];
    }
  }

  lemma KeysMinus(at: map<string, StoredChunk>, init: seq<string>, last: string)
    ensures at - (set k | k in init) - {last} == at - (set k | k in init + [last])
  {
    assert (set k | k in init + [last]) == (set k | k in init) + {last};
  }

  function WithoutSession(view: map<ChunkId, StoredChunk>, sessionId: string): map<ChunkId, StoredChunk> {
    map id | id in view && id.session != sessionId :: view[id]
  }

  /** Deleting a session takes all of its chunks and none of another's. */
  lemma DeleteSessionRefines(chunks: JsMap<string, StoredChunk>, view: map<ChunkId, StoredChunk>, sessionId: string)
    requires Refines(chunks, view) && Text.Free(sessionId, ':')
    ensures Refines(RemoveAll(chunks, SessionKeys(chunks.keys, sessionId)), WithoutSession(view, sessionId))
  {
    hide KeyOf, HasPrefix, RemoveAll, SessionKeys, ColonFree;
    var keys := SessionKeys(chunks.keys, sessionId);
    RemoveAllIs(chunks, keys);
    forall id | id in view ensures KeyOf(id) in keys <==> id.session == sessionId {
      PrefixIsSession(id, sessionId);
    }
  }

  /** Deleting by id takes the first chunk found under the id, and nothing if there is none. */
  lemma DeleteFirstRefines(chunks: JsMap<string, StoredChunk>, view: map<ChunkId, StoredChunk>, chunkId: string)
    requires Refines(chunks, view)
    ensures match FirstWithId(chunks, chunks.keys, chunkId)
      case None => DeletedById(chunks, chunkId) == chunks && forall id | id in view :: view[id].meta.id != chunkId
      case Some(key) =>
        var id := IdOf(chunks.at[key].meta);
        id in view && view[id].meta.id == chunkId && Refines(DeletedById(chunks, chunkId), view - {id})
  {
    hide KeyOf, FirstWithId;
    var first := FirstWithId(chunks, chunks.keys, chunkId);
    if first.Some? {
      RemoveRefines(chunks, view, IdOf(chunks.at[first.value].meta));
    } else {
      forall id | id in view ensures view[id].meta.id != chunkId {
        assert KeyOf(id) in chunks.keys;
      }
    }
  }

  /** At most one chunk of the store has the id. */
  ghost predicate UniqueId(view: map<ChunkId, StoredChunk>, chunkId: string) {
    forall a, b | a in view && b in view && view[a].meta.id == chunkId == view[b].meta.id :: a == b
  }

  function WithoutChunk(view: map<ChunkId, StoredChunk>, chunkId: string): map<ChunkId, StoredChunk> {
    map id | id in view && view[id].meta.id != chunkId :: view[id]
  }

  /** Deleting by id leaves no chunk of the id exactly when at most one had it. */
  lemma DeleteByIdRefines(chunks: JsMap<string, StoredChunk>, view: map<ChunkId, StoredChunk>, chunkId: string)
    requires Refines(chunks, view)
    ensures Refines(DeletedById(chunks, chunkId), WithoutChunk(view, chunkId)) <==> UniqueId(view, chunkId)
  {
    DeleteFirstRefines(chunks, view, chunkId);
    hide KeyOf, FirstWithId, DeletedById, Refines;
    var first, rest := FirstWithId(chunks, chunks.keys, chunkId), WithoutChunk(view, chunkId);
    if first.Some? {
      var id := IdOf(chunks.at[first.value].meta);
      RefinesOne(DeletedById(chunks, chunkId), view - {id}, rest);
      WithoutOne(view, chunkId, id);
    } else {
      assert view == rest;
    }
  }

  lemma WithoutOne(view: map<ChunkId, StoredChunk>, chunkId: string, id: ChunkId)
    requires id in view && view[id].meta.id == chunkId
    ensures UniqueId(view, chunkId) ==> view - {id} == WithoutChunk(view, chunkId)
    ensures !UniqueId(view, chunkId) ==> exists b :: b in view - {id} && b !in WithoutChunk(view, chunkId)
  {
    if !UniqueId(view, chunkId) {
      var a, b :| a in view && b in view && view[a].meta.id == chunkId == view[b].meta.id && a != b;
      var other := if a == id then b else a;
      assert other in view - {id} && other !in WithoutChunk(view, chunkId);
    }
  }

  /** A store refines one map only. */
  lemma RefinesOne(chunks: JsMap<string, StoredChunk>, view: map<ChunkId, StoredChunk>,
      other: map<ChunkId, StoredChunk>)
    requires Refines(chunks, view)
    ensures Refines(chunks, other) ==> forall id | id in view :: id in other
  {
    hide KeyOf;
  }

  lemma KeyOrderIsPadOrder(a: ChunkId, b: ChunkId)
    requires a.session == b.session && a.channel == b.channel
    ensures Less(KeyOf(a), KeyOf(b)) <==> Less(Pad(Digits(a.sequence), 6), Pad(Digits(b.sequence), 6))
  {
    LessAfterPrefix(a.session + "::" + a.channel + "::", Pad(Digits(a.sequence), 6), Pad(Digits(b.sequence), 6));
  }

  /** Below a million, the string order of a channel's keys is the order of their sequences. */
  lemma KeyOrderIsSequenceOrder(a: ChunkId, b: ChunkId)
    requires a.session == b.session && a.channel == b.channel
    requires a.sequence < 1000000 && b.sequence < 1000000
    ensures Less(KeyOf(a), KeyOf(b)) <==> a.sequence < b.sequence
  {
    hide KeyOf, Less, Pad;
    KeyOrderIsPadOrder(a, b);
    SixDigits(a.sequence);
    SixDigits(b.sequence);
    LessIsNumeric(Pad(Digits(a.sequence), 6), Pad(Digits(b.sequence), 6));
  }

  lemma SixDigits(n: nat)
    requires n < 1000000
    ensures |Pad(Digits(n), 6)| == 6 && Value(Pad(Digits(n), 6)) == n
  {
    assert Pow10(6) == 1000000;
    DigitCount(n, 6);
    ValueOfPadded(n, 6);
  }

  /** At a million the string order fails. */
  lemma KeyOrderBreaks(session: string, channel: string)
    ensures Less(KeyOf(ChunkId(session, channel, 1000000)), KeyOf(ChunkId(session, channel, 999999)))
  {
    var a, b := ChunkId(session, channel, 1000000), ChunkId(session, channel, 999999);
    KeyOrderIsPadOrder(a, b);
    LeadingDigit(1000000, '1');
    LeadingDigit(999999, '9');
  }

  /** On the first `n` sequences key order is sequence order exactly up to a million of them. */
  lemma KeyOrderHoldsExactly(session: string, channel: string, n: nat)
    ensures KeysInOrder(session, channel, n) <==> n <= 1000000
  {
    hide KeyOf;
    if n <= 1000000 {
      forall i, j | 0 <= i < n && 0 <= j < n
        ensures Less(KeyOf(ChunkId(session, channel, i)), KeyOf(ChunkId(session, channel, j))) <==> i < j
      {
        KeyOrderIsSequenceOrder(ChunkId(session, channel, i), ChunkId(session, channel, j));
      }
    } else {
      KeyOrderBreaks(session, channel);
    }
  }

  ghost predicate KeysInOrder(session: string, channel: string, n: nat) {
    forall i: nat, j: nat | i < n && j < n ::
      Less(KeyOf(ChunkId(session, channel, i)), KeyOf(ChunkId(session, channel, j))) <==> i < j
  }

  lemma LeadingDigit(n: nat, c: char)
    requires (n == 1000000 && c == '1') || (n == 999999 && c == '9')
    ensures Pad(Digits(n), 6)[0] == c
  {
    assert Digits(n / 100000)[0] == c;
    assert Digits(n / 1000)[0] == c;
    assert Digits(n / 10)[0] == c;
    assert |Digits(n)| >= 6 by {
      assert Pow10(5) == 100000;
      DigitCount(n, 5);
    }
  }
}
