/** Storage keys: a safe normal form for path segments, and the key of a chunk. */
module Keys {
  import opened Wrappers
  import opened Text
  import opened Decimal

  predicate SafeChar(c: char) {
    'a' <= c <= 'z' || 'A' <= c <= 'Z' || '0' <= c <= '9' || c == '.' || c == '_' || c == '-'
  }

  predicate SafeUnit(u: CodeUnit) {
    u < 0x80 && SafeChar(u as char)
  }

  /** The length of the unsafe run, respectively the dot run, at the start. */
  function UnsafeRun(s: seq<CodeUnit>): (k: nat)
    ensures k <= |s| && (k < |s| ==> SafeUnit(s[k]))
  {
    if s == [] || SafeUnit(s[0]) then 0 else 1 + UnsafeRun(s[1..])
  }

  function DotRun(s: string): (k: nat)
    ensures k <= |s| && (k < |s| ==> s[k] != '.')
  {
    if s == [] || s[0] != '.' then 0 else 1 + DotRun(s[1..])
  }

  /** Every maximal run of unsafe code units becomes one underscore. */
  function CollapseUnsafe(s: seq<CodeUnit>): string
    decreases |s|
  {
    if s == [] then []
    else if SafeUnit(s[0]) then [s[0] as char] + CollapseUnsafe(s[1..])
    else ['_'] + CollapseUnsafe(s[UnsafeRun(s)..])
  }

  /** Every maximal run of two or more dots becomes one underscore. */
  function CollapseDots(s: string): string
    decreases |s|
  {
    if s == [] then []
    else if DotRun(s) >= 2 then ['_'] + CollapseDots(s[DotRun(s)..])
    else [s[0]] + CollapseDots(s[1..])
  }

  function Truncated(s: string): string {
    if |s| <= 128 then s else s[..128]
  }

  function OrUnderscore(s: string): string {
    if s == "" then "_" else s
  }

  function SafeSegment(input: string): string {
    OrUnderscore(Truncated(CollapseDots(CollapseUnsafe(Units(input)))))
  }

  predicate NoDotPair(s: string) {
    forall i | 1 <= i < |s| :: !(s[i - 1] == '.' && s[i] == '.')
  }

  predicate AllSafe(s: string) {
    forall i | 0 <= i < |s| :: SafeChar(s[i])
  }

  /** The normal form: safe characters, no two dots in a row, 1 to 128 long. */
  predicate Normal(s: string) {
    AllSafe(s) && NoDotPair(s) && 1 <= |s| <= 128
  }

  lemma {:induction false} CollapseUnsafeIsSafe(s: seq<CodeUnit>)
    ensures AllSafe(CollapseUnsafe(s))
    decreases |s|
  {
    if s != [] {
      CollapseUnsafeIsSafe(if SafeUnit(s[0]) then s[1..] else s[UnsafeRun(s)..]);
    }
  }

  lemma {:induction false} CollapseDotsIsNormal(s: string)
    requires AllSafe(s)
    ensures AllSafe(CollapseDots(s)) && NoDotPair(CollapseDots(s))
    ensures CollapseDots(s) != [] && CollapseDots(s)[0] == '.' ==> s != [] && s[0] == '.'
    decreases |s|
  {
    if s != [] {
      CollapseDotsIsNormal(if DotRun(s) >= 2 then s[DotRun(s)..] else s[1..]);
    }
  }

  lemma SafeIsOneUnit(c: char)
    requires SafeChar(c)
    ensures UnitsOf(c) == [c as int as CodeUnit] && SafeUnit(c as int as CodeUnit)
  {
  }

  /** Safe text is its own code units, one a character. */
  lemma {:induction false} CollapseFixed(s: string)
    requires AllSafe(s)
    ensures CollapseUnsafe(Units(s)) == s && Underscored(Units(s)) == s
  {
    if s != [] {
      CollapseFixed(s[1..]);
      SafeIsOneUnit(s[0]);
      assert Units(s)[1..] == Units(s[1..]);
      assert s == [s[0]] + s[1..];
    }
  }

  lemma {:induction false} DotsFixed(s: string)
    requires NoDotPair(s)
    ensures CollapseDots(s) == s
  {
    if s != [] {
      assert forall i | 1 <= i < |s[1..]| :: s[1..][i - 1] == s[i] && s[1..][i] == s[i + 1];
      DotsFixed(s[1..]);
      assert |s| > 1 ==> !(s[0] == '.' && s[1] == '.');
      assert s == [s[0]] + s[1..];
    }
  }

  lemma SafeSegmentIsNormal(s: string)
    ensures Normal(SafeSegment(s))
  {
    CollapseUnsafeIsSafe(Units(s));
    CollapseDotsIsNormal(CollapseUnsafe(Units(s)));
  }

  lemma SafeSegmentFixesNormal(s: string)
    requires Normal(s)
    ensures SafeSegment(s) == s
  {
    hide CollapseUnsafe, CollapseDots, Underscored;
    CollapseFixed(s);
    DotsFixed(s);
  }

  lemma SafeSegmentIdempotent(s: string)
    ensures SafeSegment(SafeSegment(s)) == SafeSegment(s)
  {
    SafeSegmentIsNormal(s);
    SafeSegmentFixesNormal(SafeSegment(s));
  }

  lemma SomethingStays(u: seq<CodeUnit>, s: string)
    ensures u != [] ==> CollapseUnsafe(u) != []
    ensures s != [] ==> CollapseDots(s) != [] && Units(s) != []
  {
  }

  lemma DotStays(u: seq<CodeUnit>, s: string)
    ensures CollapseUnsafe(u) == "." ==> u == ['.' as int as CodeUnit]
    ensures CollapseDots(s) == "." ==> s == "."
  {
    if u != [] {
      SomethingStays(u[1..], "");
      assert SafeUnit(u[0]) ==> (u[0] as char) as int == u[0] as int;
      assert CollapseUnsafe(u) != [] && CollapseUnsafe(u)[0] == if SafeUnit(u[0]) then u[0] as char else '_';
    }
    if |s| > 1 {
      SomethingStays([], s[1..]);
    }
  }

  lemma DotUnit(s: string)
    requires Units(s) == ['.' as int as CodeUnit]
    ensures s == "."
  {
    SomethingStays([], s[1..]);
    assert Units(s) == UnitsOf(s[0]) + Units(s[1..]);
    assert Units(s)[0] == UnitsOf(s[0])[0];
    assert s == [s[0]] + s[1..];
  }

  /** Only a single dot is made into a single dot. */
  lemma DotsOnly(s: string)
    ensures SafeSegment(s) == "." <==> s == "."
  {
    if s == "." {
      SafeSegmentFixesNormal(s);
    } else {
      hide CollapseUnsafe, CollapseDots, Units;
      DotStays(Units(s), CollapseUnsafe(Units(s)));
      if Units(s) == ['.' as int as CodeUnit] {
        DotUnit(s);
      }
    }
  }

  // ---- whole keys ----

  /** The segments a key is left with: empty, "." and ".." ones go, the rest are made safe. */
  function CleanSegments(segs: seq<string>): seq<string> {
    if segs == [] then []
    else
      (if segs[0] == "" || segs[0] == "." || segs[0] == ".." then [] else [SafeSegment(segs[0])])
      + CleanSegments(segs[1..])
  }

  datatype KeyError = InvalidStorageKey

  function SanitizeKey(key: string): Result<string, KeyError> {
    var cleaned := Join(CleanSegments(Split(key, '/')), "/");
    if cleaned == "" then Err(InvalidStorageKey) else Ok(cleaned)
  }

  predicate CleanSegment(s: string) {
    Normal(s) && s != "."
  }

  predicate AllClean(segs: seq<string>) {
    forall i | 0 <= i < |segs| :: CleanSegment(segs[i])
  }

  lemma {:induction false} CleanSegmentsAreClean(segs: seq<string>)
    ensures AllClean(CleanSegments(segs))
  {
    hide SafeSegment, Normal;
    if segs != [] {
      CleanSegmentsAreClean(segs[1..]);
      SafeSegmentIsNormal(segs[0]);
      DotsOnly(segs[0]);
    }
  }

  lemma DotPairNotNormal()
    ensures !Normal("..")
  {
    assert ".."[1 - 1] == '.' && ".."[1] == '.';
  }

  lemma {:induction false} CleanSegmentsFixed(segs: seq<string>)
    requires AllClean(segs)
    ensures CleanSegments(segs) == segs
  {
    hide SafeSegment;
    if segs != [] {
      assert CleanSegment(segs[0]);
      SafeSegmentFixesNormal(segs[0]);
      DotPairNotNormal();
      CleanSegmentsFixed(segs[1..]);
      assert segs == [segs[0]] + segs[1..];
    }
  }

  lemma CleanIsSlashFree(segs: seq<string>)
    requires AllClean(segs)
    ensures forall i | 0 <= i < |segs| :: Free(segs[i], '/') && segs[i] != ""
  {
    forall i | 0 <= i < |segs| ensures Free(segs[i], '/') && segs[i] != "" {
      assert CleanSegment(segs[i]);
    }
  }

  /** A key made of clean segments is left as it is. */
  lemma SanitizeFixesClean(segs: seq<string>)
    requires segs != [] && AllClean(segs)
    ensures SanitizeKey(Join(segs, "/")) == Ok(Join(segs, "/"))
  {
    hide CleanSegment;
    CleanIsSlashFree(segs);
    SplitJoin(segs, '/');
    CleanSegmentsFixed(segs);
    assert Join(segs, "/") != "" by {
      assert segs[0] != "";
    }
  }

  lemma SanitizeIdempotent(key: string)
    ensures SanitizeKey(key).Ok? ==> SanitizeKey(SanitizeKey(key).value) == SanitizeKey(key)
  {
    hide Split;
    var segs := CleanSegments(Split(key, '/'));
    CleanSegmentsAreClean(Split(key, '/'));
    if SanitizeKey(key).Ok? {
      assert segs != [];
      SanitizeFixesClean(segs);
    }
  }

  /** The segments of a cleaned key, none if it is invalid. */
  function CleanedSegments(key: string): seq<string> {
    if SanitizeKey(key).Ok? then Split(SanitizeKey(key).value, '/') else []
  }

  lemma CleanedAre(key: string)
    ensures CleanedSegments(key) == CleanSegments(Split(key, '/'))
  {
    hide Split;
    var segs := CleanSegments(Split(key, '/'));
    CleanSegmentsAreClean(Split(key, '/'));
    if segs != [] {
      CleanIsSlashFree(segs);
      SplitJoin(segs, '/');
      assert Join(segs, "/") != "" by {
        assert CleanSegment(segs[0]);
      }
    }
  }

  lemma {:induction false} CleanSegmentsAppend(a: seq<string>, b: seq<string>)
    ensures CleanSegments(a + b) == CleanSegments(a) + CleanSegments(b)
  {
    if a == [] {
      assert a + b == b;
    } else {
      var head := if a[0] == "" || a[0] == "." || a[0] == ".." then [] else [SafeSegment(a[0])];
      hide SafeSegment;
      calc {
        CleanSegments(a + b);
        { assert (a + b)[1..] == a[1..] + b; }
        head + CleanSegments(a[1..] + b);
        { CleanSegmentsAppend(a[1..], b); }
        head + (CleanSegments(a[1..]) + CleanSegments(b));
        CleanSegments(a) + CleanSegments(b);
      }
    }
  }

  lemma CleanOne(piece: string)
    ensures CleanSegments([piece]) == if piece == "" || piece == "." || piece == ".." then [] else [SafeSegment(piece)]
  {
    hide SafeSegment;
    assert CleanSegments([piece][1..]) == [];
  }

  /**
   * What cleaning a key comes to: it works between slashes, drops a piece that is empty or one or two
   * dots, and makes any other one a safe segment; a key of which nothing is left is invalid.
   */
  lemma CleaningIsPiecewise(a: string, b: string, piece: string)
    requires Free(piece, '/')
    ensures CleanedSegments(a + "/" + b) == CleanedSegments(a) + CleanedSegments(b)
    ensures CleanedSegments(piece) ==
      if piece == "" || piece == "." || piece == ".." then [] else [SafeSegment(piece)]
    ensures SanitizeKey(a).Ok? <==> CleanedSegments(a) != []
  {
    hide Split, SafeSegment;
    CleanedAre(a + "/" + b);
    CleanedAre(a);
    CleanedAre(b);
    SplitAppend(a, b, '/');
    CleanSegmentsAppend(Split(a, '/'), Split(b, '/'));
    CleanedAre(piece);
    SplitPiece(piece, [], '/');
    CleanOne(piece);
  }

  function FileName(sequence: nat): string {
    Pad(Digits(sequence), 6) + ".webm"
  }

  function ChunkSegments(ownerId: string, recordingId: string, channel: string, sequence: nat): (r: seq<string>)
    ensures |r| == 5
  {
    ["recordings", SafeSegment(ownerId), SafeSegment(recordingId), SafeSegment(channel), FileName(sequence)]
  }

  /** The key of a chunk; the extension is always the default one. */
  function BuildChunkKey(ownerId: string, recordingId: string, channel: string, sequence: nat): string {
    Join(ChunkSegments(ownerId, recordingId, channel, sequence), "/")
  }

  /** Sequences that JavaScript prints without an exponent. */
  const MAX_SEQUENCE := 0x1F_FFFF_FFFF_FFFF

  lemma FileNameIsClean(sequence: nat)
    requires sequence <= MAX_SEQUENCE
    ensures CleanSegment(FileName(sequence))
  {
    var pad := Pad(Digits(sequence), 6);
    assert Pow10(8) == 100000000;
    Pow10Split(8, 8);
    DigitCount(sequence, 16);
    assert |pad| <= 16;
    var f := FileName(sequence);
    assert forall i | 0 <= i < |pad| :: f[i] == pad[i] && IsDigit(f[i]);
    assert f[|pad|] == '.' && f[|pad| + 1] == 'w' && f[|pad| + 2] == 'e' && f[|pad| + 3] == 'b' && f[|pad| + 4] == 'm';
  }

  lemma {:induction false} Pow10Split(a: nat, b: nat)
    ensures Pow10(a + b) == Pow10(a) * Pow10(b)
  {
    if b > 0 {
      Pow10Split(a, b - 1);
      assert Pow10(a + b) == 10 * Pow10(a + (b - 1));
    }
  }

  lemma ChunkSegmentsClean(ownerId: string, recordingId: string, channel: string, sequence: nat)
    requires sequence <= MAX_SEQUENCE
    ensures AllClean(ChunkSegments(ownerId, recordingId, channel, sequence)) <==>
      ownerId != "." && recordingId != "." && channel != "."
    ensures Normal("recordings")
  {
    hide SafeSegment, Normal, FileName;
    var segs := ChunkSegments(ownerId, recordingId, channel, sequence);
    RecordingsIsNormal();
    SafeSegmentIsNormal(ownerId);
    SafeSegmentIsNormal(recordingId);
    SafeSegmentIsNormal(channel);
    DotsOnly(ownerId);
    DotsOnly(recordingId);
    DotsOnly(channel);
    FileNameIsClean(sequence);
    assert CleanSegment(segs[1]) <==> ownerId != ".";
    assert CleanSegment(segs[2]) <==> recordingId != ".";
    assert CleanSegment(segs[3]) <==> channel != ".";
    assert CleanSegment(segs[0]) && CleanSegment(segs[4]);
  }

  lemma RecordingsIsNormal()
    ensures Normal("recordings")
  {
  }

  /** A built key is in normal form exactly when no id is a single dot. */
  lemma SanitizeFixesBuilt(ownerId: string, recordingId: string, channel: string, sequence: nat)
    requires sequence <= MAX_SEQUENCE
    ensures var key := BuildChunkKey(ownerId, recordingId, channel, sequence);
      SanitizeKey(key) == Ok(key) <==> ownerId != "." && recordingId != "." && channel != "."
  {
    hide SafeSegment, FileName, CleanSegment, Split;
    var segs := ChunkSegments(ownerId, recordingId, channel, sequence);
    var key := Join(segs, "/");
    ChunkSegmentsClean(ownerId, recordingId, channel, sequence);
    if AllClean(segs) {
      SanitizeFixesClean(segs);
    }
    if SanitizeKey(key) == Ok(key) {
      SegmentsSlashFree(ownerId, recordingId, channel, sequence);
      FixedIsClean(segs);
    }
  }

  lemma FixedIsClean(segs: seq<string>)
    requires segs != [] && forall i | 0 <= i < |segs| :: Free(segs[i], '/')
    requires SanitizeKey(Join(segs, "/")) == Ok(Join(segs, "/"))
    ensures AllClean(segs)
  {
    hide Split, CleanSegment, Join;
    var key := Join(segs, "/");
    var cleaned := CleanSegments(Split(key, '/'));
    CleanSegmentsAreClean(Split(key, '/'));
    CleanIsSlashFree(cleaned);
    assert cleaned != [] by {
      NothingJoined();
    }
    SplitJoin(cleaned, '/');
    SplitJoin(segs, '/');
  }

  lemma NothingJoined()
    ensures Join([], "/") == ""
  {
  }

  lemma SegmentsSlashFree(ownerId: string, recordingId: string, channel: string, sequence: nat)
    requires sequence <= MAX_SEQUENCE
    ensures var segs := ChunkSegments(ownerId, recordingId, channel, sequence);
      forall i | 0 <= i < |segs| :: Free(segs[i], '/')
  {
    hide SafeSegment, FileName;
    SafeSegmentIsNormal(ownerId);
    SafeSegmentIsNormal(recordingId);
    SafeSegmentIsNormal(channel);
    FileNameIsClean(sequence);
    NormalSlashFree(SafeSegment(ownerId));
    NormalSlashFree(SafeSegment(recordingId));
    NormalSlashFree(SafeSegment(channel));
    NormalSlashFree(FileName(sequence));
    RecordingsIsNormal();
    NormalSlashFree("recordings");
  }

  lemma NormalSlashFree(s: string)
    requires Normal(s)
    ensures Free(s, '/')
  {
  }

  // ---- the owner's namespace ----

  function Underscored(s: seq<CodeUnit>): (r: string)
    ensures |r| == |s|
  {
    if s == [] then [] else [if SafeUnit(s[0]) then s[0] as char else '_'] + Underscored(s[1..])
  }

  /** The owner segment as the ingest check computes it: code unit by code unit. */
  function OwnerIdSegment(ownerId: string): string {
    OrUnderscore(Truncated(Underscored(Units(ownerId))))
  }

  predicate InNamespace(key: string, ownerId: string) {
    "recordings/" + OwnerIdSegment(ownerId) + "/" <= key
  }

  lemma {:induction false} UnderscoredIsSafe(s: seq<CodeUnit>)
    ensures AllSafe(Underscored(s))
  {
    if s != [] {
      UnderscoredIsSafe(s[1..]);
    }
  }

  lemma OwnerSlashFree(ownerId: string)
    ensures Free(OwnerIdSegment(ownerId), '/')
  {
    UnderscoredIsSafe(Units(ownerId));
  }

  /** No two unsafe code units next to one another, and no two dots. */
  predicate NoRuns(u: seq<CodeUnit>) {
    forall i | 1 <= i < |u| :: (SafeUnit(u[i - 1]) || SafeUnit(u[i])) && !(IsDot(u[i - 1]) && IsDot(u[i]))
  }

  predicate IsDot(u: CodeUnit) {
    u == '.' as int as CodeUnit
  }

  lemma {:induction false} CollapseShortens(u: seq<CodeUnit>)
    ensures |CollapseUnsafe(u)| <= |u|
    ensures |CollapseUnsafe(u)| == |u| ==> CollapseUnsafe(u) == Underscored(u)
    ensures |CollapseUnsafe(u)| == |u| <==> forall i | 1 <= i < |u| :: SafeUnit(u[i - 1]) || SafeUnit(u[i])
    decreases |u|
  {
    if u != [] {
      var k := if SafeUnit(u[0]) then 1 else UnsafeRun(u);
      var rest := u[k..];
      CollapseShortens(rest);
      if k == 1 {
        assert forall i | 1 <= i < |rest| :: rest[i - 1] == u[i] && rest[i] == u[i + 1];
        assert |u| > 1 ==> rest[0] == u[1];
        if forall i | 1 <= i < |rest| :: SafeUnit(rest[i - 1]) || SafeUnit(rest[i]) {
          FirstPair(u);
        } else {
          var i :| 1 <= i < |rest| && !(SafeUnit(rest[i - 1]) || SafeUnit(rest[i]));
          assert !(SafeUnit(u[i + 1 - 1]) || SafeUnit(u[i + 1]));
        }
      } else {
        LongRun(u);
        assert !(SafeUnit(u[1 - 1]) || SafeUnit(u[1]));
      }
    }
  }

  lemma LongRun(u: seq<CodeUnit>)
    requires u != [] && UnsafeRun(u) >= 2
    ensures |u| > 1 && !SafeUnit(u[0]) && !SafeUnit(u[1])
  {
  }

  lemma FirstPair(u: seq<CodeUnit>)
    requires u != [] && (SafeUnit(u[0]) || UnsafeRun(u) == 1)
    requires forall i | 1 <= i < |u[1..]| :: SafeUnit(u[1..][i - 1]) || SafeUnit(u[1..][i])
    ensures forall i | 1 <= i < |u| :: SafeUnit(u[i - 1]) || SafeUnit(u[i])
  {
    forall i | 1 <= i < |u| ensures SafeUnit(u[i - 1]) || SafeUnit(u[i]) {
      if i > 1 {
        assert u[1..][i - 2] == u[i - 1] && u[1..][i - 1] == u[i];
      }
    }
  }

  lemma {:induction false} DotsShorten(s: string)
    ensures |CollapseDots(s)| <= |s|
    ensures |CollapseDots(s)| == |s| <==> NoDotPair(s)
    decreases |s|
  {
    if s != [] {
      if DotRun(s) >= 2 {
        DotsShorten(s[DotRun(s)..]);
        assert DotRun(s[1..]) >= 1;
        assert s[1..][0] == s[1];
        assert s[1 - 1] == '.' && s[1] == '.';
      } else {
        DotsShorten(s[1..]);
        DotPairLater(s);
      }
    }
  }

  lemma DotPairLater(s: string)
    requires s != [] && DotRun(s) < 2
    ensures NoDotPair(s) <==> NoDotPair(s[1..])
  {
    if NoDotPair(s[1..]) {
      forall i | 1 <= i < |s| ensures !(s[i - 1] == '.' && s[i] == '.') {
        if i > 1 {
          assert s[1..][i - 2] == s[i - 1] && s[1..][i - 1] == s[i];
        }
      }
    } else {
      var i :| 1 <= i < |s[1..]| && s[1..][i - 1] == '.' && s[1..][i] == '.';
      assert s[i + 1 - 1] == '.' && s[i + 1] == '.';
    }
  }

  lemma {:induction false} UnderscoredAt(u: seq<CodeUnit>, i: nat)
    requires i < |u|
    ensures Underscored(u)[i] == if SafeUnit(u[i]) then u[i] as char else '_'
  {
    if i > 0 {
      UnderscoredAt(u[1..], i - 1);
    }
  }

  lemma DotPairsMatch(u: seq<CodeUnit>)
    ensures NoDotPair(Underscored(u)) <==> forall i | 1 <= i < |u| :: !(IsDot(u[i - 1]) && IsDot(u[i]))
  {
    var s := Underscored(u);
    forall i | 0 <= i < |u| ensures s[i] == '.' <==> IsDot(u[i]) {
      UnderscoredAt(u, i);
    }
    if NoDotPair(s) {
      forall i | 1 <= i < |u| ensures !(IsDot(u[i - 1]) && IsDot(u[i])) {
        assert !(s[i - 1] == '.' && s[i] == '.');
      }
    }
  }

  /** Before truncation the two computations agree exactly on ids without runs. */
  lemma SameWithoutRuns(u: seq<CodeUnit>)
    ensures CollapseDots(CollapseUnsafe(u)) == Underscored(u) <==> NoRuns(u)
    ensures !NoRuns(u) ==> |CollapseDots(CollapseUnsafe(u))| < |u|
  {
    hide CollapseDots, CollapseUnsafe, Underscored, NoDotPair, SafeUnit, IsDot;
    CollapseShortens(u);
    DotsShorten(CollapseUnsafe(u));
    DotPairsMatch(u);
    if |CollapseUnsafe(u)| == |u| && NoDotPair(CollapseUnsafe(u)) {
      DotsFixed(CollapseUnsafe(u));
    }
  }

  // ---- issued keys ----

  /** The key on an upload ticket: the storage driver cleans what was built. */
  function IssuedKey(ownerId: string, recordingId: string, channel: string, sequence: nat): Result<string, KeyError> {
    SanitizeKey(BuildChunkKey(ownerId, recordingId, channel, sequence))
  }

  /** What cleaning leaves of the segments behind the owner's: ids that are a single dot go. */
  function TailSegments(recordingId: string, channel: string, sequence: nat): seq<string> {
    CleanSegments([SafeSegment(recordingId), SafeSegment(channel), FileName(sequence)])
  }

  /** A key is always issued; the owner's segment is missing exactly if the id is a single dot. */
  lemma IssuedKeyIs(ownerId: string, recordingId: string, channel: string, sequence: nat)
    requires sequence <= MAX_SEQUENCE
    ensures var tail := TailSegments(recordingId, channel, sequence);
      && tail != [] && AllClean(tail)
      && IssuedKey(ownerId, recordingId, channel, sequence) ==
         Ok(Join(["recordings"] + (if ownerId == "." then [] else [SafeSegment(ownerId)]) + tail, "/"))
  {
    hide SafeSegment, FileName, Split, CleanSegment;
    var segs := ChunkSegments(ownerId, recordingId, channel, sequence);
    var tail := TailSegments(recordingId, channel, sequence);
    var own := if ownerId == "." then [] else [SafeSegment(ownerId)];
    SegmentsSlashFree(ownerId, recordingId, channel, sequence);
    SplitJoin(segs, '/');
    CleanSegmentsAreClean(segs[2..]);
    assert segs[2..] == [SafeSegment(recordingId), SafeSegment(channel), FileName(sequence)];
    LastStays(SafeSegment(recordingId), SafeSegment(channel), sequence);
    CleanFront(ownerId, segs);
    StartsWithRecordings(["recordings"] + own + tail);
  }

  lemma StartsWithRecordings(segs: seq<string>)
    requires segs != [] && segs[0] == "recordings"
    ensures Join(segs, "/") != ""
  {
    assert segs[0] != "";
  }

  lemma LastStays(a: string, b: string, sequence: nat)
    requires sequence <= MAX_SEQUENCE
    ensures CleanSegments([a, b, FileName(sequence)]) != []
  {
    hide SafeSegment, FileName;
    var f := FileName(sequence);
    FileNameIsClean(sequence);
    DotPairNotNormal();
    assert [f][1..] == [] && CleanSegments([f]) == [SafeSegment(f)] + CleanSegments([]);
    assert [b, f][1..] == [f] && |CleanSegments([b, f])| >= |CleanSegments([f])|;
    assert [a, b, f][1..] == [b, f] && |CleanSegments([a, b, f])| >= |CleanSegments([b, f])|;
  }

  /** Cleaning keeps the first segment, and the owner's unless it is a single dot. */
  lemma CleanFront(ownerId: string, segs: seq<string>)
    requires |segs| >= 2 && segs[0] == "recordings" && segs[1] == SafeSegment(ownerId)
    ensures CleanSegments(segs) ==
      ["recordings"] + (if ownerId == "." then [] else [SafeSegment(ownerId)]) + CleanSegments(segs[2..])
  {
    hide SafeSegment;
    RecordingsIsNormal();
    SafeSegmentFixesNormal("recordings");
    SafeSegmentIsNormal(ownerId);
    SafeSegmentFixesNormal(SafeSegment(ownerId));
    DotsOnly(ownerId);
    DotPairNotNormal();
    CleanOne("recordings");
    CleanOne(segs[1]);
    CleanSegmentsAppend(segs[..2], segs[2..]);
    CleanSegmentsAppend([segs[0]], [segs[1]]);
    hide CleanSegments;
    assert segs[..2] + segs[2..] == segs && [segs[0]] + [segs[1]] == segs[..2];
  }

  /** An issued key passes the owner's ingest check exactly when the two owner segments coincide. */
  lemma PassesIfSame(ownerId: string, recordingId: string, channel: string, sequence: nat)
    requires sequence <= MAX_SEQUENCE
    ensures var t := IssuedKey(ownerId, recordingId, channel, sequence);
      t.Ok? && (InNamespace(t.value, ownerId) <==> ownerId != "." && OwnerIdSegment(ownerId) == SafeSegment(ownerId))
  {
    hide SafeSegment, OwnerIdSegment, IssuedKey, TailSegments, CleanSegment, InNamespace;
    var tail := TailSegments(recordingId, channel, sequence);
    IssuedKeyIs(ownerId, recordingId, channel, sequence);
    OwnerSlashFree(ownerId);
    CleanIsSlashFree(tail);
    if ownerId == "." {
      DotOwnerSegment();
      DotStartsNothing(tail);
      TwoJoined(tail);
      NamespaceIs(Join(tail, "/"), ownerId);
    } else {
      SafeSegmentIsNormal(ownerId);
      NormalSlashFree(SafeSegment(ownerId));
      assert ["recordings"] + [SafeSegment(ownerId)] + tail == ["recordings"] + ([SafeSegment(ownerId)] + tail);
      TwoJoined([SafeSegment(ownerId)] + tail);
      var rest := Join([SafeSegment(ownerId)] + tail, "/");
      NamespaceIs(rest, ownerId);
      assert ([SafeSegment(ownerId)] + tail)[1..] == tail;
      assert rest == SafeSegment(ownerId) + ['/'] + Join(tail, "/");
      if OwnerIdSegment(ownerId) + "/" <= rest {
        var r := rest[|OwnerIdSegment(ownerId) + "/"|..];
        assert rest == OwnerIdSegment(ownerId) + ['/'] + r;
        PrefixDetermined(OwnerIdSegment(ownerId), r, SafeSegment(ownerId), Join(tail, "/"), '/');
      }
    }
  }

  lemma TwoJoined(rest: seq<string>)
    requires rest != []
    ensures Join(["recordings"] + rest, "/") == "recordings/" + Join(rest, "/")
    ensures ["recordings"] + [] + rest == ["recordings"] + rest
  {
    assert (["recordings"] + rest)[1..] == rest;
    assert "recordings" + "/" == "recordings/";
  }

  /** The ingest check looks behind "recordings/". */
  lemma NamespaceIs(rest: string, ownerId: string)
    ensures InNamespace("recordings/" + rest, ownerId) <==> OwnerIdSegment(ownerId) + "/" <= rest
  {
    hide OwnerIdSegment;
    var own, key := OwnerIdSegment(ownerId) + "/", "recordings/" + rest;
    assert "recordings/" + OwnerIdSegment(ownerId) + "/" == "recordings/" + own;
    if own <= rest {
      assert key == "recordings/" + own + rest[|own|..];
    }
    if "recordings/" + own <= key {
      var n := |"recordings/"|;
      assert key[n..] == rest && key[..|"recordings/" + own|][n..] == own;
    }
  }

  lemma DotOwnerSegment()
    ensures OwnerIdSegment(".") == "."
  {
    CollapseFixed(".");
  }

  lemma DotStartsNothing(segs: seq<string>)
    requires segs != [] && AllClean(segs)
    ensures !("./" <= Join(segs, "/"))
  {
    hide Normal;
    CleanIsSlashFree(segs);
    var key := Join(segs, "/");
    assert CleanSegment(segs[0]);
    assert "./" <= key ==> key[1] == '/' && '/' in key;
    if "./" <= key && |segs| > 1 {
      var r := key[2..];
      assert key == "." + ['/'] + r;
      PrefixDetermined(".", r, segs[0], Join(segs[1..], "/"), '/');
    }
  }

  /**
   * An issued key passes the owner's ingest check if the owner id is not a single dot and has no two
   * unsafe code units and no two dots in a row; up to 128 code units, only then. Beyond, truncation
   * may hide a run, as `HiddenRunPasses` shows.
   */
  lemma TicketPasses(ownerId: string, recordingId: string, channel: string, sequence: nat)
    requires sequence <= MAX_SEQUENCE
    ensures var t := IssuedKey(ownerId, recordingId, channel, sequence);
      && t.Ok?
      && (NoRuns(Units(ownerId)) && ownerId != "." ==> InNamespace(t.value, ownerId))
      && (|Units(ownerId)| <= 128 ==>
            (InNamespace(t.value, ownerId) <==> NoRuns(Units(ownerId)) && ownerId != "."))
  {
    hide InNamespace, IssuedKey, CollapseDots, CollapseUnsafe, Underscored, NoRuns, Units;
    PassesIfSame(ownerId, recordingId, channel, sequence);
    var u := Units(ownerId);
    SameWithoutRuns(u);
    if |u| <= 128 && !NoRuns(u) {
      NoRunsInOne(u);
    }
  }

  lemma NoRunsInOne(u: seq<CodeUnit>)
    ensures |u| <= 1 ==> NoRuns(u)
  {
  }

  predicate IdChar(c: char) {
    'a' <= c <= 'z' || 'A' <= c <= 'Z' || '0' <= c <= '9' || c == '_' || c == '-'
  }

  /** Ids over letters, digits, '_' and '-', such as UUIDs and cuids. */
  predicate PlainId(s: string) {
    1 <= |s| <= 128 && forall i | 0 <= i < |s| :: IdChar(s[i])
  }

  lemma PlainIsNormal(s: string)
    requires PlainId(s)
    ensures SafeSegment(s) == s && OwnerIdSegment(s) == s && s != "."
  {
    SafeSegmentFixesNormal(s);
    CollapseFixed(s);
  }

  /** For plain ids the issued key is the built one, its own normal form, and passes the ingest check. */
  lemma PlainTicket(ownerId: string, recordingId: string, channel: string, sequence: nat)
    requires PlainId(ownerId) && PlainId(recordingId) && PlainId(channel) && sequence <= MAX_SEQUENCE
    ensures var key := BuildChunkKey(ownerId, recordingId, channel, sequence);
      SanitizeKey(key) == Ok(key) && InNamespace(key, ownerId)
  {
    hide SafeSegment, OwnerIdSegment, BuildChunkKey, InNamespace, SanitizeKey;
    PlainIsNormal(ownerId);
    PlainIsNormal(recordingId);
    PlainIsNormal(channel);
    SanitizeFixesBuilt(ownerId, recordingId, channel, sequence);
    PassesIfSame(ownerId, recordingId, channel, sequence);
  }

  /** Plain ids stand in the key as they are, owner first. */
  lemma PlainKeyIs(ownerId: string, recordingId: string, channel: string, sequence: nat)
    requires PlainId(ownerId) && PlainId(recordingId) && PlainId(channel)
    ensures BuildChunkKey(ownerId, recordingId, channel, sequence) ==
      Join(["recordings", ownerId, recordingId, channel, Pad(Digits(sequence), 6) + ".webm"], "/")
  {
    hide SafeSegment, PlainId, Pad, Digits, Join;
    PlainIsNormal(ownerId);
    PlainIsNormal(recordingId);
    PlainIsNormal(channel);
  }

  lemma ChunkKeyInjective(ownerId: string, r1: string, c1: string, n1: nat, r2: string, c2: string, n2: nat)
    requires PlainId(r1) && PlainId(c1) && PlainId(r2) && PlainId(c2)
    requires n1 <= MAX_SEQUENCE && n2 <= MAX_SEQUENCE
    requires BuildChunkKey(ownerId, r1, c1, n1) == BuildChunkKey(ownerId, r2, c2, n2)
    ensures r1 == r2 && c1 == c2 && n1 == n2
  {
    hide SafeSegment, FileName;
    PlainIsNormal(r1);
    PlainIsNormal(c1);
    PlainIsNormal(r2);
    PlainIsNormal(c2);
    SegmentsSlashFree(ownerId, r1, c1, n1);
    SegmentsSlashFree(ownerId, r2, c2, n2);
    var s1, s2 := ChunkSegments(ownerId, r1, c1, n1), ChunkSegments(ownerId, r2, c2, n2);
    SplitJoin(s1, '/');
    SplitJoin(s2, '/');
    assert s1[2] == s2[2] && s1[3] == s2[3] && s1[4] == s2[4];
    FileNameInjective(n1, n2);
  }

  lemma FileNameInjective(a: nat, b: nat)
    requires FileName(a) == FileName(b)
    ensures a == b
  {
    var pa, pb := Pad(Digits(a), 6), Pad(Digits(b), 6);
    assert FileName(a)[..|pa|] == pa && FileName(b)[..|pb|] == pb;
    ValueOfPadded(a, 6);
    ValueOfPadded(b, 6);
  }

  predicate Dots(s: string) {
    s == "." || s == ".."
  }

  /** Where a key of someone's namespace is stored: below their segment, cleaned. */
  lemma NamespaceSegments(key: string, other: string)
    requires InNamespace(key, other) && !Dots(OwnerIdSegment(other))
    ensures var segs := CleanSegments(Split(key, '/'));
      |segs| >= 2 && segs[1] == SafeSegment(OwnerIdSegment(other))
  {
    hide SafeSegment, OwnerIdSegment, Split;
    var own := OwnerIdSegment(other);
    OwnerSlashFree(other);
    OwnerNotEmpty(other);
    var n := |"recordings/" + own + "/"|;
    var tail := key[n..];
    SegmentsStart(own, tail);
    assert key == "recordings" + ['/'] + (own + ['/'] + tail);
  }

  lemma OwnerNotEmpty(ownerId: string)
    ensures OwnerIdSegment(ownerId) != ""
  {
    hide Underscored;
  }

  lemma SegmentsStart(own: string, tail: string)
    requires Free(own, '/') && own != "" && !Dots(own)
    ensures CleanSegments(Split("recordings" + ['/'] + (own + ['/'] + tail), '/')) ==
      ["recordings", SafeSegment(own)] + CleanSegments(Split(tail, '/'))
  {
    hide SafeSegment, Split;
    RecordingsIsNormal();
    SafeSegmentFixesNormal("recordings");
    NormalSlashFree("recordings");
    SplitPiece("recordings", own + ['/'] + tail, '/');
    SplitPiece(own, tail, '/');
    var segs := Split("recordings" + ['/'] + (own + ['/'] + tail), '/');
    assert segs[1..] == [own] + Split(tail, '/') && segs[1..][1..] == Split(tail, '/');
  }

  lemma PlainNotDots(s: string)
    requires PlainId(s)
    ensures s != "" && !Dots(s) && Free(s, '/')
  {
    assert IdChar(s[0]);
  }

  /**
   * Another user's upload can be stored under the key of one's chunk exactly when the two owner
   * segments come out the same.
   */
  lemma UploadsMeetIfSame(other: string, ownerId: string, recordingId: string, channel: string, sequence: nat)
    requires sequence <= MAX_SEQUENCE && !Dots(OwnerIdSegment(other)) && ownerId != "."
    ensures (exists key ::
      InNamespace(key, other) && SanitizeKey(key) == IssuedKey(ownerId, recordingId, channel, sequence)) <==>
      SafeSegment(OwnerIdSegment(other)) == SafeSegment(ownerId)
  {
    hide InNamespace, SanitizeKey, IssuedKey, SafeSegment, OwnerIdSegment;
    if key :| InNamespace(key, other) && SanitizeKey(key) == IssuedKey(ownerId, recordingId, channel, sequence) {
      UploadsMiss(key, other, ownerId, recordingId, channel, sequence);
    }
    if SafeSegment(OwnerIdSegment(other)) == SafeSegment(ownerId) {
      var key := UploadMeets(other, ownerId, recordingId, channel, sequence);
    }
  }

  lemma UploadsMiss(key: string, other: string, ownerId: string, recordingId: string, channel: string, sequence: nat)
    requires sequence <= MAX_SEQUENCE && !Dots(OwnerIdSegment(other)) && ownerId != "." && InNamespace(key, other)
    requires SanitizeKey(key) == IssuedKey(ownerId, recordingId, channel, sequence)
    ensures SafeSegment(OwnerIdSegment(other)) == SafeSegment(ownerId)
  {
    hide InNamespace, IssuedKey, SafeSegment, OwnerIdSegment, TailSegments, Split, CleanSegment, CleanSegments, Join;
    var segs, tail := CleanSegments(Split(key, '/')), TailSegments(recordingId, channel, sequence);
    NamespaceSegments(key, other);
    IssuedKeyIs(ownerId, recordingId, channel, sequence);
    var own := ["recordings"] + [SafeSegment(ownerId)] + tail;
    OwnIsClean(ownerId, tail);
    CleanSegmentsAreClean(Split(key, '/'));
    CleanIsSlashFree(segs);
    CleanIsSlashFree(own);
    SplitJoin(segs, '/');
    SplitJoin(own, '/');
  }

  lemma OwnIsClean(ownerId: string, tail: seq<string>)
    requires ownerId != "." && AllClean(tail)
    ensures AllClean(["recordings"] + [SafeSegment(ownerId)] + tail)
  {
    hide SafeSegment, Normal;
    RecordingsIsNormal();
    SafeSegmentIsNormal(ownerId);
    DotsOnly(ownerId);
  }

  lemma UploadMeets(other: string, ownerId: string, recordingId: string, channel: string, sequence: nat)
    returns (key: string)
    requires sequence <= MAX_SEQUENCE && !Dots(OwnerIdSegment(other)) && ownerId != "."
    requires SafeSegment(OwnerIdSegment(other)) == SafeSegment(ownerId)
    ensures InNamespace(key, other) && SanitizeKey(key) == IssuedKey(ownerId, recordingId, channel, sequence)
  {
    hide InNamespace, IssuedKey, SafeSegment, OwnerIdSegment, TailSegments, Split, CleanSegment, CleanSegments, Join;
    var own, tail := OwnerIdSegment(other), TailSegments(recordingId, channel, sequence);
    IssuedKeyIs(ownerId, recordingId, channel, sequence);
    OwnerSlashFree(other);
    OwnerNotEmpty(other);
    var rest := Join(tail, "/");
    key := "recordings/" + (own + "/" + rest);
    NamespaceIs(own + "/" + rest, other);
    assert key == "recordings" + ['/'] + (own + ['/'] + rest);
    SegmentsStart(own, rest);
    CleanIsSlashFree(tail);
    SplitJoin(tail, '/');
    CleanSegmentsFixed(tail);
    assert ["recordings", SafeSegment(own)] + tail == ["recordings"] + [SafeSegment(ownerId)] + tail;
    StartsWithRecordings(["recordings"] + [SafeSegment(ownerId)] + tail);
  }

  /** No upload of another user reaches the key of one's chunk, whatever key it asks for. */
  lemma ForeignUploadsMiss(key: string, other: string, ownerId: string, recordingId: string, channel: string,
      sequence: nat)
    requires PlainId(ownerId) && PlainId(recordingId) && PlainId(channel) && sequence <= MAX_SEQUENCE
    requires PlainId(other) && other != ownerId && InNamespace(key, other)
    ensures SanitizeKey(key) != Ok(BuildChunkKey(ownerId, recordingId, channel, sequence))
  {
    hide SafeSegment, OwnerIdSegment, InNamespace, PlainId, SanitizeKey, BuildChunkKey;
    PlainIsNormal(ownerId);
    PlainIsNormal(other);
    PlainNotDots(other);
    PlainTicket(ownerId, recordingId, channel, sequence);
    if SanitizeKey(key) == IssuedKey(ownerId, recordingId, channel, sequence) {
      UploadsMiss(key, other, ownerId, recordingId, channel, sequence);
    }
  }

  /** The owner's own uploads are rejected for two blanks, one character outside the basic plane, or a dot. */
  lemma RunsAreRejected(recordingId: string, channel: string, sequence: nat)
    requires sequence <= MAX_SEQUENCE
    ensures forall ownerId | ownerId in ["a  b", "\U{1F600}", "."] ::
      var t := IssuedKey(ownerId, recordingId, channel, sequence); t.Ok? && !InNamespace(t.value, ownerId)
  {
    hide InNamespace, IssuedKey;
    BlankUnits();
    FaceUnits();
    TicketPasses("a  b", recordingId, channel, sequence);
    TicketPasses("\U{1F600}", recordingId, channel, sequence);
    TicketPasses(".", recordingId, channel, sequence);
  }

  lemma BlankUnits()
    ensures var u := Units("a  b"); |u| == 4 && !NoRuns(u)
  {
    var s := "a  b";
    assert s[1..] == "  b" && s[1..][1..] == " b" && s[1..][1..][1..] == "b";
    assert Units("b") == [98];
    assert Units(" b") == [32, 98];
    assert Units("  b") == [32, 32, 98];
    assert Units(s) == [97, 32, 32, 98];
    assert !SafeUnit(Units(s)[2 - 1]) && !SafeUnit(Units(s)[2]);
  }

  lemma FaceUnits()
    ensures var u := Units("\U{1F600}"); u == [0xD83D, 0xDE00] && !NoRuns(u)
  {
    var u := Units("\U{1F600}");
    assert u == [0xD83D, 0xDE00];
    assert !SafeUnit(u[1 - 1]) && !SafeUnit(u[1]);
  }

  /** A long id whose run does not show in its first 128 characters either way. */
  lemma HiddenRunPasses(tail: string, recordingId: string, channel: string, sequence: nat)
    requires sequence <= MAX_SEQUENCE && |tail| == 127 && forall i | 0 <= i < 127 :: tail[i] == '_'
    ensures var ownerId := "  " + tail;
      var t := IssuedKey(ownerId, recordingId, channel, sequence);
      !NoRuns(Units(ownerId)) && t.Ok? && InNamespace(t.value, ownerId)
  {
    hide InNamespace, IssuedKey, CollapseUnsafe, CollapseDots, Underscored, Units;
    var ownerId := "  " + tail;
    AllUnderscores(tail);
    UnitsAfterBlanks(tail);
    CollapseBlanks(tail);
    DotsFixed("_" + tail);
    assert Units(ownerId)[1 - 1] == 32 && Units(ownerId)[1] == 32;
    assert tail == "_" + tail[..126];
    CutAlike(tail);
    PassesIfSame(ownerId, recordingId, channel, sequence);
  }

  lemma AllUnderscores(tail: string)
    requires tail != [] && forall i | 0 <= i < |tail| :: tail[i] == '_'
    ensures AllSafe(tail) && NoDotPair("_" + tail)
  {
  }

  lemma CutAlike(tail: string)
    requires |tail| == 127 && tail == "_" + tail[..126]
    ensures Truncated("_" + tail) == Truncated("__" + tail) == "_" + tail
  {
    assert ("__" + tail)[..128] == "__" + tail[..126] == "_" + ("_" + tail[..126]);
  }

  lemma UnitsAfterBlanks(tail: string)
    ensures Units("  " + tail) == [32, 32] + Units(tail)
  {
    assert ("  " + tail)[1..] == " " + tail && (" " + tail)[1..] == tail;
  }

  lemma CollapseBlanks(tail: string)
    requires AllSafe(tail) && tail != []
    ensures CollapseUnsafe([32, 32] + Units(tail)) == "_" + tail
    ensures Underscored([32, 32] + Units(tail)) == "__" + tail
  {
    CollapseFixed(tail);
    SafeIsOneUnit(tail[0]);
    var u := Units(tail);
    var v := [32, 32] + u;
    assert v[1..] == [32] + u && v[1..][1..] == u && v[2..] == u;
    assert UnsafeRun(u) == 0;
    assert UnsafeRun([32] + u) == 1;
    assert UnsafeRun(v) == 2;
  }
}
