/**
 Reading an archive back into a staging directory: the validation half of a restore.  It
 accepts or refuses the archive before the workspace is looked at.
 */
module SnapshotExtraction {
  import opened Wrappers
  import opened FileTree
  import opened MemberPaths
  import opened ByteCounts
  import opened CheckpointSnapshot
  import opened Staging

  const MAX_ARCHIVE_MEMBERS: nat := 20_000 * 4 + 1024

  const PERMISSION_BITS: nat := 0x200

  datatype RestoreError =
    | WorkspaceMismatch
    | IntegrityFailure
    | TooManyMembers
    | BadMemberName(why: NameError)
    | DuplicateMember
    | UnsupportedMember
    | MemberTooLarge
    | TooManyMemberFiles
    | TooManyMemberBytes
    | FileCountMismatch
    | TotalSizeMismatch
    | StagingConflict
    | TooManyEntries
    | UnsupportedEntry
    | WouldDestroyExcludedState
    | DirectoryNotEmpty

  /** What the workspace must contain: directories, and files with mode and content. */
  datatype Desired = Desired(dirs: set<Path>, modes: map<Path, nat>, contents: map<Path, Bytes>)

  function PositiveBounded(value: int, default: int, hardMax: int): int {
    var v := if value <= 0 then default else value;
    if v <= hardMax then v else hardMax
  }

  function RestoreLimits(limits: Limits): Limits {
    Limits(
      PositiveBounded(limits.maxFiles, DEFAULT_MAX_FILES, DEFAULT_MAX_FILES),
      PositiveBounded(limits.maxTotalBytes, DEFAULT_MAX_TOTAL_BYTES, DEFAULT_MAX_TOTAL_BYTES),
      PositiveBounded(limits.maxFileBytes, DEFAULT_MAX_FILE_BYTES, DEFAULT_MAX_FILE_BYTES))
  }

  function PathOf(m: Member): Path {
    match ValidatedMemberPath(m.name)
    case Success(p) => p
    case Failure(_) => []
  }

  ghost function PathsOf(ms: seq<Member>): set<Path> {
    set i | 0 <= i < |ms| :: PathOf(ms[i])
  }

  ghost function DesiredOf(ms: seq<Member>): Desired {
    if ms == [] then Desired({}, map[], map[])
    else WithMember(DesiredOf(ms[..|ms| - 1]), ms[|ms| - 1])
  }

  function WithMember(d: Desired, m: Member): Desired {
    var p := PathOf(m);
    if m.kind == DirectoryMember then d.(dirs := d.dirs + {p})
    else
      Desired(d.dirs + Ancestors(p), d.modes[p := m.mode % PERMISSION_BITS], d.contents[p := m.content])
  }

  predicate AcceptableMember(m: Member, limits: Limits) {
    && ValidatedMemberPath(m.name).Success?
    && (m.kind == DirectoryMember || (m.kind == FileMember && |m.content| <= limits.maxFileBytes))
  }

  ghost predicate WithinCaps(contents: map<Path, Bytes>, limits: Limits) {
    contents != map[] ==> |contents| <= limits.maxFiles && TotalSize(contents) <= limits.maxTotalBytes
  }

  ghost predicate AcceptableMembers(ms: seq<Member>, limits: Limits) {
    && |ms| <= MAX_ARCHIVE_MEMBERS
    && (forall i :: 0 <= i < |ms| ==> AcceptableMember(ms[i], limits))
    && (forall i, j :: 0 <= i < j < |ms| ==> PathOf(ms[i]) != PathOf(ms[j]))
    && WithinCaps(DesiredOf(ms).contents, limits)
  }

  function EntriesOf(ms: seq<Member>): seq<Entry> {
    seq(|ms|, i requires 0 <= i < |ms| => Entry(PathOf(ms[i]), ms[i].kind == FileMember))
  }

  ghost predicate Extractable(s: Snapshot) {
    && AcceptableMembers(s.digest, RestoreLimits(s.limits))
    && s.fileCount == |DesiredOf(s.digest).contents|
    && s.totalBytes == TotalSize(DesiredOf(s.digest).contents)
    && Stageable(EntriesOf(s.digest))
  }

  // ---- what the metadata of a snapshot cannot change ----

  predicate IsLimit(limit: int, asked: int, most: int) {
    limit == if 0 < asked <= most then asked else most
  }

  /** A restore goes by the limits of the snapshot where these are stricter than its own, and by its own otherwise. */
  lemma RestoreLimitsAre(limits: Limits)
    ensures IsLimit(RestoreLimits(limits).maxFiles, limits.maxFiles, 20_000)
    ensures IsLimit(RestoreLimits(limits).maxTotalBytes, limits.maxTotalBytes, 536_870_912)
    ensures IsLimit(RestoreLimits(limits).maxFileBytes, limits.maxFileBytes, 134_217_728)
  {
  }

  /** So whatever its metadata says, an archive that is extracted is of bounded size. */
  lemma ExtractionIsBounded(s: Snapshot)
    requires Extractable(s)
    ensures |s.digest| <= 81_024
    ensures |DesiredOf(s.digest).contents| <= 20_000 && TotalSize(DesiredOf(s.digest).contents) <= 536_870_912
    ensures forall i :: 0 <= i < |s.digest| && s.digest[i].kind != DirectoryMember ==> |s.digest[i].content| <= 134_217_728
  {
    RestoreLimitsAre(s.limits);
    hide RestoreLimits, DesiredOf;
    var contents := DesiredOf(s.digest).contents;
    if contents == map[] { assert |contents| == 0 && TotalSize(contents) == 0; }
    forall i | 0 <= i < |s.digest| && s.digest[i].kind != DirectoryMember ensures |s.digest[i].content| <= 134_217_728 {
      assert AcceptableMember(s.digest[i], RestoreLimits(s.limits));
    }
  }

  // ---- facts about the desired state ----

  lemma {:induction false} DesiredKeys(ms: seq<Member>)
    ensures var d := DesiredOf(ms);
            && d.modes.Keys == d.contents.Keys
            && d.contents.Keys <= PathsOf(ms)
            && (forall p :: p in d.contents ==>
                  exists i :: 0 <= i < |ms| && ms[i].kind != DirectoryMember && PathOf(ms[i]) == p)
            && (forall p :: p in d.dirs ==>
                  exists i :: 0 <= i < |ms| && DirectoryFor(ms[i], p))
  {
    if ms != [] {
      var init := ms[..|ms| - 1];
      DesiredKeys(init);
      var d, d' := DesiredOf(init), DesiredOf(ms);
      assert PathOf(ms[|ms| - 1]) in PathsOf(ms);
      forall p | p in d'.contents
        ensures exists i :: 0 <= i < |ms| && ms[i].kind != DirectoryMember && PathOf(ms[i]) == p
      {
        if p in d.contents {
          var i :| 0 <= i < |init| && init[i].kind != DirectoryMember && PathOf(init[i]) == p;
          assert ms[i] == init[i];
        } else {
          assert PathOf(ms[|ms| - 1]) == p;
        }
      }
      forall p | p in d'.dirs
        ensures exists i :: 0 <= i < |ms| && DirectoryFor(ms[i], p)
      {
        if p in d.dirs {
          var i :| 0 <= i < |init| && DirectoryFor(init[i], p);
          assert ms[i] == init[i];
        } else {
          assert DirectoryFor(ms[|ms| - 1], p);
        }
      }
    }
  }

  /** Member m makes p a desired directory: as itself, or as a parent of its file. */
  predicate DirectoryFor(m: Member, p: Path) {
    if m.kind == DirectoryMember then PathOf(m) == p else p in Ancestors(PathOf(m))
  }

  lemma {:induction false} DesiredHas(ms: seq<Member>, i: nat)
    requires i < |ms|
    ensures ms[i].kind != DirectoryMember ==> PathOf(ms[i]) in DesiredOf(ms).contents
    ensures forall p :: DirectoryFor(ms[i], p) ==> p in DesiredOf(ms).dirs
  {
    if i < |ms| - 1 {
      DesiredHas(ms[..|ms| - 1], i);
    }
  }

  lemma {:induction false} ContentsGrow(ms: seq<Member>, n: nat, limits: Limits)
    requires n <= |ms|
    requires forall i, j :: 0 <= i < j < |ms| ==> PathOf(ms[i]) != PathOf(ms[j])
    ensures forall p :: p in DesiredOf(ms[..n]).contents ==>
              p in DesiredOf(ms).contents && DesiredOf(ms).contents[p] == DesiredOf(ms[..n]).contents[p]
    decreases |ms| - n
  {
    if n == |ms| {
      assert ms[..n] == ms;
    } else {
      var init := ms[..|ms| - 1];
      ContentsGrow(init, n, limits);
      assert init[..n] == ms[..n];
      DesiredKeys(init);
      assert PathOf(ms[|ms| - 1]) !in PathsOf(init);
    }
  }

  /** Every prefix of an acceptable archive is acceptable, so an early refusal is final. */
  lemma AcceptablePrefix(ms: seq<Member>, n: nat, limits: Limits)
    requires n <= |ms| && AcceptableMembers(ms, limits)
    ensures AcceptableMembers(ms[..n], limits)
  {
    ContentsGrow(ms, n, limits);
    TotalSizeMonotone(DesiredOf(ms[..n]).contents, DesiredOf(ms).contents);
  }

  lemma MembersAreInScope(ms: seq<Member>, limits: Limits)
    requires forall i :: 0 <= i < |ms| ==> AcceptableMember(ms[i], limits)
    ensures forall i :: 0 <= i < |ms| ==> InScope(PathOf(ms[i]))
  {
    forall i | 0 <= i < |ms| ensures InScope(PathOf(ms[i])) {
      AcceptedNameIsContained(ms[i].name);
    }
  }

  lemma DirectoryForInScope(m: Member, p: Path)
    requires InScope(PathOf(m)) && DirectoryFor(m, p)
    ensures InScope(p)
    ensures m.kind != DirectoryMember ==> Below(p, PathOf(m))
  {
    var q := PathOf(m);
    if m.kind != DirectoryMember {
      AncestorsAreBelow(q, p);
      VisiblePrefix(p, q);
      forall k | 0 <= k < |p| ensures ValidName(p[k]) { assert p[k] == q[k]; }
    }
  }

  lemma FileStandsApart(ms: seq<Member>, limits: Limits, i: nat, a: Path, j: nat)
    requires AcceptableMembers(ms, limits) && Stageable(EntriesOf(ms)) && i < |ms| && j < |ms|
    requires Below(a, PathOf(ms[i])) || (a == PathOf(ms[i]) && ms[i].kind == DirectoryMember)
    requires ms[j].kind != DirectoryMember
    ensures PathOf(ms[j]) != a
  {
    hide IsExcludedName, ValidatedMemberPath, WithinCaps, DesiredOf, PathOf;
    var es := EntriesOf(ms);
    assert AcceptableMember(ms[j], limits);
    if i < j { assert !Clash(es[i], es[j]); }
    if j < i { assert !Clash(es[j], es[i]); }
  }

  /** A member's path, and everything above it, is free of other members' files. */
  lemma FilesStandApart(ms: seq<Member>, limits: Limits, i: nat, a: Path)
    requires AcceptableMembers(ms, limits) && Stageable(EntriesOf(ms)) && i < |ms|
    requires Below(a, PathOf(ms[i])) || (a == PathOf(ms[i]) && ms[i].kind == DirectoryMember)
    ensures a !in DesiredOf(ms).contents
  {
    hide DesiredOf, Stageable, AcceptableMembers, PathOf, Below;
    DesiredKeys(ms);
    forall j | 0 <= j < |ms| && ms[j].kind != DirectoryMember ensures PathOf(ms[j]) != a {
      FileStandsApart(ms, limits, i, a, j);
    }
  }

  lemma BelowIsTransitive(a: Path, b: Path, c: Path)
    requires Below(a, b) && (b == c || Below(b, c))
    ensures Below(a, c)
  {
    assert c[..|a|] == c[..|b|][..|a|];
  }

  lemma DirectoriesAvoidFiles(ms: seq<Member>, limits: Limits, p: Path)
    requires AcceptableMembers(ms, limits) && Stageable(EntriesOf(ms))
    requires p in DesiredOf(ms).dirs
    ensures InScope(p) && p !in DesiredOf(ms).contents
    ensures forall a :: Below(a, p) ==> a !in DesiredOf(ms).contents
  {
    hide IsExcludedName, ValidatedMemberPath;
    DesiredKeys(ms);
    MembersAreInScope(ms, limits);
    var i :| 0 <= i < |ms| && DirectoryFor(ms[i], p);
    DirectoryForInScope(ms[i], p);
    FilesStandApart(ms, limits, i, p);
    forall a | Below(a, p) ensures a !in DesiredOf(ms).contents {
      BelowIsTransitive(a, p, PathOf(ms[i]));
      FilesStandApart(ms, limits, i, a);
    }
  }

  /** The desired directories and files never meet, and all of them are in scope. */
  lemma DesiredIsConsistent(ms: seq<Member>, limits: Limits)
    requires AcceptableMembers(ms, limits) && Stageable(EntriesOf(ms))
    ensures Consistent(DesiredOf(ms))
  {
    hide IsExcludedName, ValidatedMemberPath, InScope, WithinCaps, DesiredOf, Stageable;
    var d := DesiredOf(ms);
    DesiredKeys(ms);
    MembersAreInScope(ms, limits);
    forall p | p in d.dirs
      ensures InScope(p) && p !in d.contents && forall a :: Below(a, p) ==> a !in d.contents
    {
      DirectoriesAvoidFiles(ms, limits, p);
    }
    forall p | p in d.contents
      ensures |p| > 1 ==> Parent(p) in d.dirs
      ensures forall a :: Below(a, p) ==> a !in d.contents
    {
      var i :| 0 <= i < |ms| && ms[i].kind != DirectoryMember && PathOf(ms[i]) == p;
      if |p| > 1 {
        AncestorsAreBelow(p, Parent(p));
        DesiredHas(ms, i);
      }
      forall a | Below(a, p) ensures a !in d.contents {
        FilesStandApart(ms, limits, i, a);
      }
    }
  }

  ghost predicate Consistent(d: Desired) {
    && d.dirs !! d.contents.Keys
    && d.modes.Keys == d.contents.Keys
    && (forall p :: p in d.dirs || p in d.contents ==> InScope(p))
    && (forall p :: p in d.contents && |p| > 1 ==> Parent(p) in d.dirs)
    && (forall p, a :: (p in d.dirs || p in d.contents) && Below(a, p) ==> a !in d.contents)
  }

  predicate InScope(p: Path) {
    p != [] && Visible(p) && forall k :: 0 <= k < |p| ==> ValidName(p[k])
  }

  // ---- the extraction ----

  lemma DesiredOneMore(init: seq<Member>, m: Member)
    ensures DesiredOf(init + [m]) == WithMember(DesiredOf(init), m)
    ensures var d := DesiredOf(init);
            m.kind != DirectoryMember && PathOf(m) !in PathsOf(init) ==>
              && |DesiredOf(init + [m]).contents| == |d.contents| + 1
              && TotalSize(DesiredOf(init + [m]).contents) == TotalSize(d.contents) + |m.content|
  {
    assert (init + [m])[..|init|] == init;
    var d := DesiredOf(init);
    if PathOf(m) !in PathsOf(init) {
      DesiredKeys(init);
      TotalSizeWith(d.contents, PathOf(m), m.content);
      assert d.contents[PathOf(m) := m.content].Keys == d.contents.Keys + {PathOf(m)};
      assert |d.contents[PathOf(m) := m.content].Keys| == |d.contents.Keys| + 1;
    }
  }

  lemma OneMemberMoreChecks(init: seq<Member>, m: Member, limits: Limits)
    requires AcceptableMembers(init, limits)
    ensures AcceptableMembers(init + [m], limits) <==>
              && |init| + 1 <= MAX_ARCHIVE_MEMBERS
              && AcceptableMember(m, limits)
              && PathOf(m) !in PathsOf(init)
              && WithinCaps(DesiredOf(init + [m]).contents, limits)
  {
    hide IsExcludedName, PathOf, AcceptableMember, WithinCaps, DesiredOf;
    var ms := init + [m];
    assert forall i :: 0 <= i < |init| ==> ms[i] == init[i];
    assert ms[|init|] == m;
    assert PathOf(m) in PathsOf(init) <==> exists i :: 0 <= i < |init| && PathOf(init[i]) == PathOf(m);
  }

  /** What the checks on one member decide, given that all before it passed. */
  lemma OneMemberMore(init: seq<Member>, m: Member, limits: Limits)
    requires AcceptableMembers(init, limits)
    ensures var d := DesiredOf(init);
            AcceptableMembers(init + [m], limits) <==>
              && |init| + 1 <= MAX_ARCHIVE_MEMBERS
              && AcceptableMember(m, limits)
              && PathOf(m) !in PathsOf(init)
              && (m.kind == FileMember ==>
                    && |d.contents| + 1 <= limits.maxFiles
                    && TotalSize(d.contents) + |m.content| <= limits.maxTotalBytes)
  {
    DesiredOneMore(init, m);
    OneMemberMoreChecks(init, m, limits);
  }

  lemma PathsOfOneMore(init: seq<Member>, m: Member)
    ensures PathsOf(init + [m]) == PathsOf(init) + {PathOf(m)}
  {
    var ms := init + [m];
    assert ms[|init|] == m;
    forall i | 0 <= i < |init| ensures ms[i] == init[i] { }
    forall p ensures p in PathsOf(ms) <==> p in PathsOf(init) || p == PathOf(m) {
      if p in PathsOf(ms) {
        var i :| 0 <= i < |ms| && PathOf(ms[i]) == p;
        assert i == |init| || PathOf(init[i]) == p;
      }
      if p in PathsOf(init) {
        var i :| 0 <= i < |init| && PathOf(init[i]) == p;
        assert PathOf(ms[i]) == p;
      }
    }
  }

  lemma RefusedEarly(ms: seq<Member>, n: nat, limits: Limits)
    requires n <= |ms| && !AcceptableMembers(ms[..n], limits)
    ensures !AcceptableMembers(ms, limits)
  {
    if AcceptableMembers(ms, limits) {
      AcceptablePrefix(ms, n, limits);
      assert false;
    }
  }

  /** The check of one member: None exactly if the archive up to it is still acceptable. */
  method CheckMember(
    m: Member, seen: set<Path>, memberCount: nat, fileCount: nat, totalBytes: nat, limits: Limits,
    ghost init: seq<Member>)
    returns (failed: Option<RestoreError>)
    requires AcceptableMembers(init, limits) && memberCount == |init| + 1 && seen == PathsOf(init)
    requires fileCount == |DesiredOf(init).contents| && totalBytes == TotalSize(DesiredOf(init).contents)
    ensures failed.None? <==> AcceptableMembers(init + [m], limits)
  {
    OneMemberMore(init, m, limits);
    if memberCount > MAX_ARCHIVE_MEMBERS { return Some(TooManyMembers); }
    var name := ValidatedMemberPath(m.name);
    if name.Failure? { return Some(BadMemberName(name.error)); }
    if name.value in seen { return Some(DuplicateMember); }
    if m.kind == DirectoryMember { return None; }
    if m.kind != FileMember { return Some(UnsupportedMember); }
    if |m.content| > limits.maxFileBytes { return Some(MemberTooLarge); }
    if fileCount + 1 > limits.maxFiles { return Some(TooManyMemberFiles); }
    if totalBytes + |m.content| > limits.maxTotalBytes { return Some(TooManyMemberBytes); }
    return None;
  }

  method ValidateMembers(ms: seq<Member>, limits: Limits)
    returns (r: Result<(Desired, nat, nat), RestoreError>)
    ensures r.Success? <==> AcceptableMembers(ms, limits)
    ensures r.Success? ==>
              && r.value.0 == DesiredOf(ms)
              && r.value.1 == |DesiredOf(ms).contents|
              && r.value.2 == TotalSize(DesiredOf(ms).contents)
  {
    var desired := Desired({}, map[], map[]);
    var seen: set<Path> := {};
    var fileCount, totalBytes: nat := 0, 0;
    var memberCount := 0;
    assert ms[..0] == [];
    while memberCount < |ms|
      invariant memberCount <= |ms|
      invariant desired == DesiredOf(ms[..memberCount])
      invariant seen == PathsOf(ms[..memberCount])
      invariant fileCount == |desired.contents| && totalBytes == TotalSize(desired.contents)
      invariant AcceptableMembers(ms[..memberCount], limits)
    {
      ghost var init := ms[..memberCount];
      var m := ms[memberCount];
      assert ms[..memberCount + 1] == init + [m];
      memberCount := memberCount + 1;
      var failed := CheckMember(m, seen, memberCount, fileCount, totalBytes, limits, init);
      if failed.Some? {
        RefusedEarly(ms, memberCount, limits);
        return Failure(failed.value);
      }
      OneMemberMore(init, m, limits);
      DesiredOneMore(init, m);
      PathsOfOneMore(init, m);
      seen := seen + {PathOf(m)};
      if m.kind == FileMember {
        fileCount, totalBytes := fileCount + 1, totalBytes + |m.content|;
      }
      desired := WithMember(desired, m);
    }
    assert ms[..memberCount] == ms;
    r := Success((desired, fileCount, totalBytes));
  }

  /** The whole extraction: it succeeds exactly on the extractable snapshots. */
  method ExtractValidatedSnapshot(s: Snapshot) returns (r: Result<Desired, RestoreError>)
    ensures r.Success? <==> Extractable(s)
    ensures r.Success? ==> r.value == DesiredOf(s.digest)
  {
    var limits := RestoreLimits(s.limits);
    var validated := ValidateMembers(s.digest, limits);
    if validated.Failure? { return Failure(validated.error); }
    var (desired, fileCount, totalBytes) := validated.value;
    if s.fileCount != fileCount { return Failure(FileCountMismatch); }
    if s.totalBytes != totalBytes { return Failure(TotalSizeMismatch); }
    MembersAreInScope(s.digest, limits);
    var staged := StageMembers(EntriesOf(s.digest));
    if !staged { return Failure(StagingConflict); }
    r := Success(desired);
  }
}
