/**
 Capture and restore together: which captures can be restored, that a restore undoes
 whatever happened in between, and that an interrupted restore can be finished.
 */
module SnapshotRestoreTheorems {
  import opened Wrappers
  import opened FileTree
  import opened MemberPaths
  import opened ByteCounts
  import opened Staging
  import opened CheckpointSnapshot
  import opened SnapshotExtraction
  import opened WorkspaceScan
  import opened RestorePlan
  import opened CheckpointRestore

  lemma {:induction false} NamesAreValid(t: Tree, p: Path)
    requires WellFormed(t) && p in t
    ensures forall k :: 0 <= k < |p| ==> ValidName(p[k])
    decreases |p|
  {
    hide IsExcludedName, ValidName;
    if p != [] {
      NamesAreValid(t, Parent(p));
      forall k | 0 <= k < |p| ensures ValidName(p[k]) {
        if k < |p| - 1 { assert p[k] == Parent(p)[k]; } else { assert p[k] == Name(p); }
      }
    }
  }

  /** The name of a captured entry survives the archive. */
  ghost predicate NameSurvives(p: Path) {
    Visible(p) && !HasBackslash(p)
  }

  lemma CapturedNames(t: Tree, links: set<Path>, p: Path)
    requires WellFormed(t) && p in t && p != []
    ensures NameSurvives(p) <==> ValidatedMemberPath(MemberOf(t, links, p).name).Success?
    ensures NameSurvives(p) ==> PathOf(MemberOf(t, links, p)) == p
  {
    hide IsExcludedName, ValidName, WellFormed, ValidatedMemberPath, Join;
    NamesAreValid(t, p);
    MemberNameRoundTrip(p);
    assert MemberOf(t, links, p).name == Join(p);
  }

  lemma {:induction false} DistinctHasCardinality(entries: seq<Path>)
    requires Distinct(entries)
    ensures |SetOf(entries)| == |entries|
  {
    if entries != [] {
      var init, last := entries[..|entries| - 1], entries[|entries| - 1];
      DistinctHasCardinality(init);
      forall p ensures p in SetOf(entries) <==> p in SetOf(init) || p == last {
        assert entries == init + [last];
      }
      assert SetOf(entries) == SetOf(init) + {last};
      assert last !in SetOf(init);
    }
  }

  /** What one member contributes is what the whole archive asks for. */
  lemma {:induction false} DesiredValue(ms: seq<Member>, i: nat)
    requires i < |ms| && ms[i].kind != DirectoryMember
    requires forall j, k :: 0 <= j < k < |ms| ==> PathOf(ms[j]) != PathOf(ms[k])
    ensures PathOf(ms[i]) in DesiredOf(ms).contents && PathOf(ms[i]) in DesiredOf(ms).modes
    ensures DesiredOf(ms).contents[PathOf(ms[i])] == ms[i].content
    ensures DesiredOf(ms).modes[PathOf(ms[i])] == ms[i].mode % PERMISSION_BITS
  {
    hide PathOf;
    if i < |ms| - 1 {
      DesiredValue(ms[..|ms| - 1], i);
    }
  }

  /** A listing whose every entry can be archived faithfully. */
  ghost predicate Faithful(t: Tree, links: set<Path>) {
    && (forall p :: p in CapturedPaths(t) ==> NameSurvives(p))
    && links !! CapturedFiles(t).Keys
    && (forall p :: p in CapturedPaths(t) ==> t[p].Dir? || t[p].File?)
  }

  /** The members of a faithful archive, one by one. */
  lemma FaithfulMembers(t: Tree, links: set<Path>, entries: seq<Path>)
    requires WellFormed(t) && Faithful(t, links) && Listing(t, entries)
    ensures forall p :: p in entries ==> p in t
    ensures var ms := ArchiveOf(t, links, entries);
            && |ms| == |entries|
            && forall i :: 0 <= i < |ms| ==>
                 && PathOf(ms[i]) == entries[i]
                 && ValidatedMemberPath(ms[i].name).Success?
                 && (if t[entries[i]].Dir? then ms[i].kind == DirectoryMember
                     else t[entries[i]].File? && ms[i].kind == FileMember && ms[i].content == t[entries[i]].content
                          && ms[i].mode == t[entries[i]].mode)
  {
    hide IsExcludedName, WellFormed, ValidatedMemberPath, PathOf, NameSurvives, ParentsFirst, Distinct, Skipped;
    assert forall p :: p in entries ==> p in SetOf(entries);
    var ms := ArchiveOf(t, links, entries);
    forall i | 0 <= i < |ms|
      ensures PathOf(ms[i]) == entries[i] && ValidatedMemberPath(ms[i].name).Success?
      ensures if t[entries[i]].Dir? then ms[i].kind == DirectoryMember
              else t[entries[i]].File? && ms[i].kind == FileMember && ms[i].content == t[entries[i]].content
                   && ms[i].mode == t[entries[i]].mode
    {
      assert entries[i] in SetOf(entries);
      CapturedNames(t, links, entries[i]);
      if t[entries[i]].File? { assert entries[i] in CapturedFiles(t); }
    }
  }

  lemma CapturedParent(t: Tree, p: Path)
    requires WellFormed(t) && p in CapturedPaths(t) && |p| > 1
    ensures Parent(p) in CapturedPaths(t) && t[Parent(p)].Dir?
  {
    hide SkippedEntry;
    SkippedStepwise(t, p);
  }

  lemma {:induction false} CapturedAncestor(t: Tree, a: Path, p: Path)
    requires WellFormed(t) && p in CapturedPaths(t) && a != [] && Below(a, p)
    ensures a in CapturedPaths(t) && t[a].Dir?
    decreases |p|
  {
    hide Skipped;
    CapturedParent(t, p);
    if Parent(p) != a {
      assert Parent(p)[..|a|] == a;
      CapturedAncestor(t, a, Parent(p));
    }
  }

  /** The state a capture asks for: the captured directories, and the captured files. */
  ghost function CapturedState(t: Tree): Desired {
    Desired(
      set p | p in CapturedPaths(t) && t[p].Dir?,
      map p | p in CapturedFiles(t) && t[p].File? :: t[p].mode % PERMISSION_BITS,
      CapturedFiles(t))
  }

  lemma FaithfulDirs(t: Tree, links: set<Path>, entries: seq<Path>)
    requires WellFormed(t) && Faithful(t, links) && Listing(t, entries)
    requires forall p :: p in entries ==> p in t
    ensures DesiredOf(ArchiveOf(t, links, entries)).dirs == CapturedState(t).dirs
  {
    hide IsExcludedName, WellFormed, ValidatedMemberPath, PathOf, NameSurvives, ParentsFirst, Skipped, ArchiveOf,
      DesiredOf, Faithful;
    FaithfulMembers(t, links, entries);
    var ms := ArchiveOf(t, links, entries);
    var d := DesiredOf(ms);
    DesiredKeys(ms);
    forall p | p in d.dirs ensures p in CapturedState(t).dirs {
      var i :| 0 <= i < |ms| && DirectoryFor(ms[i], p);
      assert entries[i] in SetOf(entries);
      AncestorsAreBelow(entries[i], p);
      if ms[i].kind != DirectoryMember {
        CapturedAncestor(t, p, entries[i]);
      }
    }
    forall p | p in CapturedState(t).dirs ensures p in d.dirs {
      assert p in SetOf(entries);
      var i :| 0 <= i < |entries| && entries[i] == p;
      DesiredHas(ms, i);
      assert DirectoryFor(ms[i], p);
    }
  }

  /** Where a captured file ends up among the members of a faithful archive. */
  lemma FaithfulFile(t: Tree, links: set<Path>, entries: seq<Path>, p: Path)
    requires WellFormed(t) && Faithful(t, links) && Listing(t, entries)
    requires forall q :: q in entries ==> q in t
    ensures var d := DesiredOf(ArchiveOf(t, links, entries));
            p in CapturedFiles(t) <==> p in d.contents
    ensures var d := DesiredOf(ArchiveOf(t, links, entries));
            p in CapturedFiles(t) ==>
              && d.contents[p] == CapturedFiles(t)[p]
              && p in d.modes && p in t && t[p].File? && d.modes[p] == t[p].mode % PERMISSION_BITS
  {
    hide IsExcludedName, WellFormed, ValidatedMemberPath, PathOf, NameSurvives, ParentsFirst, Skipped, ArchiveOf,
      DesiredOf, Faithful;
    FaithfulMembers(t, links, entries);
    var ms := ArchiveOf(t, links, entries);
    var d := DesiredOf(ms);
    DesiredKeys(ms);
    if p in d.contents {
      var i :| 0 <= i < |ms| && ms[i].kind != DirectoryMember && PathOf(ms[i]) == p;
      assert entries[i] in SetOf(entries);
    }
    if p in CapturedFiles(t) {
      assert p in SetOf(entries);
      var i :| 0 <= i < |entries| && entries[i] == p;
      DesiredValue(ms, i);
    }
  }

  lemma FaithfulFiles(t: Tree, links: set<Path>, entries: seq<Path>)
    requires WellFormed(t) && Faithful(t, links) && Listing(t, entries)
    requires forall p :: p in entries ==> p in t
    ensures DesiredOf(ArchiveOf(t, links, entries)).contents == CapturedState(t).contents
    ensures DesiredOf(ArchiveOf(t, links, entries)).modes == CapturedState(t).modes
  {
    hide IsExcludedName, WellFormed, Faithful, Listing, ArchiveOf, DesiredOf, CapturedFiles, CapturedPaths,
      CapturedState;
    var d := DesiredOf(ArchiveOf(t, links, entries));
    DesiredKeys(ArchiveOf(t, links, entries));
    forall p
      ensures p in CapturedFiles(t) <==> p in d.contents
      ensures p in CapturedFiles(t) ==>
                && d.contents[p] == CapturedFiles(t)[p]
                && p in d.modes && p in t && t[p].File? && d.modes[p] == t[p].mode % PERMISSION_BITS
    {
      FaithfulFile(t, links, entries, p);
    }
    StateIs(t, d);
  }

  /** The captured state is the one with these files and modes. */
  lemma StateIs(t: Tree, d: Desired)
    requires d.modes.Keys == d.contents.Keys == CapturedFiles(t).Keys
    requires forall p :: p in CapturedFiles(t) ==>
               d.contents[p] == CapturedFiles(t)[p] && t[p].File? && d.modes[p] == t[p].mode % PERMISSION_BITS
    ensures d.contents == CapturedState(t).contents && d.modes == CapturedState(t).modes
  {
    hide IsExcludedName, Skipped;
  }

  lemma CapturedFilesAre(t: Tree, p: Path)
    ensures p in CapturedFiles(t) <==> p in CapturedPaths(t) && t[p].File?
    ensures p in CapturedPaths(t) ==> p in t && p != []
    ensures p in CapturedFiles(t) ==> CapturedFiles(t)[p] == t[p].content
  {
  }

  /** A restore asks for exactly the captured state. */
  lemma DesiredOfCapture(t: Tree, links: set<Path>, entries: seq<Path>)
    requires WellFormed(t) && Faithful(t, links) && Listing(t, entries)
    requires forall p :: p in entries ==> p in t
    ensures DesiredOf(ArchiveOf(t, links, entries)) == CapturedState(t)
  {
    hide *;
    FaithfulDirs(t, links, entries);
    FaithfulFiles(t, links, entries);
  }

  /** The limits a restore applies, read off the tree that was captured. */
  ghost predicate WithinRestoreLimits(t: Tree, limits: Limits) {
    && |CapturedPaths(t)| <= MAX_ARCHIVE_MEMBERS
    && (forall p :: p in CapturedFiles(t) ==> |CapturedFiles(t)[p]| <= RestoreLimits(limits).maxFileBytes)
    && WithinCaps(CapturedFiles(t), RestoreLimits(limits))
  }

  lemma ExtractableImpliesFaithful(s: Snapshot, root: string, t: Tree, links: set<Path>, limits: Limits, entries: seq<Path>)
    requires WellFormed(t) && Listing(t, entries) && ListedArchive(s.digest, t, links, entries)
    requires Extractable(s)
    ensures Faithful(t, links)
  {
    hide IsExcludedName, WellFormed, ValidatedMemberPath, PathOf, NameSurvives, ParentsFirst, Distinct, Skipped,
      DesiredOf, WithinCaps;
    forall p | p in CapturedPaths(t)
      ensures NameSurvives(p) && p !in links * CapturedFiles(t).Keys && (t[p].Dir? || t[p].File?)
    {
      assert p in SetOf(entries);
      var i :| 0 <= i < |entries| && entries[i] == p;
      assert AcceptableMember(s.digest[i], RestoreLimits(s.limits));
      assert s.digest[i] == MemberOf(t, links, p);
      CapturedNames(t, links, p);
    }
  }

  lemma FaithfulIsStageable(t: Tree, links: set<Path>, entries: seq<Path>)
    requires WellFormed(t) && Faithful(t, links) && Listing(t, entries)
    requires forall p :: p in entries ==> p in t
    ensures Stageable(EntriesOf(ArchiveOf(t, links, entries)))
  {
    hide IsExcludedName, WellFormed, ValidatedMemberPath, PathOf, NameSurvives, ParentsFirst, Distinct, Skipped,
      Faithful, ArchiveOf;
    FaithfulMembers(t, links, entries);
    var ms := ArchiveOf(t, links, entries);
    var es := EntriesOf(ms);
    forall i, j | 0 <= i < |es| && 0 <= j < |es| && es[i].isFile ensures !Below(es[i].path, es[j].path) {
      assert entries[i] in SetOf(entries) && entries[j] in SetOf(entries);
      if Below(entries[i], entries[j]) {
        AncestorIsDirectory(t, entries[i], entries[j]);
      }
    }
  }

  /**
   Which captures can be extracted: exactly those where every captured name survives, no
   captured file is a second link to an inode, and the entry and size caps hold.  A regular
   file called "build" or a backslash in a name is enough to make a checkpoint useless.
   */
  lemma WhichCapturesAreExtractable(s: Snapshot, root: string, t: Tree, links: set<Path>, limits: Limits)
    requires WellFormed(t) && Capturable(t, limits) && IsSnapshotOf(s, root, t, links, limits)
    ensures Extractable(s) <==>
              && (forall p :: p in CapturedPaths(t) ==> NameSurvives(p))
              && links !! CapturedFiles(t).Keys
              && WithinRestoreLimits(t, limits)
    ensures Extractable(s) ==> DesiredOf(s.digest) == CapturedState(t)
  {
    hide IsExcludedName, WellFormed, ValidatedMemberPath, PathOf, NameSurvives, ParentsFirst, Skipped,
      DesiredOf, WithinCaps, CapturedState, Stageable, EntriesOf, ArchiveOf;
    var entries :| Listing(t, entries) && ListedArchive(s.digest, t, links, entries);
    DistinctHasCardinality(entries);
    assert |s.digest| == |CapturedPaths(t)| by { ArchiveLength(t, links, entries); }
    if Faithful(t, links) {
      DesiredOfCapture(t, links, entries);
      FaithfulIsStageable(t, links, entries);
      FaithfulAcceptance(t, links, entries, RestoreLimits(limits));
      assert CapturedState(t).contents == CapturedFiles(t) by { StateContents(t); }
    }
    if Extractable(s) {
      ExtractableImpliesFaithful(s, root, t, links, limits, entries);
    }
  }

  lemma ArchiveLength(t: Tree, links: set<Path>, entries: seq<Path>)
    requires forall p :: p in entries ==> p in t
    ensures |ArchiveOf(t, links, entries)| == |entries|
  {
  }

  lemma StateContents(t: Tree)
    ensures CapturedState(t).contents == CapturedFiles(t)
  {
  }

  /** The size check of one member against the file it holds. */
  lemma FaithfulSizes(t: Tree, links: set<Path>, entries: seq<Path>, maxFileBytes: int)
    requires WellFormed(t) && Faithful(t, links) && Listing(t, entries)
    requires forall p :: p in entries ==> p in t
    ensures var ms := ArchiveOf(t, links, entries);
            (forall i :: 0 <= i < |ms| && ms[i].kind == FileMember ==> |ms[i].content| <= maxFileBytes)
            <==> (forall p :: p in CapturedFiles(t) ==> |CapturedFiles(t)[p]| <= maxFileBytes)
  {
    hide IsExcludedName, WellFormed, ValidatedMemberPath, PathOf, NameSurvives, ParentsFirst, Skipped,
      DesiredOf, ArchiveOf, Faithful, CapturedPaths, CapturedFiles;
    FaithfulMembers(t, links, entries);
    var ms := ArchiveOf(t, links, entries);
    forall p | p in CapturedFiles(t)
      ensures exists i :: 0 <= i < |ms| && ms[i].kind == FileMember && ms[i].content == CapturedFiles(t)[p]
    {
      CapturedFilesAre(t, p);
      assert p in SetOf(entries);
      var i :| 0 <= i < |entries| && entries[i] == p;
      assert ms[i].kind == FileMember;
    }
    forall i | 0 <= i < |ms| && ms[i].kind == FileMember
      ensures entries[i] in CapturedFiles(t) && CapturedFiles(t)[entries[i]] == ms[i].content
    {
      assert entries[i] in SetOf(entries);
      CapturedFilesAre(t, entries[i]);
    }
  }

  lemma FaithfulAcceptance(t: Tree, links: set<Path>, entries: seq<Path>, limits: Limits)
    requires WellFormed(t) && Faithful(t, links) && Listing(t, entries)
    requires forall p :: p in entries ==> p in t
    requires |entries| == |CapturedPaths(t)|
    ensures var ms := ArchiveOf(t, links, entries);
            AcceptableMembers(ms, limits) <==>
              && |CapturedPaths(t)| <= MAX_ARCHIVE_MEMBERS
              && (forall p :: p in CapturedFiles(t) ==> |CapturedFiles(t)[p]| <= limits.maxFileBytes)
              && WithinCaps(CapturedFiles(t), limits)
  {
    hide IsExcludedName, WellFormed, ValidatedMemberPath, PathOf, NameSurvives, ParentsFirst, Skipped,
      DesiredOf, WithinCaps, ArchiveOf, Faithful, CapturedPaths, CapturedFiles, CapturedState;
    FaithfulMembers(t, links, entries);
    FaithfulSizes(t, links, entries, limits.maxFileBytes);
    DesiredOfCapture(t, links, entries);
    StateContents(t);
    var ms := ArchiveOf(t, links, entries);
    assert forall i :: 0 <= i < |ms| ==>
      (AcceptableMember(ms[i], limits) <==> (ms[i].kind == FileMember ==> |ms[i].content| <= limits.maxFileBytes));
  }
}
