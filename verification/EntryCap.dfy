/**
 A tree at which a restore is accepted but may not be repeated: it holds as many
 directories with something out of scope as a scan allows, and the restore adds one more.
 */
module EntryCap {
  import opened Wrappers
  import opened FileTree
  import opened MemberPaths
  import opened ByteCounts
  import opened CheckpointSnapshot
  import opened SnapshotExtraction
  import opened WorkspaceScan
  import opened RestorePlan
  import opened CheckpointRestore
  import opened SnapshotRestoreTheorems
  import opened UndoTheorems

  /** The name of the i-th directory. */
  function Word(i: nat): string {
    seq(i + 1, _ => 'a')
  }

  /** The first n directories. */
  function Shown(n: nat): set<Path> {
    if n == 0 then {} else Shown(n - 1) + {[Word(n - 1)]}
  }

  /** And what each of them holds. */
  function Held(n: nat): set<Path> {
    if n == 0 then {} else Held(n - 1) + {[Word(n - 1), ".git"]}
  }

  function Crowd(n: nat): Tree {
    map p | p in {[]} + Shown(n) + Held(n) :: Dir
  }

  const SINGLE: Tree := map[[] := Dir, ["z"] := Dir]

  const SINGLE_ARCHIVE: seq<Member> := [Member("z", DirectoryMember, 0, [])]

  function SingleSnapshot(root: string): Snapshot {
    Snapshot(root, SINGLE_ARCHIVE, 0, 0, DEFAULT_LIMITS)
  }

  lemma WordIsVisible(i: nat)
    ensures ValidName(Word(i)) && !IsExcludedName(Word(i))
    ensures Visible([Word(i)]) && !Visible([Word(i), ".git"])
  {
    var w := Word(i);
    assert w[0] == 'a';
    assert !IsExcludedName(w) by {
      assert forall name: string :: IsExcludedName(name) ==> name[0] != 'a';
    }
    assert IsExcludedName([w, ".git"][1]);
  }

  lemma {:induction false} ShownAre(n: nat, p: Path)
    ensures p in Shown(n) <==> |p| == 1 && 0 < |p[0]| <= n && p[0] == Word(|p[0]| - 1)
  {
    if n > 0 {
      ShownAre(n - 1, p);
      if p == [Word(n - 1)] { assert |p[0]| == n; }
    }
  }

  lemma {:induction false} ShownAreMany(n: nat)
    ensures |Shown(n)| == n
  {
    if n > 0 {
      ShownAreMany(n - 1);
      ShownAre(n - 1, [Word(n - 1)]);
    }
  }

  lemma {:induction false} HeldAre(n: nat, p: Path)
    ensures p in Held(n) <==> |p| == 2 && p[1] == ".git" && [p[0]] in Shown(n)
  {
    if n > 0 {
      HeldAre(n - 1, p);
      if p in Held(n) && p !in Held(n - 1) { assert p == [Word(n - 1), ".git"]; assert [p[0]] == [Word(n - 1)]; }
      if |p| == 2 && p[1] == ".git" && [p[0]] == [Word(n - 1)] { assert p == [Word(n - 1), ".git"]; }
    }
  }

  lemma CrowdIsWellFormed(n: nat)
    ensures WellFormed(Crowd(n))
  {
    var t := Crowd(n);
    forall p | p in t && p != [] ensures Parent(p) in t && t[Parent(p)].Dir? && ValidName(Name(p)) {
      ShownAre(n, p);
      HeldAre(n, p);
      if p in Shown(n) { WordIsVisible(|p[0]| - 1); assert Parent(p) == []; }
      else { assert Parent(p) == [p[0]]; }
    }
  }

  lemma CrowdShows(n: nat)
    ensures VisibleEntries(Crowd(n)) == Shown(n)
    ensures forall p :: p in Shown(n) ==> Keeps(Crowd(n), p)
  {
    hide IsExcludedName;
    var t := Crowd(n);
    forall p ensures p in VisibleEntries(t) <==> p in Shown(n) {
      ShownAre(n, p);
      HeldAre(n, p);
      if p in Shown(n) { WordIsVisible(|p[0]| - 1); assert p == [p[0]]; }
      if p in Held(n) { ShownAre(n, [p[0]]); WordIsVisible(|p[0]| - 1); assert p == [p[0], ".git"]; }
    }
    forall p | p in Shown(n) ensures Keeps(t, p) {
      ShownAre(n, p);
      var q := [p[0], ".git"];
      HeldAre(n, q);
      assert [p[0]] == p;
      WordIsVisible(|p[0]| - 1);
      assert q in t && !Visible(q) && q[..1] == p;
    }
  }

  lemma SingleIsCaptured(root: string)
    ensures WellFormed(SINGLE) && Capturable(SINGLE, DEFAULT_LIMITS)
    ensures CapturedPaths(SINGLE) == {["z"]} && CapturedFiles(SINGLE) == map[]
    ensures IsSnapshotOf(SingleSnapshot(root), root, SINGLE, {}, DEFAULT_LIMITS)
  {
    var z: Path := ["z"];
    assert !Skipped(SINGLE, z) by {
      assert forall k :: 1 <= k <= |z| ==> z[..k] == z;
      assert Name(z) == "z";
    }
    assert Parent(z) == [];
    assert CapturedPaths(SINGLE) == {z};
    assert CapturedFiles(SINGLE) == map[];
    var entries: seq<Path> := [z];
    assert MemberOf(SINGLE, {}, z) == SINGLE_ARCHIVE[0];
    assert ArchiveOf(SINGLE, {}, entries) == SINGLE_ARCHIVE;
    assert SetOf(entries) == {z};
    assert Listing(SINGLE, entries) && ListedArchive(SINGLE_ARCHIVE, SINGLE, {}, entries);
  }

  lemma NameOfSingle()
    ensures NameSurvives(["z"])
  {
  }

  lemma SingleAsksFor()
    ensures DesiredOf(SINGLE_ARCHIVE) == Desired({["z"]}, map[], map[])
  {
    MemberNameRoundTrip(["z"]);
    assert PathOf(SINGLE_ARCHIVE[0]) == ["z"] by {
      assert !HasBackslash(["z"]) && Visible(["z"]);
      assert Join(["z"]) == "z";
    }
    assert SINGLE_ARCHIVE[..0] == [];
    assert DesiredOf([]) == Desired({}, map[], map[]);
  }

  /** A restore that is accepted and cannot be repeated over the tree it ends in. */
  lemma SecondRestoreCanBeRefused(root: string, n: nat)
    requires n == MAX_ARCHIVE_MEMBERS
    ensures var s, now := SingleSnapshot(root), Crowd(n);
            && WellFormed(SINGLE) && WellFormed(now) && Capturable(SINGLE, DEFAULT_LIMITS)
            && IsSnapshotOf(s, root, SINGLE, {}, DEFAULT_LIMITS)
            && Restorable(s, s.digest, root, now)
            && var after := Target(now, DesiredOf(s.digest));
               Intermediate(now, after) && !Restorable(s, s.digest, root, after)
  {
    hide IsExcludedName, WellFormed, Capturable, Extractable, Keeps, NameSurvives, CapturedPaths, CapturedFiles, Target;
    var s, now := SingleSnapshot(root), Crowd(n);
    SingleIsCaptured(root);
    CrowdIsWellFormed(n);
    CrowdShows(n);
    ShownAreMany(n);
    NameOfSingle();
    WhenRollbackSucceeds(s, root, SINGLE, {}, now);
    assert Restorable(s, s.digest, root, now);
    OneMoreAfterwards(s, root, n);
    InterruptedRestoreConverges(s, root, now, Target(now, DesiredOf(s.digest)));
  }

  lemma EntriesAfterwards(d: Desired, n: nat, p: Path)
    requires d == Desired({["z"]}, map[], map[]) && Consistent(d)
    ensures p in VisibleEntries(Target(Crowd(n), d)) <==> p in Shown(n) || p == ["z"]
    ensures p in Target(Crowd(n), d) && Visible(p) ==> Target(Crowd(n), d)[p] == Dir
  {
    hide IsExcludedName, WellFormed, Keeps, Target;
    var now := Crowd(n);
    CrowdIsWellFormed(n);
    CrowdShows(n);
    TargetIs(now, d, p);
    NameOfSingle();
    if Keeps(now, p) { KeepsIsDirectory(now, p); }
    if p in Shown(n) { assert p in VisibleEntries(now); }
  }

  lemma SingleIsNotShown(n: nat)
    ensures ["z"] !in Shown(n)
  {
    ShownAre(n, ["z"]);
    assert Word(0)[0] == 'a';
  }

  lemma OneMoreAfterwards(s: Snapshot, root: string, n: nat)
    requires n == MAX_ARCHIVE_MEMBERS && s == SingleSnapshot(root) && Restorable(s, s.digest, root, Crowd(n))
    ensures var after := Target(Crowd(n), DesiredOf(s.digest));
            Intermediate(Crowd(n), after) && |VisibleEntries(after)| == n + 1
  {
    hide IsExcludedName, Visible, WellFormed, Extractable, Keeps, Target, Closed, Consistent;
    var now := Crowd(n);
    var d := DesiredOf(s.digest);
    SingleAsksFor();
    assert Closed(d) by { SingleIsClosed(d); }
    RestorableIsConsistent(s);
    CrowdIsWellFormed(n);
    TargetIsWellFormed(now, d);
    HiddenOfTarget(now, d);
    forall p
      ensures p in VisibleEntries(Target(now, d)) <==> p in Shown(n) || p == ["z"]
      ensures p in Target(now, d) && Visible(p) ==> Target(now, d)[p] == Dir
    {
      EntriesAfterwards(d, n, p);
    }
    SingleIsNotShown(n);
    ShownAreMany(n);
    assert VisibleEntries(Target(now, d)) == Shown(n) + {["z"]};
  }

  lemma SingleIsClosed(d: Desired)
    requires d == Desired({["z"]}, map[], map[])
    ensures Closed(d)
  {
  }
}
