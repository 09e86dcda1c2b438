/**
 What a restore is for: the tree it must end in, and the trees between its phases, as
 functions of the tree it starts from.  No method is mentioned here.
 */
module RestorePlan {
  import opened FileTree
  import opened SnapshotExtraction
  import opened WorkspaceScan
  import opened CheckpointSnapshot

  function DesiredFile(d: Desired, p: Path): Node
    requires p in d.contents
  {
    File(d.contents[p], if p in d.modes then d.modes[p] else 0)
  }

  /** Every desired entry has its parent among the desired directories. */
  ghost predicate Closed(d: Desired) {
    forall p :: (p in d.dirs || p in d.contents) && |p| > 1 ==> Parent(p) in d.dirs
  }

  ghost function KeptDirs(t: Tree): set<Path> {
    set p | p in t && Visible(p) && Keeps(t, p)
  }

  /**
   The restored tree: exactly the desired files, the desired directories and those that
   hold something out of scope, and the out-of-scope part as it was.
   */
  ghost function Target(t: Tree, d: Desired): Tree {
    Hidden(t)
    + (map p | p in KeptDirs(t) + d.dirs + {[]} :: Dir)
    + (map p | p in d.contents :: DesiredFile(d, p))
  }

  /** A file of the snapshot would replace a directory that must be kept. */
  ghost predicate ReplacesExcludedState(t: Tree, d: Desired) {
    exists p :: p in d.contents && p in t && t[p].Dir? && Keeps(t, p)
  }

  /** A tree a restore of t may be in at some moment: only the visible part has moved. */
  ghost predicate Intermediate(t: Tree, u: Tree) {
    WellFormed(u) && Hidden(u) == Hidden(t) && NoVisibleSpecial(u)
  }

  predicate StaleLeaf(t: Tree, d: Desired, p: Path) {
    p in t && (t[p].Symlink? || (t[p].File? && p !in d.contents))
  }

  ghost predicate StaleDir(t: Tree, d: Desired, p: Path) {
    p in t && t[p].Dir? && p !in d.dirs && !Keeps(t, p)
  }

  ghost function StaleLeaves(t: Tree, d: Desired, among: set<Path>): set<Path> {
    set p | p in among && StaleLeaf(t, d, p)
  }

  ghost function StaleDirs(t: Tree, d: Desired, among: set<Path>): set<Path> {
    set p | p in among && StaleDir(t, d, p)
  }

  ghost function AfterUnlinking(t: Tree, d: Desired): Tree {
    t - StaleLeaves(t, d, VisibleEntries(t))
  }

  ghost function AfterPruning(t: Tree, d: Desired): Tree {
    AfterUnlinking(t, d) - StaleDirs(t, d, VisibleEntries(t))
  }

  ghost function AfterMkdir(t: Tree, d: Desired): Tree {
    AfterPruning(t, d) + (map p | p in d.dirs :: Dir)
  }

  /**
   The heart of deepest-first pruning: when every deeper directory has been dealt with, a
   directory of the current tree that is not wanted is empty exactly if nothing out of
   scope lies below it.
   */
  lemma EmptyUnlessKept(t: Tree, d: Desired, u: Tree, gone: set<Path>, p: Path)
    requires WellFormed(t) && NoVisibleSpecial(t) && Consistent(d)
    requires p in VisibleEntries(t) && t[p].Dir? && p !in d.dirs
    requires gone <= VisibleEntries(t)
    requires u == AfterUnlinking(t, d) - StaleDirs(t, d, gone)
    requires forall q :: q in VisibleEntries(t) && t[q].Dir? && |q| > |p| ==> q in gone
    ensures Keeps(t, p) ==> !Childless(u, p)
    ensures Closed(d) && !Keeps(t, p) ==> Childless(u, p)
  {
    if Keeps(t, p) {
      KeptIsNotEmpty(t, d, u, gone, p);
    } else if Closed(d) {
      forall c | c in u && c != [] ensures Parent(c) != p {
        if Parent(c) == p {
          UnkeptChildIsGone(t, d, u, gone, p, c);
        }
      }
    }
  }

  lemma KeptIsNotEmpty(t: Tree, d: Desired, u: Tree, gone: set<Path>, p: Path)
    requires WellFormed(t) && gone <= VisibleEntries(t) && Keeps(t, p)
    requires u == AfterUnlinking(t, d) - StaleDirs(t, d, gone)
    ensures !Childless(u, p)
  {
    var q :| q in t && !Visible(q) && Below(p, q);
    var c := ChildTowards(t, p, q);
    if Visible(c) {
      assert c != q;
      assert Below(c, q);
      assert Keeps(t, c);
    }
    assert c in u;
  }

  lemma UnkeptChildIsGone(t: Tree, d: Desired, u: Tree, gone: set<Path>, p: Path, c: Path)
    requires WellFormed(t) && NoVisibleSpecial(t) && Consistent(d) && Closed(d)
    requires p in VisibleEntries(t) && t[p].Dir? && p !in d.dirs && !Keeps(t, p)
    requires gone <= VisibleEntries(t)
    requires u == AfterUnlinking(t, d) - StaleDirs(t, d, gone)
    requires forall q :: q in VisibleEntries(t) && t[q].Dir? && |q| > |p| ==> q in gone
    requires c != [] && Parent(c) == p
    ensures c !in u
  {
    assert Below(p, c);
    if c in t {
      assert Visible(c);
      assert c in VisibleEntries(t);
      assert |c| > 1;
      if t[c].Dir? {
        assert c !in d.dirs;
        if Keeps(t, c) { KeepsUpward(t, c); }
        assert StaleDir(t, d, c);
      } else {
        assert c !in d.contents;
        assert StaleLeaf(t, d, c);
      }
    }
  }

  /** What is left of the visible part after pruning. */
  lemma AfterPruningIs(t: Tree, d: Desired, p: Path)
    requires WellFormed(t) && NoVisibleSpecial(t)
    ensures p in AfterPruning(t, d) <==>
              p in t && (!Visible(p) || p == []
                         || (t[p].Dir? && (p in d.dirs || Keeps(t, p)))
                         || (t[p].File? && p in d.contents))
    ensures p in AfterPruning(t, d) ==> AfterPruning(t, d)[p] == t[p]
  {
  }

  /** After pruning nothing stands where a desired directory or file has to go. */
  lemma NothingInTheWay(t: Tree, d: Desired, p: Path)
    requires WellFormed(t) && NoVisibleSpecial(t) && Consistent(d)
    requires !ReplacesExcludedState(t, d)
    ensures p in d.dirs && p in AfterPruning(t, d) ==> AfterPruning(t, d)[p].Dir?
    ensures p in d.contents && p in AfterPruning(t, d) ==> AfterPruning(t, d)[p].File?
  {
    AfterPruningIs(t, d, p);
    if p in d.contents && p in AfterPruning(t, d) {
      assert p !in d.dirs && InScope(p);
      assert Keeps(t, p) ==> !t[p].Dir?;
    }
  }

  /** The target, path by path. */
  lemma TargetIs(t: Tree, d: Desired, p: Path)
    requires WellFormed(t) && Consistent(d)
    ensures p in Target(t, d) <==>
              || (p in t && !Visible(p)) || p == []
              || p in d.dirs || p in d.contents || (Visible(p) && Keeps(t, p))
    ensures p in Target(t, d) ==>
              Target(t, d)[p] ==
              if p in d.contents then DesiredFile(d, p)
              else if p in t && !Visible(p) then t[p]
              else Dir
  {
    DesiredIsVisible(d, p);
    RootHasNoNames();
    if Keeps(t, p) { KeepsIsDirectory(t, p); }
    TargetParts(t, d, p);
    hide Visible, Keeps, WellFormed, Consistent, Target;
  }

  lemma TargetParts(t: Tree, d: Desired, p: Path)
    ensures p in Target(t, d) <==>
              (p in t && !Visible(p)) || (p in t && Visible(p) && Keeps(t, p)) || p in d.dirs || p == [] || p in d.contents
    ensures p in Target(t, d) ==>
              Target(t, d)[p] ==
              if p in d.contents then DesiredFile(d, p)
              else if (p in t && Visible(p) && Keeps(t, p)) || p in d.dirs || p == [] then Dir
              else t[p]
  {
    hide Visible, Keeps;
  }

  lemma DesiredIsVisible(d: Desired, p: Path)
    requires Consistent(d)
    ensures p in d.dirs || p in d.contents ==> Visible(p)
  {
    hide IsExcludedName, ValidName;
    var placed := p in d.dirs || p in d.contents;
    assert placed ==> InScope(p);
  }

  lemma RootHasNoNames()
    ensures Visible([])
  {
  }

  ghost function AfterCopying(t: Tree, d: Desired): Tree {
    AfterMkdir(t, d) + (map p | p in d.contents :: DesiredFile(d, p))
  }

  lemma AfterCopyingIs(t: Tree, d: Desired, p: Path)
    ensures p in AfterCopying(t, d) <==> p in d.contents || p in d.dirs || p in AfterPruning(t, d)
    ensures p in AfterCopying(t, d) ==>
              AfterCopying(t, d)[p] ==
              if p in d.contents then DesiredFile(d, p)
              else if p in d.dirs then Dir
              else AfterPruning(t, d)[p]
  {
  }

  lemma PhasesReachTargetAt(t: Tree, d: Desired, p: Path)
    requires WellFormed(t) && NoVisibleSpecial(t) && Consistent(d)
    ensures p in AfterCopying(t, d) <==> p in Target(t, d)
    ensures p in AfterCopying(t, d) ==> AfterCopying(t, d)[p] == Target(t, d)[p]
  {
    AfterPruningIs(t, d, p);
    AfterCopyingIs(t, d, p);
    TargetIs(t, d, p);
    var inScope := p in d.contents || p in d.dirs;
    assert inScope ==> Visible(p);
    if Keeps(t, p) {
      KeepsIsDirectory(t, p);
    }
    assert p == [] ==> t[p].Dir?;
  }

  /** The four phases together produce the target. */
  lemma PhasesReachTarget(t: Tree, d: Desired)
    requires WellFormed(t) && NoVisibleSpecial(t) && Consistent(d)
    ensures AfterCopying(t, d) == Target(t, d)
  {
    forall p
      ensures p in AfterCopying(t, d) <==> p in Target(t, d)
      ensures p in AfterCopying(t, d) ==> AfterCopying(t, d)[p] == Target(t, d)[p]
    {
      PhasesReachTargetAt(t, d, p);
    }
  }

  /** The target depends on the out-of-scope part of the tree alone. */
  lemma TargetIsStable(t: Tree, u: Tree, d: Desired)
    requires WellFormed(t) && WellFormed(u) && Hidden(t) == Hidden(u)
    ensures Target(t, d) == Target(u, d)
  {
    forall p ensures p in KeptDirs(t) <==> p in KeptDirs(u) {
      SameHiddenSameKeeps(t, u, p);
      if Keeps(t, p) {
        KeepsIsDirectory(t, p);
        KeepsIsDirectory(u, p);
      }
    }
    assert KeptDirs(t) == KeptDirs(u);
  }

  lemma IntermediateStaysRestorable(t: Tree, u: Tree, d: Desired)
    requires WellFormed(t) && Intermediate(t, u)
    ensures Target(u, d) == Target(t, d)
    ensures ReplacesExcludedState(u, d) <==> ReplacesExcludedState(t, d)
  {
    TargetIsStable(t, u, d);
    forall p ensures Keeps(t, p) <==> Keeps(u, p) {
      SameHiddenSameKeeps(t, u, p);
    }
    forall p | Keeps(t, p) ensures p in t && t[p].Dir? && p in u && u[p].Dir? {
      KeepsIsDirectory(t, p);
      KeepsIsDirectory(u, p);
    }
    if ReplacesExcludedState(t, d) {
      var p :| p in d.contents && p in t && t[p].Dir? && Keeps(t, p);
      assert Keeps(u, p);
    }
    if ReplacesExcludedState(u, d) {
      var p :| p in d.contents && p in u && u[p].Dir? && Keeps(u, p);
      assert Keeps(t, p);
    }
  }
}
