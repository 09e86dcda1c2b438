/**
 The part of a file system below one workspace root: a finite map from
 root-relative paths to nodes.  Every path is the sequence of its components, so
 the root itself is [].
 */
module FileTree {

  type Path = seq<string>

  newtype Byte = n: int | 0 <= n < 256

  type Bytes = seq<Byte>

  /** A regular file carries the permission bits that stat reports (up to 0o7777). */
  datatype Node =
    | Dir
    | File(content: Bytes, mode: nat)
    | Symlink(target: string)
    | Special

  type Tree = map<Path, Node>

  const ALWAYS_EXCLUDED_NAMES: set<string> := {".git", ".ai-workflow"}

  const VOLATILE_DIRECTORY_NAMES: set<string> := {
    ".venv", "venv", "node_modules", "__pycache__", ".pytest_cache", ".mypy_cache",
    ".ruff_cache", ".cache", ".next", "dist", "build", "coverage"
  }

  predicate IsExcludedName(name: string) {
    name in ALWAYS_EXCLUDED_NAMES || name in VOLATILE_DIRECTORY_NAMES
  }

  /** No component is an excluded name: the path is within the rollback scope. */
  predicate Visible(p: Path) {
    forall i :: 0 <= i < |p| ==> !IsExcludedName(p[i])
  }

  function Parent(p: Path): Path
    requires p != []
  {
    p[..|p| - 1]
  }

  function Name(p: Path): string
    requires p != []
  {
    p[|p| - 1]
  }

  predicate Below(p: Path, q: Path) {
    |p| < |q| && q[..|p|] == p
  }

  /** What the kernel lets a directory entry be called. */
  predicate ValidName(name: string) {
    name != "" && name != "." && name != ".." && '/' !in name
  }

  ghost predicate WellFormed(t: Tree) {
    && [] in t && t[[]].Dir?
    && forall p :: p in t && p != [] ==>
         Parent(p) in t && t[Parent(p)].Dir? && ValidName(Name(p))
  }

  /** The out-of-scope part of a tree: everything at or below an excluded name. */
  ghost function Hidden(t: Tree): Tree {
    map p | p in t && !Visible(p) :: t[p]
  }

  /** A directory that cannot go, because something out of scope lies below it. */
  ghost predicate Keeps(t: Tree, p: Path) {
    exists q :: q in t && !Visible(q) && Below(p, q)
  }

  predicate Childless(t: Tree, p: Path) {
    forall q :: q in t && q != [] ==> Parent(q) != p
  }

  lemma {:induction false} AncestorIsDirectory(t: Tree, p: Path, q: Path)
    requires WellFormed(t) && q in t && Below(p, q)
    ensures p in t && t[p].Dir?
    decreases |q|
  {
    if Parent(q) != p {
      assert Parent(q)[..|p|] == p;
      AncestorIsDirectory(t, p, Parent(q));
    }
  }

  /** The child of p on the way down to q. */
  lemma ChildTowards(t: Tree, p: Path, q: Path) returns (c: Path)
    requires WellFormed(t) && q in t && Below(p, q)
    ensures c in t && c != [] && Parent(c) == p
    ensures c == q || (Below(c, q) && t[c].Dir?)
    ensures c == q[..|p| + 1]
  {
    c := q[..|p| + 1];
    if c != q {
      AncestorIsDirectory(t, c, q);
    }
  }

  lemma VisiblePrefix(p: Path, q: Path)
    requires Visible(q) && (Below(p, q) || p == q)
    ensures Visible(p)
  {
    forall i | 0 <= i < |p| ensures !IsExcludedName(p[i]) {
      assert p[i] == q[i];
    }
  }

  lemma KeepsIsDirectory(t: Tree, p: Path)
    requires WellFormed(t) && Keeps(t, p)
    ensures p in t && t[p].Dir?
  {
    var q :| q in t && !Visible(q) && Below(p, q);
    AncestorIsDirectory(t, p, q);
  }

  lemma KeepsUpward(t: Tree, p: Path)
    requires p != [] && Keeps(t, p)
    ensures Keeps(t, Parent(p))
  {
    var q :| q in t && !Visible(q) && Below(p, q);
    assert q[..|p| - 1] == q[..|p|][..|p| - 1];
    assert Below(Parent(p), q);
  }

  /** Which directories are kept depends on the hidden part of the tree alone. */
  lemma SameHiddenSameKeeps(t: Tree, u: Tree, p: Path)
    requires Hidden(t) == Hidden(u)
    ensures Keeps(t, p) <==> Keeps(u, p)
  {
    forall q | !Visible(q) ensures q in t <==> q in u {
      assert q in Hidden(t) <==> q in Hidden(u);
    }
  }

  // ---- the system calls, as functions on trees ----

  lemma RemoveLeaf(t: Tree, p: Path)
    requires WellFormed(t) && p in t && p != []
    requires !t[p].Dir? || Childless(t, p)
    ensures WellFormed(t - {p})
    ensures Visible(p) ==> Hidden(t - {p}) == Hidden(t)
  {
  }

  lemma AddNode(t: Tree, p: Path, node: Node)
    requires WellFormed(t) && p != [] && ValidName(Name(p))
    requires Parent(p) in t && t[Parent(p)].Dir?
    requires p in t ==> node.Dir? || !t[p].Dir?
    ensures WellFormed(t[p := node])
    ensures Visible(p) ==> Hidden(t[p := node]) == Hidden(t)
  {
    if p in t && !t[p].Dir? {
      forall q | q in t && q != [] && Parent(q) == p ensures false { }
    }
  }

  // ---- choosing paths by depth ----

  method Deepest(s: set<Path>) returns (p: Path)
    requires s != {}
    ensures p in s
    ensures forall q :: q in s ==> |q| <= |p|
  {
    p :| p in s;
    var rest := s - {p};
    while rest != {}
      invariant rest <= s && p in s
      invariant forall q :: q in s - rest ==> |q| <= |p|
      decreases rest
    {
      var q :| q in rest;
      if |q| > |p| { p := q; }
      rest := rest - {q};
    }
  }

  method Shallowest(s: set<Path>) returns (p: Path)
    requires s != {}
    ensures p in s
    ensures forall q :: q in s ==> |p| <= |q|
  {
    p :| p in s;
    var rest := s - {p};
    while rest != {}
      invariant rest <= s && p in s
      invariant forall q :: q in s - rest ==> |p| <= |q|
      decreases rest
    {
      var q :| q in rest;
      if |q| < |p| { p := q; }
      rest := rest - {q};
    }
  }
}
