/** Writing validated members into an empty staging directory. */
module Staging {
  import opened FileTree

  /** A member that passed validation: where it goes, and whether it is a file. */
  datatype Entry = Entry(path: Path, isFile: bool)

  /** The directories that must exist for p to exist, other than the root. */
  function Ancestors(p: Path): set<Path> {
    set k | 1 <= k < |p| :: p[..k]
  }

  lemma AncestorsAreBelow(p: Path, a: Path)
    ensures a in Ancestors(p) <==> a != [] && Below(a, p)
  {
    if a != [] && Below(a, p) { assert a == p[..|a|]; }
  }

  /** A file stands where the path of another entry needs a directory. */
  ghost predicate Clash(e: Entry, f: Entry) {
    (e.isFile && Below(e.path, f.path)) || (f.isFile && Below(f.path, e.path))
  }

  /** No two entries clash. */
  ghost predicate Stageable(es: seq<Entry>) {
    forall i, j :: 0 <= i < j < |es| ==> !Clash(es[i], es[j])
  }

  ghost predicate ProperEntries(es: seq<Entry>) {
    && (forall i :: 0 <= i < |es| ==> es[i].path != [])
    && (forall i, j :: 0 <= i < j < |es| ==> es[i].path != es[j].path)
  }

  /** What n members have put into the staging directory. */
  ghost predicate Staged(es: seq<Entry>, n: nat, files: set<Path>, dirs: set<Path>)
    requires n <= |es|
  {
    && (forall i :: 0 <= i < n && es[i].isFile ==> es[i].path in files)
    && (forall p :: p in files ==> exists i :: 0 <= i < n && es[i] == Entry(p, true))
    && (forall i, p :: 0 <= i < n && p in Ancestors(es[i].path) ==> p in dirs)
    && (forall i :: 0 <= i < n && !es[i].isFile ==> es[i].path in dirs)
    && (forall p :: p in dirs ==> exists i :: 0 <= i < n && MadeFor(es[i], p))
  }

  ghost predicate MadeFor(e: Entry, p: Path) {
    p in Ancestors(e.path) || (!e.isFile && e.path == p)
  }

  /** Writing e fails: a parent is a file, or its own place is taken by a directory. */
  predicate Blocked(e: Entry, files: set<Path>, dirs: set<Path>) {
    (exists a :: a in Ancestors(e.path) && a in files) || (e.isFile && e.path in dirs)
  }

  ghost predicate ClashesBefore(es: seq<Entry>, n: nat)
    requires n < |es|
  {
    exists i :: 0 <= i < n && Clash(es[i], es[n])
  }

  /** Writing entry n fails exactly when it clashes with one written before it. */
  lemma MeetsEarlierEntry(es: seq<Entry>, n: nat, files: set<Path>, dirs: set<Path>)
    requires n < |es| && ProperEntries(es) && Staged(es, n, files, dirs)
    ensures Blocked(es[n], files, dirs) <==> ClashesBefore(es, n)
  {
    var p := es[n].path;
    forall a ensures a in Ancestors(p) <==> a != [] && Below(a, p) { AncestorsAreBelow(p, a); }
    forall i | 0 <= i < n ensures p in Ancestors(es[i].path) <==> Below(p, es[i].path) {
      AncestorsAreBelow(es[i].path, p);
    }
    if exists a :: a in Ancestors(p) && a in files {
      var a :| a in Ancestors(p) && a in files;
      var i :| 0 <= i < n && es[i] == Entry(a, true);
      assert Clash(es[i], es[n]);
    }
    if es[n].isFile && p in dirs {
      var i :| 0 <= i < n && MadeFor(es[i], p);
      assert es[i].path != p;
      assert Clash(es[i], es[n]);
    }
    forall i | 0 <= i < n && Clash(es[i], es[n])
      ensures (es[i].isFile && es[i].path in Ancestors(p) && es[i].path in files) || (es[n].isFile && p in dirs)
    { }
  }

  ghost predicate StageableUpTo(es: seq<Entry>, n: nat)
    requires n <= |es|
  {
    n == 0 || (StageableUpTo(es, n - 1) && !ClashesBefore(es, n - 1))
  }

  lemma {:induction false} StageableUpToMeaning(es: seq<Entry>, n: nat)
    requires n <= |es|
    ensures StageableUpTo(es, n) <==> forall i, j :: 0 <= i < j < n ==> !Clash(es[i], es[j])
  {
    if n > 0 {
      StageableUpToMeaning(es, n - 1);
    }
  }

  lemma OneEntryMore(es: seq<Entry>, n: nat, files: set<Path>, dirs: set<Path>)
    requires n < |es| && Staged(es, n, files, dirs)
    ensures es[n].isFile ==> Staged(es, n + 1, files + {es[n].path}, dirs + Ancestors(es[n].path))
    ensures !es[n].isFile ==> Staged(es, n + 1, files, dirs + Ancestors(es[n].path) + {es[n].path})
  {
    assert forall p :: p in Ancestors(es[n].path) ==> MadeFor(es[n], p);
  }

  /** The extraction loop over the validated members: it works unless a file is in the way. */
  method StageMembers(es: seq<Entry>) returns (ok: bool)
    requires ProperEntries(es)
    ensures ok <==> Stageable(es)
  {
    var files, dirs: set<Path> := {}, {};
    for n := 0 to |es|
      invariant StageableUpTo(es, n)
      invariant Staged(es, n, files, dirs)
    {
      var p := es[n].path;
      MeetsEarlierEntry(es, n, files, dirs);
      if Blocked(es[n], files, dirs) {
        StageableUpToMeaning(es, n + 1);
        return false;
      }
      OneEntryMore(es, n, files, dirs);
      dirs := dirs + Ancestors(p);
      if es[n].isFile {
        files := files + {p};
      } else {
        dirs := dirs + {p};
      }
    }
    StageableUpToMeaning(es, |es|);
    ok := true;
  }
}
