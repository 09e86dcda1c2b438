/**
 What a recursive directory walk has reached, stated for any set of wanted paths: the
 set algebra that the capture walk and the rollback scan share.
 */
module TreeWalk {
  import opened FileTree

  ghost function StrictlyBelow(wanted: set<Path>, d: Path): set<Path> {
    set p | p in wanted && Below(d, p)
  }

  ghost function AtOrBelow(wanted: set<Path>, c: Path): set<Path> {
    set p | p in wanted && (p == c || Below(c, p))
  }

  /** Everything wanted at or below the given siblings. */
  ghost function UnderAny(wanted: set<Path>, done: set<Path>): set<Path> {
    set p | p in wanted && exists c :: c in done && (p == c || Below(c, p))
  }

  ghost function ChildrenOf(t: Tree, d: Path): set<Path> {
    set q | q in t && q != [] && Parent(q) == d
  }

  lemma OneSiblingMore(wanted: set<Path>, done: set<Path>, c: Path)
    ensures UnderAny(wanted, done + {c}) == UnderAny(wanted, done) + AtOrBelow(wanted, c)
  {
    forall p | p in wanted
      ensures p in UnderAny(wanted, done + {c}) <==> p in UnderAny(wanted, done) || p == c || Below(c, p)
    {
      if p == c || Below(c, p) { assert c in done + {c}; }
      if p in UnderAny(wanted, done) {
        var q :| q in done && (p == q || Below(q, p));
        assert q in done + {c};
      }
    }
  }

  lemma AllSiblings(t: Tree, wanted: set<Path>, d: Path, children: set<Path>, todo: set<Path>)
    requires WellFormed(t) && wanted <= t.Keys && todo == {}
    requires children == ChildrenOf(t, d)
    ensures UnderAny(wanted, children - todo) == StrictlyBelow(wanted, d)
  {
    assert children - todo == children;
    forall p | p in wanted
      ensures p in UnderAny(wanted, children) <==> Below(d, p)
    {
      if Below(d, p) {
        var c := ChildTowards(t, d, p);
        assert c in children;
      }
    }
  }

  /** A sibling not yet visited: nothing at or below it has been reached. */
  lemma SiblingsAreApart(wanted: set<Path>, d: Path, done: set<Path>, c: Path)
    requires forall q :: q in done ==> q != [] && Parent(q) == d
    requires c != [] && Parent(c) == d && c !in done
    ensures AtOrBelow(wanted, c) !! UnderAny(wanted, done)
    ensures AtOrBelow(wanted, c) <= StrictlyBelow(wanted, d)
  {
    forall p | p in UnderAny(wanted, done) ensures p != c && !Below(c, p) {
      var q :| q in done && (p == q || Below(q, p));
      assert |q| == |c| && q != c && p[..|q|] == q;
    }
    forall p | p == c || Below(c, p) ensures Below(d, p) {
      assert p[..|d|] == p[..|c|][..|d|];
    }
  }

  lemma NextSibling(t: Tree, wanted: set<Path>, d: Path, todo: set<Path>, c: Path, before: set<Path>)
    requires c in todo && todo <= ChildrenOf(t, d)
    requires StrictlyBelow(wanted, d) !! before
    ensures before + UnderAny(wanted, ChildrenOf(t, d) - todo) + AtOrBelow(wanted, c)
            == before + UnderAny(wanted, ChildrenOf(t, d) - (todo - {c}))
    ensures AtOrBelow(wanted, c) !! before + UnderAny(wanted, ChildrenOf(t, d) - todo)
    ensures AtOrBelow(wanted, c) <= StrictlyBelow(wanted, d)
  {
    var children := ChildrenOf(t, d);
    assert children - (todo - {c}) == children - todo + {c};
    OneSiblingMore(wanted, children - todo, c);
    SiblingsAreApart(wanted, d, children - todo, c);
  }

  lemma EntryAndBelow(t: Tree, wanted: set<Path>, c: Path, seen: set<Path>)
    requires WellFormed(t) && wanted <= t.Keys && c in wanted && AtOrBelow(wanted, c) !! seen
    ensures c !in seen
    ensures StrictlyBelow(wanted, c) !! seen + {c}
    ensures seen + {c} + StrictlyBelow(wanted, c) == seen + AtOrBelow(wanted, c)
    ensures !t[c].Dir? ==> seen + {c} == seen + AtOrBelow(wanted, c)
  {
    assert c in AtOrBelow(wanted, c);
    if !t[c].Dir? {
      forall p | p in wanted ensures !Below(c, p) {
        if Below(c, p) {
          AncestorIsDirectory(t, c, p);
          assert false;
        }
      }
    }
    assert AtOrBelow(wanted, c) == {c} + StrictlyBelow(wanted, c);
  }

  lemma FewerBelow(t: Tree, d: Path, c: Path)
    requires c in t && c != [] && Parent(c) == d
    ensures StrictlyBelow(t.Keys, c) < StrictlyBelow(t.Keys, d)
  {
    var below := StrictlyBelow(t.Keys, c);
    var above := StrictlyBelow(t.Keys, d);
    assert c in above && c !in below;
    forall p | p in below ensures p in above {
      assert p[..|d|] == p[..|c|][..|d|];
    }
    assert below <= above;
  }
}
