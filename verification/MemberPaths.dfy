/** Archive member names: how a captured path is written, and how a restore reads one back. */
module MemberPaths {
  import opened Wrappers
  import opened FileTree

  datatype NameError = UnsafeName | ExcludedPath

  function IndexOf(s: string, c: char): (i: nat)
    requires c in s
    ensures i < |s| && s[i] == c && c !in s[..i]
  {
    if s[0] == c then 0
    else
      var i := 1 + IndexOf(s[1..], c);
      assert s[..i] == [s[0]] + s[1..][..i - 1];
      i
  }

  function Split(s: string): (parts: seq<string>)
    ensures parts != []
    decreases |s|
  {
    if '/' !in s then [s]
    else
      var i := IndexOf(s, '/');
      [s[..i]] + Split(s[i + 1..])
  }

  function DropEmptyAndDot(parts: seq<string>): (kept: seq<string>)
    ensures forall k :: 0 <= k < |kept| ==> kept[k] != "" && kept[k] != "."
  {
    if parts == [] then []
    else if parts[0] == "" || parts[0] == "." then DropEmptyAndDot(parts[1..])
    else [parts[0]] + DropEmptyAndDot(parts[1..])
  }

  /** The components of a POSIX path: repeated slashes and "." collapse, ".." stays. */
  function Parts(s: string): Path {
    DropEmptyAndDot(Split(s))
  }

  function Join(p: Path): string {
    if p == [] then ""
    else if |p| == 1 then p[0]
    else p[0] + "/" + Join(p[1..])
  }

  predicate HasBackslash(p: Path) {
    exists i :: 0 <= i < |p| && '\\' in p[i]
  }

  /** What a restore accepts as a member name, and the path it takes it for. */
  function ValidatedMemberPath(name: string): Result<Path, NameError> {
    if name == "" || name[0] == '/' || '\\' in name then Failure(UnsafeName)
    else
      var p := Parts(name);
      if p == [] || ".." in p then Failure(UnsafeName)
      else if !Visible(p) then Failure(ExcludedPath)
      else Success(p)
  }

  lemma {:induction false} SplitComponent(c: string, rest: string)
    requires '/' !in c
    ensures Split(c + "/" + rest) == [c] + Split(rest)
  {
    var s := c + "/" + rest;
    assert s[|c|] == '/';
    var i := IndexOf(s, '/');
    assert forall k :: 0 <= k < |c| ==> s[k] == c[k] && c[k] != '/';
    forall k | 0 <= k < i ensures s[k] != '/' {
      assert s[..i][k] == s[k];
    }
    assert s[..i] == c && s[i + 1..] == rest;
  }

  lemma {:induction false} JoinShape(p: Path)
    requires p != [] && forall i :: 0 <= i < |p| ==> ValidName(p[i])
    ensures Join(p) != "" && Join(p)[0] != '/'
    ensures Split(Join(p)) == p
  {
    hide IsExcludedName;
    if |p| == 1 {
      assert Join(p) == p[0] && p == [p[0]];
    } else {
      var rest := p[1..];
      forall i | 0 <= i < |rest| ensures ValidName(rest[i]) { assert rest[i] == p[i + 1]; }
      JoinShape(rest);
      SplitComponent(p[0], Join(rest));
      hide Split;
      var s := p[0] + "/" + Join(rest);
      assert s == Join(p) && s[0] == p[0][0];
    }
  }

  lemma {:induction false} JoinKeepsBackslashes(p: Path)
    ensures '\\' in Join(p) <==> HasBackslash(p)
  {
    if |p| >= 1 {
      var rest := p[1..];
      JoinKeepsBackslashes(rest);
      assert HasBackslash(p) <==> '\\' in p[0] || HasBackslash(rest) by {
        forall i | 0 <= i < |rest| ensures rest[i] == p[i + 1] { }
        if HasBackslash(rest) {
          var i :| 0 <= i < |rest| && '\\' in rest[i];
          assert '\\' in p[i + 1];
        }
      }
      if |p| > 1 {
        assert Join(p) == p[0] + ("/" + Join(rest));
        assert '\\' in Join(p) <==> '\\' in p[0] || '\\' in "/" + Join(rest);
      }
    }
  }

  lemma {:induction false} NothingDropped(parts: seq<string>)
    requires forall i :: 0 <= i < |parts| ==> ValidName(parts[i])
    ensures DropEmptyAndDot(parts) == parts
  {
    if parts != [] {
      assert ValidName(parts[0]);
      NothingDropped(parts[1..]);
    }
  }

  lemma NoDotDot(p: Path)
    requires forall i :: 0 <= i < |p| ==> ValidName(p[i])
    ensures ".." !in p
  {
    assert forall i :: 0 <= i < |p| ==> ValidName(p[i]) && p[i] != "..";
  }

  /**
   Round trip: the name a capture writes for a path reads back as that path, unless a
   component contains a backslash or is an excluded name; then the restore refuses it.
   */
  lemma MemberNameRoundTrip(p: Path)
    requires p != [] && forall i :: 0 <= i < |p| ==> ValidName(p[i])
    ensures ValidatedMemberPath(Join(p)) ==
            if HasBackslash(p) then Failure(UnsafeName)
            else if !Visible(p) then Failure(ExcludedPath)
            else Success(p)
  {
    hide IsExcludedName;
    JoinShape(p);
    JoinKeepsBackslashes(p);
    NothingDropped(p);
    NoDotDot(p);
    var name := Join(p);
    assert Parts(name) == p;
    assert !(name == "" || name[0] == '/');
    assert '\\' in name <==> HasBackslash(p);
  }

  lemma {:induction false} SplitHasNoSlash(s: string)
    ensures forall k :: 0 <= k < |Split(s)| ==> '/' !in Split(s)[k]
    decreases |s|
  {
    if '/' in s {
      SplitHasNoSlash(s[IndexOf(s, '/') + 1..]);
    }
  }

  lemma {:induction false} KeptWereParts(parts: seq<string>)
    ensures forall x :: x in DropEmptyAndDot(parts) ==> x in parts
  {
    if parts != [] {
      KeptWereParts(parts[1..]);
    }
  }

  /** Whatever an archive says, an accepted name stays inside the workspace and in scope. */
  lemma AcceptedNameIsContained(name: string)
    requires ValidatedMemberPath(name).Success?
    ensures var p := ValidatedMemberPath(name).value;
            && p != [] && Visible(p)
            && forall i :: 0 <= i < |p| ==> ValidName(p[i])
  {
    var p := ValidatedMemberPath(name).value;
    SplitHasNoSlash(name);
    KeptWereParts(Split(name));
    forall i | 0 <= i < |p| ensures ValidName(p[i]) {
      assert p[i] in p;
      assert p[i] in Split(name);
    }
  }
}
