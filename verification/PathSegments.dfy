/** What a path is made of, and that normalising keeps it: the pieces between the slashes. */
module PathSegments {
  import opened Wrappers
  import opened ConversationIdentity

  /** What stands before, between and behind the slashes. */
  function Pieces(s: string): (pieces: seq<string>)
    ensures pieces != []
  {
    if s == "" then [""]
    else
      var rest := Pieces(s[1..]);
      if s[0] == '/' then [""] + rest else [[s[0]] + rest[0]] + rest[1..]
  }

  function NonEmpty(pieces: seq<string>): (r: seq<string>)
    ensures forall i :: 0 <= i < |r| ==> r[i] != ""
  {
    if pieces == [] then []
    else if pieces[0] == "" then NonEmpty(pieces[1..])
    else [pieces[0]] + NonEmpty(pieces[1..])
  }

  function Segments(s: string): seq<string> {
    NonEmpty(Pieces(s))
  }

  // ---- slashes that do not matter ----

  lemma {:induction false} NonEmptyOfSum(a: seq<string>, b: seq<string>)
    ensures NonEmpty(a + b) == NonEmpty(a) + NonEmpty(b)
  {
    if a == [] {
      assert a + b == b;
    } else {
      NonEmptyOfSum(a[1..], b);
      assert (a + b)[1..] == a[1..] + b && (a + b)[0] == a[0];
    }
  }

  lemma PiecesOfHead(s: string)
    ensures s == "" ==> Pieces(s) == [""]
    ensures s != "" && s[0] == '/' ==> Pieces(s) == [""] + Pieces(s[1..])
    ensures s != "" && s[0] != '/' ==> Pieces(s) == [[s[0]] + Pieces(s[1..])[0]] + Pieces(s[1..])[1..]
  {
  }

  lemma {:induction false} PiecesAcross(a: string, b: string)
    ensures Pieces(a + "/" + b) == Pieces(a) + Pieces(b)
  {
    hide Pieces;
    var s := a + "/" + b;
    PiecesOfHead(a);
    PiecesOfHead(s);
    if a == "" {
      assert s[1..] == b && s[0] == '/';
    } else {
      var tail := a[1..];
      PiecesAcross(tail, b);
      assert s[0] == a[0] && s[1..] == tail + "/" + b;
      var x, y := Pieces(tail), Pieces(b);
      assert (x + y)[0] == x[0] && (x + y)[1..] == x[1..] + y;
    }
  }

  /** A slash separates. */
  lemma SegmentsAcross(a: string, b: string)
    ensures Segments(a + "/" + b) == Segments(a) + Segments(b)
  {
    PiecesAcross(a, b);
    NonEmptyOfSum(Pieces(a), Pieces(b));
  }

  lemma {:induction false} PieceWithoutSlash(s: string)
    requires '/' !in s
    ensures Pieces(s) == [s]
  {
    if s != "" {
      PieceWithoutSlash(s[1..]);
      assert [s[0]] + s[1..] == s;
    }
  }

  /** And what holds no slash is one segment. */
  lemma SegmentWithoutSlash(s: string)
    requires '/' !in s
    ensures Segments(s) == if s == "" then [] else [s]
  {
    PieceWithoutSlash(s);
    HeadAndTail([s]);
  }

  lemma SlashInFront(s: string)
    ensures Segments("/" + s) == Segments(s)
  {
    assert "" + "/" + s == "/" + s;
    SegmentsAcross("", s);
  }

  lemma SlashBehind(s: string)
    ensures Segments(s + "/") == Segments(s)
  {
    assert s + "/" + "" == s + "/";
    SegmentsAcross(s, "");
  }

  // ---- normalising ----

  lemma {:induction false} CollapseKeepsPieces(s: string)
    ensures Pieces(Collapse(s))[0] == Pieces(s)[0]
    ensures NonEmpty(Pieces(Collapse(s))[1..]) == NonEmpty(Pieces(s)[1..])
  {
    if |s| >= 2 {
      CollapseKeepsPieces(s[1..]);
      var rest := Pieces(s[1..]);
      if s[0] == '/' && s[1] == '/' {
        assert Pieces(s)[1..] == rest && rest[0] == "";
      } else {
        var t := [s[0]] + Collapse(s[1..]);
        assert t[1..] == Collapse(s[1..]) && t[0] == s[0];
        HeadAndTail(rest);
        HeadAndTail(Pieces(t[1..]));
        assert s[0] == '/' ==> Pieces(s)[1..] == rest && Pieces(t)[1..] == Pieces(t[1..]);
        assert s[0] != '/' ==> Pieces(s)[1..] == rest[1..] && Pieces(t)[1..] == Pieces(t[1..])[1..];
      }
    }
  }

  lemma HeadAndTail(pieces: seq<string>)
    requires pieces != []
    ensures NonEmpty(pieces) == (if pieces[0] == "" then [] else [pieces[0]]) + NonEmpty(pieces[1..])
  {
  }

  lemma CollapseKeepsSegments(s: string)
    ensures Segments(Collapse(s)) == Segments(s)
  {
    CollapseKeepsPieces(s);
    HeadAndTail(Pieces(s));
    HeadAndTail(Pieces(Collapse(s)));
  }

  lemma {:induction false} DroppingKeepsSegments(s: string)
    ensures Segments(DropTrailingSlashes(s)) == Segments(s)
  {
    if s != "" && s[|s| - 1] == '/' {
      var init := s[..|s| - 1];
      DroppingKeepsSegments(init);
      SlashBehind(init);
      assert init + "/" == s;
    }
  }

  /** Normalising keeps what a path is made of. */
  lemma NormalizingKeepsSegments(path: string)
    ensures Segments(NormalizePathname(path)) == Segments(path)
  {
    hide Segments, Collapse, DropTrailingSlashes;
    var given := if path == "" then "/" else path;
    assert Segments(given) == Segments(path) by { SlashInFront(path); assert "/" + "" == "/"; }
    var rooted := if given[0] == '/' then given else "/" + given;
    SlashInFront(given);
    CollapseKeepsSegments(rooted);
    var collapsed := Collapse(rooted);
    DroppingKeepsSegments(collapsed);
    var trimmed := if |collapsed| > 1 then DropTrailingSlashes(collapsed) else collapsed;
    assert trimmed == "" ==> Segments("/") == Segments(trimmed) by { SlashInFront(""); assert "/" + "" == "/"; }
  }

  // ---- normal paths ----

  /** The normal path made of these segments. */
  function Joined(segments: seq<string>): string {
    if segments == [] then "" else "/" + segments[0] + Joined(segments[1..])
  }

  function PathOf(segments: seq<string>): string {
    if segments == [] then "/" else Joined(segments)
  }

  lemma JoinedHead(first: string, rest: seq<string>)
    ensures Joined([first] + rest) == "/" + (first + Joined(rest))
  {
    assert ([first] + rest)[1..] == rest;
    assert ("/" + first) + Joined(rest) == "/" + (first + Joined(rest));
  }

  lemma SlashCancels(a: string, b: string)
    ensures "/" + a == "/" + b ==> a == b
  {
    assert ("/" + a)[1..] == a && ("/" + b)[1..] == b;
  }

  lemma {:induction false} JoinedPieces(s: string)
    ensures Joined(Pieces(s)) == "/" + s
  {
    hide Pieces, Joined;
    PiecesOfHead(s);
    if s == "" {
      JoinedHead("", []);
      assert [""] + [] == [""] && Joined([]) == "" by { EmptyJoined(); }
    } else {
      var tail, rest := s[1..], Pieces(s[1..]);
      JoinedPieces(tail);
      assert s == [s[0]] + tail;
      if s[0] == '/' {
        JoinedHead("", rest);
        assert "" + Joined(rest) == s;
      } else {
        assert rest == [rest[0]] + rest[1..];
        JoinedHead(rest[0], rest[1..]);
        SlashCancels(rest[0] + Joined(rest[1..]), tail);
        JoinedHead([s[0]] + rest[0], rest[1..]);
        assert ([s[0]] + rest[0]) + Joined(rest[1..]) == [s[0]] + tail;
      }
    }
  }

  lemma EmptyJoined()
    ensures Joined([]) == ""
  {
  }

  /** Without slashes at its ends and double ones within, nothing between the slashes is empty. */
  lemma {:induction false} NoPieceIsEmpty(s: string)
    requires s != "" && s[|s| - 1] != '/' && HasNoDoubleSlash(s)
    ensures forall i :: 1 <= i < |Pieces(s)| ==> Pieces(s)[i] != ""
    ensures s[0] != '/' ==> Pieces(s)[0] != ""
  {
    if |s| > 1 {
      var rest := s[1..];
      assert forall i :: 0 <= i < |rest| ==> rest[i] == s[i + 1];
      NoPieceIsEmpty(rest);
      assert s[0] == '/' ==> s[1] != '/';
      assert s[0] == '/' ==> Pieces(s) == [""] + Pieces(rest);
    } else {
      PieceWithoutSlash(s);
    }
  }

  lemma {:induction false} NothingEmptyIsDropped(pieces: seq<string>)
    requires forall i :: 0 <= i < |pieces| ==> pieces[i] != ""
    ensures NonEmpty(pieces) == pieces
  {
    if pieces != [] { NothingEmptyIsDropped(pieces[1..]); }
  }

  /** A normal path is determined by its segments. */
  lemma NormalIsPathOfSegments(path: string)
    requires IsNormal(path)
    ensures path == PathOf(Segments(path))
  {
    var tail := path[1..];
    assert path == "/" + tail;
    SlashInFront(tail);
    if tail == "" {
      assert Pieces("") == [""];
    } else {
      assert forall i :: 0 <= i < |tail| ==> tail[i] == path[i + 1];
      NoPieceIsEmpty(tail);
      NothingEmptyIsDropped(Pieces(tail));
      JoinedPieces(tail);
    }
  }

  /** So normalising is taking a path apart and putting it together again. */
  lemma NormalFormIs(path: string)
    ensures NormalizePathname(path) == PathOf(Segments(path))
  {
    hide Segments, NormalizePathname, PathOf;
    NormalizingIsIdempotent(path);
    NormalizingKeepsSegments(path);
    NormalIsPathOfSegments(NormalizePathname(path));
  }

  /** Segments are what they are called: not empty, and without a slash. */
  predicate AreSegments(segments: seq<string>) {
    forall i :: 0 <= i < |segments| ==> segments[i] != "" && '/' !in segments[i]
  }

  lemma {:induction false} PiecesHaveNoSlash(s: string)
    ensures forall i :: 0 <= i < |Pieces(s)| ==> '/' !in Pieces(s)[i]
  {
    if s != "" { PiecesHaveNoSlash(s[1..]); }
  }

  lemma {:induction false} NonEmptyAreSome(pieces: seq<string>)
    ensures forall x :: x in NonEmpty(pieces) ==> x in pieces
  {
    if pieces != [] { NonEmptyAreSome(pieces[1..]); }
  }

  lemma SegmentsAreSegments(s: string)
    ensures AreSegments(Segments(s))
  {
    PiecesHaveNoSlash(s);
    NonEmptyAreSome(Pieces(s));
    forall i | 0 <= i < |Segments(s)| ensures '/' !in Segments(s)[i] { assert Segments(s)[i] in Pieces(s); }
  }

  lemma {:induction false} JoinedBack(segments: seq<string>, last: string)
    ensures Joined(segments + [last]) == Joined(segments) + "/" + last
  {
    hide Joined;
    EmptyJoined();
    if segments == [] {
      JoinedHead(last, []);
      assert [] + [last] == [last] + [] && "" + "/" + last == "/" + last && last + "" == last;
    } else {
      var first, rest := segments[0], segments[1..];
      JoinedBack(rest, last);
      JoinedHead(first, rest);
      JoinedHead(first, rest + [last]);
      assert segments == [first] + rest && segments + [last] == [first] + (rest + [last]);
      assert first + (Joined(rest) + "/" + last) == first + Joined(rest) + "/" + last;
      assert "/" + (first + Joined(rest) + "/" + last) == "/" + (first + Joined(rest)) + "/" + last;
    }
  }

  lemma {:induction false} JoinedHasSegments(segments: seq<string>)
    requires AreSegments(segments)
    ensures Segments(Joined(segments)) == segments
  {
    hide Segments, Joined;
    if segments == [] {
      EmptyJoined();
      SegmentWithoutSlash("");
    } else {
      var init, last := segments[..|segments| - 1], segments[|segments| - 1];
      JoinedHasSegments(init);
      JoinedBack(init, last);
      SegmentsAcross(Joined(init), last);
      SegmentWithoutSlash(last);
      assert init + [last] == segments;
    }
  }

  /** Every list of segments is that of a path. */
  lemma PathOfSegmentsHasThem(segments: seq<string>)
    requires AreSegments(segments)
    ensures Segments(PathOf(segments)) == segments
  {
    hide Segments;
    JoinedHasSegments(segments);
    if segments == [] {
      SlashInFront("");
      SegmentWithoutSlash("");
      assert "/" + "" == "/";
    }
  }

  // ---- what identifies a conversation ----

  /** Two paths of a provider have the same key exactly if they are made of the same segments. */
  lemma SameKeyIff(provider: string, a: string, b: string)
    ensures Key(provider, NormalizePathname(a)) == Key(provider, NormalizePathname(b)) <==> Segments(a) == Segments(b)
  {
    hide Segments, NormalizePathname, PathOf;
    var x, y := NormalizePathname(a), NormalizePathname(b);
    NormalFormIs(a);
    NormalFormIs(b);
    NormalizingKeepsSegments(a);
    NormalizingKeepsSegments(b);
    assert Key(provider, x)[|provider| + 1..] == x && Key(provider, y)[|provider| + 1..] == y;
  }

  // ---- what kind of page a path is ----

  /** The segments in front of the id in the conversations of a provider. */
  function Route(provider: string): Option<seq<string>> {
    if provider == "chatgpt" || provider == "grok" then Some(["c"])
    else if provider in {"claude", "mistral", "qwen", "kimi"} then Some(["chat"])
    else if provider == "gemini" then Some(["app"])
    else if provider == "deepseek" then Some(["a", "chat", "s"])
    else if provider == "perplexity" then Some(["search"])
    else if provider == "copilot" then Some(["chats"])
    else None
  }

  /** Pages on which a conversation may begin: the start page, and for some providers one more. */
  predicate IsStartPage(provider: string, segments: seq<string>) {
    segments == [] || (provider == "claude" && segments == ["new"]) || (provider == "gemini" && segments == ["app"])
    || (provider == "mistral" && segments == ["chat"])
  }

  lemma OneSegment(a: string)
    ensures Joined([a]) == "/" + a && PathOf([a]) == "/" + a
  {
    assert [a][1..] == [] && "/" + a + "" == "/" + a;
  }

  lemma RouteIsWritten(provider: string)
    ensures provider in ROUTE_RULES <==> Route(provider).Some?
    ensures provider in ROUTE_RULES ==> ROUTE_RULES[provider].conversation == Joined(Route(provider).value) + "/"
  {
    OneSegment("c");
    OneSegment("chat");
    OneSegment("app");
    OneSegment("search");
    OneSegment("chats");
    OneSegment("s");
    assert Joined(["chat", "s"]) == "/chat/s" by { JoinedHead("chat", ["s"]); assert ["chat"] + ["s"] == ["chat", "s"]; }
    assert Joined(["a", "chat", "s"]) == "/a/chat/s" by {
      JoinedHead("a", ["chat", "s"]);
      assert ["a"] + ["chat", "s"] == ["a", "chat", "s"];
    }
    hide Joined;
  }

  lemma PathOfOneIff(segments: seq<string>, a: string)
    requires AreSegments(segments) && AreSegments([a])
    ensures PathOf(segments) == "/" + a <==> segments == [a]
    ensures PathOf(segments) == "/" <==> segments == []
  {
    OneSegment(a);
    PathOfSegmentsHasThem(segments);
    PathOfSegmentsHasThem([a]);
    PathOfSegmentsHasThem([]);
    assert PathOf([]) == "/";
    hide PathOf, Segments;
  }

  lemma StartPagesAreWritten(provider: string, segments: seq<string>)
    requires AreSegments(segments)
    ensures IsStartPage(provider, segments) <==>
              PathOf(segments) in if provider in ROUTE_RULES then ROUTE_RULES[provider].provisional else DEFAULT_PROVISIONAL_PATHS
  {
    assert AreSegments(["new"]) && AreSegments(["app"]) && AreSegments(["chat"]);
    hide PathOf, AreSegments;
    PathOfOneIff(segments, "new");
    PathOfOneIff(segments, "app");
    PathOfOneIff(segments, "chat");
    assert "/" + "new" == "/new" && "/" + "app" == "/app" && "/" + "chat" == "/chat";
  }

  lemma PathBehindRouteIff(route: seq<string>, segments: seq<string>, id: string)
    requires AreSegments(route) && AreSegments(segments) && AreSegments([id])
    ensures PathOf(segments) == Joined(route) + "/" + id <==> segments == route + [id]
  {
    assert '/' !in [id][0] && [id][0] == id;
    JoinedBack(route, id);
    PathOfSegmentsHasThem(segments);
    SegmentsAcross(Joined(route), id);
    JoinedHasSegments(route);
    SegmentWithoutSlash(id);
    assert segments != [] ==> PathOf(segments) == Joined(segments);
    hide Segments, Joined, PathOf, AreSegments;
  }

  lemma IdOf(prefix: string, path: string) returns (id: string)
    requires IsConversationPath(prefix, path)
    ensures path == prefix + id && AreSegments([id])
  {
    id := path[|prefix|..];
    assert path == path[..|prefix|] + id;
  }

  lemma IdMakesConversation(prefix: string, id: string)
    requires AreSegments([id])
    ensures IsConversationPath(prefix, prefix + id)
  {
    assert [id][0] == id && (prefix + id)[|prefix|..] == id && (prefix + id)[..|prefix|] == prefix;
  }

  lemma OneMoreSegment(route: seq<string>, segments: seq<string>) returns (id: string)
    requires AreSegments(segments) && |segments| == |route| + 1 && segments[..|route|] == route
    ensures AreSegments([id]) && segments == route + [id]
  {
    id := segments[|route|];
    assert segments == segments[..|route|] + [id];
  }

  lemma BehindTheRoute(route: seq<string>, segments: seq<string>)
    requires AreSegments(route) && AreSegments(segments)
    ensures IsConversationPath(Joined(route) + "/", PathOf(segments)) <==>
              |segments| == |route| + 1 && segments[..|route|] == route
  {
    hide IsConversationPath, Joined, PathOf, AreSegments;
    var prefix, path := Joined(route) + "/", PathOf(segments);
    if IsConversationPath(prefix, path) {
      var id := IdOf(prefix, path);
      PathBehindRouteIff(route, segments, id);
      assert segments == route + [id];
    } else if |segments| == |route| + 1 && segments[..|route|] == route {
      var id := OneMoreSegment(route, segments);
      PathBehindRouteIff(route, segments, id);
      IdMakesConversation(prefix, id);
    }
  }

  /**
   The kind of a page depends on its segments only: it is provisional exactly on a start page,
   and a conversation exactly if one more segment, the id, follows the route of its provider.
   */
  lemma KindIs(provider: string, path: string)
    ensures ClassifyConversationPath(provider, path).Provisional? <==> IsStartPage(provider, Segments(path))
    ensures ClassifyConversationPath(provider, path).Conversation? <==>
              && Route(provider).Some? && |Segments(path)| == |Route(provider).value| + 1
              && Segments(path)[..|Route(provider).value|] == Route(provider).value
  {
    NormalFormIs(path);
    SegmentsAreSegments(path);
    RouteIsWritten(provider);
    StartPagesAreWritten(provider, Segments(path));
    hide Segments, NormalizePathname, PathOf, Joined;
    if Route(provider).Some? { BehindTheRoute(Route(provider).value, Segments(path)); }
  }
}
