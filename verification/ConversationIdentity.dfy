/** What identifies a conversation in a browser tab: the provider and the normalised path. */
module ConversationIdentity {

  // ---- paths ----

  /** Runs of slashes become one. */
  function Collapse(s: string): (r: string)
    ensures |r| <= |s| && (s != "" ==> r != "" && r[0] == s[0])
  {
    if |s| < 2 then s
    else if s[0] == '/' && s[1] == '/' then Collapse(s[1..])
    else [s[0]] + Collapse(s[1..])
  }

  function DropTrailingSlashes(s: string): string {
    if s != "" && s[|s| - 1] == '/' then DropTrailingSlashes(s[..|s| - 1]) else s
  }

  function NormalizePathname(pathname: string): string {
    var given := if pathname == "" then "/" else pathname;
    var rooted := if given[0] == '/' then given else "/" + given;
    var collapsed := Collapse(rooted);
    var trimmed := if |collapsed| > 1 then DropTrailingSlashes(collapsed) else collapsed;
    if trimmed == "" then "/" else trimmed
  }

  predicate HasNoDoubleSlash(s: string) {
    forall i :: 0 <= i < |s| - 1 ==> !(s[i] == '/' && s[i + 1] == '/')
  }

  /** The form every normalised path has. */
  predicate IsNormal(s: string) {
    s != "" && s[0] == '/' && HasNoDoubleSlash(s) && (s == "/" || s[|s| - 1] != '/')
  }

  lemma {:induction false} CollapsedHasNoDoubleSlash(s: string)
    ensures HasNoDoubleSlash(Collapse(s))
    ensures HasNoDoubleSlash(s) ==> Collapse(s) == s
  {
    if |s| >= 2 {
      CollapsedHasNoDoubleSlash(s[1..]);
      if HasNoDoubleSlash(s) {
        forall i | 0 <= i < |s| - 2 ensures !(s[1..][i] == '/' && s[1..][i + 1] == '/') {
          assert s[i + 1] == s[1..][i] && s[i + 2] == s[1..][i + 1];
        }
      }
      if !(s[0] == '/' && s[1] == '/') {
        var rest := Collapse(s[1..]);
        assert rest[0] == s[1];
        forall i | 0 <= i < |rest| ensures !(([s[0]] + rest)[i] == '/' && ([s[0]] + rest)[i + 1] == '/') {
          if i > 0 { assert ([s[0]] + rest)[i] == rest[i - 1]; }
        }
      }
    }
  }

  lemma {:induction false} DroppingKeepsTheRest(s: string)
    requires s != "" && s[0] == '/' && HasNoDoubleSlash(s) && |s| > 1
    ensures IsNormal(DropTrailingSlashes(s))
  {
    if s[|s| - 1] == '/' {
      var init := s[..|s| - 1];
      assert s[|s| - 2] != '/';
      assert init[|init| - 1] == s[|s| - 2];
      assert DropTrailingSlashes(init) == init;
      forall i | 0 <= i < |init| - 1 ensures !(init[i] == '/' && init[i + 1] == '/') {
        assert init[i] == s[i] && init[i + 1] == s[i + 1];
      }
    }
  }

  /** Normalising yields the normal form, and leaves it alone: it is idempotent. */
  lemma NormalizingIsIdempotent(pathname: string)
    ensures IsNormal(NormalizePathname(pathname))
    ensures IsNormal(pathname) ==> NormalizePathname(pathname) == pathname
    ensures NormalizePathname(NormalizePathname(pathname)) == NormalizePathname(pathname)
  {
    NormalFormIsReached(pathname);
    NormalFormIsKept(pathname);
    NormalFormIsKept(NormalizePathname(pathname));
  }

  lemma NormalFormIsReached(pathname: string)
    ensures IsNormal(NormalizePathname(pathname))
  {
    var given := if pathname == "" then "/" else pathname;
    var rooted := if given[0] == '/' then given else "/" + given;
    CollapsedHasNoDoubleSlash(rooted);
    var collapsed := Collapse(rooted);
    if |collapsed| > 1 { DroppingKeepsTheRest(collapsed); }
  }

  lemma NormalFormIsKept(pathname: string)
    ensures IsNormal(pathname) ==> NormalizePathname(pathname) == pathname
  {
    CollapsedHasNoDoubleSlash(pathname);
  }

  // ---- routes ----

  datatype Kind = Provisional | Conversation | OtherPath

  /** The paths of a provider that are not yet a conversation, and the prefix of those that are. */
  datatype Routes = Routes(provisional: set<string>, conversation: string)

  const ROUTE_RULES: map<string, Routes> := map[
    "chatgpt" := Routes({"/"}, "/c/"),
    "claude" := Routes({"/", "/new"}, "/chat/"),
    "gemini" := Routes({"/", "/app"}, "/app/"),
    "deepseek" := Routes({"/"}, "/a/chat/s/"),
    "grok" := Routes({"/"}, "/c/"),
    "perplexity" := Routes({"/"}, "/search/"),
    "mistral" := Routes({"/", "/chat"}, "/chat/"),
    "copilot" := Routes({"/"}, "/chats/"),
    "qwen" := Routes({"/"}, "/chat/"),
    "kimi" := Routes({"/"}, "/chat/")
  ]

  const DEFAULT_PROVISIONAL_PATHS: set<string> := {"/"}

  /** The prefix, and then one more component. */
  predicate IsConversationPath(prefix: string, path: string) {
    |path| > |prefix| && path[..|prefix|] == prefix && '/' !in path[|prefix|..]
  }

  function ClassifyConversationPath(provider: string, pathname: string): Kind {
    var value := NormalizePathname(pathname);
    var known := provider in ROUTE_RULES;
    if value in (if known then ROUTE_RULES[provider].provisional else DEFAULT_PROVISIONAL_PATHS) then Provisional
    else if known && IsConversationPath(ROUTE_RULES[provider].conversation, value) then Conversation
    else OtherPath
  }

  // ---- identity ----

  datatype Identity = Identity(provider: string, pathname: string, kind: Kind)

  function ConversationIdentityOf(provider: string, pathname: string): Identity {
    var path := NormalizePathname(pathname);
    Identity(provider, path, ClassifyConversationPath(provider, path))
  }

  function Key(provider: string, pathname: string): string {
    provider + ":" + pathname
  }

  /** The first colon of a key is the one after the provider id. */
  lemma ColonComesLater(p: string, a: string, q: string, b: string)
    requires Key(p, a) == Key(q, b) && ':' !in q
    ensures |p| >= |q|
  {
    var k := Key(p, a);
    assert k[|p|] == ':';
    assert forall i :: 0 <= i < |q| ==> Key(q, b)[i] == q[i];
  }

  /** For provider ids without a colon the key says which provider and which path it is for. */
  lemma KeyIsInjective(p: string, a: string, q: string, b: string)
    requires ':' !in p && ':' !in q
    ensures Key(p, a) == Key(q, b) <==> p == q && a == b
  {
    var k, l := Key(p, a), Key(q, b);
    if k == l {
      ColonComesLater(p, a, q, b);
      ColonComesLater(q, b, p, a);
      assert p == k[..|p|] && q == l[..|q|];
      assert a == k[|p| + 1..] && b == l[|q| + 1..];
    }
  }

  /** With a colon in an id it need not. */
  lemma KeyIsNotInjectiveWithColons()
    ensures exists p, a, q, b :: IsNormal(a) && IsNormal(b) && p != q && Key(p, a) == Key(q, b)
  {
    assert Key("x", "/y:/z") == "x:/y:/z";
    assert Key("x:/y", "/z") == "x:/y:/z";
    assert "x" != "x:/y" && IsNormal("/y:/z") && IsNormal("/z");
  }
}
