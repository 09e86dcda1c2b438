/**
 The binding of the workflow to one conversation in one tab, as the background worker keeps
 it.  A provisional binding may be sealed to the conversation the provider opens for the
 first prompt.  Whoever needs the binding asks for it and goes on after an await: with the
 cached binding it asked, or, if none was cached, with the stored one, which then becomes the
 cached one again.  Anything may happen in between.
 */
module ConversationBinding {
  import opened Wrappers
  import opened ConversationIdentity
  import PathSegments

  const PROVISIONAL_SEAL_AUTH_TTL_MS: nat := 10000

  /** A binding; pin is the number of the explicit pin it stems from. */
  datatype Binding = Binding(tabId: nat, provider: string, pathname: string, provisional: bool, pin: nat)
  {
    function Key(): string {
      ConversationIdentity.Key(provider, pathname)
    }
  }

  datatype Authorization = Authorization(tabId: nat, provider: string, bindingKey: string, expiresAt: nat)

  /** A tab as the browser reports it; no provider stands for an unsupported page. */
  datatype Tab = Tab(id: nat, provider: Option<string>, path: string)

  /** What an await for the binding will yield, and whether the cache was empty. */
  datatype Held = Held(binding: Option<Binding>, reloads: bool)

  /** What is waiting for the binding. */
  datatype Waiting =
    | Lookup(held: Held)
    | Submitting(held: Held, tab: Tab)
    | Sealing(held: Held, tab: Tab, authorization: Authorization, begunAt: nat)

  // ---- what has happened ----

  datatype Submit = Submit(tabId: nat, bindingKey: string, at: nat)

  datatype Seal = Seal(from: Binding, to: Binding, begunAt: nat, submit: Submit)

  type JobId = nat

  datatype World = World(
    cache: Option<Binding>,
    stored: Option<Binding>,
    authorization: Option<Authorization>,
    waiting: map<JobId, Waiting>,
    pins: nat,
    submits: set<Submit>,
    seals: seq<Seal>)

  datatype Event =
    | Pin(tab: Tab)
    | Clear
    | BeginLookup(id: JobId)
    | BeginSubmit(id: JobId, tab: Tab)
    | BeginSeal(id: JobId, tab: Tab, now: nat)
    | Expire
    | FinishLookup(id: JobId)
    | FinishSubmit(id: JobId, now: nat)
    | FinishSeal(id: JobId, submit: Submit)
    | Evict

  predicate Initial(w: World) {
    w == World(None, None, None, map[], 0, {}, [])
  }

  function Pinned(tab: Tab, pin: nat): Binding
    requires tab.provider.Some?
  {
    var identity := ConversationIdentityOf(tab.provider.value, tab.path);
    Binding(tab.id, tab.provider.value, identity.pathname, identity.kind == Provisional, pin)
  }

  function HeldNow(w: World): Held {
    if w.cache.Some? then Held(w.cache, false) else Held(w.stored, true)
  }

  predicate IsFor(s: Submit, a: Authorization) {
    s.tabId == a.tabId && s.bindingKey == a.bindingKey && a.expiresAt == s.at + PROVISIONAL_SEAL_AUTH_TTL_MS
  }

  predicate Enabled(w: World, e: Event) {
    match e
    case Pin(tab) => tab.provider.Some?
    case Clear => true
    case BeginLookup(id) => id !in w.waiting
    case BeginSubmit(id, _) => id !in w.waiting
    case BeginSeal(id, tab, now) =>
      id !in w.waiting && w.authorization.Some? && now <= w.authorization.value.expiresAt
      && w.authorization.value.tabId == tab.id
    case Expire => true
    case FinishLookup(id) => id in w.waiting && w.waiting[id].Lookup?
    case FinishSubmit(id, _) => id in w.waiting && w.waiting[id].Submitting?
    case FinishSeal(id, submit) =>
      id in w.waiting && w.waiting[id].Sealing? && submit in w.submits && IsFor(submit, w.waiting[id].authorization)
    case Evict => true
  }

  /** The await is over. */
  function Resumed(w: World, id: JobId): World
    requires id in w.waiting
  {
    var held := w.waiting[id].held;
    w.(cache := if held.reloads then held.binding else w.cache,
       waiting := w.waiting - {id})
  }

  /** What an attempt to seal comes to. */
  datatype Outcome = Mismatch | OtherProvider | NotYet | Seals(to: Binding)

  predicate IsAuthorized(b: Option<Binding>, a: Authorization) {
    b.Some? && b.value.provisional && b.value.tabId == a.tabId && b.value.provider == a.provider
    && b.value.Key() == a.bindingKey
  }

  function OutcomeOf(b: Option<Binding>, a: Authorization, tab: Tab): Outcome {
    if !IsAuthorized(b, a) then Mismatch
    else if tab.provider != Some(b.value.provider) then OtherProvider
    else
      var identity := ConversationIdentityOf(b.value.provider, tab.path);
      if identity.kind != Conversation then NotYet
      else Seals(Binding(b.value.tabId, b.value.provider, identity.pathname, false, b.value.pin))
  }

  function Cleared(w: World): World {
    w.(cache := None, stored := None, authorization := None)
  }

  function Apply(w: World, e: Event): World
    requires Enabled(w, e)
  {
    match e
    case Pin(tab) =>
      var b := Some(Pinned(tab, w.pins + 1));
      w.(cache := b, stored := b, pins := w.pins + 1)
    case Clear => Cleared(w)
    case BeginLookup(id) => w.(waiting := w.waiting[id := Lookup(HeldNow(w))])
    case BeginSubmit(id, tab) => w.(waiting := w.waiting[id := Submitting(HeldNow(w), tab)])
    case BeginSeal(id, tab, now) =>
      w.(waiting := w.waiting[id := Sealing(HeldNow(w), tab, w.authorization.value, now)])
    case Expire => w.(authorization := None)
    case FinishLookup(id) => Resumed(w, id)
    case FinishSubmit(id, now) =>
      var b, tab, w' := w.waiting[id].held.binding, w.waiting[id].tab, Resumed(w, id);
      if b.None? || !b.value.provisional || b.value.tabId != tab.id || Some(b.value.provider) != tab.provider then w'
      else
        w'.(authorization := Some(Authorization(b.value.tabId, b.value.provider, b.value.Key(),
                                                now + PROVISIONAL_SEAL_AUTH_TTL_MS)),
            submits := w.submits + {Submit(tab.id, b.value.Key(), now)})
    case FinishSeal(id, submit) =>
      var job, w' := w.waiting[id], Resumed(w, id);
      match OutcomeOf(job.held.binding, job.authorization, job.tab) {
        case Mismatch => w'.(authorization := None)
        case OtherProvider => Cleared(w')
        case NotYet => w'
        case Seals(to) =>
          w'.(cache := Some(to), stored := Some(to), authorization := None,
              seals := w.seals + [Seal(job.held.binding.value, to, job.begunAt, submit)])
      }
    case Evict => w.(cache := None, authorization := None, waiting := map[])
  }

  // ---- jobs whose binding is not current any more ----

  /** A job goes on with another binding than it would be given now. */
  predicate IsOutdated(w: World, e: Event) {
    (e.FinishLookup? || e.FinishSubmit? || e.FinishSeal?)
    && e.id in w.waiting && w.waiting[e.id].held.binding != HeldNow(w).binding
  }

  /** It found the cache empty, and puts into it what it read then. */
  predicate PutsBack(w: World, e: Event) {
    IsOutdated(w, e) && w.waiting[e.id].held.reloads
  }

  predicate SealsWith(w: World, e: Event) {
    e.FinishSeal? && e.id in w.waiting && w.waiting[e.id].Sealing?
    && OutcomeOf(w.waiting[e.id].held.binding, w.waiting[e.id].authorization, w.waiting[e.id].tab).Seals?
  }

  /** It seals the binding it was given then. */
  predicate SealsOutdated(w: World, e: Event) {
    IsOutdated(w, e) && SealsWith(w, e)
  }

  ghost predicate IsRun(trail: seq<World>) {
    && trail != [] && Initial(trail[0])
    && forall i :: 0 <= i < |trail| - 1 ==> StepAt(trail, i)
  }

  ghost predicate StepAt(trail: seq<World>, i: nat)
    requires i < |trail| - 1
  {
    exists e :: Leads(trail, i, e)
  }

  /** The step from moment i to the next may be e. */
  ghost predicate Leads(trail: seq<World>, i: nat, e: Event) {
    i < |trail| - 1 && Enabled(trail[i], e) && trail[i + 1] == Apply(trail[i], e)
  }

  ghost predicate PutsBackAt(trail: seq<World>, i: nat) {
    exists e :: Leads(trail, i, e) && PutsBack(trail[i], e)
  }

  ghost predicate SealsOutdatedAt(trail: seq<World>, i: nat) {
    exists e :: Leads(trail, i, e) && SealsOutdated(trail[i], e)
  }

  // ---- what every step keeps ----

  /** An authorization stems from a confirmed submit in the tab it names. */
  ghost predicate IsBacked(w: World, a: Authorization) {
    exists s :: s in w.submits && IsFor(s, a)
  }

  predicate IsProper(s: Seal, submits: set<Submit>) {
    && s.submit in submits
    && s.from.provisional && !s.to.provisional && s.to.pin == s.from.pin
    && s.to.tabId == s.from.tabId == s.submit.tabId && s.to.provider == s.from.provider
    && ClassifyConversationPath(s.to.provider, s.to.pathname) == Conversation
    && s.submit.bindingKey == s.from.Key()
    && s.begunAt <= s.submit.at + PROVISIONAL_SEAL_AUTH_TTL_MS
  }

  ghost predicate SealInv(w: World) {
    && (w.authorization.Some? ==> IsBacked(w, w.authorization.value))
    && (forall id :: id in w.waiting && w.waiting[id].Sealing? ==>
          IsBacked(w, w.waiting[id].authorization) && w.waiting[id].begunAt <= w.waiting[id].authorization.expiresAt)
    && (forall i :: 0 <= i < |w.seals| ==> IsProper(w.seals[i], w.submits))
  }

  predicate PinFits(w: World, b: Option<Binding>) {
    b.Some? ==> b.value.pin <= w.pins
  }

  /** No binding is from a later pin than the last one. */
  ghost predicate PinInv(w: World) {
    && PinFits(w, w.cache) && PinFits(w, w.stored)
    && (forall id :: id in w.waiting ==> PinFits(w, w.waiting[id].held.binding))
    && (forall i :: 0 <= i < |w.seals| ==> w.seals[i].from.pin <= w.pins)
  }

  /** As long as nothing outdated has come in: the cache is what is stored, and each pin is sealed once. */
  ghost predicate OrderInv(w: World) {
    && (w.cache.Some? ==> w.cache == w.stored)
    && (forall i, j :: 0 <= i < j < |w.seals| ==> w.seals[i].from.pin < w.seals[j].from.pin)
    && (w.stored.Some? ==> forall i :: 0 <= i < |w.seals| ==>
          w.seals[i].from.pin <= w.stored.value.pin
          && (w.stored.value.provisional ==> w.seals[i].from.pin < w.stored.value.pin))
  }

  lemma SealIsProper(w: World, e: Event)
    requires SealInv(w) && Enabled(w, e) && e.FinishSeal?
    requires OutcomeOf(w.waiting[e.id].held.binding, w.waiting[e.id].authorization, w.waiting[e.id].tab).Seals?
    ensures var job := w.waiting[e.id];
            IsProper(Seal(job.held.binding.value, OutcomeOf(job.held.binding, job.authorization, job.tab).to,
                          job.begunAt, e.submit), w.submits)
  {
    hide NormalizePathname, ClassifyConversationPath;
  }

  lemma BackingStays(w: World, w': World)
    requires w.submits <= w'.submits
    ensures forall a :: IsBacked(w, a) ==> IsBacked(w', a)
    ensures forall s :: IsProper(s, w.submits) ==> IsProper(s, w'.submits)
  {
  }

  lemma SealsKeep(w: World, e: Event)
    requires SealInv(w) && Enabled(w, e)
    ensures SealInv(Apply(w, e))
  {
    var w' := Apply(w, e);
    BackingStays(w, w');
    if e.FinishSeal? {
      if OutcomeOf(w.waiting[e.id].held.binding, w.waiting[e.id].authorization, w.waiting[e.id].tab).Seals? {
        SealIsProper(w, e);
      }
    } else if e.FinishSubmit? && w'.authorization != w.authorization {
      var b, tab := w.waiting[e.id].held.binding.value, w.waiting[e.id].tab;
      assert IsFor(Submit(tab.id, b.Key(), e.now), w'.authorization.value);
    }
    hide IsProper, OutcomeOf, IsBacked;
  }

  lemma PinsKeep(w: World, e: Event)
    requires PinInv(w) && Enabled(w, e)
    ensures PinInv(Apply(w, e))
  {
    hide NormalizePathname, ClassifyConversationPath;
  }

  lemma OrderKeeps(w: World, e: Event)
    requires OrderInv(w) && PinInv(w) && Enabled(w, e) && !PutsBack(w, e) && !SealsOutdated(w, e)
    ensures OrderInv(Apply(w, e))
  {
    hide NormalizePathname, ClassifyConversationPath;
  }

  lemma {:induction false} RunKeeps(trail: seq<World>, n: nat)
    requires IsRun(trail) && n < |trail|
    ensures SealInv(trail[n]) && PinInv(trail[n])
  {
    hide Enabled, Apply;
    if n > 0 {
      hide SealInv, PinInv, Initial;
      RunKeeps(trail, n - 1);
      assert StepAt(trail, n - 1);
      var e :| Leads(trail, n - 1, e);
      SealsKeep(trail[n - 1], e);
      PinsKeep(trail[n - 1], e);
    }
  }

  lemma {:induction false} OrderUntilOutdated(trail: seq<World>, n: nat)
    requires IsRun(trail) && n < |trail|
    requires forall k :: 0 <= k < n ==> !PutsBackAt(trail, k) && !SealsOutdatedAt(trail, k)
    ensures OrderInv(trail[n])
  {
    hide Enabled, Apply, PinInv, SealInv, PutsBack, SealsOutdated;
    if n > 0 {
      hide OrderInv, Initial;
      OrderUntilOutdated(trail, n - 1);
      RunKeeps(trail, n - 1);
      assert StepAt(trail, n - 1);
      var e :| Leads(trail, n - 1, e);
      assert !PutsBackAt(trail, n - 1) && !SealsOutdatedAt(trail, n - 1);
      OrderKeeps(trail[n - 1], e);
    }
  }

  // ---- the paths of bindings ----

  /** A binding has a normal path, and is provisional exactly if that is a start page of its provider. */
  predicate HasNormalPath(b: Option<Binding>) {
    b.Some? ==>
      && IsNormal(b.value.pathname)
      && (b.value.provisional <==> ClassifyConversationPath(b.value.provider, b.value.pathname) == Provisional)
  }

  ghost predicate BindingsHavePaths(w: World) {
    && HasNormalPath(w.cache) && HasNormalPath(w.stored)
    && forall id :: id in w.waiting ==> HasNormalPath(w.waiting[id].held.binding)
  }

  ghost predicate SealsHavePaths(w: World) {
    forall i :: 0 <= i < |w.seals| ==> HasNormalPath(Some(w.seals[i].from))
  }

  ghost predicate PathsInv(w: World) {
    BindingsHavePaths(w) && SealsHavePaths(w)
  }

  lemma PathsKeep(w: World, e: Event)
    requires PathsInv(w) && Enabled(w, e)
    ensures PathsInv(Apply(w, e))
  {
    if e.FinishSeal? {
      SealKeepsPaths(w, e);
    } else {
      hide HasNormalPath, ConversationIdentityOf, OutcomeOf, Pinned;
      if e.Pin? { PinnedHasNormalPath(e.tab, w.pins + 1); }
    }
  }

  lemma PinnedHasNormalPath(tab: Tab, pin: nat)
    requires tab.provider.Some?
    ensures HasNormalPath(Some(Pinned(tab, pin)))
  {
    IdentityIsNormal(tab.provider.value, tab.path);
    hide NormalizePathname, ClassifyConversationPath, IsNormal, ConversationIdentityOf;
  }

  lemma SealedHasNormalPath(b: Option<Binding>, a: Authorization, tab: Tab)
    requires OutcomeOf(b, a, tab).Seals?
    ensures HasNormalPath(Some(OutcomeOf(b, a, tab).to))
  {
    IdentityIsNormal(b.value.provider, tab.path);
    hide NormalizePathname, ClassifyConversationPath, IsNormal, ConversationIdentityOf;
  }

  lemma SealKeepsBindings(w: World, e: Event)
    requires BindingsHavePaths(w) && Enabled(w, e) && e.FinishSeal?
    ensures BindingsHavePaths(Apply(w, e))
  {
    var job := w.waiting[e.id];
    if OutcomeOf(job.held.binding, job.authorization, job.tab).Seals? {
      SealedHasNormalPath(job.held.binding, job.authorization, job.tab);
    }
    assert HasNormalPath(None) && HasNormalPath(job.held.binding);
    hide HasNormalPath, OutcomeOf;
  }

  lemma SealKeepsSeals(w: World, e: Event)
    requires BindingsHavePaths(w) && SealsHavePaths(w) && Enabled(w, e) && e.FinishSeal?
    ensures SealsHavePaths(Apply(w, e))
  {
    var job := w.waiting[e.id];
    assert HasNormalPath(job.held.binding);
    hide HasNormalPath, OutcomeOf, BindingsHavePaths;
  }

  lemma SealKeepsPaths(w: World, e: Event)
    requires PathsInv(w) && Enabled(w, e) && e.FinishSeal?
    ensures PathsInv(Apply(w, e))
  {
    hide BindingsHavePaths, SealsHavePaths, Enabled, Apply;
    SealKeepsBindings(w, e);
    SealKeepsSeals(w, e);
  }

  lemma IdentityIsNormal(provider: string, path: string)
    ensures var identity := ConversationIdentityOf(provider, path);
            IsNormal(identity.pathname) && identity.kind == ClassifyConversationPath(provider, identity.pathname)
  {
    NormalizingIsIdempotent(path);
    hide NormalizePathname, ClassifyConversationPath;
  }

  lemma {:induction false} PathsAreNormal(trail: seq<World>, n: nat)
    requires IsRun(trail) && n < |trail|
    ensures PathsInv(trail[n])
  {
    hide Enabled, Apply;
    if n > 0 {
      hide PathsInv, Initial;
      PathsAreNormal(trail, n - 1);
      assert StepAt(trail, n - 1);
      var e :| Leads(trail, n - 1, e);
      PathsKeep(trail[n - 1], e);
    }
  }

  // ---- the main results ----

  /**
   The promise of sealing, at every moment of every run: each seal led from a provisional
   binding to a conversation of the same provider in the same tab, begun within the time
   limit of a submit that was confirmed for that very binding.
   */
  lemma SealsAreProper(trail: seq<World>, n: nat, i: nat)
    requires IsRun(trail) && n < |trail| && i < |trail[n].seals|
    ensures var s := trail[n].seals[i];
            && s.submit in trail[n].submits
            && s.from.provisional && !s.to.provisional
            && s.to.tabId == s.from.tabId == s.submit.tabId && s.to.provider == s.from.provider
            && ClassifyConversationPath(s.to.provider, s.to.pathname) == Conversation
            && s.submit.bindingKey == s.from.Key()
            && s.begunAt <= s.submit.at + 10_000
            && PathSegments.IsStartPage(s.from.provider, PathSegments.Segments(s.from.pathname))
  {
    hide IsRun;
    RunKeeps(trail, n);
    PathsAreNormal(trail, n);
    assert HasNormalPath(Some(trail[n].seals[i].from));
    PathSegments.KindIs(trail[n].seals[i].from.provider, trail[n].seals[i].from.pathname);
    hide ClassifyConversationPath, NormalizePathname, PathSegments.IsStartPage;
    assert IsProper(trail[n].seals[i], trail[n].submits);
  }

  predicate EachPinIsSealedOnce(w: World) {
    forall i, j :: 0 <= i < j < |w.seals| ==> w.seals[i].from.pin != w.seals[j].from.pin
  }

  predicate IsSealed(w: World, pin: nat) {
    exists i :: 0 <= i < |w.seals| && w.seals[i].from.pin == pin
  }

  /** A job seals a binding whose pin has been sealed already. */
  predicate Reseals(w: World, e: Event) {
    SealsWith(w, e) && IsSealed(w, w.waiting[e.id].held.binding.value.pin)
  }

  ghost predicate ResealsAt(trail: seq<World>, i: nat) {
    exists e :: Leads(trail, i, e) && Reseals(trail[i], e)
  }

  lemma ResealBreaksIff(w: World, e: Event)
    requires Enabled(w, e)
    ensures EachPinIsSealedOnce(Apply(w, e)) <==> EachPinIsSealedOnce(w) && !Reseals(w, e)
  {
    hide NormalizePathname, ClassifyConversationPath;
    var w' := Apply(w, e);
    assert |w.seals| <= |w'.seals| && w'.seals[..|w.seals|] == w.seals;
    assert forall i :: 0 <= i < |w.seals| ==> w'.seals[i] == w.seals[i];
    if SealsWith(w, e) {
      assert |w'.seals| == |w.seals| + 1 && w'.seals[|w.seals|].from == w.waiting[e.id].held.binding.value;
    } else {
      assert w'.seals == w.seals;
    }
  }

  /** Each pin is sealed at most once exactly if no job seals a binding whose pin is sealed already. */
  lemma {:induction false} EachPinIsSealedOnceIff(trail: seq<World>, n: nat)
    requires IsRun(trail) && n < |trail|
    ensures EachPinIsSealedOnce(trail[n]) <==> forall k :: 0 <= k < n ==> !ResealsAt(trail, k)
  {
    hide Enabled, Apply, Reseals;
    if n > 0 {
      hide EachPinIsSealedOnce, Initial;
      EachPinIsSealedOnceIff(trail, n - 1);
      assert StepAt(trail, n - 1);
      var e :| Leads(trail, n - 1, e);
      ResealBreaksIff(trail[n - 1], e);
      if ResealsAt(trail, n - 1) {
        var other :| Leads(trail, n - 1, other) && Reseals(trail[n - 1], other);
        ResealBreaksIff(trail[n - 1], other);
      }
    }
  }

  /** Without an outdated job before it, the job that reseals a pin is outdated itself. */
  lemma ResealIsOutdated(trail: seq<World>, n: nat, e: Event)
    requires IsRun(trail) && Leads(trail, n, e) && Reseals(trail[n], e)
    requires forall k :: 0 <= k < n ==> !PutsBackAt(trail, k) && !SealsOutdatedAt(trail, k)
    ensures SealsOutdated(trail[n], e)
  {
    hide IsRun, StepAt, PutsBackAt, SealsOutdatedAt, NormalizePathname, ClassifyConversationPath;
    OrderUntilOutdated(trail, n);
  }

  /** An attempt to seal with the cached binding goes on at once. */
  ghost predicate CachedAttemptsAreAtomic(trail: seq<World>, i: nat) {
    forall id :: i < |trail| - 1 && HasCachedAttempt(trail[i], id) ==>
      exists submit :: Leads(trail, i, Event.FinishSeal(id, submit))
  }

  predicate HasCachedAttempt(w: World, id: JobId) {
    id in w.waiting && w.waiting[id].Sealing? && !w.waiting[id].held.reloads
  }

  lemma CachedAttemptEnds(trail: seq<World>, i: nat, id: JobId)
    requires i < |trail| - 1 && CachedAttemptsAreAtomic(trail, i)
    ensures HasCachedAttempt(trail[i], id) ==> id !in trail[i + 1].waiting
  {
    if HasCachedAttempt(trail[i], id) {
      var submit :| Leads(trail, i, Event.FinishSeal(id, submit));
    }
  }

  lemma CachedAttemptBegins(w: World, e: Event, id: JobId)
    requires Enabled(w, e) && HasCachedAttempt(Apply(w, e), id) && !HasCachedAttempt(w, id)
    ensures Apply(w, e).cache.Some? && Apply(w, e).waiting[id].held.binding == Apply(w, e).cache
  {
    hide NormalizePathname, ClassifyConversationPath, OutcomeOf;
  }

  lemma CachedAttemptsAreCurrent(trail: seq<World>, n: nat, id: JobId)
    requires IsRun(trail) && n < |trail| && HasCachedAttempt(trail[n], id)
    requires forall k :: 0 <= k < n ==> CachedAttemptsAreAtomic(trail, k)
    ensures trail[n].waiting[id].held.binding == HeldNow(trail[n]).binding
  {
    if n > 0 {
      assert StepAt(trail, n - 1) && CachedAttemptsAreAtomic(trail, n - 1);
      hide IsRun, Enabled, Apply, CachedAttemptsAreAtomic;
      var e :| Leads(trail, n - 1, e);
      CachedAttemptEnds(trail, n - 1, id);
      CachedAttemptBegins(trail[n - 1], e, id);
    }
  }

  /**
   So each pin is sealed at most once in every run in which attempts with the cached binding
   go on at once and no job puts an outdated binding back into the cache.
   */
  lemma AtomicRunsSealOnce(trail: seq<World>, n: nat)
    requires IsRun(trail) && n < |trail|
    requires forall k :: 0 <= k < n ==> CachedAttemptsAreAtomic(trail, k) && !PutsBackAt(trail, k)
    ensures EachPinIsSealedOnce(trail[n])
  {
    hide IsRun, CachedAttemptsAreAtomic, Enabled, Apply;
    forall k | 0 <= k < n ensures !SealsOutdatedAt(trail, k) {
      if SealsOutdatedAt(trail, k) {
        var e :| Leads(trail, k, e) && SealsOutdated(trail[k], e);
        assert !PutsBackAt(trail, k);
        if !trail[k].waiting[e.id].held.reloads {
          CachedAttemptsAreCurrent(trail, k, e.id);
        }
      }
    }
    OrderUntilOutdated(trail, n);
  }

  /**
   Once the workflow is bound to a conversation, only a pin, a clear or the eviction of the
   worker takes that binding out of the cache, or a job that goes on with an outdated one.
   An attempt to seal that is not outdated never does.
   */
  lemma SealedBindingStays(trail: seq<World>, n: nat, e: Event)
    requires IsRun(trail) && Leads(trail, n, e)
    requires trail[n].cache.Some? && !trail[n].cache.value.provisional && !IsOutdated(trail[n], e)
    ensures trail[n + 1].cache != trail[n].cache <==> e.Pin? || e.Clear? || e.Evict?
  {
    hide IsRun, NormalizePathname, ClassifyConversationPath;
    RunKeeps(trail, n);
  }

  // ---- when a tab shows the bound conversation ----

  /**
   A page of the bound provider has the key of the binding exactly if it is made of the same
   segments; slashes that are doubled or at the end do not matter.
   */
  lemma TabShowsBindingIff(trail: seq<World>, n: nat, path: string)
    requires IsRun(trail) && n < |trail| && HeldNow(trail[n]).binding.Some?
    ensures var b := HeldNow(trail[n]).binding.value;
            ConversationIdentity.Key(b.provider, NormalizePathname(path)) == b.Key()
            <==> PathSegments.Segments(path) == PathSegments.Segments(b.pathname)
  {
    hide IsRun, NormalizePathname;
    PathsAreNormal(trail, n);
    var b := HeldNow(trail[n]).binding.value;
    NormalizingIsIdempotent(b.pathname);
    PathSegments.SameKeyIff(b.provider, path, b.pathname);
  }

  // ---- what an outdated job can do ----

  lemma OneStepMore(trail: seq<World>, e: Event) returns (longer: seq<World>)
    requires IsRun(trail) && Enabled(trail[|trail| - 1], e)
    ensures IsRun(longer) && longer == trail + [Apply(trail[|trail| - 1], e)]
  {
    hide Initial, Enabled, Apply;
    longer := trail + [Apply(trail[|trail| - 1], e)];
    forall i | 0 <= i < |longer| - 1 ensures StepAt(longer, i) {
      if i < |trail| - 1 {
        assert StepAt(trail, i);
        var before :| Leads(trail, i, before);
        assert Leads(longer, i, before);
      } else {
        assert longer[i] == trail[|trail| - 1];
        assert Leads(longer, i, e);
      }
    }
  }

  const START := World(None, None, None, map[], 0, {}, [])

  /** A lookup that found the cache empty comes back after a new pin, and undoes it in the cache. */
  lemma LateLookupUndoesPin(first: Tab, second: Tab) returns (trail: seq<World>)
    requires first.provider.Some? && second.provider.Some?
    ensures IsRun(trail)
    ensures var w := trail[|trail| - 1];
            w.pins == 2 && w.cache == Some(Pinned(first, 1)) && w.stored == Some(Pinned(second, 2))
  {
    trail := [START];
    assert IsRun(trail);
    hide IsRun, NormalizePathname, ClassifyConversationPath;
    trail := OneStepMore(trail, Pin(first));
    trail := OneStepMore(trail, Evict);
    trail := OneStepMore(trail, BeginLookup(0));
    trail := OneStepMore(trail, Pin(second));
    trail := OneStepMore(trail, FinishLookup(0));
  }

  /** A tab at its start, and the same tab at two conversations it may come to. */
  predicate AreBranches(home: Tab, one: Tab, other: Tab) {
    && home.id == one.id == other.id && home.provider.Some? && home.provider == one.provider == other.provider
    && ConversationIdentityOf(home.provider.value, home.path).kind == Provisional
    && ConversationIdentityOf(home.provider.value, one.path).kind == Conversation
    && ConversationIdentityOf(home.provider.value, other.path).kind == Conversation
  }

  lemma SomeTabsBranch()
    ensures AreBranches(Tab(1, Some("chatgpt"), "/"), Tab(1, Some("chatgpt"), "/c/1"), Tab(1, Some("chatgpt"), "/c/2"))
  {
    NormalizingIsIdempotent("/");
    NormalizingIsIdempotent("/c/1");
    NormalizingIsIdempotent("/c/2");
    hide NormalizePathname;
    assert "/c/1"[..3] == "/c/" && "/c/2"[..3] == "/c/";
    assert IsConversationPath("/c/", "/c/1") && IsConversationPath("/c/", "/c/2");
  }

  function SealedPin(home: Tab, landed: Tab): Binding
    requires home.provider.Some?
  {
    Binding(home.id, home.provider.value, ConversationIdentityOf(home.provider.value, landed.path).pathname, false, 1)
  }

  /** One pin has been sealed to both conversations. */
  predicate IsSealedTwice(w: World, home: Tab, one: Tab, other: Tab)
    requires home.provider.Some?
  {
    && |w.seals| == 2 && w.seals[0].from == w.seals[1].from == Pinned(home, 1)
    && w.seals[0].to == SealedPin(home, one) && w.seals[1].to == SealedPin(home, other)
  }

  /** Two attempts wait with the cached binding at once: both seal it. */
  lemma PinSealedTwice(home: Tab, one: Tab, other: Tab) returns (trail: seq<World>)
    requires AreBranches(home, one, other)
    ensures IsRun(trail) && IsSealedTwice(trail[|trail| - 1], home, one, other)
    ensures forall k :: 0 <= k < |trail| ==> !PutsBackAt(trail, k)
  {
    var before := TwoHoldTheCached(home, one, other);
    var last := before[|before| - 1];
    hide IsRun, Pinned, IsSealedTwice, AreBranches;
    trail := BothSeal(before, 1, 2, home, one, other);
    forall k | 0 <= k < |trail| ensures !PutsBackAt(trail, k) {
      if k < |before| { assert trail[k] == before[k]; } else { assert !Reloads(last); }
      NothingToPutBack(trail, k);
    }
  }

  /** Some job found the cache empty. */
  predicate Reloads(w: World) {
    exists id :: id in w.waiting && w.waiting[id].held.reloads
  }

  lemma NothingToPutBack(trail: seq<World>, i: nat)
    requires i < |trail| && !Reloads(trail[i])
    ensures !PutsBackAt(trail, i)
  {
  }

  lemma TwoHoldTheCached(home: Tab, one: Tab, other: Tab) returns (trail: seq<World>)
    requires AreBranches(home, one, other)
    ensures IsRun(trail) && forall k :: 0 <= k < |trail| ==> !Reloads(trail[k])
    ensures var w, b := trail[|trail| - 1], Pinned(home, 1);
            && w.seals == [] && Submit(home.id, b.Key(), 0) in w.submits
            && AttemptHolds(w, 1, b, one) && AttemptHolds(w, 2, b, other)
  {
    trail := [START];
    assert IsRun(trail);
    hide IsRun, Pinned;
    trail := OneStepMore(trail, Pin(home));
    trail := SubmitIsConfirmed(trail, 0, home);
    trail := OneStepMore(trail, BeginSeal(1, one, 0));
    trail := OneStepMore(trail, BeginSeal(2, other, 0));
  }

  /** A lookup empties the cache after a pin, and two attempts then read the stored binding. */
  lemma PinSealedTwiceAfterPutBack(home: Tab, one: Tab, other: Tab) returns (trail: seq<World>)
    requires AreBranches(home, one, other)
    ensures IsRun(trail) && IsSealedTwice(trail[|trail| - 1], home, one, other)
    ensures forall k :: 0 <= k < |trail| ==> CachedAttemptsAreAtomic(trail, k)
  {
    var before := TwoReadTheStored(home, one, other);
    var last := before[|before| - 1];
    hide IsRun, CachedAttemptsAreAtomic, IsSealedTwice, AreBranches;
    trail := BothSeal(before, 2, 3, home, one, other);
    forall k | 0 <= k < |trail| ensures CachedAttemptsAreAtomic(trail, k) {
      if k == |before| {
        assert forall id :: HasCachedAttempt(trail[k], id) ==> HasCachedAttempt(last, id);
      } else if k < |before| {
        assert trail[k] == before[k];
      }
      NothingToFinish(trail, k);
    }
  }

  lemma NothingToFinish(trail: seq<World>, i: nat)
    requires i < |trail|
    requires i < |trail| - 1 ==> forall id :: !HasCachedAttempt(trail[i], id)
    ensures CachedAttemptsAreAtomic(trail, i)
  {
  }

  ghost predicate NothingIsCached(trail: seq<World>) {
    forall k, id :: 0 <= k < |trail| ==> !HasCachedAttempt(trail[k], id)
  }

  lemma TwoReadTheStored(home: Tab, one: Tab, other: Tab) returns (trail: seq<World>)
    requires AreBranches(home, one, other)
    ensures IsRun(trail) && NothingIsCached(trail)
    ensures var w, b := trail[|trail| - 1], Pinned(home, 1);
            && w.seals == [] && Submit(home.id, b.Key(), 0) in w.submits
            && AttemptHolds(w, 2, b, one) && AttemptHolds(w, 3, b, other)
  {
    trail := LookupEmptiesTheCache(home);
    hide IsRun, Pinned;
    trail := OneStepMore(trail, BeginSeal(2, one, 0));
    trail := OneStepMore(trail, BeginSeal(3, other, 0));
  }

  lemma LookupEmptiesTheCache(home: Tab) returns (trail: seq<World>)
    requires home.provider.Some? && ConversationIdentityOf(home.provider.value, home.path).kind == Provisional
    ensures IsRun(trail) && NothingIsCached(trail)
    ensures var w, b := trail[|trail| - 1], Pinned(home, 1);
            w.cache == None && w.stored == Some(b) && w.waiting == map[] && w.seals == [] && HasSubmit(w, b)
  {
    trail := [START];
    assert IsRun(trail);
    hide IsRun, Pinned;
    trail := OneStepMore(trail, BeginLookup(0));
    trail := OneStepMore(trail, Pin(home));
    trail := SubmitIsConfirmed(trail, 1, home);
    trail := OneStepMore(trail, FinishLookup(0));
  }

  predicate HasSubmit(w: World, b: Binding) {
    && Submit(b.tabId, b.Key(), 0) in w.submits
    && w.authorization == Some(Authorization(b.tabId, b.provider, b.Key(), PROVISIONAL_SEAL_AUTH_TTL_MS))
  }

  /** The pinned tab gets a prompt and confirms it. */
  lemma SubmitIsConfirmed(before: seq<World>, id: JobId, home: Tab) returns (trail: seq<World>)
    requires home.provider.Some? && ConversationIdentityOf(home.provider.value, home.path).kind == Provisional
    requires IsRun(before) && id !in before[|before| - 1].waiting
    requires before[|before| - 1].cache == Some(Pinned(home, 1))
    ensures IsRun(trail) && (NothingIsCached(before) ==> NothingIsCached(trail))
    ensures |trail| == |before| + 2 && before <= trail
    ensures Reloads(trail[|before|]) ==> Reloads(before[|before| - 1])
    ensures var w, b := trail[|trail| - 1], Pinned(home, 1);
            HasSubmit(w, b) && w == before[|before| - 1].(authorization := w.authorization, submits := w.submits)
  {
    var was := before[|before| - 1];
    hide IsRun, NormalizePathname, ClassifyConversationPath;
    var asked := OneStepMore(before, BeginSubmit(id, home));
    var submitting := Submitting(HeldNow(was), home);
    assert asked[|before|].waiting == was.waiting[id := submitting];
    trail := OneStepMore(asked, FinishSubmit(id, 0));
    assert trail[|trail| - 1].waiting == was.waiting;
    if NothingIsCached(before) {
      forall k, j | 0 <= k < |trail| ensures !HasCachedAttempt(trail[k], j) {
        assert !HasCachedAttempt(was, j);
      }
    }
  }

  /** Both attempts hold the first pin, and go on one after the other. */
  lemma BothSeal(before: seq<World>, first: JobId, second: JobId, home: Tab, one: Tab, other: Tab)
    returns (trail: seq<World>)
    requires AreBranches(home, one, other) && IsRun(before) && first != second
    requires var w, b := before[|before| - 1], Pinned(home, 1);
             && w.seals == [] && Submit(home.id, b.Key(), 0) in w.submits
             && AttemptHolds(w, first, b, one) && AttemptHolds(w, second, b, other)
    ensures IsRun(trail) && |trail| == |before| + 2 && before <= trail
    ensures IsSealedTwice(trail[|trail| - 1], home, one, other)
    ensures trail[|before|].waiting == before[|before| - 1].waiting - {first}
    ensures trail[|before| + 1].waiting == before[|before| - 1].waiting - {first, second}
  {
    hide IsRun, NormalizePathname, ClassifyConversationPath, ConversationIdentityOf;
    var submit := Submit(home.id, Pinned(home, 1).Key(), 0);
    trail := OneStepMore(before, Event.FinishSeal(first, submit));
    trail := OneStepMore(trail, Event.FinishSeal(second, submit));
  }

  predicate AttemptHolds(w: World, id: JobId, b: Binding, tab: Tab) {
    && id in w.waiting && w.waiting[id].Sealing? && w.waiting[id].held.binding == Some(b) && w.waiting[id].tab == tab
    && w.waiting[id].authorization == Authorization(b.tabId, b.provider, b.Key(), PROVISIONAL_SEAL_AUTH_TTL_MS)
  }

  // ---- the object ----

  class Background {
    var lastLlmBinding: Option<Binding>
    var storedBinding: Option<Binding>
    var provisionalSealAuthorization: Option<Authorization>
    var waiting: map<JobId, Waiting>
    var pins: nat
    ghost var submits: set<Submit>
    ghost var seals: seq<Seal>
    ghost var trail: seq<World>

    ghost function Now(): World
      reads this
    {
      World(lastLlmBinding, storedBinding, provisionalSealAuthorization, waiting, pins, submits, seals)
    }

    ghost predicate Valid()
      reads this
    {
      IsRun(trail) && trail[|trail| - 1] == Now()
    }

    constructor ()
      ensures Valid() && Initial(Now())
    {
      lastLlmBinding, storedBinding, provisionalSealAuthorization, waiting := None, None, None, map[];
      pins, submits, seals := 0, {}, [];
      new;
      trail := [Now()];
    }

    /** The fields already hold what the event e leads to. */
    ghost method Step(e: Event)
      requires IsRun(trail) && Enabled(trail[|trail| - 1], e)
      requires var w := Apply(trail[|trail| - 1], e);
               w == Now().(submits := w.submits, seals := w.seals)
      modifies this`submits, this`seals, this`trail
      ensures Valid() && old(trail) <= trail && Now() == Apply(old(trail[|trail| - 1]), e)
    {
      hide Initial, StepAt, Enabled, Apply;
      ghost var w := Apply(trail[|trail| - 1], e);
      trail := OneStepMore(trail, e);
      submits, seals := w.submits, w.seals;
    }

    method PinLlmBinding(tab: Tab)
      requires Valid() && tab.provider.Some?
      modifies this
      ensures Valid() && old(trail) <= trail && Now() == Apply(old(Now()), Pin(tab))
    {
      hide IsRun, NormalizePathname, ClassifyConversationPath;
      lastLlmBinding := Some(Pinned(tab, pins + 1));
      storedBinding, pins := lastLlmBinding, pins + 1;
      Step(Event.Pin(tab));
    }

    method ClearPinnedLlmTab()
      requires Valid()
      modifies this
      ensures Valid() && old(trail) <= trail && Now() == Cleared(old(Now()))
    {
      hide IsRun;
      lastLlmBinding, storedBinding, provisionalSealAuthorization := None, None, None;
      Step(Event.Clear);
    }

    /** The worker is evicted: the binding is in session storage, the rest is gone. */
    method Evict()
      requires Valid()
      modifies this
      ensures Valid() && old(trail) <= trail && Now() == Apply(old(Now()), Event.Evict)
    {
      hide IsRun;
      lastLlmBinding, provisionalSealAuthorization, waiting := None, None, map[];
      Step(Event.Evict);
    }

    /** getLlmBinding up to its await. */
    method Ask() returns (held: Held)
      ensures held == HeldNow(Now())
    {
      held := if lastLlmBinding.Some? then Held(lastLlmBinding, false) else Held(storedBinding, true);
    }

    /** And after it. */
    method GoOn(id: JobId) returns (binding: Option<Binding>)
      requires id in waiting
      modifies this`lastLlmBinding, this`waiting
      ensures binding == old(waiting)[id].held.binding && waiting == old(waiting) - {id}
      ensures lastLlmBinding == if old(waiting)[id].held.reloads then binding else old(lastLlmBinding)
    {
      var held := waiting[id].held;
      binding := held.binding;
      if held.reloads { lastLlmBinding := binding; }
      waiting := waiting - {id};
    }

    /** An attempt to seal, up to the await: an authorization for this tab that has not expired. */
    method BeginSeal(id: JobId, tab: Tab, now: nat) returns (begun: bool)
      requires Valid() && id !in waiting
      modifies this
      ensures Valid() && old(trail) <= trail && lastLlmBinding == old(lastLlmBinding) && seals == old(seals)
      ensures begun <==>
                old(provisionalSealAuthorization).Some? && now <= old(provisionalSealAuthorization).value.expiresAt
                && old(provisionalSealAuthorization).value.tabId == tab.id
      ensures begun ==> Now() == Apply(old(Now()), Event.BeginSeal(id, tab, now))
      ensures !begun ==> waiting == old(waiting)
    {
      hide IsRun;
      if provisionalSealAuthorization.None? { return false; }
      var authorization := provisionalSealAuthorization.value;
      if now > authorization.expiresAt {
        provisionalSealAuthorization := None;
        Step(Expire);
        return false;
      }
      if authorization.tabId != tab.id { return false; }
      var held := Ask();
      waiting := waiting[id := Sealing(held, tab, authorization, now)];
      Step(Event.BeginSeal(id, tab, now));
      begun := true;
    }

    /** The rest of it, some time later, with the binding it was promised then. */
    method FinishSeal(id: JobId) returns (sealed: bool)
      requires Valid() && id in waiting && waiting[id].Sealing?
      modifies this
      ensures Valid() && old(trail) <= trail && waiting == old(waiting) - {id} && pins == old(pins)
      ensures var job := old(waiting)[id];
              var outcome := OutcomeOf(job.held.binding, job.authorization, job.tab);
              && (sealed <==> outcome.Seals?)
              && (sealed ==> lastLlmBinding == storedBinding == Some(outcome.to) && |seals| == |old(seals)| + 1)
              && (!sealed ==> seals == old(seals))
              && (outcome.OtherProvider? ==> lastLlmBinding == storedBinding == None)
              && (outcome.Mismatch? || outcome.NotYet? ==>
                    lastLlmBinding == if job.held.reloads then job.held.binding else old(lastLlmBinding))
              && provisionalSealAuthorization == if outcome.NotYet? then old(provisionalSealAuthorization) else None
    {
      hide IsRun, NormalizePathname, ClassifyConversationPath;
      ghost var submit := SubmitBehind(trail, id);
      var authorization, tab := waiting[id].authorization, waiting[id].tab;
      var held := GoOn(id);
      sealed := false;
      if held.None? || !held.value.provisional || held.value.tabId != authorization.tabId
         || held.value.provider != authorization.provider || held.value.Key() != authorization.bindingKey {
        provisionalSealAuthorization := None;
      } else if tab.provider != Some(held.value.provider) {
        lastLlmBinding, storedBinding, provisionalSealAuthorization := None, None, None;
      } else {
        var identity := ConversationIdentityOf(held.value.provider, tab.path);
        if identity.kind == Conversation {
          lastLlmBinding :=
            Some(Binding(held.value.tabId, held.value.provider, identity.pathname, false, held.value.pin));
          storedBinding, provisionalSealAuthorization := lastLlmBinding, None;
          sealed := true;
        }
      }
      Step(Event.FinishSeal(id, submit));
    }

    /** The submission of a prompt in the bound tab has been confirmed; nothing comes in between. */
    method Authorize(id: JobId, tab: Tab, now: nat) returns (authorized: bool)
      requires Valid() && id !in waiting
      modifies this
      ensures Valid() && old(trail) <= trail && waiting == old(waiting) && seals == old(seals)
      ensures lastLlmBinding == old(HeldNow(Now()).binding) && storedBinding == old(storedBinding)
      ensures authorized <==>
                var b := old(HeldNow(Now()).binding);
                b.Some? && b.value.provisional && b.value.tabId == tab.id && Some(b.value.provider) == tab.provider
      ensures authorized ==>
                provisionalSealAuthorization ==
                Some(Authorization(tab.id, lastLlmBinding.value.provider, lastLlmBinding.value.Key(),
                                   now + PROVISIONAL_SEAL_AUTH_TTL_MS))
      ensures !authorized ==> provisionalSealAuthorization == old(provisionalSealAuthorization)
    {
      hide IsRun;
      var held := Ask();
      waiting := waiting[id := Submitting(held, tab)];
      Step(BeginSubmit(id, tab));
      var binding := GoOn(id);
      assert waiting == old(waiting);
      authorized := binding.Some? && binding.value.provisional && binding.value.tabId == tab.id
                    && Some(binding.value.provider) == tab.provider;
      if authorized {
        var b := binding.value;
        provisionalSealAuthorization :=
          Some(Authorization(b.tabId, b.provider, b.Key(), now + PROVISIONAL_SEAL_AUTH_TTL_MS));
      }
      Step(FinishSubmit(id, now));
    }

    /**
     authorizeProvisionalSealAfterSubmit: the authorization, and one immediate attempt for a
     provider that has already opened the conversation.
     */
    method AuthorizeProvisionalSealAfterSubmit(id: JobId, tab: Tab, landed: Tab, now: nat) returns (sealed: bool)
      requires Valid() && id !in waiting && landed.id == tab.id
      modifies this
      ensures Valid() && old(trail) <= trail && waiting == old(waiting)
      ensures var b := old(HeldNow(Now()).binding);
              var isBound := b.Some? && b.value.provisional && b.value.tabId == tab.id && Some(b.value.provider) == tab.provider;
              && (sealed <==>
                    isBound && landed.provider == tab.provider
                    && ConversationIdentityOf(b.value.provider, landed.path).kind == Conversation)
              && (sealed ==>
                    lastLlmBinding == Some(Binding(b.value.tabId, b.value.provider, NormalizePathname(landed.path), false, b.value.pin)))
              && (isBound && landed.provider != tab.provider ==> lastLlmBinding == None)
              && (!isBound ==> lastLlmBinding == b && seals == old(seals))
    {
      hide IsRun, NormalizePathname, ClassifyConversationPath;
      var authorized := Authorize(id, tab, now);
      if !authorized { return false; }
      var begun := BeginSeal(id, landed, now);
      assert waiting[id].held.binding == lastLlmBinding && waiting - {id} == old(waiting);
      sealed := FinishSeal(id);
    }

    /** findBoundLlmTab: the bound tab is used only while it shows the bound conversation. */
    method FindBoundLlmTab(id: JobId, tab: Option<Tab>, wanted: Option<string>) returns (found: bool)
      requires Valid() && id !in waiting
      modifies this
      ensures Valid() && old(trail) <= trail && waiting == old(waiting) && seals == old(seals)
      ensures found <==>
                var b := old(HeldNow(Now()).binding);
                && b.Some? && tab.Some? && tab.value.provider == Some(b.value.provider)
                && (wanted.Some? ==> wanted.value == b.value.provider)
                && ConversationIdentity.Key(b.value.provider, NormalizePathname(tab.value.path)) == b.value.Key()
      ensures lastLlmBinding == if found then old(HeldNow(Now()).binding) else None
    {
      hide IsRun, NormalizePathname;
      var held := Ask();
      waiting := waiting[id := Lookup(held)];
      Step(BeginLookup(id));
      var bound := GoOn(id);
      assert waiting == old(waiting);
      Step(FinishLookup(id));
      if bound.None? { return false; }
      var binding := bound.value;
      if tab.None? || tab.value.provider != Some(binding.provider)
         || (wanted.Some? && wanted.value != binding.provider)
         || ConversationIdentity.Key(binding.provider, NormalizePathname(tab.value.path)) != binding.Key() {
        ClearPinnedLlmTab();
        return false;
      }
      found := true;
    }
  }

  /** Whatever waits to be sealed has a confirmed submit behind it. */
  lemma SubmitBehind(trail: seq<World>, id: JobId) returns (submit: Submit)
    requires IsRun(trail)
    requires var w := trail[|trail| - 1]; id in w.waiting && w.waiting[id].Sealing?
    ensures Enabled(trail[|trail| - 1], Event.FinishSeal(id, submit))
  {
    hide Initial, StepAt, PinInv;
    RunKeeps(trail, |trail| - 1);
    var w := trail[|trail| - 1];
    assert IsBacked(w, w.waiting[id].authorization);
    submit :| submit in w.submits && IsFor(submit, w.waiting[id].authorization);
  }
}
