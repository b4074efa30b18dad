/** A review that completes against a changed world: what the revision counters really guarantee. */
module PolicyStaleness {
  import opened Options
  import opened PolicyScope
  import opened PolicyTypes
  import opened PolicyEngine
  import opened PolicyWorld
  import opened PolicyInvariants

  ghost predicate Sound(w: World) {
    Tree(w) && FallbacksAgree(w) && Stored(w)
  }

  // ---- The passage of time ----

  /** The same object later on: its name and parent are fixed, and equal revisions mean equal contents. */
  ghost predicate Aged(o: Principal, n: Principal) {
    && n.agent == o.agent && n.parent == o.parent
    && o.policyRevision <= n.policyRevision && (o.policyRevision == n.policyRevision ==> o.policies == n.policies)
    && o.contextRevision <= n.contextRevision && (o.contextRevision == n.contextRevision ==> o.context == n.context)
  }

  ghost predicate AgedDefault(w: World, n: World, area: Area) {
    && w.revisions.Get(area) <= n.revisions.Get(area)
    && (w.revisions.Get(area) == n.revisions.Get(area) ==> w.defaults.Get(area) == n.defaults.Get(area))
  }

  ghost predicate Later(w: World, n: World) {
    && n.root == w.root
    && (forall ref :: ref in w.objects ==> ref in n.objects && Aged(w.objects[ref], n.objects[ref]))
    && (forall once :: once in w.once ==> once in n.once)
    && (forall area :: AgedDefault(w, n, area))
    && (w.closing ==> n.closing)
  }

  lemma LaterTransitive(w0: World, w1: World, w2: World)
    requires Later(w0, w1) && Later(w1, w2)
    ensures Later(w0, w2)
  {
    forall area ensures AgedDefault(w0, w2, area) {
      assert AgedDefault(w0, w1, area) && AgedDefault(w1, w2, area);
    }
    forall ref | ref in w0.objects ensures ref in w2.objects && Aged(w0.objects[ref], w2.objects[ref]) {
      assert Aged(w0.objects[ref], w1.objects[ref]) && Aged(w1.objects[ref], w2.objects[ref]);
    }
  }

  lemma {:induction false} GrantAllLater(w: World, refs: seq<Ref>, p: Policy)
    requires Known(w, refs)
    ensures Later(w, GrantAll(w, refs, p))
    decreases |refs|
  {
    if refs != [] {
      GrantAllLater(Grant(w, refs[0], p), refs[1..], p);
      LaterTransitive(w, Grant(w, refs[0], p), GrantAll(w, refs, p));
    }
  }

  // ---- The same walk ----

  /** A principal as a walk sees it. */
  predicate Same(o: Principal, n: Principal) {
    n.agent == o.agent && n.parent == o.parent && n.policies == o.policies
  }

  ghost predicate Steady(w0: World, w: World, path: seq<Ref>) {
    && w.root == w0.root
    && forall ref :: ref in path ==>
         ref in w0.objects && IsLive(w, ref) && Same(w0.objects[ref], w.objects[ref])
  }

  lemma {:induction false} ChainSame(w0: World, w: World, id: AgentId)
    requires Tree(w0) && Tree(w) && id in w0.live && Steady(w0, w, Chain(w0, id))
    ensures id in w.live && Chain(w, id) == Chain(w0, id)
    decreases w0.live[id]
  {
    var ref := w0.live[id];
    assert ref in Chain(w0, id) && Node(w0, id);
    if id != w0.root {
      ChainSame(w0, w, w0.objects[ref].parent.value);
    }
  }

  /** The principals a walk from `id` visits: up to the first with something to say, or to the root. */
  function Visited(w: World, id: AgentId, uri: Path, a: Access): (path: seq<Ref>)
    requires Tree(w) && id in w.live
    ensures path != [] && path[0] == w.live[id]
    decreases w.live[id]
  {
    assert Node(w, id);
    var ref := w.live[id];
    if Authority(w, ref, uri, a).Some? || id == w.root then [ref]
    else [ref] + Visited(w, w.objects[ref].parent.value, uri, a)
  }

  lemma {:induction false} AuthorizedVisits(w: World, walked: seq<Ref>, id: AgentId, uri: Path, a: Access)
    requires Tree(w) && id in w.live && Known(w, walked) && Resolve(w, walked, id, uri, a).Authorized?
    ensures Resolve(w, walked, id, uri, a).path == walked + Visited(w, id, uri, a)
    decreases w.live[id]
  {
    ResolveHop(w, walked, id, uri, a);
    var ref := w.live[id];
    if Authority(w, ref, uri, a).None? {
      var parent := w.objects[ref].parent.value;
      AuthorizedVisits(w, walked + [ref], parent, uri, a);
      assert walked + [ref] + Visited(w, parent, uri, a) == walked + Visited(w, id, uri, a);
    }
  }

  lemma {:induction false} UnresolvedVisits(w: World, walked: seq<Ref>, id: AgentId, uri: Path, a: Access)
    requires Tree(w) && id in w.live && Known(w, walked) && Resolve(w, walked, id, uri, a).Unresolved?
    ensures Chain(w, id) == Visited(w, id, uri, a)
    decreases w.live[id]
  {
    ResolveHop(w, walked, id, uri, a);
    if id != w.root {
      UnresolvedVisits(w, walked + [w.live[id]], w.objects[w.live[id]].parent.value, uri, a);
    }
  }

  /** The fallbacks played no part in the answer, or give the same answer as before. */
  ghost predicate SameFallback(w0: World, w: World, r: Resolution, uri: Path, a: Access) {
    (r.Authorized? && !r.verdict.source.System?) || RootFallback(w, uri, a) == RootFallback(w0, uri, a)
  }

  lemma SameAuthority(w0: World, w: World, ref: Ref, uri: Path, a: Access)
    requires ref in w0.objects && ref in w.objects && w.root == w0.root && Same(w0.objects[ref], w.objects[ref])
    requires w0.objects[ref].agent == w0.root && Evaluate(w0.objects[ref].policies, uri, a).None?
      ==> RootFallback(w, uri, a) == RootFallback(w0, uri, a)
    ensures Authority(w, ref, uri, a) == Authority(w0, ref, uri, a)
  {
  }

  /** Unfolds one hop of the walk. */
  lemma ResolveHop(w: World, walked: seq<Ref>, id: AgentId, uri: Path, a: Access)
    requires Tree(w) && id in w.live && Known(w, walked)
    ensures w.live[id] in w.objects && w.objects[w.live[id]].agent == id
    ensures var v, r := Authority(w, w.live[id], uri, a), Resolve(w, walked, id, uri, a);
      if v.Some? then
        r == if v.value.status.response.Denied? then Refused(v.value) else Authorized(walked + [w.live[id]], v.value)
      else if id == w.root then r.Unresolved?
      else HasParent(w, id) && r == Resolve(w, walked + [w.live[id]], w.objects[w.live[id]].parent.value, uri, a)
  {
    assert Node(w, id);
  }

  /** On a steady path the walk to the nearest authority repeats itself. */
  lemma {:induction false} ResolveSame(w0: World, w: World, walked: seq<Ref>, id: AgentId, uri: Path, a: Access)
    requires Tree(w0) && Tree(w) && id in w0.live && Known(w0, walked) && Known(w, walked)
    requires !Resolve(w0, walked, id, uri, a).Refused?
    requires Steady(w0, w, Visited(w0, id, uri, a))
    requires SameFallback(w0, w, Resolve(w0, walked, id, uri, a), uri, a)
    ensures id in w.live && Resolve(w, walked, id, uri, a) == Resolve(w0, walked, id, uri, a)
    decreases w0.live[id]
  {
    var ref := w0.live[id];
    ResolveHop(w0, walked, id, uri, a);
    assert ref in Visited(w0, id, uri, a);
    assert IsLive(w, ref) && Same(w0.objects[ref], w.objects[ref]);
    ResolveHop(w, walked, id, uri, a);
    SameAuthority(w0, w, ref, uri, a);
    if Authority(w0, ref, uri, a).None? && id != w0.root {
      ResolveSame(w0, w, walked + [ref], w0.objects[ref].parent.value, uri, a);
    }
  }

  // ---- What a completed review relied on ----

  /** The request was made in `w0` and has been waiting since. */
  ghost predicate Waited(w0: World, w: World, p: Pending) {
    && Sound(w0) && Sound(w) && Later(w0, w)
    && p.requester in w0.objects && p.once in w0.once
    && Request(w0, p.requester, p.uri, p.access, p.once) == Waiting(p)
  }

  /** Why a request waits, and for whom. */
  lemma WaitingFor(w: World, requester: Ref, uri: Path, a: Access, once: nat, p: Pending)
    requires Tree(w) && requester in w.objects && once in w.once && Request(w, requester, uri, a, once) == Waiting(p)
    ensures Authority(w, requester, uri, a).None? && Evaluate(w.once[once], uri, a).None?
    ensures p.UserReview? ==> BeginUser(w, requester, uri, a, once) == Waiting(p)
    ensures p.LlmReview? ==> BeginLlm(w, requester, uri, a, once) == Waiting(p)
    ensures var r := ResolveAncestor(w, requester, uri, a);
      && r.Some?
      && if p.AncestorReview? then
           r.value.Authorized? && BeginAncestor(w, requester, uri, a, once, r.value.path, r.value.verdict) == Waiting(p)
         else r.value.Unresolved? && w.defaults.Get(AreaOf(a)) == if p.UserReview? then AskUser else AskLlm
  {
  }

  lemma ResolvedFrom(w: World, requester: Ref, uri: Path, a: Access)
    requires Tree(w) && requester in w.objects
    ensures var r := ResolveAncestor(w, requester, uri, a);
      r.Some? && r.value.Authorized? ==>
        |r.value.path| > 1 && r.value.path[0] == requester && Known(w, r.value.path)
  {
  }

  lemma WaitedHolds(w0: World, w: World, p: Pending)
    requires Waited(w0, w, p)
    ensures Holds(w0, p) && Holds(w, p) && p.snapshot == TakeSnapshot(w0, p.snapshot.path)
  {
    WaitingFor(w0, p.requester, p.uri, p.access, p.once, p);
    ResolvedFrom(w0, p.requester, p.uri, p.access);
    HeldLater(w0, w, p);
  }

  lemma HeldLater(w0: World, w: World, p: Pending)
    requires Later(w0, w) && Holds(w0, p)
    ensures Holds(w, p)
  {
  }

  /** Nothing that the reviewer was shown has changed: the same objects are registered, each under its
      parent, with the same policies and contexts. */
  ghost predicate PathIntact(w0: World, w: World, p: Pending)
    requires Holds(w0, p) && Holds(w, p)
  {
    && Active(w, p.snapshot.path)
    && forall ref :: ref in p.snapshot.path ==>
         Same(w0.objects[ref], w.objects[ref]) && w.objects[ref].context == w0.objects[ref].context
  }

  lemma IntactByRevisions(w0: World, w: World, p: Pending)
    requires Waited(w0, w, p) && Holds(w, p) && Holds(w0, p)
    requires Active(w, p.snapshot.path) && Unchanged(w, p.snapshot)
    ensures PathIntact(w0, w, p) && Steady(w0, w, p.snapshot.path)
  {
    WaitedHolds(w0, w, p);
    forall ref | ref in p.snapshot.path
      ensures IsLive(w, ref) && Same(w0.objects[ref], w.objects[ref]) && w.objects[ref].context == w0.objects[ref].context
    {
      var i :| 0 <= i < |p.snapshot.path| && p.snapshot.path[i] == ref;
      assert Aged(w0.objects[ref], w.objects[ref]);
    }
  }

  /** A request that waits for the user or for a default review had no other answer, then. */
  lemma NothingElseAnswered(w0: World, w: World, p: Pending)
    requires Waited(w0, w, p) && !p.AncestorReview?
    ensures Authority(w0, p.requester, p.uri, p.access).None?
    ensures ResolveAncestor(w0, p.requester, p.uri, p.access) == Some(Unresolved)
    ensures PathToRoot(w0, p.requester) == Some(p.snapshot.path)
    ensures p.fallback == FallbackRevision(w0, p.access)
    ensures w0.defaults.Get(AreaOf(p.access)) == if p.UserReview? then AskUser else AskLlm
  {
    WaitingFor(w0, p.requester, p.uri, p.access, p.once, p);
  }

  lemma AskingMeansNoFallback(w: World, uri: Path, a: Access)
    requires FallbacksAgree(w) && Automatic(w.defaults.Get(AreaOf(a))).None?
    ensures RootFallback(w, uri, a).None?
  {
    RootFallbackMeaning(w, uri, a);
  }

  /** On an intact path with an unchanged asking default, nobody answers now either. */
  lemma StillNobodyAnswers(w0: World, w: World, p: Pending)
    requires Waited(w0, w, p) && !p.AncestorReview? && Holds(w0, p) && Holds(w, p)
    requires Active(w, p.snapshot.path) && Unchanged(w, p.snapshot)
    requires DefaultIs(w, p, if p.UserReview? then AskUser else AskLlm)
    ensures Authority(w, p.requester, p.uri, p.access).None?
    ensures ResolveAncestor(w, p.requester, p.uri, p.access) == Some(Unresolved)
    ensures PathToRoot(w, p.requester) == Some(p.snapshot.path)
  {
    NothingElseAnswered(w0, w, p);
    IntactByRevisions(w0, w, p);
    AskingMeansNoFallback(w0, p.uri, p.access);
    AskingMeansNoFallback(w, p.uri, p.access);
    var path := p.snapshot.path;
    assert p.requester in path;
    SameAuthority(w0, w, p.requester, p.uri, p.access);
    var parent := w0.objects[p.requester].parent;
    if parent.Some? {
      assert path == [p.requester] + Chain(w0, parent.value);
      UnresolvedVisits(w0, [p.requester], parent.value, p.uri, p.access);
      assert Steady(w0, w, Chain(w0, parent.value));
      ChainSame(w0, w, parent.value);
      ResolveSame(w0, w, [p.requester], parent.value, p.uri, p.access);
    }
  }

  /** The shortened check at completion is sound: whenever it lets the user's choice through, the full check
      before the prompt would have let the request through at that moment too. */
  lemma ShortenedCheckSound(w0: World, w: World, p: Pending, aborted: bool)
    requires Waited(w0, w, p) && p.UserReview? && Holds(w, p)
    requires UserObstacle(w, p, aborted).None?
    ensures BeforePrompt(w, p, aborted).None?
  {
    WaitedHolds(w0, w, p);
    StillNobodyAnswers(w0, w, p);
  }

  lemma SameDefaultSameFallback(w0: World, w: World, uri: Path, a: Access)
    requires FallbacksAgree(w0) && FallbacksAgree(w) && Later(w0, w)
    requires FallbackRevision(w, a) == FallbackRevision(w0, a)
    ensures RootFallback(w, uri, a) == RootFallback(w0, uri, a)
  {
    assert AgedDefault(w0, w, AreaOf(a));
    RootFallbackMeaning(w0, uri, a);
    RootFallbackMeaning(w, uri, a);
  }

  /** On an intact path the authority that a review was asked from still is the nearest one and says the same, and
      what it may grant is what was offered. */
  lemma AuthorityStays(w0: World, w: World, p: Pending)
    requires Waited(w0, w, p) && p.AncestorReview? && Holds(w0, p) && Holds(w, p)
    requires Active(w, p.snapshot.path) && Unchanged(w, p.snapshot)
    requires p.borrowed.Some? ==> FallbackRevision(w, p.access) == p.borrowed.value
    ensures var r := ResolveAncestor(w, p.requester, p.uri, p.access);
      && r == ResolveAncestor(w0, p.requester, p.uri, p.access)
      && r.Some? && r.value.Authorized? && r.value.path == p.snapshot.path
      && CurrentAuthority(w, p) == Some(r.value.verdict)
      && p.scopes == AllowedScopes(p.uri, r.value.verdict.pattern)
      && p.lifetimes == AllowedLifetimes(r.value.verdict.status.lifetime)
  {
    WaitingFor(w0, p.requester, p.uri, p.access, p.once, p);
    IntactByRevisions(w0, w, p);
    var r := ResolveAncestor(w0, p.requester, p.uri, p.access).value;
    var parent := w0.objects[p.requester].parent.value;
    AuthorizedVisits(w0, [p.requester], parent, p.uri, p.access);
    assert p.snapshot.path == [p.requester] + Visited(w0, parent, p.uri, p.access);
    assert Steady(w0, w, Visited(w0, parent, p.uri, p.access));
    if r.verdict.source.System? {
      SameDefaultSameFallback(w0, w, p.uri, p.access);
    }
    assert p.requester in p.snapshot.path;
    ResolveSame(w0, w, [p.requester], parent, p.uri, p.access);
  }

  /** An authority that may answer now is the one that was asked. */
  lemma AuthorityIntact(w0: World, w: World, p: Pending)
    requires Waited(w0, w, p) && p.AncestorReview? && Holds(w0, p) && Holds(w, p)
    requires Active(w, p.snapshot.path) && CurrentAuthority(w, p).Some?
    ensures PathIntact(w0, w, p)
    ensures ResolveAncestor(w, p.requester, p.uri, p.access) == ResolveAncestor(w0, p.requester, p.uri, p.access)
    ensures ResolveAncestor(w, p.requester, p.uri, p.access) == Some(Authorized(p.snapshot.path, CurrentAuthority(w, p).value))
  {
    AuthorityStays(w0, w, p);
    IntactByRevisions(w0, w, p);
  }

  /** What makes a reviewer's choice count: it is offered under the very circumstances it was asked in. */
  ghost predicate CountsNow(w0: World, w: World, p: Pending)
    requires Tree(w0) && Tree(w) && Holds(w0, p) && Holds(w, p)
  {
    && !w.closing && PathIntact(w0, w, p)
    && ResolveAncestor(w, p.requester, p.uri, p.access) == ResolveAncestor(w0, p.requester, p.uri, p.access)
    && (!p.AncestorReview? ==>
          && w.defaults.Get(AreaOf(p.access)) == w0.defaults.Get(AreaOf(p.access))
          && PathToRoot(w, p.requester) == Some(p.snapshot.path))
  }

  ghost predicate FromChoice(p: Pending, c: Choice, v: Verdict) {
    v.uri == p.uri && v.access == p.access && v.pattern == c.uri && v.status.response == c.response
  }

  lemma DefaultReviewCounts(w0: World, w: World, p: Pending)
    requires Waited(w0, w, p) && !p.AncestorReview? && Holds(w0, p) && Holds(w, p) && !w.closing
    requires Active(w, p.snapshot.path) && Unchanged(w, p.snapshot)
    requires DefaultIs(w, p, if p.UserReview? then AskUser else AskLlm)
    ensures CountsNow(w0, w, p)
  {
    NothingElseAnswered(w0, w, p);
    StillNobodyAnswers(w0, w, p);
    IntactByRevisions(w0, w, p);
  }

  lemma AncestorReviewCounts(w0: World, w: World, p: Pending)
    requires Waited(w0, w, p) && p.AncestorReview? && Holds(w0, p) && Holds(w, p) && !w.closing
    requires Active(w, p.snapshot.path) && CurrentAuthority(w, p).Some?
    ensures CountsNow(w0, w, p)
  {
    AuthorityIntact(w0, w, p);
  }

  /** Staleness safety, user route. */
  lemma UserStaleness(w0: World, w: World, p: Pending, c: Choice, aborted: bool)
    requires Waited(w0, w, p) && p.UserReview? && Holds(w0, p) && Holds(w, p)
    ensures var v := CompleteUser(w, p, c, aborted).1;
      v.status.response.Allowed? ==>
        StoredMeanwhile(w, p) == Some(v) || (FromChoice(p, c, v) && !aborted && CountsNow(w0, w, p))
  {
    if UserObstacle(w, p, aborted).None? {
      DefaultReviewCounts(w0, w, p);
    }
  }

  /** Staleness safety, default-reviewer route. */
  lemma LlmStaleness(w0: World, w: World, p: Pending, answer: Option<Choice>, aborted: bool)
    requires Waited(w0, w, p) && p.LlmReview? && Holds(w0, p) && Holds(w, p)
    ensures var v := CompleteLlm(w, p, answer, aborted).1;
      v.status.response.Allowed? ==>
        || StoredMeanwhile(w, p) == Some(v)
        || (answer.Some? && FromChoice(p, answer.value, v) && !aborted && CountsNow(w0, w, p))
  {
    if answer.Some? && !w.closing && LlmMayChoose(w, p, answer.value) {
      DefaultReviewCounts(w0, w, p);
    }
  }

  /** Staleness safety, ancestor route. */
  lemma AncestorStaleness(w0: World, w: World, p: Pending, answer: Option<Choice>, aborted: bool)
    requires Waited(w0, w, p) && p.AncestorReview? && Holds(w0, p) && Holds(w, p)
    ensures var v := CompleteAncestor(w, p, answer, aborted).1;
      v.status.response.Allowed? ==>
        || StoredMeanwhile(w, p) == Some(v)
        || (answer.Some? && FromChoice(p, answer.value, v) && !aborted && CountsNow(w0, w, p))
  {
    if answer.Some? && !w.closing && Active(w, p.snapshot.path) && AncestorMayChoose(w, p, answer.value) {
      AncestorReviewCounts(w0, w, p);
    }
    RefusedIsDenied(w, p.requester, p.uri, p.access);
  }

  lemma RefusedIsDenied(w: World, requester: Ref, uri: Path, a: Access)
    requires Tree(w) && requester in w.objects
    ensures var r := ResolveAncestor(w, requester, uri, a);
      r.Some? && r.value.Refused? ==>
        r.value.verdict.status.response.Denied? && r.value.verdict.uri == uri && r.value.verdict.access == a
  {
    var parent := w.objects[requester].parent;
    if parent.Some? && parent.value in w.live {
      ResolveRefuses(w, [requester], parent.value, uri, a);
    }
  }

  lemma {:induction false} ResolveRefuses(w: World, walked: seq<Ref>, id: AgentId, uri: Path, a: Access)
    requires Tree(w) && id in w.live && Known(w, walked)
    ensures var r := Resolve(w, walked, id, uri, a);
      && (r.Refused? ==> r.verdict.status.response.Denied? && r.verdict.uri == uri && r.verdict.access == a)
      && (r.Authorized? ==> r.verdict.status.response.Allowed? && r.verdict.pattern <= uri)
    decreases w.live[id]
  {
    ResolveHop(w, walked, id, uri, a);
    AuthorityCovers(w, w.live[id], uri, a);
    if Authority(w, w.live[id], uri, a).None? && id != w.root {
      ResolveRefuses(w, walked + [w.live[id]], w.objects[w.live[id]].parent.value, uri, a);
    }
  }

  lemma AuthorityCovers(w: World, ref: Ref, uri: Path, a: Access)
    requires ref in w.objects
    ensures Authority(w, ref, uri, a).Some? ==> Authority(w, ref, uri, a).value.pattern <= uri
  {
    EvaluateCovers(w.objects[ref].policies, uri, a);
    EvaluateCovers(w.fallbacks, uri, a);
  }

  lemma EvaluateCovers(ps: seq<Policy>, uri: Path, a: Access)
    ensures Evaluate(ps, uri, a).Some? ==> Evaluate(ps, uri, a).value.pattern <= uri
  {
    var i := BestIsLongest(ps, uri, a);
    if Best(ps, uri, a).Some? {
      CoversIsPrefix(ps[i].pattern, uri);
    }
  }
}
