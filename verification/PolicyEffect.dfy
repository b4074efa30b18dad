/** What a completed review does: when the answer counts, and what it changes then. */
module PolicyEffect {
  import opened Options
  import opened PolicyScope
  import opened PolicyTypes
  import opened PolicyEngine
  import opened PolicyWorld
  import opened PolicyInvariants
  import opened PolicyStaleness
  import opened PolicyAuthority
  import opened PolicyMeaning
  import opened PolicyRuns
  import opened PolicySafety

  // ---- When an answer counts ----

  predicate Registered(w: World, ref: Ref) {
    ref in w.objects && w.objects[ref].agent in w.live && w.live[w.objects[ref].agent] == ref
  }

  /** Everyone on the way is still registered, as the parent of the one before. */
  ghost predicate Standing(w: World, path: seq<Ref>) {
    Upward(w, path) && Registered(w, path[0])
  }

  /** The way that the reviewer was shown still stands, and neither policies nor contexts on it have been touched. */
  ghost predicate Stands(w: World, s: Snapshot) {
    Standing(w, s.path) && Takes(w, s, s.path)
  }

  lemma {:induction false} StandingIsActive(w: World, path: seq<Ref>)
    requires Tree(w) && path != [] && Known(w, path)
    ensures Standing(w, path) <==> Active(w, path)
  {
    if Standing(w, path) {
      forall i | 0 <= i < |path| ensures IsLive(w, path[i]) {
        assert i > 0 ==> ParentIs(w, path[i - 1], path[i]) && Node(w, w.objects[path[i - 1]].parent.value);
      }
      forall i | 0 < i < |path| ensures w.objects[path[i - 1]].parent == Some(w.objects[path[i]].agent) {
        assert ParentIs(w, path[i - 1], path[i]) && Node(w, w.objects[path[i - 1]].parent.value);
      }
    }
    if Active(w, path) {
      forall i | 0 < i < |path| ensures ParentIs(w, path[i - 1], path[i]) {
        assert IsLive(w, path[i]);
      }
    }
  }

  lemma StandsIsUnchanged(w: World, p: Pending)
    requires Tree(w) && Holds(w, p)
    ensures Stands(w, p.snapshot) <==> Active(w, p.snapshot.path) && Unchanged(w, p.snapshot)
  {
    StandingIsActive(w, p.snapshot.path);
  }

  /** Nothing has been stored for the request meanwhile, by its principal or by its call. */
  ghost predicate StillOpen(w: World, p: Pending)
    requires Holds(w, p)
  {
    Mute(w.objects[p.requester].policies, p.uri, p.access) && Mute(w.once[p.once], p.uri, p.access)
  }

  predicate DefaultStays(w: World, p: Pending) {
    match p
    case UserReview(_, _, _, _, _, fallback) => DefaultOf(w, p.access).AskUser? && RevisionOf(w, p.access) == fallback
    case LlmReview(_, _, _, _, _, fallback, _) => DefaultOf(w, p.access).AskLlm? && RevisionOf(w, p.access) == fallback
    case AncestorReview(_, _, _, _, _, borrowed, _, _) => borrowed.Some? ==> RevisionOf(w, p.access) == borrowed.value
  }

  /** A reviewing agent stays within what it was offered. */
  predicate Offered(p: Pending, c: Choice) {
    match p
    case UserReview(_, _, _, _, _, _) => true
    case LlmReview(_, _, _, _, _, _, scopes) =>
      c.access == p.access && c.uri in scopes && (c.lifetime.Once? || c.lifetime.Session?)
    case AncestorReview(_, _, _, _, _, _, scopes, lifetimes) =>
      c.access == p.access && c.uri in scopes && c.lifetime in lifetimes
  }

  /** The answer counts: nobody gave up, nothing answers the request already, and what was asked about still stands. */
  ghost predicate Counts(w: World, p: Pending, answer: Option<Choice>, aborted: bool)
    requires Holds(w, p)
  {
    && answer.Some? && !aborted && !w.closing && StillOpen(w, p)
    && Stands(w, p.snapshot) && DefaultStays(w, p) && Offered(p, answer.value)
  }

  lemma StoredMeaning(w: World, p: Pending)
    requires Sound(w) && Holds(w, p)
    ensures StoredMeanwhile(w, p).None? <==> StillOpen(w, p)
    ensures StoredMeanwhile(w, p).Some? ==> Meanwhile(w, p, StoredMeanwhile(w, p).value)
  {
    assert WithinBounds(w, p.requester, w.objects[p.requester]);
    LookupMeaning(w.objects[p.requester].policies, p.uri, p.access);
    LookupMeaning(w.once[p.once], p.uri, p.access);
  }

  ghost predicate Meanwhile(w: World, p: Pending, v: Verdict)
    requires Holds(w, p)
  {
    if Mute(w.objects[p.requester].policies, p.uri, p.access) then Said(w.once[p.once], p.uri, p.access, v)
    else Said(w.objects[p.requester].policies, p.uri, p.access, v)
  }

  // ---- What it changes ----

  /** One status is set, all others stay. */
  ghost predicate Gains(before: seq<Policy>, after: seq<Policy>, c: Choice, s: Status) {
    forall pattern, a :: StatusAt(after, pattern, a) == if pattern == c.uri && a == c.access then Some(s) else StatusAt(before, pattern, a)
  }

  /** Whom a choice that outlives the call reaches: everyone on the way, but not an authority itself. */
  predicate Reaches(p: Pending, ref: Ref)
    requires p.snapshot.path != []
  {
    ref in p.snapshot.path && (p.AncestorReview? ==> ref != p.snapshot.path[|p.snapshot.path| - 1])
  }

  /** The root holds the user's choice as it was made, everyone else holds a choice for the session. */
  function GivenTo(p: Pending, c: Choice, ref: Ref): Status
    requires p.snapshot.path != []
  {
    Status(if p.UserReview? && ref == p.snapshot.path[|p.snapshot.path| - 1] then c.lifetime else Session, c.response, c.reason)
  }

  ghost predicate Granted(o: Principal, n: Principal, c: Choice, s: Status) {
    && n == o.(policies := n.policies, policyRevision := n.policyRevision)
    && o.policyRevision < n.policyRevision && Gains(o.policies, n.policies, c, s)
  }

  ghost predicate InstalledFor(w: World, n: World, p: Pending, c: Choice, ref: Ref)
    requires p.snapshot.path != [] && ref in w.objects && ref in n.objects
  {
    if Reaches(p, ref) then Granted(w.objects[ref], n.objects[ref], c, GivenTo(p, c, ref))
    else n.objects[ref] == w.objects[ref]
  }

  ghost predicate InstalledOnPath(w: World, n: World, p: Pending, c: Choice)
    requires p.snapshot.path != []
  {
    && n == w.(objects := n.objects, database := n.database) && n.objects.Keys == w.objects.Keys
    && n.database == (if c.lifetime.Session? then w.database
                      else w.database[(c.uri, c.access) := Status(c.lifetime, c.response, c.reason)])
    && forall ref :: ref in w.objects ==> InstalledFor(w, n, p, c, ref)
  }

  ghost predicate InstalledForCall(w: World, n: World, p: Pending, c: Choice)
    requires p.once in w.once
  {
    && n == w.(once := n.once) && n.once.Keys == w.once.Keys
    && Gains(w.once[p.once], n.once[p.once], c, Status(Once, c.response, c.reason))
    && forall once :: once in w.once && once != p.once ==> n.once[once] == w.once[once]
  }

  /** A choice for once is known to this call alone. Any other is known to everyone it reaches, and a lasting one to the
      database. Nothing else changes. */
  ghost predicate Installed(w: World, n: World, p: Pending, c: Choice)
    requires Holds(w, p)
  {
    if c.lifetime.Once? then InstalledForCall(w, n, p, c) else InstalledOnPath(w, n, p, c)
  }

  lemma AddGains(ps: seq<Policy>, c: Choice, s: Status)
    requires Distinct(ps)
    ensures Gains(ps, AddOne(ps, Policy(c.uri, map[c.access := s])), c, s)
    ensures Distinct(AddOne(ps, Policy(c.uri, map[c.access := s])))
  {
    AddOneDistinct(ps, Policy(c.uri, map[c.access := s]));
    forall pattern, a
      ensures StatusAt(AddOne(ps, Policy(c.uri, map[c.access := s])), pattern, a)
           == if pattern == c.uri && a == c.access then Some(s) else StatusAt(ps, pattern, a)
    {
      AddOneMeaning(ps, Policy(c.uri, map[c.access := s]), pattern, a);
    }
  }

  lemma {:induction false} GrantAllGains(w: World, refs: seq<Ref>, c: Choice, s: Status, ref: Ref)
    requires Known(w, refs) && ref in w.objects && Distinct(w.objects[ref].policies)
    ensures var n := GrantAll(w, refs, Policy(c.uri, map[c.access := s]));
      && n == w.(objects := n.objects) && ref in n.objects
      && if ref in refs then Granted(w.objects[ref], n.objects[ref], c, s) else n.objects[ref] == w.objects[ref]
    decreases |refs|
  {
    if refs != [] {
      var policy := Policy(c.uri, map[c.access := s]);
      var next := Grant(w, refs[0], policy);
      AddGains(w.objects[ref].policies, c, s);
      GrantAllGains(next, refs[1..], c, s, ref);
      if ref == refs[0] {
        assert Granted(w.objects[ref], next.objects[ref], c, s);
      }
    }
  }

  lemma {:induction false} ChainEnds(w: World, id: AgentId)
    requires Tree(w) && id in w.live
    ensures Chain(w, id)[|Chain(w, id)| - 1] == w.live[w.root]
    decreases w.live[id]
  {
    assert Node(w, id);
    if id != w.root {
      ChainEnds(w, w.objects[w.live[id]].parent.value);
    }
  }

  /** The path of a registered principal ends at the root. */
  lemma EndsAtRoot(w: World, ref: Ref)
    requires Tree(w) && ref in w.objects && IsLive(w, ref)
    ensures var path := PathToRoot(w, ref);
      && path.Some? && path.value[|path.value| - 1] == w.live[w.root]
      && (w.objects[ref].agent == w.root ==> path.value == [ref])
  {
    assert Node(w, w.objects[ref].agent);
    if w.objects[ref].agent != w.root {
      ChainEnds(w, w.objects[ref].parent.value);
    }
  }

  lemma OnceInstalled(w: World, p: Pending, c: Choice)
    requires Sound(w) && Holds(w, p) && c.lifetime.Once?
    ensures Installed(w, GrantOnce(w, p.once, PolicyOf(c)), p, c)
  {
    AddGains(w.once[p.once], c, Status(Once, c.response, c.reason));
  }

  /** A grant to these principals is what a session choice installs. */
  lemma SessionInstalled(w: World, p: Pending, c: Choice, refs: seq<Ref>)
    requires Sound(w) && Holds(w, p) && !p.UserReview? && c.lifetime.Session? && Known(w, refs)
    requires forall ref :: ref in w.objects ==> (ref in refs <==> Reaches(p, ref))
    ensures Installed(w, GrantAll(w, refs, PolicyOf(c)), p, c)
  {
    var n := GrantAll(w, refs, PolicyOf(c));
    GrantAllFallbacks(w, refs, PolicyOf(c));
    GrantAllFamily(w, refs, PolicyOf(c));
    forall ref | ref in w.objects ensures n == w.(objects := n.objects) && InstalledFor(w, n, p, c, ref) {
      assert WithinBounds(w, ref, w.objects[ref]);
      GrantAllGains(w, refs, c, Status(Session, c.response, c.reason), ref);
    }
    assert p.requester in w.objects;
  }

  /** Below its end, the path is all but its end. */
  lemma InnerIs(w: World, path: seq<Ref>, ref: Ref)
    requires Tree(w) && Known(w, path) && path != [] && Active(w, path)
    ensures ref in Inner(path) <==> ref in path && ref != path[|path| - 1]
  {
    var n := |path| - 1;
    if ref in Inner(path) {
      var i :| 0 <= i < n && path[i] == ref;
      PathDescends(w, path, i, n);
    }
    if ref in path && ref != path[n] {
      var i :| 0 <= i < |path| && path[i] == ref;
      assert Inner(path)[i] == ref;
    }
  }

  lemma RootGains(w: World, c: Choice, ref: Ref)
    requires Sound(w) && ref in w.objects
    ensures var n := StoredAtRoot(w, c);
      && n == w.(objects := n.objects, database := n.database) && ref in n.objects
      && n.database == (if c.lifetime.Local? || c.lifetime.Global?
                        then w.database[(c.uri, c.access) := Status(c.lifetime, c.response, c.reason)] else w.database)
      && Distinct(n.objects[ref].policies)
      && if ref == w.live[w.root] then Granted(w.objects[ref], n.objects[ref], c, Status(c.lifetime, c.response, c.reason))
         else n.objects[ref] == w.objects[ref]
  {
    assert Node(w, w.root);
    assert WithinBounds(w, ref, w.objects[ref]);
    AddGains(w.objects[ref].policies, c, Status(c.lifetime, c.response, c.reason));
  }

  lemma UserInstalledFor(w: World, p: Pending, c: Choice, ref: Ref)
    requires Sound(w) && p.UserReview? && Holds(w, p) && !c.lifetime.Once? && Active(w, p.snapshot.path)
    requires PathToRoot(w, p.requester) == Some(p.snapshot.path) && ref in w.objects
    ensures var n := InstallUser(w, p, c).0;
      n == w.(objects := n.objects, database := n.database) && ref in n.objects && InstalledFor(w, n, p, c, ref)
  {
    assert IsLive(w, p.requester);
    EndsAtRoot(w, p.requester);
    InnerIs(w, p.snapshot.path, ref);
    RootGains(w, c, ref);
    if w.objects[p.requester].agent != w.root {
      SessionOf(c);
      GrantAllGains(StoredAtRoot(w, c), Inner(p.snapshot.path), c, Status(Session, c.response, c.reason), ref);
    }
  }

  lemma SessionOf(c: Choice)
    ensures SessionPolicy(PolicyOf(c)) == Policy(c.uri, map[c.access := Status(Session, c.response, c.reason)])
  {
  }

  lemma UserInstalled(w: World, p: Pending, c: Choice)
    requires Sound(w) && p.UserReview? && Holds(w, p) && Active(w, p.snapshot.path)
    requires PathToRoot(w, p.requester) == Some(p.snapshot.path)
    ensures Installed(w, InstallUser(w, p, c).0, p, c)
  {
    if c.lifetime.Once? {
      OnceInstalled(w, p, c);
    } else {
      var n := InstallUser(w, p, c).0;
      assert Node(w, w.root);
      UserDatabase(w, p, c);
      forall ref | ref in w.objects
        ensures n == w.(objects := n.objects, database := n.database) && InstalledFor(w, n, p, c, ref)
      {
        UserInstalledFor(w, p, c, ref);
      }
      assert p.requester in w.objects;
      assert InstalledOnPath(w, n, p, c);
    }
  }

  // ---- The three reviews ----

  /** The answer as it was chosen, for the session only below the root. */
  predicate AsChosen(w: World, p: Pending, c: Choice, v: Verdict)
    requires Holds(w, p)
  {
    && v.uri == p.uri && v.access == p.access && v.pattern == c.uri
    && v.status.response == c.response && v.status.reason == c.reason
    && v.status.lifetime == (if c.lifetime.Once? || w.objects[p.requester].agent == w.root then c.lifetime else Session)
    && (p.UserReview? ==> v.source.NewUserDecision?) && (p.AncestorReview? ==> v.source.NewAgentDecision?)
    && (p.LlmReview? ==> v.source.NewDefaultLlmDecision?)
  }

  /** Something was stored for the request while it waited, and the answer came in time to see that. */
  ghost predicate Superseded(w: World, p: Pending, answer: Option<Choice>, aborted: bool)
    requires Holds(w, p)
  {
    && answer.Some? && !aborted && !w.closing && !StillOpen(w, p)
    && (p.UserReview? ==> DefaultStays(w, p)) && (p.AncestorReview? ==> Standing(w, p.snapshot.path))
  }

  /** What becomes of a request: the answer counts and is installed; or what was stored meanwhile answers; or it is denied.
      Only an answer that counts changes anything. */
  ghost predicate Completed(w: World, p: Pending, answer: Option<Choice>, aborted: bool, n: World, v: Verdict)
    requires Holds(w, p)
  {
    if Counts(w, p, answer, aborted) then Installed(w, n, p, answer.value) && AsChosen(w, p, answer.value, v)
    else if Superseded(w, p, answer, aborted) then n == w && Meanwhile(w, p, v)
    else n == w && v.uri == p.uri && v.access == p.access && v.status.response.Denied?
  }

  /** The check at completion lets an answer through exactly if it counts. */
  lemma UserObstacleMeaning(w: World, p: Pending, c: Choice, aborted: bool)
    requires Sound(w) && p.UserReview? && Holds(w, p)
    ensures UserObstacle(w, p, aborted).None? <==> Counts(w, p, Some(c), aborted)
  {
    StoredMeaning(w, p);
    StandsIsUnchanged(w, p);
  }

  lemma UserObstacleSays(w: World, p: Pending, c: Choice, aborted: bool)
    requires Sound(w) && p.UserReview? && Holds(w, p) && UserObstacle(w, p, aborted).Some?
    ensures var v := UserObstacle(w, p, aborted).value;
      if Superseded(w, p, Some(c), aborted) then Meanwhile(w, p, v)
      else v.uri == p.uri && v.access == p.access && v.status.response.Denied?
  {
    StoredMeaning(w, p);
  }

  lemma UserCompleted(w0: World, w: World, p: Pending, c: Choice, aborted: bool)
    requires Waited(w0, w, p) && p.UserReview? && Holds(w, p)
    ensures var (n, v) := CompleteUser(w, p, c, aborted); Completed(w, p, Some(c), aborted, n, v)
  {
    UserObstacleMeaning(w, p, c, aborted);
    if UserObstacle(w, p, aborted).Some? {
      UserObstacleSays(w, p, c, aborted);
    } else {
      StandsIsUnchanged(w, p);
      WaitedHolds(w0, w, p);
      StillNobodyAnswers(w0, w, p);
      UserInstalled(w, p, c);
    }
  }

  lemma LlmOffered(w0: World, w: World, p: Pending)
    requires Waited(w0, w, p) && p.LlmReview?
    ensures p.scopes == AllowedScopes(p.uri, ROOT)
  {
    WaitingFor(w0, p.requester, p.uri, p.access, p.once, p);
  }

  lemma LlmMayChooseMeaning(w: World, p: Pending, c: Choice)
    requires Sound(w) && p.LlmReview? && Holds(w, p) && p.scopes == AllowedScopes(p.uri, ROOT)
    ensures LlmMayChoose(w, p, c) <==> Stands(w, p.snapshot) && DefaultStays(w, p) && Offered(p, c)
  {
    StandsIsUnchanged(w, p);
  }

  lemma LlmCompleted(w0: World, w: World, p: Pending, answer: Option<Choice>, aborted: bool)
    requires Waited(w0, w, p) && p.LlmReview? && Holds(w, p)
    ensures var (n, v) := CompleteLlm(w, p, answer, aborted); Completed(w, p, answer, aborted, n, v)
  {
    LlmOffered(w0, w, p);
    LlmDecided(w, p, answer, aborted);
    if Counts(w, p, answer, aborted) {
      LlmInstalled(w, p, answer.value);
    }
  }

  /** The check lets the answer of a default review through exactly if it counts. */
  lemma LlmDecided(w: World, p: Pending, answer: Option<Choice>, aborted: bool)
    requires Sound(w) && p.LlmReview? && Holds(w, p) && p.scopes == AllowedScopes(p.uri, ROOT)
    ensures var (n, v) := CompleteLlm(w, p, answer, aborted);
      if Counts(w, p, answer, aborted) then
        n == InstallReviewed(w, p, p.snapshot.path, answer.value) && v == ReviewVerdict(p, answer.value, NewDefaultLlmDecision)
      else if Superseded(w, p, answer, aborted) then n == w && Meanwhile(w, p, v)
      else n == w && v.uri == p.uri && v.access == p.access && v.status.response.Denied?
  {
    StoredMeaning(w, p);
    if answer.Some? {
      LlmMayChooseMeaning(w, p, answer.value);
    }
  }

  lemma LlmInstalled(w: World, p: Pending, c: Choice)
    requires Sound(w) && p.LlmReview? && Holds(w, p) && Offered(p, c)
    ensures Installed(w, InstallReviewed(w, p, p.snapshot.path, c), p, c)
  {
    if c.lifetime.Once? {
      OnceInstalled(w, p, c);
    } else {
      SessionInstalled(w, p, c, p.snapshot.path);
    }
  }

  lemma AncestorInstalled(w: World, p: Pending, c: Choice)
    requires Sound(w) && p.AncestorReview? && Holds(w, p) && p.lifetimes <= {Once, Session} && Offered(p, c)
    requires Active(w, p.snapshot.path)
    ensures Installed(w, InstallReviewed(w, p, Inner(p.snapshot.path), c), p, c)
  {
    if c.lifetime.Once? {
      OnceInstalled(w, p, c);
    } else {
      forall ref | ref in w.objects ensures ref in Inner(p.snapshot.path) <==> Reaches(p, ref) {
        InnerIs(w, p.snapshot.path, ref);
      }
      SessionInstalled(w, p, c, Inner(p.snapshot.path));
    }
  }

  lemma AncestorMayChooseMeaning(w0: World, w: World, p: Pending, c: Choice)
    requires Waited(w0, w, p) && p.AncestorReview? && Holds(w, p) && Active(w, p.snapshot.path)
    ensures AncestorMayChoose(w, p, c) <==> Stands(w, p.snapshot) && DefaultStays(w, p) && Offered(p, c)
    ensures AncestorMayChoose(w, p, c) ==>
      p.lifetimes <= {Once, Session} && ResolveAncestor(w, p.requester, p.uri, p.access).value.Authorized?
  {
    StandsIsUnchanged(w, p);
    WaitedHolds(w0, w, p);
    if Stands(w, p.snapshot) && DefaultStays(w, p) {
      AuthorityStays(w0, w, p);
    }
  }

  /** The check lets an ancestor's answer through exactly if it counts. */
  lemma AncestorObstacleMeaning(w0: World, w: World, p: Pending, answer: Option<Choice>, aborted: bool)
    requires Waited(w0, w, p) && p.AncestorReview? && Holds(w, p)
    ensures var v := AncestorObstacle(w, p, answer, aborted);
      && (v.None? <==> Counts(w, p, answer, aborted))
      && (v.None? ==> p.lifetimes <= {Once, Session} && Active(w, p.snapshot.path))
      && (v.Some? && Superseded(w, p, answer, aborted) ==> Meanwhile(w, p, v.value))
      && (v.Some? && !Superseded(w, p, answer, aborted) ==>
            v.value.uri == p.uri && v.value.access == p.access && v.value.status.response.Denied?)
  {
    StoredMeaning(w, p);
    StandingIsActive(w, p.snapshot.path);
    RefusedIsDenied(w, p.requester, p.uri, p.access);
    if answer.Some? && Active(w, p.snapshot.path) {
      AncestorMayChooseMeaning(w0, w, p, answer.value);
    }
  }

  lemma AncestorCompleted(w0: World, w: World, p: Pending, answer: Option<Choice>, aborted: bool)
    requires Waited(w0, w, p) && p.AncestorReview? && Holds(w, p)
    ensures var (n, v) := CompleteAncestor(w, p, answer, aborted); Completed(w, p, answer, aborted, n, v)
  {
    AncestorObstacleMeaning(w0, w, p, answer, aborted);
    if Counts(w, p, answer, aborted) {
      AncestorInstalled(w, p, answer.value);
    }
  }

  /** Before the prompt: what the requester or its call says now answers a request that still stands; without that it is
      denied. */
  ghost predicate Forestalled(w: World, p: Pending, aborted: bool, v: Verdict)
    requires Holds(w, p)
  {
    if aborted || w.closing || !Standing(w, p.snapshot.path) then v.status.response.Denied?
    else if !Quiet(w, p.requester, p.uri, p.access) then Speaks(w, p.requester, p.uri, p.access, v)
    else if !Mute(w.once[p.once], p.uri, p.access) then Said(w.once[p.once], p.uri, p.access, v)
    else v.status.response.Denied?
  }

  lemma PromptRefused(w: World, p: Pending, aborted: bool)
    requires Sound(w) && p.UserReview? && Holds(w, p) && UserObstacle(w, p, aborted).Some?
    ensures BeforePrompt(w, p, aborted).Some? && Forestalled(w, p, aborted, BeforePrompt(w, p, aborted).value)
  {
    StandingIsActive(w, p.snapshot.path);
    AuthorityMeaning(w, p.requester, p.uri, p.access);
    LookupMeaning(w.once[p.once], p.uri, p.access);
    RefusedIsDenied(w, p.requester, p.uri, p.access);
  }

  /** The user is asked exactly if an answer of theirs would count at that moment. */
  lemma PromptMeaning(w0: World, w: World, p: Pending, c: Choice, aborted: bool)
    requires Waited(w0, w, p) && p.UserReview? && Holds(w, p)
    ensures BeforePrompt(w, p, aborted).None? <==> Counts(w, p, Some(c), aborted)
    ensures BeforePrompt(w, p, aborted).Some? ==> Forestalled(w, p, aborted, BeforePrompt(w, p, aborted).value)
  {
    UserObstacleMeaning(w, p, c, aborted);
    if UserObstacle(w, p, aborted).None? {
      ShortenedCheckSound(w0, w, p, aborted);
    } else {
      PromptRefused(w, p, aborted);
    }
  }

  // ---- Over runs ----

  /** Whatever happened since a request was made: the answer to it takes effect exactly if nobody gave up, nothing answers
      the request already, and what was asked about still stands. */
  lemma CompletionMeaning(states: seq<Runtime>, acts: seq<Action>, i: nat)
    requires IsRun(states, acts) && i < |acts| && StepAt(states, acts, i) && acts[i].Finish?
    ensures var (s, act) := (states[i], acts[i]);
      Completed(s.world, s.waiting[act.id].pending, act.answer, act.aborted, states[i + 1].world, Ending(s, act).value)
  {
    var (s, act) := (states[i], acts[i]);
    Always(states, acts, i);
    var waiter := s.waiting[act.id];
    if waiter.pending.UserReview? {
      UserCompleted(waiter.made, s.world, waiter.pending, act.answer.value, act.aborted);
    } else if waiter.pending.AncestorReview? {
      AncestorCompleted(waiter.made, s.world, waiter.pending, act.answer, act.aborted);
    } else {
      LlmCompleted(waiter.made, s.world, waiter.pending, act.answer, act.aborted);
    }
  }

  /** Everyone whom a choice reaches finds it at the pattern chosen. */
  lemma FoundAtPattern(w: World, n: World, p: Pending, c: Choice, ref: Ref)
    requires Sound(n) && Holds(w, p) && !c.lifetime.Once? && Installed(w, n, p, c) && ref in w.objects && Reaches(p, ref)
    ensures Evaluate(n.objects[ref].policies, c.uri, c.access)
         == Some(Verdict(c.uri, c.access, c.uri, GivenTo(p, c, ref), ExistingUserPolicy))
  {
    assert InstalledFor(w, n, p, c, ref);
    assert WithinBounds(n, ref, n.objects[ref]);
    LookupMeaning(n.objects[ref].policies, c.uri, c.access);
    assert StatusAt(n.objects[ref].policies, c.uri, c.access) == Some(GivenTo(p, c, ref));
  }

  /** The same request, made again, is decided at once by the choice. */
  lemma AskedAgain(w: World, n: World, p: Pending, c: Choice)
    requires Sound(n) && Holds(w, p) && !w.closing && StillOpen(w, p) && Installed(w, n, p, c)
    requires c.access == p.access && c.uri <= p.uri && TextLength(p.uri) <= MAX_POLICY_URI_CHARS
    requires Reaches(p, p.requester) && Quiet(w, p.requester, p.uri, p.access)
    ensures Repeats(Request(n, p.requester, p.uri, p.access, p.once), c)
  {
    if c.lifetime.Once? {
      assert StatusAt(n.once[p.once], c.uri, c.access) == Some(Status(Once, c.response, c.reason));
      SaidOnce(w.once[p.once], n.once[p.once], c, Status(Once, c.response, c.reason), p.uri);
    } else {
      assert InstalledFor(w, n, p, c, p.requester);
      SaidOnce(w.objects[p.requester].policies, n.objects[p.requester].policies, c, GivenTo(p, c, p.requester), p.uri);
    }
    RequestStored(n, p.requester, p.uri, p.access, p.once);
  }

  /** Where nothing was said, the only thing said is what has been set. */
  lemma SaidOnce(before: seq<Policy>, after: seq<Policy>, c: Choice, s: Status, uri: Path)
    requires Mute(before, uri, c.access) && Gains(before, after, c, s) && c.uri <= uri
    ensures !Mute(after, uri, c.access)
    ensures forall pattern, t :: SaidAt(after, uri, c.access, pattern, t) ==> pattern == c.uri && t == s
  {
    assert StatusAt(after, c.uri, c.access) == Some(s);
  }

  predicate Repeats(r: Outcome, c: Choice) {
    r.Decided? && r.verdict.pattern == c.uri && r.verdict.access == c.access && r.verdict.status.response == c.response
  }

  /** An answer that counts reaches the requester, for whom nothing else speaks. */
  lemma CountsForRequester(w0: World, w: World, p: Pending, answer: Option<Choice>, aborted: bool)
    requires Waited(w0, w, p) && Holds(w, p) && Counts(w, p, answer, aborted)
    ensures TextLength(p.uri) <= MAX_POLICY_URI_CHARS
    ensures Reaches(p, p.requester) && Quiet(w, p.requester, p.uri, p.access)
  {
    StandsIsUnchanged(w, p);
    WaitingBounded(w0, w, p);
    if p.AncestorReview? {
      AncestorElsewhere(w0, w, p);
    }
  }

  lemma WaitingBounded(w0: World, w: World, p: Pending)
    requires Waited(w0, w, p)
    ensures TextLength(p.uri) <= MAX_POLICY_URI_CHARS
  {
  }

  /** The authority that was asked is not the requester, nor is the root, which asks nobody. */
  lemma AncestorElsewhere(w0: World, w: World, p: Pending)
    requires Waited(w0, w, p) && p.AncestorReview? && Holds(w, p) && Active(w, p.snapshot.path)
    ensures w.objects[p.requester].agent != w.root && Reaches(p, p.requester)
  {
    WaitingFor(w0, p.requester, p.uri, p.access, p.once, p);
    ResolvedFrom(w0, p.requester, p.uri, p.access);
    assert IsLive(w, p.requester) && Node(w, w.objects[p.requester].agent);
    PathDescends(w, p.snapshot.path, 0, |p.snapshot.path| - 1);
  }

  lemma OfferedWithin(w0: World, w: World, p: Pending, c: Choice)
    requires Waited(w0, w, p) && Holds(w, p) && !p.UserReview? && Counts(w, p, Some(c), false)
    ensures c.access == p.access && c.uri <= p.uri
  {
    if p.AncestorReview? {
      StandsIsUnchanged(w, p);
      WaitedHolds(w0, w, p);
      AuthorityStays(w0, w, p);
      var v := CurrentAuthority(w, p).value;
      ResolveRefuses(w, [p.requester], w.objects[p.requester].parent.value, p.uri, p.access);
      ScopesWithin(p.uri, v.pattern);
      WithinMember(v.pattern, p.uri, p.scopes, c.uri);
    } else {
      LlmOffered(w0, w, p);
      ScopesWithin(p.uri, ROOT);
      WithinMember(ROOT, p.uri, p.scopes, c.uri);
    }
  }

  /** What the user chose is about the access and covers the target; a reviewing agent's choice always does. */
  predicate Fits(p: Pending, c: Choice) {
    p.UserReview? ==> c.access == p.access && c.uri <= p.uri
  }

  lemma AnswerHolds(w0: World, w: World, n: World, p: Pending, c: Choice)
    requires Waited(w0, w, p) && Holds(w, p) && Counts(w, p, Some(c), false) && Fits(p, c)
    requires Sound(n) && Installed(w, n, p, c)
    ensures Repeats(Request(n, p.requester, p.uri, p.access, p.once), c)
  {
    CountsForRequester(w0, w, p, Some(c), false);
    if !p.UserReview? {
      OfferedWithin(w0, w, p, c);
    }
    AskedAgain(w, n, p, c);
  }

  /** Once an answer took effect, the same request is decided as chosen, without asking anybody. */
  lemma ChoiceHolds(states: seq<Runtime>, acts: seq<Action>, i: nat, p: Pending, c: Choice)
    requires IsRun(states, acts) && i < |acts| && StepAt(states, acts, i) && acts[i].Finish?
    requires p == states[i].waiting[acts[i].id].pending && Some(c) == acts[i].answer && Fits(p, c)
    requires Counts(states[i].world, p, Some(c), acts[i].aborted)
    ensures Sound(states[i + 1].world) && Holds(states[i + 1].world, p)
    ensures Repeats(Request(states[i + 1].world, p.requester, p.uri, p.access, p.once), c)
  {
    Always(states, acts, i);
    Always(states, acts, i + 1);
    CompletionMeaning(states, acts, i);
    AnswerHolds(states[i].waiting[acts[i].id].made, states[i].world, states[i + 1].world, p, c);
  }
}
