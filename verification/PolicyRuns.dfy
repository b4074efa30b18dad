/** The policy runtime over whole runs: any interleaving of changes, requests and completions. */
module PolicyRuns {
  import opened Options
  import opened PolicyScope
  import opened PolicyTypes
  import opened PolicyEngine
  import opened PolicyWorld
  import opened PolicyInvariants
  import opened PolicyStaleness
  import opened PolicyAuthority

  /** A waiting request with the world it was made in, which no step reads. */
  datatype Waiter = Waiter(pending: Pending, made: World)

  datatype Runtime = Runtime(world: World, waiting: map<nat, Waiter>)

  /** `Prompt` is the check before the user is asked; it may answer the request by itself. */
  datatype Action =
    | RegisterAgent(agent: AgentId, parent: AgentId, areas: set<Area>, context: string)
    | RemoveAgent(agent: AgentId)
    | UpdateContext(agent: AgentId, context: string)
    | ChangeDefault(area: Area, fallback: Fallback)
    | SetReviewer(available: bool)
    | Shutdown
    | BeginCall(once: nat)
    | Ask(id: nat, requester: Ref, uri: Path, access: Access, once: nat)
    | Prompt(id: nat, aborted: bool)
    | Finish(id: nat, answer: Option<Choice>, aborted: bool)

  ghost predicate Enabled(s: Runtime, act: Action)
    requires Tree(s.world)
  {
    var w := s.world;
    match act
    case RegisterAgent(id, parent, _, _) => CanRegister(w, id, parent)
    case RemoveAgent(id) => CanRemove(w, id)
    case UpdateContext(id, _) => id in w.live
    case BeginCall(once) => once !in w.once
    case Ask(id, requester, _, _, once) => id !in s.waiting && requester in w.objects && once in w.once
    case Prompt(id, _) => id in s.waiting && Holds(w, s.waiting[id].pending) && s.waiting[id].pending.UserReview?
    case Finish(id, answer, _) =>
      id in s.waiting && Holds(w, s.waiting[id].pending) && (s.waiting[id].pending.UserReview? ==> answer.Some?)
    case _ => true
  }

  function Complete(w: World, p: Pending, answer: Option<Choice>, aborted: bool): (World, Verdict)
    requires Tree(w) && Holds(w, p) && (p.UserReview? ==> answer.Some?)
  {
    match p
    case UserReview(_, _, _, _, _, _) => CompleteUser(w, p, answer.value, aborted)
    case AncestorReview(_, _, _, _, _, _, _, _) => CompleteAncestor(w, p, answer, aborted)
    case LlmReview(_, _, _, _, _, _, _) => CompleteLlm(w, p, answer, aborted)
  }

  function Next(s: Runtime, act: Action): Runtime
    requires Tree(s.world) && Enabled(s, act)
  {
    var w := s.world;
    match act
    case RegisterAgent(id, parent, areas, context) => s.(world := Register(w, id, parent, areas, context))
    case RemoveAgent(id) => s.(world := Remove(w, id))
    case UpdateContext(id, context) => s.(world := SetContext(w, id, context))
    case ChangeDefault(area, f) => s.(world := SetDefault(w, area, f))
    case SetReviewer(available) => s.(world := w.(reviewer := available))
    case Shutdown => s.(world := w.(closing := true, reviewer := false))
    case BeginCall(once) => s.(world := w.(once := w.once[once := []]))
    case Ask(id, requester, uri, a, once) =>
      var r := Request(w, requester, uri, a, once);
      if r.Waiting? then s.(waiting := s.waiting[id := Waiter(r.pending, w)]) else s
    case Prompt(id, aborted) =>
      if BeforePrompt(w, s.waiting[id].pending, aborted).Some? then s.(waiting := s.waiting - {id}) else s
    case Finish(id, answer, aborted) =>
      Runtime(Complete(w, s.waiting[id].pending, answer, aborted).0, s.waiting - {id})
  }

  /** The runtime as it is constructed: only the root, with what the database holds. */
  ghost predicate Init(s: Runtime) {
    var w := s.world;
    && s.waiting == map[] && w.once == map[] && !w.closing
    && w.live == map[w.root := 0] && w.next == 1 && w.objects.Keys == {0}
    && w.objects[0].agent == w.root && w.objects[0].parent.None? && w.objects[0].children == {}
    && Distinct(w.objects[0].policies)
    && (forall pattern, a :: StatusAt(w.objects[0].policies, pattern, a).Some? ==>
          InRules(w.database, pattern, a, StatusAt(w.objects[0].policies, pattern, a).value))
    && w.fallbacks == WithFallback(WithFallback([], ReadArea, w.defaults.read), WriteArea, w.defaults.write)
  }

  ghost predicate Invariant(s: Runtime) {
    && Sound(s.world)
    && forall id :: id in s.waiting ==> Waited(s.waiting[id].made, s.world, s.waiting[id].pending)
  }

  // ---- Every step keeps the invariant ----

  lemma InitSound(s: Runtime)
    requires Init(s)
    ensures Invariant(s)
  {
    var w := s.world;
    assert Node(w, w.root);
    var half := WithFallback([], ReadArea, w.defaults.read);
    FallbackFor([], ReadArea, w.defaults.read);
    FallbackFor(half, WriteArea, w.defaults.write);
    forall pattern, a
      ensures StatusAt(w.fallbacks, pattern, a) == if pattern == ROOT then DefaultStatus(w, a) else None
    {
      FallbackAt([], ReadArea, w.defaults.read, pattern, a);
      FallbackAt(half, WriteArea, w.defaults.write, pattern, a);
    }
    assert WithinBounds(w, 0, w.objects[0]);
  }

  lemma FallbackFor(fallbacks: seq<Policy>, area: Area, f: Fallback)
    requires Distinct(fallbacks)
    ensures Distinct(WithFallback(fallbacks, area, f))
  {
    RemoveOneDistinct(fallbacks, ROOT, {AccessOf(area)});
    if Automatic(f).Some? {
      AddOneDistinct(fallbacks, Policy(ROOT, map[AccessOf(area) := AutomatedStatus(Automatic(f).value)]));
    }
  }

  lemma FallbackAt(fallbacks: seq<Policy>, area: Area, f: Fallback, pattern: Path, a: Access)
    requires Distinct(fallbacks)
    ensures StatusAt(WithFallback(fallbacks, area, f), pattern, a) ==
      if pattern == ROOT && a == AccessOf(area) then
        (if Automatic(f).None? then None else Some(AutomatedStatus(Automatic(f).value)))
      else StatusAt(fallbacks, pattern, a)
  {
    RemoveOneMeaning(fallbacks, ROOT, {AccessOf(area)}, pattern, a);
    if Automatic(f).Some? {
      AddOneMeaning(fallbacks, Policy(ROOT, map[AccessOf(area) := AutomatedStatus(Automatic(f).value)]), pattern, a);
    }
  }

  /** What a step may do to the world: keep it sound, and only let time pass. */
  ghost predicate Passes(w: World, n: World) {
    Sound(n) && Later(w, n)
  }

  lemma FallbacksSame(w: World, n: World)
    requires FallbacksAgree(w) && n.fallbacks == w.fallbacks && n.defaults == w.defaults
    ensures FallbacksAgree(n)
  {
    forall pattern, a
      ensures StatusAt(n.fallbacks, pattern, a) == if pattern == ROOT then DefaultStatus(n, a) else None
    {
      assert StatusAt(w.fallbacks, pattern, a) == if pattern == ROOT then DefaultStatus(w, a) else None;
    }
  }

  /** Only names of the family, contexts or children may differ. */
  lemma StoredSame(w: World, n: World)
    requires Stored(w) && n.root == w.root && n.database == w.database
    requires w.root in w.live ==> w.root in n.live && n.live[w.root] == w.live[w.root]
    requires n.objects.Keys <= w.objects.Keys
    requires forall ref :: ref in n.objects ==>
      n.objects[ref].agent == w.objects[ref].agent && n.objects[ref].policies == w.objects[ref].policies
    requires forall once :: once in n.once ==> Distinct(n.once[once])
    ensures Stored(n)
  {
    forall ref | ref in n.objects ensures WithinBounds(n, ref, n.objects[ref]) {
      var o := w.objects[ref];
      assert WithinBounds(w, ref, o);
      forall pattern, a | StatusAt(o.policies, pattern, a).Some?
        ensures Permitted(n, ref, pattern, a, StatusAt(o.policies, pattern, a).value)
      {
        assert Permitted(w, ref, pattern, a, StatusAt(o.policies, pattern, a).value);
      }
    }
  }

  lemma OnceStored(w: World, once: nat, p: Policy)
    requires Sound(w) && once in w.once
    ensures Passes(w, GrantOnce(w, once, p))
  {
    var n := GrantOnce(w, once, p);
    AddOneDistinct(w.once[once], p);
    assert SameFamily(w, n);
    TreeKept(w, n);
    FallbacksSame(w, n);
    StoredSame(w, n);
  }

  lemma GrantAllPasses(w: World, refs: seq<Ref>, p: Policy)
    requires Sound(w) && Known(w, refs)
    requires forall a :: a in p.info ==> p.info[a].lifetime.Session?
    ensures Passes(w, GrantAll(w, refs, p))
  {
    GrantAllStored(w, refs, p);
    GrantAllFamily(w, refs, p);
    TreeKept(w, GrantAll(w, refs, p));
    GrantAllLater(w, refs, p);
    GrantAllFallbacks(w, refs, p);
  }

  lemma {:induction false} GrantAllFallbacks(w: World, refs: seq<Ref>, p: Policy)
    requires Known(w, refs)
    ensures var n := GrantAll(w, refs, p);
      n.fallbacks == w.fallbacks && n.defaults == w.defaults && n.once == w.once && n.database == w.database
    decreases |refs|
  {
    if refs != [] {
      GrantAllFallbacks(Grant(w, refs[0], p), refs[1..], p);
    }
  }

  lemma PassesOn(w0: World, w1: World, w2: World)
    requires Later(w0, w1) && Passes(w1, w2)
    ensures Passes(w0, w2)
  {
    LaterTransitive(w0, w1, w2);
  }

  /** The database first and then the root: what the root holds is what the database holds now. */
  lemma RootStored(w: World, c: Choice)
    requires Tree(w) && Stored(w) && !c.lifetime.Once?
    ensures Stored(StoredAtRoot(w, c))
  {
    assert Node(w, w.root);
    var (n, root, policy) := (StoredAtRoot(w, c), w.live[w.root], PolicyOf(c));
    forall ref | ref in n.objects ensures WithinBounds(n, ref, n.objects[ref]) {
      assert WithinBounds(w, ref, w.objects[ref]);
      if ref == root {
        AddOneDistinct(w.objects[root].policies, policy);
        forall pattern, a | StatusAt(n.objects[root].policies, pattern, a).Some?
          ensures Permitted(n, root, pattern, a, StatusAt(n.objects[root].policies, pattern, a).value)
        {
          AddOneMeaning(w.objects[root].policies, policy, pattern, a);
        }
      }
    }
  }

  lemma GrantLater(w: World, n: World, ref: Ref, p: Policy)
    requires ref in w.objects && n == Grant(w.(database := n.database), ref, p)
    ensures SameFamily(w, n) && Later(w, n) && n.fallbacks == w.fallbacks && n.defaults == w.defaults
  {
    assert Aged(w.objects[ref], n.objects[ref]);
  }

  lemma RootPasses(w: World, c: Choice)
    requires Sound(w) && !c.lifetime.Once?
    ensures Passes(w, StoredAtRoot(w, c))
  {
    assert Node(w, w.root);
    GrantLater(w, StoredAtRoot(w, c), w.live[w.root], PolicyOf(c));
    RootStored(w, c);
    TreeKept(w, StoredAtRoot(w, c));
    FallbacksSame(w, StoredAtRoot(w, c));
  }

  lemma InstallUserPasses(w: World, p: Pending, c: Choice)
    requires Sound(w) && p.UserReview? && Holds(w, p)
    ensures Passes(w, InstallUser(w, p, c).0)
  {
    var policy := PolicyOf(c);
    if c.lifetime.Once? {
      OnceStored(w, p.once, policy);
    } else {
      var rooted := StoredAtRoot(w, c);
      RootPasses(w, c);
      if w.objects[p.requester].agent != w.root {
        GrantAllPasses(rooted, Inner(p.snapshot.path), SessionPolicy(policy));
        PassesOn(w, rooted, InstallUser(w, p, c).0);
      }
    }
  }

  lemma InstallReviewedPasses(w: World, p: Pending, refs: seq<Ref>, c: Choice)
    requires Sound(w) && Holds(w, p) && Known(w, refs)
    ensures Passes(w, InstallReviewed(w, p, refs, c))
  {
    if c.lifetime.Session? {
      GrantAllPasses(w, refs, PolicyOf(c));
    } else {
      OnceStored(w, p.once, PolicyOf(c));
    }
  }

  lemma CompletePasses(w: World, p: Pending, answer: Option<Choice>, aborted: bool)
    requires Sound(w) && Holds(w, p) && (p.UserReview? ==> answer.Some?)
    ensures Passes(w, Complete(w, p, answer, aborted).0)
  {
    var n := Complete(w, p, answer, aborted).0;
    LaterReflexive(w);
    Installs(w, p, answer, aborted);
    if n != w {
      if p.UserReview? {
        InstallUserPasses(w, p, answer.value);
      } else {
        InstallReviewedPasses(w, p, if p.LlmReview? then p.snapshot.path else Inner(p.snapshot.path), answer.value);
      }
    }
  }

  lemma LaterReflexive(w: World)
    ensures Later(w, w)
  {
  }

  /** A completion that changes anything installs the answer, in the route's own way. */
  lemma Installs(w: World, p: Pending, answer: Option<Choice>, aborted: bool)
    requires Tree(w) && Holds(w, p) && (p.UserReview? ==> answer.Some?)
    ensures var n := Complete(w, p, answer, aborted).0;
      n == w ||
      (answer.Some? &&
       n == match p
            case UserReview(_, _, _, _, _, _) => InstallUser(w, p, answer.value).0
            case AncestorReview(_, _, _, _, _, _, _, _) => InstallReviewed(w, p, Inner(p.snapshot.path), answer.value)
            case LlmReview(_, _, _, _, _, _, _) => InstallReviewed(w, p, p.snapshot.path, answer.value))
  {
  }

  lemma RegisterLater(w: World, id: AgentId, parent: AgentId, areas: set<Area>, context: string)
    requires Tree(w) && CanRegister(w, id, parent)
    ensures Later(w, Register(w, id, parent, areas, context))
  {
    assert Node(w, parent);
  }

  lemma RemoveLater(w: World, id: AgentId)
    requires Tree(w) && CanRemove(w, id)
    ensures Later(w, Remove(w, id))
  {
    assert Node(w, id);
  }

  lemma ContextLater(w: World, ref: Ref, context: string)
    requires ref in w.objects
    ensures SameFamily(w, WithContext(w, ref, context))
    ensures Later(w, WithContext(w, ref, context))
  {
  }

  lemma DefaultLater(w: World, area: Area, f: Fallback)
    ensures SameFamily(w, SetDefault(w, area, f)) && Later(w, SetDefault(w, area, f))
  {
    var n := SetDefault(w, area, f);
    assert n.objects == w.objects && n.once == w.once;
    if w.defaults.Get(area) != f {
      DefaultAged(w, n, area);
    }
  }

  lemma DefaultAged(w: World, n: World, area: Area)
    requires n.revisions == w.revisions.With(area, w.revisions.Get(area) + 1)
    requires forall other :: other != area ==> n.defaults.Get(other) == w.defaults.Get(other)
    ensures forall other :: AgedDefault(w, n, other)
  {
  }

  lemma RegisterPasses(w: World, id: AgentId, parent: AgentId, areas: set<Area>, context: string)
    requires Sound(w) && CanRegister(w, id, parent)
    ensures Passes(w, Register(w, id, parent, areas, context))
  {
    var n := Register(w, id, parent, areas, context);
    RegisterTree(w, id, parent, areas, context);
    RegisterLater(w, id, parent, areas, context);
    RegisterStored(w, id, parent, areas, context);
    FallbacksSame(w, n);
  }

  lemma RemovePasses(w: World, id: AgentId)
    requires Sound(w) && CanRemove(w, id)
    ensures Passes(w, Remove(w, id))
  {
    var n := Remove(w, id);
    assert Node(w, id);
    RemoveTree(w, id);
    RemoveLater(w, id);
    FallbacksSame(w, n);
    StoredSame(w, n);
  }

  lemma ContextPasses(w: World, id: AgentId, context: string)
    requires Sound(w) && id in w.live
    ensures Passes(w, SetContext(w, id, context))
  {
    assert Node(w, id);
    var n := WithContext(w, w.live[id], context);
    ContextLater(w, w.live[id], context);
    TreeKept(w, n);
    FallbacksSame(w, n);
    StoredSame(w, n);
  }

  lemma DefaultPasses(w: World, area: Area, f: Fallback)
    requires Sound(w)
    ensures Passes(w, SetDefault(w, area, f))
  {
    var n := SetDefault(w, area, f);
    SetDefaultAgrees(w, area, f);
    DefaultLater(w, area, f);
    TreeKept(w, n);
    StoredSame(w, n);
  }

  /** Nothing that any invariant mentions has changed. */
  lemma SwitchPasses(w: World, n: World)
    requires Sound(w) && n == w.(reviewer := n.reviewer, closing := n.closing, once := n.once)
    requires w.closing ==> n.closing
    requires forall once :: once in w.once ==> once in n.once
    requires forall once :: once in n.once ==> Distinct(n.once[once])
    ensures Passes(w, n)
  {
    TreeKept(w, n);
    FallbacksSame(w, n);
    StoredSame(w, n);
  }

  lemma StepPasses(s: Runtime, act: Action)
    requires Sound(s.world) && Enabled(s, act)
    ensures Passes(s.world, Next(s, act).world)
  {
    var w := s.world;
    match act
    case RegisterAgent(id, parent, areas, context) => RegisterPasses(w, id, parent, areas, context);
    case RemoveAgent(id) => RemovePasses(w, id);
    case UpdateContext(id, context) => ContextPasses(w, id, context);
    case ChangeDefault(area, f) => DefaultPasses(w, area, f);
    case SetReviewer(_) => SwitchPasses(w, Next(s, act).world);
    case Shutdown => SwitchPasses(w, Next(s, act).world);
    case BeginCall(_) => SwitchPasses(w, Next(s, act).world);
    case Ask(_, _, _, _, _) => SwitchPasses(w, w);
    case Prompt(_, _) => SwitchPasses(w, w);
    case Finish(id, answer, aborted) => CompletePasses(w, s.waiting[id].pending, answer, aborted);
  }

  lemma AllWaitersKept(s: Runtime, act: Action, n: Runtime)
    requires Invariant(s) && Passes(s.world, n.world)
    requires forall id :: id in n.waiting ==> WaitsAfter(s, act, n, id)
    ensures Invariant(n)
  {
    forall id | id in n.waiting ensures Waited(n.waiting[id].made, n.world, n.waiting[id].pending) {
      WaiterKept(s, act, n, id);
    }
  }

  lemma InvariantKept(s: Runtime, act: Action)
    requires Invariant(s) && Enabled(s, act)
    ensures Invariant(Next(s, act))
  {
    StepPasses(s, act);
    WaitingAfter(s, act);
    AllWaitersKept(s, act, Next(s, act));
  }

  /** Who waits after a step: those who waited before, and the one just asked for. */
  ghost predicate WaitsAfter(s: Runtime, act: Action, n: Runtime, id: nat)
    requires id in n.waiting
  {
    || (id in s.waiting && n.waiting[id] == s.waiting[id])
    || (act.Ask? && act.id == id && id !in s.waiting && act.requester in s.world.objects && act.once in s.world.once
        && Tree(s.world) && n.waiting[id].made == s.world
        && Request(s.world, act.requester, act.uri, act.access, act.once) == Waiting(n.waiting[id].pending))
  }

  lemma WaitingAfter(s: Runtime, act: Action)
    requires Tree(s.world) && Enabled(s, act)
    ensures forall id :: id in Next(s, act).waiting ==> WaitsAfter(s, act, Next(s, act), id)
  {
  }

  lemma WaiterKept(s: Runtime, act: Action, n: Runtime, id: nat)
    requires id in n.waiting && WaitsAfter(s, act, n, id) && Passes(s.world, n.world) && Sound(s.world)
    requires id in s.waiting ==> Waited(s.waiting[id].made, s.world, s.waiting[id].pending)
    ensures Waited(n.waiting[id].made, n.world, n.waiting[id].pending)
  {
    if id in s.waiting {
      LaterTransitive(s.waiting[id].made, s.world, n.world);
    } else {
      AskedFor(s.world, act);
    }
  }

  lemma AskedFor(w: World, act: Action)
    requires Tree(w) && act.Ask? && act.requester in w.objects && act.once in w.once
    ensures var r := Request(w, act.requester, act.uri, act.access, act.once);
      r.Waiting? ==> r.pending.requester == act.requester && r.pending.uri == act.uri
                     && r.pending.access == act.access && r.pending.once == act.once
  {
    var r := Request(w, act.requester, act.uri, act.access, act.once);
    if r.Waiting? {
      WaitingFor(w, act.requester, act.uri, act.access, act.once, r.pending);
    }
  }
}
