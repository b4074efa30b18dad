/** The runtime as objects: principals that requests may hold, and the registry that names the live ones. */
module PolicyRuntime {
  import opened Options
  import opened PolicyScope
  import opened PolicyTypes
  import opened PolicyEngine
  import opened PolicyWorld
  import opened PolicyInvariants
  import opened PolicyStaleness

  class PolicyPrincipal {
    const ref: Ref
    const agentIdentifier: AgentId
    const parentAgentIdentifier: Option<AgentId>
    const policies: Engine
    var children: set<AgentId>
    var policyRevision: nat
    var context: string
    var contextRevision: nat

    constructor (ref: Ref, agentIdentifier: AgentId, parent: Option<AgentId>, initial: seq<Policy>, context: string)
      ensures fresh(policies)
      ensures this.ref == ref
      ensures Record() == Principal(agentIdentifier, parent, {}, Add([], initial), 0, context, 0)
    {
      this.ref, this.agentIdentifier, this.parentAgentIdentifier := ref, agentIdentifier, parent;
      this.policies := new Engine(initial);
      this.children, this.policyRevision, this.context, this.contextRevision := {}, 0, context, 0;
    }

    function Record(): Principal
      reads this, policies
    {
      Principal(agentIdentifier, parentAgentIdentifier, children, policies.policies, policyRevision, context, contextRevision)
    }

    method SetContext(context: string)
      modifies this`context, this`contextRevision
      ensures Record() == old(Record()).(context := context, contextRevision := old(contextRevision) + 1)
    {
      this.context := context;
      contextRevision := contextRevision + 1;
    }

    method SetChildren(children: set<AgentId>)
      modifies this`children
      ensures Record() == old(Record()).(children := children)
    {
      this.children := children;
    }

    method AddPolicy(policy: Policy)
      modifies this, policies
      ensures Record() == old(Record()).(policies := AddOne(old(policies.policies), policy), policyRevision := old(policyRevision) + 1)
    {
      policies.AddPolicies([policy]);
      policyRevision := policyRevision + 1;
      assert [policy][1..] == [];
    }
  }

  datatype Owner = Fallbacks | OfPrincipal(ref: Ref) | OfCall(once: nat)

  /** Every principal object there ever was, those that are registered, the tool calls' own engines, and
      who owns which engine. */
  datatype Registry = Registry(live: map<AgentId, PolicyPrincipal>, objects: map<Ref, PolicyPrincipal>,
                            once: map<nat, Engine>, owner: map<Engine, Owner>)

  /** No two owners share an engine, and an identity belongs to one object. */
  ghost predicate Separate(l: Registry) {
    && (forall r :: r in l.objects ==>
          l.objects[r].ref == r && l.objects[r].policies in l.owner && l.owner[l.objects[r].policies] == OfPrincipal(r))
    && (forall k :: k in l.once ==> l.once[k] in l.owner && l.owner[l.once[k]] == OfCall(k))
    && (forall id :: id in l.live ==> l.live[id].ref in l.objects && l.objects[l.live[id].ref] == l.live[id])
  }

  ghost function Enrolled(l: Layout, p: PolicyPrincipal): (n: Layout)
    requires p.ref !in l.objects && p.policies !in l.owner
    ensures n == Registry(l.live[p.agentIdentifier := p], l.objects[p.ref := p], l.once, l.owner[p.policies := OfPrincipal(p.ref)])
  {
    Registry(l.live[p.agentIdentifier := p], l.objects[p.ref := p], l.once, l.owner[p.policies := OfPrincipal(p.ref)])
  }

  ghost function Withdrawn(l: Layout, id: AgentId): Layout {
    l.(live := l.live - {id})
  }

  type Layout = l: Registry | Separate(l) witness Registry(map[], map[], map[], map[])

  /** The fallback engine's policy for one area. */
  method ApplyFallback(fallbacks: Engine, area: Area, response: Fallback)
    modifies fallbacks
    ensures fallbacks.policies == WithFallback(old(fallbacks.policies), area, response)
  {
    var status := Automatic(response);
    if status.None? {
      fallbacks.RemovePolicies(ROOT, {AccessOf(area)});
    } else {
      fallbacks.AddPolicies([Policy(ROOT, map[AccessOf(area) := Status(Session, status.value, "Automated fallback")])]);
    }
  }

  method InitialFallbacks(defaults: PerArea<Fallback>) returns (fallbacks: Engine)
    ensures fresh(fallbacks)
    ensures fallbacks.policies == WithFallback(WithFallback([], ReadArea, defaults.read), WriteArea, defaults.write)
  {
    fallbacks := new Engine([]);
    ApplyFallback(fallbacks, ReadArea, defaults.read);
    ApplyFallback(fallbacks, WriteArea, defaults.write);
  }

  class Runtime {
    const rootAgentIdentifier: AgentId
    const rootFallbackPolicies: Engine
    var principals: map<AgentId, PolicyPrincipal>
    var defaultResponses: PerArea<Fallback>
    var fallbackRevisions: PerArea<nat>
    var reviewer: bool
    var closing: bool
    var next: Ref

    ghost var layout: Layout

    // What the policy database holds, as it was loaded and as this runtime has written it since.
    ghost var database: Rules

    constructor (root: AgentId, stored: seq<Policy>, defaults: PerArea<Fallback>, context: string, ghost entries: Rules)
      ensures Valid()
      ensures State() == Initial(root, stored, defaults, context, entries)
    {
      var p := new PolicyPrincipal(0, root, None, stored, context);
      var fallbacks := InitialFallbacks(defaults);
      rootAgentIdentifier, rootFallbackPolicies := root, fallbacks;
      principals, next := map[root := p], 1;
      defaultResponses, fallbackRevisions := defaults, PerArea(0, 0);
      reviewer, closing := false, false;
      database := entries;
      layout := Registry(map[root := p], map[0 := p], map[], map[p.policies := OfPrincipal(0), fallbacks := Fallbacks]);
      new;
      Alone(p);
    }

    /** With the root alone, the state is its record. */
    lemma Alone(p: PolicyPrincipal)
      requires p.ref == 0 && layout.objects == map[0 := p] && layout.once == map[]
      requires layout.live == map[p.agentIdentifier := p]
      ensures Objects() == map[0 := p.Record()]
      ensures Live() == map[p.agentIdentifier := 0]
      ensures Calls() == map[]
    {
    }

    ghost predicate Valid()
      reads this`layout, this`principals
    {
      layout.live == principals && OwnFallbacks()
    }

    ghost predicate OwnFallbacks()
      reads this`layout
    {
      rootFallbackPolicies in layout.owner && layout.owner[rootFallbackPolicies] == Fallbacks
    }

    ghost predicate Enlisted(p: PolicyPrincipal)
      reads this`layout
    {
      p.ref in layout.objects && layout.objects[p.ref] == p
    }

    ghost function Objects(): map<Ref, Principal>
      reads this`layout, layout.objects.Values, layout.owner.Keys
    {
      map r | r in layout.objects :: layout.objects[r].Record()
    }

    ghost function Calls(): map<nat, seq<Policy>>
      reads this`layout, layout.owner.Keys
    {
      map k | k in layout.once :: layout.once[k].policies
    }

    ghost function Live(): map<AgentId, Ref>
      reads this`layout
    {
      map id | id in layout.live :: layout.live[id].ref
    }

    ghost function State(): World
      reads this, rootFallbackPolicies, layout.objects.Values, layout.owner.Keys
    {
      World(rootAgentIdentifier, Objects(), Live(), next, rootFallbackPolicies.policies, defaultResponses,
            fallbackRevisions, database, Calls(), reviewer, closing)
    }

    /** The fallback engine's policy for one area. */
    method SetFallback(area: Area, response: Fallback)
      requires Valid()
      modifies rootFallbackPolicies
      ensures State() == old(State()).(fallbacks := WithFallback(old(State()).fallbacks, area, response))
    {
      ApplyFallback(rootFallbackPolicies, area, response);
      assert Objects() == old(Objects()) && Calls() == old(Calls());
    }

    method ChangeDefault(area: Area, response: Fallback)
      modifies this`defaultResponses, this`fallbackRevisions
      ensures State() == old(State()).(defaults := old(defaultResponses).With(area, response),
                                       revisions := old(fallbackRevisions).With(area, old(fallbackRevisions).Get(area) + 1))
    {
      defaultResponses := defaultResponses.With(area, response);
      fallbackRevisions := fallbackRevisions.With(area, fallbackRevisions.Get(area) + 1);
      assert Objects() == old(Objects());
      assert Calls() == old(Calls());
    }

    method SetDefaultResponse(area: Area, response: Fallback)
      requires Valid()
      modifies this, rootFallbackPolicies
      ensures Valid() && layout == old(layout)
      ensures State() == SetDefault(old(State()), area, response)
    {
      if defaultResponses.Get(area) == response {
        return;
      }
      ChangeDefault(area, response);
      SetFallback(area, response);
    }

    /** Changing one principal changes one record. */
    twostate lemma ObjectsAfter(p: PolicyPrincipal)
      requires layout.objects == old(layout.objects) && layout.owner == old(layout.owner)
      requires Enlisted(p)
      requires forall o :: o in layout.objects.Values && o != p ==> unchanged(o)
      requires forall e :: e in layout.owner && e != p.policies ==> unchanged(e)
      ensures Objects() == old(Objects())[p.ref := p.Record()]
    {
      forall r | r in layout.objects && r != p.ref ensures layout.objects[r].Record() == old(layout.objects[r].Record()) {
        assert layout.objects[r] in layout.objects.Values && layout.objects[r] != p;
        assert layout.owner[layout.objects[r].policies] != layout.owner[p.policies];
      }
    }

    twostate lemma CallsAfter(p: PolicyPrincipal)
      requires layout.once == old(layout.once) && layout.owner == old(layout.owner) && old(Enlisted(p))
      requires forall e :: e in layout.owner && e != p.policies ==> unchanged(e)
      ensures Calls() == old(Calls())
    {
      forall k | k in layout.once ensures layout.once[k].policies == old(layout.once[k].policies) {
        assert layout.owner[layout.once[k]] != layout.owner[p.policies];
      }
    }

    method AddPrincipalPolicies(p: PolicyPrincipal, policy: Policy)
      requires OwnFallbacks() && Enlisted(p)
      modifies p, p.policies
      ensures State() == Grant(old(State()), p.ref, policy)
    {
      ghost var w := State();
      p.AddPolicy(policy);
      ObjectsAfter(p);
      CallsAfter(p);
      assert State() == w.(objects := w.objects[p.ref := p.Record()]);
    }

    // ---- Registration ----

    /** What the parent may do by itself, its own policies before the fallbacks. */
    method EffectivePolicies(p: PolicyPrincipal) returns (policies: seq<Policy>)
      requires Valid() && Enlisted(p)
      ensures policies == Effective(State(), p.ref)
    {
      if p.agentIdentifier != rootAgentIdentifier {
        return p.policies.policies;
      }
      var effective := new Engine(rootFallbackPolicies.policies);
      effective.AddPolicies(p.policies.policies);
      return effective.policies;
    }

    method InheritedPolicySnapshot(parent: PolicyPrincipal, areas: set<Area>) returns (policies: seq<Policy>)
      requires Valid() && Enlisted(parent)
      ensures policies == Inherited(State(), parent.ref, areas)
    {
      if areas == {} {
        return [];
      }
      var effective := EffectivePolicies(parent);
      policies := Restricted(effective, set area | area in areas :: AccessOf(area));
    }

    method ChangeContext(p: PolicyPrincipal, context: string)
      requires Enlisted(p)
      modifies p
      ensures State() == WithContext(old(State()), p.ref, context)
    {
      p.SetContext(context);
      ObjectsAfter(p);
      CallsAfter(p);
    }

    method ChangeChildren(p: PolicyPrincipal, children: set<AgentId>)
      requires Enlisted(p)
      modifies p
      ensures State() == WithChildren(old(State()), p.ref, children)
    {
      p.SetChildren(children);
      ObjectsAfter(p);
      CallsAfter(p);
    }

    /** Registers a new principal object under a free name. */
    method Enroll(p: PolicyPrincipal)
      requires Valid() && p.ref == next && next !in layout.objects && p.agentIdentifier !in principals
      requires p.policies !in layout.owner
      modifies this
      ensures Valid()
      ensures forall r :: r in old(layout.objects) ==> r in layout.objects && layout.objects[r] == old(layout.objects)[r]
      ensures State() == Admit(old(State()), p.Record())
    {
      layout := Enrolled(layout, p);
      principals := principals[p.agentIdentifier := p];
      next := next + 1;
      EnrolledObjects(p);
      EnrolledNames(p);
    }

    twostate lemma EnrolledObjects(p: PolicyPrincipal)
      requires p.ref !in old(layout.objects) && p.policies !in old(layout.owner) && layout == Enrolled(old(layout), p)
      requires forall o :: o in old(layout.objects).Values ==> unchanged(o)
      requires forall e :: e in old(layout.owner) ==> unchanged(e)
      ensures Objects() == old(Objects())[p.ref := p.Record()]
    {
      forall r | r in old(layout.objects) ensures layout.objects[r].Record() == old(layout.objects[r].Record()) {
        assert old(layout.objects)[r] in old(layout.objects).Values;
      }
    }

    twostate lemma EnrolledNames(p: PolicyPrincipal)
      requires p.ref !in old(layout.objects) && p.policies !in old(layout.owner) && layout == Enrolled(old(layout), p)
      requires forall e :: e in old(layout.owner) ==> unchanged(e)
      ensures Live() == old(Live())[p.agentIdentifier := p.ref] && Calls() == old(Calls())
    {
    }

    twostate lemma WithdrawnName(id: AgentId)
      requires layout == Withdrawn(old(layout), id)
      requires forall o :: o in layout.objects.Values ==> unchanged(o)
      ensures Live() == old(Live()) - {id}
    {
    }

    twostate lemma WithdrawnRecords(id: AgentId)
      requires layout == Withdrawn(old(layout), id)
      requires forall o :: o in layout.objects.Values ==> unchanged(o)
      requires forall e :: e in layout.owner ==> unchanged(e)
      ensures Objects() == old(Objects()) && Calls() == old(Calls())
    {
      forall r | r in layout.objects ensures layout.objects[r].Record() == old(layout.objects[r].Record()) {
        assert layout.objects[r] in layout.objects.Values;
      }
    }

    /** Takes the name out of the registry; requests may go on holding the object. */
    method Withdraw(id: AgentId)
      requires Valid() && id in principals
      modifies this
      ensures Valid() && layout.objects == old(layout.objects)
      ensures State() == old(State()).(live := old(Live()) - {id})
    {
      layout := Withdrawn(layout, id);
      principals := principals - {id};
      WithdrawnName(id);
      WithdrawnRecords(id);
    }

    method RegisterPolicyPrincipal(id: AgentId, parentId: AgentId, areas: set<Area>, context: string) returns (ok: bool)
      requires Valid() && Tree(State())
      modifies this, layout.objects.Values
      ensures Valid() && ok == CanRegister(old(State()), id, parentId)
      ensures State() == if ok then Register(old(State()), id, parentId, areas, context) else old(State())
    {
      if id in principals || parentId !in principals {
        return false;
      }
      Named(State(), parentId);
      Adopt(id, principals[parentId], areas, context);
      return true;
    }

    /** A principal with what it inherits from `parent`, not registered yet. */
    method Heir(id: AgentId, parent: PolicyPrincipal, areas: set<Area>, context: string) returns (p: PolicyPrincipal)
      requires Valid() && Enlisted(parent)
      ensures fresh(p) && fresh(p.policies) && p.ref == next
      ensures State() == old(State())
      ensures p.Record() == Principal(id, Some(parent.agentIdentifier), {},
                                      Add([], Inherited(State(), parent.ref, areas)), 0, context, 0)
    {
      var inherited := InheritedPolicySnapshot(parent, areas);
      p := new PolicyPrincipal(next, id, Some(parent.agentIdentifier), inherited, context);
    }

    method Adopt(id: AgentId, parent: PolicyPrincipal, areas: set<Area>, context: string)
      requires Valid() && Enlisted(parent) && next !in layout.objects && id !in principals
      modifies this, parent
      ensures Valid()
      ensures var w := old(State());
        var child := Principal(id, Some(parent.agentIdentifier), {}, Add([], Inherited(w, parent.ref, areas)), 0, context, 0);
        State() == WithChildren(Admit(w, child), parent.ref, w.objects[parent.ref].children + {id})
    {
      var p := Heir(id, parent, areas, context);
      Enroll(p);
      ChangeChildren(parent, parent.children + {id});
    }

    method RemovePolicyPrincipal(id: AgentId) returns (ok: bool)
      requires Valid() && Tree(State())
      modifies this, layout.objects.Values
      ensures Valid() && ok == CanRemove(old(State()), id)
      ensures State() == if ok then Remove(old(State()), id) else old(State())
    {
      if id !in principals || id == rootAgentIdentifier {
        return false;
      }
      var p := principals[id];
      Named(State(), id);
      if p.children != {} {
        return false;
      }
      if p.parentAgentIdentifier.Some? {
        var parent := principals[p.parentAgentIdentifier.value];
        ChangeChildren(parent, parent.children - {id});
      }
      Withdraw(id);
      return true;
    }

    method UpdatePolicyPrincipalContext(id: AgentId, context: string) returns (ok: bool)
      requires Valid() && Tree(State())
      modifies if id in principals then {principals[id]} else {}
      ensures ok == (id in old(State()).live)
      ensures State() == if ok then SetContext(old(State()), id, context) else old(State())
    {
      if id !in principals {
        return false;
      }
      ChangeContext(principals[id], context);
      return true;
    }

    // ---- Walking the tree ----

    ghost predicate EnlistedPath(path: seq<PolicyPrincipal>)
      reads this`layout
    {
      forall i :: 0 <= i < |path| ==> Enlisted(path[i])
    }

    method EvaluatePrincipalAuthority(p: PolicyPrincipal, uri: Path, a: Access) returns (v: Option<Verdict>)
      requires Enlisted(p)
      ensures v == Authority(State(), p.ref, uri, a)
    {
      v := p.policies.EvaluateStored(uri, a);
      if v.Some? || p.agentIdentifier != rootAgentIdentifier {
        return;
      }
      v := rootFallbackPolicies.EvaluateStored(uri, a);
      v := if v.Some? then Some(SystemVerdict(v.value)) else None;
    }

    method PathToRoot(p: PolicyPrincipal, ghost w: World) returns (path: Option<seq<PolicyPrincipal>>)
      requires layout.live == principals && Enlisted(p) && w == State() && Tree(w)
      ensures path.None? <==> PolicyWorld.PathToRoot(w, p.ref).None?
      ensures path.Some? ==> EnlistedPath(path.value) && PolicyWorld.PathToRoot(w, p.ref) == Some(Refs(path.value))
    {
      assert Refs([p]) == [p.ref];
      if p.parentAgentIdentifier.None? {
        return Some([p]);
      }
      if p.parentAgentIdentifier.value !in principals {
        return None;
      }
      var whole := Climb(p, p.parentAgentIdentifier.value, w);
      return Some(whole);
    }

    method Climb(p: PolicyPrincipal, first: AgentId, ghost w: World) returns (path: seq<PolicyPrincipal>)
      requires layout.live == principals && Enlisted(p) && w == State() && Tree(w) && first in principals
      ensures first in w.live && EnlistedPath(path) && Refs(path) == [p.ref] + Chain(w, first)
    {
      var id := first;
      path := [p];
      assert Refs(path) == [p.ref];
      while true
        invariant id in principals && EnlistedPath(path)
        invariant Refs(path) + Chain(w, id) == [p.ref] + Chain(w, first)
        decreases principals[id].ref
      {
        var parent := principals[id];
        ClimbHop(w, Refs(path), id);
        LongerPath(path, parent);
        path := path + [parent];
        if parent.parentAgentIdentifier.None? {
          return;
        }
        id := parent.parentAgentIdentifier.value;
      }
    }

    /** The nearest ancestor with something to say, found while walking up; `None` when the parent is gone. */
    method ResolveAncestorAuthority(requester: PolicyPrincipal, uri: Path, a: Access, ghost w: World)
      returns (r: Option<Resolution>, path: seq<PolicyPrincipal>)
      requires layout.live == principals && Enlisted(requester) && w == State() && Tree(w)
      ensures r == ResolveAncestor(w, requester.ref, uri, a)
      ensures EnlistedPath(path) && (r.Some? && r.value.Authorized? ==> Refs(path) == r.value.path)
    {
      path := [requester];
      assert Refs(path) == [requester.ref];
      if requester.parentAgentIdentifier.None? {
        return Some(Unresolved), path;
      }
      if requester.parentAgentIdentifier.value !in principals {
        return None, path;
      }
      var found;
      found, path := SearchFrom(requester, requester.parentAgentIdentifier.value, uri, a, w);
      r := Some(found);
    }

    /** The registered principal of a name, as the value of the state shows it. */
    lemma InState(w: World, id: AgentId)
      requires layout.live == principals && w == State() && id in principals
      ensures id in w.live && w.live[id] == principals[id].ref && Enlisted(principals[id])
      ensures w.live[id] in w.objects && w.objects[w.live[id]].parent == principals[id].parentAgentIdentifier
    {
    }

    /** The search has come to the name `id`, past the principals in `path`. */
    ghost predicate Searching(w: World, path: seq<PolicyPrincipal>, id: AgentId)
      reads this
    {
      id in principals && id in w.live && EnlistedPath(path) && PolicyWorld.Known(w, Refs(path))
    }

    lemma LongerPath(path: seq<PolicyPrincipal>, p: PolicyPrincipal)
      requires EnlistedPath(path) && Enlisted(p)
      ensures EnlistedPath(path + [p]) && Refs(path + [p]) == Refs(path) + [p.ref]
    {
    }

    /** Asks one parent; if it has nothing to say, `id` moves on to its own parent. */
    method AskParent(below: seq<PolicyPrincipal>, at: AgentId, uri: Path, a: Access, ghost w: World)
      returns (found: Option<Resolution>, path: seq<PolicyPrincipal>, id: AgentId)
      requires layout.live == principals && w == State() && Tree(w) && Searching(w, below, at)
      ensures EnlistedPath(path)
      ensures found.Some? ==> found.value == Resolve(w, Refs(below), at, uri, a)
      ensures found.Some? && found.value.Authorized? ==> Refs(path) == found.value.path
      ensures found.None? ==> Searching(w, path, id) && w.live[id] < w.live[at]
      ensures found.None? ==> Resolve(w, Refs(path), id, uri, a) == Resolve(w, Refs(below), at, uri, a)
    {
      var parent := principals[at];
      InState(w, at);
      LongerPath(below, parent);
      path, id, found := below + [parent], at, None;
      var v := EvaluatePrincipalAuthority(parent, uri, a);
      if v.Some? {
        found := Some(if v.value.status.response.Denied? then Refused(v.value) else Authorized(Refs(path), v.value));
      } else if parent.parentAgentIdentifier.None? {
        found := Some(Unresolved);
      } else {
        id := parent.parentAgentIdentifier.value;
      }
      SearchHop(w, Refs(below), at, uri, a);
    }

    method SearchFrom(requester: PolicyPrincipal, first: AgentId, uri: Path, a: Access, ghost w: World)
      returns (r: Resolution, path: seq<PolicyPrincipal>)
      requires layout.live == principals && w == State() && Tree(w) && Searching(w, [requester], first)
      ensures r == Resolve(w, Refs([requester]), first, uri, a)
      ensures EnlistedPath(path) && (r.Authorized? ==> Refs(path) == r.path)
    {
      var id := first;
      path := [requester];
      while true
        invariant Searching(w, path, id)
        invariant Resolve(w, Refs(path), id, uri, a) == Resolve(w, Refs([requester]), first, uri, a)
        decreases w.live[id]
      {
        var found;
        found, path, id := AskParent(path, id, uri, a, w);
        if found.Some? {
          r := found.value;
          return;
        }
      }
    }

    method IsActivePrincipalPath(path: seq<PolicyPrincipal>, ghost w: World) returns (active: bool)
      requires layout.live == principals && w == State() && EnlistedPath(path)
      ensures PolicyWorld.Known(w, Refs(path)) && active == Active(w, Refs(path))
    {
      for i := 0 to |path|
        invariant forall j :: 0 <= j < i ==> IsLive(w, path[j].ref)
        invariant forall j :: 0 < j < |path| && j <= i ==> w.objects[path[j - 1].ref].parent == Some(w.objects[path[j].ref].agent)
      {
        var p := path[i];
        if p.agentIdentifier !in principals || principals[p.agentIdentifier] != p {
          assert !IsLive(w, Refs(path)[i]);
          return false;
        }
        if i + 1 < |path| && p.parentAgentIdentifier != Some(path[i + 1].agentIdentifier) {
          assert w.objects[Refs(path)[i + 1 - 1]].parent != Some(w.objects[Refs(path)[i + 1]].agent);
          return false;
        }
      }
      return true;
    }

    // ---- Completing reviews ----

    /** What a waiting request holds: the objects on its path and its call's engine. */
    ghost predicate Holding(p: Pending, path: seq<PolicyPrincipal>, oncePolicies: Engine)
      reads this`layout
    {
      && EnlistedPath(path) && path != [] && Refs(path) == p.snapshot.path && WellFormed(p.snapshot)
      && path[0].ref == p.requester
      && p.once in layout.once && layout.once[p.once] == oncePolicies
    }

    lemma HoldingHolds(p: Pending, path: seq<PolicyPrincipal>, oncePolicies: Engine)
      requires Holding(p, path, oncePolicies)
      ensures Holds(State(), p) && path[0].Record() == State().objects[p.requester]
      ensures oncePolicies.policies == State().once[p.once]
    {
    }

    method StoredWhilePending(p: Pending, path: seq<PolicyPrincipal>, oncePolicies: Engine, ghost w: World)
      returns (v: Option<Verdict>)
      requires w == State() && Holding(p, path, oncePolicies)
      ensures Holds(w, p) && v == StoredMeanwhile(w, p)
    {
      HoldingHolds(p, path, oncePolicies);
      v := path[0].policies.EvaluateStored(p.uri, p.access);
      if v.None? {
        v := oncePolicies.EvaluateStored(p.uri, p.access);
      }
    }

    method IsUnchangedPrincipalPath(p: Pending, path: seq<PolicyPrincipal>, oncePolicies: Engine, ghost w: World)
      returns (unchangedPath: bool)
      requires w == State() && Holding(p, path, oncePolicies)
      ensures Holds(w, p) && unchangedPath == Unchanged(w, p.snapshot)
    {
      HoldingHolds(p, path, oncePolicies);
      for i := 0 to |path|
        invariant forall j :: 0 <= j < i ==> path[j].policyRevision == p.snapshot.policyRevisions[j]
        invariant forall j :: 0 <= j < i ==> path[j].contextRevision == p.snapshot.contextRevisions[j]
      {
        if path[i].policyRevision != p.snapshot.policyRevisions[i]
           || path[i].contextRevision != p.snapshot.contextRevisions[i] {
          assert w.objects[p.snapshot.path[i]] == path[i].Record();
          return false;
        }
      }
      forall j | 0 <= j < |path| ensures w.objects[p.snapshot.path[j]] == path[j].Record() { }
      return true;
    }

    method PathStands(p: Pending, path: seq<PolicyPrincipal>, oncePolicies: Engine, ghost w: World) returns (stands: bool)
      requires layout.live == principals && w == State() && Holding(p, path, oncePolicies)
      ensures Holds(w, p) && stands == (Active(w, p.snapshot.path) && Unchanged(w, p.snapshot))
    {
      HoldingHolds(p, path, oncePolicies);
      stands := IsActivePrincipalPath(path, w);
      if stands {
        stands := IsUnchangedPrincipalPath(p, path, oncePolicies, w);
      }
    }

    /** What those above and the revisions say before the user is asked. */
    method QueuedAbove(p: Pending, path: seq<PolicyPrincipal>, oncePolicies: Engine, ghost w: World) returns (v: Option<Verdict>)
      requires Valid() && w == State() && Tree(w) && p.UserReview? && Holding(p, path, oncePolicies)
      ensures Holds(w, p) && v == AskedAbove(w, p)
    {
      HoldingHolds(p, path, oncePolicies);
      var above, _ := ResolveAncestorAuthority(path[0], p.uri, p.access, w);
      if above.Some? && above.value.Refused? {
        return Some(above.value.verdict);
      }
      var same := StillAsksUser(p, path, oncePolicies, w);
      return if same then None else Some(NoLongerActive(p));
    }

    method StillAsksUser(p: Pending, path: seq<PolicyPrincipal>, oncePolicies: Engine, ghost w: World) returns (same: bool)
      requires w == State() && p.UserReview? && Holding(p, path, oncePolicies)
      ensures Holds(w, p) && same == (Unchanged(w, p.snapshot) && DefaultIs(w, p, AskUser))
    {
      same := IsUnchangedPrincipalPath(p, path, oncePolicies, w);
      var area := AreaOf(p.access);
      same := same && fallbackRevisions.Get(area) == p.fallback && defaultResponses.Get(area).AskUser?;
    }

    /** The full check before the user is asked. */
    method QueuedUserApprovalResolution(p: Pending, path: seq<PolicyPrincipal>, oncePolicies: Engine, aborted: bool, ghost w: World)
      returns (v: Option<Verdict>)
      requires Valid() && w == State() && Tree(w) && p.UserReview? && Holding(p, path, oncePolicies)
      ensures Holds(w, p) && v == BeforePrompt(w, p, aborted)
    {
      HoldingHolds(p, path, oncePolicies);
      var over := IsOver(path, aborted, w);
      if over {
        v := Some(NoLongerActive(p));
      } else {
        v := QueuedAnswer(p, path, oncePolicies, w);
      }
      PromptParts(w, p, aborted);
    }

    /** The request cannot be answered any more. */
    method IsOver(path: seq<PolicyPrincipal>, aborted: bool, ghost w: World) returns (over: bool)
      requires layout.live == principals && w == State() && EnlistedPath(path)
      ensures PolicyWorld.Known(w, Refs(path)) && over == (aborted || w.closing || !Active(w, Refs(path)))
    {
      over := IsActivePrincipalPath(path, w);
      over := aborted || closing || !over;
    }

    method QueuedAnswer(p: Pending, path: seq<PolicyPrincipal>, oncePolicies: Engine, ghost w: World) returns (v: Option<Verdict>)
      requires Valid() && w == State() && Tree(w) && p.UserReview? && Holding(p, path, oncePolicies)
      ensures Holds(w, p)
      ensures v == if SaidLocally(w, p).Some? then SaidLocally(w, p) else AskedAbove(w, p)
    {
      HoldingHolds(p, path, oncePolicies);
      v := QueuedStored(p, path, oncePolicies, w);
      if v.None? {
        v := QueuedAbove(p, path, oncePolicies, w);
      }
    }

    /** What the requester, the fallbacks of the root or the call itself say before the user is asked. */
    method QueuedStored(p: Pending, path: seq<PolicyPrincipal>, oncePolicies: Engine, ghost w: World) returns (v: Option<Verdict>)
      requires w == State() && Holding(p, path, oncePolicies)
      ensures Holds(w, p)
      ensures v == SaidLocally(w, p)
    {
      HoldingHolds(p, path, oncePolicies);
      assert Enlisted(path[0]);
      v := EvaluateLocally(path[0], p.uri, p.access, p.once, oncePolicies, w);
    }

    /** The shortened check at completion. */
    method UserApprovalObstacle(p: Pending, path: seq<PolicyPrincipal>, oncePolicies: Engine, aborted: bool, ghost w: World)
      returns (v: Option<Verdict>)
      requires layout.live == principals && w == State() && p.UserReview? && Holding(p, path, oncePolicies)
      ensures Holds(w, p) && v == UserObstacle(w, p, aborted)
    {
      HoldingHolds(p, path, oncePolicies);
      v := Some(FailedClosed(p.uri, p.access, "User policy approval is no longer active."));
      var area := AreaOf(p.access);
      if !aborted && !closing && fallbackRevisions.Get(area) == p.fallback && defaultResponses.Get(area) == AskUser {
        var stored := StoredWhilePending(p, path, oncePolicies, w);
        var stands := PathStands(p, path, oncePolicies, w);
        if stored.Some? {
          v := stored;
        } else if stands {
          v := None;
        }
      }
    }

    method AddOncePolicy(once: nat, oncePolicies: Engine, policy: Policy)
      requires OwnFallbacks() && once in layout.once && layout.once[once] == oncePolicies
      modifies oncePolicies
      ensures State() == GrantOnce(old(State()), once, policy)
    {
      oncePolicies.AddPolicies([policy]);
      assert [policy][1..] == [];
      assert Objects() == old(Objects());
      assert Calls() == old(Calls())[once := oncePolicies.policies];
    }

    method GrantPath(path: seq<PolicyPrincipal>, policy: Policy)
      requires OwnFallbacks() && EnlistedPath(path)
      modifies layout.objects.Values, layout.owner.Keys
      ensures State() == GrantAll(old(State()), Refs(path), policy)
    {
      ghost var w := State();
      ghost var rest := Refs(path);
      for i := 0 to |path|
        invariant rest == Refs(path[i..]) && State() == w
        invariant PolicyWorld.Known(w, rest) && GrantAll(w, rest, policy) == GrantAll(old(State()), Refs(path), policy)
      {
        RefsTail(path, i);
        AddPrincipalPolicies(path[i], policy);
        GrantAllHead(w, rest, policy);
        w, rest := Grant(w, rest[0], policy), rest[1..];
      }
    }

    /** Everyone on the path but the last. */
    method GrantInner(path: seq<PolicyPrincipal>, policy: Policy)
      requires OwnFallbacks() && EnlistedPath(path) && path != []
      modifies layout.objects.Values, layout.owner.Keys
      ensures PolicyWorld.Known(old(State()), Inner(Refs(path)))
      ensures State() == GrantAll(old(State()), Inner(Refs(path)), policy)
    {
      RefsInit(path);
      GrantPath(path[..|path| - 1], policy);
    }

    method RecordChoice(c: Choice)
      modifies this`database
      ensures State() == Recorded(old(State()), c)
    {
      if Persisted(c.lifetime) {
        database := database[(c.uri, c.access) := PolicyOf(c).info[c.access]];
      }
    }

    /** The database is written before the root is granted anything. */
    method StoreAtRoot(c: Choice, ghost w: World)
      requires Valid() && w == State() && Tree(w)
      modifies this`database, layout.objects.Values, layout.owner.Keys
      ensures State() == StoredAtRoot(w, c)
    {
      InState(w, rootAgentIdentifier);
      var root := principals[rootAgentIdentifier];
      RecordChoice(c);
      assert State() == Recorded(w, c) && Enlisted(root);
      AddPrincipalPolicies(root, PolicyOf(c));
    }

    /** A lasting choice goes to the root and then to everyone else on the path. */
    method InstallUserChoice(p: Pending, path: seq<PolicyPrincipal>, oncePolicies: Engine, c: Choice, ghost w: World)
      returns (effective: Lifetime)
      requires Valid() && w == State() && Tree(w) && p.UserReview? && Holding(p, path, oncePolicies) && Holds(w, p)
      modifies this`database, layout.objects.Values, layout.owner.Keys
      ensures (State(), effective) == InstallUser(w, p, c)
    {
      if c.lifetime.Once? {
        AddOncePolicy(p.once, oncePolicies, PolicyOf(c));
        return Once;
      }
      HoldingHolds(p, path, oncePolicies);
      StoreAtRoot(c, w);
      effective := c.lifetime;
      if path[0].agentIdentifier != rootAgentIdentifier {
        GrantInner(path, SessionPolicy(PolicyOf(c)));
        effective := Session;
      }
    }

    method CompleteUserApproval(p: Pending, path: seq<PolicyPrincipal>, oncePolicies: Engine, c: Choice, aborted: bool)
      returns (v: Verdict)
      requires Valid() && Tree(State()) && p.UserReview? && Holding(p, path, oncePolicies) && Holds(State(), p)
      modifies this`database, layout.objects.Values, layout.owner.Keys
      ensures (State(), v) == CompleteUser(old(State()), p, c, aborted)
    {
      ghost var w := State();
      HoldingHolds(p, path, oncePolicies);
      var obstacle := UserApprovalObstacle(p, path, oncePolicies, aborted, w);
      if obstacle.Some? {
        return obstacle.value;
      }
      var lifetime := InstallUserChoice(p, path, oncePolicies, c, w);
      v := Verdict(p.uri, p.access, c.uri, Status(lifetime, c.response, c.reason), NewUserDecision);
    }

    method InstallAncestorChoice(p: Pending, path: seq<PolicyPrincipal>, oncePolicies: Engine, c: Choice)
      requires Valid() && Holding(p, path, oncePolicies) && Holds(State(), p)
      modifies layout.objects.Values, layout.owner.Keys
      ensures State() == InstallReviewed(old(State()), p, Inner(p.snapshot.path), c)
    {
      if c.lifetime.Session? {
        GrantInner(path, PolicyOf(c));
      } else {
        AddOncePolicy(p.once, oncePolicies, PolicyOf(c));
      }
    }

    method InstallLlmChoice(p: Pending, path: seq<PolicyPrincipal>, oncePolicies: Engine, c: Choice)
      requires Valid() && Holding(p, path, oncePolicies) && Holds(State(), p)
      modifies layout.objects.Values, layout.owner.Keys
      ensures State() == InstallReviewed(old(State()), p, p.snapshot.path, c)
    {
      if c.lifetime.Session? {
        GrantPath(path, PolicyOf(c));
      } else {
        AddOncePolicy(p.once, oncePolicies, PolicyOf(c));
      }
    }

    /** Whether the authority that answers now is the one the review was asked from, and allows the choice. */
    method AncestorAllows(p: Pending, path: seq<PolicyPrincipal>, oncePolicies: Engine, found: Option<Resolution>, c: Choice,
                          ghost w: World) returns (allowed: bool)
      requires w == State() && Tree(w) && p.AncestorReview? && Holding(p, path, oncePolicies) && Holds(w, p)
      requires found == ResolveAncestor(w, p.requester, p.uri, p.access)
      ensures allowed == AncestorMayChoose(w, p, c)
    {
      allowed := false;
      var same := IsUnchangedPrincipalPath(p, path, oncePolicies, w);
      if same && found.Some? && found.value.Authorized? {
        var v := found.value.verdict;
        var now := found.value.path;
        allowed := (p.borrowed.None? || fallbackRevisions.Get(AreaOf(p.access)) == p.borrowed.value)
          && now[|now| - 1] == p.snapshot.path[|p.snapshot.path| - 1]
          && MayChoose(p, v, c);
      }
      ChoiceParts(w, p, c, found);
    }

    method AncestorReviewRefusal(p: Pending, path: seq<PolicyPrincipal>, oncePolicies: Engine, c: Choice, ghost w: World)
      returns (v: Option<Verdict>)
      requires layout.live == principals && w == State() && Tree(w)
      requires p.AncestorReview? && Holding(p, path, oncePolicies) && Holds(w, p)
      ensures v == AncestorRefusal(w, p, c)
    {
      var found, _ := ResolveAncestorAuthority(path[0], p.uri, p.access, w);
      if found.Some? && found.value.Refused? {
        return Some(found.value.verdict);
      }
      var allowed := AncestorAllows(p, path, oncePolicies, found, c, w);
      v := if allowed then None else AncestorFailed(p);
    }

    method AncestorReviewObstacle(p: Pending, path: seq<PolicyPrincipal>, oncePolicies: Engine, answer: Option<Choice>, aborted: bool,
                                  ghost w: World) returns (v: Option<Verdict>)
      requires Valid() && w == State() && Tree(w) && p.AncestorReview? && Holding(p, path, oncePolicies) && Holds(w, p)
      ensures v == AncestorObstacle(w, p, answer, aborted)
    {
      HoldingHolds(p, path, oncePolicies);
      var over := IsOver(path, aborted, w);
      if answer.None? || over {
        return AncestorFailed(p);
      }
      v := StoredWhilePending(p, path, oncePolicies, w);
      if v.None? {
        v := AncestorReviewRefusal(p, path, oncePolicies, answer.value, w);
      }
    }

    method CompleteAncestorReview(p: Pending, path: seq<PolicyPrincipal>, oncePolicies: Engine, answer: Option<Choice>, aborted: bool)
      returns (v: Verdict)
      requires Valid() && Tree(State()) && p.AncestorReview? && Holding(p, path, oncePolicies) && Holds(State(), p)
      modifies layout.objects.Values, layout.owner.Keys
      ensures (State(), v) == CompleteAncestor(old(State()), p, answer, aborted)
    {
      ghost var w := State();
      var obstacle := AncestorReviewObstacle(p, path, oncePolicies, answer, aborted, w);
      if obstacle.Some? {
        return obstacle.value;
      }
      InstallAncestorChoice(p, path, oncePolicies, answer.value);
      v := ReviewVerdict(p, answer.value, NewAgentDecision);
    }

    method CompleteLlmReview(p: Pending, path: seq<PolicyPrincipal>, oncePolicies: Engine, answer: Option<Choice>, aborted: bool)
      returns (v: Verdict)
      requires Valid() && p.LlmReview? && Holding(p, path, oncePolicies) && Holds(State(), p)
      modifies layout.objects.Values, layout.owner.Keys
      ensures (State(), v) == CompleteLlm(old(State()), p, answer, aborted)
    {
      ghost var w := State();
      v := DeniedBy(System, p.uri, p.access, "LLM policy approval failed closed.");
      if answer.None? || aborted || closing {
        return;
      }
      var stored := StoredWhilePending(p, path, oncePolicies, w);
      if stored.Some? {
        return stored.value;
      }
      var stands := PathStands(p, path, oncePolicies, w);
      var area, c := AreaOf(p.access), answer.value;
      if stands && fallbackRevisions.Get(area) == p.fallback && defaultResponses.Get(area) == AskLlm
         && ValidChoice(c, p.access, p.scopes, {Once, Session})
         && ValidChoice(c, p.access, AllowedScopes(p.uri, ROOT), {Once, Session}) {
        InstallLlmChoice(p, path, oncePolicies, c);
        v := ReviewVerdict(p, c, NewDefaultLlmDecision);
      }
    }

    // ---- Beginning requests ----

    /** Each tool call has an engine of its own. */
    method BeginToolCall(once: nat) returns (oncePolicies: Engine)
      requires Valid() && once !in layout.once
      modifies this`layout
      ensures Valid() && once in layout.once && layout.once[once] == oncePolicies && oncePolicies.policies == []
      ensures layout.objects == old(layout.objects) && layout.live == old(layout.live)
    {
      oncePolicies := new Engine([]);
      layout := layout.(once := layout.once[once := oncePolicies], owner := layout.owner[oncePolicies := OfCall(once)]);
    }

    method PrincipalPathSnapshot(path: seq<PolicyPrincipal>, ghost w: World) returns (s: Snapshot)
      requires w == State() && EnlistedPath(path)
      ensures PolicyWorld.Known(w, Refs(path)) && s == TakeSnapshot(w, Refs(path))
    {
      var policyRevisions, contextRevisions := [], [];
      for i := 0 to |path|
        invariant |policyRevisions| == i && |contextRevisions| == i
        invariant forall j :: 0 <= j < i ==> policyRevisions[j] == path[j].policyRevision
        invariant forall j :: 0 <= j < i ==> contextRevisions[j] == path[j].contextRevision
      {
        policyRevisions := policyRevisions + [path[i].policyRevision];
        contextRevisions := contextRevisions + [path[i].contextRevision];
      }
      s := Snapshot(Refs(path), policyRevisions, contextRevisions);
      forall j | 0 <= j < |path| ensures w.objects[Refs(path)[j]] == path[j].Record() { }
      assert policyRevisions == TakeSnapshot(w, Refs(path)).policyRevisions;
      assert contextRevisions == TakeSnapshot(w, Refs(path)).contextRevisions;
    }

    method BeginAncestorReview(requester: PolicyPrincipal, uri: Path, a: Access, once: nat, path: seq<PolicyPrincipal>,
                               authority: Verdict, ghost w: World) returns (r: Outcome)
      requires w == State() && EnlistedPath(path)
      ensures PolicyWorld.Known(w, Refs(path)) && r == BeginAncestor(w, requester.ref, uri, a, once, Refs(path), authority)
    {
      var s := PrincipalPathSnapshot(path, w);
      if !reviewer {
        return Decided(DeniedBy(NewAgentDecision, uri, a, "Authorized super-agent review is unavailable."));
      }
      r := Waiting(AncestorReview(requester.ref, uri, a, once, s,
        if authority.source.System? then Some(fallbackRevisions.Get(AreaOf(a))) else None,
        AllowedScopes(uri, authority.pattern), AllowedLifetimes(authority.status.lifetime)));
    }

    /** A review that goes by the default of the area: the user's or the default reviewer's. */
    method BeginDefaultReview(requester: PolicyPrincipal, uri: Path, a: Access, once: nat, user: bool, ghost w: World)
      returns (r: Outcome, path: seq<PolicyPrincipal>)
      requires layout.live == principals && w == State() && Tree(w) && Enlisted(requester)
      ensures EnlistedPath(path)
      ensures r == if user then BeginUser(w, requester.ref, uri, a, once) else BeginLlm(w, requester.ref, uri, a, once)
      ensures r.Waiting? ==> Refs(path) == r.pending.snapshot.path
    {
      path := [];
      var whole := PathToRoot(requester, w);
      if whole.None? {
        return Raised, path;
      }
      path := whole.value;
      var s := PrincipalPathSnapshot(path, w);
      var revision := fallbackRevisions.Get(AreaOf(a));
      if user {
        r := Waiting(UserReview(requester.ref, uri, a, once, s, revision));
      } else if !reviewer {
        r := Decided(DeniedBy(System, uri, a, "LLM policy review is unavailable."));
      } else {
        r := Waiting(LlmReview(requester.ref, uri, a, once, s, revision, AllowedScopes(uri, ROOT)));
      }
    }

    /** What the call and the requester already settle by themselves. */
    method EvaluateLocally(requester: PolicyPrincipal, uri: Path, a: Access, once: nat, oncePolicies: Engine, ghost w: World)
      returns (v: Option<Verdict>)
      requires w == State() && Enlisted(requester) && once in layout.once && layout.once[once] == oncePolicies
      ensures requester.ref in w.objects && once in w.once
      ensures v == if Authority(w, requester.ref, uri, a).Some? then Authority(w, requester.ref, uri, a)
                   else PolicyEngine.Evaluate(w.once[once], uri, a)
    {
      v := EvaluatePrincipalAuthority(requester, uri, a);
      if v.None? {
        v := oncePolicies.EvaluateStored(uri, a);
      }
    }

    method EvaluateDefault(requester: PolicyPrincipal, uri: Path, a: Access, once: nat, ghost w: World)
      returns (r: Outcome, path: seq<PolicyPrincipal>)
      requires layout.live == principals && w == State() && Tree(w) && Enlisted(requester)
      ensures EnlistedPath(path) && r == RequestDefault(w, requester.ref, uri, a, once)
      ensures r.Waiting? ==> Refs(path) == r.pending.snapshot.path
    {
      path := [];
      var fallback := defaultResponses.Get(AreaOf(a));
      if fallback.AskLlm? || fallback.AskUser? {
        r, path := BeginDefaultReview(requester, uri, a, once, fallback.AskUser?, w);
      } else {
        r := Decided(FailedClosed(uri, a, "Policy fallback had no matching automated policy."));
      }
    }

    /** Everyone above the requester, and then the default of the area. */
    method EvaluateAbove(requester: PolicyPrincipal, uri: Path, a: Access, once: nat, ghost w: World)
      returns (r: Outcome, path: seq<PolicyPrincipal>)
      requires layout.live == principals && w == State() && Tree(w) && Enlisted(requester)
      ensures EnlistedPath(path) && r == RequestAbove(w, requester.ref, uri, a, once)
      ensures r.Waiting? ==> Refs(path) == r.pending.snapshot.path
    {
      var found;
      found, path := ResolveAncestorAuthority(requester, uri, a, w);
      r, path := EvaluateFrom(requester, uri, a, once, found, path, w);
    }

    method EvaluateFrom(requester: PolicyPrincipal, uri: Path, a: Access, once: nat, found: Option<Resolution>,
                        walked: seq<PolicyPrincipal>, ghost w: World) returns (r: Outcome, path: seq<PolicyPrincipal>)
      requires layout.live == principals && w == State() && Tree(w) && Enlisted(requester) && EnlistedPath(walked)
      requires found.Some? && found.value.Authorized? ==> Refs(walked) == found.value.path
      ensures found.Some? && found.value.Authorized? ==> PolicyWorld.Known(w, found.value.path)
      ensures EnlistedPath(path) && r == RequestFrom(w, requester.ref, uri, a, once, found)
      ensures r.Waiting? ==> Refs(path) == r.pending.snapshot.path
    {
      path := walked;
      if found.None? {
        return Raised, path;
      }
      if found.value.Authorized? {
        r := BeginAncestorReview(requester, uri, a, once, walked, found.value.verdict, w);
      } else if found.value.Refused? {
        r := Decided(found.value.verdict);
      } else {
        r, path := EvaluateDefault(requester, uri, a, once, w);
      }
    }

    method EvaluateAccess(requester: PolicyPrincipal, uri: Path, a: Access, once: nat, oncePolicies: Engine, ghost w: World)
      returns (r: Outcome, path: seq<PolicyPrincipal>)
      requires layout.live == principals && w == State() && Tree(w) && Enlisted(requester)
      requires once in layout.once && layout.once[once] == oncePolicies
      ensures requester.ref in w.objects && once in w.once
      ensures EnlistedPath(path) && r == Request(w, requester.ref, uri, a, once)
      ensures r.Waiting? ==> Refs(path) == r.pending.snapshot.path
    {
      path := [];
      if TextLength(uri) > MAX_POLICY_URI_CHARS {
        r := Decided(FailedClosed(uri, a, "Policy target exceeds the maximum supported length."));
      } else if closing {
        r := Decided(FailedClosed(uri, a, "Policy runtime is shutting down."));
      } else {
        r, path := EvaluateOpen(requester, uri, a, once, oncePolicies, w);
      }
    }

    /** What is stored for the requester and for the call comes first. */
    method EvaluateOpen(requester: PolicyPrincipal, uri: Path, a: Access, once: nat, oncePolicies: Engine, ghost w: World)
      returns (r: Outcome, path: seq<PolicyPrincipal>)
      requires layout.live == principals && w == State() && Tree(w) && Enlisted(requester)
      requires once in layout.once && layout.once[once] == oncePolicies
      ensures requester.ref in w.objects && once in w.once
      ensures EnlistedPath(path) && r == RequestOpen(w, requester.ref, uri, a, once)
      ensures r.Waiting? ==> Refs(path) == r.pending.snapshot.path
    {
      path := [];
      var local := EvaluateLocally(requester, uri, a, once, oncePolicies, w);
      if local.Some? {
        r := Decided(local.value);
      } else {
        r, path := EvaluateAbove(requester, uri, a, once, w);
      }
    }
  }

  function SaidLocally(w: World, p: Pending): Option<Verdict>
    requires Holds(w, p)
  {
    var own := Authority(w, p.requester, p.uri, p.access);
    if own.Some? then own else Evaluate(w.once[p.once], p.uri, p.access)
  }

  /** The check before the prompt in its two parts: what is stored, and then who above refuses or what changed. */
  function AskedAbove(w: World, p: Pending): Option<Verdict>
    requires Tree(w) && p.UserReview? && Holds(w, p)
  {
    var above := ResolveAncestor(w, p.requester, p.uri, p.access);
    if above.Some? && above.value.Refused? then Some(above.value.verdict)
    else if !Unchanged(w, p.snapshot) || !DefaultIs(w, p, AskUser) then Some(NoLongerActive(p))
    else None
  }

  function NoLongerActive(p: Pending): Verdict {
    FailedClosed(p.uri, p.access, "User policy approval is no longer active.")
  }

  predicate MayChoose(p: Pending, v: Verdict, c: Choice)
    requires p.AncestorReview?
  {
    && ValidChoice(c, p.access, p.scopes, p.lifetimes)
    && ValidChoice(c, p.access, AllowedScopes(p.uri, v.pattern), AllowedLifetimes(v.status.lifetime))
  }

  lemma ChoiceParts(w: World, p: Pending, c: Choice, found: Option<Resolution>)
    requires Tree(w) && p.AncestorReview? && Holds(w, p) && found == ResolveAncestor(w, p.requester, p.uri, p.access)
    ensures AncestorMayChoose(w, p, c) <==>
      && Unchanged(w, p.snapshot) && found.Some? && found.value.Authorized?
      && (p.borrowed.None? || FallbackRevision(w, p.access) == p.borrowed.value)
      && found.value.path[|found.value.path| - 1] == p.snapshot.path[|p.snapshot.path| - 1]
      && MayChoose(p, found.value.verdict, c)
  {
    var v := CurrentAuthority(w, p);
    assert AncestorMayChoose(w, p, c) <==> v.Some? && MayChoose(p, v.value, c);
    if found.Some? {
      if found.value.Authorized? {
        var last := found.value.path[|found.value.path| - 1];
        if Unchanged(w, p.snapshot) && last == p.snapshot.path[|p.snapshot.path| - 1]
           && (p.borrowed.None? || FallbackRevision(w, p.access) == p.borrowed.value) {
          assert v == Some(found.value.verdict);
        } else {
          assert v == None;
        }
      }
    }
  }

  lemma PromptParts(w: World, p: Pending, aborted: bool)
    requires Tree(w) && p.UserReview? && Holds(w, p)
    ensures BeforePrompt(w, p, aborted) ==
      if aborted || w.closing || !Active(w, p.snapshot.path) then Some(NoLongerActive(p))
      else if SaidLocally(w, p).Some? then SaidLocally(w, p)
      else AskedAbove(w, p)
  {
  }

  lemma RefsInit(path: seq<PolicyPrincipal>)
    requires path != []
    ensures Refs(path[..|path| - 1]) == Inner(Refs(path))
  {
  }

  lemma RefsTail(path: seq<PolicyPrincipal>, i: nat)
    requires i < |path|
    ensures Refs(path[i..]) != [] && Refs(path[i..])[0] == path[i].ref && Refs(path[i..])[1..] == Refs(path[i + 1..])
  {
  }

  lemma GrantAllHead(w: World, refs: seq<Ref>, p: Policy)
    requires refs != [] && PolicyWorld.Known(w, refs)
    ensures PolicyWorld.Known(Grant(w, refs[0], p), refs[1..])
    ensures GrantAll(w, refs, p) == GrantAll(Grant(w, refs[0], p), refs[1..], p)
  {
  }

  function Refs(path: seq<PolicyPrincipal>): seq<Ref> {
    seq(|path|, i requires 0 <= i < |path| => path[i].ref)
  }

  /** One more parent on the way up leaves the whole path the same. */
  lemma ClimbHop(w: World, path: seq<Ref>, id: AgentId)
    requires Tree(w) && id in w.live
    ensures w.live[id] in w.objects
    ensures var parent := w.objects[w.live[id]].parent;
      if parent.None? then path + [w.live[id]] == path + Chain(w, id)
      else parent.value in w.live && w.live[parent.value] < w.live[id]
           && path + [w.live[id]] + Chain(w, parent.value) == path + Chain(w, id)
  {
    ChainHop(w, id);
    Regrouped(path, w.live[id], Chain(w, id)[1..]);
  }

  lemma Regrouped(path: seq<Ref>, ref: Ref, rest: seq<Ref>)
    ensures path + ([ref] + rest) == path + [ref] + rest && path + [ref] + [] == path + [ref]
  {
  }

  /** One more hop of the search, by what the parent has to say. */
  lemma SearchHop(w: World, path: seq<Ref>, id: AgentId, uri: Path, a: Access)
    requires Tree(w) && id in w.live && PolicyWorld.Known(w, path)
    ensures w.live[id] in w.objects && PolicyWorld.Known(w, path + [w.live[id]])
    ensures var v, parent := Authority(w, w.live[id], uri, a), w.objects[w.live[id]].parent;
      if v.Some? then
        Resolve(w, path, id, uri, a) ==
          if v.value.status.response.Denied? then Refused(v.value) else Authorized(path + [w.live[id]], v.value)
      else if parent.None? then Resolve(w, path, id, uri, a) == Unresolved
      else parent.value in w.live && w.live[parent.value] < w.live[id]
           && Resolve(w, path, id, uri, a) == Resolve(w, path + [w.live[id]], parent.value, uri, a)
  {
    ResolveHop(w, path, id, uri, a);
    Named(w, id);
    assert Node(w, id);
  }

  lemma ChainHop(w: World, id: AgentId)
    requires Tree(w) && id in w.live
    ensures w.live[id] in w.objects && Chain(w, id)[0] == w.live[id]
    ensures var parent := w.objects[w.live[id]].parent;
      if parent.None? then Chain(w, id)[1..] == []
      else parent.value in w.live && w.live[parent.value] < w.live[id] && Chain(w, id)[1..] == Chain(w, parent.value)
    ensures Chain(w, id) == [w.live[id]] + Chain(w, id)[1..]
  {
    assert Node(w, id);
  }

  /** What the tree says about one registered name. */
  lemma Named(w: World, id: AgentId)
    requires Tree(w) && id in w.live
    ensures w.live[id] in w.objects && w.objects[w.live[id]].agent == id && w.next !in w.objects
    ensures id != w.root ==> HasParent(w, id)
  {
    assert Node(w, id);
  }
}
