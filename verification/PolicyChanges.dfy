/** What every change of the policy runtime's principals and defaults does, and what it leaves alone. */
module PolicyChanges {
  import opened Options
  import opened PolicyScope
  import opened PolicyTypes
  import opened PolicyEngine
  import opened PolicyWorld
  import opened PolicyInvariants
  import opened PolicyStaleness
  import opened PolicyMeaning

  // ---- Principals ----

  /** What the parent can authorize by itself is what the child may do, for the session and in the inherited areas. */
  ghost predicate Inherits(w: World, parent: Ref, areas: set<Area>, child: Principal, uri: Path, a: Access)
    requires parent in w.objects
  {
    if AreaOf(a) !in areas || Quiet(w, parent, uri, a) then Mute(child.policies, uri, a)
    else
      exists v, s :: Speaks(w, parent, uri, a, v) && SaidAt(child.policies, uri, a, v.pattern, s)
                     && s.lifetime.Session? && s.response == v.status.response
  }

  /** One principal joins below its parent; the parent counts it among its children; nobody else changes. */
  predicate Joined(w: World, n: World, id: AgentId, parent: AgentId, context: string)
    requires parent in w.live && w.live[parent] in w.objects
  {
    var p := w.live[parent];
    && id in n.live && n.live[id] !in w.objects
    && n.live.Keys == w.live.Keys + {id} && (forall name :: name in w.live ==> name in n.live && n.live[name] == w.live[name])
    && n.objects.Keys == w.objects.Keys + {n.live[id]}
    && (forall ref :: ref in w.objects && ref != p ==> n.objects[ref] == w.objects[ref])
    && n.objects[p] == w.objects[p].(children := w.objects[p].children + {id})
    && n.objects[n.live[id]].agent == id && n.objects[n.live[id]].parent == Some(parent)
    && n.objects[n.live[id]].children == {} && n.objects[n.live[id]].context == context
    && n == w.(objects := n.objects, live := n.live, next := n.next)
  }

  /** A free name below a registered parent can always be registered. */
  lemma RegisterMeaning(w: World, id: AgentId, parent: AgentId, areas: set<Area>, context: string)
    requires Sound(w) && id !in w.live && parent in w.live
    ensures w.live[parent] in w.objects && Joined(w, Register(w, id, parent, areas, context), id, parent, context)
    ensures var n := Register(w, id, parent, areas, context);
      forall uri, a :: Inherits(w, w.live[parent], areas, n.objects[n.live[id]], uri, a)
  {
    assert Node(w, parent);
    var n := Register(w, id, parent, areas, context);
    forall uri, a ensures Inherits(w, w.live[parent], areas, n.objects[n.live[id]], uri, a) {
      HeirInherits(w, w.live[parent], areas, n.objects[n.live[id]], uri, a);
    }
  }

  lemma HeirInherits(w: World, parent: Ref, areas: set<Area>, child: Principal, uri: Path, a: Access)
    requires Sound(w) && parent in w.objects && child.policies == Add([], Inherited(w, parent, areas))
    ensures Inherits(w, parent, areas, child, uri, a)
  {
    InheritedRelation(w, parent, areas, a);
    InheritedAuthority(w, parent, areas, uri, a);
    AuthorityMeaning(w, parent, uri, a);
    LookupMeaning(child.policies, uri, a);
    var own, v := Evaluate(child.policies, uri, a), Authority(w, parent, uri, a);
    if own.Some? {
      assert Speaks(w, parent, uri, a, v.value);
      assert SaidAt(child.policies, uri, a, v.value.pattern, own.value.status);
    }
  }

  /** One name is given up; the principal stays with those who hold it, and its parent no longer counts it. */
  predicate Left(w: World, n: World, id: AgentId) {
    && n.live == w.live - {id} && n == w.(objects := n.objects, live := n.live) && n.objects.Keys == w.objects.Keys
    && forall ref :: ref in w.objects ==>
         n.objects[ref] == w.objects[ref].(children := n.objects[ref].children)
         && n.objects[ref].children == if id in w.objects[ref].children && IsLive(w, ref)
                                       then w.objects[ref].children - {id} else w.objects[ref].children
  }

  /** A registered principal other than the root that has no children can always be removed. */
  lemma RemoveMeaning(w: World, id: AgentId)
    requires Tree(w) && id in w.live && id != w.root
    requires w.live[id] in w.objects && w.objects[w.live[id]].children == {}
    ensures CanRemove(w, id) && Left(w, Remove(w, id), id)
  {
    assert Node(w, id);
    var parent := w.objects[w.live[id]].parent.value;
    forall ref | ref in w.objects && id in w.objects[ref].children && IsLive(w, ref) ensures ref == w.live[parent] {
      assert Node(w, w.objects[ref].agent) && IsChild(w, w.objects[ref].agent, id);
    }
    assert Node(w, parent);
  }

  lemma SetContextMeaning(w: World, id: AgentId, context: string)
    requires Tree(w) && id in w.live
    ensures w.live[id] in w.objects
    ensures var n, ref := SetContext(w, id, context), w.live[id];
      && n == w.(objects := n.objects) && n.objects.Keys == w.objects.Keys
      && (forall r :: r in w.objects && r != ref ==> n.objects[r] == w.objects[r])
      && n.objects[ref].context == context && n.objects[ref].contextRevision == w.objects[ref].contextRevision + 1
      && n.objects[ref] == w.objects[ref].(context := context, contextRevision := n.objects[ref].contextRevision)
  {
    assert Node(w, id);
  }

  // ---- Defaults ----

  /** The default of one area changes, and with it the revision; a root that stores nothing for an access of the area gives
      the new automatic answer, or none. */
  lemma SetDefaultMeaning(w: World, area: Area, f: Fallback, uri: Path, a: Access)
    requires Sound(w)
    ensures var n := SetDefault(w, area, f);
      && n == w.(defaults := n.defaults, revisions := n.revisions, fallbacks := n.fallbacks)
      && DefaultOf(n, a) == (if AreaOf(a) == area then f else DefaultOf(w, a))
      && RevisionOf(n, a) == RevisionOf(w, a) + (if AreaOf(a) == area && DefaultOf(w, a) != f then 1 else 0)
      && FallsBackTo(n, uri, a)
  {
    SetDefaultAgrees(w, area, f);
    FallbackSaid(SetDefault(w, area, f), uri, a);
  }

  /** The fallback engine has an answer exactly for an automatic default, and it is that one. */
  ghost predicate FallsBackTo(w: World, uri: Path, a: Access) {
    && RootFallback(w, uri, a).Some? == (DefaultOf(w, a).Allow? || DefaultOf(w, a).Deny?)
    && (RootFallback(w, uri, a).Some? ==> SaidByDefault(w, uri, a, RootFallback(w, uri, a).value))
  }

  lemma FallbackSaid(w: World, uri: Path, a: Access)
    requires FallbacksAgree(w)
    ensures FallsBackTo(w, uri, a)
  {
    RootFallbackMeaning(w, uri, a);
  }

  // ---- Scopes ----

  /** The target and its ancestors, deepest first; if there are too many, the root stands for the last ones. */
  lemma HierarchyMeaning(p: Path, limit: nat)
    requires limit > 0
    ensures var h := Hierarchy(p, limit);
      && |h| == (if |p| + 1 <= limit then |p| + 1 else limit)
      && h[|h| - 1] == []
      && forall i :: 0 <= i < |h| - 1 ==> h[i] == p[..|p| - i]
  {
    AncestorAt(p, 0);
    forall i | 0 <= i <= |p| ensures Ancestors(p)[i] == p[..|p| - i] {
      AncestorAt(p, i);
    }
  }

  /** The target and as many of its ancestors. */
  function Deepest(uri: Path, up: nat): seq<Path>
    requires up <= |uri|
  {
    seq(up + 1, i requires 0 <= i <= up => uri[..|uri| - i])
  }

  function TextOf(scopes: seq<Path>): nat {
    if scopes == [] then 0 else TextLength(scopes[0]) + TextOf(scopes[1..])
  }

  lemma {:induction false} CoveredPrefix(source: Path, scopes: seq<Path>, m: nat)
    requires m <= |scopes| && forall i :: 0 <= i < m ==> source <= scopes[i]
    ensures scopes[..m] <= Covered(source, scopes)
    decreases m
  {
    if m > 0 {
      CoversIsPrefix(source, scopes[0]);
      CoveredPrefix(source, scopes[1..], m - 1);
      assert scopes[..m] == [scopes[0]] + scopes[1..][..m - 1];
    }
  }

  lemma {:induction false} BoundedKeeps(scopes: seq<Path>, required: Path, selected: seq<Path>, chars: nat, k: nat)
    requires k < |scopes| && |selected| + k < MAX_AGENT_POLICY_SCOPES - 1
    requires chars + TextOf(scopes[..k + 1]) + TextLength(required) <= MAX_AGENT_POLICY_SCOPE_CHARS
    ensures scopes[k] in Bounded(scopes, required, selected, chars)
    decreases |scopes|
  {
    assert scopes[..k + 1][1..] == scopes[1..][..k];
    var (next, used) := (selected + [scopes[0]], chars + TextLength(scopes[0]));
    BoundedHas(scopes[1..], required, selected, chars);
    BoundedHas(scopes[1..], required, next, used);
    if k > 0 {
      if scopes[0] == required || scopes[0] in selected {
        BoundedKeeps(scopes[1..], required, selected, chars, k - 1);
      } else {
        BoundedKeeps(scopes[1..], required, next, used, k - 1);
      }
    }
  }

  lemma {:induction false} BoundedHas(scopes: seq<Path>, required: Path, selected: seq<Path>, chars: nat)
    ensures required in Bounded(scopes, required, selected, chars)
    ensures forall s :: s in selected ==> s in Bounded(scopes, required, selected, chars)
    ensures |selected| < MAX_AGENT_POLICY_SCOPES ==> |Bounded(scopes, required, selected, chars)| <= MAX_AGENT_POLICY_SCOPES
    decreases |scopes|
  {
    if scopes != [] {
      BoundedHas(scopes[1..], required, selected, chars);
      BoundedHas(scopes[1..], required, selected + [scopes[0]], chars + TextLength(scopes[0]));
    }
  }

  lemma PrefixOfCut(source: Path, uri: Path, i: nat)
    requires source <= uri && i <= |uri| - |source|
    ensures source <= uri[..|uri| - i]
  {
  }

  lemma SameSeq(a: seq<Path>, b: seq<Path>)
    requires |a| == |b| && forall i :: 0 <= i < |a| ==> a[i] == b[i]
    ensures a == b
  {
  }

  lemma CoveredDeepest(uri: Path, source: Path, up: nat, scopes: seq<Path>)
    requires source <= uri && up <= |uri| - |source| && up < |scopes|
    requires forall i :: 0 <= i <= up ==> scopes[i] == uri[..|uri| - i]
    ensures Deepest(uri, up) <= Covered(source, scopes)
  {
    forall i | 0 <= i < up + 1 ensures source <= scopes[i] {
      PrefixOfCut(source, uri, i);
    }
    CoveredPrefix(source, scopes, up + 1);
    SameSeq(scopes[..up + 1], Deepest(uri, up));
  }

  lemma DeepestBounded(uri: Path, source: Path, up: nat, covered: seq<Path>)
    requires up <= |uri| && up < MAX_AGENT_POLICY_SCOPES - 1 && Deepest(uri, up) <= covered
    requires TextOf(Deepest(uri, up)) + TextLength(source) <= MAX_AGENT_POLICY_SCOPE_CHARS
    ensures uri[..|uri| - up] in Bounded(covered, source, [], 0)
  {
    var deepest := Deepest(uri, up);
    assert covered[..up + 1] == deepest;
    assert deepest[up] == uri[..|uri| - up] && covered[up] == covered[..up + 1][up];
    BoundedKeeps(covered, source, [], 0, up);
  }

  /** Of the 31 deepest scopes between the target and the authority's own one, each is offered that still fits into the
      text limit behind all deeper ones; no more than 32 are. */
  lemma ScopesOffered(uri: Path, source: Path, up: nat)
    requires source <= uri && up <= |uri| - |source| && up < MAX_AGENT_POLICY_SCOPES - 1
    requires TextOf(Deepest(uri, up)) + TextLength(source) <= MAX_AGENT_POLICY_SCOPE_CHARS
    ensures uri[..|uri| - up] in AllowedScopes(uri, source)
    ensures |AllowedScopes(uri, source)| <= MAX_AGENT_POLICY_SCOPES
  {
    var hierarchy := Hierarchy(uri, MAX_AGENT_POLICY_SCOPES);
    var scopes := if source in hierarchy then hierarchy else hierarchy + [source];
    HierarchyMeaning(uri, MAX_AGENT_POLICY_SCOPES);
    assert up == |hierarchy| - 1 ==> uri[..|uri| - up] == [];
    forall i | 0 <= i <= up ensures scopes[i] == uri[..|uri| - i] {
      assert scopes[i] == hierarchy[i];
    }
    CoveredDeepest(uri, source, up, scopes);
    DeepestBounded(uri, source, up, Covered(source, scopes));
    BoundedHas(Covered(source, scopes), source, [], 0);
  }
}
