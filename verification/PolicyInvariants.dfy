/** What every change of the policy runtime's state keeps. */
module PolicyInvariants {
  import opened Options
  import opened PolicyScope
  import opened PolicyTypes
  import opened PolicyEngine
  import opened PolicyWorld

  // ---- Fallbacks ----

  function AutomatedStatus(r: Response): Status {
    Status(Session, r, "Automated fallback")
  }

  function DefaultStatus(w: World, a: Access): Option<Status> {
    var r := Automatic(w.defaults.Get(AreaOf(a)));
    if r.None? then None else Some(AutomatedStatus(r.value))
  }

  /** The fallback engine says what the default responses say, at the root scope and nowhere else. */
  ghost predicate FallbacksAgree(w: World) {
    && Distinct(w.fallbacks)
    && (forall pattern, a :: StatusAt(w.fallbacks, pattern, a) == if pattern == ROOT then DefaultStatus(w, a) else None)
  }

  lemma RootFallbackMeaning(w: World, uri: Path, a: Access)
    requires FallbacksAgree(w)
    ensures RootFallback(w, uri, a) ==
      var s := DefaultStatus(w, a);
      if s.None? then None else Some(Verdict(uri, a, ROOT, s.value, System))
  {
    BestIsNearest(w.fallbacks, uri, a);
    NearestIsDeepest(w.fallbacks, uri, a);
    assert ROOT <= uri;
    assert StatusAt(w.fallbacks, ROOT, a) == DefaultStatus(w, a);
  }

  lemma SetDefaultAgrees(w: World, area: Area, f: Fallback)
    requires FallbacksAgree(w)
    ensures FallbacksAgree(SetDefault(w, area, f))
  {
    var n := SetDefault(w, area, f);
    if n != w {
      var policy := Policy(ROOT, map[AccessOf(area) := AutomatedStatus(if Automatic(f).Some? then Automatic(f).value else Denied)]);
      AddOneDistinct(w.fallbacks, policy);
      RemoveOneDistinct(w.fallbacks, ROOT, {AccessOf(area)});
      forall pattern, a
        ensures StatusAt(n.fallbacks, pattern, a) == if pattern == ROOT then DefaultStatus(n, a) else None
      {
        AddOneMeaning(w.fallbacks, policy, pattern, a);
        RemoveOneMeaning(w.fallbacks, ROOT, {AccessOf(area)}, pattern, a);
      }
    }
  }

  // ---- Stored policies ----

  /** The database holds this status for the pattern and access. */
  predicate InRules(rules: Rules, pattern: Path, a: Access, s: Status) {
    (pattern, a) in rules && rules[(pattern, a)] == s
  }

  /** A principal below the root never holds a policy that outlives the session; the root holds a lasting
      one only if it is the one the database holds. */
  ghost predicate Permitted(w: World, ref: Ref, pattern: Path, a: Access, s: Status) {
    s.lifetime.Session? || (w.root in w.live && w.live[w.root] == ref && InRules(w.database, pattern, a, s))
  }

  ghost predicate WithinBounds(w: World, ref: Ref, o: Principal) {
    && Distinct(o.policies)
    && forall pattern, a :: StatusAt(o.policies, pattern, a).Some? ==>
         Permitted(w, ref, pattern, a, StatusAt(o.policies, pattern, a).value)
  }

  ghost predicate Stored(w: World) {
    && (forall ref :: ref in w.objects ==> WithinBounds(w, ref, w.objects[ref]))
    && (forall once :: once in w.once ==> Distinct(w.once[once]))
  }

  lemma GrantStored(w: World, ref: Ref, p: Policy)
    requires Stored(w) && ref in w.objects
    requires forall a :: a in p.info ==> Permitted(w, ref, p.pattern, a, p.info[a])
    ensures Stored(Grant(w, ref, p))
  {
    var n := Grant(w, ref, p);
    var o := w.objects[ref];
    assert WithinBounds(w, ref, o);
    AddOneDistinct(o.policies, p);
    forall pattern, a | StatusAt(n.objects[ref].policies, pattern, a).Some?
      ensures Permitted(n, ref, pattern, a, StatusAt(n.objects[ref].policies, pattern, a).value)
    {
      AddOneMeaning(o.policies, p, pattern, a);
    }
    forall r | r in n.objects ensures WithinBounds(n, r, n.objects[r]) {
      assert r != ref ==> WithinBounds(w, r, w.objects[r]);
    }
  }

  lemma {:induction false} GrantAllStored(w: World, refs: seq<Ref>, p: Policy)
    requires Stored(w) && Known(w, refs)
    requires forall a :: a in p.info ==> p.info[a].lifetime.Session?
    ensures Stored(GrantAll(w, refs, p))
    decreases |refs|
  {
    if refs != [] {
      GrantStored(w, refs[0], p);
      GrantAllStored(Grant(w, refs[0], p), refs[1..], p);
    }
  }

  // ---- The tree ----

  /** Same principals, names and family; only policies, contexts and their revisions may differ. */
  ghost predicate SameFamily(w: World, n: World) {
    && n.root == w.root && n.live == w.live && n.next == w.next && n.objects.Keys == w.objects.Keys
    && forall ref :: ref in w.objects ==>
         n.objects[ref].agent == w.objects[ref].agent && n.objects[ref].parent == w.objects[ref].parent
         && n.objects[ref].children == w.objects[ref].children
  }

  lemma TreeKept(w: World, n: World)
    requires Tree(w) && SameFamily(w, n)
    ensures Tree(n)
  {
    forall id | id in n.live ensures Node(n, id) {
      assert Node(w, id);
      forall child | child in n.objects[n.live[id]].children ensures IsChild(n, id, child) {
        assert IsChild(w, id, child);
      }
    }
  }

  lemma {:induction false} GrantAllFamily(w: World, refs: seq<Ref>, p: Policy)
    requires Known(w, refs)
    ensures SameFamily(w, GrantAll(w, refs, p))
    decreases |refs|
  {
    if refs != [] {
      GrantAllFamily(Grant(w, refs[0], p), refs[1..], p);
    }
  }

  lemma RegisterTree(w: World, id: AgentId, parent: AgentId, areas: set<Area>, context: string)
    requires Tree(w) && CanRegister(w, id, parent)
    ensures Tree(Register(w, id, parent, areas, context))
  {
    var n := Register(w, id, parent, areas, context);
    assert Node(w, parent);
    forall x | x in n.live ensures Node(n, x) {
      if x == id {
        assert HasParent(n, id);
      } else {
        assert Node(w, x);
        forall child | child in n.objects[n.live[x]].children ensures IsChild(n, x, child) {
          if child in w.objects[w.live[x]].children {
            assert IsChild(w, x, child) && Node(w, child);
          }
        }
      }
    }
  }

  lemma RemoveTree(w: World, id: AgentId)
    requires Tree(w) && CanRemove(w, id)
    ensures Tree(Remove(w, id))
  {
    var n := Remove(w, id);
    assert Node(w, id);
    forall x | x in n.live ensures Node(n, x) {
      assert Node(w, x);
      if x != n.root {
        var p := w.objects[w.live[x]].parent.value;
        assert Node(w, p) && p != id;
        assert HasParent(n, x);
      }
      forall child | child in n.objects[n.live[x]].children ensures IsChild(n, x, child) {
        assert IsChild(w, x, child) && Node(w, child);
      }
    }
  }

  // ---- Inheritance ----

  function OrElse(s: Option<Status>, t: Option<Status>): Option<Status> {
    if s.Some? then s else t
  }

  function Lasting(s: Option<Status>): Option<Status> {
    if s.None? then None else Some(s.value.(lifetime := Session))
  }

  lemma {:induction false} AddMeaning(ps: seq<Policy>, more: seq<Policy>, pattern: Path, a: Access)
    requires Distinct(ps) && Distinct(more)
    ensures Distinct(Add(ps, more))
    ensures StatusAt(Add(ps, more), pattern, a) == OrElse(StatusAt(more, pattern, a), StatusAt(ps, pattern, a))
    decreases |more|
  {
    if more != [] {
      AddOneDistinct(ps, more[0]);
      AddOneMeaning(ps, more[0], pattern, a);
      AddMeaning(AddOne(ps, more[0]), more[1..], pattern, a);
      if more[0].pattern == pattern {
        NoStatusWithout(more[1..], pattern, a);
      }
    }
  }

  lemma {:induction false} RestrictedMeaning(ps: seq<Policy>, accesses: set<Access>, pattern: Path, a: Access)
    requires Distinct(ps)
    ensures StatusAt(Restricted(ps, accesses), pattern, a) ==
      if a in accesses then Lasting(StatusAt(ps, pattern, a)) else None
  {
    if ps != [] {
      RestrictedMeaning(ps[1..], accesses, pattern, a);
      if ps[0].pattern == pattern {
        NoStatusWithout(ps[1..], pattern, a);
        var info := Narrowed(ps[0].info, accesses);
        var rest := Restricted(ps[1..], accesses);
        if info == map[] {
          assert [] + rest == rest;
          assert a !in info;
        } else {
          assert ([Policy(pattern, info)] + rest)[0].info == info;
          assert a in accesses && a in ps[0].info ==> info[a] == ps[0].info[a].(lifetime := Session);
        }
      } else {
        assert Narrowed(ps[0].info, accesses) == map[] ==> [] + Restricted(ps[1..], accesses) == Restricted(ps[1..], accesses);
      }
    }
  }

  lemma {:induction false} RestrictedDistinct(ps: seq<Policy>, accesses: set<Access>)
    requires Distinct(ps)
    ensures Distinct(Restricted(ps, accesses))
    ensures forall k :: 0 <= k < |Restricted(ps, accesses)| ==> Mentions(ps, Restricted(ps, accesses)[k].pattern)
  {
    if ps != [] {
      RestrictedDistinct(ps[1..], accesses);
      TailMentions(ps);
      var rest := Restricted(ps[1..], accesses);
      forall k | 0 <= k < |rest| ensures rest[k].pattern != ps[0].pattern {
        assert Mentions(ps[1..], rest[k].pattern);
      }
    }
  }

  /** The policies a parent has of its own or from the fallbacks, its own first. */
  lemma EffectiveMeaning(w: World, ref: Ref, pattern: Path, a: Access)
    requires Stored(w) && FallbacksAgree(w) && ref in w.objects
    ensures Distinct(Effective(w, ref))
    ensures StatusAt(Effective(w, ref), pattern, a) ==
      OrElse(StatusAt(w.objects[ref].policies, pattern, a),
             if w.objects[ref].agent == w.root && pattern == ROOT then DefaultStatus(w, a) else None)
  {
    assert WithinBounds(w, ref, w.objects[ref]);
    AddMeaning([], w.fallbacks, pattern, a);
    AddMeaning(Add([], w.fallbacks), w.objects[ref].policies, pattern, a);
  }

  /** A new principal starts with exactly what its parent's effective policies say about the inherited areas,
      for the session, and nothing about the others. */
  lemma InheritedMeaning(w: World, parent: Ref, areas: set<Area>, pattern: Path, a: Access)
    requires Stored(w) && FallbacksAgree(w) && parent in w.objects
    ensures var policies := Add([], Inherited(w, parent, areas));
      && Distinct(policies)
      && StatusAt(policies, pattern, a) ==
         if AreaOf(a) in areas then Lasting(StatusAt(Effective(w, parent), pattern, a)) else None
  {
    var accesses := set area | area in areas :: AccessOf(area);
    EffectiveMeaning(w, parent, pattern, a);
    RestrictedDistinct(Effective(w, parent), accesses);
    RestrictedMeaning(Effective(w, parent), accesses, pattern, a);
    AddMeaning([], Inherited(w, parent, areas), pattern, a);
    assert a in accesses <==> AreaOf(a) in areas by {
      if AreaOf(a) in areas {
        assert AccessOf(AreaOf(a)) == a;
      }
    }
  }

  lemma RegisterStored(w: World, id: AgentId, parent: AgentId, areas: set<Area>, context: string)
    requires Tree(w) && Stored(w) && FallbacksAgree(w) && CanRegister(w, id, parent)
    ensures Stored(Register(w, id, parent, areas, context))
  {
    var n := Register(w, id, parent, areas, context);
    assert Node(w, parent);
    forall ref | ref in n.objects ensures WithinBounds(n, ref, n.objects[ref]) {
      if ref == w.next {
        InheritedMeaning(w, w.live[parent], areas, ROOT, FsRead);
        forall pattern, a | StatusAt(n.objects[ref].policies, pattern, a).Some?
          ensures Permitted(n, ref, pattern, a, StatusAt(n.objects[ref].policies, pattern, a).value)
        {
          InheritedMeaning(w, w.live[parent], areas, pattern, a);
        }
      } else {
        assert WithinBounds(w, ref, w.objects[ref]);
      }
    }
  }

  ghost predicate Silent(ps: seq<Policy>, a: Access) {
    forall pattern :: StatusAt(ps, pattern, a).None?
  }

  ghost predicate LastingOf(ps: seq<Policy>, qs: seq<Policy>, a: Access) {
    forall pattern :: StatusAt(ps, pattern, a) == Lasting(StatusAt(qs, pattern, a))
  }

  function AtRoot(pattern: Path, s: Option<Status>): Option<Status> {
    if pattern == ROOT then s else None
  }

  ghost predicate FallsBack(ps: seq<Policy>, local: seq<Policy>, s: Option<Status>, a: Access) {
    forall pattern :: StatusAt(ps, pattern, a) == OrElse(StatusAt(local, pattern, a), AtRoot(pattern, s))
  }

  lemma {:induction false} NearestNone(ps: seq<Policy>, uri: Path, a: Access)
    requires Silent(ps, a)
    ensures Nearest(ps, uri, a).None?
    decreases |uri|
  {
    if uri != [] {
      NearestNone(ps, uri[..|uri| - 1], a);
    }
  }

  lemma {:induction false} NearestLasting(ps: seq<Policy>, qs: seq<Policy>, uri: Path, a: Access)
    requires LastingOf(ps, qs, a)
    ensures var m := Nearest(qs, uri, a);
      Nearest(ps, uri, a) == if m.None? then None else Some(Match(m.value.pattern, m.value.status.(lifetime := Session)))
    decreases |uri|
  {
    assert StatusAt(ps, uri, a) == Lasting(StatusAt(qs, uri, a));
    if uri != [] {
      NearestLasting(ps, qs, uri[..|uri| - 1], a);
    }
  }

  lemma {:induction false} NearestFallsBack(ps: seq<Policy>, local: seq<Policy>, s: Option<Status>, uri: Path, a: Access)
    requires FallsBack(ps, local, s, a)
    ensures Nearest(ps, uri, a) ==
      if Nearest(local, uri, a).Some? then Nearest(local, uri, a)
      else if s.Some? then Some(Match(ROOT, s.value)) else None
    decreases |uri|
  {
    assert StatusAt(ps, uri, a) == OrElse(StatusAt(local, uri, a), AtRoot(uri, s));
    if uri != [] {
      NearestFallsBack(ps, local, s, uri[..|uri| - 1], a);
    }
  }

  lemma InheritedRelation(w: World, parent: Ref, areas: set<Area>, a: Access)
    requires Stored(w) && FallbacksAgree(w) && parent in w.objects
    ensures var policies := Add([], Inherited(w, parent, areas));
      && Distinct(policies)
      && if AreaOf(a) in areas then LastingOf(policies, Effective(w, parent), a) else Silent(policies, a)
  {
    InheritedMeaning(w, parent, areas, ROOT, a);
    var policies := Add([], Inherited(w, parent, areas));
    forall pattern
      ensures StatusAt(policies, pattern, a) ==
        if AreaOf(a) in areas then Lasting(StatusAt(Effective(w, parent), pattern, a)) else None
    {
      InheritedMeaning(w, parent, areas, pattern, a);
    }
  }

  lemma EffectiveRelation(w: World, ref: Ref, a: Access)
    requires Stored(w) && FallbacksAgree(w) && ref in w.objects
    ensures FallsBack(Effective(w, ref), w.objects[ref].policies,
                      if w.objects[ref].agent == w.root then DefaultStatus(w, a) else None, a)
  {
    var s := if w.objects[ref].agent == w.root then DefaultStatus(w, a) else None;
    forall pattern
      ensures StatusAt(Effective(w, ref), pattern, a)
        == OrElse(StatusAt(w.objects[ref].policies, pattern, a), AtRoot(pattern, s))
    {
      EffectiveMeaning(w, ref, pattern, a);
    }
  }

  /** A new principal may do by itself exactly what its parent could authorize in the inherited areas. */
  lemma InheritedAuthority(w: World, parent: Ref, areas: set<Area>, uri: Path, a: Access)
    requires Stored(w) && FallbacksAgree(w) && parent in w.objects
    ensures var own, v := Evaluate(Add([], Inherited(w, parent, areas)), uri, a), Authority(w, parent, uri, a);
      own == if AreaOf(a) !in areas || v.None? then None
             else Some(v.value.(status := v.value.status.(lifetime := Session), source := ExistingUserPolicy))
  {
    var policies, local := Add([], Inherited(w, parent, areas)), w.objects[parent].policies;
    InheritedRelation(w, parent, areas, a);
    assert WithinBounds(w, parent, w.objects[parent]);
    BestIsNearest(policies, uri, a);
    BestIsNearest(local, uri, a);
    if AreaOf(a) in areas {
      EffectiveRelation(w, parent, a);
      NearestLasting(policies, Effective(w, parent), uri, a);
      NearestFallsBack(Effective(w, parent), local,
                       if w.objects[parent].agent == w.root then DefaultStatus(w, a) else None, uri, a);
      RootFallbackMeaning(w, uri, a);
    } else {
      NearestNone(policies, uri, a);
    }
  }
}
