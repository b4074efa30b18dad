/** Authority never widens: what a review may install, and where. */
module PolicyAuthority {
  import opened Options
  import opened PolicyScope
  import opened PolicyTypes
  import opened PolicyEngine
  import opened PolicyWorld
  import opened PolicyInvariants
  import opened PolicyStaleness

  ghost predicate Within(source: Path, uri: Path, scopes: seq<Path>) {
    forall i :: 0 <= i < |scopes| ==> source <= scopes[i] && scopes[i] <= uri
  }

  lemma {:induction false} CoveredWithin(source: Path, uri: Path, scopes: seq<Path>)
    requires Within(ROOT, uri, scopes)
    ensures Within(source, uri, Covered(source, scopes))
  {
    if scopes != [] {
      CoversIsPrefix(source, scopes[0]);
      CoveredWithin(source, uri, scopes[1..]);
    }
  }

  lemma {:induction false} BoundedWithin(source: Path, uri: Path, scopes: seq<Path>, selected: seq<Path>, chars: nat)
    requires source <= uri && Within(source, uri, scopes) && Within(source, uri, selected)
    ensures Within(source, uri, Bounded(scopes, source, selected, chars))
    ensures source in Bounded(scopes, source, selected, chars)
    decreases |scopes|
  {
    if scopes != [] {
      assert Within(source, uri, scopes[1..]);
      BoundedWithin(source, uri, scopes[1..], selected, chars);
      BoundedWithin(source, uri, scopes[1..], selected + [scopes[0]], chars + TextLength(scopes[0]));
    }
  }

  /** Every scope offered to a reviewer lies between the authority's own scope and the target, and the
      authority's own scope is always among them. */
  lemma ScopesWithin(uri: Path, source: Path)
    requires source <= uri
    ensures Within(source, uri, AllowedScopes(uri, source)) && source in AllowedScopes(uri, source)
  {
    var hierarchy := Hierarchy(uri, MAX_AGENT_POLICY_SCOPES);
    var scopes := if source in hierarchy then hierarchy else hierarchy + [source];
    forall i | 0 <= i < |scopes| ensures ROOT <= scopes[i] && scopes[i] <= uri {
      if i < |hierarchy| {
        HierarchyCovers(uri, MAX_AGENT_POLICY_SCOPES, i);
      }
    }
    CoveredWithin(source, uri, scopes);
    BoundedWithin(source, uri, Covered(source, scopes), [], 0);
  }

  lemma WithinMember(source: Path, uri: Path, scopes: seq<Path>, s: Path)
    requires Within(source, uri, scopes) && s in scopes
    ensures source <= s && s <= uri
  {
  }

  lemma {:induction false} GrantAllOnly(w: World, refs: seq<Ref>, p: Policy, ref: Ref)
    requires Known(w, refs) && ref in w.objects && ref !in refs
    ensures GrantAll(w, refs, p).objects[ref] == w.objects[ref]
    decreases |refs|
  {
    if refs != [] {
      GrantAllOnly(Grant(w, refs[0], p), refs[1..], p, ref);
    }
  }

  /** Along an active path every principal is older than the one before. */
  lemma {:induction false} PathDescends(w: World, path: seq<Ref>, i: nat, j: nat)
    requires Tree(w) && Known(w, path) && Active(w, path) && i < j < |path|
    ensures path[j] < path[i]
    decreases j
  {
    assert IsLive(w, path[j]) && IsLive(w, path[j - 1]) && Node(w, w.objects[path[j - 1]].agent);
    if i < j - 1 {
      PathDescends(w, path, i, j - 1);
    }
  }

  /** A session grant along a path reaches everyone below its end, and nobody else. */
  lemma InnerOnly(w: World, path: seq<Ref>, p: Policy, ref: Ref)
    requires Tree(w) && Known(w, path) && Active(w, path) && path != []
    requires ref in w.objects && (ref !in path || ref == path[|path| - 1])
    ensures GrantAll(w, Inner(path), p).objects[ref] == w.objects[ref]
  {
    if ref in Inner(path) {
      var i :| 0 <= i < |path| - 1 && path[i] == ref;
      PathDescends(w, path, i, |path| - 1);
    }
    GrantAllOnly(w, Inner(path), p, ref);
  }

  /** An ancestor's review installs only what lies within the scope and lifetime of the authority that holds
      at that moment, and covers the target. */
  lemma AncestorNeverWidens(w: World, p: Pending, c: Choice, aborted: bool)
    requires Tree(w) && p.AncestorReview? && Holds(w, p)
    requires AncestorObstacle(w, p, Some(c), aborted).None?
    ensures CurrentAuthority(w, p).Some? && CurrentAuthority(w, p).value.status.response.Allowed?
    ensures CurrentAuthority(w, p).value.pattern <= c.uri && c.uri <= p.uri
    ensures c.lifetime.Once? || (c.lifetime.Session? && !CurrentAuthority(w, p).value.status.lifetime.Once?)
  {
    var v := CurrentAuthority(w, p).value;
    ResolveRefuses(w, [p.requester], w.objects[p.requester].parent.value, p.uri, p.access);
    ScopesWithin(p.uri, v.pattern);
    WithinMember(v.pattern, p.uri, AllowedScopes(p.uri, v.pattern), c.uri);
  }

  /** The policy reaches the requester and the agents between, never the authority itself or anyone else. */
  lemma AncestorGrantsBelow(w: World, p: Pending, c: Choice, aborted: bool, ref: Ref)
    requires Tree(w) && p.AncestorReview? && Holds(w, p) && ref in w.objects
    requires ref !in p.snapshot.path || ref == p.snapshot.path[|p.snapshot.path| - 1]
    ensures CompleteAncestor(w, p, Some(c), aborted).0.objects[ref] == w.objects[ref]
  {
    var n := CompleteAncestor(w, p, Some(c), aborted).0;
    if Active(w, p.snapshot.path) {
      InnerOnly(w, p.snapshot.path, PolicyOf(c), ref);
      assert n == w || n == InstallReviewed(w, p, Inner(p.snapshot.path), c);
    } else {
      assert n == w;
    }
  }
}
