/** Which scopes wait: a scope waits exactly while it, or a scope below it through open scopes, has a wait whose
    release was handed to a caller and not yet called. */
module ApprovalWaitGraph {
  import opened Options
  import opened Uuids
  import opened ApprovalWaits

  /** A wait keeps its number and its scope; the wait it began in the parent has the next number and is never
      handed to a caller. */
  ghost predicate WellNumbered(g: Graph, c: ScopeId, x: WaitId)
    requires c < |g.nodes| && x in g.nodes[c].waits
  {
    && x < |g.began| && g.began[x] == c
    && (g.nodes[c].waits[x].Some? ==> (
          && g.nodes[c].waits[x].value == x + 1 && x + 1 !in g.handed
          && x + 1 < |g.began| && g.nodes[c].parent == Some(g.began[x + 1])))
  }

  /** An open parent has the wait begun there. */
  ghost predicate Carried(g: Graph, c: ScopeId, x: WaitId)
    requires Tree(g.nodes) && c < |g.nodes| && x in g.nodes[c].waits
  {
    var node := g.nodes[c];
    node.parent.Some? && !g.nodes[node.parent.value].closed ==>
      node.waits[x].Some? && node.waits[x].value in g.nodes[node.parent.value].waits
  }

  ghost predicate Below(g: Graph, x: WaitId) {
    && 0 < x <= |g.began| && g.began[x - 1] < |g.nodes|
    && x - 1 in g.nodes[g.began[x - 1]].waits && g.nodes[g.began[x - 1]].waits[x - 1] == Some(x)
  }

  /** A wait was handed to a caller or carries a wait of a child. */
  ghost predicate Grounded(g: Graph, x: WaitId) {
    x in g.handed || Below(g, x)
  }

  /** What holds of every wait, but for those just being lifted to the parent or left by their child, and of
      every closed scope, but for those still closing. */
  ghost predicate Wired(g: Graph, lifting: set<WaitId>, orphan: set<WaitId>, closing: set<ScopeId>) {
    && Tree(g.nodes)
    && (forall c, x :: 0 <= c < |g.nodes| && x in g.nodes[c].waits ==>
          && WellNumbered(g, c, x) && (x !in lifting ==> Carried(g, c, x)) && (x !in orphan ==> Grounded(g, x)))
    && (forall c :: 0 <= c < |g.nodes| && g.nodes[c].closed && c !in closing ==> g.nodes[c].waits == map[])
    && (forall x :: x in g.handed ==> x < |g.began|)
  }

  ghost predicate Kept(g: Graph, h: Graph, c: ScopeId, x: WaitId)
    requires c < |g.nodes| && c < |h.nodes| && x in g.nodes[c].waits
  {
    x in h.nodes[c].waits && h.nodes[c].waits[x] == g.nodes[c].waits[x]
  }

  /** New waits are added, with new numbers, and only to this scope and those made before it. */
  ghost predicate Grows(g: Graph, h: Graph, id: ScopeId) {
    && SameTree(g, h) && g.began <= h.began && h.handed == g.handed
    && (forall c :: id < c < |g.nodes| ==> h.nodes[c] == g.nodes[c])
    && (forall c, x :: 0 <= c < |g.nodes| && x in g.nodes[c].waits ==> Kept(g, h, c, x))
    && (forall c, x :: 0 <= c < |g.nodes| && x in h.nodes[c].waits && x < |g.began| ==> x in g.nodes[c].waits)
  }

  /** Waits are only removed, and only from this scope and those made before it. */
  ghost predicate Shrinks(g: Graph, h: Graph, id: ScopeId) {
    && SameTree(g, h) && h.began == g.began && h.handed == g.handed
    && (forall c :: id < c < |g.nodes| ==> h.nodes[c] == g.nodes[c])
    && (forall c, x :: 0 <= c < |g.nodes| && x in h.nodes[c].waits ==> x in g.nodes[c].waits && Kept(h, g, c, x))
  }

  // ---- Beginning a wait ----

  lemma AddWired(g: Graph, id: ScopeId, lifting: set<WaitId>, orphan: set<WaitId>)
    requires Wired(g, lifting, orphan, {}) && id < |g.nodes| && !g.nodes[id].closed
    ensures Wired(AddWait(g, id), lifting + {|g.began|}, orphan + {|g.began|}, {})
    ensures Grows(g, AddWait(g, id), id)
  {
    var h, wait := AddWait(g, id), |g.began|;
    forall c, x | 0 <= c < |h.nodes| && x in h.nodes[c].waits
      ensures WellNumbered(h, c, x) && (x !in lifting + {wait} ==> Carried(h, c, x))
              && (x !in orphan + {wait} ==> Grounded(h, x))
    {
      if c != id || x != wait {
        assert WellNumbered(g, c, x) && (x !in orphan ==> Grounded(g, x));
      }
    }
  }

  /** What the parent's part of a new wait must look like. */
  ghost predicate Lifted(g: Graph, id: ScopeId, wait: WaitId, link: Option<WaitId>)
    requires Tree(g.nodes) && id < |g.nodes|
  {
    var parent := g.nodes[id].parent;
    if parent.None? || g.nodes[parent.value].closed then link == None
    else link == Some(wait + 1) && wait + 1 in g.nodes[parent.value].waits && wait + 1 !in g.handed
  }

  lemma LinkWired(g: Graph, id: ScopeId, wait: WaitId, link: Option<WaitId>, lifting: set<WaitId>, orphan: set<WaitId>)
    requires Wired(g, lifting + {wait}, if link.Some? then orphan + {wait + 1} else orphan, {}) && id < |g.nodes|
    requires wait in g.nodes[id].waits && g.nodes[id].waits[wait].None? && Lifted(g, id, wait, link)
    ensures Wired(LinkWait(g, id, wait, link), lifting, orphan, {})
    ensures SameTree(g, LinkWait(g, id, wait, link))
  {
    var h := LinkWait(g, id, wait, link);
    forall c, x | 0 <= c < |h.nodes| && x in h.nodes[c].waits
      ensures WellNumbered(h, c, x) && (x !in lifting ==> Carried(h, c, x)) && (x !in orphan ==> Grounded(h, x))
    {
      assert WellNumbered(g, c, x);
      if x !in lifting && x != wait {
        assert Carried(g, c, x);
      }
    }
  }

  lemma NumbersBounded(g: Graph, lifting: set<WaitId>, orphan: set<WaitId>)
    requires Wired(g, lifting, orphan, {})
    ensures forall c, x :: 0 <= c < |g.nodes| && x in g.nodes[c].waits ==> x < |g.began|
  {
    forall c, x | 0 <= c < |g.nodes| && x in g.nodes[c].waits ensures x < |g.began| {
      assert WellNumbered(g, c, x);
    }
  }

  lemma GrowsOn(f: Graph, g: Graph, h: Graph, id: ScopeId, wait: WaitId, link: Option<WaitId>)
    requires id < |f.nodes| && wait == |f.began| && Grows(f, g, id) && Grows(g, h, id)
    requires forall c, x :: 0 <= c < |f.nodes| && x in f.nodes[c].waits ==> x < |f.began|
    ensures Grows(f, LinkWait(h, id, wait, link), id)
  {
    var n := LinkWait(h, id, wait, link);
    forall c, x | 0 <= c < |f.nodes| && x in f.nodes[c].waits ensures Kept(f, n, c, x) {
      assert Kept(f, g, c, x);
      assert Kept(g, h, c, x);
    }
  }

  lemma {:induction false} BeginWired(w: World, id: ScopeId, lifting: set<WaitId>, orphan: set<WaitId>)
    requires Shaped(w) && id < |w.graph.nodes| && Wired(w.graph, lifting, orphan, {})
    ensures var (n, wait) := BeginWait(w, id);
      && Grows(w.graph, n.graph, id)
      && if w.graph.nodes[id].closed then n == w && wait.None?
         else wait == Some(|w.graph.began|) && wait.value in n.graph.nodes[id].waits
              && Wired(n.graph, lifting, orphan + {wait.value}, {})
    decreases id
  {
    var node := w.graph.nodes[id];
    if !node.closed {
      var wait := |w.graph.began|;
      var added := w.(graph := AddWait(w.graph, id));
      AddWired(w.graph, id, lifting, orphan);
      if node.parent.Some? {
        BeginWired(added, node.parent.value, lifting + {wait}, orphan + {wait});
      }
      var (raised, link) := if node.parent.Some? then BeginWait(added, node.parent.value) else (added, None);
      LinkWired(raised.graph, id, wait, link, lifting, orphan + {wait});
      NumbersBounded(w.graph, lifting, orphan);
      assert Grows(added.graph, raised.graph, id);
      GrowsOn(w.graph, added.graph, raised.graph, id, wait, link);
    }
  }

  lemma HandOutWired(w: World, id: ScopeId)
    requires Shaped(w) && id < |w.graph.nodes| && Wired(w.graph, {}, {}, {})
    ensures Wired(HandOut(w, id).graph, {}, {}, {})
  {
    BeginWired(w, id, {}, {});
    if !w.graph.nodes[id].closed {
      var n, wait, h := BeginWait(w, id).0.graph, |w.graph.began|, HandOut(w, id).graph;
      forall c, x | 0 <= c < |h.nodes| && x in h.nodes[c].waits
        ensures WellNumbered(h, c, x) && Carried(h, c, x) && Grounded(h, x)
      {
        assert WellNumbered(n, c, x) && Carried(n, c, x) && (x != wait ==> Grounded(n, x));
        if x + 1 == wait {
          assert WellNumbered(w.graph, c, x) && Kept(w.graph, n, c, x);
        }
      }
    }
  }

  // ---- Ending a wait ----

  lemma RemoveWired(g: Graph, id: ScopeId, wait: WaitId, orphan: set<WaitId>, closing: set<ScopeId>)
    requires Wired(g, {}, orphan, closing) && id < |g.nodes| && wait in g.nodes[id].waits
    requires g.nodes[id].closed || !Below(g, wait)
    ensures var h := SetWaits(g, id, g.nodes[id].waits - {wait});
      && Shrinks(g, h, id)
      && Wired(h, {}, if g.nodes[id].waits[wait].Some? then orphan + {wait + 1} else orphan, closing)
  {
    var h, left := SetWaits(g, id, g.nodes[id].waits - {wait}), if g.nodes[id].waits[wait].Some? then orphan + {wait + 1} else orphan;
    assert WellNumbered(g, id, wait);
    forall c, x | 0 <= c < |h.nodes| && x in h.nodes[c].waits
      ensures WellNumbered(h, c, x) && Carried(h, c, x) && (x !in left ==> Grounded(h, x))
    {
      assert WellNumbered(g, c, x) && Carried(g, c, x) && (x !in orphan ==> Grounded(g, x));
    }
  }

  lemma DropOrphan(g: Graph, wait: WaitId, orphan: set<WaitId>, closing: set<ScopeId>)
    requires Wired(g, {}, orphan + {wait}, closing)
    requires wait < |g.began| && g.began[wait] < |g.nodes| ==> wait !in g.nodes[g.began[wait]].waits
    ensures Wired(g, {}, orphan, closing)
  {
    forall c, x | 0 <= c < |g.nodes| && x in g.nodes[c].waits && x !in orphan ensures Grounded(g, x) {
      assert WellNumbered(g, c, x);
    }
  }

  lemma ShrinksOn(f: Graph, g: Graph, h: Graph, id: ScopeId, p: ScopeId)
    requires Shrinks(f, g, id) && Shrinks(g, h, p) && p < id
    ensures Shrinks(f, h, id)
  {
    forall c, x | 0 <= c < |f.nodes| && x in h.nodes[c].waits ensures x in f.nodes[c].waits && Kept(h, f, c, x) {
      assert Kept(h, g, c, x) && Kept(g, f, c, x);
    }
  }

  lemma {:induction false} EndWired(w: World, id: ScopeId, wait: WaitId, orphan: set<WaitId>, closing: set<ScopeId>)
    requires Shaped(w) && id < |w.graph.nodes| && Wired(w.graph, {}, orphan, closing)
    requires w.graph.nodes[id].closed || !Below(w.graph, wait)
    ensures var n := EndWait(w, id, wait).graph;
      && Wired(n, {}, orphan, closing) && Shrinks(w.graph, n, id)
      && n.nodes[id].waits == w.graph.nodes[id].waits - {wait}
    decreases id
  {
    var node := w.graph.nodes[id];
    if wait in node.waits {
      var removed := w.(graph := SetWaits(w.graph, id, node.waits - {wait}));
      RemoveWired(w.graph, id, wait, orphan, closing);
      assert WellNumbered(w.graph, id, wait);
      if node.waits[wait].Some? {
        var parent := node.parent.value;
        EndWired(removed, parent, wait + 1, orphan + {wait + 1}, closing);
        var lowered := EndWait(removed, parent, wait + 1);
        DropOrphan(lowered.graph, wait + 1, orphan, closing);
        ShrinksOn(w.graph, removed.graph, lowered.graph, id, parent);
      }
    } else {
      assert node.waits == node.waits - {wait};
    }
  }

  lemma {:induction false} EndAllWired(w: World, id: ScopeId, waits: seq<WaitId>, closing: set<ScopeId>)
    requires Shaped(w) && id < |w.graph.nodes| && Wired(w.graph, {}, {}, closing) && w.graph.nodes[id].closed
    ensures var n := EndAll(w, id, waits).graph;
      Wired(n, {}, {}, closing) && n.nodes[id].waits == w.graph.nodes[id].waits - (set x | x in waits)
    decreases |waits|
  {
    if waits != [] {
      var once := EndWait(w, id, waits[0]);
      EndWired(w, id, waits[0], {}, closing);
      EndAllWired(once, id, waits[1..], closing);
      assert (set x | x in waits) == {waits[0]} + (set x | x in waits[1..]);
    } else {
      assert w.graph.nodes[id].waits - (set x | x in waits) == w.graph.nodes[id].waits;
    }
  }

  lemma SetClosedWired(g: Graph, id: ScopeId)
    requires Wired(g, {}, {}, {}) && id < |g.nodes|
    ensures Wired(SetClosed(g, id), {}, {}, {id})
  {
    var h := SetClosed(g, id);
    forall c, x | 0 <= c < |h.nodes| && x in h.nodes[c].waits
      ensures WellNumbered(h, c, x) && Carried(h, c, x) && Grounded(h, x)
    {
      assert WellNumbered(g, c, x) && Carried(g, c, x) && Grounded(g, x);
    }
  }

  /** A scope without waits has done closing. */
  lemma DoneClosing(g: Graph, id: ScopeId)
    requires Wired(g, {}, {}, {id}) && id < |g.nodes| && g.nodes[id].waits == map[]
    ensures Wired(g, {}, {}, {})
  {
  }

  lemma CloseWired(w: World, id: ScopeId)
    requires Shaped(w) && id < |w.graph.nodes| && Wired(w.graph, {}, {}, {})
    ensures Wired(Close(w, id).graph, {}, {}, {})
  {
    var g := w.graph;
    if !g.nodes[id].closed {
      var closed, waits := World(SetClosed(g, id), DetachAll(w.clocks, id)), Sorted(g.nodes[id].waits.Keys);
      SetClosedWired(g, id);
      EndAllWired(closed, id, waits, {id});
      assert (set x | x in waits) == g.nodes[id].waits.Keys;
      DoneClosing(EndAll(closed, id, waits).graph, id);
    }
  }

  lemma OpenWired(w: World, parent: Option<ScopeId>)
    requires Shaped(w) && (parent.Some? ==> parent.value < |w.graph.nodes|) && Wired(w.graph, {}, {}, {})
    ensures Wired(Open(w, parent).graph, {}, {}, {})
  {
    var g, h := w.graph, Open(w, parent).graph;
    forall c, x | 0 <= c < |h.nodes| && x in h.nodes[c].waits
      ensures WellNumbered(h, c, x) && Carried(h, c, x) && Grounded(h, x)
    {
      assert WellNumbered(g, c, x) && Carried(g, c, x) && Grounded(g, x);
    }
  }

  // ---- Who waits ----

  /** From `c` up to `p` every scope is open. */
  ghost predicate OpenPath(g: Graph, c: ScopeId, p: ScopeId)
    requires Tree(g.nodes) && c < |g.nodes|
    decreases c
  {
    !g.nodes[c].closed && (c == p || (g.nodes[c].parent.Some? && OpenPath(g, g.nodes[c].parent.value, p)))
  }

  /** A caller still holds the release of a wait of `c`. */
  ghost predicate HoldsBack(g: Graph, c: ScopeId, p: ScopeId, x: WaitId) {
    Tree(g.nodes) && c < |g.nodes| && OpenPath(g, c, p) && x in g.nodes[c].waits && x in g.handed
  }

  lemma {:induction false} ExtendPath(g: Graph, c: ScopeId, m: ScopeId, p: ScopeId)
    requires Tree(g.nodes) && c < |g.nodes| && m < |g.nodes| && p < |g.nodes|
    requires OpenPath(g, c, m) && g.nodes[m].parent == Some(p) && !g.nodes[p].closed
    ensures OpenPath(g, c, p)
    decreases c
  {
    if c != m {
      ExtendPath(g, g.nodes[c].parent.value, m, p);
    }
  }

  lemma {:induction false} HeldBack(g: Graph, p: ScopeId, x: WaitId) returns (c: ScopeId, y: WaitId)
    requires Wired(g, {}, {}, {}) && p < |g.nodes| && x in g.nodes[p].waits
    ensures HoldsBack(g, c, p, y)
    decreases |g.nodes| - p
  {
    if x in g.handed {
      return p, x;
    }
    assert Grounded(g, x);
    var child := g.began[x - 1];
    assert WellNumbered(g, child, x - 1) && WellNumbered(g, p, x);
    c, y := HeldBack(g, child, x - 1);
    ExtendPath(g, c, child, p);
  }

  lemma {:induction false} PathWaits(g: Graph, c: ScopeId, p: ScopeId)
    requires Wired(g, {}, {}, {}) && c < |g.nodes| && p < |g.nodes| && OpenPath(g, c, p) && Waiting(g, c)
    ensures Waiting(g, p)
    decreases c
  {
    if c != p {
      var x :| x in g.nodes[c].waits;
      assert Carried(g, c, x);
      PathWaits(g, g.nodes[c].parent.value, p);
    }
  }

  /** An open parent waits whenever an open child does. */
  lemma ParentWaits(g: Graph, c: ScopeId)
    requires Wired(g, {}, {}, {}) && c < |g.nodes| && g.nodes[c].parent.Some? && Waiting(g, c)
    requires !g.nodes[c].closed && !g.nodes[g.nodes[c].parent.value].closed
    ensures Waiting(g, g.nodes[c].parent.value)
  {
    PathWaits(g, c, g.nodes[c].parent.value);
  }

  /** A scope waits if and only if some caller holds back a wait begun in it, or in a scope below it with only
      open scopes between: it stops waiting once every release handed out below it was called. */
  lemma WaitsIffHeldBack(g: Graph, p: ScopeId)
    requires Wired(g, {}, {}, {}) && p < |g.nodes|
    ensures Waiting(g, p) <==> exists c, x :: HoldsBack(g, c, p, x)
  {
    if Waiting(g, p) {
      var x :| x in g.nodes[p].waits;
      var c, y := HeldBack(g, p, x);
    }
    if exists c, x :: HoldsBack(g, c, p, x) {
      var c, x :| HoldsBack(g, c, p, x);
      PathWaits(g, c, p);
    }
  }
}
