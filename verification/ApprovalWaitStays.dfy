/** Nothing leaves a tree of approval wait scopes by itself: waits, timers and listeners go only when they are ended,
    disposed or removed, when they expire, or when their scope is closed. */
module ApprovalWaitStays {
  import opened Options
  import opened Uuids
  import opened PausableTimeout
  import opened ApprovalWaits
  import opened ApprovalWaitGraph
  import opened ApprovalWaitSafety

  // ---- Timers and listeners ----

  predicate Attached(c: Clocks, t: TimerId) {
    t < |c.timers| && t < |c.owners| && c.owners[t] < |c.panels| && t in c.panels[c.owners[t]].timers
  }

  predicate Expired(c: Clocks, t: TimerId) {
    t < |c.timers| && c.timers[t].didExpire
  }

  /** Timers stay attached until they expire, and listeners stay, except those of the scopes in `gone`. */
  ghost predicate Keeps(c: Clocks, n: Clocks, gone: set<ScopeId>) {
    && c.owners <= n.owners && |c.timers| <= |n.timers| && |c.panels| <= |n.panels|
    && (forall t: TimerId :: Expired(c, t) ==> Expired(n, t))
    && (forall t: TimerId :: Attached(c, t) && c.owners[t] !in gone ==> Attached(n, t) || Expired(n, t))
    && (forall o :: 0 <= o < |c.panels| && o !in gone ==> c.panels[o].listeners.Keys <= n.panels[o].listeners.Keys)
  }

  lemma KeepsOn(a: Clocks, b: Clocks, c: Clocks, gone: set<ScopeId>)
    requires Keeps(a, b, gone) && Keeps(b, c, gone)
    ensures Keeps(a, c, gone)
  {
    forall t: TimerId | Attached(a, t) && a.owners[t] !in gone ensures Attached(c, t) || Expired(c, t) {
      assert Attached(b, t) ==> b.owners[t] == a.owners[t];
      assert Expired(b, t) ==> Expired(c, t);
    }
  }

  lemma NotifyKeeps(c: Clocks, id: ScopeId, waiting: bool, gone: set<ScopeId>)
    requires id < |c.panels|
    ensures Keeps(c, Notify(c, id, waiting), gone)
  {
    var (n, p) := (Notify(c, id, waiting), c.panels[id]);
    if waiting != p.waitingState {
      forall t: TimerId | Expired(c, t) ensures Expired(n, t) {
      }
      forall t: TimerId | Attached(c, t) && c.owners[t] !in gone ensures Attached(n, t) || Expired(n, t) {
        if c.owners[t] == id && waiting && Paused(c.timers[t], c.now).didExpire {
          assert Expired(n, t);
        } else {
          assert Attached(n, t);
        }
      }
    }
  }

  lemma {:induction false} BeginKeeps(w: World, id: ScopeId, gone: set<ScopeId>)
    requires Shaped(w) && id < |w.graph.nodes|
    ensures Keeps(w.clocks, BeginWait(w, id).0.clocks, gone)
    decreases id
  {
    var node := w.graph.nodes[id];
    if !node.closed {
      var added := w.(graph := AddWait(w.graph, id));
      if node.parent.Some? {
        BeginKeeps(added, node.parent.value, gone);
      }
      var (raised, link) := if node.parent.Some? then BeginWait(added, node.parent.value) else (added, None);
      var linked := raised.(graph := LinkWait(raised.graph, id, |w.graph.began|, link));
      NotifyKeeps(linked.clocks, id, Waiting(linked.graph, id), gone);
      KeepsOn(w.clocks, raised.clocks, BeginWait(w, id).0.clocks, gone);
    }
  }

  lemma {:induction false} EndKeeps(w: World, id: ScopeId, wait: WaitId, gone: set<ScopeId>)
    requires Shaped(w) && id < |w.graph.nodes|
    ensures Keeps(w.clocks, EndWait(w, id, wait).clocks, gone)
    decreases id
  {
    var node := w.graph.nodes[id];
    if wait in node.waits {
      var removed := w.(graph := SetWaits(w.graph, id, node.waits - {wait}));
      var lowered := removed;
      if node.parent.Some? && node.waits[wait].Some? {
        EndKeeps(removed, node.parent.value, node.waits[wait].value, gone);
        lowered := EndWait(removed, node.parent.value, node.waits[wait].value);
      }
      NotifyKeeps(lowered.clocks, id, Waiting(lowered.graph, id), gone);
      KeepsOn(w.clocks, lowered.clocks, EndWait(w, id, wait).clocks, gone);
    }
  }

  lemma {:induction false} EndAllKeeps(w: World, id: ScopeId, waits: seq<WaitId>, gone: set<ScopeId>)
    requires Shaped(w) && id < |w.graph.nodes|
    ensures Keeps(w.clocks, EndAll(w, id, waits).clocks, gone)
    decreases |waits|
  {
    if waits != [] {
      var once := EndWait(w, id, waits[0]);
      EndKeeps(w, id, waits[0], gone);
      EndAllKeeps(once, id, waits[1..], gone);
      KeepsOn(w.clocks, once.clocks, EndAll(w, id, waits).clocks, gone);
    }
  }

  lemma CloseKeeps(w: World, id: ScopeId)
    requires Shaped(w) && id < |w.graph.nodes|
    requires |w.clocks.owners| == |w.clocks.timers| && forall o :: 0 <= o < |w.clocks.panels| ==> Owns(w.clocks, o)
    ensures Keeps(w.clocks, Close(w, id).clocks, {id})
  {
    if !w.graph.nodes[id].closed {
      var closed := World(SetClosed(w.graph, id), DetachAll(w.clocks, id));
      var waits := Sorted(w.graph.nodes[id].waits.Keys);
      assert Keeps(w.clocks, closed.clocks, {id}) by {
        assert Owns(w.clocks, id);
      }
      EndAllKeeps(closed, id, waits, {id});
      KeepsOn(w.clocks, closed.clocks, EndAll(closed, id, waits).clocks, {id});
      KeepsOn(w.clocks, EndAll(closed, id, waits).clocks, Close(w, id).clocks, {id});
    }
  }

  // ---- Waits ----

  /** No wait of a child has begun this one. */
  ghost predicate Unlinked(g: Graph, x: WaitId) {
    forall c, y :: 0 <= c < |g.nodes| && y in g.nodes[c].waits ==> g.nodes[c].waits[y] != Some(x)
  }

  lemma HandedUnlinked(g: Graph, x: WaitId)
    requires Wired(g, {}, {}, {}) && x in g.handed
    ensures Unlinked(g, x)
  {
    forall c, y | 0 <= c < |g.nodes| && y in g.nodes[c].waits ensures g.nodes[c].waits[y] != Some(x) {
      assert WellNumbered(g, c, y);
    }
  }

  /** Ending a wait ends it and those it began above, and no other. */
  lemma {:induction false} EndKeepsWait(w: World, id: ScopeId, wait: WaitId, c: ScopeId, x: WaitId)
    requires Shaped(w) && id < |w.graph.nodes| && c < |w.graph.nodes| && x in w.graph.nodes[c].waits
    requires Unlinked(w.graph, x) && (c != id || x != wait)
    ensures var g := EndWait(w, id, wait).graph; x in g.nodes[c].waits && Unlinked(g, x)
    decreases id
  {
    var node := w.graph.nodes[id];
    if wait in node.waits {
      var removed := w.(graph := SetWaits(w.graph, id, node.waits - {wait}));
      assert Unlinked(removed.graph, x) by {
        forall d, y | 0 <= d < |removed.graph.nodes| && y in removed.graph.nodes[d].waits
          ensures removed.graph.nodes[d].waits[y] != Some(x)
        {
          assert y in w.graph.nodes[d].waits && w.graph.nodes[d].waits[y] == removed.graph.nodes[d].waits[y];
        }
      }
      if node.parent.Some? && node.waits[wait].Some? {
        EndKeepsWait(removed, node.parent.value, node.waits[wait].value, c, x);
      }
    }
  }

  lemma {:induction false} EndAllKeepsWait(w: World, id: ScopeId, waits: seq<WaitId>, c: ScopeId, x: WaitId)
    requires Shaped(w) && id < |w.graph.nodes| && c < |w.graph.nodes| && x in w.graph.nodes[c].waits
    requires Unlinked(w.graph, x) && c != id
    ensures x in EndAll(w, id, waits).graph.nodes[c].waits
    decreases |waits|
  {
    if waits != [] {
      EndKeepsWait(w, id, waits[0], c, x);
      EndAllKeepsWait(EndWait(w, id, waits[0]), id, waits[1..], c, x);
    }
  }

  lemma CloseKeepsWait(w: World, id: ScopeId, c: ScopeId, x: WaitId)
    requires Shaped(w) && id < |w.graph.nodes| && c < |w.graph.nodes| && x in w.graph.nodes[c].waits
    requires Unlinked(w.graph, x) && c != id
    ensures x in Close(w, id).graph.nodes[c].waits
  {
    if !w.graph.nodes[id].closed {
      var closed := World(SetClosed(w.graph, id), DetachAll(w.clocks, id));
      assert Unlinked(closed.graph, x) by {
        forall d, y | 0 <= d < |closed.graph.nodes| && y in closed.graph.nodes[d].waits
          ensures closed.graph.nodes[d].waits[y] != Some(x)
        {
          assert y in w.graph.nodes[d].waits;
        }
      }
      EndAllKeepsWait(closed, id, Sorted(w.graph.nodes[id].waits.Keys), c, x);
    }
  }

  // ---- Every step ----

  /** A timer leaves its scope only by expiring, by being disposed, or with its scope. */
  lemma TimersStay(s: State, a: Action, t: TimerId)
    requires Sound(s) && Possible(s, a) && Attached(s.w.clocks, t)
    requires a != DisposeTimeout(t) && a != CloseScope(s.w.clocks.owners[t])
    ensures Attached(Next(s, a).w.clocks, t) || Expired(Next(s, a).w.clocks, t)
  {
    var c := s.w.clocks;
    match a
    case Begin(id) => BeginKeeps(s.w, id, {});
    case End(id, wait) => EndKeeps(s.w, id, wait, {});
    case CloseScope(id) => CloseKeeps(s.w, id);
    case DisposeTimeout(u) => assert Owns(c, c.owners[t]);
    case GoesOff(u) => assert Owns(c, c.owners[t]);
    case _ =>
  }

  /** A listener is told of every change until it is removed or its scope is closed. */
  lemma ListenersStay(s: State, a: Action, id: ScopeId, l: ListenerId)
    requires Sound(s) && Possible(s, a) && id < |s.w.clocks.panels| && l in s.w.clocks.panels[id].listeners
    requires a != Unlisten(id, l) && a != CloseScope(id)
    ensures id < |Next(s, a).w.clocks.panels| && l in Next(s, a).w.clocks.panels[id].listeners
  {
    match a
    case Begin(i) => BeginKeeps(s.w, i, {});
    case End(i, wait) => EndKeeps(s.w, i, wait, {});
    case CloseScope(i) => CloseKeeps(s.w, i);
    case _ =>
  }

  /** A caller's wait is kept up until the caller releases it or its scope is closed. */
  lemma WaitsStay(s: State, a: Action, c: ScopeId, x: WaitId)
    requires Sound(s) && Possible(s, a) && c < |s.w.graph.nodes| && x in s.w.graph.nodes[c].waits && x in s.w.graph.handed
    requires a != End(c, x) && a != CloseScope(c)
    ensures var g := Next(s, a).w.graph; c < |g.nodes| && x in g.nodes[c].waits && x in g.handed
  {
    HandedUnlinked(s.w.graph, x);
    if a.Begin? {
      BeginKeepsWait(s.w, a.id, c, x);
    } else if a.End? {
      EndKeepsWait(s.w, a.id, a.wait, c, x);
      EndKeepsHanded(s.w, a.id, a.wait);
    } else if a.CloseScope? {
      CloseKeepsWait(s.w, a.id, c, x);
      CloseKeepsHanded(s.w, a.id);
    } else {
      SameGraph(s, a);
    }
  }

  lemma BeginKeepsWait(w: World, id: ScopeId, c: ScopeId, x: WaitId)
    requires Shaped(w) && id < |w.graph.nodes| && Wired(w.graph, {}, {}, {})
    requires c < |w.graph.nodes| && x in w.graph.nodes[c].waits
    ensures x in HandOut(w, id).graph.nodes[c].waits && w.graph.handed <= HandOut(w, id).graph.handed
  {
    BeginWired(w, id, {}, {});
    assert Kept(w.graph, BeginWait(w, id).0.graph, c, x);
  }

  lemma {:induction false} EndKeepsHanded(w: World, id: ScopeId, wait: WaitId)
    requires Shaped(w) && id < |w.graph.nodes|
    ensures EndWait(w, id, wait).graph.handed == w.graph.handed
    decreases id
  {
    var node := w.graph.nodes[id];
    if wait in node.waits && node.parent.Some? && node.waits[wait].Some? {
      EndKeepsHanded(w.(graph := SetWaits(w.graph, id, node.waits - {wait})), node.parent.value, node.waits[wait].value);
    }
  }

  lemma {:induction false} EndAllKeepsHanded(w: World, id: ScopeId, waits: seq<WaitId>)
    requires Shaped(w) && id < |w.graph.nodes|
    ensures EndAll(w, id, waits).graph.handed == w.graph.handed
    decreases |waits|
  {
    if waits != [] {
      EndKeepsHanded(w, id, waits[0]);
      EndAllKeepsHanded(EndWait(w, id, waits[0]), id, waits[1..]);
    }
  }

  lemma CloseKeepsHanded(w: World, id: ScopeId)
    requires Shaped(w) && id < |w.graph.nodes|
    ensures Close(w, id).graph.handed == w.graph.handed
  {
    if !w.graph.nodes[id].closed {
      EndAllKeepsHanded(World(SetClosed(w.graph, id), DetachAll(w.clocks, id)), id, Sorted(w.graph.nodes[id].waits.Keys));
    }
  }

  lemma SameGraph(s: State, a: Action)
    requires Sound(s) && Possible(s, a) && !a.Begin? && !a.End? && !a.CloseScope?
    ensures var (g, n) := (s.w.graph, Next(s, a).w.graph);
      n.handed == g.handed && g.nodes <= n.nodes
  {
  }

  /** Beginning a wait in an open scope gives the caller a new one; in a closed scope nothing happens. */
  lemma BeginGivesWait(s: State, id: ScopeId)
    requires Sound(s) && Possible(s, Begin(id))
    ensures var (g, n, x) := (s.w.graph, Next(s, Begin(id)).w.graph, |s.w.graph.began|);
      if g.nodes[id].closed then n == g
      else id < |n.nodes| && x in n.nodes[id].waits && n.handed == g.handed + {x} && x !in g.handed
  {
    BeginWired(s.w, id, {}, {});
  }

  /** The caller's release ends the wait. */
  lemma EndTakesWait(s: State, id: ScopeId, x: WaitId)
    requires Sound(s) && Possible(s, End(id, x))
    ensures id < |Next(s, End(id, x)).w.graph.nodes| && x !in Next(s, End(id, x)).w.graph.nodes[id].waits
  {
    if Below(s.w.graph, x) {
      HandedNotBelow(s.w.graph, x);
    }
    EndWired(s.w, id, x, {}, {});
  }

  /** A new timer joins its scope, unless the scope waits and there is no time to count: then it has expired. */
  lemma TimeoutJoins(s: State, id: ScopeId, milliseconds: real)
    requires Sound(s) && Possible(s, SetTimeout(id, milliseconds))
    ensures var (n, t) := (Next(s, SetTimeout(id, milliseconds)), |s.w.clocks.timers|);
      && t < |n.w.clocks.owners| && n.w.clocks.owners[t] == id && t < |n.b.budgets| && n.b.budgets[t] == milliseconds
      && (if Waiting(s.w.graph, id) && milliseconds <= 0.0 then Expired(n.w.clocks, t) else Attached(n.w.clocks, t))
  {
  }

  /** A closed scope has no waits, timers or listeners left. */
  lemma CloseEmpties(s: State, id: ScopeId)
    requires Sound(s) && Possible(s, CloseScope(id)) && !s.w.graph.nodes[id].closed
    ensures var n := Next(s, CloseScope(id)).w;
      && id < |n.graph.nodes| && id < |n.clocks.panels| && n.graph.nodes[id].closed && n.graph.nodes[id].waits == map[]
      && n.clocks.panels[id].timers == map[] && n.clocks.panels[id].listeners == map[]
  {
    var closed, waits := World(SetClosed(s.w.graph, id), DetachAll(s.w.clocks, id)), Sorted(s.w.graph.nodes[id].waits.Keys);
    SetClosedWired(s.w.graph, id);
    EndAllWired(closed, id, waits, {id});
    EndAllClosed(closed, id, waits);
    assert (set x | x in waits) == s.w.graph.nodes[id].waits.Keys;
    EndAllKeepsNone(closed, id, waits);
  }

  lemma {:induction false} EndAllClosed(w: World, id: ScopeId, waits: seq<WaitId>)
    requires Shaped(w) && id < |w.graph.nodes|
    ensures EndAll(w, id, waits).graph.nodes[id].closed == w.graph.nodes[id].closed
    decreases |waits|
  {
    if waits != [] {
      EndAllClosed(EndWait(w, id, waits[0]), id, waits[1..]);
    }
  }

  /** Ending waits attaches no timers. */
  lemma {:induction false} EndKeepsNone(w: World, id: ScopeId, wait: WaitId, o: ScopeId)
    requires Shaped(w) && id < |w.graph.nodes| && o < |w.clocks.panels| && w.clocks.panels[o].timers == map[]
    ensures EndWait(w, id, wait).clocks.panels[o].timers == map[]
    decreases id
  {
    var node := w.graph.nodes[id];
    if wait in node.waits && node.parent.Some? && node.waits[wait].Some? {
      EndKeepsNone(w.(graph := SetWaits(w.graph, id, node.waits - {wait})), node.parent.value, node.waits[wait].value, o);
    }
  }

  lemma {:induction false} EndAllKeepsNone(w: World, id: ScopeId, waits: seq<WaitId>)
    requires Shaped(w) && id < |w.graph.nodes| && w.clocks.panels[id].timers == map[]
    ensures EndAll(w, id, waits).clocks.panels[id].timers == map[]
    decreases |waits|
  {
    if waits != [] {
      EndKeepsNone(w, id, waits[0], id);
      EndAllKeepsNone(EndWait(w, id, waits[0]), id, waits[1..]);
    }
  }
}
