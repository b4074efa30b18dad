/** Approval wait scopes: a wait in a scope begins one in its parent, and a waiting scope pauses the timers
    registered with it. Listeners and callbacks do not call back into the scopes. */
module ApprovalWaits {
  import opened Options
  import opened Uuids
  import opened PausableTimeout

  type ScopeId = nat
  type WaitId = nat
  type TimerId = nat
  type ListenerId = nat

  /** `waits` maps each wait of a scope to the one it began in the parent. */
  datatype Node = Node(parent: Option<ScopeId>, waits: map<WaitId, Option<WaitId>>, closed: bool)

  /** `began` tells in which scope each wait began; `handed` are the waits whose release a caller was given. */
  datatype Graph = Graph(nodes: seq<Node>, began: seq<ScopeId>, handed: set<WaitId>)

  /** `timers` maps each attached timer to the pause its scope holds on it; `listeners` holds what each was
      told last. */
  datatype Panel = Panel(timers: map<TimerId, Option<nat>>, listeners: map<ListenerId, bool>, waitingState: bool)

  datatype Clocks = Clocks(panels: seq<Panel>, timers: seq<Timer>, owners: seq<ScopeId>, now: real)

  /** A scope's waits are kept in the graph and its timers and listeners in its panel. */
  datatype World = World(graph: Graph, clocks: Clocks)

  /** A parent is made before its children. */
  ghost predicate Tree(nodes: seq<Node>) {
    forall c :: 0 <= c < |nodes| && nodes[c].parent.Some? ==> nodes[c].parent.value < c
  }

  ghost predicate Shaped(w: World) {
    Tree(w.graph.nodes) && |w.clocks.panels| == |w.graph.nodes|
  }

  ghost predicate SameTree(g: Graph, h: Graph) {
    && |h.nodes| == |g.nodes|
    && forall c :: 0 <= c < |g.nodes| ==> h.nodes[c].parent == g.nodes[c].parent && h.nodes[c].closed == g.nodes[c].closed
  }

  predicate Waiting(g: Graph, id: ScopeId)
    requires id < |g.nodes|
  {
    g.nodes[id].waits != map[]
  }

  function SetWaits(g: Graph, id: ScopeId, waits: map<WaitId, Option<WaitId>>): Graph
    requires id < |g.nodes|
  {
    g.(nodes := g.nodes[id := g.nodes[id].(waits := waits)])
  }

  // ---- Timers of one scope ----

  /** Takes a pause on a timer; one whose budget is already exhausted expires and is detached. */
  function Paused(t: Timer, now: real): Timer {
    var n := Pause(t, now).0;
    if n.didExpire then Dispose(n) else n
  }

  function Resumed(t: Timer, token: Option<nat>, now: real): Timer {
    if token.Some? then Release(t, token.value, now) else t
  }

  function Switched(t: Timer, token: Option<nat>, waiting: bool, now: real): Timer {
    if waiting then Paused(t, now) else Resumed(t, token, now)
  }

  function HeldTokens(c: Clocks, p: Panel, waiting: bool): map<TimerId, Option<nat>> {
    if waiting then
      map t | t in p.timers && t < |c.timers| && !Paused(c.timers[t], c.now).didExpire :: Pause(c.timers[t], c.now).1
    else
      map t | t in p.timers :: None
  }

  function Told(listeners: map<ListenerId, bool>, waiting: bool): map<ListenerId, bool> {
    map l | l in listeners :: waiting
  }

  /** Tells a scope whether it waits: on a change its timers are paused or resumed and its listeners told. */
  function Notify(c: Clocks, id: ScopeId, waiting: bool): (n: Clocks)
    requires id < |c.panels|
    ensures |n.panels| == |c.panels|
  {
    var p := c.panels[id];
    if waiting == p.waitingState then c
    else
      c.(timers := seq(|c.timers|, t requires 0 <= t < |c.timers| =>
                         if t in p.timers then Switched(c.timers[t], p.timers[t], waiting, c.now) else c.timers[t]),
         panels := c.panels[id := Panel(HeldTokens(c, p, waiting), Told(p.listeners, waiting), waiting)])
  }

  function Detach(c: Clocks, id: ScopeId, t: TimerId): (n: Clocks)
    requires id < |c.panels| && t < |c.timers|
    ensures |n.panels| == |c.panels|
  {
    c.(timers := c.timers[t := Dispose(c.timers[t])],
       panels := c.panels[id := c.panels[id].(timers := c.panels[id].timers - {t})])
  }

  // ---- Waits ----

  function AddWait(g: Graph, id: ScopeId): Graph
    requires id < |g.nodes|
  {
    SetWaits(g, id, g.nodes[id].waits[|g.began| := None]).(began := g.began + [id])
  }

  function LinkWait(g: Graph, id: ScopeId, wait: WaitId, link: Option<WaitId>): Graph
    requires id < |g.nodes|
  {
    SetWaits(g, id, g.nodes[id].waits[wait := link])
  }

  function UpdateWaiting(w: World, id: ScopeId): World
    requires Shaped(w) && id < |w.graph.nodes|
  {
    w.(clocks := Notify(w.clocks, id, Waiting(w.graph, id)))
  }

  /** A closed scope begins nothing. */
  function BeginWait(w: World, id: ScopeId): (r: (World, Option<WaitId>))
    requires Shaped(w) && id < |w.graph.nodes|
    ensures Shaped(r.0) && SameTree(w.graph, r.0.graph)
    decreases id
  {
    var node := w.graph.nodes[id];
    if node.closed then (w, None)
    else
      var wait := |w.graph.began|;
      var added := w.(graph := AddWait(w.graph, id));
      var (raised, link) := if node.parent.Some? then BeginWait(added, node.parent.value) else (added, None);
      (UpdateWaiting(raised.(graph := LinkWait(raised.graph, id, wait, link)), id), Some(wait))
  }

  /** Releases a wait and, before its own scope looks again, the one it began in the parent. */
  function EndWait(w: World, id: ScopeId, wait: WaitId): (r: World)
    requires Shaped(w) && id < |w.graph.nodes|
    ensures Shaped(r) && SameTree(w.graph, r.graph)
    decreases id
  {
    var node := w.graph.nodes[id];
    if wait !in node.waits then w
    else
      var removed := w.(graph := SetWaits(w.graph, id, node.waits - {wait}));
      var lowered := if node.parent.Some? && node.waits[wait].Some?
                     then EndWait(removed, node.parent.value, node.waits[wait].value) else removed;
      UpdateWaiting(lowered, id)
  }

  function EndAll(w: World, id: ScopeId, waits: seq<WaitId>): (r: World)
    requires Shaped(w) && id < |w.graph.nodes|
    ensures Shaped(r) && SameTree(w.graph, r.graph)
    decreases |waits|
  {
    if waits == [] then w else EndAll(EndWait(w, id, waits[0]), id, waits[1..])
  }

  // ---- Closing ----

  function DetachAll(c: Clocks, id: ScopeId): (n: Clocks)
    requires id < |c.panels|
    ensures |n.panels| == |c.panels|
  {
    c.(timers := seq(|c.timers|, t requires 0 <= t < |c.timers| =>
                       if t in c.panels[id].timers then Dispose(c.timers[t]) else c.timers[t]),
       panels := c.panels[id := c.panels[id].(timers := map[])])
  }

  function SetClosed(g: Graph, id: ScopeId): Graph
    requires id < |g.nodes|
  {
    g.(nodes := g.nodes[id := g.nodes[id].(closed := true)])
  }

  function Forget(c: Clocks, id: ScopeId): (n: Clocks)
    requires id < |c.panels|
    ensures |n.panels| == |c.panels|
  {
    c.(panels := c.panels[id := c.panels[id].(listeners := map[])])
  }

  /** Timers go first, so that releasing the waits, oldest first, never restarts one. */
  function Close(w: World, id: ScopeId): (r: World)
    requires Shaped(w) && id < |w.graph.nodes|
    ensures Shaped(r)
  {
    if w.graph.nodes[id].closed then w
    else
      var ended := EndAll(World(SetClosed(w.graph, id), DetachAll(w.clocks, id)), id, Sorted(w.graph.nodes[id].waits.Keys));
      ended.(clocks := Forget(ended.clocks, id))
  }

  // ---- Timers and listeners ----

  /** A new timer of a waiting scope is paused at once. */
  function Register(w: World, id: ScopeId, milliseconds: real): (r: World)
    requires Shaped(w) && id < |w.graph.nodes|
    ensures Shaped(r)
  {
    var c := w.clocks;
    var t, p, timer := |c.timers|, c.panels[id], Create(milliseconds, c.now);
    var kept := if Waiting(w.graph, id) then Paused(timer, c.now) else timer;
    var token := if Waiting(w.graph, id) then Pause(timer, c.now).1 else None;
    w.(clocks := c.(timers := c.timers + [kept], owners := c.owners + [id],
                    panels := c.panels[id := p.(timers := if kept.didExpire then p.timers else p.timers[t := token])]))
  }

  /** The system timer of `t` goes off: an expired timer leaves its scope before its callback runs. */
  function Ring(c: Clocks, id: ScopeId, t: TimerId): (n: Clocks)
    requires id < |c.panels| && t < |c.timers|
    ensures |n.panels| == |c.panels|
  {
    var rung := c.(timers := c.timers[t := GoOff(c.timers[t], c.now)]);
    if rung.timers[t].didExpire then Detach(rung, id, t) else rung
  }

  /** A closed scope tells the listener `false` and keeps nothing. */
  function Subscribe(w: World, id: ScopeId, listener: ListenerId): (r: World)
    requires Shaped(w) && id < |w.graph.nodes|
    ensures Shaped(r)
  {
    if w.graph.nodes[id].closed then w
    else
      var p := w.clocks.panels[id];
      w.(clocks := w.clocks.(panels :=
           w.clocks.panels[id := p.(listeners := p.listeners[listener := Waiting(w.graph, id)])]))
  }

  function Unsubscribe(c: Clocks, id: ScopeId, listener: ListenerId): (n: Clocks)
    requires id < |c.panels|
    ensures |n.panels| == |c.panels|
  {
    c.(panels := c.panels[id := c.panels[id].(listeners := c.panels[id].listeners - {listener})])
  }

  function Open(w: World, parent: Option<ScopeId>): (r: World)
    requires Shaped(w) && (parent.Some? ==> parent.value < |w.graph.nodes|)
    ensures Shaped(r)
  {
    World(w.graph.(nodes := w.graph.nodes + [Node(parent, map[], false)]),
          w.clocks.(panels := w.clocks.panels + [Panel(map[], map[], false)]))
  }

  /** A caller is given the release of the wait it began. */
  function HandOut(w: World, id: ScopeId): (r: World)
    requires Shaped(w) && id < |w.graph.nodes|
    ensures Shaped(r)
  {
    var (begun, wait) := BeginWait(w, id);
    if wait.None? then begun else begun.(graph := begun.graph.(handed := begun.graph.handed + {wait.value}))
  }
}
