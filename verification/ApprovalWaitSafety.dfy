/** What approval wait scopes promise about their timers, over every run of a tree of scopes. */
module ApprovalWaitSafety {
  import opened Options
  import opened Uuids
  import opened PausableTimeout
  import opened ApprovalWaits
  import opened ApprovalWaitGraph

  /** Kept beside a run: every timer's budget and the time it has really lived through unpaused. */
  datatype Books = Books(budgets: seq<real>, unpaused: seq<real>)

  ghost predicate Balanced(c: Clocks, b: Books) {
    && |b.budgets| == |c.timers| && |b.unpaused| == |c.timers|
    && forall t :: 0 <= t < |c.timers| ==> Accounted(c.timers[t], b.budgets[t], b.unpaused[t], c.now)
  }

  /** An attached timer is alive and holds exactly one pause of its scope when that scope waits, none otherwise; any
      other timer is disposed. */
  ghost predicate Fits(t: TimerId, timer: Timer, p: Panel) {
    if t in p.timers then
      && !timer.disposed && !timer.didExpire
      && timer.open == (if p.timers[t].Some? then {p.timers[t].value} else {})
      && p.timers[t].Some? == p.waitingState
    else timer.disposed
  }

  ghost predicate Owns(c: Clocks, id: ScopeId)
    requires id < |c.panels| && |c.owners| == |c.timers|
  {
    forall t :: t in c.panels[id].timers ==> t < |c.timers| && c.owners[t] == id
  }

  ghost predicate Tidy(c: Clocks) {
    && |c.owners| == |c.timers|
    && (forall t :: 0 <= t < |c.timers| ==> c.owners[t] < |c.panels| && Fits(t, c.timers[t], c.panels[c.owners[t]]))
    && (forall id :: 0 <= id < |c.panels| ==> Owns(c, id))
    && (forall id, l :: 0 <= id < |c.panels| && l in c.panels[id].listeners ==>
          c.panels[id].listeners[l] == c.panels[id].waitingState)
  }

  /** Every scope but the busy ones has looked at its waits; a closed one has no timers. */
  ghost predicate UpToDate(w: World, busy: set<ScopeId>) {
    && |w.clocks.panels| == |w.graph.nodes|
    && (forall c, t :: 0 <= c < |w.graph.nodes| && t in w.clocks.panels[c].timers ==> !w.graph.nodes[c].closed)
    && forall c :: 0 <= c < |w.graph.nodes| && c !in busy ==> w.clocks.panels[c].waitingState == Waiting(w.graph, c)
  }

  // ---- One timer ----

  lemma PausedFits(t: TimerId, timer: Timer, p: Panel, now: real)
    requires Fits(t, timer, p) && t in p.timers && !p.waitingState
    ensures var n, token := Paused(timer, now), Pause(timer, now).1;
      if n.didExpire then n.disposed else !n.disposed && token.Some? && n.open == {token.value}
  {
  }

  lemma ResumedFits(t: TimerId, timer: Timer, p: Panel, now: real)
    requires Fits(t, timer, p) && t in p.timers && p.waitingState
    ensures var n := Resumed(timer, p.timers[t], now); !n.disposed && !n.didExpire && n.open == {}
  {
    assert timer.open - {p.timers[t].value} == {};
  }

  lemma SwitchedAccounted(timer: Timer, token: Option<nat>, waiting: bool, now: real, budget: real, unpaused: real)
    requires Accounted(timer, budget, unpaused, now)
    ensures Accounted(Switched(timer, token, waiting, now), budget, unpaused, now)
  {
    if waiting {
      OperationAccounted(timer, budget, unpaused, now, PauseNow);
      OperationAccounted(Pause(timer, now).0, budget, unpaused, now, DisposeNow);
    } else if token.Some? {
      OperationAccounted(timer, budget, unpaused, now, ReleaseNow(token.value));
    }
  }

  // ---- The timers of a scope ----

  lemma NotifyTidy(c: Clocks, id: ScopeId, waiting: bool)
    requires Tidy(c) && id < |c.panels|
    ensures var n := Notify(c, id, waiting);
      && Tidy(n) && n.panels[id].waitingState == waiting
      && forall o :: 0 <= o < |c.panels| && o != id ==> n.panels[o] == c.panels[o]
  {
    var n, p := Notify(c, id, waiting), c.panels[id];
    if waiting != p.waitingState {
      assert Owns(c, id);
      forall o | 0 <= o < |n.panels| ensures Owns(n, o) {
        assert Owns(c, o);
      }
      forall t | 0 <= t < |n.timers| ensures Fits(t, n.timers[t], n.panels[n.owners[t]]) {
        assert Fits(t, c.timers[t], c.panels[c.owners[t]]);
        if t in p.timers {
          if waiting {
            PausedFits(t, c.timers[t], p, c.now);
          } else {
            ResumedFits(t, c.timers[t], p, c.now);
          }
        }
      }
    }
  }

  lemma NotifyBalanced(c: Clocks, id: ScopeId, waiting: bool, b: Books)
    requires Balanced(c, b) && id < |c.panels|
    ensures Balanced(Notify(c, id, waiting), b)
  {
    var n, p := Notify(c, id, waiting), c.panels[id];
    if waiting != p.waitingState {
      forall t | 0 <= t < |n.timers| ensures Accounted(n.timers[t], b.budgets[t], b.unpaused[t], n.now) {
        if t in p.timers {
          SwitchedAccounted(c.timers[t], p.timers[t], waiting, c.now, b.budgets[t], b.unpaused[t]);
        }
      }
    }
  }

  ghost predicate Steady(c: Clocks, b: Books) {
    Tidy(c) && Balanced(c, b)
  }

  lemma UpdateSteady(w: World, id: ScopeId, busy: set<ScopeId>, b: Books)
    requires Shaped(w) && id < |w.graph.nodes| && Steady(w.clocks, b) && UpToDate(w, busy + {id})
    ensures Steady(UpdateWaiting(w, id).clocks, b) && UpToDate(UpdateWaiting(w, id), busy)
  {
    NotifyTidy(w.clocks, id, Waiting(w.graph, id));
    NotifyBalanced(w.clocks, id, Waiting(w.graph, id), b);
  }

  // ---- Waits ----

  lemma {:induction false} BeginSteady(w: World, id: ScopeId, busy: set<ScopeId>, b: Books)
    requires Shaped(w) && id < |w.graph.nodes| && Steady(w.clocks, b) && UpToDate(w, busy)
    ensures var n := BeginWait(w, id).0; Steady(n.clocks, b) && UpToDate(n, busy)
    decreases id
  {
    var node := w.graph.nodes[id];
    if !node.closed {
      var added := w.(graph := AddWait(w.graph, id));
      if node.parent.Some? {
        BeginSteady(added, node.parent.value, busy + {id}, b);
      }
      var (raised, link) := if node.parent.Some? then BeginWait(added, node.parent.value) else (added, None);
      UpdateSteady(raised.(graph := LinkWait(raised.graph, id, |w.graph.began|, link)), id, busy, b);
    }
  }

  lemma {:induction false} EndSteady(w: World, id: ScopeId, wait: WaitId, busy: set<ScopeId>, b: Books)
    requires Shaped(w) && id < |w.graph.nodes| && Steady(w.clocks, b) && UpToDate(w, busy)
    ensures var n := EndWait(w, id, wait); Steady(n.clocks, b) && UpToDate(n, busy)
    decreases id
  {
    var node := w.graph.nodes[id];
    if wait in node.waits {
      var removed := w.(graph := SetWaits(w.graph, id, node.waits - {wait}));
      var lowered := removed;
      if node.parent.Some? && node.waits[wait].Some? {
        EndSteady(removed, node.parent.value, node.waits[wait].value, busy + {id}, b);
        lowered := EndWait(removed, node.parent.value, node.waits[wait].value);
      }
      UpdateSteady(lowered, id, busy, b);
    }
  }

  lemma {:induction false} EndAllSteady(w: World, id: ScopeId, waits: seq<WaitId>, b: Books)
    requires Shaped(w) && id < |w.graph.nodes| && Steady(w.clocks, b) && UpToDate(w, {})
    ensures var n := EndAll(w, id, waits); Steady(n.clocks, b) && UpToDate(n, {})
    decreases |waits|
  {
    if waits != [] {
      EndSteady(w, id, waits[0], {}, b);
      EndAllSteady(EndWait(w, id, waits[0]), id, waits[1..], b);
    }
  }

  // ---- Closing, and single timers ----

  lemma DetachAllSteady(c: Clocks, id: ScopeId, b: Books)
    requires Steady(c, b) && id < |c.panels|
    ensures Steady(DetachAll(c, id), b)
  {
    var n := DetachAll(c, id);
    assert Owns(c, id);
    forall o | 0 <= o < |n.panels| ensures Owns(n, o) {
      assert Owns(c, o);
    }
    forall t | 0 <= t < |n.timers|
      ensures Fits(t, n.timers[t], n.panels[n.owners[t]])
      ensures Accounted(n.timers[t], b.budgets[t], b.unpaused[t], n.now)
    {
      assert Fits(t, c.timers[t], c.panels[c.owners[t]]);
      OperationAccounted(c.timers[t], b.budgets[t], b.unpaused[t], c.now, DisposeNow);
    }
  }

  lemma CloseSteady(w: World, id: ScopeId, b: Books)
    requires Shaped(w) && id < |w.graph.nodes| && Steady(w.clocks, b) && UpToDate(w, {})
    ensures Steady(Close(w, id).clocks, b) && UpToDate(Close(w, id), {})
  {
    if !w.graph.nodes[id].closed {
      DetachAllSteady(w.clocks, id, b);
      var closed, waits := World(SetClosed(w.graph, id), DetachAll(w.clocks, id)), Sorted(w.graph.nodes[id].waits.Keys);
      EndAllSteady(closed, id, waits, b);
      ForgetSteady(EndAll(closed, id, waits).clocks, id, b);
    }
  }

  lemma ForgetSteady(c: Clocks, id: ScopeId, b: Books)
    requires Steady(c, b) && id < |c.panels|
    ensures Steady(Forget(c, id), b)
  {
    var n := Forget(c, id);
    forall o | 0 <= o < |n.panels| ensures Owns(n, o) {
      assert Owns(c, o);
    }
    forall t | 0 <= t < |n.timers| ensures Fits(t, n.timers[t], n.panels[n.owners[t]]) {
      assert Fits(t, c.timers[t], c.panels[c.owners[t]]);
    }
  }

  lemma DetachSteady(c: Clocks, id: ScopeId, t: TimerId, b: Books)
    requires Steady(c, b) && id < |c.panels| && t < |c.timers| && c.owners[t] == id
    ensures Steady(Detach(c, id, t), b)
  {
    var n := Detach(c, id, t);
    OperationAccounted(c.timers[t], b.budgets[t], b.unpaused[t], c.now, DisposeNow);
    forall o | 0 <= o < |n.timers| ensures Fits(o, n.timers[o], n.panels[n.owners[o]]) {
      assert Fits(o, c.timers[o], c.panels[c.owners[o]]);
    }
    forall o | 0 <= o < |n.panels| ensures Owns(n, o) {
      assert Owns(c, o);
    }
  }

  lemma RingSteady(c: Clocks, id: ScopeId, t: TimerId, b: Books)
    requires Steady(c, b) && id < |c.panels| && t < |c.timers| && c.owners[t] == id && c.timers[t].due.Some?
    ensures Steady(Ring(c, id, t), b)
  {
    var n := Ring(c, id, t);
    var rung := GoOff(c.timers[t], c.now);
    OperationAccounted(c.timers[t], b.budgets[t], b.unpaused[t], c.now, GoOffNow);
    OperationAccounted(rung, b.budgets[t], b.unpaused[t], c.now, DisposeNow);
    forall o | 0 <= o < |n.timers| ensures Fits(o, n.timers[o], n.panels[n.owners[o]]) {
      assert Fits(o, c.timers[o], c.panels[c.owners[o]]);
    }
    forall o | 0 <= o < |n.panels| ensures Owns(n, o) {
      assert Owns(c, o);
    }
  }

  lemma RegisterSteady(w: World, id: ScopeId, milliseconds: real, b: Books)
    requires Shaped(w) && id < |w.graph.nodes| && Steady(w.clocks, b) && UpToDate(w, {}) && milliseconds >= 0.0
    requires !w.graph.nodes[id].closed
    ensures Steady(Register(w, id, milliseconds).clocks, Books(b.budgets + [milliseconds], b.unpaused + [0.0]))
    ensures UpToDate(Register(w, id, milliseconds), {})
  {
    var c, n, timer := w.clocks, Register(w, id, milliseconds).clocks, Create(milliseconds, w.clocks.now);
    assert Owns(c, id);
    CreateAccounted(milliseconds, c.now);
    SwitchedAccounted(timer, None, Waiting(w.graph, id), c.now, milliseconds, 0.0);
    forall t | 0 <= t < |n.timers| ensures Fits(t, n.timers[t], n.panels[n.owners[t]]) {
      if t < |c.timers| {
        assert Fits(t, c.timers[t], c.panels[c.owners[t]]);
      }
    }
    forall o | 0 <= o < |n.panels| ensures Owns(n, o) {
      assert Owns(c, o);
    }
  }

  // ---- Runs ----

  /** Nothing a caller could do is left out; `Ring` is the system timer of a timer going off, `Elapse` time passing. */
  datatype Action =
    | OpenScope(parent: Option<ScopeId>) | Begin(id: ScopeId) | End(id: ScopeId, wait: WaitId) | CloseScope(id: ScopeId)
    | SetTimeout(id: ScopeId, milliseconds: real) | DisposeTimeout(t: TimerId) | GoesOff(t: TimerId) | Elapse(span: real)
    | Listen(id: ScopeId, listener: ListenerId) | Unlisten(id: ScopeId, listener: ListenerId)

  datatype State = State(w: World, b: Books)

  /** A release belongs to a caller; a closed scope takes no timers. */
  ghost predicate Possible(s: State, a: Action) {
    var (n, c) := (|s.w.graph.nodes|, s.w.clocks);
    match a
    case OpenScope(parent) => parent.Some? ==> parent.value < n
    case Begin(id) => id < n
    case End(id, wait) => id < n && wait in s.w.graph.handed
    case CloseScope(id) => id < n
    case SetTimeout(id, milliseconds) => id < n && !s.w.graph.nodes[id].closed && milliseconds >= 0.0
    case DisposeTimeout(t) => t < |c.timers|
    case GoesOff(t) => t < |c.timers| && c.timers[t].due.Some?
    case Elapse(span) => span >= 0.0
    case Listen(id, listener) => id < n
    case Unlisten(id, listener) => id < n
  }

  function Elapsed(s: State, span: real): State {
    var c := s.w.clocks;
    State(s.w.(clocks := c.(now := c.now + span)),
          s.b.(unpaused := seq(|s.b.unpaused|, t requires 0 <= t < |s.b.unpaused| =>
                 if t < |c.timers| then Later(c.timers[t], s.b.unpaused[t], span) else 0.0)))
  }

  ghost predicate Sound(s: State) {
    Shaped(s.w) && Wired(s.w.graph, {}, {}, {}) && Steady(s.w.clocks, s.b) && UpToDate(s.w, {})
  }

  ghost function Next(s: State, a: Action): State
    requires Sound(s) && Possible(s, a)
  {
    var (w, c) := (s.w, s.w.clocks);
    match a
    case OpenScope(parent) => s.(w := Open(w, parent))
    case Begin(id) => s.(w := HandOut(w, id))
    case End(id, wait) => s.(w := EndWait(w, id, wait))
    case CloseScope(id) => s.(w := Close(w, id))
    case SetTimeout(id, ms) => State(Register(w, id, ms), Books(s.b.budgets + [ms], s.b.unpaused + [0.0]))
    case DisposeTimeout(t) => s.(w := w.(clocks := Detach(c, c.owners[t], t)))
    case GoesOff(t) => s.(w := w.(clocks := Ring(c, c.owners[t], t)))
    case Elapse(span) => Elapsed(s, span)
    case Listen(id, listener) => s.(w := Subscribe(w, id, listener))
    case Unlisten(id, listener) => s.(w := w.(clocks := Unsubscribe(c, id, listener)))
  }

  const START := State(World(Graph([], [], {}), Clocks([], [], [], 0.0)), Books([], []))

  lemma ElapsedSound(s: State, span: real)
    requires Sound(s) && span >= 0.0
    ensures Sound(Elapsed(s, span))
  {
    var c, n := s.w.clocks, Elapsed(s, span);
    forall o | 0 <= o < |c.panels| ensures Owns(n.w.clocks, o) {
      assert Owns(c, o);
    }
    forall t | 0 <= t < |c.timers|
      ensures Accounted(c.timers[t], s.b.budgets[t], n.b.unpaused[t], c.now + span) && Fits(t, c.timers[t], c.panels[c.owners[t]])
    {
      TimeAccounted(c.timers[t], s.b.budgets[t], s.b.unpaused[t], c.now, span);
    }
  }

  lemma OpenSound(s: State, parent: Option<ScopeId>)
    requires Sound(s) && Possible(s, OpenScope(parent))
    ensures Sound(s.(w := Open(s.w, parent)))
  {
    var c, n := s.w.clocks, Open(s.w, parent).clocks;
    OpenWired(s.w, parent);
    forall t | 0 <= t < |n.timers| ensures Fits(t, n.timers[t], n.panels[n.owners[t]]) {
      assert Fits(t, c.timers[t], c.panels[c.owners[t]]);
    }
    forall o | 0 <= o < |n.panels| ensures Owns(n, o) {
      assert o < |c.panels| ==> Owns(c, o);
    }
  }

  lemma ListenersTidy(c: Clocks, n: Clocks, id: ScopeId)
    requires Tidy(c) && id < |c.panels| && id < |n.panels| && n == c.(panels := c.panels[id := n.panels[id]])
    requires n.panels[id] == c.panels[id].(listeners := n.panels[id].listeners)
    requires forall l :: l in n.panels[id].listeners ==> n.panels[id].listeners[l] == c.panels[id].waitingState
    ensures Tidy(n)
  {
    forall t | 0 <= t < |c.timers| ensures Fits(t, n.timers[t], n.panels[n.owners[t]]) {
      assert Fits(t, c.timers[t], c.panels[c.owners[t]]);
    }
    forall o | 0 <= o < |n.panels| ensures Owns(n, o) {
      assert Owns(c, o);
    }
  }

  lemma SubscribeSound(s: State, id: ScopeId, listener: ListenerId)
    requires Sound(s) && id < |s.w.graph.nodes|
    ensures Sound(s.(w := Subscribe(s.w, id, listener)))
  {
    ListenersTidy(s.w.clocks, Subscribe(s.w, id, listener).clocks, id);
  }

  lemma UnsubscribeSound(s: State, id: ScopeId, listener: ListenerId)
    requires Sound(s) && id < |s.w.graph.nodes|
    ensures Sound(s.(w := s.w.(clocks := Unsubscribe(s.w.clocks, id, listener))))
  {
    ListenersTidy(s.w.clocks, Unsubscribe(s.w.clocks, id, listener), id);
  }

  /** The wait begun in a parent is not a caller's to release. */
  lemma HandedNotBelow(g: Graph, wait: WaitId)
    requires Wired(g, {}, {}, {}) && Below(g, wait)
    ensures wait !in g.handed
  {
    assert WellNumbered(g, g.began[wait - 1], wait - 1);
  }

  lemma EndSound(s: State, id: ScopeId, wait: WaitId)
    requires Sound(s) && Possible(s, End(id, wait))
    ensures Sound(s.(w := EndWait(s.w, id, wait)))
  {
    if Below(s.w.graph, wait) {
      HandedNotBelow(s.w.graph, wait);
    }
    EndWired(s.w, id, wait, {}, {});
    EndSteady(s.w, id, wait, {}, s.b);
  }

  lemma HandOutSound(s: State, id: ScopeId)
    requires Sound(s) && id < |s.w.graph.nodes|
    ensures Sound(s.(w := HandOut(s.w, id)))
  {
    HandOutWired(s.w, id);
    BeginSteady(s.w, id, {}, s.b);
  }

  lemma StepSound(s: State, a: Action)
    requires Sound(s) && Possible(s, a)
    ensures Sound(Next(s, a))
  {
    match a
    case OpenScope(parent) => OpenSound(s, parent);
    case Begin(id) => HandOutSound(s, id);
    case End(id, wait) => EndSound(s, id, wait);
    case CloseScope(id) =>
      CloseWired(s.w, id);
      CloseSteady(s.w, id, s.b);
    case SetTimeout(id, milliseconds) => RegisterSteady(s.w, id, milliseconds, s.b);
    case DisposeTimeout(t) => DetachSteady(s.w.clocks, s.w.clocks.owners[t], t, s.b);
    case GoesOff(t) => RingSteady(s.w.clocks, s.w.clocks.owners[t], t, s.b);
    case Elapse(span) => ElapsedSound(s, span);
    case Listen(id, listener) => SubscribeSound(s, id, listener);
    case Unlisten(id, listener) => UnsubscribeSound(s, id, listener);
  }

  ghost predicate Reaches(states: seq<State>, actions: seq<Action>, i: nat)
    requires i < |actions| && |states| == |actions| + 1
  {
    Sound(states[i]) && Possible(states[i], actions[i]) ==> states[i + 1] == Next(states[i], actions[i])
  }

  ghost predicate IsRun(states: seq<State>, actions: seq<Action>) {
    && |states| == |actions| + 1 && states[0] == START
    && forall i :: 0 <= i < |actions| ==> Possible(states[i], actions[i]) && Reaches(states, actions, i)
  }

  lemma StartSound()
    ensures Sound(START)
  {
  }

  lemma {:induction false} Always(states: seq<State>, actions: seq<Action>, i: nat)
    requires IsRun(states, actions) && i < |states|
    ensures Sound(states[i])
  {
    if i == 0 {
      StartSound();
    } else {
      Always(states, actions, i - 1);
      assert Possible(states[i - 1], actions[i - 1]) && Reaches(states, actions, i - 1);
      StepSound(states[i - 1], actions[i - 1]);
    }
  }

  /** Over every run of a tree of scopes: a callback runs at most once, and only when its timer has lived through
      its whole budget unpaused; an attached timer holds exactly one pause if its scope waits, none otherwise; a
      closed scope's timers are disposed. */
  lemma TimersFollowScopes(states: seq<State>, actions: seq<Action>, i: nat, t: TimerId)
    requires IsRun(states, actions) && i < |states| && t < |states[i].w.clocks.timers|
    ensures var (c, b) := (states[i].w.clocks, states[i].b);
      && t < |b.budgets| && t < |b.unpaused| && t < |c.owners| && c.owners[t] < |c.panels|
      && c.timers[t].fired <= 1 && (c.timers[t].fired == 1 ==> b.unpaused[t] >= b.budgets[t])
      && c.owners[t] < |states[i].w.graph.nodes|
      && (states[i].w.graph.nodes[c.owners[t]].closed ==> c.timers[t].disposed && c.timers[t].due.None?)
      && (t in c.panels[c.owners[t]].timers ==>
            |c.timers[t].open| == (if Waiting(states[i].w.graph, c.owners[t]) then 1 else 0))
  {
    Always(states, actions, i);
    var c, b := states[i].w.clocks, states[i].b;
    assert Fits(t, c.timers[t], c.panels[c.owners[t]]);
    assert Accounted(c.timers[t], b.budgets[t], b.unpaused[t], c.now);
  }

  /** An open child of an open parent waits. */
  ghost predicate WaitsBelowOpen(g: Graph, c: ScopeId)
    requires c < |g.nodes|
  {
    && Waiting(g, c) && !g.nodes[c].closed && g.nodes[c].parent.Some? && g.nodes[c].parent.value < |g.nodes|
    && !g.nodes[g.nodes[c].parent.value].closed
  }

  /** Over every run, a scope waits if and only if a caller holds back a wait at or below it through open scopes; an
      open parent waits whenever an open child does; every listener was told last what is true. */
  lemma WaitsFollowCallers(states: seq<State>, actions: seq<Action>, i: nat, p: ScopeId)
    requires IsRun(states, actions) && i < |states| && p < |states[i].w.graph.nodes|
    ensures var (g, c) := (states[i].w.graph, states[i].w.clocks);
      && p < |c.panels| && (Waiting(g, p) <==> exists c, x :: HoldsBack(g, c, p, x))
      && (forall l :: l in c.panels[p].listeners ==> c.panels[p].listeners[l] == Waiting(g, p))
      && (WaitsBelowOpen(g, p) ==> Waiting(g, g.nodes[p].parent.value))
  {
    Always(states, actions, i);
    var g := states[i].w.graph;
    WaitsIffHeldBack(g, p);
    if WaitsBelowOpen(g, p) {
      ParentWaits(g, p);
    }
  }
}
