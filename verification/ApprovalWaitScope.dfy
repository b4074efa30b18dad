/** The tree of approval wait scopes as an object. */
module ApprovalWaitScope {
  import opened Options
  import opened Uuids
  import opened PausableTimeout
  import opened ApprovalWaits

  datatype ScopeError = ScopeIsClosed | InvalidBudget

  ghost predicate Within(p: Panel, n: nat) {
    forall t :: t in p.timers ==> t < n
  }

  /** The state of a scope's timers while it goes through them: those in `done` are switched. */
  function HalfHeld(c: Clocks, p: Panel, waiting: bool, done: set<TimerId>): map<TimerId, Option<nat>> {
    map t | t in p.timers && (t in done ==> t in HeldTokens(c, p, waiting))
      :: if t in done then HeldTokens(c, p, waiting)[t] else p.timers[t]
  }

  function HalfSwitched(c: Clocks, p: Panel, waiting: bool, done: set<TimerId>): seq<Timer> {
    seq(|c.timers|, t requires 0 <= t < |c.timers| =>
      if t in p.timers && t in done then Switched(c.timers[t], p.timers[t], waiting, c.now) else c.timers[t])
  }

  function Halfway(c: Clocks, id: ScopeId, waiting: bool, done: set<TimerId>): Clocks
    requires id < |c.panels|
  {
    var p := c.panels[id];
    c.(timers := HalfSwitched(c, p, waiting, done),
       panels := c.panels[id := Panel(HalfHeld(c, p, waiting, done), p.listeners, waiting)])
  }

  /** Switches one timer; on waiting, one that expires leaves its scope. */
  function SwitchOne(c: Clocks, id: ScopeId, t: TimerId, waiting: bool, token: Option<nat>): Clocks
    requires id < |c.panels| && t < |c.timers|
  {
    var p, timer := c.panels[id], Switched(c.timers[t], token, waiting, c.now);
    c.(timers := c.timers[t := timer],
       panels := c.panels[id := p.(timers := if waiting && timer.didExpire then p.timers - {t}
                                             else p.timers[t := if waiting then Pause(c.timers[t], c.now).1 else None])])
  }

  class WaitScopes {
    var nodes: seq<Node>
    var began: seq<ScopeId>
    var handed: set<WaitId>
    var panels: seq<Panel>
    var timers: seq<Timer>
    var owners: seq<ScopeId>
    var now: real

    function State(): World
      reads this
    {
      World(Graph(nodes, began, handed), Clocks(panels, timers, owners, now))
    }

    ghost predicate Valid()
      reads this
    {
      Shaped(State()) && forall id :: 0 <= id < |panels| ==> Within(panels[id], |timers|)
    }

    constructor (start: real)
      ensures Valid() && State() == World(Graph([], [], {}), Clocks([], [], [], start))
    {
      nodes, began, handed, panels, timers, owners, now := [], [], {}, [], [], [], start;
    }

    method NewScope(parent: Option<ScopeId>) returns (id: ScopeId)
      requires Valid() && (parent.Some? ==> parent.value < |nodes|)
      modifies this`nodes, this`panels
      ensures Valid() && State() == Open(old(State()), parent) && id == |old(nodes)|
    {
      id := |nodes|;
      nodes, panels := nodes + [Node(parent, map[], false)], panels + [Panel(map[], map[], false)];
    }

    method BeginScopeWait(id: ScopeId) returns (wait: Option<WaitId>)
      requires Valid() && id < |nodes|
      modifies this`nodes, this`began, this`panels, this`timers
      ensures Valid() && (State(), wait) == BeginWait(old(State()), id)
      decreases id
    {
      if nodes[id].closed {
        return None;
      }
      wait := Some(|began|);
      nodes, began := nodes[id := nodes[id].(waits := nodes[id].waits[|began| := None])], began + [id];
      var link := None;
      if nodes[id].parent.Some? {
        link := BeginScopeWait(nodes[id].parent.value);
      }
      nodes := nodes[id := nodes[id].(waits := nodes[id].waits[wait.value := link])];
      UpdateScope(id);
    }

    method EndScopeWait(id: ScopeId, wait: WaitId)
      requires Valid() && id < |nodes|
      modifies this`nodes, this`panels, this`timers
      ensures Valid() && State() == EndWait(old(State()), id, wait)
      decreases id
    {
      if wait !in nodes[id].waits {
        return;
      }
      var link := nodes[id].waits[wait];
      nodes := nodes[id := nodes[id].(waits := nodes[id].waits - {wait})];
      if nodes[id].parent.Some? && link.Some? {
        EndScopeWait(nodes[id].parent.value, link.value);
      }
      UpdateScope(id);
    }

    method UpdateScope(id: ScopeId)
      requires Valid() && id < |nodes|
      modifies this`panels, this`timers
      ensures Valid() && State() == UpdateWaiting(old(State()), id)
    {
      var waiting, p := nodes[id].waits != map[], panels[id];
      if waiting == p.waitingState {
        return;
      }
      ghost var c := State().clocks;
      panels := panels[id := p.(waitingState := waiting)];
      var done := {};
      NoneDone(c, id, waiting);
      assert Within(p, |timers|);
      while p.timers.Keys - done != {}
        invariant done <= p.timers.Keys
        invariant Clocks(panels, timers, owners, now) == Halfway(c, id, waiting, done)
        decreases p.timers.Keys - done
      {
        var t :| t in p.timers.Keys - done;
        OneDone(c, id, waiting, done, t);
        if waiting {
          PauseTimer(id, t);
        } else {
          panels := panels[id := panels[id].(timers := panels[id].timers[t := None])];
          timers := timers[t := Resumed(timers[t], p.timers[t], now)];
        }
        done := done + {t};
      }
      NothingLeft(p.timers.Keys, done);
      AllDone(c, id, waiting);
      TellListeners(id, waiting);
    }

    /** A timer that expires on being paused leaves its scope; any other keeps the pause. */
    method PauseTimer(id: ScopeId, t: TimerId)
      requires id < |panels| && t < |timers|
      modifies this`panels, this`timers
      ensures Clocks(panels, timers, owners, now) == SwitchOne(old(Clocks(panels, timers, owners, now)), id, t, true, None)
    {
      var (n, token) := Pause(timers[t], now);
      timers := timers[t := n];
      if n.didExpire {
        DetachTimer(id, t);
      } else {
        panels := panels[id := panels[id].(timers := panels[id].timers[t := token])];
      }
    }

    method DetachTimer(id: ScopeId, t: TimerId)
      requires id < |panels| && t < |timers|
      modifies this`panels, this`timers
      ensures State() == old(State()).(clocks := Detach(old(State()).clocks, id, t))
      ensures old(Valid()) ==> Valid()
    {
      panels := panels[id := panels[id].(timers := panels[id].timers - {t})];
      timers := timers[t := Dispose(timers[t])];
    }

    method TellListeners(id: ScopeId, waiting: bool)
      requires id < |panels|
      modifies this`panels
      ensures panels == old(panels)[id := old(panels[id]).(listeners := Told(old(panels[id]).listeners, waiting))]
    {
      var p := panels[id];
      var told := map[];
      while p.listeners.Keys - told.Keys != {}
        invariant told.Keys <= p.listeners.Keys && forall l :: l in told ==> told[l] == waiting
        decreases p.listeners.Keys - told.Keys
      {
        var listener :| listener in p.listeners.Keys - told.Keys;
        told := told[listener := waiting];
      }
      NothingLeft(p.listeners.Keys, told.Keys);
      assert told == Told(p.listeners, waiting);
      panels := panels[id := p.(listeners := told)];
    }

    // ---- What callers do ----

    /** The release given to the caller is `EndScopeWait` of this wait; a closed scope's does nothing. */
    method BeginWaiting(id: ScopeId) returns (wait: Option<WaitId>)
      requires Valid() && id < |nodes|
      modifies this`nodes, this`began, this`panels, this`timers, this`handed
      ensures Valid() && State() == HandOut(old(State()), id)
    {
      wait := BeginScopeWait(id);
      if wait.Some? {
        handed := handed + {wait.value};
      }
    }

    method RegisterTimeout(id: ScopeId, milliseconds: Option<real>) returns (r: Result<TimerId, ScopeError>)
      requires Valid() && id < |nodes|
      modifies this`timers, this`owners, this`panels
      ensures Valid()
      ensures r.Failure? <==> nodes[id].closed || milliseconds.None? || milliseconds.value < 0.0
      ensures r.Failure? ==> State() == old(State()) && (r.error == ScopeIsClosed <==> nodes[id].closed)
      ensures r.Success? ==> State() == Register(old(State()), id, milliseconds.value) && r.value == |old(timers)|
    {
      if nodes[id].closed {
        return Failure(ScopeIsClosed);
      }
      if milliseconds.None? || milliseconds.value < 0.0 {
        return Failure(ScopeError.InvalidBudget);
      }
      var t := |timers|;
      timers, owners := timers + [Create(milliseconds.value, now)], owners + [id];
      panels := panels[id := panels[id].(timers := panels[id].timers[t := None])];
      assert Within(old(panels[id]), t);
      if nodes[id].waits != map[] {
        PauseTimer(id, t);
        Replaced(old(panels[id]).timers, t, Pause(Create(milliseconds.value, now), now).1);
      }
      assert panels == Register(old(State()), id, milliseconds.value).clocks.panels;
      return Success(t);
    }

    method CloseTheScope(id: ScopeId)
      requires Valid() && id < |nodes|
      modifies this`nodes, this`panels, this`timers
      ensures Valid() && State() == Close(old(State()), id)
    {
      if nodes[id].closed {
        return;
      }
      var waits := Sorted(nodes[id].waits.Keys);
      nodes := nodes[id := nodes[id].(closed := true)];
      DetachTimers(id);
      ghost var closed := State();
      assert waits[0..] == waits;
      for i := 0 to |waits|
        invariant Valid() && id < |nodes|
        invariant EndAll(State(), id, waits[i..]) == EndAll(closed, id, waits)
      {
        assert waits[i..][0] == waits[i] && waits[i..][1..] == waits[i + 1..];
        EndScopeWait(id, waits[i]);
      }
      panels := panels[id := panels[id].(listeners := map[])];
    }

    method DetachTimers(id: ScopeId)
      requires Valid() && id < |panels|
      modifies this`panels, this`timers
      ensures Valid() && State() == old(State()).(clocks := DetachAll(old(State()).clocks, id))
    {
      ghost var c := State().clocks;
      while panels[id].timers != map[]
        invariant Valid() && id < |panels| && nodes == old(nodes)
        invariant DetachAll(Clocks(panels, timers, owners, now), id) == DetachAll(c, id)
        decreases panels[id].timers.Keys
      {
        var t :| t in panels[id].timers;
        assert Within(panels[id], |timers|);
        DetachedOne(Clocks(panels, timers, owners, now), id, t);
        DetachTimer(id, t);
      }
      DetachedNone(Clocks(panels, timers, owners, now), id);
    }

    method RingTimer(t: TimerId)
      requires Valid() && t < |timers| && t < |owners| && owners[t] < |panels|
      modifies this`panels, this`timers
      ensures Valid() && State() == old(State()).(clocks := Ring(old(State()).clocks, owners[t], t))
    {
      timers := timers[t := GoOff(timers[t], now)];
      if timers[t].didExpire {
        DetachTimer(owners[t], t);
      }
    }

    /** Tells the listener at once what is true, and keeps it unless the scope is closed. */
    method AddListener(id: ScopeId, listener: ListenerId) returns (told: bool)
      requires Valid() && id < |nodes|
      modifies this`panels
      ensures Valid() && State() == Subscribe(old(State()), id, listener)
      ensures told == (!nodes[id].closed && Waiting(State().graph, id))
    {
      if nodes[id].closed {
        return false;
      }
      told := nodes[id].waits != map[];
      panels := panels[id := panels[id].(listeners := panels[id].listeners[listener := told])];
    }

    method RemoveListener(id: ScopeId, listener: ListenerId)
      requires Valid() && id < |panels|
      modifies this`panels
      ensures Valid() && State() == old(State()).(clocks := Unsubscribe(old(State()).clocks, id, listener))
    {
      panels := panels[id := panels[id].(listeners := panels[id].listeners - {listener})];
    }
  }

  lemma NothingLeft(all: set<nat>, done: set<nat>)
    requires all - done == {} && done <= all
    ensures all == done
  {
    assert all == done + (all - done);
  }

  lemma Replaced(m: map<TimerId, Option<nat>>, t: TimerId, token: Option<nat>)
    requires t !in m
    ensures m[t := None] - {t} == m && m[t := None][t := token] == m[t := token]
  {
  }

  lemma NoneDone(c: Clocks, id: ScopeId, waiting: bool)
    requires id < |c.panels|
    ensures Halfway(c, id, waiting, {}) == c.(panels := c.panels[id := c.panels[id].(waitingState := waiting)])
  {
    var p := c.panels[id];
    assert HalfSwitched(c, p, waiting, {}) == c.timers;
    assert HalfHeld(c, p, waiting, {}) == p.timers;
  }

  lemma OneSwitched(c: Clocks, p: Panel, waiting: bool, done: set<TimerId>, t: TimerId)
    requires t in p.timers && t !in done && t < |c.timers|
    ensures HalfSwitched(c, p, waiting, done)[t] == c.timers[t]
    ensures HalfSwitched(c, p, waiting, done + {t})
      == HalfSwitched(c, p, waiting, done)[t := Switched(c.timers[t], p.timers[t], waiting, c.now)]
  {
  }

  lemma OneHeld(c: Clocks, p: Panel, waiting: bool, done: set<TimerId>, t: TimerId)
    requires t in p.timers && t !in done && t < |c.timers|
    ensures HalfHeld(c, p, waiting, done + {t})
      == (if waiting && Paused(c.timers[t], c.now).didExpire then HalfHeld(c, p, waiting, done) - {t}
          else HalfHeld(c, p, waiting, done)[t := if waiting then Pause(c.timers[t], c.now).1 else None])
  {
  }

  lemma OneDone(c: Clocks, id: ScopeId, waiting: bool, done: set<TimerId>, t: TimerId)
    requires id < |c.panels| && t in c.panels[id].timers && t !in done && t < |c.timers|
    ensures Halfway(c, id, waiting, done + {t})
      == SwitchOne(Halfway(c, id, waiting, done), id, t, waiting, c.panels[id].timers[t])
  {
    OneSwitched(c, c.panels[id], waiting, done, t);
    OneHeld(c, c.panels[id], waiting, done, t);
  }

  lemma AllDone(c: Clocks, id: ScopeId, waiting: bool)
    requires id < |c.panels| && waiting != c.panels[id].waitingState
    ensures var (n, h) := (Notify(c, id, waiting), Halfway(c, id, waiting, c.panels[id].timers.Keys));
      n == h.(panels := h.panels[id := h.panels[id].(listeners := Told(h.panels[id].listeners, waiting))])
  {
    var p := c.panels[id];
    assert HalfHeld(c, p, waiting, p.timers.Keys) == HeldTokens(c, p, waiting);
    assert HalfSwitched(c, p, waiting, p.timers.Keys) == Notify(c, id, waiting).timers;
  }

  lemma DetachedOne(c: Clocks, id: ScopeId, t: TimerId)
    requires id < |c.panels| && t < |c.timers| && t in c.panels[id].timers
    ensures DetachAll(Detach(c, id, t), id) == DetachAll(c, id)
  {
    assert DetachAll(Detach(c, id, t), id).timers == DetachAll(c, id).timers;
  }

  lemma DetachedNone(c: Clocks, id: ScopeId)
    requires id < |c.panels| && c.panels[id].timers == map[]
    ensures DetachAll(c, id) == c
  {
    assert DetachAll(c, id).timers == c.timers;
  }
}
