/** The machine the processes share: its files and process table, and the run they have produced. */
module ArchiveHost {
  import opened Options
  import opened Uuids
  import opened Handoff
  import opened HandoffSafety

  datatype Trace = Trace(states: seq<State>, actions: seq<Action>)

  /** A run of the protocol. */
  type Run = t: Trace | IsRun(t.states, t.actions) witness Trace([Fresh()], [])

  function Fresh(): (s: State)
    ensures Init(s)
  {
    State(Files(map[], NoControl, map[]), None, NoEdit, None, map[], 1, History({}, [], {}, {}, false, {}, None))
  }

  ghost function Longer(run: Run, a: Action): (longer: Run)
    requires Enabled(Last(run), a)
    ensures Last(longer) == Next(Last(run), a)
    ensures run.actions <= longer.actions && longer.states[0] == run.states[0]
  {
    var states, actions := run.states + [Next(Last(run), a)], run.actions + [a];
    assert forall i :: 0 <= i < |run.actions| ==> StepAt(run.states, run.actions, i) ==> StepAt(states, actions, i);
    Trace(states, actions)
  }

  ghost function Last(run: Run): (s: State)
    ensures s in run.states
  {
    run.states[|run.states| - 1]
  }

  class Host {
    var state: State

    // What the other processes do at successive points of one process's execution.
    var script: seq<seq<Action>>

    // What the journal, the inbox lock and the engine answer to successive questions.
    var answers: seq<bool>

    ghost var run: Run

    ghost predicate Valid()
      reads this
    {
      Last(run) == state
    }

    constructor (s: State, script: seq<seq<Action>>, answers: seq<bool>)
      requires Init(s)
      ensures Valid() && state == s && this.script == script && this.answers == answers
    {
      this.state, this.script, this.answers := s, script, answers;
      this.run := Trace([s], []);
    }

    /** The run so far is extended, never rewritten. */
    twostate predicate Extended()
      reads this
    {
      old(run.actions) <= run.actions && run.states[0] == old(run.states[0])
    }

    /** The code has just done to the files and locks what the step `a` does; the process table follows. */
    method Arrive(before: State, a: Action)
      requires Last(run) == before && Enabled(before, a)
      requires Next(before, a).files == state.files && Next(before, a).lock == state.lock
      requires Next(before, a).stored == state.stored
      modifies this`state, this`run
      ensures Valid() && Extended()
      ensures state == Next(before, a)
    {
      state := Next(before, a);
      run := Longer(run, a);
    }

    /** How much the other processes can still do: their script, the answers, and an unfinished change. */
    ghost function Energy(): nat
      reads this
    {
      2 * |script| + |answers| + if InboxFree(state) then 0 else 1
    }

    method Answer() returns (answer: bool)
      modifies this`answers
      ensures if old(answers) == [] then answers == [] && !answer else answers == old(answers[1..]) && answer == old(answers[0])
      ensures old(answers) != [] ==> Energy() < old(Energy())
    {
      if answers == [] {
        answer := false;
      } else {
        answer := answers[0];
        answers := answers[1..];
      }
    }

    /** One step of another process, if it is possible. */
    method Other(pid: Pid, a: Action)
      requires Valid() && pid in state.workers
      modifies this`state, this`run
      ensures Valid() && Extended()
      ensures pid in state.workers && state.workers[pid] == old(state.workers[pid])
      ensures old(state.lock) == Some(pid) <==> state.lock == Some(pid)
    {
      if Enabled(state, a) && !((a.Act? || a.Crash?) && a.pid == pid) {
        var before := state;
        Always(run.states, run.actions, |run.actions|);
        OneOwnerKept(state, a);
        state := Next(state, a);
        Arrive(before, a);
      }
    }

    /** The other processes run for a while, or, when their script is over, at most finish a configuration
        change whose event is out: a process does not keep the inbox lock for ever. */
    method Interfere(pid: Pid)
      requires Valid() && pid in state.workers
      modifies this`state, this`script, this`run
      ensures Valid() && Extended() && answers == old(answers)
      ensures pid in state.workers && state.workers[pid] == old(state.workers[pid])
      ensures old(state.lock) == Some(pid) <==> state.lock == Some(pid)
      ensures Energy() <= old(Energy())
      ensures old(Energy()) > |answers| ==> Energy() < old(Energy())
      ensures old(Energy()) == |answers| ==> state == old(state)
    {
      if script == [] {
        if state.edit.Announced? {
          Arrive(state, Abandon);
        }
      } else {
        var turn := script[0];
        script := script[1..];
        for i := 0 to |turn|
          invariant Valid() && Extended() && |script| < |old(script)| && answers == old(answers)
          invariant pid in state.workers && state.workers[pid] == old(state.workers[pid])
          invariant old(state.lock) == Some(pid) <==> state.lock == Some(pid)
        {
          Other(pid, turn[i]);
        }
      }
    }
  }
}
