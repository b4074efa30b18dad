/** What every interleaving of the hand-off keeps, and what it means once the system comes to rest. */
module HandoffSafety {
  import opened Options
  import opened Uuids
  import opened Handoff

  // ---- One owner ----

  ghost predicate OneOwner(s: State) {
    && (s.lock.Some? ==> s.lock.value in s.workers && Owning(s.workers[s.lock.value].phase))
    && (forall p :: p in s.workers && Owning(s.workers[p].phase) ==> s.lock == Some(p))
  }

  lemma OneOwnerKept(s: State, a: Action)
    requires OneOwner(s) && Enabled(s, a)
    ensures OneOwner(Next(s, a))
  {
  }

  // ---- Admission ----

  /** A descriptor is admitted if it is there already or there is room for it; a different or unreadable one under its
      identifier is left alone. */
  lemma AdmitMeaning(entries: map<Uuid, Slot>, m: Manifest)
    ensures var r := Admit(entries, m);
      if m.id !in entries then
        if |entries| < 1024 then r == Success(entries[m.id := Descriptor(m)]) else r == Failure(Full)
      else if entries[m.id] == Descriptor(m) then r == Success(entries)
      else r == Failure(if entries[m.id].Descriptor? && entries[m.id].manifest.id == m.id then Collision else Invalid)
  {
  }

  // ---- Custody of descriptors ----

  ghost predicate Safe(s: State, m: Manifest) {
    || (m.id in s.files.entries && s.files.entries[m.id] == Descriptor(m))
    || (m.id in s.files.scopes && s.files.scopes[m.id] == m)
  }

  ghost predicate Custody(s: State) {
    forall m :: m in s.past.published ==> Safe(s, m)
  }

  ghost predicate Removable(s: State, id: Uuid) {
    id in s.files.entries && id in s.files.scopes && s.files.entries[id] == Descriptor(s.files.scopes[id])
  }

  /** A worker that is about to acknowledge has committed the very descriptor it will remove. */
  ghost predicate CommittedFirst(s: State) {
    forall p :: p in s.workers && s.workers[p].phase.Acknowledging? ==> Removable(s, s.workers[p].phase.id)
  }

  lemma SafeKept(s: State, a: Action, m: Manifest)
    requires OneOwner(s) && CommittedFirst(s) && Safe(s, m) && Enabled(s, a)
    ensures Safe(Next(s, a), m)
  {
    if a.Act? && s.workers[a.pid].phase.Acknowledging? {
      assert Removable(s, s.workers[a.pid].phase.id);
    }
  }

  lemma CustodyKept(s: State, a: Action)
    requires OneOwner(s) && CommittedFirst(s) && Custody(s) && Enabled(s, a)
    ensures Custody(Next(s, a))
  {
    forall m | m in Next(s, a).past.published ensures Safe(Next(s, a), m) {
      if m in s.past.published {
        SafeKept(s, a, m);
      } else {
        assert a == Publish(m);
      }
    }
  }

  lemma CommittedFirstKept(s: State, a: Action)
    requires OneOwner(s) && CommittedFirst(s) && Enabled(s, a)
    ensures CommittedFirst(Next(s, a))
  {
    var n := Next(s, a);
    forall p | p in n.workers && n.workers[p].phase.Acknowledging? ensures Removable(n, n.workers[p].phase.id) {
      if a.Act? && a.pid == p {
        assert s.workers[p].phase.Importing?;
      } else {
        assert Removable(s, s.workers[p].phase.id);
      }
    }
  }

  // ---- Control events ----

  ghost predicate Newest(s: State, token: Uuid) {
    |s.past.issued| > 0 && token == s.past.issued[|s.past.issued| - 1]
  }

  /** The newest event is in the inbox until a worker that read it acknowledges it, and it cannot be
      acknowledged while its configuration change is still uncommitted. */
  ghost predicate Events(s: State) {
    && (forall t :: t in s.past.acknowledged || t in s.past.wakes ==> t in s.past.issued)
    && (s.files.control.Event? ==> Newest(s, s.files.control.token) && s.files.control.token !in s.past.acknowledged)
    && (!s.files.control.Event? && |s.past.issued| > 0 ==> s.past.issued[|s.past.issued| - 1] in s.past.acknowledged)
    && (s.edit.Announced? ==> s.files.control == Event(s.edit.token))
  }

  lemma EventsKept(s: State, a: Action)
    requires Events(s) && Enabled(s, a)
    ensures Events(Next(s, a))
  {
  }

  /** A login migration still holds the configuration it is about to store, so it overwrites no newer
      one and brings no removed one back. */
  ghost predicate MigrationCurrent(s: State) {
    !s.edit.NoEdit? && s.edit.change.Migrate? ==> s.stored == Some(Stored(s.edit.change.config, None))
  }

  lemma MigrationCurrentKept(s: State, a: Action)
    requires MigrationCurrent(s) && Enabled(s, a)
    ensures MigrationCurrent(Next(s, a))
  {
  }

  // ---- Wakeups ----

  ghost predicate At(s: State, p: Pid) {
    s.past.final.Some? && s.past.final.value.pid == p && p in s.workers
  }

  /** What the last owner will compare is what its final pass recorded. */
  ghost predicate FinalPass(s: State) {
    forall p :: p in s.workers && Released(s.workers[p].phase) ==> Recorded(s, s.workers[p], p)
  }

  ghost predicate Recorded(s: State, w: Worker, p: Pid) {
    At(s, p) ==> s.past.final.value.retained == w.retained && s.past.final.value.generation == w.generation
  }

  /** A worker that is certain to look at the whole inbox again, or to meet an owner that is. */
  ghost predicate Driving(s: State, p: Pid) {
    && p in s.workers
    && (|| s.workers[p].phase.Contending?
        || Owning(s.workers[p].phase)
        || s.workers[p].phase == InspectingEngine(true)
        || (At(s, p) && s.workers[p].phase.InspectingIds?))
  }

  ghost predicate Active(s: State) {
    s.owed > 0 || exists p :: Driving(s, p)
  }

  /** Nothing pending escaped the last owner, up to the comparisons it has still to make. */
  ghost predicate Answered(s: State) {
    && s.past.final.Some?
    && Ids(s.files.entries) == s.past.final.value.retained
    && (s.files.control.Event? && s.files.control.token in s.past.wakes ==> StillInspecting(s, false))
    && (!s.files.control.Event? ==> StillInspecting(s, true) || Generation(s.stored) == s.past.final.value.generation)
  }

  ghost predicate StillInspecting(s: State, generation: bool) {
    s.past.final.Some? && At(s, s.past.final.value.pid) &&
    var phase := s.workers[s.past.final.value.pid].phase;
    phase.InspectingControl? || (generation && phase.InspectingGeneration?)
  }

  ghost predicate Wakeful(s: State) {
    s.past.troubled || Active(s) || Answered(s)
  }

  lemma FinalPassKept(s: State, a: Action)
    requires OneOwner(s) && FinalPass(s) && Enabled(s, a)
    ensures FinalPass(Next(s, a))
  {
    var n := Next(s, a);
    forall p | p in n.workers && Released(n.workers[p].phase) ensures Recorded(n, n.workers[p], p) {
      if a.Act? && a.pid == p && Owning(s.workers[p].phase) {
        assert s.workers[p].phase.Releasing?;
      } else {
        assert p in s.workers && Recorded(s, s.workers[p], p);
      }
    }
  }

  lemma ActiveKept(s: State, a: Action)
    requires OneOwner(s) && FinalPass(s) && Active(s) && Enabled(s, a) && !Next(s, a).past.troubled
    ensures Active(Next(s, a)) || Answered(Next(s, a))
  {
    var n := Next(s, a);
    if a.Launch? {
      assert Driving(n, a.pid);
    } else if s.owed == 0 {
      var p :| Driving(s, p);
      if a.Act? {
        DriverKept(s, a, p);
      } else {
        assert n.owed > 0 || Driving(n, p);
      }
    }
  }

  lemma DriverKept(s: State, a: Action, p: Pid)
    requires OneOwner(s) && FinalPass(s) && Driving(s, p) && Enabled(s, a) && a.Act?
    ensures Active(Next(s, a)) || Answered(Next(s, a))
  {
    var n := Next(s, a);
    if s.workers[a.pid].phase.Releasing? || (s.workers[a.pid].phase.Contending? && s.lock.None?) {
      assert Driving(n, a.pid);
    } else if a.pid != p {
      assert Driving(n, p);
    } else if s.workers[p].phase.Contending? && s.lock.Some? {
      assert Driving(n, s.lock.value);
    } else if s.workers[p].phase.InspectingIds? && Ids(s.files.entries) == s.workers[p].retained {
      assert StillInspecting(n, true) && StillInspecting(n, false);
    } else {
      assert Driving(n, p);
    }
  }

  lemma AnsweredKept(s: State, a: Action)
    requires Events(s) && FinalPass(s) && Answered(s) && !Active(s) && Enabled(s, a)
    requires !a.LaunchFails? && !a.Crash?
    ensures Active(Next(s, a)) || Answered(Next(s, a))
  {
    var n := Next(s, a);
    if a.Launch? {
      assert Driving(n, a.pid);
    } else if a.Act? {
      assert !Driving(s, a.pid);
      assert n.files == s.files && n.stored == s.stored && n.past == s.past;
      assert a.pid in n.workers && !StillInspecting(n, true) && StillInspecting(s, true)
        ==> Driving(n, a.pid) || s.workers[a.pid].phase.InspectingGeneration?;
      assert StillInspecting(s, false) && !StillInspecting(n, false)
        ==> Driving(n, a.pid) || Seen(s.files.control).None?;
    }
  }

  lemma WakefulKept(s: State, a: Action)
    requires OneOwner(s) && Events(s) && FinalPass(s) && Wakeful(s) && Enabled(s, a)
    ensures Wakeful(Next(s, a))
  {
    if a.Launch? {
      assert Driving(Next(s, a), a.pid);
    } else if !Next(s, a).past.troubled {
      if Active(s) {
        ActiveKept(s, a);
      } else {
        AnsweredKept(s, a);
      }
    }
  }

  // ---- Reasons ----

  /** A descriptor that can never be imported: damaged, under a name that is not its own, or in conflict with a
      committed manifest. */
  ghost predicate Evidence(files: Files, id: Uuid)
    requires id in files.entries
  {
    || files.entries[id].Damaged? || files.entries[id].manifest.id != id
    || (id in files.scopes && files.scopes[id] != files.entries[id].manifest)
  }

  /** All of these are in the inbox as evidence, or the journal was full for them. */
  ghost predicate Justified(files: Files, retained: seq<Uuid>, full: set<Uuid>) {
    forall id :: id in retained ==> id in files.entries && (Evidence(files, id) || id in full)
  }

  /** What a pass has still to handle. */
  function Queue(phase: Phase): seq<Uuid> {
    match phase
    case Importing(rest) => rest
    case Acknowledging(id, rest) => [id] + rest
    case _ => []
  }

  predicate Passing(phase: Phase) {
    phase.Importing? || phase.Acknowledging? || phase.Stepping? || phase.AcknowledgingControl? || phase.Releasing?
  }

  /** A pass under way handles no descriptor twice, and has kept what it kept for a reason; so has the last one. */
  ghost predicate Reasons(s: State) {
    && (s.lock.Some? && s.lock.value in s.workers && Passing(s.workers[s.lock.value].phase) ==>
          PassReasons(s, s.workers[s.lock.value]))
    && (s.past.final.Some? ==>
          && s.lock.None? && s.past.final.value.full == s.past.full
          && Justified(s.files, s.past.final.value.retained, s.past.full))
  }

  ghost predicate PassReasons(s: State, w: Worker) {
    Increasing(w.retained + Queue(w.phase)) && Justified(s.files, w.retained, s.past.full)
  }

  lemma ReasonsKept(s: State, a: Action)
    requires OneOwner(s) && Reasons(s) && Enabled(s, a)
    ensures Reasons(Next(s, a))
  {
    if a.Act? && Owning(s.workers[a.pid].phase) {
      PassReasonsKept(s, a.pid, a.flag);
    }
  }

  /** An access of the owner handles the head of its queue, if it handles any. */
  lemma PassReasonsKept(s: State, p: Pid, flag: bool)
    requires OneOwner(s) && Reasons(s) && p in s.workers && Owning(s.workers[p].phase)
    ensures var n := Own(s, p, flag); Passing(n.workers[p].phase) ==> PassReasons(n, n.workers[p])
    ensures s.workers[p].phase.Releasing? ==> Justified(s.files, s.workers[p].retained, s.past.full)
  {
    if s.workers[p].phase.Importing? && s.workers[p].phase.rest != [] {
      ImportReasons(s, p, flag);
    } else if s.workers[p].phase.Acknowledging? {
      AcknowledgeReasons(s, p, flag);
    }
  }

  lemma ImportReasons(s: State, p: Pid, flag: bool)
    requires p in s.workers && s.workers[p].phase.Importing? && s.workers[p].phase.rest != [] && PassReasons(s, s.workers[p])
    ensures var n := Own(s, p, flag); PassReasons(n, n.workers[p])
  {
    var (w, n) := (s.workers[p], Own(s, p, flag));
    var rest := w.phase.rest;
    HeadMoves(w.retained, rest);
    assert Increasing(n.workers[p].retained + Queue(n.workers[p].phase));
  }

  lemma AcknowledgeReasons(s: State, p: Pid, flag: bool)
    requires p in s.workers && s.workers[p].phase.Acknowledging? && PassReasons(s, s.workers[p])
    ensures var n := Own(s, p, flag); PassReasons(n, n.workers[p])
  {
    var (w, n) := (s.workers[p], Own(s, p, flag));
    WithoutNext(w.retained, Queue(w.phase));
    Apart(w.retained, Queue(w.phase));
    assert Queue(n.workers[p].phase) == Queue(w.phase)[1..];
  }

  /** The three ways in which the head of the queue is handled. */
  lemma HeadMoves(kept: seq<Uuid>, rest: seq<Uuid>)
    requires rest != [] && Increasing(kept + rest)
    ensures Increasing(kept + [rest[0]] + rest[1..])
    ensures Increasing(kept + ([rest[0]] + rest[1..]))
    ensures Increasing(kept + rest[1..])
  {
    assert kept + [rest[0]] + rest[1..] == kept + rest;
    assert [rest[0]] + rest[1..] == rest;
    WithoutNext(kept, rest);
  }

  lemma Apart(kept: seq<Uuid>, rest: seq<Uuid>)
    requires rest != [] && Increasing(kept + rest)
    ensures forall id :: id in kept ==> id < rest[0]
  {
    forall id | id in kept ensures id < rest[0] {
      var i :| 0 <= i < |kept| && kept[i] == id;
      assert (kept + rest)[i] < (kept + rest)[|kept|];
    }
  }

  // ---- Every run ----

  ghost predicate Invariant(s: State) {
    OneOwner(s) && CommittedFirst(s) && Custody(s) && Events(s) && MigrationCurrent(s) && FinalPass(s) && Wakeful(s)
    && Reasons(s)
  }

  lemma InvariantKept(s: State, a: Action)
    requires Invariant(s) && Enabled(s, a)
    ensures Invariant(Next(s, a))
  {
    OneOwnerKept(s, a);
    CommittedFirstKept(s, a);
    CustodyKept(s, a);
    EventsKept(s, a);
    MigrationCurrentKept(s, a);
    FinalPassKept(s, a);
    WakefulKept(s, a);
    ReasonsKept(s, a);
  }

  lemma {:induction false} Always(states: seq<State>, actions: seq<Action>, i: nat)
    requires IsRun(states, actions) && i < |states|
    ensures Invariant(states[i])
  {
    if i > 0 {
      Always(states, actions, i - 1);
      assert StepAt(states, actions, i - 1);
      InvariantKept(states[i - 1], actions[i - 1]);
    }
  }

  /** No worker exists, none is about to be launched, and since the most recent launch no worker died and
      no launch failed. */
  ghost predicate AtRest(s: State) {
    s.workers == map[] && s.owed == 0 && !s.past.troubled
  }

  /** No lost wakeup: at rest, the descriptors left are exactly those the last owner examined and kept in
      its final pass. A control event is left only if its writer never asked for a launch; if none is left,
      the configuration is still the one that final pass began under. */
  lemma NoLostWakeup(states: seq<State>, actions: seq<Action>, i: nat)
    requires IsRun(states, actions) && i < |states| && AtRest(states[i])
    ensures var s := states[i];
      && s.past.final.Some?
      && Ids(s.files.entries) == s.past.final.value.retained
      && (s.files.control.Event? ==> s.files.control.token !in s.past.wakes)
      && (!s.files.control.Event? ==> Generation(s.stored) == s.past.final.value.generation)
  {
    Always(states, actions, i);
  }

  /** A worker asked the engine for this descriptor, and the answer was that the journal is full. */
  ghost predicate AnsweredFull(states: seq<State>, actions: seq<Action>, k: nat, id: Uuid)
    requires |states| == |actions| + 1 && k < |actions|
  {
    && actions[k].Act? && actions[k].flag && actions[k].pid in states[k].workers
    && states[k].workers[actions[k].pid].phase.Importing?
    && [id] <= states[k].workers[actions[k].pid].phase.rest
  }

  ghost predicate BeginsPass(states: seq<State>, actions: seq<Action>, k: nat)
    requires |states| == |actions| + 1 && k < |actions|
  {
    actions[k].Act? && actions[k].pid in states[k].workers && states[k].workers[actions[k].pid].phase.Listing?
  }

  /** The full answers on record were given since a worker last began to go through the inbox. */
  lemma {:induction false} FullByAnswer(states: seq<State>, actions: seq<Action>, i: nat, id: Uuid) returns (k: nat)
    requires IsRun(states, actions) && i < |states| && id in states[i].past.full
    ensures k < i && AnsweredFull(states, actions, k, id) && forall l :: k < l < i ==> !BeginsPass(states, actions, l)
  {
    assert i > 0 && StepAt(states, actions, i - 1);
    k := i - 1;
    if id in states[i - 1].past.full && !AnsweredFull(states, actions, i - 1, id) {
      k := FullByAnswer(states, actions, i - 1, id);
    }
  }

  /** What is left at rest is left for a reason: it can never be imported, or the journal was full for it in the last
      pass. */
  lemma LeftForAReason(states: seq<State>, actions: seq<Action>, i: nat, id: Uuid)
    requires IsRun(states, actions) && i < |states| && AtRest(states[i]) && id in states[i].files.entries
    ensures Evidence(states[i].files, id) || id in states[i].past.full
  {
    Always(states, actions, i);
    assert id in Ids(states[i].files.entries);
  }

  /** At rest every admitted descriptor that no committed manifest contests is committed and gone from the inbox, unless
      the journal was full for it in the last pass. */
  lemma AllCommitted(states: seq<State>, actions: seq<Action>, i: nat, m: Manifest)
    requires IsRun(states, actions) && i < |states| && AtRest(states[i]) && m in states[i].past.published
    requires m.id !in states[i].past.full
    ensures var files := states[i].files;
      && m.id in files.scopes
      && (files.scopes[m.id] == m ==> m.id !in files.entries || files.entries[m.id] != Descriptor(m))
      && (files.scopes[m.id] != m ==> m.id in files.entries && files.entries[m.id] == Descriptor(m))
  {
    Always(states, actions, i);
    if m.id in states[i].files.entries {
      LeftForAReason(states, actions, i, m.id);
    }
  }

  /** While a pass is under way, what it has kept so far is there for a reason. */
  lemma KeptForAReason(states: seq<State>, actions: seq<Action>, i: nat, p: Pid)
    requires IsRun(states, actions) && i < |states| && p in states[i].workers && Passing(states[i].workers[p].phase)
    ensures Justified(states[i].files, states[i].workers[p].retained, states[i].past.full)
  {
    Always(states, actions, i);
  }

  /** Only what is committed leaves the inbox: the very manifest of the descriptor removed. */
  lemma OnlyCommittedRemoved(states: seq<State>, actions: seq<Action>, i: nat, id: Uuid)
    requires IsRun(states, actions) && i < |actions|
    requires id in states[i].files.entries && id !in states[i + 1].files.entries
    ensures id in states[i].files.scopes && states[i].files.entries[id] == Descriptor(states[i].files.scopes[id])
  {
    Always(states, actions, i);
    assert StepAt(states, actions, i);
    var a := actions[i];
    assert a.Act? && a.pid in states[i].workers && states[i].workers[a.pid].phase.Acknowledging?;
    assert Removable(states[i], states[i].workers[a.pid].phase.id);
  }

  /** Crashes included: every descriptor ever admitted is still in the inbox or committed to the journal. */
  lemma NoDescriptorLost(states: seq<State>, actions: seq<Action>, i: nat, m: Manifest)
    requires IsRun(states, actions) && i < |states| && m in states[i].past.published
    ensures Safe(states[i], m)
  {
    Always(states, actions, i);
  }

  // ---- What an iteration saw ----

  ghost predicate ActsIn(states: seq<State>, actions: seq<Action>, k: nat, p: Pid, phase: Phase)
    requires |states| == |actions| + 1 && k < |actions|
  {
    actions[k].Act? && actions[k].pid == p && p in states[k].workers && states[k].workers[p].phase == phase
  }

  /** The iteration that `p` is in at state `i` read the generation at step `k`. */
  ghost predicate BeganAt(states: seq<State>, actions: seq<Action>, p: Pid, k: nat, i: nat)
    requires |states| == |actions| + 1 && k < i < |states| && p in states[i].workers
  {
    && ActsIn(states, actions, k, p, ReadingGeneration)
    && Generation(states[k].stored) == states[i].workers[p].generation
    && forall l :: k < l <= i ==> p in states[l].workers && InIteration(states[l].workers[p].phase)
  }

  ghost predicate InIteration(phase: Phase) {
    !phase.Contending? && !phase.ReadingGeneration?
  }

  lemma {:induction false} Began(states: seq<State>, actions: seq<Action>, p: Pid, i: nat) returns (k: nat)
    requires IsRun(states, actions) && i < |states|
    requires p in states[i].workers && InIteration(states[i].workers[p].phase)
    ensures k < i && BeganAt(states, actions, p, k, i)
  {
    assert i > 0;
    k := i - 1;
    assert StepAt(states, actions, k);
    if !ActsIn(states, actions, k, p, ReadingGeneration) {
      assert p in states[i - 1].workers && InIteration(states[i - 1].workers[p].phase);
      k := Began(states, actions, p, i - 1);
    }
  }

  /** The same iteration later compared the generation and found it still current. */
  lemma {:induction false} Compared(states: seq<State>, actions: seq<Action>, p: Pid, i: nat) returns (j: nat)
    requires IsRun(states, actions) && i < |states|
    requires p in states[i].workers && states[i].workers[p].phase == InspectingEngine(false)
    ensures j < i && ActsIn(states, actions, j, p, InspectingGeneration)
    ensures Generation(states[j].stored) == states[i].workers[p].generation
    ensures forall l :: j < l <= i ==> p in states[l].workers && states[l].workers[p].phase == InspectingEngine(false)
  {
    assert i > 0;
    j := i - 1;
    assert StepAt(states, actions, j);
    if !ActsIn(states, actions, j, p, InspectingGeneration) {
      assert p in states[i - 1].workers && states[i - 1].workers[p].phase == InspectingEngine(false);
      j := Compared(states, actions, p, i - 1);
    }
  }

  /** Configuration changes are never missed: a worker that leaves after its inspection began its last
      iteration under the generation still current at that inspection. */
  lemma LeavesUnderCurrentGeneration(states: seq<State>, actions: seq<Action>, p: Pid, i: nat)
    returns (k: nat, j: nat)
    requires IsRun(states, actions) && i < |actions| && ActsIn(states, actions, i, p, InspectingEngine(false))
    requires p !in states[i + 1].workers
    ensures k < j < i && BeganAt(states, actions, p, k, i)
    ensures ActsIn(states, actions, j, p, InspectingGeneration)
    ensures Generation(states[k].stored) == Generation(states[j].stored)
  {
    k := Began(states, actions, p, i);
    j := Compared(states, actions, p, i);
  }

  /** A worker leaves alive only because somebody else owns the lock, or because nothing has changed since its pass and the
      engine has nothing eligible. */
  lemma LeavesForAReason(states: seq<State>, actions: seq<Action>, i: nat, p: Pid)
    requires IsRun(states, actions) && i < |actions| && actions[i] != Crash(p)
    requires p in states[i].workers && p !in states[i + 1].workers
    ensures actions[i].Act? && actions[i].pid == p
    ensures var s := states[i];
      || (s.workers[p].phase.Contending? && s.lock.Some? && s.lock != Some(p))
      || (s.workers[p].phase == InspectingEngine(false) && !actions[i].flag)
  {
    assert StepAt(states, actions, i);
    Always(states, actions, i);
  }

  /** An acknowledgment of `p` meets a busy inbox. */
  ghost predicate Hindered(s: State, a: Action, p: Pid) {
    && a.Act? && a.pid == p && p in s.workers && (a.flag || !InboxFree(s))
    && (s.workers[p].phase.Acknowledging? || (s.workers[p].phase.AcknowledgingControl? && s.workers[p].control.Some?))
  }

  /** The pass that `p` is in at state `i` began at step `k`, and none of its acknowledgments met a busy inbox. */
  ghost predicate Unhindered(states: seq<State>, actions: seq<Action>, p: Pid, k: nat, i: nat)
    requires |states| == |actions| + 1 && k < i < |states|
  {
    && ActsIn(states, actions, k, p, Listing)
    && forall l :: k < l < i ==> p in states[l].workers && Passing(states[l].workers[p].phase) && !Hindered(states[l], actions[l], p)
  }

  /** A pass without a retry had none a step earlier, and the step met no busy inbox, unless the pass began with it. */
  lemma StillUnhindered(s: State, a: Action, p: Pid)
    requires Enabled(s, a) && p in Next(s, a).workers
    requires Passing(Next(s, a).workers[p].phase) && !Next(s, a).workers[p].retry
    ensures p in s.workers
    ensures (a.Act? && a.pid == p && s.workers[p].phase.Listing?)
      || (Passing(s.workers[p].phase) && !s.workers[p].retry && !Hindered(s, a, p))
  {
  }

  lemma {:induction false} NothingBusy(states: seq<State>, actions: seq<Action>, p: Pid, i: nat) returns (k: nat)
    requires IsRun(states, actions) && i < |states|
    requires p in states[i].workers && Passing(states[i].workers[p].phase) && !states[i].workers[p].retry
    ensures k < i && Unhindered(states, actions, p, k, i)
  {
    assert i > 0;
    k := i - 1;
    assert StepAt(states, actions, k);
    StillUnhindered(states[k], actions[k], p);
    if !ActsIn(states, actions, k, p, Listing) {
      k := NothingBusy(states, actions, p, i - 1);
    }
  }

  /** What the engine said it still has to do, in the pass that `p` is about to end. */
  lemma {:induction false} Stepped(states: seq<State>, actions: seq<Action>, p: Pid, i: nat) returns (k: nat)
    requires IsRun(states, actions) && i < |states|
    requires p in states[i].workers && states[i].workers[p].phase.AcknowledgingControl?
    ensures k < i && ActsIn(states, actions, k, p, Stepping)
    ensures actions[k].flag == states[i].workers[p].phase.eligible
    ensures forall l :: k < l <= i ==> p in states[l].workers && states[l].workers[p].phase == states[i].workers[p].phase
  {
    assert i > 0;
    k := i - 1;
    assert StepAt(states, actions, k);
    if !ActsIn(states, actions, k, p, Stepping) {
      assert p in states[i - 1].workers && states[i - 1].workers[p].phase == states[i].workers[p].phase;
      k := Stepped(states, actions, p, i - 1);
    }
  }

  /** A worker comes to the release only by having nothing eligible and nothing to retry. */
  lemma ComesToRelease(s: State, a: Action, p: Pid)
    requires Enabled(s, a) && p in Next(s, a).workers && Next(s, a).workers[p].phase.Releasing?
    ensures p in s.workers
    ensures (s.workers[p].phase.Releasing? && Next(s, a).workers[p] == s.workers[p])
      || (a.Act? && a.pid == p && s.workers[p].phase == AcknowledgingControl(false) && !Next(s, a).workers[p].retry)
  {
  }

  lemma {:induction false} Finished(states: seq<State>, actions: seq<Action>, p: Pid, i: nat) returns (j: nat)
    requires IsRun(states, actions) && i < |states|
    requires p in states[i].workers && states[i].workers[p].phase.Releasing?
    ensures j < i && ActsIn(states, actions, j, p, AcknowledgingControl(false)) && !states[i].workers[p].retry
    ensures forall l :: j < l <= i ==> p in states[l].workers && states[l].workers[p].phase.Releasing?
  {
    assert i > 0;
    j := i - 1;
    assert StepAt(states, actions, j);
    ComesToRelease(states[j], actions[j], p);
    if states[j].workers[p].phase.Releasing? {
      j := Finished(states, actions, p, i - 1);
    }
  }

  /** An owner ends its work only after a pass in which no acknowledgment met a busy inbox and the engine had nothing
      eligible; otherwise it makes another pass. */
  lemma ReleasesForAReason(states: seq<State>, actions: seq<Action>, i: nat, p: Pid) returns (k: nat, j: nat)
    requires IsRun(states, actions) && i < |actions| && ActsIn(states, actions, i, p, Releasing)
    ensures k < j < i && Unhindered(states, actions, p, k, i)
    ensures ActsIn(states, actions, j, p, Stepping) && !actions[j].flag
  {
    var e := Finished(states, actions, p, i);
    j := Stepped(states, actions, p, e);
    k := NothingBusy(states, actions, p, i);
  }

  // ---- What an acknowledgment removes ----

  ghost predicate Read(states: seq<State>, actions: seq<Action>, p: Pid, r: nat, i: nat)
    requires |states| == |actions| + 1 && r < i < |states| && p in states[i].workers
  {
    && ActsIn(states, actions, r, p, ReadingControl)
    && Seen(states[r].files.control) == states[i].workers[p].control
    && forall l :: r < l <= i ==> p in states[l].workers && AfterRead(states[l].workers[p].phase)
  }

  ghost predicate AfterRead(phase: Phase) {
    InIteration(phase) && !phase.ReadingControl?
  }

  lemma {:induction false} ReadControl(states: seq<State>, actions: seq<Action>, p: Pid, i: nat) returns (r: nat)
    requires IsRun(states, actions) && i < |states|
    requires p in states[i].workers && AfterRead(states[i].workers[p].phase)
    ensures r < i && Read(states, actions, p, r, i)
  {
    assert i > 0;
    r := i - 1;
    assert StepAt(states, actions, r);
    if !ActsIn(states, actions, r, p, ReadingControl) {
      assert p in states[i - 1].workers && AfterRead(states[i - 1].workers[p].phase);
      r := ReadControl(states, actions, p, i - 1);
    }
  }

  /** Whenever an event leaves the inbox without a newer one taking its place, an owner acknowledged it that
      had read this very event in the same iteration; it was the newest event, and no configuration
      change was between its event and its commit. */
  lemma OnlyReadEventsRemoved(states: seq<State>, actions: seq<Action>, i: nat) returns (p: Pid, r: nat)
    requires IsRun(states, actions) && i < |actions|
    requires states[i].files.control.Event? && !states[i + 1].files.control.Event?
    ensures r < i && p in states[i].workers && states[i].lock == Some(p)
    ensures Read(states, actions, p, r, i) && states[r].files.control == states[i].files.control
    ensures Newest(states[i], states[i].files.control.token) && InboxFree(states[i])
  {
    assert StepAt(states, actions, i);
    Always(states, actions, i);
    p := actions[i].pid;
    r := ReadControl(states, actions, p, i);
  }

  /** The newest event ever written is in the inbox or was acknowledged by a worker that read it. */
  lemma NewestEventKept(states: seq<State>, actions: seq<Action>, i: nat)
    requires IsRun(states, actions) && i < |states| && |states[i].past.issued| > 0
    ensures var s := states[i];
      var newest := s.past.issued[|s.past.issued| - 1];
      s.files.control == Event(newest) || newest in s.past.acknowledged
  {
    Always(states, actions, i);
  }
}
