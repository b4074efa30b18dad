/** The hand-off of archive work from sessions to a detached worker, as interleaved atomic steps.

    Any number of sessions publish descriptors and launch workers; any number of workers contend for
    one lock. The owner imports and acknowledges descriptors, releases the lock, inspects the inbox
    again and possibly re-acquires. Configuration changes announce a control event before they commit. */
module Handoff {
  import opened Options
  import opened Uuids

  type Pid = nat
  type Config = string

  datatype Manifest = Manifest(id: Uuid, origin: string, generation: Uuid, source: string)

  /** One descriptor file. A damaged one fails to decode and is kept as evidence. */
  datatype Slot = Descriptor(manifest: Manifest) | Damaged

  datatype Control = NoControl | Event(token: Uuid) | DamagedControl

  datatype Stored = Stored(config: Config, generation: Option<Uuid>)

  const MAX_DESCRIPTORS := 1024

  // ---- The inbox ----

  datatype Refusal = Collision | Invalid | Full | Busy

  /** The descriptors after admitting one manifest under the inbox lock. */
  function Admit(entries: map<Uuid, Slot>, m: Manifest): (r: Result<map<Uuid, Slot>, Refusal>)
    ensures r.Success? ==> m.id in r.value && r.value[m.id] == Descriptor(m)
    ensures r.Success? ==> forall id :: id in entries ==> id in r.value && r.value[id] == entries[id]
  {
    if m.id in entries then
      if entries[m.id].Damaged? || entries[m.id].manifest.id != m.id then Failure(Invalid)
      else if entries[m.id].manifest != m then Failure(Collision)
      else Success(entries)
    else if |entries| >= MAX_DESCRIPTORS then Failure(Full)
    else Success(entries[m.id := Descriptor(m)])
  }

  function Ids(entries: map<Uuid, Slot>): seq<Uuid> {
    Sorted(entries.Keys)
  }

  /** What a worker learns from the control file: a damaged one conveys nothing. */
  function Seen(control: Control): Option<Uuid> {
    if control.Event? then Some(control.token) else None
  }

  /** Only the very event that was read is removed. */
  function AfterAcknowledgment(control: Control, token: Uuid): Control {
    if control == Event(token) then NoControl else control
  }

  // ---- The configuration ----

  datatype Change =
    | Save(config: Config, generation: Uuid)
    | Migrate(config: Config, generation: Uuid)
    | Logout

  /** The holder of the configuration lock: none, before or after its event is in the inbox. */
  datatype Edit = NoEdit | Planned(change: Change) | Announced(change: Change, token: Uuid)

  function Committed(change: Change): Option<Stored> {
    match change
    case Save(config, generation) => Some(Stored(config, Some(generation)))
    case Migrate(config, generation) => Some(Stored(config, Some(generation)))
    case Logout => None
  }

  function Generation(stored: Option<Stored>): Option<Uuid> {
    if stored.Some? then stored.value.generation else None
  }

  // ---- The journal ----

  datatype Import = Imported(scopes: map<Uuid, Manifest>) | Kept

  /** The idempotent import of the descriptor `id`; a full journal keeps it for later. */
  function ImportSlot(scopes: map<Uuid, Manifest>, id: Uuid, slot: Slot, full: bool): Import {
    if slot.Damaged? || slot.manifest.id != id then Kept
    else if id in scopes then
      if scopes[id] == slot.manifest then Imported(scopes) else Kept
    else if full then Kept
    else Imported(scopes[id := slot.manifest])
  }

  // ---- Workers ----

  datatype Phase =
    | Contending
    | ReadingGeneration
    | ReadingControl
    | Listing
    | Importing(rest: seq<Uuid>)
    | Acknowledging(id: Uuid, rest: seq<Uuid>)
    | Stepping
    | AcknowledgingControl(eligible: bool)
    | Releasing
    | InspectingIds
    | InspectingControl
    | InspectingGeneration
    | InspectingEngine(changed: bool)

  datatype Worker = Worker(phase: Phase, generation: Option<Uuid>, control: Option<Uuid>,
                           retained: seq<Uuid>, retry: bool)

  predicate Owning(phase: Phase) {
    !phase.Contending? && !Released(phase)
  }

  predicate Released(phase: Phase) {
    phase.InspectingIds? || phase.InspectingControl? || phase.InspectingGeneration? || phase.InspectingEngine?
  }

  /** A completed pass of an owner: who, what it kept, the generation it began under, and the descriptors for which the
      engine answered that the journal is full. */
  datatype Pass = Pass(pid: Pid, retained: seq<Uuid>, generation: Option<Uuid>, full: set<Uuid>)

  /** What an owner may write: the descriptor files, the control file and the imported scopes. */
  datatype Files = Files(entries: map<Uuid, Slot>, control: Control, scopes: map<Uuid, Manifest>)

  /** The past, which steers no step: the descriptors admitted, the control tokens written in order and
      acknowledged, those whose writer asked for a launch, whether a worker died or a launch failed since
      the most recent launch, the full answers of the pass under way, and the last completed pass if nobody
      has owned the lock since. */
  datatype History = History(
    published: set<Manifest>,
    issued: seq<Uuid>,
    acknowledged: set<Uuid>,
    wakes: set<Uuid>,
    troubled: bool,
    full: set<Uuid>,
    final: Option<Pass>)

  datatype State = State(
    files: Files,
    stored: Option<Stored>,
    edit: Edit,
    lock: Option<Pid>,
    workers: map<Pid, Worker>,
    owed: nat,
    past: History)

  /** Any inbox, configuration and journal; the session that starts up still owes its first launch. */
  ghost predicate Init(s: State) {
    && s.edit.NoEdit?
    && s.lock.None?
    && s.workers == map[]
    && s.owed >= 1
    && s.past.published == {}
    && s.past.issued == (if s.files.control.Event? then [s.files.control.token] else [])
    && s.past.acknowledged == {}
    && s.past.wakes == {}
    && !s.past.troubled
    && s.past.full == {}
    && s.past.final.None?
  }

  datatype Action =
    | Publish(manifest: Manifest)
    | Signal(token: Uuid)
    | Launch(pid: Pid, owing: bool)
    | LaunchFails
    | Plan(change: Change)
    | Announce(token: Uuid)
    | Commit(launching: bool)
    | Abandon
    | Act(pid: Pid, flag: bool)
    | Crash(pid: Pid)

  /** The inbox lock is free: no configuration transition is between its event and its commit. */
  predicate InboxFree(s: State) {
    !s.edit.Announced?
  }

  predicate Enabled(s: State, a: Action) {
    match a
    case Publish(m) => InboxFree(s) && Admit(s.files.entries, m).Success?
    case Signal(token) => InboxFree(s) && token !in s.past.issued
    case Launch(pid, owing) => pid !in s.workers && (owing ==> s.owed > 0)
    case LaunchFails => s.owed > 0
    case Plan(change) => s.edit.NoEdit? &&
      (change.Migrate? ==> s.stored == Some(Stored(change.config, None)))
    case Announce(token) => s.edit.Planned? && token !in s.past.issued
    case Commit(_) => s.edit.Announced?
    case Abandon => !s.edit.NoEdit?
    case Act(pid, _) => pid in s.workers
    case Crash(pid) => pid in s.workers
  }

  function Next(s: State, a: Action): State
    requires Enabled(s, a)
  {
    match a
    case Publish(m) =>
      s.(files := s.files.(entries := Admit(s.files.entries, m).value), owed := s.owed + 1,
         past := s.past.(published := s.past.published + {m}))
    case Signal(token) =>
      Written(s, token).(owed := s.owed + 1, past := Written(s, token).past.(wakes := s.past.wakes + {token}))
    case Launch(pid, owing) =>
      s.(workers := s.workers[pid := Worker(Contending, None, None, [], false)],
         owed := if owing then s.owed - 1 else s.owed, past := s.past.(troubled := false))
    case LaunchFails => s.(owed := s.owed - 1, past := s.past.(troubled := true))
    case Plan(change) => s.(edit := Planned(change))
    case Announce(token) => Written(s, token).(edit := Announced(s.edit.change, token))
    case Commit(launching) =>
      s.(stored := Committed(s.edit.change), edit := NoEdit,
         owed := if launching then s.owed + 1 else s.owed,
         past := if launching then s.past.(wakes := s.past.wakes + {s.edit.token}) else s.past)
    case Abandon => s.(edit := NoEdit)
    case Act(pid, flag) => if Owning(s.workers[pid].phase) then Own(s, pid, flag) else StandBy(s, pid, flag)
    case Crash(pid) => Without(s, pid).(past := s.past.(troubled := true))
  }

  /** A new control event replaces whatever the control file held. */
  function Written(s: State, token: Uuid): State {
    s.(files := s.files.(control := Event(token)), past := s.past.(issued := s.past.issued + [token]))
  }

  /** The process is gone; the system drops the lock it held. */
  function Without(s: State, pid: Pid): State {
    s.(workers := s.workers - {pid}, lock := if s.lock == Some(pid) then None else s.lock)
  }

  /** One access of a worker that does not hold the lock: trying for it, or inspecting after its release.
      `eligible` is what the read-only look at the journal reports. */
  function StandBy(s: State, pid: Pid, eligible: bool): State
    requires pid in s.workers
  {
    var w := s.workers[pid];
    if w.phase.Contending? then
      if s.lock.None? then
        s.(workers := s.workers[pid := w.(phase := ReadingGeneration)], lock := Some(pid), past := s.past.(final := None))
      else Without(s, pid)
    else if w.phase == InspectingEngine(false) && !eligible then Without(s, pid)
    else s.(workers := s.workers[pid := w.(phase := Inspected(w, s.files, Generation(s.stored)))])
  }

  function Inspected(w: Worker, files: Files, generation: Option<Uuid>): Phase {
    match w.phase
    case InspectingIds => if Ids(files.entries) == w.retained then InspectingControl else InspectingEngine(true)
    case InspectingControl => if Seen(files.control).None? then InspectingGeneration else InspectingEngine(true)
    case InspectingGeneration => InspectingEngine(generation != w.generation)
    case _ => Contending
  }

  /** One access of the owner. `flag` is what it learns from outside: that the journal is full, that the
      inbox lock is busy, or that the engine has eligible work. */
  function Own(s: State, pid: Pid, flag: bool): State
    requires pid in s.workers
  {
    var w := s.workers[pid];
    var files := Worked(w, s.files, flag || !InboxFree(s), flag);
    s.(files := files,
       workers := s.workers[pid := Resumed(w, s.files, Generation(s.stored), flag || !InboxFree(s), flag)],
       lock := if w.phase.Releasing? then None else s.lock,
       past := s.past.(
         acknowledged := if files.control == s.files.control then s.past.acknowledged
                         else s.past.acknowledged + {s.files.control.token},
         full := Met(w, s.past.full, flag),
         final := if w.phase.Releasing? then Some(Pass(pid, w.retained, w.generation, s.past.full)) else s.past.final))
  }

  /** The descriptors of this pass for which the engine answered that the journal is full. */
  function Met(w: Worker, full: set<Uuid>, flag: bool): set<Uuid> {
    match w.phase
    case Listing => {}
    case Importing(rest) => if rest != [] && flag then full + {rest[0]} else full
    case _ => full
  }

  /** What an owner's access writes. */
  function Worked(w: Worker, files: Files, busy: bool, full: bool): (after: Files)
    ensures after.control == files.control || (files.control.Event? && after.control.NoControl?)
  {
    match w.phase
    case Importing(rest) =>
      if rest == [] || rest[0] !in files.entries then files
      else
        var r := ImportSlot(files.scopes, rest[0], files.entries[rest[0]], full);
        if r.Imported? then files.(scopes := r.scopes) else files
    case Acknowledging(id, _) => if busy then files else files.(entries := files.entries - {id})
    case AcknowledgingControl(_) =>
      if w.control.None? || busy then files
      else files.(control := AfterAcknowledgment(files.control, w.control.value))
    case _ => files
  }

  /** Where an owner's access leaves it. */
  function Resumed(w: Worker, files: Files, generation: Option<Uuid>, busy: bool, flag: bool): Worker {
    match w.phase
    case ReadingGeneration => w.(phase := ReadingControl, generation := generation)
    case ReadingControl => w.(phase := Listing, control := Seen(files.control))
    case Listing => w.(phase := Importing(Ids(files.entries)), retained := [], retry := false)
    case Importing(rest) =>
      if rest == [] then w.(phase := Stepping)
      else if rest[0] !in files.entries then w.(phase := Importing(rest[1..]))
      else if ImportSlot(files.scopes, rest[0], files.entries[rest[0]], flag).Imported? then
        w.(phase := Acknowledging(rest[0], rest[1..]))
      else w.(phase := Importing(rest[1..]), retained := w.retained + [rest[0]])
    case Acknowledging(_, rest) => w.(phase := Importing(rest), retry := w.retry || busy)
    case Stepping => w.(phase := AcknowledgingControl(flag))
    case AcknowledgingControl(eligible) =>
      var retry := w.retry || (w.control.Some? && busy);
      w.(phase := if eligible || retry then ReadingGeneration else Releasing, retry := retry)
    case _ => w.(phase := InspectingIds)
  }

  // ---- Runs ----

  /** `states` are the successive states of one run driven by `actions`. */
  ghost predicate IsRun(states: seq<State>, actions: seq<Action>) {
    && |states| == |actions| + 1
    && Init(states[0])
    && forall i :: 0 <= i < |actions| ==> StepAt(states, actions, i)
  }

  ghost predicate StepAt(states: seq<State>, actions: seq<Action>, i: nat)
    requires |states| == |actions| + 1 && i < |actions|
  {
    Enabled(states[i], actions[i]) && states[i + 1] == Next(states[i], actions[i])
  }
}
