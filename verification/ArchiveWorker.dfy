/** The worker's loop, executed among arbitrary steps of other processes. */
module ArchiveWorker {
  import opened Options
  import opened Uuids
  import opened Handoff
  import opened HandoffSafety
  import opened ArchiveHost
  import opened ArchiveInbox

  class Process {
    const host: Host
    const inbox: Inbox
    const pid: Pid

    constructor (host: Host, pid: Pid)
      ensures this.host == host && this.pid == pid && inbox.host == host
    {
      this.host, this.pid := host, pid;
      this.inbox := new Inbox(host);
    }

    /** The files are a run of the protocol, in which this process is where its code is. */
    ghost predicate In(phase: Phase)
      reads this, inbox, host
    {
      && inbox.host == host && host.Valid()
      && pid in host.state.workers && host.state.workers[pid].phase == phase
    }

    ghost predicate Gone()
      reads this, inbox, host
    {
      inbox.host == host && host.Valid() && pid !in host.state.workers
    }

    /** Time only passes. */
    twostate predicate Later()
      reads this, host
    {
      host.Extended() && host.Energy() <= old(host.Energy())
    }

    /** This process is in `phase` of a pass, with these values in its own variables. */
    ghost predicate InPass(phase: Phase, generation: Option<Uuid>, control: Option<Uuid>,
                           retained: seq<Uuid>, retry: bool)
      reads this, inbox, host
    {
      In(phase) && host.state.workers[pid] == Worker(phase, generation, control, retained, retry)
    }

    /** If nobody else can do anything any more, only what this process wrote has changed. */
    twostate predicate Quietly(files: Files)
      reads this, host
    {
      old(host.Energy()) == 0 ==> host.state.files == files && host.state.stored == old(host.state.stored)
    }

    method Acquire() returns (won: bool)
      requires In(Contending)
      modifies host
      ensures Later()
      ensures if won then In(ReadingGeneration) else Gone()
    {
      host.Interfere(pid);
      Always(host.run.states, host.run.actions, |host.run.actions|);
      var before := host.state;
      won := before.lock.None?;
      if won {
        host.state := before.(lock := Some(pid));
      }
      host.Arrive(before, Act(pid, false));
    }

    method ReadGeneration() returns (generation: Option<Uuid>)
      requires In(ReadingGeneration)
      modifies host
      ensures In(ReadingControl) && Later() && Quietly(old(host.state.files))
      ensures host.state.workers[pid].generation == generation
      ensures old(host.Energy()) == 0 ==> generation == Generation(host.state.stored)
    {
      host.Interfere(pid);
      generation := Generation(host.state.stored);
      host.Arrive(host.state, Act(pid, false));
    }

    method ReadControl() returns (control: Option<Uuid>)
      requires In(ReadingControl)
      modifies host
      ensures In(Listing) && Later() && Quietly(old(host.state.files))
      ensures host.state.workers[pid].generation == old(host.state.workers[pid].generation)
      ensures host.state.workers[pid].control == control
      ensures old(host.Energy()) == 0 ==> control == Seen(host.state.files.control)
    {
      host.Interfere(pid);
      control := SeenControl();
      host.Arrive(host.state, Act(pid, false));
    }

    /** A malformed control file conveys nothing. */
    method SeenControl() returns (control: Option<Uuid>)
      requires inbox.host == host
      ensures control == Seen(host.state.files.control)
    {
      var r := inbox.ReadControl();
      control := if r.Success? then r.value else None;
    }

    /** The engine's transactional import: idempotent, and refused on a collision or a full journal. */
    method Import(m: Manifest, full: bool) returns (imported: bool)
      modifies host`state
      ensures imported <==> ImportSlot(old(host.state.files.scopes), m.id, Descriptor(m), full).Imported?
      ensures host.state == old(host.state).(files := host.state.files)
      ensures host.state.files == old(host.state.files).(scopes :=
        if imported then old(host.state.files.scopes)[m.id := m] else old(host.state.files.scopes))
    {
      var scopes := host.state.files.scopes;
      if m.id in scopes {
        imported := scopes[m.id] == m;
        assert imported ==> scopes == scopes[m.id := m];
        return;
      }
      if full {
        return false;
      }
      host.state := host.state.(files := host.state.files.(scopes := scopes[m.id := m]));
      return true;
    }

    /** Reads and imports one listed descriptor; the commit comes before its removal. */
    method ImportListed(id: Uuid, rest: seq<Uuid>, generation: Option<Uuid>, control: Option<Uuid>,
                        retained: seq<Uuid>, retry: bool) returns (kept: bool, imported: bool)
      requires InPass(Importing([id] + rest), generation, control, retained, retry)
      modifies host
      ensures !(kept && imported)
      ensures InPass(if imported then Acknowledging(id, rest) else Importing(rest), generation, control,
                     if kept then retained + [id] else retained, retry)
      ensures Later() && Quietly(old(host.state.files).(scopes := host.state.files.scopes))
      ensures old(host.Energy()) == 0 && id in old(host.state.files.entries) ==> kept || imported
    {
      host.Interfere(pid);
      var before := host.state;
      var full := host.Answer();
      kept, imported := ReadAndImport(id, full);
      assert ([id] + rest)[1..] == rest;
      host.Arrive(before, Act(pid, full));
    }

    /** A slot that can be read is imported or kept; one that is gone is neither. */
    method ReadAndImport(id: Uuid, full: bool) returns (kept: bool, imported: bool)
      requires inbox.host == host
      modifies host`state
      ensures var files := old(host.state.files);
        var slot := if id in files.entries then ImportSlot(files.scopes, id, files.entries[id], full) else Kept;
        && kept == (id in files.entries && slot.Kept?) && imported == slot.Imported?
        && host.state == old(host.state).(files := if imported then files.(scopes := slot.scopes) else files)
    {
      var manifest := inbox.ReadManifest(id);
      kept, imported := manifest != Success(None), false;
      if manifest.Success? && manifest.value.Some? {
        imported := Import(manifest.value.value, full);
        kept := !imported;
      }
    }

    /** One turn of the import loop. */
    method Take(id: Uuid, rest: seq<Uuid>, generation: Option<Uuid>, control: Option<Uuid>,
                retained: seq<Uuid>, retry: bool) returns (kept: bool, busy: bool)
      requires InPass(Importing([id] + rest), generation, control, retained, retry)
      modifies host
      ensures InPass(Importing(rest), generation, control,
                     if kept then retained + [id] else retained, retry || busy)
      ensures Later()
      ensures id in old(host.state.files.entries) ==> Quietly(host.state.files.(
        control := old(host.state.files.control),
        entries := old(host.state.files.entries) - if kept then {} else {id}))
      ensures id in old(host.state.files.entries) && old(host.Energy()) == 0 ==> !busy
    {
      var imported;
      kept, imported := ImportListed(id, rest, generation, control, retained, retry);
      busy := false;
      if imported {
        busy := Remove(id, rest, generation, control, retained, retry);
      }
    }

    method Remove(id: Uuid, rest: seq<Uuid>, generation: Option<Uuid>, control: Option<Uuid>,
                  retained: seq<Uuid>, retry: bool) returns (busy: bool)
      requires InPass(Acknowledging(id, rest), generation, control, retained, retry)
      modifies host
      ensures InPass(Importing(rest), generation, control, retained, retry || busy) && Later()
      ensures Quietly(old(host.state.files).(entries := old(host.state.files.entries) - {id}))
      ensures old(host.Energy()) == 0 ==> !busy
    {
      host.Interfere(pid);
      var before := host.state;
      var answer := host.Answer();
      var r := inbox.Acknowledge(id, answer);
      host.Arrive(before, Act(pid, answer));
      busy := r.Failure?;
    }

    method List(generation: Option<Uuid>, control: Option<Uuid>) returns (ids: seq<Uuid>)
      requires In(Listing)
      requires host.state.workers[pid].generation == generation && host.state.workers[pid].control == control
      modifies host
      ensures InPass(Importing(ids), generation, control, [], false) && Later() && Quietly(old(host.state.files))
      ensures Increasing(ids)
      ensures old(host.Energy()) == 0 ==> Lists(ids, host.state.files.entries.Keys)
    {
      host.Interfere(pid);
      ids := inbox.ListIds();
      host.Arrive(host.state, Act(pid, false));
    }

    /** Imports and acknowledges every descriptor it lists, and keeps those it could not import: evidence that can never be
        imported, and what met a full journal. */
    method Drain(generation: Option<Uuid>, control: Option<Uuid>) returns (retained: seq<Uuid>, retry: bool)
      requires In(Listing)
      requires host.state.workers[pid].generation == generation && host.state.workers[pid].control == control
      modifies host
      ensures InPass(Importing([]), generation, control, retained, retry) && Later()
      ensures Quietly(host.state.files.(control := old(host.state.files.control)))
      ensures old(host.Energy()) == 0 ==> !retry && retained == Ids(host.state.files.entries)
      ensures Justified(host.state.files, retained, host.state.past.full)
    {
      var ids := List(generation, control);
      retained, retry := [], false;
      assert retained + ids == ids;
      while ids != []
        invariant InPass(Importing(ids), generation, control, retained, retry) && Later()
        invariant Quietly(host.state.files.(control := old(host.state.files.control)))
        invariant old(host.Energy()) == 0 ==> !retry && Lists(retained + ids, host.state.files.entries.Keys)
        decreases |ids|
      {
        var id, rest := ids[0], ids[1..];
        assert ids == [id] + rest;
        ghost var entries := host.state.files.entries;
        var kept, busy := Take(id, rest, generation, control, retained, retry);
        if old(host.Energy()) == 0 {
          Handled(retained, ids, entries, kept);
        }
        retained, retry, ids := if kept then retained + [id] else retained, retry || busy, rest;
      }
      if old(host.Energy()) == 0 {
        assert retained + ids == retained;
        SortedUnique(retained, host.state.files.entries.Keys);
      }
      KeptForAReason(host.run.states, host.run.actions, |host.run.actions|, pid);
    }

    method Drained(generation: Option<Uuid>, control: Option<Uuid>, retained: seq<Uuid>, retry: bool)
      requires InPass(Importing([]), generation, control, retained, retry)
      modifies host
      ensures InPass(Stepping, generation, control, retained, retry) && Later() && Quietly(old(host.state.files))
    {
      host.Interfere(pid);
      host.Arrive(host.state, Act(pid, false));
    }

    /** The engine's bounded work, of which only its answer matters here. */
    method StepEngine(generation: Option<Uuid>, control: Option<Uuid>, retained: seq<Uuid>, retry: bool)
      returns (eligible: bool)
      requires InPass(Stepping, generation, control, retained, retry)
      modifies host
      ensures InPass(AcknowledgingControl(eligible), generation, control, retained, retry) && Later()
      ensures old(host.Energy()) > 0 ==> host.Energy() < old(host.Energy())
      ensures old(host.Energy()) == 0 ==> !eligible
      ensures Quietly(old(host.state.files))
    {
      host.Interfere(pid);
      eligible := host.Answer();
      host.Arrive(host.state, Act(pid, eligible));
    }

    /** Removes the event this pass has read, if there was one, and decides whether to go round again. */
    method FinishControl(eligible: bool, generation: Option<Uuid>, control: Option<Uuid>,
                         retained: seq<Uuid>, retry: bool) returns (busy: bool)
      requires InPass(AcknowledgingControl(eligible), generation, control, retained, retry)
      modifies host
      ensures InPass(if eligible || retry || busy then ReadingGeneration else Releasing,
                     generation, control, retained, retry || busy)
      ensures Later()
      ensures old(host.Energy()) == 0 ==> !busy
      ensures Quietly(AfterEvent(old(host.state.files), control))
    {
      host.Interfere(pid);
      var before := host.state;
      var answer := host.Answer();
      busy := DropEvent(control, answer);
      host.Arrive(before, Act(pid, answer));
    }

    method DropEvent(control: Option<Uuid>, answer: bool) returns (busy: bool)
      requires inbox.host == host
      modifies host`state
      ensures busy == (control.Some? && (!InboxFree(old(host.state)) || answer))
      ensures host.state == old(host.state).(files := host.state.files)
      ensures host.state.files == if busy then old(host.state.files) else AfterEvent(old(host.state.files), control)
    {
      busy := false;
      if control.Some? {
        var r := inbox.AcknowledgeControl(control.value, answer);
        busy := r == Failure(Refusal.Busy);
      }
    }

    method Release(generation: Option<Uuid>, control: Option<Uuid>, retained: seq<Uuid>, ghost retry: bool)
      requires InPass(Releasing, generation, control, retained, retry)
      modifies host
      ensures InPass(InspectingIds, generation, control, retained, retry) && Later()
      ensures Quietly(old(host.state.files))
    {
      host.Interfere(pid);
      var before := host.state;
      host.state := before.(lock := None);
      host.Arrive(before, Act(pid, false));
    }

    method InspectIds(generation: Option<Uuid>, control: Option<Uuid>, retained: seq<Uuid>, ghost retry: bool)
      returns (changed: bool)
      requires InPass(InspectingIds, generation, control, retained, retry)
      modifies host
      ensures InPass(if changed then InspectingEngine(true) else InspectingControl, generation, control, retained, retry)
      ensures Later() && Quietly(old(host.state.files))
      ensures old(host.Energy()) == 0 ==> changed == (Ids(host.state.files.entries) != retained)
    {
      host.Interfere(pid);
      var ids := inbox.ListIds();
      host.Arrive(host.state, Act(pid, false));
      changed := ids != retained;
    }

    method InspectControl(generation: Option<Uuid>, control: Option<Uuid>, retained: seq<Uuid>, ghost retry: bool)
      returns (changed: bool)
      requires InPass(InspectingControl, generation, control, retained, retry)
      modifies host
      ensures InPass(if changed then InspectingEngine(true) else InspectingGeneration, generation, control, retained, retry)
      ensures Later() && Quietly(old(host.state.files))
      ensures old(host.Energy()) == 0 ==> changed == host.state.files.control.Event?
    {
      host.Interfere(pid);
      var event := SeenControl();
      host.Arrive(host.state, Act(pid, false));
      changed := event.Some?;
    }

    method InspectGeneration(generation: Option<Uuid>, control: Option<Uuid>, retained: seq<Uuid>, ghost retry: bool)
      returns (changed: bool)
      requires InPass(InspectingGeneration, generation, control, retained, retry)
      modifies host
      ensures In(InspectingEngine(changed)) && Later() && Quietly(old(host.state.files))
      ensures old(host.Energy()) == 0 ==> changed == (Generation(host.state.stored) != generation)
    {
      host.Interfere(pid);
      changed := Generation(host.state.stored) != generation;
      host.Arrive(host.state, Act(pid, false));
    }

    /** The unlocked second look, in the order that cannot miss an event published before the release. */
    method Inspect(generation: Option<Uuid>, control: Option<Uuid>, retained: seq<Uuid>, ghost retry: bool)
      returns (changed: bool)
      requires InPass(InspectingIds, generation, control, retained, retry)
      modifies host
      ensures In(InspectingEngine(changed)) && Later()
      ensures old(host.Energy()) == 0 && Settled(old(host.state), retained, generation) ==> !changed
    {
      changed := InspectIds(generation, control, retained, retry);
      if !changed {
        changed := InspectControl(generation, control, retained, retry);
        if !changed {
          changed := InspectGeneration(generation, control, retained, retry);
        }
      }
    }

    /** Leaves if nothing changed and the journal has nothing eligible; otherwise contends again. */
    method LeaveOrContend(changed: bool) returns (won: bool)
      requires In(InspectingEngine(changed))
      modifies host
      ensures Later()
      ensures if won then In(ReadingGeneration) else Gone()
      ensures old(host.Energy()) == 0 && !changed ==> !won
    {
      host.Interfere(pid);
      Always(host.run.states, host.run.actions, |host.run.actions|);
      var eligible := host.Answer();
      host.Arrive(host.state, Act(pid, eligible));
      if !changed && !eligible {
        return false;
      }
      won := Acquire();
    }

    /** Everything up to the engine's work. */
    method Gather() returns (generation: Option<Uuid>, control: Option<Uuid>, retained: seq<Uuid>, retry: bool)
      requires In(ReadingGeneration)
      modifies host
      ensures InPass(Stepping, generation, control, retained, retry) && Later()
      ensures old(host.Energy()) == 0 ==>
        !retry && SettledBut(host.state, control, retained, generation)
    {
      generation := ReadGeneration();
      control := ReadControl();
      retained, retry := Drain(generation, control);
      Drained(generation, control, retained, retry);
    }

    method FinishPass(generation: Option<Uuid>, control: Option<Uuid>, retained: seq<Uuid>, retry: bool)
      returns (again: bool, ghost busy: bool)
      requires InPass(Stepping, generation, control, retained, retry)
      modifies host
      ensures InPass(if again then ReadingGeneration else Releasing, generation, control, retained, retry || busy)
      ensures Later()
      ensures old(host.Energy()) > 0 ==> host.Energy() < old(host.Energy())
      ensures old(host.Energy()) == 0 ==> again == retry
      ensures old(host.Energy()) == 0 && SettledBut(old(host.state), control, retained, generation)
        ==> Settled(host.state, retained, generation)
    {
      var eligible := StepEngine(generation, control, retained, retry);
      var b := FinishControl(eligible, generation, control, retained, retry);
      busy := b;
      again := eligible || retry || b;
    }

    method Depart(generation: Option<Uuid>, control: Option<Uuid>, retained: seq<Uuid>, ghost retry: bool)
      returns (won: bool)
      requires InPass(Releasing, generation, control, retained, retry)
      modifies host
      ensures Later()
      ensures if won then In(ReadingGeneration) else Gone()
      ensures old(host.Energy()) == 0 && Settled(old(host.state), retained, generation) ==> !won
    {
      Release(generation, control, retained, retry);
      var changed := Inspect(generation, control, retained, retry);
      won := LeaveOrContend(changed);
    }

    /** One turn of the outer loop. When nobody else can do anything any more, it is the last one. */
    method Pass() returns (again: bool)
      requires In(ReadingGeneration)
      modifies host
      ensures Later()
      ensures if again then In(ReadingGeneration) else Gone()
      ensures again ==> host.Energy() < old(host.Energy())
    {
      var generation, control, retained, retry := Gather();
      ghost var busy;
      again, busy := FinishPass(generation, control, retained, retry);
      if !again {
        again := Depart(generation, control, retained, retry || busy);
      }
    }

    /** Contends for the lock and works until it loses or nothing is left. Whatever the others do, the
        machine's history stays a run of the protocol, and once they are done this process ends. */
    method Run()
      requires In(Contending)
      modifies host
      ensures Gone() && Later()
    {
      var again := Acquire();
      while again
        invariant if again then In(ReadingGeneration) else Gone()
        invariant Later()
        decreases host.Energy(), again
      {
        again := Pass();
      }
    }
  }

  /** What remains of the files when the event in `control` has been acknowledged. */
  function AfterEvent(files: Files, control: Option<Uuid>): Files {
    if control.None? then files else files.(control := AfterAcknowledgment(files.control, control.value))
  }

  /** Nothing is new but, at most, the event that was read. */
  ghost predicate SettledBut(s: State, control: Option<Uuid>, retained: seq<Uuid>, generation: Option<Uuid>) {
    Ids(s.files.entries) == retained && Seen(s.files.control) == control && Generation(s.stored) == generation
  }

  /** A second look would find nothing new. */
  ghost predicate Settled(s: State, retained: seq<Uuid>, generation: Option<Uuid>) {
    Ids(s.files.entries) == retained && !s.files.control.Event? && Generation(s.stored) == generation
  }

  ghost predicate Lists(ids: seq<Uuid>, s: set<Uuid>) {
    Increasing(ids) && forall id :: id in ids <==> id in s
  }

  /** Handling the next listed descriptor either keeps it, or removes it from the list and from the inbox. */
  lemma Handled(retained: seq<Uuid>, ids: seq<Uuid>, entries: map<Uuid, Slot>, kept: bool)
    requires ids != [] && Lists(retained + ids, entries.Keys)
    ensures ids[0] in entries
    ensures if kept then Lists(retained + [ids[0]] + ids[1..], entries.Keys)
            else Lists(retained + ids[1..], (entries - {ids[0]}).Keys)
  {
    assert (retained + ids)[|retained|] == ids[0];
    if kept {
      assert retained + [ids[0]] + ids[1..] == retained + ids;
    } else {
      WithoutNext(retained, ids);
    }
  }
}
