/** The durable inbox: descriptor files, one control file, and the lock that guards their changes. */
module ArchiveInbox {
  import opened Options
  import opened Uuids
  import opened Handoff
  import opened ArchiveHost

  class Inbox {
    const host: Host

    constructor (host: Host)
      ensures this.host == host
    {
      this.host := host;
    }

    /** `answer` is whether the wait for the lock ran out although the lock was free. */
    method LockAcquired(answer: bool) returns (acquired: bool)
      ensures acquired <==> InboxFree(host.state) && !answer
    {
      acquired := !host.state.edit.Announced? && !answer;
    }

    /** Admits a descriptor unless it collides with, or cannot be told from, one that is already there. */
    method Publish(m: Manifest, answer: bool) returns (r: Result<Manifest, Refusal>)
      modifies host`state
      ensures host.state == old(host.state).(files := host.state.files)
      ensures host.state.files == old(host.state.files).(entries := host.state.files.entries)
      ensures r.Failure? ==> host.state == old(host.state)
      ensures r.Success? ==> r.value == m
      ensures var before := old(host.state);
        if !InboxFree(before) || answer then r == Failure(Refusal.Busy)
        else if Admit(before.files.entries, m).Failure? then r == Failure(Admit(before.files.entries, m).error)
        else r.Success? && host.state.files.entries == before.files.entries[m.id := Descriptor(m)]
      ensures r.Success? <==> Enabled(old(host.state), Action.Publish(m)) && !answer
      ensures r.Success? ==> host.state.files == Next(old(host.state), Action.Publish(m)).files
    {
      var acquired := LockAcquired(answer);
      if !acquired {
        return Failure(Refusal.Busy);
      }
      var entries := host.state.files.entries;
      if m.id in entries {
        var existing := ReadManifest(m.id);
        if existing.Failure? {
          return Failure(existing.error);
        }
        if existing.value != Some(m) {
          return Failure(Collision);
        }
        assert entries == entries[m.id := Descriptor(m)];
        return Success(m);
      }
      var ids := ListIds();
      LengthOfSorted(entries.Keys);
      assert |entries| == |entries.Keys|;
      if |ids| >= MAX_DESCRIPTORS {
        return Failure(Full);
      }
      host.state := host.state.(files := host.state.files.(entries := entries[m.id := Descriptor(m)]));
      return Success(m);
    }

    method ListIds() returns (ids: seq<Uuid>)
      ensures ids == Ids(host.state.files.entries)
    {
      ids := Sorted(host.state.files.entries.Keys);
    }

    method ReadManifest(id: Uuid) returns (r: Result<Option<Manifest>, Refusal>)
      ensures var entries := host.state.files.entries;
        if id !in entries then r == Success(None)
        else if entries[id].Descriptor? && entries[id].manifest.id == id then r == Success(Some(entries[id].manifest))
        else r == Failure(Invalid)
    {
      var entries := host.state.files.entries;
      if id !in entries {
        return Success(None);
      }
      if entries[id].Damaged? || entries[id].manifest.id != id {
        return Failure(Invalid);
      }
      return Success(Some(entries[id].manifest));
    }

    method ReadControl() returns (r: Result<Option<Uuid>, Refusal>)
      ensures match host.state.files.control
        case NoControl => r == Success(None)
        case Event(token) => r == Success(Some(token))
        case DamagedControl => r == Failure(Invalid)
    {
      match host.state.files.control
      case NoControl => r := Success(None);
      case Event(token) => r := Success(Some(token));
      case DamagedControl => r := Failure(Invalid);
    }

    /** Removes a descriptor; removing one that is already gone succeeds. */
    method Acknowledge(id: Uuid, answer: bool) returns (r: Result<(), Refusal>)
      modifies host`state
      ensures r == (if InboxFree(old(host.state)) && !answer then Success(()) else Failure(Refusal.Busy))
      ensures r.Failure? ==> host.state == old(host.state)
      ensures r.Success? ==> host.state == old(host.state).(files := host.state.files)
      ensures r.Success? ==> host.state.files == old(host.state.files).(entries := old(host.state.files.entries) - {id})
    {
      var acquired := LockAcquired(answer);
      if !acquired {
        return Failure(Refusal.Busy);
      }
      host.state := host.state.(files := host.state.files.(entries := host.state.files.entries - {id}));
      return Success(());
    }

    /** Removes the control event only while it is still the one that was read. */
    method AcknowledgeControl(token: Uuid, answer: bool) returns (r: Result<(), Refusal>)
      modifies host`state
      ensures !InboxFree(old(host.state)) || answer ==> r == Failure(Refusal.Busy)
      ensures InboxFree(old(host.state)) && !answer ==>
        r == (if old(host.state.files.control) == DamagedControl then Failure(Invalid) else Success(()))
      ensures r.Failure? ==> host.state == old(host.state)
      ensures r.Success? ==> host.state == old(host.state).(files := host.state.files)
      ensures r.Success? ==> (host.state.files ==
        old(host.state.files).(control := AfterAcknowledgment(old(host.state.files.control), token)))
    {
      var acquired := LockAcquired(answer);
      if !acquired {
        return Failure(Refusal.Busy);
      }
      var current := ReadControl();
      if current.Failure? {
        return Failure(current.error);
      }
      if current.value == Some(token) {
        host.state := host.state.(files := host.state.files.(control := NoControl));
      }
      return Success(());
    }
  }

  lemma {:induction false} LengthOfSorted(s: set<Uuid>)
    ensures |Sorted(s)| == |s|
    decreases s
  {
    if s != {} {
      var m := Sorted(s)[0];
      assert Sorted(s)[1..] == Sorted(s - {m});
      LengthOfSorted(s - {m});
    }
  }
}
