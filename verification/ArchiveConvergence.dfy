/** Many clients reconciling candidates of one session against a server that honours conditions and
    remembers operations. Requests can be answered, lost on the way back, replayed and rejected. */
module ArchiveConvergence {
  import opened Options
  import opened ArchiveProtocol
  import opened ArchiveReconciler

  datatype Version = Version(entry: Entry, revision: Revision)

  /** `history` ends with the canonical version; `preserved` never shrinks; `receipts` are the operations
      the server has carried out. */
  datatype Server = Server(history: seq<Version>, preserved: set<Entry>, receipts: set<nat>)

  datatype Work = UploadVariant | KeepCurrent(base: Revision) | PublishOn(condition: Condition)

  datatype Phase = Fresh | Executing(op: nat, work: Work) | Done

  datatype Client = Client(candidate: Entry, phase: Phase)

  datatype System = System(server: Server, clients: map<nat, Client>, issued: set<nat>)

  /** The fixed surroundings: the digest, the session and the server's binding. */
  datatype World = World(sha: Body -> Digest, sessionId: Id, binding: Binding)

  datatype Action =
    | Start(id: nat, candidate: Entry)
    | Compare(id: nat, base: Option<nat>, known: bool, supported: bool, op: nat)
    | Send(id: nat, seqno: nat, lost: bool, op: nat)
    | LookUp(id: nat, op: nat)

  predicate Canonical(server: Server, revision: Revision) {
    server.history != [] && server.history[|server.history| - 1].revision == revision
  }

  function Current(server: Server): Version
    requires server.history != []
  {
    server.history[|server.history| - 1]
  }

  /** The server's answer to one operation: carried out once, or rejected because the base is stale. */
  function Perform(w: World, server: Server, op: nat, candidate: Entry, work: Work, seqno: nat): Option<Server> {
    if op in server.receipts then Some(server)
    else
      match work
      case UploadVariant =>
        Some(server.(preserved := server.preserved + {candidate}, receipts := server.receipts + {op}))
      case KeepCurrent(base) =>
        if Canonical(server, base) then
          Some(server.(preserved := server.preserved + {Current(server).entry}, receipts := server.receipts + {op}))
        else None
      case PublishOn(condition) =>
        if (if condition.Absent? then server.history == [] else Canonical(server, condition.revision)) then
          Some(server.(history := server.history + [Version(candidate, Revision(w.binding, seqno))],
                       receipts := server.receipts + {op}))
        else None
  }

  /** What a client does once an operation is known to be accepted; preserving the current version comes
      before the publication that depends on it. */
  function Accepted(work: Work, op: nat): Phase {
    match work
    case KeepCurrent(base) => Executing(op, PublishOn(ExactBase(base)))
    case _ => Done
  }

  function Decided(w: World, c: Client, remote: Option<Remote>, supported: bool, op: nat): Phase {
    match Reconcile(w.sha, w.sessionId, c.candidate, remote, supported)
    case Failure(_) => Fresh
    case Success(Covered(_)) => Done
    case Success(Publish(condition)) => Executing(op, PublishOn(condition))
    case Success(PreserveUploaded(_)) => Executing(op, UploadVariant)
    case Success(PreserveCurrentThenPublish(_, base)) => Executing(op, KeepCurrent(base))
    case Success(Defer(_)) => Fresh
  }

  function Seen(server: Server, base: Option<nat>, known: bool): Option<Remote>
    requires base.Some? ==> base.value < |server.history|
  {
    if base.None? then None
    else
      var v := server.history[base.value];
      Some(Remote(v.entry.body, v.revision, if known then Known(v.entry.metadata) else Unknown))
  }

  /** A client may compare with any version that was ever canonical: what it has read can be stale. Absence
      is verified. */
  predicate Enabled(s: System, a: Action) {
    match a
    case Start(id, _) => id !in s.clients
    case Compare(id, base, _, _, op) =>
      && id in s.clients && s.clients[id].phase.Fresh? && op !in s.issued
      && (if base.None? then s.server.history == [] else base.value < |s.server.history|)
    case Send(id, seqno, _, op) =>
      && id in s.clients && s.clients[id].phase.Executing? && op !in s.issued
      && (s.server.history != [] ==> seqno > Current(s.server).revision.seqno)
    case LookUp(id, op) =>
      id in s.clients && s.clients[id].phase.Executing? && op !in s.issued
  }

  function Next(w: World, s: System, a: Action): System
    requires Enabled(s, a)
  {
    match a
    case Start(id, candidate) => s.(clients := s.clients[id := Client(candidate, Fresh)])
    case Compare(id, base, known, supported, op) =>
      Turned(s, id, Decided(w, s.clients[id], Seen(s.server, base, known), supported, op), op)
    case Send(id, seqno, lost, op) =>
      var phase := s.clients[id].phase;
      var r := Perform(w, s.server, phase.op, s.clients[id].candidate, phase.work, seqno);
      if r.None? then if lost then s else Turned(s, id, Fresh, op)
      else if lost then s.(server := r.value)
      else Turned(s.(server := r.value), id, Accepted(phase.work, op), op)
    case LookUp(id, op) =>
      var phase := s.clients[id].phase;
      if phase.op in s.server.receipts then Turned(s, id, Accepted(phase.work, op), op) else s
  }

  function Turned(s: System, id: nat, phase: Phase, op: nat): System
    requires id in s.clients
  {
    s.(clients := s.clients[id := s.clients[id].(phase := phase)], issued := s.issued + {op})
  }

  // ---- Nothing is lost ----

  /** Some version that the server still keeps covers `e`. */
  ghost predicate Kept(server: Server, e: Entry) {
    || (server.history != [] && Covers(Current(server).entry, e))
    || exists p :: p in server.preserved && Covers(p, e)
  }

  ghost predicate Revisions(w: World, server: Server) {
    && (forall i :: 0 <= i < |server.history| ==> server.history[i].revision.binding == w.binding)
    && (forall i, j :: 0 <= i < j < |server.history| ==>
          server.history[i].revision.seqno < server.history[j].revision.seqno)
  }

  /** Every version that was ever canonical is well formed, still kept, and no better than the current one. */
  ghost predicate Superseded(w: World, server: Server, v: Version)
    requires server.history != []
  {
    && Decodes(v.entry.metadata, w.sessionId)
    && Kept(server, v.entry)
    && !Beats(w.sha, v.entry.body, Current(server).entry.body)
  }

  ghost predicate ServerInvariant(w: World, server: Server) {
    && Revisions(w, server)
    && forall i :: 0 <= i < |server.history| ==> Superseded(w, server, server.history[i])
  }

  /** Publishing `e` over the version at `revision` is an improvement that loses nothing. */
  ghost predicate Improves(w: World, server: Server, e: Entry, revision: Revision, safely: bool) {
    exists i :: 0 <= i < |server.history| && server.history[i].revision == revision
      && Beats(w.sha, e.body, server.history[i].entry.body)
      && (safely ==> Covers(e, server.history[i].entry) || server.history[i].entry in server.preserved)
  }

  ghost predicate Justified(w: World, server: Server, e: Entry, work: Work) {
    match work
    case UploadVariant => !Improvement(w, server, e)
    case KeepCurrent(base) => Improves(w, server, e, base, false)
    case PublishOn(Absent) => true
    case PublishOn(ExactBase(revision)) => Improves(w, server, e, revision, true)
  }

  ghost predicate Improvement(w: World, server: Server, e: Entry) {
    server.history == [] || Beats(w.sha, e.body, Current(server).entry.body)
  }

  /** An operation the server remembers has had its effect. */
  ghost predicate Effective(w: World, server: Server, e: Entry, work: Work) {
    match work
    case UploadVariant => e in server.preserved
    case KeepCurrent(base) => Improves(w, server, e, base, false) && KeptAt(server, base)
    case PublishOn(_) => Kept(server, e) && !Improvement(w, server, e)
  }

  ghost predicate KeptAt(server: Server, revision: Revision) {
    exists i :: 0 <= i < |server.history| && server.history[i].revision == revision
      && server.history[i].entry in server.preserved
  }

  ghost predicate ClientInvariant(w: World, server: Server, c: Client) {
    match c.phase
    case Fresh => true
    case Executing(op, work) =>
      && Decodes(c.candidate.metadata, w.sessionId)
      && Justified(w, server, c.candidate, work)
      && (op in server.receipts ==> Effective(w, server, c.candidate, work))
    case Done => Kept(server, c.candidate) && !Improvement(w, server, c.candidate)
  }

  /** Operations are told apart, and the server knows only issued ones. */
  ghost predicate Operations(s: System) {
    && (forall op :: op in s.server.receipts ==> op in s.issued)
    && (forall id :: id in s.clients && s.clients[id].phase.Executing? ==> s.clients[id].phase.op in s.issued)
    && (forall i, j :: i in s.clients && j in s.clients && i != j
          && s.clients[i].phase.Executing? && s.clients[j].phase.Executing?
          ==> s.clients[i].phase.op != s.clients[j].phase.op)
  }

  ghost predicate Invariant(w: World, s: System) {
    && ServerInvariant(w, s.server)
    && Operations(s)
    && forall id :: id in s.clients ==> ClientInvariant(w, s.server, s.clients[id])
  }

  // ---- How the server grows ----

  /** Nothing is removed, and a new canonical version improves on the one it replaces without losing it. */
  ghost predicate Grows(w: World, before: Server, after: Server) {
    && before.preserved <= after.preserved && before.receipts <= after.receipts
    && (after.history == before.history || Appended(w, before, after))
  }

  ghost predicate Appended(w: World, before: Server, after: Server) {
    && |after.history| == |before.history| + 1 && before.history <= after.history
    && (before.history != [] ==>
          && Beats(w.sha, Current(after).entry.body, Current(before).entry.body)
          && (Covers(Current(after).entry, Current(before).entry) || Current(before).entry in before.preserved))
  }

  /** Revisions identify versions, so an operation conditioned on one meets the version it was decided for. */
  lemma RevisionIdentifies(w: World, server: Server, i: nat, j: nat)
    requires Revisions(w, server) && i < |server.history| && j < |server.history|
    requires server.history[i].revision == server.history[j].revision
    ensures i == j
  {
  }

  lemma PerformGrows(w: World, server: Server, op: nat, candidate: Entry, work: Work, seqno: nat)
    requires ServerInvariant(w, server) && Justified(w, server, candidate, work)
    requires Perform(w, server, op, candidate, work, seqno).Some?
    ensures Grows(w, server, Perform(w, server, op, candidate, work, seqno).value)
  {
    if op !in server.receipts && work.PublishOn? && work.condition.ExactBase? {
      var i :| 0 <= i < |server.history| && server.history[i].revision == work.condition.revision
        && Beats(w.sha, candidate.body, server.history[i].entry.body)
        && (Covers(candidate, server.history[i].entry) || server.history[i].entry in server.preserved);
      RevisionIdentifies(w, server, i, |server.history| - 1);
    }
  }

  lemma KeptGrows(w: World, before: Server, after: Server, e: Entry)
    requires Grows(w, before, after) && Kept(before, e)
    ensures Kept(after, e)
  {
    if before.history != [] && Covers(Current(before).entry, e) && after.history != before.history {
      if Covers(Current(after).entry, Current(before).entry) {
        CoversTransitive(Current(after).entry, Current(before).entry, e);
      } else {
        assert Current(before).entry in after.preserved;
      }
    } else if p :| p in before.preserved && Covers(p, e) {
      assert p in after.preserved;
    }
  }

  lemma ImprovesGrows(w: World, before: Server, after: Server, e: Entry, revision: Revision, safely: bool)
    requires Grows(w, before, after) && Improves(w, before, e, revision, safely)
    ensures Improves(w, after, e, revision, safely)
  {
    var i :| 0 <= i < |before.history| && before.history[i].revision == revision
      && Beats(w.sha, e.body, before.history[i].entry.body)
      && (safely ==> Covers(e, before.history[i].entry) || before.history[i].entry in before.preserved);
    assert after.history[i] == before.history[i];
  }

  lemma ClientGrows(w: World, before: Server, after: Server, c: Client)
    requires Grows(w, before, after) && ClientInvariant(w, before, c)
    requires c.phase.Executing? && c.phase.op in after.receipts ==> c.phase.op in before.receipts
    ensures ClientInvariant(w, after, c)
  {
    match c.phase
    case Fresh =>
    case Done => KeptGrows(w, before, after, c.candidate);
    case Executing(op, work) =>
      match work {
        case UploadVariant =>
        case KeepCurrent(base) =>
          ImprovesGrows(w, before, after, c.candidate, base, false);
          if op in before.receipts {
            var i :| 0 <= i < |before.history| && before.history[i].revision == base
              && before.history[i].entry in before.preserved;
            assert after.history[i] == before.history[i];
          }
        case PublishOn(condition) =>
          if condition.ExactBase? {
            ImprovesGrows(w, before, after, c.candidate, condition.revision, true);
          }
          if op in before.receipts {
            KeptGrows(w, before, after, c.candidate);
          }
      }
  }

  lemma ServerInvariantGrows(w: World, before: Server, after: Server)
    requires ServerInvariant(w, before) && Grows(w, before, after) && Revisions(w, after)
    requires after.history != before.history ==> Decodes(Current(after).entry.metadata, w.sessionId)
    ensures ServerInvariant(w, after)
  {
    forall i | 0 <= i < |after.history| ensures Superseded(w, after, after.history[i]) {
      if i < |before.history| {
        assert after.history[i] == before.history[i] && Superseded(w, before, before.history[i]);
        KeptGrows(w, before, after, before.history[i].entry);
      } else {
        assert Covers(Current(after).entry, after.history[i].entry);
      }
    }
  }

  // ---- One client's steps ----

  lemma DecidedJustified(w: World, server: Server, c: Client, base: Option<nat>, known: bool, supported: bool, op: nat)
    requires ServerInvariant(w, server) && op !in server.receipts
    requires if base.None? then server.history == [] else base.value < |server.history|
    ensures ClientInvariant(w, server, c.(phase := Decided(w, c, Seen(server, base, known), supported, op)))
  {
    if base.Some? && known && Decodes(c.candidate.metadata, w.sessionId) {
      var v := server.history[base.value];
      assert Superseded(w, server, v);
      assert Reconcile(w.sha, w.sessionId, c.candidate, Seen(server, base, known), supported)
        == Success(Decide(w.sha, c.candidate, v.entry, v.revision, supported));
      UnsupportedOnlyDefers(w.sha, c.candidate, v.entry, v.revision);
      DecisionMeaning(w.sha, c.candidate, v.entry, v.revision);
      ReplacesIffBeats(w.sha, c.candidate, v.entry, v.revision);
      if Decide(w.sha, c.candidate, v.entry, v.revision, supported).Covered? {
        KeptThrough(server, v.entry, c.candidate);
      }
    }
  }

  lemma KeptThrough(server: Server, middle: Entry, e: Entry)
    requires Kept(server, middle) && Covers(middle, e)
    ensures Kept(server, e)
  {
    if server.history != [] && Covers(Current(server).entry, middle) {
      CoversTransitive(Current(server).entry, middle, e);
    } else {
      var p :| p in server.preserved && Covers(p, middle);
      CoversTransitive(p, middle, e);
    }
  }

  lemma PerformEffective(w: World, server: Server, op: nat, e: Entry, work: Work, seqno: nat)
    requires ServerInvariant(w, server) && Justified(w, server, e, work)
    requires op in server.receipts ==> Effective(w, server, e, work)
    requires Perform(w, server, op, e, work, seqno).Some?
    ensures Effective(w, Perform(w, server, op, e, work, seqno).value, e, work)
  {
    var after := Perform(w, server, op, e, work, seqno).value;
    if op !in server.receipts {
      match work
      case UploadVariant =>
      case KeepCurrent(base) =>
        PerformGrows(w, server, op, e, work, seqno);
        ImprovesGrows(w, server, after, e, base, false);
        assert after.history[|after.history| - 1].entry in after.preserved;
      case PublishOn(_) =>
        assert Covers(Current(after).entry, e);
    }
  }

  lemma PerformRevisions(w: World, server: Server, op: nat, e: Entry, work: Work, seqno: nat)
    requires Revisions(w, server) && (server.history != [] ==> seqno > Current(server).revision.seqno)
    requires Perform(w, server, op, e, work, seqno).Some?
    ensures Revisions(w, Perform(w, server, op, e, work, seqno).value)
  {
  }

  lemma AcceptedInvariant(w: World, server: Server, e: Entry, work: Work, op: nat)
    requires ServerInvariant(w, server) && Decodes(e.metadata, w.sessionId)
    requires Justified(w, server, e, work) && Effective(w, server, e, work) && op !in server.receipts
    ensures ClientInvariant(w, server, Client(e, Accepted(work, op)))
  {
    match work
    case UploadVariant => assert Covers(e, e);
    case KeepCurrent(base) =>
      var i :| 0 <= i < |server.history| && server.history[i].revision == base
        && Beats(w.sha, e.body, server.history[i].entry.body);
      var j :| 0 <= j < |server.history| && server.history[j].revision == base
        && server.history[j].entry in server.preserved;
      RevisionIdentifies(w, server, i, j);
    case PublishOn(_) =>
  }

  lemma JustifiedGrows(w: World, before: Server, after: Server, e: Entry, work: Work)
    requires Grows(w, before, after) && Justified(w, before, e, work)
    ensures Justified(w, after, e, work)
  {
    match work
    case UploadVariant =>
    case KeepCurrent(base) => ImprovesGrows(w, before, after, e, base, false);
    case PublishOn(condition) =>
      if condition.ExactBase? {
        ImprovesGrows(w, before, after, e, condition.revision, true);
      }
  }

  lemma SendKeeps(w: World, s: System, a: Action)
    requires Invariant(w, s) && Enabled(s, a) && a.Send?
    ensures Invariant(w, Next(w, s, a))
  {
    var c, n := s.clients[a.id], Next(w, s, a);
    var e, work := c.candidate, c.phase.work;
    assert ClientInvariant(w, s.server, c);
    var r := Perform(w, s.server, c.phase.op, e, work, a.seqno);
    if r.Some? {
      PerformGrows(w, s.server, c.phase.op, e, work, a.seqno);
      PerformRevisions(w, s.server, c.phase.op, e, work, a.seqno);
      PerformEffective(w, s.server, c.phase.op, e, work, a.seqno);
      ServerInvariantGrows(w, s.server, r.value);
      JustifiedGrows(w, s.server, r.value, e, work);
      AcceptedInvariant(w, r.value, e, work, a.op);
      OthersGrow(w, s, r.value, a.id);
      assert forall id :: id in n.clients && id != a.id ==> n.clients[id] == s.clients[id];
    }
  }

  lemma OthersGrow(w: World, s: System, after: Server, id: nat)
    requires Invariant(w, s) && Grows(w, s.server, after)
    requires forall other :: other in s.clients && other != id && s.clients[other].phase.Executing? ==>
      s.clients[other].phase.op in after.receipts ==> s.clients[other].phase.op in s.server.receipts
    ensures forall other :: other in s.clients && other != id ==> ClientInvariant(w, after, s.clients[other])
  {
    forall other | other in s.clients && other != id ensures ClientInvariant(w, after, s.clients[other]) {
      assert ClientInvariant(w, s.server, s.clients[other]);
      ClientGrows(w, s.server, after, s.clients[other]);
    }
  }

  lemma TurnKeeps(w: World, s: System, id: nat, phase: Phase, op: nat)
    requires Invariant(w, s) && id in s.clients && op !in s.issued
    requires ClientInvariant(w, s.server, s.clients[id].(phase := phase))
    requires phase.Executing? ==> phase.op == op
    ensures Invariant(w, Turned(s, id, phase, op))
  {
  }

  lemma StepKeeps(w: World, s: System, a: Action)
    requires Invariant(w, s) && Enabled(s, a)
    ensures Invariant(w, Next(w, s, a))
  {
    match a
    case Start(_, _) =>
    case Compare(id, base, known, supported, op) =>
      DecidedJustified(w, s.server, s.clients[id], base, known, supported, op);
      TurnKeeps(w, s, id, Decided(w, s.clients[id], Seen(s.server, base, known), supported, op), op);
    case Send(_, _, _, _) => SendKeeps(w, s, a);
    case LookUp(id, op) =>
      var c := s.clients[id];
      assert ClientInvariant(w, s.server, c);
      if c.phase.op in s.server.receipts {
        AcceptedInvariant(w, s.server, c.candidate, c.phase.work, op);
        TurnKeeps(w, s, id, Accepted(c.phase.work, op), op);
      }
  }

  // ---- Whole runs ----

  /** The server holds at most one version of the session, well formed; nobody has started. */
  ghost predicate Init(w: World, s: System) {
    && |s.server.history| <= 1
    && (forall v :: v in s.server.history ==>
          v.revision.binding == w.binding && Decodes(v.entry.metadata, w.sessionId))
    && s.server.receipts == {} && s.issued == {} && s.clients == map[]
  }

  ghost predicate IsRun(w: World, states: seq<System>, actions: seq<Action>) {
    && |states| == |actions| + 1 && Init(w, states[0])
    && forall i :: 0 <= i < |actions| ==> StepAt(w, states, actions, i)
  }

  ghost predicate StepAt(w: World, states: seq<System>, actions: seq<Action>, i: nat)
    requires |states| == |actions| + 1 && i < |actions|
  {
    Enabled(states[i], actions[i]) && states[i + 1] == Next(w, states[i], actions[i])
  }

  /** The bodies that took part: the initial canonical one and every candidate's. */
  ghost predicate TookPart(first: System, s: System, body: Body) {
    || (exists v :: v in first.server.history && v.entry.body == body)
    || (exists id :: id in s.clients && s.clients[id].candidate.body == body)
  }

  /** Canonical versions come from the participants, and a version once there leaves only by being beaten. */
  ghost predicate Origins(first: System, s: System) {
    && first.server.history <= s.server.history
    && forall v :: v in s.server.history ==> TookPart(first, s, v.entry.body)
  }

  lemma OriginsKept(w: World, first: System, s: System, a: Action)
    requires Origins(first, s) && Enabled(s, a)
    ensures Origins(first, Next(w, s, a))
  {
    var n := Next(w, s, a);
    assert forall id :: id in s.clients ==> id in n.clients && n.clients[id].candidate == s.clients[id].candidate;
    forall v | v in n.server.history ensures TookPart(first, n, v.entry.body) {
      if v in s.server.history {
        assert TookPart(first, s, v.entry.body);
      } else {
        assert a.Send? && v.entry == n.clients[a.id].candidate;
      }
    }
  }

  lemma {:induction false} Always(w: World, states: seq<System>, actions: seq<Action>, i: nat)
    requires IsRun(w, states, actions) && i < |states|
    ensures Invariant(w, states[i]) && Origins(states[0], states[i])
  {
    if i == 0 {
      InitInvariant(w, states[0]);
    } else {
      Always(w, states, actions, i - 1);
      assert StepAt(w, states, actions, i - 1);
      StepKeeps(w, states[i - 1], actions[i - 1]);
      OriginsKept(w, states[0], states[i - 1], actions[i - 1]);
    }
  }

  lemma InitInvariant(w: World, s: System)
    requires Init(w, s)
    ensures Invariant(w, s) && Origins(s, s)
  {
    forall i | 0 <= i < |s.server.history| ensures Superseded(w, s.server, s.server.history[i]) {
      assert s.server.history[i] in s.server.history;
      assert Covers(Current(s.server).entry, s.server.history[i].entry);
    }
  }

  /** No history is lost: a candidate whose decision completed, and every version that was ever canonical,
      is a prefix of the canonical or of a preserved body whose metadata carries its assertions. */
  lemma NoHistoryLost(w: World, states: seq<System>, actions: seq<Action>, i: nat)
    requires IsRun(w, states, actions) && i < |states|
    ensures forall id :: id in states[i].clients && states[i].clients[id].phase.Done? ==>
      Kept(states[i].server, states[i].clients[id].candidate)
    ensures forall v :: v in states[i].server.history ==> Kept(states[i].server, v.entry)
  {
    Always(w, states, actions, i);
    var s := states[i];
    forall id | id in s.clients && s.clients[id].phase.Done? ensures Kept(s.server, s.clients[id].candidate) {
      assert ClientInvariant(w, s.server, s.clients[id]);
    }
    forall v | v in s.server.history ensures Kept(s.server, v.entry) {
      var j :| 0 <= j < |s.server.history| && s.server.history[j] == v;
      assert Superseded(w, s.server, s.server.history[j]);
    }
  }

  ghost predicate AllDone(s: System) {
    s.clients != map[] && forall id :: id in s.clients ==> s.clients[id].phase.Done?
  }

  /** Once every client is done, whatever they did in between, the canonical body is the greatest that
      took part, by length and then by digest. */
  lemma Greatest(w: World, states: seq<System>, actions: seq<Action>, i: nat)
    requires IsRun(w, states, actions) && i < |states| && AllDone(states[i])
    ensures states[i].server.history != []
    ensures TookPart(states[0], states[i], Current(states[i].server).entry.body)
    ensures forall body :: TookPart(states[0], states[i], body) ==>
      !Beats(w.sha, body, Current(states[i].server).entry.body)
  {
    Always(w, states, actions, i);
    var s := states[i];
    var someone :| someone in s.clients;
    assert ClientInvariant(w, s.server, s.clients[someone]);
    assert Current(s.server) in s.server.history;
    forall body | TookPart(states[0], s, body) ensures !Beats(w.sha, body, Current(s.server).entry.body) {
      if v :| v in states[0].server.history && v.entry.body == body {
        var j :| 0 <= j < |states[0].server.history| && states[0].server.history[j] == v;
        assert Superseded(w, s.server, s.server.history[j]);
      } else {
        var id :| id in s.clients && s.clients[id].candidate.body == body;
        assert ClientInvariant(w, s.server, s.clients[id]);
      }
    }
  }

  ghost predicate DigestsDiffer(w: World, first: System, s: System) {
    forall a, b :: TookPart(first, s, a) && TookPart(first, s, b) && a != b ==> w.sha(a) != w.sha(b)
  }

  /** Order independence: two runs in which the same bodies took part end with the same canonical body,
      however their steps interleaved, if the digest tells those bodies apart. */
  lemma OrderIndependent(w: World, states: seq<System>, actions: seq<Action>, i: nat,
                         states': seq<System>, actions': seq<Action>, i': nat)
    requires IsRun(w, states, actions) && i < |states| && AllDone(states[i])
    requires IsRun(w, states', actions') && i' < |states'| && AllDone(states'[i'])
    requires forall body :: TookPart(states[0], states[i], body) <==> TookPart(states'[0], states'[i'], body)
    requires DigestsDiffer(w, states[0], states[i])
    ensures states[i].server.history != [] && states'[i'].server.history != []
    ensures Current(states[i].server).entry.body == Current(states'[i'].server).entry.body
  {
    Greatest(w, states, actions, i);
    Greatest(w, states', actions', i');
  }

  /** Reconciling the canonical version once more finds it covered. */
  lemma Settled(w: World, states: seq<System>, actions: seq<Action>, i: nat, supported: bool)
    requires IsRun(w, states, actions) && i < |states| && states[i].server.history != []
    ensures var v := Current(states[i].server);
      Reconcile(w.sha, w.sessionId, v.entry, Some(Remote(v.entry.body, v.revision, Known(v.entry.metadata))), supported)
      == Success(Covered(v.revision))
  {
    Always(w, states, actions, i);
    assert Superseded(w, states[i].server, Current(states[i].server));
  }

  // ---- One client left alone ----

  ghost predicate Unused(s: System, op: nat) {
    forall o :: o in s.issued ==> o < op
  }

  /** The client's next move when nobody interferes: compare with the canonical version, then send. */
  function Advance(w: World, s: System, id: nat, op: nat): System
    requires id in s.clients && op !in s.issued
  {
    var history := s.server.history;
    match s.clients[id].phase
    case Fresh => Next(w, s, Compare(id, if history == [] then None else Some(|history| - 1), true, true, op))
    case Executing(_, _) =>
      Next(w, s, Send(id, if history == [] then 1 else Current(s.server).revision.seqno + 1, false, op))
    case Done => s
  }

  lemma SentAlone(w: World, s: System, id: nat, op: nat)
    requires Unused(s, op) && id in s.clients && s.clients[id].phase.Executing?
    requires match s.clients[id].phase.work
      case UploadVariant => true
      case KeepCurrent(base) => Canonical(s.server, base)
      case PublishOn(Absent) => s.server.history == []
      case PublishOn(ExactBase(base)) => Canonical(s.server, base)
    ensures var n := Advance(w, s, id, op);
      && Unused(n, op + 1) && id in n.clients
      && if s.clients[id].phase.work.KeepCurrent? then
           var base := s.clients[id].phase.work.base;
           n.clients[id].phase == Executing(op, PublishOn(ExactBase(base))) && Canonical(n.server, base)
         else n.clients[id].phase.Done?
  {
  }

  /** With preservation supported and coherent metadata, an undisturbed client is done after at most one
      comparison and two requests. */
  lemma FinishesAlone(w: World, s: System, id: nat, op: nat)
    requires Invariant(w, s) && Unused(s, op)
    requires id in s.clients && s.clients[id].phase.Fresh?
    requires Decodes(s.clients[id].candidate.metadata, w.sessionId)
    ensures var compared := Advance(w, s, id, op);
      && Unused(compared, op + 1) && id in compared.clients
      && var sent := Advance(w, compared, id, op + 1);
      && Unused(sent, op + 2) && id in sent.clients
      && var published := Advance(w, sent, id, op + 2);
      id in published.clients && published.clients[id].phase.Done?
  {
    var compared := Advance(w, s, id, op);
    if s.server.history != [] {
      var v := Current(s.server);
      assert Superseded(w, s.server, v);
      DecisionMeaning(w.sha, s.clients[id].candidate, v.entry, v.revision);
    }
    if compared.clients[id].phase.Executing? {
      SentAlone(w, compared, id, op + 1);
      var sent := Advance(w, compared, id, op + 1);
      if sent.clients[id].phase.Executing? {
        SentAlone(w, sent, id, op + 2);
      }
    }
  }
}
