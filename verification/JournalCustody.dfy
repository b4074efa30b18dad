/** What every sequence of journal operations keeps: captured bytes, the chain of accepted snapshots, and
    the retained-byte budget. */
module JournalCustody {
  import opened Options
  import opened ArchiveProtocol
  import opened JournalTables

  datatype Operation =
    | CaptureSnapshot(profile: Profile, snapshot: Snapshot)
    | PrepareSnapshot(profile: Profile, snapshot: Snapshot, operationId: nat)
    | PromoteCapture(profile: Profile, captureId: Digest, operationId: nat)
    | AcceptReceipt(origin: string, receipt: Receipt)

  datatype Acceptance = Acceptance(receipt: Receipt, body: Body)

  /** The tables with what they no longer show: the accepted bodies of each session, in order, and every
      snapshot whose retention was reported. */
  datatype State = State(tables: Tables, accepted: map<(Profile, Id), seq<Acceptance>>, evidence: set<(Profile, Capture)>)

  ghost function After(h: Hash, limit: nat, t: Tables, op: Operation): Tables {
    match op
    case CaptureSnapshot(profile, s) =>
      var c := Normalize(h, s);
      if c.Success? && Store(h, limit, t, profile, c.value).Success? then Store(h, limit, t, profile, c.value).value else t
    case PrepareSnapshot(profile, s, id) => Prepare(h, limit, t, profile, s, id).0
    case PromoteCapture(profile, captureId, id) =>
      var r := Promote(h, t, profile, captureId, id);
      if r.Success? then r.value.0 else t
    case AcceptReceipt(origin, receipt) =>
      var r := Accept(h, t, origin, receipt);
      if r.Success? then r.value else t
  }

  function Log(s: State, key: (Profile, Id)): seq<Acceptance> {
    if key in s.accepted then s.accepted[key] else []
  }

  /** The receipt is the answer to the pending operation of its session. */
  predicate Answers(h: Hash, t: Tables, origin: string, receipt: Receipt) {
    var key := (Profile(origin, receipt.request.binding), receipt.request.sessionId);
    ValidReceipt(receipt) && key in t.uploads && ValidRow(h, key, t.uploads[key])
    && t.uploads[key].pending.Some? && t.uploads[key].pending.value.request == receipt.request
  }

  ghost function Evidence(h: Hash, limit: nat, t: Tables, op: Operation): set<(Profile, Capture)> {
    match op
    case CaptureSnapshot(profile, s) =>
      var c := Normalize(h, s);
      if c.Success? && Store(h, limit, t, profile, c.value).Success? then {(profile, c.value)} else {}
    case PrepareSnapshot(profile, s, id) =>
      var c := Normalize(h, s);
      var (after, r) := Prepare(h, limit, t, profile, s, id);
      if c.Success? && (r.Success? || (profile, h.fingerprint(c.value.summary)) in after.captures)
      then {(profile, c.value)} else {}
    case _ => {}
  }

  ghost function Step(h: Hash, limit: nat, s: State, op: Operation): State {
    var tables := After(h, limit, s.tables, op);
    var evidence := s.evidence + Evidence(h, limit, s.tables, op);
    if op.AcceptReceipt? && Answers(h, s.tables, op.origin, op.receipt) then
      var key := (Profile(op.origin, op.receipt.request.binding), op.receipt.request.sessionId);
      State(tables, s.accepted[key := Log(s, key) + [Acceptance(op.receipt, s.tables.uploads[key].pending.value.body)]], evidence)
    else State(tables, s.accepted, evidence)
  }

  // ---- The invariant ----

  /** The captures that an operation takes. */
  function Taken(h: Hash, op: Operation): set<Capture> {
    if (op.CaptureSnapshot? || op.PrepareSnapshot?) && Normalize(h, op.snapshot).Success?
    then {Normalize(h, op.snapshot).value} else {}
  }

  function AllTaken(h: Hash, ops: seq<Operation>): set<Capture> {
    if ops == [] then {} else Taken(h, ops[0]) + AllTaken(h, ops[1..])
  }

  /** The digests do not confuse these captures: neither their summaries nor a body with the beginning of another. */
  ghost predicate CollisionFree(h: Hash, seen: set<Capture>) {
    && (forall a, b :: a in seen && b in seen ==> DistinctBodies(h, a.body, b.body))
    && (forall a, b :: a in seen && b in seen && h.fingerprint(a.summary) == h.fingerprint(b.summary) ==> a.summary == b.summary)
  }

  predicate DistinctBodies(h: Hash, a: Body, b: Body) {
    |b| <= |a| && h.sha(a[..|b|]) == h.sha(b) ==> b <= a
  }

  predicate BodyOf(seen: set<Capture>, body: Body) {
    exists c :: c in seen && c.body == body
  }

  /** All that the journal holds, held or reported was taken by its operations. */
  ghost predicate Tracked(s: State, seen: set<Capture>) {
    && s.tables.captures.Values <= seen
    && (forall key :: key in s.tables.uploads && s.tables.uploads[key].pending.Some? ==>
          BodyOf(seen, s.tables.uploads[key].pending.value.body))
    && (forall key :: key in s.accepted ==> forall i :: 0 <= i < |s.accepted[key]| ==> BodyOf(seen, s.accepted[key][i].body))
    && (forall e :: e in s.evidence ==> e.1 in seen)
  }

  ghost predicate AllValid(h: Hash, t: Tables) {
    && (forall key :: key in t.uploads ==> ValidRow(h, key, t.uploads[key]))
    && (forall key :: key in t.captures ==> ValidCapture(h, key, t.captures[key]))
  }

  predicate Accepts(h: Hash, key: (Profile, Id), a: Acceptance) {
    && ValidReceipt(a.receipt)
    && a.receipt.request.sessionId == key.1 && a.receipt.request.binding == key.0.binding
    && |a.body| == a.receipt.request.byteLength && h.sha(a.body) == a.receipt.request.sha256
  }

  /** Each accepted snapshot extends the one before it and has a later revision, which it was conditioned on. */
  predicate Follows(before: Acceptance, after: Acceptance) {
    && before.body <= after.body
    && after.receipt.request.condition == ExactBase(before.receipt.revision)
    && before.receipt.revision.seqno < after.receipt.revision.seqno
  }

  ghost predicate Chain(h: Hash, key: (Profile, Id), log: seq<Acceptance>) {
    && (forall i :: 0 <= i < |log| ==> Accepts(h, key, log[i]))
    && (forall i :: 0 < i < |log| ==> Follows(log[i - 1], log[i]))
  }

  /** A row remembers the last acceptance, and what is pending was prepared on top of it. */
  predicate RowFollows(row: Row, log: seq<Acceptance>) {
    && row.accepted == (if log == [] then None else Some(log[|log| - 1].receipt))
    && (row.pending.Some? ==>
          if log == [] then row.pending.value.request.condition == Absent
          else row.pending.value.request.condition == ExactBase(log[|log| - 1].receipt.revision)
               && log[|log| - 1].body <= row.pending.value.body)
  }

  ghost predicate History(h: Hash, s: State) {
    && (forall key :: key in s.tables.uploads ==> RowFollows(s.tables.uploads[key], Log(s, key)))
    && (forall key :: key in s.accepted ==> key in s.tables.uploads && Chain(h, key, s.accepted[key]))
  }

  /** The snapshot's bytes are captured, pending or accepted, under its own metadata. */
  ghost predicate Held(h: Hash, s: State, profile: Profile, c: Capture) {
    || IsCaptured(h, s.tables, profile, c)
    || IsPending(s.tables, profile, c)
    || WasAccepted(Log(s, (profile, c.summary.sessionId)), c)
  }

  ghost predicate WasAccepted(log: seq<Acceptance>, c: Capture) {
    exists i :: 0 <= i < |log| && IsAcceptance(log[i], c)
  }

  predicate IsCaptured(h: Hash, t: Tables, profile: Profile, c: Capture) {
    var key := (profile, h.fingerprint(c.summary));
    key in t.captures && t.captures[key] == c
  }

  predicate IsPending(t: Tables, profile: Profile, c: Capture) {
    var key := (profile, c.summary.sessionId);
    key in t.uploads && t.uploads[key].pending.Some? && t.uploads[key].pending.value.body == c.body
    && Matches(t.uploads[key].pending.value.request, c.summary)
  }

  predicate IsAcceptance(a: Acceptance, c: Capture) {
    a.body == c.body && Matches(a.receipt.request, c.summary)
  }

  ghost predicate Custody(h: Hash, s: State) {
    forall e :: e in s.evidence ==> Held(h, s, e.0, e.1)
  }

  ghost predicate Invariant(h: Hash, s: State) {
    AllValid(h, s.tables) && History(h, s) && Custody(h, s)
  }

  // ---- Each operation ----

  lemma StoreHolds(h: Hash, limit: nat, t: Tables, profile: Profile, c: Capture, seen: set<Capture>)
    requires CollisionFree(h, seen) && AllValid(h, t) && t.captures.Values <= seen && c in seen
    requires ValidCapture(h, (profile, h.fingerprint(c.summary)), c)
    requires Store(h, limit, t, profile, c).Success?
    ensures var after := Store(h, limit, t, profile, c).value;
      AllValid(h, after) && IsCaptured(h, after, profile, c) && after.uploads == t.uploads
      && forall key :: key in t.captures ==> key in after.captures && after.captures[key] == t.captures[key]
  {
    if (profile, h.fingerprint(c.summary)) in t.captures {
      SameCapture(h, t, profile, c, seen);
    }
  }

  /** What is stored under the fingerprint of a capture is this capture. */
  lemma SameCapture(h: Hash, t: Tables, profile: Profile, c: Capture, seen: set<Capture>)
    requires CollisionFree(h, seen) && AllValid(h, t) && t.captures.Values <= seen && c in seen
    requires ValidCapture(h, (profile, h.fingerprint(c.summary)), c)
    requires (profile, h.fingerprint(c.summary)) in t.captures
    ensures t.captures[(profile, h.fingerprint(c.summary))] == c
  {
    var d := t.captures[(profile, h.fingerprint(c.summary))];
    assert d in t.captures.Values && d.summary == c.summary;
    SameBody(h, d.body, c.body);
  }

  lemma SameBody(h: Hash, a: Body, b: Body)
    requires DistinctBodies(h, a, b) && |a| == |b| && h.sha(a) == h.sha(b)
    ensures a == b
  {
    assert a[..|b|] == a;
  }

  /** Promotion moves the one capture and touches nothing else. */
  lemma PromoteHolds(h: Hash, t: Tables, profile: Profile, captureId: Digest, operationId: nat)
    requires AllValid(h, t) && Promote(h, t, profile, captureId, operationId).Success?
    ensures var (after, prepared) := Promote(h, t, profile, captureId, operationId).value;
      var key := (profile, captureId);
      && AllValid(h, after) && key in t.captures
      && (forall k :: k in t.captures && k != key ==> k in after.captures && after.captures[k] == t.captures[k])
      && (forall k :: k in after.captures ==> k in t.captures && after.captures[k] == t.captures[k])
  {
  }

  /** A captured body that is the accepted one, or extends it, really is or extends it. */
  lemma AcceptedBody(h: Hash, key: (Profile, Id), last: Acceptance, c: Capture, seen: set<Capture>)
    requires CollisionFree(h, seen) && BodyOf(seen, last.body) && c in seen
    requires Accepts(h, key, last) && |c.body| == c.summary.byteLength && h.sha(c.body) == c.summary.sha256
    ensures Matches(last.receipt.request, c.summary) ==> IsAcceptance(last, c)
    ensures Extends(h, c.body, last.receipt.request) ==> last.body <= c.body
  {
    assert DistinctBodies(h, c.body, last.body);
    if Matches(last.receipt.request, c.summary) {
      SameBody(h, c.body, last.body);
    }
  }

  function AcceptedOf(t: Tables, key: (Profile, Id)): Option<Receipt> {
    if key in t.uploads then t.uploads[key].accepted else None
  }

  /** What a promotion writes, if anything: the capture's body as a pending extension of the accepted one. */
  lemma PromotedRow(h: Hash, t: Tables, profile: Profile, captureId: Digest, operationId: nat)
    requires Promote(h, t, profile, captureId, operationId).Success?
    ensures var after := Promote(h, t, profile, captureId, operationId).value.0;
      (profile, captureId) in t.captures
      && var c := t.captures[(profile, captureId)];
      var key := (profile, c.summary.sessionId);
      var accepted := AcceptedOf(t, key);
      after.uploads == t.uploads ||
      (&& after.uploads == t.uploads[key := Row(c.summary.source, accepted,
                             Some(Pending(Request(profile, c.summary, accepted, operationId), c.body)))]
       && (accepted.Some? ==> Extends(h, c.body, accepted.value.request)))
  {
  }

  lemma PromoteFollows(h: Hash, s: State, profile: Profile, captureId: Digest, operationId: nat, seen: set<Capture>)
    requires CollisionFree(h, seen) && Tracked(s, seen) && AllValid(h, s.tables) && History(h, s)
    requires Promote(h, s.tables, profile, captureId, operationId).Success?
    ensures History(h, s.(tables := Promote(h, s.tables, profile, captureId, operationId).value.0))
  {
    PromotedRow(h, s.tables, profile, captureId, operationId);
    var after := Promote(h, s.tables, profile, captureId, operationId).value.0;
    var c := s.tables.captures[(profile, captureId)];
    var key := (profile, c.summary.sessionId);
    var log := Log(s, key);
    assert log != [] ==> key in s.accepted && key in s.tables.uploads && RowFollows(s.tables.uploads[key], log);
    if log != [] {
      assert Chain(h, key, log);
      AcceptedBody(h, key, log[|log| - 1], c, seen);
    }
    assert after.uploads != s.tables.uploads ==> RowFollows(after.uploads[key], log);
  }

  lemma LastAccepted(h: Hash, s: State, key: (Profile, Id), c: Capture, seen: set<Capture>)
    requires CollisionFree(h, seen) && Tracked(s, seen) && c in seen && History(h, s) && key in s.tables.uploads
    requires |c.body| == c.summary.byteLength && h.sha(c.body) == c.summary.sha256
    requires var accepted := s.tables.uploads[key].accepted; accepted.Some? && Matches(accepted.value.request, c.summary)
    ensures WasAccepted(Log(s, key), c)
  {
    var log := Log(s, key);
    assert RowFollows(s.tables.uploads[key], log);
    assert Chain(h, key, log);
    AcceptedBody(h, key, log[|log| - 1], c, seen);
    assert IsAcceptance(log[|log| - 1], c);
  }

  /** A captured snapshot that is promoted is pending then, or was accepted, or stays captured. */
  lemma CapturedThroughPromote(h: Hash, s: State, p: Profile, operationId: nat, c: Capture, seen: set<Capture>)
    requires CollisionFree(h, seen) && Tracked(s, seen) && c in seen && AllValid(h, s.tables) && History(h, s)
    requires IsCaptured(h, s.tables, p, c)
    requires Promote(h, s.tables, p, h.fingerprint(c.summary), operationId).Success?
    ensures Held(h, s.(tables := Promote(h, s.tables, p, h.fingerprint(c.summary), operationId).value.0), p, c)
  {
    var after := Promote(h, s.tables, p, h.fingerprint(c.summary), operationId).value.0;
    var n, key := s.(tables := after), (p, c.summary.sessionId);
    if AcceptedOf(s.tables, key).Some? && Matches(AcceptedOf(s.tables, key).value.request, c.summary) {
      LastAccepted(h, s, key, c, seen);
      assert Log(n, key) == Log(s, key);
    } else {
      assert IsCaptured(h, after, p, c) || IsPending(after, p, c);
    }
  }

  lemma HeldThroughPromote(h: Hash, s: State, profile: Profile, captureId: Digest, operationId: nat, p: Profile, c: Capture,
                           seen: set<Capture>)
    requires CollisionFree(h, seen) && Tracked(s, seen) && c in seen
    requires AllValid(h, s.tables) && History(h, s) && Held(h, s, p, c)
    requires Promote(h, s.tables, profile, captureId, operationId).Success?
    ensures Held(h, s.(tables := Promote(h, s.tables, profile, captureId, operationId).value.0), p, c)
  {
    var after := Promote(h, s.tables, profile, captureId, operationId).value.0;
    var n := s.(tables := after);
    var key := (p, c.summary.sessionId);
    assert Log(n, key) == Log(s, key);
    if WasAccepted(Log(s, key), c) {
    } else if IsPending(s.tables, p, c) {
      assert IsPending(after, p, c);
    } else if (profile, captureId) == (p, h.fingerprint(c.summary)) {
      CapturedThroughPromote(h, s, p, operationId, c, seen);
    } else {
      PromoteHolds(h, s.tables, profile, captureId, operationId);
      assert IsCaptured(h, after, p, c);
    }
  }

  lemma AcceptFollows(h: Hash, limit: nat, s: State, op: Operation)
    requires AllValid(h, s.tables) && History(h, s) && op.AcceptReceipt?
    requires Answers(h, s.tables, op.origin, op.receipt)
    ensures AllValid(h, Step(h, limit, s, op).tables)
    ensures History(h, Step(h, limit, s, op))
  {
    var n := Step(h, limit, s, op);
    var key := (Profile(op.origin, op.receipt.request.binding), op.receipt.request.sessionId);
    var row, log := s.tables.uploads[key], Log(s, key);
    var next := Acceptance(op.receipt, row.pending.value.body);
    assert n.tables == s.tables.(uploads := s.tables.uploads[key := row.(accepted := Some(op.receipt), pending := None)]);
    assert RowFollows(row, log);
    ChainGrows(h, key, log, next);
    assert Log(n, key) == log + [next];
    forall k | k in n.tables.uploads ensures RowFollows(n.tables.uploads[k], Log(n, k)) {
      assert k != key ==> RowFollows(s.tables.uploads[k], Log(s, k));
    }
  }

  lemma ChainGrows(h: Hash, key: (Profile, Id), log: seq<Acceptance>, next: Acceptance)
    requires Chain(h, key, log) && Accepts(h, key, next)
    requires log != [] ==> Follows(log[|log| - 1], next)
    ensures Chain(h, key, log + [next])
  {
  }

  lemma HeldThroughAccept(h: Hash, limit: nat, s: State, op: Operation, p: Profile, c: Capture)
    requires op.AcceptReceipt? && Answers(h, s.tables, op.origin, op.receipt)
    requires Held(h, s, p, c)
    ensures Held(h, Step(h, limit, s, op), p, c)
  {
    var n := Step(h, limit, s, op);
    var key := (p, c.summary.sessionId);
    if i :| 0 <= i < |Log(s, key)| && IsAcceptance(Log(s, key)[i], c) {
      assert Log(n, key)[i] == Log(s, key)[i];
    } else if IsPending(s.tables, p, c) {
      if key == (Profile(op.origin, op.receipt.request.binding), op.receipt.request.sessionId) {
        assert IsAcceptance(Log(n, key)[|Log(n, key)| - 1], c);
      } else {
        assert IsPending(n.tables, p, c);
      }
    } else {
      assert IsCaptured(h, n.tables, p, c);
    }
  }

  lemma StoreKeeps(h: Hash, limit: nat, s: State, profile: Profile, c: Capture, seen: set<Capture>)
    requires CollisionFree(h, seen) && Tracked(s, seen) && c in seen && Invariant(h, s)
    requires ValidCapture(h, (profile, h.fingerprint(c.summary)), c)
    requires Store(h, limit, s.tables, profile, c).Success?
    ensures Invariant(h, State(Store(h, limit, s.tables, profile, c).value, s.accepted, s.evidence + {(profile, c)}))
  {
    var after := Store(h, limit, s.tables, profile, c).value;
    var n := State(after, s.accepted, s.evidence + {(profile, c)});
    StoreHolds(h, limit, s.tables, profile, c, seen);
    forall key | key in n.tables.uploads ensures RowFollows(n.tables.uploads[key], Log(n, key)) {
      assert RowFollows(s.tables.uploads[key], Log(s, key));
    }
    forall e | e in n.evidence ensures Held(h, n, e.0, e.1) {
      if e in s.evidence {
        HeldThroughStore(h, s, n, e.0, e.1);
      }
    }
  }

  lemma HeldThroughStore(h: Hash, s: State, n: State, profile: Profile, c: Capture)
    requires Held(h, s, profile, c)
    requires n.tables.uploads == s.tables.uploads && n.accepted == s.accepted
    requires forall key :: key in s.tables.captures ==>
      key in n.tables.captures && n.tables.captures[key] == s.tables.captures[key]
    ensures Held(h, n, profile, c)
  {
    assert Log(n, (profile, c.summary.sessionId)) == Log(s, (profile, c.summary.sessionId));
  }

  lemma PromoteKeeps(h: Hash, s: State, profile: Profile, captureId: Digest, operationId: nat, seen: set<Capture>)
    requires CollisionFree(h, seen) && Tracked(s, seen) && Invariant(h, s)
    requires Promote(h, s.tables, profile, captureId, operationId).Success?
    ensures Invariant(h, s.(tables := Promote(h, s.tables, profile, captureId, operationId).value.0))
  {
    PromoteHolds(h, s.tables, profile, captureId, operationId);
    PromoteFollows(h, s, profile, captureId, operationId, seen);
    forall e | e in s.evidence
      ensures Held(h, s.(tables := Promote(h, s.tables, profile, captureId, operationId).value.0), e.0, e.1)
    {
      HeldThroughPromote(h, s, profile, captureId, operationId, e.0, e.1, seen);
    }
  }

  /** Evidence that needs no new row is held already. */
  lemma AlreadyHeld(h: Hash, s: State, profile: Profile, c: Capture, seen: set<Capture>)
    requires CollisionFree(h, seen) && Tracked(s, seen) && c in seen && AllValid(h, s.tables) && History(h, s)
    requires ValidCapture(h, (profile, h.fingerprint(c.summary)), c)
    requires var current := ReadRow(h, s.tables, (profile, c.summary.sessionId));
      || (profile, h.fingerprint(c.summary)) in s.tables.captures
      || (current.Success? && (AlreadyPending(current.value, c.summary) || AlreadyAccepted(current.value, c.summary)))
    ensures Held(h, s, profile, c)
  {
    var key := (profile, c.summary.sessionId);
    var current := ReadRow(h, s.tables, key);
    if (profile, h.fingerprint(c.summary)) in s.tables.captures {
      SameCapture(h, s.tables, profile, c, seen);
      assert IsCaptured(h, s.tables, profile, c);
    } else if AlreadyPending(current.value, c.summary) {
      SamePending(h, s, key, c, seen);
      assert IsPending(s.tables, profile, c);
    } else {
      LastAccepted(h, s, key, c, seen);
    }
  }

  lemma SamePending(h: Hash, s: State, key: (Profile, Id), c: Capture, seen: set<Capture>)
    requires CollisionFree(h, seen) && Tracked(s, seen) && c in seen && AllValid(h, s.tables)
    requires |c.body| == c.summary.byteLength && h.sha(c.body) == c.summary.sha256
    requires key in s.tables.uploads && s.tables.uploads[key].pending.Some?
    requires Matches(s.tables.uploads[key].pending.value.request, c.summary)
    ensures s.tables.uploads[key].pending.value.body == c.body
  {
    var body := s.tables.uploads[key].pending.value.body;
    assert ValidRow(h, key, s.tables.uploads[key]) && DistinctBodies(h, c.body, body);
    SameBody(h, c.body, body);
  }

  /** A failed operation changes nothing. */
  lemma NothingKeeps(h: Hash, limit: nat, s: State, op: Operation)
    requires Invariant(h, s) && After(h, limit, s.tables, op) == s.tables
    requires Evidence(h, limit, s.tables, op) == {}
    requires op.AcceptReceipt? ==> !Answers(h, s.tables, op.origin, op.receipt)
    ensures Invariant(h, Step(h, limit, s, op))
  {
    assert Step(h, limit, s, op) == s by {
      assert s.evidence + {} == s.evidence;
    }
  }

  /** The preparation needs no new capture: it fails, or finds its bytes pending or accepted. */
  ghost predicate NeedsNoCapture(h: Hash, limit: nat, t: Tables, profile: Profile, c: Capture) {
    var current := ReadRow(h, t, (profile, c.summary.sessionId));
    || current.Failure?
    || !SourceAgrees(current.value, c.summary.source)
    || AlreadyPending(current.value, c.summary) || AlreadyAccepted(current.value, c.summary)
    || Store(h, limit, t, profile, c).Failure?
  }

  lemma PrepareInPlace(h: Hash, limit: nat, s: State, op: Operation, seen: set<Capture>)
    requires CollisionFree(h, seen) && Tracked(s, seen) && Taken(h, op) <= seen && Invariant(h, s) && op.PrepareSnapshot?
    requires Normalize(h, op.snapshot).Success?
    requires NeedsNoCapture(h, limit, s.tables, op.profile, Normalize(h, op.snapshot).value)
    ensures Invariant(h, Step(h, limit, s, op))
  {
    assert After(h, limit, s.tables, op) == s.tables;
    if Evidence(h, limit, s.tables, op) == {} {
      NothingKeeps(h, limit, s, op);
    } else {
      AlreadyHeld(h, s, op.profile, Normalize(h, op.snapshot).value, seen);
      EvidenceKeeps(h, s, op.profile, Normalize(h, op.snapshot).value);
    }
  }

  lemma EvidenceKeeps(h: Hash, s: State, profile: Profile, c: Capture)
    requires Invariant(h, s) && Held(h, s, profile, c)
    ensures Invariant(h, s.(evidence := s.evidence + {(profile, c)}))
  {
    var n := s.(evidence := s.evidence + {(profile, c)});
    forall e | e in n.evidence ensures Held(h, n, e.0, e.1) {
      HeldThroughStore(h, s, n, e.0, e.1);
    }
  }

  lemma PrepareByCapture(h: Hash, limit: nat, s: State, op: Operation, seen: set<Capture>)
    requires CollisionFree(h, seen) && Tracked(s, seen) && Taken(h, op) <= seen && Invariant(h, s) && op.PrepareSnapshot?
    requires Normalize(h, op.snapshot).Success?
    requires !NeedsNoCapture(h, limit, s.tables, op.profile, Normalize(h, op.snapshot).value)
    ensures Invariant(h, Step(h, limit, s, op))
  {
    var c := Normalize(h, op.snapshot).value;
    var id := h.fingerprint(c.summary);
    var stored := State(Store(h, limit, s.tables, op.profile, c).value, s.accepted, s.evidence + {(op.profile, c)});
    StoreKeeps(h, limit, s, op.profile, c, seen);
    StoreHolds(h, limit, s.tables, op.profile, c, seen);
    var promoted := Promote(h, stored.tables, op.profile, id, op.operationId);
    assert Step(h, limit, s, op) == stored.(tables := if promoted.Success? then promoted.value.0 else stored.tables);
    if promoted.Success? {
      PromoteKeeps(h, stored, op.profile, id, op.operationId, seen);
    }
  }

  lemma StepKeeps(h: Hash, limit: nat, s: State, op: Operation, seen: set<Capture>)
    requires CollisionFree(h, seen) && Tracked(s, seen) && Taken(h, op) <= seen && Invariant(h, s)
    ensures Invariant(h, Step(h, limit, s, op))
  {
    match op
    case CaptureSnapshot(profile, snapshot) =>
      var c := Normalize(h, snapshot);
      if c.Success? && Store(h, limit, s.tables, profile, c.value).Success? {
        StoreKeeps(h, limit, s, profile, c.value, seen);
      } else {
        NothingKeeps(h, limit, s, op);
      }
    case PrepareSnapshot(profile, snapshot, _) =>
      if Normalize(h, snapshot).Failure? {
        NothingKeeps(h, limit, s, op);
      } else if NeedsNoCapture(h, limit, s.tables, profile, Normalize(h, snapshot).value) {
        PrepareInPlace(h, limit, s, op, seen);
      } else {
        PrepareByCapture(h, limit, s, op, seen);
      }
    case PromoteCapture(profile, captureId, id) =>
      assert s.evidence + {} == s.evidence;
      if Promote(h, s.tables, profile, captureId, id).Success? {
        PromoteKeeps(h, s, profile, captureId, id, seen);
      } else {
        NothingKeeps(h, limit, s, op);
      }
    case AcceptReceipt(origin, receipt) =>
      if Answers(h, s.tables, origin, receipt) {
        AcceptFollows(h, limit, s, op);
        forall e | e in s.evidence ensures Held(h, Step(h, limit, s, op), e.0, e.1) {
          HeldThroughAccept(h, limit, s, op, e.0, e.1);
        }
      } else {
        NothingKeeps(h, limit, s, op);
      }
  }

  // ---- What is held was taken ----

  lemma PromoteTracked(h: Hash, s: State, profile: Profile, captureId: Digest, operationId: nat, seen: set<Capture>)
    requires Tracked(s, seen) && Promote(h, s.tables, profile, captureId, operationId).Success?
    ensures Tracked(s.(tables := Promote(h, s.tables, profile, captureId, operationId).value.0), seen)
  {
    PromotedRow(h, s.tables, profile, captureId, operationId);
    var after := Promote(h, s.tables, profile, captureId, operationId).value.0;
    assert s.tables.captures[(profile, captureId)] in s.tables.captures.Values;
    forall c | c in after.captures.Values ensures c in seen {
      var key :| key in after.captures && after.captures[key] == c;
      assert s.tables.captures[key] == c;
    }
  }

  lemma StoreTracked(h: Hash, limit: nat, s: State, profile: Profile, c: Capture, seen: set<Capture>)
    requires Tracked(s, seen) && c in seen && Store(h, limit, s.tables, profile, c).Success?
    ensures Tracked(s.(tables := Store(h, limit, s.tables, profile, c).value), seen)
  {
  }

  lemma PrepareTracked(h: Hash, limit: nat, s: State, profile: Profile, snapshot: Snapshot, operationId: nat, seen: set<Capture>)
    requires Tracked(s, seen) && (Normalize(h, snapshot).Success? ==> Normalize(h, snapshot).value in seen)
    ensures Tracked(s.(tables := Prepare(h, limit, s.tables, profile, snapshot, operationId).0), seen)
  {
    var (c, t) := (Normalize(h, snapshot), Prepare(h, limit, s.tables, profile, snapshot, operationId).0);
    if t != s.tables {
      StoreTracked(h, limit, s, profile, c.value, seen);
      var stored := s.(tables := Store(h, limit, s.tables, profile, c.value).value);
      var id := h.fingerprint(c.value.summary);
      if Promote(h, stored.tables, profile, id, operationId).Success? {
        PromoteTracked(h, stored, profile, id, operationId, seen);
      }
    }
  }

  lemma TablesTracked(h: Hash, limit: nat, s: State, op: Operation, seen: set<Capture>)
    requires Tracked(s, seen) && Taken(h, op) <= seen
    ensures Tracked(s.(tables := After(h, limit, s.tables, op)), seen)
  {
    match op
    case CaptureSnapshot(profile, snapshot) =>
      var c := Normalize(h, snapshot);
      if c.Success? && Store(h, limit, s.tables, profile, c.value).Success? {
        StoreTracked(h, limit, s, profile, c.value, seen);
      }
    case PrepareSnapshot(profile, snapshot, id) => PrepareTracked(h, limit, s, profile, snapshot, id, seen);
    case PromoteCapture(profile, captureId, id) =>
      if Promote(h, s.tables, profile, captureId, id).Success? {
        PromoteTracked(h, s, profile, captureId, id, seen);
      }
    case AcceptReceipt(_, _) =>
  }

  lemma StepTracked(h: Hash, limit: nat, s: State, op: Operation, seen: set<Capture>)
    requires Tracked(s, seen) && Taken(h, op) <= seen
    ensures Tracked(Step(h, limit, s, op), seen)
  {
    TablesTracked(h, limit, s, op, seen);
  }

  // ---- Every operation sequence ----

  ghost function Run(h: Hash, limit: nat, s: State, ops: seq<Operation>): State
    decreases |ops|
  {
    if ops == [] then s else Run(h, limit, Step(h, limit, s, ops[0]), ops[1..])
  }

  const EMPTY := State(Tables(map[], map[]), map[], {})

  lemma {:induction false} RunKeeps(h: Hash, limit: nat, s: State, ops: seq<Operation>, seen: set<Capture>)
    requires CollisionFree(h, seen) && Tracked(s, seen) && AllTaken(h, ops) <= seen && Invariant(h, s)
    ensures Invariant(h, Run(h, limit, s, ops))
    decreases |ops|
  {
    if ops != [] {
      StepKeeps(h, limit, s, ops[0], seen);
      StepTracked(h, limit, s, ops[0], seen);
      RunKeeps(h, limit, Step(h, limit, s, ops[0]), ops[1..], seen);
    }
  }

  /** Journal custody: whatever is done to a new journal, every snapshot it reported as retained is
      captured, pending or accepted, and each session's accepted bodies form a chain of extensions with
      strictly increasing revisions, as long as the digests tell the snapshots of this run apart. */
  lemma CustodyAlways(h: Hash, limit: nat, ops: seq<Operation>)
    requires CollisionFree(h, AllTaken(h, ops))
    ensures var s := Run(h, limit, EMPTY, ops); Custody(h, s) && History(h, s) && AllValid(h, s.tables)
  {
    RunKeeps(h, limit, EMPTY, ops, AllTaken(h, ops));
  }

  lemma {:induction false} Chained(h: Hash, key: (Profile, Id), log: seq<Acceptance>, i: nat, j: nat)
    requires Chain(h, key, log) && i < j < |log|
    ensures log[i].body <= log[j].body
    ensures log[i].receipt.revision.seqno < log[j].receipt.revision.seqno
    decreases j
  {
    assert Follows(log[j - 1], log[j]);
    if i < j - 1 {
      Chained(h, key, log, i, j - 1);
      assert log[i].body == log[j].body[..|log[i].body|];
    }
  }

  /** Late and duplicate receipts change nothing, not even when a successor is already pending. */
  lemma LateReceipt(h: Hash, s: State, key: (Profile, Id), i: nat)
    requires Invariant(h, s) && i < |Log(s, key)|
    ensures Accept(h, s.tables, key.0.origin, Log(s, key)[i].receipt) == Success(s.tables)
  {
    var log := Log(s, key);
    var last := log[|log| - 1];
    assert Chain(h, key, log);
    assert Accepts(h, key, log[i]) && RowFollows(s.tables.uploads[key], log);
    if i < |log| - 1 {
      Chained(h, key, log, i, |log| - 1);
    }
    assert Profile(key.0.origin, log[i].receipt.request.binding) == key.0;
  }

  /** The operations of a journal never make it refuse its own contents. */
  lemma PromoteNeverInvalid(h: Hash, t: Tables, profile: Profile, captureId: Digest, operationId: nat)
    requires AllValid(h, t)
    ensures Promote(h, t, profile, captureId, operationId) != Failure(InvalidJournal)
  {
  }

  lemma AcceptNeverInvalid(h: Hash, t: Tables, origin: string, receipt: Receipt)
    requires AllValid(h, t)
    ensures Accept(h, t, origin, receipt) != Failure(InvalidJournal)
  {
  }

  lemma PrepareNeverInvalid(h: Hash, limit: nat, t: Tables, profile: Profile, snapshot: Snapshot, operationId: nat)
    requires AllValid(h, t)
    requires CollisionFree(h, t.captures.Values + Taken(h, PrepareSnapshot(profile, snapshot, operationId)))
    ensures Prepare(h, limit, t, profile, snapshot, operationId).1 != Failure(InvalidJournal)
  {
    var c := Normalize(h, snapshot);
    if c.Success? && Store(h, limit, t, profile, c.value).Success? {
      StoreHolds(h, limit, t, profile, c.value, t.captures.Values + {c.value});
      var stored := Store(h, limit, t, profile, c.value).value;
      PromoteNeverInvalid(h, stored, profile, h.fingerprint(c.value.summary), operationId);
    }
  }
}
