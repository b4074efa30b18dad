/** What each transaction of the upload journal answers and leaves behind, field by field. */
module JournalAnswers {
  import opened Options
  import opened ArchiveProtocol
  import opened JournalTables

  /** The operation that a session still waits for. */
  function Unresolved(t: Tables, key: (Profile, Id)): Option<Pending> {
    if key in t.uploads then t.uploads[key].pending else None
  }

  function LastAccepted(t: Tables, key: (Profile, Id)): Option<Receipt> {
    if key in t.uploads then t.uploads[key].accepted else None
  }

  /** A session has been uploaded from another file before. */
  predicate Elsewhere(t: Tables, key: (Profile, Id), file: string) {
    key in t.uploads && t.uploads[key].source != file
  }

  /** The request names these bytes and these assertions of this session. */
  predicate Names(p: Publication, sessionId: Id, length: nat, sha256: Digest, metadata: Metadata) {
    p.sessionId == sessionId && p.byteLength == length && p.sha256 == sha256 && p.metadata == Some(metadata)
  }

  /** The accepted snapshot is this one already. */
  predicate Covered(t: Tables, key: (Profile, Id), c: Capture) {
    LastAccepted(t, key).Some?
    && Names(LastAccepted(t, key).value.request, c.summary.sessionId, c.summary.byteLength, c.summary.sha256, c.summary.metadata)
  }

  /** The bytes no longer begin with the accepted ones, as far as the digest tells. */
  predicate Diverged(h: Hash, t: Tables, key: (Profile, Id), body: Body) {
    var last := LastAccepted(t, key);
    last.Some? && (|body| < last.value.request.byteLength
                   || h.sha(body[..last.value.request.byteLength]) != last.value.request.sha256)
  }

  /** An upload that is handed out is the session's pending operation, and its bytes are those its request names. */
  predicate Handed(h: Hash, t: Tables, key: (Profile, Id), answer: Prepared) {
    answer.Upload? ==>
      && Unresolved(t, key) == Some(Pending(answer.request, answer.body))
      && answer.request.binding == key.0.binding && answer.request.sessionId == key.1
      && |answer.body| == answer.request.byteLength && h.sha(answer.body) == answer.request.sha256
  }

  /** A new operation for these bytes, conditioned on the accepted revision, or on there being none. */
  predicate IsRequest(h: Hash, t: Tables, key: (Profile, Id), c: Capture, operationId: nat, p: Publication) {
    && Names(p, key.1, |c.body|, h.sha(c.body), c.summary.metadata)
    && p.binding == key.0.binding && p.operationId == operationId
    && (LastAccepted(t, key).None? ==> p.condition == Absent)
    && (LastAccepted(t, key).Some? ==> p.condition == ExactBase(LastAccepted(t, key).value.revision))
  }

  /** Only the session's pending operation is new: what it accepted and where it comes from stay. */
  predicate Pends(t: Tables, key: (Profile, Id), file: string, n: Tables) {
    && n.uploads.Keys == t.uploads.Keys + {key}
    && (forall k :: k in t.uploads && k != key ==> n.uploads[k] == t.uploads[k])
    && n.uploads[key].accepted == LastAccepted(t, key)
    && n.uploads[key].source == (if key in t.uploads then t.uploads[key].source else file)
  }

  predicate Drops(t: Tables, id: (Profile, Digest), n: Tables) {
    n.captures.Keys == t.captures.Keys - {id} && forall k :: k in n.captures ==> n.captures[k] == t.captures[k]
  }

  /** The new operation is pending for the captured bytes, and the capture is gone. */
  predicate Moved(h: Hash, t: Tables, key: (Profile, Id), id: (Profile, Digest), c: Capture, operationId: nat,
                  n: Tables, answer: Prepared)
  {
    && answer.Upload? && answer.body == c.body && IsRequest(h, t, key, c, operationId, answer.request)
    && Pends(t, key, c.summary.source, n) && Drops(t, id, n)
  }

  /** The three ways of promoting a capture. */
  predicate Promoted(h: Hash, t: Tables, key: (Profile, Id), id: (Profile, Digest), c: Capture, operationId: nat,
                     n: Tables, answer: Prepared)
  {
    if Unresolved(t, key).Some? then
      n == t && answer == Upload(Unresolved(t, key).value.request, Unresolved(t, key).value.body)
    else if Covered(t, key, c) then
      answer == Unchanged && n.uploads == t.uploads && Drops(t, id, n)
    else Moved(h, t, key, id, c, operationId, n, answer)
  }

  /** Promoting a capture hands out the operation that its session waits for already; or says that the capture is the
      accepted snapshot; or makes it the new pending operation. What is handed out is pending, with its own bytes. */
  lemma PromoteMeaning(h: Hash, t: Tables, profile: Profile, captureId: Digest, operationId: nat, n: Tables, answer: Prepared)
    requires Promote(h, t, profile, captureId, operationId) == Success((n, answer))
    ensures (profile, captureId) in t.captures
    ensures var c := t.captures[(profile, captureId)];
      var key := (profile, c.summary.sessionId);
      && !Elsewhere(t, key, c.summary.source)
      && (Unresolved(t, key).None? && !Covered(t, key, c) ==> !Diverged(h, t, key, c.body))
      && Promoted(h, t, key, (profile, captureId), c, operationId, n, answer)
      && Handed(h, n, key, answer)
  {
    var c := t.captures[(profile, captureId)];
    var key := (profile, c.summary.sessionId);
    assert ValidCapture(h, (profile, captureId), c);
    assert key in t.uploads ==> ValidRow(h, key, t.uploads[key]);
  }

  /** On readable tables a capture is refused for exactly three reasons. */
  lemma PromoteRefused(h: Hash, t: Tables, profile: Profile, captureId: Digest, operationId: nat)
    requires (profile, captureId) in t.captures ==> ValidCapture(h, (profile, captureId), t.captures[(profile, captureId)])
    requires (profile, captureId) in t.captures ==>
      var key := (profile, t.captures[(profile, captureId)].summary.sessionId);
      key in t.uploads ==> ValidRow(h, key, t.uploads[key])
    ensures var r := Promote(h, t, profile, captureId, operationId);
      if (profile, captureId) !in t.captures then r == Failure(CaptureGone)
      else
        var c := t.captures[(profile, captureId)];
        var key := (profile, c.summary.sessionId);
        if Elsewhere(t, key, c.summary.source) then r == Failure(OtherSource)
        else if Unresolved(t, key).None? && !Covered(t, key, c) && Diverged(h, t, key, c.body) then
          r == Failure(NotAnExtension)
        else r.Success?
  {
  }

  /** The snapshot as the journal takes it: its length and digest are those of its bytes. */
  predicate Takes(h: Hash, s: Snapshot, c: Capture) {
    && c.body == s.body && c.summary.byteLength == |s.body| && c.summary.sha256 == h.sha(s.body)
    && c.summary.source == s.file && c.summary.sessionId == s.sessionId && c.summary.metadata == s.metadata
  }

  predicate Acceptable(s: Snapshot) {
    && |s.body| <= MAX_ARCHIVE_BYTES
    && s.file != "" && s.file[0] == '/' && (forall i :: 0 <= i < |s.file| ==> s.file[i] != '\0')
    && (s.metadata.kind == Some(Main) ==> s.metadata.root == Some(s.sessionId))
    && (s.metadata.kind == Some(Subagent) || s.metadata.kind == Some(PolicyApprover) ==>
          s.metadata.root.Some? && s.metadata.root != Some(s.sessionId))
  }

  lemma NormalizeMeaning(h: Hash, s: Snapshot)
    ensures Normalize(h, s).Success? <==> Acceptable(s)
    ensures Normalize(h, s).Failure? ==> Normalize(h, s).error == InvalidSnapshot
    ensures Normalize(h, s).Success? ==> Takes(h, s, Normalize(h, s).value)
  {
    if forall i :: 0 <= i < |s.file| ==> s.file[i] != '\0' {
      assert '\0' !in s.file;
    }
  }

  ghost predicate Room(limit: nat, t: Tables, c: Capture) {
    UploadBytes(t.uploads) + CaptureBytes(t.captures) + |c.body| <= limit
  }

  /** The capture is retained among the others, which stay. */
  predicate Retained(t: Tables, id: (Profile, Digest), n: Tables) {
    && n.uploads == t.uploads
    && n.captures.Keys == t.captures.Keys + {id}
    && (forall k :: k in t.captures ==> n.captures[k] == t.captures[k])
  }

  /** A capture is kept once; a new one needs room for its bytes beside all that is retained. */
  lemma StoreMeaning(h: Hash, limit: nat, t: Tables, profile: Profile, c: Capture)
    requires c.summary.byteLength == |c.body|
    ensures var id := (profile, h.fingerprint(c.summary));
      var r := Store(h, limit, t, profile, c);
      if id in t.captures then r == Success(t) || r == Failure(InvalidJournal)
      else if Room(limit, t, c) then r.Success? && Retained(t, id, r.value) && r.value.captures[id] == c
      else r == Failure(BacklogFull)
  {
  }

  /** The four ways of preparing a snapshot. */
  predicate Readied(h: Hash, t: Tables, key: (Profile, Id), c: Capture, operationId: nat, n: Tables, answer: Prepared) {
    var id := (key.0, h.fingerprint(c.summary));
    if Unresolved(t, key).Some? then
      && answer == Upload(Unresolved(t, key).value.request, Unresolved(t, key).value.body)
      && (if Names(answer.request, key.1, |c.body|, h.sha(c.body), c.summary.metadata) then n == t else Retained(t, id, n))
    else if Covered(t, key, c) then answer == Unchanged && n == t
    else Moved(h, t, key, id, c, operationId, n, answer)
  }

  /** No other capture is retained under the snapshot's fingerprint. */
  predicate NoCollision(h: Hash, t: Tables, profile: Profile, c: Capture) {
    var id := (profile, h.fingerprint(c.summary));
    id in t.captures ==> t.captures[id] == c
  }

  /** A snapshot that is neither pending nor accepted is captured first and then promoted. */
  lemma PreparedByCapture(h: Hash, limit: nat, t: Tables, profile: Profile, s: Snapshot, c: Capture, operationId: nat,
                          n: Tables, answer: Prepared)
    requires Normalize(h, s) == Success(c) && NoCollision(h, t, profile, c)
    requires ReadRow(h, t, (profile, s.sessionId)).Success?
    requires !AlreadyPending(ReadRow(h, t, (profile, s.sessionId)).value, c.summary)
    requires !AlreadyAccepted(ReadRow(h, t, (profile, s.sessionId)).value, c.summary)
    requires Prepare(h, limit, t, profile, s, operationId) == (n, Success(answer))
    ensures Readied(h, t, (profile, s.sessionId), c, operationId, n, answer)
    ensures Handed(h, n, (profile, s.sessionId), answer)
  {
    var key, id := (profile, s.sessionId), (profile, h.fingerprint(c.summary));
    var stored := Store(h, limit, t, profile, c).value;
    assert stored.captures.Keys == t.captures.Keys + {id} && stored.captures[id] == c && stored.uploads == t.uploads;
    PromoteMeaning(h, stored, profile, h.fingerprint(c.summary), operationId, n, answer);
    assert Promoted(h, stored, key, id, c, operationId, n, answer);
  }

  /** Preparing a snapshot hands out the operation that its session waits for already, and retains the snapshot unless
      it is that operation's; or says that the snapshot is the accepted one; or makes it the new pending operation. */
  lemma PrepareMeaning(h: Hash, limit: nat, t: Tables, profile: Profile, s: Snapshot, operationId: nat, n: Tables, answer: Prepared)
    requires Prepare(h, limit, t, profile, s, operationId) == (n, Success(answer))
    requires Normalize(h, s).Success? ==> NoCollision(h, t, profile, Normalize(h, s).value)
    ensures Acceptable(s) && Takes(h, s, Normalize(h, s).value)
    ensures var key := (profile, s.sessionId);
      && !Elsewhere(t, key, s.file)
      && Readied(h, t, key, Normalize(h, s).value, operationId, n, answer)
      && Handed(h, n, key, answer)
  {
    NormalizeMeaning(h, s);
    var c := Normalize(h, s).value;
    var key := (profile, s.sessionId);
    var current := ReadRow(h, t, key).value;
    assert key in t.uploads ==> ValidRow(h, key, t.uploads[key]);
    if !AlreadyPending(current, c.summary) && !AlreadyAccepted(current, c.summary) {
      PreparedByCapture(h, limit, t, profile, s, c, operationId, n, answer);
    }
  }

  /** The session's pending operation is this snapshot's, or none is pending and the accepted one is. */
  predicate Present(t: Tables, key: (Profile, Id), c: Capture) {
    if Unresolved(t, key).Some? then
      Names(Unresolved(t, key).value.request, key.1, c.summary.byteLength, c.summary.sha256, c.summary.metadata)
    else Covered(t, key, c)
  }

  /** On readable tables a snapshot is refused for exactly four reasons, in this order; one that diverged is retained all
      the same. */
  lemma PrepareRefused(h: Hash, limit: nat, t: Tables, profile: Profile, s: Snapshot, operationId: nat)
    requires (profile, s.sessionId) in t.uploads ==> ValidRow(h, (profile, s.sessionId), t.uploads[(profile, s.sessionId)])
    requires Normalize(h, s).Success? ==> NoCollision(h, t, profile, Normalize(h, s).value)
    ensures var (n, r) := Prepare(h, limit, t, profile, s, operationId);
      Acceptable(s) == Normalize(h, s).Success?
      && if Acceptable(s) then Verdict(h, limit, t, profile, Normalize(h, s).value, n, r)
         else n == t && r == Failure(InvalidSnapshot)
  {
    NormalizeMeaning(h, s);
  }

  ghost predicate Verdict(h: Hash, limit: nat, t: Tables, profile: Profile, c: Capture, n: Tables,
                          r: Result<Prepared, JournalError>)
  {
    var key, id := (profile, c.summary.sessionId), (profile, h.fingerprint(c.summary));
    if Elsewhere(t, key, c.summary.source) then n == t && r == Failure(OtherSource)
    else if Present(t, key, c) then r.Success?
    else if id !in t.captures && !Room(limit, t, c) then n == t && r == Failure(BacklogFull)
    else if Unresolved(t, key).None? && Diverged(h, t, key, c.body) then Retained(t, id, n) && r == Failure(NotAnExtension)
    else r.Success?
  }

  /** The receipt answers the session's pending operation. */
  predicate Settles(t: Tables, key: (Profile, Id), receipt: Receipt) {
    Unresolved(t, key).Some? && Unresolved(t, key).value.request == receipt.request
  }

  /** A revision that is no older than the receipt's has been accepted. */
  predicate Late(t: Tables, key: (Profile, Id), receipt: Receipt) {
    LastAccepted(t, key).Some? && receipt.revision.seqno <= LastAccepted(t, key).value.revision.seqno
  }

  /** Nothing but the session's row changes: its pending operation becomes the accepted one. */
  predicate Settled(t: Tables, key: (Profile, Id), receipt: Receipt, n: Tables)
    requires key in t.uploads
  {
    && n.captures == t.captures && n.uploads.Keys == t.uploads.Keys
    && (forall k :: k in t.uploads && k != key ==> n.uploads[k] == t.uploads[k])
    && n.uploads[key] == Row(t.uploads[key].source, Some(receipt), None)
  }

  lemma AcceptMeaning(h: Hash, t: Tables, origin: string, receipt: Receipt)
    requires ValidReceipt(receipt)
    requires var key := (Profile(origin, receipt.request.binding), receipt.request.sessionId);
      key in t.uploads ==> ValidRow(h, key, t.uploads[key])
    ensures var key := (Profile(origin, receipt.request.binding), receipt.request.sessionId);
      var r := Accept(h, t, origin, receipt);
      if key !in t.uploads then r == Failure(NoOperation)
      else if Settles(t, key, receipt) then r.Success? && Settled(t, key, receipt, r.value)
      else if Late(t, key, receipt) then r == Success(t)
      else r == Failure(ReceiptMismatch)
  {
  }
}
