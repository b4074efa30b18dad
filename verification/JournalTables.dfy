/** The upload journal's two tables and its transactions, as functions on their contents. */
module JournalTables {
  import opened Options
  import opened ArchiveProtocol

  datatype Profile = Profile(origin: string, binding: Binding)

  datatype Pending = Pending(request: Publication, body: Body)

  /** One row of `archive_uploads`: a pending request is stored together with its body or not at all. */
  datatype Row = Row(source: string, accepted: Option<Receipt>, pending: Option<Pending>)

  datatype Summary = Summary(source: string, sessionId: Id, byteLength: nat, sha256: Digest, metadata: Metadata)

  /** One row of `archive_captures`. */
  datatype Capture = Capture(summary: Summary, body: Body)

  datatype Tables = Tables(uploads: map<(Profile, Id), Row>, captures: map<(Profile, Digest), Capture>)

  /** SHA-256, over bodies and over the encoded summary. */
  datatype Hash = Hash(sha: Body -> Digest, fingerprint: Summary -> Digest)

  datatype Snapshot = Snapshot(file: string, sessionId: Id, body: Body, metadata: Metadata)

  datatype JournalError =
    | InvalidSnapshot
    | InvalidJournal
    | BacklogFull
    | OtherSource
    | CaptureGone
    | NotAnExtension
    | NoOperation
    | ReceiptMismatch
    | InvalidReceipt
    | InvalidLimit

  datatype Prepared = Unchanged | Upload(request: Publication, body: Body)

  // ---- Reading ----

  predicate ValidRow(h: Hash, key: (Profile, Id), row: Row) {
    && (row.accepted.Some? ==>
          && ValidReceipt(row.accepted.value)
          && row.accepted.value.request.sessionId == key.1 && row.accepted.value.request.binding == key.0.binding)
    && (row.pending.Some? ==>
          && ValidPublication(row.pending.value.request)
          && row.pending.value.request.sessionId == key.1 && row.pending.value.request.binding == key.0.binding
          && |row.pending.value.body| == row.pending.value.request.byteLength
          && h.sha(row.pending.value.body) == row.pending.value.request.sha256)
  }

  predicate ValidSummary(h: Hash, key: (Profile, Digest), c: Summary) {
    && Coherent(c.metadata, c.sessionId)
    && c.byteLength <= MAX_ARCHIVE_BYTES
    && h.fingerprint(c) == key.1
  }

  predicate ValidCapture(h: Hash, key: (Profile, Digest), c: Capture) {
    && ValidSummary(h, key, c.summary)
    && |c.body| == c.summary.byteLength
    && h.sha(c.body) == c.summary.sha256
  }

  function ReadRow(h: Hash, t: Tables, key: (Profile, Id)): Result<Option<Row>, JournalError> {
    if key !in t.uploads then Success(None)
    else if ValidRow(h, key, t.uploads[key]) then Success(Some(t.uploads[key]))
    else Failure(InvalidJournal)
  }

  function ReadCapture(h: Hash, t: Tables, key: (Profile, Digest)): Result<Option<Capture>, JournalError> {
    if key !in t.captures then Success(None)
    else if ValidCapture(h, key, t.captures[key]) then Success(Some(t.captures[key]))
    else Failure(InvalidJournal)
  }

  predicate Absolute(file: string) {
    file != "" && file[0] == '/' && '\0' !in file
  }

  function CaptureIds(t: Tables, profile: Profile): set<Digest> {
    set key | key in t.captures && key.0 == profile :: key.1
  }

  function Normalize(h: Hash, s: Snapshot): Result<Capture, JournalError> {
    if !Absolute(s.file) || |s.body| > MAX_ARCHIVE_BYTES || !Coherent(s.metadata, s.sessionId) then Failure(InvalidSnapshot)
    else Success(Capture(Summary(s.file, s.sessionId, |s.body|, h.sha(s.body), s.metadata), s.body))
  }

  predicate Matches(request: Publication, c: Summary) {
    && request.sessionId == c.sessionId && request.byteLength == c.byteLength
    && request.sha256 == c.sha256 && request.metadata == Some(c.metadata)
  }

  /** A session belongs to the file it was first uploaded from. */
  predicate SourceAgrees(current: Option<Row>, source: string) {
    current.Some? ==> current.value.source == source
  }

  // ---- Retained bytes ----

  function BodyBytes(row: Row): nat {
    if row.pending.Some? then |row.pending.value.body| else 0
  }

  ghost function UploadBytes(uploads: map<(Profile, Id), Row>): nat {
    if uploads == map[] then 0
    else
      var key :| key in uploads;
      BodyBytes(uploads[key]) + UploadBytes(uploads - {key})
  }

  ghost function CaptureBytes(captures: map<(Profile, Digest), Capture>): nat {
    if captures == map[] then 0
    else
      var key :| key in captures;
      |captures[key].body| + CaptureBytes(captures - {key})
  }

  /** Every retained body, pending or captured, of every profile. */
  ghost function Usage(t: Tables): nat {
    UploadBytes(t.uploads) + CaptureBytes(t.captures)
  }

  lemma {:induction false} UploadBytesOf(uploads: map<(Profile, Id), Row>, key: (Profile, Id))
    requires key in uploads
    ensures UploadBytes(uploads) == BodyBytes(uploads[key]) + UploadBytes(uploads - {key})
  {
    var first :| first in uploads && UploadBytes(uploads) == BodyBytes(uploads[first]) + UploadBytes(uploads - {first});
    if first != key {
      UploadBytesOf(uploads - {first}, key);
      UploadBytesOf(uploads - {key}, first);
      assert uploads - {first} - {key} == uploads - {key} - {first};
    }
  }

  lemma {:induction false} CaptureBytesOf(captures: map<(Profile, Digest), Capture>, key: (Profile, Digest))
    requires key in captures
    ensures CaptureBytes(captures) == |captures[key].body| + CaptureBytes(captures - {key})
  {
    var first :| first in captures && CaptureBytes(captures) == |captures[first].body| + CaptureBytes(captures - {first});
    if first != key {
      CaptureBytesOf(captures - {first}, key);
      CaptureBytesOf(captures - {key}, first);
      assert captures - {first} - {key} == captures - {key} - {first};
    }
  }

  // ---- Transactions ----

  /** Keeps the captured bytes, once, if the retained bytes stay within the limit. */
  ghost function Store(h: Hash, limit: nat, t: Tables, profile: Profile, c: Capture): Result<Tables, JournalError> {
    var key := (profile, h.fingerprint(c.summary));
    var existing := ReadCapture(h, t, key);
    if existing.Failure? then Failure(existing.error)
    else if existing.value.Some? then Success(t)
    else if Usage(t) + c.summary.byteLength > limit then Failure(BacklogFull)
    else Success(t.(captures := t.captures[key := c]))
  }

  predicate Extends(h: Hash, body: Body, base: Publication) {
    |body| >= base.byteLength && h.sha(body[..base.byteLength]) == base.sha256
  }

  function Request(profile: Profile, c: Summary, accepted: Option<Receipt>, operationId: nat): Publication {
    Publication(profile.binding, c.sessionId, operationId,
                if accepted.Some? then ExactBase(accepted.value.revision) else Absent,
                c.byteLength, c.sha256, Some(c.metadata))
  }

  /** Moves one capture to its session's pending operation, unless a predecessor is unresolved there or the
      accepted snapshot already is this one. */
  function Promote(h: Hash, t: Tables, profile: Profile, captureId: Digest, operationId: nat)
    : Result<(Tables, Prepared), JournalError>
  {
    var captured := ReadCapture(h, t, (profile, captureId));
    if captured.Failure? then Failure(captured.error)
    else if captured.value.None? then Failure(CaptureGone)
    else
      var c := captured.value.value;
      var key := (profile, c.summary.sessionId);
      var current := ReadRow(h, t, key);
      if current.Failure? then Failure(current.error)
      else PromoteOnto(h, t, profile, captureId, operationId, c, current.value)
  }

  function PromoteOnto(h: Hash, t: Tables, profile: Profile, captureId: Digest, operationId: nat,
                       c: Capture, current: Option<Row>): Result<(Tables, Prepared), JournalError>
  {
    var accepted := if current.Some? then current.value.accepted else None;
    if !SourceAgrees(current, c.summary.source) then Failure(OtherSource)
    else if current.Some? && current.value.pending.Some? then
      Success((t, Upload(current.value.pending.value.request, current.value.pending.value.body)))
    else if accepted.Some? && Matches(accepted.value.request, c.summary) then
      Success((t.(captures := t.captures - {(profile, captureId)}), Unchanged))
    else if accepted.Some? && !Extends(h, c.body, accepted.value.request) then Failure(NotAnExtension)
    else
      var request := Request(profile, c.summary, accepted, operationId);
      var row := Row(if current.Some? then current.value.source else c.summary.source, accepted, Some(Pending(request, c.body)));
      Success((Tables(t.uploads[(profile, c.summary.sessionId) := row], t.captures - {(profile, captureId)}),
               Upload(request, c.body)))
  }

  /** Captures and promotes in one transaction; a failed promotion rolls back to the retained capture. */
  ghost function Prepare(h: Hash, limit: nat, t: Tables, profile: Profile, s: Snapshot, operationId: nat)
    : (Tables, Result<Prepared, JournalError>)
  {
    var captured := Normalize(h, s);
    if captured.Failure? then (t, Failure(captured.error))
    else
      var c := captured.value;
      var current := ReadRow(h, t, (profile, c.summary.sessionId));
      if current.Failure? then (t, Failure(current.error))
      else if !SourceAgrees(current.value, c.summary.source) then (t, Failure(OtherSource))
      else if AlreadyPending(current.value, c.summary) then
        (t, Success(Upload(current.value.value.pending.value.request, current.value.value.pending.value.body)))
      else if AlreadyAccepted(current.value, c.summary) then (t, Success(Unchanged))
      else
        var stored := Store(h, limit, t, profile, c);
        if stored.Failure? then (t, Failure(stored.error))
        else
          match Promote(h, stored.value, profile, h.fingerprint(c.summary), operationId)
          case Failure(e) => (stored.value, Failure(e))
          case Success((after, prepared)) => (after, Success(prepared))
  }

  predicate AlreadyPending(current: Option<Row>, c: Summary) {
    current.Some? && current.value.pending.Some? && Matches(current.value.pending.value.request, c)
  }

  predicate AlreadyAccepted(current: Option<Row>, c: Summary) {
    current.Some? && current.value.pending.None? && current.value.accepted.Some?
    && Matches(current.value.accepted.value.request, c)
  }

  /** A receipt of the pending operation makes it the accepted one; a late one changes nothing. */
  function Accept(h: Hash, t: Tables, origin: string, receipt: Receipt): Result<Tables, JournalError> {
    var key := (Profile(origin, receipt.request.binding), receipt.request.sessionId);
    if !ValidReceipt(receipt) then Failure(InvalidReceipt)
    else
      var current := ReadRow(h, t, key);
      if current.Failure? then Failure(current.error)
      else if current.value.None? then Failure(NoOperation)
      else
        var row := current.value.value;
        if row.pending.None? || row.pending.value.request != receipt.request then
          if row.accepted.Some? && row.accepted.value.revision.seqno >= receipt.revision.seqno then Success(t)
          else Failure(ReceiptMismatch)
        else Success(t.(uploads := t.uploads[key := row.(accepted := Some(receipt), pending := None)]))
  }
}
