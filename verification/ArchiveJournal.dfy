/** The upload journal: its tables change only in transactions, which roll back on failure. */
module ArchiveJournal {
  import opened Options
  import opened ArchiveProtocol
  import opened JournalTables
  import opened JournalPaging

  class Journal {
    const hash: Hash
    const backlogByteLimit: nat
    var uploads: map<(Profile, Id), Row>
    var captures: map<(Profile, Digest), Capture>

    constructor (hash: Hash, backlogByteLimit: nat)
      ensures this.hash == hash && this.backlogByteLimit == backlogByteLimit
      ensures Contents() == Tables(map[], map[])
    {
      this.hash, this.backlogByteLimit := hash, backlogByteLimit;
      uploads, captures := map[], map[];
    }

    function Contents(): Tables
      reads this
    {
      Tables(uploads, captures)
    }

    method UsageBytes() returns (bytes: nat)
      ensures bytes == Usage(Contents())
    {
      bytes := 0;
      var rows := uploads;
      while rows != map[]
        invariant bytes + UploadBytes(rows) == UploadBytes(uploads)
        decreases |rows.Keys|
      {
        var key :| key in rows;
        UploadBytesOf(rows, key);
        bytes := bytes + BodyBytes(rows[key]);
        assert (rows - {key}).Keys == rows.Keys - {key};
        rows := rows - {key};
      }
      var kept := captures;
      while kept != map[]
        invariant bytes + CaptureBytes(kept) == UploadBytes(uploads) + CaptureBytes(captures)
        decreases |kept.Keys|
      {
        var key :| key in kept;
        CaptureBytesOf(kept, key);
        bytes := bytes + |kept[key].body|;
        assert (kept - {key}).Keys == kept.Keys - {key};
        kept := kept - {key};
      }
    }

    method StoreCapture(profile: Profile, c: Capture) returns (r: Result<(), JournalError>)
      modifies this`captures
      ensures match Store(hash, backlogByteLimit, old(Contents()), profile, c)
        case Success(after) => r == Success(()) && Contents() == after
        case Failure(e) => r == Failure(e) && Contents() == old(Contents())
    {
      var id := hash.fingerprint(c.summary);
      var existing := ReadCapture(hash, Contents(), (profile, id));
      if existing.Failure? {
        return Failure(existing.error);
      }
      if existing.value.Some? {
        return Success(());
      }
      var bytes := UsageBytes();
      if bytes + c.summary.byteLength > backlogByteLimit {
        return Failure(BacklogFull);
      }
      captures := captures[(profile, id) := c];
      return Success(());
    }

    /** Evidence is retained; nothing is authorized. */
    method CaptureSnapshot(profile: Profile, s: Snapshot) returns (r: Result<Digest, JournalError>)
      modifies this`captures
      ensures Normalize(hash, s).Failure? ==> r == Failure(Normalize(hash, s).error) && Contents() == old(Contents())
      ensures Normalize(hash, s).Success? ==>
        var c := Normalize(hash, s).value;
        match Store(hash, backlogByteLimit, old(Contents()), profile, c)
        case Success(after) => r == Success(hash.fingerprint(c.summary)) && Contents() == after
        case Failure(e) => r == Failure(e) && Contents() == old(Contents())
    {
      var captured := Normalize(hash, s);
      if captured.Failure? {
        return Failure(captured.error);
      }
      var stored := StoreCapture(profile, captured.value);
      if stored.Failure? {
        return Failure(stored.error);
      }
      return Success(hash.fingerprint(captured.value.summary));
    }

    method PrepareCaptured(profile: Profile, captureId: Digest, operationId: nat) returns (r: Result<Prepared, JournalError>)
      modifies this
      ensures match Promote(hash, old(Contents()), profile, captureId, operationId)
        case Success((after, prepared)) => r == Success(prepared) && Contents() == after
        case Failure(e) => r == Failure(e) && Contents() == old(Contents())
    {
      var captured := ReadCapture(hash, Contents(), (profile, captureId));
      if captured.Failure? {
        return Failure(captured.error);
      }
      if captured.value.None? {
        return Failure(CaptureGone);
      }
      var c := captured.value.value;
      var key := (profile, c.summary.sessionId);
      var current := ReadRow(hash, Contents(), key);
      if current.Failure? {
        return Failure(current.error);
      }
      if !SourceAgrees(current.value, c.summary.source) {
        return Failure(OtherSource);
      }
      var accepted := None;
      var source := c.summary.source;
      if current.value.Some? {
        var row := current.value.value;
        if row.pending.Some? {
          return Success(Upload(row.pending.value.request, row.pending.value.body));
        }
        accepted, source := row.accepted, row.source;
      }
      if accepted.Some? {
        if Matches(accepted.value.request, c.summary) {
          captures := captures - {(profile, captureId)};
          return Success(Unchanged);
        }
        if !Extends(hash, c.body, accepted.value.request) {
          return Failure(NotAnExtension);
        }
      }
      var request := Request(profile, c.summary, accepted, operationId);
      uploads := uploads[key := Row(source, accepted, Some(Pending(request, c.body)))];
      captures := captures - {(profile, captureId)};
      return Success(Upload(request, c.body));
    }

    method PrepareSnapshot(profile: Profile, s: Snapshot, operationId: nat) returns (r: Result<Prepared, JournalError>)
      modifies this
      ensures (Contents(), r) == Prepare(hash, backlogByteLimit, old(Contents()), profile, s, operationId)
    {
      var captured := Normalize(hash, s);
      if captured.Failure? {
        return Failure(captured.error);
      }
      var c := captured.value;
      var current := ReadRow(hash, Contents(), (profile, c.summary.sessionId));
      if current.Failure? {
        return Failure(current.error);
      }
      if !SourceAgrees(current.value, c.summary.source) {
        return Failure(OtherSource);
      }
      if current.value.Some? {
        var row := current.value.value;
        if row.pending.Some? && Matches(row.pending.value.request, c.summary) {
          return Success(Upload(row.pending.value.request, row.pending.value.body));
        }
        if row.pending.None? && row.accepted.Some? && Matches(row.accepted.value.request, c.summary) {
          return Success(Unchanged);
        }
      }
      var stored := StoreCapture(profile, c);
      if stored.Failure? {
        return Failure(stored.error);
      }
      r := PrepareCaptured(profile, hash.fingerprint(c.summary), operationId);
    }

    method AcceptReceipt(origin: string, receipt: Receipt) returns (r: Result<(), JournalError>)
      modifies this`uploads
      ensures match Accept(hash, old(Contents()), origin, receipt)
        case Success(after) => r == Success(()) && Contents() == after
        case Failure(e) => r == Failure(e) && Contents() == old(Contents())
    {
      if !ValidReceipt(receipt) {
        return Failure(InvalidReceipt);
      }
      var key := (Profile(origin, receipt.request.binding), receipt.request.sessionId);
      var current := ReadRow(hash, Contents(), key);
      if current.Failure? {
        return Failure(current.error);
      }
      if current.value.None? {
        return Failure(NoOperation);
      }
      var row := current.value.value;
      if row.pending.None? || row.pending.value.request != receipt.request {
        if row.accepted.Some? && row.accepted.value.revision.seqno >= receipt.revision.seqno {
          return Success(());
        }
        return Failure(ReceiptMismatch);
      }
      uploads := uploads[key := row.(accepted := Some(receipt), pending := None)];
      return Success(());
    }

    /** One bounded page of summaries in the order of their identities, with the cursor of the next one. */
    method CapturePage(profile: Profile, cursor: Option<Digest>, limit: nat)
      returns (r: Result<(seq<Summary>, Option<Digest>), JournalError>)
      ensures !(1 <= limit <= 256) <==> r == Failure(InvalidLimit)
      ensures var ids := CaptureIds(Contents(), profile);
        r.Success? ==>
          && |r.value.0| == |Page(ids, cursor, limit)|
          && (forall i :: 0 <= i < |r.value.0| ==>
                var key := (profile, Page(ids, cursor, limit)[i]);
                key in captures && ValidSummary(hash, key, captures[key].summary) && r.value.0[i] == captures[key].summary)
          && r.value.1 == NextCursor(ids, cursor, limit)
    {
      if limit < 1 || limit > 256 {
        return Failure(InvalidLimit);
      }
      var ids := CaptureIds(Contents(), profile);
      PageFacts(ids, cursor, limit);
      var page := Page(ids, cursor, limit);
      var summaries := [];
      for i := 0 to |page|
        invariant |summaries| == i
        invariant forall j :: 0 <= j < i ==>
          var key := (profile, page[j]);
          key in captures && ValidSummary(hash, key, captures[key].summary) && summaries[j] == captures[key].summary
      {
        assert page[i] in page;
        var key := (profile, page[i]);
        if !ValidSummary(hash, key, captures[key].summary) {
          return Failure(InvalidJournal);
        }
        summaries := summaries + [captures[key].summary];
      }
      return Success((summaries, NextCursor(ids, cursor, limit)));
    }
  }
}
