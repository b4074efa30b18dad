/** The retained-byte budget is never exceeded by an operation, and promotion retains exactly what it found. */
module JournalBudget {
  import opened Options
  import opened ArchiveProtocol
  import opened JournalTables
  import opened JournalCustody

  lemma UploadBytesUpdated(uploads: map<(Profile, Id), Row>, key: (Profile, Id), row: Row)
    ensures UploadBytes(uploads[key := row]) ==
      UploadBytes(uploads) + BodyBytes(row) - if key in uploads then BodyBytes(uploads[key]) else 0
  {
    UploadBytesOf(uploads[key := row], key);
    if key in uploads {
      UploadBytesOf(uploads, key);
      assert uploads[key := row] - {key} == uploads - {key};
    } else {
      assert uploads[key := row] - {key} == uploads;
    }
  }

  lemma StoreBudget(h: Hash, limit: nat, t: Tables, profile: Profile, c: Capture)
    requires Store(h, limit, t, profile, c).Success? && |c.body| == c.summary.byteLength
    ensures var after := Store(h, limit, t, profile, c).value; after == t || Usage(after) <= limit
  {
    var key := (profile, h.fingerprint(c.summary));
    if key !in t.captures {
      var after := t.captures[key := c];
      CaptureBytesOf(after, key);
      assert after - {key} == t.captures;
    }
  }

  /** A promoted body is retained once: nothing is gained, and only an unchanged snapshot's bytes go. */
  lemma PromoteConserves(h: Hash, t: Tables, profile: Profile, captureId: Digest, operationId: nat)
    requires Promote(h, t, profile, captureId, operationId).Success?
    ensures var (after, prepared) := Promote(h, t, profile, captureId, operationId).value;
      && (profile, captureId) in t.captures
      && Usage(after) == Usage(t) - if prepared.Unchanged? then |t.captures[(profile, captureId)].body| else 0
  {
    var (after, prepared) := Promote(h, t, profile, captureId, operationId).value;
    CaptureBytesOf(t.captures, (profile, captureId));
    PromotedRow(h, t, profile, captureId, operationId);
    var c := t.captures[(profile, captureId)];
    var key := (profile, c.summary.sessionId);
    if after.uploads != t.uploads {
      UploadBytesUpdated(t.uploads, key, after.uploads[key]);
    }
  }

  lemma AcceptReleases(h: Hash, t: Tables, origin: string, receipt: Receipt)
    requires Accept(h, t, origin, receipt).Success?
    ensures Usage(Accept(h, t, origin, receipt).value) ==
      Usage(t) - if Answers(h, t, origin, receipt) then receipt.request.byteLength else 0
  {
    var after := Accept(h, t, origin, receipt).value;
    var key := (Profile(origin, receipt.request.binding), receipt.request.sessionId);
    if Answers(h, t, origin, receipt) {
      UploadBytesUpdated(t.uploads, key, after.uploads[key]);
    }
  }

  /** No operation takes the retained bytes above the limit; a journal that starts above it never grows. */
  lemma BudgetKept(h: Hash, limit: nat, t: Tables, op: Operation)
    ensures Usage(After(h, limit, t, op)) <= if Usage(t) <= limit then limit else Usage(t)
  {
    match op
    case CaptureSnapshot(profile, s) =>
      var c := Normalize(h, s);
      if c.Success? && Store(h, limit, t, profile, c.value).Success? {
        StoreBudget(h, limit, t, profile, c.value);
      }
    case PrepareSnapshot(profile, s, id) =>
      var c := Normalize(h, s);
      if c.Success? && !NeedsNoCapture(h, limit, t, profile, c.value) {
        StoreBudget(h, limit, t, profile, c.value);
        var stored := Store(h, limit, t, profile, c.value).value;
        if Promote(h, stored, profile, h.fingerprint(c.value.summary), id).Success? {
          PromoteConserves(h, stored, profile, h.fingerprint(c.value.summary), id);
        }
      }
    case PromoteCapture(profile, captureId, id) =>
      if Promote(h, t, profile, captureId, id).Success? {
        PromoteConserves(h, t, profile, captureId, id);
      }
    case AcceptReceipt(origin, receipt) =>
      if Accept(h, t, origin, receipt).Success? {
        AcceptReleases(h, t, origin, receipt);
      }
  }
}
