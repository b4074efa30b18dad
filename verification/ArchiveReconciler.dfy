/** The merge decision between a local candidate and the canonical remote snapshot of its session. */
module ArchiveReconciler {
  import opened Options
  import opened ArchiveProtocol

  /** A body with the metadata that belongs to it. */
  datatype Entry = Entry(body: Body, metadata: Option<Metadata>)

  /** What was learned of the remote metadata: unknown is not the same as coherently absent. */
  datatype Remote = Remote(body: Body, revision: Revision, metadata: Known)
  datatype Known = Unknown | Known(metadata: Option<Metadata>)

  datatype Reason = MetadataReason | Divergence

  datatype Deferral = UnknownRemoteMetadata | PreservationUnsupported

  datatype Decision =
    | Covered(revision: Revision)
    | Publish(condition: Condition)
    | PreserveUploaded(reason: Reason)
    | PreserveCurrentThenPublish(reason: Reason, base: Revision)
    | Defer(deferral: Deferral)

  datatype ProtocolError = InvalidData

  predicate ProperPrefix(shorter: Body, longer: Body) {
    |shorter| < |longer| && shorter == longer[..|shorter|]
  }

  predicate LosesAssertion(shorter: Option<Metadata>, longer: Option<Metadata>) {
    shorter.Some? &&
    (|| (shorter.value.kind.Some? && (longer.None? || shorter.value.kind != longer.value.kind))
     || (shorter.value.root.Some? && (longer.None? || shorter.value.root != longer.value.root)))
  }

  function Reconcile(sha: Body -> Digest, sessionId: Id, local: Entry, remote: Option<Remote>, supported: bool)
    : Result<Decision, ProtocolError>
  {
    if !Decodes(local.metadata, sessionId) then Failure(InvalidData)
    else if remote.None? then Success(Publish(Absent))
    else if remote.value.metadata.Unknown? then Success(Defer(UnknownRemoteMetadata))
    else if !Decodes(remote.value.metadata.metadata, sessionId) then Failure(InvalidData)
    else Success(Decide(sha, local, Entry(remote.value.body, remote.value.metadata.metadata),
                        remote.value.revision, supported))
  }

  function Decide(sha: Body -> Digest, local: Entry, remote: Entry, revision: Revision, supported: bool): Decision {
    if local.body == remote.body then
      if local.metadata == remote.metadata then Covered(revision)
      else Preservation(PreserveUploaded(MetadataReason), supported)
    else if ProperPrefix(local.body, remote.body) then
      if LosesAssertion(local.metadata, remote.metadata) then Preservation(PreserveUploaded(MetadataReason), supported)
      else Covered(revision)
    else if ProperPrefix(remote.body, local.body) then
      if LosesAssertion(remote.metadata, local.metadata) then
        Preservation(PreserveCurrentThenPublish(MetadataReason, revision), supported)
      else Publish(ExactBase(revision))
    else
      var preferred :=
        if |local.body| != |remote.body| then |local.body| > |remote.body| else sha(local.body) > sha(remote.body);
      Preservation(if preferred then PreserveCurrentThenPublish(Divergence, revision)
                   else PreserveUploaded(Divergence), supported)
  }

  function Preservation(decision: Decision, supported: bool): Decision {
    if supported then decision else Defer(PreservationUnsupported)
  }

  // ---- What the decision means ----

  /** Nothing of `e` is lost while `keeper` is kept. */
  predicate Covers(keeper: Entry, e: Entry) {
    e.body <= keeper.body && !LosesAssertion(e.metadata, keeper.metadata)
  }

  /** The order that picks the canonical body. */
  predicate Beats(sha: Body -> Digest, a: Body, b: Body) {
    |a| > |b| || (|a| == |b| && sha(a) > sha(b))
  }

  lemma CoversTransitive(a: Entry, b: Entry, c: Entry)
    requires Covers(a, b) && Covers(b, c)
    ensures Covers(a, c)
  {
    assert c.body == a.body[..|c.body|];
  }

  /** The five decisions, each by what it is safe to drop and which body becomes canonical. */
  lemma DecisionMeaning(sha: Body -> Digest, local: Entry, remote: Entry, revision: Revision)
    ensures var d := Decide(sha, local, remote, revision, true);
      && (d == Covered(revision) <==>
            Covers(remote, local) && (local.body == remote.body ==> local.metadata == remote.metadata))
      && (d == Publish(ExactBase(revision)) <==> Covers(local, remote) && local.body != remote.body)
      && (d.PreserveCurrentThenPublish? <==> Beats(sha, local.body, remote.body) && !Covers(local, remote))
      && (d.PreserveCurrentThenPublish? ==> d.base == revision)
      && (d.Covered? || d.Publish? || d.PreserveCurrentThenPublish? || d.PreserveUploaded?)
      && (d.Publish? ==> d == Publish(ExactBase(revision)))
      && (d.Covered? ==> d == Covered(revision))
  {
    assert local.body <= remote.body <==> ProperPrefix(local.body, remote.body) || local.body == remote.body;
    assert remote.body <= local.body <==> ProperPrefix(remote.body, local.body) || local.body == remote.body;
  }

  /** The canonical body gives way exactly to a candidate that beats it. */
  lemma ReplacesIffBeats(sha: Body -> Digest, local: Entry, remote: Entry, revision: Revision)
    ensures var d := Decide(sha, local, remote, revision, true);
      d.Publish? || d.PreserveCurrentThenPublish? <==> Beats(sha, local.body, remote.body)
  {
  }

  /** Without preservation the decision is the same, except that it waits where something would be lost. */
  lemma UnsupportedOnlyDefers(sha: Body -> Digest, local: Entry, remote: Entry, revision: Revision)
    ensures var full, bare := Decide(sha, local, remote, revision, true), Decide(sha, local, remote, revision, false);
      if full.Covered? || full.Publish? then bare == full else bare == Defer(PreservationUnsupported)
  {
  }

  // ---- The whole decision ----

  /** Every assertion that is made here is made there as well. */
  predicate Carries(there: Option<Metadata>, here: Option<Metadata>) {
    here.Some? ==>
      && (here.value.kind.Some? ==> there.Some? && there.value.kind == here.value.kind)
      && (here.value.root.Some? ==> there.Some? && there.value.root == here.value.root)
  }

  /** A main session is its own root, and a session of another kind has one that is not itself. */
  predicate Sensible(m: Option<Metadata>, sessionId: Id) {
    m.Some? ==>
      && (m.value.kind == Some(Main) ==> m.value.root == Some(sessionId))
      && (m.value.kind == Some(Subagent) || m.value.kind == Some(PolicyApprover) ==>
            m.value.root.Some? && m.value.root != Some(sessionId))
  }

  /** The canonical snapshot stays if it holds the candidate's bytes and assertions, and is replaced at once if the
      candidate holds its own. Otherwise one of them has to be preserved: the candidate, unless it is longer, or as long
      with a greater digest. */
  predicate Decides(sha: Body -> Digest, local: Entry, remote: Entry, revision: Revision, supported: bool, d: Decision) {
    var same, within, around := local.body == remote.body, local.body <= remote.body, remote.body <= local.body;
    if within && Carries(remote.metadata, local.metadata) && (same ==> local.metadata == remote.metadata) then
      d == Covered(revision)
    else if around && !same && Carries(local.metadata, remote.metadata) then d == Publish(ExactBase(revision))
    else if !supported then d == Defer(PreservationUnsupported)
    else
      var reason := if within || around then MetadataReason else Divergence;
      if |local.body| > |remote.body| || (|local.body| == |remote.body| && sha(local.body) > sha(remote.body)) then
        d == PreserveCurrentThenPublish(reason, revision)
      else d == PreserveUploaded(reason)
  }

  lemma ReconcileMeaning(sha: Body -> Digest, sessionId: Id, local: Entry, remote: Option<Remote>, supported: bool)
    ensures var r := Reconcile(sha, sessionId, local, remote, supported);
      if !Sensible(local.metadata, sessionId) then r == Failure(InvalidData)
      else if remote.None? then r == Success(Publish(Absent))
      else if remote.value.metadata.Unknown? then r == Success(Defer(UnknownRemoteMetadata))
      else if !Sensible(remote.value.metadata.metadata, sessionId) then r == Failure(InvalidData)
      else r.Success? && Decides(sha, local, Entry(remote.value.body, remote.value.metadata.metadata),
                                 remote.value.revision, supported, r.value)
  {
    if remote.Some? && remote.value.metadata.Known? {
      DecideMeaning(sha, local, Entry(remote.value.body, remote.value.metadata.metadata), remote.value.revision, supported);
    }
  }

  lemma DecideMeaning(sha: Body -> Digest, local: Entry, remote: Entry, revision: Revision, supported: bool)
    ensures Decides(sha, local, remote, revision, supported, Decide(sha, local, remote, revision, supported))
  {
    assert local.body <= remote.body <==> ProperPrefix(local.body, remote.body) || local.body == remote.body;
    assert remote.body <= local.body <==> ProperPrefix(remote.body, local.body) || local.body == remote.body;
    assert Carries(remote.metadata, local.metadata) <==> !LosesAssertion(local.metadata, remote.metadata);
    assert Carries(local.metadata, remote.metadata) <==> !LosesAssertion(remote.metadata, local.metadata);
  }
}
