/** The wire types of the session archive and the rules their decoders enforce. */
module ArchiveProtocol {
  import opened Options

  newtype Byte = b: int | 0 <= b < 256

  type Body = seq<Byte>
  type Id = string

  // SHA-256 digests are ordered as fixed-width lower-case hexadecimal text, that is, as numbers.
  type Digest = nat

  const MAX_ARCHIVE_BYTES := 64 * 1024 * 1024
  const MAX_SEQ := 9223372036854775807

  datatype Kind = Main | Subagent | PolicyApprover

  /** Kind and root are the assertions that decide anything; the rest is carried along. */
  datatype Metadata = Metadata(kind: Option<Kind>, root: Option<Id>, details: string)

  predicate Coherent(m: Metadata, sessionId: Id) {
    && (m.kind == Some(Main) ==> m.root == Some(sessionId))
    && (m.kind == Some(Subagent) || m.kind == Some(PolicyApprover) ==> m.root.Some? && m.root.value != sessionId)
  }

  predicate Decodes(m: Option<Metadata>, sessionId: Id) {
    m.Some? ==> Coherent(m.value, sessionId)
  }

  datatype Binding = Binding(serverId: Id, namespaceId: Id, historyGeneration: Id)

  datatype Revision = Revision(binding: Binding, seqno: nat)

  datatype Condition = Absent | ExactBase(revision: Revision)

  datatype Publication = Publication(binding: Binding, sessionId: Id, operationId: nat, condition: Condition,
                                     byteLength: nat, sha256: Digest, metadata: Option<Metadata>)

  datatype Receipt = Receipt(request: Publication, revision: Revision)

  predicate ValidRevision(r: Revision) {
    0 < r.seqno <= MAX_SEQ
  }

  predicate ValidPublication(p: Publication) {
    && p.byteLength <= MAX_ARCHIVE_BYTES
    && Decodes(p.metadata, p.sessionId)
    && (p.condition.ExactBase? ==> ValidRevision(p.condition.revision) && p.condition.revision.binding == p.binding)
  }

  /** An accepted publication advances the history it was conditioned on. */
  predicate ValidReceipt(r: Receipt) {
    && ValidPublication(r.request) && ValidRevision(r.revision)
    && r.request.binding == r.revision.binding
    && (r.request.condition.ExactBase? ==> r.revision.seqno > r.request.condition.revision.seqno)
  }
}
