/** What the policy runtime decides, in terms of what is stored: the nearest scope of the nearest principal. */
module PolicyMeaning {
  import opened Options
  import opened PolicyScope
  import opened PolicyTypes
  import opened PolicyEngine
  import opened PolicyWorld
  import opened PolicyInvariants
  import opened PolicyStaleness

  // ---- What is stored ----

  /** Nothing is stored for the access at any scope that covers the target. */
  ghost predicate Mute(ps: seq<Policy>, uri: Path, a: Access) {
    forall q :: q <= uri ==> StatusAt(ps, q, a).None?
  }

  /** This is stored for the access at a scope that covers the target, and nothing is at a deeper one. */
  ghost predicate SaidAt(ps: seq<Policy>, uri: Path, a: Access, pattern: Path, s: Status) {
    && pattern <= uri && StatusAt(ps, pattern, a) == Some(s)
    && forall q :: q <= uri && StatusAt(ps, q, a).Some? ==> |q| <= |pattern|
  }

  /** A verdict that repeats what is stored in these policies. */
  ghost predicate Said(ps: seq<Policy>, uri: Path, a: Access, v: Verdict) {
    v.uri == uri && v.access == a && v.source.ExistingUserPolicy? && SaidAt(ps, uri, a, v.pattern, v.status)
  }

  lemma LookupMeaning(ps: seq<Policy>, uri: Path, a: Access)
    requires Distinct(ps)
    ensures Evaluate(ps, uri, a).None? ==> Mute(ps, uri, a)
    ensures Evaluate(ps, uri, a).Some? ==> Said(ps, uri, a, Evaluate(ps, uri, a).value) && !Mute(ps, uri, a)
  {
    BestIsNearest(ps, uri, a);
    NearestIsDeepest(ps, uri, a);
  }

  function DefaultOf(w: World, a: Access): Fallback {
    if a.FsRead? then w.defaults.read else w.defaults.write
  }

  function RevisionOf(w: World, a: Access): nat {
    if a.FsRead? then w.revisions.read else w.revisions.write
  }

  /** The root's automatic answer for an access for which it stores nothing. */
  ghost predicate SaidByDefault(w: World, uri: Path, a: Access, v: Verdict) {
    && v.uri == uri && v.access == a && v.source.System? && v.pattern == [] && v.status.lifetime.Session?
    && if v.status.response.Allowed? then DefaultOf(w, a).Allow? else DefaultOf(w, a).Deny?
  }

  /** The principal has nothing to say: nothing is stored, and if it is the root, the default has to be asked for. */
  ghost predicate Quiet(w: World, ref: Ref, uri: Path, a: Access)
    requires ref in w.objects
  {
    Mute(w.objects[ref].policies, uri, a)
    && (w.objects[ref].agent == w.root ==> DefaultOf(w, a).AskUser? || DefaultOf(w, a).AskLlm?)
  }

  ghost predicate Speaks(w: World, ref: Ref, uri: Path, a: Access, v: Verdict)
    requires ref in w.objects
  {
    if Mute(w.objects[ref].policies, uri, a) then w.objects[ref].agent == w.root && SaidByDefault(w, uri, a, v)
    else Said(w.objects[ref].policies, uri, a, v)
  }

  /** What a principal may authorize by itself. */
  lemma AuthorityMeaning(w: World, ref: Ref, uri: Path, a: Access)
    requires Sound(w) && ref in w.objects
    ensures Authority(w, ref, uri, a).None? <==> Quiet(w, ref, uri, a)
    ensures Authority(w, ref, uri, a).Some? ==> Speaks(w, ref, uri, a, Authority(w, ref, uri, a).value)
  {
    assert WithinBounds(w, ref, w.objects[ref]);
    LookupMeaning(w.objects[ref].policies, uri, a);
    RootFallbackMeaning(w, uri, a);
  }

  // ---- Who is asked ----

  /** The second is registered under the name that the first one's parent has. */
  predicate ParentIs(w: World, child: Ref, parent: Ref) {
    && child in w.objects && parent in w.objects && w.objects[child].parent.Some?
    && w.objects[child].parent.value in w.live && w.live[w.objects[child].parent.value] == parent
  }

  ghost predicate Upward(w: World, path: seq<Ref>) {
    path != [] && Known(w, path) && forall i :: 0 < i < |path| ==> ParentIs(w, path[i - 1], path[i])
  }

  /** A way up along which nobody above the requester has anything to say before its end, where somebody has or there is
      no parent any more. */
  ghost predicate Asked(w: World, path: seq<Ref>, uri: Path, a: Access) {
    && Upward(w, path)
    && (forall i :: 0 < i < |path| - 1 ==> Quiet(w, path[i], uri, a))
    && (AnswersAtEnd(w, path, uri, a) || w.objects[path[|path| - 1]].parent.None?)
  }

  ghost predicate AnswersAtEnd(w: World, path: seq<Ref>, uri: Path, a: Access)
    requires path != [] && Known(w, path)
  {
    |path| > 1 && !Quiet(w, path[|path| - 1], uri, a)
  }

  lemma {:induction false} ResolveMeaning(w: World, walked: seq<Ref>, path: seq<Ref>, id: AgentId, uri: Path, a: Access)
    requires Sound(w) && id in w.live && Known(w, walked) && Upward(w, path) && path[0] == w.live[id]
    requires forall i :: 0 <= i < |path| - 1 ==> Quiet(w, path[i], uri, a)
    requires !Quiet(w, path[|path| - 1], uri, a) || w.objects[path[|path| - 1]].parent.None?
    ensures var r := Resolve(w, walked, id, uri, a);
      var last := path[|path| - 1];
      if Quiet(w, last, uri, a) then r.Unresolved?
      else
        var v := Authority(w, last, uri, a);
        v.Some? && r == if v.value.status.response.Denied? then Refused(v.value) else Authorized(walked + path, v.value)
    decreases |path|
  {
    ResolveHop(w, walked, id, uri, a);
    assert Node(w, id);
    AuthorityMeaning(w, path[0], uri, a);
    if |path| > 1 {
      var rest := path[1..];
      assert ParentIs(w, path[0], path[1]);
      assert forall i :: 0 < i < |rest| ==> rest[i - 1] == path[i] && rest[i] == path[i + 1];
      ResolveMeaning(w, walked + [path[0]], rest, w.objects[path[0]].parent.value, uri, a);
      assert walked + [path[0]] + rest == walked + path;
    } else {
      assert path == [path[0]];
    }
  }

  /** There always is such a way, unless the requester's parent has been removed. */
  lemma {:induction false} WayUp(w: World, ref: Ref, uri: Path, a: Access) returns (path: seq<Ref>)
    requires Tree(w) && ref in w.objects
    requires w.objects[ref].parent.Some? ==> w.objects[ref].parent.value in w.live
    ensures Asked(w, path, uri, a) && path[0] == ref
    decreases var parent := w.objects[ref].parent; if parent.Some? then w.live[parent.value] + 1 else 0
  {
    var parent := w.objects[ref].parent;
    path := [ref];
    if parent.Some? {
      var next := w.live[parent.value];
      assert Node(w, parent.value);
      if !Quiet(w, next, uri, a) {
        path := [ref, next];
      } else {
        var rest := WayUp(w, next, uri, a);
        path := [ref] + rest;
        forall i | 0 < i < |path| ensures ParentIs(w, path[i - 1], path[i]) {
          assert i > 1 ==> path[i - 1] == rest[i - 2] && path[i] == rest[i - 1];
        }
        assert forall i :: 0 < i < |path| - 1 ==> path[i] == rest[i - 1];
      }
    }
  }

  // ---- A request ----

  /** A refusal for this access alone, at the target itself. */
  predicate Denies(r: Outcome, uri: Path, a: Access, source: Source) {
    && r.Decided? && r.verdict.uri == uri && r.verdict.access == a && r.verdict.pattern == uri
    && r.verdict.status.lifetime.Once? && r.verdict.status.response.Denied? && r.verdict.source == source
  }

  /** Neither the requester nor the call itself says anything about the access. */
  ghost predicate Open(w: World, requester: Ref, uri: Path, a: Access, once: nat)
    requires requester in w.objects && once in w.once
  {
    Quiet(w, requester, uri, a) && Mute(w.once[once], uri, a)
  }

  /** What the requester holds comes first and what the call holds second; nothing is looked up for an overlong target or
      while the runtime shuts down. */
  lemma RequestStored(w: World, requester: Ref, uri: Path, a: Access, once: nat)
    requires Sound(w) && requester in w.objects && once in w.once
    ensures var (r, refused) := (Request(w, requester, uri, a, once), TextLength(uri) > MAX_POLICY_URI_CHARS || w.closing);
      && (refused ==> Denies(r, uri, a, System))
      && (!refused && !Quiet(w, requester, uri, a) ==> r.Decided? && Speaks(w, requester, uri, a, r.verdict))
      && (!refused && Quiet(w, requester, uri, a) && !Mute(w.once[once], uri, a) ==>
            r.Decided? && Said(w.once[once], uri, a, r.verdict))
  {
    AuthorityMeaning(w, requester, uri, a);
    LookupMeaning(w.once[once], uri, a);
  }

  predicate Takes(w: World, s: Snapshot, path: seq<Ref>) {
    && s.path == path && Known(w, path) && |s.policyRevisions| == |path| && |s.contextRevisions| == |path|
    && forall i :: 0 <= i < |path| ==>
         s.policyRevisions[i] == w.objects[path[i]].policyRevision && s.contextRevisions[i] == w.objects[path[i]].contextRevision
  }

  predicate IsFor(p: Pending, requester: Ref, uri: Path, a: Access, once: nat) {
    p.requester == requester && p.uri == uri && p.access == a && p.once == once
  }

  /** The review by the authority at the end of the path: what it may grant is bounded by what it says itself. */
  predicate AsksAuthority(w: World, path: seq<Ref>, v: Verdict, p: Pending) {
    && p.AncestorReview? && Takes(w, p.snapshot, path)
    && p.borrowed == (if v.source.System? then Some(RevisionOf(w, v.access)) else None)
    && p.scopes == AllowedScopes(v.uri, v.pattern)
    && p.lifetimes == (if v.status.lifetime.Once? then {Once} else {Once, Session})
  }

  /** An authority that denies has denied; one that allows is asked, if there is a reviewer to ask. */
  ghost predicate ByAuthority(w: World, path: seq<Ref>, uri: Path, a: Access, once: nat, r: Outcome)
    requires path != [] && Known(w, path)
  {
    exists v ::
      && Speaks(w, path[|path| - 1], uri, a, v)
      && if v.status.response.Denied? then r == Decided(v)
         else if !w.reviewer then Denies(r, uri, a, NewAgentDecision)
         else r.Waiting? && IsFor(r.pending, path[0], uri, a, once) && AsksAuthority(w, path, v, r.pending)
  }

  /** When nobody has anything to say the default decides whom to ask. */
  predicate ByDefault(w: World, path: seq<Ref>, uri: Path, a: Access, once: nat, r: Outcome)
    requires path != []
  {
    match DefaultOf(w, a)
    case AskUser =>
      && r.Waiting? && r.pending.UserReview? && IsFor(r.pending, path[0], uri, a, once)
      && Takes(w, r.pending.snapshot, path) && r.pending.fallback == RevisionOf(w, a)
    case AskLlm =>
      if !w.reviewer then Denies(r, uri, a, System)
      else
        && r.Waiting? && r.pending.LlmReview? && IsFor(r.pending, path[0], uri, a, once)
        && Takes(w, r.pending.snapshot, path) && r.pending.fallback == RevisionOf(w, a)
        && r.pending.scopes == AllowedScopes(uri, [])
    case _ => Denies(r, uri, a, System)
  }

  lemma ChainUpward(w: World, path: seq<Ref>, id: AgentId)
    requires Tree(w) && id in w.live && Upward(w, path) && path[0] == w.live[id]
    requires w.objects[path[|path| - 1]].parent.None?
    ensures Chain(w, id) == path
    decreases |path|
  {
    assert Node(w, id);
    if |path| > 1 {
      var rest := path[1..];
      assert ParentIs(w, path[0], path[1]);
      assert forall i :: 0 < i < |rest| ==> rest[i - 1] == path[i] && rest[i] == path[i + 1];
      ChainUpward(w, rest, w.objects[path[0]].parent.value);
      assert [path[0]] + rest == path;
    }
  }

  /** The walk from a quiet requester finds the authority at the end of the way, or that there is none. */
  lemma AncestorMeaning(w: World, path: seq<Ref>, uri: Path, a: Access)
    requires Sound(w) && Asked(w, path, uri, a) && Quiet(w, path[0], uri, a)
    ensures var (found, v) := (ResolveAncestor(w, path[0], uri, a), Authority(w, path[|path| - 1], uri, a));
      if AnswersAtEnd(w, path, uri, a) then
        v.Some? && found == Some(if v.value.status.response.Denied? then Refused(v.value) else Authorized(path, v.value))
      else found == Some(Unresolved) && PathToRoot(w, path[0]) == Some(path)
  {
    if |path| > 1 {
      assert ParentIs(w, path[0], path[1]);
      var rest, parent := path[1..], w.objects[path[0]].parent.value;
      assert forall i :: 0 < i < |rest| ==> rest[i - 1] == path[i] && rest[i] == path[i + 1];
      ResolveMeaning(w, [path[0]], rest, parent, uri, a);
      assert [path[0]] + rest == path;
      if !AnswersAtEnd(w, path, uri, a) {
        ChainUpward(w, rest, parent);
      }
    } else {
      assert path == [path[0]];
    }
  }

  lemma NearestAnswers(w: World, path: seq<Ref>, uri: Path, a: Access, once: nat, v: Verdict)
    requires Tree(w) && path != [] && Known(w, path) && Speaks(w, path[|path| - 1], uri, a, v)
    ensures ByAuthority(w, path, uri, a, once, RequestFrom(w, path[0], uri, a, once,
              Some(if v.status.response.Denied? then Refused(v) else Authorized(path, v))))
  {
    if v.status.response.Allowed? {
      AuthorityAsked(w, path, uri, a, once, v);
    }
  }

  lemma AuthorityAsked(w: World, path: seq<Ref>, uri: Path, a: Access, once: nat, v: Verdict)
    requires path != [] && Known(w, path) && v.uri == uri && v.access == a
    ensures var r := BeginAncestor(w, path[0], uri, a, once, path, v);
      if !w.reviewer then Denies(r, uri, a, NewAgentDecision)
      else r.Waiting? && IsFor(r.pending, path[0], uri, a, once) && AsksAuthority(w, path, v, r.pending)
  {
  }

  lemma UserAsked(w: World, path: seq<Ref>, uri: Path, a: Access, once: nat)
    requires Tree(w) && path != [] && Known(w, path) && PathToRoot(w, path[0]) == Some(path) && DefaultOf(w, a).AskUser?
    ensures ByDefault(w, path, uri, a, once, BeginUser(w, path[0], uri, a, once))
  {
  }

  lemma LlmAsked(w: World, path: seq<Ref>, uri: Path, a: Access, once: nat)
    requires Tree(w) && path != [] && Known(w, path) && PathToRoot(w, path[0]) == Some(path) && DefaultOf(w, a).AskLlm?
    ensures ByDefault(w, path, uri, a, once, BeginLlm(w, path[0], uri, a, once))
  {
  }

  lemma DefaultAnswers(w: World, path: seq<Ref>, uri: Path, a: Access, once: nat)
    requires Tree(w) && path != [] && Known(w, path) && PathToRoot(w, path[0]) == Some(path)
    ensures ByDefault(w, path, uri, a, once, RequestFrom(w, path[0], uri, a, once, Some(Unresolved)))
  {
    if DefaultOf(w, a).AskUser? {
      UserAsked(w, path, uri, a, once);
    } else if DefaultOf(w, a).AskLlm? {
      LlmAsked(w, path, uri, a, once);
    }
  }

  lemma OpenRequest(w: World, requester: Ref, uri: Path, a: Access, once: nat)
    requires Sound(w) && requester in w.objects && once in w.once && Open(w, requester, uri, a, once)
    requires TextLength(uri) <= MAX_POLICY_URI_CHARS && !w.closing
    ensures Request(w, requester, uri, a, once) == RequestFrom(w, requester, uri, a, once, ResolveAncestor(w, requester, uri, a))
  {
    AuthorityMeaning(w, requester, uri, a);
    LookupMeaning(w.once[once], uri, a);
  }

  /** An open request goes to the nearest ancestor with something to say, and otherwise to whom the default names. */
  lemma RequestAsks(w: World, path: seq<Ref>, uri: Path, a: Access, once: nat)
    requires Sound(w) && once in w.once && Asked(w, path, uri, a) && Open(w, path[0], uri, a, once)
    requires TextLength(uri) <= MAX_POLICY_URI_CHARS && !w.closing
    ensures var r := Request(w, path[0], uri, a, once);
      if AnswersAtEnd(w, path, uri, a) then ByAuthority(w, path, uri, a, once, r) else ByDefault(w, path, uri, a, once, r)
  {
    OpenRequest(w, path[0], uri, a, once);
    AncestorMeaning(w, path, uri, a);
    if AnswersAtEnd(w, path, uri, a) {
      AuthorityMeaning(w, path[|path| - 1], uri, a);
      NearestAnswers(w, path, uri, a, once, Authority(w, path[|path| - 1], uri, a).value);
    } else {
      DefaultAnswers(w, path, uri, a, once);
    }
  }

  /** A requester whose parent has been removed cannot ask anybody. */
  lemma RequestOrphaned(w: World, requester: Ref, uri: Path, a: Access, once: nat)
    requires Sound(w) && requester in w.objects && once in w.once && Open(w, requester, uri, a, once)
    requires TextLength(uri) <= MAX_POLICY_URI_CHARS && !w.closing
    requires w.objects[requester].parent.Some? && w.objects[requester].parent.value !in w.live
    ensures Request(w, requester, uri, a, once).Raised?
  {
    OpenRequest(w, requester, uri, a, once);
  }
}
