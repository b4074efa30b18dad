/** The state of the policy runtime and its operations, as functions. Principals are objects with an
    identity: a removed one lives on in the requests that hold it, and a new one may reuse its name. */
module PolicyWorld {
  import opened Options
  import opened PolicyScope
  import opened PolicyTypes
  import opened PolicyEngine

  type AgentId = string

  // The identity of a principal object; later objects have greater identities.
  type Ref = nat

  datatype Principal = Principal(agent: AgentId, parent: Option<AgentId>, children: set<AgentId>,
                                 policies: seq<Policy>, policyRevision: nat,
                                 context: string, contextRevision: nat)

  datatype PerArea<T> = PerArea(read: T, write: T) {
    function Get(area: Area): T {
      if area.ReadArea? then read else write
    }

    function With(area: Area, value: T): PerArea<T> {
      if area.ReadArea? then this.(read := value) else this.(write := value)
    }
  }

  /** The rules of the policy database, one for each pattern and access. */
  type Rules = map<(Path, Access), Status>

  datatype World = World(
    root: AgentId,
    objects: map<Ref, Principal>,
    live: map<AgentId, Ref>,
    next: Ref,
    fallbacks: seq<Policy>,
    defaults: PerArea<Fallback>,
    revisions: PerArea<nat>,
    database: Rules,
    once: map<nat, seq<Policy>>,
    reviewer: bool,
    closing: bool)

  datatype Choice = Choice(uri: Path, access: Access, lifetime: Lifetime, response: Response, reason: string)

  const MAX_AGENT_POLICY_SCOPES := 32
  const MAX_AGENT_POLICY_SCOPE_CHARS := 32000
  const MAX_POLICY_URI_CHARS := 16000

  // ---- The tree of principals ----

  predicate IsLive(w: World, ref: Ref) {
    ref in w.objects && w.objects[ref].agent in w.live && w.live[w.objects[ref].agent] == ref
  }

  /** Principals form a tree below the root: every other one has a live parent, registered before it, which
      lists it as a child, and lists nobody else. */
  ghost predicate Tree(w: World) {
    && w.root in w.live
    && (forall ref :: ref in w.objects ==> ref < w.next)
    && (forall id {:trigger Node(w, id)} :: id in w.live ==> Node(w, id))
  }

  ghost predicate Node(w: World, id: AgentId)
    requires id in w.live
  {
    && w.live[id] in w.objects && w.objects[w.live[id]].agent == id
    && (if id == w.root then w.objects[w.live[id]].parent.None? else HasParent(w, id))
    && (forall child :: child in w.objects[w.live[id]].children ==> IsChild(w, id, child))
  }

  ghost predicate IsChild(w: World, id: AgentId, child: AgentId) {
    child in w.live && w.live[child] in w.objects && w.objects[w.live[child]].parent == Some(id)
  }

  ghost predicate HasParent(w: World, id: AgentId)
    requires id in w.live && w.live[id] in w.objects
  {
    var p := w.objects[w.live[id]].parent;
    p.Some? && p.value in w.live && w.live[p.value] in w.objects
    && w.live[p.value] < w.live[id] && id in w.objects[w.live[p.value]].children
  }

  /** The principals from a live one to the root, by following parent names. */
  function Chain(w: World, id: AgentId): (path: seq<Ref>)
    requires Tree(w) && id in w.live
    ensures path != [] && path[0] == w.live[id]
    ensures forall ref :: ref in path ==> ref in w.objects
    decreases w.live[id]
  {
    assert Node(w, id);
    if id == w.root then [w.live[id]]
    else [w.live[id]] + Chain(w, w.objects[w.live[id]].parent.value)
  }

  /** The path from any object, live or not, if its parent is still there. */
  function PathToRoot(w: World, ref: Ref): (path: Option<seq<Ref>>)
    requires Tree(w) && ref in w.objects
    ensures path.Some? ==> path.value != [] && path.value[0] == ref && forall r :: r in path.value ==> r in w.objects
  {
    var parent := w.objects[ref].parent;
    if parent.None? then Some([ref])
    else if parent.value !in w.live then None
    else Some([ref] + Chain(w, parent.value))
  }

  // ---- Snapshots ----

  datatype Snapshot = Snapshot(path: seq<Ref>, policyRevisions: seq<nat>, contextRevisions: seq<nat>)

  predicate Known(w: World, path: seq<Ref>) {
    forall ref :: ref in path ==> ref in w.objects
  }

  function TakeSnapshot(w: World, path: seq<Ref>): Snapshot
    requires Known(w, path)
  {
    Snapshot(path, seq(|path|, i requires 0 <= i < |path| => w.objects[path[i]].policyRevision),
             seq(|path|, i requires 0 <= i < |path| => w.objects[path[i]].contextRevision))
  }

  predicate WellFormed(s: Snapshot) {
    |s.policyRevisions| == |s.path| && |s.contextRevisions| == |s.path|
  }

  predicate Unchanged(w: World, s: Snapshot)
    requires Known(w, s.path) && WellFormed(s)
  {
    forall i :: 0 <= i < |s.path| ==>
      w.objects[s.path[i]].policyRevision == s.policyRevisions[i]
      && w.objects[s.path[i]].contextRevision == s.contextRevisions[i]
  }

  /** Every object of the path is still the registered one, and each is the parent of the one before. */
  predicate Active(w: World, path: seq<Ref>)
    requires Known(w, path)
  {
    && (forall i :: 0 <= i < |path| ==> IsLive(w, path[i]))
    && (forall i :: 0 < i < |path| ==> w.objects[path[i - 1]].parent == Some(w.objects[path[i]].agent))
  }

  // ---- Looking up ----

  function SystemVerdict(v: Verdict): Verdict {
    v.(source := System)
  }

  function FailedClosed(uri: Path, a: Access, reason: string): Verdict {
    Verdict(uri, a, uri, Status(Once, Denied, reason), System)
  }

  function RootFallback(w: World, uri: Path, a: Access): Option<Verdict> {
    var v := Evaluate(w.fallbacks, uri, a);
    if v.Some? then Some(SystemVerdict(v.value)) else None
  }

  /** What a principal may authorize by itself: its own policies, and for the root the fallbacks too. */
  function Authority(w: World, ref: Ref, uri: Path, a: Access): Option<Verdict>
    requires ref in w.objects
  {
    var local := Evaluate(w.objects[ref].policies, uri, a);
    if local.Some? || w.objects[ref].agent != w.root then local else RootFallback(w, uri, a)
  }

  datatype Resolution =
    | Refused(verdict: Verdict)
    | Authorized(path: seq<Ref>, verdict: Verdict)
    | Unresolved

  /** The nearest ancestor with something to say; `path` has been walked so far. */
  function Resolve(w: World, path: seq<Ref>, id: AgentId, uri: Path, a: Access): (r: Resolution)
    requires Tree(w) && id in w.live && Known(w, path)
    ensures r.Authorized? ==> |r.path| > |path| && path <= r.path && Known(w, r.path)
    decreases w.live[id]
  {
    assert Node(w, id);
    var ref := w.live[id];
    var walked := path + [ref];
    var v := Authority(w, ref, uri, a);
    if v.Some? then
      if v.value.status.response.Denied? then Refused(v.value) else Authorized(walked, v.value)
    else if id == w.root then Unresolved
    else Resolve(w, walked, w.objects[ref].parent.value, uri, a)
  }

  /** `None` when the requester's parent is gone. */
  function ResolveAncestor(w: World, requester: Ref, uri: Path, a: Access): Option<Resolution>
    requires Tree(w) && requester in w.objects
  {
    var parent := w.objects[requester].parent;
    if parent.None? then Some(Unresolved)
    else if parent.value !in w.live then None
    else Some(Resolve(w, [requester], parent.value, uri, a))
  }

  // ---- What a reviewer may grant ----

  function Covered(source: Path, scopes: seq<Path>): seq<Path> {
    if scopes == [] then []
    else (if Covers(source, scopes[0]) then [scopes[0]] else []) + Covered(source, scopes[1..])
  }

  function Bounded(scopes: seq<Path>, required: Path, selected: seq<Path>, chars: nat): seq<Path>
    decreases |scopes|
  {
    if scopes == [] then selected + [required]
    else if scopes[0] == required || scopes[0] in selected then Bounded(scopes[1..], required, selected, chars)
    else if |selected| >= MAX_AGENT_POLICY_SCOPES - 1 then selected + [required]
    else if chars + TextLength(scopes[0]) + TextLength(required) > MAX_AGENT_POLICY_SCOPE_CHARS then
      Bounded(scopes[1..], required, selected, chars)
    else Bounded(scopes[1..], required, selected + [scopes[0]], chars + TextLength(scopes[0]))
  }

  function AllowedScopes(uri: Path, source: Path): seq<Path> {
    var hierarchy := Hierarchy(uri, MAX_AGENT_POLICY_SCOPES);
    Bounded(Covered(source, if source in hierarchy then hierarchy else hierarchy + [source]), source, [], 0)
  }

  function AllowedLifetimes(source: Lifetime): set<Lifetime> {
    if source.Once? then {Once} else {Once, Session}
  }

  /** The reviewer's choice stays within what was offered. */
  predicate ValidChoice(c: Choice, a: Access, scopes: seq<Path>, lifetimes: set<Lifetime>) {
    c.access == a && c.uri in scopes && c.lifetime in lifetimes
  }

  // ---- Granting ----

  function PolicyOf(c: Choice): Policy {
    Policy(c.uri, map[c.access := Status(c.lifetime, c.response, c.reason)])
  }

  function SessionPolicy(p: Policy): Policy {
    p.(info := map a | a in p.info :: p.info[a].(lifetime := Session))
  }

  function Grant(w: World, ref: Ref, p: Policy): World
    requires ref in w.objects
  {
    var o := w.objects[ref];
    w.(objects := w.objects[ref := o.(policies := AddOne(o.policies, p), policyRevision := o.policyRevision + 1)])
  }

  function GrantAll(w: World, refs: seq<Ref>, p: Policy): (n: World)
    requires Known(w, refs)
    ensures n.objects.Keys == w.objects.Keys
    decreases |refs|
  {
    if refs == [] then w else GrantAll(Grant(w, refs[0], p), refs[1..], p)
  }

  function GrantOnce(w: World, once: nat, p: Policy): World
    requires once in w.once
  {
    w.(once := w.once[once := AddOne(w.once[once], p)])
  }

  // ---- Requests ----

  datatype Pending =
    | UserReview(requester: Ref, uri: Path, access: Access, once: nat, snapshot: Snapshot, fallback: nat)
    | AncestorReview(requester: Ref, uri: Path, access: Access, once: nat, snapshot: Snapshot,
                     borrowed: Option<nat>, scopes: seq<Path>, lifetimes: set<Lifetime>)
    | LlmReview(requester: Ref, uri: Path, access: Access, once: nat, snapshot: Snapshot, fallback: nat,
                scopes: seq<Path>)

  datatype Outcome = Decided(verdict: Verdict) | Waiting(pending: Pending) | Raised

  function DeniedBy(source: Source, uri: Path, a: Access, reason: string): Verdict {
    Verdict(uri, a, uri, Status(Once, Denied, reason), source)
  }

  function FallbackRevision(w: World, a: Access): nat {
    w.revisions.Get(AreaOf(a))
  }

  function BeginAncestor(w: World, requester: Ref, uri: Path, a: Access, once: nat,
                         path: seq<Ref>, authority: Verdict): Outcome
    requires Known(w, path)
  {
    if !w.reviewer then Decided(DeniedBy(NewAgentDecision, uri, a, "Authorized super-agent review is unavailable."))
    else Waiting(AncestorReview(requester, uri, a, once, TakeSnapshot(w, path),
                                if authority.source.System? then Some(FallbackRevision(w, a)) else None,
                                AllowedScopes(uri, authority.pattern), AllowedLifetimes(authority.status.lifetime)))
  }

  function BeginLlm(w: World, requester: Ref, uri: Path, a: Access, once: nat): Outcome
    requires Tree(w) && requester in w.objects
  {
    var path := PathToRoot(w, requester);
    if path.None? then Raised
    else if !w.reviewer then Decided(DeniedBy(System, uri, a, "LLM policy review is unavailable."))
    else Waiting(LlmReview(requester, uri, a, once, TakeSnapshot(w, path.value), FallbackRevision(w, a),
                           AllowedScopes(uri, ROOT)))
  }

  function BeginUser(w: World, requester: Ref, uri: Path, a: Access, once: nat): Outcome
    requires Tree(w) && requester in w.objects
  {
    var path := PathToRoot(w, requester);
    if path.None? then Raised
    else Waiting(UserReview(requester, uri, a, once, TakeSnapshot(w, path.value), FallbackRevision(w, a)))
  }

  /** Nobody above has anything to say: the area's default does. */
  function RequestDefault(w: World, requester: Ref, uri: Path, a: Access, once: nat): Outcome
    requires Tree(w) && requester in w.objects
  {
    match w.defaults.Get(AreaOf(a))
    case AskLlm => BeginLlm(w, requester, uri, a, once)
    case AskUser => BeginUser(w, requester, uri, a, once)
    case _ => Decided(FailedClosed(uri, a, "Policy fallback had no matching automated policy."))
  }

  function RequestAbove(w: World, requester: Ref, uri: Path, a: Access, once: nat): Outcome
    requires Tree(w) && requester in w.objects
  {
    RequestFrom(w, requester, uri, a, once, ResolveAncestor(w, requester, uri, a))
  }

  /** What follows from the nearest ancestor with something to say. */
  function RequestFrom(w: World, requester: Ref, uri: Path, a: Access, once: nat, found: Option<Resolution>): Outcome
    requires Tree(w) && requester in w.objects
    requires found.Some? && found.value.Authorized? ==> Known(w, found.value.path)
  {
    match found
    case None => Raised
    case Some(Refused(v)) => Decided(v)
    case Some(Authorized(path, v)) => BeginAncestor(w, requester, uri, a, once, path, v)
    case Some(Unresolved) => RequestDefault(w, requester, uri, a, once)
  }

  /** What is stored for the requester and for the call comes first. */
  function RequestOpen(w: World, requester: Ref, uri: Path, a: Access, once: nat): Outcome
    requires Tree(w) && requester in w.objects && once in w.once
  {
    if Authority(w, requester, uri, a).Some? then Decided(Authority(w, requester, uri, a).value)
    else if Evaluate(w.once[once], uri, a).Some? then Decided(Evaluate(w.once[once], uri, a).value)
    else RequestAbove(w, requester, uri, a, once)
  }

  /** The decision for one access, or the review it has to wait for. */
  function Request(w: World, requester: Ref, uri: Path, a: Access, once: nat): Outcome
    requires Tree(w) && requester in w.objects && once in w.once
  {
    if TextLength(uri) > MAX_POLICY_URI_CHARS then
      Decided(FailedClosed(uri, a, "Policy target exceeds the maximum supported length."))
    else if w.closing then Decided(FailedClosed(uri, a, "Policy runtime is shutting down."))
    else RequestOpen(w, requester, uri, a, once)
  }

  // ---- Completions ----

  /** The objects and the call that a request holds exist for as long as it does. */
  predicate Holds(w: World, p: Pending) {
    && p.requester in w.objects && p.once in w.once
    && p.snapshot.path != [] && p.snapshot.path[0] == p.requester
    && Known(w, p.snapshot.path) && WellFormed(p.snapshot)
  }

  /** What was stored for the requester or its call while it waited. */
  function StoredMeanwhile(w: World, p: Pending): Option<Verdict>
    requires Holds(w, p)
  {
    var local := Evaluate(w.objects[p.requester].policies, p.uri, p.access);
    if local.Some? then local else Evaluate(w.once[p.once], p.uri, p.access)
  }

  predicate DefaultIs(w: World, p: Pending, f: Fallback)
    requires !p.AncestorReview?
  {
    FallbackRevision(w, p.access) == p.fallback && w.defaults.Get(AreaOf(p.access)) == f
  }

  /** The full check before the user is asked: what already answers the request, or why nobody needs to. */
  function BeforePrompt(w: World, p: Pending, aborted: bool): Option<Verdict>
    requires Tree(w) && p.UserReview? && Holds(w, p)
  {
    if aborted || w.closing || !Active(w, p.snapshot.path) then
      Some(FailedClosed(p.uri, p.access, "User policy approval is no longer active."))
    else if Authority(w, p.requester, p.uri, p.access).Some? then Authority(w, p.requester, p.uri, p.access)
    else if Evaluate(w.once[p.once], p.uri, p.access).Some? then Evaluate(w.once[p.once], p.uri, p.access)
    else
      match ResolveAncestor(w, p.requester, p.uri, p.access)
      case Some(Refused(v)) => Some(v)
      case _ =>
        if !Unchanged(w, p.snapshot) || !DefaultIs(w, p, AskUser) then
          Some(FailedClosed(p.uri, p.access, "User policy approval is no longer active."))
        else None
  }

  /** Why the shortened check at completion refuses the user's choice or replaces it. */
  function UserObstacle(w: World, p: Pending, aborted: bool): Option<Verdict>
    requires p.UserReview? && Holds(w, p)
  {
    if aborted || w.closing || !DefaultIs(w, p, AskUser) then
      Some(FailedClosed(p.uri, p.access, "User policy approval is no longer active."))
    else if StoredMeanwhile(w, p).Some? then StoredMeanwhile(w, p)
    else if !Active(w, p.snapshot.path) || !Unchanged(w, p.snapshot) then
      Some(FailedClosed(p.uri, p.access, "User policy approval is no longer active."))
    else None
  }

  function Inner(path: seq<Ref>): seq<Ref>
    requires path != []
  {
    path[..|path| - 1]
  }

  /** A lasting choice replaces what the database held for its pattern and access. */
  function Recorded(w: World, c: Choice): World {
    if Persisted(c.lifetime) then w.(database := w.database[(c.uri, c.access) := PolicyOf(c).info[c.access]]) else w
  }

  function StoredAtRoot(w: World, c: Choice): World
    requires Tree(w)
  {
    assert Node(w, w.root);
    Grant(Recorded(w, c), w.live[w.root], PolicyOf(c))
  }

  /** A lasting choice goes to the root, and to everyone below it on the path for the session only. */
  function InstallUser(w: World, p: Pending, c: Choice): (World, Lifetime)
    requires Tree(w) && p.UserReview? && Holds(w, p)
  {
    var policy := PolicyOf(c);
    if c.lifetime.Once? then (GrantOnce(w, p.once, policy), Once)
    else
      var rooted := StoredAtRoot(w, c);
      if w.objects[p.requester].agent == w.root then (rooted, c.lifetime)
      else (GrantAll(rooted, Inner(p.snapshot.path), SessionPolicy(policy)), Session)
  }

  function CompleteUser(w: World, p: Pending, c: Choice, aborted: bool): (World, Verdict)
    requires Tree(w) && p.UserReview? && Holds(w, p)
  {
    if UserObstacle(w, p, aborted).Some? then (w, UserObstacle(w, p, aborted).value)
    else
      var (n, lifetime) := InstallUser(w, p, c);
      (n, Verdict(p.uri, p.access, c.uri, Status(lifetime, c.response, c.reason), NewUserDecision))
  }

  /** The authority that answers now, if it is the one the review was asked from, on an unchanged path. */
  function CurrentAuthority(w: World, p: Pending): Option<Verdict>
    requires Tree(w) && p.AncestorReview? && Holds(w, p)
  {
    match ResolveAncestor(w, p.requester, p.uri, p.access)
    case Some(Authorized(path, v)) =>
      if Unchanged(w, p.snapshot) && (p.borrowed.None? || FallbackRevision(w, p.access) == p.borrowed.value)
         && path[|path| - 1] == p.snapshot.path[|p.snapshot.path| - 1]
      then Some(v) else None
    case _ => None
  }

  predicate AncestorMayChoose(w: World, p: Pending, c: Choice)
    requires Tree(w) && p.AncestorReview? && Holds(w, p)
  {
    var v := CurrentAuthority(w, p);
    v.Some? && ValidChoice(c, p.access, p.scopes, p.lifetimes)
    && ValidChoice(c, p.access, AllowedScopes(p.uri, v.value.pattern), AllowedLifetimes(v.value.status.lifetime))
  }

  function InstallReviewed(w: World, p: Pending, refs: seq<Ref>, c: Choice): World
    requires Holds(w, p) && Known(w, refs)
  {
    if c.lifetime.Session? then GrantAll(w, refs, PolicyOf(c)) else GrantOnce(w, p.once, PolicyOf(c))
  }

  function ReviewVerdict(p: Pending, c: Choice, source: Source): Verdict {
    Verdict(p.uri, p.access, c.uri, Status(c.lifetime, c.response, c.reason), source)
  }

  function AncestorFailed(p: Pending): Option<Verdict> {
    Some(DeniedBy(NewAgentDecision, p.uri, p.access, "Agent policy approval failed closed."))
  }

  /** Why the authority that answers now does not let the choice through. */
  function AncestorRefusal(w: World, p: Pending, c: Choice): Option<Verdict>
    requires Tree(w) && p.AncestorReview? && Holds(w, p)
  {
    var r := ResolveAncestor(w, p.requester, p.uri, p.access);
    if r.Some? && r.value.Refused? then Some(r.value.verdict)
    else if !AncestorMayChoose(w, p, c) then AncestorFailed(p)
    else None
  }

  /** Why an ancestor's answer is refused or replaced; `answer` is missing when the reviewer failed. */
  function AncestorObstacle(w: World, p: Pending, answer: Option<Choice>, aborted: bool): Option<Verdict>
    requires Tree(w) && p.AncestorReview? && Holds(w, p)
  {
    if answer.None? || aborted || w.closing || !Active(w, p.snapshot.path) then AncestorFailed(p)
    else if StoredMeanwhile(w, p).Some? then StoredMeanwhile(w, p)
    else AncestorRefusal(w, p, answer.value)
  }

  function CompleteAncestor(w: World, p: Pending, answer: Option<Choice>, aborted: bool): (World, Verdict)
    requires Tree(w) && p.AncestorReview? && Holds(w, p)
  {
    var obstacle := AncestorObstacle(w, p, answer, aborted);
    if obstacle.Some? then (w, obstacle.value)
    else (InstallReviewed(w, p, Inner(p.snapshot.path), answer.value), ReviewVerdict(p, answer.value, NewAgentDecision))
  }

  predicate LlmMayChoose(w: World, p: Pending, c: Choice)
    requires p.LlmReview? && Holds(w, p)
  {
    && Active(w, p.snapshot.path) && Unchanged(w, p.snapshot) && DefaultIs(w, p, AskLlm)
    && ValidChoice(c, p.access, p.scopes, {Once, Session})
    && ValidChoice(c, p.access, AllowedScopes(p.uri, ROOT), {Once, Session})
  }

  function CompleteLlm(w: World, p: Pending, answer: Option<Choice>, aborted: bool): (World, Verdict)
    requires p.LlmReview? && Holds(w, p)
  {
    var failed := (w, DeniedBy(System, p.uri, p.access, "LLM policy approval failed closed."));
    if answer.None? || aborted || w.closing then failed
    else if StoredMeanwhile(w, p).Some? then (w, StoredMeanwhile(w, p).value)
    else if !LlmMayChoose(w, p, answer.value) then failed
    else (InstallReviewed(w, p, p.snapshot.path, answer.value), ReviewVerdict(p, answer.value, NewDefaultLlmDecision))
  }

  // ---- Changing the world ----

  /** The fallback engine's one policy for an area, at the root scope. */
  function WithFallback(fallbacks: seq<Policy>, area: Area, f: Fallback): seq<Policy> {
    if Automatic(f).None? then RemoveOne(fallbacks, ROOT, {AccessOf(area)})
    else AddOne(fallbacks, Policy(ROOT, map[AccessOf(area) := Status(Session, Automatic(f).value, "Automated fallback")]))
  }

  /** The world of a new runtime: the root alone, holding what the database holds. */
  function Initial(root: AgentId, stored: seq<Policy>, defaults: PerArea<Fallback>, context: string, entries: Rules): World {
    World(root, map[0 := Principal(root, None, {}, Add([], stored), 0, context, 0)], map[root := 0], 1,
          WithFallback(WithFallback([], ReadArea, defaults.read), WriteArea, defaults.write),
          defaults, PerArea(0, 0), entries, map[], false, false)
  }

  function SetDefault(w: World, area: Area, f: Fallback): World {
    if w.defaults.Get(area) == f then w
    else w.(defaults := w.defaults.With(area, f), revisions := w.revisions.With(area, w.revisions.Get(area) + 1),
            fallbacks := WithFallback(w.fallbacks, area, f))
  }

  function Narrowed(info: map<Access, Status>, accesses: set<Access>): map<Access, Status> {
    map a | a in info && a in accesses :: info[a].(lifetime := Session)
  }

  function Restricted(ps: seq<Policy>, accesses: set<Access>): seq<Policy> {
    if ps == [] then []
    else
      var info := Narrowed(ps[0].info, accesses);
      (if info == map[] then [] else [Policy(ps[0].pattern, info)]) + Restricted(ps[1..], accesses)
  }

  function Effective(w: World, ref: Ref): seq<Policy>
    requires ref in w.objects
  {
    if w.objects[ref].agent == w.root then Add(Add([], w.fallbacks), w.objects[ref].policies) else w.objects[ref].policies
  }

  function Inherited(w: World, parent: Ref, areas: set<Area>): seq<Policy>
    requires parent in w.objects
  {
    if areas == {} then [] else Restricted(Effective(w, parent), set area | area in areas :: AccessOf(area))
  }

  function Admit(w: World, child: Principal): World {
    w.(objects := w.objects[w.next := child], live := w.live[child.agent := w.next], next := w.next + 1)
  }

  function WithChildren(w: World, ref: Ref, children: set<AgentId>): World
    requires ref in w.objects
  {
    w.(objects := w.objects[ref := w.objects[ref].(children := children)])
  }

  predicate CanRegister(w: World, id: AgentId, parent: AgentId) {
    id !in w.live && parent in w.live
  }

  function Register(w: World, id: AgentId, parent: AgentId, areas: set<Area>, context: string): World
    requires Tree(w) && CanRegister(w, id, parent)
  {
    assert Node(w, parent);
    var p := w.live[parent];
    var child := Principal(id, Some(parent), {}, Add([], Inherited(w, p, areas)), 0, context, 0);
    WithChildren(Admit(w, child), p, w.objects[p].children + {id})
  }

  predicate CanRemove(w: World, id: AgentId)
    requires Tree(w)
  {
    id in w.live && id != w.root &&
    (assert Node(w, id); w.objects[w.live[id]].children == {})
  }

  function Remove(w: World, id: AgentId): World
    requires Tree(w) && CanRemove(w, id)
  {
    assert Node(w, id);
    var p := w.live[w.objects[w.live[id]].parent.value];
    WithChildren(w, p, w.objects[p].children - {id}).(live := w.live - {id})
  }

  function WithContext(w: World, ref: Ref, context: string): World
    requires ref in w.objects
  {
    var o := w.objects[ref];
    w.(objects := w.objects[ref := o.(context := context, contextRevision := o.contextRevision + 1)])
  }

  function SetContext(w: World, id: AgentId, context: string): World
    requires Tree(w) && id in w.live
  {
    assert Node(w, id);
    WithContext(w, w.live[id], context)
  }
}
