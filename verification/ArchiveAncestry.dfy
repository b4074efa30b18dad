/** Which family a session belongs to, by walking recorded parent links, and what the answer depends on. */
module ArchiveAncestry {
  import opened Options
  import opened ArchiveProtocol

  datatype Identity = Identity(sessionId: Id, main: bool, childKind: Option<Kind>, rootSessionId: Option<Id>,
                               parentAgentIdentifier: Option<Id>, identityConflict: bool)

  /** One observed session file; `file` is empty only for an active session that has none. */
  datatype Evidence = Evidence(file: string, parentSession: Option<string>, session: Identity)

  datatype Scope = Scope(current: bool, activeSession: Identity, sessionFile: Option<string>, rootSessionId: Option<Id>,
                         parentSession: Option<string>)

  /** The surroundings of a capture: path resolution against a file's directory, the files the scope may
      discover, and the identifiers a native session may have. */
  datatype World = World(resolve: (string, string) -> string, owns: string -> bool, native: Id -> bool, source: Scope)

  datatype Family = Family(kind: Kind, rootSessionId: Id)

  datatype Dependencies = Dependencies(files: set<string>, sessionIds: set<Id>)

  const NOTHING := Dependencies({}, {})

  function Both(a: Dependencies, b: Dependencies): Dependencies {
    Dependencies(a.files + b.files, a.sessionIds + b.sessionIds)
  }

  predicate IsChildKind(k: Kind) {
    k.Subagent? || k.PolicyApprover?
  }

  /** What the decoder of recorded identities lets through. */
  predicate ValidIdentity(w: World, i: Identity) {
    && w.native(i.sessionId)
    && (i.childKind.Some? ==> IsChildKind(i.childKind.value))
    && (i.parentAgentIdentifier.Some? ==> w.native(i.parentAgentIdentifier.value))
    && (i.rootSessionId.Some? ==> w.native(i.rootSessionId.value))
    && (i.main ==> i.childKind.None? && i.parentAgentIdentifier.None? && i.rootSessionId == Some(i.sessionId))
    && (!i.main && i.childKind.None? ==> i.rootSessionId.None? && i.parentAgentIdentifier.None?)
    && (i.childKind.Some? && i.rootSessionId.Some? ==>
          i.rootSessionId != Some(i.sessionId) && i.parentAgentIdentifier.Some? && i.parentAgentIdentifier != Some(i.sessionId))
  }

  /** Observed files have absolute paths. */
  predicate ValidEvidence(w: World, e: Evidence) {
    e.file != "" && ValidIdentity(w, e.session)
  }

  /** The observed sessions by path; every entry is filed under its own path. */
  type Index = map<string, Evidence>

  ghost predicate Filed(w: World, index: Index) {
    forall f :: f in index ==> index[f].file == f && ValidEvidence(w, index[f])
  }

  function Candidates(index: Index, id: Id): set<Evidence> {
    set f | f in index && index[f].session.sessionId == id :: index[f]
  }

  // ---- One hop ----

  datatype Move = Stop(family: Option<Family>) | Go(next: Evidence)

  /** The header's link, if it says anything. */
  function Header(e: Evidence): Option<string> {
    if e.parentSession == Some("") then None else e.parentSession
  }

  function ParentPath(w: World, e: Evidence): Option<string> {
    if Header(e).None? then None else Some(w.resolve(e.file, Header(e).value))
  }

  function FileOf(e: Evidence): set<string> {
    if e.file == "" then {} else {e.file}
  }

  /** The link from a child session to its parent: by owned path, by the agent's identifier, or by the header. */
  ghost function Link(w: World, index: Index, kind: Kind, e: Evidence, activeRoot: Option<Id>): (Move, Dependencies) {
    var parentId := e.session.parentAgentIdentifier;
    var parentPath := ParentPath(w, e);
    if parentPath.Some? && w.owns(parentPath.value) then
      (ByPath(w, index, kind, parentPath.value, parentId, activeRoot), Dependencies(FileOf(e) + {parentPath.value}, {}))
    else
      var candidates := if parentId.Some? then Candidates(index, parentId.value) else {};
      var ids := if parentId.Some? then {parentId.value} else {};
      if |candidates| == 1 then
        (Go(Sole(candidates)), Dependencies(FileOf(e), ids))
      else if |candidates| > 1 then (Stop(None), Dependencies(FileOf(e), ids))
      else
        (ByHeader(w, index, kind, e, parentPath, activeRoot),
         Dependencies(FileOf(e), ids + HeaderIds(w, e)))
  }

  function HeaderIds(w: World, e: Evidence): set<Id> {
    if Header(e).Some? && w.native(Header(e).value) then {Header(e).value} else {}
  }

  function ByPath(w: World, index: Index, kind: Kind, parentPath: string, parentId: Option<Id>, activeRoot: Option<Id>): Move {
    if parentPath !in index then
      if Some(parentPath) == w.source.sessionFile && (parentId.None? || parentId.value == w.source.activeSession.sessionId)
         && activeRoot.Some?
      then Stop(Some(Family(kind, activeRoot.value))) else Stop(None)
    else if parentId.Some? && index[parentPath].session.sessionId != parentId.value then Stop(None)
    else Go(index[parentPath])
  }

  ghost function ByHeader(w: World, index: Index, kind: Kind, e: Evidence, parentPath: Option<string>, activeRoot: Option<Id>): Move {
    var parentId := e.session.parentAgentIdentifier;
    var headers := if Header(e).None? then {} else Candidates(index, Header(e).value);
    var active := w.source.activeSession.sessionId;
    if |headers| == 1 && (parentId.None? || Sole(headers).session.sessionId == parentId.value) then Go(Sole(headers))
    else if (parentId == Some(active)
             || (parentPath == w.source.sessionFile && (parentId.None? || parentId == Some(active))))
            && |headers| <= 1 && activeRoot.Some?
    then Stop(Some(Family(kind, activeRoot.value)))
    else Stop(None)
  }

  ghost function Sole(s: set<Evidence>): (e: Evidence)
    requires |s| == 1
    ensures e in s
  {
    var e :| e in s;
    e
  }

  /** What one visited session says by itself, or where it links to. */
  ghost function Visit(w: World, index: Index, kind: Kind, e: Evidence, activeRoot: Option<Id>): (Move, Dependencies) {
    var i := e.session;
    if i.identityConflict then (Stop(None), Dependencies(FileOf(e), {}))
    else if i.main then (Stop(Some(Family(kind, i.sessionId))), Dependencies(FileOf(e), {}))
    else if i.childKind.Some? && i.rootSessionId.Some? then
      (Stop(Some(Family(kind, i.rootSessionId.value))), Dependencies(FileOf(e), {}))
    else if i.childKind.None? then
      (Stop(if Some(e.file) == w.source.sessionFile && i.sessionId == w.source.activeSession.sessionId
               && activeRoot == Some(i.sessionId) then Some(Family(kind, i.sessionId)) else None),
       Dependencies(FileOf(e), {}))
    else Link(w, index, kind, e, activeRoot)
  }

  // ---- The walk ----

  lemma GoesToIndexed(w: World, index: Index, kind: Kind, e: Evidence, activeRoot: Option<Id>)
    requires Filed(w, index)
    ensures var m := Visit(w, index, kind, e, activeRoot).0;
      m.Go? ==> m.next.file in index && index[m.next.file] == m.next
  {
    if Visit(w, index, kind, e, activeRoot) == Link(w, index, kind, e, activeRoot) {
      LinkGoes(w, index, kind, e, activeRoot);
    }
  }

  lemma LinkGoes(w: World, index: Index, kind: Kind, e: Evidence, activeRoot: Option<Id>)
    requires Filed(w, index)
    ensures var m := Link(w, index, kind, e, activeRoot).0;
      m.Go? ==> m.next.file in index && index[m.next.file] == m.next
  {
    var parentId, parentPath := e.session.parentAgentIdentifier, ParentPath(w, e);
    if !(parentPath.Some? && w.owns(parentPath.value)) {
      HeaderGoes(w, index, kind, e, parentPath, activeRoot);
      if parentId.Some? {
        SoleIndexed(w, index, parentId.value);
      }
    }
  }

  lemma SoleIndexed(w: World, index: Index, id: Id)
    requires Filed(w, index)
    ensures var s := Candidates(index, id); |s| == 1 ==> Sole(s).file in index && index[Sole(s).file] == Sole(s)
  {
    CandidatesIndexed(w, index, id);
  }

  lemma HeaderGoes(w: World, index: Index, kind: Kind, e: Evidence, parentPath: Option<string>, activeRoot: Option<Id>)
    requires Filed(w, index)
    ensures var m := ByHeader(w, index, kind, e, parentPath, activeRoot);
      m.Go? ==> m.next.file in index && index[m.next.file] == m.next
  {
    if Header(e).Some? {
      SoleIndexed(w, index, Header(e).value);
    }
  }

  lemma CandidatesIndexed(w: World, index: Index, id: Id)
    requires Filed(w, index)
    ensures forall c :: c in Candidates(index, id) ==> c.file in index && index[c.file] == c
  {
  }

  /** `seen` holds the files visited so far; parent links that lead round in a circle end the walk. */
  ghost function Walk(w: World, index: Index, kind: Kind, e: Evidence, activeRoot: Option<Id>, seen: set<string>)
    : (Option<Family>, Dependencies)
    requires Filed(w, index)
    decreases (index.Keys + {e.file}) - seen, 0
  {
    if e.file in seen then (None, Dependencies(FileOf(e), {}))
    else
      var (move, deps) := Visit(w, index, kind, e, activeRoot);
      match move
      case Stop(family) => (family, deps)
      case Go(next) =>
        GoesToIndexed(w, index, kind, e, activeRoot);
        WalkShrinks(index, e, next, seen);
        var (family, more) := Walk(w, index, kind, next, activeRoot, seen + {e.file});
        (family, Both(deps, more))
  }

  lemma WalkShrinks(index: Index, e: Evidence, next: Evidence, seen: set<string>)
    requires e.file !in seen && next.file in index
    ensures (index.Keys + {next.file}) - (seen + {e.file}) < (index.Keys + {e.file}) - seen
  {
    assert e.file in (index.Keys + {e.file}) - seen;
    assert (index.Keys + {next.file}) - (seen + {e.file}) <= (index.Keys + {e.file}) - seen;
  }

  function KindOf(e: Evidence): Kind {
    if e.session.childKind.Some? then e.session.childKind.value else Main
  }

  ghost function ResolveFamily(w: World, index: Index, e: Evidence, activeRoot: Option<Id>): (Option<Family>, Dependencies)
    requires Filed(w, index)
  {
    Walk(w, index, KindOf(e), e, activeRoot, {})
  }

  // ---- What the answer depends on ----

  function Lookup(index: Index, f: string): Option<Evidence> {
    if f in index then Some(index[f]) else None
  }

  /** Two indexes agree wherever an answer looked. */
  ghost predicate Agree(a: Index, b: Index, deps: Dependencies) {
    && (forall f :: f in deps.files ==> Lookup(a, f) == Lookup(b, f))
    && (forall id :: id in deps.sessionIds ==> Candidates(a, id) == Candidates(b, id))
  }

  /** Only native identifiers occur, so another header value never finds a candidate. */
  lemma NoForeignCandidates(w: World, index: Index, id: Id)
    requires Filed(w, index) && !w.native(id)
    ensures Candidates(index, id) == {}
  {
  }

  lemma ByHeaderAgrees(w: World, a: Index, b: Index, kind: Kind, e: Evidence, parentPath: Option<string>, activeRoot: Option<Id>)
    requires Filed(w, a) && Filed(w, b) && Agree(a, b, Dependencies({}, HeaderIds(w, e)))
    ensures ByHeader(w, b, kind, e, parentPath, activeRoot) == ByHeader(w, a, kind, e, parentPath, activeRoot)
  {
    if Header(e).Some? {
      if w.native(Header(e).value) {
        assert Header(e).value in HeaderIds(w, e);
      } else {
        NoForeignCandidates(w, a, Header(e).value);
        NoForeignCandidates(w, b, Header(e).value);
      }
    }
  }

  lemma LinkAgrees(w: World, a: Index, b: Index, kind: Kind, e: Evidence, activeRoot: Option<Id>)
    requires Filed(w, a) && Filed(w, b) && Agree(a, b, Link(w, a, kind, e, activeRoot).1)
    ensures Link(w, b, kind, e, activeRoot) == Link(w, a, kind, e, activeRoot)
  {
    var parentId, parentPath := e.session.parentAgentIdentifier, ParentPath(w, e);
    var deps := Link(w, a, kind, e, activeRoot).1;
    if parentPath.Some? && w.owns(parentPath.value) {
      assert parentPath.value in deps.files;
    } else {
      assert parentId.Some? ==> parentId.value in deps.sessionIds;
      if parentId.None? || |Candidates(a, parentId.value)| == 0 {
        assert HeaderIds(w, e) <= deps.sessionIds;
        ByHeaderAgrees(w, a, b, kind, e, parentPath, activeRoot);
      }
    }
  }

  lemma VisitAgrees(w: World, a: Index, b: Index, kind: Kind, e: Evidence, activeRoot: Option<Id>)
    requires Filed(w, a) && Filed(w, b) && Agree(a, b, Visit(w, a, kind, e, activeRoot).1)
    ensures Visit(w, b, kind, e, activeRoot) == Visit(w, a, kind, e, activeRoot)
  {
    if Visit(w, a, kind, e, activeRoot) == Link(w, a, kind, e, activeRoot) {
      LinkAgrees(w, a, b, kind, e, activeRoot);
    }
  }

  lemma {:induction false} WalkAgrees(w: World, a: Index, b: Index, kind: Kind, e: Evidence, activeRoot: Option<Id>, seen: set<string>)
    requires Filed(w, a) && Filed(w, b) && Agree(a, b, Walk(w, a, kind, e, activeRoot, seen).1)
    ensures Walk(w, b, kind, e, activeRoot, seen) == Walk(w, a, kind, e, activeRoot, seen)
    decreases (a.Keys + {e.file}) - seen
  {
    if e.file !in seen {
      var (move, deps) := Visit(w, a, kind, e, activeRoot);
      VisitAgrees(w, a, b, kind, e, activeRoot);
      if move.Go? {
        GoesToIndexed(w, a, kind, e, activeRoot);
        WalkShrinks(a, e, move.next, seen);
        WalkAgrees(w, a, b, kind, move.next, activeRoot, seen + {e.file});
      }
    }
  }

  // ---- What the answer is ----

  /** A session that says of itself only that it is somebody's child. */
  predicate Orphan(e: Evidence) {
    !e.session.identityConflict && !e.session.main && e.session.childKind.Some? && e.session.rootSessionId.None?
  }

  predicate HasOwnedPath(w: World, e: Evidence) {
    ParentPath(w, e).Some? && w.owns(ParentPath(w, e).value)
  }

  predicate Agrees(id: Option<Id>, e: Evidence) {
    id.None? || e.session.sessionId == id.value
  }

  /** The parent is the one observed at the linked path if the scope owns that path; otherwise the only one observed under
      the agent's identifier, or, if nobody is, the only one under the header's. */
  ghost predicate IsParent(w: World, index: Index, e: Evidence, parent: Evidence) {
    var id := e.session.parentAgentIdentifier;
    if HasOwnedPath(w, e) then Lookup(index, ParentPath(w, e).value) == Some(parent) && Agrees(id, parent)
    else if id.Some? && Candidates(index, id.value) != {} then Candidates(index, id.value) == {parent}
    else Header(e).Some? && Candidates(index, Header(e).value) == {parent} && Agrees(id, parent)
  }

  /** Nobody observed is the parent, but the links name the active session. */
  ghost predicate LinksToActive(w: World, index: Index, e: Evidence) {
    var (id, active) := (e.session.parentAgentIdentifier, w.source.activeSession.sessionId);
    if HasOwnedPath(w, e) then
      ParentPath(w, e) == w.source.sessionFile && Lookup(index, ParentPath(w, e).value).None? && (id.None? || id == Some(active))
    else
      && (id == Some(active) || (id.None? && ParentPath(w, e) == w.source.sessionFile))
      && (id.Some? ==> Candidates(index, id.value) == {})
      && (Header(e).Some? ==> |Candidates(index, Header(e).value)| <= 1)
      && forall parent :: !IsParent(w, index, e, parent)
  }

  /** The session settles the root: by what it says of itself, as the active session, or as a child of the active one. */
  ghost predicate Settles(w: World, index: Index, e: Evidence, activeRoot: Option<Id>, root: Id) {
    && !e.session.identityConflict
    && (|| (e.session.main && e.session.sessionId == root)
        || (!e.session.main && e.session.childKind.Some? && e.session.rootSessionId == Some(root))
        || (!e.session.main && e.session.childKind.None? && IsActive(w, e) && e.session.sessionId == root && activeRoot == Some(root))
        || (Orphan(e) && LinksToActive(w, index, e) && activeRoot == Some(root)))
  }

  /** From child to parent, never twice through the same file, up to a session that settles the root. */
  ghost predicate Lineage(w: World, index: Index, chain: seq<Evidence>, activeRoot: Option<Id>, root: Id) {
    && chain != [] && Settles(w, index, chain[|chain| - 1], activeRoot, root)
    && (forall i :: 0 <= i < |chain| - 1 ==> Orphan(chain[i]) && IsParent(w, index, chain[i], chain[i + 1]))
    && (forall i, j :: 0 <= i < j < |chain| ==> chain[i].file != chain[j].file)
  }

  ghost predicate HasRoot(w: World, index: Index, e: Evidence, activeRoot: Option<Id>, root: Id) {
    exists chain :: Lineage(w, index, chain, activeRoot, root) && chain[0] == e
  }

  // ---- One hop, by what is observed ----

  lemma SoleIs(s: set<Evidence>)
    requires |s| == 1
    ensures s == {Sole(s)}
  {
    var e := Sole(s);
    assert |s - {e}| == 0;
  }

  lemma OneIsSole(s: set<Evidence>, e: Evidence)
    requires s == {e}
    ensures |s| == 1 && Sole(s) == e
  {
  }

  /** A hop goes to the parent, stops with the active root, or stops with nothing. */
  ghost predicate HopIs(w: World, index: Index, kind: Kind, e: Evidence, activeRoot: Option<Id>, move: Move) {
    match move
    case Go(next) => IsParent(w, index, e, next)
    case Stop(family) =>
      && (forall parent :: !IsParent(w, index, e, parent))
      && family == if LinksToActive(w, index, e) && activeRoot.Some? then Some(Family(kind, activeRoot.value)) else None
  }

  lemma PathHop(w: World, index: Index, kind: Kind, e: Evidence, activeRoot: Option<Id>)
    requires HasOwnedPath(w, e)
    ensures HopIs(w, index, kind, e, activeRoot, Link(w, index, kind, e, activeRoot).0)
  {
  }

  lemma IdentifierHop(w: World, index: Index, kind: Kind, e: Evidence, activeRoot: Option<Id>)
    requires !HasOwnedPath(w, e) && e.session.parentAgentIdentifier.Some?
    requires Candidates(index, e.session.parentAgentIdentifier.value) != {}
    ensures HopIs(w, index, kind, e, activeRoot, Link(w, index, kind, e, activeRoot).0)
  {
    var s := Candidates(index, e.session.parentAgentIdentifier.value);
    if |s| == 1 {
      SoleIs(s);
    } else {
      forall parent ensures !IsParent(w, index, e, parent) {
        if s == {parent} {
          OneIsSole(s, parent);
        }
      }
    }
  }

  lemma HeaderHop(w: World, index: Index, kind: Kind, e: Evidence, activeRoot: Option<Id>)
    requires !HasOwnedPath(w, e)
    requires e.session.parentAgentIdentifier.Some? ==> Candidates(index, e.session.parentAgentIdentifier.value) == {}
    ensures HopIs(w, index, kind, e, activeRoot, ByHeader(w, index, kind, e, ParentPath(w, e), activeRoot))
  {
    var s := if Header(e).Some? then Candidates(index, Header(e).value) else {};
    if |s| == 1 {
      SoleIs(s);
    }
    forall parent ensures IsParent(w, index, e, parent) ==> |s| == 1 && parent == Sole(s) {
      if IsParent(w, index, e, parent) {
        OneIsSole(s, parent);
      }
    }
  }

  lemma LinkHop(w: World, index: Index, kind: Kind, e: Evidence, activeRoot: Option<Id>)
    ensures HopIs(w, index, kind, e, activeRoot, Link(w, index, kind, e, activeRoot).0)
  {
    var id := e.session.parentAgentIdentifier;
    if HasOwnedPath(w, e) {
      PathHop(w, index, kind, e, activeRoot);
    } else if id.Some? && Candidates(index, id.value) != {} {
      IdentifierHop(w, index, kind, e, activeRoot);
    } else {
      HeaderHop(w, index, kind, e, activeRoot);
    }
  }

  lemma OneParent(w: World, index: Index, e: Evidence, p: Evidence, q: Evidence)
    requires IsParent(w, index, e, p) && IsParent(w, index, e, q)
    ensures p == q
  {
    if !HasOwnedPath(w, e) {
      assert p in {q};
    }
  }

  /** A visit stops with a root exactly when the session settles it, and otherwise goes on to the parent if there is one. */
  ghost predicate VisitIs(w: World, index: Index, kind: Kind, e: Evidence, activeRoot: Option<Id>, move: Move) {
    && (forall root :: Settles(w, index, e, activeRoot, root) <==> move == Stop(Some(Family(kind, root))))
    && (forall parent :: Orphan(e) && IsParent(w, index, e, parent) <==> move == Go(parent))
    && (move.Stop? && move.family.Some? ==> move.family.value.kind == kind)
  }

  lemma VisitMeaning(w: World, index: Index, kind: Kind, e: Evidence, activeRoot: Option<Id>)
    ensures VisitIs(w, index, kind, e, activeRoot, Visit(w, index, kind, e, activeRoot).0)
  {
    if Orphan(e) {
      LinkHop(w, index, kind, e, activeRoot);
      forall p, q | IsParent(w, index, e, p) && IsParent(w, index, e, q) ensures p == q {
        OneParent(w, index, e, p, q);
      }
    }
  }

  // ---- The whole walk ----

  ghost predicate Unseen(chain: seq<Evidence>, seen: set<string>) {
    forall i :: 0 <= i < |chain| ==> chain[i].file !in seen
  }

  /** The files of a lineage are among the recorded dependencies. */
  ghost predicate Recorded(chain: seq<Evidence>, deps: Dependencies) {
    forall i :: 0 <= i < |chain| ==> FileOf(chain[i]) <= deps.files
  }

  /** A root that is found has a lineage. */
  lemma {:induction false} FoundLineage(w: World, index: Index, kind: Kind, e: Evidence, activeRoot: Option<Id>, seen: set<string>)
      returns (chain: seq<Evidence>)
    requires Filed(w, index) && Walk(w, index, kind, e, activeRoot, seen).0.Some?
    ensures var family := Walk(w, index, kind, e, activeRoot, seen).0.value;
      family.kind == kind && Lineage(w, index, chain, activeRoot, family.rootSessionId)
    ensures chain[0] == e && Unseen(chain, seen) && Recorded(chain, Walk(w, index, kind, e, activeRoot, seen).1)
    decreases (index.Keys + {e.file}) - seen
  {
    var move := Visit(w, index, kind, e, activeRoot).0;
    VisitMeaning(w, index, kind, e, activeRoot);
    if move.Stop? {
      chain := [e];
    } else {
      GoesToIndexed(w, index, kind, e, activeRoot);
      WalkShrinks(index, e, move.next, seen);
      var rest := FoundLineage(w, index, kind, move.next, activeRoot, seen + {e.file});
      chain := [e] + rest;
      LineageGrows(w, index, e, rest, activeRoot, Walk(w, index, kind, e, activeRoot, seen).0.value.rootSessionId);
    }
    WalkStarts(w, index, kind, e, activeRoot, seen);
  }

  lemma LineageGrows(w: World, index: Index, e: Evidence, rest: seq<Evidence>, activeRoot: Option<Id>, root: Id)
    requires Lineage(w, index, rest, activeRoot, root) && Orphan(e) && IsParent(w, index, e, rest[0]) && Unseen(rest, {e.file})
    ensures Lineage(w, index, [e] + rest, activeRoot, root)
  {
  }

  /** A lineage that meets nothing seen is found. */
  lemma {:induction false} LineageFound(w: World, index: Index, kind: Kind, chain: seq<Evidence>, activeRoot: Option<Id>,
                                        root: Id, seen: set<string>)
    requires Filed(w, index) && Lineage(w, index, chain, activeRoot, root) && Unseen(chain, seen)
    ensures Walk(w, index, kind, chain[0], activeRoot, seen).0 == Some(Family(kind, root))
    decreases |chain|
  {
    var e := chain[0];
    VisitMeaning(w, index, kind, e, activeRoot);
    if |chain| > 1 {
      GoesToIndexed(w, index, kind, e, activeRoot);
      WalkShrinks(index, e, chain[1], seen);
      assert IsParent(w, index, e, chain[1]);
      LineageFound(w, index, kind, chain[1..], activeRoot, root, seen + {e.file});
    }
  }

  /** A family comes with a lineage of recorded sessions. */
  lemma FamilyRecorded(w: World, index: Index, e: Evidence, activeRoot: Option<Id>) returns (chain: seq<Evidence>)
    requires Filed(w, index) && ResolveFamily(w, index, e, activeRoot).0.Some?
    ensures var (family, deps) := ResolveFamily(w, index, e, activeRoot);
      Lineage(w, index, chain, activeRoot, family.value.rootSessionId) && chain[0] == e && Recorded(chain, deps)
  {
    chain := FoundLineage(w, index, KindOf(e), e, activeRoot, {});
  }

  /** The family is exactly the root that the links lead to: none is invented and none is missed. */
  lemma FamilyIsRoot(w: World, index: Index, e: Evidence, activeRoot: Option<Id>)
    requires Filed(w, index)
    ensures var family := ResolveFamily(w, index, e, activeRoot).0;
      && (forall root :: HasRoot(w, index, e, activeRoot, root) <==> family == Some(Family(KindOf(e), root)))
      && (family.None? <==> forall root :: !HasRoot(w, index, e, activeRoot, root))
  {
    var family := ResolveFamily(w, index, e, activeRoot).0;
    if family.Some? {
      var chain := FoundLineage(w, index, KindOf(e), e, activeRoot, {});
      assert HasRoot(w, index, e, activeRoot, family.value.rootSessionId);
    }
    forall root | HasRoot(w, index, e, activeRoot, root) ensures family == Some(Family(KindOf(e), root)) {
      var chain :| Lineage(w, index, chain, activeRoot, root) && chain[0] == e;
      LineageFound(w, index, KindOf(e), chain, activeRoot, root, {});
    }
  }

  /** From child to parent, as far as the walk may go. */
  ghost predicate Ascent(w: World, index: Index, chain: seq<Evidence>) {
    && chain != []
    && forall i :: 0 <= i < |chain| - 1 ==> Orphan(chain[i]) && IsParent(w, index, chain[i], chain[i + 1])
  }

  /** Looking for the parent of `e` looks at this path, or at this identifier. */
  predicate LooksAtFile(w: World, e: Evidence, f: string) {
    f == e.file || (Orphan(e) && HasOwnedPath(w, e) && Some(f) == ParentPath(w, e))
  }

  predicate LooksAtId(w: World, e: Evidence, id: Id) {
    Orphan(e) && !HasOwnedPath(w, e) && (e.session.parentAgentIdentifier == Some(id) || (Header(e) == Some(id) && w.native(id)))
  }

  lemma VisitLooks(w: World, index: Index, kind: Kind, e: Evidence, activeRoot: Option<Id>)
    ensures var deps := Visit(w, index, kind, e, activeRoot).1;
      (forall f :: f in deps.files ==> LooksAtFile(w, e, f)) && (forall id :: id in deps.sessionIds ==> LooksAtId(w, e, id))
  {
  }

  lemma AscentGrows(w: World, index: Index, e: Evidence, rest: seq<Evidence>)
    requires Ascent(w, index, rest) && Orphan(e) && IsParent(w, index, e, rest[0])
    ensures Ascent(w, index, [e] + rest)
  {
  }

  /** Nothing is recorded in vain: each path was looked at from a session on the way up. */
  lemma {:induction false} FileNeeded(w: World, index: Index, kind: Kind, e: Evidence, activeRoot: Option<Id>, seen: set<string>, f: string)
      returns (chain: seq<Evidence>)
    requires Filed(w, index) && f in Walk(w, index, kind, e, activeRoot, seen).1.files
    ensures Ascent(w, index, chain) && chain[0] == e && LooksAtFile(w, chain[|chain| - 1], f)
    decreases (index.Keys + {e.file}) - seen
  {
    chain := [e];
    if e.file !in seen {
      var (move, deps) := Visit(w, index, kind, e, activeRoot);
      VisitLooks(w, index, kind, e, activeRoot);
      if f !in deps.files {
        GoesToIndexed(w, index, kind, e, activeRoot);
        WalkShrinks(index, e, move.next, seen);
        VisitMeaning(w, index, kind, e, activeRoot);
        var rest := FileNeeded(w, index, kind, move.next, activeRoot, seen + {e.file}, f);
        AscentGrows(w, index, e, rest);
        chain := [e] + rest;
      }
    }
  }

  /** The same of each identifier. */
  lemma {:induction false} IdNeeded(w: World, index: Index, kind: Kind, e: Evidence, activeRoot: Option<Id>, seen: set<string>, id: Id)
      returns (chain: seq<Evidence>)
    requires Filed(w, index) && id in Walk(w, index, kind, e, activeRoot, seen).1.sessionIds
    ensures Ascent(w, index, chain) && chain[0] == e && LooksAtId(w, chain[|chain| - 1], id)
    decreases (index.Keys + {e.file}) - seen
  {
    chain := [e];
    var (move, deps) := Visit(w, index, kind, e, activeRoot);
    VisitLooks(w, index, kind, e, activeRoot);
    if id !in deps.sessionIds {
      GoesToIndexed(w, index, kind, e, activeRoot);
      WalkShrinks(index, e, move.next, seen);
      VisitMeaning(w, index, kind, e, activeRoot);
      var rest := IdNeeded(w, index, kind, move.next, activeRoot, seen + {e.file}, id);
      AscentGrows(w, index, e, rest);
      chain := [e] + rest;
    }
  }

  lemma WalkStarts(w: World, index: Index, kind: Kind, e: Evidence, activeRoot: Option<Id>, seen: set<string>)
    requires Filed(w, index)
    ensures FileOf(e) <= Walk(w, index, kind, e, activeRoot, seen).1.files
  {
  }

  // ---- Capturing one source ----

  datatype Membership = Included | Excluded | Unresolved

  datatype Capture = Capture(root: Option<Id>, family: Option<Family>, membership: Membership, dependencies: Dependencies)

  /** The catalog as the walk sees it: owned files other than the captured one, which comes last. */
  function Entries(w: World, catalog: seq<Evidence>, parsed: Evidence): seq<Evidence> {
    if catalog == [] then [parsed]
    else (if w.owns(catalog[0].file) && catalog[0].file != parsed.file then [catalog[0]] else [])
         + Entries(w, catalog[1..], parsed)
  }

  function IndexOf(entries: seq<Evidence>): Index {
    if entries == [] then map[]
    else IndexOf(entries[..|entries| - 1])[entries[|entries| - 1].file := entries[|entries| - 1]]
  }

  predicate IsActive(w: World, e: Evidence) {
    Some(e.file) == w.source.sessionFile && e.session.sessionId == w.source.activeSession.sessionId
  }

  /** The recorded session itself if it was observed, otherwise what the scope says about it. */
  function Active(w: World, entries: seq<Evidence>): Evidence {
    if entries == [] then
      Evidence(if w.source.sessionFile.Some? then w.source.sessionFile.value else "", w.source.parentSession, w.source.activeSession)
    else if IsActive(w, entries[0]) then entries[0]
    else Active(w, entries[1..])
  }

  function MembershipOf(w: World, parsed: Evidence, root: Option<Id>, family: Option<Family>): Membership {
    var i := parsed.session;
    var plain := i.sessionId != w.source.activeSession.sessionId && root != Some(i.sessionId) && !i.main && i.childKind.None?
      && !i.identityConflict && i.rootSessionId.None? && i.parentAgentIdentifier.None? && Header(parsed).None?;
    if !w.source.current then Included
    else if plain then Excluded
    else if root.None? || family.None? then Unresolved
    else if root.value == family.value.rootSessionId then Included
    else Excluded
  }

  ghost function CaptureIn(w: World, index: Index, active: Evidence, parsed: Evidence): Capture
    requires Filed(w, index)
  {
    var (first, deps) := if w.source.rootSessionId.Some? then (None, NOTHING) else ResolveFamily(w, index, active, None);
    var root := if w.source.rootSessionId.Some? then w.source.rootSessionId
                else if first.Some? then Some(first.value.rootSessionId) else None;
    var (family, more) := ResolveFamily(w, index, parsed, root);
    Capture(root, family, MembershipOf(w, parsed, root, family), Both(deps, more))
  }

  predicate ValidCatalog(w: World, catalog: seq<Evidence>) {
    forall i :: 0 <= i < |catalog| ==> ValidEvidence(w, catalog[i])
  }

  ghost predicate DuplicateFree(entries: seq<Evidence>) {
    forall i, j :: 0 <= i < j < |entries| ==> entries[i].file != entries[j].file
  }

  lemma {:induction false} EntriesValid(w: World, catalog: seq<Evidence>, parsed: Evidence)
    requires ValidCatalog(w, catalog) && ValidEvidence(w, parsed)
    ensures ValidCatalog(w, Entries(w, catalog, parsed))
  {
    if catalog != [] {
      EntriesValid(w, catalog[1..], parsed);
    }
  }

  lemma {:induction false} IndexFiled(w: World, entries: seq<Evidence>)
    requires ValidCatalog(w, entries)
    ensures Filed(w, IndexOf(entries))
  {
    if entries != [] {
      IndexFiled(w, entries[..|entries| - 1]);
    }
  }

  ghost function CaptureOf(w: World, catalog: seq<Evidence>, parsed: Evidence): Capture
    requires ValidCatalog(w, catalog) && ValidEvidence(w, parsed)
  {
    var entries := Entries(w, catalog, parsed);
    EntriesValid(w, catalog, parsed);
    IndexFiled(w, entries);
    CaptureIn(w, IndexOf(entries), Active(w, entries), parsed)
  }

  // ---- Dependency completeness ----

  /** Two catalogs agree on the observations of every path and of every identifier in `deps`. */
  ghost predicate SameObservations(a: seq<Evidence>, b: seq<Evidence>, deps: Dependencies) {
    forall e: Evidence :: e.file in deps.files || e.session.sessionId in deps.sessionIds ==> (e in a <==> e in b)
  }

  lemma {:induction false} EntryOf(w: World, catalog: seq<Evidence>, parsed: Evidence, e: Evidence)
    ensures e in Entries(w, catalog, parsed) <==>
      e == parsed || (e in catalog && w.owns(e.file) && e.file != parsed.file)
  {
    if catalog != [] {
      EntryOf(w, catalog[1..], parsed, e);
    }
  }

  lemma {:induction false} EntriesDuplicateFree(w: World, catalog: seq<Evidence>, parsed: Evidence)
    requires DuplicateFree(catalog)
    ensures DuplicateFree(Entries(w, catalog, parsed))
  {
    if catalog != [] {
      EntriesDuplicateFree(w, catalog[1..], parsed);
      var rest := Entries(w, catalog[1..], parsed);
      forall i | 0 <= i < |rest| && catalog[0].file != parsed.file ensures rest[i].file != catalog[0].file {
        EntryOf(w, catalog[1..], parsed, rest[i]);
        if rest[i] != parsed {
          var j :| 0 <= j < |catalog[1..]| && catalog[1..][j] == rest[i];
          assert catalog[j + 1] == rest[i];
        }
      }
    }
  }

  lemma {:induction false} IndexedEntry(entries: seq<Evidence>, e: Evidence)
    requires DuplicateFree(entries)
    ensures e in entries <==> Lookup(IndexOf(entries), e.file) == Some(e)
  {
    if entries != [] {
      var n := |entries| - 1;
      IndexedEntry(entries[..n], e);
      assert entries == entries[..n] + [entries[n]];
      if e in entries[..n] {
        var i :| 0 <= i < n && entries[..n][i] == e;
        assert entries[i] == e;
      }
    }
  }

  lemma IndexesAgree(a: seq<Evidence>, b: seq<Evidence>, deps: Dependencies)
    requires DuplicateFree(a) && DuplicateFree(b) && SameObservations(a, b, deps)
    requires forall f :: f in IndexOf(a) ==> IndexOf(a)[f].file == f
    requires forall f :: f in IndexOf(b) ==> IndexOf(b)[f].file == f
    ensures Agree(IndexOf(a), IndexOf(b), deps)
  {
    var x, y := IndexOf(a), IndexOf(b);
    forall f | f in deps.files ensures Lookup(x, f) == Lookup(y, f) {
      if f in x {
        IndexedEntry(a, x[f]);
        IndexedEntry(b, x[f]);
      }
      if f in y {
        IndexedEntry(a, y[f]);
        IndexedEntry(b, y[f]);
      }
    }
    forall id | id in deps.sessionIds ensures Candidates(x, id) == Candidates(y, id) {
      forall e: Evidence | e.session.sessionId == id ensures e in Candidates(x, id) <==> e in Candidates(y, id) {
        IndexedEntry(a, e);
        IndexedEntry(b, e);
      }
    }
  }

  /** In a duplicate-free list, looking the active session up by its path finds the same entry. */
  lemma {:induction false} ActiveEntry(w: World, entries: seq<Evidence>, e: Evidence)
    requires e in entries && IsActive(w, e) && DuplicateFree(entries)
    ensures Active(w, entries) == e
  {
    if IsActive(w, entries[0]) {
      var i :| 0 <= i < |entries| && entries[i] == e;
    } else {
      ActiveEntry(w, entries[1..], e);
    }
  }

  lemma {:induction false} NoActiveEntry(w: World, entries: seq<Evidence>)
    requires forall e :: e in entries ==> !IsActive(w, e)
    ensures Active(w, entries) == Active(w, [])
  {
    if entries != [] {
      NoActiveEntry(w, entries[1..]);
    }
  }

  lemma ActiveAgrees(w: World, a: seq<Evidence>, b: seq<Evidence>)
    requires DuplicateFree(a) && DuplicateFree(b)
    requires forall e: Evidence :: Some(e.file) == w.source.sessionFile ==> (e in a <==> e in b)
    ensures Active(w, a) == Active(w, b)
  {
    if e :| e in a && IsActive(w, e) {
      ActiveEntry(w, a, e);
      ActiveEntry(w, b, e);
    } else {
      NoActiveEntry(w, a);
      NoActiveEntry(w, b);
    }
  }

  lemma ActiveFile(w: World, entries: seq<Evidence>)
    requires w.source.sessionFile.Some?
    ensures Active(w, entries).file == w.source.sessionFile.value
  {
  }

  lemma AgreeParts(a: Index, b: Index, d: Dependencies, e: Dependencies)
    requires Agree(a, b, Both(d, e))
    ensures Agree(a, b, d) && Agree(a, b, e)
  {
  }

  lemma CaptureAgrees(w: World, a: Index, b: Index, active: Evidence, parsed: Evidence)
    requires Filed(w, a) && Filed(w, b) && Agree(a, b, CaptureIn(w, a, active, parsed).dependencies)
    ensures CaptureIn(w, b, active, parsed) == CaptureIn(w, a, active, parsed)
  {
    var (first, deps) := if w.source.rootSessionId.Some? then (None, NOTHING) else ResolveFamily(w, a, active, None);
    var c := CaptureIn(w, a, active, parsed);
    var more := ResolveFamily(w, a, parsed, c.root).1;
    AgreeParts(a, b, deps, more);
    if w.source.rootSessionId.None? {
      WalkAgrees(w, a, b, KindOf(active), active, None, {});
    }
    WalkAgrees(w, a, b, KindOf(parsed), parsed, c.root, {});
  }

  /** The recorded dependencies are complete: catalogs that agree on every recorded path and identifier give
      the same root, family, membership and dependencies, whatever else they hold. */
  lemma DependencyCompleteness(w: World, a: seq<Evidence>, b: seq<Evidence>, parsed: Evidence)
    requires ValidCatalog(w, a) && ValidCatalog(w, b) && ValidEvidence(w, parsed)
    requires w.source.sessionFile != Some("")
    requires DuplicateFree(a) && DuplicateFree(b)
    requires SameObservations(a, b, CaptureOf(w, a, parsed).dependencies)
    ensures CaptureOf(w, b, parsed) == CaptureOf(w, a, parsed)
  {
    var x, y := Entries(w, a, parsed), Entries(w, b, parsed);
    var deps := CaptureOf(w, a, parsed).dependencies;
    EntriesDuplicateFree(w, a, parsed);
    EntriesDuplicateFree(w, b, parsed);
    EntriesValid(w, a, parsed);
    EntriesValid(w, b, parsed);
    IndexFiled(w, x);
    IndexFiled(w, y);
    forall e: Evidence | e.file in deps.files || e.session.sessionId in deps.sessionIds ensures e in x <==> e in y {
      EntryOf(w, a, parsed, e);
      EntryOf(w, b, parsed, e);
    }
    IndexesAgree(x, y, deps);
    if w.source.rootSessionId.None? {
      if w.source.sessionFile.Some? {
        ActiveFile(w, x);
        WalkStarts(w, IndexOf(x), KindOf(Active(w, x)), Active(w, x), None, {});
      }
      ActiveAgrees(w, x, y);
    }
    CaptureAgrees(w, IndexOf(x), IndexOf(y), Active(w, x), parsed);
  }

  // ---- What a capture says ----

  /** What was observed: the captured session, and of the catalog what the scope owns under another path. */
  lemma ObservedIs(w: World, catalog: seq<Evidence>, parsed: Evidence, e: Evidence)
    requires DuplicateFree(catalog)
    ensures Lookup(IndexOf(Entries(w, catalog, parsed)), e.file) == Some(e) <==>
      e == parsed || (e in catalog && w.owns(e.file) && e.file != parsed.file)
  {
    EntriesDuplicateFree(w, catalog, parsed);
    IndexedEntry(Entries(w, catalog, parsed), e);
    EntryOf(w, catalog, parsed, e);
  }

  predicate NamesActive(w: World, e: Evidence) {
    Some(e.file) == w.source.sessionFile && e.session.sessionId == w.source.activeSession.sessionId
  }

  /** The active session is the observed one with its path and identifier, or what the scope itself says of it. */
  lemma ActiveIs(w: World, entries: seq<Evidence>)
    requires DuplicateFree(entries)
    ensures forall e :: e in entries && NamesActive(w, e) ==> Active(w, entries) == e
    ensures (forall e :: e in entries ==> !NamesActive(w, e)) ==>
      Active(w, entries).session == w.source.activeSession && Active(w, entries).parentSession == w.source.parentSession
      && (w.source.sessionFile.Some? ==> Active(w, entries).file == w.source.sessionFile.value)
  {
    forall e | e in entries && NamesActive(w, e) ensures Active(w, entries) == e {
      ActiveEntry(w, entries, e);
    }
    if forall e :: e in entries ==> !NamesActive(w, e) {
      NoActiveEntry(w, entries);
    }
  }

  /** Nothing is recorded in vain: each path of a capture was looked at from the captured session or from one above it, or,
      when the root is not known beforehand, from the active session or one above that. */
  lemma CaptureNeedsFile(w: World, catalog: seq<Evidence>, parsed: Evidence, f: string) returns (chain: seq<Evidence>)
    requires ValidCatalog(w, catalog) && ValidEvidence(w, parsed) && f in CaptureOf(w, catalog, parsed).dependencies.files
    ensures var entries := Entries(w, catalog, parsed);
      && Ascent(w, IndexOf(entries), chain) && LooksAtFile(w, chain[|chain| - 1], f)
      && (chain[0] == parsed || (w.source.rootSessionId.None? && chain[0] == Active(w, entries)))
  {
    var (entries, root) := (Entries(w, catalog, parsed), CaptureOf(w, catalog, parsed).root);
    var index := IndexOf(entries);
    EntriesValid(w, catalog, parsed);
    IndexFiled(w, entries);
    if f in ResolveFamily(w, index, parsed, root).1.files {
      chain := FileNeeded(w, index, KindOf(parsed), parsed, root, {}, f);
    } else {
      chain := FileNeeded(w, index, KindOf(Active(w, entries)), Active(w, entries), None, {}, f);
    }
  }

  /** The same of each identifier. */
  lemma CaptureNeedsId(w: World, catalog: seq<Evidence>, parsed: Evidence, id: Id) returns (chain: seq<Evidence>)
    requires ValidCatalog(w, catalog) && ValidEvidence(w, parsed) && id in CaptureOf(w, catalog, parsed).dependencies.sessionIds
    ensures var entries := Entries(w, catalog, parsed);
      && Ascent(w, IndexOf(entries), chain) && LooksAtId(w, chain[|chain| - 1], id)
      && (chain[0] == parsed || (w.source.rootSessionId.None? && chain[0] == Active(w, entries)))
  {
    var (entries, root) := (Entries(w, catalog, parsed), CaptureOf(w, catalog, parsed).root);
    var index := IndexOf(entries);
    EntriesValid(w, catalog, parsed);
    IndexFiled(w, entries);
    if id in ResolveFamily(w, index, parsed, root).1.sessionIds {
      chain := IdNeeded(w, index, KindOf(parsed), parsed, root, {}, id);
    } else {
      chain := IdNeeded(w, index, KindOf(Active(w, entries)), Active(w, entries), None, {}, id);
    }
  }

  /** Nothing ties the session to the active one or to any family. */
  predicate Unrelated(w: World, e: Evidence, root: Option<Id>) {
    && e.session.sessionId != w.source.activeSession.sessionId && root != Some(e.session.sessionId)
    && !e.session.identityConflict && !e.session.main && e.session.childKind.None?
    && e.session.rootSessionId.None? && e.session.parentAgentIdentifier.None?
    && (e.parentSession.None? || e.parentSession == Some(""))
  }

  /** The root is the recorded one, or the one the active session's links lead to; the family is the one the captured
      session's links lead to; and in the current scope the session is included exactly if both are known and the same,
      excluded exactly if both are known and differ or nothing ties it to anyone, and unresolved otherwise. */
  lemma CaptureMeaning(w: World, catalog: seq<Evidence>, parsed: Evidence)
    requires ValidCatalog(w, catalog) && ValidEvidence(w, parsed)
    ensures var (c, entries) := (CaptureOf(w, catalog, parsed), Entries(w, catalog, parsed));
      RootIs(w, entries, c.root) && FamilyIs(w, entries, parsed, c.root, c.family)
      && MembershipIs(w, parsed, c.root, c.family, c.membership)
  {
    var entries := Entries(w, catalog, parsed);
    EntriesValid(w, catalog, parsed);
    IndexFiled(w, entries);
    var index := IndexOf(entries);
    FamilyIsRoot(w, index, Active(w, entries), None);
    FamilyIsRoot(w, index, parsed, CaptureOf(w, catalog, parsed).root);
  }

  ghost predicate RootIs(w: World, entries: seq<Evidence>, root: Option<Id>) {
    if w.source.rootSessionId.Some? then root == w.source.rootSessionId
    else
      && (forall r :: root == Some(r) <==> HasRoot(w, IndexOf(entries), Active(w, entries), None, r))
  }

  ghost predicate FamilyIs(w: World, entries: seq<Evidence>, parsed: Evidence, root: Option<Id>, family: Option<Family>) {
    && (family.Some? ==> family.value.kind == if parsed.session.childKind.Some? then parsed.session.childKind.value else Main)
    && (forall r :: family.Some? && family.value.rootSessionId == r <==> HasRoot(w, IndexOf(entries), parsed, root, r))
  }

  ghost predicate MembershipIs(w: World, parsed: Evidence, root: Option<Id>, family: Option<Family>, membership: Membership) {
    if !w.source.current then membership == Included
    else if Unrelated(w, parsed, root) then membership == Excluded
    else
      var known := root.Some? && family.Some?;
      && (membership == Included <==> known && family.value.rootSessionId == root.value)
      && (membership == Excluded <==> known && family.value.rootSessionId != root.value)
      && (membership == Unresolved <==> !known)
  }

  /** A session included in the current scope has a lineage to the active root; one that has is never excluded. */
  lemma IncludedIffFamily(w: World, catalog: seq<Evidence>, parsed: Evidence)
    requires ValidCatalog(w, catalog) && ValidEvidence(w, parsed) && w.source.current
    ensures var (c, index) := (CaptureOf(w, catalog, parsed), IndexOf(Entries(w, catalog, parsed)));
      c.membership == Included <==> c.root.Some? && HasRoot(w, index, parsed, c.root, c.root.value)
  {
    CaptureMeaning(w, catalog, parsed);
  }
}
