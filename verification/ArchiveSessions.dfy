/** Captures of one source: the catalog's two lookup tables and the loop over parent links. */
module ArchiveSessions {
  import opened Options
  import opened ArchiveProtocol
  import opened ArchiveAncestry

  datatype SourceError = InvalidSource

  ghost predicate NoDuplicates(s: seq<Evidence>) {
    forall i, j :: 0 <= i < j < |s| ==> s[i] != s[j]
  }

  function Found(byId: map<Id, seq<Evidence>>, id: Id): seq<Evidence> {
    if id in byId then byId[id] else []
  }

  /** `byId` lists exactly the entries of `index` under their identifiers. */
  ghost predicate Groups(byId: map<Id, seq<Evidence>>, index: Index) {
    forall id :: NoDuplicates(Found(byId, id)) && (forall e :: e in Found(byId, id) <==> e in Candidates(index, id))
  }

  lemma {:induction false} SizeOfDistinct(s: seq<Evidence>, t: set<Evidence>)
    requires NoDuplicates(s) && forall e :: e in s <==> e in t
    ensures |s| == |t|
    decreases |s|
  {
    if s != [] {
      var n := |s| - 1;
      assert s == s[..n] + [s[n]];
      SizeOfDistinct(s[..n], t - {s[n]});
    } else {
      assert t == {};
    }
  }

  lemma GroupSize(byId: map<Id, seq<Evidence>>, index: Index, id: Id)
    requires Groups(byId, index)
    ensures |Found(byId, id)| == |Candidates(index, id)|
    ensures |Found(byId, id)| == 1 ==> Found(byId, id)[0] == Sole(Candidates(index, id))
  {
    SizeOfDistinct(Found(byId, id), Candidates(index, id));
    if |Found(byId, id)| == 1 {
      assert Found(byId, id)[0] in Candidates(index, id) && Sole(Candidates(index, id)) in Found(byId, id);
    }
  }

  method BuildPaths(entries: seq<Evidence>) returns (byPath: Index)
    ensures byPath == IndexOf(entries)
  {
    byPath := map[];
    for i := 0 to |entries|
      invariant byPath == IndexOf(entries[..i])
    {
      byPath := byPath[entries[i].file := entries[i]];
      assert entries[..i + 1][..i] == entries[..i];
    }
    assert entries[..|entries|] == entries;
  }

  method BuildGroups(byPath: Index) returns (byId: map<Id, seq<Evidence>>)
    requires forall f :: f in byPath ==> byPath[f].file == f
    ensures Groups(byId, byPath)
  {
    byId := map[];
    var left := byPath;
    ghost var done: Index := map[];
    while left != map[]
      invariant left.Keys !! done.Keys && forall f :: f in byPath <==> f in left || f in done
      invariant forall f :: f in left ==> left[f] == byPath[f]
      invariant forall f :: f in done ==> done[f] == byPath[f]
      invariant Groups(byId, done)
      decreases |left.Keys|
    {
      var f :| f in left;
      var e := left[f];
      var id := e.session.sessionId;
      GroupGrows(byId, done, f, e);
      byId := byId[id := Found(byId, id) + [e]];
      done := done[f := e];
      assert (left - {f}).Keys == left.Keys - {f};
      left := left - {f};
    }
    assert done == byPath;
  }

  lemma GroupGrows(byId: map<Id, seq<Evidence>>, done: Index, f: string, e: Evidence)
    requires Groups(byId, done) && f !in done && e.file == f && forall g :: g in done ==> done[g].file == g
    ensures var id := e.session.sessionId; Groups(byId[id := Found(byId, id) + [e]], done[f := e])
  {
    var id, after := e.session.sessionId, done[f := e];
    var longer := byId[id := Found(byId, id) + [e]];
    forall other
      ensures NoDuplicates(Found(longer, other)) && (forall x :: x in Found(longer, other) <==> x in Candidates(after, other))
    {
      assert NoDuplicates(Found(byId, other)) && (forall x :: x in Found(byId, other) <==> x in Candidates(done, other));
      CandidatesAfter(done, f, e, other);
    }
  }

  lemma CandidatesAfter(done: Index, f: string, e: Evidence, id: Id)
    requires f !in done
    ensures Candidates(done[f := e], id) == Candidates(done, id) + if e.session.sessionId == id then {e} else {}
  {
    var after := done[f := e];
    forall x | x in Candidates(done, id) || (x == e && e.session.sessionId == id) ensures x in Candidates(after, id) {
      if x in Candidates(done, id) {
        var g :| g in done && done[g] == x && done[g].session.sessionId == id;
        assert g in after && after[g] == x;
      } else {
        assert f in after && after[f] == x;
      }
    }
    forall x | x in Candidates(after, id) ensures x in Candidates(done, id) || (x == e && e.session.sessionId == id) {
      var g :| g in after && after[g] == x && after[g].session.sessionId == id;
      assert g != f ==> g in done && done[g] == x;
    }
  }

  /** The link from a child session to its parent. */
  method FollowLink(w: World, byPath: Index, byId: map<Id, seq<Evidence>>, kind: Kind, cursor: Evidence, activeRoot: Option<Id>)
    returns (move: Move, dependencies: Dependencies)
    requires Filed(w, byPath) && Groups(byId, byPath)
    ensures (move, dependencies) == Link(w, byPath, kind, cursor, activeRoot)
  {
    var parentId, parentPath := cursor.session.parentAgentIdentifier, ParentPath(w, cursor);
    if parentPath.Some? && w.owns(parentPath.value) {
      return ByPath(w, byPath, kind, parentPath.value, parentId, activeRoot),
             Dependencies(FileOf(cursor) + {parentPath.value}, {});
    }
    var candidates := [];
    var ids := {};
    if parentId.Some? {
      GroupSize(byId, byPath, parentId.value);
      candidates, ids := Found(byId, parentId.value), {parentId.value};
    }
    if |candidates| == 1 {
      return Go(candidates[0]), Dependencies(FileOf(cursor), ids);
    }
    if |candidates| > 1 {
      return Stop(None), Dependencies(FileOf(cursor), ids);
    }
    move := FollowHeader(w, byPath, byId, kind, cursor, parentPath, activeRoot);
    dependencies := Dependencies(FileOf(cursor), ids + HeaderIds(w, cursor));
  }

  method FollowHeader(w: World, byPath: Index, byId: map<Id, seq<Evidence>>, kind: Kind, cursor: Evidence,
                      parentPath: Option<string>, activeRoot: Option<Id>) returns (move: Move)
    requires Filed(w, byPath) && Groups(byId, byPath)
    ensures move == ByHeader(w, byPath, kind, cursor, parentPath, activeRoot)
  {
    var parentId, active := cursor.session.parentAgentIdentifier, w.source.activeSession.sessionId;
    var headers := [];
    if Header(cursor).Some? {
      GroupSize(byId, byPath, Header(cursor).value);
      headers := Found(byId, Header(cursor).value);
    }
    if |headers| == 1 && (parentId.None? || headers[0].session.sessionId == parentId.value) {
      return Go(headers[0]);
    }
    var linksToActive := parentId == Some(active)
      || (parentPath == w.source.sessionFile && (parentId.None? || parentId == Some(active)));
    if linksToActive && |headers| <= 1 && activeRoot.Some? {
      return Stop(Some(Family(kind, activeRoot.value)));
    }
    return Stop(None);
  }

  method VisitCursor(w: World, byPath: Index, byId: map<Id, seq<Evidence>>, kind: Kind, cursor: Evidence, activeRoot: Option<Id>)
    returns (move: Move, dependencies: Dependencies)
    requires Filed(w, byPath) && Groups(byId, byPath)
    ensures (move, dependencies) == Visit(w, byPath, kind, cursor, activeRoot)
  {
    var identity := cursor.session;
    move, dependencies := Stop(None), Dependencies(FileOf(cursor), {});
    if identity.identityConflict {
      return;
    }
    if identity.main {
      move := Stop(Some(Family(kind, identity.sessionId)));
    } else if identity.childKind.Some? && identity.rootSessionId.Some? {
      move := Stop(Some(Family(kind, identity.rootSessionId.value)));
    } else if identity.childKind.None? {
      if Some(cursor.file) == w.source.sessionFile && identity.sessionId == w.source.activeSession.sessionId
         && activeRoot == Some(identity.sessionId) {
        move := Stop(Some(Family(kind, identity.sessionId)));
      }
    } else {
      move, dependencies := FollowLink(w, byPath, byId, kind, cursor, activeRoot);
    }
  }

  /** Moves a cursor along parent links and ends even when they lead round in a circle. */
  method ResolveSourceFamily(w: World, byPath: Index, byId: map<Id, seq<Evidence>>, entry: Evidence, activeRoot: Option<Id>)
    returns (family: Option<Family>, dependencies: Dependencies)
    requires Filed(w, byPath) && Groups(byId, byPath)
    ensures (family, dependencies) == ResolveFamily(w, byPath, entry, activeRoot)
  {
    var kind := KindOf(entry);
    var cursor, seen := entry, {};
    dependencies := NOTHING;
    BothNothing(ResolveFamily(w, byPath, entry, activeRoot).1);
    while true
      invariant var (f, d) := Walk(w, byPath, kind, cursor, activeRoot, seen);
        (f, Both(dependencies, d)) == ResolveFamily(w, byPath, entry, activeRoot)
      decreases (byPath.Keys + {cursor.file}) - seen
    {
      if cursor.file in seen {
        dependencies := Both(dependencies, Dependencies(FileOf(cursor), {}));
        return None, dependencies;
      }
      var move, more := VisitCursor(w, byPath, byId, kind, cursor, activeRoot);
      ghost var before := dependencies;
      dependencies := Both(dependencies, more);
      match move
      case Stop(f) => return f, dependencies;
      case Go(next) =>
        GoesToIndexed(w, byPath, kind, cursor, activeRoot);
        WalkShrinks(byPath, cursor, next, seen);
        BothAssociates(before, more, Walk(w, byPath, kind, next, activeRoot, seen + {cursor.file}).1);
        seen := seen + {cursor.file};
        cursor := next;
    }
  }

  lemma BothAssociates(a: Dependencies, b: Dependencies, c: Dependencies)
    ensures Both(a, Both(b, c)) == Both(Both(a, b), c)
  {
    assert a.files + (b.files + c.files) == a.files + b.files + c.files;
    assert a.sessionIds + (b.sessionIds + c.sessionIds) == a.sessionIds + b.sessionIds + c.sessionIds;
  }

  lemma BothNothing(a: Dependencies)
    ensures Both(NOTHING, a) == a
  {
    assert {} + a.files == a.files && {} + a.sessionIds == a.sessionIds;
  }

  class Sessions {
    const world: World

    constructor (world: World)
      ensures this.world == world
    {
      this.world := world;
    }

    /** The catalog and membership part of a capture. */
    method CaptureSource(catalog: seq<Evidence>, parsed: Evidence) returns (r: Result<Capture, SourceError>)
      requires ValidEvidence(world, parsed)
      ensures !world.owns(parsed.file) || !ValidCatalog(world, catalog) ==> r == Failure(InvalidSource)
      ensures world.owns(parsed.file) && ValidCatalog(world, catalog) ==> r == Success(CaptureOf(world, catalog, parsed))
    {
      if !world.owns(parsed.file) {
        return Failure(InvalidSource);
      }
      for i := 0 to |catalog|
        invariant forall j :: 0 <= j < i ==> ValidEvidence(world, catalog[j])
      {
        if !ValidEvidence(world, catalog[i]) {
          return Failure(InvalidSource);
        }
      }
      var entries := Entries(world, catalog, parsed);
      EntriesValid(world, catalog, parsed);
      IndexFiled(world, entries);
      var byPath := BuildPaths(entries);
      var byId := BuildGroups(byPath);
      var root, dependencies := world.source.rootSessionId, NOTHING;
      if root.None? {
        var family, deps := ResolveSourceFamily(world, byPath, byId, Active(world, entries), None);
        dependencies := deps;
        root := if family.Some? then Some(family.value.rootSessionId) else None;
      }
      var family, more := ResolveSourceFamily(world, byPath, byId, parsed, root);
      return Success(Capture(root, family, MembershipOf(world, parsed, root, family), Both(dependencies, more)));
    }
  }
}
