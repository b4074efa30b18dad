/** Pages in a row: on directories that do not change they bring in exactly one full scan, in boundedly many pages;
    and what a full scan brings in is every transcript of the directories the scope covers. */
module ArchiveScanPages {
  import opened Options
  import opened ArchiveScan
  import opened ArchiveScanCursors
  import opened ArchiveScanStill

  /** What a page is asked for: how many items, and the turn its first look is. */
  datatype Request = Request(capacity: nat, turns: nat)

  ghost predicate Answered(s: Source, hash: Hash, disk: Disk, encoded: Option<Cursor>, request: Request, page: Page) {
    && 0 < request.capacity <= 10000
    && DiscoverPage(s, hash, disk, encoded, request.capacity, request.turns) == Success(page)
  }

  /** Each page but the last gives a cursor, and the next page is asked for with it. */
  ghost predicate InARow(s: Source, hash: Hash, disk: Disk, start: Option<Cursor>, requests: seq<Request>, pages: seq<Page>)
    decreases |pages|
  {
    && |requests| == |pages|
    && (pages != [] ==>
          && Answered(s, hash, disk, start, requests[0], pages[0])
          && (|pages| > 1 ==> pages[0].cursor.Some?)
          && InARow(s, hash, disk, pages[0].cursor, requests[1..], pages[1..]))
  }

  function AllFiles(pages: seq<Page>): seq<Path> {
    if pages == [] then [] else pages[0].files + AllFiles(pages[1..])
  }

  function AllIssues(pages: seq<Page>): seq<(Path, Code)> {
    if pages == [] then [] else Codes(pages[0].issues) + AllIssues(pages[1..])
  }

  function Last(pages: seq<Page>): Page
    requires pages != []
  {
    pages[|pages| - 1]
  }

  /** A row of pages has brought in the head of what was due; what is left is due at its last cursor. */
  ghost predicate AddsUp(t: Tree, s: Source, due: Yield, pages: seq<Page>)
    requires pages != []
  {
    && AllFiles(pages) + DueAfter(t, s, Last(pages)).files == due.files
    && AllIssues(pages) + DueAfter(t, s, Last(pages)).issues == due.issues
  }

  /** The row gets on: every cursor leaves less, and the last one can be resumed. */
  ghost predicate GetsOn(t: Tree, s: Source, hash: Hash, c: Cursor, due: nat, pages: seq<Page>)
    requires pages != []
  {
    var last := Last(pages);
    && (last.complete <==> last.cursor.None?)
    && (last.cursor.None? && |pages| > 1 ==> |pages| <= due)
    && (last.cursor.Some? ==>
          && CursorFits(t, s, hash, last.cursor.value) && last.cursor.value.retry == c.retry
          && 0 < Due(t, s, last.cursor.value).turns && |pages| + Due(t, s, last.cursor.value).turns <= due)
  }

  lemma FirstPage(t: Tree, s: Source, hash: Hash, start: Option<Cursor>, request: Request, page: Page)
    requires DecodeCursor(s, start).Success? && CursorFits(t, s, hash, DecodeCursor(s, start).value)
    requires Answered(s, hash, Still(t), start, request, page)
    ensures var c := DecodeCursor(s, start).value;
      AddsUp(t, s, Due(t, s, c), [page]) && GetsOn(t, s, hash, c, Due(t, s, c).turns, [page])
  {
    PageStill(t, s, hash, start, request.capacity, request.turns);
    assert page.files + [] == page.files && Codes(page.issues) + [] == Codes(page.issues);
  }

  lemma MorePages(t: Tree, s: Source, due: Yield, page: Page, pages: seq<Page>)
    requires AddsUp(t, s, due, [page]) && page.cursor.Some? && pages != []
    requires AddsUp(t, s, Due(t, s, page.cursor.value), pages)
    ensures AddsUp(t, s, due, [page] + pages)
  {
    assert ([page] + pages)[1..] == pages && Last([page] + pages) == Last(pages);
    assert [page][1..] == [] && Last([page]) == page;
    assert AllFiles([page]) == page.files && AllIssues([page]) == Codes(page.issues);
    var left := DueAfter(t, s, Last(pages));
    assert page.files + (AllFiles(pages) + left.files) == page.files + AllFiles(pages) + left.files;
    assert Codes(page.issues) + (AllIssues(pages) + left.issues) == Codes(page.issues) + AllIssues(pages) + left.issues;
  }

  lemma MoreGetsOn(t: Tree, s: Source, hash: Hash, c: Cursor, due: nat, page: Page, pages: seq<Page>)
    requires GetsOn(t, s, hash, c, due, [page]) && page.cursor.Some? && pages != []
    requires GetsOn(t, s, hash, page.cursor.value, Due(t, s, page.cursor.value).turns, pages)
    ensures GetsOn(t, s, hash, c, due, [page] + pages)
  {
    assert Last([page] + pages) == Last(pages);
  }

  lemma {:induction false} PagesAddUp(t: Tree, s: Source, hash: Hash, start: Option<Cursor>, requests: seq<Request>, pages: seq<Page>)
    requires DecodeCursor(s, start).Success? && CursorFits(t, s, hash, DecodeCursor(s, start).value)
    requires InARow(s, hash, Still(t), start, requests, pages) && pages != []
    ensures var c := DecodeCursor(s, start).value;
      AddsUp(t, s, Due(t, s, c), pages) && GetsOn(t, s, hash, c, Due(t, s, c).turns, pages)
    decreases |pages|
  {
    FirstPage(t, s, hash, start, requests[0], pages[0]);
    if |pages| > 1 {
      var next := pages[0].cursor;
      SecondTaken(s, hash, Still(t), start, requests, pages);
      PagesAddUp(t, s, hash, next, requests[1..], pages[1..]);
      var c := DecodeCursor(s, start).value;
      MorePages(t, s, Due(t, s, c), pages[0], pages[1..]);
      MoreGetsOn(t, s, hash, c, Due(t, s, c).turns, pages[0], pages[1..]);
      assert [pages[0]] + pages[1..] == pages;
    } else {
      assert pages == [pages[0]];
    }
  }

  /** Resuming refines one uninterrupted scan: however the capacities are chosen, the pages bring in the files and
      issues of the full scan in its order, the row of pages ends within its number of turns, and after the page
      that says it is complete nothing is missing. */
  lemma ScanResumes(t: Tree, s: Source, hash: Hash, requests: seq<Request>, pages: seq<Page>)
    requires InARow(s, hash, Still(t), None, requests, pages) && pages != []
    ensures AllFiles(pages) <= FullScan(t, s).files && AllIssues(pages) <= FullScan(t, s).issues
    ensures |pages| <= FullScan(t, s).turns
    ensures Last(pages).complete ==> AllFiles(pages) == FullScan(t, s).files && AllIssues(pages) == FullScan(t, s).issues
    ensures Last(pages).complete <==> Last(pages).cursor.None?
  {
    PagesAddUp(t, s, hash, None, requests, pages);
    assert Due(t, s, Fresh(s)) == FullScan(t, s);
    if Last(pages).cursor.None? {
      CompleteRow(t, s, FullScan(t, s), pages);
    }
  }

  // ---- Cursors of a row ----

  /** Every page gives good cursors: a retry cursor is always accepted, any other unless a stamp has a minus sign. */
  lemma {:induction false} RowGood(s: Source, hash: Hash, disk: Disk, start: Option<Cursor>, requests: seq<Request>, pages: seq<Page>)
    requires Bounded(s, disk) && InARow(s, hash, disk, start, requests, pages) && pages != []
    requires Good(s, DecodeCursor(s, start).value) && PlainCursor(DecodeCursor(s, start).value)
    ensures forall i :: 0 <= i < |pages| ==> GoodPage(s, disk, true, pages[i])
    decreases |pages|
  {
    PageGood(s, hash, disk, start, requests[0].capacity, requests[0].turns);
    if |pages| > 1 {
      var next := pages[0].cursor;
      SecondTaken(s, hash, disk, start, requests, pages);
      RowGood(s, hash, disk, next, requests[1..], pages[1..]);
      assert forall i :: 0 < i < |pages| ==> pages[i] == pages[1..][i - 1];
    }
  }

  /** With paths and listings of bounded size and no directory last changed before 1970, whatever else the directories
      do, every cursor and every retry cursor that a scan gives out is accepted. */
  lemma CursorsAccepted(s: Source, hash: Hash, disk: Disk, requests: seq<Request>, pages: seq<Page>, i: nat)
    requires Bounded(s, disk) && InARow(s, hash, disk, None, requests, pages) && i < |pages|
    ensures PlainDisk(disk) && pages[i].cursor.Some? ==> Accepts(s, pages[i].cursor.value)
    ensures forall k :: 0 <= k < |pages[i].issues| ==> Accepts(s, pages[i].issues[k].retryCursor)
  {
    RowGood(s, hash, disk, None, requests, pages);
  }

  /** The same of a scan that starts from a retry cursor. */
  lemma RetryCursorsAccepted(s: Source, hash: Hash, disk: Disk, issue: Issue, requests: seq<Request>, pages: seq<Page>, i: nat)
    requires Bounded(s, disk) && InARow(s, hash, disk, Some(issue.retryCursor), requests, pages) && i < |pages|
    requires RestartsAlone(s, issue) && SizedCursor(issue.retryCursor)
    ensures PlainDisk(disk) && pages[i].cursor.Some? ==> Accepts(s, pages[i].cursor.value)
    ensures forall k :: 0 <= k < |pages[i].issues| ==> Accepts(s, pages[i].issues[k].retryCursor)
  {
    SizedAccepted(s, issue.retryCursor);
    RowGood(s, hash, disk, Some(issue.retryCursor), requests, pages);
  }

  // ---- A scan comes to its end ----

  ghost predicate Asks(ask: nat -> Request) {
    forall i :: 0 < ask(i).capacity <= 10000
  }

  function Asked(ask: nat -> Request, from: nat, count: nat): (requests: seq<Request>)
    ensures |requests| == count
    decreases count
  {
    if count == 0 then [] else [ask(from)] + Asked(ask, from + 1, count - 1)
  }

  /** Directories that stay as they are, within bounds and changed last after 1970. */
  ghost predicate Ordinary(t: Tree, s: Source) {
    Bounded(s, Still(t)) && PlainDisk(Still(t))
  }

  ghost predicate Resumable(t: Tree, s: Source, hash: Hash, c: Cursor) {
    CursorFits(t, s, hash, c) && Good(s, c) && PlainCursor(c) && !c.retry
  }

  lemma OnePage(t: Tree, s: Source, hash: Hash, start: Option<Cursor>, request: Request) returns (page: Page)
    requires DecodeCursor(s, start).Success? && Resumable(t, s, hash, DecodeCursor(s, start).value)
    requires Ordinary(t, s) && 0 < request.capacity <= 10000
    ensures Answered(s, hash, Still(t), start, request, page) && (page.complete <==> page.cursor.None?)
    ensures page.cursor.Some? ==>
      && DecodeCursor(s, page.cursor) == Success(page.cursor.value) && Resumable(t, s, hash, page.cursor.value)
      && Due(t, s, page.cursor.value).turns < Due(t, s, DecodeCursor(s, start).value).turns
  {
    PageStill(t, s, hash, start, request.capacity, request.turns);
    page := DiscoverPage(s, hash, Still(t), start, request.capacity, request.turns).value;
    PageGood(s, hash, Still(t), start, request.capacity, request.turns);
  }

  lemma {:induction false} CompletesFrom(t: Tree, s: Source, hash: Hash, start: Option<Cursor>, ask: nat -> Request, from: nat)
      returns (pages: seq<Page>)
    requires DecodeCursor(s, start).Success? && Resumable(t, s, hash, DecodeCursor(s, start).value)
    requires Ordinary(t, s) && Asks(ask)
    ensures pages != [] && InARow(s, hash, Still(t), start, Asked(ask, from, |pages|), pages) && Last(pages).complete
    decreases Due(t, s, DecodeCursor(s, start).value).turns
  {
    var page := OnePage(t, s, hash, start, ask(from));
    var rest := [];
    if !page.complete {
      rest := CompletesFrom(t, s, hash, page.cursor, ask, from + 1);
    }
    pages := [page] + rest;
    RowGrows(s, hash, Still(t), start, ask, from, page, rest);
  }

  lemma RowGrows(s: Source, hash: Hash, disk: Disk, start: Option<Cursor>, ask: nat -> Request, from: nat, page: Page, rest: seq<Page>)
    requires Answered(s, hash, disk, start, ask(from), page) && (rest == [] || page.cursor.Some?)
    requires InARow(s, hash, disk, page.cursor, Asked(ask, from + 1, |rest|), rest)
    ensures InARow(s, hash, disk, start, Asked(ask, from, |rest| + 1), [page] + rest)
    ensures Last([page] + rest) == if rest == [] then page else Last(rest)
  {
    assert ([page] + rest)[1..] == rest;
    assert Asked(ask, from, |rest| + 1)[1..] == Asked(ask, from + 1, |rest|);
  }

  /** A second page is made only if the first one's cursor was accepted. */
  lemma SecondTaken(s: Source, hash: Hash, disk: Disk, start: Option<Cursor>, requests: seq<Request>, pages: seq<Page>)
    requires InARow(s, hash, disk, start, requests, pages) && |pages| > 1
    ensures pages[0].cursor.Some? && Accepts(s, pages[0].cursor.value)
    ensures DecodeCursor(s, pages[0].cursor) == Success(pages[0].cursor.value)
  {
    assert Answered(s, hash, disk, pages[0].cursor, requests[1..][0], pages[1..][0]);
  }

  /** On directories that do not change, whatever number of items is asked for each time, asking on gets to a page that
      is complete, and by then to all of the full scan. */
  lemma ScanCompletes(t: Tree, s: Source, hash: Hash, ask: nat -> Request) returns (pages: seq<Page>)
    requires Ordinary(t, s) && Asks(ask)
    ensures pages != [] && InARow(s, hash, Still(t), None, Asked(ask, 0, |pages|), pages) && Last(pages).complete
    ensures AllFiles(pages) == FullScan(t, s).files && AllIssues(pages) == FullScan(t, s).issues
  {
    pages := CompletesFrom(t, s, hash, None, ask, 0);
    ScanResumes(t, s, hash, Asked(ask, 0, |pages|), pages);
  }

  // ---- Retries ----

  lemma RetryRest(t: Tree, s: Source, c: Cursor, place: Place)
    requires c.frames == [Start(place)] && c.retry
    ensures Rest(t, s, c) == Plus(Whole(t, s, place), NOTHING)
  {
    assert Top(c) == Start(place) && Popped(c).frames == [];
  }

  lemma RetryDue(t: Tree, s: Source, c: Cursor, place: Place)
    requires c.frames == [Start(place)] && c.retry && c.activeEmitted
    ensures Due(t, s, c) == Whole(t, s, place)
  {
    RetryRest(t, s, c, place);
    PlusAssociative(Whole(t, s, place), NOTHING, NOTHING);
  }

  /** A complete row has brought in all that was due. */
  lemma CompleteRow(t: Tree, s: Source, due: Yield, pages: seq<Page>)
    requires pages != [] && AddsUp(t, s, due, pages) && Last(pages).cursor.None?
    ensures AllFiles(pages) == due.files && AllIssues(pages) == due.issues
  {
    assert AllFiles(pages) + [] == AllFiles(pages) && AllIssues(pages) + [] == AllIssues(pages);
  }

  /** Pages from a retry cursor bring in that directory alone, whole. */
  lemma RetryResumes(t: Tree, s: Source, hash: Hash, issue: Issue, requests: seq<Request>, pages: seq<Page>)
    requires RestartsAlone(s, issue) && Accepts(s, issue.retryCursor) && pages != [] && Last(pages).complete
    requires InARow(s, hash, Still(t), Some(issue.retryCursor), requests, pages)
    ensures var whole := Whole(t, s, issue.retryCursor.frames[0].place);
      AllFiles(pages) == whole.files && AllIssues(pages) == whole.issues
  {
    var c := issue.retryCursor;
    assert c.frames == [Start(c.frames[0].place)];
    PagesAddUp(t, s, hash, Some(c), requests, pages);
    RetryDue(t, s, c, c.frames[0].place);
    CompleteRow(t, s, Due(t, s, c), pages);
  }

  // ---- What a full scan brings in ----

  ghost predicate Readable(t: Tree, s: Source, p: Path) {
    StampOf(t, s, p).Success? && t(p).opens.None?
  }

  ghost predicate Lists(t: Tree, p: Path, name: string, directory: bool) {
    exists i :: 0 <= i < |t(p).entries| && t(p).entries[i].name == name && (directory ==> t(p).entries[i].directory)
  }

  /** The session directory, or a directory listed by a root; it and the root can be read. */
  ghost predicate Covered(t: Tree, s: Source, p: Path) {
    && Readable(t, s, p)
    && ((s.sessionFile.Some? && p == s.sessionDirectory)
        || (s.all && p != [] && Parent(p) in s.roots && Readable(t, s, Parent(p)) && Lists(t, Parent(p), p[|p| - 1], true)))
  }

  ghost predicate IsTranscript(t: Tree, directory: Path, p: Path) {
    p != [] && Parent(p) == directory && Jsonl(p[|p| - 1]) && Lists(t, directory, p[|p| - 1], false)
  }

  ghost predicate ListedFrom(t: Tree, directory: Path, p: Path, i: nat) {
    exists k :: i <= k < |t(directory).entries| && Jsonl(t(directory).entries[k].name) && p == directory + [t(directory).entries[k].name]
  }

  lemma {:induction false} FilesListed(t: Tree, s: Source, directory: Path, p: Path, i: nat)
    ensures p in From(t, s, Place(directory, Files), i).files <==> ListedFrom(t, directory, p, i)
    decreases |t(directory).entries| - i
  {
    if i < |t(directory).entries| {
      FilesListed(t, s, directory, p, i + 1);
      var name := t(directory).entries[i].name;
      if ListedFrom(t, directory, p, i) && !ListedFrom(t, directory, p, i + 1) {
        assert Jsonl(name) && p == directory + [name];
      }
    }
  }

  lemma WholeFiles(t: Tree, s: Source, directory: Path, p: Path)
    ensures p in Whole(t, s, Place(directory, Files)).files <==> Readable(t, s, directory) && IsTranscript(t, directory, p)
  {
    FilesListed(t, s, directory, p, 0);
    ListedTranscript(t, directory, p);
  }

  lemma ListedTranscript(t: Tree, directory: Path, p: Path)
    ensures ListedFrom(t, directory, p, 0) <==> IsTranscript(t, directory, p)
  {
    if ListedFrom(t, directory, p, 0) {
      var k :| 0 <= k < |t(directory).entries| && Jsonl(t(directory).entries[k].name) && p == directory + [t(directory).entries[k].name];
      assert Parent(p) == directory;
    }
    if IsTranscript(t, directory, p) {
      assert p == directory + [p[|p| - 1]];
    }
  }

  /** Some directory entry from the `i`th on holds the transcript. */
  ghost predicate HeldFrom(t: Tree, s: Source, root: Path, p: Path, i: nat) {
    exists k :: i <= k < |t(root).entries| && t(root).entries[k].directory
      && Readable(t, s, root + [t(root).entries[k].name]) && IsTranscript(t, root + [t(root).entries[k].name], p)
  }

  lemma {:induction false} CollectionHeld(t: Tree, s: Source, root: Path, p: Path, i: nat)
    ensures p in From(t, s, Place(root, Collection), i).files <==> HeldFrom(t, s, root, p, i)
    decreases |t(root).entries| - i
  {
    if i < |t(root).entries| {
      var child := root + [t(root).entries[i].name];
      CollectionHeld(t, s, root, p, i + 1);
      WholeFiles(t, s, child, p);
      if HeldFrom(t, s, root, p, i) && !HeldFrom(t, s, root, p, i + 1) {
        assert t(root).entries[i].directory && Readable(t, s, child) && IsTranscript(t, child, p);
      }
    }
  }

  lemma WholeCollection(t: Tree, s: Source, root: Path, p: Path)
    ensures p in Whole(t, s, Place(root, Collection)).files <==>
      (Readable(t, s, root) && p != [] && Parent(p) != [] && Parent(Parent(p)) == root
       && Lists(t, root, Parent(p)[|Parent(p)| - 1], true) && Readable(t, s, Parent(p)) && IsTranscript(t, Parent(p), p))
  {
    CollectionHeld(t, s, root, p, 0);
    if HeldFrom(t, s, root, p, 0) {
      var k :| 0 <= k < |t(root).entries| && t(root).entries[k].directory
        && Readable(t, s, root + [t(root).entries[k].name]) && IsTranscript(t, root + [t(root).entries[k].name], p);
      assert Parent(Parent(p)) == root;
    }
    if p != [] && Parent(p) != [] && Parent(Parent(p)) == root && Lists(t, root, Parent(p)[|Parent(p)| - 1], true) {
      assert Parent(p) == root + [Parent(p)[|Parent(p)| - 1]];
    }
  }

  ghost predicate FoundFrom(t: Tree, s: Source, p: Path, i: nat) {
    exists k :: i <= k < |Seeds(s)| && p in Whole(t, s, Seeds(s)[k]).files
  }

  lemma {:induction false} SeedsHold(t: Tree, s: Source, p: Path, i: nat)
    ensures p in SeedsFrom(t, s, i).files <==> FoundFrom(t, s, p, i)
    decreases |Seeds(s)| - i
  {
    if i < |Seeds(s)| {
      SeedsHold(t, s, p, i + 1);
      FoundAt(t, s, p, i);
      assert SeedsFrom(t, s, i).files == Whole(t, s, Seeds(s)[i]).files + SeedsFrom(t, s, i + 1).files;
    }
  }

  lemma FoundAt(t: Tree, s: Source, p: Path, i: nat)
    requires i < |Seeds(s)|
    ensures FoundFrom(t, s, p, i) <==> p in Whole(t, s, Seeds(s)[i]).files || FoundFrom(t, s, p, i + 1)
  {
    if FoundFrom(t, s, p, i) && !FoundFrom(t, s, p, i + 1) {
      assert p in Whole(t, s, Seeds(s)[i]).files;
    }
  }

  /** A full scan brings in the active session's file and, of the directories the scope covers, exactly the
      transcripts listed in them; it brings in no file the scope does not own. */
  lemma ScanMeaning(t: Tree, s: Source, p: Path)
    ensures p in FullScan(t, s).files <==>
      (Some(p) == s.sessionFile || (Covered(t, s, Parent(p)) && IsTranscript(t, Parent(p), p)))
    ensures p in FullScan(t, s).files ==> OwnsFile(s, p)
  {
    SeedsHold(t, s, p, 0);
    forall k | 0 <= k < |Seeds(s)| && p in Whole(t, s, Seeds(s)[k]).files
      ensures Covered(t, s, Parent(p)) && IsTranscript(t, Parent(p), p)
    {
      var place := Seeds(s)[k];
      WholeFiles(t, s, place.directory, p);
      WholeCollection(t, s, place.directory, p);
    }
    if Covered(t, s, Parent(p)) && IsTranscript(t, Parent(p), p) {
      SomeSeed(t, s, p);
    }
  }

  lemma SomeSeed(t: Tree, s: Source, p: Path)
    requires Covered(t, s, Parent(p)) && IsTranscript(t, Parent(p), p)
    ensures FoundFrom(t, s, p, 0)
  {
    var first := if s.sessionFile.Some? then 1 else 0;
    if s.sessionFile.Some? && Parent(p) == s.sessionDirectory {
      WholeFiles(t, s, Parent(p), p);
      assert Seeds(s)[0] == Place(Parent(p), Files);
    } else {
      var i :| 0 <= i < |s.roots| && s.roots[i] == Parent(Parent(p));
      WholeCollection(t, s, s.roots[i], p);
      assert Seeds(s)[first + i] == Place(s.roots[i], Collection);
    }
  }
}
