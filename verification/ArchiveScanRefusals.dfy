/** Which cursors are refused: those that stop with a minus sign in a stamp. When one item is asked for at a time, this
    happens as soon as the scan brings in a transcript of a directory whose own stamp has one, or a transcript or an issue
    of a directory below a root whose stamp has one; besides, only a page that ends by its budget can be refused. */
module ArchiveScanRefusals {
  import opened Options
  import opened ArchiveScan
  import opened ArchiveScanCursors
  import opened ArchiveScanStill
  import opened ArchiveScanPages

  /** A directory last changed before 1970, or with another negative number in its stamp. */
  ghost predicate Negative(t: Tree, s: Source, p: Path) {
    StampOf(t, s, p).Success? && !Plain(Some(StampOf(t, s, p).value))
  }

  /** The page is not the last one, and the program does not take its cursor back. */
  ghost predicate Refused(s: Source, page: Page) {
    !page.complete && page.cursor.Some? && !Accepts(s, page.cursor.value)
  }

  // ---- Snags ----

  /** What comes up here comes up below a negative root; `below` says so of a directory in a collection. */
  ghost predicate Burdened(t: Tree, s: Source, place: Place, below: bool) {
    below || (place.kind == Collection && Negative(t, s, place.directory))
  }

  ghost predicate SnagFile(t: Tree, s: Source, place: Place, below: bool, file: Path) {
    Burdened(t, s, place, below) || Negative(t, s, Parent(file))
  }

  /** An issue of the root itself leaves nothing of it behind. */
  ghost predicate SnagIssue(t: Tree, s: Source, place: Place, below: bool, p: Path) {
    Burdened(t, s, place, below) && (place.kind == Files || p != place.directory)
  }

  /** Some transcript to come is found while its directory, or the root it is reached through, is negative, or some issue
      while the root is. */
  ghost predicate Snag(t: Tree, s: Source, place: Place, below: bool, y: Yield) {
    || (exists file :: file in y.files && SnagFile(t, s, place, below, file))
    || (exists issue :: issue in y.issues && SnagIssue(t, s, place, below, issue.0))
  }

  ghost predicate SeedSnag(t: Tree, s: Source, k: nat)
    requires k < |Seeds(s)|
  {
    Snag(t, s, Seeds(s)[k], false, Whole(t, s, Seeds(s)[k]))
  }

  ghost predicate ScanSnag(t: Tree, s: Source) {
    exists k :: 0 <= k < |Seeds(s)| && SeedSnag(t, s, k)
  }

  ghost predicate Below(t: Tree, s: Source, c: Cursor, i: nat)
    requires i < |c.frames|
  {
    i > 0 && Negative(t, s, c.frames[i - 1].place.directory)
  }

  ghost predicate FrameSnag(t: Tree, s: Source, c: Cursor, i: nat)
    requires i < |c.frames|
  {
    Snag(t, s, c.frames[i].place, Below(t, s, c, i), FrameRest(t, s, c.frames[i]))
  }

  ghost predicate FramesSnag(t: Tree, s: Source, c: Cursor) {
    exists i :: 0 <= i < |c.frames| && FrameSnag(t, s, c, i)
  }

  ghost predicate LaterSnag(t: Tree, s: Source, c: Cursor) {
    !c.retry && exists k :: c.seed <= k < |Seeds(s)| && SeedSnag(t, s, k)
  }

  ghost predicate CursorSnag(t: Tree, s: Source, c: Cursor) {
    FramesSnag(t, s, c) || LaterSnag(t, s, c)
  }

  lemma SnagPlus(t: Tree, s: Source, place: Place, below: bool, y: Yield, z: Yield)
    ensures Snag(t, s, place, below, Plus(y, z)) <==> Snag(t, s, place, below, y) || Snag(t, s, place, below, z)
  {
  }

  // ---- One turn ----

  /** A collection with a directory in it on top has been stamped. */
  ghost predicate Standing(s: Source, c: Cursor) {
    Shaped(s, c) && (|c.frames| == 2 ==> c.frames[0].stamp.Some?)
  }

  /** The frame shows the stamp of its directory. */
  lemma ShowsStamp(t: Tree, s: Source, hash: Hash, c: Cursor, i: nat)
    requires CursorFits(t, s, hash, c) && i < |c.frames| && c.frames[i].stamp.Some?
    ensures Negative(t, s, c.frames[i].place.directory) <==> !Plain(c.frames[i].stamp)
  {
    assert Fits(t, s, hash, c.frames[i]);
  }

  /** With another frame on top, the frames below keep what they have to come. */
  lemma FramesBelow(t: Tree, s: Source, c: Cursor)
    requires c.frames != []
    ensures FramesSnag(t, s, c) <==> FramesSnag(t, s, Popped(c)) || FrameSnag(t, s, c, |c.frames| - 1)
  {
    var n := |c.frames| - 1;
    assert forall i :: 0 <= i < n ==> (FrameSnag(t, s, c, i) <==> FrameSnag(t, s, Popped(c), i));
  }

  lemma ToppedSnag(t: Tree, s: Source, c: Cursor, g: Frame)
    requires c.frames != [] && g.place == Top(c).place
    ensures CursorSnag(t, s, WithTop(c, g)) <==>
      CursorSnag(t, s, Popped(c)) || Snag(t, s, g.place, Below(t, s, c, |c.frames| - 1), FrameRest(t, s, g))
  {
    assert Popped(WithTop(c, g)) == Popped(c);
    FramesBelow(t, s, WithTop(c, g));
  }

  lemma PushedSnag(t: Tree, s: Source, c: Cursor, child: Place)
    requires c.frames != []
    ensures CursorSnag(t, s, Pushed(c, child)) <==>
      CursorSnag(t, s, c) || Snag(t, s, child, Negative(t, s, Top(c).place.directory), Whole(t, s, child))
  {
    var n := Pushed(c, child);
    assert Popped(n) == c && Top(n) == Start(child) && n.frames[|c.frames| - 1] == Top(c);
    FramesBelow(t, s, n);
  }

  lemma RefilledSnag(t: Tree, s: Source, c: Cursor)
    requires !Exhausted(s, c)
    ensures CursorSnag(t, s, Refilled(s, c)) <==> CursorSnag(t, s, c)
  {
    if c.frames == [] {
      var n := Refilled(s, c);
      assert n.frames == [Start(Seeds(s)[c.seed])];
      assert FrameSnag(t, s, n, 0) <==> SeedSnag(t, s, c.seed);
    }
  }

  function Items(x: Scan): nat {
    |x.files| + |x.issues|
  }

  /** A snag to come stays to come, unless it is what has just come up: then a stamp in the cursor has a minus sign. */
  ghost predicate SnagKept(t: Tree, s: Source, x: Scan, y: Scan) {
    && Items(x) <= Items(y) && Standing(s, y.cursor)
    && (CursorSnag(t, s, x.cursor) <==> CursorSnag(t, s, y.cursor) || (Items(y) > Items(x) && !PlainCursor(y.cursor)))
  }

  lemma TroubleSnag(t: Tree, s: Source, hash: Hash, x: Scan, code: Code, spent: bool)
    requires x.cursor.frames != [] && Standing(s, x.cursor) && CursorFits(t, s, hash, x.cursor)
    requires FrameRest(t, s, Top(x.cursor)) == Yield([], [(Top(x.cursor).place.directory, code)], 1)
    ensures var turned := Troubled(x, code, spent); turned.Thrown? || SnagKept(t, s, x, turned.scan)
  {
    var (c, n) := (x.cursor, |x.cursor.frames| - 1);
    ToppedShaped(s, c, Top(c));
    FramesBelow(t, s, c);
    assert Yield([], [(Top(c).place.directory, code)], 1).issues[0] == (Top(c).place.directory, code);
    if n == 1 {
      ShowsStamp(t, s, hash, c, 0);
      assert Popped(c).frames == [c.frames[0]];
    }
    assert FrameSnag(t, s, c, n) <==> Below(t, s, c, n);
  }

  /** Reading on takes the entry found off what the top frame has to come. */
  lemma NextTop(t: Tree, s: Source, c: Cursor, e: Entry, g: Frame)
    requires c.frames != [] && g.place == Top(c).place
    requires FrameRest(t, s, Top(c)) == Plus(Plus(Yield([], [], 1), Found(t, s, g.place, e)), FrameRest(t, s, g))
    ensures CursorSnag(t, s, c) <==>
      CursorSnag(t, s, WithTop(c, g)) || Snag(t, s, g.place, Below(t, s, c, |c.frames| - 1), Found(t, s, g.place, e))
  {
    var below := Below(t, s, c, |c.frames| - 1);
    SnagPlus(t, s, g.place, below, Plus(Yield([], [], 1), Found(t, s, g.place, e)), FrameRest(t, s, g));
    SnagPlus(t, s, g.place, below, Yield([], [], 1), Found(t, s, g.place, e));
    FramesBelow(t, s, c);
    ToppedSnag(t, s, c, g);
  }

  lemma NextChild(t: Tree, s: Source, c: Cursor, name: string, child: Place)
    requires c.frames != [] && Standing(s, c) && Top(c).stamp.Some? && Top(c).place.kind == Collection
    requires child == Place(Top(c).place.directory + [name], Files)
    ensures Standing(s, Pushed(c, child)) && |c.frames| == 1
    ensures CursorSnag(t, s, Pushed(c, child)) <==> CursorSnag(t, s, c) || Snag(t, s, Top(c).place, false, Whole(t, s, child))
  {
    PushedShaped(s, c, name);
    PushedSnag(t, s, c, child);
    ChildSnag(t, s, Top(c).place, child);
  }

  lemma NextSnag(t: Tree, s: Source, hash: Hash, x: Scan, e: Entry, g: Frame, r: Reader)
    requires x.cursor.frames != [] && Standing(s, x.cursor) && CursorFits(t, s, hash, WithTop(x.cursor, g))
    requires g.place == Top(x.cursor).place && g.stamp.Some?
    requires FrameRest(t, s, Top(x.cursor)) == Plus(Plus(Yield([], [], 1), Found(t, s, g.place, e)), FrameRest(t, s, g))
    ensures SnagKept(t, s, x, Advanced(x, e, g, r))
  {
    var (c, file) := (WithTop(x.cursor, g), g.place.directory + [e.name]);
    NextTop(t, s, x.cursor, e, g);
    ToppedShaped(s, x.cursor, g);
    assert Below(t, s, c, |c.frames| - 1) == Below(t, s, x.cursor, |c.frames| - 1);
    if g.place.kind == Collection && e.directory {
      NextChild(t, s, c, e.name, Place(file, Files));
    } else if g.place.kind == Files && Jsonl(e.name) {
      FileSnag(t, s, hash, c, file);
    } else {
      assert !Snag(t, s, g.place, Below(t, s, c, |c.frames| - 1), NOTHING);
    }
  }

  /** What a directory in a collection has to come is what the collection has to come through it. */
  lemma ChildSnag(t: Tree, s: Source, root: Place, child: Place)
    requires root.kind == Collection && child.kind == Files && child.directory != root.directory
    requires Parent(child.directory) == root.directory
    ensures Snag(t, s, root, false, Whole(t, s, child)) <==>
      Snag(t, s, child, Negative(t, s, root.directory), Whole(t, s, child))
  {
    OwnIssues(t, s, child, 0);
    assert forall issue :: issue in Whole(t, s, child).issues ==> issue.0 == child.directory;
  }

  lemma {:induction false} OwnIssues(t: Tree, s: Source, place: Place, i: nat)
    requires place.kind == Files
    ensures forall issue :: issue in From(t, s, place, i).issues ==> issue.0 == place.directory
    decreases |t(place.directory).entries| - i
  {
    if i < |t(place.directory).entries| {
      OwnIssues(t, s, place, i + 1);
    }
  }

  /** A transcript that has just come up is a snag if and only if a stamp in the cursor has a minus sign. */
  lemma FileSnag(t: Tree, s: Source, hash: Hash, c: Cursor, file: Path)
    requires c.frames != [] && Standing(s, c) && CursorFits(t, s, hash, c) && Top(c).place.kind == Files
    requires Top(c).stamp.Some? && file != [] && Parent(file) == Top(c).place.directory
    ensures Snag(t, s, Top(c).place, Below(t, s, c, |c.frames| - 1), Yield([file], [], 0)) <==> !PlainCursor(c)
  {
    var (y, n) := (Yield([file], [], 0), |c.frames| - 1);
    assert y.files[0] == file;
    ShowsStamp(t, s, hash, c, n);
    if n == 1 {
      ShowsStamp(t, s, hash, c, 0);
    }
    assert SnagFile(t, s, Top(c).place, Below(t, s, c, n), file) <==> !PlainCursor(c);
  }

  lemma ShortSnag(t: Tree, s: Source, x: Scan, g: Frame, r: Reader)
    requires x.cursor.frames != [] && Standing(s, x.cursor) && g.place == Top(x.cursor).place
    requires FrameRest(t, s, g) == FrameRest(t, s, Top(x.cursor))
    ensures SnagKept(t, s, x, Stopped(x, g, r))
  {
    ToppedShaped(s, x.cursor, g);
    FramesBelow(t, s, x.cursor);
    ToppedSnag(t, s, x.cursor, g);
  }

  lemma EndedSnag(t: Tree, s: Source, x: Scan)
    requires x.cursor.frames != [] && Standing(s, x.cursor) && FrameRest(t, s, Top(x.cursor)) == Yield([], [], 1)
    ensures SnagKept(t, s, x, Ended(x))
  {
    ToppedShaped(s, x.cursor, Top(x.cursor));
    FramesBelow(t, s, x.cursor);
  }

  lemma SettleSnag(t: Tree, s: Source, hash: Hash, x: Scan, seen: Seen, spare: bool)
    requires x.cursor.frames != [] && Standing(s, x.cursor) && ScanFits(t, s, hash, x)
    requires IsHead(t, s, hash, Top(x.cursor), seen, spare) && (seen.Next? ==> seen.frame.stamp.Some?)
    ensures Settle(x, seen).Thrown? || SnagKept(t, s, x, Settle(x, seen).scan)
  {
    match seen
    case Trouble(code, spent) => TroubleSnag(t, s, hash, x, code, spent);
    case Short(g, r) => ShortSnag(t, s, x, g, r);
    case AtEnd(_, _) => EndedSnag(t, s, x);
    case Next(e, g, r) =>
      ToppedFits(t, s, hash, x.cursor, g);
      NextSnag(t, s, hash, x, e, g, r);
  }

  lemma TurnSnag(t: Tree, s: Source, hash: Hash, x: Scan)
    requires x.budget > 0 && Standing(s, x.cursor) && ScanFits(t, s, hash, x)
    ensures var turned := Turn(s, hash, Still(t), x); turned.Thrown? || SnagKept(t, s, x, turned.scan)
  {
    if !Exhausted(s, x.cursor) {
      var y := Refill(s, x);
      var d := Top(y.cursor).place.directory;
      RefilledShaped(s, x.cursor);
      RefilledRest(t, s, hash, x.cursor);
      RefilledSnag(t, s, x.cursor);
      LookHead(t, s, hash, y, x.turns);
      LookStamped(Still(t)(d, Followed(s, d), x.turns), hash, Top(y.cursor), ReaderOf(y, d), y.budget > 0);
      SettleSnag(t, s, hash, y, LookAt(s, hash, Still(t), y, x.turns), y.budget > 0);
    }
  }

  // ---- Pages of one item ----

  /** Asked for one item, a page runs until something has come up. */
  lemma {:induction false} RunSnag(t: Tree, s: Source, hash: Hash, x: Scan)
    requires Standing(s, x.cursor) && ScanFits(t, s, hash, x)
    ensures var r := Run(s, hash, Still(t), x, 1);
      r.Success? ==>
        && Standing(s, r.value.cursor) && CursorFits(t, s, hash, r.value.cursor)
        && if Items(x) > 0 then r.value == x else SnagKept(t, s, x, r.value)
    decreases x.budget
  {
    if x.budget != 0 && Items(x) == 0 {
      TurnSnag(t, s, hash, x);
      TurnStill(t, s, hash, x);
      var turned := Turn(s, hash, Still(t), x);
      if turned.Go? {
        RunSnag(t, s, hash, turned.scan);
      }
    }
  }

  /** What an answered request is made of. */
  lemma AnsweredIs(s: Source, hash: Hash, disk: Disk, start: Option<Cursor>, request: Request, page: Page)
    requires Answered(s, hash, disk, start, request, page)
    ensures DecodeCursor(s, start).Success?
    ensures var r := Run(s, hash, disk, Opening(s, DecodeCursor(s, start).value, request.turns), Limit(request.capacity));
      r.Success? && page == PageOf(s, r.value)
  {
  }

  /** A page of one item that leaves no snag behind has met none, or has stopped at one with a cursor that is refused. */
  lemma PageSnag(t: Tree, s: Source, hash: Hash, start: Option<Cursor>, request: Request, page: Page)
    requires Answered(s, hash, Still(t), start, request, page) && request.capacity == 1
    requires var c := DecodeCursor(s, start).value; Standing(s, c) && CursorFits(t, s, hash, c) && PlainCursor(c)
    ensures page.cursor.Some? ==> Standing(s, page.cursor.value) && CursorFits(t, s, hash, page.cursor.value)
    ensures CursorSnag(t, s, DecodeCursor(s, start).value) ==>
      !page.complete && page.cursor.Some? && (CursorSnag(t, s, page.cursor.value) || !PlainCursor(page.cursor.value))
    ensures !CursorSnag(t, s, DecodeCursor(s, start).value) && page.cursor.Some? ==>
      && !CursorSnag(t, s, page.cursor.value)
      && (PlainCursor(page.cursor.value) || (page.files == [] && page.issues == []))
  {
    AnsweredIs(s, hash, Still(t), start, request, page);
    var c := DecodeCursor(s, start).value;
    var x := Opening(s, c, request.turns);
    RunSnag(t, s, hash, x);
    OpenedSnag(t, s, c);
    ExhaustedSnag(t, s, Run(s, hash, Still(t), x, 1).value.cursor);
  }

  lemma OpenedSnag(t: Tree, s: Source, c: Cursor)
    ensures CursorSnag(t, s, c.(activeEmitted := true)) <==> CursorSnag(t, s, c)
  {
    var n := c.(activeEmitted := true);
    assert forall i :: 0 <= i < |c.frames| ==> (FrameSnag(t, s, n, i) <==> FrameSnag(t, s, c, i));
  }

  lemma ExhaustedSnag(t: Tree, s: Source, c: Cursor)
    ensures Exhausted(s, c) ==> !CursorSnag(t, s, c) && PlainCursor(c)
  {
  }

  /** One item at a time, a row that starts with a snag to come does not complete. */
  lemma {:induction false} RowSnag(t: Tree, s: Source, hash: Hash, start: Option<Cursor>, requests: seq<Request>, pages: seq<Page>)
    requires InARow(s, hash, Still(t), start, requests, pages) && pages != []
    requires forall i :: 0 <= i < |requests| ==> requests[i].capacity == 1
    requires var c := DecodeCursor(s, start).value; Standing(s, c) && CursorFits(t, s, hash, c) && PlainCursor(c)
    ensures CursorSnag(t, s, DecodeCursor(s, start).value) ==> !Last(pages).complete
    ensures !CursorSnag(t, s, DecodeCursor(s, start).value) && Last(pages).cursor.Some? ==>
      PlainCursor(Last(pages).cursor.value) || (Last(pages).files == [] && Last(pages).issues == [])
    decreases |pages|
  {
    PageSnag(t, s, hash, start, requests[0], pages[0]);
    if |pages| > 1 {
      SecondTaken(s, hash, Still(t), start, requests, pages);
      AcceptedPlain(s, pages[0].cursor.value);
      RowSnag(t, s, hash, pages[0].cursor, requests[1..], pages[1..]);
    }
  }

  lemma AcceptedPlain(s: Source, c: Cursor)
    ensures Accepts(s, c) ==> PlainCursor(c)
  {
    if Accepts(s, c) {
      assert forall i :: 0 <= i < |c.frames| ==> AcceptsFrame(s, c.frames[i]);
    }
  }

  lemma FreshSnag(t: Tree, s: Source)
    ensures CursorSnag(t, s, Fresh(s)) <==> ScanSnag(t, s)
  {
  }

  /** If any transcript the scan should bring in comes up while its directory or its root has a minus sign in its stamp, or
      any issue of a directory while its root has, asking for one item at a time never gets to a page that is complete. */
  lemma NegativeStampStalls(t: Tree, s: Source, hash: Hash, requests: seq<Request>, pages: seq<Page>)
    requires InARow(s, hash, Still(t), None, requests, pages) && pages != []
    requires forall i :: 0 <= i < |requests| ==> requests[i].capacity == 1
    requires ScanSnag(t, s)
    ensures !Last(pages).complete
  {
    FreshSnag(t, s);
    RowSnag(t, s, hash, None, requests, pages);
  }

  /** If nothing does, a page of one item is refused only if it has brought in nothing: it ended by its budget. */
  lemma OnlySnagsRefuse(t: Tree, s: Source, hash: Hash, requests: seq<Request>, pages: seq<Page>)
    requires Bounded(s, Still(t)) && InARow(s, hash, Still(t), None, requests, pages) && pages != []
    requires forall i :: 0 <= i < |requests| ==> requests[i].capacity == 1
    requires !ScanSnag(t, s) && Refused(s, Last(pages))
    ensures Last(pages).files == [] && Last(pages).issues == []
  {
    FreshSnag(t, s);
    RowSnag(t, s, hash, None, requests, pages);
    RowGood(s, hash, Still(t), None, requests, pages);
  }

  /** Asking on for one item at a time ends with a page that is complete or whose cursor is refused. */
  lemma {:induction false} EndsSomehow(t: Tree, s: Source, hash: Hash, start: Option<Cursor>, from: nat) returns (pages: seq<Page>)
    requires DecodeCursor(s, start).Success? && CursorFits(t, s, hash, DecodeCursor(s, start).value)
    requires !DecodeCursor(s, start).value.retry
    ensures pages != [] && InARow(s, hash, Still(t), start, Asked(ONE_AT_A_TIME, from, |pages|), pages)
    ensures Last(pages).complete || (Last(pages).cursor.Some? && !Accepts(s, Last(pages).cursor.value))
    decreases Due(t, s, DecodeCursor(s, start).value).turns
  {
    PageStill(t, s, hash, start, 1, 0);
    var page := DiscoverPage(s, hash, Still(t), start, 1, 0).value;
    var rest := [];
    if page.cursor.Some? && Accepts(s, page.cursor.value) {
      rest := EndsSomehow(t, s, hash, page.cursor, from + 1);
    }
    pages := [page] + rest;
    RowGrows(s, hash, Still(t), start, ONE_AT_A_TIME, from, page, rest);
  }

  const ONE_AT_A_TIME: nat -> Request := (i: nat) => Request(1, 0)

  lemma OneEach(from: nat, count: nat)
    ensures forall i :: 0 <= i < count ==> Asked(ONE_AT_A_TIME, from, count)[i].capacity == 1
    decreases count
  {
    if count > 0 {
      OneEach(from + 1, count - 1);
    }
  }

  /** So the program comes to refuse a cursor of its own. */
  lemma OwnCursorRefused(t: Tree, s: Source, hash: Hash) returns (pages: seq<Page>)
    requires ScanSnag(t, s)
    ensures pages != [] && InARow(s, hash, Still(t), None, Asked(ONE_AT_A_TIME, 0, |pages|), pages)
    ensures Last(pages).cursor.Some? && DiscoverPage(s, hash, Still(t), Last(pages).cursor, 1, 0) == Failure(Invalid)
  {
    pages := EndsSomehow(t, s, hash, None, 0);
    OneEach(0, |pages|);
    NegativeStampStalls(t, s, hash, Asked(ONE_AT_A_TIME, 0, |pages|), pages);
  }

  /** A transcript in a directory with a minus sign is enough, and so is one anywhere below a root with one. */
  lemma TranscriptSnags(t: Tree, s: Source, k: nat, file: Path)
    requires k < |Seeds(s)| && file in Whole(t, s, Seeds(s)[k]).files
    requires Negative(t, s, Parent(file)) || (Seeds(s)[k].kind == Collection && Negative(t, s, Seeds(s)[k].directory))
    ensures ScanSnag(t, s)
  {
    assert SnagFile(t, s, Seeds(s)[k], false, file);
    assert SeedSnag(t, s, k);
  }

  // ---- Two instances ----

  const OLD_STAMP := Stamp(1, 1, -1, 0)
  const NEW_STAMP := Stamp(1, 1, 0, 0)
  const OLD_SOURCE := Source(0, false, Some(["s.jsonl"]), [], [])
  const ROOT_SOURCE := Source(0, true, None, [], [[]])

  function Flat(stamp: Stamp, entries: seq<Entry>): Dir {
    Dir(Success(stamp), Success(stamp), None, entries, None)
  }

  /** Two transcripts in a directory last changed just before 1970. */
  function OldTree(): Tree {
    (p: Path) => Flat(OLD_STAMP, [Entry("a.jsonl", false), Entry("b.jsonl", false)])
  }

  /** A root last changed just before 1970, with one directory in it that was changed later and holds a transcript. */
  function OldRoot(): Tree {
    (p: Path) => if p == [] then Flat(OLD_STAMP, [Entry("d", true)]) else Flat(NEW_STAMP, [Entry("a.jsonl", false)])
  }

  lemma OldTranscript()
    ensures ScanSnag(OldTree(), OLD_SOURCE)
  {
    assert OldTree()([]).entries[0].name == "a.jsonl" && Jsonl("a.jsonl");
    WholeFiles(OldTree(), OLD_SOURCE, [], ["a.jsonl"]);
    assert Seeds(OLD_SOURCE)[0] == Place([], Files);
    TranscriptSnags(OldTree(), OLD_SOURCE, 0, ["a.jsonl"]);
  }

  lemma OldRootTranscript()
    ensures ScanSnag(OldRoot(), ROOT_SOURCE)
  {
    var (t, s, file) := (OldRoot(), ROOT_SOURCE, ["d", "a.jsonl"]);
    assert t([]).entries[0] == Entry("d", true) && Lists(t, [], "d", true);
    assert t(["d"]).entries[0].name == "a.jsonl" && Jsonl("a.jsonl") && Lists(t, ["d"], "a.jsonl", false);
    assert Parent(file) == ["d"] && Parent(["d"]) == [];
    assert IsTranscript(t, ["d"], file) && Readable(t, s, []) && Readable(t, s, ["d"]);
    WholeCollection(t, s, [], file);
    assert Seeds(s)[0] == Place([], Collection);
    TranscriptSnags(t, s, 0, file);
  }

  /** The scan of such a directory comes to a cursor that the program refuses, and so does the scan of such a root. */
  lemma OldDirectoryRefused(hash: Hash) returns (flat: seq<Page>, rooted: seq<Page>)
    ensures flat != [] && InARow(OLD_SOURCE, hash, Still(OldTree()), None, Asked(ONE_AT_A_TIME, 0, |flat|), flat)
    ensures Last(flat).cursor.Some?
    ensures DiscoverPage(OLD_SOURCE, hash, Still(OldTree()), Last(flat).cursor, 1, 0) == Failure(Invalid)
    ensures rooted != [] && InARow(ROOT_SOURCE, hash, Still(OldRoot()), None, Asked(ONE_AT_A_TIME, 0, |rooted|), rooted)
    ensures Last(rooted).cursor.Some?
    ensures DiscoverPage(ROOT_SOURCE, hash, Still(OldRoot()), Last(rooted).cursor, 1, 0) == Failure(Invalid)
  {
    OldTranscript();
    OldRootTranscript();
    flat := OwnCursorRefused(OldTree(), OLD_SOURCE, hash);
    rooted := OwnCursorRefused(OldRoot(), ROOT_SOURCE, hash);
  }
}
