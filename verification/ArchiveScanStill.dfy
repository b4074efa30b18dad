/** On directories that do not change, pages of any size make up one uninterrupted scan, and they come to an end. */
module ArchiveScanStill {
  import opened Options
  import opened ArchiveScan

  /** A directory as it stays: its stamps (through links and not), whether it opens, its entries in order, and
      whether reading on after them fails. */
  datatype Dir = Dir(followed: Result<Stamp, Code>, own: Result<Stamp, Code>, opens: Option<Code>,
                     entries: seq<Entry>, broken: Option<Code>)
  type Tree = Path -> Dir

  function AnswersOf(d: Dir, follow: bool): Answers {
    var stamp := if follow then d.followed else d.own;
    Answers(stamp, d.opens,
            (i: nat) => if i < |d.entries| then Success(Some(d.entries[i]))
                        else if d.broken.Some? then Failure(d.broken.value) else Success(None),
            stamp)
  }

  function Still(t: Tree): Disk {
    (p: Path, follow: bool, turn: nat) => AnswersOf(t(p), follow)
  }

  function StampOf(t: Tree, s: Source, p: Path): Result<Stamp, Code> {
    if Followed(s, p) then t(p).followed else t(p).own
  }

  // ---- The uninterrupted scan ----

  /** What is found, what fails, and in how many turns. */
  datatype Yield = Yield(files: seq<Path>, issues: seq<(Path, Code)>, turns: nat)

  const NOTHING := Yield([], [], 0)

  function Plus(a: Yield, b: Yield): Yield {
    Yield(a.files + b.files, a.issues + b.issues, a.turns + b.turns)
  }

  function Rank(kind: Kind): nat {
    if kind == Collection then 1 else 0
  }

  function Whole(t: Tree, s: Source, place: Place): Yield
    decreases Rank(place.kind), 1, 0
  {
    var stamp := StampOf(t, s, place.directory);
    if stamp.Failure? then Yield([], [(place.directory, stamp.error)], 1)
    else if t(place.directory).opens.Some? then Yield([], [(place.directory, t(place.directory).opens.value)], 1)
    else From(t, s, place, 0)
  }

  /** The rest of a readable directory from its `i`th entry on. */
  function From(t: Tree, s: Source, place: Place, i: nat): Yield
    decreases Rank(place.kind), 0, |t(place.directory).entries| - i
  {
    var d := t(place.directory);
    if i >= |d.entries| then Yield([], if d.broken.Some? then [(place.directory, d.broken.value)] else [], 1)
    else Plus(Plus(Yield([], [], 1), Found(t, s, place, d.entries[i])), From(t, s, place, i + 1))
  }

  function Found(t: Tree, s: Source, place: Place, entry: Entry): Yield
    decreases Rank(place.kind), 0, 0
  {
    var candidate := place.directory + [entry.name];
    if place.kind == Collection then
      if entry.directory then Whole(t, s, Place(candidate, Files)) else NOTHING
    else if Jsonl(entry.name) then Yield([candidate], [], 0) else NOTHING
  }

  function SeedsFrom(t: Tree, s: Source, i: nat): Yield
    decreases |Seeds(s)| - i
  {
    if i >= |Seeds(s)| then NOTHING else Plus(Whole(t, s, Seeds(s)[i]), SeedsFrom(t, s, i + 1))
  }

  function Active(s: Source): Yield {
    Yield(if s.sessionFile.Some? then [s.sessionFile.value] else [], [], 1)
  }

  /** One scan without pages: the active session's file, then every seed in turn. */
  function FullScan(t: Tree, s: Source): Yield {
    Plus(Active(s), SeedsFrom(t, s, 0))
  }

  // ---- What a cursor leaves to be scanned ----

  function FrameRest(t: Tree, s: Source, f: Frame): Yield {
    if f.stamp.None? then Whole(t, s, f.place) else From(t, s, f.place, f.position)
  }

  function Rest(t: Tree, s: Source, c: Cursor): Yield
    decreases |c.frames|
  {
    if c.frames == [] then (if c.retry then NOTHING else SeedsFrom(t, s, c.seed))
    else Plus(FrameRest(t, s, Top(c)), Rest(t, s, Popped(c)))
  }

  function PrefixAt(hash: Hash, entries: seq<Entry>, i: nat): Prefix
    requires i <= |entries|
  {
    if i == 0 then Empty else Digest(hash(PrefixAt(hash, entries, i - 1), entries[i - 1].name))
  }

  /** The frame has seen the first `position` entries of the directory as it is. */
  ghost predicate Fits(t: Tree, s: Source, hash: Hash, f: Frame) {
    var d := t(f.place.directory);
    if f.stamp.None? then f.position == 0 && f.prefix == Empty
    else
      && StampOf(t, s, f.place.directory) == Success(f.stamp.value) && d.opens.None?
      && f.position <= |d.entries| && f.prefix == PrefixAt(hash, d.entries, f.position)
  }

  ghost predicate ReaderFits(t: Tree, s: Source, hash: Hash, p: Path, r: Reader) {
    && StampOf(t, s, p) == Success(r.stamp) && t(p).opens.None?
    && r.position <= |t(p).entries| && r.prefix == PrefixAt(hash, t(p).entries, r.position)
  }

  ghost predicate CursorFits(t: Tree, s: Source, hash: Hash, c: Cursor) {
    forall i :: 0 <= i < |c.frames| ==> Fits(t, s, hash, c.frames[i])
  }

  ghost predicate AllReadersFit(t: Tree, s: Source, hash: Hash, readers: map<Path, Reader>) {
    forall p :: p in readers ==> ReaderFits(t, s, hash, p, readers[p])
  }

  ghost predicate ScanFits(t: Tree, s: Source, hash: Hash, x: Scan) {
    CursorFits(t, s, hash, x.cursor) && AllReadersFit(t, s, hash, x.readers)
  }

  // ---- One look ----

  lemma {:induction false} ReplayStill(t: Tree, s: Source, hash: Hash, p: Path, r: Reader, until: nat)
    requires ReaderFits(t, s, hash, p, r) && r.position <= until <= |t(p).entries|
    ensures var e := Replay(AnswersOf(t(p), Followed(s, p)), hash, r, until);
      e.Success? && e.value.position == until && e.value.stamp == r.stamp && ReaderFits(t, s, hash, p, e.value)
    decreases until - r.position
  {
    if r.position < until {
      ReplayStill(t, s, hash, p, Advance(hash, r, t(p).entries[r.position].name), until);
    }
  }

  function LookStill(t: Tree, s: Source, hash: Hash, f: Frame, reader: Option<Reader>, spare: bool): Seen {
    Look(AnswersOf(t(f.place.directory), Followed(s, f.place.directory)), hash, f, reader, spare)
  }

  /** What was seen is the head of what the frame has left. */
  ghost predicate IsHead(t: Tree, s: Source, hash: Hash, f: Frame, seen: Seen, spare: bool) {
    var p := f.place.directory;
    match seen
    case Trouble(code, _) => FrameRest(t, s, f) == Yield([], [(p, code)], 1)
    case Short(g, r) =>
      && !spare && Fits(t, s, hash, g) && ReaderFits(t, s, hash, p, r) && g.place == f.place
      && FrameRest(t, s, g) == FrameRest(t, s, f)
    case AtEnd(g, r) => FrameRest(t, s, f) == Yield([], [], 1)
    case Next(e, g, r) =>
      && Fits(t, s, hash, g) && ReaderFits(t, s, hash, p, r) && g.place == f.place
      && FrameRest(t, s, f) == Plus(Plus(Yield([], [], 1), Found(t, s, f.place, e)), FrameRest(t, s, g))
  }

  lemma RestampedRest(t: Tree, s: Source, hash: Hash, f: Frame, stamp: Stamp)
    requires Fits(t, s, hash, f) && StampOf(t, s, f.place.directory) == Success(stamp) && t(f.place.directory).opens.None?
    ensures var g := Restamped(f, stamp);
      && Fits(t, s, hash, g) && g.position == f.position && g.stamp == Some(stamp) && g.place == f.place
      && FrameRest(t, s, g) == FrameRest(t, s, f)
  {
  }

  lemma ReadsHead(t: Tree, s: Source, hash: Hash, g: Frame, stamp: Stamp, r: Reader)
    requires Fits(t, s, hash, g) && g.stamp == Some(stamp)
    requires ReaderFits(t, s, hash, g.place.directory, r) && r.position == g.position && r.stamp == stamp
    ensures var d := t(g.place.directory);
      IsHead(t, s, hash, g, ReadOn(AnswersOf(d, Followed(s, g.place.directory)), hash, g, stamp, r), true)
  {
  }

  lemma SeesHead(t: Tree, s: Source, hash: Hash, f: Frame, reader: Option<Reader>, spare: bool)
    requires Fits(t, s, hash, f) && (reader.Some? ==> ReaderFits(t, s, hash, f.place.directory, reader.value))
    ensures IsHead(t, s, hash, f, LookStill(t, s, hash, f, reader, spare), spare)
  {
    var p := f.place.directory;
    var stamp := StampOf(t, s, p);
    if stamp.Success? && t(p).opens.None? {
      var g, kept := Restamped(f, stamp.value), Reused(f, stamp.value, reader);
      var from := if kept.Some? then kept.value else Reader(stamp.value, 0, Empty, []);
      RestampedRest(t, s, hash, f, stamp.value);
      ReplayStill(t, s, hash, p, from, g.position);
      ReadsHead(t, s, hash, g, stamp.value, Replay(AnswersOf(t(p), Followed(s, p)), hash, from, g.position).value);
    }
  }

  // ---- One turn ----

  lemma PlusAssociative(a: Yield, b: Yield, c: Yield)
    ensures Plus(Plus(a, b), c) == Plus(a, Plus(b, c)) && Plus(NOTHING, a) == a && Plus(a, NOTHING) == a
  {
    assert a.files + b.files + c.files == a.files + (b.files + c.files);
    assert a.issues + b.issues + c.issues == a.issues + (b.issues + c.issues);
    assert a.files + [] == a.files && a.issues + [] == a.issues;
  }

  function Codes(issues: seq<Issue>): seq<(Path, Code)> {
    seq(|issues|, i requires 0 <= i < |issues| => (issues[i].directory, issues[i].code))
  }

  /** What the page has so far and what is left add up; `spent` turns were used. */
  ghost predicate Adds(x: Scan, rest: Yield, y: Scan, left: Yield, spent: nat) {
    && y.files + left.files == x.files + rest.files
    && Codes(y.issues) + left.issues == Codes(x.issues) + rest.issues
    && left.turns + spent == rest.turns
  }

  function Reported(place: Place, e: Entry): seq<Path> {
    if place.kind == Files && Jsonl(e.name) then [place.directory + [e.name]] else []
  }

  lemma NextRest(t: Tree, s: Source, c: Cursor, e: Entry, g: Frame)
    requires c.frames != [] && g.place == Top(c).place
    requires FrameRest(t, s, Top(c)) == Plus(Plus(Yield([], [], 1), Found(t, s, g.place, e)), FrameRest(t, s, g))
    ensures var child := Place(g.place.directory + [e.name], Files);
      var n := if g.place.kind == Collection && e.directory then Pushed(WithTop(c, g), child) else WithTop(c, g);
      Rest(t, s, c) == Plus(Yield(Reported(g.place, e), [], 1), Rest(t, s, n))
  {
    var n := WithTop(c, g);
    var below, found, rest := Rest(t, s, Popped(c)), Found(t, s, g.place, e), FrameRest(t, s, g);
    assert Popped(n) == Popped(c) && Top(n) == g;
    PlusAssociative(Plus(Yield([], [], 1), found), rest, below);
    PlusAssociative(Yield([], [], 1), found, Plus(rest, below));
    assert Rest(t, s, c) == Plus(Yield([], [], 1), Plus(found, Rest(t, s, n)));
    if g.place.kind == Collection && e.directory {
      ChildRest(t, s, n, Place(g.place.directory + [e.name], Files));
    } else {
      PlusAssociative(Yield([], [], 1), found, Rest(t, s, n));
    }
  }

  lemma ChildRest(t: Tree, s: Source, c: Cursor, child: Place)
    requires c.frames != []
    ensures Rest(t, s, Pushed(c, child)) == Plus(Whole(t, s, child), Rest(t, s, c))
  {
    assert Popped(Pushed(c, child)) == c && Top(Pushed(c, child)) == Start(child);
  }

  lemma NextAdds(t: Tree, s: Source, x: Scan, e: Entry, g: Frame, reader: Reader)
    requires x.cursor.frames != [] && g.place == Top(x.cursor).place
    requires FrameRest(t, s, Top(x.cursor)) == Plus(Plus(Yield([], [], 1), Found(t, s, g.place, e)), FrameRest(t, s, g))
    ensures var y := Advanced(x, e, g, reader); Adds(x, Rest(t, s, x.cursor), y, Rest(t, s, y.cursor), 1)
  {
    var y := Advanced(x, e, g, reader);
    NextRest(t, s, x.cursor, e, g);
    HeadAdds(x, y, Rest(t, s, x.cursor), Rest(t, s, y.cursor), Reported(g.place, e));
  }

  lemma HeadAdds(x: Scan, y: Scan, rest: Yield, left: Yield, found: seq<Path>)
    requires rest == Plus(Yield(found, [], 1), left) && y.files == x.files + found && y.issues == x.issues
    ensures Adds(x, rest, y, left, 1)
  {
    assert y.files + left.files == x.files + (found + left.files);
    assert [] + left.issues == left.issues;
  }

  lemma TroubleAdds(t: Tree, s: Source, x: Scan, code: Code, spent: bool)
    requires x.cursor.frames != [] && FrameRest(t, s, Top(x.cursor)) == Yield([], [(Top(x.cursor).place.directory, code)], 1)
    ensures TurnAdds(t, s, x, Troubled(x, code, spent), true)
  {
    var turned := Troubled(x, code, spent);
    if turned.Go? {
      var place := Top(x.cursor).place;
      var issue := Issue(place.directory, code, RetryCursor(x.cursor, place));
      IssueAdds(x, turned.scan, Rest(t, s, x.cursor), Rest(t, s, turned.scan.cursor), issue);
    }
  }

  lemma IssueAdds(x: Scan, y: Scan, rest: Yield, left: Yield, issue: Issue)
    requires rest == Plus(Yield([], [(issue.directory, issue.code)], 1), left)
    requires y.files == x.files && y.issues == x.issues + [issue]
    ensures Adds(x, rest, y, left, 1)
  {
    var code := (issue.directory, issue.code);
    assert Codes(y.issues) == Codes(x.issues) + [code];
    assert Codes(x.issues) + [code] + left.issues == Codes(x.issues) + ([code] + left.issues);
    assert [] + left.files == left.files;
  }

  lemma AtEndAdds(t: Tree, s: Source, x: Scan)
    requires x.cursor.frames != [] && FrameRest(t, s, Top(x.cursor)) == Yield([], [], 1)
    ensures Adds(x, Rest(t, s, x.cursor), Ended(x), Rest(t, s, Ended(x).cursor), 1)
  {
    var rest := Rest(t, s, Popped(x.cursor));
    assert [] + rest.files == rest.files && [] + rest.issues == rest.issues;
  }

  lemma ShortAdds(t: Tree, s: Source, x: Scan, g: Frame, reader: Reader)
    requires x.cursor.frames != [] && FrameRest(t, s, g) == FrameRest(t, s, Top(x.cursor))
    ensures var y := Stopped(x, g, reader); Adds(x, Rest(t, s, x.cursor), y, Rest(t, s, y.cursor), 0)
  {
    assert Popped(WithTop(x.cursor, g)) == Popped(x.cursor);
  }

  ghost predicate TurnAdds(t: Tree, s: Source, x: Scan, turned: Turned, spare: bool) {
    match turned
    case Go(y) => Adds(x, Rest(t, s, x.cursor), y, Rest(t, s, y.cursor), 1)
    case Halt(y) => !spare && Adds(x, Rest(t, s, x.cursor), y, Rest(t, s, y.cursor), 0)
    case Thrown(_) => x.cursor.retry
  }

  lemma SettleAdds(t: Tree, s: Source, hash: Hash, x: Scan, seen: Seen, spare: bool)
    requires x.cursor.frames != [] && IsHead(t, s, hash, Top(x.cursor), seen, spare)
    ensures TurnAdds(t, s, x, Settle(x, seen), spare)
  {
    match seen
    case Trouble(code, spent) => TroubleAdds(t, s, x, code, spent);
    case Short(g, r) => ShortAdds(t, s, x, g, r);
    case AtEnd(_, _) => AtEndAdds(t, s, x);
    case Next(e, g, r) => NextAdds(t, s, x, e, g, r);
  }

  ghost predicate GoodScan(t: Tree, s: Source, hash: Hash, x: Scan, y: Scan) {
    ScanFits(t, s, hash, y) && y.cursor.retry == x.cursor.retry && y.cursor.activeEmitted == x.cursor.activeEmitted
  }

  lemma ReadersFit(t: Tree, s: Source, hash: Hash, readers: map<Path, Reader>, p: Path, r: Reader)
    requires AllReadersFit(t, s, hash, readers)
    ensures AllReadersFit(t, s, hash, readers - {p})
    ensures ReaderFits(t, s, hash, p, r) ==> AllReadersFit(t, s, hash, readers[p := r])
  {
  }

  lemma ToppedFits(t: Tree, s: Source, hash: Hash, c: Cursor, g: Frame)
    requires c.frames != [] && CursorFits(t, s, hash, c)
    ensures CursorFits(t, s, hash, Popped(c)) && (Fits(t, s, hash, g) ==> CursorFits(t, s, hash, WithTop(c, g)))
  {
  }

  lemma PushedFits(t: Tree, s: Source, hash: Hash, c: Cursor, place: Place)
    requires CursorFits(t, s, hash, c)
    ensures CursorFits(t, s, hash, Pushed(c, place))
  {
  }

  lemma SettleFits(t: Tree, s: Source, hash: Hash, x: Scan, seen: Seen, spare: bool)
    requires x.cursor.frames != [] && ScanFits(t, s, hash, x) && IsHead(t, s, hash, Top(x.cursor), seen, spare)
    ensures Settle(x, seen).Thrown? || GoodScan(t, s, hash, x, Settle(x, seen).scan)
  {
    var p := Top(x.cursor).place.directory;
    match seen
    case Trouble(_, _) =>
      ToppedFits(t, s, hash, x.cursor, Top(x.cursor));
      ReadersFit(t, s, hash, x.readers, p, Reader(Stamp(0, 0, 0, 0), 0, Empty, []));
    case Short(g, r) =>
      ToppedFits(t, s, hash, x.cursor, g);
      ReadersFit(t, s, hash, x.readers, p, r);
    case AtEnd(_, _) =>
      ToppedFits(t, s, hash, x.cursor, Top(x.cursor));
      ReadersFit(t, s, hash, x.readers, p, Reader(Stamp(0, 0, 0, 0), 0, Empty, []));
    case Next(e, g, r) =>
      ToppedFits(t, s, hash, x.cursor, g);
      ReadersFit(t, s, hash, x.readers, p, r);
      PushedFits(t, s, hash, WithTop(x.cursor, g), Place(p + [e.name], Files));
  }

  lemma StartedRest(t: Tree, s: Source, hash: Hash, c: Cursor, place: Place)
    requires c.frames == []
    ensures CursorFits(t, s, hash, Pushed(c, place))
    ensures Rest(t, s, Pushed(c, place)) == Plus(Whole(t, s, place), Rest(t, s, c))
  {
    var n := Pushed(c, place);
    assert n.frames == [Start(place)] && Popped(n).frames == [] && Popped(n) == c && Top(n) == Start(place);
  }

  lemma RefilledRest(t: Tree, s: Source, hash: Hash, c: Cursor)
    requires !Exhausted(s, c) && CursorFits(t, s, hash, c)
    ensures var n := Refilled(s, c);
      CursorFits(t, s, hash, n) && Rest(t, s, n) == Rest(t, s, c) && n.retry == c.retry && n.activeEmitted == c.activeEmitted
  {
    if c.frames == [] {
      StartedRest(t, s, hash, c.(seed := c.seed + 1), Seeds(s)[c.seed]);
    }
  }

  /** One turn of a page on still directories: it takes one turn off what is left, unless the budget is short. */
  ghost predicate GoodTurn(t: Tree, s: Source, hash: Hash, x: Scan, turned: Turned) {
    match turned
    case Go(y) => Adds(x, Rest(t, s, x.cursor), y, Rest(t, s, y.cursor), 1) && GoodScan(t, s, hash, x, y)
    case Halt(y) =>
      && (Exhausted(s, x.cursor) || x.budget == 1)
      && Adds(x, Rest(t, s, x.cursor), y, Rest(t, s, y.cursor), 0) && GoodScan(t, s, hash, x, y)
    case Thrown(_) => x.cursor.retry
  }

  /** Taking up a seed changes neither what the page has nor what is left. */
  lemma GoodFrom(t: Tree, s: Source, hash: Hash, x: Scan, y: Scan, turned: Turned, spare: bool)
    requires y.files == x.files && y.issues == x.issues && Rest(t, s, y.cursor) == Rest(t, s, x.cursor)
    requires y.cursor.retry == x.cursor.retry && y.cursor.activeEmitted == x.cursor.activeEmitted
    requires TurnAdds(t, s, y, turned, spare) && (turned.Thrown? || GoodScan(t, s, hash, y, turned.scan))
    requires !spare ==> x.budget == 1
    ensures GoodTurn(t, s, hash, x, turned)
  {
  }

  lemma TurnStill(t: Tree, s: Source, hash: Hash, x: Scan)
    requires ScanFits(t, s, hash, x) && x.budget > 0
    ensures GoodTurn(t, s, hash, x, Turn(s, hash, Still(t), x))
  {
    if !Exhausted(s, x.cursor) {
      var y := Refill(s, x);
      RefilledRest(t, s, hash, x.cursor);
      LookHead(t, s, hash, y, x.turns);
      var seen := LookAt(s, hash, Still(t), y, x.turns);
      SettleAdds(t, s, hash, y, seen, y.budget > 0);
      SettleFits(t, s, hash, y, seen, y.budget > 0);
      GoodFrom(t, s, hash, x, y, Settle(y, seen), y.budget > 0);
    }
  }

  lemma LookHead(t: Tree, s: Source, hash: Hash, x: Scan, turn: nat)
    requires x.cursor.frames != [] && ScanFits(t, s, hash, x)
    ensures IsHead(t, s, hash, Top(x.cursor), LookAt(s, hash, Still(t), x, turn), x.budget > 0)
  {
    var f := Top(x.cursor);
    var p := f.place.directory;
    assert Still(t)(p, Followed(s, p), turn) == AnswersOf(t(p), Followed(s, p));
    SeesHead(t, s, hash, f, ReaderOf(x, p), x.budget > 0);
  }

  // ---- Pages ----

  lemma AddsOn(a: Scan, b: Yield, c: Scan, d: Yield, e: Scan, f: Yield, m: nat, n: nat)
    requires Adds(a, b, c, d, m) && Adds(c, d, e, f, n)
    ensures Adds(a, b, e, f, m + n)
  {
  }

  lemma {:induction false} RunStill(t: Tree, s: Source, hash: Hash, x: Scan, limit: nat)
    requires ScanFits(t, s, hash, x)
    ensures var (r, rest) := (Run(s, hash, Still(t), x, limit), Rest(t, s, x.cursor));
      && (r.Failure? ==> x.cursor.retry)
      && (r.Success? ==>
            && GoodScan(t, s, hash, x, r.value) && Rest(t, s, r.value.cursor).turns <= rest.turns
            && Adds(x, rest, r.value, Rest(t, s, r.value.cursor), rest.turns - Rest(t, s, r.value.cursor).turns)
            && (x.budget >= 2 && |x.files| + |x.issues| < limit && !Exhausted(s, x.cursor)
                ==> Rest(t, s, r.value.cursor).turns < rest.turns))
    decreases x.budget
  {
    if x.budget != 0 && |x.files| + |x.issues| < limit {
      TurnStill(t, s, hash, x);
      var turned := Turn(s, hash, Still(t), x);
      if turned.Go? {
        var y := turned.scan;
        RunStill(t, s, hash, y, limit);
        var r := Run(s, hash, Still(t), y, limit);
        if r.Success? {
          AddsOn(x, Rest(t, s, x.cursor), y, Rest(t, s, y.cursor), r.value, Rest(t, s, r.value.cursor), 1,
                 Rest(t, s, y.cursor).turns - Rest(t, s, r.value.cursor).turns);
        }
      }
    }
  }

  /** All a cursor still has to bring in. */
  function Due(t: Tree, s: Source, c: Cursor): Yield {
    Plus(if c.activeEmitted then NOTHING else Active(s), Rest(t, s, c))
  }

  function DueAfter(t: Tree, s: Source, page: Page): Yield {
    if page.cursor.None? then NOTHING else Due(t, s, page.cursor.value)
  }

  /** A page brings in the head of what was due. */
  ghost predicate BringsHead(t: Tree, s: Source, c: Cursor, page: Page) {
    && page.files + DueAfter(t, s, page).files == Due(t, s, c).files
    && Codes(page.issues) + DueAfter(t, s, page).issues == Due(t, s, c).issues
  }

  /** A page that is not complete gives a cursor with less to do, but something. */
  ghost predicate LeavesLess(t: Tree, s: Source, hash: Hash, c: Cursor, page: Page) {
    && (page.complete <==> page.cursor.None?)
    && (page.cursor.Some? ==>
          && CursorFits(t, s, hash, page.cursor.value) && page.cursor.value.retry == c.retry
          && 0 < Due(t, s, page.cursor.value).turns < Due(t, s, c).turns)
  }

  /** A page brings in the head of what was due and leaves the rest; only the directory a retry is about can fail it. */
  lemma PageStill(t: Tree, s: Source, hash: Hash, encoded: Option<Cursor>, capacity: nat, turns: nat)
    requires 0 < capacity <= 10000 && DecodeCursor(s, encoded).Success?
    requires CursorFits(t, s, hash, DecodeCursor(s, encoded).value)
    ensures var (c, r) := (DecodeCursor(s, encoded).value, DiscoverPage(s, hash, Still(t), encoded, capacity, turns));
      if r.Failure? then c.retry else BringsHead(t, s, c, r.value) && LeavesLess(t, s, hash, c, r.value)
  {
    var c := DecodeCursor(s, encoded).value;
    RunPage(t, s, hash, c, Limit(capacity), turns);
  }

  lemma RunPage(t: Tree, s: Source, hash: Hash, c: Cursor, limit: nat, turns: nat)
    requires CursorFits(t, s, hash, c) && limit > 0
    ensures var r := Run(s, hash, Still(t), Opening(s, c, turns), limit);
      if r.Failure? then c.retry else BringsHead(t, s, c, PageOf(s, r.value)) && LeavesLess(t, s, hash, c, PageOf(s, r.value))
  {
    var x := Opening(s, c, turns);
    RunStill(t, s, hash, x, limit);
    RestSame(t, s, c);
    var r := Run(s, hash, Still(t), x, limit);
    if r.Success? {
      if Exhausted(s, x.cursor) {
        ExhaustedRun(s, hash, Still(t), x, limit);
      }
      DueKept(t, s, c, x, r.value);
      LessDue(t, s, hash, c, x, r.value);
    }
  }

  lemma ExhaustedRun(s: Source, hash: Hash, disk: Disk, x: Scan, limit: nat)
    requires Exhausted(s, x.cursor)
    ensures Run(s, hash, disk, x, limit) == Success(x)
  {
  }

  lemma LessDue(t: Tree, s: Source, hash: Hash, c: Cursor, x: Scan, y: Scan)
    requires x == Opening(s, c, x.turns) && Rest(t, s, x.cursor) == Rest(t, s, c)
    requires GoodScan(t, s, hash, x, y) && Rest(t, s, y.cursor).turns <= Rest(t, s, x.cursor).turns
    requires |x.files| == 0 && !Exhausted(s, x.cursor) ==> Rest(t, s, y.cursor).turns < Rest(t, s, x.cursor).turns
    requires x.cursor == c && Exhausted(s, c) ==> y.cursor == c
    ensures LeavesLess(t, s, hash, c, PageOf(s, y))
  {
    if !Complete(s, y.cursor) {
      NotComplete(t, s, y.cursor);
    }
  }

  lemma DueKept(t: Tree, s: Source, c: Cursor, x: Scan, y: Scan)
    requires x == Opening(s, c, x.turns) && Rest(t, s, x.cursor) == Rest(t, s, c)
    requires exists n :: Adds(x, Rest(t, s, x.cursor), y, Rest(t, s, y.cursor), n)
    requires y.cursor.activeEmitted
    ensures BringsHead(t, s, c, PageOf(s, y))
  {
    DueOpened(t, s, c, x);
    DueOfPage(t, s, y);
  }

  lemma DueOpened(t: Tree, s: Source, c: Cursor, x: Scan)
    requires x == Opening(s, c, x.turns)
    ensures Due(t, s, c).files == x.files + Rest(t, s, c).files
    ensures Due(t, s, c).issues == Codes(x.issues) + Rest(t, s, c).issues
  {
    assert Codes(x.issues) == [];
  }

  lemma DueOfPage(t: Tree, s: Source, y: Scan)
    requires y.cursor.activeEmitted
    ensures DueAfter(t, s, PageOf(s, y)) == Rest(t, s, y.cursor)
  {
    PlusAssociative(Rest(t, s, y.cursor), NOTHING, NOTHING);
  }

  lemma {:induction false} RestSame(t: Tree, s: Source, c: Cursor)
    ensures Rest(t, s, c.(activeEmitted := true)) == Rest(t, s, c)
    decreases |c.frames|
  {
    if c.frames != [] {
      RestSame(t, s, Popped(c));
      assert Popped(c.(activeEmitted := true)) == Popped(c).(activeEmitted := true);
    }
  }

  lemma NotComplete(t: Tree, s: Source, c: Cursor)
    requires !Exhausted(s, c)
    ensures Rest(t, s, c).turns > 0
  {
    if c.frames != [] {
      SomeTurns(t, s, Top(c).place, Top(c).position);
    } else {
      SomeTurns(t, s, Seeds(s)[c.seed], 0);
    }
  }

  lemma SomeTurns(t: Tree, s: Source, place: Place, i: nat)
    ensures Whole(t, s, place).turns > 0 && From(t, s, place, i).turns > 0
  {
    assert From(t, s, place, 0).turns > 0;
  }
}
