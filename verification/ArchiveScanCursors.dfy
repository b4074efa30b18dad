/** Which cursors can be handed back: all of them, whatever the directories do meanwhile, as long as paths and listings
    are of bounded size and no directory was last changed before 1970. */
module ArchiveScanCursors {
  import opened Options
  import opened ArchiveScan

  // ---- Shape ----

  /** The frames are a directory the scope owns, or a collection and a directory in it. */
  ghost predicate Shaped(s: Source, c: Cursor) {
    && c.scopeKey == s.key && c.seed <= |Seeds(s)| && |c.frames| <= 2
    && (forall i :: 0 <= i < |c.frames| ==> OwnsDirectory(s, c.frames[i].place))
    && (|c.frames| == 2 ==> c.frames[0].place.kind == Collection && c.frames[1].place.kind == Files
                            && Parent(c.frames[1].place.directory) == c.frames[0].place.directory)
  }

  /** A retry starts the failed directory over, and nothing else. */
  ghost predicate RestartsAlone(s: Source, issue: Issue) {
    && Shaped(s, issue.retryCursor) && issue.retryCursor.retry && issue.retryCursor.activeEmitted
    && |issue.retryCursor.frames| == 1 && issue.retryCursor.frames[0] == Start(issue.retryCursor.frames[0].place)
    && issue.retryCursor.frames[0].place.directory == issue.directory
  }

  lemma SeedOwned(s: Source, i: nat)
    requires i < |Seeds(s)|
    ensures OwnsDirectory(s, Seeds(s)[i])
  {
  }

  lemma RefilledShaped(s: Source, c: Cursor)
    requires Shaped(s, c) && !Exhausted(s, c)
    ensures Shaped(s, Refilled(s, c))
  {
    if c.frames == [] {
      SeedOwned(s, c.seed);
    }
  }

  lemma ToppedShaped(s: Source, c: Cursor, frame: Frame)
    requires Shaped(s, c) && c.frames != [] && frame.place == Top(c).place
    ensures Shaped(s, WithTop(c, frame)) && Shaped(s, Popped(c))
  {
  }

  lemma PushedShaped(s: Source, c: Cursor, name: string)
    requires Shaped(s, c) && c.frames != [] && Top(c).place.kind == Collection
    ensures Shaped(s, Pushed(c, Place(Top(c).place.directory + [name], Files)))
    ensures |c.frames| == 1 && Top(c).place.directory in s.roots
  {
    assert Parent(Top(c).place.directory + [name]) == Top(c).place.directory;
  }

  lemma RetryShaped(s: Source, c: Cursor, code: Code)
    requires Shaped(s, c) && c.frames != []
    ensures RestartsAlone(s, Issue(Top(c).place.directory, code, RetryCursor(c, Top(c).place)))
  {
  }

  // ---- Sizes ----

  function PowerOfTen(k: nat): nat {
    if k == 0 then 1 else 10 * PowerOfTen(k - 1)
  }

  lemma Powers()
    ensures PowerOfTen(16) == 10_000_000_000_000_000 && PowerOfTen(19) == 10_000_000_000_000_000_000
  {
    assert PowerOfTen(4) == 10_000;
    assert PowerOfTen(8) == 100_000_000;
    assert PowerOfTen(12) == 1_000_000_000_000;
    assert PowerOfTen(16) == 10_000_000_000_000_000;
  }

  lemma {:induction false} DigitsAtMost(n: nat, k: nat)
    requires n < PowerOfTen(k + 1)
    ensures Digits(n) <= k + 1
    decreases k
  {
    if k > 0 && n >= 10 {
      DigitsAtMost(n / 10, k - 1);
    }
  }

  ghost predicate Word(n: int) {
    -0x8000_0000_0000_0000 <= n < 0x8000_0000_0000_0000
  }

  lemma WordDigits(n: int)
    requires Word(n)
    ensures Digits(n) <= 20
  {
    Powers();
    DigitsAtMost(if n >= 0 then n else -n, 18);
  }

  lemma SafeDigits(n: nat)
    requires n <= MAX_SAFE_INTEGER
    ensures Digits(n) <= 16
  {
    Powers();
    DigitsAtMost(n, 15);
  }

  const MAX_QUOTED_PATH: nat := 15_900

  ghost predicate ShortPath(p: Path) {
    QuotedPath(p) <= MAX_QUOTED_PATH
  }

  /** The four numbers of a stamp fit in 64 bits. */
  ghost predicate WordStamp(stamp: Stamp) {
    Word(stamp.dev) && Word(stamp.ino) && Word(stamp.mtimeNs) && Word(stamp.ctimeNs)
  }

  ghost predicate Sized(f: Frame) {
    && ShortPath(f.place.directory) && f.position <= MAX_SAFE_INTEGER && (f.stamp.Some? ==> WordStamp(f.stamp.value))
  }

  ghost predicate SizedCursor(c: Cursor) {
    forall i :: 0 <= i < |c.frames| ==> Sized(c.frames[i])
  }

  ghost predicate PlainCursor(c: Cursor) {
    forall i :: 0 <= i < |c.frames| ==> Plain(c.frames[i].stamp)
  }

  lemma StampSize(stamp: Option<Stamp>)
    requires stamp.Some? ==> WordStamp(stamp.value)
    ensures StampBytes(stamp) <= 85
  {
    if stamp.Some? {
      WordDigits(stamp.value.dev);
      WordDigits(stamp.value.ino);
      WordDigits(stamp.value.mtimeNs);
      WordDigits(stamp.value.ctimeNs);
    }
  }

  lemma FrameSize(f: Frame)
    requires Sized(f)
    ensures FrameBytes(f) <= MAX_QUOTED_PATH + 300
  {
    SafeDigits(f.position);
    StampSize(f.stamp);
  }

  lemma {:induction false} FramesSize(frames: seq<Frame>)
    requires forall i :: 0 <= i < |frames| ==> Sized(frames[i])
    ensures FramesBytes(frames) <= |frames| * (MAX_QUOTED_PATH + 301)
    decreases |frames|
  {
    if frames != [] {
      FrameSize(frames[0]);
      FramesSize(frames[1..]);
    }
  }

  lemma CursorSize(c: Cursor)
    requires |c.frames| <= 2 && c.seed <= MAX_SAFE_INTEGER && SizedCursor(c)
    ensures CursorBytes(c) <= MAX_CURSOR_BYTES
  {
    SafeDigits(c.seed);
    FramesSize(c.frames);
  }

  /** With its sizes in bounds, a cursor of the right shape is refused for a minus sign in a stamp only. */
  lemma SizedAccepted(s: Source, c: Cursor)
    requires Shaped(s, c) && SizedCursor(c) && |Seeds(s)| <= MAX_SAFE_INTEGER
    ensures Accepts(s, c) <==> PlainCursor(c)
  {
    CursorSize(c);
  }

  // ---- File systems ----

  /** Stamps of 64-bit numbers, and listings whose positions are safe integers. */
  ghost predicate SizedAnswers(a: Answers) {
    && (a.before.Success? ==> WordStamp(a.before.value))
    && (forall i :: 0 <= i && a.read(i).Success? && a.read(i).value.Some? ==> i < MAX_SAFE_INTEGER)
  }

  ghost predicate ShortNames(a: Answers, directory: Path) {
    forall i :: 0 <= i && a.read(i).Success? && a.read(i).value.Some? && a.read(i).value.value.directory ==>
      ShortPath(directory + [a.read(i).value.value.name])
  }

  /** Whenever it is asked, the file system answers within bounds; so are the paths of the seeds and of the directories
      their listings ever hold. */
  ghost predicate Bounded(s: Source, disk: Disk) {
    && |Seeds(s)| <= MAX_SAFE_INTEGER
    && (forall i :: 0 <= i < |Seeds(s)| ==> ShortPath(Seeds(s)[i].directory))
    && (forall p: Path, follow: bool, turn: nat :: SizedAnswers(disk(p, follow, turn)))
    && (forall p: Path, follow: bool, turn: nat :: p in s.roots ==> ShortNames(disk(p, follow, turn), p))
  }

  /** No directory was last changed before 1970. */
  ghost predicate PlainDisk(disk: Disk) {
    forall p: Path, follow: bool, turn: nat ::
      disk(p, follow, turn).before.Success? ==> Plain(Some(disk(p, follow, turn).before.value))
  }

  /** What a look makes of its frame: the stamp is the one just seen, and an entry was read at its position. */
  ghost predicate Stamped(a: Answers, frame: Frame, seen: Seen) {
    match seen
    case Trouble(_, _) => true
    case Short(g, _) => a.before.Success? && g == Restamped(frame, a.before.value)
    case AtEnd(_, _) => true
    case Next(e, g, _) =>
      && a.before.Success? && g.place == frame.place && g.stamp == Some(a.before.value)
      && g.position > 0 && a.read(g.position - 1) == Success(Some(e))
  }

  lemma {:induction false} ReplayReaches(a: Answers, hash: Hash, r: Reader, until: nat)
    requires r.position <= until
    ensures var e := Replay(a, hash, r, until); e.Success? ==> e.value.position == until
    decreases until - r.position
  {
    if r.position < until && a.read(r.position).Success? && a.read(r.position).value.Some? {
      ReplayReaches(a, hash, Advance(hash, r, a.read(r.position).value.value.name), until);
    }
  }

  lemma LookStamped(a: Answers, hash: Hash, frame: Frame, reader: Option<Reader>, spare: bool)
    ensures Stamped(a, frame, Look(a, hash, frame, reader, spare))
  {
    if a.before.Success? {
      var kept := Reused(frame, a.before.value, reader);
      ReplayReaches(a, hash, if kept.Some? then kept.value else Reader(a.before.value, 0, Empty, []),
                    Restamped(frame, a.before.value).position);
    }
  }

  // ---- Turns ----

  ghost predicate Good(s: Source, c: Cursor) {
    Shaped(s, c) && SizedCursor(c)
  }

  ghost predicate GoodIssues(s: Source, issues: seq<Issue>) {
    forall i :: 0 <= i < |issues| ==> RestartsAlone(s, issues[i]) && SizedCursor(issues[i].retryCursor)
  }

  lemma RefilledGood(s: Source, disk: Disk, c: Cursor)
    requires Good(s, c) && Bounded(s, disk) && !Exhausted(s, c)
    ensures Good(s, Refilled(s, c)) && (PlainCursor(c) ==> PlainCursor(Refilled(s, c)))
  {
    RefilledShaped(s, c);
  }

  lemma TroubledGood(s: Source, x: Scan, code: Code, spent: bool)
    requires Good(s, x.cursor) && x.cursor.frames != [] && GoodIssues(s, x.issues)
    ensures var turned := Troubled(x, code, spent);
      turned.Go? ==> Good(s, turned.scan.cursor) && GoodIssues(s, turned.scan.issues)
                     && (PlainCursor(x.cursor) ==> PlainCursor(turned.scan.cursor))
  {
    ToppedShaped(s, x.cursor, Top(x.cursor));
    RetryShaped(s, x.cursor, code);
    assert Sized(Top(x.cursor));
  }

  lemma StoppedGood(s: Source, x: Scan, g: Frame, reader: Reader)
    requires Good(s, x.cursor) && x.cursor.frames != [] && g.place == Top(x.cursor).place && Sized(g)
    ensures Good(s, Stopped(x, g, reader).cursor)
    ensures PlainCursor(x.cursor) && Plain(g.stamp) ==> PlainCursor(Stopped(x, g, reader).cursor)
  {
    ToppedShaped(s, x.cursor, g);
  }

  lemma EndedGood(s: Source, x: Scan)
    requires Good(s, x.cursor) && x.cursor.frames != []
    ensures Good(s, Ended(x).cursor) && (PlainCursor(x.cursor) ==> PlainCursor(Ended(x).cursor))
  {
    ToppedShaped(s, x.cursor, Top(x.cursor));
  }

  lemma AdvancedGood(s: Source, x: Scan, e: Entry, g: Frame, reader: Reader)
    requires Good(s, x.cursor) && x.cursor.frames != [] && g.place == Top(x.cursor).place && Sized(g)
    requires e.directory && g.place.directory in s.roots ==> ShortPath(g.place.directory + [e.name])
    ensures Good(s, Advanced(x, e, g, reader).cursor) && Advanced(x, e, g, reader).issues == x.issues
    ensures PlainCursor(x.cursor) && Plain(g.stamp) ==> PlainCursor(Advanced(x, e, g, reader).cursor)
  {
    ToppedShaped(s, x.cursor, g);
    if g.place.kind == Collection {
      PushedShaped(s, WithTop(x.cursor, g), e.name);
    }
  }

  /** A frame that has looked at a bounded file system stays within bounds. */
  lemma StampedSized(s: Source, disk: Disk, frame: Frame, seen: Seen, turn: nat)
    requires Bounded(s, disk) && Sized(frame)
    requires Stamped(disk(frame.place.directory, Followed(s, frame.place.directory), turn), frame, seen)
    ensures seen.Short? || seen.Next? ==> seen.frame.place == frame.place && Sized(seen.frame)
    ensures (seen.Short? || seen.Next?) && PlainDisk(disk) ==> Plain(seen.frame.stamp)
    ensures seen.Next? && seen.entry.directory && frame.place.directory in s.roots ==>
      ShortPath(frame.place.directory + [seen.entry.name])
  {
    var p := frame.place.directory;
    var a := disk(p, Followed(s, p), turn);
    assert SizedAnswers(a);
    if seen.Next? {
      assert a.read(seen.frame.position - 1) == Success(Some(seen.entry));
      assert p in s.roots ==> ShortNames(a, p);
    }
  }

  ghost predicate GoodTurned(s: Source, disk: Disk, x: Scan, turned: Turned) {
    turned.Thrown?
    || (Good(s, turned.scan.cursor) && GoodIssues(s, turned.scan.issues)
        && (PlainDisk(disk) && PlainCursor(x.cursor) ==> PlainCursor(turned.scan.cursor)))
  }

  lemma SettleGood(s: Source, disk: Disk, x: Scan, seen: Seen, turn: nat)
    requires Good(s, x.cursor) && x.cursor.frames != [] && GoodIssues(s, x.issues) && Bounded(s, disk)
    requires var p := Top(x.cursor).place.directory; Stamped(disk(p, Followed(s, p), turn), Top(x.cursor), seen)
    ensures GoodTurned(s, disk, x, Settle(x, seen))
  {
    assert Sized(Top(x.cursor));
    StampedSized(s, disk, Top(x.cursor), seen, turn);
    match seen
    case Trouble(code, spent) => TroubledGood(s, x, code, spent);
    case Short(g, r) => StoppedGood(s, x, g, r);
    case AtEnd(_, _) => EndedGood(s, x);
    case Next(e, g, r) => AdvancedGood(s, x, e, g, r);
  }

  lemma TurnGood(s: Source, hash: Hash, disk: Disk, x: Scan)
    requires Good(s, x.cursor) && GoodIssues(s, x.issues) && Bounded(s, disk) && x.budget > 0
    ensures GoodTurned(s, disk, x, Turn(s, hash, disk, x))
  {
    if !Exhausted(s, x.cursor) {
      var y := Refill(s, x);
      var p := Top(y.cursor).place.directory;
      RefilledGood(s, disk, x.cursor);
      LookStamped(disk(p, Followed(s, p), x.turns), hash, Top(y.cursor), ReaderOf(y, p), y.budget > 0);
      SettleGood(s, disk, y, LookAt(s, hash, disk, y, x.turns), x.turns);
    }
  }

  lemma {:induction false} RunGood(s: Source, hash: Hash, disk: Disk, x: Scan, limit: nat)
    requires Good(s, x.cursor) && GoodIssues(s, x.issues) && Bounded(s, disk)
    ensures var r := Run(s, hash, disk, x, limit);
      r.Success? ==> Good(s, r.value.cursor) && GoodIssues(s, r.value.issues)
                     && (PlainDisk(disk) && PlainCursor(x.cursor) ==> PlainCursor(r.value.cursor))
    decreases x.budget
  {
    if x.budget != 0 && |x.files| + |x.issues| < limit {
      TurnGood(s, hash, disk, x);
      var turned := Turn(s, hash, disk, x);
      if turned.Go? {
        RunGood(s, hash, disk, turned.scan, limit);
      }
    }
  }

  /** A page from a good cursor gives good cursors, and good ones only. */
  ghost predicate GoodPage(s: Source, disk: Disk, plain: bool, page: Page) {
    && (page.cursor.Some? ==>
          Good(s, page.cursor.value) && (Accepts(s, page.cursor.value) <==> PlainCursor(page.cursor.value))
          && (PlainDisk(disk) && plain ==> PlainCursor(page.cursor.value)))
    && (forall i :: 0 <= i < |page.issues| ==>
          RestartsAlone(s, page.issues[i]) && Good(s, page.issues[i].retryCursor)
          && Accepts(s, page.issues[i].retryCursor))
  }

  lemma PageGood(s: Source, hash: Hash, disk: Disk, encoded: Option<Cursor>, capacity: nat, turns: nat)
    requires capacity > 0 && Bounded(s, disk) && DiscoverPage(s, hash, disk, encoded, capacity, turns).Success?
    requires Good(s, DecodeCursor(s, encoded).value)
    ensures GoodPage(s, disk, PlainCursor(DecodeCursor(s, encoded).value),
                     DiscoverPage(s, hash, disk, encoded, capacity, turns).value)
  {
    var c := DecodeCursor(s, encoded).value;
    var x := Opening(s, c, turns);
    RunGood(s, hash, disk, x, Limit(capacity));
    ScanAccepted(s, disk, PlainCursor(c), Run(s, hash, disk, x, Limit(capacity)).value);
  }

  lemma ScanAccepted(s: Source, disk: Disk, plain: bool, y: Scan)
    requires Good(s, y.cursor) && GoodIssues(s, y.issues) && Bounded(s, disk)
    requires PlainDisk(disk) && plain ==> PlainCursor(y.cursor)
    ensures GoodPage(s, disk, plain, PageOf(s, y))
  {
    SizedAccepted(s, y.cursor);
    forall i | 0 <= i < |y.issues|
      ensures RestartsAlone(s, y.issues[i]) && Good(s, y.issues[i].retryCursor) && Accepts(s, y.issues[i].retryCursor)
    {
      SizedAccepted(s, y.issues[i].retryCursor);
    }
  }

  // ---- Capacity ----

  lemma {:induction false} RunWithin(s: Source, hash: Hash, disk: Disk, x: Scan, limit: nat)
    requires |x.files| + |x.issues| <= limit
    ensures var r := Run(s, hash, disk, x, limit); r.Success? ==> |r.value.files| + |r.value.issues| <= limit
    decreases x.budget
  {
    if x.budget != 0 && |x.files| + |x.issues| < limit {
      OneItem(s, hash, disk, x);
      var turned := Turn(s, hash, disk, x);
      if turned.Go? {
        RunWithin(s, hash, disk, turned.scan, limit);
      }
    }
  }

  lemma SettleOneItem(x: Scan, seen: Seen)
    requires x.cursor.frames != []
    ensures var turned := Settle(x, seen);
      turned.Thrown? || |turned.scan.files| + |turned.scan.issues| <= |x.files| + |x.issues| + 1
  {
  }

  lemma OneItem(s: Source, hash: Hash, disk: Disk, x: Scan)
    requires x.budget > 0
    ensures var turned := Turn(s, hash, disk, x);
      turned.Thrown? || |turned.scan.files| + |turned.scan.issues| <= |x.files| + |x.issues| + 1
  {
    if !Exhausted(s, x.cursor) {
      SettleOneItem(Refill(s, x), LookAt(s, hash, disk, Refill(s, x), x.turns));
    }
  }

  /** A page never brings in more than it was asked for. */
  lemma PageWithinCapacity(s: Source, hash: Hash, disk: Disk, encoded: Option<Cursor>, capacity: int, turns: nat)
    ensures var r := DiscoverPage(s, hash, disk, encoded, capacity, turns);
      r.Success? ==> |r.value.files| + |r.value.issues| <= capacity && |r.value.files| + |r.value.issues| <= PAGE_CAPACITY
  {
    if 0 < capacity <= 10000 && DecodeCursor(s, encoded).Success? {
      RunWithin(s, hash, disk, Opening(s, DecodeCursor(s, encoded).value, turns), Limit(capacity));
    }
  }
}
