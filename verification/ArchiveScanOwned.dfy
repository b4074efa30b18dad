/** Whatever cursor a page is asked for with, and whatever the directories hold, it stays within its scope. */
module ArchiveScanOwned {
  import opened Options
  import opened ArchiveScan
  import opened ArchiveScanCursors

  /** The active session's file, or a transcript in the session's directory or in a directory right below a root of a scope
      that covers all sessions. */
  predicate Mine(s: Source, file: Path) {
    || Some(file) == s.sessionFile
    || (file != [] && |file[|file| - 1]| >= 6 && file[|file| - 1][|file[|file| - 1]| - 6..] == ".jsonl" && MyDirectory(s, file[..|file| - 1]))
  }

  predicate MyDirectory(s: Source, directory: Path) {
    || (s.sessionFile.Some? && directory == s.sessionDirectory)
    || (s.all && exists i :: 0 <= i < |s.roots| && s.roots[i] == Above(directory))
  }

  function Above(p: Path): Path {
    if p == [] then [] else p[..|p| - 1]
  }

  predicate MyPlace(s: Source, place: Place) {
    if place.kind.Collection? then s.all && exists i :: 0 <= i < |s.roots| && s.roots[i] == place.directory
    else MyDirectory(s, place.directory)
  }

  lemma OwnsMeaning(s: Source, place: Place)
    ensures OwnsDirectory(s, place) <==> MyPlace(s, place)
  {
    if place.directory in s.roots {
      var i :| 0 <= i < |s.roots| && s.roots[i] == place.directory;
    }
    if Parent(place.directory) in s.roots {
      var i :| 0 <= i < |s.roots| && s.roots[i] == Parent(place.directory);
    }
  }

  /** A cursor is taken only if it belongs to this scope, and every directory in it does. */
  lemma AcceptedIsMine(s: Source, c: Cursor)
    requires Accepts(s, c)
    ensures c.scopeKey == s.key && |c.frames| <= 2 && c.seed <= |Seeds(s)| && Shaped(s, c)
    ensures forall i :: 0 <= i < |c.frames| ==> MyPlace(s, c.frames[i].place)
  {
    forall i | 0 <= i < |c.frames| ensures MyPlace(s, c.frames[i].place) {
      assert AcceptsFrame(s, c.frames[i]);
      OwnsMeaning(s, c.frames[i].place);
    }
  }

  ghost predicate AllMine(s: Source, files: seq<Path>, issues: seq<Issue>) {
    && (forall i :: 0 <= i < |files| ==> Mine(s, files[i]))
    && (forall i :: 0 <= i < |issues| ==> IssueMine(s, issues[i]))
  }

  /** The issue is about a directory of the scope, and its cursor starts that directory over. */
  ghost predicate IssueMine(s: Source, issue: Issue) {
    RestartsAlone(s, issue) && MyPlace(s, issue.retryCursor.frames[0].place)
  }

  ghost predicate ScanMine(s: Source, x: Scan) {
    Shaped(s, x.cursor) && AllMine(s, x.files, x.issues)
  }

  lemma TranscriptMine(s: Source, place: Place, name: string)
    requires OwnsDirectory(s, place) && place.kind.Files? && Jsonl(name)
    ensures Mine(s, place.directory + [name])
  {
    OwnsMeaning(s, place);
    var file := place.directory + [name];
    assert file[..|file| - 1] == place.directory;
  }

  lemma TroubledMine(s: Source, x: Scan, code: Code, spent: bool)
    requires ScanMine(s, x) && x.cursor.frames != []
    ensures Troubled(x, code, spent).Go? ==> ScanMine(s, Troubled(x, code, spent).scan)
  {
    ToppedShaped(s, x.cursor, Top(x.cursor));
    RetryShaped(s, x.cursor, code);
    OwnsMeaning(s, Top(x.cursor).place);
  }

  lemma AdvancedMine(s: Source, x: Scan, entry: Entry, frame: Frame, reader: Reader)
    requires ScanMine(s, x) && x.cursor.frames != [] && frame.place == Top(x.cursor).place
    ensures ScanMine(s, Advanced(x, entry, frame, reader))
  {
    var place, c := Top(x.cursor).place, WithTop(x.cursor, frame);
    ToppedShaped(s, x.cursor, frame);
    if place.kind.Collection? {
      assert Top(c).place == place;
      PushedShaped(s, c, entry.name);
    } else if Jsonl(entry.name) {
      TranscriptMine(s, place, entry.name);
      OneMoreMine(s, x.files, x.issues, place.directory + [entry.name]);
    }
  }

  lemma OneMoreMine(s: Source, files: seq<Path>, issues: seq<Issue>, file: Path)
    requires AllMine(s, files, issues) && Mine(s, file)
    ensures AllMine(s, files + [file], issues)
  {
  }

  lemma LookSamePlace(a: Answers, hash: Hash, frame: Frame, reader: Option<Reader>, spare: bool)
    ensures var seen := Look(a, hash, frame, reader, spare);
      (seen.Short? || seen.AtEnd? || seen.Next?) ==> seen.frame.place == frame.place
  {
  }

  lemma TurnMine(s: Source, hash: Hash, disk: Disk, x: Scan)
    requires ScanMine(s, x) && x.budget > 0
    ensures var r := Turn(s, hash, disk, x); !r.Thrown? ==> ScanMine(s, r.scan)
  {
    if !Exhausted(s, x.cursor) {
      RefilledShaped(s, x.cursor);
      var y := Refill(s, x);
      var d := Top(y.cursor).place.directory;
      LookSamePlace(disk(d, Followed(s, d), x.turns), hash, Top(y.cursor), ReaderOf(y, d), y.budget > 0);
      SettleMine(s, y, LookAt(s, hash, disk, y, x.turns));
    }
  }

  lemma SettleMine(s: Source, x: Scan, seen: Seen)
    requires ScanMine(s, x) && x.cursor.frames != []
    requires (seen.Short? || seen.AtEnd? || seen.Next?) ==> seen.frame.place == Top(x.cursor).place
    ensures var r := Settle(x, seen); !r.Thrown? ==> ScanMine(s, r.scan)
  {
    match seen
    case Trouble(code, spent) => TroubledMine(s, x, code, spent);
    case Short(frame, reader) => ToppedShaped(s, x.cursor, frame);
    case AtEnd(frame, _) => ToppedShaped(s, x.cursor, frame);
    case Next(entry, frame, reader) => AdvancedMine(s, x, entry, frame, reader);
  }

  lemma {:induction false} RunMine(s: Source, hash: Hash, disk: Disk, x: Scan, limit: nat)
    requires ScanMine(s, x)
    ensures var r := Run(s, hash, disk, x, limit); r.Success? ==> ScanMine(s, r.value)
    decreases x.budget
  {
    if x.budget > 0 && |x.files| + |x.issues| < limit {
      TurnMine(s, hash, disk, x);
      if Turn(s, hash, disk, x).Go? {
        RunMine(s, hash, disk, Turn(s, hash, disk, x).scan, limit);
      }
    }
  }

  /** Whatever cursor is handed in and whatever the directories hold: a page brings in nothing outside its scope, and its
      cursors stay in it. */
  lemma PageMine(s: Source, hash: Hash, disk: Disk, encoded: Option<Cursor>, capacity: int, turns: nat)
    ensures var r := DiscoverPage(s, hash, disk, encoded, capacity, turns);
      r.Success? ==>
        AllMine(s, r.value.files, r.value.issues) && (r.value.cursor.Some? ==> Shaped(s, r.value.cursor.value))
  {
    if encoded.Some? && Accepts(s, encoded.value) {
      AcceptedIsMine(s, encoded.value);
    }
    var decoded := DecodeCursor(s, encoded);
    if 0 < capacity <= 10000 && decoded.Success? {
      RunMine(s, hash, disk, Opening(s, decoded.value, turns), Limit(capacity));
    }
  }

  /** What a page is refused for, and what asking for nothing gives. */
  lemma PageRefused(s: Source, hash: Hash, disk: Disk, encoded: Option<Cursor>, capacity: int, turns: nat)
    ensures var r := DiscoverPage(s, hash, disk, encoded, capacity, turns);
      && (capacity < 0 || capacity > 10000 ==> r == Failure(Invalid))
      && (encoded.Some? && encoded.value.scopeKey != s.key ==> r == Failure(Invalid))
      && (capacity == 0 && (encoded.None? || Accepts(s, encoded.value)) ==> r == Success(Page([], [], encoded, false)))
  {
  }

  // ---- What can fail ----

  /** The file system gave this code, or a directory was not what it had been. */
  ghost predicate Answered(a: Answers, code: Code) {
    || a.before == Failure(code) || a.opens == Some(code) || a.after == Failure(code) || code == Changing
    || exists i :: a.read(i) == Failure(code)
  }

  lemma {:induction false} ReplayAnswered(a: Answers, hash: Hash, r: Reader, until: nat)
    ensures var e := Replay(a, hash, r, until); e.Failure? ==> Answered(a, e.error)
    decreases until - r.position
  {
    if r.position < until && a.read(r.position).Success? && a.read(r.position).value.Some? {
      ReplayAnswered(a, hash, Advance(hash, r, a.read(r.position).value.value.name), until);
    }
  }

  lemma LookAnswered(a: Answers, hash: Hash, frame: Frame, reader: Option<Reader>, spare: bool)
    ensures var seen := Look(a, hash, frame, reader, spare); seen.Trouble? ==> Answered(a, seen.code)
  {
    if a.before.Success? {
      var (f, kept) := (Restamped(frame, a.before.value), Reused(frame, a.before.value, reader));
      ReplayAnswered(a, hash, if kept.Some? then kept.value else Reader(a.before.value, 0, Empty, []), f.position);
    }
  }

  /** A page of a taken cursor fails only if it is a retry, and then with what its one directory answered. */
  lemma {:induction false} RunThrows(s: Source, hash: Hash, disk: Disk, x: Scan, limit: nat) returns (place: Place, turn: nat)
    requires Run(s, hash, disk, x, limit).Failure?
    ensures x.cursor.retry && turn >= x.turns
    ensures Answered(disk(place.directory, Followed(s, place.directory), turn), Run(s, hash, disk, x, limit).error)
    decreases x.budget
  {
    if Turn(s, hash, disk, x).Go? {
      RetryStays(s, hash, disk, x);
      place, turn := RunThrows(s, hash, disk, Turn(s, hash, disk, x).scan, limit);
    } else {
      var y := Refill(s, x);
      place, turn := Top(y.cursor).place, x.turns;
      LookAnswered(disk(place.directory, Followed(s, place.directory), turn), hash, Top(y.cursor),
                   ReaderOf(y, place.directory), y.budget > 0);
    }
  }

  lemma RetryStays(s: Source, hash: Hash, disk: Disk, x: Scan)
    requires x.budget > 0 && Turn(s, hash, disk, x).Go?
    ensures Turn(s, hash, disk, x).scan.cursor.retry == x.cursor.retry && Turn(s, hash, disk, x).scan.turns >= x.turns
  {
  }

  // ---- How much a page does ----

  /** Seeds are looked at through links: the session's directory, and the roots of a scope that covers all sessions. */
  lemma FollowedMeaning(s: Source, directory: Path)
    ensures Followed(s, directory) <==>
      (s.sessionFile.Some? && directory == s.sessionDirectory) || (s.all && exists i :: 0 <= i < |s.roots| && s.roots[i] == directory)
  {
    var seeds, first := Seeds(s), if s.sessionFile.Some? then 1 else 0;
    if s.all {
      if i :| 0 <= i < |s.roots| && s.roots[i] == directory {
        assert seeds[first + i] == Place(directory, Collection);
      }
    }
    if s.sessionFile.Some? && directory == s.sessionDirectory {
      assert seeds[0] == Place(directory, Files);
    }
  }

  /** Every look takes one or two off the budget. */
  lemma TurnSpends(s: Source, hash: Hash, disk: Disk, x: Scan)
    requires x.budget > 0 && !Turn(s, hash, disk, x).Thrown?
    ensures var (r, y) := (Turn(s, hash, disk, x), Turn(s, hash, disk, x).scan);
      && (r.Go? ==> y.turns == x.turns + 1 && y.budget + 1 <= x.budget <= y.budget + 2)
      && (r.Halt? ==> if Exhausted(s, x.cursor) then y == x else y.budget == 0 && y.turns == x.turns + 1 && x.budget == 1)
  {
  }

  lemma {:induction false} RunSpends(s: Source, hash: Hash, disk: Disk, x: Scan, limit: nat)
    requires Run(s, hash, disk, x, limit).Success?
    ensures var y := Run(s, hash, disk, x, limit).value;
      && y.turns - x.turns <= x.budget - y.budget <= 2 * (y.turns - x.turns)
      && (y.budget == 0 || |y.files| + |y.issues| >= limit || Exhausted(s, y.cursor))
    decreases x.budget
  {
    if x.budget > 0 && |x.files| + |x.issues| < limit {
      TurnSpends(s, hash, disk, x);
      if Turn(s, hash, disk, x).Go? {
        RunSpends(s, hash, disk, Turn(s, hash, disk, x).scan, limit);
      }
    }
  }

  /** A page looks at directories no more than 256 times; unless it is full with what was asked for or with 256 items, or
      has come to the end, it does so at least 128 times. */
  lemma PageEffort(s: Source, hash: Hash, disk: Disk, c: Cursor, capacity: nat, turns: nat)
    requires 0 < capacity && Run(s, hash, disk, Opening(s, c, turns), Limit(capacity)).Success?
    ensures var y := Run(s, hash, disk, Opening(s, c, turns), Limit(capacity)).value;
      && y.turns - turns <= 256
      && (|y.files| + |y.issues| < capacity && |y.files| + |y.issues| < 256 && !Exhausted(s, y.cursor) ==> y.turns - turns >= 128)
  {
    RunSpends(s, hash, disk, Opening(s, c, turns), Limit(capacity));
  }
}
