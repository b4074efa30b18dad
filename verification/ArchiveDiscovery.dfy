/** Archive discovery as an object: it holds open directory readers while a page is made, and none between pages. */
module ArchiveDiscovery {
  import opened Options
  import S = ArchiveScan

  datatype Outcome = More | Stop | Failed(code: S.Code)

  ghost predicate Reports(turned: S.Turned, outcome: Outcome, scan: S.Scan) {
    match outcome
    case Failed(code) => turned == S.Thrown(code)
    case Stop => turned == S.Halt(scan)
    case More => turned == S.Go(scan)
  }

  class Discovery {
    const source: S.Source
    const hash: S.Hash
    var readers: map<S.Path, S.Reader>

    constructor (source: S.Source, hash: S.Hash)
      ensures this.source == source && this.hash == hash && readers == map[]
    {
      this.source, this.hash, readers := source, hash, map[];
    }

    /** Makes one page. Every reader is closed again, whatever happens. */
    method DiscoverPage(disk: S.Disk, encoded: Option<S.Cursor>, capacity: int, turns: nat) returns (r: Result<S.Page, S.Code>)
      requires readers == map[]
      modifies this`readers
      ensures r == S.DiscoverPage(source, hash, disk, encoded, capacity, turns)
      ensures readers == map[]
    {
      if capacity < 0 || capacity > 10000 {
        return Failure(S.Invalid);
      }
      var decoded := S.DecodeCursor(source, encoded);
      if decoded.Failure? {
        return Failure(decoded.error);
      }
      if capacity == 0 {
        return Success(S.Page([], [], encoded, false));
      }
      r := ScanPage(disk, decoded.value, S.Limit(capacity), turns);
    }

    /** Starts from the decoded cursor; the active session's file is reported first of all. */
    method ScanPage(disk: S.Disk, from: S.Cursor, limit: nat, turns: nat) returns (r: Result<S.Page, S.Code>)
      requires readers == map[]
      modifies this`readers
      ensures r == Paged(S.Run(source, hash, disk, S.Opening(source, from, turns), limit))
      ensures readers == map[]
    {
      var state, files := from, [];
      if !state.activeEmitted {
        state := state.(activeEmitted := true);
        if source.sessionFile.Some? {
          files := [source.sessionFile.value];
        }
      }
      ghost var opening := S.Opening(source, from, turns);
      assert opening == S.Scan(state, readers, files, [], S.ENTRY_BUDGET, turns);
      r := TakeTurns(disk, state, files, limit, turns, opening);
      readers := map[];
    }

    function Paged(scanned: Result<S.Scan, S.Code>): Result<S.Page, S.Code> {
      if scanned.Failure? then Failure(scanned.error) else Success(S.PageOf(source, scanned.value))
    }

    /** Takes turns until the page is full, the budget is spent, or nothing is left. */
    method TakeTurns(disk: S.Disk, from: S.Cursor, found: seq<S.Path>, limit: nat, turns: nat, ghost opening: S.Scan)
        returns (r: Result<S.Page, S.Code>)
      requires opening == S.Scan(from, readers, found, [], S.ENTRY_BUDGET, turns)
      modifies this`readers
      ensures r == Paged(S.Run(source, hash, disk, opening, limit))
    {
      var state, files, issues, budget, turn := from, found, [], S.ENTRY_BUDGET, turns;
      ghost var x := opening;
      while budget > 0 && |files| + |issues| < limit
        invariant x == S.Scan(state, readers, files, issues, budget, turn)
        invariant S.Run(source, hash, disk, opening, limit) == S.Run(source, hash, disk, x, limit)
        decreases budget
      {
        if S.Exhausted(source, state) {
          break;
        }
        var outcome;
        ghost var turned;
        ghost var y := S.Refill(source, x);
        state, budget, turn := S.Refilled(source, state), budget - 1, turn + 1;
        outcome, state, files, issues, budget, turned := TakeTurn(disk, state, files, issues, budget, turn, y);
        ghost var z := S.Scan(state, readers, files, issues, budget, turn);
        AfterTurn(source, hash, disk, x, limit, y, turned, outcome, z);
        if outcome.Failed? {
          return Failure(outcome.code);
        }
        if outcome.Stop? {
          return Success(MakePage(state, files, issues, z));
        }
        x := z;
      }
      RunStops(source, hash, disk, x, limit);
      return Success(MakePage(state, files, issues, x));
    }

    function MakePage(state: S.Cursor, files: seq<S.Path>, issues: seq<S.Issue>, ghost scanned: S.Scan): (page: S.Page)
      requires scanned.cursor == state && scanned.files == files && scanned.issues == issues
      ensures page == S.PageOf(source, scanned)
    {
      var complete := S.Complete(source, state);
      S.Page(files, issues, if complete then None else Some(state), complete)
    }

    /** One turn: looks at the directory on top and takes in what it saw. */
    method TakeTurn(disk: S.Disk, from: S.Cursor, found: seq<S.Path>, failed: seq<S.Issue>, left: nat, turn: nat, ghost y: S.Scan)
        returns (outcome: Outcome, state: S.Cursor, files: seq<S.Path>, issues: seq<S.Issue>, budget: nat,
                 ghost turned: S.Turned)
      requires turn > 0 && from.frames != [] && y == S.Scan(from, readers, found, failed, left, turn)
      modifies this`readers
      ensures turned == S.Settle(y, S.LookAt(source, hash, disk, y, turn - 1))
      ensures Reports(turned, outcome, S.Scan(state, readers, files, issues, budget, turn))
      ensures outcome.More? ==> budget <= left
    {
      var frame := S.Top(from);
      var directory := frame.place.directory;
      var reader := if directory in readers then Some(readers[directory]) else None;
      var seen := Visit(disk(directory, S.Followed(source, directory), turn - 1), frame, reader, left > 0);
      outcome, state, files, issues, budget, turned := TakeIn(from, found, failed, left, turn, seen);
    }

    /** Takes in what a look has seen: an issue, a file, a directory to go into, or the end of one. */
    method TakeIn(from: S.Cursor, found: seq<S.Path>, failed: seq<S.Issue>, left: nat, turn: nat, seen: S.Seen)
        returns (outcome: Outcome, state: S.Cursor, files: seq<S.Path>, issues: seq<S.Issue>, budget: nat,
                 ghost turned: S.Turned)
      requires from.frames != []
      modifies this`readers
      ensures turned == S.Settle(S.Scan(from, old(readers), found, failed, left, turn), seen)
      ensures Reports(turned, outcome, S.Scan(state, readers, files, issues, budget, turn))
    {
      var place := S.Top(from).place;
      turned := S.Settle(S.Scan(from, readers, found, failed, left, turn), seen);
      outcome, state, files, issues, budget := More, from, found, failed, left;
      match seen
      case Trouble(code, spent) =>
        readers := readers - {place.directory};
        if state.retry && |state.frames| == 1 {
          outcome := Failed(code);
        } else {
          budget := if spent then S.Less(budget) else budget;
          issues := issues + [S.Issue(place.directory, code, S.RetryCursor(state, place))];
          state := S.Popped(state);
        }
      case Short(frame, reader) =>
        readers := readers[place.directory := reader];
        state := S.WithTop(state, frame);
        outcome := Stop;
      case AtEnd(_, _) =>
        budget := S.Less(budget);
        readers := readers - {place.directory};
        state := S.Popped(state);
      case Next(entry, frame, reader) =>
        budget := S.Less(budget);
        readers := readers[place.directory := reader];
        state := S.WithTop(state, frame);
        var candidate := place.directory + [entry.name];
        if place.kind == S.Collection {
          if entry.directory {
            state := S.Pushed(state, S.Place(candidate, S.Files));
          }
        } else if S.Jsonl(entry.name) {
          files := files + [candidate];
        }
    }

    /** Looks at one directory: stamps it, opens or reuses a reader, reads up to the frame again, and one entry on. */
    method Visit(a: S.Answers, frame: S.Frame, reader: Option<S.Reader>, spare: bool) returns (seen: S.Seen)
      ensures seen == S.Look(a, hash, frame, reader, spare)
    {
      if a.before.Failure? {
        return S.Trouble(a.before.error, false);
      }
      var (stamp, current, kept) := (a.before.value, frame, reader);
      if frame.stamp != Some(stamp) {
        kept := None;
        current := S.Frame(frame.place, 0, Some(stamp), S.Empty);
      }
      if kept.Some? && (kept.value.stamp != stamp || kept.value.position > current.position) {
        kept := None;
      }
      if kept.None? && a.opens.Some? {
        return S.Trouble(a.opens.value, false);
      }
      var replayed := ReadAgain(a, if kept.Some? then kept.value else S.Reader(stamp, 0, S.Empty, []), current.position);
      if replayed.Failure? {
        return S.Trouble(replayed.error, false);
      }
      if replayed.value.prefix != current.prefix {
        return S.Trouble(S.Changing, false);
      }
      if !spare {
        return S.Short(current, replayed.value);
      }
      return S.ReadOn(a, hash, current, stamp, replayed.value);
    }

    method ReadAgain(a: S.Answers, r: S.Reader, until: nat) returns (e: Result<S.Reader, S.Code>)
      ensures e == S.Replay(a, hash, r, until)
    {
      var reader := r;
      while reader.position < until
        invariant S.Replay(a, hash, reader, until) == S.Replay(a, hash, r, until)
        decreases until - reader.position
      {
        var got := a.read(reader.position);
        if got.Failure? {
          return Failure(got.error);
        }
        if got.value.None? {
          return Failure(S.Changing);
        }
        reader := S.Advance(hash, reader, got.value.value.name);
      }
      return Success(reader);
    }
  }

  lemma TurnSettles(source: S.Source, hash: S.Hash, disk: S.Disk, x: S.Scan)
    requires x.budget > 0 && !S.Exhausted(source, x.cursor)
    ensures var y := S.Refill(source, x);
      S.Turn(source, hash, disk, x) == S.Settle(y, S.LookAt(source, hash, disk, y, x.turns))
  {
  }

  lemma RunStops(source: S.Source, hash: S.Hash, disk: S.Disk, x: S.Scan, limit: nat)
    requires x.budget == 0 || |x.files| + |x.issues| >= limit || S.Exhausted(source, x.cursor)
    ensures S.Run(source, hash, disk, x, limit) == Success(x)
  {
  }

  lemma AfterTurn(source: S.Source, hash: S.Hash, disk: S.Disk, x: S.Scan, limit: nat, y: S.Scan, turned: S.Turned,
                  outcome: Outcome, z: S.Scan)
    requires x.budget > 0 && |x.files| + |x.issues| < limit && !S.Exhausted(source, x.cursor) && y == S.Refill(source, x)
    requires turned == S.Settle(y, S.LookAt(source, hash, disk, y, x.turns)) && Reports(turned, outcome, z)
    ensures S.Run(source, hash, disk, x, limit)
      == (match outcome
          case Failed(code) => Failure(code)
          case Stop => Success(z)
          case More => S.Run(source, hash, disk, z, limit))
  {
    TurnSettles(source, hash, disk, x);
  }
}
