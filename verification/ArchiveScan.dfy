/** One page of archive discovery: a scan of session directories that stops anywhere and resumes from a cursor. */
module ArchiveScan {
  import opened Options

  /** An absolute path as its components. */
  type Path = seq<string>

  datatype Kind = Collection | Files
  datatype Place = Place(directory: Path, kind: Kind)

  /** The local scope a scan may look at; `key` is the digest of the rest. */
  datatype Source = Source(key: nat, all: bool, sessionFile: Option<Path>, sessionDirectory: Path, roots: seq<Path>)

  datatype Code = Missing | Changing | Invalid | Unreadable
  datatype Stamp = Stamp(dev: int, ino: int, mtimeNs: int, ctimeNs: int)
  datatype Prefix = Empty | Digest(value: nat)
  type Hash = (Prefix, string) -> nat

  datatype Frame = Frame(place: Place, position: nat, stamp: Option<Stamp>, prefix: Prefix)
  datatype Cursor = Cursor(scopeKey: nat, seed: nat, activeEmitted: bool, retry: bool, frames: seq<Frame>)
  datatype Issue = Issue(directory: Path, code: Code, retryCursor: Cursor)
  datatype Page = Page(files: seq<Path>, issues: seq<Issue>, cursor: Option<Cursor>, complete: bool)

  /** `names` is all the handle has read; the rest of a reader is what the scanner keeps of it. */
  datatype Reader = Reader(stamp: Stamp, position: nat, prefix: Prefix, names: seq<string>)

  datatype Entry = Entry(name: string, directory: bool)

  /** What the file system answers in one turn about one directory; `read` is given the entry's position. */
  datatype Answers = Answers(before: Result<Stamp, Code>, opens: Option<Code>,
                             read: nat -> Result<Option<Entry>, Code>, after: Result<Stamp, Code>)

  /** Answers depend on the directory, on whether links are followed, and on the turn: directories may change. */
  type Disk = (Path, bool, nat) -> Answers

  const ENTRY_BUDGET: nat := 256
  const PAGE_CAPACITY: nat := 256

  // ---- Places ----

  function Parent(p: Path): Path {
    if p == [] then [] else p[..|p| - 1]
  }

  predicate Jsonl(name: string) {
    |name| >= 6 && name[|name| - 6..] == ".jsonl"
  }

  function Seeds(s: Source): seq<Place> {
    (if s.sessionFile.Some? then [Place(s.sessionDirectory, Files)] else [])
    + (if s.all then seq(|s.roots|, i requires 0 <= i < |s.roots| => Place(s.roots[i], Collection)) else [])
  }

  predicate OwnsDirectory(s: Source, place: Place) {
    if place.kind == Collection then s.all && place.directory in s.roots
    else (s.sessionFile.Some? && place.directory == s.sessionDirectory) || (s.all && Parent(place.directory) in s.roots)
  }

  predicate OwnsFile(s: Source, file: Path) {
    || Some(file) == s.sessionFile
    || (file != [] && Jsonl(file[|file| - 1]) && OwnsDirectory(s, Place(Parent(file), Files)))
  }

  /** Seeds are stamped through links, directories found on the way are not. */
  predicate Followed(s: Source, directory: Path) {
    Place(directory, Files) in Seeds(s) || Place(directory, Collection) in Seeds(s)
  }

  function Start(place: Place): Frame {
    Frame(place, 0, None, Empty)
  }

  // ---- Looking at one directory ----

  function Advance(hash: Hash, r: Reader, name: string): Reader {
    Reader(r.stamp, r.position + 1, Digest(hash(r.prefix, name)), r.names + [name])
  }

  /** Reads again up to a position; the directory must still be that long. */
  function Replay(a: Answers, hash: Hash, r: Reader, until: nat): (e: Result<Reader, Code>)
    decreases until - r.position
  {
    if r.position >= until then Success(r)
    else
      match a.read(r.position)
      case Failure(code) => Failure(code)
      case Success(None) => Failure(Changing)
      case Success(Some(entry)) => Replay(a, hash, Advance(hash, r, entry.name), until)
  }

  /** The frame starts over when the directory's stamp is not the recorded one. */
  function Restamped(frame: Frame, stamp: Stamp): Frame {
    if frame.stamp == Some(stamp) then frame else Frame(frame.place, 0, Some(stamp), Empty)
  }

  /** An open reader is used further only under the same stamp and not past the frame. */
  function Reused(frame: Frame, stamp: Stamp, reader: Option<Reader>): Option<Reader> {
    if reader.Some? && frame.stamp == Some(stamp) && reader.value.stamp == stamp && reader.value.position <= frame.position
    then reader else None
  }

  /** `spent` says that the trouble came after the entry's part of the budget was taken. */
  datatype Seen =
    | Trouble(code: Code, spent: bool)
    | Short(frame: Frame, reader: Reader)
    | AtEnd(frame: Frame, reader: Reader)
    | Next(entry: Entry, frame: Frame, reader: Reader)

  function Look(a: Answers, hash: Hash, frame: Frame, reader: Option<Reader>, spare: bool): Seen {
    if a.before.Failure? then Trouble(a.before.error, false)
    else
      var stamp := a.before.value;
      var f, kept := Restamped(frame, stamp), Reused(frame, stamp, reader);
      if kept.None? && a.opens.Some? then Trouble(a.opens.value, false)
      else
        var replayed := Replay(a, hash, if kept.Some? then kept.value else Reader(stamp, 0, Empty, []), f.position);
        if replayed.Failure? then Trouble(replayed.error, false)
        else if replayed.value.prefix != f.prefix then Trouble(Changing, false)
        else if !spare then Short(f, replayed.value)
        else ReadOn(a, hash, f, stamp, replayed.value)
  }

  /** Reads one entry more; at the end the stamp must be what it was. */
  function ReadOn(a: Answers, hash: Hash, f: Frame, stamp: Stamp, reader: Reader): Seen {
    match a.read(reader.position)
    case Failure(code) => Trouble(code, true)
    case Success(None) =>
      if a.after.Failure? then Trouble(a.after.error, true)
      else if a.after.value != stamp then Trouble(Changing, true)
      else AtEnd(f, reader)
    case Success(Some(entry)) =>
      var n := Advance(hash, reader, entry.name);
      Next(entry, f.(position := n.position, prefix := n.prefix), n)
  }

  // ---- One turn of a page ----

  datatype Scan = Scan(cursor: Cursor, readers: map<Path, Reader>, files: seq<Path>, issues: seq<Issue>,
                       budget: nat, turns: nat)

  datatype Turned = Go(scan: Scan) | Halt(scan: Scan) | Thrown(code: Code)

  function Top(c: Cursor): Frame
    requires c.frames != []
  {
    c.frames[|c.frames| - 1]
  }

  function Popped(c: Cursor): Cursor
    requires c.frames != []
  {
    c.(frames := c.frames[..|c.frames| - 1])
  }

  function WithTop(c: Cursor, frame: Frame): Cursor
    requires c.frames != []
  {
    c.(frames := c.frames[|c.frames| - 1 := frame])
  }

  function Pushed(c: Cursor, place: Place): Cursor {
    c.(frames := c.frames + [Start(place)])
  }

  function ReaderOf(x: Scan, directory: Path): Option<Reader> {
    if directory in x.readers then Some(x.readers[directory]) else None
  }

  predicate Exhausted(s: Source, c: Cursor) {
    c.frames == [] && (c.retry || c.seed >= |Seeds(s)|)
  }

  /** With nothing left to look at, the next seed is taken up. */
  function Refilled(s: Source, c: Cursor): Cursor
    requires !Exhausted(s, c)
  {
    if c.frames == [] then Pushed(c.(seed := c.seed + 1), Seeds(s)[c.seed]) else c
  }

  /** A found entry is a file to report, a directory to go into, or nothing. */
  function Entered(x: Scan, place: Place, entry: Entry): Scan {
    var candidate := place.directory + [entry.name];
    if place.kind == Collection then
      if entry.directory then x.(cursor := Pushed(x.cursor, Place(candidate, Files))) else x
    else if Jsonl(entry.name) then x.(files := x.files + [candidate]) else x
  }

  function RetryCursor(c: Cursor, place: Place): Cursor {
    c.(activeEmitted := true, retry := true, frames := [Start(place)])
  }

  function Less(budget: nat): nat {
    if budget == 0 then 0 else budget - 1
  }

  /** An unreadable directory becomes an issue with its own cursor; only the one a retry is about fails the page. */
  function Troubled(x: Scan, code: Code, spent: bool): Turned
    requires x.cursor.frames != []
  {
    var place := Top(x.cursor).place;
    if x.cursor.retry && |x.cursor.frames| == 1 then Thrown(code)
    else Go(x.(cursor := Popped(x.cursor), readers := x.readers - {place.directory},
               budget := if spent then Less(x.budget) else x.budget,
               issues := x.issues + [Issue(place.directory, code, RetryCursor(x.cursor, place))]))
  }

  function Stopped(x: Scan, frame: Frame, reader: Reader): Scan
    requires x.cursor.frames != []
  {
    x.(cursor := WithTop(x.cursor, frame), readers := x.readers[Top(x.cursor).place.directory := reader])
  }

  function Ended(x: Scan): Scan
    requires x.cursor.frames != []
  {
    x.(cursor := Popped(x.cursor), readers := x.readers - {Top(x.cursor).place.directory}, budget := Less(x.budget))
  }

  function Advanced(x: Scan, entry: Entry, frame: Frame, reader: Reader): Scan
    requires x.cursor.frames != []
  {
    Entered(x.(cursor := WithTop(x.cursor, frame), readers := x.readers[Top(x.cursor).place.directory := reader],
               budget := Less(x.budget)), Top(x.cursor).place, entry)
  }

  function Settle(x: Scan, seen: Seen): (r: Turned)
    requires x.cursor.frames != []
    ensures r.Go? ==> r.scan.budget <= x.budget
  {
    match seen
    case Trouble(code, spent) => Troubled(x, code, spent)
    case Short(frame, reader) => Halt(Stopped(x, frame, reader))
    case AtEnd(_, _) => Go(Ended(x))
    case Next(entry, frame, reader) => Go(Advanced(x, entry, frame, reader))
  }

  /** A turn takes one off the budget, and with nothing left to look at takes up a seed. */
  function Refill(s: Source, x: Scan): (y: Scan)
    requires x.budget > 0 && !Exhausted(s, x.cursor)
    ensures y.cursor.frames != []
  {
    x.(cursor := Refilled(s, x.cursor), budget := x.budget - 1, turns := x.turns + 1)
  }

  function LookAt(s: Source, hash: Hash, disk: Disk, x: Scan, turn: nat): Seen
    requires x.cursor.frames != []
  {
    var directory := Top(x.cursor).place.directory;
    Look(disk(directory, Followed(s, directory), turn), hash, Top(x.cursor), ReaderOf(x, directory), x.budget > 0)
  }

  function Turn(s: Source, hash: Hash, disk: Disk, x: Scan): (r: Turned)
    requires x.budget > 0
    ensures r.Go? ==> r.scan.budget < x.budget
  {
    if Exhausted(s, x.cursor) then Halt(x) else Settle(Refill(s, x), LookAt(s, hash, disk, Refill(s, x), x.turns))
  }

  function Run(s: Source, hash: Hash, disk: Disk, x: Scan, limit: nat): Result<Scan, Code>
    decreases x.budget
  {
    if x.budget == 0 || |x.files| + |x.issues| >= limit then Success(x)
    else
      match Turn(s, hash, disk, x)
      case Go(y) => Run(s, hash, disk, y, limit)
      case Halt(y) => Success(y)
      case Thrown(code) => Failure(code)
  }

  // ---- Cursors ----

  const MAX_SAFE_INTEGER: nat := 9007199254740991
  const MAX_CURSOR_BYTES: nat := 32768

  function Digits(n: int): nat
    decreases if n < 0 then 1 - n else n
  {
    if n < 0 then 1 + Digits(-n) else if n < 10 then 1 else 1 + Digits(n / 10)
  }

  /** Bytes of a character inside JSON text in UTF-8. */
  function QuotedChar(c: char): nat {
    if c == '\"' || c == '\\' || c == '\n' || c == '\r' || c == '\t' || c as int in {8, 12} then 2
    else if (c as int) < 0x20 then 6
    else if (c as int) < 0x80 then 1
    else if (c as int) < 0x800 then 2
    else if (c as int) < 0x10000 then 3
    else 4
  }

  function QuotedName(name: string): nat {
    if name == "" then 0 else QuotedChar(name[0]) + QuotedName(name[1..])
  }

  function QuotedComponents(p: Path): nat {
    if p == [] then 0 else 1 + QuotedName(p[0]) + QuotedComponents(p[1..])
  }

  function QuotedPath(p: Path): nat {
    2 + if p == [] then 1 else QuotedComponents(p)
  }

  // Lengths of the fixed parts of a cursor's text; TextLengths gives the texts.
  const CURSOR_TEXT: nat := 73
  const FRAME_TEXT: nat := 55
  const STAMP_TEXT: nat := 5
  const KEY_BYTES: nat := 64

  lemma TextLengths()
    ensures CURSOR_TEXT == |"{\"version\":1,\"scopeKey\":\"\",\"seed\":,\"activeEmitted\":,\"retry\":,\"frames\":[]}"|
    ensures FRAME_TEXT == |"{\"directory\":,\"kind\":,\"position\":,\"stamp\":,\"prefix\":\"\"}"|
    ensures STAMP_TEXT == |"\":::\""|
  {
  }

  function StampBytes(stamp: Option<Stamp>): nat {
    if stamp.None? then 4
    else STAMP_TEXT + Digits(stamp.value.dev) + Digits(stamp.value.ino) + Digits(stamp.value.mtimeNs) + Digits(stamp.value.ctimeNs)
  }

  function FrameBytes(f: Frame): nat {
    FRAME_TEXT + QuotedPath(f.place.directory) + (if f.place.kind == Collection then 12 else 7) + Digits(f.position)
    + StampBytes(f.stamp) + (if f.prefix == Empty then 0 else KEY_BYTES)
  }

  function FramesBytes(frames: seq<Frame>): nat {
    if frames == [] then 0 else FrameBytes(frames[0]) + (if |frames| > 1 then 1 else 0) + FramesBytes(frames[1..])
  }

  function FlagBytes(b: bool): nat {
    if b then 4 else 5
  }

  /** The length of the cursor's text. */
  function CursorBytes(c: Cursor): nat {
    CURSOR_TEXT + KEY_BYTES + Digits(c.seed) + FlagBytes(c.activeEmitted) + FlagBytes(c.retry) + FramesBytes(c.frames)
  }

  /** A stamp is read back as four runs of digits. */
  predicate Plain(stamp: Option<Stamp>) {
    stamp.Some? ==>
      stamp.value.dev >= 0 && stamp.value.ino >= 0 && stamp.value.mtimeNs >= 0 && stamp.value.ctimeNs >= 0
  }

  predicate AcceptsFrame(s: Source, f: Frame) {
    OwnsDirectory(s, f.place) && f.position <= MAX_SAFE_INTEGER && Plain(f.stamp)
  }

  predicate Accepts(s: Source, c: Cursor) {
    && CursorBytes(c) <= MAX_CURSOR_BYTES && c.scopeKey == s.key
    && c.seed <= MAX_SAFE_INTEGER && c.seed <= |Seeds(s)| && |c.frames| <= 2
    && (forall i :: 0 <= i < |c.frames| ==> AcceptsFrame(s, c.frames[i]))
    && (|c.frames| == 2 ==> c.frames[0].place.kind == Collection && c.frames[1].place.kind == Files
                            && Parent(c.frames[1].place.directory) == c.frames[0].place.directory)
  }

  function Fresh(s: Source): Cursor {
    Cursor(s.key, 0, false, false, [])
  }

  function DecodeCursor(s: Source, encoded: Option<Cursor>): Result<Cursor, Code> {
    if encoded.None? then Success(Fresh(s))
    else if Accepts(s, encoded.value) then Success(encoded.value)
    else Failure(Invalid)
  }

  // ---- A page ----

  predicate Complete(s: Source, c: Cursor) {
    c.activeEmitted && Exhausted(s, c)
  }

  function Opening(s: Source, c: Cursor, turns: nat): Scan {
    Scan(c.(activeEmitted := true), map[],
         if !c.activeEmitted && s.sessionFile.Some? then [s.sessionFile.value] else [], [], ENTRY_BUDGET, turns)
  }

  function Limit(capacity: nat): nat {
    if capacity < PAGE_CAPACITY then capacity else PAGE_CAPACITY
  }

  function PageOf(s: Source, x: Scan): Page {
    Page(x.files, x.issues, if Complete(s, x.cursor) then None else Some(x.cursor), Complete(s, x.cursor))
  }

  /** Discovers one page from a cursor; with no room for anything it returns the cursor unchanged. */
  function DiscoverPage(s: Source, hash: Hash, disk: Disk, encoded: Option<Cursor>, capacity: int, turns: nat): Result<Page, Code> {
    if capacity < 0 || capacity > 10000 then Failure(Invalid)
    else
      var decoded := DecodeCursor(s, encoded);
      if decoded.Failure? then Failure(decoded.error)
      else if capacity == 0 then Success(Page([], [], encoded, false))
      else
        var scanned := Run(s, hash, disk, Opening(s, decoded.value, turns), Limit(capacity));
        if scanned.Failure? then Failure(scanned.error) else Success(PageOf(s, scanned.value))
  }
}
