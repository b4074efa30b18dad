/** Nothing is left out silently: whatever happens to the directories during a scan, each one was listed from start
    to end by one handle under one stamp, with all its transcripts reported, or became an issue. */
module ArchiveScanCustody {
  import opened Options
  import opened ArchiveScan
  import opened ArchiveScanCursors
  import opened ArchiveScanPages

  /** What a frame has accounted for since it last started over, and at which turns. */
  datatype Trail = Trail(entries: seq<Entry>, metAt: seq<nat>)

  /** A finished directory: what was accounted for and at which turns, the turns at which the last handle read the same
      names, the turn it came to the end, and the stamp. */
  datatype Listing = Listing(stamp: Stamp, entries: seq<Entry>, metAt: seq<nat>, readAt: seq<nat>, endedAt: nat)

  /** Kept beside a scan: what was reported, what failed, what finished, a trail for each frame, and for each open
      reader the turns at which it read. */
  datatype Past = Past(files: set<Path>, failed: set<Place>, finished: map<Place, Listing>, trails: seq<Trail>,
                       handles: map<Path, seq<nat>>)

  const NO_TRAIL := Trail([], [])

  function Names(entries: seq<Entry>): seq<string> {
    seq(|entries|, i requires 0 <= i < |entries| => entries[i].name)
  }

  function Fold(hash: Hash, names: seq<string>): Prefix {
    if names == [] then Empty else Digest(hash(Fold(hash, names[..|names| - 1]), names[|names| - 1]))
  }

  // ---- Readers ----

  ghost predicate ReaderKept(hash: Hash, r: Reader) {
    r.position == |r.names| && r.prefix == Fold(hash, r.names)
  }

  lemma AdvanceKept(hash: Hash, r: Reader, name: string)
    requires ReaderKept(hash, r)
    ensures ReaderKept(hash, Advance(hash, r, name))
  {
    assert (r.names + [name])[..|r.names|] == r.names;
  }

  /** From a position on, the reader's names are what these answers gave. */
  ghost predicate ReadHere(a: Answers, r: Reader, from: nat) {
    forall i :: from <= i < |r.names| ==>
      a.read(i).Success? && a.read(i).value.Some? && a.read(i).value.value.name == r.names[i]
  }

  lemma {:induction false} ReplayKept(a: Answers, hash: Hash, r: Reader, until: nat, from: nat)
    requires ReaderKept(hash, r) && ReadHere(a, r, from) && from <= |r.names|
    ensures var e := Replay(a, hash, r, until);
      e.Success? ==> ReaderKept(hash, e.value) && ReadHere(a, e.value, from) && r.names <= e.value.names
                     && e.value.stamp == r.stamp
    decreases until - r.position
  {
    if r.position < until && a.read(r.position).Success? && a.read(r.position).value.Some? {
      var name := a.read(r.position).value.value.name;
      AdvanceKept(hash, r, name);
      ReplayKept(a, hash, Advance(hash, r, name), until, from);
    }
  }

  /** How many names an open reader brings into a turn. */
  function Before(frame: Frame, stamp: Stamp, reader: Option<Reader>): seq<string> {
    if Reused(frame, stamp, reader).Some? then reader.value.names else []
  }

  /** A turn that got to read: the stamp was seen before, the reader is true to these answers, and the frame starts
      from where it was or, under a new stamp, from nothing. */
  ghost predicate Read(a: Answers, hash: Hash, frame: Frame, reader: Option<Reader>, next: Frame, r: Reader) {
    && a.before == Success(r.stamp) && next.stamp == Some(r.stamp) && next.place == frame.place
    && ReaderKept(hash, r) && Before(frame, r.stamp, reader) <= r.names
    && ReadHere(a, r, |Before(frame, r.stamp, reader)|)
    && r.prefix == next.prefix
  }

  ghost predicate SeenKept(a: Answers, hash: Hash, frame: Frame, reader: Option<Reader>, seen: Seen) {
    match seen
    case Trouble(_, _) => true
    case Short(next, r) => Read(a, hash, frame, reader, next, r) && next == Restamped(frame, r.stamp)
    case AtEnd(next, r) =>
      && Read(a, hash, frame, reader, next, r) && next == Restamped(frame, r.stamp)
      && a.read(|r.names|) == Success(None) && a.after == Success(r.stamp)
    case Next(e, next, r) =>
      && Read(a, hash, frame, reader, next, r) && r.names != []
      && r.names[|r.names| - 1] == e.name && a.read(|r.names| - 1) == Success(Some(e))
      && Fold(hash, r.names[..|r.names| - 1]) == Restamped(frame, r.stamp).prefix
  }

  /** What a turn saw of the directory on top. */
  ghost predicate Kept(s: Source, hash: Hash, disk: Disk, x: Scan, seen: Seen, turn: nat)
    requires x.cursor.frames != []
  {
    var d := Top(x.cursor).place.directory;
    SeenKept(disk(d, Followed(s, d), turn), hash, Top(x.cursor), ReaderOf(x, d), seen)
  }

  lemma ReadOnKept(a: Answers, hash: Hash, frame: Frame, reader: Option<Reader>, stamp: Stamp, r: Reader)
    requires Read(a, hash, frame, reader, Restamped(frame, stamp), r) && r.stamp == stamp
    ensures SeenKept(a, hash, frame, reader, ReadOn(a, hash, Restamped(frame, stamp), stamp, r))
  {
    var got := a.read(r.position);
    if got.Success? && got.value.Some? {
      var n := Advance(hash, r, got.value.value.name);
      AdvanceKept(hash, r, got.value.value.name);
      assert n.names[..|n.names| - 1] == r.names;
    }
  }

  lemma LookKept(a: Answers, hash: Hash, frame: Frame, reader: Option<Reader>, spare: bool)
    requires reader.Some? ==> ReaderKept(hash, reader.value)
    ensures SeenKept(a, hash, frame, reader, Look(a, hash, frame, reader, spare))
  {
    if a.before.Success? {
      var stamp := a.before.value;
      var kept := Reused(frame, stamp, reader);
      var from := if kept.Some? then kept.value else Reader(stamp, 0, Empty, []);
      var f := Restamped(frame, stamp);
      ReplayKept(a, hash, from, f.position, |from.names|);
      var r := Replay(a, hash, from, f.position);
      if r.Success? && r.value.prefix == f.prefix {
        ReadOnKept(a, hash, frame, reader, stamp, r.value);
      }
    }
  }

  // ---- The past of a scan ----

  function BaseTrail(p: Past, x: Scan, stamp: Stamp): Trail
    requires x.cursor.frames != [] && p.trails != []
  {
    if Top(x.cursor).stamp == Some(stamp) then p.trails[|p.trails| - 1] else NO_TRAIL
  }

  /** The turns at which the names of a reader were read: those before, and this turn for the rest. */
  function TurnsRead(p: Past, x: Scan, r: Reader, turn: nat): seq<nat>
    requires x.cursor.frames != []
  {
    var directory := Top(x.cursor).place.directory;
    var earlier := if Reused(Top(x.cursor), r.stamp, ReaderOf(x, directory)).Some? && directory in p.handles
                   then p.handles[directory] else [];
    earlier + seq(if |r.names| >= |earlier| then |r.names| - |earlier| else 0, i => turn)
  }

  function Longer(t: Trail, e: Entry, turn: nat): Trail {
    Trail(t.entries + [e], t.metAt + [turn])
  }

  function SettlePast(p: Past, x: Scan, seen: Seen, turn: nat): Past
    requires x.cursor.frames != [] && p.trails != []
  {
    var (place, below) := (Top(x.cursor).place, p.trails[..|p.trails| - 1]);
    match seen
    case Trouble(_, _) => p.(failed := p.failed + {place}, trails := below, handles := p.handles - {place.directory})
    case Short(_, r) =>
      p.(trails := below + [BaseTrail(p, x, r.stamp)], handles := p.handles[place.directory := TurnsRead(p, x, r, turn)])
    case AtEnd(_, r) =>
      var trail := BaseTrail(p, x, r.stamp);
      var listing := Listing(r.stamp, trail.entries, trail.metAt, TurnsRead(p, x, r, turn), turn);
      p.(finished := p.finished[place := listing], trails := below, handles := p.handles - {place.directory})
    case Next(e, _, r) =>
      var trail := Longer(BaseTrail(p, x, r.stamp), e, turn);
      p.(files := if place.kind == Files && Jsonl(e.name) then p.files + {place.directory + [e.name]} else p.files,
         trails := below + [trail] + (if place.kind == Collection && e.directory then [NO_TRAIL] else []),
         handles := p.handles[place.directory := TurnsRead(p, x, r, turn)])
  }

  function RefillPast(p: Past, c: Cursor): Past {
    if c.frames == [] then p.(trails := [NO_TRAIL]) else p
  }

  function TurnPast(s: Source, hash: Hash, disk: Disk, x: Scan, p: Past): Past
    requires x.budget > 0 && |p.trails| == |x.cursor.frames|
  {
    if Exhausted(s, x.cursor) then p
    else SettlePast(RefillPast(p, x.cursor), Refill(s, x), LookAt(s, hash, disk, Refill(s, x), x.turns), x.turns)
  }

  // ---- Trails ----

  /** A turn of the scan that found the directory under the stamp. */
  ghost predicate Under(s: Source, disk: Disk, span: iset<nat>, d: Path, stamp: Stamp, turn: nat) {
    turn in span && disk(d, Followed(s, d), turn).before == Success(stamp)
  }

  ghost predicate Reads(a: Answers, i: nat, name: string) {
    a.read(i).Success? && a.read(i).value.Some? && a.read(i).value.value.name == name
  }

  ghost predicate ReadAt(s: Source, disk: Disk, span: iset<nat>, d: Path, stamp: Stamp, i: nat, name: string, turn: nat) {
    Under(s, disk, span, d, stamp, turn) && Reads(disk(d, Followed(s, d), turn), i, name)
  }

  /** Each name was read from the directory, in its place, in a turn that began with the stamp. */
  ghost predicate AllRead(s: Source, disk: Disk, span: iset<nat>, d: Path, stamp: Stamp, names: seq<string>, turns: seq<nat>) {
    |turns| == |names| && forall i :: 0 <= i < |names| ==> ReadAt(s, disk, span, d, stamp, i, names[i], turns[i])
  }

  ghost predicate MetAt(s: Source, disk: Disk, span: iset<nat>, d: Path, stamp: Stamp, i: nat, e: Entry, turn: nat) {
    Under(s, disk, span, d, stamp, turn) && disk(d, Followed(s, d), turn).read(i) == Success(Some(e))
  }

  /** Each entry was what the directory held in that place, in a turn that began with the stamp. */
  ghost predicate AllMet(s: Source, disk: Disk, span: iset<nat>, d: Path, stamp: Stamp, t: Trail) {
    && |t.metAt| == |t.entries|
    && forall i :: 0 <= i < |t.entries| ==> MetAt(s, disk, span, d, stamp, i, t.entries[i], t.metAt[i])
  }

  ghost predicate HandlesKept(s: Source, hash: Hash, disk: Disk, span: iset<nat>, readers: map<Path, Reader>, handles: map<Path, seq<nat>>) {
    forall d :: d in readers ==>
      d in handles && ReaderKept(hash, readers[d]) && AllRead(s, disk, span, d, readers[d].stamp, readers[d].names, handles[d])
  }

  lemma HandleRead(s: Source, hash: Hash, disk: Disk, span: iset<nat>, p: Past, x: Scan, r: Reader, next: Frame, turn: nat)
    requires x.cursor.frames != [] && HandlesKept(s, hash, disk, span, x.readers, p.handles)
    requires var d := Top(x.cursor).place.directory;
      turn in span && Read(disk(d, Followed(s, d), turn), hash, Top(x.cursor), ReaderOf(x, d), next, r)
    ensures AllRead(s, disk, span, Top(x.cursor).place.directory, r.stamp, r.names, TurnsRead(p, x, r, turn))
  {
    var d := Top(x.cursor).place.directory;
    var before := Before(Top(x.cursor), r.stamp, ReaderOf(x, d));
    forall i | 0 <= i < |r.names| ensures ReadAt(s, disk, span, d, r.stamp, i, r.names[i], TurnsRead(p, x, r, turn)[i]) {
      if i < |before| {
        assert before[i] == r.names[i];
        assert ReadAt(s, disk, span, d, r.stamp, i, before[i], p.handles[d][i]);
      }
    }
  }

  // ---- Digests ----

  ghost predicate Listable(s: Source, disk: Disk, span: iset<nat>, d: Path, names: seq<string>) {
    forall i :: 0 <= i < |names| ==> NameSeen(s, disk, span, d, i, names[i])
  }

  ghost predicate NameSeen(s: Source, disk: Disk, span: iset<nat>, d: Path, i: nat, name: string) {
    exists turn :: turn in span && Reads(disk(d, Followed(s, d), turn), i, name)
  }

  /** The digests tell apart any two beginnings of listings that a directory may have shown during the scan. */
  ghost predicate Distinguishes(s: Source, hash: Hash, disk: Disk, span: iset<nat>) {
    forall d: Path, a, b :: Listable(s, disk, span, d, a) && Listable(s, disk, span, d, b) && Fold(hash, a) == Fold(hash, b) ==> a == b
  }

  lemma ReadListable(s: Source, disk: Disk, span: iset<nat>, d: Path, stamp: Stamp, names: seq<string>, turns: seq<nat>)
    requires AllRead(s, disk, span, d, stamp, names, turns)
    ensures Listable(s, disk, span, d, names)
  {
    forall i | 0 <= i < |names| ensures NameSeen(s, disk, span, d, i, names[i]) {
      assert ReadAt(s, disk, span, d, stamp, i, names[i], turns[i]);
    }
  }

  lemma MetListable(s: Source, disk: Disk, span: iset<nat>, d: Path, stamp: Stamp, t: Trail)
    requires AllMet(s, disk, span, d, stamp, t)
    ensures Listable(s, disk, span, d, Names(t.entries))
  {
    forall i | 0 <= i < |t.entries| ensures NameSeen(s, disk, span, d, i, Names(t.entries)[i]) {
      assert MetAt(s, disk, span, d, stamp, i, t.entries[i], t.metAt[i]);
      assert Reads(disk(d, Followed(s, d), t.metAt[i]), i, t.entries[i].name);
    }
  }

  ghost predicate TrailKept(s: Source, hash: Hash, disk: Disk, span: iset<nat>, f: Frame, t: Trail) {
    && f.prefix == Fold(hash, Names(t.entries))
    && if f.stamp.None? then t == NO_TRAIL else AllMet(s, disk, span, f.place.directory, f.stamp.value, t)
  }

  ghost predicate TrailsKept(s: Source, hash: Hash, disk: Disk, span: iset<nat>, frames: seq<Frame>, trails: seq<Trail>) {
    |trails| == |frames| && forall i :: 0 <= i < |frames| ==> TrailKept(s, hash, disk, span, frames[i], trails[i])
  }

  lemma BaseKept(s: Source, hash: Hash, disk: Disk, span: iset<nat>, p: Past, x: Scan, stamp: Stamp)
    requires x.cursor.frames != [] && TrailsKept(s, hash, disk, span, x.cursor.frames, p.trails)
    ensures TrailKept(s, hash, disk, span, Restamped(Top(x.cursor), stamp), BaseTrail(p, x, stamp))
  {
    assert Names(NO_TRAIL.entries) == [];
  }

  lemma NamesLonger(entries: seq<Entry>, e: Entry)
    ensures Names(entries + [e]) == Names(entries) + [e.name]
  {
  }

  lemma ShorterListable(s: Source, disk: Disk, span: iset<nat>, d: Path, names: seq<string>, n: nat)
    requires Listable(s, disk, span, d, names) && n <= |names|
    ensures Listable(s, disk, span, d, names[..n])
  {
  }

  /** What the frame has accounted for is what the reader has read before. */
  lemma SameNames(s: Source, hash: Hash, disk: Disk, span: iset<nat>, f: Frame, stamp: Stamp, t: Trail, names: seq<string>)
    requires Distinguishes(s, hash, disk, span) && Listable(s, disk, span, f.place.directory, names)
    requires f.stamp == Some(stamp) && TrailKept(s, hash, disk, span, f, t) && Fold(hash, names) == f.prefix
    ensures Names(t.entries) == names
  {
    MetListable(s, disk, span, f.place.directory, stamp, t);
  }

  /** The entry read next is the one after those the frame has accounted for. */
  lemma LongerKept(s: Source, hash: Hash, disk: Disk, span: iset<nat>, f: Frame, g: Frame, t: Trail, e: Entry, r: Reader, turn: nat)
    requires f.stamp == Some(r.stamp) && TrailKept(s, hash, disk, span, f, t)
    requires r.names == Names(t.entries) + [e.name] && ReaderKept(hash, r)
    requires g.prefix == r.prefix && g.stamp == Some(r.stamp) && g.place == f.place
    requires MetAt(s, disk, span, f.place.directory, r.stamp, |t.entries|, e, turn)
    ensures TrailKept(s, hash, disk, span, g, Longer(t, e, turn))
  {
    NamesLonger(t.entries, e);
  }

  lemma ToppedTrails(s: Source, hash: Hash, disk: Disk, span: iset<nat>, c: Cursor, trails: seq<Trail>, g: Frame, t: Trail, child: Place)
    requires c.frames != [] && TrailsKept(s, hash, disk, span, c.frames, trails)
    ensures TrailsKept(s, hash, disk, span, Popped(c).frames, trails[..|trails| - 1])
    ensures TrailKept(s, hash, disk, span, g, t) ==>
      && TrailsKept(s, hash, disk, span, WithTop(c, g).frames, trails[..|trails| - 1] + [t])
      && TrailsKept(s, hash, disk, span, Pushed(WithTop(c, g), child).frames, trails[..|trails| - 1] + [t] + [NO_TRAIL])
  {
    assert Names(NO_TRAIL.entries) == [];
  }

  lemma ListableSoFar(s: Source, hash: Hash, disk: Disk, span: iset<nat>, p: Past, x: Scan, seen: Seen, turn: nat)
    requires HandlesKept(s, hash, disk, span, x.readers, p.handles) && x.cursor.frames != []
    requires turn in span && Kept(s, hash, disk, x, seen, turn) && seen.Next?
    ensures Listable(s, disk, span, Top(x.cursor).place.directory, seen.reader.names[..|seen.reader.names| - 1])
  {
    var (r, d) := (seen.reader, Top(x.cursor).place.directory);
    HandleRead(s, hash, disk, span, p, x, r, seen.frame, turn);
    ReadListable(s, disk, span, d, r.stamp, r.names, TurnsRead(p, x, r, turn));
    ShorterListable(s, disk, span, d, r.names, |r.names| - 1);
  }

  /** What has been read is what the frame has accounted for, and one entry more. */
  lemma ReadOneMore(s: Source, hash: Hash, disk: Disk, span: iset<nat>, p: Past, x: Scan, seen: Seen, turn: nat)
    requires Distinguishes(s, hash, disk, span) && HandlesKept(s, hash, disk, span, x.readers, p.handles)
    requires x.cursor.frames != [] && TrailsKept(s, hash, disk, span, x.cursor.frames, p.trails)
    requires turn in span && Kept(s, hash, disk, x, seen, turn) && seen.Next?
    ensures seen.reader.names == Names(BaseTrail(p, x, seen.reader.stamp).entries) + [seen.entry.name]
  {
    var (names, stamp) := (seen.reader.names, seen.reader.stamp);
    ListableSoFar(s, hash, disk, span, p, x, seen, turn);
    BaseKept(s, hash, disk, span, p, x, stamp);
    SameNames(s, hash, disk, span, Restamped(Top(x.cursor), stamp), stamp, BaseTrail(p, x, stamp), names[..|names| - 1]);
    assert names == names[..|names| - 1] + [names[|names| - 1]];
  }

  lemma NextTrail(s: Source, hash: Hash, disk: Disk, span: iset<nat>, p: Past, x: Scan, seen: Seen, turn: nat)
    requires Distinguishes(s, hash, disk, span) && HandlesKept(s, hash, disk, span, x.readers, p.handles)
    requires x.cursor.frames != [] && TrailsKept(s, hash, disk, span, x.cursor.frames, p.trails)
    requires turn in span && Kept(s, hash, disk, x, seen, turn) && seen.Next?
    ensures TrailKept(s, hash, disk, span, seen.frame, Longer(BaseTrail(p, x, seen.reader.stamp), seen.entry, turn))
  {
    var r := seen.reader;
    ReadOneMore(s, hash, disk, span, p, x, seen, turn);
    BaseKept(s, hash, disk, span, p, x, r.stamp);
    LongerKept(s, hash, disk, span, Restamped(Top(x.cursor), r.stamp), seen.frame, BaseTrail(p, x, r.stamp), seen.entry, r, turn);
  }

  lemma SettleTrails(s: Source, hash: Hash, disk: Disk, span: iset<nat>, p: Past, x: Scan, seen: Seen, turn: nat)
    requires Distinguishes(s, hash, disk, span) && HandlesKept(s, hash, disk, span, x.readers, p.handles)
    requires x.cursor.frames != [] && TrailsKept(s, hash, disk, span, x.cursor.frames, p.trails)
    requires turn in span && Kept(s, hash, disk, x, seen, turn)
    ensures var turned := Settle(x, seen);
      turned.Thrown? || TrailsKept(s, hash, disk, span, turned.scan.cursor.frames, SettlePast(p, x, seen, turn).trails)
  {
    var (top, place) := (Top(x.cursor), Top(x.cursor).place);
    match seen
    case Trouble(_, _) => ToppedTrails(s, hash, disk, span, x.cursor, p.trails, top, NO_TRAIL, place);
    case Short(g, r) =>
      BaseKept(s, hash, disk, span, p, x, r.stamp);
      ToppedTrails(s, hash, disk, span, x.cursor, p.trails, g, BaseTrail(p, x, r.stamp), place);
    case AtEnd(_, _) => ToppedTrails(s, hash, disk, span, x.cursor, p.trails, top, NO_TRAIL, place);
    case Next(e, g, r) =>
      NextTrail(s, hash, disk, span, p, x, seen, turn);
      ToppedTrails(s, hash, disk, span, x.cursor, p.trails, g, Longer(BaseTrail(p, x, r.stamp), e, turn),
                   Place(place.directory + [e.name], Files));
  }

  // ---- Handles and listings ----

  lemma HandlesChange(s: Source, hash: Hash, disk: Disk, span: iset<nat>, readers: map<Path, Reader>, handles: map<Path, seq<nat>>,
                      d: Path, r: Reader, turns: seq<nat>)
    requires HandlesKept(s, hash, disk, span, readers, handles)
    ensures HandlesKept(s, hash, disk, span, readers - {d}, handles - {d})
    ensures ReaderKept(hash, r) && AllRead(s, disk, span, d, r.stamp, r.names, turns) ==>
      HandlesKept(s, hash, disk, span, readers[d := r], handles[d := turns])
  {
  }

  lemma SettleHandles(s: Source, hash: Hash, disk: Disk, span: iset<nat>, p: Past, x: Scan, seen: Seen, turn: nat)
    requires x.cursor.frames != [] && p.trails != [] && HandlesKept(s, hash, disk, span, x.readers, p.handles)
    requires turn in span && Kept(s, hash, disk, x, seen, turn)
    ensures var turned := Settle(x, seen);
      turned.Thrown? || HandlesKept(s, hash, disk, span, turned.scan.readers, SettlePast(p, x, seen, turn).handles)
  {
    var d := Top(x.cursor).place.directory;
    match seen
    case Trouble(_, _) => HandlesChange(s, hash, disk, span, x.readers, p.handles, d, Reader(Stamp(0, 0, 0, 0), 0, Empty, []), []);
    case Short(next, r) =>
      HandleRead(s, hash, disk, span, p, x, r, next, turn);
      HandlesChange(s, hash, disk, span, x.readers, p.handles, d, r, TurnsRead(p, x, r, turn));
    case AtEnd(_, r) => HandlesChange(s, hash, disk, span, x.readers, p.handles, d, r, []);
    case Next(_, next, r) =>
      HandleRead(s, hash, disk, span, p, x, r, next, turn);
      HandlesChange(s, hash, disk, span, x.readers, p.handles, d, r, TurnsRead(p, x, r, turn));
  }

  /** Every entry was met in its place under the stamp; one handle read the same names, all under this stamp, and then
      came to the end, the stamp being the same before and after. */
  ghost predicate ListingTrue(s: Source, disk: Disk, span: iset<nat>, d: Path, l: Listing) {
    var a := disk(d, Followed(s, d), l.endedAt);
    && AllMet(s, disk, span, d, l.stamp, Trail(l.entries, l.metAt))
    && AllRead(s, disk, span, d, l.stamp, Names(l.entries), l.readAt)
    && Under(s, disk, span, d, l.stamp, l.endedAt) && a.read(|l.entries|) == Success(None) && a.after == Success(l.stamp)
  }

  ghost predicate ListingsTrue(s: Source, disk: Disk, span: iset<nat>, finished: map<Place, Listing>) {
    forall place :: place in finished ==> ListingTrue(s, disk, span, place.directory, finished[place])
  }

  /** At the end, the handle has read exactly what the frame accounted for. */
  lemma EndsWhole(s: Source, hash: Hash, disk: Disk, span: iset<nat>, p: Past, x: Scan, seen: Seen, turn: nat)
    requires Distinguishes(s, hash, disk, span) && x.cursor.frames != []
    requires TrailsKept(s, hash, disk, span, x.cursor.frames, p.trails) && seen.AtEnd? && Kept(s, hash, disk, x, seen, turn)
    requires Listable(s, disk, span, Top(x.cursor).place.directory, seen.reader.names)
    ensures Names(BaseTrail(p, x, seen.reader.stamp).entries) == seen.reader.names
    ensures AllMet(s, disk, span, Top(x.cursor).place.directory, seen.reader.stamp, BaseTrail(p, x, seen.reader.stamp))
  {
    var stamp := seen.reader.stamp;
    BaseKept(s, hash, disk, span, p, x, stamp);
    SameNames(s, hash, disk, span, Restamped(Top(x.cursor), stamp), stamp, BaseTrail(p, x, stamp), seen.reader.names);
  }

  lemma SettleListings(s: Source, hash: Hash, disk: Disk, span: iset<nat>, p: Past, x: Scan, seen: Seen, turn: nat)
    requires Distinguishes(s, hash, disk, span) && x.cursor.frames != [] && TrailsKept(s, hash, disk, span, x.cursor.frames, p.trails)
    requires HandlesKept(s, hash, disk, span, x.readers, p.handles) && ListingsTrue(s, disk, span, p.finished)
    requires turn in span && Kept(s, hash, disk, x, seen, turn)
    ensures ListingsTrue(s, disk, span, SettlePast(p, x, seen, turn).finished)
  {
    if seen.AtEnd? {
      HandleRead(s, hash, disk, span, p, x, seen.reader, seen.frame, turn);
      ReadListable(s, disk, span, Top(x.cursor).place.directory, seen.reader.stamp, seen.reader.names,
                   TurnsRead(p, x, seen.reader, turn));
      EndsWhole(s, hash, disk, span, p, x, seen, turn);
    }
  }

  // ---- What has been met ----

  ghost predicate Handled(p: Past, place: Place) {
    place in p.failed || place in p.finished
  }

  /** A transcript was reported; a directory in a collection was handled, or is being scanned right above it. */
  ghost predicate EntryMet(p: Past, place: Place, e: Entry, above: Option<Place>) {
    var child := place.directory + [e.name];
    if place.kind == Files then Jsonl(e.name) ==> child in p.files
    else e.directory ==> Handled(p, Place(child, Files)) || above == Some(Place(child, Files))
  }

  ghost predicate TrailMet(p: Past, place: Place, t: Trail, above: Option<Place>) {
    forall i :: 0 <= i < |t.entries| ==> EntryMet(p, place, t.entries[i], above)
  }

  function Above(frames: seq<Frame>, i: nat): Option<Place> {
    if i + 1 < |frames| then Some(frames[i + 1].place) else None
  }

  ghost predicate TrailsMet(p: Past, frames: seq<Frame>) {
    |p.trails| == |frames| && forall i :: 0 <= i < |frames| ==> TrailMet(p, frames[i].place, p.trails[i], Above(frames, i))
  }

  ghost predicate ListingMet(p: Past, place: Place, l: Listing) {
    TrailMet(p, place, Trail(l.entries, l.metAt), None)
  }

  ghost predicate ListingsMet(p: Past) {
    forall place :: place in p.finished ==> ListingMet(p, place, p.finished[place])
  }

  ghost predicate Grown(p: Past, q: Past) {
    p.files <= q.files && p.failed <= q.failed && p.finished.Keys <= q.finished.Keys
  }

  lemma StillMet(p: Past, q: Past, place: Place, t: Trail, above: Option<Place>, next: Option<Place>)
    requires Grown(p, q) && TrailMet(p, place, t, above)
    requires above == next || (above.Some? && Handled(q, above.value))
    ensures TrailMet(q, place, t, next)
  {
  }

  lemma BaseMet(p: Past, x: Scan, stamp: Stamp)
    requires x.cursor.frames != [] && TrailsMet(p, x.cursor.frames)
    ensures TrailMet(p, Top(x.cursor).place, BaseTrail(p, x, stamp), None)
  {
  }

  lemma PoppedMet(p: Past, q: Past, c: Cursor)
    requires c.frames != [] && TrailsMet(p, c.frames) && Grown(p, q) && Handled(q, Top(c).place)
    requires q.trails == p.trails[..|p.trails| - 1]
    ensures TrailsMet(q, Popped(c).frames)
  {
    forall i | 0 <= i < |c.frames| - 1 ensures TrailMet(q, c.frames[i].place, q.trails[i], Above(Popped(c).frames, i)) {
      StillMet(p, q, c.frames[i].place, p.trails[i], Above(c.frames, i), Above(Popped(c).frames, i));
    }
  }

  lemma ToppedMet(p: Past, q: Past, c: Cursor, g: Frame, t: Trail)
    requires c.frames != [] && TrailsMet(p, c.frames) && Grown(p, q) && g.place == Top(c).place
    requires q.trails == p.trails[..|p.trails| - 1] + [t] && TrailMet(q, g.place, t, None)
    ensures TrailsMet(q, WithTop(c, g).frames)
  {
    forall i | 0 <= i < |c.frames| - 1 ensures TrailMet(q, c.frames[i].place, q.trails[i], Above(WithTop(c, g).frames, i)) {
      StillMet(p, q, c.frames[i].place, p.trails[i], Above(c.frames, i), Above(WithTop(c, g).frames, i));
    }
  }

  lemma PushedMet(p: Past, q: Past, c: Cursor, g: Frame, t: Trail, child: Place)
    requires c.frames != [] && TrailsMet(p, c.frames) && Grown(p, q) && g.place == Top(c).place
    requires q.trails == p.trails[..|p.trails| - 1] + [t, NO_TRAIL] && TrailMet(q, g.place, t, Some(child))
    ensures TrailsMet(q, Pushed(WithTop(c, g), child).frames)
  {
    var frames := Pushed(WithTop(c, g), child).frames;
    forall i | 0 <= i < |c.frames| - 1 ensures TrailMet(q, frames[i].place, q.trails[i], Above(frames, i)) {
      StillMet(p, q, c.frames[i].place, p.trails[i], Above(c.frames, i), Above(frames, i));
    }
  }

  lemma NextMet(p: Past, x: Scan, e: Entry, g: Frame, r: Reader, turn: nat)
    requires x.cursor.frames != [] && TrailsMet(p, x.cursor.frames) && g.place == Top(x.cursor).place
    ensures var seen := Next(e, g, r);
      TrailsMet(SettlePast(p, x, seen, turn), Settle(x, seen).scan.cursor.frames)
  {
    var (q, place) := (SettlePast(p, x, Next(e, g, r), turn), g.place);
    var (t, child) := (Longer(BaseTrail(p, x, r.stamp), e, turn), Place(place.directory + [e.name], Files));
    BaseMet(p, x, r.stamp);
    StillMet(p, q, place, BaseTrail(p, x, r.stamp), None, None);
    if place.kind == Collection && e.directory {
      PushedMet(p, q, x.cursor, g, t, child);
    } else {
      ToppedMet(p, q, x.cursor, g, t);
    }
  }

  lemma SettleMet(s: Source, hash: Hash, disk: Disk, p: Past, x: Scan, seen: Seen, turn: nat)
    requires x.cursor.frames != [] && TrailsMet(p, x.cursor.frames) && Kept(s, hash, disk, x, seen, turn)
    ensures Settle(x, seen).Thrown? || TrailsMet(SettlePast(p, x, seen, turn), Settle(x, seen).scan.cursor.frames)
  {
    var q := SettlePast(p, x, seen, turn);
    match seen
    case Trouble(_, _) => PoppedMet(p, q, x.cursor);
    case Short(g, r) =>
      BaseMet(p, x, r.stamp);
      StillMet(p, q, g.place, BaseTrail(p, x, r.stamp), None, None);
      ToppedMet(p, q, x.cursor, g, BaseTrail(p, x, r.stamp));
    case AtEnd(_, _) => PoppedMet(p, q, x.cursor);
    case Next(e, g, r) => NextMet(p, x, e, g, r, turn);
  }

  lemma SettleListed(p: Past, x: Scan, seen: Seen, turn: nat)
    requires x.cursor.frames != [] && TrailsMet(p, x.cursor.frames) && ListingsMet(p)
    ensures ListingsMet(SettlePast(p, x, seen, turn))
  {
    var (q, top) := (SettlePast(p, x, seen, turn), Top(x.cursor).place);
    if seen.AtEnd? {
      BaseMet(p, x, seen.reader.stamp);
    }
    forall place | place in q.finished ensures ListingMet(q, place, q.finished[place]) {
      var l := q.finished[place];
      if seen.AtEnd? && place == top {
        StillMet(p, q, place, BaseTrail(p, x, seen.reader.stamp), None, None);
      } else {
        StillMet(p, q, place, Trail(l.entries, l.metAt), None, None);
      }
    }
  }

  // ---- What was to be scanned ----

  /** Every seed taken up was handled or is being scanned; a retry is about one directory, until that is finished. */
  ghost predicate OwedMet(s: Source, c: Cursor, p: Past, target: Place) {
    if c.retry then if c.frames == [] then target in p.finished else c.frames[0].place == target
    else
      && c.seed <= |Seeds(s)|
      && forall k :: 0 <= k < c.seed ==> Handled(p, Seeds(s)[k]) || (c.frames != [] && c.frames[0].place == Seeds(s)[k])
  }

  lemma SettleOwed(s: Source, p: Past, x: Scan, seen: Seen, turn: nat, target: Place)
    requires x.cursor.frames != [] && p.trails != [] && OwedMet(s, x.cursor, p, target)
    requires seen.Short? || seen.Next? ==> seen.frame.place == Top(x.cursor).place
    ensures var turned := Settle(x, seen);
      turned.Thrown? || OwedMet(s, turned.scan.cursor, SettlePast(p, x, seen, turn), target)
  {
  }

  // ---- Every turn keeps custody ----

  ghost predicate CursorSafe(s: Source, hash: Hash, disk: Disk, span: iset<nat>, c: Cursor, p: Past, target: Place) {
    && TrailsKept(s, hash, disk, span, c.frames, p.trails) && ListingsTrue(s, disk, span, p.finished)
    && TrailsMet(p, c.frames) && ListingsMet(p) && OwedMet(s, c, p, target)
  }

  ghost predicate Safe(s: Source, hash: Hash, disk: Disk, span: iset<nat>, x: Scan, p: Past, target: Place) {
    CursorSafe(s, hash, disk, span, x.cursor, p, target) && HandlesKept(s, hash, disk, span, x.readers, p.handles)
  }

  lemma RefillSafe(s: Source, hash: Hash, disk: Disk, span: iset<nat>, x: Scan, p: Past, target: Place)
    requires Safe(s, hash, disk, span, x, p, target) && x.budget > 0 && !Exhausted(s, x.cursor)
    ensures Safe(s, hash, disk, span, Refill(s, x), RefillPast(p, x.cursor), target)
  {
    var q := RefillPast(p, x.cursor);
    forall place | place in q.finished ensures ListingMet(q, place, q.finished[place]) {
      var l := q.finished[place];
      StillMet(p, q, place, Trail(l.entries, l.metAt), None, None);
    }
  }

  lemma SettleSafe(s: Source, hash: Hash, disk: Disk, span: iset<nat>, x: Scan, p: Past, seen: Seen, turn: nat, target: Place)
    requires Distinguishes(s, hash, disk, span) && Safe(s, hash, disk, span, x, p, target) && x.cursor.frames != []
    requires turn in span && Kept(s, hash, disk, x, seen, turn)
    ensures var turned := Settle(x, seen);
      turned.Thrown? || Safe(s, hash, disk, span, turned.scan, SettlePast(p, x, seen, turn), target)
  {
    SettleTrails(s, hash, disk, span, p, x, seen, turn);
    SettleHandles(s, hash, disk, span, p, x, seen, turn);
    SettleListings(s, hash, disk, span, p, x, seen, turn);
    SettleMet(s, hash, disk, p, x, seen, turn);
    SettleListed(p, x, seen, turn);
    SettleOwed(s, p, x, seen, turn, target);
  }

  /** These many turns from one on are turns of the scan. */
  ghost predicate Turns(span: iset<nat>, from: nat, count: nat) {
    forall n: nat :: from <= n < from + count ==> n in span
  }

  lemma TurnSafe(s: Source, hash: Hash, disk: Disk, span: iset<nat>, x: Scan, p: Past, target: Place)
    requires Distinguishes(s, hash, disk, span) && Safe(s, hash, disk, span, x, p, target) && x.budget > 0 && x.turns in span
    ensures var turned := Turn(s, hash, disk, x);
      turned.Thrown? || Safe(s, hash, disk, span, turned.scan, TurnPast(s, hash, disk, x, p), target)
  {
    if !Exhausted(s, x.cursor) {
      var y := Refill(s, x);
      var d := Top(y.cursor).place.directory;
      RefillSafe(s, hash, disk, span, x, p, target);
      LookKept(disk(d, Followed(s, d), x.turns), hash, Top(y.cursor), ReaderOf(x, d), y.budget > 0);
      SettleSafe(s, hash, disk, span, y, RefillPast(p, x.cursor), LookAt(s, hash, disk, Refill(s, x), x.turns), x.turns, target);
    }
  }

  // ---- What pages report ----

  ghost predicate IssueFor(issues: seq<Issue>, place: Place) {
    exists i :: 0 <= i < |issues| && issues[i].directory == place.directory && issues[i].retryCursor.frames == [Start(place)]
  }

  /** Everything new in the past is in these files and issues. */
  ghost predicate Reported(p: Past, q: Past, files: seq<Path>, issues: seq<Issue>) {
    && (forall f :: f in q.files ==> f in p.files || f in files)
    && (forall place :: place in q.failed ==> place in p.failed || IssueFor(issues, place))
  }

  lemma IssuesGrow(issues: seq<Issue>, more: seq<Issue>, place: Place)
    ensures IssueFor(issues, place) ==> IssueFor(issues + more, place)
    ensures IssueFor(more, place) ==> IssueFor(issues + more, place)
  {
    if IssueFor(more, place) {
      var i :| 0 <= i < |more| && more[i].directory == place.directory && more[i].retryCursor.frames == [Start(place)];
      assert (issues + more)[|issues| + i] == more[i];
    }
    if IssueFor(issues, place) {
      var i :| 0 <= i < |issues| && issues[i].directory == place.directory && issues[i].retryCursor.frames == [Start(place)];
      assert (issues + more)[i] == issues[i];
    }
  }

  lemma SettleReported(p: Past, q: Past, x: Scan, seen: Seen, turn: nat)
    requires x.cursor.frames != [] && q.trails != []
    requires Reported(p, q, x.files, x.issues)
    ensures var turned := Settle(x, seen);
      turned.Thrown? || (Reported(p, SettlePast(q, x, seen, turn), turned.scan.files, turned.scan.issues)
                         && q.files <= SettlePast(q, x, seen, turn).files)
  {
    if seen.Trouble? {
      var place := Top(x.cursor).place;
      var issue := Issue(place.directory, seen.code, RetryCursor(x.cursor, place));
      assert [issue][0].retryCursor.frames == [Start(place)];
      assert IssueFor([issue], place);
      forall other { IssuesGrow(x.issues, [issue], other); }
    }
  }

  function RunPast(s: Source, hash: Hash, disk: Disk, x: Scan, limit: nat, p: Past): Past
    requires |p.trails| == |x.cursor.frames|
    decreases x.budget
  {
    if x.budget == 0 || |x.files| + |x.issues| >= limit then p
    else
      var turned := Turn(s, hash, disk, x);
      var q := TurnPast(s, hash, disk, x, p);
      if turned.Go? && |q.trails| == |turned.scan.cursor.frames| then RunPast(s, hash, disk, turned.scan, limit, q) else q
  }

  lemma SettleFlags(x: Scan, seen: Seen)
    requires x.cursor.frames != []
    ensures var turned := Settle(x, seen);
      turned.Thrown? || (turned.scan.cursor.activeEmitted == x.cursor.activeEmitted
                         && turned.scan.cursor.retry == x.cursor.retry)
  {
  }

  lemma TurnReported(s: Source, hash: Hash, disk: Disk, x: Scan, p: Past, q: Past)
    requires x.budget > 0 && |q.trails| == |x.cursor.frames| && Reported(p, q, x.files, x.issues)
    ensures var (turned, n) := (Turn(s, hash, disk, x), TurnPast(s, hash, disk, x, q));
      turned.Thrown? || (Reported(p, n, turned.scan.files, turned.scan.issues) && q.files <= n.files
                         && turned.scan.cursor.activeEmitted == x.cursor.activeEmitted
                         && turned.scan.cursor.retry == x.cursor.retry)
  {
    if !Exhausted(s, x.cursor) {
      var y := Refill(s, x);
      SettleFlags(y, LookAt(s, hash, disk, y, x.turns));
      SettleReported(p, RefillPast(q, x.cursor), y, LookAt(s, hash, disk, Refill(s, x), x.turns), x.turns);
    }
  }

  lemma TurnCounted(s: Source, hash: Hash, disk: Disk, x: Scan)
    requires x.budget > 0
    ensures var turned := Turn(s, hash, disk, x);
      turned.Go? ==> turned.scan.turns == x.turns + 1 && turned.scan.budget < x.budget
  {
  }

  lemma {:induction false} RunSafe(s: Source, hash: Hash, disk: Disk, span: iset<nat>, x: Scan, limit: nat, p: Past, q: Past,
                                   target: Place)
    requires Distinguishes(s, hash, disk, span) && Safe(s, hash, disk, span, x, q, target) && Reported(p, q, x.files, x.issues)
    requires Turns(span, x.turns, x.budget)
    ensures var (r, n) := (Run(s, hash, disk, x, limit), RunPast(s, hash, disk, x, limit, q));
      r.Success? ==>
        && Safe(s, hash, disk, span, r.value, n, target) && Reported(p, n, r.value.files, r.value.issues) && q.files <= n.files
        && r.value.cursor.activeEmitted == x.cursor.activeEmitted && r.value.cursor.retry == x.cursor.retry
    decreases x.budget
  {
    if x.budget != 0 && |x.files| + |x.issues| < limit {
      TurnSafe(s, hash, disk, span, x, q, target);
      TurnReported(s, hash, disk, x, p, q);
      TurnCounted(s, hash, disk, x);
      var turned := Turn(s, hash, disk, x);
      if turned.Go? {
        RunSafe(s, hash, disk, span, turned.scan, limit, p, TurnPast(s, hash, disk, x, q), target);
      }
    }
  }

  /** The active session's file comes first of all, but in a retry. */
  ghost predicate ActiveMet(s: Source, c: Cursor, p: Past) {
    c.activeEmitted && !c.retry && s.sessionFile.Some? ==> s.sessionFile.value in p.files
  }

  function OpeningPast(s: Source, c: Cursor, p: Past): Past {
    p.(files := if !c.activeEmitted && s.sessionFile.Some? then p.files + {s.sessionFile.value} else p.files)
  }

  lemma OpeningSafe(s: Source, hash: Hash, disk: Disk, span: iset<nat>, c: Cursor, p: Past, target: Place, turns: nat)
    requires CursorSafe(s, hash, disk, span, c, p, target) && ActiveMet(s, c, p)
    ensures var (x, q) := (Opening(s, c, turns), OpeningPast(s, c, p));
      Safe(s, hash, disk, span, x, q, target) && Reported(p, q, x.files, x.issues) && ActiveMet(s, x.cursor, q)
  {
    var q := OpeningPast(s, c, p);
    forall i | 0 <= i < |c.frames| ensures TrailMet(q, c.frames[i].place, q.trails[i], Above(c.frames, i)) {
      StillMet(p, q, c.frames[i].place, p.trails[i], Above(c.frames, i), Above(c.frames, i));
    }
    forall place | place in q.finished ensures ListingMet(q, place, q.finished[place]) {
      var l := q.finished[place];
      StillMet(p, q, place, Trail(l.entries, l.metAt), None, None);
    }
  }

  /** What a page is given with its cursor, and what it hands on with the next one. */
  ghost predicate InCustody(s: Source, hash: Hash, disk: Disk, span: iset<nat>, c: Cursor, p: Past, target: Place) {
    CursorSafe(s, hash, disk, span, c, p, target) && ActiveMet(s, c, p)
  }

  /** What a page adds to the past. */
  function PagePast(s: Source, hash: Hash, disk: Disk, c: Cursor, request: Request, p: Past): Past {
    var (x, q) := (Opening(s, c, request.turns), OpeningPast(s, c, p));
    if |q.trails| == |x.cursor.frames| then RunPast(s, hash, disk, x, Limit(request.capacity), q) else q
  }

  /** A page's cursor, or the last one of a complete scan, keeps custody. */
  lemma PageSafe(s: Source, hash: Hash, disk: Disk, span: iset<nat>, start: Option<Cursor>, request: Request, page: Page, p: Past,
                 target: Place)
      returns (c: Cursor)
    requires Distinguishes(s, hash, disk, span) && Answered(s, hash, disk, start, request, page) && Turns(span, request.turns, ENTRY_BUDGET)
    requires InCustody(s, hash, disk, span, DecodeCursor(s, start).value, p, target)
    ensures var q := PagePast(s, hash, disk, DecodeCursor(s, start).value, request, p);
      InCustody(s, hash, disk, span, c, q, target) && Reported(p, q, page.files, page.issues)
    ensures c.retry == DecodeCursor(s, start).value.retry
    ensures page.complete <==> page.cursor.None?
    ensures if page.complete then Complete(s, c) else page.cursor == Some(c)
  {
    var from := DecodeCursor(s, start).value;
    var x := Opening(s, from, request.turns);
    OpeningSafe(s, hash, disk, span, from, p, target, request.turns);
    RunSafe(s, hash, disk, span, x, Limit(request.capacity), p, OpeningPast(s, from, p), target);
    c := Run(s, hash, disk, x, Limit(request.capacity)).value.cursor;
  }

  // ---- Rows of pages ----

  function EveryIssue(pages: seq<Page>): seq<Issue> {
    if pages == [] then [] else pages[0].issues + EveryIssue(pages[1..])
  }

  lemma ReportedOn(p: Past, q: Past, n: Past, page: Page, pages: seq<Page>)
    requires Reported(p, q, page.files, page.issues) && Reported(q, n, AllFiles(pages), EveryIssue(pages))
    ensures Reported(p, n, AllFiles([page] + pages), EveryIssue([page] + pages))
  {
    assert ([page] + pages)[1..] == pages;
    forall place { IssuesGrow(page.issues, EveryIssue(pages), place); }
  }

  lemma SinglePage(page: Page)
    ensures AllFiles([page]) == page.files && EveryIssue([page]) == page.issues && Last([page]) == page
  {
    assert [page][1..] == [];
    assert page.files + [] == page.files && page.issues + [] == page.issues;
  }

  /** What a row of pages leaves as its past. */
  function RowPast(s: Source, hash: Hash, disk: Disk, start: Option<Cursor>, requests: seq<Request>, pages: seq<Page>, p: Past): Past
    decreases |pages|
  {
    if pages == [] || requests == [] || DecodeCursor(s, start).Failure? then p
    else
      RowPast(s, hash, disk, pages[0].cursor, requests[1..], pages[1..],
              PagePast(s, hash, disk, DecodeCursor(s, start).value, requests[0], p))
  }

  /** The turns in which the pages may look at the disk. */
  ghost function Span(requests: seq<Request>): iset<nat> {
    iset n: nat | TurnOf(requests, n)
  }

  ghost predicate TurnOf(requests: seq<Request>, n: nat) {
    exists k :: 0 <= k < |requests| && requests[k].turns <= n < requests[k].turns + ENTRY_BUDGET
  }

  ghost predicate Spanned(span: iset<nat>, requests: seq<Request>) {
    forall k :: 0 <= k < |requests| ==> Turns(span, requests[k].turns, ENTRY_BUDGET)
  }

  lemma {:induction false} RowSafe(s: Source, hash: Hash, disk: Disk, span: iset<nat>, start: Option<Cursor>, requests: seq<Request>,
                                   pages: seq<Page>, p: Past, target: Place)
      returns (c: Cursor)
    requires Distinguishes(s, hash, disk, span) && InARow(s, hash, disk, start, requests, pages) && pages != [] && Spanned(span, requests)
    requires InCustody(s, hash, disk, span, DecodeCursor(s, start).value, p, target)
    ensures var q := RowPast(s, hash, disk, start, requests, pages, p);
      InCustody(s, hash, disk, span, c, q, target) && Reported(p, q, AllFiles(pages), EveryIssue(pages))
    ensures c.retry == DecodeCursor(s, start).value.retry
    ensures Last(pages).complete ==> Complete(s, c)
    decreases |pages|
  {
    var first := pages[0];
    c := PageSafe(s, hash, disk, span, start, requests[0], first, p, target);
    var m := PagePast(s, hash, disk, DecodeCursor(s, start).value, requests[0], p);
    if |pages| > 1 {
      var n := RowPast(s, hash, disk, first.cursor, requests[1..], pages[1..], m);
      SecondTaken(s, hash, disk, start, requests, pages);
      c := RowSafe(s, hash, disk, span, first.cursor, requests[1..], pages[1..], m, target);
      ReportedOn(p, m, n, first, pages[1..]);
      assert [first] + pages[1..] == pages && RowPast(s, hash, disk, start, requests, pages, p) == n;
    } else {
      SinglePage(first);
      assert pages == [first];
    }
  }

  /** What a scan answers for: its reports are true of the pages; of every finished directory each entry was met in a turn
      of the scan under one stamp, a transcript was reported, a directory in a collection was handled in turn, and the
      names are the whole of what one handle read under that stamp; every failed directory became an issue that starts
      it over. */
  ghost predicate Accounted(s: Source, disk: Disk, span: iset<nat>, p: Past, pages: seq<Page>) {
    && (forall f :: f in p.files ==> f in AllFiles(pages))
    && (forall place :: place in p.failed ==> IssueFor(EveryIssue(pages), place))
    && ListingsTrue(s, disk, span, p.finished) && ListingsMet(p)
  }

  const NO_PAST := Past({}, {}, map[], [], map[])

  function ScanPast(s: Source, hash: Hash, disk: Disk, requests: seq<Request>, pages: seq<Page>): Past {
    RowPast(s, hash, disk, None, requests, pages, NO_PAST)
  }

  function RetryPast(s: Source, hash: Hash, disk: Disk, issue: Issue, requests: seq<Request>, pages: seq<Page>): Past {
    RowPast(s, hash, disk, Some(issue.retryCursor), requests, pages, NO_PAST.(trails := [NO_TRAIL]))
  }

  /** However the directories change while it goes on, a scan that says it is complete has handled every seed and
      reported the active session's file. */
  lemma NoSilentOmission(s: Source, hash: Hash, disk: Disk, requests: seq<Request>, pages: seq<Page>)
    requires Distinguishes(s, hash, disk, Span(requests)) && InARow(s, hash, disk, None, requests, pages) && pages != [] && Last(pages).complete
    ensures var p := ScanPast(s, hash, disk, requests, pages);
      && Accounted(s, disk, Span(requests), p, pages)
      && (forall k :: 0 <= k < |Seeds(s)| ==> Handled(p, Seeds(s)[k]))
      && (s.sessionFile.Some? ==> s.sessionFile.value in p.files)
  {
    var c := RowSafe(s, hash, disk, Span(requests), None, requests, pages, NO_PAST, Place([], Files));
  }

  /** Spelled out for one subdirectory: met as a directory in a finished collection, it was finished itself or became an
      issue that starts it over. */
  lemma SubdirectoriesHandled(s: Source, hash: Hash, disk: Disk, requests: seq<Request>, pages: seq<Page>, root: Place, i: nat)
    requires Distinguishes(s, hash, disk, Span(requests)) && InARow(s, hash, disk, None, requests, pages) && pages != [] && Last(pages).complete
    requires var p := ScanPast(s, hash, disk, requests, pages);
      root.kind == Collection && root in p.finished && i < |p.finished[root].entries| && p.finished[root].entries[i].directory
    ensures var p := ScanPast(s, hash, disk, requests, pages);
      var child := Place(root.directory + [p.finished[root].entries[i].name], Files);
      child in p.finished || IssueFor(EveryIssue(pages), child)
  {
    NoSilentOmission(s, hash, disk, requests, pages);
    var p := ScanPast(s, hash, disk, requests, pages);
    assert ListingMet(p, root, p.finished[root]);
    assert EntryMet(p, root, p.finished[root].entries[i], None);
  }

  /** A retry that says it is complete has finished the directory it is about. */
  lemma RetryFinishes(s: Source, hash: Hash, disk: Disk, issue: Issue, requests: seq<Request>, pages: seq<Page>)
    requires Distinguishes(s, hash, disk, Span(requests)) && RestartsAlone(s, issue) && Accepts(s, issue.retryCursor)
    requires InARow(s, hash, disk, Some(issue.retryCursor), requests, pages) && pages != [] && Last(pages).complete
    ensures var p := RetryPast(s, hash, disk, issue, requests, pages);
      Accounted(s, disk, Span(requests), p, pages) && issue.retryCursor.frames[0].place in p.finished
  {
    var place := issue.retryCursor.frames[0].place;
    var from := NO_PAST.(trails := [NO_TRAIL]);
    var c := RowSafe(s, hash, disk, Span(requests), Some(issue.retryCursor), requests, pages, from, place);
  }
}
