/** Reading a table in pages behind a key cursor while its rows come and go between pages. */
module JournalPaging {
  import opened Options
  import opened Uuids

  function Above(keys: set<nat>, cursor: Option<nat>): set<nat> {
    set k | k in keys && (cursor.Some? ==> k > cursor.value)
  }

  function Page(keys: set<nat>, cursor: Option<nat>, limit: nat): seq<nat> {
    var rows := Sorted(Above(keys, cursor));
    if |rows| > limit then rows[..limit] else rows
  }

  /** One row more than the page is read to see whether there is another page. */
  function NextCursor(keys: set<nat>, cursor: Option<nat>, limit: nat): Option<nat>
    requires limit > 0
  {
    if |Sorted(Above(keys, cursor))| > limit then Some(Page(keys, cursor, limit)[limit - 1]) else None
  }

  /** Page after page, each from the table as it then is, until no page follows. */
  function Enumerate(tables: seq<set<nat>>, cursor: Option<nat>, limit: nat): seq<nat>
    requires limit > 0
    decreases |tables|
  {
    if tables == [] then []
    else
      var page, next := Page(tables[0], cursor, limit), NextCursor(tables[0], cursor, limit);
      if next.None? then page else page + Enumerate(tables[1..], next, limit)
  }

  predicate Completes(tables: seq<set<nat>>, cursor: Option<nat>, limit: nat)
    requires limit > 0
    decreases |tables|
  {
    tables != [] &&
    var next := NextCursor(tables[0], cursor, limit);
    next.None? || Completes(tables[1..], next, limit)
  }

  lemma PageFacts(keys: set<nat>, cursor: Option<nat>, limit: nat)
    requires limit > 0
    ensures var page, next := Page(keys, cursor, limit), NextCursor(keys, cursor, limit);
      && Increasing(page)
      && (forall k :: k in page ==> k in keys && (cursor.Some? ==> k > cursor.value) && (next.Some? ==> k <= next.value))
      && (forall k :: k in Above(keys, cursor) ==> k in page || (next.Some? && k > next.value))
      && (next.Some? ==> cursor.Some? ==> next.value > cursor.value)
  {
    var rows, page := Sorted(Above(keys, cursor)), Page(keys, cursor, limit);
    forall k | k in page ensures k in rows { }
    forall k | k in Above(keys, cursor)
      ensures k in page || (|rows| > limit && k > page[limit - 1])
    {
      var i :| 0 <= i < |rows| && rows[i] == k;
      if i < |page| {
        assert page[i] == k;
      } else {
        assert rows[limit - 1] < rows[i];
      }
    }
    if |rows| > limit {
      assert page[limit - 1] in page;
    }
  }

  ghost predicate Beyond(k: nat, cursor: Option<nat>) {
    cursor.Some? ==> k > cursor.value
  }

  /** The row is in the table whenever a page is read. */
  ghost predicate Stays(k: nat, tables: seq<set<nat>>) {
    forall t :: t in tables ==> k in t
  }

  /** Rows arrive once and in order, and all of them come from the table. */
  lemma {:induction false} EnumerateOrdered(tables: seq<set<nat>>, cursor: Option<nat>, limit: nat)
    requires limit > 0
    ensures var rows := Enumerate(tables, cursor, limit);
      Increasing(rows) && forall k :: k in rows ==> Beyond(k, cursor) && exists t :: t in tables && k in t
    decreases |tables|
  {
    if tables != [] {
      var page, next := Page(tables[0], cursor, limit), NextCursor(tables[0], cursor, limit);
      PageFacts(tables[0], cursor, limit);
      assert tables[0] in tables;
      if next.Some? {
        EnumerateOrdered(tables[1..], next, limit);
        var later := Enumerate(tables[1..], next, limit);
        assert forall i :: 0 <= i < |later| ==> later[i] in later;
        assert forall i :: 0 <= i < |page| ==> page[i] in page;
      }
    }
  }

  /** No row that stays throughout is skipped: not even when the rows before the cursor, or the cursor's own
      row, are consumed between pages. */
  lemma {:induction false} EnumerateSkipsNothing(tables: seq<set<nat>>, cursor: Option<nat>, limit: nat, k: nat)
    requires limit > 0 && Completes(tables, cursor, limit) && Stays(k, tables) && Beyond(k, cursor)
    ensures k in Enumerate(tables, cursor, limit)
    decreases |tables|
  {
    var page, next := Page(tables[0], cursor, limit), NextCursor(tables[0], cursor, limit);
    PageFacts(tables[0], cursor, limit);
    assert k in Above(tables[0], cursor);
    if next.Some? && k !in page {
      EnumerateSkipsNothing(tables[1..], next, limit, k);
    }
  }

  // ---- Draining: the next page is asked for until one is not full ----

  /** Page after page, each from the table as it then is; a full page is followed by another, a shorter one by none.
      A key stands for its place in the order of profiles and, within a profile, of sessions. */
  function Drain(tables: seq<set<nat>>, cursor: Option<nat>, limit: nat): seq<nat>
    requires limit > 0
    decreases |tables|
  {
    if tables == [] then []
    else
      var page := Page(tables[0], cursor, limit);
      if |page| < limit then page else page + Drain(tables[1..], Some(page[limit - 1]), limit)
  }

  predicate DrainEnds(tables: seq<set<nat>>, cursor: Option<nat>, limit: nat)
    requires limit > 0
    decreases |tables|
  {
    tables != [] &&
    var page := Page(tables[0], cursor, limit);
    |page| < limit || DrainEnds(tables[1..], Some(page[limit - 1]), limit)
  }

  /** A page holds the first rows above its cursor, and a short one all of them. */
  lemma FullPageFacts(keys: set<nat>, cursor: Option<nat>, limit: nat)
    requires limit > 0
    ensures var page := Page(keys, cursor, limit);
      && |page| <= limit && Increasing(page)
      && (forall k :: k in page ==> k in Above(keys, cursor) && (|page| == limit ==> k <= page[limit - 1]))
      && (forall k :: k in Above(keys, cursor) ==> k in page || (|page| == limit && k > page[limit - 1]))
  {
    var rows, page := Sorted(Above(keys, cursor)), Page(keys, cursor, limit);
    forall k | k in page ensures k in rows { }
    forall k | k in Above(keys, cursor) ensures k in page || (|page| == limit && k > page[limit - 1]) {
      var i :| 0 <= i < |rows| && rows[i] == k;
      if i < |page| {
        assert page[i] == k;
      } else {
        assert rows[limit - 1] < rows[i];
      }
    }
  }

  /** Operations arrive once and in order, and all of them come from the table. */
  lemma {:induction false} DrainOrdered(tables: seq<set<nat>>, cursor: Option<nat>, limit: nat)
    requires limit > 0
    ensures var rows := Drain(tables, cursor, limit);
      Increasing(rows) && forall k :: k in rows ==> Beyond(k, cursor) && exists t :: t in tables && k in t
    decreases |tables|
  {
    if tables != [] {
      var page := Page(tables[0], cursor, limit);
      FullPageFacts(tables[0], cursor, limit);
      assert tables[0] in tables;
      if |page| == limit {
        DrainOrdered(tables[1..], Some(page[limit - 1]), limit);
        var later := Drain(tables[1..], Some(page[limit - 1]), limit);
        assert forall i :: 0 <= i < |later| ==> later[i] in later;
        assert forall i :: 0 <= i < |page| ==> page[i] in page;
      }
    }
  }

  /** No operation that stays pending throughout is skipped, even when those before it are accepted meanwhile. */
  lemma {:induction false} DrainSkipsNothing(tables: seq<set<nat>>, cursor: Option<nat>, limit: nat, k: nat)
    requires limit > 0 && DrainEnds(tables, cursor, limit) && Stays(k, tables) && Beyond(k, cursor)
    ensures k in Drain(tables, cursor, limit)
    decreases |tables|
  {
    var page := Page(tables[0], cursor, limit);
    FullPageFacts(tables[0], cursor, limit);
    assert k in Above(tables[0], cursor);
    if |page| == limit && k !in page {
      DrainSkipsNothing(tables[1..], Some(page[limit - 1]), limit, k);
    }
  }
}
