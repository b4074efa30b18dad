/** Identifiers and the sorted listing of a set of them. */
module Uuids {
  // A UUID is modelled by its numeric value: on fixed-width lower-case hexadecimal text the
  // lexicographic order is the numeric order.
  type Uuid = nat

  ghost predicate Increasing(ids: seq<Uuid>) {
    forall i, j :: 0 <= i < j < |ids| ==> ids[i] < ids[j]
  }

  predicate IsLeast(m: Uuid, s: set<Uuid>) {
    m in s && forall x :: x in s ==> m <= x
  }

  lemma {:induction false} LeastExists(s: set<Uuid>) returns (m: Uuid)
    requires s != {}
    ensures IsLeast(m, s)
    decreases s
  {
    var e :| e in s;
    m := e;
    if s - {e} != {} {
      var rest := LeastExists(s - {e});
      m := if e < rest then e else rest;
    }
    forall x | x in s ensures m <= x {
      assert x == e || x in s - {e};
    }
  }

  /** The elements of a set in increasing order. */
  function Sorted(s: set<Uuid>): (ids: seq<Uuid>)
    ensures Increasing(ids)
    ensures forall x :: x in ids <==> x in s
  {
    if s == {} then []
    else
      assert exists m :: IsLeast(m, s) by { var m := LeastExists(s); }
      var m :| IsLeast(m, s);
      [m] + Sorted(s - {m})
  }

  lemma SortedHead(m: Uuid, s: set<Uuid>)
    requires IsLeast(m, s)
    ensures Sorted(s) == [m] + Sorted(s - {m})
  {
    assert forall n :: IsLeast(n, s) ==> n == m;
  }

  lemma TailMembers(ids: seq<Uuid>, s: set<Uuid>)
    requires ids != [] && Increasing(ids) && forall x :: x in ids <==> x in s
    ensures forall x :: x in ids[1..] <==> x in s - {ids[0]}
  {
    assert ids == [ids[0]] + ids[1..];
  }

  lemma {:induction false} SortedUnique(ids: seq<Uuid>, s: set<Uuid>)
    requires Increasing(ids) && forall x :: x in ids <==> x in s
    ensures ids == Sorted(s)
    decreases |ids|
  {
    if ids == [] {
      assert s == {};
    } else {
      assert ids[0] in s && IsLeast(ids[0], s);
      TailMembers(ids, s);
      SortedUnique(ids[1..], s - {ids[0]});
      SortedHead(ids[0], s);
    }
  }

  lemma WithoutNext(kept: seq<Uuid>, rest: seq<Uuid>)
    requires rest != [] && Increasing(kept + rest)
    ensures Increasing(kept + rest[1..])
    ensures forall id :: id in kept + rest[1..] <==> id in kept + rest && id != rest[0]
  {
    var all, fewer, n := kept + rest, kept + rest[1..], |kept|;
    assert forall i :: 0 <= i < |fewer| ==> fewer[i] == all[if i < n then i else i + 1];
    assert all[n] == rest[0];
    forall id ensures id in fewer <==> id in all && id != rest[0] {
      if id in all && id != rest[0] {
        var i :| 0 <= i < |all| && all[i] == id;
        assert fewer[if i < n then i else i - 1] == id;
      }
      if id in fewer {
        var i :| 0 <= i < |fewer| && fewer[i] == id;
        assert all[if i < n then i else i + 1] == id;
      }
    }
  }
}
