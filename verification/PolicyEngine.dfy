/** A mutable list of policies, in which the longest covering pattern decides. */
module PolicyEngine {
  import opened Options
  import opened PolicyScope
  import opened PolicyTypes

  // ---- The contents ----

  datatype Match = Match(pattern: Path, status: Status)

  predicate Applies(p: Policy, uri: Path, a: Access) {
    a in p.info && Covers(p.pattern, uri)
  }

  /** The first policy with the longest covering pattern that says something about the access. */
  function Best(ps: seq<Policy>, uri: Path, a: Access): Option<Match> {
    if ps == [] then None
    else Better(Best(ps[..|ps| - 1], uri, a), ps[|ps| - 1], uri, a)
  }

  function Better(m: Option<Match>, p: Policy, uri: Path, a: Access): Option<Match> {
    if Applies(p, uri, a) && (m.None? || TextLength(p.pattern) > TextLength(m.value.pattern))
    then Some(Match(p.pattern, p.info[a])) else m
  }

  function Evaluate(ps: seq<Policy>, uri: Path, a: Access): Option<Verdict> {
    var m := Best(ps, uri, a);
    if m.None? then None else Some(Verdict(uri, a, m.value.pattern, m.value.status, ExistingUserPolicy))
  }

  function AddOne(ps: seq<Policy>, p: Policy): seq<Policy> {
    if ps == [] then [p]
    else if ps[0].pattern == p.pattern then [ps[0].(info := ps[0].info + p.info)] + ps[1..]
    else [ps[0]] + AddOne(ps[1..], p)
  }

  function Add(ps: seq<Policy>, more: seq<Policy>): seq<Policy>
    decreases |more|
  {
    if more == [] then ps else Add(AddOne(ps, more[0]), more[1..])
  }

  function RemoveOne(ps: seq<Policy>, pattern: Path, accesses: set<Access>): seq<Policy> {
    if ps == [] then []
    else if ps[0].pattern == pattern then
      if ps[0].info - accesses == map[] then ps[1..] else [ps[0].(info := ps[0].info - accesses)] + ps[1..]
    else [ps[0]] + RemoveOne(ps[1..], pattern, accesses)
  }

  // ---- What the contents mean ----

  ghost predicate Distinct(ps: seq<Policy>) {
    forall i, j :: 0 <= i < j < |ps| ==> ps[i].pattern != ps[j].pattern
  }

  /** The status stored for one pattern and access. */
  function StatusAt(ps: seq<Policy>, pattern: Path, a: Access): Option<Status> {
    if ps == [] then None
    else if ps[0].pattern == pattern then (if a in ps[0].info then Some(ps[0].info[a]) else None)
    else StatusAt(ps[1..], pattern, a)
  }

  /** The reference meaning of a lookup: walk from the target towards the root and stop at the first
      scope for which something is stored. */
  function Nearest(ps: seq<Policy>, uri: Path, a: Access): Option<Match>
    decreases |uri|
  {
    if StatusAt(ps, uri, a).Some? then Some(Match(uri, StatusAt(ps, uri, a).value))
    else if uri == [] then None
    else Nearest(ps, uri[..|uri| - 1], a)
  }

  lemma {:induction false} StatusIn(ps: seq<Policy>, i: nat, a: Access)
    requires Distinct(ps) && i < |ps|
    ensures StatusAt(ps, ps[i].pattern, a) == if a in ps[i].info then Some(ps[i].info[a]) else None
  {
    if i > 0 {
      StatusIn(ps[1..], i - 1, a);
    }
  }

  lemma {:induction false} StatusFrom(ps: seq<Policy>, pattern: Path, a: Access) returns (i: nat)
    requires StatusAt(ps, pattern, a).Some?
    ensures i < |ps| && ps[i].pattern == pattern && a in ps[i].info && StatusAt(ps, pattern, a).value == ps[i].info[a]
  {
    if ps[0].pattern == pattern {
      i := 0;
    } else {
      i := StatusFrom(ps[1..], pattern, a);
      i := i + 1;
    }
  }

  ghost predicate IsLongest(ps: seq<Policy>, uri: Path, a: Access, m: Match, i: nat)
    requires i < |ps|
  {
    && Applies(ps[i], uri, a) && m == Match(ps[i].pattern, ps[i].info[a])
    && forall j :: 0 <= j < |ps| && Applies(ps[j], uri, a) ==> TextLength(ps[j].pattern) <= TextLength(m.pattern)
  }

  ghost predicate NoneApplies(ps: seq<Policy>, uri: Path, a: Access) {
    forall j :: 0 <= j < |ps| ==> !Applies(ps[j], uri, a)
  }

  lemma {:induction false} BestIsLongest(ps: seq<Policy>, uri: Path, a: Access) returns (i: nat)
    ensures var m := Best(ps, uri, a);
      if m.None? then NoneApplies(ps, uri, a) else i < |ps| && IsLongest(ps, uri, a, m.value, i)
  {
    i := 0;
    if ps != [] {
      var n := |ps| - 1;
      i := BestIsLongest(ps[..n], uri, a);
      var before := Best(ps[..n], uri, a);
      if Better(before, ps[n], uri, a) != before {
        i := n;
      }
      forall j | 0 <= j < |ps| && Applies(ps[j], uri, a)
        ensures Best(ps, uri, a).Some? && TextLength(ps[j].pattern) <= TextLength(Best(ps, uri, a).value.pattern)
      {
        if j < n {
          assert ps[..n][j] == ps[j];
        }
      }
    }
  }

  lemma {:induction false} NearestIsDeepest(ps: seq<Policy>, uri: Path, a: Access)
    ensures var m := Nearest(ps, uri, a);
      && (m.Some? ==> m.value.pattern <= uri && StatusAt(ps, m.value.pattern, a) == Some(m.value.status))
      && (forall q :: q <= uri && StatusAt(ps, q, a).Some? ==> m.Some? && |q| <= |m.value.pattern|)
    decreases |uri|
  {
    if StatusAt(ps, uri, a).None? && uri != [] {
      var up := uri[..|uri| - 1];
      NearestIsDeepest(ps, up, a);
      forall q | q <= uri && StatusAt(ps, q, a).Some?
        ensures Nearest(ps, uri, a).Some? && |q| <= |Nearest(ps, uri, a).value.pattern|
      {
        assert q != uri && q <= up;
      }
      assert Nearest(ps, uri, a).Some? ==> Nearest(ps, uri, a).value.pattern <= uri;
    }
  }

  /** The longest pattern in text is the nearest scope: the loop computes the reference meaning. */
  lemma BestIsNearest(ps: seq<Policy>, uri: Path, a: Access)
    requires Distinct(ps)
    ensures Best(ps, uri, a) == Nearest(ps, uri, a)
  {
    var i := BestIsLongest(ps, uri, a);
    NearestIsDeepest(ps, uri, a);
    var best, nearest := Best(ps, uri, a), Nearest(ps, uri, a);
    if best.Some? {
      CoversIsPrefix(ps[i].pattern, uri);
      StatusIn(ps, i, a);
      var j := StatusFrom(ps, nearest.value.pattern, a);
      CoversIsPrefix(ps[j].pattern, uri);
      assert Applies(ps[j], uri, a);
      if ps[i].pattern != ps[j].pattern {
        PrefixesCompare(ps[i].pattern, ps[j].pattern, uri);
        DeeperIsLonger(ps[i].pattern, ps[j].pattern);
      }
    } else if nearest.Some? {
      var j := StatusFrom(ps, nearest.value.pattern, a);
      CoversIsPrefix(ps[j].pattern, uri);
      assert Applies(ps[j], uri, a);
    }
  }

  lemma PrefixesCompare(p: Path, q: Path, uri: Path)
    requires p <= uri && q <= uri && |p| <= |q|
    ensures p <= q
  {
    assert p == uri[..|p|] && q == uri[..|q|];
  }

  // ---- Changing the contents ----

  ghost predicate Mentions(ps: seq<Policy>, pattern: Path) {
    exists j :: 0 <= j < |ps| && ps[j].pattern == pattern
  }

  lemma {:induction false} AddOneDistinct(ps: seq<Policy>, p: Policy)
    requires Distinct(ps)
    ensures Distinct(AddOne(ps, p))
    ensures forall k :: 0 <= k < |AddOne(ps, p)| ==>
      AddOne(ps, p)[k].pattern == p.pattern || Mentions(ps, AddOne(ps, p)[k].pattern)
  {
    if ps != [] && ps[0].pattern != p.pattern {
      AddOneDistinct(ps[1..], p);
      TailMentions(ps);
    }
  }

  lemma TailMentions(ps: seq<Policy>)
    requires ps != []
    ensures forall q :: Mentions(ps, q) <==> ps[0].pattern == q || Mentions(ps[1..], q)
  {
    forall q | Mentions(ps, q) && ps[0].pattern != q ensures Mentions(ps[1..], q) {
      var j :| 0 <= j < |ps| && ps[j].pattern == q;
      assert ps[1..][j - 1].pattern == q;
    }
    forall q | Mentions(ps[1..], q) ensures Mentions(ps, q) {
      var j :| 0 <= j < |ps[1..]| && ps[1..][j].pattern == q;
      assert ps[j + 1].pattern == q;
    }
  }

  lemma {:induction false} AddOneMeaning(ps: seq<Policy>, p: Policy, pattern: Path, a: Access)
    requires Distinct(ps)
    ensures StatusAt(AddOne(ps, p), pattern, a) ==
      if pattern == p.pattern && a in p.info then Some(p.info[a]) else StatusAt(ps, pattern, a)
  {
    if ps != [] && ps[0].pattern != p.pattern {
      AddOneMeaning(ps[1..], p, pattern, a);
    }
  }

  lemma {:induction false} RemoveOneMentions(ps: seq<Policy>, removed: Path, accesses: set<Access>, q: Path)
    requires Mentions(RemoveOne(ps, removed, accesses), q)
    ensures Mentions(ps, q)
  {
    if ps != [] {
      TailMentions(ps);
      var after := RemoveOne(ps, removed, accesses);
      if ps[0].pattern != removed {
        TailMentions(after);
        if ps[0].pattern != q {
          assert after[1..] == RemoveOne(ps[1..], removed, accesses);
          RemoveOneMentions(ps[1..], removed, accesses, q);
        }
      } else if ps[0].info - accesses != map[] {
        TailMentions(after);
        assert after[1..] == ps[1..];
      }
    }
  }

  lemma {:induction false} RemoveOneDistinct(ps: seq<Policy>, removed: Path, accesses: set<Access>)
    requires Distinct(ps)
    ensures Distinct(RemoveOne(ps, removed, accesses))
  {
    if ps != [] && ps[0].pattern != removed {
      var rest := RemoveOne(ps[1..], removed, accesses);
      RemoveOneDistinct(ps[1..], removed, accesses);
      forall k | 0 <= k < |rest| ensures rest[k].pattern != ps[0].pattern {
        assert Mentions(rest, rest[k].pattern);
        RemoveOneMentions(ps[1..], removed, accesses, rest[k].pattern);
        var j :| 0 <= j < |ps[1..]| && ps[1..][j].pattern == rest[k].pattern;
        assert ps[j + 1].pattern == rest[k].pattern;
      }
    }
  }

  /** Removal forgets exactly the given accesses of the pattern. */
  lemma {:induction false} RemoveOneMeaning(ps: seq<Policy>, removed: Path, accesses: set<Access>, pattern: Path, a: Access)
    requires Distinct(ps)
    ensures StatusAt(RemoveOne(ps, removed, accesses), pattern, a) ==
      if pattern == removed && a in accesses then None else StatusAt(ps, pattern, a)
  {
    if ps != [] {
      if ps[0].pattern == removed {
        if a in ps[0].info && a !in accesses {
          assert a in ps[0].info - accesses;
        }
        NoStatusWithout(ps[1..], removed, a);
      } else {
        RemoveOneMeaning(ps[1..], removed, accesses, pattern, a);
      }
    }
  }

  lemma {:induction false} NoStatusWithout(ps: seq<Policy>, pattern: Path, a: Access)
    requires forall i :: 0 <= i < |ps| ==> ps[i].pattern != pattern
    ensures StatusAt(ps, pattern, a).None?
  {
    if ps != [] {
      NoStatusWithout(ps[1..], pattern, a);
    }
  }

  // ---- The engine ----

  lemma {:induction false} AddOneInPlace(ps: seq<Policy>, p: Policy, i: nat)
    requires i <= |ps| && forall j :: 0 <= j < i ==> ps[j].pattern != p.pattern
    requires i < |ps| ==> ps[i].pattern == p.pattern
    ensures AddOne(ps, p) == if i < |ps| then ps[i := ps[i].(info := ps[i].info + p.info)] else ps + [p]
  {
    if i > 0 {
      AddOneInPlace(ps[1..], p, i - 1);
    }
  }

  lemma {:induction false} RemoveOneInPlace(ps: seq<Policy>, pattern: Path, accesses: set<Access>, i: nat)
    requires i <= |ps| && forall j :: 0 <= j < i ==> ps[j].pattern != pattern
    requires i < |ps| ==> ps[i].pattern == pattern
    ensures RemoveOne(ps, pattern, accesses) ==
      if i == |ps| then ps
      else if ps[i].info - accesses == map[] then ps[..i] + ps[i + 1..]
      else ps[i := ps[i].(info := ps[i].info - accesses)]
  {
    if i > 0 {
      RemoveOneInPlace(ps[1..], pattern, accesses, i - 1);
    }
  }

  class Engine {
    var policies: seq<Policy>

    constructor (initial: seq<Policy>)
      ensures policies == Add([], initial)
    {
      policies := [];
      new;
      AddPolicies(initial);
    }

    method Find(pattern: Path) returns (i: nat)
      ensures i <= |policies| && forall j :: 0 <= j < i ==> policies[j].pattern != pattern
      ensures i < |policies| ==> policies[i].pattern == pattern
    {
      i := 0;
      while i < |policies| && policies[i].pattern != pattern
        invariant i <= |policies| && forall j :: 0 <= j < i ==> policies[j].pattern != pattern
      {
        i := i + 1;
      }
    }

    method AddPolicies(more: seq<Policy>)
      modifies this
      ensures policies == Add(old(policies), more)
    {
      for k := 0 to |more|
        invariant Add(policies, more[k..]) == Add(old(policies), more)
      {
        var p := more[k];
        var i := Find(p.pattern);
        AddOneInPlace(policies, p, i);
        if i == |policies| {
          policies := policies + [p];
        } else {
          policies := policies[i := policies[i].(info := policies[i].info + p.info)];
        }
        assert more[k..][1..] == more[k + 1..];
      }
    }

    method RemovePolicies(pattern: Path, accesses: set<Access>)
      modifies this
      ensures policies == RemoveOne(old(policies), pattern, accesses)
    {
      var i := Find(pattern);
      RemoveOneInPlace(policies, pattern, accesses, i);
      if i < |policies| {
        var info := policies[i].info - accesses;
        if info == map[] {
          policies := policies[..i] + policies[i + 1..];
        } else {
          policies := policies[i := policies[i].(info := info)];
        }
      }
    }

    method EvaluateStored(uri: Path, a: Access) returns (v: Option<Verdict>)
      ensures v == Evaluate(policies, uri, a)
    {
      var found: Option<Match> := None;
      for i := 0 to |policies|
        invariant found == Best(policies[..i], uri, a)
      {
        assert policies[..i + 1][..i] == policies[..i];
        var p := policies[i];
        if a in p.info && Covers(p.pattern, uri) {
          if found.None? || TextLength(p.pattern) > TextLength(found.value.pattern) {
            found := Some(Match(p.pattern, p.info[a]));
          }
        }
      }
      assert policies[..|policies|] == policies;
      v := if found.None? then None
           else Some(Verdict(uri, a, found.value.pattern, found.value.status, ExistingUserPolicy));
    }
  }
}
