/** The serial benchmark order: shuffled cases, each with its own cyclic Latin square of strategies. */
module BenchmarkSchedule {
  import opened Options

  datatype Trial = Trial(caseId: string, strategyId: string, repetition: nat)

  datatype ScheduleError = InvalidIds | InvalidRepetitions | InvalidSeed

  const MAX_SAFE_INTEGER := 9007199254740991

  /** A number that is an integer and exact as such; `None` is one that is not finite. */
  predicate SafeInteger(n: Option<real>) {
    n.Some? && n.value.Floor as real == n.value && -MAX_SAFE_INTEGER <= n.value.Floor <= MAX_SAFE_INTEGER
  }

  // ---- Random draws ----

  const TWO_32: nat := 4294967296

  /** The generator's state after one draw more. */
  function Stepped(state: bv32): bv32 {
    state + 0x6D2B79F5
  }

  /** The draw that belongs to a state: an unsigned 32-bit numerator. */
  function Mixed(state: bv32): (draw: nat)
    ensures draw < TWO_32
  {
    var x := (state ^ (state >> 15)) * (state | 1);
    var y := x ^ (x + (x ^ (x >> 7)) * (x | 61));
    (y ^ (y >> 14)) as nat
  }

  /** The first draws of the seeds 0, 1 and 42. */
  lemma FirstDraws()
    ensures Mixed(Stepped(0)) == 1144304738
    ensures Mixed(Stepped(1)) == 2693262067
    ensures Mixed(Stepped(42)) == 2581720956
  {
  }

  /** The position among the first `count` that a draw selects. */
  function Scaled(draw: nat, count: nat): (j: nat)
    requires draw < TWO_32 && count > 0
    ensures j < count
  {
    ScaledBelow(draw, count);
    draw * count / TWO_32
  }

  /** The seeded generator. */
  class Random {
    var state: bv32

    constructor (seed: int)
      ensures state == Seeded(seed)
    {
      state := (seed % TWO_32) as bv32;
    }

    method Draw() returns (draw: nat)
      modifies this
      ensures state == Stepped(old(state)) && draw == Mixed(state)
    {
      state := Stepped(state);
      draw := Mixed(state);
    }
  }

  lemma ScaledBelow(draw: nat, count: nat)
    requires draw < TWO_32 && count > 0
    ensures 0 <= draw * count / TWO_32 < count
  {
    Scale(draw, TWO_32 - 1, count);
    assert draw * count < TWO_32 * count;
  }

  lemma Scale(a: nat, b: nat, c: nat)
    requires a <= b
    ensures a * c <= b * c
  {
  }

  /** Every position can be selected. */
  lemma ScaledOnto(j: nat, count: nat) returns (draw: nat)
    requires j < count <= TWO_32
    ensures draw < TWO_32 && Scaled(draw, count) == j
  {
    var top := j * TWO_32 + count - 1;
    draw := top / count;
    assert draw * count <= top < draw * count + count;
    Scale(j + 1, count, TWO_32);
    if draw >= TWO_32 {
      Scale(TWO_32, draw, count);
    }
    QuotientOf(draw * count, TWO_32, j, draw * count - j * TWO_32);
  }

  // ---- Shuffles ----

  function Swapped<T>(s: seq<T>, i: nat, j: nat): (r: seq<T>)
    requires i < |s| && j < |s|
    ensures |r| == |s|
  {
    seq(|s|, k requires 0 <= k < |s| => if k == i then s[j] else if k == j then s[i] else s[k])
  }

  lemma SwapKeeps<T>(s: seq<T>, i: nat, j: nat)
    requires i < |s| && j < |s|
    ensures multiset(Swapped(s, i, j)) == multiset(s)
  {
    assert Swapped(s, i, j) == s[i := s[j]][j := s[i]];
  }

  /** From the last position down, each pick is one of the positions up to there. */
  predicate Picks(n: nat, picks: seq<nat>) {
    && (picks != [] ==> |picks| < n)
    && forall k :: 0 <= k < |picks| ==> picks[k] < n - k
  }

  /** The order after the first `m` picks: each has changed places with the position it was made for. */
  function Exchanged<T>(s: seq<T>, picks: seq<nat>, m: nat): (r: seq<T>)
    requires Picks(|s|, picks) && m <= |picks|
    ensures |r| == |s|
  {
    if m == 0 then s else Swapped(Exchanged(s, picks, m - 1), |s| - m, picks[m - 1])
  }

  /** The picks that the generator makes from a state on. */
  function Drawn(state: bv32, n: nat, m: nat): (picks: seq<nat>)
    requires m == 0 || m < n
    ensures |picks| == m && Picks(n, picks)
  {
    seq(m, k requires 0 <= k < m => Scaled(Mixed(Advanced(state, k + 1)), n - k))
  }

  function Advanced(state: bv32, m: nat): bv32 {
    if m == 0 then state else Stepped(Advanced(state, m - 1))
  }

  function Last(n: nat): nat {
    if n == 0 then 0 else n - 1
  }

  /** The order after as many draws of the generator. */
  function Stirred<T>(s: seq<T>, state: bv32, m: nat): (r: seq<T>)
    requires m == 0 || m < |s|
    ensures |r| == |s|
  {
    if m == 0 then s
    else Swapped(Stirred(s, state, m - 1), |s| - m, Scaled(Mixed(Advanced(state, m)), |s| - m + 1))
  }

  /** The shuffled order as the seeded generator makes it. */
  function Shuffle<T>(s: seq<T>, state: bv32): (r: seq<T>)
    ensures |r| == |s|
  {
    Stirred(s, state, Last(|s|))
  }

  lemma {:induction false} ExchangedKeeps<T>(s: seq<T>, picks: seq<nat>, m: nat)
    requires Picks(|s|, picks) && m <= |picks|
    ensures multiset(Exchanged(s, picks, m)) == multiset(s)
  {
    if m > 0 {
      ExchangedKeeps(s, picks, m - 1);
      SwapKeeps(Exchanged(s, picks, m - 1), |s| - m, picks[m - 1]);
    }
  }

  lemma {:induction false} SamePicks<T>(s: seq<T>, p: seq<nat>, q: seq<nat>, m: nat)
    requires Picks(|s|, p) && Picks(|s|, q) && m <= |p| && m <= |q| && forall k :: 0 <= k < m ==> p[k] == q[k]
    ensures Exchanged(s, p, m) == Exchanged(s, q, m)
  {
    if m > 0 {
      SamePicks(s, p, q, m - 1);
    }
  }

  /** Later picks leave alone what stands behind them. */
  lemma {:induction false} ExchangedBehind<T>(s: seq<T>, picks: seq<nat>, m: nat, later: nat, i: nat)
    requires Picks(|s|, picks) && m <= later <= |picks| && |s| - m <= i < |s|
    ensures Exchanged(s, picks, later)[i] == Exchanged(s, picks, m)[i]
    decreases later
  {
    if m < later {
      ExchangedBehind(s, picks, m, later - 1, i);
    }
  }

  /** Some picks bring any order about. */
  lemma {:induction false} OrderReached(s: seq<string>, t: seq<string>, m: nat) returns (picks: seq<nat>)
    requires multiset(s) == multiset(t) && |t| == |s| && (m == 0 || m < |s|)
    ensures |picks| == m && Picks(|s|, picks)
    ensures Exchanged(s, picks, m)[|s| - m..] == t[|s| - m..]
    decreases m
  {
    picks := [];
    if m > 0 {
      var before := OrderReached(s, t, m - 1);
      var u := Exchanged(s, before, m - 1);
      ExchangedKeeps(s, before, m - 1);
      var j := NextPick(u, t, |s| - m);
      picks := before + [j];
      SamePicks(s, picks, before, m - 1);
    }
  }

  /** The pick that puts the right value in one place more. */
  lemma NextPick(u: seq<string>, t: seq<string>, i: nat) returns (j: nat)
    requires multiset(u) == multiset(t) && i < |u| == |t| && u[i + 1..] == t[i + 1..]
    ensures j <= i && Swapped(u, i, j)[i..] == t[i..]
  {
    HeadsMatch(u, t, i + 1);
    assert t[..i + 1][i] in multiset(t[..i + 1]);
    j :| 0 <= j < i + 1 && u[..i + 1][j] == t[i];
    var v := Swapped(u, i, j);
    forall k | i <= k < |u| ensures v[k] == t[k] {
      if k > i {
        assert u[k] == u[i + 1..][k - i - 1] && t[k] == t[i + 1..][k - i - 1];
      }
    }
  }

  lemma HeadsMatch(u: seq<string>, t: seq<string>, n: nat)
    requires multiset(u) == multiset(t) && n <= |u| == |t| && u[n..] == t[n..]
    ensures multiset(u[..n]) == multiset(t[..n])
  {
    assert u == u[..n] + u[n..] && t == t[..n] + t[n..];
    assert multiset(u) == multiset(u[..n]) + multiset(u[n..]) && multiset(t) == multiset(t[..n]) + multiset(t[n..]);
    assert multiset(u[..n]) == multiset(u) - multiset(u[n..]);
  }

  /** Different picks make different orders. */
  lemma {:induction false} PicksDiffer(s: seq<string>, p: seq<nat>, q: seq<nat>, m: nat)
    requires Unique(s) && Picks(|s|, p) && Picks(|s|, q) && |p| == |q| && m <= |p|
    requires Exchanged(s, p, |p|) == Exchanged(s, q, |q|)
    ensures forall k :: 0 <= k < m ==> p[k] == q[k]
    decreases m
  {
    if m > 0 {
      PicksDiffer(s, p, q, m - 1);
      SamePicks(s, p, q, m - 1);
      var u, i := Exchanged(s, p, m - 1), |s| - m;
      ExchangedBehind(s, p, m, |p|, i);
      ExchangedBehind(s, q, m, |q|, i);
      assert u[p[m - 1]] == u[q[m - 1]];
      ExchangedKeeps(s, p, m - 1);
      PermutedUnique(s, u);
    }
  }

  lemma OnlyHeadLeft(u: seq<string>, t: seq<string>)
    requires multiset(u) == multiset(t) && |u| == |t| && (u != [] ==> u[1..] == t[1..])
    ensures u == t
  {
    if u != [] {
      HeadsMatch(u, t, 1);
      assert u[..1] == [u[0]] && t[..1] == [t[0]];
      assert multiset([u[0]])[t[0]] == 1;
      assert u == u[..1] + u[1..] && t == t[..1] + t[1..];
    }
  }

  lemma OrderMade(s: seq<string>, t: seq<string>) returns (picks: seq<nat>)
    requires multiset(s) == multiset(t)
    ensures |picks| == Last(|s|) && Picks(|s|, picks) && Exchanged(s, picks, |picks|) == t
  {
    assert |multiset(s)| == |s| && |multiset(t)| == |t|;
    picks := OrderReached(s, t, Last(|s|));
    ExchangedKeeps(s, picks, |picks|);
    OnlyHeadLeft(Exchanged(s, picks, |picks|), t);
  }

  /** Among distinct values every order comes from exactly one row of picks. */
  lemma EveryOrderOnce(s: seq<string>, t: seq<string>) returns (picks: seq<nat>)
    requires Unique(s) && multiset(s) == multiset(t)
    ensures |picks| == Last(|s|) && Picks(|s|, picks) && Exchanged(s, picks, |picks|) == t
    ensures forall other :: |other| == |picks| && Picks(|s|, other) && Exchanged(s, other, |other|) == t ==> other == picks
  {
    picks := OrderMade(s, t);
    forall other | |other| == |picks| && Picks(|s|, other) && Exchanged(s, other, |other|) == t ensures other == picks {
      PicksDiffer(s, picks, other, |picks|);
    }
  }

  lemma DrawnAt(state: bv32, n: nat, m: nat, k: nat)
    requires (m == 0 || m < n) && k < m
    ensures Drawn(state, n, m)[k] == Scaled(Mixed(Advanced(state, k + 1)), n - k)
  {
  }

  lemma {:induction false} StirredByPicks<T>(s: seq<T>, state: bv32, picks: seq<nat>, k: nat)
    requires Picks(|s|, picks) && k <= |picks|
    requires forall i :: 0 <= i < k ==> picks[i] == Scaled(Mixed(Advanced(state, i + 1)), |s| - i)
    ensures Stirred(s, state, k) == Exchanged(s, picks, k)
  {
    if k > 0 {
      StirredByPicks(s, state, picks, k - 1);
    }
  }

  /** A shuffle is made by the picks that are drawn. */
  lemma ShuffleByPicks<T>(s: seq<T>, state: bv32)
    ensures Shuffle(s, state) == Exchanged(s, Drawn(state, |s|, Last(|s|)), Last(|s|))
  {
    forall i | 0 <= i < Last(|s|)
      ensures Drawn(state, |s|, Last(|s|))[i] == Scaled(Mixed(Advanced(state, i + 1)), |s| - i)
    {
      DrawnAt(state, |s|, Last(|s|), i);
    }
    StirredByPicks(s, state, Drawn(state, |s|, Last(|s|)), Last(|s|));
  }

  lemma ShuffleKeeps<T>(s: seq<T>, state: bv32)
    ensures multiset(Shuffle(s, state)) == multiset(s)
  {
    ShuffleByPicks(s, state);
    ExchangedKeeps(s, Drawn(state, |s|, Last(|s|)), Last(|s|));
  }

  method SwapInPlace<T>(a: array<T>, i: nat, j: nat)
    requires i < a.Length && j < a.Length
    modifies a
    ensures a[..] == Swapped(old(a[..]), i, j)
  {
    a[i], a[j] := a[j], a[i];
  }

  /** One turn of the shuffle: position `i` changes places with a random one up to it. */
  method StirOnce<T>(a: array<T>, i: nat, random: Random, ghost values: seq<T>, ghost start: bv32, ghost m: nat)
    requires 0 < i < a.Length == |values| && i + m + 1 == |values|
    requires random.state == Advanced(start, m) && a[..] == Stirred(values, start, m)
    modifies a, random
    ensures random.state == Advanced(start, m + 1) && a[..] == Stirred(values, start, m + 1)
  {
    var draw := random.Draw();
    SwapInPlace(a, i, Scaled(draw, i + 1));
  }

  method Shuffled<T>(values: seq<T>, random: Random) returns (result: seq<T>)
    modifies random
    ensures result == Shuffle(values, old(random.state))
    ensures random.state == Advanced(old(random.state), Last(|values|))
  {
    var a := new T[|values|](i requires 0 <= i < |values| => values[i]);
    assert a[..] == values;
    var i := a.Length;
    ghost var m := 0;
    while i > 1
      invariant i + m == a.Length && (m == 0 || m < a.Length)
      invariant random.state == Advanced(old(random.state), m)
      invariant a[..] == Stirred(values, old(random.state), m)
    {
      i := i - 1;
      StirOnce(a, i, random, values, old(random.state), m);
      m := m + 1;
    }
    assert m == Last(|values|);
    result := a[..];
  }

  // ---- The order ----

  ghost predicate Unique(ids: seq<string>) {
    forall i, j :: 0 <= i < j < |ids| ==> ids[i] != ids[j]
  }

  /** One repetition: every strategy once, from a start that moves with the repetition. */
  function Block(caseId: string, base: seq<string>, repetition: nat): seq<Trial>
    requires base != []
  {
    seq(|base|, k requires 0 <= k < |base| => Trial(caseId, base[(k + repetition % |base|) % |base|], repetition))
  }

  function CaseBlocks(caseId: string, base: seq<string>, repetitions: nat): seq<Trial>
    requires base != []
  {
    if repetitions == 0 then [] else CaseBlocks(caseId, base, repetitions - 1) + Block(caseId, base, repetitions - 1)
  }

  function Schedule(cases: seq<string>, bases: seq<seq<string>>, repetitions: nat): seq<Trial>
    requires |bases| == |cases| && Filled(bases)
  {
    if cases == [] then []
    else
      var n := |cases| - 1;
      Schedule(cases[..n], bases[..n], repetitions) + CaseBlocks(cases[n], bases[n], repetitions)
  }

  predicate Filled(bases: seq<seq<string>>) {
    forall i :: 0 <= i < |bases| ==> bases[i] != []
  }

  /** `bases` are orders of the strategies. */
  ghost predicate Orders(bases: seq<seq<string>>, strategyIds: seq<string>) {
    forall i :: 0 <= i < |bases| ==> multiset(bases[i]) == multiset(strategyIds)
  }

  // ---- Each trial exactly once ----

  lemma UniqueCount(ids: seq<string>, id: string)
    requires Unique(ids)
    ensures multiset(ids)[id] == if id in ids then 1 else 0
  {
    UniqueCountFrom(ids, id);
  }

  lemma {:induction false} UniqueCountFrom(ids: seq<string>, id: string)
    requires Unique(ids)
    ensures multiset(ids)[id] == if id in ids then 1 else 0
  {
    if ids != [] {
      var n := |ids| - 1;
      UniqueCountFrom(ids[..n], id);
      assert ids == ids[..n] + [ids[n]];
    }
  }

  lemma RepeatedCount(ids: seq<string>, i: nat, j: nat)
    requires i < j < |ids| && ids[i] == ids[j]
    ensures multiset(ids)[ids[i]] >= 2
  {
    assert ids == ids[..i] + [ids[i]] + ids[i + 1..j] + [ids[j]] + ids[j + 1..];
  }

  lemma CountedOnce(ids: seq<string>)
    requires forall id :: multiset(ids)[id] <= 1
    ensures Unique(ids)
  {
    forall i, j | 0 <= i < j < |ids| ensures ids[i] != ids[j] {
      if ids[i] == ids[j] {
        RepeatedCount(ids, i, j);
      }
    }
  }

  lemma Remainder(x: nat, n: nat)
    requires 0 < n && x < 2 * n
    ensures x % n == if x < n then x else x - n
  {
    QuotientOf(x, n, if x < n then 0 else 1, if x < n then x else x - n);
  }

  /** Where a strategy stands in a rotated order. */
  lemma Rotation(n: nat, m: nat, shift: nat)
    requires m < n && shift < n
    ensures var k := (m + n - shift) % n; k < n && (k + shift) % n == m
  {
    Remainder(m + n - shift, n);
    Remainder((m + n - shift) % n + shift, n);
  }

  lemma RotationUnique(n: nat, m: nat, shift: nat, l: nat)
    requires m < n && shift < n && l < n && (l + shift) % n == m
    ensures l == (m + n - shift) % n
  {
    Remainder(l + shift, n);
    Remainder(m + n - shift, n);
  }

  lemma {:induction false} TrialsOf(trials: seq<Trial>, t: Trial, k: nat)
    requires k < |trials| && trials[k] == t
    requires forall l :: 0 <= l < |trials| && trials[l] == t ==> l == k
    ensures multiset(trials)[t] == 1
  {
    assert trials == trials[..k] + [t] + trials[k + 1..];
    assert t !in trials[..k] && t !in trials[k + 1..];
  }

  lemma BlockCount(caseId: string, base: seq<string>, repetition: nat, t: Trial)
    requires base != [] && Unique(base)
    ensures multiset(Block(caseId, base, repetition))[t] ==
      Once(t.caseId == caseId && t.strategyId in base && t.repetition == repetition)
  {
    var block, n, shift := Block(caseId, base, repetition), |base|, repetition % |base|;
    if t.caseId == caseId && t.strategyId in base && t.repetition == repetition {
      var m :| 0 <= m < n && base[m] == t.strategyId;
      Rotation(n, m, shift);
      var k := (m + n - shift) % n;
      forall l | 0 <= l < |block| && block[l] == t ensures l == k {
        Remainder(l + shift, n);
        assert base[(l + shift) % n] == base[m];
        RotationUnique(n, m, shift, l);
      }
      TrialsOf(block, t, k);
    } else {
      assert t !in block;
    }
  }

  lemma AddCount(a: seq<Trial>, b: seq<Trial>, t: Trial)
    ensures multiset(a + b)[t] == multiset(a)[t] + multiset(b)[t]
  {
  }

  function Once(present: bool): nat {
    if present then 1 else 0
  }

  lemma {:induction false} CaseCount(caseId: string, base: seq<string>, repetitions: nat, t: Trial)
    requires base != [] && Unique(base)
    ensures multiset(CaseBlocks(caseId, base, repetitions))[t] ==
      Once(t.caseId == caseId && t.strategyId in base && t.repetition < repetitions)
    decreases repetitions
  {
    if repetitions > 0 {
      var r := repetitions - 1;
      CaseCount(caseId, base, r, t);
      BlockCount(caseId, base, r, t);
      OneBlockMore(caseId, base, r, t);
    }
  }

  lemma OneBlockMore(caseId: string, base: seq<string>, r: nat, t: Trial)
    requires base != []
    ensures multiset(CaseBlocks(caseId, base, r + 1))[t]
      == multiset(CaseBlocks(caseId, base, r))[t] + multiset(Block(caseId, base, r))[t]
  {
    AddCount(CaseBlocks(caseId, base, r), Block(caseId, base, r), t);
  }

  lemma PermutedUnique(ids: seq<string>, order: seq<string>)
    requires Unique(ids) && multiset(order) == multiset(ids)
    ensures Unique(order) && forall id :: id in order <==> id in ids
  {
    forall id ensures multiset(order)[id] <= 1 {
      UniqueCount(ids, id);
    }
    CountedOnce(order);
    forall id ensures id in order <==> id in ids {
      assert id in order <==> id in multiset(order);
      assert id in ids <==> id in multiset(ids);
    }
  }

  /** For every seed, each triple occurs exactly once and nothing else occurs. */
  lemma {:induction false} EachTrialOnce(cases: seq<string>, bases: seq<seq<string>>, strategyIds: seq<string>, repetitions: nat, t: Trial)
    requires |bases| == |cases| && Unique(cases) && Unique(strategyIds) && strategyIds != []
    requires Orders(bases, strategyIds) && Filled(bases)
    ensures multiset(Schedule(cases, bases, repetitions))[t] ==
      Once(t.caseId in cases && t.strategyId in strategyIds && t.repetition < repetitions)
    decreases |cases|
  {
    if cases != [] {
      var n := |cases| - 1;
      EachTrialOnce(cases[..n], bases[..n], strategyIds, repetitions, t);
      assert t.caseId in cases <==> t.caseId in cases[..n] || t.caseId == cases[n];
      PermutedUnique(strategyIds, bases[n]);
      CaseCount(cases[n], bases[n], repetitions, t);
      AddCount(Schedule(cases[..n], bases[..n], repetitions), CaseBlocks(cases[n], bases[n], repetitions), t);
    }
  }

  /** The same for whatever orders the shuffles produced. */
  lemma ShuffledTrialsOnce(caseIds: seq<string>, strategyIds: seq<string>, cases: seq<string>, bases: seq<seq<string>>,
                           repetitions: nat, t: Trial)
    requires Unique(caseIds) && Unique(strategyIds) && strategyIds != []
    requires multiset(cases) == multiset(caseIds) && |bases| == |cases| && Orders(bases, strategyIds) && Filled(bases)
    ensures multiset(Schedule(cases, bases, repetitions))[t] ==
      Once(t.caseId in caseIds && t.strategyId in strategyIds && t.repetition < repetitions)
  {
    PermutedUnique(caseIds, cases);
    EachTrialOnce(cases, bases, strategyIds, repetitions, t);
  }

  // ---- Blocks and balance ----

  lemma {:induction false} CaseLength(caseId: string, base: seq<string>, repetitions: nat)
    requires base != []
    ensures |CaseBlocks(caseId, base, repetitions)| == repetitions * |base|
  {
    if repetitions > 0 {
      CaseLength(caseId, base, repetitions - 1);
    }
  }

  ghost predicate SameSize(bases: seq<seq<string>>, m: nat) {
    m > 0 && forall i :: 0 <= i < |bases| ==> |bases[i]| == m
  }

  /** The trials hold a part from a position on. */
  ghost predicate HoldsAt(trials: seq<Trial>, at: nat, part: seq<Trial>) {
    at + |part| <= |trials| && trials[at..at + |part|] == part
  }

  lemma FirstPart(a: seq<Trial>, b: seq<Trial>, at: nat, part: seq<Trial>)
    requires HoldsAt(a, at, part)
    ensures HoldsAt(a + b, at, part)
  {
  }

  lemma SecondPart(a: seq<Trial>, b: seq<Trial>, at: nat, part: seq<Trial>)
    requires HoldsAt(b, at, part)
    ensures HoldsAt(a + b, |a| + at, part)
  {
    assert (a + b)[|a| + at..|a| + at + |part|] == b[at..at + |part|];
  }

  lemma {:induction false} CaseBlockAt(caseId: string, base: seq<string>, repetitions: nat, r: nat)
    requires base != [] && r < repetitions
    ensures HoldsAt(CaseBlocks(caseId, base, repetitions), r * |base|, Block(caseId, base, r))
  {
    var before, block := CaseBlocks(caseId, base, repetitions - 1), Block(caseId, base, repetitions - 1);
    if r < repetitions - 1 {
      CaseBlockAt(caseId, base, repetitions - 1, r);
      FirstPart(before, block, r * |base|, Block(caseId, base, r));
    } else {
      CaseLength(caseId, base, r);
      SecondPart(before, block, 0, block);
    }
  }

  lemma {:induction false} ScheduleLength(cases: seq<string>, bases: seq<seq<string>>, repetitions: nat, m: nat)
    requires |bases| == |cases| && Filled(bases) && SameSize(bases, m)
    ensures |Schedule(cases, bases, repetitions)| == |cases| * (repetitions * m)
    decreases |cases|
  {
    if cases != [] {
      ScheduleLength(cases[..|cases| - 1], bases[..|cases| - 1], repetitions, m);
      CaseLength(cases[|cases| - 1], bases[|cases| - 1], repetitions);
      OneMore(|cases| - 1, repetitions * m);
    }
  }

  lemma OneMore(n: nat, size: nat)
    ensures n * size + size == (n + 1) * size
  {
  }

  /** Every repetition of every case is one contiguous block of the schedule. */
  lemma {:induction false} BlockPlaced(cases: seq<string>, bases: seq<seq<string>>, repetitions: nat, m: nat, c: nat, r: nat, at: nat)
    requires |bases| == |cases| && Filled(bases) && SameSize(bases, m) && c < |cases| && r < repetitions
    requires at == c * (repetitions * m) + r * m
    ensures HoldsAt(Schedule(cases, bases, repetitions), at, Block(cases[c], bases[c], r))
    decreases |cases|
  {
    var n := |cases| - 1;
    var before, last := Schedule(cases[..n], bases[..n], repetitions), CaseBlocks(cases[n], bases[n], repetitions);
    if c < n {
      BlockPlaced(cases[..n], bases[..n], repetitions, m, c, r, at);
      FirstPart(before, last, at, Block(cases[c], bases[c], r));
    } else {
      ScheduleLength(cases[..n], bases[..n], repetitions, m);
      LastBlock(before, cases[n], bases[n], repetitions, m, r, at);
    }
  }

  lemma LastBlock(before: seq<Trial>, caseId: string, base: seq<string>, repetitions: nat, m: nat, r: nat, at: nat)
    requires base != [] && |base| == m && r < repetitions && at == |before| + r * m
    ensures HoldsAt(before + CaseBlocks(caseId, base, repetitions), at, Block(caseId, base, r))
  {
    CaseBlockAt(caseId, base, repetitions, r);
    SecondPart(before, CaseBlocks(caseId, base, repetitions), r * m, Block(caseId, base, r));
  }

  lemma OrdersSize(bases: seq<seq<string>>, strategyIds: seq<string>)
    requires Orders(bases, strategyIds) && strategyIds != []
    ensures SameSize(bases, |strategyIds|)
  {
    forall i | 0 <= i < |bases| ensures |bases[i]| == |strategyIds| {
      assert |multiset(bases[i])| == |bases[i]| && |multiset(strategyIds)| == |strategyIds|;
    }
  }

  /** Whatever orders the shuffles produced, the repetitions of a case are consecutive blocks of the schedule, one after
      the other, and each of them holds every strategy once and nothing else. */
  lemma BlocksContiguous(strategyIds: seq<string>, cases: seq<string>, bases: seq<seq<string>>, repetitions: nat,
                         c: nat, r: nat, at: nat, t: Trial)
    requires Unique(strategyIds) && strategyIds != [] && |bases| == |cases| && Orders(bases, strategyIds) && Filled(bases)
    requires c < |cases| && r < repetitions && at == c * (repetitions * |strategyIds|) + r * |strategyIds|
    ensures var output := Schedule(cases, bases, repetitions);
      && HoldsAt(output, at, Block(cases[c], bases[c], r)) && |Block(cases[c], bases[c], r)| == |strategyIds|
      && multiset(output[at..at + |strategyIds|])[t] ==
         Once(t.caseId == cases[c] && t.strategyId in strategyIds && t.repetition == r)
  {
    OrdersSize(bases, strategyIds);
    PermutedUnique(strategyIds, bases[c]);
    BlockPlaced(cases, bases, repetitions, |strategyIds|, c, r, at);
    BlockCount(cases[c], bases[c], r, t);
  }

  lemma Distribute(a: nat, b: nat, n: nat)
    ensures (a + b) * n == a * n + b * n
  {
  }

  lemma SameRemainder(k: nat, r: nat, n: nat)
    requires n > 0
    ensures (k + r % n) % n == (k + r) % n
  {
    var q, p, t := r / n, (k + r % n) / n, (k + r % n) % n;
    Distribute(q, p, n);
    assert k + r == (q + p) * n + t;
    QuotientOf(k + r, n, q + p, t);
  }

  /** The trial at each place of the schedule: case by case and repetition by repetition, each strategy stands one place
      further to the front than in the repetition before, and the first one goes to the end. */
  lemma TrialAt(strategyIds: seq<string>, cases: seq<string>, bases: seq<seq<string>>, repetitions: nat,
                c: nat, r: nat, k: nat, at: nat)
    requires strategyIds != [] && |bases| == |cases| && Orders(bases, strategyIds) && Filled(bases)
    requires c < |cases| && r < repetitions && k < |strategyIds|
    requires at == c * (repetitions * |strategyIds|) + r * |strategyIds|
    ensures |bases[c]| == |strategyIds| && at + k < |Schedule(cases, bases, repetitions)|
    ensures Schedule(cases, bases, repetitions)[at + k] == Trial(cases[c], bases[c][(k + r) % |strategyIds|], r)
  {
    OrdersSize(bases, strategyIds);
    BlockPlaced(cases, bases, repetitions, |strategyIds|, c, r, at);
    SameRemainder(k, r, |strategyIds|);
    var output, block := Schedule(cases, bases, repetitions), Block(cases[c], bases[c], r);
    assert output[at..at + |block|][k] == output[at + k];
  }

  /** In how many repetitions of a case a strategy stands at a position, blocks of `m` trials following each other. */
  function TimesAt(trials: seq<Trial>, caseId: string, m: nat, position: nat, strategyId: string): nat
    requires m > 0
  {
    if trials == [] then 0
    else
      var n := |trials| - 1;
      TimesAt(trials[..n], caseId, m, position, strategyId)
      + (if n % m == position && trials[n].caseId == caseId && trials[n].strategyId == strategyId then 1 else 0)
  }

  lemma {:induction false} TimesAdd(a: seq<Trial>, b: seq<Trial>, caseId: string, m: nat, q: nat, position: nat, strategyId: string)
    requires m > 0 && |a| == q * m
    ensures TimesAt(a + b, caseId, m, position, strategyId)
      == TimesAt(a, caseId, m, position, strategyId) + TimesAt(b, caseId, m, position, strategyId)
    decreases |b|
  {
    if b == [] {
      assert a + b == a;
    } else {
      var n := |b| - 1;
      TimesAdd(a, b[..n], caseId, m, q, position, strategyId);
      assert (a + b)[..|a| + n] == a + b[..n];
      Shifted(q, m, n);
    }
  }

  lemma Shifted(q: nat, m: nat, n: nat)
    requires m > 0
    ensures (q * m + n) % m == n % m
  {
    var p, r := n / m, n % m;
    assert q * m + n == (q + p) * m + r;
    QuotientOf(q * m + n, m, q + p, r);
  }

  lemma {:induction false} TimesElsewhere(trials: seq<Trial>, caseId: string, m: nat, position: nat, strategyId: string)
    requires m > 0 && forall i :: 0 <= i < |trials| ==> trials[i].caseId != caseId
    ensures TimesAt(trials, caseId, m, position, strategyId) == 0
    decreases |trials|
  {
    if trials != [] {
      TimesElsewhere(trials[..|trials| - 1], caseId, m, position, strategyId);
    }
  }

  /** Within the first block a position is met once. */
  lemma {:induction false} TimesInBlock(trials: seq<Trial>, caseId: string, m: nat, position: nat, strategyId: string)
    requires position < m && |trials| <= m && forall i :: 0 <= i < |trials| ==> trials[i].caseId == caseId
    ensures TimesAt(trials, caseId, m, position, strategyId)
      == if position < |trials| && trials[position].strategyId == strategyId then 1 else 0
    decreases |trials|
  {
    if trials != [] {
      TimesInBlock(trials[..|trials| - 1], caseId, m, position, strategyId);
      Remainder(|trials| - 1, m);
    }
  }

  /** How often a strategy takes a position within one case. */
  function AtPosition(base: seq<string>, repetitions: nat, position: nat, strategyId: string): nat
    requires position < |base|
  {
    if repetitions == 0 then 0
    else
      var taken := Block("", base, repetitions - 1)[position].strategyId;
      AtPosition(base, repetitions - 1, position, strategyId) + (if taken == strategyId then 1 else 0)
  }

  lemma {:induction false} TimesInCase(caseId: string, base: seq<string>, repetitions: nat, position: nat, strategyId: string)
    requires position < |base|
    ensures TimesAt(CaseBlocks(caseId, base, repetitions), caseId, |base|, position, strategyId)
      == AtPosition(base, repetitions, position, strategyId)
  {
    if repetitions > 0 {
      var r := repetitions - 1;
      TimesInCase(caseId, base, r, position, strategyId);
      TimesInRepetition(caseId, base, r, position, strategyId);
      assert CaseBlocks(caseId, base, repetitions) == CaseBlocks(caseId, base, r) + Block(caseId, base, r);
    }
  }

  lemma TimesInRepetition(caseId: string, base: seq<string>, r: nat, position: nat, strategyId: string)
    requires position < |base|
    ensures TimesAt(CaseBlocks(caseId, base, r) + Block(caseId, base, r), caseId, |base|, position, strategyId)
      == TimesAt(CaseBlocks(caseId, base, r), caseId, |base|, position, strategyId)
         + (if Block("", base, r)[position].strategyId == strategyId then 1 else 0)
  {
    var before, block := CaseBlocks(caseId, base, r), Block(caseId, base, r);
    CaseLength(caseId, base, r);
    TimesAdd(before, block, caseId, |base|, r, position, strategyId);
    TimesInBlock(block, caseId, |base|, position, strategyId);
    assert block[position].strategyId == Block("", base, r)[position].strategyId;
  }

  lemma {:induction false} CaseTrials(caseId: string, base: seq<string>, repetitions: nat)
    requires base != []
    ensures forall i :: 0 <= i < |CaseBlocks(caseId, base, repetitions)| ==> CaseBlocks(caseId, base, repetitions)[i].caseId == caseId
  {
    if repetitions > 0 {
      CaseTrials(caseId, base, repetitions - 1);
    }
  }

  lemma Regrouped(n: nat, repetitions: nat, m: nat)
    ensures n * (repetitions * m) == n * repetitions * m
  {
  }

  lemma {:induction false} TimesAbsent(cases: seq<string>, bases: seq<seq<string>>, repetitions: nat, m: nat, id: string,
                                       position: nat, strategyId: string)
    requires |bases| == |cases| && Filled(bases) && SameSize(bases, m) && position < m && id !in cases
    ensures TimesAt(Schedule(cases, bases, repetitions), id, m, position, strategyId) == 0
    decreases |cases|
  {
    if cases != [] {
      TimesAbsent(cases[..|cases| - 1], bases[..|cases| - 1], repetitions, m, id, position, strategyId);
      LastCase(cases, bases, repetitions, m, id, position, strategyId);
    }
  }

  lemma {:induction false} TimesInSchedule(cases: seq<string>, bases: seq<seq<string>>, repetitions: nat, m: nat, c: nat,
                                           position: nat, strategyId: string)
    requires |bases| == |cases| && Filled(bases) && SameSize(bases, m) && position < m && c < |cases| && Unique(cases)
    ensures TimesAt(Schedule(cases, bases, repetitions), cases[c], m, position, strategyId)
      == AtPosition(bases[c], repetitions, position, strategyId)
    decreases |cases|
  {
    var n := |cases| - 1;
    LastCase(cases, bases, repetitions, m, cases[c], position, strategyId);
    if c < n {
      TimesInSchedule(cases[..n], bases[..n], repetitions, m, c, position, strategyId);
    } else {
      TimesAbsent(cases[..n], bases[..n], repetitions, m, cases[n], position, strategyId);
    }
  }

  /** The last case adds its own and nothing to others. */
  lemma LastCase(cases: seq<string>, bases: seq<seq<string>>, repetitions: nat, m: nat, id: string, position: nat, strategyId: string)
    requires |bases| == |cases| && Filled(bases) && SameSize(bases, m) && position < m && cases != []
    ensures TimesAt(Schedule(cases, bases, repetitions), id, m, position, strategyId)
      == TimesAt(Schedule(cases[..|cases| - 1], bases[..|cases| - 1], repetitions), id, m, position, strategyId)
         + (if id == cases[|cases| - 1] then AtPosition(bases[|cases| - 1], repetitions, position, strategyId) else 0)
  {
    var n := |cases| - 1;
    var before, last := Schedule(cases[..n], bases[..n], repetitions), CaseBlocks(cases[n], bases[n], repetitions);
    ScheduleLength(cases[..n], bases[..n], repetitions, m);
    Regrouped(n, repetitions, m);
    TimesAdd(before, last, id, m, n * repetitions, position, strategyId);
    if id == cases[n] {
      TimesInCase(id, bases[n], repetitions, position, strategyId);
    } else {
      CaseTrials(cases[n], bases[n], repetitions);
      TimesElsewhere(last, id, m, position, strategyId);
    }
  }

  /** How many of the first `count` numbers leave the remainder `t`. */
  function Remainders(count: nat, n: nat, t: nat): nat
    requires n > 0
  {
    if count == 0 then 0 else Remainders(count - 1, n, t) + if (count - 1) % n == t then 1 else 0
  }

  lemma QuotientOf(m: nat, n: nat, q: nat, r: nat)
    requires n > 0 && r < n && m == q * n + r
    ensures m / n == q && m % n == r
  {
    var p, s := m / n, m % n;
    assert m == p * n + s;
    if p > q {
      Scale(q + 1, p, n);
    } else if p < q {
      Scale(p + 1, q, n);
    }
  }

  /** Every remainder occurs once in each full round, and those below `r` once more. */
  lemma {:induction false} RemaindersEven(count: nat, n: nat, t: nat, q: nat, r: nat)
    requires t < n && r < n && count == q * n + r
    ensures Remainders(count, n, t) == q + if t < r then 1 else 0
    decreases count
  {
    if r > 0 {
      QuotientOf(count - 1, n, q, r - 1);
      RemaindersEven(count - 1, n, t, q, r - 1);
    } else if q > 0 {
      OneMore(q - 1, n);
      QuotientOf(count - 1, n, q - 1, n - 1);
      RemaindersEven(count - 1, n, t, q - 1, n - 1);
    }
  }

  lemma {:induction false} PositionIsRemainder(base: seq<string>, repetitions: nat, position: nat, m: nat)
    requires Unique(base) && position < |base| && m < |base|
    ensures AtPosition(base, repetitions, position, base[m])
      == Remainders(repetitions, |base|, (m + |base| - position) % |base|)
  {
    if repetitions > 0 {
      PositionIsRemainder(base, repetitions - 1, position, m);
      var n := |base|;
      var shift := (repetitions - 1) % n;
      Rotation(n, m, position);
      if (shift + position) % n == m {
        RotationUnique(n, m, position, shift);
      }
      Remainder(position + shift, n);
    }
  }

  lemma FullRounds(count: nat, n: nat, t: nat)
    requires t < n && count % n == 0
    ensures Remainders(count, n, t) == count / n
  {
    var q := count / n;
    assert count == q * n + 0;
    RemaindersEven(count, n, t, q, 0);
  }

  lemma CaseBalanced(base: seq<string>, repetitions: nat, position: nat, strategyId: string)
    requires Unique(base) && position < |base| && strategyId in base && repetitions % |base| == 0
    ensures AtPosition(base, repetitions, position, strategyId) == repetitions / |base|
  {
    var m :| 0 <= m < |base| && base[m] == strategyId;
    PositionIsRemainder(base, repetitions, position, m);
    FullRounds(repetitions, |base|, (m + |base| - position) % |base|);
  }

  /** When the repetitions are a multiple of the strategies, every strategy stands at every position of a case's
      blocks equally often, whatever orders the shuffles produced. */
  lemma Balanced(caseIds: seq<string>, strategyIds: seq<string>, cases: seq<string>, bases: seq<seq<string>>,
                 repetitions: nat, caseId: string, position: nat, strategyId: string)
    requires Unique(caseIds) && Unique(strategyIds) && strategyIds != []
    requires multiset(cases) == multiset(caseIds) && |bases| == |cases| && Orders(bases, strategyIds) && Filled(bases)
    requires caseId in caseIds && strategyId in strategyIds && position < |strategyIds|
    requires repetitions % |strategyIds| == 0
    ensures TimesAt(Schedule(cases, bases, repetitions), caseId, |strategyIds|, position, strategyId)
      == repetitions / |strategyIds|
  {
    PermutedUnique(caseIds, cases);
    OrdersSize(bases, strategyIds);
    var c :| 0 <= c < |cases| && cases[c] == caseId;
    PermutedUnique(strategyIds, bases[c]);
    TimesInSchedule(cases, bases, repetitions, |strategyIds|, c, position, strategyId);
    CaseBalanced(bases[c], repetitions, position, strategyId);
  }

  // ---- The loops ----

  ghost predicate GoodIds(ids: seq<string>, blank: string -> bool) {
    ids != [] && Unique(ids) && forall id :: id in ids ==> !blank(id)
  }

  method ValidIds(ids: seq<string>, blank: string -> bool) returns (valid: bool)
    ensures valid <==> GoodIds(ids, blank)
  {
    if ids == [] {
      return false;
    }
    var seen := {};
    for i := 0 to |ids|
      invariant seen == set k | 0 <= k < i :: ids[k]
      invariant Unique(ids[..i]) && forall k :: 0 <= k < i ==> !blank(ids[k])
    {
      if blank(ids[i]) || ids[i] in seen {
        if ids[i] in seen {
          var k :| 0 <= k < i && ids[k] == ids[i];
        }
        return false;
      }
      seen := seen + {ids[i]};
    }
    assert ids[..|ids|] == ids;
    return true;
  }

  method RotatedBlock(caseId: string, base: seq<string>, repetition: nat) returns (block: seq<Trial>)
    requires base != []
    ensures block == Block(caseId, base, repetition)
  {
    block := [];
    var offset := repetition % |base|;
    for index := 0 to |base|
      invariant block == Block(caseId, base, repetition)[..index]
    {
      block := block + [Trial(caseId, base[(index + offset) % |base|], repetition)];
    }
  }

  /** The state after a shuffle of the strategies for each of as many cases. */
  function AfterCases(strategyIds: seq<string>, state: bv32, count: nat): bv32 {
    if count == 0 then state else Advanced(AfterCases(strategyIds, state, count - 1), Last(|strategyIds|))
  }

  /** The order of the strategies that is drawn for each case. */
  function Bases(strategyIds: seq<string>, state: bv32, count: nat): (bases: seq<seq<string>>)
    requires strategyIds != []
    ensures |bases| == count && Filled(bases)
  {
    if count == 0 then []
    else Bases(strategyIds, state, count - 1) + [Shuffle(strategyIds, AfterCases(strategyIds, state, count - 1))]
  }

  function Seeded(seed: int): bv32 {
    (seed % TWO_32) as bv32
  }

  /** The schedule that belongs to a seed: the cases are shuffled first, then the strategies for each case in turn. */
  function Planned(caseIds: seq<string>, strategyIds: seq<string>, repetitions: nat, seed: int): seq<Trial>
    requires strategyIds != []
  {
    Schedule(Shuffle(caseIds, Seeded(seed)),
             Bases(strategyIds, Advanced(Seeded(seed), Last(|caseIds|)), |caseIds|), repetitions)
  }

  lemma {:induction false} BasesAreOrders(strategyIds: seq<string>, state: bv32, count: nat)
    requires strategyIds != []
    ensures Orders(Bases(strategyIds, state, count), strategyIds)
    decreases count
  {
    if count > 0 {
      BasesAreOrders(strategyIds, state, count - 1);
      ShuffleKeeps(strategyIds, AfterCases(strategyIds, state, count - 1));
      OrdersMore(Bases(strategyIds, state, count - 1), Shuffle(strategyIds, AfterCases(strategyIds, state, count - 1)), strategyIds);
    }
  }

  lemma OrdersMore(bases: seq<seq<string>>, base: seq<string>, strategyIds: seq<string>)
    requires Orders(bases, strategyIds) && multiset(base) == multiset(strategyIds)
    ensures Orders(bases + [base], strategyIds)
  {
  }

  /** What holds of a schedule whatever orders the shuffles gave holds of the one that belongs to a seed. */
  lemma PlannedOrders(caseIds: seq<string>, strategyIds: seq<string>, seed: int)
    requires strategyIds != []
    ensures multiset(Shuffle(caseIds, Seeded(seed))) == multiset(caseIds)
    ensures Orders(Bases(strategyIds, Advanced(Seeded(seed), Last(|caseIds|)), |caseIds|), strategyIds)
  {
    ShuffleKeeps(caseIds, Seeded(seed));
    BasesAreOrders(strategyIds, Advanced(Seeded(seed), Last(|caseIds|)), |caseIds|);
  }

  method ScheduleBenchmark(caseIds: seq<string>, strategyIds: seq<string>, repetitions: Option<real>, seed: Option<real>,
                           blank: string -> bool)
    returns (r: Result<seq<Trial>, ScheduleError>)
    ensures var validIds := GoodIds(caseIds, blank) && GoodIds(strategyIds, blank);
      var validRepetitions := SafeInteger(repetitions) && repetitions.value >= 1.0;
      if !validIds then r == Failure(InvalidIds)
      else if !validRepetitions then r == Failure(InvalidRepetitions)
      else if !SafeInteger(seed) then r == Failure(InvalidSeed)
      else r == Success(Planned(caseIds, strategyIds, repetitions.value.Floor, seed.value.Floor))
  {
    var validCases := ValidIds(caseIds, blank);
    var validStrategies := ValidIds(strategyIds, blank);
    if !validCases || !validStrategies {
      return Failure(InvalidIds);
    }
    if !SafeInteger(repetitions) || repetitions.value < 1.0 {
      return Failure(InvalidRepetitions);
    }
    if !SafeInteger(seed) {
      return Failure(InvalidSeed);
    }
    var random := new Random(seed.value.Floor);
    var cases := Shuffled(caseIds, random);
    var output := ScheduleCases(cases, strategyIds, repetitions.value.Floor, random);
    return Success(output);
  }

  method ScheduleCases(cases: seq<string>, strategyIds: seq<string>, repetitions: nat, random: Random)
    returns (output: seq<Trial>)
    requires strategyIds != []
    modifies random
    ensures output == Schedule(cases, Bases(strategyIds, old(random.state), |cases|), repetitions)
  {
    output := [];
    for c := 0 to |cases|
      invariant random.state == AfterCases(strategyIds, old(random.state), c)
      invariant output == Schedule(cases[..c], Bases(strategyIds, old(random.state), c), repetitions)
    {
      var base := Shuffled(strategyIds, random);
      output := AppendCase(output, cases[c], base, repetitions);
      ScheduleGrows(cases, Bases(strategyIds, old(random.state), c), base, repetitions);
    }
    assert cases[..|cases|] == cases;
  }

  lemma ScheduleGrows(cases: seq<string>, bases: seq<seq<string>>, base: seq<string>, repetitions: nat)
    requires |bases| < |cases| && Filled(bases) && base != []
    ensures Filled(bases + [base])
    ensures Schedule(cases[..|bases| + 1], bases + [base], repetitions)
      == Schedule(cases[..|bases|], bases, repetitions) + CaseBlocks(cases[|bases|], base, repetitions)
  {
    var c := |bases|;
    var (first, more) := (cases[..c + 1], bases + [base]);
    assert |first| == c + 1 && first[c] == cases[c] && more[c] == base;
    assert first[..c] == cases[..c] && more[..c] == bases;
  }

  method AppendCase(done: seq<Trial>, caseId: string, base: seq<string>, repetitions: nat) returns (output: seq<Trial>)
    requires base != []
    ensures output == done + CaseBlocks(caseId, base, repetitions)
  {
    output := done;
    for repetition := 0 to repetitions
      invariant output == done + CaseBlocks(caseId, base, repetition)
    {
      var block := RotatedBlock(caseId, base, repetition);
      output := output + block;
    }
  }
}
