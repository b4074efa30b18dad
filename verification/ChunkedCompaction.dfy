/** Splitting a conversation into chunks: spans bound by tool calls first, then greedy packing. */
module ChunkedCompaction {
  import opened Options

  type CallId = string

  /** What chunking looks at in a message; the rest travels along as text. */
  datatype Message =
    | Assistant(calls: seq<CallId>, text: string)
    | ToolResult(id: CallId, text: string)
    | Other(text: string)

  /** The token estimate of a bundle as a prompt, with the previous summary in front of the first one. */
  type Estimate = (Option<string>, seq<Message>) -> nat

  datatype Bundle = Bundle(messages: seq<Message>, tokens: nat)

  // ---- Spans ----

  /** The position of the last result with this identifier. */
  function LastResult(ms: seq<Message>, id: CallId): Option<nat> {
    if ms == [] then None
    else if ms[|ms| - 1].ToolResult? && ms[|ms| - 1].id == id then Some(|ms| - 1)
    else LastResult(ms[..|ms| - 1], id)
  }

  lemma {:induction false} LastResultIsLast(ms: seq<Message>, id: CallId)
    ensures var r := LastResult(ms, id);
      && (r.Some? ==> r.value < |ms| && ms[r.value].ToolResult? && ms[r.value].id == id)
      && (forall j :: 0 <= j < |ms| && ms[j].ToolResult? && ms[j].id == id ==> r.Some? && j <= r.value)
  {
    if ms != [] {
      LastResultIsLast(ms[..|ms| - 1], id);
      assert forall j :: 0 <= j < |ms| - 1 ==> ms[..|ms| - 1][j] == ms[j];
    }
  }

  function Calls(m: Message): seq<CallId> {
    if m.Assistant? then m.calls else []
  }

  /** The end of a span that has reached `end` and also contains the results of `calls`. */
  function Through(ms: seq<Message>, calls: seq<CallId>, end: nat): (e: nat)
    requires end <= |ms|
    ensures end <= e <= |ms|
  {
    if calls == [] then end
    else
      var r := LastResult(ms, calls[0]);
      LastResultIsLast(ms, calls[0]);
      Through(ms, calls[1..], if r.Some? && r.value >= end then r.value + 1 else end)
  }

  /** The span grows while the cursor passes over it. */
  function Grow(ms: seq<Message>, cursor: nat, end: nat): (e: nat)
    requires cursor <= end <= |ms|
    ensures end <= e <= |ms|
    decreases |ms| - cursor
  {
    if cursor == end then end else Grow(ms, cursor + 1, Through(ms, Calls(ms[cursor]), end))
  }

  function SpanEnd(ms: seq<Message>, start: nat): (e: nat)
    requires start < |ms|
    ensures start < e <= |ms|
  {
    Grow(ms, start, start + 1)
  }

  /** Every result of a call in `start..end` comes before `end`. */
  ghost predicate Closed(ms: seq<Message>, start: nat, end: nat)
    requires start <= end <= |ms|
  {
    forall i :: start <= i < end ==> AllBefore(ms, Calls(ms[i]), end)
  }

  predicate Before(ms: seq<Message>, id: CallId, end: nat) {
    var r := LastResult(ms, id);
    r.None? || r.value < end
  }

  ghost predicate AllBefore(ms: seq<Message>, calls: seq<CallId>, end: nat) {
    forall id :: id in calls ==> Before(ms, id, end)
  }

  lemma {:induction false} ThroughIsLeast(ms: seq<Message>, calls: seq<CallId>, end: nat, e: nat)
    requires end <= |ms|
    ensures AllBefore(ms, calls, Through(ms, calls, end))
    ensures end <= e && AllBefore(ms, calls, e) ==> Through(ms, calls, end) <= e
  {
    if calls != [] {
      var r := LastResult(ms, calls[0]);
      LastResultIsLast(ms, calls[0]);
      var next := if r.Some? && r.value >= end then r.value + 1 else end;
      ThroughIsLeast(ms, calls[1..], next, e);
      if end <= e && AllBefore(ms, calls, e) {
        assert Before(ms, calls[0], e);
        assert AllBefore(ms, calls[1..], e);
      }
      forall id | id in calls ensures Before(ms, id, Through(ms, calls, end)) {
        assert id == calls[0] || id in calls[1..];
      }
    }
  }

  lemma ClosedFurther(ms: seq<Message>, start: nat, cursor: nat, end: nat, next: nat)
    requires start <= cursor < end <= next <= |ms|
    requires forall i :: start <= i < cursor ==> AllBefore(ms, Calls(ms[i]), end)
    requires AllBefore(ms, Calls(ms[cursor]), next)
    ensures forall i :: start <= i < cursor + 1 ==> AllBefore(ms, Calls(ms[i]), next)
  {
    forall i | start <= i < cursor + 1 ensures AllBefore(ms, Calls(ms[i]), next) {
      if i < cursor {
        assert AllBefore(ms, Calls(ms[i]), end);
      }
    }
  }

  lemma {:induction false} GrowIsLeast(ms: seq<Message>, start: nat, cursor: nat, end: nat, e: nat)
    requires start <= cursor <= end <= |ms|
    requires forall i :: start <= i < cursor ==> AllBefore(ms, Calls(ms[i]), end)
    ensures Closed(ms, start, Grow(ms, cursor, end))
    ensures end <= e <= |ms| && Closed(ms, start, e) ==> Grow(ms, cursor, end) <= e
    decreases |ms| - cursor
  {
    if cursor < end {
      var next := Through(ms, Calls(ms[cursor]), end);
      ThroughIsLeast(ms, Calls(ms[cursor]), end, e);
      ClosedFurther(ms, start, cursor, end, next);
      GrowIsLeast(ms, start, cursor + 1, next, e);
      if end <= e <= |ms| && Closed(ms, start, e) {
        assert AllBefore(ms, Calls(ms[cursor]), e);
      }
    }
  }

  /** A bundle is the least span that no call's results escape. */
  lemma SpanIsLeastClosed(ms: seq<Message>, start: nat, e: nat)
    requires start < |ms|
    ensures Closed(ms, start, SpanEnd(ms, start))
    ensures start < e <= |ms| && Closed(ms, start, e) ==> SpanEnd(ms, start) <= e
  {
    GrowIsLeast(ms, start, start, start + 1, e);
  }

  function Bundles(ms: seq<Message>, start: nat, estimate: Estimate, previous: Option<string>): seq<Bundle>
    requires start <= |ms|
    decreases |ms| - start
  {
    if start == |ms| then []
    else
      var end := SpanEnd(ms, start);
      [Bundle(ms[start..end], estimate(if start == 0 then previous else None, ms[start..end]))]
      + Bundles(ms, end, estimate, previous)
  }

  // ---- Packing ----

  function Total(bundles: seq<Bundle>): nat {
    if bundles == [] then 0 else Total(bundles[..|bundles| - 1]) + bundles[|bundles| - 1].tokens
  }

  /** Bundles join the current chunk while they fit; one that does not starts the next chunk. */
  function Pack(bundles: seq<Bundle>, target: nat, current: seq<Bundle>): seq<seq<Bundle>>
    decreases |bundles|
  {
    if bundles == [] then (if current == [] then [] else [current])
    else if current != [] && Total(current) + bundles[0].tokens > target then
      [current] + Pack(bundles[1..], target, [bundles[0]])
    else Pack(bundles[1..], target, current + [bundles[0]])
  }

  function Joined(bundles: seq<Bundle>): seq<Message> {
    if bundles == [] then [] else Joined(bundles[..|bundles| - 1]) + bundles[|bundles| - 1].messages
  }

  function Flat(packs: seq<seq<Bundle>>): seq<Bundle> {
    if packs == [] then [] else packs[0] + Flat(packs[1..])
  }

  function Concat(chunks: seq<seq<Message>>): seq<Message> {
    if chunks == [] then [] else chunks[0] + Concat(chunks[1..])
  }

  function Chunks(packs: seq<seq<Bundle>>): seq<seq<Message>> {
    seq(|packs|, i requires 0 <= i < |packs| => Joined(packs[i]))
  }

  function Packs(ms: seq<Message>, target: nat, estimate: Estimate, previous: Option<string>): seq<seq<Bundle>> {
    Pack(Bundles(ms, 0, estimate, previous), target, [])
  }

  // ---- Nothing is lost, nothing is torn apart ----

  lemma {:induction false} PackKeeps(bundles: seq<Bundle>, target: nat, current: seq<Bundle>)
    ensures Flat(Pack(bundles, target, current)) == current + bundles
    decreases |bundles|
  {
    if bundles == [] {
      assert current + [] == current;
    } else if current != [] && Total(current) + bundles[0].tokens > target {
      PackKeeps(bundles[1..], target, [bundles[0]]);
      assert current + ([bundles[0]] + bundles[1..]) == current + bundles;
    } else {
      PackKeeps(bundles[1..], target, current + [bundles[0]]);
      assert current + [bundles[0]] + bundles[1..] == current + bundles;
    }
  }

  lemma {:induction false} JoinedAppends(a: seq<Bundle>, b: seq<Bundle>)
    ensures Joined(a + b) == Joined(a) + Joined(b)
    decreases |b|
  {
    if b == [] {
      assert a + b == a;
    } else {
      var n := |b| - 1;
      assert (a + b)[..|a + b| - 1] == a + b[..n];
      JoinedAppends(a, b[..n]);
    }
  }

  lemma {:induction false} ChunksJoin(packs: seq<seq<Bundle>>)
    ensures Concat(Chunks(packs)) == Joined(Flat(packs))
  {
    if packs != [] {
      ChunksJoin(packs[1..]);
      assert Chunks(packs)[1..] == Chunks(packs[1..]);
      JoinedAppends(packs[0], Flat(packs[1..]));
    }
  }

  lemma {:induction false} BundlesJoin(ms: seq<Message>, start: nat, estimate: Estimate, previous: Option<string>)
    requires start <= |ms|
    ensures Joined(Bundles(ms, start, estimate, previous)) == ms[start..]
    decreases |ms| - start
  {
    if start < |ms| {
      var end := SpanEnd(ms, start);
      var rest := Bundles(ms, end, estimate, previous);
      BundlesJoin(ms, end, estimate, previous);
      var first := Bundles(ms, start, estimate, previous)[0];
      JoinedAppends([first], rest);
      assert Joined([first]) == first.messages;
      assert ms[start..end] + ms[end..] == ms[start..];
    }
  }

  /** The chunks, one after the other, are the messages. */
  lemma ChunksConcatenate(ms: seq<Message>, target: nat, estimate: Estimate, previous: Option<string>)
    ensures Concat(Chunks(Packs(ms, target, estimate, previous))) == ms
  {
    var bundles := Bundles(ms, 0, estimate, previous);
    PackKeeps(bundles, target, []);
    ChunksJoin(Packs(ms, target, estimate, previous));
    BundlesJoin(ms, 0, estimate, previous);
    assert [] + bundles == bundles && ms[0..] == ms;
  }

  /** No call before `cut` has a result at or after it. */
  ghost predicate Separable(ms: seq<Message>, cut: nat)
    requires cut <= |ms|
  {
    Closed(ms, 0, cut)
  }

  lemma SeparableFurther(ms: seq<Message>, start: nat, end: nat)
    requires start <= end <= |ms| && Separable(ms, start) && Closed(ms, start, end)
    ensures Separable(ms, end)
  {
    forall i | 0 <= i < end ensures AllBefore(ms, Calls(ms[i]), end) {
      if i < start {
        assert AllBefore(ms, Calls(ms[i]), start);
      }
    }
  }

  lemma {:induction false} BundleCuts(ms: seq<Message>, start: nat, estimate: Estimate, previous: Option<string>, k: nat)
    requires start <= |ms| && Separable(ms, start) && k <= |Bundles(ms, start, estimate, previous)|
    ensures var cut := start + |Joined(Bundles(ms, start, estimate, previous)[..k])|;
      cut <= |ms| && Separable(ms, cut)
    decreases |ms| - start
  {
    var bundles := Bundles(ms, start, estimate, previous);
    if k > 0 {
      var end := SpanEnd(ms, start);
      SpanIsLeastClosed(ms, start, end);
      SeparableFurther(ms, start, end);
      BundleCuts(ms, end, estimate, previous, k - 1);
      assert bundles[..k] == [bundles[0]] + bundles[1..][..k - 1];
      JoinedAppends([bundles[0]], bundles[1..][..k - 1]);
      assert Joined([bundles[0]]) == bundles[0].messages;
    }
  }

  lemma {:induction false} FlatPrefix(packs: seq<seq<Bundle>>, k: nat)
    requires k <= |packs|
    ensures Flat(packs[..k]) <= Flat(packs)
  {
    if k > 0 {
      FlatPrefix(packs[1..], k - 1);
      assert packs[..k][1..] == packs[1..][..k - 1];
    }
  }

  /** Every tool call shares its chunk with everything up to the last result of its identifier: no boundary
      between chunks comes after a call and at or before such a result. */
  lemma CallsStayTogether(ms: seq<Message>, target: nat, estimate: Estimate, previous: Option<string>, k: nat)
    requires k <= |Packs(ms, target, estimate, previous)|
    ensures var cut := |Concat(Chunks(Packs(ms, target, estimate, previous))[..k])|;
      cut <= |ms| && Separable(ms, cut)
  {
    var packs := Packs(ms, target, estimate, previous);
    var bundles := Bundles(ms, 0, estimate, previous);
    PackKeeps(bundles, target, []);
    assert [] + bundles == bundles;
    FlatPrefix(packs, k);
    var prefix := Flat(packs[..k]);
    assert bundles[..|prefix|] == prefix;
    BundleCuts(ms, 0, estimate, previous, |prefix|);
    assert Chunks(packs)[..k] == Chunks(packs[..k]);
    ChunksJoin(packs[..k]);
  }

  // ---- Sizes ----

  lemma {:induction false} PackSizes(bundles: seq<Bundle>, target: nat, current: seq<Bundle>, k: nat)
    requires current == [] || |current| == 1 || Total(current) <= target
    requires k < |Pack(bundles, target, current)|
    ensures var packs := Pack(bundles, target, current);
      && packs[k] != []
      && (|packs[k]| == 1 || Total(packs[k]) <= target)
      && (k + 1 < |packs| ==> packs[k + 1] != [] && Total(packs[k]) + packs[k + 1][0].tokens > target)
      && (current != [] ==> packs[0] != [] && packs[0][0] == current[0])
    decreases |bundles|
  {
    if bundles != [] {
      if current != [] && Total(current) + bundles[0].tokens > target {
        var rest := Pack(bundles[1..], target, [bundles[0]]);
        PackNotEmpty(bundles[1..], target, [bundles[0]]);
        PackSizes(bundles[1..], target, [bundles[0]], if k > 0 then k - 1 else 0);
      } else {
        var longer := current + [bundles[0]];
        assert longer[..|longer| - 1] == current;
        PackNotEmpty(bundles[1..], target, longer);
        PackSizes(bundles[1..], target, longer, k);
      }
    }
  }

  lemma {:induction false} PackNotEmpty(bundles: seq<Bundle>, target: nat, current: seq<Bundle>)
    requires current != []
    ensures Pack(bundles, target, current) != []
    decreases |bundles|
  {
    if bundles != [] && !(Total(current) + bundles[0].tokens > target) {
      PackNotEmpty(bundles[1..], target, current + [bundles[0]]);
    }
  }

  // ---- What the bundles are ----

  /** The messages from a position on that no call's results escape, and no more of them than that. */
  ghost predicate LeastSpan(ms: seq<Message>, from: nat, span: seq<Message>) {
    && span != [] && from + |span| <= |ms| && span == ms[from..from + |span|]
    && Closed(ms, from, from + |span|)
    && forall end :: from < end <= |ms| && Closed(ms, from, end) ==> from + |span| <= end
  }

  /** A bundle is a least span, and its size is the estimate of its messages; the previous summary counts with the
      messages at the very beginning. */
  ghost predicate Proper(ms: seq<Message>, from: nat, b: Bundle, estimate: Estimate, previous: Option<string>) {
    LeastSpan(ms, from, b.messages) && b.tokens == estimate(if from == 0 then previous else None, b.messages)
  }

  lemma JoinedHead(bundles: seq<Bundle>, k: nat)
    requires 0 < k <= |bundles|
    ensures |Joined(bundles[..k])| == |bundles[0].messages| + |Joined(bundles[1..][..k - 1])|
  {
    assert bundles[..k] == [bundles[0]] + bundles[1..][..k - 1];
    JoinedAppends([bundles[0]], bundles[1..][..k - 1]);
    assert Joined([bundles[0]]) == bundles[0].messages;
  }

  lemma SpanIsLeastSpan(ms: seq<Message>, start: nat)
    requires start < |ms|
    ensures LeastSpan(ms, start, ms[start..SpanEnd(ms, start)])
  {
    var end := SpanEnd(ms, start);
    forall e | start < e <= |ms| && Closed(ms, start, e) ensures end <= e {
      SpanIsLeastClosed(ms, start, e);
    }
    SpanIsLeastClosed(ms, start, end);
  }

  /** What holds of each of these bundles at its own position, the first one standing at `from`. */
  ghost predicate Each(p: (nat, Bundle) -> bool, from: nat, bundles: seq<Bundle>) {
    forall j :: 0 <= j < |bundles| ==> p(At(from, bundles, j), bundles[j])
  }

  function At(from: nat, bundles: seq<Bundle>, j: nat): nat
    requires j <= |bundles|
  {
    from + |Joined(bundles[..j])|
  }

  lemma EachFirst(p: (nat, Bundle) -> bool, from: nat, bundles: seq<Bundle>)
    requires bundles != [] && Each(p, from, bundles)
    ensures p(from, bundles[0]) && Each(p, from + |bundles[0].messages|, bundles[1..])
  {
    assert At(from, bundles, 0) == from by { assert bundles[..0] == []; }
    forall j | 0 <= j < |bundles| - 1 ensures p(At(from + |bundles[0].messages|, bundles[1..], j), bundles[1..][j]) {
      JoinedHead(bundles, j + 1);
      assert p(At(from, bundles, j + 1), bundles[j + 1]);
    }
  }

  lemma EachMore(p: (nat, Bundle) -> bool, from: nat, bundles: seq<Bundle>)
    requires bundles != [] && p(from, bundles[0]) && Each(p, from + |bundles[0].messages|, bundles[1..])
    ensures Each(p, from, bundles)
  {
    forall j | 0 <= j < |bundles| ensures p(At(from, bundles, j), bundles[j]) {
      if j > 0 {
        JoinedHead(bundles, j);
        assert p(At(from + |bundles[0].messages|, bundles[1..], j - 1), bundles[1..][j - 1]);
      } else {
        assert bundles[..0] == [];
      }
    }
  }

  /** The bundles of a conversation are proper ones, each beginning where those before it end. */
  ghost function Properly(ms: seq<Message>, estimate: Estimate, previous: Option<string>): (nat, Bundle) -> bool {
    (from: nat, b: Bundle) => Proper(ms, from, b, estimate, previous)
  }

  lemma {:induction false} BundlesProper(ms: seq<Message>, start: nat, estimate: Estimate, previous: Option<string>)
    requires start <= |ms|
    ensures Each(Properly(ms, estimate, previous), start, Bundles(ms, start, estimate, previous))
    decreases |ms| - start
  {
    if start < |ms| {
      SpanIsLeastSpan(ms, start);
      BundlesProper(ms, SpanEnd(ms, start), estimate, previous);
      EachMore(Properly(ms, estimate, previous), start, Bundles(ms, start, estimate, previous));
    }
  }

  /** The sum of the estimates of consecutive bundles, the first one standing at `from`. */
  function Cost(from: nat, bundles: seq<Bundle>, estimate: Estimate, previous: Option<string>): nat
    decreases |bundles|
  {
    if bundles == [] then 0
    else
      estimate(if from == 0 then previous else None, bundles[0].messages)
      + Cost(from + |bundles[0].messages|, bundles[1..], estimate, previous)
  }

  /** The sizes of the bundles are the estimates wherever `p` says so of one bundle. */
  lemma {:induction false} CostIsTotal(p: (nat, Bundle) -> bool, from: nat, bundles: seq<Bundle>, estimate: Estimate,
                                       previous: Option<string>)
    requires Each(p, from, bundles)
    requires forall at, b :: p(at, b) ==> b.tokens == estimate(if at == 0 then previous else None, b.messages)
    ensures Cost(from, bundles, estimate, previous) == Total(bundles)
    decreases |bundles|
  {
    if bundles != [] {
      EachFirst(p, from, bundles);
      CostIsTotal(p, from + |bundles[0].messages|, bundles[1..], estimate, previous);
      TotalHead(bundles);
    }
  }

  lemma {:induction false} TotalHead(bundles: seq<Bundle>)
    requires bundles != []
    ensures Total(bundles) == bundles[0].tokens + Total(bundles[1..])
  {
    var n := |bundles| - 1;
    if n > 0 {
      TotalHead(bundles[..n]);
      assert bundles[..n][1..] == bundles[1..][..n - 1];
    } else {
      assert bundles[..0] == [];
    }
  }

  /** The position where the `k`th chunk begins. */
  function ChunkStart(packs: seq<seq<Bundle>>, k: nat): nat
    requires k <= |packs|
  {
    |Joined(Flat(packs[..k]))|
  }

  lemma {:induction false} FlatSplits(packs: seq<seq<Bundle>>, k: nat)
    requires k < |packs|
    ensures Flat(packs[..k + 1]) == Flat(packs[..k]) + packs[k]
  {
    if k > 0 {
      FlatSplits(packs[1..], k - 1);
      assert packs[..k][1..] == packs[1..][..k - 1] && packs[..k + 1][1..] == packs[1..][..k];
    } else {
      assert packs[..1][1..] == [];
    }
  }

  lemma SliceAt(bundles: seq<Bundle>, before: seq<Bundle>, part: seq<Bundle>, j: nat)
    requires before + part <= bundles && j < |part|
    ensures bundles[|before| + j] == part[j] && At(0, bundles, |before| + j) == At(|Joined(before)|, part, j)
  {
    assert bundles[|before| + j] == (before + part)[|before| + j];
    assert bundles[..|before| + j] == (before + part)[..|before| + j] == before + part[..j];
    JoinedAppends(before, part[..j]);
  }

  lemma EachSlice(p: (nat, Bundle) -> bool, bundles: seq<Bundle>, before: seq<Bundle>, part: seq<Bundle>)
    requires Each(p, 0, bundles) && before + part <= bundles
    ensures Each(p, |Joined(before)|, part)
  {
    forall j | 0 <= j < |part| ensures p(At(|Joined(before)|, part, j), part[j]) {
      SliceAt(bundles, before, part, j);
      assert p(At(0, bundles, |before| + j), bundles[|before| + j]);
    }
  }

  lemma EachOfChunk(p: (nat, Bundle) -> bool, packs: seq<seq<Bundle>>, k: nat)
    requires Each(p, 0, Flat(packs)) && k < |packs|
    ensures Each(p, ChunkStart(packs, k), packs[k])
  {
    FlatSplits(packs, k);
    FlatPrefix(packs, k + 1);
    EachSlice(p, Flat(packs), Flat(packs[..k]), packs[k]);
  }

  lemma ChunkProper(ms: seq<Message>, target: nat, estimate: Estimate, previous: Option<string>, k: nat)
    requires k < |Packs(ms, target, estimate, previous)|
    ensures var packs := Packs(ms, target, estimate, previous);
      Each(Properly(ms, estimate, previous), ChunkStart(packs, k), packs[k])
  {
    var packs, bundles := Packs(ms, target, estimate, previous), Bundles(ms, 0, estimate, previous);
    PackKeeps(bundles, target, []);
    assert [] + bundles == bundles;
    BundlesProper(ms, 0, estimate, previous);
    EachOfChunk(Properly(ms, estimate, previous), packs, k);
  }

  /** A chunk is a row of least spans. By the estimates of their messages it exceeds the target only if it is a single one,
      and packing is greedy: the span that starts the next chunk did not fit. */
  lemma ChunkSizes(ms: seq<Message>, target: nat, estimate: Estimate, previous: Option<string>, k: nat)
    requires k < |Packs(ms, target, estimate, previous)|
    ensures var packs := Packs(ms, target, estimate, previous);
      var cost := Cost(ChunkStart(packs, k), packs[k], estimate, previous);
      && packs[k] != []
      && (forall j :: 0 <= j < |packs[k]| ==> LeastSpan(ms, At(ChunkStart(packs, k), packs[k], j), packs[k][j].messages))
      && (cost > target ==> |packs[k]| == 1)
      && (k + 1 < |packs| ==> packs[k + 1] != [] && cost + estimate(None, packs[k + 1][0].messages) > target)
  {
    var packs, properly := Packs(ms, target, estimate, previous), Properly(ms, estimate, previous);
    PackSizes(Bundles(ms, 0, estimate, previous), target, [], k);
    ChunkProper(ms, target, estimate, previous, k);
    CostIsTotal(properly, ChunkStart(packs, k), packs[k], estimate, previous);
    forall j | 0 <= j < |packs[k]| ensures LeastSpan(ms, At(ChunkStart(packs, k), packs[k], j), packs[k][j].messages) {
      assert properly(At(ChunkStart(packs, k), packs[k], j), packs[k][j]);
    }
    if k + 1 < |packs| {
      ChunkProper(ms, target, estimate, previous, k + 1);
      EachFirst(properly, ChunkStart(packs, k + 1), packs[k + 1]);
      EachFirst(properly, ChunkStart(packs, k), packs[k]);
      LaterChunk(packs, k);
    }
  }

  /** No chunk but the first one begins at the beginning. */
  lemma LaterChunk(packs: seq<seq<Bundle>>, k: nat)
    requires k + 1 < |packs| && packs[k] != [] && packs[k][0].messages != []
    ensures ChunkStart(packs, k + 1) > 0
  {
    FlatSplits(packs, k);
    JoinedAppends(Flat(packs[..k]), packs[k]);
    JoinedNotEmpty(packs[k]);
  }

  lemma JoinedNotEmpty(bundles: seq<Bundle>)
    requires bundles != [] && bundles[0].messages != []
    ensures Joined(bundles) != []
  {
    JoinedAppends([bundles[0]], bundles[1..]);
    assert [bundles[0]] + bundles[1..] == bundles;
    assert Joined([bundles[0]]) == bundles[0].messages;
  }

  // ---- The loops ----

  /** The table holds the last result's position for every identifier. */
  ghost predicate Tabulates(last: map<CallId, nat>, ms: seq<Message>) {
    forall id :: LastResult(ms, id) == if id in last then Some(last[id]) else None
  }

  method LastToolResults(ms: seq<Message>) returns (last: map<CallId, nat>)
    ensures Tabulates(last, ms)
  {
    last := map[];
    for index := 0 to |ms|
      invariant Tabulates(last, ms[..index])
    {
      var message := ms[index];
      assert ms[..index + 1][..index] == ms[..index];
      if message.ToolResult? {
        last := last[message.id := index];
      }
    }
    assert ms[..|ms|] == ms;
  }

  method ExtendThrough(ms: seq<Message>, last: map<CallId, nat>, calls: seq<CallId>, reached: nat) returns (end: nat)
    requires reached <= |ms| && Tabulates(last, ms)
    ensures end == Through(ms, calls, reached)
  {
    end := reached;
    for k := 0 to |calls|
      invariant end <= |ms|
      invariant Through(ms, calls[k..], end) == Through(ms, calls, reached)
    {
      var id := calls[k];
      assert LastResult(ms, id) == if id in last then Some(last[id]) else None;
      LastResultIsLast(ms, id);
      assert calls[k..][0] == id && calls[k..][1..] == calls[k + 1..];
      if id in last && last[id] >= end {
        end := last[id] + 1;
      }
    }
  }

  method ExtendSpan(ms: seq<Message>, last: map<CallId, nat>, index: nat) returns (end: nat)
    requires index < |ms| && Tabulates(last, ms)
    ensures end == SpanEnd(ms, index)
  {
    end := index + 1;
    var cursor := index;
    while cursor < end
      invariant index <= cursor <= end <= |ms|
      invariant Grow(ms, cursor, end) == SpanEnd(ms, index)
      decreases |ms| - cursor
    {
      end := ExtendThrough(ms, last, Calls(ms[cursor]), end);
      cursor := cursor + 1;
    }
  }

  function Truthy(s: Option<string>): Option<string> {
    if s == Some("") then None else s
  }

  method MakeBundles(ms: seq<Message>, estimate: Estimate, previousSummary: Option<string>) returns (groups: seq<Bundle>)
    ensures groups == Bundles(ms, 0, estimate, Truthy(previousSummary))
  {
    var last := LastToolResults(ms);
    var previous := Truthy(previousSummary);
    groups := [];
    var index := 0;
    while index < |ms|
      invariant index <= |ms| && (groups == [] <==> index == 0)
      invariant groups + Bundles(ms, index, estimate, previous) == Bundles(ms, 0, estimate, previous)
    {
      var end := ExtendSpan(ms, last, index);
      var bundle := ms[index..end];
      var tokens := estimate(if groups == [] then previous else None, bundle);
      BundlesHead(ms, groups, index, estimate, previous);
      groups := groups + [Bundle(bundle, tokens)];
      index := end;
    }
    assert groups + [] == groups;
  }

  lemma BundlesHead(ms: seq<Message>, groups: seq<Bundle>, start: nat, estimate: Estimate, previous: Option<string>)
    requires start < |ms|
    ensures var end := SpanEnd(ms, start);
      var first := Bundle(ms[start..end], estimate(if start == 0 then previous else None, ms[start..end]));
      groups + Bundles(ms, start, estimate, previous) == groups + [first] + Bundles(ms, end, estimate, previous)
  {
    var end := SpanEnd(ms, start);
    var first := Bundle(ms[start..end], estimate(if start == 0 then previous else None, ms[start..end]));
    assert groups + ([first] + Bundles(ms, end, estimate, previous)) == groups + [first] + Bundles(ms, end, estimate, previous);
  }

  method MakeChunks(ms: seq<Message>, targetTokens: nat, estimate: Estimate, previousSummary: Option<string>)
    returns (chunks: seq<seq<Message>>)
    ensures chunks == Chunks(Packs(ms, targetTokens, estimate, Truthy(previousSummary)))
  {
    var groups := MakeBundles(ms, estimate, previousSummary);
    chunks := [];
    var current, currentTokens := [], 0;
    ghost var packs, pack: seq<Bundle> := [], [];
    ghost var all := Pack(groups, targetTokens, []);
    for k := 0 to |groups|
      invariant current == Joined(pack) && currentTokens == Total(pack) && chunks == Chunks(packs)
      invariant pack == [] <==> current == []
      invariant packs + Pack(groups[k..], targetTokens, pack) == all
    {
      var group := groups[k];
      BundleNotEmpty(ms, estimate, Truthy(previousSummary), k);
      if current != [] && currentTokens + group.tokens > targetTokens {
        ChunksAppend(packs, pack);
        PackCloses(packs, pack, groups, k, targetTokens);
        chunks := chunks + [current];
        current, currentTokens := [], 0;
        packs, pack := packs + [pack], [];
      }
      PackTakes(pack, groups, k, targetTokens);
      current := current + group.messages;
      currentTokens := currentTokens + group.tokens;
      pack := pack + [group];
    }
    assert groups[|groups|..] == [];
    if current != [] {
      ChunksAppend(packs, pack);
      chunks := chunks + [current];
    } else {
      assert packs + [] == packs;
    }
  }

  /** A pack that would grow beyond the target is closed, and the next starts empty. */
  lemma PackCloses(packs: seq<seq<Bundle>>, pack: seq<Bundle>, groups: seq<Bundle>, k: nat, targetTokens: nat)
    requires k < |groups| && pack != [] && Total(pack) + groups[k].tokens > targetTokens
    ensures packs + Pack(groups[k..], targetTokens, pack) == packs + [pack] + Pack(groups[k..], targetTokens, [])
  {
    assert groups[k..][0] == groups[k] && [] + [groups[k]] == [groups[k]];
    assert packs + ([pack] + Pack(groups[k..][1..], targetTokens, [groups[k]]))
        == packs + [pack] + Pack(groups[k..][1..], targetTokens, [groups[k]]);
  }

  lemma PackTakes(pack: seq<Bundle>, groups: seq<Bundle>, k: nat, targetTokens: nat)
    requires k < |groups| && (pack == [] || Total(pack) + groups[k].tokens <= targetTokens)
    ensures Pack(groups[k..], targetTokens, pack) == Pack(groups[k + 1..], targetTokens, pack + [groups[k]])
    ensures Joined(pack + [groups[k]]) == Joined(pack) + groups[k].messages
    ensures Total(pack + [groups[k]]) == Total(pack) + groups[k].tokens
  {
    assert groups[k..][0] == groups[k] && groups[k..][1..] == groups[k + 1..];
    assert (pack + [groups[k]])[..|pack|] == pack;
  }

  lemma ChunksAppend(packs: seq<seq<Bundle>>, pack: seq<Bundle>)
    ensures Chunks(packs + [pack]) == Chunks(packs) + [Joined(pack)]
  {
  }

  lemma BundleNotEmpty(ms: seq<Message>, estimate: Estimate, previous: Option<string>, k: nat)
    requires k < |Bundles(ms, 0, estimate, previous)|
    ensures Bundles(ms, 0, estimate, previous)[k].messages != []
  {
    BundleNotEmptyFrom(ms, 0, estimate, previous, k);
  }

  lemma {:induction false} BundleNotEmptyFrom(ms: seq<Message>, start: nat, estimate: Estimate, previous: Option<string>, k: nat)
    requires start <= |ms| && k < |Bundles(ms, start, estimate, previous)|
    ensures Bundles(ms, start, estimate, previous)[k].messages != []
    decreases |ms| - start
  {
    if k > 0 {
      BundleNotEmptyFrom(ms, SpanEnd(ms, start), estimate, previous, k - 1);
    }
  }
}
