/** The reservation ledger of a budgeted model, as values. Money is exact. */
module BudgetLedger {
  import opened Options

  datatype Status = Reserved | Settled | Unknown

  /** `reservation` is what was set aside when the call started; `cost` what the provider last reported. */
  datatype Call = Call(reservation: real, status: Status, cost: Option<real>, error: Option<string>)

  datatype Limits = Limits(maxCalls: nat, maxCostUsd: real, maxOutputTokens: nat)

  datatype Ledger = Ledger(calls: seq<Call>, spentUsd: real, reservedUsd: real, blockedReason: Option<string>)

  const EMPTY := Ledger([], 0.0, 0.0, None)

  /** A number reported from outside: `None` when it is not finite. */
  type Reported = Option<real>

  datatype Stop = Finished | Errored | Aborted

  datatype Usage = Usage(input: Reported, output: Reported, cacheRead: Reported, cacheWrite: Reported, totalTokens: Reported,
                         inputCost: Reported, outputCost: Reported, cacheReadCost: Reported, cacheWriteCost: Reported,
                         totalCost: Reported)

  /** How a started request ends: the provider fails, or responds with usage. */
  datatype Response = Failed | Response(stop: Stop, usage: Usage)

  datatype StartError = InvalidMaxTokens | Blocked(reason: string)

  // ---- Blocking ----

  /** The first reason stays. */
  function Block(l: Ledger, reason: string): Ledger {
    if l.blockedReason.Some? then l else l.(blockedReason := Some(reason))
  }

  function MarkUnknown(l: Ledger, i: nat, reason: string): (n: Ledger)
    requires i < |l.calls|
    ensures |n.calls| == |l.calls| && (l.blockedReason.Some? ==> n.blockedReason == l.blockedReason)
  {
    Block(l.(calls := l.calls[i := l.calls[i].(status := Unknown, error := Some(reason))]),
          "Provider usage is unknown; future calls are blocked")
  }

  // ---- Starting ----

  const CALLS_SPENT := "Maximum provider call count reached"
  const BUDGET_SPENT := "Insufficient remaining cost budget for conservative request reservation"

  /** `reservation` is missing when the estimate is not finite. */
  function Start(limits: Limits, l: Ledger, reservation: Reported): (Ledger, Option<StartError>) {
    if l.blockedReason.Some? then (l, Some(Blocked(l.blockedReason.value)))
    else if |l.calls| >= limits.maxCalls then
      (Block(l, CALLS_SPENT), Some(Blocked(CALLS_SPENT)))
    else if reservation.None? || l.spentUsd + l.reservedUsd + reservation.value > limits.maxCostUsd then
      (Block(l, BUDGET_SPENT),
       Some(Blocked(BUDGET_SPENT)))
    else
      (l.(calls := l.calls + [Call(reservation.value, Reserved, None, None)], reservedUsd := l.reservedUsd + reservation.value), None)
  }

  /** A call starts exactly if nothing has blocked the ledger, the call limit leaves room, and the reservation is known
      and fits under the cap with all that is spent and reserved; the first of these that fails is the reason. */
  lemma StartMeaning(limits: Limits, l: Ledger, reservation: Reported)
    ensures var (n, refused) := Start(limits, l, reservation);
      var (room, fits) := (|l.calls| < limits.maxCalls,
                           reservation.Some? && l.spentUsd + l.reservedUsd + reservation.value <= limits.maxCostUsd);
      && (refused.None? <==> l.blockedReason.None? && room && fits)
      && n.spentUsd == l.spentUsd
      && (refused.None? ==>
            && n.calls == l.calls + [Call(reservation.value, Reserved, None, None)]
            && n.reservedUsd == l.reservedUsd + reservation.value && n.blockedReason.None?)
      && (refused.Some? ==>
            && n.calls == l.calls && n.reservedUsd == l.reservedUsd && refused.value.Blocked?
            && n.blockedReason == Some(refused.value.reason)
            && refused.value.reason == if l.blockedReason.Some? then l.blockedReason.value
                 else if !room then CALLS_SPENT
                 else BUDGET_SPENT)
  {
  }

  // ---- Settling ----

  predicate Countable(r: Reported) {
    r.Some? && r.value >= 0.0
  }

  predicate AllCountable(u: Usage) {
    && Countable(u.input) && Countable(u.output) && Countable(u.cacheRead) && Countable(u.cacheWrite)
    && Countable(u.totalTokens) && Countable(u.inputCost) && Countable(u.outputCost) && Countable(u.cacheReadCost)
    && Countable(u.cacheWriteCost) && Countable(u.totalCost)
  }

  function Abs(x: real): real {
    if x < 0.0 then -x else x
  }

  /** The reported total is the sum of its parts, up to a relative millionth. */
  predicate CostConsistent(u: Usage)
    requires AllCountable(u)
  {
    var parts := u.inputCost.value + u.outputCost.value + u.cacheReadCost.value + u.cacheWriteCost.value;
    var total := u.totalCost.value;
    var relative := Abs(total) * 0.000001;
    var tolerance := if relative > 0.000000000001 then relative else 0.000000000001;
    if parts == 0.0 then total == 0.0 else total > 0.0 && Abs(parts - total) <= tolerance
  }

  predicate ValidUsage(u: Usage) {
    && AllCountable(u)
    && u.input.value + u.output.value + u.cacheRead.value + u.cacheWrite.value > 0.0
    && CostConsistent(u)
  }

  /** Usage is valid exactly if all ten numbers are known and not negative, some token was used, and the reported total is
      within a millionth of the sum of its parts, or within 10^-12 dollars of it; nothing used up costs nothing. */
  lemma ValidUsageMeaning(u: Usage, tokens: real, parts: real)
    requires AllCountable(u) && tokens == u.input.value + u.output.value + u.cacheRead.value + u.cacheWrite.value
    requires parts == u.inputCost.value + u.outputCost.value + u.cacheReadCost.value + u.cacheWriteCost.value
    ensures var total := u.totalCost.value;
      ValidUsage(u) <==> (
        && tokens > 0.0
        && if parts == 0.0 then total == 0.0
           else total > 0.0 && (-0.000001 * total <= parts - total <= 0.000001 * total
                                || -0.000000000001 <= parts - total <= 0.000000000001))
  {
  }

  /** A settled call gives its reservation back and is paid for. */
  function Paying(l: Ledger, i: nat): Ledger
    requires i < |l.calls| && l.calls[i].cost.Some?
  {
    l.(calls := l.calls[i := l.calls[i].(status := Settled)],
       reservedUsd := l.reservedUsd - l.calls[i].reservation, spentUsd := l.spentUsd + l.calls[i].cost.value)
  }

  const EXCEEDED := "Reported provider cost exceeded the conservative reservation or budget"

  /** A payment beyond the reservation or the cap blocks the ledger. */
  function Capped(limits: Limits, settled: Ledger, dear: bool): Ledger {
    if dear || settled.spentUsd + settled.reservedUsd > limits.maxCostUsd then
      Block(settled, EXCEEDED)
    else settled
  }

  /** The bookkeeping of one response. Usage that is missing, failed or implausible keeps its reservation. */
  function Settle(limits: Limits, l: Ledger, i: nat, r: Response): Ledger
    requires i < |l.calls|
  {
    match r
    case Failed => MarkUnknown(l, i, "Provider response or usage is invalid")
    case Response(stop, u) =>
      var noted := l.(calls := l.calls[i := l.calls[i].(cost := u.totalCost)]);
      if stop.Errored? then MarkUnknown(noted, i, "Provider returned an error response")
      else if stop.Aborted? then MarkUnknown(noted, i, "Provider request aborted")
      else if !ValidUsage(u) then
        MarkUnknown(MarkUnknown(noted, i, "Provider usage is invalid"), i, "Provider response or usage is invalid")
      else
        Capped(limits, Paying(noted, i), u.totalCost.value > l.calls[i].reservation)
  }

  /** A response settles its call exactly if it finished with valid usage: then the reservation is given back and the
      reported cost is paid, and the ledger blocks exactly if that is more than was reserved or goes over the cap. Any
      other response keeps the reservation and blocks. No other call changes. */
  lemma SettleMeaning(limits: Limits, l: Ledger, i: nat, r: Response)
    requires i < |l.calls| && l.calls[i].status.Reserved?
    ensures var n := Settle(limits, l, i, r);
      && |n.calls| == |l.calls| && (forall k :: 0 <= k < |l.calls| && k != i ==> n.calls[k] == l.calls[k])
      && n.calls[i].reservation == l.calls[i].reservation
      && (n.calls[i].status.Settled? <==> r.Response? && r.stop.Finished? && ValidUsage(r.usage))
      && (n.calls[i].status.Settled? ==> PaidFor(limits, l, i, r.usage.totalCost.value, n))
      && (!n.calls[i].status.Settled? ==>
            n.calls[i].status.Unknown? && n.spentUsd == l.spentUsd && n.reservedUsd == l.reservedUsd && n.blockedReason.Some?)
      && (l.blockedReason.Some? ==> n.blockedReason == l.blockedReason)
  {
  }

  ghost predicate PaidFor(limits: Limits, l: Ledger, i: nat, cost: real, n: Ledger)
    requires i < |l.calls| && |n.calls| == |l.calls|
  {
    && n.calls[i].cost == Some(cost)
    && n.spentUsd == l.spentUsd + cost && n.reservedUsd == l.reservedUsd - l.calls[i].reservation
    && (l.blockedReason.None? ==>
          n.blockedReason == if cost > l.calls[i].reservation || n.spentUsd + n.reservedUsd > limits.maxCostUsd
                             then Some(EXCEEDED) else None)
  }

  // ---- The audit ----

  function Outstanding(c: Call): real {
    if c.status.Settled? then 0.0 else c.reservation
  }

  function Paid(c: Call): real {
    if c.status.Settled? && c.cost.Some? then c.cost.value else 0.0
  }

  function TotalOutstanding(calls: seq<Call>): real {
    if calls == [] then 0.0 else TotalOutstanding(calls[..|calls| - 1]) + Outstanding(calls[|calls| - 1])
  }

  function TotalPaid(calls: seq<Call>): real {
    if calls == [] then 0.0 else TotalPaid(calls[..|calls| - 1]) + Paid(calls[|calls| - 1])
  }

  /** The running sums are what the call records add up to, */
  ghost predicate Balanced(l: Ledger) {
    && l.reservedUsd == TotalOutstanding(l.calls)
    && l.spentUsd == TotalPaid(l.calls)
    && (forall i :: 0 <= i < |l.calls| ==> Sound(l, l.calls[i]))
  }

  /** and stay within the cap unless the ledger is blocked. */
  ghost predicate Audited(limits: Limits, l: Ledger) {
    && Balanced(l)
    && (l.blockedReason.None? ==> l.spentUsd + l.reservedUsd <= limits.maxCostUsd)
    && |l.calls| <= limits.maxCalls
  }

  predicate Sound(l: Ledger, c: Call) {
    && c.reservation >= 0.0
    && (c.status.Settled? ==> c.cost.Some? && c.cost.value >= 0.0)
    && (c.status.Unknown? ==> l.blockedReason.Some?)
  }

  lemma {:induction false} SumsUpdated(calls: seq<Call>, i: nat, c: Call)
    requires i < |calls|
    ensures TotalOutstanding(calls[i := c]) == TotalOutstanding(calls) - Outstanding(calls[i]) + Outstanding(c)
    ensures TotalPaid(calls[i := c]) == TotalPaid(calls) - Paid(calls[i]) + Paid(c)
  {
    var n := |calls| - 1;
    if i < n {
      SumsUpdated(calls[..n], i, c);
      assert calls[i := c][..n] == calls[..n][i := c];
    } else {
      assert calls[i := c][..n] == calls[..n];
    }
  }

  /** A blocked ledger need not be within the cap. */
  lemma BlockAudited(limits: Limits, l: Ledger, reason: string)
    requires Balanced(l) && |l.calls| <= limits.maxCalls
    ensures Audited(limits, Block(l, reason))
  {
    forall k | 0 <= k < |l.calls| ensures Sound(Block(l, reason), l.calls[k]) {
      assert Sound(l, l.calls[k]);
    }
  }

  lemma ReserveAudited(limits: Limits, l: Ledger, reservation: real)
    requires Audited(limits, l) && reservation >= 0.0 && |l.calls| < limits.maxCalls
    requires l.spentUsd + l.reservedUsd + reservation <= limits.maxCostUsd
    ensures Audited(limits, l.(calls := l.calls + [Call(reservation, Reserved, None, None)], reservedUsd := l.reservedUsd + reservation))
  {
    var n := l.calls + [Call(reservation, Reserved, None, None)];
    assert n[..|n| - 1] == l.calls;
    forall k | 0 <= k < |n| ensures Sound(l, n[k]) {
      if k < |l.calls| {
        assert Sound(l, l.calls[k]);
      }
    }
  }

  lemma StartAudited(limits: Limits, l: Ledger, reservation: Reported)
    requires Audited(limits, l) && (reservation.Some? ==> reservation.value >= 0.0)
    ensures Audited(limits, Start(limits, l, reservation).0)
  {
    if l.blockedReason.None? {
      if |l.calls| >= limits.maxCalls {
        BlockAudited(limits, l, CALLS_SPENT);
      } else if reservation.None? || l.spentUsd + l.reservedUsd + reservation.value > limits.maxCostUsd {
        BlockAudited(limits, l, BUDGET_SPENT);
      } else {
        ReserveAudited(limits, l, reservation.value);
      }
    }
  }

  lemma MarkAudited(limits: Limits, l: Ledger, i: nat, reason: string)
    requires Audited(limits, l) && i < |l.calls| && !l.calls[i].status.Settled?
    ensures Audited(limits, MarkUnknown(l, i, reason))
    ensures MarkUnknown(l, i, reason).reservedUsd == l.reservedUsd && MarkUnknown(l, i, reason).spentUsd == l.spentUsd
  {
    var n := MarkUnknown(l, i, reason);
    SumsUpdated(l.calls, i, n.calls[i]);
    forall k | 0 <= k < |n.calls| ensures Sound(n, n.calls[k]) {
      assert Sound(l, l.calls[k]);
    }
  }

  lemma NotedAudited(limits: Limits, l: Ledger, i: nat, cost: Reported)
    requires Audited(limits, l) && i < |l.calls| && l.calls[i].status.Reserved?
    ensures Audited(limits, l.(calls := l.calls[i := l.calls[i].(cost := cost)]))
  {
    var n := l.(calls := l.calls[i := l.calls[i].(cost := cost)]);
    SumsUpdated(l.calls, i, n.calls[i]);
    forall k | 0 <= k < |n.calls| ensures Sound(n, n.calls[k]) {
      assert Sound(l, l.calls[k]);
    }
  }

  /** A call settles once: it is still reserved when its response arrives. */
  lemma SettleAudited(limits: Limits, l: Ledger, i: nat, r: Response)
    requires Audited(limits, l) && i < |l.calls| && l.calls[i].status.Reserved?
    ensures Audited(limits, Settle(limits, l, i, r))
  {
    match r
    case Failed => MarkAudited(limits, l, i, "Provider response or usage is invalid");
    case Response(stop, u) =>
      var noted := l.(calls := l.calls[i := l.calls[i].(cost := u.totalCost)]);
      NotedAudited(limits, l, i, u.totalCost);
      if stop.Errored? {
        MarkAudited(limits, noted, i, "Provider returned an error response");
      } else if stop.Aborted? {
        MarkAudited(limits, noted, i, "Provider request aborted");
      } else if !ValidUsage(u) {
        MarkAudited(limits, noted, i, "Provider usage is invalid");
        MarkAudited(limits, MarkUnknown(noted, i, "Provider usage is invalid"), i, "Provider response or usage is invalid");
      } else {
        PaidAudited(limits, l, i, u);
      }
  }

  lemma PaidAudited(limits: Limits, l: Ledger, i: nat, u: Usage)
    requires Audited(limits, l) && i < |l.calls| && l.calls[i].status.Reserved? && ValidUsage(u)
    ensures Audited(limits, Settle(limits, l, i, Response(Finished, u)))
  {
    var noted := l.(calls := l.calls[i := l.calls[i].(cost := u.totalCost)]);
    NotedAudited(limits, l, i, u.totalCost);
    SettledAudited(limits, noted, i);
    CappedAudited(limits, Paying(noted, i), u.totalCost.value > l.calls[i].reservation);
  }

  /** What is paid is within the cap, or the ledger is blocked. */
  lemma CappedAudited(limits: Limits, settled: Ledger, dear: bool)
    requires Balanced(settled) && |settled.calls| <= limits.maxCalls
    ensures Audited(limits, Capped(limits, settled, dear))
  {
    if dear || settled.spentUsd + settled.reservedUsd > limits.maxCostUsd {
      BlockAudited(limits, settled, EXCEEDED);
    }
  }

  lemma SettledAudited(limits: Limits, l: Ledger, i: nat)
    requires Audited(limits, l) && i < |l.calls| && l.calls[i].status.Reserved?
    requires l.calls[i].cost.Some? && l.calls[i].cost.value >= 0.0
    ensures Balanced(Paying(l, i))
  {
    var n := l.calls[i := l.calls[i].(status := Settled)];
    SumsUpdated(l.calls, i, n[i]);
    forall k | 0 <= k < |n| ensures Sound(l, n[k]) {
      assert Sound(l, l.calls[k]);
    }
  }

  // ---- Every interleaving ----

  datatype Action = Begin(reservation: Reported) | StartFails(call: nat) | Respond(call: nat, response: Response)

  predicate Enabled(l: Ledger, a: Action) {
    match a
    case Begin(reservation) => reservation.Some? ==> reservation.value >= 0.0
    case StartFails(i) => i < |l.calls| && l.calls[i].status.Reserved?
    case Respond(i, _) => i < |l.calls| && l.calls[i].status.Reserved?
  }

  function Next(limits: Limits, l: Ledger, a: Action): Ledger
    requires Enabled(l, a)
  {
    match a
    case Begin(reservation) => Start(limits, l, reservation).0
    case StartFails(i) => MarkUnknown(l, i, "Provider request failed")
    case Respond(i, r) => Settle(limits, l, i, r)
  }

  ghost predicate IsRun(limits: Limits, states: seq<Ledger>, actions: seq<Action>) {
    && |states| == |actions| + 1 && states[0] == EMPTY
    && forall i :: 0 <= i < |actions| ==> StepAt(limits, states, actions, i)
  }

  ghost predicate StepAt(limits: Limits, states: seq<Ledger>, actions: seq<Action>, i: nat)
    requires |states| == |actions| + 1 && i < |actions|
  {
    Enabled(states[i], actions[i]) && states[i + 1] == Next(limits, states[i], actions[i])
  }

  /** Ledger safety: over any interleaving of starts and settlements the sums are right, the cap holds unless
      the ledger is blocked, and the number of calls stays within its limit. */
  lemma {:induction false} LedgerSafety(limits: Limits, states: seq<Ledger>, actions: seq<Action>, i: nat)
    requires IsRun(limits, states, actions) && i < |states| && limits.maxCostUsd >= 0.0
    ensures Audited(limits, states[i])
  {
    if i > 0 {
      LedgerSafety(limits, states, actions, i - 1);
      assert StepAt(limits, states, actions, i - 1);
      StepAudited(limits, states[i - 1], actions[i - 1]);
    }
  }

  lemma StepAudited(limits: Limits, l: Ledger, a: Action)
    requires Audited(limits, l) && Enabled(l, a)
    ensures Audited(limits, Next(limits, l, a))
  {
    match a
    case Begin(reservation) => StartAudited(limits, l, reservation);
    case StartFails(c) => MarkAudited(limits, l, c, "Provider request failed");
    case Respond(c, r) => SettleAudited(limits, l, c, r);
  }

  /** Once blocked the ledger stays blocked, for the same reason, and no further call starts. */
  lemma {:induction false} NoCallAfterBlocking(limits: Limits, states: seq<Ledger>, actions: seq<Action>, i: nat, j: nat)
    requires IsRun(limits, states, actions) && i <= j < |states| && states[i].blockedReason.Some?
    ensures states[j].blockedReason == states[i].blockedReason && |states[j].calls| == |states[i].calls|
    decreases j
  {
    if i < j {
      NoCallAfterBlocking(limits, states, actions, i, j - 1);
      assert StepAt(limits, states, actions, j - 1);
      StaysBlocked(limits, states[j - 1], actions[j - 1]);
    }
  }

  lemma StaysBlocked(limits: Limits, l: Ledger, a: Action)
    requires Enabled(l, a) && l.blockedReason.Some?
    ensures Next(limits, l, a).blockedReason == l.blockedReason && |Next(limits, l, a).calls| == |l.calls|
  {
    if a.Respond? {
      SettleStaysBlocked(limits, l, a.call, a.response);
    }
  }

  lemma SettleStaysBlocked(limits: Limits, l: Ledger, i: nat, r: Response)
    requires i < |l.calls| && l.blockedReason.Some?
    ensures Settle(limits, l, i, r).blockedReason == l.blockedReason && |Settle(limits, l, i, r).calls| == |l.calls|
  {
  }

  // ---- The reservation covers the bill ----

  /** No tier pays the caller. */
  type Price = p: real | p >= 0.0

  datatype Rates = Rates(input: Price, output: Price, cacheRead: Price, cacheWrite: Price)

  function Larger(a: real, b: real): real {
    if a < b then b else a
  }

  /** The dearest way to be billed for an input token under any tier. */
  function InputRate(rates: seq<Rates>): Price {
    if rates == [] then 0.0
    else Larger(Larger(Larger(rates[0].input, rates[0].cacheRead), rates[0].cacheWrite), InputRate(rates[1..]))
  }

  function OutputRate(rates: seq<Rates>): Price {
    if rates == [] then 0.0 else Larger(rates[0].output, OutputRate(rates[1..]))
  }

  function Amount(bytes: real, tokens: real, high: real, dear: real): real {
    (bytes * high + tokens * dear) / 1000000.0
  }

  function Reservation(rates: seq<Rates>, inputBytes: real, outputTokens: real): (usd: real)
    ensures inputBytes >= 0.0 && outputTokens >= 0.0 ==> usd >= 0.0
  {
    NotNegative(inputBytes, InputRate(rates));
    NotNegative(outputTokens, OutputRate(rates));
    Amount(inputBytes, outputTokens, InputRate(rates), OutputRate(rates))
  }

  lemma NotNegative(amount: real, price: Price)
    ensures amount >= 0.0 ==> amount * price >= 0.0
  {
  }

  lemma {:induction false} RatesBound(rates: seq<Rates>, r: Rates)
    requires r in rates
    ensures r.input <= InputRate(rates) && r.cacheRead <= InputRate(rates) && r.cacheWrite <= InputRate(rates)
    ensures r.output <= OutputRate(rates)
  {
    if r != rates[0] {
      RatesBound(rates[1..], r);
    }
  }

  lemma Priced(tokens: real, rate: real, bound: real)
    requires tokens >= 0.0 && rate <= bound
    ensures tokens * rate <= tokens * bound
  {
  }

  /** What a tier charges for so many tokens of each kind. */
  function Bill(r: Rates, input: real, output: real, cacheRead: real, cacheWrite: real): real {
    (input * r.input + cacheRead * r.cacheRead + cacheWrite * r.cacheWrite + output * r.output) / 1000000.0
  }

  /** The reservation is conservative: a call billed by any one tier, with no more input tokens of all kinds
      than bytes were counted and no more output than reserved, costs no more than was reserved. */
  lemma ReservationCovers(rates: seq<Rates>, r: Rates, inputBytes: real, outputTokens: real,
                          input: real, output: real, cacheRead: real, cacheWrite: real)
    requires r in rates
    requires input >= 0.0 && cacheRead >= 0.0 && cacheWrite >= 0.0 && input + cacheRead + cacheWrite <= inputBytes
    requires 0.0 <= output <= outputTokens
    ensures Bill(r, input, output, cacheRead, cacheWrite) <= Reservation(rates, inputBytes, outputTokens)
  {
    RatesBound(rates, r);
    CoveredAt(r, InputRate(rates), OutputRate(rates), inputBytes, outputTokens, input, output, cacheRead, cacheWrite);
  }

  lemma CoveredAt(r: Rates, high: real, dear: real, inputBytes: real, outputTokens: real,
                  input: real, output: real, cacheRead: real, cacheWrite: real)
    requires high >= 0.0 && dear >= 0.0 && r.input <= high && r.cacheRead <= high && r.cacheWrite <= high && r.output <= dear
    requires input >= 0.0 && cacheRead >= 0.0 && cacheWrite >= 0.0 && input + cacheRead + cacheWrite <= inputBytes
    requires 0.0 <= output <= outputTokens
    ensures Bill(r, input, output, cacheRead, cacheWrite) <= Amount(inputBytes, outputTokens, high, dear)
  {
    InputsCovered(r, input, cacheRead, cacheWrite, inputBytes, high);
    OutputCovered(r, output, outputTokens, dear);
  }

  lemma OutputCovered(r: Rates, output: real, tokens: real, dear: real)
    requires 0.0 <= output <= tokens && r.output <= dear && dear >= 0.0
    ensures output * r.output <= tokens * dear
  {
    Priced(output, r.output, dear);
    Cheaper(output, tokens, dear);
  }

  lemma InputsCovered(r: Rates, input: real, cacheRead: real, cacheWrite: real, bytes: real, high: real)
    requires input >= 0.0 && cacheRead >= 0.0 && cacheWrite >= 0.0 && input + cacheRead + cacheWrite <= bytes && high >= 0.0
    requires r.input <= high && r.cacheRead <= high && r.cacheWrite <= high
    ensures input * r.input + cacheRead * r.cacheRead + cacheWrite * r.cacheWrite <= bytes * high
  {
    Priced(input, r.input, high);
    Priced(cacheRead, r.cacheRead, high);
    Priced(cacheWrite, r.cacheWrite, high);
    Distributes(input, cacheRead, cacheWrite, high);
    Cheaper(input + cacheRead + cacheWrite, bytes, high);
    Chained(input * r.input, cacheRead * r.cacheRead, cacheWrite * r.cacheWrite,
            input * high, cacheRead * high, cacheWrite * high, bytes * high);
  }

  lemma Chained(a: real, b: real, c: real, x: real, y: real, z: real, top: real)
    requires a <= x && b <= y && c <= z && x + y + z <= top
    ensures a + b + c <= top
  {
  }

  lemma Distributes(a: real, b: real, c: real, rate: real)
    ensures a * rate + b * rate + c * rate == (a + b + c) * rate
  {
  }

  lemma Cheaper(a: real, b: real, rate: real)
    requires a <= b && rate >= 0.0
    ensures a * rate <= b * rate
  {
  }

  // ---- The reservation is no more than that ----

  /** The most any tier charges for a token of input, of whichever kind; nothing if there is no tier. */
  ghost predicate DearestInput(rates: seq<Rates>, rate: real) {
    && (forall r :: r in rates ==> r.input <= rate && r.cacheRead <= rate && r.cacheWrite <= rate)
    && (if rates == [] then rate == 0.0 else exists r :: r in rates && (r.input == rate || r.cacheRead == rate || r.cacheWrite == rate))
  }

  ghost predicate DearestOutput(rates: seq<Rates>, rate: real) {
    && (forall r :: r in rates ==> r.output <= rate)
    && (if rates == [] then rate == 0.0 else exists r :: r in rates && r.output == rate)
  }

  lemma {:induction false} InputRateDearest(rates: seq<Rates>)
    ensures DearestInput(rates, InputRate(rates))
  {
    if rates != [] {
      InputRateDearest(rates[1..]);
      assert rates[0] in rates;
      assert forall r :: r in rates <==> r == rates[0] || r in rates[1..];
    }
  }

  lemma {:induction false} OutputRateDearest(rates: seq<Rates>)
    ensures DearestOutput(rates, OutputRate(rates))
  {
    if rates != [] {
      OutputRateDearest(rates[1..]);
      assert rates[0] in rates;
      assert forall r :: r in rates <==> r == rates[0] || r in rates[1..];
    }
  }

  /** The amount is what the bytes and the tokens cost at these rates per million. */
  ghost predicate Costs(usd: real, bytes: real, tokens: real, high: real, dear: real) {
    usd * 1000000.0 == bytes * high + tokens * dear
  }

  /** The reservation is what exactly these counts cost at the dearest rates. */
  lemma ReservationExact(rates: seq<Rates>, inputBytes: real, outputTokens: real, high: real, dear: real)
    requires DearestInput(rates, high) && DearestOutput(rates, dear)
    ensures Costs(Reservation(rates, inputBytes, outputTokens), inputBytes, outputTokens, high, dear)
  {
    DearestUnique(rates, high, dear);
    AmountCosts(inputBytes, outputTokens, high, dear);
  }

  lemma DearestUnique(rates: seq<Rates>, high: real, dear: real)
    requires DearestInput(rates, high) && DearestOutput(rates, dear)
    ensures high == InputRate(rates) && dear == OutputRate(rates)
  {
    InputRateDearest(rates);
    OutputRateDearest(rates);
  }

  lemma AmountCosts(bytes: real, tokens: real, high: real, dear: real)
    ensures Costs(Amount(bytes, tokens, high, dear), bytes, tokens, high, dear)
  {
    Undivided(bytes * high + tokens * dear);
  }

  lemma Undivided(amount: real)
    ensures amount / 1000000.0 * 1000000.0 == amount
  {
  }
}
