/** The budgeted model: its ledger changes when a request starts and when its response is metered. */
module BudgetedModel {
  import opened Options
  import opened BudgetLedger

  /** What a request is estimated by; `expand` is the adapter's reserve for reasoning. */
  datatype Request = Request(maxTokens: Option<int>, contextBytes: nat, rates: seq<Rates>, modelMaxTokens: nat, expand: nat -> nat)

  function Smaller(a: int, b: int): int {
    if a < b then a else b
  }

  function OutputCap(limits: Limits, r: Request): int {
    var requested := if r.maxTokens.Some? then r.maxTokens.value else limits.maxOutputTokens;
    Smaller(Smaller(requested, limits.maxOutputTokens), r.modelMaxTokens)
  }

  function Estimate(limits: Limits, r: Request): (usd: real)
    ensures usd >= 0.0
  {
    var cap := OutputCap(limits, r);
    Reservation(r.rates, (r.contextBytes + 256) as real, r.expand(if cap < 0 then 0 else cap) as real)
  }

  // ---- What is reserved ----

  /** The least of what is asked for and what the limits and the model allow. */
  ghost predicate IsOutputCap(limits: Limits, r: Request, cap: nat) {
    var requested := if r.maxTokens.Some? then r.maxTokens.value else limits.maxOutputTokens;
    && cap <= requested && cap <= limits.maxOutputTokens && cap <= r.modelMaxTokens
    && (cap == requested || cap == limits.maxOutputTokens || cap == r.modelMaxTokens)
  }

  /** The counts of a bill are within what the request may use: a token of input for each byte of its context and of the
      framing allowance, and as much output as the adapter may ask for under the cap. */
  ghost predicate Within(limits: Limits, r: Request, input: real, output: real, cacheRead: real, cacheWrite: real) {
    && input >= 0.0 && output >= 0.0 && cacheRead >= 0.0 && cacheWrite >= 0.0
    && input + cacheRead + cacheWrite <= (r.contextBytes + 256) as real
    && exists cap: nat :: IsOutputCap(limits, r, cap) && output <= r.expand(cap) as real
  }

  /** The amount covers every bill of the request under any one tier. */
  ghost predicate CoversBills(limits: Limits, r: Request, usd: real) {
    forall rate, input, output, cacheRead, cacheWrite ::
      rate in r.rates && Within(limits, r, input, output, cacheRead, cacheWrite) ==>
        Bill(rate, input, output, cacheRead, cacheWrite) <= usd
  }

  /** The amount is what those very counts cost at the dearest rates of all tiers. */
  ghost predicate NoMore(limits: Limits, r: Request, usd: real) {
    forall cap: nat, high, dear :: IsOutputCap(limits, r, cap) && DearestInput(r.rates, high) && DearestOutput(r.rates, dear) ==>
      Costs(usd, (r.contextBytes + 256) as real, r.expand(cap) as real, high, dear)
  }

  ghost predicate ReservedFor(limits: Limits, r: Request, usd: real) {
    CoversBills(limits, r, usd) && NoMore(limits, r, usd)
  }

  lemma CapIs(limits: Limits, r: Request, cap: nat)
    requires r.maxTokens.Some? ==> r.maxTokens.value > 0
    ensures OutputCap(limits, r) >= 0 && (IsOutputCap(limits, r, cap) <==> cap == OutputCap(limits, r))
  {
  }

  lemma EstimateCovers(limits: Limits, r: Request)
    requires r.maxTokens.Some? ==> r.maxTokens.value > 0
    ensures CoversBills(limits, r, Estimate(limits, r))
  {
    forall rate, input, output, cacheRead, cacheWrite | rate in r.rates && Within(limits, r, input, output, cacheRead, cacheWrite)
      ensures Bill(rate, input, output, cacheRead, cacheWrite) <= Estimate(limits, r)
    {
      BillCovered(limits, r, rate, input, output, cacheRead, cacheWrite);
    }
  }

  lemma BillCovered(limits: Limits, r: Request, rate: Rates, input: real, output: real, cacheRead: real, cacheWrite: real)
    requires (r.maxTokens.Some? ==> r.maxTokens.value > 0) && rate in r.rates
    requires Within(limits, r, input, output, cacheRead, cacheWrite)
    ensures Bill(rate, input, output, cacheRead, cacheWrite) <= Estimate(limits, r)
  {
    var cap: nat :| IsOutputCap(limits, r, cap) && output <= r.expand(cap) as real;
    CapIs(limits, r, cap);
    ReservationCovers(r.rates, rate, (r.contextBytes + 256) as real, r.expand(cap) as real, input, output, cacheRead, cacheWrite);
  }

  lemma EstimateExact(limits: Limits, r: Request)
    requires r.maxTokens.Some? ==> r.maxTokens.value > 0
    ensures NoMore(limits, r, Estimate(limits, r))
  {
    forall cap: nat, high, dear | IsOutputCap(limits, r, cap) && DearestInput(r.rates, high) && DearestOutput(r.rates, dear)
      ensures Costs(Estimate(limits, r), (r.contextBytes + 256) as real, r.expand(cap) as real, high, dear)
    {
      CapIs(limits, r, cap);
      ReservationExact(r.rates, (r.contextBytes + 256) as real, r.expand(cap) as real, high, dear);
    }
  }

  lemma EstimateReserves(limits: Limits, r: Request)
    requires r.maxTokens.Some? ==> r.maxTokens.value > 0
    ensures ReservedFor(limits, r, Estimate(limits, r))
  {
    EstimateCovers(limits, r);
    EstimateExact(limits, r);
  }

  /** There is an output cap and a dearest rate of each kind, so the amount is determined. */
  lemma Determined(limits: Limits, r: Request, a: real, b: real)
    requires (r.maxTokens.Some? ==> r.maxTokens.value > 0) && NoMore(limits, r, a) && NoMore(limits, r, b)
    ensures a == b
  {
    var cap: nat := if OutputCap(limits, r) < 0 then 0 else OutputCap(limits, r);
    CapIs(limits, r, cap);
    InputRateDearest(r.rates);
    OutputRateDearest(r.rates);
    var (high, dear) := (InputRate(r.rates), OutputRate(r.rates));
    assert Costs(a, (r.contextBytes + 256) as real, r.expand(cap) as real, high, dear);
    assert Costs(b, (r.contextBytes + 256) as real, r.expand(cap) as real, high, dear);
  }

  class Model {
    const limits: Limits
    var calls: seq<Call>
    var spentUsd: real
    var reservedUsd: real
    var blockedReason: Option<string>

    constructor (limits: Limits)
      ensures this.limits == limits && Contents() == EMPTY
    {
      this.limits := limits;
      calls, spentUsd, reservedUsd, blockedReason := [], 0.0, 0.0, None;
    }

    function Contents(): Ledger
      reads this
    {
      Ledger(calls, spentUsd, reservedUsd, blockedReason)
    }

    method BlockFor(reason: string)
      modifies this`blockedReason
      ensures Contents() == Block(old(Contents()), reason)
    {
      if blockedReason.None? {
        blockedReason := Some(reason);
      }
    }

    method MarkCallUnknown(i: nat, reason: string)
      requires i < |calls|
      modifies this`calls, this`blockedReason
      ensures Contents() == MarkUnknown(old(Contents()), i, reason)
    {
      calls := calls[i := calls[i].(status := Unknown, error := Some(reason))];
      BlockFor("Provider usage is unknown; future calls are blocked");
    }

    /** Reserves before the provider is asked; `launched` is whether the provider accepted the request. */
    method StartRequest(r: Request, launched: bool) returns (started: Result<nat, StartError>)
      modifies this
      ensures var requested := if r.maxTokens.Some? then r.maxTokens.value else limits.maxOutputTokens;
        var (action, refused) := (Begin(Some(Estimate(limits, r))), Start(limits, old(Contents()), Some(Estimate(limits, r))).1);
        var after := Next(limits, old(Contents()), action);
        if requested <= 0 then started == Failure(InvalidMaxTokens) && Contents() == old(Contents())
        else if refused.Some? then started == Failure(refused.value) && Contents() == after
        else if !launched then
          started.Failure? && Enabled(after, StartFails(|old(calls)|))
          && Contents() == Next(limits, after, StartFails(|old(calls)|))
        else started == Success(|old(calls)|) && Contents() == after
      ensures started.Success? ==>
        && calls[..started.value] == old(calls) && |calls| == started.value + 1 && calls[started.value].status.Reserved?
        && ReservedFor(limits, r, calls[started.value].reservation)
        && reservedUsd == old(reservedUsd) + calls[started.value].reservation
        && spentUsd + reservedUsd <= limits.maxCostUsd
    {
      var requested := if r.maxTokens.Some? then r.maxTokens.value else limits.maxOutputTokens;
      if requested <= 0 {
        return Failure(InvalidMaxTokens);
      }
      var reservation := Estimate(limits, r);
      EstimateReserves(limits, r);
      if blockedReason.Some? {
        return Failure(Blocked(blockedReason.value));
      }
      if |calls| >= limits.maxCalls {
        BlockFor(CALLS_SPENT);
        return Failure(Blocked(blockedReason.value));
      }
      if spentUsd + reservedUsd + reservation > limits.maxCostUsd {
        BlockFor(BUDGET_SPENT);
        return Failure(Blocked(blockedReason.value));
      }
      var i := |calls|;
      calls := calls + [Call(reservation, Reserved, None, None)];
      reservedUsd := reservedUsd + reservation;
      if !launched {
        MarkCallUnknown(i, "Provider request failed");
        return Failure(Blocked("Provider request failed"));
      }
      return Success(i);
    }

    /** Each call is metered once, while it is still reserved. */
    method Meter(i: nat, r: Response)
      requires i < |calls| && calls[i].status.Reserved?
      modifies this
      ensures Contents() == Next(limits, old(Contents()), Respond(i, r))
    {
      match r
      case Failed => MarkCallUnknown(i, "Provider response or usage is invalid");
      case Response(stop, u) =>
        calls := calls[i := calls[i].(cost := u.totalCost)];
        if stop.Errored? {
          MarkCallUnknown(i, "Provider returned an error response");
        } else if stop.Aborted? {
          MarkCallUnknown(i, "Provider request aborted");
        } else if !ValidUsage(u) {
          MarkCallUnknown(i, "Provider usage is invalid");
          MarkCallUnknown(i, "Provider response or usage is invalid");
        } else {
          Pay(i);
        }
    }

    /** Gives the reservation back and pays what the call cost. */
    method Pay(i: nat)
      requires i < |calls| && calls[i].cost.Some?
      modifies this
      ensures Contents() == Capped(limits, Paying(old(Contents()), i), old(calls[i].cost.value > calls[i].reservation))
    {
      var call := calls[i];
      reservedUsd := reservedUsd - call.reservation;
      spentUsd := spentUsd + call.cost.value;
      calls := calls[i := call.(status := Settled)];
      if call.cost.value > call.reservation || spentUsd + reservedUsd > limits.maxCostUsd {
        BlockFor(EXCEEDED);
      }
    }
  }

  // ---- Whole runs ----

  /** Call number `k` of the run was started for `requests[k]`. */
  ghost predicate StartedFor(limits: Limits, l: Ledger, a: Action, requests: seq<Request>) {
    a.Begin? && Start(limits, l, a.reservation).1.None? ==>
      && |l.calls| < |requests| && (requests[|l.calls|].maxTokens.Some? ==> requests[|l.calls|].maxTokens.value > 0)
      && a.reservation == Some(Estimate(limits, requests[|l.calls|]))
  }

  /** A provider bills a finished call by one of the model's tiers, for no more than the request may use. */
  ghost predicate FairlyBilled(limits: Limits, a: Action, requests: seq<Request>) {
    a.Respond? && a.response.Response? && a.response.stop.Finished? && ValidUsage(a.response.usage) ==>
      a.call < |requests| && FairBill(limits, requests[a.call], a.response.usage)
  }

  ghost predicate FairBill(limits: Limits, r: Request, u: Usage)
    requires AllCountable(u)
  {
    && Within(limits, r, u.input.value, u.output.value, u.cacheRead.value, u.cacheWrite.value)
    && exists rate :: rate in r.rates
         && u.totalCost.value <= Bill(rate, u.input.value, u.output.value, u.cacheRead.value, u.cacheWrite.value)
  }

  ghost predicate Fair(limits: Limits, states: seq<Ledger>, actions: seq<Action>, requests: seq<Request>)
    requires IsRun(limits, states, actions)
  {
    forall i :: 0 <= i < |actions| ==> StartedFor(limits, states[i], actions[i], requests) && FairlyBilled(limits, actions[i], requests)
  }

  ghost predicate AllReserved(limits: Limits, l: Ledger, requests: seq<Request>) {
    |l.calls| <= |requests| && forall k :: 0 <= k < |l.calls| ==> ReservedFor(limits, requests[k], l.calls[k].reservation)
  }

  lemma StepReserved(limits: Limits, l: Ledger, a: Action, requests: seq<Request>)
    requires Enabled(l, a) && AllReserved(limits, l, requests) && StartedFor(limits, l, a, requests)
    ensures AllReserved(limits, Next(limits, l, a), requests)
  {
    match a
    case Begin(reservation) =>
      StartMeaning(limits, l, reservation);
      if Start(limits, l, reservation).1.None? {
        EstimateReserves(limits, requests[|l.calls|]);
      }
    case StartFails(_) =>
    case Respond(i, r) => SettleMeaning(limits, l, i, r);
  }

  lemma StepWithin(limits: Limits, l: Ledger, a: Action, requests: seq<Request>)
    requires Enabled(l, a) && Audited(limits, l) && AllReserved(limits, l, requests) && FairlyBilled(limits, a, requests)
    requires l.blockedReason != Some(EXCEEDED)
    ensures Next(limits, l, a).blockedReason != Some(EXCEEDED)
  {
    match a
    case Begin(reservation) => StartMeaning(limits, l, reservation);
    case StartFails(_) =>
    case Respond(i, r) =>
      SettleMeaning(limits, l, i, r);
      if l.blockedReason.None? && Settle(limits, l, i, r).calls[i].status.Settled? {
        assert ReservedFor(limits, requests[i], l.calls[i].reservation);
      }
  }

  /** If the provider bills fairly, no call ever costs more than was reserved for it, and no settlement blocks the ledger. */
  lemma {:induction false} FairBillsNeverBlock(limits: Limits, states: seq<Ledger>, actions: seq<Action>, requests: seq<Request>, i: nat)
    requires IsRun(limits, states, actions) && limits.maxCostUsd >= 0.0 && Fair(limits, states, actions, requests) && i < |states|
    ensures AllReserved(limits, states[i], requests) && states[i].blockedReason != Some(EXCEEDED)
  {
    if i > 0 {
      FairBillsNeverBlock(limits, states, actions, requests, i - 1);
      LedgerSafety(limits, states, actions, i - 1);
      assert StepAt(limits, states, actions, i - 1);
      assert StartedFor(limits, states[i - 1], actions[i - 1], requests) && FairlyBilled(limits, actions[i - 1], requests);
      StepReserved(limits, states[i - 1], actions[i - 1], requests);
      StepWithin(limits, states[i - 1], actions[i - 1], requests);
    }
  }
}
