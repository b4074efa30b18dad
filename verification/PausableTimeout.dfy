/** A one-shot timeout whose budget counts only the time without pause tokens. Clock readings are given;
    time never runs backwards. */
module PausableTimeout {
  import opened Options

  /** `due` is when the system timer is set to go off, if one is set; `open` are the pause tokens not yet released;
      `fired` counts the runs of the callback. */
  datatype Timer = Timer(remaining: real, startedAt: Option<real>, due: Option<real>, open: set<nat>, nextToken: nat,
                         disposed: bool, didExpire: bool, fired: nat)

  predicate Running(t: Timer) {
    t.open == {} && !t.disposed && !t.didExpire
  }

  /** The longest delay that the system keeps: longer budgets run in several parts. */
  const MAX_DELAY := 2147483647.0

  function Delay(remaining: real): real {
    if remaining < MAX_DELAY then remaining else MAX_DELAY
  }

  function Arm(t: Timer, now: real): Timer {
    t.(startedAt := Some(now), due := Some(now + Delay(t.remaining)))
  }

  function Positive(x: real): real {
    if x < 0.0 then 0.0 else x
  }

  function Consume(t: Timer, now: real): Timer {
    if t.startedAt.None? then t
    else t.(remaining := Positive(t.remaining - Positive(now - t.startedAt.value)), startedAt := None)
  }

  /** The callback runs and is forgotten; a disposed timer has none. */
  function Expire(t: Timer): Timer {
    t.(didExpire := true, fired := if t.disposed then t.fired else t.fired + 1)
  }

  function Create(milliseconds: real, now: real): Timer {
    Arm(Timer(milliseconds, None, None, {}, 0, false, false, 0), now)
  }

  /** The token is missing when there is nothing left to pause. */
  function Pause(t: Timer, now: real): (Timer, Option<nat>) {
    if t.disposed || t.didExpire then (t, None)
    else
      var stopped := if t.open == {} then Consume(t, now).(due := None) else t;
      if t.open == {} && stopped.remaining <= 0.0 then (Expire(stopped), None)
      else (stopped.(open := stopped.open + {stopped.nextToken}, nextToken := stopped.nextToken + 1), Some(stopped.nextToken))
  }

  function Release(t: Timer, token: nat, now: real): Timer {
    if token !in t.open then t
    else
      var n := t.(open := t.open - {token});
      if n.open == {} && !n.disposed && !n.didExpire then Arm(n, now) else n
  }

  function Dispose(t: Timer): Timer {
    if t.disposed then t else t.(disposed := true, due := None, startedAt := None)
  }

  /** The system timer goes off, possibly early. */
  function GoOff(t: Timer, now: real): Timer {
    var stopped := Consume(t, now).(due := None);
    if stopped.remaining <= 0.0 then Expire(stopped) else Arm(stopped, now)
  }

  // ---- Accounting ----

  datatype Operation = PauseNow | ReleaseNow(token: nat) | DisposeNow | GoOffNow

  function After(t: Timer, op: Operation, now: real): Timer {
    match op
    case PauseNow => Pause(t, now).0
    case ReleaseNow(token) => Release(t, token, now)
    case DisposeNow => Dispose(t)
    case GoOffNow => if t.due.Some? then GoOff(t, now) else t
  }

  /** The timer's books agree with the unpaused time it has really lived through. */
  ghost predicate Accounted(t: Timer, budget: real, unpaused: real, now: real) {
    && t.fired == (if t.didExpire then 1 else 0)
    && (t.didExpire ==> unpaused >= budget)
    && (forall token :: token in t.open ==> token < t.nextToken)
    && (Running(t) ==> t.startedAt.Some? && t.startedAt.value <= now && t.remaining >= 0.0)
    && (Running(t) ==> t.due == Some(t.startedAt.value + Delay(t.remaining)))
    && (Running(t) ==> t.remaining == budget - (unpaused - (now - t.startedAt.value)))
    && (t.open != {} && !t.disposed && !t.didExpire ==>
          t.startedAt.None? && t.due.None? && t.remaining == budget - unpaused && t.remaining > 0.0)
    && (t.disposed || t.didExpire ==> t.due.None?)
  }

  /** Time passes: it counts while nothing pauses the timer. */
  function Later(t: Timer, unpaused: real, elapsed: real): real {
    if Running(t) then unpaused + elapsed else unpaused
  }

  lemma CreateAccounted(budget: real, now: real)
    requires budget >= 0.0
    ensures Accounted(Create(budget, now), budget, 0.0, now)
  {
  }

  lemma TimeAccounted(t: Timer, budget: real, unpaused: real, now: real, elapsed: real)
    requires Accounted(t, budget, unpaused, now) && elapsed >= 0.0
    ensures Accounted(t, budget, Later(t, unpaused, elapsed), now + elapsed)
  {
  }

  lemma OperationAccounted(t: Timer, budget: real, unpaused: real, now: real, op: Operation)
    requires Accounted(t, budget, unpaused, now)
    ensures Accounted(After(t, op, now), budget, unpaused, now)
  {
  }

  /** Exactly on time: a timer that runs expires at a pause or when the system timer goes off if and only if
      its unpaused time has reached the budget, and at nothing else. */
  lemma ExpiresExactly(t: Timer, budget: real, unpaused: real, now: real, op: Operation)
    requires Accounted(t, budget, unpaused, now) && !t.didExpire
    ensures After(t, op, now).didExpire <==>
      Running(t) && (op.PauseNow? || op.GoOffNow?) && unpaused >= budget
  {
  }

  /** In time: the system timer of a running one is set for the moment at which the budget will be used up, or, if that is
      too far away, for the longest delay after it was armed. */
  lemma DueInTime(t: Timer, budget: real, unpaused: real, now: real)
    requires Accounted(t, budget, unpaused, now) && Running(t)
    ensures var used, longest := now + (budget - unpaused), t.startedAt.value + MAX_DELAY;
      t.due == Some(if used < longest then used else longest)
  {
  }

  /** One run of a timer: what is done to it, and how long before. */
  datatype Moment = Moment(elapsed: real, op: Operation)

  function Outcome(t: Timer, unpaused: real, now: real, moments: seq<Moment>): (Timer, real, real)
    decreases |moments|
  {
    if moments == [] then (t, unpaused, now)
    else
      var m := moments[0];
      Outcome(After(t, m.op, now + m.elapsed), Later(t, unpaused, m.elapsed), now + m.elapsed, moments[1..])
  }

  lemma {:induction false} RunAccounted(t: Timer, budget: real, unpaused: real, now: real, moments: seq<Moment>)
    requires Accounted(t, budget, unpaused, now) && forall i :: 0 <= i < |moments| ==> moments[i].elapsed >= 0.0
    ensures var (after, total, end) := Outcome(t, unpaused, now, moments); Accounted(after, budget, total, end)
    decreases |moments|
  {
    if moments != [] {
      TimeAccounted(t, budget, unpaused, now, moments[0].elapsed);
      OperationAccounted(t, budget, Later(t, unpaused, moments[0].elapsed), now + moments[0].elapsed, moments[0].op);
      RunAccounted(After(t, moments[0].op, now + moments[0].elapsed), budget, Later(t, unpaused, moments[0].elapsed),
                   now + moments[0].elapsed, moments[1..]);
    }
  }

  /** Whatever is done to a timer, and whenever, its callback runs at most once, and only after the time
      without pause tokens has reached its budget. */
  lemma TimerAccounting(budget: real, start: real, moments: seq<Moment>)
    requires budget >= 0.0 && forall i :: 0 <= i < |moments| ==> moments[i].elapsed >= 0.0
    ensures var (after, unpaused, _) := Outcome(Create(budget, start), 0.0, start, moments);
      after.fired <= 1 && (after.fired == 1 ==> unpaused >= budget)
  {
    CreateAccounted(budget, start);
    RunAccounted(Create(budget, start), budget, 0.0, start, moments);
  }

  /** The system timer is never kept waiting: it goes off no later than it is due. */
  predicate Prompt(t: Timer, now: real, moments: seq<Moment>)
    decreases |moments|
  {
    moments == [] ||
    var m := moments[0];
    && (t.due.Some? ==> now + m.elapsed <= t.due.value)
    && Prompt(After(t, m.op, now + m.elapsed), now + m.elapsed, moments[1..])
  }

  lemma {:induction false} PromptWithin(t: Timer, budget: real, unpaused: real, now: real, moments: seq<Moment>)
    requires Accounted(t, budget, unpaused, now) && forall i :: 0 <= i < |moments| ==> moments[i].elapsed >= 0.0
    requires unpaused <= budget && Prompt(t, now, moments)
    ensures Outcome(t, unpaused, now, moments).1 <= budget
    decreases |moments|
  {
    if moments != [] {
      var m := moments[0];
      if Running(t) {
        DueInTime(t, budget, unpaused, now);
      }
      TimeAccounted(t, budget, unpaused, now, m.elapsed);
      OperationAccounted(t, budget, Later(t, unpaused, m.elapsed), now + m.elapsed, m.op);
      PromptWithin(After(t, m.op, now + m.elapsed), budget, Later(t, unpaused, m.elapsed), now + m.elapsed, moments[1..]);
    }
  }

  /** With a prompt system timer no run counts more unpaused time than the budget: the callback comes exactly when it is
      used up. */
  lemma NeverLate(budget: real, start: real, moments: seq<Moment>)
    requires budget >= 0.0 && forall i :: 0 <= i < |moments| ==> moments[i].elapsed >= 0.0
    requires Prompt(Create(budget, start), start, moments)
    ensures var (after, unpaused, _) := Outcome(Create(budget, start), 0.0, start, moments);
      unpaused <= budget && (after.fired == 1 ==> unpaused == budget)
  {
    CreateAccounted(budget, start);
    PromptWithin(Create(budget, start), budget, 0.0, start, moments);
    TimerAccounting(budget, start, moments);
  }

  // ---- The timer as an object ----

  datatype TimeoutError = InvalidBudget

  /** A budget must be a non-negative finite number; `None` is one that is not finite. */
  method StartTimeout(milliseconds: Option<real>, now: real) returns (r: Result<Timeout, TimeoutError>)
    ensures r.Failure? <==> milliseconds.None? || milliseconds.value < 0.0
    ensures r.Success? ==> fresh(r.value) && r.value.Contents() == Create(milliseconds.value, now)
  {
    if milliseconds.None? || milliseconds.value < 0.0 {
      return Failure(InvalidBudget);
    }
    var timeout := new Timeout(milliseconds.value, now);
    return Success(timeout);
  }

  class Timeout {
    var remaining: real
    var startedAt: Option<real>
    var due: Option<real>
    var open: set<nat>
    var nextToken: nat
    var disposed: bool
    var didExpire: bool
    var fired: nat

    constructor (milliseconds: real, now: real)
      requires milliseconds >= 0.0
      ensures Contents() == Create(milliseconds, now)
    {
      remaining, startedAt, due := milliseconds, Some(now), Some(now + Delay(milliseconds));
      open, nextToken := {}, 0;
      disposed, didExpire, fired := false, false, 0;
    }

    function Contents(): Timer
      reads this
    {
      Timer(remaining, startedAt, due, open, nextToken, disposed, didExpire, fired)
    }

    method PauseTimer(now: real) returns (token: Option<nat>)
      modifies this
      ensures (Contents(), token) == Pause(old(Contents()), now)
    {
      if disposed || didExpire {
        return None;
      }
      if open == {} {
        ConsumeElapsed(now);
        due := None;
        if remaining <= 0.0 {
          ExpireNow();
          return None;
        }
      }
      token := Some(nextToken);
      open, nextToken := open + {nextToken}, nextToken + 1;
    }

    method ReleaseToken(token: nat, now: real)
      modifies this
      ensures Contents() == Release(old(Contents()), token, now)
    {
      if token !in open {
        return;
      }
      open := open - {token};
      if open == {} && !disposed && !didExpire {
        startedAt, due := Some(now), Some(now + Delay(remaining));
      }
    }

    method DisposeTimer()
      modifies this
      ensures Contents() == Dispose(old(Contents()))
    {
      if disposed {
        return;
      }
      disposed, due, startedAt := true, None, None;
    }

    method OnSystemTimer(now: real)
      modifies this
      ensures Contents() == GoOff(old(Contents()), now)
    {
      ConsumeElapsed(now);
      due := None;
      if remaining <= 0.0 {
        ExpireNow();
      } else {
        startedAt, due := Some(now), Some(now + Delay(remaining));
      }
    }

    method ConsumeElapsed(now: real)
      modifies this`remaining, this`startedAt
      ensures Contents() == Consume(old(Contents()), now)
    {
      if startedAt.Some? {
        remaining := Positive(remaining - Positive(now - startedAt.value));
        startedAt := None;
      }
    }

    method ExpireNow()
      modifies this`didExpire, this`fired
      ensures Contents() == Expire(old(Contents()))
    {
      didExpire := true;
      if !disposed {
        fired := fired + 1;
      }
    }
  }
}
