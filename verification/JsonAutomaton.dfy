/** The recogniser's state after each code unit, as a pushdown automaton, and the
    two facts that do not mention the grammar: death is permanent, and every
    live state can still be completed. */
module JsonAutomaton {
  import opened JsonGrammar
  import opened Options

  datatype Kind = InObject | InArray

  datatype NumberState = AfterMinus | AfterZero | InInteger | AfterPoint | InFraction | AfterMark | AfterSign | InExponent

  datatype StringState = Body | AfterBackslash | InHex(left: nat)

  datatype Mode =
    | ExpectValue
    | ArrayValueOrEnd
    | ObjectKeyOrEnd
    | ObjectKey
    | ExpectColon
    | CommaOrEnd
    | Done
    | InString(key: bool, state: StringState)
    | InLiteral(literal: Literal, read: nat)
    | InNumber(number: NumberState)

  datatype State = Dead | Live(mode: Mode, stack: seq<Kind>)

  const Start: State := Live(ExpectValue, [])

  function Completed(stack: seq<Kind>): Mode {
    if stack == [] then Done else CommaOrEnd
  }

  function Top(stack: seq<Kind>): Kind
    requires stack != []
  {
    stack[|stack| - 1]
  }

  function Pop(stack: seq<Kind>): seq<Kind>
    requires stack != []
  {
    stack[..|stack| - 1]
  }

  predicate Terminal(q: NumberState) {
    q in {AfterZero, InInteger, InFraction, InExponent}
  }

  /** The next state inside a number, when `c` still belongs to it. */
  function ContinueNumber(q: NumberState, c: CodeUnit): Option<NumberState> {
    match q
    case AfterMinus => if c == ZERO then Some(AfterZero) else if IsDigit(c) then Some(InInteger) else None
    case AfterZero => if c == POINT then Some(AfterPoint) else if IsExponentMark(c) then Some(AfterMark) else None
    case InInteger =>
      if IsDigit(c) then Some(InInteger) else if c == POINT then Some(AfterPoint)
      else if IsExponentMark(c) then Some(AfterMark) else None
    case AfterPoint => if IsDigit(c) then Some(InFraction) else None
    case InFraction => if IsDigit(c) then Some(InFraction) else if IsExponentMark(c) then Some(AfterMark) else None
    case AfterMark => if c == PLUS || c == MINUS then Some(AfterSign) else if IsDigit(c) then Some(InExponent) else None
    case AfterSign => if IsDigit(c) then Some(InExponent) else None
    case InExponent => if IsDigit(c) then Some(InExponent) else None
  }

  function StepString(key: bool, state: StringState, stack: seq<Kind>, c: CodeUnit): State {
    match state
    case Body =>
      if c == QUOTE then Live(if key then ExpectColon else Completed(stack), stack)
      else if c < 0x20 then Dead
      else if c == BACKSLASH then Live(InString(key, AfterBackslash), stack)
      else Live(InString(key, Body), stack)
    case AfterBackslash =>
      if c == LOWER_U then Live(InString(key, InHex(4)), stack)
      else if IsEscape(c) then Live(InString(key, Body), stack)
      else Dead
    case InHex(left) =>
      if !IsHex(c) then Dead
      else Live(InString(key, if left <= 1 then Body else InHex(left - 1)), stack)
  }

  function StepLiteral(literal: Literal, read: nat, stack: seq<Kind>, c: CodeUnit): State {
    var text := LiteralText(literal);
    if read >= |text| || text[read] != c then Dead
    else Live(if read + 1 == |text| then Completed(stack) else InLiteral(literal, read + 1), stack)
  }

  function StepValue(stack: seq<Kind>, c: CodeUnit): State {
    if c == QUOTE then Live(InString(false, Body), stack)
    else if c == OPEN_OBJECT then Live(ObjectKeyOrEnd, stack + [InObject])
    else if c == OPEN_ARRAY then Live(ArrayValueOrEnd, stack + [InArray])
    else if c == 0x74 then Live(InLiteral(True, 1), stack)
    else if c == 0x66 then Live(InLiteral(False, 1), stack)
    else if c == 0x6E then Live(InLiteral(Null, 1), stack)
    else if c == MINUS then Live(InNumber(AfterMinus), stack)
    else if c == ZERO then Live(InNumber(AfterZero), stack)
    else if IsDigit(c) then Live(InNumber(InInteger), stack)
    else Dead
  }

  function Closing(kind: Kind): CodeUnit {
    match kind
    case InObject => CLOSE_OBJECT
    case InArray => CLOSE_ARRAY
  }

  /** Between tokens. */
  function StepStructure(mode: Mode, stack: seq<Kind>, c: CodeUnit): State {
    if IsWhitespace(c) then Live(mode, stack)
    else match mode
      case ExpectValue => StepValue(stack, c)
      case ArrayValueOrEnd =>
        if c == CLOSE_ARRAY && stack != [] then Live(Completed(Pop(stack)), Pop(stack)) else StepValue(stack, c)
      case ObjectKeyOrEnd =>
        if c == CLOSE_OBJECT && stack != [] then Live(Completed(Pop(stack)), Pop(stack))
        else if c == QUOTE then Live(InString(true, Body), stack) else Dead
      case ObjectKey => if c == QUOTE then Live(InString(true, Body), stack) else Dead
      case ExpectColon => if c == COLON then Live(ExpectValue, stack) else Dead
      case CommaOrEnd =>
        if stack == [] then Dead
        else if c == Closing(Top(stack)) then Live(Completed(Pop(stack)), Pop(stack))
        else if c == COMMA then Live(if Top(stack).InObject? then ObjectKey else ExpectValue, stack)
        else Dead
      case _ => Dead
  }

  function Step(q: State, c: CodeUnit): State {
    match q
    case Dead => Dead
    case Live(InString(key, state), stack) => StepString(key, state, stack, c)
    case Live(InLiteral(literal, read), stack) => StepLiteral(literal, read, stack, c)
    case Live(InNumber(number), stack) =>
      (match ContinueNumber(number, c)
       case Some(next) => Live(InNumber(next), stack)
       case None => if Terminal(number) then StepStructure(Completed(stack), stack, c) else Dead)
    case Live(mode, stack) => StepStructure(mode, stack, c)
  }

  function Run(q: State, s: Text): State {
    if s == [] then q else Step(Run(q, s[..|s| - 1]), s[|s| - 1])
  }

  predicate Accepting(q: State) {
    q.Live? && q.stack == [] && (q.mode == Done || (q.mode.InNumber? && Terminal(q.mode.number)))
  }

  lemma RunLast(q: State, s: Text, c: CodeUnit)
    ensures Run(q, s + [c]) == Step(Run(q, s), c)
  {
    assert (s + [c])[..|s|] == s;
  }

  lemma {:induction false} RunConcat(q: State, a: Text, b: Text)
    ensures Run(q, a + b) == Run(Run(q, a), b)
  {
    if b == [] {
      assert a + b == a;
    } else {
      var (front, c) := (b[..|b| - 1], b[|b| - 1]);
      RunConcat(q, a, front);
      RunLast(q, a + front, c);
      RunLast(Run(q, a), front, c);
      assert b == front + [c] && a + b == a + front + [c];
    }
  }

  lemma RunOne(q: State, c: CodeUnit)
    ensures Run(q, [c]) == Step(q, c)
  {
    assert [c][..0] == [];
  }

  /** `tr[k]` is the state after the first `k` code units of `t`. */
  ghost predicate Reads(t: Text, tr: seq<State>, k: nat)
    requires |tr| == |t| + 1
  {
    k < |t| && tr[k + 1] == Step(tr[k], t[k])
  }

  ghost predicate IsTrace(t: Text, tr: seq<State>) {
    |tr| == |t| + 1 && tr[0] == Start && forall k: nat :: k < |t| ==> Reads(t, tr, k)
  }

  lemma TraceOf(t: Text) returns (tr: seq<State>)
    ensures IsTrace(t, tr) && tr[|t|] == Run(Start, t)
  {
    tr := seq(|t| + 1, i requires 0 <= i <= |t| => Run(Start, t[..i]));
    forall k: nat | k < |t| ensures Reads(t, tr, k) {
      assert t[..k + 1][..k] == t[..k];
    }
    assert t[..|t|] == t;
  }

  lemma {:induction false} DeadStays(t: Text, tr: seq<State>, i: nat, j: nat)
    requires IsTrace(t, tr) && i <= j <= |t| && tr[i] == Dead
    ensures tr[j] == Dead
  {
    if i < j {
      DeadStays(t, tr, i, j - 1);
      assert Reads(t, tr, j - 1);
    }
  }

  // Every live state reached from the start can be completed.

  /** The shape of reachable states. */
  ghost predicate Sensible(q: State) {
    q.Live? ==>
      match q.mode
      case ArrayValueOrEnd => q.stack != [] && Top(q.stack).InArray?
      case ObjectKeyOrEnd => q.stack != [] && Top(q.stack).InObject?
      case ObjectKey => q.stack != [] && Top(q.stack).InObject?
      case ExpectColon => q.stack != [] && Top(q.stack).InObject?
      case CommaOrEnd => q.stack != []
      case Done => q.stack == []
      case InString(key, state) => (key ==> q.stack != [] && Top(q.stack).InObject?) && (state.InHex? ==> 1 <= state.left <= 4)
      case InLiteral(literal, read) => 0 < read < |LiteralText(literal)|
      case _ => true
  }

  lemma SensibleStep(q: State, c: CodeUnit)
    requires Sensible(q)
    ensures Sensible(Step(q, c))
  {
  }

  lemma {:induction false} SensibleRun(s: Text)
    ensures Sensible(Run(Start, s))
  {
    if s != [] {
      SensibleRun(s[..|s| - 1]);
      SensibleStep(Run(Start, s[..|s| - 1]), s[|s| - 1]);
    }
  }

  /** A value has just ended inside `stack`. */
  ghost predicate Settled(q: State, stack: seq<Kind>) {
    q.Live? && q.stack == stack
    && (q.mode == Completed(stack) || (q.mode.InNumber? && Terminal(q.mode.number)))
  }

  /** A code unit that cannot extend a number is read as if the number had been closed. */
  lemma SettledStep(q: State, stack: seq<Kind>, c: CodeUnit)
    requires Settled(q, stack)
    requires !IsDigit(c) && c != POINT && !IsExponentMark(c)
    ensures Step(q, c) == Step(Live(Completed(stack), stack), c)
  {
  }

  ghost function Closers(stack: seq<Kind>): Text {
    if stack == [] then [] else [Closing(Top(stack))] + Closers(Pop(stack))
  }

  lemma {:induction false} CloseAll(q: State, stack: seq<Kind>)
    requires Settled(q, stack)
    ensures Accepting(Run(q, Closers(stack)))
    decreases |stack|
  {
    if stack != [] {
      var c := Closing(Top(stack));
      SettledStep(q, stack, c);
      RunOne(q, c);
      RunConcat(q, [c], Closers(Pop(stack)));
      CloseAll(Step(q, c), Pop(stack));
    }
  }

  /** Text that ends the current string. */
  ghost function FinishString(state: StringState): Text {
    match state
    case Body => [QUOTE]
    case AfterBackslash => [BACKSLASH, QUOTE]
    case InHex(left) => seq(left, i => ZERO) + [QUOTE]
  }

  lemma {:induction false} HexRun(key: bool, left: nat, stack: seq<Kind>)
    requires 1 <= left
    ensures Run(Live(InString(key, InHex(left)), stack), seq(left, i => ZERO)) == Live(InString(key, Body), stack)
  {
    var q, zeros := Live(InString(key, InHex(left)), stack), seq(left, i => ZERO);
    assert zeros == [ZERO] + seq(left - 1, i => ZERO);
    RunOne(q, ZERO);
    RunConcat(q, [ZERO], seq(left - 1, i => ZERO));
    if left > 1 { HexRun(key, left - 1, stack); }
  }

  lemma StringFinishes(key: bool, state: StringState, stack: seq<Kind>)
    requires state.InHex? ==> 1 <= state.left
    ensures Run(Live(InString(key, state), stack), FinishString(state))
         == Live(if key then ExpectColon else Completed(stack), stack)
  {
    var q := Live(InString(key, state), stack);
    match state
    case Body => RunOne(q, QUOTE);
    case AfterBackslash =>
      assert [BACKSLASH, QUOTE] == [BACKSLASH] + [QUOTE];
      RunOne(q, BACKSLASH);
      RunConcat(q, [BACKSLASH], [QUOTE]);
      RunOne(Live(InString(key, Body), stack), QUOTE);
    case InHex(left) =>
      HexRun(key, left, stack);
      RunConcat(q, seq(left, i => ZERO), [QUOTE]);
      RunOne(Live(InString(key, Body), stack), QUOTE);
  }

  lemma {:induction false} LiteralFinishes(literal: Literal, read: nat, stack: seq<Kind>)
    requires 0 <= read < |LiteralText(literal)|
    ensures Run(Live(InLiteral(literal, read), stack), LiteralText(literal)[read..]) == Live(Completed(stack), stack)
    decreases |LiteralText(literal)| - read
  {
    var q, text := Live(InLiteral(literal, read), stack), LiteralText(literal);
    RunOne(q, text[read]);
    assert text[read..] == [text[read]] + text[read + 1..];
    RunConcat(q, [text[read]], text[read + 1..]);
    if read + 1 < |text| { LiteralFinishes(literal, read + 1, stack); }
  }

  /** Some text takes a live state to one where the value it is in has ended. */
  lemma ColonFinishes(stack: seq<Kind>)
    ensures Settled(Run(Live(ExpectColon, stack), [COLON, ZERO]), stack)
  {
    assert [COLON, ZERO] == [COLON] + [ZERO];
    RunOne(Live(ExpectColon, stack), COLON);
    RunConcat(Live(ExpectColon, stack), [COLON], [ZERO]);
    RunOne(Live(ExpectValue, stack), ZERO);
  }

  lemma KeyFinishes(q: State, stack: seq<Kind>, state: StringState, text: Text)
    requires state.InHex? ==> 1 <= state.left
    requires Run(q, text) == Live(InString(true, state), stack)
    ensures Settled(Run(q, text + FinishString(state) + [COLON, ZERO]), stack)
  {
    StringFinishes(true, state, stack);
    ColonFinishes(stack);
    RunConcat(q, text, FinishString(state));
    RunConcat(q, text + FinishString(state), [COLON, ZERO]);
  }

  lemma CanSettle(q: State) returns (suffix: Text, stack: seq<Kind>)
    requires q.Live? && Sensible(q)
    ensures Settled(Run(q, suffix), stack)
  {
    stack := q.stack;
    match q.mode
    case ExpectValue =>
      suffix := [ZERO];
      RunOne(q, ZERO);
    case ArrayValueOrEnd =>
      suffix, stack := [CLOSE_ARRAY], Pop(stack);
      RunOne(q, CLOSE_ARRAY);
    case ObjectKeyOrEnd =>
      suffix, stack := [CLOSE_OBJECT], Pop(stack);
      RunOne(q, CLOSE_OBJECT);
    case ObjectKey =>
      suffix := [QUOTE] + FinishString(Body) + [COLON, ZERO];
      RunOne(q, QUOTE);
      KeyFinishes(q, stack, Body, [QUOTE]);
    case ExpectColon =>
      suffix := [COLON, ZERO];
      ColonFinishes(stack);
    case CommaOrEnd => suffix := [];
    case Done => suffix := [];
    case InString(key, state) =>
      if key {
        suffix := [] + FinishString(state) + [COLON, ZERO];
        KeyFinishes(q, stack, state, []);
      } else {
        suffix := FinishString(state);
        StringFinishes(key, state, stack);
      }
    case InLiteral(literal, read) =>
      suffix := LiteralText(literal)[read..];
      LiteralFinishes(literal, read, stack);
    case InNumber(number) =>
      if Terminal(number) {
        suffix := [];
      } else {
        suffix := [ZERO];
        RunOne(q, ZERO);
      }
  }

  /** Liveness: a prefix that has not been refuted can be completed. */
  lemma CanComplete(text: Text) returns (suffix: Text)
    requires Run(Start, text).Live?
    ensures Accepting(Run(Start, text + suffix))
  {
    SensibleRun(text);
    var q := Run(Start, text);
    var finish, stack := CanSettle(q);
    RunConcat(q, finish, Closers(stack));
    CloseAll(Run(q, finish), stack);
    suffix := finish + Closers(stack);
    RunConcat(Start, text, suffix);
  }
}
