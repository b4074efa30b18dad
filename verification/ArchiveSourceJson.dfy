/** src/server/ArchiveSourceJson.ts: the recogniser itself, and its exactness. */
module ArchiveSourceJson {
  import opened JsonGrammar
  import opened Options
  import opened JsonAutomaton
  import JsonComplete
  import JsonSound

  /** What the reader waits for between tokens. */
  datatype Expect = Value | ArrayValueOrEnd | ObjectKeyOrEnd | ObjectKey | Colon | CommaOrEnd | Done

  newtype Byte = x: int | 0 <= x < 0x100

  const IN_OBJECT: Byte := 1
  const IN_ARRAY: Byte := 2

  ghost function ModeOf(awaited: Expect): Mode {
    match awaited
    case Value => ExpectValue
    case ArrayValueOrEnd => JsonAutomaton.ArrayValueOrEnd
    case ObjectKeyOrEnd => JsonAutomaton.ObjectKeyOrEnd
    case ObjectKey => JsonAutomaton.ObjectKey
    case Colon => ExpectColon
    case CommaOrEnd => JsonAutomaton.CommaOrEnd
    case Done => JsonAutomaton.Done
  }

  /** The recogniser accepts exactly the unfinished texts that some suffix makes JSON. */
  lemma Exact(t: Text)
    ensures (Run(Start, t).Live? && !Accepting(Run(Start, t))) <==> IsIncompletePrefix(t)
  {
    if Run(Start, t).Live? {
      var suffix := CanComplete(t);
      JsonSound.AcceptedIsJson(t + suffix);
    } else {
      forall suffix: Text ensures !IsJson(t + suffix) {
        RunDead(t, suffix);
        if IsJson(t + suffix) { JsonComplete.JsonIsAccepted(t + suffix); }
      }
    }
    if IsJson(t) { JsonComplete.JsonIsAccepted(t); }
    if Accepting(Run(Start, t)) { JsonSound.AcceptedIsJson(t); }
  }

  lemma {:induction false} RunDead(t: Text, suffix: Text)
    requires Run(Start, t) == Dead
    ensures Run(Start, t + suffix) == Dead
  {
    if suffix == [] {
      assert t + suffix == t;
    } else {
      var n := |suffix| - 1;
      RunDead(t, suffix[..n]);
      assert (t + suffix)[..|t + suffix| - 1] == t + suffix[..n];
    }
  }

  /** Between tokens at `offset`: the automaton is in the mode awaited, except that
      it may not have noticed yet that a number has ended. */
  ghost predicate Between(t: Text, tr: seq<State>, offset: nat, mode: Mode, stack: seq<Kind>) {
    && IsTrace(t, tr) && offset <= |t|
    && (|| tr[offset] == Live(mode, stack)
        || (&& Settled(tr[offset], stack) && mode == Completed(stack)
            && (offset < |t| && tr[offset].mode.InNumber? ==> ContinueNumber(tr[offset].mode.number, t[offset]).None?)))
  }

  ghost predicate Inside(t: Text, tr: seq<State>, offset: nat, mode: Mode, stack: seq<Kind>) {
    IsTrace(t, tr) && offset <= |t| && tr[offset] == Live(mode, stack)
  }

  ghost predicate Refuted(t: Text, tr: seq<State>) {
    IsTrace(t, tr) && tr[|t|] == Dead
  }

  ghost predicate Unfinished(t: Text, tr: seq<State>) {
    IsTrace(t, tr) && tr[|t|].Live? && !Accepting(tr[|t|])
  }

  lemma Refute(t: Text, tr: seq<State>, i: nat)
    requires IsTrace(t, tr) && i <= |t| && tr[i] == Dead
    ensures Refuted(t, tr)
  {
    DeadStays(t, tr, i, |t|);
  }

  lemma Verdict(t: Text, tr: seq<State>)
    requires IsTrace(t, tr) && tr[|t|] == Run(Start, t)
    ensures Unfinished(t, tr) <==> IsIncompletePrefix(t)
    ensures Refuted(t, tr) ==> !Unfinished(t, tr)
  {
    Exact(t);
  }

  lemma Exhausted(t: Text, tr: seq<State>, awaited: Expect, kinds: seq<Kind>)
    requires Between(t, tr, |t|, ModeOf(awaited), kinds)
    requires Consistent(awaited, kinds)
    ensures awaited != Expect.Done <==> Unfinished(t, tr)
  {
  }

  /** The next structural code unit is read from the awaited mode. */
  lemma Structural(t: Text, tr: seq<State>, offset: nat, mode: Mode, stack: seq<Kind>)
    requires Between(t, tr, offset, mode, stack) && offset < |t|
    requires !mode.InString? && !mode.InLiteral? && !mode.InNumber?
    ensures tr[offset + 1] == StepStructure(mode, stack, t[offset])
  {
    assert Reads(t, tr, offset);
  }

  /** The four hexadecimal digits of `\u`. */
  method ReadHex(text: Text, start: nat, ghost tr: seq<State>, ghost key: bool, ghost stack: seq<Kind>)
    returns (offset: nat, outcome: Option<bool>)
    requires Inside(text, tr, start, InString(key, InHex(4)), stack)
    ensures outcome == None ==> start < offset && Inside(text, tr, offset, InString(key, Body), stack)
    ensures outcome == Some(true) ==> Unfinished(text, tr)
    ensures outcome == Some(false) ==> Refuted(text, tr)
  {
    offset := start;
    var digit := 0;
    while digit < 4
      invariant 0 <= digit <= 4 && offset == start + digit <= |text|
      invariant Inside(text, tr, offset, InString(key, if digit == 4 then Body else InHex(4 - digit)), stack)
    {
      if offset == |text| { return offset, Some(true); }
      assert Reads(text, tr, offset);
      if !IsHex(text[offset]) {
        Refute(text, tr, offset + 1);
        return offset, Some(false);
      }
      offset := offset + 1;
      digit := digit + 1;
    }
    outcome := None;
  }

  /** A string after its opening quote; `None` means that it was closed before `offset`. */
  method ReadString(text: Text, start: nat, ghost tr: seq<State>, ghost key: bool, ghost stack: seq<Kind>)
    returns (offset: nat, outcome: Option<bool>)
    requires Inside(text, tr, start, InString(key, Body), stack)
    ensures outcome == None ==> start < offset
                                && Inside(text, tr, offset, if key then ExpectColon else Completed(stack), stack)
    ensures outcome == Some(true) ==> Unfinished(text, tr)
    ensures outcome == Some(false) ==> Refuted(text, tr)
  {
    offset := start;
    while offset < |text|
      invariant start <= offset && Inside(text, tr, offset, InString(key, Body), stack)
    {
      var code := text[offset];
      assert Reads(text, tr, offset);
      offset := offset + 1;
      if code == QUOTE { return offset, None; }
      if code < 0x20 {
        Refute(text, tr, offset);
        return offset, Some(false);
      }
      if code != BACKSLASH { continue; }
      if offset == |text| { return offset, Some(true); }
      var escape := text[offset];
      assert Reads(text, tr, offset);
      offset := offset + 1;
      if escape == LOWER_U {
        offset, outcome := ReadHex(text, offset, tr, key, stack);
        if outcome.Some? { return; }
      } else if !IsEscape(escape) {
        Refute(text, tr, offset);
        return offset, Some(false);
      }
    }
    outcome := Some(true);
  }

  method ReadLiteral(text: Text, start: nat, literal: Literal, ghost tr: seq<State>, ghost stack: seq<Kind>)
    returns (offset: nat, outcome: Option<bool>)
    requires IsTrace(text, tr) && start < |text| && text[start] == LiteralText(literal)[0]
    requires tr[start + 1] == Live(InLiteral(literal, 1), stack)
    ensures outcome == None ==> start < offset && Inside(text, tr, offset, Completed(stack), stack)
    ensures outcome == Some(true) ==> Unfinished(text, tr)
    ensures outcome == Some(false) ==> Refuted(text, tr)
  {
    var expected := LiteralText(literal);
    offset := start;
    var read := 0;
    while read < |expected|
      invariant 0 <= read <= |expected| && offset == start + read <= |text|
      invariant read > 0 ==> Inside(text, tr, offset, if read == |expected| then Completed(stack) else InLiteral(literal, read), stack)
    {
      if offset == |text| { return offset, Some(true); }
      assert Reads(text, tr, offset);
      if text[offset] != expected[read] {
        Refute(text, tr, offset + 1);
        return offset, Some(false);
      }
      offset := offset + 1;
      read := read + 1;
    }
    outcome := None;
  }

  /** A run of digits, after the first. */
  method SkipDigits(text: Text, start: nat, ghost tr: seq<State>, ghost number: NumberState, ghost stack: seq<Kind>)
    returns (offset: nat)
    requires Inside(text, tr, start, InNumber(number), stack) && number in {InInteger, InFraction, InExponent}
    ensures start <= offset && Inside(text, tr, offset, InNumber(number), stack)
    ensures offset < |text| ==> !IsDigit(text[offset])
  {
    offset := start;
    while offset < |text| && IsDigit(text[offset])
      invariant start <= offset && Inside(text, tr, offset, InNumber(number), stack)
    {
      assert Reads(text, tr, offset);
      offset := offset + 1;
    }
  }

  method ReadInteger(text: Text, start: nat, ghost tr: seq<State>, ghost stack: seq<Kind>)
    returns (offset: nat, outcome: Option<bool>, ghost number: NumberState)
    requires IsTrace(text, tr) && start < |text| && tr[start + 1] == StepValue(stack, text[start])
    requires text[start] == MINUS || IsDigit(text[start])
    ensures outcome == None ==>
              && start < offset && number in {AfterZero, InInteger} && Inside(text, tr, offset, InNumber(number), stack)
              && (offset < |text| && number == InInteger ==> !IsDigit(text[offset]))
    ensures outcome == Some(true) ==> Unfinished(text, tr)
    ensures outcome == Some(false) ==> Refuted(text, tr)
  {
    offset, outcome, number := start, None, AfterZero;
    if text[offset] == MINUS {
      offset := offset + 1;
      if offset == |text| { outcome := Some(true); return; }
      assert Reads(text, tr, offset);
    }
    if text[offset] == ZERO {
      offset := offset + 1;
    } else if IsDigit(text[offset]) {
      number := InInteger;
      offset := SkipDigits(text, offset + 1, tr, number, stack);
    } else {
      Refute(text, tr, offset + 1);
      outcome := Some(false);
    }
  }

  method ReadFraction(text: Text, start: nat, ghost tr: seq<State>, ghost whole: NumberState, ghost stack: seq<Kind>)
    returns (offset: nat, outcome: Option<bool>, ghost number: NumberState)
    requires whole in {AfterZero, InInteger} && Inside(text, tr, start, InNumber(whole), stack)
    requires start < |text| && whole == InInteger ==> !IsDigit(text[start])
    ensures outcome == None ==>
              && start <= offset && number in {AfterZero, InInteger, InFraction}
              && Inside(text, tr, offset, InNumber(number), stack)
              && (offset < |text| ==> text[offset] != POINT || number == InFraction)
              && (offset < |text| && number != AfterZero ==> !IsDigit(text[offset]))
    ensures outcome == Some(true) ==> Unfinished(text, tr)
    ensures outcome == Some(false) ==> Refuted(text, tr)
  {
    offset, outcome, number := start, None, whole;
    if offset < |text| && text[offset] == POINT {
      assert Reads(text, tr, offset);
      offset := offset + 1;
      if offset == |text| { outcome := Some(true); return; }
      assert Reads(text, tr, offset);
      if !IsDigit(text[offset]) {
        Refute(text, tr, offset + 1);
        outcome := Some(false);
        return;
      }
      number := InFraction;
      offset := SkipDigits(text, offset + 1, tr, number, stack);
    }
  }

  method ReadExponent(text: Text, start: nat, ghost tr: seq<State>, ghost before: NumberState, ghost stack: seq<Kind>)
    returns (offset: nat, outcome: Option<bool>)
    requires before in {AfterZero, InInteger, InFraction} && Inside(text, tr, start, InNumber(before), stack)
    requires start < |text| ==> text[start] != POINT || before == InFraction
    requires start < |text| && before != AfterZero ==> !IsDigit(text[start])
    ensures outcome == None ==> start <= offset && Between(text, tr, offset, Completed(stack), stack)
    ensures outcome == Some(true) ==> Unfinished(text, tr)
    ensures outcome == Some(false) ==> Refuted(text, tr)
  {
    offset, outcome := start, None;
    if offset < |text| && IsExponentMark(text[offset]) {
      assert Reads(text, tr, offset);
      offset := offset + 1;
      if offset < |text| && (text[offset] == PLUS || text[offset] == MINUS) {
        assert Reads(text, tr, offset);
        offset := offset + 1;
      }
      if offset == |text| { outcome := Some(true); return; }
      assert Reads(text, tr, offset);
      if !IsDigit(text[offset]) {
        Refute(text, tr, offset + 1);
        outcome := Some(false);
        return;
      }
      offset := SkipDigits(text, offset + 1, tr, InExponent, stack);
    }
  }

  method ReadNumber(text: Text, start: nat, ghost tr: seq<State>, ghost stack: seq<Kind>)
    returns (offset: nat, outcome: Option<bool>)
    requires IsTrace(text, tr) && start < |text| && tr[start + 1] == StepValue(stack, text[start])
    requires text[start] == MINUS || IsDigit(text[start])
    ensures outcome == None ==> start < offset && Between(text, tr, offset, Completed(stack), stack)
    ensures outcome == Some(true) ==> Unfinished(text, tr)
    ensures outcome == Some(false) ==> Refuted(text, tr)
  {
    ghost var number;
    offset, outcome, number := ReadInteger(text, start, tr, stack);
    if outcome.None? {
      offset, outcome, number := ReadFraction(text, offset, tr, number, stack);
    }
    if outcome.None? {
      offset, outcome := ReadExponent(text, offset, tr, number, stack);
    }
  }

  /** A string (the only token that can be a key), a literal or a number. */
  method ReadToken(text: Text, start: nat, key: bool, ghost tr: seq<State>, ghost stack: seq<Kind>)
    returns (offset: nat, outcome: Option<bool>)
    requires IsTrace(text, tr) && start < |text|
    requires !key ==> text[start] != OPEN_OBJECT && text[start] != OPEN_ARRAY && tr[start + 1] == StepValue(stack, text[start])
    requires key ==> tr[start + 1] == if text[start] == QUOTE then Live(InString(true, Body), stack) else Dead
    ensures outcome == None ==>
              start < offset && Between(text, tr, offset, if key then ExpectColon else Completed(stack), stack)
    ensures outcome == Some(true) ==> Unfinished(text, tr)
    ensures outcome == Some(false) ==> Refuted(text, tr)
  {
    var character := text[start];
    if key && character != QUOTE {
      Refute(text, tr, start + 1);
      offset, outcome := start, Some(false);
    } else if character == QUOTE {
      offset, outcome := ReadString(text, start + 1, tr, key, stack);
    } else if character == 0x74 || character == 0x66 || character == 0x6E {
      var literal := if character == 0x74 then True else if character == 0x66 then False else Null;
      offset, outcome := ReadLiteral(text, start, literal, tr, stack);
    } else if character == MINUS || IsDigit(character) {
      offset, outcome := ReadNumber(text, start, tr, stack);
    } else {
      Refute(text, tr, start + 1);
      offset, outcome := start, Some(false);
    }
  }

  function KindOf(byte: Byte): Kind {
    if byte == IN_OBJECT then InObject else InArray
  }

  /** One byte for each open bracket, in an array that grows up to one more than the text's length. */
  class ByteStack {
    var bytes: array<Byte>
    var depth: nat
    const limit: nat

    ghost predicate Valid()
      reads this, bytes
    {
      0 < bytes.Length <= limit + 1 && depth <= bytes.Length
    }

    ghost function Kinds(): (kinds: seq<Kind>)
      requires Valid()
      reads this, bytes
      ensures |kinds| == depth
    {
      seq(depth, i requires 0 <= i < depth reads this, bytes requires Valid() => KindOf(bytes[i]))
    }

    constructor (length: nat)
      ensures Valid() && fresh(bytes) && limit == length && Kinds() == []
    {
      bytes := new Byte[if length + 1 < 256 then length + 1 else 256];
      depth := 0;
      limit := length;
    }

    method Push(kind: Byte)
      requires Valid() && depth <= limit
      modifies this, bytes
      ensures Valid() && (bytes == old(bytes) || fresh(bytes))
      ensures Kinds() == old(Kinds()) + [KindOf(kind)]
    {
      if depth == bytes.Length {
        var grown := new Byte[if limit + 1 <= bytes.Length * 2 then limit + 1 else bytes.Length * 2];
        forall i | 0 <= i < depth { grown[i] := bytes[i]; }
        bytes := grown;
      }
      bytes[depth] := kind;
      depth := depth + 1;
    }

    method Pop()
      requires Valid() && depth > 0
      modifies this`depth
      ensures Valid() && Kinds() == JsonAutomaton.Pop(old(Kinds()))
    {
      depth := depth - 1;
    }

    method TopIsObject() returns (inObject: bool)
      requires Valid() && depth > 0
      ensures inObject <==> Top(Kinds()).InObject?
    {
      inObject := bytes[depth - 1] == IN_OBJECT;
    }
  }

  predicate Nested(awaited: Expect) {
    awaited == Expect.CommaOrEnd || awaited == Expect.ObjectKeyOrEnd || awaited == Expect.ArrayValueOrEnd
  }

  function CompletedExpect(depth: nat): Expect {
    if depth == 0 then Expect.Done else Expect.CommaOrEnd
  }

  ghost predicate Consistent(awaited: Expect, kinds: seq<Kind>) {
    (awaited == Expect.Done ==> kinds == []) && (Nested(awaited) ==> kinds != [])
  }

  predicate IsPunctuation(awaited: Expect, c: CodeUnit) {
    || awaited == Expect.Done || awaited == Expect.Colon || awaited == Expect.CommaOrEnd
    || (awaited == Expect.ObjectKeyOrEnd && c == CLOSE_OBJECT)
    || (awaited == Expect.ArrayValueOrEnd && c == CLOSE_ARRAY)
  }

  /** A closing bracket, comma or colon, where no key or value may begin. */
  method ReadPunctuation(text: Text, offset: nat, awaited: Expect, stack: ByteStack, ghost tr: seq<State>)
    returns (refused: bool, awaited': Expect)
    requires offset < |text| && IsTrace(text, tr) && stack.Valid()
    requires tr[offset + 1] == StepStructure(ModeOf(awaited), stack.Kinds(), text[offset])
    requires !IsWhitespace(text[offset]) && IsPunctuation(awaited, text[offset]) && Consistent(awaited, stack.Kinds())
    modifies stack`depth
    ensures stack.Valid() && stack.depth <= old(stack.depth)
    ensures refused ==> Refuted(text, tr)
    ensures !refused ==> tr[offset + 1] == Live(ModeOf(awaited'), stack.Kinds()) && Consistent(awaited', stack.Kinds())
  {
    refused, awaited' := false, awaited;
    var character := text[offset];
    if awaited == Expect.Done {
      refused := true;
    } else if awaited == Expect.Colon {
      refused, awaited' := character != COLON, Value;
    } else {
      var inObject := stack.TopIsObject();
      if awaited == Expect.CommaOrEnd && character == COMMA {
        awaited' := if inObject then Expect.ObjectKey else Value;
      } else if awaited != Expect.CommaOrEnd || character == (if inObject then CLOSE_OBJECT else CLOSE_ARRAY) {
        stack.Pop();
        awaited' := CompletedExpect(stack.depth);
      } else {
        refused := true;
      }
    }
    if refused { Refute(text, tr, offset + 1); }
  }

  predicate IsOpening(awaited: Expect, c: CodeUnit) {
    (awaited == Value || awaited == Expect.ArrayValueOrEnd) && (c == OPEN_OBJECT || c == OPEN_ARRAY)
  }

  method ReadOpening(text: Text, offset: nat, awaited: Expect, stack: ByteStack, ghost tr: seq<State>)
    returns (awaited': Expect)
    requires offset < |text| && IsTrace(text, tr) && stack.Valid() && stack.depth <= stack.limit
    requires tr[offset + 1] == StepStructure(ModeOf(awaited), stack.Kinds(), text[offset])
    requires IsOpening(awaited, text[offset])
    modifies stack, stack.bytes
    ensures stack.Valid() && stack.depth == old(stack.depth) + 1
    ensures stack.bytes == old(stack.bytes) || fresh(stack.bytes)
    ensures tr[offset + 1] == Live(ModeOf(awaited'), stack.Kinds()) && Consistent(awaited', stack.Kinds())
  {
    stack.Push(if text[offset] == OPEN_OBJECT then IN_OBJECT else IN_ARRAY);
    awaited' := if text[offset] == OPEN_OBJECT then Expect.ObjectKeyOrEnd else Expect.ArrayValueOrEnd;
  }

  /** One whitespace, punctuation or token step of the main loop. */
  method ReadNext(text: Text, start: nat, awaited: Expect, stack: ByteStack, ghost tr: seq<State>)
    returns (offset: nat, outcome: Option<bool>, awaited': Expect)
    requires start < |text| && stack.Valid() && stack.depth <= start && stack.limit == |text|
    requires Between(text, tr, start, ModeOf(awaited), stack.Kinds()) && Consistent(awaited, stack.Kinds())
    modifies stack, stack.bytes
    ensures stack.Valid() && (stack.bytes == old(stack.bytes) || fresh(stack.bytes))
    ensures outcome == None ==>
              && start < offset <= |text| && stack.depth <= offset
              && Between(text, tr, offset, ModeOf(awaited'), stack.Kinds()) && Consistent(awaited', stack.Kinds())
    ensures outcome == Some(true) ==> Unfinished(text, tr)
    ensures outcome == Some(false) ==> Refuted(text, tr)
  {
    var character := text[start];
    Structural(text, tr, start, ModeOf(awaited), stack.Kinds());
    offset, outcome, awaited' := start + 1, None, awaited;
    if IsWhitespace(character) { return; }
    if IsPunctuation(awaited, character) {
      var refused;
      refused, awaited' := ReadPunctuation(text, start, awaited, stack, tr);
      if refused { outcome := Some(false); }
    } else if IsOpening(awaited, character) {
      awaited' := ReadOpening(text, start, awaited, stack, tr);
    } else {
      var key := awaited == Expect.ObjectKey || awaited == Expect.ObjectKeyOrEnd;
      offset, outcome := ReadToken(text, start, key, tr, stack.Kinds());
      awaited' := if key then Expect.Colon else CompletedExpect(stack.depth);
    }
  }

  /** True exactly when appending code units can complete an unfinished JSON text. */
  method IsIncompleteArchiveJsonPrefix(text: Text) returns (incomplete: bool)
    ensures incomplete <==> IsIncompletePrefix(text)
  {
    ghost var tr := TraceOf(text);
    Verdict(text, tr);
    var offset: nat, awaited := 0, Value;
    var stack := new ByteStack(|text|);
    while offset < |text|
      invariant fresh(stack) && fresh(stack.bytes) && stack.Valid() && stack.limit == |text|
      invariant stack.depth <= offset <= |text|
      invariant Between(text, tr, offset, ModeOf(awaited), stack.Kinds()) && Consistent(awaited, stack.Kinds())
      decreases |text| - offset
    {
      var outcome;
      offset, outcome, awaited := ReadNext(text, offset, awaited, stack, tr);
      if outcome.Some? { return outcome.value; }
    }
    Exhausted(text, tr, awaited, stack.Kinds());
    return awaited != Expect.Done;
  }
}
