/** Every accepted text is JSON. While the automaton reads, the positions of the open
    brackets and of the current token divide what has been read into grammar spans. */
module JsonSound {
  import opened JsonGrammar
  import opened Options
  import opened JsonAutomaton

  /** An open bracket: its position, where its current item starts, and where the
      text after that item's colon starts (the same as `slot` without a colon). */
  datatype Frame = Frame(open: nat, slot: nat, inner: nat)

  ghost function Opening(kind: Kind): CodeUnit {
    if kind.InArray? then OPEN_ARRAY else OPEN_OBJECT
  }

  ghost predicate ItemsAt(t: Text, kind: Kind, i: nat, j: nat) {
    if kind.InArray? then ElementsAt(t, i, j) else MembersAt(t, i, j)
  }

  ghost predicate FrameAt(t: Text, f: Frame, kind: Kind) {
    && f.open < f.slot <= f.inner <= |t|
    && t[f.open] == Opening(kind)
    && (f.slot == f.open + 1 || (f.open + 1 < f.slot && t[f.slot - 1] == COMMA && ItemsAt(t, kind, f.open + 1, f.slot - 1)))
    && (f.inner == f.slot || (kind.InObject? && t[f.inner - 1] == COLON && HeadAt(t, f.slot, f.inner - 1)))
  }

  ghost function Base(fs: seq<Frame>): nat {
    if fs == [] then 0 else fs[|fs| - 1].inner
  }

  ghost predicate AtKey(fs: seq<Frame>, stack: seq<Kind>) {
    fs != [] && stack != [] && Top(stack).InObject? && fs[|fs| - 1].inner == fs[|fs| - 1].slot
  }

  ghost predicate AtFirst(fs: seq<Frame>, stack: seq<Kind>) {
    fs != [] && stack != [] && fs[|fs| - 1].inner == fs[|fs| - 1].open + 1
  }

  /** The innermost bracket is waiting for a value, not for a key. */
  ghost predicate Hosts(fs: seq<Frame>, stack: seq<Kind>) {
    fs == [] || stack == [] || Top(stack).InArray? || fs[|fs| - 1].inner > fs[|fs| - 1].slot
  }

  ghost predicate FramesAt(t: Text, fs: seq<Frame>, stack: seq<Kind>) {
    if fs == [] then stack == []
    else
      var below, f := fs[..|fs| - 1], fs[|fs| - 1];
      && stack != []
      && FramesAt(t, below, Pop(stack)) && Hosts(below, Pop(stack))
      && BlankAt(t, Base(below), f.open) && FrameAt(t, f, Top(stack))
  }

  ghost predicate StringPrefixAt(t: Text, i: nat, j: nat, state: StringState) {
    match state
    case Body => CharsAt(t, i, j)
    case AfterBackslash => i < j <= |t| && CharsAt(t, i, j - 1) && t[j - 1] == BACKSLASH
    case InHex(left) =>
      && 1 <= left <= 4 && i + 6 - left <= j <= |t|
      && var k := j + left - 6;
         CharsAt(t, i, k) && t[k] == BACKSLASH && t[k + 1] == LOWER_U && forall n :: k + 2 <= n < j ==> IsHex(t[n])
  }

  ghost predicate WholeAt(t: Text, i: nat, b: nat) {
    exists a: nat :: MinusAt(t, i, a) && IntegerAt(t, a, b)
  }

  ghost predicate DecimalAt(t: Text, i: nat, c: nat) {
    exists b: nat :: WholeAt(t, i, b) && FractionAt(t, b, c)
  }

  ghost predicate NumberPrefixAt(t: Text, i: nat, j: nat, q: NumberState) {
    i < j <= |t| &&
    match q
    case AfterMinus => j == i + 1 && t[i] == MINUS
    case AfterZero => MinusAt(t, i, j - 1) && t[j - 1] == ZERO
    case InInteger => exists a: nat :: a < j && MinusAt(t, i, a) && IntegerAt(t, a, j) && t[a] != ZERO
    case AfterPoint => WholeAt(t, i, j - 1) && t[j - 1] == POINT
    case InFraction => exists b: nat :: WholeAt(t, i, b) && b < j && FractionAt(t, b, j)
    case AfterMark => DecimalAt(t, i, j - 1) && IsExponentMark(t[j - 1])
    case AfterSign => j >= 2 && DecimalAt(t, i, j - 2) && IsExponentMark(t[j - 2]) && (t[j - 1] == PLUS || t[j - 1] == MINUS)
    case InExponent => exists c: nat :: DecimalAt(t, i, c) && c < j && ExponentAt(t, c, j)
  }

  ghost predicate LiteralPrefixAt(t: Text, i: nat, j: nat, literal: Literal, read: nat) {
    && j == i + read <= |t| && 0 < read < |LiteralText(literal)|
    && forall k :: 0 <= k < read ==> t[i + k] == LiteralText(literal)[k]
  }

  /** What lies between the innermost bracket and position `i`; `token` is where the current token began. */
  ghost predicate LeafAt(t: Text, fs: seq<Frame>, stack: seq<Kind>, mode: Mode, token: nat, i: nat) {
    var b := Base(fs);
    match mode
    case ExpectValue => Hosts(fs, stack) && BlankAt(t, b, i)
    case ArrayValueOrEnd => AtFirst(fs, stack) && Top(stack).InArray? && BlankAt(t, b, i)
    case ObjectKeyOrEnd => AtFirst(fs, stack) && AtKey(fs, stack) && BlankAt(t, b, i)
    case ObjectKey => AtKey(fs, stack) && BlankAt(t, b, i)
    case ExpectColon => AtKey(fs, stack) && HeadAt(t, b, i)
    case CommaOrEnd => stack != [] && Hosts(fs, stack) && ElementAt(t, b, i)
    case Done => stack == [] && ElementAt(t, b, i)
    case InString(key, state) =>
      && (if key then AtKey(fs, stack) else Hosts(fs, stack))
      && token < i <= |t| && BlankAt(t, b, token) && t[token] == QUOTE && StringPrefixAt(t, token + 1, i, state)
    case InLiteral(literal, read) =>
      Hosts(fs, stack) && BlankAt(t, b, token) && LiteralPrefixAt(t, token, i, literal, read)
    case InNumber(number) => Hosts(fs, stack) && BlankAt(t, b, token) && NumberPrefixAt(t, token, i, number)
  }

  ghost predicate Divides(t: Text, fs: seq<Frame>, token: nat, q: State, i: nat) {
    q.Live? && i <= |t| && FramesAt(t, fs, q.stack) && LeafAt(t, fs, q.stack, q.mode, token, i)
  }

  lemma ElementEnds(t: Text, b: nat, a: nat, j: nat)
    requires b <= a <= j <= |t| && BlankAt(t, b, a) && ValueAt(t, a, j)
    ensures ElementAt(t, b, j)
  {
    assert BlankAt(t, j, j);
  }

  lemma NumberStep(t: Text, i: nat, j: nat, q: NumberState, next: NumberState)
    requires j < |t| && NumberPrefixAt(t, i, j, q) && ContinueNumber(q, t[j]) == Some(next)
    ensures NumberPrefixAt(t, i, j + 1, next)
  {
    match q
    case AfterMinus =>
      assert MinusAt(t, i, j) && IntegerAt(t, j, j + 1);
    case AfterZero =>
      assert IntegerAt(t, j - 1, j) && WholeAt(t, i, j);
      assert FractionAt(t, j, j) && DecimalAt(t, i, j);
    case InInteger =>
      var a: nat :| a < j && MinusAt(t, i, a) && IntegerAt(t, a, j) && t[a] != ZERO;
      if next == InInteger {
        assert IntegerAt(t, a, j + 1);
      } else {
        assert WholeAt(t, i, j);
        assert FractionAt(t, j, j) && DecimalAt(t, i, j);
      }
    case AfterPoint =>
      assert FractionAt(t, j - 1, j + 1);
    case InFraction =>
      var b: nat :| WholeAt(t, i, b) && b < j && FractionAt(t, b, j);
      if next == InFraction {
        assert FractionAt(t, b, j + 1);
      } else {
        assert DecimalAt(t, i, j);
      }
    case AfterMark =>
      if next == InExponent { assert ExponentAt(t, j - 1, j + 1); }
    case AfterSign =>
      assert ExponentAt(t, j - 2, j + 1);
    case InExponent =>
      var c: nat :| DecimalAt(t, i, c) && c < j && ExponentAt(t, c, j);
      assert ExponentAt(t, c, j + 1);
  }

  lemma NumberEnds(t: Text, i: nat, j: nat, q: NumberState)
    requires NumberPrefixAt(t, i, j, q) && Terminal(q)
    ensures ValueAt(t, i, j)
  {
    var c: nat;
    if q == InExponent {
      c :| DecimalAt(t, i, c) && c < j && ExponentAt(t, c, j);
    } else {
      c := j;
      if q == AfterZero {
        assert IntegerAt(t, j - 1, j) && WholeAt(t, i, j);
        assert FractionAt(t, j, j);
      } else if q == InInteger {
        assert WholeAt(t, i, j);
        assert FractionAt(t, j, j);
      }
      assert DecimalAt(t, i, j) && ExponentAt(t, j, j);
    }
    var b: nat :| WholeAt(t, i, b) && FractionAt(t, b, c);
    var a: nat :| MinusAt(t, i, a) && IntegerAt(t, a, b);
    assert NumberAt(t, i, j);
  }

  lemma StringStep(t: Text, i: nat, j: nat, key: bool, state: StringState, stack: seq<Kind>, next: StringState)
    requires i <= j < |t| && StringPrefixAt(t, i, j, state)
    requires StepString(key, state, stack, t[j]) == Live(InString(key, next), stack)
    ensures StringPrefixAt(t, i, j + 1, next)
  {
    match state
    case Body => assert next == Body ==> CharAt(t, j, j + 1);
    case AfterBackslash => assert next == Body ==> CharAt(t, j - 1, j + 1);
    case InHex(left) => assert next == Body ==> UnicodeAt(t, j - 5, j + 1) && CharAt(t, j - 5, j + 1);
  }

  lemma BlankStep(t: Text, fs: seq<Frame>, stack: seq<Kind>, mode: Mode, token: nat, i: nat)
    requires i < |t| && LeafAt(t, fs, stack, mode, token, i) && IsWhitespace(t[i])
    requires !mode.InString? && !mode.InLiteral? && !mode.InNumber?
    ensures LeafAt(t, fs, stack, mode, token, i + 1)
  {
    if mode == ExpectColon {
      var b := Base(fs);
      var x: nat, y: nat :| b <= x <= y <= i && BlankAt(t, b, x) && StringAt(t, x, y) && BlankAt(t, y, i);
      assert BlankAt(t, y, i + 1);
    } else if mode == CommaOrEnd || mode == Done {
      var b := Base(fs);
      var x: nat, y: nat :| b <= x <= y <= i && BlankAt(t, b, x) && ValueAt(t, x, y) && BlankAt(t, y, i);
      assert BlankAt(t, y, i + 1);
    }
  }

  // Opening, continuing and closing brackets

  lemma FramesReplace(t: Text, fs: seq<Frame>, stack: seq<Kind>, f: Frame)
    requires FramesAt(t, fs, stack) && fs != []
    requires FrameAt(t, f, Top(stack)) && f.open == fs[|fs| - 1].open
    ensures FramesAt(t, fs[..|fs| - 1] + [f], stack)
  {
    assert (fs[..|fs| - 1] + [f])[..|fs| - 1] == fs[..|fs| - 1];
  }

  lemma FramesPush(t: Text, fs: seq<Frame>, stack: seq<Kind>, kind: Kind, i: nat)
    requires FramesAt(t, fs, stack) && Hosts(fs, stack) && BlankAt(t, Base(fs), i)
    requires i < |t| && t[i] == Opening(kind)
    ensures FramesAt(t, fs + [Frame(i, i + 1, i + 1)], stack + [kind])
  {
    var f := Frame(i, i + 1, i + 1);
    assert (fs + [f])[..|fs|] == fs && Pop(stack + [kind]) == stack && FrameAt(t, f, kind);
  }

  /** The items of the innermost bracket, once its last value has ended. */
  lemma ItemsEnd(t: Text, fs: seq<Frame>, stack: seq<Kind>, i: nat)
    requires FramesAt(t, fs, stack) && fs != [] && Hosts(fs, stack) && i <= |t| && ElementAt(t, Base(fs), i)
    ensures ItemsAt(t, Top(stack), fs[|fs| - 1].open + 1, i)
    ensures Base(fs) <= i
  {
    var f := fs[|fs| - 1];
    if Top(stack).InObject? { assert MemberAt(t, f.slot, i); }
  }

  lemma BracketEnds(t: Text, open: nat, kind: Kind, i: nat)
    requires open < i < |t| && t[open] == Opening(kind) && t[i] == Closing(kind)
    requires BlankAt(t, open + 1, i) || ItemsAt(t, kind, open + 1, i)
    ensures ValueAt(t, open, i + 1)
  {
    assert ArrayAt(t, open, i + 1) || ObjectAt(t, open, i + 1);
  }

  /** The bracketed value is complete: the frame goes, and the frame below has an element. */
  lemma Close(t: Text, fs: seq<Frame>, stack: seq<Kind>, i: nat)
    requires FramesAt(t, fs, stack) && fs != [] && i < |t| && t[i] == Closing(Top(stack))
    requires fs[|fs| - 1].open < i
    requires BlankAt(t, fs[|fs| - 1].open + 1, i) || ItemsAt(t, Top(stack), fs[|fs| - 1].open + 1, i)
    ensures ElementAt(t, Base(fs[..|fs| - 1]), i + 1)
  {
    BracketEnds(t, fs[|fs| - 1].open, Top(stack), i);
    ElementEnds(t, Base(fs[..|fs| - 1]), fs[|fs| - 1].open, i + 1);
  }

  lemma Comma(t: Text, fs: seq<Frame>, stack: seq<Kind>, i: nat) returns (fs': seq<Frame>)
    requires FramesAt(t, fs, stack) && fs != [] && i < |t| && t[i] == COMMA
    requires Hosts(fs, stack) && ElementAt(t, Base(fs), i)
    ensures FramesAt(t, fs', stack) && Base(fs') == i + 1
    ensures if Top(stack).InObject? then AtKey(fs', stack) else Hosts(fs', stack)
  {
    var f := CommaFrame(t, fs, stack, i);
    FramesReplace(t, fs, stack, f);
    fs' := fs[..|fs| - 1] + [f];
  }

  lemma CommaFrame(t: Text, fs: seq<Frame>, stack: seq<Kind>, i: nat) returns (f: Frame)
    requires FramesAt(t, fs, stack) && fs != [] && i < |t| && t[i] == COMMA
    requires Hosts(fs, stack) && ElementAt(t, Base(fs), i)
    ensures FrameAt(t, f, Top(stack)) && f.open == fs[|fs| - 1].open && f.slot == f.inner == i + 1
  {
    var top := fs[|fs| - 1];
    f := Frame(top.open, i + 1, i + 1);
    ItemsEnd(t, fs, stack, i);
    assert FrameAt(t, top, Top(stack));
  }

  lemma Colon(t: Text, fs: seq<Frame>, stack: seq<Kind>, i: nat) returns (fs': seq<Frame>)
    requires FramesAt(t, fs, stack) && AtKey(fs, stack) && i < |t| && t[i] == COLON && HeadAt(t, Base(fs), i)
    ensures FramesAt(t, fs', stack) && Base(fs') == i + 1 && Hosts(fs', stack)
  {
    var f := fs[|fs| - 1].(inner := i + 1);
    FramesReplace(t, fs, stack, f);
    fs' := fs[..|fs| - 1] + [f];
  }

  lemma Opened(t: Text, fs: seq<Frame>, stack: seq<Kind>, kind: Kind, i: nat) returns (fs': seq<Frame>)
    requires FramesAt(t, fs, stack) && Hosts(fs, stack) && BlankAt(t, Base(fs), i)
    requires i < |t| && t[i] == Opening(kind)
    ensures Divides(t, fs', i, Live(if kind.InArray? then ArrayValueOrEnd else ObjectKeyOrEnd, stack + [kind]), i + 1)
  {
    FramesPush(t, fs, stack, kind, i);
    fs' := fs + [Frame(i, i + 1, i + 1)];
    assert BlankAt(t, i + 1, i + 1);
  }

  lemma BeginValue(t: Text, fs: seq<Frame>, stack: seq<Kind>, i: nat) returns (fs': seq<Frame>)
    requires FramesAt(t, fs, stack) && Hosts(fs, stack) && BlankAt(t, Base(fs), i)
    requires i < |t| && StepValue(stack, t[i]).Live?
    ensures Divides(t, fs', i, StepValue(stack, t[i]), i + 1)
  {
    fs' := fs;
    assert BlankAt(t, i + 1, i + 1);
    if t[i] == OPEN_OBJECT {
      fs' := Opened(t, fs, stack, InObject, i);
    } else if t[i] == OPEN_ARRAY {
      fs' := Opened(t, fs, stack, InArray, i);
    } else if IsDigit(t[i]) {
      assert MinusAt(t, i, i) && IntegerAt(t, i, i + 1);
    }
  }

  /** A complete element of the innermost bracket, or of the whole text. */
  lemma Settle(t: Text, fs: seq<Frame>, stack: seq<Kind>, token: nat, j: nat)
    requires j <= |t| && FramesAt(t, fs, stack) && Hosts(fs, stack) && ElementAt(t, Base(fs), j)
    ensures Divides(t, fs, token, Live(Completed(stack), stack), j)
  {
  }

  lemma CloseStep(t: Text, fs: seq<Frame>, mode: Mode, stack: seq<Kind>, i: nat) returns (fs': seq<Frame>)
    requires Divides(t, fs, i, Live(mode, stack), i) && i < |t| && stack != [] && t[i] == Closing(Top(stack))
    requires mode == ArrayValueOrEnd || mode == ObjectKeyOrEnd || mode == CommaOrEnd
    ensures Divides(t, fs', i, Live(Completed(Pop(stack)), Pop(stack)), i + 1)
  {
    if mode == CommaOrEnd { ItemsEnd(t, fs, stack, i); }
    Close(t, fs, stack, i);
    fs' := fs[..|fs| - 1];
    Settle(t, fs', Pop(stack), i, i + 1);
  }

  lemma StructureStep(t: Text, fs: seq<Frame>, mode: Mode, stack: seq<Kind>, i: nat) returns (fs': seq<Frame>)
    requires Divides(t, fs, i, Live(mode, stack), i) && i < |t|
    requires !mode.InString? && !mode.InLiteral? && !mode.InNumber?
    requires StepStructure(mode, stack, t[i]).Live?
    ensures Divides(t, fs', i, StepStructure(mode, stack, t[i]), i + 1)
  {
    fs' := fs;
    if IsWhitespace(t[i]) {
      BlankStep(t, fs, stack, mode, i, i);
    } else if mode == ExpectValue || (mode == ArrayValueOrEnd && t[i] != CLOSE_ARRAY) {
      fs' := BeginValue(t, fs, stack, i);
    } else if mode == ExpectColon {
      fs' := Colon(t, fs, stack, i);
      assert BlankAt(t, i + 1, i + 1);
    } else if mode == CommaOrEnd && t[i] == COMMA {
      fs' := Comma(t, fs, stack, i);
      assert BlankAt(t, i + 1, i + 1);
    } else if t[i] != QUOTE {
      fs' := CloseStep(t, fs, mode, stack, i);
    }
  }

  /** A terminal number may be taken as a complete value. */
  lemma NumberCloses(t: Text, fs: seq<Frame>, token: nat, q: State, i: nat)
    requires Divides(t, fs, token, q, i) && q.mode.InNumber? && Terminal(q.mode.number)
    ensures Divides(t, fs, i, Live(Completed(q.stack), q.stack), i)
  {
    NumberEnds(t, token, i, q.mode.number);
    ElementEnds(t, Base(fs), token, i);
    Settle(t, fs, q.stack, i, i);
  }

  lemma NumberExtends(t: Text, fs: seq<Frame>, token: nat, q: State, i: nat) returns (fs': seq<Frame>, token': nat)
    requires Divides(t, fs, token, q, i) && i < |t| && q.mode.InNumber? && Step(q, t[i]).Live?
    ensures Divides(t, fs', token', Step(q, t[i]), i + 1)
  {
    fs', token' := fs, token;
    var next := ContinueNumber(q.mode.number, t[i]);
    if next.Some? {
      NumberStep(t, token, i, q.mode.number, next.value);
    } else {
      NumberCloses(t, fs, token, q, i);
      fs' := StructureStep(t, fs, Completed(q.stack), q.stack, i);
      token' := i;
    }
  }

  lemma StringCloses(t: Text, fs: seq<Frame>, token: nat, q: State, i: nat)
    requires Divides(t, fs, token, q, i) && i < |t| && t[i] == QUOTE
    requires q.mode.InString? && q.mode.state.Body?
    ensures Divides(t, fs, token, Step(q, QUOTE), i + 1)
  {
    assert StringAt(t, token, i + 1);
    if q.mode.key {
      assert BlankAt(t, i + 1, i + 1);
      assert HeadAt(t, Base(fs), i + 1);
    } else {
      ElementEnds(t, Base(fs), token, i + 1);
      Settle(t, fs, q.stack, token, i + 1);
    }
  }

  lemma StringExtends(t: Text, fs: seq<Frame>, token: nat, q: State, i: nat)
    requires Divides(t, fs, token, q, i) && i < |t| && q.mode.InString? && Step(q, t[i]).Live?
    ensures Divides(t, fs, token, Step(q, t[i]), i + 1)
  {
    if q.mode.state == Body && t[i] == QUOTE {
      StringCloses(t, fs, token, q, i);
    } else {
      StringStep(t, token + 1, i, q.mode.key, q.mode.state, q.stack, Step(q, t[i]).mode.state);
    }
  }

  lemma LiteralExtends(t: Text, fs: seq<Frame>, token: nat, q: State, i: nat)
    requires Divides(t, fs, token, q, i) && i < |t| && q.mode.InLiteral? && Step(q, t[i]).Live?
    ensures Divides(t, fs, token, Step(q, t[i]), i + 1)
  {
    var InLiteral(literal, read) := q.mode;
    if read + 1 == |LiteralText(literal)| {
      assert LiteralAt(t, token, i + 1, literal);
      ElementEnds(t, Base(fs), token, i + 1);
      Settle(t, fs, q.stack, token, i + 1);
    } else {
      assert LiteralPrefixAt(t, token, i + 1, literal, read + 1);
    }
  }

  lemma Extend(t: Text, fs: seq<Frame>, token: nat, q: State, i: nat) returns (fs': seq<Frame>, token': nat)
    requires Divides(t, fs, token, q, i) && i < |t| && Step(q, t[i]).Live?
    ensures Divides(t, fs', token', Step(q, t[i]), i + 1)
  {
    fs', token' := fs, token;
    match q.mode
    case InString(_, _) => StringExtends(t, fs, token, q, i);
    case InLiteral(_, _) => LiteralExtends(t, fs, token, q, i);
    case InNumber(_) => fs', token' := NumberExtends(t, fs, token, q, i);
    case mode =>
      fs' := StructureStep(t, fs, mode, q.stack, i);
      token' := i;
  }

  lemma {:induction false} Divide(t: Text, tr: seq<State>, i: nat) returns (fs: seq<Frame>, token: nat)
    requires IsTrace(t, tr) && i <= |t| && tr[i].Live?
    ensures Divides(t, fs, token, tr[i], i)
  {
    fs, token := [], 0;
    if i > 0 {
      assert Reads(t, tr, i - 1);
      fs, token := Divide(t, tr, i - 1);
      fs, token := Extend(t, fs, token, tr[i - 1], i - 1);
    }
  }

  /** Soundness. */
  lemma AcceptedIsJson(t: Text)
    requires Accepting(Run(Start, t))
    ensures IsJson(t)
  {
    var tr := TraceOf(t);
    var fs, token := Divide(t, tr, |t|);
    if tr[|t|].mode.InNumber? { NumberCloses(t, fs, token, tr[|t|], |t|); }
  }
}
