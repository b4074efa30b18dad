/** Every JSON text is accepted: reading a span of the grammar takes the automaton
    from the state where that span may start to the one where it has ended. */
module JsonComplete {
  import opened JsonGrammar
  import opened Options
  import opened JsonAutomaton

  lemma {:induction false} BlankRuns(t: Text, tr: seq<State>, i: nat, j: nat, q: State)
    requires IsTrace(t, tr)
    requires BlankAt(t, i, j)
    requires q.Live? && !q.mode.InString? && !q.mode.InLiteral? && !q.mode.InNumber?
    requires tr[i] == q
    ensures tr[j] == q
  {
    if i < j {
      BlankRuns(t, tr, i, j - 1, q);
      assert Reads(t, tr, j - 1);
    }
  }

  // Numbers

  /** Where a value may start: also just after `[`. */
  ghost predicate StartsValue(q: State, stack: seq<Kind>) {
    q == Live(ExpectValue, stack) || (q == Live(ArrayValueOrEnd, stack) && stack != [])
  }

  lemma {:induction false} DigitsRun(t: Text, tr: seq<State>, i: nat, j: nat, number: NumberState, stack: seq<Kind>)
    requires IsTrace(t, tr)
    requires DigitsAt(t, i, j) && number in {InInteger, InFraction, InExponent}
    requires tr[i + 1] == Live(InNumber(number), stack)
    ensures tr[j] == Live(InNumber(number), stack)
  {
    if i + 1 < j {
      DigitsRun(t, tr, i, j - 1, number, stack);
      assert Reads(t, tr, j - 1);
    }
  }

  lemma IntegerRuns(t: Text, tr: seq<State>, i: nat, j: nat, stack: seq<Kind>)
    requires IsTrace(t, tr)
    requires IntegerAt(t, i, j)
    requires StartsValue(tr[i], stack) || tr[i] == Live(InNumber(AfterMinus), stack)
    ensures tr[j] == Live(InNumber(AfterZero), stack) || tr[j] == Live(InNumber(InInteger), stack)
  {
    assert Reads(t, tr, i);
    if t[i] != ZERO { DigitsRun(t, tr, i, j, InInteger, stack); }
  }

  lemma FractionRuns(t: Text, tr: seq<State>, i: nat, j: nat, stack: seq<Kind>)
    requires IsTrace(t, tr)
    requires FractionAt(t, i, j)
    requires tr[i] == Live(InNumber(AfterZero), stack) || tr[i] == Live(InNumber(InInteger), stack)
    ensures tr[j] == tr[i] || tr[j] == Live(InNumber(InFraction), stack)
  {
    if i < j {
      assert Reads(t, tr, i) && Reads(t, tr, i + 1);
      DigitsRun(t, tr, i + 1, j, InFraction, stack);
    }
  }

  lemma ExponentRuns(t: Text, tr: seq<State>, i: nat, j: nat, stack: seq<Kind>)
    requires IsTrace(t, tr)
    requires ExponentAt(t, i, j) && i <= |t|
    requires exists q :: tr[i] == Live(InNumber(q), stack) && q in {AfterZero, InInteger, InFraction}
    ensures Settled(tr[j], stack)
  {
    if i < j {
      assert Reads(t, tr, i) && Reads(t, tr, i + 1);
      if DigitsAt(t, i + 1, j) {
        DigitsRun(t, tr, i + 1, j, InExponent, stack);
      } else {
        assert Reads(t, tr, i + 2);
        DigitsRun(t, tr, i + 2, j, InExponent, stack);
      }
    }
  }

  lemma NumberRuns(t: Text, tr: seq<State>, i: nat, j: nat, stack: seq<Kind>)
    requires IsTrace(t, tr)
    requires i < j <= |t| && NumberAt(t, i, j) && StartsValue(tr[i], stack)
    ensures Settled(tr[j], stack)
  {
    var a: nat, b: nat, c: nat :| MinusAt(t, i, a) && IntegerAt(t, a, b) && FractionAt(t, b, c) && ExponentAt(t, c, j);
    assert i < a ==> Reads(t, tr, i);
    IntegerRuns(t, tr, a, b, stack);
    FractionRuns(t, tr, b, c, stack);
    ExponentRuns(t, tr, c, j, stack);
  }

  // Strings

  lemma UnicodeRuns(t: Text, tr: seq<State>, i: nat, j: nat, key: bool, stack: seq<Kind>)
    requires IsTrace(t, tr)
    requires UnicodeAt(t, i, j) && tr[i] == Live(InString(key, Body), stack)
    ensures tr[j] == Live(InString(key, Body), stack)
  {
    assert Reads(t, tr, i) && Reads(t, tr, i + 1) && Reads(t, tr, i + 2);
    assert Reads(t, tr, i + 3) && Reads(t, tr, i + 4) && Reads(t, tr, i + 5);
  }

  lemma {:induction false} CharsRun(t: Text, tr: seq<State>, i: nat, j: nat, key: bool, stack: seq<Kind>)
    requires IsTrace(t, tr)
    requires i <= j <= |t| && CharsAt(t, i, j) && tr[i] == Live(InString(key, Body), stack)
    ensures tr[j] == Live(InString(key, Body), stack)
    decreases j - i
  {
    if i < j {
      var k: nat :| i <= k < j && CharsAt(t, i, k) && CharAt(t, k, j);
      CharsRun(t, tr, i, k, key, stack);
      assert Reads(t, tr, k);
      if UnicodeAt(t, k, j) {
        UnicodeRuns(t, tr, k, j, key, stack);
      } else if j == k + 2 {
        assert Reads(t, tr, k + 1);
      }
    }
  }

  lemma StringRuns(t: Text, tr: seq<State>, i: nat, j: nat, key: bool, stack: seq<Kind>)
    requires IsTrace(t, tr)
    requires StringAt(t, i, j) && Step(tr[i], QUOTE) == Live(InString(key, Body), stack)
    ensures tr[j] == Live(if key then ExpectColon else Completed(stack), stack)
  {
    assert Reads(t, tr, i);
    CharsRun(t, tr, i + 1, j - 1, key, stack);
    assert Reads(t, tr, j - 1);
  }

  // Values

  lemma {:induction false} LiteralRuns(t: Text, tr: seq<State>, i: nat, j: nat, literal: Literal, read: nat, stack: seq<Kind>)
    requires IsTrace(t, tr)
    requires LiteralAt(t, i, j, literal) && 0 < read < |LiteralText(literal)|
    requires tr[i + read] == Live(InLiteral(literal, read), stack)
    ensures tr[j] == Live(Completed(stack), stack)
    decreases |LiteralText(literal)| - read
  {
    assert t[i + read] == LiteralText(literal)[read] && Reads(t, tr, i + read);
    if read + 1 < |LiteralText(literal)| { LiteralRuns(t, tr, i, j, literal, read + 1, stack); }
  }

  lemma ValueStarts(t: Text, i: nat, j: nat)
    requires ValueAt(t, i, j)
    ensures !IsWhitespace(t[i]) && t[i] != CLOSE_ARRAY
  {
    if literal :| LiteralAt(t, i, j, literal) {
      assert t[i + 0] == LiteralText(literal)[0];
    } else if NumberAt(t, i, j) {
      var a: nat, b: nat, c: nat :| MinusAt(t, i, a) && IntegerAt(t, a, b) && FractionAt(t, b, c) && ExponentAt(t, c, j);
      assert IsDigit(t[a]);
    } else {
      assert StringAt(t, i, j) || ArrayAt(t, i, j) || ObjectAt(t, i, j);
    }
  }

  /** Whitespace after a value leaves it settled. */
  lemma BlankSettled(t: Text, tr: seq<State>, i: nat, j: nat, stack: seq<Kind>)
    requires IsTrace(t, tr)
    requires BlankAt(t, i, j) && Settled(tr[i], stack)
    ensures Settled(tr[j], stack)
  {
    if i < j {
      SettledStep(tr[i], stack, t[i]);
      assert Reads(t, tr, i);
      BlankRuns(t, tr, i + 1, j, Live(Completed(stack), stack));
    }
  }

  lemma {:induction false} ValueRuns(t: Text, tr: seq<State>, i: nat, j: nat, stack: seq<Kind>)
    requires IsTrace(t, tr)
    requires ValueAt(t, i, j) && StartsValue(tr[i], stack)
    ensures Settled(tr[j], stack)
    decreases j - i, 1
  {
    ValueStarts(t, i, j);
    assert Reads(t, tr, i);
    if literal :| LiteralAt(t, i, j, literal) {
      assert t[i + 0] == LiteralText(literal)[0];
      LiteralRuns(t, tr, i, j, literal, 1, stack);
    } else if NumberAt(t, i, j) {
      NumberRuns(t, tr, i, j, stack);
    } else if StringAt(t, i, j) {
      StringRuns(t, tr, i, j, false, stack);
    } else if ArrayAt(t, i, j) {
      ArrayRuns(t, tr, i, j, stack);
    } else {
      ObjectRuns(t, tr, i, j, stack);
    }
  }

  lemma {:induction false} ArrayRuns(t: Text, tr: seq<State>, i: nat, j: nat, stack: seq<Kind>)
    requires IsTrace(t, tr)
    requires i < j <= |t| && ArrayAt(t, i, j) && StartsValue(tr[i], stack)
    ensures Settled(tr[j], stack)
    decreases j - i, 0
  {
    var inside := stack + [InArray];
    assert Pop(inside) == stack && Reads(t, tr, i) && Reads(t, tr, j - 1);
    if BlankAt(t, i + 1, j - 1) {
      BlankRuns(t, tr, i + 1, j - 1, Live(ArrayValueOrEnd, inside));
    } else {
      ElementsRun(t, tr, i + 1, j - 1, inside);
      SettledStep(tr[j - 1], inside, CLOSE_ARRAY);
    }
  }

  lemma {:induction false} ObjectRuns(t: Text, tr: seq<State>, i: nat, j: nat, stack: seq<Kind>)
    requires IsTrace(t, tr)
    requires i < j <= |t| && ObjectAt(t, i, j) && StartsValue(tr[i], stack)
    ensures Settled(tr[j], stack)
    decreases j - i, 0
  {
    var inside := stack + [InObject];
    assert Pop(inside) == stack && Reads(t, tr, i) && Reads(t, tr, j - 1);
    if BlankAt(t, i + 1, j - 1) {
      BlankRuns(t, tr, i + 1, j - 1, Live(ObjectKeyOrEnd, inside));
    } else {
      MembersRun(t, tr, i + 1, j - 1, inside);
      SettledStep(tr[j - 1], inside, CLOSE_OBJECT);
    }
  }

  lemma {:induction false} ElementRuns(t: Text, tr: seq<State>, i: nat, j: nat, stack: seq<Kind>)
    requires IsTrace(t, tr)
    requires j <= |t| && i <= j && ElementAt(t, i, j) && StartsValue(tr[i], stack)
    ensures Settled(tr[j], stack)
    decreases j - i, 2
  {
    var a: nat, b: nat :| i <= a <= b <= j && BlankAt(t, i, a) && ValueAt(t, a, b) && BlankAt(t, b, j);
    BlankRuns(t, tr, i, a, tr[i]);
    ValueRuns(t, tr, a, b, stack);
    BlankSettled(t, tr, b, j, stack);
  }

  lemma {:induction false} ElementsRun(t: Text, tr: seq<State>, i: nat, j: nat, stack: seq<Kind>)
    requires IsTrace(t, tr)
    requires i <= j <= |t| && ElementsAt(t, i, j) && stack != [] && Top(stack).InArray?
    requires tr[i] == Live(ArrayValueOrEnd, stack)
    ensures Settled(tr[j], stack)
    decreases j - i, 3
  {
    if ElementAt(t, i, j) {
      ElementRuns(t, tr, i, j, stack);
    } else {
      var k: nat :| i <= k < j <= |t| && ElementsAt(t, i, k) && t[k] == COMMA && ElementAt(t, k + 1, j);
      ElementsRun(t, tr, i, k, stack);
      SettledStep(tr[k], stack, COMMA);
      assert Reads(t, tr, k);
      ElementRuns(t, tr, k + 1, j, stack);
    }
  }

  lemma {:induction false} MemberRuns(t: Text, tr: seq<State>, i: nat, j: nat, stack: seq<Kind>)
    requires IsTrace(t, tr)
    requires i <= j <= |t| && MemberAt(t, i, j) && stack != []
    requires tr[i] == Live(ObjectKeyOrEnd, stack) || tr[i] == Live(ObjectKey, stack)
    ensures Settled(tr[j], stack)
    decreases j - i, 3
  {
    var k: nat :| i <= k < j <= |t| && HeadAt(t, i, k) && t[k] == COLON && ElementAt(t, k + 1, j);
    var a: nat, b: nat :| i <= a <= b <= k && BlankAt(t, i, a) && StringAt(t, a, b) && BlankAt(t, b, k);
    BlankRuns(t, tr, i, a, tr[i]);
    StringRuns(t, tr, a, b, true, stack);
    BlankRuns(t, tr, b, k, Live(ExpectColon, stack));
    assert Reads(t, tr, k);
    ElementRuns(t, tr, k + 1, j, stack);
  }

  lemma {:induction false} MembersRun(t: Text, tr: seq<State>, i: nat, j: nat, stack: seq<Kind>)
    requires IsTrace(t, tr)
    requires i <= j <= |t| && MembersAt(t, i, j) && stack != [] && Top(stack).InObject?
    requires tr[i] == Live(ObjectKeyOrEnd, stack)
    ensures Settled(tr[j], stack)
    decreases j - i, 4
  {
    if MemberAt(t, i, j) {
      MemberRuns(t, tr, i, j, stack);
    } else {
      var k: nat :| i <= k < j <= |t| && MembersAt(t, i, k) && t[k] == COMMA && MemberAt(t, k + 1, j);
      MembersRun(t, tr, i, k, stack);
      SettledStep(tr[k], stack, COMMA);
      assert Reads(t, tr, k);
      MemberRuns(t, tr, k + 1, j, stack);
    }
  }

  /** Completeness. */
  lemma JsonIsAccepted(t: Text)
    requires IsJson(t)
    ensures Accepting(Run(Start, t))
  {
    var tr := TraceOf(t);
    ElementRuns(t, tr, 0, |t|, []);
  }
}
