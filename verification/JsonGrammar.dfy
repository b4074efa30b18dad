/** The JSON grammar of RFC 8259, sections 2 to 7. `XAt(t, i, j)` says that the
    code units of `t` from `i` up to, but not including, `j` are an X. */
module JsonGrammar {

  /** JavaScript strings are sequences of UTF-16 code units. */
  newtype CodeUnit = x: int | 0 <= x < 0x1_0000

  type Text = seq<CodeUnit>

  const QUOTE: CodeUnit := 0x22
  const BACKSLASH: CodeUnit := 0x5C
  const COMMA: CodeUnit := 0x2C
  const COLON: CodeUnit := 0x3A
  const MINUS: CodeUnit := 0x2D
  const PLUS: CodeUnit := 0x2B
  const POINT: CodeUnit := 0x2E
  const ZERO: CodeUnit := 0x30
  const OPEN_ARRAY: CodeUnit := 0x5B
  const CLOSE_ARRAY: CodeUnit := 0x5D
  const OPEN_OBJECT: CodeUnit := 0x7B
  const CLOSE_OBJECT: CodeUnit := 0x7D
  const LOWER_U: CodeUnit := 0x75

  // Section 2: whitespace

  predicate IsWhitespace(c: CodeUnit) {
    c == 0x20 || c == 0x09 || c == 0x0A || c == 0x0D
  }

  ghost predicate BlankAt(t: Text, i: nat, j: nat) {
    i <= j <= |t| && forall k :: i <= k < j ==> IsWhitespace(t[k])
  }

  // Section 3: values

  datatype Literal = False | Null | True

  function LiteralText(literal: Literal): (s: Text)
    ensures |s| >= 4
  {
    match literal
    case False => [0x66, 0x61, 0x6C, 0x73, 0x65]
    case Null => [0x6E, 0x75, 0x6C, 0x6C]
    case True => [0x74, 0x72, 0x75, 0x65]
  }

  ghost predicate LiteralAt(t: Text, i: nat, j: nat, literal: Literal) {
    var s := LiteralText(literal);
    i + |s| == j <= |t| && forall k :: 0 <= k < |s| ==> t[i + k] == s[k]
  }

  ghost predicate ValueAt(t: Text, i: nat, j: nat)
    decreases j - i, 1
  {
    && i < j <= |t|
    && ((exists literal :: LiteralAt(t, i, j, literal)) || NumberAt(t, i, j) || StringAt(t, i, j)
        || ArrayAt(t, i, j) || ObjectAt(t, i, j))
  }

  /** A value with the whitespace that a structural character allows around it. */
  ghost predicate ElementAt(t: Text, i: nat, j: nat)
    decreases j - i, 2
  {
    exists a: nat, b: nat :: i <= a <= b <= j && BlankAt(t, i, a) && ValueAt(t, a, b) && BlankAt(t, b, j)
  }

  // Section 4: objects

  ghost predicate HeadAt(t: Text, i: nat, j: nat) {
    exists a: nat, b: nat :: i <= a <= b <= j && BlankAt(t, i, a) && StringAt(t, a, b) && BlankAt(t, b, j)
  }

  ghost predicate MemberAt(t: Text, i: nat, j: nat)
    decreases j - i, 0
  {
    exists k: nat :: i <= k < j <= |t| && HeadAt(t, i, k) && t[k] == COLON && ElementAt(t, k + 1, j)
  }

  ghost predicate MembersAt(t: Text, i: nat, j: nat)
    decreases j - i, 1
  {
    || MemberAt(t, i, j)
    || exists k: nat :: i <= k < j <= |t| && MembersAt(t, i, k) && t[k] == COMMA && MemberAt(t, k + 1, j)
  }

  ghost predicate ObjectAt(t: Text, i: nat, j: nat)
    requires i < j <= |t|
    decreases j - i, 0
  {
    && i + 2 <= j && t[i] == OPEN_OBJECT && t[j - 1] == CLOSE_OBJECT
    && (BlankAt(t, i + 1, j - 1) || MembersAt(t, i + 1, j - 1))
  }

  // Section 5: arrays

  ghost predicate ElementsAt(t: Text, i: nat, j: nat)
    decreases j - i, 3
  {
    || ElementAt(t, i, j)
    || exists k: nat :: i <= k < j <= |t| && ElementsAt(t, i, k) && t[k] == COMMA && ElementAt(t, k + 1, j)
  }

  ghost predicate ArrayAt(t: Text, i: nat, j: nat)
    requires i < j <= |t|
    decreases j - i, 0
  {
    && i + 2 <= j && t[i] == OPEN_ARRAY && t[j - 1] == CLOSE_ARRAY
    && (BlankAt(t, i + 1, j - 1) || ElementsAt(t, i + 1, j - 1))
  }

  // Section 6: numbers

  predicate IsDigit(c: CodeUnit) {
    0x30 <= c <= 0x39
  }

  predicate IsExponentMark(c: CodeUnit) {
    c == 0x65 || c == 0x45
  }

  ghost predicate DigitsAt(t: Text, i: nat, j: nat) {
    i < j <= |t| && forall k :: i <= k < j ==> IsDigit(t[k])
  }

  ghost predicate MinusAt(t: Text, i: nat, j: nat) {
    i == j <= |t| || (i + 1 == j <= |t| && t[i] == MINUS)
  }

  ghost predicate IntegerAt(t: Text, i: nat, j: nat) {
    DigitsAt(t, i, j) && (t[i] == ZERO ==> j == i + 1)
  }

  ghost predicate FractionAt(t: Text, i: nat, j: nat) {
    i == j <= |t| || (i < j <= |t| && t[i] == POINT && DigitsAt(t, i + 1, j))
  }

  ghost predicate ExponentAt(t: Text, i: nat, j: nat) {
    || i == j <= |t|
    || (&& i + 1 < j <= |t| && IsExponentMark(t[i])
        && (DigitsAt(t, i + 1, j) || ((t[i + 1] == PLUS || t[i + 1] == MINUS) && DigitsAt(t, i + 2, j))))
  }

  ghost predicate NumberAt(t: Text, i: nat, j: nat) {
    exists a: nat, b: nat, c: nat :: MinusAt(t, i, a) && IntegerAt(t, a, b) && FractionAt(t, b, c) && ExponentAt(t, c, j)
  }

  // Section 7: strings

  predicate IsHex(c: CodeUnit) {
    0x30 <= c <= 0x39 || 0x41 <= c <= 0x46 || 0x61 <= c <= 0x66
  }

  /** What may follow a backslash, other than `u`. */
  predicate IsEscape(c: CodeUnit) {
    c == QUOTE || c == BACKSLASH || c == 0x2F || c == 0x62 || c == 0x66 || c == 0x6E || c == 0x72 || c == 0x74
  }

  predicate IsUnescaped(c: CodeUnit) {
    c >= 0x20 && c != QUOTE && c != BACKSLASH
  }

  ghost predicate UnicodeAt(t: Text, i: nat, j: nat) {
    i + 6 == j <= |t| && t[i] == BACKSLASH && t[i + 1] == LOWER_U && forall k :: i + 2 <= k < j ==> IsHex(t[k])
  }

  ghost predicate CharAt(t: Text, i: nat, j: nat) {
    || (i + 1 == j <= |t| && IsUnescaped(t[i]))
    || (i + 2 == j <= |t| && t[i] == BACKSLASH && IsEscape(t[i + 1]))
    || UnicodeAt(t, i, j)
  }

  ghost predicate CharsAt(t: Text, i: nat, j: nat)
    decreases j - i
  {
    i == j || exists k: nat :: i <= k < j && CharsAt(t, i, k) && CharAt(t, k, j)
  }

  ghost predicate StringAt(t: Text, i: nat, j: nat) {
    i + 2 <= j <= |t| && t[i] == QUOTE && CharsAt(t, i + 1, j - 1) && t[j - 1] == QUOTE
  }

  /** JSON-text = ws value ws */
  ghost predicate IsJson(t: Text) {
    ElementAt(t, 0, |t|)
  }

  /** Unfinished now, but some continuation finishes it. */
  ghost predicate IsIncompletePrefix(t: Text) {
    !IsJson(t) && exists suffix: Text :: IsJson(t + suffix)
  }
}
