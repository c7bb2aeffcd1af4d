/**
 * What one iteration of the driver loop does with each kind of input, stated
 * directly on the character under the cursor and the ones after it.
 */
module Properties {
  import opened Wrappers
  import opened Tokens
  import opened Chars
  import opened Scanning
  import opened Determinacy

  // ----- words -----

  /**
   * A letter other than `_` starts a word over the longest run of letters and
   * Unicode digits; reserved words get their own token, words starting with
   * `__` are keywords, and everything else is an identifier.
   */
  lemma {:induction false} LetterStartsWord(cc: CharClasses, s: string, p: nat)
    requires p < |s| && IsLetter(cc, s[p]) && s[p] != '_'
    ensures p < IdentEnd(cc, s, p)
    ensures Dispatch(cc, s, p) == Emit(ClassifyWord(s[p..IdentEnd(cc, s, p)]), IdentEnd(cc, s, p))
  {
    FixedTokenStart(s, p);
    assert !StartsNumber(s, p);
    DispatchOtherLetter(cc, s, p);
    assert IdentEnd(cc, s, p) == IdentEnd(cc, s, p + 1);
  }

  /** `_` starts a word too, unless it begins `_|_` or `_#` followed by a letter. */
  lemma {:induction false} UnderscoreStartsWord(cc: CharClasses, s: string, p: nat)
    requires p < |s| && s[p] == '_'
    requires !(Verify(s, p + 1, '|') && Verify(s, p + 2, '_'))
    requires !(Verify(s, p + 1, '#') && VerifyPredicate(s, p + 2, x => IsLetter(cc, x)))
    ensures p < IdentEnd(cc, s, p)
    ensures Dispatch(cc, s, p) == Emit(ClassifyWord(s[p..IdentEnd(cc, s, p)]), IdentEnd(cc, s, p))
  {
    FixedTokenNotAt(s, p);
    assert !StartsNumber(s, p);
    DispatchOtherLetter(cc, s, p);
    assert IdentEnd(cc, s, p) == IdentEnd(cc, s, p + 1);
  }

  /** `#` before a letter starts a word that takes the `#` with it. */
  lemma {:induction false} HashStartsWord(cc: CharClasses, s: string, p: nat)
    requires p + 1 < |s| && s[p] == '#' && IsLetter(cc, s[p + 1])
    ensures p + 1 < IdentEnd(cc, s, p + 1)
    ensures Dispatch(cc, s, p) == Emit(ClassifyWord(s[p..IdentEnd(cc, s, p + 1)]), IdentEnd(cc, s, p + 1))
  {
    FixedTokenNotAt(s, p);
    assert !StartsNumber(s, p);
    DispatchOtherHash(cc, s, p);
    assert IdentEnd(cc, s, p + 1) == IdentEnd(cc, s, p + 2);
  }

  /** `_#` before a letter starts a word that takes the `_#` with it. */
  lemma {:induction false} UnderscoreHashStartsWord(cc: CharClasses, s: string, p: nat)
    requires p + 2 < |s| && s[p] == '_' && s[p + 1] == '#' && IsLetter(cc, s[p + 2])
    ensures p + 2 < IdentEnd(cc, s, p + 2)
    ensures Dispatch(cc, s, p) == Emit(ClassifyWord(s[p..IdentEnd(cc, s, p + 2)]), IdentEnd(cc, s, p + 2))
  {
    FixedTokenNotAt(s, p);
    assert !StartsNumber(s, p);
    DispatchOtherUnderscoreHash(cc, s, p);
    assert IdentEnd(cc, s, p + 2) == IdentEnd(cc, s, p + 3);
  }

  // ----- literals with a radix prefix -----

  /** The character after `0` that selects each radix. */
  predicate RadixMarker(radix: Radix, c: char) {
    match radix
    case Binary => c == 'b'
    case Octal => c == 'o'
    case Hex => c == 'x' || c == 'X'
  }

  /**
   * `0b`, `0o`, `0x` and `0X` start a literal that keeps its prefix and its
   * separators verbatim and runs over digits of its radix, a `_` being taken
   * only before such a digit. No digit at all is needed.
   */
  lemma {:induction false} RadixLiteral(cc: CharClasses, s: string, p: nat, radix: Radix)
    requires p + 1 < |s| && s[p] == '0' && RadixMarker(radix, s[p + 1])
    ensures var e := GroupedEnd(s, p + 2, RadixDigit(radix));
      && Dispatch(cc, s, p) == Emit(IntLit(RadixLit(radix, s[p..e])), e)
      && DigitGroups(s[p + 2..e], RadixDigit(radix)) && GroupStop(s, e, RadixDigit(radix))
  {
    GroupedEndDigits(s, p + 2, RadixDigit(radix));
    assert StartsNumber(s, p);
    match radix {
      case Binary => DispatchNumberBinary(s, p);
      case Octal => DispatchNumberOctal(s, p);
      case Hex => DispatchNumberHex(s, p);
    }
  }

  // ----- decimal literals -----

  /**
   * A literal starting with a decimal digit (and no radix prefix) first takes
   * the integer digits. An integer that is not followed by a point, an
   * exponent marker or a multiplier is rejected exactly when it starts with
   * `0` and is not `0` itself; otherwise it is a decimal literal.
   */
  lemma {:induction false} LeadingZeroRule(cc: CharClasses, s: string, p: nat)
    requires p < |s| && IsDigit(s[p])
    requires !(s[p] == '0' && (Verify(s, p + 1, 'b') || Verify(s, p + 1, 'o') || Verify(s, p + 1, 'x') || Verify(s, p + 1, 'X')))
    ensures var j := GroupedEnd(s, p + 1, IsDigit);
      var integer := !Verify(s, j, '.') && !Verify(s, j, 'e') && !Verify(s, j, 'E') && !VerifyPredicate(s, j, IsMultiplier);
      && (Dispatch(cc, s, p).Fail? <==> integer && !LeadingZeroAllowed(s[p..j]))
      && (integer && !LeadingZeroAllowed(s[p..j]) ==> Dispatch(cc, s, p) == Fail(LeadingZero(s[p..j], p, j)))
      && (integer && LeadingZeroAllowed(s[p..j]) ==> Dispatch(cc, s, p) == Emit(IntLit(DecimalLit(s[p..j])), j))
  {
    var j := GroupedEnd(s, p + 1, IsDigit);
    assert DigitsEndAt(s, p + 1, j);
    assert StartsNumber(s, p);
    DispatchNumberDecimal(s, p);
    if Verify(s, j, '.') {
      ScanDecimalPoint(s, p, p + 1, j);
    } else if Verify(s, j, 'e') || Verify(s, j, 'E') {
      ScanDecimalExponent(s, p, p + 1, j);
    } else if VerifyPredicate(s, j, IsMultiplier) {
      ScanDecimalSi(s, p, p + 1, j);
    } else {
      ScanDecimalInteger(s, p, p + 1, j);
      assert s[p..j][0] == s[p];
    }
  }

  /** A multiplier right after the integer digits ends the literal as an SI literal, with an `i` after it joining the unit. */
  lemma {:induction false} IntegerSiSuffix(cc: CharClasses, s: string, p: nat)
    requires p < |s| && IsDigit(s[p])
    requires !(s[p] == '0' && (Verify(s, p + 1, 'b') || Verify(s, p + 1, 'o') || Verify(s, p + 1, 'x') || Verify(s, p + 1, 'X')))
    requires var j := GroupedEnd(s, p + 1, IsDigit);
      !Verify(s, j, '.') && !Verify(s, j, 'e') && !Verify(s, j, 'E') && VerifyPredicate(s, j, IsMultiplier)
    ensures var j := GroupedEnd(s, p + 1, IsDigit);
      var e := if Verify(s, j + 1, 'i') then j + 2 else j + 1;
      e <= |s| && Dispatch(cc, s, p) == Emit(IntLit(SiLit(s[p..j], s[j..e])), e)
  {
    var j := GroupedEnd(s, p + 1, IsDigit);
    assert DigitsEndAt(s, p + 1, j);
    assert StartsNumber(s, p);
    DispatchNumberDecimal(s, p);
    ScanDecimalSi(s, p, p + 1, j);
    SiShape(s, p, j);
  }

  /** The SI literal whose multiplier is at `j`, in terms of the text. */
  lemma {:induction false} SiShape(s: string, p: nat, j: nat)
    requires p < j < |s| && IsMultiplier(s[j])
    ensures var e := if Verify(s, j + 1, 'i') then j + 2 else j + 1;
      e <= |s| && ScanSi(s, p, j + 1) == Scanned(IntLit(SiLit(s[p..j], s[j..e])), e)
  {
  }

  // ----- operators and punctuation -----

  /** When the next character completes a two-character operator, the two-character operator is taken. */
  lemma {:induction false} TwoCharOperatorWins(cc: CharClasses, s: string, p: nat)
    requires p + 1 < |s| && TwoCharOperator(s[p], s[p + 1]).Some?
    ensures Dispatch(cc, s, p) == Emit(TwoCharOperator(s[p], s[p + 1]).value, p + 2)
  {
    OperatorFixed(s, p);
    DispatchOtherFixed(cc, s, p);
  }

  /** Otherwise the operator is its first character alone. */
  lemma {:induction false} OneCharOperatorAlone(cc: CharClasses, s: string, p: nat)
    requires p < |s| && OneCharOperator(s[p]).Some?
    requires !(p + 1 < |s| && TwoCharOperator(s[p], s[p + 1]).Some?)
    ensures Dispatch(cc, s, p) == Emit(OneCharOperator(s[p]).value, p + 1)
  {
    OperatorFixed(s, p);
    DispatchOtherFixed(cc, s, p);
  }

  lemma {:induction false} PunctuationAlone(cc: CharClasses, s: string, p: nat)
    requires p < |s| && Punctuation(s[p]).Some?
    ensures Dispatch(cc, s, p) == Emit(Punctuation(s[p]).value, p + 1)
  {
    assert FixedToken(s, p) == Some(Scanned(Punctuation(s[p]).value, p + 1));
    DispatchOtherFixed(cc, s, p);
    assert !StartsNumber(s, p);
  }

  /** Three points are one ellipsis. */
  lemma {:induction false} EllipsisWins(cc: CharClasses, s: string, p: nat)
    requires p + 2 < |s| && s[p] == '.' && s[p + 1] == '.' && s[p + 2] == '.'
    ensures Dispatch(cc, s, p) == Emit(Ellipsis, p + 3)
  {
    assert !StartsNumber(s, p);
  }

  /** A point is a fraction before a digit, and a dot otherwise unless three points stand together. */
  lemma {:induction false} DotAlone(cc: CharClasses, s: string, p: nat)
    requires p < |s| && s[p] == '.' && !VerifyPredicate(s, p + 1, IsDigit)
    requires !(Verify(s, p + 1, '.') && Verify(s, p + 2, '.'))
    ensures Dispatch(cc, s, p) == Emit(Dot, p + 1)
  {
    assert !StartsNumber(s, p);
  }

  /** `_|_` is bottom, taken before `_` could start a word. */
  lemma {:induction false} BottomWins(cc: CharClasses, s: string, p: nat)
    requires p + 2 < |s| && s[p] == '_' && s[p + 1] == '|' && s[p + 2] == '_'
    ensures Dispatch(cc, s, p) == Emit(Bottom, p + 3)
  {
    assert Punctuation(s[p]).None? && OneCharOperator(s[p]).None?;
    assert FixedToken(s, p) == Some(Scanned(Bottom, p + 3));
    DispatchOtherFixed(cc, s, p);
    assert !StartsNumber(s, p);
  }

  // ----- the rest -----

  /** Whitespace is skipped and any other character that starts no token aborts the run. */
  lemma {:induction false} NoTokenStart(cc: CharClasses, s: string, p: nat)
    requires p < |s| && !StartsNumber(s, p) && FixedToken(s, p).None? && !IsLetter(cc, s[p])
    requires !(s[p] == '#' && VerifyPredicate(s, p + 1, x => IsLetter(cc, x)))
    ensures IsWhitespace(cc, s[p]) ==> Dispatch(cc, s, p) == Skip(p + 1)
    ensures !IsWhitespace(cc, s[p]) ==> Dispatch(cc, s, p) == Fail(UnexpectedChar(s[p], p))
  {
  }
}

/**
 * A token's own text, lexed on its own, gives back that token: for words,
 * integer literals and the operator and punctuation tokens.
 */
module Idempotence {
  import opened Wrappers
  import opened Tokens
  import opened Chars
  import opened Scanning
  import opened Determinacy
  import opened Properties
  import opened Examples

  /** A text that the first iteration of the driver loop consumes whole lexes to that one token. */
  lemma {:induction false} SingleToken(cc: CharClasses, w: string, t: Token)
    requires |w| > 0 && Dispatch(cc, w, 0) == Emit(t, |w|)
    ensures Lex(cc, w) == Ok([t])
  {
    PrependStep([], cc, w, 0);
    PrependNothing(LexFrom(cc, w, 0));
    assert LexFrom(cc, w, |w|) == Ok([]);
    assert [] + [t] == [t] && [t] + [] == [t];
  }

  /** A run of letters and Unicode digits that starts with a letter lexes to its word token. */
  lemma {:induction false} WordAlone(cc: CharClasses, w: string)
    requires |w| > 0 && IsLetter(cc, w[0])
    requires forall k | 0 <= k < |w| :: IsIdentChar(cc, w[k])
    ensures Lex(cc, w) == Ok([ClassifyWord(w)])
  {
    IdentEndUnique(cc, w, 0, |w|);
    if w[0] == '_' {
      UnderscoreStartsWord(cc, w, 0);
    } else {
      LetterStartsWord(cc, w, 0);
    }
    assert w[0..|w|] == w;
    SingleToken(cc, w, ClassifyWord(w));
  }

  /** Behind any prefix, a run of identifier characters reaches the end of the text. */
  lemma {:induction false} WordTailEnd(cc: CharClasses, prefix: string, v: string)
    requires forall k | 0 <= k < |v| :: IsIdentChar(cc, v[k])
    ensures IdentEnd(cc, prefix + v, |prefix|) == |prefix + v|
  {
    var w := prefix + v;
    forall k | |prefix| <= k < |w|
      ensures IsIdentChar(cc, w[k])
    {
      assert w[k] == v[k - |prefix|];
    }
    IdentEndUnique(cc, w, |prefix|, |w|);
  }

  lemma {:induction false} HashWordAlone(cc: CharClasses, v: string)
    requires |v| > 0 && IsLetter(cc, v[0])
    requires forall k | 0 <= k < |v| :: IsIdentChar(cc, v[k])
    ensures Lex(cc, "#" + v) == Ok([Identifier("#" + v)])
  {
    var w := "#" + v;
    WordTailEnd(cc, "#", v);
    assert w[1] == v[0];
    HashStartsWord(cc, w, 0);
    assert w[0..|w|] == w;
    HashWordIdentifier(w);
    SingleToken(cc, w, Identifier(w));
  }

  lemma {:induction false} UnderscoreHashWordAlone(cc: CharClasses, v: string)
    requires |v| > 0 && IsLetter(cc, v[0])
    requires forall k | 0 <= k < |v| :: IsIdentChar(cc, v[k])
    ensures Lex(cc, "_#" + v) == Ok([Identifier("_#" + v)])
  {
    var w := "_#" + v;
    WordTailEnd(cc, "_#", v);
    assert w[2] == v[0];
    UnderscoreHashStartsWord(cc, w, 0);
    assert w[0..|w|] == w;
    HashWordIdentifier(w);
    SingleToken(cc, w, Identifier(w));
  }

  /** A word behind `#` or `_#` lexes to one identifier that keeps the prefix. */
  lemma {:induction false} PrefixedWordAlone(cc: CharClasses, prefix: string, v: string)
    requires prefix == "#" || prefix == "_#"
    requires |v| > 0 && IsLetter(cc, v[0])
    requires forall k | 0 <= k < |v| :: IsIdentChar(cc, v[k])
    ensures Lex(cc, prefix + v) == Ok([Identifier(prefix + v)])
  {
    if prefix == "#" {
      HashWordAlone(cc, v);
    } else {
      UnderscoreHashWordAlone(cc, v);
    }
  }

  /**
   * A run of decimal digits with `_` separators lexes to one decimal literal,
   * or is rejected as a whole when it has a leading zero.
   */
  lemma {:induction false} DecimalAlone(cc: CharClasses, w: string)
    requires |w| > 0 && IsDigit(w[0]) && DigitGroups(w, IsDigit)
    ensures Lex(cc, w) == if LeadingZeroAllowed(w) then Ok([IntLit(DecimalLit(w))]) else Err(LeadingZero(w, 0, |w|))
  {
    DigitGroupsTail(w, IsDigit, 1);
    assert w[1..] == w[1..|w|];
    GroupedEndUnique(w, 1, IsDigit, |w|);
    if |w| > 1 {
      assert IsDigit(w[1]) || w[1] == '_';
    }
    LeadingZeroRule(cc, w, 0);
    assert w[0..|w|] == w;
    if LeadingZeroAllowed(w) {
      SingleToken(cc, w, IntLit(DecimalLit(w)));
    }
  }

  /** A radix prefix and digits of that radix with `_` separators lex to one literal. */
  lemma {:induction false} RadixAlone(cc: CharClasses, w: string, radix: Radix)
    requires |w| >= 2 && w[0] == '0' && RadixMarker(radix, w[1])
    requires DigitGroups(w[2..], RadixDigit(radix))
    ensures Lex(cc, w) == Ok([IntLit(RadixLit(radix, w))])
  {
    assert w[2..] == w[2..|w|];
    GroupedEndUnique(w, 2, RadixDigit(radix), |w|);
    RadixLiteral(cc, w, 0, radix);
    assert w[0..|w|] == w;
    SingleToken(cc, w, IntLit(RadixLit(radix, w)));
  }

  /** The integer digits of `m` end where the multiplier or exponent marker `x` begins. */
  lemma {:induction false} MantissaEnd(m: string, x: string)
    requires |m| > 0 && IsDigit(m[0]) && DigitGroups(m, IsDigit)
    requires |x| > 0 && (IsMultiplier(x[0]) || x[0] == 'e' || x[0] == 'E')
    ensures DigitsEndAt(m + x, 1, |m|)
    ensures !RadixPrefix(m + x, 0)
  {
    var w := m + x;
    DigitGroupsTail(m, IsDigit, 1);
    assert w[1..|m|] == m[1..];
    assert w[|m|] == x[0];
    GroupedEndUnique(w, 1, IsDigit, |m|);
    GroupedEndUnique(w, |m|, IsDigit, |m|);
    if |m| > 1 {
      assert IsDigit(w[1]) || w[1] == '_';
    } else {
      assert w[1] == x[0];
    }
  }

  /** The exponent written at `n` to the end of the text is a digit run behind its optional sign. */
  lemma {:induction false} ExponentDigitsRun(w: string, n: nat)
    requires n < |w| && ExponentShape(w[n..])
    ensures n + 1 <= ExponentDigitsStart(w, n + 1) <= |w|
    ensures Run(w, ExponentDigitsStart(w, n + 1), |w|, IsDigit)
  {
    var x := w[n..];
    var j := ExponentDigitsStart(w, n + 1);
    var ds := w[j..];
    if |x| >= 2 && (x[1] == '+' || x[1] == '-') {
      assert x[1] == w[n + 1];
      assert ds == x[2..];
    } else {
      assert |x| >= 2 ==> x[1] == w[n + 1];
      assert ds == x[1..];
    }
    assert DigitGroups(ds, IsDigit);
    forall k | j <= k < |w|
      ensures IsDigit(w[k]) || (w[k] == '_' && k + 1 < |w| && IsDigit(w[k + 1]))
    {
      assert w[k] == ds[k - j];
      assert k + 1 < |w| ==> w[k + 1] == ds[k + 1 - j];
    }
  }

  /** Decimal digits with `_` separators and one multiplier, possibly followed by `i`, lex to one SI literal. */
  lemma {:induction false} SiAlone(cc: CharClasses, m: string, u: string)
    requires |m| > 0 && IsDigit(m[0]) && DigitGroups(m, IsDigit)
    requires (|u| == 1 || (|u| == 2 && u[1] == 'i')) && IsMultiplier(u[0])
    ensures Lex(cc, m + u) == Ok([IntLit(SiLit(m, u))])
  {
    var w := m + u;
    var n := |m|;
    MantissaEnd(m, u);
    assert w[n] == u[0];
    assert |u| == 2 ==> w[n + 1] == 'i';
    IntegerSiSuffix(cc, w, 0);
    assert w[0..n] == m && w[n..|w|] == u;
    SingleToken(cc, w, IntLit(SiLit(m, u)));
  }

  /** Decimal digits with `_` separators and an exponent lex to one float literal, leading zero or not. */
  lemma {:induction false} FloatAlone(cc: CharClasses, m: string, x: string)
    requires |m| > 0 && IsDigit(m[0]) && DigitGroups(m, IsDigit)
    requires ExponentShape(x)
    ensures Lex(cc, m + x) == Ok([FloatLit(WithExp(m, x))])
  {
    var w := m + x;
    var n := |m|;
    MantissaEnd(m, x);
    assert w[n] == x[0];
    assert w[n..] == x;
    ExponentDispatch(cc, w, n);
    assert w[0..n] == m && w[n..|w|] == x;
    SingleToken(cc, w, FloatLit(WithExp(m, x)));
  }

  /** Integer digits up to `n` and an exponent from `n` to the end of the text form one float literal. */
  lemma {:induction false} ExponentDispatch(cc: CharClasses, w: string, n: nat)
    requires 0 < n < |w| && IsDigit(w[0]) && DigitsEndAt(w, 1, n) && !RadixPrefix(w, 0) && ExponentShape(w[n..])
    ensures Dispatch(cc, w, 0) == Emit(FloatLit(WithExp(w[0..n], w[n..|w|])), |w|)
  {
    assert w[n..][0] == w[n];
    ScanDecimalExponent(w, 0, 1, n);
    ExponentDigitsRun(w, n);
    ExponentEnd(w, 0, n, |w|);
    DecimalDispatch(cc, w, 0);
  }

  /** A literal with a fraction and no exponent lexes to one float literal. */
  lemma {:induction false} PointFloatAlone(cc: CharClasses, w: string, i: nat)
    requires PointStart(w, 0, i) && FractionDigits(w, i, |w|)
    ensures Lex(cc, w) == Ok([FloatLit(WithoutExp(w))])
  {
    assert w[0..|w|] == w;
    PointStopStep(cc, w, 0, i, |w|, w, []);
    assert [FloatLit(WithoutExp(w))] + [] == [FloatLit(WithoutExp(w))];
  }

  /** A literal with a fraction that ends in a digit and a multiplier lexes to one SI literal. */
  lemma {:induction false} PointSiAlone(cc: CharClasses, w: string, i: nat, m: nat)
    requires PointStart(w, 0, i) && i < m < |w| && FractionDigits(w, i, m) && IsDigit(w[m - 1]) && IsMultiplier(w[m])
    requires |w| == m + 1 || (|w| == m + 2 && w[m + 1] == 'i')
    ensures Lex(cc, w) == Ok([IntLit(SiLit(w[..m], w[m..]))])
  {
    assert w[0..m] == w[..m] && w[m..|w|] == w[m..];
    PointSiStep(cc, w, 0, i, m, |w|, w[..m], w[m..], []);
    assert [IntLit(SiLit(w[..m], w[m..]))] + [] == [IntLit(SiLit(w[..m], w[m..]))];
  }

  /** A literal with a fraction and an exponent lexes to one float literal. */
  lemma {:induction false} PointExpAlone(cc: CharClasses, w: string, i: nat, m: nat)
    requires PointStart(w, 0, i) && i <= m < |w| && FractionDigits(w, i, m) && ExponentShape(w[m..])
    ensures Lex(cc, w) == Ok([FloatLit(WithExp(w[..m], w[m..]))])
  {
    ExponentDigitsRun(w, m);
    assert w[0..m] == w[..m] && w[m..|w|] == w[m..];
    PointExpStep(cc, w, 0, i, m, |w|, w[..m], w[m..], []);
    assert [FloatLit(WithExp(w[..m], w[m..]))] + [] == [FloatLit(WithExp(w[..m], w[m..]))];
  }

  /** The punctuation tokens, each spelt with one symbol that no longer token starts with. */
  predicate IsPunctuationToken(t: Token) {
    || t.Add? || t.Sub? || t.Mul? || t.Div? || t.Colon? || t.Question? || t.Comma?
    || t.LParen? || t.RParen? || t.LBrace? || t.RBrace? || t.LBracket? || t.RBracket?
  }

  /** The operators spelt with one symbol that a longer operator may start with. */
  predicate IsShortOperatorToken(t: Token) {
    t.And? || t.Or? || t.Assign? || t.Exlamation? || t.Less? || t.Greater?
  }

  /** The operators spelt with two symbols. */
  predicate IsLongOperatorToken(t: Token) {
    || t.BolAnd? || t.BolOr? || t.Eq? || t.NotEq? || t.PatternEq? || t.PatternNotEq?
    || t.LessEq? || t.GreaterEq?
  }

  /** The tokens spelt with a fixed sequence of symbols. */
  predicate IsFixedToken(t: Token) {
    || IsPunctuationToken(t) || IsShortOperatorToken(t) || IsLongOperatorToken(t)
    || t.Bottom? || t.Ellipsis? || t.Dot?
  }

  lemma {:induction false} PunctuationWhole(cc: CharClasses, w: string)
    requires |w| == 1 && Punctuation(w[0]).Some?
    ensures Lex(cc, w) == Ok([Punctuation(w[0]).value])
  {
    PunctuationAlone(cc, w, 0);
    SingleToken(cc, w, Punctuation(w[0]).value);
  }

  /** A punctuation token is spelt with the one character that scans to it. */
  lemma {:induction false} PunctuationTokenSpelling(t: Token)
    requires IsPunctuationToken(t)
    ensures Scannable(t) && |Spelling(t)| == 1 && Punctuation(Spelling(t)[0]) == Some(t)
  {
    if t.Add? || t.Sub? || t.Mul? || t.Div? {
      ArithmeticTokenSpelling(t);
    } else if t.Colon? || t.Question? || t.Comma? {
      SeparatorTokenSpelling(t);
    } else if t.LParen? || t.RParen? || t.LBrace? {
      ParenTokenSpelling(t);
    } else {
      BracketTokenSpelling(t);
    }
  }

  lemma {:induction false} ArithmeticTokenSpelling(t: Token)
    requires t.Add? || t.Sub? || t.Mul? || t.Div?
    ensures Scannable(t) && |Spelling(t)| == 1 && Punctuation(Spelling(t)[0]) == Some(t)
  {
    if t.Add? {
      assert Spelling(t) == ['+'] && Punctuation('+') == Some(Add);
    } else if t.Sub? {
      assert Spelling(t) == ['-'] && Punctuation('-') == Some(Sub);
    } else if t.Mul? {
      assert Spelling(t) == ['*'] && Punctuation('*') == Some(Mul);
    } else {
      assert Spelling(t) == ['/'] && Punctuation('/') == Some(Div);
    }
  }

  lemma {:induction false} SeparatorTokenSpelling(t: Token)
    requires t.Colon? || t.Question? || t.Comma?
    ensures Scannable(t) && |Spelling(t)| == 1 && Punctuation(Spelling(t)[0]) == Some(t)
  {
    if t.Colon? {
      assert Spelling(t) == [':'] && Punctuation(':') == Some(Colon);
    } else if t.Question? {
      assert Spelling(t) == ['?'] && Punctuation('?') == Some(Question);
    } else {
      assert Spelling(t) == [','] && Punctuation(',') == Some(Comma);
    }
  }

  lemma {:induction false} ParenTokenSpelling(t: Token)
    requires t.LParen? || t.RParen? || t.LBrace?
    ensures Scannable(t) && |Spelling(t)| == 1 && Punctuation(Spelling(t)[0]) == Some(t)
  {
    if t.LParen? {
      assert Spelling(t) == ['('] && Punctuation('(') == Some(LParen);
    } else if t.RParen? {
      assert Spelling(t) == [')'] && Punctuation(')') == Some(RParen);
    } else {
      assert Spelling(t) == [OpenBrace] && Punctuation(OpenBrace) == Some(LBrace);
    }
  }

  lemma {:induction false} BracketTokenSpelling(t: Token)
    requires t.RBrace? || t.LBracket? || t.RBracket?
    ensures Scannable(t) && |Spelling(t)| == 1 && Punctuation(Spelling(t)[0]) == Some(t)
  {
    if t.RBrace? {
      assert Spelling(t) == [CloseBrace] && Punctuation(CloseBrace) == Some(RBrace);
    } else if t.LBracket? {
      assert Spelling(t) == ['['] && Punctuation('[') == Some(LBracket);
    } else {
      assert Spelling(t) == [']'] && Punctuation(']') == Some(RBracket);
    }
  }

  lemma {:induction false} PunctuationTokenAlone(cc: CharClasses, t: Token)
    requires IsPunctuationToken(t)
    ensures Scannable(t) && Lex(cc, Spelling(t)) == Ok([t])
  {
    PunctuationTokenSpelling(t);
    PunctuationWhole(cc, Spelling(t));
  }

  /** A one-character operator is spelt with the character that scans to it. */
  lemma {:induction false} ShortOperatorSpelling(t: Token)
    requires IsShortOperatorToken(t)
    ensures Scannable(t) && |Spelling(t)| == 1 && OneCharOperator(Spelling(t)[0]) == Some(t)
  {
  }

  lemma {:induction false} ShortOperatorAlone(cc: CharClasses, t: Token)
    requires IsShortOperatorToken(t)
    ensures Scannable(t) && Lex(cc, Spelling(t)) == Ok([t])
  {
    var w := Spelling(t);
    ShortOperatorSpelling(t);
    OneCharOperatorAlone(cc, w, 0);
    SingleToken(cc, w, t);
  }

  /** A two-character operator is spelt with the pair of characters that scans to it. */
  lemma {:induction false} LongOperatorSpelling(t: Token)
    requires IsLongOperatorToken(t)
    ensures Scannable(t) && |Spelling(t)| == 2 && TwoCharOperator(Spelling(t)[0], Spelling(t)[1]) == Some(t)
  {
  }

  lemma {:induction false} LongOperatorAlone(cc: CharClasses, t: Token)
    requires IsLongOperatorToken(t)
    ensures Scannable(t) && Lex(cc, Spelling(t)) == Ok([t])
  {
    var w := Spelling(t);
    LongOperatorSpelling(t);
    TwoCharOperatorWins(cc, w, 0);
    SingleToken(cc, w, t);
  }

  /** Every operator and punctuation token, spelt on its own, lexes back to itself. */
  lemma {:induction false} FixedAlone(cc: CharClasses, t: Token)
    requires IsFixedToken(t)
    ensures Scannable(t) && Lex(cc, Spelling(t)) == Ok([t])
  {
    var w := Spelling(t);
    if IsPunctuationToken(t) {
      PunctuationTokenAlone(cc, t);
    } else if IsShortOperatorToken(t) {
      ShortOperatorAlone(cc, t);
    } else if IsLongOperatorToken(t) {
      LongOperatorAlone(cc, t);
    } else if t.Bottom? {
      BottomWins(cc, w, 0);
      SingleToken(cc, w, t);
    } else if t.Ellipsis? {
      EllipsisWins(cc, w, 0);
      SingleToken(cc, w, t);
    } else {
      DotAlone(cc, w, 0);
      SingleToken(cc, w, t);
    }
  }
}
