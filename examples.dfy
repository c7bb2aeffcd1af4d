/**
 * How a token written out in the input lexes: one lemma per token form, each
 * taking the outcome of the driver loop after the token and giving the one
 * before it. They are the building blocks of the lexer tests below.
 */
module Examples {
  import opened Wrappers
  import opened Tokens
  import opened Chars
  import opened Scanning
  import opened Determinacy
  import opened Properties

  // ----- one iteration of the driver loop at a time, from the end of the input backwards -----

  lemma {:induction false} EmitStep(cc: CharClasses, s: string, p: nat, t: Token, e: nat, rest: seq<Token>)
    requires p < |s| && Dispatch(cc, s, p) == Emit(t, e) && e <= |s| && LexFrom(cc, s, e) == Ok(rest)
    ensures LexFrom(cc, s, p) == Ok([t] + rest)
  {
  }

  lemma {:induction false} SkipStep(cc: CharClasses, s: string, p: nat, rest: seq<Token>)
    requires p < |s| && Dispatch(cc, s, p) == Skip(p + 1) && LexFrom(cc, s, p + 1) == Ok(rest)
    ensures LexFrom(cc, s, p) == Ok(rest)
  {
  }

  lemma {:induction false} SpaceSkipped(cc: CharClasses, s: string, p: nat)
    requires p < |s| && s[p] == ' '
    ensures Dispatch(cc, s, p) == Skip(p + 1)
  {
    assert Punctuation(' ').None?;
    assert OneCharOperator(' ').None?;
    NoTokenStart(cc, s, p);
  }

  lemma {:induction false} SpaceStep(cc: CharClasses, s: string, p: nat, rest: seq<Token>)
    requires p < |s| && s[p] == ' ' && LexFrom(cc, s, p + 1) == Ok(rest)
    ensures LexFrom(cc, s, p) == Ok(rest)
  {
    SpaceSkipped(cc, s, p);
    SkipStep(cc, s, p, rest);
  }

  lemma {:induction false} EndStep(cc: CharClasses, s: string, n: nat)
    requires n == |s|
    ensures LexFrom(cc, s, n) == Ok([])
  {
  }

  // ----- runs of digits written out character by character -----

  /** `s[a..b]` is a run of `d`-digits in which every `_` stands before a digit. */
  predicate Run(s: string, a: nat, b: nat, d: char -> bool)
    requires a <= b <= |s|
  {
    forall k | a <= k < b :: d(s[k]) || (s[k] == '_' && k + 1 < b && d(s[k + 1]))
  }

  lemma {:induction false} RunGroups(s: string, a: nat, b: nat, d: char -> bool)
    requires a <= b <= |s| && Run(s, a, b, d)
    ensures DigitGroups(s[a..b], d)
  {
    var t := s[a..b];
    forall k | 0 <= k < |t|
      ensures d(t[k]) || (t[k] == '_' && k + 1 < |t| && d(t[k + 1]))
    {
      assert t[k] == s[a + k];
      assert k + 1 < |t| ==> t[k + 1] == s[a + k + 1];
    }
  }

  /** Two adjacent runs form one. */
  lemma {:induction false} RunJoin(s: string, a: nat, b: nat, c: nat, d: char -> bool)
    requires a <= b <= c <= |s| && Run(s, a, b, d) && Run(s, b, c, d)
    ensures Run(s, a, c, d)
  {
  }

  /** A run in a text carries over to where that text stands in `s`. */
  lemma {:induction false} RunFromText(s: string, a: nat, t: string, i: nat, d: char -> bool)
    requires a + |t| <= |s| && s[a..a + |t|] == t && i <= |t| && Run(t, i, |t|, d)
    ensures Run(s, a + i, a + |t|, d)
  {
    forall k | a + i <= k < a + |t|
      ensures d(s[k]) || (s[k] == '_' && k + 1 < a + |t| && d(s[k + 1]))
    {
      assert s[k] == t[k - a];
      assert k + 1 < a + |t| ==> s[k + 1] == t[k + 1 - a];
    }
  }

  /** A token ends at the end of the input or before a space. */
  predicate Delimited(s: string, e: nat) {
    e == |s| || (e < |s| && s[e] == ' ')
  }

  // ----- words -----

  lemma {:induction false} WordStep(cc: CharClasses, s: string, p: nat, e: nat, w: string, rest: seq<Token>)
    requires p < e <= |s| && IsLetter(cc, s[p]) && s[p] != '_'
    requires forall k | p <= k < e :: IsIdentChar(cc, s[k])
    requires Delimited(s, e)
    requires s[p..e] == w
    requires LexFrom(cc, s, e) == Ok(rest)
    ensures LexFrom(cc, s, p) == Ok([ClassifyWord(w)] + rest)
  {
    IdentEndUnique(cc, s, p, e);
    LetterStartsWord(cc, s, p);
    EmitStep(cc, s, p, ClassifyWord(w), e, rest);
  }

  lemma {:induction false} UnderscoreHashWordStep(cc: CharClasses, s: string, p: nat, e: nat, w: string, rest: seq<Token>)
    requires p + 2 < e <= |s| && s[p] == '_' && s[p + 1] == '#' && IsLetter(cc, s[p + 2])
    requires forall k | p + 2 <= k < e :: IsIdentChar(cc, s[k])
    requires Delimited(s, e)
    requires s[p..e] == w
    requires LexFrom(cc, s, e) == Ok(rest)
    ensures LexFrom(cc, s, p) == Ok([ClassifyWord(w)] + rest)
  {
    IdentEndUnique(cc, s, p + 2, e);
    UnderscoreHashStartsWord(cc, s, p);
    EmitStep(cc, s, p, ClassifyWord(w), e, rest);
  }

  // ----- integer literals -----

  lemma {:induction false} DecimalStep(cc: CharClasses, s: string, p: nat, e: nat, w: string, rest: seq<Token>)
    requires p < e <= |s| && '1' <= s[p] <= '9' && Run(s, p + 1, e, IsDigit)
    requires Delimited(s, e)
    requires s[p..e] == w
    requires LexFrom(cc, s, e) == Ok(rest)
    ensures LexFrom(cc, s, p) == Ok([IntLit(DecimalLit(w))] + rest)
  {
    RunGroups(s, p + 1, e, IsDigit);
    GroupedEndUnique(s, p + 1, IsDigit, e);
    LeadingZeroRule(cc, s, p);
    EmitStep(cc, s, p, IntLit(DecimalLit(w)), e, rest);
  }

  lemma {:induction false} RadixStep(cc: CharClasses, s: string, p: nat, e: nat, radix: Radix, w: string, rest: seq<Token>)
    requires p + 2 <= e <= |s| && s[p] == '0' && RadixMarker(radix, s[p + 1])
      && Run(s, p + 2, e, RadixDigit(radix))
    requires Delimited(s, e)
    requires s[p..e] == w
    requires LexFrom(cc, s, e) == Ok(rest)
    ensures LexFrom(cc, s, p) == Ok([IntLit(RadixLit(radix, w))] + rest)
  {
    RunGroups(s, p + 2, e, RadixDigit(radix));
    GroupedEndUnique(s, p + 2, RadixDigit(radix), e);
    RadixLiteral(cc, s, p, radix);
    EmitStep(cc, s, p, IntLit(RadixLit(radix, w)), e, rest);
  }

  // ----- literals with a fraction or an exponent -----

  /**
   * The fraction digits of a literal at `p` are scanned from `i`: either the
   * literal starts with a point and a digit, or with integer digits and a point.
   */
  predicate PointStart(s: string, p: nat, i: nat) {
    && p + 2 <= i <= |s|
    && ((s[p] == '.' && i == p + 2 && IsDigit(s[p + 1]))
        || (IsDigit(s[p]) && s[i - 1] == '.' && forall k | p < k < i - 1 :: IsDigit(s[k])))
  }

  lemma {:induction false} DotDispatch(cc: CharClasses, s: string, p: nat)
    requires p + 1 < |s| && s[p] == '.' && IsDigit(s[p + 1])
    ensures Dispatch(cc, s, p) == EmitScanned(ScanPointDecimal(s, p, p + 2))
  {
    assert StartsNumber(s, p);
    DispatchNumberPoint(s, p);
  }

  /** Integer digits up to `m`, where the scan of the integer part stops. */
  lemma {:induction false} IntegerDigits(s: string, p: nat, m: nat)
    requires p < m <= |s| && IsDigit(s[p]) && (forall k | p < k < m :: IsDigit(s[k]))
    requires m < |s| && !IsDigit(s[m]) && s[m] != '_'
    ensures DigitsEndAt(s, p + 1, m)
  {
    assert Run(s, p + 1, m, IsDigit);
    RunGroups(s, p + 1, m, IsDigit);
    GroupedEndUnique(s, p + 1, IsDigit, m);
  }

  lemma {:induction false} DigitsPointDispatch(cc: CharClasses, s: string, p: nat, i: nat)
    requires p + 2 <= i <= |s| && IsDigit(s[p]) && s[i - 1] == '.'
      && forall k | p < k < i - 1 :: IsDigit(s[k])
    ensures Dispatch(cc, s, p) == EmitScanned(ScanPointDecimal(s, p, i))
  {
    IntegerDigits(s, p, i - 1);
    assert !RadixPrefix(s, p) by {
      assert IsDigit(s[p + 1]) || s[p + 1] == '.';
    }
    DecimalDispatch(cc, s, p);
    ScanDecimalPoint(s, p, p + 1, i - 1);
  }

  /** A digit without a radix prefix starts the decimal scan after itself. */
  lemma {:induction false} DecimalDispatch(cc: CharClasses, s: string, p: nat)
    requires p < |s| && IsDigit(s[p]) && !RadixPrefix(s, p)
    ensures Dispatch(cc, s, p) == ScanDecimal(s, p, p + 1)
  {
    assert StartsNumber(s, p);
    DispatchNumberDecimal(s, p);
  }

  lemma {:induction false} PointDispatch(cc: CharClasses, s: string, p: nat, i: nat)
    requires PointStart(s, p, i)
    ensures Dispatch(cc, s, p) == EmitScanned(ScanPointDecimal(s, p, i))
  {
    if s[p] == '.' {
      DotDispatch(cc, s, p);
    } else {
      DigitsPointDispatch(cc, s, p, i);
    }
  }

  lemma {:induction false} PointStopStep(cc: CharClasses, s: string, p: nat, i: nat, m: nat, w: string, rest: seq<Token>)
    requires PointStart(s, p, i) && i <= m <= |s| && FractionDigits(s, i, m)
    requires Delimited(s, m)
    requires s[p..m] == w
    requires LexFrom(cc, s, m) == Ok(rest)
    ensures LexFrom(cc, s, p) == Ok([FloatLit(WithoutExp(w))] + rest)
  {
    PointDispatch(cc, s, p, i);
    PointDecimalEndUnique(s, i, Stop(m));
    EmitStep(cc, s, p, FloatLit(WithoutExp(w)), m, rest);
  }

  lemma {:induction false} PointSiScan(s: string, p: nat, i: nat, m: nat, e: nat)
    requires p < i < m < |s| && FractionDigits(s, i, m) && IsDigit(s[m - 1]) && IsMultiplier(s[m])
    requires e == if Verify(s, m + 1, 'i') then m + 2 else m + 1
    ensures ScanPointDecimal(s, p, i) == Scanned(IntLit(SiLit(s[p..m], s[m..e])), e)
  {
    PointDecimalEndUnique(s, i, ToSi(m));
  }

  lemma {:induction false} PointSiStep(cc: CharClasses, s: string, p: nat, i: nat, m: nat, e: nat, w: string, u: string, rest: seq<Token>)
    requires PointStart(s, p, i) && i < m < |s| && FractionDigits(s, i, m) && IsDigit(s[m - 1])
      && IsMultiplier(s[m])
    requires e == if Verify(s, m + 1, 'i') then m + 2 else m + 1
    requires Delimited(s, e)
    requires s[p..m] == w && s[m..e] == u
    requires LexFrom(cc, s, e) == Ok(rest)
    ensures LexFrom(cc, s, p) == Ok([IntLit(SiLit(w, u))] + rest)
  {
    PointDispatch(cc, s, p, i);
    PointSiScan(s, p, i, m, e);
    EmitStep(cc, s, p, IntLit(SiLit(w, u)), e, rest);
  }

  /** The exponent from the marker at `m` runs to `e`. */
  lemma {:induction false} ExponentEnd(s: string, p: nat, m: nat, e: nat)
    requires p <= m < |s| && (s[m] == 'e' || s[m] == 'E')
    requires ExponentDigitsStart(s, m + 1) <= e <= |s| && Run(s, ExponentDigitsStart(s, m + 1), e, IsDigit)
    requires Delimited(s, e)
    ensures ScanFloat(s, p, m + 1) == Scanned(FloatLit(WithExp(s[p..m], s[m..e])), e)
  {
    var j := ExponentDigitsStart(s, m + 1);
    ScanFloatEnd(s, p, m + 1);
    RunGroups(s, j, e, IsDigit);
    GroupedEndUnique(s, j, IsDigit, e);
  }

  lemma {:induction false} PointExpScan(s: string, p: nat, i: nat, m: nat, e: nat)
    requires p < i <= m < |s| && FractionDigits(s, i, m) && (s[m] == 'e' || s[m] == 'E')
    requires ExponentDigitsStart(s, m + 1) <= e <= |s| && Run(s, ExponentDigitsStart(s, m + 1), e, IsDigit)
    requires Delimited(s, e)
    ensures ScanPointDecimal(s, p, i) == Scanned(FloatLit(WithExp(s[p..m], s[m..e])), e)
  {
    PointDecimalEndUnique(s, i, ToExp(m));
    ExponentEnd(s, p, m, e);
  }

  lemma {:induction false} PointExpStep(cc: CharClasses, s: string, p: nat, i: nat, m: nat, e: nat, w: string, x: string, rest: seq<Token>)
    requires PointStart(s, p, i) && i <= m < |s| && FractionDigits(s, i, m) && (s[m] == 'e' || s[m] == 'E')
    requires ExponentDigitsStart(s, m + 1) <= e <= |s| && Run(s, ExponentDigitsStart(s, m + 1), e, IsDigit)
    requires Delimited(s, e)
    requires s[p..m] == w && s[m..e] == x
    requires LexFrom(cc, s, e) == Ok(rest)
    ensures LexFrom(cc, s, p) == Ok([FloatLit(WithExp(w, x))] + rest)
  {
    PointDispatch(cc, s, p, i);
    PointExpScan(s, p, i, m, e);
    EmitStep(cc, s, p, FloatLit(WithExp(w, x)), e, rest);
  }

  lemma {:induction false} ExpDispatch(cc: CharClasses, s: string, p: nat, m: nat, e: nat)
    requires p < m < |s| && IsDigit(s[p]) && (forall k | p < k < m :: IsDigit(s[k]))
      && (s[m] == 'e' || s[m] == 'E')
    requires ExponentDigitsStart(s, m + 1) <= e <= |s| && Run(s, ExponentDigitsStart(s, m + 1), e, IsDigit)
    requires Delimited(s, e)
    ensures Dispatch(cc, s, p) == Emit(FloatLit(WithExp(s[p..m], s[m..e])), e)
  {
    IntegerDigits(s, p, m);
    ScanDecimalExponent(s, p, p + 1, m);
    ExponentEnd(s, p, m, e);
    assert IsDigit(s[p + 1]) || s[p + 1] == 'e' || s[p + 1] == 'E';
    assert StartsNumber(s, p) && !RadixPrefix(s, p);
    DispatchNumberDecimal(s, p);
  }

  /** Integer digits straight followed by an exponent. */
  lemma {:induction false} ExpStep(cc: CharClasses, s: string, p: nat, m: nat, e: nat, w: string, x: string, rest: seq<Token>)
    requires p < m < |s| && IsDigit(s[p]) && (forall k | p < k < m :: IsDigit(s[k]))
      && (s[m] == 'e' || s[m] == 'E')
    requires ExponentDigitsStart(s, m + 1) <= e <= |s| && Run(s, ExponentDigitsStart(s, m + 1), e, IsDigit)
    requires Delimited(s, e)
    requires s[p..m] == w && s[m..e] == x
    requires LexFrom(cc, s, e) == Ok(rest)
    ensures LexFrom(cc, s, p) == Ok([FloatLit(WithExp(w, x))] + rest)
  {
    ExpDispatch(cc, s, p, m, e);
    EmitStep(cc, s, p, FloatLit(WithExp(w, x)), e, rest);
  }
}

/**
 * The first input of the number test in lib.rs and the tokens it expects.
 * The input is described by the facts the step lemmas need about it (its
 * shape); the chain lemma lexes any string of that shape one token at a time
 * from the end backwards, and the test lemma applies it to the input itself.
 */
module LexerTests {
  import opened Wrappers
  import opened Tokens
  import opened Chars
  import opened Scanning
  import opened Properties
  import opened Examples

  const DecimalsInput := "123 456 789"

  lemma {:induction false} DecimalsLayout(s: string)
    requires s == DecimalsInput
    ensures |s| == 11 && s[3] == ' ' && s[7] == ' '
  {
  }

  lemma {:induction false} DecimalsToken0(s: string)
    requires s == DecimalsInput
    ensures 0 < 3 <= |s| && '1' <= s[0] <= '9' && Run(s, 1, 3, IsDigit)
    ensures Delimited(s, 3)
    ensures s[0..3] == "123"
  {
  }

  lemma {:induction false} DecimalsToken1(s: string)
    requires s == DecimalsInput
    ensures 4 < 7 <= |s| && '1' <= s[4] <= '9' && Run(s, 5, 7, IsDigit)
    ensures Delimited(s, 7)
    ensures s[4..7] == "456"
  {
  }

  lemma {:induction false} DecimalsToken2(s: string)
    requires s == DecimalsInput
    ensures 8 < 11 <= |s| && '1' <= s[8] <= '9' && Run(s, 9, 11, IsDigit)
    ensures Delimited(s, 11)
    ensures s[8..11] == "789"
  {
  }

  lemma {:induction false} DecimalsChain(cc: CharClasses, s: string)
    requires |s| == 11 && s[3] == ' ' && s[7] == ' '
    requires 0 < 3 <= |s| && '1' <= s[0] <= '9' && Run(s, 1, 3, IsDigit)
    requires Delimited(s, 3)
    requires s[0..3] == "123"
    requires 4 < 7 <= |s| && '1' <= s[4] <= '9' && Run(s, 5, 7, IsDigit)
    requires Delimited(s, 7)
    requires s[4..7] == "456"
    requires 8 < 11 <= |s| && '1' <= s[8] <= '9' && Run(s, 9, 11, IsDigit)
    requires Delimited(s, 11)
    requires s[8..11] == "789"
    ensures LexFrom(cc, s, 0) == Ok([IntLit(DecimalLit("123"))] + ([IntLit(DecimalLit("456"))] + ([IntLit(DecimalLit("789"))] + [])))
  {
    EndStep(cc, s, 11);
    DecimalStep(cc, s, 8, 11, "789", []);
    SpaceStep(cc, s, 7, [IntLit(DecimalLit("789"))] + []);
    DecimalStep(cc, s, 4, 7, "456", [IntLit(DecimalLit("789"))] + []);
    SpaceStep(cc, s, 3, [IntLit(DecimalLit("456"))] + ([IntLit(DecimalLit("789"))] + []));
    DecimalStep(cc, s, 0, 3, "123", [IntLit(DecimalLit("456"))] + ([IntLit(DecimalLit("789"))] + []));
  }

  lemma {:induction false} DecimalsTokens()
    ensures [IntLit(DecimalLit("123"))] + ([IntLit(DecimalLit("456"))] + ([IntLit(DecimalLit("789"))] + []))
         == [IntLit(DecimalLit("123")), IntLit(DecimalLit("456")), IntLit(DecimalLit("789"))]
  {
  }

  /** The first input of `test_numbers`: decimal integers. */
  lemma {:induction false} DecimalsTest(cc: CharClasses)
    ensures Lex(cc, DecimalsInput) == Ok([IntLit(DecimalLit("123")), IntLit(DecimalLit("456")), IntLit(DecimalLit("789"))])
  {
    DecimalsLayout(DecimalsInput);
    DecimalsToken0(DecimalsInput);
    DecimalsToken1(DecimalsInput);
    DecimalsToken2(DecimalsInput);
    DecimalsChain(cc, DecimalsInput);
    DecimalsTokens();
  }

  // ----- `test_lexer`: words, a keyword, `_#` and non-ASCII letters -----

  const WordsInput := "fn _#lol x let y Int αβ Int x  y "

  /** The facts `WordStep` needs about the word `w` at `s[p..e]`. */
  predicate WordAt(cc: CharClasses, s: string, p: nat, e: nat, w: string) {
    && p < e <= |s| && IsLetter(cc, s[p]) && s[p] != '_'
    && (forall k | p <= k < e :: IsIdentChar(cc, s[k]))
    && Delimited(s, e) && s[p..e] == w
  }

  lemma {:induction false} WordsLayout(s: string)
    requires s == WordsInput
    ensures |s| == 33 && s[2] == ' ' && s[8] == ' ' && s[10] == ' ' && s[14] == ' ' && s[16] == ' '
  {
  }

  lemma {:induction false} WordsLayoutTail(s: string)
    requires s == WordsInput
    ensures s[20] == ' ' && s[23] == ' ' && s[27] == ' ' && s[29] == ' ' && s[30] == ' ' && s[32] == ' '
  {
  }

  lemma {:induction false} WordsWord0(cc: CharClasses, s: string)
    requires s == WordsInput
    ensures WordAt(cc, s, 0, 2, "fn")
  {
  }

  lemma {:induction false} WordsWord9(cc: CharClasses, s: string)
    requires s == WordsInput
    ensures WordAt(cc, s, 9, 10, "x")
  {
  }

  lemma {:induction false} WordsWord11(cc: CharClasses, s: string)
    requires s == WordsInput
    ensures WordAt(cc, s, 11, 14, "let")
  {
  }

  lemma {:induction false} WordsWord15(cc: CharClasses, s: string)
    requires s == WordsInput
    ensures WordAt(cc, s, 15, 16, "y")
  {
  }

  lemma {:induction false} WordsWord17(cc: CharClasses, s: string)
    requires s == WordsInput
    ensures WordAt(cc, s, 17, 20, "Int")
  {
  }

  lemma {:induction false} WordsWord21(cc: CharClasses, s: string)
    requires s == WordsInput && IsLetter(cc, 'α') && IsLetter(cc, 'β')
    ensures WordAt(cc, s, 21, 23, "αβ")
  {
  }

  lemma {:induction false} WordsWord24(cc: CharClasses, s: string)
    requires s == WordsInput
    ensures WordAt(cc, s, 24, 27, "Int")
  {
  }

  lemma {:induction false} WordsWord28(cc: CharClasses, s: string)
    requires s == WordsInput
    ensures WordAt(cc, s, 28, 29, "x")
  {
  }

  lemma {:induction false} WordsWord31(cc: CharClasses, s: string)
    requires s == WordsInput
    ensures WordAt(cc, s, 31, 32, "y")
  {
  }

  lemma {:induction false} WordsWord3(cc: CharClasses, s: string)
    requires s == WordsInput
    ensures WordAt(cc, s, 5, 8, "lol") && s[3] == '_' && s[4] == '#' && s[3..8] == "_#lol"
  {
    assert s[5] == 'l' && s[6] == 'o' && s[7] == 'l';
    assert s[5..8] == "lol";
  }

  /** A word whose first character starts no reserved word is an identifier. */
  lemma {:induction false} OtherInitialIdentifier(w: string)
    requires |w| > 0 && w[0] !in "ntfpil_"
    ensures ClassifyWord(w) == Identifier(w)
  {
    assert !HasDunderPrefix(w) by {
      if |w| >= 2 {
        assert w[..2][0] == w[0];
      }
    }
    assert w != "null" && w != "true" && w != "false" && w != "package" && w != "import" by {
      assert "null"[0] != w[0] && "true"[0] != w[0] && "false"[0] != w[0];
      assert "package"[0] != w[0] && "import"[0] != w[0];
    }
    assert w != "for" && w != "in" && w != "if" && w != "let" by {
      assert "for"[0] != w[0] && "in"[0] != w[0] && "if"[0] != w[0] && "let"[0] != w[0];
    }
  }

  lemma {:induction false} FnIdentifier()
    ensures ClassifyWord("fn") == Identifier("fn")
  {
    assert "fn"[..2][0] == 'f';
    assert "fn" != "false" && "fn" != "for";
  }

  lemma {:induction false} WordsClassified()
    ensures ClassifyWord("fn") == Identifier("fn") && ClassifyWord("_#lol") == Identifier("_#lol")
    ensures ClassifyWord("x") == Identifier("x") && ClassifyWord("let") == Let
      && ClassifyWord("y") == Identifier("y")
    ensures ClassifyWord("Int") == Identifier("Int") && ClassifyWord("αβ") == Identifier("αβ")
  {
    FnIdentifier();
    HashWordIdentifier("_#lol");
    OtherInitialIdentifier("x");
    OtherInitialIdentifier("y");
    OtherInitialIdentifier("Int");
    OtherInitialIdentifier("αβ");
    LetReserved();
  }

  lemma {:induction false} LetReserved()
    ensures ClassifyWord("let") == Let
  {
    assert "let" != "null" && "let" != "true" && "let" != "false" && "let" != "package" && "let" != "import";
    assert "let" != "for" && "let" != "in" && "let" != "if";
  }

  /** A word and the space after it. */
  lemma {:induction false} SpacedWordStep(cc: CharClasses, s: string, p: nat, e: nat, w: string, rest: seq<Token>)
    requires WordAt(cc, s, p, e, w) && e < |s| && s[e] == ' ' && LexFrom(cc, s, e + 1) == Ok(rest)
    ensures LexFrom(cc, s, p) == Ok([ClassifyWord(w)] + rest)
  {
    SpaceStep(cc, s, e, rest);
    WordStep(cc, s, p, e, w, rest);
  }

  /** From `Int` on: five words. */
  lemma {:induction false} WordsChain17(cc: CharClasses, s: string)
    requires |s| == 33 && s[20] == ' ' && s[23] == ' ' && s[27] == ' ' && s[29] == ' ' && s[30] == ' '
      && s[32] == ' '
    requires WordAt(cc, s, 17, 20, "Int") && WordAt(cc, s, 21, 23, "αβ") && WordAt(cc, s, 24, 27, "Int")
    requires WordAt(cc, s, 28, 29, "x") && WordAt(cc, s, 31, 32, "y")
    ensures LexFrom(cc, s, 17) == Ok([ClassifyWord("Int")] + ([ClassifyWord("αβ")] + ([ClassifyWord("Int")]
      + ([ClassifyWord("x")] + ([ClassifyWord("y")] + [])))))
  {
    EndStep(cc, s, 33);
    SpacedWordStep(cc, s, 31, 32, "y", []);
    var r := [ClassifyWord("y")] + [];
    SpaceStep(cc, s, 30, r);
    SpacedWordStep(cc, s, 28, 29, "x", r);
    r := [ClassifyWord("x")] + r;
    SpacedWordStep(cc, s, 24, 27, "Int", r);
    r := [ClassifyWord("Int")] + r;
    SpacedWordStep(cc, s, 21, 23, "αβ", r);
    r := [ClassifyWord("αβ")] + r;
    SpacedWordStep(cc, s, 17, 20, "Int", r);
  }

  /** From the start: `fn`, `_#lol`, `x`, `let` and `y`. */
  lemma {:induction false} WordsChain0(cc: CharClasses, s: string, rest: seq<Token>)
    requires |s| == 33 && s[2] == ' ' && s[8] == ' ' && s[10] == ' ' && s[14] == ' ' && s[16] == ' '
    requires WordAt(cc, s, 0, 2, "fn") && WordAt(cc, s, 9, 10, "x") && WordAt(cc, s, 11, 14, "let")
      && WordAt(cc, s, 15, 16, "y")
    requires WordAt(cc, s, 5, 8, "lol") && s[3] == '_' && s[4] == '#' && s[3..8] == "_#lol"
    requires LexFrom(cc, s, 17) == Ok(rest)
    ensures LexFrom(cc, s, 0) == Ok([ClassifyWord("fn")] + ([ClassifyWord("_#lol")] + ([ClassifyWord("x")]
      + ([ClassifyWord("let")] + ([ClassifyWord("y")] + rest)))))
  {
    SpacedWordStep(cc, s, 15, 16, "y", rest);
    var r := [ClassifyWord("y")] + rest;
    SpacedWordStep(cc, s, 11, 14, "let", r);
    r := [ClassifyWord("let")] + r;
    SpacedWordStep(cc, s, 9, 10, "x", r);
    r := [ClassifyWord("x")] + r;
    SpaceStep(cc, s, 8, r);
    UnderscoreHashWordStep(cc, s, 3, 8, "_#lol", r);
    r := [ClassifyWord("_#lol")] + r;
    SpacedWordStep(cc, s, 0, 2, "fn", r);
  }

  /** The words of `test_lexer` classified: `let` is reserved, the others are identifiers. */
  lemma {:induction false} WordsTokens()
    ensures [ClassifyWord("fn")] + ([ClassifyWord("_#lol")] + ([ClassifyWord("x")] + ([ClassifyWord("let")]
      + ([ClassifyWord("y")] + ([ClassifyWord("Int")] + ([ClassifyWord("αβ")] + ([ClassifyWord("Int")]
      + ([ClassifyWord("x")] + ([ClassifyWord("y")] + [])))))))))
      == [Identifier("fn"), Identifier("_#lol"), Identifier("x"), Let, Identifier("y"),
          Identifier("Int"), Identifier("αβ"), Identifier("Int"), Identifier("x"), Identifier("y")]
  {
    WordsClassified();
  }

  /** `test_lexer`, given that `α` and `β` are letters in the Unicode database. */
  lemma {:induction false} WordsTest(cc: CharClasses)
    requires IsLetter(cc, 'α') && IsLetter(cc, 'β')
    ensures Lex(cc, WordsInput) == Ok([
      Identifier("fn"), Identifier("_#lol"), Identifier("x"), Let, Identifier("y"),
      Identifier("Int"), Identifier("αβ"), Identifier("Int"), Identifier("x"), Identifier("y")])
  {
    WordsLayout(WordsInput);
    WordsLayoutTail(WordsInput);
    WordsWord17(cc, WordsInput);
    WordsWord21(cc, WordsInput);
    WordsWord24(cc, WordsInput);
    WordsWord28(cc, WordsInput);
    WordsWord31(cc, WordsInput);
    WordsChain17(cc, WordsInput);
    WordsWord0(cc, WordsInput);
    WordsWord3(cc, WordsInput);
    WordsWord9(cc, WordsInput);
    WordsWord11(cc, WordsInput);
    WordsWord15(cc, WordsInput);
    WordsChain0(cc, WordsInput, [ClassifyWord("Int")] + ([ClassifyWord("αβ")] + ([ClassifyWord("Int")]
      + ([ClassifyWord("x")] + ([ClassifyWord("y")] + [])))));
    WordsTokens();
  }

  // ----- the second input of `test_numbers`: decimal, SI and radix integers -----
  //
  // As for the first input: lemmas that read the facts the step lemmas need
  // off the input, chain lemmas that lex any string with those facts, and
  // lemmas that join the two group by group.

  /** Written in pieces, token by token and space by space. */
  const IntegersInput :=
    ("42" + " " + "1.5" + "G" + " " + "1.3" + "Ki" + " ")
    + ("170_141_183" + "_460_469_231" + "_731_687_303" + "_715_884_105" + "_727")
    + (" " + "0xBad_Face" + " " + "0o755" + " " + "0b0101_0001")

  lemma {:induction false} IntegersLayout(s: string)
    requires s == IntegersInput
    ensures |s| == 94 && s[2] == ' ' && s[7] == ' ' && s[13] == ' ' && s[65] == ' ' && s[76] == ' '
      && s[82] == ' '
  {
  }

  lemma {:induction false} IntegersToken0Shape(s: string)
    requires s == IntegersInput
    ensures '1' <= s[0] <= '9' && Run(s, 1, 2, IsDigit)
  {
  }

  lemma {:induction false} IntegersToken0Text(s: string)
    requires s == IntegersInput
    ensures Delimited(s, 2) && s[0..2] == "42"
  {
  }

  lemma {:induction false} IntegersToken3Shape(s: string)
    requires s == IntegersInput
    ensures PointStart(s, 3, 5) && 5 < 6 < |s| && FractionDigits(s, 5, 6) && IsDigit(s[5])
      && IsMultiplier(s[6])
  {
  }

  lemma {:induction false} IntegersToken3Extent(s: string)
    requires s == IntegersInput
    ensures 7 == (if Verify(s, 7, 'i') then 8 else 7) && Delimited(s, 7)
  {
  }

  lemma {:induction false} IntegersToken3Text(s: string)
    requires s == IntegersInput
    ensures s[3..6] == "1.5" && s[6..7] == "G"
  {
    assert s[3] == '1' && s[4] == '.' && s[5] == '5';
  }

  lemma {:induction false} IntegersToken8Shape(s: string)
    requires s == IntegersInput
    ensures PointStart(s, 8, 10) && 10 < 11 < |s| && FractionDigits(s, 10, 11) && IsDigit(s[10])
      && IsMultiplier(s[11])
  {
  }

  lemma {:induction false} IntegersToken8Extent(s: string)
    requires s == IntegersInput
    ensures 13 == (if Verify(s, 12, 'i') then 13 else 12) && Delimited(s, 13)
  {
  }

  lemma {:induction false} IntegersToken8Text(s: string)
    requires s == IntegersInput
    ensures s[8..11] == "1.3" && s[11..13] == "Ki"
  {
    assert s[8] == '1' && s[9] == '.' && s[10] == '3';
  }

  lemma {:induction false} IntegersGroup14(s: string)
    requires s == IntegersInput
    ensures |s| == 94 && s[14..25] == "170_141_183"
  {
  }

  lemma {:induction false} IntegersGroup25(s: string)
    requires s == IntegersInput
    ensures |s| == 94 && s[25..37] == "_460_469_231"
  {
  }

  lemma {:induction false} IntegersGroup37(s: string)
    requires s == IntegersInput
    ensures |s| == 94 && s[37..49] == "_731_687_303"
  {
  }

  lemma {:induction false} IntegersGroup49(s: string)
    requires s == IntegersInput
    ensures |s| == 94 && s[49..61] == "_715_884_105"
  {
  }

  lemma {:induction false} IntegersGroup61(s: string)
    requires s == IntegersInput
    ensures |s| == 94 && s[61..65] == "_727"
  {
  }

  // The digit groups of the long literal, each a run of digits with `_` separators.

  lemma {:induction false} IntegersGroupRun14()
    ensures Run("170_141_183", 1, 11, IsDigit)
  {
  }

  lemma {:induction false} IntegersGroupRun25()
    ensures Run("_460_469_231", 0, 12, IsDigit)
  {
  }

  lemma {:induction false} IntegersGroupRun37()
    ensures Run("_731_687_303", 0, 12, IsDigit)
  {
  }

  lemma {:induction false} IntegersGroupRun49()
    ensures Run("_715_884_105", 0, 12, IsDigit)
  {
  }

  lemma {:induction false} IntegersGroupRun61()
    ensures Run("_727", 0, 4, IsDigit)
  {
  }

  /** The digit groups in place make one run behind the first digit. */
  lemma {:induction false} IntegersGroupsRun(s: string)
    requires |s| == 94 && s[14..25] == "170_141_183" && s[25..37] == "_460_469_231"
      && s[37..49] == "_731_687_303"
    requires s[49..61] == "_715_884_105" && s[61..65] == "_727"
    ensures '1' <= s[14] <= '9' && Run(s, 15, 65, IsDigit)
  {
    IntegersGroupRun14();
    IntegersGroupRun25();
    IntegersGroupRun37();
    IntegersGroupRun49();
    IntegersGroupRun61();
    RunFromText(s, 14, "170_141_183", 1, IsDigit);
    RunFromText(s, 25, "_460_469_231", 0, IsDigit);
    RunJoin(s, 15, 25, 37, IsDigit);
    RunFromText(s, 37, "_731_687_303", 0, IsDigit);
    RunJoin(s, 15, 37, 49, IsDigit);
    RunFromText(s, 49, "_715_884_105", 0, IsDigit);
    RunJoin(s, 15, 49, 61, IsDigit);
    RunFromText(s, 61, "_727", 0, IsDigit);
    RunJoin(s, 15, 61, 65, IsDigit);
    assert s[14] == s[14..25][0];
  }

  lemma {:induction false} IntegersToken14Shape(s: string)
    requires s == IntegersInput
    ensures '1' <= s[14] <= '9' && Run(s, 15, 65, IsDigit)
  {
    IntegersGroup14(s);
    IntegersGroup25(s);
    IntegersGroup37(s);
    IntegersGroup49(s);
    IntegersGroup61(s);
    IntegersGroupsRun(s);
  }

  /** The long literal is its digit groups one after the other. */
  lemma {:induction false} IntegersGroupsJoin(s: string)
    requires |s| == 94 && s[14..25] == "170_141_183" && s[25..37] == "_460_469_231"
      && s[37..49] == "_731_687_303"
    requires s[49..61] == "_715_884_105" && s[61..65] == "_727"
    ensures s[14..65] == "170_141_183_460_469_231_731_687_303_715_884_105_727"
  {
    assert s[14..65] == s[14..25] + s[25..37] + s[37..49] + s[49..61] + s[61..65];
    IntegersGroupsHead();
    IntegersGroupsTail();
    IntegersGroupsWhole();
  }

  lemma {:induction false} IntegersGroupsHead()
    ensures "170_141_183" + "_460_469_231" == "170_141_183_460_469_231"
  {
  }

  lemma {:induction false} IntegersGroupsTail()
    ensures "_731_687_303" + "_715_884_105" + "_727" == "_731_687_303_715_884_105_727"
  {
  }

  lemma {:induction false} IntegersGroupsWhole()
    ensures "170_141_183_460_469_231"
      + "_731_687_303_715_884_105_727" == "170_141_183_460_469_231_731_687_303_715_884_105_727"
  {
  }

  lemma {:induction false} IntegersToken14Text(s: string)
    requires s == IntegersInput
    ensures Delimited(s, 65) && s[14..65] == "170_141_183_460_469_231_731_687_303_715_884_105_727"
  {
    IntegersGroup14(s);
    IntegersGroup25(s);
    IntegersGroup37(s);
    IntegersGroup49(s);
    IntegersGroup61(s);
    IntegersGroupsJoin(s);
  }

  lemma {:induction false} IntegersToken66Shape(s: string)
    requires s == IntegersInput
    ensures s[66] == '0' && RadixMarker(Hex, s[67]) && Run(s, 68, 76, RadixDigit(Hex))
  {
  }

  lemma {:induction false} IntegersToken66Text(s: string)
    requires s == IntegersInput
    ensures Delimited(s, 76) && s[66..76] == "0xBad_Face"
  {
  }

  lemma {:induction false} IntegersToken77Shape(s: string)
    requires s == IntegersInput
    ensures s[77] == '0' && RadixMarker(Octal, s[78]) && Run(s, 79, 82, RadixDigit(Octal))
  {
  }

  lemma {:induction false} IntegersToken77Text(s: string)
    requires s == IntegersInput
    ensures Delimited(s, 82) && s[77..82] == "0o755"
  {
  }

  lemma {:induction false} IntegersToken83Shape(s: string)
    requires s == IntegersInput
    ensures s[83] == '0' && RadixMarker(Binary, s[84]) && Run(s, 85, 94, RadixDigit(Binary))
  {
  }

  lemma {:induction false} IntegersToken83Text(s: string)
    requires s == IntegersInput
    ensures Delimited(s, 94) && s[83..94] == "0b0101_0001"
  {
  }

  /** The SI literal `1.3Ki`, whose `i` belongs to the unit. */
  lemma {:induction false} IntegersChain8(cc: CharClasses, s: string, rest: seq<Token>)
    requires |s| == 94 && s[13] == ' '
    requires PointStart(s, 8, 10) && 10 < 11 < |s| && FractionDigits(s, 10, 11) && IsDigit(s[10])
      && IsMultiplier(s[11])
    requires 13 == (if Verify(s, 12, 'i') then 13 else 12) && Delimited(s, 13)
    requires s[8..11] == "1.3" && s[11..13] == "Ki"
    requires LexFrom(cc, s, 14) == Ok(rest)
    ensures LexFrom(cc, s, 8) == Ok([IntLit(SiLit("1.3", "Ki"))] + rest)
  {
    SpaceStep(cc, s, 13, rest);
    PointSiStep(cc, s, 8, 10, 11, 13, "1.3", "Ki", rest);
  }

  /** The decimal `42` and the SI literal `1.5G`. */
  lemma {:induction false} IntegersChain0(cc: CharClasses, s: string, rest: seq<Token>)
    requires |s| == 94 && s[2] == ' ' && s[7] == ' '
    requires '1' <= s[0] <= '9' && Run(s, 1, 2, IsDigit)
    requires Delimited(s, 2) && s[0..2] == "42"
    requires PointStart(s, 3, 5) && 5 < 6 < |s| && FractionDigits(s, 5, 6) && IsDigit(s[5])
      && IsMultiplier(s[6])
    requires 7 == (if Verify(s, 7, 'i') then 8 else 7) && Delimited(s, 7)
    requires s[3..6] == "1.5" && s[6..7] == "G"
    requires LexFrom(cc, s, 8) == Ok(rest)
    ensures LexFrom(cc, s, 0) == Ok([IntLit(DecimalLit("42"))] + ([IntLit(SiLit("1.5", "G"))] + rest))
  {
    SpaceStep(cc, s, 7, rest);
    PointSiStep(cc, s, 3, 5, 6, 7, "1.5", "G", rest);
    SpaceStep(cc, s, 2, [IntLit(SiLit("1.5", "G"))] + rest);
    DecimalStep(cc, s, 0, 2, "42", [IntLit(SiLit("1.5", "G"))] + rest);
  }

  /** The long decimal literal with `_` separators. */
  lemma {:induction false} IntegersChain14(cc: CharClasses, s: string, rest: seq<Token>)
    requires |s| == 94 && s[65] == ' '
    requires '1' <= s[14] <= '9' && Run(s, 15, 65, IsDigit)
    requires Delimited(s, 65) && s[14..65] == "170_141_183_460_469_231_731_687_303_715_884_105_727"
    requires LexFrom(cc, s, 66) == Ok(rest)
    ensures LexFrom(cc, s, 14) == Ok([IntLit(DecimalLit("170_141_183_460_469_231_731_687_303_715_884_105_727"))]
      + rest)
  {
    SpaceStep(cc, s, 65, rest);
    DecimalStep(cc, s, 14, 65, "170_141_183_460_469_231_731_687_303_715_884_105_727", rest);
  }

  /** The hexadecimal, octal and binary literals to the end of the input. */
  lemma {:induction false} IntegersChain66(cc: CharClasses, s: string)
    requires |s| == 94 && s[76] == ' ' && s[82] == ' '
    requires s[66] == '0' && RadixMarker(Hex, s[67]) && Run(s, 68, 76, RadixDigit(Hex))
    requires Delimited(s, 76) && s[66..76] == "0xBad_Face"
    requires s[77] == '0' && RadixMarker(Octal, s[78]) && Run(s, 79, 82, RadixDigit(Octal))
    requires Delimited(s, 82) && s[77..82] == "0o755"
    requires s[83] == '0' && RadixMarker(Binary, s[84]) && Run(s, 85, 94, RadixDigit(Binary))
    requires Delimited(s, 94) && s[83..94] == "0b0101_0001"
    ensures LexFrom(cc, s, 66) == Ok([IntLit(RadixLit(Hex, "0xBad_Face"))]
      + ([IntLit(RadixLit(Octal, "0o755"))] + ([IntLit(RadixLit(Binary, "0b0101_0001"))] + [])))
  {
    EndStep(cc, s, 94);
    RadixStep(cc, s, 83, 94, Binary, "0b0101_0001", []);
    SpaceStep(cc, s, 82, [IntLit(RadixLit(Binary, "0b0101_0001"))] + []);
    RadixStep(cc, s, 77, 82, Octal, "0o755", [IntLit(RadixLit(Binary, "0b0101_0001"))] + []);
    SpaceStep(cc, s, 76, [IntLit(RadixLit(Octal, "0o755"))] + ([IntLit(RadixLit(Binary, "0b0101_0001"))]
      + []));
    RadixStep(cc, s, 66, 76, Hex, "0xBad_Face", [IntLit(RadixLit(Octal, "0o755"))]
      + ([IntLit(RadixLit(Binary, "0b0101_0001"))] + []));
  }

  /** The radix literals as the test names them. */
  lemma {:induction false} IntegersTokens()
    ensures [IntLit(DecimalLit("42"))] + ([IntLit(SiLit("1.5", "G"))] + ([IntLit(SiLit("1.3", "Ki"))]
      + ([IntLit(DecimalLit("170_141_183_460_469_231_731_687_303_715_884_105_727"))]
      + ([IntLit(RadixLit(Hex, "0xBad_Face"))] + ([IntLit(RadixLit(Octal, "0o755"))]
      + ([IntLit(RadixLit(Binary, "0b0101_0001"))] + []))))))
         == [IntLit(DecimalLit("42")), IntLit(SiLit("1.5", "G")), IntLit(SiLit("1.3", "Ki")),
           IntLit(DecimalLit("170_141_183_460_469_231_731_687_303_715_884_105_727")),
           IntLit(HexLit("0xBad_Face")), IntLit(OctalLit("0o755")), IntLit(BinaryLit("0b0101_0001"))]
  {
  }

  /** The facts read off the input and the chain lemmas, token group by token group. */
  lemma {:induction false} IntegersFrom0(cc: CharClasses, s: string, rest: seq<Token>)
    requires s == IntegersInput && LexFrom(cc, s, 14) == Ok(rest)
    ensures LexFrom(cc, s, 0) == Ok([IntLit(DecimalLit("42"))] + ([IntLit(SiLit("1.5", "G"))]
      + ([IntLit(SiLit("1.3", "Ki"))] + rest)))
  {
    IntegersLayout(s);
    IntegersToken0Shape(s);
    IntegersToken0Text(s);
    IntegersToken3Shape(s);
    IntegersToken3Extent(s);
    IntegersToken3Text(s);
    IntegersToken8Shape(s);
    IntegersToken8Extent(s);
    IntegersToken8Text(s);
    IntegersChain8(cc, s, rest);
    IntegersChain0(cc, s, [IntLit(SiLit("1.3", "Ki"))] + rest);
  }

  lemma {:induction false} IntegersFrom14(cc: CharClasses, s: string, rest: seq<Token>)
    requires s == IntegersInput && LexFrom(cc, s, 66) == Ok(rest)
    ensures LexFrom(cc, s, 14) == Ok([IntLit(DecimalLit("170_141_183_460_469_231_731_687_303_715_884_105_727"))]
      + rest)
  {
    IntegersLayout(s);
    IntegersToken14Shape(s);
    IntegersToken14Text(s);
    IntegersChain14(cc, s, rest);
  }

  lemma {:induction false} IntegersFrom66(cc: CharClasses, s: string)
    requires s == IntegersInput
    ensures LexFrom(cc, s, 66) == Ok([IntLit(RadixLit(Hex, "0xBad_Face"))]
      + ([IntLit(RadixLit(Octal, "0o755"))] + ([IntLit(RadixLit(Binary, "0b0101_0001"))] + [])))
  {
    IntegersLayout(s);
    IntegersToken66Shape(s);
    IntegersToken66Text(s);
    IntegersToken77Shape(s);
    IntegersToken77Text(s);
    IntegersToken83Shape(s);
    IntegersToken83Text(s);
    IntegersChain66(cc, s);
  }

  /** The second input of `test_numbers`. */
  lemma {:induction false} IntegersTest(cc: CharClasses)
    ensures Lex(cc, IntegersInput) == Ok([IntLit(DecimalLit("42")), IntLit(SiLit("1.5", "G")),
      IntLit(SiLit("1.3", "Ki")), IntLit(DecimalLit("170_141_183_460_469_231_731_687_303_715_884_105_727")),
      IntLit(HexLit("0xBad_Face")), IntLit(OctalLit("0o755")), IntLit(BinaryLit("0b0101_0001"))])
  {
    IntegersFrom66(cc, IntegersInput);
    IntegersFrom14(cc, IntegersInput, [IntLit(RadixLit(Hex, "0xBad_Face"))]
      + ([IntLit(RadixLit(Octal, "0o755"))] + ([IntLit(RadixLit(Binary, "0b0101_0001"))] + [])));
    IntegersFrom0(cc, IntegersInput, [IntLit(DecimalLit("170_141_183_460_469_231_731_687_303_715_884_105_727"))]
      + ([IntLit(RadixLit(Hex, "0xBad_Face"))] + ([IntLit(RadixLit(Octal, "0o755"))]
      + ([IntLit(RadixLit(Binary, "0b0101_0001"))] + []))));
    IntegersTokens();
  }

  // ----- the third input of `test_numbers`: floats with and without an exponent -----

  /** Written in pieces, token by token and space by space. */
  const FloatsInput := "0." + " " + "72.40" + " " + "072.40" + " " + "2.71828" + " " + "1.e+0" + " "
    + "6.67428" + "e-11" + " " + "1E6" + " " + ".25" + " " + ".12345" + "E+5"

  lemma {:induction false} FloatsLayout(s: string)
    requires s == FloatsInput
    ensures |s| == 59 && s[2] == ' ' && s[8] == ' ' && s[15] == ' ' && s[23] == ' ' && s[29] == ' '
      && s[41] == ' ' && s[45] == ' ' && s[49] == ' '
  {
  }

  lemma {:induction false} FloatsToken0Shape(s: string)
    requires s == FloatsInput
    ensures PointStart(s, 0, 2) && 2 <= 2 <= |s| && FractionDigits(s, 2, 2)
  {
  }

  lemma {:induction false} FloatsToken0Text(s: string)
    requires s == FloatsInput
    ensures Delimited(s, 2) && s[0..2] == "0."
  {
  }

  lemma {:induction false} FloatsToken3Shape(s: string)
    requires s == FloatsInput
    ensures PointStart(s, 3, 6) && 6 <= 8 <= |s| && FractionDigits(s, 6, 8)
  {
  }

  lemma {:induction false} FloatsToken3Text(s: string)
    requires s == FloatsInput
    ensures Delimited(s, 8) && s[3..8] == "72.40"
  {
  }

  lemma {:induction false} FloatsToken9Shape(s: string)
    requires s == FloatsInput
    ensures PointStart(s, 9, 13) && 13 <= 15 <= |s| && FractionDigits(s, 13, 15)
  {
  }

  lemma {:induction false} FloatsToken9Text(s: string)
    requires s == FloatsInput
    ensures Delimited(s, 15) && s[9..15] == "072.40"
  {
  }

  lemma {:induction false} FloatsToken16Shape(s: string)
    requires s == FloatsInput
    ensures PointStart(s, 16, 18) && 18 <= 23 <= |s| && FractionDigits(s, 18, 23)
  {
  }

  lemma {:induction false} FloatsToken16Text(s: string)
    requires s == FloatsInput
    ensures Delimited(s, 23) && s[16..23] == "2.71828"
  {
  }

  lemma {:induction false} FloatsToken24Shape(s: string)
    requires s == FloatsInput
    ensures PointStart(s, 24, 26) && 26 <= 26 < |s| && FractionDigits(s, 26, 26)
      && (s[26] == 'e' || s[26] == 'E')
  {
  }

  lemma {:induction false} FloatsToken24Extent(s: string)
    requires s == FloatsInput
    ensures ExponentDigitsStart(s, 27) <= 29 <= |s| && Run(s, ExponentDigitsStart(s, 27), 29, IsDigit)
  {
  }

  lemma {:induction false} FloatsToken24Text(s: string)
    requires s == FloatsInput
    ensures Delimited(s, 29) && s[24..26] == "1." && s[26..29] == "e+0"
  {
  }

  lemma {:induction false} FloatsToken30Shape(s: string)
    requires s == FloatsInput
    ensures PointStart(s, 30, 32) && 32 <= 37 < |s| && FractionDigits(s, 32, 37)
      && (s[37] == 'e' || s[37] == 'E')
  {
  }

  lemma {:induction false} FloatsToken30Extent(s: string)
    requires s == FloatsInput
    ensures ExponentDigitsStart(s, 38) <= 41 <= |s| && Run(s, ExponentDigitsStart(s, 38), 41, IsDigit)
  {
  }

  lemma {:induction false} FloatsToken30Text(s: string)
    requires s == FloatsInput
    ensures Delimited(s, 41) && s[30..37] == "6.67428" && s[37..41] == "e-11"
  {
  }

  lemma {:induction false} FloatsToken42Shape(s: string)
    requires s == FloatsInput
    ensures 42 < 43 < |s| && IsDigit(s[42]) && (s[43] == 'e' || s[43] == 'E')
  {
  }

  lemma {:induction false} FloatsToken42Extent(s: string)
    requires s == FloatsInput
    ensures ExponentDigitsStart(s, 44) <= 45 <= |s| && Run(s, ExponentDigitsStart(s, 44), 45, IsDigit)
  {
  }

  lemma {:induction false} FloatsToken42Text(s: string)
    requires s == FloatsInput
    ensures Delimited(s, 45) && s[42..43] == "1" && s[43..45] == "E6"
  {
  }

  lemma {:induction false} FloatsToken46Shape(s: string)
    requires s == FloatsInput
    ensures PointStart(s, 46, 48) && 48 <= 49 <= |s| && FractionDigits(s, 48, 49)
  {
  }

  lemma {:induction false} FloatsToken46Text(s: string)
    requires s == FloatsInput
    ensures Delimited(s, 49) && s[46..49] == ".25"
  {
  }

  lemma {:induction false} FloatsToken50Shape(s: string)
    requires s == FloatsInput
    ensures PointStart(s, 50, 52) && 52 <= 56 < |s| && FractionDigits(s, 52, 56)
      && (s[56] == 'e' || s[56] == 'E')
  {
  }

  lemma {:induction false} FloatsToken50Extent(s: string)
    requires s == FloatsInput
    ensures ExponentDigitsStart(s, 57) <= 59 <= |s| && Run(s, ExponentDigitsStart(s, 57), 59, IsDigit)
  {
  }

  lemma {:induction false} FloatsToken50Text(s: string)
    requires s == FloatsInput
    ensures Delimited(s, 59) && s[50..56] == ".12345" && s[56..59] == "E+5"
  {
  }

  /** `0.`, `72.40` and `072.40`: a fraction may be empty, and a leading zero is allowed before one. */
  lemma {:induction false} FloatsChain0(cc: CharClasses, s: string, rest: seq<Token>)
    requires |s| == 59 && s[2] == ' ' && s[8] == ' ' && s[15] == ' '
    requires PointStart(s, 0, 2) && 2 <= 2 <= |s| && FractionDigits(s, 2, 2)
    requires Delimited(s, 2) && s[0..2] == "0."
    requires PointStart(s, 3, 6) && 6 <= 8 <= |s| && FractionDigits(s, 6, 8)
    requires Delimited(s, 8) && s[3..8] == "72.40"
    requires PointStart(s, 9, 13) && 13 <= 15 <= |s| && FractionDigits(s, 13, 15)
    requires Delimited(s, 15) && s[9..15] == "072.40"
    requires LexFrom(cc, s, 16) == Ok(rest)
    ensures LexFrom(cc, s, 0) == Ok([FloatLit(WithoutExp("0."))] + ([FloatLit(WithoutExp("72.40"))]
      + ([FloatLit(WithoutExp("072.40"))] + rest)))
  {
    SpaceStep(cc, s, 15, rest);
    PointStopStep(cc, s, 9, 13, 15, "072.40", rest);
    SpaceStep(cc, s, 8, [FloatLit(WithoutExp("072.40"))] + rest);
    PointStopStep(cc, s, 3, 6, 8, "72.40", [FloatLit(WithoutExp("072.40"))] + rest);
    SpaceStep(cc, s, 2, [FloatLit(WithoutExp("72.40"))] + ([FloatLit(WithoutExp("072.40"))] + rest));
    PointStopStep(cc, s, 0, 2, 2, "0.", [FloatLit(WithoutExp("72.40"))] + ([FloatLit(WithoutExp("072.40"))]
      + rest));
  }

  /** `2.71828`, `1.e+0` and `6.67428e-11`: an exponent after a fraction, with a sign. */
  lemma {:induction false} FloatsChain16(cc: CharClasses, s: string, rest: seq<Token>)
    requires |s| == 59 && s[23] == ' ' && s[29] == ' ' && s[41] == ' '
    requires PointStart(s, 16, 18) && 18 <= 23 <= |s| && FractionDigits(s, 18, 23)
    requires Delimited(s, 23) && s[16..23] == "2.71828"
    requires PointStart(s, 24, 26) && 26 <= 26 < |s| && FractionDigits(s, 26, 26)
      && (s[26] == 'e' || s[26] == 'E')
    requires ExponentDigitsStart(s, 27) <= 29 <= |s| && Run(s, ExponentDigitsStart(s, 27), 29, IsDigit)
    requires Delimited(s, 29) && s[24..26] == "1." && s[26..29] == "e+0"
    requires PointStart(s, 30, 32) && 32 <= 37 < |s| && FractionDigits(s, 32, 37)
      && (s[37] == 'e' || s[37] == 'E')
    requires ExponentDigitsStart(s, 38) <= 41 <= |s| && Run(s, ExponentDigitsStart(s, 38), 41, IsDigit)
    requires Delimited(s, 41) && s[30..37] == "6.67428" && s[37..41] == "e-11"
    requires LexFrom(cc, s, 42) == Ok(rest)
    ensures LexFrom(cc, s, 16) == Ok([FloatLit(WithoutExp("2.71828"))] + ([FloatLit(WithExp("1.", "e+0"))]
      + ([FloatLit(WithExp("6.67428", "e-11"))] + rest)))
  {
    SpaceStep(cc, s, 41, rest);
    PointExpStep(cc, s, 30, 32, 37, 41, "6.67428", "e-11", rest);
    SpaceStep(cc, s, 29, [FloatLit(WithExp("6.67428", "e-11"))] + rest);
    PointExpStep(cc, s, 24, 26, 26, 29, "1.", "e+0", [FloatLit(WithExp("6.67428", "e-11"))] + rest);
    SpaceStep(cc, s, 23, [FloatLit(WithExp("1.", "e+0"))] + ([FloatLit(WithExp("6.67428", "e-11"))] + rest));
    PointStopStep(cc, s, 16, 18, 23, "2.71828", [FloatLit(WithExp("1.", "e+0"))]
      + ([FloatLit(WithExp("6.67428", "e-11"))] + rest));
  }

  /** `1E6`, `.25` and `.12345E+5`: an exponent without a fraction, and literals that start with a point. */
  lemma {:induction false} FloatsChain42(cc: CharClasses, s: string)
    requires |s| == 59 && s[45] == ' ' && s[49] == ' '
    requires 42 < 43 < |s| && IsDigit(s[42]) && (s[43] == 'e' || s[43] == 'E')
    requires ExponentDigitsStart(s, 44) <= 45 <= |s| && Run(s, ExponentDigitsStart(s, 44), 45, IsDigit)
    requires Delimited(s, 45) && s[42..43] == "1" && s[43..45] == "E6"
    requires PointStart(s, 46, 48) && 48 <= 49 <= |s| && FractionDigits(s, 48, 49)
    requires Delimited(s, 49) && s[46..49] == ".25"
    requires PointStart(s, 50, 52) && 52 <= 56 < |s| && FractionDigits(s, 52, 56)
      && (s[56] == 'e' || s[56] == 'E')
    requires ExponentDigitsStart(s, 57) <= 59 <= |s| && Run(s, ExponentDigitsStart(s, 57), 59, IsDigit)
    requires Delimited(s, 59) && s[50..56] == ".12345" && s[56..59] == "E+5"
    ensures LexFrom(cc, s, 42) == Ok([FloatLit(WithExp("1", "E6"))] + ([FloatLit(WithoutExp(".25"))]
      + ([FloatLit(WithExp(".12345", "E+5"))] + [])))
  {
    EndStep(cc, s, 59);
    PointExpStep(cc, s, 50, 52, 56, 59, ".12345", "E+5", []);
    SpaceStep(cc, s, 49, [FloatLit(WithExp(".12345", "E+5"))] + []);
    PointStopStep(cc, s, 46, 48, 49, ".25", [FloatLit(WithExp(".12345", "E+5"))] + []);
    SpaceStep(cc, s, 45, [FloatLit(WithoutExp(".25"))] + ([FloatLit(WithExp(".12345", "E+5"))] + []));
    ExpStep(cc, s, 42, 43, 45, "1", "E6", [FloatLit(WithoutExp(".25"))]
      + ([FloatLit(WithExp(".12345", "E+5"))] + []));
  }

  lemma {:induction false} FloatsTokens()
    ensures [FloatLit(WithoutExp("0."))] + ([FloatLit(WithoutExp("72.40"))]
      + ([FloatLit(WithoutExp("072.40"))] + ([FloatLit(WithoutExp("2.71828"))]
      + ([FloatLit(WithExp("1.", "e+0"))] + ([FloatLit(WithExp("6.67428", "e-11"))]
      + ([FloatLit(WithExp("1", "E6"))] + ([FloatLit(WithoutExp(".25"))]
      + ([FloatLit(WithExp(".12345", "E+5"))] + []))))))))
         == [FloatLit(WithoutExp("0.")), FloatLit(WithoutExp("72.40")), FloatLit(WithoutExp("072.40")),
           FloatLit(WithoutExp("2.71828")), FloatLit(WithExp("1.", "e+0")),
           FloatLit(WithExp("6.67428", "e-11")), FloatLit(WithExp("1", "E6")), FloatLit(WithoutExp(".25")),
           FloatLit(WithExp(".12345", "E+5"))]
  {
  }

  /** The facts read off the input and the chain lemmas, token group by token group. */
  lemma {:induction false} FloatsFrom0(cc: CharClasses, s: string, rest: seq<Token>)
    requires s == FloatsInput && LexFrom(cc, s, 16) == Ok(rest)
    ensures LexFrom(cc, s, 0) == Ok([FloatLit(WithoutExp("0."))] + ([FloatLit(WithoutExp("72.40"))]
      + ([FloatLit(WithoutExp("072.40"))] + rest)))
  {
    FloatsLayout(s);
    FloatsToken0Shape(s);
    FloatsToken0Text(s);
    FloatsToken3Shape(s);
    FloatsToken3Text(s);
    FloatsToken9Shape(s);
    FloatsToken9Text(s);
    FloatsChain0(cc, s, rest);
  }

  lemma {:induction false} FloatsFrom16(cc: CharClasses, s: string, rest: seq<Token>)
    requires s == FloatsInput && LexFrom(cc, s, 42) == Ok(rest)
    ensures LexFrom(cc, s, 16) == Ok([FloatLit(WithoutExp("2.71828"))] + ([FloatLit(WithExp("1.", "e+0"))]
      + ([FloatLit(WithExp("6.67428", "e-11"))] + rest)))
  {
    FloatsLayout(s);
    FloatsToken16Shape(s);
    FloatsToken16Text(s);
    FloatsToken24Shape(s);
    FloatsToken24Extent(s);
    FloatsToken24Text(s);
    FloatsToken30Shape(s);
    FloatsToken30Extent(s);
    FloatsToken30Text(s);
    FloatsChain16(cc, s, rest);
  }

  lemma {:induction false} FloatsFrom42(cc: CharClasses, s: string)
    requires s == FloatsInput
    ensures LexFrom(cc, s, 42) == Ok([FloatLit(WithExp("1", "E6"))] + ([FloatLit(WithoutExp(".25"))]
      + ([FloatLit(WithExp(".12345", "E+5"))] + [])))
  {
    FloatsLayout(s);
    FloatsToken42Shape(s);
    FloatsToken42Extent(s);
    FloatsToken42Text(s);
    FloatsToken46Shape(s);
    FloatsToken46Text(s);
    FloatsToken50Shape(s);
    FloatsToken50Extent(s);
    FloatsToken50Text(s);
    FloatsChain42(cc, s);
  }

  /** The third input of `test_numbers`. */
  lemma {:induction false} FloatsTest(cc: CharClasses)
    ensures Lex(cc, FloatsInput) == Ok([FloatLit(WithoutExp("0.")), FloatLit(WithoutExp("72.40")),
      FloatLit(WithoutExp("072.40")), FloatLit(WithoutExp("2.71828")), FloatLit(WithExp("1.", "e+0")),
      FloatLit(WithExp("6.67428", "e-11")), FloatLit(WithExp("1", "E6")), FloatLit(WithoutExp(".25")),
      FloatLit(WithExp(".12345", "E+5"))])
  {
    FloatsFrom42(cc, FloatsInput);
    FloatsFrom16(cc, FloatsInput, [FloatLit(WithExp("1", "E6"))] + ([FloatLit(WithoutExp(".25"))]
      + ([FloatLit(WithExp(".12345", "E+5"))] + [])));
    FloatsFrom0(cc, FloatsInput, [FloatLit(WithoutExp("2.71828"))] + ([FloatLit(WithExp("1.", "e+0"))]
      + ([FloatLit(WithExp("6.67428", "e-11"))] + ([FloatLit(WithExp("1", "E6"))]
      + ([FloatLit(WithoutExp(".25"))] + ([FloatLit(WithExp(".12345", "E+5"))] + []))))));
    FloatsTokens();
  }
}
