/**
 * Total coverage: the tokens of a successful run spell out the input with its
 * whitespace removed. Every character that is not whitespace lands in exactly
 * one token, in order, and no token swallows whitespace.
 */
module Coverage {
  import opened Wrappers
  import opened Tokens
  import opened Chars
  import opened Scanning

  /**
   * What the Unicode database guarantees: no character with the White_Space
   * property is a letter or a decimal number.
   */
  predicate Consistent(cc: CharClasses) {
    forall c :: cc.whiteSpace(c) ==> !cc.letter(c) && !cc.decimalNumber(c)
  }

  /** The characters of `s[i..j]` that are not whitespace, in order. */
  function Visible(cc: CharClasses, s: string, i: nat, j: nat): string
    requires i <= j <= |s|
    decreases j - i
  {
    if i == j then [] else (if IsWhitespace(cc, s[i]) then [] else [s[i]]) + Visible(cc, s, i + 1, j)
  }

  /** No character of `s[i..j]` is whitespace. */
  predicate Solid(cc: CharClasses, s: string, i: nat, j: nat)
    requires i <= j <= |s|
  {
    forall k | i <= k < j :: !IsWhitespace(cc, s[k])
  }

  lemma {:induction false} VisibleSolid(cc: CharClasses, s: string, i: nat, j: nat)
    requires i <= j <= |s| && Solid(cc, s, i, j)
    ensures Visible(cc, s, i, j) == s[i..j]
    decreases j - i
  {
    if i < j {
      VisibleSolid(cc, s, i + 1, j);
      assert s[i..j] == [s[i]] + s[i + 1..j];
    }
  }

  lemma {:induction false} VisibleSplit(cc: CharClasses, s: string, i: nat, m: nat, j: nat)
    requires i <= m <= j <= |s|
    ensures Visible(cc, s, i, j) == Visible(cc, s, i, m) + Visible(cc, s, m, j)
    decreases m - i
  {
    if i < m {
      VisibleSplit(cc, s, i + 1, m, j);
      var head := if IsWhitespace(cc, s[i]) then [] else [s[i]];
      assert head + (Visible(cc, s, i + 1, m) + Visible(cc, s, m, j))
          == (head + Visible(cc, s, i + 1, m)) + Visible(cc, s, m, j);
    }
  }

  // ----- no scanner consumes whitespace -----

  lemma {:induction false} IdentCharSolid(cc: CharClasses, c: char)
    requires Consistent(cc) && IsIdentChar(cc, c)
    ensures !IsWhitespace(cc, c)
  {
    if !IsAscii(c) {
      assert cc.whiteSpace(c) ==> !cc.letter(c) && !cc.decimalNumber(c);
    }
  }

  lemma {:induction false} ScanIdentifierSolid(cc: CharClasses, s: string, start: nat, i: nat)
    requires Consistent(cc) && start < i <= |s| && Solid(cc, s, start, i)
    ensures Solid(cc, s, start, ScanIdentifier(cc, s, start, i).end)
  {
    var e := ScanIdentifier(cc, s, start, i).end;
    forall k | i <= k < e
      ensures !IsWhitespace(cc, s[k])
    {
      IdentCharSolid(cc, s[k]);
    }
  }

  // Numeric literals and operators are spelt with printable ASCII only, whatever
  // the Unicode tables say; these lemmas need no character classes.

  /** A printable ASCII character other than the space. */
  predicate Symbol(c: char) {
    '!' <= c <= '~'
  }

  /** Position `k` of `s` holds a printable ASCII character. */
  predicate SymbolAt(s: string, k: nat) {
    k < |s| && Symbol(s[k])
  }

  /** Every character of `s[i..j]` is printable ASCII. */
  predicate Symbols(s: string, i: nat, j: nat)
    requires i <= j <= |s|
  {
    forall k | i <= k < j :: SymbolAt(s, k)
  }

  lemma {:induction false} SymbolsSolid(cc: CharClasses, s: string, i: nat, j: nat)
    requires i <= j <= |s| && Symbols(s, i, j)
    ensures Solid(cc, s, i, j)
  {
    forall k | i <= k < j
      ensures !IsWhitespace(cc, s[k])
    {
      assert SymbolAt(s, k);
    }
  }

  lemma {:induction false} SymbolsJoin(s: string, i: nat, m: nat, j: nat)
    requires i <= m <= j <= |s| && Symbols(s, i, m) && Symbols(s, m, j)
    ensures Symbols(s, i, j)
  {
  }

  lemma {:induction false} SymbolsCons(s: string, i: nat, j: nat)
    requires i < j <= |s| && Symbol(s[i]) && Symbols(s, i + 1, j)
    ensures Symbols(s, i, j)
  {
  }

  lemma {:induction false} SymbolsSnoc(s: string, i: nat, j: nat)
    requires i <= j < |s| && Symbols(s, i, j) && Symbol(s[j])
    ensures Symbols(s, i, j + 1)
  {
  }

  /** A digit run in which every digit is a hexadecimal digit is printable. */
  lemma {:induction false} GroupedEndSymbols(s: string, i: nat, d: char -> bool)
    requires i <= |s| && forall c | d(c) :: IsHexDigit(c)
    ensures Symbols(s, i, GroupedEnd(s, i, d))
  {
    var r := GroupedEnd(s, i, d);
    GroupedEndDigits(s, i, d);
    forall k | i <= k < r
      ensures SymbolAt(s, k)
    {
      assert s[i..r][k - i] == s[k];
    }
  }

  lemma {:induction false} ScanRadixSymbols(s: string, p: nat, radix: Radix)
    requires p + 2 <= |s| && Symbols(s, p, p + 2)
    ensures Symbols(s, p, ScanRadix(s, p, p + 2, radix).end)
  {
    GroupedEndSymbols(s, p + 2, RadixDigit(radix));
    SymbolsJoin(s, p, p + 2, GroupedEnd(s, p + 2, RadixDigit(radix)));
  }

  lemma {:induction false} ScanSiSymbols(s: string, start: nat, i: nat, e: nat)
    requires start < i <= |s| && IsMultiplier(s[i - 1]) && Symbols(s, start, i - 1)
    requires e == ScanSi(s, start, i).end
    ensures e <= |s| && Symbols(s, start, e)
  {
  }

  /** An exponent marker, its sign and its digits are printable. */
  lemma {:induction false} ExponentSymbols(s: string, i: nat)
    requires 0 < i <= |s| && (s[i - 1] == 'e' || s[i - 1] == 'E')
    ensures ExponentDigitsStart(s, i) <= |s|
    ensures Symbols(s, i - 1, GroupedEnd(s, ExponentDigitsStart(s, i), IsDigit))
  {
    var j := ExponentDigitsStart(s, i);
    GroupedEndSymbols(s, j, IsDigit);
    SymbolsCons(s, i - 1, j);
  }

  lemma {:induction false} ScanFloatSymbols(s: string, start: nat, i: nat, e: nat)
    requires start < i <= |s| && (s[i - 1] == 'e' || s[i - 1] == 'E') && Symbols(s, start, i - 1)
    requires e == ScanFloat(s, start, i).end
    ensures e <= |s| && Symbols(s, start, e)
  {
    ScanFloatEnd(s, start, i);
    ExponentSymbols(s, i);
    SymbolsJoin(s, start, i - 1, e);
  }

  lemma {:induction false} ScanPointDecimalSymbols(s: string, start: nat, i: nat)
    requires start < i <= |s| && Symbols(s, start, i)
    ensures Symbols(s, start, ScanPointDecimal(s, start, i).end)
  {
    var x := PointDecimalEnd(s, i);
    PointDecimalEndDigits(s, i);
    FractionSymbols(s, start, i, x.at);
    match x
    case ToSi(m) => PointSiSymbols(s, start, i, m);
    case ToExp(m) => PointExponentSymbols(s, start, i, m);
    case Stop(m) => assert ScanPointDecimal(s, start, i).end == m;
  }

  lemma {:induction false} PointSiSymbols(s: string, start: nat, i: nat, m: nat)
    requires start < i <= |s| && PointDecimalEnd(s, i) == ToSi(m) && Symbols(s, start, m)
    ensures Symbols(s, start, ScanPointDecimal(s, start, i).end)
  {
    assert ScanPointDecimal(s, start, i) == ScanSi(s, start, m + 1);
    ScanSiSymbols(s, start, m + 1, ScanSi(s, start, m + 1).end);
  }

  lemma {:induction false} PointExponentSymbols(s: string, start: nat, i: nat, m: nat)
    requires start < i <= |s| && PointDecimalEnd(s, i) == ToExp(m) && Symbols(s, start, m)
    ensures Symbols(s, start, ScanPointDecimal(s, start, i).end)
  {
    assert ScanPointDecimal(s, start, i) == ScanFloat(s, start, m + 1);
    ScanFloatSymbols(s, start, m + 1, ScanFloat(s, start, m + 1).end);
  }

  /** Fraction digits after printable characters leave them printable. */
  lemma {:induction false} FractionSymbols(s: string, start: nat, i: nat, m: nat)
    requires start <= i <= m <= |s| && Symbols(s, start, i) && FractionDigits(s, i, m)
    ensures Symbols(s, start, m)
  {
    forall k | start <= k < m
      ensures SymbolAt(s, k)
    {
      if i <= k {
        assert IsDigit(s[k]) || s[k] == '_';
      }
    }
  }

  lemma {:induction false} DecimalPointSymbols(s: string, start: nat, j: nat, e: nat)
    requires start < j < |s| && s[j] == '.' && Symbols(s, start, j)
    requires e == ScanPointDecimal(s, start, j + 1).end
    ensures e <= |s| && Symbols(s, start, e)
  {
    SymbolsSnoc(s, start, j);
    ScanPointDecimalSymbols(s, start, j + 1);
  }

  /** The integer digits of a decimal literal are printable. */
  lemma {:induction false} IntegerSymbols(s: string, start: nat)
    requires start < |s| && IsDigit(s[start])
    ensures var j := GroupedEnd(s, start + 1, IsDigit);
      DigitsEndAt(s, start + 1, j) && Symbols(s, start, j)
  {
    var j := GroupedEnd(s, start + 1, IsDigit);
    GroupedEndSymbols(s, start + 1, IsDigit);
    SymbolsCons(s, start, j);
  }

  lemma {:induction false} DecimalPointCase(s: string, start: nat, j: nat)
    requires start < j && DigitsEndAt(s, start + 1, j) && Verify(s, j, '.') && Symbols(s, start, j)
    ensures ScanDecimal(s, start, start + 1).Emit? && Symbols(s, start, ScanDecimal(s, start, start + 1).end)
  {
    ScanDecimalPoint(s, start, start + 1, j);
    DecimalPointSymbols(s, start, j, ScanPointDecimal(s, start, j + 1).end);
  }

  lemma {:induction false} DecimalExponentCase(s: string, start: nat, j: nat)
    requires start < j && DigitsEndAt(s, start + 1, j) && !Verify(s, j, '.') && Symbols(s, start, j)
    requires Verify(s, j, 'e') || Verify(s, j, 'E')
    ensures ScanDecimal(s, start, start + 1).Emit? && Symbols(s, start, ScanDecimal(s, start, start + 1).end)
  {
    ScanDecimalExponent(s, start, start + 1, j);
    var x := ScanFloat(s, start, j + 1);
    ScanFloatSymbols(s, start, j + 1, x.end);
    assert ScanDecimal(s, start, start + 1) == Emit(x.token, x.end);
  }

  lemma {:induction false} DecimalSiCase(s: string, start: nat, j: nat)
    requires start < j && DigitsEndAt(s, start + 1, j) && Symbols(s, start, j)
    requires !Verify(s, j, '.') && !Verify(s, j, 'e') && !Verify(s, j, 'E') && VerifyPredicate(s, j, IsMultiplier)
    ensures ScanDecimal(s, start, start + 1).Emit? && Symbols(s, start, ScanDecimal(s, start, start + 1).end)
  {
    ScanDecimalSi(s, start, start + 1, j);
    ScanSiSymbols(s, start, j + 1, ScanSi(s, start, j + 1).end);
  }

  lemma {:induction false} ScanDecimalSymbols(s: string, start: nat)
    requires start < |s| && IsDigit(s[start])
    ensures ScanDecimal(s, start, start + 1).Emit? ==> Symbols(s, start, ScanDecimal(s, start, start + 1).end)
  {
    var j := GroupedEnd(s, start + 1, IsDigit);
    IntegerSymbols(s, start);
    if Verify(s, j, '.') {
      DecimalPointCase(s, start, j);
    } else if Verify(s, j, 'e') || Verify(s, j, 'E') {
      DecimalExponentCase(s, start, j);
    } else if VerifyPredicate(s, j, IsMultiplier) {
      DecimalSiCase(s, start, j);
    } else {
      ScanDecimalInteger(s, start, start + 1, j);
    }
  }

  /** What the numeric cases of the driver loop emit is printable. */
  lemma {:induction false} DispatchNumberSymbols(s: string, p: nat)
    requires p < |s| && StartsNumber(s, p)
    ensures DispatchNumber(s, p).Emit? ==> Symbols(s, p, DispatchNumber(s, p).end)
  {
    var c := s[p];
    if c == '0' && Verify(s, p + 1, 'b') {
      ScanRadixSymbols(s, p, Binary);
    } else if c == '0' && Verify(s, p + 1, 'o') {
      ScanRadixSymbols(s, p, Octal);
    } else if c == '0' && (Verify(s, p + 1, 'x') || Verify(s, p + 1, 'X')) {
      ScanRadixSymbols(s, p, Hex);
    } else if IsDigit(c) {
      ScanDecimalSymbols(s, p);
    } else {
      ScanPointDecimalSymbols(s, p, p + 2);
    }
  }

  lemma {:induction false} OperatorSymbols(s: string, p: nat)
    requires p < |s| && Operator(s, p).Some?
    ensures Symbols(s, p, Operator(s, p).value.end)
  {
    var c := s[p];
    assert OneCharOperator(c).Some?;
    OperatorStart(c);
    if p + 1 < |s| && TwoCharOperator(c, s[p + 1]).Some? {
      OperatorSecond(c, s[p + 1]);
      assert Operator(s, p).value.end == p + 2;
    } else {
      assert Operator(s, p).value.end == p + 1;
    }
  }

  /** The second character of a two-character operator is printable. */
  lemma {:induction false} OperatorSecond(c: char, d: char)
    requires TwoCharOperator(c, d).Some?
    ensures Symbol(d)
  {
  }

  /** The operator and punctuation tokens are spelt with printable ASCII only. */
  lemma {:induction false} FixedTokenSymbols(s: string, p: nat)
    requires p < |s| && FixedToken(s, p).Some?
    ensures Symbols(s, p, FixedToken(s, p).value.end)
  {
    var c := s[p];
    if Punctuation(c).Some? {
      assert Symbol(c);
    } else if Operator(s, p).Some? {
      OperatorSymbols(s, p);
    }
  }

  /** The identifier cases of the driver loop emit no whitespace. */
  lemma {:induction false} DispatchWordSolid(cc: CharClasses, s: string, p: nat)
    requires Consistent(cc) && p < |s| && FixedToken(s, p).None?
    ensures DispatchOther(cc, s, p).Emit? ==> Solid(cc, s, p, DispatchOther(cc, s, p).end)
  {
    var c := s[p];
    if c == '#' && VerifyPredicate(s, p + 1, x => IsLetter(cc, x)) {
      IdentCharSolid(cc, s[p + 1]);
      ScanIdentifierSolid(cc, s, p, p + 2);
    } else if c == '_' && Verify(s, p + 1, '#') && VerifyPredicate(s, p + 2, x => IsLetter(cc, x)) {
      IdentCharSolid(cc, s[p + 2]);
      ScanIdentifierSolid(cc, s, p, p + 3);
    } else if IsLetter(cc, c) {
      IdentCharSolid(cc, c);
      ScanIdentifierSolid(cc, s, p, p + 1);
    }
  }

  /** What the driver loop emits at `p` covers no whitespace. */
  lemma {:induction false} DispatchSolid(cc: CharClasses, s: string, p: nat)
    requires Consistent(cc) && p < |s|
    ensures Dispatch(cc, s, p).Emit? ==> Solid(cc, s, p, Dispatch(cc, s, p).end)
  {
    if StartsNumber(s, p) {
      DispatchNumberSymbols(s, p);
      if DispatchNumber(s, p).Emit? {
        SymbolsSolid(cc, s, p, DispatchNumber(s, p).end);
      }
    } else if FixedToken(s, p).Some? {
      FixedTokenSymbols(s, p);
      SymbolsSolid(cc, s, p, FixedToken(s, p).value.end);
    } else {
      DispatchWordSolid(cc, s, p);
    }
  }

  // ----- the whole run -----

  lemma {:induction false} SpellCons(t: Token, ts: seq<Token>)
    requires Scannable(t) && forall k | 0 <= k < |ts| :: Scannable(ts[k])
    ensures forall k | 0 <= k < |[t] + ts| :: Scannable(([t] + ts)[k])
    ensures Spell([t] + ts) == Spelling(t) + Spell(ts)
  {
    assert ([t] + ts)[0] == t;
    assert ([t] + ts)[1..] == ts;
  }

  /** A token emitted at `p` followed by tokens covering their part of the input covers the input from `p`. */
  lemma {:induction false} EmitCoverage(cc: CharClasses, s: string, p: nat, t: Token, n: nat, us: seq<Token>)
    requires Consistent(cc) && p < |s| && Dispatch(cc, s, p) == Emit(t, n)
    requires forall k | 0 <= k < |us| :: Scannable(us[k])
    requires Spell(us) == Visible(cc, s, n, |s|)
    ensures forall k | 0 <= k < |[t] + us| :: Scannable(([t] + us)[k])
    ensures Spell([t] + us) == Visible(cc, s, p, |s|)
  {
    DispatchSolid(cc, s, p);
    VisibleSolid(cc, s, p, n);
    VisibleSplit(cc, s, p, n, |s|);
    SpellCons(t, us);
  }

  /** One step of the driver loop, seen from what it leaves to the rest of the run. */
  lemma {:induction false} LexFromStep(cc: CharClasses, s: string, p: nat)
    requires p < |s|
    ensures Dispatch(cc, s, p).Fail? ==> LexFrom(cc, s, p).Err?
    ensures Dispatch(cc, s, p).Skip? ==> LexFrom(cc, s, p) == LexFrom(cc, s, p + 1)
    ensures Dispatch(cc, s, p).Emit? ==>
      LexFrom(cc, s, p) == Prepend([Dispatch(cc, s, p).token], LexFrom(cc, s, Dispatch(cc, s, p).end))
  {
  }

  /** A skipped character is whitespace and so adds nothing to the visible text. */
  lemma {:induction false} SkipVisible(cc: CharClasses, s: string, p: nat)
    requires p < |s| && IsWhitespace(cc, s[p])
    ensures Visible(cc, s, p, |s|) == Visible(cc, s, p + 1, |s|)
  {
  }

  /** Covering the input after a skipped character covers it from that character. */
  lemma {:induction false} SkipCoverage(cc: CharClasses, s: string, p: nat)
    requires p < |s| && Dispatch(cc, s, p).Skip?
    requires LexFrom(cc, s, p + 1).Ok? ==> Spell(LexFrom(cc, s, p + 1).value) == Visible(cc, s, p + 1, |s|)
    ensures LexFrom(cc, s, p).Ok? ==> Spell(LexFrom(cc, s, p).value) == Visible(cc, s, p, |s|)
  {
    LexFromStep(cc, s, p);
    SkipVisible(cc, s, p);
  }

  /** Covering the input after an emitted token covers it from the token's start. */
  lemma {:induction false} EmitStepCoverage(cc: CharClasses, s: string, p: nat)
    requires Consistent(cc) && p < |s| && Dispatch(cc, s, p).Emit?
    requires var n := Dispatch(cc, s, p).end;
      LexFrom(cc, s, n).Ok? ==> Spell(LexFrom(cc, s, n).value) == Visible(cc, s, n, |s|)
    ensures LexFrom(cc, s, p).Ok? ==> Spell(LexFrom(cc, s, p).value) == Visible(cc, s, p, |s|)
  {
    var o := Dispatch(cc, s, p);
    LexFromStep(cc, s, p);
    if LexFrom(cc, s, o.end).Ok? {
      EmitCoverage(cc, s, p, o.token, o.end, LexFrom(cc, s, o.end).value);
    }
  }

  /** A successful run from cursor `p` spells out the rest of the input without its whitespace. */
  predicate CoveredFrom(cc: CharClasses, s: string, p: nat)
    requires p <= |s|
  {
    LexFrom(cc, s, p).Ok? ==> Spell(LexFrom(cc, s, p).value) == Visible(cc, s, p, |s|)
  }

  /** Where the driver goes on after the iteration at `p` (the end of the input after a failure). */
  function Next(cc: CharClasses, s: string, p: nat): (q: nat)
    requires p < |s|
    ensures p < q <= |s|
  {
    match Dispatch(cc, s, p)
    case Skip(n) => n
    case Emit(_, n) => n
    case Fail(_) => |s|
  }

  /** One iteration of the driver keeps the coverage of what follows it. */
  lemma {:induction false} CoverageStep(cc: CharClasses, s: string, p: nat)
    requires Consistent(cc) && p < |s| && CoveredFrom(cc, s, Next(cc, s, p))
    ensures CoveredFrom(cc, s, p)
  {
    var o := Dispatch(cc, s, p);
    if o.Skip? {
      SkipCoverage(cc, s, p);
    } else if o.Emit? {
      EmitStepCoverage(cc, s, p);
    } else {
      LexFromStep(cc, s, p);
    }
  }

  lemma {:induction false} LexFromCoverage(cc: CharClasses, s: string, p: nat)
    requires Consistent(cc) && p <= |s|
    ensures CoveredFrom(cc, s, p)
    decreases |s| - p
  {
    if p < |s| {
      LexFromCoverage(cc, s, Next(cc, s, p));
      CoverageStep(cc, s, p);
    }
  }

  lemma {:induction false} Coverage(cc: CharClasses, s: string)
    requires Consistent(cc)
    ensures Lex(cc, s).Ok? ==> Spell(Lex(cc, s).value) == Visible(cc, s, 0, |s|)
  {
    LexFromCoverage(cc, s, 0);
    assert CoveredFrom(cc, s, 0);
  }
}
