/**
 * A reference description of the lexer as functions over the input text.
 *
 * Each function takes the input `s`, the position `start` where the current
 * token begins (the lexer's cursor) and the position `i` where the routine
 * resumes scanning, and returns the token together with the position just past
 * the consumed text. `Dispatch` is one iteration of the driver loop and
 * `LexFrom` the whole loop.
 */
module Scanning {
  import opened Wrappers
  import opened Tokens
  import opened Chars

  /** The two conditions on which the lexer aborts. */
  datatype LexError =
    | LeadingZero(text: string, start: nat, end: nat)
    | UnexpectedChar(c: char, position: nat)

  /** A token and the position just past the text it was scanned from. */
  datatype Scanned = Scanned(token: Token, end: nat)

  /** What one iteration of the driver loop does. */
  datatype Outcome =
    | Emit(token: Token, end: nat)
    | Skip(end: nat)
    | Fail(error: LexError)

  /** A sub-scanner's result as the outcome of an iteration. */
  function EmitScanned(x: Scanned): Outcome {
    Emit(x.token, x.end)
  }

  // ----- access to the input -----

  function Get(s: string, i: nat): Option<char> {
    if i < |s| then Some(s[i]) else None
  }

  function GetStr(s: string, i: nat, j: nat): string
    requires i <= j <= |s|
  {
    s[i..j]
  }

  predicate CheckPos(s: string, i: nat) {
    i >= |s|
  }

  /** Position `i` exists and holds `c`. */
  predicate Verify(s: string, i: nat, c: char) {
    i < |s| && s[i] == c
  }

  /** Position `i` exists and its character satisfies `f`. */
  predicate VerifyPredicate(s: string, i: nat, f: char -> bool) {
    i < |s| && f(s[i])
  }

  /** Both tests are "the position is not past the end, and the character there passes". */
  lemma {:induction false} VerifyUnwraps(s: string, i: nat, c: char, f: char -> bool)
    ensures Verify(s, i, c) <==> !CheckPos(s, i) && Get(s, i).value == c
    ensures VerifyPredicate(s, i, f) <==> !CheckPos(s, i) && f(Get(s, i).value)
  {
  }

  // ----- identifiers -----

  /** The words with a token of their own. */
  const ReservedWords: map<string, Token> := map[
    "null" := Null, "true" := BConst(true), "false" := BConst(false),
    "package" := Package, "import" := Import, "for" := For, "in" := In,
    "if" := If, "let" := Let]

  predicate HasDunderPrefix(w: string) {
    |w| >= 2 && w[..2] == "__"
  }

  /** The token for a scanned word. */
  function ClassifyWord(w: string): (t: Token)
    ensures Scannable(t) && Spelling(t) == w
  {
    if w == "null" then Null
    else if w == "true" then BConst(true)
    else if w == "false" then BConst(false)
    else if w == "package" then Package
    else if w == "import" then Import
    else if w == "for" then For
    else if w == "in" then In
    else if w == "if" then If
    else if w == "let" then Let
    else if HasDunderPrefix(w) then Keyword(w)
    else Identifier(w)
  }

  /**
   * A reserved word gets its own token; any other word is a keyword when it
   * starts with `__` and an identifier otherwise.
   */
  lemma {:induction false} ClassifyWordCases(w: string)
    ensures w in ReservedWords ==> ClassifyWord(w) == ReservedWords[w]
    ensures ClassifyWord(w).Keyword? <==> w !in ReservedWords && HasDunderPrefix(w)
    ensures ClassifyWord(w).Identifier? <==> w !in ReservedWords && !HasDunderPrefix(w)
  {
  }

  /** A word that starts with `#`, or with `_#`, is neither reserved nor a keyword; it scans as an identifier. */
  lemma {:induction false} HashWordIdentifier(w: string)
    requires |w| >= 2 && (w[0] == '#' || (w[0] == '_' && w[1] == '#'))
    ensures ClassifyWord(w) == Identifier(w)
  {
    assert w[..2] != "__" by {
      assert w[..2][1] == w[1];
    }
    assert w != "null" && w != "true" && w != "false" && w != "package" && w != "import" by {
      assert "null"[0] != w[0] && "true"[0] != w[0] && "false"[0] != w[0];
      assert "package"[0] != w[0] && "import"[0] != w[0];
    }
    assert w != "for" && w != "in" && w != "if" && w != "let" by {
      assert "for"[0] != w[0] && "in"[0] != w[0] && "if"[0] != w[0] && "let"[0] != w[0];
    }
  }

  predicate IsIdentChar(cc: CharClasses, c: char) {
    IsLetter(cc, c) || IsUnicodeDigit(cc, c)
  }

  /** The end of the longest run of letters and Unicode digits from `i`. */
  function IdentEnd(cc: CharClasses, s: string, i: nat): (r: nat)
    requires i <= |s|
    ensures i <= r <= |s|
    ensures forall k | i <= k < r :: IsIdentChar(cc, s[k])
    ensures r < |s| ==> !IsIdentChar(cc, s[r])
    decreases |s| - i
  {
    if i < |s| && IsIdentChar(cc, s[i]) then IdentEnd(cc, s, i + 1) else i
  }

  function ScanIdentifier(cc: CharClasses, s: string, start: nat, i: nat): (r: Scanned)
    requires start < i <= |s|
    ensures i <= r.end <= |s|
    ensures var e := r.end; r.token == ClassifyWord(s[start..e])
    ensures var e := r.end; Scannable(r.token) && Spelling(r.token) == s[start..e]
    ensures forall k | i <= k < r.end :: IsIdentChar(cc, s[k])
    ensures r.end < |s| ==> !IsIdentChar(cc, s[r.end])
  {
    var e := IdentEnd(cc, s, i);
    Scanned(ClassifyWord(s[start..e]), e)
  }

  // ----- digit runs with `_` separators -----

  /** `t` is a run of `d`-digits in which every `_` is followed by a digit. */
  predicate DigitGroups(t: string, d: char -> bool) {
    forall k | 0 <= k < |t| :: d(t[k]) || (t[k] == '_' && k + 1 < |t| && d(t[k + 1]))
  }

  /** No further digit, and no `_` followed by a digit, at position `r`. */
  predicate GroupStop(s: string, r: nat, d: char -> bool) {
    !VerifyPredicate(s, r, d) && !(Verify(s, r, '_') && VerifyPredicate(s, r + 1, d))
  }

  /** The end of the digit run from `i`, a `_` being taken only together with the digit after it. */
  function GroupedEnd(s: string, i: nat, d: char -> bool): (r: nat)
    requires i <= |s|
    ensures i <= r <= |s|
    ensures GroupStop(s, r, d)
    decreases |s| - i
  {
    if VerifyPredicate(s, i, d) then GroupedEnd(s, i + 1, d)
    else if Verify(s, i, '_') && VerifyPredicate(s, i + 1, d) then GroupedEnd(s, i + 2, d)
    else i
  }

  /** What the run from `i` consumes is digits, each `_` among them standing before a digit. */
  lemma {:induction false} GroupedEndDigits(s: string, i: nat, d: char -> bool)
    requires i <= |s|
    ensures DigitGroups(s[i..GroupedEnd(s, i, d)], d)
    decreases |s| - i
  {
    var r := GroupedEnd(s, i, d);
    if VerifyPredicate(s, i, d) {
      GroupedEndDigits(s, i + 1, d);
      forall k | 0 <= k < |s[i..r]|
        ensures d(s[i..r][k]) || (s[i..r][k] == '_' && k + 1 < |s[i..r]| && d(s[i..r][k + 1]))
      {
        if k > 0 {
          assert s[i..r][k] == s[i + 1..r][k - 1];
          assert k + 1 < |s[i..r]| ==> s[i..r][k + 1] == s[i + 1..r][k];
        }
      }
    } else if Verify(s, i, '_') && VerifyPredicate(s, i + 1, d) {
      GroupedEndDigits(s, i + 2, d);
      forall k | 0 <= k < |s[i..r]|
        ensures d(s[i..r][k]) || (s[i..r][k] == '_' && k + 1 < |s[i..r]| && d(s[i..r][k + 1]))
      {
        if k > 1 {
          assert s[i..r][k] == s[i + 2..r][k - 2];
          assert k + 1 < |s[i..r]| ==> s[i..r][k + 1] == s[i + 2..r][k - 1];
        }
      }
    }
  }

  // ----- binary, octal and hexadecimal literals -----

  datatype Radix = Binary | Octal | Hex

  function RadixDigit(radix: Radix): char -> bool {
    match radix
    case Binary => IsBinaryDigit
    case Octal => IsOctalDigit
    case Hex => IsHexDigit
  }

  function RadixLit(radix: Radix, text: string): IntLit {
    match radix
    case Binary => BinaryLit(text)
    case Octal => OctalLit(text)
    case Hex => HexLit(text)
  }

  function ScanRadix(s: string, start: nat, i: nat, radix: Radix): (r: Scanned)
    requires start < i <= |s|
    ensures i <= r.end <= |s|
    ensures var e := r.end; r.token == IntLit(RadixLit(radix, s[start..e]))
    ensures GroupStop(s, r.end, RadixDigit(radix))
  {
    var e := GroupedEnd(s, i, RadixDigit(radix));
    Scanned(IntLit(RadixLit(radix, s[start..e])), e)
  }

  /** Past the prefix, a radix literal holds only digits of its radix and `_`s each followed by one. */
  lemma {:induction false} ScanRadixDigits(s: string, start: nat, i: nat, radix: Radix)
    requires start < i <= |s|
    ensures DigitGroups(s[i..ScanRadix(s, start, i, radix).end], RadixDigit(radix))
  {
    GroupedEndDigits(s, i, RadixDigit(radix));
  }

  // ----- SI suffixes and exponents -----

  /** The multiplier at `i - 1` ends the mantissa; an `i` right after it joins the unit. */
  function ScanSi(s: string, start: nat, i: nat): (r: Scanned)
    requires start < i <= |s| && IsMultiplier(s[i - 1])
    ensures r.end == i + 1 <==> Verify(s, i, 'i')
    ensures r.end == i || r.end == i + 1
    ensures r.end <= |s|
    ensures var e := r.end; r.token == IntLit(SiLit(s[start..i - 1], s[i - 1..e]))
    ensures var e := r.end; Spelling(r.token) == s[start..e]
  {
    if Verify(s, i, 'i') then
      Scanned(IntLit(SiLit(GetStr(s, start, i - 1), GetStr(s, i - 1, i + 1))), i + 1)
    else
      Scanned(IntLit(SiLit(GetStr(s, start, i - 1), GetStr(s, i - 1, i))), i)
  }

  /** An exponent: `e` or `E`, at most one sign, then a digit run. */
  predicate ExponentShape(e: string) {
    && |e| >= 1 && (e[0] == 'e' || e[0] == 'E')
    && DigitGroups(if |e| >= 2 && (e[1] == '+' || e[1] == '-') then e[2..] else e[1..], IsDigit)
  }

  /** Where the exponent digits of a float scanned at `i` begin: after the sign, if there is one. */
  function ExponentDigitsStart(s: string, i: nat): (j: nat)
    ensures j == i + 1 <==> Verify(s, i, '+') || Verify(s, i, '-')
    ensures j == i || j == i + 1
  {
    if Verify(s, i, '+') || Verify(s, i, '-') then i + 1 else i
  }

  /** The exponent marker is at `i - 1`; the mantissa is everything before it. */
  function ScanFloat(s: string, start: nat, i: nat): (r: Scanned)
    requires start < i <= |s| && (s[i - 1] == 'e' || s[i - 1] == 'E')
    ensures i <= r.end <= |s|
    ensures var e := r.end; r.token == FloatLit(WithExp(s[start..i - 1], s[i - 1..e]))
    ensures GroupStop(s, r.end, IsDigit)
    ensures var e := r.end; Spelling(r.token) == s[start..e]
  {
    var expStart := i - 1;
    var j := ExponentDigitsStart(s, i);
    var e := GroupedEnd(s, j, IsDigit);
    Scanned(FloatLit(WithExp(s[start..expStart], s[expStart..e])), e)
  }

  /** The float scan ends where the exponent digits do. */
  lemma {:induction false} ScanFloatEnd(s: string, start: nat, i: nat)
    requires start < i <= |s| && (s[i - 1] == 'e' || s[i - 1] == 'E')
    ensures ExponentDigitsStart(s, i) <= |s|
    ensures ScanFloat(s, start, i).end == GroupedEnd(s, ExponentDigitsStart(s, i), IsDigit)
  {
  }

  /** The exponent of a float literal is a marker, an optional sign and a digit run (possibly empty). */
  lemma {:induction false} ScanFloatExponent(s: string, start: nat, i: nat)
    requires start < i <= |s| && (s[i - 1] == 'e' || s[i - 1] == 'E')
    ensures ExponentShape(s[i - 1..ScanFloat(s, start, i).end])
  {
    var j := ExponentDigitsStart(s, i);
    var e := ScanFloat(s, start, i).end;
    ScanFloatEnd(s, start, i);
    GroupedEndDigits(s, j, IsDigit);
    assert s[i - 1..e][1..] == s[i..e];
    assert j == i + 1 ==> s[i - 1..e][2..] == s[j..e];
  }

  // ----- the digits after a decimal point -----

  /**
   * Where the digits after a point stop, as the position `at` just past them:
   * at a multiplier (which is at `at`), at an exponent marker (at `at`), or plainly.
   */
  datatype PointExit = ToSi(at: nat) | ToExp(at: nat) | Stop(at: nat)

  /** The fraction digits: ASCII digits, each `_` standing between two digits. */
  predicate FractionDigits(s: string, i: nat, m: nat)
    requires m <= |s|
  {
    forall k | i <= k < m ::
      IsDigit(s[k]) || (s[k] == '_' && i < k && IsDigit(s[k - 1]) && k + 1 < m && IsDigit(s[k + 1]))
  }

  /** The conditions under which the fraction scan from `i` leaves at `x`. */
  predicate PointExitAt(s: string, i: nat, x: PointExit) {
    match x
    case ToSi(m) => i < m < |s| && IsDigit(s[m - 1]) && IsMultiplier(s[m])
    case ToExp(m) => m < |s| && (s[m] == 'e' || s[m] == 'E')
    case Stop(m) =>
      && !VerifyPredicate(s, m, IsDigit) && !Verify(s, m, 'e') && !Verify(s, m, 'E')
      && (i < m ==> !VerifyPredicate(s, m, IsMultiplier) && !(Verify(s, m, '_') && VerifyPredicate(s, m + 1, IsDigit)))
  }

  function PointDecimalEnd(s: string, i: nat): (r: PointExit)
    requires i <= |s|
    ensures i <= r.at <= |s|
    ensures r.ToSi? ==> i < r.at < |s| && IsDigit(s[r.at - 1]) && IsMultiplier(s[r.at])
    ensures r.ToExp? ==> r.at < |s| && (s[r.at] == 'e' || s[r.at] == 'E')
    ensures r.Stop? ==> !VerifyPredicate(s, r.at, IsDigit) && !Verify(s, r.at, 'e') && !Verify(s, r.at, 'E')
    decreases |s| - i
  {
    if VerifyPredicate(s, i, IsDigit) && VerifyPredicate(s, i + 1, IsMultiplier) then ToSi(i + 1)
    else if VerifyPredicate(s, i, IsDigit) && Verify(s, i + 1, '_') && VerifyPredicate(s, i + 2, IsDigit) then
      PointDecimalEnd(s, i + 2)
    else if Verify(s, i, 'e') || Verify(s, i, 'E') then ToExp(i)
    else if VerifyPredicate(s, i, IsDigit) then PointDecimalEnd(s, i + 1)
    else Stop(i)
  }

  /** The fraction scan consumes digits only, each `_` standing between two of them. */
  lemma {:induction false} PointDecimalEndDigits(s: string, i: nat)
    requires i <= |s|
    ensures FractionDigits(s, i, PointDecimalEnd(s, i).at)
    decreases |s| - i
  {
    if VerifyPredicate(s, i, IsDigit) && VerifyPredicate(s, i + 1, IsMultiplier) {
    } else if VerifyPredicate(s, i, IsDigit) && Verify(s, i + 1, '_') && VerifyPredicate(s, i + 2, IsDigit) {
      PointDecimalEndDigits(s, i + 2);
    } else if Verify(s, i, 'e') || Verify(s, i, 'E') {
    } else if VerifyPredicate(s, i, IsDigit) {
      PointDecimalEndDigits(s, i + 1);
    }
  }

  function ScanPointDecimal(s: string, start: nat, i: nat): (r: Scanned)
    requires start < i <= |s|
    ensures i <= r.end <= |s|
    ensures var e := r.end; Scannable(r.token) && Spelling(r.token) == s[start..e]
    ensures (r.token.IntLit? && r.token.intLit.SiLit?) || r.token.FloatLit?
  {
    match PointDecimalEnd(s, i)
    case ToSi(m) => ScanSi(s, start, m + 1)
    case ToExp(m) => ScanFloat(s, start, m + 1)
    case Stop(m) => Scanned(FloatLit(WithoutExp(s[start..m])), m)
  }

  // How the fraction scan goes on from a position `i` it has reached, case by case.

  lemma {:induction false} ScanPointDecimalSi(s: string, start: nat, i0: nat, i: nat)
    requires start < i0 <= i <= |s| && PointDecimalEnd(s, i) == PointDecimalEnd(s, i0)
    requires VerifyPredicate(s, i, IsDigit) && VerifyPredicate(s, i + 1, IsMultiplier)
    ensures IsMultiplier(s[i + 1])
    ensures ScanPointDecimal(s, start, i0) == ScanSi(s, start, i + 2)
  {
  }

  lemma {:induction false} ScanPointDecimalExponent(s: string, start: nat, i0: nat, i: nat)
    requires start < i0 <= i < |s| && PointDecimalEnd(s, i) == PointDecimalEnd(s, i0)
    requires s[i] == 'e' || s[i] == 'E'
    ensures ScanPointDecimal(s, start, i0) == ScanFloat(s, start, i + 1)
  {
    assert PointDecimalEnd(s, i) == ToExp(i);
    assert PointDecimalEnd(s, i0) == ToExp(i);
  }

  lemma {:induction false} ScanPointDecimalStop(s: string, start: nat, i0: nat, i: nat)
    requires start < i0 <= i <= |s| && PointDecimalEnd(s, i) == PointDecimalEnd(s, i0)
    requires !VerifyPredicate(s, i, IsDigit) && !Verify(s, i, 'e') && !Verify(s, i, 'E')
    ensures ScanPointDecimal(s, start, i0) == Scanned(FloatLit(WithoutExp(s[start..i])), i)
  {
  }

  // ----- decimal literals -----

  /** The test the decimal scanner applies to the literal's first character. */
  predicate IsNotZero(c: char) {
    c != '0'
  }

  /** A decimal integer may start with `0` only when it is `0` itself. */
  predicate LeadingZeroAllowed(text: string) {
    text == "0" || (|text| > 0 && text[0] != '0')
  }

  function ScanDecimal(s: string, start: nat, i: nat): (r: Outcome)
    requires start < i <= |s|
    ensures !r.Skip?
    ensures r.Emit? ==> var e := r.end; i <= e <= |s| && Scannable(r.token) && Spelling(r.token) == s[start..e]
    ensures r.Emit? && r.token.IntLit? && r.token.intLit.DecimalLit? ==> LeadingZeroAllowed(r.token.intLit.text)
    ensures r.Fail? ==>
      r.error.LeadingZero? && var e := r.error.end; r.error.start == start && i <= e <= |s| && r.error.text == s[start..e]
    ensures r.Fail? ==> !LeadingZeroAllowed(r.error.text)
  {
    var j := GroupedEnd(s, i, IsDigit);
    if Verify(s, j, '.') then
      EmitScanned(ScanPointDecimal(s, start, j + 1))
    else if Verify(s, j, 'e') || Verify(s, j, 'E') then
      EmitScanned(ScanFloat(s, start, j + 1))
    else if VerifyPredicate(s, j, IsMultiplier) then
      EmitScanned(ScanSi(s, start, j + 1))
    else
      var text := s[start..j];
      if text == "0" || VerifyPredicate(s, start, IsNotZero) then Emit(IntLit(DecimalLit(text)), j)
      else Fail(LeadingZero(text, start, j))
  }

  /** The integer digits of a decimal literal scanned from `i0` end at `i`. */
  predicate DigitsEndAt(s: string, i0: nat, i: nat) {
    && i0 <= i <= |s| && GroupedEnd(s, i, IsDigit) == GroupedEnd(s, i0, IsDigit)
    && !VerifyPredicate(s, i, IsDigit) && !(Verify(s, i, '_') && VerifyPredicate(s, i + 1, IsDigit))
  }

  // How the decimal scan goes on once the integer digits end, case by case.

  lemma {:induction false} ScanDecimalPoint(s: string, start: nat, i0: nat, i: nat)
    requires start < i0 && DigitsEndAt(s, i0, i) && Verify(s, i, '.')
    ensures ScanDecimal(s, start, i0) == EmitScanned(ScanPointDecimal(s, start, i + 1))
  {
  }

  lemma {:induction false} ScanDecimalExponent(s: string, start: nat, i0: nat, i: nat)
    requires start < i0 && DigitsEndAt(s, i0, i) && !Verify(s, i, '.') && (Verify(s, i, 'e') || Verify(s, i, 'E'))
    ensures s[i] == 'e' || s[i] == 'E'
    ensures ScanDecimal(s, start, i0) == EmitScanned(ScanFloat(s, start, i + 1))
  {
  }

  lemma {:induction false} ScanDecimalSi(s: string, start: nat, i0: nat, i: nat)
    requires start < i0 && DigitsEndAt(s, i0, i) && !Verify(s, i, '.') && !Verify(s, i, 'e') && !Verify(s, i, 'E')
    requires VerifyPredicate(s, i, IsMultiplier)
    ensures IsMultiplier(s[i])
    ensures ScanDecimal(s, start, i0) == EmitScanned(ScanSi(s, start, i + 1))
  {
  }

  lemma {:induction false} ScanDecimalInteger(s: string, start: nat, i0: nat, i: nat)
    requires start < i0 && DigitsEndAt(s, i0, i) && !Verify(s, i, '.') && !Verify(s, i, 'e') && !Verify(s, i, 'E')
    requires !VerifyPredicate(s, i, IsMultiplier)
    ensures ScanDecimal(s, start, i0)
         == if s[start..i] == "0" || VerifyPredicate(s, start, IsNotZero) then Emit(IntLit(DecimalLit(s[start..i])), i)
            else Fail(LeadingZero(s[start..i], start, i))
  {
  }

  // ----- operators and punctuation -----

  /** The single-character arithmetic tokens and `:` and `?`. */
  function ArithmeticToken(c: char): (r: Option<Token>)
    ensures r.Some? ==> Scannable(r.value) && Spelling(r.value) == [c]
  {
    if c == '+' then Some(Add)
    else if c == '-' then Some(Sub)
    else if c == '*' then Some(Mul)
    else if c == '/' then Some(Div)
    else if c == ':' then Some(Colon)
    else if c == '?' then Some(Question)
    else None
  }

  /** The brackets and the comma. */
  function BracketToken(c: char): (r: Option<Token>)
    ensures r.Some? ==> Scannable(r.value) && Spelling(r.value) == [c]
  {
    if c == '(' then Some(LParen)
    else if c == ')' then Some(RParen)
    else if c == OpenBrace then Some(LBrace)
    else if c == CloseBrace then Some(RBrace)
    else if c == '[' then Some(LBracket)
    else if c == ']' then Some(RBracket)
    else if c == ',' then Some(Comma)
    else None
  }

  /** The single-character punctuation and arithmetic tokens, each spelt with the character it is scanned from. */
  function Punctuation(c: char): (r: Option<Token>)
    ensures r.Some? ==> Scannable(r.value) && Spelling(r.value) == [c]
  {
    if ArithmeticToken(c).Some? then ArithmeticToken(c) else BracketToken(c)
  }

  /** The operators that have both a one- and a two-character form, by their first character. */
  function OneCharOperator(c: char): (r: Option<Token>)
    ensures r.Some? ==> Scannable(r.value) && Spelling(r.value) == [c]
  {
    if c == '&' then Some(And)
    else if c == '|' then Some(Or)
    else if c == '=' then Some(Assign)
    else if c == '!' then Some(Exlamation)
    else if c == '<' then Some(Less)
    else if c == '>' then Some(Greater)
    else None
  }

  /** The two-character operators. */
  function TwoCharOperator(c: char, d: char): (r: Option<Token>)
    ensures r.Some? ==> Scannable(r.value) && Spelling(r.value) == [c, d]
    ensures r.Some? ==> OneCharOperator(c).Some?
  {
    if c == '&' && d == '&' then Some(BolAnd)
    else if c == '|' && d == '|' then Some(BolOr)
    else if c == '=' && d == '=' then Some(Eq)
    else if c == '=' && d == '~' then Some(PatternEq)
    else if c == '!' && d == '=' then Some(NotEq)
    else if c == '!' && d == '~' then Some(PatternNotEq)
    else if c == '<' && d == '=' then Some(LessEq)
    else if c == '>' && d == '=' then Some(GreaterEq)
    else None
  }

  /** An operator at `p`: the two-character form when the next character completes one, else the one-character form. */
  function Operator(s: string, p: nat): (r: Option<Scanned>)
    requires p < |s|
    ensures r.Some? ==> p < r.value.end <= p + 2 && r.value.end <= |s|
    ensures r.Some? ==> var e := r.value.end; Scannable(r.value.token) && Spelling(r.value.token) == s[p..e]
  {
    var c := s[p];
    assert s[p..p + 1] == [c];
    if OneCharOperator(c).None? then None
    else if p + 1 < |s| && TwoCharOperator(c, s[p + 1]).Some? then
      assert s[p..p + 2] == [c, s[p + 1]];
      Some(Scanned(TwoCharOperator(c, s[p + 1]).value, p + 2))
    else Some(Scanned(OneCharOperator(c).value, p + 1))
  }

  /**
   * The operator or punctuation token at `p`, if any, with the position after
   * it. The first characters tried here are pairwise distinct, so the order of
   * the cases is that of the driver loop.
   */
  function FixedToken(s: string, p: nat): (r: Option<Scanned>)
    requires p < |s|
    ensures r.Some? ==> var e := r.value.end; p < e <= |s| && Scannable(r.value.token) && Spelling(r.value.token) == s[p..e]
  {
    var c := s[p];
    assert s[p..p + 1] == [c];
    if Punctuation(c).Some? then Some(Scanned(Punctuation(c).value, p + 1))
    else if Operator(s, p).Some? then Operator(s, p)
    else if c == '.' && Verify(s, p + 1, '.') && Verify(s, p + 2, '.') then
      assert s[p..p + 3] == [c, s[p + 1], s[p + 2]];
      Some(Scanned(Ellipsis, p + 3))
    else if c == '.' then Some(Scanned(Dot, p + 1))
    else if c == '_' && Verify(s, p + 1, '|') && Verify(s, p + 2, '_') then
      assert s[p..p + 3] == [c, s[p + 1], s[p + 2]];
      Some(Scanned(Bottom, p + 3))
    else None
  }

  /** The printable ASCII characters that are neither letters nor digits. */
  predicate IsAsciiPunctuation(c: char) {
    '!' <= c <= '/' || ':' <= c <= '@' || '[' <= c <= '\U{60}' || OpenBrace <= c <= '~'
  }

  /** Operators and punctuation all start with an ASCII punctuation character other than `$`. */
  lemma {:induction false} FixedTokenStart(s: string, p: nat)
    requires p < |s|
    ensures FixedToken(s, p).Some? ==> IsAsciiPunctuation(s[p]) && s[p] != '$'
  {
    PunctuationStart(s[p]);
    OperatorStart(s[p]);
  }

  /** `#`, and `_` when it does not begin `_|_`, start no operator or punctuation token. */
  lemma {:induction false} FixedTokenNotAt(s: string, p: nat)
    requires p < |s| && (s[p] == '#' || s[p] == '_')
    requires !(Verify(s, p + 1, '|') && Verify(s, p + 2, '_'))
    ensures FixedToken(s, p).None?
  {
    assert Punctuation(s[p]).None?;
    assert OneCharOperator(s[p]).None?;
  }

  /** An operator character starts an operator, and no numeric literal. */
  lemma {:induction false} OperatorFixed(s: string, p: nat)
    requires p < |s| && OneCharOperator(s[p]).Some?
    ensures FixedToken(s, p) == Operator(s, p) && !StartsNumber(s, p)
  {
    OperatorStart(s[p]);
    OperatorNotPunctuation(s[p]);
  }

  /** The operator characters and the punctuation characters are disjoint. */
  lemma {:induction false} OperatorNotPunctuation(c: char)
    requires OneCharOperator(c).Some?
    ensures Punctuation(c).None?
  {
    if c == '&' || c == '|' || c == '=' {
      assert Punctuation(c).None?;
    } else {
      assert Punctuation(c).None?;
    }
  }

  lemma {:induction false} PunctuationStart(c: char)
    ensures Punctuation(c).Some? ==> IsAsciiPunctuation(c) && c != '$'
  {
  }

  lemma {:induction false} OperatorStart(c: char)
    ensures OneCharOperator(c).Some? ==> IsAsciiPunctuation(c) && c != '$'
  {
  }

  // ----- the driver loop -----

  /** The cases of the driver loop that start a numeric literal: a digit, or a point before a digit. */
  predicate StartsNumber(s: string, p: nat)
    requires p < |s|
  {
    IsDigit(s[p]) || (s[p] == '.' && VerifyPredicate(s, p + 1, IsDigit))
  }

  /** The numeric cases of the driver loop, in their order. */
  function DispatchNumber(s: string, p: nat): (r: Outcome)
    requires p < |s| && StartsNumber(s, p)
    ensures !r.Skip? && !(r.Fail? && r.error.UnexpectedChar?)
    ensures r.Emit? ==> var e := r.end; p < e <= |s| && Scannable(r.token) && Spelling(r.token) == s[p..e]
    ensures r.Fail? ==>
      var e := r.error.end; r.error.start == p && p < e <= |s| && r.error.text == s[p..e] && !LeadingZeroAllowed(r.error.text)
  {
    var c := s[p];
    if c == '0' && Verify(s, p + 1, 'b') then EmitScanned(ScanRadix(s, p, p + 2, Binary))
    else if c == '0' && Verify(s, p + 1, 'o') then EmitScanned(ScanRadix(s, p, p + 2, Octal))
    else if c == '0' && (Verify(s, p + 1, 'x') || Verify(s, p + 1, 'X')) then EmitScanned(ScanRadix(s, p, p + 2, Hex))
    else if IsDigit(c) then ScanDecimal(s, p, p + 1)
    else EmitScanned(ScanPointDecimal(s, p, p + 2))
  }

  // The arms of `DispatchNumber`, one by one.

  /** A `0b`, `0o`, `0x` or `0X` prefix at `p`. */
  predicate RadixPrefix(s: string, p: nat)
    requires p < |s|
  {
    s[p] == '0' && p + 1 < |s| && (s[p + 1] == 'b' || s[p + 1] == 'o' || s[p + 1] == 'x' || s[p + 1] == 'X')
  }

  lemma {:induction false} DispatchNumberBinary(s: string, p: nat)
    requires p + 1 < |s| && s[p] == '0' && s[p + 1] == 'b'
    ensures DispatchNumber(s, p) == EmitScanned(ScanRadix(s, p, p + 2, Binary))
  {
  }

  lemma {:induction false} DispatchNumberOctal(s: string, p: nat)
    requires p + 1 < |s| && s[p] == '0' && s[p + 1] == 'o'
    ensures DispatchNumber(s, p) == EmitScanned(ScanRadix(s, p, p + 2, Octal))
  {
  }

  lemma {:induction false} DispatchNumberHex(s: string, p: nat)
    requires p + 1 < |s| && s[p] == '0' && (s[p + 1] == 'x' || s[p + 1] == 'X')
    ensures DispatchNumber(s, p) == EmitScanned(ScanRadix(s, p, p + 2, Hex))
  {
  }

  lemma {:induction false} DispatchNumberDecimal(s: string, p: nat)
    requires p < |s| && IsDigit(s[p]) && !RadixPrefix(s, p)
    ensures DispatchNumber(s, p) == ScanDecimal(s, p, p + 1)
  {
  }

  lemma {:induction false} DispatchNumberPoint(s: string, p: nat)
    requires p < |s| && StartsNumber(s, p) && !IsDigit(s[p])
    ensures p + 2 <= |s| && s[p] == '.'
    ensures DispatchNumber(s, p) == EmitScanned(ScanPointDecimal(s, p, p + 2))
  {
  }

  /** The remaining cases of the driver loop, in their order. */
  function DispatchOther(cc: CharClasses, s: string, p: nat): (r: Outcome)
    requires p < |s|
    ensures !(r.Fail? && r.error.LeadingZero?)
    ensures r.Emit? ==> var e := r.end; p < e <= |s| && Scannable(r.token) && Spelling(r.token) == s[p..e]
    ensures r.Skip? <==> r == Skip(p + 1)
    ensures r.Skip? ==> IsWhitespace(cc, s[p])
    ensures r.Fail? ==> r.error == UnexpectedChar(s[p], p) && !IsWhitespace(cc, s[p])
  {
    var c := s[p];
    if FixedToken(s, p).Some? then EmitScanned(FixedToken(s, p).value)
    else if c == '#' && VerifyPredicate(s, p + 1, x => IsLetter(cc, x)) then EmitScanned(ScanIdentifier(cc, s, p, p + 2))
    else if c == '_' && Verify(s, p + 1, '#') && VerifyPredicate(s, p + 2, x => IsLetter(cc, x)) then
      EmitScanned(ScanIdentifier(cc, s, p, p + 3))
    else if IsLetter(cc, c) then EmitScanned(ScanIdentifier(cc, s, p, p + 1))
    else if IsWhitespace(cc, c) then Skip(p + 1)
    else Fail(UnexpectedChar(c, p))
  }

  // The arms of `DispatchOther`, one by one.

  lemma {:induction false} DispatchOtherFixed(cc: CharClasses, s: string, p: nat)
    requires p < |s| && FixedToken(s, p).Some?
    ensures DispatchOther(cc, s, p) == EmitScanned(FixedToken(s, p).value)
  {
  }

  lemma {:induction false} DispatchOtherHash(cc: CharClasses, s: string, p: nat)
    requires p + 1 < |s| && FixedToken(s, p).None? && s[p] == '#' && IsLetter(cc, s[p + 1])
    ensures DispatchOther(cc, s, p) == EmitScanned(ScanIdentifier(cc, s, p, p + 2))
  {
  }

  lemma {:induction false} DispatchOtherUnderscoreHash(cc: CharClasses, s: string, p: nat)
    requires p + 2 < |s| && FixedToken(s, p).None? && s[p] == '_' && s[p + 1] == '#' && IsLetter(cc, s[p + 2])
    ensures DispatchOther(cc, s, p) == EmitScanned(ScanIdentifier(cc, s, p, p + 3))
  {
  }

  lemma {:induction false} DispatchOtherLetter(cc: CharClasses, s: string, p: nat)
    requires p < |s| && FixedToken(s, p).None? && IsLetter(cc, s[p])
    requires !(s[p] == '_' && p + 2 < |s| && s[p + 1] == '#' && IsLetter(cc, s[p + 2]))
    ensures DispatchOther(cc, s, p) == EmitScanned(ScanIdentifier(cc, s, p, p + 1))
  {
  }

  lemma {:induction false} DispatchOtherRest(cc: CharClasses, s: string, p: nat)
    requires p < |s| && FixedToken(s, p).None? && !IsLetter(cc, s[p])
    requires !(s[p] == '#' && p + 1 < |s| && IsLetter(cc, s[p + 1]))
    ensures DispatchOther(cc, s, p) == if IsWhitespace(cc, s[p]) then Skip(p + 1) else Fail(UnexpectedChar(s[p], p))
  {
  }

  /**
   * One iteration of the driver loop at cursor `p`. The numeric cases come
   * first in the loop, and a character that starts a number is handled by one
   * of them, so splitting the cases in two keeps their order.
   */
  function Dispatch(cc: CharClasses, s: string, p: nat): (r: Outcome)
    requires p < |s|
    ensures r.Emit? ==> var e := r.end; p < e <= |s| && Scannable(r.token) && Spelling(r.token) == s[p..e]
    ensures r.Skip? <==> r == Skip(p + 1)
    ensures r.Skip? ==> IsWhitespace(cc, s[p])
    ensures r.Fail? && r.error.UnexpectedChar? ==> r.error == UnexpectedChar(s[p], p) && !IsWhitespace(cc, s[p])
    ensures r.Fail? && r.error.LeadingZero? ==>
      var e := r.error.end; r.error.start == p && p < e <= |s| && r.error.text == s[p..e] && !LeadingZeroAllowed(r.error.text)
  {
    if StartsNumber(s, p) then DispatchNumber(s, p) else DispatchOther(cc, s, p)
  }

  /** Attach already scanned tokens in front of the result of scanning the rest. */
  function Prepend(ts: seq<Token>, r: Result<seq<Token>, LexError>): Result<seq<Token>, LexError> {
    match r
    case Ok(us) => Ok(ts + us)
    case Err(e) => Err(e)
  }

  /** The driver loop from cursor `p`: all tokens up to the end of input, or the first error. */
  function LexFrom(cc: CharClasses, s: string, p: nat): (r: Result<seq<Token>, LexError>)
    requires p <= |s|
    ensures r.Ok? ==> forall k | 0 <= k < |r.value| :: Scannable(r.value[k])
    ensures r.Ok? ==> |r.value| <= |s| - p
    decreases |s| - p
  {
    if p == |s| then Ok([])
    else
      match Dispatch(cc, s, p)
      case Fail(e) => Err(e)
      case Skip(n) => LexFrom(cc, s, n)
      case Emit(t, n) => Prepend([t], LexFrom(cc, s, n))
  }

  /** All tokens of `s`, or the first lexical error. */
  function Lex(cc: CharClasses, s: string): Result<seq<Token>, LexError> {
    LexFrom(cc, s, 0)
  }

  /** One step of the driver loop seen from the tokens gathered so far. */
  lemma {:induction false} PrependStep(before: seq<Token>, cc: CharClasses, s: string, p: nat)
    requires p < |s|
    ensures match Dispatch(cc, s, p)
      case Emit(t, n) => Prepend(before + [t], LexFrom(cc, s, n)) == Prepend(before, LexFrom(cc, s, p))
      case Skip(n) => LexFrom(cc, s, n) == LexFrom(cc, s, p)
      case Fail(e) => LexFrom(cc, s, p) == Err(e)
  {
    match Dispatch(cc, s, p) {
      case Emit(t, n) =>
        match LexFrom(cc, s, n) {
          case Ok(us) => assert (before + [t]) + us == before + ([t] + us);
          case Err(_) =>
        }
      case Skip(_) =>
      case Fail(_) =>
    }
  }

  lemma {:induction false} PrependNothing(r: Result<seq<Token>, LexError>)
    ensures Prepend([], r) == r
  {
    match r {
      case Ok(us) => assert [] + us == us;
      case Err(_) =>
    }
  }
}
