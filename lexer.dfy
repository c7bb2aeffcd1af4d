/**
 * The lexer as the object it is: the input, a cursor and a growing token list.
 * Every method follows the routine of the same name and is proved against the
 * reference functions of module Scanning. As there, a sub-scanner leaves the
 * cursor on the last character it consumed and the driver loop then steps past
 * it.
 */
module Lexing {
  import opened Wrappers
  import opened Tokens
  import opened Chars
  import opened Scanning

  /**
   * The lexer's state after one iteration of the driver loop is the one outcome
   * `o` describes: an emitted token is appended and the cursor is past it, a
   * skip moves the cursor alone, a failure is reported.
   */
  predicate Stepped(o: Outcome, failure: Option<LexError>, before: seq<Token>, after: seq<Token>, position: nat) {
    match o
    case Emit(t, n) => failure == None && after == before + [t] && position == n
    case Skip(n) => failure == None && after == before && position == n
    case Fail(e) => failure == Some(e)
  }

  class Lexer {
    const input: string
    const classes: CharClasses
    var currentPosition: nat
    var tokens: seq<Token>

    constructor (input: string, classes: CharClasses)
      ensures this.input == input && this.classes == classes
      ensures currentPosition == 0 && tokens == []
    {
      this.input := input;
      this.classes := classes;
      currentPosition := 0;
      tokens := [];
    }

    predicate Exhausted()
      reads this
    {
      CheckPos(input, currentPosition)
    }

    method LexIdentifier(i0: nat)
      requires currentPosition < i0 <= |input|
      modifies this
      ensures var x := ScanIdentifier(classes, input, old(currentPosition), i0);
        tokens == old(tokens) + [x.token] && currentPosition + 1 == x.end
    {
      var i := i0;
      while VerifyPredicate(input, i, c => IsLetter(classes, c)) || VerifyPredicate(input, i, c => IsUnicodeDigit(classes, c))
        invariant i0 <= i <= |input|
        invariant IdentEnd(classes, input, i) == IdentEnd(classes, input, i0)
        decreases |input| - i
      {
        i := i + 1;
      }
      var binding := GetStr(input, currentPosition, i);
      tokens := tokens + [ClassifyWord(binding)];
      currentPosition := i - 1;
    }

    /** The digit loop shared by the radix scanners and the exponent scanner. */
    method SkipDigitGroups(i0: nat, isDigit: char -> bool) returns (i: nat)
      requires i0 <= |input|
      ensures i == GroupedEnd(input, i0, isDigit)
    {
      i := i0;
      while true
        invariant i0 <= i <= |input|
        invariant GroupedEnd(input, i, isDigit) == GroupedEnd(input, i0, isDigit)
        decreases |input| - i
      {
        if VerifyPredicate(input, i, isDigit) {
          i := i + 1;
        } else if Verify(input, i, '_') && VerifyPredicate(input, i + 1, isDigit) {
          i := i + 2;
        } else {
          break;
        }
      }
    }

    method LexBinary(i0: nat)
      requires currentPosition < i0 <= |input|
      modifies this
      ensures var x := ScanRadix(input, old(currentPosition), i0, Binary);
        tokens == old(tokens) + [x.token] && currentPosition + 1 == x.end
    {
      var i := SkipDigitGroups(i0, IsBinaryDigit);
      var binding := GetStr(input, currentPosition, i);
      tokens := tokens + [IntLit(BinaryLit(binding))];
      currentPosition := i - 1;
    }

    method LexOctal(i0: nat)
      requires currentPosition < i0 <= |input|
      modifies this
      ensures var x := ScanRadix(input, old(currentPosition), i0, Octal);
        tokens == old(tokens) + [x.token] && currentPosition + 1 == x.end
    {
      var i := SkipDigitGroups(i0, IsOctalDigit);
      var binding := GetStr(input, currentPosition, i);
      tokens := tokens + [IntLit(OctalLit(binding))];
      currentPosition := i - 1;
    }

    method LexHex(i0: nat)
      requires currentPosition < i0 <= |input|
      modifies this
      ensures var x := ScanRadix(input, old(currentPosition), i0, Hex);
        tokens == old(tokens) + [x.token] && currentPosition + 1 == x.end
    {
      var i := SkipDigitGroups(i0, IsHexDigit);
      var binding := GetStr(input, currentPosition, i);
      tokens := tokens + [IntLit(HexLit(binding))];
      currentPosition := i - 1;
    }

    /** On a leading-zero literal the routine aborts; the error is returned instead. */
    method LexDecimal(i0: nat) returns (failure: Option<LexError>)
      requires currentPosition < i0 <= |input|
      modifies this
      ensures match ScanDecimal(input, old(currentPosition), i0)
        case Emit(t, n) => failure == None && tokens == old(tokens) + [t] && currentPosition + 1 == n
        case Fail(e) => failure == Some(e)
        case Skip(_) => false
    {
      var i := i0;
      while true
        invariant i0 <= i <= |input|
        invariant GroupedEnd(input, i, IsDigit) == GroupedEnd(input, i0, IsDigit)
        invariant currentPosition == old(currentPosition) && tokens == old(tokens)
        decreases |input| - i
      {
        if VerifyPredicate(input, i, IsDigit) {
          i := i + 1;
        } else if Verify(input, i, '_') && VerifyPredicate(input, i + 1, IsDigit) {
          i := i + 2;
        } else if Verify(input, i, '.') {
          failure := DecimalToPoint(i0, i);
          return;
        } else if Verify(input, i, 'e') || Verify(input, i, 'E') {
          failure := DecimalToFloat(i0, i);
          return;
        } else if VerifyPredicate(input, i, IsMultiplier) {
          failure := DecimalToSi(i0, i);
          return;
        } else {
          break;
        }
      }
      failure := PushDecimal(i0, i);
    }

    /** The decimal routine handing over to the fraction scanner at a point. */
    method DecimalToPoint(i0: nat, i: nat) returns (failure: Option<LexError>)
      requires currentPosition < i0 && DigitsEndAt(input, i0, i) && Verify(input, i, '.')
      modifies this
      ensures match ScanDecimal(input, old(currentPosition), i0)
        case Emit(t, n) => failure == None && tokens == old(tokens) + [t] && currentPosition + 1 == n
        case Fail(e) => failure == Some(e)
        case Skip(_) => false
    {
      ScanDecimalPoint(input, currentPosition, i0, i);
      LexPointDecimal(i + 1);
      return None;
    }

    /** The decimal routine handing over to the exponent scanner. */
    method DecimalToFloat(i0: nat, i: nat) returns (failure: Option<LexError>)
      requires currentPosition < i0 && DigitsEndAt(input, i0, i) && !Verify(input, i, '.')
      requires Verify(input, i, 'e') || Verify(input, i, 'E')
      modifies this
      ensures match ScanDecimal(input, old(currentPosition), i0)
        case Emit(t, n) => failure == None && tokens == old(tokens) + [t] && currentPosition + 1 == n
        case Fail(e) => failure == Some(e)
        case Skip(_) => false
    {
      ScanDecimalExponent(input, currentPosition, i0, i);
      LexFloat(i + 1);
      return None;
    }

    /** The decimal routine handing over to the multiplier scanner. */
    method DecimalToSi(i0: nat, i: nat) returns (failure: Option<LexError>)
      requires currentPosition < i0 && DigitsEndAt(input, i0, i)
      requires !Verify(input, i, '.') && !Verify(input, i, 'e') && !Verify(input, i, 'E') && VerifyPredicate(input, i, IsMultiplier)
      modifies this
      ensures match ScanDecimal(input, old(currentPosition), i0)
        case Emit(t, n) => failure == None && tokens == old(tokens) + [t] && currentPosition + 1 == n
        case Fail(e) => failure == Some(e)
        case Skip(_) => false
    {
      ScanDecimalSi(input, currentPosition, i0, i);
      LexSi(i + 1);
      return None;
    }

    /** The end of the decimal routine: the integer literal, or the abort on a leading zero. */
    method PushDecimal(i0: nat, i: nat) returns (failure: Option<LexError>)
      requires currentPosition < i0 && DigitsEndAt(input, i0, i)
      requires !Verify(input, i, '.') && !Verify(input, i, 'e') && !Verify(input, i, 'E') && !VerifyPredicate(input, i, IsMultiplier)
      modifies this
      ensures match ScanDecimal(input, old(currentPosition), i0)
        case Emit(t, n) => failure == None && tokens == old(tokens) + [t] && currentPosition + 1 == n
        case Fail(e) => failure == Some(e)
        case Skip(_) => false
    {
      ScanDecimalInteger(input, currentPosition, i0, i);
      var binding := GetStr(input, currentPosition, i);
      if binding == "0" || VerifyPredicate(input, currentPosition, IsNotZero) {
        tokens := tokens + [IntLit(DecimalLit(binding))];
      } else {
        return Some(LeadingZero(binding, currentPosition, i));
      }
      currentPosition := i - 1;
      return None;
    }

    method LexPointDecimal(i0: nat)
      requires currentPosition < i0 <= |input|
      modifies this
      ensures var x := ScanPointDecimal(input, old(currentPosition), i0);
        tokens == old(tokens) + [x.token] && currentPosition + 1 == x.end
    {
      var i := i0;
      while true
        invariant i0 <= i <= |input|
        invariant PointDecimalEnd(input, i) == PointDecimalEnd(input, i0)
        invariant currentPosition == old(currentPosition) && tokens == old(tokens)
        decreases |input| - i
      {
        if VerifyPredicate(input, i, IsDigit) && VerifyPredicate(input, i + 1, IsMultiplier) {
          PointToSi(i0, i);
          return;
        } else if VerifyPredicate(input, i, IsDigit) && Verify(input, i + 1, '_') && VerifyPredicate(input, i + 2, IsDigit) {
          i := i + 2;
        } else if Verify(input, i, 'e') || Verify(input, i, 'E') {
          PointToFloat(i0, i);
          return;
        } else if VerifyPredicate(input, i, IsDigit) {
          i := i + 1;
        } else {
          break;
        }
      }
      PushPointDecimal(i0, i);
    }

    /** The fraction scanner handing over to the multiplier scanner. */
    method PointToSi(i0: nat, i: nat)
      requires currentPosition < i0 <= i <= |input| && PointDecimalEnd(input, i) == PointDecimalEnd(input, i0)
      requires VerifyPredicate(input, i, IsDigit) && VerifyPredicate(input, i + 1, IsMultiplier)
      modifies this
      ensures var x := ScanPointDecimal(input, old(currentPosition), i0);
        tokens == old(tokens) + [x.token] && currentPosition + 1 == x.end
    {
      ScanPointDecimalSi(input, currentPosition, i0, i);
      LexSi(i + 2);
    }

    /** The fraction scanner handing over to the exponent scanner. */
    method PointToFloat(i0: nat, i: nat)
      requires currentPosition < i0 <= i < |input| && PointDecimalEnd(input, i) == PointDecimalEnd(input, i0)
      requires input[i] == 'e' || input[i] == 'E'
      modifies this
      ensures var x := ScanPointDecimal(input, old(currentPosition), i0);
        tokens == old(tokens) + [x.token] && currentPosition + 1 == x.end
    {
      ScanPointDecimalExponent(input, currentPosition, i0, i);
      LexFloat(i + 1);
    }

    /** The end of the fraction scanner: a float literal without exponent. */
    method PushPointDecimal(i0: nat, i: nat)
      requires currentPosition < i0 <= i <= |input| && PointDecimalEnd(input, i) == PointDecimalEnd(input, i0)
      requires !VerifyPredicate(input, i, IsDigit) && !Verify(input, i, 'e') && !Verify(input, i, 'E')
      modifies this
      ensures var x := ScanPointDecimal(input, old(currentPosition), i0);
        tokens == old(tokens) + [x.token] && currentPosition + 1 == x.end
    {
      ScanPointDecimalStop(input, currentPosition, i0, i);
      var binding := GetStr(input, currentPosition, i);
      tokens := tokens + [FloatLit(WithoutExp(binding))];
      currentPosition := i - 1;
    }

    method LexSi(i0: nat)
      requires currentPosition < i0 <= |input| && IsMultiplier(input[i0 - 1])
      modifies this
      ensures var x := ScanSi(input, old(currentPosition), i0);
        tokens == old(tokens) + [x.token] && currentPosition + 1 == x.end
    {
      var i := i0;
      var binding := GetStr(input, currentPosition, i - 1);
      var multiplier;
      if Verify(input, i, 'i') {
        multiplier := GetStr(input, i - 1, i + 1);
        i := i + 1;
      } else {
        multiplier := GetStr(input, i - 1, i);
      }
      tokens := tokens + [IntLit(SiLit(binding, multiplier))];
      currentPosition := i - 1;
    }

    method LexFloat(i0: nat)
      requires currentPosition < i0 <= |input| && (input[i0 - 1] == 'e' || input[i0 - 1] == 'E')
      modifies this
      ensures var x := ScanFloat(input, old(currentPosition), i0);
        tokens == old(tokens) + [x.token] && currentPosition + 1 == x.end
    {
      var i := i0;
      var expStart := i - 1;
      if Verify(input, i, '+') || Verify(input, i, '-') {
        i := i + 1;
      }
      i := SkipDigitGroups(i, IsDigit);
      var exp := GetStr(input, expStart, i);
      var binding := GetStr(input, currentPosition, expStart);
      tokens := tokens + [FloatLit(WithExp(binding, exp))];
      currentPosition := i - 1;
    }

    /** Pushes one fixed token. */
    method Push(t: Token)
      modifies this
      ensures tokens == old(tokens) + [t] && currentPosition == old(currentPosition)
    {
      tokens := tokens + [t];
    }

    /** The arms of the driver loop for single-character punctuation; the cursor does not move. */
    method LexPunctuation() returns (matched: bool)
      requires currentPosition < |input|
      modifies this
      ensures currentPosition == old(currentPosition)
      ensures matched == Punctuation(input[currentPosition]).Some?
      ensures tokens == old(tokens) + (if matched then [Punctuation(input[currentPosition]).value] else [])
    {
      var c := Get(input, currentPosition).value;
      matched := true;
      if c == '+' {
        Push(Add);
      } else if c == '-' {
        Push(Sub);
      } else if c == '*' {
        Push(Mul);
      } else if c == '/' {
        Push(Div);
      } else if c == ':' {
        Push(Colon);
      } else if c == '?' {
        Push(Question);
      } else if c == '(' {
        Push(LParen);
      } else if c == ')' {
        Push(RParen);
      } else if c == OpenBrace {
        Push(LBrace);
      } else if c == CloseBrace {
        Push(RBrace);
      } else if c == '[' {
        Push(LBracket);
      } else if c == ']' {
        Push(RBracket);
      } else if c == ',' {
        Push(Comma);
      } else {
        matched := false;
      }
    }

    /**
     * The arms of the driver loop for the operators with a one- and a
     * two-character form; the cursor is left on the operator's last character.
     */
    method LexOperator() returns (matched: bool)
      requires currentPosition < |input|
      modifies this
      ensures matched == Operator(input, old(currentPosition)).Some?
      ensures !matched ==> tokens == old(tokens) && currentPosition == old(currentPosition)
      ensures matched ==> var x := Operator(input, old(currentPosition)).value;
        tokens == old(tokens) + [x.token] && currentPosition + 1 == x.end
    {
      var i := currentPosition;
      var c := Get(input, i).value;
      matched := true;
      if c == '&' && Verify(input, i + 1, '&') {
        Push(BolAnd);
        currentPosition := currentPosition + 1;
      } else if c == '&' {
        Push(And);
      } else if c == '|' && Verify(input, i + 1, '|') {
        Push(BolOr);
        currentPosition := currentPosition + 1;
      } else if c == '|' {
        Push(Or);
      } else if c == '=' && Verify(input, i + 1, '=') {
        Push(Eq);
        currentPosition := currentPosition + 1;
      } else if c == '=' && Verify(input, i + 1, '~') {
        Push(PatternEq);
        currentPosition := currentPosition + 1;
      } else if c == '=' {
        Push(Assign);
      } else if c == '!' && Verify(input, i + 1, '=') {
        Push(NotEq);
        currentPosition := currentPosition + 1;
      } else if c == '!' && Verify(input, i + 1, '~') {
        Push(PatternNotEq);
        currentPosition := currentPosition + 1;
      } else if c == '!' {
        Push(Exlamation);
      } else if c == '<' && Verify(input, i + 1, '=') {
        Push(LessEq);
        currentPosition := currentPosition + 1;
      } else if c == '<' {
        Push(Less);
      } else if c == '>' && Verify(input, i + 1, '=') {
        Push(GreaterEq);
        currentPosition := currentPosition + 1;
      } else if c == '>' {
        Push(Greater);
      } else {
        matched := false;
      }
    }

    /**
     * The operator and punctuation arms of the driver loop. Their first
     * characters are pairwise distinct, so trying the punctuation, then the
     * operators, then `.` and `_` keeps the loop's order. Reports whether one
     * of them matched; the cursor is left on the token's last character.
     */
    method LexFixedToken() returns (matched: bool)
      requires currentPosition < |input|
      modifies this
      ensures matched == FixedToken(input, old(currentPosition)).Some?
      ensures !matched ==> tokens == old(tokens) && currentPosition == old(currentPosition)
      ensures matched ==> var x := FixedToken(input, old(currentPosition)).value;
        tokens == old(tokens) + [x.token] && currentPosition + 1 == x.end
    {
      var i := currentPosition;
      var c := input[i];
      matched := LexPunctuation();
      if matched {
        return;
      }
      matched := LexOperator();
      if matched {
        return;
      }
      matched := true;
      if c == '.' && Verify(input, i + 1, '.') && Verify(input, i + 2, '.') {
        Push(Ellipsis);
        currentPosition := currentPosition + 2;
      } else if c == '.' {
        Push(Dot);
      } else if c == '_' && Verify(input, i + 1, '|') && Verify(input, i + 2, '_') {
        Push(Bottom);
        currentPosition := currentPosition + 2;
      } else {
        matched := false;
      }
    }

    /** The numeric arms of the driver loop. */
    method AdvanceNumber() returns (failure: Option<LexError>)
      requires currentPosition < |input| && StartsNumber(input, currentPosition)
      modifies this
      ensures Stepped(DispatchNumber(input, old(currentPosition)), failure, old(tokens), tokens, currentPosition)
    {
      if RadixPrefix(input, currentPosition) {
        failure := AdvancePrefixed();
      } else {
        failure := AdvanceDecimal();
      }
    }

    /** The `0b`, `0o` and `0x`/`0X` arms of the driver loop. */
    method AdvancePrefixed() returns (failure: Option<LexError>)
      requires currentPosition < |input| && StartsNumber(input, currentPosition) && RadixPrefix(input, currentPosition)
      modifies this
      ensures Stepped(DispatchNumber(input, old(currentPosition)), failure, old(tokens), tokens, currentPosition)
    {
      var i := currentPosition;
      var d := input[i + 1];
      if d == 'b' {
        DispatchNumberBinary(input, i);
        failure := AdvanceRadix(Binary);
      } else if d == 'o' {
        DispatchNumberOctal(input, i);
        failure := AdvanceRadix(Octal);
      } else {
        DispatchNumberHex(input, i);
        failure := AdvanceRadix(Hex);
      }
    }

    /** A radix arm of the driver loop: the two prefix characters are already matched. */
    method AdvanceRadix(radix: Radix) returns (failure: Option<LexError>)
      requires currentPosition + 2 <= |input| && StartsNumber(input, currentPosition)
      requires DispatchNumber(input, currentPosition) == EmitScanned(ScanRadix(input, currentPosition, currentPosition + 2, radix))
      modifies this
      ensures Stepped(DispatchNumber(input, old(currentPosition)), failure, old(tokens), tokens, currentPosition)
    {
      match radix {
        case Binary => LexBinary(currentPosition + 2);
        case Octal => LexOctal(currentPosition + 2);
        case Hex => LexHex(currentPosition + 2);
      }
      currentPosition := currentPosition + 1;
      return None;
    }

    /** The numeric arms of the driver loop without a radix prefix. */
    method AdvanceDecimal() returns (failure: Option<LexError>)
      requires currentPosition < |input| && StartsNumber(input, currentPosition) && !RadixPrefix(input, currentPosition)
      modifies this
      ensures Stepped(DispatchNumber(input, old(currentPosition)), failure, old(tokens), tokens, currentPosition)
    {
      var i := currentPosition;
      if IsDigit(input[i]) {
        DispatchNumberDecimal(input, i);
        failure := AdvanceInteger();
      } else {
        DispatchNumberPoint(input, i);
        failure := AdvancePoint();
      }
    }

    /** The decimal arm of the driver loop: the first digit is already matched. */
    method AdvanceInteger() returns (failure: Option<LexError>)
      requires currentPosition < |input| && StartsNumber(input, currentPosition)
      requires DispatchNumber(input, currentPosition) == ScanDecimal(input, currentPosition, currentPosition + 1)
      modifies this
      ensures Stepped(DispatchNumber(input, old(currentPosition)), failure, old(tokens), tokens, currentPosition)
    {
      failure := LexDecimal(currentPosition + 1);
      if failure.None? {
        currentPosition := currentPosition + 1;
      }
    }

    /** The arm of the driver loop for a point before a digit: both are already matched. */
    method AdvancePoint() returns (failure: Option<LexError>)
      requires currentPosition + 2 <= |input| && StartsNumber(input, currentPosition)
      requires DispatchNumber(input, currentPosition) == EmitScanned(ScanPointDecimal(input, currentPosition, currentPosition + 2))
      modifies this
      ensures Stepped(DispatchNumber(input, old(currentPosition)), failure, old(tokens), tokens, currentPosition)
    {
      LexPointDecimal(currentPosition + 2);
      currentPosition := currentPosition + 1;
      failure := None;
    }

    /** The operator, identifier and whitespace arms of the driver loop, and its panic. */
    method AdvanceOther() returns (failure: Option<LexError>)
      requires currentPosition < |input|
      modifies this
      ensures Stepped(DispatchOther(classes, input, old(currentPosition)), failure, old(tokens), tokens, currentPosition)
    {
      var i := currentPosition;
      var matched := LexFixedToken();
      if matched {
        DispatchOtherFixed(classes, input, i);
        currentPosition := currentPosition + 1;
        return None;
      }
      failure := AdvanceWord();
    }

    /** The identifier and whitespace arms of the driver loop, and its panic. */
    method AdvanceWord() returns (failure: Option<LexError>)
      requires currentPosition < |input| && FixedToken(input, currentPosition).None?
      modifies this
      ensures Stepped(DispatchOther(classes, input, old(currentPosition)), failure, old(tokens), tokens, currentPosition)
    {
      var i := currentPosition;
      var c := input[i];
      if c == '#' && VerifyPredicate(input, i + 1, x => IsLetter(classes, x)) {
        DispatchOtherHash(classes, input, i);
        failure := AdvanceIdentifier(i + 2);
      } else if c == '_' && Verify(input, i + 1, '#') && VerifyPredicate(input, i + 2, x => IsLetter(classes, x)) {
        DispatchOtherUnderscoreHash(classes, input, i);
        failure := AdvanceIdentifier(i + 3);
      } else if IsLetter(classes, c) {
        DispatchOtherLetter(classes, input, i);
        failure := AdvanceIdentifier(i + 1);
      } else {
        failure := AdvanceBlank();
      }
    }

    /** The whitespace arm of the driver loop, and its panic. */
    method AdvanceBlank() returns (failure: Option<LexError>)
      requires currentPosition < |input| && FixedToken(input, currentPosition).None? && !IsLetter(classes, input[currentPosition])
      requires !(input[currentPosition] == '#' && currentPosition + 1 < |input| && IsLetter(classes, input[currentPosition + 1]))
      modifies this
      ensures Stepped(DispatchOther(classes, input, old(currentPosition)), failure, old(tokens), tokens, currentPosition)
    {
      var c := input[currentPosition];
      DispatchOtherRest(classes, input, currentPosition);
      if IsWhitespace(classes, c) {
        currentPosition := currentPosition + 1;
        return None;
      }
      return Some(UnexpectedChar(c, currentPosition));
    }

    /** An identifier arm of the driver loop, whose first characters end before `i0`. */
    method AdvanceIdentifier(i0: nat) returns (failure: Option<LexError>)
      requires currentPosition < i0 <= |input|
      requires DispatchOther(classes, input, currentPosition) == EmitScanned(ScanIdentifier(classes, input, currentPosition, i0))
      modifies this
      ensures Stepped(DispatchOther(classes, input, old(currentPosition)), failure, old(tokens), tokens, currentPosition)
    {
      LexIdentifier(i0);
      currentPosition := currentPosition + 1;
      return None;
    }

    /**
     * One iteration of the driver loop: the cases are tried in order on the
     * character under the cursor and up to two characters after it.
     */
    method Advance() returns (failure: Option<LexError>)
      requires currentPosition < |input|
      modifies this
      ensures Stepped(Dispatch(classes, input, old(currentPosition)), failure, old(tokens), tokens, currentPosition)
    {
      if StartsNumber(input, currentPosition) {
        failure := AdvanceNumber();
      } else {
        failure := AdvanceOther();
      }
    }

    /**
     * The driver loop. It stops at the first lexical error, which it returns;
     * otherwise the cursor ends at the end of the input.
     */
    method Run() returns (failure: Option<LexError>)
      requires currentPosition <= |input|
      modifies this
      ensures (if failure.Some? then Err(failure.value) else Ok(tokens))
        == Prepend(old(tokens), LexFrom(classes, input, old(currentPosition)))
      ensures failure.None? ==> currentPosition == |input|
    {
      ghost var goal := Prepend(tokens, LexFrom(classes, input, currentPosition));
      while !Exhausted()
        invariant currentPosition <= |input|
        invariant Prepend(tokens, LexFrom(classes, input, currentPosition)) == goal
        decreases |input| - currentPosition
      {
        ghost var i, before := currentPosition, tokens;
        failure := Advance();
        PrependStep(before, classes, input, i);
        if failure.Some? {
          return;
        }
      }
      assert tokens + [] == tokens;
      return None;
    }

    /** Runs the driver loop and hands back the tokens, or the error it stopped at. */
    method Lex() returns (r: Result<seq<Token>, LexError>)
      requires currentPosition <= |input|
      modifies this
      ensures r == Prepend(old(tokens), LexFrom(classes, input, old(currentPosition)))
    {
      var failure := Run();
      if failure.Some? {
        return Err(failure.value);
      }
      return Ok(tokens);
    }
  }

  /** A fresh lexer over `input`, run to the end: the result is the reference lexing. */
  method Tokenize(input: string, classes: CharClasses) returns (r: Result<seq<Token>, LexError>)
    ensures r == Lex(classes, input)
  {
    var lexer := new Lexer(input, classes);
    r := lexer.Lex();
    PrependNothing(LexFrom(classes, input, 0));
  }
}
