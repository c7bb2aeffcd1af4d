/**
 * Character classifiers of the lexer.
 *
 * Unicode general categories and the White_Space property are fixed for ASCII
 * and are written out here; for characters above U+007F they come from a table
 * supplied by the caller (`CharClasses`), which stands for the Unicode database
 * the lexer consults.
 */
module Chars {

  /**
   * The Unicode facts the lexer needs about non-ASCII characters: whether the
   * general category is a letter (Lu, Ll, Lt, Lm or Lo), whether it is Nd
   * (decimal number), and whether the character is White_Space.
   */
  datatype CharClasses = CharClasses(
    letter: char -> bool,
    decimalNumber: char -> bool,
    whiteSpace: char -> bool)

  predicate IsAscii(c: char) {
    (c as int) < 128
  }

  predicate IsUnicodeLetter(cc: CharClasses, c: char) {
    if IsAscii(c) then 'a' <= c <= 'z' || 'A' <= c <= 'Z' else cc.letter(c)
  }

  predicate IsUnicodeDigit(cc: CharClasses, c: char) {
    if IsAscii(c) then '0' <= c <= '9' else cc.decimalNumber(c)
  }

  /** White_Space, as used by the character's `is_whitespace` test. */
  predicate IsWhitespace(cc: CharClasses, c: char) {
    if IsAscii(c) then c == ' ' || '\t' <= c <= '\r' else cc.whiteSpace(c)
  }

  /** Characters that may start an identifier: letters, `_` and `$`. */
  predicate IsLetter(cc: CharClasses, c: char) {
    IsUnicodeLetter(cc, c) || c == '_' || c == '$'
  }

  /** ASCII decimal digits only. */
  predicate IsDigit(c: char) {
    '0' <= c <= '9'
  }

  predicate IsBinaryDigit(c: char) {
    c == '0' || c == '1'
  }

  predicate IsOctalDigit(c: char) {
    IsDigit(c) && c != '8' && c != '9'
  }

  predicate IsHexDigit(c: char) {
    IsDigit(c) || 'a' <= c <= 'f' || 'A' <= c <= 'F'
  }

  /** The SI magnitude markers. */
  predicate IsMultiplier(c: char) {
    c == 'K' || c == 'M' || c == 'G' || c == 'T' || c == 'P'
  }

  /**
   * The digit classes are nested, ASCII digits are Unicode digits, and the
   * scanner's special characters are ASCII characters that are not whitespace.
   */
  lemma {:induction false} DigitClassesNested(cc: CharClasses, c: char)
    ensures IsBinaryDigit(c) ==> IsOctalDigit(c)
    ensures IsOctalDigit(c) ==> IsDigit(c)
    ensures IsDigit(c) ==> IsHexDigit(c) && IsUnicodeDigit(cc, c) && !IsWhitespace(cc, c)
    ensures IsMultiplier(c) ==> IsLetter(cc, c) && !IsHexDigit(c)
    ensures IsLetter(cc, '_') && IsLetter(cc, '$')
  {
  }
}
