/**
 * The lexer's corner cases, each on a short input: how the scanners treat a
 * point before a digit, a radix prefix without digits, an exponent without
 * digits, a separator after a radix prefix, a leading zero and a reserved word
 * inside a longer word.
 */
module Quirks {
  import opened Wrappers
  import opened Tokens
  import opened Chars
  import opened Scanning
  import opened Determinacy
  import opened Properties
  import opened Idempotence
  import opened Examples

  /** In `.5G`, the `G` after the fraction lexes to an identifier. */
  lemma {:induction false} GigaTail(cc: CharClasses, s: string)
    requires s == ".5G"
    ensures LexFrom(cc, s, 2) == Ok([Identifier("G")])
  {
    EndStep(cc, s, 3);
    assert s[2..3] == "G";
    WordStep(cc, s, 2, 3, "G", []);
    assert ClassifyWord("G") == Identifier("G");
    assert [Identifier("G")] + [] == [Identifier("G")];
  }

  /**
   * After a point the fraction scan starts past the first digit, so in `.5G`
   * the multiplier is never looked at: a float and an identifier.
   */
  lemma {:induction false} PointFiveGiga(cc: CharClasses)
    ensures Lex(cc, ".5G") == Ok([FloatLit(WithoutExp(".5")), Identifier("G")])
  {
    var s := ".5G";
    GigaTail(cc, s);
    DotDispatch(cc, s, 0);
    PointDecimalEndUnique(s, 2, Stop(2));
    assert s[0..2] == ".5";
    EmitStep(cc, s, 0, FloatLit(WithoutExp(".5")), 2, [Identifier("G")]);
    assert [FloatLit(WithoutExp(".5"))] + [Identifier("G")] == [FloatLit(WithoutExp(".5")), Identifier("G")];
  }

  /** With a digit before the point, `1.5G` is one SI literal. */
  lemma {:induction false} OnePointFiveGiga(cc: CharClasses)
    ensures Lex(cc, "1.5G") == Ok([IntLit(SiLit("1.5", "G"))])
  {
    var s := "1.5G";
    EndStep(cc, s, 4);
    assert s[0..3] == "1.5" && s[3..4] == "G";
    PointSiStep(cc, s, 0, 2, 3, 4, "1.5", "G", []);
    assert [IntLit(SiLit("1.5", "G"))] + [] == [IntLit(SiLit("1.5", "G"))];
  }

  /** `0x` with no digit after it is a hexadecimal literal all the same. */
  lemma {:induction false} BareHexPrefix(cc: CharClasses)
    ensures Lex(cc, "0x") == Ok([IntLit(HexLit("0x"))])
  {
    var w := "0x";
    assert DigitGroups(w[2..], IsHexDigit);
    RadixAlone(cc, w, Hex);
  }

  /** A `_` right after the prefix is taken when a digit of the radix follows it. */
  lemma {:induction false} SeparatorAfterPrefix(cc: CharClasses)
    ensures Lex(cc, "0b_1") == Ok([IntLit(BinaryLit("0b_1"))])
  {
    var w := "0b_1";
    assert w[2..] == "_1";
    assert DigitGroups(w[2..], IsBinaryDigit);
    RadixAlone(cc, w, Binary);
  }

  /** The word `__1` is a keyword, because it begins with `__`. */
  lemma {:induction false} DunderWord()
    ensures ClassifyWord("__1") == Keyword("__1")
  {
    assert "__1"[..2] == "__";
  }

  /** In `0b__1`, what follows the prefix lexes to the keyword `__1`. */
  lemma {:induction false} DunderTail(cc: CharClasses, s: string)
    requires s == "0b__1"
    ensures LexFrom(cc, s, 2) == Ok([Keyword("__1")])
  {
    IdentEndUnique(cc, s, 2, 5);
    UnderscoreStartsWord(cc, s, 2);
    assert s[2..5] == "__1";
    DunderWord();
    EndStep(cc, s, 5);
    EmitStep(cc, s, 2, Keyword("__1"), 5, []);
    assert [Keyword("__1")] + [] == [Keyword("__1")];
  }

  /**
   * Two `_` after the prefix stop the binary scan at once; they start a word,
   * which is a keyword because it begins with `__`.
   */
  lemma {:induction false} DoubleSeparatorAfterPrefix(cc: CharClasses)
    ensures Lex(cc, "0b__1") == Ok([IntLit(BinaryLit("0b")), Keyword("__1")])
  {
    var s := "0b__1";
    assert GroupedEnd(s, 2, IsBinaryDigit) == 2;
    RadixLiteral(cc, s, 0, Binary);
    assert s[0..2] == "0b";
    DunderTail(cc, s);
    EmitStep(cc, s, 0, IntLit(BinaryLit("0b")), 2, [Keyword("__1")]);
    assert [IntLit(BinaryLit("0b"))] + [Keyword("__1")] == [IntLit(BinaryLit("0b")), Keyword("__1")];
  }

  /** An exponent marker with no digits after it still makes a float literal. */
  lemma {:induction false} BareExponent(cc: CharClasses)
    ensures Lex(cc, "1e") == Ok([FloatLit(WithExp("1", "e"))])
  {
    var s := "1e";
    EndStep(cc, s, 2);
    assert s[0..1] == "1" && s[1..2] == "e";
    ExpStep(cc, s, 0, 1, 2, "1", "e", []);
    assert [FloatLit(WithExp("1", "e"))] + [] == [FloatLit(WithExp("1", "e"))];
  }

  /** An integer with a leading zero is rejected, with its whole text. */
  lemma {:induction false} LeadingZeroRejected(cc: CharClasses)
    ensures Lex(cc, "012") == Err(LeadingZero("012", 0, 3))
  {
    var w := "012";
    assert DigitGroups(w, IsDigit);
    assert !LeadingZeroAllowed(w);
    DecimalAlone(cc, w);
  }

  /** The leading-zero rule does not apply once a point follows the digits. */
  lemma {:induction false} LeadingZeroFraction(cc: CharClasses)
    ensures Lex(cc, "072.40") == Ok([FloatLit(WithoutExp("072.40"))])
  {
    var s := "072.40";
    EndStep(cc, s, 6);
    assert s[0..6] == "072.40";
    PointStopStep(cc, s, 0, 4, 6, "072.40", []);
    assert [FloatLit(WithoutExp("072.40"))] + [] == [FloatLit(WithoutExp("072.40"))];
  }

  lemma {:induction false} LetsIdentifier()
    ensures ClassifyWord("lets") == Identifier("lets")
  {
    assert "lets"[..2][0] == 'l';
    assert "lets" != "let";
  }

  /** A reserved word at the start of a longer word does not end it. */
  lemma {:induction false} ReservedPrefix(cc: CharClasses)
    ensures Lex(cc, "lets") == Ok([Identifier("lets")])
  {
    WordAlone(cc, "lets");
    LetsIdentifier();
  }
}
