# A verified model of the rustcue lexer

rustcue's lexer (`src/lexer.rs`) turns the text of a CUE-like configuration
file into a token sequence in one pass. A `Lexer` object holds:

- the input as a vector of characters;
- a cursor, `current_position`;
- a token vector that only grows.

The driver loop looks at the character under the cursor and up to two
characters after it. It then does one of four things:

- calls one sub-scanner: identifiers and keywords; binary, octal and
  hexadecimal literals; or the decimal, fraction, exponent and SI-suffix
  state machine;
- pushes an operator or punctuation token;
- skips whitespace;
- aborts.

A sub-scanner pushes exactly one token and leaves the cursor on the last
character it consumed. The loop then steps one past it. Literals keep their
text exactly as written; no number is ever computed.

The model has two layers.

- **Reference functions** (module `Scanning`). Each scanner is a function
  from the input, the token's start and the resume position to the token and
  the position after it. `Dispatch` is one iteration of the driver loop.
  `LexFrom`/`Lex` is the whole loop, which returns either the tokens or the
  first error.
- **The object** (module `Lexing`). It is a class with the source's three
  fields (`input`, `currentPosition`, `tokens`) and one method per Rust
  method, with the same `while`/`loop` bodies. Every method is proved to
  leave exactly the state the matching reference function describes. The two
  `panic!`s become a returned `LexError`: `LeadingZero(text, start, end)` or
  `UnexpectedChar(c, position)`. `Tokenize` proves that a fresh lexer run to
  the end returns `Lex(classes, input)`.

On top of the reference functions, the model proves:

- per-input-shape properties (module `Properties`): word classification and
  maximality, radix literals, the leading-zero rule, the SI suffix, and
  longest match for operators;
- determinacy of the run-finding functions (`Determinacy`);
- idempotence for words, integer, SI and float literals and every operator
  and punctuation token (`Idempotence`);
- total coverage (`Coverage`): the tokens of a successful run spell out the
  input with its whitespace removed;
- step lemmas for lexing written-out inputs (`Examples`), every input of the
  source's unit tests lexed whole (`LexerTests`), and the lexer's corner
  cases on short inputs (`Quirks`).

Unicode general categories and the `White_Space` property come from outside
the code (the `unicode_general_category` crate and `char::is_whitespace`).
For ASCII they are fixed and written out (module `Chars`). For other
characters they come from a `CharClasses` parameter, three predicates on
`char` standing for the Unicode database. The coverage theorem assumes only
`Consistent(cc)`: no whitespace character is a letter or a decimal number,
which the Unicode database guarantees.

Three behaviours of the code are easy to miss; the model follows the code:

- A `_` directly after a radix prefix is consumed when a digit of that radix
  follows it (`0b_1` is one literal).
- A point followed by a digit enters the fraction scanner *after* that digit
  (src/lexer.rs:321). The scanner therefore never checks the first digit
  against a following multiplier or separator:
  - `.5G` lexes as `WithoutExp(".5")` followed by `Identifier("G")`, while
    `1.5G` is one SI literal;
  - `.5_5` stops after `.5`.
- A sub-scanner leaves the cursor one before the end of its token, and the
  loop adds one. `Lexer.Advance` proves that the two steps together move the
  cursor to the end of the token.

## Model

The rows up to `Quirks.ReservedPrefix` state what the lexer does and promises. The rows after it are the
one-arm lemmas, each unfolding one branch of a scanner or of the driver loop, and the step lemmas the
whole-input proofs are assembled from.

| member | source | states |
|---|---|---|
| Chars.DigitClassesNested | src/lexer.rs:87-109 | binary digits are octal digits, which are decimal digits, which are hex digits; decimal digits are Unicode digits and not whitespace; multipliers are letters and not hex digits; `_` and `$` are letters |
| Scanning.VerifyUnwraps | src/lexer.rs:126-148 | `verify` and `verify_predicat` hold exactly when the position is inside the input and the character there is the one asked for (passes the test) |
| Scanning.ClassifyWord | src/lexer.rs:154-169 | the token chosen for a word is one the scanner can produce and is spelt exactly as the word |
| Scanning.ClassifyWordCases | src/lexer.rs:155-168 | the nine reserved words map to their own tokens; any other word is a `Keyword` exactly when it starts with `__`, and an `Identifier` exactly when it does not |
| Scanning.HashWordIdentifier | src/lexer.rs:382-385 | a word beginning with `#` or `_#` is never reserved nor a keyword, so it is an `Identifier` |
| Scanning.IdentEnd | src/lexer.rs:151-153 | the identifier loop stops at the first character that is neither a letter nor a Unicode digit, and every character before it is one |
| Scanning.ScanIdentifier | src/lexer.rs:150-171 | the word token is the classification of the exact slice from the token start to the end of the maximal run, and is spelt as that slice |
| Scanning.GroupedEnd | src/lexer.rs:174-182 | the digit loop stops where neither a digit nor a `_` followed by a digit comes next |
| Scanning.GroupedEndDigits | src/lexer.rs:174-182 | what the digit loop consumes is digits of the class, each `_` among them standing before a digit |
| Scanning.ScanRadix | src/lexer.rs:173-216 | a radix literal's text is the exact slice from the `0` to where the digit loop stops, prefix and separators included |
| Scanning.ScanRadixDigits | src/lexer.rs:173-216 | past the prefix a radix literal holds only digits of its radix and `_`s each followed by such a digit |
| Scanning.ScanSi | src/lexer.rs:276-288 | the mantissa is everything before the multiplier; the unit is the multiplier plus the next character exactly when that is `i`; the token is spelt as the consumed slice |
| Scanning.ExponentDigitsStart | src/lexer.rs:291-294 | one `+` or `-` after the marker is skipped exactly when it is there |
| Scanning.ScanFloat | src/lexer.rs:290-310 | `WithExp(m, e)`: `m` is everything before the marker, `e` runs from the marker to where the digit loop stops; `m + e` is the consumed slice |
| Scanning.ScanFloatEnd | src/lexer.rs:290-304 | the float literal ends where the exponent's digit run does |
| Scanning.ScanFloatExponent | src/lexer.rs:290-310 | the exponent text is `e` or `E`, at most one sign, then `_`-grouped digits, possibly none |
| Scanning.PointDecimalEnd | src/lexer.rs:252-269 | the fraction loop leaves for the SI scanner after a digit followed by a multiplier, for the exponent scanner at `e`/`E`, and otherwise stops at a non-digit |
| Scanning.PointDecimalEndDigits | src/lexer.rs:252-269 | the fraction loop consumes only digits, each `_` standing between two digits |
| Scanning.ScanPointDecimal | src/lexer.rs:251-274 | a literal with a fraction is an SI literal or a float literal and is spelt as the consumed slice |
| Scanning.ScanDecimal | src/lexer.rs:218-249 | a decimal literal never skips; what it emits is spelt as the consumed slice; a `DecimalLit` obeys the leading-zero rule; a failure carries the slice and its bounds and breaks the rule |
| Scanning.Punctuation | src/lexer.rs:322-372 | each single-character punctuation token is spelt with the character it is scanned from |
| Scanning.Operator | src/lexer.rs:326-363 | an operator takes one or two characters and is spelt as the slice it takes |
| Scanning.FixedToken | src/lexer.rs:322-381 | an operator or punctuation token is spelt as the slice it takes |
| Scanning.FixedTokenStart | src/lexer.rs:322-381 | every operator and punctuation token starts with an ASCII punctuation character other than `$` |
| Scanning.OperatorNotPunctuation | src/lexer.rs:322-363 | no operator character is also a punctuation character, so the match arms never overlap |
| Scanning.FixedTokenNotAt | src/lexer.rs:378-385 | `#`, and `_` not followed by `\|_`, start no operator or punctuation token |
| Scanning.OperatorFixed | src/lexer.rs:326-363 | at an operator character the fixed-token arms give the operator, and no numeric arm applies |
| Scanning.DispatchNumber | src/lexer.rs:317-321 | the numeric arms never skip and never report an unexpected character; an emitted literal is spelt as the consumed slice; a failure is a leading-zero error on the slice |
| Scanning.DispatchOther | src/lexer.rs:322-391 | an emitted token is spelt as the consumed slice; the loop skips exactly one character, and only whitespace; anything else is `UnexpectedChar` with that character and position, and is not whitespace |
| Scanning.Dispatch | src/lexer.rs:313-394 | one iteration moves strictly forward and never past the input; an emitted token is spelt as the consumed slice; whitespace is skipped by one; the two errors carry what the panics print |
| Scanning.LexFrom | src/lexer.rs:312-396 | every token of a successful run is one the scanner can produce, and there are no more tokens than characters left |
| Lexing.Lexer.constructor | src/lexer.rs:118-124 | a new lexer holds the input, the cursor at 0 and no tokens |
| Lexing.Lexer.LexIdentifier | src/lexer.rs:150-171 | the identifier loop appends the word token of `ScanIdentifier` and leaves the cursor on its last character |
| Lexing.Lexer.SkipDigitGroups | src/lexer.rs:174-182 | the shared digit loop returns the position `GroupedEnd` gives |
| Lexing.Lexer.LexBinary | src/lexer.rs:173-186 | appends the binary literal of `ScanRadix` and leaves the cursor on its last character |
| Lexing.Lexer.LexOctal | src/lexer.rs:188-201 | appends the octal literal of `ScanRadix` and leaves the cursor on its last character |
| Lexing.Lexer.LexHex | src/lexer.rs:203-216 | appends the hexadecimal literal of `ScanRadix` and leaves the cursor on its last character |
| Lexing.Lexer.LexDecimal | src/lexer.rs:218-249 | does what `ScanDecimal` says: appends its token and leaves the cursor on the token's last character, or returns its leading-zero error |
| Lexing.Lexer.LexPointDecimal | src/lexer.rs:251-274 | the fraction loop appends the token of `ScanPointDecimal` and leaves the cursor on its last character |
| Lexing.Lexer.LexSi | src/lexer.rs:276-288 | appends the SI literal of `ScanSi` and leaves the cursor on its last character |
| Lexing.Lexer.LexFloat | src/lexer.rs:290-310 | appends the exponent literal of `ScanFloat` and leaves the cursor on its last character |
| Lexing.Lexer.LexPunctuation | src/lexer.rs:322-372 | matches exactly when `Punctuation` gives a token, and then appends it without moving the cursor |
| Lexing.Lexer.LexOperator | src/lexer.rs:326-363 | matches exactly when `Operator` gives a token; it then appends it and leaves the cursor on its last character, and otherwise changes nothing |
| Lexing.Lexer.LexFixedToken | src/lexer.rs:322-381 | matches exactly when `FixedToken` gives a token; it then appends it and leaves the cursor on its last character, and otherwise changes nothing |
| Lexing.Lexer.AdvanceNumber | src/lexer.rs:317-321 | the numeric arms plus the loop's step do what `DispatchNumber` says |
| Lexing.Lexer.AdvanceOther | src/lexer.rs:322-391 | the remaining arms plus the loop's step do what `DispatchOther` says |
| Lexing.Lexer.Advance | src/lexer.rs:314-394 | one iteration appends the token `Dispatch` emits and moves the cursor past it, or skips one character, or returns the error |
| Lexing.Lexer.Run | src/lexer.rs:312-396 | the driver loop ends with the tokens (or the first error) of `LexFrom` from the starting cursor, after the tokens it started with; with no error the cursor is at the end of the input |
| Lexing.Lexer.Lex | src/lexer.rs:398-402 | the result is the reference lexing from the cursor, after the tokens already there |
| Lexing.Tokenize | src/lexer.rs:398-402 | a new lexer run to the end returns exactly `Lex(classes, input)` |
| Properties.LetterStartsWord | src/lexer.rs:386 | a letter other than `_` starts one word token over the maximal run of letters and Unicode digits, classified by the whole run |
| Properties.UnderscoreStartsWord | src/lexer.rs:378-386 | `_` starts a word too unless it begins `_\|_` or `_#` before a letter |
| Properties.HashStartsWord | src/lexer.rs:382 | `#` before a letter starts a word that keeps the `#` and runs to the end of the maximal run |
| Properties.UnderscoreHashStartsWord | src/lexer.rs:383-385 | `_#` before a letter starts a word that keeps the `_#` |
| Properties.RadixLiteral | src/lexer.rs:173-216 | `0b`, `0o`, `0x`, `0X` start one literal of that radix whose text is the exact slice, holding only digits of the radix and `_`s before such digits, and ending where no such digit or `_` plus digit follows |
| Properties.LeadingZeroRule | src/lexer.rs:238-246 | an integer not followed by `.`, `e`, `E` or a multiplier fails exactly when it starts with `0` and is not `0`; it is then the leading-zero error on its slice, and otherwise a `DecimalLit` of its slice |
| Properties.IntegerSiSuffix | src/lexer.rs:276-288 | integer digits followed by a multiplier give `SiLit(digits, unit)` with the unit one character, or two when `i` follows |
| Properties.TwoCharOperatorWins | src/lexer.rs:326-363 | when the next character completes a two-character operator, that operator is the token |
| Properties.OneCharOperatorAlone | src/lexer.rs:330-363 | otherwise the operator is its first character alone |
| Properties.PunctuationAlone | src/lexer.rs:322-372 | a punctuation character is one token on its own |
| Properties.EllipsisWins | src/lexer.rs:373-376 | three points are one `Ellipsis` |
| Properties.DotAlone | src/lexer.rs:377 | a point not before a digit and not starting `...` is a `Dot` |
| Properties.BottomWins | src/lexer.rs:378-381 | `_\|_` is `Bottom`, not the start of a word |
| Properties.NoTokenStart | src/lexer.rs:387-391 | a character that starts no token is skipped when it is whitespace and is the unexpected-character error otherwise |
| Determinacy.IdentEndUnique | src/lexer.rs:151-153 | any end of a run of identifier characters that is followed by none is the end the identifier loop reaches |
| Determinacy.GroupedEndUnique | src/lexer.rs:174-182 | any run of grouped digits that stops where the loop stops is the run the loop consumes |
| Determinacy.PointDecimalEndExit | src/lexer.rs:252-269 | the fraction loop stops only where none of its continuing cases applies |
| Determinacy.PointDecimalEndUnique | src/lexer.rs:252-269 | any exit satisfying the loop's exit conditions over fraction digits is the exit the loop takes |
| Idempotence.SingleToken | src/lexer.rs:313-395 | a text that the first iteration consumes whole lexes to that one token |
| Idempotence.WordAlone | src/lexer.rs:150-171 | a word's text lexes back to its word token |
| Idempotence.PrefixedWordAlone | src/lexer.rs:382-385 | a word behind `#` or `_#` lexes to one `Identifier` that keeps the prefix |
| Idempotence.DecimalAlone | src/lexer.rs:218-249 | a grouped decimal integer lexes back to its `DecimalLit`, or fails with the leading-zero error on the whole text |
| Idempotence.RadixAlone | src/lexer.rs:173-216 | a radix prefix and grouped digits of that radix lex back to one literal of the whole text |
| Idempotence.SiAlone | src/lexer.rs:218-288 | `_`-grouped decimal digits and a multiplier, optionally followed by `i`, lex back to one `SiLit` of the digits and the unit |
| Idempotence.FloatAlone | src/lexer.rs:218-310 | `_`-grouped decimal digits and an exponent lex back to one `WithExp` literal split at the marker, a leading `0` included |
| Idempotence.PointFloatAlone | src/lexer.rs:218-274 | digits and a point, or a point and a digit, then fraction digits lex back to one `WithoutExp` literal of the whole text |
| Idempotence.PointSiAlone | src/lexer.rs:218-288 | such a literal ending in a digit and a multiplier, optionally followed by `i`, lexes back to one `SiLit` split at the multiplier |
| Idempotence.PointExpAlone | src/lexer.rs:218-310 | such a literal followed by an exponent lexes back to one `WithExp` literal split at the marker |
| Idempotence.FixedAlone | src/lexer.rs:322-381 | every operator and punctuation token, `Bottom`, `Ellipsis` and `Dot` included, lexes back to itself from its text |
| Coverage.DispatchSolid | src/lexer.rs:313-394 | whatever one iteration emits covers no whitespace |
| Coverage.LexFromCoverage | src/lexer.rs:312-396 | a successful run from any cursor spells out the rest of the input without its whitespace |
| Coverage.Coverage | src/lexer.rs:398-402 | the tokens of a successful lexing, spelt one after the other, are the input with its whitespace removed |
| LexerTests.DecimalsTest | src/lib.rs:38-47 | `123 456 789` lexes to `DecimalLit("123")`, `DecimalLit("456")`, `DecimalLit("789")`, as the test expects |
| LexerTests.WordsTest | src/lib.rs:18-35 | `fn _#lol x let y Int αβ Int x  y ` lexes to the ten tokens the test expects, `Let` for `let` and `Identifier` for every other word, given that `α` and `β` are letters |
| LexerTests.IntegersTest | src/lib.rs:49-63 | the second input lexes to the seven literals the test expects: `DecimalLit("42")`, `SiLit("1.5", "G")`, `SiLit("1.3", "Ki")`, the grouped 39-digit `DecimalLit`, `HexLit("0xBad_Face")`, `OctalLit("0o755")` and `BinaryLit("0b0101_0001")` |
| LexerTests.FloatsTest | src/lib.rs:65-88 | the third input lexes to the nine float literals the test expects, from `WithoutExp("0.")` to `WithExp(".12345", "E+5")` |
| Quirks.PointFiveGiga | src/lexer.rs:321 | `.5G` lexes to `WithoutExp(".5")` and `Identifier("G")`: the fraction scan starts past the first digit |
| Quirks.OnePointFiveGiga | src/lib.rs:52 | `1.5G` lexes to `SiLit("1.5", "G")` |
| Quirks.BareHexPrefix | src/lexer.rs:203-216 | `0x` alone lexes to `HexLit("0x")` |
| Quirks.SeparatorAfterPrefix | src/lexer.rs:173-186 | `0b_1` lexes to one `BinaryLit("0b_1")` |
| Quirks.DunderWord | src/lexer.rs:165-167 | `__1` is classified as a keyword |
| Quirks.DunderTail | src/lexer.rs:378-386 | after `0b`, the text `__1` lexes to `Keyword("__1")` |
| Quirks.DoubleSeparatorAfterPrefix | src/lexer.rs:173-186 | `0b__1` lexes to `BinaryLit("0b")` and `Keyword("__1")`: a doubled `_` stops the scan |
| Quirks.BareExponent | src/lexer.rs:290-310 | `1e` lexes to `WithExp("1", "e")`: no exponent digits are needed |
| Quirks.LeadingZeroRejected | src/lexer.rs:238-246 | `012` is the leading-zero error on `012` at 0 to 3 |
| Quirks.LeadingZeroFraction | src/lib.rs:69 | `072.40` lexes to `WithoutExp("072.40")`: the leading-zero rule does not apply to fractions |
| Quirks.LetsIdentifier | src/lexer.rs:155-168 | `lets` is classified as an identifier |
| Quirks.ReservedPrefix | src/lexer.rs:151-168 | `lets` lexes to one `Identifier("lets")`, not `Let` and `s` |
| Scanning.ScanPointDecimalSi | src/lexer.rs:253-255 | a digit followed by a multiplier hands over to the SI scanner past the multiplier |
| Scanning.ScanPointDecimalExponent | src/lexer.rs:261-263 | an `e`/`E` hands over to the exponent scanner past the marker |
| Scanning.ScanPointDecimalStop | src/lexer.rs:264-273 | otherwise the literal is `WithoutExp` of the slice up to the stop |
| Scanning.ScanDecimalPoint | src/lexer.rs:224-226 | after the integer digits, a `.` hands over to the fraction scanner past it |
| Scanning.ScanDecimalExponent | src/lexer.rs:227-229 | otherwise an `e`/`E` hands over to the exponent scanner |
| Scanning.ScanDecimalSi | src/lexer.rs:230-232 | otherwise a multiplier hands over to the SI scanner |
| Scanning.ScanDecimalInteger | src/lexer.rs:237-248 | otherwise the integer is a `DecimalLit` when it is `0` or does not start with `0`, and a leading-zero error carrying its text and bounds when it does |
| Scanning.OneCharOperator | src/lexer.rs:330-363 | each one-character operator is spelt with its character |
| Scanning.TwoCharOperator | src/lexer.rs:326-363 | each two-character operator is spelt with its two characters, and its first character is also a one-character operator |
| Scanning.PunctuationStart | src/lexer.rs:322-372 | every punctuation character is ASCII punctuation other than `$` |
| Scanning.OperatorStart | src/lexer.rs:326-363 | every operator character is ASCII punctuation other than `$` |
| Scanning.DispatchNumberBinary | src/lexer.rs:317 | `0b` starts the binary scan past the prefix |
| Scanning.DispatchNumberOctal | src/lexer.rs:318 | `0o` starts the octal scan past the prefix |
| Scanning.DispatchNumberHex | src/lexer.rs:319 | `0x` or `0X` starts the hexadecimal scan past the prefix |
| Scanning.DispatchNumberDecimal | src/lexer.rs:320 | any other digit starts the decimal scan after itself |
| Scanning.DispatchNumberPoint | src/lexer.rs:321 | a point before a digit starts the fraction scan after that digit |
| Scanning.DispatchOtherFixed | src/lexer.rs:322-381 | an operator or punctuation token is taken first |
| Scanning.DispatchOtherHash | src/lexer.rs:382 | `#` before a letter starts a word that includes the `#` |
| Scanning.DispatchOtherUnderscoreHash | src/lexer.rs:383-385 | `_#` before a letter starts a word that includes the `_#` |
| Scanning.DispatchOtherLetter | src/lexer.rs:386 | any other letter starts a word |
| Scanning.DispatchOtherRest | src/lexer.rs:387-391 | the rest is skipped when it is whitespace and aborts the run otherwise |
| Scanning.PrependStep | src/lexer.rs:313-395 | one iteration, seen from the tokens gathered so far: an emitted token is appended, a skip changes nothing, a failure ends the run |
| Lexing.Lexer.DecimalToPoint | src/lexer.rs:224-226 | the hand-over to the fraction scanner completes the decimal literal as `ScanDecimal` says |
| Lexing.Lexer.DecimalToFloat | src/lexer.rs:227-229 | the hand-over to the exponent scanner completes the decimal literal as `ScanDecimal` says |
| Lexing.Lexer.DecimalToSi | src/lexer.rs:230-232 | the hand-over to the SI scanner completes the decimal literal as `ScanDecimal` says |
| Lexing.Lexer.PushDecimal | src/lexer.rs:237-248 | the integer check appends the `DecimalLit` or returns the leading-zero error, as `ScanDecimal` says |
| Lexing.Lexer.PointToSi | src/lexer.rs:253-255 | the hand-over to the SI scanner completes the literal as `ScanPointDecimal` says |
| Lexing.Lexer.PointToFloat | src/lexer.rs:261-263 | the hand-over to the exponent scanner completes the literal as `ScanPointDecimal` says |
| Lexing.Lexer.PushPointDecimal | src/lexer.rs:270-273 | the end of the fraction loop appends the `WithoutExp` literal `ScanPointDecimal` gives |
| Lexing.Lexer.Push | src/lexer.rs:322 | appends one token and leaves the cursor alone |
| Lexing.Lexer.AdvancePrefixed | src/lexer.rs:317-319 | the `0b`, `0o` and `0x`/`0X` arms plus the loop's step do what `DispatchNumber` says |
| Lexing.Lexer.AdvanceRadix | src/lexer.rs:317-319 | a radix arm plus the loop's step do what `DispatchNumber` says |
| Lexing.Lexer.AdvanceDecimal | src/lexer.rs:320-321 | the decimal and point arms plus the loop's step do what `DispatchNumber` says |
| Lexing.Lexer.AdvanceInteger | src/lexer.rs:320 | the decimal arm plus the loop's step do what `DispatchNumber` says |
| Lexing.Lexer.AdvancePoint | src/lexer.rs:321 | the arm for a point before a digit plus the loop's step do what `DispatchNumber` says |
| Lexing.Lexer.AdvanceWord | src/lexer.rs:382-391 | the identifier and whitespace arms and the panic do what `DispatchOther` says |
| Lexing.Lexer.AdvanceIdentifier | src/lexer.rs:382-386 | an identifier arm plus the loop's step do what `DispatchOther` says |
| Lexing.Lexer.AdvanceBlank | src/lexer.rs:387-391 | the whitespace arm plus the loop's step skip one whitespace character, and any other character is the unexpected-character error, as `DispatchOther` says |
| Idempotence.HashWordAlone | src/lexer.rs:382 | `#` and a word lex to one `Identifier` keeping the `#` |
| Idempotence.UnderscoreHashWordAlone | src/lexer.rs:383-385 | `_#` and a word lex to one `Identifier` keeping the `_#` |
| Idempotence.PunctuationWhole | src/lexer.rs:322-372 | a punctuation character alone lexes to its token |
| Idempotence.PunctuationTokenSpelling | src/lexer.rs:322-372 | each punctuation token is spelt with the one character that scans to it |
| Idempotence.PunctuationTokenAlone | src/lexer.rs:322-372 | each punctuation token's text lexes back to it |
| Idempotence.ShortOperatorSpelling | src/lexer.rs:330-363 | each one-character operator is spelt with the character that scans to it |
| Idempotence.ShortOperatorAlone | src/lexer.rs:330-363 | each one-character operator's text lexes back to it |
| Idempotence.LongOperatorSpelling | src/lexer.rs:326-363 | each two-character operator is spelt with the pair that scans to it |
| Idempotence.LongOperatorAlone | src/lexer.rs:326-363 | each two-character operator's text lexes back to it |
| Coverage.ScanIdentifierSolid | src/lexer.rs:150-171 | a word contains no whitespace (under `Consistent`) |
| Coverage.GroupedEndSymbols | src/lexer.rs:174-182 | a digit run is printable ASCII |
| Coverage.ScanRadixSymbols | src/lexer.rs:173-216 | a radix literal is printable ASCII |
| Coverage.ScanSiSymbols | src/lexer.rs:276-288 | an SI literal is printable ASCII |
| Coverage.ScanFloatSymbols | src/lexer.rs:290-310 | an exponent literal is printable ASCII |
| Coverage.ScanPointDecimalSymbols | src/lexer.rs:251-274 | a literal with a fraction is printable ASCII |
| Coverage.ScanDecimalSymbols | src/lexer.rs:218-249 | a decimal literal is printable ASCII |
| Coverage.DispatchNumberSymbols | src/lexer.rs:317-321 | every numeric literal is printable ASCII |
| Coverage.OperatorSymbols | src/lexer.rs:326-363 | an operator is printable ASCII |
| Coverage.FixedTokenSymbols | src/lexer.rs:322-381 | an operator or punctuation token is printable ASCII |
| Coverage.DispatchWordSolid | src/lexer.rs:382-386 | a word token covers no whitespace |
| Coverage.EmitCoverage | src/lexer.rs:313-394 | an emitted token followed by tokens covering the rest covers the input from the token's start |
| Coverage.LexFromStep | src/lexer.rs:313-394 | a failing iteration fails the run; a skip leaves the run as from the next character; an emitted token heads the run |
| Coverage.SkipCoverage | src/lexer.rs:387 | a skipped character adds nothing to the visible text |
| Coverage.EmitStepCoverage | src/lexer.rs:313-394 | covering the input after an emitted token covers it from the token's start |
| Coverage.CoverageStep | src/lexer.rs:313-394 | one iteration keeps the coverage of what follows it |
| Examples.EmitStep | src/lexer.rs:313-394 | an emitted token heads the tokens of the rest of the run |
| Examples.SkipStep | src/lexer.rs:387 | a skipped character leaves the tokens of the rest of the run |
| Examples.SpaceSkipped | src/lexer.rs:387 | a space is skipped |
| Examples.SpaceStep | src/lexer.rs:387 | a space adds no token |
| Examples.EndStep | src/lexer.rs:313 | at the end of the input the run yields no tokens |
| Examples.WordStep | src/lexer.rs:386 | a word written out before a space or the end yields its word token |
| Examples.UnderscoreHashWordStep | src/lexer.rs:383-385 | an `_#` word written out yields its word token with the prefix |
| Examples.DecimalStep | src/lexer.rs:218-249 | a grouped integer not starting with `0` yields its `DecimalLit` |
| Examples.RadixStep | src/lexer.rs:173-216 | a radix literal written out yields its literal |
| Examples.DotDispatch | src/lexer.rs:321 | a point before a digit starts the fraction scan past the digit |
| Examples.DigitsPointDispatch | src/lexer.rs:218-226 | integer digits and a point start the fraction scan past the point |
| Examples.PointDispatch | src/lexer.rs:218-226 | both ways into the fraction scanner |
| Examples.PointStopStep | src/lexer.rs:251-274 | a literal with a fraction and no suffix yields its `WithoutExp` literal |
| Examples.PointSiScan | src/lexer.rs:253-255 | fraction digits followed by a multiplier scan to the SI literal |
| Examples.PointSiStep | src/lexer.rs:276-288 | a written-out SI literal with a fraction yields its `SiLit` |
| Examples.ExponentEnd | src/lexer.rs:290-310 | the exponent scan from a marker reaches the end of the written-out digits |
| Examples.PointExpScan | src/lexer.rs:261-263 | fraction digits followed by an exponent scan to the exponent literal |
| Examples.PointExpStep | src/lexer.rs:290-310 | a written-out literal with a fraction and an exponent yields its `WithExp` literal |
| Examples.ExpDispatch | src/lexer.rs:227-229 | integer digits followed by an exponent scan to the exponent literal |
| Examples.ExpStep | src/lexer.rs:290-310 | a written-out integer with an exponent yields its `WithExp` literal |
| LexerTests.DecimalsChain | src/lib.rs:39-47 | any text shaped like `123 456 789` lexes to the three decimal literals |

## Left out

- Unicode general categories and `White_Space` for characters above U+007F become the `CharClasses` parameter, because they come from the `unicode_general_category` crate and from `char::is_whitespace`, which are foreign code. The ASCII part is written out exactly.
- Coverage.Coverage: assumes `Consistent(cc)`, the Unicode database's guarantee that no whitespace character is a letter or a decimal number, because the table is a parameter.
- The text of the two `panic!` messages is not modelled: each panic becomes a `LexError` value holding what the message prints (the text and its bounds, or the character and its position). The scan stops there, as the panic does.
- `StringLit`, `ByteLit` and `Top` are in the `Token` datatype but nothing scans them, as in the source; `Spelling` is not defined for them.
- `lex` returns the token sequence itself instead of a clone, because values cannot alias in the model.
- `usize` overflow of the cursor is not modelled, because a cursor never exceeds the input length.
- `is_newline` and `is_unicode_char` are not modelled: nothing calls them.
- `add` in src/lib.rs is not part of this model: it is unrelated to the lexer.
- Idempotence: proved for words (reserved words and keywords included), radix and decimal integers, SI literals, float literals with and without a fraction, and all operator and punctuation tokens. A fraction literal is covered when its integer part has no `_`. Not proved: that lexing two texts one after the other is lexing their concatenation.
- LexerTests.WordsTest: assumes that `α` and `β` are letters, because the Unicode table is a parameter.
