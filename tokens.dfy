/**
 * The token vocabulary of the lexer: integer and float literal forms and the
 * token type itself. Literal payloads keep the text exactly as written.
 */
module Tokens {

  /** An 8-bit byte, the element type of a byte literal. */
  type byte = x: int | 0 <= x < 256

  /** The lexical form of an integer literal, prefix and `_` separators included. */
  datatype IntLit =
    | DecimalLit(text: string)
    | SiLit(mantissa: string, unit: string)
    | OctalLit(text: string)
    | BinaryLit(text: string)
    | HexLit(text: string)

  /** The lexical form of a floating-point literal. */
  datatype FloatLit =
    | WithExp(mantissa: string, exponent: string)
    | WithoutExp(text: string)

  datatype Token =
    | Identifier(name: string)
    | Keyword(name: string)
    | Null
    | BConst(value: bool)
    | Package
    | Import
    | For
    | In
    | If
    | Let
    | Add
    | Sub
    | Mul
    | Div
    | BolAnd
    | BolOr
    | And
    | Or
    | Eq
    | NotEq
    | PatternEq
    | PatternNotEq
    | Less
    | Greater
    | LessEq
    | GreaterEq
    | Assign
    | Colon
    | Question
    | Exlamation
    | LParen
    | RParen
    | LBrace
    | RBrace
    | LBracket
    | RBracket
    | Bottom
    | Top
    | Ellipsis
    | Comma
    | Dot
    | IntLit(intLit: IntLit)
    | FloatLit(floatLit: FloatLit)
    | StringLit(chars: string)
    | ByteLit(bytes: seq<byte>)

  /** The tokens the scanner can produce: `Top`, `StringLit` and `ByteLit` are declared but never scanned. */
  predicate Scannable(t: Token) {
    !(t.Top? || t.StringLit? || t.ByteLit?)
  }

  /** The source text of an integer literal. */
  function IntText(l: IntLit): string {
    match l
    case DecimalLit(x) => x
    case SiLit(m, u) => m + u
    case OctalLit(x) => x
    case BinaryLit(x) => x
    case HexLit(x) => x
  }

  /** The source text of a float literal. */
  function FloatText(f: FloatLit): string {
    match f
    case WithExp(m, e) => m + e
    case WithoutExp(x) => x
  }

  /** The brace characters, written by their code points. */
  const OpenBrace: char := '\U{7B}'
  const CloseBrace: char := '\U{7D}'

  /** The source text a scannable token stands for. */
  function Spelling(t: Token): string
    requires Scannable(t)
  {
    match t
    case Identifier(x) => x
    case Keyword(x) => x
    case Null => "null"
    case BConst(b) => if b then "true" else "false"
    case Package => "package"
    case Import => "import"
    case For => "for"
    case In => "in"
    case If => "if"
    case Let => "let"
    case Add => "+"
    case Sub => "-"
    case Mul => "*"
    case Div => "/"
    case BolAnd => "&&"
    case BolOr => "||"
    case And => "&"
    case Or => "|"
    case Eq => "=="
    case NotEq => "!="
    case PatternEq => "=~"
    case PatternNotEq => "!~"
    case Less => "<"
    case Greater => ">"
    case LessEq => "<="
    case GreaterEq => ">="
    case Assign => "="
    case Colon => ":"
    case Question => "?"
    case Exlamation => "!"
    case LParen => "("
    case RParen => ")"
    case LBrace => [OpenBrace]
    case RBrace => [CloseBrace]
    case LBracket => "["
    case RBracket => "]"
    case Bottom => "_|_"
    case Ellipsis => "..."
    case Comma => ","
    case Dot => "."
    case IntLit(l) => IntText(l)
    case FloatLit(f) => FloatText(f)
  }

  /** The concatenated source text of a sequence of scannable tokens. */
  function Spell(ts: seq<Token>): string
    requires forall k | 0 <= k < |ts| :: Scannable(ts[k])
  {
    if ts == [] then "" else Spelling(ts[0]) + Spell(ts[1..])
  }
}
