/** Literal values and tokens (src/tokens.rs). */
module Tokens {
  import opened Wrappers
  import opened TokenTypes
  import opened TokenTypeDisplay

  /** The literal union. A number keeps the digit text the scanner read
      instead of the `f64` the source parses it into; its display is that
      text. */
  datatype Object = Num(text: string) | Str(s: string) | Nil | True | False

  /** `impl Display for Object`. */
  function ObjectDisplay(o: Object): string {
    match o
    case Num(n) => n
    case Str(s) => "\"" + s + "\""
    case Nil => "nil"
    case True => "true"
    case False => "false"
  }

  predicate IsDigit(c: char) {
    '0' <= c <= '9'
  }

  /** A number's text as the scanner produces it starts with a digit. */
  predicate WellFormedObject(o: Object) {
    o.Num? ==> |o.text| > 0 && IsDigit(o.text[0])
  }

  /** The text between the quotes of a quoted display, if it is one. */
  function Unquoted(d: string): Option<string> {
    if 2 <= |d| && d[0] == '"' && d[|d| - 1] == '"' then Some(d[1..|d| - 1]) else None
  }

  /** A string displays as its text in double quotes and only a string
      displays that way: unquoting the display gives the text back. */
  lemma UnquoteDisplay(o: Object)
    requires WellFormedObject(o)
    ensures Unquoted(ObjectDisplay(o)) == if o.Str? then Some(o.s) else None
  {
    if o.Str? {
      var d := ObjectDisplay(o);
      assert d[1..|d| - 1] == o.s;
    }
  }

  /** Distinct well-formed values have distinct displays. */
  lemma ObjectDisplayInjective(a: Object, b: Object)
    requires WellFormedObject(a) && WellFormedObject(b)
    requires ObjectDisplay(a) == ObjectDisplay(b)
    ensures a == b
  {
    UnquoteDisplay(a);
    UnquoteDisplay(b);
    var d := ObjectDisplay(a);
    if a.Num? || b.Num? {
      assert IsDigit(d[0]);
    }
  }

  /** `Token`; `Token::new` is this constructor, storing its four arguments. */
  datatype Token = Token(kind: TokenType, lexeme: string, literal: Option<Object>, line: nat)

  /** `Token::eof`. */
  function EofToken(line: nat): Token {
    Token(Eof, "", None, line)
  }

  /** `impl Display for Token`: the kind's `Debug` name, the lexeme and the
      literal's display or `None`, separated by single spaces. */
  function TokenDisplay(t: Token): string {
    DebugName(t.kind) + " " + t.lexeme + " "
    + match t.literal
      case Some(v) => ObjectDisplay(v)
      case None => "None"
  }

  /** The end-of-input token of line `l` carries kind Eof, no text and no
      literal, and displays with an empty lexeme between its two spaces. */
  lemma EofTokenShape(l: nat)
    ensures EofToken(l).kind == Eof && EofToken(l).lexeme == [] && EofToken(l).literal == None
    ensures EofToken(l).line == l
    ensures TokenDisplay(EofToken(l)) == "Eof  None"
  {
  }
}
