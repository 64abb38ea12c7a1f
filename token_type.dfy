/** The token kinds of src/token_type.rs and their `Display` table. */
module TokenTypes {
  import opened Wrappers

  datatype TokenType =
    // Single-character tokens.
    | LeftParen | RightParen | LeftBrace | RightBrace | LeftBracket | RightBracket
    | Comma | Dot | Minus | Plus | Semicolon | Slash | Star
    // One or two character tokens.
    | Bang | BangEqual | Equal | EqualEqual | Greater | GreaterEqual | Less | LessEqual
    // Literals.
    | Identifier | String | Number
    // Keywords.
    | And | Class | Else | False | Fun | For | If | Nil | Or | Print | Return
    | Super | This | True | Var | Let | While | Import
    // Other.
    | Eof | Unknown

  /** The kind declared at position n of the enum. */
  function KindAt(n: nat): TokenType
    requires n < 44
  {
    match n
    case 0 => LeftParen
    case 1 => RightParen
    case 2 => LeftBrace
    case 3 => RightBrace
    case 4 => LeftBracket
    case 5 => RightBracket
    case 6 => Comma
    case 7 => Dot
    case 8 => Minus
    case 9 => Plus
    case 10 => Semicolon
    case 11 => Slash
    case 12 => Star
    case 13 => Bang
    case 14 => BangEqual
    case 15 => Equal
    case 16 => EqualEqual
    case 17 => Greater
    case 18 => GreaterEqual
    case 19 => Less
    case 20 => LessEqual
    case 21 => Identifier
    case 22 => String
    case 23 => Number
    case 24 => And
    case 25 => Class
    case 26 => Else
    case 27 => TokenType.False
    case 28 => Fun
    case 29 => For
    case 30 => If
    case 31 => TokenType.Nil
    case 32 => Or
    case 33 => Print
    case 34 => Return
    case 35 => Super
    case 36 => This
    case 37 => TokenType.True
    case 38 => Var
    case 39 => Let
    case 40 => While
    case 41 => Import
    case 42 => Eof
    case _ => Unknown
  }

  /** Every kind, in declaration order. */
  const AllKinds: seq<TokenType> := seq(44, (n: nat) requires n < 44 => KindAt(n))

  /** The position of a kind in the declaration of the enum. */
  function Ordinal(k: TokenType): nat {
    match k
    case LeftParen => 0
    case RightParen => 1
    case LeftBrace => 2
    case RightBrace => 3
    case LeftBracket => 4
    case RightBracket => 5
    case Comma => 6
    case Dot => 7
    case Minus => 8
    case Plus => 9
    case Semicolon => 10
    case Slash => 11
    case Star => 12
    case Bang => 13
    case BangEqual => 14
    case Equal => 15
    case EqualEqual => 16
    case Greater => 17
    case GreaterEqual => 18
    case Less => 19
    case LessEqual => 20
    case Identifier => 21
    case String => 22
    case Number => 23
    case And => 24
    case Class => 25
    case Else => 26
    case False => 27
    case Fun => 28
    case For => 29
    case If => 30
    case Nil => 31
    case Or => 32
    case Print => 33
    case Return => 34
    case Super => 35
    case This => 36
    case True => 37
    case Var => 38
    case Let => 39
    case While => 40
    case Import => 41
    case Eof => 42
    case Unknown => 43
  }

  /** The five groups of the declaration, by position. */
  datatype KindGroup = SingleChar | OneOrTwoChar | LiteralGroup | KeywordGroup | OtherGroup

  function Group(k: TokenType): KindGroup {
    var n := Ordinal(k);
    if n < 13 then SingleChar
    else if n < 21 then OneOrTwoChar
    else if n < 24 then LiteralGroup
    else if n < 42 then KeywordGroup
    else OtherGroup
  }

  /** `TokenType` is a closed enum of exactly 44 variants: AllKinds lists
      every kind at the position Ordinal gives it. */
  lemma KindsAreEnumerated(k: TokenType)
    ensures |AllKinds| == 44 && Ordinal(k) < 44 && AllKinds[Ordinal(k)] == k
  {
    match k
    case LeftParen =>
    case RightParen =>
    case LeftBrace =>
    case RightBrace =>
    case LeftBracket =>
    case RightBracket =>
    case Comma =>
    case Dot =>
    case Minus =>
    case Plus =>
    case Semicolon =>
    case Slash =>
    case Star =>
    case Bang =>
    case BangEqual =>
    case Equal =>
    case EqualEqual =>
    case Greater =>
    case GreaterEqual =>
    case Less =>
    case LessEqual =>
    case Identifier =>
    case String =>
    case Number =>
    case And =>
    case Class =>
    case Else =>
    case False =>
    case Fun =>
    case For =>
    case If =>
    case Nil =>
    case Or =>
    case Print =>
    case Return =>
    case Super =>
    case This =>
    case True =>
    case Var =>
    case Let =>
    case While =>
    case Import =>
    case Eof =>
    case Unknown =>
  }

  /** Ordinal reads a position of AllKinds back. */
  lemma OrdinalOfPosition(i: nat)
    requires i < |AllKinds|
    ensures Ordinal(AllKinds[i]) == i
  {
  }

  /** No kind is listed twice. */
  lemma AllKindsDistinct(i: nat, j: nat)
    requires i < j < |AllKinds|
    ensures AllKinds[i] != AllKinds[j]
  {
    OrdinalOfPosition(i);
    OrdinalOfPosition(j);
  }

  /** The groups are consecutive stretches of the enum: 13 single-character
      kinds, 8 one-or-two-character kinds, 3 literal kinds, 18 keywords,
      and Eof and Unknown. */
  lemma GroupOfPosition(i: nat)
    requires i < |AllKinds|
    ensures Group(AllKinds[i]) == SingleChar <==> i < 13
    ensures Group(AllKinds[i]) == OneOrTwoChar <==> 13 <= i < 21
    ensures Group(AllKinds[i]) == LiteralGroup <==> 21 <= i < 24
    ensures Group(AllKinds[i]) == KeywordGroup <==> 24 <= i < 42
    ensures Group(AllKinds[i]) == OtherGroup <==> 42 <= i < 44
  {
    OrdinalOfPosition(i);
  }
}

/** `impl Display for TokenType` and the derived `Debug` names. */
module TokenTypeDisplay {
  import opened Wrappers
  import opened TokenTypes

  /** `impl Display for TokenType`. */
  function Display(k: TokenType): string {
    match k
    case LeftParen => "')'"
    case RightParen => "')'"
    case LeftBrace => "'{'"
    case RightBrace => "'}'"
    case LeftBracket => "'['"
    case RightBracket => "']'"
    case Comma => "','"
    case Dot => "'.'"
    case Minus => "'-'"
    case Plus => "'+'"
    case Semicolon => "';'"
    case Slash => "'/'"
    case Star => "'*'"
    case Bang => "'!'"
    case BangEqual => "'!='"
    case Equal => "'='"
    case EqualEqual => "'=='"
    case Greater => "'>'"
    case GreaterEqual => "'>='"
    case Less => "'<'"
    case LessEqual => "'<='"
    case Identifier => "identifier"
    case String => "string"
    case Number => "number"
    case And => "'and'"
    case Class => "'class'"
    case Else => "'else'"
    case False => "'false'"
    case Fun => "'fun'"
    case For => "'for'"
    case If => "'if'"
    case Nil => "nil"
    case Or => "'or'"
    case Print => "'print'"
    case Return => "'return'"
    case Super => "'super'"
    case This => "'this'"
    case True => "'true'"
    case Var => "'var'"
    case Let => "'Let'"
    case While => "'while'"
    case Import => "'import'"
    case Eof => "<EOF>"
    case Unknown => "<Unknown>"
  }

  /** Reads a display string back to the kind it names; `')'` reads back as
      RightParen. */
  function KindOfDisplay(s: string): Option<TokenType> {
    match s
    case "')'" => Some(RightParen)
    case "'{'" => Some(LeftBrace)
    case "'}'" => Some(RightBrace)
    case "'['" => Some(LeftBracket)
    case "']'" => Some(RightBracket)
    case "','" => Some(Comma)
    case "'.'" => Some(Dot)
    case "'-'" => Some(Minus)
    case "'+'" => Some(Plus)
    case "';'" => Some(Semicolon)
    case "'/'" => Some(Slash)
    case "'*'" => Some(Star)
    case "'!'" => Some(Bang)
    case "'!='" => Some(BangEqual)
    case "'='" => Some(Equal)
    case "'=='" => Some(EqualEqual)
    case "'>'" => Some(Greater)
    case "'>='" => Some(GreaterEqual)
    case "'<'" => Some(Less)
    case "'<='" => Some(LessEqual)
    case "identifier" => Some(Identifier)
    case "string" => Some(String)
    case "number" => Some(Number)
    case "'and'" => Some(And)
    case "'class'" => Some(Class)
    case "'else'" => Some(Else)
    case "'false'" => Some(TokenType.False)
    case "'fun'" => Some(Fun)
    case "'for'" => Some(For)
    case "'if'" => Some(If)
    case "nil" => Some(TokenType.Nil)
    case "'or'" => Some(Or)
    case "'print'" => Some(Print)
    case "'return'" => Some(Return)
    case "'super'" => Some(Super)
    case "'this'" => Some(This)
    case "'true'" => Some(TokenType.True)
    case "'var'" => Some(Var)
    case "'Let'" => Some(Let)
    case "'while'" => Some(While)
    case "'import'" => Some(Import)
    case "<EOF>" => Some(Eof)
    case "<Unknown>" => Some(Unknown)
    case _ => None
  }

  /** Every kind but LeftParen is recovered from its display. */
  lemma DisplayReadsBack(k: TokenType)
    ensures KindOfDisplay(Display(k)) == Some(if k == LeftParen then RightParen else k)
  {
    match k
    case LeftParen => ReadsBackDelimiters(k);
    case RightParen => ReadsBackDelimiters(k);
    case LeftBrace => ReadsBackDelimiters(k);
    case RightBrace => ReadsBackDelimiters(k);
    case LeftBracket => ReadsBackDelimiters(k);
    case RightBracket => ReadsBackDelimiters(k);
    case Comma => ReadsBackDelimiters(k);
    case Dot => ReadsBackSingles(k);
    case Minus => ReadsBackSingles(k);
    case Plus => ReadsBackSingles(k);
    case Semicolon => ReadsBackSingles(k);
    case Slash => ReadsBackSingles(k);
    case Star => ReadsBackSingles(k);
    case Bang => ReadsBackSingles(k);
    case BangEqual => ReadsBackOperators(k);
    case Equal => ReadsBackOperators(k);
    case EqualEqual => ReadsBackOperators(k);
    case Greater => ReadsBackOperators(k);
    case GreaterEqual => ReadsBackOperators(k);
    case Less => ReadsBackOperators(k);
    case LessEqual => ReadsBackOperators(k);
    case Identifier => ReadsBackLiterals(k);
    case String => ReadsBackLiterals(k);
    case Number => ReadsBackLiterals(k);
    case Eof => ReadsBackLiterals(k);
    case Unknown => ReadsBackLiterals(k);
    case And => ReadsBackKeywordsA(k);
    case Class => ReadsBackKeywordsA(k);
    case Else => ReadsBackKeywordsA(k);
    case False => ReadsBackKeywordsA(k);
    case Fun => ReadsBackKeywordsB(k);
    case For => ReadsBackKeywordsB(k);
    case If => ReadsBackKeywordsB(k);
    case Nil => ReadsBackKeywordsB(k);
    case Or => ReadsBackKeywordsC(k);
    case Print => ReadsBackKeywordsC(k);
    case Return => ReadsBackKeywordsC(k);
    case Super => ReadsBackKeywordsC(k);
    case This => ReadsBackKeywordsD(k);
    case True => ReadsBackKeywordsD(k);
    case Var => ReadsBackKeywordsD(k);
    case Let => ReadsBackKeywordsE(k);
    case While => ReadsBackKeywordsE(k);
    case Import => ReadsBackKeywordsE(k);
  }

  lemma ReadsBackDelimiters(k: TokenType)
    ensures (k == LeftParen || k == RightParen || k == LeftBrace || k == RightBrace || k == LeftBracket || k == RightBracket || k == Comma) ==>
      KindOfDisplay(Display(k)) == Some(if k == LeftParen then RightParen else k)
  {
    if k == LeftParen {
    } else if k == RightParen {
    } else if k == LeftBrace {
    } else if k == RightBrace {
    } else if k == LeftBracket {
    } else if k == RightBracket {
    } else if k == Comma {
    }
  }

  lemma ReadsBackSingles(k: TokenType)
    ensures (k == Dot || k == Minus || k == Plus || k == Semicolon || k == Slash || k == Star || k == Bang) ==>
      KindOfDisplay(Display(k)) == Some(if k == LeftParen then RightParen else k)
  {
    if k == Dot {
    } else if k == Minus {
    } else if k == Plus {
    } else if k == Semicolon {
    } else if k == Slash {
    } else if k == Star {
    } else if k == Bang {
    }
  }

  lemma ReadsBackOperators(k: TokenType)
    ensures (k == BangEqual || k == Equal || k == EqualEqual || k == Greater || k == GreaterEqual || k == Less || k == LessEqual) ==>
      KindOfDisplay(Display(k)) == Some(if k == LeftParen then RightParen else k)
  {
    if k == BangEqual {
    } else if k == Equal {
    } else if k == EqualEqual {
    } else if k == Greater {
    } else if k == GreaterEqual {
    } else if k == Less {
    } else if k == LessEqual {
    }
  }

  lemma ReadsBackLiterals(k: TokenType)
    ensures (k == Identifier || k == TokenType.String || k == Number || k == Eof || k == Unknown) ==>
      KindOfDisplay(Display(k)) == Some(if k == LeftParen then RightParen else k)
  {
    if k == Identifier {
    } else if k == TokenType.String {
    } else if k == Number {
    } else if k == Eof {
    } else if k == Unknown {
    }
  }

  lemma ReadsBackKeywordsA(k: TokenType)
    ensures (k == And || k == Class || k == Else || k == TokenType.False) ==>
      KindOfDisplay(Display(k)) == Some(if k == LeftParen then RightParen else k)
  {
    if k == And {
    } else if k == Class {
    } else if k == Else {
    } else if k == TokenType.False {
    }
  }

  lemma ReadsBackKeywordsB(k: TokenType)
    ensures (k == Fun || k == For || k == If || k == TokenType.Nil) ==>
      KindOfDisplay(Display(k)) == Some(if k == LeftParen then RightParen else k)
  {
    if k == Fun {
    } else if k == For {
    } else if k == If {
    } else if k == TokenType.Nil {
    }
  }

  lemma ReadsBackKeywordsC(k: TokenType)
    ensures (k == Or || k == Print || k == Return || k == Super) ==>
      KindOfDisplay(Display(k)) == Some(if k == LeftParen then RightParen else k)
  {
    if k == Or {
    } else if k == Print {
    } else if k == Return {
    } else if k == Super {
    }
  }

  lemma ReadsBackKeywordsD(k: TokenType)
    ensures (k == This || k == TokenType.True || k == Var) ==>
      KindOfDisplay(Display(k)) == Some(if k == LeftParen then RightParen else k)
  {
    if k == This {
    } else if k == TokenType.True {
    } else if k == Var {
    }
  }

  lemma ReadsBackKeywordsE(k: TokenType)
    ensures (k == Let || k == While || k == Import) ==>
      KindOfDisplay(Display(k)) == Some(if k == LeftParen then RightParen else k)
  {
    if k == Let {
    } else if k == While {
    } else if k == Import {
    }
  }

  /** The display is injective except that LeftParen and RightParen share `')'`. */
  lemma DisplayCollidesOnlyOnParens(a: TokenType, b: TokenType)
    ensures Display(a) == Display(b) <==>
      a == b || (a == LeftParen && b == RightParen) || (a == RightParen && b == LeftParen)
  {
    if Display(a) == Display(b) {
      DisplayReadsBack(a);
      DisplayReadsBack(b);
    }
  }

  /** The `Debug` name of a kind (`{:?}`), used by the token display. */
  function DebugName(k: TokenType): string {
    match k
    case LeftParen => "LeftParen"
    case RightParen => "RightParen"
    case LeftBrace => "LeftBrace"
    case RightBrace => "RightBrace"
    case LeftBracket => "LeftBracket"
    case RightBracket => "RightBracket"
    case Comma => "Comma"
    case Dot => "Dot"
    case Minus => "Minus"
    case Plus => "Plus"
    case Semicolon => "Semicolon"
    case Slash => "Slash"
    case Star => "Star"
    case Bang => "Bang"
    case BangEqual => "BangEqual"
    case Equal => "Equal"
    case EqualEqual => "EqualEqual"
    case Greater => "Greater"
    case GreaterEqual => "GreaterEqual"
    case Less => "Less"
    case LessEqual => "LessEqual"
    case Identifier => "Identifier"
    case String => "String"
    case Number => "Number"
    case And => "And"
    case Class => "Class"
    case Else => "Else"
    case False => "False"
    case Fun => "Fun"
    case For => "For"
    case If => "If"
    case Nil => "Nil"
    case Or => "Or"
    case Print => "Print"
    case Return => "Return"
    case Super => "Super"
    case This => "This"
    case True => "True"
    case Var => "Var"
    case Let => "Let"
    case While => "While"
    case Import => "Import"
    case Eof => "Eof"
    case Unknown => "Unknown"
  }
}
