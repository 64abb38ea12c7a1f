/** The fixed spellings the scanner recognises (src/scanner.rs): the
    single-character table and the one-or-two-character operators of
    `scan_token`, and the keyword table of `Scanner::keyword`. */
module Lexicon {
  import opened Wrappers
  import opened TokenTypes
  import opened TokenTypeDisplay

  /** The text each punctuation, operator and keyword kind is scanned from;
      empty for the kinds with no fixed text. */
  function Spelling(k: TokenType): string {
    match k
    case LeftParen => "("
    case RightParen => ")"
    case LeftBrace => "{"
    case RightBrace => "}"
    case LeftBracket => "["
    case RightBracket => "]"
    case Comma => ","
    case Dot => "."
    case Minus => "-"
    case Plus => "+"
    case Semicolon => ";"
    case Slash => "/"
    case Star => "*"
    case Bang => "!"
    case BangEqual => "!="
    case Equal => "="
    case EqualEqual => "=="
    case Greater => ">"
    case GreaterEqual => ">="
    case Less => "<"
    case LessEqual => "<="
    case And => "and"
    case Class => "class"
    case Else => "else"
    case False => "false"
    case Fun => "fun"
    case For => "for"
    case If => "if"
    case Nil => "nil"
    case Or => "or"
    case Print => "print"
    case Return => "return"
    case Super => "super"
    case This => "this"
    case True => "true"
    case Var => "var"
    case Let => "let"
    case While => "while"
    case Import => "import"
    case _ => ""
  }

  /** The characters `scan_token` turns into a token on their own. The slash
      is not among them: it may open a comment. */
  function SingleCharKind(c: char): Option<TokenType> {
    match c
    case '.' => Some(Dot)
    case '(' => Some(LeftParen)
    case ')' => Some(RightParen)
    case '{' => Some(LeftBrace)
    case '}' => Some(RightBrace)
    case '[' => Some(LeftBracket)
    case ']' => Some(RightBracket)
    case ',' => Some(Comma)
    case '-' => Some(Minus)
    case '+' => Some(Plus)
    case ';' => Some(Semicolon)
    case '*' => Some(Star)
    case _ => None
  }

  /** The operators that may take a following `=`: the kind alone and the
      kind with `=`. */
  function OperatorKinds(c: char): Option<(TokenType, TokenType)> {
    match c
    case '!' => Some((Bang, BangEqual))
    case '=' => Some((Equal, EqualEqual))
    case '<' => Some((Less, LessEqual))
    case '>' => Some((Greater, GreaterEqual))
    case _ => None
  }

  /** `Scanner::keyword`. */
  function Keyword(text: string): Option<TokenType> {
    match text
    case "and" => Some(And)
    case "class" => Some(Class)
    case "else" => Some(Else)
    case "false" => Some(TokenType.False)
    case "for" => Some(For)
    case "fun" => Some(Fun)
    case "if" => Some(If)
    case "nil" => Some(TokenType.Nil)
    case "or" => Some(Or)
    case "print" => Some(Print)
    case "return" => Some(Return)
    case "super" => Some(Super)
    case "this" => Some(This)
    case "true" => Some(TokenType.True)
    case "var" => Some(Var)
    case "let" => Some(Let)
    case "while" => Some(While)
    case "import" => Some(Import)
    case _ => None
  }

  /** A character of the single-character table yields a single-character
      kind spelled by exactly that character, and every single-character
      kind except Slash is reached this way. */
  lemma SingleCharTable(c: char, k: TokenType)
    ensures SingleCharKind(c) == Some(k) <==> Group(k) == SingleChar && k != Slash && Spelling(k) == [c]
  {
    if SingleCharKind(c) == Some(k) {
      SingleCharSound(c);
    }
    SingleCharComplete(k);
  }

  lemma SingleCharSound(c: char)
    ensures SingleCharKind(c).Some? ==>
      var k := SingleCharKind(c).value;
      Group(k) == SingleChar && k != Slash && Spelling(k) == [c]
  {
    match c
    case '.' => assert Group(Dot) == SingleChar;
    case '(' => assert Group(LeftParen) == SingleChar;
    case ')' => assert Group(RightParen) == SingleChar;
    case '{' => assert Group(LeftBrace) == SingleChar;
    case '}' => assert Group(RightBrace) == SingleChar;
    case '[' => assert Group(LeftBracket) == SingleChar;
    case ']' => assert Group(RightBracket) == SingleChar;
    case ',' => assert Group(Comma) == SingleChar;
    case '-' => assert Group(Minus) == SingleChar;
    case '+' => assert Group(Plus) == SingleChar;
    case ';' => assert Group(Semicolon) == SingleChar;
    case '*' => assert Group(Star) == SingleChar;
    case _ =>
  }

  lemma SingleCharComplete(k: TokenType)
    ensures Group(k) == SingleChar && k != Slash ==>
      |Spelling(k)| == 1 && SingleCharKind(Spelling(k)[0]) == Some(k)
  {
    match k
    case LeftParen =>
    case RightParen =>
    case LeftBrace =>
    case RightBrace =>
    case LeftBracket =>
    case RightBracket =>
    case Comma =>
    case Dot =>
    case Minus =>
    case Plus =>
    case Semicolon =>
    case Slash =>
    case Star =>
    case Bang =>
    case BangEqual =>
    case Equal =>
    case EqualEqual =>
    case Greater =>
    case GreaterEqual =>
    case Less =>
    case LessEqual =>
    case Identifier =>
    case String =>
    case Number =>
    case And =>
    case Class =>
    case Else =>
    case False =>
    case Fun =>
    case For =>
    case If =>
    case Nil =>
    case Or =>
    case Print =>
    case Return =>
    case Super =>
    case This =>
    case True =>
    case Var =>
    case Let =>
    case While =>
    case Import =>
    case Eof =>
    case Unknown =>
  }

  /** An operator character yields its one-character kind and the kind
      spelled with a trailing `=`, both of the one-or-two-character group
      (that every kind of the group is reached is OperatorTableCovers). */
  lemma OperatorTable(c: char)
    ensures OperatorKinds(c).Some? ==>
      var (one, two) := OperatorKinds(c).value;
      Group(one) == OneOrTwoChar && Group(two) == OneOrTwoChar
      && Spelling(one) == [c] && Spelling(two) == [c, '=']
  {
  }

  lemma OperatorTableCovers(k: TokenType)
    requires Group(k) == OneOrTwoChar
    ensures OperatorKinds(Spelling(k)[0]).Some?
    ensures k in {OperatorKinds(Spelling(k)[0]).value.0, OperatorKinds(Spelling(k)[0]).value.1}
  {
    match k
    case Bang =>
    case BangEqual =>
    case Equal =>
    case EqualEqual =>
    case Greater =>
    case GreaterEqual =>
    case Less =>
    case LessEqual =>
  }

  /** The keyword table is exactly the spellings of the eighteen keyword
      kinds: a word is a keyword if and only if it spells one. */
  lemma KeywordTable(text: string, k: TokenType)
    ensures Keyword(text) == Some(k) <==> Group(k) == KeywordGroup && Spelling(k) == text
  {
    KeywordSound(text);
    KeywordComplete(k);
  }

  lemma KeywordSound(text: string)
    ensures Keyword(text).Some? ==>
      Group(Keyword(text).value) == KeywordGroup && Spelling(Keyword(text).value) == text
  {
    if Keyword(text).Some? {
      KeywordSpelled(text);
      KeywordGrouped(Keyword(text).value);
    }
  }

  lemma KeywordSpelled(text: string)
    ensures Keyword(text).Some? ==> Spelling(Keyword(text).value) == text
  {
  }

  /** The kinds the keyword table yields. */
  const KeywordKinds: set<TokenType> :=
    {And, Class, Else, TokenType.False, For, Fun, If, TokenType.Nil, Or, Print, Return,
     Super, This, TokenType.True, Var, Let, While, Import}

  /** The kinds the keyword table yields all belong to the keyword group. */
  lemma KeywordGrouped(k: TokenType)
    ensures k in KeywordKinds ==> Group(k) == KeywordGroup
  {
    match k
    case LeftParen =>
    case RightParen =>
    case LeftBrace =>
    case RightBrace =>
    case LeftBracket =>
    case RightBracket =>
    case Comma =>
    case Dot =>
    case Minus =>
    case Plus =>
    case Semicolon =>
    case Slash =>
    case Star =>
    case Bang =>
    case BangEqual =>
    case Equal =>
    case EqualEqual =>
    case Greater =>
    case GreaterEqual =>
    case Less =>
    case LessEqual =>
    case Identifier =>
    case String =>
    case Number =>
    case And =>
    case Class =>
    case Else =>
    case False =>
    case Fun =>
    case For =>
    case If =>
    case Nil =>
    case Or =>
    case Print =>
    case Return =>
    case Super =>
    case This =>
    case True =>
    case Var =>
    case Let =>
    case While =>
    case Import =>
    case Eof =>
    case Unknown =>
  }

  lemma KeywordComplete(k: TokenType)
    ensures Group(k) == KeywordGroup ==> Keyword(Spelling(k)) == Some(k)
  {
    match k
    case LeftParen =>
    case RightParen =>
    case LeftBrace =>
    case RightBrace =>
    case LeftBracket =>
    case RightBracket =>
    case Comma =>
    case Dot =>
    case Minus =>
    case Plus =>
    case Semicolon =>
    case Slash =>
    case Star =>
    case Bang =>
    case BangEqual =>
    case Equal =>
    case EqualEqual =>
    case Greater =>
    case GreaterEqual =>
    case Less =>
    case LessEqual =>
    case Identifier =>
    case String =>
    case Number =>
    case And =>
    case Class =>
    case Else =>
    case False =>
    case Fun =>
    case For =>
    case If =>
    case Nil =>
    case Or =>
    case Print =>
    case Return =>
    case Super =>
    case This =>
    case True =>
    case Var =>
    case Let =>
    case While =>
    case Import =>
    case Eof =>
    case Unknown =>
  }

  /** The Display of a punctuation, operator or keyword kind is its scanned
      text in single quotes, except LeftParen (shown as `')'`), Nil (shown
      bare as `nil`) and Let (shown capitalised as `'Let'`). */
  lemma DisplayQuotesSpelling(k: TokenType)
    ensures Group(k) in {SingleChar, OneOrTwoChar, KeywordGroup} ==>
      Display(k) == QuotedSpelling(k)
  {
    match k
    case LeftParen => QuotedParens(k);
    case RightParen => QuotedParens(k);
    case LeftBrace => QuotedParens(k);
    case RightBrace => QuotedParens(k);
    case LeftBracket => QuotedBrackets(k);
    case RightBracket => QuotedBrackets(k);
    case Comma => QuotedBrackets(k);
    case Dot => QuotedBrackets(k);
    case Minus => QuotedArithmetic(k);
    case Plus => QuotedArithmetic(k);
    case Semicolon => QuotedArithmetic(k);
    case Slash => QuotedArithmetic(k);
    case Star => QuotedArithmetic(k);
    case Bang => QuotedBangs(k);
    case BangEqual => QuotedBangs(k);
    case Equal => QuotedBangs(k);
    case EqualEqual => QuotedBangs(k);
    case Greater => QuotedComparisons(k);
    case GreaterEqual => QuotedComparisons(k);
    case Less => QuotedComparisons(k);
    case LessEqual => QuotedComparisons(k);
    case Identifier =>
    case String =>
    case Number =>
    case And => QuotedKeywordsA(k);
    case Class => QuotedKeywordsA(k);
    case Else => QuotedKeywordsA(k);
    case False => QuotedKeywordsA(k);
    case Fun => QuotedKeywordsB(k);
    case For => QuotedKeywordsB(k);
    case If => QuotedKeywordsB(k);
    case Nil => QuotedKeywordsB(k);
    case Or => QuotedKeywordsC(k);
    case Print => QuotedKeywordsC(k);
    case Return => QuotedKeywordsC(k);
    case Super => QuotedKeywordsC(k);
    case This => QuotedKeywordsD(k);
    case True => QuotedKeywordsD(k);
    case Var => QuotedKeywordsD(k);
    case Let => QuotedKeywordsE(k);
    case While => QuotedKeywordsE(k);
    case Import => QuotedKeywordsE(k);
    case Eof =>
    case Unknown =>
  }

  /** A kind's scanned text in single quotes, with the three exceptions of
      the Display table. */
  function QuotedSpelling(k: TokenType): string {
    if k == LeftParen then "')'"
    else if k == TokenType.Nil then "nil"
    else if k == Let then "'Let'"
    else "'" + Spelling(k) + "'"
  }

  lemma QuotedParens(k: TokenType)
    ensures (k == LeftParen || k == RightParen || k == LeftBrace || k == RightBrace) ==>
      Display(k) == QuotedSpelling(k)
  {
    if k == LeftParen {
    } else if k == RightParen {
    } else if k == LeftBrace {
    } else if k == RightBrace {
    }
  }

  lemma QuotedBrackets(k: TokenType)
    ensures (k == LeftBracket || k == RightBracket || k == Comma || k == Dot) ==>
      Display(k) == QuotedSpelling(k)
  {
    if k == LeftBracket {
    } else if k == RightBracket {
    } else if k == Comma {
    } else if k == Dot {
    }
  }

  lemma QuotedArithmetic(k: TokenType)
    ensures (k == Minus || k == Plus || k == Semicolon || k == Slash || k == Star) ==>
      Display(k) == QuotedSpelling(k)
  {
    if k == Minus {
    } else if k == Plus {
    } else if k == Semicolon {
    } else if k == Slash {
    } else if k == Star {
    }
  }

  lemma QuotedBangs(k: TokenType)
    ensures (k == Bang || k == BangEqual || k == Equal || k == EqualEqual) ==>
      Display(k) == QuotedSpelling(k)
  {
    if k == Bang {
    } else if k == BangEqual {
    } else if k == Equal {
    } else if k == EqualEqual {
    }
  }

  lemma QuotedComparisons(k: TokenType)
    ensures (k == Greater || k == GreaterEqual || k == Less || k == LessEqual) ==>
      Display(k) == QuotedSpelling(k)
  {
    if k == Greater {
    } else if k == GreaterEqual {
    } else if k == Less {
    } else if k == LessEqual {
    }
  }

  lemma QuotedKeywordsA(k: TokenType)
    ensures (k == And || k == Class || k == Else || k == TokenType.False) ==>
      Display(k) == QuotedSpelling(k)
  {
    if k == And {
    } else if k == Class {
    } else if k == Else {
    } else if k == TokenType.False {
    }
  }

  lemma QuotedKeywordsB(k: TokenType)
    ensures (k == Fun || k == For || k == If || k == TokenType.Nil) ==>
      Display(k) == QuotedSpelling(k)
  {
    if k == Fun {
    } else if k == For {
    } else if k == If {
    } else if k == TokenType.Nil {
    }
  }

  lemma QuotedKeywordsC(k: TokenType)
    ensures (k == Or || k == Print || k == Return || k == Super) ==>
      Display(k) == QuotedSpelling(k)
  {
    if k == Or {
    } else if k == Print {
    } else if k == Return {
    } else if k == Super {
    }
  }

  lemma QuotedKeywordsD(k: TokenType)
    ensures (k == This || k == TokenType.True || k == Var) ==>
      Display(k) == QuotedSpelling(k)
  {
    if k == This {
    } else if k == TokenType.True {
    } else if k == Var {
    }
  }

  lemma QuotedKeywordsE(k: TokenType)
    ensures (k == Let || k == While || k == Import) ==>
      Display(k) == QuotedSpelling(k)
  {
    if k == Let {
    } else if k == While {
    } else if k == Import {
    }
  }


}
