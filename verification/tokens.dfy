/**
  The vocabulary of the Lox tokenizer: token kinds and their printed names,
  the three fixed tables (one-character tokens, two-character operators,
  reserved words), the character classes the scanner tests, and the shape a
  well-formed token has.
*/
module Tokens {

  /** The closed set of token kinds. */
  datatype Kind =
    | LeftParen | RightParen | LeftBrace | RightBrace
    | Comma | Dot | Minus | Plus | Semicolon | Star | Slash
    | Equal | EqualEqual | Bang | BangEqual
    | Less | LessEqual | Greater | GreaterEqual
    | String | Number | Identifier
    | Reserved(keyword: Keyword)
    | Eof

  /** The kinds of the sixteen reserved words. */
  datatype Keyword =
    | KwAnd | KwClass | KwElse | KwFalse | KwFor | KwFun | KwIf | KwNil
    | KwOr | KwPrint | KwReturn | KwSuper | KwThis | KwTrue | KwVar | KwWhile

  /** The name a kind is printed with, the first field of a token line. */
  function Name(k: Kind): string {
    match k
    case LeftParen => "LEFT_PAREN"
    case RightParen => "RIGHT_PAREN"
    case LeftBrace => "LEFT_BRACE"
    case RightBrace => "RIGHT_BRACE"
    case Comma => "COMMA"
    case Dot => "DOT"
    case Minus => "MINUS"
    case Plus => "PLUS"
    case Semicolon => "SEMICOLON"
    case Star => "STAR"
    case Slash => "SLASH"
    case Equal => "EQUAL"
    case EqualEqual => "EQUAL_EQUAL"
    case Bang => "BANG"
    case BangEqual => "BANG_EQUAL"
    case Less => "LESS"
    case LessEqual => "LESS_EQUAL"
    case Greater => "GREATER"
    case GreaterEqual => "GREATER_EQUAL"
    case String => "STRING"
    case Number => "NUMBER"
    case Identifier => "IDENTIFIER"
    case Reserved(kw) => KeywordName(kw)
    case Eof => "EOF"
  }

  function KeywordName(kw: Keyword): string {
    match kw
    case KwAnd => "AND"
    case KwClass => "CLASS"
    case KwElse => "ELSE"
    case KwFalse => "FALSE"
    case KwFor => "FOR"
    case KwFun => "FUN"
    case KwIf => "IF"
    case KwNil => "NIL"
    case KwOr => "OR"
    case KwPrint => "PRINT"
    case KwReturn => "RETURN"
    case KwSuper => "SUPER"
    case KwThis => "THIS"
    case KwTrue => "TRUE"
    case KwVar => "VAR"
    case KwWhile => "WHILE"
  }

  /**
    The third field of a token line. `Null` prints as `null`; `Text(v)` prints
    `v` verbatim; `FloatRepr(n)` stands for the text Python's `str(float(n))`
    gives for the numeral `n` (floating-point parsing and printing are not
    modelled, so the value is kept symbolic).
  */
  datatype Literal = Null | Text(value: string) | FloatRepr(numeral: string)

  /** One line of standard output: `<KIND> <lexeme> <literal>`. */
  datatype Token = Token(kind: Kind, lexeme: string, literal: Literal)

  /** One line of standard error, with its 1-based physical line number. */
  datatype Diagnostic =
    | UnexpectedCharacter(line: nat, c: char)
    | UnterminatedString(line: nat)

  /** The end marker, printed as `EOF  null`. */
  const EofToken: Token := Token(Eof, "", Null)

  /** Characters that are tokens on their own. */
  const OneChar: map<char, Kind> := map[
    '(' := LeftParen, ')' := RightParen, '{' := LeftBrace, '}' := RightBrace,
    ',' := Comma, '.' := Dot, '-' := Minus, '+' := Plus, ';' := Semicolon,
    '*' := Star, '=' := Equal, '!' := Bang, '<' := Less, '>' := Greater,
    '/' := Slash
  ]

  /** An operator character is no space, quote, digit or identifier character. */
  lemma OperatorCharClass(c: char)
    requires c in OneChar
    ensures !IsSpace(c) && c != '\"' && !IsIdentPart(c)
  {
  }

  /** The operators merged from two characters. */
  const TwoChar: map<string, Kind> := map[
    "==" := EqualEqual, "!=" := BangEqual, "<=" := LessEqual, ">=" := GreaterEqual
  ]

  /** Exactly `!`, `=`, `<` and `>` merge, and only with a following `=`. */
  lemma MergesWith(a: char, b: char)
    ensures [a, b] in TwoChar <==> b == '=' && (a == '=' || a == '!' || a == '<' || a == '>')
  {
    if b == '=' && (a == '=' || a == '!' || a == '<' || a == '>') {
      assert [a, b] in TwoChar.Keys;
    } else {
      assert [a, b] != "==" && [a, b] != "!=" && [a, b] != "<=" && [a, b] != ">=";
    }
  }

  const ReservedWords: seq<string> := [
    "and", "class", "else", "false", "for", "fun", "if", "nil",
    "or", "print", "return", "super", "this", "true", "var", "while"
  ]

  /** The keywords, position by position with `ReservedWords`. */
  const Keywords: seq<Keyword> := [
    KwAnd, KwClass, KwElse, KwFalse, KwFor, KwFun, KwIf, KwNil,
    KwOr, KwPrint, KwReturn, KwSuper, KwThis, KwTrue, KwVar, KwWhile
  ]

  /** The first position of `w` in `ws`. */
  function IndexOf(ws: seq<string>, w: string): (i: nat)
    requires w in ws
    ensures i < |ws| && ws[i] == w
  {
    if ws[0] == w then 0 else 1 + IndexOf(ws[1..], w)
  }

  /** The keyword kind of a reserved word. */
  function KeywordKind(w: string): (k: Kind)
    requires w in ReservedWords
    ensures k.Reserved?
  {
    Reserved(Keywords[IndexOf(ReservedWords, w)])
  }

  function UpperChar(c: char): char {
    if 'a' <= c <= 'z' then (c as int - 32) as char else c
  }

  /** Upper-casing, as `str.upper` does on ASCII text. */
  function Upper(w: string): (u: string)
    ensures |u| == |w|
    ensures forall i :: 0 <= i < |w| ==> u[i] == UpperChar(w[i])
  {
    seq(|w|, i requires 0 <= i < |w| => UpperChar(w[i]))
  }

  /**
    A keyword is printed under its reserved word upper-cased, which is how the
    scanner names it.
  */
  lemma KeywordNameIsUpper(w: string)
    requires w in ReservedWords
    ensures Name(KeywordKind(w)) == Upper(w)
  {
    var i := IndexOf(ReservedWords, w);
    KeywordNameIsUpperAt(i);
  }

  lemma KeywordNameIsUpperAt(i: nat)
    requires i < |ReservedWords|
    ensures Name(Reserved(Keywords[i])) == Upper(ReservedWords[i])
  {
    if i < 8 {
      KeywordNameIsUpperLow(i);
    } else {
      KeywordNameIsUpperHigh(i);
    }
  }

  lemma KeywordNameIsUpperLow(i: nat)
    requires 0 <= i < 8
    ensures KeywordName(Keywords[i]) == Upper(ReservedWords[i])
  {
    match i
    case 0 => assert Keywords[0] == KwAnd; assert KeywordName(KwAnd) == "AND"; assert Upper("and") == "AND";
    case 1 => assert Keywords[1] == KwClass; assert KeywordName(KwClass) == "CLASS"; assert Upper("class") == "CLASS";
    case 2 => assert Keywords[2] == KwElse; assert KeywordName(KwElse) == "ELSE"; assert Upper("else") == "ELSE";
    case 3 => assert Keywords[3] == KwFalse; assert KeywordName(KwFalse) == "FALSE"; assert Upper("false") == "FALSE";
    case 4 => assert Keywords[4] == KwFor; assert KeywordName(KwFor) == "FOR"; assert Upper("for") == "FOR";
    case 5 => assert Keywords[5] == KwFun; assert KeywordName(KwFun) == "FUN"; assert Upper("fun") == "FUN";
    case 6 => assert Keywords[6] == KwIf; assert KeywordName(KwIf) == "IF"; assert Upper("if") == "IF";
    case 7 => assert Keywords[7] == KwNil; assert KeywordName(KwNil) == "NIL"; assert Upper("nil") == "NIL";
  }

  lemma KeywordNameIsUpperHigh(i: nat)
    requires 8 <= i < 16
    ensures KeywordName(Keywords[i]) == Upper(ReservedWords[i])
  {
    match i
    case 8 => assert Keywords[8] == KwOr; assert KeywordName(KwOr) == "OR"; assert Upper("or") == "OR";
    case 9 => assert Keywords[9] == KwPrint; assert KeywordName(KwPrint) == "PRINT"; assert Upper("print") == "PRINT";
    case 10 => assert Keywords[10] == KwReturn; assert KeywordName(KwReturn) == "RETURN"; assert Upper("return") == "RETURN";
    case 11 => assert Keywords[11] == KwSuper; assert KeywordName(KwSuper) == "SUPER"; assert Upper("super") == "SUPER";
    case 12 => assert Keywords[12] == KwThis; assert KeywordName(KwThis) == "THIS"; assert Upper("this") == "THIS";
    case 13 => assert Keywords[13] == KwTrue; assert KeywordName(KwTrue) == "TRUE"; assert Upper("true") == "TRUE";
    case 14 => assert Keywords[14] == KwVar; assert KeywordName(KwVar) == "VAR"; assert Upper("var") == "VAR";
    case 15 => assert Keywords[15] == KwWhile; assert KeywordName(KwWhile) == "WHILE"; assert Upper("while") == "WHILE";
  }

  predicate IsDigit(c: char) {
    '0' <= c <= '9'
  }

  /** The class `[a-zA-Z_]`. */
  predicate IsIdentStart(c: char) {
    'a' <= c <= 'z' || 'A' <= c <= 'Z' || c == '_'
  }

  /** The class `[a-zA-Z_0-9]`. */
  predicate IsIdentPart(c: char) {
    IsIdentStart(c) || IsDigit(c)
  }

  /**
    Python's `str.isspace`: the ASCII controls 9-13 and 28-31, the space, and
    the Unicode separators and spaces.
  */
  predicate IsSpace(c: char) {
    var n := c as int;
    || 9 <= n <= 13 || 28 <= n <= 32 || n == 0x85 || n == 0xA0 || n == 0x1680
    || 0x2000 <= n <= 0x200A || n == 0x2028 || n == 0x2029 || n == 0x202F
    || n == 0x205F || n == 0x3000
  }

  /** Text matching `[A-Za-z_][A-Za-z0-9_]*`. */
  predicate IsIdentifierWord(w: string) {
    && |w| > 0
    && IsIdentStart(w[0])
    && forall i :: 0 <= i < |w| ==> IsIdentPart(w[i])
  }

  /** No two positions of `w` both hold a `.`. */
  predicate AtMostOneDot(w: string) {
    forall i, j :: 0 <= i < j < |w| && w[i] == '.' ==> w[j] != '.'
  }

  /** Text the number buffer can hold: a digit, then digits and at most one `.`. */
  predicate IsNumeral(w: string) {
    && |w| > 0
    && IsDigit(w[0])
    && (forall i :: 0 <= i < |w| ==> IsDigit(w[i]) || w[i] == '.')
    && AtMostOneDot(w)
  }

  /** `w` is the text of operator kind `k`, from one of the two operator tables. */
  predicate IsOperatorLexeme(w: string, k: Kind) {
    || (|w| == 1 && w[0] in OneChar && OneChar[w[0]] == k)
    || (w in TwoChar && TwoChar[w] == k)
  }

  /**
    The agreement between a token's kind, lexeme and literal that every token
    the scanner prints satisfies.
  */
  predicate ValidToken(t: Token) {
    match t.kind
    case String =>
      && t.literal.Text?
      && '\"' !in t.literal.value
      && t.lexeme == "\"" + t.literal.value + "\""
    case Number =>
      && IsNumeral(t.lexeme)
      && t.literal in {FloatRepr(t.lexeme), FloatRepr(t.lexeme + "."), Text(t.lexeme)}
    case Identifier =>
      && t.literal == Null
      && IsIdentifierWord(t.lexeme)
      && t.lexeme !in ReservedWords
    case Eof =>
      t == EofToken
    case _ =>
      && t.literal == Null
      && if t.kind.Reserved? then t.lexeme in ReservedWords && KeywordKind(t.lexeme) == t.kind
         else IsOperatorLexeme(t.lexeme, t.kind)
  }
}
