/**
  Concrete runs: cases from the repository's test table, and the inputs
  that show the scanner's behaviour right after a number. Each line is
  walked through in short stretches with the lemmas about single
  constructs; end of input is then settled by `Finish`.
*/
module Examples {
  import opened Tokens
  import opened Scanning
  import opened Lexer
  import opened Behaviour

  function Op(k: Kind, w: string): Token {
    Token(k, w, Null)
  }

  /** A one-line file prints what its line printed, then what end of input adds. */
  lemma OneLine(line: string, s: Scanner)
    requires ScanLine(Start, line, 0, 0, 1) == s
    requires s.inNumber ==> |s.numberBuf| > 0
    ensures Tokenize([line]) == Finish(s, 1)
  {
    assert ScanLines(Start, [line], 0) == s;
  }

  /**
    With no number or identifier open, end of input prints only the end
    marker, and reports a string left open.
  */
  lemma EndsClosed(s: Scanner, n: nat)
    requires !s.inNumber && !s.inIdent
    ensures Finish(s, n)
            == Outcome(s.tokens + [EofToken],
                       s.diagnostics + (if s.inString then [UnterminatedString(n)] else []),
                       if s.inString then ErrorExit else s.exitCode)
  {
    FinishShape(s, n);
  }

  /** An identifier open at end of input is printed before the end marker. */
  lemma EndsInWord(s: Scanner, n: nat)
    requires !s.inString && !s.inNumber && s.inIdent
    ensures Finish(s, n).tokens == s.tokens + [IdentifierToken(s.identBuf), EofToken]
  {
    FinishShape(s, n);
  }

  /** A number open at end of input is printed before the end marker. */
  lemma EndsInNumber(s: Scanner, n: nat)
    requires !s.inString && s.inNumber && !s.inIdent && |s.numberBuf| > 0
    ensures Finish(s, n).tokens == s.tokens + NumberAtEnd(s.numberBuf) + [EofToken]
  {
    FinishShape(s, n);
  }

  lemma EmptyFile()
    ensures Tokenize([]) == Outcome([EofToken], [], 0)
  {
  }

  lemma CommentOnly()
    ensures Tokenize(["// Comment"]) == Outcome([EofToken], [], 0)
  {
  }

  lemma LoneSlash()
    ensures Tokenize(["/"]) == Outcome([Op(Slash, "/"), EofToken], [], 0)
  {
  }

  lemma ParenthesesOpen(l: string)
    requires l == "(()"
    ensures ScanLine(Start, l, 0, 0, 1)
            == ScanLine(Start.(tokens := [Op(LeftParen, "("), Op(LeftParen, "(")]), l, 2, 0, 1)
  {
    var t := Op(LeftParen, "(");
    var s1 := Start.(tokens := [t]);
    var s2 := Start.(tokens := [t, t]);
    assert OneChar[l[0]] == LeftParen && [l[0]] == "(";
    assert Emit(IdentifierClosed(Start), Token(OneChar[l[0]], [l[0]], Null)) == s1;
    SingleOperator(Start, l, 0, 1);
    assert OneChar[l[1]] == LeftParen && [l[1]] == "(";
    assert Emit(IdentifierClosed(s1), Token(OneChar[l[1]], [l[1]], Null)) == s2;
    SingleOperator(s1, l, 1, 1);
  }

  lemma ParenthesesLine(l: string)
    requires l == "(()"
    ensures ScanLine(Start, l, 0, 0, 1)
            == Start.(tokens := [Op(LeftParen, "("), Op(LeftParen, "("), Op(RightParen, ")")])
  {
    ParenthesesOpen(l);
    SingleOperator(Start.(tokens := [Op(LeftParen, "("), Op(LeftParen, "(")]), l, 2, 1);
  }

  /** `(()`: unbalanced parentheses are not the scanner's concern. */
  lemma Parentheses()
    ensures Tokenize(["(()"])
            == Outcome([Op(LeftParen, "("), Op(LeftParen, "("), Op(RightParen, ")"), EofToken], [], 0)
  {
    var s := Start.(tokens := [Op(LeftParen, "("), Op(LeftParen, "("), Op(RightParen, ")")]);
    ParenthesesLine("(()");
    OneLine("(()", s);
    EndsClosed(s, 1);
  }

  lemma OpenStringLine(l: string)
    requires l == "\"bar"
    ensures ScanLine(Start, l, 0, 0, 1) == Start.(inString := true, stringBuf := l[1 .. 4])
  {
    var inside := Start.(inString := true);
    QuoteStep(Start, l, 0, 1);
    Advance(Start, l, 0, 1, inside);
    StringContents(inside, l, 1, 4, 1);
    assert IdentifierClosed(inside) == inside;
    assert InsideString(inside, l[1 .. 4]) == Start.(inString := true, stringBuf := l[1 .. 4]);
  }

  /** `"bar`: a string still open at end of input is reported on the last line. */
  lemma UnterminatedStringReported()
    ensures Tokenize(["\"bar"]) == Outcome([EofToken], [UnterminatedString(1)], 65)
  {
    var l := "\"bar";
    var s := Start.(inString := true, stringBuf := l[1 .. 4]);
    OpenStringLine(l);
    OneLine(l, s);
    EndsClosed(s, 1);
  }

  lemma MergedComparisonsHead(l: string)
    requires l == "<<=>>="
    ensures ScanLine(Start, l, 0, 0, 1)
            == ScanLine(Start.(tokens := [Op(Less, "<"), Op(LessEqual, "<=")]), l, 3, 0, 1)
  {
    var s1 := Start.(tokens := [Op(Less, "<")]);
    MergesWith(l[0], l[1]);
    assert Emit(IdentifierClosed(Start), Token(OneChar[l[0]], [l[0]], Null)) == s1;
    SingleOperator(Start, l, 0, 1);
    assert Emit(IdentifierClosed(s1), Token(TwoChar[[l[1], l[2]]], [l[1], l[2]], Null))
           == Start.(tokens := [Op(Less, "<"), Op(LessEqual, "<=")]);
    MergedOperator(s1, l, 1, 1);
  }

  lemma MergedComparisonsLine(l: string)
    requires l == "<<=>>="
    ensures ScanLine(Start, l, 0, 0, 1)
            == Start.(tokens := [Op(Less, "<"), Op(LessEqual, "<="), Op(Greater, ">"), Op(GreaterEqual, ">=")])
  {
    var s2 := Start.(tokens := [Op(Less, "<"), Op(LessEqual, "<=")]);
    var s3 := Start.(tokens := [Op(Less, "<"), Op(LessEqual, "<="), Op(Greater, ">")]);
    MergedComparisonsHead(l);
    MergesWith(l[3], l[4]);
    assert Emit(IdentifierClosed(s2), Token(OneChar[l[3]], [l[3]], Null)) == s3;
    SingleOperator(s2, l, 3, 1);
    assert Emit(IdentifierClosed(s3), Token(TwoChar[[l[4], l[5]]], [l[4], l[5]], Null))
           == Start.(tokens := [Op(Less, "<"), Op(LessEqual, "<="), Op(Greater, ">"), Op(GreaterEqual, ">=")]);
    MergedOperator(s3, l, 4, 1);
  }

  /** `<<=>>=`: a pair is merged only when it is in the two-character table. */
  lemma MergedComparisons()
    ensures Tokenize(["<<=>>="])
            == Outcome([Op(Less, "<"), Op(LessEqual, "<="), Op(Greater, ">"), Op(GreaterEqual, ">="), EofToken], [], 0)
  {
    var s := Start.(tokens := [Op(Less, "<"), Op(LessEqual, "<="), Op(Greater, ">"), Op(GreaterEqual, ">=")]);
    MergedComparisonsLine("<<=>>=");
    OneLine("<<=>>=", s);
    EndsClosed(s, 1);
  }

  lemma ErrorsLine(l: string)
    requires l == "#("
    ensures ScanLine(Start, l, 0, 0, 1)
            == Start.(tokens := [Op(LeftParen, "(")], diagnostics := [UnexpectedCharacter(1, '#')], exitCode := 65)
  {
    var s1 := Start.(diagnostics := [UnexpectedCharacter(1, '#')], exitCode := 65);
    UnexpectedCharacterReported(Start, l, 0, 1);
    Advance(Start, l, 0, 1, s1);
    SingleOperator(s1, l, 1, 1);
  }

  /** `#(`: an unexpected character is reported and the scan goes on. */
  lemma ErrorsDoNotStopTheScan()
    ensures Tokenize(["#("])
            == Outcome([Op(LeftParen, "("), EofToken], [UnexpectedCharacter(1, '#')], 65)
  {
    var s := Start.(tokens := [Op(LeftParen, "(")], diagnostics := [UnexpectedCharacter(1, '#')], exitCode := 65);
    ErrorsLine("#(");
    OneLine("#(", s);
    EndsClosed(s, 1);
  }

  lemma StringLine(l: string)
    requires l == "\"foo baz\""
    ensures ScanLine(Start, l, 0, 0, 1) == Start.(tokens := [Token(String, "\"" + l[1 .. 8] + "\"", Text(l[1 .. 8]))])
  {
    assert IdentifierClosed(Start) == Start;
    StringLiteral(Start, l, 0, 8, 1);
  }

  lemma StringText(l: string)
    requires l == "\"foo baz\""
    ensures l[1 .. 8] == "foo baz" && "\"" + l[1 .. 8] + "\"" == l
  {
    assert forall k | 0 <= k < 7 :: l[1 .. 8][k] == "foo baz"[k];
  }

  /** `"foo baz"`: whitespace inside a string belongs to it. */
  lemma StringWithSpace()
    ensures Tokenize(["\"foo baz\""]) == Outcome([Token(String, "\"foo baz\"", Text("foo baz")), EofToken], [], 0)
  {
    var l := "\"foo baz\"";
    var s := Start.(tokens := [Token(String, "\"" + l[1 .. 8] + "\"", Text(l[1 .. 8]))]);
    StringLine(l);
    StringText(l);
    OneLine(l, s);
    EndsClosed(s, 1);
  }

  lemma WordLine(l: string)
    requires l == "and"
    ensures ScanLine(Start, l, 0, 0, 1) == Start.(inIdent := true, identBuf := "a" + l[1 .. 3])
  {
    var s1 := Start.(inIdent := true, identBuf := "a");
    IdentifierStarts(Start, l, 0, 1);
    Advance(Start, l, 0, 1, s1);
    IdentifierContents(s1, l, 1, 3, 1);
  }

  /** `and`: a reserved word closed by end of input is printed as its keyword. */
  lemma KeywordAnd()
    ensures Tokenize(["and"]) == Outcome([Op(Reserved(KwAnd), "and"), EofToken], [], 0)
  {
    var l := "and";
    var s := Start.(inIdent := true, identBuf := "a" + l[1 .. 3]);
    WordLine(l);
    OneLine(l, s);
    EndsInWord(s, 1);
    FinishShape(s, 1);
    assert "a" + l[1 .. 3] == "and";
    assert IndexOf(ReservedWords, "and") == 0;
  }

  lemma FirstLine(l: string)
    requires l == "(\t\n"
    ensures ScanLine(Start, l, 0, 0, 1) == Start.(tokens := [Op(LeftParen, "(")])
  {
    var s1 := Start.(tokens := [Op(LeftParen, "(")]);
    MergesWith(l[0], l[1]);
    SingleOperator(Start, l, 0, 1);
    assert Emit(IdentifierClosed(Start), Token(OneChar[l[0]], [l[0]], Null)) == s1;
    WhitespaceStep(s1, l, 1, 1);
    Advance(s1, l, 1, 1, s1);
    WhitespaceStep(s1, l, 2, 1);
    Advance(s1, l, 2, 1, s1);
  }

  lemma SecondLine(s: Scanner, l: string)
    requires l == " )"
    requires s == Start.(tokens := [Op(LeftParen, "(")])
    ensures ScanLine(s, l, 0, 0, 2) == Start.(tokens := [Op(LeftParen, "("), Op(RightParen, ")")])
  {
    WhitespaceStep(s, l, 0, 2);
    Advance(s, l, 0, 2, s);
    SingleOperator(s, l, 1, 2);
    assert Emit(IdentifierClosed(s), Token(OneChar[l[1]], [l[1]], Null))
           == Start.(tokens := [Op(LeftParen, "("), Op(RightParen, ")")]);
  }

  /** A tab and a line break end the first line, a space starts the second: none of them prints anything. */
  lemma LinesAcrossNewlines()
    ensures Tokenize(["(\t\n", " )"]) == Outcome([Op(LeftParen, "("), Op(RightParen, ")"), EofToken], [], 0)
  {
    var lines := ["(\t\n", " )"];
    var s1 := Start.(tokens := [Op(LeftParen, "(")]);
    var s2 := Start.(tokens := [Op(LeftParen, "("), Op(RightParen, ")")]);
    FirstLine(lines[0]);
    SecondLine(s1, lines[1]);
    assert ScanLines(Start, lines, 0) == ScanLines(s1, lines, 1) == ScanLines(s2, lines, 2) == s2;
    EndsClosed(s2, 2);
  }

  lemma GreaterEqualLine(l: string)
    requires l == "1>="
    ensures ScanLine(Start, l, 0, 0, 1)
            == Start.(tokens := [Token(Number, "1", FloatRepr("1")), Op(GreaterEqual, ">="), Op(Equal, "=")])
  {
    var s1 := Start.(inNumber := true, numberBuf := "1");
    DigitExtendsNumber(Start, l, 0, 1);
    Advance(Start, l, 0, 1, s1);
    var s2 := Start.(tokens := [Token(Number, "1", FloatRepr("1")), Op(GreaterEqual, ">=")]);
    assert Emit(NumberClosed(s1), Token(TwoChar[[l[1], l[2]]], [l[1], l[2]], Null)) == s2;
    MergedOperatorAfterNumber(s1, l, 1, 1);
    SingleOperator(s2, l, 2, 1);
  }

  /** `1>=`: right after a number, `>=` prints GREATER_EQUAL and then its `=` again. */
  lemma GreaterEqualAfterNumber()
    ensures Tokenize(["1>="])
            == Outcome([Token(Number, "1", FloatRepr("1")), Op(GreaterEqual, ">="), Op(Equal, "="), EofToken], [], 0)
  {
    var s := Start.(tokens := [Token(Number, "1", FloatRepr("1")), Op(GreaterEqual, ">="), Op(Equal, "=")]);
    GreaterEqualLine("1>=");
    OneLine("1>=", s);
    EndsClosed(s, 1);
  }

  lemma SlashesLine(l: string)
    requires l == "1//"
    ensures ScanLine(Start, l, 0, 0, 1) == Start.(tokens := [Token(Number, "1", FloatRepr("1")), Op(Slash, "/")])
  {
    var s1 := Start.(inNumber := true, numberBuf := "1");
    DigitExtendsNumber(Start, l, 0, 1);
    Advance(Start, l, 0, 1, s1);
    var s2 := Start.(tokens := [Token(Number, "1", FloatRepr("1"))]);
    SlashesAfterNumber(s1, l, 1, 1);
    assert NumberClosed(s1) == s2;
    SingleOperator(s2, l, 2, 1);
  }

  /** `1//`: right after a number, `//` is not a comment; the second `/` is a SLASH. */
  lemma CommentAfterNumber()
    ensures Tokenize(["1//"])
            == Outcome([Token(Number, "1", FloatRepr("1")), Op(Slash, "/"), EofToken], [], 0)
  {
    var s := Start.(tokens := [Token(Number, "1", FloatRepr("1")), Op(Slash, "/")]);
    SlashesLine("1//");
    OneLine("1//", s);
    EndsClosed(s, 1);
  }

  lemma TrailingDotLine(l: string)
    requires l == "1."
    ensures ScanLine(Start, l, 0, 0, 1) == Start.(inNumber := true, periodSeen := true, numberBuf := "1.")
  {
    var s1 := Start.(inNumber := true, numberBuf := "1");
    DigitExtendsNumber(Start, l, 0, 1);
    Advance(Start, l, 0, 1, s1);
    var s2 := s1.(periodSeen := true, numberBuf := "1.");
    FirstDotExtendsNumber(s1, l, 1, 1);
    Advance(s1, l, 1, 1, s2);
  }

  /**
    `1.`: at end of input a trailing dot is split off the lexeme and printed
    as a DOT, while the literal is still formed from the whole buffer.
  */
  lemma TrailingDotAtEnd()
    ensures Tokenize(["1."]).tokens == [Token(Number, "1", FloatRepr("1.")), Op(Dot, "."), EofToken]
  {
    var s := Start.(inNumber := true, periodSeen := true, numberBuf := "1.");
    TrailingDotLine("1.");
    OneLine("1.", s);
    EndsInNumber(s, 1);
    TrailingDotPrinted();
  }

  lemma TrailingDotPrinted()
    ensures NumberAtEnd("1.") == [Token(Number, "1", FloatRepr("1.")), Op(Dot, ".")]
  {
    assert "1."[..1] == "1";
  }
}
