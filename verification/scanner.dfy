/**
  The scanning state machine of `app/main.py`: the state the scanning loop
  keeps, the two helpers `add_token` and `add_identifier`, the transition for
  one character, the walk over one physical line and over all lines, and the
  finalisation at end of input. Printing to standard output and to standard
  error is modelled as appending to `tokens` and to `diagnostics`.
*/
module Scanning {
  import opened Tokens

  /**
    The loop state: the three mode flags, the "period seen" flag, the three
    buffers, and what has been printed so far with the exit code.
  */
  datatype Scanner = Scanner(
    inString: bool,
    inNumber: bool,
    inIdent: bool,
    periodSeen: bool,
    stringBuf: string,
    numberBuf: string,
    identBuf: string,
    tokens: seq<Token>,
    diagnostics: seq<Diagnostic>,
    exitCode: int)

  /** The state before the first character. */
  const Start: Scanner := Scanner(false, false, false, false, "", "", "", [], [], 0)

  /** The exit code the program reports after a diagnostic. */
  const ErrorExit: int := 65

  /** What `add_token` reports: the token it printed, or that a comment starts. */
  datatype Added = Emitted(token: Token, skip: nat) | CommentFound(skip: nat)

  /** How the per-line walk goes on after one character. */
  datatype Signal = Next(skip: nat) | Break

  datatype Stepped = Stepped(scanner: Scanner, signal: Signal)

  /** What a whole run prints and the exit code it ends with. */
  datatype Outcome = Outcome(tokens: seq<Token>, diagnostics: seq<Diagnostic>, exitCode: int)

  /**
    `add_token`: prints the token of the operator character at `line[idx]`,
    looking one character ahead on the same line. A pair in the two-character
    table is printed as one token and the caller is told to skip the second
    character; `//` outside a string prints nothing and starts a comment; any
    other pair, and a missing lookahead at the end of the line, print the
    single character's token.
  */
  function AddToken(line: string, idx: nat, inString: bool, skip: nat): (r: Added)
    requires idx < |line| && line[idx] in OneChar
    ensures r.CommentFound? <==>
              !inString && idx + 1 < |line| && line[idx] == '/' && line[idx + 1] == '/'
    ensures r.CommentFound? ==> r.skip == skip
    ensures r.Emitted? ==>
              && 1 <= |r.token.lexeme| <= 2
              && idx + |r.token.lexeme| <= |line|
              && r.token.lexeme == line[idx .. idx + |r.token.lexeme|]
              && r.token.literal == Null
              && IsOperatorLexeme(r.token.lexeme, r.token.kind)
    ensures r.Emitted? && |r.token.lexeme| == 2 <==>
              idx + 1 < |line| && line[idx .. idx + 2] in TwoChar
    ensures r.Emitted? ==> r.skip == if |r.token.lexeme| == 2 then 1 else skip
  {
    var c := line[idx];
    if idx + 1 < |line| then
      var pair := [c, line[idx + 1]];
      assert pair == line[idx .. idx + 2];
      if pair in TwoChar then Emitted(Token(TwoChar[pair], pair, Null), 1)
      else if pair == "//" && !inString then CommentFound(skip)
      else Emitted(Token(OneChar[c], [c], Null), skip)
    else
      Emitted(Token(OneChar[c], [c], Null), skip)
  }

  /**
    `add_identifier`: a word that is exactly a reserved word is printed under
    the keyword kind named by the upper-cased word; any other word is an
    IDENTIFIER. Either way the lexeme is the word itself.
  */
  function IdentifierToken(w: string): (t: Token)
    ensures t.lexeme == w && t.literal == Null
    ensures t.kind == Identifier <==> w !in ReservedWords
    ensures w in ReservedWords ==> t.kind == KeywordKind(w)
  {
    if w in ReservedWords then
      Token(KeywordKind(w), w, Null)
    else
      Token(Identifier, w, Null)
  }

  /** A reserved word is printed under its own text upper-cased. */
  lemma ReservedWordPrintedUpper(w: string)
    requires w in ReservedWords
    ensures IdentifierToken(w).kind.Reserved?
    ensures Name(IdentifierToken(w).kind) == Upper(w)
  {
    KeywordNameIsUpper(w);
  }

  /** Prints the open identifier and closes identifier mode. */
  function FlushIdentifier(s: Scanner): Scanner {
    s.(tokens := s.tokens + [IdentifierToken(s.identBuf)], inIdent := false, identBuf := "")
  }

  /** Prints a diagnostic and sets the error exit code. */
  function Report(s: Scanner, d: Diagnostic): Scanner {
    s.(diagnostics := s.diagnostics + [d], exitCode := ErrorExit)
  }

  /**
    Flushing prints exactly one more token, the buffered word (as a keyword
    when it is reserved), empties the buffer and leaves everything else alone.
  */
  lemma FlushPrintsWord(s: Scanner)
    ensures var r := FlushIdentifier(s);
      && |r.tokens| == |s.tokens| + 1 && r.tokens[.. |s.tokens|] == s.tokens
      && r.tokens[|s.tokens|].lexeme == s.identBuf
      && r.tokens[|s.tokens|].literal == Null
      && (r.tokens[|s.tokens|].kind == Identifier <==> s.identBuf !in ReservedWords)
    ensures var r := FlushIdentifier(s);
      && !r.inIdent && r.identBuf == ""
      && r.inString == s.inString && r.inNumber == s.inNumber && r.periodSeen == s.periodSeen
      && r.stringBuf == s.stringBuf && r.numberBuf == s.numberBuf
      && r.diagnostics == s.diagnostics && r.exitCode == s.exitCode
  { }

  /**
    Reporting adds exactly the one diagnostic after the earlier ones, makes
    the exit code nonzero, and prints nothing.
  */
  lemma ReportFails(s: Scanner, d: Diagnostic)
    ensures var r := Report(s, d);
      && |r.diagnostics| == |s.diagnostics| + 1 && r.diagnostics[.. |s.diagnostics|] == s.diagnostics
      && r.diagnostics[|s.diagnostics|] == d
      && r.exitCode == 65 && r.exitCode != 0
    ensures var r := Report(s, d);
      && r.tokens == s.tokens && r.inString == s.inString && r.inNumber == s.inNumber
      && r.inIdent == s.inIdent && r.periodSeen == s.periodSeen && r.stringBuf == s.stringBuf
      && r.numberBuf == s.numberBuf && r.identBuf == s.identBuf
  { }

  /**
    The `if`/`elif` chain for a character that is not handed to `add_token`:
    quotes, string contents, digits, the first and the second `.` of a
    number, and the character that ends a number. In that last case the
    terminating operator character is handed to `add_token` with a zero skip
    count and the result is dropped, so a merged operator does not skip its
    second character and a `//` prints nothing.
  */
  function Accumulate(s: Scanner, line: string, idx: nat): (r: Scanner)
    requires idx < |line|
    ensures s.tokens <= r.tokens
    ensures r.diagnostics == s.diagnostics && r.exitCode == s.exitCode
  {
    var c := line[idx];
    if c == '\"' then
      if s.inString then
        var closed := Token(String, "\"" + s.stringBuf + "\"", Text(s.stringBuf));
        s.(tokens := s.tokens + [closed], stringBuf := "", inString := false)
      else
        s.(inString := true)
    else if s.inString then
      s.(stringBuf := s.stringBuf + [c])
    else if IsDigit(c) && !s.inIdent then
      s.(inNumber := true, numberBuf := s.numberBuf + [c])
    else if s.inNumber && c == '.' && !s.periodSeen then
      s.(inNumber := true, periodSeen := true, numberBuf := s.numberBuf + [c])
    else if s.inNumber && c == '.' && s.periodSeen then
      var number := Token(Number, s.numberBuf, Text(s.numberBuf));
      s.(tokens := s.tokens + [number, Token(Dot, ".", Null)],
         inNumber := false, periodSeen := false, numberBuf := "")
    else if s.inNumber && !(IsDigit(c) || c == '.') then
      var number := Token(Number, s.numberBuf, FloatRepr(s.numberBuf));
      var s' := s.(tokens := s.tokens + [number],
                   inNumber := false, periodSeen := false, numberBuf := "");
      if c in OneChar && !s'.inString && !s'.inNumber then
        match AddToken(line, idx, s'.inString, 0)
        case Emitted(t, _) => s'.(tokens := s'.tokens + [t])
        case CommentFound(_) => s'
      else
        s'
    else
      s
  }

  /**
    The tail of the loop body: whitespace closes an open identifier; outside
    strings and numbers, a letter or underscore opens an identifier, a letter,
    digit or underscore extends one, and any other character that is neither
    an operator nor a quote is reported as unexpected.
  */
  function Classify(s: Scanner, c: char, lineNo: nat): (r: Scanner)
    ensures s.tokens <= r.tokens
    ensures s.diagnostics <= r.diagnostics
  {
    if IsSpace(c) then
      if s.inIdent then FlushIdentifier(s) else s
    else if !s.inNumber && !s.inString && c !in OneChar && c != '\"' then
      if !s.inIdent && IsIdentStart(c) then
        s.(inIdent := true, identBuf := s.identBuf + [c])
      else if s.inIdent && IsIdentPart(c) then
        s.(identBuf := s.identBuf + [c])
      else
        Report(s, UnexpectedCharacter(lineNo, c))
    else
      s
  }

  /**
    One iteration of the inner loop for a character that is not skipped.
    An operator character first closes an open identifier; outside strings
    and numbers it goes to `add_token`, whose result decides whether the next
    character is skipped or the rest of the line dropped. Every other
    character goes through `Accumulate` and then `Classify`.
  */
  function Step(s: Scanner, line: string, idx: nat, lineNo: nat): (r: Stepped)
    requires idx < |line|
    ensures s.tokens <= r.scanner.tokens
    ensures s.diagnostics <= r.scanner.diagnostics
    ensures r.signal.Next? ==> r.signal.skip <= 1
    ensures r.signal == Break <==>
              && !s.inString && !s.inNumber
              && idx + 1 < |line| && line[idx] == '/' && line[idx + 1] == '/'
  {
    var c := line[idx];
    var s1 := if c in OneChar && s.inIdent then FlushIdentifier(s) else s;
    if c in OneChar && !s1.inString && !s1.inNumber then
      match AddToken(line, idx, s1.inString, 0)
      case CommentFound(_) => Stepped(s1, Break)
      case Emitted(t, k) => Stepped(s1.(tokens := s1.tokens + [t]), Next(k))
    else
      Stepped(Classify(Accumulate(s1, line, idx), c, lineNo), Next(0))
  }

  /**
    The inner loop over `line[idx..]` with `skip` characters still to skip;
    a comment ends the line early.
  */
  function ScanLine(s: Scanner, line: string, idx: nat, skip: nat, lineNo: nat): (r: Scanner)
    decreases |line| - idx
    ensures s.tokens <= r.tokens
    ensures s.diagnostics <= r.diagnostics
  {
    if idx >= |line| then s
    else if skip > 0 then ScanLine(s, line, idx + 1, skip - 1, lineNo)
    else
      var st := Step(s, line, idx, lineNo);
      match st.signal
      case Break => st.scanner
      case Next(k) => ScanLine(st.scanner, line, idx + 1, k, lineNo)
  }

  /** The outer loop over `lines[k..]`; line `k` is reported as line `k + 1`. */
  function ScanLines(s: Scanner, lines: seq<string>, k: nat): (r: Scanner)
    requires k <= |lines|
    decreases |lines| - k
    ensures s.tokens <= r.tokens
    ensures s.diagnostics <= r.diagnostics
  {
    if k == |lines| then s
    else ScanLines(ScanLine(s, lines[k], 0, 0, k + 1), lines, k + 1)
  }

  /**
    What an open number prints at end of input: a trailing `.` is split off
    the lexeme and printed as a DOT token, while the literal is formed from
    the whole buffer. Looking at the last character of the buffer needs it
    non-empty.
  */
  function NumberAtEnd(buf: string): (printed: seq<Token>)
    requires |buf| > 0
    ensures 1 <= |printed| <= 2 && printed[0].kind == Number
    ensures printed[0].literal == FloatRepr(buf)
    ensures buf[|buf| - 1] == '.' <==> |printed| == 2
    ensures buf == printed[0].lexeme + (if |printed| == 2 then "." else "")
    ensures |printed| == 2 ==> printed[1] == Token(Dot, ".", Null)
  {
    var trailingDot := buf[|buf| - 1] == '.';
    var lexeme := if trailingDot then buf[..|buf| - 1] else buf;
    var number := Token(Number, lexeme, FloatRepr(buf));
    if trailingDot then [number, Token(Dot, ".", Null)] else [number]
  }

  /**
    End of input after at least one line, `lastLine` being the number of the
    last line: an open string is reported as unterminated and prints nothing,
    an open number is printed, an open identifier is printed, and the EOF
    token ends the output.
  */
  function Finish(s: Scanner, lastLine: nat): (r: Outcome)
    requires s.inNumber ==> |s.numberBuf| > 0
    ensures s.tokens <= r.tokens && |r.tokens| > |s.tokens|
    ensures r.tokens[|r.tokens| - 1] == EofToken
  {
    var s1 := if s.inString then Report(s, UnterminatedString(lastLine)) else s;
    var number := if s1.inNumber then NumberAtEnd(s1.numberBuf) else [];
    var s2 := s1.(tokens := s1.tokens + number, inNumber := false);
    var s3 := if s2.inIdent then FlushIdentifier(s2) else s2;
    Outcome(s3.tokens + [EofToken], s3.diagnostics, s3.exitCode)
  }
}
