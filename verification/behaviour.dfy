/**
  How the scanner treats each construct of the language: merged operators,
  comments, string literals, numbers and the character that ends them,
  identifiers, and unexpected characters. Each lemma states what a run of
  the loop over part of a line, or one step of it, prints and leaves open.
*/
module Behaviour {
  import opened Tokens
  import opened Scanning
  import opened Invariants

  /** The state after an operator character has closed an open identifier. */
  function IdentifierClosed(s: Scanner): Scanner {
    if s.inIdent then FlushIdentifier(s) else s
  }

  /** `s` with `t` printed. */
  function Emit(s: Scanner, t: Token): Scanner {
    s.(tokens := s.tokens + [t])
  }

  /** A step that goes on to the next character, seen from the line walk. */
  lemma Advance(s: Scanner, line: string, idx: nat, n: nat, s': Scanner)
    requires idx < |line| && Step(s, line, idx, n) == Stepped(s', Next(0))
    ensures ScanLine(s, line, idx, 0, n) == ScanLine(s', line, idx + 1, 0, n)
  {
  }

  /**
    Outside strings and numbers, a pair from the two-character table is
    printed as one token and scanning resumes after its second character.
  */
  lemma MergedOperator(s: Scanner, line: string, idx: nat, n: nat)
    requires idx + 1 < |line| && [line[idx], line[idx + 1]] in TwoChar
    requires !s.inString && !s.inNumber
    ensures var pair := [line[idx], line[idx + 1]];
      ScanLine(s, line, idx, 0, n)
      == ScanLine(Emit(IdentifierClosed(s), Token(TwoChar[pair], pair, Null)), line, idx + 2, 0, n)
  {
    assert [line[idx], line[idx + 1]] == line[idx .. idx + 2];
    assert line[idx] in OneChar;
  }

  /**
    An operator character not followed on its line by a character that
    merges with it or makes a comment is printed on its own; at the last
    character of a line the lookahead is missing, which counts as no match.
  */
  lemma SingleOperator(s: Scanner, line: string, idx: nat, n: nat)
    requires idx < |line| && line[idx] in OneChar
    requires idx + 1 < |line| ==>
               [line[idx], line[idx + 1]] !in TwoChar && !(line[idx] == '/' && line[idx + 1] == '/')
    requires !s.inString && !s.inNumber
    ensures var c := line[idx];
      ScanLine(s, line, idx, 0, n)
      == ScanLine(Emit(IdentifierClosed(s), Token(OneChar[c], [c], Null)), line, idx + 1, 0, n)
  {
    if idx + 1 < |line| {
      assert [line[idx], line[idx + 1]] == line[idx .. idx + 2];
    }
  }

  /**
    Outside strings and numbers, `//` prints nothing and drops the rest of
    the line, whatever it holds; only an open identifier is printed first.
  */
  lemma CommentEndsLine(s: Scanner, line: string, idx: nat, n: nat)
    requires idx + 1 < |line| && line[idx] == '/' && line[idx + 1] == '/'
    requires !s.inString && !s.inNumber
    ensures ScanLine(s, line, idx, 0, n) == IdentifierClosed(s)
  {
  }

  /** Whitespace and operator characters close an open identifier, also inside a string. */
  predicate ClosesIdentifier(c: char) {
    IsSpace(c) || c in OneChar
  }

  predicate HasCloser(text: string) {
    exists k :: 0 <= k < |text| && ClosesIdentifier(text[k])
  }

  /**
    The state after `text`, which holds no quote, has been scanned inside a
    string: the text is appended to the string buffer, and an identifier
    still open from before the string is printed if the text holds
    whitespace or an operator character.
  */
  function InsideString(s: Scanner, text: string): Scanner {
    (if HasCloser(text) then IdentifierClosed(s) else s).(stringBuf := s.stringBuf + text)
  }

  /** One character other than `"` inside a string. */
  lemma StringStep(s: Scanner, line: string, i: nat, n: nat)
    requires s.inString && i < |line| && line[i] != '\"'
    ensures Step(s, line, i, n) == Stepped(InsideString(s, [line[i]]), Next(0))
  {
    var c := line[i];
    assert [c][0] == c;
    if s.inIdent && c in OneChar {
      OperatorInsideString(s, line, i, n);
    } else if s.inIdent && IsSpace(c) {
      SpaceInsideString(s, line, i, n);
    } else {
      assert s.inIdent ==> !HasCloser([c]);
      var appended := s.(stringBuf := s.stringBuf + [c]);
      assert Accumulate(s, line, i) == appended;
      assert Classify(appended, c, n) == appended;
    }
  }

  /** Scanning inside a string one character and then more text is scanning both at once. */
  lemma InsideStringAppend(s: Scanner, c: char, rest: string)
    requires s.inString
    ensures InsideString(InsideString(s, [c]), rest) == InsideString(s, [c] + rest)
  {
    var whole := [c] + rest;
    assert whole[0] == c;
    assert forall k :: 0 <= k < |rest| ==> whole[k + 1] == rest[k];
    if ClosesIdentifier(c) {
      assert ClosesIdentifier([c][0]);
      assert HasCloser(whole);
    } else if HasCloser(rest) {
      var k :| 0 <= k < |rest| && ClosesIdentifier(rest[k]);
      assert ClosesIdentifier(whole[k + 1]);
    } else {
      assert !HasCloser([c]);
      forall k | 0 <= k < |whole|
        ensures !ClosesIdentifier(whole[k])
      {
        if k > 0 {
          assert whole[k] == rest[k - 1];
        }
      }
    }
  }

  /**
    Inside a string every character other than `"` is appended verbatim to
    the string buffer: operators, `//`, digits, letters and whitespace alike.
    The first whitespace or operator character also prints an identifier
    that was open when the string started.
  */
  lemma {:induction false} StringContents(s: Scanner, line: string, i: nat, j: nat, n: nat)
    requires s.inString
    requires i <= j <= |line|
    requires forall k :: i <= k < j ==> line[k] != '\"'
    ensures ScanLine(s, line, i, 0, n) == ScanLine(InsideString(s, line[i .. j]), line, j, 0, n)
    decreases j - i
  {
    if i == j {
      assert line[i .. j] == [];
      assert !HasCloser(line[i .. j]);
      assert s.stringBuf + line[i .. j] == s.stringBuf;
      assert InsideString(s, line[i .. j]) == s;
    } else {
      var s' := InsideString(s, [line[i]]);
      StringStep(s, line, i, n);
      Advance(s, line, i, n, s');
      StringContents(s', line, i + 1, j, n);
      InsideStringAppend(s, line[i], line[i + 1 .. j]);
      assert [line[i]] + line[i + 1 .. j] == line[i .. j];
    }
  }

  /**
    A string literal on one line: the opening quote starts string mode, the
    text up to the next quote is collected, and the closing quote prints a
    STRING token whose lexeme is the quoted text and whose literal is the
    text between the quotes. An open number is left open meanwhile; an
    open identifier is printed before the STRING if the text holds
    whitespace or an operator character, and is left open otherwise.
  */
  lemma StringLiteral(s: Scanner, line: string, i: nat, j: nat, n: nat)
    requires i < j < |line| && line[i] == '\"' && line[j] == '\"'
    requires forall k :: i < k < j ==> line[k] != '\"'
    requires !s.inString && s.stringBuf == ""
    ensures var text := line[i + 1 .. j];
      var before := if HasCloser(text) then IdentifierClosed(s) else s;
      ScanLine(s, line, i, 0, n)
      == ScanLine(Emit(before, Token(String, "\"" + text + "\"", Text(text))), line, j + 1, 0, n)
  {
    var text := line[i + 1 .. j];
    var before := if HasCloser(text) then IdentifierClosed(s) else s;
    var inside := s.(inString := true);
    QuoteStep(s, line, i, n);
    Advance(s, line, i, n, inside);
    StringContents(inside, line, i + 1, j, n);
    var full := InsideString(inside, text);
    assert full == before.(inString := true, stringBuf := text);
    var closed := Emit(before, Token(String, "\"" + text + "\"", Text(text)));
    QuoteStep(full, line, j, n);
    Advance(full, line, j, n, closed);
  }

  /**
    A whole physical line without a quote, scanned inside a string, is
    appended to the string buffer, its line break included: strings span
    lines.
  */
  lemma StringSpansLine(s: Scanner, line: string, n: nat)
    requires s.inString
    requires '\"' !in line
    ensures ScanLine(s, line, 0, 0, n) == InsideString(s, line)
  {
    StringContents(s, line, 0, |line|, n);
    assert line[0 .. |line|] == line;
  }

  /**
    A quote toggles string mode whatever else is open: closing prints the
    STRING token and clears the buffer, opening leaves an open number or
    identifier as it is.
  */
  lemma QuoteStep(s: Scanner, line: string, idx: nat, n: nat)
    requires idx < |line| && line[idx] == '\"'
    ensures Step(s, line, idx, n) == Stepped(
              if s.inString then
                Emit(s, Token(String, "\"" + s.stringBuf + "\"", Text(s.stringBuf)))
                  .(stringBuf := "", inString := false)
              else s.(inString := true),
              Next(0))
  {
  }

  /**
    Inside a string, whitespace or an operator character still closes an
    open identifier, and is appended to the string.
  */
  lemma IdentifierClosedInsideString(s: Scanner, line: string, idx: nat, n: nat)
    requires idx < |line| && (IsSpace(line[idx]) || line[idx] in OneChar)
    requires s.inString && s.inIdent
    ensures var r := Step(s, line, idx, n).scanner;
      && r.tokens == s.tokens + [IdentifierToken(s.identBuf)]
      && !r.inIdent
      && r.stringBuf == s.stringBuf + [line[idx]]
  {
    if line[idx] in OneChar {
      OperatorInsideString(s, line, idx, n);
    } else {
      SpaceInsideString(s, line, idx, n);
    }
  }

  lemma OperatorInsideString(s: Scanner, line: string, idx: nat, n: nat)
    requires idx < |line| && line[idx] in OneChar
    requires s.inString && s.inIdent
    ensures var flushed := FlushIdentifier(s);
      Step(s, line, idx, n).scanner == flushed.(stringBuf := flushed.stringBuf + [line[idx]])
  {
    var c := line[idx];
    var flushed := FlushIdentifier(s);
    var appended := flushed.(stringBuf := flushed.stringBuf + [c]);
    OperatorCharClass(c);
    assert Accumulate(flushed, line, idx) == appended;
  }

  lemma SpaceInsideString(s: Scanner, line: string, idx: nat, n: nat)
    requires idx < |line| && IsSpace(line[idx]) && line[idx] !in OneChar
    requires s.inString && s.inIdent
    ensures Step(s, line, idx, n).scanner == FlushIdentifier(s.(stringBuf := s.stringBuf + [line[idx]]))
  {
    var c := line[idx];
    assert c != '\"';
    assert Accumulate(s, line, idx) == s.(stringBuf := s.stringBuf + [c]);
  }

  /** A digit outside identifiers and strings opens or extends the number. */
  lemma DigitExtendsNumber(s: Scanner, line: string, idx: nat, n: nat)
    requires idx < |line| && IsDigit(line[idx])
    requires !s.inString && !s.inIdent
    ensures Step(s, line, idx, n)
            == Stepped(s.(inNumber := true, numberBuf := s.numberBuf + [line[idx]]), Next(0))
  {
  }

  /** The first `.` of a number is part of it. */
  lemma FirstDotExtendsNumber(s: Scanner, line: string, idx: nat, n: nat)
    requires idx < |line| && line[idx] == '.'
    requires s.inNumber && !s.periodSeen && !s.inString && !s.inIdent
    ensures Step(s, line, idx, n)
            == Stepped(s.(periodSeen := true, numberBuf := s.numberBuf + ['.']), Next(0))
  {
  }

  /**
    A second `.` prints the number with the buffer unchanged as both lexeme
    and literal, then a DOT token, and closes the number.
  */
  lemma SecondDotSplitsNumber(s: Scanner, line: string, idx: nat, n: nat)
    requires idx < |line| && line[idx] == '.'
    requires s.inNumber && s.periodSeen && !s.inString && !s.inIdent
    ensures Step(s, line, idx, n) == Stepped(
              s.(tokens := s.tokens + [Token(Number, s.numberBuf, Text(s.numberBuf)), Token(Dot, ".", Null)],
                 inNumber := false, periodSeen := false, numberBuf := ""),
              Next(0))
  {
  }

  /** A run of digits inside an open number is appended to it. */
  lemma {:induction false} NumberDigits(s: Scanner, line: string, i: nat, j: nat, n: nat)
    requires s.inNumber && !s.inString && !s.inIdent
    requires i <= j <= |line|
    requires forall k :: i <= k < j ==> IsDigit(line[k])
    ensures ScanLine(s, line, i, 0, n)
            == ScanLine(s.(numberBuf := s.numberBuf + line[i .. j]), line, j, 0, n)
    decreases j - i
  {
    if i == j {
      assert s.numberBuf + line[i .. j] == s.numberBuf;
      assert s.(numberBuf := s.numberBuf + line[i .. j]) == s;
    } else {
      var s' := s.(numberBuf := s.numberBuf + [line[i]]);
      DigitExtendsNumber(s, line, i, n);
      Advance(s, line, i, n, s');
      NumberDigits(s', line, i + 1, j, n);
      assert s'.numberBuf + line[i + 1 .. j] == s.numberBuf + line[i .. j];
    }
  }

  /** The number closed, printed with the literal formatted from its buffer. */
  function NumberClosed(s: Scanner): Scanner {
    s.(tokens := s.tokens + [Token(Number, s.numberBuf, FloatRepr(s.numberBuf))],
       inNumber := false, periodSeen := false, numberBuf := "")
  }

  /**
    Any character other than a digit, `.` or `"` ends an open number: the
    number is printed, and the character is then handled exactly as it would
    be with no number open, except that the skip or comment signal of an
    operator is dropped, so the next character is never skipped and the line
    never ends early.
  */
  lemma NumberEndsAndCharIsRescanned(s: Scanner, line: string, idx: nat, n: nat)
    requires idx < |line|
    requires var c := line[idx]; !IsDigit(c) && c != '.' && c != '\"'
    requires s.inNumber && !s.inString && !s.inIdent
    ensures Step(s, line, idx, n) == Stepped(Step(NumberClosed(s), line, idx, n).scanner, Next(0))
  {
  }

  /**
    Right after a number, a pair from the two-character table is printed as
    one token but its second character is not skipped: it is scanned again
    on its own.
  */
  lemma MergedOperatorAfterNumber(s: Scanner, line: string, idx: nat, n: nat)
    requires idx + 1 < |line| && [line[idx], line[idx + 1]] in TwoChar
    requires s.inNumber && !s.inString && !s.inIdent
    ensures var pair := [line[idx], line[idx + 1]];
      ScanLine(s, line, idx, 0, n)
      == ScanLine(Emit(NumberClosed(s), Token(TwoChar[pair], pair, Null)), line, idx + 1, 0, n)
  {
    assert [line[idx], line[idx + 1]] == line[idx .. idx + 2];
    assert line[idx] in OneChar;
    NumberEndsAndCharIsRescanned(s, line, idx, n);
  }

  /**
    Right after a number, `//` does not start a comment: the first `/`
    prints nothing and the second is scanned again on its own.
  */
  lemma SlashesAfterNumber(s: Scanner, line: string, idx: nat, n: nat)
    requires idx + 1 < |line| && line[idx] == '/' && line[idx + 1] == '/'
    requires s.inNumber && !s.inString && !s.inIdent
    ensures ScanLine(s, line, idx, 0, n) == ScanLine(NumberClosed(s), line, idx + 1, 0, n)
  {
    NumberEndsAndCharIsRescanned(s, line, idx, n);
  }

  /** Outside strings and numbers, a letter or underscore opens an identifier. */
  lemma IdentifierStarts(s: Scanner, line: string, idx: nat, n: nat)
    requires idx < |line| && IsIdentStart(line[idx])
    requires !s.inString && !s.inNumber && !s.inIdent
    ensures Step(s, line, idx, n)
            == Stepped(s.(inIdent := true, identBuf := s.identBuf + [line[idx]]), Next(0))
  {
    var c := line[idx];
    assert !IsSpace(c) && c !in OneChar && c != '\"' && !IsDigit(c);
  }

  /** Outside strings and numbers, whitespace only closes an open identifier. */
  lemma WhitespaceStep(s: Scanner, line: string, idx: nat, n: nat)
    requires idx < |line| && IsSpace(line[idx])
    requires !s.inString && !s.inNumber
    ensures Step(s, line, idx, n) == Stepped(IdentifierClosed(s), Next(0))
  {
    var c := line[idx];
    assert c !in OneChar && c != '\"' && !IsDigit(c);
  }

  /** One letter, digit or underscore inside an identifier is appended to it. */
  lemma IdentifierPartStep(s: Scanner, line: string, i: nat, n: nat)
    requires s.inIdent && !s.inString && !s.inNumber
    requires i < |line| && IsIdentPart(line[i])
    ensures Step(s, line, i, n) == Stepped(s.(identBuf := s.identBuf + [line[i]]), Next(0))
  {
    var c := line[i];
    assert !IsSpace(c) && c !in OneChar && c != '\"';
    assert Accumulate(s, line, i) == s;
  }

  /**
    Inside an identifier, letters, digits and underscores are all appended
    to it; a digit does not start a number there.
  */
  lemma {:induction false} IdentifierContents(s: Scanner, line: string, i: nat, j: nat, n: nat)
    requires s.inIdent && !s.inString && !s.inNumber
    requires i <= j <= |line|
    requires forall k :: i <= k < j ==> IsIdentPart(line[k])
    ensures ScanLine(s, line, i, 0, n)
            == ScanLine(s.(identBuf := s.identBuf + line[i .. j]), line, j, 0, n)
    decreases j - i
  {
    if i == j {
      assert s.identBuf + line[i .. j] == s.identBuf;
      assert s.(identBuf := s.identBuf + line[i .. j]) == s;
    } else {
      var s' := s.(identBuf := s.identBuf + [line[i]]);
      IdentifierPartStep(s, line, i, n);
      Advance(s, line, i, n, s');
      IdentifierContents(s', line, i + 1, j, n);
      assert s'.identBuf + line[i + 1 .. j] == s.identBuf + line[i .. j];
    }
  }

  /**
    Whitespace or an operator character ends an open identifier, which is
    printed first, as a keyword or as an identifier.
  */
  lemma IdentifierEnds(s: Scanner, line: string, idx: nat, n: nat)
    requires idx < |line| && (IsSpace(line[idx]) || line[idx] in OneChar)
    requires s.inIdent && !s.inString && !s.inNumber
    ensures var r := Step(s, line, idx, n).scanner;
      && |r.tokens| > |s.tokens|
      && r.tokens[|s.tokens|] == IdentifierToken(s.identBuf)
      && !r.inIdent && r.identBuf == ""
  {
  }

  /**
    Outside a string, a character that is not whitespace, an operator, a
    quote, a digit, a letter or an underscore is reported with its line and
    prints nothing; an open identifier stays open across it.
  */
  lemma UnexpectedCharacterReported(s: Scanner, line: string, idx: nat, n: nat)
    requires idx < |line|
    requires var c := line[idx];
      !IsSpace(c) && c !in OneChar && c != '\"' && !IsIdentPart(c)
    requires !s.inString && !s.inNumber
    ensures Step(s, line, idx, n)
            == Stepped(s.(diagnostics := s.diagnostics + [UnexpectedCharacter(n, line[idx])],
                          exitCode := ErrorExit), Next(0))
  {
  }

  /** A character the scanner cannot place, seen outside a string. */
  predicate Unexpected(s: Scanner, c: char) {
    !s.inString && !IsSpace(c) && c !in OneChar && c != '\"' && !IsIdentPart(c)
  }

  /**
    One step reports a diagnostic exactly for an unexpected character, and
    then exactly one, on the current line, whatever mode is open.
  */
  lemma StepReportsExactlyUnexpected(s: Scanner, line: string, idx: nat, n: nat)
    requires idx < |line| && ModeInv(s)
    ensures Step(s, line, idx, n).scanner.diagnostics
            == s.diagnostics + (if Unexpected(s, line[idx]) then [UnexpectedCharacter(n, line[idx])] else [])
  {
  }
}
