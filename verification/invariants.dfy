/**
  The invariant of the scanning loop and its preservation by every step.
  It ties each mode flag to its buffer, keeps the number and identifier
  buffers in the shape their lexemes need, keeps the exit code in step with
  the diagnostics, and keeps every printed token well formed.
*/
module Invariants {
  import opened Tokens
  import opened Scanning

  /** Every token is well formed and none of them is the end marker. */
  predicate TokensValid(ts: seq<Token>) {
    forall i :: 0 <= i < |ts| ==> ValidToken(ts[i]) && ts[i].kind != Eof
  }

  /** Every diagnostic is an unexpected character on a line in `1..n`. */
  predicate ScanDiagnostics(ds: seq<Diagnostic>, n: nat) {
    forall i :: 0 <= i < |ds| ==> ds[i].UnexpectedCharacter? && 1 <= ds[i].line <= n
  }

  /** The exit code is the error code exactly when something was reported. */
  predicate ExitCodeAgrees(s: Scanner) {
    s.exitCode == if |s.diagnostics| == 0 then 0 else ErrorExit
  }

  /** The buffers agree with the mode flags. */
  predicate ModeInv(s: Scanner) {
    && (s.inNumber <==> |s.numberBuf| > 0)
    && (s.inNumber ==> IsNumeral(s.numberBuf))
    && (s.periodSeen <==> '.' in s.numberBuf)
    && (s.inIdent <==> |s.identBuf| > 0)
    && (s.inIdent ==> IsIdentifierWord(s.identBuf))
    && !(s.inNumber && s.inIdent)
    && (!s.inString ==> s.stringBuf == "")
    && '\"' !in s.stringBuf
  }

  /** The loop invariant, for a scan that has reached line `n`. */
  predicate Inv(s: Scanner, n: nat) {
    && ModeInv(s)
    && ExitCodeAgrees(s)
    && TokensValid(s.tokens)
    && ScanDiagnostics(s.diagnostics, n)
  }

  lemma TokensValidAppend(ts: seq<Token>, more: seq<Token>)
    requires TokensValid(ts) && TokensValid(more)
    ensures TokensValid(ts + more)
  {
  }

  /** A token printed from one of the operator tables is well formed. */
  lemma OperatorTokenValid(w: string, k: Kind)
    requires IsOperatorLexeme(w, k)
    ensures ValidToken(Token(k, w, Null)) && k != Eof
  {
    if |w| == 1 && w[0] in OneChar && OneChar[w[0]] == k {
      assert k in OneChar.Values;
    } else {
      assert k in TwoChar.Values;
    }
  }

  lemma AddTokenValid(line: string, idx: nat, inString: bool, skip: nat)
    requires idx < |line| && line[idx] in OneChar
    ensures AddToken(line, idx, inString, skip).Emitted? ==>
              TokensValid([AddToken(line, idx, inString, skip).token])
  {
    var r := AddToken(line, idx, inString, skip);
    if r.Emitted? {
      OperatorTokenValid(r.token.lexeme, r.token.kind);
    }
  }

  lemma IdentifierTokenValid(w: string)
    requires IsIdentifierWord(w)
    ensures TokensValid([IdentifierToken(w)])
  {
  }

  lemma FlushPreservesInv(s: Scanner, n: nat)
    requires Inv(s, n) && s.inIdent
    ensures Inv(FlushIdentifier(s), n)
    ensures !FlushIdentifier(s).inIdent
  {
    IdentifierTokenValid(s.identBuf);
    TokensValidAppend(s.tokens, [IdentifierToken(s.identBuf)]);
  }

  /** Appending a digit keeps a numeral a numeral, with the same dots. */
  lemma NumeralAppendDigit(w: string, c: char)
    requires w == [] || IsNumeral(w)
    requires IsDigit(c)
    ensures IsNumeral(w + [c])
    ensures '.' in w + [c] <==> '.' in w
  {
    var w' := w + [c];
    assert forall i :: 0 <= i < |w| ==> w'[i] == w[i];
  }

  /** Appending the first `.` keeps a numeral a numeral. */
  lemma NumeralAppendDot(w: string)
    requires IsNumeral(w) && '.' !in w
    ensures IsNumeral(w + ['.']) && '.' in w + ['.']
  {
    var w' := w + ['.'];
    assert w'[|w|] == '.';
    assert forall i :: 0 <= i < |w| ==> w'[i] == w[i];
  }

  lemma AccumulatePreservesInv(s: Scanner, line: string, idx: nat, n: nat)
    requires idx < |line|
    requires Inv(s, n)
    ensures Inv(Accumulate(s, line, idx), n)
  {
    var c := line[idx];
    if c == '\"' {
      if s.inString {
        var closed := Token(String, "\"" + s.stringBuf + "\"", Text(s.stringBuf));
        TokensValidAppend(s.tokens, [closed]);
      }
    } else if s.inString {
      assert '\"' !in s.stringBuf + [c];
    } else if IsDigit(c) && !s.inIdent {
      NumeralAppendDigit(s.numberBuf, c);
    } else if s.inNumber && c == '.' && !s.periodSeen {
      NumeralAppendDot(s.numberBuf);
    } else if s.inNumber && c == '.' && s.periodSeen {
      var number := Token(Number, s.numberBuf, Text(s.numberBuf));
      OperatorTokenValid(".", Dot);
      TokensValidAppend(s.tokens, [number, Token(Dot, ".", Null)]);
    } else if s.inNumber && !(IsDigit(c) || c == '.') {
      var number := Token(Number, s.numberBuf, FloatRepr(s.numberBuf));
      TokensValidAppend(s.tokens, [number]);
      var s' := s.(tokens := s.tokens + [number],
                   inNumber := false, periodSeen := false, numberBuf := "");
      if c in OneChar {
        AddTokenValid(line, idx, false, 0);
        var r := AddToken(line, idx, false, 0);
        if r.Emitted? {
          TokensValidAppend(s'.tokens, [r.token]);
        }
      }
    }
  }

  lemma ClassifyPreservesInv(s: Scanner, c: char, lineNo: nat, n: nat)
    requires Inv(s, n) && 1 <= lineNo <= n
    ensures Inv(Classify(s, c, lineNo), n)
  {
    if IsSpace(c) {
      if s.inIdent {
        FlushPreservesInv(s, n);
      }
    } else if !s.inNumber && !s.inString && c !in OneChar && c != '\"' {
      if !s.inIdent && IsIdentStart(c) {
        assert s.identBuf + [c] == [c];
      } else if s.inIdent && IsIdentPart(c) {
        var w := s.identBuf + [c];
        assert forall i :: 0 <= i < |s.identBuf| ==> w[i] == s.identBuf[i];
      }
    }
  }

  lemma StepPreservesInv(s: Scanner, line: string, idx: nat, lineNo: nat, n: nat)
    requires idx < |line|
    requires Inv(s, n) && 1 <= lineNo <= n
    ensures Inv(Step(s, line, idx, lineNo).scanner, n)
  {
    var c := line[idx];
    if c in OneChar && s.inIdent {
      FlushPreservesInv(s, n);
    }
    var s1 := if c in OneChar && s.inIdent then FlushIdentifier(s) else s;
    if c in OneChar && !s1.inString && !s1.inNumber {
      AddTokenValid(line, idx, s1.inString, 0);
      var r := AddToken(line, idx, s1.inString, 0);
      if r.Emitted? {
        TokensValidAppend(s1.tokens, [r.token]);
      }
    } else {
      AccumulatePreservesInv(s1, line, idx, n);
      ClassifyPreservesInv(Accumulate(s1, line, idx), c, lineNo, n);
    }
  }

  lemma {:induction false} ScanLinePreservesInv(s: Scanner, line: string, idx: nat, skip: nat, lineNo: nat, n: nat)
    requires Inv(s, n) && 1 <= lineNo <= n
    ensures Inv(ScanLine(s, line, idx, skip, lineNo), n)
    decreases |line| - idx
  {
    if idx >= |line| {
    } else if skip > 0 {
      ScanLinePreservesInv(s, line, idx + 1, skip - 1, lineNo, n);
    } else {
      var st := Step(s, line, idx, lineNo);
      StepPreservesInv(s, line, idx, lineNo, n);
      if st.signal.Next? {
        ScanLinePreservesInv(st.scanner, line, idx + 1, st.signal.skip, lineNo, n);
      }
    }
  }

  /** The invariant only gets easier as the line bound grows. */
  lemma InvWeaken(s: Scanner, n: nat, m: nat)
    requires Inv(s, n) && n <= m
    ensures Inv(s, m)
  {
  }

  lemma {:induction false} ScanLinesPreservesInv(s: Scanner, lines: seq<string>, k: nat)
    requires k <= |lines| && Inv(s, k)
    ensures Inv(ScanLines(s, lines, k), |lines|)
    decreases |lines| - k
  {
    if k == |lines| {
    } else {
      InvWeaken(s, k, k + 1);
      ScanLinePreservesInv(s, lines[k], 0, 0, k + 1, k + 1);
      ScanLinesPreservesInv(ScanLine(s, lines[k], 0, 0, k + 1), lines, k + 1);
    }
  }

  lemma StartInv()
    ensures Inv(Start, 0)
  {
  }
}
