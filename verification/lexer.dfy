/**
  A whole run of the `tokenize` command on the lines of a file: what it
  prints and the exit code it ends with, and the guarantees that hold for
  every input.
*/
module Lexer {
  import opened Tokens
  import opened Scanning
  import opened Invariants

  /**
    The scan of `lines`, the physical lines of the file as `readlines`
    gives them. An empty file prints only the end marker.
  */
  function Tokenize(lines: seq<string>): (r: Outcome)
    ensures |r.tokens| > 0 && r.tokens[|r.tokens| - 1] == EofToken
    ensures lines == [] ==> r == Outcome([EofToken], [], 0)
  {
    if lines == [] then
      Outcome([EofToken], [], 0)
    else
      Finish(Scanned(lines), |lines|)
  }

  /**
    The state the loop ends in, on a non-empty file; an open number has
    at least one character, which is what end of input looks at.
  */
  function Scanned(lines: seq<string>): (s: Scanner)
    requires lines != []
    ensures s.inNumber ==> |s.numberBuf| > 0
  {
    StartInv();
    ScanLinesPreservesInv(Start, lines, 0);
    ScanLines(Start, lines, 0)
  }

  /** The loop invariant holds when the last line has been scanned. */
  lemma ScannedInv(lines: seq<string>)
    requires lines != []
    ensures Inv(Scanned(lines), |lines|)
  {
    StartInv();
    ScanLinesPreservesInv(Start, lines, 0);
  }

  /** What end of input prints before the end marker, open number first. */
  function Closing(s: Scanner): seq<Token>
    requires s.inNumber ==> |s.numberBuf| > 0
  {
    (if s.inNumber then NumberAtEnd(s.numberBuf) else [])
    + (if s.inIdent then [IdentifierToken(s.identBuf)] else [])
  }

  lemma FinishShape(s: Scanner, n: nat)
    requires s.inNumber ==> |s.numberBuf| > 0
    ensures Finish(s, n).tokens == s.tokens + Closing(s) + [EofToken]
    ensures Finish(s, n).diagnostics == s.diagnostics + (if s.inString then [UnterminatedString(n)] else [])
    ensures Finish(s, n).exitCode == if s.inString then ErrorExit else s.exitCode
  {
  }

  lemma ClosingValid(s: Scanner, n: nat)
    requires Inv(s, n)
    ensures TokensValid(Closing(s))
    ensures forall i :: 0 <= i < |Closing(s)| ==> Closing(s)[i].kind != String
  {
    var number := if s.inNumber then NumberAtEnd(s.numberBuf) else [];
    var ident := if s.inIdent then [IdentifierToken(s.identBuf)] else [];
    if s.inNumber {
      NumberAtEndValid(s.numberBuf);
    }
    if s.inIdent {
      IdentifierTokenValid(s.identBuf);
    }
    TokensValidAppend(number, ident);
  }

  /**
    What end of input appends is well formed, is neither a STRING token nor
    a second end marker, and reports an open string on the last line.
  */
  lemma FinishValid(s: Scanner, n: nat)
    requires Inv(s, n)
    ensures var r := Finish(s, n);
      && TokensValid(r.tokens[..|r.tokens| - 1])
      && (forall i :: |s.tokens| <= i < |r.tokens| ==> r.tokens[i].kind != String)
      && r.diagnostics == s.diagnostics + (if s.inString then [UnterminatedString(n)] else [])
      && r.exitCode == (if |r.diagnostics| == 0 then 0 else ErrorExit)
  {
    var r := Finish(s, n);
    FinishShape(s, n);
    ClosingValid(s, n);
    TokensValidAppend(s.tokens, Closing(s));
    assert r.tokens[..|r.tokens| - 1] == s.tokens + Closing(s);
    forall i | |s.tokens| <= i < |r.tokens|
      ensures r.tokens[i].kind != String
    {
      if i < |r.tokens| - 1 {
        assert r.tokens[i] == Closing(s)[i - |s.tokens|];
      }
    }
  }

  lemma NumberAtEndValid(buf: string)
    requires IsNumeral(buf)
    ensures TokensValid(NumberAtEnd(buf))
  {
    var printed := NumberAtEnd(buf);
    var lexeme := printed[0].lexeme;
    if |printed| == 2 {
      assert buf == lexeme + ".";
      assert IsDigit(buf[0]);
      assert |lexeme| > 0;
      assert forall i :: 0 <= i < |lexeme| ==> lexeme[i] == buf[i];
      assert printed[0].literal == FloatRepr(lexeme + ".");
      OperatorTokenValid(".", Dot);
    }
  }

  /**
    Every run ends with exactly one end marker, every other printed token is
    well formed (kind, lexeme and literal agree), and the exit code is 65
    exactly when a diagnostic was printed.
  */
  lemma {:induction false} TokenizeWellFormed(lines: seq<string>)
    ensures var r := Tokenize(lines);
      && |r.tokens| > 0 && r.tokens[|r.tokens| - 1] == EofToken
      && (forall i :: 0 <= i < |r.tokens| - 1 ==> r.tokens[i].kind != Eof && ValidToken(r.tokens[i]))
      && r.exitCode == (if |r.diagnostics| == 0 then 0 else ErrorExit)
  {
    if lines != [] {
      ScannedInv(lines);
      FinishValid(Scanned(lines), |lines|);
    }
  }

  /**
    Diagnostics carry the number of a physical line of the input; every one
    of them is an unexpected character except that the last may be the one
    unterminated string, reported on the last line.
  */
  lemma {:induction false} TokenizeDiagnostics(lines: seq<string>)
    ensures var ds := Tokenize(lines).diagnostics;
      && (forall i :: 0 <= i < |ds| ==> 1 <= ds[i].line <= |lines|)
      && (forall i :: 0 <= i < |ds| - 1 ==> ds[i].UnexpectedCharacter?)
      && (|ds| > 0 && ds[|ds| - 1].UnterminatedString? ==> ds[|ds| - 1].line == |lines|)
  {
    if lines != [] {
      ScannedInv(lines);
      FinishValid(Scanned(lines), |lines|);
    }
  }

  /**
    Input ending inside a string reports exactly one unterminated string, on
    the last line, and prints no STRING token at end of input; otherwise
    nothing is reported at end of input.
  */
  lemma UnterminatedStringAtEnd(lines: seq<string>)
    requires lines != []
    ensures var s := Scanned(lines);
      var r := Tokenize(lines);
      && r.diagnostics == s.diagnostics + (if s.inString then [UnterminatedString(|lines|)] else [])
      && s.tokens <= r.tokens
      && (forall i :: |s.tokens| <= i < |r.tokens| ==> r.tokens[i].kind != String)
  {
    ScannedInv(lines);
    FinishValid(Scanned(lines), |lines|);
  }
}
