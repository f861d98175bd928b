# Lox tokenizer model

A Dafny model of the scanner of `app/main.py`. This is the `tokenize` command
of a Lox interpreter. It reads a file line by line and prints one token per
line to standard output, in the form `KIND lexeme literal`. It prints
`[line N] Error: ...` diagnostics to standard error. It exits with 65 if it
reported anything.

The scanner is a single-pass state machine over characters. Its state is:

- three mode flags: inside a string, a number or an identifier;
- a "period seen" flag for numbers;
- three buffers;
- the exit code;
- a per-line counter of characters to skip.

The model keeps that state in an immutable `Scanner` record. It gives:

- a pure function `Step` for one character, which returns the state and whether to skip the next character or drop the rest of the line;
- `ScanLine` and `ScanLines`, which fold `Step` over the physical lines;
- `Finish`, which closes the open buffers at end of input and prints the end marker.

Printing is modelled as appending to two output sequences, tokens and
diagnostics. Tokens are records `(kind, lexeme, literal)`, not rendered text.

The modules follow the program:

- `Tokens` holds the token kinds, the three fixed tables, the character classes, and what a well-formed token is.
- `Scanning` holds `add_token` (`AddToken`), `add_identifier` (`IdentifierToken`), the loop body and the end of input.
- `Invariants` holds the loop invariant and its preservation.
- `Lexer` holds a whole run (`Tokenize`) and the guarantees that hold for every input.
- `Behaviour` holds one lemma per language construct: operators, comments, strings, numbers, identifiers and unexpected characters.
- `Examples` walks through concrete inputs from the repository's test table, and some inputs that show what happens right after a number.

The model follows the code as written, including places where a tidier
scanner would behave differently:

- After a number, the operator character that ends it is handed to `add_token` (app/main.py:170). The result is then dropped:
  - `1>=` prints NUMBER, GREATER_EQUAL and then EQUAL for the same `=`;
  - in `1//` the first `/` prints nothing and the second is a SLASH.
- A quote is checked before anything else (app/main.py:138). So a number or an identifier stays open across a string.
- An operator or whitespace character inside a string still closes an open identifier (app/main.py:121-125, 172-176).
- `add_token` is never called inside a string. Its "inside a string" argument is always false at both call sites. So `//` inside a string is plain string text because of the call-site condition, not because of that argument.
- Diagnostics carry the physical line index plus one. Strings spanning lines do not change that.
- At end of input, a number ending in `.` prints its lexeme without the dot, then a DOT token. The literal is still formatted from the whole buffer, dot included (app/main.py:200-205).

## Model

| member | source | states |
|---|---|---|
| Tokens.MergesWith | app/main.py:23-28 | the two-character table merges exactly `!`, `=`, `<`, `>` with a following `=`, and nothing else |
| Tokens.KeywordNameIsUpper | app/main.py:30-47 | for each of the sixteen reserved words, the keyword kind's printed name is the upper-cased word |
| Tokens.KeywordKind | app/main.py:81-83 | a reserved word is given a keyword kind |
| Tokens.OperatorCharClass | app/main.py:5-21 | no character of the one-character table is whitespace, a quote, a letter, a digit or `_` |
| Scanning.AddToken | app/main.py:61-78 | outside a string, `//` is reported as a comment, with no token and the skip count unchanged; otherwise one token is printed, and it is the one- or two-character slice of the line at `idx`; the lexeme has two characters exactly when the pair is in the two-character table, and then the skip count is 1; a missing lookahead at the end of the line gives the single-character token |
| Scanning.IdentifierToken | app/main.py:81-85 | the lexeme is the word itself with a null literal; the kind is IDENTIFIER exactly when the word is not reserved, and otherwise the keyword kind of that word |
| Scanning.FlushPrintsWord | app/main.py:122-125 | printing the open identifier adds exactly one token, the buffered word, keyword or not, after the earlier ones, closes identifier mode with an empty buffer, and changes nothing else |
| Scanning.ReportFails | app/main.py:192-196 | reporting appends exactly the one diagnostic after the earlier ones, sets exit code 65, and leaves tokens and modes alone |
| Scanning.ReservedWordPrintedUpper | app/main.py:81-83 | a reserved word is printed under a keyword kind whose name is the word upper-cased, as `identifier.upper()` prints it |
| Scanning.Accumulate | app/main.py:138-170 | the quote, string, digit and dot branches never report a diagnostic or change the exit code; they only append tokens |
| Scanning.Classify | app/main.py:172-193 | the whitespace and identifier branches only append tokens and diagnostics |
| Scanning.Step | app/main.py:115-193 | one character only appends output; the line is dropped exactly for `//` outside strings and numbers; at most one following character is skipped |
| Scanning.ScanLine | app/main.py:114-136 | walking a line never takes back printed tokens or diagnostics |
| Scanning.ScanLines | app/main.py:113 | walking the lines never takes back printed tokens or diagnostics |
| Scanning.NumberAtEnd | app/main.py:197-207 | an open number prints one NUMBER token, whose literal is formatted from the whole buffer; a DOT follows exactly when the buffer ends in `.`, and then the lexeme is the buffer without that dot |
| Scanning.Finish | app/main.py:194-213 | end of input only appends tokens, and the last token is the end marker `EOF  null` |
| Lexer.Tokenize | app/main.py:105-215 | every run ends with the end marker; an empty file prints only the end marker and exits with 0 |
| Lexer.Scanned | app/main.py:105-193 | the loop over all lines from the initial state (nothing open, empty buffers) leaves any open number with a non-empty buffer, which the end of input relies on |
| Lexer.ScannedInv | app/main.py:105-193 | the state after the last line satisfies the loop invariant |
| Lexer.FinishShape | app/main.py:194-213 | end of input reports an open string, prints an open number, then an open identifier, then the end marker, in that order; the exit code becomes 65 only for an open string |
| Lexer.FinishValid | app/main.py:194-213 | what end of input prints is well formed and never a STRING; it reports one unterminated string, on the last line, exactly when a string is open; the exit code still agrees with the diagnostics |
| Lexer.TokenizeWellFormed | app/main.py:89-215 | exactly one end marker, and it is last; every other token's kind, lexeme and literal agree; the exit code is 65 exactly when a diagnostic was printed, and 0 otherwise |
| Lexer.TokenizeDiagnostics | app/main.py:192-195 | every diagnostic carries a physical line number in `1..#lines`; all but the last are unexpected characters; an unterminated string can only be last, on the last line |
| Lexer.UnterminatedStringAtEnd | app/main.py:194-196 | input ending inside a string adds exactly one unterminated-string diagnostic on the last line, and prints no STRING at end of input |
| Invariants.StepPreservesInv | app/main.py:115-193 | one character keeps the loop invariant. Number mode holds exactly when the number buffer is non-empty, and the buffer is a digit-led numeral with at most one dot that the period flag tracks. Identifier mode holds exactly when the identifier buffer is non-empty, and the buffer matches `[A-Za-z_][A-Za-z0-9_]*`. The two modes are never both open. The string buffer is empty outside strings. Printed tokens are well formed, and the exit code agrees with the diagnostics. |
| Invariants.ScanLinePreservesInv | app/main.py:113-193 | a whole line keeps the loop invariant |
| Invariants.ScanLinesPreservesInv | app/main.py:113-200 | all lines keep the loop invariant; so an open number's buffer is non-empty at end of input, and `number_literal[-1]` is safe |
| Invariants.AccumulatePreservesInv | app/main.py:138-170 | the quote, string, digit and dot branches keep the invariant |
| Invariants.ClassifyPreservesInv | app/main.py:172-193 | the whitespace and identifier branches keep the invariant |
| Invariants.FlushPreservesInv | app/main.py:122-125 | printing the open identifier keeps the invariant and closes identifier mode |
| Invariants.NumeralAppendDigit | app/main.py:145-147 | appending a digit keeps a numeral a numeral, without adding a dot |
| Invariants.NumeralAppendDot | app/main.py:148-151 | appending the first dot keeps a numeral a numeral |
| Invariants.OperatorTokenValid | app/main.py:5-28 | a token taken from the operator tables is well formed and is not the end marker |
| Behaviour.MergedOperator | app/main.py:61-72 | outside strings and numbers, a pair from the two-character table prints one merged token, and the skip count of 1 (lines 116-118) makes scanning resume after its second character |
| Behaviour.SingleOperator | app/main.py:61-78 | an operator with no merging partner and no `//` after it prints its one-character token, also at the end of a line |
| Behaviour.CommentEndsLine | app/main.py:127-136 | outside strings and numbers, `//` drops the rest of the line whatever it holds; only an open identifier is printed first |
| Behaviour.StringContents | app/main.py:121-176 | inside a string, every character other than `"` is appended verbatim, including operators, `//` and whitespace; an identifier open when the string began is printed at the first whitespace or operator character and stays open otherwise |
| Behaviour.StringLiteral | app/main.py:121-144 | a string on one line prints STRING with lexeme `"text"` and literal `text`, and scanning resumes after the closing quote; an identifier open before the quote is printed first when the text holds whitespace or an operator, and otherwise stays open past the string |
| Behaviour.StringSpansLine | app/main.py:121-176 | a whole line without a quote, line break included, joins an open string, and prints an open identifier when the line holds whitespace or an operator |
| Behaviour.StringStep | app/main.py:121-144 | one character other than `"` inside a string is appended to it, and prints an open identifier exactly when it is whitespace or an operator |
| Behaviour.InsideStringAppend | app/main.py:121-144 | scanning string text one character and then the rest is the same as scanning it all at once: the identifier is printed once, at the first whitespace or operator |
| Behaviour.QuoteStep | app/main.py:138-142 | a quote toggles string mode whatever else is open; closing prints the STRING token and clears the buffer |
| Behaviour.IdentifierClosedInsideString | app/main.py:121-125 | inside a string, whitespace or an operator still prints an open identifier, and is appended to the string |
| Behaviour.DigitExtendsNumber | app/main.py:145-147 | a digit outside strings and identifiers opens or extends the number |
| Behaviour.NumberDigits | app/main.py:145-147 | a run of digits is appended to an open number |
| Behaviour.FirstDotExtendsNumber | app/main.py:148-151 | the first dot of a number belongs to it |
| Behaviour.SecondDotSplitsNumber | app/main.py:152-157 | a second dot prints NUMBER with the raw buffer as both lexeme and literal, then DOT, and closes the number |
| Behaviour.NumberEndsAndCharIsRescanned | app/main.py:158-193 | any character other than a digit, `.` or `"` prints the open number with a formatted literal and a lexeme that keeps a trailing dot; the character is then handled as if no number were open, except that a skip or comment signal is dropped |
| Behaviour.MergedOperatorAfterNumber | app/main.py:165-170 | right after a number, a merged pair prints its token, but its second character is scanned again |
| Behaviour.SlashesAfterNumber | app/main.py:165-170 | right after a number, `//` is no comment: the first `/` prints nothing and the second is scanned again |
| Behaviour.IdentifierStarts | app/main.py:186-188 | a letter or underscore outside strings and numbers opens an identifier |
| Behaviour.IdentifierPartStep | app/main.py:189-190 | a letter, digit or underscore extends an open identifier; a digit there does not start a number (line 145) |
| Behaviour.IdentifierContents | app/main.py:189-190 | a run of letters, digits and underscores is appended to an open identifier |
| Behaviour.WhitespaceStep | app/main.py:172-178 | outside strings and numbers, whitespace only prints an open identifier |
| Behaviour.IdentifierEnds | app/main.py:121-176 | whitespace (lines 172-176) or an operator (lines 121-125) prints the open identifier first and closes identifier mode |
| Behaviour.UnexpectedCharacterReported | app/main.py:179-193 | outside a string and a number, a character that is not whitespace, an operator, a quote, a letter, a digit or `_` reports an unexpected character with its line, prints nothing, sets exit code 65, and scanning continues |
| Behaviour.StepReportsExactlyUnexpected | app/main.py:179-193 | one character adds a diagnostic exactly when it is unexpected, and then exactly one |
| Behaviour.Advance | app/main.py:115-118 | a step that neither skips nor ends the line moves on to the next character |
| Examples.EndsClosed | app/main.py:194-213 | with no number or identifier open, end of input prints only the end marker and reports an open string |
| Examples.EndsInWord | app/main.py:209-213 | an identifier open at end of input is printed before the end marker |
| Examples.EndsInNumber | app/main.py:197-213 | a number open at end of input is printed before the end marker |
| Examples.EmptyFile | app/main.py:214-215 | an empty file prints only the end marker and exits with 0 |
| Examples.Parentheses | app/test.py:10-14 | `(()` prints LEFT_PAREN, LEFT_PAREN, RIGHT_PAREN, EOF and exits with 0 |
| Examples.ErrorsDoNotStopTheScan | app/main.py:179-193 | `#(` reports `#` on line 1, still prints LEFT_PAREN, and exits with 65 |
| Examples.MergedComparisons | app/test.py:36-40 | `<<=>>=` prints LESS, LESS_EQUAL, GREATER, GREATER_EQUAL, EOF |
| Examples.CommentOnly | app/test.py:41-45 | `// Comment` prints only EOF |
| Examples.LoneSlash | app/test.py:46-50 | `/` prints SLASH and EOF |
| Examples.LinesAcrossNewlines | app/test.py:51-55 | the lines `(`+tab+newline and ` )` print LEFT_PAREN, RIGHT_PAREN, EOF |
| Examples.StringWithSpace | app/test.py:56-60 | `"foo baz"` prints one STRING token with literal `foo baz` |
| Examples.UnterminatedStringReported | app/test.py:61-65 | `"bar` prints only EOF, reports an unterminated string on line 1, and exits with 65 |
| Examples.KeywordAnd | app/test.py:111-115 | `and` prints the AND keyword token with lexeme `and`, then EOF, reports nothing and exits with 0 |
| Examples.GreaterEqualAfterNumber | app/main.py:158-170 | `1>=` prints NUMBER 1, GREATER_EQUAL and then EQUAL for the same `=` |
| Examples.CommentAfterNumber | app/main.py:158-170 | `1//` prints NUMBER 1 and one SLASH, and drops no part of the line |
| Examples.TrailingDotAtEnd | app/main.py:197-207 | `1.` at end of input prints NUMBER with lexeme `1` and the literal formatted from `1.`, then DOT |

## Left out

- Command-line handling, opening the file, `readlines`, `exit` and the `__main__` guard (app/main.py:88-103, 217-221). These are I/O. The model starts from the sequence of physical lines and returns the exit code. Lines may have any shape; no `'\n'` convention is assumed.
- `format_number_literal` (app/main.py:57-58) is Python's `str(float(...))`, which means floating-point parsing and printing. It is kept symbolic as the literal `FloatRepr(numeral)`, the formatting of `numeral`. No normalisation such as `42` becoming `42.0` is modelled.
- The text that `print` and `eprint` write. Tokens and diagnostics are kept as records: `Name` gives the printed kind name, but the line layout and the message wording are not rendered.
- Python's `str.isspace` is modelled by its list of code points (`IsSpace`). `re.match` on `[a-zA-Z_]` and `[a-zA-Z_0-9]` becomes the ASCII predicates `IsIdentStart` and `IsIdentPart`.
- The bare `try`/`except` around the lookahead (app/main.py:64-76). It is replaced by an explicit `idx + 1 < |line|` test. Its only effect in the code is to catch the index error at the end of a line.
- The pytest suite in app/test.py. Only its expected outputs are used, in `Examples`. The test-table inputs with many characters are not walked through: the verifier's cost grows with each character, and the general lemmas in `Behaviour` cover the same constructs.
- Scanning.ScanLine: its contract only says that output grows. What a line prints is stated construct by construct by the `Behaviour` lemmas and, for whole runs, by `Lexer`.
- Scanning.ScanLines: its contract only says that output grows, for the same reason.
- Scanning.Accumulate: its contract only says that output grows and that nothing is reported. Its branches are stated one by one in `Behaviour`.
- Scanning.Classify: its contract only says that output grows. Its branches are stated in `Behaviour` (`WhitespaceStep`, `IdentifierStarts`, `IdentifierPartStep`, `UnexpectedCharacterReported`).
