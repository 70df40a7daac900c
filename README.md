# HansenLite compiler front end, modelled in Dafny

HansenLite is a small teaching language. Its compiler reads a program and
produces ARM assembly text. The repository holds two snapshots of the same
compiler. The main snapshot is `src/main/java/com.greatgitsby.hlc`. The newer
snapshot is `src/test/output`, where code generation has started. This
project models three table-driven cores of both snapshots and proves
properties about them.

- **The lexer.** A deterministic finite automaton over characters, reduced to
  digit and letter classes (module `Dfa`). It takes the longest match,
  throws blanks and comments away, and resolves keywords through a table.
  - The main snapshot's `LexicalAnalyzer` (module `Lexer`) keeps one symbol
    table, seeded with the keywords, that remembers the first lexeme created
    for every other text.
  - The newer one (module `OutputLexer`) keeps the keywords in a fixed table,
    stamps lexemes with a line and column, and enters identifiers only into
    its symbol table.
  - A scan is described once, by the pure function `Lexer.Scan`. The lemma
    `Lexer.ScanMeaning` says what each outcome means. Both `NextSymbol`
    methods, which loop over the characters the way the Java code does, are
    proved to scan exactly what `Lexer.Scan` describes.
- **The LL(1) parser.** The main parse table `ParseTable.Entry` is written
  out row by row, and so is the newer `OutputTable.Entry`.
  - One parser step is `LL.Step`. A non-terminal on top is replaced by its
    production for the lookahead, first symbol on top. A terminal on top must
    equal the lookahead.
  - `LLParser.Parser` runs `isValidSyntax` of the main snapshot, with the
    steps of `NonTerminalToken`, `TerminalToken` and `Action`. It also builds
    the "Expected ..." message of a syntax error.
  - The older `Token` enum is modelled by `LegacyToken`. It pushes
    productions in list order and only prints "ERROR!!!" on a missing key.
  - The lemmas state the grammar facts the table encodes: empty productions,
    where `else` binds, operator layering, and that both snapshots' tables
    describe the same grammar.
- **The register allocator and emission of the newer snapshot** (module
  `OutputParser`). It is a class over an `array<Symbol?>` of six slots, where
  slot i stands for register r(4+i). A symbol is placed in the lowest free
  slot, and loading it emits an `ldr` line. It also holds the variable and
  label counters, the append-only assembly buffer, and the parse loop framed
  by PROLOGUE and EPILOGUE. `Symbols` and `OutputSymbol` hold the Lexeme and
  Symbol records of the two snapshots.

Integers are unbounded and strings are sequences of characters. An `Outcome`
or `Result` datatype carries every exception the code throws. The file the
lexer reads is a sequence `input` with a cursor `pos`, and `pos == |input|`
is end of file. The parser's lookahead is the head of the sequence of token
types still to come. The lexer reports END_OF_INPUT once that sequence is
used up.

The model follows what the code does in these cases:

- **Unterminated comment or string.** At end of file inside a comment or a
  string, the character -1 reaches `Character.toString(int)`, which throws.
  `Lexer.LexError.IllegalCodePoint` models that throw, and the scan outcome
  `Lexer.ScanOutcome.Unterminated` is the case that leads to it.
- **A ':' right before end of file.** The scan stops in COLON with no
  transition, COLON does not accept, and the end-of-file branch returns
  END_OF_INPUT, so the ':' is dropped without an error.
- **An action on top of the main parse stack.** `Action.doTheThing` is
  empty, so an action on top is never removed. The loop of `isValidSyntax`
  would spin forever, and the model reports `Spins(action)`.
- **Two Symbol types in the main snapshot.** `Symbol.java` there is a
  class, but the parser and the lexer use `Symbol` as the common interface
  of terminals and lexemes. `Symbols.Symbol` models the class and
  `Symbols.LexSymbol` models the interface.

## Model

| member | source | states |
|---|---|---|
| Decimal.IntToString | src/test/output/Parser.java:286-291 | Java's `%d`: at least one character, with a leading '-' exactly for negative values |
| Decimal.IntToStringRoundTrip | src/test/output/Parser.java:286-291 | reading back the printed number gives the number again |
| Decimal.IntToStringInjective | src/test/output/Parser.java:286-291 | different numbers print differently |
| Grammar.Vocabulary | src/main/java/com.greatgitsby.hlc/TerminalToken.java:9-31 | the lists name every terminal, non-terminal and action constant exactly once: 22 terminals, 12 non-terminals and 16 actions |
| Grammar.NameHasNoBlank | src/main/java/com.greatgitsby.hlc/Lexeme.java:77-83 | no terminal name contains a blank |
| Grammar.NameInjective | src/main/java/com.greatgitsby.hlc/Lexeme.java:77-83 | two terminals with the same printed name are the same terminal |
| Dfa.Transition | src/main/java/com.greatgitsby.hlc/LexicalAnalyzer.java:113-213 | the state table of buildStateTable, row by row, on normalised characters; RunIff relates it to the per-state languages |
| Dfa.Delta | src/main/java/com.greatgitsby.hlc/LexicalAnalyzer.java:252-295 | one step of the loop: inside a comment or string every character is taken, and the closing '}' or '"' moves to COMMENT or STRING_CONST; elsewhere the state table decides on the normalised character |
| Dfa.Run | src/main/java/com.greatgitsby.hlc/LexicalAnalyzer.java:237-295 | the state the loop reaches from START on a text, or none once no step applies; RunIff shows it reaches q exactly on q's language |
| Dfa.RefusingStates | src/main/java/com.greatgitsby.hlc/State.java:8-57 | a state refuses exactly when it is START, COLON, IN_COMMENT or IN_STRING; COMMENT and STRING_CONST accept |
| Dfa.State.IsAccepting | src/main/java/com.greatgitsby.hlc/State.java:55-57 | the default isAccepting and its overrides; RefusingStates shows exactly START, COLON, IN_COMMENT and IN_STRING refuse |
| Dfa.NormalizeKeepsClass | src/main/java/com.greatgitsby.hlc/LexicalAnalyzer.java:242-250 | normalising keeps a character's digit or letter class and leaves line feeds and U+FFFF alone; characters of one class normalise alike, and normalising twice changes nothing |
| Dfa.ClassDecides | src/main/java/com.greatgitsby.hlc/LexicalAnalyzer.java:242-250 | two digits, or two letters, take the same transition from every state |
| Dfa.StepFromStart | src/main/java/com.greatgitsby.hlc/LexicalAnalyzer.java:114-132 | every transition out of START reaches a state whose language holds that one character |
| Dfa.StepInWord | src/main/java/com.greatgitsby.hlc/LexicalAnalyzer.java:137-149 | the steps of SYMBOL, NUMBER, IN_COMMENT and IN_STRING keep the text in the language of the state reached |
| Dfa.StepInOperator | src/main/java/com.greatgitsby.hlc/LexicalAnalyzer.java:151-172 | the steps of the operator states ('<', '>', ':') keep the text in the language of the state reached |
| Dfa.StepRecognizes | src/main/java/com.greatgitsby.hlc/LexicalAnalyzer.java:113-213 | one step of the automaton extends a text of q's language to a text of the new state's language |
| Dfa.RunRecognizes | src/main/java/com.greatgitsby.hlc/LexicalAnalyzer.java:113-213 | the state the automaton reaches on a text has that text in its language |
| Dfa.PreviousState | src/main/java/com.greatgitsby.hlc/LexicalAnalyzer.java:113-213 | a nonempty text of q's language comes from a state whose language holds its prefix, by a step on its last character |
| Dfa.RecognizesRun | src/main/java/com.greatgitsby.hlc/LexicalAnalyzer.java:113-213 | every text of q's language drives the automaton from START to q |
| Dfa.RunIff | src/main/java/com.greatgitsby.hlc/LexicalAnalyzer.java:113-213 | the automaton reaches q on t if and only if t is in q's language |
| Dfa.StuckStaysStuck | src/main/java/com.greatgitsby.hlc/LexicalAnalyzer.java:282-285 | once no transition applies, no longer text gets through |
| Dfa.LongestMatch | src/main/java/com.greatgitsby.hlc/LexicalAnalyzer.java:282-297 | when an accepting state has no transition on the next character, no longer text is accepted, so the lexeme is the longest match |
| Dfa.OwnType | src/main/java/com.greatgitsby.hlc/LexicalAnalyzer.java:327-366 | a lexeme created for a non-keyword text never has type END_OF_INPUT |
| Dfa.AcceptedTextClassified | src/main/java/com.greatgitsby.hlc/LexicalAnalyzer.java:322-370 | every accepted text is a keyword or ends in a state that creates its own lexeme; a keyword that also qualifies that way is a word accepted in SYMBOL |
| Dfa.Classify | src/main/java/com.greatgitsby.hlc/LexicalAnalyzer.java:322-370 | a keyword gets the keyword table's token and any other text its state's type, never END_OF_INPUT |
| Symbols.LexemeText | src/main/java/com.greatgitsby.hlc/Lexeme.java:77-83 | toString's "TYPE (value)"; LexemeTextInjective shows it determines both parts |
| Symbols.LexemeTextInjective | src/main/java/com.greatgitsby.hlc/Lexeme.java:77-83 | the printed form "TYPE (value)" determines both the token type and the text |
| Symbols.Lexeme.ToString | src/main/java/com.greatgitsby.hlc/Lexeme.java:77-83 | the lexeme's printed form LexemeText; LexemeTextInjective shows it determines the token type and the value |
| Symbols.Lexeme.constructor | src/main/java/com.greatgitsby.hlc/Lexeme.java:25-29 | stores value and token type; variable number and register start at 0 |
| Symbols.Lexeme.SetVariableNumber | src/main/java/com.greatgitsby.hlc/Lexeme.java:40-42 | sets the variable number and changes no other field |
| Symbols.Lexeme.SetRegister | src/main/java/com.greatgitsby.hlc/Lexeme.java:44-46 | sets the register and changes no other field |
| Symbols.Symbol.Empty | src/main/java/com.greatgitsby.hlc/Symbol.java:14-18 | no lexeme, variable number -1 and register -1 |
| Symbols.Symbol.constructor | src/main/java/com.greatgitsby.hlc/Symbol.java:20-24 | keeps the lexeme, with variable number and register -1 |
| Symbols.Symbol.Numbered | src/main/java/com.greatgitsby.hlc/Symbol.java:26-30 | keeps the lexeme and the variable number, with register -1 |
| Symbols.Symbol.SetVariableNumber | src/main/java/com.greatgitsby.hlc/Symbol.java:36-38 | sets the variable number and changes no other field |
| Symbols.Symbol.SetRegister | src/main/java/com.greatgitsby.hlc/Symbol.java:44-46 | sets the register and changes no other field |
| Lexer.Scan | src/main/java/com.greatgitsby.hlc/LexicalAnalyzer.java:222-432 | the scan nextSymbol performs from the cursor, in START with an empty buffer; ScanMeaning states what each outcome means |
| Lexer.ColumnWithoutLineFeed | src/main/java/com.greatgitsby.hlc/LexicalAnalyzer.java:255-295 | while no line feed is taken, the column counter moves on by one for each character taken |
| Lexer.ColumnSinceLineFeed | src/main/java/com.greatgitsby.hlc/LexicalAnalyzer.java:255-415 | after the last line feed taken, the column counts the characters from it on, the line feed itself being column 1 |
| Lexer.ScanFrom | src/main/java/com.greatgitsby.hlc/LexicalAnalyzer.java:237-429 | the scan loop from a state in the middle of a lexeme locates a slice of the input that starts where the lexeme does |
| Lexer.ScanFromMeaning | src/main/java/com.greatgitsby.hlc/LexicalAnalyzer.java:237-429 | after skipped blanks and comments and a text that reaches q, each outcome of the loop means what the final branch says |
| Lexer.TakeStep | src/main/java/com.greatgitsby.hlc/LexicalAnalyzer.java:282-295 | taking a character extends the scanned text by one automaton step, and the scan continues from the state reached |
| Lexer.TakeMeaning | src/main/java/com.greatgitsby.hlc/LexicalAnalyzer.java:282-295 | past a taken character, after skipped blanks and comments, the rest of the scan still means what OutcomeMeaning says |
| Lexer.SkipMeaning | src/main/java/com.greatgitsby.hlc/LexicalAnalyzer.java:376-387 | a finished blank or comment is thrown away and scanning restarts in START with the same meaning |
| Lexer.ScanMeaning | src/main/java/com.greatgitsby.hlc/LexicalAnalyzer.java:222-432 | a scan skips blanks and comments only, then finds the longest accepted lexeme, or stops at end of file in START or COLON, or is stuck on a character, or ends inside a comment or string |
| Lexer.ConsumeStep | src/main/java/com.greatgitsby.hlc/LexicalAnalyzer.java:282-295 | taking the next character extends both the buffer and the automaton's run by one step |
| Lexer.SkipPiece | src/main/java/com.greatgitsby.hlc/LexicalAnalyzer.java:376-387 | skipped text followed by one more blank or comment is still skipped text |
| Lexer.LookUp | src/main/java/com.greatgitsby.hlc/LexicalAnalyzer.java:322-370 | a known text returns its table entry and leaves the table as it was; an unknown text gets a fresh lexeme that putIfAbsent adds |
| Lexer.TableClassifies | src/main/java/com.greatgitsby.hlc/LexicalAnalyzer.java:322-370 | every table entry for an accepted text carries that text's classification |
| Lexer.Advance | src/main/java/com.greatgitsby.hlc/LexicalAnalyzer.java:237-415 | the loop's continuing iterations stop where Scan's final step is due, with the buffer equal to that slice of the input, the line counter equal to the line feeds read and the column counter equal to ColumnAfter over the characters taken; the table only grows, by fresh lexemes |
| Lexer.EnterPiece | src/main/java/com.greatgitsby.hlc/LexicalAnalyzer.java:319-370 | a blank or comment that ends here is in the table afterwards, which only grows and only by fresh lexemes, and is unchanged when the text was there; a character taken leaves the table as it is |
| Lexer.Iteration | src/main/java/com.greatgitsby.hlc/LexicalAnalyzer.java:237-415 | each continuing iteration keeps the loop invariant Scanning (buffer, automaton run, line and column counters, and the scan still to come) and either moves the cursor on or returns to START from another state, which bounds the loop |
| Lexer.Take | src/main/java/com.greatgitsby.hlc/LexicalAnalyzer.java:255-295 | taking a character keeps the loop invariant with the cursor one character further |
| Lexer.Skip | src/main/java/com.greatgitsby.hlc/LexicalAnalyzer.java:297-415 | ending a blank or comment keeps the loop invariant with the scan restarted in START at the same character |
| Lexer.TakeChar | src/main/java/com.greatgitsby.hlc/LexicalAnalyzer.java:255-295 | a taken character extends the buffer and the automaton's run by one step, the scan goes on from there, and a line feed moves to the next line at column 1 |
| Lexer.EndPiece | src/main/java/com.greatgitsby.hlc/LexicalAnalyzer.java:297-415 | a finished blank or comment leaves the line count as it was, since the line feed after it is read again, sets the column to 1 before such a line feed, and restarts the scan in START at that character |
| Lexer.ColumnTake | src/main/java/com.greatgitsby.hlc/LexicalAnalyzer.java:255-295 | a taken character moves the column on by one, or to 1 on a line feed, as ColumnAfter counts |
| Lexer.ColumnSkip | src/main/java/com.greatgitsby.hlc/LexicalAnalyzer.java:297-415 | ending a blank or comment keeps the column, or sets it to 1 before a pushed-back line feed |
| Lexer.ColumnSettled | src/main/java/com.greatgitsby.hlc/LexicalAnalyzer.java:237-415 | a pushed-back line feed is always taken again before the loop stops, so the final column is ColumnAfter |
| Lexer.FinalStep | src/main/java/com.greatgitsby.hlc/LexicalAnalyzer.java:255-409 | the iteration that ends the loop throws on an unterminated comment or string, returns the table's symbol for an accepted lexeme, returns END_OF_INPUT at end of file, or throws "Line L, Char C: Invalid Syntax" |
| Lexer.ScanSymbol | src/main/java/com.greatgitsby.hlc/LexicalAnalyzer.java:222-432 | returns what Scan's outcome gives (a lexeme, END_OF_INPUT, "Line L, Char C: Invalid Syntax" or the unterminated error); the table only grows, by fresh lexemes; the column is NewColumn: the characters up to the end of the scanned text counted from the last line feed, or 1 after a lexeme followed by a line feed |
| Lexer.LexicalAnalyzer.constructor | src/main/java/com.greatgitsby.hlc/LexicalAnalyzer.java:49-93 | opens the input on its first character in START, with counters at 0, more lexemes to come, and the keyword table |
| Lexer.LexicalAnalyzer.NextSymbol | src/main/java/com.greatgitsby.hlc/LexicalAnalyzer.java:222-432 | scans exactly Scan(input, pos); a repeated text returns the lexeme of its first occurrence, and a new one enters the table; END_OF_INPUT clears hasNextLexeme; charNumber becomes NewColumn, the C of "Line L, Char C: Invalid Syntax" |
| Lexer.LexicalAnalyzer.HasNextSymbol | src/main/java/com.greatgitsby.hlc/LexicalAnalyzer.java:448-450 | the hasNextLexeme flag, which NextSymbol clears on END_OF_INPUT |
| OutputSymbol.Symbol.constructor | src/test/output/Symbol.java:23-34 | keeps the lexeme, or none for the anonymous temporary, with variable number and register NOT_ALLOCATED |
| OutputSymbol.Symbol.SetLexeme | src/test/output/Symbol.java:45-47 | sets the lexeme and changes no other field |
| OutputSymbol.Symbol.SetVariableNumber | src/test/output/Symbol.java:65-67 | sets the variable number and changes no other field |
| OutputSymbol.Symbol.SetRegister | src/test/output/Symbol.java:83-85 | sets the register and changes no other field |
| OutputLexer.Step | src/test/output/LexicalAnalyzer.java:449-463 | after a read the line counter is the reader's line number; ColumnWithoutLineFeed and ColumnAfterLineFeed give the column the reads leave in closed form |
| OutputLexer.ReaderLineStep | src/test/output/LexicalAnalyzer.java:449-463 | the reader's line number goes up by one exactly when the character it delivers is a line feed |
| OutputLexer.ColumnWithoutLineFeed | src/test/output/LexicalAnalyzer.java:261-326 | while no line feed is delivered, the line stays and the column counts the reads |
| OutputLexer.ColumnAfterLineFeed | src/test/output/LexicalAnalyzer.java:261-326 | a delivered line feed is column 1 of the reader's next line, and the column then counts the reads after it |
| OutputLexer.ReadNext | src/test/output/LexicalAnalyzer.java:449-475 | the cursor moves on one character, staying at end of file; the reader's line is that of the new cursor and the counters take the read as Step says |
| OutputLexer.Advance | src/test/output/LexicalAnalyzer.java:261-326 | the loop's continuing iterations stop where Scan's final step is due, with the buffer equal to that slice of the input, the reader's line matching the cursor and the counters equal to CountersTo: one read per character taken |
| OutputLexer.TakeCharacter | src/test/output/LexicalAnalyzer.java:279-326 | a character taken joins the buffer and moves the automaton, and the read after it keeps the reader's line and the counters as CountersTo says |
| OutputLexer.MoveOn | src/test/output/LexicalAnalyzer.java:279-323 | the character joins the buffer and the automaton takes one step on it, the scan going on from there |
| OutputLexer.Accept | src/test/output/LexicalAnalyzer.java:328-398 | a keyword gets a lexeme of its token with no position; other texts get their state's type at (line, column - length); only a new identifier enters the table |
| OutputLexer.Finish | src/test/output/LexicalAnalyzer.java:328-443 | the ending iteration returns what Returned says for the scan's outcome; only END_OF_INPUT reads once more and moves the counters, as Step says |
| OutputLexer.ScanSymbol | src/test/output/LexicalAnalyzer.java:245-447 | returns what Scan's outcome gives and leaves the counters at CountersFor: one read per character of the scan, and one more after END_OF_INPUT |
| OutputLexer.LexicalAnalyzer.constructor | src/test/output/LexicalAnalyzer.java:56-92 | line 1, column 1, START, an empty symbol table and more lexemes to come |
| OutputLexer.LexicalAnalyzer.ReadNextCharacter | src/test/output/LexicalAnalyzer.java:449-475 | moves one character on; on a new line the column restarts at 1, otherwise it grows by one |
| OutputLexer.LexicalAnalyzer.NextSymbol | src/test/output/LexicalAnalyzer.java:245-447 | scans exactly Lexer.Scan; returns the lexeme, END_OF_INPUT with hasNextLexeme cleared, or "Line L Char C - Invalid Syntax"; the first Symbol per identifier is kept; lineNumber and charNumber end as CountersFor says, which dates the lexeme and the error |
| OutputLexer.LexicalAnalyzer.HasNextSymbol | src/test/output/LexicalAnalyzer.java:509-511 | the hasNextLexeme flag, which NextSymbol clears on END_OF_INPUT |
| LL.Step | src/main/java/com.greatgitsby.hlc/NonTerminalToken.java:38-80 | one step of the loop for a terminal or non-terminal on top; StepKeepsBottom and ExpansionFailsOnMissingKey state what it does |
| LL.StepKeepsBottom | src/main/java/com.greatgitsby.hlc/NonTerminalToken.java:38-80 | a step rewrites only the top of the stack; an expansion reads no input and a match reads exactly the lookahead |
| LL.ExpansionFailsOnMissingKey | src/main/java/com.greatgitsby.hlc/NonTerminalToken.java:59-85 | expansion fails exactly when the row has no key for the lookahead, with that row and lookahead as the error |
| ParseTable.Entry | src/main/java/com.greatgitsby.hlc/Parser.java:194-745 | buildParseTable's table, row by row; the ParseTable lemmas state the grammar it encodes |
| ParseTable.RowNotEmpty | src/main/java/com.greatgitsby.hlc/Parser.java:194-745 | every one of the 12 non-terminals has a row with at least one key |
| ParseTable.FirstTerminalIsKey | src/main/java/com.greatgitsby.hlc/Parser.java:194-745 | a production that starts with a terminal is filed under that terminal |
| ParseTable.KeysLeadToThemselves | src/main/java/com.greatgitsby.hlc/Parser.java:194-745 | expanding by lookahead t never exposes another terminal, or an action, before t is matched |
| ParseTable.ExpressionLeadsTo | src/main/java/com.greatgitsby.hlc/Parser.java:452-511 | EXPRESSION leads to its key within three expansions |
| ParseTable.TermLeadsTo | src/main/java/com.greatgitsby.hlc/Parser.java:557-620 | TERM leads to its key within two expansions |
| ParseTable.FactorLeadsTo | src/main/java/com.greatgitsby.hlc/Parser.java:670-733 | FACTOR leads to its key within one expansion |
| ParseTable.StatementMayBeEmpty | src/main/java/com.greatgitsby.hlc/Parser.java:198-275 | STATEMENT derives nothing on ELSE, ';', END and END_OF_INPUT |
| ParseTable.ElseClauseClaimsElse | src/main/java/com.greatgitsby.hlc/Parser.java:276-297 | ELSE_CLAUSE expands to [ELSE, STATEMENT] on ELSE and is empty on every other key |
| ParseTable.RelationalOpOnlyInCondition | src/main/java/com.greatgitsby.hlc/Parser.java:404-451 | RELATIONAL_OP occurs only in BOOLEAN_EXPRESSION, right after its first EXPRESSION |
| ParseTable.ExpressionsStopAtRelationalOp | src/main/java/com.greatgitsby.hlc/Parser.java:452-733 | EXPRESSION, ADDITION, TERM, MULTIPLICATION and FACTOR are empty on RELATIONAL_OP |
| ParseTable.OperatorLayering | src/main/java/com.greatgitsby.hlc/Parser.java:452-669 | EXPRESSION is TERM ADDITION, TERM is FACTOR MULTIPLICATION, and ADDITION and MULTIPLICATION chain operator-operand pairs with COMPUTE after each right operand |
| ParseTable.MultiplicativeOpOnlyInMultiplication | src/main/java/com.greatgitsby.hlc/Parser.java:621-669 | MULTIPLICATIVE_OP occurs only at the head of MULTIPLICATION's production under that key |
| ParseTable.AdditiveOpOnlyAtHeads | src/main/java/com.greatgitsby.hlc/Parser.java:512-745 | ADDITIVE_OP occurs only at the head of ADDITION's and SIGNED_TERM's productions under that key |
| ParseTable.SignedFactor | src/main/java/com.greatgitsby.hlc/Parser.java:670-745 | a sign makes FACTOR a SIGNED_TERM, which has only the key ADDITIVE_OP and the production [ADDITIVE_OP, PUSH_OP, TERM, SIGN] |
| ParseTable.GotoEndUnused | src/main/java/com.greatgitsby.hlc/Action.java:18 | no production of the table contains GOTO_END |
| LLParser.TokenTypes | src/main/java/com.greatgitsby.hlc/NonTerminalToken.java:50-53 | a lexeme in the lookahead stands for its token type, and a bare terminal for itself |
| Symbols.TokenTypeOf | src/main/java/com.greatgitsby.hlc/Lexeme.java:64-66 | the token type a lexeme's doTheThing delegates to, and a bare terminal's own; TokenTypes maps it over the input, length and order kept |
| LLParser.Parse | src/main/java/com.greatgitsby.hlc/Parser.java:62-85 | the loop of isValidSyntax on fuel; ParseIterates and FuelMonotone relate it to the loop's iterations |
| LLParser.ActionSpinsForever | src/main/java/com.greatgitsby.hlc/Action.java:32-34 | with an action on top, any number of loop iterations leave stack and input unchanged |
| LLParser.ParseIterates | src/main/java/com.greatgitsby.hlc/Parser.java:74-82 | an acceptance or a rejection within the fuel is what that many loop iterations reach |
| LLParser.Iteration | src/main/java/com.greatgitsby.hlc/Parser.java:74-82 | one pass of the loop: Step for a terminal or non-terminal, no change for an Action (Action.java:32-34); ActionSpinsForever shows an action on top stays for good |
| LLParser.Iterate | src/main/java/com.greatgitsby.hlc/Parser.java:74-82 | k passes of the loop, stopping at an error or an empty stack; ParseIterates shows Parse's verdicts are what Iterate reaches |
| LLParser.FuelMonotone | src/main/java/com.greatgitsby.hlc/Parser.java:74-82 | more fuel never changes a verdict already reached |
| LLParser.EndOfInputAlone | src/main/java/com.greatgitsby.hlc/Parser.java:62-85 | a program of END_OF_INPUT alone is accepted, with no begin-end required |
| LLParser.EmptyBlock | src/main/java/com.greatgitsby.hlc/Parser.java:298-340 | "begin end" is accepted |
| LLParser.TrailingSeparator | src/main/java/com.greatgitsby.hlc/Parser.java:341-354 | a ';' right before END is consumed in four steps wherever it occurs |
| LLParser.StrayEnd | src/main/java/com.greatgitsby.hlc/Parser.java:62-85 | "end" alone is rejected with END_OF_INPUT expected and END found |
| LLParser.StrayThen | src/main/java/com.greatgitsby.hlc/NonTerminalToken.java:85-134 | "then" alone is rejected because STATEMENT has no key THEN |
| LLParser.AssignmentSpins | src/main/java/com.greatgitsby.hlc/Action.java:32-34 | "x := 1" reaches LOAD on top and stays there |
| LLParser.BuildExpected | src/main/java/com.greatgitsby.hlc/NonTerminalToken.java:86-131 | the message is "Line L Char C - Expected " then "A or B" for two keys, "A, B, ..., or Z" for more, and "A, " for one |
| LLParser.Parser.constructor | src/main/java/com.greatgitsby.hlc/Parser.java:35-53 | the table buildParseTable builds and an empty parse stack |
| LLParser.PushProduction | src/main/java/com.greatgitsby.hlc/NonTerminalToken.java:71-80 | pushing the production's symbols last to first leaves the production, in its own order, on top of the rest of the stack |
| LLParser.Parser.ExpandNonTerminal | src/main/java/com.greatgitsby.hlc/NonTerminalToken.java:28-136 | the top is popped even on error; a hit leaves production + rest; a miss throws the Expected message in the given key order |
| LLParser.Parser.MatchTerminal | src/main/java/com.greatgitsby.hlc/TerminalToken.java:37-50 | a terminal equal to the lookahead's type pops both stacks; otherwise "Unexpected Terminal" is thrown and neither stack changes |
| LLParser.Parser.IsValidSyntax | src/main/java/com.greatgitsby.hlc/Parser.java:62-85 | seeds the stack with STATEMENT above END_OF_INPUT and gives Parse's verdict: accepted once the stack is empty, the thrown message on rejection, spinning on an action |
| LegacyToken.PushOrder | src/main/java/com.greatgitsby.hlc/Token.java:120-127 | pushing a production in list order leaves its last symbol on top, which is the newer expansion of the reversed production |
| LegacyToken.LegacyParser.NonTerminalThing | src/main/java/com.greatgitsby.hlc/Token.java:111-132 | a hit pops the top and leaves the production reversed on top; a miss adds "ERROR!!!" to the error stream and leaves the stack as it was |
| LegacyToken.LegacyParser.PushInOrder | src/main/java/com.greatgitsby.hlc/Token.java:120-127 | after the loop the stack is the reversed production above the old stack |
| LegacyToken.LegacyParser.TerminalThing | src/main/java/com.greatgitsby.hlc/Token.java:138-143 | pops the lexer stack and the parse stack without comparing them; an empty lexer stack throws before anything changes |
| LegacyToken.LegacyParser.DoTheThing | src/main/java/com.greatgitsby.hlc/Token.java:35-143 | a non-terminal on top takes the non-terminal step: on a hit the stack becomes the reversed production above the rest, on a miss "ERROR!!!" is added and the stack kept, never throwing and leaving the lexer stack alone; a terminal on top pops both stacks and leaves the error stream alone, or throws on an empty lexer stack with nothing changed |
| OutputTable.Entry | src/test/output/Parser.java:427-968 | the newer buildParseTable's table, row by row; SameGrammarAsMain shows it is the main grammar with actions added |
| OutputTable.SameGrammarAsMain | src/test/output/Parser.java:427-968 | every row has the main table's keys, and each production without its actions is the main one |
| OutputTable.StatementSame | src/test/output/Parser.java:431-508 | STATEMENT's row is the main grammar's, actions aside |
| OutputTable.StatementRowsSame | src/test/output/Parser.java:509-587 | ELSE_CLAUSE, STATEMENT_LIST and SEPARATED_LIST are the main grammar's, actions aside |
| OutputTable.PrintExpressionSame | src/test/output/Parser.java:588-635 | PRINT_EXPRESSION is the main grammar's, actions aside |
| OutputTable.BooleanExpressionSame | src/test/output/Parser.java:636-679 | BOOLEAN_EXPRESSION is the main grammar's, actions aside |
| OutputTable.ExpressionRowsSame | src/test/output/Parser.java:680-847 | EXPRESSION and TERM are the main grammar's, actions aside |
| OutputTable.AdditionSame | src/test/output/Parser.java:740-783 | ADDITION is the main grammar's, actions aside |
| OutputTable.MultiplicationSame | src/test/output/Parser.java:848-895 | MULTIPLICATION is the main grammar's, actions aside |
| OutputTable.FactorSame | src/test/output/Parser.java:896-957 | FACTOR is the main grammar's, actions aside |
| OutputTable.SignedTermSame | src/test/output/Parser.java:958-968 | SIGNED_TERM is the main grammar's, actions aside |
| OutputTable.FirstTerminalIsKey | src/test/output/Parser.java:427-968 | a production that starts with a terminal is filed under that terminal |
| OutputTable.KeysLeadToThemselves | src/test/output/Parser.java:427-968 | expanding by lookahead t never exposes another terminal, or an action, before t is matched |
| OutputTable.ExpressionLeadsTo | src/test/output/Parser.java:680-739 | EXPRESSION leads to its key within three expansions |
| OutputTable.TermLeadsTo | src/test/output/Parser.java:784-847 | TERM leads to its key within two expansions |
| OutputTable.FactorLeadsTo | src/test/output/Parser.java:896-957 | FACTOR leads to its key within one expansion |
| OutputTable.ComputeFollowsRightOperand | src/test/output/Parser.java:636-895 | every COMPUTE comes right after an operator and its right operand (ADDITIVE_OP TERM, MULTIPLICATIVE_OP FACTOR, RELATIONAL_OP EXPRESSION) |
| OutputTable.ExpressionMayBeEmpty | src/test/output/Parser.java:680-957 | EXPRESSION, TERM and FACTOR are empty on every key that may follow an expression |
| OutputParser.LowestFree | src/test/output/Parser.java:322-326 | Some(i) is the first empty slot; None means every slot is occupied |
| OutputParser.LoadInstruction | src/test/output/Parser.java:254-308 | the load fails exactly for a symbol that is neither a NUMBER nor a STRING_CONST and has no variable number |
| OutputParser.LoadNamesItsOperands | src/test/output/Parser.java:271-306 | an immediate load is "\tldr rR, =value\n", a variable load reads [fp, #-4n], and the error names the variable |
| OutputParser.LocalSlotsDistinct | src/test/output/Parser.java:285-293 | two declared variables are loaded with the same text only when their variable numbers are equal |
| OutputParser.Parser.constructor | src/test/output/Parser.java:56-99 | counters at 0, an empty bank and output, and "%d" and "%s" under ifmt and sfmt in the constant pool |
| OutputParser.Parser.EmitToOutput | src/test/output/Parser.java:415-417 | appends the line to the output and to the emitted lines |
| OutputParser.Parser.DumpOutput | src/test/output/Parser.java:216-218 | the output is every emitted line, concatenated in order |
| OutputParser.Parser.IncrementVariableNumber | src/test/output/Parser.java:397-399 | adds one to the variable count and returns the new count |
| OutputParser.Parser.IncrementNumLabels | src/test/output/Parser.java:406-408 | adds one to the label count and returns the new count |
| OutputParser.Parser.LoadSymbolIntoRegister | src/test/output/Parser.java:254-308 | emits LoadInstruction's line, or fails with its message with the output unchanged |
| OutputParser.Parser.GetRegister | src/test/output/Parser.java:315-353 | an allocated symbol keeps its register and nothing changes; else it takes the lowest free slot i, register 4+i in 4..9, and is loaded unless anonymous; a full bank fails with "No free registers" |
| OutputParser.Parser.PlaceInSlot | src/test/output/Parser.java:325-335 | puts the symbol into slot i and sets its register to 4+i, keeping the bank invariant |
| OutputParser.Parser.FreeRegister | src/test/output/Parser.java:360-372 | empties exactly the slots holding that symbol, by identity, and marks it NOT_ALLOCATED; the freed slot can be handed out again |
| OutputParser.Parser.ClearRegisters | src/test/output/Parser.java:377-389 | empties every slot and marks every former occupant NOT_ALLOCATED, keeping its lexeme and variable number |
| OutputParser.Parser.Parse | src/test/output/Parser.java:101-128 | frames the stack as PROLOGUE, STATEMENT, END_OF_INPUT, EPILOGUE and runs the loop; the outcome and the actions performed are those of Drive |
| OutputParser.Drive | src/test/output/Parser.java:101-128 | the newer parse loop on fuel, recording the actions it pops; EpilogueLast and AcceptedParseIsFramed state the frame it keeps |
| OutputParser.EpilogueLast | src/test/output/Parser.java:101-128 | an accepted run with EPILOGUE at the bottom performs EPILOGUE last |
| OutputParser.AcceptedParseIsFramed | src/test/output/Parser.java:101-128 | an accepted parse performs PROLOGUE first and EPILOGUE last |
| OutputParser.EmptyAssignmentAccepted | src/test/output/Parser.java:101-128 | "x :=" with nothing after it passes the table, and STORE runs with no operand computed |
| OutputParser.PrintStringActions | src/test/output/Parser.java:588-635 | print "s" performs PRINT_SFMT before PRINT_PRINTF, between PROLOGUE and EPILOGUE |

## Left out

- Reader mechanics. The file is a sequence of characters read through a cursor. `PushbackReader`, `LineNumberReader` and their IOException branches are not modelled. The newer reader's folding of "\r\n" and '\r' into '\n' is not modelled either: its input is taken to contain line feeds only.
- Unicode. `Character.isDigit` and `Character.isLetter` are modelled on ASCII digits and letters.
- HashMap iteration order. The order in which a row's keys appear in the "Expected ..." message is a parameter of `LLParser.Parser.IsValidSyntax` and `ExpandNonTerminal`, required to list the row's keys.
- Termination. The main loop with an action on top never ends. `LLParser.Parse` reports `Spins` there and counts the other steps with fuel. `OutputParser.Drive` and `OutputParser.Parser.Parse` also run on fuel, so a run that needs more steps ends in `OutOfFuel`.
- The code generation of the newer snapshot's actions. The newer NonTerminalToken, TerminalToken and Action classes are not part of this model, so the newer parse loop takes the main snapshot's steps for terminals and non-terminals. It records each action it pops in `performed` without its effect. The operand, operator and label stacks, the string constant pool beyond its two format strings, and the label prefixes are therefore unused.
- The newer Parser constructor calls `parse` itself. Here `OutputParser.Parser.Parse` is a separate method, called after the constructor.
- OutputParser.Parser.GetRegister: does not state the whole-heap invariant "a symbol in no slot holds NOT_ALLOCATED", which cannot be written as a frame-local property. Like the source, it trusts the symbol's register field.
- OutputParser.Parser.IncrementVariableNumber: does not model 32-bit wrap-around, because the counter stays small for every program the compiler can hold in memory.
- OutputParser.Parser.IncrementNumLabels: does not model 32-bit wrap-around, for the same reason.
- OutputParser.LoadInstruction: does not model the 32-bit wrap-around of LOCAL_VAR_OFFSET times the variable number, which needs more than 500 million variables.
- The main snapshot's `Parser.getRegister()` is a stub that always returns 2 and is used by nothing.
- The main snapshot's `FIRST_REGISTER_LOC` and `LAST_REGISTER_LOC` size an array the main parser never uses.
- The main Parser's getters and setters for the current symbols are not modelled: the model reads the stacks directly.
- Lexeme.doTheThing delegates to its token type. It is modelled by `LLParser.TokenTypes`, which reads a lexeme as its token type.
- `TerminalToken.doTheThing` and the older `Token` enum call `getTopOfLexerStack` and `getSymbolStack`, which the parser and lexer do not define. The lexer's stack is modelled as the sequence of token types still to come for `TerminalToken`, and as an explicit stack of tokens for `Token`. The older enum's parse table is a parameter.
- LLParser.Parser.ExpandNonTerminal: the line and column in "Line L Char C - Expected ..." are the parser's `line` and `column` fields, fixed when the parser is built. The source reads the lexer's `getLineNumber()` and `getCharacterNumber()` at the moment the key is missing (src/main/java/com.greatgitsby.hlc/NonTerminalToken.java:89-93). The model's input is a sequence of symbols without positions, so the lexer's counters at that moment are not modelled.
- LLParser.Parser.ExpandNonTerminal: the non-terminal step's lookahead `getCurrentLexerSymbol()` is modelled as the head of the input still to come, which is the same sequence the terminal step consumes. In the source, `isValidSyntax` sets the current lexer symbol once before the loop (src/main/java/com.greatgitsby.hlc/Parser.java:71) and nothing updates it. The terminal step pops a separate `getTopOfLexerStack`, which the parser does not define. So as written, every expansion after the first match would still see the first lexeme. The model treats the two as one stream, because the snapshot does not compile as it stands.
- Exceptions become messages in `Result` or `Outcome` values. The exception classes themselves are not modelled.
- The command line, the compiler driver, the test classes and the example programs are not modelled.
- src/test/output/Lexeme.java is not part of this model. Its record is modelled from its uses in the newer lexer and parser as `OutputSymbol.Lexeme`: value, token type and an optional position.
