/**
 * The lexical analyser of the main snapshot: a table-driven scanner over
 * the DFA of module Dfa, with a symbol table that starts with the keywords
 * and remembers the first lexeme object created for every other text.
 *
 * The source file is the sequence `input`; `pos` is the index of the
 * character the Java code holds in `_currentChar`, and `pos == |input|`
 * stands for the reader's end of file (-1, which the scanner sees as the
 * character U+FFFF once cast to char).
 */
module Lexer {
  import opened Wrappers
  import opened Decimal
  import Grammar
  import opened Dfa
  import opened Symbols

  /** The two ways a scan can fail. */
  datatype LexError =
    /** SyntaxErrorException: a character no state can take outside an accepting state. */
    | InvalidSyntax(message: string)
    /** IllegalArgumentException: end of file inside a comment or a string constant. */
    | IllegalCodePoint

  /** The character the scanner sees at pos; end of file reads as U+FFFF. */
  function Peek(input: string, pos: nat): char {
    if pos < |input| then input[pos] else EmptyBuf
  }

  /** The number of line feeds among the first p characters of input. */
  function LinesBefore(input: string, p: nat): nat
    requires p <= |input|
  {
    if p == 0 then 0 else LinesBefore(input, p - 1) + (if input[p - 1] == '\n' then 1 else 0)
  }

  /**
   * The column counter after the characters input[pos..p] have been taken,
   * starting from column: each character moves it on by one, and a line
   * feed sets it to 1.
   */
  function ColumnAfter(input: string, pos: nat, column: int, p: nat): int
    requires pos <= p <= |input|
    decreases p
  {
    if p == pos then column
    else if input[p - 1] == '\n' then 1
    else ColumnAfter(input, pos, column, p - 1) + 1
  }

  /** When no line feed is taken, the column counter counts the characters taken since the starting column. */
  lemma {:induction false} ColumnWithoutLineFeed(input: string, pos: nat, column: int, p: nat)
    requires pos <= p <= |input| && forall j :: pos <= j < p ==> input[j] != '\n'
    ensures ColumnAfter(input, pos, column, p) == column + (p - pos)
    decreases p
  {
    if p > pos {
      ColumnWithoutLineFeed(input, pos, column, p - 1);
    }
  }

  /** After the last line feed taken, at j, the column counts the characters from it, itself being column 1. */
  lemma {:induction false} ColumnSinceLineFeed(input: string, pos: nat, column: int, p: nat, j: nat)
    requires pos <= j < p <= |input| && input[j] == '\n'
    requires forall k :: j < k < p ==> input[k] != '\n'
    ensures ColumnAfter(input, pos, column, p) == p - j
    decreases p
  {
    if p - 1 > j {
      ColumnSinceLineFeed(input, pos, column, p - 1, j);
    }
  }

  /** A piece of text the scanner throws away: one blank or one complete comment. */
  ghost predicate Discarded(p: string) {
    Run(p) == Some(Whitespace) || Run(p) == Some(Comment)
  }

  /** A concatenation of discarded pieces. */
  ghost predicate Skippable(s: string)
    decreases |s|
  {
    s == [] || exists k :: 0 <= k < |s| && Skippable(s[..k]) && Discarded(s[k..])
  }

  /**
   * input[start..end] is a maximal lexeme: it drives the automaton to an
   * accepting state that has no transition on the character after it.
   */
  ghost predicate LongestLexeme(input: string, start: nat, end: nat)
    requires start <= end <= |input|
  {
    var q := Run(input[start..end]);
    q.Some? && q.value.IsAccepting()
    && Transition(q.value, Normalize(Peek(input, end))) == None
  }

  /** A table entry for a non-keyword text: the first lexeme created for that text, of the text's type. */
  ghost predicate EntryOk(k: string, s: LexSymbol) {
    s.Lexed? && s.lexeme.value == k
    && Run(k).Some? && HasOwnType(Run(k).value)
    && s.lexeme.tokenType == OwnType(Run(k).value)
  }

  /** The symbol table holds every keyword with its token and well-formed lexemes for everything else. */
  ghost predicate TableOk(table: map<string, LexSymbol>) {
    (forall k {:trigger k in Keywords} :: k in Keywords ==> k in table && table[k] == Terminal(Keywords[k]))
    && (forall k :: k in table && k !in Keywords ==> EntryOk(k, table[k]))
  }

  /** putIfAbsent never replaces: b extends a. */
  ghost predicate TableGrows(a: map<string, LexSymbol>, b: map<string, LexSymbol>) {
    forall k :: k in a ==> k in b && b[k] == a[k]
  }

  const InitialTable: map<string, LexSymbol> := map k | k in Keywords :: Terminal(Keywords[k])

  /** The error text of a SyntaxErrorException raised by the scanner. */
  function InvalidSyntaxMessage(line: int, column: int): string {
    "Line " + IntToString(line) + ", Char " + IntToString(column) + ": Invalid Syntax"
  }

  /**
   * s, found in the table for input[start..end], is what a scan returns for
   * a maximal lexeme that is neither a blank nor a comment, and its token
   * type is the text's classification.
   */
  ghost predicate LexemeOutcome(input: string, start: nat, end: nat, s: LexSymbol, table: map<string, LexSymbol>)
    requires start <= end <= |input|
  {
    var text := input[start..end];
    LongestLexeme(input, start, end)
    && Run(text).value != Whitespace && Run(text).value != Comment
    && Recognizes(Run(text).value, text)
    && text in table && s == table[text]
    && TokenTypeOf(s) == Classify(Run(text).value, text)
  }

  /**
   * s is the table's entry for an accepted text, and its token type is the
   * text's classification.
   */
  ghost predicate TableEntry(text: string, s: LexSymbol, table: map<string, LexSymbol>) {
    Run(text).Some? && Run(text).value.IsAccepting() && Recognizes(Run(text).value, text)
    && text in table && s == table[text]
    && TokenTypeOf(s) == Classify(Run(text).value, text)
  }

  /** The scan stopped at end of file in START, or in COLON right after a ':'. */
  ghost predicate EndOutcome(input: string, start: nat, end: nat)
    requires start <= end <= |input|
  {
    Peek(input, end) == EmptyBuf
    && Run(input[start..end]).Some? && Run(input[start..end]).value in {Start, Colon}
  }

  /** The scan stopped in START or COLON on a real character neither state takes. */
  ghost predicate StuckOutcome(input: string, start: nat, end: nat)
    requires start <= end <= |input|
  {
    end < |input| && input[end] != EmptyBuf
    && Run(input[start..end]).Some? && Run(input[start..end]).value in {Start, Colon}
    && Transition(Run(input[start..end]).value, Normalize(input[end])) == None
  }

  /** The file ended inside a comment or a string constant. */
  ghost predicate UnterminatedOutcome(input: string, start: nat, end: nat)
    requires start <= end <= |input|
  {
    end == |input|
    && Run(input[start..end]).Some? && Run(input[start..end]).value in {InComment, InString}
  }

  /** Where a scan ends: the located text input[start..end] and why the scan stopped there. */
  datatype ScanOutcome =
    | Found(start: nat, end: nat)
    | EndReached(start: nat, end: nat)
    | Stuck(start: nat, end: nat)
    | Unterminated(start: nat, end: nat)

  /** The scanner takes the character at pos in state q. */
  predicate Takes(input: string, pos: nat, q: State) {
    q == InComment || q == InString || Transition(q, Normalize(Peek(input, pos))).Some?
  }

  /**
   * The scanning loop's control flow on characters alone: q is the state
   * reached on input[start..pos]. Blanks and comments restart the scan
   * after themselves; any other accepted text ends it.
   */
  function ScanFrom(input: string, start: nat, pos: nat, q: State): (o: ScanOutcome)
    requires start <= pos <= |input|
    ensures start <= o.start <= o.end <= |input|
    decreases |input| - pos, if q == Start then 0 else 1
  {
    var c := Peek(input, pos);
    if (q == InComment || q == InString) && pos == |input| then Unterminated(start, pos)
    else if Takes(input, pos, q) then
      TakesInside(input, pos, q);
      ScanFrom(input, start, pos + 1, Delta(q, c).value)
    else if q.IsAccepting() then
      if q == Whitespace || q == Comment then ScanFrom(input, pos, pos, Start)
      else Found(start, pos)
    else if c == EmptyBuf then EndReached(start, pos)
    else Stuck(start, pos)
  }

  /** A scan from pos in START. */
  function Scan(input: string, pos: nat): ScanOutcome
    requires pos <= |input|
  {
    ScanFrom(input, pos, pos, Start)
  }

  /** What every outcome of a scan means, given that q is the state reached on input[start..pos]. */
  ghost predicate OutcomeMeaning(input: string, from: nat, o: ScanOutcome)
    requires from <= o.start <= o.end <= |input|
  {
    Skippable(input[from..o.start]) && Run(input[o.start..o.end]).Some?
    && match o
       case Found(s, e) =>
         LongestLexeme(input, s, e)
         && Run(input[s..e]).value != Whitespace && Run(input[s..e]).value != Comment
       case EndReached(s, e) => EndOutcome(input, s, e)
       case Stuck(s, e) => StuckOutcome(input, s, e)
       case Unterminated(s, e) => UnterminatedOutcome(input, s, e)
  }

  /** The outcome of the scan from pos in state q means what OutcomeMeaning says. */
  ghost predicate MeaningFrom(input: string, from: nat, start: nat, pos: nat, q: State)
    requires from <= start <= pos <= |input|
  {
    OutcomeMeaning(input, from, ScanFrom(input, start, pos, q))
  }

  /** No state moves on the end-of-file character, so the scanner only takes real characters. */
  lemma TakesInside(input: string, pos: nat, q: State)
    requires pos <= |input| && Takes(input, pos, q) && !((q == InComment || q == InString) && pos == |input|)
    ensures pos < |input|
  {
  }

  /** ScanFrom unfolded once on each branch of the scanning loop. */
  lemma UnfoldTake(input: string, start: nat, pos: nat, q: State)
    requires start <= pos <= |input|
    requires !((q == InComment || q == InString) && pos == |input|) && Takes(input, pos, q)
    ensures pos < |input| && Delta(q, input[pos]).Some?
    ensures ScanFrom(input, start, pos, q) == ScanFrom(input, start, pos + 1, Delta(q, input[pos]).value)
  {
    TakesInside(input, pos, q);
  }

  lemma UnfoldAccept(input: string, start: nat, pos: nat, q: State)
    requires start <= pos <= |input| && !Takes(input, pos, q) && q.IsAccepting()
    ensures ScanFrom(input, start, pos, q) ==
      if q == Whitespace || q == Comment then ScanFrom(input, pos, pos, Start) else Found(start, pos)
  {
  }

  lemma UnfoldStop(input: string, start: nat, pos: nat, q: State)
    requires start <= pos <= |input| && !Takes(input, pos, q) && !q.IsAccepting()
    ensures ScanFrom(input, start, pos, q) ==
      if Peek(input, pos) == EmptyBuf then EndReached(start, pos) else Stuck(start, pos)
  {
  }

  lemma {:induction false} ScanFromMeaning(input: string, from: nat, start: nat, pos: nat, q: State)
    requires from <= start <= pos <= |input|
    requires Skippable(input[from..start]) && Run(input[start..pos]) == Some(q)
    ensures OutcomeMeaning(input, from, ScanFrom(input, start, pos, q))
    decreases |input| - pos, if q == Start then 0 else 1, 1
  {
    if (q == InComment || q == InString) && pos == |input| {
    } else if Takes(input, pos, q) {
      TakeMeaning(input, from, start, pos, q);
    } else if q.IsAccepting() && (q == Whitespace || q == Comment) {
      SkipMeaning(input, from, start, pos, q);
    }
  }

  /**
   * Past a taken character the scan keeps its meaning. The conclusion is
   * written as an equation so that it is proved as one fact.
   */
  lemma {:induction false} TakeMeaning(input: string, from: nat, start: nat, pos: nat, q: State)
    requires from <= start <= pos < |input|
    requires Skippable(input[from..start]) && Run(input[start..pos]) == Some(q)
    requires Takes(input, pos, q)
    ensures MeaningFrom(input, from, start, pos, q) == true
    decreases |input| - pos, if q == Start then 0 else 1, 0
  {
    var q' := TakeStep(input, start, pos, q);
    ScanFromMeaning(input, from, start, pos + 1, q');
  }

  /** Taking the character at pos moves to the state q' reached on one more character, and the scan goes on from there. */
  lemma TakeStep(input: string, start: nat, pos: nat, q: State) returns (q': State)
    requires start <= pos < |input| && Run(input[start..pos]) == Some(q) && Takes(input, pos, q)
    ensures Run(input[start..pos + 1]) == Some(q')
    ensures ScanFrom(input, start, pos, q) == ScanFrom(input, start, pos + 1, q')
  {
    UnfoldTake(input, start, pos, q);
    q' := Delta(q, input[pos]).value;
    ConsumeStep(input, start, pos, q);
  }

  /**
   * Past a blank or comment that ends at pos the scan keeps its meaning:
   * it restarts from START there, after a longer skippable prefix.
   */
  lemma {:induction false} SkipMeaning(input: string, from: nat, start: nat, pos: nat, q: State)
    requires from <= start <= pos <= |input|
    requires Skippable(input[from..start]) && Run(input[start..pos]) == Some(q)
    requires (q == Whitespace || q == Comment) && !Takes(input, pos, q)
    ensures MeaningFrom(input, from, start, pos, q) == true
    decreases |input| - pos, if q == Start then 0 else 1, 0
  {
    SkipPiece(input, from, start, pos);
    UnfoldAccept(input, start, pos, q);
    assert input[pos..pos] == [];
    ScanFromMeaning(input, from, pos, pos, Start);
  }

  /**
   * A scan skips a run of blanks and comments and then stops at a maximal
   * lexeme, at end of file, on a character no state takes, or at end of
   * file inside a comment or string.
   */
  lemma ScanMeaning(input: string, pos: nat)
    requires pos <= |input|
    ensures OutcomeMeaning(input, pos, Scan(input, pos))
  {
    assert input[pos..pos] == [];
    ScanFromMeaning(input, pos, pos, pos, Start);
  }

  /**
   * What nextSymbol returns and leaves behind for the scan o, given the
   * more-lexemes flag and table it started with: a lexeme found leaves the
   * scanner in START right after it, with the table's entry for its text;
   * end of file gives END_OF_INPUT, clears the flag and reads past the
   * character; a stuck scan throws an Invalid Syntax error naming the line
   * and column; an unterminated comment or string throws on the code point -1.
   */
  ghost predicate Returned(input: string, o: ScanOutcome, r: Result<LexSymbol, LexError>, p: nat, q: State,
                           line: int, column: int, more0: bool, more: bool,
                           table0: map<string, LexSymbol>, table: map<string, LexSymbol>)
    requires o.start <= o.end <= |input|
  {
    var text := input[o.start..o.end];
    match o
    case Found(_, e) =>
      r.Success? && r.value != Terminal(Grammar.TerminalToken.EndOfInput)
      && TableEntry(text, r.value, table) && (text in table0 ==> r.value == table0[text])
      && p == e && q == Start && more == more0
    case EndReached(_, e) =>
      r == Success(Terminal(Grammar.TerminalToken.EndOfInput))
      && Run(text) == Some(q) && p == (if e < |input| then e + 1 else e) && !more
    case Stuck(_, e) =>
      r == Failure(InvalidSyntax(InvalidSyntaxMessage(line, column)))
      && Run(text) == Some(q) && p == e && more == more0
    case Unterminated(_, e) =>
      r == Failure(IllegalCodePoint) && Run(text) == Some(q) && p == e && more == more0
  }

  /**
   * The column counter after a scan from pos that started at column and
   * ended as o: the characters up to the end of the scanned text are
   * counted, and a lexeme followed by a line feed leaves column 1.
   */
  function NewColumn(input: string, pos: nat, column: int, o: ScanOutcome): int
    requires pos <= o.end <= |input|
  {
    if o.Found? && Peek(input, o.end) == '\n' then 1 else ColumnAfter(input, pos, column, o.end)
  }

  class LexicalAnalyzer {
    const input: string
    var pos: nat
    var currentState: State
    var lineNumber: int
    var charNumber: int
    var hasNextLexeme: bool
    var symbolTable: map<string, LexSymbol>

    /** lineNumber counts the line feeds consumed so far; the table is well formed. */
    ghost predicate Valid()
      reads this
    {
      pos <= |input| && lineNumber == LinesBefore(input, pos) && TableOk(symbolTable)
    }

    /** Opens the input on its first character, in START, with the keyword table. */
    constructor (input: string)
      ensures Valid() && this.input == input && pos == 0 && currentState == Start
      ensures lineNumber == 0 && charNumber == 0 && hasNextLexeme
      ensures symbolTable == InitialTable
    {
      this.input := input;
      pos := 0;
      currentState := Start;
      lineNumber := 0;
      charNumber := 0;
      hasNextLexeme := true;
      symbolTable := InitialTable;
      new;
    }

    /**
     * Scans the next symbol: blanks and comments are skipped, a lexeme
     * is the longest text the automaton accepts, and its symbol is the
     * table's entry for the text (a new lexeme of the state's type when
     * there is none). End of file outside a lexeme gives END_OF_INPUT.
     * The ghost results locate the scanned text as input[start..end].
     */
    method NextSymbol() returns (r: Result<LexSymbol, LexError>, ghost start: nat, ghost end: nat)
      requires Valid() && currentState == Start
      modifies this
      ensures Valid() && TableGrows(old(symbolTable), symbolTable)
      ensures Scan(input, old(pos)).start == start && Scan(input, old(pos)).end == end
      ensures Returned(input, Scan(input, old(pos)), r, pos, currentState, lineNumber, charNumber,
                       old(hasNextLexeme), hasNextLexeme, old(symbolTable), symbolTable)
      ensures Scan(input, old(pos)).Found? && input[start..end] !in old(symbolTable) ==>
        r.value.Lexed? && fresh(r.value.lexeme)
      ensures old(pos) <= start && charNumber == NewColumn(input, old(pos), old(charNumber), Scan(input, old(pos)))
    {
      var p, q, line, column, more, table;
      r, p, q, line, column, more, table, start, end :=
        ScanSymbol(input, pos, lineNumber, charNumber, hasNextLexeme, symbolTable);
      pos, currentState, lineNumber, charNumber, hasNextLexeme, symbolTable := p, q, line, column, more, table;
    }

    /** More lexemes are to come until END_OF_INPUT has been returned. */
    function HasNextSymbol(): bool
      reads this
    {
      hasNextLexeme
    }
  }

  /**
   * The scanner continues from q at pos: it takes the character, or q has
   * accepted a blank or a comment, which is thrown away.
   */
  predicate Continues(input: string, pos: nat, q: State) {
    !((q == InComment || q == InString) && pos == |input|)
    && (Takes(input, pos, q) || q == Whitespace || q == Comment)
  }

  /**
   * The iterations of nextSymbol's loop that do not end it: characters are
   * taken, and blanks and comments are entered into the table and thrown
   * away, until the step that ends the scan is due. The scan resumes in q
   * on input[start..p], which the lexeme buffer holds.
   */
  method Advance(input: string, pos: nat, line: int, column: int, table: map<string, LexSymbol>)
    returns (start: nat, p: nat, q: State, buffer: string, line': int, column': int, table': map<string, LexSymbol>)
    requires pos <= |input| && line == LinesBefore(input, pos) && TableOk(table)
    ensures start <= p <= |input| && buffer == input[start..p] && Run(buffer) == Some(q)
    ensures ScanFrom(input, start, p, q) == Scan(input, pos) && !Continues(input, p, q)
    ensures line' == LinesBefore(input, p) && TableOk(table') && TableGrows(table, table')
    ensures pos <= start && column' == ColumnAfter(input, pos, column, p)
    ensures forall k :: k in table' && k !in table ==> table'[k].Lexed? && fresh(table'[k].lexeme)
  {
    start, p, q, buffer, line', column', table' := pos, pos, Start, [], line, column, table;
    assert input[p..p] == [];
    while Continues(input, p, q)
      invariant Scanning(input, pos, column, start, p, q, buffer, line', column')
      invariant TableOk(table') && TableGrows(table, table')
      invariant forall k :: k in table' && k !in table ==> table'[k].Lexed? && fresh(table'[k].lexeme)
      decreases |input| - p, q != Start
    {
      table' := EnterPiece(input, start, p, q, buffer, table');
      start, p, q, buffer, line', column' := Iteration(input, pos, column, start, p, q, buffer, line', column');
    }
    ColumnSettled(input, pos, column, start, p, q, column');
  }

  /**
   * The invariant of nextSymbol's loop for a scan from pos that started
   * with column and table: the scan resumes in q on input[start..p], which
   * the buffer holds, the line counter counts the line feeds before p, the
   * column is as ColumnOk says. The table's part of the invariant,
   * TableOk and TableGrows, is kept apart.
   */
  ghost predicate Scanning(input: string, pos: nat, column: int, start: nat, p: nat,
                           q: State, buffer: string, line: int, col: int)
  {
    pos <= start <= p <= |input| && line == LinesBefore(input, p) && ColumnOk(input, pos, column, start, p, q, col)
    && buffer == input[start..p] && Run(buffer) == Some(q) && ScanFrom(input, start, p, q) == Scan(input, pos)
  }

  /**
   * The table's part of an iteration of nextSymbol's loop that goes on:
   * a blank or comment that ends here is entered with putIfAbsent before
   * it is thrown away; a character taken leaves the table as it is.
   */
  method EnterPiece(input: string, ghost start: nat, p: nat, q: State, buffer: string, table: map<string, LexSymbol>)
    returns (table': map<string, LexSymbol>)
    requires start <= p <= |input| && buffer == input[start..p] && Run(buffer) == Some(q)
    requires Continues(input, p, q) && TableOk(table)
    ensures TableOk(table') && TableGrows(table, table')
    ensures Takes(input, p, q) ==> table' == table
    ensures !Takes(input, p, q) ==> buffer in table' && (buffer in table ==> table' == table)
    ensures forall k :: k in table' && k !in table ==> table'[k].Lexed? && fresh(table'[k].lexeme)
  {
    table' := table;
    if !Takes(input, p, q) {
      var discarded;
      table', discarded := LookUp(table, buffer, q);
    }
  }

  /**
   * The scanner's part of an iteration of nextSymbol's loop that goes on:
   * the character is taken, or a blank or comment ends and the scan
   * restarts from START. Either the cursor moves on or the state returns
   * to START. The invariant is stated as an equation so that it is proved
   * as one fact.
   */
  method Iteration(input: string, ghost pos: nat, ghost column: int,
                   start: nat, p: nat, q: State, buffer: string, line: int, col: int)
    returns (start': nat, p': nat, q': State, buffer': string, line': int, col': int)
    requires Scanning(input, pos, column, start, p, q, buffer, line, col) && Continues(input, p, q)
    ensures Scanning(input, pos, column, start', p', q', buffer', line', col') == true
    ensures p < p' || (p' == p && q != Start && q' == Start)
  {
    if Takes(input, p, q) {
      q', buffer', line', col' := Take(input, pos, column, start, p, q, buffer, line, col);
      start', p' := start, p + 1;
    } else {
      line', col' := Skip(input, pos, column, start, p, q, buffer, line, col);
      start', p', q', buffer' := p, p, Start, [];
    }
  }

  /** An iteration of nextSymbol's loop that takes the character at p; the cursor moves on. */
  method Take(input: string, ghost pos: nat, ghost column: int,
              ghost start: nat, p: nat, q: State, buffer: string, line: int, col: int)
    returns (q': State, buffer': string, line': int, col': int)
    requires Scanning(input, pos, column, start, p, q, buffer, line, col) && Continues(input, p, q)
    requires Takes(input, p, q)
    ensures p < |input| && Scanning(input, pos, column, start, p + 1, q', buffer', line', col')
  {
    q', buffer', line', col' := TakeChar(input, start, p, q, buffer, line, col);
    ColumnTake(input, pos, column, start, p, q, col, col');
  }

  /** An iteration of nextSymbol's loop that ends a blank or comment; the scan restarts from START at p. */
  method Skip(input: string, ghost pos: nat, ghost column: int,
              ghost start: nat, p: nat, q: State, buffer: string, line: int, col: int)
    returns (line': int, col': int)
    requires Scanning(input, pos, column, start, p, q, buffer, line, col) && Continues(input, p, q)
    requires !Takes(input, p, q)
    ensures q != Start && Scanning(input, pos, column, p, p, Start, [], line', col')
  {
    line', col' := EndPiece(input, start, p, q, buffer, line, col);
    ColumnSkip(input, pos, column, start, p, q, col, col');
    assert input[p..p] == [];
  }

  /**
   * The column counter in nextSymbol's loop: the count of the characters
   * taken, or 1 when a line feed pushed back after a blank or comment has
   * set it before that line feed is taken again.
   */
  ghost predicate ColumnOk(input: string, pos: nat, column: int, start: nat, p: nat, q: State, col: int)
    requires pos <= p <= |input|
  {
    col == ColumnAfter(input, pos, column, p) || (q == Start && start == p && Peek(input, p) == '\n' && col == 1)
  }

  lemma ColumnTake(input: string, pos: nat, column: int, start: nat, p: nat, q: State, col: int, col': int)
    requires pos <= p < |input| && ColumnOk(input, pos, column, start, p, q, col)
    requires col' == if input[p] == '\n' then 1 else col + 1
    ensures col' == ColumnAfter(input, pos, column, p + 1)
  {
  }

  lemma ColumnSkip(input: string, pos: nat, column: int, start: nat, p: nat, q: State, col: int, col': int)
    requires pos <= p <= |input| && ColumnOk(input, pos, column, start, p, q, col) && q != Start
    requires col' == if Peek(input, p) == '\n' then 1 else col
    ensures ColumnOk(input, pos, column, p, p, Start, col')
  {
  }

  /** A pushed-back line feed is always taken again, so the loop never stops before it. */
  lemma ColumnSettled(input: string, pos: nat, column: int, start: nat, p: nat, q: State, col: int)
    requires pos <= p <= |input| && ColumnOk(input, pos, column, start, p, q, col) && !Continues(input, p, q)
    ensures col == ColumnAfter(input, pos, column, p)
  {
  }

  /**
   * One iteration of nextSymbol's loop that takes the character at p into
   * the buffer: inside a comment or string every character is taken,
   * elsewhere the automaton moves; a line feed starts the next line.
   */
  method TakeChar(input: string, ghost start: nat, p: nat, q: State, buffer: string, line: int, column: int)
    returns (q': State, buffer': string, line': int, column': int)
    requires start <= p <= |input| && buffer == input[start..p] && Run(buffer) == Some(q)
    requires Continues(input, p, q) && Takes(input, p, q) && line == LinesBefore(input, p)
    ensures p < |input| && buffer' == input[start..p + 1] && Run(buffer') == Some(q')
    ensures ScanFrom(input, start, p, q) == ScanFrom(input, start, p + 1, q')
    ensures line' == LinesBefore(input, p + 1)
    ensures column' == if input[p] == '\n' then 1 else column + 1
  {
    var c := Peek(input, p);
    var normalized := Normalize(c);
    assert (normalized == '\n') == (c == '\n');
    UnfoldTake(input, start, p, q);
    ConsumeStep(input, start, p, q);
    q' := Delta(q, c).value;
    buffer' := buffer + [c];
    line', column' := line, column + 1;
    if normalized == '\n' {
      line' := line' + 1;
      column' := 1;
    }
  }

  /**
   * The counters' part of an iteration of nextSymbol's loop that ends a
   * blank or a comment (its entry in the table is EnterPiece): the
   * character after it is pushed back to be read again, and the scan
   * restarts from START there.
   */
  method EndPiece(input: string, ghost start: nat, p: nat, q: State, buffer: string, line: int, column: int)
    returns (line': int, column': int)
    requires start <= p <= |input| && buffer == input[start..p] && Run(buffer) == Some(q)
    requires Continues(input, p, q) && !Takes(input, p, q) && line == LinesBefore(input, p)
    ensures ScanFrom(input, start, p, q) == ScanFrom(input, p, p, Start)
    ensures line' == line
    ensures column' == if Peek(input, p) == '\n' then 1 else column
  {
    var c := Peek(input, p);
    var normalized := Normalize(c);
    assert (normalized == '\n') == (c == '\n');
    UnfoldAccept(input, start, p, q);
    line', column' := line, column;
    if c == '\n' {
      line' := line' - 1;
    }
    if normalized == '\n' {
      line' := line' + 1;
      column' := 1;
    }
  }

  /**
   * nextSymbol's loop on the scanner's fields passed in (position, line,
   * column, more-lexemes flag and table), returned updated together with
   * the state the scan stops in. Advance runs the iterations that go on;
   * the last one, which returns or throws, follows it here.
   */
  method ScanSymbol(input: string, pos: nat, line: int, column: int, more: bool, table: map<string, LexSymbol>)
    returns (r: Result<LexSymbol, LexError>, p: nat, q: State, line': int, column': int, more': bool,
             table': map<string, LexSymbol>, ghost start: nat, ghost end: nat)
    requires pos <= |input| && line == LinesBefore(input, pos) && TableOk(table)
    ensures p <= |input| && line' == LinesBefore(input, p) && TableOk(table') && TableGrows(table, table')
    ensures Scan(input, pos).start == start && Scan(input, pos).end == end
    ensures Returned(input, Scan(input, pos), r, p, q, line', column', more, more', table, table')
    ensures pos <= start <= end && column' == NewColumn(input, pos, column, Scan(input, pos))
    ensures Scan(input, pos).Found? && input[start..end] !in table ==> r.value.Lexed? && fresh(r.value.lexeme)
  {
    var buffer, p0, q0, line0, column0, table0;
    start, p0, q0, buffer, line0, column0, table0 := Advance(input, pos, line, column, table);
    end := p0;
    r, p, q, line', column', more', table' := FinalStep(input, start, p0, q0, buffer, line0, column0, more, table0);
  }

  /**
   * The iteration that ends nextSymbol's loop, in state q on the lexeme
   * buffer input[start..p]: it throws on an unterminated comment or string,
   * returns the lexeme of an accepting state, returns END_OF_INPUT at end
   * of file, and throws Invalid Syntax otherwise.
   */
  method FinalStep(input: string, ghost start: nat, p: nat, q: State, buffer: string, line: int, column: int, more: bool,
                   table: map<string, LexSymbol>)
    returns (r: Result<LexSymbol, LexError>, p': nat, q': State, line': int, column': int, more': bool,
             table': map<string, LexSymbol>)
    requires start <= p <= |input| && buffer == input[start..p] && Run(buffer) == Some(q) && !Continues(input, p, q)
    requires line == LinesBefore(input, p) && TableOk(table)
    ensures p' <= |input| && line' == LinesBefore(input, p') && TableOk(table') && TableGrows(table, table')
    ensures ScanFrom(input, start, p, q).start == start && ScanFrom(input, start, p, q).end == p
    ensures Returned(input, ScanFrom(input, start, p, q), r, p', q', line', column', more, more', table, table')
    ensures column' == if ScanFrom(input, start, p, q).Found? && Peek(input, p) == '\n' then 1 else column
    ensures ScanFrom(input, start, p, q).Found? && buffer !in table ==> r.value.Lexed? && fresh(r.value.lexeme)
  {
    p', q', line', column', more', table' := p, q, line, column, more, table;
    var c := Peek(input, p);
    if (q == InComment || q == InString) && p == |input| {
      // appending the end-of-file code point -1 throws
      r := Failure(IllegalCodePoint);
    } else if q.IsAccepting() {
      // the character after the lexeme is pushed back; a line feed is counted when it is read again
      UnfoldAccept(input, start, p, q);
      var symbol;
      table', symbol := LookUp(table, buffer, q);
      TableClassifies(table', buffer);
      r, q' := Success(symbol), Start;
      if c == '\n' {
        column' := 1;
      }
    } else if c == EmptyBuf {
      UnfoldStop(input, start, p, q);
      r, more' := Success(Terminal(Grammar.TerminalToken.EndOfInput)), false;
      if p < |input| {
        p' := p + 1;
      }
    } else {
      UnfoldStop(input, start, p, q);
      r := Failure(InvalidSyntax(InvalidSyntaxMessage(line, column)));
    }
  }

  /**
   * The accepting branch's table access: the entry for the text, or a
   * new lexeme of the state's type that putIfAbsent stores.
   */
  method LookUp(table: map<string, LexSymbol>, text: string, q: State) returns (table': map<string, LexSymbol>, symbol: LexSymbol)
    requires TableOk(table) && q.IsAccepting() && Run(text) == Some(q)
    ensures TableOk(table') && TableGrows(table, table')
    ensures text in table' && symbol == table'[text]
    ensures text in table ==> table' == table
    ensures text !in table ==> symbol.Lexed? && fresh(symbol.lexeme) && table' == table[text := symbol]
  {
    RunRecognizes(text);
    AcceptedTextClassified(q, text);
    if text in table {
      table', symbol := table, table[text];
    } else {
      var lexeme := new Lexeme(text, OwnType(q));
      symbol := Lexed(lexeme);
      table' := table[text := symbol];
    }
  }

  /** Every table entry for an accepted text carries the text's classification. */
  lemma TableClassifies(table: map<string, LexSymbol>, text: string)
    requires TableOk(table) && text in table
    requires Run(text).Some? && Run(text).value.IsAccepting()
    ensures Recognizes(Run(text).value, text)
    ensures TokenTypeOf(table[text]) == Classify(Run(text).value, text)
  {
    RunRecognizes(text);
  }

  /** Taking the character at pos extends the scanned slice by one automaton step. */
  lemma ConsumeStep(input: string, start: nat, pos: nat, q: State)
    requires start <= pos < |input| && Run(input[start..pos]) == Some(q)
    ensures Run(input[start..pos + 1]) == Delta(q, input[pos])
    ensures input[start..pos + 1] == input[start..pos] + [input[pos]]
  {
    assert input[start..pos + 1][..pos - start] == input[start..pos];
  }

  /** A skippable prefix followed by a discarded piece is skippable. */
  lemma SkipPiece(input: string, from: nat, start: nat, pos: nat)
    requires from <= start < pos <= |input|
    requires Skippable(input[from..start]) && Discarded(input[start..pos])
    ensures Skippable(input[from..pos])
  {
    var s := input[from..pos];
    var k := start - from;
    assert s[..k] == input[from..start];
    assert s[k..] == input[start..pos];
  }
}
