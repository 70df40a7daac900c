/**
 * The lexical analyser of the newer snapshot (src/test/output). It runs the
 * same automaton with the same branches as the main one, so a call scans
 * exactly what Lexer.Scan describes; what differs is what it returns and
 * keeps. Keywords and operators come from a fixed keyword table and give a
 * lexeme of the keyword's type, every other accepted text gives a new
 * lexeme stamped with a position, and only identifiers enter the symbol
 * table. The file is read through a line-counting reader: readerLine is
 * that reader's line number, and the scanner's own line and column
 * counters follow it in ReadNextCharacter.
 *
 * As in the main lexer, the file is the sequence input and pos the index of
 * the character last read (pos == |input| once the reader returns -1). The
 * reader is taken to deliver line feeds only: its folding of "\r\n" and
 * '\r' into '\n' is not modelled.
 */
module OutputLexer {
  import opened Wrappers
  import opened Decimal
  import Grammar
  import opened Dfa
  import Lexer
  import OutputSymbol

  /** How many characters the reader has delivered when the current one is input[pos]. */
  function Delivered(input: string, pos: nat): nat
    requires pos <= |input|
  {
    if pos < |input| then pos + 1 else |input|
  }

  /** The reader's line number once the character at p has been delivered. */
  function ReaderLine(input: string, p: nat): int
    requires p <= |input|
  {
    1 + Lexer.LinesBefore(input, Delivered(input, p))
  }

  /** The scanner's line and column counters. */
  datatype Counters = Counters(line: int, column: int)

  /**
   * The counters after a read that leaves the reader on readerLine: when
   * the reader has moved to another line, the line counter takes it and
   * the column restarts at 1; otherwise the column moves on by one.
   */
  function Step(c: Counters, readerLine: int): (c': Counters)
    ensures c'.line == readerLine
  {
    if readerLine != c.line then Counters(readerLine, 1) else Counters(c.line, c.column + 1)
  }

  /**
   * The counters once the reader has moved the cursor from p0 to p, one
   * read per character, starting from line0 and col0.
   */
  function CountersTo(input: string, p0: nat, line0: int, col0: int, p: nat): Counters
    requires p0 <= p <= |input|
    decreases p - p0
  {
    if p == p0 then Counters(line0, col0) else Step(CountersTo(input, p0, line0, col0, p - 1), ReaderLine(input, p))
  }

  /** The reader moves to the next line exactly when the character it delivers is a line feed. */
  lemma ReaderLineStep(input: string, p: nat)
    requires p < |input|
    ensures ReaderLine(input, p + 1) == ReaderLine(input, p) + (if p + 1 < |input| && input[p + 1] == '\n' then 1 else 0)
  {
  }

  /**
   * When the scanner's line starts out as the reader's and no line feed is
   * delivered, the line stays and the column counts the reads.
   */
  lemma {:induction false} ColumnWithoutLineFeed(input: string, p0: nat, line0: int, col0: int, p: nat)
    requires p0 <= p <= |input| && line0 == ReaderLine(input, p0)
    requires forall m :: p0 < m <= p && m < |input| ==> input[m] != '\n'
    ensures CountersTo(input, p0, line0, col0, p) == Counters(line0, col0 + (p - p0))
    ensures ReaderLine(input, p) == line0
    decreases p - p0
  {
    if p > p0 {
      ColumnWithoutLineFeed(input, p0, line0, col0, p - 1);
      ReaderLineStep(input, p - 1);
    }
  }

  /**
   * When the scanner's line starts out as the reader's, the line feed at m
   * is column 1 of the reader's next line, and the column then counts the
   * reads after it up to the next line feed.
   */
  lemma {:induction false} ColumnAfterLineFeed(input: string, p0: nat, line0: int, col0: int, p: nat, m: nat)
    requires p0 <= |input| && line0 == ReaderLine(input, p0)
    requires p0 < m <= p <= |input| && m < |input| && input[m] == '\n'
    requires forall m' :: m < m' <= p && m' < |input| ==> input[m'] != '\n'
    ensures CountersTo(input, p0, line0, col0, p) == Counters(ReaderLine(input, m), p - m + 1)
    ensures ReaderLine(input, p) == ReaderLine(input, m)
    decreases p
  {
    ReaderLineStep(input, p - 1);
    if p > m {
      ColumnAfterLineFeed(input, p0, line0, col0, p - 1, m);
    }
  }

  /**
   * The counters after a scan from pos with outcome o that leaves the
   * cursor at p: one read per character up to the end of the scanned
   * text, and after END_OF_INPUT one more read, which leaves it at p.
   */
  function CountersFor(input: string, pos: nat, c: Counters, o: Lexer.ScanOutcome, p: nat): Counters
    requires pos <= o.end <= |input| && p <= |input|
  {
    var scanned := CountersTo(input, pos, c.line, c.column, o.end);
    if o.EndReached? then Step(scanned, ReaderLine(input, p)) else scanned
  }

  /** The error text of a SyntaxErrorException raised by this scanner. */
  function InvalidSyntaxMessage(line: int, column: int): string {
    "Line " + IntToString(line) + " Char " + IntToString(column) + " - Invalid Syntax"
  }

  /** The symbol table holds identifiers only: texts the automaton ends in SYMBOL on that are not keywords. */
  ghost predicate TableOk(table: map<string, OutputSymbol.Symbol>) {
    forall k :: k in table ==> Run(k) == Some(Symbol) && k !in Keywords
  }

  /**
   * The lexeme built for an accepted text: a keyword or operator gets its
   * token type and no position; any other text gets its state's type and
   * the position (line, column - |text|), column being the scanner's column
   * counter when the text ends.
   */
  ghost predicate IsLexemeFor(l: OutputSymbol.Lexeme, text: string, line: int, column: int) {
    Run(text).Some? && Run(text).value.IsAccepting() && Recognizes(Run(text).value, text)
    && l.value == text
    && l.tokenType == Classify(Run(text).value, text)
    && l.position == (if text in Keywords then None else Some(OutputSymbol.Position(line, column - |text|)))
  }

  /** text, accepted in q, is an identifier the table does not hold yet. */
  predicate NewIdentifier(text: string, table: map<string, OutputSymbol.Symbol>, q: State) {
    q == Symbol && text !in Keywords && text !in table
  }

  /** The lexeme standing for end of input. */
  const EndOfInputLexeme: OutputSymbol.Lexeme :=
    OutputSymbol.Lexeme(Grammar.TerminalToken.EndOfInput.Name(), Grammar.TerminalToken.EndOfInput, None)

  /**
   * What nextSymbol returns for the scan o, and where it leaves the scanner:
   * a lexeme found is returned fresh with the scanner in START on the
   * character after it, whose line and column date the lexeme; end of file
   * gives END_OF_INPUT, clears the flag and reads once more; a stuck scan
   * throws an Invalid Syntax error naming the reader's line and the column;
   * an unterminated comment or string throws on the code point -1.
   */
  ghost predicate Returned(input: string, o: Lexer.ScanOutcome, r: Result<OutputSymbol.Lexeme, Lexer.LexError>,
                           p: nat, q: State, line: int, column: int, more0: bool, more: bool)
    requires o.start <= o.end <= |input|
  {
    var text := input[o.start..o.end];
    match o
    case Found(_, e) =>
      r.Success? && IsLexemeFor(r.value, text, line, column) && p == e && q == Start && more == more0
    case EndReached(_, e) =>
      r == Success(EndOfInputLexeme)
      && Run(text) == Some(q) && p == (if e < |input| then e + 1 else e) && !more
    case Stuck(_, e) =>
      r == Failure(Lexer.InvalidSyntax(InvalidSyntaxMessage(line, column)))
      && Run(text) == Some(q) && p == e && more == more0
    case Unterminated(_, e) =>
      r == Failure(Lexer.IllegalCodePoint) && Run(text) == Some(q) && p == e && more == more0
  }

  /**
   * readNextCharacter on the cursor p, the reader's line number and the
   * scanner's counters c: the reader moves on (at end of file it keeps
   * returning -1, and the cursor stays), and the counters take the read.
   */
  method ReadNext(input: string, p: nat, readerLine: int, c: Counters) returns (p': nat, readerLine': int, c': Counters)
    requires p <= |input| && readerLine == ReaderLine(input, p)
    ensures p' == (if p < |input| then p + 1 else p) && readerLine' == ReaderLine(input, p')
    ensures c' == Step(c, readerLine')
  {
    p', readerLine' := p, readerLine;
    if p' < |input| {
      p' := p' + 1;
      if p' < |input| && input[p'] == '\n' {
        readerLine' := readerLine' + 1;
      }
    }
    var line, column := c.line, c.column;
    if readerLine' != line {
      line := readerLine';
      column := 0;
    }
    c' := Counters(line, column + 1);
  }

  /**
   * The iterations of nextSymbol's loop that do not end it, on the
   * scanner's cursor, reader line and counters: characters are taken (each
   * one read through ReadNext), and blanks and comments are thrown away,
   * until the step that ends the scan is due. The scan resumes in q on
   * input[start..p], which the lexeme buffer holds.
   */
  method Advance(input: string, pos: nat, readerLine: int, c: Counters)
    returns (start: nat, p: nat, q: State, buffer: string, readerLine': int, c': Counters)
    requires pos <= |input| && readerLine == ReaderLine(input, pos)
    ensures pos <= start <= p <= |input| && buffer == input[start..p] && Run(buffer) == Some(q)
    ensures Lexer.ScanFrom(input, start, p, q) == Lexer.Scan(input, pos) && !Lexer.Continues(input, p, q)
    ensures readerLine' == ReaderLine(input, p) && c' == CountersTo(input, pos, c.line, c.column, p)
  {
    start, p, q, buffer, readerLine', c' := pos, pos, Start, [], readerLine, c;
    assert input[p..p] == [];
    while Lexer.Continues(input, p, q)
      invariant pos <= start <= p <= |input| && readerLine' == ReaderLine(input, p)
      invariant c' == CountersTo(input, pos, c.line, c.column, p)
      invariant buffer == input[start..p] && Run(buffer) == Some(q)
      invariant Lexer.ScanFrom(input, start, p, q) == Lexer.Scan(input, pos)
      decreases |input| - p, q != Start
    {
      if Lexer.Takes(input, p, q) {
        p, q, buffer, readerLine', c' := TakeCharacter(input, pos, c, start, p, q, buffer, readerLine', c');
      } else {
        // a blank or comment: its lexeme is built and dropped, and the
        // character after it starts the next one
        Lexer.UnfoldAccept(input, start, p, q);
        assert input[p..p] == [];
        start, buffer, q := p, [], Start;
      }
    }
  }

  /**
   * One iteration of nextSymbol's loop that takes the character at p into
   * the buffer: inside a comment or string every character is taken,
   * elsewhere the automaton moves; then the next character is read.
   */
  method TakeCharacter(input: string, ghost pos: nat, ghost c0: Counters, ghost start: nat, p: nat, q: State,
                       buffer: string, readerLine: int, c: Counters)
    returns (p': nat, q': State, buffer': string, readerLine': int, c': Counters)
    requires pos <= start <= p <= |input| && buffer == input[start..p] && Run(buffer) == Some(q)
    requires Lexer.Continues(input, p, q) && Lexer.Takes(input, p, q) && readerLine == ReaderLine(input, p)
    requires c == CountersTo(input, pos, c0.line, c0.column, p)
    ensures p' == p + 1 <= |input| && buffer' == input[start..p'] && Run(buffer') == Some(q')
    ensures Lexer.ScanFrom(input, start, p, q) == Lexer.ScanFrom(input, start, p', q')
    ensures readerLine' == ReaderLine(input, p') && c' == CountersTo(input, pos, c0.line, c0.column, p')
  {
    Lexer.TakesInside(input, p, q);
    q', buffer' := MoveOn(input, start, p, q, buffer);
    p', readerLine', c' := ReadNext(input, p, readerLine, c);
  }

  /** The automaton's move on the character at p, which joins the buffer; nothing is read yet. */
  method MoveOn(input: string, ghost start: nat, p: nat, q: State, buffer: string) returns (q': State, buffer': string)
    requires start <= p <= |input| && buffer == input[start..p] && Run(buffer) == Some(q)
    requires Lexer.Continues(input, p, q) && Lexer.Takes(input, p, q)
    ensures p < |input| && buffer' == input[start..p + 1] && Run(buffer') == Some(q')
    ensures Lexer.ScanFrom(input, start, p, q) == Lexer.ScanFrom(input, start, p + 1, q')
  {
    var c := Lexer.Peek(input, p);
    Lexer.UnfoldTake(input, start, p, q);
    Lexer.ConsumeStep(input, start, p, q);
    q' := Delta(q, c).value;
    buffer' := buffer + [c];
  }

  /**
   * The accepting branch's lexeme: a keyword takes its type from the
   * keyword table; any other text becomes a lexeme of its state's type
   * with its position and a new Symbol for it, which putIfAbsent enters
   * into the table when the text is an identifier.
   */
  method Accept(text: string, q: State, readerLine: int, column: int, table: map<string, OutputSymbol.Symbol>)
    returns (lexeme: OutputSymbol.Lexeme, table': map<string, OutputSymbol.Symbol>)
    requires TableOk(table) && q.IsAccepting() && Run(text) == Some(q)
    ensures TableOk(table') && IsLexemeFor(lexeme, text, readerLine, column)
    ensures NewIdentifier(text, table, q) ==>
      text in table' && fresh(table'[text]) && table' == table[text := table'[text]]
      && table'[text].lexeme == Some(lexeme)
      && table'[text].variableNumber == OutputSymbol.NotAllocated
      && table'[text].register == OutputSymbol.NotAllocated
    ensures !NewIdentifier(text, table, q) ==> table' == table
  {
    RunRecognizes(text);
    AcceptedTextClassified(q, text);
    table' := table;
    if text !in Keywords {
      lexeme := OutputSymbol.Lexeme(text, OwnType(q), Some(OutputSymbol.Position(readerLine, column - |text|)));
      var symbol := new OutputSymbol.Symbol(Some(lexeme));
      if q == Symbol && text !in table {
        table' := table[text := symbol];
      }
    } else {
      lexeme := OutputSymbol.Lexeme(text, Keywords[text], None);
    }
  }

  /**
   * The step that ends nextSymbol's loop, in state q on the lexeme buffer
   * input[start..p]: an unterminated comment or string throws, an
   * accepting state gives its lexeme (no character is read: the lookahead
   * starts the next lexeme), end of file gives END_OF_INPUT after which the
   * reader reads once more, and anything else throws Invalid Syntax.
   */
  method Finish(input: string, ghost start: nat, p: nat, q: State, buffer: string, readerLine: int, c: Counters,
                more: bool, table: map<string, OutputSymbol.Symbol>)
    returns (r: Result<OutputSymbol.Lexeme, Lexer.LexError>, p': nat, q': State, readerLine': int, c': Counters,
             more': bool, table': map<string, OutputSymbol.Symbol>)
    requires start <= p <= |input| && buffer == input[start..p] && Run(buffer) == Some(q) && !Lexer.Continues(input, p, q)
    requires readerLine == ReaderLine(input, p) && TableOk(table)
    ensures p' <= |input| && readerLine' == ReaderLine(input, p') && TableOk(table')
    ensures Lexer.ScanFrom(input, start, p, q).start == start && Lexer.ScanFrom(input, start, p, q).end == p
    ensures Returned(input, Lexer.ScanFrom(input, start, p, q), r, p', q', readerLine', c'.column, more, more')
    ensures if Lexer.ScanFrom(input, start, p, q).Found? && NewIdentifier(buffer, table, q)
      then
        buffer in table' && fresh(table'[buffer]) && table' == table[buffer := table'[buffer]]
        && table'[buffer].lexeme == Some(r.value)
        && table'[buffer].variableNumber == OutputSymbol.NotAllocated
        && table'[buffer].register == OutputSymbol.NotAllocated
      else table' == table
    ensures Lexer.ScanFrom(input, start, p, q).EndReached? ==> c' == Step(c, readerLine')
    ensures !Lexer.ScanFrom(input, start, p, q).EndReached? ==> c' == c
  {
    p', q', readerLine', c', more', table' := p, q, readerLine, c, more, table;
    var ch := Lexer.Peek(input, p);
    if (q == InComment || q == InString) && p == |input| {
      // appending the end-of-file code point -1 throws
      r := Failure(Lexer.IllegalCodePoint);
    } else if q.IsAccepting() {
      Lexer.UnfoldAccept(input, start, p, q);
      var lexeme;
      lexeme, table' := Accept(buffer, q, readerLine, c.column, table);
      r, q' := Success(lexeme), Start;
    } else if ch == EmptyBuf {
      Lexer.UnfoldStop(input, start, p, q);
      r, more' := Success(EndOfInputLexeme), false;
      p', readerLine', c' := ReadNext(input, p, readerLine, c);
    } else {
      Lexer.UnfoldStop(input, start, p, q);
      r := Failure(Lexer.InvalidSyntax(InvalidSyntaxMessage(readerLine, c.column)));
    }
  }

  /**
   * nextSymbol on the scanner's fields passed in, returned updated together
   * with the state the scan stops in: Advance runs the iterations that go
   * on, and Finish the last one, which returns or throws. The counters are
   * those of the reads the scan makes.
   */
  method ScanSymbol(input: string, pos: nat, readerLine: int, c: Counters, more: bool,
                    table: map<string, OutputSymbol.Symbol>)
    returns (r: Result<OutputSymbol.Lexeme, Lexer.LexError>, p: nat, q: State, readerLine': int, c': Counters,
             more': bool, table': map<string, OutputSymbol.Symbol>, ghost start: nat, ghost end: nat)
    requires pos <= |input| && readerLine == ReaderLine(input, pos) && TableOk(table)
    ensures p <= |input| && readerLine' == ReaderLine(input, p) && TableOk(table')
    ensures Lexer.Scan(input, pos).start == start && Lexer.Scan(input, pos).end == end && pos <= end <= |input|
    ensures Returned(input, Lexer.Scan(input, pos), r, p, q, readerLine', c'.column, more, more')
    ensures var text := input[start..end];
      if Lexer.Scan(input, pos).Found? && NewIdentifier(text, table, Run(text).value)
      then
        text in table' && fresh(table'[text]) && table' == table[text := table'[text]]
        && table'[text].lexeme == Some(r.value)
        && table'[text].variableNumber == OutputSymbol.NotAllocated
        && table'[text].register == OutputSymbol.NotAllocated
      else table' == table
    ensures c' == CountersFor(input, pos, c, Lexer.Scan(input, pos), p)
  {
    var buffer, p0, q0, readerLine0, c0;
    start, p0, q0, buffer, readerLine0, c0 := Advance(input, pos, readerLine, c);
    end := p0;
    r, p, q, readerLine', c', more', table' := Finish(input, start, p0, q0, buffer, readerLine0, c0, more, table);
  }

  class LexicalAnalyzer {
    const input: string
    var pos: nat
    var currentState: State
    var readerLine: int
    var lineNumber: int
    var charNumber: int
    var hasNextLexeme: bool
    var symbolTable: map<string, OutputSymbol.Symbol>

    /** The reader has counted the line feeds it delivered; the table holds identifiers only. */
    ghost predicate Valid()
      reads this`pos, this`readerLine, this`symbolTable
    {
      pos <= |input| && readerLine == ReaderLine(input, pos) && TableOk(symbolTable)
    }

    /**
     * Opens the reader on line 1, reads the first character (not through
     * ReadNextCharacter, so the counters stay at line 1, column 1) and
     * starts in START with an empty symbol table.
     */
    constructor (input: string)
      ensures Valid() && this.input == input && pos == 0 && currentState == Start
      ensures lineNumber == 1 && charNumber == 1 && hasNextLexeme && symbolTable == map[]
    {
      this.input := input;
      pos := 0;
      currentState := Start;
      readerLine := if 0 < |input| && input[0] == '\n' then 2 else 1;
      lineNumber := 1;
      charNumber := 1;
      hasNextLexeme := true;
      symbolTable := map[];
      new;
      assert Lexer.LinesBefore(input, Delivered(input, 0)) == if 0 < |input| && input[0] == '\n' then 1 else 0;
    }

    /**
     * Reads the next character. When the reader's line number has moved,
     * the line counter takes it and the column restarts, so the character
     * just read is column 1; otherwise the column advances by one.
     */
    method ReadNextCharacter()
      requires Valid()
      modifies this`pos, this`readerLine, this`lineNumber, this`charNumber
      ensures Valid()
      ensures pos == if old(pos) < |input| then old(pos) + 1 else old(pos)
      ensures old(lineNumber) != readerLine ==> lineNumber == readerLine && charNumber == 1
      ensures old(lineNumber) == readerLine ==> lineNumber == old(lineNumber) && charNumber == old(charNumber) + 1
    {
      var c;
      pos, readerLine, c := ReadNext(input, pos, readerLine, Counters(lineNumber, charNumber));
      lineNumber, charNumber := c.line, c.column;
    }

    /**
     * Scans the next lexeme: blanks and comments are skipped, a lexeme is
     * the longest text the automaton accepts, and an identifier not yet in
     * the symbol table is entered with a new Symbol for it. End of file
     * outside a lexeme gives END_OF_INPUT. The ghost results locate the
     * scanned text as input[start..end]. The counters are those of the
     * reads that took the scan to its end, and of the one more read that
     * follows END_OF_INPUT.
     */
    method NextSymbol() returns (r: Result<OutputSymbol.Lexeme, Lexer.LexError>, ghost start: nat, ghost end: nat)
      requires Valid() && currentState == Start
      modifies this
      ensures Valid()
      ensures Lexer.Scan(input, old(pos)).start == start && Lexer.Scan(input, old(pos)).end == end
      ensures old(pos) <= end <= |input|
      ensures Returned(input, Lexer.Scan(input, old(pos)), r, pos, currentState, readerLine, charNumber,
                       old(hasNextLexeme), hasNextLexeme)
      ensures var text := input[start..end];
        if Lexer.Scan(input, old(pos)).Found? && NewIdentifier(text, old(symbolTable), Run(text).value)
        then
          text in symbolTable && fresh(symbolTable[text])
          && symbolTable == old(symbolTable)[text := symbolTable[text]]
          && symbolTable[text].lexeme == Some(r.value)
          && symbolTable[text].variableNumber == OutputSymbol.NotAllocated
          && symbolTable[text].register == OutputSymbol.NotAllocated
        else symbolTable == old(symbolTable)
      ensures Counters(lineNumber, charNumber)
        == CountersFor(input, old(pos), Counters(old(lineNumber), old(charNumber)), Lexer.Scan(input, old(pos)), pos)
    {
      var p, q, reader, c, more, table;
      r, p, q, reader, c, more, table, start, end :=
        ScanSymbol(input, pos, readerLine, Counters(lineNumber, charNumber), hasNextLexeme, symbolTable);
      pos, currentState, readerLine, lineNumber, charNumber, hasNextLexeme, symbolTable :=
        p, q, reader, c.line, c.column, more, table;
    }

    /** More lexemes are to come until END_OF_INPUT has been returned. */
    function HasNextSymbol(): bool
      reads this
    {
      hasNextLexeme
    }
  }
}
