/**
 * The parser of the main snapshot. isValidSyntax seeds the parse stack with
 * STATEMENT above END_OF_INPUT, reads one symbol from the lexer and then,
 * while the stack is not empty, lets the symbol on top do its step: a
 * non-terminal expands through the table, a terminal must match the
 * lookahead, and an action does nothing at all, so an action on top is
 * never removed and the loop runs forever. Parse describes the loop for a
 * number of steps; the Parser class runs it.
 */
module LLParser {
  import opened Wrappers
  import opened Grammar
  import opened Symbols
  import opened ParseTable
  import opened LL
  import Decimal

  type Stack = seq<GSym<Action>>

  /** The token types a sequence of lexer symbols stands for, a lexeme by its own type. */
  function TokenTypes(input: seq<LexSymbol>): (r: seq<TerminalToken>)
    ensures |r| == |input|
    ensures forall i :: 0 <= i < |input| ==> r[i] == TokenTypeOf(input[i])
  {
    if |input| == 0 then [] else [TokenTypeOf(input[0])] + TokenTypes(input[1..])
  }

  /** How the loop ends: the stack empties, a step throws, an action stays on top for good, or fuel runs out. */
  datatype Outcome = Accepted | Rejected(error: StepError) | Spins(action: Action) | OutOfFuel

  /** One iteration of the loop: Action.doTheThing is empty, so an action on top leaves everything as it was. */
  function Iteration(table: Table<Action>, c: Config<Action>): Result<Config<Action>, StepError>
    requires |c.stack| > 0
  {
    if c.stack[0].Act? then Success(c) else Step(table, c)
  }

  /** k iterations, stopping at an error or an empty stack. */
  function Iterate(table: Table<Action>, c: Config<Action>, k: nat): Result<Config<Action>, StepError>
    decreases k
  {
    if k == 0 || |c.stack| == 0 then Success(c)
    else match Iteration(table, c)
      case Success(d) => Iterate(table, d, k - 1)
      case Failure(e) => Failure(e)
  }

  /** The loop run for at most fuel steps of a terminal or non-terminal. */
  function Parse(table: Table<Action>, c: Config<Action>, fuel: nat): Outcome
    decreases fuel
  {
    if |c.stack| == 0 then Accepted
    else if c.stack[0].Act? then Spins(c.stack[0].a)
    else if fuel == 0 then OutOfFuel
    else match Step(table, c)
      case Success(d) => Parse(table, d, fuel - 1)
      case Failure(e) => Rejected(e)
  }

  /** The stack isValidSyntax starts from. */
  function Seed(input: seq<TerminalToken>): Config<Action> {
    Config([Nt(Statement), Tm(EndOfInput)], input)
  }

  /** An action on top is there for good: any number of iterations leave the parser unchanged. */
  lemma {:induction false} ActionSpinsForever(table: Table<Action>, c: Config<Action>, k: nat)
    requires |c.stack| > 0 && c.stack[0].Act?
    ensures Iterate(table, c, k) == Success(c)
    decreases k
  {
    if k > 0 {
      assert Iteration(table, c) == Success(c);
      ActionSpinsForever(table, c, k - 1);
    }
  }

  /** Parse counts the loop faithfully: a verdict reached in fuel steps is what that many iterations reach. */
  lemma {:induction false} ParseIterates(table: Table<Action>, c: Config<Action>, fuel: nat)
    ensures Parse(table, c, fuel) == Accepted ==>
      Iterate(table, c, fuel).Success? && Iterate(table, c, fuel).value.stack == []
    ensures Parse(table, c, fuel).Rejected? ==> Iterate(table, c, fuel) == Failure(Parse(table, c, fuel).error)
    decreases fuel
  {
    if |c.stack| > 0 && !c.stack[0].Act? && fuel > 0 {
      match Step(table, c)
      case Success(d) => ParseIterates(table, d, fuel - 1);
      case Failure(e) =>
    }
  }

  /** More fuel never changes a verdict already reached. */
  lemma {:induction false} FuelMonotone(table: Table<Action>, c: Config<Action>, fuel: nat, more: nat)
    requires Parse(table, c, fuel) != OutOfFuel && fuel <= more
    ensures Parse(table, c, more) == Parse(table, c, fuel)
    decreases fuel
  {
    if |c.stack| > 0 && !c.stack[0].Act? {
      match Step(table, c)
      case Success(d) => FuelMonotone(table, d, fuel - 1, more - 1);
      case Failure(e) =>
    }
  }

  /** A program of END_OF_INPUT alone is accepted: no outer begin-end is required. */
  lemma EndOfInputAlone()
    ensures Parse(Entry, Seed([]), 2) == Accepted
    ensures Parse(Entry, Seed([EndOfInput]), 2) == Accepted
  {
  }

  /** "begin end" is accepted: STATEMENT_LIST is empty before END. */
  lemma EmptyBlock()
    ensures Parse(Entry, Seed([Begin, End]), 5) == Accepted
  {
    var a := Seed([Begin, End]);
    var b := Config([Tm(Begin), Nt(StatementList), Tm(End), Tm(EndOfInput)], [Begin, End]);
    assert Entry(Statement, Begin).value + a.stack[1..] == b.stack;
    Unfold(a, b, 4);
    var c := Config([Nt(StatementList), Tm(End), Tm(EndOfInput)], [End]);
    assert b.stack[1..] == c.stack && b.input[1..] == c.input;
    Unfold(b, c, 3);
    EmptyListThenEnd();
  }

  /** An empty STATEMENT_LIST before END: the list derives nothing, then END and END_OF_INPUT match. */
  lemma EmptyListThenEnd()
    ensures Parse(Entry, Config([Nt(StatementList), Tm(End), Tm(EndOfInput)], [End]), 3) == Accepted
  {
    var c := Config([Nt(StatementList), Tm(End), Tm(EndOfInput)], [End]);
    var d := Config([Tm(End), Tm(EndOfInput)], [End]);
    assert Entry(StatementList, End).value + c.stack[1..] == d.stack;
    Unfold(c, d, 2);
    var e := Config([Tm(EndOfInput)], []);
    assert d.stack[1..] == e.stack && d.input[1..] == e.input;
    Unfold(d, e, 1);
    Unfold(e, Config([], []), 0);
  }

  /**
   * A ';' just before END is accepted wherever it occurs: SEPARATED_LIST
   * takes the ';', the STATEMENT after it derives nothing before END, and
   * the list ends, all in four steps.
   */
  lemma TrailingSeparator(rest: Stack, input: seq<TerminalToken>, fuel: nat)
    requires Lookahead(input) == End
    ensures Parse(Entry, Config([Nt(SeparatedList)] + rest, [StatementSep] + input), fuel + 4)
         == Parse(Entry, Config(rest, input), fuel)
  {
    var a := Config([Nt(SeparatedList)] + rest, [StatementSep] + input);
    var b := Config([Tm(StatementSep), Nt(Statement), Nt(SeparatedList)] + rest, [StatementSep] + input);
    assert a.stack[1..] == rest;
    Unfold(a, b, fuel + 3);
    var c := Config([Nt(Statement), Nt(SeparatedList)] + rest, input);
    assert b.stack[1..] == c.stack;
    Unfold(b, c, fuel + 2);
    var d := Config([Nt(SeparatedList)] + rest, input);
    assert Entry(Statement, End) == Some([]) && [] + c.stack[1..] == d.stack;
    Unfold(c, d, fuel + 1);
    assert Entry(SeparatedList, End) == Some([]) && [] + d.stack[1..] == rest;
    Unfold(d, Config(rest, input), fuel);
  }

  /** A successful step costs one unit of fuel. */
  lemma Unfold(c: Config<Action>, d: Config<Action>, fuel: nat)
    requires |c.stack| > 0 && !c.stack[0].Act? && Step(Entry, c) == Success(d)
    ensures Parse(Entry, c, fuel + 1) == Parse(Entry, d, fuel)
  {
  }

  /** "end" alone is rejected: STATEMENT derives nothing, and END_OF_INPUT does not match END. */
  lemma StrayEnd()
    ensures Parse(Entry, Seed([End]), 3) == Rejected(Mismatch(EndOfInput, End))
  {
  }

  /** "then" alone is rejected: STATEMENT's row has no key THEN. */
  lemma StrayThen()
    ensures Parse(Entry, Seed([Then]), 3) == Rejected(NoEntry(Statement, Then))
  {
  }

  /** "x := 1" reaches the LOAD after the number and stays there. */
  lemma AssignmentSpins()
    ensures Parse(Entry, Seed([Identifier, AssignmentOp, Number]), 7) == Spins(Load)
  {
    var rest := [Act(Store), Tm(EndOfInput)];
    var a := Seed([Identifier, AssignmentOp, Number]);
    var b := Config([Tm(Identifier), Tm(AssignmentOp), Nt(Expression)] + rest, [Identifier, AssignmentOp, Number]);
    assert Entry(Statement, Identifier).value + a.stack[1..] == b.stack;
    Unfold(a, b, 6);
    var c := Config([Tm(AssignmentOp), Nt(Expression)] + rest, [AssignmentOp, Number]);
    assert b.stack[1..] == c.stack && b.input[1..] == c.input;
    Unfold(b, c, 5);
    var d := Config([Nt(Expression)] + rest, [Number]);
    assert c.stack[1..] == d.stack && c.input[1..] == d.input;
    Unfold(c, d, 4);
    ExpressionOnNumberSpins(rest);
  }

  /** An EXPRESSION on a number expands down to the factor's LOAD, which stays on top. */
  lemma ExpressionOnNumberSpins(rest: Stack)
    ensures Parse(Entry, Config([Nt(Expression)] + rest, [Number]), 4) == Spins(Load)
  {
    var c := Config([Nt(Expression)] + rest, [Number]);
    var d := Config([Nt(Term), Nt(Addition)] + rest, [Number]);
    assert Entry(Expression, Number).value + c.stack[1..] == d.stack;
    Unfold(c, d, 3);
    var tail := [Nt(Multiplication), Nt(Addition)] + rest;
    var e := Config([Nt(Factor)] + tail, [Number]);
    assert Entry(Term, Number).value + d.stack[1..] == e.stack;
    Unfold(d, e, 2);
    FactorOnNumberSpins(tail);
  }

  /** A FACTOR on a number matches it and leaves LOAD on top. */
  lemma FactorOnNumberSpins(tail: Stack)
    ensures Parse(Entry, Config([Nt(Factor)] + tail, [Number]), 2) == Spins(Load)
  {
    var e := Config([Nt(Factor)] + tail, [Number]);
    var f := Config([Tm(Number), Act(Load)] + tail, [Number]);
    assert Entry(Factor, Number).value + e.stack[1..] == f.stack;
    Unfold(e, f, 1);
    var g := Config([Act(Load)] + tail, []);
    assert f.stack[1..] == g.stack;
    Unfold(f, g, 0);
  }

  /** The key set of row n, listed in the order its iterator yields it. */
  predicate Enumerates(keys: seq<TerminalToken>, table: Table<Action>, n: NonTerminalToken) {
    |keys| > 0
    && (forall i, j :: 0 <= i < j < |keys| ==> keys[i] != keys[j])
    && (forall t :: table(n, t).Some? <==> t in keys)
  }

  /** Names followed by ", " each, in order. */
  function Listed(keys: seq<TerminalToken>): string {
    if |keys| == 0 then "" else Listed(keys[..|keys| - 1]) + (keys[|keys| - 1].Name() + ", ")
  }

  /**
   * The keys of the error message: "A or B" for two, "A, B, ..., or Z"
   * (with the serial comma) for three or more, and "A, " for one.
   */
  function ExpectedList(keys: seq<TerminalToken>): string
    requires |keys| > 0
  {
    if |keys| == 2 then keys[0].Name() + " or " + keys[1].Name()
    else if |keys| == 1 then keys[0].Name() + ", "
    else keys[0].Name() + ", " + Listed(keys[1..|keys| - 1]) + "or " + keys[|keys| - 1].Name()
  }

  function ExpectedHeader(line: int, column: int): string {
    "Line " + Decimal.IntToString(line) + " Char " + Decimal.IntToString(column) + " - Expected "
  }

  /**
   * Builds the message of the syntax error for a missing key the way the
   * source does, appending to a buffer while iterating over the key set:
   * the first key, then " or " and the second when there are exactly two,
   * otherwise ", " and then each further key followed by ", ", the last one
   * preceded by "or " instead.
   */
  method BuildExpected(line: int, column: int, keys: seq<TerminalToken>) returns (m: string)
    requires |keys| > 0
    ensures m == ExpectedHeader(line, column) + ExpectedList(keys)
  {
    var list := keys[0].Name();
    var i := 1;
    if |keys| == 2 {
      list := list + " or " + keys[1].Name();
      i := 2;
    } else {
      list := list + ", ";
    }
    assert keys[1..1] == [];
    while i < |keys|
      invariant 1 <= i <= |keys| && (|keys| == 2 ==> i == 2)
      invariant |keys| != 2 && i < |keys| ==> list == keys[0].Name() + ", " + Listed(keys[1..i])
      invariant i == |keys| ==> list == ExpectedList(keys)
    {
      var name := keys[i].Name();
      if i + 1 == |keys| {
        assert keys[1..i] == keys[1..|keys| - 1];
        Associative(keys[0].Name() + ", " + Listed(keys[1..i]), "or ", name);
        list := list + "or " + name;
      } else {
        assert keys[1..i + 1][..i - 1] == keys[1..i];
        Associative(keys[0].Name() + ", ", Listed(keys[1..i]), name + ", ");
        list := list + (name + ", ");
      }
      i := i + 1;
    }
    m := ExpectedHeader(line, column) + list;
  }

  lemma Associative(a: string, b: string, c: string)
    ensures a + b + c == a + (b + c)
  {
  }

  /**
   * NonTerminalToken.doTheThing's loop: the production's symbols are pushed
   * last to first, so that its first symbol ends up on top.
   */
  method PushProduction(production: Stack, stack: Stack) returns (s: Stack)
    ensures s == production + stack
  {
    s := stack;
    var i := |production|;
    while i > 0
      invariant 0 <= i <= |production|
      invariant s == production[i..] + stack
    {
      i := i - 1;
      s := [production[i]] + s;
    }
  }

  class Parser {
    /** The table buildParseTable builds. */
    const table: Table<Action>
    var parseStack: Stack
    /** The symbols the lexer has yet to deliver. */
    var input: seq<LexSymbol>
    /** The lexer's line and column counters, which the error message quotes. */
    const line: int
    const column: int

    constructor (input: seq<LexSymbol>, line: int, column: int)
      ensures table == Entry && parseStack == [] && this.input == input
      ensures this.line == line && this.column == column
    {
      table := Entry;
      parseStack := [];
      this.input := input;
      this.line := line;
      this.column := column;
    }

    /** The message a step's error is thrown with. */
    function ErrorMessage(e: StepError, keyOrder: map<NonTerminalToken, seq<TerminalToken>>): string {
      match e
      case NoEntry(n, _) => if n in keyOrder && |keyOrder[n]| > 0 then ExpectedHeader(line, column) + ExpectedList(keyOrder[n]) else ""
      case Mismatch(_, _) => "Unexpected Terminal"
    }

    /**
     * NonTerminalToken.doTheThing: pops the non-terminal (on the error path
     * too), looks the lookahead's token type up in its row and pushes the
     * production from its last symbol to its first, so the stack becomes
     * production + rest. A missing key throws the "Expected" message built
     * from the row's keys in the order keys lists them.
     */
    method ExpandNonTerminal(keys: seq<TerminalToken>) returns (r: Result<(), string>)
      requires |parseStack| > 0 && parseStack[0].Nt? && Enumerates(keys, table, parseStack[0].n)
      modifies this`parseStack
      ensures var s := Step(table, Config(old(parseStack), TokenTypes(input)));
        if s.Success? then r.Success? && parseStack == s.value.stack
        else r == Failure(ExpectedHeader(line, column) + ExpectedList(keys)) && parseStack == old(parseStack)[1..]
    {
      var n := parseStack[0].n;
      parseStack := parseStack[1..];
      var lookahead := if |input| == 0 then EndOfInput else TokenTypeOf(input[0]);
      assert lookahead == Lookahead(TokenTypes(input));
      var entry := table(n, lookahead);
      if entry.Some? {
        parseStack := PushProduction(entry.value, parseStack);
        r := Success(());
      } else {
        var m := BuildExpected(line, column, keys);
        r := Failure(m);
      }
    }

    /**
     * TerminalToken.doTheThing: a terminal equal to the lookahead's token
     * type is popped together with the lexer's symbol; otherwise "Unexpected
     * Terminal" is thrown and nothing changes.
     */
    method MatchTerminal() returns (r: Result<(), string>)
      requires |parseStack| > 0 && parseStack[0].Tm?
      modifies this`parseStack, this`input
      ensures var s := Step(table, Config(old(parseStack), TokenTypes(old(input))));
        if s.Success? then r.Success? && parseStack == s.value.stack && TokenTypes(input) == s.value.input
          && (|old(input)| > 0 ==> input == old(input)[1..])
        else r == Failure("Unexpected Terminal") && parseStack == old(parseStack) && input == old(input)
    {
      var lookahead := if |input| == 0 then EndOfInput else TokenTypeOf(input[0]);
      if parseStack[0].t == lookahead {
        if |input| > 0 {
          assert TokenTypes(input[1..]) == TokenTypes(input)[1..];
          input := input[1..];
        }
        parseStack := parseStack[1..];
        r := Success(());
      } else {
        r := Failure("Unexpected Terminal");
      }
    }

    /**
     * isValidSyntax: pushes END_OF_INPUT and then STATEMENT and runs the
     * loop, for at most fuel terminal and non-terminal steps. The loop stops
     * when the stack is empty (the input is valid) or a step throws (the
     * message is returned alongside); with an action on top it would never
     * stop, and the method reports that instead. keyOrder gives the order in
     * which each row's key set is iterated.
     */
    method IsValidSyntax(fuel: nat, keyOrder: map<NonTerminalToken, seq<TerminalToken>>) returns (o: Outcome, message: string)
      requires forall n :: n in keyOrder && Enumerates(keyOrder[n], table, n)
      modifies this`parseStack, this`input
      ensures o == Parse(table, Config([Nt(Statement), Tm(EndOfInput)] + old(parseStack), TokenTypes(old(input))), fuel)
      ensures o.Rejected? ==> message == ErrorMessage(o.error, keyOrder)
    {
      parseStack := [Tm(EndOfInput)] + parseStack;
      parseStack := [Nt(Statement)] + parseStack;
      assert parseStack == [Nt(Statement), Tm(EndOfInput)] + old(parseStack);
      var k := fuel;
      message := "";
      while true
        invariant Parse(table, Config(parseStack, TokenTypes(input)), k)
          == Parse(table, Config([Nt(Statement), Tm(EndOfInput)] + old(parseStack), TokenTypes(old(input))), fuel)
        decreases k
      {
        if |parseStack| == 0 {
          return Accepted, message;
        }
        if parseStack[0].Act? {
          // Action.doTheThing does nothing: the loop would never end
          return Spins(parseStack[0].a), message;
        }
        if k == 0 {
          return OutOfFuel, message;
        }
        var before := Config(parseStack, TokenTypes(input));
        var r;
        if parseStack[0].Nt? {
          r := ExpandNonTerminal(keyOrder[parseStack[0].n]);
        } else {
          r := MatchTerminal();
        }
        if r.Failure? {
          return Rejected(Step(table, before).error), r.error;
        }
        k := k - 1;
      }
    }
  }
}
