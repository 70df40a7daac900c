/**
 * The parser and code generator of the newer snapshot (src/test/output):
 * the register bank and its allocator, the variable and label counters,
 * the assembly text it emits, and the parse loop that drives the newer
 * table. Registers r4 to r9 are handed out, lowest free first; a symbol
 * keeps its register until it is freed or the bank is cleared.
 */
module OutputParser {
  import opened Wrappers
  import opened Grammar
  import opened LL
  import opened OutputTable
  import opened OutputSymbol
  import opened Decimal

  /** r0 to r3 are left to calls. */
  const FirstRegister: int := 4
  /** r11 and up have fixed roles; the bank has LastRegister - FirstRegister slots. */
  const LastRegister: int := 10
  /** A variable numbered k lives at fp + LocalVarOffset * k. */
  const LocalVarOffset: int := -4

  const BeginLabelPrefix: string := "begin_"
  const EndLabelPrefix: string := "end_"
  const StringConstPrefix: string := "str_"
  const StringFormatName: string := "sfmt"
  const IntegerFormatName: string := "ifmt"

  /** The index of the first empty slot, if any. */
  function LowestFree(slots: seq<Symbol?>): (r: Option<nat>)
    ensures r.Some? ==> (r.value < |slots| && slots[r.value] == null && forall j :: 0 <= j < r.value ==> slots[j] != null)
    ensures r.None? ==> forall j :: 0 <= j < |slots| ==> slots[j] != null
  {
    if |slots| == 0 then None
    else if slots[0] == null then Some(0)
    else match LowestFree(slots[1..])
      case Some(k) => Some(k + 1)
      case None => None
  }

  /** An immediate or a string label: "ldr rR, =value". */
  function ImmediateLoad(register: int, value: string): string {
    "\tldr r" + IntToString(register) + ", =" + value + "\n"
  }

  /** A local variable, read from its slot below the frame pointer. */
  function LocalLoad(register: int, variableNumber: int): string {
    "\tldr r" + IntToString(register) + ", [fp, #" + IntToString(LocalVarOffset * variableNumber) + "]\n"
  }

  /** The VariableNotDefinedException text, dated by the lexer's line and column. */
  function UndefinedMessage(line: int, column: int, name: string): string {
    "Line " + IntToString(line) + " Char " + IntToString(column) + " - Variable " + name + " is not defined"
  }

  /**
   * What loading the symbol with lexeme l and variable number variableNumber
   * into register emits: numbers and string constants are loaded as
   * immediates or labels, declared variables from their stack slot, and an
   * identifier never declared is an error.
   */
  function LoadInstruction(l: Lexeme, variableNumber: int, register: int, line: int, column: int)
    : (r: Result<string, string>)
    ensures r.Failure? <==> l.tokenType != Number && l.tokenType != StringConst && variableNumber == NotAllocated
  {
    if l.tokenType == Number || l.tokenType == StringConst then Success(ImmediateLoad(register, l.value))
    else if variableNumber != NotAllocated then Success(LocalLoad(register, variableNumber))
    else Failure(UndefinedMessage(line, column, l.value))
  }

  /** Every load names its target register, and the error names the variable. */
  lemma LoadNamesItsOperands(l: Lexeme, variableNumber: int, register: int, line: int, column: int)
    ensures var r := LoadInstruction(l, variableNumber, register, line, column);
      r.Success? ==> var prefix := "\tldr r" + IntToString(register) + ", ";
        |r.value| > |prefix| && r.value[..|prefix|] == prefix && r.value[|r.value| - 1] == '\n'
    ensures var r := LoadInstruction(l, variableNumber, register, line, column);
      r.Failure? ==> var prefix := "Line " + IntToString(line) + " Char " + IntToString(column) + " - Variable ";
        r.error == prefix + l.value + " is not defined"
  {
  }

  /**
   * Distinct variables are loaded from distinct stack slots: the loads of
   * two declared variables into the same register are the same text only
   * when the variable numbers are the same.
   */
  lemma LocalSlotsDistinct(l1: Lexeme, l2: Lexeme, j: int, k: int, register: int, line: int, column: int)
    requires l1.tokenType !in {Number, StringConst} && l2.tokenType !in {Number, StringConst}
    requires LoadInstruction(l1, j, register, line, column).Success?
    requires LoadInstruction(l1, j, register, line, column) == LoadInstruction(l2, k, register, line, column)
    ensures j == k
  {
    var prefix := "\tldr r" + IntToString(register) + ", [fp, #";
    var a, b := IntToString(LocalVarOffset * j), IntToString(LocalVarOffset * k);
    var s := LocalLoad(register, j);
    assert s == prefix + a + "]\n" && LocalLoad(register, k) == prefix + b + "]\n";
    assert |a| == |b|;
    assert a == s[|prefix|..|prefix| + |a|] == b;
    IntToStringInjective(LocalVarOffset * j, LocalVarOffset * k);
  }

  /** The text of the lines, in order. */
  function Concat(lines: seq<string>): string {
    if |lines| == 0 then "" else Concat(lines[..|lines| - 1]) + lines[|lines| - 1]
  }

  /** Why the newer parse loop stops. */
  datatype Outcome = Accepted | Rejected(error: StepError) | OutOfFuel

  /** An outcome with the actions handed control on the way, in order. */
  datatype Run = Run(outcome: Outcome, actions: seq<OutputAction>)

  /**
   * The newer parse loop: an action on top is popped and performed, a
   * non-terminal or terminal takes the same step as in the main parser, an
   * empty stack accepts. Each step that reads the table or the input costs
   * one unit of fuel.
   */
  function Drive(table: Table<OutputAction>, c: Config<OutputAction>, fuel: nat): Run
    decreases fuel, |c.stack|
  {
    if |c.stack| == 0 then Run(Accepted, [])
    else if c.stack[0].Act? then
      var rest := Drive(table, Config(c.stack[1..], c.input), fuel);
      Run(rest.outcome, [c.stack[0].a] + rest.actions)
    else if fuel == 0 then Run(OutOfFuel, [])
    else match Step(table, c)
      case Failure(e) => Run(Rejected(e), [])
      case Success(d) => Drive(table, d, fuel - 1)
  }

  /** The stack parse starts with, top first: PROLOGUE, STATEMENT, END_OF_INPUT, EPILOGUE. */
  const Framed: seq<GSym<OutputAction>> :=
    [Act(OutputAction.Prologue), Nt(Statement), Tm(EndOfInput), Act(OutputAction.Epilogue)]

  class Parser {
    const table: Table<OutputAction>
    const registers: array<Symbol?>
    var numVars: int
    var numLabels: int
    var asmCode: string
    /** The lines emitted so far, in order. */
    ghost var emitted: seq<string>
    var stringConstants: map<string, Symbol>
    var parseStack: seq<GSym<OutputAction>>
    /** The token types the lexer has yet to deliver. */
    var input: seq<TerminalToken>
    /** The actions the parse loop has handed control to, in order. */
    var performed: seq<OutputAction>

    ghost function Occupants(): set<Symbol>
      reads this, registers
    {
      set i | 0 <= i < registers.Length && registers[i] != null :: registers[i]
    }

    /**
     * The bank has six slots, the symbol in slot i knows it holds register
     * FirstRegister + i (so no symbol sits in two slots), and the output is
     * the emitted lines in order.
     */
    ghost predicate Valid()
      reads this, registers, Occupants()
    {
      registers.Length == LastRegister - FirstRegister
      && (forall i :: 0 <= i < registers.Length && registers[i] != null ==>
            registers[i].register == FirstRegister + i)
      && asmCode == Concat(emitted)
    }

    /**
     * No variables or labels yet, an empty bank and output, and the two
     * format strings in the constant pool under their labels.
     */
    constructor (input: seq<TerminalToken>)
      ensures Valid() && fresh(registers) && Occupants() == {}
      ensures numVars == 0 && numLabels == 0 && asmCode == "" && emitted == []
      ensures table == OutputTable.Entry && parseStack == [] && this.input == input && performed == []
      ensures stringConstants.Keys == {"\"%d\"", "\"%s\""}
      ensures stringConstants["\"%d\""].lexeme == Some(Lexeme(IntegerFormatName, StringConst, None))
      ensures stringConstants["\"%s\""].lexeme == Some(Lexeme(StringFormatName, StringConst, None))
    {
      table := OutputTable.Entry;
      numVars, numLabels := 0, 0;
      asmCode, emitted := "", [];
      registers := new Symbol?[LastRegister - FirstRegister](_ => null);
      var ifmt := new Symbol(Some(Lexeme(IntegerFormatName, StringConst, None)));
      var sfmt := new Symbol(Some(Lexeme(StringFormatName, StringConst, None)));
      stringConstants := map["\"%d\"" := ifmt, "\"%s\"" := sfmt];
      parseStack, this.input, performed := [], input, [];
    }

    /** Appends a line to the output. */
    method EmitToOutput(line: string)
      requires Valid()
      modifies this`asmCode, this`emitted
      ensures Valid() && asmCode == old(asmCode) + line && emitted == old(emitted) + [line]
    {
      asmCode := asmCode + line;
      emitted := emitted + [line];
      assert emitted[..|emitted| - 1] == old(emitted);
    }

    /** The compiler's output: every line emitted, in the order emitted. */
    function DumpOutput(): (s: string)
      requires Valid()
      reads this, registers, Occupants()
      ensures s == Concat(emitted)
    {
      asmCode
    }

    /** incrementVariableNumber: the new count, which numbers the variable being declared. */
    method IncrementVariableNumber() returns (n: int)
      modifies this`numVars
      ensures numVars == old(numVars) + 1 && n == numVars
    {
      numVars := numVars + 1;
      n := numVars;
    }

    /** incrementNumLabels: the new count, which numbers a begin/end label pair. */
    method IncrementNumLabels() returns (n: int)
      modifies this`numLabels
      ensures numLabels == old(numLabels) + 1 && n == numLabels
    {
      numLabels := numLabels + 1;
      n := numLabels;
    }

    /**
     * loadSymbolIntoRegister: emits the load LoadInstruction describes for
     * s into its register, or fails with the undefined-variable message.
     */
    method LoadSymbolIntoRegister(s: Symbol, line: int, column: int) returns (r: Result<(), string>)
      requires Valid() && s.lexeme.Some?
      modifies this`asmCode, this`emitted
      ensures Valid()
      ensures var load := LoadInstruction(s.lexeme.value, s.variableNumber, s.register, line, column);
        if load.Success? then r.Success? && asmCode == old(asmCode) + load.value
        else r == Failure(load.error) && asmCode == old(asmCode) && emitted == old(emitted)
    {
      var l := s.lexeme.value;
      if l.tokenType == Number || l.tokenType == StringConst {
        EmitToOutput(ImmediateLoad(s.register, l.value));
        r := Success(());
      } else if s.variableNumber != NotAllocated {
        EmitToOutput(LocalLoad(s.register, s.variableNumber));
        r := Success(());
      } else {
        r := Failure(UndefinedMessage(line, column, l.value));
      }
    }

    /**
     * getRegister: a symbol that holds a register keeps it. Otherwise it is
     * placed in the lowest free slot i, takes register FirstRegister + i and,
     * unless it is an anonymous temporary, is loaded into it; when no slot is
     * free the allocation fails. line and column are the lexer's, for the
     * undefined-variable message; the symbol keeps its slot when its load fails.
     */
    method GetRegister(s: Symbol, line: int, column: int) returns (r: Result<int, string>)
      requires Valid()
      modifies registers, s`register, this`asmCode, this`emitted
      ensures Valid()
      ensures old(s.register) != NotAllocated ==>
        r == Success(old(s.register)) && registers[..] == old(registers[..]) && s.register == old(s.register)
        && asmCode == old(asmCode)
      ensures old(s.register) == NotAllocated && LowestFree(old(registers[..])).None? ==>
        r == Failure("No free registers") && registers[..] == old(registers[..]) && s.register == old(s.register)
        && asmCode == old(asmCode)
      ensures old(s.register) == NotAllocated && LowestFree(old(registers[..])).Some? ==>
        var i := LowestFree(old(registers[..])).value;
        registers[..] == old(registers[..])[i := s] && s.register == FirstRegister + i
        && FirstRegister <= s.register < LastRegister
        && (s.lexeme.None? ==> r == Success(s.register) && asmCode == old(asmCode))
        && (s.lexeme.Some? ==>
              var load := LoadInstruction(s.lexeme.value, s.variableNumber, s.register, line, column);
              if load.Success? then r == Success(s.register) && asmCode == old(asmCode) + load.value
              else r == Failure(load.error) && asmCode == old(asmCode))
    {
      var register := s.register;
      if register == NotAllocated {
        var i, found := 0, false;
        while i < registers.Length && !found
          invariant 0 <= i <= registers.Length
          invariant forall j :: 0 <= j < i ==> registers[j] != null
          invariant found ==> i < registers.Length && registers[i] == null
          decreases registers.Length - i, !found
        {
          if registers[i] == null {
            found := true;
          } else {
            i := i + 1;
          }
        }
        if !found {
          return Failure("No free registers");
        }
        PlaceInSlot(s, i);
        register := s.register;
        if s.lexeme.Some? {
          var load := LoadSymbolIntoRegister(s, line, column);
          if load.Failure? {
            return Failure(load.error);
          }
        }
      }
      r := Success(register);
    }

    /** Puts unallocated s into the empty slot i and sets its register. */
    method PlaceInSlot(s: Symbol, i: nat)
      requires Valid() && s.register == NotAllocated && i < registers.Length && registers[i] == null
      modifies registers, s`register
      ensures Valid() && registers[..] == old(registers[..])[i := s] && s.register == FirstRegister + i
    {
      assert forall j :: 0 <= j < registers.Length && registers[j] != null ==> registers[j] != s;
      registers[i] := s;
      s.register := FirstRegister + i;
    }

    /**
     * freeRegister: the slot holding s, if any, is emptied and s is marked
     * unallocated; every other slot is kept. The freed slot can be handed
     * out again.
     */
    method FreeRegister(s: Symbol)
      requires Valid()
      modifies registers, s`register
      ensures Valid()
      ensures forall j :: 0 <= j < registers.Length ==>
        registers[j] == if old(registers[j]) == s then null else old(registers[j])
      ensures s in old(registers[..]) ==> s.register == NotAllocated && LowestFree(registers[..]).Some?
      ensures s !in old(registers[..]) ==> s.register == old(s.register)
    {
      var i := 0;
      while i < registers.Length
        invariant 0 <= i <= registers.Length
        invariant forall j :: 0 <= j < registers.Length ==>
          registers[j] == if j < i && old(registers[j]) == s then null else old(registers[j])
        invariant s.register == if s in old(registers[..i]) then NotAllocated else old(s.register)
        invariant forall j :: 0 <= j < registers.Length && registers[j] != null ==>
          registers[j].register == FirstRegister + j
      {
        if registers[i] != null && registers[i] == s {
          registers[i].register := NotAllocated;
          registers[i] := null;
        }
        assert old(registers[..i + 1]) == old(registers[..i]) + [old(registers[i])];
        i := i + 1;
      }
      assert old(registers[..i]) == old(registers[..]);
      if s in old(registers[..]) {
        var k :| 0 <= k < registers.Length && old(registers[k]) == s;
        assert registers[..][k] == null;
      }
      OccupantsShrink(old(Occupants()));
    }

    /** After the slots only lose symbols, the occupants are among the old ones. */
    lemma OccupantsShrink(before: set<Symbol>)
      requires forall j :: 0 <= j < registers.Length && registers[j] != null ==> registers[j] in before
      ensures Occupants() <= before
    {
    }

    /**
     * clearRegisters: every symbol in the bank is marked unallocated, and
     * then every slot is emptied.
     */
    method ClearRegisters()
      requires Valid()
      modifies registers, Occupants()
      ensures Valid() && Occupants() == {}
      ensures forall j :: 0 <= j < registers.Length ==> registers[j] == null
      ensures forall o :: o in old(Occupants()) ==>
        o.register == NotAllocated && o.lexeme == old(o.lexeme) && o.variableNumber == old(o.variableNumber)
    {
      var i := 0;
      while i < registers.Length
        invariant 0 <= i <= registers.Length && registers[..] == old(registers[..])
        invariant forall j :: 0 <= j < registers.Length && registers[j] != null ==>
          registers[j].register == if j < i then NotAllocated else FirstRegister + j
        invariant forall o :: o in old(Occupants()) ==> o.lexeme == old(o.lexeme) && o.variableNumber == old(o.variableNumber)
      {
        if registers[i] != null {
          registers[i].register := NotAllocated;
        }
        i := i + 1;
      }
      ghost var cleared := old(Occupants());
      assert forall o :: o in cleared ==> o.register == NotAllocated;
      i := 0;
      while i < registers.Length
        invariant 0 <= i <= registers.Length
        invariant forall j :: 0 <= j < i ==> registers[j] == null
        invariant forall o :: o in cleared ==>
          o.register == NotAllocated && o.lexeme == old(o.lexeme) && o.variableNumber == old(o.variableNumber)
      {
        registers[i] := null;
        i := i + 1;
      }
      assert Occupants() == {};
    }

    /**
     * parse: frames the stack with PROLOGUE on top of STATEMENT and
     * END_OF_INPUT and EPILOGUE at the bottom, then runs the loop until the
     * stack is empty; the run and the actions handed control are those
     * Drive describes.
     */
    method Parse(fuel: nat) returns (o: Outcome)
      modifies this`parseStack, this`input, this`performed
      ensures var run := Drive(table, Config(Framed + old(parseStack), old(input)), fuel);
        o == run.outcome && performed == old(performed) + run.actions
    {
      parseStack := Framed + parseStack;
      var k := fuel;
      while true
        invariant Drive(table, Config(parseStack, input), k).outcome ==
          Drive(table, Config(Framed + old(parseStack), old(input)), fuel).outcome
        invariant old(performed) + Drive(table, Config(Framed + old(parseStack), old(input)), fuel).actions ==
          performed + Drive(table, Config(parseStack, input), k).actions
        decreases k, |parseStack|
      {
        if |parseStack| == 0 {
          return Accepted;
        }
        var top := parseStack[0];
        if top.Act? {
          performed := performed + [top.a];
          parseStack := parseStack[1..];
        } else {
          if k == 0 {
            return OutOfFuel;
          }
          var next := Step(table, Config(parseStack, input));
          if next.Failure? {
            return Rejected(next.error);
          }
          parseStack, input := next.value.stack, next.value.input;
          k := k - 1;
        }
      }
    }
  }

  /**
   * Every accepted run with EPILOGUE at the bottom of the stack ends by
   * performing EPILOGUE: nothing above it can remove it.
   */
  lemma {:induction false} EpilogueLast(table: Table<OutputAction>, s: seq<GSym<OutputAction>>,
                                        input: seq<TerminalToken>, fuel: nat)
    requires Drive(table, Config(s + [Act(OutputAction.Epilogue)], input), fuel).outcome == Accepted
    ensures var r := Drive(table, Config(s + [Act(OutputAction.Epilogue)], input), fuel);
      |r.actions| > 0 && r.actions[|r.actions| - 1] == OutputAction.Epilogue
    decreases fuel, |s|
  {
    var c := Config(s + [Act(OutputAction.Epilogue)], input);
    if |s| == 0 {
      assert c.stack[1..] == [];
    } else if s[0].Act? {
      assert c.stack[1..] == s[1..] + [Act(OutputAction.Epilogue)];
      EpilogueLast(table, s[1..], input, fuel);
    } else {
      var t := StepAboveEpilogue(table, s, input);
      EpilogueLast(table, t, Step(table, c).value.input, fuel - 1);
    }
  }

  /** A step taken above EPILOGUE leaves EPILOGUE at the bottom. */
  lemma StepAboveEpilogue(table: Table<OutputAction>, s: seq<GSym<OutputAction>>, input: seq<TerminalToken>)
    returns (t: seq<GSym<OutputAction>>)
    requires |s| > 0 && !s[0].Act?
    requires Step(table, Config(s + [Act(OutputAction.Epilogue)], input)).Success?
    ensures Step(table, Config(s + [Act(OutputAction.Epilogue)], input)).value.stack == t + [Act(OutputAction.Epilogue)]
  {
    var c := Config(s + [Act(OutputAction.Epilogue)], input);
    var d := Step(table, c).value;
    StepKeepsBottom(table, c);
    assert d.stack[|d.stack| - 1] == Act(OutputAction.Epilogue);
    t := d.stack[..|d.stack| - 1];
  }

  /** An accepted parse performs PROLOGUE first and EPILOGUE last. */
  lemma AcceptedParseIsFramed(input: seq<TerminalToken>, fuel: nat)
    requires Drive(OutputTable.Entry, Config(Framed, input), fuel).outcome == Accepted
    ensures var r := Drive(OutputTable.Entry, Config(Framed, input), fuel);
      |r.actions| >= 2 && r.actions[0] == OutputAction.Prologue && r.actions[|r.actions| - 1] == OutputAction.Epilogue
  {
    assert Framed == [Act(OutputAction.Prologue), Nt(Statement), Tm(EndOfInput)] + [Act(OutputAction.Epilogue)];
    EpilogueLast(OutputTable.Entry, [Act(OutputAction.Prologue), Nt(Statement), Tm(EndOfInput)], input, fuel);
  }

  /** One step that reads the table or the input, unfolded. */
  lemma Unfold(c: Config<OutputAction>, d: Config<OutputAction>, fuel: nat)
    requires |c.stack| > 0 && !c.stack[0].Act? && Step(OutputTable.Entry, c) == Success(d)
    ensures Drive(OutputTable.Entry, c, fuel + 1) == Drive(OutputTable.Entry, d, fuel)
  {
  }

  /**
   * "x :=" with nothing after it parses: the empty EXPRESSION on
   * END_OF_INPUT lets STORE run with no operand computed.
   */
  lemma EmptyAssignmentAccepted()
    ensures Drive(OutputTable.Entry, Config(Framed, [Identifier, AssignmentOp]), 5)
      == Run(Accepted, [OutputAction.Prologue, OutputAction.Store, OutputAction.Epilogue])
  {
    var tail := [Tm(EndOfInput), Act(OutputAction.Epilogue)];
    var c1 := Config([Nt(Statement)] + tail, [Identifier, AssignmentOp]);
    var c2 := Config([Tm(Identifier), Tm(AssignmentOp), Nt(Expression), Act(OutputAction.Store)] + tail,
      [Identifier, AssignmentOp]);
    var c3 := Config([Tm(AssignmentOp), Nt(Expression), Act(OutputAction.Store)] + tail, [AssignmentOp]);
    assert Framed[1..] == c1.stack && c1.stack[1..] == tail;
    assert Step(OutputTable.Entry, c1) == Success(c2);
    Unfold(c1, c2, 4);
    assert c2.stack[1..] == c3.stack;
    Unfold(c2, c3, 3);
    EmptyExpressionThenStore(tail);
  }

  /** After ":=" at end of input: EXPRESSION derives nothing, STORE runs, END_OF_INPUT is matched. */
  lemma EmptyExpressionThenStore(tail: seq<GSym<OutputAction>>)
    requires tail == [Tm(EndOfInput), Act(OutputAction.Epilogue)]
    ensures Drive(OutputTable.Entry, Config([Tm(AssignmentOp), Nt(Expression), Act(OutputAction.Store)] + tail,
      [AssignmentOp]), 3) == Run(Accepted, [OutputAction.Store, OutputAction.Epilogue])
  {
    var c3 := Config([Tm(AssignmentOp), Nt(Expression), Act(OutputAction.Store)] + tail, [AssignmentOp]);
    var c4 := Config([Nt(Expression), Act(OutputAction.Store)] + tail, []);
    var c5 := Config([Act(OutputAction.Store)] + tail, []);
    assert c3.stack[1..] == c4.stack;
    Unfold(c3, c4, 2);
    assert Entry(Expression, EndOfInput) == Some([]) && [] + c4.stack[1..] == c5.stack;
    Unfold(c4, c5, 1);
    assert c5.stack[1..] == tail;
    EndOfRun();
  }

  /** The end of every accepted run: END_OF_INPUT matched at end of input, then EPILOGUE. */
  lemma EndOfRun()
    ensures Drive(OutputTable.Entry, Config([Tm(EndOfInput), Act(OutputAction.Epilogue)], []), 1)
      == Run(Accepted, [OutputAction.Epilogue])
  {
    Unfold(Config([Tm(EndOfInput), Act(OutputAction.Epilogue)], []), Config([Act(OutputAction.Epilogue)], []), 0);
  }

  /**
   * print "s": the string constant is pushed for PRINT_SFMT, which runs
   * before PRINT_PRINTF.
   */
  lemma PrintStringActions()
    ensures Drive(OutputTable.Entry, Config(Framed, [Print, StringConst]), 5)
      == Run(Accepted, [OutputAction.Prologue, OutputAction.PrintSfmt, OutputAction.PrintPrintf, OutputAction.Epilogue])
  {
    var tail := [Act(OutputAction.PrintPrintf), Tm(EndOfInput), Act(OutputAction.Epilogue)];
    var c1 := Config([Nt(Statement), Tm(EndOfInput), Act(OutputAction.Epilogue)], [Print, StringConst]);
    var c2 := Config([Tm(Print), Nt(PrintExpression)] + tail, [Print, StringConst]);
    var c3 := Config([Nt(PrintExpression)] + tail, [StringConst]);
    assert Framed[1..] == c1.stack && c1.stack[1..] == [Tm(EndOfInput), Act(OutputAction.Epilogue)];
    assert Entry(Statement, Print) == Some([Tm(Print), Nt(PrintExpression), Act(OutputAction.PrintPrintf)]);
    assert [Tm(Print), Nt(PrintExpression), Act(OutputAction.PrintPrintf)] + c1.stack[1..] == c2.stack;
    Unfold(c1, c2, 4);
    assert c2.stack[1..] == c3.stack;
    Unfold(c2, c3, 3);
    PrintStringTail(tail);
  }

  /** PRINT_EXPRESSION on a string constant: the constant is matched, then PRINT_SFMT and PRINT_PRINTF run. */
  lemma PrintStringTail(tail: seq<GSym<OutputAction>>)
    requires tail == [Act(OutputAction.PrintPrintf), Tm(EndOfInput), Act(OutputAction.Epilogue)]
    ensures Drive(OutputTable.Entry, Config([Nt(PrintExpression)] + tail, [StringConst]), 3)
      == Run(Accepted, [OutputAction.PrintSfmt, OutputAction.PrintPrintf, OutputAction.Epilogue])
  {
    var c3 := Config([Nt(PrintExpression)] + tail, [StringConst]);
    var c4 := Config([Tm(StringConst), Act(OutputAction.PrintSfmt)] + tail, [StringConst]);
    var c5 := Config([Act(OutputAction.PrintSfmt)] + tail, []);
    assert c3.stack[1..] == tail;
    assert Entry(PrintExpression, StringConst) == Some([Tm(StringConst), Act(OutputAction.PrintSfmt)]);
    Unfold(c3, c4, 2);
    assert c4.stack[1..] == c5.stack;
    Unfold(c4, c5, 1);
    assert c5.stack[1..] == tail && tail[1..] == [Tm(EndOfInput), Act(OutputAction.Epilogue)];
    EndOfRun();
  }
}
