/**
 * One step of a table-driven LL(1) parser, shared by both snapshots. The
 * parse stack is a sequence with its top first, and the lexer's output is
 * the sequence of token types still to come. When that sequence is used up
 * the lookahead is END_OF_INPUT, because the lexer keeps answering
 * END_OF_INPUT at end of file.
 */
module LL {
  import opened Wrappers
  import opened Grammar

  /** A parse table: the production of row n under key t, if the row has that key. */
  type Table<A> = (NonTerminalToken, TerminalToken) -> Option<seq<GSym<A>>>

  /** The parse stack, top first, and the token types the lexer has yet to deliver. */
  datatype Config<A> = Config(stack: seq<GSym<A>>, input: seq<TerminalToken>)

  function Lookahead(input: seq<TerminalToken>): (t: TerminalToken)
    ensures |input| > 0 ==> t == input[0]
    ensures |input| == 0 ==> t == EndOfInput
  {
    if |input| == 0 then EndOfInput else input[0]
  }

  /** Popping the lexer's symbol: the next token type becomes the lookahead. */
  function Consume(input: seq<TerminalToken>): (rest: seq<TerminalToken>)
    ensures |input| > 0 ==> input == [input[0]] + rest
    ensures |input| == 0 ==> rest == []
  {
    if |input| == 0 then [] else input[1..]
  }

  /** Why a step fails: the row has no key for the lookahead, or the terminal on top is not the lookahead. */
  datatype StepError =
    | NoEntry(n: NonTerminalToken, lookahead: TerminalToken)
    | Mismatch(expected: TerminalToken, found: TerminalToken)

  /**
   * The step for a non-terminal or terminal on top. A non-terminal is popped
   * and its production for the lookahead pushed so that the production's
   * first symbol is the new top; a terminal equal to the lookahead is popped
   * together with the lexer's symbol.
   */
  function Step<A>(table: Table<A>, c: Config<A>): Result<Config<A>, StepError>
    requires |c.stack| > 0 && !c.stack[0].Act?
  {
    var la := Lookahead(c.input);
    if c.stack[0].Nt? then
      var p := table(c.stack[0].n, la);
      if p.Some? then Success(Config(p.value + c.stack[1..], c.input))
      else Failure(NoEntry(c.stack[0].n, la))
    else if c.stack[0].t == la then Success(Config(c.stack[1..], Consume(c.input)))
    else Failure(Mismatch(c.stack[0].t, la))
  }

  /**
   * A step rewrites only the top of the stack: whatever lay below it is
   * still at the bottom afterwards. An expansion reads no input, and a match
   * reads exactly the lookahead.
   */
  lemma StepKeepsBottom<A>(table: Table<A>, c: Config<A>)
    requires |c.stack| > 0 && !c.stack[0].Act? && Step(table, c).Success?
    ensures var d := Step(table, c).value;
      |d.stack| >= |c.stack| - 1 && d.stack[|d.stack| - (|c.stack| - 1)..] == c.stack[1..]
    ensures var d := Step(table, c).value;
      if c.stack[0].Nt? then d.input == c.input
      else c.stack[0].t == Lookahead(c.input) && d.input == Consume(c.input)
  {
    var d := Step(table, c).value;
    if c.stack[0].Nt? {
      var p := table(c.stack[0].n, Lookahead(c.input)).value;
      assert d.stack == p + c.stack[1..];
      assert d.stack[|p|..] == c.stack[1..];
    }
  }

  /** A non-terminal step fails exactly when its row has no key for the lookahead. */
  lemma ExpansionFailsOnMissingKey<A>(table: Table<A>, c: Config<A>)
    requires |c.stack| > 0 && c.stack[0].Nt?
    ensures Step(table, c).Failure? <==> table(c.stack[0].n, Lookahead(c.input)).None?
    ensures Step(table, c).Failure? ==> Step(table, c).error == NoEntry(c.stack[0].n, Lookahead(c.input))
  {
  }
  /**
   * Expanding n on lookahead t gives an empty production, or one whose first
   * symbol is t itself, or one that starts with a non-terminal which again
   * leads to t, at most depth expansions deeper.
   */
  predicate LeadsTo<A>(table: Table<A>, n: NonTerminalToken, t: TerminalToken, depth: nat)
    decreases depth
  {
    table(n, t).Some? &&
    (|table(n, t).value| == 0 ||
     match table(n, t).value[0]
     case Tm(u) => u == t
     case Nt(m) => depth > 0 && LeadsTo(table, m, t, depth - 1)
     case Act(_) => false)
  }

  /** The terminals and non-terminals of a production, its actions left out. */
  function Erased<A>(p: seq<GSym<A>>): (r: seq<GSym<()>>)
    ensures |r| <= |p|
  {
    if |p| == 0 then []
    else match p[0]
      case Tm(t) => [Tm(t)] + Erased(p[1..])
      case Nt(n) => [Nt(n)] + Erased(p[1..])
      case Act(_) => Erased(p[1..])
  }

  /** Two tables describe the same grammar: the same keys, and the same productions once actions are left out. */
  ghost predicate SameGrammar<A, B>(t1: Table<A>, t2: Table<B>, n: NonTerminalToken, t: TerminalToken) {
    t1(n, t).Some? == t2(n, t).Some? && (t1(n, t).Some? ==> Erased(t1(n, t).value) == Erased(t2(n, t).value))
  }

  /** Where one symbol stands in an erased production: its terminal or non-terminal, nothing for an action. */
  function ErasedSymbol<A>(s: GSym<A>): Option<GSym<()>> {
    match s
    case Tm(t) => Some(Tm(t))
    case Nt(n) => Some(Nt(n))
    case Act(_) => None
  }

  /** Productions that agree symbol by symbol, actions aside, describe the same grammar rule. */
  lemma {:induction false} ErasedPointwise<A, B>(p: seq<GSym<A>>, q: seq<GSym<B>>)
    requires |p| == |q| && forall i :: 0 <= i < |p| ==> ErasedSymbol(p[i]) == ErasedSymbol(q[i])
    ensures Erased(p) == Erased(q)
  {
    if |p| > 0 {
      assert ErasedSymbol(p[0]) == ErasedSymbol(q[0]);
      assert forall i :: 0 <= i < |p[1..]| ==> ErasedSymbol(p[1..][i]) == ErasedSymbol(q[1..][i]) by {
        forall i | 0 <= i < |p[1..]|
          ensures ErasedSymbol(p[1..][i]) == ErasedSymbol(q[1..][i])
        {
          assert p[1..][i] == p[i + 1] && q[1..][i] == q[i + 1];
        }
      }
      ErasedPointwise(p[1..], q[1..]);
    }
  }
}
