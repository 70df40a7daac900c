/**
 * The older Token enum of the main snapshot, which puts the terminals and
 * the non-terminals in one type. Its non-terminals expand through a parse
 * table keyed directly by the symbol on top of the lexer's stack; unlike
 * NonTerminalToken it pushes the production in list order, so the
 * production's last symbol ends on top, and on a missing key it only
 * writes "ERROR!!!" to the error stream. Its terminals pop both stacks
 * without comparing them.
 */
module LegacyToken {
  import opened Wrappers
  import opened Grammar

  /** The 34 constants: the 22 terminal names followed by the 12 non-terminal names. */
  datatype Token = Terminal(t: TerminalToken) | NonTerminal(n: NonTerminalToken)

  /** The table the non-terminal step consults: the production of row top under key lookahead, if any. */
  type TokenTable = (Token, Token) -> Option<seq<Token>>

  /** s with its order reversed. */
  function Reversed<T>(s: seq<T>): (r: seq<T>)
    ensures |r| == |s|
  {
    if |s| == 0 then [] else Reversed(s[1..]) + [s[0]]
  }

  lemma {:induction false} ReversedIndex<T>(s: seq<T>, i: nat)
    requires i < |s|
    ensures Reversed(s)[i] == s[|s| - 1 - i]
    decreases |s|
  {
    if i < |s| - 1 {
      ReversedIndex(s[1..], i);
    }
  }

  /** Reversing twice gives back the sequence. */
  lemma ReversedReversed<T>(s: seq<T>)
    ensures Reversed(Reversed(s)) == s
  {
    forall i | 0 <= i < |s|
      ensures Reversed(Reversed(s))[i] == s[i]
    {
      ReversedIndex(Reversed(s), i);
      ReversedIndex(s, |s| - 1 - i);
    }
  }

  /**
   * Pushing a list in order leaves it reversed on the stack, so a legacy
   * expansion with the production p leaves its last symbol on top, and it
   * builds the same stack as the newer expansion (production first symbol
   * on top) does with the reversed production.
   */
  lemma PushOrder<T>(p: seq<T>, rest: seq<T>)
    ensures |p| > 0 ==> (Reversed(p) + rest)[0] == p[|p| - 1]
    ensures Reversed(Reversed(p)) + rest == p + rest
  {
    if |p| > 0 {
      ReversedIndex(p, 0);
    }
    ReversedReversed(p);
  }

  class LegacyParser {
    const table: TokenTable
    /** The parse stack, top first. */
    var parseStack: seq<Token>
    /** The lexer's symbol stack, top first. */
    var lexerStack: seq<Token>
    /** The lines written to the error stream. */
    var errors: seq<string>

    constructor (table: TokenTable, lexerStack: seq<Token>)
      ensures this.table == table && parseStack == [] && this.lexerStack == lexerStack && errors == []
    {
      this.table := table;
      parseStack := [];
      this.lexerStack := lexerStack;
      errors := [];
    }

    /**
     * doTheNonTerminalThing: when the table holds a production for the top
     * and the top of the lexer's stack, pops the top and pushes the
     * production symbol by symbol in list order. Otherwise the error stream
     * gets "ERROR!!!" and nothing else changes; no exception is raised.
     */
    method NonTerminalThing()
      requires |parseStack| > 0 && parseStack[0].NonTerminal?
      modifies this`parseStack, this`errors
      ensures |old(lexerStack)| > 0 && table(old(parseStack)[0], lexerStack[0]).Some? ==>
        parseStack == Reversed(table(old(parseStack)[0], lexerStack[0]).value) + old(parseStack)[1..]
        && errors == old(errors)
      ensures !(|old(lexerStack)| > 0 && table(old(parseStack)[0], lexerStack[0]).Some?) ==>
        parseStack == old(parseStack) && errors == old(errors) + ["ERROR!!!"]
    {
      var top := parseStack[0];
      var entry := if |lexerStack| > 0 then table(top, lexerStack[0]) else None;
      if entry.Some? {
        parseStack := parseStack[1..];
        PushInOrder(entry.value);
      } else {
        errors := errors + ["ERROR!!!"];
      }
    }

    /** The for loop of doTheNonTerminalThing: each symbol of the production is pushed in turn. */
    method PushInOrder(production: seq<Token>)
      modifies this`parseStack
      ensures parseStack == Reversed(production) + old(parseStack)
    {
      var i := 0;
      while i < |production|
        invariant 0 <= i <= |production|
        invariant parseStack == Reversed(production[..i]) + old(parseStack)
      {
        PushOne(production, i);
        parseStack := [production[i]] + parseStack;
        i := i + 1;
      }
      assert production[..|production|] == production;
    }

    /**
     * The terminals' doTheThing: pops the lexer's stack and then the parse
     * stack, whatever the two symbols are. Popping an empty lexer stack
     * throws, before the parse stack is touched.
     */
    method TerminalThing() returns (r: Result<(), string>)
      requires |parseStack| > 0
      modifies this`parseStack, this`lexerStack
      ensures |old(lexerStack)| > 0 ==>
        r.Success? && lexerStack == old(lexerStack)[1..] && parseStack == old(parseStack)[1..]
      ensures |old(lexerStack)| == 0 ==>
        r.Failure? && lexerStack == old(lexerStack) && parseStack == old(parseStack)
    {
      if |lexerStack| == 0 {
        r := Failure("NoSuchElementException");
      } else {
        lexerStack := lexerStack[1..];
        parseStack := parseStack[1..];
        r := Success(());
      }
    }

    /**
     * doTheThing: every non-terminal constant delegates to the non-terminal
     * step, the others are terminals; the effect of each case on both stacks
     * and on the error stream is the one its step states.
     */
    method DoTheThing() returns (r: Result<(), string>)
      requires |parseStack| > 0
      modifies this`parseStack, this`lexerStack, this`errors
      ensures old(parseStack)[0].NonTerminal? ==> r.Success? && lexerStack == old(lexerStack)
      ensures (old(parseStack)[0].NonTerminal? && |old(lexerStack)| > 0
               && table(old(parseStack)[0], old(lexerStack)[0]).Some?) ==>
        parseStack == Reversed(table(old(parseStack)[0], old(lexerStack)[0]).value) + old(parseStack)[1..]
        && errors == old(errors)
      ensures (old(parseStack)[0].NonTerminal?
               && !(|old(lexerStack)| > 0 && table(old(parseStack)[0], old(lexerStack)[0]).Some?)) ==>
        parseStack == old(parseStack) && errors == old(errors) + ["ERROR!!!"]
      ensures old(parseStack)[0].Terminal? ==> errors == old(errors) && (r.Success? <==> |old(lexerStack)| > 0)
      ensures old(parseStack)[0].Terminal? && |old(lexerStack)| > 0 ==>
        lexerStack == old(lexerStack)[1..] && parseStack == old(parseStack)[1..]
      ensures old(parseStack)[0].Terminal? && |old(lexerStack)| == 0 ==>
        lexerStack == old(lexerStack) && parseStack == old(parseStack)
    {
      if parseStack[0].NonTerminal? {
        NonTerminalThing();
        r := Success(());
      } else {
        r := TerminalThing();
      }
    }
  }

  /** Pushing the next symbol of the list extends the reversed prefix on top. */
  lemma PushOne<T>(p: seq<T>, i: nat)
    requires i < |p|
    ensures Reversed(p[..i + 1]) == [p[i]] + Reversed(p[..i])
  {
    var q := p[..i + 1];
    assert q[1..] == p[1..i + 1];
    forall j | 0 <= j < i + 1
      ensures Reversed(q)[j] == ([p[i]] + Reversed(p[..i]))[j]
    {
      ReversedIndex(q, j);
      if j > 0 {
        ReversedIndex(p[..i], j - 1);
      }
    }
  }
}
