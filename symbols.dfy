/**
 * The records the main snapshot's lexer hands to its parser: a Lexeme (a
 * piece of source text with its token type and code-generation slots), the
 * Symbol record, and the two kinds of grammar symbol the symbol table maps
 * a text to.
 */
module Symbols {
  import opened Grammar

  /** The printed form of a lexeme: the token type's name, then the text in parentheses. */
  function LexemeText(tokenType: TerminalToken, value: string): string {
    tokenType.Name() + " (" + value + ")"
  }

  /** A printed lexeme determines both its token type and its text. */
  lemma {:induction false} LexemeTextInjective(t: TerminalToken, v: string, u: TerminalToken, w: string)
    requires LexemeText(t, v) == LexemeText(u, w)
    ensures t == u && v == w
  {
    var s := LexemeText(t, v);
    var n, m := t.Name(), u.Name();
    NameHasNoBlank(t);
    NameHasNoBlank(u);
    assert s[|n|] == ' ' && LexemeText(u, w)[|m|] == ' ';
    assert |n| == |m|;
    assert n == s[..|n|] == m;
    NameInjective(t, u);
    assert v == s[|n| + 2..|s| - 1] == w;
  }

  /** A lexeme of the main snapshot: immutable text and type, mutable slots. */
  class Lexeme {
    const value: string
    const tokenType: TerminalToken
    var variableNumber: int
    var register: int

    /** The register slot is left at Java's default of 0. */
    constructor (value: string, tokenType: TerminalToken)
      ensures this.value == value && this.tokenType == tokenType
      ensures variableNumber == 0 && register == 0
    {
      this.value := value;
      this.tokenType := tokenType;
      variableNumber := 0;
      register := 0;
    }

    method SetVariableNumber(n: int)
      modifies this`variableNumber
      ensures variableNumber == n
    {
      variableNumber := n;
    }

    method SetRegister(r: int)
      modifies this`register
      ensures register == r
    {
      register := r;
    }

    function ToString(): string {
      LexemeText(tokenType, value)
    }
  }

  /** The Symbol record of the main snapshot: the lexeme is fixed, the numbers are not. */
  class Symbol {
    const lexeme: Lexeme?
    var variableNumber: int
    var register: int

    constructor Empty()
      ensures lexeme == null && variableNumber == -1 && register == -1
    {
      lexeme := null;
      variableNumber := -1;
      register := -1;
    }

    constructor (lexeme: Lexeme)
      ensures this.lexeme == lexeme && variableNumber == -1 && register == -1
    {
      this.lexeme := lexeme;
      variableNumber := -1;
      register := -1;
    }

    constructor Numbered(lexeme: Lexeme, variableNumber: int)
      ensures this.lexeme == lexeme && this.variableNumber == variableNumber && register == -1
    {
      this.lexeme := lexeme;
      this.variableNumber := variableNumber;
      register := -1;
    }

    method SetVariableNumber(n: int)
      modifies this`variableNumber
      ensures variableNumber == n
    {
      variableNumber := n;
    }

    method SetRegister(r: int)
      modifies this`register
      ensures register == r
    {
      register := r;
    }
  }

  /**
   * What the lexer's symbol table maps a text to and what it returns: a bare
   * terminal (the keywords and END_OF_INPUT) or a lexeme object.
   */
  datatype LexSymbol = Terminal(token: TerminalToken) | Lexed(lexeme: Lexeme)

  /** The token type a symbol stands for; a lexeme stands for its own type. */
  function TokenTypeOf(s: LexSymbol): TerminalToken {
    match s
    case Terminal(t) => t
    case Lexed(l) => l.tokenType
  }
}
