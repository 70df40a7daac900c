/**
 * The records of the newer snapshot (src/test/output): the lexeme the
 * lexer returns, which now carries the place it was found, and the Symbol
 * the symbol table and the register allocator work with.
 */
module OutputSymbol {
  import opened Wrappers
  import opened Grammar

  /** The value every unassigned variable number and register holds. */
  const NotAllocated: int := -1

  /** A line and a column, both counted from 1 by the lexer. */
  datatype Position = Position(line: int, column: int)

  /**
   * A lexeme: its text and token type, and for lexemes the lexer classified
   * by state (identifiers, numbers, strings, blanks, comments) the position
   * the lexer recorded for it. Keywords, operators and END_OF_INPUT carry none.
   */
  datatype Lexeme = Lexeme(value: string, tokenType: TerminalToken, position: Option<Position>)

  /** A symbol: an optional lexeme with its variable number and register. */
  class Symbol {
    var lexeme: Option<Lexeme>
    var variableNumber: int
    var register: int

    /** Symbol(lexeme) starts unallocated; Symbol() is the same with no lexeme, an anonymous temporary. */
    constructor (lexeme: Option<Lexeme>)
      ensures this.lexeme == lexeme
      ensures variableNumber == NotAllocated && register == NotAllocated
    {
      this.lexeme := lexeme;
      variableNumber := NotAllocated;
      register := NotAllocated;
    }

    method SetLexeme(l: Option<Lexeme>)
      modifies this`lexeme
      ensures lexeme == l
    {
      lexeme := l;
    }

    method SetVariableNumber(n: int)
      modifies this`variableNumber
      ensures variableNumber == n
    {
      variableNumber := n;
    }

    method SetRegister(r: int)
      modifies this`register
      ensures register == r
    {
      register := r;
    }
  }
}
