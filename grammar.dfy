/**
 * The vocabulary of the HansenLite grammar: the terminal tokens the lexer
 * produces, the non-terminals of the LL(1) grammar and the semantic actions
 * a production can carry. A grammar symbol is one of the three.
 */
module Grammar {

  /** The 22 terminal tokens, in declaration order. */
  datatype TerminalToken =
    | Variable | Identifier | Number | Print | If | Then | Else | While | Do
    | Begin | End | StringConst | MultiplicativeOp | RelationalOp | AssignmentOp
    | AdditiveOp | StatementSep | LeftParen | RightParen | Whitespace | Comment
    | EndOfInput
  {
    /** The constant's name, which is what the enum's toString prints. */
    function Name(): (s: string)
      ensures |s| >= 2
    {
      match this
      case Variable => "VARIABLE"
      case Identifier => "IDENTIFIER"
      case Number => "NUMBER"
      case Print => "PRINT"
      case If => "IF"
      case Then => "THEN"
      case Else => "ELSE"
      case While => "WHILE"
      case Do => "DO"
      case Begin => "BEGIN"
      case End => "END"
      case StringConst => "STRING_CONST"
      case MultiplicativeOp => "MULTIPLICATIVE_OP"
      case RelationalOp => "RELATIONAL_OP"
      case AssignmentOp => "ASSIGNMENT_OP"
      case AdditiveOp => "ADDITIVE_OP"
      case StatementSep => "STATEMENT_SEP"
      case LeftParen => "LEFT_PAREN"
      case RightParen => "RIGHT_PAREN"
      case Whitespace => "WHITESPACE"
      case Comment => "COMMENT"
      case EndOfInput => "END_OF_INPUT"
    }
  }

  const AllTerminals: seq<TerminalToken> :=
    [Variable, Identifier, Number, Print, If, Then, Else, While, Do, Begin, End,
     StringConst, MultiplicativeOp, RelationalOp, AssignmentOp, AdditiveOp,
     StatementSep, LeftParen, RightParen, Whitespace, Comment, EndOfInput]

  /** The 12 non-terminals, in declaration order. */
  datatype NonTerminalToken =
    | Statement | ElseClause | StatementList | SeparatedList | PrintExpression
    | BooleanExpression | Expression | Addition | Term | Multiplication
    | Factor | SignedTerm

  const AllNonTerminals: seq<NonTerminalToken> :=
    [Statement, ElseClause, StatementList, SeparatedList, PrintExpression,
     BooleanExpression, Expression, Addition, Term, Multiplication, Factor,
     SignedTerm]

  /** The 16 semantic actions of the snapshot whose actions do nothing. */
  datatype Action =
    | BeginLabel | ClearRegs | Compute | Declare | EndLabel | GenLabels
    | GotoBegin | GotoEnd | Load | PopLabels | PrintIfmt | PrintPrintf
    | PrintSfmt | PushOp | Sign | Store

  const AllActions: seq<Action> :=
    [BeginLabel, ClearRegs, Compute, Declare, EndLabel, GenLabels, GotoBegin,
     GotoEnd, Load, PopLabels, PrintIfmt, PrintPrintf, PrintSfmt, PushOp, Sign,
     Store]

  /**
   * A symbol on the parse stack: a terminal, a non-terminal or an action.
   * The action vocabulary is a parameter because the two snapshots of the
   * parser use different action enums.
   */
  datatype GSym<A> = Tm(t: TerminalToken) | Nt(n: NonTerminalToken) | Act(a: A)

  /** The enumerations list every constant, each once: 22 terminals, 12 non-terminals and 16 actions. */
  lemma Vocabulary()
    ensures |AllTerminals| == 22 && |AllNonTerminals| == 12 && |AllActions| == 16
    ensures forall t: TerminalToken :: t in AllTerminals
    ensures forall n: NonTerminalToken :: n in AllNonTerminals
    ensures forall a: Action :: a in AllActions
    ensures forall i, j :: 0 <= i < j < |AllTerminals| ==> AllTerminals[i] != AllTerminals[j]
    ensures forall i, j :: 0 <= i < j < |AllNonTerminals| ==> AllNonTerminals[i] != AllNonTerminals[j]
    ensures forall i, j :: 0 <= i < j < |AllActions| ==> AllActions[i] != AllActions[j]
  {
    forall t: TerminalToken ensures t in AllTerminals {
      TerminalListed(t);
    }
    forall n: NonTerminalToken ensures n in AllNonTerminals {
      NonTerminalListed(n);
    }
    forall a: Action ensures a in AllActions {
      ActionListed(a);
    }
  }

  lemma TerminalListed(t: TerminalToken)
    ensures t in AllTerminals
  {
    match t
    case Variable => case Identifier => case Number => case Print =>
    case If => case Then => case Else => case While => case Do => case Begin =>
    case End => case StringConst => case MultiplicativeOp => case RelationalOp =>
    case AssignmentOp => case AdditiveOp => case StatementSep => case LeftParen =>
    case RightParen => case Whitespace => case Comment => case EndOfInput =>
  }

  lemma NonTerminalListed(n: NonTerminalToken)
    ensures n in AllNonTerminals
  {
    match n
    case Statement => case ElseClause => case StatementList => case SeparatedList =>
    case PrintExpression => case BooleanExpression => case Expression => case Addition =>
    case Term => case Multiplication => case Factor => case SignedTerm =>
  }

  lemma ActionListed(a: Action)
    ensures a in AllActions
  {
    match a
    case BeginLabel => case ClearRegs => case Compute => case Declare =>
    case EndLabel => case GenLabels => case GotoBegin => case GotoEnd =>
    case Load => case PopLabels => case PrintIfmt => case PrintPrintf =>
    case PrintSfmt => case PushOp => case Sign => case Store =>
  }

  /** No name contains a blank, so a blank ends the name in a printed lexeme. */
  lemma NameHasNoBlank(t: TerminalToken)
    ensures ' ' !in t.Name()
  {
    match t
    case Variable => case Identifier => case Number => case Print =>
    case If => case Then => case Else => case While => case Do => case Begin =>
    case End => case StringConst => case MultiplicativeOp => case RelationalOp =>
    case AssignmentOp => case AdditiveOp => case StatementSep => case LeftParen =>
    case RightParen => case Whitespace => case Comment => case EndOfInput =>
  }

  /** Different terminals print differently, so a name identifies its token. */
  lemma {:induction false} NameInjective(t: TerminalToken, u: TerminalToken)
    requires t.Name() == u.Name()
    ensures t == u
  {
    var s := t.Name();
    assert s[0] == u.Name()[0] && |s| == |u.Name()|;
    if |s| > 2 { assert s[2] == u.Name()[2]; }
    if |s| > 5 { assert s[5] == u.Name()[5] && s[3] == u.Name()[3]; }
  }
}
