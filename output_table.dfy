/**
 * The parse table of the newer snapshot (src/test/output). Its grammar is
 * that of the main snapshot, row for row and key for key; the actions in
 * its productions differ: there is no PUSH_OP and no LOAD, COMPUTE follows
 * each right operand, and the parse is framed by PROLOGUE and EPILOGUE.
 */
module OutputTable {
  import opened Wrappers
  import opened Grammar
  import opened LL
  import ParseTable

  /** The semantic actions the newer productions and parse loop name. */
  datatype OutputAction =
    | Prologue | Epilogue | BeginLabel | ClearRegs | Compute | Declare | EndLabel
    | GenLabels | GotoBegin | PopLabels | PrintIfmt | PrintPrintf | PrintSfmt | Sign | Store

  type Production = seq<GSym<OutputAction>>

  function StatementRow(t: TerminalToken): Option<Production> {
    match t
    case Identifier => Some([Tm(Identifier), Tm(AssignmentOp), Nt(Expression), Act(OutputAction.Store)])
    case If => Some([Tm(If), Act(OutputAction.GenLabels), Nt(BooleanExpression), Tm(Then), Nt(Statement),
      Act(OutputAction.GotoBegin), Act(OutputAction.EndLabel), Nt(ElseClause), Act(OutputAction.BeginLabel),
      Act(OutputAction.PopLabels), Act(OutputAction.ClearRegs)])
    case While => Some([Tm(While), Act(OutputAction.GenLabels), Act(OutputAction.BeginLabel),
      Act(OutputAction.ClearRegs), Nt(BooleanExpression), Tm(Do), Nt(Statement), Act(OutputAction.GotoBegin),
      Act(OutputAction.EndLabel), Act(OutputAction.PopLabels), Act(OutputAction.ClearRegs)])
    case Print => Some([Tm(Print), Nt(PrintExpression), Act(OutputAction.PrintPrintf)])
    case Begin => Some([Tm(Begin), Nt(StatementList), Tm(End)])
    case Variable => Some([Tm(Variable), Tm(Identifier), Act(OutputAction.Declare)])
    case Else | StatementSep | EndOfInput | End => Some([])
    case _ => None
  }

  function ElseClauseRow(t: TerminalToken): Option<Production> {
    match t
    case Else => Some([Tm(Else), Nt(Statement)])
    case StatementSep | EndOfInput | End => Some([])
    case _ => None
  }

  function StatementListRow(t: TerminalToken): Option<Production> {
    match t
    case Identifier | If | While | Print | Begin | Variable => Some([Nt(Statement), Nt(SeparatedList)])
    case End => Some([])
    case _ => None
  }

  function SeparatedListRow(t: TerminalToken): Option<Production> {
    match t
    case StatementSep => Some([Tm(StatementSep), Nt(Statement), Nt(SeparatedList)])
    case End => Some([])
    case _ => None
  }

  function PrintExpressionRow(t: TerminalToken): Option<Production> {
    match t
    case Identifier | LeftParen | Number | AdditiveOp => Some([Nt(Expression), Act(OutputAction.PrintIfmt)])
    case StringConst => Some([Tm(StringConst), Act(OutputAction.PrintSfmt)])
    case StatementSep | EndOfInput | Else | End => Some([])
    case _ => None
  }

  function BooleanExpressionRow(t: TerminalToken): Option<Production> {
    match t
    case Identifier | LeftParen | Number | AdditiveOp =>
      Some([Nt(Expression), Tm(RelationalOp), Nt(Expression), Act(OutputAction.Compute)])
    case Then | Do => Some([])
    case _ => None
  }

  function ExpressionRow(t: TerminalToken): Option<Production> {
    match t
    case Identifier | LeftParen | Number | AdditiveOp => Some([Nt(Term), Nt(Addition)])
    case EndOfInput | Else | Do | End | StatementSep | RelationalOp | Then | RightParen => Some([])
    case _ => None
  }

  function AdditionRow(t: TerminalToken): Option<Production> {
    match t
    case AdditiveOp => Some([Tm(AdditiveOp), Nt(Term), Act(OutputAction.Compute), Nt(Addition)])
    case EndOfInput | Else | Do | End | StatementSep | RelationalOp | Then | RightParen => Some([])
    case _ => None
  }

  function TermRow(t: TerminalToken): Option<Production> {
    match t
    case Identifier | LeftParen | Number | AdditiveOp => Some([Nt(Factor), Nt(Multiplication)])
    case EndOfInput | Else | Do | End | StatementSep | RelationalOp | Then | RightParen | MultiplicativeOp => Some([])
    case _ => None
  }

  function MultiplicationRow(t: TerminalToken): Option<Production> {
    match t
    case MultiplicativeOp =>
      Some([Tm(MultiplicativeOp), Nt(Factor), Act(OutputAction.Compute), Nt(Multiplication)])
    case EndOfInput | Else | Do | End | StatementSep | RelationalOp | Then | RightParen | AdditiveOp => Some([])
    case _ => None
  }

  function FactorRow(t: TerminalToken): Option<Production> {
    match t
    case Identifier => Some([Tm(Identifier)])
    case LeftParen => Some([Tm(LeftParen), Nt(Expression), Tm(RightParen)])
    case Number => Some([Tm(Number)])
    case AdditiveOp => Some([Nt(SignedTerm)])
    case EndOfInput | Else | Do | End | StatementSep | RelationalOp | Then | RightParen | MultiplicativeOp => Some([])
    case _ => None
  }

  function SignedTermRow(t: TerminalToken): Option<Production> {
    match t
    case AdditiveOp => Some([Tm(AdditiveOp), Nt(Term), Act(OutputAction.Sign)])
    case _ => None
  }

  /** The table: row n, key t. */
  function Entry(n: NonTerminalToken, t: TerminalToken): Option<Production> {
    match n
    case Statement => StatementRow(t)
    case ElseClause => ElseClauseRow(t)
    case StatementList => StatementListRow(t)
    case SeparatedList => SeparatedListRow(t)
    case PrintExpression => PrintExpressionRow(t)
    case BooleanExpression => BooleanExpressionRow(t)
    case Expression => ExpressionRow(t)
    case Addition => AdditionRow(t)
    case Term => TermRow(t)
    case Multiplication => MultiplicationRow(t)
    case Factor => FactorRow(t)
    case SignedTerm => SignedTermRow(t)
  }

  /** s occurs at index i of the production filed under row n, key t. */
  predicate OccursAt(s: GSym<OutputAction>, n: NonTerminalToken, t: TerminalToken, i: nat) {
    Entry(n, t).Some? && i < |Entry(n, t).value| && Entry(n, t).value[i] == s
  }

  /**
   * The two snapshots parse the same language the same way: every row has
   * the same keys as the main table's, and each production, its actions
   * left out, is the main table's.
   */
  lemma SameGrammarAsMain(n: NonTerminalToken, t: TerminalToken)
    ensures SameGrammar(ParseTable.Entry, Entry, n, t)
  {
    match n
    case Statement => StatementSame(t);
    case BooleanExpression => BooleanExpressionSame(t);
    case PrintExpression => PrintExpressionSame(t);
    case Addition => AdditionSame(t);
    case Multiplication => MultiplicationSame(t);
    case Factor => FactorSame(t);
    case SignedTerm => SignedTermSame(t);
    case ElseClause | StatementList | SeparatedList => StatementRowsSame(n, t);
    case Expression | Term => ExpressionRowsSame(n, t);
  }

  lemma StatementSame(t: TerminalToken)
    ensures SameGrammar(ParseTable.Entry, Entry, Statement, t)
  {
    if Entry(Statement, t).Some? {
      ErasedPointwise(ParseTable.Entry(Statement, t).value, Entry(Statement, t).value);
    }
  }

  lemma StatementRowsSame(n: NonTerminalToken, t: TerminalToken)
    requires n in {ElseClause, StatementList, SeparatedList}
    ensures SameGrammar(ParseTable.Entry, Entry, n, t)
  {
  }

  lemma ExpressionRowsSame(n: NonTerminalToken, t: TerminalToken)
    requires n in {Expression, Term}
    ensures SameGrammar(ParseTable.Entry, Entry, n, t)
  {
  }

  lemma BooleanExpressionSame(t: TerminalToken)
    ensures SameGrammar(ParseTable.Entry, Entry, BooleanExpression, t)
  {
    if Entry(BooleanExpression, t) != Some([]) && Entry(BooleanExpression, t).Some? {
      assert Erased(Entry(BooleanExpression, t).value) == [Nt(Expression), Tm(RelationalOp), Nt(Expression)];
    }
  }

  lemma PrintExpressionSame(t: TerminalToken)
    ensures SameGrammar(ParseTable.Entry, Entry, PrintExpression, t)
  {
    if t == StringConst {
      assert Erased(Entry(PrintExpression, t).value) == [Tm(StringConst)];
    }
  }

  lemma AdditionSame(t: TerminalToken)
    ensures SameGrammar(ParseTable.Entry, Entry, Addition, t)
  {
    if t == AdditiveOp {
      assert Erased(Entry(Addition, t).value) == [Tm(AdditiveOp), Nt(Term), Nt(Addition)];
    }
  }

  lemma MultiplicationSame(t: TerminalToken)
    ensures SameGrammar(ParseTable.Entry, Entry, Multiplication, t)
  {
    if t == MultiplicativeOp {
      assert Erased(Entry(Multiplication, t).value) == [Tm(MultiplicativeOp), Nt(Factor), Nt(Multiplication)];
    }
  }

  lemma FactorSame(t: TerminalToken)
    ensures SameGrammar(ParseTable.Entry, Entry, Factor, t)
  {
    if t == Identifier || t == Number {
      assert Erased(Entry(Factor, t).value) == [Tm(t)];
    }
  }

  lemma SignedTermSame(t: TerminalToken)
    ensures SameGrammar(ParseTable.Entry, Entry, SignedTerm, t)
  {
    if t == AdditiveOp {
      assert Erased(Entry(SignedTerm, t).value) == [Tm(AdditiveOp), Nt(Term)];
    }
  }

  /** A production that starts with a terminal is filed under that very terminal. */
  lemma FirstTerminalIsKey(n: NonTerminalToken, t: TerminalToken)
    requires Entry(n, t).Some? && |Entry(n, t).value| > 0 && Entry(n, t).value[0].Tm?
    ensures Entry(n, t).value[0].t == t
  {
  }

  /**
   * As in the main table, choosing productions by the lookahead t never
   * exposes a terminal other than t, nor an action, on top before t itself
   * is matched.
   */
  lemma KeysLeadToThemselves(n: NonTerminalToken, t: TerminalToken)
    requires Entry(n, t).Some?
    ensures LeadsTo(Entry, n, t, 4)
  {
    match n
    case StatementList => if t != End { assert LeadsTo(Entry, Statement, t, 3); }
    case PrintExpression => if t != StringConst { ExpressionLeadsTo(t, 3); }
    case BooleanExpression => if t != Then && t != Do { ExpressionLeadsTo(t, 3); }
    case Expression => ExpressionLeadsTo(t, 4);
    case Term => TermLeadsTo(t, 4);
    case Factor => FactorLeadsTo(t, 4);
    case _ =>
  }

  lemma FactorLeadsTo(t: TerminalToken, depth: nat)
    requires Entry(Factor, t).Some? && depth >= 1
    ensures LeadsTo(Entry, Factor, t, depth)
  {
    if t == AdditiveOp {
      assert LeadsTo(Entry, SignedTerm, t, depth - 1);
    }
  }

  lemma TermLeadsTo(t: TerminalToken, depth: nat)
    requires Entry(Term, t).Some? && depth >= 2
    ensures LeadsTo(Entry, Term, t, depth)
  {
    if Entry(Term, t) != Some([]) {
      FactorLeadsTo(t, depth - 1);
    }
  }

  lemma ExpressionLeadsTo(t: TerminalToken, depth: nat)
    requires Entry(Expression, t).Some? && depth >= 3
    ensures LeadsTo(Entry, Expression, t, depth)
  {
    if Entry(Expression, t) != Some([]) {
      TermLeadsTo(t, depth - 1);
    }
  }

  /**
   * COMPUTE comes right after the second operand of every binary operator:
   * after the TERM of an ADDITIVE_OP, the FACTOR of a MULTIPLICATIVE_OP and
   * the right-hand EXPRESSION of a RELATIONAL_OP; each occurrence of COMPUTE
   * is one of these.
   */
  lemma ComputeFollowsRightOperand(n: NonTerminalToken, t: TerminalToken, i: nat)
    requires OccursAt(Act(OutputAction.Compute), n, t, i)
    ensures i >= 2
    ensures Entry(n, t).value[i - 2] in {Tm(AdditiveOp), Tm(MultiplicativeOp), Tm(RelationalOp)}
    ensures Entry(n, t).value[i - 1] ==
      match Entry(n, t).value[i - 2]
      case Tm(AdditiveOp) => Nt(Term)
      case Tm(MultiplicativeOp) => Nt(Factor)
      case _ => Nt(Expression)
  {
  }

  /**
   * The expression non-terminals all have an empty production on the keys
   * that may follow an expression, so an assignment or a print whose
   * expression is missing passes the table (see OutputParser.EmptyAssignmentAccepted).
   */
  lemma ExpressionMayBeEmpty(t: TerminalToken)
    requires t in {EndOfInput, Else, Do, End, StatementSep, RelationalOp, Then, RightParen}
    ensures Entry(Expression, t) == Some([]) && Entry(Term, t) == Some([]) && Entry(Factor, t) == Some([])
  {
  }
}
