/**
 * The LL(1) parse table of the main snapshot: for every non-terminal a row
 * giving, for each lookahead terminal it has a key for, the production that
 * replaces the non-terminal, written out row by row as the parser builds
 * it. Entry(n, t) is None where the row has no key t, which the parser
 * reports as a syntax error. The lemmas state the grammar facts the table
 * encodes: where productions are empty, where an else binds, how the
 * expression non-terminals layer the operators.
 */
module ParseTable {
  import opened Wrappers
  import opened Grammar
  import opened LL

  type Production = seq<GSym<Action>>

  function StatementRow(t: TerminalToken): Option<Production> {
    match t
    case Identifier => Some([Tm(Identifier), Tm(AssignmentOp), Nt(Expression), Act(Store)])
    case If => Some([Tm(If), Act(GenLabels), Nt(BooleanExpression), Tm(Then), Nt(Statement),
      Act(GotoBegin), Act(EndLabel), Nt(ElseClause), Act(BeginLabel), Act(PopLabels), Act(ClearRegs)])
    case While => Some([Tm(While), Act(GenLabels), Act(BeginLabel), Act(ClearRegs),
      Nt(BooleanExpression), Tm(Do), Nt(Statement), Act(GotoBegin), Act(EndLabel), Act(PopLabels),
      Act(ClearRegs)])
    case Print => Some([Tm(Print), Nt(PrintExpression), Act(PrintPrintf)])
    case Begin => Some([Tm(Begin), Nt(StatementList), Tm(End)])
    case Variable => Some([Tm(Variable), Tm(Identifier), Act(Declare)])
    case Else | StatementSep | EndOfInput | End => Some([])
    case _ => None
  }

  function ElseClauseRow(t: TerminalToken): Option<Production> {
    match t
    case Else => Some([Tm(Else), Nt(Statement)])
    case StatementSep | EndOfInput | End => Some([])
    case _ => None
  }

  function StatementListRow(t: TerminalToken): Option<Production> {
    match t
    case Identifier => Some([Nt(Statement), Nt(SeparatedList)])
    case If => Some([Nt(Statement), Nt(SeparatedList)])
    case While => Some([Nt(Statement), Nt(SeparatedList)])
    case Print => Some([Nt(Statement), Nt(SeparatedList)])
    case Begin => Some([Nt(Statement), Nt(SeparatedList)])
    case Variable => Some([Nt(Statement), Nt(SeparatedList)])
    case End => Some([])
    case _ => None
  }

  function SeparatedListRow(t: TerminalToken): Option<Production> {
    match t
    case StatementSep => Some([Tm(StatementSep), Nt(Statement), Nt(SeparatedList)])
    case End => Some([])
    case _ => None
  }

  function PrintExpressionRow(t: TerminalToken): Option<Production> {
    match t
    case Identifier => Some([Nt(Expression), Act(PrintIfmt)])
    case LeftParen => Some([Nt(Expression), Act(PrintIfmt)])
    case Number => Some([Nt(Expression), Act(PrintIfmt)])
    case AdditiveOp => Some([Nt(Expression), Act(PrintIfmt)])
    case StringConst => Some([Tm(StringConst), Act(Load), Act(PrintSfmt)])
    case StatementSep | EndOfInput | Else | End => Some([])
    case _ => None
  }

  function BooleanExpressionRow(t: TerminalToken): Option<Production> {
    match t
    case Identifier => Some([Nt(Expression), Tm(RelationalOp), Act(PushOp), Nt(Expression), Act(Compute)])
    case LeftParen => Some([Nt(Expression), Tm(RelationalOp), Act(PushOp), Nt(Expression), Act(Compute)])
    case Number => Some([Nt(Expression), Tm(RelationalOp), Act(PushOp), Nt(Expression), Act(Compute)])
    case AdditiveOp => Some([Nt(Expression), Tm(RelationalOp), Act(PushOp), Nt(Expression), Act(Compute)])
    case Then | Do => Some([])
    case _ => None
  }

  function ExpressionRow(t: TerminalToken): Option<Production> {
    match t
    case Identifier => Some([Nt(Term), Nt(Addition)])
    case LeftParen => Some([Nt(Term), Nt(Addition)])
    case Number => Some([Nt(Term), Nt(Addition)])
    case AdditiveOp => Some([Nt(Term), Nt(Addition)])
    case EndOfInput | Else | Do | End | StatementSep | RelationalOp | Then | RightParen => Some([])
    case _ => None
  }

  function AdditionRow(t: TerminalToken): Option<Production> {
    match t
    case AdditiveOp => Some([Tm(AdditiveOp), Act(PushOp), Nt(Term), Act(Compute), Nt(Addition)])
    case EndOfInput | Else | Do | End | StatementSep | RelationalOp | Then | RightParen => Some([])
    case _ => None
  }

  function TermRow(t: TerminalToken): Option<Production> {
    match t
    case Identifier => Some([Nt(Factor), Nt(Multiplication)])
    case LeftParen => Some([Nt(Factor), Nt(Multiplication)])
    case Number => Some([Nt(Factor), Nt(Multiplication)])
    case AdditiveOp => Some([Nt(Factor), Nt(Multiplication)])
    case EndOfInput | Else | Do | End | StatementSep | RelationalOp | Then | RightParen | MultiplicativeOp => Some([])
    case _ => None
  }

  function MultiplicationRow(t: TerminalToken): Option<Production> {
    match t
    case MultiplicativeOp => Some([Tm(MultiplicativeOp), Act(PushOp), Nt(Factor), Act(Compute),
      Nt(Multiplication)])
    case EndOfInput | Else | Do | End | StatementSep | RelationalOp | Then | RightParen | AdditiveOp => Some([])
    case _ => None
  }

  function FactorRow(t: TerminalToken): Option<Production> {
    match t
    case Identifier => Some([Tm(Identifier), Act(Load)])
    case LeftParen => Some([Tm(LeftParen), Nt(Expression), Tm(RightParen)])
    case Number => Some([Tm(Number), Act(Load)])
    case AdditiveOp => Some([Nt(SignedTerm)])
    case EndOfInput | Else | Do | End | StatementSep | RelationalOp | Then | RightParen | MultiplicativeOp => Some([])
    case _ => None
  }

  function SignedTermRow(t: TerminalToken): Option<Production> {
    match t
    case AdditiveOp => Some([Tm(AdditiveOp), Act(PushOp), Nt(Term), Act(Sign)])
    case _ => None
  }

  /** The table: row n, key t. */
  function Entry(n: NonTerminalToken, t: TerminalToken): Option<Production> {
    match n
    case Statement => StatementRow(t)
    case ElseClause => ElseClauseRow(t)
    case StatementList => StatementListRow(t)
    case SeparatedList => SeparatedListRow(t)
    case PrintExpression => PrintExpressionRow(t)
    case BooleanExpression => BooleanExpressionRow(t)
    case Expression => ExpressionRow(t)
    case Addition => AdditionRow(t)
    case Term => TermRow(t)
    case Multiplication => MultiplicationRow(t)
    case Factor => FactorRow(t)
    case SignedTerm => SignedTermRow(t)
  }

  /** s occurs at index i of the production filed under row n, key t. */
  predicate OccursAt(s: GSym<Action>, n: NonTerminalToken, t: TerminalToken, i: nat) {
    Entry(n, t).Some? && i < |Entry(n, t).value| && Entry(n, t).value[i] == s
  }

  /** No row is empty: every non-terminal has a key (so an error message always names one). */
  lemma RowNotEmpty(n: NonTerminalToken) returns (t: TerminalToken)
    ensures Entry(n, t).Some?
  {
    t := if n == SignedTerm then AdditiveOp else if n == BooleanExpression then Then else End;
  }

  /** A production that starts with a terminal is filed under that very terminal. */
  lemma FirstTerminalIsKey(n: NonTerminalToken, t: TerminalToken)
    requires Entry(n, t).Some? && |Entry(n, t).value| > 0 && Entry(n, t).value[0].Tm?
    ensures Entry(n, t).value[0].t == t
  {
  }

  /**
   * The table is consistent with its keys: choosing productions by the
   * lookahead t never exposes a terminal other than t, nor an action, on top
   * before t itself is matched.
   */
  lemma KeysLeadToThemselves(n: NonTerminalToken, t: TerminalToken)
    requires Entry(n, t).Some?
    ensures LeadsTo(Entry, n, t, 4)
  {
    match n
    case StatementList => if t != End { assert LeadsTo(Entry, Statement, t, 3); }
    case PrintExpression => if t != StringConst { ExpressionLeadsTo(t, 3); }
    case BooleanExpression => if t != Then && t != Do { ExpressionLeadsTo(t, 3); }
    case Expression => ExpressionLeadsTo(t, 4);
    case Term => TermLeadsTo(t, 4);
    case Factor => FactorLeadsTo(t, 4);
    case _ =>
  }

  lemma FactorLeadsTo(t: TerminalToken, depth: nat)
    requires Entry(Factor, t).Some? && depth >= 1
    ensures LeadsTo(Entry, Factor, t, depth)
  {
    if t == AdditiveOp {
      assert LeadsTo(Entry, SignedTerm, t, depth - 1);
    }
  }

  lemma TermLeadsTo(t: TerminalToken, depth: nat)
    requires Entry(Term, t).Some? && depth >= 2
    ensures LeadsTo(Entry, Term, t, depth)
  {
    if Entry(Term, t) != Some([]) {
      FactorLeadsTo(t, depth - 1);
    }
  }

  lemma ExpressionLeadsTo(t: TerminalToken, depth: nat)
    requires Entry(Expression, t).Some? && depth >= 3
    ensures LeadsTo(Entry, Expression, t, depth)
  {
    if Entry(Expression, t) != Some([]) {
      TermLeadsTo(t, depth - 1);
    }
  }

  /**
   * STATEMENT derives nothing before ELSE, ';', END and end of input: a
   * program of END_OF_INPUT alone, an empty begin-end block and a ';' just
   * before end all parse.
   */
  lemma StatementMayBeEmpty(t: TerminalToken)
    requires t in {Else, StatementSep, End, EndOfInput}
    ensures Entry(Statement, t) == Some([])
  {
  }

  /**
   * ELSE_CLAUSE takes an ELSE whenever one follows and is empty otherwise,
   * so the ELSE_CLAUSE of the innermost if, which is on top of the stack
   * when an ELSE arrives, claims it.
   */
  lemma ElseClauseClaimsElse(t: TerminalToken)
    requires Entry(ElseClause, t).Some?
    ensures t == Else <==> Entry(ElseClause, t) != Some([])
    ensures Entry(ElseClause, Else) == Some([Tm(Else), Nt(Statement)])
  {
  }

  /** A relational operator occurs only in BOOLEAN_EXPRESSION, right after its first expression. */
  lemma RelationalOpOnlyInCondition(n: NonTerminalToken, t: TerminalToken, i: nat)
    requires OccursAt(Tm(RelationalOp), n, t, i)
    ensures n == BooleanExpression && i == 1 && Entry(n, t).value[0] == Nt(Expression)
  {
  }

  /** The expression non-terminals derive nothing on a relational operator: it ends the expression. */
  lemma ExpressionsStopAtRelationalOp(n: NonTerminalToken)
    requires n in {Expression, Addition, Term, Multiplication, Factor}
    ensures Entry(n, RelationalOp) == Some([])
  {
  }

  /**
   * Operator layering: an EXPRESSION is a TERM followed by ADDITION, whose
   * productions chain ADDITIVE_OP TERM pairs; a TERM is a FACTOR followed by
   * MULTIPLICATION, chaining MULTIPLICATIVE_OP FACTOR pairs; COMPUTE follows
   * each right operand. So '*' and '/' group before '+' and '-', left to right.
   */
  lemma OperatorLayering(t: TerminalToken)
    ensures Entry(Expression, t).Some? ==> Entry(Expression, t).value in {[], [Nt(Term), Nt(Addition)]}
    ensures Entry(Term, t).Some? ==> Entry(Term, t).value in {[], [Nt(Factor), Nt(Multiplication)]}
    ensures Entry(Addition, t).Some? && t != AdditiveOp ==> Entry(Addition, t) == Some([])
    ensures Entry(Addition, AdditiveOp) ==
      Some([Tm(AdditiveOp), Act(PushOp), Nt(Term), Act(Compute), Nt(Addition)])
    ensures Entry(Multiplication, t).Some? && t != MultiplicativeOp ==> Entry(Multiplication, t) == Some([])
    ensures Entry(Multiplication, MultiplicativeOp) ==
      Some([Tm(MultiplicativeOp), Act(PushOp), Nt(Factor), Act(Compute), Nt(Multiplication)])
  {
  }

  /** A multiplicative operator occurs only at the head of MULTIPLICATION's production. */
  lemma MultiplicativeOpOnlyInMultiplication(n: NonTerminalToken, t: TerminalToken, i: nat)
    requires OccursAt(Tm(MultiplicativeOp), n, t, i)
    ensures n == Multiplication && t == MultiplicativeOp && i == 0
  {
  }

  /**
   * An additive operator occurs only at the head of a production filed under
   * it: the binary operator of ADDITION and the sign of SIGNED_TERM.
   */
  lemma AdditiveOpOnlyAtHeads(n: NonTerminalToken, t: TerminalToken, i: nat)
    requires OccursAt(Tm(AdditiveOp), n, t, i)
    ensures (n == Addition || n == SignedTerm) && t == AdditiveOp && i == 0
  {
  }

  /** A leading sign makes a FACTOR a SIGNED_TERM: the operator, then a TERM, then SIGN. */
  lemma SignedFactor(t: TerminalToken)
    ensures Entry(Factor, AdditiveOp) == Some([Nt(SignedTerm)])
    ensures Entry(SignedTerm, t).Some? <==> t == AdditiveOp
    ensures Entry(SignedTerm, AdditiveOp) == Some([Tm(AdditiveOp), Act(PushOp), Nt(Term), Act(Sign)])
  {
  }

  /** GOTO_END is declared but no production uses it. */
  lemma GotoEndUnused(n: NonTerminalToken, t: TerminalToken, i: nat)
    ensures !OccursAt(Act(GotoEnd), n, t, i)
  {
  }
}
