/**
 * The lexer's deterministic finite automaton: its 21 states, which of them
 * accept, the transition table keyed by normalised characters, the keyword
 * table the symbol table starts with, and the language each state
 * recognises. Both snapshots of the lexical analyser share this automaton.
 */
module Dfa {
  import opened Wrappers
  import Grammar

  datatype State =
    | Start | Symbol | Colon | AssignmentOp | Number | AdditiveOp
    | MultiplicativeOp | LeftParen | RightParen | StatementSep | Whitespace
    | EqualTo | NotEqualTo | GreaterThan | GreaterThanEqualTo | LessThan
    | LessThanEqualTo | InComment | InString | Comment | StringConst
  {
    /** Every state accepts except the four that are overridden to refuse. */
    predicate IsAccepting() {
      match this
      case Start | Colon | InComment | InString => false
      case _ => true
    }
  }

  /** START, COLON, IN_COMMENT and IN_STRING refuse; COMMENT and STRING_CONST, which close the last two, accept. */
  lemma RefusingStates(q: State)
    ensures !q.IsAccepting() <==> q in {Start, Colon, InComment, InString}
    ensures Comment.IsAccepting() && StringConst.IsAccepting()
  {
  }

  /** The character that stands for "end of input" in the Java reader (-1 cast to char). */
  const EmptyBuf: char := '\U{FFFF}'

  predicate IsDigit(c: char) { '0' <= c <= '9' }
  predicate IsLetter(c: char) { 'a' <= c <= 'z' || 'A' <= c <= 'Z' }
  predicate IsIdentChar(c: char) { IsLetter(c) || IsDigit(c) || c == '_' }
  predicate IsBlank(c: char) { c == ' ' || c == '\r' || c == '\n' || c == '\t' }

  /** Digits stand for '0' and letters for 'a' before the table is consulted. */
  function Normalize(c: char): (d: char)
    ensures IsDigit(c) ==> d == '0'
    ensures IsLetter(c) ==> d == 'a'
    ensures !IsDigit(c) && !IsLetter(c) ==> d == c
  {
    if IsDigit(c) then '0' else if IsLetter(c) then 'a' else c
  }

  /**
   * Normalising keeps a character's class: digits stay digits, letters stay
   * letters, line feeds and U+FFFF stay themselves, two characters of one
   * class normalise alike, and a normalised character normalises to itself.
   */
  lemma NormalizeKeepsClass(c: char, e: char)
    ensures IsDigit(Normalize(c)) <==> IsDigit(c)
    ensures IsLetter(Normalize(c)) <==> IsLetter(c)
    ensures (Normalize(c) == '\n') <==> (c == '\n')
    ensures (Normalize(c) == EmptyBuf) <==> (c == EmptyBuf)
    ensures Normalize(Normalize(c)) == Normalize(c)
    ensures (IsDigit(c) && IsDigit(e)) || (IsLetter(c) && IsLetter(e)) ==> Normalize(c) == Normalize(e)
  {
  }

  /** The state table: the transition of a state on a normalised character, if any. */
  function Transition(q: State, c: char): Option<State> {
    match q
    case Start =>
      if IsBlank(c) then Some(Whitespace)
      else if c == 'a' then Some(Symbol)
      else if c == '0' then Some(Number)
      else if c == '+' || c == '-' then Some(AdditiveOp)
      else if c == '*' || c == '/' then Some(MultiplicativeOp)
      else if c == '(' then Some(LeftParen)
      else if c == ')' then Some(RightParen)
      else if c == ';' then Some(StatementSep)
      else if c == '=' then Some(EqualTo)
      else if c == '>' then Some(GreaterThan)
      else if c == '<' then Some(LessThan)
      else if c == '{' then Some(InComment)
      else if c == '"' then Some(InString)
      else if c == ':' then Some(Colon)
      else None
    case Symbol => if c == 'a' || c == '0' || c == '_' then Some(Symbol) else None
    case Number => if c == '0' then Some(Number) else None
    case GreaterThan => if c == '=' then Some(GreaterThanEqualTo) else None
    case LessThan =>
      if c == '>' then Some(NotEqualTo)
      else if c == '=' then Some(LessThanEqualTo)
      else None
    case Colon => if c == '=' then Some(AssignmentOp) else None
    case _ => None
  }

  /**
   * One step of the scanning loop on a raw character: inside a comment or a
   * string every character is taken (the closing '}' or '"' moves to the
   * final state), elsewhere the table decides.
   */
  function Delta(q: State, c: char): Option<State> {
    if q == InComment then Some(if Normalize(c) == '}' then Comment else InComment)
    else if q == InString then Some(if Normalize(c) == '"' then StringConst else InString)
    else Transition(q, Normalize(c))
  }

  /** The state the automaton reaches from START on t, or None if it gets stuck. */
  function Run(t: string): Option<State>
    decreases |t|
  {
    if t == [] then Some(Start)
    else match Run(t[..|t| - 1])
      case None => None
      case Some(q) => Delta(q, t[|t| - 1])
  }

  predicate AllIdentChars(t: string, from: nat) {
    forall i :: from <= i < |t| ==> IsIdentChar(t[i])
  }

  predicate NoneEqual(t: string, from: nat, upTo: int, c: char) {
    forall i :: from <= i < upTo && i < |t| ==> t[i] != c
  }

  /** The language of each state: the texts on which Run ends in it. */
  predicate Recognizes(q: State, t: string) {
    match q
    case Start => t == []
    case Symbol => |t| >= 1 && IsLetter(t[0]) && AllIdentChars(t, 1)
    case Number => |t| >= 1 && forall i :: 0 <= i < |t| ==> IsDigit(t[i])
    case Colon => t == ":"
    case AssignmentOp => t == ":="
    case AdditiveOp => t == "+" || t == "-"
    case MultiplicativeOp => t == "*" || t == "/"
    case LeftParen => t == "("
    case RightParen => t == ")"
    case StatementSep => t == ";"
    case Whitespace => |t| == 1 && IsBlank(t[0])
    case EqualTo => t == "="
    case NotEqualTo => t == "<>"
    case GreaterThan => t == ">"
    case GreaterThanEqualTo => t == ">="
    case LessThan => t == "<"
    case LessThanEqualTo => t == "<="
    case InComment => |t| >= 1 && t[0] == '{' && NoneEqual(t, 1, |t|, '}')
    case Comment => |t| >= 2 && t[0] == '{' && t[|t| - 1] == '}' && NoneEqual(t, 1, |t| - 1, '}')
    case InString => |t| >= 1 && t[0] == '"' && NoneEqual(t, 1, |t|, '"')
    case StringConst => |t| >= 2 && t[0] == '"' && t[|t| - 1] == '"' && NoneEqual(t, 1, |t| - 1, '"')
  }

  /** One step of the automaton keeps Run and Recognizes in agreement. */
  lemma StepRecognizes(q: State, t: string, c: char, q': State)
    requires Recognizes(q, t) && Delta(q, c) == Some(q')
    ensures Recognizes(q', t + [c])
  {
    if q == Start {
      assert t + [c] == [c];
      StepFromStart(c, q');
    } else if q in {Symbol, Number, InComment, InString} {
      StepInWord(q, t, c, q');
    } else {
      StepInOperator(q, t, c, q');
    }
  }

  lemma StepFromStart(c: char, q': State)
    requires Delta(Start, c) == Some(q')
    ensures Recognizes(q', [c])
  {
  }

  lemma StepInWord(q: State, t: string, c: char, q': State)
    requires q in {Symbol, Number, InComment, InString}
    requires Recognizes(q, t) && Delta(q, c) == Some(q')
    ensures Recognizes(q', t + [c])
  {
    var u := t + [c];
    assert u[..|t|] == t && u[|t|] == c;
    assert forall i :: 0 <= i < |t| ==> u[i] == t[i];
  }

  lemma StepInOperator(q: State, t: string, c: char, q': State)
    requires q !in {Start, Symbol, Number, InComment, InString}
    requires Recognizes(q, t) && Delta(q, c) == Some(q')
    ensures Recognizes(q', t + [c])
  {
  }

  /** Whatever text reaches a state belongs to that state's language. */
  lemma {:induction false} RunRecognizes(t: string)
    requires Run(t).Some?
    ensures Recognizes(Run(t).value, t)
    decreases |t|
  {
    if t != [] {
      var p := t[..|t| - 1];
      RunRecognizes(p);
      assert t == p + [t[|t| - 1]];
      StepRecognizes(Run(p).value, p, t[|t| - 1], Run(t).value);
    }
  }

  /** The state that the last step of a recognised text came from. */
  lemma PreviousState(q: State, t: string) returns (p: State)
    requires Recognizes(q, t) && t != []
    ensures Recognizes(p, t[..|t| - 1]) && Delta(p, t[|t| - 1]) == Some(q)
  {
    var u := t[..|t| - 1];
    assert forall i :: 0 <= i < |u| ==> u[i] == t[i];
    match q
    case Symbol => p := if |t| == 1 then Start else Symbol;
    case Number => p := if |t| == 1 then Start else Number;
    case AssignmentOp => p := Colon;
    case NotEqualTo => p := LessThan;
    case GreaterThanEqualTo => p := GreaterThan;
    case LessThanEqualTo => p := LessThan;
    case InComment => p := if |t| == 1 then Start else InComment;
    case Comment => p := InComment;
    case InString => p := if |t| == 1 then Start else InString;
    case StringConst => p := InString;
    case _ => p := Start;
  }

  /** Every text of a state's language drives the automaton to that state. */
  lemma {:induction false} RecognizesRun(q: State, t: string)
    requires Recognizes(q, t)
    ensures Run(t) == Some(q)
    decreases |t|
  {
    if t != [] {
      var p := PreviousState(q, t);
      RecognizesRun(p, t[..|t| - 1]);
    }
  }

  /** Run and Recognizes agree in both directions. */
  lemma RunIff(q: State, t: string)
    ensures Run(t) == Some(q) <==> Recognizes(q, t)
  {
    if Run(t) == Some(q) { RunRecognizes(t); }
    if Recognizes(q, t) { RecognizesRun(q, t); }
  }

  /** Once the automaton is stuck it stays stuck. */
  lemma {:induction false} StuckStaysStuck(t: string, u: string)
    requires Run(t) == None
    ensures Run(t + u) == None
    decreases |u|
  {
    if u != [] {
      var v := u[..|u| - 1];
      assert t + u != [] && (t + u)[..|t + u| - 1] == t + v;
      StuckStaysStuck(t, v);
    } else {
      assert t + u == t;
    }
  }

  /**
   * Maximal munch: when an accepting state has no transition on the next
   * character, no longer text starting with the same characters reaches any
   * state, so the lexeme the scanner stops at is the longest one available.
   */
  lemma {:induction false} LongestMatch(t: string, c: char, u: string)
    requires Run(t).Some? && Run(t).value.IsAccepting()
    requires Transition(Run(t).value, Normalize(c)) == None
    ensures Run(t + [c] + u) == None
  {
    var q := Run(t).value;
    assert (t + [c])[..|t|] == t;
    assert Delta(q, c) == None;
    StuckStaysStuck(t + [c], u);
  }

  /** Digits and letters are indistinguishable to the table beyond their class. */
  lemma ClassDecides(q: State, c: char, d: char)
    requires (IsDigit(c) && IsDigit(d)) || (IsLetter(c) && IsLetter(d))
    ensures Delta(q, c) == Delta(q, d)
  {
  }

  /** The reserved words, operators and punctuation the symbol table starts with. */
  const Keywords: map<string, Grammar.TerminalToken> := map[
    "variable" := Grammar.TerminalToken.Variable, "print" := Grammar.TerminalToken.Print,
    "if" := Grammar.TerminalToken.If, "then" := Grammar.TerminalToken.Then,
    "else" := Grammar.TerminalToken.Else, "while" := Grammar.TerminalToken.While,
    "do" := Grammar.TerminalToken.Do, "begin" := Grammar.TerminalToken.Begin,
    "end" := Grammar.TerminalToken.End,
    "+" := Grammar.TerminalToken.AdditiveOp, "-" := Grammar.TerminalToken.AdditiveOp,
    "<" := Grammar.TerminalToken.RelationalOp, "<=" := Grammar.TerminalToken.RelationalOp,
    "<>" := Grammar.TerminalToken.RelationalOp, "=" := Grammar.TerminalToken.RelationalOp,
    ">" := Grammar.TerminalToken.RelationalOp, ">=" := Grammar.TerminalToken.RelationalOp,
    "*" := Grammar.TerminalToken.MultiplicativeOp, "/" := Grammar.TerminalToken.MultiplicativeOp,
    ":=" := Grammar.TerminalToken.AssignmentOp, ";" := Grammar.TerminalToken.StatementSep,
    "(" := Grammar.TerminalToken.LeftParen, ")" := Grammar.TerminalToken.RightParen]

  /** The states whose lexemes are created when their text is not already a table entry. */
  predicate HasOwnType(q: State) {
    q == Symbol || q == Whitespace || q == Comment || q == StringConst || q == Number
  }

  /** The token type of a fresh lexeme created for a text ending in q. */
  function OwnType(q: State): (t: Grammar.TerminalToken)
    requires HasOwnType(q)
    ensures t != Grammar.TerminalToken.EndOfInput
  {
    match q
    case Symbol => Grammar.TerminalToken.Identifier
    case Whitespace => Grammar.TerminalToken.Whitespace
    case Comment => Grammar.TerminalToken.Comment
    case StringConst => Grammar.TerminalToken.StringConst
    case Number => Grammar.TerminalToken.Number
  }

  /**
   * Every accepting state either has a type of its own or recognises only
   * keyword-table texts, so the scanner always finds a symbol for an
   * accepted text; only identifiers can collide with a keyword.
   */
  lemma AcceptedTextClassified(q: State, t: string)
    requires q.IsAccepting() && Recognizes(q, t)
    ensures HasOwnType(q) || t in Keywords
    ensures t in Keywords && HasOwnType(q) ==> q == Symbol
  {
    if q == Number || q == Whitespace || q == Comment || q == StringConst {
      assert t[0] !in "vpitewdbe+-<=>*/:;()";
    }
  }

  /**
   * The token type a text accepted in q is given: a keyword-table entry
   * wins, otherwise the state's own type.
   */
  function Classify(q: State, t: string): (r: Grammar.TerminalToken)
    requires q.IsAccepting() && Recognizes(q, t)
    ensures t in Keywords ==> r == Keywords[t]
    ensures t !in Keywords ==> HasOwnType(q) && r == OwnType(q)
    ensures r != Grammar.TerminalToken.EndOfInput
  {
    AcceptedTextClassified(q, t);
    if t in Keywords then Keywords[t] else OwnType(q)
  }
}
