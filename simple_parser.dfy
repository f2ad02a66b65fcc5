/**
 * The smaller precedence-climbing parser of interpreter/_parser/_parser.py:
 * numbers, strings, booleans, identifiers, assignment, unary `+`/`-`,
 * parentheses, and two infix levels (`+ -` below `* /`).
 *
 * As for the larger parser, each routine is a function over (tokens, cursor)
 * and a method of `Parser` that moves the cursor and is proved to agree.
 */
module SimpleParser {
  import T = Tokens
  import A = SimpleAst

  datatype Precedence = Lowest | Sum | Product

  /** Lowest to highest. */
  const Precedences: seq<Precedence> := [Lowest, Sum, Product]

  /** A precedence's level: its index in `Precedences` plus one. */
  function Level(p: Precedence): (n: nat)
    ensures 1 <= n <= |Precedences| && Precedences[n - 1] == p
  {
    match p
    case Lowest => 1
    case Sum => 2
    case Product => 3
  }

  /** The infix table, `infix_precedence.get(kind, LOWEST)`. */
  function PrecedenceOf(k: T.Kind): Precedence
  {
    match k
    case Plus => Sum
    case Minus => Sum
    case Multiply => Product
    case Divide => Product
    case _ => Lowest
  }

  function NextLevel(t: T.Token): nat
  {
    Level(PrecedenceOf(t.kind))
  }

  /** Only `+ -` (SUM) and `* /` (PRODUCT) bind above LOWEST. */
  lemma {:induction false} OnlyArithmeticIsInfix(t: T.Token)
    ensures NextLevel(t) > Level(Lowest) <==> t.kind in {T.Plus, T.Minus, T.Multiply, T.Divide}
    ensures NextLevel(t) == Level(Product) <==> t.kind == T.Multiply || t.kind == T.Divide
  {
  }

  /** What `is_expected_token` was given: one token type, or a list of them. */
  datatype Expectation = One(kind: T.Kind) | AnyOf(kinds: seq<T.Kind>)

  function Accepted(x: Expectation): seq<T.Kind>
  {
    match x
    case One(k) => [k]
    case AnyOf(ks) => ks
  }

  datatype ParseError =
    | InvalidToken(line: int, kind: T.Kind, text: string)
    | Expected(line: int, expected: Expectation, found: T.Token)
    | BadNumber(line: int, text: string)

  datatype Parse<X> = Parsed(value: X, next: nat) | Failed(error: ParseError)

  predicate Input(toks: seq<T.Token>, pos: nat)
  {
    T.EndsWithEof(toks) && pos < |toks|
  }

  /** `is_expected_token`: an error naming the expectation as given, unless the
      current token's type is among the accepted ones. */
  function ExpectAt(toks: seq<T.Token>, pos: nat, x: Expectation): (e: T.Option<ParseError>)
    requires pos < |toks|
    ensures e.None? <==> toks[pos].kind in Accepted(x)
    ensures e.Some? ==> e.value == Expected(toks[pos].line, x, toks[pos])
  {
    if toks[pos].kind !in Accepted(x) then T.Some(Expected(toks[pos].line, x, toks[pos])) else T.None
  }

  /** A single expected type and the one-element list of it accept the same tokens. */
  lemma {:induction false} ExpectOneOrList(toks: seq<T.Token>, pos: nat, k: T.Kind)
    requires pos < |toks|
    ensures ExpectAt(toks, pos, One(k)).None? <==> ExpectAt(toks, pos, AnyOf([k])).None?
    ensures ExpectAt(toks, pos, AnyOf([])).Some?
  {
  }

  /** `expression(precedence)`. */
  function ExpressionAt(toks: seq<T.Token>, pos: nat, prec: Precedence): (r: Parse<A.Node>)
    requires Input(toks, pos)
    ensures r.Parsed? ==> pos < r.next < |toks| && NextLevel(toks[r.next]) <= Level(prec)
    decreases |toks| - pos, 2
  {
    var p := PrefixAt(toks, pos);
    if p.Failed? then p else InfixLoopAt(toks, p.next, prec, p.value)
  }

  /** The infix loop of `expression`: strictly tighter operators only. */
  function InfixLoopAt(toks: seq<T.Token>, pos: nat, prec: Precedence, left: A.Node): (r: Parse<A.Node>)
    requires Input(toks, pos)
    ensures r.Parsed? ==> pos <= r.next < |toks| && NextLevel(toks[r.next]) <= Level(prec)
    decreases |toks| - pos, 1
  {
    if Level(prec) < NextLevel(toks[pos]) then
      var i := InfixAt(toks, pos, left);
      if i.Failed? then i else InfixLoopAt(toks, i.next, prec, i.value)
    else Parsed(left, pos)
  }

  /** `parse_infix`: always a binary expression whose right operand is parsed
      at the operator's own level. */
  function InfixAt(toks: seq<T.Token>, pos: nat, left: A.Node): (r: Parse<A.Node>)
    requires Input(toks, pos) && toks[pos].kind != T.Eof
    ensures r.Parsed? ==> pos < r.next < |toks|
    ensures r.Parsed? ==>
      && r.value.BinaryExpression? && r.value.line == toks[pos].line
      && r.value.left == left && r.value.operator == toks[pos]
      && NextLevel(toks[r.next]) <= NextLevel(toks[pos])
    decreases |toks| - pos, 0
  {
    var op := toks[pos];
    var right := ExpressionAt(toks, pos + 1, PrecedenceOf(op.kind));
    if right.Failed? then right else Parsed(A.BinaryExpression(op.line, left, op, right.value), right.next)
  }

  /** `parse_prefix`. */
  function PrefixAt(toks: seq<T.Token>, pos: nat): (r: Parse<A.Node>)
    requires Input(toks, pos)
    ensures r.Parsed? ==> pos < r.next < |toks|
    decreases |toks| - pos, 1
  {
    var t := toks[pos];
    if t.kind == T.Identifier && toks[pos + 1].kind == T.Assign then AssignAt(toks, pos)
    else if t.kind == T.Minus || t.kind == T.Plus then
      var e := ExpressionAt(toks, pos + 1, Lowest);
      if e.Failed? then e else Parsed(A.UnaryExpression(t.line, t, e.value), e.next)
    else if t.kind == T.OpenParen then
      var e := ExpressionAt(toks, pos + 1, Lowest);
      if e.Failed? then e
      else if toks[e.next].kind == T.ClosedParen then Parsed(e.value, e.next + 1)
      else Failed(Expected(toks[e.next].line, One(T.ClosedParen), toks[e.next]))
    else if t.kind == T.Number then
      match T.DecimalValue(t.value)
      case Some(v) => Parsed(A.Number(t.line, v), pos + 1)
      case None => Failed(BadNumber(t.line, t.value))
    else if t.kind == T.String then Parsed(A.String(t.line, t.value), pos + 1)
    else if t.kind == T.Boolean then Parsed(A.Boolean(t.line, t.value == T.TrueLiteral), pos + 1)
    else if t.kind == T.Identifier then Parsed(A.Identifier(t.line, t.value), pos + 1)
    else Failed(InvalidToken(t.line, t.kind, t.value))
  }

  /** The assignment operators `is_expected_token` accepts after the name. */
  const AssignmentOperators: seq<T.Kind> := [T.Assign]

  /** `assign`: a name, an assignment operator, a LOWEST-level expression. */
  function AssignAt(toks: seq<T.Token>, pos: nat): (r: Parse<A.Node>)
    requires Input(toks, pos)
    ensures r.Parsed? ==> pos < r.next < |toks|
    ensures r.Parsed? ==>
      && toks[pos].kind == T.Identifier && toks[pos + 1].kind == T.Assign
      && r.value.Assignment? && r.value.line == toks[pos].line && r.value.variable == toks[pos].value
      && ExpressionAt(toks, pos + 2, Lowest) == Parsed(r.value.value, r.next)
    decreases |toks| - pos, 0
  {
    var name := toks[pos];
    match ExpectAt(toks, pos, One(T.Identifier))
    case Some(e) => Failed(e)
    case None =>
      match ExpectAt(toks, pos + 1, AnyOf(AssignmentOperators))
      case Some(e) => Failed(e)
      case None =>
        var v := ExpressionAt(toks, pos + 2, Lowest);
        if v.Failed? then v else Parsed(A.Assignment(name.line, name.value, v.value), v.next)
  }

  /** `parse_statements(end)`. */
  function StatementsAt(toks: seq<T.Token>, pos: nat, end: T.Kind, stmts: seq<A.Node>): (r: Parse<seq<A.Node>>)
    requires Input(toks, pos)
    ensures r.Parsed? ==> pos <= r.next < |toks| && toks[r.next].kind == end
    ensures r.Parsed? ==> |r.value| >= |stmts| && r.value[..|stmts|] == stmts
    decreases |toks| - pos, 3
  {
    if toks[pos].kind == end then Parsed(stmts, pos)
    else
      var e := ExpressionAt(toks, pos, Lowest);
      if e.Failed? then Failed(e.error)
      else match ExpectAt(toks, e.next, One(T.Semicolon))
        case Some(err) => Failed(err)
        case None =>
          var rest := StatementsAt(toks, e.next + 1, end, stmts + [e.value]);
          assert rest.Parsed? ==> (stmts + [e.value])[..|stmts|] == stmts;
          rest
  }

  function ProgramOf(toks: seq<T.Token>): Parse<seq<A.Node>>
    requires T.EndsWithEof(toks)
  {
    StatementsAt(toks, 0, T.Eof, [])
  }

  // ---------------------------------------------------------------------------
  // Properties
  // ---------------------------------------------------------------------------

  /** A token with no prefix rule is an invalid-token error. */
  lemma {:induction false} InvalidPrefix(toks: seq<T.Token>, pos: nat)
    requires Input(toks, pos)
    requires !(toks[pos].kind in {T.Identifier, T.Minus, T.Plus, T.OpenParen, T.Number, T.String, T.Boolean})
    ensures PrefixAt(toks, pos) == Failed(InvalidToken(toks[pos].line, toks[pos].kind, toks[pos].value))
  {
  }

  /** `(` e must be followed by `)`; the parentheses leave e as it is. */
  lemma {:induction false} Parenthesised(toks: seq<T.Token>, pos: nat, e: A.Node, n: nat)
    requires Input(toks, pos) && toks[pos].kind == T.OpenParen
    requires ExpressionAt(toks, pos + 1, Lowest) == Parsed(e, n)
    ensures toks[n].kind == T.ClosedParen ==> PrefixAt(toks, pos) == Parsed(e, n + 1)
    ensures toks[n].kind != T.ClosedParen ==>
      PrefixAt(toks, pos) == Failed(Expected(toks[n].line, One(T.ClosedParen), toks[n]))
  {
  }

  /** A statement not followed by a semicolon is an error expecting one. */
  lemma {:induction false} StatementsNeedSemicolons(toks: seq<T.Token>, pos: nat, end: T.Kind, stmts: seq<A.Node>)
    requires Input(toks, pos) && toks[pos].kind != end
    ensures match ExpressionAt(toks, pos, Lowest)
      case Failed(e) => StatementsAt(toks, pos, end, stmts) == Failed(e)
      case Parsed(e, n) =>
        && (toks[n].kind != T.Semicolon ==>
              StatementsAt(toks, pos, end, stmts) == Failed(Expected(toks[n].line, One(T.Semicolon), toks[n])))
        && (toks[n].kind == T.Semicolon ==>
              StatementsAt(toks, pos, end, stmts) == StatementsAt(toks, n + 1, end, stmts + [e]))
  {
  }

  /** A NUMBER token whose text is a decimal literal. */
  predicate IsOperand(t: T.Token)
  {
    t.kind == T.Number && T.DecimalValue(t.value).Some?
  }

  function OperandOf(t: T.Token): A.Node
    requires IsOperand(t)
  {
    A.Number(t.line, T.DecimalValue(t.value).value)
  }

  /** An operator of the infix table. */
  predicate IsBinary(t: T.Token)
  {
    PrecedenceOf(t.kind) != Lowest
  }

  /** A number literal is a prefix expression on its own. */
  lemma {:induction false} NumberPrefix(toks: seq<T.Token>, pos: nat)
    requires Input(toks, pos) && IsOperand(toks[pos])
    ensures PrefixAt(toks, pos) == Parsed(OperandOf(toks[pos]), pos + 1)
  {
  }

  /** The infix loop stops at a token that does not bind tighter than `prec`. */
  lemma {:induction false} LoopEnds(toks: seq<T.Token>, pos: nat, prec: Precedence, left: A.Node)
    requires Input(toks, pos) && NextLevel(toks[pos]) <= Level(prec)
    ensures InfixLoopAt(toks, pos, prec, left) == Parsed(left, pos)
  {
  }

  /** One round of the infix loop: an operator that binds tighter than `prec`
      takes the operand parsed at its own level. */
  lemma {:induction false} InfixRound(toks: seq<T.Token>, pos: nat, prec: Precedence, left: A.Node, right: A.Node, next: nat)
    requires Input(toks, pos) && Level(prec) < NextLevel(toks[pos])
    requires toks[pos].kind != T.Eof
    requires ExpressionAt(toks, pos + 1, PrecedenceOf(toks[pos].kind)) == Parsed(right, next)
    ensures InfixLoopAt(toks, pos, prec, left)
         == InfixLoopAt(toks, next, prec, A.BinaryExpression(toks[pos].line, left, toks[pos], right))
  {
  }

  /** One round of the infix loop whose right operand is a single number. */
  lemma {:induction false} OperandRound(toks: seq<T.Token>, pos: nat, prec: Precedence, left: A.Node)
    requires Input(toks, pos) && IsBinary(toks[pos]) && Level(prec) < NextLevel(toks[pos])
    requires IsOperand(toks[pos + 1]) && NextLevel(toks[pos + 2]) <= NextLevel(toks[pos])
    ensures InfixLoopAt(toks, pos, prec, left)
         == InfixLoopAt(toks, pos + 2, prec, A.BinaryExpression(toks[pos].line, left, toks[pos], OperandOf(toks[pos + 1])))
  {
    var prec' := PrecedenceOf(toks[pos].kind);
    NumberPrefix(toks, pos + 1);
    LoopEnds(toks, pos + 2, prec', OperandOf(toks[pos + 1]));
    InfixRound(toks, pos, prec, left, OperandOf(toks[pos + 1]), pos + 2);
  }

  /** `a op1 b op2 c`, followed by a token outside the infix table, groups to
      the left, `(a op1 b) op2 c`, when op1 binds at least as tightly as op2:
      `1 - 2 - 3` is `(1 - 2) - 3`. */
  lemma {:induction false} GroupsLeft(toks: seq<T.Token>, pos: nat, a: T.Token, op1: T.Token, b: T.Token, op2: T.Token, c: T.Token)
    requires Input(toks, pos) && pos + 5 < |toks|
    requires toks[pos] == a && toks[pos + 1] == op1 && toks[pos + 2] == b && toks[pos + 3] == op2 && toks[pos + 4] == c
    requires IsOperand(a) && IsOperand(b) && IsOperand(c) && IsBinary(op1) && IsBinary(op2)
    requires !IsBinary(toks[pos + 5]) && NextLevel(op1) >= NextLevel(op2)
    ensures ExpressionAt(toks, pos, Lowest)
         == Parsed(A.BinaryExpression(op2.line, A.BinaryExpression(op1.line, OperandOf(a), op1, OperandOf(b)),
                     op2, OperandOf(c)), pos + 5)
  {
    var first := A.BinaryExpression(op1.line, OperandOf(a), op1, OperandOf(b));
    NumberPrefix(toks, pos);
    OperandRound(toks, pos + 1, Lowest, OperandOf(a));
    OperandRound(toks, pos + 3, Lowest, first);
    LoopEnds(toks, pos + 5, Lowest, A.BinaryExpression(op2.line, first, op2, OperandOf(c)));
  }

  /** `a op1 b op2 c`, followed by a token outside the infix table, groups to
      the right, `a op1 (b op2 c)`, when op2 binds tighter: `1 + 2 * 2` is
      `1 + (2 * 2)`. */
  lemma {:induction false} GroupsRight(toks: seq<T.Token>, pos: nat, a: T.Token, op1: T.Token, b: T.Token, op2: T.Token, c: T.Token)
    requires Input(toks, pos) && pos + 5 < |toks|
    requires toks[pos] == a && toks[pos + 1] == op1 && toks[pos + 2] == b && toks[pos + 3] == op2 && toks[pos + 4] == c
    requires IsOperand(a) && IsOperand(b) && IsOperand(c) && IsBinary(op1) && IsBinary(op2)
    requires !IsBinary(toks[pos + 5]) && NextLevel(op1) < NextLevel(op2)
    ensures ExpressionAt(toks, pos, Lowest)
         == Parsed(A.BinaryExpression(op1.line, OperandOf(a), op1,
                     A.BinaryExpression(op2.line, OperandOf(b), op2, OperandOf(c))), pos + 5)
  {
    var inner := A.BinaryExpression(op2.line, OperandOf(b), op2, OperandOf(c));
    NumberPrefix(toks, pos);
    assert ExpressionAt(toks, pos + 2, PrecedenceOf(op1.kind)) == Parsed(inner, pos + 5) by {
      NumberPrefix(toks, pos + 2);
      OperandRound(toks, pos + 3, PrecedenceOf(op1.kind), OperandOf(b));
      LoopEnds(toks, pos + 5, PrecedenceOf(op1.kind), inner);
    }
    InfixRound(toks, pos + 1, Lowest, OperandOf(a), inner, pos + 5);
    LoopEnds(toks, pos + 5, Lowest, A.BinaryExpression(op1.line, OperandOf(a), op1, inner));
  }

  /** `- a op b`: the operand of a prefix operator is a whole LOWEST-level
      expression, so `- 1 + 2` is `-(1 + 2)`. */
  lemma {:induction false} PrefixTakesWholeExpression(toks: seq<T.Token>, pos: nat, m: T.Token, a: T.Token, op: T.Token, b: T.Token)
    requires Input(toks, pos) && pos + 4 < |toks|
    requires toks[pos] == m && toks[pos + 1] == a && toks[pos + 2] == op && toks[pos + 3] == b
    requires (m.kind == T.Minus || m.kind == T.Plus) && IsOperand(a) && IsBinary(op) && IsOperand(b)
    requires !IsBinary(toks[pos + 4])
    ensures ExpressionAt(toks, pos, Lowest)
         == Parsed(A.UnaryExpression(m.line, m, A.BinaryExpression(op.line, OperandOf(a), op, OperandOf(b))), pos + 4)
  {
    var sum := A.BinaryExpression(op.line, OperandOf(a), op, OperandOf(b));
    assert ExpressionAt(toks, pos + 1, Lowest) == Parsed(sum, pos + 4) by {
      NumberPrefix(toks, pos + 1);
      OperandRound(toks, pos + 2, Lowest, OperandOf(a));
      LoopEnds(toks, pos + 4, Lowest, sum);
    }
    assert PrefixAt(toks, pos) == Parsed(A.UnaryExpression(m.line, m, sum), pos + 4);
    LoopEnds(toks, pos + 4, Lowest, A.UnaryExpression(m.line, m, sum));
  }

  // ---------------------------------------------------------------------------
  // The parser object
  // ---------------------------------------------------------------------------

  datatype Result<X> = Success(value: X) | Failure(error: ParseError)

  predicate Agrees<X(==)>(r: Result<X>, s: Parse<X>, pos: nat)
  {
    match s
    case Parsed(v, next) => r == Success(v) && pos == next
    case Failed(e) => r == Failure(e)
  }

  class Parser {
    const tokens: seq<T.Token>
    var pos: nat

    predicate Valid()
      reads this
    {
      Input(tokens, pos)
    }

    constructor (toks: seq<T.Token>)
      requires T.EndsWithEof(toks)
      ensures tokens == toks && pos == 0 && Valid()
    {
      tokens := toks;
      pos := 0;
    }

    method Advance()
      requires Valid() && tokens[pos].kind != T.Eof
      modifies this
      ensures Valid() && pos == old(pos) + 1
    {
      pos := pos + 1;
    }

    method IsExpectedToken(x: Expectation) returns (e: T.Option<ParseError>)
      requires Valid()
      ensures e == ExpectAt(tokens, pos, x)
    {
      var accepted := match x case One(k) => [k] case AnyOf(ks) => ks;
      if tokens[pos].kind !in accepted {
        return T.Some(Expected(tokens[pos].line, x, tokens[pos]));
      }
      return T.None;
    }

    method Parse() returns (r: Result<seq<A.Node>>)
      requires Valid() && pos == 0
      modifies this
      ensures Valid() && Agrees(r, ProgramOf(tokens), pos)
    {
      r := ParseStatements(T.Eof);
    }

    method ParseStatements(end: T.Kind) returns (r: Result<seq<A.Node>>)
      requires Valid()
      modifies this
      ensures Valid() && Agrees(r, StatementsAt(tokens, old(pos), end, []), pos)
      decreases |tokens| - pos, 3
    {
      ghost var start := pos;
      var statements: seq<A.Node> := [];
      while tokens[pos].kind != end
        invariant Valid() && start <= pos
        invariant StatementsAt(tokens, pos, end, statements) == StatementsAt(tokens, start, end, [])
        decreases |tokens| - pos
      {
        var e := Expression(Lowest);
        if e.Failure? {
          return Failure(e.error);
        }
        statements := statements + [e.value];
        var missing := IsExpectedToken(One(T.Semicolon));
        if missing.Some? {
          return Failure(missing.value);
        }
        Advance();
      }
      r := Success(statements);
    }

    method Expression(prec: Precedence) returns (r: Result<A.Node>)
      requires Valid()
      modifies this
      ensures Valid() && Agrees(r, ExpressionAt(tokens, old(pos), prec), pos)
      decreases |tokens| - pos, 2
    {
      ghost var start := pos;
      var p := ParsePrefix();
      if p.Failure? {
        return p;
      }
      var left := p.value;
      ghost var afterPrefix := pos;
      while Level(prec) < NextLevel(tokens[pos])
        invariant Valid() && start < pos
        invariant InfixLoopAt(tokens, pos, prec, left) == InfixLoopAt(tokens, afterPrefix, prec, p.value)
        decreases |tokens| - pos
      {
        var i := ParseInfix(left);
        if i.Failure? {
          return i;
        }
        left := i.value;
      }
      r := Success(left);
    }

    method ParseInfix(left: A.Node) returns (r: Result<A.Node>)
      requires Valid() && tokens[pos].kind != T.Eof
      modifies this
      ensures Valid() && Agrees(r, InfixAt(tokens, old(pos), left), pos)
      decreases |tokens| - pos, 0
    {
      var op := tokens[pos];
      Advance();
      var right := Expression(PrecedenceOf(op.kind));
      if right.Failure? {
        return right;
      }
      r := Success(A.BinaryExpression(op.line, left, op, right.value));
    }

    method ParsePrefix() returns (r: Result<A.Node>)
      requires Valid()
      modifies this
      ensures Valid() && Agrees(r, PrefixAt(tokens, old(pos)), pos)
      decreases |tokens| - pos, 1
    {
      var t := tokens[pos];
      if t.kind == T.Identifier && tokens[pos + 1].kind == T.Assign {
        r := Assign();
      } else if t.kind == T.Minus || t.kind == T.Plus {
        Advance();
        var e := Expression(Lowest);
        if e.Failure? {
          return e;
        }
        r := Success(A.UnaryExpression(t.line, t, e.value));
      } else if t.kind == T.OpenParen {
        Advance();
        var e := Expression(Lowest);
        if e.Failure? {
          return e;
        }
        if tokens[pos].kind == T.ClosedParen {
          Advance();
          return e;
        }
        var missing := IsExpectedToken(One(T.ClosedParen));
        r := Failure(missing.value);
      } else if t.kind == T.Number {
        match T.DecimalValue(t.value)
        case Some(v) =>
          Advance();
          r := Success(A.Number(t.line, v));
        case None =>
          r := Failure(BadNumber(t.line, t.value));
      } else if t.kind == T.String {
        Advance();
        r := Success(A.String(t.line, t.value));
      } else if t.kind == T.Boolean {
        Advance();
        r := Success(A.Boolean(t.line, t.value == T.TrueLiteral));
      } else if t.kind == T.Identifier {
        Advance();
        r := Success(A.Identifier(t.line, t.value));
      } else {
        r := Failure(InvalidToken(t.line, t.kind, t.value));
      }
    }

    method Assign() returns (r: Result<A.Node>)
      requires Valid()
      modifies this
      ensures Valid() && Agrees(r, AssignAt(tokens, old(pos)), pos)
      decreases |tokens| - pos, 0
    {
      var missing := IsExpectedToken(One(T.Identifier));
      if missing.Some? {
        return Failure(missing.value);
      }
      var name := tokens[pos];
      Advance();
      missing := IsExpectedToken(AnyOf(AssignmentOperators));
      if missing.Some? {
        return Failure(missing.value);
      }
      Advance();
      var right := Expression(Lowest);
      if right.Failure? {
        return right;
      }
      r := Success(A.Assignment(name.line, name.value, right.value));
    }
  }
}
