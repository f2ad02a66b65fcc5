/**
 * The precedence-climbing parser of interpreter/parser_/parser_.py.
 *
 * The token queue is a sequence of tokens ending in EOF and the cursor an
 * index into it. Each parsing routine is specified twice: as a function
 * `...At(toks, pos, ...)` returning the node and the index after it, and as a
 * method of `Parser` that advances the cursor the way the source does and is
 * proved to agree with the function.
 */
module PrecedenceParser {
  import T = Tokens
  import V = Values

  // ---------------------------------------------------------------------------
  // Precedences
  // ---------------------------------------------------------------------------

  datatype Precedence = Lowest | AssignPrecedence | Compare | Sum | Product | Send

  /** Lowest to highest. */
  const Precedences: seq<Precedence> := [Lowest, AssignPrecedence, Compare, Sum, Product, Send]

  /** A precedence's level: its index in `Precedences` plus one. */
  function Level(p: Precedence): (n: nat)
    ensures 1 <= n <= |Precedences| && Precedences[n - 1] == p
  {
    match p
    case Lowest => 1
    case AssignPrecedence => 2
    case Compare => 3
    case Sum => 4
    case Product => 5
    case Send => 6
  }

  /** The infix precedence table. */
  function InfixPrecedence(k: T.Kind): T.Option<Precedence>
  {
    match k
    case Arrow => T.Some(Send)
    case Plus => T.Some(Sum)
    case Minus => T.Some(Sum)
    case Bang => T.Some(Sum)
    case Or => T.Some(Sum)
    case And => T.Some(Sum)
    case Multiply => T.Some(Product)
    case Divide => T.Some(Product)
    case Eq => T.Some(Compare)
    case Ne => T.Some(Compare)
    case Lt => T.Some(Compare)
    case Le => T.Some(Compare)
    case Gt => T.Some(Compare)
    case Ge => T.Some(Compare)
    case _ => T.None
  }

  /** `infix_precedence.get(kind, LOWEST)`. */
  function PrecedenceOf(k: T.Kind): Precedence
  {
    match InfixPrecedence(k)
    case Some(p) => p
    case None => Lowest
  }

  /** The level of the token the cursor is on, as an infix operator. */
  function NextLevel(t: T.Token): nat
  {
    Level(PrecedenceOf(t.kind))
  }

  /** A token binds above LOWEST exactly when it is in the infix table, and
      then it is never end-of-file. */
  lemma {:induction false} NextLevelAboveLowest(t: T.Token)
    ensures NextLevel(t) > Level(Lowest) <==> InfixPrecedence(t.kind).Some?
    ensures NextLevel(t) > Level(Lowest) ==> t.kind != T.Eof
    ensures InfixPrecedence(t.kind).None? ==> NextLevel(t) == Level(Lowest)
  {
  }

  // ---------------------------------------------------------------------------
  // Results
  // ---------------------------------------------------------------------------

  datatype ParseError =
    | InvalidToken(line: int, kind: T.Kind, text: string)
    | UnexpectedToken(line: int, expected: T.Kind, found: T.Token)
    | UnsupportedParameter(line: int, typeName: string)
    | BadNumber(line: int, text: string)

  /** A parsed value and the index of the first token after it, or an error. */
  datatype Parse<X> = Parsed(value: X, next: nat) | Failed(error: ParseError)

  /** A token sequence as the tokenizer delivers it, with a cursor inside it. */
  predicate Input(toks: seq<T.Token>, pos: nat)
  {
    T.EndsWithEof(toks) && pos < |toks|
  }

  /** `is_expected_token`: the unexpected-token error, unless the current token has the kind. */
  function ExpectAt(toks: seq<T.Token>, pos: nat, kind: T.Kind): (e: T.Option<ParseError>)
    requires pos < |toks|
    ensures e.None? <==> toks[pos].kind == kind
    ensures e.Some? ==> e.value == UnexpectedToken(toks[pos].line, kind, toks[pos])
  {
    if toks[pos].kind != kind then T.Some(UnexpectedToken(toks[pos].line, kind, toks[pos])) else T.None
  }

  // ---------------------------------------------------------------------------
  // The grammar as functions over (tokens, cursor)
  //
  // Termination: every routine either consumes a token before recursing or
  // calls a routine of lower rank at the same position; ranks are
  // Assign/Grouped/Function/When/Infix 0, Prefix/InfixLoop 1, Expression 2,
  // List/Params/CaseBody 3, Case/Statements 4, Cases 5.
  // ---------------------------------------------------------------------------

  /** `expression(precedence)`: a prefix expression, then infix operators for
      as long as the next one binds strictly tighter than `prec`. */
  function ExpressionAt(toks: seq<T.Token>, pos: nat, prec: Precedence): (r: Parse<V.Expr>)
    requires Input(toks, pos)
    ensures r.Parsed? ==> pos < r.next < |toks| && NextLevel(toks[r.next]) <= Level(prec)
    decreases |toks| - pos, 2
  {
    var p := PrefixAt(toks, pos);
    if p.Failed? then p else InfixLoopAt(toks, p.next, prec, p.value)
  }

  /** The infix loop of `expression`. */
  function InfixLoopAt(toks: seq<T.Token>, pos: nat, prec: Precedence, left: V.Expr): (r: Parse<V.Expr>)
    requires Input(toks, pos)
    ensures r.Parsed? ==> pos <= r.next < |toks| && NextLevel(toks[r.next]) <= Level(prec)
    ensures r.Parsed? && r.next == pos ==> r.value == left
    decreases |toks| - pos, 1
  {
    if Level(prec) < NextLevel(toks[pos]) then
      var i := InfixAt(toks, pos, left);
      if i.Failed? then i else InfixLoopAt(toks, i.next, prec, i.value)
    else Parsed(left, pos)
  }

  /** `parse_infix`: `!` is postfix and takes no right operand; any other
      operator parses its right operand at its own level, so the right operand
      never absorbs an operator of the same or a lower level. */
  function InfixAt(toks: seq<T.Token>, pos: nat, left: V.Expr): (r: Parse<V.Expr>)
    requires Input(toks, pos) && toks[pos].kind != T.Eof
    ensures r.Parsed? ==> pos < r.next < |toks|
    ensures toks[pos].kind == T.Bang ==> r == Parsed(V.Factorial(toks[pos].line, left), pos + 1)
    ensures r.Parsed? && toks[pos].kind != T.Bang ==>
      && r.value.BinaryExpression? && r.value.line == toks[pos].line
      && r.value.left == left && r.value.operator == toks[pos]
      && NextLevel(toks[r.next]) <= NextLevel(toks[pos])
    decreases |toks| - pos, 0
  {
    var op := toks[pos];
    if op.kind == T.Bang then Parsed(V.Factorial(op.line, left), pos + 1)
    else
      var right := ExpressionAt(toks, pos + 1, PrecedenceOf(op.kind));
      if right.Failed? then right else Parsed(V.BinaryExpression(op.line, left, op, right.value), right.next)
  }

  /** `parse_prefix`. */
  function PrefixAt(toks: seq<T.Token>, pos: nat): (r: Parse<V.Expr>)
    requires Input(toks, pos)
    ensures r.Parsed? ==> pos < r.next < |toks|
    decreases |toks| - pos, 1
  {
    var t := toks[pos];
    if t.kind == T.Identifier && toks[pos + 1].kind == T.Assign then AssignAt(toks, pos)
    else if t.kind == T.Minus || t.kind == T.Plus || t.kind == T.Bang then
      var e := ExpressionAt(toks, pos + 1, Lowest);
      if e.Failed? then e else Parsed(V.UnaryExpression(t.line, t, e.value), e.next)
    else if t.kind == T.OpenParen then GroupedAt(toks, pos)
    else if t.kind == T.Number then
      match T.DecimalValue(t.value)
      case Some(v) => Parsed(V.Number(t.line, v), pos + 1)
      case None => Failed(BadNumber(t.line, t.value))
    else if t.kind == T.String then Parsed(V.String(t.line, t.value), pos + 1)
    else if t.kind == T.Boolean then Parsed(V.Boolean(t.line, t.value == T.TrueLiteral), pos + 1)
    else if t.kind == T.Identifier then
      if t.value in V.BuiltinNames then Parsed(V.BuiltinFunction(t.line, t.value), pos + 1)
      else Parsed(V.Identifier(t.line, t.value), pos + 1)
    else if t.kind == T.Function then FunctionAt(toks, pos)
    else if t.kind == T.When then WhenAt(toks, pos)
    else Failed(InvalidToken(t.line, t.kind, t.value))
  }

  /** `parse_assign`: name, `=`, and a full LOWEST-level expression. */
  function AssignAt(toks: seq<T.Token>, pos: nat): (r: Parse<V.Expr>)
    requires Input(toks, pos)
    ensures r.Parsed? ==> pos < r.next < |toks|
    ensures r.Parsed? ==>
      && toks[pos].kind == T.Identifier && toks[pos + 1].kind == T.Assign
      && r.value.Assignment? && r.value.line == toks[pos].line && r.value.variable == toks[pos].value
      && ExpressionAt(toks, pos + 2, Lowest) == Parsed(r.value.value, r.next)
    decreases |toks| - pos, 0
  {
    var name := toks[pos];
    match ExpectAt(toks, pos, T.Identifier)
    case Some(e) => Failed(e)
    case None =>
      match ExpectAt(toks, pos + 1, T.Assign)
      case Some(e) => Failed(e)
      case None =>
        var v := ExpressionAt(toks, pos + 2, Lowest);
        if v.Failed? then v else Parsed(V.Assignment(name.line, name.value, v.value), v.next)
  }

  /** `parse_grouped_expression`: `()` is the empty list (on the line of the
      token after it), `(e)` is e, `(e, ...` continues as a list, and any
      other token after e is an error expecting `)`. */
  function GroupedAt(toks: seq<T.Token>, pos: nat): (r: Parse<V.Expr>)
    requires Input(toks, pos) && toks[pos].kind != T.Eof
    ensures r.Parsed? ==> pos < r.next < |toks|
    decreases |toks| - pos, 0
  {
    var q := pos + 1;
    if toks[q].kind == T.ClosedParen then Parsed(V.List(toks[q + 1].line, []), q + 1)
    else
      var e := ExpressionAt(toks, q, Lowest);
      if e.Failed? then e else GroupTailAt(toks, e.next, e.value)
  }

  /** What follows the first element e of a group. */
  function GroupTailAt(toks: seq<T.Token>, pos: nat, e: V.Expr): (r: Parse<V.Expr>)
    requires Input(toks, pos)
    ensures r.Parsed? ==> pos < r.next < |toks|
    decreases |toks| - pos, 0
  {
    if toks[pos].kind == T.ClosedParen then Parsed(e, pos + 1)
    else if toks[pos].kind == T.Comma then ListRestAt(toks, pos + 1, toks[pos + 1].line, [e])
    else Failed(UnexpectedToken(toks[pos].line, T.ClosedParen, toks[pos]))
  }

  /** The loop of `parse_list`, after the first element and its comma: a `)`
      ends the list (so a trailing comma is allowed), an element must be
      followed by `)` or `,`. */
  function ListRestAt(toks: seq<T.Token>, pos: nat, line: int, values: seq<V.Expr>): (r: Parse<V.Expr>)
    requires Input(toks, pos)
    ensures r.Parsed? ==> pos < r.next < |toks|
    ensures r.Parsed? ==>
      && r.value.List? && r.value.line == line
      && |r.value.values| >= |values| && r.value.values[..|values|] == values
    decreases |toks| - pos, 3
  {
    if toks[pos].kind == T.ClosedParen then Parsed(V.List(line, values), pos + 1)
    else
      var e := ExpressionAt(toks, pos, Lowest);
      if e.Failed? then e
      else
        var rest := ListNextAt(toks, e.next, line, values + [e.value]);
        assert rest.Parsed? ==> (values + [e.value])[..|values|] == values;
        rest
  }

  /** After a list element: `)` ends the list, `,` continues it. */
  function ListNextAt(toks: seq<T.Token>, pos: nat, line: int, values: seq<V.Expr>): (r: Parse<V.Expr>)
    requires Input(toks, pos)
    ensures r.Parsed? ==> pos < r.next < |toks|
    ensures r.Parsed? ==>
      && r.value.List? && r.value.line == line
      && |r.value.values| >= |values| && r.value.values[..|values|] == values
    decreases |toks| - pos, 3
  {
    if toks[pos].kind == T.ClosedParen then Parsed(V.List(line, values), pos + 1)
    else if toks[pos].kind != T.Comma then Failed(UnexpectedToken(toks[pos].line, T.Comma, toks[pos]))
    else ListRestAt(toks, pos + 1, line, values)
  }

  /** `parse_function`: `func ( params ) : body`. */
  function FunctionAt(toks: seq<T.Token>, pos: nat): (r: Parse<V.Expr>)
    requires Input(toks, pos) && toks[pos].kind != T.Eof
    ensures r.Parsed? ==> pos < r.next < |toks|
    ensures r.Parsed? ==>
      && r.value.Function? && r.value.line == toks[pos].line
      && forall i :: 0 <= i < |r.value.parameters| ==> r.value.parameters[i].Identifier?
    decreases |toks| - pos, 0
  {
    match ExpectAt(toks, pos + 1, T.OpenParen)
    case Some(e) => Failed(e)
    case None =>
      var ps := ParamsAt(toks, pos + 2, []);
      if ps.Failed? then Failed(ps.error) else FunctionBodyAt(toks, ps.next, toks[pos].line, ps.value)
  }

  /** The rest of `parse_function` once the parameters are read: `:` and the
      LOWEST-level body expression. */
  function FunctionBodyAt(toks: seq<T.Token>, pos: nat, line: int, params: seq<V.Expr>): (r: Parse<V.Expr>)
    requires Input(toks, pos)
    ensures r.Parsed? ==> pos < r.next < |toks|
    ensures r.Parsed? ==> r.value.Function? && r.value.line == line && r.value.parameters == params
    decreases |toks| - pos, 0
  {
    match ExpectAt(toks, pos, T.Colon)
    case Some(e) => Failed(e)
    case None =>
      var body := ExpressionAt(toks, pos + 1, Lowest);
      if body.Failed? then body else Parsed(V.Function(line, params, body.value), body.next)
  }

  /** The parameter loop of `parse_function`: like a list, but every element
      must be an Identifier. */
  function ParamsAt(toks: seq<T.Token>, pos: nat, params: seq<V.Expr>): (r: Parse<seq<V.Expr>>)
    requires Input(toks, pos)
    ensures r.Parsed? ==> pos < r.next < |toks|
    ensures r.Parsed? ==> |r.value| >= |params| && r.value[..|params|] == params
    ensures r.Parsed? ==> forall i :: |params| <= i < |r.value| ==> r.value[i].Identifier?
    decreases |toks| - pos, 3
  {
    if toks[pos].kind == T.ClosedParen then Parsed(params, pos + 1)
    else
      var e := ExpressionAt(toks, pos, Lowest);
      if e.Failed? then Failed(e.error)
      else if !e.value.Identifier? then Failed(UnsupportedParameter(e.value.line, V.TypeName(e.value)))
      else
        var rest := ParamsNextAt(toks, e.next, params + [e.value]);
        assert rest.Parsed? ==> (params + [e.value])[..|params|] == params;
        rest
  }

  /** After a parameter: `)` ends the list, `,` continues it. */
  function ParamsNextAt(toks: seq<T.Token>, pos: nat, params: seq<V.Expr>): (r: Parse<seq<V.Expr>>)
    requires Input(toks, pos)
    ensures r.Parsed? ==> pos < r.next < |toks|
    ensures r.Parsed? ==> |r.value| >= |params| && r.value[..|params|] == params
    ensures r.Parsed? ==> forall i :: |params| <= i < |r.value| ==> r.value[i].Identifier?
    decreases |toks| - pos, 3
  {
    if toks[pos].kind == T.ClosedParen then Parsed(params, pos + 1)
    else if toks[pos].kind != T.Comma then Failed(UnexpectedToken(toks[pos].line, T.Comma, toks[pos]))
    else ParamsAt(toks, pos + 1, params)
  }

  /** A `when` expression as the parser builds it: at least one case and
      then the `else` case, whose comparison is the subject re-stamped. */
  predicate IsWhen(w: V.Expr)
  {
    && w.When? && |w.cases| >= 2
    && w.cases[|w.cases| - 1].condition == V.WithLine(w.subject, w.cases[|w.cases| - 1].condition.line)
  }

  /** `parse_when`: an optional subject (Boolean true when absent), cases, and
      an `else` case whose comparison is the subject re-stamped with the
      `else` token's line. */
  function WhenAt(toks: seq<T.Token>, pos: nat): (r: Parse<V.Expr>)
    requires Input(toks, pos) && toks[pos].kind != T.Eof
    ensures r.Parsed? ==> pos < r.next < |toks|
    ensures r.Parsed? ==> IsWhen(r.value) && r.value.line == toks[pos].line
    ensures r.Parsed? && toks[pos + 1].kind == T.Colon ==> r.value.subject == V.Boolean(toks[pos].line, true)
    decreases |toks| - pos, 0
  {
    var line := toks[pos].line;
    var isSwitch := toks[pos + 1].kind != T.Colon;
    var s := if isSwitch then ExpressionAt(toks, pos + 1, Lowest) else Parsed(V.Boolean(line, true), pos + 1);
    if s.Failed? then s else WhenBodyAt(toks, s.next, line, s.value, isSwitch)
  }

  /** The rest of `parse_when` once the subject is known: `:`, then the cases. */
  function WhenBodyAt(toks: seq<T.Token>, pos: nat, line: int, subject: V.Expr, isSwitch: bool): (r: Parse<V.Expr>)
    requires Input(toks, pos)
    ensures r.Parsed? ==> pos < r.next < |toks|
    ensures r.Parsed? ==> IsWhen(r.value) && r.value.line == line && r.value.subject == subject
    decreases |toks| - pos, 0
  {
    match ExpectAt(toks, pos, T.Colon)
    case Some(e) => Failed(e)
    case None =>
      var cs := CasesAt(toks, pos + 1, isSwitch, []);
      if cs.Failed? then Failed(cs.error) else WhenElseAt(toks, cs.next, line, subject, cs.value)
  }

  /** `else : expression`, whose case compares the subject re-stamped with
      the line of the `else` token. */
  function WhenElseAt(toks: seq<T.Token>, pos: nat, line: int, subject: V.Expr, cases: seq<V.Case>): (r: Parse<V.Expr>)
    requires Input(toks, pos)
    ensures r.Parsed? ==> pos < r.next < |toks|
    ensures r.Parsed? ==>
      && r.value.When? && r.value.line == line && r.value.subject == subject
      && |r.value.cases| == |cases| + 1 && r.value.cases[..|cases|] == cases
      && r.value.cases[|cases|].condition == V.WithLine(subject, toks[pos].line)
    decreases |toks| - pos, 0
  {
    match ExpectAt(toks, pos, T.Else)
    case Some(e) => Failed(e)
    case None =>
      match ExpectAt(toks, pos + 1, T.Colon)
      case Some(e) => Failed(e)
      case None =>
        var elseResult := ExpressionAt(toks, pos + 2, Lowest);
        if elseResult.Failed? then elseResult
        else
          var elseCase := V.Case(V.WithLine(subject, toks[pos].line), elseResult.value);
          Parsed(V.When(line, subject, cases + [elseCase]), elseResult.next)
  }

  /** One case of `parse_when`: (`is` in the switch form) comparison `:` result. */
  function CaseAt(toks: seq<T.Token>, pos: nat, isSwitch: bool): (r: Parse<V.Case>)
    requires Input(toks, pos)
    ensures r.Parsed? ==> pos < r.next < |toks|
    decreases |toks| - pos, 4
  {
    var start := if isSwitch then ExpectAt(toks, pos, T.Is) else T.None;
    if start.Some? then Failed(start.value)
    else CaseBodyAt(toks, if isSwitch then pos + 1 else pos)
  }

  /** A case after its `is`: comparison `:` result. */
  function CaseBodyAt(toks: seq<T.Token>, pos: nat): (r: Parse<V.Case>)
    requires Input(toks, pos)
    ensures r.Parsed? ==> pos < r.next < |toks|
    decreases |toks| - pos, 3
  {
    var c := ExpressionAt(toks, pos, Lowest);
    if c.Failed? then Failed(c.error)
    else match ExpectAt(toks, c.next, T.Colon)
      case Some(e) => Failed(e)
      case None =>
        var res := ExpressionAt(toks, c.next + 1, Lowest);
        if res.Failed? then Failed(res.error) else Parsed(V.Case(c.value, res.value), res.next)
  }

  /** The case loop of `parse_when`: cases until the token after one is `else`. */
  function CasesAt(toks: seq<T.Token>, pos: nat, isSwitch: bool, cases: seq<V.Case>): (r: Parse<seq<V.Case>>)
    requires Input(toks, pos)
    ensures r.Parsed? ==> pos < r.next < |toks| && toks[r.next].kind == T.Else
    ensures r.Parsed? ==> |r.value| > |cases| && r.value[..|cases|] == cases
    decreases |toks| - pos, 5
  {
    var c := CaseAt(toks, pos, isSwitch);
    if c.Failed? then Failed(c.error)
    else
      var more := cases + [c.value];
      assert more[..|cases|] == cases;
      if toks[c.next].kind == T.Else then Parsed(more, c.next)
      else
        CasesAt(toks, c.next, isSwitch, more)
  }

  /** `parse_statements(end)`: expressions, each followed by a semicolon,
      until the end token. */
  function StatementsAt(toks: seq<T.Token>, pos: nat, end: T.Kind, stmts: seq<V.Expr>): (r: Parse<seq<V.Expr>>)
    requires Input(toks, pos)
    ensures r.Parsed? ==> pos <= r.next < |toks| && toks[r.next].kind == end
    ensures r.Parsed? ==> |r.value| >= |stmts| && r.value[..|stmts|] == stmts
    decreases |toks| - pos, 4
  {
    if toks[pos].kind == end then Parsed(stmts, pos)
    else
      var e := ExpressionAt(toks, pos, Lowest);
      if e.Failed? then Failed(e.error)
      else match ExpectAt(toks, e.next, T.Semicolon)
        case Some(err) => Failed(err)
        case None =>
          var rest := StatementsAt(toks, e.next + 1, end, stmts + [e.value]);
          assert rest.Parsed? ==> (stmts + [e.value])[..|stmts|] == stmts;
          rest
  }

  /** `parse`: the statements of a whole program. */
  function ProgramOf(toks: seq<T.Token>): Parse<seq<V.Expr>>
    requires T.EndsWithEof(toks)
  {
    StatementsAt(toks, 0, T.Eof, [])
  }

  // ---------------------------------------------------------------------------
  // Properties of the grammar
  // ---------------------------------------------------------------------------

  /** The token kinds `parse_prefix` has a rule for. */
  predicate StartsExpression(k: T.Kind)
  {
    k == T.Identifier || k == T.Minus || k == T.Plus || k == T.Bang || k == T.OpenParen || k == T.Number
    || k == T.String || k == T.Boolean || k == T.Function || k == T.When
  }

  /** A token without a prefix rule is an invalid-token error; an identifier
      naming a builtin (and not followed by `=`) is a BuiltinFunction; `(`
      starts a grouped expression. */
  lemma {:induction false} PrefixRules(toks: seq<T.Token>, pos: nat)
    requires Input(toks, pos)
    ensures !StartsExpression(toks[pos].kind) ==>
      PrefixAt(toks, pos) == Failed(InvalidToken(toks[pos].line, toks[pos].kind, toks[pos].value))
    ensures toks[pos].kind == T.Identifier && toks[pos + 1].kind != T.Assign && toks[pos].value in V.BuiltinNames ==>
      PrefixAt(toks, pos) == Parsed(V.BuiltinFunction(toks[pos].line, toks[pos].value), pos + 1)
    ensures toks[pos].kind == T.Identifier && toks[pos + 1].kind != T.Assign && toks[pos].value !in V.BuiltinNames ==>
      PrefixAt(toks, pos) == Parsed(V.Identifier(toks[pos].line, toks[pos].value), pos + 1)
    ensures toks[pos].kind == T.OpenParen ==> PrefixAt(toks, pos) == GroupedAt(toks, pos)
  {
  }

  /** The parenthesised forms without a first element: `()` is the empty
      list, on the line of the token after it, and a failing first element
      fails the group. */
  lemma {:induction false} GroupedForms(toks: seq<T.Token>, pos: nat)
    requires Input(toks, pos) && toks[pos].kind == T.OpenParen
    ensures toks[pos + 1].kind == T.ClosedParen ==>
      GroupedAt(toks, pos) == Parsed(V.List(toks[pos + 2].line, []), pos + 2)
    ensures toks[pos + 1].kind != T.ClosedParen && ExpressionAt(toks, pos + 1, Lowest).Failed? ==>
      GroupedAt(toks, pos) == ExpressionAt(toks, pos + 1, Lowest)
  {
  }

  /** A group whose first element e parses goes on as `GroupTailAt` after e. */
  lemma {:induction false} GroupedElement(toks: seq<T.Token>, pos: nat, e: V.Expr, n: nat)
    requires Input(toks, pos) && toks[pos].kind == T.OpenParen && toks[pos + 1].kind != T.ClosedParen
    requires ExpressionAt(toks, pos + 1, Lowest) == Parsed(e, n)
    ensures GroupedAt(toks, pos) == GroupTailAt(toks, n, e)
  {
  }

  /** After the first element e: `)` closes the group as e, `,` continues a
      list that starts with e, and any other token is an error expecting `)`. */
  lemma {:induction false} GroupTail(toks: seq<T.Token>, n: nat, e: V.Expr)
    requires Input(toks, n)
    ensures toks[n].kind == T.ClosedParen ==> GroupTailAt(toks, n, e) == Parsed(e, n + 1)
    ensures toks[n].kind == T.Comma ==> GroupTailAt(toks, n, e) == ListRestAt(toks, n + 1, toks[n + 1].line, [e])
    ensures toks[n].kind != T.ClosedParen && toks[n].kind != T.Comma ==>
      GroupTailAt(toks, n, e) == Failed(UnexpectedToken(toks[n].line, T.ClosedParen, toks[n]))
  {
  }

  /** After the first element e of a group: `)` makes the group e itself,
      and a token other than `)` or `,` is an error expecting `)`. */
  lemma {:induction false} GroupedExpression(toks: seq<T.Token>, pos: nat, e: V.Expr, n: nat)
    requires Input(toks, pos) && toks[pos].kind == T.OpenParen && toks[pos + 1].kind != T.ClosedParen
    requires ExpressionAt(toks, pos + 1, Lowest) == Parsed(e, n)
    ensures toks[n].kind == T.ClosedParen ==> GroupedAt(toks, pos) == Parsed(e, n + 1)
    ensures toks[n].kind != T.ClosedParen && toks[n].kind != T.Comma ==>
      GroupedAt(toks, pos) == Failed(UnexpectedToken(toks[n].line, T.ClosedParen, toks[n]))
  {
    GroupedElement(toks, pos, e, n);
    GroupTail(toks, n, e);
  }

  /** A `,` after the first element e of a group continues it as a list
      that starts with e (the contract of `ListRestAt`). */
  lemma {:induction false} GroupedList(toks: seq<T.Token>, pos: nat, e: V.Expr, n: nat)
    requires Input(toks, pos) && toks[pos].kind == T.OpenParen && toks[pos + 1].kind != T.ClosedParen
    requires ExpressionAt(toks, pos + 1, Lowest) == Parsed(e, n) && toks[n].kind == T.Comma
    ensures GroupedAt(toks, pos) == ListRestAt(toks, n + 1, toks[n + 1].line, [e])
  {
    GroupedElement(toks, pos, e, n);
    GroupTail(toks, n, e);
  }

  /** A statement not followed by a semicolon is an error expecting one. */
  lemma {:induction false} StatementsNeedSemicolons(toks: seq<T.Token>, pos: nat, end: T.Kind, stmts: seq<V.Expr>)
    requires Input(toks, pos) && toks[pos].kind != end
    ensures match ExpressionAt(toks, pos, Lowest)
      case Failed(e) => StatementsAt(toks, pos, end, stmts) == Failed(e)
      case Parsed(e, n) =>
        && (toks[n].kind != T.Semicolon ==>
              StatementsAt(toks, pos, end, stmts) == Failed(UnexpectedToken(toks[n].line, T.Semicolon, toks[n])))
        && (toks[n].kind == T.Semicolon ==>
              StatementsAt(toks, pos, end, stmts) == StatementsAt(toks, n + 1, end, stmts + [e]))
  {
  }

  /** An empty program parses to no statements; a program must end every
      statement with a semicolon. */
  lemma {:induction false} ProgramEndsAtEof(toks: seq<T.Token>)
    requires T.EndsWithEof(toks)
    ensures toks[0].kind == T.Eof ==> ProgramOf(toks) == Parsed([], 0)
    ensures ProgramOf(toks).Parsed? ==> toks[ProgramOf(toks).next].kind == T.Eof
  {
  }

  /** A NUMBER token whose text is a decimal literal. */
  predicate IsOperand(t: T.Token)
  {
    t.kind == T.Number && T.DecimalValue(t.value).Some?
  }

  function OperandOf(t: T.Token): V.Expr
    requires IsOperand(t)
  {
    V.Number(t.line, T.DecimalValue(t.value).value)
  }

  /** A binary operator of the infix table; `!` is postfix instead. */
  predicate IsBinary(t: T.Token)
  {
    InfixPrecedence(t.kind).Some? && t.kind != T.Bang
  }

  /** A number literal is a prefix expression on its own. */
  lemma {:induction false} NumberPrefix(toks: seq<T.Token>, pos: nat)
    requires Input(toks, pos) && IsOperand(toks[pos])
    ensures PrefixAt(toks, pos) == Parsed(OperandOf(toks[pos]), pos + 1)
  {
  }

  /** A number literal is a whole operand when the token after it does not
      bind tighter than `prec`. */
  lemma {:induction false} NumberOperand(toks: seq<T.Token>, pos: nat, prec: Precedence)
    requires Input(toks, pos) && IsOperand(toks[pos])
    requires NextLevel(toks[pos + 1]) <= Level(prec)
    ensures PrefixAt(toks, pos) == Parsed(OperandOf(toks[pos]), pos + 1)
    ensures ExpressionAt(toks, pos, prec) == Parsed(OperandOf(toks[pos]), pos + 1)
  {
  }

  /** The infix loop stops at a token that does not bind tighter than `prec`. */
  lemma {:induction false} LoopEnds(toks: seq<T.Token>, pos: nat, prec: Precedence, left: V.Expr)
    requires Input(toks, pos) && NextLevel(toks[pos]) <= Level(prec)
    ensures InfixLoopAt(toks, pos, prec, left) == Parsed(left, pos)
  {
  }

  /** One round of the infix loop: a binary operator that binds tighter than
      `prec` takes the operand parsed at its own level, and the loop goes on
      with the combined expression as its left operand. */
  lemma {:induction false} InfixRound(toks: seq<T.Token>, pos: nat, prec: Precedence, left: V.Expr, right: V.Expr, next: nat)
    requires Input(toks, pos) && IsBinary(toks[pos])
    requires Level(prec) < NextLevel(toks[pos])
    requires ExpressionAt(toks, pos + 1, PrecedenceOf(toks[pos].kind)) == Parsed(right, next)
    ensures InfixLoopAt(toks, pos, prec, left)
         == InfixLoopAt(toks, next, prec, V.BinaryExpression(toks[pos].line, left, toks[pos], right))
  {
    NextLevelAboveLowest(toks[pos]);
  }

  /** One round of the infix loop whose right operand is a single number
      (the token after it binds no tighter than the operator). */
  lemma {:induction false} OperandRound(toks: seq<T.Token>, pos: nat, prec: Precedence, left: V.Expr)
    requires Input(toks, pos) && IsBinary(toks[pos]) && Level(prec) < NextLevel(toks[pos])
    requires IsOperand(toks[pos + 1]) && NextLevel(toks[pos + 2]) <= NextLevel(toks[pos])
    ensures InfixLoopAt(toks, pos, prec, left)
         == InfixLoopAt(toks, pos + 2, prec, V.BinaryExpression(toks[pos].line, left, toks[pos], OperandOf(toks[pos + 1])))
  {
    NumberOperand(toks, pos + 1, PrecedenceOf(toks[pos].kind));
    InfixRound(toks, pos, prec, left, OperandOf(toks[pos + 1]), pos + 2);
  }

  /** `a op1 b op2 c`, followed by a token outside the infix table, groups to
      the left, `(a op1 b) op2 c`, when op1 binds at least as tightly as op2:
      so operators of one level associate to the left. */
  lemma {:induction false} GroupsLeft(toks: seq<T.Token>, pos: nat, a: T.Token, op1: T.Token, b: T.Token, op2: T.Token, c: T.Token)
    requires Input(toks, pos) && pos + 5 < |toks|
    requires toks[pos] == a && toks[pos + 1] == op1 && toks[pos + 2] == b && toks[pos + 3] == op2 && toks[pos + 4] == c
    requires IsOperand(a) && IsOperand(b) && IsOperand(c) && IsBinary(op1) && IsBinary(op2)
    requires InfixPrecedence(toks[pos + 5].kind).None? && NextLevel(op1) >= NextLevel(op2)
    ensures ExpressionAt(toks, pos, Lowest)
         == Parsed(V.BinaryExpression(op2.line, V.BinaryExpression(op1.line, OperandOf(a), op1, OperandOf(b)),
                     op2, OperandOf(c)), pos + 5)
  {
    var first := V.BinaryExpression(op1.line, OperandOf(a), op1, OperandOf(b));
    NextLevelAboveLowest(op1);
    NextLevelAboveLowest(op2);
    NextLevelAboveLowest(toks[pos + 5]);
    NumberPrefix(toks, pos);
    OperandRound(toks, pos + 1, Lowest, OperandOf(a));
    OperandRound(toks, pos + 3, Lowest, first);
    LoopEnds(toks, pos + 5, Lowest, V.BinaryExpression(op2.line, first, op2, OperandOf(c)));
  }

  /** `a op1 b op2 c`, followed by a token outside the infix table, groups to
      the right, `a op1 (b op2 c)`, when op2 binds tighter: so `1 + 2 * 2`
      nests the product under the sum. */
  lemma {:induction false} GroupsRight(toks: seq<T.Token>, pos: nat, a: T.Token, op1: T.Token, b: T.Token, op2: T.Token, c: T.Token)
    requires Input(toks, pos) && pos + 5 < |toks|
    requires toks[pos] == a && toks[pos + 1] == op1 && toks[pos + 2] == b && toks[pos + 3] == op2 && toks[pos + 4] == c
    requires IsOperand(a) && IsOperand(b) && IsOperand(c) && IsBinary(op1) && IsBinary(op2)
    requires InfixPrecedence(toks[pos + 5].kind).None? && NextLevel(op1) < NextLevel(op2)
    ensures ExpressionAt(toks, pos, Lowest)
         == Parsed(V.BinaryExpression(op1.line, OperandOf(a), op1,
                     V.BinaryExpression(op2.line, OperandOf(b), op2, OperandOf(c))), pos + 5)
  {
    var inner := V.BinaryExpression(op2.line, OperandOf(b), op2, OperandOf(c));
    NextLevelAboveLowest(op1);
    NextLevelAboveLowest(toks[pos + 5]);
    NumberPrefix(toks, pos);
    assert ExpressionAt(toks, pos + 2, PrecedenceOf(op1.kind)) == Parsed(inner, pos + 5) by {
      NumberPrefix(toks, pos + 2);
      OperandRound(toks, pos + 3, PrecedenceOf(op1.kind), OperandOf(b));
      LoopEnds(toks, pos + 5, PrecedenceOf(op1.kind), inner);
    }
    InfixRound(toks, pos + 1, Lowest, OperandOf(a), inner, pos + 5);
    LoopEnds(toks, pos + 5, Lowest, V.BinaryExpression(op1.line, OperandOf(a), op1, inner));
  }

  /** `x = y = c`: the value of an assignment is a whole expression, so
      assignments nest to the right. */
  lemma {:induction false} AssignmentsNestRight(toks: seq<T.Token>, pos: nat, x: T.Token, y: T.Token, c: T.Token)
    requires Input(toks, pos) && pos + 5 < |toks|
    requires toks[pos] == x && toks[pos + 2] == y && toks[pos + 4] == c
    requires x.kind == T.Identifier && y.kind == T.Identifier && IsOperand(c)
    requires toks[pos + 1].kind == T.Assign && toks[pos + 3].kind == T.Assign
    requires InfixPrecedence(toks[pos + 5].kind).None?
    ensures ExpressionAt(toks, pos, Lowest)
         == Parsed(V.Assignment(x.line, x.value, V.Assignment(y.line, y.value, OperandOf(c))), pos + 5)
  {
    var inner := V.Assignment(y.line, y.value, OperandOf(c));
    NextLevelAboveLowest(toks[pos + 5]);
    NumberOperand(toks, pos + 4, Lowest);
    assert PrefixAt(toks, pos + 2) == Parsed(inner, pos + 5) by {
      assert AssignAt(toks, pos + 2) == Parsed(inner, pos + 5);
    }
    LoopEnds(toks, pos + 5, Lowest, inner);
    assert PrefixAt(toks, pos) == Parsed(V.Assignment(x.line, x.value, inner), pos + 5) by {
      assert AssignAt(toks, pos) == Parsed(V.Assignment(x.line, x.value, inner), pos + 5);
    }
    LoopEnds(toks, pos + 5, Lowest, V.Assignment(x.line, x.value, inner));
  }

  /** `a !`: a postfix factorial takes no right operand. */
  lemma {:induction false} BangIsPostfix(toks: seq<T.Token>, pos: nat, a: T.Token, bang: T.Token)
    requires Input(toks, pos) && pos + 2 < |toks|
    requires toks[pos] == a && toks[pos + 1] == bang && IsOperand(a) && bang.kind == T.Bang
    requires InfixPrecedence(toks[pos + 2].kind).None?
    ensures ExpressionAt(toks, pos, Lowest) == Parsed(V.Factorial(bang.line, OperandOf(a)), pos + 2)
  {
    NextLevelAboveLowest(toks[pos + 2]);
    NumberPrefix(toks, pos);
    assert InfixAt(toks, pos + 1, OperandOf(a)) == Parsed(V.Factorial(bang.line, OperandOf(a)), pos + 2);
    LoopEnds(toks, pos + 2, Lowest, V.Factorial(bang.line, OperandOf(a)));
  }

  /** `- a op b`: a prefix operator takes a whole LOWEST-level expression. */
  lemma {:induction false} PrefixTakesWholeExpression(toks: seq<T.Token>, pos: nat, m: T.Token, a: T.Token, op: T.Token, b: T.Token)
    requires Input(toks, pos) && pos + 4 < |toks|
    requires toks[pos] == m && toks[pos + 1] == a && toks[pos + 2] == op && toks[pos + 3] == b
    requires m.kind in {T.Minus, T.Plus, T.Bang} && IsOperand(a) && IsBinary(op) && IsOperand(b)
    requires InfixPrecedence(toks[pos + 4].kind).None?
    ensures ExpressionAt(toks, pos, Lowest)
         == Parsed(V.UnaryExpression(m.line, m, V.BinaryExpression(op.line, OperandOf(a), op, OperandOf(b))), pos + 4)
  {
    var sum := V.BinaryExpression(op.line, OperandOf(a), op, OperandOf(b));
    NextLevelAboveLowest(op);
    NextLevelAboveLowest(toks[pos + 4]);
    assert ExpressionAt(toks, pos + 1, Lowest) == Parsed(sum, pos + 4) by {
      NumberPrefix(toks, pos + 1);
      OperandRound(toks, pos + 2, Lowest, OperandOf(a));
      LoopEnds(toks, pos + 4, Lowest, sum);
    }
    assert PrefixAt(toks, pos) == Parsed(V.UnaryExpression(m.line, m, sum), pos + 4);
    LoopEnds(toks, pos + 4, Lowest, V.UnaryExpression(m.line, m, sum));
  }

  // ---------------------------------------------------------------------------
  // The parser object: a cursor advanced in place
  // ---------------------------------------------------------------------------

  datatype Result<X> = Success(value: X) | Failure(error: ParseError)

  /** A method result agrees with the specification function, and on success
      the cursor stands where the function says the parse ends. */
  predicate Agrees<X(==)>(r: Result<X>, s: Parse<X>, pos: nat)
  {
    match s
    case Parsed(v, next) => r == Success(v) && pos == next
    case Failed(e) => r == Failure(e)
  }

  class Parser {
    const tokens: seq<T.Token>
    var pos: nat

    predicate Valid()
      reads this
    {
      Input(tokens, pos)
    }

    constructor (toks: seq<T.Token>)
      requires T.EndsWithEof(toks)
      ensures tokens == toks && pos == 0 && Valid()
    {
      tokens := toks;
      pos := 0;
    }

    method Advance()
      requires Valid() && tokens[pos].kind != T.Eof
      modifies this
      ensures Valid() && pos == old(pos) + 1
    {
      pos := pos + 1;
    }

    method IsExpectedToken(kind: T.Kind) returns (e: T.Option<ParseError>)
      requires Valid()
      ensures e == ExpectAt(tokens, pos, kind)
    {
      if tokens[pos].kind != kind {
        return T.Some(UnexpectedToken(tokens[pos].line, kind, tokens[pos]));
      }
      return T.None;
    }

    method Parse() returns (r: Result<seq<V.Expr>>)
      requires Valid() && pos == 0
      modifies this
      ensures Valid() && Agrees(r, ProgramOf(tokens), pos)
    {
      r := ParseStatements(T.Eof);
    }

    method ParseStatements(end: T.Kind) returns (r: Result<seq<V.Expr>>)
      requires Valid()
      modifies this
      ensures Valid() && Agrees(r, StatementsAt(tokens, old(pos), end, []), pos)
      decreases |tokens| - pos, 4
    {
      ghost var start := pos;
      var statements: seq<V.Expr> := [];
      while tokens[pos].kind != end
        invariant Valid() && start <= pos
        invariant StatementsAt(tokens, pos, end, statements) == StatementsAt(tokens, start, end, [])
        decreases |tokens| - pos
      {
        var e := Expression(Lowest);
        if e.Failure? {
          return Failure(e.error);
        }
        statements := statements + [e.value];
        var missing := IsExpectedToken(T.Semicolon);
        if missing.Some? {
          return Failure(missing.value);
        }
        Advance();
      }
      r := Success(statements);
    }

    method Expression(prec: Precedence) returns (r: Result<V.Expr>)
      requires Valid()
      modifies this
      ensures Valid() && Agrees(r, ExpressionAt(tokens, old(pos), prec), pos)
      decreases |tokens| - pos, 2
    {
      ghost var start := pos;
      var p := ParsePrefix();
      if p.Failure? {
        return p;
      }
      var left := p.value;
      ghost var afterPrefix := pos;
      while Level(prec) < NextLevel(tokens[pos])
        invariant Valid() && start < pos
        invariant InfixLoopAt(tokens, pos, prec, left) == InfixLoopAt(tokens, afterPrefix, prec, p.value)
        decreases |tokens| - pos
      {
        var i := ParseInfix(left);
        if i.Failure? {
          return i;
        }
        left := i.value;
      }
      r := Success(left);
    }

    method ParseInfix(left: V.Expr) returns (r: Result<V.Expr>)
      requires Valid() && tokens[pos].kind != T.Eof
      modifies this
      ensures Valid() && Agrees(r, InfixAt(tokens, old(pos), left), pos)
      decreases |tokens| - pos, 0
    {
      var op := tokens[pos];
      Advance();
      if op.kind == T.Bang {
        return Success(V.Factorial(op.line, left));
      }
      var right := Expression(PrecedenceOf(op.kind));
      if right.Failure? {
        return right;
      }
      r := Success(V.BinaryExpression(op.line, left, op, right.value));
    }

    method ParsePrefix() returns (r: Result<V.Expr>)
      requires Valid()
      modifies this
      ensures Valid() && Agrees(r, PrefixAt(tokens, old(pos)), pos)
      decreases |tokens| - pos, 1
    {
      var t := tokens[pos];
      if t.kind == T.Identifier && tokens[pos + 1].kind == T.Assign {
        r := ParseAssign();
      } else if t.kind == T.Minus || t.kind == T.Plus || t.kind == T.Bang {
        Advance();
        var e := Expression(Lowest);
        if e.Failure? {
          return e;
        }
        r := Success(V.UnaryExpression(t.line, t, e.value));
      } else if t.kind == T.OpenParen {
        r := ParseGroupedExpression();
      } else if t.kind == T.Number {
        match T.DecimalValue(t.value)
        case Some(v) =>
          Advance();
          r := Success(V.Number(t.line, v));
        case None =>
          r := Failure(BadNumber(t.line, t.value));
      } else if t.kind == T.String {
        Advance();
        r := Success(V.String(t.line, t.value));
      } else if t.kind == T.Boolean {
        Advance();
        r := Success(V.Boolean(t.line, t.value == T.TrueLiteral));
      } else if t.kind == T.Identifier {
        Advance();
        if t.value in V.BuiltinNames {
          r := Success(V.BuiltinFunction(t.line, t.value));
        } else {
          r := Success(V.Identifier(t.line, t.value));
        }
      } else if t.kind == T.Function {
        r := ParseFunction();
      } else if t.kind == T.When {
        r := ParseWhen();
      } else {
        r := Failure(InvalidToken(t.line, t.kind, t.value));
      }
    }

    method ParseAssign() returns (r: Result<V.Expr>)
      requires Valid()
      modifies this
      ensures Valid() && Agrees(r, AssignAt(tokens, old(pos)), pos)
      decreases |tokens| - pos, 0
    {
      var missing := IsExpectedToken(T.Identifier);
      if missing.Some? {
        return Failure(missing.value);
      }
      var name := tokens[pos];
      Advance();
      missing := IsExpectedToken(T.Assign);
      if missing.Some? {
        return Failure(missing.value);
      }
      Advance();
      var right := Expression(Lowest);
      if right.Failure? {
        return right;
      }
      r := Success(V.Assignment(name.line, name.value, right.value));
    }

    method ParseGroupedExpression() returns (r: Result<V.Expr>)
      requires Valid() && tokens[pos].kind != T.Eof
      modifies this
      ensures Valid() && Agrees(r, GroupedAt(tokens, old(pos)), pos)
      decreases |tokens| - pos, 0
    {
      ghost var start := pos;
      Advance();
      if tokens[pos].kind == T.ClosedParen {
        Advance();
        return Success(V.List(tokens[pos].line, []));
      }
      var e := Expression(Lowest);
      if e.Failure? {
        return e;
      }
      assert GroupedAt(tokens, start) == GroupTailAt(tokens, pos, e.value);
      if tokens[pos].kind == T.ClosedParen {
        Advance();
        return e;
      } else if tokens[pos].kind == T.Comma {
        Advance();
        r := ParseList(e.value);
        return;
      }
      r := Failure(UnexpectedToken(tokens[pos].line, T.ClosedParen, tokens[pos]));
    }

    method ParseList(first: V.Expr) returns (r: Result<V.Expr>)
      requires Valid()
      modifies this
      ensures Valid() && Agrees(r, ListRestAt(tokens, old(pos), old(tokens[pos].line), [first]), pos)
      decreases |tokens| - pos, 3
    {
      ghost var start := pos;
      var line := tokens[pos].line;
      var values := [first];
      while true
        invariant Valid() && start <= pos
        invariant ListRestAt(tokens, pos, line, values) == ListRestAt(tokens, start, line, [first])
        decreases |tokens| - pos
      {
        if tokens[pos].kind == T.ClosedParen {
          Advance();
          break;
        }
        ghost var here, before := pos, values;
        var e := Expression(Lowest);
        if e.Failure? {
          return e;
        }
        values := values + [e.value];
        assert ListRestAt(tokens, here, line, before) == ListNextAt(tokens, pos, line, values);
        if tokens[pos].kind == T.ClosedParen {
          Advance();
          break;
        }
        var missing := IsExpectedToken(T.Comma);
        if missing.Some? {
          return Failure(missing.value);
        }
        Advance();
      }
      r := Success(V.List(line, values));
    }

    method ParseFunction() returns (r: Result<V.Expr>)
      requires Valid() && tokens[pos].kind != T.Eof
      modifies this
      ensures Valid() && Agrees(r, FunctionAt(tokens, old(pos)), pos)
      decreases |tokens| - pos, 0
    {
      ghost var start := pos;
      var line := tokens[pos].line;
      Advance();
      var missing := IsExpectedToken(T.OpenParen);
      if missing.Some? {
        return Failure(missing.value);
      }
      Advance();
      var params := ParseParameters();
      if params.Failure? {
        return Failure(params.error);
      }
      assert FunctionAt(tokens, start) == FunctionBodyAt(tokens, pos, line, params.value);
      r := FunctionBody(line, params.value);
    }

    /** The tail of `parse_function`: `:` and the body. */
    method FunctionBody(line: int, params: seq<V.Expr>) returns (r: Result<V.Expr>)
      requires Valid()
      modifies this
      ensures Valid() && Agrees(r, FunctionBodyAt(tokens, old(pos), line, params), pos)
      decreases |tokens| - pos, 0
    {
      var missing := IsExpectedToken(T.Colon);
      if missing.Some? {
        return Failure(missing.value);
      }
      Advance();
      var body := Expression(Lowest);
      if body.Failure? {
        return body;
      }
      r := Success(V.Function(line, params, body.value));
    }

    /** The parameter loop of `parse_function`. */
    method ParseParameters() returns (r: Result<seq<V.Expr>>)
      requires Valid()
      modifies this
      ensures Valid() && Agrees(r, ParamsAt(tokens, old(pos), []), pos)
      decreases |tokens| - pos, 3
    {
      ghost var start := pos;
      var params: seq<V.Expr> := [];
      while true
        invariant Valid() && start <= pos
        invariant ParamsAt(tokens, pos, params) == ParamsAt(tokens, start, [])
        decreases |tokens| - pos
      {
        if tokens[pos].kind == T.ClosedParen {
          Advance();
          break;
        }
        ghost var here, before := pos, params;
        var e := Expression(Lowest);
        if e.Failure? {
          return Failure(e.error);
        }
        if !e.value.Identifier? {
          return Failure(UnsupportedParameter(e.value.line, V.TypeName(e.value)));
        }
        params := params + [e.value];
        assert ParamsAt(tokens, here, before) == ParamsNextAt(tokens, pos, params);
        if tokens[pos].kind == T.ClosedParen {
          Advance();
          break;
        }
        var missing := IsExpectedToken(T.Comma);
        if missing.Some? {
          return Failure(missing.value);
        }
        Advance();
      }
      r := Success(params);
    }

    method ParseWhen() returns (r: Result<V.Expr>)
      requires Valid() && tokens[pos].kind != T.Eof
      modifies this
      ensures Valid() && Agrees(r, WhenAt(tokens, old(pos)), pos)
      decreases |tokens| - pos, 0
    {
      var line := tokens[pos].line;
      Advance();
      var isSwitch := tokens[pos].kind != T.Colon;
      var subject;
      if isSwitch {
        var s := Expression(Lowest);
        if s.Failure? {
          return s;
        }
        subject := s.value;
      } else {
        subject := V.Boolean(line, true);
      }
      r := ParseWhenBody(line, subject, isSwitch);
    }

    /** `parse_when` from the colon after the subject. */
    method ParseWhenBody(line: int, subject: V.Expr, isSwitch: bool) returns (r: Result<V.Expr>)
      requires Valid()
      modifies this
      ensures Valid() && Agrees(r, WhenBodyAt(tokens, old(pos), line, subject, isSwitch), pos)
      decreases |tokens| - pos, 0
    {
      ghost var start := pos;
      var missing := IsExpectedToken(T.Colon);
      if missing.Some? {
        return Failure(missing.value);
      }
      Advance();
      var cases := ParseCases(isSwitch);
      ghost var cs := CasesAt(tokens, start + 1, isSwitch, []);
      if cases.Failure? {
        assert cs.Failed? && cs.error == cases.error;
        return Failure(cases.error);
      }
      assert cs == Parsed(cases.value, pos);
      r := ParseWhenElse(line, subject, cases.value);
      assert WhenBodyAt(tokens, start, line, subject, isSwitch) == WhenElseAt(tokens, cs.next, line, subject, cs.value);
    }

    /** The `else` case of `parse_when`. */
    method ParseWhenElse(line: int, subject: V.Expr, cases: seq<V.Case>) returns (r: Result<V.Expr>)
      requires Valid()
      modifies this
      ensures Valid() && Agrees(r, WhenElseAt(tokens, old(pos), line, subject, cases), pos)
      decreases |tokens| - pos, 0
    {
      ghost var start := pos;
      var missing := IsExpectedToken(T.Else);
      if missing.Some? {
        return Failure(missing.value);
      }
      var elseLine := tokens[pos].line;
      Advance();
      missing := IsExpectedToken(T.Colon);
      if missing.Some? {
        assert WhenElseAt(tokens, start, line, subject, cases) == Failed(missing.value);
        return Failure(missing.value);
      }
      Advance();
      var elseResult := Expression(Lowest);
      if elseResult.Failure? {
        assert WhenElseAt(tokens, start, line, subject, cases) == Failed(elseResult.error);
        return elseResult;
      }
      r := Success(V.When(line, subject, cases + [V.Case(V.WithLine(subject, elseLine), elseResult.value)]));
      assert WhenElseAt(tokens, start, line, subject, cases) == Parsed(r.value, pos);
    }

    /** The case loop of `parse_when`; it stops on the `else` token. */
    method ParseCases(isSwitch: bool) returns (r: Result<seq<V.Case>>)
      requires Valid()
      modifies this
      ensures Valid() && Agrees(r, CasesAt(tokens, old(pos), isSwitch, []), pos)
      decreases |tokens| - pos, 5
    {
      ghost var start := pos;
      var cases: seq<V.Case> := [];
      while true
        invariant Valid() && start <= pos
        invariant CasesAt(tokens, pos, isSwitch, cases) == CasesAt(tokens, start, isSwitch, [])
        decreases |tokens| - pos
      {
        var c := ParseCase(isSwitch);
        if c.Failure? {
          return Failure(c.error);
        }
        cases := cases + [c.value];
        if tokens[pos].kind == T.Else {
          break;
        }
      }
      r := Success(cases);
    }

    method ParseCase(isSwitch: bool) returns (r: Result<V.Case>)
      requires Valid()
      modifies this
      ensures Valid() && Agrees(r, CaseAt(tokens, old(pos), isSwitch), pos)
      decreases |tokens| - pos, 4
    {
      ghost var start := pos;
      if isSwitch {
        var missing := IsExpectedToken(T.Is);
        if missing.Some? {
          return Failure(missing.value);
        }
        Advance();
      }
      assert CaseAt(tokens, start, isSwitch) == CaseBodyAt(tokens, pos);
      ghost var body := pos;
      var comparison := Expression(Lowest);
      if comparison.Failure? {
        return Failure(comparison.error);
      }
      var missing := IsExpectedToken(T.Colon);
      if missing.Some? {
        return Failure(missing.value);
      }
      Advance();
      var result := Expression(Lowest);
      if result.Failure? {
        return Failure(result.error);
      }
      r := Success(V.Case(comparison.value, result.value));
      assert CaseBodyAt(tokens, body) == Parsed(r.value, pos);
    }
  }
}
