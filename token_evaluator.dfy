/**
 * The evaluator of evaluator.py, the version whose values are the tokens
 * themselves: a number is a NUMBER token, a truth value a BOOLEAN token whose
 * text is "true" or "false", and a binary operation needs two operands of
 * exactly the same token type.
 *
 * The node classes are those of _parser/ast_objects.py (module LegacyAst).
 * The evaluator reads a `Return`'s operand as `expression` and a `Type` call's
 * arguments as `value`, attributes neither class has. The evaluation
 * functions take a `Reading`: `AsWritten` raises the AttributeError there as
 * the program does, and `Intended`, the default that the properties and the
 * `Evaluator` object use, reads the classes' own `expr` and `params`.
 *
 * As in the other evaluators, each step is a function of (fuel, environment,
 * node) returning a result, a `ReturnException` on its way up, or an
 * exception, each with the environment left behind, and the `Evaluator`
 * object's methods are proved to agree with those functions. Every
 * evaluation step and every loop iteration spends one unit of fuel.
 */
module TokenEvaluator {
  import T = Tokens
  import L = LegacyAst

  /** `valid_operation_types.get(op, [])`. */
  function ValidTypes(op: T.Kind): seq<T.Kind>
  {
    match op
    case Plus | Minus | Multiply | Divide | Gt | Ge | Lt | Le => [T.Number]
    case Eq | Ne => [T.Number, T.Boolean]
    case Bang | And | Or => [T.Boolean]
    case _ => []
  }

  /** What an evaluation yields: a token (a `NoReturn` among them), the list
      `evaluate_statements` returns, or an `AssignFunction` node, which
      evaluates to itself. */
  datatype Result = Tok(token: L.Token) | Many(items: seq<Result>) | Def(node: L.Node)

  /** The Python class name of a result. */
  function ClassOf(r: Result): string
  {
    match r
    case Tok(t) => if t.NoReturn? then "NoReturn" else "Token"
    case Many(_) => "list"
    case Def(n) => L.ClassName(n)
  }

  datatype Attempt<X> = Done(value: X) | Raised(message: string)

  /** Python's message for an AttributeError. */
  function AttributeMessage(cls: string, attribute: string): string
  {
    "'" + cls + "' object has no attribute '" + attribute + "'"
  }

  function NoAttribute(r: Result, attribute: string): string
  {
    AttributeMessage(ClassOf(r), attribute)
  }

  /** `r.type`. */
  function TypeAttr(r: Result): (a: Attempt<T.Kind>)
    ensures a.Done? <==> r.Tok?
  {
    if r.Tok? then Done(L.KindOf(r.token)) else Raised(NoAttribute(r, "type"))
  }

  /** `r.value`. */
  function ValueAttr(r: Result): (a: Attempt<L.Datum>)
    ensures a.Done? <==> r.Tok?
  {
    if r.Tok? then Done(L.ValueOf(r.token)) else Raised(NoAttribute(r, "value"))
  }

  /** `str()` of a token value; the digits of a float are not modelled. */
  function Show(d: L.Datum): string
  {
    match d
    case Text(s) => s
    case Whole(i) => T.IntToString(i)
    case Fraction(_) => "<float>"
  }

  // ---------------------------------------------------------------------------
  // Python values of tokens
  // ---------------------------------------------------------------------------

  /** `int(x)` of a float: truncation toward zero. */
  function Truncate(x: real): (i: int)
    ensures x >= 0.0 ==> i as real <= x < i as real + 1.0
    ensures x < 0.0 ==> i as real - 1.0 < x <= i as real
  {
    if x >= 0.0 then x.Floor else -((-x).Floor)
  }

  /** `int(text)` for an optionally signed run of decimal digits. */
  function ParseInt(s: string): Attempt<int>
  {
    if |s| > 0 && T.AllDigits(s) then Done(T.DigitsValue(0, s))
    else if |s| > 1 && s[0] == '-' && T.AllDigits(s[1..]) then Done(-(T.DigitsValue(0, s[1..]) as int))
    else if |s| > 1 && s[0] == '+' && T.AllDigits(s[1..]) then Done(T.DigitsValue(0, s[1..]))
    else Raised("invalid literal for int() with base 10: '" + s + "'")
  }

  function IntOf(d: L.Datum): Attempt<int>
  {
    match d
    case Whole(i) => Done(i)
    case Fraction(x) => Done(Truncate(x))
    case Text(s) => ParseInt(s)
  }

  /** A Python int or bool. */
  datatype Literal = IntValue(i: int) | BoolValue(b: bool)

  /** A bool in arithmetic and comparisons counts as 0 or 1. */
  function AsInt(x: Literal): int
  {
    if x.IntValue? then x.i else if x.b then 1 else 0
  }

  predicate Truthy(x: Literal)
  {
    AsInt(x) != 0
  }

  /** `get_literal_value`: NUMBER tokens through `int()`, BOOLEAN tokens by
      their text. */
  function LiteralValue(t: L.Token): (a: Attempt<Literal>)
    ensures L.KindOf(t) == T.Boolean ==> a == Done(BoolValue(L.ValueOf(t) == L.Text("true")))
  {
    if L.KindOf(t) == T.Number then
      match IntOf(L.ValueOf(t))
      case Done(i) => Done(IntValue(i))
      case Raised(m) => Raised(m)
    else if L.KindOf(t) == T.Boolean then Done(BoolValue(L.ValueOf(t) == L.Text("true")))
    else Raised("Unsupported type: " + T.KindName(L.KindOf(t)))
  }

  /** `get_token_literal("TRUE")` or `("FALSE")`. */
  function TruthText(b: bool): string
  {
    if b then "true" else "false"
  }

  function BooleanToken(b: bool, line: int): L.Token
  {
    L.Token(L.Text(TruthText(b)), T.Boolean, line)
  }

  // ---------------------------------------------------------------------------
  // Operators
  // ---------------------------------------------------------------------------

  function Refusal(op: T.Kind, lt: T.Kind, rt: T.Kind): string
  {
    "Cannot perform " + T.KindName(op) + " operation on " + T.KindName(lt) + " and " + T.KindName(rt)
  }

  function UnaryRefusal(op: T.Kind, t: T.Kind): string
  {
    "Cannot perform " + T.KindName(op) + " operation on " + T.KindName(t)
  }

  /** The checks of `evaluate_binary_expression` on the two validated
      operands: the same type, and a type the operator accepts. */
  function BinaryOn(op: L.Token, left: Result, right: Result): Attempt<Result>
  {
    var k := L.KindOf(op);
    match TypeAttr(left)
    case Raised(m) => Raised(m)
    case Done(lt) =>
      match TypeAttr(right)
      case Raised(m) => Raised(m)
      case Done(rt) =>
        if lt != rt then Raised(Refusal(k, lt, rt))
        else if lt !in ValidTypes(k) || rt !in ValidTypes(k) then Raised(Refusal(k, lt, rt))
        else BinaryTokens(op, left.token, right.token)
  }

  /** The operator itself, on the operands' Python values; the result carries
      the left operand's line. */
  function BinaryTokens(op: L.Token, left: L.Token, right: L.Token): Attempt<Result>
  {
    match LiteralValue(left)
    case Raised(m) => Raised(m)
    case Done(a) =>
      match LiteralValue(right)
      case Raised(m) => Raised(m)
      case Done(b) => BinaryValues(op, a, b, left.line)
  }

  /** The operator's branch, on the two Python values. */
  function BinaryValues(op: L.Token, a: Literal, b: Literal, line: int): Attempt<Result>
  {
    var k := L.KindOf(op);
    var x, y := AsInt(a), AsInt(b);
    if k == T.Plus then Done(Tok(L.Token(L.Whole(x + y), T.Number, line)))
    else if k == T.Minus then Done(Tok(L.Token(L.Whole(x - y), T.Number, line)))
    else if k == T.Multiply then Done(Tok(L.Token(L.Whole(x * y), T.Number, line)))
    else if k == T.Divide then
      if y == 0 then Raised("Division by zero")
      else Done(Tok(L.Token(L.Fraction(x as real / y as real), T.Number, line)))
    else if k == T.Eq then Done(Tok(BooleanToken(x == y, line)))
    else if k == T.Ne then Done(Tok(BooleanToken(x != y, line)))
    else if k == T.Gt then Done(Tok(BooleanToken(x > y, line)))
    else if k == T.Ge then Done(Tok(BooleanToken(x >= y, line)))
    else if k == T.Lt then Done(Tok(BooleanToken(x < y, line)))
    else if k == T.Le then Done(Tok(BooleanToken(x <= y, line)))
    else if k == T.And then Done(Tok(BooleanToken(Truthy(a) && Truthy(b), line)))
    else if k == T.Or then Done(Tok(BooleanToken(Truthy(a) || Truthy(b), line)))
    else Raised("Invalid binary operator '" + Show(L.ValueOf(op)) + "' at line " + T.IntToString(op.line))
  }

  /** `evaluate_unary_expression` on the validated operand. An operator that
      passes the table but has no branch fails while formatting its message,
      which reads the operand's missing `op` attribute. */
  function UnaryOn(op: L.Token, v: Result): Attempt<Result>
  {
    var k := L.KindOf(op);
    match TypeAttr(v)
    case Raised(m) => Raised(m)
    case Done(t) =>
      if t !in ValidTypes(k) then Raised(UnaryRefusal(k, t))
      else match LiteralValue(v.token)
        case Raised(m) => Raised(m)
        case Done(a) =>
          if k == T.Plus then Done(Tok(L.Token(L.Whole(AsInt(a)), T.Number, v.token.line)))
          else if k == T.Minus then Done(Tok(L.Token(L.Whole(-AsInt(a)), T.Number, v.token.line)))
          else if k == T.Bang then Done(Tok(BooleanToken(!Truthy(a), v.token.line)))
          else Raised(NoAttribute(v, "op"))
  }

  // ---------------------------------------------------------------------------
  // Scope chain
  // ---------------------------------------------------------------------------

  type Scope = map<L.Datum, Result>

  datatype Failure = Error(message: string) | OutOfFuel

  datatype Eval<X> =
    | Ok(value: X, env: seq<Scope>)
    | Returning(returned: Result, env: seq<Scope>)
    | Fail(failure: Failure, env: seq<Scope>)

  function Abort<X, Y>(r: Eval<X>): (s: Eval<Y>)
    requires !r.Ok?
    ensures !s.Ok? && s.env == r.env
  {
    match r
    case Returning(v, e) => Returning(v, e)
    case Fail(f, e) => Fail(f, e)
  }

  function Lift(a: Attempt<Result>, env: seq<Scope>): (r: Eval<Result>)
    ensures r.env == env && !r.Returning?
  {
    match a
    case Done(v) => Ok(v, env)
    case Raised(m) => Fail(Error(m), env)
  }

  /** `get_variable`: the innermost binding, or None. */
  function Lookup(env: seq<Scope>, name: L.Datum): T.Option<Result>
    decreases |env|
  {
    if env == [] then T.None
    else if name in env[0] then T.Some(env[0][name])
    else Lookup(env[1..], name)
  }

  lemma {:induction false} LookupFirstHit(env: seq<Scope>, name: L.Datum, i: nat)
    requires i < |env| && name in env[i]
    requires forall j :: 0 <= j < i ==> name !in env[j]
    ensures Lookup(env, name) == T.Some(env[i][name])
    decreases i
  {
    if i > 0 {
      assert name !in env[0];
      assert forall j :: 0 <= j < i - 1 ==> env[1..][j] == env[j + 1];
      LookupFirstHit(env[1..], name, i - 1);
    }
  }

  lemma {:induction false} LookupMiss(env: seq<Scope>, name: L.Datum)
    ensures Lookup(env, name).None? <==> forall j :: 0 <= j < |env| ==> name !in env[j]
    decreases |env|
  {
    if env != [] {
      LookupMiss(env[1..], name);
      assert forall j :: 1 <= j < |env| ==> env[j] == env[1..][j - 1];
    }
  }

  function SetVar(env: seq<Scope>, name: L.Datum, v: Result): (e: seq<Scope>)
    requires |env| > 0
    ensures |e| == |env| && e[1..] == env[1..] && e[0] == env[0][name := v]
  {
    env[0 := env[0][name := v]]
  }

  // ---------------------------------------------------------------------------
  // Evaluation
  // ---------------------------------------------------------------------------
  //
  // Ranks for termination: (fuel, 0, 0) EvalAt; (fuel, 1, 0) ValidateAt;
  // (fuel, 1, n) StatementsFrom; (fuel, 2, 0) StatementsAt; (fuel, 2, 1)
  // RunBody; (fuel, 2, n) ArgsAt and PrintAt; (fuel, 3, 0) the per-node
  // helpers, which EvalAt calls with fuel - 1.

  /** How `evaluate_expression` reaches the operands of `Return` and `Type`.
      `Intended` reads the attributes those classes set, `expr` and `params`.
      `AsWritten` reads the names evaluator.py:158, 162 and 172 use, `value`
      and `expression`, which neither class has. */
  datatype Reading = Intended | AsWritten

  /** The instance attributes each class of _parser/ast_objects.py sets in
      its constructor (`BuiltinFunction`'s subclasses inherit theirs). */
  function Attributes(n: L.Node): set<string>
  {
    match n
    case ExpressionStatement(_) => {"expr"}
    case Number(_) => {"token"}
    case Float(_) => {"token"}
    case Boolean(_) => {"token"}
    case String(_) => {"token"}
    case Identifier(_) => {"token"}
    case Print(_, _) => {"params", "line_num"}
    case Type(_, _) => {"params", "line_num"}
    case Random(_, _) => {"params", "line_num"}
    case Dictionary(_, _, _) => {"keys", "values", "line_num"}
    case Index(_, _) => {"left", "index"}
    case Return(_, _) => {"expr"}
    case Loop(_, _, _) => {"condition", "statements"}
    case AssignFunction(_, _, _, _) => {"name", "parameters", "statements"}
    case IfStatement(_, _, _, _) => {"comparison", "true_statements", "false_statements"}
    case FunctionCall(_, _, _) => {"name", "parameter_values"}
    case BinaryOperation(_, _, _) => {"left", "op", "right"}
    case AssignVariable(_, _, _) => {"name", "value"}
    case UnaryOperation(_, _, _) => {"op", "expression"}
  }

  /** Reading an attribute the node's class does not set raises
      AttributeError. */
  function MissingAttribute(env: seq<Scope>, n: L.Node, attribute: string): (r: Eval<Result>)
    requires attribute !in Attributes(n)
    ensures r.Fail? && r.env == env
  {
    Fail(Error(AttributeMessage(L.ClassName(n), attribute)), env)
  }

  function UnsupportedMessage(n: L.Node): string
  {
    "Unsupported type: <class '_parser.ast_objects." + L.ClassName(n) + "'>"
  }

  /** `evaluate_expression`. No evaluation adds or removes a scope or changes
      any scope but the innermost. Read as written, a `Return` or `Type`
      node always raises, and so no evaluation ever raises a
      `ReturnException` that reaches its caller. */
  function EvalAt(fuel: nat, env: seq<Scope>, n: L.Node, w: Reading := Intended): (r: Eval<Result>)
    requires |env| > 0
    ensures |r.env| == |env| && r.env[1..] == env[1..]
    ensures w.AsWritten? ==> !r.Returning?
    ensures w.AsWritten? && (n.Return? || n.Type?) ==> r.Fail?
    decreases fuel, 0, 0
  {
    if fuel == 0 then Fail(OutOfFuel, env)
    else if IsLeaf(n) then LeafAt(env, n)
    else match n
      case BinaryOperation(_, _, _) => BinaryAt(fuel - 1, env, n, w)
      case UnaryOperation(_, _, _) => UnaryAt(fuel - 1, env, n, w)
      case IfStatement(_, _, _, _) => IfAt(fuel - 1, env, n, w)
      case AssignVariable(_, _, _) => AssignAt(fuel - 1, env, n, w)
      case FunctionCall(_, _, _) => CallAt(fuel - 1, env, n, w)
      case Loop(_, c, body) => LoopAt(fuel - 1, env, c, body, w)
      case Print(ps, line) => PrintAt(fuel - 1, env, ps, line, w)
      case Type(_, _) => if w.AsWritten? then MissingAttribute(env, n, "value") else TypeAt(fuel - 1, env, n, w)
      case Return(_, e) => if w.AsWritten? then MissingAttribute(env, n, "expression") else ValidateAt(fuel - 1, env, e, w)
  }

  /** The node classes whose evaluation evaluates no other node. */
  predicate IsLeaf(n: L.Node)
  {
    n.AssignFunction? || n.Identifier? || n.Number? || n.Boolean? || n.ExpressionStatement?
    || n.Float? || n.String? || n.Random? || n.Dictionary? || n.Index?
  }

  /** A function definition evaluates to itself, an identifier to its
      binding, a number or boolean to its token; every other class here is
      unsupported. */
  function LeafAt(env: seq<Scope>, n: L.Node): (r: Eval<Result>)
    requires IsLeaf(n)
    ensures r.env == env
  {
    match n
    case AssignFunction(_, _, _, _) => Ok(Def(n), env)
    case Identifier(t) => IdentifierAt(env, t)
    case Number(t) => Ok(Tok(t), env)
    case Boolean(t) => Ok(Tok(t), env)
    case ExpressionStatement(_) => Fail(Error(UnsupportedMessage(n)), env)
    case Float(_) => Fail(Error(UnsupportedMessage(n)), env)
    case String(_) => Fail(Error(UnsupportedMessage(n)), env)
    case Random(_, _) => Fail(Error(UnsupportedMessage(n)), env)
    case Dictionary(_, _, _) => Fail(Error(UnsupportedMessage(n)), env)
    case Index(_, _) => Fail(Error(UnsupportedMessage(n)), env)
  }

  /** The variable branch: the innermost binding, as stored. */
  function IdentifierAt(env: seq<Scope>, t: L.Token): (r: Eval<Result>)
    ensures r.env == env
  {
    match Lookup(env, L.ValueOf(t))
    case Some(v) => Ok(v, env)
    case None => Fail(Error("Undefined variable at line " + T.IntToString(t.line) + ": " + Show(L.ValueOf(t))), env)
  }

  function NoValueMessage(line: int): string
  {
    "Error at line " + T.IntToString(line) + ": cannot evaluate expression that returns no value"
  }

  /** `validate_expression`: a `NoReturn` is an error. */
  function ValidateAt(fuel: nat, env: seq<Scope>, n: L.Node, w: Reading := Intended): (r: Eval<Result>)
    requires |env| > 0
    ensures w.AsWritten? ==> !r.Returning?
    ensures |r.env| == |env| && r.env[1..] == env[1..]
    ensures r.Ok? ==> !(r.value.Tok? && r.value.token.NoReturn?)
    decreases fuel, 1, 0
  {
    Validated(EvalAt(fuel, env, n, w))
  }

  /** The check `validate_expression` applies to an evaluated result. */
  function Validated(v: Eval<Result>): (r: Eval<Result>)
    ensures r.env == v.env
    ensures r.Ok? ==> !(r.value.Tok? && r.value.token.NoReturn?)
    ensures v.Ok? && !(v.value.Tok? && v.value.token.NoReturn?) ==> r == v
  {
    if v.Ok? && v.value.Tok? && v.value.token.NoReturn? then Fail(Error(NoValueMessage(v.value.token.line)), v.env)
    else v
  }

  function BinaryAt(fuel: nat, env: seq<Scope>, n: L.Node, w: Reading := Intended): (r: Eval<Result>)
    requires |env| > 0 && n.BinaryOperation?
    ensures w.AsWritten? ==> !r.Returning?
    ensures |r.env| == |env| && r.env[1..] == env[1..]
    ensures r.Ok? ==> r.value.Tok? && r.value.token.Token?
    decreases fuel, 3, 0
  {
    var l := ValidateAt(fuel, env, n.left, w);
    if !l.Ok? then l
    else
      var r := ValidateAt(fuel, l.env, n.right, w);
      if !r.Ok? then r else Lift(BinaryOn(n.op, l.value, r.value), r.env)
  }

  function UnaryAt(fuel: nat, env: seq<Scope>, n: L.Node, w: Reading := Intended): (r: Eval<Result>)
    requires |env| > 0 && n.UnaryOperation?
    ensures w.AsWritten? ==> !r.Returning?
    ensures |r.env| == |env| && r.env[1..] == env[1..]
    ensures r.Ok? ==> r.value.Tok? && r.value.token.Token?
    decreases fuel, 3, 0
  {
    var v := ValidateAt(fuel, env, n.expression, w);
    if !v.Ok? then v else Lift(UnaryOn(n.op, v.value), v.env)
  }

  /** `.value == "true"` of a validated condition. */
  function ConditionHolds(c: Result): (a: Attempt<bool>)
    ensures a.Done? <==> c.Tok?
  {
    match ValueAttr(c)
    case Done(d) => Done(d == L.Text("true"))
    case Raised(m) => Raised(m)
  }

  /** `if`: the chosen block's statements are the statement's result. */
  function IfAt(fuel: nat, env: seq<Scope>, n: L.Node, w: Reading := Intended): (r: Eval<Result>)
    requires |env| > 0 && n.IfStatement?
    ensures w.AsWritten? ==> !r.Returning?
    ensures |r.env| == |env| && r.env[1..] == env[1..]
    decreases fuel, 3, 0
  {
    var c := ValidateAt(fuel, env, n.comparison, w);
    if !c.Ok? then c
    else match ConditionHolds(c.value)
      case Raised(m) => Fail(Error(m), c.env)
      case Done(true) => StatementsAt(fuel, c.env, n.trueStatements, w)
      case Done(false) =>
        if n.falseStatements.Some? then StatementsAt(fuel, c.env, n.falseStatements.value, w)
        else Ok(Tok(L.NoReturn(0)), c.env)
  }

  /** `let`: bind the validated value in the current scope. */
  function AssignAt(fuel: nat, env: seq<Scope>, n: L.Node, w: Reading := Intended): (r: Eval<Result>)
    requires |env| > 0 && n.AssignVariable?
    ensures w.AsWritten? ==> !r.Returning?
    ensures |r.env| == |env| && r.env[1..] == env[1..]
    ensures r.Ok? ==> r.value == Tok(L.NoReturn(n.name.line)) && L.ValueOf(n.name) in r.env[0]
    ensures r.Ok? ==> !(r.env[0][L.ValueOf(n.name)].Tok? && r.env[0][L.ValueOf(n.name)].token.NoReturn?)
    decreases fuel, 3, 0
  {
    var v := ValidateAt(fuel, env, n.value, w);
    if !v.Ok? then v
    else Ok(Tok(L.NoReturn(n.name.line)), SetVar(v.env, L.ValueOf(n.name), v.value))
  }

  function JoinNames(ps: seq<L.Token>): string
  {
    if ps == [] then "" else if |ps| == 1 then Show(L.ValueOf(ps[0])) else Show(L.ValueOf(ps[0])) + ", " + JoinNames(ps[1..])
  }

  function ArityMessage(name: L.Datum, ps: seq<L.Token>, given: nat): string
  {
    "Incorrect number of arguments. Function '" + Show(name) + "' defined with " + T.NatToString(|ps|)
    + " parameters (" + JoinNames(ps) + "), but " + T.NatToString(given) + " given."
  }

  /** The function branch: the callee is looked up among the variables. */
  function CallAt(fuel: nat, env: seq<Scope>, n: L.Node, w: Reading := Intended): (r: Eval<Result>)
    requires |env| > 0 && n.FunctionCall?
    ensures w.AsWritten? ==> !r.Returning?
    ensures |r.env| == |env| && r.env[1..] == env[1..]
    decreases fuel, 3, 0
  {
    var name := L.ValueOf(n.name);
    match Lookup(env, name)
    case None => Fail(Error("Undefined function at line " + T.IntToString(n.name.line) + ": " + Show(name)), env)
    case Some(f) =>
      if !(f.Def? && f.node.AssignFunction?) then Fail(Error(NoAttribute(f, "parameters")), env)
      else if |f.node.parameters| != |n.parameterValues| then
        Fail(Error(ArityMessage(name, f.node.parameters, |n.parameterValues|)), env)
      else
        var args := ArgsAt(fuel, env, f.node.parameters, n.parameterValues, map[], w);
        if !args.Ok? then Abort(args) else RunBody(fuel, args.env, f.node, args.value, n.name.line, w)
  }

  /** The `zip` loop binding each parameter name to its validated argument. */
  function ArgsAt(fuel: nat, env: seq<Scope>, ps: seq<L.Token>, args: seq<L.Node>, bound: Scope, w: Reading := Intended): (r: Eval<Scope>)
    requires |env| > 0 && |ps| == |args|
    ensures w.AsWritten? ==> !r.Returning?
    ensures |r.env| == |env| && r.env[1..] == env[1..]
    decreases fuel, 2, |args|
  {
    if args == [] then Ok(bound, env)
    else
      var v := ValidateAt(fuel, env, args[0], w);
      if !v.Ok? then Abort(v) else ArgsAt(fuel, v.env, ps[1..], args[1..], bound[L.ValueOf(ps[0]) := v.value], w)
  }

  /** A returned value gets the call's line. Python sets the attribute on
      the result object; a list has no such attribute. */
  function Restamp(v: Result, line: int): Attempt<Result>
  {
    match v
    case Tok(t) => Done(Tok(t.(line := line)))
    case Many(_) => Raised(NoAttribute(v, "line_num"))
    case Def(_) => Done(v)
  }

  /** The body in a child scope holding the arguments; the `finally` restores
      the caller's scope whatever the outcome. */
  function RunBody(fuel: nat, env: seq<Scope>, def: L.Node, bound: Scope, line: int, w: Reading := Intended): (r: Eval<Result>)
    requires |env| > 0 && def.AssignFunction?
    ensures w.AsWritten? ==> !r.Returning?
    ensures r.env == env
    decreases fuel, 2, 1
  {
    var body := StatementsAt(fuel, [bound] + env, def.statements, w);
    assert ([bound] + env)[1..] == env;
    match body
    case Ok(_, e) => Ok(Tok(L.NoReturn(line)), e[1..])
    case Returning(v, e) => Lift(Restamp(v, line), e[1..])
    case Fail(f, e) => Fail(f, e[1..])
  }

  /** The `while` statement, which evaluates to `NoReturn()`. */
  function LoopAt(fuel: nat, env: seq<Scope>, cond: L.Node, body: seq<L.Node>, w: Reading := Intended): (r: Eval<Result>)
    requires |env| > 0
    ensures w.AsWritten? ==> !r.Returning?
    ensures |r.env| == |env| && r.env[1..] == env[1..]
    decreases fuel, 3, 0
  {
    var c := ValidateAt(fuel, env, cond, w);
    if !c.Ok? then c
    else match ConditionHolds(c.value)
      case Raised(m) => Fail(Error(m), c.env)
      case Done(false) => Ok(Tok(L.NoReturn(0)), c.env)
      case Done(true) =>
        var s := StatementsAt(fuel, c.env, body, w);
        if !s.Ok? then Abort(s)
        else if fuel == 0 then Fail(OutOfFuel, s.env)
        else LoopAt(fuel - 1, s.env, cond, body, w)
  }

  /** `print`: every parameter is validated and its `.value` read; the text
      written is not modelled. */
  function PrintAt(fuel: nat, env: seq<Scope>, ps: seq<L.Node>, line: int, w: Reading := Intended): (r: Eval<Result>)
    requires |env| > 0
    ensures w.AsWritten? ==> !r.Returning?
    ensures |r.env| == |env| && r.env[1..] == env[1..]
    ensures r.Ok? ==> r.value == Tok(L.NoReturn(line))
    decreases fuel, 2, |ps|
  {
    if ps == [] then Ok(Tok(L.NoReturn(line)), env)
    else
      var v := ValidateAt(fuel, env, ps[0], w);
      if !v.Ok? then v
      else if !v.value.Tok? then Fail(Error(NoAttribute(v.value, "value")), v.env)
      else PrintAt(fuel, v.env, ps[1..], line, w)
  }

  /** `type(x)`: a token whose value and type are both x's type name. */
  function TypeAt(fuel: nat, env: seq<Scope>, n: L.Node, w: Reading := Intended): (r: Eval<Result>)
    requires |env| > 0 && n.Type?
    ensures w.AsWritten? ==> !r.Returning?
    ensures |r.env| == |env| && r.env[1..] == env[1..]
    decreases fuel, 3, 0
  {
    if |n.params| != 1 then Fail(Error("Expected 1 argument; got " + T.NatToString(|n.params|)), env)
    else
      var v := ValidateAt(fuel, env, n.params[0], w);
      if !v.Ok? then v
      else match TypeAttr(v.value)
        case Raised(m) => Fail(Error(m), v.env)
        case Done(t) => Ok(Tok(L.Token(L.Text(T.KindName(t)), t, v.value.token.line)), v.env)
  }

  /** `evaluate_statements`' loop: results so far in `done`. A `Return`
      statement raises its value once it is evaluated. */
  function StatementsFrom(fuel: nat, env: seq<Scope>, stmts: seq<L.Node>, done: seq<Result>, w: Reading := Intended): (r: Eval<seq<Result>>)
    requires |env| > 0
    ensures w.AsWritten? ==> !r.Returning?
    ensures |r.env| == |env| && r.env[1..] == env[1..]
    ensures r.Ok? ==> |r.value| == |done| + |stmts| && r.value[..|done|] == done
    decreases fuel, 1, |stmts|
  {
    if stmts == [] then Ok(done, env)
    else
      var v := EvalAt(fuel, env, stmts[0], w);
      if !v.Ok? then Abort(v)
      else if stmts[0].Return? then Returning(v.value, v.env)
      else
        var r := StatementsFrom(fuel, v.env, stmts[1..], done + [v.value], w);
        assert r.Ok? ==> r.value[..|done|] == (done + [v.value])[..|done|];
        r
  }

  /** `evaluate_statements`: the list of results, or `NoReturn()` when there
      are none. */
  function StatementsAt(fuel: nat, env: seq<Scope>, stmts: seq<L.Node>, w: Reading := Intended): (r: Eval<Result>)
    requires |env| > 0
    ensures w.AsWritten? ==> !r.Returning?
    ensures |r.env| == |env| && r.env[1..] == env[1..]
    decreases fuel, 2, 0
  {
    match StatementsFrom(fuel, env, stmts, [], w)
    case Ok(vs, e) => if vs == [] then Ok(Tok(L.NoReturn(0)), e) else Ok(Many(vs), e)
    case s => Abort(s)
  }

  // ---------------------------------------------------------------------------
  // Properties of the operators
  // ---------------------------------------------------------------------------

  /** The operator table: arithmetic and ordering take only numbers, `==`
      and `!=` numbers or booleans, the logical operators only booleans, and
      nothing else takes any type. */
  lemma {:induction false} OperatorTypes(k: T.Kind)
    ensures T.Number in ValidTypes(k) <==> k in {T.Plus, T.Minus, T.Multiply, T.Divide, T.Gt, T.Ge, T.Lt, T.Le, T.Eq, T.Ne}
    ensures T.Boolean in ValidTypes(k) <==> k in {T.Eq, T.Ne, T.Bang, T.And, T.Or}
    ensures forall t :: t in ValidTypes(k) ==> t == T.Number || t == T.Boolean
  {
  }

  /** A binary operation succeeds only on two tokens of exactly one type that
      the operator accepts; operands of different types are refused by name. */
  lemma {:induction false} BinaryChecks(op: L.Token, l: Result, r: Result)
    ensures !l.Tok? ==> BinaryOn(op, l, r) == Raised(NoAttribute(l, "type"))
    ensures l.Tok? && r.Tok? && L.KindOf(l.token) != L.KindOf(r.token) ==>
      BinaryOn(op, l, r) == Raised(Refusal(L.KindOf(op), L.KindOf(l.token), L.KindOf(r.token)))
    ensures BinaryOn(op, l, r).Done? ==>
      l.Tok? && r.Tok? && L.KindOf(l.token) == L.KindOf(r.token) && L.KindOf(l.token) in ValidTypes(L.KindOf(op))
  {
  }

  function NumberToken(n: int, line: int): Result
  {
    Tok(L.Token(L.Whole(n), T.Number, line))
  }

  function TextToken(text: string, kind: T.Kind, line: int): Result
  {
    Tok(L.Token(L.Text(text), kind, line))
  }

  /** The refusals the evaluator's tests check, for every value and line:
      a number with a boolean either way round under every operator, two
      booleans under arithmetic and ordering, two numbers under the logical
      operators, `+` and `-` of a boolean, and `!` of a number. */
  lemma {:induction false} RefusedOperands(op: L.Token, x: L.Datum, y: L.Datum, lx: int, ly: int)
    ensures var k := L.KindOf(op);
      var n, m := Tok(L.Token(x, T.Number, lx)), Tok(L.Token(y, T.Number, ly));
      var b, c := Tok(L.Token(x, T.Boolean, lx)), Tok(L.Token(y, T.Boolean, ly));
      && BinaryOn(op, n, c) == Raised(Refusal(k, T.Number, T.Boolean))
      && BinaryOn(op, b, m) == Raised(Refusal(k, T.Boolean, T.Number))
      && (k in {T.Plus, T.Minus, T.Multiply, T.Divide, T.Gt, T.Ge, T.Lt, T.Le} ==> BinaryOn(op, b, c) == Raised(Refusal(k, T.Boolean, T.Boolean)))
      && (k in {T.Bang, T.And, T.Or} ==> BinaryOn(op, n, m) == Raised(Refusal(k, T.Number, T.Number)))
      && (k in {T.Plus, T.Minus} ==> UnaryOn(op, c) == Raised(UnaryRefusal(k, T.Boolean)))
      && (k == T.Bang ==> UnaryOn(op, n) == Raised(UnaryRefusal(k, T.Number)))
  {
  }

  /** `int()` reads back the digits `str()` writes, with either sign, and
      truncates floats toward zero. */
  lemma {:induction false} IntConversion(n: nat)
    ensures IntOf(L.Text(T.NatToString(n))) == Done(n)
    ensures IntOf(L.Text("-" + T.NatToString(n))) == Done(-(n as int))
    ensures IntOf(L.Fraction(3.5)) == Done(3) && IntOf(L.Fraction(-3.5)) == Done(-3)
    ensures IntOf(L.Text("1.5")).Raised?
  {
    T.NatToStringRoundTrip(n);
    var s := "-" + T.NatToString(n);
    assert s[1..] == T.NatToString(n);
    assert !T.IsDigit(s[0]);
    var f := "1.5";
    assert !T.AllDigits(f) by {
      assert f[1..] == ".5";
    }
  }

  /** `get_literal_value`: a NUMBER token's `int()`, a BOOLEAN token's truth
      (its text is "true"), and an error for every other type. */
  lemma {:induction false} LiteralValueRules(t: L.Token)
    ensures L.KindOf(t) == T.Number && IntOf(L.ValueOf(t)).Done? ==> LiteralValue(t) == Done(IntValue(IntOf(L.ValueOf(t)).value))
    ensures L.KindOf(t) == T.Boolean ==> LiteralValue(t) == Done(BoolValue(L.ValueOf(t) == L.Text("true")))
    ensures L.KindOf(t) != T.Number && L.KindOf(t) != T.Boolean ==> LiteralValue(t) == Raised("Unsupported type: " + T.KindName(L.KindOf(t)))
  {
  }

  /** On two integer-valued NUMBER tokens, `+ - *` compute the integer
      result, `/` the exact quotient or "Division by zero", all on the left
      operand's line. */
  lemma {:induction false} ArithmeticResults(k: T.Kind, v: L.Datum, line: int, a: int, la: int, b: int, lb: int)
    ensures var r := BinaryOn(L.Token(v, k, line), NumberToken(a, la), NumberToken(b, lb));
      && (k == T.Plus ==> r == Done(NumberToken(a + b, la)))
      && (k == T.Minus ==> r == Done(NumberToken(a - b, la)))
      && (k == T.Multiply ==> r == Done(NumberToken(a * b, la)))
      && (k == T.Divide && b == 0 ==> r == Raised("Division by zero"))
      && (k == T.Divide && b != 0 ==> r == Done(Tok(L.Token(L.Fraction(a as real / b as real), T.Number, la))))
  {
  }

  /** A NUMBER token holding the digits the tokenizer reads stands for
      that number. */
  lemma {:induction false} DigitsAreTheNumber(n: nat, line: int)
    ensures LiteralValue(L.Token(L.Text(T.NatToString(n)), T.Number, line)) == Done(IntValue(n))
  {
    T.NatToStringRoundTrip(n);
  }

  /** As an operand, a NUMBER token straight from the tokenizer and one an
      arithmetic operator computed behave the same on either side. */
  lemma {:induction false} DigitOperands(op: L.Token, n: nat, line: int, other: Result)
    ensures BinaryOn(op, TextToken(T.NatToString(n), T.Number, line), other) == BinaryOn(op, NumberToken(n, line), other)
    ensures BinaryOn(op, other, TextToken(T.NatToString(n), T.Number, line)) == BinaryOn(op, other, NumberToken(n, line))
  {
    DigitsAreTheNumber(n, line);
  }

  /** Comparisons of numbers give BOOLEAN tokens reading "true" or "false",
      on the left operand's line; a logical operator refuses numbers. */
  lemma {:induction false} ComparisonResults(k: T.Kind, v: L.Datum, line: int, a: int, la: int, b: int, lb: int)
    ensures var r := BinaryOn(L.Token(v, k, line), NumberToken(a, la), NumberToken(b, lb));
      && (k == T.Eq ==> r == Done(Tok(BooleanToken(a == b, la))))
      && (k == T.Gt ==> r == Done(Tok(BooleanToken(a > b, la))))
      && (k == T.Ge ==> r == Done(Tok(BooleanToken(a >= b, la))))
      && (k == T.Lt ==> r == Done(Tok(BooleanToken(a < b, la))))
      && (k == T.Le ==> r == Done(Tok(BooleanToken(a <= b, la))))
      && (k == T.And ==> r.Raised?)
  {
    var op := L.Token(v, k, line);
    var x, y := NumberToken(a, la), NumberToken(b, lb);
    assert TypeAttr(x) == Done(T.Number) && TypeAttr(y) == Done(T.Number);
    if k in {T.Eq, T.Gt, T.Ge, T.Lt, T.Le} {
      assert LiteralValue(x.token) == Done(IntValue(a));
      assert LiteralValue(y.token) == Done(IntValue(b));
      assert BinaryOn(op, x, y) == BinaryValues(op, IntValue(a), IntValue(b), la);
      if k == T.Eq {
        EqualityValues(op, IntValue(a), IntValue(b), la);
      } else {
        OrderValues(op, IntValue(a), IntValue(b), la);
      }
    } else if k == T.And {
      assert T.Number !in ValidTypes(k);
    }
  }

  /** Equality and the logical operators on booleans give BOOLEAN tokens;
      arithmetic and ordering refuse them. */
  lemma {:induction false} BooleanResults(k: T.Kind, v: L.Datum, line: int, la: int, lb: int, p: bool, q: bool)
    ensures var r := BinaryOn(L.Token(v, k, line), Tok(BooleanToken(p, la)), Tok(BooleanToken(q, lb)));
      && (k == T.Eq ==> r == Done(Tok(BooleanToken(p == q, la))))
      && (k == T.And ==> r == Done(Tok(BooleanToken(p && q, la))))
      && (k == T.Or ==> r == Done(Tok(BooleanToken(p || q, la))))
      && (k in {T.Plus, T.Minus, T.Multiply, T.Divide, T.Gt, T.Ge, T.Lt, T.Le} ==> r == Raised(Refusal(k, T.Boolean, T.Boolean)))
  {
    var op := L.Token(v, k, line);
    var a, b := BooleanToken(p, la), BooleanToken(q, lb);
    assert TypeAttr(Tok(a)) == Done(T.Boolean) && TypeAttr(Tok(b)) == Done(T.Boolean);
    if k == T.Eq || k == T.And || k == T.Or {
      assert LiteralValue(a) == Done(BoolValue(p));
      assert LiteralValue(b) == Done(BoolValue(q));
      assert BinaryOn(op, Tok(a), Tok(b)) == BinaryValues(op, BoolValue(p), BoolValue(q), la);
    } else if k in {T.Plus, T.Minus, T.Multiply, T.Divide, T.Gt, T.Ge, T.Lt, T.Le} {
      assert T.Boolean !in ValidTypes(k);
    }
  }

  /** `!=` succeeds exactly when `==` does, with the opposite answer. */
  lemma {:induction false} NeIsNotEq(v: L.Datum, line: int, l: Result, r: Result)
    ensures var e := BinaryOn(L.Token(v, T.Eq, line), l, r);
      var n := BinaryOn(L.Token(v, T.Ne, line), l, r);
      && (e.Done? <==> n.Done?)
      && (e.Done? ==> exists p: bool :: e.value == Tok(BooleanToken(p, l.token.line)) && n.value == Tok(BooleanToken(!p, l.token.line)))
  {
    var eq, ne := L.Token(v, T.Eq, line), L.Token(v, T.Ne, line);
    assert ValidTypes(T.Eq) == ValidTypes(T.Ne);
    if l.Tok? && r.Tok? && L.KindOf(l.token) == L.KindOf(r.token) && L.KindOf(l.token) in ValidTypes(T.Eq) {
      assert BinaryOn(eq, l, r) == BinaryTokens(eq, l.token, r.token);
      assert BinaryOn(ne, l, r) == BinaryTokens(ne, l.token, r.token);
      if LiteralValue(l.token).Done? && LiteralValue(r.token).Done? {
        var a, b := LiteralValue(l.token).value, LiteralValue(r.token).value;
        assert BinaryTokens(eq, l.token, r.token) == BinaryValues(eq, a, b, l.token.line);
        assert BinaryTokens(ne, l.token, r.token) == BinaryValues(ne, a, b, l.token.line);
        EqualityValues(eq, a, b, l.token.line);
        EqualityValues(ne, a, b, l.token.line);
      }
    }
  }

  /** The ordering branches compare the operands' integer values. */
  lemma {:induction false} OrderValues(op: L.Token, a: Literal, b: Literal, line: int)
    requires L.KindOf(op) in {T.Gt, T.Ge, T.Lt, T.Le}
    ensures var x, y := AsInt(a), AsInt(b);
      && (L.KindOf(op) == T.Gt ==> BinaryValues(op, a, b, line) == Done(Tok(BooleanToken(x > y, line))))
      && (L.KindOf(op) == T.Ge ==> BinaryValues(op, a, b, line) == Done(Tok(BooleanToken(x >= y, line))))
      && (L.KindOf(op) == T.Lt ==> BinaryValues(op, a, b, line) == Done(Tok(BooleanToken(x < y, line))))
      && (L.KindOf(op) == T.Le ==> BinaryValues(op, a, b, line) == Done(Tok(BooleanToken(x <= y, line))))
  {
  }

  /** The `==` and `!=` branches compare the operands' integer values. */
  lemma {:induction false} EqualityValues(op: L.Token, a: Literal, b: Literal, line: int)
    requires L.KindOf(op) == T.Eq || L.KindOf(op) == T.Ne
    ensures BinaryValues(op, a, b, line) == Done(Tok(BooleanToken((AsInt(a) == AsInt(b)) == (L.KindOf(op) == T.Eq), line)))
  {
  }

  /** Unary `+` and `-` keep and negate a number, on its line, and refuse
      a boolean. */
  lemma {:induction false} UnarySignRules(k: T.Kind, v: L.Datum, line: int, a: int, la: int, p: bool)
    requires k == T.Plus || k == T.Minus
    ensures UnaryOn(L.Token(v, k, line), NumberToken(a, la)) == Done(NumberToken(if k == T.Plus then a else -a, la))
    ensures UnaryOn(L.Token(v, k, line), Tok(BooleanToken(p, la))) == Raised(UnaryRefusal(k, T.Boolean))
  {
  }

  /** `!` flips "true" and "false", on the operand's line, and refuses a
      number. */
  lemma {:induction false} BangRules(v: L.Datum, line: int, a: int, la: int, p: bool)
    ensures UnaryOn(L.Token(v, T.Bang, line), Tok(BooleanToken(p, la))) == Done(Tok(BooleanToken(!p, la)))
    ensures UnaryOn(L.Token(v, T.Bang, line), NumberToken(a, la)) == Raised(UnaryRefusal(T.Bang, T.Number))
  {
  }

  /** Only `+`, `-` and `!` have a unary branch. Every other operator the
      table admits (the binary ones) fails, on an operand of a type it
      admits, on the operand's missing `op` attribute. */
  lemma {:induction false} UnaryWithoutBranch(op: L.Token, v: L.Token)
    ensures UnaryOn(op, Tok(v)).Done? ==> L.KindOf(op) in {T.Plus, T.Minus, T.Bang}
    ensures L.KindOf(op) !in {T.Plus, T.Minus, T.Bang} && L.KindOf(v) in ValidTypes(L.KindOf(op)) && LiteralValue(v).Done? ==>
      UnaryOn(op, Tok(v)) == Raised(NoAttribute(Tok(v), "op"))
    ensures ValidTypes(L.KindOf(op)) != [] && L.KindOf(op) !in {T.Plus, T.Minus, T.Bang} <==>
      L.KindOf(op) in {T.Multiply, T.Divide, T.Eq, T.Ne, T.Gt, T.Ge, T.Lt, T.Le, T.And, T.Or}
  {
  }

  lemma {:induction false} BangInvolution(v: L.Datum, line: int, p: bool, la: int)
    ensures var once := UnaryOn(L.Token(v, T.Bang, line), Tok(BooleanToken(p, la)));
      once.Done? && UnaryOn(L.Token(v, T.Bang, line), once.value) == Done(Tok(BooleanToken(p, la)))
  {
  }

  // ---------------------------------------------------------------------------
  // Properties of evaluation
  // ---------------------------------------------------------------------------

  /** `get_variable` walks the chain from the innermost scope and returns the
      first binding as stored; no binding anywhere is "Undefined variable". */
  lemma {:induction false} IdentifierRules(fuel: nat, env: seq<Scope>, t: L.Token)
    requires |env| > 0 && fuel > 0
    ensures var name := L.ValueOf(t);
      && ((forall j :: 0 <= j < |env| ==> name !in env[j]) <==>
            EvalAt(fuel, env, L.Identifier(t))
              == Fail(Error("Undefined variable at line " + T.IntToString(t.line) + ": " + Show(name)), env))
      && (forall i :: 0 <= i < |env| && name in env[i] && (forall j :: 0 <= j < i ==> name !in env[j]) ==>
            EvalAt(fuel, env, L.Identifier(t)) == Ok(env[i][name], env))
  {
    var name := L.ValueOf(t);
    assert EvalAt(fuel, env, L.Identifier(t)) == IdentifierAt(env, t);
    LookupMiss(env, name);
    forall i | 0 <= i < |env| && name in env[i] && (forall j :: 0 <= j < i ==> name !in env[j])
      ensures EvalAt(fuel, env, L.Identifier(t)) == Ok(env[i][name], env)
    {
      LookupFirstHit(env, name, i);
    }
  }

  /** `validate_expression` turns a `NoReturn` into an error on its line and
      passes everything else through. */
  lemma {:induction false} ValidateRejectsNoReturn(fuel: nat, env: seq<Scope>, n: L.Node)
    requires |env| > 0
    ensures var v := EvalAt(fuel, env, n);
      && (v.Ok? && v.value.Tok? && v.value.token.NoReturn? ==>
            ValidateAt(fuel, env, n) == Fail(Error(NoValueMessage(v.value.token.line)), v.env))
      && (!(v.Ok? && v.value.Tok? && v.value.token.NoReturn?) ==> ValidateAt(fuel, env, n) == v)
  {
  }

  /** `let`: the value is validated and bound in the current scope, where a
      later lookup finds it; the statement is a `NoReturn` on the name's line. */
  lemma {:induction false} AssignmentRules(fuel: nat, env: seq<Scope>, id: nat, name: L.Token, value: L.Node)
    requires |env| > 0 && fuel > 0
    ensures var r := EvalAt(fuel, env, L.AssignVariable(id, name, value));
      match ValidateAt(fuel - 1, env, value)
      case Ok(v, e) =>
        && r == Ok(Tok(L.NoReturn(name.line)), SetVar(e, L.ValueOf(name), v))
        && Lookup(r.env, L.ValueOf(name)) == T.Some(v)
      case _ => r == ValidateAt(fuel - 1, env, value)
  {
  }

  /** `if`: the block chosen by whether the condition's value is "true"
      gives the statement's result; a missing `else` gives `NoReturn()`. */
  lemma {:induction false} IfRules(fuel: nat, env: seq<Scope>, id: nat, c: L.Node, yes: seq<L.Node>, no: T.Option<seq<L.Node>>)
    requires |env| > 0
    ensures var r := IfAt(fuel, env, L.IfStatement(id, c, yes, no));
      match ValidateAt(fuel, env, c)
      case Ok(v, e) =>
        && (!v.Tok? ==> r == Fail(Error(NoAttribute(v, "value")), e))
        && (v.Tok? && L.ValueOf(v.token) == L.Text("true") ==> r == StatementsAt(fuel, e, yes))
        && (v.Tok? && L.ValueOf(v.token) != L.Text("true") && no.Some? ==> r == StatementsAt(fuel, e, no.value))
        && (v.Tok? && L.ValueOf(v.token) != L.Text("true") && no.None? ==> r == Ok(Tok(L.NoReturn(0)), e))
      case _ => r == ValidateAt(fuel, env, c)
  {
  }

  /** The loop stops once the condition's value is not "true", and otherwise
      runs the body and tests again. */
  lemma {:induction false} LoopRules(fuel: nat, env: seq<Scope>, c: L.Node, body: seq<L.Node>)
    requires |env| > 0
    ensures var r := LoopAt(fuel, env, c, body);
      match ValidateAt(fuel, env, c)
      case Ok(v, e) =>
        && (v.Tok? && L.ValueOf(v.token) != L.Text("true") ==> r == Ok(Tok(L.NoReturn(0)), e))
        && (v.Tok? && L.ValueOf(v.token) == L.Text("true") && fuel > 0 ==>
              match StatementsAt(fuel, e, body)
              case Ok(_, e2) => r == LoopAt(fuel - 1, e2, c, body)
              case s => r == Abort(s))
      case _ => r == ValidateAt(fuel, env, c)
  {
  }

  /** `type(x)` needs exactly one argument and names its type twice. */
  lemma {:induction false} TypeRules(fuel: nat, env: seq<Scope>, ps: seq<L.Node>, line: int)
    requires |env| > 0
    ensures |ps| != 1 ==> TypeAt(fuel, env, L.Type(ps, line)) == Fail(Error("Expected 1 argument; got " + T.NatToString(|ps|)), env)
    ensures |ps| == 1 && ValidateAt(fuel, env, ps[0]).Ok? && ValidateAt(fuel, env, ps[0]).value.Tok? ==>
      var v := ValidateAt(fuel, env, ps[0]);
      var kind := L.KindOf(v.value.token);
      TypeAt(fuel, env, L.Type(ps, line)) == Ok(Tok(L.Token(L.Text(T.KindName(kind)), kind, v.value.token.line)), v.env)
  {
  }

  /** Binding the arguments adds exactly the parameter names. */
  lemma {:induction false} ArgumentsBindParameters(fuel: nat, env: seq<Scope>, ps: seq<L.Token>, args: seq<L.Node>, bound: Scope)
    requires |env| > 0 && |ps| == |args|
    requires ArgsAt(fuel, env, ps, args, bound).Ok?
    ensures ArgsAt(fuel, env, ps, args, bound).value.Keys == bound.Keys + (set p | p in ps :: L.ValueOf(p))
    decreases |args|
  {
    if args != [] {
      var v := ValidateAt(fuel, env, args[0]);
      ArgumentsBindParameters(fuel, v.env, ps[1..], args[1..], bound[L.ValueOf(ps[0]) := v.value]);
      assert ps == [ps[0]] + ps[1..];
      assert (set p | p in ps :: L.ValueOf(p)) == {L.ValueOf(ps[0])} + (set p | p in ps[1..] :: L.ValueOf(p));
    }
  }

  /** A call: the callee must be bound to a function and take as many
      parameters as there are arguments; the arguments are evaluated in the
      caller's scopes, the body runs with one new scope in front holding
      exactly the parameters, and afterwards the caller's scopes are exactly
      as the arguments left them, whatever the body did. */
  lemma {:induction false} CallRules(fuel: nat, env: seq<Scope>, id: nat, callee: L.Token, args: seq<L.Node>)
    requires |env| > 0
    ensures var r := CallAt(fuel, env, L.FunctionCall(id, callee, args));
      var name := L.ValueOf(callee);
      match Lookup(env, name)
      case None => r == Fail(Error("Undefined function at line " + T.IntToString(callee.line) + ": " + Show(name)), env)
      case Some(f) =>
        && (!(f.Def? && f.node.AssignFunction?) ==> r == Fail(Error(NoAttribute(f, "parameters")), env))
        && (f.Def? && f.node.AssignFunction? && |f.node.parameters| != |args| ==>
              r == Fail(Error(ArityMessage(name, f.node.parameters, |args|)), env))
        && (f.Def? && f.node.AssignFunction? && |f.node.parameters| == |args| ==>
              var a := ArgsAt(fuel, env, f.node.parameters, args, map[]);
              && r.env == a.env
              && (!a.Ok? ==> r == Abort(a))
              && (a.Ok? ==>
                    && a.value.Keys == (set p | p in f.node.parameters :: L.ValueOf(p))
                    && r == RunBody(fuel, a.env, f.node, a.value, callee.line)))
  {
    match Lookup(env, L.ValueOf(callee))
    case None =>
    case Some(f) =>
      if f.Def? && f.node.AssignFunction? && |f.node.parameters| == |args| {
        var a := ArgsAt(fuel, env, f.node.parameters, args, map[]);
        if a.Ok? {
          ArgumentsBindParameters(fuel, env, f.node.parameters, args, map[]);
        }
      }
  }

  /** The body's outcome: finishing gives `NoReturn` on the call's line, a
      returned token comes back re-stamped with the call's line, an error
      propagates; in every case the pushed scope is gone. */
  lemma {:induction false} BodyOutcomes(fuel: nat, env: seq<Scope>, def: L.Node, bound: Scope, line: int)
    requires |env| > 0 && def.AssignFunction?
    ensures var s := StatementsAt(fuel, [bound] + env, def.statements);
      var r := RunBody(fuel, env, def, bound, line);
      && (s.Ok? ==> r == Ok(Tok(L.NoReturn(line)), env))
      && (s.Returning? && s.returned.Tok? ==> r == Ok(Tok(s.returned.token.(line := line)), env))
      && (s.Fail? ==> r == Fail(s.failure, env))
  {
  }

  /** Evaluating `a + b` is evaluating `a` and then `b` from where `a` ended. */
  lemma {:induction false} StatementsConcat(fuel: nat, env: seq<Scope>, a: seq<L.Node>, b: seq<L.Node>, done: seq<Result>)
    requires |env| > 0
    ensures StatementsFrom(fuel, env, a + b, done) ==
      match StatementsFrom(fuel, env, a, done)
      case Ok(vs, e) => StatementsFrom(fuel, e, b, vs)
      case s => s
    decreases |a|
  {
    if a == [] {
      assert a + b == b;
    } else {
      assert (a + b)[0] == a[0] && (a + b)[1..] == a[1..] + b;
      var v := EvalAt(fuel, env, a[0]);
      if v.Ok? && !a[0].Return? {
        StatementsConcat(fuel, v.env, a[1..], b, done + [v.value]);
      }
    }
  }

  /** A `return` ends the statement list: the statements after it are not
      evaluated and the validated value travels up. */
  lemma {:induction false} ReturnSkipsTheRest(fuel: nat, env: seq<Scope>, before: seq<L.Node>, ret: L.Node, after: seq<L.Node>)
    requires |env| > 0 && ret.Return?
    requires StatementsFrom(fuel, env, before, []).Ok?
    requires EvalAt(fuel, StatementsFrom(fuel, env, before, []).env, ret).Ok?
    ensures var e := StatementsFrom(fuel, env, before, []).env;
      var v := EvalAt(fuel, e, ret);
      StatementsAt(fuel, env, before + [ret] + after) == Returning(v.value, v.env)
  {
    StatementsConcat(fuel, env, before, [ret] + after, []);
    assert before + [ret] + after == before + ([ret] + after);
    assert ([ret] + after)[0] == ret;
  }

  /** One result per statement, in a list; no statements give `NoReturn()`. */
  lemma {:induction false} StatementsResults(fuel: nat, env: seq<Scope>, stmts: seq<L.Node>)
    requires |env| > 0
    ensures stmts == [] ==> StatementsAt(fuel, env, stmts) == Ok(Tok(L.NoReturn(0)), env)
    ensures stmts != [] && StatementsAt(fuel, env, stmts).Ok? ==>
      && StatementsAt(fuel, env, stmts).value.Many?
      && |StatementsAt(fuel, env, stmts).value.items| == |stmts|
  {
  }

  // ---------------------------------------------------------------------------
  // The `Return` and `Type` branches as written
  // ---------------------------------------------------------------------------

  /** As written, `return e` raises AttributeError before `e` is evaluated,
      and so does `type(...)`, whatever its arguments. */
  lemma {:induction false} AttributeErrorsAsWritten(fuel: nat, env: seq<Scope>, id: nat, e: L.Node, ps: seq<L.Node>, line: int)
    requires |env| > 0 && fuel > 0
    ensures EvalAt(fuel, env, L.Return(id, e), AsWritten) == Fail(Error(AttributeMessage("Return", "expression")), env)
    ensures EvalAt(fuel, env, L.Type(ps, line), AsWritten) == Fail(Error(AttributeMessage("Type", "value")), env)
  {
    assert EvalAt(fuel, env, L.Return(id, e), AsWritten) == MissingAttribute(env, L.Return(id, e), "expression");
    assert EvalAt(fuel, env, L.Type(ps, line), AsWritten) == MissingAttribute(env, L.Type(ps, line), "value");
  }

  /** As written, no function call ever gives back a value: the body either
      raises or finishes, and then the call is `NoReturn` on its line. */
  lemma {:induction false} CallsReturnNothingAsWritten(fuel: nat, env: seq<Scope>, id: nat, callee: L.Token, args: seq<L.Node>)
    requires |env| > 0 && fuel > 0
    ensures var r := EvalAt(fuel, env, L.FunctionCall(id, callee, args), AsWritten);
      r.Ok? ==> r.value == Tok(L.NoReturn(callee.line))
  {
    var n := L.FunctionCall(id, callee, args);
    assert EvalAt(fuel, env, n, AsWritten) == CallAt(fuel - 1, env, n, AsWritten);
    match Lookup(env, L.ValueOf(callee))
    case None =>
    case Some(f) =>
      if f.Def? && f.node.AssignFunction? && |f.node.parameters| == |args| {
        var a := ArgsAt(fuel - 1, env, f.node.parameters, args, map[], AsWritten);
        if a.Ok? {
          var s := StatementsAt(fuel - 1, [a.value] + a.env, f.node.statements, AsWritten);
          assert !s.Returning?;
        }
      }
  }

  /** The input that shows the difference for `type`: `type(1)`. Read as
      intended it gives a token naming NUMBER on the argument's line; read as
      written it raises AttributeError. */
  lemma {:induction false} TypeExample(fuel: nat, env: seq<Scope>, line: int)
    requires |env| > 0 && fuel >= 3
    ensures var call := L.Type([L.Number(L.Token(L.Text("1"), T.Number, line))], line);
      && EvalAt(fuel, env, call) == Ok(Tok(L.Token(L.Text("NUMBER"), T.Number, line)), env)
      && EvalAt(fuel, env, call, AsWritten) == Fail(Error(AttributeMessage("Type", "value")), env)
  {
    var one := L.Number(L.Token(L.Text("1"), T.Number, line));
    var call := L.Type([one], line);
    assert ValidateAt(fuel - 1, env, one) == Ok(Tok(one.token), env);
    assert T.KindName(T.Number) == "NUMBER";
    assert TypeAt(fuel - 1, env, call) == Ok(Tok(L.Token(L.Text("NUMBER"), T.Number, line)), env);
    AttributeErrorsAsWritten(fuel, env, 0, one, [one], line);
  }

  /** A function whose body is `return true;`, bound to `f`. */
  function ReturnTrue(line: int): L.Node
  {
    L.AssignFunction(0, L.Token(L.Text("f"), T.Identifier, line), [], [L.Return(1, L.Boolean(L.Token(L.Text("true"), T.Boolean, line)))])
  }

  /** The body of `f`, run in the call's new scope: read as intended it
      raises the `ReturnException` carrying `true`; read as written it
      raises AttributeError. */
  lemma {:induction false} ReturnTrueBody(fuel: nat, inner: seq<Scope>, line: int)
    requires fuel >= 2 && |inner| > 0
    ensures var t := L.Token(L.Text("true"), T.Boolean, line);
      && StatementsAt(fuel, inner, ReturnTrue(line).statements) == Returning(Tok(t), inner)
      && StatementsAt(fuel, inner, ReturnTrue(line).statements, AsWritten)
           == Fail(Error(AttributeMessage("Return", "expression")), inner)
  {
    var t := L.Token(L.Text("true"), T.Boolean, line);
    var ret := L.Return(1, L.Boolean(t));
    assert ReturnTrue(line).statements == [ret];
    assert EvalAt(fuel - 1, inner, L.Boolean(t)) == Ok(Tok(t), inner);
    assert EvalAt(fuel, inner, ret) == Ok(Tok(t), inner);
    assert StatementsFrom(fuel, inner, [ret], []) == Returning(Tok(t), inner);
    AttributeErrorsAsWritten(fuel, inner, 1, L.Boolean(t), [], 0);
    assert StatementsFrom(fuel, inner, [ret], [], AsWritten)
        == Fail(Error(AttributeMessage("Return", "expression")), inner);
  }

  /** The input that shows the difference: calling `f()` on line `at`. Read
      as intended the call gives `true` stamped with the call's line; read
      as written it raises AttributeError. */
  lemma {:induction false} FunctionReturnExample(fuel: nat, line: int, at: int)
    requires fuel >= 3
    ensures var env := [map[L.Text("f") := Def(ReturnTrue(line))]];
      var call := L.FunctionCall(2, L.Token(L.Text("f"), T.Identifier, at), []);
      && EvalAt(fuel, env, call) == Ok(Tok(L.Token(L.Text("true"), T.Boolean, at)), env)
      && EvalAt(fuel, env, call, AsWritten) == Fail(Error(AttributeMessage("Return", "expression")), env)
  {
    var env := [map[L.Text("f") := Def(ReturnTrue(line))]];
    var call := L.FunctionCall(2, L.Token(L.Text("f"), T.Identifier, at), []);
    var def := ReturnTrue(line);
    var inner: seq<Scope> := [map[]] + env;
    assert Lookup(env, L.Text("f")) == T.Some(Def(def));
    ReturnTrueBody(fuel - 1, inner, line);
    assert RunBody(fuel - 1, env, def, map[], at) == Ok(Tok(L.Token(L.Text("true"), T.Boolean, at)), env);
    assert RunBody(fuel - 1, env, def, map[], at, AsWritten)
        == Fail(Error(AttributeMessage("Return", "expression")), env);
    assert CallAt(fuel - 1, env, call) == RunBody(fuel - 1, env, def, map[], at);
    assert CallAt(fuel - 1, env, call, AsWritten) == RunBody(fuel - 1, env, def, map[], at, AsWritten);
  }

  // ---------------------------------------------------------------------------
  // The evaluator object
  // ---------------------------------------------------------------------------

  /** How a method of the evaluator comes back: a value, a `ReturnException`
      carrying the returned result, or an exception. */
  datatype Outcome<X> = Normal(value: X) | Returned(returned: Result) | Thrown(failure: Failure)

  /** A method's outcome and new environment are those of a step function. */
  predicate Agrees<X(==)>(r: Outcome<X>, s: Eval<X>, env: seq<Scope>)
  {
    env == s.env && match s
      case Ok(v, _) => r == Normal(v)
      case Returning(v, _) => r == Returned(v)
      case Fail(f, _) => r == Thrown(f)
  }

  function Pass<X, Y>(r: Outcome<X>): (s: Outcome<Y>)
    requires !r.Normal?
    ensures !s.Normal?
  {
    match r
    case Returned(v) => Returned(v)
    case Thrown(f) => Thrown(f)
  }

  lemma {:induction false} PassAgrees<X, Y>(r: Outcome<X>, s: Eval<X>, env: seq<Scope>)
    requires Agrees(r, s, env) && !r.Normal?
    ensures !s.Ok? && Agrees(Pass<X, Y>(r), Abort<X, Y>(s), env)
  {
  }

  /** The `Evaluator` of evaluator.py: the program and the current scope,
      innermost first; the scopes behind it are its parents. */
  class Evaluator {
    const ast: seq<L.Node>
    var env: seq<Scope>

    predicate Valid()
      reads this
    {
      |env| > 0
    }

    constructor (ast: seq<L.Node>, env: seq<Scope>)
      requires |env| > 0
      ensures Valid() && this.ast == ast && this.env == env
    {
      this.ast := ast;
      this.env := env;
    }

    /** `evaluate`: the program's statements; a top-level `return` leaves
        as a `ReturnException`. */
    method Evaluate(fuel: nat) returns (r: Outcome<Result>)
      requires Valid()
      modifies this
      ensures Valid() && Agrees(r, StatementsAt(fuel, old(env), ast), env)
    {
      r := EvaluateStatements(fuel, ast);
    }

    method EvaluateStatements(fuel: nat, stmts: seq<L.Node>) returns (r: Outcome<Result>)
      requires Valid()
      modifies this
      ensures Valid() && Agrees(r, StatementsAt(fuel, old(env), stmts), env)
      decreases fuel, 2, 0
    {
      var results: seq<Result> := [];
      for i := 0 to |stmts|
        invariant Valid()
        invariant StatementsFrom(fuel, env, stmts[i..], results) == StatementsFrom(fuel, old(env), stmts, [])
      {
        assert stmts[i..][0] == stmts[i] && stmts[i..][1..] == stmts[i + 1..];
        ghost var before := env;
        var v := EvaluateExpression(fuel, stmts[i]);
        if !v.Normal? {
          PassAgrees<Result, seq<Result>>(v, EvalAt(fuel, before, stmts[i]), env);
          return v;
        }
        results := results + [v.value];
        if stmts[i].Return? {
          return Returned(v.value);
        }
      }
      if results == [] {
        return Normal(Tok(L.NoReturn(0)));
      }
      r := Normal(Many(results));
    }

    method ValidateExpression(fuel: nat, n: L.Node) returns (r: Outcome<Result>)
      requires Valid()
      modifies this
      ensures Valid() && Agrees(r, Validated(EvalAt(fuel, old(env), n)), env)
      decreases fuel, 1, 0
    {
      r := EvaluateExpression(fuel, n);
      if r.Normal? && r.value.Tok? && r.value.token.NoReturn? {
        r := Thrown(Error(NoValueMessage(r.value.token.line)));
      }
    }

    /** `return e` evaluates and validates `e`. */
    method EvaluateReturn(fuel: nat, e: L.Node) returns (r: Outcome<Result>)
      requires Valid()
      modifies this
      ensures Valid() && Agrees(r, ValidateAt(fuel, old(env), e), env)
      decreases fuel, 1, 1
    {
      r := ValidateExpression(fuel, e);
    }

    method EvaluateExpression(fuel: nat, n: L.Node) returns (r: Outcome<Result>)
      requires Valid()
      modifies this
      ensures Valid() && Agrees(r, EvalAt(fuel, old(env), n), env)
      decreases fuel, 0, 1
    {
      if fuel == 0 {
        return Thrown(OutOfFuel);
      }
      if IsLeaf(n) {
        r := EvaluateLeaf(n);
      } else {
        r := EvaluateCompound(fuel, n);
      }
    }

    /** The nodes that evaluate other nodes, each with one unit less fuel. */
    method EvaluateCompound(fuel: nat, n: L.Node) returns (r: Outcome<Result>)
      requires Valid() && fuel > 0 && !IsLeaf(n)
      modifies this
      ensures Valid() && Agrees(r, EvalAt(fuel, old(env), n), env)
      decreases fuel, 0, 0
    {
      match n
      case BinaryOperation(_, _, _) => r := EvaluateBinaryExpression(fuel - 1, n);
      case UnaryOperation(_, _, _) => r := EvaluateUnaryExpression(fuel - 1, n);
      case IfStatement(_, _, _, _) => r := EvaluateIfStatement(fuel - 1, n);
      case AssignVariable(_, _, _) => r := EvaluateAssignVariable(fuel - 1, n);
      case FunctionCall(_, _, _) => r := EvaluateFunctionCall(fuel - 1, n);
      case Loop(_, _, _) => r := EvaluateLoop(fuel - 1, n);
      case Print(_, _) => r := EvaluatePrint(fuel - 1, n);
      case Type(_, _) => r := EvaluateType(fuel - 1, n);
      case Return(_, e) => r := EvaluateReturn(fuel - 1, e);
    }

    /** The nodes that evaluate to themselves, to a variable's value, or to
        the unsupported-type error; none of them changes a scope. */
    method EvaluateLeaf(n: L.Node) returns (r: Outcome<Result>)
      requires IsLeaf(n)
      ensures Agrees(r, LeafAt(env, n), env)
    {
      match n
      case AssignFunction(_, _, _, _) => r := Normal(Def(n));
      case Identifier(t) => r := EvaluateIdentifier(t);
      case Number(t) => r := Normal(Tok(t));
      case Boolean(t) => r := Normal(Tok(t));
      case ExpressionStatement(_) => r := Thrown(Error(UnsupportedMessage(n)));
      case Float(_) => r := Thrown(Error(UnsupportedMessage(n)));
      case String(_) => r := Thrown(Error(UnsupportedMessage(n)));
      case Random(_, _) => r := Thrown(Error(UnsupportedMessage(n)));
      case Dictionary(_, _, _) => r := Thrown(Error(UnsupportedMessage(n)));
      case Index(_, _) => r := Thrown(Error(UnsupportedMessage(n)));
    }

    /** `get_variable`: walk from the current scope out through its parents. */
    method GetVariable(name: L.Datum) returns (v: T.Option<Result>)
      ensures v == Lookup(env, name)
    {
      var i := 0;
      while i < |env|
        invariant i <= |env|
        invariant Lookup(env[i..], name) == Lookup(env, name)
        decreases |env| - i
      {
        if name in env[i] {
          return T.Some(env[i][name]);
        }
        assert env[i..][1..] == env[i + 1..];
        i := i + 1;
      }
      v := T.None;
    }

    method EvaluateIdentifier(t: L.Token) returns (r: Outcome<Result>)
      ensures Agrees(r, IdentifierAt(env, t), env)
    {
      var v := GetVariable(L.ValueOf(t));
      if v.None? {
        return Thrown(Error("Undefined variable at line " + T.IntToString(t.line) + ": " + Show(L.ValueOf(t))));
      }
      r := Normal(v.value);
    }

    method EvaluateBinaryExpression(fuel: nat, n: L.Node) returns (r: Outcome<Result>)
      requires Valid() && n.BinaryOperation?
      modifies this
      ensures Valid() && Agrees(r, BinaryAt(fuel, old(env), n), env)
      decreases fuel, 3, 0
    {
      var left := ValidateExpression(fuel, n.left);
      if !left.Normal? {
        return left;
      }
      var right := ValidateExpression(fuel, n.right);
      if !right.Normal? {
        return right;
      }
      match BinaryOn(n.op, left.value, right.value)
      case Done(v) => r := Normal(v);
      case Raised(m) => r := Thrown(Error(m));
    }

    method EvaluateUnaryExpression(fuel: nat, n: L.Node) returns (r: Outcome<Result>)
      requires Valid() && n.UnaryOperation?
      modifies this
      ensures Valid() && Agrees(r, UnaryAt(fuel, old(env), n), env)
      decreases fuel, 3, 0
    {
      var v := ValidateExpression(fuel, n.expression);
      if !v.Normal? {
        return v;
      }
      match UnaryOn(n.op, v.value)
      case Done(x) => r := Normal(x);
      case Raised(m) => r := Thrown(Error(m));
    }

    method EvaluateIfStatement(fuel: nat, n: L.Node) returns (r: Outcome<Result>)
      requires Valid() && n.IfStatement?
      modifies this
      ensures Valid() && Agrees(r, IfAt(fuel, old(env), n), env)
      decreases fuel, 3, 0
    {
      var c := ValidateExpression(fuel, n.comparison);
      if !c.Normal? {
        return c;
      }
      match ConditionHolds(c.value)
      case Raised(m) => r := Thrown(Error(m));
      case Done(holds) =>
        if holds {
          r := EvaluateStatements(fuel, n.trueStatements);
        } else if n.falseStatements.Some? {
          r := EvaluateStatements(fuel, n.falseStatements.value);
        } else {
          r := Normal(Tok(L.NoReturn(0)));
        }
    }

    method EvaluateAssignVariable(fuel: nat, n: L.Node) returns (r: Outcome<Result>)
      requires Valid() && n.AssignVariable?
      modifies this
      ensures Valid() && Agrees(r, AssignAt(fuel, old(env), n), env)
      decreases fuel, 3, 0
    {
      var v := ValidateExpression(fuel, n.value);
      if !v.Normal? {
        return v;
      }
      env := SetVar(env, L.ValueOf(n.name), v.value);
      r := Normal(Tok(L.NoReturn(n.name.line)));
    }

    method EvaluateFunctionCall(fuel: nat, n: L.Node) returns (r: Outcome<Result>)
      requires Valid() && n.FunctionCall?
      modifies this
      ensures Valid() && Agrees(r, CallAt(fuel, old(env), n), env)
      decreases fuel, 3, 0
    {
      var name := L.ValueOf(n.name);
      var found := GetVariable(name);
      if found.None? {
        return Thrown(Error("Undefined function at line " + T.IntToString(n.name.line) + ": " + Show(name)));
      }
      var f := found.value;
      if !(f.Def? && f.node.AssignFunction?) {
        return Thrown(Error(NoAttribute(f, "parameters")));
      }
      if |f.node.parameters| != |n.parameterValues| {
        return Thrown(Error(ArityMessage(name, f.node.parameters, |n.parameterValues|)));
      }
      var bound := BindArguments(fuel, f.node.parameters, n.parameterValues);
      if !bound.Normal? {
        PassAgrees<Scope, Result>(bound, ArgsAt(fuel, old(env), f.node.parameters, n.parameterValues, map[]), env);
        return Pass(bound);
      }
      r := CallBody(fuel, f.node, bound.value, n.name.line);
    }

    /** The `zip` loop over parameter names and argument expressions. */
    method BindArguments(fuel: nat, ps: seq<L.Token>, args: seq<L.Node>) returns (r: Outcome<Scope>)
      requires Valid() && |ps| == |args|
      modifies this
      ensures Valid() && Agrees(r, ArgsAt(fuel, old(env), ps, args, map[]), env)
      decreases fuel, 2, |args|
    {
      var bound: Scope := map[];
      for i := 0 to |args|
        invariant Valid()
        invariant ArgsAt(fuel, env, ps[i..], args[i..], bound) == ArgsAt(fuel, old(env), ps, args, map[])
      {
        assert args[i..][0] == args[i] && args[i..][1..] == args[i + 1..];
        assert ps[i..][0] == ps[i] && ps[i..][1..] == ps[i + 1..];
        ghost var before := env;
        var v := ValidateExpression(fuel, args[i]);
        if !v.Normal? {
          PassAgrees<Result, Scope>(v, ValidateAt(fuel, before, args[i]), env);
          return Pass(v);
        }
        bound := bound[L.ValueOf(ps[i]) := v.value];
      }
      r := Normal(bound);
    }

    /** Push a child scope holding the arguments, run the body, and restore
        the caller's scope on every way out. */
    method CallBody(fuel: nat, def: L.Node, bound: Scope, line: int) returns (r: Outcome<Result>)
      requires Valid() && def.AssignFunction?
      modifies this
      ensures Valid() && Agrees(r, RunBody(fuel, old(env), def, bound, line), env)
      decreases fuel, 2, 1
    {
      env := [bound] + env;
      var body := EvaluateStatements(fuel, def.statements);
      env := env[1..];
      if body.Normal? {
        r := Normal(Tok(L.NoReturn(line)));
      } else if body.Thrown? {
        r := body;
      } else {
        match Restamp(body.returned, line)
        case Done(x) => r := Normal(x);
        case Raised(m) => r := Thrown(Error(m));
      }
    }

    /** The `while` loop: the condition is validated before every round. */
    method EvaluateLoop(fuel: nat, n: L.Node) returns (r: Outcome<Result>)
      requires Valid() && n.Loop?
      modifies this
      ensures Valid() && Agrees(r, LoopAt(fuel, old(env), n.condition, n.statements), env)
      decreases fuel, 3, 0
    {
      var k: nat := fuel;
      while true
        invariant Valid() && k <= fuel
        invariant LoopAt(k, env, n.condition, n.statements) == LoopAt(fuel, old(env), n.condition, n.statements)
        decreases k
      {
        ghost var before := env;
        var c := ValidateExpression(k, n.condition);
        if !c.Normal? {
          return c;
        }
        match ConditionHolds(c.value)
        case Raised(m) => return Thrown(Error(m));
        case Done(holds) =>
          if !holds {
            return Normal(Tok(L.NoReturn(0)));
          }
        ghost var afterCondition := env;
        var s := EvaluateStatements(k, n.statements);
        assert Agrees(s, StatementsAt(k, afterCondition, n.statements), env);
        if !s.Normal? {
          return s;
        }
        if k == 0 {
          return Thrown(OutOfFuel);
        }
        assert LoopAt(k, before, n.condition, n.statements) == LoopAt(k - 1, env, n.condition, n.statements);
        k := k - 1;
      }
    }

    /** `print`: each parameter is validated and its `.value` read; the text
        written is not modelled. */
    method EvaluatePrint(fuel: nat, n: L.Node) returns (r: Outcome<Result>)
      requires Valid() && n.Print?
      modifies this
      ensures Valid() && Agrees(r, PrintAt(fuel, old(env), n.params, n.line), env)
      decreases fuel, 2, |n.params|
    {
      for i := 0 to |n.params|
        invariant Valid()
        invariant PrintAt(fuel, env, n.params[i..], n.line) == PrintAt(fuel, old(env), n.params, n.line)
      {
        assert n.params[i..][0] == n.params[i] && n.params[i..][1..] == n.params[i + 1..];
        var v := ValidateExpression(fuel, n.params[i]);
        if !v.Normal? {
          return v;
        }
        if !v.value.Tok? {
          return Thrown(Error(NoAttribute(v.value, "value")));
        }
      }
      r := Normal(Tok(L.NoReturn(n.line)));
    }

    method EvaluateType(fuel: nat, n: L.Node) returns (r: Outcome<Result>)
      requires Valid() && n.Type?
      modifies this
      ensures Valid() && Agrees(r, TypeAt(fuel, old(env), n), env)
      decreases fuel, 3, 0
    {
      if |n.params| != 1 {
        return Thrown(Error("Expected 1 argument; got " + T.NatToString(|n.params|)));
      }
      var v := ValidateExpression(fuel, n.params[0]);
      if !v.Normal? {
        return v;
      }
      match TypeAttr(v.value)
      case Raised(m) => r := Thrown(Error(m));
      case Done(t) => r := Normal(Tok(L.Token(L.Text(T.KindName(t)), t, v.value.token.line)));
    }
  }
}
