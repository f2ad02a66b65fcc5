/**
 * The tree-walking evaluator of evaluator/evaluator.py: statements, variables
 * and functions in a chain of scopes, calls with an arity check and a scope
 * pushed for the body and popped on every exit, early `return`, `if`, `while`
 * loops, `print` and factorial.
 *
 * The environment is a chain of scopes, innermost first. Each step is a
 * function from (fuel, environment, node) to a result or a signal together
 * with the environment it leaves; `Evaluator` is the object, whose methods
 * update `env` in place and are proved to agree with those functions. Every
 * evaluation step and every loop iteration spends one unit of fuel; a run
 * that exhausts it ends in `OutOfFuel` (the source would recurse or loop
 * without bound).
 */
module CompatEvaluator {
  import T = Tokens
  import C = CompatValues

  /** The nodes this evaluator dispatches on. The value classes are nodes
      too (`Literal`); `Unsupported` stands for any class without a branch. */
  datatype Node =
    | Literal(lit: C.Value)
    | Identifier(name: string, line: int)
    | BinaryOperation(left: Node, op: T.Token, right: Node)
    | UnaryOperation(op: T.Token, expression: Node)
    | IfStatement(comparison: Node, trueStatements: seq<Node>, falseStatements: T.Option<seq<Node>>)
    | SetVariable(target: Node, newValue: Node)
    | AssignFunction(fname: T.Token, parameters: seq<T.Token>, statements: seq<Node>)
    | FunctionCall(callee: T.Token, parameterValues: seq<Node>)
    | Loop(condition: Node, body: seq<Node>)
    | Print(params: seq<Node>, line: int)
    | Factorial(expr: Node)
    | Return(expr: Node)
    | ExpressionStatement(expr: Node)
    | Unsupported(className: string)

  /** The class name of a node, as error messages print it. */
  function ClassName(n: Node): string
  {
    match n
    case Literal(v) => C.TypeName(C.TypeOf(v))
    case Identifier(_, _) => "Identifier"
    case BinaryOperation(_, _, _) => "BinaryOperation"
    case UnaryOperation(_, _) => "UnaryOperation"
    case IfStatement(_, _, _) => "IfStatement"
    case SetVariable(_, _) => "SetVariable"
    case AssignFunction(_, _, _) => "AssignFunction"
    case FunctionCall(_, _) => "FunctionCall"
    case Loop(_, _) => "Loop"
    case Print(_, _) => "Print"
    case Factorial(_) => "Factorial"
    case Return(_) => "Return"
    case ExpressionStatement(_) => "ExpressionStatement"
    case Unsupported(c) => c
  }

  /** `line_num`, for the classes that have that attribute. */
  function LineNum(n: Node): T.Option<int>
  {
    match n
    case Literal(v) => T.Some(v.line)
    case Identifier(_, line) => T.Some(line)
    case Print(_, line) => T.Some(line)
    case _ => T.None
  }

  /** A stored function definition: the `AssignFunction` node's fields. */
  datatype FunctionDef = FunctionDef(fname: T.Token, parameters: seq<T.Token>, statements: seq<Node>)

  datatype Scope = Scope(vars: map<string, C.Value>, funcs: map<string, FunctionDef>)

  /** A result, a `ReturnException` on its way up, or an exception, each with
      the environment it leaves behind. */
  datatype Eval<X> =
    | Ok(value: X, env: seq<Scope>)
    | Returning(returned: C.Value, env: seq<Scope>)
    | Fail(failure: C.Failure, env: seq<Scope>)

  /** A signal or failure passed on unchanged. */
  function Abort<X, Y>(r: Eval<X>): (s: Eval<Y>)
    requires !r.Ok?
    ensures !s.Ok? && s.env == r.env
  {
    match r
    case Returning(v, e) => Returning(v, e)
    case Fail(f, e) => Fail(f, e)
  }

  function Lift(a: C.Attempt, env: seq<Scope>): (r: Eval<C.Value>)
    ensures r.env == env && !r.Returning?
  {
    match a
    case Done(v) => Ok(v, env)
    case Raised(f) => Fail(f, env)
  }

  /** `.value is True`. */
  predicate IsTrue(v: C.Value)
  {
    v.Boolean? && v.truth
  }

  // ---------------------------------------------------------------------------
  // Scope chain
  // ---------------------------------------------------------------------------

  /** `evaluate_identifier`'s walk: the innermost scope binding the name. */
  function Lookup(env: seq<Scope>, name: string): T.Option<C.Value>
    decreases |env|
  {
    if env == [] then T.None
    else if name in env[0].vars then T.Some(env[0].vars[name])
    else Lookup(env[1..], name)
  }

  /** `evaluate_function_call`'s walk, which does not stop at a hit: the
      outermost scope defining the name. */
  function FindFunction(env: seq<Scope>, name: string): T.Option<FunctionDef>
    decreases |env|
  {
    if env == [] then T.None
    else if name in env[|env| - 1].funcs then T.Some(env[|env| - 1].funcs[name])
    else FindFunction(env[..|env| - 1], name)
  }

  lemma {:induction false} LookupFirstHit(env: seq<Scope>, name: string, i: nat)
    requires i < |env| && name in env[i].vars
    requires forall j :: 0 <= j < i ==> name !in env[j].vars
    ensures Lookup(env, name) == T.Some(env[i].vars[name])
    decreases i
  {
    if i > 0 {
      assert name !in env[0].vars;
      assert forall j :: 0 <= j < i - 1 ==> env[1..][j] == env[j + 1];
      LookupFirstHit(env[1..], name, i - 1);
    }
  }

  lemma {:induction false} LookupMiss(env: seq<Scope>, name: string)
    ensures Lookup(env, name).None? <==> forall j :: 0 <= j < |env| ==> name !in env[j].vars
    decreases |env|
  {
    if env != [] {
      LookupMiss(env[1..], name);
      assert forall j :: 1 <= j < |env| ==> env[j] == env[1..][j - 1];
    }
  }

  /** The outermost definition wins: inner definitions of the same name are
      shadowed by outer ones. */
  lemma {:induction false} FindFunctionOutermost(env: seq<Scope>, name: string, i: nat)
    requires i < |env| && name in env[i].funcs
    requires forall j :: i < j < |env| ==> name !in env[j].funcs
    ensures FindFunction(env, name) == T.Some(env[i].funcs[name])
    decreases |env| - i
  {
    if i < |env| - 1 {
      var front := env[..|env| - 1];
      assert forall j :: i < j < |front| ==> front[j] == env[j];
      FindFunctionOutermost(front, name, i);
    }
  }

  lemma {:induction false} FindFunctionMiss(env: seq<Scope>, name: string)
    ensures FindFunction(env, name).None? <==> forall j :: 0 <= j < |env| ==> name !in env[j].funcs
    decreases |env|
  {
    if env != [] {
      var front := env[..|env| - 1];
      FindFunctionMiss(front, name);
      assert forall j :: 0 <= j < |front| ==> front[j] == env[j];
    }
  }

  /** `set_var` on the current scope. */
  function SetVar(env: seq<Scope>, name: string, v: C.Value): (e: seq<Scope>)
    requires |env| > 0
    ensures |e| == |env| && e[1..] == env[1..] && e[0].vars == env[0].vars[name := v] && e[0].funcs == env[0].funcs
  {
    env[0 := env[0].(vars := env[0].vars[name := v])]
  }

  /** `set_func` on the current scope. */
  function SetFunc(env: seq<Scope>, name: string, f: FunctionDef): (e: seq<Scope>)
    requires |env| > 0
    ensures |e| == |env| && e[1..] == env[1..] && e[0].funcs == env[0].funcs[name := f] && e[0].vars == env[0].vars
  {
    env[0 := env[0].(funcs := env[0].funcs[name := f])]
  }

  // ---------------------------------------------------------------------------
  // Evaluation
  // ---------------------------------------------------------------------------
  //
  // Ranks for termination: (fuel, 0, 0) EvalAt; (fuel, 1, 0) ValidateAt;
  // (fuel, 1, n) StatementsAt; (fuel, 2, n) ArgsAt, PrintAt, RunBody;
  // (fuel, 3, 0) the per-node helpers, which EvalAt calls with fuel - 1.

  /** `evaluate_expression`. No evaluation adds or removes a scope or changes
      any scope but the innermost. */
  function EvalAt(fuel: nat, env: seq<Scope>, n: Node): (r: Eval<C.Value>)
    requires |env| > 0
    ensures |r.env| == |env| && r.env[1..] == env[1..]
    decreases fuel, 0, 0
  {
    if fuel == 0 then Fail(C.OutOfFuel, env)
    else match n
      case Literal(v) =>
        if v.NoReturn? then Fail(C.Internal("Unsupported type: NoReturn"), env) else Ok(v, env)
      case Identifier(name, line) => IdentifierAt(env, name, line)
      case BinaryOperation(_, _, _) => BinaryAt(fuel - 1, env, n)
      case UnaryOperation(_, _) => UnaryAt(fuel - 1, env, n)
      case IfStatement(_, _, _) => IfAt(fuel - 1, env, n)
      case SetVariable(_, _) => SetVariableAt(fuel - 1, env, n)
      case AssignFunction(name, ps, body) => Ok(C.NoReturn(name.line), SetFunc(env, name.value, FunctionDef(name, ps, body)))
      case FunctionCall(_, _) => CallAt(fuel - 1, env, n)
      case Loop(c, body) => LoopAt(fuel - 1, env, c, body)
      case Print(ps, line) => PrintAt(fuel - 1, env, ps, line)
      case Factorial(e) => FactorialAt(fuel - 1, env, e)
      case Return(e) => ValidateAt(fuel - 1, env, e)
      case ExpressionStatement(e) => EvalAt(fuel - 1, env, e)
      case Unsupported(c) => Fail(C.Internal("Unsupported type: " + c), env)
  }

  /** `validate_expression`: a NoReturn result is an error. */
  function ValidateAt(fuel: nat, env: seq<Scope>, n: Node): (r: Eval<C.Value>)
    requires |env| > 0
    ensures |r.env| == |env| && r.env[1..] == env[1..]
    ensures r.Ok? ==> !r.value.NoReturn?
    decreases fuel, 1, 0
  {
    Validated(EvalAt(fuel, env, n))
  }

  /** The check `validate_expression` applies to an evaluated result. */
  function Validated(v: Eval<C.Value>): (r: Eval<C.Value>)
    ensures r.env == v.env
    ensures r.Ok? ==> !r.value.NoReturn?
    ensures v.Ok? && !v.value.NoReturn? ==> r == v
  {
    if v.Ok? && v.value.NoReturn? then Fail(C.Language(v.value.line, "cannot evaluate expression that returns no value"), v.env)
    else v
  }

  /** `evaluate_identifier`: the binding re-stamped with the reference's line. */
  function IdentifierAt(env: seq<Scope>, name: string, line: int): (r: Eval<C.Value>)
    ensures r.env == env
  {
    match Lookup(env, name)
    case Some(v) => Ok(v.(line := line), env)
    case None => Fail(C.Language(line, "undefined variable: " + name), env)
  }

  function BinaryAt(fuel: nat, env: seq<Scope>, n: Node): (r: Eval<C.Value>)
    requires |env| > 0 && n.BinaryOperation?
    ensures |r.env| == |env| && r.env[1..] == env[1..]
    ensures r.Ok? ==> !r.value.NoReturn?
    decreases fuel, 3, 0
  {
    var l := ValidateAt(fuel, env, n.left);
    if !l.Ok? then l
    else
      var r := ValidateAt(fuel, l.env, n.right);
      if !r.Ok? then r else Lift(C.BinaryAt(n.op, l.value, r.value), r.env)
  }

  function UnaryAt(fuel: nat, env: seq<Scope>, n: Node): (r: Eval<C.Value>)
    requires |env| > 0 && n.UnaryOperation?
    ensures |r.env| == |env| && r.env[1..] == env[1..]
    ensures r.Ok? ==> !r.value.NoReturn?
    decreases fuel, 3, 0
  {
    var v := ValidateAt(fuel, env, n.expression);
    if !v.Ok? then v else Lift(C.UnaryAt(n.op, v.value), v.env)
  }

  /** A block's statements run for their effect; the `if` and the loop
      themselves evaluate to `NoReturn()`. */
  function Discard(s: Eval<seq<C.Value>>): (r: Eval<C.Value>)
    ensures r.env == s.env && (s.Ok? <==> r.Ok?)
  {
    if s.Ok? then Ok(C.NoReturn(0), s.env) else Abort(s)
  }

  function IfAt(fuel: nat, env: seq<Scope>, n: Node): (r: Eval<C.Value>)
    requires |env| > 0 && n.IfStatement?
    ensures |r.env| == |env| && r.env[1..] == env[1..]
    decreases fuel, 3, 0
  {
    var c := ValidateAt(fuel, env, n.comparison);
    if !c.Ok? then c
    else if IsTrue(c.value) then Discard(StatementsAt(fuel, c.env, n.trueStatements, []))
    else if n.falseStatements.Some? then Discard(StatementsAt(fuel, c.env, n.falseStatements.value, []))
    else Ok(C.NoReturn(0), c.env)
  }

  /** `evaluate_assign_variable`: bind in the current scope; the result is a
      NoReturn on the value's line. */
  function SetVariableAt(fuel: nat, env: seq<Scope>, n: Node): (r: Eval<C.Value>)
    requires |env| > 0 && n.SetVariable?
    ensures |r.env| == |env| && r.env[1..] == env[1..]
    decreases fuel, 3, 0
  {
    if n.target.Identifier? then
      var v := ValidateAt(fuel, env, n.newValue);
      if !v.Ok? then v else Ok(C.NoReturn(v.value.line), SetVar(v.env, n.target.name, v.value))
    else match LineNum(n.target)
      case Some(line) => Fail(C.Language(line, "cannot assign value to type " + ClassName(n.target)), env)
      case None => Fail(C.Internal("'" + ClassName(n.target) + "' object has no attribute 'line_num'"), env)
  }

  /** Parameter names joined by ", ". */
  function JoinNames(ps: seq<T.Token>): string
  {
    if ps == [] then "" else if |ps| == 1 then ps[0].value else ps[0].value + ", " + JoinNames(ps[1..])
  }

  function ArityMessage(name: string, ps: seq<T.Token>, given: nat): string
  {
    "Incorrect number of arguments. Function '" + name + "' defined with " + T.NatToString(|ps|)
    + " parameters (" + JoinNames(ps) + "), but " + T.NatToString(given) + " given."
  }

  /** `evaluate_function_call`: resolve, check the arity, evaluate the
      arguments in the caller's scope, run the body in a new child scope and
      pop it again. */
  function CallAt(fuel: nat, env: seq<Scope>, n: Node): (r: Eval<C.Value>)
    requires |env| > 0 && n.FunctionCall?
    ensures |r.env| == |env| && r.env[1..] == env[1..]
    decreases fuel, 3, 0
  {
    var name := n.callee.value;
    match FindFunction(env, name)
    case None => Fail(C.Language(n.callee.line, "Undefined function: " + name), env)
    case Some(def) =>
      if |def.parameters| != |n.parameterValues| then
        Fail(C.Language(n.callee.line, ArityMessage(name, def.parameters, |n.parameterValues|)), env)
      else
        var args := ArgsAt(fuel, env, def.parameters, n.parameterValues, map[]);
        if !args.Ok? then Abort(args) else RunBody(fuel, args.env, def, args.value, n.callee.line)
  }

  /** The `zip` loop binding each parameter name to its validated argument. */
  function ArgsAt(fuel: nat, env: seq<Scope>, ps: seq<T.Token>, args: seq<Node>, bound: map<string, C.Value>)
    : (r: Eval<map<string, C.Value>>)
    requires |env| > 0 && |ps| == |args|
    ensures |r.env| == |env| && r.env[1..] == env[1..]
    decreases fuel, 2, |args|
  {
    if args == [] then Ok(bound, env)
    else
      var v := ValidateAt(fuel, env, args[0]);
      if !v.Ok? then Abort(v) else ArgsAt(fuel, v.env, ps[1..], args[1..], bound[ps[0].value := v.value])
  }

  /** The body in a child scope holding the arguments; the `finally` pops that
      scope whatever the outcome. A return is re-stamped with the call's line. */
  function RunBody(fuel: nat, env: seq<Scope>, def: FunctionDef, bound: map<string, C.Value>, line: int)
    : (r: Eval<C.Value>)
    requires |env| > 0
    ensures r.env == env
    decreases fuel, 2, 0
  {
    var body := StatementsAt(fuel, [Scope(bound, map[])] + env, def.statements, []);
    assert ([Scope(bound, map[])] + env)[1..] == env;
    match body
    case Ok(_, e) => Ok(C.NoReturn(line), e[1..])
    case Returning(v, e) => Ok(v.(line := line), e[1..])
    case Fail(f, e) => Fail(f, e[1..])
  }

  /** `evaluate_loop_statement`. */
  function LoopAt(fuel: nat, env: seq<Scope>, cond: Node, body: seq<Node>): (r: Eval<C.Value>)
    requires |env| > 0
    ensures |r.env| == |env| && r.env[1..] == env[1..]
    decreases fuel, 3, 0
  {
    var c := ValidateAt(fuel, env, cond);
    if !c.Ok? then c
    else if !IsTrue(c.value) then Ok(C.NoReturn(0), c.env)
    else
      var s := StatementsAt(fuel, c.env, body, []);
      if !s.Ok? then Abort(s)
      else if fuel == 0 then Fail(C.OutOfFuel, s.env)
      else LoopAt(fuel - 1, s.env, cond, body)
  }

  /** `evaluate_print_statement`, without the output it writes. */
  function PrintAt(fuel: nat, env: seq<Scope>, ps: seq<Node>, line: int): (r: Eval<C.Value>)
    requires |env| > 0
    ensures |r.env| == |env| && r.env[1..] == env[1..]
    ensures r.Ok? ==> r.value == C.NoReturn(line)
    decreases fuel, 2, |ps|
  {
    if ps == [] then Ok(C.NoReturn(line), env)
    else
      var v := ValidateAt(fuel, env, ps[0]);
      if !v.Ok? then v else PrintAt(fuel, v.env, ps[1..], line)
  }

  /** `evaluate_factorial`: an Integer operand n gives n * (n-1) * ... * 2. */
  function FactorialAt(fuel: nat, env: seq<Scope>, e: Node): (r: Eval<C.Value>)
    requires |env| > 0
    ensures |r.env| == |env| && r.env[1..] == env[1..]
    decreases fuel, 3, 0
  {
    var v := EvalAt(fuel, env, e);
    if !v.Ok? then v
    else if !v.value.Integer? then
      Fail(C.Language(v.value.line, "Invalid type <class '_parser._parser." + C.TypeName(C.TypeOf(v.value)) + "'> for factorial"), v.env)
    else Ok(C.Integer(C.FallingProduct(v.value.whole), v.value.line), v.env)
  }

  /** `evaluate_statements` as its loop computes it: results so far in `done`.
      A `Return` statement raises its value after it is evaluated. */
  function StatementsAt(fuel: nat, env: seq<Scope>, stmts: seq<Node>, done: seq<C.Value>): (r: Eval<seq<C.Value>>)
    requires |env| > 0
    ensures |r.env| == |env| && r.env[1..] == env[1..]
    ensures r.Ok? ==> |r.value| == |done| + |stmts|
    decreases fuel, 1, |stmts|
  {
    if stmts == [] then Ok(done, env)
    else
      var v := EvalAt(fuel, env, stmts[0]);
      if !v.Ok? then Abort(v)
      else if stmts[0].Return? then Returning(v.value, v.env)
      else StatementsAt(fuel, v.env, stmts[1..], done + [v.value])
  }

  /** What `evaluate` returns: the results, or `NoReturn()` for no statements. */
  datatype Output = Listing(values: seq<C.Value>) | Nothing(noReturn: C.Value)

  function EvaluateOf(fuel: nat, env: seq<Scope>, ast: seq<Node>): (r: Eval<Output>)
    requires |env| > 0
  {
    var s := StatementsAt(fuel, env, ast, []);
    if !s.Ok? then Abort(s)
    else if |s.value| == 0 then Ok(Nothing(C.NoReturn(0)), s.env)
    else Ok(Listing(s.value), s.env)
  }

  // ---------------------------------------------------------------------------
  // Properties
  // ---------------------------------------------------------------------------

  /** Lookup walks the chain from the innermost scope: the first binding wins
      and is re-stamped with the reference's line; no binding anywhere is
      "undefined variable". */
  lemma {:induction false} IdentifierRules(fuel: nat, env: seq<Scope>, name: string, line: int)
    requires |env| > 0 && fuel > 0
    ensures (forall j :: 0 <= j < |env| ==> name !in env[j].vars) <==>
            EvalAt(fuel, env, Identifier(name, line)) == Fail(C.Language(line, "undefined variable: " + name), env)
    ensures forall i :: 0 <= i < |env| && name in env[i].vars && (forall j :: 0 <= j < i ==> name !in env[j].vars) ==>
            EvalAt(fuel, env, Identifier(name, line)) == Ok(env[i].vars[name].(line := line), env)
  {
    LookupMiss(env, name);
    forall i | 0 <= i < |env| && name in env[i].vars && (forall j :: 0 <= j < i ==> name !in env[j].vars)
      ensures EvalAt(fuel, env, Identifier(name, line)) == Ok(env[i].vars[name].(line := line), env)
    {
      LookupFirstHit(env, name, i);
    }
  }

  /** `validate_expression` turns a NoReturn into an error on its line and
      passes everything else through. */
  lemma {:induction false} ValidateRejectsNoReturn(fuel: nat, env: seq<Scope>, n: Node)
    requires |env| > 0
    ensures var v := EvalAt(fuel, env, n);
      && (v.Ok? && v.value.NoReturn? ==>
            ValidateAt(fuel, env, n) == Fail(C.Language(v.value.line, "cannot evaluate expression that returns no value"), v.env))
      && (!(v.Ok? && v.value.NoReturn?) ==> ValidateAt(fuel, env, n) == v)
  {
  }

  /** An assignment to a name validates the value, binds it in the current
      scope, and evaluates to a NoReturn on the value's line; a later lookup
      finds the value. Any other target is an error. */
  lemma {:induction false} AssignmentRules(fuel: nat, env: seq<Scope>, target: Node, value: Node)
    requires |env| > 0
    ensures var r := SetVariableAt(fuel, env, SetVariable(target, value));
      && (target.Identifier? ==> match ValidateAt(fuel, env, value)
            case Ok(v, e) => r == Ok(C.NoReturn(v.line), SetVar(e, target.name, v)) && Lookup(r.env, target.name) == T.Some(v)
            case _ => r == ValidateAt(fuel, env, value))
      && (!target.Identifier? ==> r.Fail? && r.env == env)
      && (!target.Identifier? && LineNum(target).Some? ==>
            r.failure == C.Language(LineNum(target).value, "cannot assign value to type " + ClassName(target)))
  {
  }

  /** Factorial needs an Integer n and gives n! (1 for n <= 1), on n's line. */
  lemma {:induction false} FactorialRules(fuel: nat, env: seq<Scope>, e: Node)
    requires |env| > 0
    ensures var v := EvalAt(fuel, env, e);
      && (v.Ok? && v.value.Integer? ==>
            && FactorialAt(fuel, env, e) == Ok(C.Integer(C.FallingProduct(v.value.whole), v.value.line), v.env)
            && (v.value.whole >= 0 ==> C.FallingProduct(v.value.whole) == C.Factorial(v.value.whole))
            && (v.value.whole <= 1 ==> C.FallingProduct(v.value.whole) == 1))
      && (v.Ok? && !v.value.Integer? ==> FactorialAt(fuel, env, e).Fail? && FactorialAt(fuel, env, e).failure.Language?)
  {
    var v := EvalAt(fuel, env, e);
    if v.Ok? && v.value.Integer? {
      C.FallingProductIsFactorial(v.value.whole);
    }
  }

  /** `if`: the true block runs when the condition is the Boolean true, the
      false block (when present) otherwise; the statement evaluates to
      `NoReturn()` and passes on a return from inside either block. */
  lemma {:induction false} IfRules(fuel: nat, env: seq<Scope>, c: Node, yes: seq<Node>, no: T.Option<seq<Node>>)
    requires |env| > 0
    ensures var r := IfAt(fuel, env, IfStatement(c, yes, no));
      match ValidateAt(fuel, env, c)
      case Ok(v, e) =>
        && (IsTrue(v) ==> r == Discard(StatementsAt(fuel, e, yes, [])))
        && (!IsTrue(v) && no.Some? ==> r == Discard(StatementsAt(fuel, e, no.value, [])))
        && (!IsTrue(v) && no.None? ==> r == Ok(C.NoReturn(0), e))
      case _ => r == ValidateAt(fuel, env, c)
  {
  }

  /** The loop stops once the condition is not the Boolean true, and otherwise
      runs the body and tests again. */
  lemma {:induction false} LoopRules(fuel: nat, env: seq<Scope>, c: Node, body: seq<Node>)
    requires |env| > 0
    ensures var r := LoopAt(fuel, env, c, body);
      match ValidateAt(fuel, env, c)
      case Ok(v, e) =>
        && (!IsTrue(v) ==> r == Ok(C.NoReturn(0), e))
        && (IsTrue(v) && fuel > 0 ==> match StatementsAt(fuel, e, body, [])
              case Ok(_, e2) => r == LoopAt(fuel - 1, e2, c, body)
              case s => r == Abort(s))
      case _ => r == ValidateAt(fuel, env, c)
  {
  }

  /** Binding the arguments adds exactly the parameter names. */
  lemma {:induction false} ArgumentsBindParameters(fuel: nat, env: seq<Scope>, ps: seq<T.Token>, args: seq<Node>,
                                                   bound: map<string, C.Value>)
    requires |env| > 0 && |ps| == |args|
    requires ArgsAt(fuel, env, ps, args, bound).Ok?
    ensures ArgsAt(fuel, env, ps, args, bound).value.Keys == bound.Keys + (set p | p in ps :: p.value)
    decreases |args|
  {
    if args != [] {
      var v := ValidateAt(fuel, env, args[0]);
      ArgumentsBindParameters(fuel, v.env, ps[1..], args[1..], bound[ps[0].value := v.value]);
      assert ps == [ps[0]] + ps[1..];
      assert (set p | p in ps :: p.value) == {ps[0].value} + (set p | p in ps[1..] :: p.value);
    }
  }

  /** A call: an undefined name and a wrong argument count are errors at the
      call's line; otherwise the arguments are evaluated in the caller's
      scopes, the body runs with one new scope in front holding exactly the
      parameters, and afterwards the caller's scopes are exactly as the
      arguments left them, whatever the body did. */
  lemma {:induction false} CallRules(fuel: nat, env: seq<Scope>, callee: T.Token, args: seq<Node>)
    requires |env| > 0
    ensures var r := CallAt(fuel, env, FunctionCall(callee, args));
      match FindFunction(env, callee.value)
      case None => r == Fail(C.Language(callee.line, "Undefined function: " + callee.value), env)
      case Some(def) =>
        && (|def.parameters| != |args| ==>
              r == Fail(C.Language(callee.line, ArityMessage(callee.value, def.parameters, |args|)), env))
        && (|def.parameters| == |args| ==>
              var a := ArgsAt(fuel, env, def.parameters, args, map[]);
              && r.env == a.env
              && (!a.Ok? ==> r == Abort(a))
              && (a.Ok? ==>
                    && a.value.Keys == (set p | p in def.parameters :: p.value)
                    && r == RunBody(fuel, a.env, def, a.value, callee.line)))
  {
    match FindFunction(env, callee.value)
    case None =>
    case Some(def) =>
      if |def.parameters| == |args| {
        var a := ArgsAt(fuel, env, def.parameters, args, map[]);
        if a.Ok? {
          ArgumentsBindParameters(fuel, env, def.parameters, args, map[]);
        }
      }
  }

  /** The body's outcome: finishing gives NoReturn on the call's line, a
      return gives the returned value re-stamped with the call's line, an
      error propagates; in every case the pushed scope is gone. */
  lemma {:induction false} BodyOutcomes(fuel: nat, env: seq<Scope>, def: FunctionDef, bound: map<string, C.Value>, line: int)
    requires |env| > 0
    ensures var s := StatementsAt(fuel, [Scope(bound, map[])] + env, def.statements, []);
      var r := RunBody(fuel, env, def, bound, line);
      && (s.Ok? ==> r == Ok(C.NoReturn(line), env))
      && (s.Returning? ==> r == Ok(s.returned.(line := line), env))
      && (s.Fail? ==> r == Fail(s.failure, env))
  {
  }

  /** Evaluating `a + b` is evaluating `a` and then `b` from where `a` ended. */
  lemma {:induction false} StatementsConcat(fuel: nat, env: seq<Scope>, a: seq<Node>, b: seq<Node>, done: seq<C.Value>)
    requires |env| > 0
    ensures StatementsAt(fuel, env, a + b, done) ==
      match StatementsAt(fuel, env, a, done)
      case Ok(vs, e) => StatementsAt(fuel, e, b, vs)
      case s => s
    decreases |a|
  {
    if a == [] {
      assert a + b == b;
    } else {
      assert (a + b)[0] == a[0] && (a + b)[1..] == a[1..] + b;
      var v := EvalAt(fuel, env, a[0]);
      if v.Ok? && !a[0].Return? {
        StatementsConcat(fuel, v.env, a[1..], b, done + [v.value]);
      }
    }
  }

  /** A `return` ends the statement list: the statements after it are not
      evaluated and the validated value travels up. */
  lemma {:induction false} ReturnSkipsTheRest(fuel: nat, env: seq<Scope>, before: seq<Node>, ret: Node, after: seq<Node>)
    requires |env| > 0 && ret.Return?
    requires StatementsAt(fuel, env, before, []).Ok?
    requires EvalAt(fuel, StatementsAt(fuel, env, before, []).env, ret).Ok?
    ensures var e := StatementsAt(fuel, env, before, []).env;
      var v := EvalAt(fuel, e, ret);
      StatementsAt(fuel, env, before + [ret] + after, []) == Returning(v.value, v.env)
  {
    var s := StatementsAt(fuel, env, before, []);
    StatementsConcat(fuel, env, before, [ret] + after, []);
    assert before + [ret] + after == before + ([ret] + after);
    assert ([ret] + after)[0] == ret;
  }

  /** One result per statement, and no statements give `NoReturn()`. */
  lemma {:induction false} EvaluateOutputs(fuel: nat, env: seq<Scope>, ast: seq<Node>)
    requires |env| > 0
    ensures ast == [] ==> EvaluateOf(fuel, env, ast) == Ok(Nothing(C.NoReturn(0)), env)
    ensures ast != [] && EvaluateOf(fuel, env, ast).Ok? ==>
      EvaluateOf(fuel, env, ast).value.Listing? && |EvaluateOf(fuel, env, ast).value.values| == |ast|
  {
  }

  // ---------------------------------------------------------------------------
  // The evaluator object
  // ---------------------------------------------------------------------------

  /** What a method returns: a value, a `ReturnException`, or an exception. */
  datatype Outcome<X> = Normal(value: X) | Returned(returned: C.Value) | Thrown(failure: C.Failure)

  predicate Agrees<X(==)>(r: Outcome<X>, s: Eval<X>, env: seq<Scope>)
  {
    env == s.env && match s
      case Ok(v, _) => r == Normal(v)
      case Returning(v, _) => r == Returned(v)
      case Fail(f, _) => r == Thrown(f)
  }

  function Pass<X, Y>(r: Outcome<X>): (s: Outcome<Y>)
    requires !r.Normal?
    ensures !s.Normal?
  {
    match r
    case Returned(v) => Returned(v)
    case Thrown(f) => Thrown(f)
  }

  lemma {:induction false} PassAgrees<X, Y>(r: Outcome<X>, s: Eval<X>, env: seq<Scope>)
    requires Agrees(r, s, env) && !r.Normal?
    ensures !s.Ok? && Agrees(Pass<X, Y>(r), Abort<X, Y>(s), env)
  {
  }

  /** `range(value, 1, -1)` folded with `*`. */
  method FactorialProduct(value: int) returns (p: int)
    ensures p == C.FallingProduct(value)
  {
    p := 1;
    var i := value;
    while i > 1
      invariant p * C.FallingProduct(i) == C.FallingProduct(value)
      decreases i
    {
      assert C.FallingProduct(i) == i * C.FallingProduct(i - 1);
      p := p * i;
      i := i - 1;
    }
  }

  class Evaluator {
    const ast: seq<Node>
    var env: seq<Scope>

    predicate Valid()
      reads this
    {
      |env| > 0
    }

    constructor (ast: seq<Node>, env: seq<Scope>)
      requires |env| > 0
      ensures Valid() && this.ast == ast && this.env == env
    {
      this.ast := ast;
      this.env := env;
    }

    method Evaluate(fuel: nat) returns (r: Outcome<Output>)
      requires Valid()
      modifies this
      ensures Valid() && Agrees(r, EvaluateOf(fuel, old(env), ast), env)
    {
      var s := EvaluateStatements(fuel, ast);
      if !s.Normal? {
        PassAgrees<seq<C.Value>, Output>(s, StatementsAt(fuel, old(env), ast, []), env);
        return Pass(s);
      }
      if |s.value| == 0 {
        return Normal(Nothing(C.NoReturn(0)));
      }
      r := Normal(Listing(s.value));
    }

    method EvaluateStatements(fuel: nat, stmts: seq<Node>) returns (r: Outcome<seq<C.Value>>)
      requires Valid()
      modifies this
      ensures Valid() && Agrees(r, StatementsAt(fuel, old(env), stmts, []), env)
      decreases fuel, 1, |stmts|
    {
      var results: seq<C.Value> := [];
      for i := 0 to |stmts|
        invariant Valid()
        invariant StatementsAt(fuel, env, stmts[i..], results) == StatementsAt(fuel, old(env), stmts, [])
      {
        assert stmts[i..][0] == stmts[i] && stmts[i..][1..] == stmts[i + 1..];
        ghost var before := env;
        var v := EvaluateExpression(fuel, stmts[i]);
        if !v.Normal? {
          PassAgrees<C.Value, seq<C.Value>>(v, EvalAt(fuel, before, stmts[i]), env);
          return Pass(v);
        }
        results := results + [v.value];
        if stmts[i].Return? {
          return Returned(v.value);
        }
      }
      r := Normal(results);
    }

    method ValidateExpression(fuel: nat, n: Node) returns (r: Outcome<C.Value>)
      requires Valid()
      modifies this
      ensures Valid() && Agrees(r, Validated(EvalAt(fuel, old(env), n)), env)
      decreases fuel, 1, 0
    {
      r := EvaluateExpression(fuel, n);
      if r.Normal? && r.value.NoReturn? {
        r := Thrown(C.Language(r.value.line, "cannot evaluate expression that returns no value"));
      }
    }

    /** `return e` evaluates and validates `e`. */
    method EvaluateReturn(fuel: nat, e: Node) returns (r: Outcome<C.Value>)
      requires Valid()
      modifies this
      ensures Valid() && Agrees(r, ValidateAt(fuel, old(env), e), env)
      decreases fuel, 1, 1
    {
      r := ValidateExpression(fuel, e);
    }

    method EvaluateExpression(fuel: nat, n: Node) returns (r: Outcome<C.Value>)
      requires Valid()
      modifies this
      ensures Valid() && Agrees(r, EvalAt(fuel, old(env), n), env)
      decreases fuel, 0, 1
    {
      if fuel == 0 {
        return Thrown(C.OutOfFuel);
      }
      match n
      case Literal(v) =>
        if v.NoReturn? {
          r := Thrown(C.Internal("Unsupported type: NoReturn"));
        } else {
          r := Normal(v);
        }
      case Identifier(name, line) => r := EvaluateIdentifier(name, line);
      case AssignFunction(_, _, _) => r := EvaluateAssignFunction(n);
      case Return(e) => r := EvaluateReturn(fuel - 1, e);
      case ExpressionStatement(e) => r := EvaluateExpression(fuel - 1, e);
      case Unsupported(c) => r := Thrown(C.Internal("Unsupported type: " + c));
      case _ => r := EvaluateCompound(fuel, n);
    }

    /** The node kinds whose evaluation is delegated to a helper of their own. */
    method EvaluateCompound(fuel: nat, n: Node) returns (r: Outcome<C.Value>)
      requires Valid() && fuel > 0
      requires n.BinaryOperation? || n.UnaryOperation? || n.IfStatement? || n.SetVariable?
        || n.FunctionCall? || n.Loop? || n.Print? || n.Factorial?
      modifies this
      ensures Valid() && Agrees(r, EvalAt(fuel, old(env), n), env)
      decreases fuel, 0, 0
    {
      match n
      case BinaryOperation(_, _, _) => r := EvaluateBinaryExpression(fuel - 1, n);
      case UnaryOperation(_, _) => r := EvaluateUnaryExpression(fuel - 1, n);
      case IfStatement(_, _, _) => r := EvaluateIfStatement(fuel - 1, n);
      case SetVariable(_, _) => r := EvaluateAssignVariable(fuel - 1, n);
      case FunctionCall(_, _) => r := EvaluateFunctionCall(fuel - 1, n);
      case Loop(_, _) => r := EvaluateLoopStatement(fuel - 1, n);
      case Print(_, _) => r := EvaluatePrintStatement(fuel - 1, n);
      case Factorial(e) => r := EvaluateFactorial(fuel - 1, e);
    }

    method EvaluateIdentifier(name: string, line: int) returns (r: Outcome<C.Value>)
      ensures Agrees(r, IdentifierAt(env, name, line), env)
    {
      var i := 0;
      while i < |env|
        invariant i <= |env|
        invariant Lookup(env[i..], name) == Lookup(env, name)
        decreases |env| - i
      {
        if name in env[i].vars {
          return Normal(env[i].vars[name].(line := line));
        }
        assert env[i..][1..] == env[i + 1..];
        i := i + 1;
      }
      r := Thrown(C.Language(line, "undefined variable: " + name));
    }

    method EvaluateAssignFunction(n: Node) returns (r: Outcome<C.Value>)
      requires Valid() && n.AssignFunction?
      modifies this
      ensures Valid() && Agrees(r, EvalAt(1, old(env), n), env)
    {
      env := SetFunc(env, n.fname.value, FunctionDef(n.fname, n.parameters, n.statements));
      r := Normal(C.NoReturn(n.fname.line));
    }

    method EvaluateAssignVariable(fuel: nat, n: Node) returns (r: Outcome<C.Value>)
      requires Valid() && n.SetVariable?
      modifies this
      ensures Valid() && Agrees(r, SetVariableAt(fuel, old(env), n), env)
      decreases fuel, 3, 0
    {
      if n.target.Identifier? {
        var v := ValidateExpression(fuel, n.newValue);
        if !v.Normal? {
          return v;
        }
        env := SetVar(env, n.target.name, v.value);
        return Normal(C.NoReturn(v.value.line));
      }
      match LineNum(n.target)
      case Some(line) => r := Thrown(C.Language(line, "cannot assign value to type " + ClassName(n.target)));
      case None => r := Thrown(C.Internal("'" + ClassName(n.target) + "' object has no attribute 'line_num'"));
    }

    method EvaluateBinaryExpression(fuel: nat, n: Node) returns (r: Outcome<C.Value>)
      requires Valid() && n.BinaryOperation?
      modifies this
      ensures Valid() && Agrees(r, BinaryAt(fuel, old(env), n), env)
      decreases fuel, 3, 0
    {
      var left := ValidateExpression(fuel, n.left);
      if !left.Normal? {
        return left;
      }
      var right := ValidateExpression(fuel, n.right);
      if !right.Normal? {
        return right;
      }
      match C.BinaryAt(n.op, left.value, right.value)
      case Done(v) => r := Normal(v);
      case Raised(f) => r := Thrown(f);
    }

    method EvaluateUnaryExpression(fuel: nat, n: Node) returns (r: Outcome<C.Value>)
      requires Valid() && n.UnaryOperation?
      modifies this
      ensures Valid() && Agrees(r, UnaryAt(fuel, old(env), n), env)
      decreases fuel, 3, 0
    {
      var v := ValidateExpression(fuel, n.expression);
      if !v.Normal? {
        return v;
      }
      match C.UnaryAt(n.op, v.value)
      case Done(x) => r := Normal(x);
      case Raised(f) => r := Thrown(f);
    }

    method EvaluateIfStatement(fuel: nat, n: Node) returns (r: Outcome<C.Value>)
      requires Valid() && n.IfStatement?
      modifies this
      ensures Valid() && Agrees(r, IfAt(fuel, old(env), n), env)
      decreases fuel, 3, 0
    {
      var c := ValidateExpression(fuel, n.comparison);
      if !c.Normal? {
        return c;
      }
      ghost var afterCondition := env;
      var s: Outcome<seq<C.Value>>;
      if IsTrue(c.value) {
        s := EvaluateStatements(fuel, n.trueStatements);
        assert Agrees(s, StatementsAt(fuel, afterCondition, n.trueStatements, []), env);
      } else if n.falseStatements.Some? {
        s := EvaluateStatements(fuel, n.falseStatements.value);
        assert Agrees(s, StatementsAt(fuel, afterCondition, n.falseStatements.value, []), env);
      } else {
        return Normal(C.NoReturn(0));
      }
      if !s.Normal? {
        return Pass(s);
      }
      r := Normal(C.NoReturn(0));
    }

    method EvaluateLoopStatement(fuel: nat, n: Node) returns (r: Outcome<C.Value>)
      requires Valid() && n.Loop?
      modifies this
      ensures Valid() && Agrees(r, LoopAt(fuel, old(env), n.condition, n.body), env)
      decreases fuel, 3, 0
    {
      var k: nat := fuel;
      while true
        invariant Valid() && k <= fuel
        invariant LoopAt(k, env, n.condition, n.body) == LoopAt(fuel, old(env), n.condition, n.body)
        decreases k
      {
        ghost var before := env;
        var c := ValidateExpression(k, n.condition);
        if !c.Normal? {
          return c;
        }
        if !IsTrue(c.value) {
          return Normal(C.NoReturn(0));
        }
        ghost var afterCondition := env;
        var s := EvaluateStatements(k, n.body);
        assert Agrees(s, StatementsAt(k, afterCondition, n.body, []), env);
        if !s.Normal? {
          return Pass(s);
        }
        if k == 0 {
          return Thrown(C.OutOfFuel);
        }
        assert LoopAt(k, before, n.condition, n.body) == LoopAt(k - 1, env, n.condition, n.body);
        k := k - 1;
      }
    }

    /** The parameters are validated in order; the text written is not modelled. */
    method EvaluatePrintStatement(fuel: nat, n: Node) returns (r: Outcome<C.Value>)
      requires Valid() && n.Print?
      modifies this
      ensures Valid() && Agrees(r, PrintAt(fuel, old(env), n.params, n.line), env)
      decreases fuel, 2, |n.params|
    {
      for i := 0 to |n.params|
        invariant Valid()
        invariant PrintAt(fuel, env, n.params[i..], n.line) == PrintAt(fuel, old(env), n.params, n.line)
      {
        assert n.params[i..][0] == n.params[i] && n.params[i..][1..] == n.params[i + 1..];
        var v := ValidateExpression(fuel, n.params[i]);
        if !v.Normal? {
          return v;
        }
      }
      r := Normal(C.NoReturn(n.line));
    }

    method EvaluateFactorial(fuel: nat, e: Node) returns (r: Outcome<C.Value>)
      requires Valid()
      modifies this
      ensures Valid() && Agrees(r, FactorialAt(fuel, old(env), e), env)
      decreases fuel, 3, 0
    {
      var v := EvaluateExpression(fuel, e);
      if !v.Normal? {
        return v;
      }
      if !v.value.Integer? {
        return Thrown(C.Language(v.value.line, "Invalid type <class '_parser._parser." + C.TypeName(C.TypeOf(v.value)) + "'> for factorial"));
      }
      var p := FactorialProduct(v.value.whole);
      r := Normal(C.Integer(p, v.value.line));
    }

    /** The resolution walk over every scope, keeping the last definition seen. */
    method ResolveFunction(name: string) returns (f: T.Option<FunctionDef>)
      ensures f == FindFunction(env, name)
    {
      f := T.None;
      var i := 0;
      while i < |env|
        invariant i <= |env| && f == FindFunction(env[..i], name)
        decreases |env| - i
      {
        assert env[..i + 1][..i] == env[..i] && env[..i + 1][i] == env[i];
        if name in env[i].funcs {
          f := T.Some(env[i].funcs[name]);
        }
        i := i + 1;
      }
      assert env[..|env|] == env;
    }

    method EvaluateFunctionCall(fuel: nat, n: Node) returns (r: Outcome<C.Value>)
      requires Valid() && n.FunctionCall?
      modifies this
      ensures Valid() && Agrees(r, CallAt(fuel, old(env), n), env)
      decreases fuel, 3, 0
    {
      var name := n.callee.value;
      var found := ResolveFunction(name);
      if found.None? {
        return Thrown(C.Language(n.callee.line, "Undefined function: " + name));
      }
      var def := found.value;
      if |def.parameters| != |n.parameterValues| {
        return Thrown(C.Language(n.callee.line, ArityMessage(name, def.parameters, |n.parameterValues|)));
      }
      var bound := BindArguments(fuel, def.parameters, n.parameterValues);
      if !bound.Normal? {
        PassAgrees<map<string, C.Value>, C.Value>(bound, ArgsAt(fuel, old(env), def.parameters, n.parameterValues, map[]), env);
        return Pass(bound);
      }
      r := CallBody(fuel, def, bound.value, n.callee.line);
    }

    method BindArguments(fuel: nat, ps: seq<T.Token>, args: seq<Node>) returns (r: Outcome<map<string, C.Value>>)
      requires Valid() && |ps| == |args|
      modifies this
      ensures Valid() && Agrees(r, ArgsAt(fuel, old(env), ps, args, map[]), env)
      decreases fuel, 2, |args|
    {
      var bound: map<string, C.Value> := map[];
      for i := 0 to |args|
        invariant Valid()
        invariant ArgsAt(fuel, env, ps[i..], args[i..], bound) == ArgsAt(fuel, old(env), ps, args, map[])
      {
        assert args[i..][0] == args[i] && args[i..][1..] == args[i + 1..];
        assert ps[i..][0] == ps[i] && ps[i..][1..] == ps[i + 1..];
        ghost var before := env;
        var v := ValidateExpression(fuel, args[i]);
        if !v.Normal? {
          PassAgrees<C.Value, map<string, C.Value>>(v, ValidateAt(fuel, before, args[i]), env);
          return Pass(v);
        }
        bound := bound[ps[i].value := v.value];
      }
      r := Normal(bound);
    }

    /** Push a child scope holding the arguments, run the body, and pop the
        scope again on every way out. */
    method CallBody(fuel: nat, def: FunctionDef, bound: map<string, C.Value>, line: int) returns (r: Outcome<C.Value>)
      requires Valid()
      modifies this
      ensures Valid() && Agrees(r, RunBody(fuel, old(env), def, bound, line), env)
      decreases fuel, 2, 0
    {
      env := [Scope(bound, map[])] + env;
      var body := EvaluateStatements(fuel, def.statements);
      env := env[1..];
      match body
      case Normal(_) => r := Normal(C.NoReturn(line));
      case Returned(v) => r := Normal(v.(line := line));
      case Thrown(f) => r := Thrown(f);
    }
  }
}
