/**
 * The tree-walking evaluator of interpreter/evaluator/evaluator.py, over the
 * nodes of `SimpleAst`.
 *
 * The environment is a chain of scopes, innermost first; the empty chain
 * stands for `self.env is None`. Binary arithmetic is performed by the nodes'
 * own `__add__`, `__sub__`, `__mul__` and `__truediv__`, which live in a file
 * outside this model: the evaluator is parameterised by them (`Arithmetic`).
 *
 * Each evaluation step is a function from (environment, node) to a result and
 * the environment after it; `Evaluator` is the object, whose methods update
 * `env` in place and are proved to agree with those functions.
 */
module SimpleEvaluator {
  import T = Tokens
  import A = SimpleAst

  type Scope = map<string, A.Node>

  /** A `LanguageRuntimeException` raised by `language_error`, or a plain
      `Exception`, which `evaluate` does not catch. */
  datatype Failure = Language(line: int, message: string) | Internal(message: string)

  /** A result together with the environment it leaves behind; assignments
      made before a failure stay made. */
  datatype Eval<X> = Ok(value: X, env: seq<Scope>) | Fail(failure: Failure, env: seq<Scope>)

  datatype ArithOp = Add | Subtract | Multiply | Divide

  /** What a node's arithmetic dunder method returns or raises. */
  datatype Attempt = Done(node: A.Node) | Raised(failure: Failure)

  type Arithmetic = (ArithOp, A.Node, A.Node) -> Attempt

  /** The operator tokens `evaluate_binary_expression` dispatches on. */
  function ArithOpOf(k: T.Kind): (r: T.Option<ArithOp>)
    ensures r.Some? <==> k in {T.Plus, T.Minus, T.Multiply, T.Divide}
  {
    match k
    case Plus => T.Some(Add)
    case Minus => T.Some(Subtract)
    case Multiply => T.Some(Multiply)
    case Divide => T.Some(Divide)
    case _ => T.None
  }

  function Abs(x: real): real
  {
    if x < 0.0 then -x else x
  }

  // ---------------------------------------------------------------------------
  // Scope chain
  // ---------------------------------------------------------------------------

  /** The binding of `name` in the innermost scope that has one. */
  function Lookup(env: seq<Scope>, name: string): T.Option<A.Node>
    decreases |env|
  {
    if env == [] then T.None
    else if name in env[0] then T.Some(env[0][name])
    else Lookup(env[1..], name)
  }

  /** The first scope (innermost) that binds the name decides. */
  lemma {:induction false} LookupFirstHit(env: seq<Scope>, name: string, i: nat)
    requires i < |env| && name in env[i]
    requires forall j :: 0 <= j < i ==> name !in env[j]
    ensures Lookup(env, name) == T.Some(env[i][name])
    decreases i
  {
    if i > 0 {
      assert name !in env[0];
      assert forall j :: 0 <= j < i - 1 ==> env[1..][j] == env[j + 1];
      LookupFirstHit(env[1..], name, i - 1);
    }
  }

  /** A lookup misses exactly when no scope binds the name. */
  lemma {:induction false} LookupMiss(env: seq<Scope>, name: string)
    ensures Lookup(env, name).None? <==> forall j :: 0 <= j < |env| ==> name !in env[j]
    decreases |env|
  {
    if env != [] {
      LookupMiss(env[1..], name);
      assert forall j :: 1 <= j < |env| ==> env[j] == env[1..][j - 1];
    }
  }

  /** A hit comes from some scope with no binding for the name inside it. */
  lemma {:induction false} LookupFound(env: seq<Scope>, name: string)
    requires Lookup(env, name).Some?
    ensures exists i :: 0 <= i < |env| && name in env[i] && env[i][name] == Lookup(env, name).value
                        && forall j :: 0 <= j < i ==> name !in env[j]
    decreases |env|
  {
    if name !in env[0] {
      LookupFound(env[1..], name);
      var i :| 0 <= i < |env[1..]| && name in env[1..][i] && env[1..][i][name] == Lookup(env[1..], name).value
               && forall j :: 0 <= j < i ==> name !in env[1..][j];
      assert name in env[i + 1] && forall j :: 0 <= j < i + 1 ==> name !in env[j] by {
        forall j | 0 <= j < i + 1
          ensures name !in env[j]
        {
          if j > 0 {
            assert env[j] == env[1..][j - 1];
          }
        }
      }
    }
  }

  // ---------------------------------------------------------------------------
  // Expressions
  // ---------------------------------------------------------------------------

  /** `evaluate_identifier`: the binding re-stamped with the reference's line,
      or "undefined variable". */
  function IdentifierAt(env: seq<Scope>, line: int, name: string): (r: Eval<A.Node>)
    ensures r.env == env
    ensures r.Ok? <==> Lookup(env, name).Some?
    ensures r.Ok? ==> r.value.line == line && A.TypeName(r.value) == A.TypeName(Lookup(env, name).value)
    ensures r.Fail? ==> r.failure == Language(line, "undefined variable: " + name)
  {
    match Lookup(env, name)
    case Some(v) => Ok(A.WithLine(v, line), env)
    case None => Fail(Language(line, "undefined variable: " + name), env)
  }

  /** `evaluate_assign_variable` after its value is evaluated: bind in the
      current (innermost) scope and return the value. */
  function AssignAt(name: string, v: A.Node, env: seq<Scope>): (r: Eval<A.Node>)
    ensures r.Ok? <==> env != []
    ensures r.Ok? ==> r.value == v && |r.env| == |env| && r.env[0] == env[0][name := v] && r.env[1..] == env[1..]
    ensures r.Fail? ==> r.failure.Internal? && r.env == env
  {
    if env == [] then Fail(Internal("Environment is None"), env)
    else Ok(v, env[0 := env[0][name := v]])
  }

  /** `evaluate_unary_expression` after its operand is evaluated. */
  function UnaryAt(op: T.Token, v: A.Node, env: seq<Scope>): (r: Eval<A.Node>)
    ensures r.env == env
    ensures r.Ok? <==> v.Number? && op.kind in {T.Plus, T.Minus}
    ensures r.Ok? ==> r.value.Number? && r.value.line == v.line
    ensures r.Ok? && op.kind == T.Plus ==> r.value.num >= 0.0 && (r.value.num == v.num || r.value.num == -v.num)
    ensures r.Ok? && op.kind == T.Minus ==> r.value.num == -v.num
    ensures r.Fail? ==> r.failure.Internal?
  {
    if op.kind == T.Plus && v.Number? then Ok(A.Number(v.line, Abs(v.num)), env)
    else if op.kind == T.Minus && v.Number? then Ok(A.Number(v.line, -v.num), env)
    else Fail(Internal("Invalid unary operator: " + T.KindName(op.kind) + " (" + op.value + ")"), env)
  }

  /** `evaluate_binary_expression` after both operands are evaluated. */
  function BinaryAt(arith: Arithmetic, op: T.Token, left: A.Node, right: A.Node, env: seq<Scope>): (r: Eval<A.Node>)
    ensures r.env == env
    ensures ArithOpOf(op.kind).None? ==> r == Fail(Language(op.line, "Invalid binary operator '" + op.value + "'"), env)
    ensures ArithOpOf(op.kind).Some? ==>
      var a := arith(ArithOpOf(op.kind).value, left, right);
      (r.Ok? <==> a.Done?) && (r.Ok? ==> r.value == a.node) && (r.Fail? ==> r.failure == a.failure)
  {
    match ArithOpOf(op.kind)
    case Some(o) => (
      match arith(o, left, right)
      case Done(v) => Ok(v, env)
      case Raised(f) => Fail(f, env))
    case None => Fail(Language(op.line, "Invalid binary operator '" + op.value + "'"), env)
  }

  /** `evaluate_expression`. Evaluation adds or removes no scope, and changes
      none but the innermost. */
  function EvalAt(arith: Arithmetic, env: seq<Scope>, n: A.Node): (r: Eval<A.Node>)
    ensures |r.env| == |env|
    ensures |env| > 0 ==> r.env[1..] == env[1..]
    decreases n
  {
    match n
    case BinaryExpression(_, left, op, right) =>
      var l := EvalAt(arith, env, left);
      if l.Fail? then l
      else
        var r := EvalAt(arith, l.env, right);
        if r.Fail? then r else BinaryAt(arith, op, l.value, r.value, r.env)
    case UnaryExpression(_, op, e) =>
      var v := EvalAt(arith, env, e);
      if v.Fail? then v else UnaryAt(op, v.value, v.env)
    case Assignment(_, name, e) =>
      var v := EvalAt(arith, env, e);
      if v.Fail? then v else AssignAt(name, v.value, v.env)
    case Identifier(line, name) => IdentifierAt(env, line, name)
    case Number(_, _) => Ok(n, env)
    case String(_, _) => Ok(n, env)
    case Boolean(_, _) => Ok(n, env)
    case Error(_, _) => Fail(Internal("Unsupported type: " + A.TypeName(n)), env)
  }

  /** Nodes that contain no assignment. */
  predicate Pure(n: A.Node)
  {
    match n
    case BinaryExpression(_, l, _, r) => Pure(l) && Pure(r)
    case UnaryExpression(_, _, e) => Pure(e)
    case Assignment(_, _, _) => false
    case _ => true
  }

  /** Only assignments change the environment. */
  lemma {:induction false} PureLeavesEnvironment(arith: Arithmetic, env: seq<Scope>, n: A.Node)
    requires Pure(n)
    ensures EvalAt(arith, env, n).env == env
  {
    match n
    case BinaryExpression(_, l, _, r) =>
      PureLeavesEnvironment(arith, env, l);
      PureLeavesEnvironment(arith, env, r);
    case UnaryExpression(_, _, e) =>
      PureLeavesEnvironment(arith, env, e);
    case _ =>
  }

  /** Literals evaluate to themselves; a node kind without a branch is an
      internal error; binary operators other than `+ - * /` are language
      errors reported at the operator. */
  lemma {:induction false} DispatchRules(arith: Arithmetic, env: seq<Scope>, n: A.Node)
    ensures A.IsLiteral(n) ==> EvalAt(arith, env, n) == Ok(n, env)
    ensures n.Error? ==> EvalAt(arith, env, n) == Fail(Internal("Unsupported type: Error"), env)
    ensures n.BinaryExpression? && ArithOpOf(n.operator.kind).None?
            && EvalAt(arith, env, n.left).Ok? && EvalAt(arith, EvalAt(arith, env, n.left).env, n.right).Ok? ==>
              EvalAt(arith, env, n).Fail?
              && EvalAt(arith, env, n).failure == Language(n.operator.line, "Invalid binary operator '" + n.operator.value + "'")
  {
    assert "Unsupported type: " + "Error" == "Unsupported type: Error";
  }

  /** Operands are evaluated left to right, threading the environment, and
      `+ - * /` are handed to the operands' arithmetic. */
  lemma {:induction false} BinaryEvaluation(arith: Arithmetic, env: seq<Scope>, line: int, left: A.Node, op: T.Token, right: A.Node)
    requires ArithOpOf(op.kind).Some?
    ensures var r := EvalAt(arith, env, A.BinaryExpression(line, left, op, right));
      match EvalAt(arith, env, left)
      case Fail(f, e) => r == Fail(f, e)
      case Ok(l, e) =>
        match EvalAt(arith, e, right)
        case Fail(f, e2) => r == Fail(f, e2)
        case Ok(rv, e2) =>
          match arith(ArithOpOf(op.kind).value, l, rv)
          case Done(v) => r == Ok(v, e2)
          case Raised(f) => r == Fail(f, e2)
  {
  }

  /** Identifier evaluation: the innermost binding, stamped with the
      reference's line, or "undefined variable" when no scope binds it. */
  lemma {:induction false} IdentifierRules(arith: Arithmetic, env: seq<Scope>, line: int, name: string)
    ensures (forall j :: 0 <= j < |env| ==> name !in env[j]) <==>
            EvalAt(arith, env, A.Identifier(line, name)) == Fail(Language(line, "undefined variable: " + name), env)
    ensures forall i :: 0 <= i < |env| && name in env[i] && (forall j :: 0 <= j < i ==> name !in env[j]) ==>
            EvalAt(arith, env, A.Identifier(line, name)) == Ok(A.WithLine(env[i][name], line), env)
  {
    LookupMiss(env, name);
    forall i | 0 <= i < |env| && name in env[i] && (forall j :: 0 <= j < i ==> name !in env[j])
      ensures EvalAt(arith, env, A.Identifier(line, name)) == Ok(A.WithLine(env[i][name], line), env)
    {
      LookupFirstHit(env, name, i);
    }
  }

  /** An assignment binds its evaluated value in the innermost scope, returns
      it, and a later lookup of the name finds it. */
  lemma {:induction false} AssignmentBinds(arith: Arithmetic, env: seq<Scope>, line: int, name: string, value: A.Node)
    requires |env| > 0
    ensures var r := EvalAt(arith, env, A.Assignment(line, name, value));
      match EvalAt(arith, env, value)
      case Fail(f, e) => r == Fail(f, e)
      case Ok(v, e) => r == Ok(v, e[0 := e[0][name := v]]) && Lookup(r.env, name) == T.Some(v)
  {
  }

  /** Without an environment an assignment is an internal error, after its
      value has been evaluated. */
  lemma {:induction false} AssignmentNeedsEnvironment(arith: Arithmetic, line: int, name: string, value: A.Node)
    requires EvalAt(arith, [], value).Ok?
    ensures EvalAt(arith, [], A.Assignment(line, name, value)) == Fail(Internal("Environment is None"), [])
  {
  }

  /** `x = y = z = 2` binds all three names to 2 and evaluates to 2. */
  lemma {:induction false} ChainedAssignment(arith: Arithmetic, outer: seq<Scope>)
    ensures var two := A.Number(1, 2.0);
      var env := [map[]] + outer;
      var r := EvalAt(arith, env, A.Assignment(1, "x", A.Assignment(1, "y", A.Assignment(1, "z", two))));
      && r.Ok? && r.value == two
      && Lookup(r.env, "x") == T.Some(two) && Lookup(r.env, "y") == T.Some(two) && Lookup(r.env, "z") == T.Some(two)
      && r.env[1..] == outer
  {
    var two := A.Number(1, 2.0);
    var env: seq<Scope> := [map[]] + outer;
    var e1 := env[0 := env[0]["z" := two]];
    assert EvalAt(arith, env, A.Assignment(1, "z", two)) == Ok(two, e1);
    var e2 := e1[0 := e1[0]["y" := two]];
    assert EvalAt(arith, env, A.Assignment(1, "y", A.Assignment(1, "z", two))) == Ok(two, e2);
    var e3 := e2[0 := e2[0]["x" := two]];
    assert e3[0] == map["z" := two, "y" := two, "x" := two];
  }

  /** Unary `+` is the absolute value and `-` the negation of a Number, kept on
      the operand's line; any other operand is an internal error. */
  lemma {:induction false} UnaryRules(arith: Arithmetic, env: seq<Scope>, line: int, op: T.Token, e: A.Node)
    ensures var r := EvalAt(arith, env, A.UnaryExpression(line, op, e));
      match EvalAt(arith, env, e)
      case Fail(f, env') => r == Fail(f, env')
      case Ok(v, env') =>
        && (op.kind == T.Plus && v.Number? ==> r == Ok(A.Number(v.line, Abs(v.num)), env') && r.value.num >= 0.0)
        && (op.kind == T.Minus && v.Number? ==> r == Ok(A.Number(v.line, -v.num), env'))
        && (!v.Number? || op.kind !in {T.Plus, T.Minus} ==> r.Fail? && r.failure.Internal?)
  {
  }

  /** `- - e` evaluates to the same Number as `e`, and `+ + e` to the same as `+ e`. */
  lemma {:induction false} UnaryInvolution(arith: Arithmetic, env: seq<Scope>, line: int, op: T.Token, e: A.Node)
    requires op.kind in {T.Plus, T.Minus}
    requires EvalAt(arith, env, e).Ok? && EvalAt(arith, env, e).value.Number?
    ensures op.kind == T.Minus ==>
      EvalAt(arith, env, A.UnaryExpression(line, op, A.UnaryExpression(line, op, e))) == EvalAt(arith, env, e)
    ensures op.kind == T.Plus ==>
      EvalAt(arith, env, A.UnaryExpression(line, op, A.UnaryExpression(line, op, e)))
      == EvalAt(arith, env, A.UnaryExpression(line, op, e))
  {
    var v := EvalAt(arith, env, e).value;
    assert --v.num == v.num;
    assert A.Number(v.line, --v.num) == v;
  }

  // ---------------------------------------------------------------------------
  // Statements and the top level
  // ---------------------------------------------------------------------------

  /** `evaluate_statements` in the form its loop computes: the results so far
      in `done`, the remaining statements in `stmts`. */
  function StatementsFrom(arith: Arithmetic, env: seq<Scope>, stmts: seq<A.Node>, done: seq<A.Node>): (r: Eval<seq<A.Node>>)
    ensures |r.env| == |env|
    ensures r.Ok? ==> |r.value| == |done| + |stmts| && r.value[..|done|] == done
    decreases |stmts|
  {
    if stmts == [] then Ok(done, env)
    else
      var v := EvalAt(arith, env, stmts[0]);
      if v.Fail? then Fail(v.failure, v.env)
      else
        var r := StatementsFrom(arith, v.env, stmts[1..], done + [v.value]);
        assert r.Ok? ==> r.value[..|done|] == (done + [v.value])[..|done|];
        r
  }

  /** The statements evaluated in order, one after another; the first failure
      ends the list. */
  function Statements(arith: Arithmetic, env: seq<Scope>, stmts: seq<A.Node>): (r: Eval<seq<A.Node>>)
    ensures r.Ok? ==> |r.value| == |stmts|
    ensures r.Ok? && stmts != [] ==> EvalAt(arith, env, stmts[0]).Ok? && r.value[0] == EvalAt(arith, env, stmts[0]).value
    decreases |stmts|
  {
    if stmts == [] then Ok([], env)
    else
      var v := EvalAt(arith, env, stmts[0]);
      if v.Fail? then Fail(v.failure, v.env)
      else
        var rest := Statements(arith, v.env, stmts[1..]);
        if rest.Fail? then rest else Ok([v.value] + rest.value, rest.env)
  }

  function Prefixed(done: seq<A.Node>, r: Eval<seq<A.Node>>): Eval<seq<A.Node>>
  {
    if r.Ok? then Ok(done + r.value, r.env) else r
  }

  /** The loop's accumulating form computes the statement sequence's results. */
  lemma {:induction false} LoopComputesStatements(arith: Arithmetic, env: seq<Scope>, stmts: seq<A.Node>, done: seq<A.Node>)
    ensures StatementsFrom(arith, env, stmts, done) == Prefixed(done, Statements(arith, env, stmts))
    decreases |stmts|
  {
    if stmts == [] {
      assert done + [] == done;
    } else {
      var v := EvalAt(arith, env, stmts[0]);
      if v.Ok? {
        LoopComputesStatements(arith, v.env, stmts[1..], done + [v.value]);
        var rest := Statements(arith, v.env, stmts[1..]);
        if rest.Ok? {
          assert done + [v.value] + rest.value == done + ([v.value] + rest.value);
        }
      }
    }
  }

  /** Result i is statement i evaluated in the environment the statements
      before it leave behind. */
  lemma {:induction false} ResultOfEachStatement(arith: Arithmetic, env: seq<Scope>, stmts: seq<A.Node>, i: nat)
    requires i < |stmts| && Statements(arith, env, stmts).Ok?
    ensures Statements(arith, env, stmts[..i]).Ok?
    ensures var before := Statements(arith, env, stmts[..i]).env;
      EvalAt(arith, before, stmts[i]).Ok? && Statements(arith, env, stmts).value[i] == EvalAt(arith, before, stmts[i]).value
    decreases i
  {
    if i > 0 {
      var v := EvalAt(arith, env, stmts[0]);
      ResultOfEachStatement(arith, v.env, stmts[1..], i - 1);
      assert stmts[..i][0] == stmts[0];
      assert stmts[..i][1..] == stmts[1..][..i - 1];
      assert stmts[1..][i - 1] == stmts[i];
    }
  }

  /** `evaluate`: a language error anywhere becomes the single result
      `Error(line, message)`; internal errors are not caught. */
  function EvaluateOf(arith: Arithmetic, env: seq<Scope>, ast: seq<A.Node>): (r: Eval<seq<A.Node>>)
    ensures r.Fail? ==> r.failure.Internal?
  {
    var s := StatementsFrom(arith, env, ast, []);
    if s.Fail? && s.failure.Language? then Ok([A.Error(s.failure.line, s.failure.message)], s.env) else s
  }

  /** The three outcomes of `evaluate`: one result per statement, the single
      Error node of a language error, or the internal error itself. */
  lemma {:induction false} EvaluateOutcomes(arith: Arithmetic, env: seq<Scope>, ast: seq<A.Node>)
    ensures var s := Statements(arith, env, ast);
      match s
      case Ok(vs, e) => EvaluateOf(arith, env, ast) == Ok(vs, e) && |vs| == |ast|
      case Fail(Language(line, m), e) => EvaluateOf(arith, env, ast) == Ok([A.Error(line, m)], e)
      case Fail(Internal(m), e) => EvaluateOf(arith, env, ast) == Fail(Internal(m), e)
  {
    LoopComputesStatements(arith, env, ast, []);
    var s := Statements(arith, env, ast);
    if s.Ok? {
      assert [] + s.value == s.value;
    }
  }

  /** Evaluating `a + b` is evaluating `a`, then `b` from where `a` ended. */
  lemma {:induction false} StatementsAppend(arith: Arithmetic, env: seq<Scope>, a: seq<A.Node>, b: seq<A.Node>)
    requires Statements(arith, env, a).Ok?
    ensures var s := Statements(arith, env, a);
      var t := Statements(arith, s.env, b);
      Statements(arith, env, a + b) == if t.Ok? then Ok(s.value + t.value, t.env) else t
    decreases |a|
  {
    if a == [] {
      assert a + b == b;
      var t := Statements(arith, env, b);
      if t.Ok? {
        assert Statements(arith, env, a).value + t.value == t.value;
      }
    } else {
      assert (a + b)[0] == a[0] && (a + b)[1..] == a[1..] + b;
      var v := EvalAt(arith, env, a[0]);
      StatementsAppend(arith, v.env, a[1..], b);
      var s := Statements(arith, env, a);
      var t := Statements(arith, s.env, b);
      if t.Ok? {
        assert [v.value] + (Statements(arith, v.env, a[1..]).value + t.value) == s.value + t.value;
      }
    }
  }

  /** A variable that no scope binds, once the statements before it have
      run, ends the program: `evaluate` gives the single Error node naming
      it on its line, and the statements after it are not evaluated. */
  lemma {:induction false} UndefinedVariableEndsTheProgram(arith: Arithmetic, env: seq<Scope>, before: seq<A.Node>, line: int, name: string, after: seq<A.Node>)
    requires Statements(arith, env, before).Ok?
    requires forall j :: 0 <= j < |Statements(arith, env, before).env| ==> name !in Statements(arith, env, before).env[j]
    ensures EvaluateOf(arith, env, before + [A.Identifier(line, name)] + after)
         == Ok([A.Error(line, "undefined variable: " + name)], Statements(arith, env, before).env)
  {
    var e := Statements(arith, env, before).env;
    IdentifierRules(arith, e, line, name);
    var rest := [A.Identifier(line, name)] + after;
    assert rest[0] == A.Identifier(line, name);
    assert Statements(arith, e, rest) == Fail(Language(line, "undefined variable: " + name), e);
    StatementsAppend(arith, env, before, rest);
    assert before + [A.Identifier(line, name)] + after == before + rest;
    EvaluateOutcomes(arith, env, before + rest);
  }

  // ---------------------------------------------------------------------------
  // The evaluator object
  // ---------------------------------------------------------------------------

  /** What a method returns: a value, or the exception it raises. */
  datatype Outcome<X> = Value(value: X) | Thrown(failure: Failure)

  predicate Agrees<X(==)>(r: Outcome<X>, s: Eval<X>, env: seq<Scope>)
  {
    env == s.env && match s
      case Ok(v, _) => r == Value(v)
      case Fail(f, _) => r == Thrown(f)
  }

  class Evaluator {
    const ast: seq<A.Node>
    const arithmetic: Arithmetic
    var env: seq<Scope>

    constructor (ast: seq<A.Node>, env: seq<Scope>, arithmetic: Arithmetic)
      ensures this.ast == ast && this.env == env && this.arithmetic == arithmetic
    {
      this.ast := ast;
      this.env := env;
      this.arithmetic := arithmetic;
    }

    /** `evaluate`, with the language errors caught. */
    method Evaluate() returns (r: Outcome<seq<A.Node>>)
      modifies this
      ensures Agrees(r, EvaluateOf(arithmetic, old(env), ast), env)
      ensures r.Thrown? ==> r.failure.Internal?
    {
      r := EvaluateStatements(ast);
      if r.Thrown? && r.failure.Language? {
        r := Value([A.Error(r.failure.line, r.failure.message)]);
      }
    }

    method EvaluateStatements(stmts: seq<A.Node>) returns (r: Outcome<seq<A.Node>>)
      modifies this
      ensures Agrees(r, StatementsFrom(arithmetic, old(env), stmts, []), env)
    {
      var results: seq<A.Node> := [];
      for i := 0 to |stmts|
        invariant StatementsFrom(arithmetic, env, stmts[i..], results) == StatementsFrom(arithmetic, old(env), stmts, [])
      {
        assert stmts[i..][0] == stmts[i] && stmts[i..][1..] == stmts[i + 1..];
        var v := EvaluateExpression(stmts[i]);
        if v.Thrown? {
          return Thrown(v.failure);
        }
        results := results + [v.value];
      }
      r := Value(results);
    }

    method EvaluateExpression(n: A.Node) returns (r: Outcome<A.Node>)
      modifies this
      ensures Agrees(r, EvalAt(arithmetic, old(env), n), env)
      decreases n, 1
    {
      match n
      case BinaryExpression(_, _, _, _) => r := EvaluateBinaryExpression(n);
      case UnaryExpression(_, _, _) => r := EvaluateUnaryExpression(n);
      case Assignment(_, _, _) => r := EvaluateAssignVariable(n);
      case Identifier(_, _) => r := EvaluateIdentifier(n);
      case Number(_, _) => r := Value(n);
      case String(_, _) => r := Value(n);
      case Boolean(_, _) => r := Value(n);
      case Error(_, _) => r := Thrown(Internal("Unsupported type: " + A.TypeName(n)));
    }

    method EvaluateAssignVariable(n: A.Node) returns (r: Outcome<A.Node>)
      requires n.Assignment?
      modifies this
      ensures Agrees(r, EvalAt(arithmetic, old(env), n), env)
      decreases n, 0
    {
      r := EvaluateExpression(n.value);
      if r.Thrown? {
        return;
      }
      if env == [] {
        return Thrown(Internal("Environment is None"));
      }
      env := env[0 := env[0][n.variable := r.value]];
    }

    /** Walks the scope chain from the innermost scope outwards. */
    method EvaluateIdentifier(n: A.Node) returns (r: Outcome<A.Node>)
      requires n.Identifier?
      ensures Agrees(r, EvalAt(arithmetic, env, n), env)
    {
      var i := 0;
      while i < |env|
        invariant i <= |env|
        invariant Lookup(env[i..], n.name) == Lookup(env, n.name)
        decreases |env| - i
      {
        if n.name in env[i] {
          return Value(A.WithLine(env[i][n.name], n.line));
        }
        assert env[i..][1..] == env[i + 1..];
        i := i + 1;
      }
      r := Thrown(Language(n.line, "undefined variable: " + n.name));
    }

    method EvaluateUnaryExpression(n: A.Node) returns (r: Outcome<A.Node>)
      requires n.UnaryExpression?
      modifies this
      ensures Agrees(r, EvalAt(arithmetic, old(env), n), env)
      decreases n, 0
    {
      var v := EvaluateExpression(n.expression);
      if v.Thrown? {
        return v;
      }
      var op := n.operator;
      if op.kind == T.Plus {
        if v.value.Number? {
          return Value(A.Number(v.value.line, Abs(v.value.num)));
        }
      } else if op.kind == T.Minus {
        if v.value.Number? {
          return Value(A.Number(v.value.line, -v.value.num));
        }
      }
      r := Thrown(Internal("Invalid unary operator: " + T.KindName(op.kind) + " (" + op.value + ")"));
    }

    method EvaluateBinaryExpression(n: A.Node) returns (r: Outcome<A.Node>)
      requires n.BinaryExpression?
      modifies this
      ensures Agrees(r, EvalAt(arithmetic, old(env), n), env)
      decreases n, 0
    {
      var left := EvaluateExpression(n.left);
      if left.Thrown? {
        return left;
      }
      var right := EvaluateExpression(n.right);
      if right.Thrown? {
        return right;
      }
      var op := n.operator;
      var o: ArithOp;
      if op.kind == T.Plus {
        o := Add;
      } else if op.kind == T.Minus {
        o := Subtract;
      } else if op.kind == T.Multiply {
        o := Multiply;
      } else if op.kind == T.Divide {
        o := Divide;
      } else {
        return Thrown(Language(op.line, "Invalid binary operator '" + op.value + "'"));
      }
      match arithmetic(o, left.value, right.value)
      case Done(v) => r := Value(v);
      case Raised(f) => r := Thrown(f);
    }
  }
}
