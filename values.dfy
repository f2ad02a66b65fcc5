/**
 * The expression nodes of the interpreter and their capability protocol
 * (interpreter/parser_/ast_objects.py).
 *
 * Every node kind is a variant of `Expr`. Each capability (add, neg, at, ...)
 * is a function that either builds a fresh value or, where the variant does
 * not support the operation for the given operand, rejects with a language
 * error naming the operand type(s). Numbers are modelled as exact reals; the
 * values the host computes (random draws, stdin, rounding, fractional powers)
 * are returned as an `External` request instead of being computed.
 */
module Values {
  import T = Tokens

  datatype Expr =
    | Number(line: int, num: real)
    | String(line: int, text: string)
    | Boolean(line: int, truth: bool)
    | List(line: int, values: seq<Expr>)
    | Function(line: int, parameters: seq<Expr>, body: Expr)
    | FunctionCall(line: int, callee: Expr, callParams: Expr)
    | Identifier(line: int, name: string)
    | When(line: int, subject: Expr, cases: seq<Case>)
    | ForLoop(line: int, element: string, iterable: Expr, condition: Expr, expression: Expr)
    | BuiltinFunction(line: int, builtin: string)
    | UnaryExpression(line: int, operator: T.Token, operand: Expr)
    | BinaryExpression(line: int, left: Expr, operator: T.Token, right: Expr)
    | Factorial(line: int, operand: Expr)
    | Assignment(line: int, variable: string, value: Expr)
    | Error(line: int, message: string)

  /** One `(comparison, result)` pair of a `when` expression. */
  datatype Case = Case(condition: Expr, result: Expr)

  /** The class name of a node, as error messages print it. */
  function TypeName(e: Expr): string
  {
    match e
    case Number(_, _) => "Number"
    case String(_, _) => "String"
    case Boolean(_, _) => "Boolean"
    case List(_, _) => "List"
    case Function(_, _, _) => "Function"
    case FunctionCall(_, _, _) => "FunctionCall"
    case Identifier(_, _) => "Identifier"
    case When(_, _, _) => "When"
    case ForLoop(_, _, _, _, _) => "ForLoop"
    case BuiltinFunction(_, _) => "BuiltinFunction"
    case UnaryExpression(_, _, _) => "UnaryExpression"
    case BinaryExpression(_, _, _, _) => "BinaryExpression"
    case Factorial(_, _) => "Factorial"
    case Assignment(_, _, _) => "Assignment"
    case Error(_, _) => "Error"
  }

  /** A shallow copy of a node re-stamped with another line. */
  function WithLine(e: Expr, l: int): (r: Expr)
    ensures r.line == l && TypeName(r) == TypeName(e)
  {
    e.(line := l)
  }

  // ---------------------------------------------------------------------------
  // Equality (the __eq__ methods): structural, never looks at line numbers,
  // and nodes of different classes are never equal.
  // ---------------------------------------------------------------------------

  function Equal(a: Expr, b: Expr): bool
    decreases a
  {
    match a
    case Number(_, x) => b.Number? && b.num == x
    case String(_, s) => b.String? && b.text == s
    case Boolean(_, v) => b.Boolean? && b.truth == v
    case List(_, xs) => b.List? && AllEqual(xs, b.values)
    case Function(_, ps, body) => b.Function? && AllEqual(ps, b.parameters) && Equal(body, b.body)
    case FunctionCall(_, f, args) => b.FunctionCall? && Equal(f, b.callee) && Equal(args, b.callParams)
    case Identifier(_, n) => b.Identifier? && b.name == n
    case When(_, s, cs) => b.When? && Equal(s, b.subject) && CasesEqual(cs, b.cases)
    case ForLoop(_, el, it, c, ex) =>
      b.ForLoop? && b.element == el && Equal(it, b.iterable) && Equal(c, b.condition) && Equal(ex, b.expression)
    case BuiltinFunction(_, n) => b.BuiltinFunction? && b.builtin == n
    case UnaryExpression(_, op, x) => b.UnaryExpression? && b.operator == op && Equal(x, b.operand)
    case BinaryExpression(_, l, op, r) =>
      b.BinaryExpression? && Equal(l, b.left) && b.operator == op && Equal(r, b.right)
    case Factorial(_, x) => b.Factorial? && Equal(x, b.operand)
    case Assignment(_, n, v) => b.Assignment? && b.variable == n && Equal(v, b.value)
    case Error(_, m) => b.Error? && b.message == m
  }

  /** Python list equality: same length and pairwise equal elements. */
  predicate AllEqual(xs: seq<Expr>, ys: seq<Expr>)
    decreases xs
  {
    |xs| == |ys| && forall i :: 0 <= i < |xs| ==> Equal(xs[i], ys[i])
  }

  predicate CasesEqual(xs: seq<Case>, ys: seq<Case>)
    decreases xs
  {
    |xs| == |ys| && forall i :: 0 <= i < |xs| ==> CaseEqual(xs[i], ys[i])
  }

  predicate CaseEqual(c: Case, d: Case)
    decreases c
  {
    Equal(c.condition, d.condition) && Equal(c.result, d.result)
  }

  lemma {:induction false} EqualReflexive(a: Expr)
    ensures Equal(a, a)
    decreases a
  {
    match a
    case List(_, xs) => AllEqualReflexive(xs);
    case Function(_, ps, body) => AllEqualReflexive(ps); EqualReflexive(body);
    case FunctionCall(_, f, args) => EqualReflexive(f); EqualReflexive(args);
    case When(_, s, cs) =>
      EqualReflexive(s);
      forall i | 0 <= i < |cs| ensures CaseEqual(cs[i], cs[i]) {
        EqualReflexive(cs[i].condition);
        EqualReflexive(cs[i].result);
      }
    case ForLoop(_, _, it, c, ex) => EqualReflexive(it); EqualReflexive(c); EqualReflexive(ex);
    case UnaryExpression(_, _, x) => EqualReflexive(x);
    case BinaryExpression(_, l, _, r) => EqualReflexive(l); EqualReflexive(r);
    case Factorial(_, x) => EqualReflexive(x);
    case Assignment(_, _, v) => EqualReflexive(v);
    case _ =>
  }

  lemma {:induction false} AllEqualReflexive(xs: seq<Expr>)
    ensures AllEqual(xs, xs)
    decreases xs
  {
    forall i | 0 <= i < |xs| ensures Equal(xs[i], xs[i]) {
      EqualReflexive(xs[i]);
    }
  }

  lemma {:induction false} EqualSymmetric(a: Expr, b: Expr)
    requires Equal(a, b)
    ensures Equal(b, a)
    decreases a
  {
    match a
    case List(_, xs) => AllEqualSymmetric(xs, b.values);
    case Function(_, ps, body) => AllEqualSymmetric(ps, b.parameters); EqualSymmetric(body, b.body);
    case FunctionCall(_, f, args) => EqualSymmetric(f, b.callee); EqualSymmetric(args, b.callParams);
    case When(_, s, cs) =>
      EqualSymmetric(s, b.subject);
      forall i | 0 <= i < |cs| ensures CaseEqual(b.cases[i], cs[i]) {
        assert CaseEqual(cs[i], b.cases[i]);
        EqualSymmetric(cs[i].condition, b.cases[i].condition);
        EqualSymmetric(cs[i].result, b.cases[i].result);
      }
    case ForLoop(_, _, it, c, ex) =>
      EqualSymmetric(it, b.iterable); EqualSymmetric(c, b.condition); EqualSymmetric(ex, b.expression);
    case UnaryExpression(_, _, x) => EqualSymmetric(x, b.operand);
    case BinaryExpression(_, l, _, r) => EqualSymmetric(l, b.left); EqualSymmetric(r, b.right);
    case Factorial(_, x) => EqualSymmetric(x, b.operand);
    case Assignment(_, _, v) => EqualSymmetric(v, b.value);
    case _ =>
  }

  lemma {:induction false} AllEqualSymmetric(xs: seq<Expr>, ys: seq<Expr>)
    requires AllEqual(xs, ys)
    ensures AllEqual(ys, xs)
    decreases xs
  {
    forall i | 0 <= i < |ys| ensures Equal(ys[i], xs[i]) {
      EqualSymmetric(xs[i], ys[i]);
    }
  }

  /** Re-stamping a node's line leaves it equal to the original. */
  lemma {:induction false} WithLineEqual(e: Expr, l: int)
    ensures Equal(WithLine(e, l), e) && Equal(e, WithLine(e, l))
  {
    EqualReflexive(e);
  }

  /** Nodes of different classes are never equal: equal nodes share a class. */
  lemma {:induction false} DifferentClassesNeverEqual(a: Expr, b: Expr)
    requires Equal(a, b)
    ensures TypeName(a) == TypeName(b)
  {
    match a
    case Number(_, _) => assert b.Number?;
    case String(_, _) => assert b.String?;
    case Boolean(_, _) => assert b.Boolean?;
    case List(_, _) => assert b.List?;
    case Function(_, _, _) => assert b.Function?;
    case FunctionCall(_, _, _) => assert b.FunctionCall?;
    case Identifier(_, _) => assert b.Identifier?;
    case When(_, _, _) => assert b.When?;
    case ForLoop(_, _, _, _, _) => assert b.ForLoop?;
    case BuiltinFunction(_, _) => assert b.BuiltinFunction?;
    case UnaryExpression(_, _, _) => assert b.UnaryExpression?;
    case BinaryExpression(_, _, _, _) => assert b.BinaryExpression?;
    case Factorial(_, _) => assert b.Factorial?;
    case Assignment(_, _, _) => assert b.Assignment?;
    case Error(_, _) => assert b.Error?;
  }

  // ---------------------------------------------------------------------------
  // Failures and outcomes
  // ---------------------------------------------------------------------------

  /** The message of a language error. */
  datatype Reason =
    | InvalidType(typeName: string, operation: string)
    | InvalidTypes(leftType: string, rightType: string, operator: string)
    | DivideByZero
    | FactorialNotWhole
    | IndexNotWhole
    | IndexOutOfRange(index: real)
    | ArgumentCount(got: nat)
    | IncorrectArgumentCount(accepted: string, got: nat)
    | UnsupportedArgument(typeName: string, builtin: string)
    | ExpectedNumber(parameter: string, typeName: string)
    | NotWhole(parameter: string)
    | EndBeforeStart(end: real, start: real)
    | StepIsZero
    | StepMustBeNegative
    | StepMustBePositive
    | RoundToNegative
    | UnsupportedPlatform(builtin: string, platform: string)

  /** A language error carries a line; an internal failure is a plain
      Python exception raised by the interpreter itself. */
  datatype Failure = Language(line: int, reason: Reason) | Internal(message: string)

  /** A value that the host computes: the model records the request. */
  datatype Request =
    | RandomUnit
    | RandomInt(low: int, high: int)
    | RandomFloat(lowReal: real, highReal: real)
    | ReadLine(prompt: string)
    | Round(number: real, digits: nat)
    | Power(base: real, exponent: real)

  datatype Outcome = Ok(value: Expr) | Fail(failure: Failure) | External(at: int, request: Request)

  /** The default behaviour of a unary capability a class does not override. */
  function RejectUnary(x: Expr, operation: string): Outcome
  {
    Fail(Language(x.line, InvalidType(TypeName(x), operation)))
  }

  /** The default behaviour of a binary capability a class does not override. */
  function RejectBinary(x: Expr, y: Expr, operator: string): Outcome
  {
    Fail(Language(x.line, InvalidTypes(TypeName(x), TypeName(y), operator)))
  }

  // ---------------------------------------------------------------------------
  // Number arithmetic helpers
  // ---------------------------------------------------------------------------

  /** `value % 1 == 0`. */
  predicate IsWhole(v: real)
  {
    v == v.Floor as real
  }

  /** Python's float `%`: the remainder takes the sign of the divisor. */
  function PyMod(x: real, y: real): (r: real)
    requires y != 0.0
    ensures y > 0.0 ==> 0.0 <= r < y
    ensures y < 0.0 ==> y < r <= 0.0
  {
    var f := x / y;
    var q := f.Floor as real;
    RemainderBounds(x, y, f, q);
    x - y * q
  }

  /** x - y * floor(x / y) lies between 0 and y. */
  lemma {:induction false} RemainderBounds(x: real, y: real, f: real, q: real)
    requires y != 0.0 && f * y == x && q <= f < q + 1.0
    ensures y > 0.0 ==> 0.0 <= x - y * q < y
    ensures y < 0.0 ==> y < x - y * q <= 0.0
  {
    var d := f - q;
    assert d * y == f * y - q * y;
    ScaledFraction(d, y);
    assert x - y * q == d * y;
  }

  /** A fraction in [0, 1) scaled by y lies between 0 and y. */
  lemma {:induction false} ScaledFraction(d: real, y: real)
    requires 0.0 <= d < 1.0 && y != 0.0
    ensures y > 0.0 ==> 0.0 <= d * y < y
    ensures y < 0.0 ==> y < d * y <= 0.0
  {
    assert (1.0 - d) * y == y - d * y;
  }

  /** x raised to a natural power. */
  function RealPow(x: real, n: nat): (r: real)
    ensures x != 0.0 ==> r != 0.0
  {
    if n == 0 then 1.0 else x * RealPow(x, n - 1)
  }

  /** Powers add their exponents: x^(m + n) == x^m * x^n. */
  lemma {:induction false} RealPowAdd(x: real, m: nat, n: nat)
    ensures RealPow(x, m + n) == RealPow(x, m) * RealPow(x, n)
    decreases m
  {
    if m > 0 {
      RealPowAdd(x, m - 1, n);
      assert RealPow(x, m + n) == x * RealPow(x, m - 1 + n);
      assert x * (RealPow(x, m - 1) * RealPow(x, n)) == (x * RealPow(x, m - 1)) * RealPow(x, n);
    }
  }

  /** The product lo * (lo + 1) * ... * hi, or 1 when the range is empty. */
  function ProductRange(lo: int, hi: int): int
    decreases hi - lo
  {
    if lo > hi then 1 else lo * ProductRange(lo + 1, hi)
  }

  /** The mathematical factorial, the reference for `fac`. */
  function Factorial(n: nat): nat
  {
    if n == 0 then 1 else n * Factorial(n - 1)
  }

  lemma {:induction false} ProductIsFactorial(n: nat)
    requires n >= 1
    ensures ProductRange(2, n) == Factorial(n)
  {
    if n > 1 {
      ProductIsFactorial(n - 1);
      ProductSplitLast(2, n);
    }
  }

  lemma {:induction false} ProductSplitLast(lo: int, hi: int)
    requires lo <= hi
    ensures ProductRange(lo, hi) == ProductRange(lo, hi - 1) * hi
    decreases hi - lo
  {
    if lo < hi {
      ProductSplitLast(lo + 1, hi);
    }
  }

  // ---------------------------------------------------------------------------
  // Unary capabilities
  // ---------------------------------------------------------------------------

  function Abs(x: Expr): Outcome
  {
    if x.Number? then Ok(Number(x.line, if x.num < 0.0 then -x.num else x.num))
    else RejectUnary(x, "absolute value")
  }

  function Neg(x: Expr): Outcome
  {
    match x
    case Number(l, v) => Ok(Number(l, -v))
    case List(l, xs) => Ok(List(l, Reverse(xs)))
    case _ => RejectUnary(x, "negation")
  }

  function Fac(x: Expr): Outcome
  {
    if x.Number? then NumberFactorial(x.line, x.num) else RejectUnary(x, "factorial")
  }

  /** Number.fac: whole numbers only; 0! = 1! = 1; n! multiplies 2..n; a
      negative n is offset by one from its positive counterpart. */
  function NumberFactorial(line: int, v: real): Outcome
  {
    if !IsWhole(v) then Fail(Language(line, FactorialNotWhole))
    else
      var n := v.Floor;
      if n == 0 || n == 1 then Ok(Number(line, 1.0))
      else
        var start := if n < 0 then -n + 1 else n;
        Ok(Number(line, ProductRange(2, start) as real))
  }

  function Inc(x: Expr): Outcome
  {
    if x.Number? then Ok(Number(x.line, x.num + 1.0)) else RejectUnary(x, "increment")
  }

  function Dec(x: Expr): Outcome
  {
    if x.Number? then Ok(Number(x.line, x.num - 1.0)) else RejectUnary(x, "decrement")
  }

  function Not(x: Expr): Outcome
  {
    if x.Boolean? then Ok(Boolean(x.line, !x.truth)) else RejectUnary(x, "NOT")
  }

  function Pack(x: Expr): Outcome
  {
    if x.List? then Ok(List(x.line, [List(x.line, x.values)])) else RejectUnary(x, "PACK")
  }

  /** Python's `reversed`. */
  function Reverse(xs: seq<Expr>): seq<Expr>
  {
    if xs == [] then [] else Reverse(xs[1..]) + [xs[0]]
  }

  lemma {:induction false} ReverseAt(xs: seq<Expr>, k: nat)
    requires k < |xs|
    ensures |Reverse(xs)| == |xs| && Reverse(xs)[k] == xs[|xs| - 1 - k]
  {
    ReverseLength(xs);
    if k < |xs| - 1 {
      ReverseAt(xs[1..], k);
    }
  }

  lemma {:induction false} ReverseLength(xs: seq<Expr>)
    ensures |Reverse(xs)| == |xs|
  {
    if xs != [] {
      ReverseLength(xs[1..]);
    }
  }

  // ---------------------------------------------------------------------------
  // Binary capabilities
  // ---------------------------------------------------------------------------

  /** The base `eq`: a Boolean carrying the left operand's line. */
  function Eq(x: Expr, y: Expr): Expr
  {
    Boolean(x.line, Equal(x, y))
  }

  /** The base `ne`: the negation of `eq`. */
  function Ne(x: Expr, y: Expr): Expr
  {
    Boolean(x.line, !Eq(x, y).truth)
  }

  function And(x: Expr, y: Expr): Outcome
  {
    if x.Boolean? && y.Boolean? then Ok(Boolean(x.line, x.truth && y.truth)) else RejectBinary(x, y, "AND")
  }

  function Or(x: Expr, y: Expr): Outcome
  {
    if x.Boolean? && y.Boolean? then Ok(Boolean(x.line, x.truth || y.truth)) else RejectBinary(x, y, "OR")
  }

  function Xor(x: Expr, y: Expr): Outcome
  {
    if x.Boolean? && y.Boolean? then Ok(Boolean(x.line, x.truth != y.truth)) else RejectBinary(x, y, "XOR")
  }

  /** The base `contains`: membership by equality in a List operand. */
  function Contains(x: Expr, y: Expr): Outcome
  {
    if y.List? then Ok(Boolean(x.line, exists i :: 0 <= i < |y.values| && Equal(y.values[i], x)))
    else RejectBinary(x, y, "IN")
  }

  function Gt(x: Expr, y: Expr): Outcome
  {
    if x.Number? && y.Number? then Ok(Boolean(x.line, x.num > y.num)) else RejectBinary(x, y, "GT")
  }

  function Ge(x: Expr, y: Expr): Outcome
  {
    if x.Number? && y.Number? then Ok(Boolean(x.line, x.num >= y.num)) else RejectBinary(x, y, "GE")
  }

  function Lt(x: Expr, y: Expr): Outcome
  {
    if x.Number? && y.Number? then Ok(Boolean(x.line, x.num < y.num)) else RejectBinary(x, y, "LT")
  }

  function Le(x: Expr, y: Expr): Outcome
  {
    if x.Number? && y.Number? then Ok(Boolean(x.line, x.num <= y.num)) else RejectBinary(x, y, "LE")
  }

  function Add(x: Expr, y: Expr): Outcome
  {
    if x.Number? && y.Number? then Ok(Number(x.line, x.num + y.num))
    else if x.String? && y.String? then Ok(String(x.line, x.text + y.text))
    else if x.List? && y.List? then Ok(List(x.line, x.values + y.values))
    else RejectBinary(x, y, "PLUS")
  }

  function Sub(x: Expr, y: Expr): Outcome
  {
    if x.Number? && y.Number? then Ok(Number(x.line, x.num - y.num))
    else if x.List? && y.List? then Ok(List(x.line, RemoveEach(x.values, y.values)))
    else RejectBinary(x, y, "MINUS")
  }

  function Mul(x: Expr, y: Expr): Outcome
  {
    if x.Number? && y.Number? then Ok(Number(x.line, x.num * y.num)) else RejectBinary(x, y, "MULTIPLY")
  }

  function Div(x: Expr, y: Expr): Outcome
  {
    if x.Number? && y.Number? then
      if y.num == 0.0 then Fail(Language(x.line, DivideByZero)) else Ok(Number(x.line, x.num / y.num))
    else RejectBinary(x, y, "DIVIDE")
  }

  function Mod(x: Expr, y: Expr): Outcome
  {
    if x.Number? && y.Number? then
      if y.num == 0.0 then Fail(Language(x.line, DivideByZero)) else Ok(Number(x.line, PyMod(x.num, y.num)))
    else RejectBinary(x, y, "MOD")
  }

  /** `**` on whole exponents; a fractional exponent is left to the host.
      The default rejection names PACK, as the source does. */
  function Pow(x: Expr, y: Expr): Outcome
  {
    if x.Number? && y.Number? then
      if !IsWhole(y.num) then External(x.line, Power(x.num, y.num))
      else if y.num >= 0.0 then Ok(Number(x.line, RealPow(x.num, y.num.Floor)))
      else if x.num == 0.0 then Fail(Internal("0.0 cannot be raised to a negative power"))
      else Ok(Number(x.line, 1.0 / RealPow(x.num, -y.num.Floor)))
    else RejectBinary(x, y, "PACK")
  }

  /** The `<-` send operator: List appends, Function builds a call, a builtin
      runs on the platform it is asked from. */
  function Ptr(x: Expr, y: Expr, platform: string): Outcome
  {
    match x
    case List(l, xs) => Ok(List(l, xs + [y]))
    case Function(l, _, _) => if y.List? then Ok(FunctionCall(l, x, y)) else RejectBinary(x, y, "SEND")
    case BuiltinFunction(_, _) => CallBuiltin(x, y, platform)
    case _ => RejectBinary(x, y, "SEND")
  }

  /** List indexing with Python's negative-index wraparound. */
  function At(x: Expr, y: Expr): Outcome
  {
    if x.List? && y.Number? then
      if !IsWhole(y.num) then Fail(Language(x.line, IndexNotWhole))
      else if -(|x.values| as real) <= y.num < |x.values| as real then
        var i := y.num.Floor;
        Ok(x.values[if i < 0 then |x.values| + i else i])
      else Fail(Language(x.line, IndexOutOfRange(y.num)))
    else RejectBinary(x, y, "INDEX")
  }

  // ---------------------------------------------------------------------------
  // List.sub: remove every occurrence of every element of the right list
  // ---------------------------------------------------------------------------

  /** `[v for v in xs if v.ne(y).value]`. */
  function FilterNe(xs: seq<Expr>, y: Expr): (r: seq<Expr>)
    ensures |r| <= |xs|
  {
    if xs == [] then []
    else (if Ne(xs[0], y).truth then [xs[0]] else []) + FilterNe(xs[1..], y)
  }

  /** The loop of List.sub: filter once per element of the right list, in order. */
  function RemoveEach(xs: seq<Expr>, ys: seq<Expr>): seq<Expr>
    decreases |ys|
  {
    if ys == [] then xs else RemoveEach(FilterNe(xs, ys[0]), ys[1..])
  }

  /** v equals no element of ys. */
  predicate Unmatched(v: Expr, ys: seq<Expr>)
  {
    forall j :: 0 <= j < |ys| ==> !Equal(v, ys[j])
  }

  /** Reference definition: the elements of xs, in order, that equal no element of ys. */
  function KeepUnmatched(xs: seq<Expr>, ys: seq<Expr>): seq<Expr>
  {
    if xs == [] then []
    else (if Unmatched(xs[0], ys) then [xs[0]] else []) + KeepUnmatched(xs[1..], ys)
  }

  lemma {:induction false} FilterThenKeep(xs: seq<Expr>, y: Expr, ys: seq<Expr>)
    ensures KeepUnmatched(FilterNe(xs, y), ys) == KeepUnmatched(xs, [y] + ys)
  {
    if xs != [] {
      FilterThenKeep(xs[1..], y, ys);
      var v := xs[0];
      assert Unmatched(v, [y] + ys) <==> !Equal(v, y) && Unmatched(v, ys) by {
        if Unmatched(v, [y] + ys) {
          assert ([y] + ys)[0] == y;
          forall j | 0 <= j < |ys| ensures !Equal(v, ys[j]) {
            assert ([y] + ys)[j + 1] == ys[j];
          }
        }
      }
      var rest := FilterNe(xs[1..], y);
      if Ne(v, y).truth {
        assert FilterNe(xs, y) == [v] + rest;
        assert ([v] + rest)[1..] == rest;
      } else {
        assert FilterNe(xs, y) == rest;
      }
    }
  }

  /** List.sub removes exactly the left elements that equal some right element. */
  lemma {:induction false} RemoveEachKeepsUnmatched(xs: seq<Expr>, ys: seq<Expr>)
    ensures RemoveEach(xs, ys) == KeepUnmatched(xs, ys)
    decreases |ys|
  {
    if ys == [] {
      KeepAllWhenNothingToRemove(xs);
    } else {
      RemoveEachKeepsUnmatched(FilterNe(xs, ys[0]), ys[1..]);
      FilterThenKeep(xs, ys[0], ys[1..]);
      assert [ys[0]] + ys[1..] == ys;
    }
  }

  lemma {:induction false} KeepAllWhenNothingToRemove(xs: seq<Expr>)
    ensures KeepUnmatched(xs, []) == xs
  {
    if xs != [] {
      KeepAllWhenNothingToRemove(xs[1..]);
      assert [xs[0]] + xs[1..] == xs;
    }
  }

  /** The kept elements are exactly the unmatched elements of xs. */
  lemma {:induction false} KeepUnmatchedMembers(xs: seq<Expr>, ys: seq<Expr>, v: Expr)
    ensures v in KeepUnmatched(xs, ys) <==> v in xs && Unmatched(v, ys)
  {
    if xs != [] {
      KeepUnmatchedMembers(xs[1..], ys, v);
      assert xs == [xs[0]] + xs[1..];
    }
  }

  /** `List.sub` as a loop over the right list that rebinds the kept values.
      It returns a new list; the operands are values and stay as they are. */
  method ListSub(line: int, xs: seq<Expr>, ys: seq<Expr>) returns (r: Expr)
    ensures r == List(line, KeepUnmatched(xs, ys))
    ensures Sub(List(line, xs), List(line, ys)) == Ok(r)
  {
    var newValues := xs;
    for i := 0 to |ys|
      invariant RemoveEach(newValues, ys[i..]) == RemoveEach(xs, ys)
    {
      assert ys[i..][0] == ys[i] && ys[i..][1..] == ys[i + 1..];
      newValues := FilterNe(newValues, ys[i]);
    }
    assert ys[|ys|..] == [];
    RemoveEachKeepsUnmatched(xs, ys);
    r := List(line, newValues);
  }

  // ---------------------------------------------------------------------------
  // Builtin functions
  // ---------------------------------------------------------------------------

  const BuiltinNames: seq<string> := ["print", "randint", "randfloat", "len", "range", "round", "input"]

  /** The platform value (read from the host environment) on which `input` is unavailable. */
  const WebPlatform: string := "WEB"

  const UnsupportedPlatforms: map<string, seq<string>> := map["input" := [WebPlatform]]

  /** BuiltinFunction.ptr: platform check, then dispatch by name on a List of arguments. */
  function CallBuiltin(f: Expr, arg: Expr, platform: string): Outcome
    requires f.BuiltinFunction?
  {
    var l := f.line;
    if f.builtin in UnsupportedPlatforms && platform in UnsupportedPlatforms[f.builtin] then
      Fail(Language(l, UnsupportedPlatform(f.builtin, platform)))
    else if arg.List? then
      var args := arg.values;
      if f.builtin == "print" then Ok(List(l, args))
      else if f.builtin == "randint" then RandomBuiltin(l, args, false)
      else if f.builtin == "randfloat" then RandomBuiltin(l, args, true)
      else if f.builtin == "len" then LenBuiltin(l, args)
      else if f.builtin == "range" then RangeBuiltin(l, args)
      else if f.builtin == "round" then RoundBuiltin(l, args)
      else if f.builtin == "input" then InputBuiltin(l, args)
      else Fail(Internal("Unimplemented builtin function " + f.builtin))
    else RejectBinary(f, arg, "SEND")
  }

  function InputBuiltin(l: int, args: seq<Expr>): Outcome
  {
    if |args| != 1 then Fail(Language(l, ArgumentCount(|args|)))
    else if !args[0].String? then Fail(Language(l, UnsupportedArgument(TypeName(args[0]), "len")))
    else External(l, ReadLine(args[0].text))
  }

  function LenBuiltin(l: int, args: seq<Expr>): Outcome
  {
    if |args| != 1 then Fail(Language(l, ArgumentCount(|args|)))
    else match args[0]
      case String(_, s) => Ok(Number(l, |s| as real))
      case List(_, vs) => Ok(Number(l, |vs| as real))
      case _ => Fail(Language(l, UnsupportedArgument(TypeName(args[0]), "len")))
  }

  /** Argument validation of `randint` (isFloat false) and `randfloat` (true);
      the draw itself is the host's. */
  function RandomBuiltin(l: int, args: seq<Expr>, isFloat: bool): Outcome
  {
    if isFloat && |args| == 0 then External(l, RandomUnit)
    else if |args| != 1 && |args| != 2 then
      Fail(Language(l, IncorrectArgumentCount(if isFloat then "0, 1, or 2" else "1 or 2", |args|)))
    else
      var start := if |args| == 1 then Number(l, 0.0) else args[0];
      var end := if |args| == 1 then args[0] else args[1];
      if !start.Number? then Fail(Language(l, ExpectedNumber("start", TypeName(start))))
      else if !isFloat && !IsWhole(start.num) then Fail(Language(l, NotWhole("start")))
      else if !end.Number? then Fail(Language(l, ExpectedNumber("end", TypeName(end))))
      else if !isFloat && !IsWhole(end.num) then Fail(Language(l, NotWhole("end")))
      else if end.num < start.num then Fail(Language(l, EndBeforeStart(end.num, start.num)))
      else if isFloat then External(l, RandomFloat(start.num, end.num))
      else External(l, RandomInt(start.num.Floor, end.num.Floor))
  }

  /** Argument validation of `round`; the rounding itself is the host's. */
  function RoundBuiltin(l: int, args: seq<Expr>): Outcome
  {
    if |args| != 2 then Fail(Language(l, IncorrectArgumentCount("2", |args|)))
    else if !args[0].Number? then Fail(Language(l, ExpectedNumber("number", TypeName(args[0]))))
    else if !args[1].Number? then Fail(Language(l, ExpectedNumber("round_to", TypeName(args[1]))))
    else if !IsWhole(args[1].num) then Fail(Language(l, NotWhole("round_to")))
    else if args[1].num < 0.0 then Fail(Language(l, RoundToNegative))
    else External(l, Round(args[0].num, args[1].num.Floor))
  }

  /** The range builtin: 1 to 3 arguments, start defaults to 0 and step to 1. */
  function RangeBuiltin(l: int, args: seq<Expr>): Outcome
  {
    if |args| < 1 || |args| > 3 then Fail(Language(l, IncorrectArgumentCount("1, 2, or 3", |args|)))
    else
      var start := if |args| == 1 then Number(l, 0.0) else args[0];
      var end := if |args| == 1 then args[0] else args[1];
      var step := if |args| == 3 then args[2] else Number(l, 1.0);
      RangeOf(l, start, end, step)
  }

  /** range once the defaults are filled in: three Numbers, and a step that
      is not zero and points from the start toward the end. */
  function RangeOf(l: int, start: Expr, end: Expr, step: Expr): Outcome
  {
    if !start.Number? then Fail(Language(l, ExpectedNumber("start", TypeName(start))))
    else if !end.Number? then Fail(Language(l, ExpectedNumber("end", TypeName(end))))
    else if !step.Number? then Fail(Language(l, ExpectedNumber("step", TypeName(step))))
    else if step.num == 0.0 then Fail(Language(l, StepIsZero))
    else if start.num > end.num && step.num > 0.0 then Fail(Language(l, StepMustBeNegative))
    else if start.num < end.num && step.num < 0.0 then Fail(Language(l, StepMustBePositive))
    else Ok(List(l, RangeFrom(l, start.num, end.num, step.num, start.num < end.num)))
  }

  /** `a < b` when counting up, `a > b` when counting down. */
  predicate Within(a: real, b: real, ascending: bool)
  {
    if ascending then a < b else a > b
  }

  /** The step points the right way whenever another value is due. */
  predicate StepFits(next: real, end: real, step: real, ascending: bool)
  {
    step != 0.0 && (Within(next, end, ascending) ==> (if ascending then step > 0.0 else step < 0.0))
  }

  /** How many more steps fit before the end. */
  function StepsLeft(next: real, end: real, step: real): int
    requires step != 0.0
  {
    ((end - next) / step).Floor
  }

  lemma {:induction false} StepsLeftDecreases(next: real, end: real, step: real, ascending: bool)
    requires StepFits(next, end, step, ascending) && Within(next, end, ascending)
    ensures 0 <= StepsLeft(next, end, step)
    ensures StepsLeft(next + step, end, step) == StepsLeft(next, end, step) - 1
  {
    var q := (end - next) / step;
    var q' := (end - (next + step)) / step;
    QuotientShift(end - next, step);
    assert q' == q - 1.0;
    assert (q - 1.0).Floor == q.Floor - 1;
    if ascending {
      assert end - next > 0.0 && step > 0.0;
    } else {
      assert end - next < 0.0 && step < 0.0;
    }
    PositiveQuotient(end - next, step);
  }

  lemma {:induction false} QuotientShift(a: real, b: real)
    requires b != 0.0
    ensures (a - b) / b == a / b - 1.0
  {
    var q := a / b;
    var q' := (a - b) / b;
    assert q * b == a;
    assert q' * b == a - b;
    assert (q - 1.0) * b == a - b;
    CancelFactor(q', q - 1.0, b);
  }

  lemma {:induction false} CancelFactor(x: real, y: real, b: real)
    requires b != 0.0 && x * b == y * b
    ensures x == y
  {
    assert (x - y) * b == 0.0;
  }

  lemma {:induction false} PositiveQuotient(a: real, b: real)
    requires (a > 0.0 && b > 0.0) || (a < 0.0 && b < 0.0)
    ensures a / b > 0.0
  {
    assert (a / b) * b == a;
  }

  /** The values the range loop appends, starting at `next`. */
  function RangeFrom(l: int, next: real, end: real, step: real, ascending: bool): seq<Expr>
    requires StepFits(next, end, step, ascending)
    decreases StepsLeft(next, end, step)
  {
    if Within(next, end, ascending) then
      StepsLeftDecreases(next, end, step, ascending);
      [Number(l, next)] + RangeFrom(l, next + step, end, step, ascending)
    else []
  }

  /** The k-th value counted from `next` in steps of `step`. */
  function NthStep(next: real, k: nat, step: real): real
  {
    next + k as real * step
  }

  /** The k-th value of a range is next + k * step and lies before the end. */
  lemma {:induction false} RangeFromAt(l: int, next: real, end: real, step: real, ascending: bool, k: nat)
    requires StepFits(next, end, step, ascending)
    requires k < |RangeFrom(l, next, end, step, ascending)|
    ensures RangeFrom(l, next, end, step, ascending)[k] == Number(l, NthStep(next, k, step))
    ensures Within(NthStep(next, k, step), end, ascending)
    decreases k
  {
    StepsLeftDecreases(next, end, step, ascending);
    if k > 0 {
      RangeFromAt(l, next + step, end, step, ascending, k - 1);
      assert NthStep(next + step, k - 1, step) == NthStep(next, k, step);
    }
  }

  /** One step past the last value of a range is no longer before the end. */
  lemma {:induction false} RangeFromStops(l: int, next: real, end: real, step: real, ascending: bool)
    requires StepFits(next, end, step, ascending)
    ensures !Within(NthStep(next, |RangeFrom(l, next, end, step, ascending)|, step), end, ascending)
    decreases StepsLeft(next, end, step)
  {
    if Within(next, end, ascending) {
      StepsLeftDecreases(next, end, step, ascending);
      RangeFromStops(l, next + step, end, step, ascending);
      var n := |RangeFrom(l, next + step, end, step, ascending)|;
      assert NthStep(next + step, n, step) == NthStep(next, n + 1, step);
    }
  }

  /** The range loop: validated arguments, then grow the values one step at a time. */
  method Range(l: int, args: seq<Expr>) returns (r: Outcome)
    ensures r == RangeBuiltin(l, args)
  {
    if |args| < 1 || |args| > 3 {
      return Fail(Language(l, IncorrectArgumentCount("1, 2, or 3", |args|)));
    }
    var start := if |args| == 1 then Number(l, 0.0) else args[0];
    var end := if |args| == 1 then args[0] else args[1];
    var step := if |args| == 3 then args[2] else Number(l, 1.0);
    assert RangeBuiltin(l, args) == RangeOf(l, start, end, step);
    if !start.Number? {
      return Fail(Language(l, ExpectedNumber("start", TypeName(start))));
    }
    if !end.Number? {
      return Fail(Language(l, ExpectedNumber("end", TypeName(end))));
    }
    if !step.Number? {
      return Fail(Language(l, ExpectedNumber("step", TypeName(step))));
    }
    if step.num == 0.0 {
      return Fail(Language(l, StepIsZero));
    }
    if start.num > end.num && step.num > 0.0 {
      return Fail(Language(l, StepMustBeNegative));
    } else if start.num < end.num && step.num < 0.0 {
      return Fail(Language(l, StepMustBePositive));
    }
    var values := RangeLoop(l, start.num, end.num, step.num, start.num < end.num);
    r := Ok(List(l, values));
  }

  /** The loop of range: from `start`, append the value and take a step while
      the value lies before the end. */
  method RangeLoop(l: int, start: real, end: real, step: real, ascending: bool) returns (values: seq<Expr>)
    requires StepFits(start, end, step, ascending)
    ensures values == RangeFrom(l, start, end, step, ascending)
  {
    values := [];
    var next := start;
    while Within(next, end, ascending)
      invariant StepFits(next, end, step, ascending)
      invariant values + RangeFrom(l, next, end, step, ascending) == RangeFrom(l, start, end, step, ascending)
      decreases StepsLeft(next, end, step)
    {
      StepsLeftDecreases(next, end, step, ascending);
      ghost var rest := RangeFrom(l, next + step, end, step, ascending);
      assert RangeFrom(l, next, end, step, ascending) == [Number(l, next)] + rest;
      assert values + ([Number(l, next)] + rest) == (values + [Number(l, next)]) + rest;
      values := values + [Number(l, next)];
      next := next + step;
    }
    assert values + [] == values;
  }

  // ---------------------------------------------------------------------------
  // The capability table and the default-reject property
  // ---------------------------------------------------------------------------

  datatype UnaryOp = AbsOp | NegOp | FacOp | IncOp | DecOp | NotOp | PackOp

  datatype BinaryOp = AndOp | OrOp | XorOp | InOp | GtOp | GeOp | LtOp | LeOp
                    | AddOp | SubOp | MulOp | DivOp | ModOp | PowOp | PtrOp | AtOp

  function ApplyUnary(op: UnaryOp, x: Expr): Outcome
  {
    match op
    case AbsOp => Abs(x)
    case NegOp => Neg(x)
    case FacOp => Fac(x)
    case IncOp => Inc(x)
    case DecOp => Dec(x)
    case NotOp => Not(x)
    case PackOp => Pack(x)
  }

  function ApplyBinary(op: BinaryOp, x: Expr, y: Expr, platform: string): Outcome
  {
    match op
    case AndOp => And(x, y)
    case OrOp => Or(x, y)
    case XorOp => Xor(x, y)
    case InOp => Contains(x, y)
    case GtOp => Gt(x, y)
    case GeOp => Ge(x, y)
    case LtOp => Lt(x, y)
    case LeOp => Le(x, y)
    case AddOp => Add(x, y)
    case SubOp => Sub(x, y)
    case MulOp => Mul(x, y)
    case DivOp => Div(x, y)
    case ModOp => Mod(x, y)
    case PowOp => Pow(x, y)
    case PtrOp => Ptr(x, y, platform)
    case AtOp => At(x, y)
  }

  /** What the default error of a unary capability says it attempted. */
  function UnaryName(op: UnaryOp): string
  {
    match op
    case AbsOp => "absolute value"
    case NegOp => "negation"
    case FacOp => "factorial"
    case IncOp => "increment"
    case DecOp => "decrement"
    case NotOp => "NOT"
    case PackOp => "PACK"
  }

  /** The operator token the default error of a binary capability names. */
  function BinaryName(op: BinaryOp): string
  {
    match op
    case AndOp => "AND"
    case OrOp => "OR"
    case XorOp => "XOR"
    case InOp => "IN"
    case GtOp => "GT"
    case GeOp => "GE"
    case LtOp => "LT"
    case LeOp => "LE"
    case AddOp => "PLUS"
    case SubOp => "MINUS"
    case MulOp => "MULTIPLY"
    case DivOp => "DIVIDE"
    case ModOp => "MOD"
    case PowOp => "PACK"
    case PtrOp => "SEND"
    case AtOp => "INDEX"
  }

  /** Which classes override which unary capability. */
  predicate OverridesUnary(typeName: string, op: UnaryOp)
  {
    match op
    case AbsOp => typeName == "Number"
    case NegOp => typeName == "Number" || typeName == "List"
    case FacOp => typeName == "Number"
    case IncOp => typeName == "Number"
    case DecOp => typeName == "Number"
    case NotOp => typeName == "Boolean"
    case PackOp => typeName == "List"
  }

  /** Which operand pairs a binary capability handles itself rather than
      falling back to the default rejection. */
  predicate Accepts(op: BinaryOp, x: Expr, y: Expr, platform: string)
  {
    var l, r := TypeName(x), TypeName(y);
    match op
    case AndOp => l == "Boolean" && r == "Boolean"
    case OrOp => l == "Boolean" && r == "Boolean"
    case XorOp => l == "Boolean" && r == "Boolean"
    case InOp => r == "List"
    case GtOp => l == "Number" && r == "Number"
    case GeOp => l == "Number" && r == "Number"
    case LtOp => l == "Number" && r == "Number"
    case LeOp => l == "Number" && r == "Number"
    case AddOp => (l == "Number" || l == "String" || l == "List") && r == l
    case SubOp => (l == "Number" || l == "List") && r == l
    case MulOp => l == "Number" && r == "Number"
    case DivOp => l == "Number" && r == "Number"
    case ModOp => l == "Number" && r == "Number"
    case PowOp => l == "Number" && r == "Number"
    case PtrOp => l == "List" || (l == "Function" && r == "List")
                  || (l == "BuiltinFunction" && (r == "List" || (x.builtin == "input" && platform == WebPlatform)))
    case AtOp => l == "List" && r == "Number"
  }

  /** A unary capability fails with the default error naming the operand's
      class exactly when that class does not override it. */
  lemma {:induction false} UnaryDefaultRejects(op: UnaryOp, x: Expr)
    ensures ApplyUnary(op, x) == RejectUnary(x, UnaryName(op)) <==> !OverridesUnary(TypeName(x), op)
  {
  }

  /** A binary capability fails with the default error naming both operand
      classes exactly when the pair is not one it handles. */
  lemma {:induction false} BinaryDefaultRejects(op: BinaryOp, x: Expr, y: Expr, platform: string)
    ensures ApplyBinary(op, x, y, platform) == RejectBinary(x, y, BinaryName(op)) <==> !Accepts(op, x, y, platform)
  {
    ClassNames(x);
    ClassNames(y);
    match op
    case PtrOp => SendDefaultRejects(x, y, platform);
    case _ =>
  }

  /** Each class name is held by exactly the nodes of that class. */
  lemma {:induction false} ClassNames(x: Expr)
    ensures (TypeName(x) == "Number") == x.Number?
    ensures (TypeName(x) == "String") == x.String?
    ensures (TypeName(x) == "Boolean") == x.Boolean?
    ensures (TypeName(x) == "List") == x.List?
    ensures (TypeName(x) == "Function") == x.Function?
    ensures (TypeName(x) == "BuiltinFunction") == x.BuiltinFunction?
  {
  }

  lemma {:induction false} SendDefaultRejects(x: Expr, y: Expr, platform: string)
    ensures Ptr(x, y, platform) == RejectBinary(x, y, "SEND") <==> !Accepts(PtrOp, x, y, platform)
  {
    if x.BuiltinFunction? && !y.List? && !(x.builtin == "input" && platform == WebPlatform) {
      assert !(x.builtin in UnsupportedPlatforms && platform in UnsupportedPlatforms[x.builtin]);
    }
  }

  /** String supports `add` and nothing else among the binary arithmetic and
      comparison capabilities. */
  lemma {:induction false} StringOnlyAdds(s: Expr, y: Expr, op: BinaryOp, platform: string)
    requires s.String? && op != AddOp && op != InOp
    ensures ApplyBinary(op, s, y, platform) == RejectBinary(s, y, BinaryName(op))
  {
    BinaryDefaultRejects(op, s, y, platform);
  }

  // ---------------------------------------------------------------------------
  // Properties of the capabilities
  // ---------------------------------------------------------------------------

  /** `ne` is the negation of `eq`; values of different classes are never
      equal; every value equals itself. */
  lemma {:induction false} EqNe(x: Expr, y: Expr)
    ensures Ne(x, y).Boolean? && Ne(x, y).truth == !Eq(x, y).truth && Ne(x, y).line == Eq(x, y).line
    ensures TypeName(x) != TypeName(y) ==> !Eq(x, y).truth && Ne(x, y).truth
    ensures Eq(x, x).truth && !Ne(x, x).truth
  {
    EqualReflexive(x);
  }

  /** Factorial of a Number: an error unless whole, 1 for 0 and 1, n! above 1,
      and (|n| + 1)! for negative n. */
  lemma {:induction false} FactorialRules(line: int, v: real)
    ensures !IsWhole(v) ==> Fac(Number(line, v)) == Fail(Language(line, FactorialNotWhole))
    ensures IsWhole(v) && (v == 0.0 || v == 1.0) ==> Fac(Number(line, v)) == Ok(Number(line, 1.0))
    ensures IsWhole(v) && v > 1.0 ==> Fac(Number(line, v)) == Ok(Number(line, Factorial(v.Floor) as real))
    ensures IsWhole(v) && v < 0.0 ==> Fac(Number(line, v)) == Ok(Number(line, Factorial(-v.Floor + 1) as real))
  {
    if IsWhole(v) {
      var n := v.Floor;
      if n > 1 {
        ProductIsFactorial(n);
      } else if n < 0 {
        ProductIsFactorial(-n + 1);
      }
    }
  }

  /** Division and modulo by zero raise the divide-by-zero error; otherwise
      two Numbers yield a Number on the left operand's line. */
  lemma {:induction false} DivisionRules(x: Expr, y: Expr)
    requires x.Number? && y.Number?
    ensures y.num == 0.0 ==> Div(x, y) == Fail(Language(x.line, DivideByZero)) && Mod(x, y) == Fail(Language(x.line, DivideByZero))
    ensures y.num != 0.0 ==> Div(x, y).Ok? && Div(x, y).value.Number? && Div(x, y).value.num * y.num == x.num
    ensures y.num != 0.0 ==> Mod(x, y).Ok? && Mod(x, y).value.Number? && Mod(x, y).value.line == x.line
  {
  }

  /** The List operations build new lists: `neg` reverses, `add`
      concatenates, `ptr` appends exactly one element, `pack` wraps. */
  lemma {:induction false} ListOperations(l: int, xs: seq<Expr>, y: Expr, ys: seq<Expr>, platform: string)
    ensures Neg(List(l, xs)).Ok? && |Neg(List(l, xs)).value.values| == |xs|
            && forall k :: 0 <= k < |xs| ==> Neg(List(l, xs)).value.values[k] == xs[|xs| - 1 - k]
    ensures Add(List(l, xs), List(l, ys)) == Ok(List(l, xs + ys))
    ensures var r := Ptr(List(l, xs), y, platform);
              r.Ok? && r.value.List? && |r.value.values| == |xs| + 1
              && r.value.values[..|xs|] == xs && r.value.values[|xs|] == y
    ensures Pack(List(l, xs)) == Ok(List(l, [List(l, xs)]))
  {
    ReverseLength(xs);
    forall k | 0 <= k < |xs| ensures Reverse(xs)[k] == xs[|xs| - 1 - k] {
      ReverseAt(xs, k);
    }
  }

  /** List.sub keeps exactly the left elements that equal no right element, in order. */
  lemma {:induction false} ListSubRemovesAll(l: int, xs: seq<Expr>, ys: seq<Expr>, v: Expr)
    ensures Sub(List(l, xs), List(l, ys)) == Ok(List(l, KeepUnmatched(xs, ys)))
    ensures v in KeepUnmatched(xs, ys) <==> v in xs && Unmatched(v, ys)
  {
    RemoveEachKeepsUnmatched(xs, ys);
    KeepUnmatchedMembers(xs, ys, v);
  }

  /** Indexing succeeds exactly for whole indices in [-len, len); a negative
      index counts from the end. */
  lemma {:induction false} ListIndexing(l: int, xs: seq<Expr>, il: int, i: int)
    ensures At(List(l, xs), Number(il, i as real)).Ok? <==> -|xs| <= i < |xs|
    ensures 0 <= i < |xs| ==> At(List(l, xs), Number(il, i as real)) == Ok(xs[i])
    ensures -|xs| <= i < 0 ==> At(List(l, xs), Number(il, i as real)) == Ok(xs[|xs| + i])
    ensures forall v :: !IsWhole(v) ==> At(List(l, xs), Number(il, v)) == Fail(Language(l, IndexNotWhole))
  {
    assert (i as real).Floor == i;
  }

  /** With one argument range counts from 0, and with fewer than three the step is 1. */
  lemma {:induction false} RangeDefaults(l: int, start: Expr, end: Expr)
    ensures RangeBuiltin(l, [end]) == RangeBuiltin(l, [Number(l, 0.0), end, Number(l, 1.0)])
    ensures RangeBuiltin(l, [start, end]) == RangeBuiltin(l, [start, end, Number(l, 1.0)])
  {
  }

  /** The validation errors of range with three Number arguments. */
  lemma {:induction false} RangeRejects(l: int, a: int, start: real, b: int, end: real, c: int, step: real)
    ensures var r := RangeBuiltin(l, [Number(a, start), Number(b, end), Number(c, step)]);
            && (step == 0.0 ==> r == Fail(Language(l, StepIsZero)))
            && (step != 0.0 && start > end && step > 0.0 ==> r == Fail(Language(l, StepMustBeNegative)))
            && (step != 0.0 && start < end && step < 0.0 ==> r == Fail(Language(l, StepMustBePositive)))
            && (step != 0.0 && start == end ==> r == Ok(List(l, [])))
            && (r.Fail? <==> step == 0.0 || (start > end && step > 0.0) || (start < end && step < 0.0))
  {
  }

  /** range(start, end, step) generates start, start + step, ... while the
      value lies before the end, and stops at the first that does not. */
  lemma {:induction false} RangeValues(l: int, a: int, start: real, b: int, end: real, c: int, step: real, k: nat)
    ensures var r := RangeBuiltin(l, [Number(a, start), Number(b, end), Number(c, step)]);
            && (r.Ok? ==> r.value.List? && !Within(NthStep(start, |r.value.values|, step), end, start < end))
            && (r.Ok? && k < |r.value.values| ==>
                  r.value.values[k] == Number(l, NthStep(start, k, step))
                  && Within(NthStep(start, k, step), end, start < end))
  {
    var args := [Number(a, start), Number(b, end), Number(c, step)];
    assert RangeBuiltin(l, args) == RangeOf(l, args[0], args[1], args[2]);
    if step != 0.0 && !(start > end && step > 0.0) && !(start < end && step < 0.0) {
      var values := RangeFrom(l, start, end, step, start < end);
      assert RangeOf(l, args[0], args[1], args[2]) == Ok(List(l, values));
      RangeFromStops(l, start, end, step, start < end);
      if k < |values| {
        RangeFromAt(l, start, end, step, start < end, k);
      }
    } else {
      assert RangeOf(l, args[0], args[1], args[2]).Fail?;
    }
  }

  /** `len` counts characters of a String and elements of a List. */
  lemma {:induction false} LenRules(l: int, x: Expr)
    ensures x.String? ==> LenBuiltin(l, [x]) == Ok(Number(l, |x.text| as real))
    ensures x.List? ==> LenBuiltin(l, [x]) == Ok(Number(l, |x.values| as real))
    ensures !x.String? && !x.List? ==> LenBuiltin(l, [x]) == Fail(Language(l, UnsupportedArgument(TypeName(x), "len")))
    ensures forall args: seq<Expr> :: |args| != 1 ==> LenBuiltin(l, args) == Fail(Language(l, ArgumentCount(|args|)))
  {
  }

  /** A random draw is requested only for validated bounds: whole for
      `randint`, and never an end below the start. */
  lemma {:induction false} RandomValidation(l: int, args: seq<Expr>, isFloat: bool)
    ensures var r := RandomBuiltin(l, args, isFloat);
      && (r.External? && r.request.RandomInt? ==> !isFloat && r.request.low <= r.request.high)
      && (r.External? && r.request.RandomFloat? ==> isFloat && r.request.lowReal <= r.request.highReal)
      && (!isFloat && |args| == 0 ==> r.Fail?)
      && (|args| > 2 ==> r.Fail?)
  {
  }

  /** `print` returns its arguments as a List on its own line. */
  lemma {:induction false} PrintReturnsArguments(l: int, name: string, args: seq<Expr>, platform: string)
    ensures CallBuiltin(BuiltinFunction(l, "print"), List(l, args), platform) == Ok(List(l, args))
  {
  }

  /** `neg` on a List, applied twice, gives the list back. */
  lemma {:induction false} ListNegInvolution(l: int, xs: seq<Expr>)
    ensures Neg(List(l, xs)).Ok? && Neg(Neg(List(l, xs)).value) == Ok(List(l, xs))
  {
    ReverseReverse(xs);
  }

  lemma {:induction false} ReverseReverse(xs: seq<Expr>)
    ensures Reverse(Reverse(xs)) == xs
  {
    ReverseLength(xs);
    ReverseLength(Reverse(xs));
    forall k | 0 <= k < |xs| ensures Reverse(Reverse(xs))[k] == xs[k] {
      ReverseAt(Reverse(xs), k);
      ReverseAt(xs, |xs| - 1 - k);
    }
  }

  /** The Number capabilities keep the left operand's line: `abs` is
      non-negative and equals the value or its negation, `neg` and the pair
      `inc`/`dec` undo themselves, the orderings mirror each other, and `-`
      undoes `+`. */
  lemma {:induction false} NumberCapabilities(l: int, a: real, m: int, b: real)
    ensures var x, y := Number(l, a), Number(m, b);
      && Abs(x).Ok? && Abs(x).value.line == l && Abs(x).value.num >= 0.0
      && (Abs(x).value.num == a || Abs(x).value.num == -a)
      && Neg(x).Ok? && Neg(Neg(x).value) == Ok(x)
      && Inc(x).Ok? && Dec(Inc(x).value) == Ok(x) && Dec(x).Ok? && Inc(Dec(x).value) == Ok(x)
      && Gt(x, y).Ok? && Lt(y, x).Ok? && Gt(x, y).value.truth == Lt(y, x).value.truth
      && Ge(x, y).Ok? && Le(y, x).Ok? && Ge(x, y).value.truth == Le(y, x).value.truth
      && Ge(x, y).value.truth == !Lt(x, y).value.truth && Le(x, y).Ok? && Le(x, y).value.truth == !Gt(x, y).value.truth
      && Add(x, y).Ok? && Sub(Add(x, y).value, y) == Ok(x)
      && Mul(x, y).Ok? && Mul(x, y).value == Number(l, a * b)
  {
  }

  /** The Boolean capabilities: `not` flips and undoes itself, `and`, `or`
      and `xor` on two Booleans are conjunction, disjunction and difference,
      and `not` turns `and` into `or` of the negations. */
  lemma {:induction false} BooleanCapabilities(l: int, p: bool, m: int, q: bool)
    ensures var x, y := Boolean(l, p), Boolean(m, q);
      && Not(x) == Ok(Boolean(l, !p)) && Not(Not(x).value) == Ok(x)
      && And(x, y) == Ok(Boolean(l, p && q))
      && Or(x, y) == Ok(Boolean(l, p || q))
      && Xor(x, y) == Ok(Boolean(l, p != q))
      && Not(And(x, y).value) == Or(Not(x).value, Not(y).value)
  {
  }

  /** `in` asks a List whether some element equals the left operand: every
      element is in its List, nothing is in an empty List, and the answer
      carries the left operand's line. */
  lemma {:induction false} ContainsMembers(x: Expr, l: int, ys: seq<Expr>)
    ensures Contains(x, List(l, ys)).Ok? && Contains(x, List(l, ys)).value.Boolean?
    ensures Contains(x, List(l, ys)).value.line == x.line
    ensures x in ys ==> Contains(x, List(l, ys)).value.truth
    ensures ys == [] ==> !Contains(x, List(l, ys)).value.truth
  {
    if x in ys {
      var i :| 0 <= i < |ys| && ys[i] == x;
      EqualReflexive(x);
      assert Equal(ys[i], x);
    }
  }

  /** `**` with a whole exponent: a natural power, its reciprocal for a
      negative exponent, and an error for zero to a negative power; a
      fractional exponent is the host's. */
  lemma {:induction false} PowRules(l: int, a: real, m: int, n: int, e: real)
    ensures n >= 0 ==> Pow(Number(l, a), Number(m, n as real)) == Ok(Number(l, RealPow(a, n)))
    ensures n < 0 && a != 0.0 ==>
              Pow(Number(l, a), Number(m, n as real)).Ok? &&
              Pow(Number(l, a), Number(m, n as real)).value.num * RealPow(a, -n) == 1.0
    ensures n < 0 && a == 0.0 ==> Pow(Number(l, a), Number(m, n as real)).Fail?
    ensures !IsWhole(e) ==> Pow(Number(l, a), Number(m, e)) == External(l, Power(a, e))
  {
    assert (n as real).Floor == n;
  }

  /** A rounding is asked of the host only for a Number and a whole,
      non-negative number of digits; every other call is an error. */
  lemma {:induction false} RoundValidation(l: int, args: seq<Expr>)
    ensures var r := RoundBuiltin(l, args);
      && !r.Ok?
      && (r.External? <==> |args| == 2 && args[0].Number? && args[1].Number? && IsWhole(args[1].num) && args[1].num >= 0.0)
      && (r.External? ==> r.request == Round(args[0].num, args[1].num.Floor))
      && (|args| != 2 ==> r == Fail(Language(l, IncorrectArgumentCount("2", |args|))))
  {
  }

  /** `input` reads a line only with one String prompt. */
  lemma {:induction false} InputValidation(l: int, args: seq<Expr>)
    ensures var r := InputBuiltin(l, args);
      && !r.Ok?
      && (r.External? <==> |args| == 1 && args[0].String?)
      && (r.External? ==> r.request == ReadLine(args[0].text))
      && (|args| != 1 ==> r == Fail(Language(l, ArgumentCount(|args|))))
  {
  }
}
