/**
 * Runtime values of evaluator/evaluator.py and the operator rules it applies
 * to them: the `valid_operation_types` and `compatible_types_for_operations`
 * tables, `get_type`, and the arithmetic, comparison and logical dispatch of
 * `evaluate_unary_expression` and `evaluate_binary_expression`.
 *
 * A value is one of the classes Integer, Float, Boolean, String and NoReturn
 * of the parser module that file imports; its `.value` is a Python object,
 * modelled by `PyValue` (Python floats as reals).
 */
module CompatValues {
  import T = Tokens

  datatype Value =
    | Integer(whole: int, line: int)
    | Float(num: real, line: int)
    | Boolean(truth: bool, line: int)
    | String(text: string, line: int)
    | NoReturn(line: int)

  /** A Python object held in a value's `.value`. */
  datatype PyValue = PyInt(i: int) | PyFloat(x: real) | PyBool(b: bool) | PyStr(s: string)

  datatype ValueType = IntegerType | FloatType | BooleanType | StringType | NoReturnType

  /** `.value`; a NoReturn is a token with empty text. */
  function PyValueOf(v: Value): PyValue
  {
    match v
    case Integer(i, _) => PyInt(i)
    case Float(x, _) => PyFloat(x)
    case Boolean(b, _) => PyBool(b)
    case String(s, _) => PyStr(s)
    case NoReturn(_) => PyStr("")
  }

  /** `type(value)`. */
  function TypeOf(v: Value): ValueType
  {
    match v
    case Integer(_, _) => IntegerType
    case Float(_, _) => FloatType
    case Boolean(_, _) => BooleanType
    case String(_, _) => StringType
    case NoReturn(_) => NoReturnType
  }

  /** `__name__` of a value class. */
  function TypeName(t: ValueType): string
  {
    match t
    case IntegerType => "Integer"
    case FloatType => "Float"
    case BooleanType => "Boolean"
    case StringType => "String"
    case NoReturnType => "NoReturn"
  }

  /** `get_type`: the value class for a Python result. */
  function GetType(p: PyValue): ValueType
  {
    if p.PyBool? then BooleanType
    else if p.PyFloat? then FloatType
    else if p.PyInt? then IntegerType
    else StringType
  }

  /** `get_type(result)(result, line)`. */
  function Rewrap(p: PyValue, line: int): (v: Value)
    ensures TypeOf(v) == GetType(p) && PyValueOf(v) == p && v.line == line
  {
    match p
    case PyBool(b) => Boolean(b, line)
    case PyFloat(x) => Float(x, line)
    case PyInt(i) => Integer(i, line)
    case PyStr(s) => String(s, line)
  }

  /** Rewrapping a value's own `.value` on its own line gives the value back. */
  lemma {:induction false} RewrapRoundTrip(v: Value)
    requires !v.NoReturn?
    ensures Rewrap(PyValueOf(v), v.line) == v
  {
  }

  // ---------------------------------------------------------------------------
  // The two tables
  // ---------------------------------------------------------------------------

  /** `valid_operation_types.get(op, [])`. */
  function ValidOperationTypes(k: T.Kind): set<ValueType>
  {
    match k
    case Plus => {IntegerType, StringType, FloatType}
    case Minus => {IntegerType, FloatType}
    case Multiply => {IntegerType, FloatType}
    case Divide => {IntegerType, FloatType}
    case Eq => {IntegerType, BooleanType, FloatType, StringType}
    case Ne => {IntegerType, BooleanType, FloatType, StringType}
    case Gt => {IntegerType, FloatType}
    case Ge => {IntegerType, FloatType}
    case Lt => {IntegerType, FloatType}
    case Le => {IntegerType, FloatType}
    case Bang => {BooleanType}
    case And => {BooleanType}
    case Or => {BooleanType}
    case _ => {}
  }

  /** `compatible_types_for_operations.get(type, [])`. */
  function CompatibleTypes(t: ValueType): set<ValueType>
  {
    match t
    case FloatType => {FloatType, IntegerType}
    case IntegerType => {IntegerType, FloatType}
    case StringType => {StringType}
    case BooleanType => {BooleanType}
    case NoReturnType => {}
  }

  predicate Numeric(t: ValueType)
  {
    t == IntegerType || t == FloatType
  }

  predicate Compatible(l: ValueType, r: ValueType)
  {
    l in CompatibleTypes(r) && r in CompatibleTypes(l)
  }

  /** Integers and floats mix; strings and booleans pair only with themselves;
      the relation is symmetric. */
  lemma {:induction false} CompatibilityRule(l: ValueType, r: ValueType)
    ensures Compatible(l, r) <==> (Numeric(l) && Numeric(r)) || (l == r && l in {StringType, BooleanType})
    ensures Compatible(l, r) <==> Compatible(r, l)
    ensures l in CompatibleTypes(r) <==> r in CompatibleTypes(l)
  {
  }

  /** Which operators each type admits: Booleans only equality and the
      logical operators, Strings only `+` and equality, numbers the arithmetic
      and comparison operators, NoReturn none. */
  lemma {:induction false} OperatorTypes(k: T.Kind)
    ensures BooleanType in ValidOperationTypes(k) <==> k in {T.Eq, T.Ne, T.Bang, T.And, T.Or}
    ensures StringType in ValidOperationTypes(k) <==> k in {T.Plus, T.Eq, T.Ne}
    ensures IntegerType in ValidOperationTypes(k) <==>
      k in {T.Plus, T.Minus, T.Multiply, T.Divide, T.Eq, T.Ne, T.Gt, T.Ge, T.Lt, T.Le}
    ensures FloatType in ValidOperationTypes(k) <==> IntegerType in ValidOperationTypes(k)
    ensures NoReturnType !in ValidOperationTypes(k)
  {
  }

  // ---------------------------------------------------------------------------
  // Python arithmetic on the values' contents
  // ---------------------------------------------------------------------------

  predicate IsNumber(p: PyValue)
  {
    p.PyInt? || p.PyFloat?
  }

  function AsReal(p: PyValue): real
    requires IsNumber(p)
  {
    if p.PyInt? then p.i as real else p.x
  }

  /** `a + b`: int with int stays int, any float makes a float, strings concatenate. */
  function PyAdd(a: PyValue, b: PyValue): (r: PyValue)
    requires (IsNumber(a) && IsNumber(b)) || (a.PyStr? && b.PyStr?)
    ensures IsNumber(a) ==> IsNumber(r) && AsReal(r) == AsReal(a) + AsReal(b)
    ensures a.PyStr? ==> r == PyStr(a.s + b.s)
  {
    if a.PyInt? && b.PyInt? then PyInt(a.i + b.i)
    else if a.PyStr? then PyStr(a.s + b.s)
    else PyFloat(AsReal(a) + AsReal(b))
  }

  function PySub(a: PyValue, b: PyValue): (r: PyValue)
    requires IsNumber(a) && IsNumber(b)
    ensures IsNumber(r) && AsReal(r) == AsReal(a) - AsReal(b)
  {
    if a.PyInt? && b.PyInt? then PyInt(a.i - b.i) else PyFloat(AsReal(a) - AsReal(b))
  }

  function PyMul(a: PyValue, b: PyValue): (r: PyValue)
    requires IsNumber(a) && IsNumber(b)
    ensures IsNumber(r) && AsReal(r) == AsReal(a) * AsReal(b)
  {
    if a.PyInt? && b.PyInt? then PyInt(a.i * b.i) else PyFloat(AsReal(a) * AsReal(b))
  }

  /** `a / b` is true division: always a float. */
  function PyDiv(a: PyValue, b: PyValue): (r: PyValue)
    requires IsNumber(a) && IsNumber(b) && AsReal(b) != 0.0
    ensures r.PyFloat? && r.x * AsReal(b) == AsReal(a)
  {
    PyFloat(AsReal(a) / AsReal(b))
  }

  function PyNeg(a: PyValue): (r: PyValue)
    requires IsNumber(a)
    ensures IsNumber(r) && AsReal(r) == -AsReal(a) && (r.PyInt? <==> a.PyInt?)
  {
    if a.PyInt? then PyInt(-a.i) else PyFloat(-a.x)
  }

  /** `a == b`: numbers compare by value across int and float. */
  function PyEq(a: PyValue, b: PyValue): (r: bool)
    ensures a == b ==> r
    ensures r ==> (IsNumber(a) <==> IsNumber(b))
  {
    if IsNumber(a) && IsNumber(b) then AsReal(a) == AsReal(b) else a == b
  }

  // ---------------------------------------------------------------------------
  // Operators
  // ---------------------------------------------------------------------------

  datatype Failure = Language(line: int, message: string) | Internal(message: string) | OutOfFuel

  datatype Attempt = Done(value: Value) | Raised(failure: Failure)

  /** The "Cannot perform" error of the binary checks. */
  function BinaryRefusal(op: T.Token, l: Value, r: Value): Attempt
  {
    Raised(Language(l.line, "Cannot perform " + T.KindName(op.kind) + " operation on "
                            + TypeName(TypeOf(l)) + " and " + TypeName(TypeOf(r))))
  }

  /** `evaluate_binary_expression` after both operands are validated. */
  function BinaryAt(op: T.Token, l: Value, r: Value): (res: Attempt)
    ensures res.Done? ==> Compatible(TypeOf(l), TypeOf(r))
    ensures res.Done? ==> TypeOf(l) in ValidOperationTypes(op.kind) && TypeOf(r) in ValidOperationTypes(op.kind)
    ensures res.Done? ==> res.value.line == l.line && !res.value.NoReturn?
    ensures res.Raised? && res.failure.Language? ==> res.failure.line == l.line
  {
    var lt, rt := TypeOf(l), TypeOf(r);
    if lt !in CompatibleTypes(rt) || rt !in CompatibleTypes(lt) then BinaryRefusal(op, l, r)
    else if lt !in ValidOperationTypes(op.kind) || rt !in ValidOperationTypes(op.kind) then BinaryRefusal(op, l, r)
    else BinaryDispatch(op, l, r)
  }

  /** The operator branches, reached once both checks have passed. */
  function BinaryDispatch(op: T.Token, l: Value, r: Value): (res: Attempt)
    requires Compatible(TypeOf(l), TypeOf(r))
    requires TypeOf(l) in ValidOperationTypes(op.kind) && TypeOf(r) in ValidOperationTypes(op.kind)
    ensures res.Done? ==> res.value.line == l.line && !res.value.NoReturn?
    ensures res.Raised? ==> res.failure.Internal?
  {
    var a, b := PyValueOf(l), PyValueOf(r);
    match op.kind
    case Plus => Done(Rewrap(PyAdd(a, b), l.line))
    case Minus => Done(Rewrap(PySub(a, b), l.line))
    case Multiply => Done(Rewrap(PyMul(a, b), l.line))
    case Divide =>
      if AsReal(b) == 0.0 then Raised(Internal("Division by zero")) else Done(Rewrap(PyDiv(a, b), l.line))
    case Eq => Done(Boolean(PyEq(a, b), l.line))
    case Ne => Done(Boolean(!PyEq(a, b), l.line))
    case Gt => Done(Boolean(AsReal(a) > AsReal(b), l.line))
    case Ge => Done(Boolean(AsReal(a) >= AsReal(b), l.line))
    case Lt => Done(Boolean(AsReal(a) < AsReal(b), l.line))
    case Le => Done(Boolean(AsReal(a) <= AsReal(b), l.line))
    case And => Done(Boolean(a.b && b.b, l.line))
    case Or => Done(Boolean(a.b || b.b, l.line))
    case _ => Raised(Internal("Invalid binary operator '" + op.value + "' at line " + T.IntToString(op.line)))
  }

  /** `evaluate_unary_expression` after its operand is validated. */
  function UnaryAt(op: T.Token, v: Value): (res: Attempt)
    ensures res.Done? ==> TypeOf(v) in ValidOperationTypes(op.kind)
    ensures res.Done? ==> TypeOf(res.value) == TypeOf(v) && res.value.line == v.line
    ensures res.Raised? && res.failure.Language? ==> res.failure.line == v.line && TypeOf(v) !in ValidOperationTypes(op.kind)
  {
    if TypeOf(v) !in ValidOperationTypes(op.kind) then
      Raised(Language(v.line, "Cannot perform " + T.KindName(op.kind) + " operation on " + TypeName(TypeOf(v))))
    else match op.kind
      case Plus => Done(Rewrap(PyValueOf(v), v.line))
      case Minus => Done(Rewrap(PyNeg(PyValueOf(v)), v.line))
      case Bang => Done(Rewrap(PyBool(!v.truth), v.line))
      case _ => Raised(Internal("Invalid unary operator: " + T.KindName(op.kind) + " (" + op.value + ")"))
  }

  // ---------------------------------------------------------------------------
  // Properties of the operators
  // ---------------------------------------------------------------------------

  /** Incompatible operand types, or a type the operator does not admit, give
      the "Cannot perform" error on the left operand's line. */
  lemma {:induction false} BinaryChecks(op: T.Token, l: Value, r: Value)
    ensures !Compatible(TypeOf(l), TypeOf(r)) ==> BinaryAt(op, l, r) == BinaryRefusal(op, l, r)
    ensures TypeOf(l) !in ValidOperationTypes(op.kind) || TypeOf(r) !in ValidOperationTypes(op.kind) ==>
      BinaryAt(op, l, r) == BinaryRefusal(op, l, r)
    ensures BinaryRefusal(op, l, r).failure.Language? && BinaryRefusal(op, l, r).failure.line == l.line
  {
  }

  /** The "Cannot perform" error comes exactly from the two checks: for a
      number with a boolean or a string under every operator, for two
      booleans under every operator but `==`, `!=`, `!`, `and` and `or` (a
      binary `!` passes both checks and is then an invalid operator), and
      for two strings under every operator but `+`, `==` and `!=`. */
  lemma {:induction false} RefusedOperands(op: T.Token, l: Value, r: Value)
    ensures BinaryAt(op, l, r) == BinaryRefusal(op, l, r) <==>
      !Compatible(TypeOf(l), TypeOf(r)) || TypeOf(l) !in ValidOperationTypes(op.kind) || TypeOf(r) !in ValidOperationTypes(op.kind)
    ensures Numeric(TypeOf(l)) && TypeOf(r) in {BooleanType, StringType} ==> BinaryAt(op, l, r) == BinaryRefusal(op, l, r)
    ensures TypeOf(l) == TypeOf(r) == BooleanType && op.kind !in {T.Eq, T.Ne, T.Bang, T.And, T.Or} ==> BinaryAt(op, l, r) == BinaryRefusal(op, l, r)
    ensures TypeOf(l) == TypeOf(r) == StringType && op.kind !in {T.Plus, T.Eq, T.Ne} ==> BinaryAt(op, l, r) == BinaryRefusal(op, l, r)
  {
  }

  /** `+ - *` on numbers: the result is rewrapped by `get_type` on the left
      operand's line, stays an Integer exactly when both operands are, and
      holds the sum, difference or product. */
  lemma {:induction false} ArithmeticResults(op: T.Token, l: Value, r: Value)
    requires Numeric(TypeOf(l)) && Numeric(TypeOf(r))
    requires op.kind in {T.Plus, T.Minus, T.Multiply}
    ensures BinaryAt(op, l, r).Done?
    ensures var v := BinaryAt(op, l, r).value;
      && v.line == l.line && IsNumber(PyValueOf(v))
      && (v.Integer? <==> l.Integer? && r.Integer?)
      && (v.Integer? || v.Float?)
      && AsReal(PyValueOf(v)) == Arith(op.kind, AsReal(PyValueOf(l)), AsReal(PyValueOf(r)))
  {
  }

  function Arith(k: T.Kind, a: real, b: real): real
  {
    if k == T.Plus then a + b else if k == T.Minus then a - b else a * b
  }

  /** `/` on numbers refuses a zero divisor with an internal error; otherwise it
      is true division, always a Float on the left operand's line. */
  lemma {:induction false} DivisionResults(op: T.Token, l: Value, r: Value)
    requires Numeric(TypeOf(l)) && Numeric(TypeOf(r)) && op.kind == T.Divide
    ensures AsReal(PyValueOf(r)) == 0.0 <==> BinaryAt(op, l, r) == Raised(Internal("Division by zero"))
    ensures AsReal(PyValueOf(r)) != 0.0 ==>
      && BinaryAt(op, l, r).Done? && BinaryAt(op, l, r).value.Float?
      && BinaryAt(op, l, r).value.line == l.line
      && BinaryAt(op, l, r).value.num * AsReal(PyValueOf(r)) == AsReal(PyValueOf(l))
  {
  }

  /** Strings support `+` (concatenation), `==` and `!=` only. */
  lemma {:induction false} StringOperators(op: T.Token, l: Value, r: Value)
    requires l.String? && r.String?
    ensures op.kind == T.Plus ==> BinaryAt(op, l, r) == Done(String(l.text + r.text, l.line))
    ensures op.kind == T.Eq ==> BinaryAt(op, l, r) == Done(Boolean(l.text == r.text, l.line))
    ensures op.kind !in {T.Plus, T.Eq, T.Ne} ==> BinaryAt(op, l, r) == BinaryRefusal(op, l, r)
  {
  }

  /** Comparisons and logical operators give a Boolean on the left operand's
      line, and `!=` is the negation of `==`. */
  lemma {:induction false} ComparisonResults(op: T.Token, l: Value, r: Value)
    requires op.kind in {T.Eq, T.Ne, T.Gt, T.Ge, T.Lt, T.Le, T.And, T.Or}
    requires BinaryAt(op, l, r).Done?
    ensures BinaryAt(op, l, r).value.Boolean? && BinaryAt(op, l, r).value.line == l.line
    ensures op.kind == T.Ne ==> BinaryAt(op, l, r).value.truth == !PyEq(PyValueOf(l), PyValueOf(r))
    ensures op.kind == T.And ==> l.Boolean? && r.Boolean? && BinaryAt(op, l, r).value.truth == (l.truth && r.truth)
    ensures op.kind == T.Or ==> l.Boolean? && r.Boolean? && BinaryAt(op, l, r).value.truth == (l.truth || r.truth)
  {
    BinaryPasses(op, l, r);
  }

  /** A binary operation that succeeds passed both checks and went to its branch. */
  lemma {:induction false} BinaryPasses(op: T.Token, l: Value, r: Value)
    requires BinaryAt(op, l, r).Done?
    ensures Compatible(TypeOf(l), TypeOf(r))
    ensures TypeOf(l) in ValidOperationTypes(op.kind) && TypeOf(r) in ValidOperationTypes(op.kind)
    ensures BinaryAt(op, l, r) == BinaryDispatch(op, l, r)
  {
  }

  /** `!=` answers the opposite of `==` whenever both are accepted. */
  lemma {:induction false} NeIsNotEq(eq: T.Token, ne: T.Token, l: Value, r: Value)
    requires eq.kind == T.Eq && ne.kind == T.Ne
    ensures BinaryAt(eq, l, r).Done? <==> BinaryAt(ne, l, r).Done?
    ensures BinaryAt(eq, l, r).Done? ==> BinaryAt(ne, l, r).value.truth == !BinaryAt(eq, l, r).value.truth
  {
    assert ValidOperationTypes(eq.kind) == ValidOperationTypes(ne.kind);
    if BinaryAt(eq, l, r).Done? {
      BinaryPasses(eq, l, r);
    }
    if BinaryAt(ne, l, r).Done? {
      BinaryPasses(ne, l, r);
    }
  }

  /** `!` applies only to Booleans and flips them; unary `-` only to numbers,
      negating them and keeping their class; unary `+` returns its operand. */
  lemma {:induction false} UnaryRules(op: T.Token, v: Value)
    ensures op.kind == T.Bang ==> (UnaryAt(op, v).Done? <==> v.Boolean?)
    ensures op.kind == T.Bang && v.Boolean? ==> UnaryAt(op, v) == Done(Boolean(!v.truth, v.line))
    ensures op.kind == T.Minus ==> (UnaryAt(op, v).Done? <==> v.Integer? || v.Float?)
    ensures op.kind == T.Minus && v.Integer? ==> UnaryAt(op, v) == Done(Integer(-v.whole, v.line))
    ensures op.kind == T.Minus && v.Float? ==> UnaryAt(op, v) == Done(Float(-v.num, v.line))
    ensures op.kind == T.Plus ==> (UnaryAt(op, v).Done? <==> v.Integer? || v.Float? || v.String?)
    ensures op.kind == T.Plus && UnaryAt(op, v).Done? ==> UnaryAt(op, v) == Done(v)
    ensures UnaryAt(op, v).Raised? && TypeOf(v) !in ValidOperationTypes(op.kind) ==>
      UnaryAt(op, v).failure == Language(v.line, "Cannot perform " + T.KindName(op.kind) + " operation on " + TypeName(TypeOf(v)))
  {
  }

  /** Negating twice gives the value back. */
  lemma {:induction false} NegationInvolution(op: T.Token, v: Value)
    requires op.kind == T.Minus && UnaryAt(op, v).Done?
    ensures UnaryAt(op, UnaryAt(op, v).value) == Done(v)
  {
  }

  // ---------------------------------------------------------------------------
  // Factorial
  // ---------------------------------------------------------------------------

  /** `value * (value - 1) * ... * 2`, the product over `range(value, 1, -1)`;
      1 when the range is empty. */
  function FallingProduct(n: int): (p: int)
    ensures p >= 1
    decreases n
  {
    if n <= 1 then 1 else n * FallingProduct(n - 1)
  }

  function Factorial(n: nat): nat
  {
    if n == 0 then 1 else n * Factorial(n - 1)
  }

  /** The product is n! for every n >= 0, and 1 for every n <= 1. */
  lemma {:induction false} FallingProductIsFactorial(n: int)
    ensures n >= 0 ==> FallingProduct(n) == Factorial(n)
    ensures n <= 1 ==> FallingProduct(n) == 1
    decreases if n < 0 then 0 else n
  {
    if n > 1 {
      FallingProductIsFactorial(n - 1);
    }
  }
}
