/**
 * The node classes of _parser/ast_objects.py, the tree the evaluator of
 * evaluator.py walks, and their `==`.
 *
 * Python picks the `__eq__` of the left operand's class. The classes that
 * define one compare structurally or by their token; `BuiltinFunction`'s
 * subclasses share one `__eq__` that ignores which subclass they are; the
 * classes without one inherit `object.__eq__`, which is identity. An object
 * of those classes carries an `id` here that stands for its identity: two
 * values with the same class and `id` are the same object.
 */
module LegacyAst {
  import T = Tokens

  /** The Python value a token carries: text from the tokenizer, or a number
      an evaluator computed. */
  datatype Datum = Text(text: string) | Whole(whole: int) | Fraction(num: real)

  function NumberOf(d: Datum): real
    requires !d.Text?
  {
    if d.Whole? then d.whole as real else d.num
  }

  /** Python `==` on those values: an int and a float compare by value, text
      only equals text. */
  predicate DatumEq(a: Datum, b: Datum)
  {
    if a.Text? || b.Text? then a == b else NumberOf(a) == NumberOf(b)
  }

  /** A token of the older tokenizer. Its type names are spelled as
      `T.KindName` prints them ("NUMBER", "EQ", ...). `NoReturn` is the token
      subclass whose value and type are both "". */
  datatype Token = Token(value: Datum, kind: T.Kind, line: int) | NoReturn(line: int)

  function ValueOf(t: Token): Datum
  {
    if t.NoReturn? then Text("") else t.value
  }

  function KindOf(t: Token): T.Kind
  {
    if t.NoReturn? then T.Other("") else t.kind
  }

  /** Token equality is structural. `NoReturn.__eq__` asks for another
      `NoReturn`; with a plain token on the left Python still calls it first,
      since `NoReturn` is a subclass overriding `__eq__`. */
  predicate TokenEq(a: Token, b: Token)
  {
    if a.NoReturn? || b.NoReturn? then
      a.NoReturn? && b.NoReturn? && ValueOf(a) == ValueOf(b) && KindOf(a) == KindOf(b) && a.line == b.line
    else DatumEq(a.value, b.value) && a.kind == b.kind && a.line == b.line
  }

  datatype Node =
    | ExpressionStatement(expr: Node)
    | Number(token: Token)
    | Float(token: Token)
    | Boolean(token: Token)
    | String(token: Token)
    | Identifier(token: Token)
    | Print(params: seq<Node>, line: int)
    | Type(params: seq<Node>, line: int)
    | Random(params: seq<Node>, line: int)
    | Dictionary(keys: seq<Node>, values: seq<Node>, line: int)
    | Index(left: Node, index: Node)
    | Return(id: nat, expr: Node)
    | Loop(id: nat, condition: Node, statements: seq<Node>)
    | AssignFunction(id: nat, name: Token, parameters: seq<Token>, statements: seq<Node>)
    | IfStatement(id: nat, comparison: Node, trueStatements: seq<Node>, falseStatements: T.Option<seq<Node>>)
    | FunctionCall(id: nat, name: Token, parameterValues: seq<Node>)
    | BinaryOperation(left: Node, op: Token, right: Node)
    | AssignVariable(id: nat, name: Token, value: Node)
    | UnaryOperation(id: nat, op: Token, expression: Node)

  function ClassName(n: Node): string
  {
    match n
    case ExpressionStatement(_) => "ExpressionStatement"
    case Number(_) => "Number"
    case Float(_) => "Float"
    case Boolean(_) => "Boolean"
    case String(_) => "String"
    case Identifier(_) => "Identifier"
    case Print(_, _) => "Print"
    case Type(_, _) => "Type"
    case Random(_, _) => "Random"
    case Dictionary(_, _, _) => "Dictionary"
    case Index(_, _) => "Index"
    case Return(_, _) => "Return"
    case Loop(_, _, _) => "Loop"
    case AssignFunction(_, _, _, _) => "AssignFunction"
    case IfStatement(_, _, _, _) => "IfStatement"
    case FunctionCall(_, _, _) => "FunctionCall"
    case BinaryOperation(_, _, _) => "BinaryOperation"
    case AssignVariable(_, _, _) => "AssignVariable"
    case UnaryOperation(_, _, _) => "UnaryOperation"
  }

  /** The subclasses of `Base`, which compare by class and token. */
  predicate IsBase(n: Node)
  {
    n.Number? || n.Float? || n.Boolean? || n.String? || n.Identifier?
  }

  /** The subclasses of `BuiltinFunction`. */
  predicate IsBuiltin(n: Node)
  {
    n.Print? || n.Type? || n.Random?
  }

  /** The classes without an `__eq__` of their own. */
  predicate ByIdentity(n: Node)
  {
    n.Return? || n.Loop? || n.AssignFunction? || n.IfStatement? || n.FunctionCall? || n.AssignVariable? || n.UnaryOperation?
  }

  /** `a == b`, by the `__eq__` of `a`'s class. */
  predicate Eq(a: Node, b: Node)
    decreases a
  {
    match a
    case ExpressionStatement(e) => b.ExpressionStatement? && Eq(e, b.expr)
    case Number(t) => b.Number? && TokenEq(t, b.token)
    case Float(t) => b.Float? && TokenEq(t, b.token)
    case Boolean(t) => b.Boolean? && TokenEq(t, b.token)
    case String(t) => b.String? && TokenEq(t, b.token)
    case Identifier(t) => b.Identifier? && TokenEq(t, b.token)
    case Print(ps, l) => IsBuiltin(b) && ListEq(ps, b.params) && l == b.line
    case Type(ps, l) => IsBuiltin(b) && ListEq(ps, b.params) && l == b.line
    case Random(ps, l) => IsBuiltin(b) && ListEq(ps, b.params) && l == b.line
    case Dictionary(ks, vs, _) => b.Dictionary? && ListEq(ks, b.keys) && ListEq(vs, b.values)
    case Index(l, x) => b.Index? && Eq(l, b.left) && Eq(x, b.index)
    case BinaryOperation(l, op, r) => b.BinaryOperation? && Eq(l, b.left) && TokenEq(op, b.op) && Eq(r, b.right)
    case Return(id, _) => b.Return? && b.id == id
    case Loop(id, _, _) => b.Loop? && b.id == id
    case AssignFunction(id, _, _, _) => b.AssignFunction? && b.id == id
    case IfStatement(id, _, _, _) => b.IfStatement? && b.id == id
    case FunctionCall(id, _, _) => b.FunctionCall? && b.id == id
    case AssignVariable(id, _, _) => b.AssignVariable? && b.id == id
    case UnaryOperation(id, _, _) => b.UnaryOperation? && b.id == id
  }

  /** List `==`: the same length and equal elements pairwise. */
  predicate ListEq(xs: seq<Node>, ys: seq<Node>)
    decreases xs
  {
    if xs == [] || ys == [] then xs == ys
    else Eq(xs[0], ys[0]) && ListEq(xs[1..], ys[1..])
  }

  // ---------------------------------------------------------------------------
  // Properties of `==`
  // ---------------------------------------------------------------------------

  lemma {:induction false} TokenEqIsEquivalence(a: Token, b: Token, c: Token)
    ensures TokenEq(a, a)
    ensures TokenEq(a, b) ==> TokenEq(b, a)
    ensures TokenEq(a, b) && TokenEq(b, c) ==> TokenEq(a, c)
  {
  }

  /** An int and a float token with the same number are equal. */
  lemma {:induction false} NumbersCompareByValue(n: int, kind: T.Kind, line: int)
    ensures TokenEq(Token(Whole(n), kind, line), Token(Fraction(n as real), kind, line))
    ensures !TokenEq(Token(Whole(n), kind, line), Token(Text(T.IntToString(n)), kind, line))
  {
  }

  /** A `NoReturn` equals exactly the `NoReturn`s on its line, and never a
      plain token, even one whose fields are the same. */
  lemma {:induction false} NoReturnEquality(line: int, t: Token)
    ensures TokenEq(NoReturn(line), t) <==> t == NoReturn(line)
    ensures TokenEq(t, NoReturn(line)) <==> t == NoReturn(line)
    ensures !TokenEq(Token(Text(""), T.Other(""), line), NoReturn(line))
  {
  }

  lemma {:induction false} EqReflexive(a: Node)
    ensures Eq(a, a)
    decreases a
  {
    match a
    case ExpressionStatement(e) => EqReflexive(e);
    case Print(ps, _) => ListEqReflexive(ps);
    case Type(ps, _) => ListEqReflexive(ps);
    case Random(ps, _) => ListEqReflexive(ps);
    case Dictionary(ks, vs, _) => ListEqReflexive(ks); ListEqReflexive(vs);
    case Index(l, x) => EqReflexive(l); EqReflexive(x);
    case BinaryOperation(l, _, r) => EqReflexive(l); EqReflexive(r);
    case _ =>
  }

  lemma {:induction false} ListEqReflexive(xs: seq<Node>)
    ensures ListEq(xs, xs)
    decreases xs
  {
    if xs != [] {
      EqReflexive(xs[0]);
      ListEqReflexive(xs[1..]);
    }
  }

  lemma {:induction false} EqSymmetric(a: Node, b: Node)
    requires Eq(a, b)
    ensures Eq(b, a)
    decreases a
  {
    match a
    case ExpressionStatement(e) => EqSymmetric(e, b.expr);
    case Print(ps, _) => ListEqSymmetric(ps, b.params);
    case Type(ps, _) => ListEqSymmetric(ps, b.params);
    case Random(ps, _) => ListEqSymmetric(ps, b.params);
    case Dictionary(ks, vs, _) => ListEqSymmetric(ks, b.keys); ListEqSymmetric(vs, b.values);
    case Index(l, x) => EqSymmetric(l, b.left); EqSymmetric(x, b.index);
    case BinaryOperation(l, _, r) => EqSymmetric(l, b.left); EqSymmetric(r, b.right);
    case _ =>
  }

  lemma {:induction false} ListEqSymmetric(xs: seq<Node>, ys: seq<Node>)
    requires ListEq(xs, ys)
    ensures ListEq(ys, xs)
    decreases xs
  {
    if xs != [] && ys != [] {
      EqSymmetric(xs[0], ys[0]);
      ListEqSymmetric(xs[1..], ys[1..]);
    }
  }

  lemma {:induction false} EqTransitive(a: Node, b: Node, c: Node)
    requires Eq(a, b) && Eq(b, c)
    ensures Eq(a, c)
    decreases a
  {
    match a
    case ExpressionStatement(e) => EqTransitive(e, b.expr, c.expr);
    case Print(ps, _) => ListEqTransitive(ps, b.params, c.params);
    case Type(ps, _) => ListEqTransitive(ps, b.params, c.params);
    case Random(ps, _) => ListEqTransitive(ps, b.params, c.params);
    case Dictionary(ks, vs, _) => ListEqTransitive(ks, b.keys, c.keys); ListEqTransitive(vs, b.values, c.values);
    case Index(l, x) => EqTransitive(l, b.left, c.left); EqTransitive(x, b.index, c.index);
    case BinaryOperation(l, _, r) => EqTransitive(l, b.left, c.left); EqTransitive(r, b.right, c.right);
    case _ =>
  }

  lemma {:induction false} ListEqTransitive(xs: seq<Node>, ys: seq<Node>, zs: seq<Node>)
    requires ListEq(xs, ys) && ListEq(ys, zs)
    ensures ListEq(xs, zs)
    decreases xs
  {
    if xs != [] && ys != [] && zs != [] {
      EqTransitive(xs[0], ys[0], zs[0]);
      ListEqTransitive(xs[1..], ys[1..], zs[1..]);
    }
  }

  /** Only the builtin calls cross classes: every other equal pair has one
      class. */
  lemma {:induction false} EqKeepsClass(a: Node, b: Node)
    requires Eq(a, b)
    ensures ClassName(a) == ClassName(b) || (IsBuiltin(a) && IsBuiltin(b))
  {
    match a
    case ExpressionStatement(_) => assert b.ExpressionStatement?;
    case Number(_) => assert b.Number?;
    case Float(_) => assert b.Float?;
    case Boolean(_) => assert b.Boolean?;
    case String(_) => assert b.String?;
    case Identifier(_) => assert b.Identifier?;
    case Print(_, _) => assert IsBuiltin(b);
    case Type(_, _) => assert IsBuiltin(b);
    case Random(_, _) => assert IsBuiltin(b);
    case Dictionary(_, _, _) => assert b.Dictionary?;
    case Index(_, _) => assert b.Index?;
    case BinaryOperation(_, _, _) => assert b.BinaryOperation?;
    case Return(_, _) => assert b.Return?;
    case Loop(_, _, _) => assert b.Loop?;
    case AssignFunction(_, _, _, _) => assert b.AssignFunction?;
    case IfStatement(_, _, _, _) => assert b.IfStatement?;
    case FunctionCall(_, _, _) => assert b.FunctionCall?;
    case AssignVariable(_, _, _) => assert b.AssignVariable?;
    case UnaryOperation(_, _, _) => assert b.UnaryOperation?;
  }

  /** `print`, `type` and `random` calls with the same arguments on the same
      line are equal; the line alone tells two such calls apart. */
  lemma {:induction false} BuiltinsIgnoreTheirClass(ps: seq<Node>, line: int, other: int)
    requires other != line
    ensures Eq(Print(ps, line), Type(ps, line)) && Eq(Type(ps, line), Random(ps, line)) && Eq(Random(ps, line), Print(ps, line))
    ensures !Eq(Print(ps, line), Print(ps, other))
  {
    ListEqReflexive(ps);
  }

  /** A dictionary's line plays no part in its equality. */
  lemma {:induction false} DictionaryIgnoresLine(ks: seq<Node>, vs: seq<Node>, l1: int, l2: int)
    ensures Eq(Dictionary(ks, vs, l1), Dictionary(ks, vs, l2))
  {
    ListEqReflexive(ks);
    ListEqReflexive(vs);
  }

  /** A node of a class without `__eq__` equals only itself: two objects
      built from the same fields are different. */
  lemma {:induction false} IdentityEquality(a: Node, b: Node)
    requires ByIdentity(a)
    ensures Eq(a, b) <==> ClassName(a) == ClassName(b) && a.id == b.id
    ensures Eq(a, b) ==> ByIdentity(b)
  {
  }
}
