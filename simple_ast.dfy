/**
 * The expression nodes that interpreter/_parser/_parser.py builds and
 * interpreter/evaluator/evaluator.py evaluates. Their defining file,
 * interpreter/_parser/ast_objects.py, is not part of this model: the nodes
 * below carry exactly the attributes those two files read, and the
 * arithmetic dunder methods of that file are a parameter of the evaluator.
 */
module SimpleAst {
  import T = Tokens

  datatype Node =
    | Number(line: int, num: real)
    | String(line: int, text: string)
    | Boolean(line: int, truth: bool)
    | Identifier(line: int, name: string)
    | UnaryExpression(line: int, operator: T.Token, expression: Node)
    | BinaryExpression(line: int, left: Node, operator: T.Token, right: Node)
    | Assignment(line: int, variable: string, value: Node)
    | Error(line: int, message: string)

  /** Literal nodes, which evaluate to themselves. */
  predicate IsLiteral(n: Node)
  {
    n.Number? || n.String? || n.Boolean?
  }

  /** The node with its line number replaced, every other field kept. */
  function WithLine(n: Node, l: int): (r: Node)
    ensures r.line == l && TypeName(r) == TypeName(n)
  {
    n.(line := l)
  }

  /** The class name of a node, as error messages print it. */
  function TypeName(n: Node): string
  {
    match n
    case Number(_, _) => "Number"
    case String(_, _) => "String"
    case Boolean(_, _) => "Boolean"
    case Identifier(_, _) => "Identifier"
    case UnaryExpression(_, _, _) => "UnaryExpression"
    case BinaryExpression(_, _, _, _) => "BinaryExpression"
    case Assignment(_, _, _) => "Assignment"
    case Error(_, _) => "Error"
  }
}
