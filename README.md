# Boomerang interpreter versions, modelled in Dafny

Boomerang is a small programming language. Its repository holds several
successive versions of the interpreter, and each version has rules of its
own: one evaluator demands operands of exactly the same token type, another
mixes integers and floats through a compatibility table, a third hands the
arithmetic to the nodes' own methods. This project models each version in
its own module and never merges them.

| module | file | models |
|---|---|---|
| `Tokens` | tokens.dfy | tokens as the parsers and evaluators receive them; Python's `float()` on a digit string and `str()` of an integer |
| `Values` | values.dfy | interpreter/parser_/ast_objects.py: the expression nodes, their `__eq__`, the capability protocol (`add`, `neg`, `at`, `ptr`, ...) with its default rejections, `Number.fac`, `is_whole_number`, and the builtins `len`, `range`, `print`, `random`, `round`, `input` |
| `PrecedenceParser` | precedence_parser.dfy | interpreter/parser_/parser_.py: the precedence table, `expression`, prefix and infix parsing, postfix `!`, grouped expressions and lists, function literals, `when`, assignments and statement lists |
| `SimpleAst`, `SimpleParser` | simple_ast.dfy, simple_parser.dfy | interpreter/_parser/_parser.py: the three-level parser and the nodes it builds |
| `SimpleEvaluator` | simple_evaluator.dfy | interpreter/evaluator/evaluator.py: `evaluate` with its error capture, statements, assignment, identifier lookup, unary and binary expressions |
| `CompatValues`, `CompatEvaluator` | compat_values.dfy, compat_evaluator.dfy | evaluator/evaluator.py: the `valid_operation_types` and `compatible_types_for_operations` tables, `get_type`, the operators, lookup, function definition and calls, `return`, `if`, loops, `print` and factorial |
| `LegacyAst` | legacy_ast.dfy | _parser/ast_objects.py: the node classes and their `==` |
| `TokenEvaluator` | token_evaluator.dfy | evaluator.py: the evaluator whose values are tokens |

How the model is shaped:

- **Parsers.** A program's tokens are a sequence ending in an end-of-file
  token, and the token queue's cursor is an index into it. Each parsing
  routine is written twice. A function `...At(toks, pos, ...)` returns the
  parsed node and the index after it, or the error. A method of the class
  `Parser` advances the cursor `pos` as the source does. Each method's
  postcondition says that it agrees with its function. The lemmas state
  precedence, associativity and error behaviour on the functions.
- **Evaluators.** The environment is a sequence of scopes, innermost first.
  Each evaluation step is a function from (environment, node) to a result,
  an error, or a `ReturnException` on its way up, together with the
  environment that step leaves. Class `Evaluator` holds `env` as a field.
  Its methods reassign `env` the way the source does: they push a scope for
  a call and restore it on every exit. Each method is proved to agree with
  its function.
- **Fuel.** The two evaluators with calls and loops take a fuel argument.
  Every step and every loop round spends one unit, and running out gives
  `OutOfFuel`.
- **Values.** Values are datatypes. Python floats are exact reals. Whole
  numbers are `int` where the source needs them: factorial, indices,
  `range`, and `int()`.
- **Host values.** Some results come from the host: a random draw, a line
  read from stdin, a rounding, a power with a fractional exponent. The
  model returns these as an `External` request naming what was asked for.

## Model

| member | source | states |
|---|---|---|
| Tokens.DecimalOfDigits | interpreter/parser_/parser_.py:156-159 | `float()` of a digit string is the natural number those digits denote |
| Tokens.DecimalOfPoint | interpreter/parser_/parser_.py:156-159 | `float(w + "." + f)` of digit strings is w + f / 10^len(f); a lone "." is not a number, nor is any text with a non-digit after the first "." (a second "." among them) |
| Tokens.NatToStringRoundTrip | evaluator.py:270-271 | reading back the digits `str()` writes gives the number |
| Tokens.DecimalValue | interpreter/parser_/parser_.py:156-159 | no contract of its own; `float()` of a NUMBER token's text, stated by Tokens.DecimalOfDigits and Tokens.DecimalOfPoint |
| Tokens.NatToString | evaluator.py:270-271 | `str()` of a natural is a non-empty string of decimal digits, which Tokens.NatToStringRoundTrip reads back |
| Values.EqualReflexive | interpreter/parser_/ast_objects.py:130-133 | every node equals itself under `__eq__` |
| Values.AllEqualReflexive | interpreter/parser_/ast_objects.py:305-308 | Python list equality of the same list holds |
| Values.EqualSymmetric | interpreter/parser_/ast_objects.py:130-133 | `a == b` implies `b == a` |
| Values.AllEqualSymmetric | interpreter/parser_/ast_objects.py:305-308 | list equality is symmetric |
| Values.WithLineEqual | interpreter/parser_/ast_objects.py:130-133 | equality ignores line numbers: a node re-stamped with another line equals the original |
| Values.DifferentClassesNeverEqual | interpreter/parser_/ast_objects.py:27-28 | equal nodes have the same class |
| Values.PyMod | interpreter/parser_/ast_objects.py:220-226 | Python's `%` of a real by a non-zero divisor: the result lies between 0 and the divisor, with the divisor's sign |
| Values.RealPow | interpreter/parser_/ast_objects.py:228-231 | `x ** n` for a natural n: a power of a non-zero number is non-zero |
| Values.RealPowAdd | interpreter/parser_/ast_objects.py:228-231 | powers with a natural exponent add their exponents: x^(m+n) = x^m * x^n |
| Values.ListSub | interpreter/parser_/ast_objects.py:327-334 | the loop over the right list returns exactly the left elements that equal no right element |
| Values.RangeFromAt | interpreter/parser_/ast_objects.py:577-645 | the k-th value of a range is start + k * step and lies before the end |
| Values.RangeFromStops | interpreter/parser_/ast_objects.py:577-645 | one step past the last value a range generates is no longer before the end |
| Values.Range | interpreter/parser_/ast_objects.py:577-645 | the `range` method returns what `RangeBuiltin` specifies: its validation errors, or a List of the generated values |
| Values.RangeLoop | interpreter/parser_/ast_objects.py:638-645 | the `while` loop appends start, start + step, ... while the value lies before the end |
| Values.UnaryDefaultRejects | interpreter/parser_/ast_objects.py:33-58 | a unary capability gives the default error naming the operand's class exactly when that class does not override it |
| Values.BinaryDefaultRejects | interpreter/parser_/ast_objects.py:60-119 | a binary capability gives the default error naming both classes exactly when the operand pair is not one it handles |
| Values.SendDefaultRejects | interpreter/parser_/ast_objects.py:471-493 | `ptr` rejects by default exactly when neither a List append nor a builtin call handles it, including `input` on the web platform |
| Values.StringOnlyAdds | interpreter/parser_/ast_objects.py:258-262 | a String rejects every binary capability except `add` and `in` |
| Values.EqNe | interpreter/parser_/ast_objects.py:27-31 | `ne` is the Boolean negation of `eq`; different classes are never equal; every value equals itself |
| Values.FactorialRules | interpreter/parser_/ast_objects.py:146-166 | a non-whole number is an error; 0 and 1 give 1; n > 1 gives n!; a negative n gives (\|n\| + 1)! |
| Values.DivisionRules | interpreter/parser_/ast_objects.py:212-226 | `div` and `mod` by zero give the divide-by-zero error; otherwise `div` gives the Number whose product with the divisor is the dividend, and `mod` a Number on the left operand's line |
| Values.ListOperations | interpreter/parser_/ast_objects.py:310-325 | `neg` reverses, `add` concatenates, `ptr` appends exactly one element, `pack` wraps in a singleton |
| Values.ListSubRemovesAll | interpreter/parser_/ast_objects.py:327-334 | `sub` keeps exactly the left elements that equal no right element, in order |
| Values.ListIndexing | interpreter/parser_/ast_objects.py:336-346 | `at` succeeds exactly for whole indices in [-len, len), and a negative index counts from the end |
| Values.RangeDefaults | interpreter/parser_/ast_objects.py:577-586 | with one argument `range` starts at 0; with fewer than three the step is 1 |
| Values.RangeRejects | interpreter/parser_/ast_objects.py:593-631 | with three Numbers, a step of 0 and a step whose sign disagrees with the direction from start to end are the only errors; start = end gives the empty List |
| Values.RangeValues | interpreter/parser_/ast_objects.py:633-645 | `range` generates start, start + step, ... while the value lies before the end, and stops at the first that does not |
| Values.LenRules | interpreter/parser_/ast_objects.py:512-522 | `len` counts the characters of a String and the elements of a List; another class of argument is an error naming it, and anything but one argument is an arity error |
| Values.RandomValidation | interpreter/parser_/ast_objects.py:528-575 | a random draw is requested only for validated bounds: whole for `randint`, and never an end below the start; `randint` with no arguments and any call with more than two are errors |
| Values.PrintReturnsArguments | interpreter/parser_/ast_objects.py:524-526 | `print` returns its arguments as a List |
| Values.ListNegInvolution | interpreter/parser_/ast_objects.py:310-312 | applying `neg` twice to a List gives the list back |
| Values.ReverseReverse | interpreter/parser_/ast_objects.py:310-312 | reversing twice gives the sequence back |
| Values.NumberCapabilities | interpreter/parser_/ast_objects.py:140-210 | `abs` is non-negative and equals ±x; `neg` undoes itself; `inc` and `dec` undo each other; `>` mirrors `<` and `>=` mirrors `<=`; `>=` is the negation of `<`; subtraction undoes addition; results keep the left operand's line |
| Values.BooleanCapabilities | interpreter/parser_/ast_objects.py:278-294 | `not` flips and undoes itself; `and`, `or` and `xor` are conjunction, disjunction and difference; De Morgan's law holds |
| Values.ContainsMembers | interpreter/parser_/ast_objects.py:60-65 | every element is `in` its List, nothing is `in` an empty List, and the answer carries the left operand's line |
| Values.PowRules | interpreter/parser_/ast_objects.py:228-231 | a whole exponent n ≥ 0 gives x to the n; a negative exponent gives the reciprocal; 0 to a negative power is an error; a fractional exponent is left to the host |
| Values.RoundValidation | interpreter/parser_/ast_objects.py:647-677 | `round` never computes a value itself: the host is asked to round only for a Number and a whole, non-negative digit count, and anything else is an error |
| Values.InputValidation | interpreter/parser_/ast_objects.py:495-510 | `input` asks the host to read a line only when given exactly one String prompt, and anything else is an error |
| Values.WithLine | interpreter/parser_/parser_.py:338-340 | the `copy` of a node re-stamped with another line carries the new line and keeps its class |
| Values.Equal | interpreter/parser_/ast_objects.py:130-133 | no contract of its own; the `__eq__` methods of every class (Number 130-133, String 253-256, Boolean 273-276, List 305-308, Function 358-361), stated by Values.EqualReflexive, Values.EqualSymmetric, Values.WithLineEqual and Values.DifferentClassesNeverEqual |
| Values.AllEqual | interpreter/parser_/ast_objects.py:305-308 | no contract of its own; Python list `==`, element by element, stated by Values.AllEqualReflexive and Values.AllEqualSymmetric |
| Values.ClassNames | interpreter/parser_/ast_objects.py:33-34 | the class name an error message prints, `type(self).__name__`, is held by exactly the nodes of that class |
| Values.ApplyUnary | interpreter/parser_/ast_objects.py:33-46 | no contract of its own; a unary capability dispatched to the operand's class, stated by Values.UnaryDefaultRejects and the per-class lemmas below |
| Values.ApplyBinary | interpreter/parser_/ast_objects.py:48-119 | no contract of its own; a binary capability dispatched to the left operand's class, stated by Values.BinaryDefaultRejects and Values.StringOnlyAdds |
| Values.RejectUnary | interpreter/parser_/ast_objects.py:33-46 | no contract of its own; the default `language_error` of a unary capability, stated by Values.UnaryDefaultRejects |
| Values.RejectBinary | interpreter/parser_/ast_objects.py:48-119 | no contract of its own; the default `language_error` of a binary capability, stated by Values.BinaryDefaultRejects, Values.SendDefaultRejects and Values.StringOnlyAdds |
| Values.IsWhole | interpreter/parser_/ast_objects.py:233-242 | no contract of its own; `value % 1 == 0`, stated through Values.FactorialRules, Values.ListIndexing, Values.PowRules and Values.RoundValidation |
| Values.Abs | interpreter/parser_/ast_objects.py:140-141 | no contract of its own; `Number.abs`, stated by Values.NumberCapabilities; other classes by Values.UnaryDefaultRejects |
| Values.Neg | interpreter/parser_/ast_objects.py:143-144 | no contract of its own; `Number.neg` and `List.neg` (310-312), stated by Values.NumberCapabilities, Values.ListOperations and Values.ListNegInvolution |
| Values.Fac | interpreter/parser_/ast_objects.py:146-166 | no contract of its own; `Number.fac`, stated by Values.FactorialRules |
| Values.NumberFactorial | interpreter/parser_/ast_objects.py:150-166 | no contract of its own; the factorial of a whole number, with the offset for negatives, stated by Values.FactorialRules |
| Values.ProductIsFactorial | interpreter/parser_/ast_objects.py:163-166 | the `reduce` product over 2..n is n! for every n ≥ 1 |
| Values.ProductSplitLast | interpreter/parser_/ast_objects.py:163-166 | the product over lo..hi is the product over lo..hi-1 times hi |
| Values.Inc | interpreter/parser_/ast_objects.py:168-169 | no contract of its own; `Number.inc`, stated by Values.NumberCapabilities |
| Values.Dec | interpreter/parser_/ast_objects.py:171-172 | no contract of its own; `Number.dec`, stated by Values.NumberCapabilities |
| Values.Not | interpreter/parser_/ast_objects.py:278-279 | no contract of its own; `Boolean.not_`, stated by Values.BooleanCapabilities |
| Values.Pack | interpreter/parser_/ast_objects.py:314-315 | no contract of its own; `List.pack`, stated by Values.ListOperations |
| Values.Reverse | interpreter/parser_/ast_objects.py:310-312 | no contract of its own; `list(reversed(values))`, stated by Values.ReverseAt, Values.ReverseLength and Values.ReverseReverse |
| Values.ReverseAt | interpreter/parser_/ast_objects.py:310-312 | element k of the reversal is element len - 1 - k of the list |
| Values.ReverseLength | interpreter/parser_/ast_objects.py:310-312 | reversing keeps the length |
| Values.Eq | interpreter/parser_/ast_objects.py:27-28 | no contract of its own; `eq`, stated by Values.EqNe |
| Values.Ne | interpreter/parser_/ast_objects.py:30-31 | no contract of its own; `ne`, stated by Values.EqNe |
| Values.And | interpreter/parser_/ast_objects.py:281-284 | no contract of its own; `Boolean.and_`, stated by Values.BooleanCapabilities |
| Values.Or | interpreter/parser_/ast_objects.py:286-289 | no contract of its own; `Boolean.or_`, stated by Values.BooleanCapabilities |
| Values.Xor | interpreter/parser_/ast_objects.py:291-294 | no contract of its own; `Boolean.xor`, stated by Values.BooleanCapabilities |
| Values.Contains | interpreter/parser_/ast_objects.py:60-65 | no contract of its own; `contains`, stated by Values.ContainsMembers and Values.BinaryDefaultRejects |
| Values.Gt | interpreter/parser_/ast_objects.py:174-177 | no contract of its own; `Number.gt`, stated by Values.NumberCapabilities |
| Values.Ge | interpreter/parser_/ast_objects.py:179-182 | no contract of its own; `Number.ge`, stated by Values.NumberCapabilities |
| Values.Lt | interpreter/parser_/ast_objects.py:184-187 | no contract of its own; `Number.lt`, stated by Values.NumberCapabilities |
| Values.Le | interpreter/parser_/ast_objects.py:189-192 | no contract of its own; `Number.le`, stated by Values.NumberCapabilities |
| Values.Add | interpreter/parser_/ast_objects.py:194-198 | no contract of its own; `add` of Numbers, Strings (258-262) and Lists (322-325), stated by Values.NumberCapabilities, Values.StringOnlyAdds and Values.ListOperations |
| Values.Sub | interpreter/parser_/ast_objects.py:200-204 | no contract of its own; `sub` of Numbers and Lists (327-334), stated by Values.NumberCapabilities and Values.ListSubRemovesAll |
| Values.Mul | interpreter/parser_/ast_objects.py:206-210 | no contract of its own; `Number.mul`, stated by Values.NumberCapabilities |
| Values.Div | interpreter/parser_/ast_objects.py:212-218 | no contract of its own; `Number.div`, stated by Values.DivisionRules |
| Values.Mod | interpreter/parser_/ast_objects.py:220-226 | no contract of its own; `Number.mod`, stated by Values.DivisionRules and Values.PyMod |
| Values.RemainderBounds | interpreter/parser_/ast_objects.py:224 | x - y * floor(x / y), Python's remainder, lies between 0 and the divisor, with the divisor's sign |
| Values.ScaledFraction | interpreter/parser_/ast_objects.py:224 | a fraction in [0, 1) scaled by y lies between 0 and y |
| Values.Pow | interpreter/parser_/ast_objects.py:228-231 | no contract of its own; `Number.pow`, stated by Values.PowRules |
| Values.Ptr | interpreter/parser_/ast_objects.py:317-320 | no contract of its own; `ptr`: a List appends, a Function (363-367) or builtin (471-493) is called, stated by Values.ListOperations and Values.SendDefaultRejects |
| Values.At | interpreter/parser_/ast_objects.py:336-346 | no contract of its own; `List.at`, stated by Values.ListIndexing |
| Values.FilterNe | interpreter/parser_/ast_objects.py:331 | the comprehension keeps a sub-list, never longer than its input; Values.FilterThenKeep relates it to the reference definition |
| Values.RemoveEach | interpreter/parser_/ast_objects.py:329-332 | no contract of its own; the `for` loop of `List.sub`, stated by Values.RemoveEachKeepsUnmatched |
| Values.KeepUnmatched | interpreter/parser_/ast_objects.py:327-334 | no contract of its own; the reference definition of `List.sub`, stated by Values.KeepUnmatchedMembers and Values.KeepAllWhenNothingToRemove |
| Values.FilterThenKeep | interpreter/parser_/ast_objects.py:331 | filtering out y, then keeping what equals none of ys, is keeping what equals none of [y] + ys |
| Values.RemoveEachKeepsUnmatched | interpreter/parser_/ast_objects.py:329-332 | the loop's result is the reference definition: the left elements that equal no right element |
| Values.KeepAllWhenNothingToRemove | interpreter/parser_/ast_objects.py:327-334 | with nothing to remove the list stays as it is |
| Values.KeepUnmatchedMembers | interpreter/parser_/ast_objects.py:327-334 | a value is kept exactly when it is in the left list and equals no right element |
| Values.CallBuiltin | interpreter/parser_/ast_objects.py:471-493 | no contract of its own; the builtin called by `ptr`, stated by Values.PrintReturnsArguments and the lemmas of each builtin |
| Values.InputBuiltin | interpreter/parser_/ast_objects.py:495-510 | no contract of its own; `input`, stated by Values.InputValidation |
| Values.LenBuiltin | interpreter/parser_/ast_objects.py:512-522 | no contract of its own; `len`, stated by Values.LenRules |
| Values.RandomBuiltin | interpreter/parser_/ast_objects.py:528-575 | no contract of its own; `random`, `randint` and `randfloat`, stated by Values.RandomValidation |
| Values.RoundBuiltin | interpreter/parser_/ast_objects.py:647-677 | no contract of its own; `round`, stated by Values.RoundValidation |
| Values.RangeBuiltin | interpreter/parser_/ast_objects.py:577-591 | no contract of its own; `range`'s argument defaults, stated by Values.RangeDefaults, Values.RangeRejects and Values.RangeValues |
| Values.RangeOf | interpreter/parser_/ast_objects.py:593-631 | no contract of its own; `range`'s checks of start, end and step, stated by Values.RangeRejects |
| Values.RangeFrom | interpreter/parser_/ast_objects.py:633-645 | no contract of its own; the values `range` generates, stated by Values.RangeFromAt, Values.RangeFromStops and Values.RangeValues |
| Values.StepsLeftDecreases | interpreter/parser_/ast_objects.py:638-645 | each round of the `while` loop lowers the number of steps left by one, so the loop ends |
| PrecedenceParser.Level | interpreter/parser_/parser_.py:84-91 | a precedence's level is its index in the precedences list plus one |
| PrecedenceParser.NextLevelAboveLowest | interpreter/parser_/parser_.py:93-100 | a token binds above LOWEST exactly when it is in the infix table, and such a token is never end-of-file; a token outside the table gets LOWEST |
| PrecedenceParser.ExpectAt | interpreter/parser_/parser_.py:349-351 | no error exactly when the current token has the expected kind; otherwise the unexpected-token error at that token |
| PrecedenceParser.ExpressionAt | interpreter/parser_/parser_.py:102-112 | a parsed expression consumes at least one token and stops at a token that does not bind tighter than the requested level |
| PrecedenceParser.InfixLoopAt | interpreter/parser_/parser_.py:109-112 | the infix loop stops at a token that does not bind tighter than the level; if it consumes nothing it returns the left operand |
| PrecedenceParser.InfixAt | interpreter/parser_/parser_.py:145-154 | `!` gives `Factorial(left)` and consumes no right operand; any other operator takes a right operand parsed at its own level |
| PrecedenceParser.PrefixAt | interpreter/parser_/parser_.py:114-143 | a parsed prefix expression consumes at least one token |
| PrecedenceParser.AssignAt | interpreter/parser_/parser_.py:211-224 | a parsed assignment starts with an identifier and `=`, carries that identifier's name and line, and its value is the LOWEST-level expression after the `=` |
| PrecedenceParser.GroupedAt | interpreter/parser_/parser_.py:180-200 | a parsed group consumes at least one token |
| PrecedenceParser.GroupTailAt | interpreter/parser_/parser_.py:189-200 | what follows a group's first element consumes at least one token |
| PrecedenceParser.ListRestAt | interpreter/parser_/parser_.py:226-247 | the result is a List on the given line that starts with the elements already read |
| PrecedenceParser.ListNextAt | interpreter/parser_/parser_.py:226-247 | after an element, the result is a List on the given line that starts with the elements already read |
| PrecedenceParser.FunctionAt | interpreter/parser_/parser_.py:249-285 | a function literal has Identifier parameters and the line of the `func` token |
| PrecedenceParser.FunctionBodyAt | interpreter/parser_/parser_.py:275-285 | once the parameters are read, the body follows a `:` and the function keeps those parameters |
| PrecedenceParser.ParamsAt | interpreter/parser_/parser_.py:255-274 | every parameter read is an Identifier, after the ones already read |
| PrecedenceParser.ParamsNextAt | interpreter/parser_/parser_.py:255-274 | after a parameter, the parameters already read stay first and every later one is an Identifier |
| PrecedenceParser.WhenAt | interpreter/parser_/parser_.py:287-344 | a `when` is on the line of its token and has at least one case before the last, which compares a re-stamped copy of the subject; with no subject the subject is `Boolean(true)` |
| PrecedenceParser.WhenBodyAt | interpreter/parser_/parser_.py:300-344 | once the subject is known, the result is a `when` of that subject on the given line, ending with the re-stamped subject |
| PrecedenceParser.WhenElseAt | interpreter/parser_/parser_.py:330-344 | adds exactly one case after those read, and it compares a copy of the subject stamped with the `else` line |
| PrecedenceParser.CaseAt | interpreter/parser_/parser_.py:305-329 | a parsed case consumes at least one token |
| PrecedenceParser.CaseBodyAt | interpreter/parser_/parser_.py:305-329 | a case after its `is` consumes at least one token |
| PrecedenceParser.CasesAt | interpreter/parser_/parser_.py:305-329 | reading cases adds at least one and stops on the `else` token |
| PrecedenceParser.StatementsAt | interpreter/parser_/parser_.py:60-71 | the statement loop stops on the end token and keeps the statements already read |
| PrecedenceParser.PrefixRules | interpreter/parser_/parser_.py:114-143 | a token without a prefix rule is an invalid-token error; a builtin name gives a BuiltinFunction and any other identifier an Identifier; `(` starts a group |
| PrecedenceParser.GroupedForms | interpreter/parser_/parser_.py:180-188 | `()` is the empty List, and a failing first element fails the group |
| PrecedenceParser.GroupedElement | interpreter/parser_/parser_.py:180-200 | once the first element parses, the group continues after it |
| PrecedenceParser.GroupTail | interpreter/parser_/parser_.py:189-200 | after the first element, `)` closes the group, `,` starts a list beginning with that element, and anything else is an error expecting `)` |
| PrecedenceParser.GroupedExpression | interpreter/parser_/parser_.py:180-200 | `(e)` is e, and any token after e other than `)` or `,` is an error expecting `)` |
| PrecedenceParser.GroupedList | interpreter/parser_/parser_.py:194-200 | `(e, ...` is a List whose first element is e |
| PrecedenceParser.StatementsNeedSemicolons | interpreter/parser_/parser_.py:60-71 | a statement not followed by a semicolon is an error expecting one |
| PrecedenceParser.ProgramEndsAtEof | interpreter/parser_/parser_.py:60-71 | an empty program parses to no statements, and a parsed program ends at end-of-file |
| PrecedenceParser.NumberPrefix | interpreter/parser_/parser_.py:156-159 | a number literal is a prefix expression on its own |
| PrecedenceParser.NumberOperand | interpreter/parser_/parser_.py:102-112 | a number is a whole operand when the next token binds no tighter than the level |
| PrecedenceParser.LoopEnds | interpreter/parser_/parser_.py:109-112 | the infix loop stops at a token that does not bind strictly tighter |
| PrecedenceParser.InfixRound | interpreter/parser_/parser_.py:145-154 | one loop round: the operator takes its right operand at its own level, and the loop continues with the combined expression |
| PrecedenceParser.OperandRound | interpreter/parser_/parser_.py:145-154 | one round whose right operand is a single number |
| PrecedenceParser.GroupsLeft | interpreter/parser_/parser_.py:102-112 | `a op1 b op2 c` is `(a op1 b) op2 c` when op1 binds at least as tightly: operators of one level associate to the left |
| PrecedenceParser.GroupsRight | interpreter/parser_/parser_.py:102-112 | `a op1 b op2 c` is `a op1 (b op2 c)` when op2 binds tighter: `1 + 2 * 2` nests the product under the sum |
| PrecedenceParser.AssignmentsNestRight | interpreter/parser_/parser_.py:211-224 | `x = y = c` is `x = (y = c)` |
| PrecedenceParser.BangIsPostfix | interpreter/parser_/parser_.py:150-151 | `a !` is `Factorial(a)` and consumes no right operand |
| PrecedenceParser.PrefixTakesWholeExpression | interpreter/parser_/parser_.py:174-178 | a prefix operator takes a whole LOWEST-level expression |
| PrecedenceParser.InfixPrecedence | interpreter/parser_/parser_.py:40-55 | no contract of its own; the `infix_precedence` table, stated by PrecedenceParser.NextLevelAboveLowest and the grouping lemmas |
| PrecedenceParser.PrecedenceOf | interpreter/parser_/parser_.py:153 | no contract of its own; `infix_precedence.get(kind, LOWEST)`, stated by PrecedenceParser.InfixRound |
| PrecedenceParser.NextLevel | interpreter/parser_/parser_.py:93-100 | no contract of its own; `get_next_precedence_level`, stated by PrecedenceParser.NextLevelAboveLowest |
| PrecedenceParser.ProgramOf | interpreter/parser_/parser_.py:57-58 | no contract of its own; `parse`, stated by PrecedenceParser.ProgramEndsAtEof and the contract of PrecedenceParser.Parser.Parse |
| PrecedenceParser.Parser.Advance | interpreter/parser_/parser_.py:73-74 | the cursor moves one token on |
| PrecedenceParser.Parser.IsExpectedToken | interpreter/parser_/parser_.py:349-351 | returns the error `ExpectAt` gives |
| PrecedenceParser.Parser.Parse | interpreter/parser_/parser_.py:60-71 | agrees with `ProgramOf`, the statements up to end-of-file |
| PrecedenceParser.Parser.ParseStatements | interpreter/parser_/parser_.py:60-71 | the statement loop agrees with `StatementsAt` in result and final cursor |
| PrecedenceParser.Parser.Expression | interpreter/parser_/parser_.py:102-112 | the infix loop agrees with `ExpressionAt` |
| PrecedenceParser.Parser.ParseInfix | interpreter/parser_/parser_.py:145-154 | agrees with `InfixAt` |
| PrecedenceParser.Parser.ParsePrefix | interpreter/parser_/parser_.py:114-143 | agrees with `PrefixAt` |
| PrecedenceParser.Parser.ParseAssign | interpreter/parser_/parser_.py:211-224 | agrees with `AssignAt` |
| PrecedenceParser.Parser.ParseGroupedExpression | interpreter/parser_/parser_.py:180-200 | agrees with `GroupedAt` |
| PrecedenceParser.Parser.ParseList | interpreter/parser_/parser_.py:226-247 | the element loop agrees with `ListRestAt` |
| PrecedenceParser.Parser.ParseFunction | interpreter/parser_/parser_.py:249-285 | agrees with `FunctionAt` |
| PrecedenceParser.Parser.FunctionBody | interpreter/parser_/parser_.py:275-285 | agrees with `FunctionBodyAt` |
| PrecedenceParser.Parser.ParseParameters | interpreter/parser_/parser_.py:255-274 | the parameter loop agrees with `ParamsAt` |
| PrecedenceParser.Parser.ParseWhen | interpreter/parser_/parser_.py:287-344 | agrees with `WhenAt` |
| PrecedenceParser.Parser.ParseWhenBody | interpreter/parser_/parser_.py:300-344 | agrees with `WhenBodyAt` |
| PrecedenceParser.Parser.ParseWhenElse | interpreter/parser_/parser_.py:330-344 | agrees with `WhenElseAt` |
| PrecedenceParser.Parser.ParseCases | interpreter/parser_/parser_.py:305-329 | the case loop agrees with `CasesAt` |
| PrecedenceParser.Parser.ParseCase | interpreter/parser_/parser_.py:305-329 | agrees with `CaseAt` |
| SimpleAst.WithLine | interpreter/evaluator/evaluator.py:84 | re-stamping keeps the node's class and sets its line |
| SimpleParser.Level | interpreter/_parser/_parser.py:70-77 | a precedence's level is its index plus one |
| SimpleParser.OnlyArithmeticIsInfix | interpreter/_parser/_parser.py:30-41 | only `+ -` (SUM) and `* /` (PRODUCT) bind above LOWEST |
| SimpleParser.ExpectAt | interpreter/_parser/_parser.py:167-176 | no error exactly when the current token's type is one of those accepted; otherwise the error names the expectation |
| SimpleParser.ExpectOneOrList | interpreter/_parser/_parser.py:171 | one expected type and the one-element list holding it accept the same tokens |
| SimpleParser.ExpressionAt | interpreter/_parser/_parser.py:88-98 | a parsed expression consumes at least one token and stops at a token that does not bind tighter |
| SimpleParser.InfixLoopAt | interpreter/_parser/_parser.py:95-96 | the loop stops at a token that does not bind strictly tighter |
| SimpleParser.InfixAt | interpreter/_parser/_parser.py:144-148 | always a binary expression, with the right operand parsed at the operator's own level |
| SimpleParser.PrefixAt | interpreter/_parser/_parser.py:100-142 | a parsed prefix expression consumes at least one token |
| SimpleParser.AssignAt | interpreter/_parser/_parser.py:150-162 | an assignment names the identifier and holds a LOWEST-level expression |
| SimpleParser.StatementsAt | interpreter/_parser/_parser.py:46-57 | the loop stops on the end token and keeps the statements already read |
| SimpleParser.InvalidPrefix | interpreter/_parser/_parser.py:142 | a token with no prefix rule is an "Invalid token" error |
| SimpleParser.Parenthesised | interpreter/_parser/_parser.py:111-117 | `(e)` is e, and e followed by anything but `)` is an "Expected CLOSED_PAREN" error |
| SimpleParser.StatementsNeedSemicolons | interpreter/_parser/_parser.py:46-57 | a statement not followed by a semicolon is an error expecting one |
| SimpleParser.NumberPrefix | interpreter/_parser/_parser.py:119-122 | a number literal is a prefix expression holding `float()` of its text |
| SimpleParser.LoopEnds | interpreter/_parser/_parser.py:95-96 | the infix loop stops at a token that does not bind strictly tighter |
| SimpleParser.InfixRound | interpreter/_parser/_parser.py:144-148 | one loop round: the operator takes its right operand at its own level |
| SimpleParser.OperandRound | interpreter/_parser/_parser.py:144-148 | one round whose right operand is a single number |
| SimpleParser.GroupsLeft | interpreter/_parser/_parser.py:88-98 | for all number operands and binary operators, `a op1 b op2 c` is `(a op1 b) op2 c` when op1 binds at least as tightly as op2: operators of one level associate to the left |
| SimpleParser.GroupsRight | interpreter/_parser/_parser.py:88-98 | for all number operands and binary operators, `a op1 b op2 c` is `a op1 (b op2 c)` when op2 binds tighter: the tighter second operator nests under the first |
| SimpleParser.PrefixTakesWholeExpression | interpreter/_parser/_parser.py:105-109 | for all number operands and binary operators, `+`/`- a op b` is the prefix operator applied to the whole `a op b`: its operand is a LOWEST-level expression |
| SimpleParser.PrecedenceOf | interpreter/_parser/_parser.py:36-41 | no contract of its own; `infix_precedence.get(kind, LOWEST)`, stated by SimpleParser.OnlyArithmeticIsInfix and SimpleParser.InfixRound |
| SimpleParser.NextLevel | interpreter/_parser/_parser.py:79-86 | no contract of its own; `get_next_precedence_level`, stated by SimpleParser.OnlyArithmeticIsInfix |
| SimpleParser.Accepted | interpreter/_parser/_parser.py:171 | no contract of its own; one expected type becomes a one-element list, stated by SimpleParser.ExpectOneOrList |
| SimpleParser.ProgramOf | interpreter/_parser/_parser.py:43-44 | no contract of its own; `parse`, stated by the contract of SimpleParser.Parser.Parse |
| SimpleParser.Parser.Advance | interpreter/_parser/_parser.py:59-60 | the cursor moves one token on |
| SimpleParser.Parser.IsExpectedToken | interpreter/_parser/_parser.py:167-176 | returns the error `ExpectAt` gives |
| SimpleParser.Parser.Parse | interpreter/_parser/_parser.py:43-44 | agrees with `ProgramOf`, the statements up to end-of-file |
| SimpleParser.Parser.ParseStatements | interpreter/_parser/_parser.py:46-57 | the loop agrees with `StatementsAt` |
| SimpleParser.Parser.Expression | interpreter/_parser/_parser.py:88-98 | the infix loop agrees with `ExpressionAt` |
| SimpleParser.Parser.ParseInfix | interpreter/_parser/_parser.py:144-148 | agrees with `InfixAt` |
| SimpleParser.Parser.ParsePrefix | interpreter/_parser/_parser.py:100-142 | agrees with `PrefixAt` |
| SimpleParser.Parser.Assign | interpreter/_parser/_parser.py:150-162 | agrees with `AssignAt` |
| SimpleEvaluator.ArithOpOf | interpreter/evaluator/evaluator.py:113-125 | exactly `+ - * /` have an arithmetic branch |
| SimpleEvaluator.LookupFirstHit | interpreter/evaluator/evaluator.py:77-86 | the innermost scope that binds the name decides |
| SimpleEvaluator.LookupMiss | interpreter/evaluator/evaluator.py:77-88 | a lookup misses exactly when no scope binds the name |
| SimpleEvaluator.LookupFound | interpreter/evaluator/evaluator.py:77-86 | a hit comes from a scope with no binding for the name inside it |
| SimpleEvaluator.EvalAt | interpreter/evaluator/evaluator.py:40-66 | evaluation adds or removes no scope and changes none but the innermost |
| SimpleEvaluator.PureLeavesEnvironment | interpreter/evaluator/evaluator.py:40-66 | only assignments change the environment |
| SimpleEvaluator.DispatchRules | interpreter/evaluator/evaluator.py:54-66 | literals evaluate to themselves; a node kind without a branch is an internal error; binary operators other than `+ - * /` are language errors at the operator's line |
| SimpleEvaluator.BinaryEvaluation | interpreter/evaluator/evaluator.py:106-123 | operands are evaluated left to right, and `+ - * /` go to the operands' arithmetic |
| SimpleEvaluator.IdentifierRules | interpreter/evaluator/evaluator.py:73-88 | the innermost binding, stamped with the reference's line, or "undefined variable" |
| SimpleEvaluator.AssignmentBinds | interpreter/evaluator/evaluator.py:68-71 | an assignment binds in the innermost scope, returns its value, and a later lookup finds it |
| SimpleEvaluator.AssignmentNeedsEnvironment | interpreter/evaluator/evaluator.py:17-21 | without an environment, an assignment is an internal error after its value has been evaluated |
| SimpleEvaluator.ChainedAssignment | interpreter/evaluator/evaluator.py:68-71 | `x = y = z = 2` binds all three names to 2 and evaluates to 2 |
| SimpleEvaluator.UnaryRules | interpreter/evaluator/evaluator.py:90-104 | unary `+` gives the absolute value and `-` the negation of a Number, on its line; any other operand is an internal error |
| SimpleEvaluator.UnaryInvolution | interpreter/evaluator/evaluator.py:90-104 | `- - e` gives the same Number as `e`, and `+ + e` the same as `+ e` |
| SimpleEvaluator.Statements | interpreter/evaluator/evaluator.py:29-38 | one result per statement, the first being the first statement's value |
| SimpleEvaluator.LoopComputesStatements | interpreter/evaluator/evaluator.py:29-38 | the accumulating loop computes the statements' results |
| SimpleEvaluator.ResultOfEachStatement | interpreter/evaluator/evaluator.py:29-38 | result i is statement i evaluated in the environment the earlier statements leave |
| SimpleEvaluator.EvaluateOf | interpreter/evaluator/evaluator.py:23-27 | language errors are caught, so `evaluate` fails only with an internal error |
| SimpleEvaluator.EvaluateOutcomes | interpreter/evaluator/evaluator.py:23-27 | `evaluate` gives one result per statement, the single Error node, or the internal error |
| SimpleEvaluator.UndefinedVariableEndsTheProgram | interpreter/evaluator/evaluator.py:23-37 | a variable no scope binds, after any statements that succeed, makes `evaluate` return the single Error node "undefined variable: x" on its line, whatever follows it |
| SimpleEvaluator.StatementsAppend | interpreter/evaluator/evaluator.py:29-37 | evaluating `a + b` is evaluating `a`, then `b` from the environment `a` left, with the results joined |
| SimpleEvaluator.Abs | interpreter/evaluator/evaluator.py:96 | no contract of its own; `abs` of a float, stated by SimpleEvaluator.UnaryRules |
| SimpleEvaluator.Lookup | interpreter/evaluator/evaluator.py:77-86 | no contract of its own; the scope walk, stated by SimpleEvaluator.LookupFirstHit, SimpleEvaluator.LookupMiss and SimpleEvaluator.LookupFound |
| SimpleEvaluator.IdentifierAt | interpreter/evaluator/evaluator.py:73-88 | leaves the environment alone; succeeds exactly when some scope binds the name, with a node of the bound node's class on the reference's line; otherwise the language error "undefined variable: name" |
| SimpleEvaluator.AssignAt | interpreter/evaluator/evaluator.py:68-71 | succeeds exactly when there is a scope: returns the value and binds it in the innermost scope, leaving the outer ones alone; with no scope, the internal error of `get_env` (17-21) and no change |
| SimpleEvaluator.UnaryAt | interpreter/evaluator/evaluator.py:90-104 | succeeds exactly for a Number under `+` or `-`: `+` gives a non-negative ±x, `-` gives -x, on the operand's line; anything else is an internal error; the environment is unchanged |
| SimpleEvaluator.BinaryAt | interpreter/evaluator/evaluator.py:106-125 | an operator other than `+ - * /` is the "Invalid binary operator" language error at the operator's line; otherwise the result is the operands' arithmetic, success or failure alike; the environment is unchanged |
| SimpleEvaluator.StatementsFrom | interpreter/evaluator/evaluator.py:29-38 | keeps the number of scopes; a success holds the results already collected followed by one result per statement |
| SimpleEvaluator.Evaluator.Evaluate | interpreter/evaluator/evaluator.py:23-27 | agrees with `EvaluateOf` |
| SimpleEvaluator.Evaluator.EvaluateStatements | interpreter/evaluator/evaluator.py:29-38 | the loop agrees with `Statements` |
| SimpleEvaluator.Evaluator.EvaluateExpression | interpreter/evaluator/evaluator.py:40-66 | agrees with `EvalAt` |
| SimpleEvaluator.Evaluator.EvaluateAssignVariable | interpreter/evaluator/evaluator.py:68-71 | agrees with `EvalAt` on the assignment |
| SimpleEvaluator.Evaluator.EvaluateIdentifier | interpreter/evaluator/evaluator.py:73-88 | the scope walk agrees with `EvalAt` on the identifier |
| SimpleEvaluator.Evaluator.EvaluateUnaryExpression | interpreter/evaluator/evaluator.py:90-104 | agrees with `EvalAt` on the unary expression |
| SimpleEvaluator.Evaluator.EvaluateBinaryExpression | interpreter/evaluator/evaluator.py:106-125 | agrees with `EvalAt` on the binary expression |
| CompatValues.Rewrap | evaluator/evaluator.py:415-423 | the rewrapped value has the class `get_type` picks for the Python value, holds that value, and carries the given line |
| CompatValues.RewrapRoundTrip | evaluator/evaluator.py:415-423 | rewrapping a value's own `.value` on its own line gives the value back |
| CompatValues.CompatibilityRule | evaluator/evaluator.py:36-41 | Integer and Float mix; String and Boolean pair only with themselves; the relation is symmetric |
| CompatValues.OperatorTypes | evaluator/evaluator.py:18-32 | which types each operator admits |
| CompatValues.PyAdd | evaluator/evaluator.py:368-371 | int plus int stays an int, a float makes a float, strings concatenate |
| CompatValues.PySub | evaluator/evaluator.py:372-375 | int minus int stays an int, and a float operand makes a float |
| CompatValues.PyMul | evaluator/evaluator.py:376-379 | int times int stays an int, and a float operand makes a float |
| CompatValues.PyDiv | evaluator/evaluator.py:380-385 | true division always gives a float |
| CompatValues.PyNeg | evaluator/evaluator.py:324-327 | negation keeps int and float |
| CompatValues.BinaryChecks | evaluator/evaluator.py:353-365 | incompatible types, or a type the operator does not admit, give "Cannot perform" on the left operand's line |
| CompatValues.RefusedOperands | evaluator/evaluator.py:343-365 | "Cannot perform" is given exactly when the types are incompatible or not admitted: a number with a boolean or a string under every operator, two booleans under all but `== != ! and or`, two strings under all but `+ == !=` |
| CompatValues.ArithmeticResults | evaluator/evaluator.py:367-379 | `+ - *` on numbers: rewrapped on the left's line, an Integer exactly when both are, holding the sum, difference or product |
| CompatValues.DivisionResults | evaluator/evaluator.py:380-385 | a zero divisor is an internal error; otherwise true division, always a Float on the left's line |
| CompatValues.StringOperators | evaluator/evaluator.py:18-32 | Strings support `+` as concatenation, `==` and `!=` only |
| CompatValues.ComparisonResults | evaluator/evaluator.py:387-411 | comparisons and logical operators give a Boolean on the left's line, and `!=` negates `==` |
| CompatValues.NeIsNotEq | evaluator/evaluator.py:388-393 | `!=` answers the opposite of `==` whenever either is accepted |
| CompatValues.UnaryRules | evaluator/evaluator.py:308-333 | `!` only on Booleans, which it flips; unary `-` only on numbers, keeping their class; unary `+` returns its operand |
| CompatValues.NegationInvolution | evaluator/evaluator.py:324-331 | negating twice gives the value back |
| CompatValues.FallingProduct | evaluator/evaluator.py:195-201 | n * (n-1) * ... * 2, and 1 for an empty range |
| CompatValues.FallingProductIsFactorial | evaluator/evaluator.py:195-201 | the product is n! for n ≥ 0 and 1 for n ≤ 1 |
| CompatValues.PyValueOf | evaluator/evaluator.py:369-411 | no contract of its own; a value's `.value`, stated by CompatValues.RewrapRoundTrip and the result lemmas |
| CompatValues.TypeOf | evaluator/evaluator.py:353-365 | no contract of its own; `type(value)`, stated by CompatValues.BinaryChecks, CompatValues.RefusedOperands and CompatValues.UnaryRules |
| CompatValues.GetType | evaluator/evaluator.py:415-423 | no contract of its own; `get_type`, stated by the contract of CompatValues.Rewrap and by CompatValues.RewrapRoundTrip |
| CompatValues.ValidOperationTypes | evaluator/evaluator.py:18-32 | no contract of its own; the `valid_operation_types` table, stated by CompatValues.OperatorTypes |
| CompatValues.CompatibleTypes | evaluator/evaluator.py:36-41 | no contract of its own; the `compatible_types` table, stated by CompatValues.CompatibilityRule |
| CompatValues.PyEq | evaluator/evaluator.py:388-393 | Python `==` of two `.value`s: equal values compare equal, and a number never equals a string or a boolean |
| CompatValues.BinaryAt | evaluator/evaluator.py:335-365 | a result exists only for compatible types the operator admits, carries the left operand's line and is never NoReturn; a language error is on the left operand's line |
| CompatValues.BinaryDispatch | evaluator/evaluator.py:367-413 | once the checks pass, a result is on the left operand's line and never NoReturn, and the only failure is an internal error |
| CompatValues.UnaryAt | evaluator/evaluator.py:308-333 | a result exists only for a type the operator admits, and keeps the operand's class and line; a language error is on the operand's line for a type not admitted |
| CompatValues.Arith | evaluator/evaluator.py:368-379 | no contract of its own; `+ - *` on the operands' numbers, stated by CompatValues.ArithmeticResults |
| CompatValues.BinaryPasses | evaluator/evaluator.py:353-365 | an operation that passes both checks is not refused |
| CompatEvaluator.LookupFirstHit | evaluator/evaluator.py:221-230 | the innermost binding scope decides the lookup |
| CompatEvaluator.LookupMiss | evaluator/evaluator.py:221-232 | a lookup misses exactly when no scope binds the name |
| CompatEvaluator.FindFunctionOutermost | evaluator/evaluator.py:237-243 | the outermost definition wins over inner definitions of the same name |
| CompatEvaluator.FindFunctionMiss | evaluator/evaluator.py:237-248 | no definition in any scope is a miss |
| CompatEvaluator.SetVar | evaluator/evaluator.py:208 | binds the name in the current scope and changes nothing else |
| CompatEvaluator.SetFunc | evaluator/evaluator.py:214 | defines the function in the current scope and changes nothing else |
| CompatEvaluator.EvalAt | evaluator/evaluator.py:77-141 | no evaluation adds or removes a scope or changes a scope but the innermost |
| CompatEvaluator.ValidateAt | evaluator/evaluator.py:71-75 | a validated result is never NoReturn |
| CompatEvaluator.Validated | evaluator/evaluator.py:71-75 | keeps the environment, never passes a NoReturn on, and passes every other result through |
| CompatEvaluator.IdentifierAt | evaluator/evaluator.py:217-232 | lookup changes no scope |
| CompatEvaluator.Discard | evaluator/evaluator.py:290-298 | a block's results are discarded while its success or failure is kept |
| CompatEvaluator.SetVariableAt | evaluator/evaluator.py:203-211 | only the innermost scope changes |
| CompatEvaluator.CallAt | evaluator/evaluator.py:234-283 | a call leaves the caller's scope chain as deep as it was, with only the innermost scope changed |
| CompatEvaluator.ArgsAt | evaluator/evaluator.py:261-263 | argument evaluation changes none but the innermost scope |
| CompatEvaluator.RunBody | evaluator/evaluator.py:266-283 | the body's scope is popped again: the caller's environment comes back unchanged |
| CompatEvaluator.StatementsAt | evaluator/evaluator.py:46-69 | one result per statement evaluated |
| CompatEvaluator.IdentifierRules | evaluator/evaluator.py:217-232 | the innermost binding, re-stamped with the reference's line, or "undefined variable" |
| CompatEvaluator.ValidateRejectsNoReturn | evaluator/evaluator.py:71-75 | a NoReturn becomes an error on its line; anything else passes through |
| CompatEvaluator.AssignmentRules | evaluator/evaluator.py:203-211 | assignment validates the value, binds it in the current scope and gives NoReturn on the value's line; a non-Identifier target is an error |
| CompatEvaluator.FactorialRules | evaluator/evaluator.py:189-201 | factorial needs an Integer n and gives n! (1 for n ≤ 1) on n's line |
| CompatEvaluator.IfRules | evaluator/evaluator.py:290-298 | the true block runs on the Boolean true, the false block (when present) otherwise; the statement is NoReturn and passes a return on |
| CompatEvaluator.LoopRules | evaluator/evaluator.py:285-288 | the loop stops once the condition is not the Boolean true, and otherwise runs the body and tests again |
| CompatEvaluator.ArgumentsBindParameters | evaluator/evaluator.py:261-267 | binding the arguments adds exactly the parameter names |
| CompatEvaluator.CallRules | evaluator/evaluator.py:234-283 | an undefined name or a wrong argument count is an error at the call's line; otherwise the arguments are evaluated in the caller's scopes and the body runs in one new scope |
| CompatEvaluator.BodyOutcomes | evaluator/evaluator.py:272-283 | finishing gives NoReturn on the call's line, a return gives its value re-stamped with that line, an error propagates, and the caller's scopes come back every time |
| CompatEvaluator.StatementsConcat | evaluator/evaluator.py:46-69 | evaluating `a + b` is evaluating `a`, then `b` from where `a` ended |
| CompatEvaluator.ReturnSkipsTheRest | evaluator/evaluator.py:54-64 | the statements after a `return` are not evaluated, and the validated value travels up |
| CompatEvaluator.EvaluateOutputs | evaluator/evaluator.py:66-69 | one result per statement, and no statements give NoReturn |
| CompatEvaluator.FactorialProduct | evaluator/evaluator.py:195-201 | the accumulator loop computes the falling product |
| CompatEvaluator.PassAgrees | evaluator/evaluator.py:271-283 | a method that ends by a `ReturnException` or an exception passes it on unchanged, as its step function's abort does |
| CompatEvaluator.Lookup | evaluator/evaluator.py:221-232 | no contract of its own; the scope walk, stated by CompatEvaluator.LookupFirstHit and CompatEvaluator.LookupMiss |
| CompatEvaluator.FindFunction | evaluator/evaluator.py:237-248 | no contract of its own; the walk over every scope, stated by CompatEvaluator.FindFunctionOutermost and CompatEvaluator.FindFunctionMiss |
| CompatEvaluator.EvaluateOf | evaluator/evaluator.py:43-44 | no contract of its own; `evaluate`, stated by CompatEvaluator.EvaluateOutputs |
| CompatEvaluator.BinaryAt | evaluator/evaluator.py:335-413 | a successful operation is never NoReturn; only the innermost scope can change; its checks and results are stated by CompatValues.BinaryChecks, CompatValues.ArithmeticResults and CompatValues.ComparisonResults |
| CompatEvaluator.UnaryAt | evaluator/evaluator.py:308-333 | a successful operation is never NoReturn; only the innermost scope can change; its cases are stated by CompatValues.UnaryRules |
| CompatEvaluator.IfAt | evaluator/evaluator.py:290-298 | only the innermost scope can change; the branch chosen is stated by CompatEvaluator.IfRules |
| CompatEvaluator.LoopAt | evaluator/evaluator.py:285-288 | only the innermost scope can change; the rounds are stated by CompatEvaluator.LoopRules |
| CompatEvaluator.PrintAt | evaluator/evaluator.py:300-306 | a successful `print` is NoReturn on its line; only the innermost scope can change |
| CompatEvaluator.FactorialAt | evaluator/evaluator.py:189-201 | only the innermost scope can change; its result is stated by CompatEvaluator.FactorialRules |
| CompatEvaluator.Evaluator.Evaluate | evaluator/evaluator.py:43-44 | agrees with evaluating the program's statements |
| CompatEvaluator.Evaluator.EvaluateStatements | evaluator/evaluator.py:46-69 | the statement loop agrees with `StatementsAt` |
| CompatEvaluator.Evaluator.ValidateExpression | evaluator/evaluator.py:71-75 | agrees with `Validated` of the evaluation |
| CompatEvaluator.Evaluator.EvaluateReturn | evaluator/evaluator.py:111-112 | agrees with `ValidateAt` on the returned expression |
| CompatEvaluator.Evaluator.EvaluateExpression | evaluator/evaluator.py:77-141 | agrees with `EvalAt` |
| CompatEvaluator.Evaluator.EvaluateCompound | evaluator/evaluator.py:77-109 | agrees with `EvalAt` on the node kinds handled by helpers |
| CompatEvaluator.Evaluator.EvaluateIdentifier | evaluator/evaluator.py:217-232 | the scope walk agrees with `IdentifierAt` |
| CompatEvaluator.Evaluator.EvaluateAssignFunction | evaluator/evaluator.py:213-215 | agrees with `EvalAt` on the definition |
| CompatEvaluator.Evaluator.EvaluateAssignVariable | evaluator/evaluator.py:203-211 | agrees with `SetVariableAt` |
| CompatEvaluator.Evaluator.EvaluateBinaryExpression | evaluator/evaluator.py:335-413 | agrees with `BinaryAt` |
| CompatEvaluator.Evaluator.EvaluateUnaryExpression | evaluator/evaluator.py:308-333 | agrees with `UnaryAt` |
| CompatEvaluator.Evaluator.EvaluateIfStatement | evaluator/evaluator.py:290-298 | agrees with `IfAt` |
| CompatEvaluator.Evaluator.EvaluateLoopStatement | evaluator/evaluator.py:285-288 | the while loop agrees with `LoopAt` |
| CompatEvaluator.Evaluator.EvaluatePrintStatement | evaluator/evaluator.py:300-306 | the parameter loop agrees with `PrintAt` |
| CompatEvaluator.Evaluator.EvaluateFactorial | evaluator/evaluator.py:189-201 | agrees with `FactorialAt` |
| CompatEvaluator.Evaluator.ResolveFunction | evaluator/evaluator.py:237-243 | the walk over every scope returns `FindFunction`, the outermost definition |
| CompatEvaluator.Evaluator.EvaluateFunctionCall | evaluator/evaluator.py:234-283 | agrees with `CallAt` |
| CompatEvaluator.Evaluator.BindArguments | evaluator/evaluator.py:261-263 | the `zip` loop agrees with `ArgsAt` |
| CompatEvaluator.Evaluator.CallBody | evaluator/evaluator.py:265-283 | pushes a scope, runs the body, pops the scope on every way out, and agrees with `RunBody` |
| LegacyAst.TokenEqIsEquivalence | _parser/ast_objects.py:128-135 | token equality is reflexive, symmetric and transitive |
| LegacyAst.NumbersCompareByValue | _parser/ast_objects.py:47-50 | an int and a float token with the same number are equal; a number is never equal to its text |
| LegacyAst.NoReturnEquality | _parser/ast_objects.py:128-135 | a NoReturn equals exactly the NoReturns on its line, and never a plain token with the same fields |
| LegacyAst.EqReflexive | _parser/ast_objects.py:33-214 | every node equals itself |
| LegacyAst.ListEqReflexive | _parser/ast_objects.py:63-66 | list equality of the same list holds |
| LegacyAst.EqSymmetric | _parser/ast_objects.py:33-214 | `a == b` implies `b == a` |
| LegacyAst.ListEqSymmetric | _parser/ast_objects.py:63-66 | list equality is symmetric |
| LegacyAst.EqTransitive | _parser/ast_objects.py:33-214 | `a == b` and `b == c` imply `a == c` |
| LegacyAst.ListEqTransitive | _parser/ast_objects.py:63-66 | list equality is transitive |
| LegacyAst.EqKeepsClass | _parser/ast_objects.py:47-50 | equal nodes have one class, except builtin calls, which cross classes |
| LegacyAst.BuiltinsIgnoreTheirClass | _parser/ast_objects.py:63-66 | `print`, `type` and `random` calls with the same arguments and line are equal; a different line tells them apart |
| LegacyAst.DictionaryIgnoresLine | _parser/ast_objects.py:119-122 | a dictionary's line plays no part in its equality |
| LegacyAst.IdentityEquality | _parser/ast_objects.py:152-234 | a node of a class without `__eq__` equals only itself |
| LegacyAst.DatumEq | _parser/ast_objects.py:47-50 | no contract of its own; Python `==` of two token values, stated by LegacyAst.NumbersCompareByValue |
| LegacyAst.TokenEq | _parser/ast_objects.py:128-135 | no contract of its own; token `__eq__`, stated by LegacyAst.TokenEqIsEquivalence, LegacyAst.NumbersCompareByValue and LegacyAst.NoReturnEquality |
| LegacyAst.Eq | _parser/ast_objects.py:33-214 | no contract of its own; node `__eq__`, stated by LegacyAst.EqReflexive, LegacyAst.EqSymmetric, LegacyAst.EqTransitive, LegacyAst.EqKeepsClass, LegacyAst.BuiltinsIgnoreTheirClass, LegacyAst.DictionaryIgnoresLine and LegacyAst.IdentityEquality |
| LegacyAst.ListEq | _parser/ast_objects.py:63-66 | no contract of its own; list `==` of nodes, stated by LegacyAst.ListEqReflexive, LegacyAst.ListEqSymmetric and LegacyAst.ListEqTransitive |
| LegacyAst.ByIdentity | _parser/ast_objects.py:152-234 | no contract of its own; the classes without `__eq__`, stated by LegacyAst.IdentityEquality |
| TokenEvaluator.Truncate | evaluator.py:270-271 | `int()` of a float truncates toward zero |
| TokenEvaluator.LiteralValue | evaluator.py:264-275 | a BOOLEAN token's value is whether its text is "true" |
| TokenEvaluator.LookupFirstHit | evaluator.py:277-287 | the innermost binding scope decides |
| TokenEvaluator.LookupMiss | evaluator.py:277-287 | `get_variable` misses exactly when no scope binds the name |
| TokenEvaluator.SetVar | evaluator.py:87 | binds in the current scope and changes nothing else |
| TokenEvaluator.EvalAt | evaluator.py:71-174 | no evaluation adds or removes a scope or changes any but the innermost; read as written, `Return` and `Type` always raise, and no `ReturnException` ever reaches a caller |
| TokenEvaluator.MissingAttribute | evaluator.py:157-172 | reading an attribute the node's class does not set is an error and changes no scope |
| TokenEvaluator.LeafAt | evaluator.py:90-97 | leaves change no scope |
| TokenEvaluator.IdentifierAt | evaluator.py:93-97 | lookup changes no scope |
| TokenEvaluator.ValidateAt | evaluator.py:65-69 | a validated result is never NoReturn |
| TokenEvaluator.Validated | evaluator.py:65-69 | keeps the environment, never passes a NoReturn on, and passes every other result through |
| TokenEvaluator.ConditionHolds | evaluator.py:80 | the condition's `.value` can be read exactly when it is a token |
| TokenEvaluator.CallAt | evaluator.py:99-142 | a call leaves the caller's scope chain as deep as it was, with only the innermost scope changed |
| TokenEvaluator.RunBody | evaluator.py:124-142 | the `finally` restores the caller's scope: the environment comes back unchanged |
| TokenEvaluator.StatementsFrom | evaluator.py:42-63 | one result per statement, after the results already collected |
| TokenEvaluator.OperatorTypes | evaluator.py:23-37 | arithmetic and ordering take NUMBER only, `==` and `!=` NUMBER or BOOLEAN, the logical operators BOOLEAN only |
| TokenEvaluator.BinaryChecks | evaluator.py:196-211 | a binary operation succeeds only on two tokens of one type that the operator accepts; different types are refused by name |
| TokenEvaluator.RefusedOperands | evaluator.py:176-211 | for every value and line: a number with a boolean under every operator, two booleans under arithmetic and ordering, two numbers under `! and or`, unary `+`/`-` of a boolean and `!` of a number give the "Cannot perform" messages |
| TokenEvaluator.IntConversion | evaluator.py:270-271 | `int()` reads back the digits `str()` writes, with either sign, truncates floats toward zero, and rejects the text "1.5" |
| TokenEvaluator.LiteralValueRules | evaluator.py:264-275 | NUMBER gives `int()` of its value, BOOLEAN whether its text is "true", and any other type is an error |
| TokenEvaluator.ArithmeticResults | evaluator.py:216-226 | on integer NUMBER tokens, `+ - *` compute the integer result and `/` the exact quotient or "Division by zero", on the left's line |
| TokenEvaluator.DigitsAreTheNumber | evaluator.py:270-271 | a NUMBER token holding tokenizer digits stands for that number |
| TokenEvaluator.DigitOperands | evaluator.py:213-214 | a NUMBER token from the tokenizer and one an operator computed behave the same as operands |
| TokenEvaluator.ComparisonResults | evaluator.py:228-252 | comparisons of numbers give BOOLEAN tokens reading "true" or "false" on the left's line; a logical operator refuses numbers |
| TokenEvaluator.BooleanResults | evaluator.py:229-260 | equality and the logical operators on booleans give BOOLEAN tokens; arithmetic and ordering refuse them |
| TokenEvaluator.NeIsNotEq | evaluator.py:229-236 | `!=` succeeds exactly when `==` does, with the opposite answer |
| TokenEvaluator.OrderValues | evaluator.py:237-252 | the ordering branches compare the integer values |
| TokenEvaluator.EqualityValues | evaluator.py:229-236 | `==` and `!=` compare the integer values |
| TokenEvaluator.UnarySignRules | evaluator.py:176-189 | unary `+` keeps and `-` negates a number on its line, and both refuse a boolean |
| TokenEvaluator.BangRules | evaluator.py:190-192 | `!` flips "true" and "false" on the operand's line and refuses a number |
| TokenEvaluator.UnaryWithoutBranch | evaluator.py:176-194 | only `+`, `-` and `!` can succeed; every other admitted operator (exactly the ten binary ones) fails on the operand's missing `op` attribute |
| TokenEvaluator.BangInvolution | evaluator.py:190-192 | `!!b` gives b's truth back |
| TokenEvaluator.IdentifierRules | evaluator.py:93-97 | the first binding along the chain, as stored, or "Undefined variable" |
| TokenEvaluator.ValidateRejectsNoReturn | evaluator.py:65-69 | a NoReturn is an error on its line; anything else passes through |
| TokenEvaluator.AssignmentRules | evaluator.py:86-88 | `let` validates the value and binds it in the current scope, where a later lookup finds it; the statement is NoReturn on the name's line |
| TokenEvaluator.IfRules | evaluator.py:78-84 | the block chosen by whether the condition reads "true" gives the result; a missing `else` gives NoReturn |
| TokenEvaluator.LoopRules | evaluator.py:144-147 | the loop stops once the condition is not "true", and otherwise runs the body and tests again |
| TokenEvaluator.TypeRules | evaluator.py:157-163 | read as intended: `type(x)` needs exactly one argument and gives a token naming x's type twice, on x's line |
| TokenEvaluator.ArgumentsBindParameters | evaluator.py:119-126 | binding the arguments adds exactly the parameter names |
| TokenEvaluator.CallRules | evaluator.py:99-142 | the callee must be bound to a function with as many parameters as arguments; the arguments are evaluated in the caller's scopes and the body runs in one new scope |
| TokenEvaluator.BodyOutcomes | evaluator.py:131-142 | finishing gives NoReturn on the call's line, a returned token comes back re-stamped with that line, an error propagates, and the caller's scopes come back every time |
| TokenEvaluator.StatementsConcat | evaluator.py:42-63 | evaluating `a + b` is evaluating `a`, then `b` from where `a` ended |
| TokenEvaluator.ReturnSkipsTheRest | evaluator.py:48-58 | read as intended: the statements after a `return` are not evaluated, and the validated value travels up as the `ReturnException` |
| TokenEvaluator.StatementsResults | evaluator.py:60-63 | one result per statement, and no statements give NoReturn |
| TokenEvaluator.AttributeErrorsAsWritten | evaluator.py:157-172 | as written, `return e` raises "'Return' object has no attribute 'expression'" and `type(...)` raises "'Type' object has no attribute 'value'", before any operand is evaluated |
| TokenEvaluator.CallsReturnNothingAsWritten | evaluator.py:131-139 | as written, a call that succeeds always gives NoReturn on the call's line: no function returns a value |
| TokenEvaluator.TypeExample | evaluator.py:157-163 | `type(1)` gives the NUMBER type token as intended, and AttributeError as written |
| TokenEvaluator.ReturnTrueBody | evaluator.py:42-58 | the body `return true;` raises the `ReturnException` carrying `true` as intended, and AttributeError as written |
| TokenEvaluator.FunctionReturnExample | evaluator.py:99-142 | calling `f()` whose body is `return true;` gives `true` on the call's line as intended, and AttributeError as written |
| TokenEvaluator.PassAgrees | evaluator.py:131-142 | a method that ends by a `ReturnException` or an exception passes it on unchanged, as its step function's abort does |
| TokenEvaluator.ValidTypes | evaluator.py:23-37 | no contract of its own; the operator table, stated by TokenEvaluator.OperatorTypes |
| TokenEvaluator.TypeAttr | evaluator.py:205 | `.type` can be read exactly when the result is a token |
| TokenEvaluator.ValueAttr | evaluator.py:80 | `.value` can be read exactly when the result is a token |
| TokenEvaluator.BinaryOn | evaluator.py:196-211 | no contract of its own; the checks on the validated operands, stated by TokenEvaluator.BinaryChecks, TokenEvaluator.RefusedOperands, TokenEvaluator.ArithmeticResults, TokenEvaluator.ComparisonResults, TokenEvaluator.BooleanResults and TokenEvaluator.NeIsNotEq |
| TokenEvaluator.BinaryTokens | evaluator.py:213-214 | no contract of its own; the operands' Python values, stated by TokenEvaluator.DigitOperands and the result lemmas |
| TokenEvaluator.BinaryValues | evaluator.py:216-262 | no contract of its own; the operator's branch, stated by TokenEvaluator.OrderValues, TokenEvaluator.EqualityValues and TokenEvaluator.ArithmeticResults |
| TokenEvaluator.UnaryOn | evaluator.py:176-194 | no contract of its own; the unary branches, stated by TokenEvaluator.UnarySignRules, TokenEvaluator.BangRules, TokenEvaluator.UnaryWithoutBranch and TokenEvaluator.BangInvolution |
| TokenEvaluator.ParseInt | evaluator.py:270-271 | no contract of its own; `int()` of a string, stated by TokenEvaluator.IntConversion |
| TokenEvaluator.IntOf | evaluator.py:270-271 | no contract of its own; `int()` of a token value, stated by TokenEvaluator.IntConversion and TokenEvaluator.LiteralValueRules |
| TokenEvaluator.Truthy | evaluator.py:253-260 | no contract of its own; the truth of a Python value under `and` and `or`, stated by TokenEvaluator.BooleanResults |
| TokenEvaluator.Lookup | evaluator.py:277-287 | no contract of its own; `get_variable`'s parent walk, stated by TokenEvaluator.LookupFirstHit and TokenEvaluator.LookupMiss |
| TokenEvaluator.Restamp | evaluator.py:136-139 | no contract of its own; the returned value given the call's line, stated by TokenEvaluator.BodyOutcomes |
| TokenEvaluator.Attributes | _parser/ast_objects.py:29-234 | no contract of its own; the attributes each class's constructor sets; the precondition of TokenEvaluator.MissingAttribute checks it, and TokenEvaluator.AttributeErrorsAsWritten uses it |
| TokenEvaluator.BinaryAt | evaluator.py:196-262 | a success is a plain token, never NoReturn; as written no `ReturnException` escapes; only the innermost scope can change |
| TokenEvaluator.UnaryAt | evaluator.py:176-194 | a success is a plain token, never NoReturn; as written no `ReturnException` escapes; only the innermost scope can change |
| TokenEvaluator.IfAt | evaluator.py:78-84 | as written no `ReturnException` escapes; only the innermost scope can change; the branch chosen is stated by TokenEvaluator.IfRules |
| TokenEvaluator.AssignAt | evaluator.py:86-88 | a success is NoReturn on the name's line, and the innermost scope then binds the name to a value that is not NoReturn; as written no `ReturnException` escapes; only the innermost scope can change |
| TokenEvaluator.ArgsAt | evaluator.py:119-122 | as written no `ReturnException` escapes; only the innermost scope can change; the binding is stated by TokenEvaluator.ArgumentsBindParameters |
| TokenEvaluator.LoopAt | evaluator.py:144-147 | as written no `ReturnException` escapes; only the innermost scope can change; the rounds are stated by TokenEvaluator.LoopRules |
| TokenEvaluator.PrintAt | evaluator.py:149-155 | a successful `print` is NoReturn on its line; as written no `ReturnException` escapes; only the innermost scope can change |
| TokenEvaluator.TypeAt | evaluator.py:157-163 | read as intended; as written no `ReturnException` escapes; only the innermost scope can change; its result is stated by TokenEvaluator.TypeRules |
| TokenEvaluator.StatementsAt | evaluator.py:42-63 | as written no `ReturnException` escapes; only the innermost scope can change; its results are stated by TokenEvaluator.StatementsResults, and the loop it runs by TokenEvaluator.StatementsConcat |
| TokenEvaluator.Evaluator.Evaluate | evaluator.py:39-40 | agrees with evaluating the program's statements |
| TokenEvaluator.Evaluator.EvaluateStatements | evaluator.py:42-63 | the statement loop agrees with `StatementsAt` |
| TokenEvaluator.Evaluator.ValidateExpression | evaluator.py:65-69 | agrees with `Validated` of the evaluation |
| TokenEvaluator.Evaluator.EvaluateReturn | evaluator.py:171-172 | agrees with `ValidateAt` on the returned expression, read as intended (the `expr` attribute) |
| TokenEvaluator.Evaluator.EvaluateExpression | evaluator.py:71-174 | agrees with `EvalAt` |
| TokenEvaluator.Evaluator.EvaluateCompound | evaluator.py:71-172 | agrees with `EvalAt` on the nodes that evaluate other nodes |
| TokenEvaluator.Evaluator.EvaluateLeaf | evaluator.py:90-174 | agrees with `LeafAt` and changes no scope |
| TokenEvaluator.Evaluator.GetVariable | evaluator.py:277-287 | the parent walk returns `Lookup`, the innermost binding or none |
| TokenEvaluator.Evaluator.EvaluateIdentifier | evaluator.py:93-97 | agrees with `IdentifierAt` |
| TokenEvaluator.Evaluator.EvaluateBinaryExpression | evaluator.py:196-262 | agrees with `BinaryAt` |
| TokenEvaluator.Evaluator.EvaluateUnaryExpression | evaluator.py:176-194 | agrees with `UnaryAt` |
| TokenEvaluator.Evaluator.EvaluateIfStatement | evaluator.py:78-84 | agrees with `IfAt` |
| TokenEvaluator.Evaluator.EvaluateAssignVariable | evaluator.py:86-88 | agrees with `AssignAt` |
| TokenEvaluator.Evaluator.EvaluateFunctionCall | evaluator.py:99-142 | agrees with `CallAt` |
| TokenEvaluator.Evaluator.BindArguments | evaluator.py:119-122 | the `zip` loop agrees with `ArgsAt` |
| TokenEvaluator.Evaluator.CallBody | evaluator.py:124-142 | pushes a scope, runs the body, restores the caller's scope on every way out, and agrees with `RunBody` |
| TokenEvaluator.Evaluator.EvaluateLoop | evaluator.py:144-147 | the while loop agrees with `LoopAt` |
| TokenEvaluator.Evaluator.EvaluatePrint | evaluator.py:149-155 | the parameter loop agrees with `PrintAt` |
| TokenEvaluator.Evaluator.EvaluateType | evaluator.py:157-163 | agrees with `TypeAt`, read as intended (the `params` attribute) |

## Left out

- Output and input. The text `print` writes is not modelled; only its
  return value is. `input` reads no stdin: it is an `External` request.
  `random`, `randint` and `randfloat` draw nothing, and evaluator/evaluator.py's
  `Random` node is an unsupported kind. `round` and a power with a
  fractional exponent are `External` requests too. Only the argument
  validation of these builtins is modelled.
- Floating point. Python floats are exact reals. Rounding, the `repr` of
  floats, and the overflow note in `is_whole_number`
  (interpreter/parser_/ast_objects.py:233-242) are not modelled.
- `int()` of a string accepts only an optional sign followed by digits; the
  surrounding whitespace and the underscores Python also accepts are left
  out. `float()` of a token accepts only digits with at most one `.`.
- Aliasing. Identifier lookup in interpreter/evaluator/evaluator.py and
  evaluator/evaluator.py, and a call's return in evaluator/evaluator.py and
  evaluator.py, re-stamp `line_num` on the stored object itself. The model
  returns a re-stamped copy, so it does not capture that the binding in the
  scope is changed too. `copy.deepcopy` of results is the identity on values.
- Unbounded recursion and loops. In CompatEvaluator and TokenEvaluator a
  run that exhausts its fuel ends in `OutOfFuel`, which the source does not
  have: the source would recurse or loop without bound.
- Modules that are not part of this model: the Tokenizer, TokenQueue,
  Environment and Token classes, and interpreter/_parser/ast_objects.py.
  Tokens are an input sequence ending in end-of-file. An environment is a
  sequence of scopes. SimpleEvaluator takes the nodes' `+ - * /` methods,
  which are defined in that unseen file, as a parameter.
- Token type names in error messages come from the tokens module, which is
  not part of this model. The model prints each type in upper case after
  the constant the parsers use, and prints the `<-` operator as ARROW.
- The platform read from `os.environ` in `BuiltinFunction.ptr` is a
  parameter.
- Python dictionary keys equal under `==` (such as 2 and 2.0) are not
  identified with each other.
- evaluator/evaluator.py: `evaluate_tree` and `evaluate_add_node` depend on
  Tree and Node types that are not part of this model. `evaluate_to_string`
  relies on Python's type conversions. These three are unsupported node
  kinds here.
- flask_app/app.py, ast_visualizer.py and main.py are I/O glue and are not
  modelled.
- TokenEvaluator.EvalAt: the properties and the `Evaluator` object use the
  `Intended` reading, where evaluator.py:158, 162 and 172 read `value` and
  `expression`, which `Type` and `Return` do not have. Read as written, every
  `return` and every `type(...)` raises AttributeError (see Findings).
- TokenEvaluator.TypeAt: models evaluator.py:157-163 read as intended, on the
  `params` attribute; as written the branch raises AttributeError.
- TokenEvaluator.TypeRules: states `type(x)` read as intended; as written it
  always raises AttributeError, as TokenEvaluator.AttributeErrorsAsWritten
  states.
- TokenEvaluator.ReturnSkipsTheRest: states `return` read as intended; as
  written no `ReturnException` is ever raised, because the `return` raises
  AttributeError first.
- TokenEvaluator.BodyOutcomes and TokenEvaluator.CallRules: their returned-value
  cases hold for the intended reading only; as written
  TokenEvaluator.CallsReturnNothingAsWritten applies.
- TokenEvaluator.Evaluator.EvaluateReturn, TokenEvaluator.Evaluator.EvaluateType
  and TokenEvaluator.Evaluator.CallBody: the object's methods model the
  intended reading only.
- interpreter/parser_/parser_.py builds `Factorial` (line 151),
  `BinaryExpression` (line 154) and `UnaryExpression` (lines 174-178). It
  imports its node classes from interpreter/parser_/ast_objects.py, which
  defines none of these names, so the parser as given stops with NameError
  at its first postfix, infix or prefix expression. The model follows
  parser_.py's names and constructor arguments. Their `==` follows
  `PostfixExpression`, `InfixExpression` and `PrefixExpression`
  (interpreter/parser_/ast_objects.py:680-724), except that `Factorial`
  holds no operator token to compare.
- interpreter/utils/utils.py is not part of this model. `language_error` is
  taken to build a `LanguageRuntimeException` carrying the line, whose
  `str()` is the bare message.
- The node classes that evaluator.py imports through `_parser._parser` are
  taken to be those of _parser/ast_objects.py.
- evaluator/evaluator.py also imports its node classes through
  `_parser._parser`, but uses classes that _parser/ast_objects.py does not
  define: `Integer`, `Float`, `String` and `Boolean` (lines 19-40),
  `SetVariable` (87), `AddNode` (105), `Factorial` (108), `ToType` (117,
  143) and `Tree` (136). `_parser._parser` is not part of this model, so
  those classes and their attributes (`value`, `line_num`, `name`, `op`,
  `left`, `right`, `expr`, `condition`, `true_statements`,
  `false_statements`, `params`, ...) are inferred from
  how evaluator/evaluator.py uses them.
- Values.PyMod: only the range of the remainder is stated, not its value as
  Python's float `%` computes it for non-integers.
- PrecedenceParser.PrefixAt: its contract states only the cursor bound; the
  prefix branches are stated by PrecedenceParser.PrefixRules,
  PrecedenceParser.NumberPrefix and the grouped-expression lemmas.
- PrecedenceParser.GroupedAt, PrecedenceParser.GroupTailAt,
  PrecedenceParser.CaseAt and PrecedenceParser.CaseBodyAt: their contracts
  state only the cursor bound; the forms they parse are stated by
  PrecedenceParser.GroupedForms, PrecedenceParser.GroupTail,
  PrecedenceParser.GroupedExpression, PrecedenceParser.GroupedList and the
  contracts of PrecedenceParser.CasesAt and PrecedenceParser.WhenElseAt.
- SimpleParser.PrefixAt: its contract states only the cursor bound; its
  branches are stated by SimpleParser.InvalidPrefix,
  SimpleParser.Parenthesised and SimpleParser.NumberPrefix.

## Findings

| source | as written | input that shows it | evidently intended | confidence | as-written member | corrected member |
|---|---|---|---|---|---|---|
| evaluator.py:171-172 | `return e` evaluates `expression.expression`, but `Return` (_parser/ast_objects.py:152-154) sets only `expr`, so it raises AttributeError before any `ReturnException` | a function `f` whose body is `return true;`, called as `f()` | the call gives `true` stamped with the call's line, as tests/test_evaluator.py:98-114 expects of a function returning `true` | not executed; evaluator.py takes these classes through `_parser._parser`, which is not part of this model, and they are read as those of _parser/ast_objects.py | TokenEvaluator.FunctionReturnExample | TokenEvaluator.ReturnSkipsTheRest |
| evaluator.py:157-163 | `type(x)` reads `len(expression.value)`, but `Type` (_parser/ast_objects.py:57-61, 78-80) sets only `params` and `line_num`, so every call raises AttributeError | `type(1)` | a token naming NUMBER on the argument's line | not executed; evaluator.py takes these classes through `_parser._parser`, which is not part of this model, and they are read as those of _parser/ast_objects.py | TokenEvaluator.AttributeErrorsAsWritten | TokenEvaluator.TypeRules |
