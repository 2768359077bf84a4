# lis.py in Dafny

lis.py is a small Lisp interpreter written in Python 2. It has four stages:

- **Lexer.** `split_word` and `tokenize` cut lines of text into tokens. A token is a parenthesis or a run of other non-blank characters.
- **Atom.** `atom` classifies a token as an integer, `#t`/`#f` or a symbol.
- **Parser.** `parse_tokens` reads one stream of tokens into nested lists.
- **Evaluator.** `lookup`, `eval_in_env` and `eval_loop` evaluate the parsed forms against an association-list environment. The newest binding sits at the front. `define` extends the environment in place, and `display` prints.

This project models those stages. It proves what each stage promises.

- `syntax.dfy` (module `Syntax`): expressions (`Exp`) and `Atom`. The integer text of every number reads back as that number.
- `lexer.dfy` (module `Lexer`): the specification functions `Split`, `Words` and `Tokens`. The imperative methods `SplitWord`, `TokenizeLine` and `Tokenize` are proved equal to them. Proved properties:
  - the tokens concatenate back to the input's non-blank characters;
  - every token is a single parenthesis or a non-empty run free of parentheses and blanks;
  - within one word, no two such runs are adjacent;
  - a blank anywhere in a line separates the words before it from the words after it;
  - joining blank-free tokens with blanks and tokenizing the result gives back exactly those tokens.
- `parser.dfy` (module `Parser`): `ParseLevel`, one call of `parse_tokens` as a function. The method `ParseTokens` walks the token sequence with an index and is proved equal to `ParseLevel`. Also here: the round trip through the token writer `Unparse`, and the error and early-stop behaviours.
- `semantics.dfy` (module `Semantics`): `Eval`, the meaning of `eval_in_env` as a function.
  - Input: an expression, an environment, the output written so far, and fuel.
  - Result: an `Outcome`, which holds the result (a value or an error kind), the caller's environment afterwards and the output.
  - Python semantics are kept:
    - booleans are integers;
    - `/` is floor division;
    - `zip` truncates;
    - `cdr` of an empty list is empty;
    - a closure is a snapshot of the environment, and a call by name rebinds the name.
- `evaluator.dfy` (module `Evaluator`): the imperative form of the evaluator.
  - A class `EnvList` holds the mutable environment list.
  - A class `Interpreter` holds the output. It has one method per branch of `eval_in_env`, each with the source's loops.
  - Every method ensures that its result, the environment's new bindings and the new output are exactly what `Eval` gives for the old state.
- `operator_facts.dfy`, `form_facts.dfy` (modules `OperatorFacts`, `FormFacts`): what each operator and special form computes, stated over `Eval`.
- `effect_facts.dfy` (module `EffectFacts`): evaluation only ever prepends bindings to the caller's environment and appends to the output.
- `programs.dfy` (module `Programs`): the recursive factorial program computes k! for every k.

## Model

| member | source | states |
|---|---|---|
| Syntax.Atom | lis.py:27-40 | a token is never classified as a list; it is a number exactly when `int()` reads it, and then that number; it is the boolean `#t` or `#f` exactly when the token is `#t` or `#f`; otherwise it is the symbol spelled by the token itself |
| Syntax.IntVariants | lis.py:29-30 | a run of digits, and the same run with a leading `+` or `-`, is read as an integer with that value and sign (`+5` is 5, `-0` is 0) |
| Syntax.LeadingZerosValue | lis.py:29-30 | leading zeros do not change the value of a run of digits (`007` is 7) |
| Syntax.IntTextRoundTrip | lis.py:29-30 | the decimal text of every integer, negative ones included, is read back by `int()` as that integer |
| Syntax.AtomTextRoundTrip | lis.py:27-40 | every atom (integer, boolean, plain symbol) written as a token is classified back as the same atom, and its token is never a parenthesis |
| Lexer.SplitWord | lis.py:5-16 | the loop with its pending run `current` yields exactly `Split(word)` |
| Lexer.SplitFacts | lis.py:5-16 | the pieces of a word concatenate back to the word, each piece is a lone parenthesis or a non-empty parenthesis-free run, and two runs are never adjacent |
| Lexer.WordsFacts | lis.py:20 | `line.split()` gives non-empty blank-free words that concatenate to the line with its blanks removed |
| Lexer.WordsOfJoin | lis.py:20 | splitting non-empty blank-free words joined by single blanks gives back exactly those words |
| Lexer.WordsSplitAtBlank | lis.py:20 | `line.split()` cuts at every blank, wherever it stands: the words of a line with a blank in it are the words before it followed by the words after it, so leading, trailing and repeated blanks give no empty or merged words |
| Lexer.TokenizeLine | lis.py:20-22 | the nested loops over the words of a line and the pieces of each word yield exactly the pieces of the words in order |
| Lexer.Tokenize | lis.py:18-22 | the loop over all lines yields exactly `Tokens(lines)` |
| Lexer.TokensFacts | lis.py:18-22 | the tokens of all lines concatenate to the non-blank characters of the input, and every token is a parenthesis or a non-empty run free of parentheses and blanks |
| Lexer.SplitOfToken | lis.py:5-16 | `split_word` of a single token gives that token alone |
| Lexer.TokensOfJoin | lis.py:18-22 | tokenizing a line made of tokens separated by single blanks gives back exactly those tokens |
| Parser.ParseLevel | lis.py:45-65 | what a call leaves unread is never longer than what it was given |
| Parser.ParseLeavesSuffix | lis.py:55-65 | tokens are consumed once, front to back: what a call leaves unread is a suffix of its input |
| Parser.ParseTokens | lis.py:45-65 | the loop over a shared token stream, with a recursive call per `(`, succeeds exactly when `ParseLevel` does, and then returns its elements and resumes the stream where `ParseLevel` stops |
| Parser.ParseProgramRoundTrip | lis.py:45-65 | the tokens of any sequence of printable forms parse back to exactly those forms, with nothing left over |
| Parser.LeadingCloseFails | lis.py:59-60 | a `)` read before any element of the top level raises the unexpected-`)` error |
| Parser.EmptyFormFails | lis.py:57-60 | `()` raises the unexpected-`)` error wherever it appears after printable forms |
| Parser.TopLevelCloseStops | lis.py:61-62 | a `)` at top level after at least one form ends the program; the tokens after it are left unread |
| Parser.UnclosedFormIsPartial | lis.py:56-58 | a stream that ends inside an open form gives that form with the elements read so far, without an error |
| Semantics.Lookup | lis.py:71-75 | lookup succeeds exactly when some binding has the name; it then gives the value of the first such binding, and otherwise fails with unknown-variable for that name |
| Semantics.Zip | lis.py:175-177 | the pairing of parameters with arguments is as long as the shorter of the two, and pairs them position by position |
| Semantics.FloorDiv | lis.py:104 | the quotient of `/` is rounded toward minus infinity (the remainder has the divisor's sign) |
| Evaluator.EnvList.InsertFront | lis.py:143 | `env.insert(0, ...)` puts the binding in front of the list and keeps the rest |
| Evaluator.Interpreter.EvalInEnv | lis.py:77-178 | the result, the caller's environment list after the call, and the output equal `Eval` on the old environment and output |
| Evaluator.Interpreter.EvalFormIn | lis.py:82-178 | the dispatch on a form's head agrees with `EvalForm` |
| Evaluator.Interpreter.SumIn | lis.py:85-90 | the accumulating loop of `+` agrees with `EvalSum` from 0 |
| Evaluator.Interpreter.ProductIn | lis.py:91-96 | the accumulating loop of `*` agrees with `EvalProduct` from 1 |
| Evaluator.Interpreter.ArithIn | lis.py:97-104 | `-` and `/` agree with `EvalArith` |
| Evaluator.Interpreter.CompareIn | lis.py:105-113 | `=`, `<` and `>` agree with `EvalCompare` |
| Evaluator.Interpreter.AndIn | lis.py:114-119 | the short-circuit loop of `and` agrees with `EvalAnd` |
| Evaluator.Interpreter.OrIn | lis.py:120-125 | the short-circuit loop of `or` agrees with `EvalOr` |
| Evaluator.Interpreter.IfIn | lis.py:127-132 | `if` agrees with `EvalIf` |
| Evaluator.Interpreter.LetIn | lis.py:133-139 | the binding loop of `let` agrees with `EvalLet` |
| Evaluator.Interpreter.DefineIn | lis.py:140-143 | `define` agrees with `EvalDefine`, mutating the caller's list |
| Evaluator.Interpreter.DisplayIn | lis.py:148-149 | `display` agrees with `EvalDisplay` |
| Evaluator.Interpreter.ConsIn | lis.py:151-153 | `cons` agrees with `EvalCons` |
| Evaluator.Interpreter.CarCdrIn | lis.py:154-159 | `car` and `cdr` agree with `EvalCarCdr` |
| Evaluator.Interpreter.EachIn | lis.py:160-161 | the comprehension of `list` agrees with `EvalEach` |
| Evaluator.Interpreter.NullPIn | lis.py:162-163 | `null?` agrees with `EvalNullP` |
| Evaluator.Interpreter.ApplyIn | lis.py:165-178 | application agrees with `EvalApply` |
| Evaluator.Interpreter.EvalLoop | lis.py:181-184 | the loop over the program from the empty environment agrees with `RunFrom` on its result and its output |
| OperatorFacts.SumOfOperands | lis.py:85-90 | `+` over operands that change neither the environment nor the output and whose values are numbers or booleans is the sum of those values, with `(+)` giving 0 |
| OperatorFacts.ProductOfOperands | lis.py:91-96 | `*` over operands that change neither the environment nor the output and whose values are numbers or booleans is the product of those values, with `(*)` giving 1 |
| OperatorFacts.SumIgnoresOrder | lis.py:85-90 | `+` over integer literals gives the same result for any reordering of them |
| OperatorFacts.ProductIgnoresOrder | lis.py:91-96 | `*` over integer literals gives the same result for any reordering of them |
| OperatorFacts.SumIgnoresGrouping | lis.py:85-90 | a nested `+` over integer literals, first or last among the outer operands, gives the same as one flat `+` over all the literals |
| OperatorFacts.ProductIgnoresGrouping | lis.py:91-96 | a nested `*` over integer literals, first or last among the outer operands, gives the same as one flat `*` over all the literals |
| OperatorFacts.ArithmeticOnBooleans | lis.py:85-96 | booleans count as 0 and 1: `(+ 1 #t)` is 2 and `(* #f 5)` is 0 |
| OperatorFacts.ArithIgnoresExtraOperands | lis.py:97-104 | `-` and `/` read only their first two operands; further ones are neither evaluated nor checked |
| OperatorFacts.MinusOperands | lis.py:97-100 | `-` of two integers is their difference |
| OperatorFacts.ArithTooFewOperands | lis.py:97-104 | `-` and `/` with one operand fail with an index error after evaluating it, and with none fail at once |
| OperatorFacts.DivideOperands | lis.py:101-104 | `/` by zero fails with a division error, and by anything else gives the quotient rounded toward minus infinity |
| OperatorFacts.ComparisonArity | lis.py:105-113 | `=`, `<` and `>` with other than two operands fail with an unpacking error before evaluating any |
| OperatorFacts.ComparisonValues | lis.py:105-113 | `=` is Python equality of the two values; `<` and `>` order numbers and booleans numerically and fail on other values |
| OperatorFacts.PyEqReflexive | lis.py:105-107 | every value is `=` to itself |
| OperatorFacts.PyEqSymmetric | lis.py:105-107 | `=` is symmetric |
| OperatorFacts.BooleansAreNumbers | lis.py:105-107 | `#t` equals 1 and `#f` equals 0; integers are equal exactly when they are the same number; `#t` and `#f` differ |
| OperatorFacts.PyEqEmptyList | lis.py:162-163 | a value equals the empty list exactly when it is the empty list |
| OperatorFacts.ListOfOperands | lis.py:160-161 | `list` over operands that change neither the environment nor the output is the list of their values, in order |
| OperatorFacts.CarCdrOfCons | lis.py:151-159 | `cons` prepends a value to a list, and `car`/`cdr` of the result give back the value and the list |
| OperatorFacts.CarCdrOfEmpty | lis.py:154-159 | `car` of an empty list fails with an index error; `cdr` of an empty list is the empty list |
| OperatorFacts.ConsOntoNonList | lis.py:151-153 | `cons` onto a value that is not a list fails with a type error |
| OperatorFacts.NullPIsEmptyTest | lis.py:162-163 | `null?` is true exactly when its operand's value is the empty list |
| FormFacts.SymbolEvaluation | lis.py:78-81 | `null` is the empty list even where it is bound; any other symbol gives its newest binding, and an unbound one fails with unknown-variable |
| FormFacts.AndOfConcat | lis.py:114-119 | `and` works left to right: the operands after a prefix run, from the state the prefix leaves, only when the prefix gives `#t`, and otherwise the prefix's result is the whole result; `(and)` is true |
| FormFacts.OrOfConcat | lis.py:120-125 | `or` works left to right: the operands after a prefix run, from the state the prefix leaves, only when the prefix gives `#f`, and otherwise the prefix's result is the whole result; `(or)` is false |
| FormFacts.AndOrOfOne | lis.py:114-125 | `and` and `or` of one operand give `#t` exactly when its value is truthy in Python's sense, with the state that operand leaves |
| FormFacts.AndOfPure | lis.py:114-119 | `and` over operands that change neither the environment nor the output is `#t` exactly when every operand's value is truthy |
| FormFacts.OrOfPure | lis.py:120-125 | `or` over operands that change neither the environment nor the output is `#t` exactly when some operand's value is truthy |
| FormFacts.AndOrGiveBooleans | lis.py:114-125 | `and` and `or` give `#t` or `#f`, never an operand's value |
| FormFacts.IfEvaluatesOneBranch | lis.py:127-132 | `if` gives the value of the first branch when the test is truthy and the second otherwise, and never evaluates the other branch |
| FormFacts.IfArity | lis.py:128 | `if` without exactly a test and two branches fails with an unpacking error before evaluating anything |
| FormFacts.LetBindsInCallerEnv | lis.py:133-139 | `let` evaluates every value in the caller's environment and runs the body with the names bound in order, a later pair shadowing an earlier one; the caller's environment is left as it was |
| FormFacts.EmptyLetSharesCallerEnv | lis.py:135-139 | a `let` with no pairs runs its body in the caller's own environment, so a `define` inside it stays |
| FormFacts.LetExample | lis.py:133-139 | `(let ((x 1)) (let ((y x) (x 2)) y))` is 1: a pair's value does not see the names bound before it in the same `let` |
| FormFacts.DefineExtendsCallerEnv | lis.py:140-143 | `define` puts the binding in front of the caller's environment, where a later lookup of the name finds it; its own result is nothing |
| FormFacts.DisplayAppendsOutput | lis.py:148-149 | `display` appends its first operand's value to the output and gives nothing |
| FormFacts.CallByName | lis.py:165-175 | a call through a name bound to a closure runs the body with the name bound to the closure, then the parameters zipped with the arguments, then the captured environment, and leaves the caller's environment as it was |
| FormFacts.CallEnvShadowing | lis.py:174-175 | inside a call by name, the name is the closure itself whatever the captured environment binds, and the call's environment holds one more binding than the zipped parameters (the shorter of parameters and arguments) and the captured environment together |
| FormFacts.ApplyNonClosure | lis.py:165-172 | applying a name whose value is not a closure fails, after the head and every argument are evaluated |
| FormFacts.LambdaCapturesSnapshot | lis.py:144-147 | a `lambda` gives a closure over a snapshot of the environment; a later `define` grows the environment but not the snapshot, so the closure does not see its own name |
| FormFacts.RunConcat | lis.py:181-184 | a program's second part runs in the environment and after the output the first part leaves, and not at all once the first part fails |
| FormFacts.RunGivesNothing | lis.py:181-184 | a program that does not fail gives no value; its only effects are its environment and output |
| EffectFacts.EvalGrows | lis.py:77-178 | no evaluation removes or changes a binding of the caller's environment or retracts output: bindings are only added in front, output only appended |
| EffectFacts.RunFromGrows | lis.py:181-184 | the same holds for the loop over a program |
| EffectFacts.OutputIsNeverRetracted | lis.py:181-184 | the output of a program is a prefix of the output of any program that extends it |
| Programs.FactBodyComputes | lis.py:165-178 | the body of the recursive `fact`, run for any n = k given fuel for k nested calls, gives k! and changes neither environment nor output |
| Programs.FactProgramDisplays | lis.py:140-184 | `(define fact (lambda (n) ...)) (display (fact k))` writes k! and nothing else, and leaves `fact` bound to a closure over the empty environment |

## Left out

- `repl` and the command-line entry point (lis.py:187 onward): terminal input and output, file reading and argument parsing are I/O. The model starts from a sequence of lines, or from a parsed program.
- Floats in `atom`: `float(token)` is not modelled, so a token such as `1.5` becomes a symbol here. Floating point arithmetic is out of scope.
- `display` prints its value with Python's `print`. Here the output is the sequence of printed values, and their text form is not modelled.
- `<` and `>` on values that are not numbers or booleans (Python 2 orders lists, and values of different types, arbitrarily): `TypeMismatch` here.
- `*` with a list operand (Python list repetition): `TypeMismatch` here.
- Applying a value that is not a closure: the source unpacks any three-element list as a closure. Here only a closure can be applied; anything else gives `NotCallable`.
- `car`, `cdr` and `cons` on closures, which Python sees as three-element lists: only `List` values are taken apart here.
- `=` between two closures is structural equality of their forms and snapshots. This approximates Python's list equality on the closure triples.
- Host recursion depth: every evaluation spends a unit of fuel, and running out gives `OutOfFuel`. Python's own recursion limit is not modelled.
- Lazy generators: the lexer and parser work on whole sequences. The shared position in the token stream is modelled by `Parser.ParseTokens` returning the next index.
- Exceptions are modelled as error kinds (`UnknownVariable`, `BadUnpack`, `BadIndex`, `TypeMismatch`, `DivisionByZero`, `NotCallable`). Their messages are not modelled.
- Parser.ParseLevel: its own contract states only the length bound. That what it leaves unread is a suffix of its input is the separate lemma `Parser.ParseLeavesSuffix`.
- The textual description of the language and the code differ in places. The model follows the code:
  - `cdr` of an empty list is the empty list, not an error;
  - a call with too few or too many arguments pairs them by `zip`, which drops the extras;
  - a stream that ends inside an open form yields the partial form;
  - `/` is floor division;
  - `-` and `/` with three or more operands use the first two and ignore the rest, unevaluated (`OperatorFacts.ArithIgnoresExtraOperands`).
