# little-lisp in Dafny

This project models the core of little-lisp, a small tree-walking Lisp
evaluator, and proves properties of that model. The core consists of four
pieces of the repository:

- **`src/lisp.rs`, the current evaluator.** Expressions (`Symbol`, `Integer`,
  `List`, `Bool`, `Func`, `Null`) are evaluated against a `LispEnv`, which is
  a stack of frames. The special forms `+`, `*`, `-`, `eq?`, `define` and
  `if` are dispatched on the head symbol. Any other head must resolve to a
  procedure. A call pushes a frame onto the one shared stack, evaluates and
  binds its arguments, evaluates the single body form, and pops the frame.
  - Modules `LispValues` and `LispEnvironment` hold the values and the frame
    stack.
  - `LispEvaluator` holds the meaning of `eval` and `call`, written as
    functions from an expression and a stack to an outcome and a new stack.
  - `LispInterpreter` holds the in-place evaluator over a `LispEnv` object.
    Each of its methods is proved equal to the corresponding function.
  - `LispProperties` holds the lemmas about evaluation.
- **`src/lib.rs`, the earlier evaluator.** It has one flat map of bindings and
  host built-ins for `+`, `-` and `*`. Module `EarlyLisp` models it, and
  `EarlyLispProperties` holds the lemmas about it.
- **`src/parser.rs`, the token-tree builder.** It reads tokens from a shared
  iterator, opens a node at `(` and closes it at `)` or at the end of input.
  Module `Parser` models it, and `ParserProperties` holds the lemmas about it.
- **`main.py`, the Python prototype's environment.** Each scope has its own
  table and a parent, and a call runs in a fresh child scope. Module
  `ScopeChain` models it.

`option.dfy` defines the shared `Option` type.

The model reproduces what the code does, including these behaviours:

- **Dynamic scope.** A procedure body sees every frame of its caller, because
  calls push onto the one stack.
- **Arguments are evaluated after the frame is pushed.** A later argument
  already sees the parameters bound before it.
- **`(define x e)` stores `e` unevaluated.**
- **Lookup chases symbols.** When a name is bound to a symbol, `get` looks that
  symbol up in turn. An alias cycle, on which the source recurses forever, is
  reported here as the outcome `Loops`.
- **A procedure keeps only its first body form.**
- **A non-symbol head is a `TypeError`.** `((f) 1)` fails with "expected
  symbol".
- **The call frame leaks on an argument or binding error.** The frame pushed for
  a call is not popped when evaluating or binding an argument fails.

Further facts about the code that the model keeps:

- Scoping is dynamic: no closure environment is captured.
- There is no `cond`, `cons`/`car`/`cdr`, pair value, comparison operator or
  body sequence.
- `-` in `src/lib.rs` subtracts every argument from 0, so `(+ (- 3 5) 4)` is
  -4, as `src/lib.rs:141` asserts.

## Model

| member | source | states |
|---|---|---|
| LispValues.ExtractList | src/lisp.rs:37-42 | succeeds exactly on a list, returning its elements; otherwise `TypeError("expected list")` |
| LispValues.ExtractSymbol | src/lisp.rs:44-49 | succeeds exactly on a symbol, returning its name; otherwise `TypeError("expected symbol")` |
| LispValues.ExtractInt | src/lisp.rs:52-57 | succeeds exactly on an integer, returning it; otherwise `TypeError("expected integer")` |
| LispValues.ExtractBool | src/lisp.rs:60-65 | succeeds exactly on a boolean, returning it; otherwise `TypeError("expected bool")` |
| LispValues.ExtractFn | src/lisp.rs:67-72 | succeeds exactly on a procedure, returning it; otherwise `TypeError("expected function")` |
| LispValues.ExtractFirst | src/lisp.rs:78-83 | a non-empty list gives its first element; any other expression gives itself |
| LispValues.EqValues | src/lisp.rs:152-163 | true exactly when both sides are the same integer, symbol or boolean; false for every other pair, including two equal `Null`s or procedures |
| LispEnvironment.Push | src/lisp.rs:265-267 | the stack gains one empty frame on top; the frames below are unchanged |
| LispEnvironment.Pop | src/lisp.rs:269-271 | the top frame is removed; an empty stack stays empty |
| LispEnvironment.InsertTop | src/lisp.rs:273-275 | only the top frame changes, binding the name to the expression; every lower frame is untouched |
| LispEnvironment.TopBinding | src/lisp.rs:277-291 | some frame below `n` binds the name exactly when a value is returned, and that value is what one of those frames binds |
| LispEnvironment.ResolveFrom | src/lisp.rs:277-291 | a found value is never a symbol, and it is a value some frame binds |
| LispEnvironment.Resolve | src/lisp.rs:277-291 | `get` from its entry point: a found value is never a symbol, a name no frame binds is unbound, and a cycle needs the name to be bound to a symbol |
| LispEnvironment.LispEnv.New | src/lisp.rs:245-249 | the stack is one empty frame |
| LispEnvironment.LispEnv.Default | src/lisp.rs:251-263 | the stack is `DefaultStack()`: one frame binding `first` to the procedure of parameters `a b` whose body is `a`, and nothing else |
| LispEnvironment.LispEnv.NewFrame | src/lisp.rs:265-267 | the new stack is the old one with an empty frame pushed |
| LispEnvironment.LispEnv.PopFrame | src/lisp.rs:269-271 | the new stack is the old one with its top frame popped |
| LispEnvironment.LispEnv.Insert | src/lisp.rs:273-275 | the new stack is the old one with the name bound in the top frame |
| LispEnvironment.LispEnv.Get | src/lisp.rs:277-291 | the answer is the chased lookup of the name in the current stack |
| LispEnvironment.LispEnv.GetChasing | src/lisp.rs:278-289 | the top-down frame loop, which recurses on a symbol value, gives the chased lookup from a set of names already visited |
| LispEvaluator.Eval | src/lisp.rs:94-229 | evaluation never pops below the caller's top frame and never changes the frames under it; a normal return leaves the stack as deep as it found it; a returned value is never a symbol and can be evaluated again |
| LispEvaluator.EvalForm | src/lisp.rs:106-223 | dispatch on the head symbol keeps the same stack discipline and value guarantee as `eval` |
| LispEvaluator.Total | src/lisp.rs:116-132 | the fold of no numbers is 0 for a sum and 1 for a product, and of one number is that number |
| LispEvaluator.EvalFold | src/lisp.rs:108-134 | `+`/`*` keep the stack discipline and return a non-symbol value |
| LispEvaluator.EvalInts | src/lisp.rs:112-115 | the operand loop keeps the stack discipline; on success it returns one integer per operand after those already collected |
| LispEvaluator.EvalMinus | src/lisp.rs:136-144 | `-` keeps the stack discipline and returns a non-symbol value |
| LispEvaluator.EvalEq | src/lisp.rs:146-165 | `eq?` keeps the stack discipline and returns a non-symbol value |
| LispEvaluator.EvalDefine | src/lisp.rs:167-199 | `define` keeps the stack discipline and returns a non-symbol value |
| LispEvaluator.EvalIf | src/lisp.rs:201-210 | `if` keeps the stack discipline and returns a non-symbol value |
| LispEvaluator.EvalApply | src/lisp.rs:215-223 | a general call keeps the stack discipline and returns a non-symbol value |
| LispEvaluator.Call | src/lisp.rs:13-22 | a procedure call never pops below the caller's top frame, and a normal return leaves the stack exactly as deep as before |
| LispEvaluator.BindParams | src/lisp.rs:15-18 | the binding loop never pops below the frame it binds into, and on success leaves the depth unchanged |
| LispInterpreter.EvalExpr | src/lisp.rs:94-229 | evaluating in place on a `LispEnv` gives the outcome and final stack of `Eval` on the initial stack |
| LispInterpreter.EvalFormIn | src/lisp.rs:106-223 | in-place dispatch agrees with `EvalForm` |
| LispInterpreter.EvalFoldIn | src/lisp.rs:108-134 | the in-place operand loop of `+`/`*` agrees with `EvalFold` |
| LispInterpreter.EvalMinusIn | src/lisp.rs:136-144 | in-place `-` agrees with `EvalMinus` |
| LispInterpreter.EvalEqIn | src/lisp.rs:146-165 | in-place `eq?` agrees with `EvalEq` |
| LispInterpreter.EvalDefineIn | src/lisp.rs:167-199 | in-place `define` agrees with `EvalDefine` |
| LispInterpreter.EvalIfIn | src/lisp.rs:201-210 | in-place `if` agrees with `EvalIf` |
| LispInterpreter.EvalApplyIn | src/lisp.rs:215-223 | an in-place general call agrees with `EvalApply` |
| LispInterpreter.CallIn | src/lisp.rs:13-22 | push, bind loop, body and pop on the object agree with `Call` |
| LispProperties.SelfEvaluating | src/lisp.rs:100-104 | integers, booleans, `Null` and procedures evaluate to themselves, and `()` evaluates to `Null`, all without touching the stack |
| LispProperties.NonSymbolHead | src/lisp.rs:107 | a non-empty list whose head is not a symbol fails with `TypeError("expected symbol")` and leaves the stack unchanged |
| LispProperties.TopBindingOfPrefix | src/lisp.rs:278-289 | the topmost binding among the first `n` frames depends on those frames alone |
| LispProperties.ResolveBySameBindings | src/lisp.rs:277-291 | two stacks that agree on every name's topmost binding resolve every name alike |
| LispProperties.ResolveThroughEmptyFrame | src/lisp.rs:265-267 | pushing an empty frame changes no lookup |
| LispProperties.ResolveTopmost | src/lisp.rs:277-291 | the topmost frame that binds a name decides its value, and a name no frame binds is unbound |
| LispProperties.ChaseIgnoresPredecessor | src/lisp.rs:281-282 | chasing is unchanged by marking as visited a name that aliases the current name or a visited one |
| LispProperties.AliasResolvesAsTarget | src/lisp.rs:281-282 | a name whose topmost binding is the symbol `y` resolves exactly as `y` does |
| LispProperties.SelfAliasLoops | src/lisp.rs:281-282 | a name bound to itself is a lookup cycle |
| LispProperties.SymbolLookup | src/lisp.rs:96-99 | a symbol evaluates to its chased value, or to `NameError` when it is unbound; the stack is unchanged |
| LispProperties.IntsOfLiterals | src/lisp.rs:112-115 | integer literals pass through the operand loop unchanged and in order |
| LispProperties.FoldOfIntegers | src/lisp.rs:108-133 | `(+ n...)`/`(* n...)` on literals give their sum/product; with no operands they give `ArityMismatch` |
| LispProperties.IntsStopAtNonInteger | src/lisp.rs:112-115 | when every operand before position `k` is an integer literal and the one at `k` is a non-integer, non-symbol atom (a boolean, `()` or a procedure), the operand loop fails there with `TypeError("expected integer")`, stack unchanged |
| LispProperties.FoldStopsAtNonInteger | src/lisp.rs:112-115 | when every operand before position `k` is an integer literal and the one at `k` is a non-integer, non-symbol atom, `+`/`*` fail with `TypeError("expected integer")`, stack unchanged; arbitrary operands are covered by `FoldStopsAtOperand` |
| LispProperties.IntsThread | src/lisp.rs:112-115 | after a chain of operands that evaluate to integers, each on the stack the previous one left, the loop carries on from the last stack with their values appended in order |
| LispProperties.IntsStep | src/lisp.rs:114-115 | an operand that fails ends the loop with its failure, and one whose value is not an integer ends it with `TypeError("expected integer")`, on the stack that operand left |
| LispProperties.FoldForm | src/lisp.rs:108-133 | a list headed by `+` or `*` with an operand gives the sum/product of the integers the operand loop collects, on the stack the loop left, or passes on the loop's failure |
| LispProperties.FoldOfOperands | src/lisp.rs:108-133 | when the operands evaluate left to right, each on the stack the previous one left, to integers `xs`, `+`/`*` give the sum/product of `xs` on the stack the last operand left |
| LispProperties.FoldStopsAtOperand | src/lisp.rs:112-115 | after a chain of integer operands, the next operand's failure is passed on and a non-integer value is `TypeError("expected integer")`, on the stack it left; later operands are never evaluated |
| LispProperties.TotalAppend | src/lisp.rs:116-132 | the sum of a concatenation is the sum of the sums; the product, the product of the products |
| LispProperties.MinusOfOperands | src/lisp.rs:136-144 | `(- a b)` evaluates `a`, then `b` on the stack `a` left, and gives the difference of their values; the first operand that fails or is not an integer decides the error, on the stack it left |
| LispProperties.EqOfOperands | src/lisp.rs:146-165 | `(eq? a b)` evaluates `a`, then `b` on the stack `a` left, and gives `EqValues` of the two values; a failing operand is passed on with its stack |
| LispProperties.MinusOfIntegers | src/lisp.rs:136-144 | `(- a b)` on literals is `a - b` |
| LispProperties.EqOfAtoms | src/lisp.rs:146-165 | `(eq? a b)` on atoms is true exactly for equal integers or equal booleans |
| LispProperties.FormArity | src/lisp.rs:108-203 | each special form with the wrong number of elements fails with `ArityMismatch` before evaluating anything |
| LispProperties.DefineStoresUnevaluated | src/lisp.rs:174-176 | `(define s e ...)` binds `s` to `e` itself, unevaluated, in the top frame and returns `Null`; a non-symbol `e` is then what `s` resolves to |
| LispProperties.DefineProcedure | src/lisp.rs:179-192 | `(define (g p...) body ...)` binds `g` in the top frame to the procedure with parameters `p...` and the first body form only |
| LispProperties.DefineInvalidSyntax | src/lisp.rs:194-197 | any other second element of `define` fails with `TypeError("invalid syntax")` |
| LispProperties.IfChoosesBranch | src/lisp.rs:201-210 | `if` evaluates only the chosen branch, in the stack the condition left; a non-boolean condition is `TypeError("expected bool")`; a failing condition propagates |
| LispProperties.CallChecksBeforePush | src/lisp.rs:215-223 | a non-form head that is unbound, not a procedure or of the wrong arity fails with the stack unchanged; otherwise the call proceeds |
| LispProperties.CallPopsAfterBody | src/lisp.rs:19-21 | once the arguments are bound, exactly one frame is popped after the body, whether the body succeeded or failed |
| LispProperties.CallLeaksFrameOnBindFailure | src/lisp.rs:14-18 | when binding fails, the call's frame stays on the stack and the error is returned |
| LispProperties.BindAtoms | src/lisp.rs:15-18 | binding atoms to distinct parameters succeeds and leaves each parameter bound to its argument in the top frame |
| LispProperties.BodySeesCallerFrames | src/lisp.rs:13-22 | dynamic scope, for a procedure with no parameters whose body is a name `y`: the call returns what `y` resolves to in the caller's stack, and the stack is restored; for any procedure, `BindParams`'s contract keeps every caller frame under the call frame |
| LispProperties.ApplyFirst | src/lisp.rs:251-263 | in the default environment `(first x y)` is a call of the built-in `first` procedure |
| LispProperties.BindStep | src/lisp.rs:15-18 | one turn of the binding loop, for an argument that evaluates to `v` without changing the stack: the parameter is bound to `v` in the top frame and the loop continues from the next argument |
| LispProperties.FirstOfTwo | src/lisp.rs:251-263 | `(first 1 2)` is 1, and the stack is back to the default one |
| LispProperties.LaterArgumentSeesEarlierParameter | src/lisp.rs:14-17 | in `(first 5 a)` the argument `a` already sees the parameter `a` bound to 5, so the result is 5 |
| LispProperties.UnboundArgumentLeaksFrame | src/lisp.rs:16-20 | `(first zz 2)` with `zz` unbound is `NameError` and leaves an extra empty frame on the stack |
| EarlyLisp.Integers | src/lib.rs:59-64 | never more values than arguments; when every argument is an integer, their values in order |
| EarlyLisp.Apply | src/lib.rs:54-97 | every built-in returns an integer |
| EarlyLisp.AddAll | src/lib.rs:57-66 | the `+` loop returns the sum of the integer arguments |
| EarlyLisp.SubtractAll | src/lib.rs:72-81 | the `-` loop returns 0 minus each integer argument in turn |
| EarlyLisp.MultiplyAll | src/lib.rs:87-96 | the `*` loop returns the product of the integer arguments |
| EarlyLisp.Invoke | src/lib.rs:33 | calling the function pointer does what `Apply` says |
| EarlyLisp.Eval | src/lib.rs:11-40 | a list that evaluates successfully gives an integer |
| EarlyLisp.EvalArgs | src/lib.rs:25-31 | on success, the collected values follow those already collected, one per remaining argument |
| EarlyLisp.LispEnv.New | src/lib.rs:47-49 | no bindings |
| EarlyLisp.LispEnv.Default | src/lib.rs:51-101 | exactly `+`, `-` and `*` bound to their built-ins |
| EarlyLisp.LispEnv.Insert | src/lib.rs:103-105 | the map with one name added or overwritten |
| EarlyLisp.Evaluate | src/lib.rs:11-40 | evaluating on a `LispEnv` with the argument loop gives `Eval` on its bindings |
| EarlyLispProperties.SelfEvaluating | src/lib.rs:17-38 | integers and built-ins evaluate to themselves |
| EarlyLispProperties.SymbolLookup | src/lib.rs:13-16 | a bound symbol gives its binding; an unbound one gives "Symbol not found in environment" |
| EarlyLispProperties.HeadFirst | src/lib.rs:19-35 | a failing head's error is returned and a non-function head is "First element not a function", whatever the (evaluable) arguments |
| EarlyLispProperties.ArgsLeftToRight | src/lib.rs:25-31 | the argument loop succeeds exactly when every argument does, and then holds their values in order |
| EarlyLispProperties.ArgsFirstError | src/lib.rs:25-31 | a failing argument loop returns the error of the first failing argument |
| EarlyLispProperties.CallApplies | src/lib.rs:24-33 | with a built-in head and succeeding arguments, the result is the built-in applied to the argument values |
| EarlyLispProperties.IntegersAppend | src/lib.rs:59-64 | the integers of a concatenation are the concatenation of the integers |
| EarlyLispProperties.SumAppend | src/lib.rs:57-66 | the sum of a concatenation is the sum of the sums |
| EarlyLispProperties.ProductAppend | src/lib.rs:87-96 | the product of a concatenation is the product of the products |
| EarlyLispProperties.DifferenceIsNegatedSum | src/lib.rs:72-81 | the `-` fold is the negated sum, not a left-to-right difference |
| EarlyLispProperties.SkipsNonIntegers | src/lib.rs:59-63 | inserting a non-integer argument anywhere changes no built-in's result |
| EarlyLispProperties.OnIntegers | src/lib.rs:54-97 | on integer arguments the built-ins give sum, negated sum and product; on none they give 0, 0 and 1 |
| EarlyLispProperties.Binary | src/lib.rs:18-33 | a two-argument call of a bound built-in applies it to the two values |
| EarlyLispProperties.ApplyTwo | src/lib.rs:54-97 | on two integers the built-ins give `x + y`, `-x - y` and `x * y` |
| EarlyLispProperties.SumOfSum | src/lib.rs:129-135 | `(+ (+ 3 5) 4)` is 12 in the default environment |
| EarlyLispProperties.SumOfDifference | src/lib.rs:137-143 | `(+ (- 3 5) 4)` is -4 in the default environment |
| EarlyLispProperties.ProductOfSum | src/lib.rs:145-151 | `(* (+ 3 5) 4)` is 32 in the default environment |
| Parser.AstNode.Push | src/parser.rs:16-21 | a node gains the value as its last child, keeping the others; a leaf is unchanged |
| Parser.TokenStream.Next | src/parser.rs:29 | the front token is returned and consumed; an exhausted stream gives `None` and stays exhausted |
| Parser.ParseLevel | src/parser.rs:26-39 | a level always yields a node and never gives back more tokens than it was handed |
| Parser.ParseTokens | src/parser.rs:26-39 | parsing always yields a node |
| Parser.Parse | src/parser.rs:26-39 | the in-place parse of a shared iterator builds the tree `ParseTokens` gives and leaves exactly its remaining tokens |
| ParserProperties.LevelOnWord | src/parser.rs:33 | a non-bracket token becomes a leaf child |
| ParserProperties.LevelOnOpen | src/parser.rs:31 | `(` parses a nested level whose node becomes one child |
| ParserProperties.LevelOnClose | src/parser.rs:32 | `)` ends the level and is consumed |
| ParserProperties.ParseExtends | src/parser.rs:26-38 | a level only appends to the children it was given, and what it leaves is a suffix of its input |
| ParserProperties.ParseKeepsWords | src/parser.rs:30-33 | every non-bracket token becomes a leaf with the same text, in input order, and none is lost |
| ParserProperties.ParseUnparseClosed | src/parser.rs:28-37 | parsing a rendered node sequence followed by `)` rebuilds exactly those nodes and leaves what follows |
| ParserProperties.ParseUnparseToEnd | src/parser.rs:28-37 | parsing a rendered node sequence to the end of input rebuilds exactly those nodes |
| ParserProperties.ParseOfUnparse | src/parser.rs:26-38 | parse after render is the identity on trees without bracket leaves, and empty input gives an empty node |
| ParserProperties.MissingCloseIsClosed | src/parser.rs:35 | a `(` never closed is closed by the end of input |
| ParserProperties.StrayCloseEndsLevel | src/parser.rs:32 | a stray `)` at the top level ends the parse and leaves the rest unread |
| ScopeChain.Find | main.py:20-25 | a value is found exactly when some table binds the name, and it comes from the first such table |
| ScopeChain.LispEnv.constructor | main.py:16-18 | a scope with an empty table under the given parent, consulted before the parent's tables |
| ScopeChain.LispEnv.Get | main.py:20-25 | the scope's own table first, then each enclosing scope's, giving `None` past the root |
| ScopeChain.LispEnv.Add | main.py:27-28 | only this scope's table changes, binding the name; enclosing scopes are untouched |
| ScopeChain.CallScope | main.py:43-47 | the call scope is a fresh child of the given environment whose table is exactly the parameter bindings |
| ScopeChain.OwnTableFirst | main.py:20-25 | a name in the scope's own table is answered from it; any other name is asked of the enclosing scopes |
| ScopeChain.RootMisses | main.py:23-24 | at a scope without a parent, an unbound name gives `None` |
| ScopeChain.FindThrough | main.py:20-25 | lookup through inner scopes then outer ones is inner lookup first, outer lookup only on a miss |
| ScopeChain.AddShadows | main.py:27-28 | after `add` the name has the new value and every other name is answered as before |

## Left out

- Printing (`LispExpr::print`, `AstNode::print`) is output only and is not modelled.
- `src/main.rs` is not part of this model. It is the driver: it splits the input into tokens and prints results.
- `src/temp.rs` is not part of this model. It is a fragment no module declares, and it relies on definitions the other files do not have.
- In `main.py`, only `LispEnv` and the scope setup of `LispFunc.eval` are modelled. `LispAtom`, `LispExpr`, `LispName` and the body evaluation are Python callables and attribute look-ups; `CallScope` stops where the body would be evaluated.
- Integers are unbounded. The source uses `i64`, whose overflow panics in debug builds and wraps in release builds; the model assumes no overflow occurs.
- LispEvaluator.Eval: takes a `fuel` argument and gives `OutOfFuel` when it runs out, because evaluation of a recursive procedure need not terminate. The source instead recurses until the host stack overflows.
- LispEnvironment.ResolveFrom: reports an alias cycle as `Cycle` (evaluation gives `Loops`), where the source recurses without end.
- LispEvaluator.Eval: requires `Safe`, which rules out `(define () body ...)` with at least three elements, on which the source panics indexing an empty vector. The condition is syntactic: it also rules out such a definition where the source never evaluates it, such as an untaken `if` branch or the unevaluated value of `(define x ...)`. The model says nothing about those programs.
- LispEvaluator.Eval: requires a non-empty frame stack, where the source panics in `insert` on an empty one. Only a program that pops the bottom frame could reach that state.
- LispEvaluator.Eval: the `Safe`/`Ready` invariants are stated as contracts; memory ownership (`Box`, `clone`) is not modelled.
- EarlyLisp.Eval: requires `Evaluable`, which rules out an empty list anywhere in the expression, because the source panics indexing `list[0]` when it evaluates one. The condition is syntactic: it also rules out an empty list the source never reaches, such as an argument after a head that is not a function, as in `(5 ())`. The model says nothing about those expressions.
- LispValues.ExtractFirst: requires a list to be non-empty, because the source panics indexing `v[0]` on an empty one.
- EvalFold: its own contract states only the stack discipline and a non-symbol value. The value of `+`/`*` is stated by `FoldOfOperands`, `FoldStopsAtOperand` and `FoldOfIntegers`.
- EvalInts: its own contract states the number of collected integers, not their values. Their values and the stack threading are stated by `IntsThread` and `IntsStep`.
- EvalMinus: its own contract states only the stack discipline and a non-symbol value. The value of `-` is stated by `MinusOfOperands`.
- EvalEq: its own contract states only the stack discipline and a non-symbol value. The value of `eq?` is stated by `EqOfOperands`.
- EarlyLisp.Apply: the built-ins are the three closures the default environment installs, named by a tag. An arbitrary function pointer supplied by a caller is not modelled.
- ScopeChain.CallScope: adds the parameters in an arbitrary key order rather than the dictionary's insertion order; the resulting table is the same.
- Parser.Parse: the iterator is a fixed token sequence with a position. The tokeniser that produces it is in `src/main.rs`.
