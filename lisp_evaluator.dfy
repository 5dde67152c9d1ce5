/** The meaning of `LispExpr::eval` and `LispFunc::call` (src/lisp.rs) as
    functions from an expression and a frame stack to an outcome and the new
    frame stack. Every special form is intercepted by its head symbol before
    any general call; a general call pushes its frame onto the one shared
    stack, so a procedure body sees its caller's frames (dynamic scope).

    Evaluation need not terminate, so every function carries `fuel`: only the
    evaluation of a non-empty list spends one unit, and running out yields
    `OutOfFuel`. */
module LispEvaluator {
  import opened LispValues
  import opened LispEnvironment

  /** An outcome together with the frame stack it leaves behind. */
  datatype Run<+T> = Run(out: Outcome<T>, stack: Stack)

  /** A stack the evaluator may start from: not empty, and holding nothing
      that would make the source panic. */
  ghost predicate Ready(st: Stack) {
    |st| >= 1 && StackSafe(st)
  }

  /** What any evaluation step does to the stack: it may leave frames above
      the caller's top frame, but never pops below it and never touches the
      frames under that top frame. */
  ghost predicate Grows(st: Stack, st': Stack) {
    && |st| >= 1
    && |st'| >= |st|
    && (forall i | 0 <= i < |st| - 1 :: st'[i] == st[i])
    && StackSafe(st')
  }

  /** A step that returns normally leaves exactly as many frames as it found. */
  ghost predicate Sound<T>(st: Stack, r: Run<T>) {
    Grows(st, r.stack) && (r.out.Ok? ==> |r.stack| == |st|)
  }

  /** A value that evaluation hands back is never a symbol and can itself be
      stored and evaluated again without a panic. */
  ghost predicate GoodValue(r: Run<Expr>) {
    r.out.Ok? ==> Safe(r.out.value) && !r.out.value.Symbol?
  }

  /** `LispExpr::eval`. */
  function Eval(e: Expr, st: Stack, fuel: nat): (r: Run<Expr>)
    requires Ready(st) && Safe(e)
    ensures Sound(st, r) && GoodValue(r)
    decreases fuel, 0, 0
  {
    match e
    case Symbol(s) =>
      (match Resolve(st, s)
       case Found(v) => Run(Ok(v), st)
       case Unbound => Run(Err(NameError), st)
       case Cycle => Run(Loops, st))
    case List(items) =>
      if |items| == 0 then Run(Ok(Null), st)
      else if !items[0].Symbol? then Run(Err(TypeError("expected symbol")), st)
      else if fuel == 0 then Run(OutOfFuel, st)
      else EvalForm(items, st, fuel - 1)
    case _ => Run(Ok(e), st)
  }

  /** The dispatch on the head symbol of a non-empty list. */
  function EvalForm(items: seq<Expr>, st: Stack, f: nat): (r: Run<Expr>)
    requires |items| >= 1 && items[0].Symbol?
    requires Ready(st) && Safe(List(items))
    ensures Sound(st, r) && GoodValue(r)
    decreases f, 4, 0
  {
    var head := items[0].name;
    if head == "+" then EvalFold(Sum, items, st, f)
    else if head == "*" then EvalFold(Product, items, st, f)
    else if head == "-" then EvalMinus(items, st, f)
    else if head == "eq?" then EvalEq(items, st, f)
    else if head == "define" then EvalDefine(items, st)
    else if head == "if" then EvalIf(items, st, f)
    else EvalApply(items, st, f)
  }

  /** `+` folds with sum, `*` with product. */
  datatype Fold = Sum | Product

  /** The fold of `ns` from the left, starting at 0 for a sum and 1 for a product. */
  function Total(op: Fold, ns: seq<int>): (r: int)
    ensures |ns| == 0 ==> r == (if op == Sum then 0 else 1)
    ensures |ns| == 1 ==> r == ns[0]
  {
    if |ns| == 0 then (if op == Sum then 0 else 1)
    else if op == Sum then Total(op, ns[..|ns| - 1]) + ns[|ns| - 1]
    else Total(op, ns[..|ns| - 1]) * ns[|ns| - 1]
  }

  /** `(+ a ...)` and `(* a ...)`: at least one operand, each evaluated in
      turn and required to be an integer. */
  function EvalFold(op: Fold, items: seq<Expr>, st: Stack, f: nat): (r: Run<Expr>)
    requires |items| >= 1
    requires Ready(st) && Safe(List(items))
    ensures Sound(st, r) && GoodValue(r)
    decreases f, 3, 0
  {
    if |items| < 2 then Run(Err(ArityMismatch), st)
    else
      var ints := EvalInts(items, 1, st, f, []);
      if !ints.out.Ok? then Run(ints.out.Propagate(), ints.stack)
      else Run(Ok(Integer(Total(op, ints.out.value))), ints.stack)
  }

  /** Evaluates `items[i..]` in order, appending each integer to `acc`, and
      stops at the first failure or the first non-integer. */
  function EvalInts(items: seq<Expr>, i: nat, st: Stack, f: nat, acc: seq<int>): (r: Run<seq<int>>)
    requires i <= |items|
    requires Ready(st) && forall j | 0 <= j < |items| :: Safe(items[j])
    ensures Sound(st, r)
    ensures r.out.Ok? ==> |r.out.value| == |acc| + |items| - i && r.out.value[..|acc|] == acc
    decreases f, 1, |items| - i
  {
    if i == |items| then Run(Ok(acc), st)
    else
      var a := Eval(items[i], st, f);
      if !a.out.Ok? then Run(a.out.Propagate(), a.stack)
      else
        var n := ExtractInt(a.out.value);
        if !n.Ok? then Run(n.Propagate(), a.stack)
        else EvalInts(items, i + 1, a.stack, f, acc + [n.value])
  }

  /** `(- a b)`: exactly two operands, both integers. */
  function EvalMinus(items: seq<Expr>, st: Stack, f: nat): (r: Run<Expr>)
    requires Ready(st) && Safe(List(items))
    ensures Sound(st, r) && GoodValue(r)
    decreases f, 3, 0
  {
    if |items| != 3 then Run(Err(ArityMismatch), st)
    else
      var a := Eval(items[1], st, f);
      if !a.out.Ok? then Run(a.out.Propagate(), a.stack)
      else
        var x := ExtractInt(a.out.value);
        if !x.Ok? then Run(x.Propagate(), a.stack)
        else
          var b := Eval(items[2], a.stack, f);
          if !b.out.Ok? then Run(b.out.Propagate(), b.stack)
          else
            var y := ExtractInt(b.out.value);
            if !y.Ok? then Run(y.Propagate(), b.stack)
            else Run(Ok(Integer(x.value - y.value)), b.stack)
  }

  /** `(eq? a b)`: exactly two operands, compared by `EqValues`. */
  function EvalEq(items: seq<Expr>, st: Stack, f: nat): (r: Run<Expr>)
    requires Ready(st) && Safe(List(items))
    ensures Sound(st, r) && GoodValue(r)
    decreases f, 3, 0
  {
    if |items| != 3 then Run(Err(ArityMismatch), st)
    else
      var a := Eval(items[1], st, f);
      if !a.out.Ok? then Run(a.out.Propagate(), a.stack)
      else
        var b := Eval(items[2], a.stack, f);
        if !b.out.Ok? then Run(b.out.Propagate(), b.stack)
        else Run(Ok(Bool(EqValues(a.out.value, b.out.value))), b.stack)
  }

  /** `(define name e)` stores `e` as written; `(define (name p ...) body)`
      stores a procedure whose body is the third element alone. Both write
      the top frame only. */
  function EvalDefine(items: seq<Expr>, st: Stack): (r: Run<Expr>)
    requires |items| >= 1 && items[0] == Symbol("define")
    requires Ready(st) && Safe(List(items))
    ensures Sound(st, r) && GoodValue(r)
  {
    if |items| < 3 then Run(Err(ArityMismatch), st)
    else match items[1]
      case Symbol(s) => Run(Ok(Null), InsertTop(st, s, items[2]))
      case List(lst) =>
        var fname := ExtractSymbol(lst[0]);
        if !fname.Ok? then Run(fname.Propagate(), st)
        else Run(Ok(Null), InsertTop(st, fname.value, Func(LispFunc(lst[1..], items[2]))))
      case _ => Run(Err(TypeError("invalid syntax")), st)
  }

  /** `(if c a b)`: exactly three operands and a boolean condition; only the
      chosen branch is evaluated. */
  function EvalIf(items: seq<Expr>, st: Stack, f: nat): (r: Run<Expr>)
    requires Ready(st) && Safe(List(items))
    ensures Sound(st, r) && GoodValue(r)
    decreases f, 3, 0
  {
    if |items| != 4 then Run(Err(ArityMismatch), st)
    else
      var c := Eval(items[1], st, f);
      if !c.out.Ok? then Run(c.out.Propagate(), c.stack)
      else
        var b := ExtractBool(c.out.value);
        if !b.Ok? then Run(b.Propagate(), c.stack)
        else if b.value then Eval(items[2], c.stack, f)
        else Eval(items[3], c.stack, f)
  }

  /** A general call: the head must evaluate to a procedure taking exactly as
      many parameters as there are arguments; both are checked before any
      frame is pushed. */
  function EvalApply(items: seq<Expr>, st: Stack, f: nat): (r: Run<Expr>)
    requires |items| >= 1
    requires Ready(st) && Safe(List(items))
    ensures Sound(st, r) && GoodValue(r)
    decreases f, 3, 0
  {
    var h := Eval(items[0], st, f);
    if !h.out.Ok? then Run(h.out.Propagate(), h.stack)
    else
      var fn := ExtractFn(h.out.value);
      if !fn.Ok? then Run(fn.Propagate(), h.stack)
      else if |items| - 1 != |fn.value.params| then Run(Err(ArityMismatch), h.stack)
      else Call(fn.value, items[1..], h.stack, f)
  }

  /** `LispFunc::call`: push a frame, evaluate and bind the arguments inside
      it, evaluate the body, pop one frame. A failure while binding returns
      at once, leaving the pushed frame on the stack. */
  function Call(fn: LispFunc, args: seq<Expr>, st: Stack, f: nat): (r: Run<Expr>)
    requires |args| == |fn.params|
    requires Ready(st) && Safe(fn.body) && forall j | 0 <= j < |args| :: Safe(args[j])
    ensures Sound(st, r) && GoodValue(r)
    decreases f, 2, 0
  {
    var bound := BindParams(fn, args, 0, Push(st), f);
    if !bound.out.Ok? then Run(bound.out.Propagate(), bound.stack)
    else
      var res := Eval(fn.body, bound.stack, f);
      Run(res.out, Pop(res.stack))
  }

  /** The binding loop of `LispFunc::call` from parameter `i` on: evaluate
      argument `i` on the current stack, then require parameter `i` to be a
      symbol, then bind it in the top frame. */
  function BindParams(fn: LispFunc, args: seq<Expr>, i: nat, st: Stack, f: nat): (r: Run<()>)
    requires i <= |args| == |fn.params|
    requires Ready(st) && forall j | 0 <= j < |args| :: Safe(args[j])
    ensures Sound(st, r)
    decreases f, 1, |args| - i
  {
    if i == |args| then Run(Ok(()), st)
    else
      var a := Eval(args[i], st, f);
      if !a.out.Ok? then Run(a.out.Propagate(), a.stack)
      else
        var x := ExtractSymbol(fn.params[i]);
        if !x.Ok? then Run(x.Propagate(), a.stack)
        else BindParams(fn, args, i + 1, InsertTop(a.stack, x.value, a.out.value), f)
  }
}
