/** Expressions of the current evaluator (src/lisp.rs), its error kinds, the
    outcome of an evaluation step, and the helpers that take an expression
    apart by variant. */
module LispValues {

  /** One node of a program and, after evaluation, one value. */
  datatype Expr =
    | Symbol(name: string)
    | Integer(n: int)
    | List(items: seq<Expr>)
    | Bool(b: bool)
    | Func(func: LispFunc)
    | Null

  /** A user procedure: its parameter list as written and its single body form. */
  datatype LispFunc = LispFunc(params: seq<Expr>, body: Expr)

  datatype LispErr = ArityMismatch | NameError | TypeError(detail: string)

  /** What an evaluation gives back. `Ok` and `Err` are the two arms of the
      source's `Result`; `Loops` stands for a lookup that never returns
      (an alias cycle), and `OutOfFuel` for a run that the model's fuel bound
      cut short. */
  datatype Outcome<+T> = Ok(value: T) | Err(error: LispErr) | Loops | OutOfFuel
  {
    /** Hands a failure on unchanged, at another value type (the source's `?`). */
    function Propagate<U>(): (r: Outcome<U>)
      requires !Ok?
      ensures !r.Ok?
      ensures Err? <==> r.Err?
      ensures Err? ==> r.error == error
      ensures Loops? <==> r.Loops?
    {
      match this
      case Err(e) => Err(e)
      case Loops => Loops
      case OutOfFuel => OutOfFuel
    }
  }

  /** A program the source can evaluate without panicking: nowhere in it is a
      procedure definition with an empty head, `(define () body ...)`, on
      which the source indexes an empty vector once the element count check
      has passed. The condition is syntactic: it also rules out such a
      definition in a position that is never evaluated. */
  ghost predicate Safe(e: Expr) {
    match e
    case List(items) =>
      && (forall i | 0 <= i < |items| :: Safe(items[i]))
      && !(|items| >= 3 && items[0] == Symbol("define") && items[1] == List([]))
    case Func(f) => Safe(f.body)
    case _ => true
  }

  function ExtractList(e: Expr): (r: Outcome<seq<Expr>>)
    ensures r.Ok? || r.Err?
    ensures r.Ok? <==> e.List?
    ensures r.Ok? ==> e == List(r.value)
    ensures r.Err? ==> r.error == TypeError("expected list")
  {
    match e
    case List(l) => Ok(l)
    case _ => Err(TypeError("expected list"))
  }

  function ExtractSymbol(e: Expr): (r: Outcome<string>)
    ensures r.Ok? || r.Err?
    ensures r.Ok? <==> e.Symbol?
    ensures r.Ok? ==> e == Symbol(r.value)
    ensures r.Err? ==> r.error == TypeError("expected symbol")
  {
    match e
    case Symbol(s) => Ok(s)
    case _ => Err(TypeError("expected symbol"))
  }

  function ExtractInt(e: Expr): (r: Outcome<int>)
    ensures r.Ok? || r.Err?
    ensures r.Ok? <==> e.Integer?
    ensures r.Ok? ==> e == Integer(r.value)
    ensures r.Err? ==> r.error == TypeError("expected integer")
  {
    match e
    case Integer(n) => Ok(n)
    case _ => Err(TypeError("expected integer"))
  }

  function ExtractBool(e: Expr): (r: Outcome<bool>)
    ensures r.Ok? || r.Err?
    ensures r.Ok? <==> e.Bool?
    ensures r.Ok? ==> e == Bool(r.value)
    ensures r.Err? ==> r.error == TypeError("expected bool")
  {
    match e
    case Bool(b) => Ok(b)
    case _ => Err(TypeError("expected bool"))
  }

  function ExtractFn(e: Expr): (r: Outcome<LispFunc>)
    ensures r.Ok? || r.Err?
    ensures r.Ok? <==> e.Func?
    ensures r.Ok? ==> e == Func(r.value)
    ensures r.Err? ==> r.error == TypeError("expected function")
  {
    match e
    case Func(f) => Ok(f)
    case _ => Err(TypeError("expected function"))
  }

  /** The head of a list, or the expression itself when it is not a list.
      The source indexes the list unchecked, so an empty list is excluded. */
  function ExtractFirst(e: Expr): (r: Expr)
    requires e.List? ==> |e.items| > 0
    ensures e.List? ==> r == e.items[0]
    ensures !e.List? ==> r == e
  {
    match e
    case List(v) => v[0]
    case _ => e
  }

  /** The comparison behind `eq?`: equal payloads of the same variant, for
      integers, symbols and booleans only; every other pair is unequal. */
  function EqValues(lhs: Expr, rhs: Expr): (r: bool)
    ensures r <==> lhs == rhs && (lhs.Integer? || lhs.Symbol? || lhs.Bool?)
  {
    match (lhs, rhs)
    case (Integer(l), Integer(r)) => l == r
    case (Symbol(l), Symbol(r)) => l == r
    case (Bool(l), Bool(r)) => l == r
    case _ => false
  }
}
