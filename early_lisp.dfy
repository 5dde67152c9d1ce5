/** The earlier evaluator (src/lib.rs): one flat map of bindings, host
    built-ins for `+`, `-` and `*`, and an `eval` that applies the head of a
    list to its evaluated arguments. The built-ins are function pointers in
    the source; here they are the tags of `Builtin`, each given its meaning
    by a fold and performed by a loop method proved against that fold. */
module EarlyLisp {

  datatype Builtin = Add | Sub | Mul

  datatype Expr =
    | Symbol(name: string)
    | Integer(n: int)
    | List(items: seq<Expr>)
    | Func(op: Builtin)

  /** The source's `Result<LispExpr, String>`. */
  datatype Result<+T> = Ok(value: T) | Err(msg: string)

  type Bindings = map<string, Expr>

  const NotFound := "Symbol not found in environment"
  const NotAFunction := "First element not a function"

  /** An expression the source evaluates without panicking: it holds no
      empty list, whose first element the source would index. */
  predicate Evaluable(e: Expr) {
    match e
    case List(items) => |items| > 0 && forall i | 0 <= i < |items| :: Evaluable(items[i])
    case _ => true
  }

  // --------------------------------------------------------- the built-ins

  /** The integer arguments, in order; every other argument is skipped. */
  function Integers(args: seq<Expr>): (r: seq<int>)
    ensures |r| <= |args|
    ensures (forall i | 0 <= i < |args| :: args[i].Integer?) ==>
              |r| == |args| && forall i | 0 <= i < |args| :: r[i] == args[i].n
  {
    if |args| == 0 then []
    else
      var last := args[|args| - 1];
      Integers(args[..|args| - 1]) + (if last.Integer? then [last.n] else [])
  }

  /** `ans += n` from 0. */
  function Sum(ns: seq<int>): int {
    if |ns| == 0 then 0 else Sum(ns[..|ns| - 1]) + ns[|ns| - 1]
  }

  /** `ans -= n` from 0. */
  function Difference(ns: seq<int>): int {
    if |ns| == 0 then 0 else Difference(ns[..|ns| - 1]) - ns[|ns| - 1]
  }

  /** `ans *= n` from 1. */
  function Product(ns: seq<int>): int {
    if |ns| == 0 then 1 else Product(ns[..|ns| - 1]) * ns[|ns| - 1]
  }

  /** What each built-in returns for its evaluated arguments. */
  function Apply(op: Builtin, args: seq<Expr>): (r: Expr)
    ensures r.Integer?
  {
    match op
    case Add => Integer(Sum(Integers(args)))
    case Sub => Integer(Difference(Integers(args)))
    case Mul => Integer(Product(Integers(args)))
  }

  /** The integers among `args[..i + 1]` are those among `args[..i]` and
      possibly `args[i]`. */
  lemma IntegersStep(args: seq<Expr>, i: nat)
    requires i < |args|
    ensures Integers(args[..i + 1])
            == Integers(args[..i]) + (if args[i].Integer? then [args[i].n] else [])
  {
    assert args[..i + 1][..i] == args[..i];
  }

  /** The built-in bound to `+`. */
  method AddAll(args: seq<Expr>) returns (r: Expr)
    ensures r == Integer(Sum(Integers(args)))
  {
    var ans := 0;
    var i := 0;
    while i < |args|
      invariant 0 <= i <= |args|
      invariant ans == Sum(Integers(args[..i]))
    {
      IntegersStep(args, i);
      ghost var before := Integers(args[..i]);
      match args[i] {
        case Integer(n) =>
          assert (before + [n])[..|before|] == before;
          assert Sum(before + [n]) == Sum(before) + n;
          ans := ans + n;
        case _ =>
          assert Integers(args[..i + 1]) == before;
      }
      i := i + 1;
    }
    assert args[..i] == args;
    r := Integer(ans);
  }

  /** The built-in bound to `-`. */
  method SubtractAll(args: seq<Expr>) returns (r: Expr)
    ensures r == Integer(Difference(Integers(args)))
  {
    var ans := 0;
    var i := 0;
    while i < |args|
      invariant 0 <= i <= |args|
      invariant ans == Difference(Integers(args[..i]))
    {
      IntegersStep(args, i);
      ghost var before := Integers(args[..i]);
      match args[i] {
        case Integer(n) =>
          assert (before + [n])[..|before|] == before;
          assert Difference(before + [n]) == Difference(before) - n;
          ans := ans - n;
        case _ =>
          assert Integers(args[..i + 1]) == before;
      }
      i := i + 1;
    }
    assert args[..i] == args;
    r := Integer(ans);
  }

  /** The built-in bound to `*`. */
  method MultiplyAll(args: seq<Expr>) returns (r: Expr)
    ensures r == Integer(Product(Integers(args)))
  {
    var ans := 1;
    var i := 0;
    while i < |args|
      invariant 0 <= i <= |args|
      invariant ans == Product(Integers(args[..i]))
    {
      IntegersStep(args, i);
      ghost var before := Integers(args[..i]);
      match args[i] {
        case Integer(n) =>
          assert (before + [n])[..|before|] == before;
          assert Product(before + [n]) == Product(before) * n;
          ans := ans * n;
        case _ =>
          assert Integers(args[..i + 1]) == before;
      }
      i := i + 1;
    }
    assert args[..i] == args;
    r := Integer(ans);
  }

  /** Calling the function pointer `f(args)`. */
  method Invoke(op: Builtin, args: seq<Expr>) returns (r: Expr)
    ensures r == Apply(op, args)
  {
    match op
    case Add => r := AddAll(args);
    case Sub => r := SubtractAll(args);
    case Mul => r := MultiplyAll(args);
  }

  // ------------------------------------------------------------- evaluation

  /** `eval`: a symbol is looked up, integers and built-ins stand for
      themselves, and a list applies its evaluated head to its evaluated
      arguments. */
  function Eval(e: Expr, env: Bindings): (r: Result<Expr>)
    requires Evaluable(e)
    ensures r.Ok? && e.List? ==> r.value.Integer?
    decreases e
  {
    match e
    case Symbol(s) => if s in env then Ok(env[s]) else Err(NotFound)
    case Integer(_) => Ok(e)
    case Func(_) => Ok(e)
    case List(items) =>
      var first := Eval(items[0], env);
      if first.Err? then Err(first.msg)
      else if !first.value.Func? then Err(NotAFunction)
      else
        var args := EvalArgs(items, 1, env, []);
        if args.Err? then Err(args.msg)
        else Ok(Apply(first.value.op, args.value))
  }

  /** The argument loop of `eval` from element `i` on, with the values
      collected so far in `acc`: it stops at the first error. */
  function EvalArgs(items: seq<Expr>, i: nat, env: Bindings, acc: seq<Expr>): (r: Result<seq<Expr>>)
    requires i <= |items| && forall j | 0 <= j < |items| :: Evaluable(items[j])
    ensures r.Ok? ==> |r.value| == |acc| + |items| - i && r.value[..|acc|] == acc
    decreases items, |items| - i
  {
    if i == |items| then Ok(acc)
    else
      var a := Eval(items[i], env);
      if a.Err? then Err(a.msg)
      else EvalArgs(items, i + 1, env, acc + [a.value])
  }

  /** `LispEnv`: the flat map of bindings. */
  class LispEnv {
    var data: Bindings

    /** `LispEnv::new`: no bindings. */
    constructor New()
      ensures data == map[]
    {
      data := map[];
    }

    /** `LispEnv::default`: the three built-ins under their names. */
    constructor Default()
      ensures data == DefaultBindings()
    {
      data := map[];
      new;
      Insert("+", Func(Add));
      Insert("-", Func(Sub));
      Insert("*", Func(Mul));
    }

    /** `insert`: add or overwrite one name. */
    method Insert(name: string, e: Expr)
      modifies this
      ensures data == old(data)[name := e]
    {
      data := data[name := e];
    }
  }

  function DefaultBindings(): Bindings {
    map["+" := Func(Add), "-" := Func(Sub), "*" := Func(Mul)]
  }

  /** `eval` on a `LispEnv`: it reads the bindings and changes nothing, and
      collects the arguments in a loop. */
  method Evaluate(e: Expr, env: LispEnv) returns (r: Result<Expr>)
    requires Evaluable(e)
    ensures r == Eval(e, env.data)
    decreases e
  {
    match e
    case Symbol(s) =>
      if s in env.data {
        r := Ok(env.data[s]);
      } else {
        r := Err(NotFound);
      }
    case Integer(_) =>
      r := Ok(e);
    case Func(_) =>
      r := Ok(e);
    case List(list) =>
      var first := Evaluate(list[0], env);
      if first.Err? {
        return Err(first.msg);
      }
      if !first.value.Func? {
        return Err(NotAFunction);
      }
      var args: seq<Expr> := [];
      var i := 1;
      while i < |list|
        invariant 1 <= i <= |list|
        invariant EvalArgs(list, i, env.data, args) == EvalArgs(list, 1, env.data, [])
      {
        var a := Evaluate(list[i], env);
        if a.Err? {
          return Err(a.msg);
        }
        args := args + [a.value];
        i := i + 1;
      }
      var value := Invoke(first.value.op, args);
      r := Ok(value);
  }
}
