/** `LispExpr::eval` and `LispFunc::call` (src/lisp.rs) as methods that
    update a `LispEnv` in place. Each one is proved to produce exactly the
    outcome and the frame stack that `LispEvaluator` gives it. */
module LispInterpreter {
  import opened LispValues
  import opened LispEnvironment
  import opened LispEvaluator

  method EvalExpr(e: Expr, env: LispEnv, fuel: nat) returns (r: Outcome<Expr>)
    requires Ready(env.stack) && Safe(e)
    modifies env
    ensures Run(r, env.stack) == Eval(e, old(env.stack), fuel)
    decreases fuel, 0, 0
  {
    match e
    case Symbol(s) =>
      var found := env.Get(s);
      match found {
        case Found(v) => r := Ok(v);
        case Unbound => r := Err(NameError);
        case Cycle => r := Loops;
      }
    case List(items) =>
      if |items| == 0 {
        return Ok(Null);
      }
      var head := ExtractSymbol(items[0]);
      if !head.Ok? {
        return head.Propagate();
      }
      if fuel == 0 {
        return OutOfFuel;
      }
      r := EvalFormIn(items, env, fuel - 1);
    case _ =>
      r := Ok(e);
  }

  method EvalFormIn(items: seq<Expr>, env: LispEnv, f: nat) returns (r: Outcome<Expr>)
    requires |items| >= 1 && items[0].Symbol?
    requires Ready(env.stack) && Safe(List(items))
    modifies env
    ensures Run(r, env.stack) == EvalForm(items, old(env.stack), f)
    decreases f, 4, 0
  {
    var head := items[0].name;
    if head == "+" {
      r := EvalFoldIn(Sum, items, env, f);
    } else if head == "*" {
      r := EvalFoldIn(Product, items, env, f);
    } else if head == "-" {
      r := EvalMinusIn(items, env, f);
    } else if head == "eq?" {
      r := EvalEqIn(items, env, f);
    } else if head == "define" {
      r := EvalDefineIn(items, env);
    } else if head == "if" {
      r := EvalIfIn(items, env, f);
    } else {
      r := EvalApplyIn(items, env, f);
    }
  }

  /** `+` and `*`: the operands are evaluated and collected one by one, and
      collecting stops at the first failure. */
  method EvalFoldIn(op: Fold, items: seq<Expr>, env: LispEnv, f: nat) returns (r: Outcome<Expr>)
    requires |items| >= 1
    requires Ready(env.stack) && Safe(List(items))
    modifies env
    ensures Run(r, env.stack) == EvalFold(op, items, old(env.stack), f)
    decreases f, 3, 0
  {
    if |items| < 2 {
      return Err(ArityMismatch);
    }
    var ns: seq<int> := [];
    var i := 1;
    while i < |items|
      invariant 1 <= i <= |items|
      invariant Ready(env.stack)
      invariant EvalInts(items, i, env.stack, f, ns) == EvalInts(items, 1, old(env.stack), f, [])
      decreases |items| - i
    {
      var a := EvalExpr(items[i], env, f);
      if !a.Ok? {
        return a.Propagate();
      }
      var n := ExtractInt(a.value);
      if !n.Ok? {
        return n.Propagate();
      }
      ns := ns + [n.value];
      i := i + 1;
    }
    r := Ok(Integer(Total(op, ns)));
  }

  method EvalMinusIn(items: seq<Expr>, env: LispEnv, f: nat) returns (r: Outcome<Expr>)
    requires Ready(env.stack) && Safe(List(items))
    modifies env
    ensures Run(r, env.stack) == EvalMinus(items, old(env.stack), f)
    decreases f, 3, 0
  {
    if |items| != 3 {
      return Err(ArityMismatch);
    }
    var a := EvalExpr(items[1], env, f);
    if !a.Ok? {
      return a.Propagate();
    }
    var first := ExtractInt(a.value);
    if !first.Ok? {
      return first.Propagate();
    }
    var b := EvalExpr(items[2], env, f);
    if !b.Ok? {
      return b.Propagate();
    }
    var second := ExtractInt(b.value);
    if !second.Ok? {
      return second.Propagate();
    }
    r := Ok(Integer(first.value - second.value));
  }

  method EvalEqIn(items: seq<Expr>, env: LispEnv, f: nat) returns (r: Outcome<Expr>)
    requires Ready(env.stack) && Safe(List(items))
    modifies env
    ensures Run(r, env.stack) == EvalEq(items, old(env.stack), f)
    decreases f, 3, 0
  {
    if |items| != 3 {
      return Err(ArityMismatch);
    }
    var lhs := EvalExpr(items[1], env, f);
    if !lhs.Ok? {
      return lhs.Propagate();
    }
    var rhs := EvalExpr(items[2], env, f);
    if !rhs.Ok? {
      return rhs.Propagate();
    }
    r := Ok(Bool(EqValues(lhs.value, rhs.value)));
  }

  method EvalDefineIn(items: seq<Expr>, env: LispEnv) returns (r: Outcome<Expr>)
    requires |items| >= 1 && items[0] == Symbol("define")
    requires Ready(env.stack) && Safe(List(items))
    modifies env
    ensures Run(r, env.stack) == EvalDefine(items, old(env.stack))
  {
    if |items| < 3 {
      return Err(ArityMismatch);
    }
    match items[1]
    case Symbol(s) =>
      env.Insert(s, items[2]);
      r := Ok(Null);
    case List(lst) =>
      var fname := ExtractSymbol(lst[0]);
      if !fname.Ok? {
        return fname.Propagate();
      }
      env.Insert(fname.value, Func(LispFunc(lst[1..], items[2])));
      r := Ok(Null);
    case _ =>
      r := Err(TypeError("invalid syntax"));
  }

  method EvalIfIn(items: seq<Expr>, env: LispEnv, f: nat) returns (r: Outcome<Expr>)
    requires Ready(env.stack) && Safe(List(items))
    modifies env
    ensures Run(r, env.stack) == EvalIf(items, old(env.stack), f)
    decreases f, 3, 0
  {
    if |items| != 4 {
      return Err(ArityMismatch);
    }
    var c := EvalExpr(items[1], env, f);
    if !c.Ok? {
      return c.Propagate();
    }
    var cond := ExtractBool(c.value);
    if !cond.Ok? {
      return cond.Propagate();
    }
    if cond.value {
      r := EvalExpr(items[2], env, f);
    } else {
      r := EvalExpr(items[3], env, f);
    }
  }

  method EvalApplyIn(items: seq<Expr>, env: LispEnv, f: nat) returns (r: Outcome<Expr>)
    requires |items| >= 1
    requires Ready(env.stack) && Safe(List(items))
    modifies env
    ensures Run(r, env.stack) == EvalApply(items, old(env.stack), f)
    decreases f, 3, 0
  {
    var h := EvalExpr(items[0], env, f);
    if !h.Ok? {
      return h.Propagate();
    }
    var func := ExtractFn(h.value);
    if !func.Ok? {
      return func.Propagate();
    }
    var args := items[1..];
    if |args| != |func.value.params| {
      return Err(ArityMismatch);
    }
    r := CallIn(func.value, args, env, f);
  }

  /** `LispFunc::call`. */
  method CallIn(fn: LispFunc, args: seq<Expr>, env: LispEnv, f: nat) returns (r: Outcome<Expr>)
    requires |args| == |fn.params|
    requires Ready(env.stack) && Safe(fn.body) && forall j | 0 <= j < |args| :: Safe(args[j])
    modifies env
    ensures Run(r, env.stack) == Call(fn, args, old(env.stack), f)
    decreases f, 2, 0
  {
    env.NewFrame();
    var i := 0;
    while i < |fn.params|
      invariant 0 <= i <= |fn.params|
      invariant Ready(env.stack)
      invariant BindParams(fn, args, i, env.stack, f) == BindParams(fn, args, 0, Push(old(env.stack)), f)
      decreases |fn.params| - i
    {
      var a := EvalExpr(args[i], env, f);
      if !a.Ok? {
        return a.Propagate();
      }
      var name := ExtractSymbol(fn.params[i]);
      if !name.Ok? {
        return name.Propagate();
      }
      env.Insert(name.value, a.value);
      i := i + 1;
    }
    r := EvalExpr(fn.body, env, f);
    env.PopFrame();
  }
}
