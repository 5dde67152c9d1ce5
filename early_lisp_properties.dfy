/** What the earlier evaluator (src/lib.rs) guarantees: the order in which
    `eval` looks at a list, the arithmetic of its built-ins, and the results
    its own test expects. */
module EarlyLispProperties {
  import opened EarlyLisp

  // ------------------------------------------------------------- evaluation

  /** Integers and built-ins evaluate to themselves. */
  lemma SelfEvaluating(e: Expr, env: Bindings)
    requires e.Integer? || e.Func?
    ensures Eval(e, env) == Ok(e)
  {
  }

  /** A symbol evaluates to its binding, or fails when it has none. */
  lemma SymbolLookup(s: string, env: Bindings)
    ensures s in env ==> Eval(Symbol(s), env) == Ok(env[s])
    ensures s !in env ==> Eval(Symbol(s), env) == Err(NotFound)
  {
  }

  /** The head is evaluated before anything else: when it fails, or gives
      something other than a built-in, that decides the result, and the
      arguments are never looked at. */
  lemma HeadFirst(head: Expr, args: seq<Expr>, others: seq<Expr>, env: Bindings)
    requires Evaluable(head)
    requires Evaluable(List([head] + args)) && Evaluable(List([head] + others))
    ensures Eval(head, env).Err? ==> Eval(List([head] + args), env) == Err(Eval(head, env).msg)
    ensures Eval(head, env).Ok? && !Eval(head, env).value.Func? ==>
              Eval(List([head] + args), env) == Err(NotAFunction)
    ensures !(Eval(head, env).Ok? && Eval(head, env).value.Func?) ==>
              Eval(List([head] + args), env) == Eval(List([head] + others), env)
  {
    assert ([head] + args)[0] == head;
    assert ([head] + others)[0] == head;
  }

  /** The argument loop evaluates left to right: it succeeds exactly when
      every remaining argument does, and then holds their values in order
      after those collected before. */
  lemma {:induction false} ArgsLeftToRight(items: seq<Expr>, i: nat, env: Bindings, acc: seq<Expr>)
    requires i <= |items| && forall j | 0 <= j < |items| :: Evaluable(items[j])
    ensures var r := EvalArgs(items, i, env, acc);
      && (r.Ok? <==> forall j | i <= j < |items| :: Eval(items[j], env).Ok?)
      && (r.Ok? ==> forall k | i <= k < |items| :: r.value[|acc| + k - i] == Eval(items[k], env).value)
    decreases |items| - i
  {
    if i < |items| {
      var a := Eval(items[i], env);
      if a.Ok? {
        ArgsLeftToRight(items, i + 1, env, acc + [a.value]);
        var r := EvalArgs(items, i, env, acc);
        assert r == EvalArgs(items, i + 1, env, acc + [a.value]);
        if r.Ok? {
          assert r.value[..|acc| + 1] == acc + [a.value];
        }
      }
    }
  }

  /** When the argument loop fails, its error is that of the first argument
      that fails; the arguments before it all succeeded. */
  lemma {:induction false} ArgsFirstError(items: seq<Expr>, i: nat, env: Bindings, acc: seq<Expr>)
    requires i <= |items| && forall j | 0 <= j < |items| :: Evaluable(items[j])
    ensures var r := EvalArgs(items, i, env, acc);
      r.Err? ==> exists k :: i <= k < |items| && Eval(items[k], env).Err?
                             && r.msg == Eval(items[k], env).msg
                             && forall j | i <= j < k :: Eval(items[j], env).Ok?
    decreases |items| - i
  {
    if i < |items| {
      var a := Eval(items[i], env);
      if a.Ok? {
        ArgsFirstError(items, i + 1, env, acc + [a.value]);
      }
    }
  }

  /** A call whose head gives a built-in and whose arguments all succeed
      applies that built-in to the argument values, in order. */
  lemma CallApplies(items: seq<Expr>, env: Bindings, op: Builtin)
    requires Evaluable(List(items))
    requires Eval(items[0], env) == Ok(Func(op))
    requires forall j | 1 <= j < |items| :: Eval(items[j], env).Ok?
    ensures Eval(List(items), env) == Ok(Apply(op, ArgValues(items, env)))
  {
    ArgsLeftToRight(items, 1, env, []);
    var r := EvalArgs(items, 1, env, []);
    assert r.value == ArgValues(items, env);
  }

  /** The values of the arguments `items[1..]`, when all of them succeed. */
  function ArgValues(items: seq<Expr>, env: Bindings): (r: seq<Expr>)
    requires |items| >= 1
    requires forall j | 0 <= j < |items| :: Evaluable(items[j])
    requires forall j | 1 <= j < |items| :: Eval(items[j], env).Ok?
    ensures |r| == |items| - 1 && forall j | 1 <= j < |items| :: r[j - 1] == Eval(items[j], env).value
  {
    seq(|items| - 1, k requires 0 <= k < |items| - 1 => Eval(items[k + 1], env).value)
  }

  // ------------------------------------------------------------ the built-ins

  lemma {:induction false} IntegersAppend(a: seq<Expr>, b: seq<Expr>)
    ensures Integers(a + b) == Integers(a) + Integers(b)
    decreases |b|
  {
    if |b| > 0 {
      var b' := b[..|b| - 1];
      assert (a + b)[..|a + b| - 1] == a + b';
      assert b[..|b| - 1] == b';
      IntegersAppend(a, b');
    } else {
      assert a + b == a;
    }
  }

  lemma {:induction false} SumAppend(a: seq<int>, b: seq<int>)
    ensures Sum(a + b) == Sum(a) + Sum(b)
    decreases |b|
  {
    if |b| > 0 {
      assert (a + b)[..|a + b| - 1] == a + b[..|b| - 1];
      SumAppend(a, b[..|b| - 1]);
    } else {
      assert a + b == a;
    }
  }

  lemma {:induction false} ProductAppend(a: seq<int>, b: seq<int>)
    ensures Product(a + b) == Product(a) * Product(b)
    decreases |b|
  {
    if |b| > 0 {
      assert (a + b)[..|a + b| - 1] == a + b[..|b| - 1];
      ProductAppend(a, b[..|b| - 1]);
    } else {
      assert a + b == a;
    }
  }

  /** `-` subtracts every argument from 0, so it is the negated sum and not
      the first argument minus the rest. */
  lemma {:induction false} DifferenceIsNegatedSum(ns: seq<int>)
    ensures Difference(ns) == -Sum(ns)
    decreases |ns|
  {
    if |ns| > 0 {
      var init := ns[..|ns| - 1];
      DifferenceIsNegatedSum(init);
      assert Difference(ns) == Difference(init) - ns[|ns| - 1];
      assert Sum(ns) == Sum(init) + ns[|ns| - 1];
    }
  }

  /** A built-in ignores any argument that is not an integer. */
  lemma SkipsNonIntegers(op: Builtin, a: seq<Expr>, x: Expr, b: seq<Expr>)
    requires !x.Integer?
    ensures Apply(op, a + [x] + b) == Apply(op, a + b)
  {
    IntegersSkip(a, x, b);
  }

  lemma IntegersSkip(a: seq<Expr>, x: Expr, b: seq<Expr>)
    requires !x.Integer?
    ensures Integers(a + [x] + b) == Integers(a + b)
  {
    assert [x][..0] == [];
    assert Integers([x]) == [];
    calc {
      Integers(a + [x] + b);
      { IntegersAppend(a + [x], b); }
      Integers(a + [x]) + Integers(b);
      { IntegersAppend(a, [x]); }
      Integers(a) + Integers([x]) + Integers(b);
      Integers(a) + Integers(b);
      { IntegersAppend(a, b); }
      Integers(a + b);
    }
  }

  /** On arguments that are all integers, `+` is their sum, `-` their
      negated sum and `*` their product; with no arguments they give 0, 0
      and 1. */
  lemma OnIntegers(args: seq<Expr>, ns: seq<int>)
    requires |args| == |ns| && forall i | 0 <= i < |args| :: args[i] == Integer(ns[i])
    ensures Apply(Add, args) == Integer(Sum(ns))
    ensures Apply(Sub, args) == Integer(-Sum(ns))
    ensures Apply(Mul, args) == Integer(Product(ns))
    ensures |args| == 0 ==> Apply(Add, args) == Integer(0) == Apply(Sub, args) && Apply(Mul, args) == Integer(1)
  {
    assert Integers(args) == ns;
    DifferenceIsNegatedSum(ns);
  }

  // ------------------------------------------------------ the test's results

  function Plus(a: Expr, b: Expr): Expr { List([Symbol("+"), a, b]) }
  function Minus(a: Expr, b: Expr): Expr { List([Symbol("-"), a, b]) }
  function Times(a: Expr, b: Expr): Expr { List([Symbol("*"), a, b]) }

  /** A built-in named by `name` applied to two operands that evaluate to
      integers. */
  lemma Binary(name: string, op: Builtin, a: Expr, x: int, b: Expr, y: int, env: Bindings)
    requires name in env && env[name] == Func(op)
    requires Evaluable(a) && Eval(a, env) == Ok(Integer(x))
    requires Evaluable(b) && Eval(b, env) == Ok(Integer(y))
    ensures Evaluable(List([Symbol(name), a, b]))
    ensures Eval(List([Symbol(name), a, b]), env) == Ok(Apply(op, [Integer(x), Integer(y)]))
  {
    var items := [Symbol(name), a, b];
    assert items[0] == Symbol(name) && items[1] == a && items[2] == b;
    assert [Integer(x)] + [Integer(y)] == [Integer(x), Integer(y)];
    assert [] + [Integer(x)] == [Integer(x)];
    assert EvalArgs(items, 3, env, [Integer(x), Integer(y)]) == Ok([Integer(x), Integer(y)]);
    assert EvalArgs(items, 2, env, [Integer(x)]) == Ok([Integer(x), Integer(y)]);
    assert EvalArgs(items, 1, env, []) == Ok([Integer(x), Integer(y)]);
    assert Eval(items[0], env) == Ok(Func(op));
  }

  /** The three built-ins on two integers. */
  lemma ApplyTwo(x: int, y: int)
    ensures Apply(Add, [Integer(x), Integer(y)]) == Integer(x + y)
    ensures Apply(Sub, [Integer(x), Integer(y)]) == Integer(-x - y)
    ensures Apply(Mul, [Integer(x), Integer(y)]) == Integer(x * y)
  {
    assert Integers([Integer(x), Integer(y)]) == [x, y];
    FoldsOfTwo(x, y);
  }

  lemma FoldsOfTwo(x: int, y: int)
    ensures Sum([x, y]) == x + y && Difference([x, y]) == -x - y && Product([x, y]) == x * y
  {
    assert [x, y][..1] == [x] && [x][..0] == [];
    assert Product([x]) == 1 * x == x;
    assert Sum([x]) == x;
    assert [x][..|[x]| - 1] == [];
    assert Difference([x]) == Difference([]) - x;
    assert Difference([x]) == -x;
    assert Product([x, y]) == Product([x]) * y;
  }

  /** `(+ (+ 3 5) 4)` is 12. */
  lemma SumOfSum()
    ensures Eval(Plus(Plus(Integer(3), Integer(5)), Integer(4)), DefaultBindings()) == Ok(Integer(12))
  {
    var env := DefaultBindings();
    assert env["+"] == Func(Add);
    Binary("+", Add, Integer(3), 3, Integer(5), 5, env);
    ApplyTwo(3, 5);
    Binary("+", Add, Plus(Integer(3), Integer(5)), 8, Integer(4), 4, env);
    ApplyTwo(8, 4);
  }

  /** `(+ (- 3 5) 4)` is -4: the inner `-` gives 0 - 3 - 5. */
  lemma SumOfDifference()
    ensures Eval(Plus(Minus(Integer(3), Integer(5)), Integer(4)), DefaultBindings()) == Ok(Integer(-4))
  {
    var env := DefaultBindings();
    assert env["+"] == Func(Add) && env["-"] == Func(Sub);
    Binary("-", Sub, Integer(3), 3, Integer(5), 5, env);
    ApplyTwo(3, 5);
    Binary("+", Add, Minus(Integer(3), Integer(5)), -8, Integer(4), 4, env);
    ApplyTwo(-8, 4);
  }

  /** `(* (+ 3 5) 4)` is 32. */
  lemma ProductOfSum()
    ensures Eval(Times(Plus(Integer(3), Integer(5)), Integer(4)), DefaultBindings()) == Ok(Integer(32))
  {
    var env := DefaultBindings();
    assert env["+"] == Func(Add) && env["*"] == Func(Mul);
    Binary("+", Add, Integer(3), 3, Integer(5), 5, env);
    ApplyTwo(3, 5);
    Binary("*", Mul, Plus(Integer(3), Integer(5)), 8, Integer(4), 4, env);
    ApplyTwo(8, 4);
  }
}
