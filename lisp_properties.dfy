/** What the current evaluator (src/lisp.rs) guarantees, and the quirks it
    has as written, stated over the evaluation functions of `LispEvaluator`
    and the lookup of `LispEnvironment`. */
module LispProperties {
  import opened Optional
  import opened LispValues
  import opened LispEnvironment
  import opened LispEvaluator

  /** Integer literals for a sequence of numbers. */
  function Literals(xs: seq<int>): (r: seq<Expr>)
    ensures |r| == |xs| && forall i | 0 <= i < |xs| :: r[i] == Integer(xs[i])
  {
    seq(|xs|, i requires 0 <= i < |xs| => Integer(xs[i]))
  }

  /** The values that evaluate to themselves. */
  predicate Atom(e: Expr) {
    e.Integer? || e.Bool? || e.Null? || e.Func?
  }

  // ---------------------------------------------------------------- atoms

  /** Integers, booleans, `Null` and procedures evaluate to themselves and
      leave the stack alone; the empty list evaluates to `Null`. */
  lemma SelfEvaluating(e: Expr, st: Stack, fuel: nat)
    requires Ready(st) && Safe(e)
    ensures Atom(e) ==> Eval(e, st, fuel) == Run(Ok(e), st)
    ensures e == List([]) ==> Eval(e, st, fuel) == Run(Ok(Null), st)
  {
  }

  /** A list whose head is not a symbol is a type error, whatever follows. */
  lemma NonSymbolHead(items: seq<Expr>, st: Stack, fuel: nat)
    requires Ready(st) && Safe(List(items))
    requires |items| >= 1 && !items[0].Symbol?
    ensures Eval(List(items), st, fuel) == Run(Err(TypeError("expected symbol")), st)
  {
  }

  // --------------------------------------------------------------- lookup

  /** `TopBinding` depends only on the frames it searches. */
  lemma {:induction false} TopBindingOfPrefix(st: Stack, st': Stack, n: nat, name: string)
    requires n <= |st| && n <= |st'| && st[..n] == st'[..n]
    ensures TopBinding(st, n, name) == TopBinding(st', n, name)
  {
    if n > 0 {
      assert st[n - 1] == st[..n][n - 1] == st'[..n][n - 1] == st'[n - 1];
      assert st[..n - 1] == st[..n][..n - 1];
      assert st'[..n - 1] == st'[..n][..n - 1];
      TopBindingOfPrefix(st, st', n - 1, name);
    }
  }

  /** Two stacks that agree on every name's topmost binding resolve every
      name alike. */
  lemma {:induction false} ResolveBySameBindings(st: Stack, st': Stack, name: string, visited: set<string>)
    requires forall m :: TopBinding(st, |st|, m) == TopBinding(st', |st'|, m)
    ensures ResolveFrom(st, name, visited) == ResolveFrom(st', name, visited)
    decreases Names(st) - visited
  {
    if name !in visited {
      var b := TopBinding(st, |st|, name);
      assert b == TopBinding(st', |st'|, name);
      if b.Some? && b.value.Symbol? {
        assert name in Names(st);
        ResolveBySameBindings(st, st', b.value.name, visited + {name});
      }
    }
  }

  /** The empty frame a call pushes hides nothing: lookups see through it. */
  lemma ResolveThroughEmptyFrame(st: Stack, name: string)
    ensures Resolve(Push(st), name) == Resolve(st, name)
  {
    forall m ensures TopBinding(Push(st), |Push(st)|, m) == TopBinding(st, |st|, m) {
      assert Push(st)[..|st|] == st[..|st|];
      TopBindingOfPrefix(Push(st), st, |st|, m);
    }
    ResolveBySameBindings(Push(st), st, name, {});
  }

  /** The topmost frame that binds a name decides its value; a name no frame
      binds is unbound. */
  lemma ResolveTopmost(st: Stack, name: string)
    ensures TopBinding(st, |st|, name).None? ==> Resolve(st, name) == Unbound
    ensures TopBinding(st, |st|, name).Some? && !TopBinding(st, |st|, name).value.Symbol?
            ==> Resolve(st, name) == Found(TopBinding(st, |st|, name).value)
  {
    assert Resolve(st, name) == ResolveFrom(st, name, {});
  }

  /** Chasing from `name` comes out the same whether or not `pred`, a name
      whose binding points back at `name` or into the chain already walked,
      counts as visited. */
  lemma {:induction false} ChaseIgnoresPredecessor(st: Stack, name: string, visited: set<string>, pred: string)
    requires pred !in visited
    requires TopBinding(st, |st|, pred).Some? && TopBinding(st, |st|, pred).value.Symbol?
    requires TopBinding(st, |st|, pred).value.name == name || TopBinding(st, |st|, pred).value.name in visited
    ensures ResolveFrom(st, name, visited + {pred}) == ResolveFrom(st, name, visited)
    decreases Names(st) - visited
  {
    if name in visited {
    } else if name == pred {
      var next := TopBinding(st, |st|, pred).value.name;
      assert pred in Names(st);
      assert next in visited + {pred};
      assert ResolveFrom(st, next, visited + {pred}) == Cycle;
      assert ResolveFrom(st, name, visited) == ResolveFrom(st, next, visited + {pred});
    } else {
      var b := TopBinding(st, |st|, name);
      if b.Some? && b.value.Symbol? {
        assert name in Names(st);
        assert name !in visited + {pred};
        ChaseIgnoresPredecessor(st, b.value.name, visited + {name}, pred);
        assert visited + {pred} + {name} == visited + {name} + {pred};
        calc {
          ResolveFrom(st, name, visited + {pred});
          ResolveFrom(st, b.value.name, visited + {pred} + {name});
          ResolveFrom(st, b.value.name, visited + {name});
          ResolveFrom(st, name, visited);
        }
      }
    }
  }

  /** Symbol chasing: a name bound to a symbol looks up exactly like that
      symbol, including when the aliases form a cycle. */
  lemma AliasResolvesAsTarget(st: Stack, x: string, y: string)
    requires TopBinding(st, |st|, x) == Some(Symbol(y))
    ensures Resolve(st, x) == Resolve(st, y)
  {
    assert x in Names(st);
    ChaseIgnoresPredecessor(st, y, {}, x);
    assert {} + {x} == {x};
  }

  /** `(define x x)` makes every lookup of `x` chase for ever. */
  lemma SelfAliasLoops(st: Stack, x: string)
    requires TopBinding(st, |st|, x) == Some(Symbol(x))
    ensures Resolve(st, x) == Cycle
  {
    assert x in Names(st);
    assert ResolveFrom(st, x, {x}) == Cycle;
    assert Resolve(st, x) == ResolveFrom(st, x, {}) == ResolveFrom(st, x, {x});
  }

  /** Evaluating a symbol only reads the stack. */
  lemma SymbolLookup(s: string, st: Stack, fuel: nat)
    requires Ready(st)
    ensures Eval(Symbol(s), st, fuel).stack == st
    ensures Resolve(st, s).Unbound? ==> Eval(Symbol(s), st, fuel).out == Err(NameError)
    ensures Resolve(st, s).Found? ==> Eval(Symbol(s), st, fuel).out == Ok(Resolve(st, s).value)
  {
  }

  // ------------------------------------------------------------ arithmetic

  function OpName(op: Fold): string {
    if op == Sum then "+" else "*"
  }

  /** Integer operands from `i` on are collected in order, stack untouched. */
  lemma {:induction false} IntsOfLiterals(items: seq<Expr>, i: nat, st: Stack, f: nat, acc: seq<int>, xs: seq<int>)
    requires i <= |items| && items[i..] == Literals(xs)
    requires Ready(st) && forall j | 0 <= j < |items| :: Safe(items[j])
    ensures EvalInts(items, i, st, f, acc) == Run(Ok(acc + xs), st)
    decreases |items| - i
  {
    if i < |items| {
      assert items[i] == items[i..][0] == Integer(xs[0]);
      assert Eval(items[i], st, f) == Run(Ok(Integer(xs[0])), st);
      assert EvalInts(items, i, st, f, acc) == EvalInts(items, i + 1, st, f, acc + [xs[0]]);
      assert items[i + 1..] == items[i..][1..];
      assert Literals(xs)[1..] == Literals(xs[1..]);
      IntsOfLiterals(items, i + 1, st, f, acc + [xs[0]], xs[1..]);
      assert acc + [xs[0]] + xs[1..] == acc + xs;
    } else {
      assert |xs| == 0 && acc + xs == acc;
    }
  }

  /** `(+ n ...)` is the sum and `(* n ...)` the product of its integer
      operands; with no operand at all it is an arity error. */
  lemma FoldOfIntegers(op: Fold, xs: seq<int>, st: Stack, fuel: nat)
    requires Ready(st)
    ensures Eval(List([Symbol(OpName(op))] + Literals(xs)), st, fuel + 1)
            == if |xs| == 0 then Run(Err(ArityMismatch), st) else Run(Ok(Integer(Total(op, xs))), st)
  {
    var items := [Symbol(OpName(op))] + Literals(xs);
    assert Safe(List(items));
    assert Eval(List(items), st, fuel + 1) == EvalForm(items, st, fuel) == EvalFold(op, items, st, fuel);
    if |xs| > 0 {
      assert items[1..] == Literals(xs);
      IntsOfLiterals(items, 1, st, fuel, [], xs);
    }
  }

  /** The operands are checked left to right: the first one that is an atom
      but not an integer is a type error, and nothing after it is looked at. */
  lemma {:induction false} IntsStopAtNonInteger(items: seq<Expr>, i: nat, k: nat, st: Stack, f: nat, acc: seq<int>)
    requires i <= k < |items|
    requires forall j | i <= j < k :: items[j].Integer?
    requires Atom(items[k]) && !items[k].Integer?
    requires Ready(st) && forall j | 0 <= j < |items| :: Safe(items[j])
    ensures EvalInts(items, i, st, f, acc) == Run(Err(TypeError("expected integer")), st)
    decreases k - i
  {
    if i < k {
      IntsStopAtNonInteger(items, i + 1, k, st, f, acc + [items[i].n]);
    }
  }

  lemma FoldStopsAtNonInteger(op: Fold, items: seq<Expr>, k: nat, st: Stack, fuel: nat)
    requires 1 <= k < |items| && items[0] == Symbol(OpName(op))
    requires forall j | 1 <= j < k :: items[j].Integer?
    requires Atom(items[k]) && !items[k].Integer?
    requires Ready(st) && Safe(List(items))
    ensures Eval(List(items), st, fuel + 1) == Run(Err(TypeError("expected integer")), st)
  {
    IntsStopAtNonInteger(items, 1, k, st, fuel, []);
    assert Eval(List(items), st, fuel + 1) == EvalForm(items, st, fuel) == EvalFold(op, items, st, fuel);
  }

  /** Operands `items[i..i + |xs|]`, started from `st`, evaluate one after
      the other to the integers `xs`, each on the stack its predecessor
      left; the last one leaves `last`. */
  ghost predicate IntChain(items: seq<Expr>, i: nat, st: Stack, xs: seq<int>, f: nat, last: Stack)
    decreases |xs|
  {
    && i + |xs| <= |items| && Ready(st)
    && if |xs| == 0 then last == st
       else
         && Safe(items[i])
         && var a := Eval(items[i], st, f);
         && a.out == Ok(Integer(xs[0]))
         && IntChain(items, i + 1, a.stack, xs[1..], f, last)
  }

  /** The operand loop threads the stack from one operand to the next: after
      a chain of integer operands it carries on from the stack the last one
      left, with their values appended in order. */
  lemma {:induction false} IntsThread(items: seq<Expr>, i: nat, st: Stack, f: nat, acc: seq<int>,
                                      xs: seq<int>, last: Stack)
    requires forall j | 0 <= j < |items| :: Safe(items[j])
    requires IntChain(items, i, st, xs, f, last)
    ensures Ready(last)
    ensures EvalInts(items, i, st, f, acc) == EvalInts(items, i + |xs|, last, f, acc + xs)
    decreases |xs|
  {
    if |xs| == 0 {
      assert acc + xs == acc;
    } else {
      var a := Eval(items[i], st, f);
      var acc', xs' := acc + [xs[0]], xs[1..];
      assert a.out == Ok(Integer(xs[0])) && IntChain(items, i + 1, a.stack, xs', f, last);
      IntsOnInteger(items, i, st, f, acc, xs[0]);
      IntsThread(items, i + 1, a.stack, f, acc', xs', last);
      assert i + 1 + |xs'| == i + |xs| && acc' + xs' == acc + xs;
    }
  }

  /** An operand whose value is an integer adds it to the collected values,
      and the loop goes on from the stack that operand left. */
  lemma IntsOnInteger(items: seq<Expr>, i: nat, st: Stack, f: nat, acc: seq<int>, x: int)
    requires i < |items| && Ready(st) && forall j | 0 <= j < |items| :: Safe(items[j])
    requires Eval(items[i], st, f).out == Ok(Integer(x))
    ensures Ready(Eval(items[i], st, f).stack)
    ensures EvalInts(items, i, st, f, acc) == EvalInts(items, i + 1, Eval(items[i], st, f).stack, f, acc + [x])
  {
  }

  /** `(+ a ...)` and `(* a ...)` whose operands evaluate, left to right and
      each on the stack the previous one left, to the integers `xs` give the
      sum or product of `xs` on the stack the last operand left. */
  lemma FoldOfOperands(op: Fold, items: seq<Expr>, st: Stack, fuel: nat, xs: seq<int>, last: Stack)
    requires Safe(List(items)) && |items| >= 2 && items[0] == Symbol(OpName(op))
    requires IntChain(items, 1, st, xs, fuel, last) && |xs| == |items| - 1
    ensures Eval(List(items), st, fuel + 1) == Run(Ok(Integer(Total(op, xs))), last)
  {
    IntsThread(items, 1, st, fuel, [], xs, last);
    assert [] + xs == xs;
    assert EvalInts(items, 1, st, fuel, []) == EvalInts(items, |items|, last, fuel, xs) == Run(Ok(xs), last);
    FoldForm(op, items, st, fuel);
  }

  /** A list headed by `+` or `*` with at least one operand runs the operand
      loop and folds what it collects, or passes on its failure. */
  lemma FoldForm(op: Fold, items: seq<Expr>, st: Stack, fuel: nat)
    requires Ready(st) && Safe(List(items)) && |items| >= 2 && items[0] == Symbol(OpName(op))
    ensures var ints := EvalInts(items, 1, st, fuel, []);
            Eval(List(items), st, fuel + 1)
            == if ints.out.Ok? then Run(Ok(Integer(Total(op, ints.out.value))), ints.stack)
               else Run(ints.out.Propagate(), ints.stack)
  {
    assert Eval(List(items), st, fuel + 1) == EvalForm(items, st, fuel) == EvalFold(op, items, st, fuel);
  }

  /** After a chain of integer operands, the next operand decides a failure of
      `+`/`*`: its own failure is passed on, and a value that is not an
      integer is a type error, in both cases on the stack that operand left;
      no later operand is evaluated. */
  lemma FoldStopsAtOperand(op: Fold, items: seq<Expr>, st: Stack, fuel: nat, xs: seq<int>, last: Stack)
    requires Safe(List(items)) && |items| >= 2 && items[0] == Symbol(OpName(op))
    requires IntChain(items, 1, st, xs, fuel, last) && 1 + |xs| < |items|
    ensures Ready(last)
    ensures var c := Eval(items[1 + |xs|], last, fuel);
      && (!c.out.Ok? ==> Eval(List(items), st, fuel + 1) == Run(c.out, c.stack))
      && (c.out.Ok? && !c.out.value.Integer? ==>
            Eval(List(items), st, fuel + 1) == Run(Err(TypeError("expected integer")), c.stack))
  {
    IntsThread(items, 1, st, fuel, [], xs, last);
    assert [] + xs == xs;
    var c := Eval(items[1 + |xs|], last, fuel);
    var ints := EvalInts(items, 1, st, fuel, []);
    assert ints == EvalInts(items, 1 + |xs|, last, fuel, xs);
    IntsStep(items, 1 + |xs|, last, fuel, xs);
    FoldForm(op, items, st, fuel);
  }

  /** One operand of the loop that fails, or gives no integer, ends it with
      that failure, on the stack the operand left. */
  lemma IntsStep(items: seq<Expr>, i: nat, st: Stack, f: nat, acc: seq<int>)
    requires i < |items| && Ready(st) && forall j | 0 <= j < |items| :: Safe(items[j])
    ensures var c := Eval(items[i], st, f);
      && (!c.out.Ok? ==> EvalInts(items, i, st, f, acc) == Run(c.out.Propagate(), c.stack)
                         && c.out.Propagate<seq<int>>().Propagate<Expr>() == c.out)
      && (c.out.Ok? && !c.out.value.Integer? ==>
            EvalInts(items, i, st, f, acc) == Run(Err(TypeError("expected integer")), c.stack))
  {
  }

  /** `(- a b)` evaluates `a`, then `b` on the stack `a` left, and subtracts;
      the first operand that fails, or whose value is not an integer, decides
      the error, on the stack it left. */
  lemma MinusOfOperands(items: seq<Expr>, st: Stack, fuel: nat)
    requires Ready(st) && Safe(List(items)) && |items| == 3 && items[0] == Symbol("-")
    ensures var a := Eval(items[1], st, fuel);
            var b := Eval(items[2], a.stack, fuel);
            var r := Eval(List(items), st, fuel + 1);
      && (!a.out.Ok? ==> r == Run(a.out, a.stack))
      && (a.out.Ok? && !a.out.value.Integer? ==> r == Run(Err(TypeError("expected integer")), a.stack))
      && (a.out.Ok? && a.out.value.Integer? && !b.out.Ok? ==> r == Run(b.out, b.stack))
      && (a.out.Ok? && a.out.value.Integer? && b.out.Ok? && !b.out.value.Integer? ==>
            r == Run(Err(TypeError("expected integer")), b.stack))
      && (a.out.Ok? && a.out.value.Integer? && b.out.Ok? && b.out.value.Integer? ==>
            r == Run(Ok(Integer(a.out.value.n - b.out.value.n)), b.stack))
  {
    var a := Eval(items[1], st, fuel);
    var b := Eval(items[2], a.stack, fuel);
    assert Eval(List(items), st, fuel + 1) == EvalForm(items, st, fuel) == EvalMinus(items, st, fuel);
    if !a.out.Ok? {
      assert a.out.Propagate<Expr>() == a.out;
    } else if a.out.value.Integer? && !b.out.Ok? {
      assert b.out.Propagate<Expr>() == b.out;
    }
  }

  /** `(eq? a b)` evaluates `a`, then `b` on the stack `a` left, and compares
      the two values by `EqValues`; a failing operand is passed on. */
  lemma EqOfOperands(items: seq<Expr>, st: Stack, fuel: nat)
    requires Ready(st) && Safe(List(items)) && |items| == 3 && items[0] == Symbol("eq?")
    ensures var a := Eval(items[1], st, fuel);
            var b := Eval(items[2], a.stack, fuel);
            var r := Eval(List(items), st, fuel + 1);
      && (!a.out.Ok? ==> r == Run(a.out, a.stack))
      && (a.out.Ok? && !b.out.Ok? ==> r == Run(b.out, b.stack))
      && (a.out.Ok? && b.out.Ok? ==> r == Run(Ok(Bool(EqValues(a.out.value, b.out.value))), b.stack))
  {
    var a := Eval(items[1], st, fuel);
    var b := Eval(items[2], a.stack, fuel);
    assert Eval(List(items), st, fuel + 1) == EvalForm(items, st, fuel) == EvalEq(items, st, fuel);
    if !a.out.Ok? {
      assert a.out.Propagate<Expr>() == a.out;
    } else if !b.out.Ok? {
      assert b.out.Propagate<Expr>() == b.out;
    }
  }

  /** The sum of a concatenation is the sum of the sums, and likewise for
      the product. */
  lemma {:induction false} TotalAppend(op: Fold, a: seq<int>, b: seq<int>)
    ensures op == Sum ==> Total(op, a + b) == Total(op, a) + Total(op, b)
    ensures op == Product ==> Total(op, a + b) == Total(op, a) * Total(op, b)
    decreases |b|
  {
    if |b| == 0 {
      assert a + b == a;
    } else {
      var b' := b[..|b| - 1];
      assert (a + b)[..|a + b| - 1] == a + b';
      assert (a + b)[|a + b| - 1] == b[|b| - 1];
      TotalAppend(op, a, b');
      if op == Product {
        assert Total(op, a + b) == Total(op, a) * Total(op, b') * b[|b| - 1];
      }
    }
  }

  /** `(- a b)` on integers is `a - b`. */
  lemma MinusOfIntegers(a: int, b: int, st: Stack, fuel: nat)
    requires Ready(st)
    ensures Eval(List([Symbol("-"), Integer(a), Integer(b)]), st, fuel + 1) == Run(Ok(Integer(a - b)), st)
  {
    var items := [Symbol("-"), Integer(a), Integer(b)];
    assert Safe(List(items));
    assert Eval(items[1], st, fuel) == Run(Ok(Integer(a)), st);
    assert Eval(items[2], st, fuel) == Run(Ok(Integer(b)), st);
    assert Eval(List(items), st, fuel + 1) == EvalForm(items, st, fuel) == EvalMinus(items, st, fuel);
  }

  /** `eq?` never fails on atoms: it answers whether they are equal integers
      or equal booleans. */
  lemma EqOfAtoms(a: Expr, b: Expr, st: Stack, fuel: nat)
    requires Ready(st) && Atom(a) && Atom(b) && Safe(a) && Safe(b)
    ensures Eval(List([Symbol("eq?"), a, b]), st, fuel + 1)
            == Run(Ok(Bool(a == b && (a.Integer? || a.Bool?))), st)
  {
    var items := [Symbol("eq?"), a, b];
    assert Safe(List(items));
    assert Eval(items[1], st, fuel) == Run(Ok(a), st);
    assert Eval(items[2], st, fuel) == Run(Ok(b), st);
    assert Eval(List(items), st, fuel + 1) == EvalForm(items, st, fuel) == EvalEq(items, st, fuel);
  }

  /** The element counts each special form demands, checked before any
      operand is evaluated. */
  lemma FormArity(items: seq<Expr>, st: Stack, fuel: nat)
    requires Ready(st) && Safe(List(items)) && |items| >= 1 && items[0].Symbol?
    ensures (items[0].name == "+" || items[0].name == "*") && |items| < 2
            ==> Eval(List(items), st, fuel + 1) == Run(Err(ArityMismatch), st)
    ensures (items[0].name == "-" || items[0].name == "eq?") && |items| != 3
            ==> Eval(List(items), st, fuel + 1) == Run(Err(ArityMismatch), st)
    ensures items[0].name == "define" && |items| < 3
            ==> Eval(List(items), st, fuel + 1) == Run(Err(ArityMismatch), st)
    ensures items[0].name == "if" && |items| != 4
            ==> Eval(List(items), st, fuel + 1) == Run(Err(ArityMismatch), st)
  {
    var head := items[0].name;
    assert Eval(List(items), st, fuel + 1) == EvalForm(items, st, fuel);
    if head == "+" {
      assert EvalForm(items, st, fuel) == EvalFold(Sum, items, st, fuel);
    } else if head == "*" {
      assert EvalForm(items, st, fuel) == EvalFold(Product, items, st, fuel);
    } else if head == "-" {
      assert EvalForm(items, st, fuel) == EvalMinus(items, st, fuel);
    } else if head == "eq?" {
      assert EvalForm(items, st, fuel) == EvalEq(items, st, fuel);
    } else if head == "define" {
      assert EvalForm(items, st, fuel) == EvalDefine(items, st);
    } else if head == "if" {
      assert EvalForm(items, st, fuel) == EvalIf(items, st, fuel);
    }
  }

  // ----------------------------------------------------------------- define

  /** `(define s e ...)` stores `e` as written, in the top frame only, and a
      later lookup of `s` yields `e` itself, not its value. */
  lemma DefineStoresUnevaluated(s: string, e: Expr, rest: seq<Expr>, st: Stack, fuel: nat)
    requires Ready(st) && Safe(List([Symbol("define"), Symbol(s), e] + rest))
    ensures Eval(List([Symbol("define"), Symbol(s), e] + rest), st, fuel + 1)
            == Run(Ok(Null), InsertTop(st, s, e))
    ensures !e.Symbol? ==> Resolve(InsertTop(st, s, e), s) == Found(e)
  {
    var st' := InsertTop(st, s, e);
    assert TopBinding(st', |st'|, s) == Some(e);
  }

  /** `(define (g p ...) body ...)` stores a procedure with parameters
      `p ...` and the first body form only. */
  lemma DefineProcedure(g: string, params: seq<Expr>, body: Expr, rest: seq<Expr>, st: Stack, fuel: nat)
    requires Ready(st) && Safe(List([Symbol("define"), List([Symbol(g)] + params), body] + rest))
    ensures Eval(List([Symbol("define"), List([Symbol(g)] + params), body] + rest), st, fuel + 1)
            == Run(Ok(Null), InsertTop(st, g, Func(LispFunc(params, body))))
  {
    assert ([Symbol(g)] + params)[1..] == params;
  }

  /** Any other second element of `define` is a syntax error reported as a
      type error. */
  lemma DefineInvalidSyntax(items: seq<Expr>, st: Stack, fuel: nat)
    requires Ready(st) && Safe(List(items))
    requires |items| >= 3 && items[0] == Symbol("define") && !items[1].Symbol? && !items[1].List?
    ensures Eval(List(items), st, fuel + 1) == Run(Err(TypeError("invalid syntax")), st)
  {
  }

  // --------------------------------------------------------------------- if

  /** `if` evaluates its condition, demands a boolean, and then evaluates the
      chosen branch alone. */
  lemma IfChoosesBranch(items: seq<Expr>, st: Stack, fuel: nat)
    requires Ready(st) && Safe(List(items)) && |items| == 4 && items[0] == Symbol("if")
    ensures var c := Eval(items[1], st, fuel);
      && (c.out.Ok? && c.out.value.Bool? ==>
            Eval(List(items), st, fuel + 1) == Eval(if c.out.value.b then items[2] else items[3], c.stack, fuel))
      && (c.out.Ok? && !c.out.value.Bool? ==>
            Eval(List(items), st, fuel + 1) == Run(Err(TypeError("expected bool")), c.stack))
      && (!c.out.Ok? ==> Eval(List(items), st, fuel + 1) == Run(c.out, c.stack))
  {
    var c := Eval(items[1], st, fuel);
    assert Eval(List(items), st, fuel + 1) == EvalForm(items, st, fuel) == EvalIf(items, st, fuel);
    if !c.out.Ok? {
      assert c.out.Propagate<Expr>() == c.out;
    }
  }

  // ------------------------------------------------------------------ calls

  /** A head that names no special form must resolve to a procedure, and the
      argument count must match its parameters; a failure of either check
      returns with the stack as it was. */
  lemma CallChecksBeforePush(items: seq<Expr>, st: Stack, fuel: nat)
    requires Ready(st) && Safe(List(items)) && |items| >= 1 && items[0].Symbol?
    requires items[0].name !in {"+", "*", "-", "eq?", "define", "if"}
    ensures var l := Resolve(st, items[0].name);
      && (l.Unbound? ==> Eval(List(items), st, fuel + 1) == Run(Err(NameError), st))
      && (l.Found? && !l.value.Func? ==>
            Eval(List(items), st, fuel + 1) == Run(Err(TypeError("expected function")), st))
      && (l.Found? && l.value.Func? && |items| - 1 != |l.value.func.params| ==>
            Eval(List(items), st, fuel + 1) == Run(Err(ArityMismatch), st))
      && (l.Found? && l.value.Func? && |items| - 1 == |l.value.func.params| ==>
            Eval(List(items), st, fuel + 1) == Call(l.value.func, items[1..], st, fuel))
  {
    var head := items[0].name;
    assert Eval(List(items), st, fuel + 1) == EvalForm(items, st, fuel) == EvalApply(items, st, fuel);
    assert Eval(items[0], st, fuel) == Eval(Symbol(head), st, fuel);
  }

  /** Once every argument is bound, the call pops one frame after its body,
      whether the body returned normally or not: the stack ends up as deep
      as before, plus whatever frames the body itself left behind. */
  lemma CallPopsAfterBody(fn: LispFunc, args: seq<Expr>, st: Stack, f: nat)
    requires |args| == |fn.params|
    requires Ready(st) && Safe(fn.body) && forall j | 0 <= j < |args| :: Safe(args[j])
    requires BindParams(fn, args, 0, Push(st), f).out.Ok?
    ensures var bound := BindParams(fn, args, 0, Push(st), f);
            var body := Eval(fn.body, bound.stack, f);
            && |bound.stack| == |st| + 1
            && Call(fn, args, st, f) == Run(body.out, Pop(body.stack))
            && |Call(fn, args, st, f).stack| == |st| + (|body.stack| - |bound.stack|)
            && (body.out.Ok? ==> |Call(fn, args, st, f).stack| == |st|)
  {
  }

  /** Frame leak: when an argument fails to evaluate, or a parameter is not a
      symbol, the call returns without popping, so the stack is deeper than
      before the call. */
  lemma CallLeaksFrameOnBindFailure(fn: LispFunc, args: seq<Expr>, st: Stack, f: nat)
    requires |args| == |fn.params|
    requires Ready(st) && Safe(fn.body) && forall j | 0 <= j < |args| :: Safe(args[j])
    requires !BindParams(fn, args, 0, Push(st), f).out.Ok?
    ensures Call(fn, args, st, f).stack == BindParams(fn, args, 0, Push(st), f).stack
    ensures |Call(fn, args, st, f).stack| >= |st| + 1
    ensures Call(fn, args, st, f).out == BindParams(fn, args, 0, Push(st), f).out.Propagate()
  {
  }

  /** The parameter names from `i` on. */
  function ParamNames(fn: LispFunc, i: nat): set<string>
    requires forall j | 0 <= j < |fn.params| :: fn.params[j].Symbol?
  {
    set j | i <= j < |fn.params| :: fn.params[j].name
  }

  /** Distinct symbols as parameters. */
  predicate DistinctParams(fn: LispFunc) {
    && (forall j | 0 <= j < |fn.params| :: fn.params[j].Symbol?)
    && (forall j, k | 0 <= j < k < |fn.params| :: fn.params[j].name != fn.params[k].name)
  }

  /** With self-evaluating arguments and distinct symbol parameters, the
      binding loop succeeds and fills the top frame with exactly the
      parameter bindings, leaving every other name of that frame and every
      lower frame as it was. */
  lemma {:induction false} BindAtoms(fn: LispFunc, args: seq<Expr>, i: nat, st: Stack, f: nat)
    requires i <= |args| == |fn.params| && DistinctParams(fn)
    requires forall j | 0 <= j < |args| :: Atom(args[j]) && Safe(args[j])
    requires Ready(st)
    ensures var r := BindParams(fn, args, i, st, f);
      && r.out == Ok(())
      && |r.stack| == |st|
      && (forall j | 0 <= j < |st| - 1 :: r.stack[j] == st[j])
      && (forall j | i <= j < |args| :: fn.params[j].name in r.stack[|st| - 1]
                                        && r.stack[|st| - 1][fn.params[j].name] == args[j])
      && (forall k | k !in ParamNames(fn, i) ::
            (k in r.stack[|st| - 1] <==> k in st[|st| - 1])
            && (k in st[|st| - 1] ==> r.stack[|st| - 1][k] == st[|st| - 1][k]))
    decreases |args| - i
  {
    if i < |args| {
      var name := fn.params[i].name;
      var st1 := InsertTop(st, name, args[i]);
      assert Eval(args[i], st, f) == Run(Ok(args[i]), st);
      assert BindParams(fn, args, i, st, f) == BindParams(fn, args, i + 1, st1, f);
      BindAtoms(fn, args, i + 1, st1, f);
      var r := BindParams(fn, args, i + 1, st1, f);
      assert ParamNames(fn, i) == ParamNames(fn, i + 1) + {name};
      assert name !in ParamNames(fn, i + 1);
    }
  }

  /** Dynamic scope: a procedure body runs on top of its caller's frames, so
      a free name in it means whatever the caller has bound. */
  lemma BodySeesCallerFrames(y: string, v: Expr, st: Stack, f: nat)
    requires Ready(st) && Resolve(st, y) == Found(v)
    ensures Call(LispFunc([], Symbol(y)), [], st, f) == Run(Ok(v), st)
  {
    ResolveThroughEmptyFrame(st, y);
    assert Pop(Push(st)) == st;
  }

  // ------------------------------------------------------ the default stack

  /** `(first x y)` on the default stack is a call of that procedure. */
  lemma ApplyFirst(x: Expr, y: Expr, fuel: nat)
    requires Safe(x) && Safe(y)
    ensures Eval(List([Symbol("first"), x, y]), DefaultStack(), fuel + 1)
            == Call(FirstFn(), [x, y], DefaultStack(), fuel)
  {
    var st := DefaultStack();
    var items := [Symbol("first"), x, y];
    assert Ready(st) && Safe(List(items));
    assert TopBinding(st, 1, "first") == Some(Func(FirstFn()));
    assert Resolve(st, "first") == Found(Func(FirstFn()));
    CallChecksBeforePush(items, st, fuel);
    assert items[1..] == [x, y];
  }

  /** One turn of the binding loop whose argument evaluates without
      touching the stack. */
  lemma BindStep(fn: LispFunc, args: seq<Expr>, i: nat, st: Stack, f: nat, p: string, v: Expr)
    requires i < |args| == |fn.params|
    requires Ready(st) && forall j | 0 <= j < |args| :: Safe(args[j])
    requires fn.params[i] == Symbol(p) && Eval(args[i], st, f) == Run(Ok(v), st)
    ensures Ready(InsertTop(st, p, v))
    ensures BindParams(fn, args, i, st, f) == BindParams(fn, args, i + 1, InsertTop(st, p, v), f)
  {
  }

  /** `(first 1 2)` is 1 and leaves the stack as it was. */
  lemma FirstOfTwo(fuel: nat)
    ensures Eval(List([Symbol("first"), Integer(1), Integer(2)]), DefaultStack(), fuel + 1)
            == Run(Ok(Integer(1)), DefaultStack())
  {
    var st := DefaultStack();
    var fn := FirstFn();
    var args := [Integer(1), Integer(2)];
    ApplyFirst(Integer(1), Integer(2), fuel);
    var st1 := InsertTop(Push(st), "a", Integer(1));
    BindStep(fn, args, 0, Push(st), fuel, "a", Integer(1));
    var st2 := InsertTop(st1, "b", Integer(2));
    BindStep(fn, args, 1, st1, fuel, "b", Integer(2));
    assert BindParams(fn, args, 2, st2, fuel) == Run(Ok(()), st2);
    assert TopBinding(st2, 2, "a") == Some(Integer(1));
    assert Resolve(st2, "a") == Found(Integer(1));
    assert Pop(st2) == st;
  }

  /** Arguments are evaluated inside the new frame: in `(first 5 a)` the
      second argument already sees the parameter `a` bound to 5. */
  lemma LaterArgumentSeesEarlierParameter(fuel: nat)
    ensures Eval(List([Symbol("first"), Integer(5), Symbol("a")]), DefaultStack(), fuel + 1)
            == Run(Ok(Integer(5)), DefaultStack())
  {
    var st := DefaultStack();
    var fn := FirstFn();
    var args := [Integer(5), Symbol("a")];
    ApplyFirst(Integer(5), Symbol("a"), fuel);
    var st1 := InsertTop(Push(st), "a", Integer(5));
    BindStep(fn, args, 0, Push(st), fuel, "a", Integer(5));
    assert TopBinding(st1, 2, "a") == Some(Integer(5));
    assert Resolve(st1, "a") == Found(Integer(5));
    var st2 := InsertTop(st1, "b", Integer(5));
    BindStep(fn, args, 1, st1, fuel, "b", Integer(5));
    assert BindParams(fn, args, 2, st2, fuel) == Run(Ok(()), st2);
    assert TopBinding(st2, 2, "a") == Some(Integer(5));
    assert Resolve(st2, "a") == Found(Integer(5));
    assert Pop(st2) == st;
  }

  /** `(first zz 2)` with `zz` unbound fails with a name error and leaves the
      call's frame on the stack. */
  lemma UnboundArgumentLeaksFrame(fuel: nat)
    ensures Eval(List([Symbol("first"), Symbol("zz"), Integer(2)]), DefaultStack(), fuel + 1)
            == Run(Err(NameError), DefaultStack() + [map[]])
  {
    var st := DefaultStack();
    var fn := FirstFn();
    var args := [Symbol("zz"), Integer(2)];
    ApplyFirst(Symbol("zz"), Integer(2), fuel);
    assert TopBinding(Push(st), 2, "zz") == None;
    assert Resolve(Push(st), "zz") == Unbound;
    assert BindParams(fn, args, 0, Push(st), fuel) == Run(Err(NameError), Push(st));
  }
}
