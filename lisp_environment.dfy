/** The environment of the current evaluator (src/lisp.rs): one stack of
    frames shared by every call, each frame a map from names to expressions.
    The functions give the meaning of each operation on a stack value; the
    class `LispEnv` performs them in place and is proved against them. */
module LispEnvironment {
  import opened Optional
  import opened LispValues

  type Frame = map<string, Expr>
  type Stack = seq<Frame>

  /** Every stored expression can be evaluated without a panic. */
  ghost predicate StackSafe(st: Stack) {
    forall i, k | 0 <= i < |st| && k in st[i] :: Safe(st[i][k])
  }

  /** `new_frame`: an empty frame on top. */
  function Push(st: Stack): (r: Stack)
    ensures |r| == |st| + 1 && r[..|st|] == st && r[|st|] == map[]
  {
    st + [map[]]
  }

  /** `pop_frame`: `Vec::pop`, which leaves an empty stack as it is. */
  function Pop(st: Stack): (r: Stack)
    ensures |st| > 0 ==> |r| == |st| - 1 && r == st[..|st| - 1]
    ensures |st| == 0 ==> r == st
  {
    if |st| == 0 then st else st[..|st| - 1]
  }

  /** `insert`: add or overwrite one binding in the top frame only.
      The source unwraps the top frame, so the stack must not be empty. */
  function InsertTop(st: Stack, name: string, e: Expr): (r: Stack)
    requires |st| >= 1
    ensures |r| == |st|
    ensures forall i | 0 <= i < |st| - 1 :: r[i] == st[i]
    ensures r[|st| - 1] == st[|st| - 1][name := e]
  {
    st[|st| - 1 := st[|st| - 1][name := e]]
  }

  /** The binding of `name` in the topmost of the frames `st[..n]` that binds it. */
  function TopBinding(st: Stack, n: nat, name: string): (r: Option<Expr>)
    requires n <= |st|
    ensures r.Some? <==> exists i :: 0 <= i < n && name in st[i]
    ensures r.Some? ==> exists i :: 0 <= i < n && name in st[i] && st[i][name] == r.value
                                    && forall j | i < j < n :: name !in st[j]
  {
    if n == 0 then None
    else if name in st[n - 1] then Some(st[n - 1][name])
    else TopBinding(st, n - 1, name)
  }

  /** Every name some frame binds. */
  function Names(st: Stack): (r: set<string>)
    ensures forall i, k | 0 <= i < |st| && k in st[i] :: k in r
  {
    set i, k | 0 <= i < |st| && k in st[i] :: k
  }

  /** Result of `get`: a value, no binding (`None`), or a chase that never ends. */
  datatype Lookup = Found(value: Expr) | Unbound | Cycle

  /** `get` while chasing symbols: the names in `visited` have been passed
      through already, so meeting one again means the source would chase
      round the same aliases for ever. */
  function ResolveFrom(st: Stack, name: string, visited: set<string>): (r: Lookup)
    ensures r.Found? ==> !r.value.Symbol?
    ensures r.Found? ==> exists i, k :: 0 <= i < |st| && k in st[i] && st[i][k] == r.value
    decreases Names(st) - visited
  {
    if name in visited then Cycle
    else match TopBinding(st, |st|, name)
      case None => Unbound
      case Some(v) =>
        if v.Symbol? then
          assert name in Names(st);
          ResolveFrom(st, v.name, visited + {name})
        else Found(v)
  }

  /** `get`: the binding in the topmost frame that has the name, with any
      symbol-valued binding looked up again. */
  function Resolve(st: Stack, name: string): (r: Lookup)
    ensures r.Found? ==> !r.value.Symbol?
    ensures TopBinding(st, |st|, name).None? ==> r == Unbound
    ensures r.Cycle? ==> TopBinding(st, |st|, name).Some? && TopBinding(st, |st|, name).value.Symbol?
  {
    ResolveFrom(st, name, {})
  }

  /** The procedure `LispEnv::default` binds to `first`: parameters `a b`,
      body `a`. */
  function FirstFn(): LispFunc {
    LispFunc([Symbol("a"), Symbol("b")], Symbol("a"))
  }

  /** The stack `LispEnv::default` starts from. */
  function DefaultStack(): Stack {
    [map["first" := Func(FirstFn())]]
  }

  /** `LispEnv`: the frame stack, updated in place. */
  class LispEnv {
    var stack: Stack

    /** `LispEnv::new`: one empty frame. */
    constructor New()
      ensures stack == [map[]]
    {
      stack := [map[]];
    }

    /** `LispEnv::default`: one frame binding `first` to the procedure
        `(a b)` whose body is `a`. */
    constructor Default()
      ensures stack == DefaultStack()
      ensures StackSafe(stack)
    {
      stack := [map[]];
      new;
      Insert("first", Func(FirstFn()));
    }

    method NewFrame()
      modifies this
      ensures stack == Push(old(stack))
    {
      stack := stack + [map[]];
    }

    method PopFrame()
      modifies this
      ensures stack == Pop(old(stack))
    {
      if |stack| > 0 {
        stack := stack[..|stack| - 1];
      }
    }

    method Insert(name: string, e: Expr)
      requires |stack| >= 1
      modifies this
      ensures stack == InsertTop(old(stack), name, e)
    {
      var top := stack[|stack| - 1];
      stack := stack[|stack| - 1 := top[name := e]];
    }

    /** `get`; it only reads the stack. */
    method Get(name: string) returns (r: Lookup)
      ensures r == Resolve(stack, name)
    {
      r := GetChasing(name, {});
    }

    /** The frame scan from the top down, restarted on a symbol value. */
    method GetChasing(name: string, visited: set<string>) returns (r: Lookup)
      ensures r == ResolveFrom(stack, name, visited)
      decreases Names(stack) - visited
    {
      if name in visited {
        return Cycle;
      }
      var i := |stack|;
      while i > 0
        invariant 0 <= i <= |stack|
        invariant TopBinding(stack, i, name) == TopBinding(stack, |stack|, name)
      {
        i := i - 1;
        if name in stack[i] {
          var v := stack[i][name];
          assert TopBinding(stack, |stack|, name) == Some(v);
          if v.Symbol? {
            assert name in Names(stack);
            assert ResolveFrom(stack, name, visited) == ResolveFrom(stack, v.name, visited + {name});
            r := GetChasing(v.name, visited + {name});
          } else {
            r := Found(v);
          }
          return;
        }
      }
      assert TopBinding(stack, |stack|, name) == None;
      return Unbound;
    }
  }
}
