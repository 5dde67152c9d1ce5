/** The environment of the Python prototype (main.py): every scope owns a
    table and links to the scope around it, and a call runs in a fresh
    child scope of the environment it is given. */
module ScopeChain {
  import opened Optional

  /** The binding of `name` in the first table of `tables` that has it:
      the innermost scope wins. */
  function Find<V>(tables: seq<map<string, V>>, name: string): (r: Option<V>)
    ensures r.Some? <==> exists i :: 0 <= i < |tables| && name in tables[i]
    ensures r.Some? ==> exists i :: 0 <= i < |tables| && name in tables[i] && tables[i][name] == r.value
                                    && forall j | 0 <= j < i :: name !in tables[j]
    decreases |tables|
  {
    if |tables| == 0 then None
    else if name in tables[0] then Some(tables[0][name])
    else
      var r := Find(tables[1..], name);
      assert forall i | 1 <= i < |tables| :: tables[1..][i - 1] == tables[i];
      r
  }

  /** `LispEnv`: a table of its own and an optional enclosing scope. */
  class LispEnv<V> {
    var parent: LispEnv?<V>
    var table: map<string, V>
    ghost var Repr: set<object>

    /** The scopes reachable through `parent` are finitely many and never
        lead back here. */
    ghost predicate Valid()
      reads this, Repr
      decreases Repr
    {
      && this in Repr
      && (parent != null ==>
            && parent in Repr && parent.Repr <= Repr && this !in parent.Repr
            && parent.Valid())
    }

    /** The tables `get` consults, this scope's own first. */
    ghost function Tables(): (r: seq<map<string, V>>)
      requires Valid()
      reads this, Repr
      ensures |r| >= 1 && r[0] == table
      decreases Repr, 1
    {
      [table] + (if parent == null then [] else parent.Tables())
    }

    /** `LispEnv.__init__`: an empty table under the given parent. */
    constructor(parent: LispEnv?<V>)
      requires parent != null ==> parent.Valid()
      ensures Valid() && Repr == {this} + (if parent == null then {} else parent.Repr)
      ensures this.parent == parent && table == map[]
      ensures Tables() == [map[]] + (if parent == null then [] else parent.Tables())
    {
      this.parent := parent;
      table := map[];
      Repr := {this} + (if parent == null then {} else parent.Repr);
    }

    /** `LispEnv.get`: this scope's table first, then the parent's, up to a
        scope with no parent, where an unbound name gives `None`. */
    method Get(name: string) returns (r: Option<V>)
      requires Valid()
      ensures r == Find(Tables(), name)
      decreases Repr
    {
      if name in table {
        return Some(table[name]);
      }
      if parent == null {
        return None;
      }
      assert Tables()[1..] == parent.Tables();
      r := parent.Get(name);
    }

    /** `LispEnv.add`: bind or rebind a name in this scope's own table; the
        enclosing scopes are not touched. */
    method Add(name: string, value: V)
      requires Valid()
      modifies this
      ensures Valid() && Repr == old(Repr) && parent == old(parent)
      ensures table == old(table)[name := value]
      ensures Tables() == [old(table)[name := value]] + old(Tables())[1..]
    {
      table := table[name := value];
    }
  }

  /** The scope setup of `LispFunc.eval`: a fresh child of `env` holding
      every parameter binding. The body is then evaluated in that scope. */
  method CallScope<V>(env: LispEnv<V>, params: map<string, V>) returns (local: LispEnv<V>)
    requires env.Valid()
    ensures fresh(local) && local.Valid()
    ensures local.parent == env && local.table == params
    ensures local.Tables() == [params] + env.Tables()
  {
    local := new LispEnv(env);
    var todo := params.Keys;
    while todo != {}
      invariant local.Valid() && fresh(local) && local.parent == env && local.Repr == {local} + env.Repr
      invariant todo <= params.Keys
      invariant local.table == map k | k in params.Keys - todo :: params[k]
      decreases todo
    {
      var a :| a in todo;
      local.Add(a, params[a]);
      todo := todo - {a};
      assert local.table == map k | k in params.Keys - todo :: params[k];
    }
    assert params.Keys - todo == params.Keys;
    assert local.table == params;
  }

  // ----------------------------------------------------------- properties

  /** `get` answers from a scope's own table when the name is there, without
      looking further out, and otherwise asks the enclosing scopes. */
  lemma OwnTableFirst<V>(t: map<string, V>, outer: seq<map<string, V>>, name: string)
    ensures name in t ==> Find([t] + outer, name) == Some(t[name])
    ensures name !in t ==> Find([t] + outer, name) == Find(outer, name)
  {
    assert ([t] + outer)[0] == t && ([t] + outer)[1..] == outer;
  }

  /** At a scope with no parent an unbound name gives `None`. */
  lemma RootMisses<V>(t: map<string, V>, name: string)
    requires name !in t
    ensures Find([t], name) == None
  {
    OwnTableFirst(t, [], name);
    assert [t] + [] == [t];
  }

  /** Looking up through the chain `inner + outer` is looking up through
      `inner` and, only when that fails, through `outer`. */
  lemma {:induction false} FindThrough<V>(inner: seq<map<string, V>>, outer: seq<map<string, V>>, name: string)
    ensures Find(inner + outer, name)
            == if Find(inner, name).Some? then Find(inner, name) else Find(outer, name)
    decreases |inner|
  {
    if |inner| == 0 {
      assert inner + outer == outer;
    } else {
      assert (inner + outer)[0] == inner[0];
      assert (inner + outer)[1..] == inner[1..] + outer;
      FindThrough(inner[1..], outer, name);
    }
  }

  /** After `add`, the scope answers the new binding for that name and
      exactly what it answered before for every other name. */
  lemma AddShadows<V>(t: map<string, V>, outer: seq<map<string, V>>, name: string, value: V, other: string)
    ensures Find([t[name := value]] + outer, name) == Some(value)
    ensures other != name ==> Find([t[name := value]] + outer, other) == Find([t] + outer, other)
  {
    OwnTableFirst(t[name := value], outer, name);
    OwnTableFirst(t[name := value], outer, other);
    OwnTableFirst(t, outer, other);
  }
}
