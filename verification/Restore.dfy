/** Saving and loading locals: when a load puts back exactly the locals that were saved. */
module Restore {
  import opened Wire
  import opened Language
  import opened Points

  /** `vars` lists each of `names` exactly once, in some order. */
  ghost predicate Lists(vars: seq<string>, names: seq<string>) {
    && NoDup(vars)
    && (forall x :: x in vars <==> x in names)
  }

  /** Initialized locals can all be saved. */
  lemma {:induction false} SaveSucceeds(env: Env, vars: seq<string>)
    requires Initialized(env) && forall x :: x in vars ==> x in Names(env)
    ensures LookupAll(env, vars).Some? && |LookupAll(env, vars).value| == |vars|
    ensures forall k :: 0 <= k < |vars| ==> Some(LookupAll(env, vars).value[k]) == Lookup(env, vars[k])
  {
    if vars == [] {
    } else {
      SaveSucceeds(env, vars[1..]);
      assert vars[0] in vars;
      assert exists i :: 0 <= i < |env| && env[i].name == vars[0] by {
        assert vars[0] in Names(env);
      }
      var rest := LookupAll(env, vars[1..]).value;
      assert LookupAll(env, vars).value == [Lookup(env, vars[0]).value] + rest;
    }
  }

  /** A load writes the innermost slot of each listed name, and nothing else. */
  lemma {:induction false} LoadWrites(env: Env, vars: seq<string>, vs: seq<int>)
    requires |vars| == |vs| && NoDup(vars) && forall x :: x in vars ==> x in Names(env)
    ensures UpdateAll(env, vars, vs).Some?
    ensures
      var r := UpdateAll(env, vars, vs).value;
      && Names(r) == Names(env)
      && (forall k :: 0 <= k < |vars| ==>
          Where(env, vars[k]) >= 0 && r[Where(env, vars[k])] == Slot(vars[k], Val(vs[k])))
      && (forall i :: 0 <= i < |env| && (env[i].name !in vars || Where(env, env[i].name) != i) ==> r[i] == env[i])
    decreases |vars|
  {
    if vars == [] {
    } else {
      assert vars[0] in vars && vars[0] in Names(env);
      assert Where(env, vars[0]) >= 0;
      NamesUpdate(env, vars[0], vs[0]);
      var env' := Update(env, vars[0], vs[0]).value;
      SameWhere(env, env');
      assert vars == [vars[0]] + vars[1..];
      assert vars[0] !in vars[1..];
      LoadWrites(env', vars[1..], vs[1..]);
      var r := UpdateAll(env, vars, vs).value;
      forall k | 0 <= k < |vars|
        ensures Where(env, vars[k]) >= 0 && r[Where(env, vars[k])] == Slot(vars[k], Val(vs[k]))
      {
        if k > 0 { assert vars[k] == vars[1..][k - 1]; }
      }
    }
  }

  /** Where a name is found depends on the names only. */
  lemma {:induction false} SameWhere(env: Env, env': Env)
    requires Names(env) == Names(env')
    ensures forall x :: Where(env, x) == Where(env', x)
  {
    assert |env| == |Names(env)| == |env'|;
    forall x ensures Where(env, x) == Where(env', x) {
      var i, j := Where(env, x), Where(env', x);
      if i >= 0 { assert Names(env)[i] == x == env'[i].name; }
      if j >= 0 { assert Names(env')[j] == x == env[j].name; }
    }
  }

  /** With distinct names, every slot is the one found under its name. */
  lemma WhereDistinct(env: Env, i: nat)
    requires i < |env| && NoDup(Names(env))
    ensures Where(env, env[i].name) == i
  {
    assert Names(env)[i] == env[i].name;
    var j := Where(env, env[i].name);
    assert j >= i;
    assert Names(env)[j] == env[j].name;
  }

  /** Whatever the rebuilt frame holds in slots with the right names, loading the saved values
      makes it equal to the frame that was saved. */
  lemma LoadRestores(saved: Env, rebuilt: Env, vars: seq<string>)
    requires Initialized(saved) && NoDup(Names(saved)) && Lists(vars, Names(saved))
    requires Names(rebuilt) == Names(saved)
    ensures LookupAll(saved, vars).Some?
    ensures UpdateAll(rebuilt, vars, LookupAll(saved, vars).value) == Some(saved)
  {
    SaveSucceeds(saved, vars);
    var r := UpdateAll(rebuilt, vars, LookupAll(saved, vars).value);
    if saved == [] {
      EmptyIff(vars);
    } else {
      forall i | 0 <= i < |saved| ensures r.Some? && |r.value| == |saved| && r.value[i] == saved[i] {
        LoadedSlot(saved, rebuilt, vars, i);
      }
      LoadedSlot(saved, rebuilt, vars, 0);
      assert r.value == saved;
    }
  }

  lemma EmptyIff(vars: seq<string>)
    ensures vars == [] <==> forall x :: x !in vars
  {
    if vars != [] { assert vars[0] in vars; }
  }

  lemma LoadedSlot(saved: Env, rebuilt: Env, vars: seq<string>, i: nat)
    requires Initialized(saved) && NoDup(Names(saved)) && Lists(vars, Names(saved))
    requires Names(rebuilt) == Names(saved)
    requires i < |saved| && LookupAll(saved, vars).Some?
    ensures
      var r := UpdateAll(rebuilt, vars, LookupAll(saved, vars).value);
      r.Some? && |r.value| == |saved| && r.value[i] == saved[i]
  {
    SaveSucceeds(saved, vars);
    var vs := LookupAll(saved, vars).value;
    LoadWrites(rebuilt, vars, vs);
    var x := saved[i].name;
    assert Names(saved)[i] == x;
    assert x in vars;
    var k :| 0 <= k < |vars| && vars[k] == x;
    WhereDistinct(saved, i);
    SameWhere(saved, rebuilt);
    assert Where(rebuilt, vars[k]) == i;
    assert Some(vs[k]) == Lookup(saved, vars[k]);
    assert |UpdateAll(rebuilt, vars, vs).value| == |Names(rebuilt)|;
  }
}
