/** The exact conditions under which a hop puts the locals back: distinct names in scope, and at
    least one supplied result; and what a hop before the first save does. */
module Limits {
  import opened Wire
  import opened Language
  import opened Points
  import opened Restore
  import opened Simulation

  /** A slot is hidden if an inner slot has the same name. */
  predicate Hidden(env: Env, i: nat)
    requires i < |env|
  {
    Where(env, env[i].name) != i
  }

  /** Loading what was saved by name, a name perhaps more than once, puts back exactly the slots that
      are not hidden. */
  lemma {:induction false} LoadsVisible(saved: Env, rebuilt: Env, vars: seq<string>)
    requires Initialized(saved) && Names(rebuilt) == Names(saved) && forall x :: x in vars ==> x in Names(saved)
    ensures |rebuilt| == |saved| && LookupAll(saved, vars).Some?
    ensures
      var r := UpdateAll(rebuilt, vars, LookupAll(saved, vars).value);
      && r.Some? && |r.value| == |saved|
      && forall i :: 0 <= i < |saved| ==>
           r.value[i] == if saved[i].name in vars && !Hidden(saved, i) then saved[i] else rebuilt[i]
    decreases |vars|
  {
    assert |Names(rebuilt)| == |rebuilt|;
    SaveSucceeds(saved, vars);
    if vars != [] {
      var x := vars[0];
      assert x in vars && x in Names(saved);
      LoadsOne(saved, rebuilt, x);
      var v := Lookup(saved, x).value;
      LoadsVisible(saved, Update(rebuilt, x, v).value, vars[1..]);
      SaveSucceeds(saved, vars[1..]);
      hide Where, Update, Lookup, Names, Hidden;
      assert LookupAll(saved, vars).value == [v] + LookupAll(saved, vars[1..]).value;
      assert vars == [x] + vars[1..];
    }
  }

  /** Loading one name puts back the slot found under it. */
  lemma LoadsOne(saved: Env, rebuilt: Env, x: string)
    requires Initialized(saved) && Names(rebuilt) == Names(saved) && x in Names(saved)
    ensures |rebuilt| == |saved| && Lookup(saved, x).Some?
    ensures
      var r := Update(rebuilt, x, Lookup(saved, x).value);
      && r.Some? && |r.value| == |saved| && Names(r.value) == Names(saved)
      && forall i :: 0 <= i < |saved| ==>
           r.value[i] == if saved[i].name == x && !Hidden(saved, i) then saved[i] else rebuilt[i]
  {
    assert |Names(rebuilt)| == |rebuilt|;
    var i :| 0 <= i < |saved| && Names(saved)[i] == x;
    assert saved[i].name == x;
    SameWhere(saved, rebuilt);
    NamesUpdate(rebuilt, x, Lookup(saved, x).value);
  }

  /** The scope analysis lists every local in scope, whatever their names.  A frame rebuilt by a
      jump comes back whole exactly if every hidden slot is a parameter holding the default: any
      other hidden local is lost. */
  lemma ShadowedLocalsAreLost(params: seq<string>, saved: Env, vars: seq<string>)
    requires Initialized(saved) && params <= Names(saved)
    requires forall x :: x in vars <==> x in Names(saved)
    ensures
      var vs, rebuilt := LookupAll(saved, vars), JumpedInto(Defaults(params), Names(saved));
      && vs.Some?
      && (UpdateAll(rebuilt, vars, vs.value) == Some(saved) <==>
          forall i :: 0 <= i < |saved| && Hidden(saved, i) ==> i < |params| && saved[i].cell == Val(0))
  {
    var rebuilt := JumpedInto(Defaults(params), Names(saved));
    RebuiltNames(params, Names(saved));
    LoadsVisible(saved, rebuilt, vars);
    var r := UpdateAll(rebuilt, vars, LookupAll(saved, vars).value).value;
    forall i | 0 <= i < |saved|
      ensures saved[i].name in vars
      ensures rebuilt[i] == saved[i] <==> i < |params| && saved[i].cell == Val(0)
    {
      assert Names(saved)[i] == saved[i].name;
      RebuiltSlot(params, saved, i);
    }
    hide JumpedInto, Hidden, Defaults, LookupAll, UpdateAll, Names, Initialized;
    if forall i :: 0 <= i < |saved| && Hidden(saved, i) ==> rebuilt[i] == saved[i] {
      assert r == saved;
    }
  }

  lemma RebuiltNames(params: seq<string>, names: seq<string>)
    requires params <= names
    ensures Names(JumpedInto(Defaults(params), names)) == names
  {
    var env := Defaults(params);
    assert |env| == |Names(env)| == |params| && params == names[..|params|];
    JumpedIntoSlots(env, names);
  }

  /** A rebuilt slot is right by itself only if it is that of a parameter with the default value. */
  lemma RebuiltSlot(params: seq<string>, saved: Env, i: nat)
    requires Initialized(saved) && params <= Names(saved) && i < |saved|
    ensures
      var rebuilt := JumpedInto(Defaults(params), Names(saved));
      |rebuilt| == |saved| && (rebuilt[i] == saved[i] <==> i < |params| && saved[i].cell == Val(0))
  {
    var env := Defaults(params);
    assert |env| == |Names(env)| == |params| && params == Names(saved)[..|params|];
    JumpedIntoSlots(env, Names(saved));
    assert Names(saved)[i] == saved[i].name;
    if i < |params| { assert env[i] == Slot(params[i], Val(0)); }
  }

  /** Suspended anywhere, continued elsewhere with the results `rs`: after dispatch, label and load
      the locals are back, whatever they were, exactly if a result was supplied.  Only a frame that
      already equals the freshly jumped-into one gets by without. */
  lemma HopNeedsResult(j: Job, answer: nat -> int, s: Config, t: Config, rs: seq<int>)
    requires j.Ok() && Related(j, answer, Waiting, s, t)
    ensures
      var h1 := Step(j.Program(), Hop(j.Program(), j.params, t, rs));
      && h1.status.Running?
      && var h2 := Step(j.Program(), h1);
         && h2.status.Running?
         && var h3 := Step(j.Program(), h2);
            && h3.status.Running?
            && (h3.env == t.env <==> rs != [] || h1.env == t.env)
            && (Over(t.env, j.params) ==> (h3.env == t.env <==> rs != []))
  {
    var h := Hop(j.Program(), j.params, t, rs);
    assert |Supplied(rs)| == |rs|;
    HopReachesLabel(j, answer, s, t, rs);
    assert h.prom == Prom(t.prom.state, Supplied(rs)) && s.env == t.env && h.status.Running?;
    hide Step, Hop, OnTrack, Find, Supplied;
    LabelThenLoad(j, s, Step(j.Program(), h));
  }

  /** From the label, over the load. */
  lemma LabelThenLoad(j: Job, s: Config, h: Config)
    requires j.Ok() && Sound(j.body, j.params, s) && AtAwait(s) && Synced(j, s, h.prom.state)
    requires h.status.Running? && h.stack == Piece(j, s, 2) && Names(s.env) == Names(h.env)
    ensures
      var h2 := Step(j.Program(), h);
      && h2.status.Running?
      && var h3 := Step(j.Program(), h2);
         h3.status.Running? && h3.env == if h.prom.aw == [] then h.env else s.env
  {
    PieceStep(j, s, h, 2);
    var h2 := Step(j.Program(), h);
    assert h2 == h.(stack := Piece(j, s, 3));
    if h.prom.aw != [] {
      hide Step, Sound, Piece;
      LoadStep(j, s, h2);
    } else {
      PieceStep(j, s, h2, 3);
    }
  }

  /** Locals other than parameters are in scope. */
  predicate Over(env: Env, params: seq<string>) {
    |env| > |params|
  }

  lemma HopReachesLabel(j: Job, answer: nat -> int, s: Config, t: Config, rs: seq<int>)
    requires j.Ok() && Related(j, answer, Waiting, s, t)
    ensures
      var h := Hop(j.Program(), j.params, t, rs);
      var h1 := Step(j.Program(), h);
      && h1 == h.(stack := Piece(j, s, 2), env := h1.env)
      && Names(h1.env) == Names(s.env)
      && (Over(t.env, j.params) ==> h1.env != t.env)
  {
    var h := Hop(j.Program(), j.params, t, rs);
    assert |h.env| == |Names(h.env)| == |j.params|;
    DispatchStep(j, s, h);
    StageOfReached(j, s);
    hide Find, Exec, OnTrack;
    if Over(t.env, j.params) {
      assert |Names(s.env)| == |s.env|;
      JumpedIntoSlots(h.env, Names(s.env));
      assert JumpedInto(h.env, Names(s.env))[|j.params|].cell.Junk?;
      assert t.env[|j.params|].cell.Val?;
    }
  }

  /** A state from before the first save is empty.  Continuing from it restarts the coroutine with
      default arguments: the run is that of the original on those. */
  lemma HopBeforeSaveRestarts(j: Job, answer: nat -> int, moves: nat -> bool, rs: seq<int>, m: nat)
    returns (n: nat)
    requires j.Ok()
    ensures
      var s := j.Original(answer).Run(Started(j.body, Defaults(j.params), Prom(NoState, [])), n);
      var t := j.Migrating(answer, moves).Run(ContinueFrom(j.Program(), j.params, NoState, rs), m);
      && n <= m <= 8 * n + 7 && t.trace == s.trace
      && (t.status.Done? || s.status.Done? ==> t.status == s.status)
  {
    var s0 := Started(j.body, Defaults(j.params), Prom(NoState, []));
    var t0 := ContinueFrom(j.Program(), j.params, NoState, rs);
    OnTrackInitially(j.body, j.params);
    assert |Defaults(j.params)| == |Names(Defaults(j.params))|;
    assert Initialized(Defaults(j.params));
    assert Related(j, answer, Booting(0), s0, t0);
    var ph;
    n, ph := KeepsRelated(j, answer, moves, Booting(0), s0, t0, m);
  }
}
