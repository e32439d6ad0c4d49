/** The promise and the coroutine handle as objects, against the machine they drive. */
module Protocol {
  import opened Wire
  import opened Language
  import opened Runs

  /** A coroutine frame with its promise.  It is created suspended before its body. */
  class Frame {
    const body: Code
    const params: seq<string>
    var state: Blob
    var aw: seq<Elem>
    var started: bool
    var c: Config

    /** What the machine sees: the configuration with the promise's current fields. */
    function View(): Config
      reads this
    {
      c.(prom := Prom(state, aw))
    }

    constructor (body: Code, params: seq<string>, env: Env)
      ensures this.body == body && this.params == params && !started
      ensures View() == Started(body, env, Prom(NoState, []))
    {
      this.body, this.params := body, params;
      state, aw, started := NoState, [], false;
      c := Started(body, env, Prom(NoState, []));
    }

    predicate Done()
      reads this
    {
      c.status.Done? || c.status.Fault?
    }

    /** About to continue: at its beginning, or with `r` delivered to its await. */
    function Begun(r: int): Config
      reads this
    {
      if started && c.status.Suspended? then Resume(View(), r) else View()
    }

    // ----- promise -----

    /** The stage to dispatch to: read from a structured or a scalar state, 0 if there is none. */
    method Stage() returns (n: nat)
      ensures n == StageOf(state) <= 0xFFFF
    {
      n := match state
        case NoState => 0
        case Structured(first, _) => first
        case Scalar(only) => only;
      n := n % 0x1_0000;
    }

    method Save(i: nat, vs: seq<int>)
      modifies this`state
      ensures state == Encode(i, vs)
      ensures StageOf(state) == i <==> i <= 0xFFFF
      ensures ValuesOf(state) == vs
    {
      StateRoundTrip(i, vs);
      if |vs| == 0 { state := Scalar(i % 0x1_0000); } else { state := Structured(i % 0x1_0000, vs); }
    }

    /** Overwrite the given locals with the saved values, in order, skipping the stage; nothing
        happens while no awaiter or result is stored. */
    method Load(t: array<Cell>)
      requires aw != [] ==> t.Length <= |ValuesOf(state)|
      modifies t
      ensures aw == [] ==> t[..] == old(t[..])
      ensures aw != [] ==> forall k :: 0 <= k < t.Length ==> t[k] == Val(ValuesOf(state)[k])
    {
      if aw == [] { return; }
      var v := ValuesOf(state);
      var i := 0;
      while i < t.Length
        invariant 0 <= i <= t.Length
        invariant forall k :: 0 <= k < i ==> t[k] == Val(v[k])
      {
        t[i] := Val(0);
        t[i] := Val(v[i]);
        i := i + 1;
      }
    }

    /** Is element `i` stored? */
    predicate Has(i: nat)
      reads this
    {
      i < |aw|
    }

    method Put(e: Elem)
      modifies this`aw
      ensures aw == old(aw) + [e]
    {
      aw := aw + [e];
    }

    /** Clear; capacity is not observable. */
    method Resize(n: nat)
      modifies this`aw
      ensures aw == []
    {
      aw := [];
    }

    /** A supplied result; an awaiter stored there instead is a bad cast. */
    method GetAs(i: nat) returns (r: Option<int>)
      requires Has(i)
      ensures r == match aw[i] case Result(v) => Some(v) case Awaiter(_) => None
    {
      r := match aw[i] case Result(v) => Some(v) case Awaiter(_) => None;
    }

    /** Keep an awaiter in the vector if it is empty, else in the await expression itself. */
    method AwaitTransform(v: int)
      modifies this`aw
      ensures aw == Transform(old(aw), v)
    {
      if aw == [] { Put(Awaiter(v)); }
    }

    // ----- execution -----

    /** The machine reaches configuration `v`; the promise is not involved. */
    method Become(v: Config)
      requires v.prom == Prom(state, aw)
      modifies this`c
      ensures View() == v
    {
      c := v;
    }

    /** One step of the running body.  What concerns the promise is done by the promise. */
    method Advance()
      requires c.status.Running?
      modifies this
      ensures View() == Step(body, old(View())) && started == old(started)
    {
      match c.stack
      case Push(Then(s, rest), mark, below) =>
        var next := Push(rest, mark, below);
        match s {
          case Dispatch(table) => ExecDispatch(table, next);
          case Save(n, vars) => ExecSave(n, vars, next);
          case Resize => Resize(1); c := c.(stack := next);
          case Load(vars) => ExecLoad(vars, next);
          case Await(_, _, e) => ExecAsk(e);
          case Take(id, to, e) => ExecTake(id, to, e, next);
          case _ => Become(Step(body, View()));
        }
      case _ => Become(Step(body, View()));
    }

    /** `if (st = p->stage()) goto *stages[st]` */
    method ExecDispatch(table: seq<nat>, next: Stack)
      requires c.status.Running? && c.stack.Push?
      modifies this`c
      ensures View() == Exec(body, old(View()), Dispatch(table), next)
    {
      var st := Stage();
      if st == 0 {
        c := c.(stack := next);
      } else if st < |table| {
        Become(Jump(body, View(), table[st]));
      } else {
        c := c.(status := Fault);
      }
    }

    /** `p->save(n, vars...)` */
    method ExecSave(n: nat, vars: seq<string>, next: Stack)
      requires c.status.Running? && c.stack.Push?
      modifies this`c, this`state
      ensures View() == Exec(body, old(View()), Stmt.Save(n, vars), next)
    {
      match LookupAll(c.env, vars)
      case Some(vs) =>
        Save(n % 0x1_0000, vs);
        c := c.(stack := next);
      case None =>
        c := c.(status := Fault);
    }

    /** `p->load(vars...)`: the locals are passed by reference. */
    method ExecLoad(vars: seq<string>, next: Stack)
      requires c.status.Running? && c.stack.Push?
      modifies this`c
      ensures View() == Exec(body, old(View()), Stmt.Load(vars), next)
    {
      if aw != [] && |ValuesOf(state)| < |vars| {
        TooFew(c.env, vars, ValuesOf(state));
        c := c.(status := Fault);
        return;
      }
      var t := new Cell[|vars|](_ => Junk);
      Load(t);
      if aw != [] {
        var env := WriteBack(c.env, vars, t, ValuesOf(state));
        c := if env.Some? then c.(stack := next, env := env.value) else c.(status := Fault);
      } else {
        c := c.(stack := next);
      }
    }

    /** Suspend in an await. */
    method ExecAsk(e: Expr)
      requires c.status.Running?
      modifies this`c, this`aw
      ensures View() == Ask(old(View()), e)
    {
      match Eval(e, c.env)
      case Some(v) =>
        AwaitTransform(v);
        c := c.(status := Suspended, trace := c.trace + [Awaiting(v)], asked := c.asked + 1);
      case None =>
        c := c.(status := Fault);
    }

    /** `p->aw.has(0) ? p->aw.get_as(0) : co_await e` */
    method ExecTake(id: nat, to: Target, e: Expr, next: Stack)
      requires c.status.Running? && c.stack.Push?
      modifies this`c, this`aw
      ensures View() == Exec(body, old(View()), Take(id, to, e), next)
    {
      if Has(0) {
        var r := GetAs(0);
        if r.Some? {
          Become(Deliver(View().(taken := c.taken + [id]), to, r.value, next));
        } else {
          c := c.(status := Fault);
        }
      } else {
        ExecAsk(e);
      }
    }
  }

  /** A handle to a coroutine, owning its frame or not. */
  class SerCtx {
    var frame: Frame?
    var owner: bool

    constructor (frame: Frame?, owner: bool)
      ensures this.frame == frame && this.owner == owner
    {
      this.frame, this.owner := frame, owner;
    }

    /** The handle is copied; ownership moves, so that `o` keeps a handle without it. */
    method MoveAssign(o: SerCtx)
      modifies this, o
      ensures frame == old(o.frame) && o.frame == old(o.frame)
      ensures this != o ==> owner == old(o.owner) && !o.owner
      ensures this == o ==> !owner
    {
      frame := o.frame;
      owner := false;
      var mine := owner;
      owner := o.owner;
      o.owner := mine;
    }

    /** Last saved state of an unfinished coroutine. */
    method Serialize() returns (s: Blob)
      requires frame != null && !frame.Done()
      ensures s == frame.state
    {
      s := frame.state;
    }

    method Deserialize(s: Blob)
      modifies frame
      ensures frame != null ==> frame.View() == old(frame.View()).(prom := Prom(s, old(frame.aw)))
      ensures frame != null ==> frame.state == s && frame.started == old(frame.started)
    {
      if frame != null { frame.state := s; }
    }

    method SetAwRet(x: int)
      modifies frame
      ensures frame != null ==> frame.View() == old(frame.View()).(prom := Prom(old(frame.state), frame.aw))
      ensures frame != null ==> frame.aw == old(frame.aw) + [Result(x)] && frame.started == old(frame.started)
    {
      if frame != null { frame.Put(Result(x)); }
    }

    /** Continue an unfinished coroutine: begin its body, or deliver `r` to its await, and run until it
        suspends again or ends, which takes at most `k` steps. */
    method Call(r: int, ghost k: nat)
      requires frame != null && !frame.Done() ==> !StepsOf(frame.body, frame.Begun(r), k).status.Running?
      modifies frame
      ensures frame != null && old(frame.Done()) ==> frame.View() == old(frame.View()) && frame.Done()
      ensures frame != null && !old(frame.Done()) ==>
        frame.started && frame.View() == StepsOf(frame.body, old(frame.Begun(r)), k)
    {
      if frame != null && !frame.Done() {
        if frame.started && frame.c.status.Suspended? {
          frame.Become(Resume(frame.View(), r));
        }
        frame.started := true;
        ghost var i := 0;
        while frame.c.status.Running?
          invariant 0 <= i <= k && frame.started
          invariant StepsOf(frame.body, frame.View(), k - i) == StepsOf(frame.body, old(frame.Begun(r)), k)
          decreases k - i
        {
          frame.Advance();
          i := i + 1;
        }
      }
    }

    /** Move construction: an empty handle that is then assigned. */
    constructor Moved(o: SerCtx)
      modifies o
      ensures frame == old(o.frame) && owner == old(o.owner)
      ensures o.frame == old(o.frame) && !o.owner
    {
      frame, owner := null, false;
      new;
      MoveAssign(o);
    }
  }

  /** Loading needs as many values as locals. */
  lemma {:induction false} TooFew(env: Env, vars: seq<string>, vs: seq<int>)
    requires |vs| < |vars|
    ensures UpdateAll(env, vars, vs) == None
    decreases |vars|
  {
    if vs != [] && Update(env, vars[0], vs[0]).Some? {
      TooFew(Update(env, vars[0], vs[0]).value, vars[1..], vs[1..]);
    }
  }

  /** The locals after the references to them were written. */
  method WriteBack(env: Env, vars: seq<string>, t: array<Cell>, ghost vs: seq<int>) returns (r: Option<Env>)
    requires t.Length == |vars| <= |vs| && forall k :: 0 <= k < t.Length ==> t[k] == Val(vs[k])
    ensures r == UpdateAll(env, vars, vs)
  {
    var now, k := env, 0;
    while k < |vars|
      invariant 0 <= k <= |vars|
      invariant UpdateAll(now, vars[k..], vs[k..]) == UpdateAll(env, vars, vs)
    {
      assert vars[k..][1..] == vars[k + 1..] && vs[k..][1..] == vs[k + 1..];
      var next := Update(now, vars[k], t[k].v);
      if next.None? { return None; }
      now, k := next.value, k + 1;
    }
    return Some(now);
  }

  /** Make the handle an owner, begin the body of an unfinished coroutine, and hand over a new owning
      handle. */
  method Start(c: SerCtx, ghost k: nat) returns (d: SerCtx)
    requires c.frame != null && !c.frame.Done() ==> !StepsOf(c.frame.body, c.frame.Begun(0), k).status.Running?
    modifies c, c.frame
    ensures fresh(d) && d.frame == c.frame == old(c.frame) && d.owner && !c.owner
    ensures d.frame != null && old(c.frame != null && c.frame.Done()) ==> d.frame.View() == old(c.frame.View())
    ensures d.frame != null && !old(c.frame != null && c.frame.Done()) ==>
      d.frame.started && d.frame.View() == StepsOf(d.frame.body, old(c.frame.Begun(0)), k)
  {
    c.owner := true;
    c.Call(0, k);
    d := new SerCtx.Moved(c);
  }

  /** A fresh coroutine with default arguments, given the state and the results, and started: it runs
      from the machine's configuration after a hop to its next suspension or its end. */
  method Continue(body: Code, params: seq<string>, ser: Blob, rs: seq<int>, ghost k: nat) returns (d: SerCtx)
    requires !StepsOf(body, ContinueFrom(body, params, ser, rs), k).status.Running?
    ensures fresh(d) && d.owner && d.frame != null && fresh(d.frame) && d.frame.started
    ensures d.frame.body == body && d.frame.params == params
    ensures d.frame.View() == StepsOf(body, ContinueFrom(body, params, ser, rs), k)
  {
    var f := new Frame(body, params, Defaults(params));
    var c := new SerCtx(f, true);
    c.Deserialize(ser);
    f.Resize(|rs|);
    var i := 0;
    while i < |rs|
      invariant 0 <= i <= |rs|
      invariant c.frame == f && !f.started
      invariant f.View() == Started(body, Defaults(params), Prom(ser, Supplied(rs[..i])))
    {
      c.SetAwRet(rs[i]);
      assert Supplied(rs[..i + 1]) == Supplied(rs[..i]) + [Result(rs[i])];
      i := i + 1;
    }
    assert rs[..i] == rs;
    d := Start(c, k);
  }

  /** Saving in one process and restoring in another: the new coroutine runs from the machine's hop of
      the suspended one, but for its history, to its next suspension or its end. */
  method MoveElsewhere(c: SerCtx, rs: seq<int>, ghost k: nat) returns (d: SerCtx)
    requires c.frame != null && !c.frame.Done()
    requires !StepsOf(c.frame.body, Anew(Hop(c.frame.body, c.frame.params, c.frame.View(), rs)), k).status.Running?
    ensures fresh(d) && d.owner && d.frame != null && fresh(d.frame) && d.frame.started
    ensures d.frame.View() == StepsOf(c.frame.body, Anew(Hop(c.frame.body, c.frame.params, c.frame.View(), rs)), k)
  {
    var ser := c.Serialize();
    d := Continue(c.frame.body, c.frame.params, ser, rs, k);
  }

  /** Without history. */
  function Anew(c: Config): Config {
    c.(trace := [], asked := 0, hopped := [], taken := [])
  }

  /** Call an unfinished coroutine again and again until it is finished, as it is after `end` moves. */
  method RunToEnd(d: SerCtx, answer: nat -> int, ghost end: nat)
    requires d.frame != null && d.frame.started
    requires Over(World(d.frame.body, d.frame.params, answer, _ => false).Run(d.frame.View(), end))
    modifies d.frame
    ensures d.frame.Done()
    ensures d.frame.View() == World(d.frame.body, d.frame.params, answer, _ => false).Run(old(d.frame.View()), end)
  {
    hide World.Run, World.Next, StepsOf, Step, Resume;
    ghost var w := World(d.frame.body, d.frame.params, answer, _ => false);
    ghost var k := 0;
    RunNothing(w, d.frame.View());
    while !d.frame.Done()
      invariant 0 <= k <= end && d.frame.started
      invariant d.frame.View() == w.Run(old(d.frame.View()), k)
      decreases end - k
    {
      var r := answer(d.frame.c.asked);
      ghost var k' := NextStop(w, old(d.frame.View()), k, end);
      d.Call(r, end - if d.frame.c.status.Running? then k else k + 1);
      k := k';
    }
    OverStays(w, old(d.frame.View()), k, end);
  }
}
