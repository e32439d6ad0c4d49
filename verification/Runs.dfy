/** Running a concrete program move by move: one rule for each kind of move. */
module Runs {
  import opened Wire
  import opened Language

  /** After `m` moves from `c` the machine is about to execute `s`. */
  ghost predicate Before(w: World, c: Config, m: nat, d: Config, s: Stmt, next: Stack) {
    && w.Run(c, m) == d && d.status.Running?
    && next.Push? && d.stack == Push(Then(s, next.code), next.mark, next.below)
  }

  lemma Move(w: World, c: Config, m: nat, d: Config)
    requires w.Run(c, m) == d
    ensures w.Run(c, m + 1) == w.Next(d)
  {
    hide World.Next;
  }

  lemma RunDecl(w: World, c: Config, m: nat, d: Config, s: Stmt, next: Stack, v: int)
    requires Before(w, c, m, d, s, next) && s.Decl? && Eval(s.e, d.env) == Some(v)
    ensures w.Run(c, m + 1) == d.(stack := next, env := d.env + [Slot(s.x, Val(v))])
  {
    Move(w, c, m, d);
  }

  lemma RunAssign(w: World, c: Config, m: nat, d: Config, s: Stmt, next: Stack, v: int, env: Env)
    requires Before(w, c, m, d, s, next) && s.Assign? && Eval(s.e, d.env) == Some(v)
        && Update(d.env, s.x, v) == Some(env)
    ensures w.Run(c, m + 1) == d.(stack := next, env := env)
  {
    Move(w, c, m, d);
  }

  lemma RunEmit(w: World, c: Config, m: nat, d: Config, s: Stmt, next: Stack, v: int)
    requires Before(w, c, m, d, s, next) && s.Emit? && Eval(s.e, d.env) == Some(v)
    ensures w.Run(c, m + 1) == d.(stack := next, trace := d.trace + [Out(v)])
  {
    Move(w, c, m, d);
  }

  lemma RunBlock(w: World, c: Config, m: nat, d: Config, s: Stmt, next: Stack)
    requires Before(w, c, m, d, s, next) && s.Block?
    ensures w.Run(c, m + 1) == d.(stack := Push(s.body, |d.env|, next))
  {
    Move(w, c, m, d);
  }

  /** A condition other than zero is true. */
  lemma RunIf(w: World, c: Config, m: nat, d: Config, s: Stmt, next: Stack, v: int)
    requires Before(w, c, m, d, s, next) && s.If? && Eval(s.c, d.env) == Some(v)
    ensures w.Run(c, m + 1) == d.(stack := Push(if v == 0 then s.els else s.thn, |d.env|, next))
  {
    Move(w, c, m, d);
  }

  /** After its body a loop is there again. */
  lemma RunWhile(w: World, c: Config, m: nat, d: Config, s: Stmt, next: Stack, v: int)
    requires Before(w, c, m, d, s, next) && s.While? && Eval(s.c, d.env) == Some(v)
    ensures w.Run(c, m + 1) == d.(stack := if v == 0 then next else Push(s.body, |d.env|, d.stack))
  {
    Move(w, c, m, d);
  }

  lemma RunStuck(w: World, c: Config, m: nat, d: Config, s: Stmt, next: Stack)
    requires Before(w, c, m, d, s, next) && (s.If? || s.While?) && Eval(s.c, d.env) == None
    ensures w.Run(c, m + 1) == d.(status := Fault)
  {
    Move(w, c, m, d);
  }

  /** The end of a compound. */
  lemma RunEnd(w: World, c: Config, m: nat, d: Config, mark: nat, below: Stack)
    requires w.Run(c, m) == d && d.status.Running? && d.stack == Push(End, mark, below)
    ensures w.Run(c, m + 1) == d.(stack := below, env := Cut(d.env, mark))
  {
    Move(w, c, m, d);
  }

  /** The end of the body. */
  lemma RunFinish(w: World, c: Config, m: nat, d: Config, mark: nat)
    requires w.Run(c, m) == d && d.status.Running? && d.stack == Push(End, mark, Bottom)
    ensures w.Run(c, m + 2).status == Done(None) && w.Run(c, m + 2).trace == d.trace
  {
    RunEnd(w, c, m, d, mark, Bottom);
    Move(w, c, m + 1, d.(stack := Bottom, env := Cut(d.env, mark)));
  }

  /** A new coroutine starts at the beginning. */
  lemma RunDispatch(w: World, c: Config, m: nat, d: Config, s: Stmt, next: Stack)
    requires Before(w, c, m, d, s, next) && s.Dispatch? && StageOf(d.prom.state) == 0
    ensures w.Run(c, m + 1) == d.(stack := next)
  {
    Move(w, c, m, d);
  }

  /** A rebuilt one jumps to the label of its stage. */
  lemma RunJump(w: World, c: Config, m: nat, d: Config, s: Stmt, next: Stack, n: nat, p: Point)
    requires Before(w, c, m, d, s, next) && s.Dispatch?
    requires 0 < StageOf(d.prom.state) < |s.table| && s.table[StageOf(d.prom.state)] == n
    requires Find(w.body, |d.env|, Names(d.env), Bottom, LabelNo(n)) == Some(p)
    ensures w.Run(c, m + 1) == d.(stack := p.stack, env := JumpedInto(d.env, p.names))
  {
    hide Find;
    Move(w, c, m, d);
  }

  /** The same, where no locals are to be made. */
  lemma RunJumpTo(w: World, c: Config, m: nat, d: Config, s: Stmt, rest: Code, n: nat, to: Stack)
    requires w.Run(c, m) == d && d.status.Running? && d.stack == Push(Then(s, rest), 0, Bottom) && s.Dispatch?
    requires 0 < StageOf(d.prom.state) < |s.table| && s.table[StageOf(d.prom.state)] == n
    requires Find(w.body, |d.env|, Names(d.env), Bottom, LabelNo(n)) == Some(Point(to, []))
        && JumpedInto(d.env, []) == d.env
    ensures w.Run(c, m + 1) == d.(stack := to)
  {
    hide World.Run, World.Next, Find, JumpedInto, StageOf, Names;
    RunJump(w, c, m, d, s, Push(rest, 0, Bottom), n, Point(to, []));
  }

  lemma RunSave(w: World, c: Config, m: nat, d: Config, s: Stmt, next: Stack, vs: seq<int>)
    requires Before(w, c, m, d, s, next) && s.Save? && LookupAll(d.env, s.vars) == Some(vs)
    ensures w.Run(c, m + 1) == d.(stack := next, prom := d.prom.(state := Encode(U16(s.n), vs)))
  {
    hide LookupAll;
    Move(w, c, m, d);
  }

  lemma RunResize(w: World, c: Config, m: nat, d: Config, s: Stmt, next: Stack)
    requires Before(w, c, m, d, s, next) && s.Resize?
    ensures w.Run(c, m + 1) == d.(stack := next, prom := d.prom.(aw := []))
  {
    Move(w, c, m, d);
  }

  lemma RunLabel(w: World, c: Config, m: nat, d: Config, s: Stmt, next: Stack)
    requires Before(w, c, m, d, s, next) && s.Label?
    ensures w.Run(c, m + 1) == d.(stack := next)
  {
    Move(w, c, m, d);
  }

  lemma RunLoad(w: World, c: Config, m: nat, d: Config, s: Stmt, next: Stack, env: Env)
    requires Before(w, c, m, d, s, next) && s.Load? && LoadInto(d.prom, d.env, s.vars) == Some(env)
    ensures w.Run(c, m + 1) == d.(stack := next, env := env)
  {
    hide LoadInto;
    Move(w, c, m, d);
  }

  /** The await is asked and suspends. */
  lemma RunAsk(w: World, c: Config, m: nat, d: Config, s: Stmt, next: Stack, v: int)
    requires Before(w, c, m, d, s, next) && (s.Await? || (s.Take? && d.prom.aw == [])) && Eval(s.e, d.env) == Some(v)
    ensures w.Run(c, m + 1) == d.(status := Suspended, trace := d.trace + [Awaiting(v)], asked := d.asked + 1,
                                  prom := d.prom.(aw := Transform(d.prom.aw, v)))
  {
    Move(w, c, m, d);
  }

  /** Resumed in place. */
  lemma RunResume(w: World, c: Config, m: nat, d: Config)
    requires w.Run(c, m) == d && d.status.Suspended? && !w.moves(d.asked)
    ensures w.Run(c, m + 1) == Resume(d, w.answer(d.asked))
  {
    hide Resume;
    Move(w, c, m, d);
  }

  /** Moved to another process. */
  lemma RunHop(w: World, c: Config, m: nat, d: Config)
    requires w.Run(c, m) == d && d.status.Suspended? && w.moves(d.asked) && AtAwait(d)
    ensures w.Run(c, m + 1) == d.(status := Running, stack := Push(w.body, |w.params|, Bottom),
        env := Defaults(w.params),
                                  prom := Prom(d.prom.state, [Result(w.answer(d.asked))]),
                                  hopped := d.hopped + [d.stack.code.head.at])
  {
    Move(w, c, m, d);
    assert |Defaults(w.params)| == |Names(Defaults(w.params))|;
    assert Supplied([w.answer(d.asked)]) == [Result(w.answer(d.asked))];
  }

  /** The pieces the value-carrying form puts around an await, from the save to the suspension. */
  lemma RunCarried(w: World, c: Config, m: nat, d: Config, n: nat, vars: seq<string>, vs: seq<int>,
                   take: Stmt, rest: Code, mark: nat, below: Stack, v: int)
    requires w.Run(c, m) == d && d.status.Running? && take.Take?
    requires d.stack == Push(Then(Save(n, vars), Then(Resize,
        Then(Label(n), Then(Load(vars), Then(take, rest))))), mark, below)
    requires Eval(take.e, d.env) == Some(v) && LookupAll(d.env, vars) == Some(vs)
    ensures w.Run(c, m + 5) == d.(status := Suspended, stack := Push(Then(take, rest), mark, below),
              trace := d.trace + [Awaiting(v)], asked := d.asked + 1, prom := Prom(Encode(U16(n), vs), [Awaiter(v)]))
  {
    hide World.Run, World.Next, LookupAll, Encode, U16, Eval;
    var c4 := Then(take, rest);
    var c3 := Then(Load(vars), c4);
    var c2 := Then(Label(n), c3);
    var c1 := Then(Resize, c2);
    RunSave(w, c, m, d, Save(n, vars), Push(c1, mark, below), vs);
    RunResize(w, c, m + 1, w.Run(c, m + 1), Resize, Push(c2, mark, below));
    RunLabel(w, c, m + 2, w.Run(c, m + 2), Label(n), Push(c3, mark, below));
    RunLoad(w, c, m + 3, w.Run(c, m + 3), Load(vars), Push(c4, mark, below), d.env);
    RunAsk(w, c, m + 4, w.Run(c, m + 4), take, Push(rest, mark, below), v);
  }

  // ----- runs as wholes -----

  lemma {:induction false} RunAdds(world: World, s: Config, a: nat, b: nat)
    ensures world.Run(s, a + b) == world.Run(world.Run(s, a), b)
    decreases b
  {
    hide World.Next;
    if b > 0 { RunAdds(world, s, a, b - 1); }
  }

  lemma RunNothing(w: World, c: Config)
    ensures w.Run(c, 0) == c
  {
  }

  predicate Over(c: Config) {
    c.status.Done? || c.status.Fault?
  }

  /** A finished run stays as it is. */
  lemma {:induction false} OverStays(w: World, c: Config, n: nat, n': nat)
    requires n <= n' && Over(w.Run(c, n))
    ensures w.Run(c, n') == w.Run(c, n)
    decreases n'
  {
    hide Step, Resume, Hop;
    if n < n' {
      OverStays(w, c, n, n' - 1);
      assert w.Run(c, n') == w.Next(w.Run(c, n' - 1));
    }
  }

  /** Events are only ever appended. */
  lemma {:induction false} TraceGrows(w: World, c: Config, n: nat, n': nat)
    requires n <= n'
    ensures w.Run(c, n).trace <= w.Run(c, n').trace
    decreases n'
  {
    hide World.Next;
    if n < n' {
      TraceGrows(w, c, n, n' - 1);
      Move(w, c, n' - 1, w.Run(c, n' - 1));
      NextAppends(w, w.Run(c, n' - 1));
      Prefixes(w.Run(c, n).trace, w.Run(c, n' - 1).trace, w.Run(c, n').trace);
    }
  }

  lemma Prefixes(a: seq<Event>, b: seq<Event>, c: seq<Event>)
    requires a <= b && b <= c
    ensures a <= c
  {
  }

  lemma NextAppends(w: World, c: Config)
    ensures c.trace <= w.Next(c).trace
  {
    if c.status.Running? {
      match c.stack
      case Push(Then(_, _), _, _) =>
      case _ =>
    }
  }

  /** At most `m` steps, ending early at a suspension or at the end. */
  function StepsOf(body: Code, c: Config, m: nat): Config
    decreases m
  {
    if m == 0 || !c.status.Running? then c else StepsOf(body, Step(body, c), m - 1)
  }

  /** Running without a stop is running in a world. */
  lemma {:induction false} StepsAreRun(w: World, c: Config, m: nat) returns (n: nat)
    ensures n <= m && StepsOf(w.body, c, m) == w.Run(c, n)
    ensures n < m ==> !w.Run(c, n).status.Running?
    decreases m
  {
    hide Step, World.Next;
    assert w.Run(c, 0) == c;
    if m == 0 || !c.status.Running? {
      n := 0;
    } else {
      var next := Step(w.body, c);
      n := StepsAreRun(w, next, m - 1);
      RunsOn(w, c, n);
      n := n + 1;
    }
  }

  lemma RunsOn(w: World, c: Config, n: nat)
    ensures w.Run(w.Next(c), n) == w.Run(c, n + 1)
    ensures c.status.Running? ==> w.Next(c) == Step(w.body, c)
  {
    hide Step, Resume, Hop;
    assert w.Run(c, 0) == c;
    assert w.Run(c, 1) == w.Next(c);
    RunAdds(w, c, 1, n);
  }

  /** From move `k` of a run that is over at `end`, one call leads to a later move `n`. */
  lemma NextStop(w: World, c: Config, k: nat, end: nat) returns (n: nat)
    requires k <= end && Over(w.Run(c, end)) && !Over(w.Run(c, k)) && forall i :: !w.moves(i)
    ensures k < n <= end && !w.Run(c, n).status.Running?
    ensures
      var d := w.Run(c, k);
      && (d.status.Running? ==> StepsOf(w.body, d, end - k) == w.Run(c, n))
      && (d.status.Suspended? ==> StepsOf(w.body, Resume(d, w.answer(d.asked)), end - (k + 1)) == w.Run(c, n))
  {
    var d := w.Run(c, k);
    hide World.Run, StepsOf, Step, Resume, Hop;
    if d.status.Running? {
      n := StopFrom(w, c, k, end);
    } else {
      Move(w, c, k, d);
      assert k != end;
      n := StopFrom(w, c, k + 1, end);
    }
  }

  lemma StopFrom(w: World, c: Config, k: nat, end: nat) returns (n: nat)
    requires k <= end && Over(w.Run(c, end))
    ensures k <= n <= end && StepsOf(w.body, w.Run(c, k), end - k) == w.Run(c, n) && !w.Run(c, n).status.Running?
  {
    hide World.Next, Step, StepsOf;
    var m := StepsAreRun(w, w.Run(c, k), end - k);
    RunAdds(w, c, k, m);
    RunAdds(w, c, k, end - k);
    n := k + m;
  }
}
