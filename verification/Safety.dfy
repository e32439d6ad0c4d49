/** Well-scoped programs never read a local that is out of scope or uninitialized, also not in a
    frame that was rebuilt by jumping past declarations. */
module Safety {
  import opened Language
  import opened Points
  import opened Simulation
  import opened Transparency

  predicate ScopedExpr(e: Expr, names: seq<string>) {
    match e
    case Lit(_) => true
    case Var(x) => x in names
    case Bin(_, l, r) => ScopedExpr(l, names) && ScopedExpr(r, names)
  }

  /** Every name used is in scope where it is used. */
  predicate ScopedStmt(s: Stmt, names: seq<string>) {
    match s
    case Decl(_, _, e) => ScopedExpr(e, names)
    case Assign(x, e) => x in names && ScopedExpr(e, names)
    case Emit(e) => ScopedExpr(e, names)
    case Return(e) => ScopedExpr(e, names)
    case Block(_, b) => Scoped(b, names)
    case If(c, _, t, _, e) => ScopedExpr(c, names) && Scoped(t, names) && Scoped(e, names)
    case While(c, _, b) => ScopedExpr(c, names) && Scoped(b, names)
    case Await(_, to, e) => ScopedExpr(e, names) && (to.Existing? ==> to.x in names)
    case _ => false
  }

  predicate Scoped(code: Code, names: seq<string>) {
    match code
    case End => true
    case Then(s, rest) => ScopedStmt(s, names) && Scoped(rest, Declared(names, s))
  }

  predicate ScopedStack(stack: Stack, names: seq<string>) {
    match stack
    case Bottom => true
    case Push(code, mark, below) =>
      mark <= |names| && Scoped(code, names) && ScopedStack(below, names[..mark])
  }

  predicate Safe(c: Config) {
    && ScopedStack(c.stack, Names(c.env))
    && Initialized(c.env)
    && !c.status.Fault?
    && (c.status.Suspended? ==> AtAwait(c))
  }

  lemma InScope(env: Env, x: string)
    requires x in Names(env) && Initialized(env)
    ensures Lookup(env, x).Some? && Where(env, x) >= 0
  {
    var i :| 0 <= i < |env| && Names(env)[i] == x;
    assert env[i].name == x;
  }

  lemma {:induction false} ScopedEval(e: Expr, env: Env)
    requires ScopedExpr(e, Names(env)) && Initialized(env)
    ensures Eval(e, env).Some?
  {
    match e
    case Lit(_) =>
    case Var(x) => InScope(env, x);
    case Bin(_, l, r) => ScopedEval(l, env); ScopedEval(r, env);
  }

  lemma SafeUpdate(env: Env, x: string, v: int)
    requires x in Names(env) && Initialized(env)
    ensures Update(env, x, v).Some?
    ensures Names(Update(env, x, v).value) == Names(env) && Initialized(Update(env, x, v).value)
  {
    InScope(env, x);
    NamesUpdate(env, x, v);
  }

  lemma SafeResume(c: Config, r: int)
    requires Safe(c) && AtAwait(c)
    ensures Safe(Resume(c, r))
  {
    var Push(Then(s, rest), mark, below) := c.stack;
    var names := Names(c.env);
    assert ScopedStmt(s, names);
    assert Declared(names, s)[..mark] == names[..mark];
    match s.to
    case Discard =>
    case NewVar(_, x) => assert Names(c.env + [Slot(x, Val(r))]) == names + [x];
    case Existing(x) => SafeUpdate(c.env, x, r);
  }

  lemma SafeStep(body: Code, c: Config)
    requires Safe(c) && c.status.Running?
    ensures Safe(Step(body, c))
  {
    match c.stack
    case Bottom =>
    case Push(End, mark, below) => assert Names(c.env[..mark]) == Names(c.env)[..mark];
    case Push(Then(s, rest), mark, below) =>
      var names := Names(c.env);
      assert ScopedStmt(s, names);
      assert Declared(names, s)[..mark] == names[..mark] && names[..|names|] == names;
      match s
      case Decl(_, x, e) =>
        ScopedEval(e, c.env);
        assert Names(c.env + [Slot(x, Val(Eval(e, c.env).value))]) == names + [x];
      case Assign(x, e) =>
        ScopedEval(e, c.env);
        SafeUpdate(c.env, x, Eval(e, c.env).value);
      case Emit(e) => ScopedEval(e, c.env);
      case Return(e) => ScopedEval(e, c.env);
      case If(e, _, _, _, _) => ScopedEval(e, c.env);
      case While(e, _, _) => ScopedEval(e, c.env);
      case Await(_, _, e) => ScopedEval(e, c.env);
      case _ =>
  }

  lemma {:induction false} OriginalSafe(j: Job, args: seq<int>, answer: nat -> int, n: nat)
    requires |args| == |j.params| && Scoped(j.body, j.params)
    ensures Safe(j.Original(answer).Run(OriginalStart(j, args), n))
  {
    if n == 0 {
      assert j.params[..|j.params|] == j.params;
    } else {
      OriginalSafe(j, args, answer, n - 1);
      var w, c := j.Original(answer), j.Original(answer).Run(OriginalStart(j, args), n - 1);
      if c.status.Running? { SafeStep(j.body, c); }
      if c.status.Suspended? { SafeResume(c, answer(c.asked)); }
      assert w.Run(OriginalStart(j, args), n) == w.Next(c);
    }
  }

  /** The saved sets suffice: no run of the rewritten coroutine, moved anywhere, ever reads a local
      that was neither loaded nor declared since the frame was rebuilt. */
  lemma SavedSetsSuffice(j: Job, args: seq<int>, answer: nat -> int, moves: nat -> bool, m: nat)
    requires j.Ok() && |args| == |j.params| && Scoped(j.body, j.params)
    ensures !j.Migrating(answer, moves).Run(MigratingStart(j, args), m).status.Fault?
  {
    var n := MigrationTransparent(j, args, answer, moves, m);
    OriginalSafe(j, args, answer, n);
  }
}
