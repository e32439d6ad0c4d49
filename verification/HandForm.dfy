/** The hand-written value-carrying coroutine and its way through two processes. */
module HandForm {
  import opened Wire
  import opened Language
  import opened Points
  import opened Restore
  import opened Rewrite
  import opened Simulation
  import opened Transparency
  import opened Runs

  const FIRST: nat := 1
  const SECOND: nat := 2

  /** The coroutine as its author thinks of it; `w` and `v` stand for what the work on `in` and on `j`
      adds.  That depends on addresses, so the two need not be the same, wherever they happen. */
  function KSource(w: int, v: int): Code {
    Then(Emit(Var("in")),
    Then(Assign("in", Bin(Plus, Var("in"), Lit(w))),
    Then(Emit(Var("in")),
    Then(Await(FIRST, NewVar(0, "j"), Var("in")),
    Then(Emit(Var("j")),
    Then(Assign("j", Bin(Plus, Var("j"), Lit(v))),
    Then(Emit(Var("j")),
    Then(Await(SECOND, Discard, Lit(0)),
    Then(Emit(Var("in")),
    Then(Emit(Var("j")),
    Then(Return(Lit(14)), End)))))))))))
  }

  /** The coroutine as it is written. */
  function KWritten(w: int, v: int): Code {
    Then(Dispatch([0, 1, 2]),
    Then(Label(0),
    Then(Emit(Var("in")),
    Then(Assign("in", Bin(Plus, Var("in"), Lit(w))),
    Then(Emit(Var("in")),
    Then(Save(1, ["in"]),
    Then(Resize,
    Then(Label(1),
    Then(Load(["in"]),
    Then(Take(FIRST, NewVar(0, "j"), Var("in")),
    Then(Emit(Var("j")),
    Then(Assign("j", Bin(Plus, Var("j"), Lit(v))),
    Then(Emit(Var("j")),
    Then(Save(2, ["in", "j"]),
    Then(Resize,
    Then(Label(2),
    Then(Load(["in", "j"]),
    Then(Take(SECOND, Discard, Lit(0)),
    Then(Emit(Var("in")),
    Then(Emit(Var("j")),
    Then(Return(Lit(14)), End)))))))))))))))))))))
  }

  function KStages(): seq<Stage> {
    [Stage(FIRST, ["in"]), Stage(SECOND, ["in", "j"])]
  }

  function KJob(w: int, v: int): Job {
    Job(KSource(w, v), ["in"], KStages(), Carrying)
  }

  lemma KStageNumbers()
    ensures StageNo(KStages(), FIRST) == 1 && StageNo(KStages(), SECOND) == 2
  {
    assert KStages()[0].aw == FIRST && KStages()[1].aw == SECOND;
  }

  /** What was written by hand is exactly the value-carrying rewriting. */
  lemma KIsRewriting(w: int, v: int)
    ensures KWritten(w, v) == KJob(w, v).Program()
  {
    KStageNumbers();
    assert Table(2) == [0, 1, 2];
    var ss := KStages();
    var c3 := KSource(w, v).tail.tail.tail;
    var c7 := c3.tail.tail.tail.tail;
    var c10 := c7.tail.tail.tail;
    assert RewriteCode(c10, ss, Carrying) == c10;
    assert RewriteCode(c7.tail, ss, Carrying) == c7.tail;
    assert RewriteCode(c7, ss, Carrying) == Expanded(Carrying, 2, ["in", "j"], c7.head, c7.tail);
    assert RewriteCode(c3.tail.tail, ss, Carrying)
        == Then(c3.tail.tail.head, Then(c3.tail.tail.tail.head, RewriteCode(c7, ss, Carrying)));
    assert RewriteCode(c3, ss, Carrying) == Expanded(Carrying, 1, ["in"], c3.head, RewriteCode(c3.tail, ss, Carrying));
    var c0 := KSource(w, v);
    assert RewriteCode(c0.tail.tail, ss, Carrying) == Then(c0.tail.tail.head, RewriteCode(c3, ss, Carrying));
    assert RewriteCode(c0, ss, Carrying) == Then(c0.head, Then(c0.tail.head, RewriteCode(c0.tail.tail, ss, Carrying)));
    assert RewriteCode(c3.tail, ss, Carrying) == Then(c3.tail.head, RewriteCode(c3.tail.tail, ss, Carrying));
  }

  /** Facts about code whose head is no compound, from those about the rest. */
  lemma FlatStep(s: Stmt, rest: Code, names: seq<string>, mark: nat, id: nat)
    requires s.Emit? || s.Assign? || s.Return? || s.Await?
    requires IsUser(rest) && Distinct(rest) && Unshadowed(rest, Declared(names, s))
    requires s.Await? ==> s.at !in Ids(rest) && (s.to.NewVar? ==> s.to.x !in names)
    ensures IsUser(Then(s, rest)) && Distinct(Then(s, rest)) && Unshadowed(Then(s, rest), names)
    ensures Ids(Then(s, rest)) == (if s.Await? then {s.at} else {}) + Ids(rest)
    ensures Find(Then(s, rest), mark, names, Bottom, AwaitAt(id))
      == if s.Await? && s.at == id then Some(Point(Push(Then(s, rest), mark, Bottom), names))
         else Find(rest, mark, Declared(names, s), Bottom, AwaitAt(id))
  {
  }

  lemma FlatTail(w: int, v: int, id: nat)
    ensures
      var c7 := KSource(w, v).tail.tail.tail.tail.tail.tail.tail;
      && IsUser(c7) && Distinct(c7) && Unshadowed(c7, ["in", "j"]) && Ids(c7) == {SECOND}
      && Find(c7, 1, ["in", "j"], Bottom, AwaitAt(SECOND)) == Some(Point(Push(c7, 1, Bottom), ["in", "j"]))
      && Find(c7, 1, ["in", "j"], Bottom, AwaitAt(FIRST)) == None
  {
    var c7 := KSource(w, v).tail.tail.tail.tail.tail.tail.tail;
    var c8, c9, c10 := c7.tail, c7.tail.tail, c7.tail.tail.tail;
    var ns := ["in", "j"];
    forall k ensures IsUser(c8) && Distinct(c8) && Unshadowed(c8, ns) && Ids(c8) == {}
        && Find(c8, 1, ns, Bottom, AwaitAt(k)) == None {
      FlatStep(c10.head, c10.tail, ns, 1, k);
      FlatStep(c9.head, c9.tail, ns, 1, k);
      FlatStep(c8.head, c8.tail, ns, 1, k);
    }
    FlatStep(c7.head, c7.tail, ns, 1, FIRST);
    FlatStep(c7.head, c7.tail, ns, 1, SECOND);
  }

  lemma FlatMiddle(w: int, v: int, id: nat)
    requires id in {FIRST, SECOND}
    ensures
      var c0 := KSource(w, v);
      && IsUser(c0) && Distinct(c0) && Unshadowed(c0, ["in"]) && Ids(c0) == {FIRST, SECOND}
      && Home(c0, ["in"], id).Some?
      && Home(c0, ["in"], id).value.names == (if id == FIRST then ["in"] else ["in", "j"])
      && (id == SECOND ==> Home(c0, ["in"], id).value.stack == Push(c0.tail.tail.tail.tail.tail.tail.tail, 1, Bottom))
  {
    FlatTail(w, v, id);
    var c0 := KSource(w, v);
    var c1, c2, c3 := c0.tail, c0.tail.tail, c0.tail.tail.tail;
    var c4, c5, c6 := c3.tail, c3.tail.tail, c3.tail.tail.tail;
    var ns := ["in", "j"];
    assert ["in"] + ["j"] == ns;
    FlatStep(c6.head, c6.tail, ns, 1, id);
    FlatStep(c5.head, c5.tail, ns, 1, id);
    FlatStep(c4.head, c4.tail, ns, 1, id);
    FlatStep(c3.head, c3.tail, ["in"], 1, id);
    FlatStep(c2.head, c2.tail, ["in"], 1, id);
    FlatStep(c1.head, c1.tail, ["in"], 1, id);
    FlatStep(c0.head, c0.tail, ["in"], 1, id);
  }

  /** The hand-written stage table lists exactly the variables in scope at each await. */
  lemma KOk(w: int, v: int)
    ensures KJob(w, v).Ok()
  {
    var j := KJob(w, v);
    KStageNumbers();
    FlatMiddle(w, v, FIRST);
    FlatMiddle(w, v, SECOND);
    hide KSource, Home;
    forall i | 0 <= i < |j.ss|
      ensures j.ss[i].aw in Ids(j.body) && Home(j.body, j.params, j.ss[i].aw).Some?
      ensures Lists(j.ss[i].vars, Home(j.body, j.params, j.ss[i].aw).value.names)
    {
      assert i == 0 || i == 1;
    }
  }

  // ----- the run -----

  function KTrace(n: int, w: int, v: int, r: int): seq<Event> {
    [Out(n), Out(n + w), Awaiting(n + w), Out(r), Out(r + v), Awaiting(0), Out(n + w), Out(r + v)]
  }

  /** The original, stopped right before its statement `code`. */
  function At(code: Code, env: Env, trace: seq<Event>, asked: nat, aw: seq<Elem>): Config {
    Config(Running, Push(code, 1, Bottom), env, Prom(NoState, aw), trace, asked, [], [])
  }

  function In(n: int): Env { [Slot("in", Val(n))] }
  function InJ(n: int, r: int): Env { [Slot("in", Val(n)), Slot("j", Val(r))] }

  lemma Locals(n: int, r: int, x: int)
    ensures Where(In(n), "in") == 0 && Where(InJ(n, r), "in") == 0 && Where(InJ(n, r), "j") == 1
    ensures Update(In(n), "in", x) == Some(In(x)) && Update(InJ(n, r), "j", x) == Some(InJ(n, x))
    ensures In(n) + [Slot("j", Val(x))] == InJ(n, x)
  {
    assert InJ(n, r)[..1] == In(n) && In(n)[..0] == [];
    assert In(n)[0 := Slot("in", Val(x))] == In(x);
    assert InJ(n, r)[1 := Slot("j", Val(x))] == InJ(n, x);
  }

  /** The first half, up to the result of the first await. */
  lemma KFirstHalf(w: int, v: int, n: int, answer: nat -> int)
    ensures
      var c3 := KSource(w, v).tail.tail.tail;
      KJob(w, v).Original(answer).Run(OriginalStart(KJob(w, v), [n]), 5)
      == At(c3.tail, InJ(n + w, answer(1)), KTrace(n, w, v, 0)[..3], 1, [Awaiter(n + w)])
  {
    var world, c0 := KJob(w, v).Original(answer), KSource(w, v);
    var s0 := OriginalStart(KJob(w, v), [n]);
    Locals(n, 0, n + w);
    Locals(n + w, 0, answer(1));
    assert Bound(["in"], [n]) == In(n);
    assert s0 == At(c0, In(n), [], 0, []);
    var s1 := At(c0.tail, In(n), [Out(n)], 0, []);
    assert world.Next(s0) == s1;
    assert Eval(Var("in"), In(n)) == Some(n) && Eval(Lit(w), In(n)) == Some(w);
    assert Eval(c0.tail.head.e, In(n)) == Some(n + w);
    var s2 := At(c0.tail.tail, In(n + w), [Out(n)], 0, []);
    assert world.Next(s1) == s2;
    var s3 := At(c0.tail.tail.tail, In(n + w), [Out(n), Out(n + w)], 0, []);
    assert world.Next(s2) == s3;
    var s4 := s3.(status := Suspended, trace := KTrace(n, w, v, 0)[..3], asked := 1,
        prom := Prom(NoState, [Awaiter(n + w)]));
    assert world.Next(s3) == s4;
    assert world.Next(s4) == At(c0.tail.tail.tail.tail, InJ(n + w, answer(1)), KTrace(n, w, v, 0)[..3], 1,
        [Awaiter(n + w)]);
    Runs5(world, s0);
  }

  lemma Runs5(world: World, s: Config)
    ensures world.Run(s, 5) == world.Next(world.Next(world.Next(world.Next(world.Next(s)))))
  {
    hide World.Next;
    assert world.Run(s, 0) == s;
    assert world.Run(s, 1) == world.Next(s);
    assert world.Run(s, 2) == world.Next(world.Run(s, 1));
    assert world.Run(s, 3) == world.Next(world.Run(s, 2));
    assert world.Run(s, 4) == world.Next(world.Run(s, 3));
    assert world.Run(s, 5) == world.Next(world.Run(s, 4));
  }

  /** The second half, from there to the end. */
  lemma KSecondHalf(w: int, v: int, n: int, answer: nat -> int)
    ensures
      var c4 := KSource(w, v).tail.tail.tail.tail;
      var world, s := KJob(w, v).Original(answer), At(c4, InJ(n + w, answer(1)), KTrace(n, w, v, 0)[..3], 1,
          [Awaiter(n + w)]);
      var s' := world.Run(world.Run(s, 5), 3);
      s'.status == Done(Some(14)) && s'.trace == KTrace(n, w, v, answer(1))
  {
    hide KTrace, InJ, World.Next, World.Run, At;
    KSameTrace(n, w, v, answer(1));
    KMiddlePart(w, v, n, answer);
    KSecondWait(w, v, n, answer);
    var world, r := KJob(w, v).Original(answer), answer(1);
    Runs5(world, At(KSource(w, v).tail.tail.tail.tail, InJ(n + w, r), KTrace(n, w, v, r)[..3], 1, [Awaiter(n + w)]));
    KEnding(w, v, n, answer, At(KSource(w, v).tail.tail.tail.tail.tail.tail.tail.tail, InJ(n + w, r + v),
                                KTrace(n, w, v, r)[..6], 2, [Awaiter(n + w)]));
  }

  lemma KSameTrace(n: int, w: int, v: int, r: int)
    ensures |KTrace(n, w, v, r)| == 8 && |KTrace(n, w, v, 0)| == 8 && KTrace(n, w, v, r)[..3] == KTrace(n, w, v, 0)[..3]
  {
  }

  /** Over the second await. */
  lemma KSecondWait(w: int, v: int, n: int, answer: nat -> int)
    ensures
      var world, c7, r := KJob(w, v).Original(answer), KSource(w, v).tail.tail.tail.tail.tail.tail.tail, answer(1);
      var k, aw := KTrace(n, w, v, r), [Awaiter(n + w)];
      world.Next(world.Next(At(c7, InJ(n + w, r + v), k[..5], 1, aw))) == At(c7.tail, InJ(n + w, r + v), k[..6], 2, aw)
  {
    var world, c7, r := KJob(w, v).Original(answer), KSource(w, v).tail.tail.tail.tail.tail.tail.tail, answer(1);
    var k, aw := KTrace(n, w, v, r), [Awaiter(n + w)];
    var s3 := At(c7, InJ(n + w, r + v), k[..5], 1, aw);
    var s4 := s3.(status := Suspended, trace := k[..6], asked := 2);
    assert world.Next(s3) == s4;
    assert world.Next(s4) == At(c7.tail, InJ(n + w, r + v), k[..6], 2, aw);
  }

  /** Between the awaits. */
  lemma KMiddlePart(w: int, v: int, n: int, answer: nat -> int)
    ensures
      var world, c4, r := KJob(w, v).Original(answer), KSource(w, v).tail.tail.tail.tail, answer(1);
      var k, aw := KTrace(n, w, v, r), [Awaiter(n + w)];
      world.Next(world.Next(world.Next(At(c4, InJ(n + w, r), k[..3], 1, aw))))
      == At(c4.tail.tail.tail, InJ(n + w, r + v), k[..5], 1, aw)
  {
    var world, c4, r := KJob(w, v).Original(answer), KSource(w, v).tail.tail.tail.tail, answer(1);
    var k, aw := KTrace(n, w, v, r), [Awaiter(n + w)];
    Locals(n + w, r, r + v);
    Locals(n + w, r + v, 0);
    var s := At(c4, InJ(n + w, r), k[..3], 1, aw);
    var s1 := At(c4.tail, InJ(n + w, r), k[..4], 1, aw);
    assert world.Next(s) == s1;
    assert Eval(Var("j"), InJ(n + w, r)) == Some(r) && Eval(Lit(v), InJ(n + w, r)) == Some(v);
    assert Eval(c4.tail.head.e, InJ(n + w, r)) == Some(r + v);
    var s2 := At(c4.tail.tail, InJ(n + w, r + v), k[..4], 1, aw);
    assert world.Next(s1) == s2;
    assert world.Next(s2) == At(c4.tail.tail.tail, InJ(n + w, r + v), k[..5], 1, aw);
  }

  lemma KEnding(w: int, v: int, n: int, answer: nat -> int, s: Config)
    requires
      var c8 := KSource(w, v).tail.tail.tail.tail.tail.tail.tail.tail;
      s == At(c8, InJ(n + w, answer(1) + v), KTrace(n, w, v, answer(1))[..6], 2, [Awaiter(n + w)])
    ensures
      var s' := KJob(w, v).Original(answer).Run(s, 3);
      s'.status == Done(Some(14)) && s'.trace == KTrace(n, w, v, answer(1))
  {
    var world, c8, r := KJob(w, v).Original(answer), KSource(w, v).tail.tail.tail.tail.tail.tail.tail.tail, answer(1);
    var k, env, aw := KTrace(n, w, v, r), InJ(n + w, r + v), [Awaiter(n + w)];
    Locals(n + w, r + v, 0);
    assert world.Next(s) == At(c8.tail, env, k[..7], 2, aw);
    assert world.Next(world.Next(s)) == At(c8.tail.tail, env, k, 2, aw);
    assert world.Run(s, 1) == world.Next(s);
    assert world.Run(s, 2) == world.Next(world.Run(s, 1));
    assert world.Run(s, 3) == world.Next(world.Run(s, 2));
  }

  /** Started with any argument, moved or not at either of its suspensions, supplied with whatever
      the awaits would have returned, the hand-written coroutine returns 14 and shows what its
      source shows: the result of the first await goes into `j` wherever it came from. */
  lemma KMigrates(w: int, v: int, n: int, answer: nat -> int, moves: nat -> bool)
    ensures exists m: nat ::
      Ends(World(KWritten(w, v), ["in"], answer, moves),
          Started(KWritten(w, v), Bound(["in"], [n]), Prom(NoState, [])), m,
           Done(Some(14)), KTrace(n, w, v, answer(1)))
  {
    var j, world, s := KJob(w, v), KJob(w, v).Original(answer), OriginalStart(KJob(w, v), [n]);
    KFirstHalf(w, v, n, answer);
    KSecondHalf(w, v, n, answer);
    RunAdds(world, s, 5, 5);
    RunAdds(world, s, 10, 3);
    assert Ends(world, s, 13, Done(Some(14)), KTrace(n, w, v, answer(1)));
    KOk(w, v);
    KIsRewriting(w, v);
    SameOutcome(j, [n], answer, moves, Done(Some(14)), KTrace(n, w, v, answer(1)));
  }

  // ----- continued without a result -----

  /** The written coroutine, piece by piece: from the second await on, */
  function TakeSecond(): Stmt { Take(SECOND, Discard, Lit(0)) }
  function AtLast(): Code { Then(Emit(Var("in")), Then(Emit(Var("j")), Then(Return(Lit(14)), End))) }
  function FromSecond(): Code { Then(Label(2), Then(Load(["in", "j"]), Then(TakeSecond(), AtLast()))) }

  /** between the awaits, */
  function KMiddle(v: int): Code {
    Then(Emit(Var("j")),
    Then(Assign("j", Bin(Plus, Var("j"), Lit(v))),
    Then(Emit(Var("j")),
    Then(Save(2, ["in", "j"]), Then(Resize, FromSecond())))))
  }

  /** and from the first on. */
  function KFirst(v: int): Code {
    Then(Save(1, ["in"]),
    Then(Resize,
    Then(Label(1),
    Then(Load(["in"]),
    Then(Take(FIRST, NewVar(0, "j"), Var("in")), KMiddle(v))))))
  }

  /** Before statement `code`, running or suspended. */
  predicate KAt(d: Config, status: Status, code: Code, env: Env, prom: Prom, asked: nat) {
    d.status == status && d.stack == Push(code, 1, Bottom) && d.env == env && d.prom == prom && d.asked == asked
  }

  const NOTHING := Prom(NoState, [])

  lemma KBegins(world: World, c: Config, w: int, v: int, n: int)
    requires world.body == KWritten(w, v) && c == Started(world.body, In(n), NOTHING)
    ensures KAt(world.Run(c, 5), Running, KFirst(v), In(n + w), NOTHING, 0)
  {
    Locals(n, 0, n + w);
    Locals(n + w, 0, 0);
    var emit, body := Emit(Var("in")), world.body;
    var c4 := Then(emit, KFirst(v));
    var c3 := Then(Assign("in", Bin(Plus, Var("in"), Lit(w))), c4);
    var c2 := Then(emit, c3);
    var c1 := Then(Label(0), c2);
    assert body == Then(Dispatch([0, 1, 2]), c1);
    assert Eval(Var("in"), In(n)) == Some(n) && Eval(Lit(w), In(n)) == Some(w);
    assert Eval(Bin(Plus, Var("in"), Lit(w)), In(n)) == Some(n + w) && Eval(Var("in"), In(n + w)) == Some(n + w);
    assert world.Run(c, 0) == c;
    hide World.Run, World.Next, In, KFirst, KWritten, Eval;
    RunDispatch(world, c, 0, c, body.head, Push(c1, 1, Bottom));
    RunLabel(world, c, 1, world.Run(c, 1), Label(0), Push(c2, 1, Bottom));
    RunEmit(world, c, 2, world.Run(c, 2), emit, Push(c3, 1, Bottom), n);
    RunAssign(world, c, 3, world.Run(c, 3), c3.head, Push(c4, 1, Bottom), n + w, In(n + w));
    RunEmit(world, c, 4, world.Run(c, 4), emit, Push(KFirst(v), 1, Bottom), n + w);
  }

  lemma KSaved(x: int, y: int)
    ensures LookupAll(In(x), ["in"]) == Some([x])
    ensures LookupAll(InJ(x, y), ["in", "j"]) == Some([x, y])
  {
    Locals(x, y, 0);
    assert ["in"][1..] == [] && ["in", "j"][1..] == ["j"] && ["j"][1..] == [];
    assert LookupAll(In(x), []) == Some([]) && LookupAll(InJ(x, y), []) == Some([]);
    assert [x] + [] == [x] && [y] + [] == [y] && [x] + [y] == [x, y];
    assert LookupAll(InJ(x, y), ["j"]) == Some([y]);
  }

  /** The pieces around an await, from its save to its suspension. */
  lemma KAsks(world: World, c: Config, m: nat, n: nat, vars: seq<string>, vs: seq<int>, take: Stmt, rest: Code,
              env: Env, prom: Prom, asked: nat, v: int)
    requires n <= 2 && take.Take? && Eval(take.e, env) == Some(v) && LookupAll(env, vars) == Some(vs)
    requires KAt(world.Run(c, m), Running, Then(Save(n, vars),
        Then(Resize, Then(Label(n), Then(Load(vars), Then(take, rest))))),
                 env, prom, asked)
    ensures KAt(world.Run(c, m + 5), Suspended, Then(take, rest), env, Prom(Encode(n, vs), [Awaiter(v)]), asked + 1)
  {
    hide World.Run, World.Next, Eval, LookupAll, Encode, U16;
    SmallNumber(n);
    RunCarried(world, c, m, world.Run(c, m), n, vars, vs, take, rest, 1, Bottom, v);
  }

  lemma SmallNumber(n: nat)
    requires n <= 2
    ensures U16(n) == n
  {
  }

  function TakeFirst(): Stmt { Take(FIRST, NewVar(0, "j"), Var("in")) }

  /** Suspended at the first await, and resumed there. */
  lemma KFirstAwait(world: World, c: Config, v: int, x: int)
    requires KAt(world.Run(c, 5), Running, KFirst(v), In(x), NOTHING, 0) && !world.moves(1)
    ensures KAt(world.Run(c, 11), Running, KMiddle(v), InJ(x, world.answer(1)), Prom(Encode(1, [x]), [Awaiter(x)]), 1)
  {
    hide *;
    KSaved(x, 0);
    FirstIs(v, x);
    KAsks(world, c, 5, 1, ["in"], [x], TakeFirst(), KMiddle(v), In(x), NOTHING, 0, x);
    KResumes(world, c, v, x, Prom(Encode(1, [x]), [Awaiter(x)]));
  }

  lemma FirstIs(v: int, x: int)
    ensures TakeFirst().Take? && Eval(TakeFirst().e, In(x)) == Some(x)
    ensures KFirst(v) == Then(Save(1, ["in"]), Then(Resize, Then(Label(1), Then(Load(["in"]),
      Then(TakeFirst(), KMiddle(v))))))
  {
    Locals(x, 0, 0);
    hide KMiddle;
  }

  lemma KResumes(world: World, c: Config, v: int, x: int, prom: Prom)
    requires KAt(world.Run(c, 10), Suspended, Then(TakeFirst(), KMiddle(v)), In(x), prom, 1) && !world.moves(1)
    ensures KAt(world.Run(c, 11), Running, KMiddle(v), InJ(x, world.answer(1)), prom, 1)
  {
    Locals(x, 0, world.answer(1));
    hide World.Run, World.Next, In, InJ, KMiddle;
    RunResume(world, c, 10, world.Run(c, 10));
  }

  function AtSecond(): Code { Then(Save(2, ["in", "j"]), Then(Resize, FromSecond())) }

  lemma KGoesOn(world: World, c: Config, v: int, x: int, r: int, prom: Prom)
    requires KAt(world.Run(c, 11), Running, KMiddle(v), InJ(x, r), prom, 1)
    ensures KAt(world.Run(c, 14), Running, AtSecond(), InJ(x, r + v), prom, 1)
  {
    hide *;
    var emit := Emit(Var("j"));
    var c2 := Then(emit, AtSecond());
    var work := Assign("j", Bin(Plus, Var("j"), Lit(v)));
    MiddleIs(v);
    MiddleValues(x, r, v);
    KShows(world, c, 11, emit, Then(work, c2), InJ(x, r), prom, 1, r);
    KWorks(world, c, work, c2, InJ(x, r), InJ(x, r + v), prom, r + v);
    MiddleValues(x, r + v, v);
    KShows(world, c, 13, emit, AtSecond(), InJ(x, r + v), prom, 1, r + v);
  }

  lemma MiddleIs(v: int)
    ensures KMiddle(v) == Then(Emit(Var("j")), Then(Assign("j", Bin(Plus, Var("j"), Lit(v))),
        Then(Emit(Var("j")), AtSecond())))
  {
    hide FromSecond;
  }

  lemma MiddleValues(x: int, r: int, v: int)
    ensures Eval(Var("j"), InJ(x, r)) == Some(r) && Eval(Bin(Plus, Var("j"), Lit(v)), InJ(x, r)) == Some(r + v)
    ensures Update(InJ(x, r), "j", r + v) == Some(InJ(x, r + v))
  {
    Locals(x, r, r + v);
    assert Eval(Var("j"), InJ(x, r)) == Some(r) && Eval(Lit(v), InJ(x, r)) == Some(v);
  }

  lemma KShows(world: World, c: Config, m: nat, s: Stmt, rest: Code, env: Env, prom: Prom, asked: nat, v: int)
    requires s.Emit? && Eval(s.e, env) == Some(v) && KAt(world.Run(c, m), Running, Then(s, rest), env, prom, asked)
    ensures KAt(world.Run(c, m + 1), Running, rest, env, prom, asked)
  {
    hide World.Run, World.Next, Eval;
    RunEmit(world, c, m, world.Run(c, m), s, Push(rest, 1, Bottom), v);
  }

  lemma KWorks(world: World, c: Config, s: Stmt, rest: Code, env: Env, env': Env, prom: Prom, v: int)
    requires s.Assign? && Eval(s.e, env) == Some(v) && Update(env, s.x, v) == Some(env')
    requires KAt(world.Run(c, 12), Running, Then(s, rest), env, prom, 1)
    ensures KAt(world.Run(c, 13), Running, rest, env', prom, 1)
  {
    hide World.Run, World.Next, Eval, Update;
    RunAssign(world, c, 12, world.Run(c, 12), s, Push(rest, 1, Bottom), v, env');
  }

  /** Suspended at the second await. */
  lemma KSecondAwait(world: World, c: Config, x: int, y: int, prom: Prom)
    requires KAt(world.Run(c, 14), Running, AtSecond(), InJ(x, y), prom, 1)
    ensures KAt(world.Run(c, 19), Suspended, Then(TakeSecond(), AtLast()), InJ(x, y),
        Prom(Encode(2, [x, y]), [Awaiter(0)]), 2)
  {
    hide *;
    KSaved(x, y);
    SecondIs(x, y);
    KAsks(world, c, 14, 2, ["in", "j"], [x, y], TakeSecond(), AtLast(), InJ(x, y), prom, 1, 0);
  }

  lemma SecondIs(x: int, y: int)
    ensures TakeSecond().Take? && Eval(TakeSecond().e, InJ(x, y)) == Some(0)
    ensures AtSecond() == Then(Save(2, ["in", "j"]), Then(Resize, Then(Label(2), Then(Load(["in", "j"]),
      Then(TakeSecond(), AtLast())))))
  {
    hide InJ, AtLast;
  }

  /** Where label 2 leads. */
  lemma KLabel(w: int, v: int)
    ensures Find(KWritten(w, v), 1, ["in"], Bottom, LabelNo(2))
        == Some(Point(Push(FromSecond(), 1, Bottom), ["in", "j"]))
  {
    KStageNumbers();
    KIsRewriting(w, v);
    FlatMiddle(w, v, SECOND);
    var c, ss := KSource(w, v), KStages();
    JumpTable(c, ["in"], ss, 2, Carrying);
    assert ss[1].aw == SECOND && Table(2)[2] == 2;
    assert RewriteCode(AtLast(), ss, Carrying) == AtLast();
    assert c.tail.tail.tail.tail.tail.tail.tail == Then(Await(SECOND, Discard, Lit(0)), AtLast());
  }

  /** Moved from there without a result: the label is reached, but nothing is loaded, and `in` and `j`
      are what the new frame had. */
  lemma KNotLoaded(world: World, w: int, v: int, h: Config)
    requires world.body == KWritten(w, v) && KAt(h, Running, world.body, In(0), Prom(h.prom.state, []), h.asked)
    requires StageOf(h.prom.state) == 2
    ensures KAt(world.Run(h, 3), Running, Then(TakeSecond(), AtLast()), Lost(), h.prom, h.asked)
  {
    KLabel(w, v);
    KJumps(world, w, v, h);
    var c2 := Then(TakeSecond(), AtLast());
    var c1 := Then(Load(["in", "j"]), c2);
    assert FromSecond() == Then(Label(2), c1);
    assert LoadInto(h.prom, Lost(), ["in", "j"]) == Some(Lost());
    hide World.Run, World.Next, KWritten, LoadInto, Lost, FromSecond, TakeSecond, AtLast;
    RunLabel(world, h, 1, world.Run(h, 1), Label(2), Push(c1, 1, Bottom));
    RunLoad(world, h, 2, world.Run(h, 2), Load(["in", "j"]), Push(c2, 1, Bottom), Lost());
  }

  /** A default for `in`, and nothing for `j`. */
  function Lost(): Env { [Slot("in", Val(0)), Slot("j", Junk)] }

  lemma KJumps(world: World, w: int, v: int, h: Config)
    requires world.body == KWritten(w, v) && KAt(h, Running, world.body, In(0), Prom(h.prom.state, []), h.asked)
    requires StageOf(h.prom.state) == 2
    ensures KAt(world.Run(h, 1), Running, FromSecond(), Lost(), h.prom, h.asked)
  {
    KLabel(w, v);
    assert Names(In(0)) == ["in"] && JumpedInto(In(0), ["in", "j"]) == Lost() && world.Run(h, 0) == h;
    var table, rest := Dispatch([0, 1, 2]), world.body.tail;
    assert world.body == Then(table, rest);
    hide World.Run, World.Next, KWritten, Find, JumpedInto, Names, StageOf, Lost, FromSecond;
    RunJump(world, h, 0, h, table, Push(rest, 1, Bottom), 2, Point(Push(FromSecond(), 1, Bottom), ["in", "j"]));
  }

  lemma LostLocals()
    ensures Lookup(Lost(), "in") == Some(0) && Lookup(Lost(), "j") == None
  {
    assert Lost()[..1] == [Slot("in", Val(0))] && Where(Lost()[..1], "in") == 0;
    assert Where(Lost(), "in") == 0 && Where(Lost(), "j") == 1;
  }

  /** From there on: the await is asked again, the default is shown as `in`, and `j` cannot be read. */
  lemma KFaults(world: World, h: Config, d: Config)
    requires world.Run(h, 3) == d && !world.moves(d.asked + 1) && d.prom.aw == []
    requires KAt(d, Running, Then(TakeSecond(), AtLast()), Lost(), d.prom, d.asked)
    ensures world.Run(h, 7).status == Fault
  {
    var c2 := Then(Return(Lit(14)), End);
    var c1 := Then(Emit(Var("j")), c2);
    LostLocals();
    assert Eval(Lit(0), Lost()) == Some(0) && Eval(Var("in"), Lost()) == Some(0) && Eval(Var("j"), Lost()) == None;
    assert AtLast() == Then(Emit(Var("in")), c1);
    hide World.Run, Eval, Lookup, Lost, AtLast;
    RunAsk(world, h, 3, d, TakeSecond(), Push(AtLast(), 1, Bottom), 0);
    RunResume(world, h, 4, world.Run(h, 4));
    RunEmit(world, h, 5, world.Run(h, 5), Emit(Var("in")), Push(c1, 1, Bottom), 0);
    Move(world, h, 6, world.Run(h, 6));
  }

  /** The second await, reached in one process. */
  lemma KReaches(world: World, c: Config, w: int, v: int, n: int)
    requires world.body == KWritten(w, v) && c == Started(world.body, In(n), NOTHING) && !world.moves(1)
    ensures
      var x, y := n + w, world.answer(1) + v;
      KAt(world.Run(c, 19), Suspended, Then(TakeSecond(), AtLast()), InJ(x, y),
          Prom(Encode(2, [x, y]), [Awaiter(0)]), 2)
  {
    hide *;
    var x, r := n + w, world.answer(1);
    var prom := Prom(Encode(1, [x]), [Awaiter(x)]);
    KBegins(world, c, w, v, n);
    KFirstAwait(world, c, v, x);
    KGoesOn(world, c, v, x, r, prom);
    KSecondAwait(world, c, x, r + v, prom);
  }

  /** The hand-written coroutine, started with any argument and suspended at its second await, then
      continued elsewhere with no result supplied: `in` and `j` are not loaded although the state
      holds them, and the run ends in a fault. */
  lemma KNeedsResult(w: int, v: int, n: int, answer: nat -> int)
    ensures
      var world := World(KWritten(w, v), ["in"], answer, Never);
      var t := world.Run(Started(world.body, Bound(["in"], [n]), NOTHING), 19);
      var h := Hop(world.body, ["in"], t, []);
      && t.status.Suspended? && t.env == InJ(n + w, answer(1) + v)
      && ValuesOf(t.prom.state) == [n + w, answer(1) + v]
      && world.Run(h, 3).env == Lost() && world.Run(h, 7).status == Fault
  {
    hide *;
    var world := World(KWritten(w, v), ["in"], answer, Never);
    NeverMoves();
    KBound(n);
    var c, x, y := Started(world.body, Bound(["in"], [n]), NOTHING), n + w, answer(1) + v;
    KReaches(world, c, w, v, n);
    var t := world.Run(c, 19);
    var prom := Prom(Encode(2, [x, y]), [Awaiter(0)]);
    KAtFacts(t, Suspended, Then(TakeSecond(), AtLast()), InJ(x, y), prom, 2);
    KState(x, y);
    KLoses(world, w, v, t);
  }

  lemma NeverMoves()
    ensures forall k :: !Never(k)
  {
  }

  lemma KBound(n: int)
    ensures Bound(["in"], [n]) == In(n)
  {
  }

  lemma KState(x: int, y: int)
    ensures ValuesOf(Encode(2, [x, y])) == [x, y] && StageOf(Encode(2, [x, y])) == 2
  {
  }

  lemma KHopped(body: Code, t: Config)
    ensures
      var h := Hop(body, ["in"], t, []);
      h.prom.state == t.prom.state && h.asked == t.asked && h.prom.aw == []
      && KAt(h, Running, body, In(0), Prom(h.prom.state, []), h.asked)
  {
    assert Defaults(["in"]) == In(0) && Supplied([]) == [];
  }

  lemma KLoses(world: World, w: int, v: int, t: Config)
    requires world.body == KWritten(w, v) && StageOf(t.prom.state) == 2 && !world.moves(t.asked + 1)
    ensures
      var h := Hop(world.body, ["in"], t, []);
      world.Run(h, 3).env == Lost() && world.Run(h, 7).status == Fault
  {
    hide *;
    var h := Hop(world.body, ["in"], t, []);
    KHopped(world.body, t);
    KNotLoaded(world, w, v, h);
    KAtFacts(world.Run(h, 3), Running, Then(TakeSecond(), AtLast()), Lost(), h.prom, h.asked);
    KFaults(world, h, world.Run(h, 3));
  }

  lemma KAtFacts(d: Config, status: Status, code: Code, env: Env, prom: Prom, asked: nat)
    requires KAt(d, status, code, env, prom, asked)
    ensures d.status == status && d.env == env && d.prom == prom && d.asked == asked
  {
  }
}
