/** Concrete coroutines on which a condition of the rewrite is not met, and what goes wrong. */
module Failures {
  import opened Wire
  import opened Language
  import opened Points
  import opened Rewrite
  import opened Scopes
  import opened Collector
  import opened Simulation
  import opened Transparency
  import opened Runs

  // ----- a local shadows a parameter -----

  const AWAIT: nat := 10

  function ShadowInner(): Code {
    Then(Decl(5, "x", Lit(2)), Then(Await(AWAIT, Discard, Lit(0)), End))
  }

  /** { auto x = 2; co_await 0; } out x;   with a parameter x */
  function ShadowBody(): Code {
    Then(Block(3, ShadowInner()), Then(Emit(Var("x")), End))
  }

  function ShadowFun(): Fun {
    Fun([Variable("x", 0, true)], 2, ShadowBody())
  }

  /** The await, delivered with the parameter and with the local. */
  function ShadowMatches(): seq<Match> {
    [Match(ShadowFun(), AWAIT, Some(Variable("x", 0, true))), Match(ShadowFun(), AWAIT, Some(Variable("x", 5, false)))]
  }

  lemma ShadowTable()
    ensures JobOf(ShadowFun(), ShadowMatches()) == Job(ShadowBody(), ["x"], [Stage(AWAIT, ["x", "x"])], Emitted)
  {
    var f, ms := ShadowFun(), ShadowMatches();
    var x, y := Variable("x", 0, true), Variable("x", 5, false);
    var inner, body := ShadowInner(), ShadowBody();
    assert Ids(inner.tail) == {AWAIT} && Ids(inner) == {AWAIT} && Ids(body) == {AWAIT};
    assert EnclosingTail(inner, AWAIT) == {} && EnclosingTail(body, AWAIT) == {3};
    assert Enclosing(2, body, AWAIT) == {2, 3};
    assert BlockOf(inner, 3, 5) == Some(3) && BlockOf(body, 2, 5) == Some(3);
    var r := Record(AWAIT, Enclosing(2, body, AWAIT), []);
    assert ms[..1] == [ms[0]] && ms[..1][..0] == [];
    assert Collected([], f) == [];
    assert Ensured([], f, AWAIT) == [r] && IndexOf([], AWAIT) == 0;
    assert [ms[0]][..0] == [] && Kept(f, r, x) && WithDelivery(ms[0], r) == r.(vars := [x]);
    assert Collected([ms[0]], f) == Noted([], ms[0]) == [r.(vars := [x])];
    var r1 := r.(vars := [x]);
    assert Ensured([r1], f, AWAIT) == [r1] && IndexOf([r1], AWAIT) == 0;
    assert Kept(f, r1, y) && WithDelivery(ms[1], r1) == r.(vars := [x, y]);
    assert Collected(ms, f) == Noted([r1], ms[1]);
    assert Collected(ms, f) == [r.(vars := [x, y])];
    assert NamesOf([x]) == ["x"] && NamesOf([x, y]) == ["x", "x"];
  }

  function ShadowedJob(): Job {
    Job(ShadowBody(), ["x"], [Stage(AWAIT, ["x", "x"])], Emitted)
  }

  function Frame2(a: Cell, b: Cell): Env { [Slot("x", a), Slot("x", b)] }

  lemma Frames(n: int, a: Cell, b: Cell)
    ensures Where(Frame2(a, b), "x") == 1 && Where([Slot("x", Val(n))], "x") == 0
    ensures Update(Frame2(a, b), "x", n) == Some(Frame2(a, Val(n)))
    ensures Cut(Frame2(a, b), 1) == [Slot("x", a)]
    ensures [Slot("x", a)] + [Slot("x", b)] == Frame2(a, b)
  {
    assert Frame2(a, b)[1 := Slot("x", Val(n))] == Frame2(a, Val(n));
  }

  const AFTER := Push(Then(Emit(Var("x")), End), 1, Bottom)

  lemma ShadowOriginal(n: int, answer: nat -> int)
    ensures Ends(ShadowedJob().Original(answer), OriginalStart(ShadowedJob(), [n]), 9, Done(None),
        [Awaiting(0), Out(n)])
  {
    var j := ShadowedJob();
    var w, c, inner := j.Original(answer), OriginalStart(j, [n]), ShadowInner();
    assert Bound(["x"], [n]) == [Slot("x", Val(n))];
    Frames(n, Val(n), Val(2));
    assert w.Run(c, 0) == c;
    hide World.Run, World.Next;
    RunBlock(w, c, 0, c, ShadowBody().head, AFTER);
    RunDecl(w, c, 1, w.Run(c, 1), inner.head, Push(inner.tail, 1, AFTER), 2);
    RunAsk(w, c, 2, w.Run(c, 2), inner.tail.head, Push(End, 1, AFTER), 0);
    RunResume(w, c, 3, w.Run(c, 3));
    assert [] + [Awaiting(0)] == [Awaiting(0)];
    ShadowEnds(w, c, 4, w.Run(c, 4), n);
  }

  /** From the end of the block on. */
  lemma ShadowEnds(w: World, c: Config, m: nat, d: Config, v: int)
    requires w.Run(c, m) == d && d.status.Running? && d.env == Frame2(Val(v), Val(2)) && d.trace == [Awaiting(0)]
    requires d.stack == Push(End, 1, AFTER)
    ensures Ends(w, c, m + 4, Done(None), [Awaiting(0), Out(v)])
  {
    Frames(v, Val(v), Val(2));
    hide World.Run, World.Next;
    RunEnd(w, c, m, d, 1, AFTER);
    RunEmit(w, c, m + 1, w.Run(c, m + 1), AFTER.code.head, Push(End, 1, Bottom), v);
    assert [Awaiting(0)] + [Out(v)] == [Awaiting(0), Out(v)];
    RunFinish(w, c, m + 2, w.Run(c, m + 2), 1);
  }

  /** Emitted for the block: save, await, label, load. */
  function ShadowEmitted(): Code {
    Then(Decl(5, "x", Lit(2)), Then(Save(1, ["x", "x"]), Then(Await(AWAIT, Discard, Lit(0)), ShadowLabel())))
  }

  function ShadowLabel(): Code {
    Then(Label(1), Then(Load(["x", "x"]), End))
  }

  lemma ShadowProgram()
    ensures ShadowedJob().Program()
         == Then(Dispatch([0, 1]), Then(Label(0), Then(Block(3, ShadowEmitted()), AFTER.code)))
    ensures Find(ShadowedJob().Program(), 1, ["x"], Bottom, LabelNo(1))
         == Some(Point(Push(ShadowLabel(), 1, AFTER), ["x", "x"]))
  {
    var ss, inner := ShadowedJob().ss, ShadowInner();
    assert StageNo(ss, AWAIT) == 1 && Table(1) == [0, 1];
    assert RewriteCode(inner.tail, ss, Emitted) == ShadowEmitted().tail;
    assert RewriteCode(inner, ss, Emitted) == ShadowEmitted();
    assert RewriteCode(ShadowBody().tail, ss, Emitted) == ShadowBody().tail;
    var e, after := ShadowEmitted(), AFTER;
    assert ["x"] + ["x"] == ["x", "x"];
    assert Find(ShadowLabel(), 1, ["x", "x"], after, LabelNo(1))
        == Some(Point(Push(ShadowLabel(), 1, after), ["x", "x"]));
    assert Find(e.tail.tail, 1, ["x", "x"], after, LabelNo(1))
        == Some(Point(Push(ShadowLabel(), 1, after), ["x", "x"]));
    assert Find(e, 1, ["x"], after, LabelNo(1)) == Find(e.tail.tail, 1, ["x", "x"], after, LabelNo(1));
    var c := Then(Block(3, e), ShadowBody().tail);
    assert Find(c, 1, ["x"], Bottom, LabelNo(1)) == Find(e, 1, ["x"], after, LabelNo(1));
  }

  /** The one name, twice, saves and loads the inner variable twice. */
  lemma ShadowLists(n: int, b: Cell)
    ensures LookupAll(Frame2(Val(n), Val(2)), ["x", "x"]) == Some([2, 2])
    ensures UpdateAll(Frame2(Val(n), b), ["x", "x"], [2, 2]) == Some(Frame2(Val(n), Val(2)))
  {
    Frames(2, Val(n), b);
    Frames(2, Val(n), Val(2));
    var env := Frame2(Val(n), Val(2));
    assert ["x", "x"][1..] == ["x"] && ["x"][1..] == [] && [2, 2][1..] == [2] && [2][1..] == [];
    assert LookupAll(env, []) == Some([]) && Lookup(env, "x") == Some(2);
    assert [2] + [] == [2] && [2] + [2] == [2, 2];
    assert LookupAll(env, ["x"]) == Some([2]);
    assert UpdateAll(env, ["x"], [2]) == Some(env);
  }

  /** The frame when the block is entered. */
  function ShadowEntered(code: Code, env: Env): Config {
    Config(Running, Push(code, 1, AFTER), env, Prom(NoState, []), [], 0, [], [])
  }

  lemma ShadowEnters(w: World, c: Config, n: int)
    requires w.body == ShadowedJob().Program() && c == Started(w.body, [Slot("x", Val(n))], Prom(NoState, []))
    ensures w.Run(c, 3) == ShadowEntered(ShadowEmitted(), [Slot("x", Val(n))])
  {
    ShadowProgram();
    assert w.Run(c, 0) == c;
    hide World.Run, World.Next, Find, RewriteCode, ShadowedJob, ShadowEmitted;
    RunDispatch(w, c, 0, c, w.body.head, Push(w.body.tail, 1, Bottom));
    RunLabel(w, c, 1, w.Run(c, 1), w.body.tail.head, Push(w.body.tail.tail, 1, Bottom));
    RunBlock(w, c, 2, w.Run(c, 2), w.body.tail.tail.head, AFTER);
  }

  /** Up to the save. */
  lemma ShadowSaves(w: World, c: Config, n: int)
    requires w.Run(c, 3) == ShadowEntered(ShadowEmitted(), [Slot("x", Val(n))])
    ensures w.Run(c, 5) == ShadowEntered(ShadowEmitted().tail.tail, Frame2(Val(n), Val(2))).(
              prom := Prom(Encode(1, [2, 2]), []))
  {
    Frames(n, Val(n), Val(2));
    ShadowLists(n, Val(2));
    var e := ShadowEmitted();
    hide World.Run, World.Next, LookupAll, UpdateAll;
    RunDecl(w, c, 3, w.Run(c, 3), e.head, Push(e.tail, 1, AFTER), 2);
    RunSave(w, c, 4, w.Run(c, 4), e.tail.head, Push(e.tail.tail, 1, AFTER), [2, 2]);
  }

  /** Suspended at the await, and moved. */
  lemma ShadowHops(w: World, c: Config, n: int)
    requires w.params == ["x"] && w.moves(1)
    requires w.Run(c, 5) == ShadowEntered(ShadowEmitted().tail.tail, Frame2(Val(n), Val(2))).(
               prom := Prom(Encode(1, [2, 2]), []))
    ensures w.Run(c, 7) == Config(Running, Push(w.body, 1, Bottom), [Slot("x", Val(0))],
              Prom(Encode(1, [2, 2]), [Result(w.answer(1))]), [Awaiting(0)], 1, [AWAIT], [])
  {
    assert Defaults(["x"]) == [Slot("x", Val(0))];
    hide World.Run, World.Next, Encode;
    RunAsk(w, c, 5, w.Run(c, 5), ShadowEmitted().tail.tail.head, Push(ShadowLabel(), 1, AFTER), 0);
    assert [] + [Awaiting(0)] == [Awaiting(0)] && [] + [AWAIT] == [AWAIT];
    RunHop(w, c, 6, w.Run(c, 6));
  }

  /** Rebuilt, at the label. */
  lemma ShadowJumps(w: World, c: Config, d: Config)
    requires w.Run(c, 7) == d && w.body == ShadowedJob().Program() && d.env == [Slot("x", Val(0))]
    requires d.status.Running? && d.stack == Push(w.body, 1, Bottom) && StageOf(d.prom.state) == 1
    ensures w.Run(c, 8) == d.(stack := Push(ShadowLabel(), 1, AFTER), env := Frame2(Val(0), Junk))
  {
    ShadowProgram();
    assert Names(d.env) == ["x"];
    assert JumpedInto(d.env, ["x", "x"]) == Frame2(Val(0), Junk);
    hide World.Run, World.Next, Find, RewriteCode, Frame2, JumpedInto, Names, ShadowedJob, ShadowLabel, ShadowEmitted;
    RunJump(w, c, 7, d, w.body.head, Push(w.body.tail, 1, Bottom), 1, Point(Push(ShadowLabel(), 1, AFTER), ["x", "x"]));
  }

  /** And loaded. */
  lemma ShadowReloads(w: World, c: Config, d: Config)
    requires w.Run(c, 8) == d && d.status.Running? && d.env == Frame2(Val(0), Junk)
    requires d.stack == Push(ShadowLabel(), 1, AFTER) && d.prom.state == Encode(1, [2, 2]) && d.prom.aw != []
    ensures w.Run(c, 10) == d.(stack := Push(End, 1, AFTER), env := Frame2(Val(0), Val(2)))
  {
    ShadowLists(0, Junk);
    hide World.Run, World.Next, LookupAll, UpdateAll, Frame2;
    RunLabel(w, c, 8, w.Run(c, 8), ShadowLabel().head, Push(ShadowLabel().tail, 1, AFTER));
    RunLoad(w, c, 9, w.Run(c, 9), ShadowLabel().tail.head, Push(End, 1, AFTER), Frame2(Val(0), Val(2)));
  }

  lemma ShadowMoved(n: int, answer: nat -> int, moves: nat -> bool)
    requires moves(1)
    ensures Ends(ShadowedJob().Migrating(answer, moves), MigratingStart(ShadowedJob(), [n]), 14, Done(None),
                 [Awaiting(0), Out(0)])
  {
    var j := ShadowedJob();
    var w, c := j.Migrating(answer, moves), MigratingStart(j, [n]);
    assert Bound(["x"], [n]) == [Slot("x", Val(n))];
    assert StageOf(Encode(1, [2, 2])) == 1;
    assert w.body == j.Program() && c == Started(w.body, [Slot("x", Val(n))], Prom(NoState, []));
    hide World.Run, World.Next, Rewritten, Frame2, Encode, StageOf, ShadowEmitted, ShadowLabel, Started, MigratingStart;
    ShadowEnters(w, c, n);
    ShadowSaves(w, c, n);
    ShadowHops(w, c, n);
    ShadowJumps(w, c, w.Run(c, 7));
    ShadowReloads(w, c, w.Run(c, 8));
    ShadowEnds(w, c, 10, w.Run(c, 10), 0);
  }

  /** A coroutine well-formed but for a local that shadows its parameter.  Its table is what the scope
      analysis collects.  Moved while the local is in scope, it forgets its argument: in the end it
      shows 0 where the original shows the argument. */
  lemma ShadowingChangesRun(n: int, answer: nat -> int, moves: nat -> bool)
    requires moves(1)
    ensures
      var j := JobOf(ShadowFun(), ShadowMatches());
      && IsUser(j.body) && Distinct(j.body) && NoDup(j.params) && Fits(j.body, j.style) && !Unshadowed(j.body, j.params)
      && Ends(j.Original(answer), OriginalStart(j, [n]), 9, Done(None), [Awaiting(0), Out(n)])
      && Ends(j.Migrating(answer, moves), MigratingStart(j, [n]), 14, Done(None), [Awaiting(0), Out(0)])
  {
    ShadowTable();
    ShadowOriginal(n, answer);
    ShadowMoved(n, answer, moves);
    assert !Unshadowed(ShadowInner(), ["x"]);
    assert Distinct(ShadowInner()) && Distinct(ShadowBody().tail) && Void(ShadowInner()) && IsUser(ShadowInner());
  }
}
