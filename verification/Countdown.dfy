/** A coroutine with control flow, and what it shows wherever it is moved. */
module Countdown {
  import opened Wire
  import opened Language
  import opened Points
  import opened Rewrite
  import opened Scopes
  import opened Collector
  import opened Simulation
  import opened Transparency
  import opened Meaning

  const AWAIT: nat := 20

  function Choice(): Stmt {
    If(Bin(Less, Var("n"), Lit(2)), 10, Then(Emit(Lit(1)), End), 15, Then(Emit(Lit(2)), End))
  }

  function Round(): Code {
    Then(Choice(), Then(Await(AWAIT, Discard, Var("n")), Then(Assign("n", Bin(Minus, Var("n"), Lit(1))), End)))
  }

  function Loop(): Stmt { While(Bin(Less, Lit(0), Var("n")), 5, Round()) }

  /** while (0 < n) { if (n < 2) { out 1; } else { out 2; } co_await n; n = n - 1; }
      with a parameter n */
  function CountFun(): Fun {
    Fun([Variable("n", 0, true)], 2, Then(Loop(), End))
  }

  function Shown(n: int): int { if n < 2 then 1 else 2 }

  /** For each number from `n` down to 1, a two, or in the end a one, and an await of the number. */
  function Expected(n: int): seq<Event>
    decreases n
  {
    if n <= 0 then [] else [Out(Shown(n)), Awaiting(n)] + Expected(n - 1)
  }

  // ----- what the code means -----

  function At(n: int): Nest { Inner(map[], Outermost(map["n" := n])) }

  /** Inside the loop body. */
  function In(n: int): Nest { Inner(map[], At(n)) }

  lemma Values(n: int)
    ensures Value(Var("n"), In(n)) == Some(n)
    ensures Value(Loop().c, At(n)) == Some(if 0 < n then 1 else 0)
    ensures Value(Choice().c, In(n)) == Some(if n < 2 then 1 else 0)
    ensures Value(Bin(Minus, Var("n"), Lit(1)), In(n)) == Some(n - 1)
    ensures Stored(In(n), "n", n - 1) == Some(In(n - 1))
  {
    assert ValueOf(At(n), "n") == Some(n) && ValueOf(In(n), "n") == Some(n);
    assert Value(Var("n"), At(n)) == Some(n) && Value(Lit(0), At(n)) == Some(0);
    assert Value(Lit(2), In(n)) == Some(2) && Value(Lit(1), In(n)) == Some(1);
    assert map["n" := n]["n" := n - 1] == map["n" := n - 1];
    assert Stored(Outermost(map["n" := n]), "n", n - 1) == Some(Outermost(map["n" := n - 1]));
    assert Stored(At(n), "n", n - 1) == Some(At(n - 1));
  }

  lemma ShowMeans(v: int, s: State, answer: nat -> int, fuel: nat)
    ensures Within(Then(Emit(Lit(v)), End), s, answer, fuel) == Outcome(Normal, s.(trace := s.trace + [Out(v)]))
  {
    var s' := s.(sc := Inner(map[], s.sc));
    assert Effect(Emit(Lit(v)), s', answer, fuel) == Outcome(Normal, s'.(trace := s.trace + [Out(v)]));
    WithinIs(Then(Emit(Lit(v)), End), s, answer, fuel);
    EffectsIs(Emit(Lit(v)), End, s', answer, fuel);
    NothingIs(s'.(trace := s.trace + [Out(v)]), answer, fuel);
    hide Effect, Effects, Within;
  }

  lemma ChoiceMeans(n: int, trace: seq<Event>, asked: nat, answer: nat -> int, fuel: nat)
    ensures Effect(Choice(), State(In(n), trace, asked), answer, fuel)
         == Outcome(Normal, State(In(n), trace + [Out(Shown(n))], asked))
  {
    Values(n);
    ShowMeans(Shown(n), State(In(n), trace, asked), answer, fuel);
    hide Within, Value, In;
  }

  lemma RoundMeans(n: int, trace: seq<Event>, asked: nat, answer: nat -> int, fuel: nat)
    ensures Within(Round(), State(At(n), trace, asked), answer, fuel)
         == Outcome(Normal, State(At(n - 1), trace + [Out(Shown(n)), Awaiting(n)], asked + 1))
  {
    var ask, count := Await(AWAIT, Discard, Var("n")), Assign("n", Bin(Minus, Var("n"), Lit(1)));
    var s0 := State(In(n), trace, asked);
    var s1 := State(In(n), trace + [Out(Shown(n))], asked);
    var s2 := State(In(n), trace + [Out(Shown(n)), Awaiting(n)], asked + 1);
    var s3 := s2.(sc := In(n - 1));
    Values(n);
    ChoiceMeans(n, trace, asked, answer, fuel);
    assert s1.trace + [Awaiting(n)] == s2.trace;
    assert Effect(ask, s1, answer, fuel) == Outcome(Normal, s2);
    assert Effect(count, s2, answer, fuel) == Outcome(Normal, s3);
    assert s0 == State(At(n), trace, asked).(sc := Inner(map[], At(n))) && In(n - 1).outer == At(n - 1);
    hide Effect, Effects, Within, Choice, Value, At, In;
    WithinIs(Round(), State(At(n), trace, asked), answer, fuel);
    EffectsIs(Choice(), Then(ask, Then(count, End)), s0, answer, fuel);
    EffectsIs(ask, Then(count, End), s1, answer, fuel);
    EffectsIs(count, End, s2, answer, fuel);
    NothingIs(s3, answer, fuel);
  }

  lemma {:induction false} LoopCounts(n: int, trace: seq<Event>, asked: nat, answer: nat -> int, fuel: nat)
    requires fuel >= n
    ensures
      var o := Effect(Loop(), State(At(n), trace, asked), answer, fuel);
      o.how == Normal && o.s.trace == trace + Expected(n)
    decreases fuel
  {
    hide *;
    Values(n);
    ExpectedIs(n, trace);
    LoopStarts();
    LoopIs(Loop(), State(At(n), trace, asked), answer, fuel);
    if n > 0 {
      RoundMeans(n, trace, asked, answer, fuel - 1);
      LoopCounts(n - 1, trace + [Out(Shown(n)), Awaiting(n)], asked + 1, answer, fuel - 1);
    }
  }

  lemma LoopStarts()
    ensures Loop().While? && Loop().body == Round()
  {
    hide Round;
  }

  lemma ExpectedIs(n: int, trace: seq<Event>)
    ensures trace + Expected(n)
         == if n <= 0 then trace else trace + [Out(Shown(n)), Awaiting(n)] + Expected(n - 1)
  {
    if n > 0 {
      var more := [Out(Shown(n)), Awaiting(n)];
      assert trace + more + Expected(n - 1) == trace + (more + Expected(n - 1));
    }
  }

  lemma CountMeans(n: int, answer: nat -> int, fuel: nat)
    requires fuel >= n
    ensures Means(CountFun().body, Called(["n"], [n]), answer, fuel, Done(None), Expected(n))
  {
    LoopCounts(n, [], 0, answer, fuel);
    assert Called(["n"][..0], [n][..0]) == map[];
    assert Called(["n"], [n]) == map["n" := n];
    assert [] + Expected(n) == Expected(n);
    var s, s' := State(Outermost(map["n" := n]), [], 0), State(At(n), [], 0);
    assert s' == s.(sc := Inner(map[], s.sc));
    hide Effect, Effects, Within, Loop, Expected, Called, At;
    WithinIs(Then(Loop(), End), s, answer, fuel);
    EffectsIs(Loop(), End, s', answer, fuel);
    NothingIs(Effect(Loop(), s', answer, fuel).s, answer, fuel);
  }

  // ----- what the tool makes of it -----

  lemma CountSuitable()
    ensures Suitable(CountFun())
  {
    var f, round := CountFun(), Round();
    assert Offsets(round) == [10, 15, 20] && Offsets(f.body) == [5, 10, 15, 20];
    assert Ids(round) == {AWAIT} && Ids(f.body) == {AWAIT};
    assert Unshadowed(round, ["n"]) && Void(round) && IsUser(round);
    assert NamesOf(f.params) == ["n"];
    hide Offsets, Ids, Unshadowed, Void, IsUser;
    assert Unshadowed(f.body, ["n"]) && Void(f.body) && IsUser(f.body) by { CountWhole(); }
  }

  lemma CountWhole()
    ensures
      var body := CountFun().body;
      Unshadowed(body, ["n"]) && Void(body) && IsUser(body)
  {
    var round := Round();
    assert Unshadowed(round, ["n"]) && Void(round) && IsUser(round);
  }

  /** One delivery is all there is. */
  lemma CountDelivered()
    ensures Delivered(CountFun(), [Match(CountFun(), AWAIT, Some(Variable("n", 0, true)))])
  {
  }

  /** Called with any number, resumed in place or moved at each suspension, with the stages collected for
      it, the emitted form shows exactly the expected events and ends. */
  lemma CountsDown(n: int, ms: seq<Match>, answer: nat -> int, moves: nat -> bool)
    requires Delivered(CountFun(), ms)
    ensures
      var j := JobOf(CountFun(), ms);
      exists m: nat :: Ends(j.Migrating(answer, moves), MigratingStart(j, [n]), m, Done(None), Expected(n))
  {
    hide *;
    CountSuitable();
    CountParams(ms);
    TableFromAnyOrder(CountFun(), ms);
    var fuel := if n > 0 then n else 0;
    CountMeans(n, answer, fuel);
    MovedAsMeant(JobOf(CountFun(), ms), [n], answer, moves, Done(None), Expected(n));
  }

  lemma CountParams(ms: seq<Match>)
    ensures JobOf(CountFun(), ms).params == ["n"] && JobOf(CountFun(), ms).body == CountFun().body
  {
    hide Collected;
  }
}
