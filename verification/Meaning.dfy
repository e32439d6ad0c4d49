/** What user code means: a direct evaluator of its statements, which knows no machine, and its
    agreement with the runs of the machine, unmoved and moved. */
module Meaning {
  import opened Wire
  import opened Language
  import opened Points
  import opened Runs
  import opened Simulation
  import opened Transparency

  type Store = map<string, int>

  /** The variables of each open compound, innermost first, around them the parameters. */
  datatype Nest = Outermost(vars: Store) | Inner(vars: Store, outer: Nest)

  /** The innermost variable of that name. */
  function ValueOf(sc: Nest, x: string): Option<int> {
    if x in sc.vars then Some(sc.vars[x])
    else match sc
         case Outermost(_) => None
         case Inner(_, outer) => ValueOf(outer, x)
  }

  function Stored(sc: Nest, x: string, v: int): Option<Nest> {
    if x in sc.vars then Some(sc.(vars := sc.vars[x := v]))
    else match sc
         case Outermost(_) => None
         case Inner(vars, outer) =>
           match Stored(outer, x, v)
           case Some(outer') => Some(Inner(vars, outer'))
           case None => None
  }

  function Value(e: Expr, sc: Nest): Option<int> {
    match e
    case Lit(v) => Some(v)
    case Var(x) => ValueOf(sc, x)
    case Bin(op, l, r) =>
      var a, b := Value(l, sc), Value(r, sc);
      if a.None? || b.None? then None
      else match op
           case Plus => Some(a.value + b.value)
           case Minus => Some(a.value - b.value)
           case Times => Some(a.value * b.value)
           case Less => Some(if a.value < b.value then 1 else 0)
  }

  /** The variables, the events shown, and the number of awaits asked. */
  datatype State = State(sc: Nest, trace: seq<Event>, asked: nat)

  datatype How = Normal | Returned(v: int) | Failed | OutOfFuel
  datatype Outcome = Outcome(how: How, s: State)

  function Declares(s: State, x: string, v: int): Outcome {
    Outcome(Normal, s.(sc := s.sc.(vars := s.sc.vars[x := v])))
  }

  function Assigns(s: State, x: string, v: int): Outcome {
    match Stored(s.sc, x, v)
    case Some(sc) => Outcome(Normal, s.(sc := sc))
    case None => Outcome(Failed, s)
  }

  /** An await shows what it asks, and puts its answer where it belongs. */
  function Awaits(s: State, to: Target, v: int, answer: nat -> int): Outcome {
    var s' := s.(trace := s.trace + [Awaiting(v)], asked := s.asked + 1);
    match to
    case Discard => Outcome(Normal, s')
    case NewVar(_, x) => Declares(s', x, answer(s'.asked))
    case Existing(x) => Assigns(s', x, answer(s'.asked))
  }

  /** A statement without compounds, whose expression has value `v`. */
  function Simple(st: Stmt, v: int, s: State, answer: nat -> int): Outcome {
    match st
    case Decl(_, x, _) => Declares(s, x, v)
    case Assign(x, _) => Assigns(s, x, v)
    case Emit(_) => Outcome(Normal, s.(trace := s.trace + [Out(v)]))
    case Await(_, to, _) => Awaits(s, to, v, answer)
    case Return(_) => Outcome(Returned(v), s)
    case _ => Outcome(Failed, s)
  }

  predicate IsSimple(st: Stmt) {
    st.Decl? || st.Assign? || st.Emit? || st.Await? || st.Return?
  }

  function Effect(st: Stmt, s: State, answer: nat -> int, fuel: nat): Outcome
    decreases fuel, st, 0
  {
    if IsSimple(st) then
      var v := Value(st.e, s.sc);
      if v.Some? then Simple(st, v.value, s, answer) else Outcome(Failed, s)
    else match st
         case Block(_, b) => Within(b, s, answer, fuel)
         case If(c, _, t, _, e) =>
           var v := Value(c, s.sc);
           if v.None? then Outcome(Failed, s)
           else if v.value == 0 then Within(e, s, answer, fuel)
           else Within(t, s, answer, fuel)
         case While(c, _, b) =>
           var v := Value(c, s.sc);
           if v.None? then Outcome(Failed, s)
           else if v.value == 0 then Outcome(Normal, s)
           else if fuel == 0 then Outcome(OutOfFuel, s)
           else
             var o := Within(b, s, answer, fuel - 1);
             if o.how.Normal? then Effect(st, o.s, answer, fuel - 1) else o
         case _ => Outcome(Failed, s)
  }

  function Effects(code: Code, s: State, answer: nat -> int, fuel: nat): Outcome
    decreases fuel, code, 0
  {
    match code
    case End => Outcome(Normal, s)
    case Then(st, rest) =>
      var o := Effect(st, s, answer, fuel);
      if o.how.Normal? then Effects(rest, o.s, answer, fuel) else o
  }

  /** A compound's own variables are gone after it. */
  function Within(b: Code, s: State, answer: nat -> int, fuel: nat): Outcome
    decreases fuel, b, 1
  {
    var o := Effects(b, s.(sc := Inner(map[], s.sc)), answer, fuel);
    if o.how.Normal? && o.s.sc.Inner? then o.(s := o.s.(sc := o.s.sc.outer)) else o
  }

  // ----- variables and frame slots -----

  ghost predicate Level(vars: Store, slots: Env) {
    && (forall i :: 0 <= i < |slots| ==> slots[i].cell.Val?)
    && (forall x :: x in vars <==> Where(slots, x) >= 0)
    && (forall x :: x in vars ==> slots[Where(slots, x)].cell == Val(vars[x]))
  }

  /** The slots hold the variables, compound by compound. */
  ghost predicate Holds(sc: Nest, env: Env, stack: Stack) {
    match sc
    case Outermost(vars) => stack.Bottom? && Level(vars, env)
    case Inner(vars, outer) =>
      && stack.Push? && stack.mark <= |env|
      && Level(vars, env[stack.mark..]) && Holds(outer, env[..stack.mark], stack.below)
  }

  lemma {:induction false} WhereJoin(a: Env, b: Env, x: string)
    ensures Where(a + b, x) == if Where(b, x) >= 0 then |a| + Where(b, x) else Where(a, x)
  {
    var i, j := Where(a + b, x), Where(b, x);
    if i >= |a| { assert (a + b)[i] == b[i - |a|]; }
    if j >= 0 { assert (a + b)[|a| + j] == b[j]; }
    if 0 <= i < |a| { assert (a + b)[i] == a[i]; }
    var k := Where(a, x);
    if k >= 0 { assert (a + b)[k] == a[k]; }
  }

  lemma LookupJoin(a: Env, b: Env, x: string)
    ensures Lookup(a + b, x) == if Where(b, x) >= 0 then Lookup(b, x) else Lookup(a, x)
  {
    WhereJoin(a, b, x);
    hide Where;
  }

  lemma LevelLookup(vars: Store, slots: Env, x: string)
    requires Level(vars, slots)
    ensures x in vars <==> Where(slots, x) >= 0
    ensures Lookup(slots, x) == if x in vars then Some(vars[x]) else None
  {
    hide Where;
  }

  lemma {:induction false} HoldsValue(sc: Nest, env: Env, stack: Stack, x: string)
    requires Holds(sc, env, stack)
    ensures Lookup(env, x) == ValueOf(sc, x)
    decreases sc
  {
    hide Level, Where, Lookup;
    match sc
    case Outermost(vars) => LevelLookup(vars, env, x);
    case Inner(vars, outer) =>
      var a, b := env[..stack.mark], env[stack.mark..];
      assert env == a + b;
      LookupJoin(a, b, x);
      LevelLookup(vars, b, x);
      HoldsValue(outer, a, stack.below, x);
  }

  lemma LevelPut(vars: Store, slots: Env, x: string, v: int)
    requires Level(vars, slots) && x in vars
    ensures Level(vars[x := v], slots[Where(slots, x) := Slot(x, Val(v))])
  {
    var slots' := slots[Where(slots, x) := Slot(x, Val(v))];
    forall y ensures Where(slots', y) == Where(slots, y) {
      SameWhere(slots, slots', y);
    }
  }

  lemma SameWhere(a: Env, b: Env, x: string)
    requires |a| == |b| && forall i :: 0 <= i < |a| ==> a[i].name == b[i].name
    ensures Where(a, x) == Where(b, x)
  {
    var i, j := Where(a, x), Where(b, x);
    if i >= 0 { assert b[i].name == x; }
    if j >= 0 { assert a[j].name == x; }
  }

  lemma {:induction false} HoldsStored(sc: Nest, env: Env, stack: Stack, x: string, v: int)
    requires Holds(sc, env, stack)
    ensures Stored(sc, x, v).Some? <==> Update(env, x, v).Some?
    ensures Stored(sc, x, v).Some? ==> Holds(Stored(sc, x, v).value, Update(env, x, v).value, stack)
    decreases sc
  {
    match sc
    case Outermost(vars) =>
      if x in vars { LevelPut(vars, env, x, v); }
    case Inner(vars, outer) =>
      var a, b := env[..stack.mark], env[stack.mark..];
      assert env == a + b;
      WhereJoin(a, b, x);
      var i := Where(env, x);
      if x in vars {
        LevelPut(vars, b, x, v);
        assert env[i := Slot(x, Val(v))][..stack.mark] == a;
        assert env[i := Slot(x, Val(v))][stack.mark..] == b[i - |a| := Slot(x, Val(v))];
      } else {
        HoldsStored(outer, a, stack.below, x, v);
        if i >= 0 {
          assert env[i := Slot(x, Val(v))][..stack.mark] == a[i := Slot(x, Val(v))];
          assert env[i := Slot(x, Val(v))][stack.mark..] == b;
        }
      }
  }

  lemma LevelDeclared(vars: Store, slots: Env, x: string, v: int)
    requires Level(vars, slots)
    ensures Level(vars[x := v], slots + [Slot(x, Val(v))])
  {
    var one := [Slot(x, Val(v))];
    forall y ensures Where(slots + one, y) == if y == x then |slots| else Where(slots, y) {
      WhereJoin(slots, one, y);
      assert one[..0] == [];
    }
  }

  lemma HoldsDeclared(sc: Nest, env: Env, stack: Stack, x: string, v: int)
    requires Holds(sc, env, stack)
    ensures Holds(sc.(vars := sc.vars[x := v]), env + [Slot(x, Val(v))], stack)
  {
    var env' := env + [Slot(x, Val(v))];
    match sc
    case Outermost(vars) => LevelDeclared(vars, env, x, v);
    case Inner(vars, outer) =>
      LevelDeclared(vars, env[stack.mark..], x, v);
      assert env'[stack.mark..] == env[stack.mark..] + [Slot(x, Val(v))];
      assert env'[..stack.mark] == env[..stack.mark];
  }

  /** Entering a compound, */
  lemma HoldsEntered(sc: Nest, env: Env, code: Code, below: Stack)
    requires Holds(sc, env, below)
    ensures Holds(Inner(map[], sc), env, Push(code, |env|, below))
  {
    assert env[|env|..] == [] && env[..|env|] == env;
  }

  /** leaving it, */
  lemma HoldsLeft(sc: Nest, env: Env, code: Code, mark: nat, below: Stack)
    requires Holds(sc, env, Push(code, mark, below))
    ensures sc.Inner? && Holds(sc.outer, Cut(env, mark), below)
  {
  }

  /** and going on in it. */
  lemma HoldsOn(sc: Nest, env: Env, code: Code, code': Code, mark: nat, below: Stack)
    requires Holds(sc, env, Push(code, mark, below))
    ensures Holds(sc, env, Push(code', mark, below))
  {
  }

  lemma {:induction false} HoldsEval(sc: Nest, env: Env, stack: Stack, e: Expr)
    requires Holds(sc, env, stack)
    ensures Eval(e, env) == Value(e, sc)
    decreases e
  {
    match e
    case Lit(_) =>
    case Var(x) => HoldsValue(sc, env, stack, x);
    case Bin(_, l, r) =>
      HoldsEval(sc, env, stack, l);
      HoldsEval(sc, env, stack, r);
  }

  // ----- the evaluator and the machine -----

  ghost predicate Shows(s: State, d: Config) {
    d.trace == s.trace && d.asked == s.asked && Holds(s.sc, d.env, d.stack)
  }

  /** The machine is where an outcome says, about to go on with `next` if it is a normal one. */
  ghost predicate Reached(o: Outcome, d: Config, next: Stack) {
    && Shows(o.s, d)
    && match o.how
       case Normal => d.status.Running? && d.stack == next
       case Returned(v) => d.status == Done(Some(v))
       case Failed => d.status == Fault
       case OutOfFuel => d.status.Running?
  }

  ghost predicate Unmoved(w: World) {
    forall i :: !w.moves(i)
  }

  /** About to execute `st` and then `next`, in state `s`. */
  ghost predicate AtStmt(c: Config, st: Stmt, next: Stack, s: State) {
    && c.status.Running? && next.Push? && c.stack == Push(Then(st, next.code), next.mark, next.below)
    && Shows(s, c)
  }

  lemma SimpleMeans(w: World, c: Config, st: Stmt, next: Stack, s: State, fuel: nat) returns (n: nat)
    requires Unmoved(w) && AtStmt(c, st, next, s) && IsSimple(st)
    ensures Reached(Effect(st, s, w.answer, fuel), w.Run(c, n), next)
    ensures !Effect(st, s, w.answer, fuel).how.OutOfFuel?
  {
    HoldsEval(s.sc, c.env, c.stack, st.e);
    HoldsOn(s.sc, c.env, c.stack.code, next.code, next.mark, next.below);
    assert w.Run(c, 0) == c && w.Run(c, 1) == w.Next(c);
    n := 1;
    hide Eval, Value, Holds;
    match Eval(st.e, c.env)
    case None =>
    case Some(v) =>
      match st
      case Decl(_, x, _) => HoldsDeclared(s.sc, c.env, next, x, v);
      case Assign(x, _) => HoldsStored(s.sc, c.env, next, x, v);
      case Await(_, to, _) => n := AwaitMeans(w, c, st, next, s, v);
      case _ =>
  }

  lemma AwaitMeans(w: World, c: Config, st: Stmt, next: Stack, s: State, v: int) returns (n: nat)
    requires Unmoved(w) && AtStmt(c, st, next, s) && st.Await? && Eval(st.e, c.env) == Some(v)
    ensures Reached(Awaits(s, st.to, v, w.answer), w.Run(c, n), next)
    ensures !Awaits(s, st.to, v, w.answer).how.OutOfFuel?
  {
    RunNothing(w, c);
    hide Eval, Holds, World.Run, Awaits, Deliver;
    RunAsk(w, c, 0, c, st, next, v);
    RunResume(w, c, 1, w.Run(c, 1));
    n := 2;
    Received(w, c, st, next, s, v, w.Run(c, 1).prom);
  }

  lemma Received(w: World, c: Config, st: Stmt, next: Stack, s: State, v: int, prom: Prom)
    requires AtStmt(c, st, next, s) && st.Await?
    ensures
      var c' := c.(status := Suspended, trace := c.trace + [Awaiting(v)], asked := c.asked + 1, prom := prom);
      && Reached(Awaits(s, st.to, v, w.answer), Deliver(c', st.to, w.answer(c'.asked), next), next)
      && !Awaits(s, st.to, v, w.answer).how.OutOfFuel?
  {
    HoldsOn(s.sc, c.env, c.stack.code, next.code, next.mark, next.below);
    hide Holds;
    var r := w.answer(c.asked + 1);
    match st.to
    case Discard =>
    case NewVar(_, x) => HoldsDeclared(s.sc, c.env, next, x, r);
    case Existing(x) =>
      HoldsStored(s.sc, c.env, next, x, r);
      hide Stored, Update;
  }

  lemma ReachedNormally(o: Outcome, d: Config, next: Stack)
    requires Reached(o, d, next) && o.how.Normal?
    ensures d.status.Running? && d.stack == next && Shows(o.s, d)
  {
  }

  lemma ReachedElse(o: Outcome, d: Config, next: Stack, next': Stack)
    requires Reached(o, d, next) && !o.how.Normal?
    ensures Reached(o, d, next')
  {
  }

  lemma ReachedNext(o: Outcome, d: Config, next: Stack)
    requires o.how.Normal? && d.status.Running? && d.stack == next && Shows(o.s, d)
    ensures Reached(o, d, next)
  {
  }

  lemma EffectsIs(st: Stmt, rest: Code, s: State, answer: nat -> int, fuel: nat)
    ensures
      var o := Effect(st, s, answer, fuel);
      Effects(Then(st, rest), s, answer, fuel) == if o.how.Normal? then Effects(rest, o.s, answer, fuel) else o
  {
    hide Effect;
  }

  lemma WithinIs(b: Code, s: State, answer: nat -> int, fuel: nat)
    ensures
      var o := Effects(b, s.(sc := Inner(map[], s.sc)), answer, fuel);
      Within(b, s, answer, fuel)
      == if o.how.Normal? && o.s.sc.Inner? then o.(s := o.s.(sc := o.s.sc.outer)) else o
  {
    hide Effects;
  }

  lemma UserParts(st: Stmt, rest: Code)
    requires IsUser(Then(st, rest))
    ensures IsUserStmt(st) && IsUser(rest)
  {
  }

  /** From the beginning of a compound to what follows it. */
  lemma WithinMeans(w: World, c: Config, b: Code, next: Stack, s: State, fuel: nat) returns (n: nat)
    requires Unmoved(w) && IsUser(b) && c.status.Running? && c.stack == Push(b, |c.env|, next)
    requires c.trace == s.trace && c.asked == s.asked && Holds(s.sc, c.env, next)
    ensures Reached(Within(b, s, w.answer, fuel), w.Run(c, n), next)
    ensures Within(b, s, w.answer, fuel).how.OutOfFuel? ==> n >= fuel
    decreases fuel, b, 1
  {
    hide *;
    HoldsEntered(s.sc, c.env, b, next);
    var s' := s.(sc := Inner(map[], s.sc));
    ShowsIs(s', c);
    n := CodeMeans(w, c, b, |c.env|, next, s', fuel);
    WithinIs(b, s, w.answer, fuel);
    var o, d, end := Effects(b, s', w.answer, fuel), w.Run(c, n), Push(End, |c.env|, next);
    if o.how.Normal? {
      ReachedNormally(o, d, end);
      RunEnd(w, c, n, d, |c.env|, next);
      n := n + 1;
      LeftMeans(o, d, w.Run(c, n), |c.env|, next);
    } else {
      ReachedElse(o, d, end, next);
    }
  }

  lemma ShowsIs(s: State, c: Config)
    ensures Shows(s, c) <==> c.trace == s.trace && c.asked == s.asked && Holds(s.sc, c.env, c.stack)
  {
  }

  lemma LeftMeans(o: Outcome, d: Config, d': Config, mark: nat, next: Stack)
    requires o.how.Normal? && Shows(o.s, d) && d.status.Running? && d.stack == Push(End, mark, next)
    requires d' == d.(stack := next, env := Cut(d.env, mark))
    ensures o.s.sc.Inner? && Reached(o.(s := o.s.(sc := o.s.sc.outer)), d', next)
  {
    HoldsLeft(o.s.sc, d.env, End, mark, next);
    hide Holds, Cut;
  }

  lemma CodeMeans(w: World, c: Config, code: Code, mark: nat, below: Stack, s: State, fuel: nat) returns (n: nat)
    requires Unmoved(w) && IsUser(code) && c.status.Running? && c.stack == Push(code, mark, below) && Shows(s, c)
    ensures Reached(Effects(code, s, w.answer, fuel), w.Run(c, n), Push(End, mark, below))
    ensures Effects(code, s, w.answer, fuel).how.OutOfFuel? ==> n >= fuel
    decreases fuel, code, 0
  {
    hide *;
    var end := Push(End, mark, below);
    match code
    case End =>
      n := 0;
      RunNothing(w, c);
      NothingIs(s, w.answer, fuel);
      ReachedNext(Outcome(Normal, s), c, end);
    case Then(st, rest) =>
      var next := Push(rest, mark, below);
      UserParts(st, rest);
      AtStmtIs(c, st, next, s);
      EffectsIs(st, rest, s, w.answer, fuel);
      n := StmtMeans(w, c, st, next, s, fuel);
      var o, d := Effect(st, s, w.answer, fuel), w.Run(c, n);
      if o.how.Normal? {
        ReachedNormally(o, d, next);
        var m := CodeMeans(w, d, rest, mark, below, o.s, fuel);
        RunAdds(w, c, n, m);
        n := n + m;
      } else {
        ReachedElse(o, d, next, end);
      }
  }

  lemma NothingIs(s: State, answer: nat -> int, fuel: nat)
    ensures Effects(End, s, answer, fuel) == Outcome(Normal, s)
  {
  }

  lemma AtStmtIs(c: Config, st: Stmt, next: Stack, s: State)
    ensures AtStmt(c, st, next, s) <==>
      c.status.Running? && next.Push? && c.stack == Push(Then(st, next.code), next.mark, next.below) && Shows(s, c)
  {
    hide Shows;
  }

  lemma StmtMeans(w: World, c: Config, st: Stmt, next: Stack, s: State, fuel: nat) returns (n: nat)
    requires Unmoved(w) && IsUserStmt(st) && AtStmt(c, st, next, s)
    ensures Reached(Effect(st, s, w.answer, fuel), w.Run(c, n), next)
    ensures Effect(st, s, w.answer, fuel).how.OutOfFuel? ==> n >= fuel
    decreases fuel, st, 1
  {
    RunNothing(w, c);
    if IsSimple(st) {
      n := SimpleMeans(w, c, st, next, s, fuel);
    } else if st.While? {
      n := LoopMeans(w, c, st, next, s, fuel);
    } else if st.Block? {
      RunBlock(w, c, 0, c, st, next);
      n := EnteredMeans(w, c, st.body, next, s, fuel);
    } else {
      n := BranchMeans(w, c, st, next, s, fuel);
    }
  }

  /** One move enters a compound. */
  lemma EnteredMeans(w: World, c: Config, b: Code, next: Stack, s: State, fuel: nat) returns (n: nat)
    requires Unmoved(w) && IsUser(b) && c.status.Running? && Shows(s, c) && Holds(s.sc, c.env, next)
    requires w.Run(c, 1) == c.(stack := Push(b, |c.env|, next))
    ensures Reached(Within(b, s, w.answer, fuel), w.Run(c, n), next)
    ensures n > 0 && (Within(b, s, w.answer, fuel).how.OutOfFuel? ==> n > fuel)
    decreases fuel, b, 2
  {
    hide *;
    ShowsIs(s, c);
    var m := WithinMeans(w, c.(stack := Push(b, |c.env|, next)), b, next, s, fuel);
    RunAdds(w, c, 1, m);
    n := 1 + m;
  }

  lemma BranchMeans(w: World, c: Config, st: Stmt, next: Stack, s: State, fuel: nat) returns (n: nat)
    requires Unmoved(w) && IsUserStmt(st) && AtStmt(c, st, next, s) && st.If?
    ensures Reached(Effect(st, s, w.answer, fuel), w.Run(c, n), next)
    ensures Effect(st, s, w.answer, fuel).how.OutOfFuel? ==> n >= fuel
    decreases fuel, st, 0
  {
    HoldsOn(s.sc, c.env, c.stack.code, next.code, next.mark, next.below);
    HoldsEval(s.sc, c.env, c.stack, st.c);
    RunNothing(w, c);
    var v := Value(st.c, s.sc);
    if v.None? {
      RunStuck(w, c, 0, c, st, next);
      n := 1;
    } else {
      RunIf(w, c, 0, c, st, next, v.value);
      n := EnteredMeans(w, c, if v.value == 0 then st.els else st.thn, next, s, fuel);
    }
  }

  lemma LoopMeans(w: World, c: Config, st: Stmt, next: Stack, s: State, fuel: nat) returns (n: nat)
    requires Unmoved(w) && IsUserStmt(st) && AtStmt(c, st, next, s) && st.While?
    ensures Reached(Effect(st, s, w.answer, fuel), w.Run(c, n), next)
    ensures Effect(st, s, w.answer, fuel).how.OutOfFuel? ==> n >= fuel
    decreases fuel, st, 0
  {
    hide *;
    n := Looked(w, c, st, next, s);
    LoopIs(st, s, w.answer, fuel);
    var v := Value(st.c, s.sc);
    if v.Some? && v.value != 0 {
      if fuel == 0 {
        n := 0;
        RunNothing(w, c);
        StillRunning(c, st, next, s);
      } else {
        LoopEnters(w, c, st, next, s);
        n := EnteredMeans(w, c, st.body, c.stack, s, fuel - 1);
        var o, d := Within(st.body, s, w.answer, fuel - 1), w.Run(c, n);
        if o.how.Normal? {
          ReachedNormally(o, d, c.stack);
          AtStmtIs(c, st, next, s);
          AtStmtIs(d, st, next, o.s);
          var m := LoopMeans(w, d, st, next, o.s, fuel - 1);
          RunAdds(w, c, n, m);
          n := n + m;
        } else {
          ReachedElse(o, d, c.stack, next);
        }
      }
    }
  }

  lemma LoopIs(st: Stmt, s: State, answer: nat -> int, fuel: nat)
    requires st.While?
    ensures
      var v := Value(st.c, s.sc);
      && (v.None? ==> Effect(st, s, answer, fuel) == Outcome(Failed, s))
      && (v == Some(0) ==> Effect(st, s, answer, fuel) == Outcome(Normal, s))
      && (v.Some? && v.value != 0 && fuel == 0 ==> Effect(st, s, answer, fuel) == Outcome(OutOfFuel, s))
      && (v.Some? && v.value != 0 && fuel > 0 ==>
            var o := Within(st.body, s, answer, fuel - 1);
            Effect(st, s, answer, fuel) == if o.how.Normal? then Effect(st, o.s, answer, fuel - 1) else o)
  {
    hide Within, Value;
  }

  lemma StillRunning(c: Config, st: Stmt, next: Stack, s: State)
    requires AtStmt(c, st, next, s)
    ensures Reached(Outcome(OutOfFuel, s), c, next)
  {
  }

  /** One move looks at the condition of a loop. */
  lemma Looked(w: World, c: Config, st: Stmt, next: Stack, s: State) returns (n: nat)
    requires AtStmt(c, st, next, s) && st.While?
    ensures n == 1
    ensures Value(st.c, s.sc) == None ==> Reached(Outcome(Failed, s), w.Run(c, 1), next)
    ensures Value(st.c, s.sc) == Some(0) ==> Reached(Outcome(Normal, s), w.Run(c, 1), next)
  {
    n := 1;
    HoldsOn(s.sc, c.env, c.stack.code, next.code, next.mark, next.below);
    HoldsEval(s.sc, c.env, c.stack, st.c);
    RunNothing(w, c);
    hide World.Run, Holds, Eval, Value;
    if Eval(st.c, c.env).None? {
      RunStuck(w, c, 0, c, st, next);
    } else {
      RunWhile(w, c, 0, c, st, next, Eval(st.c, c.env).value);
    }
  }

  lemma LoopEnters(w: World, c: Config, st: Stmt, next: Stack, s: State)
    requires AtStmt(c, st, next, s) && st.While? && Value(st.c, s.sc).Some? && Value(st.c, s.sc) != Some(0)
    requires IsUserStmt(st)
    ensures w.Run(c, 1) == c.(stack := Push(st.body, |c.env|, c.stack))
    ensures c.status.Running? && Shows(s, c) && Holds(s.sc, c.env, c.stack) && IsUser(st.body)
  {
    HoldsEval(s.sc, c.env, c.stack, st.c);
    RunNothing(w, c);
    hide World.Run, Holds, Eval, Value;
    RunWhile(w, c, 0, c, st, next, Eval(st.c, c.env).value);
  }

  // ----- whole runs -----

  /** What a body does, called with the parameters as given. */
  function Whole(body: Code, vars: Store, answer: nat -> int, fuel: nat): Outcome {
    Within(body, State(Outermost(vars), [], 0), answer, fuel)
  }

  /** How a run ends. */
  function Ending(how: How): Status
    requires !how.OutOfFuel?
  {
    match how
    case Normal => Done(None)
    case Returned(v) => Done(Some(v))
    case Failed => Fault
  }

  /** If the evaluator comes to an end, so does the run, in the same way, with the same events and the
      same values in the frame.  If its fuel does not suffice, the run is still going on after as many
      moves at least, having shown the same events. */
  lemma RunsAsMeant(w: World, env: Env, vars: Store, prom: Prom, fuel: nat) returns (n: nat)
    requires Unmoved(w) && IsUser(w.body) && Level(vars, env)
    ensures
      var o, d := Whole(w.body, vars, w.answer, fuel), w.Run(Started(w.body, env, prom), n);
      && Shows(o.s, d)
      && (if o.how.OutOfFuel? then d.status.Running? && n >= fuel else d.status == Ending(o.how))
  {
    var c, s := Started(w.body, env, prom), State(Outermost(vars), [], 0);
    n := WithinMeans(w, c, w.body, Bottom, s, fuel);
    var d := w.Run(c, n);
    if Whole(w.body, vars, w.answer, fuel).how.Normal? {
      Move(w, c, n, d);
      n := n + 1;
    }
  }

  /** If the run comes to an end, the evaluator does, in the same way, with as much fuel as the run has
      moves. */
  lemma EndsAsMeant(w: World, env: Env, vars: Store, prom: Prom, n: nat)
    requires Unmoved(w) && IsUser(w.body) && Level(vars, env)
    requires Over(w.Run(Started(w.body, env, prom), n))
    ensures
      var o, d := Whole(w.body, vars, w.answer, n), w.Run(Started(w.body, env, prom), n);
      !o.how.OutOfFuel? && Shows(o.s, d) && d.status == Ending(o.how)
  {
    var c := Started(w.body, env, prom);
    var m := RunsAsMeant(w, env, vars, prom, n);
    hide Whole, World.Run, Started, Level, Holds;
    if n <= m {
      OverStays(w, c, n, m);
    } else {
      OverStays(w, c, m, n);
    }
  }

  /** Parameters by name; of two with one name the later one counts. */
  function Called(params: seq<string>, args: seq<int>): Store
    requires |params| == |args|
  {
    if params == [] then map[]
    else Called(params[..|params| - 1], args[..|args| - 1])[params[|params| - 1] := args[|args| - 1]]
  }

  lemma {:induction false} CalledLevel(params: seq<string>, args: seq<int>)
    requires |params| == |args|
    ensures Level(Called(params, args), Bound(params, args))
    decreases |params|
  {
    var n := |params| - 1;
    if params == [] {
      assert Bound(params, args) == [];
    } else {
      CalledLevel(params[..n], args[..n]);
      hide Level, Where;
      LevelDeclared(Called(params[..n], args[..n]), Bound(params[..n], args[..n]), params[n], args[n]);
      BoundMore(params, args, n);
    }
  }

  lemma BoundMore(params: seq<string>, args: seq<int>, n: nat)
    requires |params| == n + 1 == |args|
    ensures Bound(params, args) == Bound(params[..n], args[..n]) + [Slot(params[n], Val(args[n]))]
  {
  }

  /** With some fuel, the evaluator ends in this way with these events. */
  ghost predicate Means(body: Code, vars: Store, answer: nat -> int, fuel: nat, st: Status, trace: seq<Event>) {
    var o := Whole(body, vars, answer, fuel);
    !o.how.OutOfFuel? && Ending(o.how) == st && o.s.trace == trace
  }

  /** The original's run is what the code means. */
  lemma OriginalAsMeant(j: Job, args: seq<int>, answer: nat -> int, st: Status, trace: seq<Event>)
    requires IsUser(j.body) && |args| == |j.params| && (st.Done? || st.Fault?)
    ensures
      (exists n: nat :: Ends(j.Original(answer), OriginalStart(j, args), n, st, trace)) <==>
      (exists fuel: nat :: Means(j.body, Called(j.params, args), answer, fuel, st, trace))
  {
    hide *;
    var vars := Called(j.params, args);
    StartIs(j, args, answer);
    CalledLevel(j.params, args);
    if n: nat :| Ends(j.Original(answer), OriginalStart(j, args), n, st, trace) {
      EndsMeans(j.Original(answer), Bound(j.params, args), vars, n, st, trace);
      assert Means(j.body, Called(j.params, args), answer, n, st, trace);
      assert exists fuel: nat :: Means(j.body, Called(j.params, args), answer, fuel, st, trace);
    }
    assert (exists n: nat :: Ends(j.Original(answer), OriginalStart(j, args), n, st, trace)) ==>
      (exists fuel: nat :: Means(j.body, Called(j.params, args), answer, fuel, st, trace));
    if fuel: nat :| Means(j.body, vars, answer, fuel, st, trace) {
      var m := MeansEnds(j.Original(answer), Bound(j.params, args), vars, fuel, st, trace);
      assert (exists n: nat :: Ends(j.Original(answer), OriginalStart(j, args), n, st, trace));
    }
  }

  lemma StartIs(j: Job, args: seq<int>, answer: nat -> int)
    requires |args| == |j.params|
    ensures Unmoved(j.Original(answer)) && j.Original(answer).body == j.body && j.Original(answer).answer == answer
    ensures OriginalStart(j, args) == Started(j.body, Bound(j.params, args), Prom(NoState, []))
  {
  }

  lemma EndsMeans(w: World, env: Env, vars: Store, n: nat, st: Status, trace: seq<Event>)
    requires Unmoved(w) && IsUser(w.body) && Level(vars, env) && (st.Done? || st.Fault?)
    requires Ends(w, Started(w.body, env, Prom(NoState, [])), n, st, trace)
    ensures Means(w.body, vars, w.answer, n, st, trace)
  {
    hide Whole, World.Run, Level, Started, Holds, Ending;
    EndsAsMeant(w, env, vars, Prom(NoState, []), n);
  }

  lemma MeansEnds(w: World, env: Env, vars: Store, fuel: nat, st: Status, trace: seq<Event>) returns (n: nat)
    requires Unmoved(w) && IsUser(w.body) && Level(vars, env)
    requires Means(w.body, vars, w.answer, fuel, st, trace)
    ensures Ends(w, Started(w.body, env, Prom(NoState, [])), n, st, trace)
  {
    hide Whole, World.Run, Level, Started, Holds, Ending;
    n := RunsAsMeant(w, env, vars, Prom(NoState, []), fuel);
  }

  /** And so is the run of the rewritten code, wherever it is moved. */
  lemma MovedAsMeant(j: Job, args: seq<int>, answer: nat -> int, moves: nat -> bool, st: Status, trace: seq<Event>)
    requires j.Ok() && |args| == |j.params| && (st.Done? || st.Fault?)
    ensures
      (exists m: nat :: Ends(j.Migrating(answer, moves), MigratingStart(j, args), m, st, trace)) <==>
      (exists fuel: nat :: Means(j.body, Called(j.params, args), answer, fuel, st, trace))
  {
    hide Ends, Means;
    OriginalAsMeant(j, args, answer, st, trace);
    SameOutcome(j, args, answer, moves, st, trace);
  }
}
