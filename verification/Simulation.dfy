/** The rewritten coroutine, moved between processes at any of its suspensions, against the
    original run that is never moved. */
module Simulation {
  import opened Wire
  import opened Language
  import opened Points
  import opened Rewrite
  import opened Restore

  /** A coroutine that is not moved. */
  function Never(k: nat): bool { false }

  /** A coroutine to be rewritten: its body, parameters, stage table and the scheme used. */
  datatype Job = Job(body: Code, params: seq<string>, ss: seq<Stage>, style: Style)
  {
    /** What the rewrite asks of the source code. */
    ghost predicate WellFormed() {
      && IsUser(body) && Distinct(body) && Unshadowed(body, params) && NoDup(params)
      && Fits(body, style)
    }

    /** One stage for each await, in any order, listing in any order exactly the names in scope
        there; few enough stages for a 16-bit number. */
    ghost predicate TableOk() {
      && |ss| <= 0xFFFF
      && DistinctStages(ss)
      && (forall id :: id in Ids(body) ==> StageNo(ss, id) > 0)
      && (forall i :: 0 <= i < |ss| ==>
            && ss[i].aw in Ids(body)
            && var home := Home(body, params, ss[i].aw);
               home.Some? && Lists(ss[i].vars, home.value.names))
    }

    ghost predicate Ok() {
      WellFormed() && TableOk()
    }

    function Program(): Code {
      Rewritten(body, ss, style)
    }

    /** The original code, never moved. */
    function Original(answer: nat -> int): World {
      World(body, params, answer, Never)
    }

    /** The rewritten code, moved wherever `moves` says. */
    function Migrating(answer: nat -> int, moves: nat -> bool): World {
      World(Program(), params, answer, moves)
    }
  }

  /** How far the rewritten coroutine is inside the code inserted around an await.  Before(k) and
      After(k) stand at inserted piece k, before and after the suspension. */
  datatype Phase = Booting(k: nat) | Aligned | Stopped | Before(k: nat) | Waiting | After(k: nat) | Rebuilding

  function DropCode(code: Code, k: nat): Code {
    if k == 0 || code.End? then code else DropCode(code.tail, k - 1)
  }

  /** The original stands at a numbered await. */
  ghost predicate AtStage(j: Job, s: Config) {
    && s.stack.Push? && s.stack.code.Then? && s.stack.code.head.Await?
    && StageNo(j.ss, s.stack.code.head.at) > 0
  }

  function StageHere(j: Job, s: Config): (n: nat)
    requires AtStage(j, s)
    ensures 0 < n <= |j.ss|
  {
    StageNo(j.ss, s.stack.code.head.at)
  }

  /** The rewritten stack at inserted piece `k` of the await where the original stands. */
  function Piece(j: Job, s: Config, k: nat): Stack
    requires AtStage(j, s)
  {
    var Push(Then(aw, rest), mark, below) := s.stack;
    var n := StageHere(j, s);
    Push(DropCode(Expanded(j.style, n, j.ss[n - 1].vars, aw, RewriteCode(rest, j.ss, j.style)), k),
         mark, RewriteStack(below, j.ss, j.style))
  }

  /** Position of the await among the pieces inserted around it. */
  function AwaitPiece(style: Style): nat {
    match style
    case Emitted => 1
    case Carrying => 4
  }

  /** The serialized state is exactly the stage of the await where the original stands and the
      current values of its variables. */
  ghost predicate Synced(j: Job, s: Config, state: Blob) {
    && AtStage(j, s)
    && var n := StageHere(j, s);
       var vs := LookupAll(s.env, j.ss[n - 1].vars);
       vs.Some? && state == Encode(n, vs.value)
  }

  /** In the value-carrying scheme each hop has made exactly its own await be bypassed. */
  ghost predicate Accounted(j: Job, t: Config, pending: seq<nat>) {
    j.style.Carrying? ==> t.hopped == t.taken + pending
  }

  ghost predicate Related(j: Job, answer: nat -> int, ph: Phase, s: Config, t: Config) {
    && Sound(j.body, j.params, s)
    && s.trace == t.trace && s.asked == t.asked
    && match ph
       case Booting(k) =>
         && s.status.Running? && t.status.Running? && k <= 1
         && s.stack == Push(j.body, |j.params|, Bottom)
         && t.stack == Push(DropCode(j.Program(), k), |j.params|, Bottom)
         && s.env == t.env && t.prom.state == NoState && Accounted(j, t, [])
       case Aligned =>
         && s.status.Running? && t.status.Running?
         && t.stack == RewriteStack(s.stack, j.ss, j.style)
         && s.env == t.env && Accounted(j, t, [])
       case Stopped =>
         && s.status == t.status && (s.status.Done? || s.status.Fault?) && Accounted(j, t, [])
       case Before(k) =>
         && s.status.Running? && t.status.Running? && Synced(j, s, t.prom.state)
         && 1 <= k <= AwaitPiece(j.style) && t.stack == Piece(j, s, k)
         && s.env == t.env && (k >= 2 ==> t.prom.aw == []) && Accounted(j, t, [])
       case Waiting =>
         && s.status.Suspended? && t.status.Suspended? && Synced(j, s, t.prom.state)
         && t.stack == Piece(j, s, AwaitPiece(j.style))
         && s.env == t.env && t.prom.aw != [] && Accounted(j, t, [])
       case After(k) =>
         && s.status.Suspended? && t.status.Running? && Synced(j, s, t.prom.state)
         && 2 <= k <= (if j.style.Emitted? then 3 else 4) && t.stack == Piece(j, s, k)
         && Names(s.env) == Names(t.env) && (k == 4 ==> s.env == t.env)
         && t.prom.aw != [] && (j.style.Carrying? ==> t.prom.aw == [Result(answer(s.asked))])
         && Accounted(j, t, [s.stack.code.head.at])
       case Rebuilding =>
         && s.status.Suspended? && t.status.Running? && Synced(j, s, t.prom.state)
         && t.stack == Push(j.Program(), |j.params|, Bottom) && t.env == Defaults(j.params)
         && t.prom.aw == [Result(answer(s.asked))]
         && Accounted(j, t, [s.stack.code.head.at])
  }

  /** Steps the rewritten coroutine may still take before the original has to move. */
  function Lag(ph: Phase, s: Config): (n: nat)
    ensures n <= 7
  {
    match ph
    case Booting(k) => if k == 0 then 7 else 6
    case Aligned => if AtAwait(s) then 5 else 0
    case Stopped => 0
    case Before(k) => if k < 5 then 5 - k else 0
    case Waiting => 5
    case After(k) => if k < 5 then 5 - k else 0
    case Rebuilding => 4
  }

  /** Where the original stands is the point of the await in the whole body. */
  lemma StandsAtHome(j: Job, s: Config)
    requires Sound(j.body, j.params, s) && AtAwait(s)
    ensures s.stack.code.head.Await?
    ensures Home(j.body, j.params, s.stack.code.head.at) == Some(Point(s.stack, Names(s.env)))
  {
    var Push(code, mark, below) := s.stack;
    assert IsUserStmt(code.head);
    var id, names := code.head.at, Names(s.env);
    assert id in Ids(code);
    assert Find(code, mark, names, below, AwaitAt(id)) == Some(Point(s.stack, names));
  }

  /** An await the original can reach is numbered, its stage variables are the names in scope, and
      the label of its stage is where the computed goto rebuilds its continuation. */
  lemma StageOfReached(j: Job, s: Config)
    requires j.Ok() && Sound(j.body, j.params, s) && AtAwait(s)
    ensures AtStage(j, s)
    ensures
      var n := StageHere(j, s);
      && n <= 0xFFFF
      && Lists(j.ss[n - 1].vars, Names(s.env))
      && Find(j.Program(), |j.params|, j.params, Bottom, LabelNo(Table(|j.ss|)[n]))
         == Some(Point(Piece(j, s, 2), Names(s.env)))
  {
    StandsAtHome(j, s);
    var id, names := s.stack.code.head.at, Names(s.env);
    FindIff(j.body, |j.params|, j.params, Bottom, id);
    hide Sound, Find, Ids, Names, Unshadowed, Distinct, IsUser, Fits;
    var n := StageNo(j.ss, id);
    JumpTable(j.body, j.params, j.ss, n, j.style);
    LabelPiece(j, s);
  }

  /** The second piece is what follows from the label on. */
  lemma LabelPiece(j: Job, s: Config)
    requires AtStage(j, s)
    ensures
      var p := Point(s.stack, Names(s.env));
      LabelPoint(p, j.ss, StageHere(j, s), j.style) == Point(Piece(j, s, 2), Names(s.env))
  {
    var code, n := s.stack.code, StageHere(j, s);
    var whole := Expanded(j.style, n, j.ss[n - 1].vars, code.head, RewriteCode(code.tail, j.ss, j.style));
    assert DropCode(whole, 2) == DropCode(whole.tail, 1) == whole.tail.tail;
  }

  /** The moves of the two runs; `advance` says whether the original moves as well. */
  ghost predicate Simulated(j: Job, answer: nat -> int, moves: nat -> bool,
                            ph: Phase, s: Config, t: Config, ph': Phase, advance: bool) {
    var s' := if advance then j.Original(answer).Next(s) else s;
    && Related(j, answer, ph', s', j.Migrating(answer, moves).Next(t))
    && (!advance ==> Lag(ph', s') < Lag(ph, s))
  }

  /** Away from awaits, user code and its rewriting take the same step. */
  lemma LockStep(j: Job, s: Config, t: Config)
    requires Sound(j.body, j.params, s) && s.status.Running? && t.status.Running? && !AtAwait(s)
    requires t.stack == RewriteStack(s.stack, j.ss, j.style) && s.env == t.env
    ensures
      var s', t' := Step(j.body, s), Step(j.Program(), t);
      && t'.status == s'.status && !s'.status.Suspended?
      && t'.stack == RewriteStack(s'.stack, j.ss, j.style) && t'.env == s'.env
      && s'.asked == s.asked && t'.asked == t.asked
      && t'.hopped == t.hopped && t'.taken == t.taken
      && s.trace <= s'.trace && t'.trace == t.trace + s'.trace[|s.trace|..]
  {
    match s.stack
    case Bottom =>
    case Push(End, _, _) =>
    case Push(Then(st, rest), _, _) => assert IsUserStmt(st);
  }

  lemma AlignedStep(j: Job, answer: nat -> int, moves: nat -> bool, s: Config, t: Config)
    returns (ph: Phase, advance: bool)
    requires j.Ok() && Related(j, answer, Aligned, s, t)
    ensures Simulated(j, answer, moves, Aligned, s, t, ph, advance)
  {
    if AtAwait(s) {
      StageOfReached(j, s);
      var n := StageHere(j, s);
      SaveSucceeds(s.env, j.ss[n - 1].vars);
      ph, advance := Before(1), false;
      SaveStep(j, s, t);
    } else {
      LockStep(j, s, t);
      SoundStep(j.body, j.params, s);
      ph, advance := if Step(j.body, s).status.Running? then Aligned else Stopped, true;
    }
  }

  /** The save inserted in front of an await records its stage and the values of its variables. */
  lemma SaveStep(j: Job, s: Config, t: Config)
    requires AtStage(j, s) && |j.ss| <= 0xFFFF && t.status.Running?
    requires t.stack == RewriteStack(s.stack, j.ss, j.style) && s.env == t.env
    requires LookupAll(s.env, j.ss[StageHere(j, s) - 1].vars).Some?
    ensures
      var t' := Step(j.Program(), t);
      && Synced(j, s, t'.prom.state) && t'.stack == Piece(j, s, 1)
      && t' == t.(stack := t'.stack, prom := t.prom.(state := t'.prom.state))
  {
    var n := StageHere(j, s);
    assert U16(n) == n;
    var Push(Then(aw, rest), mark, below) := s.stack;
    var vars, rest' := j.ss[n - 1].vars, RewriteCode(rest, j.ss, j.style);
    var whole := Expanded(j.style, n, vars, aw, rest');
    assert t.stack == Push(whole, mark, RewriteStack(below, j.ss, j.style));
    assert DropCode(whole, 1) == whole.tail;
  }

  lemma BootingStep(j: Job, answer: nat -> int, moves: nat -> bool, k: nat, s: Config, t: Config)
    returns (ph: Phase)
    requires j.Ok() && Related(j, answer, Booting(k), s, t)
    ensures Simulated(j, answer, moves, Booting(k), s, t, ph, false)
  {
    assert DropCode(j.Program(), 1) == j.Program().tail;
    ph := if k == 0 then Booting(1) else Aligned;
    if k == 1 {
      assert RewriteStack(Push(j.body, |j.params|, Bottom), j.ss, j.style)
          == Push(RewriteCode(j.body, j.ss, j.style), |j.params|, Bottom);
    }
  }

  /** The pieces inserted around an await, one after the other. */
  lemma PieceStacks(j: Job, s: Config)
    requires AtStage(j, s)
    ensures
      var Push(Then(aw, rest), mark, below) := s.stack;
      var n := StageHere(j, s);
      var vars, rest', below' := j.ss[n - 1].vars, RewriteCode(rest, j.ss, j.style), RewriteStack(below, j.ss, j.style);
      && Piece(j, s, 1) == Push(Then(if j.style.Emitted? then aw else Resize, Piece(j, s, 2).code), mark, below')
      && Piece(j, s, 2) == Push(Then(Label(n), Piece(j, s, 3).code), mark, below')
      && Piece(j, s, 3) == Push(Then(Load(vars), Piece(j, s, 4).code), mark, below')
      && Piece(j, s, 4) == Push(if j.style.Emitted? then rest' else Then(Take(aw.at, aw.to, aw.e), rest'), mark, below')
  {
    var Push(Then(aw, rest), mark, below) := s.stack;
    var n := StageHere(j, s);
    var vars, rest' := j.ss[n - 1].vars, RewriteCode(rest, j.ss, j.style);
    var c0 := Expanded(j.style, n, vars, aw, rest');
    var c1 := c0.tail;
    var c2 := c1.tail;
    var c3 := c2.tail;
    assert DropCode(c0, 1) == DropCode(c1, 0) == c1;
    assert DropCode(c0, 2) == DropCode(c1, 1) == DropCode(c2, 0) == c2;
    assert DropCode(c0, 3) == DropCode(c1, 2) == DropCode(c2, 1) == DropCode(c3, 0) == c3;
    assert DropCode(c0, 4) == DropCode(c1, 3) == DropCode(c2, 2) == DropCode(c3, 1) == c3.tail;
  }

  /** What the rewritten coroutine does at inserted piece `k`. */
  function PieceEffect(j: Job, s: Config, t: Config, k: nat): Config
    requires AtStage(j, s) && 1 <= k <= AwaitPiece(j.style) + 2 && (j.style.Carrying? ==> k <= 4)
  {
    var aw := s.stack.code.head;
    var next := Piece(j, s, k + 1);
    if k == AwaitPiece(j.style) then
      if j.style.Emitted? || t.prom.aw == [] then Ask(t, aw.e)
      else if t.prom.aw[0].Result? then
        Deliver(t.(taken := t.taken + [aw.at]), aw.to, t.prom.aw[0].v, Following(j, s))
      else t.(status := Fault)
    else if k == 1 then t.(stack := next, prom := t.prom.(aw := []))
    else if k == 2 then t.(stack := next)
    else
      match LoadInto(t.prom, t.env, j.ss[StageHere(j, s) - 1].vars)
      case Some(env') => t.(stack := next, env := env')
      case None => t.(status := Fault)
  }

  /** The rewritten stack after the await where the original stands. */
  function Following(j: Job, s: Config): Stack
    requires AtStage(j, s)
  {
    RewriteStack(Push(s.stack.code.tail, s.stack.mark, s.stack.below), j.ss, j.style)
  }

  lemma PieceStep(j: Job, s: Config, t: Config, k: nat)
    requires AtStage(j, s) && 1 <= k <= AwaitPiece(j.style) + 2 && (j.style.Carrying? ==> k <= 4)
    requires t.status.Running? && t.stack == Piece(j, s, k)
    ensures Step(j.Program(), t) == PieceEffect(j, s, t, k)
  {
    hide Piece, RewriteCode, Ask, Deliver, LoadInto, Jump, LookupAll, StageNo;
    PieceStacks(j, s);
  }

  /** Resumed in place, the rewritten coroutine goes on right after its await. */
  lemma PieceResume(j: Job, s: Config, t: Config, r: int)
    requires AtStage(j, s) && t.status.Suspended? && t.stack == Piece(j, s, AwaitPiece(j.style))
    ensures AtAwait(t) && t.stack.code.head.at == s.stack.code.head.at
    ensures Resume(t, r) ==
      Deliver(t, s.stack.code.head.to, r, if j.style.Emitted? then Piece(j, s, 2) else Following(j, s))
  {
    PieceStacks(j, s);
  }

  lemma FollowingEmitted(j: Job, s: Config)
    requires AtStage(j, s) && j.style.Emitted?
    ensures Piece(j, s, 4) == Following(j, s)
  {
    PieceStacks(j, s);
  }

  /** Code before the suspension other than the await itself. */
  lemma ClearingStep(j: Job, answer: nat -> int, k: nat, s: Config, t: Config)
    requires j.Ok() && Related(j, answer, Before(k), s, t) && k != AwaitPiece(j.style)
    ensures Related(j, answer, Before(k + 1), s, Step(j.Program(), t))
  {
    hide Step, Piece, Sound, RewriteCode, RewriteStack, LookupAll, Ask, Deliver, Following, Encode;
    PieceStep(j, s, t, k);
  }

  lemma AskBoth(s: Config, t: Config, e: Expr)
    requires s.env == t.env && s.trace == t.trace && s.asked == t.asked
    ensures
      var s', t' := Ask(s, e), Ask(t, e);
      && s' == s.(status := s'.status, trace := s'.trace, asked := s'.asked, prom := s'.prom)
      && t' == t.(status := s'.status, trace := s'.trace, asked := s'.asked, prom := t.prom.(aw := t'.prom.aw))
      && (s'.status.Fault? || (s'.status.Suspended? && t'.prom.aw != []))
  {
  }

  /** The original and the rewritten coroutine start the await together. */
  lemma AskStep(j: Job, answer: nat -> int, s: Config, t: Config)
    requires j.Ok() && Related(j, answer, Before(AwaitPiece(j.style)), s, t)
    ensures
      var s', t' := Step(j.body, s), Step(j.Program(), t);
      Related(j, answer, if s'.status.Suspended? then Waiting else Stopped, s', t')
  {
    hide Ask, Sound, RewriteCode, RewriteStack, LookupAll, Find, OnTrack, Piece, Jump, Deliver, LoadInto;
    PieceStep(j, s, t, AwaitPiece(j.style));
    SoundStep(j.body, j.params, s);
    var e := s.stack.code.head.e;
    AskHere(j, s);
    assert Step(j.Program(), t) == Ask(t, e);
    AskBoth(s, t, e);
    SamePlace(j, s, Ask(s, e));
  }

  lemma AskHere(j: Job, s: Config)
    requires s.status.Running? && AtStage(j, s)
    ensures Step(j.body, s) == Ask(s, s.stack.code.head.e)
  {
    hide Ask, Find, StageNo;
  }

  /** Where the original stands depends on its stack and locals only. */
  lemma SamePlace(j: Job, s: Config, s': Config)
    requires s.stack == s'.stack && s.env == s'.env && AtStage(j, s)
    ensures AtStage(j, s') && forall k: nat :: Piece(j, s, k) == Piece(j, s', k)
    ensures forall b :: Synced(j, s, b) ==> Synced(j, s', b)
  {
  }

  lemma BeforeStep(j: Job, answer: nat -> int, moves: nat -> bool, k: nat, s: Config, t: Config)
    returns (ph: Phase, advance: bool)
    requires j.Ok() && Related(j, answer, Before(k), s, t)
    ensures Simulated(j, answer, moves, Before(k), s, t, ph, advance)
  {
    if k == AwaitPiece(j.style) {
      AskStep(j, answer, s, t);
      ph, advance := if Step(j.body, s).status.Suspended? then Waiting else Stopped, true;
    } else {
      ClearingStep(j, answer, k, s, t);
      ph, advance := Before(k + 1), false;
    }
  }

  /** Moved to another process: a fresh coroutine with default arguments and the saved state. */
  lemma MoveStep(j: Job, answer: nat -> int, s: Config, t: Config)
    requires j.Ok() && Related(j, answer, Waiting, s, t)
    ensures Related(j, answer, Rebuilding, s, Hop(j.Program(), j.params, t, [answer(t.asked)]))
  {
    PieceResume(j, s, t, 0);
    assert Supplied([answer(t.asked)]) == [Result(answer(t.asked))];
    assert |Defaults(j.params)| == |Names(Defaults(j.params))|;
  }

  /** Delivering the same result to the same locals keeps the two runs together. */
  lemma DeliverBoth(j: Job, answer: nat -> int, s: Config, t: Config, r: int)
    requires j.Ok() && Sound(j.body, j.params, s) && AtStage(j, s)
    requires s.trace == t.trace && s.asked == t.asked && s.env == t.env && Accounted(j, t, [])
    ensures
      var s' := Resume(s, r);
      Related(j, answer, if s'.status.Running? then Aligned else Stopped, s',
              Deliver(t, s.stack.code.head.to, r, Following(j, s)))
  {
    SoundDeliver(j.body, j.params, s, r);
  }

  lemma WaitingStep(j: Job, answer: nat -> int, moves: nat -> bool, s: Config, t: Config)
    returns (ph: Phase, advance: bool)
    requires j.Ok() && Related(j, answer, Waiting, s, t)
    ensures Simulated(j, answer, moves, Waiting, s, t, ph, advance)
  {
    PieceResume(j, s, t, answer(t.asked));
    if moves(t.asked) {
      MoveStep(j, answer, s, t);
      ph, advance := Rebuilding, false;
    } else if j.style.Emitted? {
      VoidHere(j, s);
      ph, advance := After(2), false;
    } else {
      DeliverBoth(j, answer, s, t, answer(s.asked));
      ph, advance := if Resume(s, answer(s.asked)).status.Running? then Aligned else Stopped, true;
    }
  }

  /** In a new process, dispatch jumps to the label of the saved stage; the locals have the right
      names there, whatever they hold. */
  lemma RebuildingStep(j: Job, answer: nat -> int, s: Config, t: Config)
    requires j.Ok() && Related(j, answer, Rebuilding, s, t)
    ensures Related(j, answer, After(2), s, Step(j.Program(), t))
  {
    DispatchStep(j, s, t);
  }

  /** The table lookup and the computed goto behind it. */
  lemma DispatchStep(j: Job, s: Config, t: Config)
    requires j.Ok() && Sound(j.body, j.params, s) && AtAwait(s) && Synced(j, s, t.prom.state)
    requires t.status.Running? && t.stack == Push(j.Program(), |j.params|, Bottom) && t.env == Defaults(j.params)
    ensures
      var t' := Step(j.Program(), t);
      && t' == t.(stack := Piece(j, s, 2), env := JumpedInto(t.env, Names(s.env)))
      && Names(t'.env) == Names(s.env)
  {
    StageOfReached(j, s);
    var n, names := StageHere(j, s), Names(s.env);
    StateRoundTrip(n, LookupAll(s.env, j.ss[n - 1].vars).value);
    assert StageOf(t.prom.state) == n;
    assert Names(t.env) == j.params && |t.env| == |Names(t.env)|;
    assert j.Program().Then? && j.Program().head == Dispatch(Table(|j.ss|));
    hide *;
    StepJump(j.Program(), t, Table(|j.ss|), n, Point(Piece(j, s, 2), names));
    FindExtends(j.Program(), |j.params|, j.params, Bottom, LabelNo(Table(|j.ss|)[n]));
    JumpedIntoSlots(t.env, names);
  }

  /** A dispatch on a saved stage jumps to the point found for the table entry. */
  lemma StepJump(prog: Code, t: Config, table: seq<nat>, st: nat, p: Point)
    requires t.status.Running? && t.stack.Push? && t.stack.code == prog && prog.Then? && prog.head == Dispatch(table)
    requires StageOf(t.prom.state) == st && 0 < st < |table|
    requires Find(prog, |t.env|, Names(t.env), Bottom, LabelNo(table[st])) == Some(p)
    ensures Step(prog, t) == t.(stack := p.stack, env := JumpedInto(t.env, p.names))
  {
    hide Find, Names, JumpedInto, StageOf;
  }

  /** Behind the label, the load makes the locals equal to the original's. */
  lemma LoadStep(j: Job, s: Config, t: Config)
    requires j.Ok() && Sound(j.body, j.params, s) && Synced(j, s, t.prom.state) && AtAwait(s)
    requires Names(s.env) == Names(t.env) && t.prom.aw != []
    requires t.status.Running? && t.stack == Piece(j, s, 3)
    ensures Step(j.Program(), t) == t.(stack := Piece(j, s, 4), env := s.env)
  {
    PieceStep(j, s, t, 3);
    StageOfReached(j, s);
    var n := StageHere(j, s);
    var vars := j.ss[n - 1].vars;
    StateRoundTrip(n, LookupAll(s.env, vars).value);
    LoadRestores(s.env, t.env, vars);
    hide Sound, LookupAll, UpdateAll, Encode, Home, Find, Names, Initialized, Lists;
  }

  /** In the emitted form the await at hand discards its result. */
  lemma VoidHere(j: Job, s: Config)
    requires j.Ok() && Sound(j.body, j.params, s) && AtAwait(s) && j.style.Emitted?
    ensures s.stack.code.head.to.Discard?
  {
    var id := s.stack.code.head.at;
    assert IsUserStmt(s.stack.code.head);
    assert id in Ids(s.stack.code);
    assert Home(j.body, j.params, id) == Some(Point(s.stack, Names(s.env)));
    FoundIsVoid(j.body, |j.params|, j.params, Bottom, id);
  }

  lemma {:induction false} FoundIsVoid(code: Code, mark: nat, names: seq<string>, below: Stack, id: nat)
    requires IsUser(code) && Void(code)
    ensures
      var p := Find(code, mark, names, below, AwaitAt(id));
      p.Some? ==> (IsAwaitPoint(p.value) && p.value.stack.code.head.to.Discard?)
    decreases code
  {
    match code
    case End =>
    case Then(s, rest) =>
      assert IsUserStmt(s) && VoidStmt(s);
      FoundIsVoid(rest, mark, Declared(names, s), below, id);
      match s
      case Block(_, b) => FoundIsVoid(b, |names|, names, Push(rest, mark, below), id);
      case If(_, _, t, _, e) =>
        FoundIsVoid(t, |names|, names, Push(rest, mark, below), id);
        FoundIsVoid(e, |names|, names, Push(rest, mark, below), id);
      case While(_, _, b) => FoundIsVoid(b, |names|, names, Push(code, mark, below), id);
      case _ =>
  }

  lemma AfterLoad(j: Job, answer: nat -> int, moves: nat -> bool, s: Config, t: Config)
    returns (ph: Phase, advance: bool)
    requires j.Ok() && Related(j, answer, After(3), s, t)
    ensures Simulated(j, answer, moves, After(3), s, t, ph, advance)
  {
    LoadStep(j, s, t);
    if j.style.Emitted? {
      VoidHere(j, s);
      FollowingEmitted(j, s);
      DeliverBoth(j, answer, s, t.(env := s.env), answer(s.asked));
      ph, advance := Aligned, true;
    } else {
      ph, advance := After(4), false;
    }
  }

  /** The supplied result stands in for the await, exactly once. */
  lemma AfterTake(j: Job, answer: nat -> int, moves: nat -> bool, s: Config, t: Config)
    returns (ph: Phase, advance: bool)
    requires j.Ok() && Related(j, answer, After(4), s, t)
    ensures Simulated(j, answer, moves, After(4), s, t, ph, advance)
  {
    PieceStep(j, s, t, 4);
    var t1 := t.(taken := t.taken + [s.stack.code.head.at]);
    DeliverBoth(j, answer, s, t1, answer(s.asked));
    ph, advance := if Resume(s, answer(s.asked)).status.Running? then Aligned else Stopped, true;
  }

  lemma AfterStep(j: Job, answer: nat -> int, moves: nat -> bool, k: nat, s: Config, t: Config)
    returns (ph: Phase, advance: bool)
    requires j.Ok() && Related(j, answer, After(k), s, t)
    ensures Simulated(j, answer, moves, After(k), s, t, ph, advance)
  {
    if k == 2 {
      PieceStep(j, s, t, k);
      ph, advance := After(3), false;
    } else if k == 3 {
      ph, advance := AfterLoad(j, answer, moves, s, t);
    } else {
      ph, advance := AfterTake(j, answer, moves, s, t);
    }
  }

  /** One move of the rewritten coroutine is matched by the original. */
  lemma SimulationStep(j: Job, answer: nat -> int, moves: nat -> bool, ph: Phase, s: Config, t: Config)
    returns (ph': Phase, advance: bool)
    requires j.Ok() && Related(j, answer, ph, s, t)
    ensures Simulated(j, answer, moves, ph, s, t, ph', advance)
  {
    match ph
    case Booting(k) => ph' := BootingStep(j, answer, moves, k, s, t); advance := false;
    case Aligned => ph', advance := AlignedStep(j, answer, moves, s, t);
    case Stopped => ph', advance := Stopped, true;
    case Before(k) => ph', advance := BeforeStep(j, answer, moves, k, s, t);
    case Waiting => ph', advance := WaitingStep(j, answer, moves, s, t);
    case After(k) => ph', advance := AfterStep(j, answer, moves, k, s, t);
    case Rebuilding => RebuildingStep(j, answer, s, t); ph', advance := After(2), false;
  }

  function OriginalStart(j: Job, args: seq<int>): Config
    requires |args| == |j.params|
  {
    Started(j.body, Bound(j.params, args), Prom(NoState, []))
  }

  function MigratingStart(j: Job, args: seq<int>): Config
    requires |args| == |j.params|
  {
    Started(j.Program(), Bound(j.params, args), Prom(NoState, []))
  }

  lemma StartRelated(j: Job, answer: nat -> int, args: seq<int>)
    requires j.Ok() && |args| == |j.params|
    ensures Related(j, answer, Booting(0), OriginalStart(j, args), MigratingStart(j, args))
  {
    OnTrackInitially(j.body, j.params);
  }

  /** After `n` moves of the original from `s0` and `m` of the rewritten coroutine from `t0`, the
      two are related, and the original is not left behind. */
  ghost predicate Meets(j: Job, answer: nat -> int, moves: nat -> bool,
                        s0: Config, t0: Config, n: nat, m: nat, ph: Phase) {
    var s, t := j.Original(answer).Run(s0, n), j.Migrating(answer, moves).Run(t0, m);
    Related(j, answer, ph, s, t) && n <= m && m + Lag(ph, s) <= 8 * n + 7
  }

  lemma MeetsNext(j: Job, answer: nat -> int, moves: nat -> bool,
                  s0: Config, t0: Config, n: nat, m: nat, ph: Phase)
    returns (n': nat, ph': Phase)
    requires j.Ok() && Meets(j, answer, moves, s0, t0, n, m, ph)
    ensures Meets(j, answer, moves, s0, t0, n', m + 1, ph')
  {
    hide Related, Lag, World.Run, World.Next;
    var s, t := j.Original(answer).Run(s0, n), j.Migrating(answer, moves).Run(t0, m);
    var advance;
    ph', advance := SimulationStep(j, answer, moves, ph, s, t);
    n' := if advance then n + 1 else n;
    RunNext(j.Migrating(answer, moves), t0, m);
    RunNext(j.Original(answer), s0, n);
  }

  lemma RunNext(w: World, c: Config, m: nat)
    ensures w.Run(c, m + 1) == w.Next(w.Run(c, m))
  {
    hide World.Next;
  }

  /** After any number of moves of the rewritten coroutine, however often it changed process, the
      original is in a related configuration after at least an eighth as many. */
  lemma {:induction false} KeepsRelated(j: Job, answer: nat -> int, moves: nat -> bool,
                                      ph0: Phase, s0: Config, t0: Config, m: nat)
    returns (n: nat, ph: Phase)
    requires j.Ok() && Related(j, answer, ph0, s0, t0)
    ensures Meets(j, answer, moves, s0, t0, n, m, ph)
    decreases m
  {
    if m == 0 {
      n, ph := 0, ph0;
    } else {
      n, ph := KeepsRelated(j, answer, moves, ph0, s0, t0, m - 1);
      n, ph := MeetsNext(j, answer, moves, s0, t0, n, m - 1, ph);
    }
  }
}
