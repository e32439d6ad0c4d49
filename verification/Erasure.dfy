/** What a program does does not depend on its offsets: programs that are the same but for offsets
    show the same and end the same. */
module Erasure {
  import opened Wire
  import opened Language
  import opened Relabel
  import opened Parse

  function EraseStack(stack: Stack): Stack {
    match stack
    case Bottom => Bottom
    case Push(code, mark, below) => Push(Erase(code), mark, EraseStack(below))
  }

  function Zeros(n: nat): seq<nat> {
    if n == 0 then [] else Zeros(n - 1) + [0]
  }

  function EraseConfig(c: Config): Config {
    c.(stack := EraseStack(c.stack), hopped := Zeros(|c.hopped|), taken := Zeros(|c.taken|))
  }

  function ErasePoint(p: Option<Point>): Option<Point> {
    match p
    case Some(Point(stack, names)) => Some(Point(EraseStack(stack), names))
    case None => None
  }

  /** A label stands in the same place. */
  lemma {:induction false} EraseFind(code: Code, mark: nat, names: seq<string>, below: Stack, n: nat)
    ensures Find(Erase(code), mark, names, EraseStack(below), LabelNo(n))
         == ErasePoint(Find(code, mark, names, below, LabelNo(n)))
    decreases code
  {
    match code
    case End =>
    case Then(s, rest) =>
      EraseFind(rest, mark, Declared(names, s), below, n);
      assert Declared(names, NewStmt(s, Zero)) == Declared(names, s);
      match s
      case Block(_, b) => EraseFind(b, |names|, names, Push(rest, mark, below), n);
      case If(_, _, t, _, e) =>
        EraseFind(t, |names|, names, Push(rest, mark, below), n);
        EraseFind(e, |names|, names, Push(rest, mark, below), n);
      case While(_, _, b) => EraseFind(b, |names|, names, Push(code, mark, below), n);
      case _ =>
  }

  lemma EraseJump(body: Code, c: Config, n: nat)
    ensures Jump(Erase(body), EraseConfig(c), n) == EraseConfig(Jump(body, c, n))
  {
    EraseFind(body, |c.env|, Names(c.env), Bottom, n);
    hide Find, NewCode, Zeros;
  }

  lemma EraseDeliver(c: Config, to: Target, r: int, next: Stack)
    ensures Deliver(EraseConfig(c), NewTarget(to), r, EraseStack(next)) == EraseConfig(Deliver(c, to, r, next))
  {
    hide NewCode, Zeros, EraseStack;
  }

  lemma EraseExec(body: Code, c: Config, s: Stmt, next: Stack)
    requires next.Push? && c.stack == Push(Then(s, next.code), next.mark, next.below)
    ensures Exec(Erase(body), EraseConfig(c), NewStmt(s, Zero), EraseStack(next)) == EraseConfig(Exec(body, c, s, next))
  {
    var next' := EraseStack(next);
    match s
    case Dispatch(table) =>
      var st := StageOf(c.prom.state);
      if 0 < st < |table| { EraseJump(body, c, table[st]); }
      hide Jump, NewCode, Zeros;
    case Take(id, to, e) =>
      if c.prom.aw != [] && c.prom.aw[0].Result? {
        var t := c.(taken := c.taken + [id]);
        assert EraseConfig(t) == EraseConfig(c).(taken := EraseConfig(c).taken + [0]);
        EraseDeliver(t, to, c.prom.aw[0].v, next);
      }
      hide Deliver, NewCode, Zeros;
    case _ => EraseOther(body, c, s, next);
  }

  lemma EraseOther(body: Code, c: Config, s: Stmt, next: Stack)
    requires next.Push? && c.stack == Push(Then(s, next.code), next.mark, next.below) && !s.Dispatch? && !s.Take?
    ensures Exec(Erase(body), EraseConfig(c), NewStmt(s, Zero), EraseStack(next)) == EraseConfig(Exec(body, c, s, next))
  {
    hide Zeros, Jump, Deliver, LoadInto, LookupAll, Eval, Update;
  }

  lemma EraseStep(body: Code, c: Config)
    requires c.status.Running?
    ensures Step(Erase(body), EraseConfig(c)) == EraseConfig(Step(body, c))
  {
    match c.stack
    case Push(Then(s, rest), mark, below) => EraseExec(body, c, s, Push(rest, mark, below));
    case _ =>
  }

  /** The pending code, one statement taken off. */
  lemma EraseHead(c: Config, s: Stmt, rest: Code, mark: nat, below: Stack)
    requires c.stack == Push(Then(s, rest), mark, below)
    ensures EraseConfig(c).stack == Push(Then(NewStmt(s, Zero), Erase(rest)), mark, EraseStack(below))
  {
  }

  lemma EraseResume(c: Config, r: int)
    ensures Resume(EraseConfig(c), r) == EraseConfig(Resume(c, r))
  {
    if c.stack.Push? && c.stack.code.Then? {
      var Push(Then(s, rest), mark, below) := c.stack;
      EraseHead(c, s, rest, mark, below);
      assert EraseStack(Push(rest, mark, below)) == Push(Erase(rest), mark, EraseStack(below));
      if s.Await? || s.Take? {
        EraseDeliver(c, s.to, r, Push(rest, mark, below));
      }
      hide Deliver, Zeros, EraseStack, NewCode;
    }
  }

  lemma EraseHop(body: Code, params: seq<string>, c: Config, rs: seq<int>)
    ensures Hop(Erase(body), params, EraseConfig(c), rs) == EraseConfig(Hop(body, params, c, rs))
  {
    if c.stack.Push? && c.stack.code.Then? {
      EraseHead(c, c.stack.code.head, c.stack.code.tail, c.stack.mark, c.stack.below);
    }
    assert EraseStack(Push(body, |Defaults(params)|, Bottom)) == Push(Erase(body), |Defaults(params)|, Bottom);
    assert AtAwait(c) ==> Zeros(|c.hopped| + 1) == Zeros(|c.hopped|) + [0];
    assert Zeros(0) == [];
    hide NewCode, Zeros, EraseStack;
  }

  /** A run of the code without its offsets. */
  function Erased(w: World): World {
    w.(body := Erase(w.body))
  }

  lemma {:induction false} EraseRun(w: World, c: Config, m: nat)
    ensures Erased(w).Run(EraseConfig(c), m) == EraseConfig(w.Run(c, m))
  {
    hide World.Next, EraseConfig, NewCode;
    if m > 0 {
      EraseRun(w, c, m - 1);
      EraseNext(w, w.Run(c, m - 1));
    }
  }

  lemma EraseNext(w: World, c: Config)
    ensures Erased(w).Next(EraseConfig(c)) == EraseConfig(w.Next(c))
  {
    hide Step, Resume, Hop;
    match c.status
    case Running => EraseStep(w.body, c);
    case Suspended =>
      EraseHop(w.body, w.params, c, [w.answer(c.asked)]);
      EraseResume(c, w.answer(c.asked));
    case _ =>
  }
}
