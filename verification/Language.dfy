/** A block-structured coroutine language with a small-step machine.  The same machine runs
    the code a user writes and the code a rewrite produces: the latter additionally uses the
    statements Dispatch, Save, Resize, Label, Load and Take. */
module Language {
  import opened Wire

  // ----- syntax -----

  datatype Op = Plus | Minus | Times | Less

  datatype Expr = Lit(v: int) | Var(x: string) | Bin(op: Op, l: Expr, r: Expr)

  /** Where the result of an await goes: nowhere, to a new local, whose declaration begins at `decl`,
      or to an existing one. */
  datatype Target = Discard | NewVar(decl: nat, x: string) | Existing(x: string)

  datatype Code = End | Then(head: Stmt, tail: Code)

  /** `at` is the source offset at which a declaration, compound or await begins. */
  datatype Stmt =
    | Decl(at: nat, x: string, e: Expr)
    | Assign(x: string, e: Expr)
    | Emit(e: Expr)
    | Block(at: nat, body: Code)
    | If(c: Expr, at: nat, thn: Code, elsAt: nat, els: Code)
    | While(c: Expr, at: nat, body: Code)
    | Await(at: nat, to: Target, e: Expr)
    | Return(e: Expr)
    // inserted by a rewrite
    | Dispatch(table: seq<nat>)
    | Save(n: nat, vars: seq<string>)
    | Resize
    | Label(n: nat)
    | Load(vars: seq<string>)
    | Take(at: nat, to: Target, e: Expr)

  // ----- locals -----

  /** A frame slot holds a value, or is uninitialized because a jump skipped its declaration. */
  datatype Cell = Junk | Val(v: int)
  datatype Slot = Slot(name: string, cell: Cell)

  /** The locals in scope, outermost first. */
  type Env = seq<Slot>

  function Names(env: Env): (ns: seq<string>)
    ensures |ns| == |env|
    ensures forall i :: 0 <= i < |env| ==> ns[i] == env[i].name
  {
    seq(|env|, i requires 0 <= i < |env| => env[i].name)
  }

  /** Index of the innermost slot named `x`, or -1. */
  function Where(env: Env, x: string): (i: int)
    ensures -1 <= i < |env|
    ensures i >= 0 ==> env[i].name == x
    ensures forall j :: i < j < |env| ==> env[j].name != x
  {
    if env == [] then -1
    else if env[|env| - 1].name == x then |env| - 1
    else Where(env[..|env| - 1], x)
  }

  function Lookup(env: Env, x: string): Option<int> {
    var i := Where(env, x);
    if i >= 0 && env[i].cell.Val? then Some(env[i].cell.v) else None
  }

  function Update(env: Env, x: string, v: int): Option<Env> {
    var i := Where(env, x);
    if i >= 0 then Some(env[i := Slot(x, Val(v))]) else None
  }

  function LookupAll(env: Env, xs: seq<string>): Option<seq<int>> {
    if xs == [] then Some([])
    else
      var v, vs := Lookup(env, xs[0]), LookupAll(env, xs[1..]);
      if v.Some? && vs.Some? then Some([v.value] + vs.value) else None
  }

  function UpdateAll(env: Env, xs: seq<string>, vs: seq<int>): Option<Env>
    decreases |xs|
  {
    if xs == [] then Some(env)
    else if vs == [] then None
    else
      var env' := Update(env, xs[0], vs[0]);
      if env'.Some? then UpdateAll(env'.value, xs[1..], vs[1..]) else None
  }

  function Cut(env: Env, mark: nat): Env {
    if mark <= |env| then env[..mark] else env
  }

  /** Parameters of a coroutine created with default arguments. */
  function Defaults(params: seq<string>): (env: Env)
    ensures Names(env) == params
  {
    var env := seq(|params|, i requires 0 <= i < |params| => Slot(params[i], Val(0)));
    assert Names(env) == params;
    env
  }

  /** Parameters bound to the caller's arguments. */
  function Bound(params: seq<string>, args: seq<int>): (env: Env)
    requires |params| == |args|
    ensures Names(env) == params
    ensures forall i :: 0 <= i < |env| ==> env[i].cell == Val(args[i])
  {
    var env := seq(|params|, i requires 0 <= i < |params| => Slot(params[i], Val(args[i])));
    assert Names(env) == params;
    env
  }

  /** The locals after a jump to a point where `names` are in scope: the slots of the
      declarations jumped over are uninitialized. */
  function JumpedInto(env: Env, names: seq<string>): Env {
    if |env| <= |names| then
      env + seq(|names| - |env|, i requires 0 <= i < |names| - |env| => Slot(names[|env| + i], Junk))
    else env
  }

  lemma JumpedIntoSlots(env: Env, names: seq<string>)
    requires |env| <= |names| && Names(env) == names[..|env|]
    ensures Names(JumpedInto(env, names)) == names
    ensures forall i :: |env| <= i < |names| ==> JumpedInto(env, names)[i] == Slot(names[i], Junk)
  {
    var r := JumpedInto(env, names);
    forall i | 0 <= i < |names|
      ensures Names(r)[i] == names[i] && (i >= |env| ==> r[i] == Slot(names[i], Junk))
    {
      if i < |env| { assert Names(env)[i] == names[..|env|][i]; }
    }
    hide JumpedInto;
  }

  // ----- expressions -----

  function Apply(op: Op, a: int, b: int): int {
    match op
    case Plus => a + b
    case Minus => a - b
    case Times => a * b
    case Less => if a < b then 1 else 0
  }

  /** None when a variable is not in scope or is read while uninitialized. */
  function Eval(e: Expr, env: Env): Option<int> {
    match e
    case Lit(v) => Some(v)
    case Var(x) => Lookup(env, x)
    case Bin(op, l, r) =>
      var a, b := Eval(l, env), Eval(r, env);
      if a.Some? && b.Some? then Some(Apply(op, a.value, b.value)) else None
  }

  // ----- machine -----

  /** Elements of the promise's awaiter vector: the awaiter of a suspended await, or a
      result supplied for it by another process. */
  datatype Elem = Awaiter(v: int) | Result(v: int)
  datatype Prom = Prom(state: Blob, aw: seq<Elem>)

  /** The awaiter is stored only if the vector is empty. */
  function Transform(aw: seq<Elem>, v: int): seq<Elem> {
    if aw == [] then [Awaiter(v)] else aw
  }

  /** A load does nothing while the vector is empty. */
  function LoadInto(prom: Prom, env: Env, vars: seq<string>): Option<Env> {
    if prom.aw == [] then Some(env) else UpdateAll(env, vars, ValuesOf(prom.state))
  }

  datatype Event = Out(v: int) | Awaiting(v: int)

  /** Code left to run in each open compound, innermost first; `mark` is the number of
      locals in scope when the compound was entered. */
  datatype Stack = Bottom | Push(code: Code, mark: nat, below: Stack)

  datatype Status = Running | Suspended | Done(ret: Option<int>) | Fault

  /** `asked` counts the suspensions so far, `hopped` lists the awaits at which the coroutine
      was continued elsewhere, and `taken` the awaits bypassed by a supplied result. */
  datatype Config = Config(
    status: Status, stack: Stack, env: Env, prom: Prom,
    trace: seq<Event>, asked: nat, hopped: seq<nat>, taken: seq<nat>)

  predicate Matches(s: Stmt, p: Place) {
    match p
    case AwaitAt(id) => (s.Await? || s.Take?) && s.at == id
    case LabelNo(n) => s.Label? && s.n == n
  }

  datatype Place = AwaitAt(id: nat) | LabelNo(n: nat)

  /** A place in a program: what remains to run from there on, and the names in scope. */
  datatype Point = Point(stack: Stack, names: seq<string>)

  /** Names in scope after a statement, given those before it. */
  function Declared(names: seq<string>, s: Stmt): seq<string> {
    match s
    case Decl(_, x, _) => names + [x]
    case Await(_, NewVar(_, x), _) => names + [x]
    case Take(_, NewVar(_, x), _) => names + [x]
    case _ => names
  }

  /** The continuation of a place inside `code`, when `code` is the rest of a compound entered
      with `mark` locals, `names` are in scope and `below` runs afterwards.  After a loop body
      the loop head runs again. */
  function Find(code: Code, mark: nat, names: seq<string>, below: Stack, p: Place): Option<Point>
    decreases code
  {
    match code
    case End => None
    case Then(s, rest) =>
      if Matches(s, p) then Some(Point(Push(code, mark, below), names))
      else
        var later := Find(rest, mark, Declared(names, s), below, p);
        match s
        case Block(_, b) => OrElse(Find(b, |names|, names, Push(rest, mark, below), p), later)
        case If(_, _, t, _, e) =>
          OrElse(Find(t, |names|, names, Push(rest, mark, below), p),
                 OrElse(Find(e, |names|, names, Push(rest, mark, below), p), later))
        case While(_, _, b) => OrElse(Find(b, |names|, names, Push(code, mark, below), p), later)
        case _ => later
  }

  /** Computed goto: control continues at the label, inside all the compounds around it. */
  function Jump(body: Code, c: Config, n: nat): Config {
    match Find(body, |c.env|, Names(c.env), Bottom, LabelNo(n))
    case Some(Point(stack, names)) => c.(stack := stack, env := JumpedInto(c.env, names))
    case None => c.(status := Fault)
  }

  /** Store an await's result and continue with `rest`. */
  function Deliver(c: Config, to: Target, r: int, next: Stack): Config {
    match to
    case Discard => c.(status := Running, stack := next)
    case NewVar(_, x) => c.(status := Running, stack := next, env := c.env + [Slot(x, Val(r))])
    case Existing(x) =>
      match Update(c.env, x, r)
      case Some(env') => c.(status := Running, stack := next, env := env')
      case None => c.(status := Fault)
  }

  function Ask(c: Config, e: Expr): Config {
    match Eval(e, c.env)
    case Some(v) =>
      c.(status := Suspended, trace := c.trace + [Awaiting(v)], asked := c.asked + 1,
         prom := c.prom.(aw := Transform(c.prom.aw, v)))
    case None => c.(status := Fault)
  }

  /** Execute statement `s`, followed by `next`. */
  function Exec(body: Code, c: Config, s: Stmt, next: Stack): Config
    requires c.stack.Push?
  {
    match s
    case Decl(_, x, e) =>
      (match Eval(e, c.env)
       case Some(v) => c.(stack := next, env := c.env + [Slot(x, Val(v))])
       case None => c.(status := Fault))
    case Assign(x, e) =>
      var v := Eval(e, c.env);
      var env' := if v.Some? then Update(c.env, x, v.value) else None;
      if env'.Some? then c.(stack := next, env := env'.value) else c.(status := Fault)
    case Emit(e) =>
      (match Eval(e, c.env)
       case Some(v) => c.(stack := next, trace := c.trace + [Out(v)])
       case None => c.(status := Fault))
    case Block(_, b) => c.(stack := Push(b, |c.env|, next))
    case If(cond, _, t, _, e) =>
      (match Eval(cond, c.env)
       case Some(v) => c.(stack := Push(if v != 0 then t else e, |c.env|, next))
       case None => c.(status := Fault))
    case While(cond, _, b) =>
      (match Eval(cond, c.env)
       case Some(v) => c.(stack := if v != 0 then Push(b, |c.env|, c.stack) else next)
       case None => c.(status := Fault))
    case Await(_, _, e) => Ask(c, e)
    case Return(e) =>
      (match Eval(e, c.env)
       case Some(v) => c.(status := Done(Some(v)))
       case None => c.(status := Fault))
    case Dispatch(table) =>
      var st := StageOf(c.prom.state);
      if st == 0 then c.(stack := next)
      else if st < |table| then Jump(body, c, table[st])
      else c.(status := Fault)
    case Save(n, vars) =>
      (match LookupAll(c.env, vars)
       case Some(vs) => c.(stack := next, prom := c.prom.(state := Encode(U16(n), vs)))
       case None => c.(status := Fault))
    case Resize => c.(stack := next, prom := c.prom.(aw := []))
    case Label(_) => c.(stack := next)
    case Load(vars) =>
      (match LoadInto(c.prom, c.env, vars)
       case Some(env') => c.(stack := next, env := env')
       case None => c.(status := Fault))
    case Take(id, to, e) =>
      if c.prom.aw == [] then Ask(c, e)
      else if c.prom.aw[0].Result? then
        Deliver(c.(taken := c.taken + [id]), to, c.prom.aw[0].v, next)
      else c.(status := Fault)
  }

  /** One step of a running coroutine. */
  function Step(body: Code, c: Config): Config
    requires c.status.Running?
  {
    match c.stack
    case Bottom => c.(status := Done(None))
    case Push(End, mark, below) => c.(stack := below, env := Cut(c.env, mark))
    case Push(Then(s, rest), mark, below) => Exec(body, c, s, Push(rest, mark, below))
  }

  /** The await at which a coroutine is suspended. */
  predicate AtAwait(c: Config) {
    c.stack.Push? && c.stack.code.Then? && (c.stack.code.head.Await? || c.stack.code.head.Take?)
  }

  /** Resume in place: the awaiter's own result `r` is delivered. */
  function Resume(c: Config, r: int): Config {
    if AtAwait(c) then
      Deliver(c, c.stack.code.head.to, r, Push(c.stack.code.tail, c.stack.mark, c.stack.below))
    else c.(status := Fault)
  }

  /** A coroutine created with the given locals and started. */
  function Started(body: Code, env: Env, prom: Prom): Config {
    Config(Running, Push(body, |env|, Bottom), env, prom, [], 0, [], [])
  }

  /** Results supplied with a serialized state, in order. */
  function Supplied(rs: seq<int>): (aw: seq<Elem>)
    ensures |aw| == |rs|
    ensures forall i :: 0 <= i < |rs| ==> aw[i] == Result(rs[i])
  {
    seq(|rs|, i requires 0 <= i < |rs| => Result(rs[i]))
  }

  /** A fresh coroutine, with default arguments, continuing from a serialized state. */
  function ContinueFrom(body: Code, params: seq<string>, state: Blob, rs: seq<int>): Config {
    Started(body, Defaults(params), Prom(state, Supplied(rs)))
  }

  /** The coroutine serialized at its suspension and continued in another process, supplying
      the results `rs`.  The history is carried along only to be compared. */
  function Hop(body: Code, params: seq<string>, c: Config, rs: seq<int>): Config {
    ContinueFrom(body, params, c.prom.state, rs).(
      trace := c.trace, asked := c.asked, taken := c.taken,
      hopped := if AtAwait(c) then c.hopped + [c.stack.code.head.at] else c.hopped)
  }

  /** The surroundings of a run: the result of each await in turn, and whether the coroutine
      is moved to another process at that suspension instead of being resumed in place. */
  datatype World = World(body: Code, params: seq<string>, answer: nat -> int, moves: nat -> bool)
  {
    function Next(c: Config): Config {
      match c.status
      case Running => Step(body, c)
      case Suspended =>
        if moves(c.asked) then Hop(body, params, c, [answer(c.asked)]) else Resume(c, answer(c.asked))
      case _ => c
    }

    function Run(c: Config, m: nat): Config {
      if m == 0 then c else Next(Run(c, m - 1))
    }
  }
}
