/** Program points of user code.  At every moment of a run, what remains to run is a static
    continuation of the program, and the locals in scope are the ones declared on the way. */
module Points {
  import opened Wire
  import opened Language

  /** Code as a user writes it: none of the inserted statements. */
  predicate IsUserStmt(s: Stmt) {
    match s
    case Block(_, b) => IsUser(b)
    case If(_, _, t, _, e) => IsUser(t) && IsUser(e)
    case While(_, _, b) => IsUser(b)
    case Dispatch(_) => false
    case Save(_, _) => false
    case Resize => false
    case Label(_) => false
    case Load(_) => false
    case Take(_, _, _) => false
    case _ => true
  }

  predicate IsUser(code: Code) {
    match code
    case End => true
    case Then(s, rest) => IsUserStmt(s) && IsUser(rest)
  }

  /** The awaits of a piece of code. */
  function StmtIds(s: Stmt): set<nat> {
    match s
    case Block(_, b) => Ids(b)
    case If(_, _, t, _, e) => Ids(t) + Ids(e)
    case While(_, _, b) => Ids(b)
    case Await(id, _, _) => {id}
    case _ => {}
  }

  function Ids(code: Code): set<nat> {
    match code
    case End => {}
    case Then(s, rest) => StmtIds(s) + Ids(rest)
  }

  /** No two awaits have the same identity. */
  predicate DistinctStmt(s: Stmt) {
    match s
    case Block(_, b) => Distinct(b)
    case If(_, _, t, _, e) => Distinct(t) && Distinct(e) && Ids(t) !! Ids(e)
    case While(_, _, b) => Distinct(b)
    case _ => true
  }

  predicate Distinct(code: Code) {
    match code
    case End => true
    case Then(s, rest) => DistinctStmt(s) && Distinct(rest) && StmtIds(s) !! Ids(rest)
  }

  /** No declaration reuses a name that is in scope. */
  predicate UnshadowedStmt(s: Stmt, names: seq<string>) {
    match s
    case Decl(_, x, _) => x !in names
    case Await(_, NewVar(_, x), _) => x !in names
    case Block(_, b) => Unshadowed(b, names)
    case If(_, _, t, _, e) => Unshadowed(t, names) && Unshadowed(e, names)
    case While(_, _, b) => Unshadowed(b, names)
    case _ => true
  }

  predicate Unshadowed(code: Code, names: seq<string>) {
    match code
    case End => true
    case Then(s, rest) => UnshadowedStmt(s, names) && Unshadowed(rest, Declared(names, s))
  }

  predicate NoDup(names: seq<string>) {
    forall i, j :: 0 <= i < j < |names| ==> names[i] != names[j]
  }

  lemma {:induction false} FindIff(code: Code, mark: nat, names: seq<string>, below: Stack, id: nat)
    requires IsUser(code)
    ensures Find(code, mark, names, below, AwaitAt(id)).Some? <==> id in Ids(code)
    decreases code
  {
    match code
    case End =>
    case Then(s, rest) =>
      FindIff(rest, mark, Declared(names, s), below, id);
      match s
      case Block(_, b) => FindIff(b, |names|, names, Push(rest, mark, below), id);
      case If(_, _, t, _, e) =>
        FindIff(t, |names|, names, Push(rest, mark, below), id);
        FindIff(e, |names|, names, Push(rest, mark, below), id);
      case While(_, _, b) => FindIff(b, |names|, names, Push(code, mark, below), id);
      case _ =>
  }

  /** The point of await `id` in a whole body. */
  function Home(body: Code, params: seq<string>, id: nat): Option<Point> {
    Find(body, |params|, params, Bottom, AwaitAt(id))
  }

  lemma DeclaredExtends(names: seq<string>, s: Stmt, more: seq<string>)
    requires Declared(names, s) <= more
    ensures names <= more
  {
  }

  /** The names in scope at a place extend the names in scope on entry. */
  lemma {:induction false} FindExtends(code: Code, mark: nat, names: seq<string>, below: Stack, p: Place)
    ensures var r := Find(code, mark, names, below, p); r.Some? ==> names <= r.value.names
    decreases code
  {
    match code
    case End =>
    case Then(s, rest) =>
      var later := Find(rest, mark, Declared(names, s), below, p);
      FindExtends(rest, mark, Declared(names, s), below, p);
      if later.Some? { DeclaredExtends(names, s, later.value.names); }
      hide Declared;
      match s
      case Block(_, b) => FindExtends(b, |names|, names, Push(rest, mark, below), p);
      case If(_, _, t, _, e) =>
        FindExtends(t, |names|, names, Push(rest, mark, below), p);
        FindExtends(e, |names|, names, Push(rest, mark, below), p);
      case While(_, _, b) => FindExtends(b, |names|, names, Push(code, mark, below), p);
      case _ =>
  }

  /** The pending code and the names in scope agree with the program text: the continuation of
      every await still ahead is its continuation in the whole body. */
  ghost predicate OnTrack(body: Code, params: seq<string>, stack: Stack, names: seq<string>) {
    match stack
    case Bottom => true
    case Push(code, mark, below) =>
      && mark <= |names|
      && IsUser(code) && Distinct(code) && Unshadowed(code, names)
      && (forall id :: id in Ids(code) ==>
            Find(code, mark, names, below, AwaitAt(id)) == Home(body, params, id))
      && OnTrack(body, params, below, names[..mark])
  }

  lemma OnTrackInitially(body: Code, params: seq<string>)
    requires IsUser(body) && Distinct(body) && Unshadowed(body, params)
    ensures OnTrack(body, params, Push(body, |params|, Bottom), params)
  {
    assert params[..|params|] == params;
  }

  /** Leaving the head statement keeps the rest on track. */
  lemma OnTrackNext(body: Code, params: seq<string>, s: Stmt, rest: Code, mark: nat, below: Stack, names: seq<string>)
    requires OnTrack(body, params, Push(Then(s, rest), mark, below), names)
    ensures OnTrack(body, params, Push(rest, mark, below), Declared(names, s))
  {
    assert IsUserStmt(s) && DistinctStmt(s) && UnshadowedStmt(s, names);
    var names' := Declared(names, s);
    assert names'[..mark] == names[..mark];
    var code := Then(s, rest);
    forall id | id in Ids(rest)
      ensures Find(rest, mark, names', below, AwaitAt(id)) == Home(body, params, id)
    {
      assert id in Ids(code) && id !in StmtIds(s);
      match s
      case Block(_, b) => FindIff(b, |names|, names, Push(rest, mark, below), id);
      case If(_, _, t, _, e) =>
        FindIff(t, |names|, names, Push(rest, mark, below), id);
        FindIff(e, |names|, names, Push(rest, mark, below), id);
      case While(_, _, b) => FindIff(b, |names|, names, Push(code, mark, below), id);
      case _ =>
    }
  }

  /** Entering a compound of the head statement keeps everything on track. */
  lemma OnTrackEnter(body: Code, params: seq<string>, s: Stmt, rest: Code, mark: nat, below: Stack,
                     names: seq<string>, inner: Code)
    requires OnTrack(body, params, Push(Then(s, rest), mark, below), names)
    requires (s.Block? && inner == s.body) || (s.If? && inner in {s.thn, s.els}) || (s.While? && inner == s.body)
    ensures
      var after := if s.While? then Then(s, rest) else rest;
      OnTrack(body, params, Push(inner, |names|, Push(after, mark, below)), names)
  {
    assert IsUserStmt(s) && DistinctStmt(s) && UnshadowedStmt(s, names);
    OnTrackNext(body, params, s, rest, mark, below, names);
    assert names[..|names|] == names;
    var code := Then(s, rest);
    var after := if s.While? then code else rest;
    forall id | id in Ids(inner)
      ensures Find(inner, |names|, names, Push(after, mark, below), AwaitAt(id)) == Home(body, params, id)
    {
      assert id in Ids(code);
      FindIff(inner, |names|, names, Push(after, mark, below), id);
      if s.If? {
        FindIff(s.thn, |names|, names, Push(rest, mark, below), id);
      }
    }
  }

  /** Every local in scope holds a value. */
  predicate Initialized(env: Env) {
    forall i :: 0 <= i < |env| ==> env[i].cell.Val?
  }

  /** The invariant of runs of user code. */
  ghost predicate Sound(body: Code, params: seq<string>, c: Config) {
    && OnTrack(body, params, c.stack, Names(c.env))
    && NoDup(Names(c.env))
    && Initialized(c.env)
    && (c.status.Suspended? ==> AtAwait(c))
  }

  lemma NamesUpdate(env: Env, x: string, v: int)
    requires Update(env, x, v).Some?
    ensures Names(Update(env, x, v).value) == Names(env)
  {
  }

  lemma SoundDeliver(body: Code, params: seq<string>, c: Config, r: int)
    requires Sound(body, params, c) && AtAwait(c)
    ensures Sound(body, params, Resume(c, r))
  {
    var Push(Then(s, rest), mark, below) := c.stack;
    assert IsUserStmt(s) && UnshadowedStmt(s, Names(c.env));
    OnTrackNext(body, params, s, rest, mark, below, Names(c.env));
    match s.to
    case Discard =>
    case NewVar(_, x) =>
      assert Names(c.env + [Slot(x, Val(r))]) == Names(c.env) + [x];
    case Existing(x) =>
      if Update(c.env, x, r).Some? { NamesUpdate(c.env, x, r); }
  }

  /** Code that is run next is entered with all its locals in scope. */
  lemma SoundCompound(body: Code, params: seq<string>, c: Config, s: Stmt, rest: Code, mark: nat, below: Stack)
    requires Sound(body, params, c) && c.status.Running? && c.stack == Push(Then(s, rest), mark, below)
    requires s.Block? || s.If? || s.While?
    ensures Sound(body, params, Exec(body, c, s, Push(rest, mark, below)))
  {
    var names := Names(c.env);
    hide Find, IsUser, Distinct, Unshadowed, Names, Home;
    OnTrackNext(body, params, s, rest, mark, below, names);
    match s
    case Block(_, b) => OnTrackEnter(body, params, s, rest, mark, below, names, b);
    case If(_, _, t, _, e) =>
      OnTrackEnter(body, params, s, rest, mark, below, names, t);
      OnTrackEnter(body, params, s, rest, mark, below, names, e);
    case While(_, _, b) => OnTrackEnter(body, params, s, rest, mark, below, names, b);
  }

  lemma SoundSimple(body: Code, params: seq<string>, c: Config, s: Stmt, rest: Code, mark: nat, below: Stack)
    requires Sound(body, params, c) && c.status.Running? && c.stack == Push(Then(s, rest), mark, below)
    requires !s.Block? && !s.If? && !s.While?
    ensures Sound(body, params, Exec(body, c, s, Push(rest, mark, below)))
  {
    var names := Names(c.env);
    assert IsUserStmt(s) && UnshadowedStmt(s, names);
    OnTrackNext(body, params, s, rest, mark, below, names);
    hide Find, IsUser, Distinct, Unshadowed, Home, OnTrack;
    match s
    case Decl(_, x, e) =>
      if Eval(e, c.env).Some? {
        assert Names(c.env + [Slot(x, Val(Eval(e, c.env).value))]) == names + [x];
      }
    case Assign(x, e) =>
      if Eval(e, c.env).Some? && Update(c.env, x, Eval(e, c.env).value).Some? {
        NamesUpdate(c.env, x, Eval(e, c.env).value);
      }
    case _ =>
  }

  /** Every step of user code keeps the invariant. */
  lemma SoundStep(body: Code, params: seq<string>, c: Config)
    requires Sound(body, params, c) && c.status.Running?
    ensures Sound(body, params, Step(body, c))
  {
    match c.stack
    case Bottom =>
    case Push(End, mark, below) =>
      assert Names(c.env[..mark]) == Names(c.env)[..mark];
    case Push(Then(s, rest), mark, below) =>
      if s.Block? || s.If? || s.While? {
        SoundCompound(body, params, c, s, rest, mark, below);
      } else {
        SoundSimple(body, params, c, s, rest, mark, below);
      }
      hide Exec, Sound;
  }
}
