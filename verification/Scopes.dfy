/** Which variables the tool saves at an await, decided from source offsets and enclosing
    compounds, against the names lexically in scope there. */
module Scopes {
  import opened Wire
  import opened Language
  import opened Points
  import opened Rewrite

  /** A variable declaration: a parameter, or a local.  Offsets may be counted from the body's
      opening brace, so that those of parameters are negative. */
  datatype Variable = Variable(name: string, at: int, isParam: bool)

  /** A coroutine function: where its parameters and body begin, and the body. */
  datatype Fun = Fun(params: seq<Variable>, at: nat, body: Code)

  function NamesOf(vs: seq<Variable>): (ns: seq<string>)
    ensures |ns| == |vs| && forall i :: 0 <= i < |vs| ==> ns[i] == vs[i].name
  {
    seq(|vs|, i requires 0 <= i < |vs| => vs[i].name)
  }

  // ----- offsets -----

  function StmtOffsets(s: Stmt): seq<nat> {
    match s
    case Decl(at, _, _) => [at]
    case Block(at, b) => [at] + Offsets(b)
    case If(_, at, t, elsAt, e) => [at] + Offsets(t) + ([elsAt] + Offsets(e))
    case While(_, at, b) => [at] + Offsets(b)
    case Await(at, NewVar(decl, _), _) => [decl, at]
    case Await(at, _, _) => [at]
    case _ => []
  }

  /** Offsets of declarations, compounds and awaits, in source order. */
  function Offsets(code: Code): seq<nat> {
    match code
    case End => []
    case Then(s, rest) => StmtOffsets(s) + Offsets(rest)
  }

  predicate Rising(os: seq<nat>) {
    forall i, j :: 0 <= i < j < |os| ==> os[i] < os[j]
  }

  /** Source order: parameters, then the body, each thing at its own offset. */
  predicate Located(f: Fun) {
    && Rising([f.at] + Offsets(f.body))
    && (forall i :: 0 <= i < |f.params| ==> f.params[i].isParam && f.params[i].at < f.at)
    && (forall i, j :: 0 <= i < j < |f.params| ==> f.params[i].at < f.params[j].at)
  }

  lemma RisingParts(a: seq<nat>, b: seq<nat>)
    requires Rising(a + b)
    ensures Rising(a) && Rising(b)
    ensures forall x, y :: x in a && y in b ==> x < y
  {
    forall i, j | 0 <= i < j < |a| ensures a[i] < a[j] {
      assert (a + b)[i] == a[i] && (a + b)[j] == a[j];
    }
    forall i, j | 0 <= i < j < |b| ensures b[i] < b[j] {
      assert (a + b)[|a| + i] == b[i] && (a + b)[|a| + j] == b[j];
    }
    forall x, y | x in a && y in b ensures x < y {
      var i :| 0 <= i < |a| && a[i] == x;
      var j :| 0 <= j < |b| && b[j] == y;
      assert (a + b)[i] == x && (a + b)[|a| + j] == y;
    }
  }

  // ----- what the tool asks of the syntax tree -----

  function StmtLocals(s: Stmt): seq<Variable> {
    match s
    case Decl(at, x, _) => [Variable(x, at, false)]
    case Await(_, NewVar(decl, x), _) => [Variable(x, decl, false)]
    case Block(_, b) => Locals(b)
    case If(_, _, t, _, e) => Locals(t) + Locals(e)
    case While(_, _, b) => Locals(b)
    case _ => []
  }

  /** All declarations anywhere in the code. */
  function Locals(code: Code): seq<Variable> {
    match code
    case End => []
    case Then(s, rest) => StmtLocals(s) + Locals(rest)
  }

  function StmtEnclosing(s: Stmt, id: nat): set<nat>
    decreases s, 2
  {
    match s
    case Block(at, b) => Enclosing(at, b, id)
    case If(_, at, t, elsAt, e) => Enclosing(at, t, id) + Enclosing(elsAt, e, id)
    case While(_, at, b) => Enclosing(at, b, id)
    case _ => {}
  }

  function EnclosingTail(code: Code, id: nat): set<nat>
    decreases code, 0
  {
    match code
    case End => {}
    case Then(s, rest) => StmtEnclosing(s, id) + EnclosingTail(rest, id)
  }

  /** Offsets of the compounds that have await `id` as a descendant. */
  function Enclosing(at: nat, code: Code, id: nat): set<nat>
    decreases code, 1
  {
    if id in Ids(code) then {at} + EnclosingTail(code, id) else {}
  }

  function StmtBlockOf(s: Stmt, block: nat, v: int): Option<nat> {
    match s
    case Decl(at, _, _) => if at == v then Some(block) else None
    case Await(_, NewVar(decl, _), _) => if decl == v then Some(block) else None
    case Block(at, b) => BlockOf(b, at, v)
    case If(_, at, t, elsAt, e) => OrElse(BlockOf(t, at, v), BlockOf(e, elsAt, v))
    case While(_, at, b) => BlockOf(b, at, v)
    case _ => None
  }

  /** Offset of the nearest compound around the declaration at offset `v`. */
  function BlockOf(code: Code, block: nat, v: int): Option<nat> {
    match code
    case End => None
    case Then(s, rest) => OrElse(StmtBlockOf(s, block, v), BlockOf(rest, block, v))
  }

  /** The test deciding that variable `v` is saved at await `id`. */
  predicate Saves(f: Fun, v: Variable, id: nat) {
    && v.at < id
    && (v.isParam || match BlockOf(f.body, f.at, v.at)
                     case Some(b) => b in Enclosing(f.at, f.body, id)
                     case None => false)
  }

  /** All variables of a function. */
  function Variables(f: Fun): seq<Variable> {
    f.params + Locals(f.body)
  }

  // ----- lexical scope -----

  function StmtVisible(s: Stmt, id: nat): seq<Variable> {
    match s
    case Decl(at, x, _) => [Variable(x, at, false)]
    case Await(at, NewVar(decl, x), _) => if at == id then [] else [Variable(x, decl, false)]
    case Block(_, b) => if id in Ids(b) then Visible(b, id) else []
    case If(_, _, t, _, e) => if id in Ids(t) then Visible(t, id) else if id in Ids(e) then Visible(e, id) else []
    case While(_, _, b) => if id in Ids(b) then Visible(b, id) else []
    case _ => []
  }

  /** Locals declared before await `id` in the compounds around it. */
  function Visible(code: Code, id: nat): seq<Variable> {
    match code
    case End => []
    case Then(s, rest) => if id in StmtIds(s) then StmtVisible(s, id) else StmtVisible(s, id) + Visible(rest, id)
  }

  function StmtInitializing(s: Stmt, id: nat): seq<Variable> {
    match s
    case Await(at, NewVar(decl, x), _) => if at == id then [Variable(x, decl, false)] else []
    case Block(_, b) => Initializing(b, id)
    case If(_, _, t, _, e) => Initializing(t, id) + Initializing(e, id)
    case While(_, _, b) => Initializing(b, id)
    case _ => []
  }

  /** The local that await `id` initializes, if any: its declaration begins before the await. */
  function Initializing(code: Code, id: nat): seq<Variable> {
    match code
    case End => []
    case Then(s, rest) => StmtInitializing(s, id) + Initializing(rest, id)
  }

  // ----- the tool's test is lexical scope -----

  /** The statement declares a local of the compound it stands in. */
  predicate Declares(s: Stmt) {
    s.Decl? || (s.Await? && s.to.NewVar?)
  }

  /** Everything named by one statement lies at the statement's own offsets. */
  lemma {:induction false} StmtFacts(s: Stmt, block: nat, id: nat, x: int)
    requires IsUserStmt(s)
    ensures forall y :: y in StmtIds(s) ==> y in StmtOffsets(s)
    ensures forall v :: v in StmtLocals(s) ==> v.at in StmtOffsets(s) && !v.isParam
    ensures forall y :: y in StmtEnclosing(s, id) ==> y in StmtOffsets(s)
    ensures id !in StmtIds(s) ==>
      StmtEnclosing(s, id) == {} && StmtInitializing(s, id) == [] && (!Declares(s) ==> StmtVisible(s, id) == [])
    ensures forall v :: v in StmtVisible(s, id) || v in StmtInitializing(s, id) ==> v in StmtLocals(s)
    ensures StmtBlockOf(s, block, x).Some? ==>
      x in StmtOffsets(s) && (StmtBlockOf(s, block, x).value in StmtOffsets(s)
          || (Declares(s) && StmtBlockOf(s, block, x).value == block))
    ensures (exists v :: v in StmtLocals(s) && v.at == x) ==> StmtBlockOf(s, block, x).Some?
    decreases s
  {
    match s
    case Block(at, b) => CodeFacts(b, at, id, x);
    case If(_, at, t, elsAt, e) => CodeFacts(t, at, id, x); CodeFacts(e, elsAt, id, x);
    case While(_, at, b) => CodeFacts(b, at, id, x);
    case _ =>
  }

  lemma {:induction false} CodeFacts(code: Code, block: nat, id: nat, x: int)
    requires IsUser(code)
    ensures forall y :: y in Ids(code) ==> y in Offsets(code)
    ensures forall v :: v in Locals(code) ==> v.at in Offsets(code) && !v.isParam
    ensures forall y :: y in EnclosingTail(code, id) ==> y in Offsets(code)
    ensures id !in Ids(code) ==> EnclosingTail(code, id) == {} && Initializing(code, id) == []
    ensures forall v :: v in Visible(code, id) || v in Initializing(code, id) ==> v in Locals(code)
    ensures BlockOf(code, block, x).Some? ==>
      x in Offsets(code) && (BlockOf(code, block, x).value == block || BlockOf(code, block, x).value in Offsets(code))
    ensures (exists v :: v in Locals(code) && v.at == x) ==> BlockOf(code, block, x).Some?
    decreases code
  {
    match code
    case End =>
    case Then(s, rest) => StmtFacts(s, block, id, x); CodeFacts(rest, block, id, x);
  }

  /** The test, relative to one statement or to the rest of the compound at `block`. */
  ghost predicate StmtChosen(s: Stmt, block: nat, v: Variable, id: nat) {
    v.at < id && StmtBlockOf(s, block, v.at).Some? && StmtBlockOf(s, block, v.at).value in StmtEnclosing(s, id)
  }

  ghost predicate Chosen(code: Code, block: nat, v: Variable, id: nat) {
    v.at < id && BlockOf(code, block, v.at).Some?
    && BlockOf(code, block, v.at).value in {block} + EnclosingTail(code, id)
  }

  /** In scope at the await, or being initialized by it. */
  ghost predicate StmtListed(s: Stmt, v: Variable, id: nat) {
    v in StmtVisible(s, id) || v in StmtInitializing(s, id)
  }

  ghost predicate Listed(code: Code, v: Variable, id: nat) {
    v in Visible(code, id) || v in Initializing(code, id)
  }

  lemma {:induction false} StmtChosenIsListed(s: Stmt, block: nat, v: Variable, id: nat)
    requires IsUserStmt(s) && Rising(StmtOffsets(s)) && id in StmtIds(s) && v in StmtLocals(s) && !s.Await?
    ensures StmtChosen(s, block, v, id) <==> StmtListed(s, v, id)
    decreases s
  {
    match s
    case Block(at, b) =>
      ChosenIsListed(b, at, v, id);
      BodyChosen(s, at, b, block, v, id);
    case While(_, at, b) =>
      ChosenIsListed(b, at, v, id);
      BodyChosen(s, at, b, block, v, id);
    case If(_, at, t, elsAt, e) =>
      RisingParts([at] + Offsets(t), [elsAt] + Offsets(e));
      if id in Ids(t) && v in Locals(t) { ChosenIsListed(t, at, v, id); }
      if id in Ids(e) && v in Locals(e) { ChosenIsListed(e, elsAt, v, id); }
      BranchChosen(s, block, v, id);
  }

  /** What the tree says of a block is what it says of its body, */
  lemma BlockParts(at: nat, b: Code, block: nat, x: int, id: nat)
    requires id in Ids(b)
    ensures StmtBlockOf(Block(at, b), block, x) == BlockOf(b, at, x)
    ensures StmtEnclosing(Block(at, b), id) == {at} + EnclosingTail(b, id)
    ensures StmtVisible(Block(at, b), id) == Visible(b, id)
    ensures StmtInitializing(Block(at, b), id) == Initializing(b, id)
  {
    hide EnclosingTail;
  }

  /** and likewise of a loop. */
  lemma LoopParts(c: Expr, at: nat, b: Code, block: nat, x: int, id: nat)
    requires id in Ids(b)
    ensures StmtBlockOf(While(c, at, b), block, x) == BlockOf(b, at, x)
    ensures StmtEnclosing(While(c, at, b), id) == {at} + EnclosingTail(b, id)
    ensures StmtVisible(While(c, at, b), id) == Visible(b, id)
    ensures StmtInitializing(While(c, at, b), id) == Initializing(b, id)
  {
    hide EnclosingTail;
  }

  /** The test and the scope of a statement with one body are those of the body. */
  lemma BodyChosen(s: Stmt, at: nat, b: Code, block: nat, v: Variable, id: nat)
    requires (s.Block? && s.at == at && s.body == b) || (s.While? && s.at == at && s.body == b)
    requires id in Ids(b)
    ensures StmtChosen(s, block, v, id) <==> Chosen(b, at, v, id)
    ensures StmtListed(s, v, id) <==> Listed(b, v, id)
  {
    if s.Block? { BlockParts(at, b, block, v.at, id); } else { LoopParts(s.c, at, b, block, v.at, id); }
    hide BlockOf, StmtBlockOf, EnclosingTail, StmtEnclosing, Visible, StmtVisible, Initializing, StmtInitializing, Ids;
  }

  /** Those of a conditional are those of the branch the await is in. */
  lemma BranchChosen(s: Stmt, block: nat, v: Variable, id: nat)
    requires s.If? && IsUserStmt(s) && Rising(StmtOffsets(s)) && id in StmtIds(s) && v in StmtLocals(s)
    requires id in Ids(s.thn) && v in Locals(s.thn) ==>
      (Chosen(s.thn, s.at, v, id) <==> Listed(s.thn, v, id))
    requires id in Ids(s.els) && v in Locals(s.els) ==>
      (Chosen(s.els, s.elsAt, v, id) <==> Listed(s.els, v, id))
    ensures StmtChosen(s, block, v, id) <==> StmtListed(s, v, id)
  {
    var If(_, at, t, elsAt, e) := s;
    BranchesApart(s, v, id);
    CodeFacts(t, at, id, v.at);
    CodeFacts(e, elsAt, id, v.at);
    assert StmtEnclosing(s, id) == Enclosing(at, t, id) + Enclosing(elsAt, e, id);
    assert StmtBlockOf(s, block, v.at) == OrElse(BlockOf(t, at, v.at), BlockOf(e, elsAt, v.at));
    assert StmtInitializing(s, id) == Initializing(t, id) + Initializing(e, id);
    assert id in Ids(t) || id in Ids(e);
    hide IsUser, BlockOf, EnclosingTail, Visible, Initializing, Ids, Locals, Offsets, Rising, StmtOffsets, StmtLocals;
    if id in Ids(t) {
      assert StmtVisible(s, id) == Visible(t, id) && StmtEnclosing(s, id) == {at} + EnclosingTail(t, id);
    } else {
      assert StmtVisible(s, id) == Visible(e, id) && StmtEnclosing(s, id) == {elsAt} + EnclosingTail(e, id);
    }
  }

  /** The branches of a conditional have nothing in common: an await or a declaration is in one of them
      only, and so is the compound around it. */
  lemma BranchesApart(s: Stmt, v: Variable, id: nat)
    requires s.If? && IsUserStmt(s) && Rising(StmtOffsets(s)) && id in StmtIds(s) && v in StmtLocals(s)
    ensures !(id in Ids(s.thn) && id in Ids(s.els)) && !(v in Locals(s.thn) && v in Locals(s.els))
    ensures v in Locals(s.thn) || v in Locals(s.els)
    ensures v in Locals(s.thn) ==> BlockOf(s.thn, s.at, v.at).Some? && BlockOf(s.els, s.elsAt, v.at).None?
    ensures v in Locals(s.els) ==> BlockOf(s.els, s.elsAt, v.at).Some? && BlockOf(s.thn, s.at, v.at).None?
    ensures forall b :: b in {s.at} + EnclosingTail(s.thn, id) ==> Some(b) != BlockOf(s.els, s.elsAt, v.at)
    ensures forall b :: b in {s.elsAt} + EnclosingTail(s.els, id) ==> Some(b) != BlockOf(s.thn, s.at, v.at)
  {
    var If(_, at, t, elsAt, e) := s;
    CodeFacts(t, at, id, v.at);
    CodeFacts(e, elsAt, id, v.at);
    assert StmtOffsets(s) == [at] + Offsets(t) + ([elsAt] + Offsets(e));
    assert StmtLocals(s) == Locals(t) + Locals(e);
    hide IsUser, BlockOf, EnclosingTail, Visible, Initializing, Ids, Locals, Offsets, Rising;
    var low, high := [at] + Offsets(t), [elsAt] + Offsets(e);
    RisingParts(low, high);
    assert forall y :: y in low <==> y == at || y in Offsets(t);
    assert forall y :: y in high <==> y == elsAt || y in Offsets(e);
    var p, q := BlockOf(t, at, v.at), BlockOf(e, elsAt, v.at);
    assert p.Some? ==> p.value in low;
    assert q.Some? ==> q.value in high;
    assert forall b :: b in {at} + EnclosingTail(t, id) ==> b in low;
    assert forall b :: b in {elsAt} + EnclosingTail(e, id) ==> b in high;
  }

  lemma RisingAround(block: nat, here: seq<nat>, later: seq<nat>)
    requires Rising([block] + (here + later))
    ensures Rising(here) && Rising([block] + later)
    ensures forall y :: y in here ==> block < y
    ensures forall y :: y in later ==> block < y
    ensures forall x, y :: x in here && y in later ==> x < y
  {
    RisingParts([block], here + later);
    RisingParts(here, later);
    assert block in [block];
    assert forall y :: y in here ==> y in here + later;
    assert forall y :: y in later ==> y in here + later;
    forall k | 0 <= k < |later| ensures block < later[k] { assert later[k] in later; }
  }

  /** How the facts about a statement and about the rest combine. */
  lemma ChosenParts(s: Stmt, rest: Code, block: nat, v: Variable, id: nat)
    requires IsUserStmt(s) && IsUser(rest) && Rising([block] + (StmtOffsets(s) + Offsets(rest)))
    requires id in StmtIds(s) || id in Ids(rest)
    ensures v in StmtLocals(s) && id in StmtIds(s) ==>
      (Chosen(Then(s, rest), block, v, id) <==> s.Await? || StmtChosen(s, block, v, id))
    ensures v in Locals(rest) && id in StmtIds(s) ==>
      !Chosen(Then(s, rest), block, v, id) && v !in StmtLocals(s)
    ensures v in StmtLocals(s) && id !in StmtIds(s) ==>
      (Chosen(Then(s, rest), block, v, id) <==> Declares(s)) && v !in Locals(rest)
    ensures v in Locals(rest) && id !in StmtIds(s) ==>
      (Chosen(Then(s, rest), block, v, id) <==> Chosen(rest, block, v, id))
  {
    StmtFacts(s, block, id, v.at);
    CodeFacts(rest, block, id, v.at);
    RisingAround(block, StmtOffsets(s), Offsets(rest));
    AwaitsOwn(s, v, id);
    assert EnclosingTail(Then(s, rest), id) == StmtEnclosing(s, id) + EnclosingTail(rest, id);
    var b, b' := StmtBlockOf(s, block, v.at), BlockOf(rest, block, v.at);
    assert BlockOf(Then(s, rest), block, v.at) == OrElse(b, b');
    assert Declares(s) && b.Some? ==> b.value == block;
    hide IsUser, IsUserStmt, StmtOffsets, Offsets, Locals, StmtLocals, Ids, Visible, StmtVisible;
    hide Rising, EnclosingTail, StmtEnclosing, BlockOf, StmtBlockOf;
  }

  /** The local that an await initializes is declared before it. */
  lemma AwaitsOwn(s: Stmt, v: Variable, id: nat)
    requires Rising(StmtOffsets(s))
    ensures s.Await? && v in StmtLocals(s) && id in StmtIds(s) ==> Declares(s) && v.at < id
    ensures s.Await? ==> StmtEnclosing(s, id) == {}
  {
    if s.Await? && s.to.NewVar? {
      assert StmtOffsets(s)[0] < StmtOffsets(s)[1];
    }
  }

  lemma {:induction false} ChosenIsListed(code: Code, block: nat, v: Variable, id: nat)
    requires IsUser(code) && Rising([block] + Offsets(code)) && id in Ids(code) && v in Locals(code)
    ensures Chosen(code, block, v, id) <==> Listed(code, v, id)
    decreases code
  {
    var s, rest := code.head, code.tail;
    ChosenParts(s, rest, block, v, id);
    RisingAround(block, StmtOffsets(s), Offsets(rest));
    StmtFacts(s, block, id, v.at);
    CodeFacts(rest, block, id, v.at);
    if id in StmtIds(s) {
      if v in StmtLocals(s) && !s.Await? { StmtChosenIsListed(s, block, v, id); }
      ListedHere(s, rest, v, id);
    } else {
      if v in Locals(rest) { ChosenIsListed(rest, block, v, id); }
      assert Declares(s) ==> StmtVisible(s, id) == StmtLocals(s);
    }
    hide Chosen, StmtChosen;
  }

  lemma ListedHere(s: Stmt, rest: Code, v: Variable, id: nat)
    requires IsUserStmt(s) && IsUser(rest) && id in StmtIds(s) && id !in Ids(rest)
    ensures Listed(Then(s, rest), v, id) <==> StmtListed(s, v, id)
    ensures s.Await? ==> (StmtListed(s, v, id) <==> v in StmtLocals(s))
  {
    CodeFacts(rest, 0, id, 0);
  }

  /** On the whole function, the tool saves exactly the parameters, the visible locals and the local, if
      any, that the await initializes. */
  lemma SavesIsLexical(f: Fun, v: Variable, id: nat)
    requires IsUser(f.body) && Located(f) && id in Ids(f.body) && v in Variables(f)
    ensures Saves(f, v, id) <==> v in f.params || v in Visible(f.body, id) || v in Initializing(f.body, id)
  {
    CodeFacts(f.body, f.at, id, v.at);
    RisingParts([f.at], Offsets(f.body));
    assert f.at in [f.at];
    if v in Locals(f.body) { ChosenIsListed(f.body, f.at, v, id); }
  }

  /** Bare awaits initialize nothing. */
  lemma {:induction false} VoidInitializes(code: Code, id: nat)
    requires Void(code)
    ensures Initializing(code, id) == []
    decreases code
  {
    match code
    case End =>
    case Then(s, rest) =>
      assert VoidStmt(s);
      VoidInitializes(rest, id);
      match s
      case Block(_, b) => VoidInitializes(b, id);
      case If(_, _, t, _, e) => VoidInitializes(t, id); VoidInitializes(e, id);
      case While(_, _, b) => VoidInitializes(b, id);
      case _ =>
  }

  // ----- lexical scope is the scope of the semantics -----

  lemma {:induction false} FindNames(code: Code, mark: nat, names: seq<string>, below: Stack, id: nat)
    requires IsUser(code) && id in Ids(code)
    ensures
      var p := Find(code, mark, names, below, AwaitAt(id));
      p.Some? && p.value.names == names + NamesOf(Visible(code, id))
    decreases code
  {
    var Then(s, rest) := code;
    assert IsUserStmt(s);
    if id in StmtIds(s) {
      FindNamesIn(s, rest, mark, names, below, id);
    } else {
      FindNames(rest, mark, Declared(names, s), below, id);
      FindSkips(s, rest, mark, names, below, id);
      DeclaredNames(s, rest, names, id);
      hide Find, Visible;
    }
  }

  lemma DeclaredNames(s: Stmt, rest: Code, names: seq<string>, id: nat)
    requires IsUserStmt(s) && id !in StmtIds(s)
    ensures Declared(names, s) + NamesOf(Visible(rest, id)) == names + NamesOf(Visible(Then(s, rest), id))
  {
    DeclaredHere(s, names, id);
    assert Visible(Then(s, rest), id) == StmtVisible(s, id) + Visible(rest, id);
    hide *;
    NamesJoin(names, StmtVisible(s, id), Visible(rest, id));
  }

  lemma DeclaredHere(s: Stmt, names: seq<string>, id: nat)
    requires IsUserStmt(s) && id !in StmtIds(s)
    ensures Declared(names, s) == names + NamesOf(StmtVisible(s, id))
  {
    hide Ids, Visible;
    if s.Decl? {
      assert NamesOf(StmtVisible(s, id)) == [s.x];
    } else if s.Await? && s.to.NewVar? {
      assert NamesOf(StmtVisible(s, id)) == [s.to.x];
    } else {
      StmtFacts(s, 0, id, 0);
      assert NamesOf([]) == [] && names + [] == names;
    }
  }

  lemma NamesJoin(names: seq<string>, a: seq<Variable>, b: seq<Variable>)
    ensures (names + NamesOf(a)) + NamesOf(b) == names + NamesOf(a + b)
  {
    assert NamesOf(a + b) == NamesOf(a) + NamesOf(b);
  }

  lemma {:induction false} FindNamesIn(s: Stmt, rest: Code, mark: nat, names: seq<string>, below: Stack, id: nat)
    requires IsUserStmt(s) && id in StmtIds(s)
    ensures
      var p := Find(Then(s, rest), mark, names, below, AwaitAt(id));
      p.Some? && p.value.names == names + NamesOf(Visible(Then(s, rest), id))
    decreases s
  {
    match s
    case Block(_, b) =>
      FindNames(b, |names|, names, Push(rest, mark, below), id);
    case While(_, _, b) =>
      FindNames(b, |names|, names, Push(Then(s, rest), mark, below), id);
    case If(_, _, t, _, e) =>
      FindIff(t, |names|, names, Push(rest, mark, below), id);
      if id in Ids(t) {
        FindNames(t, |names|, names, Push(rest, mark, below), id);
      } else {
        FindNames(e, |names|, names, Push(rest, mark, below), id);
      }
    case Await(_, _, _) => assert names + NamesOf([]) == names;
  }

  /** A statement without the await is passed by. */
  lemma FindSkips(s: Stmt, rest: Code, mark: nat, names: seq<string>, below: Stack, id: nat)
    requires IsUserStmt(s) && id !in StmtIds(s)
    ensures Find(Then(s, rest), mark, names, below, AwaitAt(id))
        == Find(rest, mark, Declared(names, s), below, AwaitAt(id))
  {
    match s
    case Block(_, b) => FindIff(b, |names|, names, Push(rest, mark, below), id);
    case If(_, _, t, _, e) =>
      FindIff(t, |names|, names, Push(rest, mark, below), id);
      FindIff(e, |names|, names, Push(rest, mark, below), id);
    case While(_, _, b) => FindIff(b, |names|, names, Push(Then(s, rest), mark, below), id);
    case _ =>
  }

  lemma {:induction false} FindNoDup(code: Code, mark: nat, names: seq<string>, below: Stack, p: Place)
    requires Unshadowed(code, names) && NoDup(names) && IsUser(code)
    ensures var r := Find(code, mark, names, below, p); r.Some? ==> NoDup(r.value.names)
    decreases code
  {
    match code
    case End =>
    case Then(s, rest) =>
      assert UnshadowedStmt(s, names) && IsUserStmt(s);
      FindNoDup(rest, mark, Declared(names, s), below, p);
      match s
      case Block(_, b) => FindNoDup(b, |names|, names, Push(rest, mark, below), p);
      case If(_, _, t, _, e) =>
        FindNoDup(t, |names|, names, Push(rest, mark, below), p);
        FindNoDup(e, |names|, names, Push(rest, mark, below), p);
      case While(_, _, b) => FindNoDup(b, |names|, names, Push(code, mark, below), p);
      case _ =>
  }
}
