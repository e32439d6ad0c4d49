/** Giving other identities to the awaits of a program.  Neither the text of a program nor what it
    does depends on them. */
module Relabel {
  import opened Language
  import opened Points
  import opened Rewrite

  function NewTarget(to: Target): Target {
    if to.NewVar? then NewVar(0, to.x) else to
  }

  /** The awaits get new identities; all other offsets are forgotten. */
  function NewStmt(s: Stmt, f: nat -> nat): Stmt {
    match s
    case Decl(_, x, e) => Decl(0, x, e)
    case Block(_, b) => Block(0, NewCode(b, f))
    case If(c, _, t, _, e) => If(c, 0, NewCode(t, f), 0, NewCode(e, f))
    case While(c, _, b) => While(c, 0, NewCode(b, f))
    case Await(at, to, e) => Await(f(at), NewTarget(to), e)
    case Take(at, to, e) => Take(f(at), NewTarget(to), e)
    case _ => s
  }

  function NewCode(code: Code, f: nat -> nat): Code {
    match code
    case End => End
    case Then(s, rest) => Then(NewStmt(s, f), NewCode(rest, f))
  }

  function NewStages(ss: seq<Stage>, f: nat -> nat): (r: seq<Stage>)
    ensures |r| == |ss| && forall i :: 0 <= i < |ss| ==> r[i] == Stage(f(ss[i].aw), ss[i].vars)
  {
    seq(|ss|, i requires 0 <= i < |ss| => Stage(f(ss[i].aw), ss[i].vars))
  }

  // ----- what is kept -----

  ghost predicate Injective(f: nat -> nat, ids: set<nat>) {
    forall a, b :: a in ids && b in ids && f(a) == f(b) ==> a == b
  }

  lemma {:induction false} NewIds(code: Code, f: nat -> nat)
    ensures forall y :: y in Ids(NewCode(code, f)) <==> exists x :: x in Ids(code) && f(x) == y
    decreases code
  {
    match code
    case End =>
    case Then(s, rest) =>
      NewIds(rest, f);
      NewStmtIds(s, f);
      assert Ids(NewCode(code, f)) == StmtIds(NewStmt(s, f)) + Ids(NewCode(rest, f));
      forall x | x in Ids(code) ensures f(x) in Ids(NewCode(code, f)) {
        assert x in StmtIds(s) || x in Ids(rest);
      }
  }

  lemma {:induction false} NewStmtIds(s: Stmt, f: nat -> nat)
    ensures forall y :: y in StmtIds(NewStmt(s, f)) <==> exists x :: x in StmtIds(s) && f(x) == y
    decreases s
  {
    match s
    case Block(_, b) => NewIds(b, f);
    case While(_, _, b) => NewIds(b, f);
    case If(_, _, t, _, e) =>
      NewIds(t, f);
      NewIds(e, f);
      forall x | x in StmtIds(s) ensures f(x) in StmtIds(NewStmt(s, f)) {
        assert x in Ids(t) || x in Ids(e);
      }
    case Await(at, _, _) => assert at in StmtIds(s);
    case _ =>
  }

  /** Bare user code with distinct awaits stays so. */
  lemma {:induction false} NewProper(code: Code, f: nat -> nat)
    requires IsUser(code) && Void(code) && Distinct(code) && Injective(f, Ids(code))
    ensures IsUser(NewCode(code, f)) && Void(NewCode(code, f)) && Distinct(NewCode(code, f))
    decreases code
  {
    match code
    case End =>
    case Then(s, rest) =>
      assert IsUserStmt(s) && VoidStmt(s) && DistinctStmt(s);
      NewProper(rest, f);
      NewProperStmt(s, f);
      NewIds(rest, f);
      NewStmtIds(s, f);
      forall a, b | a in StmtIds(s) && b in Ids(rest) ensures f(a) != f(b) {
        assert a in Ids(code) && b in Ids(code) && a != b;
      }
  }

  lemma {:induction false} NewProperStmt(s: Stmt, f: nat -> nat)
    requires IsUserStmt(s) && VoidStmt(s) && DistinctStmt(s) && Injective(f, StmtIds(s))
    ensures IsUserStmt(NewStmt(s, f)) && VoidStmt(NewStmt(s, f)) && DistinctStmt(NewStmt(s, f))
    decreases s
  {
    match s
    case Block(_, b) => NewProper(b, f);
    case While(_, _, b) => NewProper(b, f);
    case If(_, _, t, _, e) =>
      NewProper(t, f);
      NewProper(e, f);
      NewIds(t, f);
      NewIds(e, f);
      forall a, b | a in Ids(t) && b in Ids(e) ensures f(a) != f(b) {
        assert a in StmtIds(s) && b in StmtIds(s) && a != b;
      }
    case _ =>
  }

  /** Stages are numbered alike. */
  ghost predicate SameNumbers(ids: set<nat>, ss: seq<Stage>, f: nat -> nat) {
    forall id :: id in ids ==> StageNo(NewStages(ss, f), f(id)) == StageNo(ss, id)
  }

  /** Rewriting the new program by the new table is the new form of the rewritten one. */
  lemma {:induction false} NewRewrite(code: Code, ss: seq<Stage>, style: Style, f: nat -> nat)
    requires IsUser(code) && SameNumbers(Ids(code), ss, f)
    ensures NewCode(RewriteCode(code, ss, style), f) == RewriteCode(NewCode(code, f), NewStages(ss, f), style)
    decreases code
  {
    match code
    case End =>
    case Then(s, rest) =>
      assert Ids(code) == StmtIds(s) + Ids(rest) && IsUserStmt(s);
      hide StageNo;
      NewRewrite(rest, ss, style, f);
      match s
      case Block(_, b) => NewRewrite(b, ss, style, f);
      case While(_, _, b) => NewRewrite(b, ss, style, f);
      case If(_, _, t, _, e) =>
        assert StmtIds(s) == Ids(t) + Ids(e);
        NewRewrite(t, ss, style, f);
        NewRewrite(e, ss, style, f);
      case Await(id, _, _) =>
        assert id in Ids(code);
        NewExpanded(s, rest, ss, style, f);
      case _ =>
  }

  lemma NewExpanded(s: Stmt, rest: Code, ss: seq<Stage>, style: Style, f: nat -> nat)
    requires s.Await? && StageNo(NewStages(ss, f), f(s.at)) == StageNo(ss, s.at)
    requires NewCode(RewriteCode(rest, ss, style), f) == RewriteCode(NewCode(rest, f), NewStages(ss, f), style)
    ensures NewCode(RewriteCode(Then(s, rest), ss, style), f)
         == RewriteCode(NewCode(Then(s, rest), f), NewStages(ss, f), style)
  {
    hide *;
    var n, r := StageNo(ss, s.at), RewriteCode(rest, ss, style);
    NewThen(s, rest, f);
    NewThen(s, r, f);
    NewAwait(s, f);
    AwaitIs(s, rest, ss, style);
    AwaitIs(NewStmt(s, f), NewCode(rest, f), NewStages(ss, f), style);
    if n != 0 { NewPieces(style, n, ss[n - 1].vars, s, r, f); }
  }

  lemma NewAwait(s: Stmt, f: nat -> nat)
    requires s.Await?
    ensures NewStmt(s, f).Await? && NewStmt(s, f).at == f(s.at)
  {
  }

  lemma AwaitIs(s: Stmt, rest: Code, ss: seq<Stage>, style: Style)
    requires s.Await?
    ensures
      var n, r := StageNo(ss, s.at), RewriteCode(rest, ss, style);
      RewriteCode(Then(s, rest), ss, style) == if n == 0 then Then(s, r) else Expanded(style, n, ss[n - 1].vars, s, r)
  {
    hide StageNo;
  }

  lemma NewPieces(style: Style, n: nat, vars: seq<string>, s: Stmt, r: Code, f: nat -> nat)
    requires s.Await?
    ensures NewCode(Expanded(style, n, vars, s, r), f) == Expanded(style, n, vars, NewStmt(s, f), NewCode(r, f))
  {
    var take := Take(s.at, s.to, s.e);
    var r1 := if style.Emitted? then r else Then(take, r);
    var r2 := Then(Load(vars), r1);
    var r3 := Then(Label(n), r2);
    var r4 := Then(if style.Emitted? then s else Resize, r3);
    assert Expanded(style, n, vars, s, r) == Then(Save(n, vars), r4);
    assert NewStmt(take, f) == Take(f(s.at), NewTarget(s.to), s.e);
    hide NewCode, Expanded;
    NewThen(take, r, f);
    NewThen(Load(vars), r1, f);
    NewThen(Label(n), r2, f);
    NewThen(r4.head, r3, f);
    NewThen(Save(n, vars), r4, f);
    ExpandedIs(style, n, vars, NewStmt(s, f), NewCode(r, f));
  }

  lemma NewThen(s: Stmt, rest: Code, f: nat -> nat)
    ensures NewCode(Then(s, rest), f) == Then(NewStmt(s, f), NewCode(rest, f))
  {
  }

  lemma ExpandedIs(style: Style, n: nat, vars: seq<string>, s: Stmt, r: Code)
    requires s.Await?
    ensures
      var r1 := if style.Emitted? then r else Then(Take(s.at, s.to, s.e), r);
      Expanded(style, n, vars, s, r)
      == Then(Save(n, vars), Then(if style.Emitted? then s else Resize, Then(Label(n), Then(Load(vars), r1))))
  {
  }

  /** Stage numbers do not depend on what the awaits are called. */
  lemma NewStageNo(ss: seq<Stage>, f: nat -> nat, ids: set<nat>, id: nat)
    requires Injective(f, ids) && id in ids && forall i :: 0 <= i < |ss| ==> ss[i].aw in ids
    requires DistinctStages(ss)
    ensures StageNo(NewStages(ss, f), f(id)) == StageNo(ss, id)
  {
    var n, n' := StageNo(ss, id), StageNo(NewStages(ss, f), f(id));
    if n > 0 { assert NewStages(ss, f)[n - 1].aw == f(id); }
    if n' > 0 { assert ss[n' - 1].aw == id; }
  }

  /** One stage for each await. */
  ghost predicate OneEach(body: Code, ss: seq<Stage>) {
    && DistinctStages(ss)
    && (forall id :: id in Ids(body) ==> StageNo(ss, id) > 0)
    && (forall i :: 0 <= i < |ss| ==> ss[i].aw in Ids(body))
  }

  lemma OneEachNew(body: Code, ss: seq<Stage>, f: nat -> nat)
    requires OneEach(body, ss) && Injective(f, Ids(body))
    ensures OneEach(NewCode(body, f), NewStages(ss, f))
  {
    hide NewCode, Ids, StageNo, Injective;
    NewDistinct(ss, f, Ids(body));
    NewNumbered(body, ss, f);
    forall i | 0 <= i < |ss| ensures NewStages(ss, f)[i].aw in Ids(NewCode(body, f)) {
      NewId(body, f, ss[i].aw);
    }
  }

  lemma NewId(code: Code, f: nat -> nat, id: nat)
    requires id in Ids(code)
    ensures f(id) in Ids(NewCode(code, f))
  {
    hide NewCode, Ids;
    NewIds(code, f);
  }

  lemma NewNumbered(body: Code, ss: seq<Stage>, f: nat -> nat)
    requires OneEach(body, ss) && Injective(f, Ids(body))
    ensures forall id' :: id' in Ids(NewCode(body, f)) ==> StageNo(NewStages(ss, f), id') > 0
  {
    hide NewCode, Ids, StageNo, Injective;
    NewIds(body, f);
    forall id' | id' in Ids(NewCode(body, f)) ensures StageNo(NewStages(ss, f), id') > 0 {
      var id :| id in Ids(body) && f(id) == id';
      NewStageNo(ss, f, Ids(body), id);
    }
  }

  lemma NewDistinct(ss: seq<Stage>, f: nat -> nat, ids: set<nat>)
    requires Injective(f, ids) && DistinctStages(ss) && forall i :: 0 <= i < |ss| ==> ss[i].aw in ids
    ensures DistinctStages(NewStages(ss, f))
  {
    var ss' := NewStages(ss, f);
    forall i, k | 0 <= i < k < |ss| ensures ss'[i].aw != ss'[k].aw {
      assert ss[i].aw in ids && ss[k].aw in ids;
    }
  }

  lemma NewRewritten(body: Code, ss: seq<Stage>, style: Style, f: nat -> nat)
    requires IsUser(body) && OneEach(body, ss) && Injective(f, Ids(body))
    ensures NewCode(Rewritten(body, ss, style), f) == Rewritten(NewCode(body, f), NewStages(ss, f), style)
  {
    hide *;
    SameNumbersNew(body, ss, f);
    NewRewrite(body, ss, style, f);
    RewrittenIs(body, ss, style);
    RewrittenIs(NewCode(body, f), NewStages(ss, f), style);
    var c := RewriteCode(body, ss, style);
    NewThen(Dispatch(Table(|ss|)), Then(Label(0), c), f);
    NewThen(Label(0), c, f);
    NewInserted(Dispatch(Table(|ss|)), f);
    NewInserted(Label(0), f);
  }

  lemma SameNumbersNew(body: Code, ss: seq<Stage>, f: nat -> nat)
    requires OneEach(body, ss) && Injective(f, Ids(body))
    ensures SameNumbers(Ids(body), ss, f)
  {
    hide Ids, StageNo, Injective;
    forall id | id in Ids(body) ensures StageNo(NewStages(ss, f), f(id)) == StageNo(ss, id) {
      NewStageNo(ss, f, Ids(body), id);
    }
  }

  lemma RewrittenIs(body: Code, ss: seq<Stage>, style: Style)
    ensures Rewritten(body, ss, style) == Then(Dispatch(Table(|ss|)), Then(Label(0), RewriteCode(body, ss, style)))
  {
  }

  lemma NewInserted(s: Stmt, f: nat -> nat)
    requires s.Dispatch? || s.Label?
    ensures NewStmt(s, f) == s
  {
  }
}
