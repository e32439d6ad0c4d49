/** The rewrite of a coroutine body, as a transformation of its code.  `Emitted` is the form the
    tool produces: save, await, label, load.  `Carrying` is the hand-written form that also
    carries await results: save, resize, label, load, and an await that is skipped when a
    result was supplied. */
module Rewrite {
  import opened Wire
  import opened Language
  import opened Points

  /** One rewritten await and the variables saved there. */
  datatype Stage = Stage(aw: nat, vars: seq<string>)

  datatype Style = Emitted | Carrying

  /** 1-based number of the stage of await `id` from index `i` on; 0 if there is none. */
  function StageNoFrom(ss: seq<Stage>, id: nat, i: nat): (n: nat)
    requires i <= |ss|
    ensures n == 0 || (i < n <= |ss| && ss[n - 1].aw == id)
    ensures n == 0 <==> forall j :: i <= j < |ss| ==> ss[j].aw != id
    decreases |ss| - i
  {
    if i == |ss| then 0
    else if ss[i].aw == id then i + 1
    else StageNoFrom(ss, id, i + 1)
  }

  function StageNo(ss: seq<Stage>, id: nat): (n: nat)
    ensures n == 0 || (0 < n <= |ss| && ss[n - 1].aw == id)
    ensures n == 0 <==> forall j :: 0 <= j < |ss| ==> ss[j].aw != id
  {
    StageNoFrom(ss, id, 0)
  }

  /** The code of await statement `s` with number `n`, from its label on. */
  function FromLabel(style: Style, n: nat, vars: seq<string>, s: Stmt, rest: Code): Code
    requires s.Await?
  {
    match style
    case Emitted => Then(Label(n), Then(Load(vars), rest))
    case Carrying => Then(Label(n), Then(Load(vars), Then(Take(s.at, s.to, s.e), rest)))
  }

  /** Everything emitted for an await statement. */
  function Expanded(style: Style, n: nat, vars: seq<string>, s: Stmt, rest: Code): Code
    requires s.Await?
  {
    match style
    case Emitted => Then(Save(n, vars), Then(s, FromLabel(style, n, vars, s, rest)))
    case Carrying => Then(Save(n, vars), Then(Resize, FromLabel(style, n, vars, s, rest)))
  }

  function RewriteCode(code: Code, ss: seq<Stage>, style: Style): Code {
    match code
    case End => End
    case Then(s, rest) =>
      var rest' := RewriteCode(rest, ss, style);
      match s
      case Await(id, _, _) =>
        var n := StageNo(ss, id);
        if n == 0 then Then(s, rest') else Expanded(style, n, ss[n - 1].vars, s, rest')
      case Block(at, b) => Then(Block(at, RewriteCode(b, ss, style)), rest')
      case If(c, at, t, elsAt, e) =>
        Then(If(c, at, RewriteCode(t, ss, style), elsAt, RewriteCode(e, ss, style)), rest')
      case While(c, at, b) => Then(While(c, at, RewriteCode(b, ss, style)), rest')
      case _ => Then(s, rest')
  }

  /** Labels in jump table order: entry i is where stage i continues. */
  function Table(n: nat): (t: seq<nat>)
    ensures |t| == n + 1
    ensures forall i :: 0 <= i <= n ==> t[i] == i
  {
    seq(n + 1, i => i)
  }

  /** The rewritten body: dispatch on the saved stage, then the start label, then the code. */
  function Rewritten(body: Code, ss: seq<Stage>, style: Style): Code {
    Then(Dispatch(Table(|ss|)), Then(Label(0), RewriteCode(body, ss, style)))
  }

  function RewriteStack(stack: Stack, ss: seq<Stage>, style: Style): Stack {
    match stack
    case Bottom => Bottom
    case Push(code, mark, below) => Push(RewriteCode(code, ss, style), mark, RewriteStack(below, ss, style))
  }

  /** Discarding every result: all awaits are bare statements. */
  predicate VoidStmt(s: Stmt) {
    match s
    case Block(_, b) => Void(b)
    case If(_, _, t, _, e) => Void(t) && Void(e)
    case While(_, _, b) => Void(b)
    case Await(_, to, _) => to.Discard?
    case _ => true
  }

  predicate Void(code: Code) {
    match code
    case End => true
    case Then(s, rest) => VoidStmt(s) && Void(rest)
  }

  /** What each scheme can handle: the emitted form only bare await statements. */
  predicate Fits(code: Code, style: Style) {
    style.Emitted? ==> Void(code)
  }

  predicate DistinctStages(ss: seq<Stage>) {
    forall i, j :: 0 <= i < j < |ss| ==> ss[i].aw != ss[j].aw
  }

  predicate IsAwaitPoint(p: Point) {
    p.stack.Push? && p.stack.code.Then? && p.stack.code.head.Await?
  }

  /** The point of stage `n` in the rewritten code, given the point of its await in the original. */
  function LabelPoint(p: Point, ss: seq<Stage>, n: nat, style: Style): Point
    requires IsAwaitPoint(p)
    requires 0 < n <= |ss|
  {
    var Push(Then(s, rest), mark, below) := p.stack;
    p.(stack := Push(FromLabel(style, n, ss[n - 1].vars, s, RewriteCode(rest, ss, style)), mark,
                     RewriteStack(below, ss, style)))
  }

  lemma {:induction false} FoundIsAwait(code: Code, mark: nat, names: seq<string>, below: Stack, id: nat)
    requires IsUser(code)
    ensures
      var p := Find(code, mark, names, below, AwaitAt(id));
      p.Some? ==> IsAwaitPoint(p.value) && p.value.stack.code.head.at == id
    decreases code
  {
    match code
    case End =>
    case Then(s, rest) =>
      assert IsUserStmt(s);
      FoundIsAwait(rest, mark, Declared(names, s), below, id);
      match s
      case Block(_, b) => FoundIsAwait(b, |names|, names, Push(rest, mark, below), id);
      case If(_, _, t, _, e) =>
        FoundIsAwait(t, |names|, names, Push(rest, mark, below), id);
        FoundIsAwait(e, |names|, names, Push(rest, mark, below), id);
      case While(_, _, b) => FoundIsAwait(b, |names|, names, Push(code, mark, below), id);
      case _ =>
  }

  /** Label `n` is in the rewritten code exactly where the await of stage `n` is in the original,
      inside the same compounds, with the same names in scope; without the await, no label. */
  ghost predicate LabelMirrorsAwait(code: Code, mark: nat, names: seq<string>, below: Stack,
                                    ss: seq<Stage>, n: nat, style: Style)
    requires 0 < n <= |ss|
  {
    var p := Find(code, mark, names, below, AwaitAt(ss[n - 1].aw));
    var q := Find(RewriteCode(code, ss, style), mark, names, RewriteStack(below, ss, style), LabelNo(n));
    && (p.Some? ==> IsAwaitPoint(p.value))
    && q == if p.Some? then Some(LabelPoint(p.value, ss, n, style)) else None
  }

  lemma {:induction false} FindLabel(code: Code, mark: nat, names: seq<string>, below: Stack,
                                     ss: seq<Stage>, n: nat, style: Style)
    requires IsUser(code) && Fits(code, style)
    requires DistinctStages(ss) && 0 < n <= |ss|
    ensures LabelMirrorsAwait(code, mark, names, below, ss, n, style)
    decreases code
  {
    match code
    case End =>
    case Then(s, rest) =>
      assert IsUserStmt(s) && (style.Emitted? ==> VoidStmt(s));
      FoundIsAwait(code, mark, names, below, ss[n - 1].aw);
      FindLabel(rest, mark, Declared(names, s), below, ss, n, style);
      match s
      case Block(_, b) => FindLabel(b, |names|, names, Push(rest, mark, below), ss, n, style);
      case If(_, _, t, _, e) =>
        FindLabel(t, |names|, names, Push(rest, mark, below), ss, n, style);
        FindLabel(e, |names|, names, Push(rest, mark, below), ss, n, style);
      case While(_, _, b) => FindLabel(b, |names|, names, Push(code, mark, below), ss, n, style);
      case Await(_, _, _) => FindLabelAwait(s, rest, mark, names, below, ss, n, style);
      case _ =>
  }

  lemma FindLabelAwait(s: Stmt, rest: Code, mark: nat, names: seq<string>, below: Stack,
                       ss: seq<Stage>, n: nat, style: Style)
    requires s.Await? && (style.Emitted? ==> s.to.Discard?)
    requires DistinctStages(ss) && 0 < n <= |ss|
    requires LabelMirrorsAwait(rest, mark, Declared(names, s), below, ss, n, style)
    ensures LabelMirrorsAwait(Then(s, rest), mark, names, below, ss, n, style)
  {
    var code, rest' := Then(s, rest), RewriteCode(rest, ss, style);
    var below' := RewriteStack(below, ss, style);
    var k := StageNo(ss, s.at);
    assert RewriteCode(code, ss, style) == if k == 0 then Then(s, rest')
        else Expanded(style, k, ss[k - 1].vars, s, rest');
    assert k == n <==> s.at == ss[n - 1].aw;
    hide RewriteCode, RewriteStack, StageNo;
    if k != 0 { FindInPieces(s, rest', k, ss[k - 1].vars, mark, names, below', n, style); }
  }

  /** Among the pieces around an await, only its own label is found; what is behind them is searched with
      the same names. */
  lemma FindInPieces(s: Stmt, rest: Code, k: nat, vars: seq<string>, mark: nat, names: seq<string>, below: Stack,
                     n: nat, style: Style)
    requires s.Await? && (style.Emitted? ==> s.to.Discard?)
    ensures Find(Expanded(style, k, vars, s, rest), mark, names, below, LabelNo(n))
      == if k == n then Some(Point(Push(FromLabel(style, k, vars, s, rest), mark, below), names))
         else Find(rest, mark, Declared(names, s), below, LabelNo(n))
  {
    var whole, lab := Expanded(style, k, vars, s, rest), FromLabel(style, k, vars, s, rest);
    assert whole.tail.tail == lab;
    assert Find(whole, mark, names, below, LabelNo(n)) == Find(whole.tail, mark, names, below, LabelNo(n));
    assert Find(whole.tail, mark, names, below, LabelNo(n)) == Find(lab, mark, names, below, LabelNo(n));
    if k != n {
      assert Find(lab, mark, names, below, LabelNo(n)) == Find(lab.tail, mark, names, below, LabelNo(n));
      assert Find(lab.tail, mark, names, below, LabelNo(n)) == Find(lab.tail.tail, mark, names, below, LabelNo(n));
    }
  }

  // ----- jump table -----

  /** Entry n of the table is the label of stage n, and the label is where the computed goto
      finds exactly the await's continuation. */
  lemma JumpTable(body: Code, params: seq<string>, ss: seq<Stage>, n: nat, style: Style)
    requires IsUser(body) && Fits(body, style)
    requires DistinctStages(ss) && 0 < n <= |ss| && ss[n - 1].aw in Ids(body)
    ensures |Table(|ss|)| == |ss| + 1
    ensures Home(body, params, ss[n - 1].aw).Some?
    ensures
      var home := Home(body, params, ss[n - 1].aw).value;
      && IsAwaitPoint(home)
      && Find(Rewritten(body, ss, style), |params|, params, Bottom, LabelNo(Table(|ss|)[n]))
         == Some(LabelPoint(home, ss, n, style))
  {
    hide RewriteCode, RewriteStack, Ids, Find;
    FindIff(body, |params|, params, Bottom, ss[n - 1].aw);
    FindLabel(body, |params|, params, Bottom, ss, n, style);
    SkipsStart(body, |params|, params, ss, n, style);
    NothingBelow(ss, style);
  }

  lemma NothingBelow(ss: seq<Stage>, style: Style)
    ensures RewriteStack(Bottom, ss, style) == Bottom
  {
  }

  /** The label is not in the preamble. */
  lemma SkipsStart(body: Code, mark: nat, names: seq<string>, ss: seq<Stage>, n: nat, style: Style)
    requires 0 < n
    ensures Find(Rewritten(body, ss, style), mark, names, Bottom, LabelNo(n))
         == Find(RewriteCode(body, ss, style), mark, names, Bottom, LabelNo(n))
  {
    var prog := Rewritten(body, ss, style);
    assert Find(prog, mark, names, Bottom, LabelNo(n)) == Find(prog.tail, mark, names, Bottom, LabelNo(n));
    assert Find(prog.tail, mark, names, Bottom, LabelNo(n)) == Find(prog.tail.tail, mark, names, Bottom, LabelNo(n));
    hide RewriteCode;
  }
}
