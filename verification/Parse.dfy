/** Reading tokens back as code: the code a compiler sees in a text.  Offsets are not read. */
module Parse {
  import opened Wire
  import opened Language
  import opened Relabel
  import opened Text

  /** What was read, and the tokens after it. */
  datatype Read<+T> = Read(it: T, rest: seq<Tok>)

  function ParseExpr(ts: seq<Tok>): (r: Option<Read<Expr>>)
    ensures r.Some? ==> |r.value.rest| < |ts|
    decreases |ts|
  {
    if ts == [] then None
    else
      match ts[0]
      case Number(v) => Some(Read(Lit(v), ts[1..]))
      case Name(x) => Some(Read(Var(x), ts[1..]))
      case LParen =>
        (match ParseExpr(ts[1..])
         case Some(Read(l, after)) =>
           if after == [] || !after[0].Operator? then None
           else
             (match ParseExpr(after[1..])
              case Some(Read(r, end)) =>
                if end == [] || end[0] != RParen then None
                else Some(Read(Bin(after[0].op, l, r), end[1..]))
              case None => None)
         case None => None)
      case _ => None
  }

  /** A statement that stands for one token and a semicolon. */
  function Closed(s: Stmt, after: seq<Tok>): (r: Option<Read<Stmt>>)
    ensures r.Some? ==> |r.value.rest| < |after|
  {
    if after == [] || after[0] != Semi then None else Some(Read(s, after[1..]))
  }

  /** What is assigned or awaited, and the semicolon. */
  function ParseTail(to: Target, ts: seq<Tok>): (r: Option<Read<Stmt>>)
    ensures r.Some? ==> |r.value.rest| < |ts|
  {
    if ts == [] then None
    else if ts[0] == KwAwait then
      match ParseExpr(ts[1..])
      case Some(Read(e, after)) => Closed(Await(0, to, e), after)
      case None => None
    else if ts[0].Ternary? then Closed(Take(0, to, ts[0].e), ts[1..])
    else
      match ParseExpr(ts)
      case Some(Read(e, after)) =>
        (match to
         case NewVar(_, x) => Closed(Decl(0, x, e), after)
         case Existing(x) => Closed(Assign(x, e), after)
         case Discard => None)
      case None => None
  }

  /** Code in braces, after the opening one. */
  function ParseBraced(ts: seq<Tok>): (r: Option<Read<Code>>)
    ensures r.Some? ==> |r.value.rest| < |ts|
    decreases |ts|, 2
  {
    match ParseCode(ts)
    case Some(Read(c, after)) =>
      if after == [] || after[0] != RBrace then None else Some(Read(c, after[1..]))
    case None => None
  }

  /** `( e ) {` of a conditional or a loop, then the body. */
  function ParseGuarded(ts: seq<Tok>): (r: Option<Read<(Expr, Code)>>)
    ensures r.Some? ==> |r.value.rest| < |ts|
    decreases |ts|, 3
  {
    match ParseExpr(ts)
    case Some(Read(e, after)) =>
      if after == [] || after[0] != LBrace then None
      else
        (match ParseBraced(after[1..])
         case Some(Read(c, end)) => Some(Read((e, c), end))
         case None => None)
    case None => None
  }

  function ParseIf(ts: seq<Tok>): (r: Option<Read<Stmt>>)
    ensures r.Some? ==> |r.value.rest| < |ts|
    decreases |ts|, 4
  {
    match ParseGuarded(ts)
    case Some(Read((c, t), after)) =>
      if !([KwElse, LBrace] <= after) then None
      else
        (match ParseBraced(after[2..])
         case Some(Read(e, end)) => Some(Read(If(c, 0, t, 0, e), end))
         case None => None)
    case None => None
  }

  function ParseStmt(ts: seq<Tok>): (r: Option<Read<Stmt>>)
    ensures r.Some? ==> |r.value.rest| < |ts|
    decreases |ts|, 0
  {
    if ts == [] then None
    else
      match ts[0]
      case JumpTable(table) => Some(Read(Dispatch(table), ts[1..]))
      case LabelMark(n) => Some(Read(Label(n), ts[1..]))
      case SaveCall(n, vars) => Closed(Save(n, vars), ts[1..])
      case LoadCall(vars) => Closed(Load(vars), ts[1..])
      case ResizeCall => Closed(Resize, ts[1..])
      case KwAwait => ParseTail(Discard, ts)
      case Ternary(_) => ParseTail(Discard, ts)
      case KwOut =>
        (match ParseExpr(ts[1..])
         case Some(Read(e, after)) => Closed(Emit(e), after)
         case None => None)
      case KwReturn =>
        (match ParseExpr(ts[1..])
         case Some(Read(e, after)) => Closed(Return(e), after)
         case None => None)
      case Auto =>
        if |ts| < 3 || !ts[1].Name? || ts[2] != Equals then None else ParseTail(NewVar(0, ts[1].x), ts[3..])
      case Name(x) =>
        if |ts| < 2 || ts[1] != Equals then None else ParseTail(Existing(x), ts[2..])
      case LBrace =>
        (match ParseBraced(ts[1..])
         case Some(Read(c, after)) => Some(Read(Block(0, c), after))
         case None => None)
      case KwWhile =>
        (match ParseGuarded(ts[1..])
         case Some(Read((e, c), after)) => Some(Read(While(e, 0, c), after))
         case None => None)
      case KwIf => ParseIf(ts[1..])
      case _ => None
  }

  /** Statements up to a closing brace or the end. */
  function ParseCode(ts: seq<Tok>): (r: Option<Read<Code>>)
    ensures r.Some? ==> |r.value.rest| <= |ts|
    decreases |ts|, 1
  {
    if ts == [] || ts[0] == RBrace then Some(Read(End, ts))
    else
      match ParseStmt(ts)
      case Some(Read(s, after)) =>
        (match ParseCode(after)
         case Some(Read(c, end)) => Some(Read(Then(s, c), end))
         case None => None)
      case None => None
  }

  /** A whole body, from brace to brace. */
  function ParseBody(ts: seq<Tok>): Option<Code> {
    if ts == [] || ts[0] != LBrace then None
    else
      match ParseBraced(ts[1..])
      case Some(Read(c, rest)) => if rest == [] then Some(c) else None
      case None => None
  }

  // ----- what was printed is read -----

  function Zero(n: nat): nat { 0 }

  /** The code without its offsets. */
  function Erase(code: Code): Code { NewCode(code, Zero) }

  lemma {:induction false} ReadExpr(e: Expr, rest: seq<Tok>)
    ensures ParseExpr(ExprToks(e) + rest) == Some(Read(e, rest))
  {
    match e
    case Lit(v) => assert ([Number(v)] + rest)[1..] == rest;
    case Var(x) => assert ([Name(x)] + rest)[1..] == rest;
    case Bin(op, l, r) =>
      var end := [RParen] + rest;
      var after := [Operator(op)] + (ExprToks(r) + end);
      assert ExprToks(e) == [LParen] + ExprToks(l) + [Operator(op)] + ExprToks(r) + [RParen];
      ReadExpr(l, after);
      ReadExpr(r, end);
      hide *;
      GlueBin(op, ExprToks(l), ExprToks(r), rest);
      BinIs([LParen] + (ExprToks(l) + after), op, l, r, after, end, rest);
  }

  lemma GlueBin(op: Op, l: seq<Tok>, r: seq<Tok>, rest: seq<Tok>)
    ensures
      var end := [RParen] + rest;
      var after := [Operator(op)] + (r + end);
      var ts := [LParen] + l + [Operator(op)] + r + [RParen] + rest;
      && ts == [LParen] + (l + after) && ([LParen] + (l + after))[1..] == l + after
      && after[1..] == r + end && end[1..] == rest
  {
  }

  lemma BinIs(ts: seq<Tok>, op: Op, l: Expr, r: Expr, after: seq<Tok>, end: seq<Tok>, rest: seq<Tok>)
    requires ts != [] && ts[0] == LParen && ParseExpr(ts[1..]) == Some(Read(l, after))
    requires after != [] && after[0] == Operator(op) && ParseExpr(after[1..]) == Some(Read(r, end))
    requires end != [] && end[0] == RParen && end[1..] == rest
    ensures ParseExpr(ts) == Some(Read(Bin(op, l, r), rest))
  {
  }

  lemma ReadClosed(s: Stmt, rest: seq<Tok>)
    ensures Closed(s, [Semi] + rest) == Some(Read(s, rest))
  {
    assert ([Semi] + rest)[1..] == rest;
  }

  lemma ExprFirst(e: Expr, rest: seq<Tok>)
    ensures
      var ts := ExprToks(e) + rest;
      ts != [] && (ts[0].Number? || ts[0].Name? || ts[0].LParen?)
  {
  }

  lemma HeadOff(k: Tok, a: seq<Tok>, b: seq<Tok>, c: seq<Tok>)
    ensures ([k] + a + b + c)[0] == k && ([k] + a + b + c)[1..] == a + (b + c)
  {
  }

  lemma ReadKeyword(k: Tok, e: Expr, rest: seq<Tok>)
    ensures
      var ts := [k] + ExprToks(e) + [Semi] + rest;
      ts[0] == k && ParseExpr(ts[1..]) == Some(Read(e, [Semi] + rest))
  {
    hide *;
    ReadExpr(e, [Semi] + rest);
    HeadOff(k, ExprToks(e), [Semi], rest);
  }

  /** What follows a target: an await, */
  lemma ReadAwaitTail(to: Target, e: Expr, rest: seq<Tok>)
    ensures ParseTail(to, [KwAwait] + ExprToks(e) + [Semi] + rest) == Some(Read(Await(0, to, e), rest))
  {
    ReadKeyword(KwAwait, e, rest);
    ReadClosed(Await(0, to, e), rest);
    hide ParseExpr, ExprToks, Closed;
  }

  /** an await that may be bypassed, */
  lemma ReadTakeTail(to: Target, e: Expr, rest: seq<Tok>)
    ensures ParseTail(to, [Ternary(e), Semi] + rest) == Some(Read(Take(0, to, e), rest))
  {
    assert ([Ternary(e), Semi] + rest)[1..] == [Semi] + rest;
    ReadClosed(Take(0, to, e), rest);
    hide ParseExpr, Closed;
  }

  /** or an expression. */
  lemma ReadExprTail(to: Target, e: Expr, rest: seq<Tok>)
    ensures
      var ts := ExprToks(e) + ([Semi] + rest);
      && (to.NewVar? ==> ParseTail(to, ts) == Some(Read(Decl(0, to.x, e), rest)))
      && (to.Existing? ==> ParseTail(to, ts) == Some(Read(Assign(to.x, e), rest)))
  {
    hide ParseExpr, ExprToks, Closed;
    ReadExpr(e, [Semi] + rest);
    ExprFirst(e, [Semi] + rest);
    if to.NewVar? { ReadClosed(Decl(0, to.x, e), rest); }
    if to.Existing? { ReadClosed(Assign(to.x, e), rest); }
  }

  /** Statements without other statements inside. */
  lemma ReadSimple(s: Stmt, rest: seq<Tok>)
    requires !s.Block? && !s.If? && !s.While?
    ensures ParseStmt(StmtToks(s) + rest) == Some(Read(NewStmt(s, Zero), rest))
  {
    match s
    case Decl(_, x, e) => ReadDecl(s, rest);
    case Assign(x, e) => ReadAssign(s, rest);
    case Emit(e) => ReadOut(s, rest);
    case Return(e) => ReadOut(s, rest);
    case Await(_, to, e) => ReadAwait(s, to, e, [KwAwait] + ExprToks(e) + [Semi], rest);
    case Take(_, to, e) => ReadAwait(s, to, e, [Ternary(e), Semi], rest);
    case _ => ReadInserted(s, rest);
  }

  lemma ReadDecl(s: Stmt, rest: seq<Tok>)
    requires s.Decl?
    ensures ParseStmt(StmtToks(s) + rest) == Some(Read(NewStmt(s, Zero), rest))
  {
    var ts, tail := StmtToks(s) + rest, ExprToks(s.e) + ([Semi] + rest);
    assert StmtToks(s) == [Auto, Name(s.x), Equals] + ExprToks(s.e) + [Semi];
    hide ParseExpr, ExprToks, ParseTail, StmtToks;
    ReadExprTail(NewVar(0, s.x), s.e, rest);
    Regroup3([Auto, Name(s.x), Equals], ExprToks(s.e), [Semi], rest);
  }

  lemma Regroup3(a: seq<Tok>, b: seq<Tok>, c: seq<Tok>, d: seq<Tok>)
    ensures a + b + c + d == a + (b + (c + d)) && (a + b + c + d)[|a|..] == b + (c + d)
  {
  }

  lemma ReadAssign(s: Stmt, rest: seq<Tok>)
    requires s.Assign?
    ensures ParseStmt(StmtToks(s) + rest) == Some(Read(NewStmt(s, Zero), rest))
  {
    assert StmtToks(s) == [Name(s.x), Equals] + ExprToks(s.e) + [Semi];
    hide ParseExpr, ExprToks, ParseTail, StmtToks;
    ReadExprTail(Existing(s.x), s.e, rest);
    Regroup3([Name(s.x), Equals], ExprToks(s.e), [Semi], rest);
  }

  lemma ReadOut(s: Stmt, rest: seq<Tok>)
    requires s.Emit? || s.Return?
    ensures ParseStmt(StmtToks(s) + rest) == Some(Read(NewStmt(s, Zero), rest))
  {
    var k := if s.Emit? then KwOut else KwReturn;
    assert StmtToks(s) == [k] + ExprToks(s.e) + [Semi] && NewStmt(s, Zero) == s;
    hide *;
    ReadKeyword(k, s.e, rest);
    OutIs([k] + ExprToks(s.e) + [Semi] + rest, s, rest);
  }

  lemma OutIs(ts: seq<Tok>, s: Stmt, rest: seq<Tok>)
    requires s.Emit? || s.Return?
    requires ts != [] && ts[0] == (if s.Emit? then KwOut else KwReturn)
    requires ParseExpr(ts[1..]) == Some(Read(s.e, [Semi] + rest))
    ensures ParseStmt(ts) == Some(Read(s, rest))
  {
    ReadClosed(s, rest);
    hide ParseExpr, ParseTail, Closed;
  }

  lemma ReadInserted(s: Stmt, rest: seq<Tok>)
    requires s.Dispatch? || s.Label? || s.Save? || s.Load? || s.Resize?
    ensures ParseStmt(StmtToks(s) + rest) == Some(Read(NewStmt(s, Zero), rest))
  {
    hide ParseExpr, ParseTail, Closed;
    var ts := StmtToks(s) + rest;
    if s.Dispatch? || s.Label? {
      assert ts[1..] == rest;
    } else {
      assert ts[1..] == [Semi] + rest;
      ReadClosed(s, rest);
    }
  }

  lemma ReadAwait(s: Stmt, to: Target, e: Expr, tail: seq<Tok>, rest: seq<Tok>)
    requires (s.Await? && tail == [KwAwait] + ExprToks(e) + [Semi]) || (s.Take? && tail == [Ternary(e), Semi])
    requires s.to == to && s.e == e
    ensures ParseStmt(StmtToks(s) + rest) == Some(Read(NewStmt(s, Zero), rest))
  {
    var ts := tail + rest;
    if s.Await? { ReadAwaitTail(NewTarget(to), e, rest); } else { ReadTakeTail(NewTarget(to), e, rest); }
    assert StmtToks(s) == TargetToks(to) + tail;
    assert NewStmt(s, Zero) == if s.Await? then Await(0, NewTarget(to), e) else Take(0, NewTarget(to), e);
    assert ts[0].KwAwait? || ts[0].Ternary?;
    hide *;
    ReadTarget(to, ts);
    Joined(TargetToks(to), tail, rest);
  }

  lemma Joined(a: seq<Tok>, b: seq<Tok>, c: seq<Tok>)
    ensures a + b + c == a + (b + c)
  {
  }

  /** A statement beginning with a target is read as what the target gets. */
  lemma ReadTarget(to: Target, ts: seq<Tok>)
    requires ts != [] && (ts[0].KwAwait? || ts[0].Ternary?)
    ensures ParseStmt(TargetToks(to) + ts) == ParseTail(NewTarget(to), ts)
  {
    var all := TargetToks(to) + ts;
    hide ParseTail, ParseExpr;
    match to
    case Discard => assert all == ts;
    case NewVar(_, x) => assert all[3..] == ts;
    case Existing(x) => assert all[2..] == ts;
  }

  lemma StmtFirst(s: Stmt, rest: seq<Tok>)
    ensures StmtToks(s) + rest != [] && (StmtToks(s) + rest)[0] != RBrace
  {
    if s.Await? || s.Take? { assert |TargetToks(s.to)| >= 0; }
  }

  lemma {:induction false} ReadStmt(s: Stmt, rest: seq<Tok>)
    ensures ParseStmt(StmtToks(s) + rest) == Some(Read(NewStmt(s, Zero), rest))
    decreases s
  {
    match s
    case Block(_, b) =>
      ReadBraced(b, rest);
      ReadBlock(s, rest);
    case While(c, _, b) =>
      ReadBraced(b, rest);
      ReadWhile(s, rest);
    case If(c, _, t, _, e) =>
      ReadBraced(t, [KwElse, LBrace] + Toks(e) + [RBrace] + rest);
      ReadBraced(e, rest);
      ReadIf(s, rest);
    case _ => ReadSimple(s, rest);
  }

  lemma ReadBlock(s: Stmt, rest: seq<Tok>)
    requires s.Block? && ParseBraced(Toks(s.body) + [RBrace] + rest) == Some(Read(Erase(s.body), rest))
    ensures ParseStmt(StmtToks(s) + rest) == Some(Read(NewStmt(s, Zero), rest))
  {
    assert StmtToks(s) == [LBrace] + Toks(s.body) + [RBrace] && NewStmt(s, Zero) == Block(0, Erase(s.body));
    hide *;
    HeadOff(LBrace, Toks(s.body), [RBrace], rest);
    Joined(Toks(s.body), [RBrace], rest);
    BlockIs([LBrace] + Toks(s.body) + [RBrace] + rest, Erase(s.body), rest);
  }

  lemma BlockIs(ts: seq<Tok>, c: Code, rest: seq<Tok>)
    requires ts != [] && ts[0] == LBrace && ParseBraced(ts[1..]) == Some(Read(c, rest))
    ensures ParseStmt(ts) == Some(Read(Block(0, c), rest))
  {
    hide ParseBraced, ParseGuarded, ParseIf, ParseTail, ParseExpr;
  }

  lemma ReadWhile(s: Stmt, rest: seq<Tok>)
    requires s.While? && ParseBraced(Toks(s.body) + [RBrace] + rest) == Some(Read(Erase(s.body), rest))
    ensures ParseStmt(StmtToks(s) + rest) == Some(Read(NewStmt(s, Zero), rest))
  {
    var ts, c := StmtToks(s) + rest, Erase(s.body);
    assert NewStmt(s, Zero) == While(s.c, 0, c);
    assert StmtToks(s) == [KwWhile] + ExprToks(s.c) + [LBrace] + Toks(s.body) + [RBrace];
    ReadGuarded(s.c, s.body, rest);
    hide *;
    GuardedToks(KwWhile, ExprToks(s.c), Toks(s.body), [RBrace], rest);
    WhileIs(ts, s.c, c, rest);
  }

  lemma GuardedToks(k: Tok, e: seq<Tok>, b: seq<Tok>, end: seq<Tok>, rest: seq<Tok>)
    ensures
      var ts := [k] + e + [LBrace] + b + end + rest;
      ts[0] == k && ts[1..] == e + [LBrace] + b + end + rest
  {
  }

  lemma WhileIs(ts: seq<Tok>, e: Expr, c: Code, rest: seq<Tok>)
    requires ts != [] && ts[0] == KwWhile && ParseGuarded(ts[1..]) == Some(Read((e, c), rest))
    ensures ParseStmt(ts) == Some(Read(While(e, 0, c), rest))
  {
    hide ParseBraced, ParseGuarded, ParseIf, ParseTail, ParseExpr;
  }

  lemma ReadIf(s: Stmt, rest: seq<Tok>)
    requires s.If? && ParseBraced(Toks(s.els) + [RBrace] + rest) == Some(Read(Erase(s.els), rest))
    requires
      var after := [KwElse, LBrace] + Toks(s.els) + [RBrace] + rest;
      ParseBraced(Toks(s.thn) + [RBrace] + after) == Some(Read(Erase(s.thn), after))
    ensures ParseStmt(StmtToks(s) + rest) == Some(Read(NewStmt(s, Zero), rest))
  {
    var ts, t, e := StmtToks(s) + rest, Erase(s.thn), Erase(s.els);
    var after := [KwElse, LBrace] + Toks(s.els) + [RBrace] + rest;
    assert NewStmt(s, Zero) == If(s.c, 0, t, 0, e);
    assert StmtToks(s) == ([KwIf] + ExprToks(s.c) + [LBrace]) + Toks(s.thn)
        + ([RBrace, KwElse, LBrace] + Toks(s.els) + [RBrace]);
    ReadGuarded(s.c, s.thn, after);
    hide *;
    IfToks(ExprToks(s.c), Toks(s.thn), Toks(s.els), rest);
    IfIs(ts, s.c, t, e, after, rest);
  }

  lemma IfToks(c: seq<Tok>, t: seq<Tok>, e: seq<Tok>, rest: seq<Tok>)
    ensures
      var after := [KwElse, LBrace] + e + [RBrace] + rest;
      var ts := ([KwIf] + c + [LBrace]) + t + ([RBrace, KwElse, LBrace] + e + [RBrace]) + rest;
      && ts[0] == KwIf && ts[1..] == c + [LBrace] + t + [RBrace] + after
      && [KwElse, LBrace] <= after && after[2..] == e + [RBrace] + rest
  {
    var after := [KwElse, LBrace] + e + [RBrace] + rest;
    assert ([RBrace, KwElse, LBrace] + e + [RBrace]) + rest == [RBrace] + after;
    assert after[..2] == [KwElse, LBrace];
  }

  lemma IfIs(ts: seq<Tok>, c: Expr, t: Code, e: Code, after: seq<Tok>, rest: seq<Tok>)
    requires ts != [] && ts[0] == KwIf && ParseGuarded(ts[1..]) == Some(Read((c, t), after))
    requires [KwElse, LBrace] <= after && ParseBraced(after[2..]) == Some(Read(e, rest))
    ensures ParseStmt(ts) == Some(Read(If(c, 0, t, 0, e), rest))
  {
    hide ParseBraced, ParseGuarded, ParseTail, ParseExpr;
  }

  lemma {:induction false} ReadBraced(c: Code, rest: seq<Tok>)
    ensures ParseBraced(Toks(c) + [RBrace] + rest) == Some(Read(Erase(c), rest))
    decreases c, 1
  {
    hide *;
    ReadCode(c, [RBrace] + rest);
    BracedIs(Toks(c) + ([RBrace] + rest), Erase(c), rest);
    Joined(Toks(c), [RBrace], rest);
  }

  lemma BracedIs(ts: seq<Tok>, c: Code, rest: seq<Tok>)
    requires ParseCode(ts) == Some(Read(c, [RBrace] + rest))
    ensures ParseBraced(ts) == Some(Read(c, rest))
  {
    hide ParseCode;
    assert ([RBrace] + rest)[1..] == rest;
  }

  lemma ReadGuarded(e: Expr, c: Code, rest: seq<Tok>)
    requires ParseBraced(Toks(c) + [RBrace] + rest) == Some(Read(Erase(c), rest))
    ensures ParseGuarded(ExprToks(e) + [LBrace] + Toks(c) + [RBrace] + rest) == Some(Read((e, Erase(c)), rest))
  {
    var body := Toks(c) + [RBrace] + rest;
    var after := [LBrace] + body;
    ReadExpr(e, after);
    hide Toks, ExprToks, ParseExpr, ParseBraced, NewCode;
    assert ExprToks(e) + [LBrace] + Toks(c) + [RBrace] + rest == ExprToks(e) + after && after[1..] == body;
  }

  lemma {:induction false} ReadCode(c: Code, rest: seq<Tok>)
    requires rest == [] || rest[0] == RBrace
    ensures ParseCode(Toks(c) + rest) == Some(Read(Erase(c), rest))
    decreases c, 0
  {
    match c
    case End => assert Toks(End) + rest == rest;
    case Then(s, r) =>
      ReadStmt(s, Toks(r) + rest);
      ReadCode(r, rest);
      ReadThen(s, r, rest);
  }

  lemma ReadThen(s: Stmt, r: Code, rest: seq<Tok>)
    requires ParseStmt(StmtToks(s) + (Toks(r) + rest)) == Some(Read(NewStmt(s, Zero), Toks(r) + rest))
    requires ParseCode(Toks(r) + rest) == Some(Read(Erase(r), rest))
    ensures ParseCode(Toks(Then(s, r)) + rest) == Some(Read(Erase(Then(s, r)), rest))
  {
    assert Toks(Then(s, r)) == StmtToks(s) + Toks(r) && Erase(Then(s, r)) == Then(NewStmt(s, Zero), Erase(r));
    hide *;
    var after := Toks(r) + rest;
    StmtFirst(s, after);
    ThenIs(StmtToks(s) + after, NewStmt(s, Zero), after, Erase(r), rest);
    Joined(StmtToks(s), Toks(r), rest);
  }

  lemma ThenIs(ts: seq<Tok>, s: Stmt, after: seq<Tok>, c: Code, rest: seq<Tok>)
    requires ts != [] && ts[0] != RBrace && ParseStmt(ts) == Some(Read(s, after))
        && ParseCode(after) == Some(Read(c, rest))
    ensures ParseCode(ts) == Some(Read(Then(s, c), rest))
  {
    hide ParseStmt;
  }

  /** The body is read from its text, but for its offsets. */
  lemma BodyIsRead(c: Code)
    ensures ParseBody(BodyToks(c)) == Some(Erase(c))
  {
    ReadBraced(c, []);
    assert BodyToks(c)[1..] == Toks(c) + [RBrace] + [];
  }
}
