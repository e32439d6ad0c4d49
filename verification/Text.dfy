/** Token text of a coroutine.  Inserting the pieces at the source offsets of the awaits gives
    exactly the text of the rewritten code. */
module Text {
  import opened Language
  import opened Points
  import opened Rewrite
  import opened Buffer

  datatype Tok =
    | Number(v: int) | Name(x: string) | Operator(op: Op) | LParen | RParen
    | Auto | Equals | Semi | LBrace | RBrace | KwIf | KwElse | KwWhile | KwOut | KwAwait | KwReturn
    | Blank  // white space, line breaks and comments
    // inserted
    | JumpTable(table: seq<nat>) | SaveCall(n: nat, vars: seq<string>) | LabelMark(n: nat)
    | LoadCall(vars: seq<string>) | ResizeCall | Ternary(e: Expr)

  function ExprToks(e: Expr): seq<Tok> {
    match e
    case Lit(v) => [Number(v)]
    case Var(x) => [Name(x)]
    case Bin(op, l, r) => [LParen] + ExprToks(l) + [Operator(op)] + ExprToks(r) + [RParen]
  }

  function TargetToks(to: Target): seq<Tok> {
    match to
    case Discard => []
    case NewVar(_, x) => [Auto, Name(x), Equals]
    case Existing(x) => [Name(x), Equals]
  }

  function StmtToks(s: Stmt): seq<Tok> {
    match s
    case Decl(_, x, e) => [Auto, Name(x), Equals] + ExprToks(e) + [Semi]
    case Assign(x, e) => [Name(x), Equals] + ExprToks(e) + [Semi]
    case Emit(e) => [KwOut] + ExprToks(e) + [Semi]
    case Block(_, b) => [LBrace] + Toks(b) + [RBrace]
    case If(c, _, t, _, e) =>
      ([KwIf] + ExprToks(c) + [LBrace]) + Toks(t) + ([RBrace, KwElse, LBrace] + Toks(e) + [RBrace])
    case While(c, _, b) => ([KwWhile] + ExprToks(c) + [LBrace]) + Toks(b) + [RBrace]
    case Await(_, to, e) => TargetToks(to) + ([KwAwait] + ExprToks(e) + [Semi])
    case Return(e) => [KwReturn] + ExprToks(e) + [Semi]
    case Dispatch(table) => [JumpTable(table)]
    case Save(n, vars) => [SaveCall(n, vars), Semi]
    case Resize => [ResizeCall, Semi]
    case Label(n) => [LabelMark(n)]
    case Load(vars) => [LoadCall(vars), Semi]
    case Take(_, to, e) => TargetToks(to) + [Ternary(e), Semi]
  }

  function Toks(code: Code): seq<Tok> {
    match code
    case End => []
    case Then(s, rest) => StmtToks(s) + Toks(rest)
  }

  /** A function body with its braces. */
  function BodyToks(code: Code): seq<Tok> {
    [LBrace] + Toks(code) + [RBrace]
  }

  // ----- finding the end of an await statement -----

  /** Offset of the first semicolon after the token at `o`. */
  function SemiAfter(ts: seq<Tok>, o: nat): (r: nat)
    requires exists k :: o < k < |ts| && ts[k] == Semi
    ensures o < r < |ts| && ts[r] == Semi
    ensures forall k :: o < k < r ==> ts[k] != Semi
    decreases |ts| - o
  {
    if ts[o + 1] != Semi then SemiAfter(ts, o + 1) else o + 1
  }

  lemma {:induction false} NoSemi(e: Expr)
    ensures Semi !in ExprToks(e) && |ExprToks(e)| > 0
  {
    match e
    case Lit(_) =>
    case Var(_) =>
    case Bin(_, l, r) => NoSemi(l); NoSemi(r);
  }

  // ----- offsets in the text -----

  /** Awaits carry the offset of their token when the code is printed from offset `lo` on. */
  predicate PlacedStmt(s: Stmt, lo: nat) {
    match s
    case Block(_, b) => Placed(b, lo + 1)
    case If(c, _, t, _, e) =>
      Placed(t, lo + 2 + |ExprToks(c)|) && Placed(e, lo + 2 + |ExprToks(c)| + |Toks(t)| + 3)
    case While(c, _, b) => Placed(b, lo + 2 + |ExprToks(c)|)
    case Await(at, to, _) => at == lo + |TargetToks(to)|
    case _ => true
  }

  predicate Placed(code: Code, lo: nat) {
    match code
    case End => true
    case Then(s, rest) => PlacedStmt(s, lo) && Placed(rest, lo + |StmtToks(s)|)
  }

  /** Offset just behind the statement of await `id`. */
  function StmtBehind(s: Stmt, id: nat): nat {
    match s
    case Block(_, b) => Behind(b, id)
    case If(_, _, t, _, e) => if id in Ids(t) then Behind(t, id) else Behind(e, id)
    case While(_, _, b) => Behind(b, id)
    case Await(at, _, e) => at + |ExprToks(e)| + 2
    case _ => 0
  }

  function Behind(code: Code, id: nat): nat {
    match code
    case End => 0
    case Then(s, rest) => if id in StmtIds(s) then StmtBehind(s, id) else Behind(rest, id)
  }

  lemma {:induction false} StmtRange(s: Stmt, lo: nat, id: nat)
    requires IsUserStmt(s) && PlacedStmt(s, lo) && id in StmtIds(s)
    ensures lo <= id < StmtBehind(s, id) <= lo + |StmtToks(s)|
    ensures s.Block? || s.If? || s.While? ==> lo < id && StmtBehind(s, id) < lo + |StmtToks(s)|
    decreases s
  {
    match s
    case Block(_, b) => CodeRange(b, lo + 1, id);
    case If(c, _, t, _, e) =>
      if id in Ids(t) { CodeRange(t, lo + 2 + |ExprToks(c)|, id); }
      else { CodeRange(e, lo + 2 + |ExprToks(c)| + |Toks(t)| + 3, id); }
    case While(c, _, b) => CodeRange(b, lo + 2 + |ExprToks(c)|, id);
    case _ =>
  }

  lemma {:induction false} CodeRange(code: Code, lo: nat, id: nat)
    requires IsUser(code) && Placed(code, lo) && id in Ids(code)
    ensures lo <= id < Behind(code, id) <= lo + |Toks(code)|
    decreases code
  {
    var Then(s, rest) := code;
    if id in StmtIds(s) { StmtRange(s, lo, id); }
    else { CodeRange(rest, lo + |StmtToks(s)|, id); }
  }

  /** Awaits do not overlap. */
  lemma {:induction false} StmtApart(s: Stmt, lo: nat, a: nat, b: nat)
    requires IsUserStmt(s) && PlacedStmt(s, lo) && a in StmtIds(s) && b in StmtIds(s) && a < b
    ensures StmtBehind(s, a) <= b
    decreases s
  {
    match s
    case Block(_, c) => CodeApart(c, lo + 1, a, b);
    case If(c, _, t, _, e) =>
      var tLo := lo + 2 + |ExprToks(c)|;
      var eLo := tLo + |Toks(t)| + 3;
      if a in Ids(t) { CodeRange(t, tLo, a); } else { CodeRange(e, eLo, a); }
      if b in Ids(t) { CodeRange(t, tLo, b); } else { CodeRange(e, eLo, b); }
      if a in Ids(t) && b in Ids(t) { CodeApart(t, tLo, a, b); }
      if a !in Ids(t) && b !in Ids(t) { CodeApart(e, eLo, a, b); }
    case While(c, _, d) => CodeApart(d, lo + 2 + |ExprToks(c)|, a, b);
    case _ =>
  }

  lemma {:induction false} CodeApart(code: Code, lo: nat, a: nat, b: nat)
    requires IsUser(code) && Placed(code, lo) && a in Ids(code) && b in Ids(code) && a < b
    ensures Behind(code, a) <= b
    decreases code
  {
    var Then(s, rest) := code;
    var mid := lo + |StmtToks(s)|;
    if a in StmtIds(s) { StmtRange(s, lo, a); } else { CodeRange(rest, mid, a); }
    if b in StmtIds(s) { StmtRange(s, lo, b); } else { CodeRange(rest, mid, b); }
    if a in StmtIds(s) && b in StmtIds(s) { StmtApart(s, lo, a, b); }
    if a !in StmtIds(s) && b !in StmtIds(s) { CodeApart(rest, mid, a, b); }
  }

  // ----- the insertions -----

  function SavePiece(ss: seq<Stage>, i: nat): seq<Tok>
    requires i < |ss|
  {
    [SaveCall(i + 1, ss[i].vars), Semi]
  }

  function LoadPiece(ss: seq<Stage>, i: nat): seq<Tok>
    requires i < |ss|
  {
    [LabelMark(i + 1), LoadCall(ss[i].vars), Semi]
  }

  function PreamblePiece(ss: seq<Stage>): seq<Tok> {
    [JumpTable(Table(|ss|)), LabelMark(0)]
  }

  /** The insertions in the order they are made: the preamble, then for each stage in turn its
      save at the await and its load at `ends`, behind the statement. */
  function Edits(ss: seq<Stage>, ends: seq<nat>, k: nat): seq<Edit<Tok>>
    requires k <= |ss| == |ends|
  {
    if k == 0 then [Edit(1, PreamblePiece(ss))]
    else Edits(ss, ends, k - 1) + [Edit(ss[k - 1].aw, SavePiece(ss, k - 1))] + [Edit(ends[k - 1], LoadPiece(ss, k - 1))]
  }

  /** The insertions with all loads before all saves. */
  function LoadsFirst(ss: seq<Stage>, ends: seq<nat>, k: nat): seq<Edit<Tok>>
    requires k <= |ss| == |ends|
  {
    if k == 0 then [Edit(1, PreamblePiece(ss))]
    else LoadsFirst(ss, ends, k - 1) + [Edit(ends[k - 1], LoadPiece(ss, k - 1))]
  }

  function SavesAfter(ss: seq<Stage>, ends: seq<nat>, k: nat): seq<Edit<Tok>>
    requires k <= |ss| == |ends|
  {
    if k == 0 then LoadsFirst(ss, ends, |ss|)
    else SavesAfter(ss, ends, k - 1) + [Edit(ss[k - 1].aw, SavePiece(ss, k - 1))]
  }

  function PreHere(ss: seq<Stage>, o: nat): seq<Tok> {
    if o == 1 then PreamblePiece(ss) else []
  }

  function SaveHere(ss: seq<Stage>, k: nat, o: nat): seq<Tok>
    requires k <= |ss|
  {
    if k == 0 then [] else SaveHere(ss, k - 1, o) + if ss[k - 1].aw == o then SavePiece(ss, k - 1) else []
  }

  function LoadHere(ss: seq<Stage>, ends: seq<nat>, k: nat, o: nat): seq<Tok>
    requires k <= |ss| == |ends|
  {
    if k == 0 then [] else LoadHere(ss, ends, k - 1, o) + if ends[k - 1] == o then LoadPiece(ss, k - 1) else []
  }

  /** Where one statement's load and the next statement's save share an offset, the stage of the
      former was visited first. */
  ghost predicate InOrder(ss: seq<Stage>, ends: seq<nat>)
    requires |ss| == |ends|
  {
    forall i, k :: 0 <= i < |ss| && 0 <= k < |ss| && ends[i] == ss[k].aw ==> i < k
  }

  /** Each await ends behind where it begins, and no two begin or end at the same place. */
  ghost predicate Sites(ss: seq<Stage>, ends: seq<nat>) {
    && |ss| == |ends|
    && (forall i :: 0 <= i < |ss| ==> ss[i].aw < ends[i])
    && (forall i, k :: 0 <= i < k < |ss| ==> ss[i].aw != ss[k].aw && ends[i] != ends[k])
  }

  lemma EditsBase(ss: seq<Stage>, ends: seq<nat>, o: nat)
    requires |ss| == |ends|
    ensures Pieces(Edits(ss, ends, 0), o) == PreHere(ss, o)
    ensures Pieces(LoadsFirst(ss, ends, 0), o) == PreHere(ss, o)
  {
    var e := Edit(1, PreamblePiece(ss));
    assert [e][..0] == [];
    assert Pieces([e], o) == Pieces([e][..0], o) + if o == 1 then e.text else [];
  }

  lemma EditsStep(ss: seq<Stage>, ends: seq<nat>, k: nat, o: nat)
    requires 0 < k <= |ss| == |ends|
    ensures Pieces(Edits(ss, ends, k), o) == Pieces(Edits(ss, ends, k - 1), o)
      + (if ss[k - 1].aw == o then SavePiece(ss, k - 1) else [])
      + (if ends[k - 1] == o then LoadPiece(ss, k - 1) else [])
  {
    var es := Edits(ss, ends, k - 1);
    var save, load := Edit(ss[k - 1].aw, SavePiece(ss, k - 1)), Edit(ends[k - 1], LoadPiece(ss, k - 1));
    PiecesAppend(es, save, o);
    PiecesAppend(es + [save], load, o);
    hide Pieces;
  }

  lemma {:induction false} PiecesSize(ss: seq<Stage>, ends: seq<nat>, k: nat, o: nat)
    requires k <= |ss| == |ends|
    ensures |Pieces(Edits(ss, ends, k), o)| == |PreHere(ss, o)| + |LoadHere(ss, ends, k, o)| + |SaveHere(ss, k, o)|
    decreases k
  {
    hide Pieces, Edits, SavePiece, LoadPiece, PreHere;
    if k == 0 {
      EditsBase(ss, ends, o);
    } else {
      PiecesSize(ss, ends, k - 1, o);
      EditsStep(ss, ends, k, o);
    }
  }

  lemma Regroup(p: seq<Tok>, l: seq<Tok>, s: seq<Tok>, save: seq<Tok>, load: seq<Tok>)
    requires load != [] ==> s == [] && save == []
    ensures p + l + s + save + load == p + (l + load) + (s + save)
  {
  }

  lemma {:induction false} PiecesSplit(ss: seq<Stage>, ends: seq<nat>, k: nat, o: nat)
    requires Sites(ss, ends) && InOrder(ss, ends) && k <= |ss|
    ensures Pieces(Edits(ss, ends, k), o) == PreHere(ss, o) + LoadHere(ss, ends, k, o) + SaveHere(ss, k, o)
    decreases k
  {
    if k == 0 {
      EditsBase(ss, ends, o);
    } else {
      PiecesSplit(ss, ends, k - 1, o);
      SplitStep(ss, ends, k, o);
    }
  }

  lemma SplitStep(ss: seq<Stage>, ends: seq<nat>, k: nat, o: nat)
    requires Sites(ss, ends) && InOrder(ss, ends) && 0 < k <= |ss|
    requires Pieces(Edits(ss, ends, k - 1), o) == PreHere(ss, o) + LoadHere(ss, ends, k - 1, o) + SaveHere(ss, k - 1, o)
    ensures Pieces(Edits(ss, ends, k), o) == PreHere(ss, o) + LoadHere(ss, ends, k, o) + SaveHere(ss, k, o)
  {
    EditsStep(ss, ends, k, o);
    var p, l, s := PreHere(ss, o), LoadHere(ss, ends, k - 1, o), SaveHere(ss, k - 1, o);
    var save := if ss[k - 1].aw == o then SavePiece(ss, k - 1) else [];
    var load := if ends[k - 1] == o then LoadPiece(ss, k - 1) else [];
    assert LoadHere(ss, ends, k, o) == l + load && SaveHere(ss, k, o) == s + save;
    if ends[k - 1] == o { NoSaveHere(ss, k - 1, o); }
    hide Pieces, Edits, PreHere, LoadHere, SaveHere, SavePiece, LoadPiece, InOrder, Sites;
    Regroup(p, l, s, save, load);
  }

  lemma {:induction false} NoSaveHere(ss: seq<Stage>, k: nat, o: nat)
    requires k <= |ss| && forall i :: 0 <= i < k ==> ss[i].aw != o
    ensures SaveHere(ss, k, o) == []
  {
    if k > 0 { NoSaveHere(ss, k - 1, o); }
  }

  lemma {:induction false} NoLoadHere(ss: seq<Stage>, ends: seq<nat>, k: nat, o: nat)
    requires k <= |ss| == |ends| && forall i :: 0 <= i < k ==> ends[i] != o
    ensures LoadHere(ss, ends, k, o) == []
  {
    if k > 0 { NoLoadHere(ss, ends, k - 1, o); }
  }

  lemma {:induction false} OneSaveHere(ss: seq<Stage>, ends: seq<nat>, k: nat, i: nat)
    requires Sites(ss, ends) && i < k <= |ss|
    ensures SaveHere(ss, k, ss[i].aw) == SavePiece(ss, i)
  {
    if i == k - 1 { NoSaveHere(ss, k - 1, ss[i].aw); } else { OneSaveHere(ss, ends, k - 1, i); }
  }

  lemma {:induction false} OneLoadHere(ss: seq<Stage>, ends: seq<nat>, k: nat, i: nat)
    requires Sites(ss, ends) && i < k <= |ss|
    ensures LoadHere(ss, ends, k, ends[i]) == LoadPiece(ss, i)
  {
    if i == k - 1 { NoLoadHere(ss, ends, k - 1, ends[i]); } else { OneLoadHere(ss, ends, k - 1, i); }
  }

  lemma {:induction false} LoadsFirstSplit(ss: seq<Stage>, ends: seq<nat>, k: nat, o: nat)
    requires k <= |ss| == |ends|
    ensures Pieces(LoadsFirst(ss, ends, k), o) == PreHere(ss, o) + LoadHere(ss, ends, k, o)
    decreases k
  {
    if k == 0 {
      EditsBase(ss, ends, o);
    } else {
      LoadsFirstSplit(ss, ends, k - 1, o);
      PiecesAppend(LoadsFirst(ss, ends, k - 1), Edit(ends[k - 1], LoadPiece(ss, k - 1)), o);
      hide Pieces, PreHere, LoadPiece;
      Assoc(PreHere(ss, o), LoadHere(ss, ends, k - 1, o), if ends[k - 1] == o then LoadPiece(ss, k - 1) else []);
    }
  }

  lemma {:induction false} SavesAfterSplit(ss: seq<Stage>, ends: seq<nat>, k: nat, o: nat)
    requires k <= |ss| == |ends|
    ensures Pieces(SavesAfter(ss, ends, k), o) == PreHere(ss, o) + LoadHere(ss, ends, |ss|, o) + SaveHere(ss, k, o)
    decreases k
  {
    if k == 0 {
      LoadsFirstSplit(ss, ends, |ss|, o);
    } else {
      SavesAfterSplit(ss, ends, k - 1, o);
      PiecesAppend(SavesAfter(ss, ends, k - 1), Edit(ss[k - 1].aw, SavePiece(ss, k - 1)), o);
      hide Pieces, PreHere, SavePiece, LoadHere;
      Assoc(PreHere(ss, o) + LoadHere(ss, ends, |ss|, o), SaveHere(ss, k - 1, o),
          if ss[k - 1].aw == o then SavePiece(ss, k - 1) else []);
    }
  }

  lemma EditSizes(ss: seq<Stage>, ends: seq<nat>, n: nat)
    requires Sites(ss, ends)
    ensures SameSizes(Edits(ss, ends, |ss|), SavesAfter(ss, ends, |ss|), 0, n)
  {
    forall o | 0 <= o <= n ensures |Pieces(Edits(ss, ends, |ss|), o)| == |Pieces(SavesAfter(ss, ends, |ss|), o)| {
      PiecesSize(ss, ends, |ss|, o);
      SavesAfterSplit(ss, ends, |ss|, o);
      hide *;
    }
  }

  lemma EditsAlike(ss: seq<Stage>, ends: seq<nat>, n: nat)
    requires Sites(ss, ends) && InOrder(ss, ends)
    ensures SamePieces(Edits(ss, ends, |ss|), SavesAfter(ss, ends, |ss|), 0, n)
  {
    forall o | 0 <= o <= n ensures Pieces(Edits(ss, ends, |ss|), o) == Pieces(SavesAfter(ss, ends, |ss|), o) {
      PiecesSplit(ss, ends, |ss|, o);
      SavesAfterSplit(ss, ends, |ss|, o);
      hide *;
    }
  }

  lemma WrongOrder(ss: seq<Stage>, ends: seq<nat>, i: nat, k: nat)
    requires Sites(ss, ends) && k <= i < |ss| && ends[i] == ss[k].aw
    ensures Pieces(Edits(ss, ends, |ss|), ends[i]) != Pieces(SavesAfter(ss, ends, |ss|), ends[i])
  {
    SavesAfterSplit(ss, ends, |ss|, ends[i]);
    OneLoadHere(ss, ends, |ss|, i);
    SaveComesFirst(ss, ends, |ss|, i, k);
    hide Pieces, Edits, SavesAfter, LoadHere, SaveHere;
    var n, p, p' := |PreHere(ss, ends[i])|, Pieces(Edits(ss, ends, |ss|), ends[i]),
        Pieces(SavesAfter(ss, ends, |ss|), ends[i]);
    assert (PreHere(ss, ends[i]) + SavePiece(ss, k))[n] == SaveCall(k + 1, ss[k].vars);
    assert p[n] == SaveCall(k + 1, ss[k].vars);
    assert p'[n] == LabelMark(i + 1);
  }

  /** Visited in the wrong order, the save stands before the label. */
  lemma {:induction false} SaveComesFirst(ss: seq<Stage>, ends: seq<nat>, n: nat, i: nat, k: nat)
    requires Sites(ss, ends) && k < i < n <= |ss| && ends[i] == ss[k].aw
    ensures PreHere(ss, ends[i]) + SavePiece(ss, k) <= Pieces(Edits(ss, ends, n), ends[i])
    decreases n
  {
    var o := ends[i];
    EditsStep(ss, ends, n, o);
    hide Pieces, Edits, PreHere;
    if i < n - 1 {
      SaveComesFirst(ss, ends, n - 1, i, k);
    } else {
      NoLoadsYet(ss, ends, n - 1, o);
      OneSaveHere(ss, ends, n - 1, k);
    }
  }

  lemma {:induction false} NoLoadsYet(ss: seq<Stage>, ends: seq<nat>, n: nat, o: nat)
    requires Sites(ss, ends) && n <= |ss| && forall i :: 0 <= i < n ==> ends[i] != o
    ensures Pieces(Edits(ss, ends, n), o) == PreHere(ss, o) + SaveHere(ss, n, o)
    decreases n
  {
    if n == 0 {
      EditsBase(ss, ends, o);
    } else {
      NoLoadsYet(ss, ends, n - 1, o);
      NoLoadsStep(ss, ends, n, o);
    }
  }

  lemma NoLoadsStep(ss: seq<Stage>, ends: seq<nat>, n: nat, o: nat)
    requires 0 < n <= |ss| == |ends| && ends[n - 1] != o
    requires Pieces(Edits(ss, ends, n - 1), o) == PreHere(ss, o) + SaveHere(ss, n - 1, o)
    ensures Pieces(Edits(ss, ends, n), o) == PreHere(ss, o) + SaveHere(ss, n, o)
  {
    EditsStep(ss, ends, n, o);
    var p, s, piece := PreHere(ss, o), SaveHere(ss, n - 1, o), if ss[n - 1].aw == o then SavePiece(ss, n - 1) else [];
    assert SaveHere(ss, n, o) == s + piece;
    hide Pieces, Edits, PreHere, SaveHere, SavePiece;
    Regroup(p, [], s, piece, []);
    assert p + [] == p;
  }
}
