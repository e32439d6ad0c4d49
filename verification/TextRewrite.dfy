/** The insertions produce the text of the rewritten code. */
module TextRewrite {
  import opened Language
  import opened Points
  import opened Rewrite
  import opened Text

  /** The original between `lo` and `hi`, each token with the save before it and the load behind. */
  function Mid(src: seq<Tok>, ss: seq<Stage>, ends: seq<nat>, lo: nat, hi: nat): seq<Tok>
    requires lo <= hi <= |src| && |ss| == |ends|
    decreases hi - lo
  {
    if lo == hi then []
    else SaveHere(ss, |ss|, lo) + [src[lo]] + LoadHere(ss, ends, |ss|, lo + 1) + Mid(src, ss, ends, lo + 1, hi)
  }

  lemma {:induction false} MidSplit(src: seq<Tok>, ss: seq<Stage>, ends: seq<nat>, lo: nat, mid: nat, hi: nat)
    requires lo <= mid <= hi <= |src| && |ss| == |ends|
    ensures Mid(src, ss, ends, lo, hi) == Mid(src, ss, ends, lo, mid) + Mid(src, ss, ends, mid, hi)
    decreases mid - lo
  {
    if lo < mid {
      MidSplit(src, ss, ends, lo + 1, mid, hi);
    }
  }

  /** Every await's insertions lie inside `code`, printed from `lo` to `hi`, or outside. */
  ghost predicate Apart(ss: seq<Stage>, ends: seq<nat>, code: Code, lo: nat, hi: nat)
    requires |ss| == |ends|
  {
    forall i :: 0 <= i < |ss| ==>
      (ss[i].aw in Ids(code) && ends[i] == Behind(code, ss[i].aw)) || ends[i] <= lo || ss[i].aw >= hi
  }

  /** No await begins from `lo` on before `hi`, and none ends behind `lo` up to `hi`. */
  ghost predicate Quiet(ss: seq<Stage>, ends: seq<nat>, lo: nat, hi: nat)
    requires |ss| == |ends|
  {
    forall i :: 0 <= i < |ss| ==> (ss[i].aw < lo || ss[i].aw >= hi) && (ends[i] <= lo || ends[i] > hi)
  }

  lemma MidToken(src: seq<Tok>, ss: seq<Stage>, ends: seq<nat>, o: nat, save: seq<Tok>, load: seq<Tok>)
    requires o < |src| && |ss| == |ends|
    requires SaveHere(ss, |ss|, o) == save && LoadHere(ss, ends, |ss|, o + 1) == load
    ensures Mid(src, ss, ends, o, o + 1) == save + [src[o]] + load
  {
    assert Mid(src, ss, ends, o + 1, o + 1) == [];
  }

  /** Where no await is, nothing is inserted. */
  lemma {:induction false} MidPlain(src: seq<Tok>, ss: seq<Stage>, ends: seq<nat>, lo: nat, hi: nat)
    requires |ss| == |ends| && Quiet(ss, ends, lo, hi) && lo <= hi <= |src|
    ensures Mid(src, ss, ends, lo, hi) == src[lo..hi]
    decreases hi - lo
  {
    if lo < hi {
      NoSaveHere(ss, |ss|, lo);
      NoLoadHere(ss, ends, |ss|, lo + 1);
      MidToken(src, ss, ends, lo, [], []);
      MidPlain(src, ss, ends, lo + 1, hi);
      MidSplit(src, ss, ends, lo, lo + 1, hi);
      hide Mid, SaveHere, LoadHere, Quiet;
      assert src[lo..hi] == [src[lo]] + src[lo + 1..hi];
    }
  }

  lemma MidAwait(src: seq<Tok>, ss: seq<Stage>, ends: seq<nat>, i: nat, lo: nat, hi: nat)
    requires Sites(ss, ends) && lo + 1 < hi <= |src| && i < |ss| && ss[i].aw == lo && ends[i] == hi
    requires forall k :: 0 <= k < |ss| && k != i ==> ends[k] <= lo || ss[k].aw >= hi
    ensures Mid(src, ss, ends, lo, hi) == SavePiece(ss, i) + src[lo..hi] + LoadPiece(ss, i)
  {
    AwaitEnds(ss, ends, i, lo, hi);
    MidPlain(src, ss, ends, lo + 1, hi - 1);
    MidThree(src, ss, ends, lo, hi, SavePiece(ss, i), LoadPiece(ss, i));
  }

  lemma MidThree(src: seq<Tok>, ss: seq<Stage>, ends: seq<nat>, lo: nat, hi: nat, save: seq<Tok>, load: seq<Tok>)
    requires lo + 1 < hi <= |src| && |ss| == |ends|
    requires SaveHere(ss, |ss|, lo) == save && LoadHere(ss, ends, |ss|, lo + 1) == []
    requires SaveHere(ss, |ss|, hi - 1) == [] && LoadHere(ss, ends, |ss|, hi) == load
    requires Mid(src, ss, ends, lo + 1, hi - 1) == src[lo + 1..hi - 1]
    ensures Mid(src, ss, ends, lo, hi) == save + src[lo..hi] + load
  {
    hide SaveHere, LoadHere, Mid;
    MidToken(src, ss, ends, lo, save, []);
    MidToken(src, ss, ends, hi - 1, [], load);
    MidSplit(src, ss, ends, lo, lo + 1, hi);
    MidSplit(src, ss, ends, lo + 1, hi - 1, hi);
    AroundRegroup(save, src, lo, hi, load);
  }

  lemma AwaitEnds(ss: seq<Stage>, ends: seq<nat>, i: nat, lo: nat, hi: nat)
    requires Sites(ss, ends) && lo + 1 < hi && i < |ss| && ss[i].aw == lo && ends[i] == hi
    requires forall k :: 0 <= k < |ss| && k != i ==> ends[k] <= lo || ss[k].aw >= hi
    ensures SaveHere(ss, |ss|, lo) == SavePiece(ss, i) && LoadHere(ss, ends, |ss|, lo + 1) == []
    ensures SaveHere(ss, |ss|, hi - 1) == [] && LoadHere(ss, ends, |ss|, hi) == LoadPiece(ss, i)
    ensures Quiet(ss, ends, lo + 1, hi - 1)
  {
    OneSaveHere(ss, ends, |ss|, i);
    OneLoadHere(ss, ends, |ss|, i);
    NoLoadHere(ss, ends, |ss|, lo + 1);
    NoSaveHere(ss, |ss|, hi - 1);
  }

  lemma AroundRegroup(s: seq<Tok>, src: seq<Tok>, lo: nat, hi: nat, l: seq<Tok>)
    requires lo + 1 < hi <= |src|
    ensures (s + [src[lo]] + []) + (src[lo + 1..hi - 1] + ([] + [src[hi - 1]] + l)) == s + src[lo..hi] + l
  {
    assert src[lo..hi] == [src[lo]] + src[lo + 1..hi - 1] + [src[hi - 1]];
  }

  /** A statement without its continuation, rewritten. */
  function RewrittenStmt(s: Stmt, ss: seq<Stage>): seq<Tok> {
    Toks(RewriteCode(Then(s, End), ss, Emitted))
  }

  lemma RewriteOne(s: Stmt, rest: Code, ss: seq<Stage>)
    requires IsUserStmt(s)
    ensures Toks(RewriteCode(Then(s, rest), ss, Emitted)) == RewrittenStmt(s, ss) + Toks(RewriteCode(rest, ss, Emitted))
  {
    if s.Await? && StageNo(ss, s.at) > 0 {
      RewriteAwait(s, rest, ss, StageNo(ss, s.at));
    } else {
      var s', r := RewriteCode(Then(s, End), ss, Emitted).head, RewriteCode(rest, ss, Emitted);
      assert RewriteCode(End, ss, Emitted) == End;
      assert RewriteCode(Then(s, rest), ss, Emitted) == Then(s', r);
      assert RewriteCode(Then(s, End), ss, Emitted) == Then(s', End);
      hide Toks, StmtToks, RewriteCode;
      ToksOne(s', r);
    }
  }

  lemma RewriteAwait(s: Stmt, rest: Code, ss: seq<Stage>, n: nat)
    requires s.Await? && n == StageNo(ss, s.at) > 0
    ensures Toks(RewriteCode(Then(s, rest), ss, Emitted))
         == Toks(RewriteCode(Then(s, End), ss, Emitted)) + Toks(RewriteCode(rest, ss, Emitted))
  {
    var r, vars := RewriteCode(rest, ss, Emitted), ss[n - 1].vars;
    assert RewriteCode(Then(s, rest), ss, Emitted) == Expanded(Emitted, n, vars, s, r);
    assert RewriteCode(Then(s, End), ss, Emitted) == Expanded(Emitted, n, vars, s, End) by {
      assert RewriteCode(End, ss, Emitted) == End;
    }
    assert Toks(End) == [];
    hide *;
    ToksExpanded(n, vars, s, r);
    ToksExpanded(n, vars, s, End);
    Ended([SaveCall(n, vars), Semi] + StmtToks(s) + [LabelMark(n), LoadCall(vars), Semi]);
  }

  lemma Ended(a: seq<Tok>)
    ensures a + [] == a
  {
  }

  lemma ToksOne(s: Stmt, r: Code)
    ensures Toks(Then(s, r)) == Toks(Then(s, End)) + Toks(r)
    ensures Toks(Then(s, End)) == StmtToks(s)
  {
    assert Toks(End) == [];
  }

  lemma ToksExpanded(n: nat, vars: seq<string>, s: Stmt, r: Code)
    requires s.Await?
    ensures Toks(Expanded(Emitted, n, vars, s, r))
         == [SaveCall(n, vars), Semi] + StmtToks(s) + [LabelMark(n), LoadCall(vars), Semi] + Toks(r)
  {
    var c := Expanded(Emitted, n, vars, s, r);
    assert Toks(c) == StmtToks(Save(n, vars)) + Toks(c.tail);
    assert Toks(c.tail) == StmtToks(s) + Toks(c.tail.tail);
    assert Toks(c.tail.tail) == StmtToks(Label(n)) + Toks(c.tail.tail.tail);
    assert Toks(c.tail.tail.tail) == StmtToks(Load(vars)) + Toks(r);
    assert [LabelMark(n)] + ([LoadCall(vars), Semi] + Toks(r)) == [LabelMark(n), LoadCall(vars), Semi] + Toks(r);
  }

  /** Printed from `lo` on, user code with bare and distinct awaits. */
  ghost predicate Proper(code: Code, lo: nat) {
    IsUser(code) && Void(code) && Distinct(code) && Placed(code, lo)
  }

  ghost predicate ProperStmt(s: Stmt, lo: nat) {
    IsUserStmt(s) && VoidStmt(s) && DistinctStmt(s) && PlacedStmt(s, lo)
  }

  lemma ProperParts(s: Stmt, rest: Code, lo: nat)
    requires Proper(Then(s, rest), lo)
    ensures ProperStmt(s, lo) && Proper(rest, lo + |StmtToks(s)|) && StmtIds(s) !! Ids(rest)
    ensures Toks(Then(s, rest)) == StmtToks(s) + Toks(rest)
  {
  }

  lemma ProperBranches(s: Stmt, lo: nat, head: seq<Tok>)
    requires s.If? && ProperStmt(s, lo) && head == [KwIf] + ExprToks(s.c) + [LBrace]
    ensures Proper(s.thn, lo + |head|) && Proper(s.els, lo + |head| + |Toks(s.thn)| + 3)
    ensures StmtToks(s) == head + Toks(s.thn) + ([RBrace, KwElse, LBrace] + Toks(s.els) + [RBrace])
  {
  }

  ghost predicate ApartStmt(ss: seq<Stage>, ends: seq<nat>, s: Stmt, lo: nat, hi: nat)
    requires |ss| == |ends|
  {
    forall i :: 0 <= i < |ss| ==>
      (ss[i].aw in StmtIds(s) && ends[i] == StmtBehind(s, ss[i].aw)) || ends[i] <= lo || ss[i].aw >= hi
  }

  /** `code` is printed in `src` from `lo` on, and all its awaits have stages. */
  ghost predicate Shown(src: seq<Tok>, ss: seq<Stage>, ids: set<nat>, toks: seq<Tok>, lo: nat) {
    && lo + |toks| <= |src| && src[lo..lo + |toks|] == toks
    && forall id :: id in ids ==> StageNo(ss, id) > 0
  }

  lemma ShownPart(src: seq<Tok>, ss: seq<Stage>, ids: set<nat>, a: seq<Tok>, b: seq<Tok>, c: seq<Tok>, lo: nat,
      ids': set<nat>)
    requires Shown(src, ss, ids, a + b + c, lo) && ids' <= ids
    ensures Shown(src, ss, ids', b, lo + |a|)
    ensures lo + |a| + |b| + |c| <= |src|
    ensures src[lo..lo + |a|] == a
    ensures src[lo + |a| + |b|..lo + |a| + |b| + |c|] == c
  {
    var n := |a| + |b| + |c|;
    SlicePart(src, lo, n, 0, |a|);
    SlicePart(src, lo, n, |a|, |a| + |b|);
    SlicePart(src, lo, n, |a| + |b|, n);
    var all := a + b + c;
    assert all[0..|a|] == a && all[|a|..|a| + |b|] == b && all[|a| + |b|..n] == c;
  }

  lemma SlicePart(src: seq<Tok>, lo: nat, n: nat, i: nat, k: nat)
    requires i <= k <= n && lo + n <= |src|
    ensures src[lo..lo + n][i..k] == src[lo + i..lo + k]
  {
    var a, b := src[lo..lo + n][i..k], src[lo + i..lo + k];
    assert |a| == |b| == k - i;
    forall x | 0 <= x < k - i ensures a[x] == b[x] {
      assert a[x] == src[lo..lo + n][i + x] == src[lo + (i + x)];
      assert b[x] == src[(lo + i) + x];
    }
  }

  lemma MidBetween(src: seq<Tok>, ss: seq<Stage>, ends: seq<nat>, lo: nat, a: nat, b: nat, hi: nat)
    requires |ss| == |ends| && lo <= a <= b <= hi <= |src| && Quiet(ss, ends, lo, a) && Quiet(ss, ends, b, hi)
    ensures Mid(src, ss, ends, lo, hi) == src[lo..a] + Mid(src, ss, ends, a, b) + src[b..hi]
  {
    MidPlain(src, ss, ends, lo, a);
    MidPlain(src, ss, ends, b, hi);
    MidSplit(src, ss, ends, lo, a, hi);
    MidSplit(src, ss, ends, a, b, hi);
    hide Mid;
  }

  /** A compound printed from `a` to `b` inside its statement keeps its insertions to itself. */
  lemma QuietAround(ss: seq<Stage>, ends: seq<nat>, code: Code, lo: nat, a: nat, b: nat, hi: nat)
    requires Sites(ss, ends) && lo <= a && b <= hi && Proper(code, a) && b == a + |Toks(code)|
    requires Apart(ss, ends, code, lo, hi)
    ensures Quiet(ss, ends, lo, a) && Quiet(ss, ends, b, hi) && Apart(ss, ends, code, a, b)
  {
    forall i | 0 <= i < |ss|
      ensures ss[i].aw in Ids(code) ==> a <= ss[i].aw < Behind(code, ss[i].aw) <= b
    {
      if ss[i].aw in Ids(code) { CodeRange(code, a, ss[i].aw); }
    }
  }

  /** `code` stands in `src` from `lo` to `hi`, between `head` and `foot`, with its insertions. */
  ghost predicate Ready(src: seq<Tok>, ss: seq<Stage>, ends: seq<nat>,
                        head: seq<Tok>, code: Code, foot: seq<Tok>, lo: nat, hi: nat) {
    && |ss| == |ends| && Proper(code, lo + |head|) && Sites(ss, ends)
    && Shown(src, ss, Ids(code), head + Toks(code) + foot, lo)
    && hi == lo + |head| + |Toks(code)| + |foot|
    && Apart(ss, ends, code, lo, hi)
  }

  ghost predicate ReadyCode(src: seq<Tok>, ss: seq<Stage>, ends: seq<nat>, code: Code, lo: nat, hi: nat) {
    && |ss| == |ends| && Proper(code, lo) && Sites(ss, ends)
    && Shown(src, ss, Ids(code), Toks(code), lo)
    && hi == lo + |Toks(code)|
    && Apart(ss, ends, code, lo, hi)
  }

  ghost predicate ReadyStmt(src: seq<Tok>, ss: seq<Stage>, ends: seq<nat>, s: Stmt, lo: nat, hi: nat) {
    && |ss| == |ends| && ProperStmt(s, lo) && Sites(ss, ends)
    && Shown(src, ss, StmtIds(s), StmtToks(s), lo)
    && hi == lo + |StmtToks(s)|
    && ApartStmt(ss, ends, s, lo, hi)
  }

  lemma ReadyInside(src: seq<Tok>, ss: seq<Stage>, ends: seq<nat>,
                    head: seq<Tok>, code: Code, foot: seq<Tok>, lo: nat, a: nat, b: nat, hi: nat)
    requires Ready(src, ss, ends, head, code, foot, lo, hi) && a == lo + |head| && b == a + |Toks(code)|
    ensures ReadyCode(src, ss, ends, code, a, b)
    ensures |ss| == |ends| && a <= b <= hi == b + |foot| <= |src|
    ensures Quiet(ss, ends, lo, a) && Quiet(ss, ends, b, hi)
    ensures src[lo..a] == head && src[b..hi] == foot
  {
    InsideQuiet(src, ss, ends, head, code, foot, lo, a, b, hi);
    InsideShown(src, ss, ends, head, code, foot, lo, a, b, hi);
    hide Toks, Proper, Sites, Apart, Quiet, Ids, Shown;
  }

  lemma InsideQuiet(src: seq<Tok>, ss: seq<Stage>, ends: seq<nat>,
                    head: seq<Tok>, code: Code, foot: seq<Tok>, lo: nat, a: nat, b: nat, hi: nat)
    requires Ready(src, ss, ends, head, code, foot, lo, hi) && a == lo + |head| && b == a + |Toks(code)|
    ensures |ss| == |ends| && Quiet(ss, ends, lo, a) && Quiet(ss, ends, b, hi) && Apart(ss, ends, code, a, b)
  {
    assert |ss| == |ends|;
    hide Proper, Sites, Apart, Quiet, Ids, Shown;
    QuietAround(ss, ends, code, lo, a, b, hi);
  }

  lemma InsideShown(src: seq<Tok>, ss: seq<Stage>, ends: seq<nat>,
                    head: seq<Tok>, code: Code, foot: seq<Tok>, lo: nat, a: nat, b: nat, hi: nat)
    requires Ready(src, ss, ends, head, code, foot, lo, hi) && a == lo + |head| && b == a + |Toks(code)|
    ensures Shown(src, ss, Ids(code), Toks(code), a) && hi <= |src|
    ensures src[lo..a] == head && src[b..hi] == foot
  {
    hide Proper, Sites, Apart, Ids, Shown, Toks;
    ShownPart(src, ss, Ids(code), head, Toks(code), foot, lo, Ids(code));
  }

  lemma {:induction false} MidIsCompound(src: seq<Tok>, ss: seq<Stage>, ends: seq<nat>,
                                         head: seq<Tok>, code: Code, foot: seq<Tok>, lo: nat, hi: nat)
    requires Ready(src, ss, ends, head, code, foot, lo, hi)
    ensures hi <= |src| && Mid(src, ss, ends, lo, hi) == head + Toks(RewriteCode(code, ss, Emitted)) + foot
    decreases code, 1
  {
    var a, b := lo + |head|, lo + |head| + |Toks(code)|;
    hide *;
    ReadyInside(src, ss, ends, head, code, foot, lo, a, b, hi);
    MidIsCode(src, ss, ends, code, a, b);
    MidBetween(src, ss, ends, lo, a, b, hi);
  }

  lemma MidIsAwait(src: seq<Tok>, ss: seq<Stage>, ends: seq<nat>, s: Stmt, lo: nat, hi: nat)
    requires s.Await? && ReadyStmt(src, ss, ends, s, lo, hi)
    ensures hi <= |src| && Mid(src, ss, ends, lo, hi) == RewrittenStmt(s, ss)
  {
    AwaitApart(src, ss, ends, s, lo, hi);
    var n := StageNo(ss, s.at);
    RewrittenAwait(s, ss, n);
    hide Toks, StmtToks, RewriteCode, RewrittenStmt, Mid, SavePiece, LoadPiece, ExprToks, ReadyStmt;
    MidAwait(src, ss, ends, n - 1, lo, hi);
  }

  lemma AwaitApart(src: seq<Tok>, ss: seq<Stage>, ends: seq<nat>, s: Stmt, lo: nat, hi: nat)
    requires s.Await? && ReadyStmt(src, ss, ends, s, lo, hi)
    ensures Sites(ss, ends) && lo + 1 < hi <= |src| && src[lo..hi] == StmtToks(s)
    ensures
      var n := StageNo(ss, s.at);
      && n > 0 && ss[n - 1].aw == lo && ends[n - 1] == hi
      && forall k :: 0 <= k < |ss| && k != n - 1 ==> ends[k] <= lo || ss[k].aw >= hi
  {
    NoSemi(s.e);
    assert StmtToks(s) == [KwAwait] + ExprToks(s.e) + [Semi];
    assert s.at in StmtIds(s);
  }

  lemma RewrittenAwait(s: Stmt, ss: seq<Stage>, n: nat)
    requires s.Await? && n == StageNo(ss, s.at) > 0
    ensures RewrittenStmt(s, ss) == SavePiece(ss, n - 1) + StmtToks(s) + LoadPiece(ss, n - 1)
  {
    ToksExpanded(n, ss[n - 1].vars, s, End);
    assert RewriteCode(End, ss, Emitted) == End && Toks(End) == [];
    assert RewriteCode(Then(s, End), ss, Emitted) == Expanded(Emitted, n, ss[n - 1].vars, s, End);
    var ts, a, b := StmtToks(s), SavePiece(ss, n - 1), LoadPiece(ss, n - 1);
    hide Toks, StmtToks, RewriteCode, Expanded;
    assert a + ts + b + [] == a + ts + b;
  }

  lemma ReadyBody(src: seq<Tok>, ss: seq<Stage>, ends: seq<nat>, s: Stmt, lo: nat, hi: nat)
    requires ReadyStmt(src, ss, ends, s, lo, hi) && (s.Block? || s.While?)
    ensures Ready(src, ss, ends, if s.Block? then [LBrace] else [KwWhile] + ExprToks(s.c) + [LBrace],
        s.body, [RBrace], lo, hi)
  {
  }

  /** The insertions around and inside one statement. */
  lemma {:induction false} MidIsStmt(src: seq<Tok>, ss: seq<Stage>, ends: seq<nat>, s: Stmt, lo: nat, hi: nat)
    requires ReadyStmt(src, ss, ends, s, lo, hi)
    ensures hi <= |src| && Mid(src, ss, ends, lo, hi) == RewrittenStmt(s, ss)
    decreases s
  {
    RewrittenShape(s, ss);
    match s
    case Await(_, _, _) => MidIsAwait(src, ss, ends, s, lo, hi);
    case Block(_, b) =>
      ReadyBody(src, ss, ends, s, lo, hi);
      MidIsCompound(src, ss, ends, [LBrace], b, [RBrace], lo, hi);
    case While(c, _, b) =>
      ReadyBody(src, ss, ends, s, lo, hi);
      MidIsCompound(src, ss, ends, [KwWhile] + ExprToks(c) + [LBrace], b, [RBrace], lo, hi);
    case If(_, _, _, _, _) => MidIsIf(src, ss, ends, s, lo, hi);
    case _ => MidPlain(src, ss, ends, lo, hi);
  }

  lemma RewrittenShape(s: Stmt, ss: seq<Stage>)
    requires IsUserStmt(s)
    ensures s.Block? ==> (RewrittenStmt(s, ss) == [LBrace] + Toks(RewriteCode(s.body, ss, Emitted)) + [RBrace])
    ensures s.While? ==> (RewrittenStmt(s, ss)
      == ([KwWhile] + ExprToks(s.c) + [LBrace]) + Toks(RewriteCode(s.body, ss, Emitted)) + [RBrace])
    ensures s.If? ==> (RewrittenStmt(s, ss)
      == ([KwIf] + ExprToks(s.c) + [LBrace]) + Toks(RewriteCode(s.thn, ss, Emitted))
       + ([RBrace, KwElse, LBrace] + Toks(RewriteCode(s.els, ss, Emitted)) + [RBrace]))
    ensures !s.Block? && !s.While? && !s.If? && !s.Await? ==> RewrittenStmt(s, ss) == StmtToks(s)
  {
    assert RewriteCode(End, ss, Emitted) == End;
    if !s.Await? {
      var s' := RewriteCode(Then(s, End), ss, Emitted).head;
      assert RewriteCode(Then(s, End), ss, Emitted) == Then(s', End);
      ToksOne(s', End);
    }
  }

  lemma {:induction false} MidIsIf(src: seq<Tok>, ss: seq<Stage>, ends: seq<nat>, s: Stmt, lo: nat, hi: nat)
    requires s.If? && ReadyStmt(src, ss, ends, s, lo, hi)
    ensures hi <= |src| && Mid(src, ss, ends, lo, hi)
      == ([KwIf] + ExprToks(s.c) + [LBrace]) + Toks(RewriteCode(s.thn, ss, Emitted))
       + ([RBrace, KwElse, LBrace] + Toks(RewriteCode(s.els, ss, Emitted)) + [RBrace])
    decreases s, 0
  {
    var head, amid := [KwIf] + ExprToks(s.c) + [LBrace], [RBrace, KwElse, LBrace];
    var mid := lo + |head| + |Toks(s.thn)|;
    ReadyBranches(src, ss, ends, s, lo, mid, hi, head);
    MidIsCompound(src, ss, ends, head, s.thn, [], lo, mid);
    MidIsCompound(src, ss, ends, amid, s.els, [RBrace], mid, hi);
    JoinIf(src, ss, ends, lo, mid, hi, head, Toks(RewriteCode(s.thn, ss, Emitted)),
        amid + Toks(RewriteCode(s.els, ss, Emitted)) + [RBrace]);
  }

  lemma ReadyBranches(src: seq<Tok>, ss: seq<Stage>, ends: seq<nat>, s: Stmt, lo: nat, mid: nat, hi: nat,
      head: seq<Tok>)
    requires s.If? && ReadyStmt(src, ss, ends, s, lo, hi)
    requires head == [KwIf] + ExprToks(s.c) + [LBrace] && mid == lo + |head| + |Toks(s.thn)|
    ensures Ready(src, ss, ends, head, s.thn, [], lo, mid)
    ensures Ready(src, ss, ends, [RBrace, KwElse, LBrace], s.els, [RBrace], mid, hi)
  {
    hide Proper, ProperStmt, Shown, Apart, ApartStmt, Toks, StmtToks, ExprToks, Ids, StmtIds;
    ProperBranches(s, lo, head);
    SplitIf(ss, ends, s, lo);
    hide Sites;
    ShownIf(src, ss, s, lo, head, Toks(s.thn), [RBrace, KwElse, LBrace], Toks(s.els), [RBrace]);
  }

  lemma ShownIf(src: seq<Tok>, ss: seq<Stage>, s: Stmt, lo: nat, head: seq<Tok>, t: seq<Tok>, amid: seq<Tok>,
      e: seq<Tok>, foot: seq<Tok>)
    requires s.If? && Shown(src, ss, StmtIds(s), StmtToks(s), lo)
    requires StmtToks(s) == head + t + (amid + e + foot)
    ensures Shown(src, ss, Ids(s.thn), head + t + [], lo)
    ensures Shown(src, ss, Ids(s.els), amid + e + foot, lo + |head| + |t|)
  {
    assert [] + (head + t + []) + (amid + e + foot) == StmtToks(s);
    assert (head + t + []) + (amid + e + foot) + [] == StmtToks(s);
    ShownPart(src, ss, StmtIds(s), [], head + t + [], amid + e + foot, lo, Ids(s.thn));
    ShownPart(src, ss, StmtIds(s), head + t + [], amid + e + foot, [], lo, Ids(s.els));
  }

  lemma JoinIf(src: seq<Tok>, ss: seq<Stage>, ends: seq<nat>, lo: nat, mid: nat, hi: nat, head: seq<Tok>,
      t: seq<Tok>, tail: seq<Tok>)
    requires lo <= mid <= hi <= |src| && |ss| == |ends|
    requires Mid(src, ss, ends, lo, mid) == head + t + [] && Mid(src, ss, ends, mid, hi) == tail
    ensures Mid(src, ss, ends, lo, hi) == head + t + tail
  {
    MidSplit(src, ss, ends, lo, mid, hi);
    hide *;
  }

  lemma SplitIf(ss: seq<Stage>, ends: seq<nat>, s: Stmt, lo: nat)
    requires s.If? && ProperStmt(s, lo) && |ss| == |ends|
    requires ApartStmt(ss, ends, s, lo, lo + |StmtToks(s)|)
    ensures
      var mid := lo + |[KwIf] + ExprToks(s.c) + [LBrace]| + |Toks(s.thn)|;
      && Apart(ss, ends, s.thn, lo, mid) && Apart(ss, ends, s.els, mid, lo + |StmtToks(s)|)
  {
    var tLo := lo + 2 + |ExprToks(s.c)|;
    var eLo := tLo + |Toks(s.thn)| + 3;
    forall i | 0 <= i < |ss|
      ensures ss[i].aw in Ids(s.thn) ==> Behind(s.thn, ss[i].aw) <= tLo + |Toks(s.thn)|
      ensures ss[i].aw in Ids(s.els) ==> eLo <= ss[i].aw
    {
      if ss[i].aw in Ids(s.thn) { CodeRange(s.thn, tLo, ss[i].aw); }
      if ss[i].aw in Ids(s.els) { CodeRange(s.els, eLo, ss[i].aw); }
    }
  }

  /** Where the awaits of a statement and of what follows it lie. */
  lemma SplitApart(ss: seq<Stage>, ends: seq<nat>, s: Stmt, rest: Code, lo: nat)
    requires ProperStmt(s, lo) && Proper(rest, lo + |StmtToks(s)|) && StmtIds(s) !! Ids(rest) && |ss| == |ends|
    requires Apart(ss, ends, Then(s, rest), lo, lo + |StmtToks(s)| + |Toks(rest)|)
    ensures ApartStmt(ss, ends, s, lo, lo + |StmtToks(s)|)
    ensures Apart(ss, ends, rest, lo + |StmtToks(s)|, lo + |StmtToks(s)| + |Toks(rest)|)
  {
    forall i | 0 <= i < |ss|
      ensures ss[i].aw in StmtIds(s) ==> StmtBehind(s, ss[i].aw) <= lo + |StmtToks(s)|
      ensures ss[i].aw in Ids(rest) ==> lo + |StmtToks(s)| <= ss[i].aw
    {
      if ss[i].aw in StmtIds(s) { StmtRange(s, lo, ss[i].aw); }
      if ss[i].aw in Ids(rest) { CodeRange(rest, lo + |StmtToks(s)|, ss[i].aw); }
    }
  }

  lemma ReadyParts(src: seq<Tok>, ss: seq<Stage>, ends: seq<nat>, s: Stmt, rest: Code, lo: nat, mid: nat, hi: nat)
    requires ReadyCode(src, ss, ends, Then(s, rest), lo, hi) && mid == lo + |StmtToks(s)|
    ensures ReadyStmt(src, ss, ends, s, lo, mid) && ReadyCode(src, ss, ends, rest, mid, hi)
  {
    hide Apart, Sites, StmtToks, ApartStmt, Toks, Ids, StmtIds, Shown, Proper, ProperStmt;
    ProperParts(s, rest, lo);
    SplitApart(ss, ends, s, rest, lo);
    ShownSeq(src, ss, s, rest, lo);
  }

  lemma ShownSeq(src: seq<Tok>, ss: seq<Stage>, s: Stmt, rest: Code, lo: nat)
    requires Shown(src, ss, Ids(Then(s, rest)), Toks(Then(s, rest)), lo)
    ensures Shown(src, ss, StmtIds(s), StmtToks(s), lo)
    ensures Shown(src, ss, Ids(rest), Toks(rest), lo + |StmtToks(s)|)
  {
    ShownPair(src, ss, Ids(Then(s, rest)), StmtToks(s), Toks(rest), lo, StmtIds(s), Ids(rest));
  }

  lemma ShownPair(src: seq<Tok>, ss: seq<Stage>, ids: set<nat>, a: seq<Tok>, b: seq<Tok>, lo: nat,
      ids1: set<nat>, ids2: set<nat>)
    requires Shown(src, ss, ids, a + b, lo) && ids1 <= ids && ids2 <= ids
    ensures Shown(src, ss, ids1, a, lo)
    ensures Shown(src, ss, ids2, b, lo + |a|)
  {
    var n := |a| + |b|;
    SlicePart(src, lo, n, 0, |a|);
    SlicePart(src, lo, n, |a|, n);
    var all := a + b;
    assert all[0..|a|] == a && all[|a|..n] == b;
  }

  lemma {:induction false} MidIsCode(src: seq<Tok>, ss: seq<Stage>, ends: seq<nat>, code: Code, lo: nat, hi: nat)
    requires ReadyCode(src, ss, ends, code, lo, hi)
    ensures hi <= |src| && Mid(src, ss, ends, lo, hi) == Toks(RewriteCode(code, ss, Emitted))
    decreases code, 0
  {
    match code
    case End =>
    case Then(s, rest) =>
      var mid := lo + |StmtToks(s)|;
      ReadyParts(src, ss, ends, s, rest, lo, mid, hi);
      MidIsStmt(src, ss, ends, s, lo, mid);
      MidIsCode(src, ss, ends, rest, mid, hi);
      MidSplit(src, ss, ends, lo, mid, hi);
      RewriteOne(s, rest, ss);
      hide ReadyCode, ReadyStmt;
  }
}
