/** The rewriting of a text without blanks, all loads inserted before all saves. */
module Emit {
  import opened Language
  import opened Points
  import opened Rewrite
  import opened Buffer
  import opened Text
  import opened TextRewrite

  lemma {:induction false} RenderMid(src: seq<Tok>, ss: seq<Stage>, ends: seq<nat>, o: nat)
    requires |ss| == |ends| && 1 <= o <= |src|
    ensures Render(src, SavesAfter(ss, ends, |ss|), o)
         == (PreHere(ss, o) + LoadHere(ss, ends, |ss|, o)) + (Mid(src, ss, ends, o, |src|) + SaveHere(ss, |ss|, |src|))
    decreases |src| - o
  {
    if o < |src| {
      RenderMid(src, ss, ends, o + 1);
    }
    RenderMidStep(src, ss, ends, o);
  }

  lemma RenderMidStep(src: seq<Tok>, ss: seq<Stage>, ends: seq<nat>, o: nat)
    requires |ss| == |ends| && 1 <= o <= |src|
    requires o < |src| ==> (Render(src, SavesAfter(ss, ends, |ss|), o + 1)
      == (PreHere(ss, o + 1) + LoadHere(ss, ends, |ss|, o + 1))
          + (Mid(src, ss, ends, o + 1, |src|) + SaveHere(ss, |ss|, |src|)))
    ensures Render(src, SavesAfter(ss, ends, |ss|), o)
         == (PreHere(ss, o) + LoadHere(ss, ends, |ss|, o)) + (Mid(src, ss, ends, o, |src|) + SaveHere(ss, |ss|, |src|))
  {
    var n := |ss|;
    var es := SavesAfter(ss, ends, n);
    SavesAfterSplit(ss, ends, n, o);
    var pre, l, s, z := PreHere(ss, o), LoadHere(ss, ends, n, o), SaveHere(ss, n, o), SaveHere(ss, n, |src|);
    if o < |src| {
      var l', m' := LoadHere(ss, ends, n, o + 1), Mid(src, ss, ends, o + 1, |src|);
      assert PreHere(ss, o + 1) == [];
      assert Mid(src, ss, ends, o, |src|) == s + [src[o]] + l' + m';
      assert Render(src, es, o) == Pieces(es, o) + ([src[o]] + Render(src, es, o + 1));
      hide Render, Mid, SaveHere, LoadHere, PreHere, Pieces, SavesAfter;
      RenderRegroup(pre, l, s, src[o], l', m', z);
    } else {
      assert Mid(src, ss, ends, o, |src|) == [];
      assert Render(src, es, o) == Pieces(es, o);
      hide Render, Mid, SaveHere, LoadHere, PreHere, Pieces, SavesAfter;
    }
  }

  lemma RenderRegroup(pre: seq<Tok>, l: seq<Tok>, s: seq<Tok>, c: Tok, l': seq<Tok>, m: seq<Tok>, z: seq<Tok>)
    ensures (pre + l + s) + ([c] + (([] + l') + (m + z))) == (pre + l) + ((s + [c] + l' + m) + z)
  {
  }

  /** Every await of the body has exactly one stage, ending behind its statement. */
  ghost predicate SitesOf(body: Code, ss: seq<Stage>, ends: seq<nat>) {
    && |ss| == |ends| && DistinctStages(ss)
    && (forall id :: id in Ids(body) ==> StageNo(ss, id) > 0)
    && (forall i :: 0 <= i < |ss| ==> ss[i].aw in Ids(body) && ends[i] == Behind(body, ss[i].aw))
  }

  lemma SitesOfBody(body: Code, ss: seq<Stage>, ends: seq<nat>)
    requires Proper(body, 1) && SitesOf(body, ss, ends)
    ensures Sites(ss, ends)
    ensures forall i :: 0 <= i < |ss| ==> 1 <= ss[i].aw && ends[i] <= 1 + |Toks(body)|
  {
    forall i | 0 <= i < |ss| ensures 1 <= ss[i].aw < ends[i] <= 1 + |Toks(body)| {
      CodeRange(body, 1, ss[i].aw);
    }
    forall i, k | 0 <= i < k < |ss| ensures ends[i] != ends[k] {
      if ss[i].aw < ss[k].aw {
        CodeApart(body, 1, ss[i].aw, ss[k].aw);
      } else {
        CodeApart(body, 1, ss[k].aw, ss[i].aw);
      }
    }
  }

  lemma LoadsFirstIsRewritten(body: Code, ss: seq<Stage>, ends: seq<nat>)
    requires Proper(body, 1) && SitesOf(body, ss, ends)
    ensures Render(BodyToks(body), SavesAfter(ss, ends, |ss|), 0) == BodyToks(Rewritten(body, ss, Emitted))
  {
    MidOfBody(body, ss, ends);
    EdgesOfBody(body, ss, ends);
    RenderMid(BodyToks(body), ss, ends, 1);
    PreambleToks(body, ss);
    hide Toks, RewriteCode, Rewritten, Mid, SaveHere, LoadHere, Edits, SavesAfter, Pieces, SitesOf, Sites, Proper;
    JoinBody([], PreamblePiece(ss), [LBrace], Toks(RewriteCode(body, ss, Emitted)) + [RBrace]);
  }

  lemma JoinBody(none: seq<Tok>, pre: seq<Tok>, l: seq<Tok>, m: seq<Tok>)
    requires none == []
    ensures (none + none + none) + (l + ((pre + none) + (m + none))) == l + (pre + m)
  {
  }

  lemma MidOfBody(body: Code, ss: seq<Stage>, ends: seq<nat>)
    requires Proper(body, 1) && SitesOf(body, ss, ends)
    ensures Mid(BodyToks(body), ss, ends, 1, |BodyToks(body)|) == Toks(RewriteCode(body, ss, Emitted)) + [RBrace]
  {
    var src := BodyToks(body);
    SitesOfBody(body, ss, ends);
    BodyReady(body, ss, ends);
    ReadyInside(src, ss, ends, [LBrace], body, [RBrace], 0, 1, |src| - 1, |src|);
    MidIsCode(src, ss, ends, body, 1, |src| - 1);
    MidPlain(src, ss, ends, |src| - 1, |src|);
    MidSplit(src, ss, ends, 1, |src| - 1, |src|);
    hide *;
  }

  lemma BodyReady(body: Code, ss: seq<Stage>, ends: seq<nat>)
    requires Proper(body, 1) && SitesOf(body, ss, ends)
    ensures Ready(BodyToks(body), ss, ends, [LBrace], body, [RBrace], 0, |BodyToks(body)|)
  {
    SitesOfBody(body, ss, ends);
    var src := BodyToks(body);
    assert src[0..0 + |src|] == src;
  }

  /** Nothing is inserted before the opening or behind the closing brace. */
  lemma EdgesOfBody(body: Code, ss: seq<Stage>, ends: seq<nat>)
    requires Proper(body, 1) && SitesOf(body, ss, ends)
    ensures
      var src, n := BodyToks(body), |ss|;
      && Render(src, SavesAfter(ss, ends, n), 0) == ([] + [] + [])
          + ([LBrace] + Render(src, SavesAfter(ss, ends, n), 1))
      && LoadHere(ss, ends, n, 1) == [] && SaveHere(ss, n, |src|) == [] && PreHere(ss, 1) == PreamblePiece(ss)
  {
    var src, n := BodyToks(body), |ss|;
    SitesOfBody(body, ss, ends);
    SavesAfterSplit(ss, ends, n, 0);
    NoLoadHere(ss, ends, n, 0);
    NoSaveHere(ss, n, 0);
    NoLoadHere(ss, ends, n, 1);
    NoSaveHere(ss, n, |src|);
    assert src[0] == LBrace;
  }

  lemma PreambleToks(body: Code, ss: seq<Stage>)
    ensures BodyToks(Rewritten(body, ss, Emitted))
         == [LBrace] + (PreamblePiece(ss) + (Toks(RewriteCode(body, ss, Emitted)) + [RBrace]))
  {
    hide *;
    var c := RewriteCode(body, ss, Emitted);
    PreambleCode(body, ss);
    ToksOne(Label(0), c);
    ToksOne(Dispatch(Table(|ss|)), Then(Label(0), c));
    MarkToks(ss);
    BodyToksIs(Rewritten(body, ss, Emitted));
    GluePreamble(JumpTable(Table(|ss|)), LabelMark(0), Toks(c));
  }

  lemma PreambleCode(body: Code, ss: seq<Stage>)
    ensures Rewritten(body, ss, Emitted)
         == Then(Dispatch(Table(|ss|)), Then(Label(0), RewriteCode(body, ss, Emitted)))
  {
  }

  lemma MarkToks(ss: seq<Stage>)
    ensures StmtToks(Dispatch(Table(|ss|))) == [JumpTable(Table(|ss|))] && StmtToks(Label(0)) == [LabelMark(0)]
    ensures PreamblePiece(ss) == [JumpTable(Table(|ss|)), LabelMark(0)]
  {
  }

  lemma BodyToksIs(code: Code)
    ensures BodyToks(code) == [LBrace] + Toks(code) + [RBrace]
  {
  }

  lemma GluePreamble(a: Tok, b: Tok, c: seq<Tok>)
    ensures [LBrace] + ([a] + ([b] + c)) + [RBrace] == [LBrace] + ([a, b] + (c + [RBrace]))
  {
  }

  // ----- the semicolon behind an await -----

  ghost predicate FirstSemi(ts: seq<Tok>, from: int, at: int) {
    && 0 <= from < at < |ts| && ts[at] == Semi
    && forall k :: from <= k < at ==> ts[k] != Semi
  }

  lemma FirstSemiInside(pre: seq<Tok>, ts: seq<Tok>, post: seq<Tok>, from: int, at: int)
    requires FirstSemi(ts, from - |pre|, at - |pre|)
    ensures FirstSemi(pre + ts + post, from, at)
  {
    var all := pre + ts + post;
    forall k | from <= k < at ensures all[k] != Semi {
      assert all[k] == ts[k - |pre|];
    }
  }

  lemma {:induction false} StmtText(s: Stmt, lo: nat, id: nat)
    requires ProperStmt(s, lo) && id in StmtIds(s)
    ensures FirstSemi(StmtToks(s), id - lo, StmtBehind(s, id) - 1 - lo)
    decreases s
  {
    hide Toks, Ids, Behind, FirstSemi;
    match s
    case Await(_, _, e) => AwaitText(s, lo);
    case Block(_, c) =>
      CodeText(c, lo + 1, id);
      FirstSemiInside([LBrace], Toks(c), [RBrace], id - lo, Behind(c, id) - 1 - lo);
    case While(c, _, d) =>
      CodeText(d, lo + 2 + |ExprToks(c)|, id);
      FirstSemiInside([KwWhile] + ExprToks(c) + [LBrace], Toks(d), [RBrace], id - lo, Behind(d, id) - 1 - lo);
    case If(c, _, t, _, e) => BranchText(s, lo, id);
  }

  lemma AwaitText(s: Stmt, lo: nat)
    requires s.Await? && ProperStmt(s, lo)
    ensures FirstSemi(StmtToks(s), s.at - lo, StmtBehind(s, s.at) - 1 - lo)
  {
    NoSemi(s.e);
    hide ExprToks;
  }

  lemma {:induction false} BranchText(s: Stmt, lo: nat, id: nat)
    requires s.If? && ProperStmt(s, lo) && id in StmtIds(s)
    ensures FirstSemi(StmtToks(s), id - lo, StmtBehind(s, id) - 1 - lo)
    decreases s, 0
  {
    hide *;
    var head, amid := [KwIf] + ExprToks(s.c) + [LBrace], [RBrace, KwElse, LBrace];
    ProperBranches(s, lo, head);
    BranchBehind(s, id);
    var t, e := Toks(s.thn), Toks(s.els);
    if id in Ids(s.thn) {
      CodeText(s.thn, lo + |head|, id);
      FirstSemiInside(head, t, amid + e + [RBrace], id - lo, Behind(s.thn, id) - 1 - lo);
    } else {
      CodeText(s.els, lo + |head| + |t| + 3, id);
      FirstSemiElse(head, t, amid, e, [RBrace], id - lo, Behind(s.els, id) - 1 - lo);
    }
  }

  lemma BranchBehind(s: Stmt, id: nat)
    requires s.If? && id in StmtIds(s)
    ensures StmtBehind(s, id) == if id in Ids(s.thn) then Behind(s.thn, id) else Behind(s.els, id)
    ensures id in Ids(s.thn) || id in Ids(s.els)
  {
  }

  lemma FirstSemiElse(head: seq<Tok>, t: seq<Tok>, amid: seq<Tok>, e: seq<Tok>, foot: seq<Tok>, from: int, at: int)
    requires FirstSemi(e, from - (|head| + |t| + |amid|), at - (|head| + |t| + |amid|))
    ensures FirstSemi(head + t + (amid + e + foot), from, at)
  {
    FirstSemiInside(head + t + amid, e, foot, from, at);
    assert head + t + (amid + e + foot) == head + t + amid + e + foot;
  }

  lemma FirstSemiFront(a: seq<Tok>, b: seq<Tok>, from: int, at: int)
    requires FirstSemi(a, from, at)
    ensures FirstSemi(a + b, from, at)
  {
  }

  lemma FirstSemiBehind(a: seq<Tok>, b: seq<Tok>, from: int, at: int)
    requires FirstSemi(b, from - |a|, at - |a|)
    ensures FirstSemi(a + b, from, at)
  {
    FirstSemiInside(a, b, [], from, at);
    assert a + b + [] == a + b;
  }

  lemma {:induction false} CodeText(code: Code, lo: nat, id: nat)
    requires Proper(code, lo) && id in Ids(code)
    ensures FirstSemi(Toks(code), id - lo, Behind(code, id) - 1 - lo)
    decreases code
  {
    hide *;
    CodeParts(code, id);
    var Then(s, rest) := code;
    ProperParts(s, rest, lo);
    var a, b, mid := StmtToks(s), Toks(rest), lo + |StmtToks(s)|;
    if id in StmtIds(s) {
      StmtText(s, lo, id);
      FirstSemiFront(a, b, id - lo, StmtBehind(s, id) - 1 - lo);
    } else {
      CodeText(rest, mid, id);
      FirstSemiBehind(a, b, id - lo, Behind(rest, id) - 1 - lo);
    }
  }

  lemma CodeParts(code: Code, id: nat)
    requires id in Ids(code)
    ensures code.Then? && (id in StmtIds(code.head) || id in Ids(code.tail))
    ensures Behind(code, id) == if id in StmtIds(code.head) then StmtBehind(code.head, id) else Behind(code.tail, id)
  {
  }

  /** From the last token of an await, or any token of it, the search finds the semicolon that ends
      its statement, so the label lands between the statement and the next. */
  lemma SemiEndsAwait(body: Code, id: nat, o: nat)
    requires Proper(body, 1) && id in Ids(body) && id <= o < Behind(body, id) - 1
    ensures exists k :: o < k < |BodyToks(body)| && BodyToks(body)[k] == Semi
    ensures SemiAfter(BodyToks(body), o) + 1 == Behind(body, id)
  {
    CodeText(body, 1, id);
    FirstSemiInside([LBrace], Toks(body), [RBrace], id, Behind(body, id) - 1);
    assert BodyToks(body)[Behind(body, id) - 1] == Semi;
  }
}
