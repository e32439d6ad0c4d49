/** The rewriting phase as a whole: from a stage table to the edited text. */
module Patch {
  import opened Language
  import opened Points
  import opened Rewrite
  import opened Relabel
  import opened Buffer
  import opened Text
  import opened TextRewrite
  import opened Emit
  import opened Layout

  /** User code with bare and distinct awaits. */
  ghost predicate Bare(body: Code) {
    IsUser(body) && Void(body) && Distinct(body)
  }

  /** The ranks of offsets, as a function. */
  function Ranks(src: seq<Tok>): nat -> nat {
    (o: nat) => if o <= |src| then Rank(src, o) else 0
  }

  /** `src` is the text of the body, from brace to brace, with blanks anywhere between its tokens; the
      offset of every await is where its token stands. */
  ghost predicate LaidOut(src: seq<Tok>, body: Code) {
    && src != [] && src[0] == LBrace && Strip(src) == BodyToks(body)
    && (forall id :: id in Ids(body) ==> id < |src| && !src[id].Blank?)
    && Placed(NewCode(body, Ranks(src)), 1)
  }

  /** Behind the semicolon that the search from `o` finds. */
  ghost function EndIn(src: seq<Tok>, o: nat): nat {
    if HasSemi(src, o) then SemiAfter(src, o) + 1 else 0
  }

  ghost function EndsIn(src: seq<Tok>, ss: seq<Stage>): (r: seq<nat>)
    ensures |r| == |ss| && forall i :: 0 <= i < |ss| ==> r[i] == EndIn(src, ss[i].aw)
  {
    seq(|ss|, i requires 0 <= i < |ss| => EndIn(src, ss[i].aw))
  }

  // ----- the text and the bare text -----

  lemma {:induction false} NewToks(code: Code, f: nat -> nat)
    ensures Toks(NewCode(code, f)) == Toks(code)
    decreases code
  {
    match code
    case End =>
    case Then(s, rest) =>
      NewToks(rest, f);
      NewStmtToks(s, f);
      assert NewCode(code, f) == Then(NewStmt(s, f), NewCode(rest, f));
      hide NewCode, NewStmt, StmtToks;
  }

  lemma {:induction false} NewStmtToks(s: Stmt, f: nat -> nat)
    ensures StmtToks(NewStmt(s, f)) == StmtToks(s)
    decreases s
  {
    match s
    case Block(_, b) => NewToks(b, f);
    case If(_, _, t, _, e) => NewToks(t, f); NewToks(e, f);
    case While(_, _, b) => NewToks(b, f);
    case _ =>
  }

  lemma RanksInjective(src: seq<Tok>, body: Code)
    requires LaidOut(src, body)
    ensures Injective(Ranks(src), Ids(body))
  {
    forall a, b | a in Ids(body) && b in Ids(body) && a < b ensures Ranks(src)(a) != Ranks(src)(b) {
      RankRises(src, a, b);
    }
  }

  /** The body with the ranks of its awaits is printed in the bare text. */
  lemma BareBody(src: seq<Tok>, body: Code)
    requires LaidOut(src, body) && Bare(body)
    ensures Proper(NewCode(body, Ranks(src)), 1) && BodyToks(NewCode(body, Ranks(src))) == Strip(src)
  {
    RanksInjective(src, body);
    NewProper(body, Ranks(src));
    NewToks(body, Ranks(src));
  }

  /** The search from an await finds the semicolon that ends its statement. */
  lemma EndOfAwait(src: seq<Tok>, body: Code, id: nat)
    requires LaidOut(src, body) && Bare(body) && id in Ids(body)
    ensures id < |src| && HasSemi(src, id) && id < EndIn(src, id) <= |src| && !src[EndIn(src, id) - 1].Blank?
    ensures Rank(src, EndIn(src, id)) == Behind(NewCode(body, Ranks(src)), Rank(src, id))
  {
    BareBody(src, body);
    NewIds(body, Ranks(src));
    assert Ranks(src)(id) == Rank(src, id);
    hide *;
    EndByRank(src, NewCode(body, Ranks(src)), id);
  }

  lemma EndByRank(src: seq<Tok>, body: Code, id: nat)
    requires Proper(body, 1) && BodyToks(body) == Strip(src)
    requires id < |src| && !src[id].Blank? && Rank(src, id) in Ids(body)
    ensures HasSemi(src, id) && id < EndIn(src, id) <= |src| && !src[EndIn(src, id) - 1].Blank?
    ensures Rank(src, EndIn(src, id)) == Behind(body, Rank(src, id))
  {
    var at := Rank(src, id);
    CodeRange(body, 1, at);
    SemiIsThere(body, at);
    hide Proper, Ids, Behind, BodyToks, Strip;
    SemiEndsAwait(body, at, at);
    SemiAtRank(src, id);
  }

  lemma SemiIsThere(body: Code, at: nat)
    requires Proper(body, 1) && at in Ids(body)
    ensures at < Behind(body, at) - 1
  {
    CodeText(body, 1, at);
    hide Toks, Behind, Ids, Proper;
  }

  lemma RankedIsNew(src: seq<Tok>, body: Code, ss: seq<Stage>)
    requires LaidOut(src, body) && OneEach(body, ss)
    ensures forall i :: 0 <= i < |ss| ==> ss[i].aw < |src|
    ensures RankedStages(src, ss) == NewStages(ss, Ranks(src))
  {
  }

  lemma EndsFixed(src: seq<Tok>, body: Code, ss: seq<Stage>)
    requires LaidOut(src, body) && Bare(body) && OneEach(body, ss)
    ensures Fixed(src, ss, EndsIn(src, ss))
    ensures forall i :: 0 <= i < |ss| ==>
      RankedEnds(src, EndsIn(src, ss))[i] == Behind(NewCode(body, Ranks(src)), Rank(src, ss[i].aw))
  {
    forall i | 0 <= i < |ss|
      ensures ss[i].aw < |src| && 0 < EndIn(src, ss[i].aw) <= |src| && !src[EndIn(src, ss[i].aw) - 1].Blank?
      ensures Rank(src, EndIn(src, ss[i].aw)) == Behind(NewCode(body, Ranks(src)), Rank(src, ss[i].aw))
    {
      EndOfAwait(src, body, ss[i].aw);
    }
    hide NewCode, Bare, Behind, StageNo, EndIn, Placed, Strip;
  }

  lemma OneEachRanked(src: seq<Tok>, body: Code, ss: seq<Stage>)
    requires LaidOut(src, body) && OneEach(body, ss)
    ensures OneEach(NewCode(body, Ranks(src)), NewStages(ss, Ranks(src)))
  {
    RanksInjective(src, body);
    hide LaidOut, Ranks;
    OneEachNew(body, ss, Ranks(src));
  }

  /** In the bare text, every await has one stage, ending behind its statement. */
  lemma BareSites(src: seq<Tok>, body: Code, ss: seq<Stage>)
    requires LaidOut(src, body) && Bare(body) && OneEach(body, ss)
    ensures Fixed(src, ss, EndsIn(src, ss))
    ensures SitesOf(NewCode(body, Ranks(src)), RankedStages(src, ss), RankedEnds(src, EndsIn(src, ss)))
  {
    EndsFixed(src, body, ss);
    RankedIsNew(src, body, ss);
    OneEachRanked(src, body, ss);
    hide NewCode, LaidOut, Bare, Behind, StageNo, NewStages, RankedEnds, Ranks;
  }

  /** Distinct ranks are distinct offsets. */
  lemma SitesInText(src: seq<Tok>, body: Code, ss: seq<Stage>)
    requires LaidOut(src, body) && Bare(body) && OneEach(body, ss)
    ensures Sites(ss, EndsIn(src, ss))
    ensures forall i :: 0 <= i < |ss| ==> ss[i].aw < |src| && EndIn(src, ss[i].aw) <= |src|
  {
    hide LaidOut, Bare, SitesOf, Proper, NewCode, StageNo, Ids, EndIn, Ranks, Rank;
    EndsFixed(src, body, ss);
    BareSites(src, body, ss);
    BareBody(src, body);
    SitesOfBody(NewCode(body, Ranks(src)), RankedStages(src, ss), RankedEnds(src, EndsIn(src, ss)));
    SitesByRank(src, ss, EndsIn(src, ss));
    forall i | 0 <= i < |ss| ensures ss[i].aw < EndIn(src, ss[i].aw) <= |src| {
      EndOfAwait(src, body, ss[i].aw);
    }
  }

  lemma SitesByRank(src: seq<Tok>, ss: seq<Stage>, ends: seq<nat>)
    requires Fixed(src, ss, ends) && Sites(RankedStages(src, ss), RankedEnds(src, ends))
    ensures forall i, k :: 0 <= i < k < |ss| ==> ss[i].aw != ss[k].aw && ends[i] != ends[k]
  {
    var ss', ends' := RankedStages(src, ss), RankedEnds(src, ends);
    forall i, k | 0 <= i < k < |ss| ensures ss[i].aw != ss[k].aw && ends[i] != ends[k] {
      assert ss'[i].aw != ss'[k].aw && ends'[i] != ends'[k];
    }
  }

  /** Loads before saves, the text is that of the rewritten code. */
  lemma LoadsFirstInText(src: seq<Tok>, body: Code, ss: seq<Stage>)
    requires LaidOut(src, body) && Bare(body) && OneEach(body, ss)
    ensures Strip(Render(src, SavesAfter(ss, EndsIn(src, ss), |ss|), 0)) == BodyToks(Rewritten(body, ss, Emitted))
  {
    var f := Ranks(src);
    BareSites(src, body, ss);
    BareBody(src, body);
    BlanksDoNotMatter(src, ss, EndsIn(src, ss));
    LoadsFirstIsRewritten(NewCode(body, f), RankedStages(src, ss), RankedEnds(src, EndsIn(src, ss)));
    RankedIsNew(src, body, ss);
    RewrittenAlike(src, body, ss);
    hide Strip, Render, SavesAfter, BodyToks, Rewritten, NewCode, LaidOut, Bare;
  }

  lemma RewrittenAlike(src: seq<Tok>, body: Code, ss: seq<Stage>)
    requires LaidOut(src, body) && Bare(body) && OneEach(body, ss)
    ensures
      var f := Ranks(src);
      BodyToks(Rewritten(NewCode(body, f), NewStages(ss, f), Emitted)) == BodyToks(Rewritten(body, ss, Emitted))
  {
    var f := Ranks(src);
    hide LaidOut, Ranks, NewCode, Toks;
    RanksInjective(src, body);
    NewRewritten(body, ss, Emitted, f);
    NewToks(Rewritten(body, ss, Emitted), f);
  }

  /** The insertions give exactly the tokens of the rewritten code if and only if, wherever one await's
      statement ends at the very offset where another await begins, the former was visited first.
      Where no two statements touch, any order will do: it only numbers the stages. */
  lemma InsertionsAreRewriting(src: seq<Tok>, body: Code, ss: seq<Stage>)
    requires LaidOut(src, body) && Bare(body) && OneEach(body, ss)
    ensures Strip(Render(src, Edits(ss, EndsIn(src, ss), |ss|), 0)) == BodyToks(Rewritten(body, ss, Emitted))
        <==> InOrder(ss, EndsIn(src, ss))
  {
    SitesInText(src, body, ss);
    LoadsFirstInText(src, body, ss);
    hide Strip, Render, SavesAfter, Edits, BodyToks, Rewritten, LaidOut, Bare, OneEach, Sites, InOrder;
    OrderMatters(src, ss, EndsIn(src, ss));
  }

  // ----- the tool's loop -----

  lemma EditsNext(ss: seq<Stage>, ends: seq<nat>, n: nat, es: seq<Edit<Tok>>, load: nat)
    requires n < |ss| == |ends| && es == Edits(ss, ends, n) && load == ends[n]
    ensures es + [Edit(ss[n].aw, SavePiece(ss, n))] + [Edit(load, LoadPiece(ss, n))] == Edits(ss, ends, n + 1)
  {
  }

  lemma EditsStart(ss: seq<Stage>, ends: seq<nat>)
    requires |ss| == |ends|
    ensures [] + [Edit(1, PreamblePiece(ss))] == Edits(ss, ends, 0)
  {
  }

  /** Insert the save and the load of one stage. */
  method PatchStage(buffer: RewriteBuffer<Tok>, ss: seq<Stage>, ghost ends: seq<nat>, n: nat, load: nat)
    requires n < |ss| == |ends| && load == ends[n] && ss[n].aw <= |buffer.src| && load <= |buffer.src|
    requires buffer.Valid() && buffer.edits == Edits(ss, ends, n)
    modifies buffer
    ensures buffer.Valid() && buffer.src == old(buffer.src) && buffer.edits == Edits(ss, ends, n + 1)
  {
    EditsNext(ss, ends, n, buffer.edits, load);
    buffer.Insert(ss[n].aw, SavePiece(ss, n));
    buffer.Insert(load, LoadPiece(ss, n));
  }

  /** The search can be made at every await. */
  ghost predicate Searchable(src: seq<Tok>, ss: seq<Stage>) {
    forall i :: 0 <= i < |ss| ==> ss[i].aw < |src| && HasSemi(src, ss[i].aw)
  }

  lemma StageSites(src: seq<Tok>, body: Code, ss: seq<Stage>)
    requires LaidOut(src, body) && Bare(body) && OneEach(body, ss)
    ensures src != [] && Searchable(src, ss)
  {
    forall i | 0 <= i < |ss| ensures ss[i].aw < |src| && HasSemi(src, ss[i].aw) {
      EndOfAwait(src, body, ss[i].aw);
    }
  }

  /** Insert the preamble, then for each stage in turn its save at the await and its load behind the
      semicolon found from there. */
  method RewriteBody(src: seq<Tok>, ghost body: Code, ss: seq<Stage>) returns (out: seq<Tok>)
    requires LaidOut(src, body) && Bare(body) && OneEach(body, ss)
    ensures out == Render(src, Edits(ss, EndsIn(src, ss), |ss|), 0)
    ensures Strip(out) == BodyToks(Rewritten(body, ss, Emitted)) <==> InOrder(ss, EndsIn(src, ss))
  {
    InsertionsAreRewriting(src, body, ss);
    StageSites(src, body, ss);
    hide *;
    out := Insertions(src, ss);
  }

  method Insertions(src: seq<Tok>, ss: seq<Stage>) returns (out: seq<Tok>)
    requires src != [] && Searchable(src, ss)
    ensures out == Render(src, Edits(ss, EndsIn(src, ss), |ss|), 0)
  {
    ghost var ends := EndsIn(src, ss);
    EditsStart(ss, ends);
    var buffer := new RewriteBuffer<Tok>(src);
    hide Render, Edits, SavePiece, LoadPiece, PreamblePiece, Searchable, EndIn, EndsIn;
    buffer.Insert(1, PreamblePiece(ss));
    var n := 0;
    while n < |ss|
      invariant 0 <= n <= |ss|
      invariant buffer.Valid() && buffer.src == src && buffer.edits == Edits(ss, ends, n)
      invariant fresh(buffer)
    {
      var load := LoadSite(src, ss, n);
      PatchStage(buffer, ss, ends, n, load);
      n := n + 1;
    }
    out := buffer.text;
    BufferText(buffer);
  }

  /** Where the load of a stage goes. */
  method LoadSite(src: seq<Tok>, ss: seq<Stage>, n: nat) returns (at: nat)
    requires Searchable(src, ss) && n < |ss|
    ensures at == EndIn(src, ss[n].aw) <= |src| && ss[n].aw <= |src|
  {
    at := SemiAfter(src, ss[n].aw) + 1;
  }

  lemma BufferText(buffer: RewriteBuffer<Tok>)
    requires buffer.Valid()
    ensures buffer.text == Render(buffer.src, buffer.edits, 0)
  {
  }
}
