/** Texts with blanks between the tokens.  Offsets count blanks as well, so that one statement ends
    where the next begins only if nothing stands between them. */
module Layout {
  import opened Rewrite
  import opened Buffer
  import opened Text

  /** The tokens without the blanks. */
  function Strip(ts: seq<Tok>): seq<Tok> {
    if ts == [] then [] else (if ts[0].Blank? then [] else [ts[0]]) + Strip(ts[1..])
  }

  predicate NoBlanks(ts: seq<Tok>) {
    forall i :: 0 <= i < |ts| ==> !ts[i].Blank?
  }

  /** How many tokens stand before offset `o`. */
  function Rank(src: seq<Tok>, o: nat): (r: nat)
    requires o <= |src|
    ensures r <= o
  {
    if o == 0 then 0 else Rank(src, o - 1) + if src[o - 1].Blank? then 0 else 1
  }

  lemma {:induction false} StripJoin(a: seq<Tok>, b: seq<Tok>)
    ensures Strip(a + b) == Strip(a) + Strip(b)
  {
    if a == [] {
      assert a + b == b;
    } else {
      assert (a + b)[1..] == a[1..] + b;
      StripJoin(a[1..], b);
    }
  }

  lemma {:induction false} StripNoBlanks(ts: seq<Tok>)
    requires NoBlanks(ts)
    ensures Strip(ts) == ts
  {
    if ts != [] { StripNoBlanks(ts[1..]); }
  }

  /** A token of the text is found in the bare text at its rank. */
  lemma {:induction false} RankInStrip(src: seq<Tok>, o: nat)
    requires o <= |src|
    ensures Rank(src, o) <= |Strip(src)| && Strip(src[o..]) == Strip(src)[Rank(src, o)..]
  {
    if o == 0 {
      assert src[0..] == src;
    } else {
      RankInStrip(src, o - 1);
      assert src[o - 1..][1..] == src[o..];
    }
  }

  lemma TokenAtRank(src: seq<Tok>, o: nat)
    requires o < |src| && !src[o].Blank?
    ensures Rank(src, o) < |Strip(src)| && Strip(src)[Rank(src, o)] == src[o]
  {
    RankInStrip(src, o);
    assert Strip(src[o..])[0] == src[o];
  }

  lemma RankOfAll(src: seq<Tok>)
    ensures Rank(src, |src|) == |Strip(src)|
  {
    RankInStrip(src, |src|);
    assert src[|src|..] == [];
  }

  lemma {:induction false} RankRises(src: seq<Tok>, a: nat, b: nat)
    requires a <= b <= |src|
    ensures Rank(src, a) <= Rank(src, b)
    ensures a < b && !src[a].Blank? ==> Rank(src, a) < Rank(src, b)
    decreases b
  {
    if a < b { RankRises(src, a, b - 1); }
  }

  /** Every token of the bare text stands somewhere. */
  lemma {:induction false} TokenOfRank(src: seq<Tok>, n: nat, k: nat) returns (o: nat)
    requires n <= |src| && k < Rank(src, n)
    ensures o < n && !src[o].Blank? && Rank(src, o) == k
    decreases n
  {
    if k < Rank(src, n - 1) { o := TokenOfRank(src, n - 1, k); } else { o := n - 1; }
  }

  // ----- the end of an await statement -----

  ghost predicate HasSemi(src: seq<Tok>, o: nat) {
    exists k :: o < k < |src| && src[k] == Semi
  }

  /** In the bare text, the search finds the same semicolon. */
  lemma SemiAtRank(src: seq<Tok>, o: nat)
    requires o < |src| && !src[o].Blank? && HasSemi(Strip(src), Rank(src, o))
    ensures HasSemi(src, o)
    ensures !src[SemiAfter(src, o)].Blank? && Rank(src, SemiAfter(src, o)) == SemiAfter(Strip(src), Rank(src, o))
  {
    var dense, k := Strip(src), SemiAfter(Strip(src), Rank(src, o));
    RankOfAll(src);
    var p := TokenOfRank(src, |src|, k);
    TokenAtRank(src, p);
    if p <= o { RankRises(src, p, o); }
    var r := SemiAfter(src, o);
    TokenAtRank(src, r);
    RankRises(src, o, r);
    RankRises(src, r, p);
    assert dense[Rank(src, r)] == Semi;
  }

  // ----- insertions into a text with blanks -----

  /** Stages and ends by the ranks of their offsets. */
  function RankedStages(src: seq<Tok>, ss: seq<Stage>): (r: seq<Stage>)
    requires forall i :: 0 <= i < |ss| ==> ss[i].aw <= |src|
    ensures |r| == |ss| && forall i :: 0 <= i < |ss| ==> r[i] == Stage(Rank(src, ss[i].aw), ss[i].vars)
  {
    seq(|ss|, i requires 0 <= i < |ss| => Stage(Rank(src, ss[i].aw), ss[i].vars))
  }

  function RankedEnds(src: seq<Tok>, ends: seq<nat>): (r: seq<nat>)
    requires forall i :: 0 <= i < |ends| ==> ends[i] <= |src|
    ensures |r| == |ends| && forall i :: 0 <= i < |ends| ==> r[i] == Rank(src, ends[i])
  {
    seq(|ends|, i requires 0 <= i < |ends| => Rank(src, ends[i]))
  }

  /** Right behind a token, or at the very beginning. */
  predicate AfterToken(src: seq<Tok>, o: nat)
    requires o <= |src|
  {
    o == 0 || !src[o - 1].Blank?
  }

  /** Saves go in front of tokens, loads right behind tokens, and the text begins with a token. */
  ghost predicate Fixed(src: seq<Tok>, ss: seq<Stage>, ends: seq<nat>) {
    && |ss| == |ends| && src != [] && !src[0].Blank?
    && (forall i :: 0 <= i < |ss| ==> ss[i].aw < |src| && !src[ss[i].aw].Blank?)
    && (forall i :: 0 <= i < |ss| ==> 0 < ends[i] <= |src| && !src[ends[i] - 1].Blank?)
  }

  lemma RankNext(src: seq<Tok>, o: nat)
    requires o < |src|
    ensures Rank(src, o + 1) == Rank(src, o) + (if src[o].Blank? then 0 else 1)
    ensures AfterToken(src, o + 1) <==> !src[o].Blank?
  {
  }

  /** Places right in front of tokens are told apart by their ranks, */
  lemma FrontByRank(src: seq<Tok>, a: nat, b: nat)
    requires a < |src| && b < |src| && !src[a].Blank? && !src[b].Blank?
    ensures a == b <==> Rank(src, a) == Rank(src, b)
  {
    if a < b { RankRises(src, a, b); }
    if b < a { RankRises(src, b, a); }
  }

  /** and so are places right behind tokens. */
  lemma BackByRank(src: seq<Tok>, a: nat, b: nat)
    requires 0 < a <= |src| && b <= |src| && !src[a - 1].Blank? && AfterToken(src, b)
    ensures a == b <==> Rank(src, a) == Rank(src, b)
  {
    RankNext(src, a - 1);
    if b > 0 {
      RankNext(src, b - 1);
      FrontByRank(src, a - 1, b - 1);
    }
  }

  lemma FixedBounds(src: seq<Tok>, ss: seq<Stage>, ends: seq<nat>)
    requires Fixed(src, ss, ends)
    ensures |ss| == |ends| && forall i :: 0 <= i < |ss| ==> ss[i].aw <= |src|
  {
  }

  lemma FixedAt(src: seq<Tok>, ss: seq<Stage>, ends: seq<nat>, i: nat)
    requires Fixed(src, ss, ends) && i < |ss|
    ensures ss[i].aw < |src| && !src[ss[i].aw].Blank? && 0 < ends[i] <= |src| && !src[ends[i] - 1].Blank?
  {
  }

  lemma {:induction false} SaveAtRank(src: seq<Tok>, ss: seq<Stage>, ends: seq<nat>, k: nat, o: nat)
    requires Fixed(src, ss, ends) && k <= |ss| && o <= |src|
    ensures SaveHere(ss, k, o) ==
      if o < |src| && !src[o].Blank? then SaveHere(RankedStages(src, ss), k, Rank(src, o)) else []
    decreases k
  {
    hide *;
    FixedBounds(src, ss, ends);
    var ss' := RankedStages(src, ss);
    if k == 0 {
      SaveNone(ss, o);
      SaveNone(ss', Rank(src, o));
    } else {
      SaveAtRank(src, ss, ends, k - 1, o);
      SaveStep(ss, k, o);
      SaveStep(ss', k, Rank(src, o));
      FixedAt(src, ss, ends, k - 1);
      if o < |src| && !src[o].Blank? { FrontByRank(src, ss[k - 1].aw, o); }
      SameSave(src, ss, k - 1);
    }
  }

  lemma SaveNone(ss: seq<Stage>, o: nat)
    ensures SaveHere(ss, 0, o) == []
  {
  }

  lemma SaveStep(ss: seq<Stage>, k: nat, o: nat)
    requires 0 < k <= |ss|
    ensures SaveHere(ss, k, o) == SaveHere(ss, k - 1, o) + if ss[k - 1].aw == o then SavePiece(ss, k - 1) else []
    ensures SaveHere(ss, k - 1, o) == [] && ss[k - 1].aw != o ==> SaveHere(ss, k, o) == []
  {
  }

  lemma SameSave(src: seq<Tok>, ss: seq<Stage>, i: nat)
    requires i < |ss| && forall k :: 0 <= k < |ss| ==> ss[k].aw <= |src|
    ensures SavePiece(RankedStages(src, ss), i) == SavePiece(ss, i)
    ensures LoadPiece(RankedStages(src, ss), i) == LoadPiece(ss, i)
  {
  }

  lemma {:induction false} LoadAtRank(src: seq<Tok>, ss: seq<Stage>, ends: seq<nat>, k: nat, o: nat)
    requires Fixed(src, ss, ends) && k <= |ss| && o <= |src|
    ensures LoadHere(ss, ends, k, o) ==
      if AfterToken(src, o) then LoadHere(RankedStages(src, ss), RankedEnds(src, ends), k, Rank(src, o)) else []
    decreases k
  {
    hide Rank, LoadPiece, AfterToken;
    if k > 0 {
      LoadAtRank(src, ss, ends, k - 1, o);
      if AfterToken(src, o) { BackByRank(src, ends[k - 1], o); } else { NotBehind(src, ends[k - 1], o); }
      SameSave(src, ss, k - 1);
    }
  }

  lemma NotBehind(src: seq<Tok>, a: nat, b: nat)
    requires 0 < a <= |src| && b <= |src| && !src[a - 1].Blank? && !AfterToken(src, b)
    ensures a != b
  {
  }

  lemma PreAtRank(src: seq<Tok>, ss: seq<Stage>, ends: seq<nat>, o: nat)
    requires Fixed(src, ss, ends) && o <= |src|
    ensures PreHere(ss, o) == if AfterToken(src, o) then PreHere(RankedStages(src, ss), Rank(src, o)) else []
  {
    if o > 1 { RankRises(src, 1, o - 1); }
    assert Rank(src, 0) == 0 && Rank(src, 1) == 1;
    assert PreamblePiece(RankedStages(src, ss)) == PreamblePiece(ss);
  }

  // ----- bare texts -----

  lemma StripRender(src: seq<Tok>, es: seq<Edit<Tok>>, o: nat)
    requires o <= |src| && NoBlanks(Pieces(es, o))
    ensures Strip(Render(src, es, o)) == Pieces(es, o) +
      if o == |src| then [] else (if src[o].Blank? then [] else [src[o]]) + Strip(Render(src, es, o + 1))
  {
    StripNoBlanks(Pieces(es, o));
    if o < |src| {
      var r := Render(src, es, o + 1);
      StripJoin(Pieces(es, o), [src[o]] + r);
      assert ([src[o]] + r)[1..] == r;
    } else {
      assert Pieces(es, o) + [] == Pieces(es, o);
    }
  }

  /** Insertions of the same sizes, without blanks, give the same bare text exactly if they are the same. */
  lemma {:induction false} BareDetermines(src: seq<Tok>, es: seq<Edit<Tok>>, es': seq<Edit<Tok>>, o: nat)
    requires o <= |src| && SameSizes(es, es', o, |src|)
    requires forall k :: o <= k <= |src| ==> NoBlanks(Pieces(es, k)) && NoBlanks(Pieces(es', k))
    ensures Strip(Render(src, es, o)) == Strip(Render(src, es', o)) <==> SamePieces(es, es', o, |src|)
    decreases |src| - o
  {
    hide *;
    SizesSplit(es, es', o, |src|);
    SamePiecesSplit(es, es', o, |src|);
    StripRender(src, es, o);
    StripRender(src, es', o);
    if o < |src| {
      BareDetermines(src, es, es', o + 1);
      var c := if src[o].Blank? then [] else [src[o]];
      SameSplit(Pieces(es, o), Pieces(es', o), c, Strip(Render(src, es, o + 1)), Strip(Render(src, es', o + 1)));
    } else {
      NothingMore(Pieces(es, o), Pieces(es', o));
      NoPieces(es, es', o + 1, |src|);
    }
  }

  lemma SizesSplit(es: seq<Edit<Tok>>, es': seq<Edit<Tok>>, lo: nat, hi: nat)
    requires lo <= hi && SameSizes(es, es', lo, hi)
    ensures |Pieces(es, lo)| == |Pieces(es', lo)| && SameSizes(es, es', lo + 1, hi)
  {
    hide Pieces;
  }

  lemma NothingMore(p: seq<Tok>, p': seq<Tok>)
    ensures p + [] == p && p' + [] == p'
  {
  }

  lemma NoPieces(es: seq<Edit<Tok>>, es': seq<Edit<Tok>>, lo: nat, hi: nat)
    requires hi < lo
    ensures SamePieces(es, es', lo, hi)
  {
  }

  lemma SameSplit(p: seq<Tok>, p': seq<Tok>, c: seq<Tok>, r: seq<Tok>, r': seq<Tok>)
    requires |p| == |p'|
    ensures p + (c + r) == p' + (c + r') <==> p == p' && r == r'
  {
    if p + (c + r) == p' + (c + r') {
      assert (p + (c + r))[..|p|] == p && (p' + (c + r'))[..|p|] == p';
      assert (p + (c + r))[|p| + |c|..] == r && (p' + (c + r'))[|p| + |c|..] == r';
    }
  }

  /** The bare text behind the pieces at a rank. */
  function Tail(dense: seq<Tok>, es: seq<Edit<Tok>>, k: nat): seq<Tok>
    requires k <= |dense|
  {
    if k == |dense| then [] else [dense[k]] + Render(dense, es, k + 1)
  }

  lemma RenderTail(dense: seq<Tok>, ss: seq<Stage>, ends: seq<nat>, k: nat)
    requires |ss| == |ends| && k <= |dense|
    ensures Render(dense, SavesAfter(ss, ends, |ss|), k) ==
      (PreHere(ss, k) + LoadHere(ss, ends, |ss|, k))
          + (SaveHere(ss, |ss|, k) + Tail(dense, SavesAfter(ss, ends, |ss|), k))
  {
    SavesAfterSplit(ss, ends, |ss|, k);
    var es := SavesAfter(ss, ends, |ss|);
    var a, b, t := PreHere(ss, k) + LoadHere(ss, ends, |ss|, k), SaveHere(ss, |ss|, k), Tail(dense, es, k);
    assert Pieces(es, k) + [] == Pieces(es, k);
    hide Render, PreHere, LoadHere, SaveHere, SavesAfter, Pieces;
    Assoc(a, b, t);
  }

  lemma {:induction false} HereNoBlanks(ss: seq<Stage>, ends: seq<nat>, k: nat, o: nat)
    requires k <= |ss| == |ends|
    ensures NoBlanks(PreHere(ss, o)) && NoBlanks(LoadHere(ss, ends, k, o)) && NoBlanks(SaveHere(ss, k, o))
  {
    if k > 0 { HereNoBlanks(ss, ends, k - 1, o); }
  }

  /** What is inserted at an offset of the text, by what is inserted at its rank in the bare text. */
  lemma PiecesAtRank(src: seq<Tok>, ss: seq<Stage>, ends: seq<nat>, o: nat)
    requires Fixed(src, ss, ends) && o <= |src|
    ensures
      var ss', ends', k := RankedStages(src, ss), RankedEnds(src, ends), Rank(src, o);
      var p := Pieces(SavesAfter(ss, ends, |ss|), o);
      && NoBlanks(p)
      && p == (if AfterToken(src, o) then PreHere(ss', k) + LoadHere(ss', ends', |ss'|, k) else [])
            + (if o < |src| && !src[o].Blank? then SaveHere(ss', |ss'|, k) else [])
  {
    hide PreHere, LoadHere, SaveHere, SavesAfter, Pieces, Rank, AfterToken, NoBlanks;
    SavesAfterSplit(ss, ends, |ss|, o);
    HereNoBlanks(ss, ends, |ss|, o);
    BlankFreeJoin(PreHere(ss, o), LoadHere(ss, ends, |ss|, o), SaveHere(ss, |ss|, o));
    PreAtRank(src, ss, ends, o);
    LoadAtRank(src, ss, ends, |ss|, o);
    SaveAtRank(src, ss, ends, |ss|, o);
  }

  lemma BlankFreeJoin(a: seq<Tok>, b: seq<Tok>, c: seq<Tok>)
    requires NoBlanks(a) && NoBlanks(b) && NoBlanks(c)
    ensures NoBlanks(a + b + c)
  {
  }

  /** From an offset on, the bare rewritten text is that of the rewritten bare text. */
  ghost predicate Lifts(src: seq<Tok>, ss: seq<Stage>, ends: seq<nat>, o: nat)
    requires Fixed(src, ss, ends) && o <= |src| && Rank(src, o) <= |Strip(src)|
  {
    var ss', ends', k := RankedStages(src, ss), RankedEnds(src, ends), Rank(src, o);
    Strip(Render(src, SavesAfter(ss, ends, |ss|), o))
    == (if AfterToken(src, o) then PreHere(ss', k) + LoadHere(ss', ends', |ss'|, k) else [])
     + (SaveHere(ss', |ss'|, k) + Tail(Strip(src), SavesAfter(ss', ends', |ss'|), k))
  }

  lemma {:induction false} LiftRender(src: seq<Tok>, ss: seq<Stage>, ends: seq<nat>, o: nat)
    requires Fixed(src, ss, ends) && o <= |src|
    ensures Rank(src, o) <= |Strip(src)| && Lifts(src, ss, ends, o)
    decreases |src| - o
  {
    RankInStrip(src, o);
    PiecesAtRank(src, ss, ends, o);
    StripRender(src, SavesAfter(ss, ends, |ss|), o);
    if o == |src| {
      LiftEnd(src, ss, ends);
    } else {
      LiftRender(src, ss, ends, o + 1);
      if src[o].Blank? { LiftBlank(src, ss, ends, o); } else { LiftToken(src, ss, ends, o); }
    }
  }

  lemma LiftEnd(src: seq<Tok>, ss: seq<Stage>, ends: seq<nat>)
    requires Fixed(src, ss, ends)
    requires Strip(Render(src, SavesAfter(ss, ends, |ss|), |src|)) == Pieces(SavesAfter(ss, ends, |ss|), |src|) + []
    ensures Rank(src, |src|) <= |Strip(src)| && Lifts(src, ss, ends, |src|)
  {
    RankOfAll(src);
    PiecesAtRank(src, ss, ends, |src|);
    var ss', ends', k := RankedStages(src, ss), RankedEnds(src, ends), Rank(src, |src|);
    forall i | 0 <= i < |ss'| ensures ss'[i].aw != k {
      RankRises(src, ss[i].aw, |src|);
    }
    NoSaveHere(ss', |ss'|, k);
    var a := if AfterToken(src, |src|) then PreHere(ss', k) + LoadHere(ss', ends', |ss'|, k) else [];
    assert a + ([] + []) == a + [] + [];
    hide Render, PreHere, LoadHere, SaveHere, SavesAfter, Pieces, Strip, Rank, AfterToken, Fixed;
  }

  lemma LiftBlank(src: seq<Tok>, ss: seq<Stage>, ends: seq<nat>, o: nat)
    requires Fixed(src, ss, ends) && o < |src| && src[o].Blank?
    requires Rank(src, o + 1) <= |Strip(src)| && Lifts(src, ss, ends, o + 1)
    requires
      var es := SavesAfter(ss, ends, |ss|);
      Strip(Render(src, es, o)) == Pieces(es, o) + ([] + Strip(Render(src, es, o + 1)))
    ensures Rank(src, o) <= |Strip(src)| && Lifts(src, ss, ends, o)
  {
    hide Render, PreHere, LoadHere, SaveHere, SavesAfter, Pieces, Strip, Rank, AfterToken, Tail;
    PiecesAtRank(src, ss, ends, o);
    RankNext(src, o);
  }

  lemma LiftToken(src: seq<Tok>, ss: seq<Stage>, ends: seq<nat>, o: nat)
    requires Fixed(src, ss, ends) && o < |src| && !src[o].Blank?
    requires Rank(src, o + 1) <= |Strip(src)| && Lifts(src, ss, ends, o + 1)
    requires
      var es := SavesAfter(ss, ends, |ss|);
      Strip(Render(src, es, o)) == Pieces(es, o) + ([src[o]] + Strip(Render(src, es, o + 1)))
    ensures Rank(src, o) <= |Strip(src)| && Lifts(src, ss, ends, o)
  {
    hide Render, PreHere, LoadHere, SaveHere, SavesAfter, Pieces, Strip, Rank, AfterToken;
    PiecesAtRank(src, ss, ends, o);
    TokenAtRank(src, o);
    RankNext(src, o);
    var ss', ends', k := RankedStages(src, ss), RankedEnds(src, ends), Rank(src, o);
    RenderTail(Strip(src), ss', ends', k + 1);
    var a := if AfterToken(src, o) then PreHere(ss', k) + LoadHere(ss', ends', |ss'|, k) else [];
    Assoc(a, SaveHere(ss', |ss'|, k), Tail(Strip(src), SavesAfter(ss', ends', |ss'|), k));
  }

  /** With all loads before all saves, blanks make no difference. */
  lemma BlanksDoNotMatter(src: seq<Tok>, ss: seq<Stage>, ends: seq<nat>)
    requires Fixed(src, ss, ends)
    ensures
      var ss', ends' := RankedStages(src, ss), RankedEnds(src, ends);
      Strip(Render(src, SavesAfter(ss, ends, |ss|), 0)) == Render(Strip(src), SavesAfter(ss', ends', |ss'|), 0)
  {
    LiftRender(src, ss, ends, 0);
    RenderTail(Strip(src), RankedStages(src, ss), RankedEnds(src, ends), 0);
    assert AfterToken(src, 0) && Rank(src, 0) == 0;
    hide Render, PreHere, LoadHere, SaveHere, SavesAfter, Strip, Rank, AfterToken, Fixed, Tail;
  }

  // ----- when the order of the stages matters -----

  /** The pieces inserted, in either order, contain no blanks. */
  lemma {:induction false} EditsNoBlanks(ss: seq<Stage>, ends: seq<nat>, k: nat, o: nat)
    requires k <= |ss| == |ends|
    ensures NoBlanks(Pieces(Edits(ss, ends, k), o))
  {
    hide *;
    if k == 0 {
      EditsBase(ss, ends, o);
      HereNoBlanks(ss, ends, 0, o);
    } else {
      EditsNoBlanks(ss, ends, k - 1, o);
      EditsStep(ss, ends, k, o);
      PieceNoBlanks(ss, k - 1);
      BlankFreeJoin(Pieces(Edits(ss, ends, k - 1), o), if ss[k - 1].aw == o then SavePiece(ss, k - 1) else [],
                    if ends[k - 1] == o then LoadPiece(ss, k - 1) else []);
    }
  }

  lemma PieceNoBlanks(ss: seq<Stage>, i: nat)
    requires i < |ss|
    ensures NoBlanks(SavePiece(ss, i)) && NoBlanks(LoadPiece(ss, i)) && NoBlanks([])
  {
  }

  /** Inserting in the order visited gives the same tokens as putting loads before saves exactly if the
      stages at shared offsets were visited in source order. */
  lemma OrderMatters(src: seq<Tok>, ss: seq<Stage>, ends: seq<nat>)
    requires Sites(ss, ends) && forall i :: 0 <= i < |ss| ==> ends[i] <= |src|
    ensures Strip(Render(src, Edits(ss, ends, |ss|), 0)) == Strip(Render(src, SavesAfter(ss, ends, |ss|), 0))
        <==> InOrder(ss, ends)
  {
    hide Render, Edits, SavesAfter, Pieces, SameSizes, Strip, PreHere, LoadHere, SaveHere;
    var es, es' := Edits(ss, ends, |ss|), SavesAfter(ss, ends, |ss|);
    EditSizes(ss, ends, |src|);
    forall k | 0 <= k <= |src| ensures NoBlanks(Pieces(es, k)) && NoBlanks(Pieces(es', k)) {
      EditsNoBlanks(ss, ends, |ss|, k);
      HereNoBlanks(ss, ends, |ss|, k);
      SavesAfterSplit(ss, ends, |ss|, k);
    }
    BareDetermines(src, es, es', 0);
    if InOrder(ss, ends) {
      EditsAlike(ss, ends, |src|);
    } else {
      var i, k :| 0 <= i < |ss| && 0 <= k < |ss| && ends[i] == ss[k].aw && i >= k;
      WrongOrder(ss, ends, i, k);
    }
  }
}
