/** Two awaits in a row, delivered to the tool in the wrong order: harmless if anything stands between
    their statements, and wrong code if nothing does. */
module Touching {
  import opened Wire
  import opened Language
  import opened Points
  import opened Rewrite
  import opened Relabel
  import opened Buffer
  import opened Scopes
  import opened Collector
  import opened Simulation
  import opened Runs
  import opened Transparency
  import opened Text
  import opened Layout
  import opened Patch
  import opened Parse
  import opened Tool

  function Blanks(n: nat): (r: seq<Tok>)
    ensures |r| == n && forall i :: 0 <= i < n ==> r[i] == Blank
  {
    if n == 0 then [] else Blanks(n - 1) + [Blank]
  }

  const HEAD := [LBrace, KwAwait, Number(1), Semi]
  const FOOT := [KwAwait, Number(2), Semi, RBrace]

  /** { co_await 1; co_await 2; }   with `gap` blanks between the statements */
  function Source(gap: nat): seq<Tok> {
    HEAD + Blanks(gap) + FOOT
  }

  function Second(at: nat): Code {
    Then(Await(at, Discard, Lit(2)), End)
  }

  function Body(gap: nat): Code {
    Then(Await(1, Discard, Lit(1)), Second(4 + gap))
  }

  function Function(gap: nat): Fun {
    Fun([], 0, Body(gap))
  }

  /** The second await is delivered first. */
  function Backwards(gap: nat): seq<Match> {
    [Match(Function(gap), 4 + gap, None), Match(Function(gap), 1, None)]
  }

  lemma {:induction false} RankInBlanks(gap: nat, o: nat)
    requires 4 <= o <= 4 + gap
    ensures Rank(Source(gap), o) == 4
  {
    var src := Source(gap);
    if o == 4 {
      assert src[0] == LBrace && src[1] == KwAwait && src[2] == Number(1) && src[3] == Semi;
      assert Rank(src, 0) == 0;
      assert Rank(src, 1) == 1;
      assert Rank(src, 2) == 2;
      assert Rank(src, 3) == 3;
    } else {
      assert src[o - 1] == Blanks(gap)[o - 5];
      RankInBlanks(gap, o - 1);
    }
  }

  lemma {:induction false} StripBlanks(n: nat)
    ensures Strip(Blanks(n)) == []
  {
    if n > 0 {
      StripBlanks(n - 1);
      StripJoin(Blanks(n - 1), [Blank]);
      assert [Blank][1..] == [];
    }
  }

  lemma SourceTokens(gap: nat)
    ensures Strip(Source(gap)) == HEAD + FOOT == BodyToks(Body(gap))
  {
    BodyTokens(gap);
    StripJoin(HEAD + Blanks(gap), FOOT);
    StripJoin(HEAD, Blanks(gap));
    StripBlanks(gap);
    StripNoBlanks(HEAD);
    StripNoBlanks(FOOT);
    hide Strip, Blanks, BodyToks, Body;
    assert HEAD + [] == HEAD;
  }

  lemma BodyTokens(gap: nat)
    ensures BodyToks(Body(gap)) == HEAD + FOOT
  {
    assert Toks(End) == [];
    assert Toks(Second(4 + gap)) == [KwAwait, Number(2), Semi];
    assert StmtToks(Body(gap).head) == [KwAwait, Number(1), Semi];
    hide StmtToks;
  }

  lemma SourceLaidOut(gap: nat)
    ensures LaidOut(Source(gap), Body(gap)) && Ids(Body(gap)) == {1, 4 + gap}
  {
    var src, body := Source(gap), Body(gap);
    SourceTokens(gap);
    RankInBlanks(gap, 4 + gap);
    assert src[0] == LBrace && src[1] == KwAwait && src[4 + gap] == FOOT[0];
    assert Rank(src, 0) == 0 && Rank(src, 1) == 1;
    assert Ids(Second(4 + gap)) == {4 + gap};
    var f := Ranks(src);
    assert f(1) == 1 && f(4 + gap) == 4;
    assert NewCode(Second(4 + gap), f) == Second(4);
    assert NewCode(body, f) == Then(Await(1, Discard, Lit(1)), Second(4));
    assert Placed(End, 7) && Placed(Second(4), 4);
    assert StmtToks(Await(1, Discard, Lit(1))) == [KwAwait, Number(1), Semi];
  }

  lemma SourceLocated(gap: nat)
    ensures Located(Function(gap))
  {
    var body := Body(gap);
    assert Offsets(End) == [] && Offsets(Second(4 + gap)) == [4 + gap];
    assert StmtOffsets(body.head) == [1];
    hide Offsets, StmtOffsets;
    assert Offsets(body) == [1, 4 + gap] by { OffsetsOf(body); }
    assert [0] + [1, 4 + gap] == [0, 1, 4 + gap];
  }

  lemma OffsetsOf(code: Code)
    requires code.Then?
    ensures Offsets(code) == StmtOffsets(code.head) + Offsets(code.tail)
  {
  }

  lemma SourceSuitable(gap: nat)
    ensures Suitable(Function(gap))
  {
    var body := Body(gap);
    SourceLaidOut(gap);
    SourceLocated(gap);
    hide LaidOut, Ids, Located;
    assert IsUser(Second(4 + gap)) && Void(Second(4 + gap)) && Unshadowed(Second(4 + gap), []);
    assert IsUser(body) && Void(body) && Unshadowed(body, []);
    assert NamesOf([]) == [] && |{1, 4 + gap}| <= 2;
  }

  lemma SourceDelivered(gap: nat)
    ensures Delivered(Function(gap), Backwards(gap))
  {
    var f, ms := Function(gap), Backwards(gap);
    SourceLaidOut(gap);
    SourceLocals(gap);
    hide LaidOut, Ids, Locals, Variables;
    assert ms[0] in ms && ms[1] in ms;
  }

  lemma SourceLocals(gap: nat)
    ensures Variables(Function(gap)) == []
  {
    var a, b, rest := Await(1, Discard, Lit(1)), Await(4 + gap, Discard, Lit(2)), Second(4 + gap);
    assert StmtLocals(a) == [] && StmtLocals(b) == [] && Locals(End) == [];
    assert Locals(rest) == StmtLocals(b) + Locals(End);
    assert Locals(Body(gap)) == StmtLocals(a) + Locals(rest);
  }

  lemma SourceEnds(gap: nat)
    ensures EndIn(Source(gap), 1) == 4 && EndIn(Source(gap), 4 + gap) == 7 + gap
  {
    var src := Source(gap);
    assert src[2] == HEAD[2] && src[3] == HEAD[3];
    assert src[5 + gap] == FOOT[1] && src[6 + gap] == FOOT[2];
  }

  lemma FirstBackwards(gap: nat)
    ensures FirstMatch(Backwards(gap), Function(gap), 4 + gap) == 0
    ensures FirstMatch(Backwards(gap), Function(gap), 1) == 1
  {
    var f, ms := Function(gap), Backwards(gap);
    assert ms[0] == Match(f, 4 + gap, None) && ms[1] == Match(f, 1, None);
    hide FirstMatch, Function;
  }

  /** The order is wrong exactly if the statements touch. */
  lemma WrongIfTouching(gap: nat)
    ensures Printed(Source(gap), Function(gap)) && Delivered(Function(gap), Backwards(gap))
    ensures MatchedInOrder(Source(gap), Function(gap), Backwards(gap)) <==> gap > 0
  {
    SourceSuitable(gap);
    SourceDelivered(gap);
    SourceLaidOut(gap);
    SourceEnds(gap);
    FirstBackwards(gap);
    hide EndIn, FirstMatch, Suitable, LaidOut, Delivered, Source, Backwards, Body, Ids;
  }

  /** Separated, the backwards deliveries do no harm. */
  lemma SeparatedIsRight(gap: nat)
    requires gap > 0
    ensures Printed(Source(gap), Function(gap))
    ensures Strip(EmittedText(Source(gap), Function(gap), Backwards(gap)))
         == BodyToks(JobOf(Function(gap), Backwards(gap)).Program())
  {
    var src, f, ms := Source(gap), Function(gap), Backwards(gap);
    WrongIfTouching(gap);
    OneStageEach(f, ms);
    OrderOfTable(src, f, ms);
    hide *;
    InsertionsAreRewriting(src, Body(gap), JobOf(f, ms).ss);
  }

  // ----- touching -----

  const STAGES := [Stage(4, []), Stage(1, [])]

  lemma TouchingStages()
    ensures JobOf(Function(0), Backwards(0)).ss == STAGES
    ensures EndsIn(Source(0), STAGES) == [7, 4]
  {
    hide EndIn, Collected, Source, Function, Backwards;
    SourceEnds(0);
    TouchingRecords();
    assert NamesOf([]) == [];
  }

  /** Both awaits get their records, the second one first. */
  lemma TouchingRecords()
    ensures
      var rs := Collected(Backwards(0), Function(0));
      |rs| == 2 && rs[0].aw == 4 && rs[0].vars == [] && rs[1].aw == 1 && rs[1].vars == []
  {
    var f, ms := Function(0), Backwards(0);
    assert ms[..1] == [ms[0]] && [ms[0]][..0] == [] && Collected([], f) == [];
    assert Collected([ms[0]], f) == Noted([], ms[0]);
    assert Collected(ms, f) == Noted(Collected([ms[0]], f), ms[1]);
    hide Collected, Enclosing, Function;
    NotedFirst(f);
    NotedSecond(f, Noted([], ms[0]));
  }

  lemma NotedFirst(f: Fun)
    ensures
      var rs := Noted([], Match(f, 4, None));
      |rs| == 1 && rs[0].aw == 4 && rs[0].vars == []
  {
    hide Enclosing;
    assert IndexOf([], 4) == 0;
  }

  lemma NotedSecond(f: Fun, rs: seq<Record>)
    requires |rs| == 1 && rs[0].aw == 4
    ensures
      var rs' := Noted(rs, Match(f, 1, None));
      |rs'| == 2 && rs'[0] == rs[0] && rs'[1].aw == 1 && rs'[1].vars == []
  {
    hide Enclosing;
    assert IndexOf(rs, 1) == 1;
  }

  /** What is emitted: the save of the second await stands before the label of the first. */
  function TailCode(): Code {
    Then(Label(2), Then(Load([]), Then(Await(4, Discard, Lit(2)), Then(Label(1), Then(Load([]), End)))))
  }

  function StartCode(): Code { Then(Save(2, []), Then(Await(1, Discard, Lit(1)), Then(Save(1, []), TailCode()))) }
  function WrongCode(): Code { Then(Dispatch([0, 1, 2]), Then(Label(0), StartCode())) }

  function Front(): seq<Tok> { [LBrace, JumpTable([0, 1, 2]), LabelMark(0), SaveCall(2, []), Semi, KwAwait] }
  function Middle(): seq<Tok> {
    [Number(1), Semi, SaveCall(1, []), Semi, LabelMark(2), LoadCall([]), Semi, KwAwait]
  }
  function Back(): seq<Tok> { [Number(2), Semi, LabelMark(1), LoadCall([]), Semi, RBrace] }
  function WrongText(): seq<Tok> { Front() + (Middle() + Back()) }

  lemma TailPrinted()
    ensures Toks(TailCode()) + [RBrace] == [LabelMark(2), LoadCall([]), Semi, KwAwait] + Back()
  {
    var c4 := Then(Load([]), End);
    var c3 := Then(Label(1), c4);
    var c2 := Then(Await(4, Discard, Lit(2)), c3);
    var c1 := Then(Load([]), c2);
    assert Toks(End) == [] && Toks(c4) == [LoadCall([]), Semi];
    assert Toks(c3) == [LabelMark(1), LoadCall([]), Semi];
    assert StmtToks(c2.head) == [KwAwait, Number(2), Semi];
    assert Toks(c2) == [KwAwait, Number(2), Semi] + Toks(c3);
    assert Toks(c1) == [LoadCall([]), Semi] + Toks(c2);
    assert Toks(TailCode()) == [LabelMark(2)] + Toks(c1);
    hide Toks, StmtToks;
  }

  lemma StartPrinted()
    ensures Toks(WrongCode()) == [JumpTable([0, 1, 2])] + ([LabelMark(0)] + ([SaveCall(2, []), Semi] +
      ([KwAwait, Number(1), Semi] + ([SaveCall(1, []), Semi] + Toks(TailCode())))))
  {
    var c3 := Then(Save(1, []), TailCode());
    var c2 := Then(Await(1, Discard, Lit(1)), c3);
    var c1 := Then(Label(0), StartCode());
    assert StmtToks(c2.head) == [KwAwait, Number(1), Semi];
    assert Toks(c3) == [SaveCall(1, []), Semi] + Toks(TailCode());
    assert Toks(c2) == [KwAwait, Number(1), Semi] + Toks(c3);
    assert Toks(StartCode()) == [SaveCall(2, []), Semi] + Toks(c2);
    assert Toks(c1) == [LabelMark(0)] + Toks(StartCode());
    assert Toks(WrongCode()) == [JumpTable([0, 1, 2])] + Toks(c1);
  }

  lemma WrongPrinted()
    ensures BodyToks(WrongCode()) == WrongText()
  {
    TailPrinted();
    StartPrinted();
    hide Toks, StmtToks, Back;
    GlueWrong(Toks(TailCode()), Back());
  }

  lemma GlueWrong(tail: seq<Tok>, back: seq<Tok>)
    requires tail + [RBrace] == [LabelMark(2), LoadCall([]), Semi, KwAwait] + back
    ensures [LBrace] + ([JumpTable([0, 1, 2])] + ([LabelMark(0)] + ([SaveCall(2, []), Semi] +
      ([KwAwait, Number(1), Semi] + ([SaveCall(1, []), Semi] + tail))))) + [RBrace] == Front() + (Middle() + back)
  {
    var head := [LBrace, JumpTable([0, 1, 2]), LabelMark(0), SaveCall(2, []), Semi, KwAwait, Number(1), Semi,
        SaveCall(1, []), Semi];
    assert [LBrace] + ([JumpTable([0, 1, 2])] + ([LabelMark(0)] + ([SaveCall(2, []), Semi] +
      ([KwAwait, Number(1), Semi] + ([SaveCall(1, []), Semi] + tail))))) + [RBrace] == head + (tail + [RBrace]);
    assert Front() + (Middle() + back) == head + ([LabelMark(2), LoadCall([]), Semi, KwAwait] + back);
  }

  /** The pieces at each offset. */
  function Inserted(o: nat): seq<Tok> {
    if o == 1 then [JumpTable([0, 1, 2]), LabelMark(0), SaveCall(2, []), Semi]
    else if o == 4 then [SaveCall(1, []), Semi, LabelMark(2), LoadCall([]), Semi]
    else if o == 7 then [LabelMark(1), LoadCall([]), Semi]
    else []
  }

  lemma TouchingPieces(o: nat)
    ensures Pieces(Edits(STAGES, [7, 4], 2), o) == Inserted(o)
  {
    EditsBase(STAGES, [7, 4], o);
    EditsStep(STAGES, [7, 4], 1, o);
    EditsStep(STAGES, [7, 4], 2, o);
    assert SavePiece(STAGES, 0) == [SaveCall(1, []), Semi]
        && LoadPiece(STAGES, 0) == [LabelMark(1), LoadCall([]), Semi];
    assert SavePiece(STAGES, 1) == [SaveCall(2, []), Semi]
        && LoadPiece(STAGES, 1) == [LabelMark(2), LoadCall([]), Semi];
    TouchingPre(o);
    hide *;
    GluePieces(o);
  }

  lemma TouchingPre(o: nat)
    ensures PreHere(STAGES, o) == if o == 1 then [JumpTable([0, 1, 2]), LabelMark(0)] else []
  {
    assert Table(2) == [0, 1, 2];
  }

  lemma GluePieces(o: nat)
    ensures (if o == 1 then [JumpTable([0, 1, 2]), LabelMark(0)] else [])
      + (if 4 == o then [SaveCall(1, []), Semi] else []) + (if 7 == o then [LabelMark(1), LoadCall([]), Semi] else [])
      + (if 1 == o then [SaveCall(2, []), Semi] else []) + (if 4 == o then [LabelMark(2), LoadCall([]), Semi] else [])
      == Inserted(o)
  {
  }

  lemma {:induction false} TouchingRender(o: nat)
    requires o <= 8
    ensures Render(Source(0), Edits(STAGES, [7, 4], 2), o) ==
      if o == 8 then [] else Inserted(o) + ([(HEAD + FOOT)[o]] + Render(Source(0), Edits(STAGES, [7, 4], 2), o + 1))
  {
    TouchingPieces(o);
    assert Source(0) == HEAD + FOOT;
    hide Edits, Pieces;
  }

  lemma InsertedThere()
    ensures Inserted(0) == [] && Inserted(1) == [JumpTable([0, 1, 2]), LabelMark(0), SaveCall(2, []), Semi]
    ensures Inserted(2) == [] && Inserted(3) == [] && Inserted(5) == [] && Inserted(6) == []
    ensures Inserted(4) == [SaveCall(1, []), Semi, LabelMark(2), LoadCall([]), Semi]
    ensures Inserted(7) == [LabelMark(1), LoadCall([]), Semi]
  {
  }

  /** The emitted text from offset `o` of the source on. */
  function Rest(o: nat): seq<Tok>
    requires o <= 8
  {
    Render(Source(0), Edits(STAGES, [7, 4], 2), o)
  }

  lemma RestStep(o: nat)
    requires o < 8
    ensures Rest(o) == Inserted(o) + ([(HEAD + FOOT)[o]] + Rest(o + 1))
  {
    TouchingRender(o);
    hide Render, Edits, Inserted;
  }

  lemma HeadFoot()
    ensures HEAD + FOOT == [LBrace, KwAwait, Number(1), Semi, KwAwait, Number(2), Semi, RBrace]
  {
  }

  lemma RestEnds()
    ensures Rest(8) == []
  {
    TouchingRender(8);
    hide Render, Edits, Inserted;
  }

  lemma TouchingBack()
    ensures Rest(5) == [] + ([Number(2)] + ([] + ([Semi] + ([LabelMark(1), LoadCall([]), Semi] + ([RBrace] + [])))))
  {
    hide *;
    HeadFoot();
    RestStep(5);
    RestStep(6);
    RestStep(7);
    RestEnds();
    InsertedThere();
  }

  lemma TouchingMiddle()
    ensures Rest(2) == [] + ([Number(1)] + ([] + ([Semi] + ([SaveCall(1, []), Semi, LabelMark(2), LoadCall([]), Semi]
      + ([KwAwait] + Rest(5))))))
  {
    hide *;
    HeadFoot();
    RestStep(2);
    RestStep(3);
    RestStep(4);
    InsertedThere();
  }

  lemma TouchingFront()
    ensures Rest(0) == [] + ([LBrace] + ([JumpTable([0, 1, 2]), LabelMark(0), SaveCall(2, []), Semi]
        + ([KwAwait] + Rest(2))))
  {
    hide *;
    HeadFoot();
    RestStep(0);
    RestStep(1);
    InsertedThere();
  }

  lemma GlueFront(r: seq<Tok>)
    ensures [] + ([LBrace] + ([JumpTable([0, 1, 2]), LabelMark(0), SaveCall(2, []), Semi] + ([KwAwait] + r)))
        == Front() + r
  {
  }

  lemma GlueMiddle(r: seq<Tok>)
    ensures [] + ([Number(1)] + ([] + ([Semi] + ([SaveCall(1, []), Semi, LabelMark(2), LoadCall([]), Semi]
        + ([KwAwait] + r)))))
      == Middle() + r
  {
  }

  lemma GlueBack()
    ensures [] + ([Number(2)] + ([] + ([Semi] + ([LabelMark(1), LoadCall([]), Semi] + ([RBrace] + []))))) == Back()
  {
  }

  lemma TouchingText()
    ensures EmittedText(Source(0), Function(0), Backwards(0)) == WrongText()
  {
    TouchingStages();
    assert EmittedText(Source(0), Function(0), Backwards(0)) == Rest(0);
    assert WrongText() == Front() + (Middle() + Back());
    hide *;
    TouchingFront();
    TouchingMiddle();
    TouchingBack();
    GlueFront(Rest(2));
    GlueMiddle(Rest(5));
    GlueBack();
  }

  lemma WrongIsCompiled()
    ensures Compiled(EmittedText(Source(0), Function(0), Backwards(0))) == Some(Erase(WrongCode()))
  {
    TouchingText();
    WrongPrinted();
    NoBlanksWrong();
    BodyIsRead(WrongCode());
    hide Strip, ParseBody, NewCode, BodyToks, EmittedText;
  }

  lemma NoBlanksWrong()
    ensures Strip(WrongText()) == WrongText()
  {
    hide Strip;
    StripNoBlanks(WrongText());
  }

  // ----- the run -----

  const SHOWN := [Awaiting(1), Awaiting(2)]

  function Begin(body: Code): Config {
    Started(body, [], Prom(NoState, []))
  }

  /** The original shows both awaits, once each, and ends. */
  lemma TouchingOriginal(w: World)
    requires w.body == Body(0) && !w.moves(1) && !w.moves(2)
    ensures Ends(w, Begin(w.body), 6, Done(None), SHOWN)
  {
    var c := Begin(w.body);
    var last := Await(4, Discard, Lit(2));
    assert w.Run(c, 0) == c && w.body == Then(Await(1, Discard, Lit(1)), Then(last, End));
    hide World.Run, World.Next;
    RunAsk(w, c, 0, c, w.body.head, Push(Then(last, End), 0, Bottom), 1);
    RunResume(w, c, 1, w.Run(c, 1));
    RunAsk(w, c, 2, w.Run(c, 2), last, Push(End, 0, Bottom), 2);
    RunResume(w, c, 3, w.Run(c, 3));
    RunFinish(w, c, 4, w.Run(c, 4), 0);
    assert [] + [Awaiting(1)] + [Awaiting(2)] == SHOWN;
  }

  lemma WrongLabel()
    ensures Find(WrongCode(), 0, [], Bottom, LabelNo(2)) == Some(Point(Push(TailCode(), 0, Bottom), []))
  {
    var c4 := Then(Save(1, []), TailCode());
    var c3 := Then(Await(1, Discard, Lit(1)), c4);
    var p := Some(Point(Push(TailCode(), 0, Bottom), []));
    assert Find(TailCode(), 0, [], Bottom, LabelNo(2)) == p;
    assert Find(c4, 0, [], Bottom, LabelNo(2)) == p;
    assert Find(c3, 0, [], Bottom, LabelNo(2)) == p;
    assert Find(StartCode(), 0, [], Bottom, LabelNo(2)) == p;
    assert Find(Then(Label(0), StartCode()), 0, [], Bottom, LabelNo(2)) == p;
  }

  /** Suspended at the second await, the state still names the stage of the first. */
  function Stale(aw: seq<Elem>, trace: seq<Event>, asked: nat, hopped: seq<nat>): Config {
    Config(Suspended, Push(TailCode().tail.tail, 0, Bottom), [], Prom(Scalar(2), aw), trace, asked, hopped, [])
  }

  lemma WrongJumps(w: World, c: Config, m: nat, d: Config)
    requires w.body == WrongCode() && w.Run(c, m) == d && d.status.Running? && d.env == []
    requires d.stack == Push(WrongCode(), 0, Bottom) && d.prom.state == Scalar(2)
    ensures w.Run(c, m + 1) == d.(stack := Push(TailCode(), 0, Bottom))
  {
    WrongLabel();
    NoLocals();
    assert WrongCode() == Then(Dispatch([0, 1, 2]), Then(Label(0), StartCode()));
    hide *;
    RunJumpTo(w, c, m, d, Dispatch([0, 1, 2]), Then(Label(0), StartCode()), 2, Push(TailCode(), 0, Bottom));
  }

  lemma NoLocals()
    ensures Names([]) == [] && JumpedInto([], []) == [] && StageOf(Scalar(2)) == 2
  {
  }

  /** Rebuilt with that state, the coroutine asks the second await. */
  lemma WrongRebuilt(w: World, c: Config, m: nat, d: Config)
    requires w.body == WrongCode() && w.Run(c, m) == d && d.status.Running?
        && d.stack == Push(WrongCode(), 0, Bottom) && d.env == []
    requires d.prom.state == Scalar(2) && d.prom.aw != [] && d.taken == []
    ensures w.Run(c, m + 4) == Stale(d.prom.aw, d.trace + [Awaiting(2)], d.asked + 1, d.hopped)
  {
    WrongJumps(w, c, m, d);
    assert UpdateAll([], [], []) == Some([]);
    var last := Then(Label(1), Then(Load([]), End));
    var c2 := Then(Await(4, Discard, Lit(2)), last);
    hide World.Run, World.Next, UpdateAll;
    RunLabel(w, c, m + 1, w.Run(c, m + 1), Label(2), Push(Then(Load([]), c2), 0, Bottom));
    RunLoad(w, c, m + 2, w.Run(c, m + 2), Load([]), Push(c2, 0, Bottom), []);
    RunAsk(w, c, m + 3, w.Run(c, m + 3), c2.head, Push(last, 0, Bottom), 2);
  }

  /** Up to the first suspension. */
  lemma WrongBegins(w: World)
    requires w.body == WrongCode()
    ensures w.Run(Begin(WrongCode()), 4) ==
      Config(Suspended, Push(StartCode().tail, 0, Bottom), [], Prom(Scalar(2), [Awaiter(1)]), [Awaiting(1)], 1, [], [])
  {
    var c := Begin(WrongCode());
    var c4 := Then(Save(1, []), TailCode());
    var c3 := Then(Await(1, Discard, Lit(1)), c4);
    assert w.Run(c, 0) == c && LookupAll([], []) == Some([]) && Encode(U16(2), []) == Scalar(2);
    hide World.Run, World.Next, LookupAll, Encode, U16;
    RunDispatch(w, c, 0, c, WrongCode().head, Push(WrongCode().tail, 0, Bottom));
    RunLabel(w, c, 1, w.Run(c, 1), Label(0), Push(StartCode(), 0, Bottom));
    RunSave(w, c, 2, w.Run(c, 2), Save(2, []), Push(c3, 0, Bottom), []);
    RunAsk(w, c, 3, w.Run(c, 3), c3.head, Push(c4, 0, Bottom), 1);
    assert [] + [Awaiting(1)] == [Awaiting(1)];
  }

  lemma WrongMoved(w: World)
    requires w.body == WrongCode() && w.params == [] && w.moves(1) && w.moves(2)
    ensures w.Run(Begin(WrongCode()), 9) == Stale([Result(w.answer(1))], SHOWN, 2, [1])
    ensures w.Run(Begin(WrongCode()), 14) == Stale([Result(w.answer(2))], SHOWN + [Awaiting(2)], 3, [1, 4])
  {
    var c := Begin(WrongCode());
    WrongBegins(w);
    assert Defaults([]) == [];
    assert [Awaiting(1)] + [Awaiting(2)] == SHOWN && [] + [1] == [1] && [1] + [4] == [1, 4];
    hide World.Run, World.Next, Defaults;
    RunHop(w, c, 4, w.Run(c, 4));
    WrongRebuilt(w, c, 5, w.Run(c, 5));
    RunHop(w, c, 9, w.Run(c, 9));
    WrongRebuilt(w, c, 10, w.Run(c, 10));
  }

  /** What follows from visiting touching awaits in the wrong order.  Moved at its first await, the
      coroutine is then suspended at the second (at 4) with a state that names stage 2, which is that
      of the first (at 1).  Moved once more, it asks the second await again, and never ends as the
      source does. */
  lemma WrongOrderLosesState(answer: nat -> int, moves: nat -> bool)
    requires moves(1) && moves(2)
    ensures
      var src, f, ms := Source(0), Function(0), Backwards(0);
      var t := World(WrongCode(), [], answer, moves).Run(Begin(WrongCode()), 9);
      && Printed(src, f) && Delivered(f, ms) && !MatchedInOrder(src, f, ms)
      && Compiled(EmittedText(src, f, ms)) == Some(Erase(WrongCode()))
      && t.status.Suspended? && AtAwait(t) && t.stack.code.head.at == 4
      && StageOf(t.prom.state) == 2 && |JobOf(f, ms).ss| == 2 && JobOf(f, ms).ss[1].aw == 1
      && Finishes(src, [], [], answer, Never, Done(None), SHOWN)
      && !Finishes(EmittedText(src, f, ms), [], [], answer, moves, Done(None), SHOWN)
  {
    var src, f, ms := Source(0), Function(0), Backwards(0);
    var w, c := World(WrongCode(), [], answer, moves), Begin(WrongCode());
    WrongIfTouching(0);
    TouchingStages();
    WrongIsCompiled();
    StaleState(w);
    OriginalFinishes(answer);
    hide *;
    WrongNeverFinishes(w);
  }

  lemma StaleState(w: World)
    requires w.body == WrongCode() && w.params == [] && w.moves(1) && w.moves(2)
    ensures
      var t := w.Run(Begin(WrongCode()), 9);
      && t.status.Suspended? && AtAwait(t) && t.stack.code.head.at == 4 && StageOf(t.prom.state) == 2
  {
    StaleFacts([Result(w.answer(1))], SHOWN, 2, [1]);
    hide *;
    WrongMoved(w);
  }

  lemma StaleFacts(aw: seq<Elem>, trace: seq<Event>, asked: nat, hopped: seq<nat>)
    ensures
      var t := Stale(aw, trace, asked, hopped);
      t.status.Suspended? && AtAwait(t) && t.stack.code.head.at == 4 && StageOf(t.prom.state) == 2
  {
  }

  lemma WrongNeverFinishes(w: World)
    requires w.body == WrongCode() && w.params == [] && w.moves(1) && w.moves(2)
    ensures !Finishes(EmittedText(Source(0), Function(0), Backwards(0)), [], [], w.answer, w.moves, Done(None), SHOWN)
  {
    WrongIsCompiled();
    NotFinished(w);
    assert Begin(WrongCode()) == Started(w.body, Bound([], []), Prom(NoState, []));
    hide *;
    FinishesAsProgram(EmittedText(Source(0), Function(0), Backwards(0)), w, [], Done(None), SHOWN);
  }

  /** The run showed too much already. */
  lemma NotFinished(w: World)
    requires w.body == WrongCode() && w.params == [] && w.moves(1) && w.moves(2)
    ensures forall n: nat :: !Ends(w, Begin(WrongCode()), n, Done(None), SHOWN)
  {
    var c := Begin(WrongCode());
    WrongMoved(w);
    forall n: nat ensures !Ends(w, c, n, Done(None), SHOWN) {
      if n <= 14 {
        if Over(w.Run(c, n)) { OverStays(w, c, n, 14); }
      } else {
        TraceGrows(w, c, 14, n);
      }
      hide World.Run;
    }
  }

  lemma OriginalFinishes(answer: nat -> int)
    ensures Finishes(Source(0), [], [], answer, Never, Done(None), SHOWN)
  {
    var w := World(Body(0), [], answer, Never);
    SourceTokens(0);
    BodyIsRead(Body(0));
    TouchingOriginal(w);
    assert Bound([], []) == [];
    hide Ends, Compiled, World.Run, NewCode;
    FinishesAsProgram(Source(0), w, [], Done(None), SHOWN);
  }
}
