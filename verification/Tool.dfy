/** The tool from end to end: matching, rewriting, and what the rewritten coroutine does. */
module Tool {
  import opened Wire
  import opened Language
  import opened Points
  import opened Rewrite
  import opened Relabel
  import opened Buffer
  import opened Scopes
  import opened Collector
  import opened Simulation
  import opened Transparency
  import opened Text
  import opened Layout
  import opened Patch
  import opened Parse
  import opened Erasure

  /** `src` is the text of the function's body; offsets in the function are offsets in it. */
  ghost predicate Printed(src: seq<Tok>, f: Fun) {
    Suitable(f) && LaidOut(src, f.body)
  }

  /** What the tool emits for the body. */
  ghost function EmittedText(src: seq<Tok>, f: Fun, ms: seq<Match>): seq<Tok>
    requires src != []
  {
    var ss := JobOf(f, ms).ss;
    Render(src, Edits(ss, EndsIn(src, ss), |ss|), 0)
  }

  /** If the statement of one await ends at the very offset where another await begins, the former was
      delivered first. */
  ghost predicate MatchedInOrder(src: seq<Tok>, f: Fun, ms: seq<Match>) {
    forall a, b :: a in Ids(f.body) && b in Ids(f.body) && EndIn(src, a) == b ==>
      FirstMatch(ms, f, a) < FirstMatch(ms, f, b)
  }

  lemma OneStageEach(f: Fun, ms: seq<Match>)
    requires Suitable(f) && Delivered(f, ms)
    ensures JobOf(f, ms).Ok() && OneEach(f.body, JobOf(f, ms).ss) && Bare(f.body)
  {
    TableFromAnyOrder(f, ms);
  }

  /** The stages stand in the order of the first deliveries of their awaits. */
  ghost predicate ByDelivery(f: Fun, ms: seq<Match>, ss: seq<Stage>) {
    forall i, k :: 0 <= i < k < |ss| ==> FirstMatch(ms, f, ss[i].aw) < FirstMatch(ms, f, ss[k].aw)
  }

  lemma TableByDelivery(f: Fun, ms: seq<Match>)
    ensures ByDelivery(f, ms, JobOf(f, ms).ss)
  {
    var ss, rs := JobOf(f, ms).ss, Collected(ms, f);
    CollectedInOrder(f, ms);
    forall i, k | 0 <= i < k < |ss| ensures FirstMatch(ms, f, ss[i].aw) < FirstMatch(ms, f, ss[k].aw) {
      assert ss[i].aw == rs[i].aw && ss[k].aw == rs[k].aw;
    }
  }

  lemma MatchedThenInOrder(src: seq<Tok>, f: Fun, ms: seq<Match>, ss: seq<Stage>)
    requires OneEach(f.body, ss) && ByDelivery(f, ms, ss) && MatchedInOrder(src, f, ms)
    ensures InOrder(ss, EndsIn(src, ss))
  {
    hide OneEach, ByDelivery, MatchedInOrder, EndIn;
    forall i, k | 0 <= i < |ss| && 0 <= k < |ss| && EndsIn(src, ss)[i] == ss[k].aw ensures i < k {
      MatchedPair(src, f, ms, ss, i, k);
    }
  }

  lemma MatchedPair(src: seq<Tok>, f: Fun, ms: seq<Match>, ss: seq<Stage>, i: nat, k: nat)
    requires OneEach(f.body, ss) && ByDelivery(f, ms, ss) && MatchedInOrder(src, f, ms)
    requires i < |ss| && k < |ss| && EndIn(src, ss[i].aw) == ss[k].aw
    ensures i < k
  {
    hide FirstMatch, Ids, EndIn, StageNo;
    assert FirstMatch(ms, f, ss[i].aw) < FirstMatch(ms, f, ss[k].aw);
  }

  lemma InOrderThenMatched(src: seq<Tok>, f: Fun, ms: seq<Match>, ss: seq<Stage>)
    requires OneEach(f.body, ss) && ByDelivery(f, ms, ss) && InOrder(ss, EndsIn(src, ss))
    ensures MatchedInOrder(src, f, ms)
  {
    hide FirstMatch, Ids, EndIn;
    forall a, b | a in Ids(f.body) && b in Ids(f.body) && EndIn(src, a) == b
      ensures FirstMatch(ms, f, a) < FirstMatch(ms, f, b)
    {
      var i, k := StageNo(ss, a) - 1, StageNo(ss, b) - 1;
      assert ss[i].aw == a && ss[k].aw == b && EndsIn(src, ss)[i] == b;
    }
  }

  /** The table is in source order where it matters exactly if the deliveries were. */
  lemma OrderOfTable(src: seq<Tok>, f: Fun, ms: seq<Match>)
    requires Printed(src, f) && Delivered(f, ms)
    ensures InOrder(JobOf(f, ms).ss, EndsIn(src, JobOf(f, ms).ss)) <==> MatchedInOrder(src, f, ms)
  {
    var ss := JobOf(f, ms).ss;
    assert Suitable(f);
    OneStageEach(f, ms);
    hide *;
    TableByDelivery(f, ms);
    if MatchedInOrder(src, f, ms) { MatchedThenInOrder(src, f, ms, ss); }
    if InOrder(ss, EndsIn(src, ss)) { InOrderThenMatched(src, f, ms, ss); }
  }

  /** Whatever order the matches come in, the emitted tokens are those of the rewritten body if and only
      if of two awaits whose statements touch, the first one was matched first. */
  method Process(src: seq<Tok>, f: Fun, ms: seq<Match>) returns (out: seq<Tok>)
    requires Printed(src, f) && Delivered(f, ms)
    ensures src != [] && out == EmittedText(src, f, ms)
    ensures Strip(out) == BodyToks(JobOf(f, ms).Program()) <==> MatchedInOrder(src, f, ms)
  {
    OneStageEach(f, ms);
    OrderOfTable(src, f, ms);
    var v := new Valet();
    v.RunAll(ms);
    var ss := StagesOf(RecordsOf(v.stages, f));
    assert ss == JobOf(f, ms).ss;
    hide Collected, Ids, Suitable, Delivered, MatchedInOrder, InOrder;
    out := RewriteBody(src, f.body, ss);
  }

  // ----- what the emitted text does -----

  /** The code a compiler reads in a text. */
  function Compiled(text: seq<Tok>): Option<Code> {
    ParseBody(Strip(text))
  }

  lemma EmittedIsProgram(src: seq<Tok>, f: Fun, ms: seq<Match>)
    requires Printed(src, f) && Delivered(f, ms) && MatchedInOrder(src, f, ms)
    ensures Compiled(src) == Some(Erase(f.body))
    ensures Compiled(EmittedText(src, f, ms)) == Some(Erase(JobOf(f, ms).Program()))
  {
    var ss := JobOf(f, ms).ss;
    OneStageEach(f, ms);
    OrderOfTable(src, f, ms);
    InsertionsAreRewriting(src, f.body, ss);
    BodyIsRead(f.body);
    BodyIsRead(Rewritten(f.body, ss, Emitted));
  }

  /** The code compiled from `text`, called with `args` and moved wherever `moves` says, ends in `st`
      after showing `trace`. */
  ghost predicate Finishes(text: seq<Tok>, params: seq<string>, args: seq<int>, answer: nat -> int,
                           moves: nat -> bool, st: Status, trace: seq<Event>)
    requires |args| == |params|
  {
    match Compiled(text)
    case Some(c) =>
      exists n: nat :: Ends(World(c, params, answer, moves), Started(c, Bound(params, args), Prom(NoState, [])),
          n, st, trace)
    case None => false
  }

  /** Offsets make no difference to how a run ends. */
  lemma EndsErased(w: World, env: Env, n: nat, st: Status, trace: seq<Event>)
    ensures Ends(Erased(w), Started(Erase(w.body), env, Prom(NoState, [])), n, st, trace)
       <==> Ends(w, Started(w.body, env, Prom(NoState, [])), n, st, trace)
  {
    var c := Started(w.body, env, Prom(NoState, []));
    EraseRun(w, c, n);
    assert EraseConfig(c) == Started(Erase(w.body), env, Prom(NoState, [])) by {
      assert EraseStack(c.stack) == Push(Erase(w.body), |env|, Bottom);
      assert Zeros(0) == [];
    }
  }

  /** Reading the text of a program and running it is running the program. */
  lemma FinishesAsProgram(text: seq<Tok>, w: World, args: seq<int>, st: Status, trace: seq<Event>)
    requires Compiled(text) == Some(Erase(w.body)) && |args| == |w.params|
    ensures Finishes(text, w.params, args, w.answer, w.moves, st, trace) <==>
      exists n: nat :: Ends(w, Started(w.body, Bound(w.params, args), Prom(NoState, [])), n, st, trace)
  {
    var env := Bound(w.params, args);
    assert Erased(w) == World(Erase(w.body), w.params, w.answer, w.moves);
    forall n: nat
      ensures Ends(Erased(w), Started(Erase(w.body), env, Prom(NoState, [])), n, st, trace)
         <==> Ends(w, Started(w.body, env, Prom(NoState, [])), n, st, trace)
    {
      EndsErased(w, env, n, st, trace);
    }
    hide Ends, Started, NewCode, Compiled;
  }

  /** The text the tool emits, compiled, called and moved between processes at any of its suspensions,
      ends as the source text does, with the same outputs and await events. */
  lemma ToolTransparent(src: seq<Tok>, f: Fun, ms: seq<Match>, args: seq<int>, answer: nat -> int,
                        moves: nat -> bool, st: Status, trace: seq<Event>)
    requires Printed(src, f) && Delivered(f, ms) && MatchedInOrder(src, f, ms)
    requires |args| == |f.params| && (st.Done? || st.Fault?)
    ensures Compiled(src).Some? && Compiled(EmittedText(src, f, ms)).Some?
    ensures Finishes(src, NamesOf(f.params), args, answer, Never, st, trace)
       <==> Finishes(EmittedText(src, f, ms), NamesOf(f.params), args, answer, moves, st, trace)
  {
    var j := JobOf(f, ms);
    EmittedIsProgram(src, f, ms);
    OneStageEach(f, ms);
    assert j.body == f.body && j.params == NamesOf(f.params);
    assert OriginalStart(j, args) == Started(j.body, Bound(j.params, args), Prom(NoState, []));
    assert MigratingStart(j, args) == Started(j.Program(), Bound(j.params, args), Prom(NoState, []));
    var w, w' := j.Original(answer), j.Migrating(answer, moves);
    assert w == World(j.body, j.params, answer, Never) && w' == World(j.Program(), j.params, answer, moves);
    hide *;
    SameOutcome(j, args, answer, moves, st, trace);
    FinishesAsProgram(src, w, args, st, trace);
    FinishesAsProgram(EmittedText(src, f, ms), w', args, st, trace);
  }
}
