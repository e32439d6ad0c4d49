/** All that is inserted into a file, as strings, says what the rewriting inserts, each at its place. */
module Insertions {
  import opened Rewrite
  import opened Buffer
  import opened Text
  import opened Lines
  import opened Strings
  import opened Reader
  import opened Reading
  import opened ReadingPreamble

  /** A function whose awaits lie in its body, with identifiers for variables, and a type written on one line. */
  ghost predicate Plain(p: Patch) {
    && '\n' !in p.ctx && ';' !in p.ctx
    && forall i :: 0 <= i < |p.sites| ==>
         p.open < p.sites[i].aw && p.open < p.sites[i].semi && AllNames(p.sites[i].vars)
  }

  /** Its stages, and where their awaits end, with offsets counted from its brace. */
  ghost function StagesIn(p: Patch): (ss: seq<Stage>)
    requires Plain(p)
    ensures |ss| == |p.sites|
    ensures forall i :: 0 <= i < |ss| ==> ss[i] == Stage(p.sites[i].aw - p.open, p.sites[i].vars)
  {
    seq(|p.sites|, i requires 0 <= i < |p.sites| => Stage(p.sites[i].aw - p.open, p.sites[i].vars))
  }

  ghost function EndsOf(p: Patch): (ends: seq<nat>)
    requires Plain(p)
    ensures |ends| == |p.sites| && forall i :: 0 <= i < |ends| ==> ends[i] == p.sites[i].semi + 1 - p.open
  {
    seq(|p.sites|, i requires 0 <= i < |p.sites| => p.sites[i].semi + 1 - p.open)
  }

  /** A string that reads as the tokens of an edit, at its place. */
  predicate Says(s: Stamp, e: Edit<Tok>, open: nat) {
    s.at == open + e.at && Tokens(StampText(s)) == e.text
  }

  ghost predicate AllSay(ss: seq<Stamp>, es: seq<Edit<Tok>>, open: nat) {
    |ss| == |es| && forall i :: 0 <= i < |ss| ==> Says(ss[i], es[i], open)
  }

  lemma AllSayMore(ss: seq<Stamp>, es: seq<Edit<Tok>>, s: Stamp, s': Stamp, e: Edit<Tok>, e': Edit<Tok>, open: nat)
    requires AllSay(ss, es, open) && Says(s, e, open) && Says(s', e', open)
    ensures AllSay(ss + [s, s'], es + [e] + [e'], open)
  {
    hide Says;
  }

  lemma StageSays(at: nat, end: nat, open: nat, verbose: bool, n: nat, vars: seq<string>, line: nat, line': nat)
    requires AllNames(vars)
    ensures Says(SaveStamp(open + at, verbose, n, VarList(vars), line), Edit(at, [SaveCall(n, vars), Semi]), open)
    ensures Says(LoadStamp(open + end, verbose, n, VarList(vars), line'),
                 Edit(end, [LabelMark(n), LoadCall(vars), Semi]), open)
  {
    hide *;
    SaveRead(open + at, verbose, n, vars, line);
    LoadRead(open + end, verbose, n, vars, line');
    StampsOk(open + at, verbose, "", n, VarList(vars), line);
    StampsOk(open + end, verbose, "", n, VarList(vars), line');
    SaysIs(SaveStamp(open + at, verbose, n, VarList(vars), line), Edit(at, [SaveCall(n, vars), Semi]), open);
    SaysIs(LoadStamp(open + end, verbose, n, VarList(vars), line'),
           Edit(end, [LabelMark(n), LoadCall(vars), Semi]), open);
  }

  lemma SaysIs(s: Stamp, e: Edit<Tok>, open: nat)
    ensures Says(s, e, open) <==> s.at == open + e.at && Tokens(StampText(s)) == e.text
  {
    hide Tokens, StampText;
  }

  lemma StartSays(p: Patch, verbose: bool, line: nat)
    requires Plain(p)
    ensures AllSay([PreambleStamp(p.open + 1, verbose, p.ctx, |p.sites|, line)],
                   Edits(StagesIn(p), EndsOf(p), 0), p.open)
  {
    hide *;
    var s := PreambleStamp(p.open + 1, verbose, p.ctx, |p.sites|, line);
    PlainType(p);
    StartEdit(StagesIn(p), EndsOf(p));
    PreambleRead(p.open + 1, verbose, p.ctx, |p.sites|, line);
    StampsOk(p.open + 1, verbose, p.ctx, |p.sites|, "", line);
    SaysIs(s, Edit(1, PreamblePiece(StagesIn(p))), p.open);
    OneSays(s, Edit(1, PreamblePiece(StagesIn(p))), p.open);
  }

  lemma PlainType(p: Patch)
    requires Plain(p)
    ensures '\n' !in p.ctx && ';' !in p.ctx
  {
    hide AllNames;
  }

  lemma StartEdit(ss: seq<Stage>, ends: seq<nat>)
    requires |ss| == |ends|
    ensures Edits(ss, ends, 0) == [Edit(1, PreamblePiece(ss))]
    ensures PreamblePiece(ss) == [JumpTable(Table(|ss|)), LabelMark(0)]
  {
    hide Table;
  }

  lemma OneSays(s: Stamp, e: Edit<Tok>, open: nat)
    requires Says(s, e, open)
    ensures AllSay([s], [e], open)
  {
    hide Says;
  }

  /** The stamps of the first `k` stages. */
  function FirstStamps(src: string, p: Patch, verbose: bool, k: nat): seq<Stamp>
    requires InSource(src, p) && k <= |p.sites|
  {
    [PreambleStamp(p.open + 1, verbose, p.ctx, |p.sites|, PhysicalLine(src, p.open))]
        + SiteStamps(src, p.sites[..k], verbose)
  }

  lemma FirstStampsMore(src: string, p: Patch, verbose: bool, k: nat)
    requires InSource(src, p) && 0 < k <= |p.sites|
    ensures
      var s := p.sites[k - 1];
      FirstStamps(src, p, verbose, k) == FirstStamps(src, p, verbose, k - 1)
        + [SaveStamp(s.aw, verbose, k, VarList(s.vars), PhysicalLine(src, s.aw)),
           LoadStamp(s.semi + 1, verbose, k, VarList(s.vars), PhysicalLine(src, s.semi))]
  {
    hide SaveStamp, LoadStamp, PreambleStamp, VarList, PhysicalLine;
    assert p.sites[..k][..k - 1] == p.sites[..k - 1] && p.sites[..k][k - 1] == p.sites[k - 1];
  }

  /** What is inserted for stage `k`. */
  lemma SiteSays(src: string, p: Patch, verbose: bool, k: nat)
    requires InSource(src, p) && Plain(p) && 0 < k <= |p.sites|
    ensures
      var s, ss, ends := p.sites[k - 1], StagesIn(p), EndsOf(p);
      && Says(SaveStamp(s.aw, verbose, k, VarList(s.vars), PhysicalLine(src, s.aw)),
              Edit(ss[k - 1].aw, SavePiece(ss, k - 1)), p.open)
      && Says(LoadStamp(s.semi + 1, verbose, k, VarList(s.vars), PhysicalLine(src, s.semi)),
              Edit(ends[k - 1], LoadPiece(ss, k - 1)), p.open)
  {
    var s, ss, ends := p.sites[k - 1], StagesIn(p), EndsOf(p);
    assert s.aw == p.open + ss[k - 1].aw && s.semi + 1 == p.open + ends[k - 1] && AllNames(s.vars);
    hide SaveStamp, LoadStamp, VarList, PhysicalLine, Says, AllNames, Plain, InSource, StagesIn, EndsOf;
    StageSays(ss[k - 1].aw, ends[k - 1], p.open, verbose, k, s.vars,
              PhysicalLine(src, s.aw), PhysicalLine(src, s.semi));
  }

  lemma EditsIs(ss: seq<Stage>, ends: seq<nat>, k: nat)
    requires 0 < k <= |ss| == |ends|
    ensures Edits(ss, ends, k)
         == Edits(ss, ends, k - 1) + [Edit(ss[k - 1].aw, SavePiece(ss, k - 1))]
             + [Edit(ends[k - 1], LoadPiece(ss, k - 1))]
  {
    hide SavePiece, LoadPiece;
  }

  lemma {:induction false} FirstSay(src: string, p: Patch, verbose: bool, k: nat)
    requires InSource(src, p) && Plain(p) && k <= |p.sites|
    ensures AllSay(FirstStamps(src, p, verbose, k), Edits(StagesIn(p), EndsOf(p), k), p.open)
  {
    hide Plain, FirstStamps, SaveStamp, LoadStamp, VarList, PhysicalLine, Says, AllSay, Edits, SavePiece, LoadPiece;
    if k == 0 {
      FirstStampIs(src, p, verbose);
      StartSays(p, verbose, PhysicalLine(src, p.open));
    } else {
      var s, ss, ends := p.sites[k - 1], StagesIn(p), EndsOf(p);
      FirstSay(src, p, verbose, k - 1);
      FirstStampsMore(src, p, verbose, k);
      EditsIs(ss, ends, k);
      SiteSays(src, p, verbose, k);
      AllSayMore(FirstStamps(src, p, verbose, k - 1), Edits(ss, ends, k - 1),
                 SaveStamp(s.aw, verbose, k, VarList(s.vars), PhysicalLine(src, s.aw)),
                 LoadStamp(s.semi + 1, verbose, k, VarList(s.vars), PhysicalLine(src, s.semi)),
                 Edit(ss[k - 1].aw, SavePiece(ss, k - 1)), Edit(ends[k - 1], LoadPiece(ss, k - 1)), p.open);
    }
  }

  lemma FirstStampIs(src: string, p: Patch, verbose: bool)
    requires InSource(src, p)
    ensures FirstStamps(src, p, verbose, 0)
         == [PreambleStamp(p.open + 1, verbose, p.ctx, |p.sites|, PhysicalLine(src, p.open))]
  {
    hide PreambleStamp, PhysicalLine;
    assert p.sites[..0] == [];
  }

  /** The strings inserted into a function body say, in order and each at its place, the tokens that the
      rewriting inserts: the preamble behind the brace, and for each stage its save at the await and its
      load behind the semicolon. */
  lemma StampsAreEdits(src: string, p: Patch, verbose: bool)
    requires InSource(src, p) && Plain(p)
    ensures AllSay(BodyStamps(src, p, verbose), Edits(StagesIn(p), EndsOf(p), |p.sites|), p.open)
  {
    FirstSay(src, p, verbose, |p.sites|);
    assert p.sites[..|p.sites|] == p.sites;
    hide AllSay, Edits, PreambleStamp, SiteStamps, PhysicalLine;
  }

  /** How many insertions the first functions of a file have. */
  function StampsBefore(ps: seq<Patch>, k: nat): nat
    requires k <= |ps|
  {
    if k == 0 then 0 else StampsBefore(ps, k - 1) + 1 + 2 * |ps[k - 1].sites|
  }

  lemma {:induction false} SiteStampsCount(src: string, sites: seq<Site>, verbose: bool)
    requires forall i :: 0 <= i < |sites| ==> sites[i].aw < |src| && sites[i].semi < |src|
    ensures |SiteStamps(src, sites, verbose)| == 2 * |sites|
  {
    hide SaveStamp, LoadStamp, VarList, PhysicalLine;
    if sites != [] { SiteStampsCount(src, sites[..|sites| - 1], verbose); }
  }

  lemma BodyStampsCount(src: string, p: Patch, verbose: bool)
    requires InSource(src, p)
    ensures |BodyStamps(src, p, verbose)| == 1 + 2 * |p.sites|
  {
    SiteStampsCount(src, p.sites, verbose);
    hide SiteStamps, PreambleStamp, PhysicalLine;
  }

  /** Those of each function stand together. */
  lemma {:induction false} ToolStampsAt(src: string, ps: seq<Patch>, verbose: bool, k: nat)
    requires k < |ps| && forall i :: 0 <= i < |ps| ==> InSource(src, ps[i])
    ensures
      var all, lo := ToolStamps(src, ps, verbose), StampsBefore(ps, k);
      && |all| == StampsBefore(ps, |ps|) && lo + 1 + 2 * |ps[k].sites| <= |all|
      && all[lo..lo + 1 + 2 * |ps[k].sites|] == BodyStamps(src, ps[k], verbose)
    decreases |ps|
  {
    hide BodyStamps, InSource, ToolStamps, StampsBefore;
    var n := |ps| - 1;
    var init := ps[..n];
    BodyStampsCount(src, ps[n], verbose);
    SameBefore(init, ps, n);
    SameBefore(init, ps, k);
    BeforeIs(ps, k);
    LastStamps(src, ps, verbose);
    if n == 0 {
      NoStamps(src, verbose);
    } else {
      ToolStampsAt(src, init, verbose, if k < n then k else 0);
    }
    var a, b := ToolStamps(src, init, verbose), BodyStamps(src, ps[n], verbose);
    var lo := StampsBefore(ps, k);
    if k < n {
      assert init[k] == ps[k];
      assert (a + b)[lo..lo + 1 + 2 * |ps[k].sites|] == a[lo..lo + 1 + 2 * |ps[k].sites|];
    } else {
      assert (a + b)[|a|..|a| + |b|] == b;
    }
  }

  lemma BeforeIs(ps: seq<Patch>, k: nat)
    requires k < |ps|
    ensures StampsBefore(ps, 0) == 0
    ensures StampsBefore(ps, |ps|) == StampsBefore(ps, |ps| - 1) + 1 + 2 * |ps[|ps| - 1].sites|
  {
  }

  lemma NoStamps(src: string, verbose: bool)
    ensures ToolStamps(src, [], verbose) == []
  {
  }

  lemma LastStamps(src: string, ps: seq<Patch>, verbose: bool)
    requires ps != [] && forall i :: 0 <= i < |ps| ==> InSource(src, ps[i])
    ensures ToolStamps(src, ps, verbose)
         == ToolStamps(src, ps[..|ps| - 1], verbose) + BodyStamps(src, ps[|ps| - 1], verbose)
  {
    hide BodyStamps, InSource;
  }

  lemma {:induction false} SameBefore(ps: seq<Patch>, qs: seq<Patch>, k: nat)
    requires ps <= qs && k <= |ps|
    ensures StampsBefore(ps, k) == StampsBefore(qs, k)
  {
    if k > 0 { SameBefore(ps, qs, k - 1); }
  }

  /** So everything inserted into a file says, function by function, what the rewriting inserts. */
  lemma ToolStampsAreEdits(src: string, ps: seq<Patch>, verbose: bool, k: nat)
    requires k < |ps| && forall i :: 0 <= i < |ps| ==> InSource(src, ps[i])
    requires Plain(ps[k])
    ensures
      var all, lo := ToolStamps(src, ps, verbose), StampsBefore(ps, k);
      && |all| == StampsBefore(ps, |ps|) && lo + 1 + 2 * |ps[k].sites| <= |all|
      && AllSay(all[lo..lo + 1 + 2 * |ps[k].sites|], Edits(StagesIn(ps[k]), EndsOf(ps[k]), |ps[k].sites|), ps[k].open)
  {
    hide *;
    ToolStampsAt(src, ps, verbose, k);
    StampsAreEdits(src, ps[k], verbose);
  }
}
