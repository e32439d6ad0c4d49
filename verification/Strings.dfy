/** The text of the inserted pieces, and what they do to line numbers. */
module Strings {
  import opened Wire
  import opened Lines

  /** ", a, b" for the names of a stage's variables. */
  function VarList(vars: seq<string>): string {
    if vars == [] then "" else VarList(vars[..|vars| - 1]) + ", " + vars[|vars| - 1]
  }

  function Stripped(varList: string): string {
    if |varList| >= 2 then varList[2..] else ""
  }

  function Note(verbose: bool, text: string): string {
    if verbose then text else ""
  }

  /** Jump table entries 1 to `n`, as offsets from the start label. */
  function Entries(n: nat): string {
    if n == 0 then "" else Entries(n - 1) + ", (char*)&&_valet_s" + Decimal(n) + " - (char*)&&_valet_s0"
  }

  /** The rows of the preamble. */
  function PointerRow(ctx: string): string { "auto _valet_p = co_await valor::" + ctx + "::get_promise{};" }
  function GuardRow(): string { "if (auto _valet_st" + " = _valet_p->stage()) {" }
  function AssertRow(labels: nat): string { "    assert(_valet_st <= " + Decimal(labels) + ");" }
  function CommentRow(): string { "    // std::cerr" + (" << \"k: to stage \"" + " << _valet_st << '\\n';") }
  function TableOpen(): string { "    static ssize_t" + " _valet_stages[] = {0" }
  function GotoRow(): string { "    goto *(void*)((char*)&&_valet_s0" + " + _valet_stages[_valet_st]);" }

  function PreambleNote(verbose: bool): string { Note(verbose, "// Valet preamble\n") }

  function PreambleHead(verbose: bool, ctx: string, labels: nat): string {
    PreambleNote(verbose) + "\n" + PointerRow(ctx) + "\n" + GuardRow() + "\n" + AssertRow(labels) + "\n"
        + CommentRow() + "\n" + TableOpen()
  }

  function PreambleGoto(): string {
    "};" + "\n" + GotoRow() + "\n" + "}" + "\n"
  }

  function SaveNote(verbose: bool): string { Note(verbose, "\n// Valet stage save") }
  function LoadNote(verbose: bool): string { Note(verbose, "\n// Valet stage load") }
  function PreambleEnd(verbose: bool): string { Note(verbose, " // End of Valet preamble") }
  function SaveEnd(verbose: bool): string { Note(verbose, " // End of Valet save") }
  function LoadEnd(verbose: bool): string { Note(verbose, " // End of Valet load") }

  /** Beginnings of a label and of the calls of the promise. */
  function LabelName(): string { "_valet_s" }
  function SaveOpen(): string { "_valet_p->save(" }
  function LoadOpen(): string { "_valet_p->load(" }

  function PreambleStamp(at: nat, verbose: bool, ctx: string, labels: nat, line: nat): Stamp {
    Stamp(at, PreambleHead(verbose, ctx, labels) + Entries(labels) + PreambleGoto() + LabelName() + "0:", line,
          PreambleEnd(verbose))
  }

  function SaveStamp(at: nat, verbose: bool, n: nat, varList: string, line: nat): Stamp {
    Stamp(at, SaveNote(verbose) + "\n" + SaveOpen() + Decimal(n) + varList + ");", line,
          SaveEnd(verbose))
  }

  function LoadStamp(at: nat, verbose: bool, n: nat, varList: string, line: nat): Stamp {
    Stamp(at, LoadNote(verbose) + "\n" + LabelName() + Decimal(n) + ":" + "\n" + LoadOpen() + Stripped(varList)
        + ");", line,
          LoadEnd(verbose))
  }

  /** The preamble is built entry by entry. */
  method Preamble(verbose: bool, ctx: string, labels: nat, line: nat) returns (ret: string)
    ensures ret == StampText(PreambleStamp(0, verbose, ctx, labels, line))
  {
    ret := PreambleHead(verbose, ctx, labels);
    hide PreambleHead, PreambleGoto, PreambleEnd, LabelName, Note, Decimal;
    var i := 1;
    while i <= labels
      invariant 1 <= i <= labels + 1
      invariant ret == PreambleHead(verbose, ctx, labels) + Entries(i - 1)
    {
      ret := NextEntry(ret, PreambleHead(verbose, ctx, labels), i);
      i := i + 1;
    }
    var pre := ret + PreambleGoto() + LabelName() + "0:";
    ret := pre + "\n" + ("#line " + (Decimal(line) + PreambleEnd(verbose))) + "\n";
    assert PreambleStamp(0, verbose, ctx, labels, line).pre == pre;
  }

  method NextEntry(ret: string, ghost head: string, i: nat) returns (r: string)
    requires i > 0 && ret == head + Entries(i - 1)
    ensures r == head + Entries(i)
  {
    hide Decimal;
    EntryIs(i);
    r := ret + ", (char*)&&_valet_s" + Decimal(i) + " - (char*)&&_valet_s0";
    hide *;
    Chain(head, Entries(i - 1), ", (char*)&&_valet_s", Decimal(i), " - (char*)&&_valet_s0");
  }

  lemma EntryIs(n: nat)
    requires n > 0
    ensures Entries(n) == Entries(n - 1) + ", (char*)&&_valet_s" + Decimal(n) + " - (char*)&&_valet_s0"
  {
    hide Decimal;
  }

  lemma Chain(a: string, b: string, c: string, d: string, e: string)
    ensures a + b + c + d + e == a + (b + c + d + e)
  {
  }

  /** An await: where it begins, the semicolon of its statement, and its variables. */
  datatype Site = Site(aw: nat, semi: nat, vars: seq<string>)

  /** The insertions for all stages in turn, each stamped with the source line of its token. */
  function SiteStamps(src: string, sites: seq<Site>, verbose: bool): seq<Stamp>
    requires forall i :: 0 <= i < |sites| ==> sites[i].aw < |src| && sites[i].semi < |src|
  {
    if sites == [] then []
    else
      var n, s := |sites|, sites[|sites| - 1];
      SiteStamps(src, sites[..n - 1], verbose)
      + [SaveStamp(s.aw, verbose, n, VarList(s.vars), PhysicalLine(src, s.aw)),
         LoadStamp(s.semi + 1, verbose, n, VarList(s.vars), PhysicalLine(src, s.semi))]
  }

  /** A rewritten function: where its body begins, its type, and its awaits. */
  datatype Patch = Patch(open: nat, ctx: string, sites: seq<Site>)

  function BodyStamps(src: string, p: Patch, verbose: bool): seq<Stamp>
    requires InSource(src, p)
  {
    [PreambleStamp(p.open + 1, verbose, p.ctx, |p.sites|, PhysicalLine(src, p.open))]
        + SiteStamps(src, p.sites, verbose)
  }

  /** The insertions for all functions of a file, in whatever order they are visited. */
  function ToolStamps(src: string, ps: seq<Patch>, verbose: bool): seq<Stamp>
    requires forall i :: 0 <= i < |ps| ==> InSource(src, ps[i])
  {
    if ps == [] then [] else ToolStamps(src, ps[..|ps| - 1], verbose) + BodyStamps(src, ps[|ps| - 1], verbose)
  }

  /** The body's brace, the awaits and the semicolons are where the source has them; text follows. */
  predicate InSource(src: string, p: Patch) {
    && p.open + 1 < |src| && src[p.open] == '{'
    && forall i :: 0 <= i < |p.sites| ==>
         p.sites[i].aw < |src| && p.sites[i].semi + 1 < |src| && src[p.sites[i].semi] == ';'
  }

  /** All insertions are stamped with the physical line of the character they stand before. */
  ghost predicate Physical(src: string, ss: seq<Stamp>) {
    forall k :: 0 <= k < |ss| ==> StampOk(ss[k]) && ss[k].at < |src| && ss[k].line == PhysicalLine(src, ss[k].at)
  }

  /** The source itself does not renumber the lines of the insertions. */
  ghost predicate NotRenumbered(src: string, ss: seq<Stamp>) {
    forall k :: 0 <= k < |ss| ==> ss[k].at <= |src| && PresumedLine(src, ss[k].at) == PhysicalLine(src, ss[k].at)
  }

  lemma StampsOk(at: nat, verbose: bool, ctx: string, n: nat, varList: string, line: nat)
    ensures StampOk(SaveStamp(at, verbose, n, varList, line)) && StampOk(LoadStamp(at, verbose, n, varList, line))
    ensures StampOk(PreambleStamp(at, verbose, ctx, n, line))
    ensures SaveStamp(at, verbose, n, varList, line).at == at && SaveStamp(at, verbose, n, varList, line).line == line
    ensures LoadStamp(at, verbose, n, varList, line).at == at && LoadStamp(at, verbose, n, varList, line).line == line
    ensures PreambleStamp(at, verbose, ctx, n, line).at == at && PreambleStamp(at, verbose, ctx, n, line).line == line
  {
    EndsOk(verbose);
    hide PreambleHead, PreambleGoto, SaveNote, LoadNote, LabelName, SaveOpen, LoadOpen, Entries, Decimal, Stripped;
    hide PreambleEnd, SaveEnd, LoadEnd, EndOk;
  }

  lemma EndsOk(verbose: bool)
    ensures EndOk(PreambleEnd(verbose)) && EndOk(SaveEnd(verbose)) && EndOk(LoadEnd(verbose))
  {
  }

  lemma {:induction false} SitesStamped(src: string, sites: seq<Site>, verbose: bool)
    requires forall i :: 0 <= i < |sites| ==>
        sites[i].aw < |src| && sites[i].semi + 1 < |src| && src[sites[i].semi] == ';'
    ensures Physical(src, SiteStamps(src, sites, verbose))
  {
    if sites != [] {
      var n, s := |sites| - 1, sites[|sites| - 1];
      SitesStamped(src, sites[..n], verbose);
      SiteStamped(src, s, n + 1, verbose);
      hide SaveStamp, LoadStamp, VarList, PhysicalLine, StampOk, Physical;
      PhysicalPair(src, SiteStamps(src, sites[..n], verbose),
                   SaveStamp(s.aw, verbose, n + 1, VarList(s.vars), PhysicalLine(src, s.aw)),
                   LoadStamp(s.semi + 1, verbose, n + 1, VarList(s.vars), PhysicalLine(src, s.semi)));
    }
  }

  lemma PhysicalOne(src: string, s: Stamp)
    requires StampOk(s) && s.at < |src| && s.line == PhysicalLine(src, s.at)
    ensures Physical(src, [s])
  {
  }

  /** Behind a character other than a line break the line is the same. */
  lemma SameLine(src: string, o: nat)
    requires o < |src| && src[o] != '\n'
    ensures PhysicalLine(src, o + 1) == PhysicalLine(src, o)
  {
  }

  lemma SiteStamped(src: string, s: Site, n: nat, verbose: bool)
    requires s.aw < |src| && s.semi + 1 < |src| && src[s.semi] == ';'
    ensures Physical(src, [SaveStamp(s.aw, verbose, n, VarList(s.vars), PhysicalLine(src, s.aw))])
    ensures Physical(src, [LoadStamp(s.semi + 1, verbose, n, VarList(s.vars), PhysicalLine(src, s.semi))])
  {
    hide *;
    StampsOk(s.aw, verbose, "", n, VarList(s.vars), PhysicalLine(src, s.aw));
    StampsOk(s.semi + 1, verbose, "", n, VarList(s.vars), PhysicalLine(src, s.semi));
    SameLine(src, s.semi);
    PhysicalOne(src, SaveStamp(s.aw, verbose, n, VarList(s.vars), PhysicalLine(src, s.aw)));
    PhysicalOne(src, LoadStamp(s.semi + 1, verbose, n, VarList(s.vars), PhysicalLine(src, s.semi)));
  }

  lemma PhysicalPair(src: string, ss: seq<Stamp>, a: Stamp, b: Stamp)
    requires Physical(src, ss) && Physical(src, [a]) && Physical(src, [b])
    ensures Physical(src, ss + [a, b])
  {
    assert [a][0] == a && [b][0] == b;
  }

  lemma PhysicalJoin(src: string, a: seq<Stamp>, b: seq<Stamp>)
    requires Physical(src, a) && Physical(src, b)
    ensures Physical(src, a + b)
  {
  }

  lemma BodyStamped(src: string, p: Patch, verbose: bool)
    requires InSource(src, p)
    ensures Physical(src, BodyStamps(src, p, verbose))
  {
    hide SiteStamps, PreambleStamp, PhysicalLine, Physical;
    SitesStamped(src, p.sites, verbose);
    OpenStamped(src, p, verbose);
    var a := [PreambleStamp(p.open + 1, verbose, p.ctx, |p.sites|, PhysicalLine(src, p.open))];
    var b := SiteStamps(src, p.sites, verbose);
    assert BodyStamps(src, p, verbose) == a + b;
    PhysicalJoin(src, a, b);
  }

  lemma OpenStamped(src: string, p: Patch, verbose: bool)
    requires p.open + 1 < |src| && src[p.open] == '{'
    ensures Physical(src, [PreambleStamp(p.open + 1, verbose, p.ctx, |p.sites|, PhysicalLine(src, p.open))])
  {
    hide *;
    StampsOk(p.open + 1, verbose, p.ctx, |p.sites|, "", PhysicalLine(src, p.open));
    SameLine(src, p.open);
    PhysicalOne(src, PreambleStamp(p.open + 1, verbose, p.ctx, |p.sites|, PhysicalLine(src, p.open)));
  }

  lemma {:induction false} ToolStamped(src: string, ps: seq<Patch>, verbose: bool)
    requires forall i :: 0 <= i < |ps| ==> InSource(src, ps[i])
    ensures Physical(src, ToolStamps(src, ps, verbose))
  {
    hide BodyStamps, StampOk, PhysicalLine, InSource, Physical;
    if ps == [] {
      PhysicalNone(src);
    } else {
      ToolStamped(src, ps[..|ps| - 1], verbose);
      BodyStamped(src, ps[|ps| - 1], verbose);
      PhysicalJoin(src, ToolStamps(src, ps[..|ps| - 1], verbose), BodyStamps(src, ps[|ps| - 1], verbose));
    }
  }

  lemma PhysicalNone(src: string)
    ensures Physical(src, [])
  {
  }

  /** In either mode, in the rewritten text every original character is attributed to the line it was
      attributed to before, if and only if the source itself does not renumber the lines of the
      insertions. */
  lemma ToolPreservesLines(src: string, ps: seq<Patch>, verbose: bool)
    requires forall i :: 0 <= i < |ps| ==> InSource(src, ps[i])
    requires Clear(src, ToolStamps(src, ps, verbose))
    ensures KeepsLines(src, ToolStamps(src, ps, verbose)) <==> NotRenumbered(src, ToolStamps(src, ps, verbose))
  {
    ToolStamped(src, ps, verbose);
    PhysicalPreserves(src, ToolStamps(src, ps, verbose));
  }

  lemma PhysicalPreserves(src: string, ss: seq<Stamp>)
    requires Physical(src, ss) && Clear(src, ss)
    ensures KeepsLines(src, ss) <==> NotRenumbered(src, ss)
  {
    hide KeepsLines, Clear, PhysicalLine, PresumedLine;
    LinesPreserved(src, ss);
  }

  /** No line of the source is a line directive. */
  ghost predicate NoDirectives(src: string) {
    forall q :: 0 <= q < |src| && src[q] == '\n' ==> Directive(LineSoFar(src, q)).None?
  }

  lemma {:induction false} NoDirectivesPhysical(src: string, o: nat)
    requires NoDirectives(src) && o <= |src|
    ensures PresumedLine(src, o) == PhysicalLine(src, o)
  {
    if o > 0 {
      NoDirectivesPhysical(src, o - 1);
      ReadNext(src, o - 1);
      assert src[o - 1] == '\n' ==> Directive(LineSoFar(src, o - 1)).None?;
      hide Directive, NoDirectives, Read;
    } else {
      assert src[..0] == [];
    }
  }

  /** So a source without line directives keeps all its line numbers, which are the physical ones. */
  lemma PlainSourceKeepsLines(src: string, ps: seq<Patch>, verbose: bool, o: nat)
    requires forall i :: 0 <= i < |ps| ==> InSource(src, ps[i])
    requires NoDirectives(src) && Clear(src, ToolStamps(src, ps, verbose)) && o < |src|
    ensures NowOnLine(src, ToolStamps(src, ps, verbose), o, PhysicalLine(src, o))
  {
    ToolStamped(src, ps, verbose);
    hide ToolStamps;
    PlainKeepsLines(src, ToolStamps(src, ps, verbose), o);
  }

  lemma PlainKeepsLines(src: string, ss: seq<Stamp>, o: nat)
    requires Physical(src, ss) && NoDirectives(src) && Clear(src, ss) && o < |src|
    ensures NowOnLine(src, ss, o, PhysicalLine(src, o))
  {
    forall k | 0 <= k < |ss| ensures ss[k].at <= |src| && PresumedLine(src, ss[k].at) == PhysicalLine(src, ss[k].at) {
      NoDirectivesPhysical(src, ss[k].at);
    }
    NoDirectivesPhysical(src, o);
    PhysicalPreserves(src, ss);
    hide NowOnLine, PresumedLine, PhysicalLine, Clear, NoDirectives;
  }

  // ----- a source that renumbers its lines -----

  /** As a preprocessor or a generator leaves it: the coroutine is said to be on line 9. */
  function RenumberedHead(): string { "#line 9" + ['\n'] + ['{'] }
  function Renumbered(): string { RenumberedHead() + "a;}" }

  function RenumberedPatch(ctx: string): Patch {
    Patch(8, ctx, [Site(9, 10, [])])
  }

  lemma RenumberedInSource(ctx: string)
    ensures InSource(Renumbered(), RenumberedPatch(ctx))
  {
    var src := Renumbered();
    assert src[8] == '{' && src[10] == ';' && |src| == 12;
    hide Renumbered;
  }

  /** What the tool inserts into it. */
  function RenumberedStamps(ctx: string, verbose: bool): seq<Stamp> {
    RenumberedInSource(ctx);
    ToolStamps(Renumbered(), [RenumberedPatch(ctx)], verbose)
  }

  /** Stamping physical lines, the tool moves the await from line 9 to line 2. */
  lemma RenumberedIsLost(ctx: string, verbose: bool)
    ensures PresumedLine(Renumbered(), 9) == 9
    ensures NowOnLine(Renumbered(), RenumberedStamps(ctx, verbose), 9, 2)
  {
    RenumberedLines();
    RenumberedFirst(ctx, verbose);
    hide *;
    StampedLine(Renumbered(), RenumberedStamps(ctx, verbose), 0);
  }

  lemma RenumberedFirst(ctx: string, verbose: bool)
    ensures Physical(Renumbered(), RenumberedStamps(ctx, verbose))
    ensures |RenumberedStamps(ctx, verbose)| > 0 && RenumberedStamps(ctx, verbose)[0].at == 9
  {
    hide Renumbered, Physical, InSource, ToolStamps;
    RenumberedInSource(ctx);
    ToolStamped(Renumbered(), [RenumberedPatch(ctx)], verbose);
    OneBody(Renumbered(), RenumberedPatch(ctx), verbose);
  }

  lemma OneBody(src: string, p: Patch, verbose: bool)
    requires InSource(src, p)
    ensures
      var ss := ToolStamps(src, [p], verbose);
      |ss| > 0 && ss[0].at == p.open + 1
  {
    hide InSource, PreambleHead, PreambleGoto, PreambleEnd, Entries, LabelName;
    assert [p][..0] == [] && ToolStamps(src, [], verbose) == [];
  }

  /** Where something is inserted, the physical line counts. */
  lemma StampedLine(src: string, ss: seq<Stamp>, k: nat)
    requires Physical(src, ss) && k < |ss|
    ensures ss[k].at < |src| && NowOnLine(src, ss, ss[k].at, PhysicalLine(src, ss[k].at))
  {
    ReachedIsPresumed(src, ss, ss[k].at);
    StampDecides(src, ss, ss[k].at);
    LastIsStamp(ss, ss[k].at);
    hide NowOnLine, PhysicalLine, Reached, LastAt;
  }

  lemma RenumberedLines()
    ensures |Renumbered()| == 12 && PresumedLine(Renumbered(), 9) == 9 && PhysicalLine(Renumbered(), 9) == 2
  {
    RenumberedIsRead();
    RenumberedPhysical();
    assert |RenumberedHead()| == 9;
    hide Read, PhysicalLine, RenumberedHead;
    assert Renumbered()[..9] == RenumberedHead();
  }

  lemma RenumberedIsRead()
    ensures Read(TOP, RenumberedHead()) == Scan(9, "{")
  {
    var line := "#line 9";
    RenumberedDirective();
    ReadWithin(TOP, line);
    assert "" + line == line;
    hide Read, Directive;
    ReadOne(TOP, line, '\n');
    ReadOne(TOP, line + ['\n'], '{');
    assert "" + ['{'] == "{";
  }

  lemma RenumberedDirective()
    ensures Directive("#line 9") == Some(9)
  {
    assert Decimal(9) == "9" && "#line " + ("9" + "") == "#line 9";
    hide Directive;
    DirectiveRead(9, "");
  }

  lemma RenumberedPhysical()
    ensures PhysicalLine(Renumbered(), 9) == 2
  {
    var src := Renumbered();
    assert PhysicalLine(src, 0) == 1;
    assert PhysicalLine(src, 2) == 1;
    assert PhysicalLine(src, 4) == 1;
    assert PhysicalLine(src, 6) == 1;
    assert PhysicalLine(src, 8) == 2;
  }
}
