/** The preamble, read row by row: the promise's stage leads through the table to a label. */
module ReadingPreamble {
  import opened Wire
  import opened Rewrite
  import opened Text
  import opened Lines
  import opened Strings
  import opened Reader
  import opened Reading

  // ----- its rows -----

  /** The variables that hold the stage and the table. */
  function StageVar(): string { "_valet_st" }
  function TableVar(): string { "_valet_stages" }

  /** Nothing for the start, and for each label its distance from the start label. */
  function TableEntries(n: nat): seq<Entry> {
    if n == 0 then [Start] else TableEntries(n - 1) + [From(LabelText(n), LabelText(0))]
  }

  /** What the preamble says: the stage of the promise, if there is one, leads through the table to a label. */
  function PreambleItems(ctx: string, n: nat): seq<Item> {
    [Binding(Pointer(), PointerType() + ctx + PointerTail()),
     Guard(StageVar(), Pointer() + "->stage()"),
     Assertion(StageVar() + " <= " + Decimal(n)),
     Offsets(TableVar(), TableEntries(n)),
     Goto(LabelText(0), TableVar(), StageVar()),
     Closing,
     LabelDef(LabelText(0))]
  }

  function PointerHead(): string { "auto _valet_p = co_await valor::" }
  function PointerType(): string { "co_await valor::" }
  function PointerTail(): string { "::get_promise{}" }

  lemma PointerRead(ctx: string)
    requires '\n' !in ctx && ';' !in ctx
    ensures '\n' !in PointerRow(ctx)
    ensures ItemOf(PointerRow(ctx)) == [Binding(Pointer(), PointerType() + ctx + PointerTail())]
  {
    hide *;
    var init := PointerType() + ctx + PointerTail();
    var rest := " " + Pointer() + " = " + init + ";";
    PointerRowIs(ctx);
    PointerTexts();
    PointerHeadIs();
    PointerGlue(ctx, PointerHead(), Pointer(), PointerType(), PointerTail());
    BindingForm(Pointer(), init);
    WordIs("auto", rest);
    FormOf(PointerRow(ctx));
  }

  lemma PointerRowIs(ctx: string)
    ensures PointerRow(ctx) == PointerHead() + ctx + (PointerTail() + ";")
  {
    assert "::get_promise{};" == PointerTail() + ";";
    hide PointerTail;
  }

  lemma PointerTexts()
    ensures '\n' !in PointerHead() && '\n' !in PointerTail() && ' ' !in Pointer() && IsName("auto")
    ensures ';' !in PointerType() && ';' !in PointerTail()
  {
  }

  lemma PointerHeadIs()
    ensures PointerHead() == "auto" + (" " + Pointer() + " = " + PointerType())
  {
  }

  lemma PointerGlue(ctx: string, head: string, p: string, open: string, close: string)
    requires head == "auto" + (" " + p + " = " + open)
    requires '\n' !in head && '\n' !in close && '\n' !in ctx
    requires ';' !in open && ';' !in close && ';' !in ctx
    ensures
      var row, init := head + ctx + (close + ";"), open + ctx + close;
      && row == "auto " + p + " = " + init + ";" && row == "auto" + (" " + p + " = " + init + ";")
      && '\n' !in row && ';' !in init
    ensures Separator((" " + p)[0]) && "auto" != ""
  {
  }

  lemma GuardRead()
    ensures '\n' !in GuardRow() && ItemOf(GuardRow()) == [Guard(StageVar(), Pointer() + "->stage()")]
  {
    hide *;
    GuardRowIs();
    GuardTexts();
    GuardGlue2(StageVar(), Pointer() + "->stage()");
    GuardForm(StageVar(), Pointer() + "->stage()");
    WordIs("if", " (auto " + StageVar() + " = " + (Pointer() + "->stage()") + ") {");
    FormOf(GuardRow());
  }

  lemma GuardRowIs()
    ensures '\n' !in GuardRow()
    ensures GuardRow() == "if (auto " + StageVar() + " = " + (Pointer() + "->stage()") + ") {"
  {
    GuardLeftIs();
    GuardRightIs();
    hide StageVar, Pointer;
  }

  lemma GuardLeftIs()
    ensures "if (auto _valet_st" == "if (auto " + StageVar() && '\n' !in "if (auto _valet_st"
  {
  }

  lemma GuardRightIs()
    ensures " = _valet_p->stage()) {" == " = " + (Pointer() + "->stage()") + ") {" && '\n' !in " = _valet_p->stage()) {"
  {
  }

  lemma GuardTexts()
    ensures ' ' !in StageVar() && '=' !in StageVar() && '{' !in Pointer() + "->stage()" && IsName("if") && "if" != ""
  {
  }

  lemma GuardGlue2(name: string, value: string)
    ensures
      var rest := " (auto " + name + " = " + value + ") {";
      "if (auto " + name + " = " + value + ") {" == "if" + rest && rest != "" && Separator(rest[0])
  {
  }

  lemma AssertRead(n: nat)
    ensures '\n' !in AssertRow(n) && ItemOf(AssertRow(n)) == [Assertion(StageVar() + " <= " + Decimal(n))]
  {
    hide *;
    var text := StageVar() + " <= " + Decimal(n);
    var row := "assert(" + text + ");";
    DecimalName(n);
    NameFreeHere(Decimal(n));
    AssertRowIs(n);
    AssertGlue(StageVar(), Decimal(n));
    AssertionForm(text);
    WordIs("assert", "(" + text + ");");
    FormOf(row);
  }

  lemma AssertRowIs(n: nat)
    ensures AssertRow(n) == "    assert(" + StageVar() + " <= " + Decimal(n) + ");"
    ensures ')' !in StageVar() && '\n' !in StageVar() && IsName("assert") && "assert" != ""
  {
    assert "    assert(_valet_st <= " == "    assert(" + StageVar() + " <= ";
    hide Decimal;
  }

  lemma AssertGlue(name: string, n: string)
    requires ')' !in name && ')' !in n && '\n' !in name && '\n' !in n
    ensures
      var text, row := name + " <= " + n, "    assert(" + name + " <= " + n + ");";
      && row == "    " + ("assert(" + text + ");") && '\n' !in row && ')' !in text
      && "assert(" + text + ");" == "assert" + ("(" + text + ");") && Separator(("(" + text + ");")[0])
  {
  }

  lemma GotoRead()
    ensures '\n' !in GotoRow() && ItemOf(GotoRow()) == [Goto(LabelText(0), TableVar(), StageVar())]
  {
    hide *;
    LabelTextIs(0);
    NameFreeHere(LabelText(0));
    GotoTexts();
    GotoRowIs();
    GotoStartIs();
    GotoGlue2(GotoStart(), GotoRest(), LabelText(0), TableVar(), StageVar());
    GotoForm(LabelText(0), TableVar(), StageVar());
    WordIs("goto", GotoRest() + LabelText(0) + " + " + TableVar() + "[" + StageVar() + "]);");
    FormOf(GotoStart() + LabelText(0) + " + " + TableVar() + "[" + StageVar() + "]);");
  }

  function GotoFirst(): string { "    goto *(void*)((char*)&&" }
  function GotoLeft(): string { "    goto *(void*)((char*)&&_valet_s0" }
  function GotoRight(): string { " + _valet_stages[_valet_st]);" }

  lemma GotoRowIs()
    ensures '\n' !in GotoRow()
    ensures GotoRow() == GotoFirst() + LabelText(0) + " + " + TableVar() + "[" + StageVar() + "]);"
  {
    GotoLeftIs();
    GotoRightIs();
    assert GotoRow() == GotoLeft() + GotoRight();
    hide *;
    GotoGlue3(GotoFirst(), LabelText(0), TableVar(), StageVar());
  }

  lemma GotoLeftIs()
    ensures '\n' !in GotoLeft() && GotoLeft() == GotoFirst() + LabelText(0)
  {
    LabelZero();
    hide LabelText;
  }

  lemma GotoRightIs()
    ensures '\n' !in GotoRight() && GotoRight() == " + " + TableVar() + "[" + StageVar() + "]);"
  {
  }

  lemma GotoGlue3(a: string, b: string, c: string, d: string)
    ensures a + b + (" + " + c + "[" + d + "]);") == a + b + " + " + c + "[" + d + "]);"
  {
  }

  function GotoStart(): string { "goto *(void*)((char*)&&" }
  function GotoRest(): string { " *(void*)((char*)&&" }

  lemma GotoStartIs()
    ensures GotoFirst() == "    " + GotoStart() && GotoStart() == "goto *(void*)((char*)&&"
    ensures GotoStart() == "goto" + GotoRest() && Separator(GotoRest()[0])
  {
  }

  lemma LabelZero()
    ensures LabelText(0) == "_valet_s0" && LabelName() + "0:" == LabelName() + Decimal(0) + ":" && '[' !in LabelText(0)
  {
    assert Decimal(0) == "0";
    hide Decimal;
  }

  lemma GotoTexts()
    ensures '[' !in LabelText(0) && '[' !in TableVar() && ']' !in StageVar() && IsName("goto") && "goto" != ""
  {
    LabelZero();
    hide LabelText;
  }

  lemma GotoGlue2(start: string, rest: string, base: string, table: string, index: string)
    requires start == "goto" + rest && rest != ""
    ensures
      && "    " + start + base + " + " + table + "[" + index + "]);"
         == "    " + (start + base + " + " + table + "[" + index + "]);")
      && start + base + " + " + table + "[" + index + "]);"
         == "goto" + (rest + base + " + " + table + "[" + index + "]);")
      && (rest + base + " + " + table + "[" + index + "]);")[0] == rest[0]
  {
  }

  lemma ClosingRead()
    ensures '\n' !in "}" && ItemOf("}") == [Closing]
  {
    hide Word;
  }

  lemma CommentRead()
    ensures '\n' !in CommentRow() && ItemOf(CommentRow()) == []
  {
    var tail := " << \"k: to stage \"" + " << _valet_st << '\\n';";
    assert '\n' !in " << \"k: to stage \"" && '\n' !in " << _valet_st << '\\n';";
    assert CommentRow() == "    // std::cerr" + tail;
    hide *;
    CommentSilent("// std::cerr", tail);
    CommentHead();
  }

  lemma CommentHead()
    ensures "    // std::cerr" == "    " + "// std::cerr" && '\n' !in "// std::cerr" && "//" <= "// std::cerr"
  {
  }

  lemma CommentSilent(head: string, tail: string)
    requires "//" <= head
    ensures ItemOf("    " + head + tail) == [] && ('\n' !in head && '\n' !in tail ==> '\n' !in "    " + head + tail)
  {
    var row := head + tail;
    assert "    " + head + tail == "    " + row && row[0] == "//"[0] == '/';
    NoBlank(row);
    hide SkipBlanks, Word;
  }

  // ----- the table -----

  function EntryOpen(): string { "(char*)&&" }
  function EntryMid(): string { " - (char*)&&" }

  /** An entry as it is written. */
  function EntryText(n: nat): string { EntryOpen() + LabelText(n) + EntryMid() + LabelText(0) }

  lemma EntriesMore(n: nat)
    requires n > 0
    ensures Entries(n) == Entries(n - 1) + (", " + EntryText(n))
  {
    EntryIs(n);
    EntryTexts();
    hide *;
    LabelIs(n);
    EntriesGlue(Entries(n - 1), ", (char*)&&_valet_s", EntryOpen(), "_valet_s", Decimal(n),
                " - (char*)&&_valet_s0", EntryMid(), LabelText(0));
    EntryTextIs(n);
  }

  lemma LabelIs(n: nat)
    ensures LabelText(n) == "_valet_s" + Decimal(n)
  {
    hide Decimal;
  }

  lemma EntryTextIs(n: nat)
    ensures EntryText(n) == EntryOpen() + LabelText(n) + EntryMid() + LabelText(0)
  {
    hide EntryOpen, EntryMid, LabelText;
  }

  lemma EntryTexts()
    ensures ", (char*)&&_valet_s" == ", " + EntryOpen() + "_valet_s"
    ensures " - (char*)&&_valet_s0" == EntryMid() + LabelText(0)
  {
    LabelZero();
    hide LabelText;
  }

  lemma EntriesGlue(e: string, a: string, open: string, name: string, n: string, b: string, mid: string, base: string)
    requires a == ", " + open + name && b == mid + base
    ensures e + a + n + b == e + (", " + (open + (name + n) + mid + base))
  {
  }

  lemma EntryRead(n: nat)
    ensures EntryOf(SkipBlanks(" " + EntryText(n))) == From(LabelText(n), LabelText(0))
    ensures ',' !in EntryText(n) && '\n' !in EntryText(n) && '}' !in EntryText(n)
  {
    hide *;
    LabelTextIs(n);
    NameFreeHere(LabelText(n));
    LabelTextIs(0);
    EntryForm(LabelText(n), LabelText(0));
    EntryTextIs(n);
    EntryOpenIs();
    EntryFree(LabelText(n), LabelText(0));
    EntryStarts(EntryOpen(), LabelText(n) + EntryMid() + LabelText(0));
  }

  lemma EntryOpenIs()
    ensures EntryOpen() == "(char*)&&" && EntryMid() == " - (char*)&&" && EntryOpen()[0] == '('
  {
  }

  lemma EntryStarts(open: string, rest: string)
    requires open != "" && open[0] == '('
    ensures SkipBlanks(" " + (open + rest)) == open + rest
  {
    NoBlank(open + rest);
    hide SkipBlanks;
  }

  lemma EntryFree(to: string, base: string)
    requires IsName(to) && IsName(base)
    ensures
      var e := "(char*)&&" + to + " - (char*)&&" + base;
      ',' !in e && '\n' !in e && '}' !in e && e == "(char*)&&" + (to + " - (char*)&&" + base)
  {
    NameFree(to, '}');
    NameFree(base, '}');
    NameFreeHere(to);
    NameFreeHere(base);
    hide *;
    assert "(char*)&&" + to + " - (char*)&&" + base == "(char*)&&" + (to + " - (char*)&&" + base);
  }

  lemma {:induction false} EntriesRead(n: nat)
    ensures EntriesIn(Trimmed(Parts("0" + Entries(n), ','))) == TableEntries(n)
    ensures '\n' !in Entries(n) && '}' !in Entries(n)
  {
    hide *;
    TableEntriesIs(n);
    if n == 0 {
      StartRead();
    } else {
      EntriesRead(n - 1);
      EntriesMore(n);
      EntryRead(n);
      var x := "0" + Entries(n - 1);
      PartsLast(x, ',', " " + EntryText(n));
      CommaFree(EntryText(n));
      CommaGlue(x, EntryText(n));
      TrimmedMore(Parts(x, ','), " " + EntryText(n));
      EntriesInMore(Trimmed(Parts(x, ',')), SkipBlanks(" " + EntryText(n)));
      EntriesGlue2(Entries(n - 1), EntryText(n));
    }
  }

  lemma EntriesGlue2(e: string, more: string)
    requires '\n' !in e && '}' !in e && '\n' !in more && '}' !in more
    ensures "0" + (e + (", " + more)) == "0" + e + (", " + more)
    ensures '\n' !in e + (", " + more) && '}' !in e + (", " + more)
  {
  }

  lemma EntriesInMore(es: seq<string>, e: string)
    ensures EntriesIn(es + [e]) == EntriesIn(es) + [EntryOf(e)]
  {
    hide EntryOf;
  }

  lemma TableEntriesIs(n: nat)
    ensures TableEntries(n) == if n == 0 then [Start] else TableEntries(n - 1) + [From(LabelText(n), LabelText(0))]
  {
    hide LabelText;
  }

  lemma StartRead()
    ensures EntriesIn(Trimmed(Parts("0" + Entries(0), ','))) == [Start] && Entries(0) == ""
  {
    assert "0" + Entries(0) == "0";
    PartsOne("0", ',');
    NoBlank("0");
    assert Trimmed(["0"]) == ["0"];
    assert EntriesIn(["0"]) == [EntryOf("0")];
  }

  lemma {:induction false} TableLeads(n: nat)
    ensures Destinations(TableEntries(n), LabelText(0)) == Some(Table(n))
  {
    hide *;
    LabelTextIs(n);
    LabelTextIs(0);
    TableEntriesIs(n);
    TableMore(n);
    if n == 0 {
      NoDestinations(LabelText(0));
      LeadsStart(LabelText(0), 0);
      DestinationsMore([], Start, LabelText(0), [], 0);
    } else {
      TableLeads(n - 1);
      LeadsFrom(LabelText(n), LabelText(0), n);
      DestinationsMore(TableEntries(n - 1), From(LabelText(n), LabelText(0)), LabelText(0), Table(n - 1), n);
    }
  }

  lemma NoDestinations(base: string)
    ensures Destinations([], base) == Some([]) && [] + [Start] == [Start]
  {
  }

  lemma LeadsStart(base: string, n: nat)
    requires LabelNumber(base) == Some(n)
    ensures Destination(Start, base) == Some(n)
  {
    hide LabelNumber;
  }

  lemma LeadsFrom(to: string, base: string, n: nat)
    requires LabelNumber(to) == Some(n)
    ensures Destination(From(to, base), base) == Some(n)
  {
    hide LabelNumber;
  }

  lemma DestinationsMore(es: seq<Entry>, e: Entry, base: string, ts: seq<nat>, t: nat)
    requires Destinations(es, base) == Some(ts) && Destination(e, base) == Some(t)
    ensures Destinations(es + [e], base) == Some(ts + [t])
  {
    assert (es + [e])[..|es + [e]| - 1] == es;
    hide Destination;
  }

  lemma TableMore(n: nat)
    ensures Table(n) == if n == 0 then [] + [0] else Table(n - 1) + [n]
  {
  }

  lemma TableRead(n: nat)
    ensures
      var row := TableOpen() + Entries(n) + "};";
      '\n' !in row && ItemOf(row) == [Offsets(TableVar(), TableEntries(n))]
  {
    hide *;
    var list := "0" + Entries(n);
    var row := "static ssize_t " + TableVar() + "[] = {" + list + "};";
    EntriesRead(n);
    ArgsIs(list);
    TableOpenIs();
    TableGlue(TableVar(), Entries(n));
    OffsetsForm(TableVar(), list);
    WordIs("static", " ssize_t " + TableVar() + "[] = {" + list + "};");
    FormOf(row);
  }

  lemma ArgsIs(s: string)
    requires s != ""
    ensures Args(s) == Trimmed(Parts(s, ','))
  {
    hide Parts, Trimmed;
  }

  lemma TableOpenIs()
    ensures TableOpen() == "    static ssize_t " + TableVar() + "[] = {0" && '\n' !in TableOpen()
    ensures '[' !in TableVar() && '{' !in TableVar() && IsName("static") && "static" != ""
  {
    TableLeftIs();
    TableRightIs();
    hide TableVar;
  }

  lemma TableLeftIs()
    ensures "    static ssize_t" + " " == "    static ssize_t " && '\n' !in "    static ssize_t" && IsName("static")
  {
  }

  lemma TableRightIs()
    ensures " _valet_stages[] = {0" == " " + (TableVar() + "[] = {0") && '\n' !in " _valet_stages[] = {0"
    ensures '[' !in TableVar() && '{' !in TableVar()
  {
  }

  lemma TableGlue(name: string, e: string)
    requires '}' !in e && '\n' !in e && '\n' !in "    static ssize_t " + name + "[] = {0"
    ensures
      var list, row := "0" + e, "static ssize_t " + name + "[] = {" + ("0" + e) + "};";
      && "    static ssize_t " + name + "[] = {0" + e + "};" == "    " + row && '\n' !in "    " + row
      && '}' !in list && list != ""
      && row == "static" + (" ssize_t " + name + "[] = {" + list + "};")
      && Separator((" ssize_t " + name + "[] = {" + list + "};")[0])
  {
    TableStart(name, "0" + e);
    var list, open := "0" + e, "    static ssize_t " + name;
    assert '\n' !in open + "[] = {0" + e + "};";
    assert open + "[] = {0" + e + "};" == open + "[] = {" + list + "};";
    assert "    static ssize_t " == "    " + "static ssize_t ";
    hide *;
    assert "    static ssize_t " + name + "[] = {" + list + "};"
        == "    " + ("static ssize_t " + name + "[] = {" + list + "};");
  }

  lemma TableStart(name: string, list: string)
    ensures "static ssize_t " + name + "[] = {" + list + "};"
         == "static" + (" ssize_t " + name + "[] = {" + list + "};")
    ensures Separator((" ssize_t " + name + "[] = {" + list + "};")[0])
  {
    assert "static ssize_t " == "static" + " ssize_t ";
  }

  // ----- the preamble as a whole -----

  lemma PreambleNoteRead(verbose: bool, rest: string)
    ensures Items(PreambleNote(verbose) + "\n" + rest) == Items(rest)
  {
    hide *;
    NoNote();
    SilentRow("", rest);
    if verbose {
      var row := "// Valet preamble";
      NoteIs();
      SilentRow(row, "" + "\n" + rest);
      NoteGlue(row, rest);
    }
  }

  lemma NoteIs()
    ensures PreambleNote(true) == "// Valet preamble" + "\n" && Silent("// Valet preamble") && Silent("")
  {
  }

  lemma NoNote()
    ensures PreambleNote(false) == "" && Silent("")
  {
  }

  lemma NoteGlue(row: string, rest: string)
    ensures row + "\n" + "\n" + rest == row + "\n" + ("" + "\n" + rest)
  {
  }

  /** The rows behind the table. */
  function Behind(line: nat, post: string): string {
    GotoRow() + "\n" + ("}" + "\n" + (LabelName() + Decimal(0) + ":" + "\n"
        + ("#line " + (Decimal(line) + post) + "\n")))
  }

  lemma BehindRead(line: nat, post: string)
    requires EndOk(post)
    ensures Items(Behind(line, post)) == [Goto(LabelText(0), TableVar(), StageVar()), Closing, LabelDef(LabelText(0))]
  {
    hide *;
    var dir := "#line " + (Decimal(line) + post) + "\n";
    var l := LabelName() + Decimal(0) + ":";
    BehindIs(line, post);
    GotoRead();
    ClosingRead();
    LabelRow(0);
    DirectiveEnds(line, post);
    ItemsFirst(l, dir);
    ItemsFirst("}", l + "\n" + dir);
    ItemsFirst(GotoRow(), "}" + "\n" + (l + "\n" + dir));
    Three(Goto(LabelText(0), TableVar(), StageVar()), Closing, LabelDef(LabelText(0)));
  }

  lemma BehindIs(line: nat, post: string)
    ensures Behind(line, post) == GotoRow() + "\n" + ("}" + "\n" + (LabelName() + Decimal(0) + ":" + "\n"
        + ("#line " + (Decimal(line) + post) + "\n")))
  {
    hide GotoRow, LabelName, Decimal;
  }

  lemma Three(a: Item, b: Item, c: Item)
    ensures [a] + ([b] + ([c] + [])) == [a, b, c]
  {
  }

  lemma PreambleText(at: nat, verbose: bool, ctx: string, n: nat, line: nat)
    ensures StampText(PreambleStamp(at, verbose, ctx, n, line))
      == PreambleNote(verbose) + "\n" + (PointerRow(ctx) + "\n" + (GuardRow() + "\n" + (AssertRow(n) + "\n"
          + (CommentRow() + "\n" + (TableOpen() + Entries(n) + "};" + "\n" + Behind(line, PreambleEnd(verbose)))))))
  {
    var s := PreambleStamp(at, verbose, ctx, n, line);
    var dir := "#line " + (Decimal(line) + PreambleEnd(verbose));
    PreambleIs(at, verbose, ctx, n, line);
    StampIs(s);
    LabelZero();
    BehindIs(line, PreambleEnd(verbose));
    hide *;
    HeadGlue(PreambleNote(verbose), PointerRow(ctx), GuardRow(), AssertRow(n), CommentRow(), TableOpen(),
             Entries(n) + "};" + "\n" + Behind(line, PreambleEnd(verbose)));
    TailGlue(PreambleHead(verbose, ctx, n), Entries(n), GotoRow(), LabelName(), LabelName() + Decimal(0) + ":", dir);
    RowEnds(TableOpen(), Entries(n), Behind(line, PreambleEnd(verbose)));
    PreambleHeadIs(verbose, ctx, n);
  }

  lemma PreambleHeadIs(verbose: bool, ctx: string, n: nat)
    ensures PreambleHead(verbose, ctx, n) == PreambleNote(verbose) + "\n" + PointerRow(ctx) + "\n" + GuardRow() + "\n"
        + AssertRow(n) + "\n" + CommentRow() + "\n" + TableOpen()
  {
    hide PreambleNote, PointerRow, GuardRow, AssertRow, CommentRow, TableOpen;
  }

  lemma PreambleIs(at: nat, verbose: bool, ctx: string, n: nat, line: nat)
    ensures
      var s := PreambleStamp(at, verbose, ctx, n, line);
      && s.pre == PreambleHead(verbose, ctx, n) + Entries(n) + ("};" + "\n" + GotoRow() + "\n" + "}" + "\n")
          + LabelName() + "0:"
      && s.post == PreambleEnd(verbose) && s.line == line
  {
    hide PreambleHead, GotoRow, LabelName, Entries, PreambleEnd;
  }

  lemma HeadGlue(pn: string, p: string, g: string, a: string, c: string, t: string, x: string)
    ensures pn + "\n" + p + "\n" + g + "\n" + a + "\n" + c + "\n" + t + x
         == pn + "\n" + (p + "\n" + (g + "\n" + (a + "\n" + (c + "\n" + (t + x)))))
  {
  }

  lemma TailGlue(head: string, e: string, g: string, name: string, l: string, dir: string)
    requires name + "0:" == l
    ensures head + e + ("};" + "\n" + g + "\n" + "}" + "\n") + name + "0:" + "\n" + dir + "\n"
         == head + (e + "};" + "\n" + (g + "\n" + ("}" + "\n" + (l + "\n" + (dir + "\n")))))
  {
  }

  lemma RowEnds(t: string, e: string, x: string)
    ensures t + (e + "};" + "\n" + x) == t + e + "};" + "\n" + x
  {
  }

  lemma PreambleRowsRead(at: nat, verbose: bool, ctx: string, n: nat, line: nat)
    requires '\n' !in ctx && ';' !in ctx
    ensures Items(StampText(PreambleStamp(at, verbose, ctx, n, line))) == PreambleItems(ctx, n)
  {
    hide *;
    var row, behind := TableOpen() + Entries(n) + "};", Behind(line, PreambleEnd(verbose));
    PreambleText(at, verbose, ctx, n, line);
    EndsOk(verbose);
    BehindRead(line, PreambleEnd(verbose));
    TableRead(n);
    CommentRead();
    AssertRead(n);
    GuardRead();
    PointerRead(ctx);
    ItemsFirst(row, behind);
    ItemsFirst(CommentRow(), row + "\n" + behind);
    ItemsFirst(AssertRow(n), CommentRow() + "\n" + (row + "\n" + behind));
    ItemsFirst(GuardRow(), AssertRow(n) + "\n" + (CommentRow() + "\n" + (row + "\n" + behind)));
    var rows := GuardRow() + "\n" + (AssertRow(n) + "\n" + (CommentRow() + "\n" + (row + "\n" + behind)));
    ItemsFirst(PointerRow(ctx), rows);
    PreambleNoteRead(verbose, PointerRow(ctx) + "\n" + rows);
    PreambleItemsAre(ctx, n);
  }

  lemma PreambleItemsAre(ctx: string, n: nat)
    ensures PreambleItems(ctx, n) ==
      [Binding(Pointer(), PointerType() + ctx + PointerTail())] + ([Guard(StageVar(), Pointer() + "->stage()")]
      + ([Assertion(StageVar() + " <= " + Decimal(n))] + ([] + ([Offsets(TableVar(), TableEntries(n))]
      + [Goto(LabelText(0), TableVar(), StageVar()), Closing, LabelDef(LabelText(0))]))))
  {
    hide Pointer, PointerType, PointerTail, StageVar, TableVar, Decimal, TableEntries, LabelText;
  }

  lemma PreambleToks(ctx: string, n: nat)
    ensures TokensOf(PreambleItems(ctx, n)) == [JumpTable(Table(n)), LabelMark(0)]
  {
    TableLeads(n);
    LabelTextIs(0);
    hide LabelText, LabelNumber, PointerType, PointerTail, Decimal, TableEntries, Destinations, Table;
    var items, l := PreambleItems(ctx, n), LabelDef(LabelText(0));
    assert Dispatches(items[..6]) == Some(Table(n));
    assert items[6..] == [l] && [l][1..] == [] && TokensOf([]) == [];
    assert ItemToks(l) == [LabelMark(0)];
    hide Dispatches, ItemToks, PreambleItems;
    assert TokensOf([l]) == [LabelMark(0)];
  }

  /** The preamble reads as the jump through a table with an entry for each label, each of which leads to
      the label of its number, and then label 0. */
  lemma PreambleRead(at: nat, verbose: bool, ctx: string, n: nat, line: nat)
    requires '\n' !in ctx && ';' !in ctx
    ensures Items(StampText(PreambleStamp(at, verbose, ctx, n, line))) == PreambleItems(ctx, n)
    ensures Tokens(StampText(PreambleStamp(at, verbose, ctx, n, line))) == [JumpTable(Table(n)), LabelMark(0)]
  {
    hide *;
    PreambleRowsRead(at, verbose, ctx, n, line);
    PreambleToks(ctx, n);
    TokensIs(StampText(PreambleStamp(at, verbose, ctx, n, line)));
  }
}
