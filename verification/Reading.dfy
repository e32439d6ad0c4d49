/** What an inserted save and an inserted load say, read row by row. */
module Reading {
  import opened Wire
  import opened Text
  import opened Lines
  import opened Strings
  import opened Reader

  // ----- names and numbers -----

  ghost predicate AllNames(vars: seq<string>) {
    forall i :: 0 <= i < |vars| ==> IsName(vars[i])
  }

  lemma NameFree(v: string, c: char)
    requires IsName(v) && Separator(c)
    ensures c !in v
  {
    hide Separator;
  }

  lemma NameTrimmed(v: string)
    requires IsName(v)
    ensures SkipBlanks(v) == v && SkipBlanks(" " + v) == v
  {
    assert !Separator(v[0]);
    NoBlank(v);
    hide SkipBlanks;
  }

  lemma {:induction false} DecimalDigits(n: nat)
    ensures forall i :: 0 <= i < |Decimal(n)| ==> IsDigit(Decimal(n)[i])
  {
    if n >= 10 { DecimalDigits(n / 10); }
  }

  lemma DecimalName(n: nat)
    ensures IsName(Decimal(n)) && forall i :: 0 <= i < |Decimal(n)| ==> IsDigit(Decimal(n)[i])
  {
    DecimalDigits(n);
    hide Decimal;
  }

  lemma DecimalValue(n: nat)
    ensures NumberFrom(Decimal(n), 0) == n
  {
    DecimalIsRead(n, "");
    assert Decimal(n) + "" == Decimal(n);
    hide Decimal;
  }

  // ----- lists of variables -----

  lemma {:induction false} VarListFree(vars: seq<string>, c: char)
    requires AllNames(vars) && Separator(c) && c != ',' && c != ' '
    ensures c !in VarList(vars)
    decreases |vars|
  {
    if vars != [] {
      VarListFree(vars[..|vars| - 1], c);
      NameFree(vars[|vars| - 1], c);
    }
    hide Separator, IsName;
  }

  /** One more name behind a comma. */
  lemma OneMore(x: string, v: string)
    requires IsName(v)
    ensures Trimmed(Parts(x + (", " + v), ',')) == Trimmed(Parts(x, ',')) + [v]
  {
    hide *;
    NameTrimmed(v);
    NameFreeHere(v);
    CommaFree(v);
    PartsLast(x, ',', " " + v);
    TrimmedMore(Parts(x, ','), " " + v);
    CommaGlue(x, v);
  }

  lemma NameFreeHere(v: string)
    requires IsName(v)
    ensures ',' !in v && ')' !in v && '\n' !in v && '(' !in v && ' ' !in v && '&' !in v
  {
  }

  lemma CommaFree(v: string)
    requires ',' !in v
    ensures ',' !in " " + v
  {
  }

  lemma CommaGlue(x: string, v: string)
    ensures x + (", " + v) == x + [','] + (" " + v)
  {
  }

  lemma VarListMore(vars: seq<string>)
    requires vars != []
    ensures VarList(vars) == VarList(vars[..|vars| - 1]) + (", " + vars[|vars| - 1])
  {
    hide *;
    VarListIs(vars);
    Regroup(VarList(vars[..|vars| - 1]), ", ", vars[|vars| - 1]);
  }

  lemma VarListIs(vars: seq<string>)
    requires vars != []
    ensures VarList(vars) == VarList(vars[..|vars| - 1]) + ", " + vars[|vars| - 1]
  {
  }

  lemma Regroup(a: string, b: string, c: string)
    ensures a + b + c == a + (b + c)
  {
  }

  lemma {:induction false} ListRead(x: string, vars: seq<string>)
    requires IsName(x) && AllNames(vars)
    ensures Trimmed(Parts(x + VarList(vars), ',')) == [x] + vars
    decreases |vars|
  {
    hide Parts, Trimmed, IsName;
    if vars == [] {
      NameFreeHere(x);
      NameTrimmed(x);
      PartsOne(x, ',');
      assert x + VarList(vars) == x;
      assert Trimmed([x]) == [SkipBlanks(x)];
    } else {
      var init, last := vars[..|vars| - 1], vars[|vars| - 1];
      ListRead(x, init);
      VarListMore(vars);
      OneMore(x + VarList(init), last);
      assert x + VarList(vars) == x + VarList(init) + (", " + last);
      assert [x] + init + [last] == [x] + vars;
    }
  }

  lemma {:induction false} StrippedFront(vars: seq<string>)
    requires vars != []
    ensures |VarList(vars)| >= 2 && Stripped(VarList(vars)) == vars[0] + VarList(vars[1..])
    decreases |vars|
  {
    var init, last := vars[..|vars| - 1], vars[|vars| - 1];
    VarListMore(vars);
    if |vars| == 1 {
      assert VarList(vars) == ", " + last && VarList(vars[1..]) == "";
    } else {
      StrippedFront(init);
      VarListMore(vars[1..]);
      assert init[1..] == vars[1..][..|vars[1..]| - 1];
      hide VarList;
      assert (VarList(init) + (", " + last))[2..] == VarList(init)[2..] + (", " + last);
    }
  }

  lemma StrippedRead(vars: seq<string>)
    requires AllNames(vars)
    ensures Args(Stripped(VarList(vars))) == vars
  {
    if vars != [] {
      StrippedFront(vars);
      assert IsName(vars[0]);
      hide VarList, Stripped, Parts, Trimmed;
      ListRead(vars[0], vars[1..]);
    }
  }

  lemma SaveListRead(n: nat, vars: seq<string>)
    requires AllNames(vars)
    ensures Args(Decimal(n) + VarList(vars)) == [Decimal(n)] + vars
  {
    DecimalName(n);
    hide VarList, Decimal, Parts, Trimmed;
    ListRead(Decimal(n), vars);
  }

  // ----- rows -----

  /** The promise pointer. */
  function Pointer(): string { "_valet_p" }

  /** Label `n`. */
  function LabelText(n: nat): string { "_valet_s" + Decimal(n) }

  lemma OpensAre()
    ensures SaveOpen() == Pointer() + ("->" + "save" + "(") && LoadOpen() == Pointer() + ("->" + "load" + "(")
    ensures IsName(Pointer()) && Pointer()[0] == '_' && '\n' !in Pointer()
  {
  }

  lemma CallRow(on: string, member: string, args: string)
    requires IsName(on) && on != "" && on[0] == '_' && '(' !in member && ')' !in args
    ensures ItemOf(on + ("->" + member + "(" + args + ");")) == [Call(on, member, Args(args))]
  {
    hide *;
    var rest := "->" + member + "(" + args + ");";
    CallForm(on, member, args);
    Arrow(member, args);
    WordIs(on, rest);
    NamedRow(on + rest, on);
  }

  lemma Arrow(member: string, args: string)
    ensures
      var rest := "->" + member + "(" + args + ");";
      rest != "" && Separator(rest[0])
  {
  }

  lemma NamedRow(s: string, w: string)
    requires w == Word(s) && w != "" && w[0] == '_'
    ensures ItemOf(s) == NamedIn(s)
  {
    hide *;
    FormOf(s);
  }

  lemma SaveRow(n: nat, vars: seq<string>)
    requires AllNames(vars)
    ensures
      var row := SaveOpen() + Decimal(n) + VarList(vars) + ");";
      '\n' !in row && ItemOf(row) == [Call(Pointer(), "save", [Decimal(n)] + vars)]
  {
    hide *;
    var args := Decimal(n) + VarList(vars);
    ArgsFree(n, vars);
    OpensAre();
    SaveListRead(n, vars);
    CallRow(Pointer(), "save", args);
    RowGlue(Pointer(), "save", Decimal(n), VarList(vars), SaveOpen());
  }

  lemma RowGlue(on: string, member: string, a: string, b: string, open: string)
    requires open == on + ("->" + member + "(")
    requires '\n' !in on && '\n' !in member && '\n' !in a && '\n' !in b
    ensures open + a + b + ");" == on + ("->" + member + "(" + (a + b) + ");") && '\n' !in open + a + b + ");"
  {
  }

  lemma ArgsFree(n: nat, vars: seq<string>)
    requires AllNames(vars)
    ensures '\n' !in Decimal(n) && '\n' !in VarList(vars) && ')' !in Decimal(n) + VarList(vars)
    ensures '\n' !in "save" && '(' !in "save" && '\n' !in "load" && '(' !in "load"
  {
    DecimalName(n);
    VarListFree(vars, '\n');
    VarListFree(vars, ')');
    NameFreeHere(Decimal(n));
    hide VarList, Decimal, IsName;
  }

  lemma LoadRow(vars: seq<string>)
    requires AllNames(vars)
    ensures
      var row := LoadOpen() + Stripped(VarList(vars)) + ");";
      '\n' !in row && ItemOf(row) == [Call(Pointer(), "load", vars)]
  {
    hide *;
    StrippedFree(vars);
    OpensAre();
    StrippedRead(vars);
    CallRow(Pointer(), "load", Stripped(VarList(vars)));
    RowGlue(Pointer(), "load", Stripped(VarList(vars)), "", LoadOpen());
    Nothing(LoadOpen(), Stripped(VarList(vars)));
  }

  lemma Nothing(a: string, b: string)
    ensures a + b + "" == a + b && b + "" == b && '\n' !in ""
  {
  }

  lemma StrippedFree(vars: seq<string>)
    requires AllNames(vars)
    ensures '\n' !in Stripped(VarList(vars)) && ')' !in Stripped(VarList(vars))
    ensures '\n' !in "load" && '(' !in "load"
  {
    VarListFree(vars, '\n');
    VarListFree(vars, ')');
    hide VarList;
  }

  lemma LabelTextIs(n: nat)
    ensures IsName(LabelText(n)) && LabelText(n)[0] == '_' && LabelText(n) == LabelName() + Decimal(n)
    ensures '\n' !in LabelText(n) && LabelNumber(LabelText(n)) == Some(n)
  {
    DecimalName(n);
    DecimalValue(n);
    NameFreeHere(Decimal(n));
    var name := LabelText(n);
    assert name[..8] == "_valet_s" && name[8..] == Decimal(n);
    hide Decimal, NumberFrom;
    forall i | 0 <= i < |name| ensures !Separator(name[i]) && (i >= 8 ==> IsDigit(name[i])) {
      if i >= 8 { assert name[i] == Decimal(n)[i - 8]; }
    }
  }

  lemma LabelRow(n: nat)
    ensures
      var row := LabelName() + Decimal(n) + ":";
      '\n' !in row && ItemOf(row) == [LabelDef(LabelText(n))]
  {
    hide *;
    LabelTextIs(n);
    LabelForm(LabelText(n));
    ColonIs(LabelText(n));
    WordIs(LabelText(n), ":");
    NamedRow(LabelText(n) + ":", LabelText(n));
  }

  lemma ColonIs(a: string)
    requires '\n' !in a && IsName(a)
    ensures '\n' !in a + ":" && Separator(":"[0]) && a != ""
  {
  }

  // ----- rows that say nothing -----

  /** A row that is a comment or a line directive. */
  predicate Silent(row: string) {
    '\n' !in row && (row == "" || row[0] == '#' || "//" <= row)
  }

  lemma SilentRow(row: string, rest: string)
    requires Silent(row)
    ensures Items(row + "\n" + rest) == Items(rest)
  {
    hide Items;
    ItemsFirst(row, rest);
    if row != "" {
      NoBlankHere(row);
    }
    hide SkipBlanks;
    assert ItemOf(row) == [];
  }

  lemma NoBlankHere(row: string)
    requires row != "" && (row[0] == '#' || "//" <= row)
    ensures SkipBlanks(row) == row
  {
    assert "//" <= row ==> row[0] == "//"[0] == '/';
  }

  /** A note in front of inserted rows. */
  predicate Quiet(note: string) {
    note == "" || (note[0] == '\n' && Silent(note[1..]))
  }

  lemma NoteRead(note: string, rest: string)
    requires Quiet(note)
    ensures Items(note + "\n" + rest) == Items(rest)
  {
    hide Items;
    SilentRow("", rest);
    if note != "" {
      var row := note[1..];
      SilentRow(row, rest);
      SilentRow("", row + "\n" + rest);
      assert note + "\n" + rest == "" + "\n" + (row + "\n" + rest);
    }
  }

  lemma DirectiveEnds(line: nat, post: string)
    requires EndOk(post)
    ensures Items("#line " + (Decimal(line) + post) + "\n") == []
  {
    hide *;
    var row := "#line " + (Decimal(line) + post);
    DirectiveSilent(line, post);
    SilentRow(row, "");
    Nothing(row, "\n");
    NoItems();
  }

  lemma DirectiveSilent(line: nat, post: string)
    requires EndOk(post)
    ensures Silent("#line " + (Decimal(line) + post))
  {
    assert '\n' !in "#line ";
    hide Decimal;
  }

  lemma NoItems()
    ensures Items("") == []
  {
    ItemsOne("");
    hide Items;
  }

  lemma NotesQuiet(verbose: bool)
    ensures Quiet(SaveNote(verbose)) && Quiet(LoadNote(verbose))
  {
    SaveNoteIs();
    LoadNoteIs();
    hide Silent;
  }

  lemma SaveNoteIs()
    ensures "\n// Valet stage save"[0] == '\n' && Silent("\n// Valet stage save"[1..])
  {
    assert "\n// Valet stage save"[1..] == "// Valet stage save";
  }

  lemma LoadNoteIs()
    ensures "\n// Valet stage load"[0] == '\n' && Silent("\n// Valet stage load"[1..])
  {
    assert "\n// Valet stage load"[1..] == "// Valet stage load";
  }

  // ----- the stamps -----

  /** One row of its own. */
  lemma OneRow(note: string, row: string, s: Stamp)
    requires Quiet(note) && '\n' !in row && EndOk(s.post) && s.pre == note + "\n" + row
    ensures Items(StampText(s)) == ItemOf(row)
  {
    hide *;
    var dir := "#line " + (Decimal(s.line) + s.post);
    StampIs(s);
    StampGlue(note, row, dir);
    NoteRead(note, row + "\n" + (dir + "\n"));
    ItemsFirst(row, dir + "\n");
    DirectiveEnds(s.line, s.post);
    NothingMore(ItemOf(row));
  }

  lemma StampIs(s: Stamp)
    ensures StampText(s) == s.pre + "\n" + ("#line " + (Decimal(s.line) + s.post)) + "\n"
  {
    hide Decimal;
  }

  lemma StampGlue(note: string, row: string, dir: string)
    ensures note + "\n" + row + "\n" + dir + "\n" == note + "\n" + (row + "\n" + (dir + "\n"))
  {
  }

  lemma NothingMore(items: seq<Item>)
    ensures items + [] == items
  {
  }

  lemma TwoRows(note: string, first: string, row: string, s: Stamp)
    requires Quiet(note) && '\n' !in first && '\n' !in row && EndOk(s.post)
    requires s.pre == note + "\n" + first + "\n" + row
    ensures Items(StampText(s)) == ItemOf(first) + ItemOf(row)
  {
    hide *;
    var dir := "#line " + (Decimal(s.line) + s.post);
    StampIs(s);
    StampGlue2(note, first, row, dir);
    NoteRead(note, first + "\n" + (row + "\n" + (dir + "\n")));
    ItemsFirst(first, row + "\n" + (dir + "\n"));
    ItemsFirst(row, dir + "\n");
    DirectiveEnds(s.line, s.post);
    NothingMore(ItemOf(row));
  }

  lemma StampGlue2(note: string, first: string, row: string, dir: string)
    ensures note + "\n" + first + "\n" + row + "\n" + dir + "\n"
         == note + "\n" + (first + "\n" + (row + "\n" + (dir + "\n")))
  {
  }

  lemma SaveToks(n: nat, vars: seq<string>)
    ensures TokensOf([Call(Pointer(), "save", [Decimal(n)] + vars)]) == [SaveCall(n, vars), Semi]
  {
    DecimalValue(n);
    var c := Call(Pointer(), "save", [Decimal(n)] + vars);
    assert ([Decimal(n)] + vars)[1..] == vars && [c][1..] == [];
    hide Decimal, NumberFrom;
    assert TokensOf([]) == [];
    assert ItemToks(c) == [SaveCall(n, vars), Semi];
    hide ItemToks, Dispatches;
  }

  lemma LoadToks(n: nat, vars: seq<string>)
    ensures TokensOf([LabelDef(LabelText(n))] + [Call(Pointer(), "load", vars)]) == [LabelMark(n), LoadCall(vars), Semi]
  {
    LabelTextIs(n);
    hide LabelText, LabelNumber;
    var l, c := LabelDef(LabelText(n)), Call(Pointer(), "load", vars);
    assert [l] + [c] == [l, c] && [l, c][1..] == [c] && [c][1..] == [];
    assert TokensOf([]) == [];
    assert ItemToks(c) == [LoadCall(vars), Semi] && ItemToks(l) == [LabelMark(n)];
    hide ItemToks, Dispatches;
    assert TokensOf([c]) == [LoadCall(vars), Semi];
  }

  /** The save reads as a save of stage `n` with exactly the variables, in order. */
  lemma SaveRead(at: nat, verbose: bool, n: nat, vars: seq<string>, line: nat)
    requires AllNames(vars)
    ensures Tokens(StampText(SaveStamp(at, verbose, n, VarList(vars), line))) == [SaveCall(n, vars), Semi]
  {
    hide *;
    var s, row := SaveStamp(at, verbose, n, VarList(vars), line), SaveOpen() + Decimal(n) + VarList(vars) + ");";
    SaveStampIs(at, verbose, n, VarList(vars), line);
    EndsOk(verbose);
    NotesQuiet(verbose);
    SaveRow(n, vars);
    OneRow(SaveNote(verbose), row, s);
    SaveToks(n, vars);
    TokensIs(StampText(s));
  }

  lemma TokensIs(text: string)
    ensures Tokens(text) == TokensOf(Items(text))
  {
    hide TokensOf, Items;
  }

  lemma SaveStampIs(at: nat, verbose: bool, n: nat, list: string, line: nat)
    ensures
      var s := SaveStamp(at, verbose, n, list, line);
      s.pre == SaveNote(verbose) + "\n" + (SaveOpen() + Decimal(n) + list + ");") && s.post == SaveEnd(verbose)
  {
    hide Decimal, SaveNote, SaveEnd, SaveOpen;
    SaveGlue(SaveNote(verbose), SaveOpen(), Decimal(n), list);
  }

  lemma SaveGlue(note: string, open: string, n: string, list: string)
    ensures note + "\n" + open + n + list + ");" == note + "\n" + (open + n + list + ");")
  {
  }

  lemma LoadStampIs(at: nat, verbose: bool, n: nat, list: string, line: nat)
    ensures
      var s := LoadStamp(at, verbose, n, list, line);
      && s.pre == LoadNote(verbose) + "\n" + (LabelName() + Decimal(n) + ":") + "\n"
          + (LoadOpen() + Stripped(list) + ");")
      && s.post == LoadEnd(verbose)
  {
    hide Decimal, LoadNote, LoadEnd, LoadOpen, LabelName, Stripped;
    LoadGlue(LoadNote(verbose), LabelName(), Decimal(n), LoadOpen(), Stripped(list));
  }

  lemma LoadGlue(note: string, name: string, n: string, open: string, list: string)
    ensures note + "\n" + name + n + ":" + "\n" + open + list + ");"
         == note + "\n" + (name + n + ":") + "\n" + (open + list + ");")
  {
  }

  /** The load reads as label `n` and a load of exactly the variables, in order. */
  lemma LoadRead(at: nat, verbose: bool, n: nat, vars: seq<string>, line: nat)
    requires AllNames(vars)
    ensures Tokens(StampText(LoadStamp(at, verbose, n, VarList(vars), line))) == [LabelMark(n), LoadCall(vars), Semi]
  {
    hide *;
    var s := LoadStamp(at, verbose, n, VarList(vars), line);
    LoadStampIs(at, verbose, n, VarList(vars), line);
    EndsOk(verbose);
    NotesQuiet(verbose);
    LabelRow(n);
    LoadRow(vars);
    TwoRows(LoadNote(verbose), LabelName() + Decimal(n) + ":", LoadOpen() + Stripped(VarList(vars)) + ");", s);
    LoadToks(n, vars);
    TokensIs(StampText(s));
  }
}
