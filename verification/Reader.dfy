/** A reader of the text the tool inserts.  It goes through the rows as a compiler would, without
    comments and line directives, and takes each apart at its separators. */
module Reader {
  import opened Wire
  import opened Lines
  import opened Text

  // ----- taking a text apart -----

  /** What stands before the first `c`, */
  function Upto(s: string, c: char): (r: string)
    ensures |r| <= |s|
  {
    if s == "" || s[0] == c then "" else [s[0]] + Upto(s[1..], c)
  }

  /** and what stands behind it. */
  function Past(s: string, c: char): (r: string)
    ensures |r| <= |s| && (s != "" ==> |r| < |s|)
  {
    if s == "" then "" else if s[0] == c then s[1..] else Past(s[1..], c)
  }

  function Parts(s: string, c: char): seq<string>
    decreases |s|
  {
    if c in s then [Upto(s, c)] + Parts(Past(s, c), c) else [s]
  }

  function Trimmed(ps: seq<string>): (r: seq<string>)
    ensures |r| == |ps| && forall i :: 0 <= i < |ps| ==> r[i] == SkipBlanks(ps[i])
  {
    seq(|ps|, i requires 0 <= i < |ps| => SkipBlanks(ps[i]))
  }

  /** A list separated by commas. */
  function Args(s: string): seq<string> {
    if s == "" then [] else Trimmed(Parts(s, ','))
  }

  predicate Separator(c: char) {
    || c == ' ' || c == '\t' || c == '\n' || c == ',' || c == ':' || c == ';' || c == '-' || c == '>' || c == '&'
    || c == '(' || c == ')' || c == '{' || c == '}' || c == '[' || c == ']'
  }

  /** An identifier has at least one character, and no separators. */
  predicate IsName(s: string) {
    s != "" && forall i :: 0 <= i < |s| ==> !Separator(s[i])
  }

  function Word(s: string): (w: string)
    ensures |w| <= |s|
  {
    if s == "" || Separator(s[0]) then "" else [s[0]] + Word(s[1..])
  }

  // ----- rows -----

  /** An entry of a table of label offsets: none, or from one label to another. */
  datatype Entry = Start | From(to: string, base: string) | Unread

  datatype Item =
    | LabelDef(name: string)                                  // name:
    | Call(on: string, member: string, args: seq<string>) // on->member(args);
    | Binding(name: string, init: string)                     // auto name = init;
    | Guard(name: string, value: string)                      // if (auto name = value) {
    | Assertion(text: string)                                 // assert(text);
    | Offsets(name: string, entries: seq<Entry>)              // static ssize_t name[] = {entries};
    | Goto(base: string, table: string, index: string)        // goto *(void*)((char*)&&base + table[index]);
    | Closing                                                 // }

  function EntryOf(e: string): Entry {
    if e == "0" then Start
    else
      var behind := Past(Past(e, '&'), '&');
      var to, base := Upto(behind, ' '), Past(Past(behind, '&'), '&');
      if e == "(char*)&&" + to + " - (char*)&&" + base then From(to, base) else Unread
  }

  function EntriesIn(es: seq<string>): (r: seq<Entry>)
    ensures |r| == |es| && forall i :: 0 <= i < |es| ==> r[i] == EntryOf(es[i])
  {
    seq(|es|, i requires 0 <= i < |es| => EntryOf(es[i]))
  }

  function BindingIn(s: string): seq<Item> {
    var behind := Past(s, ' ');
    var name, init := Upto(behind, ' '), Upto(Past(Past(behind, ' '), ' '), ';');
    if s == "auto " + name + " = " + init + ";" then [Binding(name, init)] else []
  }

  function GuardIn(s: string): seq<Item> {
    var behind := Past(Past(s, ' '), ' ');
    var name, value := Upto(behind, ' '), Upto(Past(behind, '='), '{');
    if |value| >= 3 && s == "if (auto " + name + " =" + value + "{"
       && value[0] == ' ' && value[|value| - 2] == ')' && value[|value| - 1] == ' '
    then [Guard(name, value[1..|value| - 2])] else []
  }

  function AssertionIn(s: string): seq<Item> {
    var text := Upto(Past(s, '('), ')');
    if s == "assert(" + text + ");" then [Assertion(text)] else []
  }

  function OffsetsIn(s: string): seq<Item> {
    var name, list := Upto(Past(Past(s, ' '), ' '), '['), Upto(Past(s, '{'), '}');
    if s == "static ssize_t " + name + "[] = {" + list + "};" then [Offsets(name, EntriesIn(Args(list)))] else []
  }

  function GotoIn(s: string): seq<Item> {
    var behind := Past(Past(s, '&'), '&');
    var base, table := Upto(behind, ' '), Upto(Past(Past(behind, ' '), ' '), '[');
    var index := Upto(Past(behind, '['), ']');
    if s == "goto *(void*)((char*)&&" + base + " + " + table + "[" + index + "]);" then [Goto(base, table, index)]
    else []
  }

  function NamedIn(s: string): seq<Item> {
    var name := Word(s);
    var rest := s[|name|..];
    var member, args := Upto(Past(rest, '>'), '('), Upto(Past(rest, '('), ')');
    if rest == ":" then [LabelDef(name)]
    else if rest == "->" + member + "(" + args + ");" then [Call(name, member, Args(args))]
    else []
  }

  /** What a row says, read by its first word. */
  function ItemOf(row: string): seq<Item> {
    var s := SkipBlanks(row);
    if s == "" || s[0] == '#' || "//" <= s then []
    else if s == "}" then [Closing]
    else
      var w := Word(s);
      if w == "auto" then BindingIn(s)
      else if w == "if" then GuardIn(s)
      else if w == "assert" then AssertionIn(s)
      else if w == "static" then OffsetsIn(s)
      else if w == "goto" then GotoIn(s)
      else NamedIn(s)
  }

  function ItemsIn(rows: seq<string>): seq<Item> {
    if rows == [] then [] else ItemOf(rows[0]) + ItemsIn(rows[1..])
  }

  function Items(text: string): seq<Item> {
    ItemsIn(Parts(text, '\n'))
  }

  // ----- tokens -----

  /** The number of a label. */
  function LabelNumber(name: string): Option<nat> {
    if |name| > 8 && name[..8] == "_valet_s" && forall i :: 8 <= i < |name| ==> IsDigit(name[i])
    then Some(NumberFrom(name[8..], 0)) else None
  }

  /** The label an entry leads to, counted from `base`. */
  function Destination(e: Entry, base: string): Option<nat> {
    match e
    case Start => LabelNumber(base)
    case From(to, base') => if base' == base then LabelNumber(to) else None
    case Unread => None
  }

  function Destinations(es: seq<Entry>, base: string): Option<seq<nat>> {
    if es == [] then Some([])
    else
      var t, ts := Destination(es[|es| - 1], base), Destinations(es[..|es| - 1], base);
      if t.Some? && ts.Some? then Some(ts.value + [t.value]) else None
  }

  /** From a promise's stage through a table of offsets to a label. */
  function Dispatches(d: seq<Item>): Option<seq<nat>> {
    if && |d| == 6 && d[0].Binding? && d[1].Guard? && d[2].Assertion? && d[3].Offsets? && d[4].Goto? && d[5].Closing?
       && d[0].name == "_valet_p" && d[1].value == d[0].name + "->stage()"
       && d[4].table == d[3].name && d[4].index == d[1].name
    then Destinations(d[3].entries, d[4].base)
    else None
  }

  function ItemToks(i: Item): seq<Tok> {
    match i
    case LabelDef(name) =>
      (match LabelNumber(name)
       case Some(n) => [LabelMark(n)]
       case None => [])
    case Call(on, member, args) =>
      if on != "_valet_p" then []
      else if member == "load" then [LoadCall(args), Semi]
      else if member == "save" && |args| > 0 then [SaveCall(NumberFrom(args[0], 0), args[1..]), Semi]
      else []
    case _ => []
  }

  function TokensOf(items: seq<Item>): seq<Tok> {
    if items == [] then []
    else if |items| >= 6 && Dispatches(items[..6]).Some? then
      [JumpTable(Dispatches(items[..6]).value)] + TokensOf(items[6..])
    else ItemToks(items[0]) + TokensOf(items[1..])
  }

  /** The tokens that an inserted text stands for. */
  function Tokens(text: string): seq<Tok> {
    TokensOf(Items(text))
  }

  // ----- facts about taking apart -----

  lemma {:induction false} Around(a: string, c: char, b: string)
    requires c !in a
    ensures Upto(a + [c] + b, c) == a && Past(a + [c] + b, c) == b && c in a + [c] + b
    decreases |a|
  {
    var s := a + [c] + b;
    assert s[|a|] == c;
    if a == "" {
      assert s[1..] == b;
    } else {
      Around(a[1..], c, b);
      assert s[0] == a[0] && s[1..] == a[1..] + [c] + b;
    }
  }

  lemma PartsOne(a: string, c: char)
    requires c !in a
    ensures Parts(a, c) == [a]
  {
  }

  lemma PartsFirst(a: string, c: char, b: string)
    requires c !in a
    ensures Parts(a + [c] + b, c) == [a] + Parts(b, c)
  {
    Around(a, c, b);
    hide Upto, Past;
  }

  lemma {:induction false} Divided(s: string, c: char)
    requires c in s
    ensures s == Upto(s, c) + [c] + Past(s, c) && c !in Upto(s, c)
  {
    if s[0] != c {
      assert s[1..] != "" && c in s[1..];
      Divided(s[1..], c);
      assert s == [s[0]] + s[1..];
    }
  }

  lemma {:induction false} PartsLast(a: string, c: char, b: string)
    requires c !in b
    ensures Parts(a + [c] + b, c) == Parts(a, c) + [b]
    decreases |a|
  {
    hide Upto, Past;
    if c in a {
      var x, y := Upto(a, c), Past(a, c);
      Divided(a, c);
      PartsLast(y, c, b);
      assert a + [c] + b == x + [c] + (y + [c] + b);
      PartsFirst(x, c, y + [c] + b);
      assert [x] + (Parts(y, c) + [b]) == [x] + Parts(y, c) + [b];
    } else {
      PartsFirst(a, c, b);
      PartsOne(b, c);
      PartsOne(a, c);
    }
  }

  lemma TrimmedMore(ps: seq<string>, p: string)
    ensures Trimmed(ps + [p]) == Trimmed(ps) + [SkipBlanks(p)]
  {
    hide SkipBlanks;
  }

  lemma {:induction false} WordIs(a: string, b: string)
    requires IsName(a) && (b == "" || Separator(b[0]))
    ensures Word(a + b) == a && (a + b)[|a|..] == b
    decreases |a|
  {
    assert (a + b)[0] == a[0] && (a + b)[1..] == a[1..] + b;
    if |a| == 1 {
      assert a[1..] == "" && "" + b == b && [a[0]] == a;
    } else {
      assert IsName(a[1..]);
      WordIs(a[1..], b);
      assert [a[0]] + a[1..] == a;
    }
    hide Separator;
  }

  lemma ItemsOne(a: string)
    requires '\n' !in a
    ensures Items(a) == ItemOf(a)
  {
    hide ItemOf;
    PartsOne(a, '\n');
    assert [a][1..] == [] && ItemsIn([]) == [];
  }

  lemma ItemsFirst(a: string, b: string)
    requires '\n' !in a
    ensures Items(a + "\n" + b) == ItemOf(a) + Items(b)
  {
    hide ItemOf;
    assert a + "\n" + b == a + ['\n'] + b;
    PartsFirst(a, '\n', b);
    assert ([a] + Parts(b, '\n'))[1..] == Parts(b, '\n');
    hide Parts;
  }

  // ----- rows of each form are read -----

  lemma NoBlank(s: string)
    requires s != "" && s[0] != ' ' && s[0] != '\t'
    ensures SkipBlanks(s) == s && SkipBlanks(" " + s) == s && SkipBlanks("    " + s) == s
  {
    var a := " " + s;
    var b := " " + a;
    var c := " " + b;
    var d := "    " + s;
    assert a[1..] == s && b[1..] == a && c[1..] == b && d[1..] == c;
    assert SkipBlanks(a) == s && SkipBlanks(b) == s && SkipBlanks(c) == s;
  }

  lemma WordHead(s: string)
    requires Word(s) != ""
    ensures s != "" && s[0] == Word(s)[0] && !Separator(s[0])
  {
    hide Separator;
  }

  /** A row of a form is read in that form. */
  lemma FormOf(s: string)
    requires Word(s) != "" && Word(s)[0] != '#' && Word(s)[0] != '/'
    ensures ItemOf(s) == ItemOf("    " + s)
    ensures Word(s) == "auto" ==> ItemOf(s) == BindingIn(s)
    ensures Word(s) == "if" ==> ItemOf(s) == GuardIn(s)
    ensures Word(s) == "assert" ==> ItemOf(s) == AssertionIn(s)
    ensures Word(s) == "static" ==> ItemOf(s) == OffsetsIn(s)
    ensures Word(s) == "goto" ==> ItemOf(s) == GotoIn(s)
    ensures Word(s)[0] == '_' ==> ItemOf(s) == NamedIn(s)
  {
    WordHead(s);
    NoBlank(s);
    hide Word, SkipBlanks, BindingIn, GuardIn, AssertionIn, OffsetsIn, GotoIn, NamedIn;
  }

  /** auto name = init; */
  lemma BindingForm(name: string, init: string)
    requires ' ' !in name && ';' !in init
    ensures BindingIn("auto " + name + " = " + init + ";") == [Binding(name, init)]
  {
    var s := "auto " + name + " = " + init + ";";
    var behind := name + [' '] + ("=" + [' '] + (init + [';'] + ""));
    assert s == "auto" + [' '] + behind;
    Around("auto", ' ', behind);
    Around(name, ' ', "=" + [' '] + (init + [';'] + ""));
    Around("=", ' ', init + [';'] + "");
    Around(init, ';', "");
    hide Upto, Past;
  }

  /** if (auto name = value) { */
  lemma GuardForm(name: string, value: string)
    requires ' ' !in name && '=' !in name && '{' !in value
    ensures GuardIn("if (auto " + name + " = " + value + ") {") == [Guard(name, value)]
  {
    hide Upto, Past;
    var v := " " + value + ") ";
    var behind := name + [' '] + ("=" + v + "{");
    GuardGlue(name, value, v, behind);
    Around("if", ' ', "(auto" + [' '] + behind);
    Around("(auto", ' ', behind);
    Around(name, ' ', "=" + v + "{");
    Around(name + " ", '=', v + "{");
    Around(v, '{', "");
  }

  lemma GuardGlue(name: string, value: string, v: string, behind: string)
    requires v == " " + value + ") " && behind == name + [' '] + ("=" + v + "{")
    ensures
      var s := "if (auto " + name + " = " + value + ") {";
      && s == "if" + [' '] + ("(auto" + [' '] + behind) && s == "if (auto " + name + " =" + v + "{"
    ensures behind == (name + " ") + ['='] + (v + "{") && v + "{" == v + ['{'] + ""
    ensures v[1..|v| - 2] == value && v[0] == ' ' && v[|v| - 2] == ')' && v[|v| - 1] == ' '
  {
  }

  /** assert(text); */
  lemma AssertionForm(text: string)
    requires ')' !in text
    ensures AssertionIn("assert(" + text + ");") == [Assertion(text)]
  {
    assert "assert(" + text + ");" == "assert" + ['('] + (text + [')'] + ";");
    Around("assert", '(', text + [')'] + ";");
    Around(text, ')', ";");
    hide Upto, Past;
  }

  /** static ssize_t name[] = {list}; */
  lemma OffsetsForm(name: string, list: string)
    requires '[' !in name && '{' !in name && '}' !in list
    ensures OffsetsIn("static ssize_t " + name + "[] = {" + list + "};") == [Offsets(name, EntriesIn(Args(list)))]
  {
    hide Upto, Past, Args, EntriesIn;
    var behind := name + ['['] + ("] = {" + list + "};");
    var before := "static ssize_t " + name + "[] = ";
    OffsetsGlue(name, list, before, behind);
    Around("static", ' ', "ssize_t" + [' '] + behind);
    Around("ssize_t", ' ', behind);
    Around(name, '[', "] = {" + list + "};");
    Around(before, '{', list + ['}'] + ";");
    Around(list, '}', ";");
  }

  lemma OffsetsGlue(name: string, list: string, before: string, behind: string)
    requires behind == name + ['['] + ("] = {" + list + "};") && before == "static ssize_t " + name + "[] = "
    requires '{' !in name
    ensures
      var s := "static ssize_t " + name + "[] = {" + list + "};";
      && s == "static" + [' '] + ("ssize_t" + [' '] + behind) && s == before + ['{'] + (list + ['}'] + ";")
    ensures '{' !in before
  {
  }

  function GotoHead(): string { "goto *(void*)((char*)" }

  lemma GotoHeadIs()
    ensures '&' !in GotoHead() && GotoHead() + "&&" == "goto *(void*)((char*)&&"
  {
  }

  /** goto *(void*)((char*)&&base + table[index]); */
  lemma GotoForm(base: string, table: string, index: string)
    requires ' ' !in base && '[' !in base && '[' !in table && ']' !in index
    ensures GotoIn("goto *(void*)((char*)&&" + base + " + " + table + "[" + index + "]);") == [Goto(base, table, index)]
  {
    hide Upto, Past, GotoHead;
    var last := index + [']'] + ");";
    var behind := base + [' '] + ("+" + [' '] + (table + ['['] + last));
    GotoHeadIs();
    GotoGlue(GotoHead(), base, table, index, last, behind);
    Around(GotoHead(), '&', "" + ['&'] + behind);
    Around("", '&', behind);
    Around(base, ' ', "+" + [' '] + (table + ['['] + last));
    Around("+", ' ', table + ['['] + last);
    Around(table, '[', last);
    Around(base + " + " + table, '[', last);
    Around(index, ']', ");");
  }

  lemma GotoGlue(head: string, base: string, table: string, index: string, last: string, behind: string)
    requires last == index + [']'] + ");" && behind == base + [' '] + ("+" + [' '] + (table + ['['] + last))
    requires '[' !in base && '[' !in table
    ensures head + "&&" + base + " + " + table + "[" + index + "]);" == head + ['&'] + ("" + ['&'] + behind)
    ensures behind == (base + " + " + table) + ['['] + last && '[' !in base + " + " + table
  {
  }

  /** (char*)&&to - (char*)&&base */
  lemma EntryForm(to: string, base: string)
    requires ' ' !in to && '&' !in to
    ensures EntryOf("(char*)&&" + to + " - (char*)&&" + base) == From(to, base)
  {
    hide Upto, Past;
    var end := "" + ['&'] + base;
    var behind := to + [' '] + ("- (char*)" + ['&'] + end);
    EntryGlue(to, base, end, behind);
    Around("(char*)", '&', "" + ['&'] + behind);
    Around("", '&', behind);
    Around(to, ' ', "- (char*)" + ['&'] + end);
    Around(to + " - (char*)", '&', end);
    Around("", '&', base);
  }

  lemma EntryGlue(to: string, base: string, end: string, behind: string)
    requires end == "" + ['&'] + base && behind == to + [' '] + ("- (char*)" + ['&'] + end)
    requires '&' !in to
    ensures
      var s := "(char*)&&" + to + " - (char*)&&" + base;
      s == "(char*)" + ['&'] + ("" + ['&'] + behind) && s[0] == '('
    ensures behind == (to + " - (char*)") + ['&'] + end && '&' !in to + " - (char*)"
  {
  }

  /** name: */
  lemma LabelForm(name: string)
    requires IsName(name)
    ensures NamedIn(name + ":") == [LabelDef(name)]
  {
    WordIs(name, ":");
    hide Word, Upto, Past, Args;
  }

  /** on->member(args); */
  lemma CallForm(on: string, member: string, args: string)
    requires IsName(on) && '(' !in member && ')' !in args
    ensures NamedIn(on + ("->" + member + "(" + args + ");")) == [Call(on, member, Args(args))]
  {
    hide Word, Upto, Past, Args, IsName;
    var rest := "->" + member + "(" + args + ");";
    var behind := member + ['('] + (args + [')'] + ";");
    CallGlue(member, args, rest, behind);
    WordIs(on, rest);
    Around("-", '>', behind);
    Around(member, '(', args + [')'] + ";");
    Around("->" + member, '(', args + [')'] + ";");
    Around(args, ')', ";");
  }

  lemma CallGlue(member: string, args: string, rest: string, behind: string)
    requires rest == "->" + member + "(" + args + ");" && behind == member + ['('] + (args + [')'] + ";")
    requires '(' !in member
    ensures rest == "-" + ['>'] + behind && rest == ("->" + member) + ['('] + (args + [')'] + ";")
    ensures rest[0] == '-' && Separator(rest[0]) && rest != ":" && '(' !in "->" + member
  {
  }
}
