/** Line control (ISO/IEC 14882:2020, section 15.7): a line "#line N" gives the next line the
    number N.  The inserted pieces end in such a line, so that every original character keeps the
    line number it had. */
module Lines {
  import opened Wire
  import opened Buffer

  // ----- numbers -----

  predicate IsDigit(c: char) { '0' <= c <= '9' }

  function Digit(d: nat): char
    requires d < 10
  {
    "0123456789"[d]
  }

  function DigitValue(c: char): (d: nat)
    requires IsDigit(c)
    ensures d < 10
  {
    c as int - '0' as int
  }

  function Decimal(n: nat): (s: string)
    ensures s != [] && IsDigit(s[0]) && '\n' !in s
  {
    if n < 10 then [Digit(n)] else Decimal(n / 10) + [Digit(n % 10)]
  }

  /** Value of the leading digits, continuing from `acc`. */
  function NumberFrom(s: string, acc: nat): nat {
    if s == [] || !IsDigit(s[0]) then acc else NumberFrom(s[1..], 10 * acc + DigitValue(s[0]))
  }

  lemma {:induction false} DecimalIsRead(n: nat, rest: string)
    ensures NumberFrom(Decimal(n) + rest, 0) == NumberFrom(rest, n)
    decreases n
  {
    var last := [Digit(n % 10)];
    DigitIsRead(n % 10, rest, n / 10);
    if n < 10 {
      assert Decimal(n) == last;
    } else {
      assert Decimal(n) == Decimal(n / 10) + last;
      DecimalIsRead(n / 10, last + rest);
      hide Decimal, NumberFrom, Digit;
      Assoc(Decimal(n / 10), last, rest);
    }
  }

  lemma DigitIsRead(d: nat, rest: string, acc: nat)
    requires d < 10
    ensures NumberFrom([Digit(d)] + rest, acc) == NumberFrom(rest, 10 * acc + d)
  {
    assert ([Digit(d)] + rest)[1..] == rest;
    assert IsDigit(Digit(d)) && DigitValue(Digit(d)) == d;
  }

  // ----- presumed lines -----

  function SkipBlanks(s: string): (r: string)
    ensures r == [] || (r[0] != ' ' && r[0] != '\t')
    ensures s == [] || (s[0] != ' ' && s[0] != '\t') ==> r == s
  {
    if s != [] && (s[0] == ' ' || s[0] == '\t') then SkipBlanks(s[1..]) else s
  }

  /** The number given by a line, if it is a line directive. */
  function Directive(line: string): Option<nat> {
    var a := SkipBlanks(line);
    if a == [] || a[0] != '#' then None
    else
      var b := SkipBlanks(a[1..]);
      if !("line" <= b) || |b| == 4 || (b[4] != ' ' && b[4] != '\t') then None
      else
        var c := SkipBlanks(b[4..]);
        if c == [] || !IsDigit(c[0]) then None else Some(NumberFrom(c, 0))
  }

  /** Reading a text: the number of the current line, and what was read of it. */
  datatype Scan = Scan(line: nat, buf: string)

  const TOP := Scan(1, "")

  function Advance(st: Scan, c: char): Scan {
    if c == '\n' then
      match Directive(st.buf)
      case Some(n) => Scan(n, "")
      case None => Scan(st.line + 1, "")
    else Scan(st.line, st.buf + [c])
  }

  function Read(st: Scan, text: string): Scan {
    if text == [] then st else Advance(Read(st, text[..|text| - 1]), text[|text| - 1])
  }

  lemma {:induction false} ReadAppend(st: Scan, a: string, b: string)
    ensures Read(st, a + b) == Read(Read(st, a), b)
    decreases |b|
  {
    if b == [] {
      assert a + b == a;
    } else {
      assert (a + b)[..|a + b| - 1] == a + b[..|b| - 1];
      ReadAppend(st, a, b[..|b| - 1]);
    }
  }

  lemma {:induction false} ReadWithin(st: Scan, s: string)
    requires '\n' !in s
    ensures Read(st, s) == Scan(st.line, st.buf + s)
  {
    if s != [] {
      ReadWithin(st, s[..|s| - 1]);
      assert s == s[..|s| - 1] + [s[|s| - 1]];
    }
  }

  /** The line a character at offset `o` is attributed to. */
  function PresumedLine(text: string, o: nat): nat
    requires o <= |text|
  {
    Read(TOP, text[..o]).line
  }

  /** The line it is on. */
  function PhysicalLine(text: string, o: nat): nat
    requires o <= |text|
  {
    if o == 0 then 1 else PhysicalLine(text, o - 1) + if text[o - 1] == '\n' then 1 else 0
  }

  // ----- inserted pieces -----

  /** An insertion that ends in a line directive. */
  datatype Stamp = Stamp(at: nat, pre: string, line: nat, post: string)

  predicate StampOk(s: Stamp) {
    EndOk(s.post)
  }

  /** A note behind a line directive stays on its line. */
  predicate EndOk(post: string) {
    '\n' !in post && (post == "" || post[0] == ' ')
  }

  function StampText(s: Stamp): string {
    s.pre + "\n" + ("#line " + (Decimal(s.line) + s.post)) + "\n"
  }

  lemma DirectiveRead(n: nat, post: string)
    requires post == "" || post[0] == ' '
    ensures Directive("#line " + (Decimal(n) + post)) == Some(n)
  {
    var d := Decimal(n) + post;
    var line := "#line " + d;
    assert line[1..] == "line " + d;
    var b := "line " + d;
    assert SkipBlanks(b) == b;
    assert b[4..] == " " + d;
    assert (" " + d)[1..] == d;
    assert SkipBlanks(" " + d) == SkipBlanks(d) == d;
    DecimalIsRead(n, post);
  }

  /** Whatever was read before it, after a stamped piece a new line begins, with the stamped number. */
  lemma StampSets(st: Scan, s: Stamp)
    requires StampOk(s)
    ensures Read(st, StampText(s)) == Scan(s.line, "")
  {
    var d := "#line " + (Decimal(s.line) + s.post);
    var a := s.pre + "\n";
    ReadAppend(st, s.pre, "\n");
    assert Read(Read(st, s.pre), "\n") == Advance(Read(st, s.pre), '\n');
    var st1 := Read(st, a);
    assert st1.buf == "";
    ReadAppend(st, a, d);
    ReadWithin(st1, d);
    assert "" + d == d;
    DirectiveRead(s.line, s.post);
    ReadAppend(st, a + d, "\n");
    assert Read(Read(st, a + d), "\n") == Advance(Read(st, a + d), '\n');
  }

  // ----- attribution in the rewritten text -----

  function EditsOf(ss: seq<Stamp>): seq<Edit<char>> {
    if ss == [] then [] else EditsOf(ss[..|ss| - 1]) + [Edit(ss[|ss| - 1].at, StampText(ss[|ss| - 1]))]
  }

  /** The rewritten text before original character `o`. */
  function Before(src: string, es: seq<Edit<char>>, o: nat): string
    requires o <= |src|
  {
    if o == 0 then Pieces(es, 0) else Before(src, es, o - 1) + [src[o - 1]] + Pieces(es, o)
  }

  /** The text with the insertions. */
  function Patched(src: string, ss: seq<Stamp>): string {
    Render(src, EditsOf(ss), 0)
  }

  /** Where original character `o` stands in it. */
  function NewOffset(src: string, ss: seq<Stamp>, o: nat): nat
    requires o <= |src|
  {
    |Before(src, EditsOf(ss), o)|
  }

  /** The rewritten text is what stands before a character, the character, and the rest. */
  lemma {:induction false} BeforeAndAfter(src: string, es: seq<Edit<char>>, o: nat)
    requires o < |src|
    ensures Render(src, es, 0) == Before(src, es, o) + [src[o]] + Render(src, es, o + 1)
  {
    if o == 0 {
      assert Render(src, es, 0) == Pieces(es, 0) + ([src[0]] + Render(src, es, 1));
    } else {
      BeforeAndAfter(src, es, o - 1);
      var b, p, r := Before(src, es, o - 1), Pieces(es, o), Render(src, es, o + 1);
      assert Render(src, es, o) == p + ([src[o]] + r);
      assert b + [src[o - 1]] + (p + ([src[o]] + r)) == b + [src[o - 1]] + p + [src[o]] + r;
    }
  }

  /** Original characters are found at their new offsets. */
  lemma AtNewOffset(src: string, ss: seq<Stamp>, o: nat)
    requires o < |src|
    ensures
      var text, n := Patched(src, ss), NewOffset(src, ss, o);
      n < |text| && text[n] == src[o] && text[..n] == Before(src, EditsOf(ss), o)
  {
    BeforeAndAfter(src, EditsOf(ss), o);
    hide Render, Before, EditsOf;
  }

  /** The last stamp at offset `o`, if any. */
  function LastAt(ss: seq<Stamp>, o: nat): Option<Stamp> {
    if ss == [] then None
    else if ss[|ss| - 1].at == o then Some(ss[|ss| - 1])
    else LastAt(ss[..|ss| - 1], o)
  }

  predicate AllOk(ss: seq<Stamp>) {
    forall i :: 0 <= i < |ss| ==> StampOk(ss[i])
  }

  /** Reading all pieces at an offset leaves the line number of the last one. */
  lemma {:induction false} PiecesSet(st: Scan, ss: seq<Stamp>, o: nat)
    requires AllOk(ss)
    ensures Read(st, Pieces(EditsOf(ss), o)) ==
      match LastAt(ss, o) case Some(s) => Scan(s.line, "") case None => st
  {
    if ss != [] {
      var init, last := ss[..|ss| - 1], ss[|ss| - 1];
      PiecesSet(st, init, o);
      var es := EditsOf(init);
      PiecesAppend(es, Edit(last.at, StampText(last)), o);
      ReadAppend(st, Pieces(es, o), if last.at == o then StampText(last) else []);
      if last.at == o {
        StampSets(Read(st, Pieces(es, o)), last);
      } else {
        assert Pieces(es, o) + [] == Pieces(es, o);
      }
    }
  }

  /** The reader right before original character `o` of the rewritten text. */
  function Reached(src: string, ss: seq<Stamp>, o: nat): Scan
    requires o <= |src|
  {
    Read(TOP, Before(src, EditsOf(ss), o))
  }

  /** What was read of the line at offset `o` of the original. */
  function LineSoFar(src: string, o: nat): string
    requires o <= |src|
  {
    Read(TOP, src[..o]).buf
  }

  /** Insertion `k` is on the line of offset `o`, or at its beginning, and not behind `o`. */
  ghost predicate OnLine(src: string, ss: seq<Stamp>, k: nat, o: nat)
    requires o <= |src| && k < |ss|
  {
    o - |LineSoFar(src, o)| <= ss[k].at <= o
  }

  /** No insertion is between insertion `k` and offset `o`. */
  ghost predicate LastTo(ss: seq<Stamp>, k: nat, o: nat)
    requires k < |ss|
  {
    forall i :: 0 <= i < |ss| ==> !(ss[k].at < ss[i].at <= o)
  }

  /** No line holding an insertion is a directive, and neither is the rest of a line behind its last
      insertion.  (A directive line has no other tokens, so no insertion falls on one.) */
  ghost predicate Clear(src: string, ss: seq<Stamp>) {
    forall q, k :: 0 <= q < |src| && src[q] == '\n' && 0 <= k < |ss| ==> ClearLine(src, ss, k, q)
  }

  ghost predicate ClearLine(src: string, ss: seq<Stamp>, k: nat, q: nat)
    requires q < |src| && k < |ss|
  {
    OnLine(src, ss, k, q) ==>
      Directive(LineSoFar(src, q)).None? && (LastTo(ss, k, q) ==> Directive(src[ss[k].at..q]).None?)
  }

  /** Some insertion on the line is the last. */
  lemma {:induction false} SomeLast(src: string, ss: seq<Stamp>, k: nat, o: nat) returns (n: nat)
    requires o <= |src| && k < |ss| && OnLine(src, ss, k, o)
    ensures n < |ss| && OnLine(src, ss, n, o) && LastTo(ss, n, o)
    decreases o - ss[k].at
  {
    n := k;
    if !LastTo(ss, k, o) {
      var i :| 0 <= i < |ss| && ss[k].at < ss[i].at <= o;
      n := SomeLast(src, ss, i, o);
    }
  }

  lemma ReadNext(src: string, o: nat)
    requires o < |src|
    ensures Read(TOP, src[..o + 1]) == Advance(Read(TOP, src[..o]), src[o])
  {
    assert src[..o + 1][..o] == src[..o];
  }

  lemma ReachedNext(src: string, ss: seq<Stamp>, o: nat)
    requires o < |src| && AllOk(ss)
    ensures Reached(src, ss, o + 1) ==
      match LastAt(ss, o + 1) case Some(s) => Scan(s.line, "") case None => Advance(Reached(src, ss, o), src[o])
  {
    var es := EditsOf(ss);
    var a, p := Before(src, es, o), Pieces(es, o + 1);
    BeforeNext(src, es, o);
    hide Read, Before, Pieces, EditsOf, LastAt, Advance, AllOk;
    ReadOne(TOP, a, src[o]);
    ReadAppend(TOP, a + [src[o]], p);
    PiecesSet(Read(TOP, a + [src[o]]), ss, o + 1);
  }

  lemma BeforeNext(src: string, es: seq<Edit<char>>, o: nat)
    requires o < |src|
    ensures Before(src, es, o + 1) == Before(src, es, o) + [src[o]] + Pieces(es, o + 1)
  {
  }

  lemma ReadOne(st: Scan, a: string, c: char)
    ensures Read(st, a + [c]) == Advance(Read(st, a), c)
  {
    assert (a + [c])[..|a|] == a;
  }

  /** The reader is on the same line as in the original, and has read of it what stands behind the last
      insertion on it. */
  ghost predicate InStep(src: string, ss: seq<Stamp>, o: nat)
    requires o <= |src|
  {
    var was, now := Read(TOP, src[..o]), Reached(src, ss, o);
    && now.line == was.line
    && ((forall k :: 0 <= k < |ss| ==> !OnLine(src, ss, k, o)) ==> now.buf == was.buf)
    && (forall k :: 0 <= k < |ss| && OnLine(src, ss, k, o) && LastTo(ss, k, o) ==> now.buf == src[ss[k].at..o])
  }

  /** Every stamp bears the number its line has in the original. */
  ghost predicate Faithful(src: string, ss: seq<Stamp>) {
    forall k :: 0 <= k < |ss| && ss[k].at <= |src| ==> ss[k].line == PresumedLine(src, ss[k].at)
  }

  lemma {:induction false} LastIsStamp(ss: seq<Stamp>, o: nat)
    ensures LastAt(ss, o).None? ==> forall k :: 0 <= k < |ss| ==> ss[k].at != o
    ensures LastAt(ss, o).Some? ==> exists k :: 0 <= k < |ss| && ss[k] == LastAt(ss, o).value && ss[k].at == o
  {
    if ss != [] && ss[|ss| - 1].at != o {
      LastIsStamp(ss[..|ss| - 1], o);
      if LastAt(ss, o).Some? {
        var k :| 0 <= k < |ss| - 1 && ss[..|ss| - 1][k] == LastAt(ss, o).value;
        assert ss[k].at == o;
      }
    }
  }

  lemma {:induction false} StaysInStep(src: string, ss: seq<Stamp>, o: nat)
    requires AllOk(ss) && Clear(src, ss) && Faithful(src, ss) && o <= |src|
    ensures InStep(src, ss, o)
  {
    if o > 0 { StaysInStep(src, ss, o - 1); }
    if LastAt(ss, o).Some? {
      StepStamped(src, ss, o);
    } else if o == 0 {
      PiecesSet(TOP, ss, 0);
      LastIsStamp(ss, 0);
      assert src[..0] == [];
    } else {
      StepPlain(src, ss, o - 1);
    }
  }

  lemma LastIsThere(ss: seq<Stamp>, k: nat, n: nat, o: nat)
    requires k < |ss| && n < |ss| && ss[k].at <= o && LastTo(ss, k, o) && ss[n].at == o
    ensures ss[k].at == o
  {
  }

  /** Right behind an insertion. */
  lemma StepStamped(src: string, ss: seq<Stamp>, o: nat)
    requires AllOk(ss) && Faithful(src, ss) && o <= |src| && LastAt(ss, o).Some?
    ensures InStep(src, ss, o)
  {
    hide Reached, LastAt, Read, AllOk;
    LastIsStamp(ss, o);
    if o == 0 { ReachedFirst(src, ss); } else { ReachedNext(src, ss, o - 1); }
    var n :| 0 <= n < |ss| && ss[n] == LastAt(ss, o).value && ss[n].at == o;
    assert ss[n].line == PresumedLine(src, o);
    assert OnLine(src, ss, n, o);
    forall k | 0 <= k < |ss| && OnLine(src, ss, k, o) && LastTo(ss, k, o) ensures ss[k].at == o {
      LastIsThere(ss, k, n, o);
    }
  }

  /** Reading one more original character with nothing inserted behind it. */
  lemma StepPlain(src: string, ss: seq<Stamp>, o: nat)
    requires o < |src| && AllOk(ss) && Clear(src, ss) && InStep(src, ss, o) && LastAt(ss, o + 1).None?
    ensures InStep(src, ss, o + 1)
  {
    ReadNext(src, o);
    ReachedNext(src, ss, o);
    LastIsStamp(ss, o + 1);
    if src[o] == '\n' { StepNewline(src, ss, o); } else { StepWithin(src, ss, o); }
  }

  /** To the next line: neither what the original reader has read nor what the new one has is a
      directive, if they differ. */
  lemma StepNewline(src: string, ss: seq<Stamp>, o: nat)
    requires o < |src| && src[o] == '\n' && Clear(src, ss) && InStep(src, ss, o)
    requires forall k :: 0 <= k < |ss| ==> ss[k].at != o + 1
    requires Read(TOP, src[..o + 1]) == Advance(Read(TOP, src[..o]), src[o])
    requires Reached(src, ss, o + 1) == Advance(Reached(src, ss, o), src[o])
    ensures InStep(src, ss, o + 1)
  {
    hide Reached, Read, LastTo, Directive;
    if k: nat :| k < |ss| && OnLine(src, ss, k, o) {
      var n := SomeLast(src, ss, k, o);
      assert ClearLine(src, ss, n, o);
    }
  }

  lemma StepWithin(src: string, ss: seq<Stamp>, o: nat)
    requires o < |src| && src[o] != '\n' && InStep(src, ss, o)
    requires forall k :: 0 <= k < |ss| ==> ss[k].at != o + 1
    requires Read(TOP, src[..o + 1]) == Advance(Read(TOP, src[..o]), src[o])
    requires Reached(src, ss, o + 1) == Advance(Reached(src, ss, o), src[o])
    ensures InStep(src, ss, o + 1)
  {
    hide Reached, Read;
    assert forall k :: 0 <= k < |ss| ==> (OnLine(src, ss, k, o + 1) <==> OnLine(src, ss, k, o));
    forall k | 0 <= k < |ss| && OnLine(src, ss, k, o + 1) && LastTo(ss, k, o + 1)
      ensures Reached(src, ss, o + 1).buf == src[ss[k].at..o + 1]
    {
      assert LastTo(ss, k, o);
      OneMore(src, ss[k].at, o);
    }
  }

  lemma OneMore(src: string, a: nat, o: nat)
    requires a <= o < |src|
    ensures src[a..o + 1] == src[a..o] + [src[o]]
  {
  }

  /** In the rewritten text, original character `o` is attributed to `line`. */
  ghost predicate NowOnLine(src: string, ss: seq<Stamp>, o: nat, line: nat)
    requires o < |src|
  {
    NewOffset(src, ss, o) <= |Patched(src, ss)| && PresumedLine(Patched(src, ss), NewOffset(src, ss, o)) == line
  }

  /** Every original character is attributed to the line it was attributed to before. */
  ghost predicate KeepsLines(src: string, ss: seq<Stamp>) {
    forall o :: 0 <= o < |src| ==> NowOnLine(src, ss, o, PresumedLine(src, o))
  }

  lemma ReachedIsPresumed(src: string, ss: seq<Stamp>, o: nat)
    requires o < |src|
    ensures forall line :: NowOnLine(src, ss, o, line) <==> Reached(src, ss, o).line == line
  {
    AtNewOffset(src, ss, o);
    hide Patched, NewOffset, Before, Read;
  }

  /** In the rewritten text every original character keeps its line number if and only if every
      insertion in front of a character bears the number that character had. */
  lemma LinesPreserved(src: string, ss: seq<Stamp>)
    requires AllOk(ss) && Clear(src, ss) && Uniform(ss)
    requires forall k :: 0 <= k < |ss| ==> ss[k].at < |src|
    ensures Faithful(src, ss) <==> KeepsLines(src, ss)
  {
    forall o | 0 <= o < |src|
      ensures NowOnLine(src, ss, o, PresumedLine(src, o)) <==> Reached(src, ss, o).line == PresumedLine(src, o)
    {
      ReachedIsPresumed(src, ss, o);
    }
    hide NowOnLine, Reached, PresumedLine;
    if Faithful(src, ss) {
      forall o | 0 <= o < |src| ensures Reached(src, ss, o).line == PresumedLine(src, o) {
        StaysInStep(src, ss, o);
      }
    } else {
      var k :| 0 <= k < |ss| && ss[k].at <= |src| && ss[k].line != PresumedLine(src, ss[k].at);
      StampDecides(src, ss, ss[k].at);
      LastIsStamp(ss, ss[k].at);
      assert Reached(src, ss, ss[k].at).line == ss[k].line;
    }
  }

  /** Insertions at one offset bear one number. */
  ghost predicate Uniform(ss: seq<Stamp>) {
    forall i, k :: 0 <= i < |ss| && 0 <= k < |ss| && ss[i].at == ss[k].at ==> ss[i].line == ss[k].line
  }

  lemma StampDecides(src: string, ss: seq<Stamp>, o: nat)
    requires o < |src| && AllOk(ss)
    ensures LastAt(ss, o).Some? ==> Reached(src, ss, o).line == LastAt(ss, o).value.line
  {
    hide *;
    if o == 0 { ReachedFirst(src, ss); } else { ReachedNext(src, ss, o - 1); }
  }

  lemma ReachedFirst(src: string, ss: seq<Stamp>)
    requires AllOk(ss)
    ensures Reached(src, ss, 0) == match LastAt(ss, 0) case Some(s) => Scan(s.line, "") case None => TOP
  {
    PiecesSet(TOP, ss, 0);
    hide Read, Pieces, EditsOf, AllOk, LastAt;
  }
}
