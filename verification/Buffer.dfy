/** The rewrite buffer: pieces of text inserted at offsets of the original text, a later piece
    going after the earlier ones at the same offset. */
module Buffer {

  datatype Edit<T> = Edit(at: nat, text: seq<T>)

  /** All pieces inserted at offset `o`, in order of insertion. */
  function Pieces<T>(es: seq<Edit<T>>, o: nat): seq<T> {
    if es == [] then []
    else
      var last := es[|es| - 1];
      Pieces(es[..|es| - 1], o) + if last.at == o then last.text else []
  }

  /** The original from offset `o` on with the pieces in place. */
  function Render<T>(src: seq<T>, es: seq<Edit<T>>, o: nat): seq<T>
    requires o <= |src|
    decreases |src| - o
  {
    if o == |src| then Pieces(es, o)
    else Pieces(es, o) + ([src[o]] + Render(src, es, o + 1))
  }

  /** Length of everything inserted at offsets from `lo` to `hi`. */
  function Inserted<T>(es: seq<Edit<T>>, lo: nat, hi: nat): nat {
    if es == [] then 0
    else
      var last := es[|es| - 1];
      Inserted(es[..|es| - 1], lo, hi) + if lo <= last.at <= hi then |last.text| else 0
  }

  lemma {:induction false} InsertedSplit<T>(es: seq<Edit<T>>, lo: nat, hi: nat)
    requires lo <= hi
    ensures Inserted(es, lo, hi) == |Pieces(es, lo)| + Inserted(es, lo + 1, hi)
  {
    if es != [] {
      InsertedSplit(es[..|es| - 1], lo, hi);
    }
  }

  lemma {:induction false} InsertedNone<T>(es: seq<Edit<T>>, lo: nat, hi: nat)
    requires hi < lo
    ensures Inserted(es, lo, hi) == 0
  {
    if es != [] {
      InsertedNone(es[..|es| - 1], lo, hi);
    }
  }

  lemma PiecesAppend<T>(es: seq<Edit<T>>, e: Edit<T>, o: nat)
    ensures Pieces(es + [e], o) == Pieces(es, o) + if e.at == o then e.text else []
  {
    assert (es + [e])[..|es|] == es;
  }

  lemma {:induction false} RenderBehind<T>(src: seq<T>, es: seq<Edit<T>>, e: Edit<T>, o: nat)
    requires e.at < o <= |src|
    ensures Render(src, es + [e], o) == Render(src, es, o)
    decreases |src| - o
  {
    PiecesAppend(es, e, o);
    if o < |src| {
      RenderBehind(src, es, e, o + 1);
    }
  }

  lemma Splice<T>(p: seq<T>, c: T, r: seq<T>, k: nat, t: seq<T>)
    requires k <= |r|
    ensures
      var whole, n := p + ([c] + r), |p| + 1 + k;
      p + ([c] + (r[..k] + t + r[k..])) == whole[..n] + t + whole[n..]
  {
    var whole, n := p + ([c] + r), |p| + 1 + k;
    assert whole[..n] == p + ([c] + r[..k]);
    assert whole[n..] == r[k..];
  }

  /** Inserting at the shifted offset is inserting at the original offset. */
  lemma {:induction false} InsertAt<T>(src: seq<T>, es: seq<Edit<T>>, e: Edit<T>, o: nat)
    requires o <= e.at <= |src|
    ensures
      var r, k := Render(src, es, o), e.at - o + Inserted(es, o, e.at);
      k <= |r| && Render(src, es + [e], o) == r[..k] + e.text + r[k..]
    decreases |src| - o
  {
    if o == e.at {
      InsertHere(src, es, e);
    } else {
      InsertAt(src, es, e, o + 1);
      InsertLater(src, es, e, o);
    }
  }

  lemma InsertHere<T>(src: seq<T>, es: seq<Edit<T>>, e: Edit<T>)
    requires e.at <= |src|
    ensures
      var r, k := Render(src, es, e.at), Inserted(es, e.at, e.at);
      k <= |r| && Render(src, es + [e], e.at) == r[..k] + e.text + r[k..]
  {
    var o, p := e.at, Pieces(es, e.at);
    PiecesAppend(es, e, o);
    InsertedSplit(es, o, o);
    InsertedNone(es, o + 1, o);
    if o < |src| {
      RenderBehind(src, es, e, o + 1);
      assert Render(src, es, o) == p + ([src[o]] + Render(src, es, o + 1));
      assert Render(src, es + [e], o) == (p + e.text) + ([src[o]] + Render(src, es, o + 1));
      hide Render, Pieces, Inserted;
      SpliceFirst(p, e.text, [src[o]] + Render(src, es, o + 1));
    } else {
      SpliceFirst(p, e.text, []);
    }
  }

  lemma SpliceFirst<T>(p: seq<T>, t: seq<T>, r: seq<T>)
    ensures (p + t) + r == (p + r)[..|p|] + t + (p + r)[|p|..]
    ensures p + [] == p
  {
  }

  lemma InsertLater<T>(src: seq<T>, es: seq<Edit<T>>, e: Edit<T>, o: nat)
    requires o < e.at <= |src|
    requires
      var r, k := Render(src, es, o + 1), e.at - (o + 1) + Inserted(es, o + 1, e.at);
      k <= |r| && Render(src, es + [e], o + 1) == r[..k] + e.text + r[k..]
    ensures
      var r, k := Render(src, es, o), e.at - o + Inserted(es, o, e.at);
      k <= |r| && Render(src, es + [e], o) == r[..k] + e.text + r[k..]
  {
    hide *;
    PiecesAppend(es, e, o);
    InsertedSplit(es, o, e.at);
    RenderStep(src, es, o);
    RenderStep(src, es + [e], o);
    SpliceLater(Pieces(es, o), src[o], Render(src, es, o + 1), e.at - (o + 1) + Inserted(es, o + 1, e.at), e.text);
  }

  lemma RenderStep<T>(src: seq<T>, es: seq<Edit<T>>, o: nat)
    requires o < |src|
    ensures Render(src, es, o) == Pieces(es, o) + ([src[o]] + Render(src, es, o + 1))
  {
  }

  lemma SpliceLater<T>(p: seq<T>, c: T, r: seq<T>, k: nat, t: seq<T>)
    requires k <= |r|
    ensures
      var whole, n := p + ([c] + r), |p| + 1 + k;
      n <= |whole| && (p + []) + ([c] + (r[..k] + t + r[k..])) == whole[..n] + t + whole[n..]
  {
    assert p + [] == p;
    Splice(p, c, r, k, t);
  }

  class RewriteBuffer<T> {
    var text: seq<T>
    var deltas: seq<(nat, nat)>
    ghost var src: seq<T>
    ghost var edits: seq<Edit<T>>

    ghost predicate Valid()
      reads this
    {
      && text == Render(src, edits, 0)
      && |deltas| == |edits|
      && forall i :: 0 <= i < |edits| ==> deltas[i] == (edits[i].at, |edits[i].text|)
    }

    constructor (original: seq<T>)
      ensures Valid() && src == original && edits == [] && text == original
    {
      text, deltas, src, edits := original, [], original, [];
      new;
      RenderNothing(src, 0);
    }

    /** Where an original offset is now, behind what was inserted there. */
    method Shifted(at: nat) returns (pos: nat)
      requires Valid()
      ensures pos == at + Inserted(edits, 0, at)
    {
      hide Render;
      var i := 0;
      pos := at;
      while i < |deltas|
        invariant 0 <= i <= |deltas|
        invariant pos == at + Inserted(edits[..i], 0, at)
      {
        assert edits[..i + 1][..i] == edits[..i];
        if deltas[i].0 <= at { pos := pos + deltas[i].1; }
        i := i + 1;
      }
      assert edits[..i] == edits;
    }

    /** The edited text is the original with all pieces inserted at their original offsets. */
    method Insert(at: nat, piece: seq<T>)
      requires Valid() && at <= |src|
      modifies this
      ensures Valid() && src == old(src) && edits == old(edits) + [Edit(at, piece)]
      ensures text == Render(src, edits, 0)
    {
      hide Render, Inserted;
      var pos := Shifted(at);
      InsertAt(src, edits, Edit(at, piece), 0);
      text := text[..pos] + piece + text[pos..];
      deltas := deltas + [(at, |piece|)];
      edits := edits + [Edit(at, piece)];
    }
  }

  lemma {:induction false} RenderNothing<T>(src: seq<T>, o: nat)
    requires o <= |src|
    ensures Render(src, [], o) == src[o..]
    decreases |src| - o
  {
    if o < |src| { RenderNothing(src, o + 1); }
  }

  // ----- the rewrite only inserts -----

  /** Which elements of the rendering are original. */
  function Originals<T>(src: seq<T>, es: seq<Edit<T>>, o: nat): seq<bool>
    requires o <= |src|
    decreases |src| - o
  {
    var new_ := seq(|Pieces(es, o)|, _ => false);
    if o == |src| then new_ else new_ + ([true] + Originals(src, es, o + 1))
  }

  function Filter<T>(text: seq<T>, keep: seq<bool>): seq<T>
    requires |text| == |keep|
  {
    if text == [] then [] else (if keep[0] then [text[0]] else []) + Filter(text[1..], keep[1..])
  }

  lemma {:induction false} FilterAppend<T>(a: seq<T>, ka: seq<bool>, b: seq<T>, kb: seq<bool>)
    requires |a| == |ka| && |b| == |kb|
    ensures Filter(a + b, ka + kb) == Filter(a, ka) + Filter(b, kb)
  {
    if a == [] {
      assert a + b == b && ka + kb == kb;
    } else {
      assert (a + b)[1..] == a[1..] + b && (ka + kb)[1..] == ka[1..] + kb;
      FilterAppend(a[1..], ka[1..], b, kb);
      var first := if ka[0] then [a[0]] else [];
      assert Filter(a, ka) == first + Filter(a[1..], ka[1..]);
      assert Filter(a + b, ka + kb) == first + Filter(a[1..] + b, ka[1..] + kb);
      hide Filter;
      Assoc(first, Filter(a[1..], ka[1..]), Filter(b, kb));
    }
  }

  lemma Assoc<T>(a: seq<T>, b: seq<T>, c: seq<T>)
    ensures (a + b) + c == a + (b + c)
  {
  }

  lemma {:induction false} FilterNone<T>(a: seq<T>)
    ensures Filter(a, seq(|a|, _ => false)) == []
  {
    if a != [] {
      assert seq(|a|, _ => false)[1..] == seq(|a[1..]|, _ => false);
      FilterNone(a[1..]);
    }
  }

  /** Deleting the inserted pieces gives back the original. */
  lemma {:induction false} OnlyInserts<T>(src: seq<T>, es: seq<Edit<T>>, o: nat)
    requires o <= |src|
    ensures |Originals(src, es, o)| == |Render(src, es, o)|
    ensures Filter(Render(src, es, o), Originals(src, es, o)) == src[o..]
    decreases |src| - o
  {
    if o < |src| { OnlyInserts(src, es, o + 1); }
    OnlyInsertsHere(src, es, o);
  }

  lemma OnlyInsertsHere<T>(src: seq<T>, es: seq<Edit<T>>, o: nat)
    requires o <= |src|
    requires o < |src| ==>
      |Originals(src, es, o + 1)| == |Render(src, es, o + 1)|
      && Filter(Render(src, es, o + 1), Originals(src, es, o + 1)) == src[o + 1..]
    ensures |Originals(src, es, o)| == |Render(src, es, o)|
    ensures Filter(Render(src, es, o), Originals(src, es, o)) == src[o..]
  {
    var p := Pieces(es, o);
    var no := seq(|p|, _ => false);
    FilterNone(p);
    if o < |src| {
      var r, k := Render(src, es, o + 1), Originals(src, es, o + 1);
      assert Render(src, es, o) == p + ([src[o]] + r) && Originals(src, es, o) == no + ([true] + k);
      hide *;
      KeepFirst(src[o], r, k);
      FilterAppend(p, no, [src[o]] + r, [true] + k);
      FromHere(src, o);
    } else {
      assert src[o..] == [];
    }
  }

  lemma FromHere<T>(src: seq<T>, o: nat)
    requires o < |src|
    ensures [] + ([src[o]] + src[o + 1..]) == src[o..]
  {
  }

  lemma KeepFirst<T>(c: T, r: seq<T>, k: seq<bool>)
    requires |r| == |k|
    ensures Filter([c] + r, [true] + k) == [c] + Filter(r, k)
  {
    assert ([c] + r)[1..] == r && ([true] + k)[1..] == k;
  }

  // ----- when the order of insertions matters -----

  ghost predicate SameSizes<T>(es: seq<Edit<T>>, es': seq<Edit<T>>, lo: nat, hi: nat) {
    forall k :: lo <= k <= hi ==> |Pieces(es, k)| == |Pieces(es', k)|
  }

  ghost predicate SamePieces<T>(es: seq<Edit<T>>, es': seq<Edit<T>>, lo: nat, hi: nat) {
    forall k :: lo <= k <= hi ==> Pieces(es, k) == Pieces(es', k)
  }

  lemma SamePiecesSplit<T>(es: seq<Edit<T>>, es': seq<Edit<T>>, lo: nat, hi: nat)
    requires lo <= hi
    ensures SamePieces(es, es', lo, hi) <==> Pieces(es, lo) == Pieces(es', lo) && SamePieces(es, es', lo + 1, hi)
  {
    if Pieces(es, lo) == Pieces(es', lo) && SamePieces(es, es', lo + 1, hi) {
      forall k | lo <= k <= hi ensures Pieces(es, k) == Pieces(es', k) {
        assert k == lo || lo + 1 <= k;
      }
    }
  }
}
