/** Who owns which coroutine frame, over any sequence of operations on handles. */
module Ownership {
  import opened Wire

  /** A handle object: the frame it refers to, and whether it owns it. */
  datatype Handle = Handle(frame: Option<nat>, owner: bool)

  datatype Op =
    | Create(x: nat)                       // call a coroutine: a new frame with an owning handle
    | Default(x: nat, owner: bool)         // a default handle: no frame, ownership indeterminate
    | MoveConstruct(x: nat, y: nat, owner: bool)
    | MoveAssign(x: nat, y: nat)
    | Start(x: nat)
    | Destroy(x: nat)

  /** Handles by object, frames created so far, frames destroyed, and frames whose owner was
      overwritten by a move assignment. */
  datatype World = World(objs: map<nat, Handle>, created: nat, destroyed: multiset<nat>, lost: multiset<nat>)

  const EMPTY := World(map[], 0, multiset{}, multiset{})

  predicate Owns(h: Handle, f: nat) {
    h.owner && h.frame == Some(f)
  }

  /** `*x = std::move(*y)`: copy the handle, clear own ownership, swap it with the other's. */
  function Assign(objs: map<nat, Handle>, x: nat, y: nat): map<nat, Handle>
    requires x in objs && y in objs
  {
    var frame := objs[y].frame;
    var cleared := objs[x := Handle(frame, false)];
    var (ox, oy) := (cleared[x].owner, cleared[y].owner);
    cleared[x := Handle(frame, oy)][y := Handle(frame, if x == y then oy else ox)]
  }

  function Owned(h: Handle): multiset<nat> {
    if h.owner && h.frame.Some? then multiset{h.frame.value} else multiset{}
  }

  function Do(w: World, op: Op): World
    requires Possible(w, op)
  {
    match op
    case Create(x) => w.(objs := w.objs[x := Handle(Some(w.created), true)], created := w.created + 1)
    case Default(x, o) => w.(objs := w.objs[x := Handle(None, o)])
    case MoveConstruct(x, y, o) => w.(objs := Assign(w.objs[x := Handle(None, o)], x, y))
    case MoveAssign(x, y) => w.(objs := Assign(w.objs, x, y),
        lost := w.lost + if x == y then multiset{} else Owned(w.objs[x]))
    case Start(x) => w.(objs := w.objs[x := w.objs[x].(owner := true)])
    case Destroy(x) => w.(objs := w.objs - {x}, destroyed := w.destroyed + Owned(w.objs[x]))
  }

  /** New objects are new, used objects exist. */
  predicate Possible(w: World, op: Op) {
    match op
    case Create(x) => x !in w.objs
    case Default(x, _) => x !in w.objs
    case MoveConstruct(x, y, _) => x !in w.objs && y in w.objs
    case MoveAssign(x, y) => x in w.objs && y in w.objs
    case Start(x) => x in w.objs
    case Destroy(x) => x in w.objs
  }

  /** Moves between distinct objects; starting only owners, or handles without a frame. */
  predicate Proper(w: World, op: Op) {
    && Possible(w, op)
    && (op.MoveAssign? ==> op.x != op.y)
    && (op.Start? ==> w.objs[op.x].owner || w.objs[op.x].frame.None?)
  }

  /** How often a frame is owned. */
  function Owners(objs: map<nat, Handle>, f: nat): set<nat> {
    set x | x in objs && Owns(objs[x], f)
  }

  /** Every created frame is owned, destroyed or lost, exactly one of these, and exactly once. */
  ghost predicate Conserved(w: World) {
    forall f: nat :: Count(w.objs, f) + w.destroyed[f] + w.lost[f] == if f < w.created then 1 else 0
  }

  ghost predicate AllProper(w: World, ops: seq<Op>)
    decreases |ops|
  {
    ops == [] || (Proper(w, ops[0]) && AllProper(Do(w, ops[0]), ops[1..]))
  }

  ghost function DoAll(w: World, ops: seq<Op>): World
    requires AllProper(w, ops)
    decreases |ops|
  {
    if ops == [] then w else DoAll(Do(w, ops[0]), ops[1..])
  }

  /** How many objects own `f`. */
  function Count(objs: map<nat, Handle>, f: nat): nat {
    |Owners(objs, f)|
  }

  function One(b: bool): nat { if b then 1 else 0 }

  lemma CountPut(objs: map<nat, Handle>, x: nat, h: Handle, f: nat)
    ensures Count(objs[x := h], f) == Count(objs, f) - One(x in objs && Owns(objs[x], f)) + One(Owns(h, f))
  {
    var rest := Owners(objs, f) - {x};
    OwnersPut(objs, x, h, f);
    hide Owners;
    assert Owners(objs, f) == if x in objs && Owns(objs[x], f) then rest + {x} else rest;
  }

  lemma OwnersPut(objs: map<nat, Handle>, x: nat, h: Handle, f: nat)
    ensures x in Owners(objs, f) <==> x in objs && Owns(objs[x], f)
    ensures Owners(objs[x := h], f) == if Owns(h, f) then (Owners(objs, f) - {x}) + {x} else Owners(objs, f) - {x}
  {
  }

  lemma CountDrop(objs: map<nat, Handle>, x: nat, f: nat)
    requires x in objs
    ensures Count(objs - {x}, f) == Count(objs, f) - One(Owns(objs[x], f))
  {
    assert Owners(objs - {x}, f) == Owners(objs, f) - {x};
  }

  /** A move takes the other's ownership over; what was owned before is not owned any more. */
  lemma CountAssign(objs: map<nat, Handle>, x: nat, y: nat, f: nat)
    requires x in objs && y in objs && x != y
    ensures Count(Assign(objs, x, y), f) == Count(objs, f) - One(Owns(objs[x], f))
  {
    var frame := objs[y].frame;
    var hx, hy := Handle(frame, objs[y].owner), Handle(frame, false);
    assert Assign(objs, x, y) == objs[x := hx][y := hy];
    CountPut(objs, x, hx, f);
    CountPut(objs[x := hx], y, hy, f);
  }

  /** What one operation does to the books of one frame. */
  lemma BalanceStep(w: World, op: Op, f: nat)
    requires Proper(w, op)
    ensures
      var w' := Do(w, op);
      Count(w'.objs, f) + w'.destroyed[f] + w'.lost[f]
      == Count(w.objs, f) + w.destroyed[f] + w.lost[f] + One(op.Create? && f == w.created)
  {
    match op
    case Create(x) => CountPut(w.objs, x, Handle(Some(w.created), true), f);
    case Default(x, o) => CountPut(w.objs, x, Handle(None, o), f);
    case MoveConstruct(x, y, o) =>
      CountPut(w.objs, x, Handle(None, o), f);
      CountAssign(w.objs[x := Handle(None, o)], x, y, f);
    case MoveAssign(x, y) => CountAssign(w.objs, x, y, f);
    case Start(x) => CountPut(w.objs, x, w.objs[x].(owner := true), f);
    case Destroy(x) => CountDrop(w.objs, x, f);
  }

  lemma ConservedStep(w: World, op: Op)
    requires Conserved(w) && Proper(w, op)
    ensures Conserved(Do(w, op))
  {
    forall f: nat
      ensures Count(Do(w, op).objs, f) + Do(w, op).destroyed[f] + Do(w, op).lost[f]
          == if f < Do(w, op).created then 1 else 0
    {
      BalanceStep(w, op, f);
    }
  }

  /** Handles only refer to frames that were created. */
  predicate Known(w: World) {
    forall x :: x in w.objs && w.objs[x].frame.Some? ==> w.objs[x].frame.value < w.created
  }

  lemma {:induction false} KeepsConserved(w: World, ops: seq<Op>)
    requires Conserved(w) && Known(w) && AllProper(w, ops)
    ensures Conserved(DoAll(w, ops)) && Known(DoAll(w, ops))
    decreases |ops|
  {
    if ops != [] {
      ConservedStep(w, ops[0]);
      KeepsConserved(Do(w, ops[0]), ops[1..]);
    }
  }

  /** Over any run of proper operations, starting from nothing: frames created are those destroyed,
      owned or lost, each once; so no frame has two owners and none is destroyed twice. */
  lemma OwnershipConserved(ops: seq<Op>)
    requires AllProper(EMPTY, ops)
    ensures Conserved(DoAll(EMPTY, ops)) && Known(DoAll(EMPTY, ops))
  {
    forall f: nat ensures Count(EMPTY.objs, f) == 0 {
      assert Owners(EMPTY.objs, f) == {};
    }
    KeepsConserved(EMPTY, ops);
  }

  /** Moving an object onto itself, after any proper run, is harmless exactly if it owns nothing: an
      owner forgets its frame, which is then neither owned nor destroyed. */
  lemma SelfMoveLeaks(ops: seq<Op>, x: nat)
    requires AllProper(EMPTY, ops) && x in DoAll(EMPTY, ops).objs
    ensures
      var w := DoAll(EMPTY, ops);
      Conserved(Do(w, MoveAssign(x, x))) <==> Owned(w.objs[x]) == multiset{}
  {
    OwnershipConserved(ops);
    var w := DoAll(EMPTY, ops);
    var w' := Do(w, MoveAssign(x, x));
    var h := Handle(w.objs[x].frame, false);
    assert w'.objs == w.objs[x := h];
    forall f: nat ensures Count(w'.objs, f) == Count(w.objs, f) - One(Owns(w.objs[x], f)) {
      CountPut(w.objs, x, h, f);
    }
    if Owned(w.objs[x]) != multiset{} {
      var f := w.objs[x].frame.value;
      assert x in Owners(w.objs, f) && w.objs[x].owner;
      assert Count(w.objs, f) + w.destroyed[f] + w.lost[f] == if f < w.created then 1 else 0;
      assert Count(w'.objs, f) == Count(w.objs, f) - 1;
    }
  }

  /** Starting a handle, after any proper run, keeps ownership single exactly if it was an owner
      already or has no frame: otherwise its frame is owned, destroyed or lost elsewhere and gets
      another owner. */
  lemma StartNeedsOwner(ops: seq<Op>, x: nat)
    requires AllProper(EMPTY, ops) && x in DoAll(EMPTY, ops).objs
    ensures
      var w := DoAll(EMPTY, ops);
      Conserved(Do(w, Start(x))) <==> w.objs[x].owner || w.objs[x].frame.None?
  {
    OwnershipConserved(ops);
    var w := DoAll(EMPTY, ops);
    if w.objs[x].owner || w.objs[x].frame.None? {
      ConservedStep(w, Start(x));
    } else {
      var f := w.objs[x].frame.value;
      var w' := Do(w, Start(x));
      CountPut(w.objs, x, w.objs[x].(owner := true), f);
      assert Count(w'.objs, f) == Count(w.objs, f) + 1;
    }
  }

  /** A handle that was moved from still refers to its frame, which now has another owner.  To start it is
      improper, and would give the frame two owners. */
  lemma MovedFromStillRefers(ops: seq<Op>, op: Op, f: nat)
    requires AllProper(EMPTY, ops) && Proper(DoAll(EMPTY, ops), op)
    requires op.MoveAssign? || op.MoveConstruct?
    requires Owns(DoAll(EMPTY, ops).objs[op.y], f)
    ensures
      var w := Do(DoAll(EMPTY, ops), op);
      && Owners(w.objs, f) == {op.x} && w.objs[op.y] == Handle(Some(f), false)
      && !Proper(w, Start(op.y))
      && Possible(w, Start(op.y)) && Owners(Do(w, Start(op.y)).objs, f) == {op.x, op.y}
      && !Conserved(Do(w, Start(op.y)))
  {
    var w0, x, y := DoAll(EMPTY, ops), op.x, op.y;
    OwnershipConserved(ops);
    OnlyOwner(w0, f, y);
    MovedApart(w0, op, f);
    StartedTwice(Do(w0, op), x, y, f);
  }

  /** What a move leaves behind: the same frame, without its ownership. */
  lemma MovedApart(w0: World, op: Op, f: nat)
    requires Proper(w0, op) && (op.MoveAssign? || op.MoveConstruct?)
    requires Owners(w0.objs, f) == {op.y}
    ensures
      var w := Do(w0, op);
      && op.x != op.y && op.x in w.objs && op.y in w.objs
      && w.objs[op.y] == Handle(Some(f), false) && Owners(w.objs, f) == {op.x}
  {
    var objs, x, y := w0.objs, op.x, op.y;
    OwnersPut(objs, y, Handle(None, false), f);
    if op.MoveConstruct? {
      objs := objs[x := Handle(None, op.owner)];
      OwnersPut(w0.objs, x, Handle(None, op.owner), f);
      assert Owners(objs, f) == {y};
    }
    assert Do(w0, op).objs == Assign(objs, x, y);
    AssignOwned(objs, x, y, f);
  }

  lemma AssignOwned(objs: map<nat, Handle>, x: nat, y: nat, f: nat)
    requires x in objs && x != y && Owners(objs, f) == {y}
    requires y in objs && Owns(objs[y], f)
    ensures Owners(Assign(objs, x, y), f) == {x}
    ensures Assign(objs, x, y)[y] == Handle(Some(f), false)
  {
    var hx, hy := Handle(Some(f), true), Handle(Some(f), false);
    assert Assign(objs, x, y) == objs[x := hx][y := hy];
    OwnersPut(objs, x, hx, f);
    OwnersPut(objs[x := hx], y, hy, f);
  }

  /** Started although it is no owner, a handle makes a second owner of its frame. */
  lemma StartedTwice(w: World, x: nat, y: nat, f: nat)
    requires x in w.objs && y in w.objs && x != y
    requires Owners(w.objs, f) == {x} && w.objs[y] == Handle(Some(f), false)
    ensures !Proper(w, Start(y)) && Possible(w, Start(y))
    ensures Owners(Do(w, Start(y)).objs, f) == {x, y} && !Conserved(Do(w, Start(y)))
  {
    var w' := Do(w, Start(y));
    OwnersPut(w.objs, y, Handle(Some(f), true), f);
    assert w'.objs == w.objs[y := Handle(Some(f), true)];
    assert {x, y} - {x} == {y};
    assert Count(w'.objs, f) == 2;
  }

  /** A frame has at most one owner. */
  lemma OnlyOwner(w: World, f: nat, y: nat)
    requires Conserved(w) && y in w.objs && Owns(w.objs[y], f)
    ensures Owners(w.objs, f) == {y}
  {
    var rest := Owners(w.objs, f) - {y};
    assert Owners(w.objs, f) == rest + {y};
    assert Count(w.objs, f) + w.destroyed[f] + w.lost[f] == if f < w.created then 1 else 0;
    assert |rest| == 0;
  }
}
