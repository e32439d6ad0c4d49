/** Depth-first walk over the member types of a record type, which may refer to each other in
    cycles, with a list of visited types that persists between walks. */
module TypeWalk {

  /** The chain of a record's fields.  A data member matters if its own type is a record; a type
      declaration matters unless it is the record's name for itself. */
  datatype Field = RecordMember(t: nat) | OtherMember | InnerType(t: nat, selfReference: bool) | OtherField

  /** The record types, with their field chains; other types are outside the map. */
  type Graph = map<nat, seq<Field>>

  /** Data members are only entered if they are records, so they never lead outside. */
  predicate WellFormed(g: Graph) {
    forall t, i :: t in g && 0 <= i < |g[t]| && g[t][i].RecordMember? ==> g[t][i].t in g
  }

  predicate Enters(f: Field) {
    f.RecordMember? || (f.InnerType? && !f.selfReference)
  }

  /** The types a walk enters from `t`. */
  function Next(g: Graph, t: nat): set<nat> {
    if t in g then set i | 0 <= i < |g[t]| && Enters(g[t][i]) :: g[t][i].t else {}
  }

  ghost predicate ReachesIn(g: Graph, a: nat, b: nat, k: nat)
    decreases k
  {
    if k == 0 then a == b else exists c :: c in Next(g, a) && ReachesIn(g, c, b, k - 1)
  }

  ghost predicate Reaches(g: Graph, a: nat, b: nat) {
    exists k: nat :: ReachesIn(g, a, b, k)
  }

  lemma ReachesVia(g: Graph, a: nat, c: nat, b: nat)
    requires c in Next(g, a) && Reaches(g, c, b)
    ensures Reaches(g, a, b)
  {
    var k: nat :| ReachesIn(g, c, b, k);
    assert ReachesIn(g, a, b, k + 1);
  }

  /** All of `vs` are records, and lead only to `vs`. */
  ghost predicate Closed(g: Graph, vs: set<nat>) {
    forall t :: t in vs ==> t in g && Next(g, t) <= vs
  }

  lemma {:induction false} ClosedKeepsReach(g: Graph, vs: set<nat>, a: nat, b: nat, k: nat)
    requires Closed(g, vs) && a in vs && ReachesIn(g, a, b, k)
    ensures b in vs
    decreases k
  {
    if k > 0 {
      var c :| c in Next(g, a) && ReachesIn(g, c, b, k - 1);
      ClosedKeepsReach(g, vs, c, b, k - 1);
    }
  }

  function Elems(s: seq<nat>): set<nat> {
    set x | x in s
  }

  predicate Unique(s: seq<nat>) {
    forall i, k :: 0 <= i < k < |s| ==> s[i] != s[k]
  }

  class Walker {
    const g: Graph
    var visited: seq<nat>

    constructor (g: Graph)
      ensures this.g == g && visited == []
    {
      this.g, visited := g, [];
    }

    /** `open` are the records whose fields are being walked: only these may lead outside. */
    ghost predicate Inv(open: set<nat>)
      reads this
    {
      && Unique(visited)
      && (forall t :: t in visited ==> t in g)
      && (forall t :: t in visited && t !in open ==> Next(g, t) <= Elems(visited))
    }

    /** One walk; `ok` is false if a type that is no record was to be entered, which aborts. */
    method WalkRec(r: nat, recurse: bool, ghost open: set<nat>) returns (ok: bool)
      requires WellFormed(g) && Inv(open)
      modifies this
      ensures old(visited) <= visited && Unique(visited)
      ensures forall t :: t in visited[|old(visited)|..] ==> Reaches(g, r, t)
      ensures ok ==> r in visited && (recurse ==> Inv(open))
      ensures !recurse && r in g ==> ok && visited == if r in old(visited) then old(visited) else old(visited) + [r]
      ensures !ok ==> exists t :: t !in g && Reaches(g, r, t)
      decreases g.Keys - Elems(visited)
    {
      assert ReachesIn(g, r, r, 0);
      if r !in g { return false; }
      var i := 0;
      while i < |visited|
        invariant 0 <= i <= |visited|
        invariant r !in visited[..i]
      {
        if visited[i] == r { return true; }
        i := i + 1;
      }
      visited := visited + [r];
      assert Elems(visited) == Elems(old(visited)) + {r};
      ok := true;
      var fields, j := g[r], 0;
      while j < |fields|
        invariant 0 <= j <= |fields|
        invariant old(visited) + [r] <= visited && Inv(open + {r})
        invariant !recurse ==> visited == old(visited) + [r]
        invariant recurse ==> forall k :: 0 <= k < j && Enters(fields[k]) ==> fields[k].t in visited
        invariant forall t :: t in visited[|old(visited)|..] ==> Reaches(g, r, t)
      {
        if Enters(fields[j]) && recurse {
          var t := fields[j].t;
          assert t in Next(g, r);
          ghost var was := visited;
          assert r in Elems(was) - Elems(old(visited));
          ok := WalkRec(t, true, open + {r});
          NewOnesReached(r, t, was, |old(visited)|);
          if !ok {
            ghost var u :| u !in g && Reaches(g, t, u);
            ReachesVia(g, r, t, u);
            return;
          }
        }
        j := j + 1;
      }
    }

    lemma NewOnesReached(r: nat, t: nat, was: seq<nat>, from: nat)
      requires t in Next(g, r) && was <= visited && from <= |was|
      requires forall u :: u in was[from..] ==> Reaches(g, r, u)
      requires forall u :: u in visited[|was|..] ==> Reaches(g, t, u)
      ensures forall u :: u in visited[from..] ==> Reaches(g, r, u)
    {
      forall u | u in visited[from..] ensures Reaches(g, r, u) {
        var i :| 0 <= i < |visited[from..]| && visited[from..][i] == u;
        if from + i < |was| {
          assert was[from..][i] == u;
        } else {
          assert visited[|was|..][from + i - |was|] == u;
          ReachesVia(g, r, t, u);
        }
      }
    }

    /** A walk of a record with recursion, from a closed list of visited types: it ends, and unless
        it meets an inner type that is no record, it adds exactly the types reachable from the record
        that were not there, each once.  It meets one if and only if one is reachable. */
    method Walk(r: nat) returns (ok: bool)
      requires WellFormed(g) && Unique(visited) && Closed(g, Elems(visited))
      modifies this
      ensures old(visited) <= visited && Unique(visited)
      ensures ok <==> forall t :: Reaches(g, r, t) ==> t in g
      ensures ok ==> Closed(g, Elems(visited))
      ensures ok ==> forall t :: t in visited <==> t in old(visited) || Reaches(g, r, t)
    {
      ok := WalkRec(r, true, {});
      if ok {
        assert Closed(g, Elems(visited));
        forall t | Reaches(g, r, t) ensures t in visited && t in g {
          var k: nat :| ReachesIn(g, r, t, k);
          ClosedKeepsReach(g, Elems(visited), r, t, k);
        }
        forall t | t in visited ensures t in old(visited) || Reaches(g, r, t) {
          if t !in old(visited) {
            var i :| 0 <= i < |visited| && visited[i] == t;
            assert i >= |old(visited)|;
            assert visited[|old(visited)|..][i - |old(visited)|] == t;
          }
        }
      }
    }
  }
}
