/** The match callback: it is delivered every pairing of an await with a variable, in any order,
    and collects one stage for each await. */
module Collector {
  import opened Wire
  import opened Language
  import opened Points
  import opened Restore
  import opened Rewrite
  import opened Scopes
  import opened Simulation

  /** One delivery: an await of a function, with a variable of the function unless it has none. */
  datatype Match = Match(f: Fun, aw: nat, v: Option<Variable>)

  /** What is collected for an await: the compounds around it, and the variables to save. */
  datatype Record = Record(aw: nat, scope: set<nat>, vars: seq<Variable>)

  type Stages = map<Fun, seq<Record>>

  function RecordsOf(st: Stages, f: Fun): seq<Record> {
    if f in st then st[f] else []
  }

  /** Index of the record of an await; the length if there is none. */
  function IndexOf(rs: seq<Record>, aw: nat): (i: nat)
    ensures i <= |rs|
    ensures i < |rs| ==> rs[i].aw == aw
    ensures forall k :: 0 <= k < i ==> rs[k].aw != aw
  {
    if rs == [] || rs[0].aw == aw then 0
    else 1 + IndexOf(rs[1..], aw)
  }

  /** The records after the await's own is present. */
  function Ensured(rs: seq<Record>, f: Fun, aw: nat): (r: seq<Record>)
    ensures IndexOf(rs, aw) < |r|
    ensures r[IndexOf(rs, aw)].aw == aw
  {
    if IndexOf(rs, aw) < |rs| then rs else rs + [Record(aw, Enclosing(f.at, f.body, aw), [])]
  }

  predicate Kept(f: Fun, r: Record, v: Variable) {
    && v.at < r.aw
    && (v.isParam || match BlockOf(f.body, f.at, v.at)
                     case Some(b) => b in r.scope
                     case None => false)
  }

  function Noted(rs: seq<Record>, m: Match): seq<Record> {
    var rs', i := Ensured(rs, m.f, m.aw), IndexOf(rs, m.aw);
    rs'[i := WithDelivery(m, rs'[i])]
  }

  class Valet {
    var stages: Stages

    constructor ()
      ensures stages == map[]
    {
      stages := map[];
    }

    /** Get or create the record of an await. */
    method EnsureStageFor(f: Fun, aw: nat) returns (i: nat)
      modifies this
      ensures i == IndexOf(RecordsOf(old(stages), f), aw)
      ensures stages == old(stages)[f := Ensured(RecordsOf(old(stages), f), f, aw)]
    {
      var v := RecordsOf(stages, f);
      i := 0;
      while i < |v| && v[i].aw != aw
        invariant 0 <= i <= |v|
        invariant i + IndexOf(v[i..], aw) == IndexOf(v, aw)
      {
        assert v[i..][0] == v[i] && v[i..][1..] == v[i + 1..];
        i := i + 1;
      }
      if i < |v| {
        assert v[i..][0] == v[i];
      } else {
        v := v + [Record(aw, Enclosing(f.at, f.body, aw), [])];
      }
      stages := stages[f := v];
    }

    method Run(m: Match)
      modifies this
      ensures stages == old(stages)[m.f := Noted(RecordsOf(old(stages), m.f), m)]
      ensures
        var rs, rs' := RecordsOf(old(stages), m.f), RecordsOf(stages, m.f);
        var i := IndexOf(rs, m.aw);
        && stages == old(stages)[m.f := rs']
        && |rs'| == (if i < |rs| then |rs| else |rs| + 1)
        && (forall k :: 0 <= k < |rs| && k != i ==> rs'[k] == rs[k])
        && rs'[i].aw == m.aw
        && rs'[i].scope == (if i < |rs| then rs[i].scope else Enclosing(m.f.at, m.f.body, m.aw))
        && rs'[i].vars == (if i < |rs| then rs[i].vars else [])
                        + (if m.v.Some? && Kept(m.f, rs'[i], m.v.value) then [m.v.value] else [])
    {
      var i := EnsureStageFor(m.f, m.aw);
      var v := stages[m.f];
      assert v[i := v[i]] == v;
      if m.v.Some? && Kept(m.f, v[i], m.v.value) {
        stages := stages[m.f := v[i := v[i].(vars := v[i].vars + [m.v.value])]];
      }
    }

    /** The whole matching phase. */
    method RunAll(ms: seq<Match>)
      requires stages == map[]
      modifies this
      ensures forall f :: RecordsOf(stages, f) == Collected(ms, f)
    {
      var k := 0;
      while k < |ms|
        invariant 0 <= k <= |ms|
        invariant forall f :: RecordsOf(stages, f) == Collected(ms[..k], f)
      {
        assert ms[..k + 1][..k] == ms[..k];
        Run(ms[k]);
        k := k + 1;
      }
      assert ms[..k] == ms;
    }
  }

  /** What has been collected for `f` after the deliveries `ms`. */
  function Collected(ms: seq<Match>, f: Fun): seq<Record> {
    if ms == [] then []
    else
      var rs, m := Collected(ms[..|ms| - 1], f), ms[|ms| - 1];
      if m.f == f then Noted(rs, m) else rs
  }

  /** One record per await delivered, with the compounds around it, and each variable as often as
      it was delivered with that await, if it passes the test, and otherwise not at all. */
  ghost predicate Exact(f: Fun, ms: seq<Match>, rs: seq<Record>) {
    && (forall i, k :: 0 <= i < k < |rs| ==> rs[i].aw != rs[k].aw)
    && (forall m :: m in ms && m.f == f ==> IndexOf(rs, m.aw) < |rs|)
    && (forall i :: 0 <= i < |rs| ==> RecordExact(f, ms, rs[i]))
  }

  ghost predicate RecordExact(f: Fun, ms: seq<Match>, r: Record) {
    (exists m :: m in ms && m.f == f && m.aw == r.aw) && Counted(f, ms, r)
  }

  ghost predicate Counted(f: Fun, ms: seq<Match>, r: Record) {
    && r.scope == Enclosing(f.at, f.body, r.aw)
    && (forall v :: multiset(r.vars)[v] == if Saves(f, v, r.aw) then multiset(ms)[Match(f, r.aw, Some(v))] else 0)
  }

  lemma OtherDelivery(f: Fun, ms: seq<Match>, m: Match, r: Record)
    requires RecordExact(f, ms, r) && (m.f != f || m.aw != r.aw)
    ensures RecordExact(f, ms + [m], r)
  {
    var w :| w in ms && w.f == f && w.aw == r.aw;
    assert w in ms + [m];
  }

  function WithDelivery(m: Match, r: Record): Record {
    if m.v.Some? && Kept(m.f, r, m.v.value) then r.(vars := r.vars + [m.v.value]) else r
  }

  lemma OwnDelivery(ms: seq<Match>, m: Match, r: Record)
    requires Counted(m.f, ms, r) && m.aw == r.aw
    ensures RecordExact(m.f, ms + [m], WithDelivery(m, r))
  {
    assert m in ms + [m];
    var r' := WithDelivery(m, r);
    forall v
      ensures multiset(r'.vars)[v] == if Saves(m.f, v, r.aw) then multiset(ms + [m])[Match(m.f, r.aw, Some(v))] else 0
    {
      assert multiset(ms + [m]) == multiset(ms) + multiset{m};
    }
  }

  /** What is collected depends on the deliveries, not on their order. */
  lemma {:induction false} CollectedExactly(f: Fun, ms: seq<Match>)
    ensures Exact(f, ms, Collected(ms, f))
  {
    if ms != [] {
      var ms', m := ms[..|ms| - 1], ms[|ms| - 1];
      assert ms == ms' + [m];
      CollectedExactly(f, ms');
      NotedExactly(f, ms', m, Collected(ms', f));
    }
  }

  lemma NotedExactly(f: Fun, ms: seq<Match>, m: Match, rs: seq<Record>)
    requires Exact(f, ms, rs)
    ensures Exact(f, ms + [m], if m.f == f then Noted(rs, m) else rs)
  {
    var rs' := if m.f == f then Noted(rs, m) else rs;
    forall i | 0 <= i < |rs'| ensures RecordExact(f, ms + [m], rs'[i]) {
      RecordNoted(f, ms, m, rs, i);
    }
    NotedAwaits(f, ms, m, rs);
    hide RecordExact, Noted;
  }

  lemma NotedAwaits(f: Fun, ms: seq<Match>, m: Match, rs: seq<Record>)
    requires Exact(f, ms, rs)
    ensures
      var rs' := if m.f == f then Noted(rs, m) else rs;
      && (forall i, k :: 0 <= i < k < |rs'| ==> rs'[i].aw != rs'[k].aw)
      && (forall m' :: m' in ms + [m] && m'.f == f ==> IndexOf(rs', m'.aw) < |rs'|)
  {
    var rs' := if m.f == f then Noted(rs, m) else rs;
    hide RecordExact;
    forall m' | m' in ms + [m] && m'.f == f ensures IndexOf(rs', m'.aw) < |rs'| {
      if m' in ms { assert rs'[IndexOf(rs, m'.aw)].aw == m'.aw; }
    }
  }

  lemma RecordNoted(f: Fun, ms: seq<Match>, m: Match, rs: seq<Record>, i: nat)
    requires Exact(f, ms, rs)
    requires i < |if m.f == f then Noted(rs, m) else rs|
    ensures RecordExact(f, ms + [m], (if m.f == f then Noted(rs, m) else rs)[i])
  {
    if i < |rs| && (m.f != f || m.aw != rs[i].aw) {
      OtherDelivery(f, ms, m, rs[i]);
    } else if i < |rs| {
      assert IndexOf(rs, m.aw) == i;
      OwnDelivery(ms, m, rs[i]);
    } else {
      var r := Record(m.aw, Enclosing(f.at, f.body, m.aw), []);
      forall v ensures multiset(ms)[Match(f, r.aw, Some(v))] == 0 {
        assert Match(f, r.aw, Some(v)).aw == m.aw;
      }
      OwnDelivery(ms, m, r);
    }
  }

  // ----- the order of the records -----

  /** When an await of `f` is first delivered; the number of deliveries if it is not. */
  function FirstMatch(ms: seq<Match>, f: Fun, aw: nat): (k: nat)
    ensures k <= |ms|
    ensures k < |ms| ==> ms[k].f == f && ms[k].aw == aw
    ensures forall i :: 0 <= i < k ==> !(ms[i].f == f && ms[i].aw == aw)
  {
    if ms == [] || (ms[0].f == f && ms[0].aw == aw) then 0 else 1 + FirstMatch(ms[1..], f, aw)
  }

  lemma FirstMatchLater(ms: seq<Match>, m: Match, f: Fun, aw: nat)
    ensures FirstMatch(ms + [m], f, aw) ==
      if FirstMatch(ms, f, aw) < |ms| then FirstMatch(ms, f, aw)
      else if m.f == f && m.aw == aw then |ms| else |ms| + 1
  {
    var k, k' := FirstMatch(ms, f, aw), FirstMatch(ms + [m], f, aw);
    if k < |ms| { assert (ms + [m])[k] == ms[k]; }
    if k' < |ms| { assert (ms + [m])[k'] == ms[k']; }
    assert (ms + [m])[|ms|] == m;
  }

  ghost predicate InDeliveryOrder(f: Fun, ms: seq<Match>, rs: seq<Record>) {
    && (forall i :: 0 <= i < |rs| ==> FirstMatch(ms, f, rs[i].aw) < |ms|)
    && (forall i, k :: 0 <= i < k < |rs| ==> FirstMatch(ms, f, rs[i].aw) < FirstMatch(ms, f, rs[k].aw))
  }

  /** Records stand in the order in which their awaits were first delivered. */
  lemma {:induction false} CollectedInOrder(f: Fun, ms: seq<Match>)
    ensures InDeliveryOrder(f, ms, Collected(ms, f))
  {
    if ms != [] {
      var ms', m := ms[..|ms| - 1], ms[|ms| - 1];
      assert ms == ms' + [m];
      CollectedInOrder(f, ms');
      var rs', rs := Collected(ms', f), Collected(ms, f);
      forall i | 0 <= i < |rs|
        ensures FirstMatch(ms, f, rs[i].aw) == if i < |rs'| then FirstMatch(ms', f, rs'[i].aw) else |ms'|
      {
        FirstMatchLater(ms', m, f, rs[i].aw);
        if i >= |rs'| { CollectedNew(f, ms', m); }
      }
      assert |rs'| <= |rs| <= |rs'| + 1;
    }
  }

  /** A new record is for an await that was not delivered before. */
  lemma CollectedNew(f: Fun, ms: seq<Match>, m: Match)
    requires m.f == f && IndexOf(Collected(ms, f), m.aw) == |Collected(ms, f)|
    ensures FirstMatch(ms, f, m.aw) == |ms|
  {
    CollectedExactly(f, ms);
    var k := FirstMatch(ms, f, m.aw);
    assert forall i :: 0 <= i < |ms| ==> ms[i] in ms;
  }

  // ----- the order of a record's variables -----

  predicate Passes(m: Match, f: Fun, aw: nat) {
    m.f == f && m.aw == aw && m.v.Some? && Saves(f, m.v.value, aw)
  }

  /** The variables that were delivered with an await and pass the test, in the order of delivery. */
  function Passed(ms: seq<Match>, f: Fun, aw: nat): seq<Variable> {
    if ms == [] then []
    else if Passes(ms[0], f, aw) then [ms[0].v.value] + Passed(ms[1..], f, aw)
    else Passed(ms[1..], f, aw)
  }

  lemma {:induction false} PassedLater(ms: seq<Match>, m: Match, f: Fun, aw: nat)
    ensures Passed(ms + [m], f, aw) == Passed(ms, f, aw) + if Passes(m, f, aw) then [m.v.value] else []
  {
    hide Passes;
    if ms == [] {
      assert [] + [m] == [m] && [m][1..] == [];
    } else {
      PassedLater(ms[1..], m, f, aw);
      assert (ms + [m])[0] == ms[0] && (ms + [m])[1..] == ms[1..] + [m];
    }
  }

  lemma {:induction false} NonePassed(ms: seq<Match>, f: Fun, aw: nat)
    requires forall i :: 0 <= i < |ms| ==> !(ms[i].f == f && ms[i].aw == aw)
    ensures Passed(ms, f, aw) == []
  {
    if ms != [] {
      NonePassed(ms[1..], f, aw);
    }
  }

  ghost predicate VarsInOrder(f: Fun, ms: seq<Match>, rs: seq<Record>) {
    forall i :: 0 <= i < |rs| ==> rs[i].vars == Passed(ms, f, rs[i].aw)
  }

  /** Each record lists the variables delivered with its await that pass the test, in the order of
      their delivery. */
  lemma {:induction false} ListedAsDelivered(f: Fun, ms: seq<Match>)
    ensures VarsInOrder(f, ms, Collected(ms, f))
  {
    if ms != [] {
      var ms', m := ms[..|ms| - 1], ms[|ms| - 1];
      assert ms == ms' + [m];
      ListedAsDelivered(f, ms');
      CollectedExactly(f, ms');
      var rs', rs := Collected(ms', f), Collected(ms, f);
      assert rs == if m.f == f then Noted(rs', m) else rs';
      hide Noted, Exact, Passed, Passes, Collected;
      forall i | 0 <= i < |rs| ensures rs[i].vars == Passed(ms, f, rs[i].aw) {
        RecordInOrder(f, ms', m, i);
      }
    }
  }

  lemma RecordInOrder(f: Fun, ms: seq<Match>, m: Match, i: nat)
    requires VarsInOrder(f, ms, Collected(ms, f)) && Exact(f, ms, Collected(ms, f))
    requires i < |if m.f == f then Noted(Collected(ms, f), m) else Collected(ms, f)|
    ensures
      var r := (if m.f == f then Noted(Collected(ms, f), m) else Collected(ms, f))[i];
      r.vars == Passed(ms + [m], f, r.aw)
  {
    var rs := Collected(ms, f);
    if i < |rs| && (m.f != f || m.aw != rs[i].aw) {
      PassedLater(ms, m, f, rs[i].aw);
    } else if i < |rs| {
      assert IndexOf(rs, m.aw) == i && RecordExact(f, ms, rs[i]);
      PassedNow(f, ms, m, rs[i]);
    } else {
      CollectedNew(f, ms, m);
      NonePassed(ms, f, m.aw);
      PassedNow(f, ms, m, Record(m.aw, Enclosing(f.at, f.body, m.aw), []));
    }
  }

  lemma PassedNow(f: Fun, ms: seq<Match>, m: Match, r: Record)
    requires m.f == f && m.aw == r.aw
    requires r.scope == Enclosing(f.at, f.body, r.aw) && r.vars == Passed(ms, f, r.aw)
    ensures WithDelivery(m, r).aw == r.aw && WithDelivery(m, r).vars == Passed(ms + [m], f, r.aw)
  {
    PassedLater(ms, m, f, r.aw);
    hide Passed, Enclosing, BlockOf;
  }

  /** The deliveries behind the listed variables, in order. */
  lemma {:induction false} PassedPositions(ms: seq<Match>, f: Fun, aw: nat) returns (ps: seq<nat>)
    ensures |ps| == |Passed(ms, f, aw)| && Rising(ps)
    ensures forall k :: 0 <= k < |ps| ==> ps[k] < |ms| && ms[ps[k]] == Match(f, aw, Some(Passed(ms, f, aw)[k]))
  {
    ps := [];
    if ms != [] {
      var qs := PassedPositions(ms[1..], f, aw);
      var later := seq(|qs|, k requires 0 <= k < |qs| => qs[k] + 1);
      ps := if Passes(ms[0], f, aw) then [0] + later else later;
    }
  }

  /** Of two listed variables, each delivered once with the await, the earlier-listed one is the
      earlier-delivered one. */
  lemma EarlierListed(f: Fun, ms: seq<Match>, i: nat, a: nat, b: nat, p: nat, q: nat)
    requires i < |Collected(ms, f)| && p < |ms| && q < |ms|
    requires
      var r := Collected(ms, f)[i];
      && a < |r.vars| && b < |r.vars|
      && ms[p] == Match(f, r.aw, Some(r.vars[a])) && ms[q] == Match(f, r.aw, Some(r.vars[b]))
    requires multiset(ms)[ms[p]] == 1 && multiset(ms)[ms[q]] == 1
    ensures a < b <==> p < q
  {
    ListedAsDelivered(f, ms);
    var r := Collected(ms, f)[i];
    var ps := PassedPositions(ms, f, r.aw);
    OnlyPlace(ms, p, ps[a]);
    OnlyPlace(ms, q, ps[b]);
    assert a < b ==> ps[a] < ps[b];
    assert b < a ==> ps[b] < ps[a];
  }

  lemma OnlyPlace(ms: seq<Match>, p: nat, q: nat)
    requires p < |ms| && q < |ms| && ms[p] == ms[q] && multiset(ms)[ms[p]] == 1
    ensures p == q
  {
    if p < q { DistinctByCount(ms, p, q); }
    if q < p { DistinctByCount(ms, q, p); }
  }

  // ----- from deliveries to a stage table -----

  /** Every await is delivered once with every variable, and with none if there are none. */
  ghost predicate Delivered(f: Fun, ms: seq<Match>) {
    && (forall id, v :: id in Ids(f.body) && v in Variables(f) ==> multiset(ms)[Match(f, id, Some(v))] == 1)
    && (forall id :: id in Ids(f.body) && Variables(f) == [] ==> Match(f, id, None) in ms)
    && (forall m :: m in ms && m.f == f ==> m.aw in Ids(f.body) && (m.v.Some? ==> m.v.value in Variables(f)))
  }

  /** What the function must be for the emitted form to fit it. */
  ghost predicate Suitable(f: Fun) {
    && IsUser(f.body) && Void(f.body) && Located(f)
    && NoDup(NamesOf(f.params)) && Unshadowed(f.body, NamesOf(f.params))
    && |Ids(f.body)| <= 0xFFFF
  }

  function StagesOf(rs: seq<Record>): (ss: seq<Stage>)
    ensures |ss| == |rs|
    ensures forall i :: 0 <= i < |rs| ==> ss[i] == Stage(rs[i].aw, NamesOf(rs[i].vars))
  {
    seq(|rs|, i requires 0 <= i < |rs| => Stage(rs[i].aw, NamesOf(rs[i].vars)))
  }

  function JobOf(f: Fun, ms: seq<Match>): Job {
    Job(f.body, NamesOf(f.params), StagesOf(Collected(ms, f)), Emitted)
  }

  lemma {:induction false} RisingDistinct(code: Code)
    requires IsUser(code) && Rising(Offsets(code))
    ensures Distinct(code)
    decreases code
  {
    match code
    case End =>
    case Then(s, rest) =>
      RisingParts(StmtOffsets(s), Offsets(rest));
      StmtFacts(s, 0, 0, 0);
      CodeFacts(rest, 0, 0, 0);
      RisingDistinct(rest);
      RisingDistinctStmt(s);
  }

  lemma {:induction false} RisingDistinctStmt(s: Stmt)
    requires IsUserStmt(s) && Rising(StmtOffsets(s))
    ensures DistinctStmt(s)
    decreases s
  {
    match s
    case Block(at, b) => RisingParts([at], Offsets(b)); RisingDistinct(b);
    case While(_, at, b) => RisingParts([at], Offsets(b)); RisingDistinct(b);
    case If(_, at, t, elsAt, e) =>
      RisingParts([at] + Offsets(t), [elsAt] + Offsets(e));
      RisingParts([at], Offsets(t));
      RisingParts([elsAt], Offsets(e));
      CodeFacts(t, 0, 0, 0);
      CodeFacts(e, 0, 0, 0);
      assert forall x :: x in Offsets(t) ==> x in [at] + Offsets(t);
      assert forall x :: x in Offsets(e) ==> x in [elsAt] + Offsets(e);
      RisingDistinct(t);
      RisingDistinct(e);
    case _ =>
  }

  /** The names in scope at an await are those of the parameters and the visible locals. */
  lemma NamesAtAwait(f: Fun, id: nat)
    requires Suitable(f) && id in Ids(f.body)
    ensures
      var home := Home(f.body, NamesOf(f.params), id);
      && home.Some? && NoDup(home.value.names)
      && home.value.names == NamesOf(f.params + Visible(f.body, id))
  {
    hide Find, Visible, Ids, IsUser, Void, Unshadowed, Located, NoDup, NamesOf;
    var ps := NamesOf(f.params);
    FindNames(f.body, |ps|, ps, Bottom, id);
    FindNoDup(f.body, |ps|, ps, Bottom, AwaitAt(id));
    NamesOfBoth(f.params, Visible(f.body, id));
  }

  lemma NamesOfBoth(a: seq<Variable>, b: seq<Variable>)
    ensures NamesOf(a + b) == NamesOf(a) + NamesOf(b)
  {
  }

  /** The variables collected at an await are exactly those in scope, each once. */
  lemma RecordLists(f: Fun, ms: seq<Match>, r: Record)
    requires Suitable(f) && Delivered(f, ms) && RecordExact(f, ms, r)
    ensures r.aw in Ids(f.body)
    ensures Home(f.body, NamesOf(f.params), r.aw).Some?
    ensures Lists(NamesOf(r.vars), Home(f.body, NamesOf(f.params), r.aw).value.names)
  {
    NamesAtAwait(f, r.aw);
    var scope := f.params + Visible(f.body, r.aw);
    CodeFacts(f.body, f.at, r.aw, 0);
    VoidInitializes(f.body, r.aw);
    forall v ensures multiset(r.vars)[v] == if v in scope then 1 else 0 {
      if v in Variables(f) {
        SavesIsLexical(f, v, r.aw);
      } else {
        assert Match(f, r.aw, Some(v)) !in ms;
      }
    }
    ListsByCount(r.vars, scope);
  }

  /** Counting each member of a duplicate-free list of names exactly once lists it. */
  lemma ListsByCount(vars: seq<Variable>, scope: seq<Variable>)
    requires NoDup(NamesOf(scope))
    requires forall v :: multiset(vars)[v] == if v in scope then 1 else 0
    ensures Lists(NamesOf(vars), NamesOf(scope))
  {
    assert forall v :: v in vars <==> v in multiset(vars);
    assert forall v :: v in vars <==> v in scope;
    forall i, k | 0 <= i < k < |vars| ensures vars[i].name != vars[k].name {
      DistinctByCount(vars, i, k);
      assert vars[i] in vars && vars[k] in vars;
      var a :| 0 <= a < |scope| && scope[a] == vars[i];
      var b :| 0 <= b < |scope| && scope[b] == vars[k];
      assert NamesOf(scope)[a] != NamesOf(scope)[b];
    }
    forall x ensures x in NamesOf(vars) <==> x in NamesOf(scope) {
      if x in NamesOf(vars) {
        var i :| 0 <= i < |vars| && NamesOf(vars)[i] == x;
        assert vars[i] in scope;
        var a :| 0 <= a < |scope| && scope[a] == vars[i];
        assert NamesOf(scope)[a] == x;
      }
      if x in NamesOf(scope) {
        var a :| 0 <= a < |scope| && NamesOf(scope)[a] == x;
        assert scope[a] in vars;
        var i :| 0 <= i < |vars| && vars[i] == scope[a];
        assert NamesOf(vars)[i] == x;
      }
    }
  }

  lemma DistinctByCount<T>(vars: seq<T>, i: nat, k: nat)
    requires i < k < |vars| && multiset(vars)[vars[i]] <= 1
    ensures vars[i] != vars[k]
  {
    var a, b := vars[..k], vars[k..];
    assert vars == a + b && a[i] == vars[i] && b[0] == vars[k];
    assert multiset(vars) == multiset(a) + multiset(b);
    assert a[i] in multiset(a) && b[0] in multiset(b);
  }

  /** The scope analysis, whatever the order of its callbacks, yields a stage table with one stage
      per await, each listing exactly the variables lexically in scope there. */
  lemma TableFromAnyOrder(f: Fun, ms: seq<Match>)
    requires Suitable(f) && Delivered(f, ms)
    ensures JobOf(f, ms).Ok()
  {
    hide *;
    CollectedExactly(f, ms);
    JobWellFormed(f, ms);
    RecordsList(f, ms);
    AllNumbered(f, ms);
    OneRecordEach(f, ms);
    JobTableOk(f, ms);
    JobIsOk(JobOf(f, ms));
  }

  lemma JobIsOk(j: Job)
    requires j.WellFormed() && j.TableOk()
    ensures j.Ok()
  {
  }

  lemma JobWellFormed(f: Fun, ms: seq<Match>)
    requires Suitable(f)
    ensures JobOf(f, ms).WellFormed()
  {
    hide Collected, Ids, Distinct, IsUser, Unshadowed, Void;
    RisingParts([f.at], Offsets(f.body));
    RisingDistinct(f.body);
  }

  lemma OneRecordEach(f: Fun, ms: seq<Match>)
    requires Exact(f, ms, Collected(ms, f))
    ensures DistinctStages(JobOf(f, ms).ss)
  {
    hide Collected, RecordExact;
  }

  lemma JobTableOk(f: Fun, ms: seq<Match>)
    requires Suitable(f) && DistinctStages(JobOf(f, ms).ss)
    requires forall id :: id in Ids(f.body) ==> StageNo(JobOf(f, ms).ss, id) > 0
    requires
      var ss := JobOf(f, ms).ss;
      forall i :: 0 <= i < |ss| ==>
        && ss[i].aw in Ids(f.body)
        && Home(f.body, NamesOf(f.params), ss[i].aw).Some?
        && Lists(ss[i].vars, Home(f.body, NamesOf(f.params), ss[i].aw).value.names)
    ensures JobOf(f, ms).TableOk()
  {
    hide Collected, Ids, StageNo, Home, Lists, Located, IsUser, Void, Unshadowed;
    NoMoreThan(JobOf(f, ms).ss, Ids(f.body));
  }

  lemma RecordsList(f: Fun, ms: seq<Match>)
    requires Suitable(f) && Delivered(f, ms) && Exact(f, ms, Collected(ms, f))
    ensures
      var ss := JobOf(f, ms).ss;
      forall i :: 0 <= i < |ss| ==>
        && ss[i].aw in Ids(f.body)
        && Home(f.body, NamesOf(f.params), ss[i].aw).Some?
        && Lists(ss[i].vars, Home(f.body, NamesOf(f.params), ss[i].aw).value.names)
  {
    hide Collected, Home, Ids, Suitable, Delivered, RecordExact, Lists;
    var rs := Collected(ms, f);
    forall i | 0 <= i < |rs|
      ensures rs[i].aw in Ids(f.body)
      ensures Home(f.body, NamesOf(f.params), rs[i].aw).Some?
      ensures Lists(NamesOf(rs[i].vars), Home(f.body, NamesOf(f.params), rs[i].aw).value.names)
    {
      assert RecordExact(f, ms, rs[i]);
      RecordLists(f, ms, rs[i]);
    }
  }

  lemma AllNumbered(f: Fun, ms: seq<Match>)
    requires Delivered(f, ms) && Exact(f, ms, Collected(ms, f))
    ensures forall id :: id in Ids(f.body) ==> StageNo(JobOf(f, ms).ss, id) > 0
  {
    hide Collected, Ids, RecordExact;
    var ss, rs := JobOf(f, ms).ss, Collected(ms, f);
    forall id | id in Ids(f.body) ensures StageNo(ss, id) > 0 {
      var m := Match(f, id, if Variables(f) == [] then None else Some(Variables(f)[0]));
      assert Variables(f) != [] ==> Variables(f)[0] in Variables(f);
      assert m in multiset(ms) || m in ms;
      assert IndexOf(rs, m.aw) < |rs|;
      assert ss[IndexOf(rs, id)].aw == id;
    }
  }

  lemma {:induction false} NoMoreThan(ss: seq<Stage>, ids: set<nat>)
    requires DistinctStages(ss) && forall i :: 0 <= i < |ss| ==> ss[i].aw in ids
    ensures |ss| <= |ids|
    decreases |ss|
  {
    if ss != [] {
      var k := |ss| - 1;
      NoMoreThan(ss[..k], ids - {ss[k].aw});
    }
  }
}
