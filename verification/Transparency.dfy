/** What the simulation means for whole runs. */
module Transparency {
  import opened Wire
  import opened Language
  import opened Points
  import opened Rewrite
  import opened Restore
  import opened Runs
  import opened Simulation

  /** Lockstep: at every moment of the migrating run, the original shows the same outputs and the
      same await events after a number of moves between an eighth of that and all of it, and each
      has finished, with the same result, exactly if the other has. */
  lemma MigrationTransparent(j: Job, args: seq<int>, answer: nat -> int, moves: nat -> bool, m: nat)
    returns (n: nat)
    requires j.Ok() && |args| == |j.params|
    ensures
      var s := j.Original(answer).Run(OriginalStart(j, args), n);
      var t := j.Migrating(answer, moves).Run(MigratingStart(j, args), m);
      && n <= m <= 8 * n + 7
      && t.trace == s.trace && t.asked == s.asked
      && (Over(t) || Over(s) ==> t.status == s.status)
      && (t.status.Suspended? ==> s.status.Suspended? && t.env == s.env)
  {
    StartRelated(j, answer, args);
    var ph;
    n, ph := KeepsRelated(j, answer, moves, Booting(0), OriginalStart(j, args), MigratingStart(j, args), m);
  }

  /** Finished runs: the migrating run ends in a status with a trace exactly if the original does.
      This includes faults, that is, reading a local that is out of scope or uninitialized. */
  lemma SameOutcome(j: Job, args: seq<int>, answer: nat -> int, moves: nat -> bool, st: Status, trace: seq<Event>)
    requires j.Ok() && |args| == |j.params| && (st.Done? || st.Fault?)
    ensures
      (exists n: nat :: Ends(j.Original(answer), OriginalStart(j, args), n, st, trace)) <==>
      (exists m: nat :: Ends(j.Migrating(answer, moves), MigratingStart(j, args), m, st, trace))
  {
    var w, s0 := j.Original(answer), OriginalStart(j, args);
    var w', t0 := j.Migrating(answer, moves), MigratingStart(j, args);
    if n: nat :| Ends(w, s0, n, st, trace) {
      var m := 8 * n + 15;
      var n' := MigrationTransparent(j, args, answer, moves, m);
      OverStays(w, s0, n, n');
      assert Ends(w', t0, m, st, trace);
    }
    if m: nat :| Ends(w', t0, m, st, trace) {
      var n := MigrationTransparent(j, args, answer, moves, m);
      assert Ends(w, s0, n, st, trace);
    }
  }

  ghost predicate Ends(w: World, c: Config, n: nat, st: Status, trace: seq<Event>) {
    w.Run(c, n).status == st && w.Run(c, n).trace == trace
  }

  /** Runs that need not end: everything the original shows the migrating run shows, and
      everything the migrating run shows the original shows. */
  lemma SameEvents(j: Job, args: seq<int>, answer: nat -> int, moves: nat -> bool, k: nat)
    requires j.Ok() && |args| == |j.params|
    ensures
      var s, t := j.Original(answer).Run(OriginalStart(j, args), k),
          j.Migrating(answer, moves).Run(MigratingStart(j, args), 8 * k + 8);
      s.trace <= t.trace
    ensures
      var s, t := j.Original(answer).Run(OriginalStart(j, args), k),
          j.Migrating(answer, moves).Run(MigratingStart(j, args), k);
      t.trace <= s.trace
  {
    var w, s0 := j.Original(answer), OriginalStart(j, args);
    var n := MigrationTransparent(j, args, answer, moves, 8 * k + 8);
    TraceGrows(w, s0, k, n);
    n := MigrationTransparent(j, args, answer, moves, k);
    TraceGrows(w, s0, n, k);
  }

  /** On bodies whose awaits all discard their results, both schemes end the same way, wherever
      either of them is moved. */
  lemma SchemesAgree(emitted: Job, carrying: Job, args: seq<int>, answer: nat -> int,
                     moves: nat -> bool, moves': nat -> bool, st: Status, trace: seq<Event>)
    requires emitted.Ok() && emitted.style.Emitted? && carrying.Ok() && carrying.style.Carrying?
    requires emitted.body == carrying.body && emitted.params == carrying.params
    requires |args| == |emitted.params| && (st.Done? || st.Fault?)
    ensures
      (exists m: nat :: Ends(emitted.Migrating(answer, moves), MigratingStart(emitted, args), m, st, trace)) <==>
      (exists m: nat :: Ends(carrying.Migrating(answer, moves'), MigratingStart(carrying, args), m, st, trace))
  {
    SameOutcome(emitted, args, answer, moves, st, trace);
    SameOutcome(carrying, args, answer, moves', st, trace);
    assert OriginalStart(emitted, args) == OriginalStart(carrying, args);
    forall n: nat
      ensures emitted.Original(answer).Run(OriginalStart(emitted, args), n)
           == carrying.Original(answer).Run(OriginalStart(carrying, args), n)
    {
      SameOriginal(emitted, carrying, answer, OriginalStart(emitted, args), n);
    }
    forall n: nat
      ensures Ends(emitted.Original(answer), OriginalStart(emitted, args), n, st, trace)
         <==> Ends(carrying.Original(answer), OriginalStart(carrying, args), n, st, trace)
    {
    }
  }

  lemma {:induction false} SameOriginal(j: Job, j': Job, answer: nat -> int, c: Config, n: nat)
    requires j.body == j'.body && j.params == j'.params
    ensures j.Original(answer).Run(c, n) == j'.Original(answer).Run(c, n)
  {
    if n > 0 {
      SameOriginal(j, j', answer, c, n - 1);
    }
  }

  // ----- the promise's state along a run -----

  /** At every suspension, in a locally started frame and in a rebuilt one alike, the state names
      the stage of that very await and holds the current values of exactly the locals in scope. */
  lemma StateInSync(j: Job, args: seq<int>, answer: nat -> int, moves: nat -> bool, m: nat)
    requires j.Ok() && |args| == |j.params|
    requires j.Migrating(answer, moves).Run(MigratingStart(j, args), m).status.Suspended?
    ensures
      var t := j.Migrating(answer, moves).Run(MigratingStart(j, args), m);
      && AtAwait(t)
      && var n := StageNo(j.ss, t.stack.code.head.at);
         && n > 0 && StageOf(t.prom.state) == n
         && LookupAll(t.env, j.ss[n - 1].vars) == Some(ValuesOf(t.prom.state))
         && Lists(j.ss[n - 1].vars, Names(t.env))
  {
    StartRelated(j, answer, args);
    var n, ph := KeepsRelated(j, answer, moves, Booting(0), OriginalStart(j, args), MigratingStart(j, args), m);
    var s := j.Original(answer).Run(OriginalStart(j, args), n);
    var t := j.Migrating(answer, moves).Run(MigratingStart(j, args), m);
    assert Related(j, answer, Waiting, s, t);
    hide World.Run, OnTrack, Find, Resume;
    PieceResume(j, s, t, 0);
    StageOfReached(j, s);
    StateRoundTrip(StageHere(j, s), LookupAll(s.env, j.ss[StageHere(j, s) - 1].vars).value);
  }

  /** In the value-carrying scheme every hop makes exactly one await be bypassed, the one it was
      suspended at, before anything else is asked: at each suspension and at the end the bypassed
      awaits are exactly those hopped at, in order, so all others were really executed. */
  lemma ResultsUsedOnce(j: Job, args: seq<int>, answer: nat -> int, moves: nat -> bool, m: nat)
    requires j.Ok() && |args| == |j.params| && j.style.Carrying?
    ensures
      var t := j.Migrating(answer, moves).Run(MigratingStart(j, args), m);
      && (t.status.Running? ==>
          t.hopped == t.taken || (t.hopped != [] && t.hopped == t.taken + [t.hopped[|t.hopped| - 1]]))
      && (!t.status.Running? ==> t.hopped == t.taken)
  {
    StartRelated(j, answer, args);
    var n, ph := KeepsRelated(j, answer, moves, Booting(0), OriginalStart(j, args), MigratingStart(j, args), m);
  }

  /** From a suspension, three moves reach the label, the load, and the code after it.  The load
      fires, and no local changes. */
  ghost predicate ReloadsSameLocals(t: Config, t1: Config, t2: Config, t3: Config) {
    && t1.stack.Push? && t1.stack.code.Then? && t1.stack.code.head.Label?
    && t2.stack.Push? && t2.stack.code.Then? && t2.stack.code.head.Load?
    && t2.prom.aw != []
    && UpdateAll(t2.env, t2.stack.code.head.vars, ValuesOf(t2.prom.state)) == Some(t3.env)
    && t1.env == t.env && t2.env == t.env && t3.env == t.env
  }

  /** In the emitted scheme, resuming in place runs into the label and a load that really loads,
      because the awaiter is still stored; the load changes no local. */
  lemma LocalLoadIsIdentity(j: Job, args: seq<int>, answer: nat -> int, moves: nat -> bool, m: nat)
    requires j.Ok() && |args| == |j.params| && j.style.Emitted?
    requires j.Migrating(answer, moves).Run(MigratingStart(j, args), m).status.Suspended?
    requires !moves(j.Migrating(answer, moves).Run(MigratingStart(j, args), m).asked)
    ensures ReloadsSameLocals(
              j.Migrating(answer, moves).Run(MigratingStart(j, args), m),
              j.Migrating(answer, moves).Run(MigratingStart(j, args), m + 1),
              j.Migrating(answer, moves).Run(MigratingStart(j, args), m + 2),
              j.Migrating(answer, moves).Run(MigratingStart(j, args), m + 3))
  {
    StartRelated(j, answer, args);
    var n, ph := KeepsRelated(j, answer, moves, Booting(0), OriginalStart(j, args), MigratingStart(j, args), m);
    var s := j.Original(answer).Run(OriginalStart(j, args), n);
    var w, t0 := j.Migrating(answer, moves), MigratingStart(j, args);
    assert ph == Waiting;
    LocalResume(j, answer, moves, s, w.Run(t0, m));
    hide World.Next, Related;
    assert w.Run(t0, m + 1) == w.Next(w.Run(t0, m));
    assert w.Run(t0, m + 2) == w.Next(w.Run(t0, m + 1));
    assert w.Run(t0, m + 3) == w.Next(w.Run(t0, m + 2));
  }

  lemma LocalResume(j: Job, answer: nat -> int, moves: nat -> bool, s: Config, t: Config)
    requires j.Ok() && j.style.Emitted?
    requires Related(j, answer, Waiting, s, t) && !moves(t.asked)
    ensures
      var t1 := j.Migrating(answer, moves).Next(t);
      var t2 := j.Migrating(answer, moves).Next(t1);
      ReloadsSameLocals(t, t1, t2, j.Migrating(answer, moves).Next(t2))
  {
    var t1 := j.Migrating(answer, moves).Next(t);
    var t2 := j.Migrating(answer, moves).Next(t1);
    PieceStacks(j, s);
    VoidHere(j, s);
    PieceResume(j, s, t, answer(t.asked));
    assert t1 == t.(status := Running, stack := Piece(j, s, 2));
    PieceStep(j, s, t1, 2);
    assert t2 == t1.(stack := Piece(j, s, 3));
    LoadStep(j, s, t2);
    PieceStep(j, s, t2, 3);
  }
}
