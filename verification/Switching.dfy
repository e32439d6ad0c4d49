/** Two cooperating tasks that count their turns: as coroutines resumed by a driver, and as fibers
    under a scheduler. */
module Switching {
  import opened Wire

  // ----- coroutines -----

  datatype Pc = AtStart | Awaiting | AtEnd

  /** A coroutine with its promise: where it continues, its counter, the coroutine recorded to
      continue with, and its result. */
  class Task {
    var pc: Pc
    var c: nat
    var next: Task?
    var val: Option<nat>

    constructor ()
      ensures pc == AtStart && c == 0 && next == null && val == None
    {
      pc, c, next, val := AtStart, 0, null, None;
    }
  }

  /** The two tasks and the variable they share. */
  class Pair {
    const f1: Task
    const f2: Task
    var n: int

    constructor (n: int)
      ensures fresh(f1) && fresh(f2) && f1 != f2 && this.n == n
      ensures f1.pc == AtStart && f1.c == 0 && f2.pc == AtStart && f2.c == 0
    {
      f1 := new Task();
      f2 := new Task();
      this.n := n;
    }

    /** One turn of the timer: count, and end the loop if the shared number was zero before it was
        decremented; else suspend, which returns to the driver. */
    method ResumeTimer()
      requires f2.pc != AtEnd
      modifies this, f2
      ensures n == old(n) - 1
      ensures f2.c == old(f2.c) + 1
      ensures f2.pc == if old(n) == 0 then AtEnd else Awaiting
      ensures old(n) == 0 ==> f2.val == Some(f2.c)
      ensures f2.next == old(f2.next)
    {
      f2.c := f2.c + 1;
      var was := n;
      n := n - 1;
      if was != 0 {
        f2.pc := Awaiting;
      } else {
        f2.val := Some(f2.c);
        f2.pc := AtEnd;
      }
    }

    /** One resumption of the counter: count; if the timer is done, finish; else record itself with
        the timer and pass control on to it. */
    method ResumeCounter()
      requires f1 != f2 && f1.pc != AtEnd
      modifies this, f1, f2
      ensures f1.c == old(f1.c) + 1
      ensures old(f2.pc) == AtEnd ==>
        f1.pc == AtEnd && f1.val == Some(f1.c) && n == old(n) && f2.pc == AtEnd && f2.c == old(f2.c)
            && f2.val == old(f2.val)
      ensures old(f2.pc) != AtEnd ==>
        && f1.pc == Awaiting && f2.next == f1 && n == old(n) - 1 && f2.c == old(f2.c) + 1
        && f2.pc == (if old(n) == 0 then AtEnd else Awaiting)
        && (old(n) == 0 ==> f2.val == Some(f2.c))
    {
      f1.c := f1.c + 1;
      if f2.pc == AtEnd {
        f1.val := Some(f1.c);
        f1.pc := AtEnd;
      } else {
        f1.pc := Awaiting;
        f2.next := f1;
        ResumeTimer();
      }
    }
  }

  /** Resuming the counter until it is done takes exactly n + 2 resumptions; the counter ends with
      n + 2 and the timer with n + 1. */
  method Coro2(n: nat) returns (resumes: nat, r1: Option<nat>, r2: Option<nat>)
    ensures resumes == n + 2 && r1 == Some(n + 2) && r2 == Some(n + 1)
  {
    var p := new Pair(n);
    resumes := 0;
    while p.f1.pc != AtEnd
      invariant fresh(p) && fresh(p.f1) && fresh(p.f2) && p.f1 != p.f2
      invariant p.f1.pc == AtEnd ==> resumes == n + 2 && p.f1.val == Some(n + 2)
      invariant p.f1.pc != AtEnd ==> p.f1.c == resumes <= n + 1 && p.f2.c == resumes && p.n == n - resumes
      invariant p.f2.pc == AtEnd <==> resumes >= n + 1
      invariant p.f2.pc == AtEnd ==> p.f2.val == Some(n + 1)
      decreases n + 2 - resumes
    {
      p.ResumeCounter();
      resumes := resumes + 1;
    }
    r1, r2 := p.f1.val, p.f2.val;
  }

  // ----- fibers -----

  datatype Fiber = First | Second

  /** Counters, the shared number, and which fibers have finished. */
  datatype Fibers = Fibers(c1: nat, c2: nat, n: int, done1: bool, done2: bool)

  /** One turn of a fiber, up to its next yield or its end; a finished fiber is not scheduled. */
  function Turn(s: Fibers, f: Fiber): Fibers {
    match f
    case First =>
      if s.done1 then s
      else s.(c1 := s.c1 + 1, done1 := !(s.n >= 0))
    case Second =>
      if s.done2 then s
      else s.(c2 := s.c2 + 1, done2 := s.n == 0, n := s.n - 1)
  }

  function Turns(n: int, order: nat -> Fiber, k: nat): Fibers {
    if k == 0 then Fibers(0, 0, n, false, false) else Turn(Turns(n, order, k - 1), order(k - 1))
  }

  /** Under every schedule the second fiber has taken one turn per decrement, it finishes on its
      turn n + 1, and the first finishes only after it, on its first turn after that. */
  lemma {:induction false} AnySchedule(n: nat, order: nat -> Fiber, k: nat)
    ensures
      var s := Turns(n, order, k);
      && s.n == n - s.c2 && s.c2 <= n + 1
      && (s.done2 <==> s.c2 == n + 1)
      && (s.done1 ==> s.done2)
      && (s.done2 ==> Turn(s, First).done1)
  {
    if k > 0 { AnySchedule(n, order, k - 1); }
  }

  /** Strict alternation, starting with the first fiber. */
  function Alternating(k: nat): Fiber { if k % 2 == 0 then First else Second }

  lemma {:induction false} Alternate(n: nat, k: nat)
    requires k <= n + 1
    ensures Turns(n, Alternating, 2 * k) == Fibers(k, k, n - k, false, k == n + 1)
  {
    if k > 0 {
      Alternate(n, k - 1);
      var s := Turns(n, Alternating, 2 * k - 2);
      assert Alternating(2 * k - 2) == First && Alternating(2 * k - 1) == Second;
      assert Turns(n, Alternating, 2 * k - 1) == Turn(s, First);
      assert Turns(n, Alternating, 2 * k) == Turn(Turn(s, First), Second);
    }
  }

  /** Under strict alternation both finish, with the counts of the coroutine version: n + 2 and
      n + 1, and not a turn earlier. */
  lemma RoundRobin(n: nat)
    ensures Turns(n, Alternating, 2 * n + 3) == Fibers(n + 2, n + 1, -1, true, true)
    ensures !Turns(n, Alternating, 2 * n + 2).done1
  {
    Alternate(n, n + 1);
    assert Alternating(2 * n + 2) == First;
    assert Turns(n, Alternating, 2 * n + 3) == Turn(Turns(n, Alternating, 2 * n + 2), First);
  }

  /** A negative start never lets the second fiber finish. */
  lemma {:induction false} NegativeNeverEnds(n: int, order: nat -> Fiber, k: nat)
    requires n < 0
    ensures !Turns(n, order, k).done2 && Turns(n, order, k).n < 0
  {
    if k > 0 { NegativeNeverEnds(n, order, k - 1); }
  }
}
