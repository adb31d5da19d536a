/**
Sleep locks: `locked` and `pid` are only touched under the spin lock inside the sleep lock, and a process that finds
it locked sleeps on the lock's address. Sleeping and waking are the monitor steps that Sleep.RunRefines justifies.
*/
module SleepLock {
  datatype Pc = Idle | Trying | Waiting | Woken | Owner | Leaving

  /** spin: who holds lk->lk, -1 for nobody. Process t has pid t + 1. */
  datatype State = State(pc: seq<Pc>, spin: int, locked: bool, pid: nat)

  datatype Step =
    | Lock(t: nat)        // acquire(&lk->lk): on the way in, on the way out, or on waking up
    | Test(t: nat)        // acquiresleep's loop test with what follows it
    | Drop(t: nat)        // releasesleep's critical section
    | Rouse(t: nat)       // kill, or a wakeup by another user of the channel

  predicate HoldsSpin(p: Pc) { p.Trying? || p.Leaving? }

  predicate Owns(p: Pc) { p.Owner? || p.Leaving? }

  predicate Enabled(s: State, step: Step) {
    && step.t < |s.pc|
    && var p := s.pc[step.t];
    match step
    case Lock(t) => s.spin == -1 && (p.Idle? || p.Woken? || p.Owner?)
    case Test(t) => p.Trying?
    case Drop(t) => p.Leaving?
    case Rouse(t) => p.Waiting?
  }

  function WakeAll(pc: seq<Pc>): (r: seq<Pc>)
    ensures |r| == |pc| && forall i :: 0 <= i < |r| ==> r[i] == if pc[i].Waiting? then Woken else pc[i]
  {
    seq(|pc|, i requires 0 <= i < |pc| => if pc[i].Waiting? then Woken else pc[i])
  }

  function Apply(s: State, step: Step): State
    requires Enabled(s, step)
  {
    match step
    case Lock(t) => s.(pc := s.pc[t := if s.pc[t].Owner? then Leaving else Trying], spin := t)
    case Test(t) =>
      if s.locked then s.(pc := s.pc[t := Waiting], spin := -1)
      else State(s.pc[t := Owner], -1, true, t + 1)
    case Drop(t) => State(WakeAll(s.pc)[t := Idle], -1, false, 0)
    case Rouse(t) => s.(pc := s.pc[t := Woken])
  }

  function Init(n: nat): State {
    State(seq(n, _ => Idle), -1, false, 0)
  }

  ghost predicate Inv(s: State) {
    && -1 <= s.spin < |s.pc|
    && (forall t :: 0 <= t < |s.pc| ==> (HoldsSpin(s.pc[t]) <==> s.spin == t))
    && (forall t :: 0 <= t < |s.pc| ==> (Owns(s.pc[t]) <==> s.locked && s.pid == t + 1))
    && (s.locked ==> 1 <= s.pid <= |s.pc|)
    && (!s.locked ==> forall t :: 0 <= t < |s.pc| ==> !s.pc[t].Waiting?)
  }

  predicate IsRun(s: State, steps: seq<Step>)
    decreases |steps|
  {
    steps == [] || (Enabled(s, steps[0]) && IsRun(Apply(s, steps[0]), steps[1..]))
  }

  function Run(s: State, steps: seq<Step>): State
    requires IsRun(s, steps)
    decreases |steps|
  {
    if steps == [] then s else Run(Apply(s, steps[0]), steps[1..])
  }

  lemma StepKeepsInv(s: State, step: Step)
    requires Inv(s) && Enabled(s, step)
    ensures Inv(Apply(s, step)) && |Apply(s, step).pc| == |s.pc|
  {
  }

  /** Where a step takes the process that makes it, and the spin lock with it; only releasesleep moves anybody else. */
  lemma StepMoves(s: State, step: Step)
    requires Inv(s) && Enabled(s, step)
    ensures var r, p, q := Apply(s, step), s.pc[step.t], Apply(s, step).pc[step.t];
      && (step.Lock? ==> r.spin == step.t && q == if p == Owner then Leaving else Trying)
      && (step.Test? ==> r.spin == -1 && q == if exists u :: 0 <= u < |s.pc| && Owns(s.pc[u]) then Waiting else Owner)
      && (step.Drop? ==> r.spin == -1 && q == Idle)
      && (step.Rouse? ==> r.spin == s.spin && q == Woken)
      && (forall u :: 0 <= u < |s.pc| && u != step.t ==>
            r.pc[u] == if step.Drop? && s.pc[u] == Waiting then Woken else s.pc[u])
  {
    if s.locked { assert Owns(s.pc[s.pid - 1]); }
  }

  lemma {:induction false} RunKeepsInv(s: State, steps: seq<Step>)
    requires Inv(s) && IsRun(s, steps)
    ensures Inv(Run(s, steps)) && |Run(s, steps).pc| == |s.pc|
    decreases |steps|
  {
    if steps != [] {
      StepKeepsInv(s, steps[0]);
      RunKeepsInv(Apply(s, steps[0]), steps[1..]);
    }
  }

  /** One owner at a time, and it is the one `pid` names; nobody sleeps on a lock that is free. */
  lemma AtMostOneOwner(n: nat, steps: seq<Step>, t: nat, u: nat)
    requires IsRun(Init(n), steps) && t < n && u < n
    ensures var s := Run(Init(n), steps);
      && |s.pc| == n
      && (Owns(s.pc[t]) && Owns(s.pc[u]) ==> t == u)
      && (Owns(s.pc[t]) <==> s.locked && s.pid == t + 1)
      && (s.pc[t].Waiting? ==> exists o :: 0 <= o < n && Owns(s.pc[o]))
  {
    RunKeepsInv(Init(n), steps);
    var s := Run(Init(n), steps);
    if s.locked { assert Owns(s.pc[s.pid - 1]); }
  }

  /** While the lock has no owner, whoever wants it can go on: one step of theirs is enabled, or of the spin holder. */
  lemma FreeLockIsTaken(n: nat, steps: seq<Step>, t: nat)
    requires IsRun(Init(n), steps) && t < n
    requires var s := Run(Init(n), steps);
      |s.pc| == n && !s.locked && (s.pc[t].Trying? || s.pc[t].Waiting? || s.pc[t].Woken?)
    ensures var s := Run(Init(n), steps);
      || (Enabled(s, Test(t)) && Owns(Apply(s, Test(t)).pc[t]))
      || Enabled(s, Lock(t))
      || exists u :: 0 <= u < n && u != t && Enabled(s, Test(u)) && Owns(Apply(s, Test(u)).pc[u])
  {
    RunKeepsInv(Init(n), steps);
    var s := Run(Init(n), steps);
    if s.spin != -1 {
      assert HoldsSpin(s.pc[s.spin]) && !Owns(s.pc[s.spin]);
      assert Enabled(s, Test(s.spin)) && Owns(Apply(s, Test(s.spin)).pc[s.spin]);
    }
  }

  /** struct sleeplock; each method runs with the spin lock held, as its caller's pc says. */
  class Sleeplock {
    var locked: bool
    var pid: nat
    ghost var s: State

    ghost predicate Valid()
      reads this
    {
      Inv(s) && s.locked == locked && s.pid == pid
    }

    constructor (ghost n: nat)
      ensures Valid() && s == Init(n)
    {
      locked, pid := false, 0;
      s := Init(n);
    }

    /** One turn of acquiresleep's loop; false means the caller went to sleep. */
    method Acquire(t: nat) returns (got: bool)
      requires Valid() && Enabled(s, Test(t))
      modifies this
      ensures Valid() && old(Enabled(s, Test(t))) && s == Apply(old(s), Test(t))
      ensures got <==> Owns(s.pc[t])
      ensures got <==> forall u :: 0 <= u < |old(s).pc| ==> !Owns(old(s).pc[u])
    {
      StepKeepsInv(s, Test(t));
      assert locked ==> Owns(s.pc[s.pid - 1]);
      got := !locked;
      if got { locked, pid := true, t + 1; }
      s := Apply(s, Test(t));
    }

    method Release(ghost t: nat)
      requires Valid() && Enabled(s, Drop(t))
      modifies this
      ensures Valid() && old(Enabled(s, Drop(t))) && s == Apply(old(s), Drop(t))
      ensures forall u :: 0 <= u < |s.pc| ==> !Owns(s.pc[u]) && !s.pc[u].Waiting?
    {
      StepKeepsInv(s, Drop(t));
      locked, pid := false, 0;
      s := Apply(s, Drop(t));
    }

    /** holdingsleep. */
    method Holding(t: nat) returns (r: bool)
      requires Valid() && t < |s.pc|
      ensures r <==> Owns(s.pc[t])
    {
      r := locked && pid == t + 1;
    }
  }
}
