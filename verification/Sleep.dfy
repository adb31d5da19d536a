/**
sleep() and wakeup() one lock operation at a time, for any number of processes, channels and spin locks. The protocol
is shown to refine a monitor in which falling asleep and giving up the lock are a single step, and in which a
broadcast by the holder of the lock leaves nobody asleep.
*/
module Sleep {
  datatype PState = RUNNING | SLEEPING | RUNNABLE

  /** Where a process is in sleep(chan, lk) or wakeup(chan). */
  datatype Pc =
    | Kernel                          // anywhere else
    | Locked(chan: nat, lk: nat)      // sleep: holds lk and its own p->lock
    | Released(chan: nat, lk: nat)    // sleep: has released lk, not yet marked SLEEPING
    | Out(chan: nat, lk: nat)         // sleep: in sched(), or switched out
    | Back(lk: nat)                   // sleep: scheduled again, has p->lock
    | Relock(lk: nat)                 // sleep: waiting to reacquire lk
    | Scan(chan: nat, i: nat)         // wakeup: about to look at proc[i]
    | Look(chan: nat, i: nat)         // wakeup: holds proc[i].lock

  datatype Proc = Proc(pc: Pc, state: PState, chan: nat, guard: int)    // guard: who holds p->lock, or -1

  /** holder[l] is the process that holds spin lock l, or -1. */
  datatype State = State(procs: seq<Proc>, holder: seq<int>)

  datatype Step =
    | Acquire(t: nat, lk: nat)
    | Release(t: nat, lk: nat)
    | LockSelf(t: nat)                // acquire(&p->lock) outside sleep, as thread_exit does around wakeup
    | UnlockSelf(t: nat)
    | SleepLock(t: nat, chan: nat, lk: nat)
    | SleepRelease(t: nat)
    | SleepMark(t: nat)
    | SwitchOut(t: nat)               // the scheduler releases p->lock
    | SwitchIn(t: nat)                // the scheduler picks a RUNNABLE process
    | SleepDone(t: nat)
    | Reacquire(t: nat)
    | WakeCall(t: nat, chan: nat)
    | WakeLock(t: nat)
    | WakeTest(t: nat)
    | WakeSkip(t: nat)
    | WakeReturn(t: nat)
    | Kill(q: nat)

  function Mover(step: Step): nat { if step.Kill? then step.q else step.t }

  /** Holding any lock but lk in sched() is a panic, so sleep's caller holds lk only. */
  predicate HoldsOnly(s: State, t: nat, lk: nat) {
    lk < |s.holder| && forall l :: 0 <= l < |s.holder| ==> (s.holder[l] == t <==> l == lk)
  }

  predicate Enabled(s: State, step: Step) {
    && Mover(step) < |s.procs|
    && var p := s.procs[Mover(step)];
    match step
    case Acquire(t, lk) => p.pc.Kernel? && lk < |s.holder| && s.holder[lk] == -1
    case Release(t, lk) => p.pc.Kernel? && lk < |s.holder| && s.holder[lk] == t
    case LockSelf(t) => p.pc.Kernel? && p.guard == -1
    case UnlockSelf(t) => p.pc.Kernel? && p.guard == t
    case SleepLock(t, chan, lk) => p.pc.Kernel? && HoldsOnly(s, t, lk) && p.guard == -1
    case SleepRelease(t) => p.pc.Locked? && p.pc.lk < |s.holder|
    case SleepMark(t) => p.pc.Released?
    case SwitchOut(t) => p.pc.Out? && p.guard == t
    case SwitchIn(t) => p.pc.Out? && p.state.RUNNABLE? && p.guard == -1
    case SleepDone(t) => p.pc.Back?
    case Reacquire(t) => p.pc.Relock? && p.pc.lk < |s.holder| && s.holder[p.pc.lk] == -1
    case WakeCall(t, chan) => p.pc.Kernel?
    case WakeLock(t) => p.pc.Scan? && p.pc.i < |s.procs| && p.pc.i != t && s.procs[p.pc.i].guard == -1
    case WakeTest(t) => p.pc.Look? && p.pc.i < |s.procs| && p.pc.i != t
    case WakeSkip(t) => p.pc.Scan? && p.pc.i == t
    case WakeReturn(t) => p.pc.Scan? && p.pc.i >= |s.procs|
    case Kill(q) => p.guard == -1
  }

  function Set(s: State, t: nat, p: Proc): State
    requires t < |s.procs|
  {
    s.(procs := s.procs[t := p])
  }

  function Take(s: State, lk: nat, t: int): State
    requires lk < |s.holder|
  {
    s.(holder := s.holder[lk := t])
  }

  /** The body of wakeup's loop, also what kill does to a sleeping victim when `all` is set. */
  function Roused(q: Proc, chan: nat, all: bool): Proc {
    if q.state.SLEEPING? && (all || q.chan == chan) then q.(state := RUNNABLE) else q
  }

  function Apply(s: State, step: Step): State
    requires Enabled(s, step)
  {
    var p := s.procs[Mover(step)];
    match step
    case Acquire(t, lk) => Take(s, lk, t)
    case Release(t, lk) => Take(s, lk, -1)
    case LockSelf(t) => Set(s, t, p.(guard := t))
    case UnlockSelf(t) => Set(s, t, p.(guard := -1))
    case SleepLock(t, chan, lk) => Set(s, t, p.(guard := t, pc := Locked(chan, lk)))
    case SleepRelease(t) => Set(Take(s, p.pc.lk, -1), t, p.(pc := Released(p.pc.chan, p.pc.lk)))
    case SleepMark(t) => Set(s, t, p.(chan := p.pc.chan, state := SLEEPING, pc := Out(p.pc.chan, p.pc.lk)))
    case SwitchOut(t) => Set(s, t, p.(guard := -1))
    case SwitchIn(t) => Set(s, t, p.(guard := t, state := RUNNING, pc := Back(p.pc.lk)))
    case SleepDone(t) => Set(s, t, p.(chan := 0, guard := -1, pc := Relock(p.pc.lk)))
    case Reacquire(t) => Set(Take(s, p.pc.lk, t), t, p.(pc := Kernel))
    case WakeCall(t, chan) => Set(s, t, p.(pc := Scan(chan, 0)))
    case WakeLock(t) =>
      var q := s.procs[p.pc.i];
      Set(Set(s, p.pc.i, q.(guard := t)), t, p.(pc := Look(p.pc.chan, p.pc.i)))
    case WakeTest(t) =>
      var q := s.procs[p.pc.i];
      Set(Set(s, p.pc.i, Roused(q, p.pc.chan, false).(guard := -1)), t, p.(pc := Scan(p.pc.chan, p.pc.i + 1)))
    case WakeSkip(t) => Set(s, t, p.(pc := Scan(p.pc.chan, p.pc.i + 1)))
    case WakeReturn(t) => Set(s, t, p.(pc := Kernel))
    case Kill(q) => Set(s, q, Roused(p, 0, true))
  }

  function Init(n: nat, locks: nat): State {
    State(seq(n, _ => Proc(Kernel, RUNNING, 0, -1)), seq(locks, _ => -1))
  }

  predicate IsRun(s: State, steps: seq<Step>)
    decreases |steps|
  {
    steps == [] || (Enabled(s, steps[0]) && IsRun(Apply(s, steps[0]), steps[1..]))
  }

  function Run(s: State, steps: seq<Step>): State
    requires IsRun(s, steps)
    decreases |steps|
  {
    if steps == [] then s else Run(Apply(s, steps[0]), steps[1..])
  }

  // ----- The invariant -----

  /** In sleep(chan, lk) with lk given up and no wake-up seen. */
  predicate Dozing(p: Proc, chan: nat, lk: nat) {
    p.pc == Released(chan, lk) || (p.pc == Out(chan, lk) && p.state.SLEEPING?)
  }

  predicate OwnsGuard(p: Proc) { p.pc.Locked? || p.pc.Released? || p.pc.Back? }

  ghost predicate ProcOk(s: State, t: nat)
    requires t < |s.procs|
  {
    var p := s.procs[t];
    && -1 <= p.guard < |s.procs|
    && (OwnsGuard(p) ==> p.guard == t)
    && (p.pc.Locked? ==> HoldsOnly(s, t, p.pc.lk))
    && (p.pc.Released? || p.pc.Out? || p.pc.Back? || p.pc.Relock? ==>
          p.pc.lk < |s.holder| && forall l :: 0 <= l < |s.holder| ==> s.holder[l] != t)
    && (p.pc.Out? ==> !p.state.RUNNING?)
    && (p.pc.Out? && p.state.SLEEPING? ==> p.chan == p.pc.chan)
    && (!p.pc.Out? ==> p.state.RUNNING?)
    && (p.pc.Look? ==> p.pc.i < |s.procs| && p.pc.i != t && s.procs[p.pc.i].guard == t)
    && (p.guard != -1 && p.guard != t ==> s.procs[p.guard].pc.Look? && s.procs[p.guard].pc.i == t)
    && (p.pc.Scan? ==> p.pc.i <= |s.procs|)
  }

  /** Behind the scan of a waker that holds lk, nobody dozes on its channel. */
  ghost predicate ScanOk(s: State, t: nat, q: nat, lk: nat)
    requires t < |s.procs| && q < |s.procs| && lk < |s.holder|
  {
    var p := s.procs[t];
    (p.pc.Scan? || p.pc.Look?) && q < p.pc.i && s.holder[lk] == t ==> !Dozing(s.procs[q], p.pc.chan, lk)
  }

  ghost predicate Inv(s: State) {
    && (forall l :: 0 <= l < |s.holder| ==> -1 <= s.holder[l] < |s.procs|)
    && (forall t: nat {:trigger ProcOk(s, t)} :: t < |s.procs| ==> ProcOk(s, t))
    && (forall t: nat, q: nat, lk: nat {:trigger ScanOk(s, t, q, lk)} ::
          t < |s.procs| && q < |s.procs| && lk < |s.holder| ==> ScanOk(s, t, q, lk))
  }

  lemma InitInv(n: nat, locks: nat)
    ensures Inv(Init(n, locks))
  {
  }

  /** Processes other than the mover and the one it looks at are untouched. */
  lemma Untouched(s: State, step: Step, q: nat)
    requires Enabled(s, step) && q < |s.procs| && q != Mover(step)
    requires (step.WakeLock? || step.WakeTest?) ==> q != s.procs[Mover(step)].pc.i
    ensures |Apply(s, step).procs| == |s.procs| && Apply(s, step).procs[q] == s.procs[q]
    ensures |Apply(s, step).holder| == |s.holder|
  {
  }

  function At(pc: Pc): int { if pc.Scan? || pc.Look? then pc.i else -1 }

  predicate LooksAt(s: State, step: Step, q: nat) {
    (step.WakeLock? || step.WakeTest?) && step.t < |s.procs| && At(s.procs[step.t].pc) == q
  }

  /** What others do with the spin locks does not concern q. */
  lemma OthersLocks(s: State, step: Step, q: nat, l: nat)
    requires Inv(s) && Enabled(s, step) && q < |s.procs| && q != Mover(step) && l < |s.holder|
    ensures l < |Apply(s, step).holder| && (Apply(s, step).holder[l] == q <==> s.holder[l] == q)
  {
    assert ProcOk(s, Mover(step)) && ProcOk(s, q);
  }

  lemma OtherKept(s: State, step: Step, q: nat)
    requires Inv(s) && Enabled(s, step) && q < |s.procs| && q != Mover(step) && !LooksAt(s, step, q)
    ensures q < |Apply(s, step).procs| && ProcOk(Apply(s, step), q)
  {
    var t, r := Mover(step), Apply(s, step);
    assert ProcOk(s, t) && ProcOk(s, q);
    Untouched(s, step, q);
    forall l: nat | l < |s.holder| ensures r.holder[l] == q <==> s.holder[l] == q { OthersLocks(s, step, q, l); }
    OtherGuards(s, step, q);
  }

  lemma OtherGuards(s: State, step: Step, q: nat)
    requires Inv(s) && Enabled(s, step) && q < |s.procs| && q != Mover(step) && !LooksAt(s, step, q)
    requires |Apply(s, step).procs| == |s.procs| && Apply(s, step).procs[q] == s.procs[q]
    ensures var p, r := s.procs[q], Apply(s, step);
      && (p.pc.Look? ==> p.pc.i < |r.procs| && p.pc.i != q && r.procs[p.pc.i].guard == q)
      && (p.guard != -1 && p.guard != q ==> 0 <= p.guard < |r.procs| && r.procs[p.guard].pc.Look? && r.procs[p.guard].pc.i == q)
  {
    assert ProcOk(s, Mover(step)) && ProcOk(s, q);
    if s.procs[q].guard >= 0 { assert ProcOk(s, s.procs[q].guard); }
    if s.procs[q].pc.Look? { assert ProcOk(s, s.procs[q].pc.i); }
  }

  lemma LookedKept(s: State, step: Step, q: nat)
    requires Inv(s) && Enabled(s, step) && q < |s.procs| && LooksAt(s, step, q)
    ensures q < |Apply(s, step).procs| && ProcOk(Apply(s, step), q)
  {
    assert ProcOk(s, step.t) && ProcOk(s, q);
  }

  predicate IsSleepStep(step: Step) {
    || step.SleepLock? || step.SleepRelease? || step.SleepMark? || step.SwitchOut? || step.SwitchIn? || step.SleepDone?
    || step.Reacquire?
  }

  lemma SleeperKept(s: State, step: Step)
    requires Inv(s) && Enabled(s, step) && IsSleepStep(step)
    ensures step.t < |Apply(s, step).procs| && ProcOk(Apply(s, step), step.t)
  {
    assert ProcOk(s, step.t);
  }

  lemma WakerKept(s: State, step: Step)
    requires Inv(s) && Enabled(s, step) && !IsSleepStep(step)
    ensures Mover(step) < |Apply(s, step).procs| && ProcOk(Apply(s, step), Mover(step))
  {
    assert ProcOk(s, Mover(step));
  }

  /** Nobody begins to doze on lk except by giving lk up. */
  lemma DozesAnew(s: State, step: Step, q: nat, chan: nat, lk: nat)
    requires Inv(s) && Enabled(s, step) && q < |s.procs| && q < |Apply(s, step).procs|
    requires Dozing(Apply(s, step).procs[q], chan, lk)
    ensures Dozing(s.procs[q], chan, lk) || (q == Mover(step) && step.SleepRelease? && s.procs[q].pc == Locked(chan, lk))
  {
    assert ProcOk(s, q) && ProcOk(s, Mover(step));
    if q != Mover(step) && !LooksAt(s, step, q) { Untouched(s, step, q); }
  }

  /** A scan goes on, or has just begun; and it is past q only if it was, or has just looked at q, or is q's own. */
  lemma ScansOn(s: State, step: Step, t: nat, q: nat)
    requires Inv(s) && Enabled(s, step) && t < |s.procs| && t < |Apply(s, step).procs| && q < At(Apply(s, step).procs[t].pc)
    ensures At(s.procs[t].pc) >= 0 && Apply(s, step).procs[t].pc.chan == s.procs[t].pc.chan
    ensures q < At(s.procs[t].pc) || (t == Mover(step) && q == At(s.procs[t].pc) && (step.WakeTest? || step.WakeSkip?))
  {
    assert ProcOk(s, t) && ProcOk(s, Mover(step));
    if t != Mover(step) && !LooksAt(s, step, t) { Untouched(s, step, t); }
  }

  /** The lock that a scanning process holds it has held all along. */
  lemma ScannerHolds(s: State, step: Step, t: nat, lk: nat)
    requires Inv(s) && Enabled(s, step) && t < |s.procs| && At(s.procs[t].pc) >= 0
    requires lk < |s.holder| && lk < |Apply(s, step).holder| && Apply(s, step).holder[lk] == t
    ensures s.holder[lk] == t
  {
  }

  lemma ScanKept(s: State, step: Step, t: nat, q: nat, lk: nat)
    requires Inv(s) && Enabled(s, step) && t < |s.procs| && q < |s.procs| && lk < |s.holder|
    requires |Apply(s, step).procs| == |s.procs| && |Apply(s, step).holder| == |s.holder|
    ensures ScanOk(Apply(s, step), t, q, lk)
  {
    var r := Apply(s, step);
    var p := r.procs[t];
    if q < At(p.pc) && r.holder[lk] == t && Dozing(r.procs[q], p.pc.chan, lk) {
      ScansOn(s, step, t, q);
      ScannerHolds(s, step, t, lk);
      DozesAnew(s, step, q, p.pc.chan, lk);
      assert ScanOk(s, t, q, lk) && ProcOk(s, q) && ProcOk(s, t);
      ScanPasses(s, step, t, q, lk);
      assert false;
    }
  }

  /** The step in which t's scan passes q leaves q awake, if q dozed on its channel. */
  lemma ScanPasses(s: State, step: Step, t: nat, q: nat, lk: nat)
    requires Inv(s) && Enabled(s, step) && t < |s.procs| && q < |s.procs| && lk < |s.holder|
    requires |Apply(s, step).procs| == |s.procs| && s.holder[lk] == t && At(s.procs[t].pc) >= 0
    requires Dozing(s.procs[q], s.procs[t].pc.chan, lk) || s.procs[q].pc == Locked(s.procs[t].pc.chan, lk)
    requires t == Mover(step) && q == At(s.procs[t].pc) && (step.WakeTest? || step.WakeSkip?)
    ensures !Dozing(Apply(s, step).procs[q], s.procs[t].pc.chan, lk)
  {
    assert ProcOk(s, q) && ProcOk(s, t);
  }

  lemma ProcKept(s: State, step: Step, q: nat)
    requires Inv(s) && Enabled(s, step) && q < |s.procs|
    ensures q < |Apply(s, step).procs| && ProcOk(Apply(s, step), q)
  {
    if q != Mover(step) && !LooksAt(s, step, q) {
      OtherKept(s, step, q);
    } else if q != Mover(step) {
      LookedKept(s, step, q);
    } else if IsSleepStep(step) {
      SleeperKept(s, step);
    } else {
      WakerKept(s, step);
    }
  }

  lemma Sizes(s: State, step: Step)
    requires Inv(s) && Enabled(s, step)
    ensures |Apply(s, step).procs| == |s.procs| && |Apply(s, step).holder| == |s.holder|
    ensures forall l :: 0 <= l < |s.holder| ==> -1 <= Apply(s, step).holder[l] < |s.procs|
  {
  }

  lemma StepKeepsInv(s: State, step: Step)
    requires Inv(s) && Enabled(s, step)
    ensures Inv(Apply(s, step))
  {
    var r := Apply(s, step);
    Sizes(s, step);
    forall q: nat | q < |r.procs| ensures ProcOk(r, q) { ProcKept(s, step, q); }
    forall t: nat, q: nat, lk: nat | t < |r.procs| && q < |r.procs| && lk < |r.holder| ensures ScanOk(r, t, q, lk) {
      ScanKept(s, step, t, q, lk);
    }
  }

  lemma {:induction false} RunKeepsInv(s: State, steps: seq<Step>)
    requires Inv(s) && IsRun(s, steps)
    ensures Inv(Run(s, steps))
    decreases |steps|
  {
    if steps != [] {
      StepKeepsInv(s, steps[0]);
      RunKeepsInv(Apply(s, steps[0]), steps[1..]);
    }
  }

  // ----- Main results -----

  /** No lost wake-up: when wakeup(chan) returns to the holder of lk, nobody is left asleep in sleep(chan, lk). */
  lemma NoLostWakeup(n: nat, locks: nat, steps: seq<Step>, t: nat, lk: nat, q: nat)
    requires IsRun(Init(n, locks), steps) && Enabled(Run(Init(n, locks), steps), WakeReturn(t))
    requires var s := Run(Init(n, locks), steps); lk < |s.holder| && s.holder[lk] == t && q < |s.procs|
    ensures var s := Run(Init(n, locks), steps); !Dozing(s.procs[q], s.procs[t].pc.chan, lk)
  {
    InitInv(n, locks);
    RunKeepsInv(Init(n, locks), steps);
    var s := Run(Init(n, locks), steps);
    assert ScanOk(s, t, q, lk) && ProcOk(s, t);
  }

  /** sched() never panics: a process reaches it with its own lock and no spin lock, and not marked RUNNING. */
  lemma SchedIsSafe(n: nat, locks: nat, steps: seq<Step>, t: nat)
    requires IsRun(Init(n, locks), steps) && Enabled(Run(Init(n, locks), steps), SwitchOut(t))
    ensures var s := Run(Init(n, locks), steps);
      && s.procs[t].guard == t && !s.procs[t].state.RUNNING?
      && (forall l :: 0 <= l < |s.holder| ==> s.holder[l] != t)
      && forall q :: 0 <= q < |s.procs| && q != t ==> s.procs[q].guard != t
  {
    InitInv(n, locks);
    RunKeepsInv(Init(n, locks), steps);
    var s := Run(Init(n, locks), steps);
    assert ProcOk(s, t);
    forall q: nat | q < |s.procs| && q != t ensures s.procs[q].guard != t { assert ProcOk(s, q); }
  }

  // ----- What each lock operation does -----

  /** sleep() and the scheduler, for the process itself: where it goes, and what becomes of its state and its lock. */
  ghost predicate Sleeps(p: Proc, q: Proc, step: Step) {
    match step
    case SleepLock(t, chan, lk) => q == Proc(Locked(chan, lk), p.state, p.chan, t)
    case SleepRelease(t) => p.pc.Locked? && q == Proc(Released(p.pc.chan, p.pc.lk), p.state, p.chan, p.guard)
    case SleepMark(t) => p.pc.Released? && q == Proc(Out(p.pc.chan, p.pc.lk), SLEEPING, p.pc.chan, p.guard)
    case SwitchOut(t) => q == Proc(p.pc, p.state, p.chan, -1)
    case SwitchIn(t) => p.pc.Out? && q == Proc(Back(p.pc.lk), RUNNING, p.chan, t)
    case SleepDone(t) => p.pc.Back? && q == Proc(Relock(p.pc.lk), p.state, 0, -1)
    case Reacquire(t) => p.pc.Relock? && q == Proc(Kernel, p.state, p.chan, p.guard)
    case _ => true
  }

  /** wakeup() and kill(), for the process itself: each turn of the loop ends one slot further on. */
  ghost predicate Scans(p: Proc, q: Proc, step: Step) {
    match step
    case LockSelf(t) => q == Proc(p.pc, p.state, p.chan, t)
    case UnlockSelf(t) => q == Proc(p.pc, p.state, p.chan, -1)
    case WakeCall(t, chan) => q == Proc(Scan(chan, 0), p.state, p.chan, p.guard)
    case WakeLock(t) => p.pc.Scan? && q == Proc(Look(p.pc.chan, p.pc.i), p.state, p.chan, p.guard)
    case WakeTest(t) => p.pc.Look? && q == Proc(Scan(p.pc.chan, p.pc.i + 1), p.state, p.chan, p.guard)
    case WakeSkip(t) => p.pc.Scan? && q == Proc(Scan(p.pc.chan, p.pc.i + 1), p.state, p.chan, p.guard)
    case WakeReturn(t) => q == Proc(Kernel, p.state, p.chan, p.guard)
    case Kill(_) => q == Proc(p.pc, if p.state.SLEEPING? then RUNNABLE else p.state, p.chan, p.guard)
    case _ => true
  }

  lemma SleepsOn(s: State, step: Step)
    requires Enabled(s, step)
    ensures var m, r := Mover(step), Apply(s, step); m < |r.procs| && Sleeps(s.procs[m], r.procs[m], step)
  {
  }

  lemma ScansGoOn(s: State, step: Step)
    requires Enabled(s, step)
    ensures var m, r := Mover(step), Apply(s, step); m < |r.procs| && Scans(s.procs[m], r.procs[m], step)
  {
  }

  /** The process that wakeup is looking at: locked, then made RUNNABLE exactly if it sleeps on the channel, and unlocked. */
  lemma LooksAndWakes(s: State, step: Step)
    requires Enabled(s, step) && (step.WakeLock? || step.WakeTest?)
    ensures var p, r := s.procs[step.t].pc, Apply(s, step);
      && p.i < |r.procs| && r.procs[p.i].pc == s.procs[p.i].pc && r.procs[p.i].chan == s.procs[p.i].chan
      && (step.WakeLock? ==> r.procs[p.i].state == s.procs[p.i].state && r.procs[p.i].guard == step.t)
      && (step.WakeTest? ==>
            && (s.procs[p.i].state == SLEEPING && s.procs[p.i].chan == p.chan ==> r.procs[p.i].state == RUNNABLE)
            && (!(s.procs[p.i].state == SLEEPING && s.procs[p.i].chan == p.chan) ==> r.procs[p.i].state == s.procs[p.i].state)
            && r.procs[p.i].guard == -1)
  {
  }

  /** The spin locks: acquire and the end of sleep take one, release and the middle of sleep give one up, nothing else does. */
  lemma LocksChange(s: State, step: Step, l: nat)
    requires Enabled(s, step) && l < |s.holder|
    ensures var p, r := s.procs[Mover(step)].pc, Apply(s, step);
      && |r.holder| == |s.holder|
      && (((step.Acquire? && step.lk == l) || (step.Reacquire? && p.lk == l)) ==> s.holder[l] == -1 && r.holder[l] == step.t)
      && (((step.Release? && step.lk == l) || (step.SleepRelease? && p.lk == l)) ==> r.holder[l] == -1)
      && (!((step.Acquire? || step.Release?) && step.lk == l) && !((step.Reacquire? || step.SleepRelease?) && p.lk == l) ==>
            r.holder[l] == s.holder[l])
  {
  }

  // ----- The monitor it refines -----

  datatype MProc = Active | Asleep(chan: nat, lk: nat) | Wanting(lk: nat)
  datatype Monitor = Monitor(procs: seq<MProc>, holder: seq<int>)

  datatype MStep =
    | MAcquire(t: nat, lk: nat)
    | MRelease(t: nat, lk: nat)
    | MSleep(t: nat, chan: nat, lk: nat)      // give up lk and fall asleep, in one step
    | MRouse(q: nat)                          // one sleeper wakes
    | MRegain(t: nat)
    | MBroadcast(t: nat, chan: nat)           // every sleeper on chan whose lock t holds wakes
    | MIdle

  function Awoken(p: MProc): MProc { if p.Asleep? then Wanting(p.lk) else p }

  predicate Hears(m: Monitor, t: nat, chan: nat, p: MProc) {
    p.Asleep? && p.chan == chan && p.lk < |m.holder| && m.holder[p.lk] == t
  }

  predicate MEnabled(m: Monitor, step: MStep) {
    match step
    case MAcquire(t, lk) => t < |m.procs| && lk < |m.holder| && m.procs[t].Active? && m.holder[lk] == -1
    case MRelease(t, lk) => t < |m.procs| && lk < |m.holder| && m.procs[t].Active? && m.holder[lk] == t
    case MSleep(t, _, lk) => t < |m.procs| && lk < |m.holder| && m.procs[t].Active? && m.holder[lk] == t
    case MRouse(q) => q < |m.procs| && m.procs[q].Asleep?
    case MRegain(t) =>
      t < |m.procs| && m.procs[t].Wanting? && m.procs[t].lk < |m.holder| && m.holder[m.procs[t].lk] == -1
    case MBroadcast(t, _) => t < |m.procs| && m.procs[t].Active?
    case MIdle => true
  }

  function MApply(m: Monitor, step: MStep): Monitor
    requires MEnabled(m, step)
  {
    match step
    case MAcquire(t, lk) => m.(holder := m.holder[lk := t])
    case MRelease(t, lk) => m.(holder := m.holder[lk := -1])
    case MSleep(t, chan, lk) => Monitor(m.procs[t := Asleep(chan, lk)], m.holder[lk := -1])
    case MRouse(q) => m.(procs := m.procs[q := Awoken(m.procs[q])])
    case MRegain(t) => Monitor(m.procs[t := Active], m.holder[m.procs[t].lk := t])
    case MBroadcast(t, chan) =>
      m.(procs := seq(|m.procs|, q requires 0 <= q < |m.procs| =>
                        if Hears(m, t, chan, m.procs[q]) then Awoken(m.procs[q]) else m.procs[q]))
    case MIdle => m
  }

  predicate MIsRun(m: Monitor, steps: seq<MStep>)
    decreases |steps|
  {
    steps == [] || (MEnabled(m, steps[0]) && MIsRun(MApply(m, steps[0]), steps[1..]))
  }

  function MRun(m: Monitor, steps: seq<MStep>): Monitor
    requires MIsRun(m, steps)
    decreases |steps|
  {
    if steps == [] then m else MRun(MApply(m, steps[0]), steps[1..])
  }

  function AbsProc(p: Proc): MProc {
    match p.pc
    case Released(chan, lk) => Asleep(chan, lk)
    case Out(chan, lk) => if p.state.SLEEPING? then Asleep(chan, lk) else Wanting(lk)
    case Back(lk) => Wanting(lk)
    case Relock(lk) => Wanting(lk)
    case _ => Active
  }

  function Abs(s: State): Monitor {
    Monitor(seq(|s.procs|, q requires 0 <= q < |s.procs| => AbsProc(s.procs[q])), s.holder)
  }

  /** The monitor step a protocol step amounts to: mostly none, and a broadcast only when wakeup returns. */
  function Label(s: State, step: Step): MStep
    requires Enabled(s, step)
  {
    var p := s.procs[Mover(step)];
    match step
    case Acquire(t, lk) => MAcquire(t, lk)
    case Release(t, lk) => MRelease(t, lk)
    case SleepRelease(t) => MSleep(t, p.pc.chan, p.pc.lk)
    case Reacquire(t) => MRegain(t)
    case WakeTest(t) =>
      var q := s.procs[p.pc.i];
      if q.pc.Out? && q.state.SLEEPING? && q.chan == p.pc.chan then MRouse(p.pc.i) else MIdle
    case WakeReturn(t) => MBroadcast(t, p.pc.chan)
    case Kill(q) => if p.pc.Out? && p.state.SLEEPING? then MRouse(q) else MIdle
    case _ => MIdle
  }

  lemma ReturnSimulated(s: State, t: nat, q: nat)
    requires Inv(s) && Enabled(s, WakeReturn(t)) && q < |s.procs|
    ensures !Hears(Abs(s), t, s.procs[t].pc.chan, AbsProc(s.procs[q]))
  {
    var a := AbsProc(s.procs[q]);
    assert ProcOk(s, t) && ProcOk(s, q);
    if a.Asleep? && a.lk < |s.holder| { assert ScanOk(s, t, q, a.lk); }
  }

  lemma LabelEnabled(s: State, step: Step)
    requires Inv(s) && Enabled(s, step) && !step.WakeReturn?
    ensures MEnabled(Abs(s), Label(s, step)) && !Label(s, step).MBroadcast?
  {
    assert ProcOk(s, Mover(step));
  }

  lemma MoverSimulated(s: State, step: Step)
    requires Inv(s) && Enabled(s, step) && !step.WakeReturn? && MEnabled(Abs(s), Label(s, step)) && !Label(s, step).MBroadcast?
    ensures var t := Mover(step);
      t < |Apply(s, step).procs| && AbsProc(Apply(s, step).procs[t]) == MApply(Abs(s), Label(s, step)).procs[t]
  {
    assert ProcOk(s, Mover(step));
  }

  lemma ProcSimulated(s: State, step: Step, q: nat)
    requires Inv(s) && Enabled(s, step) && q < |s.procs| && !step.WakeReturn?
    ensures MEnabled(Abs(s), Label(s, step)) && !Label(s, step).MBroadcast?
    ensures q < |Apply(s, step).procs|
    ensures AbsProc(Apply(s, step).procs[q]) == MApply(Abs(s), Label(s, step)).procs[q]
  {
    LabelEnabled(s, step);
    if q == Mover(step) {
      MoverSimulated(s, step);
    } else {
      OtherSimulated(s, step, q);
    }
  }

  lemma OtherSimulated(s: State, step: Step, q: nat)
    requires Inv(s) && Enabled(s, step) && !step.WakeReturn? && MEnabled(Abs(s), Label(s, step)) && !Label(s, step).MBroadcast?
    requires q < |s.procs| && q != Mover(step)
    ensures q < |Apply(s, step).procs|
    ensures AbsProc(Apply(s, step).procs[q]) == MApply(Abs(s), Label(s, step)).procs[q]
  {
    assert ProcOk(s, Mover(step)) && ProcOk(s, q);
    if !LooksAt(s, step, q) { Untouched(s, step, q); }
  }

  lemma StepRefines(s: State, step: Step)
    requires Inv(s) && Enabled(s, step)
    ensures MEnabled(Abs(s), Label(s, step))
    ensures Abs(Apply(s, step)) == MApply(Abs(s), Label(s, step))
  {
    Sizes(s, step);
    if !step.WakeReturn? { ProcSimulated(s, step, Mover(step)); }
    var r, m := Apply(s, step), MApply(Abs(s), Label(s, step));
    forall q: nat | q < |s.procs| ensures AbsProc(r.procs[q]) == m.procs[q] {
      if step.WakeReturn? { ReturnSimulated(s, step.t, q); } else { ProcSimulated(s, step, q); }
    }
    assert Abs(r).procs == m.procs;
  }

  function Labels(s: State, steps: seq<Step>): seq<MStep>
    requires IsRun(s, steps)
    decreases |steps|
  {
    if steps == [] then [] else [Label(s, steps[0])] + Labels(Apply(s, steps[0]), steps[1..])
  }

  /** Every run of the protocol is, step for step, a run of the monitor. */
  lemma {:induction false} RunRefines(s: State, steps: seq<Step>)
    requires Inv(s) && IsRun(s, steps)
    ensures MIsRun(Abs(s), Labels(s, steps))
    ensures MRun(Abs(s), Labels(s, steps)) == Abs(Run(s, steps))
    decreases |steps|
  {
    if steps != [] {
      StepKeepsInv(s, steps[0]);
      StepRefines(s, steps[0]);
      RunRefines(Apply(s, steps[0]), steps[1..]);
      assert Labels(s, steps)[1..] == Labels(Apply(s, steps[0]), steps[1..]);
    }
  }

  // ----- Spinning on p->lock -----

  predicate SelfLockedScan(s: State, t: nat) {
    t < |s.procs| && s.procs[t].guard == t && (s.procs[t].pc.Scan? || s.procs[t].pc.Look?)
  }

  /** The process is not waiting for a p->lock inside wakeup. */
  ghost predicate NotSpinning(s: State, g: nat) {
    g < |s.procs| && (s.procs[g].pc.Scan? ==> exists step: Step :: Mover(step) == g && !step.Kill? && Enabled(s, step))
  }

  /** The holder of q's p->lock can go on, or waits for a p->lock whose holder can. */
  ghost predicate GuardFrees(s: State, q: nat)
    requires q < |s.procs|
  {
    var g := s.procs[q].guard;
    && 0 <= g < |s.procs|
    && (|| NotSpinning(s, g)
        || (s.procs[g].pc.Scan? && s.procs[g].pc.i < |s.procs| && s.procs[s.procs[g].pc.i].guard >= 0
            && NotSpinning(s, s.procs[s.procs[g].pc.i].guard)))
  }

  /** As long as one process at a time scans with its own p->lock held. */
  lemma OneScanIsReleased(s: State, q: nat)
    requires Inv(s) && q < |s.procs| && s.procs[q].guard != -1
    requires forall t, u :: SelfLockedScan(s, t) && SelfLockedScan(s, u) ==> t == u
    ensures GuardFrees(s, q)
  {
    assert ProcOk(s, q);
    var g: nat := s.procs[q].guard;
    assert ProcOk(s, g);
    if s.procs[g].pc.Scan? {
      assert g == q;
      var i := s.procs[g].pc.i;
      if i >= |s.procs| {
        assert Enabled(s, WakeReturn(g));
      } else if i == g {
        assert Enabled(s, WakeSkip(g));
      } else if s.procs[i].guard == -1 {
        assert Enabled(s, WakeLock(g));
      } else {
        assert ProcOk(s, i);
        assert SelfLockedScan(s, g);
        var h: nat := s.procs[i].guard;
        assert s.procs[h].pc.Scan? ==> h == i && SelfLockedScan(s, h);
      }
    }
  }

  /** wakeup is called with one's own p->lock held only under the spin lock w, as thread_exit does under wait_lock. */
  predicate Disciplined(s: State, step: Step, w: nat)
    requires Enabled(s, step)
  {
    step.WakeCall? && s.procs[step.t].guard == step.t ==> w < |s.holder| && s.holder[w] == step.t
  }

  predicate DisciplinedRun(s: State, steps: seq<Step>, w: nat)
    requires IsRun(s, steps)
    decreases |steps|
  {
    steps == [] || (Disciplined(s, steps[0], w) && DisciplinedRun(Apply(s, steps[0]), steps[1..], w))
  }

  /** Whoever scans with its own p->lock held also holds w. */
  ghost predicate ScansHold(s: State, w: nat) {
    forall t: nat {:trigger SelfLockedScan(s, t)} :: SelfLockedScan(s, t) ==> w < |s.holder| && s.holder[w] == t
  }

  lemma ScansHoldStep(s: State, step: Step, w: nat, t: nat)
    requires Inv(s) && Enabled(s, step) && Disciplined(s, step, w) && ScansHold(s, w) && SelfLockedScan(Apply(s, step), t)
    ensures w < |Apply(s, step).holder| && Apply(s, step).holder[w] == t
  {
    var m := Mover(step);
    assert t < |s.procs| && ProcOk(s, m) && ProcOk(s, t);
    if t != m && !LooksAt(s, step, t) { Untouched(s, step, t); }
    assert SelfLockedScan(s, t) || (step.WakeCall? && t == m);
  }

  lemma {:induction false} ScansHoldRun(s: State, steps: seq<Step>, w: nat)
    requires Inv(s) && ScansHold(s, w) && IsRun(s, steps) && DisciplinedRun(s, steps, w)
    ensures Inv(Run(s, steps)) && ScansHold(Run(s, steps), w)
    decreases |steps|
  {
    if steps != [] {
      var r := Apply(s, steps[0]);
      StepKeepsInv(s, steps[0]);
      forall t: nat | SelfLockedScan(r, t) ensures w < |r.holder| && r.holder[w] == t { ScansHoldStep(s, steps[0], w, t); }
      ScansHoldRun(r, steps[1..], w);
    }
  }

  /**
  wakeup asks to be called without any p->lock, and thread_exit calls it with its own. Since it does so under wait_lock
  only, whatever the interleaving whoever holds a p->lock can go on, or waits for one whose holder can.
  */
  lemma GuardIsReleased(n: nat, locks: nat, steps: seq<Step>, w: nat, q: nat)
    requires IsRun(Init(n, locks), steps) && DisciplinedRun(Init(n, locks), steps, w)
    requires q < |Run(Init(n, locks), steps).procs| && Run(Init(n, locks), steps).procs[q].guard != -1
    ensures GuardFrees(Run(Init(n, locks), steps), q)
  {
    InitInv(n, locks);
    ScansHoldRun(Init(n, locks), steps, w);
    OneScanIsReleased(Run(Init(n, locks), steps), q);
  }

  /** Each of two processes holds its own lock and is about to look at the other. */
  const CROSSED: State := State([Proc(Scan(7, 1), RUNNING, 0, 0), Proc(Scan(7, 0), RUNNING, 0, 1)], [])

  lemma CrossedIsStuck(step: Step)
    requires !step.Kill?
    ensures !Enabled(CROSSED, step)
  {
  }

  const CROSSING: seq<Step> := [LockSelf(0), LockSelf(1), WakeCall(0, 7), WakeCall(1, 7), WakeSkip(0)]

  function Pair(a: Pc, b: Pc, g: int, h: int): State {
    State([Proc(a, RUNNING, 0, g), Proc(b, RUNNING, 0, h)], [])
  }

  lemma CrossingEnds()
    ensures var s := Pair(Kernel, Kernel, 0, 1); IsRun(s, CROSSING[2..]) && Run(s, CROSSING[2..]) == CROSSED
  {
    var s3, s4 := Pair(Scan(7, 0), Kernel, 0, 1), Pair(Scan(7, 0), Scan(7, 0), 0, 1);
    assert Apply(s4, WakeSkip(0)) == CROSSED;
    OneStep(s4, CROSSING[4..], CROSSED);
    assert Apply(s3, WakeCall(1, 7)) == s4;
    OneStep(s3, CROSSING[3..], s4);
    assert Apply(Pair(Kernel, Kernel, 0, 1), WakeCall(0, 7)) == s3;
    OneStep(Pair(Kernel, Kernel, 0, 1), CROSSING[2..], s3);
  }

  /** Without that, two such processes come to wait for each other's p->lock, and neither can move. */
  lemma TwoSelfLockedScansDeadlock()
    ensures IsRun(Init(2, 0), CROSSING) && Run(Init(2, 0), CROSSING) == CROSSED
    ensures forall step: Step {:trigger Enabled(CROSSED, step)} :: !step.Kill? ==> !Enabled(CROSSED, step)
  {
    forall step: Step | !step.Kill? ensures !Enabled(CROSSED, step) { CrossedIsStuck(step); }
    CrossingEnds();
    assert Apply(Pair(Kernel, Kernel, 0, -1), LockSelf(1)) == Pair(Kernel, Kernel, 0, 1);
    OneStep(Pair(Kernel, Kernel, 0, -1), CROSSING[1..], Pair(Kernel, Kernel, 0, 1));
    assert Init(2, 0) == Pair(Kernel, Kernel, -1, -1);
    assert Apply(Init(2, 0), LockSelf(0)) == Pair(Kernel, Kernel, 0, -1);
    OneStep(Init(2, 0), CROSSING, Pair(Kernel, Kernel, 0, -1));
  }

  lemma OneStep(s: State, steps: seq<Step>, r: State)
    requires steps != [] && Enabled(s, steps[0]) && Apply(s, steps[0]) == r && IsRun(r, steps[1..])
    ensures IsRun(s, steps) && Run(s, steps) == Run(r, steps[1..])
  {
  }
}
