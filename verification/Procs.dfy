/**
Process and thread ends: exit, thread_exit, wait and thread_join over the process table, for any number of slots. All
of them work under wait_lock; sleeping and waking on its channels are the monitor steps that Sleep.RunRefines
justifies. A channel is a slot: wait sleeps on the caller's own, thread_join on its target's.
*/
module Procs {
  datatype PState = Unused | Alive | Zombie

  datatype Pc =
    | Outside                                            // user code, or a system call that is not one of the four
    | ExLock | ExScan(i: nat) | ExWakeInit(i: nat) | ExWakeParent | ExMark | ExUnlock
    | TxLock | TxMark | TxWake | TxUnlock
    | WtLock | WtTop | WtSleep
    | JnLock(tid: nat) | JnTop(tid: nat) | JnSleep(tid: nat, target: nat)
    | Gone

  /** A thread's tid is its pid. `ppid` is history: the pid of the process that `parent` was set to. */
  datatype Proc = Proc(state: PState, parent: int, isThread: bool, father: int, pid: nat, ppid: nat, pc: Pc)

  /**
  wl: the holder of wait_lock, or -1. History, by pid: `exited`, the threads that have ended by exit() instead of
  thread_exit(); `orphaned`, the processes that lost their parent to a thread_exit() and have not been reparented since.
  */
  datatype State = State(procs: seq<Proc>, wl: int, nextpid: nat, exited: set<nat>, orphaned: set<nat>)

  const INIT: nat := 0           // initproc's slot
  const NOBODY: Proc := Proc(Unused, -1, false, -1, 0, 0, Outside)

  datatype Op = Exit | ThreadExit | Wait | Join(tid: nat)

  datatype Step =
    | Create(t: nat, np: nat, thread: bool)      // fork, or thread_create
    | Call(t: nat, op: Op)
    | Lock(t: nat)
    | Go(t: nat, killed: bool)                   // the next step of the process that holds wait_lock
    | Rouse(t: nat)                              // kill

  predicate WantsLock(pc: Pc) { pc.ExLock? || pc.TxLock? || pc.WtLock? || pc.JnLock? }

  predicate HoldsLock(pc: Pc) {
    || pc.ExScan? || pc.ExWakeInit? || pc.ExWakeParent? || pc.ExMark? || pc.ExUnlock?
    || pc.TxMark? || pc.TxWake? || pc.TxUnlock? || pc.WtTop? || pc.JnTop?
  }

  predicate Ended(pc: Pc) { pc.ExUnlock? || pc.TxWake? || pc.TxUnlock? || pc.Gone? }

  predicate SleepsOn(p: Proc, self: nat, chan: int) {
    (p.pc.WtSleep? && self == chan) || (p.pc.JnSleep? && p.pc.target == chan)
  }

  function Woken(pc: Pc): Pc {
    match pc case WtSleep => WtLock case JnSleep(tid, _) => JnLock(tid) case _ => pc
  }

  /** wakeup(chan). */
  function Wakeup(procs: seq<Proc>, chan: int): (r: seq<Proc>)
    ensures |r| == |procs|
    ensures forall i {:trigger r[i]} :: 0 <= i < |r| ==>
              r[i] == if SleepsOn(procs[i], i, chan) then procs[i].(pc := Woken(procs[i].pc)) else procs[i]
  {
    seq(|procs|, i requires 0 <= i < |procs| =>
      if SleepsOn(procs[i], i, chan) then procs[i].(pc := Woken(procs[i].pc)) else procs[i])
  }

  function Leader(s: State, t: nat): int
    requires t < |s.procs|
  {
    if s.procs[t].isThread then s.procs[t].father else t
  }

  /** The first slot from `i` on that holds a zombie child of p; the table's length if none does. */
  function ZombieChild(s: State, p: nat, i: nat): (r: nat)
    requires i <= |s.procs|
    ensures i <= r <= |s.procs|
    ensures r < |s.procs| ==> s.procs[r].parent == p && s.procs[r].state.Zombie?
    ensures forall c :: i <= c < r ==> !(s.procs[c].parent == p && s.procs[c].state.Zombie?)
    decreases |s.procs| - i
  {
    if i == |s.procs| || (s.procs[i].parent == p && s.procs[i].state.Zombie?) then i else ZombieChild(s, p, i + 1)
  }

  /** The first slot from `i` on that holds thread `tid` of the group of `leader`. */
  function FindThread(s: State, leader: int, tid: nat, i: nat): (r: nat)
    requires i <= |s.procs|
    ensures i <= r <= |s.procs|
    ensures r < |s.procs| ==> IsThread(s.procs[r], leader, tid)
    ensures forall q :: i <= q < r ==> !IsThread(s.procs[q], leader, tid)
    decreases |s.procs| - i
  {
    if i == |s.procs| || IsThread(s.procs[i], leader, tid) then i else FindThread(s, leader, tid, i + 1)
  }

  predicate IsThread(q: Proc, leader: int, tid: nat) {
    !q.state.Unused? && q.isThread && q.father == leader && q.pid == tid
  }

  predicate HasChildren(s: State, p: nat) {
    exists c :: 0 <= c < |s.procs| && s.procs[c].parent == p
  }

  function ChildPids(s: State, p: nat): set<nat> {
    set c: nat | c < |s.procs| && s.procs[c].parent == p :: s.procs[c].pid
  }

  predicate Enabled(s: State, step: Step) {
    && step.t < |s.procs|
    && var p := s.procs[step.t];
    && !p.state.Unused?
    && match step
       case Create(t, np, _) => p.pc.Outside? && np < |s.procs| && s.procs[np].state.Unused? && s.wl == -1
       case Call(t, op) =>
         p.pc.Outside? && (op.Exit? || (op.ThreadExit? && !p.isThread) ==> t != INIT)     // else panic("init exiting")
       case Lock(t) => WantsLock(p.pc) && s.wl == -1
       case Go(t, _) => s.wl == t && HoldsLock(p.pc)
       case Rouse(t) => p.pc.WtSleep? || p.pc.JnSleep?
  }

  function SetPc(s: State, t: nat, pc: Pc): State
    requires t < |s.procs|
  {
    s.(procs := s.procs[t := s.procs[t].(pc := pc)])
  }

  function Locked(pc: Pc): Pc {
    match pc case ExLock => ExScan(0) case TxLock => TxMark case WtLock => WtTop case JnLock(tid) => JnTop(tid) case _ => pc
  }

  function Apply(s: State, step: Step): State
    requires Enabled(s, step)
  {
    var p := s.procs[step.t];
    match step
    case Create(t, np, thread) =>
      s.(procs := s.procs[np := Proc(Alive, t, thread, if thread then Leader(s, t) else -1, s.nextpid, p.pid, Outside)],
         nextpid := s.nextpid + 1)
    case Call(t, op) =>
      (match op
       case Exit => SetPc(s, t, ExLock)
       case ThreadExit => SetPc(s, t, if p.isThread then TxLock else ExLock)
       case Wait => SetPc(s, t, WtLock)
       case Join(tid) => SetPc(s, t, JnLock(tid)))
    case Lock(t) => SetPc(s, t, Locked(p.pc)).(wl := t)
    case Rouse(t) => SetPc(s, t, Woken(p.pc))
    case Go(t, killed) => Continue(s, t, killed)
  }

  function Continue(s: State, t: nat, killed: bool): State
    requires t < |s.procs| && INIT < |s.procs|
  {
    var p := s.procs[t];
    match p.pc
    // exit: reparent, wakeup(p->parent), ZOMBIE, release
    case ExScan(i) =>
      if i >= |s.procs| then SetPc(s, t, ExWakeParent)
      else if s.procs[i].parent == t then
        SetPc(s.(procs := s.procs[i := s.procs[i].(parent := INIT, ppid := s.procs[INIT].pid)],
                 orphaned := s.orphaned - {s.procs[i].pid}), t, ExWakeInit(i))
      else SetPc(s, t, ExScan(i + 1))
    case ExWakeInit(i) => SetPc(s.(procs := Wakeup(s.procs, INIT)), t, ExScan(i + 1))
    case ExWakeParent => SetPc(s.(procs := Wakeup(s.procs, p.parent)), t, ExMark)
    case ExMark =>
      s.(procs := s.procs[t := p.(state := Zombie, pc := ExUnlock)],
         exited := if p.isThread then s.exited + {p.pid} else s.exited)
    case ExUnlock => SetPc(s, t, Gone).(wl := -1)
    // thread_exit: ZOMBIE, wakeup(p), release
    case TxMark => s.(procs := s.procs[t := p.(state := Zombie, pc := TxWake)], orphaned := s.orphaned + ChildPids(s, t))
    case TxWake => SetPc(s.(procs := Wakeup(s.procs, t)), t, TxUnlock)
    case TxUnlock => SetPc(s, t, Gone).(wl := -1)
    // one pass of wait's loop
    case WtTop =>
      var z := ZombieChild(s, t, 0);
      if z < |s.procs| then SetPc(s.(procs := s.procs[z := NOBODY]), t, Outside).(wl := -1)
      else if !HasChildren(s, t) || killed then SetPc(s, t, Outside).(wl := -1)
      else SetPc(s, t, WtSleep).(wl := -1)
    // one pass of thread_join's loop
    case JnTop(tid) =>
      var q := FindThread(s, Leader(s, t), tid, 0);
      if q >= |s.procs| then SetPc(s, t, Outside).(wl := -1)
      else if s.procs[q].state.Zombie? then SetPc(s.(procs := s.procs[q := NOBODY]), t, Outside).(wl := -1)
      else SetPc(s, t, JnSleep(tid, q)).(wl := -1)
    case _ => s
  }

  /** After userinit: one process. */
  function Init(n: nat): State
    requires INIT < n
  {
    State(seq(n, i => if i == INIT then Proc(Alive, -1, false, -1, 1, 0, Outside) else NOBODY), -1, 2, {}, {})
  }

  predicate IsRun(s: State, steps: seq<Step>)
    decreases |steps|
  {
    steps == [] || (Enabled(s, steps[0]) && IsRun(Apply(s, steps[0]), steps[1..]))
  }

  function Run(s: State, steps: seq<Step>): State
    requires IsRun(s, steps)
    decreases |steps|
  {
    if steps == [] then s else Run(Apply(s, steps[0]), steps[1..])
  }

  // ----- The invariant -----

  ghost predicate ProcOk(s: State, t: nat)
    requires t < |s.procs|
  {
    var p := s.procs[t];
    && (HoldsLock(p.pc) <==> s.wl == t)
    && (p.state.Unused? ==> p == NOBODY)
    && (p.state.Zombie? <==> Ended(p.pc))
    && -1 <= p.parent < |s.procs| && p.parent != t
    && (!p.state.Unused? ==> 0 < p.pid < s.nextpid && (p.parent != -1 ==> 0 < p.ppid < s.nextpid))
    && (p.isThread && p.state.Alive? ==> p.pid !in s.exited)
    && (p.pc.TxLock? || p.pc.TxMark? || p.pc.TxWake? || p.pc.TxUnlock? ==> p.isThread)
    && (Exiting(p.pc) ==> t != INIT)
    && (t == INIT ==> p.parent == -1 && p.state.Alive? && !p.isThread)
  }

  predicate Exiting(pc: Pc) {
    pc.ExLock? || pc.ExScan? || pc.ExWakeInit? || pc.ExWakeParent? || pc.ExMark? || pc.ExUnlock?
  }

  /** A sleeping joiner's thread has ended by exit(), or it is the target and has not ended or is just about to wake it. */
  ghost predicate JoinerOk(s: State, j: nat)
    requires j < |s.procs|
  {
    s.procs[j].pc.JnSleep? && s.procs[j].pc.tid !in s.exited ==>
      && s.procs[j].pc.target < |s.procs|
      && IsThread(s.procs[s.procs[j].pc.target], Leader(s, j), s.procs[j].pc.tid)
      && (s.procs[s.procs[j].pc.target].state.Zombie? ==> s.procs[s.procs[j].pc.target].pc.TxWake?)
  }

  ghost predicate WakingInit(s: State) {
    0 <= s.wl < |s.procs| && s.procs[s.wl].pc.ExWakeInit?
  }

  /** Child c of a sleeping waiter p has not ended and is not past waking p. */
  ghost predicate WaiterOk(s: State, c: nat)
    requires c < |s.procs|
  {
    var p := s.procs[c].parent;
    0 <= p < |s.procs| && s.procs[p].pc.WtSleep? && !s.procs[c].isThread ==>
      (s.procs[c].state.Zombie? ==> p == INIT && WakingInit(s)) && !s.procs[c].pc.ExMark?
  }

  /**
  Unless c is orphaned its parent is alive, and if it is in exit's scan then the scan has not come to c. The parent of an
  orphan is dead, or its slot is somebody else's.
  */
  ghost predicate ChildOk(s: State, c: nat)
    requires c < |s.procs|
  {
    var p := s.procs[c].parent;
    0 <= p < |s.procs| ==>
      if s.procs[c].pid in s.orphaned then !s.procs[p].state.Alive? || s.procs[p].pid != s.procs[c].ppid
      else
        && s.procs[p].state.Alive? && !s.procs[p].pc.ExWakeParent? && !s.procs[p].pc.ExMark? && !s.procs[p].pc.TxWake?
        && s.procs[p].pid == s.procs[c].ppid
        && (s.procs[p].pc.ExScan? ==> s.procs[p].pc.i <= c)
        && (s.procs[p].pc.ExWakeInit? ==> s.procs[p].pc.i < c)
  }

  /** No two processes have the same pid. */
  ghost predicate PidsOk(s: State, a: nat, b: nat)
    requires a < |s.procs| && b < |s.procs|
  {
    a != b && !s.procs[a].state.Unused? && !s.procs[b].state.Unused? ==> s.procs[a].pid != s.procs[b].pid
  }

  ghost predicate Inv(s: State) {
    && INIT < |s.procs| && -1 <= s.wl < |s.procs|
    && (forall t: nat {:trigger ProcOk(s, t)} :: t < |s.procs| ==> ProcOk(s, t))
    && (forall c: nat {:trigger WaiterOk(s, c)} :: c < |s.procs| ==> WaiterOk(s, c))
    && (forall j: nat {:trigger JoinerOk(s, j)} :: j < |s.procs| ==> JoinerOk(s, j))
    && (forall c: nat {:trigger ChildOk(s, c)} :: c < |s.procs| ==> ChildOk(s, c))
    && (forall a: nat, b: nat {:trigger PidsOk(s, a, b)} :: a < |s.procs| && b < |s.procs| ==> PidsOk(s, a, b))
    && (forall x :: x in s.exited || x in s.orphaned ==> x < s.nextpid)
  }

  lemma InitInv(n: nat)
    requires INIT < n
    ensures Inv(Init(n))
  {
  }

  // The steps, in groups that are proved one at a time.

  predicate Goes(s: State, step: Step) { Enabled(s, step) && step.Go? }

  predicate Ends(s: State, step: Step) {
    Goes(s, step) && var pc := s.procs[step.t].pc; pc.ExMark? || pc.ExUnlock? || pc.TxMark? || pc.TxUnlock?
  }

  predicate Wakes(s: State, step: Step) {
    Goes(s, step) && var pc := s.procs[step.t].pc; pc.ExWakeParent? || pc.ExWakeInit? || pc.TxWake?
  }

  /** One pass of wait's or thread_join's loop: it frees a zombie's slot, or does no more than leave or sleep. */
  ghost predicate Passed(s: State, r: State, t: nat) {
    && t < |s.procs| == |r.procs| && s.wl == t && r.wl == -1
    && r.nextpid == s.nextpid && r.exited == s.exited && r.orphaned == s.orphaned
    && (s.procs[t].pc.WtTop? || s.procs[t].pc.JnTop?)
    && (forall q {:trigger r.procs[q]} :: 0 <= q < |s.procs| && q != t ==>
          r.procs[q] == s.procs[q] || (r.procs[q] == NOBODY && s.procs[q].state.Zombie?))
    && r.procs[t] == s.procs[t].(pc := r.procs[t].pc)
    && match r.procs[t].pc
       case Outside => true
       case WtSleep => forall c :: 0 <= c < |s.procs| && c != t && s.procs[c].parent == t ==> !s.procs[c].state.Zombie?
       case JnSleep(tid, q) =>
         q < |s.procs| && IsThread(s.procs[q], Leader(s, t), tid) && (q == t || !s.procs[q].state.Zombie?)
         && r.procs[q].isThread == s.procs[q].isThread && (q != t ==> r.procs[q] == s.procs[q])
       case _ => false
  }

  /** One wakeup() made under wait_lock. */
  ghost predicate Roused(s: State, r: State, t: nat) {
    && t < |s.procs| == |r.procs| && s.wl == r.wl == t
    && r.nextpid == s.nextpid && r.exited == s.exited && r.orphaned == s.orphaned
    && var chan := if s.procs[t].pc.ExWakeInit? then INIT else if s.procs[t].pc.TxWake? then t else s.procs[t].parent;
    && (forall q {:trigger r.procs[q]} :: 0 <= q < |s.procs| && q != t ==>
          r.procs[q] == if SleepsOn(s.procs[q], q, chan) then s.procs[q].(pc := Woken(s.procs[q].pc)) else s.procs[q])
    && r.procs[t] == s.procs[t].(pc := r.procs[t].pc)
    && match s.procs[t].pc
       case ExWakeInit(i) => r.procs[t].pc == ExScan(i + 1)
       case ExWakeParent => r.procs[t].pc == ExMark
       case TxWake => r.procs[t].pc == TxUnlock
       case _ => false
  }

  lemma WakeRouses(s: State, step: Step)
    requires Inv(s) && Wakes(s, step)
    ensures Roused(s, Apply(s, step), step.t)
  {
    assert Apply(s, step) == Continue(s, step.t, step.killed);
  }

  lemma WaitPass(s: State, step: Step)
    requires Inv(s) && Goes(s, step) && s.procs[step.t].pc.WtTop?
    ensures Passed(s, Apply(s, step), step.t)
  {
    assert ProcOk(s, step.t);
    assert Apply(s, step) == Continue(s, step.t, step.killed);
  }

  lemma JoinPass(s: State, step: Step)
    requires Inv(s) && Goes(s, step) && s.procs[step.t].pc.JnTop?
    ensures Passed(s, Apply(s, step), step.t)
  {
    assert ProcOk(s, step.t);
    assert Apply(s, step) == Continue(s, step.t, step.killed);
  }

  lemma CreateKeepsProc(s: State, step: Step, q: nat)
    requires Inv(s) && Enabled(s, step) && step.Create? && q < |s.procs|
    ensures |Apply(s, step).procs| == |s.procs| && ProcOk(Apply(s, step), q)
  {
    var t := step.t;
    assert ProcOk(s, t) && ProcOk(s, q);
  }

  lemma CallKeepsProc(s: State, step: Step, q: nat)
    requires Inv(s) && Enabled(s, step) && step.Call? && q < |s.procs|
    ensures |Apply(s, step).procs| == |s.procs| && ProcOk(Apply(s, step), q)
  {
    var t := step.t;
    assert ProcOk(s, t) && ProcOk(s, q);
  }

  lemma LockKeepsProc(s: State, step: Step, q: nat)
    requires Inv(s) && Enabled(s, step) && (step.Lock? || step.Rouse?) && q < |s.procs|
    ensures |Apply(s, step).procs| == |s.procs| && ProcOk(Apply(s, step), q)
  {
    var t := step.t;
    assert ProcOk(s, t) && ProcOk(s, q);
  }

  lemma ScanKeepsProc(s: State, step: Step, q: nat)
    requires Inv(s) && Goes(s, step) && s.procs[step.t].pc.ExScan? && q < |s.procs|
    ensures |Apply(s, step).procs| == |s.procs| && ProcOk(Apply(s, step), q)
  {
    assert ProcOk(s, INIT);
    var t := step.t;
    assert ProcOk(s, t) && ProcOk(s, q) && PidsOk(s, t, q);
  }

  lemma WakeKeepsProc(s: State, r: State, t: nat, q: nat)
    requires Inv(s) && Roused(s, r, t) && q < |s.procs|
    ensures ProcOk(r, q)
  {
    assert ProcOk(s, t) && ProcOk(s, q) && PidsOk(s, t, q);
  }

  lemma EndKeepsProc(s: State, step: Step, q: nat)
    requires Inv(s) && Ends(s, step) && q < |s.procs|
    ensures |Apply(s, step).procs| == |s.procs| && ProcOk(Apply(s, step), q)
  {
    var t := step.t;
    assert ProcOk(s, t) && ProcOk(s, q) && PidsOk(s, t, q);
  }

  lemma PassKeepsProc(s: State, r: State, t: nat, q: nat)
    requires Inv(s) && Passed(s, r, t) && q < |s.procs|
    ensures ProcOk(r, q)
  {
    assert ProcOk(s, t) && ProcOk(s, q) && PidsOk(s, t, q);
  }

  lemma CreateKeepsWaiter(s: State, step: Step, q: nat)
    requires Inv(s) && Enabled(s, step) && step.Create? && q < |s.procs|
    ensures |Apply(s, step).procs| == |s.procs| && WaiterOk(Apply(s, step), q)
  {
    var t := step.t;
    assert ProcOk(s, t) && ProcOk(s, q) && PidsOk(s, t, q) && WaiterOk(s, q);
  }

  lemma CallKeepsWaiter(s: State, step: Step, q: nat)
    requires Inv(s) && Enabled(s, step) && step.Call? && q < |s.procs|
    ensures |Apply(s, step).procs| == |s.procs| && WaiterOk(Apply(s, step), q)
  {
    var t := step.t;
    assert ProcOk(s, t) && ProcOk(s, q) && PidsOk(s, t, q) && WaiterOk(s, q);
  }

  lemma LockKeepsWaiter(s: State, step: Step, q: nat)
    requires Inv(s) && Enabled(s, step) && (step.Lock? || step.Rouse?) && q < |s.procs|
    ensures |Apply(s, step).procs| == |s.procs| && WaiterOk(Apply(s, step), q)
  {
    var t := step.t;
    assert ProcOk(s, t) && ProcOk(s, q) && PidsOk(s, t, q) && WaiterOk(s, q);
  }

  lemma ScanKeepsWaiter(s: State, step: Step, q: nat)
    requires Inv(s) && Goes(s, step) && s.procs[step.t].pc.ExScan? && q < |s.procs|
    ensures |Apply(s, step).procs| == |s.procs| && WaiterOk(Apply(s, step), q)
  {
    var t := step.t;
    assert ProcOk(s, t) && ProcOk(s, q) && PidsOk(s, t, q) && WaiterOk(s, q);
  }

  lemma WakeKeepsWaiter(s: State, r: State, t: nat, q: nat)
    requires Inv(s) && Roused(s, r, t) && q < |s.procs|
    ensures WaiterOk(r, q)
  {
    assert ProcOk(s, t) && ProcOk(s, q) && PidsOk(s, t, q) && WaiterOk(s, q);
  }

  lemma EndKeepsWaiter(s: State, step: Step, q: nat)
    requires Inv(s) && Ends(s, step) && q < |s.procs|
    ensures |Apply(s, step).procs| == |s.procs| && WaiterOk(Apply(s, step), q)
  {
    var t := step.t;
    assert ProcOk(s, t) && ProcOk(s, q) && PidsOk(s, t, q) && WaiterOk(s, q);
  }

  lemma PassKeepsWaiter(s: State, r: State, t: nat, q: nat)
    requires Inv(s) && Passed(s, r, t) && q < |s.procs|
    ensures WaiterOk(r, q)
  {
    assert ProcOk(s, t) && ProcOk(s, q) && PidsOk(s, t, q) && WaiterOk(s, q);
  }

  lemma CreateKeepsJoiner(s: State, step: Step, q: nat)
    requires Inv(s) && Enabled(s, step) && step.Create? && q < |s.procs|
    ensures |Apply(s, step).procs| == |s.procs| && JoinerOk(Apply(s, step), q)
  {
    var t := step.t;
    assert ProcOk(s, t) && ProcOk(s, q) && PidsOk(s, t, q) && JoinerOk(s, q);
    if s.procs[q].pc.JnSleep? && s.procs[q].pc.tid !in s.exited { assert ProcOk(s, s.procs[q].pc.target); }
  }

  lemma CallKeepsJoiner(s: State, step: Step, q: nat)
    requires Inv(s) && Enabled(s, step) && step.Call? && q < |s.procs|
    ensures |Apply(s, step).procs| == |s.procs| && JoinerOk(Apply(s, step), q)
  {
    var t := step.t;
    assert ProcOk(s, t) && ProcOk(s, q) && PidsOk(s, t, q) && JoinerOk(s, q);
    if s.procs[q].pc.JnSleep? && s.procs[q].pc.tid !in s.exited { assert ProcOk(s, s.procs[q].pc.target); }
  }

  lemma LockKeepsJoiner(s: State, step: Step, q: nat)
    requires Inv(s) && Enabled(s, step) && (step.Lock? || step.Rouse?) && q < |s.procs|
    ensures |Apply(s, step).procs| == |s.procs| && JoinerOk(Apply(s, step), q)
  {
    var t := step.t;
    assert ProcOk(s, t) && ProcOk(s, q) && PidsOk(s, t, q) && JoinerOk(s, q);
    if s.procs[q].pc.JnSleep? && s.procs[q].pc.tid !in s.exited { assert ProcOk(s, s.procs[q].pc.target); }
  }

  lemma ScanKeepsJoiner(s: State, step: Step, q: nat)
    requires Inv(s) && Goes(s, step) && s.procs[step.t].pc.ExScan? && q < |s.procs|
    ensures |Apply(s, step).procs| == |s.procs| && JoinerOk(Apply(s, step), q)
  {
    var t := step.t;
    assert ProcOk(s, t) && ProcOk(s, q) && PidsOk(s, t, q) && JoinerOk(s, q);
    if s.procs[q].pc.JnSleep? && s.procs[q].pc.tid !in s.exited { assert ProcOk(s, s.procs[q].pc.target); }
  }

  lemma WakeKeepsJoiner(s: State, r: State, t: nat, q: nat)
    requires Inv(s) && Roused(s, r, t) && q < |s.procs|
    ensures JoinerOk(r, q)
  {
    assert ProcOk(s, t) && ProcOk(s, q) && PidsOk(s, t, q) && JoinerOk(s, q);
    if s.procs[q].pc.JnSleep? && s.procs[q].pc.tid !in s.exited { assert ProcOk(s, s.procs[q].pc.target); }
  }

  lemma EndKeepsJoiner(s: State, step: Step, q: nat)
    requires Inv(s) && Ends(s, step) && q < |s.procs|
    ensures |Apply(s, step).procs| == |s.procs| && JoinerOk(Apply(s, step), q)
  {
    var t := step.t;
    assert ProcOk(s, t) && ProcOk(s, q) && PidsOk(s, t, q) && JoinerOk(s, q);
    if s.procs[q].pc.JnSleep? && s.procs[q].pc.tid !in s.exited { assert ProcOk(s, s.procs[q].pc.target); }
  }

  lemma PassKeepsJoiner(s: State, r: State, t: nat, q: nat)
    requires Inv(s) && Passed(s, r, t) && q < |s.procs|
    ensures JoinerOk(r, q)
  {
    assert ProcOk(s, t) && ProcOk(s, q) && PidsOk(s, t, q) && JoinerOk(s, q);
    if s.procs[q].pc.JnSleep? && s.procs[q].pc.tid !in s.exited { assert ProcOk(s, s.procs[q].pc.target); }
  }

  lemma CreateKeepsChild(s: State, step: Step, q: nat)
    requires Inv(s) && Enabled(s, step) && step.Create? && q < |s.procs|
    ensures |Apply(s, step).procs| == |s.procs| && ChildOk(Apply(s, step), q)
  {
    var t := step.t;
    assert ProcOk(s, t) && ProcOk(s, q) && PidsOk(s, t, q) && ChildOk(s, q) && ProcOk(s, INIT);
    if s.procs[q].parent >= 0 { assert ProcOk(s, s.procs[q].parent); }
  }

  lemma CallKeepsChild(s: State, step: Step, q: nat)
    requires Inv(s) && Enabled(s, step) && step.Call? && q < |s.procs|
    ensures |Apply(s, step).procs| == |s.procs| && ChildOk(Apply(s, step), q)
  {
    var t := step.t;
    assert ProcOk(s, t) && ProcOk(s, q) && PidsOk(s, t, q) && ChildOk(s, q) && ProcOk(s, INIT);
    if s.procs[q].parent >= 0 { assert ProcOk(s, s.procs[q].parent); }
  }

  lemma LockKeepsChild(s: State, step: Step, q: nat)
    requires Inv(s) && Enabled(s, step) && (step.Lock? || step.Rouse?) && q < |s.procs|
    ensures |Apply(s, step).procs| == |s.procs| && ChildOk(Apply(s, step), q)
  {
    var t := step.t;
    assert ProcOk(s, t) && ProcOk(s, q) && PidsOk(s, t, q) && ChildOk(s, q) && ProcOk(s, INIT);
    if s.procs[q].parent >= 0 { assert ProcOk(s, s.procs[q].parent); }
  }

  lemma ScanKeepsChild(s: State, step: Step, q: nat)
    requires Inv(s) && Goes(s, step) && s.procs[step.t].pc.ExScan? && q < |s.procs|
    ensures |Apply(s, step).procs| == |s.procs| && ChildOk(Apply(s, step), q)
  {
    var t := step.t;
    assert ProcOk(s, t) && ProcOk(s, q) && PidsOk(s, t, q) && ChildOk(s, q) && ProcOk(s, INIT);
    var i := s.procs[t].pc.i;
    if i < |s.procs| { assert ProcOk(s, i) && PidsOk(s, i, q); }
    if s.procs[q].parent >= 0 { assert ProcOk(s, s.procs[q].parent); }
  }

  lemma WakeKeepsChild(s: State, r: State, t: nat, q: nat)
    requires Inv(s) && Roused(s, r, t) && q < |s.procs|
    ensures ChildOk(r, q)
  {
    assert ProcOk(s, t) && ProcOk(s, q) && PidsOk(s, t, q) && ChildOk(s, q) && ProcOk(s, INIT);
    if s.procs[q].parent >= 0 { assert ProcOk(s, s.procs[q].parent); }
  }

  lemma EndKeepsChild(s: State, step: Step, q: nat)
    requires Inv(s) && Ends(s, step) && q < |s.procs|
    ensures |Apply(s, step).procs| == |s.procs| && ChildOk(Apply(s, step), q)
  {
    var t := step.t;
    assert ProcOk(s, t) && ProcOk(s, q) && PidsOk(s, t, q) && ChildOk(s, q) && ProcOk(s, INIT);
    if s.procs[t].pc.TxMark? && s.procs[q].pid in ChildPids(s, t) {
      var c: nat :| c < |s.procs| && s.procs[c].parent == t && s.procs[c].pid == s.procs[q].pid;
      assert ProcOk(s, c) && PidsOk(s, c, q);
    }
    if s.procs[q].parent >= 0 { assert ProcOk(s, s.procs[q].parent); }
  }

  lemma PassKeepsChild(s: State, r: State, t: nat, q: nat)
    requires Inv(s) && Passed(s, r, t) && q < |s.procs|
    ensures ChildOk(r, q)
  {
    assert ProcOk(s, t) && ProcOk(s, q) && PidsOk(s, t, q) && ChildOk(s, q) && ProcOk(s, INIT);
    if s.procs[q].parent >= 0 { assert ProcOk(s, s.procs[q].parent); }
  }

  lemma PartsKept(s: State, step: Step, q: nat)
    requires Inv(s) && Enabled(s, step) && q < |s.procs|
    ensures |Apply(s, step).procs| == |s.procs| && ProcOk(Apply(s, step), q) && WaiterOk(Apply(s, step), q)
  {
    var r, t := Apply(s, step), step.t;
    if step.Create? {
      CreateKeepsProc(s, step, q); CreateKeepsWaiter(s, step, q);
    } else if step.Call? {
      CallKeepsProc(s, step, q); CallKeepsWaiter(s, step, q);
    } else if step.Lock? || step.Rouse? {
      LockKeepsProc(s, step, q); LockKeepsWaiter(s, step, q);
    } else if s.procs[t].pc.ExScan? {
      ScanKeepsProc(s, step, q); ScanKeepsWaiter(s, step, q);
    } else if Wakes(s, step) {
      WakeRouses(s, step);
      WakeKeepsProc(s, r, t, q); WakeKeepsWaiter(s, r, t, q);
    } else if s.procs[t].pc.WtTop? || s.procs[t].pc.JnTop? {
      if s.procs[t].pc.WtTop? { WaitPass(s, step); } else { JoinPass(s, step); }
      PassKeepsProc(s, r, t, q); PassKeepsWaiter(s, r, t, q);
    } else {
      EndKeepsProc(s, step, q); EndKeepsWaiter(s, step, q);
    }
  }

  lemma JoinersKept(s: State, step: Step, q: nat)
    requires Inv(s) && Enabled(s, step) && q < |s.procs|
    ensures |Apply(s, step).procs| == |s.procs| && JoinerOk(Apply(s, step), q)
  {
    var r, t := Apply(s, step), step.t;
    if step.Create? {
      CreateKeepsJoiner(s, step, q);
    } else if step.Call? {
      CallKeepsJoiner(s, step, q);
    } else if step.Lock? || step.Rouse? {
      LockKeepsJoiner(s, step, q);
    } else if s.procs[t].pc.ExScan? {
      ScanKeepsJoiner(s, step, q);
    } else if Wakes(s, step) {
      WakeRouses(s, step);
      WakeKeepsJoiner(s, r, t, q);
    } else if s.procs[t].pc.WtTop? || s.procs[t].pc.JnTop? {
      if s.procs[t].pc.WtTop? { WaitPass(s, step); } else { JoinPass(s, step); }
      PassKeepsJoiner(s, r, t, q);
    } else {
      EndKeepsJoiner(s, step, q);
    }
  }

  lemma ChildrenKept(s: State, step: Step, q: nat)
    requires Inv(s) && Enabled(s, step) && q < |s.procs|
    ensures |Apply(s, step).procs| == |s.procs| && ChildOk(Apply(s, step), q)
  {
    var r, t := Apply(s, step), step.t;
    if step.Create? {
      CreateKeepsChild(s, step, q);
    } else if step.Call? {
      CallKeepsChild(s, step, q);
    } else if step.Lock? || step.Rouse? {
      LockKeepsChild(s, step, q);
    } else if s.procs[t].pc.ExScan? {
      ScanKeepsChild(s, step, q);
    } else if Wakes(s, step) {
      WakeRouses(s, step);
      WakeKeepsChild(s, r, t, q);
    } else if s.procs[t].pc.WtTop? || s.procs[t].pc.JnTop? {
      if s.procs[t].pc.WtTop? { WaitPass(s, step); } else { JoinPass(s, step); }
      PassKeepsChild(s, r, t, q);
    } else {
      EndKeepsChild(s, step, q);
    }
  }

  lemma PidsKept(s: State, step: Step, a: nat, b: nat)
    requires Inv(s) && Enabled(s, step) && a < |s.procs| && b < |s.procs|
    ensures |Apply(s, step).procs| == |s.procs| && PidsOk(Apply(s, step), a, b)
  {
    PidKept(s, step, a);
    PidKept(s, step, b);
    assert PidsOk(s, a, b) && ProcOk(s, a) && ProcOk(s, b);
  }

  /** A slot keeps its pid, or is freed, or gets the next pid there is. */
  predicate PidStep(s: State, step: Step, q: nat, p: Proc, r: Proc) {
    || (r.pid == p.pid && (r.state.Unused? <==> p.state.Unused?))
    || r == NOBODY
    || (p.state.Unused? && r.pid == s.nextpid && step.Create? && step.np == q)
  }

  lemma PidKept(s: State, step: Step, q: nat)
    requires Inv(s) && Enabled(s, step) && q < |s.procs|
    ensures |Apply(s, step).procs| == |s.procs| && PidStep(s, step, q, s.procs[q], Apply(s, step).procs[q])
  {
    if step.Go? {
      if Wakes(s, step) { WakeRouses(s, step); }
      else if s.procs[step.t].pc.WtTop? { WaitPass(s, step); }
      else if s.procs[step.t].pc.JnTop? { JoinPass(s, step); }
      else { QuietKeepsPid(s, step, q); }
    }
  }

  lemma QuietKeepsPid(s: State, step: Step, q: nat)
    requires Inv(s) && Goes(s, step) && !Wakes(s, step) && !s.procs[step.t].pc.WtTop? && !s.procs[step.t].pc.JnTop?
    requires q < |s.procs|
    ensures |Apply(s, step).procs| == |s.procs| && PidStep(s, step, q, s.procs[q], Apply(s, step).procs[q])
  {
  }

  lemma HistoryKept(s: State, step: Step)
    requires Inv(s) && Enabled(s, step)
    ensures forall x :: x in Apply(s, step).exited || x in Apply(s, step).orphaned ==> x < Apply(s, step).nextpid
  {
    forall q: nat | q < |s.procs| ensures s.procs[q].pid < s.nextpid || s.procs[q].state.Unused? { assert ProcOk(s, q); }
    assert forall q: nat :: q < |s.procs| && s.procs[q].parent == step.t ==> !s.procs[q].state.Unused? by {
      forall q: nat | q < |s.procs| && s.procs[q].parent == step.t ensures !s.procs[q].state.Unused? { assert ProcOk(s, q); }
    }
    if step.Go? { assert Apply(s, step) == Continue(s, step.t, step.killed); }
  }

  lemma StepKeepsInv(s: State, step: Step)
    requires Inv(s) && Enabled(s, step)
    ensures Inv(Apply(s, step))
  {
    var r := Apply(s, step);
    PartsKept(s, step, step.t);
    forall q: nat | q < |r.procs| ensures ProcOk(r, q) { PartsKept(s, step, q); }
    forall q: nat | q < |r.procs| ensures WaiterOk(r, q) { PartsKept(s, step, q); }
    forall q: nat | q < |r.procs| ensures JoinerOk(r, q) { JoinersKept(s, step, q); }
    forall q: nat | q < |r.procs| ensures ChildOk(r, q) { ChildrenKept(s, step, q); }
    forall a: nat, b: nat | a < |r.procs| && b < |r.procs| ensures PidsOk(r, a, b) { PidsKept(s, step, a, b); }
    HistoryKept(s, step);
  }

  lemma {:induction false} RunKeepsInv(s: State, steps: seq<Step>)
    requires Inv(s) && IsRun(s, steps)
    ensures Inv(Run(s, steps)) && |Run(s, steps).procs| == |s.procs|
    decreases |steps|
  {
    if steps != [] {
      StepKeepsInv(s, steps[0]);
      PartsKept(s, steps[0], steps[0].t);
      RunKeepsInv(Apply(s, steps[0]), steps[1..]);
    }
  }

  // ----- Main results -----

  /** Slot q holds live thread tid of joiner j's group. */
  predicate LiveThread(s: State, q: nat, j: nat, tid: nat)
    requires j < |s.procs|
  {
    q < |s.procs| && s.procs[q].state.Alive? && IsThread(s.procs[q], Leader(s, j), tid)
  }

  /**
  With wait_lock free, whatever the interleaving: a joiner sleeps on a thread of its group that has not ended, exactly
  unless that thread ended by exit(). So a target that is still in its slot is a zombie exactly if it ended by exit().
  */
  lemma JoinersMissNothing(n: nat, steps: seq<Step>, j: nat)
    requires INIT < n && IsRun(Init(n), steps) && j < |Run(Init(n), steps).procs|
    requires Run(Init(n), steps).wl == -1 && Run(Init(n), steps).procs[j].pc.JnSleep?
    ensures var s := Run(Init(n), steps); var pc := s.procs[j].pc;
      && (LiveThread(s, pc.target, j, pc.tid) <==> pc.tid !in s.exited)
      && (pc.target < |s.procs| && IsThread(s.procs[pc.target], Leader(s, j), pc.tid) ==>
            (s.procs[pc.target].state.Zombie? <==> pc.tid in s.exited))
  {
    InitInv(n);
    RunKeepsInv(Init(n), steps);
    var s := Run(Init(n), steps);
    assert JoinerOk(s, j);
    if s.procs[j].pc.target < |s.procs| { assert ProcOk(s, s.procs[j].pc.target); }
  }

  // ----- wait_lock is given back -----

  /** How many steps the holder of wait_lock has to make until it gives it back, at most, with n slots in the table. */
  function Ahead(n: nat, pc: Pc): nat {
    match pc
    case ExScan(i) => if i < n then 2 * (n - i) + 4 else 4
    case ExWakeInit(i) => if i < n then 2 * (n - i) + 3 else 5
    case ExWakeParent => 3
    case ExMark => 2
    case TxMark => 3
    case TxWake => 2
    case _ => 1
  }

  /** Every step takes the holder closer to the release, and the last one leaves the system call or sleeps without it. */
  lemma GoAdvances(s: State, t: nat, killed: bool)
    requires Inv(s) && Enabled(s, Go(t, killed))
    ensures var r, p := Apply(s, Go(t, killed)), s.procs[t].pc;
      && |r.procs| == |s.procs|
      && if Ahead(|s.procs|, p) > 1 then
           r.wl == t && HoldsLock(r.procs[t].pc) && Ahead(|s.procs|, r.procs[t].pc) < Ahead(|s.procs|, p)
         else
           r.wl == -1 && match p
                         case WtTop => r.procs[t].pc.Outside? || r.procs[t].pc.WtSleep?
                         case JnTop(tid) => r.procs[t].pc.Outside? || (r.procs[t].pc.JnSleep? && r.procs[t].pc.tid == tid)
                         case _ => r.procs[t].pc.Gone?
  {
    assert ProcOk(s, t) && ProcOk(s, INIT);
  }

  ghost predicate OnlyGoes(steps: seq<Step>, t: nat) {
    forall i :: 0 <= i < |steps| ==> steps[i].Go? && steps[i].t == t
  }

  /** Whoever holds wait_lock gives it back by at most 2n + 4 steps of its own, waiting for nobody. */
  lemma {:induction false} LockComesBack(s: State, t: nat) returns (steps: seq<Step>)
    requires Inv(s) && s.wl == t && t < |s.procs|
    ensures IsRun(s, steps) && OnlyGoes(steps, t) && Run(s, steps).wl == -1
    ensures |steps| <= Ahead(|s.procs|, s.procs[t].pc) <= 2 * |s.procs| + 4
    decreases Ahead(|s.procs|, s.procs[t].pc)
  {
    assert ProcOk(s, t);
    var step, r := Go(t, false), Apply(s, Go(t, false));
    GoAdvances(s, t, false);
    if r.wl == -1 {
      steps := [step];
      assert steps[1..] == [];
    } else {
      StepKeepsInv(s, step);
      var rest := LockComesBack(r, t);
      steps := [step] + rest;
      assert steps[1..] == rest;
    }
  }

  // ----- Reaping -----

  predicate ZombieChildOf(s: State, t: nat, q: nat) {
    q < |s.procs| && s.procs[q].parent == t && s.procs[q].state.Zombie?
  }

  /** Slot q holds the thread that t's thread_join asks for. */
  predicate Named(s: State, t: nat, tid: nat, q: nat)
    requires t < |s.procs|
  {
    q < |s.procs| && !s.procs[q].state.Unused? && s.procs[q].isThread && s.procs[q].father == Leader(s, t) && s.procs[q].pid == tid
  }

  /** The step finds slot q to reap: wait the first zombie child, thread_join the thread it names if that is a zombie. */
  predicate Reaps(s: State, step: Step, q: nat) {
    && Goes(s, step)
    && match s.procs[step.t].pc
       case WtTop => ZombieChildOf(s, step.t, q) && forall c: nat :: c < q ==> !ZombieChildOf(s, step.t, c)
       case JnTop(tid) => Named(s, step.t, tid, q) && s.procs[q].state.Zombie?
       case _ => false
  }

  /** wait_lock is given back, and of the table only t's pc has changed. */
  predicate Moved(s: State, r: State, t: nat, pc: Pc) {
    t < |s.procs| && r == s.(procs := s.procs[t := s.procs[t].(pc := pc)], wl := -1)
  }

  /** Slot q has become free, t has left the system call, and the rest of the table is as it was. */
  predicate Freed(s: State, r: State, t: nat, q: nat) {
    && t < |s.procs| == |r.procs| && q < |s.procs| && q != t && r.procs[q].state.Unused?
    && r.procs[t] == s.procs[t].(pc := Outside) && r.wl == -1 && r.nextpid == s.nextpid
    && forall c :: 0 <= c < |s.procs| && c != q && c != t ==> r.procs[c] == s.procs[c]
  }

  lemma FirstZombie(s: State, t: nat, q: nat)
    requires ZombieChildOf(s, t, q)
    ensures exists z: nat :: ZombieChildOf(s, t, z) && forall c: nat :: c < z ==> !ZombieChildOf(s, t, c)
  {
    if c: nat :| c < q && ZombieChildOf(s, t, c) { FirstZombie(s, t, c); }
  }

  /** wait frees the first zombie child's slot; without a zombie child it leaves if there is none at all, else it sleeps. */
  lemma WaitReaps(s: State, step: Step)
    requires Inv(s) && Goes(s, step) && s.procs[step.t].pc.WtTop?
    ensures (exists q: nat :: ZombieChildOf(s, step.t, q)) ==> exists q: nat :: Reaps(s, step, q)
    ensures forall q: nat :: Reaps(s, step, q) ==> Freed(s, Apply(s, step), step.t, q)
    ensures (forall q: nat :: !ZombieChildOf(s, step.t, q)) ==>
              Moved(s, Apply(s, step), step.t,
                    if step.killed || forall c :: 0 <= c < |s.procs| ==> s.procs[c].parent != step.t then Outside else WtSleep)
  {
    assert ProcOk(s, step.t);
    assert Apply(s, step) == Continue(s, step.t, step.killed);
    if q: nat :| ZombieChildOf(s, step.t, q) {
      FirstZombie(s, step.t, q);
      var z: nat :| ZombieChildOf(s, step.t, z) && forall c: nat :: c < z ==> !ZombieChildOf(s, step.t, c);
      assert Reaps(s, step, z);
    }
    var z := ZombieChild(s, step.t, 0);
    assert z < |s.procs| ==> ZombieChildOf(s, step.t, z);
    assert HasChildren(s, step.t) <==> !forall c :: 0 <= c < |s.procs| ==> s.procs[c].parent != step.t;
    forall q: nat | Reaps(s, step, q) ensures Freed(s, Apply(s, step), step.t, q) { assert z == q; }
  }

  /** thread_join frees the slot of the thread it names if that is a zombie, sleeps if it lives, and leaves if there is none. */
  lemma JoinReaps(s: State, step: Step, tid: nat)
    requires Inv(s) && Goes(s, step) && s.procs[step.t].pc == JnTop(tid)
    ensures forall q: nat :: Named(s, step.t, tid, q) ==>
              if s.procs[q].state.Zombie? then Freed(s, Apply(s, step), step.t, q)
              else Moved(s, Apply(s, step), step.t, JnSleep(tid, q))
    ensures (forall q: nat :: !Named(s, step.t, tid, q)) ==> Moved(s, Apply(s, step), step.t, Outside)
  {
    assert ProcOk(s, step.t);
    assert Apply(s, step) == Continue(s, step.t, step.killed);
    var z := FindThread(s, Leader(s, step.t), tid, 0);
    assert z < |s.procs| ==> Named(s, step.t, tid, z);
    forall q: nat | Named(s, step.t, tid, q)
      ensures if s.procs[q].state.Zombie? then Freed(s, Apply(s, step), step.t, q)
              else Moved(s, Apply(s, step), step.t, JnSleep(tid, q))
    {
      assert IsThread(s.procs[q], Leader(s, step.t), tid);
      assert PidsOk(s, q, z);
      assert z == q;
    }
  }

  /** Only creation takes a slot into use, only reaping frees one. */
  lemma SlotsChange(s: State, step: Step, q: nat)
    requires Inv(s) && Enabled(s, step) && q < |s.procs|
    ensures |Apply(s, step).procs| == |s.procs|
    ensures Apply(s, step).procs[q].state.Unused? <==>
              Reaps(s, step, q) || (s.procs[q].state.Unused? && !(step.Create? && step.np == q))
    ensures !Apply(s, step).procs[q].state.Unused? ==>
              Apply(s, step).procs[q].pid == if step.Create? && step.np == q then s.nextpid else s.procs[q].pid
    ensures Apply(s, step).nextpid == s.nextpid + if step.Create? then 1 else 0
  {
    if LooksForChild(s, step) {
      WaitReaps(s, step);
      if x: nat :| Reaps(s, step, x) { assert q != step.t && q != x ==> Apply(s, step).procs[q] == s.procs[q]; }
    } else if LooksForThread(s, step) {
      JoinReaps(s, step, s.procs[step.t].pc.tid);
    } else if Wakes(s, step) {
      WakeRouses(s, step);
    } else {
      OthersKeepSlots(s, step, q);
    }
  }

  predicate LooksForChild(s: State, step: Step) { Goes(s, step) && s.procs[step.t].pc.WtTop? }

  predicate LooksForThread(s: State, step: Step) { Goes(s, step) && s.procs[step.t].pc.JnTop? }

  lemma OthersKeepSlots(s: State, step: Step, q: nat)
    requires Inv(s) && Enabled(s, step) && q < |s.procs|
    requires !LooksForChild(s, step) && !LooksForThread(s, step) && !Wakes(s, step)
    ensures var r := Apply(s, step);
      && |r.procs| == |s.procs|
      && (r.procs[q].state.Unused? <==> s.procs[q].state.Unused? && !(step.Create? && step.np == q))
      && (!r.procs[q].state.Unused? ==>
            r.procs[q].pid == if step.Create? && step.np == q then s.nextpid else s.procs[q].pid)
      && r.nextpid == s.nextpid + if step.Create? then 1 else 0
  {
    if step.Go? { assert Apply(s, step) == Continue(s, step.t, step.killed); }
  }

  lemma OneReaped(s: State, step: Step, a: nat, b: nat)
    requires Inv(s) && Reaps(s, step, a) && Reaps(s, step, b)
    ensures a == b
  {
    if s.procs[step.t].pc.JnTop? { assert PidsOk(s, a, b); }
  }

  predicate InUse(s: State, q: nat) { q < |s.procs| && !s.procs[q].state.Unused? }

  ghost function Slots(s: State): set<nat> { set q: nat | q < |s.procs| && InUse(s, q) }

  ghost predicate HasPid(s: State, x: nat) { exists q: nat :: InUse(s, q) && s.procs[q].pid == x }

  /** The pid that a step reaps, if any. */
  ghost function Reaped(s: State, step: Step): seq<nat> {
    if q: nat :| Reaps(s, step, q) then [s.procs[q].pid] else []
  }

  function Creations(steps: seq<Step>): nat
    decreases |steps|
  {
    if steps == [] then 0 else Creations(steps[1..]) + if steps[0].Create? then 1 else 0
  }

  /** The pids that wait and thread_join have reaped, in order. */
  ghost function ReapedPids(s: State, steps: seq<Step>): seq<nat>
    requires IsRun(s, steps)
    decreases |steps|
  {
    if steps == [] then [] else
      Reaped(s, steps[0]) + ReapedPids(Apply(s, steps[0]), steps[1..])
  }

  lemma AllSlots(s: State, step: Step)
    requires Inv(s) && Enabled(s, step)
    ensures |Apply(s, step).procs| == |s.procs| && Apply(s, step).nextpid == s.nextpid + if step.Create? then 1 else 0
    ensures forall q: nat {:trigger InUse(Apply(s, step), q)} ::
              InUse(Apply(s, step), q) <==> !Reaps(s, step, q) && (InUse(s, q) || (step.Create? && step.np == q))
    ensures forall q: nat {:trigger InUse(Apply(s, step), q)} :: InUse(Apply(s, step), q) ==>
              Apply(s, step).procs[q].pid == if step.Create? && step.np == q then s.nextpid else s.procs[q].pid
  {
    SlotsChange(s, step, step.t);
    forall q: nat | q < |s.procs|
      ensures InUse(Apply(s, step), q) <==> !Reaps(s, step, q) && (InUse(s, q) || (step.Create? && step.np == q))
      ensures InUse(Apply(s, step), q) ==>
                Apply(s, step).procs[q].pid == if step.Create? && step.np == q then s.nextpid else s.procs[q].pid
    {
      SlotsChange(s, step, q);
    }
  }

  /** A pid nobody has, and that has been given out, is never seen again. */
  lemma {:induction false} DeadStayDead(s: State, steps: seq<Step>, x: nat)
    requires Inv(s) && IsRun(s, steps) && x < s.nextpid && !HasPid(s, x)
    ensures !HasPid(Run(s, steps), x)
    decreases |steps|
  {
    if steps != [] {
      AllSlots(s, steps[0]);
      StepKeepsInv(s, steps[0]);
      DeadStayDead(Apply(s, steps[0]), steps[1..], x);
    }
  }

  lemma SlotCount(s: State, step: Step)
    requires Inv(s) && Enabled(s, step)
    ensures |Slots(Apply(s, step))| == |Slots(s)| + (if step.Create? then 1 else 0) - |Reaped(s, step)|
  {
    AllSlots(s, step);
    var r := Apply(s, step);
    if step.Create? {
      assert Slots(r) == Slots(s) + {step.np} && step.np !in Slots(s);
    } else if q: nat :| Reaps(s, step, q) {
      forall x: nat | Reaps(s, step, x) ensures x == q { OneReaped(s, step, x, q); }
      assert Slots(r) == Slots(s) - {q} && q in Slots(s);
    } else {
      assert Slots(r) == Slots(s);
    }
  }

  /** Slots in use are slots at first, and creations, less reapings. */
  lemma {:induction false} Census(s: State, steps: seq<Step>)
    requires Inv(s) && IsRun(s, steps)
    ensures |Slots(Run(s, steps))| + |ReapedPids(s, steps)| == |Slots(s)| + Creations(steps)
    decreases |steps|
  {
    if steps != [] {
      SlotCount(s, steps[0]);
      StepKeepsInv(s, steps[0]);
      Census(Apply(s, steps[0]), steps[1..]);
    }
  }

  lemma ReapedIsDead(s: State, step: Step, x: nat)
    requires Inv(s) && Enabled(s, step) && Reaped(s, step) == [x]
    ensures HasPid(s, x) && x < s.nextpid && !HasPid(Apply(s, step), x)
  {
    AllSlots(s, step);
    var q: nat :| Reaps(s, step, q) && s.procs[q].pid == x;
    assert InUse(s, q) && ProcOk(s, q);
    forall c: nat | InUse(Apply(s, step), c) ensures Apply(s, step).procs[c].pid != x { assert PidsOk(s, c, q); }
  }

  predicate Distinct(pids: seq<nat>) { forall i, j :: 0 <= i < j < |pids| ==> pids[i] != pids[j] }

  /** No pid is reaped twice, and no process is left that has been reaped. */
  lemma {:induction false} ReapedOnce(s: State, steps: seq<Step>)
    requires Inv(s) && IsRun(s, steps)
    ensures Distinct(ReapedPids(s, steps))
    ensures forall x :: x in ReapedPids(s, steps) ==> (HasPid(s, x) || x >= s.nextpid) && !HasPid(Run(s, steps), x)
    decreases |steps|
  {
    if steps != [] {
      var r := Apply(s, steps[0]);
      StepKeepsInv(s, steps[0]);
      AllSlots(s, steps[0]);
      ReapedOnce(r, steps[1..]);
      forall x: nat | HasPid(r, x) ensures HasPid(s, x) || x >= s.nextpid { }
      if Reaped(s, steps[0]) != [] {
        var x := Reaped(s, steps[0])[0];
        ReapedIsDead(s, steps[0], x);
        DeadStayDead(r, steps[1..], x);
      }
    }
  }

  /** From the first process on: everything created is in its slot or has been reaped, once. */
  lemma EveryoneReapedOnce(n: nat, steps: seq<Step>)
    requires INIT < n && IsRun(Init(n), steps)
    ensures |Slots(Run(Init(n), steps))| + |ReapedPids(Init(n), steps)| == 1 + Creations(steps)
    ensures Distinct(ReapedPids(Init(n), steps))
  {
    InitInv(n);
    Census(Init(n), steps);
    ReapedOnce(Init(n), steps);
    assert Slots(Init(n)) == {INIT};
  }

  /** What is in slot q after the step, if it is not reaped. */
  predicate Becomes(s: State, step: Step, q: nat, r: Proc)
    requires Enabled(s, step) && q < |s.procs|
  {
    var p := s.procs[q];
    if step.Create? && step.np == q then
      && r.state.Alive? && r.parent == step.t && r.isThread == step.thread && r.pc == Outside
      && (step.thread ==> r.father == if s.procs[step.t].isThread then s.procs[step.t].father else step.t)
    else
      && r.isThread == p.isThread && r.father == p.father
      && r.state == (if step.t == q && Goes(s, step) && (p.pc.ExMark? || p.pc.TxMark?) then Zombie else p.state)
      && r.parent == if Goes(s, step) && s.procs[step.t].pc == ExScan(q) && p.parent == step.t then INIT else p.parent
  }

  /** The call a process makes takes it to its wait_lock, the lock to the body, kill back to the lock. */
  lemma CallsBegin(s: State, step: Step)
    requires Enabled(s, step) && (step.Call? || step.Lock? || step.Rouse?)
    ensures var t, pc, r := step.t, s.procs[step.t].pc, Apply(s, step);
      && |r.procs| == |s.procs| && r.wl == (if step.Lock? then t else s.wl)
      && (forall q :: 0 <= q < |s.procs| && q != t ==> r.procs[q] == s.procs[q])
      && match step
         case Call(_, Exit) => r.procs[t].pc == ExLock
         case Call(_, ThreadExit) => r.procs[t].pc == if s.procs[t].isThread then TxLock else ExLock
         case Call(_, Wait) => r.procs[t].pc == WtLock
         case Call(_, Join(tid)) => r.procs[t].pc == JnLock(tid)
         case Lock(_) =>
           && (pc.ExLock? ==> r.procs[t].pc == ExScan(0)) && (pc.TxLock? ==> r.procs[t].pc == TxMark)
           && (pc.WtLock? ==> r.procs[t].pc == WtTop) && (pc.JnLock? ==> r.procs[t].pc == JnTop(pc.tid))
         case Rouse(_) =>
           (pc.WtSleep? ==> r.procs[t].pc == WtLock) && (pc.JnSleep? ==> r.procs[t].pc == JnLock(pc.tid))
         case _ => true
  {
  }

  /** A process ends by exit()'s or thread_exit()'s marking step only, and only exit()'s scan gives a process another parent. */
  lemma LivesChange(s: State, step: Step, q: nat)
    requires Inv(s) && Enabled(s, step) && q < |s.procs| && !Reaps(s, step, q)
    ensures q < |Apply(s, step).procs| && Becomes(s, step, q, Apply(s, step).procs[q])
  {
    if LooksForChild(s, step) {
      WaitReaps(s, step);
      if x: nat :| Reaps(s, step, x) { assert Freed(s, Apply(s, step), step.t, x); }
    } else if LooksForThread(s, step) {
      JoinReaps(s, step, s.procs[step.t].pc.tid);
    } else if Wakes(s, step) {
      WakeRouses(s, step);
    } else {
      OthersLive(s, step, q);
    }
  }

  lemma OthersLive(s: State, step: Step, q: nat)
    requires Inv(s) && Enabled(s, step) && q < |s.procs| && !LooksForChild(s, step) && !LooksForThread(s, step) && !Wakes(s, step)
    ensures q < |Apply(s, step).procs| && Becomes(s, step, q, Apply(s, step).procs[q])
  {
    assert ProcOk(s, step.t) && ProcOk(s, q) && ProcOk(s, INIT);
    if step.Go? { assert Apply(s, step) == Continue(s, step.t, step.killed); }
  }

  /** exited holds exactly the threads that have marked themselves ZOMBIE in exit(). */
  lemma {:induction false} ExitedMeans(s: State, steps: seq<Step>, x: nat)
    requires INIT < |s.procs| && Inv(s) && IsRun(s, steps)
    ensures x in Run(s, steps).exited <==> x in s.exited || ExitsDuring(s, steps, x)
    decreases |steps|
  {
    if steps != [] {
      StepKeepsInv(s, steps[0]);
      ExitedMeans(Apply(s, steps[0]), steps[1..], x);
      if steps[0].Go? { assert Apply(s, steps[0]) == Continue(s, steps[0].t, steps[0].killed); }
    }
  }

  /** Thread x takes exit()'s step to ZOMBIE somewhere in the run. */
  predicate ExitsDuring(s: State, steps: seq<Step>, x: nat)
    requires IsRun(s, steps)
    decreases |steps|
  {
    steps != [] && (Exits(s, steps[0], x) || ExitsDuring(Apply(s, steps[0]), steps[1..], x))
  }

  predicate Exits(s: State, step: Step, x: nat) {
    Goes(s, step) && var p := s.procs[step.t]; p.pc.ExMark? && p.isThread && p.pid == x
  }

  /** With wait_lock free nobody sleeps in wait() while a child that is not a thread is a zombie. */
  lemma WaitersMissNothing(n: nat, steps: seq<Step>, p: nat, c: nat)
    requires INIT < n && IsRun(Init(n), steps) && p < |Run(Init(n), steps).procs| && c < |Run(Init(n), steps).procs|
    requires Run(Init(n), steps).wl == -1 && Run(Init(n), steps).procs[p].pc.WtSleep?
    ensures var s := Run(Init(n), steps);
      s.procs[c].parent == p && s.procs[c].state.Zombie? ==> s.procs[c].isThread
  {
    InitInv(n);
    RunKeepsInv(Init(n), steps);
    assert WaiterOk(Run(Init(n), steps), c);
  }

  /** The process that c's parent field was set to is alive and still in that slot. */
  predicate ParentLives(s: State, c: nat)
    requires c < |s.procs|
  {
    var p := s.procs[c].parent;
    0 <= p < |s.procs| && s.procs[p].state.Alive? && s.procs[p].pid == s.procs[c].ppid
  }

  /** A process has its parent to reap it, exactly unless the parent left by thread_exit() and nobody has adopted it since. */
  lemma ParentsLive(n: nat, steps: seq<Step>, c: nat)
    requires INIT < n && IsRun(Init(n), steps) && c < |Run(Init(n), steps).procs|
    ensures var s := Run(Init(n), steps);
      s.procs[c].parent != -1 ==> (ParentLives(s, c) <==> s.procs[c].pid !in s.orphaned)
  {
    InitInv(n);
    RunKeepsInv(Init(n), steps);
    var s := Run(Init(n), steps);
    assert ProcOk(s, c) && ChildOk(s, c);
  }

  /** The step that does it: thread_exit does not reparent, and orphans exactly the children the thread has. */
  lemma ThreadExitOrphans(s: State, t: nat, c: nat)
    requires Inv(s) && Goes(s, Go(t, false)) && s.procs[t].pc.TxMark? && c < |s.procs| && !s.procs[c].state.Unused?
    ensures var r := Apply(s, Go(t, false));
      && c < |r.procs| && r.procs[c].parent == s.procs[c].parent && r.procs[t].state.Zombie?
      && (r.procs[c].pid in r.orphaned <==> s.procs[c].pid in s.orphaned || s.procs[c].parent == t)
  {
    assert ProcOk(s, c) && Apply(s, Go(t, false)) == Continue(s, t, false);
    if s.procs[c].pid in ChildPids(s, t) {
      var d: nat :| d < |s.procs| && s.procs[d].parent == t && s.procs[d].pid == s.procs[c].pid;
      assert ProcOk(s, d) && PidsOk(s, c, d);
    }
  }

  /** orphaned holds exactly the processes that a thread_exit() left behind and no exit() of a parent has reparented since. */
  lemma {:induction false} OrphanedMeans(s: State, steps: seq<Step>, x: nat)
    requires INIT < |s.procs| && Inv(s) && IsRun(s, steps)
    ensures x in Run(s, steps).orphaned <==>
              LeftDuring(s, steps, x) || (x in s.orphaned && !AdoptedDuring(s, steps, x))
    decreases |steps|
  {
    if steps != [] {
      StepKeepsInv(s, steps[0]);
      OrphanedMeans(Apply(s, steps[0]), steps[1..], x);
      if steps[0].Go? { assert Apply(s, steps[0]) == Continue(s, steps[0].t, steps[0].killed); }
    }
  }

  /** x loses its parent to a thread_exit() in the run, and is not adopted later. */
  predicate LeftDuring(s: State, steps: seq<Step>, x: nat)
    requires IsRun(s, steps)
    decreases |steps|
  {
    steps != [] &&
    var r := Apply(s, steps[0]);
    (Leaves(s, steps[0], x) && !AdoptedDuring(r, steps[1..], x)) || LeftDuring(r, steps[1..], x)
  }

  predicate AdoptedDuring(s: State, steps: seq<Step>, x: nat)
    requires IsRun(s, steps)
    decreases |steps|
  {
    steps != [] && (Adopts(s, steps[0], x) || AdoptedDuring(Apply(s, steps[0]), steps[1..], x))
  }

  predicate Leaves(s: State, step: Step, x: nat) {
    Goes(s, step) && s.procs[step.t].pc.TxMark? && x in ChildPids(s, step.t)
  }

  predicate Adopts(s: State, step: Step, x: nat) {
    Goes(s, step) && var pc := s.procs[step.t].pc;
    pc.ExScan? && pc.i < |s.procs| && s.procs[pc.i].parent == step.t && s.procs[pc.i].pid == x
  }

  const ORPHANING: seq<Step> := [Create(0, 1, true), Create(1, 2, false), Call(1, ThreadExit), Lock(1), Go(1, false)]

  /** It can happen: the first process makes a thread, which forks and leaves. */
  lemma OrphanReachable()
    ensures IsRun(Init(3), ORPHANING)
    ensures var s := Run(Init(3), ORPHANING); |s.procs| == 3 && s.procs[2].parent == 1 && !ParentLives(s, 2) && 3 in s.orphaned
  {
    var s0 := Init(3);
    var s1 := Apply(s0, Create(0, 1, true));
    var s2 := Apply(s1, Create(1, 2, false));
    var s3 := Apply(s2, Call(1, ThreadExit));
    var s4 := Apply(s3, Lock(1));
    var s5 := Apply(s4, Go(1, false));
    assert s5.procs[2].pid in ChildPids(s4, 1);
    OneStep(s4, ORPHANING[4..], s5);
    OneStep(s3, ORPHANING[3..], s4);
    OneStep(s2, ORPHANING[2..], s3);
    OneStep(s1, ORPHANING[1..], s2);
    OneStep(s0, ORPHANING[0..], s1);
    assert ORPHANING[0..] == ORPHANING;
  }

  lemma OneStep(s: State, steps: seq<Step>, r: State)
    requires steps != [] && Enabled(s, steps[0]) && Apply(s, steps[0]) == r && IsRun(r, steps[1..])
    ensures IsRun(s, steps) && Run(s, steps) == Run(r, steps[1..])
  {
  }

  predicate AsleepOn(s: State, j: nat, t: nat) {
    j < |s.procs| && s.procs[j].pc.JnSleep? && s.procs[j].pc.target == t
  }

  ghost predicate OnlyMover(steps: seq<Step>, t: nat) {
    forall i :: 0 <= i < |steps| ==> steps[i].t == t
  }

  /**
  When a thread leaves by exit() instead, nothing in exit() wakes its joiners: left to itself it gets through and
  releases wait_lock, and whoever slept on it now sleeps on a zombie.
  */
  lemma ExitStrandsJoiner(s: State, t: nat, j: nat) returns (steps: seq<Step>)
    requires Inv(s) && s.wl == -1 && t < |s.procs| && s.procs[t].pc.ExLock? && s.procs[t].isThread && AsleepOn(s, j, t)
    ensures IsRun(s, steps) && OnlyMover(steps, t)
    ensures var r := Run(s, steps); r.wl == -1 && AsleepOn(r, j, t) && t < |r.procs| && r.procs[t].state.Zombie?
  {
    assert ProcOk(s, t);
    StepKeepsInv(s, Lock(t));
    var rest := ScanStrands(Apply(s, Lock(t)), t, j);
    steps := [Lock(t)] + rest;
    assert steps[1..] == rest;
  }

  /** One step of an exiting thread leaves its joiners asleep and takes it forward. */
  lemma ExitStep(s: State, t: nat, j: nat)
    requires Inv(s) && s.wl == t && t < |s.procs| && Exiting(s.procs[t].pc) && s.procs[t].isThread && AsleepOn(s, j, t)
    ensures Enabled(s, Go(t, false)) && Inv(Apply(s, Go(t, false)))
    ensures var r := Apply(s, Go(t, false));
      && |r.procs| == |s.procs| && AsleepOn(r, j, t) && r.procs[t].isThread
      && match s.procs[t].pc
         case ExScan(i) =>
           r.wl == t && (if i >= |s.procs| then r.procs[t].pc.ExWakeParent?
                         else r.procs[t].pc == ExScan(i + 1) || r.procs[t].pc == ExWakeInit(i))
         case ExWakeInit(i) => r.wl == t && r.procs[t].pc == ExScan(i + 1)
         case ExWakeParent => r.wl == t && r.procs[t].pc.ExMark?
         case ExMark => r.wl == t && r.procs[t].pc.ExUnlock?
         case ExUnlock => r.wl == -1 && r.procs[t].state.Zombie?
         case _ => true
  {
    assert ProcOk(s, t) && ProcOk(s, j) && ProcOk(s, INIT);
    StepKeepsInv(s, Go(t, false));
  }

  lemma {:induction false} ScanStrands(s: State, t: nat, j: nat) returns (steps: seq<Step>)
    requires Inv(s) && s.wl == t && t < |s.procs| && Exiting(s.procs[t].pc) && s.procs[t].isThread && AsleepOn(s, j, t)
    ensures IsRun(s, steps) && OnlyMover(steps, t)
    ensures var r := Run(s, steps); r.wl == -1 && AsleepOn(r, j, t) && t < |r.procs| && r.procs[t].state.Zombie?
    decreases Ahead(|s.procs|, s.procs[t].pc)
  {
    assert ProcOk(s, t);
    ExitStep(s, t, j);
    var r := Apply(s, Go(t, false));
    if s.procs[t].pc.ExUnlock? {
      steps := [Go(t, false)];
      assert steps[1..] == [];
    } else {
      var rest := ScanStrands(r, t, j);
      steps := [Go(t, false)] + rest;
      assert steps[1..] == rest;
    }
  }

  /** The run up to there: a process creates a thread and joins it, and the thread calls exit(). */
  const JOINING: seq<Step> := [Create(0, 1, true), Call(0, Join(2)), Lock(0), Go(0, false), Call(1, Exit)]

  /** The first process and the thread it has created, at the given places. */
  function Two(a: Pc, b: Pc, wl: int): State {
    State([Proc(Alive, -1, false, -1, 1, 0, a), Proc(Alive, 0, true, 0, 2, 1, b)], wl, 3, {}, {})
  }

  lemma JoiningRuns()
    ensures IsRun(Init(2), JOINING) && Run(Init(2), JOINING) == Two(JnSleep(2, 1), ExLock, -1)
  {
    var s4, s5 := Two(JnSleep(2, 1), Outside, -1), Two(JnSleep(2, 1), ExLock, -1);
    assert Apply(s4, Call(1, Exit)) == s5;
    OneStep(s4, JOINING[4..], s5);
    JoiningSleeps();
    OneStep(Two(JnTop(2), Outside, 0), JOINING[3..], s4);
    assert Apply(Two(JnLock(2), Outside, -1), Lock(0)) == Two(JnTop(2), Outside, 0);
    OneStep(Two(JnLock(2), Outside, -1), JOINING[2..], Two(JnTop(2), Outside, 0));
    assert Apply(Two(Outside, Outside, -1), Call(0, Join(2))) == Two(JnLock(2), Outside, -1);
    OneStep(Two(Outside, Outside, -1), JOINING[1..], Two(JnLock(2), Outside, -1));
    assert Apply(Init(2), Create(0, 1, true)) == Two(Outside, Outside, -1);
    OneStep(Init(2), JOINING, Two(Outside, Outside, -1));
  }

  lemma JoiningSleeps()
    ensures Enabled(Two(JnTop(2), Outside, 0), Go(0, false))
    ensures Apply(Two(JnTop(2), Outside, 0), Go(0, false)) == Two(JnSleep(2, 1), Outside, -1)
  {
    var s := Two(JnTop(2), Outside, 0);
    assert FindThread(s, 0, 2, 1) == 1 && FindThread(s, 0, 2, 0) == 1;
    assert Apply(s, Go(0, false)) == Continue(s, 0, false);
    assert Continue(s, 0, false).procs == Two(JnSleep(2, 1), Outside, -1).procs;
  }

  /** It can happen: thread_join sleeps on a zombie with wait_lock free. */
  lemma StrandedReachable() returns (steps: seq<Step>)
    ensures IsRun(Init(2), steps)
    ensures var s := Run(Init(2), steps);
      s.wl == -1 && AsleepOn(s, 0, 1) && 1 < |s.procs| && s.procs[1].state.Zombie? && s.procs[0].pc.tid in s.exited
  {
    JoiningRuns();
    InitInv(2);
    RunKeepsInv(Init(2), JOINING);
    var rest := ExitStrandsJoiner(Run(Init(2), JOINING), 1, 0);
    RunAppend(Init(2), JOINING, rest);
    steps := JOINING + rest;
    JoinersMissNothing(2, steps, 0);
  }

  lemma {:induction false} RunAppend(s: State, a: seq<Step>, b: seq<Step>)
    requires IsRun(s, a) && IsRun(Run(s, a), b)
    ensures IsRun(s, a + b) && Run(s, a + b) == Run(Run(s, a), b)
    decreases |a|
  {
    if a == [] {
      assert a + b == b;
    } else {
      RunAppend(Apply(s, a[0]), a[1..], b);
      assert (a + b)[1..] == a[1..] + b;
    }
  }
}
