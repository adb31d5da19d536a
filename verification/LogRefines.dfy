/**
log.c over the buffer cache, as a run of the protocol: begin_op, the documented use of log_write, and end_op are steps
of LogProtocol, and a commit's block writes are its commit steps, one for one. So whatever disk the code passes
through, recovery gives exactly the committed transactions.
*/
module LogRefines {
  import opened LogSpec
  import opened Bio
  import L = Log
  import P = LogProtocol

  // ----- One commit -----

  /** A commit looks at home blocks of the view only. */
  lemma {:induction false} SameViewSameDisk(a: Area, d: Disk, v: Disk, w: Disk, lh: seq<nat>, i: nat)
    requires Loggable(a, |d|, lh) && |v| == |d| && SameHome(a, v, w) && i <= 2 * |lh| + 2
    ensures CommitDisk(a, d, v, lh, i) == CommitDisk(a, d, w, lh, i)
  {
    if i > 0 {
      SameViewSameDisk(a, d, v, w, lh, i - 1);
      if i - 1 < |lh| { assert !InLog(a, lh[i - 1]); }
    }
  }

  function Blocks(k: nat): seq<P.Step> { seq(k, _ => P.CommitBlock) }

  /** k steps into a commit that began on disk `from`. */
  ghost predicate Inside(a: Area, s: P.State, t: P.State, from: Disk, k: nat) {
    && Loggable(a, |from|, s.lh) && |s.view| == |from| && k <= 2 * |s.lh| + 2
    && t.disk == CommitDisk(a, from, s.view, s.lh, k) && t.view == s.view && t.used == s.used
    && (if k < 2 * |s.lh| + 2 then t.phase == P.Committing(from, k) && t.lh == s.lh else t.phase == P.Running && t.lh == [])
  }

  lemma InsideStep(a: Area, s: P.State, t: P.State, from: Disk, k: nat)
    requires Inside(a, s, t, from, k) && k < 2 * |s.lh| + 2
    ensures Next(a, t, P.CommitBlock).Some? && Inside(a, s, Next(a, t, P.CommitBlock).value, from, k + 1)
  {
  }

  /** The last operation has ended and the commit is about to begin. */
  ghost predicate Due(a: Area, s: P.State) {
    s.phase == P.Committing(s.disk, 0) && |s.view| == |s.disk| && Loggable(a, |s.disk|, s.lh)
  }

  // ----- Runs with their states -----

  datatype Option<T> = None | Some(value: T)

  ghost function Next(a: Area, s: P.State, step: P.Step): Option<P.State> {
    if P.Enabled(a, s, step) then Some(P.Apply(a, s, step)) else None
  }

  /** `states` are the first state and those that `steps` lead to from it, one after the other. */
  ghost predicate Chain(a: Area, steps: seq<P.Step>, states: seq<P.State>) {
    |states| == |steps| + 1 && forall i {:trigger steps[i]} :: 0 <= i < |steps| ==> Next(a, states[i], steps[i]) == Some(states[i + 1])
  }

  ghost function Last(states: seq<P.State>): P.State
    requires states != []
  {
    states[|states| - 1]
  }

  lemma ChainGrows(a: Area, steps: seq<P.Step>, states: seq<P.State>, step: P.Step, t: P.State)
    requires Chain(a, steps, states) && Next(a, Last(states), step) == Some(t)
    ensures Chain(a, steps + [step], states + [t]) && Last(states + [t]) == t
  {
    forall i | 0 <= i < |steps| + 1
      ensures Next(a, (states + [t])[i], (steps + [step])[i]) == Some((states + [t])[i + 1])
    {
      if i < |steps| { assert steps[i] == steps[i]; }
    }
  }

  predicate IsWrite(step: P.Step) { step.CommitBlock? || step.RecoverBlock? }

  ghost function Disks(states: seq<P.State>): (r: seq<Disk>)
    ensures |r| == |states| && forall j :: 0 <= j < |r| ==> r[j] == states[j].disk
  {
    seq(|states|, j requires 0 <= j < |states| => states[j].disk)
  }

  /** Disk i of the trail is the one that a block write has left, the step before at[i]; later writes are later steps. */
  ghost predicate Marks(steps: seq<P.Step>, states: seq<P.State>, trail: seq<Disk>, at: seq<nat>) {
    && |at| == |trail| && |states| == |steps| + 1
    && (forall i {:trigger at[i]} :: 0 <= i < |at| ==>
          0 < at[i] <= |steps| && IsWrite(steps[at[i] - 1]) && states[at[i]].disk == trail[i])
    && (forall i, j {:trigger at[i], at[j]} :: 0 <= i < j < |at| ==> at[i] < at[j])
  }

  /** k positions, one after the other. */
  function From(first: nat, k: nat): (r: seq<nat>)
    ensures |r| == k && forall j :: 0 <= j < k ==> r[j] == first + j
  {
    seq(k, j => first + j)
  }

  /** One step that writes nothing, and then one write after the other. */
  lemma MarksOn(steps: seq<P.Step>, states: seq<P.State>, trail: seq<Disk>, at: seq<nat>, step: P.Step, writes: seq<P.Step>,
                more: seq<P.State>)
    requires Marks(steps, states, trail, at) && |more| == |writes| + 1 && forall j :: 0 <= j < |writes| ==> IsWrite(writes[j])
    ensures Marks(steps + ([step] + writes), states + more, trail + Disks(more[1..]), at + From(|steps| + 2, |writes|))
  {
    var steps1, states1, trail1 := steps + ([step] + writes), states + more, trail + Disks(more[1..]);
    var n, at1 := |steps|, at + From(|steps| + 2, |writes|);
    forall i | 0 <= i < |at1|
      ensures 0 < at1[i] <= |steps1| && IsWrite(steps1[at1[i] - 1]) && states1[at1[i]].disk == trail1[i]
    {
      if i < |at| {
        assert at1[i] == at[i];
      } else {
        assert at1[i] == n + 2 + (i - |at|) && steps1[at1[i] - 1] == writes[i - |at|];
      }
    }
  }

  /** Such a chain from the initial state is a run, and its states are those the run reaches. */
  lemma {:induction false} ChainIsRun(a: Area, d0: Disk, steps: seq<P.Step>, states: seq<P.State>, n: nat)
    requires Chain(a, steps, states) && states[0] == P.Init(d0) && n <= |steps|
    ensures P.IsRun(a, d0, steps[..n]) && P.Run(a, d0, steps[..n]) == states[n]
  {
    if n > 0 {
      ChainIsRun(a, d0, steps, states, n - 1);
      assert Next(a, states[n - 1], steps[n - 1]) == Some(states[n]);
      RunGrows(a, d0, steps[..n - 1], steps[n - 1], states[n]);
      assert steps[..n] == steps[..n - 1] + [steps[n - 1]];
    }
  }

  lemma RunGrows(a: Area, d0: Disk, steps: seq<P.Step>, step: P.Step, t: P.State)
    requires P.IsRun(a, d0, steps) && Next(a, P.Run(a, d0, steps), step) == Some(t)
    ensures P.IsRun(a, d0, steps + [step]) && P.Run(a, d0, steps + [step]) == t
  {
    assert (steps + [step])[..|steps|] == steps;
  }

  /** A chain that ends where a commit is due goes on with the first k writes of the commit. */
  lemma {:induction false} CommitChain(a: Area, steps: seq<P.Step>, states: seq<P.State>, k: nat) returns (more: seq<P.State>)
    requires Chain(a, steps, states) && Due(a, Last(states)) && k <= 2 * |Last(states).lh| + 2
    ensures Chain(a, steps + Blocks(k), states + more) && Inside(a, Last(states), Last(states + more), Last(states).disk, k)
    ensures |more| == k && var s := Last(states);
      forall j {:trigger more[j]} :: 0 <= j < k ==> more[j].disk == CommitDisk(a, s.disk, s.view, s.lh, j + 1)
  {
    if k == 0 {
      more := [];
      assert steps + Blocks(0) == steps && states + more == states;
    } else {
      var before := CommitChain(a, steps, states, k - 1);
      var s, t := Last(states), Last(states + before);
      InsideStep(a, s, t, s.disk, k - 1);
      var u := Next(a, t, P.CommitBlock).value;
      ChainGrows(a, steps + Blocks(k - 1), states + before, P.CommitBlock, u);
      more := before + [u];
      assert steps + Blocks(k) == steps + Blocks(k - 1) + [P.CommitBlock] && states + more == states + before + [u];
    }
  }

  function Replays(k: nat): seq<P.Step> { seq(k, _ => P.RecoverBlock) }

  /** k steps into the recovery of state s. */
  ghost predicate InsideRecovery(a: Area, s: P.State, t: P.State, k: nat) {
    && Image(a, s.disk)
    && var home := Decode(s.disk[a.start]);
    && k <= |home| + 1 && t.disk == t.view == RecoverDisk(a, s.disk, home, k) && t.used == map[] && t.lh == []
    && t.phase == if k <= |home| then P.Recovering(s.disk, home, k) else P.Running
  }

  lemma InsideRecoveryStep(a: Area, s: P.State, t: P.State, k: nat)
    requires InsideRecovery(a, s, t, k) && k <= |Decode(s.disk[a.start])|
    ensures Next(a, t, P.RecoverBlock).Some? && InsideRecovery(a, s, Next(a, t, P.RecoverBlock).value, k + 1)
  {
  }

  /** A chain goes on with a crash where it ends, and the first k writes of the recovery. */
  lemma {:induction false} RecoverChain(a: Area, steps: seq<P.Step>, states: seq<P.State>, k: nat) returns (more: seq<P.State>)
    requires Chain(a, steps, states) && Image(a, Last(states).disk) && k <= |Decode(Last(states).disk[a.start])| + 1
    ensures Chain(a, steps + [P.Crash] + Replays(k), states + more) && InsideRecovery(a, Last(states), Last(states + more), k)
    ensures |more| == k + 1 && var d := Last(states).disk;
      forall j {:trigger more[j]} :: 0 <= j <= k ==> more[j].disk == RecoverDisk(a, d, Decode(d[a.start]), j)
  {
    if k == 0 {
      more := [P.Apply(a, Last(states), P.Crash)];
      ChainGrows(a, steps, states, P.Crash, more[0]);
      assert steps + [P.Crash] + Replays(0) == steps + [P.Crash];
    } else {
      var before := RecoverChain(a, steps, states, k - 1);
      var s, t := Last(states), Last(states + before);
      InsideRecoveryStep(a, s, t, k - 1);
      var u := Next(a, t, P.RecoverBlock).value;
      ChainGrows(a, steps + [P.Crash] + Replays(k - 1), states + before, P.RecoverBlock, u);
      more := before + [u];
      assert steps + [P.Crash] + Replays(k) == steps + [P.Crash] + Replays(k - 1) + [P.RecoverBlock];
      assert states + more == states + before + [u];
    }
  }

  // ----- The code -----

  /** The code's variables between operations are those of state s, where clients can tell. */
  ghost predicate Agree(a: Area, disk: Disk, view: Disk, lh: seq<nat>, outstanding: nat, s: P.State) {
    && s.phase.Running? && s.disk == disk && SameHome(a, view, s.view) && |s.view| == |s.disk|
    && s.lh == lh && |s.used| == outstanding
  }

  /** An operation ends and no commit follows. */
  lemma EndAgrees(a: Area, disk: Disk, view: Disk, now: Disk, lh: seq<nat>, outstanding: nat, s: P.State, op: nat)
    requires Agree(a, disk, view, lh, outstanding, s) && P.Enabled(a, s, P.End(op)) && SameHome(a, now, view)
    requires outstanding > 1 || lh == []
    ensures outstanding >= 1 && Agree(a, disk, now, lh, outstanding - 1, P.Apply(a, s, P.End(op)))
  {
    OneFewer(s.used, op);
  }

  /** The last operation ends, and a commit follows. */
  lemma EndIsDue(a: Area, disk: Disk, view: Disk, lh: seq<nat>, outstanding: nat, s: P.State, op: nat)
    requires Agree(a, disk, view, lh, outstanding, s) && P.Enabled(a, s, P.End(op)) && outstanding == 1 && lh != []
    requires Loggable(a, |disk|, lh)
    ensures var t := P.Apply(a, s, P.End(op)); Due(a, t) && t.lh == lh && t.disk == disk && t.view == s.view && t.used == map[]
  {
    OneFewer(s.used, op);
  }

  lemma OneFewer(used: map<nat, nat>, op: nat)
    requires op in used
    ensures |used - {op}| == |used| - 1
  {
    assert (used - {op}).Keys == used.Keys - {op};
  }

  /** The steps have brought the code where it is. */
  ghost predicate Tracks(a: Area, d0: Disk, steps: seq<P.Step>, states: seq<P.State>,
                         disk: Disk, view: Disk, lh: seq<nat>, outstanding: nat) {
    && P.FreshImage(a, d0) && Chain(a, steps, states) && states[0] == P.Init(d0)
    && Agree(a, disk, view, lh, outstanding, Last(states))
  }

  lemma StepTracks(a: Area, d0: Disk, steps: seq<P.Step>, states: seq<P.State>, disk: Disk, view: Disk, lh: seq<nat>, n: nat,
                   step: P.Step, t: P.State, now: Disk, home: seq<nat>, m: nat)
    requires Tracks(a, d0, steps, states, disk, view, lh, n)
    requires P.Enabled(a, Last(states), step) && t == P.Apply(a, Last(states), step) && Agree(a, disk, now, home, m, t)
    ensures Tracks(a, d0, steps + [step], states + [t], disk, now, home, m)
  {
    ChainGrows(a, steps, states, step, t);
  }

  lemma BeginTracks(a: Area, d0: Disk, steps: seq<P.Step>, states: seq<P.State>,
                    disk: Disk, view: Disk, lh: seq<nat>, n: nat, op: nat)
    requires Tracks(a, d0, steps, states, disk, view, lh, n) && P.Enabled(a, Last(states), P.Begin(op))
    ensures Tracks(a, d0, steps + [P.Begin(op)], states + [P.Apply(a, Last(states), P.Begin(op))], disk, view, lh, n + 1)
  {
    var s := Last(states);
    ChainIsRun(a, d0, steps, states, |steps|);
    P.RunInv(a, d0, steps[..|steps|]);
    StepTracks(a, d0, steps, states, disk, view, lh, n, P.Begin(op), P.Apply(a, s, P.Begin(op)), view, lh, n + 1);
  }

  lemma WriteTracks(a: Area, d0: Disk, steps: seq<P.Step>, states: seq<P.State>,
                    disk: Disk, view: Disk, lh: seq<nat>, n: nat, op: nat, b: nat, data: Block)
    requires Tracks(a, d0, steps, states, disk, view, lh, n) && |view| == |disk|
    requires P.Enabled(a, Last(states), P.Write(op, b, data))
    ensures n >= 1 && b < |view|
    ensures Tracks(a, d0, steps + [P.Write(op, b, data)], states + [P.Apply(a, Last(states), P.Write(op, b, data))],
                   disk, view[b := data], if b in lh then lh else lh + [b], n)
  {
    var s, step := Last(states), P.Write(op, b, data);
    OneFewer(s.used, op);
    assert s.used[op := s.used[op] + 1].Keys == s.used.Keys;
    StepTracks(a, d0, steps, states, disk, view, lh, n, step, P.Apply(a, s, step),
               view[b := data], if b in lh then lh else lh + [b], n);
  }

  /** The steps that end_op makes: one, and those of the commit if this was the last operation. */
  function Ending(op: nat, lh: seq<nat>, n: nat): seq<P.Step> {
    [P.End(op)] + if n > 1 || lh == [] then [] else Blocks(2 * |lh| + 2)
  }

  /** An operation ends, and no commit follows. */
  lemma EndTracks(a: Area, d0: Disk, steps: seq<P.Step>, states: seq<P.State>,
                  disk: Disk, view: Disk, lh: seq<nat>, n: nat, op: nat, now: Disk)
    requires Tracks(a, d0, steps, states, disk, view, lh, n)
    requires P.Enabled(a, Last(states), P.End(op)) && SameHome(a, now, view) && (n > 1 || lh == [])
    ensures n >= 1
    ensures Tracks(a, d0, steps + Ending(op, lh, n), states + [P.Apply(a, Last(states), P.End(op))], disk, now, lh, n - 1)
  {
    var s := Last(states);
    EndAgrees(a, disk, view, now, lh, n, s, op);
    StepTracks(a, d0, steps, states, disk, view, lh, n, P.End(op), P.Apply(a, s, P.End(op)), now, lh, n - 1);
    assert Ending(op, lh, n) == [P.End(op)];
  }

  /** The last operation ends, and the cache performs the commit write by write. */
  lemma CommitTracks(a: Area, d0: Disk, steps: seq<P.Step>, states: seq<P.State>,
                     disk: Disk, view: Disk, lh: seq<nat>, op: nat, now: Disk) returns (last: seq<P.State>)
    requires Tracks(a, d0, steps, states, disk, view, lh, 1) && lh != [] && Loggable(a, |disk|, lh) && |view| == |disk|
    requires P.Enabled(a, Last(states), P.End(op)) && SameHome(a, now, view)
    ensures var t, k, commit := P.Apply(a, Last(states), P.End(op)), 2 * |lh| + 2, CommitTrail(a, disk, view, lh, 2 * |lh| + 2);
      && Tracks(a, d0, steps + [P.End(op)] + Blocks(k), states + [t] + last, commit[k - 1], now, [], 0)
      && Disks(last) == commit
  {
    var s, k := Last(states), 2 * |lh| + 2;
    var t := P.Apply(a, s, P.End(op));
    EndIsDue(a, disk, view, lh, 1, s, op);
    ChainGrows(a, steps, states, P.End(op), t);
    last := CommitChain(a, steps + [P.End(op)], states + [t], k);
    CommitSeen(a, t, view, last);
  }

  lemma Grouped<T>(x: seq<T>, y: seq<T>, z: seq<T>)
    ensures x + (y + z) == x + y + z
  {
  }

  /** The two cases of end_op, with the disks that the cache has written. */
  lemma OpEnds(a: Area, d0: Disk, steps: seq<P.Step>, states: seq<P.State>,
               disk: Disk, view: Disk, lh: seq<nat>, n: nat, op: nat,
               disk1: Disk, view1: Disk, lh1: seq<nat>) returns (more: seq<P.State>)
    requires Tracks(a, d0, steps, states, disk, view, lh, n) && P.Enabled(a, Last(states), P.End(op))
    requires Loggable(a, |disk|, lh) && |view| == |disk| && SameHome(a, view1, view)
    requires n > 1 ==> lh1 == lh && disk1 == disk
    requires n == 1 ==> lh1 == [] && disk1 == L.AfterAll(disk, L.Committed(a, disk, view, lh))
    ensures n >= 1 && Tracks(a, d0, steps + Ending(op, lh, n), states + more, disk1, view1, lh1, n - 1)
    ensures |more| == |Ending(op, lh, n)| && Disks(more[1..]) == if n > 1 then [] else L.Committed(a, disk, view, lh)
  {
    OneFewer(Last(states).used, op);
    if n > 1 || lh == [] {
      more := [P.Apply(a, Last(states), P.End(op))];
      EndTracks(a, d0, steps, states, disk, view, lh, n, op, view1);
    } else {
      assert n == 1 && disk1 == CommitTrail(a, disk, view, lh, 2 * |lh| + 2)[2 * |lh| + 1];
      var last := CommitTracks(a, d0, steps, states, disk, view, lh, op, view1);
      more := [P.Apply(a, Last(states), P.End(op))] + last;
      assert more[1..] == last;
      Grouped(states, more[..1], last);
      Grouped(steps, [P.End(op)], Blocks(2 * |lh| + 2));
    }
  }

  lemma EndMarks(steps: seq<P.Step>, states: seq<P.State>, trail: seq<Disk>, at: seq<nat>, op: nat, lh: seq<nat>, n: nat,
                 more: seq<P.State>)
    requires Marks(steps, states, trail, at) && |more| == |Ending(op, lh, n)|
    ensures Marks(steps + Ending(op, lh, n), states + more, trail + Disks(more[1..]), at + From(|steps| + 2, |more| - 1))
  {
    MarksOn(steps, states, trail, at, P.End(op), Ending(op, lh, n)[1..], more);
    assert [P.End(op)] + Ending(op, lh, n)[1..] == Ending(op, lh, n);
  }

  lemma MarksStay(steps: seq<P.Step>, states: seq<P.State>, trail: seq<Disk>, at: seq<nat>, step: P.Step, t: P.State)
    requires Marks(steps, states, trail, at)
    ensures Marks(steps + [step], states + [t], trail, at)
  {
    MarksOn(steps, states, trail, at, step, [], [t]);
    assert trail + Disks([t][1..]) == trail && at + From(|steps| + 2, 0) == at && [step] + [] == [step];
  }

  /** The protocol's commit writes what the cache's does, whose view differs in the log area only. */
  lemma CommitSeen(a: Area, t: P.State, view: Disk, states: seq<P.State>)
    requires Due(a, t) && SameHome(a, view, t.view) && |states| == 2 * |t.lh| + 2
    requires forall j {:trigger states[j]} :: 0 <= j < |states| ==> states[j].disk == CommitDisk(a, t.disk, t.view, t.lh, j + 1)
    ensures Disks(states) == CommitTrail(a, t.disk, view, t.lh, 2 * |t.lh| + 2)
  {
    forall j | 0 <= j < |states| ensures states[j].disk == CommitDisk(a, t.disk, view, t.lh, j + 1) {
      SameViewSameDisk(a, t.disk, view, t.view, t.lh, j + 1);
    }
  }

  lemma RecoverSeen(a: Area, d: Disk, home: seq<nat>, states: seq<P.State>)
    requires Loggable(a, |d|, home) && |states| == |home| + 2
    requires forall j {:trigger states[j]} :: 0 <= j < |states| ==> states[j].disk == RecoverDisk(a, d, home, j)
    ensures Disks(states[1..]) == RecoverTrail(a, d, home, |home| + 1)
  {
  }

  lemma RestartMarks(steps: seq<P.Step>, states: seq<P.State>, home: seq<nat>, more: seq<P.State>)
    requires |states| == |steps| + 1 && |more| == |home| + 2
    ensures Marks(steps + Restart(home), states + more, Disks(more[1..]), From(|steps| + 2, |home| + 1))
  {
    var at, all := From(|steps| + 2, |home| + 1), steps + Restart(home);
    forall i | 0 <= i < |at| ensures 0 < at[i] <= |all| && IsWrite(all[at[i] - 1]) {
      assert all[at[i] - 1] == Restart(home)[i + 1];
    }
  }

  /** The machine stops where a chain has led, and recovery runs to its end. */
  lemma RestartTracks(a: Area, d0: Disk, steps: seq<P.Step>, states: seq<P.State>) returns (more: seq<P.State>)
    requires P.FreshImage(a, d0) && Chain(a, steps, states) && states[0] == P.Init(d0)
    ensures Image(a, Last(states).disk)
    ensures var d := Last(states).disk;
      var home := Decode(d[a.start]);
      && Tracks(a, d0, steps + Restart(home), states + more, Recovered(a, d), Recovered(a, d), [], 0)
      && |more| == |home| + 2 && Disks(more[1..]) == RecoverTrail(a, d, home, |home| + 1)
  {
    var n := |steps|;
    ChainIsRun(a, d0, steps, states, n);
    P.CrashSafety(a, d0, steps[..n]);
    var d := Last(states).disk;
    var home := Decode(d[a.start]);
    more := RecoverChain(a, steps, states, |home| + 1);
    assert steps + Restart(home) == steps + [P.Crash] + Replays(|home| + 1);
    RecoverSeen(a, d, home, more);
  }

  /** The steps of a crash and the recovery after it. */
  function Restart(home: seq<nat>): seq<P.Step> { [P.Crash] + Replays(|home| + 1) }

  /** The log, with the run of the protocol that it has made since it started on disk d0 with an empty log. */
  class Kernel {
    const log: L.Log
    ghost const d0: Disk
    ghost var steps: seq<P.Step>
    ghost var states: seq<P.State>
    ghost var at: seq<nat>           // how many steps had been made when the cache had just written a block

    ghost predicate Valid()
      reads this, log, log.cache
    {
      && log.Quiet() && !log.committing && log.area.size < |log.cache.bufs| && 2 < |log.cache.bufs|
      && Tracks(log.area, d0, steps, states, log.cache.disk, log.cache.view, log.lh, log.outstanding)
      && Marks(steps, states, log.cache.trail, at)
    }

    /** The state of the protocol. */
    ghost function Now(): P.State
      reads this
      requires states != []
    {
      Last(states)
    }

    /** From a fresh image, and a cache that has not written anything yet. */
    constructor (log: L.Log)
      requires log.Quiet() && log.lh == [] && log.outstanding == 0 && !log.committing
      requires P.FreshImage(log.area, log.cache.disk) && log.cache.view == log.cache.disk && log.cache.trail == []
      requires log.area.size < |log.cache.bufs| && 2 < |log.cache.bufs|
      ensures Valid() && this.log == log && steps == [] && at == [] && d0 == log.cache.disk
    {
      this.log, d0, steps, states, at := log, log.cache.disk, [], [P.Init(log.cache.disk)], [];
    }

    /** The machine stopped where `steps` had led, maybe inside a commit or a recovery, and initlog runs over a new cache. */
    constructor Reboot(log: L.Log, ghost d0: Disk, ghost steps: seq<P.Step>, ghost states: seq<P.State>)
      requires P.FreshImage(log.area, d0) && Chain(log.area, steps, states) && states[0] == P.Init(d0)
      requires log.cache.Valid() && log.cache.disk == Last(states).disk && log.cache.uses == map[] && log.cache.locks == {}
      requires log.cache.trail == [] && log.area.size < |log.cache.bufs| && 2 < |log.cache.bufs|
      requires log.area.start < |log.cache.disk| && IsHeader(log.cache.disk[log.area.start])
      requires |Decode(log.cache.disk[log.area.start])| <= P.LOGSIZE < |log.cache.disk[log.area.start]|
      requires log.outstanding == 0 && !log.committing
      modifies log.cache, log`lh
      ensures Valid() && this.log == log && this.d0 == d0
      ensures var home := Decode(old(log.cache.disk)[log.area.start]);
              this.steps == steps + Restart(home) && at == From(|steps| + 2, |home| + 1)
    {
      ghost var more := RestartTracks(log.area, d0, steps, states);
      this.log, this.d0 := log, d0;
      ghost var d := log.cache.disk;
      ghost var home := Decode(d[log.area.start]);
      this.steps, this.states, this.at := steps + Restart(home), states + more, From(|steps| + 2, |home| + 1);
      RestartMarks(steps, states, home, more);
      new;
      ghost var trail := RecoverTrail(log.area, d, home, |home| + 1);
      assert [] + trail == trail;
      log.RecoverFromLog();
    }

    /** begin_op's test. */
    method Begin(ghost op: nat) returns (admitted: bool)
      requires Valid() && op !in Now().begun
      modifies log`outstanding, this`steps, this`states
      ensures Valid() && (admitted <==> P.Admits(old(Now())))
      ensures steps == (if admitted then old(steps) + [P.Begin(op)] else old(steps)) && at == old(at)
    {
      ghost var n := log.outstanding;
      admitted := log.TryBegin();
      if admitted {
        BeginTracks(log.area, d0, steps, states, log.cache.disk, log.cache.view, log.lh, n, op);
        MarksStay(steps, states, log.cache.trail, at, P.Begin(op), P.Apply(log.area, Now(), P.Begin(op)));
        steps, states := steps + [P.Begin(op)], states + [P.Apply(log.area, Now(), P.Begin(op))];
      }
    }

    /** bread, modify, log_write, brelse by operation op. */
    method Write(ghost op: nat, block: nat, data: Block)
      requires Valid() && P.Enabled(log.area, Now(), P.Write(op, block, data))     // else log_write panics, or misuse
      modifies this`steps, this`states, log`lh, log.cache
      ensures Valid() && steps == old(steps) + [P.Write(op, block, data)] && at == old(at)
    {
      ghost var past, was, step := steps, states, P.Write(op, block, data);
      ghost var next := P.Apply(log.area, Now(), step);
      WriteTracks(log.area, d0, past, was, log.cache.disk, log.cache.view, log.lh, log.outstanding, op, block, data);
      MarksStay(past, was, log.cache.trail, at, step, next);
      log.Update(block, data);
      steps, states := past + [step], was + [next];
    }

    /**
    end_op by operation op, with the commit if it was the last: then the run has the commit's steps, one for every block
    that the cache has written.
    */
    method End(ghost op: nat)
      requires Valid() && P.Enabled(log.area, Now(), P.End(op))
      modifies this`steps, this`states, this`at, log`lh, log`outstanding, log`committing, log.cache
      ensures Valid() && steps == old(steps) + Ending(op, old(log.lh), old(log.outstanding))
      ensures at == old(at) + From(old(|steps|) + 2, |steps| - old(|steps|) - 1)
    {
      ghost var s, d, v, l, n, t := Now(), log.cache.disk, log.cache.view, log.lh, log.outstanding, log.cache.trail;
      assert n >= 1 by { OneFewer(s.used, op); }
      log.EndOp();
      ghost var more := OpEnds(log.area, d0, steps, states, d, v, l, n, op, log.cache.disk, log.cache.view, log.lh);
      assert log.cache.trail == t + Disks(more[1..]);
      EndMarks(steps, states, t, at, op, l, n, more);
      steps, states, at := steps + Ending(op, l, n), states + more, at + From(|steps| + 2, |more| - 1);
    }
  }

  /**
  CrashSafety for the code: stop the machine after any write that the cache has made, and recovery gives the initial disk
  with exactly the transactions whose header write had completed by then: those of the run up to that very write.
  */
  lemma CodeIsCrashSafe(k: Kernel, i: nat)
    requires k.Valid() && i < |k.log.cache.trail|
    ensures 0 < k.at[i] <= |k.steps| && IsWrite(k.steps[k.at[i] - 1]) && forall j {:trigger k.at[j]} :: 0 <= j < i ==> k.at[j] < k.at[i]
    ensures var a, e, past := k.log.area, k.log.cache.trail[i], k.steps[..k.at[i]];
      && Image(a, e) && P.IsRun(a, k.d0, past) && P.Run(a, k.d0, past).disk == e
      && SameHome(a, Recovered(a, e), P.ReplayGroups(k.d0, P.Run(a, k.d0, past).groups))
  {
    ChainIsRun(k.log.area, k.d0, k.steps, k.states, k.at[i]);
    P.CrashSafety(k.log.area, k.d0, k.steps[..k.at[i]]);
  }

  /** And between operations readers see all committed transactions and the updates made since. */
  lemma CodeReadsLatest(k: Kernel)
    requires k.Valid()
    ensures SameHome(k.log.area, k.log.cache.view, P.Replay(P.ReplayGroups(k.d0, k.Now().groups), k.Now().current))
  {
    var n := |k.steps|;
    ChainIsRun(k.log.area, k.d0, k.steps, k.states, n);
    P.ReadsSeeLatest(k.log.area, k.d0, k.steps[..n]);
  }

  /**
  When the last operation's end_op has returned, every log_write of the run is on the disk, in the order of the calls, and
  stays there through a crash and recovery; only a crash before that can have lost any.
  */
  lemma CodeIsDurable(k: Kernel)
    requires k.Valid() && k.log.outstanding == 0 && P.Crash !in k.steps
    ensures var a, d, all := k.log.area, k.log.cache.disk, P.Replay(k.d0, k.Now().issued);
      SameHome(a, d, all) && Image(a, d) && SameHome(a, Recovered(a, d), all)
  {
    var n := |k.steps|;
    ChainIsRun(k.log.area, k.d0, k.steps, k.states, n);
    assert k.steps[..n] == k.steps;
    assert k.Now().used == map[];
    P.Durable(k.log.area, k.d0, k.steps);
  }
}
