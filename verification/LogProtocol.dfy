/**
Group commit under arbitrary interleaving: any number of operations run through begin_op, log_write and end_op,
the committer and recovery write one block at a time, and the machine may crash before or after any block write.
*/
module LogProtocol {
  import opened LogSpec

  const MAXOPBLOCKS: nat := 10
  const LOGSIZE: nat := MAXOPBLOCKS * 3

  /** One log_write: operation `op` changed `block` to `data`. */
  datatype Update = Update(op: nat, block: nat, data: Block)

  datatype Phase =
    | Running
    | Committing(from: Disk, i: nat)                     // `i` block writes done, `from` was the disk before them
    | Recovering(from: Disk, home: seq<nat>, i: nat)     // likewise, for the header that was read

  /** The kernel's state, followed by the history the properties speak of. */
  datatype State = State(
    disk: Disk,
    view: Disk,                  // what bread returns: cached contents where cached, else the disk
    lh: seq<nat>,                // log.lh.block[..log.lh.n]
    used: map<nat, nat>,         // outstanding operations, with the number of log_write calls each has made
    phase: Phase,
    begun: set<nat>,             // every operation that ever began
    issued: seq<Update>,         // every log_write ever made
    current: seq<Update>,        // the log_writes of the transaction being collected
    groups: seq<seq<Update>>     // transactions whose header write completed, oldest first
  )

  datatype Step =
    | Begin(op: nat)
    | Write(op: nat, block: nat, data: Block)
    | End(op: nat)
    | CommitBlock
    | Crash
    | RecoverBlock

  function Init(d: Disk): State {
    State(d, d, [], map[], Running, {}, [], [], [])
  }

  /** The test in begin_op that lets an operation start. */
  predicate Admits(s: State) {
    s.phase.Running? && |s.lh| + (|s.used| + 1) * MAXOPBLOCKS <= LOGSIZE
  }

  /** log_write would panic with "too big a transaction". */
  predicate TooBig(a: Area, s: State) {
    |s.lh| >= LOGSIZE || |s.lh| >= a.size - 1
  }

  /** `op` is inside its begin_op/end_op bracket and still within its budget of log_write calls. */
  predicate MayWrite(s: State, op: nat) {
    s.phase.Running? && op in s.used && s.used[op] < MAXOPBLOCKS
  }

  ghost predicate Enabled(a: Area, s: State, step: Step) {
    match step
    case Begin(op) => op !in s.begun && Admits(s)
    case Write(op, b, _) => MayWrite(s, op) && !TooBig(a, s) && b < |s.disk| && b < |s.view| && !InLog(a, b)
    case End(op) => s.phase.Running? && op in s.used
    case CommitBlock =>
      && s.phase.Committing? && |s.view| == |s.disk|
      && Loggable(a, |s.disk|, s.lh) && s.phase.i < 2 * |s.lh| + 2
    case Crash => Image(a, s.disk)
    case RecoverBlock =>
      s.phase.Recovering? && Loggable(a, |s.disk|, s.phase.home) && s.phase.i <= |s.phase.home|
  }

  ghost function Apply(a: Area, s: State, step: Step): State
    requires Enabled(a, s, step)
  {
    match step
    case Begin(op) => s.(used := s.used[op := 0], begun := s.begun + {op})
    case Write(op, b, data) =>
      var u := Update(op, b, data);
      s.(view := s.view[b := data],
         lh := if b in s.lh then s.lh else s.lh + [b],       // log absorption
         used := s.used[op := s.used[op] + 1],
         issued := s.issued + [u], current := s.current + [u])
    case End(op) =>
      var left := s.used - {op};
      s.(used := left, phase := if left == map[] && s.lh != [] then Committing(s.disk, 0) else Running)
    case CommitBlock =>
      var w := CommitWrite(a, s.disk, s.view, s.lh, s.phase.i);
      var t := s.(disk := s.disk[w.0 := w.1], phase := Committing(s.phase.from, s.phase.i + 1));
      if s.phase.i == |s.lh| then t.(groups := s.groups + [s.current], current := [])
      else if s.phase.i == 2 * |s.lh| + 1 then t.(lh := [], phase := Running)
      else t
    case Crash =>
      s.(view := s.disk, lh := [], used := map[], current := [],
         phase := Recovering(s.disk, Decode(s.disk[a.start]), 0))
    case RecoverBlock =>
      var w := RecoverWrite(a, s.disk, s.phase.home, s.phase.i);
      var d := s.disk[w.0 := w.1];
      s.(disk := d, view := d,
         phase := if s.phase.i == |s.phase.home| then Running
                  else Recovering(s.phase.from, s.phase.home, s.phase.i + 1))
  }

  /** Every step of the run was enabled where it was taken. */
  ghost predicate IsRun(a: Area, d: Disk, steps: seq<Step>)
    decreases |steps|, 0
  {
    steps == [] ||
    (var n := |steps| - 1;
     IsRun(a, d, steps[..n]) && Enabled(a, Run(a, d, steps[..n]), steps[n]))
  }

  ghost function Run(a: Area, d: Disk, steps: seq<Step>): State
    requires IsRun(a, d, steps)
    decreases |steps|, 1
  {
    if steps == [] then Init(d) else
      var n := |steps| - 1;
      Apply(a, Run(a, d, steps[..n]), steps[n])
  }

  /** A disk as mkfs leaves it: an empty log. */
  ghost predicate FreshImage(a: Area, d: Disk) {
    Image(a, d) && Decode(d[a.start]) == []
  }

  // ----- Histories -----

  function Replay(d: Disk, us: seq<Update>): (r: Disk)
    ensures |r| == |d|
  {
    if us == [] then d else
      var r := Replay(d, us[..|us| - 1]);
      var u := us[|us| - 1];
      if u.block < |r| then r[u.block := u.data] else r
  }

  /** The disk with whole transactions applied in commit order. */
  function ReplayGroups(d: Disk, gs: seq<seq<Update>>): (r: Disk)
    ensures |r| == |d|
  {
    if gs == [] then d else Replay(ReplayGroups(d, gs[..|gs| - 1]), gs[|gs| - 1])
  }

  /** The updates of one operation, in order. */
  function By(us: seq<Update>, op: nat): (r: seq<Update>)
    ensures r == [] <==> forall u :: u in us ==> u.op != op
  {
    if us == [] then [] else
      By(us[..|us| - 1], op) + if us[|us| - 1].op == op then [us[|us| - 1]] else []
  }

  lemma ByAppend(us: seq<Update>, u: Update, op: nat)
    ensures By(us + [u], op) == By(us, op) + if u.op == op then [u] else []
  {
    assert (us + [u])[..|us|] == us;
  }

  ghost predicate Touches(us: seq<Update>, b: int) {
    exists u :: u in us && u.block == b
  }

  lemma ReplayAppend(d: Disk, us: seq<Update>, u: Update)
    requires u.block < |d|
    ensures Replay(d, us + [u]) == Replay(d, us)[u.block := u.data]
  {
    assert (us + [u])[..|us|] == us;
  }

  lemma {:induction false} ReplayUntouched(d: Disk, us: seq<Update>, b: nat)
    requires b < |d| && !Touches(us, b)
    ensures Replay(d, us)[b] == d[b]
  {
    if us != [] {
      var p := us[..|us| - 1];
      forall u | u in p ensures u.block != b { assert u in us; }
      ReplayUntouched(d, p, b);
      assert us[|us| - 1] in us;
    }
  }

  lemma GroupsAppend(d: Disk, gs: seq<seq<Update>>, g: seq<Update>)
    ensures ReplayGroups(d, gs + [g]) == Replay(ReplayGroups(d, gs), g)
  {
    assert (gs + [g])[..|gs|] == gs;
  }

  // ----- Log space -----

  /** The log_write calls the outstanding operations may still make. */
  ghost function Unspent(used: map<nat, nat>): nat {
    if used == map[] then 0 else
      var op :| op in used;
      (if used[op] < MAXOPBLOCKS then MAXOPBLOCKS - used[op] else 0) + Unspent(used - {op})
  }

  lemma {:induction false} UnspentSplit(used: map<nat, nat>, op: nat)
    requires op in used
    ensures Unspent(used) == (if used[op] < MAXOPBLOCKS then MAXOPBLOCKS - used[op] else 0) + Unspent(used - {op})
    decreases |used|
  {
    var x :| x in used &&
      Unspent(used) == (if used[x] < MAXOPBLOCKS then MAXOPBLOCKS - used[x] else 0) + Unspent(used - {x});
    if x != op {
      UnspentSplit(used - {x}, op);
      UnspentSplit(used - {op}, x);
      assert used - {x} - {op} == used - {op} - {x};
    }
  }

  lemma {:induction false} UnspentBound(used: map<nat, nat>)
    ensures Unspent(used) <= |used| * MAXOPBLOCKS
    decreases |used|
  {
    if used != map[] {
      var op :| op in used;
      UnspentSplit(used, op);
      UnspentBound(used - {op});
      assert |used - {op}| == |used| - 1;
    }
  }

  // ----- The invariant -----

  ghost predicate SpaceOk(s: State) {
    |s.lh| + Unspent(s.used) <= LOGSIZE
  }

  /** The header lists exactly the blocks of the transaction being collected. */
  ghost predicate Lists(s: State) {
    forall b: nat :: b in s.lh <==> Touches(s.current, b)
  }

  /** The disk, per phase, for home contents `base` (all committed transactions). */
  ghost predicate DiskOk(a: Area, s: State, base: Disk) {
    && |s.disk| == |s.view| == |base|
    && match s.phase
       case Running =>
         && FreshImage(a, s.disk) && SameHome(a, s.disk, base)
         && SameHome(a, s.view, Replay(base, s.current))
         && Loggable(a, |s.disk|, s.lh) && Lists(s)
       case Committing(from, i) =>
         && |from| == |base| && FreshImage(a, from) && s.used == map[]
         && Loggable(a, |s.disk|, s.lh) && i < 2 * |s.lh| + 2
         && s.disk == CommitDisk(a, from, s.view, s.lh, i)
         && (if i <= |s.lh|
             then SameHome(a, from, base) && SameHome(a, Installed(from, s.view, s.lh), Replay(base, s.current))
             else SameHome(a, Installed(from, s.view, s.lh), base) && s.current == [])
         && SameHome(a, s.view, Replay(base, s.current))
       case Recovering(from, home, i) =>
         && |from| == |base| && Image(a, from) && home == Decode(from[a.start]) && i <= |home|
         && s.disk == s.view == RecoverDisk(a, from, home, i)
         && SameHome(a, Recovered(a, from), base)
         && s.used == map[] && s.lh == [] && s.current == []
  }

  /** None of the committed transactions holds an update of `op`. */
  ghost predicate Uncommitted(gs: seq<seq<Update>>, op: nat) {
    forall g :: 0 <= g < |gs| ==> By(gs[g], op) == []
  }

  /** Transaction `k` holds exactly the updates `all` of `op`, and no other one holds any. */
  ghost predicate CommittedIn(gs: seq<seq<Update>>, all: seq<Update>, op: nat, k: int) {
    0 <= k < |gs| && By(gs[k], op) == all && forall g :: 0 <= g < |gs| && g != k ==> By(gs[g], op) == []
  }

  /** All of an operation's updates are in the current transaction, or in one committed transaction, or lost. */
  ghost predicate Whole(s: State, op: nat) {
    || (By(s.current, op) == By(s.issued, op) && Uncommitted(s.groups, op))
    || (&& op !in s.used && By(s.current, op) == []
        && (Uncommitted(s.groups, op) || exists k :: CommittedIn(s.groups, By(s.issued, op), op, k)))
  }

  ghost predicate HistoryOk(s: State) {
    && s.used.Keys <= s.begun
    && (forall op: nat :: op !in s.begun ==> By(s.issued, op) == [])
    && (forall op: nat :: Whole(s, op))
  }

  ghost predicate Inv(a: Area, d: Disk, s: State) {
    && |s.disk| == |d|
    && SpaceOk(s) && HistoryOk(s) && DiskOk(a, s, ReplayGroups(d, s.groups))
  }

  // ----- Each step keeps it -----

  lemma SpaceStep(a: Area, s: State, step: Step)
    requires Enabled(a, s, step) && SpaceOk(s) && s.used.Keys <= s.begun
    ensures SpaceOk(Apply(a, s, step))
  {
    var t := Apply(a, s, step);
    match step
    case Begin(op) =>
      UnspentSplit(t.used, op);
      assert t.used - {op} == s.used;
      UnspentBound(s.used);
    case Write(op, b, data) =>
      UnspentSplit(s.used, op);
      UnspentSplit(t.used, op);
      assert t.used - {op} == s.used - {op};
    case End(op) =>
      UnspentSplit(s.used, op);
    case CommitBlock =>
    case Crash =>
    case RecoverBlock =>
  }

  lemma WholeSame(s: State, t: State, op: nat)
    requires Whole(s, op) && t.groups == s.groups
    requires By(t.current, op) == By(s.current, op) && By(t.issued, op) == By(s.issued, op)
    requires op in t.used ==> op in s.used
    ensures Whole(t, op)
  {
    if k :| CommittedIn(s.groups, By(s.issued, op), op, k) {
      assert CommittedIn(t.groups, By(t.issued, op), op, k);
    }
  }

  /** The header write moves the current transaction to the committed ones. */
  lemma WholeCommitted(s: State, t: State, op: nat)
    requires Whole(s, op) && s.used == t.used == map[] && t.issued == s.issued
    requires t.groups == s.groups + [s.current] && t.current == []
    ensures Whole(t, op)
  {
    var n := |s.groups|;
    if By(s.current, op) == [] {
      if k :| CommittedIn(s.groups, By(s.issued, op), op, k) {
        assert CommittedIn(t.groups, By(t.issued, op), op, k);
      } else {
        assert Uncommitted(t.groups, op);
      }
    } else {
      assert CommittedIn(t.groups, By(t.issued, op), op, n);
    }
  }

  lemma WholeStep(a: Area, s: State, step: Step, op: nat)
    requires Enabled(a, s, step) && HistoryOk(s)
    requires step.CommitBlock? ==> s.used == map[]
    ensures var t := Apply(a, s, step); Whole(t, op) && (op !in t.begun ==> By(t.issued, op) == [])
  {
    var t := Apply(a, s, step);
    assert Whole(s, op);
    if step.Write? {
      ByAppend(s.issued, Update(step.op, step.block, step.data), op);
      ByAppend(s.current, Update(step.op, step.block, step.data), op);
      if op != step.op { WholeSame(s, t, op); }
    } else if step.CommitBlock? && s.phase.i == |s.lh| {
      WholeCommitted(s, t, op);
    } else if step.Crash? {
      if By(s.current, op) == [] { WholeSame(s, t, op); }
    } else if step.Begin? && op == step.op {
      assert By(s.issued, op) == [];
      if k :| CommittedIn(s.groups, By(s.issued, op), op, k) {
        assert Uncommitted(s.groups, op);
      }
    } else {
      WholeSame(s, t, op);
    }
  }

  lemma HistoryStep(a: Area, s: State, step: Step)
    requires Enabled(a, s, step) && HistoryOk(s)
    requires step.CommitBlock? ==> s.used == map[]
    ensures HistoryOk(Apply(a, s, step))
  {
    forall op: nat ensures var t := Apply(a, s, step); Whole(t, op) && (op !in t.begun ==> By(t.issued, op) == []) {
      WholeStep(a, s, step, op);
    }
  }

  /** Whatever the phase, a crash here and a complete recovery give exactly the committed transactions. */
  lemma CrashHere(a: Area, s: State, base: Disk)
    requires DiskOk(a, s, base)
    ensures Image(a, s.disk) && SameHome(a, Recovered(a, s.disk), base)
  {
    match s.phase
    case Running => CommitCrashSafe(a, s.disk, s.disk, [], 0);
    case Committing(from, i) => CommitCrashSafe(a, from, s.view, s.lh, i);
    case Recovering(from, home, i) => RecoveryCrashSafe(a, from, i);
  }

  lemma TouchesAppend(us: seq<Update>, u: Update, b: int)
    ensures Touches(us + [u], b) <==> Touches(us, b) || u.block == b
  {
    assert forall x :: x in us + [u] <==> x in us || x == u;
  }

  lemma WriteKeepsDisk(a: Area, s: State, step: Step, base: Disk)
    requires step.Write? && Enabled(a, s, step) && DiskOk(a, s, base)
    ensures DiskOk(a, Apply(a, s, step), base)
  {
    var t := Apply(a, s, step);
    var u := Update(step.op, step.block, step.data);
    ReplayAppend(base, s.current, u);
    forall b: nat ensures b in t.lh <==> Touches(t.current, b) {
      TouchesAppend(s.current, u, b);
    }
  }

  lemma EndKeepsDisk(a: Area, s: State, step: Step, base: Disk)
    requires step.End? && Enabled(a, s, step) && DiskOk(a, s, base)
    ensures DiskOk(a, Apply(a, s, step), base)
  {
    var t := Apply(a, s, step);
    if t.phase.Committing? {
      var new_, old_ := Installed(s.disk, s.view, s.lh), Replay(base, s.current);
      forall b | 0 <= b < |base| && !InLog(a, b) ensures new_[b] == old_[b] {
        if b !in s.lh { ReplayUntouched(base, s.current, b); }
      }
    }
  }

  lemma HeaderKeepsDisk(a: Area, d: Disk, s: State)
    requires Enabled(a, s, CommitBlock) && DiskOk(a, s, ReplayGroups(d, s.groups)) && s.phase.i == |s.lh|
    ensures var t := Apply(a, s, CommitBlock); DiskOk(a, t, ReplayGroups(d, t.groups))
  {
    GroupsAppend(d, s.groups, s.current);
  }

  lemma ClearKeepsDisk(a: Area, s: State, base: Disk)
    requires Enabled(a, s, CommitBlock) && DiskOk(a, s, base) && s.phase.i == 2 * |s.lh| + 1
    ensures var t := Apply(a, s, CommitBlock); DiskOk(a, t, base)
  {
    CommitCompletes(a, s.phase.from, s.view, s.lh);
  }

  lemma CommitKeepsDisk(a: Area, d: Disk, s: State)
    requires Enabled(a, s, CommitBlock) && DiskOk(a, s, ReplayGroups(d, s.groups))
    ensures var t := Apply(a, s, CommitBlock); DiskOk(a, t, ReplayGroups(d, t.groups))
  {
    if s.phase.i == |s.lh| {
      HeaderKeepsDisk(a, d, s);
    } else if s.phase.i == 2 * |s.lh| + 1 {
      ClearKeepsDisk(a, s, ReplayGroups(d, s.groups));
    }
  }

  lemma RecoverKeepsDisk(a: Area, s: State, base: Disk)
    requires Enabled(a, s, RecoverBlock) && DiskOk(a, s, base)
    ensures DiskOk(a, Apply(a, s, RecoverBlock), base)
  {
    var from, home, i := s.phase.from, s.phase.home, s.phase.i;
    assert Apply(a, s, RecoverBlock).disk == RecoverDisk(a, from, home, i + 1);
    if i == |home| { RecoveryCompletes(a, from); }
  }

  lemma DiskStep(a: Area, d: Disk, s: State, step: Step)
    requires Enabled(a, s, step) && DiskOk(a, s, ReplayGroups(d, s.groups))
    ensures var t := Apply(a, s, step); DiskOk(a, t, ReplayGroups(d, t.groups))
  {
    var base := ReplayGroups(d, s.groups);
    match step
    case Begin(op) =>
    case Write(op, b, data) => WriteKeepsDisk(a, s, step, base);
    case End(op) => EndKeepsDisk(a, s, step, base);
    case CommitBlock => CommitKeepsDisk(a, d, s);
    case Crash => CrashHere(a, s, base);
    case RecoverBlock => RecoverKeepsDisk(a, s, base);
  }

  /** Every reachable state satisfies the invariant. */
  lemma {:induction false} RunInv(a: Area, d: Disk, steps: seq<Step>)
    requires FreshImage(a, d) && IsRun(a, d, steps)
    ensures Inv(a, d, Run(a, d, steps))
    decreases |steps|
  {
    if steps != [] {
      var n := |steps| - 1;
      RunInv(a, d, steps[..n]);
      var s := Run(a, d, steps[..n]);
      SpaceStep(a, s, steps[n]);
      HistoryStep(a, s, steps[n]);
      DiskStep(a, d, s, steps[n]);
    }
  }

  // ----- The main results -----

  /** Safety over every run.  Whenever the machine stops, recovery yields the initial disk with exactly the
      transactions whose header write completed, applied in commit order. */
  lemma CrashSafety(a: Area, d: Disk, steps: seq<Step>)
    requires FreshImage(a, d) && IsRun(a, d, steps)
    ensures var s := Run(a, d, steps);
            Image(a, s.disk) && SameHome(a, Recovered(a, s.disk), ReplayGroups(d, s.groups))
  {
    RunInv(a, d, steps);
    var s := Run(a, d, steps);
    CrashHere(a, s, ReplayGroups(d, s.groups));
  }

  /** No operation is split: its updates are all in the current transaction, or all in a single committed one, or all
      lost in a crash; an operation still outstanding has none committed. */
  lemma OperationsAreWhole(a: Area, d: Disk, steps: seq<Step>, op: nat)
    requires FreshImage(a, d) && IsRun(a, d, steps)
    ensures var s := Run(a, d, steps);
            && Whole(s, op)
            && (op in s.used ==> By(s.current, op) == By(s.issued, op) && Uncommitted(s.groups, op))
            && (s.phase.Committing? ==> s.used == map[])
  {
    RunInv(a, d, steps);
    assert Whole(Run(a, d, steps), op);
  }

  /** While the system runs, reads see every committed transaction followed by the updates made since. */
  lemma ReadsSeeLatest(a: Area, d: Disk, steps: seq<Step>)
    requires FreshImage(a, d) && IsRun(a, d, steps) && !Run(a, d, steps).phase.Recovering?
    ensures var s := Run(a, d, steps); SameHome(a, s.view, Replay(ReplayGroups(d, s.groups), s.current))
  {
    RunInv(a, d, steps);
  }

  // ----- Nothing is lost -----

  /** The updates of all transactions, one after the other. */
  function Flat(gs: seq<seq<Update>>): seq<Update> {
    if gs == [] then [] else Flat(gs[..|gs| - 1]) + gs[|gs| - 1]
  }

  lemma {:induction false} ReplayConcat(d: Disk, us: seq<Update>, vs: seq<Update>)
    ensures Replay(d, us + vs) == Replay(Replay(d, us), vs)
    decreases |vs|
  {
    if vs == [] {
      assert us + vs == us;
    } else {
      var n := |vs| - 1;
      ReplayConcat(d, us, vs[..n]);
      assert (us + vs)[..|us| + n] == us + vs[..n];
    }
  }

  lemma {:induction false} ReplayFlat(d: Disk, gs: seq<seq<Update>>)
    ensures ReplayGroups(d, gs) == Replay(d, Flat(gs))
  {
    if gs != [] {
      var n := |gs| - 1;
      ReplayFlat(d, gs[..n]);
      ReplayConcat(d, Flat(gs[..n]), gs[n]);
    }
  }

  /** No step but a crash loses an update, a crash loses those of the current transaction only, and a log_write adds its own. */
  lemma UpdatesKept(a: Area, s: State, step: Step)
    requires Enabled(a, s, step)
    ensures var t := Apply(a, s, step);
      && (step.Write? ==> t.current == s.current + [Update(step.op, step.block, step.data)])
      && (step.Write? ==> t.issued == s.issued + [Update(step.op, step.block, step.data)])
      && (!step.Write? ==> t.issued == s.issued)
      && (step.Crash? || step.Write? ==> t.groups == s.groups)
      && (!step.Crash? && !step.Write? ==> Flat(t.groups) + t.current == Flat(s.groups) + s.current)
  {
    var t := Apply(a, s, step);
    if step.CommitBlock? && s.phase.i == |s.lh| {
      assert t.groups[..|s.groups|] == s.groups;
      assert Flat(t.groups) + t.current == Flat(s.groups) + s.current;
    }
  }

  lemma {:induction false} NothingLost(a: Area, d: Disk, steps: seq<Step>)
    requires IsRun(a, d, steps) && Crash !in steps
    ensures var s := Run(a, d, steps); Flat(s.groups) + s.current == s.issued
    decreases |steps|
  {
    if steps != [] {
      var n := |steps| - 1;
      NothingLost(a, d, steps[..n]);
      var s := Run(a, d, steps[..n]);
      UpdatesKept(a, s, steps[n]);
      if steps[n].Write? {
        var u := Update(steps[n].op, steps[n].block, steps[n].data);
        assert Flat(s.groups) + (s.current + [u]) == (Flat(s.groups) + s.current) + [u];
      }
    }
  }

  /** While no operation is outstanding and nothing is being committed or recovered, the log is empty. */
  lemma {:induction false} IdleIsEmpty(a: Area, d: Disk, steps: seq<Step>)
    requires FreshImage(a, d) && IsRun(a, d, steps)
    ensures var s := Run(a, d, steps); s.phase.Running? && s.used == map[] ==> s.lh == []
    decreases |steps|
  {
    if steps != [] {
      var n := |steps| - 1;
      IdleIsEmpty(a, d, steps[..n]);
      RunInv(a, d, steps[..n]);
      var s, t := Run(a, d, steps[..n]), Run(a, d, steps);
      if steps[n].Write? { assert steps[n].op in t.used; }
      if steps[n].Begin? { assert steps[n].op in t.used; }
    }
  }

  lemma AllCommitted(a: Area, d: Disk, steps: seq<Step>)
    requires FreshImage(a, d) && IsRun(a, d, steps) && Run(a, d, steps).phase.Running? && Run(a, d, steps).lh == []
    ensures var s := Run(a, d, steps);
      && s.current == [] && SameHome(a, s.disk, ReplayGroups(d, s.groups))
      && Image(a, s.disk) && SameHome(a, Recovered(a, s.disk), ReplayGroups(d, s.groups))
  {
    RunInv(a, d, steps);
    var s := Run(a, d, steps);
    if s.current != [] { assert Touches(s.current, s.current[0].block); }
    CrashHere(a, s, ReplayGroups(d, s.groups));
  }

  /**
  Durability: once the last outstanding operation has ended and its commit is through, every update ever made is on the
  disk, in the order of the calls, and a crash from then on cannot take it back.
  */
  lemma Durable(a: Area, d: Disk, steps: seq<Step>)
    requires FreshImage(a, d) && IsRun(a, d, steps) && Crash !in steps
    requires Run(a, d, steps).phase.Running? && Run(a, d, steps).used == map[]
    ensures var s := Run(a, d, steps);
      && SameHome(a, s.disk, Replay(d, s.issued))
      && Image(a, s.disk) && SameHome(a, Recovered(a, s.disk), Replay(d, s.issued))
  {
    var s := Run(a, d, steps);
    IdleIsEmpty(a, d, steps);
    AllCommitted(a, d, steps);
    NothingLost(a, d, steps);
    ReplayFlat(d, s.groups);
    assert Flat(s.groups) + [] == Flat(s.groups);
  }

  // ----- The "too big a transaction" panic -----

  ghost predicate Panics(a: Area, s: State) {
    TooBig(a, s) && exists op :: MayWrite(s, op)
  }

  ghost predicate PanicsAfter(a: Area, d: Disk, steps: seq<Step>) {
    IsRun(a, d, steps) && Panics(a, Run(a, d, steps))
  }

  /** The run that three operations make by writing `k` distinct blocks between them. */
  function Filling(a: Area, k: nat): (r: seq<Step>)
    requires k <= LOGSIZE
    ensures |r| == 3 + k
  {
    if k == 0 then [Begin(0), Begin(1), Begin(2)]
    else Filling(a, k - 1) + [Write((k - 1) / MAXOPBLOCKS, a.start + a.size + k - 1, [])]
  }

  lemma RunExtend(a: Area, d: Disk, steps: seq<Step>, step: Step)
    requires IsRun(a, d, steps) && Enabled(a, Run(a, d, steps), step)
    ensures IsRun(a, d, steps + [step]) && Run(a, d, steps + [step]) == Apply(a, Run(a, d, steps), step)
  {
    assert (steps + [step])[..|steps|] == steps;
  }

  lemma FillingStarts(a: Area, d: Disk)
    ensures IsRun(a, d, Filling(a, 0))
    ensures Run(a, d, Filling(a, 0)) == Init(d).(used := map[0 := 0, 1 := 0, 2 := 0], begun := {0, 1, 2})
  {
    RunExtend(a, d, [], Begin(0));
    RunExtend(a, d, [Begin(0)], Begin(1));
    assert [Begin(0)] + [Begin(1)] == [Begin(0), Begin(1)];
    RunExtend(a, d, [Begin(0), Begin(1)], Begin(2));
    assert [Begin(0), Begin(1)] + [Begin(2)] == Filling(a, 0);
  }

  /** How many of `k` writes, dealt out in runs of MAXOPBLOCKS, fall to `op`. */
  function Share(k: nat, op: nat): nat {
    if k <= op * MAXOPBLOCKS then 0
    else if k - op * MAXOPBLOCKS < MAXOPBLOCKS then k - op * MAXOPBLOCKS
    else MAXOPBLOCKS
  }

  ghost predicate Filled(a: Area, d: Disk, k: nat, s: State) {
    && s.phase.Running? && |s.lh| == k && |s.disk| == |s.view| == |d|
    && (forall b :: b in s.lh ==> b < a.start + a.size + k)
    && s.used == map[0 := Share(k, 0), 1 := Share(k, 1), 2 := Share(k, 2)]
  }

  lemma FillOne(a: Area, d: Disk, k: nat, s: State)
    requires k + 1 < a.size && k < LOGSIZE && a.start + a.size + LOGSIZE <= |d| && Filled(a, d, k, s)
    ensures var step := Write(k / MAXOPBLOCKS, a.start + a.size + k, []);
            Enabled(a, s, step) && Filled(a, d, k + 1, Apply(a, s, step))
  {
    var op := k / MAXOPBLOCKS;
    assert MayWrite(s, op);
    var t := Apply(a, s, Write(op, a.start + a.size + k, []));
    assert t.used == map[0 := Share(k + 1, 0), 1 := Share(k + 1, 1), 2 := Share(k + 1, 2)];
  }

  ghost predicate FilledAfter(a: Area, d: Disk, k: nat, steps: seq<Step>) {
    IsRun(a, d, steps) && Filled(a, d, k, Run(a, d, steps))
  }

  lemma FillMore(a: Area, d: Disk, k: nat, steps: seq<Step>)
    requires k + 1 < a.size && k < LOGSIZE && a.start + a.size + LOGSIZE <= |d| && FilledAfter(a, d, k, steps)
    ensures FilledAfter(a, d, k + 1, steps + [Write(k / MAXOPBLOCKS, a.start + a.size + k, [])])
  {
    FillOne(a, d, k, Run(a, d, steps));
    RunExtend(a, d, steps, Write(k / MAXOPBLOCKS, a.start + a.size + k, []));
  }

  lemma {:induction false} FillingRuns(a: Area, d: Disk, k: nat)
    requires k < a.size && k <= LOGSIZE && a.start + a.size + LOGSIZE <= |d|
    ensures FilledAfter(a, d, k, Filling(a, k))
  {
    if k == 0 {
      FillingStarts(a, d);
    } else {
      FillingRuns(a, d, k - 1);
      FillMore(a, d, k - 1, Filling(a, k - 1));
    }
  }

  lemma SpaceSuffices(a: Area, d: Disk, steps: seq<Step>)
    requires FreshImage(a, d) && a.size > LOGSIZE
    ensures !PanicsAfter(a, d, steps)
  {
    if IsRun(a, d, steps) {
      RunInv(a, d, steps);
      var s := Run(a, d, steps);
      if op :| MayWrite(s, op) {
        UnspentSplit(s.used, op);
      }
    }
  }

  lemma SpaceExhausted(a: Area, d: Disk) returns (steps: seq<Step>)
    requires FreshImage(a, d) && a.start + a.size + LOGSIZE <= |d| && a.size <= LOGSIZE
    ensures PanicsAfter(a, d, steps)
  {
    var k := a.size - 1;
    steps := Filling(a, k);
    FillingRuns(a, d, k);
    assert MayWrite(Run(a, d, steps), k / MAXOPBLOCKS);
  }

  /** log_write's panic is unreachable exactly when the log area is larger than LOGSIZE; mkfs makes it LOGSIZE. */
  lemma TooBigUnreachable(a: Area, d: Disk)
    requires FreshImage(a, d) && a.start + a.size + LOGSIZE <= |d|
    ensures (forall steps :: !PanicsAfter(a, d, steps)) <==> a.size > LOGSIZE
  {
    if a.size > LOGSIZE {
      forall steps ensures !PanicsAfter(a, d, steps) {
        SpaceSuffices(a, d, steps);
      }
    } else {
      var steps := SpaceExhausted(a, d);
    }
  }
}
