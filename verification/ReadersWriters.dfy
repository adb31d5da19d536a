/**
The writer-preferring monitor, for any number of readers and writers. The mutex, the two condition variables and the
counters are explicit; every thread may be preempted between any two steps, a signal may wake more than one waiter and
a waiter may wake for no reason, as POSIX permits.
*/
module ReadersWriters {
  datatype Pc =
    // reader(): outside, at its while test, on time_to_read, woken but without the mutex, reading, at its exit section
    | ROut | RTest | RWait | RWoken | RIn | RLeave
    // writer(): the same, and `data++` taken apart into its load and its store
    | WOut | WArrive | WTest | WWait | WWoken | WIn | WLoaded(v: int) | WStored | WLeave

  datatype Mutex = Free | Held(holder: nat)

  datatype State = State(
    pc: seq<Pc>,                 // one per thread
    mutex: Mutex,
    writerActive: bool,
    writersWaiting: int,
    readersActive: int,
    data: int,
    stores: nat                  // history: how many writers have stored to `data`
  )

  datatype Step =
    | Lock(t: nat)                       // pthread_mutex_lock returns, also the one inside pthread_cond_wait
    | Act(t: nat, woken: set<nat>)       // run to the next unlock or wait; `woken` are the threads a signal picked
    | Spurious(t: nat)

  predicate HoldsMutex(p: Pc) { p.RTest? || p.RLeave? || p.WArrive? || p.WTest? || p.WLeave? }

  predicate Reading(p: Pc) { p.RIn? || p.RLeave? }

  predicate Writing(p: Pc) { p.WIn? || p.WLoaded? || p.WStored? || p.WLeave? }

  predicate Queued(p: Pc) { p.WTest? || p.WWait? || p.WWoken? }

  predicate Blocked(p: Pc) { p.RWait? || p.WWait? }

  predicate WantsMutex(p: Pc) { p.ROut? || p.RWoken? || p.RIn? || p.WOut? || p.WWoken? || p.WStored? }

  function Locked(p: Pc): Pc
    requires WantsMutex(p)
  {
    match p
    case ROut => RTest case RWoken => RTest case RIn => RLeave
    case WOut => WArrive case WWoken => WTest case WStored => WLeave
  }

  function Woken(p: Pc): Pc {
    if p.RWait? then RWoken else if p.WWait? then WWoken else p
  }

  /** Every thread in `w` leaves its condition variable. */
  function Wake(pc: seq<Pc>, w: set<nat>): (r: seq<Pc>)
    ensures |r| == |pc|
    ensures forall i :: 0 <= i < |r| ==> r[i] == if i in w then Woken(pc[i]) else pc[i]
  {
    seq(|pc|, i requires 0 <= i < |pc| => if i in w then Woken(pc[i]) else pc[i])
  }

  function ReadWaiters(s: State): set<nat> { set t | 0 <= t < |s.pc| && s.pc[t].RWait? }
  function WriteWaiters(s: State): set<nat> { set t | 0 <= t < |s.pc| && s.pc[t].WWait? }

  /** The exit section of `t` signals time_to_write. */
  predicate SignalsWriter(s: State, t: nat)
    requires t < |s.pc|
  {
    (s.pc[t].RLeave? && s.readersActive == 1) || (s.pc[t].WLeave? && s.writersWaiting != 0)
  }

  /** The threads that the exit section of `t` may wake: at least one waiter for a signal, all for a broadcast. */
  predicate WakeChoice(s: State, t: nat, w: set<nat>)
    requires t < |s.pc|
  {
    if SignalsWriter(s, t) then
      w <= WriteWaiters(s) && (WriteWaiters(s) != {} ==> w != {})
    else if s.pc[t].WLeave? then
      w == ReadWaiters(s)
    else
      w == {}
  }

  predicate Enabled(s: State, step: Step) {
    match step
    case Lock(t) => t < |s.pc| && s.mutex.Free? && WantsMutex(s.pc[t])
    case Act(t, w) =>
      && t < |s.pc|
      && (if HoldsMutex(s.pc[t]) then s.mutex == Held(t) else s.pc[t].WIn? || s.pc[t].WLoaded?)
      && WakeChoice(s, t, w)
    case Spurious(t) => t < |s.pc| && Blocked(s.pc[t])
  }

  function Apply(s: State, step: Step): State
    requires Enabled(s, step)
  {
    match step
    case Lock(t) => s.(pc := s.pc[t := Locked(s.pc[t])], mutex := Held(t))
    case Spurious(t) => s.(pc := s.pc[t := Woken(s.pc[t])])
    case Act(t, w) =>
      match s.pc[t]
      case RTest =>
        if s.writerActive || s.writersWaiting != 0 then s.(pc := s.pc[t := RWait], mutex := Free)
        else s.(pc := s.pc[t := RIn], mutex := Free, readersActive := s.readersActive + 1)
      case RLeave => s.(pc := Wake(s.pc, w)[t := ROut], mutex := Free, readersActive := s.readersActive - 1)
      case WArrive => s.(pc := s.pc[t := WTest], writersWaiting := s.writersWaiting + 1)
      case WTest =>
        if s.readersActive != 0 || s.writerActive then s.(pc := s.pc[t := WWait], mutex := Free)
        else s.(pc := s.pc[t := WIn], mutex := Free, writersWaiting := s.writersWaiting - 1, writerActive := true)
      case WIn => s.(pc := s.pc[t := WLoaded(s.data)])
      case WLoaded(v) => s.(pc := s.pc[t := WStored], data := v + 1, stores := s.stores + 1)
      case WLeave => s.(pc := Wake(s.pc, w)[t := WOut], mutex := Free, writerActive := false)
      case _ => s
  }

  /** All threads outside; `writer[t]` tells which threads run writer(). */
  function Init(writer: seq<bool>): State {
    State(seq(|writer|, i requires 0 <= i < |writer| => if writer[i] then WOut else ROut), Free, false, 0, 0, 0, 0)
  }

  predicate IsRun(s: State, steps: seq<Step>)
    decreases |steps|
  {
    steps == [] || (Enabled(s, steps[0]) && IsRun(Apply(s, steps[0]), steps[1..]))
  }

  function Run(s: State, steps: seq<Step>): State
    requires IsRun(s, steps)
    decreases |steps|
  {
    if steps == [] then s else Run(Apply(s, steps[0]), steps[1..])
  }

  // ----- What the counters count -----

  function Readers(pc: seq<Pc>): set<nat> { set t: nat | t < |pc| && Reading(pc[t]) }
  function Writers(pc: seq<Pc>): set<nat> { set t: nat | t < |pc| && Writing(pc[t]) }
  function Queue(pc: seq<Pc>): set<nat> { set t: nat | t < |pc| && Queued(pc[t]) }

  ghost predicate Exclusive(s: State) {
    && (forall t, u :: 0 <= t < |s.pc| && 0 <= u < |s.pc| && Writing(s.pc[t]) && Writing(s.pc[u]) ==> t == u)
    && (forall t, u :: 0 <= t < |s.pc| && 0 <= u < |s.pc| && Writing(s.pc[t]) ==> !Reading(s.pc[u]))
  }

  ghost predicate MutexOk(s: State) {
    && (forall t :: 0 <= t < |s.pc| ==> (HoldsMutex(s.pc[t]) <==> s.mutex == Held(t)))
    && (s.mutex.Held? ==> s.mutex.holder < |s.pc|)
  }

  ghost predicate CountersOk(s: State) {
    && s.readersActive == |Readers(s.pc)|
    && s.writersWaiting == |Queue(s.pc)|
    && ActiveOk(s)
  }

  ghost predicate ActiveOk(s: State) {
    s.writerActive <==> exists t :: 0 <= t < |s.pc| && Writing(s.pc[t])
  }

  /** Whoever waits has somebody who is going to signal. */
  ghost predicate WakersOk(s: State) {
    && ((exists t :: 0 <= t < |s.pc| && s.pc[t].RWait?) ==> s.writerActive || s.writersWaiting != 0)
    && ((exists t :: 0 <= t < |s.pc| && s.pc[t].WWait?) ==>
          s.readersActive != 0 || s.writerActive || exists u :: 0 <= u < |s.pc| && (s.pc[u].WWoken? || s.pc[u].WTest?))
  }

  ghost predicate DataOk(s: State) {
    && s.data == s.stores
    && forall t :: 0 <= t < |s.pc| && s.pc[t].WLoaded? ==> s.pc[t].v == s.data
  }

  ghost predicate Inv(s: State) {
    Exclusive(s) && MutexOk(s) && CountersOk(s) && WakersOk(s) && DataOk(s)
  }

  lemma SetStep(a: set<nat>, b: set<nat>, t: nat)
    requires a - {t} == b - {t}
    ensures |b| == |a| - (if t in a then 1 else 0) + (if t in b then 1 else 0)
  {
    assert t in a ==> a == (a - {t}) + {t};
    assert t !in a ==> a == a - {t};
    assert t in b ==> b == (b - {t}) + {t};
    assert t !in b ==> b == b - {t};
  }

  /** How one thread's move, together with the wake-ups it causes, changes the three counts. */
  lemma CountStep(pc: seq<Pc>, w: set<nat>, t: nat, q: Pc)
    requires t < |pc| && t !in w
    ensures var r := Wake(pc, w)[t := q];
      && |Readers(r)| == |Readers(pc)| - (if Reading(pc[t]) then 1 else 0) + (if Reading(q) then 1 else 0)
      && |Queue(r)| == |Queue(pc)| - (if Queued(pc[t]) then 1 else 0) + (if Queued(q) then 1 else 0)
  {
    var r := Wake(pc, w)[t := q];
    assert Readers(r) - {t} == Readers(pc) - {t};
    assert Queue(r) - {t} == Queue(pc) - {t};
    SetStep(Readers(pc), Readers(r), t);
    SetStep(Queue(pc), Queue(r), t);
  }

  lemma InitInv(writer: seq<bool>)
    ensures Inv(Init(writer))
  {
    var s := Init(writer);
    assert Readers(s.pc) == {} && Queue(s.pc) == {};
  }

  function Woke(step: Step): set<nat> { if step.Act? then step.woken else {} }

  /** What every step has in common: one thread moves, some are woken, and the counters follow the thread that moved. */
  ghost predicate Effect(s: State, r: State, t: nat, w: set<nat>) {
    && t < |s.pc| == |r.pc| && t !in w
    && (forall u :: 0 <= u < |s.pc| && u != t ==> r.pc[u] == if u in w then Woken(s.pc[u]) else s.pc[u])
    && var p, q := s.pc[t], r.pc[t];
    && r.readersActive == s.readersActive - (if Reading(p) then 1 else 0) + (if Reading(q) then 1 else 0)
    && r.writersWaiting == s.writersWaiting - (if Queued(p) then 1 else 0) + (if Queued(q) then 1 else 0)
    && r.writerActive == (if Writing(p) || Writing(q) then Writing(q) else s.writerActive)
    && (Reading(q) && !Reading(p) ==> !s.writerActive && s.writersWaiting == 0)
    && (Writing(q) && !Writing(p) ==> !s.writerActive && s.readersActive == 0)
    && (HoldsMutex(q) ==> r.mutex == Held(t) && s.mutex in {Free, Held(t)})
    && (!HoldsMutex(q) ==> r.mutex == if HoldsMutex(p) then Free else s.mutex)
    && (HoldsMutex(p) ==> s.mutex == Held(t))
  }

  /** What a step does to the shared data, and why waiting is justified. */
  ghost predicate Signals(s: State, r: State, t: nat, w: set<nat>)
    requires t < |s.pc| == |r.pc|
  {
    var p, q := s.pc[t], r.pc[t];
    && (q.RWait? ==> r.writerActive || r.writersWaiting != 0)
    && (q.WWait? ==> r.writerActive || r.readersActive != 0)
    && (p.WWait? ==> q.WWoken?)
    && (p.RLeave? || p.WLeave? ==> WakeChoice(s, t, w))
    && (p.WWoken? ==> q.WTest?)
    && (p.WTest? ==> q.WWait? || Writing(q))
    && (Reading(p) && !Reading(q) ==> p.RLeave?)
    && (Writing(p) && !Writing(q) ==> p.WLeave?)
    && (Queued(p) && !Queued(q) ==> Writing(q))
    && (if p.WLoaded? then r.data == p.v + 1 && r.stores == s.stores + 1 && Writing(q)
        else r.data == s.data && r.stores == s.stores)
    && (q.WLoaded? ==> q.v == s.data && Writing(p) && !p.WLoaded?)
  }

  lemma ReaderShape(s: State, t: nat, w: set<nat>)
    requires Enabled(s, Act(t, w)) && MutexOk(s) && ActiveOk(s) && (s.pc[t].RTest? || s.pc[t].RLeave?)
    ensures Effect(s, Apply(s, Act(t, w)), t, w)
    ensures Signals(s, Apply(s, Act(t, w)), t, w)
  {
  }

  lemma WriterShape(s: State, t: nat, w: set<nat>)
    requires Enabled(s, Act(t, w)) && MutexOk(s) && ActiveOk(s) && (s.pc[t].WArrive? || s.pc[t].WTest? || s.pc[t].WLeave?)
    ensures Effect(s, Apply(s, Act(t, w)), t, w)
    ensures Signals(s, Apply(s, Act(t, w)), t, w)
  {
  }

  lemma DataShape(s: State, t: nat, w: set<nat>)
    requires Enabled(s, Act(t, w)) && MutexOk(s) && ActiveOk(s) && (s.pc[t].WIn? || s.pc[t].WLoaded?)
    ensures Effect(s, Apply(s, Act(t, w)), t, w)
    ensures Signals(s, Apply(s, Act(t, w)), t, w)
  {
  }

  lemma StepShape(s: State, step: Step)
    requires Enabled(s, step) && MutexOk(s) && ActiveOk(s)
    ensures Effect(s, Apply(s, step), step.t, Woke(step))
    ensures Signals(s, Apply(s, step), step.t, Woke(step))
  {
    var r, t := Apply(s, step), step.t;
    match step
    case Lock(_) => assert r.pc[t] == Locked(s.pc[t]);
    case Spurious(_) => assert r.pc[t] == Woken(s.pc[t]);
    case Act(_, w) =>
      if s.pc[t].WIn? || s.pc[t].WLoaded? {
        DataShape(s, t, w);
      } else if s.pc[t].RTest? || s.pc[t].RLeave? {
        ReaderShape(s, t, w);
      } else {
        WriterShape(s, t, w);
      }
  }

  lemma CountersStep(s: State, r: State, t: nat, w: set<nat>)
    requires CountersOk(s) && Exclusive(s) && Effect(s, r, t, w)
    ensures CountersOk(r)
  {
    assert r.pc == Wake(s.pc, w)[t := r.pc[t]];
    CountStep(s.pc, w, t, r.pc[t]);
    if !Writing(r.pc[t]) {
      if u :| 0 <= u < |r.pc| && Writing(r.pc[u]) { assert Writing(s.pc[u]); }
      if Writing(s.pc[t]) {
      } else if u :| 0 <= u < |s.pc| && Writing(s.pc[u]) {
        assert Writing(r.pc[u]);
      }
    }
  }

  lemma ExclusiveStep(s: State, r: State, t: nat, w: set<nat>)
    requires CountersOk(s) && Exclusive(s) && Effect(s, r, t, w)
    ensures Exclusive(r)
  {
    assert forall u :: 0 <= u < |s.pc| && u != t ==>
      (Writing(r.pc[u]) <==> Writing(s.pc[u])) && (Reading(r.pc[u]) <==> Reading(s.pc[u]));
    if s.readersActive == 0 {
      assert forall u :: 0 <= u < |s.pc| ==> (Reading(s.pc[u]) <==> u in Readers(s.pc));
    }
  }

  lemma MutexStep(s: State, r: State, t: nat, w: set<nat>)
    requires MutexOk(s) && Effect(s, r, t, w)
    ensures MutexOk(r)
  {
    assert forall u :: 0 <= u < |s.pc| && u != t ==> (HoldsMutex(r.pc[u]) <==> HoldsMutex(s.pc[u]));
  }

  lemma WriterWaits(s: State, r: State, t: nat, w: set<nat>, x: nat)
    requires CountersOk(s) && WakersOk(s) && Effect(s, r, t, w) && Signals(s, r, t, w)
    requires x < |s.pc| && r.pc[x].WWait? && !r.writerActive && r.readersActive == 0
    ensures exists u :: 0 <= u < |r.pc| && (r.pc[u].WWoken? || r.pc[u].WTest?)
  {
    if s.pc[t].RLeave? || s.pc[t].WLeave? {
      assert x != t;
      assert s.pc[x].WWait?;
      assert x in WriteWaiters(s) && x in Queue(s.pc);
      var u :| u in w;
      assert u in WriteWaiters(s);
      assert r.pc[u].WWoken?;
    } else {
      assert x != t && s.pc[x].WWait?;
      var u :| 0 <= u < |s.pc| && (s.pc[u].WWoken? || s.pc[u].WTest?);
      assert r.pc[u].WWoken? || r.pc[u].WTest?;
    }
  }

  lemma ReaderWaits(s: State, r: State, t: nat, w: set<nat>, x: nat)
    requires CountersOk(s) && WakersOk(s) && Effect(s, r, t, w) && Signals(s, r, t, w)
    requires x < |s.pc| && r.pc[x].RWait?
    ensures r.writerActive || r.writersWaiting != 0
  {
    if x != t { assert s.pc[x].RWait?; }
    if s.pc[t].WLeave? && s.writersWaiting == 0 {
      assert x in ReadWaiters(s);
    }
  }

  lemma DataStep(s: State, r: State, t: nat, w: set<nat>)
    requires DataOk(s) && Exclusive(s) && Effect(s, r, t, w) && Signals(s, r, t, w)
    ensures DataOk(r)
  {
  }

  lemma StepKeepsInv(s: State, step: Step)
    requires Inv(s) && Enabled(s, step)
    ensures Inv(Apply(s, step))
  {
    var r, t, w := Apply(s, step), step.t, Woke(step);
    StepShape(s, step);
    EffectKeepsInv(s, r, t, w);
  }

  lemma EffectKeepsInv(s: State, r: State, t: nat, w: set<nat>)
    requires Inv(s) && Effect(s, r, t, w) && Signals(s, r, t, w)
    ensures Inv(r)
  {
    CountersStep(s, r, t, w);
    ExclusiveStep(s, r, t, w);
    MutexStep(s, r, t, w);
    DataStep(s, r, t, w);
    forall x: nat | x < |r.pc| && r.pc[x].RWait? ensures r.writerActive || r.writersWaiting != 0 {
      ReaderWaits(s, r, t, w, x);
    }
    if x: nat :| x < |r.pc| && r.pc[x].WWait? && !r.writerActive && r.readersActive == 0 {
      WriterWaits(s, r, t, w, x);
    }
  }

  lemma {:induction false} RunKeepsInv(s: State, steps: seq<Step>)
    requires Inv(s) && IsRun(s, steps)
    ensures Inv(Run(s, steps)) && |Run(s, steps).pc| == |s.pc|
    decreases |steps|
  {
    if steps != [] {
      StepKeepsInv(s, steps[0]);
      StepShape(s, steps[0]);
      RunKeepsInv(Apply(s, steps[0]), steps[1..]);
    }
  }

  // ----- Main results -----

  /** At most one writer is inside and never together with a reader; the counters are exact. */
  lemma MutualExclusion(writer: seq<bool>, steps: seq<Step>)
    requires IsRun(Init(writer), steps)
    ensures var s := Run(Init(writer), steps);
      && |Writers(s.pc)| == (if s.writerActive then 1 else 0)
      && (Writers(s.pc) != {} ==> Readers(s.pc) == {})
      && s.readersActive == |Readers(s.pc)|
      && s.writersWaiting == |Queue(s.pc)|
  {
    InitInv(writer);
    RunKeepsInv(Init(writer), steps);
    var s := Run(Init(writer), steps);
    if t :| 0 <= t < |s.pc| && Writing(s.pc[t]) {
      assert Writers(s.pc) == {t};
    } else {
      assert Writers(s.pc) == {};
    }
  }

  /** No update of `data` is lost, although each is a separate load and store. */
  lemma NoLostUpdate(writer: seq<bool>, steps: seq<Step>)
    requires IsRun(Init(writer), steps)
    ensures Run(Init(writer), steps).data == Stores(Init(writer), steps)
  {
    InitInv(writer);
    RunKeepsInv(Init(writer), steps);
    StoresCounted(Init(writer), steps);
  }

  /** How many steps of the run were a writer's store. */
  function Stores(s: State, steps: seq<Step>): nat
    requires IsRun(s, steps)
    decreases |steps|
  {
    if steps == [] then 0 else
      (if steps[0].Act? && s.pc[steps[0].t].WLoaded? then 1 else 0) + Stores(Apply(s, steps[0]), steps[1..])
  }

  lemma {:induction false} StoresCounted(s: State, steps: seq<Step>)
    requires IsRun(s, steps)
    ensures Run(s, steps).stores == s.stores + Stores(s, steps)
    decreases |steps|
  {
    if steps != [] { StoresCounted(Apply(s, steps[0]), steps[1..]); }
  }

  /** How often in the run a writer has entered its exit section. */
  function Exits(s: State, steps: seq<Step>): nat
    requires IsRun(s, steps)
    decreases |steps|
  {
    if steps == [] then 0 else
      var r, t := Apply(s, steps[0]), steps[0].t;
      (if t < |s.pc| == |r.pc| && !s.pc[t].WLeave? && r.pc[t].WLeave? then 1 else 0) + Exits(r, steps[1..])
  }

  /** The writers that have stored to `data` and are still to enter their exit section. */
  function Stored(pc: seq<Pc>): set<nat> { set t: nat | t < |pc| && pc[t].WStored? }

  /** Where a step takes the thread that makes it, by who is inside and who is queued, and what it leaves in `data`. */
  ghost predicate Moves(s: State, r: State, step: Step)
    requires step.t < |s.pc| == |r.pc|
  {
    var p, q := s.pc[step.t], r.pc[step.t];
    && (step.Act? && p.RTest? ==> q == if Writers(s.pc) == {} && Queue(s.pc) == {} then RIn else RWait)
    && (step.Act? && p.RLeave? ==> q == ROut)
    && (step.Act? && p.WArrive? ==> q == WTest)
    && (step.Act? && p.WTest? ==> q == if Writers(s.pc) == {} && Readers(s.pc) == {} then WIn else WWait)
    && (step.Act? && p.WIn? ==> q == WLoaded(s.data))
    && (step.Act? && p.WLoaded? ==> q == WStored)
    && (step.Act? && p.WLeave? ==> q == WOut)
    && (step.Lock? && (p.ROut? || p.RWoken?) ==> q == RTest)
    && (step.Lock? && p.RIn? ==> q == RLeave)
    && (step.Lock? && p.WOut? ==> q == WArrive)
    && (step.Lock? && p.WWoken? ==> q == WTest)
    && (step.Lock? && p.WStored? ==> q == WLeave)
    && (step.Spurious? ==> (p.RWait? && q == RWoken) || (p.WWait? && q == WWoken))
    && r.data == if step.Act? && p.WLoaded? then p.v + 1 else s.data
  }

  lemma StepMoves(s: State, step: Step)
    requires Inv(s) && Enabled(s, step)
    ensures step.t < |s.pc| == |Apply(s, step).pc| && Moves(s, Apply(s, step), step)
  {
    StepShape(s, step);
    WritersInside(s);
  }

  lemma WritersInside(s: State)
    requires ActiveOk(s)
    ensures s.writerActive <==> Writers(s.pc) != {}
  {
    if t :| 0 <= t < |s.pc| && Writing(s.pc[t]) { assert t in Writers(s.pc); }
  }

  /** One step adds to the stores what it adds to the exits and to those between the two. */
  lemma StoredStep(s: State, step: Step)
    requires Inv(s) && Enabled(s, step)
    ensures var r, t := Apply(s, step), step.t;
      && t < |s.pc| == |r.pc|
      && r.data - s.data == |Stored(r.pc)| - |Stored(s.pc)| + if !s.pc[t].WLeave? && r.pc[t].WLeave? then 1 else 0
  {
    var r, t := Apply(s, step), step.t;
    StepShape(s, step);
    StepMoves(s, step);
    assert Stored(r.pc) - {t} == Stored(s.pc) - {t};
    SetStep(Stored(s.pc), Stored(r.pc), t);
  }

  lemma {:induction false} ExitsCounted(s: State, steps: seq<Step>)
    requires Inv(s) && IsRun(s, steps)
    ensures Run(s, steps).data - s.data == Exits(s, steps) + |Stored(Run(s, steps).pc)| - |Stored(s.pc)|
    decreases |steps|
  {
    if steps != [] {
      StoredStep(s, steps[0]);
      StepKeepsInv(s, steps[0]);
      ExitsCounted(Apply(s, steps[0]), steps[1..]);
    }
  }

  /** Every writer that has been inside has counted once: those that left, and those about to leave. */
  lemma EveryWriterCounts(writer: seq<bool>, steps: seq<Step>)
    requires IsRun(Init(writer), steps)
    ensures Run(Init(writer), steps).data == Exits(Init(writer), steps) + |Stored(Run(Init(writer), steps).pc)|
  {
    InitInv(writer);
    ExitsCounted(Init(writer), steps);
    assert Stored(Init(writer).pc) == {};
  }

  /** The steps that need no luck: everything but a spurious wake-up. */
  predicate Progress(s: State, step: Step) {
    Enabled(s, step) && !step.Spurious?
  }

  /** Not all threads ever block on the condition variables, and some thread can always take a step of its own. */
  lemma NeverAllBlocked(writer: seq<bool>, steps: seq<Step>)
    requires IsRun(Init(writer), steps) && writer != []
    ensures exists t :: 0 <= t < |Run(Init(writer), steps).pc| && !Blocked(Run(Init(writer), steps).pc[t])
    ensures exists step :: Progress(Run(Init(writer), steps), step)
  {
    InitInv(writer);
    RunKeepsInv(Init(writer), steps);
    var s := Run(Init(writer), steps);
    SomeAwake(s);
    var t :| 0 <= t < |s.pc| && !Blocked(s.pc[t]);
    var step: Step := SomeStep(s, t);
    assert Progress(s, step);
  }

  lemma SomeAwake(s: State)
    requires Inv(s) && s.pc != []
    ensures exists t :: 0 <= t < |s.pc| && !Blocked(s.pc[t])
  {
    if !exists w :: 0 <= w < |s.pc| && s.pc[w].WWait? {
      if forall t :: 0 <= t < |s.pc| ==> !Queued(s.pc[t]) && !Writing(s.pc[t]) {
        assert Queue(s.pc) == {};
        assert !Blocked(s.pc[0]);
      }
    } else {
      if forall t :: 0 <= t < |s.pc| ==> !Reading(s.pc[t]) { assert Readers(s.pc) == {}; }
    }
  }

  lemma SomeStep(s: State, t: nat) returns (step: Step)
    requires Inv(s) && t < |s.pc| && !Blocked(s.pc[t])
    ensures Progress(s, step)
  {
    if s.mutex.Held? {
      var h := s.mutex.holder;
      step := Act(h, if SignalsWriter(s, h) then WriteWaiters(s)
                     else if s.pc[h].WLeave? then ReadWaiters(s) else {});
    } else if WantsMutex(s.pc[t]) {
      step := Lock(t);
    } else {
      step := Act(t, {});
    }
  }

  /** Some writer is queued at every state of the run, its last one excepted. */
  predicate WriterQueued(s: State, steps: seq<Step>)
    requires IsRun(s, steps)
    decreases |steps|
  {
    steps == [] || (Queue(s.pc) != {} && WriterQueued(Apply(s, steps[0]), steps[1..]))
  }

  /** Writers go first: while one is queued no reader gets in, so the set of readers inside only shrinks. */
  lemma {:induction false} QueuedWriterKeepsReadersOut(s: State, steps: seq<Step>)
    requires Inv(s) && IsRun(s, steps) && WriterQueued(s, steps)
    ensures Readers(Run(s, steps).pc) <= Readers(s.pc)
    decreases |steps|
  {
    if steps != [] {
      StepKeepsInv(s, steps[0]);
      StepShape(s, steps[0]);
      NoneEnters(s, Apply(s, steps[0]), steps[0].t, Woke(steps[0]));
      QueuedWriterKeepsReadersOut(Apply(s, steps[0]), steps[1..]);
    }
  }

  lemma NoneEnters(s: State, r: State, t: nat, w: set<nat>)
    requires CountersOk(s) && Effect(s, r, t, w) && Queue(s.pc) != {}
    ensures Readers(r.pc) <= Readers(s.pc)
  {
    forall u | u in Readers(r.pc) ensures u in Readers(s.pc) {
      assert u != t ==> (Reading(r.pc[u]) <==> Reading(s.pc[u]));
    }
  }

  /** Thread `t` is reading in every state of the run. */
  predicate StaysReading(s: State, steps: seq<Step>, t: nat)
    requires IsRun(s, steps)
    decreases |steps|
  {
    t < |s.pc| && Reading(s.pc[t]) && (steps == [] || StaysReading(Apply(s, steps[0]), steps[1..], t))
  }

  /** What a reader sees does not change under it. */
  lemma {:induction false} ReaderSeesOneValue(s: State, steps: seq<Step>, t: nat)
    requires Inv(s) && IsRun(s, steps) && StaysReading(s, steps, t)
    ensures Run(s, steps).data == s.data
    decreases |steps|
  {
    if steps != [] {
      StepKeepsInv(s, steps[0]);
      ReaderSeesOneValue(Apply(s, steps[0]), steps[1..], t);
    }
  }

  // ----- The program text: critical sections over the shared counters -----

  /** The shared variables; each method is what one thread does while it holds the mutex. */
  class Monitor {
    var writerActive: bool
    var writersWaiting: int
    var readersActive: int
    ghost var s: State

    ghost predicate Valid()
      reads this
    {
      Inv(s) && s.writerActive == writerActive && s.writersWaiting == writersWaiting && s.readersActive == readersActive
    }

    constructor (ghost writer: seq<bool>)
      ensures Valid() && s == Init(writer)
    {
      writerActive, writersWaiting, readersActive := false, 0, 0;
      s := Init(writer);
      InitInv(writer);
    }

    /** One test of reader()'s while loop; false means it went to wait on time_to_read. */
    method ReaderTest(ghost t: nat) returns (entered: bool)
      requires Valid() && t < |s.pc| && s.pc[t].RTest?
      modifies this
      ensures Valid() && s == Apply(old(s), Act(t, {}))
      ensures entered <==> Queue(old(s).pc) == {} && Writers(old(s).pc) == {}
      ensures entered ==> s.pc[t].RIn?
      ensures !entered ==> s.pc[t].RWait?
    {
      StepKeepsInv(s, Act(t, {}));
      entered := !(writerActive || writersWaiting != 0);
      assert writerActive ==> Writers(s.pc) != {} by {
        if writerActive { var u :| 0 <= u < |s.pc| && Writing(s.pc[u]); assert u in Writers(s.pc); }
      }
      if entered { readersActive := readersActive + 1; }
      s := Apply(s, Act(t, {}));
    }

    /** reader()'s exit section; `woken` is what the system does with the signal, if one is sent. */
    method ReaderLeave(ghost t: nat, ghost woken: set<nat>) returns (signalled: bool)
      requires Valid() && Enabled(s, Act(t, woken)) && s.pc[t].RLeave?
      modifies this
      ensures Valid() && s == Apply(old(s), Act(t, woken))
      ensures signalled <==> Readers(s.pc) == {}
    {
      StepKeepsInv(s, Act(t, woken));
      readersActive := readersActive - 1;
      signalled := readersActive == 0;
      s := Apply(s, Act(t, woken));
    }

    method WriterArrive(ghost t: nat)
      requires Valid() && t < |s.pc| && s.pc[t].WArrive?
      modifies this
      ensures Valid() && s == Apply(old(s), Act(t, {}))
    {
      StepKeepsInv(s, Act(t, {}));
      writersWaiting := writersWaiting + 1;
      s := Apply(s, Act(t, {}));
    }

    /** One test of writer()'s while loop; false means it went to wait on time_to_write. */
    method WriterTest(ghost t: nat) returns (entered: bool)
      requires Valid() && t < |s.pc| && s.pc[t].WTest?
      modifies this
      ensures Valid() && s == Apply(old(s), Act(t, {}))
      ensures entered <==> Readers(old(s).pc) == {} && Writers(old(s).pc) == {}
      ensures entered ==> Writers(s.pc) == {t}
    {
      StepKeepsInv(s, Act(t, {}));
      entered := !(readersActive != 0 || writerActive);
      assert writerActive ==> Writers(s.pc) != {} by {
        if writerActive { var u :| 0 <= u < |s.pc| && Writing(s.pc[u]); assert u in Writers(s.pc); }
      }
      if entered {
        writersWaiting := writersWaiting - 1;
        writerActive := true;
      }
      s := Apply(s, Act(t, {}));
    }

    /** writer()'s exit section: the next writer is signalled if there is one, else all readers are. */
    method WriterLeave(ghost t: nat, ghost woken: set<nat>) returns (signalled: bool)
      requires Valid() && Enabled(s, Act(t, woken)) && s.pc[t].WLeave?
      modifies this
      ensures Valid() && s == Apply(old(s), Act(t, woken))
      ensures signalled <==> Queue(s.pc) != {}
      ensures !signalled ==> ReadWaiters(s) == {}
    {
      StepKeepsInv(s, Act(t, woken));
      writerActive := false;
      signalled := writersWaiting != 0;
      s := Apply(s, Act(t, woken));
    }
  }
}
