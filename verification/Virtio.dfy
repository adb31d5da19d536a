/**
The virtio disk driver and the device it shares a descriptor table and two rings with. Requests run concurrently: a
process posts a request and sleeps, the device takes and completes requests in any order, the interrupt handler
consumes the used ring one entry at a time, and the process frees its chain when it sees its buffer's flag cleared.
*/
module Virtio {
  const NUM: nat := 8
  const WRAP: nat := 0x1_0000          // ring indices are 16 bits wide
  const NEXT: nat := 1                 // VRING_DESC_F_NEXT
  const WRITE: nat := 2                // VRING_DESC_F_WRITE
  const BSIZE: nat := 1024
  const HDRSIZE: nat := 16             // sizeof(struct virtio_blk_req)

  /** What a descriptor's address points at: a command header, a buffer's data, a status byte. */
  datatype Addr = Null | Header(op: nat) | Data(buf: nat) | Status(info: nat)
  datatype Desc = Desc(addr: Addr, len: nat, flags: nat, next: nat)
  const EMPTY: Desc := Desc(Null, 0, 0, 0)

  datatype Command = Command(write: bool, sector: nat)
  datatype Info = Info(b: int, status: nat)              // b == -1 is a null pointer

  /** A 1024-byte block as the two 512-byte sectors it occupies. */
  datatype Block = Block(lo: int, hi: int)

  /** History: one call of virtio_disk_rw, with its chain and the contents the caller passed. */
  datatype Request = Request(head: nat, mid: nat, tail: nat, buf: nat, write: bool, block: nat, value: Block)
  datatype Stage = Posted | Taken | Completed | Handled | Finished

  datatype State = State(
    // the driver's and the shared memory
    desc: seq<Desc>, free: seq<bool>, ops: seq<Command>, info: seq<Info>,
    availRing: seq<nat>, availIdx: nat,
    usedRing: seq<nat>, usedIdx: nat,
    looked: nat,                       // disk.used_idx
    busy: seq<bool>,                   // b->disk, per buffer
    data: seq<Block>,                  // b->data, per buffer
    // the device
    media: seq<int>,                   // one entry a sector
    seen: nat,                         // how far it has read the avail ring
    pending: map<nat, nat>,            // heads it took and has not completed, by request
    // history
    reqs: seq<Request>, stage: seq<Stage>, taken: nat,
    queue: seq<nat>, handled: nat,     // completed requests the driver has not looked at yet, and how many it has
    owner: seq<int>, user: seq<int>      // the live request of each descriptor and of each buffer, or -1
  )

  datatype Step =
    | Post(h: nat, m: nat, t: nat, buf: nat, write: bool, block: nat)
    | Take
    | Complete(id: nat)
    | Handle
    | Finish(id: nat)
    | Modify(b: nat, value: Block)

  predicate Live(s: State, id: int) {
    0 <= id < |s.reqs| == |s.stage| && !s.stage[id].Finished?
  }

  function OnMedia(media: seq<int>, block: nat): Block
    requires 2 * block + 1 < |media|
  {
    Block(media[2 * block], media[2 * block + 1])
  }

  // ----- The steps -----

  /** The device can follow the chain from `head`: a header, a block of data of the right direction, a status byte. */
  predicate Understood(s: State, head: nat) {
    && head < |s.desc| && s.desc[head].addr.Header? && s.desc[head].len == HDRSIZE
    && s.desc[head].flags % 2 == NEXT && s.desc[head].addr.op < |s.ops|
    && var m := s.desc[head].next;
    && m < |s.desc| && s.desc[m].addr.Data? && s.desc[m].len == BSIZE && s.desc[m].flags % 2 == NEXT
    && (s.desc[m].flags / 2 % 2 == 0 <==> s.ops[s.desc[head].addr.op].write)
    && s.desc[m].addr.buf < |s.data|
    && s.ops[s.desc[head].addr.op].sector + 1 < |s.media|
    && var t := s.desc[m].next;
    && t < |s.desc| && s.desc[t].addr.Status? && s.desc[t].len == 1
    && s.desc[t].flags == WRITE && s.desc[t].addr.info < |s.info|
  }

  /** What the device does for the chain at `head`, going by shared memory alone. */
  function Serve(s: State, head: nat): State
    requires Understood(s, head)
  {
    var op := s.ops[s.desc[head].addr.op];
    var d := s.desc[s.desc[head].next];
    var i := s.desc[d.next].addr.info;
    var v := s.data[d.addr.buf];
    s.(media := if op.write then s.media[op.sector := v.lo][op.sector + 1 := v.hi] else s.media,
       data := if op.write then s.data
               else s.data[d.addr.buf := Block(s.media[op.sector], s.media[op.sector + 1])],
       info := s.info[i := s.info[i].(status := 0)])
  }

  predicate Sized(s: State) {
    && |s.desc| == |s.free| == |s.ops| == |s.info| == |s.availRing| == |s.usedRing| == |s.owner| == NUM
    && |s.busy| == |s.data| == |s.user| && |s.reqs| == |s.stage|
  }

  /** The caller holds b's sleep lock, and b is the only buffer of its block. */
  predicate MayPost(s: State, b: nat, block: nat)
    requires Sized(s)
  {
    && b < |s.busy| && 2 * block + 1 < |s.media|
    && s.user[b] == -1 && forall id: nat :: id < |s.reqs| && Live(s, id) ==> s.reqs[id].block != block
  }

  predicate Enabled(s: State, step: Step) {
    && Sized(s)
    && match step
       case Post(h, m, t, b, write, block) =>
         && h < NUM && m < NUM && t < NUM && h != m && m != t && h != t && s.free[h] && s.free[m] && s.free[t]
         && MayPost(s, b, block)
       case Take => s.seen != s.availIdx && s.availRing[s.seen % NUM] < NUM
       case Complete(id) => id in s.pending && Understood(s, s.pending[id]) && id < |s.stage|
       case Handle =>
         && s.looked != s.usedIdx && s.queue != [] && s.queue[0] < |s.stage|
         && var head := s.usedRing[s.looked % NUM];
         head < NUM && s.info[head].status == 0 && 0 <= s.info[head].b < |s.busy|
       case Finish(id) =>
         && Live(s, id)
         && var r := s.reqs[id];
         r.head < NUM && r.mid < NUM && r.tail < NUM && r.buf < |s.busy| && !s.busy[r.buf]
       case Modify(b, _) => b < |s.busy| && s.user[b] == -1
  }

  function Apply(s: State, step: Step): State
    requires Enabled(s, step)
  {
    match step
    case Post(h, m, t, b, write, block) =>
      s.(free := s.free[h := false][m := false][t := false],
         ops := s.ops[h := Command(write, 2 * block)],
         desc := s.desc[h := Desc(Header(h), HDRSIZE, NEXT, m)]
                       [m := Desc(Data(b), BSIZE, if write then NEXT else WRITE + NEXT, t)]
                       [t := Desc(Status(h), 1, WRITE, 0)],
         info := s.info[h := Info(b, 0xff)],
         busy := s.busy[b := true],
         availRing := s.availRing[s.availIdx % NUM := h],
         availIdx := (s.availIdx + 1) % WRAP,
         reqs := s.reqs + [Request(h, m, t, b, write, block, s.data[b])],
         stage := s.stage + [Posted],
         owner := s.owner[h := |s.reqs|][m := |s.reqs|][t := |s.reqs|],
         user := s.user[b := |s.reqs|])
    case Take =>
      s.(seen := (s.seen + 1) % WRAP,
         pending := s.pending[s.taken := s.availRing[s.seen % NUM]],
         taken := s.taken + 1,
         stage := if s.taken < |s.stage| then s.stage[s.taken := Taken] else s.stage)
    case Complete(id) =>
      Serve(s, s.pending[id]).(
        usedRing := s.usedRing[s.usedIdx % NUM := s.pending[id]],
        usedIdx := (s.usedIdx + 1) % WRAP,
        pending := s.pending - {id},
        queue := s.queue + [id],
        stage := s.stage[id := Completed])
    case Handle =>
      var head := s.usedRing[s.looked % NUM];
      s.(busy := s.busy[s.info[head].b := false],
         looked := (s.looked + 1) % WRAP,
         queue := s.queue[1..], handled := s.handled + 1,
         stage := s.stage[s.queue[0] := Handled])
    case Finish(id) =>
      var r := s.reqs[id];
      s.(info := s.info[r.head := s.info[r.head].(b := -1)],
         desc := s.desc[r.head := EMPTY][r.mid := EMPTY][r.tail := EMPTY],
         free := s.free[r.head := true][r.mid := true][r.tail := true],
         stage := s.stage[id := Finished],
         owner := s.owner[r.head := -1][r.mid := -1][r.tail := -1],
         user := s.user[r.buf := -1])
    case Modify(b, v) => s.(data := s.data[b := v])
  }

  /** virtio_disk_init, for any number of buffers and any disk contents. */
  function Init(data: seq<Block>, media: seq<int>): State {
    var nb := |data|;
    State(seq(NUM, _ => EMPTY), seq(NUM, _ => true), seq(NUM, _ => Command(false, 0)), seq(NUM, _ => Info(-1, 0)),
          seq(NUM, _ => 0), 0, seq(NUM, _ => 0), 0, 0, seq(nb, _ => false), data,
          media, 0, map[], [], [], 0, [], 0, seq(NUM, _ => -1), seq(nb, _ => -1))
  }

  // ----- Rings with 16-bit indices -----

  /** Slots `lo`, `lo + 1`, ... of the ring hold `items`, counting without wrap-around. */
  ghost predicate Holds(ring: seq<nat>, lo: nat, items: seq<nat>) {
    |ring| == NUM && forall k {:trigger items[k]} :: 0 <= k < |items| ==> ring[(lo + k) % NUM] == items[k]
  }

  lemma Wraps(x: nat)
    ensures x % WRAP % NUM == x % NUM
    ensures (x % WRAP + 1) % WRAP == (x + 1) % WRAP
  {
    var q := x / WRAP;
    assert x == NUM * (0x2000 * q) + x % WRAP;
  }

  /** Indices that far apart cannot be mistaken for each other. */
  lemma SameIndex(x: nat, y: nat)
    requires x <= y < x + WRAP
    ensures x % WRAP == y % WRAP <==> x == y
  {
  }

  lemma SameSlot(x: nat, y: nat)
    requires x < y < x + NUM
    ensures x % NUM != y % NUM
  {
  }

  /** Adding an entry overwrites none that is still waiting. */
  lemma RingPut(ring: seq<nat>, lo: nat, items: seq<nat>, x: nat)
    requires Holds(ring, lo, items) && |items| < NUM
    ensures Holds(ring[(lo + |items|) % WRAP % NUM := x], lo, items + [x])
  {
    Wraps(lo + |items|);
    forall k {:trigger items[k]} | 0 <= k < |items| ensures (lo + k) % NUM != (lo + |items|) % NUM {
      SameSlot(lo + k, lo + |items|);
    }
  }

  /** The oldest entry is where the consumer's wrapped index points. */
  lemma RingTake(ring: seq<nat>, lo: nat, items: seq<nat>)
    requires Holds(ring, lo, items) && items != []
    ensures ring[lo % WRAP % NUM] == items[0]
    ensures Holds(ring, lo + 1, items[1..])
  {
    Wraps(lo);
    assert ring[(lo + 0) % NUM] == items[0];
    forall k | 0 <= k < |items| - 1 ensures ring[(lo + 1 + k) % NUM] == items[1..][k] {
      assert items[1..][k] == items[k + 1];
      assert lo + 1 + k == lo + (k + 1);
    }
  }

  ghost function Heads(rs: seq<Request>): (r: seq<nat>)
    ensures |r| == |rs| && forall k :: 0 <= k < |r| ==> r[k] == rs[k].head
  {
    seq(|rs|, k requires 0 <= k < |rs| => rs[k].head)
  }

  /** The heads of the requests `ids` names. */
  ghost function Named(rs: seq<Request>, ids: seq<nat>): (r: seq<nat>)
    ensures |r| == |ids| && forall k :: 0 <= k < |r| ==> r[k] == if ids[k] < |rs| then rs[ids[k]].head else 0
  {
    seq(|ids|, k requires 0 <= k < |ids| => if ids[k] < |rs| then rs[ids[k]].head else 0)
  }

  // ----- The invariant -----

  predicate InChain(r: Request, d: nat) { d == r.head || d == r.mid || d == r.tail }

  ghost predicate OwnersOk(s: State)
    requires Sized(s)
  {
    && (forall d {:trigger s.owner[d]} :: 0 <= d < NUM ==> (s.free[d] <==> s.owner[d] == -1))
    && (forall d {:trigger s.owner[d]} :: 0 <= d < NUM && s.owner[d] != -1 ==>
          Live(s, s.owner[d]) && InChain(s.reqs[s.owner[d]], d))
    && (forall d {:trigger s.desc[d]} :: 0 <= d < NUM && s.free[d] ==> s.desc[d] == EMPTY)
    && (forall b {:trigger s.user[b]} :: 0 <= b < |s.user| && s.user[b] != -1 ==>
          Live(s, s.user[b]) && s.reqs[s.user[b]].buf == b)
    && (forall b {:trigger s.user[b]} :: 0 <= b < |s.user| && s.user[b] == -1 ==> !s.busy[b])
  }

  /** The chain of a live request, exactly as the driver laid it out. */
  ghost predicate ChainOk(s: State, id: nat)
    requires Sized(s) && id < |s.reqs|
  {
    var r := s.reqs[id];
    && r.head < NUM && r.mid < NUM && r.tail < NUM && r.head != r.mid && r.mid != r.tail && r.head != r.tail
    && s.owner[r.head] == s.owner[r.mid] == s.owner[r.tail] == id
    && s.desc[r.head] == Desc(Header(r.head), HDRSIZE, NEXT, r.mid)
    && s.desc[r.mid] == Desc(Data(r.buf), BSIZE, if r.write then NEXT else WRITE + NEXT, r.tail)
    && s.desc[r.tail] == Desc(Status(r.head), 1, WRITE, 0)
    && s.ops[r.head] == Command(r.write, 2 * r.block)
    && s.info[r.head].b == r.buf
    && r.buf < |s.user| && s.user[r.buf] == id && 2 * r.block + 1 < |s.media|
  }

  /** How far a live request has got, as its buffer, its status byte and the medium show it. */
  ghost predicate StageOk(s: State, id: nat)
    requires Sized(s) && id < |s.reqs| && ChainOk(s, id)
  {
    var r := s.reqs[id];
    && (s.busy[r.buf] <==> !s.stage[id].Handled?)
    && (s.stage[id].Completed? || s.stage[id].Handled? ==>
          s.info[r.head].status == 0 && s.data[r.buf] == OnMedia(s.media, r.block))
    && (r.write ==> s.data[r.buf] == r.value)
  }

  ghost predicate LiveOk(s: State, id: nat)
    requires Sized(s) && id < |s.reqs|
  {
    ChainOk(s, id) && StageOk(s, id)
  }

  /** The avail ring holds exactly the requests the device has not taken, in order. */
  ghost predicate AvailOk(s: State)
    requires Sized(s)
  {
    && s.taken <= |s.reqs| && s.availIdx == |s.reqs| % WRAP && s.seen == s.taken % WRAP
    && Holds(s.availRing, s.taken, Heads(s.reqs[s.taken..]))
  }

  /** The used ring holds exactly the completed requests the driver has not handled, in order of completion. */
  ghost predicate UsedOk(s: State)
    requires Sized(s)
  {
    && s.usedIdx == (s.handled + |s.queue|) % WRAP && s.looked == s.handled % WRAP
    && Holds(s.usedRing, s.handled, Named(s.reqs, s.queue))
  }

  /** A request's stage tells where it is to be found. */
  ghost predicate StagesOk(s: State)
    requires Sized(s)
  {
    && (forall id {:trigger s.stage[id]} :: 0 <= id < |s.reqs| ==> (id >= s.taken <==> s.stage[id].Posted?))
    && (forall id {:trigger s.stage[id]} :: 0 <= id < |s.reqs| && s.stage[id].Taken? ==> id in s.pending)
    && (forall id {:trigger s.pending[id]} :: id in s.pending ==>
          0 <= id < |s.reqs| && s.stage[id].Taken? && s.pending[id] == s.reqs[id].head)
    && (forall id {:trigger s.stage[id]} :: 0 <= id < |s.reqs| && s.stage[id].Completed? ==> id in s.queue)
    && (forall k {:trigger s.queue[k]} :: 0 <= k < |s.queue| ==>
          s.queue[k] < |s.reqs| && s.stage[s.queue[k]].Completed?)
    && (forall j, k :: 0 <= j < k < |s.queue| ==> s.queue[j] != s.queue[k])
  }

  ghost predicate BlocksOk(s: State) {
    forall i: nat, j: nat {:trigger s.reqs[i].block, s.reqs[j].block} ::
      i < j < |s.reqs| && Live(s, i) && Live(s, j) ==> s.reqs[i].block != s.reqs[j].block
  }

  ghost predicate SharedOk(s: State) {
    Sized(s) && OwnersOk(s) && AvailOk(s) && UsedOk(s) && StagesOk(s) && BlocksOk(s)
  }

  ghost predicate AllLiveOk(s: State)
    requires Sized(s)
  {
    forall id: nat {:trigger LiveOk(s, id)} :: id < |s.reqs| && Live(s, id) ==> LiveOk(s, id)
  }

  ghost predicate Inv(s: State) {
    SharedOk(s) && AllLiveOk(s)
  }

  // ----- Counting: free flags and live chains partition the descriptors -----

  ghost function FreeSet(s: State): set<nat> { set d: nat | d < |s.free| && s.free[d] }

  ghost function LiveSet(s: State): set<nat> { set id: nat | id < |s.reqs| && Live(s, id) }

  ghost function OwnedBy(s: State, ids: set<nat>): set<nat> {
    set d: nat | d < |s.owner| && s.owner[d] in ids
  }

  lemma {:induction false} OwnedCount(s: State, ids: set<nat>)
    requires Inv(s) && ids <= LiveSet(s)
    ensures |OwnedBy(s, ids)| == 3 * |ids|
    decreases |ids|
  {
    if ids == {} {
      assert OwnedBy(s, ids) == {};
    } else {
      var id :| id in ids;
      OwnedCount(s, ids - {id});
      OwnedApart(s, ids, id);
    }
  }

  /** One request's chain is three descriptors that no other request owns. */
  lemma OwnedApart(s: State, ids: set<nat>, id: nat)
    requires Inv(s) && ids <= LiveSet(s) && id in ids
    ensures |OwnedBy(s, ids)| == |OwnedBy(s, ids - {id})| + 3
  {
    var r := s.reqs[id];
    assert LiveOk(s, id);
    var rest := OwnedBy(s, ids - {id});
    assert OwnedBy(s, ids) == rest + {r.head, r.mid, r.tail};
    assert r.head !in rest && r.mid !in rest && r.tail !in rest;
    assert |{r.head, r.mid, r.tail}| == 3;
  }

  lemma ChainOwned(s: State, id: nat)
    requires Inv(s) && id < |s.reqs| && Live(s, id)
    ensures OwnedBy(s, {id}) == {s.reqs[id].head, s.reqs[id].mid, s.reqs[id].tail}
  {
    assert LiveOk(s, id);
  }

  lemma FreeOrOwned(s: State)
    requires Inv(s)
    ensures FreeSet(s) !! OwnedBy(s, LiveSet(s))
    ensures FreeSet(s) + OwnedBy(s, LiveSet(s)) == Interval(0, NUM)
  {
    forall d: nat | d < NUM ensures d in FreeSet(s) <==> d !in OwnedBy(s, LiveSet(s)) {
      assert s.owner[d] != -1 ==> Live(s, s.owner[d]);
    }
  }

  /** Free descriptors and the chains of live requests partition the table, so at most two requests are in flight. */
  lemma DescriptorsPartition(s: State)
    requires Inv(s)
    ensures |FreeSet(s)| + 3 * |LiveSet(s)| == NUM
    ensures FreeSet(s) !! OwnedBy(s, LiveSet(s))
    ensures forall id :: id in LiveSet(s) ==> OwnedBy(s, {id}) == {s.reqs[id].head, s.reqs[id].mid, s.reqs[id].tail}
  {
    OwnedCount(s, LiveSet(s));
    Upto(0, NUM);
    FreeOrOwned(s);
    forall id | id in LiveSet(s) ensures OwnedBy(s, {id}) == {s.reqs[id].head, s.reqs[id].mid, s.reqs[id].tail} {
      ChainOwned(s, id);
    }
  }

  ghost function Interval(lo: nat, hi: nat): set<nat> { set x: nat | x < hi && Within(lo, x, hi) }

  predicate Within(lo: int, x: int, hi: int) { lo <= x < hi }

  lemma {:induction false} Upto(lo: nat, hi: nat)
    requires lo <= hi
    ensures |Interval(lo, hi)| == hi - lo
    decreases hi - lo
  {
    if lo == hi {
      assert Interval(lo, hi) == {};
    } else {
      Upto(lo, hi - 1);
      assert Interval(lo, hi) == Interval(lo, hi - 1) + {hi - 1};
    }
  }

  lemma {:induction false} SubsetCount(a: set<nat>, b: set<nat>)
    requires a <= b
    ensures |a| <= |b|
    decreases |a|
  {
    if a != {} {
      var x :| x in a;
      SubsetCount(a - {x}, b - {x});
    }
  }

  ghost function Elements(q: seq<nat>): set<nat> { set x | x in q }

  lemma {:induction false} DistinctCount(q: seq<nat>)
    requires forall j, k :: 0 <= j < k < |q| ==> q[j] != q[k]
    ensures |Elements(q)| == |q|
    decreases |q|
  {
    if q == [] {
      assert Elements(q) == {};
    } else {
      var n := |q| - 1;
      DistinctCount(q[..n]);
      assert Elements(q) == Elements(q[..n]) + {q[n]};
    }
  }

  /** The rings never hold more unconsumed entries than there are requests in flight. */
  lemma RingsFit(s: State)
    requires Inv(s)
    ensures |s.reqs| - s.taken <= NUM / 3 && |s.queue| <= NUM / 3
    ensures |FreeSet(s)| >= 3 ==> |s.reqs| - s.taken < NUM / 3
    ensures |FreeSet(s)| < 3 ==> |LiveSet(s)| == NUM / 3
  {
    DescriptorsPartition(s);
    assert Interval(s.taken, |s.reqs|) <= LiveSet(s);
    Upto(s.taken, |s.reqs|);
    SubsetCount(Interval(s.taken, |s.reqs|), LiveSet(s));
    assert Elements(s.queue) <= LiveSet(s);
    DistinctCount(s.queue);
    SubsetCount(Elements(s.queue), LiveSet(s));
  }

  // ----- Every step keeps the invariant -----

  lemma InitInv(data: seq<Block>, media: seq<int>)
    ensures Inv(Init(data, media))
  {
  }

  lemma PostLive(s: State, step: Step, id: nat)
    requires Inv(s) && Enabled(s, step) && step.Post? && id <= |s.reqs| && (id < |s.reqs| ==> Live(s, id))
    ensures LiveOk(Apply(s, step), id)
  {
    assert id < |s.reqs| ==> LiveOk(s, id);
  }

  lemma PostOwners(s: State, step: Step)
    requires Inv(s) && Enabled(s, step) && step.Post?
    ensures Sized(Apply(s, step)) && OwnersOk(Apply(s, step)) && BlocksOk(Apply(s, step))
  {
    var r := Apply(s, step);
    assert forall id :: Live(s, id) ==> Live(r, id) && r.reqs[id] == s.reqs[id];
  }

  lemma PostRings(s: State, step: Step)
    requires Inv(s) && Enabled(s, step) && step.Post?
    ensures AvailOk(Apply(s, step)) && UsedOk(Apply(s, step))
  {
    var r := Apply(s, step);
    RingsFit(s);
    assert {step.h, step.m, step.t} <= FreeSet(s);
    SubsetCount({step.h, step.m, step.t}, FreeSet(s));
    assert |{step.h, step.m, step.t}| == 3;
    RingPut(s.availRing, s.taken, Heads(s.reqs[s.taken..]), step.h);
    assert Heads(r.reqs[s.taken..]) == Heads(s.reqs[s.taken..]) + [step.h];
    assert Named(r.reqs, s.queue) == Named(s.reqs, s.queue);
    Wraps(|s.reqs|);
  }

  lemma PostStages(s: State, step: Step)
    requires Inv(s) && Enabled(s, step) && step.Post?
    ensures StagesOk(Apply(s, step))
  {
  }

  lemma TakeLive(s: State, id: nat)
    requires Inv(s) && Enabled(s, Take) && id < |s.reqs| && Live(s, id)
    ensures LiveOk(Apply(s, Take), id)
  {
    assert LiveOk(s, id);
  }

  lemma TakeFinds(s: State)
    requires Inv(s) && Enabled(s, Take)
    ensures s.taken < |s.reqs| && s.availRing[s.seen % NUM] == s.reqs[s.taken].head
    ensures Holds(s.availRing, s.taken + 1, Heads(s.reqs[s.taken + 1..]))
  {
    RingsFit(s);
    SameIndex(s.taken, |s.reqs|);
    RingTake(s.availRing, s.taken, Heads(s.reqs[s.taken..]));
    assert Heads(s.reqs[s.taken..])[1..] == Heads(s.reqs[s.taken + 1..]);
    Wraps(s.taken);
  }

  /** The device reads the entry of the oldest request it has not seen, whatever the indices have wrapped to. */
  lemma TakeRings(s: State)
    requires Inv(s) && Enabled(s, Take)
    ensures s.taken < |s.reqs| && s.availRing[s.seen % NUM] == s.reqs[s.taken].head
    ensures AvailOk(Apply(s, Take)) && UsedOk(Apply(s, Take))
  {
    TakeFinds(s);
    TakeShape(s);
    RingsAfterTake(s, Apply(s, Take));
  }

  /** What taking a request does to the rings. */
  ghost predicate TakenIn(s: State, r: State) {
    && r.reqs == s.reqs && r.taken == s.taken + 1 && r.seen == (s.seen + 1) % WRAP && r.handled == s.handled
    && r.availRing == s.availRing && r.availIdx == s.availIdx && r.looked == s.looked
    && r.usedRing == s.usedRing && r.usedIdx == s.usedIdx && r.queue == s.queue
  }

  lemma TakeShape(s: State)
    requires Inv(s) && Enabled(s, Take)
    ensures Sized(Apply(s, Take)) && TakenIn(s, Apply(s, Take))
  {
  }

  lemma RingsAfterTake(s: State, r: State)
    requires Sized(s) && Sized(r) && AvailOk(s) && UsedOk(s) && TakenIn(s, r) && s.taken < |s.reqs|
    requires Holds(s.availRing, s.taken + 1, Heads(s.reqs[s.taken + 1..]))
    ensures AvailOk(r) && UsedOk(r)
  {
    Wraps(s.taken);
  }

  lemma TakeStages(s: State)
    requires Inv(s) && Enabled(s, Take) && s.taken < |s.reqs| && s.availRing[s.seen % NUM] == s.reqs[s.taken].head
    ensures StagesOk(Apply(s, Take))
  {
    var r := Apply(s, Take);
    assert s.stage[s.taken].Posted?;
    assert forall id :: 0 <= id < |s.reqs| && id != s.taken ==> r.stage[id] == s.stage[id];
    forall k | 0 <= k < |s.queue| ensures s.queue[k] != s.taken { assert s.stage[s.queue[k]].Completed?; }
  }

  lemma TakeOwners(s: State)
    requires Inv(s) && Enabled(s, Take) && s.taken < |s.reqs|
    ensures Sized(Apply(s, Take)) && OwnersOk(Apply(s, Take)) && BlocksOk(Apply(s, Take))
  {
    assert forall id :: Live(Apply(s, Take), id) <==> Live(s, id);
  }

  lemma CompleteLive(s: State, i: nat, id: nat)
    requires Inv(s) && Enabled(s, Complete(i)) && id < |s.reqs| && Live(s, id)
    ensures LiveOk(Apply(s, Complete(i)), id)
  {
    assert LiveOk(s, id);
    assert LiveOk(s, i);
  }

  lemma CompleteOwners(s: State, i: nat)
    requires Inv(s) && Enabled(s, Complete(i))
    ensures Sized(Apply(s, Complete(i))) && OwnersOk(Apply(s, Complete(i))) && BlocksOk(Apply(s, Complete(i)))
  {
    assert forall id :: Live(Apply(s, Complete(i)), id) <==> Live(s, id);
  }

  /** What completing request i does to the rings and to the requests' progress. */
  ghost predicate CompletedIn(s: State, r: State, i: nat)
    requires Sized(s)
  {
    && i in s.pending && r.reqs == s.reqs && r.taken == s.taken && r.seen == s.seen && r.handled == s.handled
    && r.availRing == s.availRing && r.availIdx == s.availIdx && r.looked == s.looked
    && r.usedRing == s.usedRing[s.usedIdx % NUM := s.pending[i]] && r.usedIdx == (s.usedIdx + 1) % WRAP
    && i < |s.stage| && r.stage == s.stage[i := Completed] && r.pending == s.pending - {i} && r.queue == s.queue + [i]
  }

  lemma CompleteShape(s: State, i: nat)
    requires Inv(s) && Enabled(s, Complete(i))
    ensures Sized(Apply(s, Complete(i))) && CompletedIn(s, Apply(s, Complete(i)), i)
  {
  }

  lemma CompleteRings(s: State, i: nat)
    requires Inv(s) && Enabled(s, Complete(i))
    ensures AvailOk(Apply(s, Complete(i))) && UsedOk(Apply(s, Complete(i)))
  {
    CompleteShape(s, i);
    RingsFit(s);
    UsedAfter(s, Apply(s, Complete(i)), i);
  }

  lemma UsedAfter(s: State, r: State, i: nat)
    requires Sized(s) && Sized(r) && UsedOk(s) && CompletedIn(s, r, i) && |s.queue| < NUM
    requires i < |s.reqs| && s.pending[i] == s.reqs[i].head
    ensures UsedOk(r)
  {
    RingPut(s.usedRing, s.handled, Named(s.reqs, s.queue), s.pending[i]);
    assert Named(s.reqs, s.queue + [i]) == Named(s.reqs, s.queue) + [s.pending[i]];
    Wraps(s.handled + |s.queue|);
  }

  lemma CompleteStages(s: State, i: nat)
    requires Inv(s) && Enabled(s, Complete(i))
    ensures StagesOk(Apply(s, Complete(i)))
  {
    CompleteShape(s, i);
    StagesAfter(s, Apply(s, Complete(i)), i);
  }

  lemma StagesAfter(s: State, r: State, i: nat)
    requires Sized(s) && Sized(r) && StagesOk(s) && CompletedIn(s, r, i)
    ensures StagesOk(r)
  {
    assert s.stage[i].Taken?;
    forall k | 0 <= k < |s.queue| ensures s.queue[k] != i { assert s.stage[s.queue[k]].Completed?; }
    assert forall k :: 0 <= k < |s.queue| ==> r.queue[k] == s.queue[k];
    assert r.queue[|s.queue|] == i;
    assert forall id :: 0 <= id < |s.reqs| && id != i ==> r.stage[id] == s.stage[id];
  }

  /** What the interrupt handler finds in the slot it looks at. */
  lemma Looked(s: State)
    requires Inv(s) && s.looked != s.usedIdx
    ensures s.queue != [] && s.queue[0] < |s.reqs| && s.usedRing[s.looked % NUM] == s.reqs[s.queue[0]].head
    ensures Live(s, s.queue[0]) && s.stage[s.queue[0]].Completed?
  {
    RingsFit(s);
    SameIndex(s.handled, s.handled + |s.queue|);
    RingTake(s.usedRing, s.handled, Named(s.reqs, s.queue));
  }

  lemma HandleLive(s: State, id: nat)
    requires Inv(s) && Enabled(s, Handle) && id < |s.reqs| && Live(s, id)
    ensures LiveOk(Apply(s, Handle), id)
  {
    Looked(s);
    assert LiveOk(s, id);
    assert LiveOk(s, s.queue[0]);
  }

  lemma HandleOwners(s: State)
    requires Inv(s) && Enabled(s, Handle)
    ensures Sized(Apply(s, Handle)) && OwnersOk(Apply(s, Handle)) && BlocksOk(Apply(s, Handle))
  {
    Looked(s);
    assert LiveOk(s, s.queue[0]);
    assert forall id :: Live(Apply(s, Handle), id) <==> Live(s, id);
  }

  lemma HandleRings(s: State)
    requires Inv(s) && Enabled(s, Handle)
    ensures AvailOk(Apply(s, Handle)) && UsedOk(Apply(s, Handle))
  {
    RingsFit(s);
    RingTake(s.usedRing, s.handled, Named(s.reqs, s.queue));
    assert Named(s.reqs, s.queue)[1..] == Named(s.reqs, s.queue[1..]);
    Wraps(s.handled);
  }

  lemma HandleStages(s: State)
    requires Inv(s) && Enabled(s, Handle)
    ensures StagesOk(Apply(s, Handle))
  {
    var r := Apply(s, Handle);
    var i := s.queue[0];
    assert s.stage[i].Completed?;
    assert forall k :: 0 <= k < |r.queue| ==> r.queue[k] == s.queue[k + 1];
    assert forall id :: 0 <= id < |s.reqs| && id != i ==> r.stage[id] == s.stage[id];
  }

  lemma FinishLive(s: State, i: nat, id: nat)
    requires Inv(s) && Enabled(s, Finish(i)) && id < |s.reqs| && id != i && Live(s, id)
    ensures LiveOk(Apply(s, Finish(i)), id)
  {
    assert LiveOk(s, id);
    assert LiveOk(s, i);
  }

  lemma FinishOwners(s: State, i: nat)
    requires Inv(s) && Enabled(s, Finish(i))
    ensures Sized(Apply(s, Finish(i))) && OwnersOk(Apply(s, Finish(i))) && BlocksOk(Apply(s, Finish(i)))
  {
    assert LiveOk(s, i);
    assert forall id :: Live(Apply(s, Finish(i)), id) <==> Live(s, id) && id != i;
  }

  /** virtio_disk_rw goes on only after the interrupt handler has seen its own request. */
  lemma FinishStages(s: State, i: nat)
    requires Inv(s) && Enabled(s, Finish(i))
    ensures AvailOk(Apply(s, Finish(i))) && UsedOk(Apply(s, Finish(i))) && StagesOk(Apply(s, Finish(i)))
    ensures s.stage[i].Handled?
  {
    var r := Apply(s, Finish(i));
    assert LiveOk(s, i);
    assert forall id :: 0 <= id < |s.reqs| && id != i ==> r.stage[id] == s.stage[id];
  }

  lemma ModifyLive(s: State, step: Step, id: nat)
    requires Inv(s) && Enabled(s, step) && step.Modify? && id < |s.reqs| && Live(s, id)
    ensures LiveOk(Apply(s, step), id)
  {
    assert LiveOk(s, id);
  }

  lemma ModifyRest(s: State, step: Step)
    requires Inv(s) && Enabled(s, step) && step.Modify?
    ensures SharedOk(Apply(s, step))
  {
    var r := Apply(s, step);
    assert r.desc == s.desc && r.free == s.free && r.owner == s.owner && r.user == s.user && r.busy == s.busy;
    assert r.reqs == s.reqs && r.stage == s.stage && r.queue == s.queue && r.pending == s.pending;
  }

  // ----- Runs -----

  lemma LiveKept(s: State, step: Step, id: nat)
    requires Inv(s) && Enabled(s, step) && id < |Apply(s, step).reqs| && Live(Apply(s, step), id)
    ensures LiveOk(Apply(s, step), id)
  {
    match step
    case Post(_, _, _, _, _, _) => PostLive(s, step, id);
    case Take => TakeLive(s, id);
    case Complete(i) => CompleteLive(s, i, id);
    case Handle => HandleLive(s, id);
    case Finish(i) => FinishLive(s, i, id);
    case Modify(_, _) => ModifyLive(s, step, id);
  }

  lemma RestKept(s: State, step: Step)
    requires Inv(s) && Enabled(s, step)
    ensures SharedOk(Apply(s, step))
  {
    match step
    case Post(_, _, _, _, _, _) => PostOwners(s, step); PostRings(s, step); PostStages(s, step);
    case Take => TakeRings(s); TakeStages(s); TakeOwners(s);
    case Complete(i) => CompleteOwners(s, i); CompleteRings(s, i); CompleteStages(s, i);
    case Handle => HandleOwners(s); HandleRings(s); HandleStages(s);
    case Finish(i) => FinishOwners(s, i); FinishStages(s, i);
    case Modify(_, _) => ModifyRest(s, step);
  }

  lemma StepKeepsInv(s: State, step: Step)
    requires Inv(s) && Enabled(s, step)
    ensures Inv(Apply(s, step))
  {
    RestKept(s, step);
    AllLiveKept(s, step);
  }

  lemma AllLiveKept(s: State, step: Step)
    requires Inv(s) && Enabled(s, step) && Sized(Apply(s, step))
    ensures AllLiveOk(Apply(s, step))
  {
    forall id: nat | id < |Apply(s, step).reqs| && Live(Apply(s, step), id) ensures LiveOk(Apply(s, step), id) {
      LiveKept(s, step, id);
    }
  }

  predicate IsRun(s: State, steps: seq<Step>)
    decreases |steps|
  {
    steps == [] || (Enabled(s, steps[0]) && IsRun(Apply(s, steps[0]), steps[1..]))
  }

  function Run(s: State, steps: seq<Step>): State
    requires IsRun(s, steps)
    decreases |steps|
  {
    if steps == [] then s else Run(Apply(s, steps[0]), steps[1..])
  }

  lemma {:induction false} RunKeepsInv(s: State, steps: seq<Step>)
    requires Inv(s) && IsRun(s, steps)
    ensures Inv(Run(s, steps))
    decreases |steps|
  {
    if steps != [] {
      StepKeepsInv(s, steps[0]);
      RunKeepsInv(Apply(s, steps[0]), steps[1..]);
    }
  }

  // ----- Main results -----

  /** What virtio_disk_rw promises its caller on return: buffer and medium agree, and a write wrote what was passed. */
  lemma ReturnIsDone(s: State, id: nat)
    requires Inv(s) && Enabled(s, Finish(id))
    ensures s.stage[id].Handled?
    ensures 2 * s.reqs[id].block + 1 < |s.media|
    ensures s.data[s.reqs[id].buf] == OnMedia(s.media, s.reqs[id].block)
    ensures s.reqs[id].write ==> s.data[s.reqs[id].buf] == s.reqs[id].value
  {
    assert LiveOk(s, id);
  }

  /** Neither panic of free_desc can fire when a chain is freed: its three descriptors are distinct and in use. */
  lemma FreeingIsSafe(s: State, id: nat)
    requires Inv(s) && Enabled(s, Finish(id))
    ensures var r := s.reqs[id];
      && r.head != r.mid && r.mid != r.tail && r.head != r.tail
      && !s.free[r.head] && !s.free[r.mid] && !s.free[r.tail]
      && s.desc[r.head].flags % 2 == NEXT && s.desc[r.head].next == r.mid
      && s.desc[r.mid].flags % 2 == NEXT && s.desc[r.mid].next == r.tail && s.desc[r.tail].flags % 2 == 0
  {
    assert LiveOk(s, id);
  }

  /** The interrupt handler always finds a completed request, never panics, and wakes exactly that request's buffer. */
  lemma HandlerIsSafe(s: State)
    requires Inv(s) && s.looked != s.usedIdx
    ensures Enabled(s, Handle) && s.queue[0] < |s.reqs| && s.stage[s.queue[0]].Completed?
    ensures var b := s.reqs[s.queue[0]].buf;
      b < |s.busy| && s.busy[b] && Apply(s, Handle).busy == s.busy[b := false]
  {
    Looked(s);
    assert LiveOk(s, s.queue[0]);
  }

  /** The device can follow every chain it took, and does what was asked for: one block moves, one status byte is set. */
  lemma DeviceServes(s: State, id: nat)
    requires Inv(s) && id in s.pending
    ensures Enabled(s, Complete(id)) && id < |s.reqs|
    ensures s.reqs[id].head < NUM && s.reqs[id].buf < |s.data| && 2 * s.reqs[id].block + 1 < |s.media|
    ensures var r, k := Serve(s, s.pending[id]), s.reqs[id];
      && (k.write ==> r.data == s.data && r.media == s.media[2 * k.block := k.value.lo][2 * k.block + 1 := k.value.hi])
      && (!k.write ==> r.media == s.media && r.data == s.data[k.buf := OnMedia(s.media, k.block)])
      && r.info == s.info[k.head := Info(k.buf, 0)]
  {
    assert s.stage[id].Taken?;
    assert Live(s, id) && LiveOk(s, id);
  }

  /** alloc3_desc finds three descriptors exactly when at most one request is in flight. */
  lemma RoomForTwo(s: State)
    requires Inv(s)
    ensures |FreeSet(s)| >= 3 <==> |LiveSet(s)| <= 1
    ensures |LiveSet(s)| <= 2
  {
    DescriptorsPartition(s);
  }

  predicate Moves(s: State, step: Step) {
    Enabled(s, step) && !step.Post? && !step.Modify?
  }

  /** A request in flight is never stuck: the device, the handler or a woken process can go on. */
  lemma NeverStuck(s: State)
    requires Inv(s) && LiveSet(s) != {}
    ensures exists step :: Moves(s, step)
  {
    var id :| id in LiveSet(s);
    assert LiveOk(s, id);
    match s.stage[id]
    case Posted =>
      RingsFit(s);
      SameIndex(s.taken, |s.reqs|);
      RingTake(s.availRing, s.taken, Heads(s.reqs[s.taken..]));
      assert s.stage[s.taken].Posted?;
      assert LiveOk(s, s.taken);
      assert Moves(s, Take);
    case Taken => DeviceServes(s, id); assert Moves(s, Complete(id));
    case Completed =>
      RingsFit(s);
      SameIndex(s.handled, s.handled + |s.queue|);
      HandlerIsSafe(s);
      assert Moves(s, Handle);
    case Handled => assert Moves(s, Finish(id));
  }

  /** How many of its four moves a request has made: taken, completed, handled, finished. */
  function Rank(g: Stage): nat {
    match g case Posted => 0 case Taken => 1 case Completed => 2 case Handled => 3 case Finished => 4
  }

  /** The moves that a number of requests have made altogether. */
  function Ranks(g: seq<Stage>): nat {
    if g == [] then 0 else Rank(g[0]) + Ranks(g[1..])
  }

  lemma {:induction false} RankUp(g: seq<Stage>, h: seq<Stage>, id: nat)
    requires id < |g| == |h| && (forall k :: 0 <= k < |g| && k != id ==> h[k] == g[k]) && Rank(h[id]) == Rank(g[id]) + 1
    ensures Ranks(h) == Ranks(g) + 1
  {
    if id == 0 {
      assert h[1..] == g[1..];
    } else {
      RankUp(g[1..], h[1..], id - 1);
    }
  }

  lemma {:induction false} RankNew(g: seq<Stage>)
    ensures Ranks(g + [Posted]) == Ranks(g)
  {
    if g != [] {
      assert (g + [Posted])[1..] == g[1..] + [Posted];
      RankNew(g[1..]);
    } else {
      assert Ranks([Posted]) == 0;
    }
  }

  lemma {:induction false} RankBound(g: seq<Stage>)
    ensures Ranks(g) <= 4 * |g|
    ensures Ranks(g) == 4 * |g| <==> forall k :: 0 <= k < |g| ==> g[k].Finished?
  {
    if g != [] {
      RankBound(g[1..]);
      assert g == [g[0]] + g[1..];
      assert forall k :: 1 <= k < |g| ==> g[k] == g[1..][k - 1];
    }
  }

  /** Only a request's completion and its caller's own writes touch data, and only a new request adds to the history. */
  lemma StepRecords(s: State, step: Step)
    requires Inv(s) && Enabled(s, step)
    ensures var r := Apply(s, step);
      && (if step.Post? then
            && r.stage == s.stage + [Posted] && step.buf < |s.data|
            && r.reqs == s.reqs + [Request(step.h, step.m, step.t, step.buf, step.write, step.block, s.data[step.buf])]
          else
            r.reqs == s.reqs && |r.stage| == |s.stage|)
      && (step.Modify? ==> r == s.(data := s.data[step.b := step.value]))
      && (!step.Modify? && !step.Complete? ==> r.data == s.data && r.media == s.media)
  {
  }

  /** Every step but a new request and the callers' own writes takes one request one move further. */
  lemma StepMoves(s: State, step: Step)
    requires Inv(s) && Enabled(s, step) && Moves(s, step)
    ensures Ranks(Apply(s, step).stage) == Ranks(s.stage) + 1
  {
    match step
    case Take => TakeMoves(s);
    case Complete(id) => CompleteMoves(s, id);
    case Handle => HandleMoves(s);
    case Finish(id) => FinishMoves(s, id);
  }

  lemma TakeMoves(s: State)
    requires Inv(s) && Enabled(s, Take)
    ensures Ranks(Apply(s, Take).stage) == Ranks(s.stage) + 1
  {
    TakeIsPosted(s);
    RankUp(s.stage, Apply(s, Take).stage, s.taken);
  }

  lemma CompleteMoves(s: State, id: nat)
    requires Inv(s) && Enabled(s, Complete(id))
    ensures Ranks(Apply(s, Complete(id)).stage) == Ranks(s.stage) + 1
  {
    assert s.stage[id].Taken?;
    RankUp(s.stage, Apply(s, Complete(id)).stage, id);
  }

  lemma HandleMoves(s: State)
    requires Inv(s) && Enabled(s, Handle)
    ensures Ranks(Apply(s, Handle).stage) == Ranks(s.stage) + 1
  {
    assert s.stage[s.queue[0]].Completed?;
    RankUp(s.stage, Apply(s, Handle).stage, s.queue[0]);
  }

  lemma FinishMoves(s: State, id: nat)
    requires Inv(s) && Enabled(s, Finish(id))
    ensures Ranks(Apply(s, Finish(id)).stage) == Ranks(s.stage) + 1
  {
    ReturnIsDone(s, id);
    RankUp(s.stage, Apply(s, Finish(id)).stage, id);
  }

  lemma TakeIsPosted(s: State)
    requires Inv(s) && s.seen != s.availIdx
    ensures s.taken < |s.stage| && s.stage[s.taken].Posted?
  {
    if s.taken == |s.reqs| { assert false; }
    assert s.stage[s.taken].Posted?;
  }

  /** How many of the steps were moves, and how many new requests. */
  function MovesIn(s: State, steps: seq<Step>): nat
    requires IsRun(s, steps)
    decreases |steps|
  {
    if steps == [] then 0 else (if Moves(s, steps[0]) then 1 else 0) + MovesIn(Apply(s, steps[0]), steps[1..])
  }

  function PostsIn(steps: seq<Step>): nat {
    if steps == [] then 0 else (if steps[0].Post? then 1 else 0) + PostsIn(steps[1..])
  }

  lemma {:induction false} MovesCounted(s: State, steps: seq<Step>)
    requires Inv(s) && IsRun(s, steps)
    ensures Ranks(Run(s, steps).stage) == Ranks(s.stage) + MovesIn(s, steps)
    ensures |Run(s, steps).stage| == |s.stage| + PostsIn(steps)
    decreases |steps|
  {
    if steps != [] {
      var r := Apply(s, steps[0]);
      StepRecords(s, steps[0]);
      if Moves(s, steps[0]) { StepMoves(s, steps[0]); }
      if steps[0].Post? { RankNew(s.stage); }
      StepKeepsInv(s, steps[0]);
      MovesCounted(r, steps[1..]);
    }
  }

  /**
  Every request comes to its end: no run makes more than four moves for each request, a move is possible while one is
  in flight, and when four were made for each of them all have returned.
  */
  lemma RequestsFinish(data: seq<Block>, media: seq<int>, steps: seq<Step>)
    requires IsRun(Init(data, media), steps)
    ensures var s := Run(Init(data, media), steps);
      && MovesIn(Init(data, media), steps) <= 4 * PostsIn(steps)
      && (MovesIn(Init(data, media), steps) < 4 * PostsIn(steps) <==> exists step :: Moves(s, step))
      && (MovesIn(Init(data, media), steps) == 4 * PostsIn(steps) <==> LiveSet(s) == {})
  {
    var s0 := Init(data, media);
    InitInv(data, media);
    RunKeepsInv(s0, steps);
    MovesCounted(s0, steps);
    var s := Run(s0, steps);
    RankBound(s.stage);
    if LiveSet(s) == {} {
      forall k | 0 <= k < |s.stage| ensures s.stage[k].Finished? { assert k in LiveSet(s) <==> Live(s, k); }
      if step :| Moves(s, step) {
        StepMoves(s, step);
        StepRecords(s, step);
        RankBound(Apply(s, step).stage);
      }
    } else {
      var id :| id in LiveSet(s);
      NeverStuck(s);
    }
  }

  /** A write counts once the device completes it. */
  function AfterStep(s: State, step: Step, block: nat, before: Block): Block {
    match step
    case Complete(id) =>
      if id < |s.reqs| && s.reqs[id].write && s.reqs[id].block == block then s.reqs[id].value else before
    case _ => before
  }

  /** The value of the last write to `block` that the device completed during the run, else what was there before. */
  function LastWritten(s: State, steps: seq<Step>, block: nat, before: Block): Block
    requires IsRun(s, steps)
    decreases |steps|
  {
    if steps == [] then before
    else LastWritten(Apply(s, steps[0]), steps[1..], block, AfterStep(s, steps[0], block, before))
  }

  lemma MediumStep(s: State, step: Step, block: nat)
    requires Inv(s) && Enabled(s, step) && 2 * block + 1 < |s.media|
    ensures |Apply(s, step).media| == |s.media|
    ensures OnMedia(Apply(s, step).media, block) == AfterStep(s, step, block, OnMedia(s.media, block))
  {
    if step.Complete? { DeviceServes(s, step.id); }
  }

  /** Whatever else is in flight, a block holds what the last completed write to it was given. */
  lemma {:induction false} MediumHoldsLastWrite(s: State, steps: seq<Step>, block: nat)
    requires Inv(s) && IsRun(s, steps) && 2 * block + 1 < |s.media|
    ensures |Run(s, steps).media| == |s.media|
    ensures OnMedia(Run(s, steps).media, block) == LastWritten(s, steps, block, OnMedia(s.media, block))
    decreases |steps|
  {
    if steps != [] {
      StepKeepsInv(s, steps[0]);
      MediumStep(s, steps[0], block);
      MediumHoldsLastWrite(Apply(s, steps[0]), steps[1..], block);
    }
  }

  /** From virtio_disk_init on, a returning read delivers, and a returning write has stored, the block's last write. */
  lemma DiskIsLinear(data: seq<Block>, media: seq<int>, steps: seq<Step>, id: nat)
    requires IsRun(Init(data, media), steps) && Enabled(Run(Init(data, media), steps), Finish(id))
    ensures var s := Run(Init(data, media), steps);
      && 2 * s.reqs[id].block + 1 < |media|
      && s.data[s.reqs[id].buf]
           == LastWritten(Init(data, media), steps, s.reqs[id].block, OnMedia(media, s.reqs[id].block))
      && (s.reqs[id].write ==> s.data[s.reqs[id].buf] == s.reqs[id].value)
  {
    var s := Init(data, media);
    InitInv(data, media);
    RunKeepsInv(s, steps);
    var r := Run(s, steps);
    ReturnIsDone(r, id);
    MediaLength(s, steps);
    MediumHoldsLastWrite(s, steps, r.reqs[id].block);
  }

  lemma {:induction false} MediaLength(s: State, steps: seq<Step>)
    requires IsRun(s, steps)
    ensures |Run(s, steps).media| == |s.media|
    decreases |steps|
  {
    if steps != [] { MediaLength(Apply(s, steps[0]), steps[1..]); }
  }

  // ----- The driver's code -----

  type Sound = s: State | Inv(s) ghost witness Init([], [])

  function Free(free: seq<bool>): set<nat> { set d: nat | d < |free| && free[d] }

  /** The chain `ids` as free_chain meets it: each descriptor in use, and linked to the next by its flag and index. */
  ghost predicate Linked(desc: seq<Desc>, free: seq<bool>, ids: seq<nat>) {
    && |desc| == |free| && ids != []
    && (forall k :: 0 <= k < |ids| ==> ids[k] < |free| && !free[ids[k]])
    && (forall j, k :: 0 <= j < k < |ids| ==> ids[j] != ids[k])
    && (forall k :: 0 <= k < |ids| - 1 ==> desc[ids[k]].flags % 2 == NEXT && desc[ids[k]].next == ids[k + 1])
    && desc[ids[|ids| - 1]].flags % 2 != NEXT
  }

  lemma FreeDescriptors(s: Sound)
    ensures |Free(s.free)| >= 3 <==> |LiveSet(s)| <= 1
    ensures |LiveSet(s)| > 1 ==> |Free(s.free)| == 2
    ensures forall d :: 0 <= d < NUM && s.free[d] ==> s.desc[d] == EMPTY
  {
    assert Free(s.free) == FreeSet(s);
    RoomForTwo(s);
    DescriptorsPartition(s);
    assert SharedOk(s);
  }

  ghost predicate Posts(s: State, r: State, h: nat, m: nat, t: nat, b: nat, write: bool, block: nat) {
    exists step :: step == Post(h, m, t, b, write, block) && Enabled(s, step) && r == Apply(s, step)
  }

  lemma PostEffect(s: Sound, h: nat, m: nat, t: nat, b: nat, write: bool, block: nat) returns (r: Sound)
    requires h < NUM && m < NUM && t < NUM && h != m && m != t && h != t && s.free[h] && s.free[m] && s.free[t]
    requires MayPost(s, b, block)
    ensures Posts(s, r, h, m, t, b, write, block)
    ensures r.ops == s.ops[h := Command(write, 2 * block)]
    ensures r.desc == s.desc[h := Desc(Header(h), HDRSIZE, NEXT, m)]
                            [m := Desc(Data(b), BSIZE, if write then NEXT else WRITE + NEXT, t)]
                            [t := Desc(Status(h), 1, WRITE, 0)]
    ensures r.free == s.free[h := false][m := false][t := false]
    ensures r.info == s.info[h := Info(b, 0xff)] && r.busy == s.busy[b := true]
    ensures r.availRing == s.availRing[s.availIdx % NUM := h] && r.availIdx == (s.availIdx + 1) % WRAP
    ensures r.usedRing == s.usedRing && r.usedIdx == s.usedIdx && r.looked == s.looked
    ensures r.data == s.data && r.media == s.media
  {
    StepKeepsInv(s, Post(h, m, t, b, write, block));
    r := Apply(s, Post(h, m, t, b, write, block));
  }

  lemma FinishEffect(s: Sound, id: nat) returns (r: Sound)
    requires Enabled(s, Finish(id))
    ensures r == Apply(s, Finish(id))
    ensures var k := s.reqs[id];
      && Linked(s.desc, s.free, [k.head, k.mid, k.tail])
      && r.info == s.info[k.head := s.info[k.head].(b := -1)]
      && r.desc == s.desc[k.head := EMPTY][k.mid := EMPTY][k.tail := EMPTY]
      && r.free == s.free[k.head := true][k.mid := true][k.tail := true]
      && r.data == s.data && r.media == s.media
    ensures r.ops == s.ops && r.busy == s.busy && r.availRing == s.availRing && r.availIdx == s.availIdx
    ensures r.usedRing == s.usedRing && r.usedIdx == s.usedIdx && r.looked == s.looked
  {
    FreeingIsSafe(s, id);
    StepKeepsInv(s, Finish(id));
    r := Apply(s, Finish(id));
  }

  lemma HandleEffect(s: Sound) returns (r: Sound)
    requires s.looked != s.usedIdx
    ensures Enabled(s, Handle) && r == Apply(s, Handle) && |s.queue| > 0
    ensures s.queue[0] < |s.stage| && s.stage[s.queue[0]].Completed?
    ensures var head := s.usedRing[s.looked % NUM];
      && head < NUM && s.info[head].status == 0 && 0 <= s.info[head].b < |s.busy|
      && r.busy == s.busy[s.info[head].b := false]
    ensures r.looked == (s.looked + 1) % WRAP && r.usedIdx == s.usedIdx && r.usedRing == s.usedRing
    ensures r.desc == s.desc && r.free == s.free && r.ops == s.ops && r.info == s.info
    ensures r.availRing == s.availRing && r.availIdx == s.availIdx
  {
    HandlerIsSafe(s);
    StepKeepsInv(s, Handle);
    r := Apply(s, Handle);
  }

  /** The driver's own fields and the memory it shares with the device; `s` also has the device and the history. */
  class Driver {
    var desc: seq<Desc>
    var free: seq<bool>
    var ops: seq<Command>
    var info: seq<Info>
    var availRing: seq<nat>
    var availIdx: nat
    var usedRing: seq<nat>
    var usedIdx: nat
    var looked: nat
    var busy: seq<bool>
    var sleepers: set<nat>             // the processes asleep on &disk.free[0]
    ghost var s: Sound

    ghost predicate Shares()
      reads this
    {
      && s.ops == ops && s.info == info && s.availRing == availRing && s.availIdx == availIdx
      && s.usedRing == usedRing && s.usedIdx == usedIdx && s.looked == looked && s.busy == busy
    }

    ghost predicate Valid()
      reads this
    {
      Shares() && s.desc == desc && s.free == free
    }

    /** Nobody sleeps for descriptors while there are three. */
    predicate NobodyForgotten()
      reads this
    {
      sleepers != {} ==> |Free(free)| < 3
    }

    /** virtio_disk_init. */
    constructor (ghost data: seq<Block>, ghost media: seq<int>, buffers: nat)
      requires |data| == buffers
      ensures Valid() && s == Init(data, media) && sleepers == {}
    {
      desc, free := seq(NUM, _ => EMPTY), seq(NUM, _ => true);
      ops, info := seq(NUM, _ => Command(false, 0)), seq(NUM, _ => Info(-1, 0));
      availRing, availIdx, usedRing, usedIdx := seq(NUM, _ => 0), 0, seq(NUM, _ => 0), 0;
      looked, busy, sleepers := 0, seq(buffers, _ => false), {};
      InitInv(data, media);
      s := Init(data, media);
    }

    /** Finds a free descriptor and marks it; NUM stands for -1. */
    method AllocDesc() returns (d: nat)
      requires |free| == NUM
      modifies this`free
      ensures d <= NUM && |free| == NUM
      ensures d == NUM ==> free == old(free) && Free(old(free)) == {}
      ensures d < NUM ==> old(free)[d] && free == old(free)[d := false] && Free(free) == Free(old(free)) - {d}
    {
      d := 0;
      while d < NUM && !free[d]
        invariant d <= NUM && forall k :: 0 <= k < d ==> !free[k]
      {
        d := d + 1;
      }
      if d < NUM { free := free[d := false]; }
    }

    /** Its two panics are its preconditions. It wakes whoever sleeps for descriptors. */
    method FreeDesc(d: nat)
      requires d < |desc| == |free| && !free[d]
      modifies this`desc, this`free, this`sleepers
      ensures desc == old(desc)[d := EMPTY] && free == old(free)[d := true] && sleepers == {}
    {
      desc := desc[d := EMPTY];
      free := free[d := true];
      sleepers := {};                   // wakeup(&disk.free[0])
    }

    method FreeChain(i: nat, ghost ids: seq<nat>)
      requires Linked(desc, free, ids) && ids[0] == i
      modifies this`desc, this`free, this`sleepers
      ensures |desc| == |free| == old(|free|) && sleepers == {}
      ensures forall d :: 0 <= d < |free| ==> free[d] == (old(free)[d] || d in ids)
      ensures forall d :: 0 <= d < |free| ==> desc[d] == if d in ids then EMPTY else old(desc)[d]
    {
      var d := i;
      ghost var n := 0;
      ghost var desc0, free0 := desc, free;
      while true
        invariant n < |ids| && d == ids[n] && |desc| == |free| == |free0|
        invariant forall x :: 0 <= x < |free| ==> free[x] == (free0[x] || x in ids[..n])
        invariant forall x :: 0 <= x < |free| ==> desc[x] == if x in ids[..n] then EMPTY else desc0[x]
        decreases |ids| - n
      {
        var flag, nxt := desc[d].flags, desc[d].next;
        FreeDesc(d);
        assert ids[..n + 1] == ids[..n] + [d];
        n := n + 1;
        if flag % 2 != NEXT {
          assert n == |ids|;
          assert ids[..n] == ids;
          return;
        }
        d := nxt;
      }
    }

    /** Frees the descriptors taken so far. */
    method GiveBack(idx: seq<nat>, ghost free0: seq<bool>)
      requires |desc| == |free| == NUM && Taken3(free0, free, idx)
      requires forall k :: 0 <= k < |idx| ==> desc[idx[k]] == EMPTY
      modifies this`desc, this`free, this`sleepers
      ensures desc == old(desc) && free == free0 && sleepers == if idx == [] then old(sleepers) else {}
    {
      ghost var desc0, was := desc, sleepers;
      for j := 0 to |idx|
        invariant |desc| == |free| == NUM && desc == desc0 && sleepers == if j == 0 then was else {}
        invariant Taken3(free0, free, idx[j..])
      {
        assert idx[j..] == [idx[j]] + idx[j + 1..];
        ghost var b := free;
        Untake(free0, b, idx[j], idx[j + 1..]);
        FreeDesc(idx[j]);
      }
      assert free == free0;
    }

    /** One more descriptor, or all those taken so far are given back. */
    method TakeOne(idx: seq<nat>, ghost free0: seq<bool>) returns (d: nat)
      requires |desc| == |free| == NUM && Taken3(free0, free, idx) && |Free(free)| == |Free(free0)| - |idx|
      requires forall k :: 0 <= k < NUM && free0[k] ==> desc[k] == EMPTY
      modifies this`desc, this`free, this`sleepers
      ensures desc == old(desc) && |free| == NUM && d <= NUM
      ensures d < NUM ==> Taken3(free0, free, idx + [d]) && |Free(free)| == |Free(free0)| - |idx| - 1 && sleepers == old(sleepers)
      ensures d == NUM ==> free == free0 && |Free(free0)| == |idx| && sleepers == if idx == [] then old(sleepers) else {}
    {
      ghost var was := free;
      d := AllocDesc();
      if d == NUM {
        assert |Free(was)| == 0;
        GiveBack(idx, free0);
      } else {
        assert Free(was) == Free(free) + {d};
        Take3(free0, was, idx, d);
      }
    }

    /** All three or none: on failure every descriptor taken so far is given back. */
    method Alloc3Desc() returns (ok: bool, idx: seq<nat>)
      requires |desc| == |free| == NUM
      requires forall d :: 0 <= d < NUM && free[d] ==> desc[d] == EMPTY
      modifies this`desc, this`free, this`sleepers
      ensures desc == old(desc) && |free| == NUM
      ensures sleepers == if ok || |Free(old(free))| == 0 then old(sleepers) else {}
      ensures ok <==> |Free(old(free))| >= 3
      ensures !ok ==> free == old(free)
      ensures ok ==> |idx| == 3 && idx[0] < NUM && idx[1] < NUM && idx[2] < NUM
      ensures ok ==> idx[0] != idx[1] && idx[1] != idx[2] && idx[0] != idx[2]
      ensures ok ==> old(free)[idx[0]] && old(free)[idx[1]] && old(free)[idx[2]]
      ensures ok ==> free == old(free)[idx[0] := false][idx[1] := false][idx[2] := false]
    {
      idx := [];
      ghost var desc0, free0, was := desc, free, sleepers;
      for i := 0 to 3
        invariant |idx| == i && desc == desc0 && |free| == NUM && sleepers == was
        invariant Taken3(free0, free, idx)
        invariant |Free(free)| == |Free(free0)| - i
      {
        var d := TakeOne(idx, free0);
        if d == NUM { return false, []; }
        idx := idx + [d];
      }
      ok := true;
      assert free == free0[idx[0] := false][idx[1] := false][idx[2] := false];
    }

    /**
    One turn of virtio_disk_rw's first loop: process pid posts its request, or sleeps for descriptors. The attempt has then
    taken and given back the two there were, which wakes the others.
    */
    method Start(pid: nat, b: nat, write: bool, block: nat) returns (ok: bool, idx: seq<nat>)
      requires Valid() && NobodyForgotten() && MayPost(s, b, block) && pid !in sleepers
      modifies this
      ensures Valid() && NobodyForgotten() && (ok <==> |LiveSet(old(s))| <= 1)
      ensures !ok ==> s == old(s) && sleepers == {pid}
      ensures ok ==> old(sleepers) == sleepers == {}
      ensures ok ==> |idx| == 3 && Posts(old(s), s, idx[0], idx[1], idx[2], b, write, block)
    {
      FreeDescriptors(s);
      ok, idx := Alloc3Desc();
      if ok {
        Submit(b, write, block, idx[0], idx[1], idx[2]);
      } else {
        sleepers := sleepers + {pid};     // sleep(&disk.free[0], &disk.vdisk_lock)
      }
    }

    /** The request goes to the device in the three descriptors that were allocated. */
    method Submit(b: nat, write: bool, block: nat, h: nat, m: nat, t: nat)
      requires Shares() && s.desc == desc && MayPost(s, b, block)
      requires h < NUM && m < NUM && t < NUM && h != m && m != t && h != t && s.free[h] && s.free[m] && s.free[t]
      requires free == s.free[h := false][m := false][t := false]
      modifies this`s, this`ops, this`desc, this`info, this`busy, this`availRing, this`availIdx
      ensures Valid() && Posts(old(s), s, h, m, t, b, write, block)
    {
      ghost var r := PostEffect(s, h, m, t, b, write, block);
      Format(b, write, block, h, m, t);
      s := r;
    }

    /** Lays out the chain and makes it available, the index last. */
    method Format(b: nat, write: bool, block: nat, h: nat, m: nat, t: nat)
      requires |desc| == |ops| == |info| == |availRing| == NUM && h < NUM && m < NUM && t < NUM && b < |busy|
      modifies this`ops, this`desc, this`info, this`busy, this`availRing, this`availIdx
      ensures ops == old(ops)[h := Command(write, 2 * block)]
      ensures desc == old(desc)[h := Desc(Header(h), HDRSIZE, NEXT, m)]
                               [m := Desc(Data(b), BSIZE, if write then NEXT else WRITE + NEXT, t)]
                               [t := Desc(Status(h), 1, WRITE, 0)]
      ensures info == old(info)[h := Info(b, 0xff)]
      ensures busy == old(busy)[b := true]
      ensures availRing == old(availRing)[old(availIdx) % NUM := h]
      ensures availIdx == (old(availIdx) + 1) % WRAP
    {
      ops := ops[h := Command(write, block * (BSIZE / 512))];
      desc := desc[h := Desc(Header(h), HDRSIZE, NEXT, m)];
      var flags := if write then 0 else WRITE;
      desc := desc[m := Desc(Data(b), BSIZE, flags + NEXT, t)];
      info := info[h := Info(info[h].b, 0xff)];
      desc := desc[t := Desc(Status(h), 1, WRITE, 0)];
      busy := busy[b := true];
      info := info[h := Info(b, info[h].status)];
      availRing := availRing[availIdx % NUM := h];
      availIdx := (availIdx + 1) % WRAP;
    }

    /** The rest of virtio_disk_rw, once it has found its buffer's flag cleared. */
    method Finish(head: nat, ghost id: nat)
      requires Valid() && Enabled(s, Step.Finish(id)) && s.reqs[id].head == head
      modifies this
      ensures Valid() && s == Apply(old(s), Step.Finish(id)) && sleepers == {}
      ensures s.data[s.reqs[id].buf] == s.data[old(s).reqs[id].buf]
    {
      ghost var r := FinishEffect(s, id);
      Release(head, s.reqs[id].mid, s.reqs[id].tail);
      s := r;
    }

    method Release(h: nat, ghost m: nat, ghost t: nat)
      requires |desc| == |free| == |info| == NUM && h < NUM && Linked(desc, free, [h, m, t])
      modifies this`info, this`desc, this`free, this`sleepers
      ensures sleepers == {}
      ensures info == old(info)[h := old(info)[h].(b := -1)]
      ensures |desc| == |free| == NUM && m < NUM && t < NUM
      ensures desc == old(desc)[h := EMPTY][m := EMPTY][t := EMPTY]
      ensures free == old(free)[h := true][m := true][t := true]
    {
      assert [h, m, t][1] == m && [h, m, t][2] == t;
      info := info[h := info[h].(b := -1)];
      FreeChain(h, [h, m, t]);
    }

    /** virtio_disk_intr for the entries there are: every completed request is handled, each in its turn. */
    method Intr()
      requires Valid()
      modifies this
      ensures Valid() && s.queue == [] && looked == usedIdx && free == old(free) && sleepers == old(sleepers)
      ensures s.reqs == old(s).reqs && s.data == old(s).data && s.media == old(s).media
      ensures forall id: nat :: id < |s.reqs| ==>
                s.stage[id] == if old(s).stage[id].Completed? then Handled else old(s).stage[id]
    {
      ghost var s0 := s;
      while looked != usedIdx
        invariant Valid() && usedIdx == s0.usedIdx && free == s0.free && sleepers == old(sleepers)
        invariant s.reqs == s0.reqs && s.data == s0.data && s.media == s0.media
        invariant forall id: nat :: id < |s.reqs| ==>
                    s.stage[id] == s0.stage[id] || (s0.stage[id].Completed? && s.stage[id].Handled?)
        decreases |s.queue|
      {
        HandleOne();
      }
      RingsFit(s);
      SameIndex(s.handled, s.handled + |s.queue|);
    }

    /** Whoever sleeps for descriptors sleeps while two requests are in flight; the next Finish wakes it. */
    lemma SleepersWait()
      requires Valid() && NobodyForgotten() && sleepers != {}
      ensures |LiveSet(s)| == 2
    {
      FreeDescriptors(s);
      RoomForTwo(s);
    }

    method HandleOne()
      requires Valid() && looked != usedIdx
      modifies this
      ensures old(Enabled(s, Handle)) && s == Apply(old(s), Handle) && Valid() && free == old(free) && sleepers == old(sleepers)
      ensures old(s).queue[0] < |old(s).stage| && old(s).stage[old(s).queue[0]].Completed?
    {
      ghost var r := HandleEffect(s);
      var id := usedRing[looked % NUM];
      assert info[id].status == 0;              // else panic("virtio_disk_intr status")
      busy := busy[info[id].b := false];
      looked := (looked + 1) % WRAP;
      s := r;
    }
  }

  /** `free` is `free0` without the descriptors `idx`, which were all free in it. */
  ghost predicate Taken3(free0: seq<bool>, free: seq<bool>, idx: seq<nat>) {
    && |free| == |free0|
    && (forall k :: 0 <= k < |idx| ==> idx[k] < |free0| && free0[idx[k]])
    && (forall j, k :: 0 <= j < k < |idx| ==> idx[j] != idx[k])
    && (forall d :: 0 <= d < |free| ==> free[d] == (free0[d] && d !in idx))
  }

  lemma Take3(free0: seq<bool>, free: seq<bool>, idx: seq<nat>, d: nat)
    requires Taken3(free0, free, idx) && d < |free| && free[d]
    ensures Taken3(free0, free[d := false], idx + [d])
  {
  }

  lemma Untake(free0: seq<bool>, free: seq<bool>, d: nat, rest: seq<nat>)
    requires Taken3(free0, free, [d] + rest)
    ensures d < |free| && !free[d] && Taken3(free0, free[d := true], rest)
  {
    var idx := [d] + rest;
    assert idx[0] == d && d < |free0| && d in idx;
    forall k | 0 <= k < |rest| ensures rest[k] == idx[k + 1] && rest[k] < |free0| && free0[rest[k]] && rest[k] != d { }
    assert d !in rest;
    forall x | 0 <= x < |free| ensures free[d := true][x] == (free0[x] && x !in rest) {
      assert x in idx <==> x == d || x in rest;
    }
  }
}
