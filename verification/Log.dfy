/**
log.c over the buffer cache: what each routine does to the disk, write by write.
*/
module Log {
  import opened LogSpec
  import opened Bio
  import LogProtocol

  const LOGSIZE: nat := LogProtocol.LOGSIZE

  /** One use for each listed block: the pins that log_write takes. */
  ghost function Pins(lh: seq<nat>): map<nat, nat> {
    map b | b in lh :: 1
  }

  lemma {:induction false} PinsSize(lh: seq<nat>)
    ensures |Pins(lh)| <= |lh|
  {
    if lh == [] {
      assert Pins(lh) == map[];
    } else {
      PinsSize(lh[1..]);
      assert Pins(lh).Keys == Pins(lh[1..]).Keys + {lh[0]};
    }
  }

  /** Uses of blocks while both l and h are held over `uses`. */
  ghost function Pair(uses: map<nat, nat>, l: nat, h: nat): map<nat, nat> {
    Inc(Inc(uses, l), h)
  }

  lemma PairUndone(uses: map<nat, nat>, l: nat, h: nat)
    requires l !in uses && h != l && forall b :: b in uses ==> uses[b] > 0
    ensures l in Pair(uses, l, h) && Pair(uses, l, h)[l] == 1
    ensures h in Pair(uses, l, h) && Pair(uses, l, h)[h] == (if h in uses then uses[h] else 0) + 1
    ensures Dec(Dec(Pair(uses, l, h), h), l) == uses && Dec(Dec(Pair(uses, l, h), l), h) == uses
  {
  }

  /** The disks a commit passes through; an empty transaction writes nothing. */
  ghost function Committed(a: Area, d: Disk, view: Disk, lh: seq<nat>): seq<Disk>
    requires Loggable(a, |d|, lh) && |view| == |d|
  {
    if lh == [] then [] else CommitTrail(a, d, view, lh, 2 * |lh| + 2)
  }

  /** Where the disk is after those writes. */
  ghost function AfterAll(d: Disk, trail: seq<Disk>): Disk {
    if trail == [] then d else trail[|trail| - 1]
  }

  class Log {
    const cache: BCache
    const area: Area
    var lh: seq<nat>              // lh.block[..lh.n]
    var outstanding: nat
    var committing: bool

    constructor (cache: BCache, area: Area)
      ensures this.cache == cache && this.area == area && lh == [] && outstanding == 0 && !committing
    {
      this.cache, this.area, lh, outstanding, committing := cache, area, [], 0, false;
    }

    ghost predicate HeaderOk()
      reads this, cache
    {
      && |lh| <= LOGSIZE && Loggable(area, |cache.disk|, lh)
      && |cache.disk[area.start]| > LOGSIZE       // otherwise initlog panics: "too big logheader"
    }

    /** The blocks in `pinned` are pinned, and nothing else is in use. */
    ghost predicate Pinning(pinned: seq<nat>)
      reads this, cache
    {
      HeaderOk() && cache.Valid() && cache.uses == Pins(pinned) && cache.locks == {}
    }

    /** Between operations, exactly the logged blocks are pinned. */
    ghost predicate Quiet()
      reads this, cache
    {
      Pinning(lh)
    }

    /** bread where a buffer is sure to be found. */
    method BreadRoom(blockno: nat) returns (b: nat)
      requires cache.Valid() && blockno < |cache.disk| && blockno !in cache.locks
      requires blockno in cache.uses || |cache.uses| < |cache.bufs| - 1
      modifies cache`bufs, cache`at, cache`uses, cache`locks
      ensures cache.Valid() && cache.Held(b, blockno) && cache.bufs[b].valid
      ensures |cache.bufs| == |old(cache.bufs)| && cache.bufs == old(cache.bufs)[b := cache.bufs[b]]
      ensures cache.uses == Inc(old(cache.uses), blockno) && cache.locks == old(cache.locks) + {blockno}
      ensures forall n :: n in old(cache.uses) ==> n in cache.at && cache.at[n] == old(cache.at)[n]
    {
      if blockno !in cache.uses { cache.SomeUnused(); }
      b := cache.Bread(blockno);
    }

    /** The two breads that open each round of write_log and install_trans. */
    method OpenPair(l: nat, h: nat, ghost pinned: seq<nat>) returns (lbuf: nat, hbuf: nat)
      requires Pinning(pinned) && l < |cache.disk| && h < |cache.disk| && l != h && l !in pinned
      requires |pinned| + 1 < |cache.bufs| && (h in pinned || |pinned| + 2 < |cache.bufs|)
      modifies cache`bufs, cache`at, cache`uses, cache`locks
      ensures cache.Valid() && |cache.bufs| == |old(cache.bufs)|
      ensures cache.uses == Pair(Pins(pinned), l, h) && cache.locks == {l, h}
      ensures cache.Held(lbuf, l) && cache.bufs[lbuf].valid && cache.Held(hbuf, h) && cache.bufs[hbuf].valid
    {
      PinsSize(pinned);
      lbuf := BreadRoom(l);
      assert |cache.uses| == |Pins(pinned)| + 1;
      hbuf := BreadRoom(h);
    }

    /** The two brelses that close it. */
    method ClosePair(x: nat, y: nat, ghost n: nat, ghost m: nat)
      requires cache.Valid() && n != m && cache.Held(x, n) && cache.Held(y, m) && cache.locks == {n, m}
      requires cache.uses[n] == 1 ==> Clean(cache.view, cache.disk, n)
      requires cache.uses[m] == 1 ==> Clean(cache.view, cache.disk, m)
      modifies cache`bufs, cache`order, cache`stamps, cache`clock, cache`uses, cache`locks
      ensures cache.Valid() && |cache.bufs| == |old(cache.bufs)|
      ensures cache.uses == Dec(Dec(old(cache.uses), n), m) && cache.locks == {}
    {
      cache.Brelse(x, n);
      assert cache.locks == {m} && cache.uses[m] == old(cache.uses)[m];
      cache.Brelse(y, m);
    }

    /** memmove(to->data, from->data, BSIZE); bwrite(to). */
    method CopyAndWrite(to: nat, from: nat, ghost t: nat, ghost f: nat)
      requires cache.Valid() && cache.Held(to, t) && cache.Held(from, f)
      requires cache.bufs[to].valid && cache.bufs[from].valid
      modifies cache`bufs, cache`view, cache`disk, cache`trail
      ensures cache.Valid() && |cache.bufs| == |old(cache.bufs)|
      ensures t < |old(cache.view)| == |old(cache.disk)| && f < |old(cache.view)|
      ensures cache.view == old(cache.view)[t := old(cache.view)[f]]
      ensures cache.disk == old(cache.disk)[t := old(cache.view)[f]]
      ensures cache.trail == old(cache.trail) + [cache.disk]
    {
      assert Holds(cache.bufs[cache.at[f]], f) && Holds(cache.bufs[cache.at[t]], t);
      cache.Store(to, t, cache.bufs[from].data);
      cache.Bwrite(to, t);
    }

    /** Reads a log block and a home block and copies one over the other, on disk too; both stay held. */
    method CopyPair(l: nat, h: nat, toLog: bool, ghost pinned: seq<nat>) returns (lbuf: nat, hbuf: nat)
      requires Pinning(pinned) && l < |cache.disk| && h < |cache.disk| && l != h && l !in pinned
      requires |pinned| + 1 < |cache.bufs| && (h in pinned || |pinned| + 2 < |cache.bufs|)
      modifies cache`bufs, cache`at, cache`uses, cache`locks, cache`view, cache`disk, cache`trail
      ensures cache.Valid() && |cache.bufs| == |old(cache.bufs)|
      ensures cache.uses == Pair(Pins(pinned), l, h) && cache.locks == {l, h}
      ensures cache.Held(lbuf, l) && cache.Held(hbuf, h)
      ensures var (to, from) := if toLog then (l, h) else (h, l);
              && |old(cache.view)| == |old(cache.disk)|
              && cache.view == old(cache.view)[to := old(cache.view)[from]]
              && cache.disk == old(cache.disk)[to := old(cache.view)[from]]
      ensures cache.trail == old(cache.trail) + [cache.disk]
    {
      lbuf, hbuf := OpenPair(l, h, pinned);
      if toLog {
        CopyAndWrite(lbuf, hbuf, l, h);
      } else {
        CopyAndWrite(hbuf, lbuf, h, l);
      }
    }

    /** One round of write_log: the cached contents of logged block `tail` go to its place in the log. */
    method LogOne(tail: nat)
      requires Quiet() && tail < |lh| && |lh| + 1 < |cache.bufs|
      modifies cache
      ensures Quiet() && |cache.bufs| == |old(cache.bufs)|
      ensures cache.view == old(cache.view)[area.start + tail + 1 := old(cache.view)[lh[tail]]]
      ensures cache.disk == old(cache.disk)[area.start + tail + 1 := old(cache.view)[lh[tail]]]
      ensures cache.trail == old(cache.trail) + [cache.disk]
    {
      ghost var t, h := area.start + tail + 1, lh[tail];
      assert h in lh && t !in lh;
      var to, from := CopyPair(area.start + tail + 1, lh[tail], true, lh);
      CloseLogged(to, from, t, h);
    }

    /** brelse(from); brelse(to); where the home block stays pinned. */
    method CloseLogged(to: nat, from: nat, ghost t: nat, ghost h: nat)
      requires cache.Valid() && cache.Held(to, t) && cache.Held(from, h) && h in lh && t !in lh
      requires cache.uses == Pair(Pins(lh), t, h) && cache.locks == {t, h} && Clean(cache.view, cache.disk, t)
      modifies cache`bufs, cache`order, cache`stamps, cache`clock, cache`uses, cache`locks
      ensures cache.Valid() && |cache.bufs| == |old(cache.bufs)| && cache.uses == Pins(lh) && cache.locks == {}
    {
      PairUndone(Pins(lh), t, h);
      ClosePair(from, to, h, t);
    }

    /** if(recovering == 0) bunpin(dbuf); brelse(lbuf); brelse(dbuf); */
    method FinishInstall(lbuf: nat, dbuf: nat, recovering: bool, ghost l: nat, ghost h: nat, ghost pinned: seq<nat>)
      requires cache.Valid() && cache.Held(lbuf, l) && cache.Held(dbuf, h) && l != h && l !in pinned
      requires cache.uses == Pair(Pins(pinned), l, h) && cache.locks == {l, h}
      requires Clean(cache.view, cache.disk, l) && Clean(cache.view, cache.disk, h)
      requires !recovering ==> pinned != [] && pinned[0] == h && h !in pinned[1..]
      modifies cache`bufs, cache`order, cache`stamps, cache`clock, cache`uses, cache`locks
      ensures cache.Valid() && |cache.bufs| == |old(cache.bufs)| && cache.locks == {}
      ensures cache.uses == Pins(if recovering then pinned else pinned[1..])
    {
      PairUndone(Pins(pinned), l, h);
      if !recovering {
        cache.Bunpin(dbuf, h);
        InstallPins(pinned, l);
      }
      ClosePair(lbuf, dbuf, l, h);
    }

    static lemma InstallPins(pinned: seq<nat>, l: nat)
      requires pinned != [] && l !in pinned && pinned[0] !in pinned[1..]
      ensures var u := Dec(Pair(Pins(pinned), l, pinned[0]), pinned[0]);
              && l in u && u[l] == 1 && pinned[0] in u && u[pinned[0]] == 1
              && Dec(Dec(u, l), pinned[0]) == Pins(pinned[1..])
    {
      var u := Dec(Pair(Pins(pinned), l, pinned[0]), pinned[0]);
      assert forall b :: b in pinned <==> b == pinned[0] || b in pinned[1..];
      assert Dec(Dec(u, l), pinned[0]) == Pins(pinned[1..]);
    }

    /** What install_trans has not unpinned after `tail` rounds. */
    static ghost function StillPinned(recovering: bool, lh: seq<nat>, tail: nat): (r: seq<nat>)
      requires tail <= |lh|
    {
      if recovering then [] else lh[tail..]
    }

    /** One round of install_trans; the pin of the home block is given up unless recovering. */
    method InstallOne(tail: nat, recovering: bool, ghost pinned: seq<nat>)
      requires tail < |lh| && Pinning(pinned) && area.start + tail + 1 !in pinned
      requires !recovering ==> pinned != [] && pinned[0] == lh[tail] && lh[tail] !in pinned[1..]
      requires |pinned| + (if recovering then 2 else 1) < |cache.bufs|
      modifies cache
      ensures Pinning(if recovering then pinned else pinned[1..]) && |cache.bufs| == |old(cache.bufs)|
      ensures cache.disk == old(cache.disk)[lh[tail] := old(cache.disk)[area.start + tail + 1]]
      ensures cache.trail == old(cache.trail) + [cache.disk]
    {
      assert Clean(cache.view, cache.disk, area.start + tail + 1);
      var lbuf, dbuf := CopyPair(area.start + tail + 1, lh[tail], false, pinned);
      FinishInstall(lbuf, dbuf, recovering, area.start + tail + 1, lh[tail], pinned);
    }

    /** With nothing in use, the disk holds the latest contents of every block. */
    lemma AllClean(pinned: seq<nat>)
      requires Pinning(pinned) && |pinned| == 0
      ensures pinned == [] && cache.view == cache.disk
    {
      assert forall b :: 0 <= b < |cache.view| ==> cache.view[b] == cache.disk[b];
    }

    lemma PinnedStep(recovering: bool, tail: nat)
      requires HeaderOk() && tail < |lh|
      ensures var p := StillPinned(recovering, lh, tail);
              && area.start + tail + 1 !in p && |p| == (if recovering then 0 else |lh| - tail)
              && (!recovering ==> p[0] == lh[tail] && lh[tail] !in p[1..])
              && StillPinned(recovering, lh, tail + 1) == if recovering then p else p[1..]
    {
    }

    /** write_log has done `tail` rounds, writing what a commit of `v` over disk d writes. */
    ghost predicate Logging(tail: nat, d: Disk, v: Disk, past: seq<Disk>, nbufs: nat)
      reads this, cache
    {
      && tail <= |lh| && Loggable(area, |d|, lh) && |v| == |d| && |cache.bufs| == nbufs && Quiet()
      && cache.disk == CommitDisk(area, d, v, lh, tail)
      && cache.trail == past + CommitTrail(area, d, v, lh, tail)
      && SameHome(area, cache.view, v)
    }

    /** A round of write_log as a step of the commit. */
    method LogRound(tail: nat, ghost d: Disk, ghost v: Disk, ghost past: seq<Disk>, ghost nbufs: nat)
      requires tail < |lh| && Logging(tail, d, v, past, nbufs) && |lh| + 1 < nbufs
      modifies cache
      ensures Logging(tail + 1, d, v, past, nbufs)
    {
      assert !InLog(area, lh[tail]);
      CopyStep(area, d, v, lh, tail);
      LogOne(tail);
    }

    lemma LogBegins()
      requires Quiet() && |cache.view| == |cache.disk|
      ensures Logging(0, cache.disk, cache.view, cache.trail, |cache.bufs|)
    {
      assert cache.trail + [] == cache.trail;
    }

    /** Copies modified blocks from cache to log. */
    method WriteLog(ghost d: Disk, ghost v: Disk, ghost past: seq<Disk>, ghost nbufs: nat)
      requires Logging(0, d, v, past, nbufs) && |lh| + 1 < nbufs
      modifies cache
      ensures Logging(|lh|, d, v, past, nbufs)
    {
      var tail := 0;
      while tail < |lh|
        invariant tail <= |lh| && Logging(tail, d, v, past, nbufs)
      {
        LogRound(tail, d, v, past, nbufs);
        tail := tail + 1;
      }
    }

    /** install_trans has done `tail` rounds, writing what a recovery of disk d writes. */
    ghost predicate Installing(recovering: bool, tail: nat, d: Disk, past: seq<Disk>, nbufs: nat)
      reads this, cache
    {
      && tail <= |lh| && Loggable(area, |d|, lh) && |cache.bufs| == nbufs
      && Pinning(StillPinned(recovering, lh, tail))
      && cache.disk == RecoverDisk(area, d, lh, tail)
      && cache.trail == past + RecoverTrail(area, d, lh, tail)
    }

    /** A round of install_trans as a step of the recovery of disk d. */
    method InstallRound(tail: nat, recovering: bool, ghost d: Disk, ghost past: seq<Disk>, ghost nbufs: nat)
      requires tail < |lh| && Installing(recovering, tail, d, past, nbufs) && (recovering || |lh| + 1 < nbufs) && 2 < nbufs
      modifies cache
      ensures Installing(recovering, tail + 1, d, past, nbufs)
    {
      InstallStep(area, d, lh, tail);
      PinnedStep(recovering, tail);
      InstallOne(tail, recovering, StillPinned(recovering, lh, tail));
    }

    lemma InstallBegins(recovering: bool)
      requires Pinning(StillPinned(recovering, lh, 0))
      ensures Installing(recovering, 0, cache.disk, cache.trail, |cache.bufs|)
    {
      assert cache.trail + [] == cache.trail;
    }

    /** Copies committed blocks from log to their home locations. */
    method InstallTrans(recovering: bool, ghost d: Disk, ghost past: seq<Disk>, ghost nbufs: nat)
      requires Installing(recovering, 0, d, past, nbufs) && (recovering || |lh| + 1 < nbufs) && 2 < nbufs
      modifies cache
      ensures Installing(recovering, |lh|, d, past, nbufs)
    {
      var tail := 0;
      while tail < |lh|
        invariant tail <= |lh| && Installing(recovering, tail, d, past, nbufs)
      {
        InstallRound(tail, recovering, d, past, nbufs);
        tail := tail + 1;
      }
    }

    /** After install_trans nothing is pinned, so the disk holds what clients see. */
    method InstallAll(recovering: bool)
      requires Pinning(StillPinned(recovering, lh, 0))
      requires (recovering || |lh| + 1 < |cache.bufs|) && 2 < |cache.bufs|
      modifies cache
      ensures Pinning([]) && |cache.bufs| == |old(cache.bufs)|
      ensures cache.disk == RecoverDisk(area, old(cache.disk), lh, |lh|)
      ensures cache.trail == old(cache.trail) + RecoverTrail(area, old(cache.disk), lh, |lh|)
      ensures cache.view == cache.disk
    {
      InstallBegins(recovering);
      InstallTrans(recovering, cache.disk, cache.trail, |cache.bufs|);
      AllClean(StillPinned(recovering, lh, |lh|));
    }

    /** The header block with the in-memory header written over it. */
    method FillHeader(prior: Block) returns (data: Block)
      requires |lh| + 1 <= |prior|
      ensures data == Encode(prior, lh)
    {
      data := prior[0 := |lh|];
      var i := 0;
      while i < |lh|
        invariant i <= |lh| && |data| == |prior| && data[0] == |lh|
        invariant forall j :: 0 <= j < i ==> data[j + 1] == lh[j]
        invariant forall j :: i < j < |data| ==> data[j] == prior[j]
      {
        data := data[i + 1 := lh[i]];
        i := i + 1;
      }
    }

    /** Overwrites the held header block, in the cache and on disk. */
    method PutHeader(b: nat)
      requires cache.Valid() && cache.Held(b, area.start) && cache.bufs[b].valid && Clean(cache.view, cache.disk, area.start)
      requires |lh| + 1 <= |cache.disk[area.start]|
      modifies cache`bufs, cache`view, cache`disk, cache`trail
      ensures cache.Valid() && |cache.bufs| == |old(cache.bufs)|
      ensures cache.disk == old(cache.disk)[area.start := Encode(old(cache.disk)[area.start], lh)]
      ensures cache.view == old(cache.view)[area.start := cache.disk[area.start]]
      ensures cache.trail == old(cache.trail) + [cache.disk]
    {
      assert Holds(cache.bufs[cache.at[area.start]], area.start);
      var data := FillHeader(cache.bufs[b].data);
      cache.Store(b, area.start, data);
      cache.Bwrite(b, area.start);
    }

    /** Writes the in-memory header to disk: the commit point, or the erasure of a transaction. */
    method WriteHead(ghost pinned: seq<nat>)
      requires Pinning(pinned) && |pinned| + 1 < |cache.bufs| && area.start !in pinned
      modifies cache
      ensures Pinning(pinned) && |cache.bufs| == |old(cache.bufs)|
      ensures cache.disk == old(cache.disk)[area.start := Encode(old(cache.disk)[area.start], lh)]
      ensures cache.trail == old(cache.trail) + [cache.disk]
      ensures cache.view == old(cache.view)[area.start := cache.disk[area.start]]
    {
      PinsSize(pinned);
      assert Clean(cache.view, cache.disk, area.start);
      var b := BreadRoom(area.start);
      PutHeader(b);
      HoldUndone(pinned, area.start);
      cache.Brelse(b, area.start);
    }

    static lemma HoldUndone(pinned: seq<nat>, b: nat)
      requires b !in pinned
      ensures b in Inc(Pins(pinned), b) && Inc(Pins(pinned), b)[b] == 1 && Dec(Inc(Pins(pinned), b), b) == Pins(pinned)
    {
    }

    static method ParseHeader(data: Block) returns (h: seq<nat>)
      requires IsHeader(data)
      ensures h == Decode(data)
    {
      h := [];
      var i := 0;
      while i < data[0]
        invariant 0 <= i <= data[0] && |h| == i && forall j :: 0 <= j < i ==> h[j] == data[j + 1]
      {
        h := h + [data[i + 1]];
        i := i + 1;
      }
    }

    /** Reads the log header from disk into the in-memory one. */
    method ReadHead()
      requires cache.Valid() && cache.uses == map[] && cache.locks == {} && 1 < |cache.bufs|
      requires Image(area, cache.disk) && |Decode(cache.disk[area.start])| <= LOGSIZE < |cache.disk[area.start]|
      modifies cache, this`lh
      ensures cache.disk == old(cache.disk) && cache.trail == old(cache.trail)
      ensures lh == Decode(cache.disk[area.start])
      ensures Pinning([]) && |cache.bufs| == |old(cache.bufs)|
    {
      var data := HeaderBlock();
      lh := ParseHeader(data);
      assert Pins([]) == map[];
    }

    /** The header block's contents. */
    method HeaderBlock() returns (data: Block)
      requires cache.Valid() && cache.uses == map[] && cache.locks == {} && 1 < |cache.bufs| && area.start < |cache.disk|
      modifies cache`bufs, cache`order, cache`at, cache`stamps, cache`clock, cache`uses, cache`locks
      ensures cache.Valid() && cache.uses == map[] && cache.locks == {} && |cache.bufs| == |old(cache.bufs)|
      ensures data == cache.disk[area.start]
    {
      assert Clean(cache.view, cache.disk, area.start) && map[] == Pins([]);
      var b := BreadRoom(area.start);
      assert Holds(cache.bufs[cache.at[area.start]], area.start);
      data := cache.bufs[b].data;
      HoldUndone([], area.start);
      cache.Brelse(b, area.start);
    }

    /** log.lh.n = 0; write_head(); */
    method ClearHead()
      requires Pinning([]) && 1 < |cache.bufs|
      modifies cache, this`lh
      ensures lh == [] && Quiet() && cache.view == cache.disk && |cache.bufs| == |old(cache.bufs)|
      ensures cache.disk == old(cache.disk)[area.start := Encode(old(cache.disk)[area.start], [])]
      ensures cache.trail == old(cache.trail) + [cache.disk]
    {
      lh := [];
      WriteHead([]);
      AllClean([]);
    }

    /** Replays a committed transaction, if any, and clears the log.  `trail` gains the disks of a recovery, so by
        RecoveryCrashSafe the machine may stop after any of them. */
    method RecoverFromLog()
      requires cache.Valid() && cache.uses == map[] && cache.locks == {}
      requires Image(area, cache.disk) && |Decode(cache.disk[area.start])| <= LOGSIZE < |cache.disk[area.start]|
      requires 2 < |cache.bufs|
      modifies cache, this`lh
      ensures Quiet() && lh == [] && |cache.bufs| == |old(cache.bufs)| && cache.view == cache.disk == Recovered(area, old(cache.disk))
      ensures var home := Decode(old(cache.disk)[area.start]);
              cache.trail == old(cache.trail) + RecoverTrail(area, old(cache.disk), home, |home| + 1)
    {
      ReadHead();
      assert StillPinned(true, lh, 0) == [];
      InstallAndClear(true);
    }

    /** install_trans, and the empty header written: the second half of commit, and of recovery. */
    method InstallAndClear(recovering: bool)
      requires Pinning(StillPinned(recovering, lh, 0)) && (recovering || |lh| + 1 < |cache.bufs|) && 2 < |cache.bufs|
      modifies cache, this`lh
      ensures Quiet() && lh == [] && cache.view == cache.disk && |cache.bufs| == |old(cache.bufs)|
      ensures cache.disk == RecoverDisk(area, old(cache.disk), old(lh), |old(lh)| + 1)
      ensures cache.trail == old(cache.trail) + RecoverTrail(area, old(cache.disk), old(lh), |old(lh)| + 1)
    {
      RecoverEnd(area, cache.disk, lh);
      TrailStep(area, cache.disk, lh, |lh|);
      InstallAll(recovering);
      ClearHead();
    }

    /** Commits the transaction in the cache.  `trail` gains the disks of a commit, so by CommitCrashSafe every disk the
        machine passes through recovers to the old home blocks before the header write and to the new ones from it on. */
    method Commit()
      requires Quiet() && |lh| + 1 < |cache.bufs| && 2 < |cache.bufs|
      modifies cache, this`lh
      ensures Quiet() && lh == [] && |cache.bufs| == |old(cache.bufs)|
      ensures |old(cache.view)| == |old(cache.disk)|
      ensures cache.trail == old(cache.trail) + Committed(area, old(cache.disk), old(cache.view), old(lh))
      ensures cache.disk == AfterAll(old(cache.disk), Committed(area, old(cache.disk), old(cache.view), old(lh)))
      ensures SameHome(area, cache.view, old(cache.view))
    {
      if |lh| > 0 {
        CommitLogged();
      }
    }

    /** commit of a transaction that is not empty, in its two halves. */
    method CommitLogged()
      requires Quiet() && |lh| + 1 < |cache.bufs| && 2 < |cache.bufs|
      modifies cache, this`lh
      ensures Quiet() && lh == [] && |cache.bufs| == |old(cache.bufs)| && |old(cache.view)| == |old(cache.disk)|
      ensures var commit := CommitTrail(area, old(cache.disk), old(cache.view), old(lh), 2 * |old(lh)| + 2);
              cache.trail == old(cache.trail) + commit && cache.disk == AfterAll(old(cache.disk), commit)
      ensures SameHome(area, cache.view, old(cache.view))
    {
      ghost var d, v, l, past := cache.disk, cache.view, lh, cache.trail;
      ViewInstalled();
      LogAndHead();
      InstallAndClear(false);
      TwoHalves(area, d, v, l, past, cache.trail, cache.disk);
    }

    static lemma TwoHalves(a: Area, d: Disk, v: Disk, l: seq<nat>, past: seq<Disk>, trail: seq<Disk>, e: Disk)
      requires Loggable(a, |d|, l) && |v| == |d| && Installed(d, v, l) == v
      requires var h := HeaderDisk(a, d, v, l);
        && e == RecoverDisk(a, h, l, |l| + 1)
        && trail == past + CommitTrail(a, d, v, l, |l|) + [h] + RecoverTrail(a, h, l, |l| + 1)
      ensures trail == past + CommitTrail(a, d, v, l, 2 * |l| + 2) && SameHome(a, e, v)
      ensures e == AfterAll(d, CommitTrail(a, d, v, l, 2 * |l| + 2))
    {
      CommitParts(a, d, v, l);
      CommitEnds(a, d, v, l);
      Regroup(past, CommitTrail(a, d, v, l, |l|), [HeaderDisk(a, d, v, l)], RecoverTrail(a, HeaderDisk(a, d, v, l), l, |l| + 1));
    }

    static lemma Regroup(p: seq<Disk>, x: seq<Disk>, y: seq<Disk>, z: seq<Disk>)
      ensures p + x + y + z == p + (x + y + z)
    {
    }

    /** The first half of commit, up to and including the header write. */
    method LogAndHead()
      requires Quiet() && |lh| + 1 < |cache.bufs|
      modifies cache
      ensures Quiet() && |cache.bufs| == |old(cache.bufs)| && |old(cache.view)| == |old(cache.disk)|
      ensures cache.disk == HeaderDisk(area, old(cache.disk), old(cache.view), lh)
      ensures cache.trail == old(cache.trail) + CommitTrail(area, old(cache.disk), old(cache.view), lh, |lh|) + [cache.disk]
      ensures StillPinned(false, lh, 0) == lh
    {
      assert lh[0..] == lh;
      LogBegins();
      WriteLog(cache.disk, cache.view, cache.trail, |cache.bufs|);
      WriteHead(lh);
    }

    /** What the clients see is the disk with the logged blocks replaced. */
    lemma ViewInstalled()
      requires Quiet()
      ensures |cache.view| == |cache.disk| && Installed(cache.disk, cache.view, lh) == cache.view
    {
    }

    // ----- The calls file-system operations make -----

    /** One test of begin_op's loop: false means sleep and try again. */
    method TryBegin() returns (admitted: bool)
      modifies this`outstanding
      ensures admitted <==>
                !committing && |lh| + (old(outstanding) + 1) * LogProtocol.MAXOPBLOCKS <= LOGSIZE
      ensures outstanding == old(outstanding) + if admitted then 1 else 0
    {
      if committing {
        admitted := false;
      } else if |lh| + (outstanding + 1) * LogProtocol.MAXOPBLOCKS > LOGSIZE {
        admitted := false;
      } else {
        outstanding := outstanding + 1;
        admitted := true;
      }
    }

    /** Records a held buffer's block in the log and pins it; false stands for either panic. */
    method LogWrite(b: nat, blockno: nat) returns (ok: bool)
      requires HeaderOk() && cache.Valid() && cache.Held(b, blockno) && !InLog(area, blockno)
      requires cache.uses == Inc(Pins(lh), blockno) && cache.locks == {blockno}
      modifies cache`bufs, cache`uses, this`lh
      ensures HeaderOk() && cache.Valid() && |cache.bufs| == |old(cache.bufs)|
      ensures ok <==> |old(lh)| < LOGSIZE && |old(lh)| < area.size - 1 && outstanding >= 1
      ensures lh == if ok && blockno !in old(lh) then old(lh) + [blockno] else old(lh)
      ensures ok ==> cache.uses == Inc(Pins(lh), blockno)
    {
      if |lh| >= LOGSIZE || |lh| >= area.size - 1 || outstanding < 1 {
        return false;
      }
      assert Holds(cache.bufs[cache.at[blockno]], blockno);
      var i := IndexOf(blockno);
      if i == |lh| {            // add new block to log
        cache.Bpin(b, blockno);
        lh := lh + [blockno];
        PinOne(old(lh), blockno);
      }
      ok := true;
    }

    /** log_write's scan of the header for the block. */
    method IndexOf(blockno: nat) returns (i: nat)
      ensures i <= |lh| && (i < |lh| ==> lh[i] == blockno) && (i == |lh| <==> blockno !in lh)
    {
      i := 0;
      while i < |lh|
        invariant i <= |lh| && blockno !in lh[..i]
      {
        if lh[i] == blockno {   // log absorption
          return;
        }
        i := i + 1;
      }
    }

    static lemma PinOne(lh: seq<nat>, b: nat)
      requires b !in lh
      ensures Inc(Inc(Pins(lh), b), b) == Inc(Pins(lh + [b]), b)
    {
    }

    /** Modifies a held block and logs it. */
    method ModifyAndLog(b: nat, blockno: nat, data: Block)
      requires HeaderOk() && cache.Valid() && cache.Held(b, blockno) && cache.bufs[b].valid && !InLog(area, blockno)
      requires cache.uses == Inc(Pins(lh), blockno) && cache.locks == {blockno}
      requires |lh| < LOGSIZE && |lh| < area.size - 1 && outstanding >= 1
      modifies cache`bufs, cache`view, cache`uses, this`lh
      ensures HeaderOk() && cache.Valid() && |cache.bufs| == |old(cache.bufs)|
      ensures blockno < |old(cache.view)| && cache.view == old(cache.view)[blockno := data]
      ensures lh == if blockno in old(lh) then old(lh) else old(lh) + [blockno]
      ensures cache.uses == Inc(Pins(lh), blockno)
    {
      assert Holds(cache.bufs[cache.at[blockno]], blockno);
      cache.Store(b, blockno, data);
      var ok := LogWrite(b, blockno);
    }

    /** The documented use of the log: bread, modify, log_write, brelse.  The disk does not change, every reader sees
        the new contents, and the block is listed once. */
    method Update(blockno: nat, data: Block)
      requires Quiet() && |lh| + 1 < |cache.bufs| && blockno < |cache.disk| && !InLog(area, blockno)
      requires |lh| < LOGSIZE && |lh| < area.size - 1 && outstanding >= 1
      modifies cache`bufs, cache`order, cache`at, cache`uses, cache`locks, cache`view, cache`stamps, cache`clock, this`lh
      ensures Quiet() && |cache.bufs| == |old(cache.bufs)|
      ensures blockno < |old(cache.view)| && cache.view == old(cache.view)[blockno := data]
      ensures lh == if blockno in old(lh) then old(lh) else old(lh) + [blockno]
    {
      PinsSize(lh);
      var b := BreadRoom(blockno);
      ModifyAndRelease(b, blockno, data);
    }

    method ModifyAndRelease(b: nat, blockno: nat, data: Block)
      requires HeaderOk() && cache.Valid() && cache.Held(b, blockno) && cache.bufs[b].valid && !InLog(area, blockno)
      requires cache.uses == Inc(Pins(lh), blockno) && cache.locks == {blockno}
      requires |lh| < LOGSIZE && |lh| < area.size - 1 && outstanding >= 1
      modifies cache`bufs, cache`order, cache`stamps, cache`clock, cache`view, cache`uses, cache`locks, this`lh
      ensures Quiet() && |cache.bufs| == |old(cache.bufs)|
      ensures blockno < |old(cache.view)| && cache.view == old(cache.view)[blockno := data]
      ensures lh == if blockno in old(lh) then old(lh) else old(lh) + [blockno]
    {
      ModifyAndLog(b, blockno, data);
      ReleaseLogged(b, blockno);
    }

    /** brelse of a block that stays pinned. */
    method ReleaseLogged(b: nat, ghost blockno: nat)
      requires cache.Valid() && cache.Held(b, blockno) && blockno in lh
      requires cache.uses == Inc(Pins(lh), blockno) && cache.locks == {blockno}
      modifies cache`bufs, cache`order, cache`stamps, cache`clock, cache`uses, cache`locks
      ensures cache.Valid() && |cache.bufs| == |old(cache.bufs)| && cache.uses == Pins(lh) && cache.locks == {}
    {
      Unhold(lh, blockno);
      cache.Brelse(b, blockno);
    }

    static lemma Unhold(lh: seq<nat>, b: nat)
      requires b in lh
      ensures b in Inc(Pins(lh), b) && Inc(Pins(lh), b)[b] == 2 && Dec(Inc(Pins(lh), b), b) == Pins(lh)
    {
    }

    /** The last operation to end commits; commit runs with no operation outstanding and none admitted. */
    method EndOp()
      requires Quiet() && |lh| + 1 < |cache.bufs| && 2 < |cache.bufs|
      requires outstanding >= 1 && !committing
      modifies cache, this`lh, this`outstanding, this`committing
      ensures Quiet() && !committing && outstanding == old(outstanding) - 1 && |cache.bufs| == |old(cache.bufs)|
      ensures |old(cache.view)| == |old(cache.disk)| && SameHome(area, cache.view, old(cache.view))
      ensures outstanding > 0 ==> lh == old(lh) && cache.disk == old(cache.disk) && cache.trail == old(cache.trail)
      ensures outstanding == 0 ==> lh == []
      ensures outstanding == 0 ==>
                var commit := Committed(area, old(cache.disk), old(cache.view), old(lh));
                cache.trail == old(cache.trail) + commit && cache.disk == AfterAll(old(cache.disk), commit)
    {
      outstanding := outstanding - 1;
      if outstanding == 0 {
        committing := true;
        Commit();
        committing := false;
      }
    }
  }
}
