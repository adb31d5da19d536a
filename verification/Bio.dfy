/**
The buffer cache: a fixed table of buffers on a circular doubly linked list, most recently released first.

The links are the table's own prev and next entries; the list head is the table's last entry, which holds no block.
`view` is what the cache promises its clients: the last contents stored for each block.  `trail` records the disk
after every block write, so that callers can speak of every point at which the machine could stop.
*/
module Bio {
  import opened LogSpec

  const ROOTDEV: nat := 1

  datatype Buf = Buf(
    valid: bool,
    dev: nat,           // 0 until the buffer is first assigned
    blockno: nat,
    refcnt: nat,
    locked: bool,
    data: Block,
    prev: nat,
    next: nat
  )

  type Table = seq<Buf>

  // ----- The list -----

  ghost predicate Distinct(s: seq<nat>) {
    forall i, j :: 0 <= i < j < |s| ==> s[i] != s[j]
  }

  /** The `i`th buffer of the list; the head stands at both ends. */
  ghost function Nth(head: nat, order: seq<nat>, i: int): nat {
    if 0 <= i < |order| then order[i] else head
  }

  /** `order` are the buffers met from the head along next, and along prev in the opposite direction. */
  ghost predicate Ring(t: Table, head: nat, order: seq<nat>) {
    && head < |t| && (forall i :: 0 <= i < |order| ==> order[i] < |t|)
    && head !in order && Distinct(order)
    && (forall i {:trigger t[Nth(head, order, i)].next} :: -1 <= i < |order| ==>
          t[Nth(head, order, i)].next == Nth(head, order, i + 1))
    && (forall i {:trigger t[Nth(head, order, i)].prev} :: 0 <= i <= |order| ==>
          t[Nth(head, order, i)].prev == Nth(head, order, i - 1))
  }

  function SetNext(t: Table, b: nat, n: nat): (r: Table)
    requires b < |t|
  {
    t[b := t[b].(next := n)]
  }

  function SetPrev(t: Table, b: nat, n: nat): (r: Table)
    requires b < |t|
  {
    t[b := t[b].(prev := n)]
  }

  /** The two tables differ in links only. */
  ghost predicate SameBufs(t: Table, u: Table) {
    |t| == |u| && forall b :: 0 <= b < |t| ==> u[b] == t[b].(prev := u[b].prev, next := u[b].next)
  }

  /** b->next->prev = b->prev; b->prev->next = b->next. */
  function Unlink(t: Table, b: nat): (u: Table)
    requires b < |t| && t[b].next < |t| && t[b].prev < |t|
    ensures SameBufs(t, u)
  {
    var u := SetPrev(t, t[b].next, t[b].prev);
    SetNext(u, t[b].prev, u[b].next)
  }

  /** Puts b between the list head and its first buffer. */
  function LinkFirst(t: Table, head: nat, b: nat): (u: Table)
    requires b < |t| && head < |t| && t[head].next < |t|
    ensures SameBufs(t, u)
  {
    var u := SetPrev(SetNext(t, b, t[head].next), b, head);
    var u := SetPrev(u, t[head].next, b);
    SetNext(u, head, b)
  }

  lemma RingLinks(t: Table, head: nat, order: seq<nat>, k: nat)
    requires Ring(t, head, order) && k < |order|
    ensures t[order[k]].next == Nth(head, order, k + 1) < |t|
    ensures t[order[k]].prev == Nth(head, order, k - 1) < |t|
  {
    assert Nth(head, order, k) == order[k];
  }

  lemma NthRest(head: nat, order: seq<nat>, k: nat, i: int)
    requires k < |order| && -1 <= i < |order|
    ensures Nth(head, order[..k] + order[k + 1..], i) == Nth(head, order, if i < k then i else i + 1)
  {
    var rest := order[..k] + order[k + 1..];
    if 0 <= i < k {
      assert rest[i] == order[i];
    } else if k <= i < |rest| {
      assert rest[i] == order[i + 1];
    }
  }

  lemma RestDistinct(order: seq<nat>, k: nat)
    requires Distinct(order) && k < |order|
    ensures var rest := order[..k] + order[k + 1..]; Distinct(rest) && forall x :: x in rest ==> x in order
  {
  }

  lemma UnlinkNextAt(t: Table, head: nat, order: seq<nat>, k: nat, i: int)
    requires Ring(t, head, order) && k < |order| && -1 <= i < |order| - 1
    ensures t[order[k]].next < |t| && t[order[k]].prev < |t|
    ensures var rest := order[..k] + order[k + 1..];
            Nth(head, rest, i) < |t| && Unlink(t, order[k])[Nth(head, rest, i)].next == Nth(head, rest, i + 1)
  {
    NthRest(head, order, k, i);
    NthRest(head, order, k, i + 1);
    UnlinkNext(t, head, order, k, if i < k then i else i + 1);
  }

  lemma UnlinkPrevAt(t: Table, head: nat, order: seq<nat>, k: nat, i: int)
    requires Ring(t, head, order) && k < |order| && 0 <= i < |order|
    ensures t[order[k]].next < |t| && t[order[k]].prev < |t|
    ensures var rest := order[..k] + order[k + 1..];
            Nth(head, rest, i) < |t| && Unlink(t, order[k])[Nth(head, rest, i)].prev == Nth(head, rest, i - 1)
  {
    NthRest(head, order, k, i);
    NthRest(head, order, k, i - 1);
    UnlinkPrev(t, head, order, k, if i < k then i else i + 1);
  }

  lemma UnlinkRing(t: Table, head: nat, order: seq<nat>, k: nat)
    requires Ring(t, head, order) && k < |order|
    ensures t[order[k]].next < |t| && t[order[k]].prev < |t|
    ensures Ring(Unlink(t, order[k]), head, order[..k] + order[k + 1..])
  {
    RingLinks(t, head, order, k);
    var rest := order[..k] + order[k + 1..];
    var u := Unlink(t, order[k]);
    RestDistinct(order, k);
    forall i | -1 <= i < |rest| ensures Nth(head, rest, i) < |t| && u[Nth(head, rest, i)].next == Nth(head, rest, i + 1) {
      UnlinkNextAt(t, head, order, k, i);
    }
    forall i | 0 <= i <= |rest| ensures Nth(head, rest, i) < |t| && u[Nth(head, rest, i)].prev == Nth(head, rest, i - 1) {
      UnlinkPrevAt(t, head, order, k, i);
    }
    forall i | 0 <= i < |rest| ensures rest[i] < |t| {
      UnlinkPrevAt(t, head, order, k, i);
    }
  }

  lemma UnlinkNext(t: Table, head: nat, order: seq<nat>, k: nat, j: int)
    requires Ring(t, head, order) && k < |order| && -1 <= j < |order| && j != k
    ensures t[order[k]].next < |t| && t[order[k]].prev < |t|
    ensures Unlink(t, order[k])[Nth(head, order, j)].next == Nth(head, order, if j == k - 1 then k + 1 else j + 1)
  {
    RingLinks(t, head, order, k);
    assert t[Nth(head, order, j)].next == Nth(head, order, j + 1);
  }

  lemma UnlinkPrev(t: Table, head: nat, order: seq<nat>, k: nat, j: int)
    requires Ring(t, head, order) && k < |order| && 0 <= j <= |order| && j != k
    ensures t[order[k]].next < |t| && t[order[k]].prev < |t|
    ensures Unlink(t, order[k])[Nth(head, order, j)].prev == Nth(head, order, if j == k + 1 then k - 1 else j - 1)
  {
    RingLinks(t, head, order, k);
    assert t[Nth(head, order, j)].prev == Nth(head, order, j - 1);
  }

  lemma LinkFirstRing(t: Table, head: nat, order: seq<nat>, b: nat)
    requires Ring(t, head, order) && b < |t| && b !in order && b != head
    ensures t[head].next < |t| && Ring(LinkFirst(t, head, b), head, [b] + order)
  {
    assert Nth(head, order, -1) == head && t[head].next == Nth(head, order, 0);
    var more, u := [b] + order, LinkFirst(t, head, b);
    forall i | 0 <= i <= |order| + 1 ensures i > 0 ==> Nth(head, more, i) == Nth(head, order, i - 1) {}
    forall i | -1 <= i < |more| ensures u[Nth(head, more, i)].next == Nth(head, more, i + 1) {
      assert i >= 1 ==> t[Nth(head, order, i - 1)].next == Nth(head, order, i);
    }
    forall i | 0 <= i <= |more| ensures u[Nth(head, more, i)].prev == Nth(head, more, i - 1) {
      assert i >= 1 ==> t[Nth(head, order, i - 1)].prev == Nth(head, order, i - 2);
    }
  }

  // ----- What the table means -----

  ghost predicate Sorted(order: seq<nat>, stamps: seq<nat>) {
    && (forall i :: 0 <= i < |order| ==> order[i] < |stamps|)
    && (forall i, j :: 0 <= i < j < |order| ==> stamps[order[i]] >= stamps[order[j]])
  }

  /** Every buffer is on the list once, and the list is ordered by latest release. */
  ghost predicate ListOk(t: Table, order: seq<nat>, stamps: seq<nat>) {
    && |t| == |stamps| > 0 && Ring(t, |t| - 1, order)
    && (forall b :: 0 <= b < |t| - 1 ==> b in order)
    && Sorted(order, stamps)
  }

  ghost predicate Holds(b: Buf, n: int) {
    b.dev == ROOTDEV && b.blockno == n
  }

  /** `at` lists the assigned buffers, so no block has two; `uses` and `locks` record refcnt and lock by block. */
  ghost predicate UsesOk(t: Table, at: map<nat, nat>, uses: map<nat, nat>, locks: set<nat>, size: nat) {
    && locks <= uses.Keys <= at.Keys && (forall n :: n in uses ==> uses[n] > 0)
    && (forall n :: n in at ==> n < size && at[n] < |t| - 1)
    && (forall n {:trigger t[at[n]]} :: n in at ==> Holds(t[at[n]], n))
    && (forall b :: 0 <= b < |t| ==> t[b].dev == 0 || (t[b].dev == ROOTDEV && t[b].blockno in at && at[t[b].blockno] == b))
    && (forall b :: 0 <= b < |t| ==>
          t[b].refcnt == if t[b].dev == ROOTDEV && t[b].blockno in uses then uses[t[b].blockno] else 0)
    && (forall b :: 0 <= b < |t| ==> (t[b].locked <==> t[b].dev == ROOTDEV && t[b].blockno in locks))
  }

  /** Valid buffers hold the view, the disk holds it for blocks with no valid buffer, and blocks not yet on disk are
      in use. */
  ghost predicate ContentOk(t: Table, uses: map<nat, nat>, view: Disk, disk: Disk) {
    && |view| == |disk|
    && (forall n :: 0 <= n < |disk| && view[n] != disk[n] ==> n in uses)
    && (forall b :: 0 <= b < |t| && t[b].valid ==> t[b].dev == ROOTDEV && t[b].blockno < |view| && t[b].data == view[t[b].blockno])
    && (forall b :: 0 <= b < |t| && t[b].dev == ROOTDEV && !t[b].valid ==> Clean(view, disk, t[b].blockno))
  }

  ghost predicate Clean(view: Disk, disk: Disk, n: nat) {
    n < |view| == |disk| && view[n] == disk[n]
  }

  ghost predicate AllBusy(t: Table) {
    forall b :: 0 <= b < |t| - 1 ==> t[b].refcnt > 0
  }

  /** Uses per block, with one more or one fewer for block n. */
  ghost function Inc(uses: map<nat, nat>, n: nat): map<nat, nat> {
    uses[n := 1 + if n in uses then uses[n] else 0]
  }

  ghost function Dec(uses: map<nat, nat>, n: nat): map<nat, nat> {
    if n in uses && uses[n] > 1 then uses[n := uses[n] - 1] else uses - {n}
  }

  /** The list without its first b. */
  ghost function Without(s: seq<nat>, b: nat): seq<nat> {
    if s == [] then [] else if s[0] == b then s[1..] else [s[0]] + Without(s[1..], b)
  }

  /** The list with b moved to the front. */
  ghost function Front(s: seq<nat>, b: nat): seq<nat> {
    [b] + Without(s, b)
  }

  lemma {:induction false} WithoutAt(s: seq<nat>, k: nat)
    requires k < |s| && Distinct(s)
    ensures Without(s, s[k]) == s[..k] + s[k + 1..]
  {
    if k > 0 {
      WithoutAt(s[1..], k - 1);
      assert s[..k] + s[k + 1..] == [s[0]] + (s[1..][..k - 1] + s[1..][k..]);
    }
  }

  /** Buffer b was taken over by block n; every other block keeps its buffer. */
  ghost predicate Reassigned(was: map<nat, nat>, now: map<nat, nat>, b: nat, n: nat) {
    && n in now && now[n] == b
    && (forall m :: m in was && was[m] != b ==> m in now && now[m] == was[m])
    && (forall m :: m in now && m != n ==> m in was && now[m] == was[m] && was[m] != b)
  }

  /** A sequence of distinct numbers drawn from a set is no longer than the set is large. */
  lemma {:induction false} Pigeonhole(s: seq<nat>, t: set<nat>)
    requires forall i :: 0 <= i < |s| ==> s[i] in t
    requires Distinct(s)
    ensures |s| <= |t|
  {
    if s != [] {
      Pigeonhole(s[1..], t - {s[0]});
    }
  }

  lemma MoveKeepsMembers(was: seq<nat>, now: seq<nat>, k: nat, x: nat)
    requires k < |was| && now == [was[k]] + was[..k] + was[k + 1..] && x in was
    ensures x in now
  {
    var j :| 0 <= j < |was| && was[j] == x;
    assert j < k ==> now[j + 1] == x;
    assert j > k ==> now[j] == x;
  }

  lemma FrontAt(was: seq<nat>, now: seq<nat>, k: nat, i: nat)
    requires k < |was| && now == [was[k]] + was[..k] + was[k + 1..] && i < |was|
    ensures now[i] == was[if i == 0 then k else if i <= k then i - 1 else i]
  {
  }

  lemma MoveKeepsSorted(was: seq<nat>, now: seq<nat>, k: nat, stamps: seq<nat>, stamp: nat)
    requires k < |was| && now == [was[k]] + was[..k] + was[k + 1..] && Sorted(was, stamps) && Distinct(was)
    requires forall x :: 0 <= x < |stamps| ==> stamps[x] <= stamp
    ensures Sorted(now, stamps[was[k] := stamp])
  {
    var s := stamps[was[k] := stamp];
    forall i | 0 <= i < |now| ensures now[i] < |s| {
      FrontAt(was, now, k, i);
    }
    forall i, j | 0 <= i < j < |now| ensures s[now[i]] >= s[now[j]] {
      FrontAt(was, now, k, i);
      FrontAt(was, now, k, j);
    }
  }

  // ----- Updates of one buffer -----

  lemma RingKeeps(t: Table, b: nat, x: Buf, head: nat, order: seq<nat>)
    requires Ring(t, head, order) && b < |t| && x.prev == t[b].prev && x.next == t[b].next
    ensures Ring(t[b := x], head, order)
  {
    var u := t[b := x];
    forall i | -1 <= i < |order| ensures u[Nth(head, order, i)].next == Nth(head, order, i + 1) {
      assert t[Nth(head, order, i)].next == Nth(head, order, i + 1);
    }
    forall i | 0 <= i <= |order| ensures u[Nth(head, order, i)].prev == Nth(head, order, i - 1) {
      assert t[Nth(head, order, i)].prev == Nth(head, order, i - 1);
    }
  }

  lemma ListKeeps(t: Table, b: nat, x: Buf, order: seq<nat>, stamps: seq<nat>)
    requires ListOk(t, order, stamps) && b < |t| && x.prev == t[b].prev && x.next == t[b].next
    ensures ListOk(t[b := x], order, stamps)
  {
    RingKeeps(t, b, x, |t| - 1, order);
  }

  /** The two ledgers agree except on block n. */
  ghost predicate AgreeExcept(uses: map<nat, nat>, locks: set<nat>, uses': map<nat, nat>, locks': set<nat>, n: nat) {
    && (forall m :: m != n ==> (m in uses <==> m in uses'))
    && (forall m :: m != n && m in uses ==> uses[m] == uses'[m])
    && (forall m :: m != n ==> (m in locks <==> m in locks'))
  }

  /** An assigned buffer changes its refcnt and lock, and the ledgers follow. */
  lemma UsesKeeps(t: Table, b: nat, x: Buf, at: map<nat, nat>, uses: map<nat, nat>, locks: set<nat>,
                  uses': map<nat, nat>, locks': set<nat>, size: nat)
    requires UsesOk(t, at, uses, locks, size) && b < |t|
    requires t[b].dev == x.dev == ROOTDEV && x.blockno == t[b].blockno
    requires AgreeExcept(uses, locks, uses', locks', x.blockno)
    requires x.refcnt == if x.blockno in uses' then uses'[x.blockno] else 0
    requires x.blockno in uses' ==> x.refcnt > 0
    requires x.locked <==> x.blockno in locks'
    requires x.locked ==> x.refcnt > 0
    ensures UsesOk(t[b := x], at, uses', locks', size)
  {
    var n, u := x.blockno, t[b := x];
    forall m | m in uses' ensures m in at {}
    forall m | m in locks' ensures m in uses' {}
    forall c | 0 <= c < |t| && c != b && t[c].dev == ROOTDEV ensures t[c].blockno != n {}
  }

  /** A buffer keeps its block and its contents. */
  lemma ContentKeeps(t: Table, b: nat, x: Buf, uses: map<nat, nat>, uses': map<nat, nat>, view: Disk, disk: Disk)
    requires ContentOk(t, uses, view, disk) && b < |t|
    requires x.dev == t[b].dev && x.blockno == t[b].blockno && x.valid == t[b].valid && x.data == t[b].data
    requires forall m :: 0 <= m < |disk| && m in uses && m !in uses' ==> Clean(view, disk, m)
    ensures ContentOk(t[b := x], uses', view, disk)
  {
  }

  lemma TakeOver(t: Table, b: nat, at: map<nat, nat>, uses: map<nat, nat>, locks: set<nat>, n: nat, size: nat)
    returns (at': map<nat, nat>)
    requires UsesOk(t, at, uses, locks, size) && b < |t| - 1 && n !in at
    ensures Reassigned(at, at', b, n)
  {
    at' := (if t[b].dev == ROOTDEV then at - {t[b].blockno} else at)[n := b];
  }

  /** An unused buffer is given to block n, which has none. */
  lemma UsesReassign(t: Table, b: nat, x: Buf, at: map<nat, nat>, at': map<nat, nat>, uses: map<nat, nat>,
                     locks: set<nat>, n: nat, size: nat)
    requires UsesOk(t, at, uses, locks, size) && b < |t| - 1 && t[b].refcnt == 0 && n < size && n !in at
    requires Holds(x, n) && x.refcnt == 1 && x.locked && Reassigned(at, at', b, n)
    ensures UsesOk(t[b := x], at', Inc(uses, n), locks + {n}, size)
  {
    forall m | m in uses ensures m in at' { assert at[m] != b; }
    forall m | m in at' ensures at'[m] < |t| - 1 && Holds(t[b := x][at'[m]], m) {}
    forall c | 0 <= c < |t| && c != b && t[c].dev == ROOTDEV ensures t[c].blockno in at' && at'[t[c].blockno] == c {}
  }

  lemma LinksAside(t: Table, u: Table, at: map<nat, nat>, uses: map<nat, nat>, locks: set<nat>, view: Disk, disk: Disk)
    requires UsesOk(t, at, uses, locks, |disk|) && ContentOk(t, uses, view, disk) && SameBufs(t, u)
    ensures UsesOk(u, at, uses, locks, |disk|) && ContentOk(u, uses, view, disk)
  {
    forall b | 0 <= b < |t|
      ensures u[b].dev == t[b].dev && u[b].blockno == t[b].blockno && u[b].refcnt == t[b].refcnt
      ensures u[b].valid == t[b].valid && u[b].data == t[b].data && u[b].locked == t[b].locked
    {
    }
  }

  /** A buffer gets a block nobody caches, or the contents of its own block, from disk. */
  lemma ContentLoads(t: Table, b: nat, x: Buf, uses: map<nat, nat>, uses': map<nat, nat>, view: Disk, disk: Disk)
    requires ContentOk(t, uses, view, disk) && b < |t| && x.dev == ROOTDEV && Clean(view, disk, x.blockno)
    requires x.valid ==> x.data == disk[x.blockno]
    requires forall m :: m in uses ==> m in uses'
    ensures ContentOk(t[b := x], uses', view, disk)
  {
  }

  lemma FrontRing(t: Table, order: seq<nat>, k: nat)
    requires |t| > 0 && Ring(t, |t| - 1, order) && k < |order|
    ensures t[order[k]].next < |t| && t[order[k]].prev < |t|
    ensures var u := Unlink(t, order[k]);
            && u[|t| - 1].next < |t|
            && Ring(LinkFirst(u, |t| - 1, order[k]), |t| - 1, [order[k]] + order[..k] + order[k + 1..])
  {
    var b, rest := order[k], order[..k] + order[k + 1..];
    RestDistinct(order, k);
    UnlinkRing(t, |t| - 1, order, k);
    LinkFirstRing(Unlink(t, b), |t| - 1, rest, b);
    assert [b] + order[..k] + order[k + 1..] == [b] + rest;
  }

  lemma SameBufsTrans(t: Table, u: Table, v: Table)
    requires SameBufs(t, u) && SameBufs(u, v)
    ensures SameBufs(t, v)
  {
  }

  /** The relinking in brelse, as one step: unlink b, then put it first. */
  function Relinked(t: Table, b: nat): (u: Table)
    requires b < |t| && t[b].next < |t| && t[b].prev < |t| && Unlink(t, b)[|t| - 1].next < |t|
  {
    LinkFirst(Unlink(t, b), |t| - 1, b)
  }

  lemma FrontOk(t: Table, order: seq<nat>, stamps: seq<nat>, k: nat, stamp: nat, b: nat, u: Table)
    requires ListOk(t, order, stamps) && k < |order| && order[k] == b
    requires forall x :: 0 <= x < |stamps| ==> stamps[x] <= stamp
    requires t[b].next < |t| && t[b].prev < |t| && Unlink(t, b)[|t| - 1].next < |t| && u == Relinked(t, b)
    ensures SameBufs(t, u) && ListOk(u, Front(order, b), stamps[b := stamp])
  {
    FrontRing(t, order, k);
    SameBufsTrans(t, Unlink(t, b), u);
    WithoutAt(order, k);
    var now := Front(order, b);
    assert now == [b] + order[..k] + order[k + 1..];
    MoveKeepsSorted(order, now, k, stamps, stamp);
    forall x | 0 <= x < |t| - 1 ensures x in now { MoveKeepsMembers(order, now, k, x); }
  }

  /** The relinking in brelse: the list changes, what the buffers hold does not. */
  method MoveToFront(t: Table, ghost order: seq<nat>, ghost stamps: seq<nat>, b: nat, ghost stamp: nat,
                     ghost at: map<nat, nat>, ghost uses: map<nat, nat>, ghost locks: set<nat>,
                     ghost view: Disk, ghost disk: Disk)
    returns (u: Table)
    requires ListOk(t, order, stamps) && b < |t| - 1
    requires forall x :: 0 <= x < |stamps| ==> stamps[x] <= stamp
    requires UsesOk(t, at, uses, locks, |disk|) && ContentOk(t, uses, view, disk)
    ensures |u| == |t| && ListOk(u, Front(order, b), stamps[b := stamp])
    ensures UsesOk(u, at, uses, locks, |disk|) && ContentOk(u, uses, view, disk)
  {
    assert b in order;
    ghost var k :| 0 <= k < |order| && order[k] == b;
    FrontRing(t, order, k);
    u := Relinked(t, b);
    FrontOk(t, order, stamps, k, stamp, b, u);
    LinksAside(t, u, at, uses, locks, view, disk);
  }

  // ----- The two scans of bget -----

  /** From the most recently released buffer on, looks for block n; the list head stands for "not found". */
  method FindCached(t: Table, ghost order: seq<nat>, ghost stamps: seq<nat>, n: nat) returns (b: nat)
    requires ListOk(t, order, stamps)
    ensures b < |t|
    ensures if b < |t| - 1 then Holds(t[b], n) else forall x :: 0 <= x < |t| - 1 ==> !Holds(t[x], n)
  {
    var head := |t| - 1;
    assert t[Nth(head, order, -1)].next == Nth(head, order, 0);
    b := t[head].next;
    ghost var i := 0;
    while b != head
      invariant 0 <= i <= |order| && b == Nth(head, order, i)
      invariant forall j :: 0 <= j < i ==> !Holds(t[order[j]], n)
      decreases |order| - i
    {
      if t[b].dev == ROOTDEV && t[b].blockno == n {
        return;
      }
      b, i := t[b].next, i + 1;
    }
    forall x | 0 <= x < |t| - 1 ensures !Holds(t[x], n) {
      assert x in order;
      var j :| 0 <= j < |order| && order[j] == x;
    }
  }

  lemma OldestUnused(t: Table, order: seq<nat>, stamps: seq<nat>, k: nat, x: nat)
    requires ListOk(t, order, stamps) && k < |order| && x < |t| - 1 && t[x].refcnt == 0
    requires forall j :: k < j < |order| ==> t[order[j]].refcnt > 0
    ensures stamps[x] >= stamps[order[k]]
  {
    assert x in order;
    var j :| 0 <= j < |order| && order[j] == x;
  }

  lemma AllOnList(t: Table, order: seq<nat>, stamps: seq<nat>)
    requires ListOk(t, order, stamps) && forall j :: 0 <= j < |order| ==> t[order[j]].refcnt > 0
    ensures AllBusy(t)
  {
    forall x | 0 <= x < |t| - 1 ensures t[x].refcnt > 0 {
      assert x in order;
      var j :| 0 <= j < |order| && order[j] == x;
    }
  }

  /** From the end of the list back, looks for a buffer that nobody uses; it is the `k`th, or the head. */
  method FindUnused(t: Table, ghost order: seq<nat>) returns (b: nat, ghost k: int)
    requires |t| > 0 && Ring(t, |t| - 1, order)
    ensures -1 <= k < |order| && b == Nth(|t| - 1, order, k)
    ensures k >= 0 ==> t[b].refcnt == 0
    ensures forall j :: k < j < |order| ==> t[order[j]].refcnt > 0
  {
    RingEnd(t, |t| - 1, order);
    b, k := t[|t| - 1].prev, |order| - 1;
    while b != |t| - 1
      invariant -1 <= k < |order| && b < |t| && b == Nth(|t| - 1, order, k)
      invariant BusyAfter(t, order, k)
      decreases k
    {
      if t[b].refcnt == 0 {
        return;
      }
      RingBack(t, |t| - 1, order, k, b);
      b, k := t[b].prev, k - 1;
    }
  }

  /** All buffers after the kth on the list are in use. */
  ghost predicate BusyAfter(t: Table, order: seq<nat>, k: int) {
    forall j :: k < j < |order| && 0 <= j ==> order[j] < |t| && t[order[j]].refcnt > 0
  }

  lemma RingEnd(t: Table, head: nat, order: seq<nat>)
    requires Ring(t, head, order)
    ensures t[head].prev == Nth(head, order, |order| - 1) < |t|
  {
    assert t[Nth(head, order, |order|)].prev == Nth(head, order, |order| - 1);
  }

  /** One buffer back. */
  lemma RingBack(t: Table, head: nat, order: seq<nat>, k: int, b: nat)
    requires Ring(t, head, order) && -1 <= k < |order| && b < |t| && b == Nth(head, order, k) && b != head
    requires BusyAfter(t, order, k) && t[b].refcnt > 0
    ensures k >= 0 && b == order[k] && t[b].prev == Nth(head, order, k - 1) < |t| && BusyAfter(t, order, k - 1)
  {
    RingLinks(t, head, order, k);
  }

  /** What that buffer is: the least recently released unused one, if there is any. */
  lemma UnusedIsOldest(t: Table, order: seq<nat>, stamps: seq<nat>, b: nat, k: int)
    requires ListOk(t, order, stamps) && -1 <= k < |order| && b == Nth(|t| - 1, order, k)
    requires k >= 0 ==> t[b].refcnt == 0
    requires forall j :: k < j < |order| ==> t[order[j]].refcnt > 0
    ensures b < |t| && b < |stamps| && (b == |t| - 1 <==> AllBusy(t))
    ensures b < |t| - 1 ==> t[b].refcnt == 0
    ensures b < |t| - 1 ==> forall x :: 0 <= x < |t| - 1 && t[x].refcnt == 0 ==> stamps[x] >= stamps[b]
  {
    if k < 0 {
      AllOnList(t, order, stamps);
    } else {
      forall x | 0 <= x < |t| - 1 && t[x].refcnt == 0 ensures stamps[x] >= stamps[b] {
        OldestUnused(t, order, stamps, k, x);
      }
    }
  }

  // ----- The cache -----

  class BCache {
    var bufs: Table               // buf[NBUF], then head
    var disk: Disk
    ghost var order: seq<nat>
    ghost var at: map<nat, nat>       // the buffer assigned to each cached block
    ghost var uses: map<nat, nat>     // refcnt of each block whose buffer is in use
    ghost var locks: set<nat>         // blocks whose buffer is locked
    ghost var view: Disk
    ghost var trail: seq<Disk>
    ghost var stamps: seq<nat>        // when brelse last moved each buffer to the front
    ghost var clock: nat

    ghost predicate Valid()
      reads this
    {
      && ListOk(bufs, order, stamps) && (forall b :: 0 <= b < |stamps| ==> stamps[b] <= clock)
      && UsesOk(bufs, at, uses, locks, |disk|) && ContentOk(bufs, uses, view, disk)
    }

    /** If fewer blocks are in use than there are buffers, some buffer is free to recycle. */
    lemma SomeUnused()
      requires Valid() && |uses| < |bufs| - 1
      ensures !AllBusy(bufs)
    {
      if AllBusy(bufs) {
        var ns := seq(|bufs| - 1, i requires 0 <= i < |bufs| - 1 reads this => bufs[i].blockno);
        forall i | 0 <= i < |ns| ensures ns[i] in uses && at[ns[i]] == i {
          assert bufs[i].refcnt > 0;
        }
        Pigeonhole(ns, uses.Keys);
      }
    }

    /** binit: each buffer in turn is put at the head of the list. */
    constructor (disk: Disk, nbuf: nat)
      ensures Valid() && |bufs| == nbuf + 1
      ensures this.disk == view == disk && trail == [] && at == map[] && uses == map[] && locks == {}
    {
      var head := nbuf;
      var t: Table := seq(nbuf + 1, i => Buf(false, 0, 0, 0, false, [], head, head));
      ghost var ord: seq<nat> := [];
      var n := 0;
      while n < nbuf
        invariant n <= nbuf && |t| == nbuf + 1 && Ring(t, head, ord) && |ord| == n
        invariant forall i :: 0 <= i < n ==> ord[i] == n - 1 - i
        invariant forall b :: 0 <= b < |t| ==> t[b].dev == 0 && !t[b].valid && t[b].refcnt == 0 && !t[b].locked
      {
        LinkFirstRing(t, head, ord, n);
        t := LinkFirst(t, head, n);
        n, ord := n + 1, [n] + ord;
      }
      forall b | 0 <= b < nbuf ensures b in ord {
        assert ord[nbuf - 1 - b] == b;
      }
      bufs, order, at, uses, locks := t, ord, map[], map[], {};
      this.disk, view, trail, clock, stamps := disk, disk, [], 0, seq(nbuf + 1, i => 0);
    }

    /** b is the buffer that the holder of block n got for it. */
    ghost predicate Held(b: nat, n: nat)
      reads this
    {
      n in locks && n in at && at[n] == b && b < |bufs|
    }

    /** One more user of an assigned buffer, who locks it. */
    method Hold(b: nat, ghost n: nat)
      requires Valid() && n in at && at[n] == b
      modifies this`bufs, this`uses, this`locks
      ensures Valid() && b < |bufs| && bufs == old(bufs)[b := bufs[b]] && bufs[b].valid == old(bufs)[b].valid
      ensures uses == Inc(old(uses), n) && locks == old(locks) + {n}
    {
      ghost var more, held := Inc(uses, n), locks + {n};
      var x := bufs[b].(refcnt := bufs[b].refcnt + 1, locked := true);
      ListKeeps(bufs, b, x, order, stamps);
      UsesKeeps(bufs, b, x, at, uses, locks, more, held, |disk|);
      ContentKeeps(bufs, b, x, uses, more, view, disk);
      bufs, uses, locks := bufs[b := x], more, held;
    }

    /** Gives an unused buffer to an uncached block. */
    method Recycle(b: nat, blockno: nat)
      requires Valid() && b < |bufs| - 1 && bufs[b].refcnt == 0 && blockno < |disk| && blockno !in at
      modifies this`bufs, this`at, this`uses, this`locks
      ensures Valid() && b < |bufs| && bufs == old(bufs)[b := bufs[b]] && !bufs[b].valid
      ensures Reassigned(old(at), at, b, blockno)
      ensures uses == Inc(old(uses), blockno) && locks == old(locks) + {blockno}
    {
      ghost var at' := TakeOver(bufs, b, at, uses, locks, blockno, |disk|);
      var x := bufs[b].(dev := ROOTDEV, blockno := blockno, valid := false, refcnt := 1, locked := true);
      ListKeeps(bufs, b, x, order, stamps);
      UsesReassign(bufs, b, x, at, at', uses, locks, blockno, |disk|);
      ContentLoads(bufs, b, x, uses, Inc(uses, blockno), view, disk);
      bufs, at, uses, locks := bufs[b := x], at', Inc(uses, blockno), locks + {blockno};
    }

    /** bget's second loop, for a block that is not cached. */
    method RecycleOldest(blockno: nat) returns (b: nat)
      requires Valid() && blockno < |disk| && blockno !in at
      modifies this`bufs, this`at, this`uses, this`locks
      ensures Valid() && b < |bufs| == |old(bufs)| && bufs == old(bufs)[b := bufs[b]]
      ensures b == |bufs| - 1 <==> AllBusy(old(bufs))
      ensures b == |bufs| - 1 ==> bufs == old(bufs) && at == old(at) && uses == old(uses) && locks == old(locks)
      ensures b != |bufs| - 1 ==> Reassigned(old(at), at, b, blockno) && old(bufs)[b].refcnt == 0 && !bufs[b].valid
      ensures b != |bufs| - 1 ==> uses == Inc(old(uses), blockno) && locks == old(locks) + {blockno}
      ensures b != |bufs| - 1 ==> forall x :: 0 <= x < |bufs| - 1 && old(bufs)[x].refcnt == 0 ==> stamps[x] >= stamps[b]
    {
      ghost var k;
      b, k := FindUnused(bufs, order);
      UnusedIsOldest(bufs, order, stamps, b, k);
      if b != |bufs| - 1 {
        Recycle(b, blockno);
      }
    }

    /** Returns the block's buffer, locked, recycling the least recently released unused one when the block is not
        cached; the list head stands for the "bget: no buffers" panic.  A buffer in use is never recycled. */
    method Bget(blockno: nat) returns (b: nat)
      requires Valid() && blockno < |disk| && blockno !in locks
      modifies this`bufs, this`at, this`uses, this`locks
      ensures Valid() && b < |bufs| == |old(bufs)| && bufs == old(bufs)[b := bufs[b]]
      ensures b == |bufs| - 1 <==> blockno !in old(at) && AllBusy(old(bufs))
      ensures b == |bufs| - 1 ==> bufs == old(bufs) && at == old(at) && uses == old(uses) && locks == old(locks)
      ensures b != |bufs| - 1 ==> Held(b, blockno)
      ensures b != |bufs| - 1 ==> uses == Inc(old(uses), blockno) && locks == old(locks) + {blockno}
      ensures forall n :: n in old(uses) ==> n in at && at[n] == old(at)[n]
      ensures blockno in old(at) ==> at == old(at) && bufs[b].valid == old(bufs)[b].valid
      ensures b != |bufs| - 1 && blockno !in old(at) ==>
                && Reassigned(old(at), at, b, blockno) && old(bufs)[b].refcnt == 0 && !bufs[b].valid
                && forall x :: 0 <= x < |bufs| - 1 && old(bufs)[x].refcnt == 0 ==> stamps[x] >= stamps[b]
    {
      assert blockno in at ==> Holds(bufs[at[blockno]], blockno);
      b := FindCached(bufs, order, stamps, blockno);
      if b != |bufs| - 1 {
        Hold(b, blockno);
      } else {
        b := RecycleOldest(blockno);
      }
    }

    /** Returns the locked buffer of a block, holding the last contents stored for it. */
    method Bread(blockno: nat) returns (b: nat)
      requires Valid() && blockno < |disk| && blockno !in locks
      modifies this`bufs, this`at, this`uses, this`locks
      ensures Valid() && b < |bufs| == |old(bufs)| && bufs == old(bufs)[b := bufs[b]]
      ensures b == |bufs| - 1 <==> blockno !in old(at) && AllBusy(old(bufs))
      ensures b == |bufs| - 1 ==> bufs == old(bufs) && at == old(at) && uses == old(uses) && locks == old(locks)
      ensures b != |bufs| - 1 ==> Held(b, blockno) && bufs[b].valid && bufs[b].data == view[blockno]
      ensures b != |bufs| - 1 ==> uses == Inc(old(uses), blockno) && locks == old(locks) + {blockno}
      ensures forall n :: n in old(uses) ==> n in at && at[n] == old(at)[n]
    {
      b := Bget(blockno);
      if b != |bufs| - 1 { Load(b, blockno); }
    }

    /** bread's second half: what the holder of a buffer then finds in it. */
    method Load(b: nat, blockno: nat)
      requires Valid() && Held(b, blockno)
      modifies this`bufs
      ensures Valid() && b < |bufs| == |old(bufs)| && bufs == old(bufs)[b := bufs[b]]
      ensures Held(b, blockno) && blockno < |view| && bufs[b].valid && bufs[b].data == view[blockno]
    {
      assert Holds(bufs[at[blockno]], blockno);
      if !bufs[b].valid {
        var x := bufs[b].(data := disk[blockno], valid := true);
        ListKeeps(bufs, b, x, order, stamps);
        UsesKeeps(bufs, b, x, at, uses, locks, uses, locks, |disk|);
        ContentLoads(bufs, b, x, uses, uses, view, disk);
        bufs := bufs[b := x];
      }
    }

    /**
    bget of a block whose buffer somebody else has locked: it counts as used from now on, and nobody can recycle it while
    the caller waits in acquiresleep. Grab is the end of that wait, Load what bread does then.
    */
    method BgetLocked(blockno: nat) returns (b: nat)
      requires Valid() && blockno in locks
      modifies this`bufs, this`uses
      ensures Valid() && b < |bufs| - 1 && |bufs| == |old(bufs)| && blockno in at && at[blockno] == b
      ensures uses == Inc(old(uses), blockno)
    {
      assert Holds(bufs[at[blockno]], blockno);
      b := FindCached(bufs, order, stamps, blockno);
      ghost var more := Inc(uses, blockno);
      var x := bufs[b].(refcnt := bufs[b].refcnt + 1);
      ListKeeps(bufs, b, x, order, stamps);
      UsesKeeps(bufs, b, x, at, uses, locks, more, locks, |disk|);
      ContentKeeps(bufs, b, x, uses, more, view, disk);
      bufs, uses := bufs[b := x], more;
    }

    /** acquiresleep returns: the buffer is still that of the block, because the block has been in use all along. */
    method Grab(b: nat, ghost n: nat)
      requires Valid() && n in uses && n !in locks && at[n] == b
      modifies this`bufs, this`locks
      ensures Valid() && |bufs| == |old(bufs)| && Held(b, n) && locks == old(locks) + {n}
    {
      assert Holds(bufs[at[n]], n);
      ghost var held := locks + {n};
      var x := bufs[b].(locked := true);
      ListKeeps(bufs, b, x, order, stamps);
      UsesKeeps(bufs, b, x, at, uses, locks, uses, held, |disk|);
      ContentKeeps(bufs, b, x, uses, uses, view, disk);
      bufs, locks := bufs[b := x], held;
    }

    /** A client overwrites the contents of a buffer it holds. */
    method Store(b: nat, ghost n: nat, data: Block)
      requires Valid() && Held(b, n) && bufs[b].valid
      modifies this`bufs, this`view
      ensures Valid() && |bufs| == |old(bufs)| && bufs[b].valid && view == old(view)[n := data]
    {
      var x := bufs[b].(data := data);
      ListKeeps(bufs, b, x, order, stamps);
      UsesKeeps(bufs, b, x, at, uses, locks, uses, locks, |disk|);
      assert ContentOk(bufs[b := x], uses, view[n := data], disk);
      bufs, view := bufs[b := x], view[n := data];
    }

    method Bwrite(b: nat, ghost n: nat)
      requires Valid() && Held(b, n) && bufs[b].valid
      modifies this`disk, this`trail
      ensures Valid() && n < |old(disk)| == |view|
      ensures disk == old(disk)[n := view[n]] && trail == old(trail) + [disk]
    {
      disk := disk[bufs[b].blockno := bufs[b].data];
      trail := trail + [disk];
    }

    /** One user of a held buffer fewer, and its lock is free. */
    method Drop(b: nat, ghost n: nat)
      requires Valid() && Held(b, n) && (uses[n] == 1 ==> Clean(view, disk, n))
      modifies this`bufs, this`uses, this`locks
      ensures Valid() && |bufs| == |old(bufs)| && b < |bufs| - 1 && (bufs[b].refcnt == 0 <==> n !in uses)
      ensures uses == Dec(old(uses), n) && locks == old(locks) - {n}
    {
      var x := bufs[b].(refcnt := bufs[b].refcnt - 1, locked := false);
      ghost var fewer, held := Dec(uses, n), locks - {n};
      ListKeeps(bufs, b, x, order, stamps);
      UsesKeeps(bufs, b, x, at, uses, locks, fewer, held, |disk|);
      ContentKeeps(bufs, b, x, uses, fewer, view, disk);
      bufs, uses, locks := bufs[b := x], fewer, held;
    }

    /** Releases a held buffer; when nobody else uses it, its contents must be on disk and it moves to the front. */
    method Brelse(b: nat, ghost n: nat)
      requires Valid() && Held(b, n) && (uses[n] == 1 ==> Clean(view, disk, n))
      modifies this`bufs, this`order, this`stamps, this`clock, this`uses, this`locks
      ensures Valid() && |bufs| == |old(bufs)| && uses == Dec(old(uses), n) && locks == old(locks) - {n}
      ensures if n in uses then order == old(order) && stamps == old(stamps)
              else order == Front(old(order), b) && clock > old(clock) && stamps == old(stamps)[b := clock]
    {
      Drop(b, n);
      if bufs[b].refcnt == 0 {
        clock := clock + 1;
        bufs := MoveToFront(bufs, order, stamps, b, clock, at, uses, locks, view, disk);
        order, stamps := Front(order, b), stamps[b := clock];
      }
    }

    method Bpin(b: nat, ghost n: nat)
      requires Valid() && Held(b, n)
      modifies this`bufs, this`uses
      ensures Valid() && |bufs| == |old(bufs)| && uses == Inc(old(uses), n)
    {
      var x := bufs[b].(refcnt := bufs[b].refcnt + 1);
      ListKeeps(bufs, b, x, order, stamps);
      UsesKeeps(bufs, b, x, at, uses, locks, Inc(uses, n), locks, |disk|);
      ContentKeeps(bufs, b, x, uses, Inc(uses, n), view, disk);
      bufs, uses := bufs[b := x], Inc(uses, n);
    }

    /** Gives up a pin while the buffer is still held. */
    method Bunpin(b: nat, ghost n: nat)
      requires Valid() && Held(b, n) && uses[n] > 1
      modifies this`bufs, this`uses
      ensures Valid() && |bufs| == |old(bufs)| && uses == Dec(old(uses), n)
    {
      var x := bufs[b].(refcnt := bufs[b].refcnt - 1);
      ListKeeps(bufs, b, x, order, stamps);
      UsesKeeps(bufs, b, x, at, uses, locks, Dec(uses, n), locks, |disk|);
      ContentKeeps(bufs, b, x, uses, Dec(uses, n), view, disk);
      bufs, uses := bufs[b := x], Dec(uses, n);
    }
  }
}
