/**
A process and its kernel threads over any sequence of thread_create, thread_exit, the reaping in thread_join, and
growproc: the tables of the group agree with the leader's, no page is lost and none is freed that somebody still maps,
and nobody outside the group is touched.
*/
module ThreadGroups {
  import opened Kalloc
  import opened Vm
  import opened Threads

  /** A thread in the process table; once it has exited it has no stack, and waits to be reaped. */
  datatype Entry = Entry(t: Thread, hasStack: bool)

  function Roots(threads: seq<Entry>): (r: seq<nat>)
    ensures |r| == |threads| && forall i :: 0 <= i < |r| ==> r[i] == threads[i].t.root
  {
    seq(|threads|, i requires 0 <= i < |threads| => threads[i].t.root)
  }

  // ----- What holds of the group -----

  /** The leader maps a page of its own at every page number below n, and nothing from there up to its trapframe. */
  ghost predicate LeaderOk(mem: seq<Page>, role: seq<Role>, leader: nat, n: nat) {
    && OwnsRange(mem, role, leader, 0, n)
    && forall w: nat {:trigger Pte(mem, leader, w)} :: n <= w < TRAPFRAME ==> Pte(mem, leader, w) == 0
  }

  ghost predicate ThreadsOk(mem: seq<Page>, role: seq<Role>, lo: nat, leader: nat, threads: seq<Entry>, n: nat, tramp: nat, full: bool) {
    && (forall i {:trigger threads[i]} :: 0 <= i < |threads| ==>
          lo <= threads[i].t.tf && ThreadOk(mem, role, leader, threads[i].t, n, threads[i].hasStack, tramp, full))
    && (forall i, j :: 0 <= i < j < |threads| ==> threads[i].t.tf != threads[j].t.tf)
  }

  ghost predicate GroupOk(mem: seq<Page>, role: seq<Role>, lo: nat, leader: nat, threads: seq<Entry>, n: nat, tramp: nat, full: bool) {
    && n <= TRAPFRAME && Group(role, leader, Roots(threads))
    && LeaderOk(mem, role, leader, n) && ThreadsOk(mem, role, lo, leader, threads, n, tramp, full)
  }

  /** Page p is the group's: a table or a page of the leader, or in use by one of the threads. */
  ghost predicate Ours(role: seq<Role>, p: nat, leader: nat, threads: seq<Entry>)
    requires p < |role|
  {
    || Under(role, p, leader) || (role[p].Owned? && role[p].root == leader)
    || exists i {:trigger threads[i]} :: 0 <= i < |threads| && Uses(role, p, threads[i].t, threads[i].hasStack)
  }

  /** Every page is the group's, and nobody else's, or it is used as it has been all along. */
  ghost predicate Accounts(role: seq<Role>, rest: seq<Role>, leader: nat, threads: seq<Entry>) {
    |role| == |rest| && forall p: nat {:trigger rest[p]} :: p < |role| ==>
      if Ours(role, p, leader, threads) then rest[p] == Free else role[p] == rest[p]
  }

  /** All other address spaces map what they did. */
  ghost predicate RestSame(m0: seq<Page>, m1: seq<Page>, rest: seq<Role>) {
    forall r: nat, v: nat {:trigger Pte(m1, r, v)} :: IsRoot(rest, r) && v < VPNS ==> Pte(m1, r, v) == Pte(m0, r, v)
  }

  lemma RestIsElsewhere(role: seq<Role>, rest: seq<Role>, leader: nat, threads: seq<Entry>, r: nat)
    requires Accounts(role, rest, leader, threads) && Group(role, leader, Roots(threads)) && IsRoot(rest, r)
    ensures IsRoot(role, r) && r != leader && r !in Roots(threads)
  {
    assert !Ours(role, r, leader, threads);
    forall i | 0 <= i < |threads| ensures threads[i].t.root != r {
      assert Roots(threads)[i] == threads[i].t.root;
      assert !Uses(role, r, threads[i].t, threads[i].hasStack);
    }
  }

  // ----- Taking pages -----

  /** A page in use has the same place in the trees as long as no page in use changes its role. */
  lemma UnderSame(m0: seq<Page>, r0: seq<Role>, r1: seq<Role>, p: nat, root: nat)
    requires Sound(m0, r0) && |r1| == |r0| && p < |r0| && r0[p] != Free
    requires forall x: nat {:trigger r1[x]} :: x < |r0| && r0[x] != Free ==> r1[x] == r0[x]
    ensures Under(r1, p, root) <==> Under(r0, p, root)
  {
    assert UpOk(m0, r0, p);
  }

  lemma UsesSame(m0: seq<Page>, r0: seq<Role>, r1: seq<Role>, p: nat, t: Thread, hasStack: bool)
    requires Sound(m0, r0) && |r1| == |r0| && p < |r0| && r0[p] != Free
    requires forall x: nat {:trigger r1[x]} :: x < |r0| && r0[x] != Free ==> r1[x] == r0[x]
    ensures Uses(r1, p, t, hasStack) <==> Uses(r0, p, t, hasStack)
  {
    UnderSame(m0, r0, r1, p, t.root);
    if Under(r0, p, t.root) {
      assert UpOk(m0, r0, p);
      if r0[p].Low? { assert UpOk(m0, r0, r0[p].parent); }
      assert r0[t.root] != Free;
    }
  }

  /** Free pages are put to use for the group; a thread may have joined, all of whose pages were free. */
  lemma AccountsTook(m0: seq<Page>, r0: seq<Role>, r1: seq<Role>, rest: seq<Role>, leader: nat, was: seq<Entry>, now: seq<Entry>)
    requires Sound(m0, r0) && Accounts(r0, rest, leader, was) && |r1| == |r0| && was <= now
    requires forall p: nat {:trigger r1[p]} :: p < |r0| ==> r1[p] == r0[p] || (r0[p] == Free && Ours(r1, p, leader, now))
    requires forall i, p: nat {:trigger Uses(r1, p, now[i].t, now[i].hasStack)} ::
               |was| <= i < |now| && p < |r0| && Uses(r1, p, now[i].t, now[i].hasStack) ==> r0[p] == Free
    ensures Accounts(r1, rest, leader, now)
  {
    forall p: nat | p < |r0| ensures if Ours(r1, p, leader, now) then rest[p] == Free else r1[p] == rest[p] {
      if r0[p] == Free {
        assert Ours(r0, p, leader, was) || r0[p] == rest[p];
      } else {
        UnderSame(m0, r0, r1, p, leader);
        OursSame(m0, r0, r1, leader, was, now, p);
      }
    }
  }

  lemma OursSame(m0: seq<Page>, r0: seq<Role>, r1: seq<Role>, leader: nat, was: seq<Entry>, now: seq<Entry>, p: nat)
    requires Sound(m0, r0) && |r1| == |r0| && p < |r0| && r0[p] != Free && was <= now
    requires forall x: nat {:trigger r1[x]} :: x < |r0| && r0[x] != Free ==> r1[x] == r0[x]
    requires forall i {:trigger now[i]} :: |was| <= i < |now| ==> !Uses(r1, p, now[i].t, now[i].hasStack)
    ensures Ours(r1, p, leader, now) <==> Ours(r0, p, leader, was)
  {
    UnderSame(m0, r0, r1, p, leader);
    forall i | 0 <= i < |was|
      ensures Uses(r1, p, now[i].t, now[i].hasStack) <==> Uses(r0, p, was[i].t, was[i].hasStack)
    {
      UsesSame(m0, r0, r1, p, was[i].t, was[i].hasStack);
    }
    if i :| 0 <= i < |was| && Uses(r0, p, was[i].t, was[i].hasStack) {
      assert now[i] == was[i];
      assert Uses(r1, p, now[i].t, now[i].hasStack);
    }
    if i :| 0 <= i < |now| && Uses(r1, p, now[i].t, now[i].hasStack) {
      assert i < |was|;
      assert Uses(r0, p, was[i].t, was[i].hasStack);
    }
  }

  // ----- Giving pages back -----

  /** Pages of the group are freed, and the others stay with those they belong to. */
  lemma AccountsFreed(r0: seq<Role>, r1: seq<Role>, rest: seq<Role>, leader: nat, was: seq<Entry>, now: seq<Entry>)
    requires Accounts(r0, rest, leader, was) && |r1| == |r0|
    requires forall p: nat {:trigger r1[p]} :: p < |r0| ==>
               (if r1[p] == r0[p] then Ours(r1, p, leader, now) <==> Ours(r0, p, leader, was)
                else r1[p] == Free && Ours(r0, p, leader, was) && !Ours(r1, p, leader, now))
    ensures Accounts(r1, rest, leader, now)
  {
    forall p: nat | p < |r1| ensures if Ours(r1, p, leader, now) then rest[p] == Free else r1[p] == rest[p] {
      assert r0[p] == r0[p] && r1[p] == r1[p];
    }
  }

  // ----- What a call leaves alone -----

  lemma ThreadStays(m0: seq<Page>, r0: seq<Role>, m1: seq<Page>, r1: seq<Role>, leader: nat, e: Entry, n: nat, tramp: nat, full: bool)
    requires ThreadOk(m0, r0, leader, e.t, n, e.hasStack, tramp, full) && |m1| == |r1| == |r0|
    requires SameAt(m0, m1, e.t.root) && SameAt(m0, m1, leader) && n <= VPNS
    requires forall p: nat {:trigger r1[p]} :: p < |r0| && r0[p] != Free && !Owns(r0[p], leader) ==>
               r1[p] == r0[p] || !Uses(r0, p, e.t, e.hasStack)
    requires forall p: nat {:trigger r1[p]} :: p < |r0| && Owns(r1[p], e.t.root) ==> r1[p] == r0[p]
    ensures ThreadOk(m1, r1, leader, e.t, n, e.hasStack, tramp, full)
  {
    assert Uses(r0, e.t.root, e.t, e.hasStack) && Uses(r0, e.t.tf, e.t, e.hasStack);
    forall v: nat | v < VPNS ensures Pte(m1, e.t.root, v) == Pte(m0, e.t.root, v) && Pte(m1, leader, v) == Pte(m0, leader, v) { }
    if e.hasStack { assert Uses(r0, Ppn(Pte(m0, e.t.root, e.t.stack)), e.t, true); }
  }

  predicate Owns(r: Role, root: nat) { r.Owned? && r.root == root }

  lemma LeaderStays(m0: seq<Page>, r0: seq<Role>, m1: seq<Page>, r1: seq<Role>, leader: nat, n: nat)
    requires LeaderOk(m0, r0, leader, n) && SameAt(m0, m1, leader) && |r1| == |r0| && n <= TRAPFRAME
    requires forall p: nat {:trigger r1[p]} :: p < |r0| && Owns(r0[p], leader) ==> r1[p] == r0[p]
    ensures LeaderOk(m1, r1, leader, n)
  {
    forall w: nat | w < n ensures OwnsPage(m1, r1, leader, w) {
      assert Pte(m1, leader, w) == Pte(m0, leader, w);
      assert OwnsPage(m0, r0, leader, w);
    }
  }

  /** What the group looks like to its methods. */
  lemma MembersOf(mem: seq<Page>, role: seq<Role>, lo: nat, leader: nat, threads: seq<Entry>, n: nat, tramp: nat, full: bool, top: nat)
    requires GroupOk(mem, role, lo, leader, threads, n, tramp, full) && n <= top <= TRAPFRAME
    requires forall i {:trigger threads[i]} :: 0 <= i < |threads| ==> top <= threads[i].t.stack
    ensures Members(mem, leader, Roots(threads), n, top, full) && LeaderOwns(mem, role, leader, n)
  {
    forall i | 0 <= i < |threads| ensures Member(mem, leader, Roots(threads)[i], n, top, full) {
      assert ThreadOk(mem, role, leader, threads[i].t, n, threads[i].hasStack, tramp, full);
    }
  }

  lemma NoneOwnedBelow(mem: seq<Page>, role: seq<Role>, lo: nat, leader: nat, threads: seq<Entry>, n: nat, tramp: nat, full: bool, low: nat)
    requires GroupOk(mem, role, lo, leader, threads, n, tramp, full)
    ensures NoneOwnedIn(role, Roots(threads), low, n)
  {
    forall p, i | 0 <= p < |role| && 0 <= i < |threads| && role[p].Owned? && role[p].root == Roots(threads)[i]
      ensures !(low <= role[p].vpn < n)
    {
      assert OwnsOnly(mem, role, threads[i].t.root, threads[i].t.stack, threads[i].hasStack);
    }
  }

  // ----- thread_create -----

  lemma UsesTaken(r0: seq<Role>, m1: seq<Page>, r1: seq<Role>, leader: nat, t: Thread, n: nat, tramp: nat)
    requires Taken(r0, r1, t) && ThreadOk(m1, r1, leader, t, n, true, tramp, true)
    ensures forall p: nat {:trigger r1[p]} :: p < |r0| ==>
              if Uses(r1, p, t, true) then r0[p] == Free else r1[p] == r0[p]
  {
    forall p: nat | p < |r0| ensures if Uses(r1, p, t, true) then r0[p] == Free else r1[p] == r0[p] {
      assert r1[p] == r1[p];
    }
  }

  lemma Created(m0: seq<Page>, r0: seq<Role>, m1: seq<Page>, r1: seq<Role>, lo: nat, leader: nat, threads: seq<Entry>, t: Thread,
                n: nat, tramp: nat, full: bool)
    requires Sound(m0, r0) && GroupOk(m0, r0, lo, leader, threads, n, tramp, full)
    requires Taken(r0, r1, t) && OthersSame(m0, r0, m1, t.root) && lo <= t.tf
    requires ThreadOk(m1, r1, leader, t, n, true, tramp, true) && Group(r1, leader, Roots(threads) + [t.root])
    ensures GroupOk(m1, r1, lo, leader, threads + [Entry(t, true)], n, tramp, full)
  {
    var now := threads + [Entry(t, true)];
    assert Roots(now) == Roots(threads) + [t.root];
    UsesTaken(r0, m1, r1, leader, t, n, tramp);
    assert Uses(r1, t.tf, t, true) && Uses(r1, t.root, t, true);
    assert SameAt(m0, m1, leader);
    LeaderStays(m0, r0, m1, r1, leader, n);
    forall i | 0 <= i < |now|
      ensures lo <= now[i].t.tf && ThreadOk(m1, r1, leader, now[i].t, n, now[i].hasStack, tramp, full)
      ensures i < |threads| ==> now[i].t.tf != t.tf
    {
      if i < |threads| {
        assert Roots(threads)[i] == threads[i].t.root;
        assert ThreadOk(m0, r0, leader, threads[i].t, n, threads[i].hasStack, tramp, full);
        assert SameAt(m0, m1, threads[i].t.root);
        ThreadStays(m0, r0, m1, r1, leader, threads[i], n, tramp, full);
      }
    }
  }

  lemma CreatedAccounts(m0: seq<Page>, r0: seq<Role>, m1: seq<Page>, r1: seq<Role>, rest: seq<Role>, leader: nat, threads: seq<Entry>,
                        t: Thread, n: nat, tramp: nat)
    requires Sound(m0, r0) && Accounts(r0, rest, leader, threads) && Taken(r0, r1, t)
    requires ThreadOk(m1, r1, leader, t, n, true, tramp, true)
    ensures Accounts(r1, rest, leader, threads + [Entry(t, true)])
  {
    var now := threads + [Entry(t, true)];
    UsesTaken(r0, m1, r1, leader, t, n, tramp);
    forall p: nat | p < |r0| ensures r1[p] == r0[p] || (r0[p] == Free && Ours(r1, p, leader, now)) {
      if r1[p] != r0[p] { assert Uses(r1, p, now[|threads|].t, now[|threads|].hasStack); }
    }
    AccountsTook(m0, r0, r1, rest, leader, threads, now);
  }

  // ----- thread_exit -----

  lemma ExitedFits(m0: seq<Page>, r0: seq<Role>, m1: seq<Page>, r1: seq<Role>, lo: nat, leader: nat, threads: seq<Entry>, i: nat,
                   n: nat, tramp: nat, full: bool)
    requires GroupOk(m0, r0, lo, leader, threads, n, tramp, full) && i < |threads| && |m1| == |r1|
    requires FreedRange(r0, r1, threads[i].t.root, threads[i].t.stack, 1)
    requires Unmapped(m0, r0, m1, threads[i].t.root, threads[i].t.stack, 1)
    requires ThreadOk(m1, r1, leader, threads[i].t, n, false, tramp, full)
    ensures GroupOk(m1, r1, lo, leader, threads[i := Entry(threads[i].t, false)], n, tramp, full)
  {
    var now := threads[i := Entry(threads[i].t, false)];
    assert Roots(now) == Roots(threads);
    assert Roots(threads)[i] == threads[i].t.root;
    forall r: nat | IsRoot(r0, r) ensures IsRoot(r1, r) { assert r1[r] == r0[r]; }
    assert SameAt(m0, m1, leader);
    LeaderStays(m0, r0, m1, r1, leader, n);
    forall j | 0 <= j < |now|
      ensures lo <= now[j].t.tf && ThreadOk(m1, r1, leader, now[j].t, n, now[j].hasStack, tramp, full)
    {
      assert lo <= threads[j].t.tf;
      if j != i {
        assert Roots(threads)[j] == threads[j].t.root;
        assert SameAt(m0, m1, threads[j].t.root);
        ThreadStays(m0, r0, m1, r1, leader, threads[j], n, tramp, full);
      }
    }
    forall a, b | 0 <= a < b < |now| ensures now[a].t.tf != now[b].t.tf { assert threads[a].t.tf != threads[b].t.tf; }
  }

  lemma FreeIsNobodys(role: seq<Role>, p: nat, leader: nat, threads: seq<Entry>)
    requires p < |role| && role[p] == Free && IsRoot(role, leader)
    ensures !Ours(role, p, leader, threads)
  {
  }

  /** A page of user memory that is freed is in nobody's tree. */
  lemma TreesKept(r0: seq<Role>, r1: seq<Role>, root: nat, first: nat, n: nat, p: nat, leader: nat, threads: seq<Entry>)
    requires FreedRange(r0, r1, root, first, n) && p < |r0| && r1[p] == r0[p]
    ensures Ours(r1, p, leader, threads) <==> Ours(r0, p, leader, threads)
  {
    assert forall r: nat :: Under(r1, p, r) <==> Under(r0, p, r);
    forall i | 0 <= i < |threads|
      ensures Uses(r1, p, threads[i].t, threads[i].hasStack) <==> Uses(r0, p, threads[i].t, threads[i].hasStack)
    {
    }
  }

  lemma ExitedAccounts(r0: seq<Role>, r1: seq<Role>, rest: seq<Role>, leader: nat, threads: seq<Entry>, i: nat)
    requires Accounts(r0, rest, leader, threads) && i < |threads| && threads[i].hasStack
    requires IsRoot(r0, leader) && threads[i].t.root != leader && FreedRange(r0, r1, threads[i].t.root, threads[i].t.stack, 1)
    ensures Accounts(r1, rest, leader, threads[i := Entry(threads[i].t, false)])
  {
    var t, now := threads[i].t, threads[i := Entry(threads[i].t, false)];
    assert r1[leader] == r0[leader];
    forall p: nat | p < |r0| ensures
      if r1[p] == r0[p] then Ours(r1, p, leader, now) <==> Ours(r0, p, leader, threads)
      else r1[p] == Free && Ours(r0, p, leader, threads) && !Ours(r1, p, leader, now)
    {
      assert OwnedIn(r0[p], t.root, t.stack, 1) <==> r0[p] == Owned(t.root, t.stack);
      if r1[p] == r0[p] {
        TreesKept(r0, r1, t.root, t.stack, 1, p, leader, now);
        WithoutStack(r0, leader, threads, i, p);
      } else {
        assert Uses(r0, p, threads[i].t, threads[i].hasStack);
        FreeIsNobodys(r1, p, leader, now);
      }
    }
    AccountsFreed(r0, r1, rest, leader, threads, now);
  }

  lemma WithoutStack(role: seq<Role>, leader: nat, threads: seq<Entry>, i: nat, p: nat)
    requires i < |threads| && p < |role| && role[p] != Owned(threads[i].t.root, threads[i].t.stack)
    ensures Ours(role, p, leader, threads[i := Entry(threads[i].t, false)]) <==> Ours(role, p, leader, threads)
  {
    var now := threads[i := Entry(threads[i].t, false)];
    forall j | 0 <= j < |threads|
      ensures Uses(role, p, now[j].t, now[j].hasStack) <==> Uses(role, p, threads[j].t, threads[j].hasStack)
    {
    }
  }

  // ----- The reaping in thread_join -----

  function Without(threads: seq<Entry>, i: nat): seq<Entry>
    requires i < |threads|
  {
    threads[..i] + threads[i + 1..]
  }

  lemma OtherStays(m0: seq<Page>, r0: seq<Role>, m1: seq<Page>, r1: seq<Role>, lo: nat, leader: nat, threads: seq<Entry>, i: nat,
                   x: nat, n: nat, tramp: nat, full: bool)
    requires Sound(m0, r0) && GroupOk(m0, r0, lo, leader, threads, n, tramp, full)
    requires i < |threads| && x < |threads| && x != i && Reaped(m0, r0, m1, r1, threads[i].t)
    ensures lo <= threads[x].t.tf && IsRoot(r1, threads[x].t.root)
    ensures ThreadOk(m1, r1, leader, threads[x].t, n, threads[x].hasStack, tramp, full)
  {
    assert Roots(threads)[i] == threads[i].t.root && Roots(threads)[x] == threads[x].t.root;
    assert threads[x].t.tf != threads[i].t.tf;
    OtherKeeps(m0, r0, m1, r1, leader, threads[i].t, threads[x]);
    assert Uses(r0, threads[x].t.root, threads[x].t, threads[x].hasStack);
    assert SameAt(m0, m1, threads[x].t.root) && SameAt(m0, m1, leader);
    ThreadStays(m0, r0, m1, r1, leader, threads[x], n, tramp, full);
  }

  lemma ReapedFits(m0: seq<Page>, r0: seq<Role>, m1: seq<Page>, r1: seq<Role>, lo: nat, leader: nat, threads: seq<Entry>, i: nat,
                   n: nat, tramp: nat, full: bool)
    requires Sound(m0, r0) && GroupOk(m0, r0, lo, leader, threads, n, tramp, full)
    requires i < |threads| && Reaped(m0, r0, m1, r1, threads[i].t)
    ensures GroupOk(m1, r1, lo, leader, Without(threads, i), n, tramp, full)
  {
    var now := Without(threads, i);
    assert Roots(threads)[i] == threads[i].t.root;
    forall r: nat | IsRoot(r0, r) && r != threads[i].t.root ensures IsRoot(r1, r) && SameAt(m0, m1, r) {
      assert r != threads[i].t.tf && !Under(r0, r, threads[i].t.root);
    }
    assert SameAt(m0, m1, leader);
    LeaderStays(m0, r0, m1, r1, leader, n);
    forall j | 0 <= j < |now|
      ensures lo <= now[j].t.tf && IsRoot(r1, now[j].t.root) && ThreadOk(m1, r1, leader, now[j].t, n, now[j].hasStack, tramp, full)
    {
      var x := if j < i then j else j + 1;
      assert now[j] == threads[x];
      OtherStays(m0, r0, m1, r1, lo, leader, threads, i, x, n, tramp, full);
    }
    forall a, b | 0 <= a < b < |now| ensures now[a].t.tf != now[b].t.tf && Roots(now)[a] != Roots(now)[b] {
      var x, y := if a < i then a else a + 1, if b < i then b else b + 1;
      assert now[a] == threads[x] && now[b] == threads[y];
      assert Roots(threads)[x] != Roots(threads)[y];
    }
  }

  /** Reaping one thread frees nothing that another uses. */
  lemma OtherKeeps(m0: seq<Page>, r0: seq<Role>, m1: seq<Page>, r1: seq<Role>, leader: nat, t: Thread, e: Entry)
    requires Sound(m0, r0) && Reaped(m0, r0, m1, r1, t) && IsRoot(r0, t.root) && IsRoot(r0, e.t.root)
    requires t.root != e.t.root && t.tf != e.t.tf && t.tf < |r0| && r0[t.tf] == Other
    ensures forall p: nat {:trigger r1[p]} :: p < |r0| && Uses(r0, p, e.t, e.hasStack) ==> r1[p] == r0[p]
  {
    forall p: nat | p < |r0| && Uses(r0, p, e.t, e.hasStack) ensures r1[p] == r0[p] {
      if Under(r0, p, t.root) { OneTree(m0, r0, p, t.root, e.t.root); }
    }
  }

  /** A table lies in one tree only. */
  lemma OneTree(mem: seq<Page>, role: seq<Role>, p: nat, a: nat, b: nat)
    requires Sound(mem, role) && p < |role| && IsRoot(role, a) && IsRoot(role, b) && a != b
    requires Under(role, p, a)
    ensures !Under(role, p, b)
  {
    assert UpOk(mem, role, p);
    if role[p].Low? { assert UpOk(mem, role, role[p].parent); }
  }

  lemma ReapedAccounts(m0: seq<Page>, r0: seq<Role>, m1: seq<Page>, r1: seq<Role>, rest: seq<Role>, leader: nat, threads: seq<Entry>,
                       i: nat, lo: nat, n: nat, tramp: nat, full: bool)
    requires Sound(m0, r0) && Accounts(r0, rest, leader, threads) && GroupOk(m0, r0, lo, leader, threads, n, tramp, full)
    requires i < |threads| && !threads[i].hasStack && Reaped(m0, r0, m1, r1, threads[i].t)
    ensures Accounts(r1, rest, leader, Without(threads, i))
  {
    var t, now := threads[i].t, Without(threads, i);
    assert Roots(threads)[i] == t.root && ThreadOk(m0, r0, leader, t, n, false, tramp, full);
    assert !Under(r0, leader, t.root) && IsRoot(r1, leader);
    forall p: nat | p < |r0| ensures
      if r1[p] == r0[p] then Ours(r1, p, leader, now) <==> Ours(r0, p, leader, threads)
      else r1[p] == Free && Ours(r0, p, leader, threads) && !Ours(r1, p, leader, now)
    {
      assert r1[p] == if p == t.tf || Under(r0, p, t.root) then Free else r0[p];
      if p == t.tf || Under(r0, p, t.root) {
        assert Uses(r0, p, threads[i].t, threads[i].hasStack);
        FreeIsNobodys(r1, p, leader, now);
      } else {
        ReapedOurs(m0, r0, m1, r1, leader, threads, i, p);
      }
    }
    AccountsFreed(r0, r1, rest, leader, threads, now);
  }

  lemma ReapedOurs(m0: seq<Page>, r0: seq<Role>, m1: seq<Page>, r1: seq<Role>, leader: nat, threads: seq<Entry>, i: nat, p: nat)
    requires Sound(m0, r0) && Group(r0, leader, Roots(threads)) && i < |threads| && !threads[i].hasStack
    requires Reaped(m0, r0, m1, r1, threads[i].t) && p < |r0| && p != threads[i].t.tf && !Under(r0, p, threads[i].t.root)
    requires forall j {:trigger threads[j]} :: 0 <= j < |threads| ==> threads[j].t.tf < |r0| && r0[threads[j].t.tf] == Other
    ensures Ours(r1, p, leader, Without(threads, i)) <==> Ours(r0, p, leader, threads)
  {
    var t, now := threads[i].t, Without(threads, i);
    assert Roots(threads)[i] == t.root;
    assert UpOk(m0, r0, p);
    if r0[p].Mid? || r0[p].Low? {
      var q := r0[p].parent;
      assert UpOk(m0, r0, q);
      assert q != t.tf;
      assert !Under(r0, q, t.root);
      assert r1[q] == r0[q];
    }
    assert forall r: nat {:trigger Under(r1, p, r)} :: Under(r1, p, r) <==> Under(r0, p, r);
    forall j | 0 <= j < |now|
      ensures Uses(r1, p, now[j].t, now[j].hasStack) <==> Uses(r0, p, now[j].t, now[j].hasStack)
    {
      var x := if j < i then j else j + 1;
      assert now[j] == threads[x] && Roots(threads)[x] == threads[x].t.root;
      assert !Under(r0, threads[x].t.root, t.root);
    }
    assert !Uses(r0, p, threads[i].t, threads[i].hasStack);
    if x :| 0 <= x < |threads| && Uses(r0, p, threads[x].t, threads[x].hasStack) {
      var j := if x < i then x else x - 1;
      assert now[j] == threads[x];
      assert Uses(r1, p, now[j].t, now[j].hasStack);
    }
    if j :| 0 <= j < |now| && Uses(r1, p, now[j].t, now[j].hasStack) {
      var x := if j < i then j else j + 1;
      assert now[j] == threads[x];
      assert Uses(r0, p, threads[x].t, threads[x].hasStack);
    }
  }

  // ----- growproc -----

  /** The leader's map below page n is the same in both memories. */
  ghost predicate SameBelow(m0: seq<Page>, m1: seq<Page>, leader: nat, n: nat) {
    forall w: nat {:trigger Pte(m1, leader, w)} :: w < n ==> Pte(m1, leader, w) == Pte(m0, leader, w)
  }

  lemma GrownFits(m0: seq<Page>, r0: seq<Role>, m1: seq<Page>, r1: seq<Role>, lo: nat, leader: nat, threads: seq<Entry>,
                  first: nat, top: nat, tramp: nat, was: bool, full: bool)
    requires GroupOk(m0, r0, lo, leader, threads, first, tramp, was) && first <= top <= TRAPFRAME
    requires forall i {:trigger threads[i]} :: 0 <= i < |threads| ==> top <= threads[i].t.stack
    requires Spread(m0, r0, m1, r1, {leader} + Tables(Roots(threads)), leader, first, top)
    requires Group(r1, leader, Roots(threads)) && Members(m1, leader, Roots(threads), top, top, full)
    requires AllFresh(m1, r1, leader, first, top)
    ensures GroupOk(m1, r1, lo, leader, threads, top, tramp, full) && SameBelow(m0, m1, leader, first)
  {
    forall w: nat | w < top ensures OwnsPage(m1, r1, leader, w) {
      if w < first {
        assert Pte(m1, leader, w) == Pte(m0, leader, w);
        assert OwnsPage(m0, r0, leader, w);
      } else {
        assert Fresh(m1, r1, leader, w);
      }
    }
    forall w: nat | top <= w < TRAPFRAME ensures Pte(m1, leader, w) == 0 { assert Pte(m1, leader, w) == Pte(m0, leader, w); }
    forall i | 0 <= i < |threads|
      ensures lo <= threads[i].t.tf && ThreadOk(m1, r1, leader, threads[i].t, top, threads[i].hasStack, tramp, full)
    {
      var e := threads[i];
      GrowKeepsThread(m0, r0, m1, r1, leader, Roots(threads), i, e.t, first, top, e.hasStack, tramp, was, full);
    }
  }

  lemma GrownKeeps(m0: seq<Page>, r0: seq<Role>, m1: seq<Page>, r1: seq<Role>, rest: seq<Role>, lo: nat, leader: nat,
                   threads: seq<Entry>, first: nat, top: nat, tramp: nat, was: bool, full: bool)
    requires Sound(m0, r0) && GroupOk(m0, r0, lo, leader, threads, first, tramp, was) && Accounts(r0, rest, leader, threads)
    requires first <= top <= TRAPFRAME && forall i {:trigger threads[i]} :: 0 <= i < |threads| ==> top <= threads[i].t.stack
    requires Spread(m0, r0, m1, r1, {leader} + Tables(Roots(threads)), leader, first, top)
    requires Group(r1, leader, Roots(threads)) && Members(m1, leader, Roots(threads), top, top, was && full)
    requires AllFresh(m1, r1, leader, first, top) && (full ==> was)
    ensures GroupOk(m1, r1, lo, leader, threads, top, tramp, full) && Accounts(r1, rest, leader, threads)
    ensures SameBelow(m0, m1, leader, first) && RestSame(m0, m1, rest)
  {
    assert full == (was && full);
    GrownFits(m0, r0, m1, r1, lo, leader, threads, first, top, tramp, was, full);
    GrownAccounts(m0, r0, m1, r1, rest, leader, threads, first, top);
    OthersAreRest(m0, r0, m1, rest, leader, threads);
  }

  lemma GrownAccounts(m0: seq<Page>, r0: seq<Role>, m1: seq<Page>, r1: seq<Role>, rest: seq<Role>, leader: nat, threads: seq<Entry>,
                      first: nat, top: nat)
    requires Sound(m0, r0) && Accounts(r0, rest, leader, threads) && Group(r1, leader, Roots(threads))
    requires Spread(m0, r0, m1, r1, {leader} + Tables(Roots(threads)), leader, first, top)
    ensures Accounts(r1, rest, leader, threads)
  {
    var who := {leader} + Tables(Roots(threads));
    forall p: nat | p < |r0| ensures r1[p] == r0[p] || (r0[p] == Free && Ours(r1, p, leader, threads)) {
      if r1[p] != r0[p] && !OwnedIn(r1[p], leader, first, top - first) {
        var q :| q in who && InTree(r1, p, q);
        if q != leader {
          var i :| 0 <= i < |threads| && Roots(threads)[i] == q;
          assert Uses(r1, p, threads[i].t, threads[i].hasStack);
        }
      }
    }
    AccountsTook(m0, r0, r1, rest, leader, threads, threads);
  }

  /** uvmalloc failed: the leader may have more tables, and that is all. */
  lemma NotGrown(m0: seq<Page>, r0: seq<Role>, m1: seq<Page>, r1: seq<Role>, rest: seq<Role>, lo: nat, leader: nat,
                 threads: seq<Entry>, n: nat, tramp: nat, full: bool)
    requires Sound(m0, r0) && GroupOk(m0, r0, lo, leader, threads, n, tramp, full) && Accounts(r0, rest, leader, threads)
    requires Grew(m0, r0, m1, r1, leader) && SameMap(m0, r0, m1)
    ensures GroupOk(m1, r1, lo, leader, threads, n, tramp, full) && Accounts(r1, rest, leader, threads)
    ensures SameBelow(m0, m1, leader, n) && RestSame(m0, m1, rest)
  {
    OthersAreRest(m0, r0, m1, rest, leader, threads);
    GroupStays(m0, r0, m1, r1, leader, Roots(threads), leader);
    assert SameAt(m0, m1, leader);
    LeaderStays(m0, r0, m1, r1, leader, n);
    forall i | 0 <= i < |threads|
      ensures lo <= threads[i].t.tf && ThreadOk(m1, r1, leader, threads[i].t, n, threads[i].hasStack, tramp, full)
    {
      assert Roots(threads)[i] == threads[i].t.root;
      assert SameAt(m0, m1, threads[i].t.root);
      ThreadStays(m0, r0, m1, r1, leader, threads[i], n, tramp, full);
    }
    AccountsTook(m0, r0, r1, rest, leader, threads, threads);
  }

  lemma ShrunkFits(m0: seq<Page>, r0: seq<Role>, m1: seq<Page>, r1: seq<Role>, lo: nat, leader: nat, threads: seq<Entry>,
                   low: nat, high: nat, tramp: nat, full: bool)
    requires GroupOk(m0, r0, lo, leader, threads, high, tramp, full) && low <= high && |m1| == |r1|
    requires FreedRange(r0, r1, leader, low, high - low) && Group(r1, leader, Roots(threads))
    requires Withdrawn(m0, r0, m1, {leader} + Tables(Roots(threads)), low, high)
    requires Members(m1, leader, Roots(threads), low, high, full)
    ensures GroupOk(m1, r1, lo, leader, threads, low, tramp, full) && SameBelow(m0, m1, leader, low)
  {
    forall w: nat | w < low ensures OwnsPage(m1, r1, leader, w) {
      assert Pte(m1, leader, w) == Pte(m0, leader, w);
      assert OwnsPage(m0, r0, leader, w);
    }
    forall w: nat | low <= w < TRAPFRAME ensures Pte(m1, leader, w) == 0 {
      assert Pte(m1, leader, w) == if low <= w < high then 0 else Pte(m0, leader, w);
    }
    forall i | 0 <= i < |threads|
      ensures lo <= threads[i].t.tf && ThreadOk(m1, r1, leader, threads[i].t, low, threads[i].hasStack, tramp, full)
    {
      var e := threads[i];
      ShrinkKeepsThread(m0, r0, m1, r1, leader, Roots(threads), i, e.t, low, high, e.hasStack, tramp, full);
    }
  }

  lemma ShrunkAccounts(r0: seq<Role>, r1: seq<Role>, rest: seq<Role>, leader: nat, threads: seq<Entry>, low: nat, high: nat)
    requires Accounts(r0, rest, leader, threads) && IsRoot(r0, leader) && low <= high
    requires FreedRange(r0, r1, leader, low, high - low)
    ensures Accounts(r1, rest, leader, threads)
  {
    assert r1[leader] == r0[leader];
    forall p: nat | p < |r0| ensures
      if r1[p] == r0[p] then Ours(r1, p, leader, threads) <==> Ours(r0, p, leader, threads)
      else r1[p] == Free && Ours(r0, p, leader, threads) && !Ours(r1, p, leader, threads)
    {
      if r1[p] == r0[p] {
        TreesKept(r0, r1, leader, low, high - low, p, leader, threads);
      } else {
        FreeIsNobodys(r1, p, leader, threads);
      }
    }
    AccountsFreed(r0, r1, rest, leader, threads, threads);
  }

  lemma ShrunkKeeps(m0: seq<Page>, r0: seq<Role>, m1: seq<Page>, r1: seq<Role>, rest: seq<Role>, lo: nat, leader: nat,
                    threads: seq<Entry>, low: nat, high: nat, tramp: nat, full: bool)
    requires GroupOk(m0, r0, lo, leader, threads, high, tramp, full) && low <= high && |m1| == |r1|
    requires Accounts(r0, rest, leader, threads)
    requires FreedRange(r0, r1, leader, low, high - low) && Group(r1, leader, Roots(threads))
    requires Withdrawn(m0, r0, m1, {leader} + Tables(Roots(threads)), low, high)
    requires Members(m1, leader, Roots(threads), low, high, full)
    ensures GroupOk(m1, r1, lo, leader, threads, low, tramp, full) && Accounts(r1, rest, leader, threads)
    ensures SameBelow(m0, m1, leader, low) && RestSame(m0, m1, rest)
  {
    ShrunkFits(m0, r0, m1, r1, lo, leader, threads, low, high, tramp, full);
    ShrunkAccounts(r0, r1, rest, leader, threads, low, high);
    OthersAreRest(m0, r0, m1, rest, leader, threads);
  }

  /** A call that changes nothing but the maps of the group in some range leaves the rest alone. */
  lemma OthersAreRest(m0: seq<Page>, r0: seq<Role>, m1: seq<Page>, rest: seq<Role>, leader: nat, threads: seq<Entry>)
    requires Accounts(r0, rest, leader, threads) && Group(r0, leader, Roots(threads))
    requires forall r: nat, v: nat {:trigger Pte(m1, r, v)} ::
               IsRoot(r0, r) && r != leader && r !in Roots(threads) && v < VPNS ==> Pte(m1, r, v) == Pte(m0, r, v)
    ensures RestSame(m0, m1, rest)
  {
    forall r: nat, v: nat | IsRoot(rest, r) && v < VPNS ensures Pte(m1, r, v) == Pte(m0, r, v) {
      RestIsElsewhere(r0, rest, leader, threads, r);
    }
  }

  /** The free list gets no shorter when no free page is taken. */
  lemma FreeMore(r0: seq<Role>, l0: seq<nat>, r1: seq<Role>, l1: seq<nat>, lo: nat)
    requires FreeOk(r0, l0, lo) && FreeOk(r1, l1, lo) && |r1| == |r0|
    requires forall p: nat {:trigger r1[p]} :: p < |r0| && r0[p] == Free ==> r1[p] == Free
    ensures |l0| <= |l1|
  {
    forall p: nat ensures multiset(l0)[p] <= multiset(l1)[p] {
      if p < |r0| {
        EachPageOnce(r0, l0, lo, p);
        EachPageOnce(r1, l1, lo, p);
      } else {
        assert p !in l0;
      }
    }
    assert multiset(l0) <= multiset(l1);
    assert |multiset(l0)| == |l0| && |multiset(l1)| == |l1|;
    assert multiset(l1) == multiset(l0) + (multiset(l1) - multiset(l0));
  }

  /**
  What growing takes from the free list: it fails only when there are fewer than three free pages for each new one, and
  threads come to lack pages only if the list ran out, and was too short to begin with.
  */
  ghost predicate Paid(before: seq<nat>, after: seq<nat>, threads: nat, pages: nat, ok: bool, was: bool, lacking: bool) {
    if ok then
      && Spent(before, after, GrowCost(threads, pages))
      && (lacking ==> was || (after == [] && |before| < GrowCost(threads, pages)))
    else
      lacking == was && |before| < 3 * pages
  }

  lemma EnoughToGrow(before: seq<nat>, after: seq<nat>, threads: nat, pages: nat, ok: bool, was: bool, lacking: bool)
    requires Paid(before, after, threads, pages, ok, was, lacking)
    ensures |before| >= GrowCost(threads, pages) ==>
              ok && (lacking ==> was) && |after| + GrowCost(threads, pages) >= |before|
  {
  }

  /** growproc's part in the tables, n > 0. */
  method GrowTables(k: Kmem, leader: nat, threads: seq<Entry>, sz: nat, n: nat, ghost tramp: nat, ghost rest: seq<Role>,
                    ghost starved: bool) returns (ok: bool, ghost lacking: bool)
    requires VmOk(k) && GroupOk(k.mem, k.role, k.lo, leader, threads, PgUp(sz), tramp, !starved)
    requires Accounts(k.role, rest, leader, threads) && n > 0 && PgUp(sz + n) <= TRAPFRAME
    requires forall i {:trigger threads[i]} :: 0 <= i < |threads| ==> PgUp(sz + n) <= threads[i].t.stack
    modifies k
    ensures VmOk(k) && Accounts(k.role, rest, leader, threads)
    ensures ok ==> GroupOk(k.mem, k.role, k.lo, leader, threads, PgUp(sz + n), tramp, !lacking)
    ensures !ok ==> GroupOk(k.mem, k.role, k.lo, leader, threads, PgUp(sz), tramp, !lacking)
    ensures RestSame(old(k.mem), k.mem, rest) && SameBelow(old(k.mem), k.mem, leader, PgUp(sz))
    ensures ok ==> AllFresh(k.mem, k.role, leader, PgUp(sz), PgUp(sz + n))
    ensures Paid(old(k.list), k.list, |threads|, PgUp(sz + n) - PgUp(sz), ok, starved, lacking)
  {
    ghost var m0, r0, first, top := k.mem, k.role, PgUp(sz), PgUp(sz + n);
    MembersOf(m0, r0, k.lo, leader, threads, first, tramp, !starved, top);
    var x;
    ghost var complete;
    x, complete := GrowGroup(k, leader, Roots(threads), sz, n, !starved);
    ok := x == 0;
    if ok {
      lacking := starved || !complete;
      GrownKeeps(m0, r0, k.mem, k.role, rest, k.lo, leader, threads, first, top, tramp, !starved, !lacking);
    } else {
      lacking := starved;
      NotGrown(m0, r0, k.mem, k.role, rest, k.lo, leader, threads, first, tramp, !starved);
    }
  }

  /** growproc's part in the tables for n < 0; false is uvmunmap's panic. */
  method ShrinkTables(k: Kmem, leader: nat, threads: seq<Entry>, sz: nat, newsz: nat, ghost tramp: nat, ghost rest: seq<Role>,
                      ghost full: bool) returns (ok: bool)
    requires VmOk(k) && GroupOk(k.mem, k.role, k.lo, leader, threads, PgUp(sz), tramp, full)
    requires Accounts(k.role, rest, leader, threads) && newsz < sz
    modifies k
    ensures ok <==> Droppable(old(k.mem), Roots(threads), PgUp(newsz), PgUp(sz))
    ensures ok ==> VmOk(k) && Accounts(k.role, rest, leader, threads)
    ensures ok ==> GroupOk(k.mem, k.role, k.lo, leader, threads, PgUp(newsz), tramp, full)
    ensures ok ==> RestSame(old(k.mem), k.mem, rest) && SameBelow(old(k.mem), k.mem, leader, PgUp(newsz))
    ensures ok ==> |k.list| >= |old(k.list)|
  {
    ghost var m0, r0, l0, low, high := k.mem, k.role, k.list, PgUp(newsz), PgUp(sz);
    MembersOf(m0, r0, k.lo, leader, threads, high, tramp, full, high);
    NoneOwnedBelow(m0, r0, k.lo, leader, threads, high, tramp, full, low);
    ok := ShrinkGroup(k, leader, Roots(threads), sz, newsz, full);
    if ok {
      ShrunkKeeps(m0, r0, k.mem, k.role, rest, k.lo, leader, threads, low, high, tramp, full);
      FreeMore(r0, l0, k.role, k.list, k.lo);
    }
  }

  ghost predicate AllUser(mem: seq<Page>, leader: nat, n: nat) {
    forall w: nat {:trigger Pte(mem, leader, w)} :: w < n ==> IsUser(Pte(mem, leader, w))
  }

  lemma UserKept(m0: seq<Page>, m1: seq<Page>, leader: nat, n: nat)
    requires SameAt(m0, m1, leader) && n <= VPNS
    ensures AllUser(m0, leader, n) ==> AllUser(m1, leader, n)
  {
  }

  lemma UserGrown(m0: seq<Page>, m1: seq<Page>, r1: seq<Role>, leader: nat, first: nat, top: nat)
    requires SameBelow(m0, m1, leader, first) && AllFresh(m1, r1, leader, first, top)
    ensures AllUser(m0, leader, first) ==> AllUser(m1, leader, top)
  {
    forall w: nat | w < top && AllUser(m0, leader, first) ensures IsUser(Pte(m1, leader, w)) {
      if w >= first {
        assert Fresh(m1, r1, leader, w);
        Grown1Shared(Pte(m1, leader, w));
      }
    }
  }

  lemma AllDroppable(mem: seq<Page>, role: seq<Role>, lo: nat, leader: nat, threads: seq<Entry>, n: nat, tramp: nat)
    requires Sound(mem, role) && GroupOk(mem, role, lo, leader, threads, n, tramp, true) && AllUser(mem, leader, n)
    ensures forall low: nat :: Droppable(mem, Roots(threads), low, n)
  {
    MembersOf(mem, role, lo, leader, threads, n, tramp, true, n);
    MembersAgree(mem, leader, Roots(threads), n);
    forall v: nat | v < n ensures AllMap(mem, Roots(threads), v) {
      forall i | 0 <= i < |threads| ensures IsValid(Pte(mem, Roots(threads)[i], v)) {
        LeafOfTree(mem, role, leader, v);
        SharedIsValid(Pte(mem, leader, v));
        assert Pte(mem, Roots(threads)[i], v) == Want(mem, leader, v);
      }
    }
  }

  // ----- The group as an object -----

  datatype Growth = Done | TooLittle | Panic

  /** The leader's process and its threads in the process table. */
  class ThreadGroup {
    const k: Kmem
    const leader: nat                // leader->pagetable
    const tramp: nat
    var sz: nat                      // p->sz of the leader and of every thread
    var threads: seq<Entry>
    ghost var starved: bool          // some mappages that growproc ignored has failed
    ghost const rest: seq<Role>      // what the pages are used for that are not the group's

    ghost predicate Valid()
      reads this, k
    {
      && VmOk(k) && GroupOk(k.mem, k.role, k.lo, leader, threads, PgUp(sz), tramp, !starved)
      && Accounts(k.role, rest, leader, threads)
    }

    lemma Stands(n: nat, full: bool)
      requires VmOk(k) && GroupOk(k.mem, k.role, k.lo, leader, threads, n, tramp, full) && Accounts(k.role, rest, leader, threads)
      requires n == PgUp(sz) && full == !starved
      ensures Valid()
    {
    }

    /** A process without threads. */
    constructor (k: Kmem, leader: nat, tramp: nat, sz: nat)
      requires VmOk(k) && IsRoot(k.role, leader) && PgUp(sz) <= TRAPFRAME && LeaderOk(k.mem, k.role, leader, PgUp(sz))
      ensures Valid() && this.k == k && this.leader == leader && this.sz == sz && threads == [] && !starved
      ensures forall p: nat {:trigger rest[p]} :: p < |rest| ==> rest[p] == if Ours(k.role, p, leader, []) then Free else k.role[p]
    {
      this.k, this.leader, this.tramp, this.sz, threads, starved := k, leader, tramp, sz, [], false;
      rest := seq(|k.role|, p requires 0 <= p < |k.role| reads k => if Ours(k.role, p, leader, []) then Free else k.role[p]);
    }

    /** thread_create. */
    method Create(stack: nat) returns (o: Outcome)
      requires Valid() && PgUp(sz) <= stack < TRAPFRAME
      modifies this`threads, k
      ensures !o.Abandoned? ==> Valid() && RestSame(old(k.mem), k.mem, rest) && SameAt(old(k.mem), k.mem, leader)
      ensures o.Abandoned? ==> VmOk(k) && TookOnly(old(k.mem), old(k.role), k.mem, k.role)
      ensures o.Made? ==> o.t.stack == stack && threads == old(threads) + [Entry(o.t, true)]
      ensures !o.Made? ==> threads == old(threads)
      ensures if o.Made? then Spent(old(k.list), k.list, 2 * PgUp(sz) + 9) else |old(k.list)| < 2 * PgUp(sz) + 9
    {
      ghost var m0, r0, n := k.mem, k.role, PgUp(sz);
      MembersOf(m0, r0, k.lo, leader, threads, n, tramp, !starved, n);
      o := JoinGroup(k, leader, Roots(threads), stack, PgUp(sz), PgUp(sz), tramp, !starved);
      match o
      case Made(t) =>
        Created(m0, r0, k.mem, k.role, k.lo, leader, threads, t, n, tramp, !starved);
        CreatedAccounts(m0, r0, k.mem, k.role, rest, leader, threads, t, n, tramp);
        CreatedElsewhere(m0, r0, k.mem, k.role, rest, leader, threads, t, n, tramp);
        threads := threads + [Entry(t, true)];
      case NoMemory =>
        NothingChanged(m0, r0, k.mem, rest, k.lo, leader, threads, n, tramp, !starved);
      case Abandoned =>
    }

    /** thread_exit by thread i. */
    method Exit(i: nat)
      requires Valid() && i < |threads| && threads[i].hasStack
      modifies this`threads, k
      ensures Valid() && RestSame(old(k.mem), k.mem, rest) && SameAt(old(k.mem), k.mem, leader)
      ensures threads == old(threads)[i := Entry(old(threads)[i].t, false)]
      ensures |k.list| >= |old(k.list)|
    {
      ghost var m0, r0, l0, n := k.mem, k.role, k.list, PgUp(sz);
      assert Roots(threads)[i] == threads[i].t.root;
      FreeStack(k, leader, threads[i].t, n, tramp, !starved);
      ExitedFits(m0, r0, k.mem, k.role, k.lo, leader, threads, i, n, tramp, !starved);
      ExitedAccounts(r0, k.role, rest, leader, threads, i);
      OthersAreRest(m0, r0, k.mem, rest, leader, threads);
      FreeMore(r0, l0, k.role, k.list, k.lo);
      threads := threads[i := Entry(threads[i].t, false)];
    }

    /** thread_join reaps thread i, which has exited. */
    method Reap(i: nat)
      requires Valid() && i < |threads| && !threads[i].hasStack
      modifies this`threads, k
      ensures Valid() && RestSame(old(k.mem), k.mem, rest) && SameAt(old(k.mem), k.mem, leader)
      ensures threads == Without(old(threads), i) && |k.list| >= |old(k.list)|
    {
      ghost var m0, r0, l0, n := k.mem, k.role, k.list, PgUp(sz);
      assert Roots(threads)[i] == threads[i].t.root;
      FreeprocThread(k, leader, threads[i].t, PgUp(sz), tramp, !starved);
      ReapedFits(m0, r0, k.mem, k.role, k.lo, leader, threads, i, n, tramp, !starved);
      ReapedAccounts(m0, r0, k.mem, k.role, rest, leader, threads, i, k.lo, n, tramp, !starved);
      OthersAreRest(m0, r0, k.mem, rest, leader, threads);
      FreeMore(r0, l0, k.role, k.list, k.lo);
      threads := Without(threads, i);
    }

    /** growproc(n) for n > 0. */
    method Grow(n: nat) returns (r: Growth)
      requires Valid() && n > 0 && PgUp(sz + n) <= TRAPFRAME
      requires forall i {:trigger threads[i]} :: 0 <= i < |threads| ==> PgUp(sz + n) <= threads[i].t.stack
      modifies this`sz, this`starved, k
      ensures !r.Panic? && Valid() && RestSame(old(k.mem), k.mem, rest)
      ensures sz == if r.Done? then old(sz) + n else old(sz)
      ensures SameBelow(old(k.mem), k.mem, leader, PgUp(old(sz)))
      ensures r.Done? ==> AllFresh(k.mem, k.role, leader, PgUp(old(sz)), PgUp(old(sz) + n))
      ensures Paid(old(k.list), k.list, |threads|, PgUp(old(sz) + n) - PgUp(old(sz)), r.Done?, old(starved), starved)
    {
      var ok;
      ghost var lacking;
      ok, lacking := GrowTables(k, leader, threads, sz, n, tramp, rest, starved);
      if ok {
        sz, starved, r := sz + n, lacking, Done;
      } else {
        r := TooLittle;
      }
      Stands(PgUp(sz), !starved);
    }

    /** growproc(-n) for n > 0; a size below zero wraps round to a large one, and nothing happens. */
    method Shrink(n: nat) returns (r: Growth)
      requires Valid() && n > 0
      modifies this`sz, k
      ensures r.Panic? <==> n <= old(sz) && !Droppable(old(k.mem), Roots(threads), PgUp(old(sz) - n), PgUp(old(sz)))
      ensures !r.Panic? ==> r.Done? && Valid() && RestSame(old(k.mem), k.mem, rest) && |k.list| >= |old(k.list)|
      ensures !r.Panic? ==> sz == if n <= old(sz) then old(sz) - n else old(sz)
      ensures !r.Panic? ==> SameBelow(old(k.mem), k.mem, leader, PgUp(sz))
    {
      if n > sz { return Done; }
      var newsz := sz - n;
      var ok := ShrinkTables(k, leader, threads, sz, newsz, tramp, rest, !starved);
      if !ok { return Panic; }
      sz, r := newsz, Done;
      Stands(PgUp(sz), !starved);
    }

    /** The state as the calls see it. */
    function Now(): Shape
      reads this
    {
      ShapeOf(sz, threads)
    }

    /** No thread lacks a page, and the leader has no page, such as a stack guard, that is not for the user. */
    ghost predicate Smooth()
      reads this, k
    {
      !starved && AllUser(k.mem, leader, PgUp(sz))
    }

    /** One call. A call that is not possible here is not made; `halted` is the panic of a shrinking growproc, or a
        thread_create that gives up halfway, after which the source frees pages that are shared. */
    method Do(c: Call) returns (halted: bool)
      requires Valid()
      modifies this, k
      ensures !halted ==> Valid() && RestSame(old(k.mem), k.mem, rest)
      ensures !halted ==> Takes(old(Now()), c, Now(), |old(k.list)|)
      ensures halted ==>
                || (c.Spawn? && |old(k.list)| < Cost(old(Now()), c))
                || (c.Sbrk? && c.n < 0 && Blocked(old(k.mem), old(threads), old(sz), c.n))
      ensures old(Smooth()) && |old(k.list)| >= Cost(old(Now()), c) ==>
                !halted && Smooth() && Now() == After(old(Now()), c) && |k.list| + Cost(old(Now()), c) >= |old(k.list)|
    {
      if !Possible(Now(), c) { return false; }
      match c
      case Spawn(stack) => halted := DoSpawn(stack);
      case Quit(i) => DoQuit(i); halted := false;
      case Join(i) => DoJoin(i); halted := false;
      case Sbrk(n) => halted := DoSbrk(n);
    }

    method DoSpawn(stack: nat) returns (halted: bool)
      requires Valid() && PgUp(sz) <= stack < TRAPFRAME
      modifies this`threads, k
      ensures !halted ==> Valid() && RestSame(old(k.mem), k.mem, rest)
      ensures !halted ==> Takes(old(Now()), Spawn(stack), Now(), |old(k.list)|)
      ensures halted ==> |old(k.list)| < 2 * PgUp(sz) + 9
      ensures old(Smooth()) && |old(k.list)| >= 2 * PgUp(sz) + 9 ==>
                !halted && Smooth() && Now() == After(old(Now()), Spawn(stack)) && |k.list| + 2 * PgUp(sz) + 9 >= |old(k.list)|
    {
      ghost var m0, was := k.mem, threads;
      var o := Create(stack);
      halted := o.Abandoned?;
      if !halted { UserKept(m0, k.mem, leader, PgUp(sz)); }
      if o.Made? { ShapeAdd(sz, was, Entry(o.t, true)); }
    }

    method DoQuit(i: nat)
      requires Valid() && i < |threads| && threads[i].hasStack
      modifies this`threads, k
      ensures Valid() && RestSame(old(k.mem), k.mem, rest) && |k.list| >= |old(k.list)|
      ensures old(Smooth()) ==> Smooth()
      ensures Now() == After(old(Now()), Quit(i))
    {
      ghost var m0 := k.mem;
      ShapeSet(sz, threads, i, Entry(threads[i].t, false));
      Exit(i);
      UserKept(m0, k.mem, leader, PgUp(sz));
    }

    method DoJoin(i: nat)
      requires Valid() && i < |threads| && !threads[i].hasStack
      modifies this`threads, k
      ensures Valid() && RestSame(old(k.mem), k.mem, rest) && |k.list| >= |old(k.list)|
      ensures old(Smooth()) ==> Smooth()
      ensures Now() == After(old(Now()), Join(i))
    {
      ghost var m0 := k.mem;
      ShapeLess(sz, threads, i);
      Reap(i);
      UserKept(m0, k.mem, leader, PgUp(sz));
    }

    /** growproc. */
    method DoSbrk(n: int) returns (halted: bool)
      requires Valid() && Possible(Now(), Sbrk(n))
      modifies this`sz, this`starved, k
      ensures !halted ==> Valid() && RestSame(old(k.mem), k.mem, rest)
      ensures !halted ==> Takes(old(Now()), Sbrk(n), Now(), |old(k.list)|)
      ensures halted ==> n < 0 && Blocked(old(k.mem), threads, old(sz), n)
      ensures old(Smooth()) && |old(k.list)| >= Cost(old(Now()), Sbrk(n)) ==>
                !halted && Smooth() && Now() == After(old(Now()), Sbrk(n)) && |k.list| + Cost(old(Now()), Sbrk(n)) >= |old(k.list)|
    {
      halted := false;
      if n < 0 {
        halted := DoShrink(-n);
      } else if n > 0 {
        ShapeStacks(sz, threads, PgUp(sz + n));
        DoGrow(n);
      }
    }

    method DoGrow(n: nat)
      requires Valid() && n > 0 && PgUp(sz + n) <= TRAPFRAME
      requires forall i {:trigger threads[i]} :: 0 <= i < |threads| ==> PgUp(sz + n) <= threads[i].t.stack
      modifies this`sz, this`starved, k
      ensures Valid() && RestSame(old(k.mem), k.mem, rest)
      ensures sz == old(sz) + n || (sz == old(sz) && |old(k.list)| < GrowCost(|threads|, PgUp(old(sz) + n) - PgUp(old(sz))))
      ensures old(Smooth()) && |old(k.list)| >= GrowCost(|threads|, PgUp(old(sz) + n) - PgUp(old(sz))) ==>
                && Smooth() && sz == old(sz) + n
                && |k.list| + GrowCost(|threads|, PgUp(old(sz) + n) - PgUp(old(sz))) >= |old(k.list)|
    {
      ghost var m0, l0, was, first, top := k.mem, k.list, starved, PgUp(sz), PgUp(sz + n);
      var r := Grow(n);
      EnoughToGrow(l0, k.list, |threads|, top - first, r.Done?, was, starved);
      if r.Done? {
        UserGrown(m0, k.mem, k.role, leader, first, top);
        assert PgUp(sz) == top;
      }
    }

    method DoShrink(n: nat) returns (halted: bool)
      requires Valid() && n > 0
      modifies this`sz, k
      ensures !halted ==> Valid() && RestSame(old(k.mem), k.mem, rest)
      ensures halted <==> Blocked(old(k.mem), threads, old(sz), 0 - n)
      ensures !halted ==> sz == if n <= old(sz) then old(sz) - n else old(sz)
      ensures old(Smooth()) ==>
                !halted && Smooth() && sz == (if n <= old(sz) then old(sz) - n else old(sz)) && |k.list| >= |old(k.list)|
    {
      if Smooth() { AllDroppable(k.mem, k.role, k.lo, leader, threads, PgUp(sz), tramp); }
      var r := Shrink(n);
      halted := r.Panic?;
    }

    /**
    Any sequence of calls: unless one halts, the group is in order, all its pages are accounted for and no other address
    space has changed; each call has done what it asks for, or nothing for want of memory. With enough free pages to begin
    with none halts, and the sizes and threads are those asked for.
    */
    method DoAll(calls: seq<Call>) returns (halted: bool)
      requires Valid()
      modifies this, k
      ensures !halted ==> Valid() && RestSame(old(k.mem), k.mem, rest)
      ensures !halted ==> MayEnd(old(Now()), calls, Now())
      ensures old(Smooth()) && |old(k.list)| >= Budget(old(Now()), calls) ==>
                !halted && Smooth() && Now() == Final(old(Now()), calls)
      decreases |calls|
    {
      halted := false;
      if calls != [] {
        halted := Do(calls[0]);
        if !halted { halted := DoAll(calls[1..]); }
      }
    }
  }

  // ----- The calls, as their callers see them -----

  datatype Call = Spawn(stack: nat) | Quit(i: nat) | Join(i: nat) | Sbrk(n: int)

  datatype Stack = Stack(at: nat, there: bool)

  datatype Shape = Shape(sz: nat, stacks: seq<Stack>)

  function ShapeOf(sz: nat, threads: seq<Entry>): Shape {
    Shape(sz, seq(|threads|, i requires 0 <= i < |threads| => Stack(threads[i].t.stack, threads[i].hasStack)))
  }

  lemma ShapeAdd(sz: nat, threads: seq<Entry>, e: Entry)
    ensures ShapeOf(sz, threads + [e]) == Shape(sz, ShapeOf(sz, threads).stacks + [Stack(e.t.stack, e.hasStack)])
  {
  }

  lemma ShapeSet(sz: nat, threads: seq<Entry>, i: nat, e: Entry)
    requires i < |threads|
    ensures ShapeOf(sz, threads[i := e]) == Shape(sz, ShapeOf(sz, threads).stacks[i := Stack(e.t.stack, e.hasStack)])
  {
  }

  lemma ShapeLess(sz: nat, threads: seq<Entry>, i: nat)
    requires i < |threads|
    ensures ShapeOf(sz, Without(threads, i))
         == Shape(sz, ShapeOf(sz, threads).stacks[..i] + ShapeOf(sz, threads).stacks[i + 1..])
  {
  }

  lemma ShapeStacks(sz: nat, threads: seq<Entry>, top: nat)
    requires forall i :: 0 <= i < |threads| ==> top <= ShapeOf(sz, threads).stacks[i].at
    ensures forall i {:trigger threads[i]} :: 0 <= i < |threads| ==> top <= threads[i].t.stack
  {
    forall i | 0 <= i < |threads| ensures top <= threads[i].t.stack {
      assert ShapeOf(sz, threads).stacks[i].at == threads[i].t.stack;
    }
  }

  /** The thread is there to make the call; memory ends below the stacks. */
  predicate Possible(s: Shape, c: Call) {
    match c
    case Spawn(stack) => PgUp(s.sz) <= stack < TRAPFRAME
    case Quit(i) => i < |s.stacks| && s.stacks[i].there
    case Join(i) => i < |s.stacks| && !s.stacks[i].there
    case Sbrk(n) => n > 0 ==> PgUp(s.sz + n) <= TRAPFRAME && forall i :: 0 <= i < |s.stacks| ==> PgUp(s.sz + n) <= s.stacks[i].at
  }

  function After(s: Shape, c: Call): Shape {
    if !Possible(s, c) then s else
      match c
      case Spawn(stack) => Shape(s.sz, s.stacks + [Stack(stack, true)])
      case Quit(i) => Shape(s.sz, s.stacks[i := Stack(s.stacks[i].at, false)])
      case Join(i) => Shape(s.sz, s.stacks[..i] + s.stacks[i + 1..])
      case Sbrk(n) => Shape(if s.sz + n >= 0 then s.sz + n else s.sz, s.stacks)
  }

  /** So many free pages are enough for the call. */
  function Cost(s: Shape, c: Call): nat {
    match c
    case Spawn(_) => 2 * PgUp(s.sz) + 9
    case Sbrk(n) => if n > 0 then GrowCost(|s.stacks|, PgUp(s.sz + n) - PgUp(s.sz)) else 0
    case _ => 0
  }

  /** The call has taken effect, or not at all, and then there were too few free pages. */
  predicate Takes(s: Shape, c: Call, t: Shape, pages: nat) {
    t == After(s, c) || (t == s && pages < Cost(s, c))
  }

  /** Where the calls may lead: each that costs memory may have failed. */
  predicate MayEnd(s: Shape, calls: seq<Call>, t: Shape)
    decreases |calls|
  {
    if calls == [] then t == s
    else MayEnd(After(s, calls[0]), calls[1..], t) || (Cost(s, calls[0]) > 0 && MayEnd(s, calls[1..], t))
  }

  /** growproc(n) for n < 0 panics: some thread lacks one of the pages. */
  ghost predicate Blocked(mem: seq<Page>, threads: seq<Entry>, sz: nat, n: int)
    requires n < 0
  {
    sz + n >= 0 && !Droppable(mem, Roots(threads), PgUp(sz + n), PgUp(sz))
  }

  function Final(s: Shape, calls: seq<Call>): Shape
    decreases |calls|
  {
    if calls == [] then s else Final(After(s, calls[0]), calls[1..])
  }

  function Budget(s: Shape, calls: seq<Call>): nat
    decreases |calls|
  {
    if calls == [] then 0 else Cost(s, calls[0]) + Budget(After(s, calls[0]), calls[1..])
  }

  lemma NothingChanged(m0: seq<Page>, r0: seq<Role>, m1: seq<Page>, rest: seq<Role>, lo: nat, leader: nat, threads: seq<Entry>,
                       n: nat, tramp: nat, full: bool)
    requires GroupOk(m0, r0, lo, leader, threads, n, tramp, full) && Accounts(r0, rest, leader, threads)
    requires SameMap(m0, r0, m1) && |m1| == |r0|
    ensures GroupOk(m1, r0, lo, leader, threads, n, tramp, full) && RestSame(m0, m1, rest) && SameAt(m0, m1, leader)
  {
    assert SameAt(m0, m1, leader);
    LeaderStays(m0, r0, m1, r0, leader, n);
    forall i | 0 <= i < |threads|
      ensures lo <= threads[i].t.tf && ThreadOk(m1, r0, leader, threads[i].t, n, threads[i].hasStack, tramp, full)
    {
      assert Roots(threads)[i] == threads[i].t.root;
      assert SameAt(m0, m1, threads[i].t.root);
      ThreadStays(m0, r0, m1, r0, leader, threads[i], n, tramp, full);
    }
    OthersAreRest(m0, r0, m1, rest, leader, threads);
  }

  lemma CreatedElsewhere(m0: seq<Page>, r0: seq<Role>, m1: seq<Page>, r1: seq<Role>, rest: seq<Role>, leader: nat, threads: seq<Entry>,
                         t: Thread, n: nat, tramp: nat)
    requires Accounts(r0, rest, leader, threads) && Group(r0, leader, Roots(threads)) && Taken(r0, r1, t)
    requires OthersSame(m0, r0, m1, t.root) && ThreadOk(m1, r1, leader, t, n, true, tramp, true)
    ensures RestSame(m0, m1, rest)
  {
    assert Under(r1, t.root, t.root) && r0[t.root] == Free;
    OthersAreRest(m0, r0, m1, rest, leader, threads);
  }

  // ----- What holds after any sequence of calls -----

  /**
  Below the size a thread maps only what the leader maps for the user, the same page, and that page is the leader's own;
  it maps every such page unless a mappages has failed. Above it maps its stack while it has one, and that page is its own.
  */
  lemma TablesAgree(g: ThreadGroup, i: nat, v: nat)
    requires g.Valid() && i < |g.threads| && v < TRAPFRAME
    ensures var e, l, t := Pte(g.k.mem, g.threads[i].t.root, v), Pte(g.k.mem, g.leader, v), g.threads[i].t;
      if v < PgUp(g.sz) then
        && (IsValid(e) ==> IsUser(l) && Ppn(e) == Ppn(l) && Ppn(e) < |g.k.role| && g.k.role[Ppn(e)] == Owned(g.leader, v))
        && (!g.starved ==> (IsValid(e) <==> IsUser(l)))
      else if v == t.stack && g.threads[i].hasStack then
        IsValid(e) && Ppn(e) < |g.k.role| && g.k.role[Ppn(e)] == Owned(t.root, v)
      else
        e == 0
  {
    var n := PgUp(g.sz);
    assert ThreadOk(g.k.mem, g.k.role, g.leader, g.threads[i].t, n, g.threads[i].hasStack, g.tramp, !g.starved);
    if v < n {
      MembersOf(g.k.mem, g.k.role, g.k.lo, g.leader, g.threads, n, g.tramp, !g.starved, n);
      NoDanglingPages(g.k.mem, g.k.role, g.leader, Roots(g.threads), n, n, !g.starved, i, v);
    }
  }

  /** Two threads that the leader outlives use different pages, and none of the leader's. */
  lemma NothingShared(g: ThreadGroup, i: nat, j: nat, p: nat)
    requires g.Valid() && i < |g.threads| && j < |g.threads| && i != j && p < |g.k.role|
    requires Uses(g.k.role, p, g.threads[i].t, g.threads[i].hasStack)
    ensures !Uses(g.k.role, p, g.threads[j].t, g.threads[j].hasStack)
    ensures !Under(g.k.role, p, g.leader) && !Owns(g.k.role[p], g.leader) && g.rest[p] == Free
  {
    var role, a, b := g.k.role, g.threads[i].t, g.threads[j].t;
    assert Roots(g.threads)[i] == a.root && Roots(g.threads)[j] == b.root;
    assert Ours(role, p, g.leader, g.threads) && g.rest[p] == Free;
    if Under(role, p, a.root) {
      OneTree(g.k.mem, role, p, a.root, b.root);
      OneTree(g.k.mem, role, p, a.root, g.leader);
    }
  }

  /** Once all threads are gone every page that is not the leader's is used as at first: each was given back, once. */
  lemma NothingLost(g: ThreadGroup, p: nat)
    requires g.Valid() && g.threads == [] && p < |g.k.role|
    requires !Under(g.k.role, p, g.leader) && !Owns(g.k.role[p], g.leader)
    ensures g.k.role[p] == g.rest[p] && multiset(g.k.list)[p] == if g.rest[p] == Free then 1 else 0
  {
    assert !Ours(g.k.role, p, g.leader, g.threads);
    assert g.rest[p] == g.k.role[p];
    EachPageOnce(g.k.role, g.k.list, g.k.lo, p);
  }
}
