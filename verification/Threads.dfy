/**
Kernel threads' address spaces: a thread has a page table of its own that maps the leader's user pages, a private
stack, the trampoline and its trapframe. What thread_create takes, thread_exit and the reaping in thread_join give
back, each page once and no shared page; growproc keeps the tables of a group in agreement.
*/
module Threads {
  import opened Kalloc
  import opened Vm

  const TRAMPOLINE: nat := MAXVPN - 1        // page numbers of the two pages at the top
  const TRAPFRAME: nat := MAXVPN - 2
  const PTE_RX: nat := PTE_R + PTE_X
  const PTE_RW: nat := PTE_R + PTE_W

  /** *pte & (PTE_R | PTE_W | PTE_X | PTE_U). */
  function UserBits(e: nat): nat { e % 32 / 2 * 2 }

  predicate IsUser(e: nat) { IsValid(e) && e / 16 % 2 == 1 }

  /** The entry a thread gets for an entry of its leader. */
  function SharedEntry(e: nat): nat { Leaf(Addr(Ppn(e)), UserBits(e)) }

  /** What a thread is to have for page v of its leader. */
  function Want(mem: seq<Page>, leader: nat, v: nat): nat {
    if IsUser(Pte(mem, leader, v)) then SharedEntry(Pte(mem, leader, v)) else 0
  }

  /** t is to the thread what l is to the leader: the same page with the same R, W, X and U bits, if the user may use it. */
  predicate SharedAs(l: nat, t: nat) {
    if l % 2 == 1 && l / 16 % 2 == 1 then
      && t % 2 == 1 && t / 1024 == l / 1024
      && t / 2 % 2 == l / 2 % 2 && t / 4 % 2 == l / 4 % 2 && t / 8 % 2 == l / 8 % 2 && t / 16 % 2 == l / 16 % 2
    else
      t == 0
  }

  ghost predicate AllShared(mem: seq<Page>, leader: nat, q: nat, n: nat) {
    forall v: nat {:trigger Pte(mem, q, v)} :: v < n ==> SharedAs(Pte(mem, leader, v), Pte(mem, q, v))
  }

  lemma SharedFrom(e: nat, h: nat, y: nat)
    requires e == 32 * h + y && y < 32 && y % 2 == 1
    ensures SharedEntry(e) == 1024 * Ppn(e) + y
  {
    assert UserBits(e) == y - 1;
  }

  lemma SameRights(e: nat)
    requires IsUser(e)
    ensures SharedAs(e, SharedEntry(e))
  {
    LowFive(e);
    var r, w, x := e / 2 % 2, e / 4 % 2, e / 8 % 2;
    SharedFrom(e, e / 32, 16 + 8 * x + 4 * w + 2 * r + 1);
    Digits(32 * Ppn(e), 1, x, w, r, 1);
  }

  lemma SharesRights(mem: seq<Page>, leader: nat, q: nat, n: nat)
    requires Shares(mem, leader, q, n, true)
    ensures AllShared(mem, leader, q, n)
  {
    forall v: nat | v < n ensures SharedAs(Pte(mem, leader, v), Pte(mem, q, v)) {
      if IsUser(Pte(mem, leader, v)) { SameRights(Pte(mem, leader, v)); }
    }
  }

  /** e maps page p readable for the kernel alone, writable and executable as w and x say. */
  predicate KernelOnly(e: nat, p: nat, w: nat, x: nat) {
    e % 2 == 1 && e / 1024 == p && e / 2 % 2 == 1 && e / 4 % 2 == w && e / 8 % 2 == x && e / 16 % 2 == 0
  }

  /** The user can neither read the trampoline nor touch the trapframe; nobody can write the one or run the other. */
  ghost predicate TopGuarded(mem: seq<Page>, q: nat, tf: nat, tramp: nat) {
    KernelOnly(Pte(mem, q, TRAMPOLINE), tramp, 0, 1) && KernelOnly(Pte(mem, q, TRAPFRAME), tf, 1, 0)
  }

  lemma TopRights(p: nat)
    ensures KernelOnly(Leaf(Addr(p), PTE_RX), p, 0, 1) && KernelOnly(Leaf(Addr(p), PTE_RW), p, 1, 0)
  {
    assert Leaf(Addr(p), PTE_RX) == 1024 * p + 11 && Leaf(Addr(p), PTE_RW) == 1024 * p + 7;
    Digits(32 * p, 0, 1, 0, 1, 1);
    Digits(32 * p, 0, 0, 1, 1, 1);
  }

  /** Below page `n` the thread maps the leader's user pages, all of them if `full`, and nothing else. */
  ghost predicate Shares(mem: seq<Page>, leader: nat, q: nat, n: nat, full: bool) {
    forall v: nat {:trigger Pte(mem, q, v)} :: v < n ==>
      Pte(mem, q, v) == Want(mem, leader, v) || (Pte(mem, q, v) == 0 && !full)
  }

  /** From page `n` on the thread maps its stack, if it has one, its trapframe and the trampoline, and nothing else. */
  ghost predicate Private(mem: seq<Page>, q: nat, n: nat, stack: nat, hasStack: bool, tf: nat, tramp: nat) {
    forall v: nat {:trigger Pte(mem, q, v)} :: n <= v < VPNS ==>
      if v == TRAMPOLINE then Pte(mem, q, v) == Leaf(Addr(tramp), PTE_RX)
      else if v == TRAPFRAME then Pte(mem, q, v) == Leaf(Addr(tf), PTE_RW)
      else if v == stack && hasStack then IsValid(Pte(mem, q, v)) && Flags(Pte(mem, q, v)) == WithV(STACK_PERM)
      else Pte(mem, q, v) == 0
  }

  /** The only page of user memory that belongs to the thread is its stack. */
  ghost predicate OwnsOnly(mem: seq<Page>, role: seq<Role>, q: nat, stack: nat, hasStack: bool) {
    && (hasStack ==> OwnsPage(mem, role, q, stack))
    && (forall p {:trigger role[p]} :: 0 <= p < |role| && role[p].Owned? && role[p].root == q ==>
          hasStack && role[p].vpn == stack)
  }

  datatype Thread = Thread(root: nat, tf: nat, stack: nat)

  /** The page table of a thread of the group of `leader` whose memory ends at page `n`. */
  ghost predicate ThreadOk(mem: seq<Page>, role: seq<Role>, leader: nat, t: Thread, n: nat, hasStack: bool, tramp: nat,
                           full: bool) {
    && IsRoot(role, t.root) && t.root != leader && n <= t.stack < TRAPFRAME
    && t.tf < |role| && role[t.tf] == Other && |mem| == |role|
    && Shares(mem, leader, t.root, n, full) && Private(mem, t.root, n, t.stack, hasStack, t.tf, tramp)
    && OwnsOnly(mem, role, t.root, t.stack, hasStack)
  }

  lemma TopStaysGuarded(mem: seq<Page>, role: seq<Role>, leader: nat, t: Thread, n: nat, hasStack: bool, tramp: nat, full: bool)
    requires ThreadOk(mem, role, leader, t, n, hasStack, tramp, full)
    ensures TopGuarded(mem, t.root, t.tf, tramp)
  {
    TopRights(t.tf);
    TopRights(tramp);
  }

  // ----- thread_exit and freeproc_thread -----

  /** thread_exit's part in memory: the stack is unmapped and freed. */
  method FreeStack(k: Kmem, ghost leader: nat, t: Thread, ghost n: nat, ghost tramp: nat, ghost full: bool)
    requires VmOk(k) && IsRoot(k.role, leader) && ThreadOk(k.mem, k.role, leader, t, n, true, tramp, full)
    modifies k
    ensures VmOk(k) && ThreadOk(k.mem, k.role, leader, t, n, false, tramp, full)
    ensures FreedRange(old(k.role), k.role, t.root, t.stack, 1)
    ensures Unmapped(old(k.mem), old(k.role), k.mem, t.root, t.stack, 1) && SameData(old(k.mem), k.mem, k.role)
  {
    ghost var m0, r0 := k.mem, k.role;
    assert t.stack * PGSIZE / PGSIZE == t.stack;
    Uvmunmap(k, t.root, t.stack * PGSIZE, 1, true);
    StackGone(m0, r0, k.mem, k.role, leader, t, n, tramp, full);
  }

  lemma StackGone(m0: seq<Page>, r0: seq<Role>, m1: seq<Page>, r1: seq<Role>, leader: nat, t: Thread, n: nat, tramp: nat, full: bool)
    requires ThreadOk(m0, r0, leader, t, n, true, tramp, full) && IsRoot(r0, leader) && |m1| == |m0|
    requires Unmapped(m0, r0, m1, t.root, t.stack, 1) && FreedRange(r0, r1, t.root, t.stack, 1)
    ensures ThreadOk(m1, r1, leader, t, n, false, tramp, full)
  {
    assert r1[t.root] == r0[t.root] && r1[t.tf] == r0[t.tf];
    forall v: nat | v < VPNS ensures Pte(m1, leader, v) == Pte(m0, leader, v) { }
    forall v: nat | v < n
      ensures Pte(m1, t.root, v) == Want(m1, leader, v) || (Pte(m1, t.root, v) == 0 && !full)
    {
      assert Pte(m1, t.root, v) == Pte(m0, t.root, v);
      assert Pte(m1, leader, v) == Pte(m0, leader, v);
    }
  }

  /** walk, and uvmunmap without freeing if there is a mapping. */
  method UnmapPresent(k: Kmem, root: nat, va: nat)
    requires VmOk(k) && IsRoot(k.role, root) && va % PGSIZE == 0 && va / PGSIZE < MAXVPN
    requires NobodyOwns(k.role, root, va / PGSIZE)
    modifies k
    ensures VmOk(k) && k.role == old(k.role) && SameData(old(k.mem), k.mem, k.role)
    ensures Unmapped(old(k.mem), old(k.role), k.mem, root, va / PGSIZE, 1)
  {
    ghost var m0, r0, v := k.mem, k.role, va / PGSIZE;
    var found, pt, i := Walk(k, root, va, false);
    if found && IsValid(k.mem[pt][i]) {
      assert IsValid(Pte(m0, root, v));
      OneReady(m0, r0, root, v);
      Uvmunmap(k, root, va, 1, false);
    } else {
      assert !IsValid(Pte(m0, root, v));
      AbsentIsUnmapped(m0, r0, root, v);
    }
  }

  lemma OneReady(mem: seq<Page>, role: seq<Role>, root: nat, v: nat)
    requires IsValid(Pte(mem, root, v)) && NobodyOwns(role, root, v)
    ensures UnmapReady(mem, role, root, v, 1, false)
  {
  }

  lemma AbsentIsUnmapped(mem: seq<Page>, role: seq<Role>, root: nat, v: nat)
    requires Sound(mem, role) && IsRoot(role, root) && v < VPNS && !IsValid(Pte(mem, root, v))
    ensures Unmapped(mem, role, mem, root, v, 1)
  {
    InvalidIsZero(mem, role, root, v);
  }

  lemma InvalidIsZero(mem: seq<Page>, role: seq<Role>, root: nat, v: nat)
    requires Sound(mem, role) && IsRoot(role, root) && v < VPNS && !IsValid(Pte(mem, root, v))
    ensures Pte(mem, root, v) == 0
  {
    Path(mem, role, root, v);
    var l := LowPage(mem, root, v);
    if l != -1 { assert DownOk(mem, role, l); }
  }

  lemma UnmappedTwice(m0: seq<Page>, m1: seq<Page>, m2: seq<Page>, role: seq<Role>, root: nat, first: nat, n: nat, m: nat)
    requires Unmapped(m0, role, m1, root, first, n) && Unmapped(m1, role, m2, root, first + n, m)
    ensures Unmapped(m0, role, m2, root, first, n + m)
  {
    forall r: nat, w: nat | IsRoot(role, r) && w < VPNS
      ensures Pte(m2, r, w) == if r == root && first <= w < first + n + m then 0 else Pte(m0, r, w)
    {
      assert Pte(m1, r, w) == if r == root && first <= w < first + n then 0 else Pte(m0, r, w);
    }
  }

  /** The loop over [0, PGROUNDUP(p->sz)). */
  method UnmapShared(k: Kmem, root: nat, n: nat)
    requires VmOk(k) && IsRoot(k.role, root) && n <= MAXVPN
    requires forall p {:trigger k.role[p]} :: 0 <= p < |k.role| && k.role[p].Owned? ==> k.role[p].root != root
    modifies k
    ensures VmOk(k) && k.role == old(k.role) && SameData(old(k.mem), k.mem, k.role)
    ensures Unmapped(old(k.mem), old(k.role), k.mem, root, 0, n)
  {
    ghost var m0, r0, i := k.mem, k.role, 0;
    var va := 0;
    while va < n * PGSIZE
      invariant VmOk(k) && va == i * PGSIZE && i <= n && k.role == r0
      invariant Unmapped(m0, r0, k.mem, root, 0, i) && SameData(m0, k.mem, r0)
    {
      ghost var m1 := k.mem;
      assert va / PGSIZE == i;
      UnmapPresent(k, root, va);
      UnmappedTwice(m0, m1, k.mem, r0, root, 0, i, 1);
      DataOn(m0, m1, r0, k.mem, r0);
      va := va + PGSIZE;
      i := i + 1;
    }
  }

  /** What reaping a thread comes to: its tables and its trapframe are free, nothing else changed. */
  ghost predicate Reaped(m0: seq<Page>, r0: seq<Role>, m1: seq<Page>, r1: seq<Role>, t: Thread) {
    && |m0| == |m1| == |r0| == |r1|
    && (forall p: nat {:trigger r1[p]} :: p < |r0| ==> r1[p] == if p == t.tf || Under(r0, p, t.root) then Free else r0[p])
    && (forall r: nat, v: nat {:trigger Pte(m1, r, v)} :: IsRoot(r0, r) && r != t.root && v < VPNS ==>
          Pte(m1, r, v) == Pte(m0, r, v))
  }

  /** Everything a thread without stack still maps is unmapped, and no page freed. */
  method UnmapAll(k: Kmem, ghost leader: nat, t: Thread, n: nat, ghost tramp: nat, ghost full: bool)
    requires VmOk(k) && ThreadOk(k.mem, k.role, leader, t, n, false, tramp, full)
    modifies k
    ensures VmOk(k) && k.role == old(k.role) && |k.mem| == |k.role| && MapsNothing(k.mem, t.root)
    ensures forall r: nat, v: nat {:trigger Pte(k.mem, r, v)} :: IsRoot(k.role, r) && r != t.root && v < VPNS ==>
              Pte(k.mem, r, v) == Pte(old(k.mem), r, v)
  {
    ghost var m0, r0 := k.mem, k.role;
    UnmapShared(k, t.root, n);
    ghost var m1 := k.mem;
    UnmapPresent(k, t.root, TRAMPOLINE * PGSIZE);
    ghost var m2 := k.mem;
    UnmapPresent(k, t.root, TRAPFRAME * PGSIZE);
    AllGone(m0, m1, m2, k.mem, r0, leader, t, n, tramp, full);
  }

  /** freeproc_thread, for a thread whose stack is gone: shared pages are unmapped, not freed. */
  method FreeprocThread(k: Kmem, ghost leader: nat, t: Thread, n: nat, ghost tramp: nat, ghost full: bool)
    requires VmOk(k) && ThreadOk(k.mem, k.role, leader, t, n, false, tramp, full) && k.lo <= t.tf
    modifies k
    ensures VmOk(k) && Reaped(old(k.mem), old(k.role), k.mem, k.role, t)
  {
    ghost var m0, r0 := k.mem, k.role;
    UnmapAll(k, leader, t, n, tramp, full);
    ghost var m3 := k.mem;
    Uvmfree(k, t.root, 0);
    ghost var m4, r4 := k.mem, k.role;
    assert !Under(r0, t.tf, t.root);
    assert r4[t.tf] == Other;
    assert Addr(t.tf) / PGSIZE == t.tf;
    FreeUserPage(k, Addr(t.tf));
    ReapedAll(m0, m3, m4, k.mem, r0, r4, k.role, t);
  }

  lemma AllGone(m0: seq<Page>, m1: seq<Page>, m2: seq<Page>, m3: seq<Page>, role: seq<Role>, leader: nat, t: Thread, n: nat,
                tramp: nat, full: bool)
    requires ThreadOk(m0, role, leader, t, n, false, tramp, full)
    requires Unmapped(m0, role, m1, t.root, 0, n) && Unmapped(m1, role, m2, t.root, TRAMPOLINE, 1)
    requires Unmapped(m2, role, m3, t.root, TRAPFRAME, 1)
    ensures forall v: nat {:trigger Pte(m3, t.root, v)} :: v < VPNS ==> Pte(m3, t.root, v) == 0
    ensures forall r: nat, v: nat {:trigger Pte(m3, r, v)} :: IsRoot(role, r) && r != t.root && v < VPNS ==>
              Pte(m3, r, v) == Pte(m0, r, v)
  {
    forall r: nat, v: nat | IsRoot(role, r) && v < VPNS
      ensures Pte(m3, r, v) == if r == t.root && (v < n || v == TRAMPOLINE || v == TRAPFRAME) then 0 else Pte(m0, r, v)
    {
      assert Pte(m2, r, v) == if r == t.root && v == TRAMPOLINE then 0 else Pte(m1, r, v);
      assert Pte(m1, r, v) == if r == t.root && v < n then 0 else Pte(m0, r, v);
    }
  }

  lemma ReapedAll(m0: seq<Page>, m3: seq<Page>, m4: seq<Page>, m5: seq<Page>,
                  r0: seq<Role>, r4: seq<Role>, r5: seq<Role>, t: Thread)
    requires |m0| == |m5| == |r0| == |r4| == |r5| && t.tf < |r0| && IsRoot(r0, t.root) && r0[t.tf] == Other
    requires forall r: nat, v: nat {:trigger Pte(m3, r, v)} :: IsRoot(r0, r) && r != t.root && v < VPNS ==>
               Pte(m3, r, v) == Pte(m0, r, v)
    requires forall p: nat {:trigger r4[p]} :: p < |r4| ==>
               r4[p] == if Under(r0, p, t.root) || OwnedIn(r0[p], t.root, 0, 0) then Free else r0[p]
    requires forall r: nat, v: nat {:trigger Pte(m4, r, v)} :: IsRoot(r0, r) && r != t.root && v < VPNS ==>
               Pte(m4, r, v) == Pte(m3, r, v)
    requires r5 == r4[t.tf := Free] && SameMap(m4, r4, m5)
    ensures Reaped(m0, r0, m5, r5, t)
  {
    forall r: nat, v: nat | IsRoot(r0, r) && r != t.root && v < VPNS ensures Pte(m5, r, v) == Pte(m0, r, v) {
      assert !Under(r0, r, t.root);
      assert r4[r] == r0[r] && IsRoot(r4, r);
      assert Pte(m4, r, v) == Pte(m3, r, v);
    }
  }

  // ----- proc_pagetable -----

  /** The tree at root was built from free pages, and nothing else was taken. */
  ghost predicate Built(r0: seq<Role>, r1: seq<Role>, root: nat) {
    |r0| == |r1| && forall p: nat {:trigger r1[p]} :: p < |r0| ==>
      if Under(r1, p, root) then r0[p] == Free else r1[p] == r0[p]
  }

  lemma BuiltRoot(m0: seq<Page>, r0: seq<Role>, root: nat)
    requires Sound(m0, r0) && root < |r0| && r0[root] == Free
    ensures Built(r0, r0[root := Root], root)
  {
    var r1 := r0[root := Root];
    forall p: nat | p < |r0| ensures if Under(r1, p, root) then r0[p] == Free else r1[p] == r0[p] {
      assert UpOk(m0, r0, p);
      if r0[p].Low? { assert r0[p].parent < |r0| ==> UpOk(m0, r0, r0[p].parent); }
    }
  }

  lemma BuiltOn(r0: seq<Role>, m1: seq<Page>, r1: seq<Role>, m2: seq<Page>, r2: seq<Role>, root: nat)
    requires Built(r0, r1, root) && Sound(m1, r1) && Grew(m1, r1, m2, r2, root)
    ensures Built(r0, r2, root)
  {
    forall p: nat | p < |r0| ensures if Under(r2, p, root) then r0[p] == Free else r2[p] == r0[p] {
      assert UpOk(m1, r1, p);
      assert r2[p] == r1[p] || r1[p] == Free;
      if r1[p].Mid? || r1[p].Low? { assert r2[r1[p].parent] == r1[r1[p].parent]; }
      assert if Under(r1, p, root) then r0[p] == Free else r1[p] == r0[p];
    }
  }

  /** An address space whose tree was built for it and has been taken down again leaves no trace. */
  lemma BuiltAndFreed(r0: seq<Role>, r1: seq<Role>, r2: seq<Role>, root: nat)
    requires Built(r0, r1, root) && |r2| == |r1|
    requires forall p: nat {:trigger r2[p]} :: p < |r1| ==> r2[p] == if Under(r1, p, root) then Free else r1[p]
    ensures r2 == r0
  {
  }

  ghost predicate OthersSame(m0: seq<Page>, r0: seq<Role>, m1: seq<Page>, root: nat) {
    forall r: nat, v: nat {:trigger Pte(m1, r, v)} :: IsRoot(r0, r) && r != root && v < VPNS ==> Pte(m1, r, v) == Pte(m0, r, v)
  }

  /** uvmfree of a space that maps nothing. */
  method DropSpace(k: Kmem, root: nat, ghost m0: seq<Page>, ghost r0: seq<Role>)
    requires VmOk(k) && IsRoot(k.role, root) && MapsNothing(k.mem, root)
    requires Built(r0, k.role, root) && r0[root] == Free && OthersSame(m0, r0, k.mem, root)
    modifies k
    ensures VmOk(k) && k.role == r0 && SameMap(m0, r0, k.mem)
  {
    ghost var m1, r1 := k.mem, k.role;
    Uvmfree(k, root, 0);
    assert forall p: nat :: p < |r1| ==> !OwnedIn(r1[p], root, 0, 0);
    BuiltAndFreed(r0, r1, k.role, root);
    forall r: nat, v: nat | IsRoot(r0, r) && v < VPNS ensures Pte(k.mem, r, v) == Pte(m0, r, v) {
      assert r1[r] == r0[r] && IsRoot(r1, r);
      assert Pte(m1, r, v) == Pte(m0, r, v);
    }
  }

  /** Only the two pages at the top are mapped, the lower one if `both`. */
  ghost predicate TopOnly(mem: seq<Page>, q: nat, tf: nat, tramp: nat, both: bool) {
    forall v: nat {:trigger Pte(mem, q, v)} :: v < VPNS ==>
      Pte(mem, q, v) == if v == TRAMPOLINE then Leaf(Addr(tramp), PTE_RX)
                        else if v == TRAPFRAME && both then Leaf(Addr(tf), PTE_RW) else 0
  }

  /** The space at root is new since m0, r0: built from free pages, with all other maps as they were. */
  ghost predicate New(m0: seq<Page>, r0: seq<Role>, m1: seq<Page>, r1: seq<Role>, root: nat) {
    && IsRoot(r1, root) && root < |r0| && r0[root] == Free
    && Built(r0, r1, root) && OthersSame(m0, r0, m1, root)
  }

  lemma NewRoots(m0: seq<Page>, r0: seq<Role>, m1: seq<Page>, r1: seq<Role>, root: nat)
    requires New(m0, r0, m1, r1, root)
    ensures forall r: nat {:trigger IsRoot(r1, r)} :: IsRoot(r0, r) ==> IsRoot(r1, r)
  {
    forall r: nat | IsRoot(r0, r) ensures IsRoot(r1, r) { assert r0[r] != Free ==> r1[r] == r0[r]; }
  }

  /** One page of the new space is mapped, or memory has run out and it maps what it did. */
  method MapTop(k: Kmem, root: nat, v: nat, page: nat, perm: nat, ghost m0: seq<Page>, ghost r0: seq<Role>) returns (ok: bool)
    requires VmOk(k) && New(m0, r0, k.mem, k.role, root) && v < MAXVPN && Pte(k.mem, root, v) == 0
    requires IsLeaf(perm) && perm < 1024
    modifies k
    ensures VmOk(k) && New(m0, r0, k.mem, k.role, root)
    ensures ok ==> Updated(old(k.mem), old(k.role), k.mem, root, v, Leaf(Addr(page), perm))
    ensures !ok ==> SameMap(old(k.mem), old(k.role), k.mem) && |old(k.list)| < 2
    ensures ok ==> Spent(old(k.list), k.list, 2)
  {
    ghost var m1, r1 := k.mem, k.role;
    NewRoots(m0, r0, m1, r1, root);
    assert (v * PGSIZE + PGSIZE - 1) / PGSIZE == v;
    var r;
    ghost var n;
    r, n := Mappages(k, root, v * PGSIZE, PGSIZE, Addr(page), perm);
    GrewRoots(m1, r1, k.mem, k.role, root);
    BuiltOn(r0, m1, r1, k.mem, k.role, root);
    MappedTop(m0, r0, m1, r1, k.mem, root, v, page, perm, n);
    ok := r == 0;
  }

  lemma MappedTop(m0: seq<Page>, r0: seq<Role>, m1: seq<Page>, r1: seq<Role>, m2: seq<Page>, root: nat, v: nat, page: nat,
                  perm: nat, n: nat)
    requires OthersSame(m0, r0, m1, root) && forall r: nat :: IsRoot(r0, r) ==> IsRoot(r1, r)
    requires Mapped(m1, r1, m2, root, v, n, Addr(page), perm) && n <= 1
    ensures OthersSame(m0, r0, m2, root)
    ensures if n == 1 then Updated(m1, r1, m2, root, v, Leaf(Addr(page), perm)) else SameMap(m1, r1, m2)
  {
    forall r: nat, w: nat | IsRoot(r0, r) && r != root && w < VPNS ensures Pte(m2, r, w) == Pte(m0, r, w) {
      assert IsRoot(r1, r);
      assert Pte(m1, r, w) == Pte(m0, r, w);
    }
  }

  /**
  A page table with the trampoline and the trapframe; 0, and nothing taken, when memory runs out on the way. Five pages
  are enough.
  */
  method ProcPagetable(k: Kmem, tf: nat, tramp: nat) returns (root: nat)
    requires VmOk(k)
    modifies k
    ensures VmOk(k)
    ensures root == 0 ==> k.role == old(k.role) && SameMap(old(k.mem), old(k.role), k.mem) && |old(k.list)| < 5
    ensures root != 0 ==> Spent(old(k.list), k.list, 5)
    ensures root != 0 ==> New(old(k.mem), old(k.role), k.mem, k.role, root) && TopOnly(k.mem, root, tf, tramp, true)
    ensures root != 0 ==> TopGuarded(k.mem, root, tf, tramp)
  {
    ghost var m0, r0 := k.mem, k.role;
    root := Uvmcreate(k);
    if root == 0 { return; }
    ghost var m1 := k.mem;
    BuiltRoot(m0, r0, root);
    var ok := MapTop(k, root, TRAMPOLINE, tramp, PTE_RX, m0, r0);
    if !ok {
      DropSpace(k, root, m0, r0);
      return 0;
    }
    ok := MapTop(k, root, TRAPFRAME, tf, PTE_RW, m0, r0);
    if !ok {
      DropTrampoline(k, root, tf, tramp, m0, r0);
      return 0;
    }
    TopRights(tf);
    TopRights(tramp);
  }

  /** proc_pagetable's second way out. */
  method DropTrampoline(k: Kmem, root: nat, ghost tf: nat, ghost tramp: nat, ghost m0: seq<Page>, ghost r0: seq<Role>)
    requires VmOk(k) && Sound(m0, r0) && New(m0, r0, k.mem, k.role, root) && TopOnly(k.mem, root, tf, tramp, false)
    modifies k
    ensures VmOk(k) && k.role == r0 && SameMap(m0, r0, k.mem)
  {
    ghost var m1, r1 := k.mem, k.role;
    OwnsNothing(m0, r0, m1, r1, root);
    assert TRAMPOLINE * PGSIZE / PGSIZE == TRAMPOLINE;
    UnmapPresent(k, root, TRAMPOLINE * PGSIZE);
    TopUnmapped(m0, r0, m1, r1, k.mem, root, tf, tramp);
    DropSpace(k, root, m0, r0);
  }

  /** No page of user memory belongs to a new space. */
  lemma OwnsNothing(m0: seq<Page>, r0: seq<Role>, m1: seq<Page>, r1: seq<Role>, root: nat)
    requires Sound(m0, r0) && New(m0, r0, m1, r1, root)
    ensures forall p {:trigger r1[p]} :: 0 <= p < |r1| && r1[p].Owned? ==> r1[p].root != root
  {
    forall p: nat | p < |r1| && r1[p].Owned? ensures r1[p].root != root {
      assert !Under(r1, p, root) ==> r1[p] == r0[p];
      assert OwnedOk(m0, r0, p);
    }
  }

  lemma TopUnmapped(m0: seq<Page>, r0: seq<Role>, m3: seq<Page>, r3: seq<Role>, m4: seq<Page>, root: nat, tf: nat, tramp: nat)
    requires TopOnly(m3, root, tf, tramp, false) && New(m0, r0, m3, r3, root)
    requires Unmapped(m3, r3, m4, root, TRAMPOLINE, 1)
    ensures OthersSame(m0, r0, m4, root) && MapsNothing(m4, root)
  {
    NewRoots(m0, r0, m3, r3, root);
    forall r: nat, v: nat | IsRoot(r0, r) && r != root && v < VPNS ensures Pte(m4, r, v) == Pte(m0, r, v) {
      assert IsRoot(r3, r);
      assert Pte(m3, r, v) == Pte(m0, r, v);
    }
  }

  // ----- thread_create -----

  lemma UserBitsLeaf(e: nat)
    requires IsLeaf(e)
    ensures IsLeaf(UserBits(e)) && UserBits(e) < 32
  {
    var h, f := e / 32, e % 32;
    Half(16 * h, f);
    Low8(2 * h, f / 2);
    assert e == 2 * (16 * h) + f;
    Half(f / 2, 0);
  }

  /** mappages of a single page. */
  method MapPage(k: Kmem, root: nat, va: nat, pa: nat, perm: nat) returns (ok: bool)
    requires VmOk(k) && IsRoot(k.role, root) && va % PGSIZE == 0 && va / PGSIZE < MAXVPN && IsLeaf(perm) && perm < 1024
    requires Pte(k.mem, root, va / PGSIZE) == 0
    modifies k
    ensures VmOk(k) && Grew(old(k.mem), old(k.role), k.mem, k.role, root)
    ensures ok ==> Updated(old(k.mem), old(k.role), k.mem, root, va / PGSIZE, Leaf(pa, perm))
    ensures !ok ==> SameMap(old(k.mem), old(k.role), k.mem) && k.list == [] && |old(k.list)| < 2
    ensures Spent(old(k.list), k.list, 2)
  {
    assert (va + PGSIZE - 1) / PGSIZE == va / PGSIZE;
    var r;
    ghost var n;
    r, n := Mappages(k, root, va, PGSIZE, pa, perm);
    ok := r == 0;
  }

  /** One turn of the loop that shares the leader's pages; false is where thread_create gives up. */
  method ShareOne(k: Kmem, leader: nat, q: nat, va: nat) returns (ok: bool)
    requires VmOk(k) && IsRoot(k.role, leader) && IsRoot(k.role, q) && leader != q && va / PGSIZE < MAXVPN && va % PGSIZE == 0
    requires Pte(k.mem, q, va / PGSIZE) == 0
    modifies k
    ensures VmOk(k) && Grew(old(k.mem), old(k.role), k.mem, k.role, q)
    ensures ok ==> Updated(old(k.mem), old(k.role), k.mem, q, va / PGSIZE,
                           if IsUser(Pte(old(k.mem), leader, va / PGSIZE)) then SharedEntry(Pte(old(k.mem), leader, va / PGSIZE)) else 0)
    ensures !ok ==> SameMap(old(k.mem), old(k.role), k.mem) && |old(k.list)| < 2
    ensures ok ==> Spent(old(k.list), k.list, 2)
  {
    ghost var m0, r0, v := k.mem, k.role, va / PGSIZE;
    var found, pt, i := Walk(k, leader, va, false);
    if !found || !IsUser(k.mem[pt][i]) {
      assert !IsUser(Pte(m0, leader, v));
      return true;
    }
    var pte := k.mem[pt][i];
    assert pte == Pte(m0, leader, v);
    LeafOfTree(m0, r0, leader, v);
    UserBitsLeaf(pte);
    ok := MapPage(k, q, va, Addr(Ppn(pte)), UserBits(pte));
  }

  /** What the loop has done up to page i: those are shared, the rest of the new space and all others are as before. */
  ghost predicate Sharing(m0: seq<Page>, r0: seq<Role>, m1: seq<Page>, leader: nat, q: nat, i: nat) {
    && Shares(m1, leader, q, i, true)
    && (forall r: nat, v: nat {:trigger Pte(m1, r, v)} :: IsRoot(r0, r) && v < VPNS && !(r == q && v < i) ==>
          Pte(m1, r, v) == Pte(m0, r, v))
  }

  lemma SharedOneMore(m0: seq<Page>, r0: seq<Role>, m1: seq<Page>, r1: seq<Role>, m2: seq<Page>, leader: nat, q: nat, i: nat)
    requires Sharing(m0, r0, m1, leader, q, i) && IsRoot(r0, leader) && leader != q && i < VPNS
    requires forall r: nat :: IsRoot(r0, r) ==> IsRoot(r1, r)
    requires Updated(m1, r1, m2, q, i, if IsUser(Pte(m1, leader, i)) then SharedEntry(Pte(m1, leader, i)) else 0)
    requires IsRoot(r0, q)
    ensures Sharing(m0, r0, m2, leader, q, i + 1)
  {
    forall r: nat, v: nat | IsRoot(r0, r) && v < VPNS && !(r == q && v < i + 1) ensures Pte(m2, r, v) == Pte(m0, r, v) {
      assert IsRoot(r1, r);
      assert Pte(m1, r, v) == Pte(m0, r, v);
    }
    forall v: nat | v < i + 1
      ensures Pte(m2, q, v) == if IsUser(Pte(m2, leader, v)) then SharedEntry(Pte(m2, leader, v)) else 0
    {
      assert Pte(m2, leader, v) == Pte(m1, leader, v);
      assert Pte(m2, q, v) == if v == i then (if IsUser(Pte(m1, leader, i)) then SharedEntry(Pte(m1, leader, i)) else 0) else Pte(m1, q, v);
    }
  }

  lemma SharedNoMore(m0: seq<Page>, r0: seq<Role>, m1: seq<Page>, r1: seq<Role>, m2: seq<Page>, leader: nat, q: nat, i: nat)
    requires Sharing(m0, r0, m1, leader, q, i) && IsRoot(r0, leader) && IsRoot(r0, q) && i <= VPNS
    requires forall r: nat :: IsRoot(r0, r) ==> IsRoot(r1, r)
    requires SameMap(m1, r1, m2)
    ensures Sharing(m0, r0, m2, leader, q, i)
  {
    forall r: nat, v: nat | IsRoot(r0, r) && v < VPNS ensures Pte(m2, r, v) == Pte(m1, r, v) { assert IsRoot(r1, r); }
  }

  /** The sharing loop. It gives up after `done` pages only if there were not two free pages, for tables, for each of the n. */
  method ShareAll(k: Kmem, leader: nat, q: nat, n: nat) returns (ok: bool, ghost done: nat)
    requires VmOk(k) && IsRoot(k.role, leader) && IsRoot(k.role, q) && leader != q && n <= TRAPFRAME
    requires forall v: nat {:trigger Pte(k.mem, q, v)} :: v < n ==> Pte(k.mem, q, v) == 0
    modifies k
    ensures VmOk(k) && Grew(old(k.mem), old(k.role), k.mem, k.role, q)
    ensures Sharing(old(k.mem), old(k.role), k.mem, leader, q, done) && done <= n && (ok ==> done == n)
    ensures AllShared(k.mem, leader, q, done)
    ensures if ok then Spent(old(k.list), k.list, 2 * n) else |old(k.list)| < 2 * n
  {
    ghost var m0, r0, l0, i := k.mem, k.role, k.list, 0;
    var va := 0;
    while va < n * PGSIZE
      invariant VmOk(k) && va == i * PGSIZE && i <= n && Spent(l0, k.list, 2 * i)
      invariant Grew(m0, r0, k.mem, k.role, q) && Sharing(m0, r0, k.mem, leader, q, i)
    {
      ghost var m1, r1, l1 := k.mem, k.role, k.list;
      GrewRoots(m0, r0, m1, r1, q);
      assert va / PGSIZE == i;
      assert Pte(m1, q, i) == Pte(m0, q, i);
      ok := ShareOne(k, leader, q, va);
      GrewOn(m0, r0, m1, r1, k.mem, k.role, q);
      if !ok {
        SharedNoMore(m0, r0, m1, r1, k.mem, leader, q, i);
        SharesRights(k.mem, leader, q, i);
        return false, i;
      }
      SharedOneMore(m0, r0, m1, r1, k.mem, leader, q, i);
      SpentOn(l0, l1, k.list, 2 * i, 2);
      va := va + PGSIZE;
      i := i + 1;
    }
    SharesRights(k.mem, leader, q, n);
    ok, done := true, n;
  }

  /** What a new thread holds, its tables, trapframe and stack, was free before; nothing else was taken. */
  ghost predicate Taken(r0: seq<Role>, r1: seq<Role>, t: Thread) {
    |r0| == |r1| && forall p: nat {:trigger r1[p]} :: p < |r0| ==>
      if p == t.tf || Under(r1, p, t.root) || r1[p] == Owned(t.root, t.stack) then r0[p] == Free else r1[p] == r0[p]
  }

  /** Abandoned: out of memory after pages were shared, where the source calls freeproc. */
  datatype Outcome = NoMemory | Abandoned | Made(t: Thread)

  const STACK_PERM: nat := PTE_U + PTE_R + PTE_W

  lemma TakenAll(r0: seq<Role>, r1: seq<Role>, m3: seq<Page>, r3: seq<Role>, m4: seq<Page>, r4: seq<Role>, t: Thread, imgs: seq<Image>)
    requires t.tf < |r0| && r0[t.tf] == Free && r1 == r0[t.tf := Other]
    requires Built(r1, r3, t.root) && Sound(m3, r3) && Grown(m3, r3, m4, r4, t.root, t.stack, imgs) && |imgs| == 1
    requires r3[t.tf] == Other
    requires forall p {:trigger r3[p]} :: 0 <= p < |r3| && r3[p].Owned? ==> r3[p].root != t.root
    ensures Taken(r0, r4, t)
  {
    forall p: nat | p < |r0|
      ensures if p == t.tf || Under(r4, p, t.root) || r4[p] == Owned(t.root, t.stack) then r0[p] == Free else r4[p] == r0[p]
    {
      assert UpOk(m3, r3, p);
      if r3[p].Mid? || r3[p].Low? { assert r4[r3[p].parent] == r3[r3[p].parent]; }
      assert if Under(r3, p, t.root) then r1[p] == Free else r3[p] == r1[p];
      assert OwnedOk(m3, r3, p);
      if r4[p] != r3[p] { assert r3[p] == Free; }
    }
  }

  lemma StillOwnsNothing(m1: seq<Page>, r1: seq<Role>, m2: seq<Page>, r2: seq<Role>, m3: seq<Page>, r3: seq<Role>, root: nat)
    requires Sound(m1, r1) && New(m1, r1, m2, r2, root) && Grew(m2, r2, m3, r3, root)
    ensures forall p {:trigger r3[p]} :: 0 <= p < |r3| && r3[p].Owned? ==> r3[p].root != root
  {
    OwnsNothing(m1, r1, m2, r2, root);
  }

  lemma OwnsStack(m3: seq<Page>, r3: seq<Role>, m4: seq<Page>, r4: seq<Role>, t: Thread, imgs: seq<Image>)
    requires forall p {:trigger r3[p]} :: 0 <= p < |r3| && r3[p].Owned? ==> r3[p].root != t.root
    requires Grown(m3, r3, m4, r4, t.root, t.stack, imgs) && |imgs| == 1
    ensures OwnsOnly(m4, r4, t.root, t.stack, true)
  {
    assert Placed(r3, m4, r4, t.root, t.stack + 0, imgs[0]);
    forall p | 0 <= p < |r4| && r4[p].Owned? && r4[p].root == t.root ensures r4[p].vpn == t.stack {
      assert r4[p] != r3[p];
    }
  }

  lemma MapsDone(m2: seq<Page>, r2: seq<Role>, m3: seq<Page>, r3: seq<Role>, m4: seq<Page>, r4: seq<Role>,
                 leader: nat, t: Thread, n: nat, tramp: nat, imgs: seq<Image>)
    requires TopOnly(m2, t.root, t.tf, tramp, true) && Sharing(m2, r2, m3, leader, t.root, n) && n <= t.stack < TRAPFRAME
    requires IsRoot(r2, leader) && IsRoot(r2, t.root) && leader != t.root
    requires forall r: nat :: IsRoot(r2, r) ==> IsRoot(r3, r)
    requires Grown(m3, r3, m4, r4, t.root, t.stack, imgs) && |imgs| == 1 && imgs[0].perm == STACK_PERM
    ensures Shares(m4, leader, t.root, n, true) && Private(m4, t.root, n, t.stack, true, t.tf, tramp)
    ensures forall r: nat, v: nat {:trigger Pte(m4, r, v)} :: IsRoot(r2, r) && r != t.root && v < VPNS ==>
              Pte(m4, r, v) == Pte(m2, r, v)
  {
    assert IsRoot(r3, leader) && IsRoot(r3, t.root);
    forall r: nat, v: nat | IsRoot(r2, r) && r != t.root && v < VPNS ensures Pte(m4, r, v) == Pte(m2, r, v) {
      assert IsRoot(r3, r);
      assert Pte(m3, r, v) == Pte(m2, r, v);
    }
    forall v: nat | v < n
      ensures Pte(m4, t.root, v) == if IsUser(Pte(m4, leader, v)) then SharedEntry(Pte(m4, leader, v)) else 0
    {
      assert Pte(m4, t.root, v) == Pte(m3, t.root, v) && Pte(m4, leader, v) == Pte(m3, leader, v);
    }
    forall v: nat | n <= v < VPNS && v != t.stack ensures Pte(m4, t.root, v) == Pte(m2, t.root, v) {
      assert Pte(m4, t.root, v) == Pte(m3, t.root, v);
    }
    assert Placed(r3, m4, r4, t.root, t.stack + 0, imgs[0]);
  }

  /** The stack: one fresh page, readable and writable by the user. */
  method AddStack(k: Kmem, root: nat, stack: nat) returns (ok: bool)
    requires VmOk(k) && IsRoot(k.role, root) && stack < TRAPFRAME && Pte(k.mem, root, stack) == 0
    modifies k
    ensures VmOk(k)
    ensures ok ==> Grown(old(k.mem), old(k.role), k.mem, k.role, root, stack, Zeros(1, STACK_PERM))
    ensures !ok ==> Grew(old(k.mem), old(k.role), k.mem, k.role, root) && SameMap(old(k.mem), old(k.role), k.mem)
    ensures if ok then Spent(old(k.list), k.list, 3) else |old(k.list)| < 3
  {
    RoundedUp(stack, 1);
    var sz := Uvmalloc(k, root, stack * PGSIZE, (stack + 1) * PGSIZE, STACK_PERM);
    ok := sz != 0;
  }

  /** Only free pages were taken, and no address space maps anything else. */
  ghost predicate TookOnly(m0: seq<Page>, r0: seq<Role>, m1: seq<Page>, r1: seq<Role>) {
    && |r0| == |r1| && SameMap(m0, r0, m1)
    && forall p {:trigger r1[p]} :: 0 <= p < |r0| ==> r1[p] == r0[p] || r0[p] == Free
  }

  lemma NewTookOnly(m1: seq<Page>, r1: seq<Role>, m2: seq<Page>, r2: seq<Role>, m3: seq<Page>, r3: seq<Role>,
                    m4: seq<Page>, r4: seq<Role>, leader: nat, root: nat, done: nat)
    requires New(m1, r1, m2, r2, root) && IsRoot(r1, leader) && Sound(m2, r2)
    requires Grew(m2, r2, m3, r3, root) && Sharing(m2, r2, m3, leader, root, done)
    requires Grew(m3, r3, m4, r4, root) && SameMap(m3, r3, m4)
    ensures TookOnly(m1, r1, m4, r4)
  {
    NewRoots(m1, r1, m2, r2, root);
    GrewRoots(m2, r2, m3, r3, root);
    forall r: nat, v: nat | IsRoot(r1, r) && v < VPNS ensures Pte(m4, r, v) == Pte(m1, r, v) {
      assert IsRoot(r2, r) && IsRoot(r3, r) && r != root;
      assert Pte(m3, r, v) == Pte(m2, r, v) && Pte(m2, r, v) == Pte(m1, r, v);
    }
    forall p | 0 <= p < |r1| ensures r4[p] == r1[p] || r1[p] == Free {
      assert r3[p] == r2[p] || r2[p] == Free;
      assert r4[p] == r3[p] || r3[p] == Free;
      assert Under(r2, p, root) ==> r1[p] == Free;
    }
  }

  /** A thread whose trapframe and page table are there gets the shared pages and its stack. */
  method Populate(k: Kmem, leader: nat, t: Thread, n: nat, tramp: nat, ghost m1: seq<Page>, ghost r1: seq<Role>) returns (ok: bool)
    requires VmOk(k) && Sound(m1, r1) && IsRoot(r1, leader) && New(m1, r1, k.mem, k.role, t.root)
    requires TopOnly(k.mem, t.root, t.tf, tramp, true) && n <= t.stack < TRAPFRAME && k.lo <= t.tf < |r1| && r1[t.tf] == Other
    modifies k
    ensures VmOk(k)
    ensures ok ==> ThreadOk(k.mem, k.role, leader, t, n, true, tramp, true) && OthersSame(m1, r1, k.mem, t.root)
    ensures ok ==> Taken(r1[t.tf := Free], k.role, t)
    ensures !ok ==> TookOnly(m1, r1, k.mem, k.role)
    ensures if ok then Spent(old(k.list), k.list, 2 * n + 3) else |old(k.list)| < 2 * n + 3
  {
    ghost var m2, r2, l2 := k.mem, k.role, k.list;
    NewRoots(m1, r1, m2, r2, t.root);
    ghost var done;
    ok, done := ShareAll(k, leader, t.root, n);
    ghost var m3, r3, l3 := k.mem, k.role, k.list;
    if !ok {
      NewTookOnly(m1, r1, m2, r2, m3, r3, m3, r3, leader, t.root, done);
      return;
    }
    BuiltOn(r1, m2, r2, m3, r3, t.root);
    GrewRoots(m2, r2, m3, r3, t.root);
    assert r3[t.tf] == Other;
    assert Pte(m3, t.root, t.stack) == Pte(m2, t.root, t.stack) == 0;
    ok := AddStack(k, t.root, t.stack);
    if !ok {
      NewTookOnly(m1, r1, m2, r2, m3, r3, k.mem, k.role, leader, t.root, done);
      return;
    }
    ghost var imgs := Zeros(1, STACK_PERM);
    PopulateDone(m1, r1, m2, r2, m3, r3, k.mem, k.role, leader, t, n, tramp, imgs);
  }

  lemma PopulateDone(m1: seq<Page>, r1: seq<Role>, m2: seq<Page>, r2: seq<Role>, m3: seq<Page>, r3: seq<Role>,
                     m4: seq<Page>, r4: seq<Role>, leader: nat, t: Thread, n: nat, tramp: nat, imgs: seq<Image>)
    requires Sound(m1, r1) && New(m1, r1, m2, r2, t.root) && TopOnly(m2, t.root, t.tf, tramp, true) && n <= t.stack < TRAPFRAME
    requires IsRoot(r1, leader) && t.tf < |r1| && r1[t.tf] == Other && |m4| == |r4| && Sound(m2, r2)
    requires Sharing(m2, r2, m3, leader, t.root, n) && Grew(m2, r2, m3, r3, t.root) && Sound(m3, r3)
    requires Grown(m3, r3, m4, r4, t.root, t.stack, imgs) && |imgs| == 1 && imgs[0].perm == STACK_PERM
    ensures ThreadOk(m4, r4, leader, t, n, true, tramp, true) && OthersSame(m1, r1, m4, t.root)
    ensures Taken(r1[t.tf := Free], r4, t)
  {
    NewRoots(m1, r1, m2, r2, t.root);
    BuiltOn(r1, m2, r2, m3, r3, t.root);
    GrewRoots(m2, r2, m3, r3, t.root);
    GrownRoots(m3, r3, m4, r4, t.root, t.stack, imgs);
    assert r3[t.tf] == Other && r4[t.tf] == Other;
    assert IsRoot(r4, t.root);
    MapsDone(m2, r2, m3, r3, m4, r4, leader, t, n, tramp, imgs);
    StillOwnsNothing(m1, r1, m2, r2, m3, r3, t.root);
    OwnsStack(m3, r3, m4, r4, t, imgs);
    assert r1[t.tf := Free][t.tf := Other] == r1;
    TakenAll(r1[t.tf := Free], r1, m3, r3, m4, r4, t, imgs);
    forall r: nat, v: nat | IsRoot(r1, r) && r != t.root && v < VPNS ensures Pte(m4, r, v) == Pte(m1, r, v) {
      assert IsRoot(r2, r);
      assert Pte(m2, r, v) == Pte(m1, r, v);
    }
  }

  /**
  thread_create's memory. When it succeeds the thread maps the leader's user pages and its own, all of which were
  free; when it fails before any page is shared nothing is taken. It does not fail while there are nine free pages and
  two more for each page to share.
  */
  method ThreadCreate(k: Kmem, leader: nat, stack: nat, n: nat, tramp: nat) returns (o: Outcome)
    requires VmOk(k) && IsRoot(k.role, leader) && n <= stack < TRAPFRAME
    modifies k
    ensures VmOk(k)
    ensures o.NoMemory? ==> k.role == old(k.role) && SameMap(old(k.mem), old(k.role), k.mem)
    ensures o.Abandoned? ==> TookOnly(old(k.mem), old(k.role), k.mem, k.role)
    ensures if o.Made? then Spent(old(k.list), k.list, 2 * n + 9) else |old(k.list)| < 2 * n + 9
    ensures o.Made? ==> o.t.stack == stack && k.lo <= o.t.tf && Taken(old(k.role), k.role, o.t)
    ensures o.Made? ==> ThreadOk(k.mem, k.role, leader, o.t, n, true, tramp, true)
    ensures o.Made? ==> AllShared(k.mem, leader, o.t.root, n) && Permits(Pte(k.mem, o.t.root, stack), PTE_W)
    ensures o.Made? ==> OthersSame(old(k.mem), old(k.role), k.mem, o.t.root)
  {
    ghost var m0, r0 := k.mem, k.role;
    var ok, tf, root;
    ghost var m1, r1;
    ok, tf, root, m1, r1 := Allocproc(k, tramp);
    if !ok { return NoMemory; }
    assert r1[leader] == r0[leader] && r1[tf := Free] == r0;
    var t := Thread(root, tf, stack);
    ok := Populate(k, leader, t, n, tramp, m1, r1);
    if !ok {
      AbandonedTook(m0, r0, m1, r1, k.mem, k.role, tf);
      return Abandoned;
    }
    SameOthers(m0, r0, m1, r1, k.mem, root);
    MadeRights(k.mem, k.role, leader, t, n, tramp);
    o := Made(t);
  }

  lemma MadeRights(mem: seq<Page>, role: seq<Role>, leader: nat, t: Thread, n: nat, tramp: nat)
    requires ThreadOk(mem, role, leader, t, n, true, tramp, true)
    ensures AllShared(mem, leader, t.root, n) && Permits(Pte(mem, t.root, t.stack), PTE_W)
  {
    SharesRights(mem, leader, t.root, n);
    AskedFor(Pte(mem, t.root, t.stack), PTE_W);
  }

  lemma SameOthers(m0: seq<Page>, r0: seq<Role>, m1: seq<Page>, r1: seq<Role>, m2: seq<Page>, root: nat)
    requires SameMap(m0, r0, m1) && OthersSame(m1, r1, m2, root)
    requires forall r: nat :: IsRoot(r0, r) ==> IsRoot(r1, r)
    ensures OthersSame(m0, r0, m2, root)
  {
    forall r: nat, v: nat | IsRoot(r0, r) && r != root && v < VPNS ensures Pte(m2, r, v) == Pte(m0, r, v) {
      assert IsRoot(r1, r);
      assert Pte(m1, r, v) == Pte(m0, r, v);
    }
  }

  /** allocproc's memory, a trapframe and a page table, or nothing; m1 and r1 are what there was between the two. */
  method Allocproc(k: Kmem, tramp: nat) returns (ok: bool, tf: nat, root: nat, ghost m1: seq<Page>, ghost r1: seq<Role>)
    requires VmOk(k)
    modifies k
    ensures VmOk(k)
    ensures !ok ==> k.role == old(k.role) && SameMap(old(k.mem), old(k.role), k.mem) && |old(k.list)| < 6
    ensures ok ==> tf < |old(k.role)| && k.lo <= tf && old(k.role)[tf] == Free && r1 == old(k.role)[tf := Other]
    ensures ok ==> Sound(m1, r1) && SameMap(old(k.mem), old(k.role), m1)
    ensures ok ==> New(m1, r1, k.mem, k.role, root) && TopOnly(k.mem, root, tf, tramp, true)
    ensures ok ==> Spent(old(k.list), k.list, 6)
  {
    ghost var m0, r0 := k.mem, k.role;
    m1, r1, root, tf := m0, r0, 0, 0;
    var pa := AllocWith(k, Filled(JUNK_ALLOC));
    if pa == 0 { return false, 0, 0, m0, r0; }
    tf := pa / PGSIZE;
    m1, r1 := k.mem, k.role;
    assert r0[tf] == Free && r1 == r0[tf := Other] && k.lo <= tf;
    root := ProcPagetable(k, tf, tramp);
    ok := root != 0;
    if !ok {
      ghost var m2 := k.mem;
      FreeUserPage(k, pa);
      assert r1[tf := Free] == r0;
      NothingTaken(m0, r0, m1, r1, m2, k.mem);
    }
  }

  lemma NothingTaken(m0: seq<Page>, r0: seq<Role>, m1: seq<Page>, r1: seq<Role>, m2: seq<Page>, m3: seq<Page>)
    requires SameMap(m0, r0, m1) && SameMap(m1, r1, m2) && SameMap(m2, r1, m3)
    requires forall r: nat :: IsRoot(r0, r) ==> IsRoot(r1, r)
    ensures SameMap(m0, r0, m3)
  {
    forall r: nat, v: nat | IsRoot(r0, r) && v < VPNS ensures Pte(m3, r, v) == Pte(m0, r, v) {
      assert IsRoot(r1, r);
      assert Pte(m2, r, v) == Pte(m1, r, v) && Pte(m1, r, v) == Pte(m0, r, v);
    }
  }

  lemma AbandonedTook(m0: seq<Page>, r0: seq<Role>, m1: seq<Page>, r1: seq<Role>, m2: seq<Page>, r2: seq<Role>, tf: nat)
    requires TookOnly(m1, r1, m2, r2) && tf < |r0| && r0[tf] == Free && r1 == r0[tf := Other] && SameMap(m0, r0, m1)
    ensures TookOnly(m0, r0, m2, r2)
  {
    forall r: nat, v: nat | IsRoot(r0, r) && v < VPNS ensures Pte(m2, r, v) == Pte(m0, r, v) {
      assert IsRoot(r1, r);
      assert Pte(m1, r, v) == Pte(m0, r, v);
    }
    forall p | 0 <= p < |r0| ensures r2[p] == r0[p] || r0[p] == Free { assert r2[p] == r1[p] || r1[p] == Free; }
  }

  // ----- A thread's whole life -----

  /** After thread_create, thread_exit and thread_join every page is what it was before: each was given back once. */
  lemma LifeReturnsEveryPage(r0: seq<Role>, m1: seq<Page>, r1: seq<Role>, r2: seq<Role>, m2: seq<Page>, m3: seq<Page>,
                             r3: seq<Role>, t: Thread)
    requires Taken(r0, r1, t) && Sound(m1, r1) && t.tf < |r1| && r1[t.tf] == Other
    requires FreedRange(r1, r2, t.root, t.stack, 1) && Reaped(m2, r2, m3, r3, t)
    ensures r3 == r0
  {
    forall p: nat | p < |r0| ensures r3[p] == r0[p] {
      assert UpOk(m1, r1, p);
      if r1[p].Mid? || r1[p].Low? { assert r2[r1[p].parent] == r1[r1[p].parent]; }
      assert r2[p] == if OwnedIn(r1[p], t.root, t.stack, 1) then Free else r1[p];
      assert r3[p] == if p == t.tf || Under(r2, p, t.root) then Free else r2[p];
      assert OwnedIn(r1[p], t.root, t.stack, 1) <==> r1[p] == Owned(t.root, t.stack);
    }
  }

  /** Page p is in use by the thread: its trapframe, one of its tables, or the stack it still has. */
  ghost predicate Uses(role: seq<Role>, p: nat, t: Thread, hasStack: bool)
    requires p < |role|
  {
    (p == t.tf && role[p] == Other) || (IsRoot(role, t.root) && Under(role, p, t.root)) || (hasStack && role[p] == Owned(t.root, t.stack))
  }

  /** Other activity that takes nothing away from the thread; growproc may have given it more tables. */
  ghost predicate Keeps(r: seq<Role>, q: seq<Role>, t: Thread, hasStack: bool) {
    |r| == |q| && forall p: nat {:trigger r[p]} :: p < |r| && Uses(r, p, t, hasStack) ==> q[p] == r[p]
  }

  /**
  The same with anything going on in between: r0 to r1 is thread_create, q1 to r2 thread_exit, q2 to r3 the reaping. Each
  page that was taken stays in use until the one call that frees it, and neither call touches a page of anybody else.
  */
  lemma LifeReturnsItsPages(r0: seq<Role>, r1: seq<Role>, q1: seq<Role>, r2: seq<Role>, m2: seq<Page>, q2: seq<Role>,
                            m3: seq<Page>, r3: seq<Role>, t: Thread, p: nat)
    requires Taken(r0, r1, t) && Keeps(r1, q1, t, true) && FreedRange(q1, r2, t.root, t.stack, 1)
    requires Keeps(r2, q2, t, false) && Reaped(m2, q2, m3, r3, t) && p < |r0| && t.tf < |r0| && r1[t.tf] == Other
    requires IsRoot(r1, t.root)
    ensures Uses(r1, p, t, true) ==> r0[p] == Free && q1[p] != Free
    ensures Uses(r1, p, t, true) ==> (q1[p] == Owned(t.root, t.stack) && r2[p] == Free) || (q2[p] != Free && r3[p] == Free)
    ensures !Uses(q1, p, t, true) ==> r2[p] == q1[p]
    ensures !Uses(q2, p, t, false) ==> r3[p] == q2[p]
  {
    assert Uses(r1, t.tf, t, true) && Uses(r1, t.root, t, true);
    assert q1[t.tf] == Other && q1[t.root] == Root;
    forall x: nat | x < |q1| ensures r2[x] == if q1[x] == Owned(t.root, t.stack) then Free else q1[x] {
      assert OwnedIn(q1[x], t.root, t.stack, 1) <==> q1[x] == Owned(t.root, t.stack);
    }
    if p != t.tf && Under(r1, p, t.root) && r1[p].Low? && r1[p].parent != t.root {
      assert Uses(r1, r1[p].parent, t, true) && Uses(r2, q1[p].parent, t, false);
    }
    assert Uses(r2, t.root, t, false) && Uses(r2, t.tf, t, false);
    assert r3[p] == if p == t.tf || Under(q2, p, t.root) then Free else q2[p];
  }

  // ----- growproc -----

  /** The page tables of the group's threads: trees of their own, different from each other's and the leader's. */
  ghost predicate Group(role: seq<Role>, leader: nat, group: seq<nat>) {
    && IsRoot(role, leader)
    && (forall i {:trigger group[i]} :: 0 <= i < |group| ==> IsRoot(role, group[i]) && group[i] != leader)
    && (forall i, j :: 0 <= i < j < |group| ==> group[i] != group[j])
  }

  /** q shares the leader's pages below n and maps nothing from n up to `top`. */
  ghost predicate Member(mem: seq<Page>, leader: nat, q: nat, n: nat, top: nat, full: bool) {
    Shares(mem, leader, q, n, full) && forall w: nat {:trigger Pte(mem, q, w)} :: n <= w < top ==> Pte(mem, q, w) == 0
  }

  ghost predicate Members(mem: seq<Page>, leader: nat, group: seq<nat>, n: nat, top: nat, full: bool) {
    forall i {:trigger group[i]} :: 0 <= i < |group| ==> Member(mem, leader, group[i], n, top, full)
  }

  /** The members before j have had page v offered already, the others not yet. */
  ghost predicate Passing(mem: seq<Page>, leader: nat, group: seq<nat>, j: nat, v: nat, top: nat, full: bool) {
    forall i {:trigger group[i]} :: 0 <= i < |group| ==> Member(mem, leader, group[i], if i < j then v + 1 else v, top, full)
  }

  /** One more thread got the page, or `ok` is false and nothing is mapped otherwise. */
  lemma OneJoins(m1: seq<Page>, role: seq<Role>, m2: seq<Page>, leader: nat, group: seq<nat>, j: nat, v: nat, top: nat,
                 full: bool, ok: bool)
    requires Group(role, leader, group) && j < |group| && Passing(m1, leader, group, j, v, top, full) && v < top <= VPNS
    requires if ok then Updated(m1, role, m2, group[j], v, Want(m1, leader, v)) else SameMap(m1, role, m2)
    ensures Passing(m2, leader, group, j + 1, v, top, full && ok) && SameAt(m1, m2, leader)
  {
    forall w: nat | w < VPNS ensures Pte(m2, leader, w) == Pte(m1, leader, w) { }
    forall i | 0 <= i < |group| ensures Member(m2, leader, group[i], if i < j + 1 then v + 1 else v, top, full && ok) {
      var q := group[i];
      assert Member(m1, leader, q, if i < j then v + 1 else v, top, full);
      assert i != j ==> q != group[j];
      forall w: nat | w < top ensures !(ok && i == j && w == v) ==> Pte(m2, q, w) == Pte(m1, q, w) { }
    }
  }

  ghost function Tables(group: seq<nat>): set<nat> { set q | q in group }

  /**
  Page numbers in [first, top) of the spaces in `who` may have got a mapping. Every other translation, of these and of
  all other spaces, is as it was; so is every page that holds data. Only free pages were taken, for tables of these
  spaces or for the leader's memory in that range.
  */
  ghost predicate Spread(m0: seq<Page>, r0: seq<Role>, m1: seq<Page>, r1: seq<Role>, who: set<nat>, leader: nat, first: nat, top: nat) {
    && |m0| == |m1| == |r0| == |r1| && first <= top
    && (forall p {:trigger r1[p]} :: 0 <= p < |r0| ==> r1[p] == r0[p] || (r0[p] == Free && NewUse(r1, p, who, leader, first, top)))
    && (forall p {:trigger m1[p]} :: 0 <= p < |m0| && (r0[p] == Other || r0[p].Owned?) ==> m1[p] == m0[p])
    && (forall r: nat, w: nat {:trigger Pte(m1, r, w)} :: IsRoot(r0, r) && w < VPNS && !(r in who && first <= w < top) ==>
          Pte(m1, r, w) == Pte(m0, r, w))
  }

  ghost predicate NewUse(role: seq<Role>, p: nat, who: set<nat>, leader: nat, first: nat, top: nat)
    requires p < |role| && first <= top
  {
    OwnedIn(role[p], leader, first, top - first) || exists q :: q in who && InTree(role, p, q)
  }

  lemma SpreadNone(m: seq<Page>, r: seq<Role>, who: set<nat>, leader: nat, first: nat, top: nat)
    requires |m| == |r| && first <= top
    ensures Spread(m, r, m, r, who, leader, first, top)
  {
  }

  lemma UseStays(r1: seq<Role>, r2: seq<Role>, p: nat, who: set<nat>, leader: nat, first: nat, top: nat)
    requires |r1| == |r2| && p < |r1| && first <= top && r1[p] != Free && NewUse(r1, p, who, leader, first, top)
    requires forall x {:trigger r2[x]} :: 0 <= x < |r1| ==> r2[x] == r1[x] || r1[x] == Free
    ensures NewUse(r2, p, who, leader, first, top)
  {
    if q :| q in who && InTree(r1, p, q) {
      assert r2[p] == r1[p];
      assert InTree(r2, p, q);
    }
  }

  lemma SpreadOn(m0: seq<Page>, r0: seq<Role>, m1: seq<Page>, r1: seq<Role>, m2: seq<Page>, r2: seq<Role>,
                 who: set<nat>, leader: nat, first: nat, top: nat)
    requires Spread(m0, r0, m1, r1, who, leader, first, top) && Spread(m1, r1, m2, r2, who, leader, first, top)
    ensures Spread(m0, r0, m2, r2, who, leader, first, top)
  {
    forall p | 0 <= p < |r0| ensures r2[p] == r0[p] || (r0[p] == Free && NewUse(r2, p, who, leader, first, top)) {
      if r1[p] != r0[p] && r1[p] != Free { UseStays(r1, r2, p, who, leader, first, top); }
    }
    forall p | 0 <= p < |m0| && (r0[p] == Other || r0[p].Owned?) ensures m2[p] == m0[p] { assert r1[p] == r0[p]; }
    forall r: nat, w: nat | IsRoot(r0, r) && w < VPNS && !(r in who && first <= w < top) ensures Pte(m2, r, w) == Pte(m0, r, w) {
      assert r1[r] == r0[r];
      assert Pte(m1, r, w) == Pte(m0, r, w);
    }
  }

  lemma SpreadWider(m0: seq<Page>, r0: seq<Role>, m1: seq<Page>, r1: seq<Role>, who: set<nat>, leader: nat, first: nat, top: nat,
                    all: set<nat>, lo: nat, hi: nat)
    requires Spread(m0, r0, m1, r1, who, leader, first, top) && who <= all && lo <= first && top <= hi
    ensures Spread(m0, r0, m1, r1, all, leader, lo, hi)
  {
    forall p | 0 <= p < |r0| && r1[p] != r0[p] ensures NewUse(r1, p, all, leader, lo, hi) {
      if q :| q in who && InTree(r1, p, q) { assert q in all; }
    }
  }

  /** One table's step of growproc. */
  lemma MemberSpreads(m0: seq<Page>, r0: seq<Role>, m1: seq<Page>, r1: seq<Role>, leader: nat, q: nat, v: nat, e: nat, ok: bool)
    requires Grew(m0, r0, m1, r1, q) && if ok then Updated(m0, r0, m1, q, v, e) else SameMap(m0, r0, m1)
    ensures Spread(m0, r0, m1, r1, {q}, leader, v, v + 1)
  {
    forall p | 0 <= p < |r0| && r1[p] != r0[p] ensures NewUse(r1, p, {q}, leader, v, v + 1) { assert q in {q}; }
  }

  lemma OneSpreads(m0: seq<Page>, r0: seq<Role>, m1: seq<Page>, r1: seq<Role>, m2: seq<Page>, r2: seq<Role>,
                   leader: nat, group: seq<nat>, j: nat, v: nat, ok: bool)
    requires j < |group| && Spread(m0, r0, m1, r1, Tables(group), leader, v, v + 1)
    requires Grew(m1, r1, m2, r2, group[j])
    requires if ok then Updated(m1, r1, m2, group[j], v, Pte(m1, leader, v)) else SameMap(m1, r1, m2)
    ensures Spread(m0, r0, m2, r2, Tables(group), leader, v, v + 1)
  {
    MemberSpreads(m1, r1, m2, r2, leader, group[j], v, Pte(m1, leader, v), ok);
    SpreadWider(m1, r1, m2, r2, {group[j]}, leader, v, v + 1, Tables(group), v, v + 1);
    SpreadOn(m0, r0, m1, r1, m2, r2, Tables(group), leader, v, v + 1);
  }

  /** uvmalloc's step. */
  lemma LeaderSpreads(m0: seq<Page>, r0: seq<Role>, m1: seq<Page>, r1: seq<Role>, leader: nat, first: nat, imgs: seq<Image>)
    requires Grown(m0, r0, m1, r1, leader, first, imgs)
    ensures Spread(m0, r0, m1, r1, {leader}, leader, first, first + |imgs|)
  {
    forall p | 0 <= p < |r0| && r1[p] != r0[p] ensures NewUse(r1, p, {leader}, leader, first, first + |imgs|) {
      assert leader in {leader};
    }
  }

  lemma GroupStays(m0: seq<Page>, r0: seq<Role>, m1: seq<Page>, r1: seq<Role>, leader: nat, group: seq<nat>, root: nat)
    requires Group(r0, leader, group) && Grew(m0, r0, m1, r1, root)
    ensures Group(r1, leader, group)
  {
    GrewRoots(m0, r0, m1, r1, root);
  }

  /** walkaddr: the physical address of a user page, 0 if there is none. */
  method Walkaddr(k: Kmem, root: nat, va: nat) returns (pa: nat)
    requires VmOk(k) && IsRoot(k.role, root)
    modifies k
    ensures VmOk(k) && k.mem == old(k.mem) && k.role == old(k.role) && |k.list| == |old(k.list)|
    ensures pa == if va / PGSIZE < MAXVPN && Pte(k.mem, root, va / PGSIZE) % 2 == 1 && Pte(k.mem, root, va / PGSIZE) / 16 % 2 == 1
                  then Pte(k.mem, root, va / PGSIZE) / 1024 * PGSIZE else 0
  {
    if va >= MAXVPN * PGSIZE { return 0; }
    var found, pt, i := Walk(k, root, va, false);
    if !found { return 0; }
    var pte := k.mem[pt][i];
    pa := if IsUser(pte) then Addr(Ppn(pte)) else 0;
  }

  /** What uvmalloc maps with PTE_W, and growproc in the other tables. */
  predicate Grown1(e: nat) { e == Leaf(Addr(Ppn(e)), STACK_PERM) }

  lemma Grown1Shared(e: nat)
    requires Grown1(e)
    ensures IsUser(e) && SharedEntry(e) == e
  {
    LeafBits(Addr(Ppn(e)), STACK_PERM);
    DivMod(32, 32 * Ppn(e), 23);
    DivMod(16, 64 * Ppn(e) + 1, 7);
  }

  lemma DivMod(d: nat, x: nat, r: nat)
    requires r < d && (d == 16 || d == 32)
    ensures (d * x + r) / d == x && (d * x + r) % d == r
  {
  }

  /** growproc's inner loop body: map the page unless the table has one there already; a failure is ignored. */
  method GrowMember(k: Kmem, ghost leader: nat, q: nat, va: nat, pa: nat) returns (ghost ok: bool)
    requires VmOk(k) && IsRoot(k.role, leader) && IsRoot(k.role, q) && leader != q && va % PGSIZE == 0 && va / PGSIZE < MAXVPN
    requires Pte(k.mem, q, va / PGSIZE) == 0
    requires Grown1(Pte(k.mem, leader, va / PGSIZE)) && pa == Addr(Ppn(Pte(k.mem, leader, va / PGSIZE)))
    modifies k
    ensures VmOk(k) && Grew(old(k.mem), old(k.role), k.mem, k.role, q)
    ensures ok ==> Updated(old(k.mem), old(k.role), k.mem, q, va / PGSIZE, Pte(old(k.mem), leader, va / PGSIZE))
    ensures !ok ==> SameMap(old(k.mem), old(k.role), k.mem) && k.list == [] && |old(k.list)| < 2
    ensures Spent(old(k.list), k.list, 2)
  {
    var found, pt, i := Walk(k, q, va, false);
    if found && IsValid(k.mem[pt][i]) { return true; }
    ok := MapPage(k, q, va, pa, PTE_U + PTE_R + PTE_W);
  }

  /** growproc's inner loop: the leader's page at va goes into every thread's table that has the table page it needs. */
  method ShareWithGroup(k: Kmem, leader: nat, group: seq<nat>, va: nat, pa: nat, ghost top: nat, ghost full: bool)
    returns (ghost ok: bool)
    requires VmOk(k) && Group(k.role, leader, group) && va % PGSIZE == 0 && va / PGSIZE < top <= MAXVPN
    requires Members(k.mem, leader, group, va / PGSIZE, top, full)
    requires Grown1(Pte(k.mem, leader, va / PGSIZE)) && pa == Addr(Ppn(Pte(k.mem, leader, va / PGSIZE)))
    modifies k
    ensures VmOk(k) && Group(k.role, leader, group)
    ensures Spread(old(k.mem), old(k.role), k.mem, k.role, Tables(group), leader, va / PGSIZE, va / PGSIZE + 1)
    ensures Members(k.mem, leader, group, va / PGSIZE + 1, top, full && ok)
    ensures (!ok ==> k.list == [] && |old(k.list)| < 2 * |group|) && Spent(old(k.list), k.list, 2 * |group|)
  {
    ghost var m0, r0, l0, v := k.mem, k.role, k.list, va / PGSIZE;
    Grown1Shared(Pte(m0, leader, v));
    SpreadNone(m0, r0, Tables(group), leader, v, v + 1);
    ok := true;
    for j := 0 to |group|
      invariant VmOk(k) && Group(k.role, leader, group)
      invariant Passing(k.mem, leader, group, j, v, top, full && ok)
      invariant (!ok ==> k.list == [] && |l0| < 2 * j) && Spent(l0, k.list, 2 * j)
      invariant Spread(m0, r0, k.mem, k.role, Tables(group), leader, v, v + 1)
    {
      ghost var m1, r1 := k.mem, k.role;
      assert leader !in Tables(group);
      assert Member(m1, leader, group[j], v, top, full && ok);
      assert Pte(m1, group[j], v) == 0 && Pte(m1, leader, v) == Pte(m0, leader, v);
      ghost var one := GrowMember(k, leader, group[j], va, pa);
      GroupStays(m1, r1, k.mem, k.role, leader, group, group[j]);
      OneJoins(m1, r1, k.mem, leader, group, j, v, top, full && ok, one);
      OneSpreads(m0, r0, m1, r1, k.mem, k.role, leader, group, j, v, one);
      ok := ok && one;
    }
    AllJoined(k.mem, leader, group, v, top, full && ok);
  }

  /** The map of one space is the same in both memories. */
  ghost predicate SameAt(m0: seq<Page>, m1: seq<Page>, root: nat) {
    forall w: nat {:trigger Pte(m1, root, w)} :: w < VPNS ==> Pte(m1, root, w) == Pte(m0, root, w)
  }

  lemma AllJoined(mem: seq<Page>, leader: nat, group: seq<nat>, v: nat, top: nat, full: bool)
    requires Passing(mem, leader, group, |group|, v, top, full)
    ensures Members(mem, leader, group, v + 1, top, full)
  {
  }

  /** The leader's own growth, before anything is shared. */
  method GrowLeader(k: Kmem, leader: nat, ghost group: seq<nat>, oldsz: nat, n: nat, ghost full: bool) returns (newsz: nat)
    requires VmOk(k) && Group(k.role, leader, group) && n > 0 && PgUp(oldsz + n) <= TRAPFRAME
    requires forall w: nat {:trigger Pte(k.mem, leader, w)} :: PgUp(oldsz) <= w < PgUp(oldsz + n) ==> Pte(k.mem, leader, w) == 0
    requires Members(k.mem, leader, group, PgUp(oldsz), PgUp(oldsz + n), full)
    modifies k
    ensures VmOk(k) && Group(k.role, leader, group) && (newsz == 0 || newsz == oldsz + n)
    ensures newsz == 0 ==> SameMap(old(k.mem), old(k.role), k.mem) && Grew(old(k.mem), old(k.role), k.mem, k.role, leader)
    ensures newsz == 0 ==> |old(k.list)| < 3 * (PgUp(oldsz + n) - PgUp(oldsz))
    ensures newsz != 0 ==> Spent(old(k.list), k.list, 3 * (PgUp(oldsz + n) - PgUp(oldsz)))
    ensures newsz != 0 ==> Spread(old(k.mem), old(k.role), k.mem, k.role, {leader}, leader, PgUp(oldsz), PgUp(newsz))
    ensures newsz != 0 ==> Members(k.mem, leader, group, PgUp(oldsz), PgUp(newsz), full)
    ensures newsz != 0 ==> AllFresh(k.mem, k.role, leader, PgUp(oldsz), PgUp(newsz))
  {
    ghost var m0, r0, first, top := k.mem, k.role, PgUp(oldsz), PgUp(oldsz + n);
    newsz := Uvmalloc(k, leader, oldsz, oldsz + n, PTE_W);
    if newsz == 0 {
      GroupStays(m0, r0, k.mem, k.role, leader, group, leader);
    } else {
      AfterAlloc(m0, r0, k.mem, k.role, leader, group, first, top, full);
      LeaderSpreads(m0, r0, k.mem, k.role, leader, first, Zeros(top - first, WithRU(PTE_W)));
    }
  }

  /**
  growproc for n > 0, below the stacks: -1, with every map as it was, when there is no memory for the leader's pages;
  else every thread's table maps nothing but the leader's user pages below the new size, and all of them if no mappages
  failed. Such a failure is ignored; `complete` says that there was none, and there is none unless the last free page is
  gone. So whenever a page is left afterwards, or there were enough before, all tables agree with the leader's.
  */
  method GrowGroup(k: Kmem, leader: nat, group: seq<nat>, oldsz: nat, n: nat, ghost full: bool)
    returns (r: int, ghost complete: bool)
    requires VmOk(k) && Group(k.role, leader, group) && n > 0 && PgUp(oldsz + n) <= TRAPFRAME
    requires forall w: nat {:trigger Pte(k.mem, leader, w)} :: PgUp(oldsz) <= w < PgUp(oldsz + n) ==> Pte(k.mem, leader, w) == 0
    requires Members(k.mem, leader, group, PgUp(oldsz), PgUp(oldsz + n), full)
    modifies k
    ensures VmOk(k) && Group(k.role, leader, group) && (r == 0 || r == -1)
    ensures r == -1 ==> SameMap(old(k.mem), old(k.role), k.mem) && Grew(old(k.mem), old(k.role), k.mem, k.role, leader)
    ensures r == 0 ==> Spread(old(k.mem), old(k.role), k.mem, k.role, {leader} + Tables(group), leader,
                              PgUp(oldsz), PgUp(oldsz + n))
    ensures r == -1 ==> |old(k.list)| < 3 * (PgUp(oldsz + n) - PgUp(oldsz))
    ensures r == 0 ==> Members(k.mem, leader, group, PgUp(oldsz + n), PgUp(oldsz + n), full && complete)
    ensures r == 0 ==> Spent(old(k.list), k.list, GrowCost(|group|, PgUp(oldsz + n) - PgUp(oldsz)))
    ensures r == 0 && !complete ==> k.list == [] && |old(k.list)| < GrowCost(|group|, PgUp(oldsz + n) - PgUp(oldsz))
    ensures r == 0 && full && k.list != [] ==> Agree(k.mem, leader, group, PgUp(oldsz + n))
    ensures r == 0 ==> AllFresh(k.mem, k.role, leader, PgUp(oldsz), PgUp(oldsz + n))
  {
    ghost var m0, r0 := k.mem, k.role;
    var newsz := GrowLeader(k, leader, group, oldsz, n, full);
    if newsz == 0 { return -1, false; }
    ghost var m1, r1 := k.mem, k.role;
    complete := Broadcast(k, leader, group, oldsz, newsz, full);
    BothSpread(m0, r0, m1, r1, k.mem, k.role, leader, group, PgUp(oldsz), PgUp(newsz));
    if full && complete { MembersAgree(k.mem, leader, group, PgUp(newsz)); }
    r := 0;
  }

  /** So many free pages are enough for growproc to succeed for the leader and all threads. */
  function GrowCost(threads: nat, pages: nat): nat { 3 * pages + TablesFor(threads, pages) }

  /** Below page n every thread's table maps exactly what the leader's maps for the user, page for page. */
  ghost predicate Agree(mem: seq<Page>, leader: nat, group: seq<nat>, n: nat) {
    forall i, v: nat {:trigger Pte(mem, group[i], v)} :: 0 <= i < |group| && v < n ==>
      SharedAs(Pte(mem, leader, v), Pte(mem, group[i], v))
  }

  lemma MembersAgree(mem: seq<Page>, leader: nat, group: seq<nat>, n: nat)
    requires Members(mem, leader, group, n, n, true)
    ensures Agree(mem, leader, group, n)
  {
    forall i, v: nat | 0 <= i < |group| && v < n ensures SharedAs(Pte(mem, leader, v), Pte(mem, group[i], v)) {
      assert Member(mem, leader, group[i], n, n, true);
      SharesRights(mem, leader, group[i], n);
    }
  }

  method BroadcastPage(k: Kmem, leader: nat, group: seq<nat>, va: nat, ghost top: nat, ghost full: bool)
    returns (ghost ok: bool)
    requires VmOk(k) && Group(k.role, leader, group) && va % PGSIZE == 0 && va / PGSIZE < top <= MAXVPN
    requires Members(k.mem, leader, group, va / PGSIZE, top, full) && Grown1(Pte(k.mem, leader, va / PGSIZE))
    modifies k
    ensures VmOk(k) && Group(k.role, leader, group)
    ensures Spread(old(k.mem), old(k.role), k.mem, k.role, Tables(group), leader, va / PGSIZE, va / PGSIZE + 1)
    ensures Members(k.mem, leader, group, va / PGSIZE + 1, top, full && ok)
    ensures (!ok ==> k.list == [] && |old(k.list)| < 2 * |group|) && Spent(old(k.list), k.list, 2 * |group|)
  {
    Grown1Shared(Pte(k.mem, leader, va / PGSIZE));
    var pa := Walkaddr(k, leader, va);
    ok := ShareWithGroup(k, leader, group, va, pa, top, full);
  }

  /** As many pages as this become tables at the most when so many pages are mapped for so many threads. */
  function TablesFor(threads: nat, pages: nat): nat {
    if pages == 0 then 0 else TablesFor(threads, pages - 1) + 2 * threads
  }

  /** No more pages than that have left the free list, and tables are complete unless it ran out. */
  predicate Counted(before: seq<nat>, after: seq<nat>, threads: nat, pages: nat, complete: bool) {
    Spent(before, after, TablesFor(threads, pages)) && (!complete ==> after == [] && |before| < TablesFor(threads, pages))
  }

  lemma OneMorePage(l0: seq<nat>, l1: seq<nat>, l2: seq<nat>, threads: nat, pages: nat, complete: bool, ok: bool)
    requires Counted(l0, l1, threads, pages, complete) && Spent(l1, l2, 2 * threads)
    requires !ok ==> l2 == [] && |l1| < 2 * threads
    ensures Counted(l0, l2, threads, pages + 1, complete && ok)
  {
  }

  lemma SpreadNext(m0: seq<Page>, r0: seq<Role>, m1: seq<Page>, r1: seq<Role>, m2: seq<Page>, r2: seq<Role>,
                   who: set<nat>, leader: nat, first: nat, i: nat, top: nat)
    requires Spread(m0, r0, m1, r1, who, leader, first, top) && Spread(m1, r1, m2, r2, who, leader, i, i + 1)
    requires first <= i < top
    ensures Spread(m0, r0, m2, r2, who, leader, first, top)
  {
    SpreadWider(m1, r1, m2, r2, who, leader, i, i + 1, who, first, top);
    SpreadOn(m0, r0, m1, r1, m2, r2, who, leader, first, top);
  }

  /** growproc's loop over the pages the leader has gained. */
  method Broadcast(k: Kmem, leader: nat, group: seq<nat>, oldsz: nat, newsz: nat, ghost full: bool)
    returns (ghost complete: bool)
    requires VmOk(k) && Group(k.role, leader, group) && oldsz <= newsz && PgUp(newsz) <= TRAPFRAME
    requires Members(k.mem, leader, group, PgUp(oldsz), PgUp(newsz), full)
    requires forall w: nat {:trigger Pte(k.mem, leader, w)} :: PgUp(oldsz) <= w < PgUp(newsz) ==> Grown1(Pte(k.mem, leader, w))
    modifies k
    ensures VmOk(k) && Group(k.role, leader, group)
    ensures Spread(old(k.mem), old(k.role), k.mem, k.role, Tables(group), leader, PgUp(oldsz), PgUp(newsz))
    ensures Members(k.mem, leader, group, PgUp(newsz), PgUp(newsz), full && complete)
    ensures Counted(old(k.list), k.list, |group|, PgUp(newsz) - PgUp(oldsz), complete)
  {
    ghost var m1, r1, l1, first, top := k.mem, k.role, k.list, PgUp(oldsz), PgUp(newsz);
    SpreadNone(m1, r1, Tables(group), leader, first, top);
    ghost var i := first;
    complete := true;
    var va := PgUp(oldsz) * PGSIZE;
    while va < newsz
      invariant VmOk(k) && va == i * PGSIZE && first <= i <= top
      invariant Offered(m1, r1, l1, k.mem, k.role, k.list, leader, group, first, i, top, full, complete)
    {
      if va >= TRAPFRAME * PGSIZE { assert false; break; }
      complete := BroadcastNext(k, leader, group, va, m1, r1, l1, first, i, top, full, complete);
      va := va + PGSIZE;
      i := i + 1;
    }
  }

  /** The threads have been offered the leader's pages from first up to i. */
  ghost predicate Offered(m1: seq<Page>, r1: seq<Role>, l1: seq<nat>, mem: seq<Page>, role: seq<Role>, list: seq<nat>,
                          leader: nat, group: seq<nat>, first: nat, i: nat, top: nat, full: bool, complete: bool) {
    && first <= i && Group(role, leader, group) && Members(mem, leader, group, i, top, full && complete)
    && Spread(m1, r1, mem, role, Tables(group), leader, first, top) && Counted(l1, list, |group|, i - first, complete)
  }

  /** One turn of that loop. */
  method BroadcastNext(k: Kmem, leader: nat, group: seq<nat>, va: nat, ghost m1: seq<Page>, ghost r1: seq<Role>, ghost l1: seq<nat>,
                       ghost first: nat, ghost i: nat, ghost top: nat, ghost full: bool, ghost was: bool)
    returns (ghost complete: bool)
    requires VmOk(k) && Offered(m1, r1, l1, k.mem, k.role, k.list, leader, group, first, i, top, full, was)
    requires IsRoot(r1, leader) && leader !in Tables(group) && va == i * PGSIZE && i < top <= MAXVPN && Grown1(Pte(m1, leader, i))
    modifies k
    ensures VmOk(k) && Offered(m1, r1, l1, k.mem, k.role, k.list, leader, group, first, i + 1, top, full, complete)
  {
    ghost var m2, r2, l2 := k.mem, k.role, k.list;
    assert va / PGSIZE == i;
    assert Pte(m2, leader, i) == Pte(m1, leader, i);
    ghost var ok := BroadcastPage(k, leader, group, va, top, full && was);
    SpreadNext(m1, r1, m2, r2, k.mem, k.role, Tables(group), leader, first, i, top);
    OneMorePage(l1, l2, k.list, |group|, i - first, was, ok);
    complete := was && ok;
  }

  /** A page the leader has just gained: its own, zeroed, readable and writable. */
  ghost predicate Fresh(mem: seq<Page>, role: seq<Role>, leader: nat, w: nat) {
    && Grown1(Pte(mem, leader, w)) && Permits(Pte(mem, leader, w), PTE_W) && OwnsPage(mem, role, leader, w)
    && Ppn(Pte(mem, leader, w)) < |mem| && mem[Ppn(Pte(mem, leader, w))] == Filled(0)
  }

  ghost predicate AllFresh(mem: seq<Page>, role: seq<Role>, leader: nat, first: nat, top: nat) {
    forall w: nat {:trigger Pte(mem, leader, w)} :: first <= w < top ==> Fresh(mem, role, leader, w)
  }

  /** The leader's growth and then its threads'. */
  lemma BothSpread(m0: seq<Page>, r0: seq<Role>, m1: seq<Page>, r1: seq<Role>, m2: seq<Page>, r2: seq<Role>,
                   leader: nat, group: seq<nat>, first: nat, top: nat)
    requires Group(r0, leader, group) && top <= VPNS && Group(r1, leader, group)
    requires Spread(m0, r0, m1, r1, {leader}, leader, first, top)
    requires Spread(m1, r1, m2, r2, Tables(group), leader, first, top)
    requires AllFresh(m1, r1, leader, first, top)
    ensures Spread(m0, r0, m2, r2, {leader} + Tables(group), leader, first, top)
    ensures AllFresh(m2, r2, leader, first, top)
  {
    SpreadWider(m0, r0, m1, r1, {leader}, leader, first, top, {leader} + Tables(group), first, top);
    SpreadWider(m1, r1, m2, r2, Tables(group), leader, first, top, {leader} + Tables(group), first, top);
    SpreadOn(m0, r0, m1, r1, m2, r2, {leader} + Tables(group), leader, first, top);
    assert leader !in Tables(group);
    forall w: nat | first <= w < top ensures Fresh(m2, r2, leader, w) {
      assert Pte(m2, leader, w) == Pte(m1, leader, w);
      assert Fresh(m1, r1, leader, w);
    }
  }

  lemma AfterAlloc(m0: seq<Page>, r0: seq<Role>, m1: seq<Page>, r1: seq<Role>, leader: nat, group: seq<nat>, first: nat, top: nat,
                   full: bool)
    requires Group(r0, leader, group) && first <= top <= MAXVPN && Members(m0, leader, group, first, top, full)
    requires Grown(m0, r0, m1, r1, leader, first, Zeros(top - first, WithRU(PTE_W)))
    ensures Group(r1, leader, group) && Members(m1, leader, group, first, top, full)
    ensures AllFresh(m1, r1, leader, first, top)
  {
    GrownRoots(m0, r0, m1, r1, leader, first, Zeros(top - first, WithRU(PTE_W)));
    forall i | 0 <= i < |group| ensures Member(m1, leader, group[i], first, top, full) {
      var q := group[i];
      assert Member(m0, leader, q, first, top, full);
      forall w: nat | w < top ensures Pte(m1, q, w) == Pte(m0, q, w) { }
      forall w: nat | w < first ensures Pte(m1, leader, w) == Pte(m0, leader, w) { }
    }
    forall w: nat | first <= w < top ensures Fresh(m1, r1, leader, w) {
      assert Placed(r0, m1, r1, leader, first + (w - first), Zeros(top - first, WithRU(PTE_W))[w - first]);
      var e := Pte(m1, leader, w);
      assert e == 1024 * Ppn(e) + Flags(e);
      AskedFor(e, PTE_W);
    }
  }

  /** No page of the range [lo, hi) belongs to a thread. */
  ghost predicate NoneOwnedIn(role: seq<Role>, group: seq<nat>, lo: nat, hi: nat) {
    forall p, i {:trigger role[p], group[i]} :: 0 <= p < |role| && 0 <= i < |group| && role[p].Owned? && role[p].root == group[i] ==>
      !(lo <= role[p].vpn < hi)
  }

  /** Page numbers in [lo, hi) of the spaces in `who` map nothing; every other translation is as it was. */
  ghost predicate Withdrawn(m0: seq<Page>, r0: seq<Role>, m1: seq<Page>, who: set<nat>, lo: nat, hi: nat) {
    forall r: nat, w: nat {:trigger Pte(m1, r, w)} :: IsRoot(r0, r) && w < VPNS ==>
      Pte(m1, r, w) == if r in who && lo <= w < hi then 0 else Pte(m0, r, w)
  }

  lemma WithdrawOne(m0: seq<Page>, role: seq<Role>, m1: seq<Page>, m2: seq<Page>, group: seq<nat>, j: nat, v: nat)
    requires j < |group| && Withdrawn(m0, role, m1, Tables(group[..j]), v, v + 1) && Unmapped(m1, role, m2, group[j], v, 1)
    ensures Withdrawn(m0, role, m2, Tables(group[..j + 1]), v, v + 1)
  {
    assert group[..j + 1] == group[..j] + [group[j]];
    forall r: nat, w: nat | IsRoot(role, r) && w < VPNS
      ensures Pte(m2, r, w) == if r in Tables(group[..j + 1]) && v <= w < v + 1 then 0 else Pte(m0, r, w)
    {
      assert Pte(m1, r, w) == if r in Tables(group[..j]) && v <= w < v + 1 then 0 else Pte(m0, r, w);
      assert r in Tables(group[..j + 1]) <==> r in Tables(group[..j]) || r == group[j];
    }
  }

  /** uvmunmap(root, va, 1, 0); false is its panic. */
  method UnmapLive(k: Kmem, root: nat, va: nat) returns (ok: bool)
    requires VmOk(k) && IsRoot(k.role, root) && va % PGSIZE == 0 && va / PGSIZE < MAXVPN
    requires NobodyOwns(k.role, root, va / PGSIZE)
    modifies k
    ensures VmOk(k) && k.role == old(k.role) && SameData(old(k.mem), k.mem, k.role)
    ensures ok <==> IsValid(Pte(old(k.mem), root, va / PGSIZE))
    ensures ok ==> Unmapped(old(k.mem), old(k.role), k.mem, root, va / PGSIZE, 1)
  {
    ghost var m0, r0, v := k.mem, k.role, va / PGSIZE;
    var found, pt, i := Walk(k, root, va, false);
    ok := found && IsValid(k.mem[pt][i]);
    assert ok <==> IsValid(Pte(m0, root, v));
    if ok {
      OneReady(m0, r0, root, v);
      Uvmunmap(k, root, va, 1, false);
    }
  }

  /** Every thread maps page v. */
  ghost predicate AllMap(mem: seq<Page>, group: seq<nat>, v: nat) {
    forall i {:trigger group[i]} :: 0 <= i < |group| ==> IsValid(Pte(mem, group[i], v))
  }

  /**
  growproc's inner loop for n < 0: uvmunmap(q->pagetable, va, 1, 0) for every thread. It panics, `ok` is false, at the
  first thread that does not map the page.
  */
  method DropFromGroup(k: Kmem, leader: nat, group: seq<nat>, va: nat) returns (ok: bool)
    requires VmOk(k) && Group(k.role, leader, group) && va % PGSIZE == 0 && va / PGSIZE < MAXVPN
    requires NoneOwnedIn(k.role, group, va / PGSIZE, va / PGSIZE + 1)
    modifies k
    ensures VmOk(k) && k.role == old(k.role) && SameData(old(k.mem), k.mem, k.role)
    ensures ok <==> AllMap(old(k.mem), group, va / PGSIZE)
    ensures ok ==> Withdrawn(old(k.mem), k.role, k.mem, Tables(group), va / PGSIZE, va / PGSIZE + 1)
  {
    ghost var m0, r0, v := k.mem, k.role, va / PGSIZE;
    for j := 0 to |group|
      invariant VmOk(k) && k.role == r0 && SameData(m0, k.mem, r0)
      invariant Withdrawn(m0, r0, k.mem, Tables(group[..j]), v, v + 1)
      invariant AllMap(m0, group[..j], v)
    {
      ghost var m1 := k.mem;
      assert group[j] !in Tables(group[..j]);
      assert Pte(m1, group[j], v) == Pte(m0, group[j], v);
      assert NobodyOwns(r0, group[j], v);
      ok := UnmapLive(k, group[j], va);
      if !ok { return; }
      assert group[..j + 1] == group[..j] + [group[j]];
      WithdrawOne(m0, r0, m1, k.mem, group, j, v);
      DataOn(m0, m1, r0, k.mem, r0);
    }
    assert group[..|group|] == group;
    ok := true;
  }

  lemma WithdrawNext(m0: seq<Page>, role: seq<Role>, m1: seq<Page>, m2: seq<Page>, who: set<nat>, lo: nat, v: nat)
    requires lo <= v && Withdrawn(m0, role, m1, who, lo, v) && Withdrawn(m1, role, m2, who, v, v + 1)
    ensures Withdrawn(m0, role, m2, who, lo, v + 1)
  {
    forall r: nat, w: nat | IsRoot(role, r) && w < VPNS
      ensures Pte(m2, r, w) == if r in who && lo <= w < v + 1 then 0 else Pte(m0, r, w)
    {
      assert Pte(m1, r, w) == if r in who && lo <= w < v then 0 else Pte(m0, r, w);
    }
  }

  /** The leader's pages first, then its threads'. */
  lemma BothWithdrawn(m0: seq<Page>, r0: seq<Role>, m1: seq<Page>, r1: seq<Role>, m2: seq<Page>, leader: nat, group: seq<nat>,
                      lo: nat, hi: nat)
    requires Group(r0, leader, group) && lo <= hi && Unmapped(m0, r0, m1, leader, lo, hi - lo)
    requires FreedRange(r0, r1, leader, lo, hi - lo) && Withdrawn(m1, r1, m2, Tables(group), lo, hi)
    ensures Withdrawn(m0, r0, m2, {leader} + Tables(group), lo, hi)
  {
    forall r: nat, w: nat | IsRoot(r0, r) && w < VPNS
      ensures Pte(m2, r, w) == if r in {leader} + Tables(group) && lo <= w < hi then 0 else Pte(m0, r, w)
    {
      assert r1[r] == r0[r];
      assert Pte(m1, r, w) == if r == leader && lo <= w < lo + (hi - lo) then 0 else Pte(m0, r, w);
    }
  }

  lemma AfterDealloc(m0: seq<Page>, r0: seq<Role>, m1: seq<Page>, r1: seq<Role>, leader: nat, group: seq<nat>, lo: nat, hi: nat)
    requires Group(r0, leader, group) && lo <= hi <= MAXVPN && NoneOwnedIn(r0, group, lo, hi)
    requires Unmapped(m0, r0, m1, leader, lo, hi - lo) && FreedRange(r0, r1, leader, lo, hi - lo)
    ensures Group(r1, leader, group) && NoneOwnedIn(r1, group, lo, hi)
    ensures forall v: nat :: v < VPNS ==> (AllMap(m1, group, v) <==> AllMap(m0, group, v))
  {
    forall i | 0 <= i < |group| ensures IsRoot(r1, group[i]) { assert r1[group[i]] == r0[group[i]]; }
    assert r1[leader] == r0[leader];
    forall p, i | 0 <= p < |r1| && 0 <= i < |group| && r1[p].Owned? && r1[p].root == group[i] ensures !(lo <= r1[p].vpn < hi) {
      assert r0[p] == r1[p] && group[i] == group[i];
    }
    forall v: nat | v < VPNS ensures AllMap(m1, group, v) <==> AllMap(m0, group, v) {
      assert forall i {:trigger group[i]} :: 0 <= i < |group| ==> Pte(m1, group[i], v) == Pte(m0, group[i], v);
    }
  }

  lemma StillMapped(m1: seq<Page>, r1: seq<Role>, m2: seq<Page>, leader: nat, group: seq<nat>, lo: nat, v: nat)
    requires Group(r1, leader, group) && Withdrawn(m1, r1, m2, Tables(group), lo, v) && v < VPNS
    ensures AllMap(m2, group, v) <==> AllMap(m1, group, v)
  {
    assert forall i {:trigger group[i]} :: 0 <= i < |group| ==> Pte(m2, group[i], v) == Pte(m1, group[i], v);
  }

  /** The pages [lo, hi) can be unmapped from every thread's table, as growproc does for n < 0 without looking. */
  ghost predicate Droppable(mem: seq<Page>, group: seq<nat>, lo: nat, hi: nat) {
    forall v: nat {:trigger AllMap(mem, group, v)} :: lo <= v < hi ==> AllMap(mem, group, v)
  }

  /**
  growproc for n < 0: the leader's pages above the new size are freed, and no thread's table maps one of them. It panics,
  `ok` is false, exactly when some thread does not map one of the pages.
  */
  method ShrinkGroup(k: Kmem, leader: nat, group: seq<nat>, oldsz: nat, newsz: nat, ghost full: bool) returns (ok: bool)
    requires VmOk(k) && Group(k.role, leader, group) && newsz < oldsz && PgUp(oldsz) <= TRAPFRAME
    requires Members(k.mem, leader, group, PgUp(oldsz), PgUp(oldsz), full)
    requires NoneOwnedIn(k.role, group, PgUp(newsz), PgUp(oldsz))
    requires UnmapReady(k.mem, k.role, leader, PgUp(newsz), PgUp(oldsz) - PgUp(newsz), true)
    modifies k
    ensures ok <==> Droppable(old(k.mem), group, PgUp(newsz), PgUp(oldsz))
    ensures ok ==> VmOk(k) && Group(k.role, leader, group)
    ensures ok ==> FreedRange(old(k.role), k.role, leader, PgUp(newsz), PgUp(oldsz) - PgUp(newsz))
    ensures ok ==> Withdrawn(old(k.mem), old(k.role), k.mem, {leader} + Tables(group), PgUp(newsz), PgUp(oldsz))
    ensures ok ==> SameData(old(k.mem), k.mem, k.role)
    ensures ok ==> Members(k.mem, leader, group, PgUp(newsz), PgUp(oldsz), full)
  {
    ghost var m0, r0, lo, hi := k.mem, k.role, PgUp(newsz), PgUp(oldsz);
    var _ := Uvmdealloc(k, leader, oldsz, newsz);
    ghost var m1, r1 := k.mem, k.role;
    AfterDealloc(m0, r0, m1, r1, leader, group, lo, hi);
    ok := DropRange(k, leader, group, PgUp(newsz), PgUp(oldsz));
    if ok {
      DataOn(m0, m1, r1, k.mem, k.role);
      BothWithdrawn(m0, r0, m1, r1, k.mem, leader, group, lo, hi);
      ShrunkMembers(m0, r0, k.mem, leader, group, lo, hi, full);
    }
  }

  lemma DroppableOn(mem: seq<Page>, group: seq<nat>, lo: nat, v: nat)
    requires Droppable(mem, group, lo, v) && AllMap(mem, group, v)
    ensures Droppable(mem, group, lo, v + 1)
  {
  }

  /** growproc's outer loop for n < 0. */
  method DropRange(k: Kmem, leader: nat, group: seq<nat>, lo: nat, hi: nat) returns (ok: bool)
    requires VmOk(k) && Group(k.role, leader, group) && lo <= hi <= TRAPFRAME && NoneOwnedIn(k.role, group, lo, hi)
    modifies k
    ensures VmOk(k) && k.role == old(k.role) && SameData(old(k.mem), k.mem, k.role)
    ensures ok <==> Droppable(old(k.mem), group, lo, hi)
    ensures ok ==> Withdrawn(old(k.mem), k.role, k.mem, Tables(group), lo, hi)
  {
    ghost var m1, r1, v := k.mem, k.role, lo;
    var va := lo * PGSIZE;
    while va < hi * PGSIZE
      invariant VmOk(k) && k.role == r1 && va == v * PGSIZE && lo <= v <= hi
      invariant Droppable(m1, group, lo, v)
      invariant Withdrawn(m1, r1, k.mem, Tables(group), lo, v) && SameData(m1, k.mem, r1)
    {
      ghost var m2 := k.mem;
      assert va / PGSIZE == v;
      StillMapped(m1, r1, m2, leader, group, lo, v);
      ok := DropFromGroup(k, leader, group, va);
      DataOn(m1, m2, r1, k.mem, r1);
      if !ok { return; }
      DroppableOn(m1, group, lo, v);
      WithdrawNext(m1, r1, m2, k.mem, Tables(group), lo, v);
      va := va + PGSIZE;
      v := v + 1;
    }
    ok := true;
  }

  lemma ShrunkMembers(m0: seq<Page>, r0: seq<Role>, m1: seq<Page>, leader: nat, group: seq<nat>, lo: nat, hi: nat, full: bool)
    requires Group(r0, leader, group) && Members(m0, leader, group, hi, hi, full) && lo <= hi <= VPNS
    requires Withdrawn(m0, r0, m1, {leader} + Tables(group), lo, hi)
    ensures Members(m1, leader, group, lo, hi, full)
  {
    forall i | 0 <= i < |group| ensures Member(m1, leader, group[i], lo, hi, full) {
      var q := group[i];
      assert Member(m0, leader, q, hi, hi, full);
      forall w: nat | w < lo ensures Pte(m1, q, w) == Pte(m0, q, w) && Pte(m1, leader, w) == Pte(m0, leader, w) { }
    }
  }

  // ----- What growproc keeps -----

  /** Every user page of the leader below n is its own. */
  ghost predicate LeaderOwns(mem: seq<Page>, role: seq<Role>, leader: nat, n: nat) {
    forall w: nat {:trigger Pte(mem, leader, w)} :: w < n && IsUser(Pte(mem, leader, w)) ==> OwnsPage(mem, role, leader, w)
  }

  lemma GrowKeepsOwnership(m0: seq<Page>, r0: seq<Role>, m1: seq<Page>, r1: seq<Role>, leader: nat, group: seq<nat>,
                           first: nat, top: nat)
    requires Group(r0, leader, group) && Spread(m0, r0, m1, r1, {leader} + Tables(group), leader, first, top) && top <= VPNS
    requires LeaderOwns(m0, r0, leader, first) && AllFresh(m1, r1, leader, first, top)
    ensures LeaderOwns(m1, r1, leader, top)
  {
    forall w: nat | w < top && IsUser(Pte(m1, leader, w)) ensures OwnsPage(m1, r1, leader, w) {
      if w < first {
        assert Pte(m1, leader, w) == Pte(m0, leader, w);
      } else {
        assert Fresh(m1, r1, leader, w);
      }
    }
  }

  lemma ShrinkKeepsOwnership(m0: seq<Page>, r0: seq<Role>, m1: seq<Page>, r1: seq<Role>, leader: nat, group: seq<nat>,
                             lo: nat, hi: nat)
    requires Group(r0, leader, group) && Withdrawn(m0, r0, m1, {leader} + Tables(group), lo, hi) && lo <= hi <= VPNS
    requires LeaderOwns(m0, r0, leader, hi) && FreedRange(r0, r1, leader, lo, hi - lo)
    ensures LeaderOwns(m1, r1, leader, lo)
  {
    forall w: nat | w < lo && IsUser(Pte(m1, leader, w)) ensures OwnsPage(m1, r1, leader, w) {
      assert Pte(m1, leader, w) == Pte(m0, leader, w);
      assert OwnsPage(m0, r0, leader, w);
    }
  }

  /** A thread below whose stack the group grows is still one, and can leave and be reaped like any other. */
  lemma GrowKeepsThread(m0: seq<Page>, r0: seq<Role>, m1: seq<Page>, r1: seq<Role>, leader: nat, group: seq<nat>, i: nat, t: Thread,
                        first: nat, top: nat, hasStack: bool, tramp: nat, was: bool, full: bool)
    requires Group(r0, leader, group) && Spread(m0, r0, m1, r1, {leader} + Tables(group), leader, first, top)
    requires Members(m1, leader, group, top, top, full) && i < |group| && group[i] == t.root && top <= t.stack
    requires ThreadOk(m0, r0, leader, t, first, hasStack, tramp, was)
    ensures ThreadOk(m1, r1, leader, t, top, hasStack, tramp, full)
  {
    assert Member(m1, leader, group[i], top, top, full);
    assert r1[t.root] == r0[t.root] && r1[t.tf] == r0[t.tf];
    forall v: nat | top <= v < VPNS ensures Pte(m1, t.root, v) == Pte(m0, t.root, v) { }
    forall p | 0 <= p < |r1| && r1[p].Owned? && r1[p].root == t.root ensures hasStack && r1[p].vpn == t.stack {
      assert r1[p] == r0[p];
    }
  }

  lemma ShrinkKeepsThread(m0: seq<Page>, r0: seq<Role>, m1: seq<Page>, r1: seq<Role>, leader: nat, group: seq<nat>, i: nat, t: Thread,
                          lo: nat, hi: nat, hasStack: bool, tramp: nat, full: bool)
    requires Group(r0, leader, group) && Withdrawn(m0, r0, m1, {leader} + Tables(group), lo, hi) && lo <= hi && |m1| == |r1|
    requires FreedRange(r0, r1, leader, lo, hi - lo) && Members(m1, leader, group, lo, hi, full)
    requires i < |group| && group[i] == t.root && ThreadOk(m0, r0, leader, t, hi, hasStack, tramp, full)
    ensures ThreadOk(m1, r1, leader, t, lo, hasStack, tramp, full)
  {
    assert Member(m1, leader, group[i], lo, hi, full);
    assert r1[t.root] == r0[t.root] && r1[t.tf] == r0[t.tf];
    forall v: nat | lo <= v < VPNS ensures Pte(m1, t.root, v) == if v < hi then 0 else Pte(m0, t.root, v) { }
    forall p | 0 <= p < |r1| && r1[p].Owned? && r1[p].root == t.root ensures hasStack && r1[p].vpn == t.stack {
      assert r1[p] == r0[p];
    }
  }

  /** Growing or shrinking the group takes no page from a thread. */
  lemma GrowprocKeepsPages(m0: seq<Page>, r0: seq<Role>, m1: seq<Page>, r1: seq<Role>, leader: nat, group: seq<nat>, t: Thread,
                           first: nat, top: nat, hasStack: bool)
    requires t.root != leader && first <= top
    requires Spread(m0, r0, m1, r1, {leader} + Tables(group), leader, first, top) || FreedRange(r0, r1, leader, first, top - first)
    ensures Keeps(r0, r1, t, hasStack)
  {
    forall p: nat | p < |r0| && Uses(r0, p, t, hasStack) ensures r1[p] == r0[p] { }
  }

  lemma UsesStay(r0: seq<Role>, r1: seq<Role>, t: Thread, hasStack: bool, p: nat)
    requires Keeps(r0, r1, t, hasStack) && p < |r0| && Uses(r0, p, t, hasStack)
    ensures Uses(r1, p, t, hasStack)
  {
    if IsRoot(r0, t.root) {
      assert Uses(r0, t.root, t, hasStack);
      if Under(r0, p, t.root) && r0[p].Low? && r0[p].parent < |r0| && Under(r0, r0[p].parent, t.root) {
        assert Uses(r0, r0[p].parent, t, hasStack);
      }
    }
  }

  /** A new thread joins the group. */
  lemma GroupWith(m0: seq<Page>, r0: seq<Role>, m1: seq<Page>, r1: seq<Role>, leader: nat, group: seq<nat>, t: Thread,
                  n: nat, top: nat, tramp: nat, full: bool)
    requires Group(r0, leader, group) && Members(m0, leader, group, n, top, full) && n <= top <= t.stack && |m0| == |r0|
    requires Taken(r0, r1, t) && OthersSame(m0, r0, m1, t.root) && ThreadOk(m1, r1, leader, t, n, true, tramp, true)
    requires t.root < |r0| && t.tf < |r0|
    ensures Group(r1, leader, group + [t.root]) && Members(m1, leader, group + [t.root], n, top, full)
  {
    var g := group + [t.root];
    assert Under(r1, t.root, t.root) && r0[t.root] == Free && r0[t.tf] == Free;
    forall r: nat | IsRoot(r0, r) ensures IsRoot(r1, r) && r != t.root { assert r1[r] == r0[r]; }
    forall i | 0 <= i < |g| ensures Member(m1, leader, g[i], n, top, full) {
      if i < |group| {
        assert Member(m0, leader, group[i], n, top, full);
        forall w: nat | w < VPNS ensures Pte(m1, g[i], w) == Pte(m0, g[i], w) && Pte(m1, leader, w) == Pte(m0, leader, w) { }
      }
    }
  }

  /** thread_create in a group. */
  method JoinGroup(k: Kmem, leader: nat, group: seq<nat>, stack: nat, n: nat, ghost top: nat, tramp: nat, ghost full: bool)
    returns (o: Outcome)
    requires VmOk(k) && Group(k.role, leader, group) && n <= top <= stack < TRAPFRAME
    requires Members(k.mem, leader, group, n, top, full) && LeaderOwns(k.mem, k.role, leader, n)
    modifies k
    ensures VmOk(k)
    ensures if o.Made? then Spent(old(k.list), k.list, 2 * n + 9) else |old(k.list)| < 2 * n + 9
    ensures o.NoMemory? ==> k.role == old(k.role) && SameMap(old(k.mem), old(k.role), k.mem)
    ensures o.Abandoned? ==> TookOnly(old(k.mem), old(k.role), k.mem, k.role)
    ensures !o.Made? ==> Group(k.role, leader, group) && Members(k.mem, leader, group, n, top, full)
    ensures o.Made? ==> Group(k.role, leader, group + [o.t.root]) && Members(k.mem, leader, group + [o.t.root], n, top, full)
    ensures LeaderOwns(k.mem, k.role, leader, n) && SameAt(old(k.mem), k.mem, leader)
    ensures o.Made? ==> Taken(old(k.role), k.role, o.t) && k.lo <= o.t.tf && o.t.stack == stack
    ensures o.Made? ==> ThreadOk(k.mem, k.role, leader, o.t, n, true, tramp, true)
    ensures o.Made? ==> AllShared(k.mem, leader, o.t.root, n) && Permits(Pte(k.mem, o.t.root, stack), PTE_W)
    ensures o.Made? ==> OthersSame(old(k.mem), old(k.role), k.mem, o.t.root)
  {
    ghost var m0, r0 := k.mem, k.role;
    o := ThreadCreate(k, leader, stack, n, tramp);
    if o.Made? {
      GroupWith(m0, r0, k.mem, k.role, leader, group, o.t, n, top, tramp, full);
      CreateKeepsOwnership(m0, r0, k.mem, k.role, leader, o.t, n);
    } else {
      GroupUntouched(m0, r0, k.mem, k.role, leader, group, n, top, full);
    }
  }

  /** A thread_create that failed leaves the group as it was. */
  lemma GroupUntouched(m0: seq<Page>, r0: seq<Role>, m1: seq<Page>, r1: seq<Role>, leader: nat, group: seq<nat>,
                       n: nat, top: nat, full: bool)
    requires Group(r0, leader, group) && Members(m0, leader, group, n, top, full) && n <= top <= VPNS
    requires TookOnly(m0, r0, m1, r1) && LeaderOwns(m0, r0, leader, n)
    ensures Group(r1, leader, group) && Members(m1, leader, group, n, top, full)
    ensures LeaderOwns(m1, r1, leader, n) && SameAt(m0, m1, leader)
  {
    assert r1[leader] == r0[leader];
    forall w: nat | w < VPNS ensures Pte(m1, leader, w) == Pte(m0, leader, w) { }
    forall i | 0 <= i < |group| ensures IsRoot(r1, group[i]) && Member(m1, leader, group[i], n, top, full) {
      assert r1[group[i]] == r0[group[i]];
      assert Member(m0, leader, group[i], n, top, full);
      forall w: nat | w < VPNS ensures Pte(m1, group[i], w) == Pte(m0, group[i], w) { }
    }
    forall w: nat | w < n && IsUser(Pte(m1, leader, w)) ensures OwnsPage(m1, r1, leader, w) {
      assert OwnsPage(m0, r0, leader, w);
    }
  }

  lemma CreateKeepsOwnership(m0: seq<Page>, r0: seq<Role>, m1: seq<Page>, r1: seq<Role>, leader: nat, t: Thread, n: nat)
    requires IsRoot(r0, leader) && leader != t.root && Taken(r0, r1, t) && OthersSame(m0, r0, m1, t.root) && n <= VPNS
    requires LeaderOwns(m0, r0, leader, n)
    ensures LeaderOwns(m1, r1, leader, n) && SameAt(m0, m1, leader)
  {
    forall w: nat | w < VPNS ensures Pte(m1, leader, w) == Pte(m0, leader, w) { }
    forall w: nat | w < n && IsUser(Pte(m1, leader, w)) ensures OwnsPage(m1, r1, leader, w) {
      assert OwnsPage(m0, r0, leader, w);
    }
  }

  /** thread_exit and then the reaping: every page the thread uses is free, and the leader has kept its own. */
  method LeaveGroup(k: Kmem, leader: nat, t: Thread, n: nat, tramp: nat, ghost full: bool)
    requires VmOk(k) && IsRoot(k.role, leader) && ThreadOk(k.mem, k.role, leader, t, n, true, tramp, full) && k.lo <= t.tf
    requires LeaderOwns(k.mem, k.role, leader, n)
    modifies k
    ensures VmOk(k) && LeaderOwns(k.mem, k.role, leader, n) && |k.role| == old(|k.role|)
    ensures forall p: nat {:trigger k.role[p]} :: p < |k.role| ==>
              k.role[p] == if Uses(old(k.role), p, t, true) then Free else old(k.role)[p]
    ensures OthersSame(old(k.mem), old(k.role), k.mem, t.root)
  {
    ghost var m0, r0 := k.mem, k.role;
    FreeStack(k, leader, t, n, tramp, full);
    ghost var m1, r1 := k.mem, k.role;
    FreeprocThread(k, leader, t, n, tramp, full);
    AllReturned(m0, r0, m1, r1, k.mem, k.role, leader, t, n);
  }

  lemma AllReturned(m0: seq<Page>, r0: seq<Role>, m1: seq<Page>, r1: seq<Role>, m2: seq<Page>, r2: seq<Role>,
                    leader: nat, t: Thread, n: nat)
    requires IsRoot(r0, leader) && leader != t.root && IsRoot(r0, t.root) && t.tf < |r0| && r0[t.tf] == Other && n <= VPNS
    requires FreedRange(r0, r1, t.root, t.stack, 1) && Unmapped(m0, r0, m1, t.root, t.stack, 1) && Reaped(m1, r1, m2, r2, t)
    requires LeaderOwns(m0, r0, leader, n)
    ensures LeaderOwns(m2, r2, leader, n) && OthersSame(m0, r0, m2, t.root)
    ensures |r2| == |r0| && forall p: nat {:trigger r2[p]} :: p < |r2| ==>
              r2[p] == if Uses(r0, p, t, true) then Free else r0[p]
  {
    forall r: nat, v: nat | IsRoot(r0, r) && r != t.root && v < VPNS ensures Pte(m2, r, v) == Pte(m0, r, v) {
      assert r1[r] == r0[r] && IsRoot(r1, r);
      assert Pte(m1, r, v) == Pte(m0, r, v);
    }
    assert r1[leader] == r0[leader] && r1[t.root] == r0[t.root];
    forall p: nat | p < |r2| ensures r2[p] == if Uses(r0, p, t, true) then Free else r0[p] {
      assert r1[p] == if r0[p] == Owned(t.root, t.stack) then Free else r0[p] by {
        assert OwnedIn(r0[p], t.root, t.stack, 1) <==> r0[p] == Owned(t.root, t.stack);
      }
      assert r2[p] == if p == t.tf || Under(r1, p, t.root) then Free else r1[p];
      if r0[p].Mid? || r0[p].Low? {
        if r0[p].parent < |r0| { assert r1[r0[p].parent] == r0[r0[p].parent] || r0[r0[p].parent].Owned?; }
      }
    }
    forall w: nat | w < n && IsUser(Pte(m2, leader, w)) ensures OwnsPage(m2, r2, leader, w) {
      assert Pte(m1, leader, w) == Pte(m0, leader, w);
      assert OwnsPage(m0, r0, leader, w);
    }
  }

  /** The thread that joined last leaves: its tables are gone, the others and the leader are as they were. */
  lemma GroupWithout(m0: seq<Page>, r0: seq<Role>, m1: seq<Page>, r1: seq<Role>, leader: nat, group: seq<nat>, t: Thread,
                     n: nat, full: bool)
    requires Group(r0, leader, group + [t.root]) && Members(m0, leader, group + [t.root], n, n, full) && n <= VPNS
    requires OthersSame(m0, r0, m1, t.root) && |r1| == |r0|
    requires forall p: nat {:trigger r1[p]} :: p < |r1| && !Uses(r0, p, t, true) ==> r1[p] == r0[p]
    requires t.tf < |r0| && r0[t.tf] == Other
    ensures Group(r1, leader, group) && Members(m1, leader, group, n, n, full) && SameAt(m0, m1, leader)
  {
    var g := group + [t.root];
    assert g[|group|] == t.root && g[|group|] != leader;
    assert forall i {:trigger group[i]} :: 0 <= i < |group| ==> group[i] == g[i];
    assert SameAt(m0, m1, leader);
    forall r: nat | IsRoot(r0, r) && r != t.root ensures IsRoot(r1, r) && SameAt(m0, m1, r) { assert !Uses(r0, r, t, true); }
    forall i | 0 <= i < |group| ensures IsRoot(r1, group[i]) && Member(m1, leader, group[i], n, n, full) {
      assert group[i] == g[i] && g[i] != g[|group|];
      assert Member(m0, leader, g[i], n, n, full);
      assert SameAt(m0, m1, group[i]) && SameAt(m0, m1, leader);
    }
  }

  /**
  A whole life with growth in it: the thread is created, the group grows, the thread exits and is reaped. Every page in
  use before is in use as before, every page the thread took is free again, the leader has its new pages, and the rest of
  the group maps the leader's pages up to the new size. That is so unless there were too few free pages to begin with.
  */
  method LifeWithGrowth(k: Kmem, leader: nat, group: seq<nat>, stack: nat, oldsz: nat, n: nat, tramp: nat, ghost full: bool)
    returns (done: bool, t: Thread, ghost taken: seq<Role>, ghost complete: bool)
    requires VmOk(k) && Group(k.role, leader, group) && n > 0 && PgUp(oldsz + n) <= stack < TRAPFRAME
    requires forall w: nat {:trigger Pte(k.mem, leader, w)} :: PgUp(oldsz) <= w < PgUp(oldsz + n) ==> Pte(k.mem, leader, w) == 0
    requires Members(k.mem, leader, group, PgUp(oldsz), PgUp(oldsz + n), full) && LeaderOwns(k.mem, k.role, leader, PgUp(oldsz))
    modifies k
    ensures VmOk(k)
    ensures !done || !complete ==>
              |old(k.list)| < 2 * PgUp(oldsz) + 9 + GrowCost(|group| + 1, PgUp(oldsz + n) - PgUp(oldsz))
    ensures done ==> LeaderOwns(k.mem, k.role, leader, PgUp(oldsz + n)) && Taken(old(k.role), taken, t)
    ensures done ==> |k.role| == |taken|
    ensures done ==> forall p: nat {:trigger k.role[p]} :: p < |k.role| && Uses(taken, p, t, true) ==> k.role[p] == Free
    ensures done ==> forall p: nat {:trigger k.role[p]} :: p < |k.role| && old(k.role)[p] != Free ==> k.role[p] == old(k.role)[p]
    ensures done ==> Group(k.role, leader, group) && Members(k.mem, leader, group, PgUp(oldsz + n), PgUp(oldsz + n), full && complete)
    ensures done ==> OwnsRange(k.mem, k.role, leader, PgUp(oldsz), PgUp(oldsz + n))
    ensures done ==> forall w: nat {:trigger Pte(k.mem, leader, w)} :: w < PgUp(oldsz) ==>
              Pte(k.mem, leader, w) == Pte(old(k.mem), leader, w)
  {
    ghost var m0, r0, first, top := k.mem, k.role, PgUp(oldsz), PgUp(oldsz + n);
    done, t, taken, complete := false, Thread(0, 0, 0), [], false;
    var o := JoinGroup(k, leader, group, stack, PgUp(oldsz), PgUp(oldsz + n), tramp, full);
    if !o.Made? { return; }
    t, taken := o.t, k.role;
    ghost var m1, r1, g := k.mem, k.role, group + [t.root];
    var r;
    r, complete := GrowGroup(k, leader, group + [t.root], oldsz, n, full);
    if r != 0 { return; }
    ghost var m2, r2 := k.mem, k.role;
    GrownLife(m1, r1, m2, r2, leader, g, t, first, top, tramp, full && complete);
    LeaveGroup(k, leader, t, PgUp(oldsz + n), tramp, full && complete);
    GroupWithout(m2, r2, k.mem, k.role, leader, group, t, top, full && complete);
    LifeLeaves(m0, r0, m1, r1, m2, r2, k.mem, k.role, leader, g, t, first, top);
    done := true;
  }

  /** Every page number of the range is mapped, to a page of its own. */
  ghost predicate OwnsRange(mem: seq<Page>, role: seq<Role>, leader: nat, first: nat, top: nat) {
    forall w: nat {:trigger Pte(mem, leader, w)} :: first <= w < top ==> OwnsPage(mem, role, leader, w)
  }

  lemma LifeLeaves(m0: seq<Page>, r0: seq<Role>, m1: seq<Page>, r1: seq<Role>, m2: seq<Page>, r2: seq<Role>,
                   m3: seq<Page>, r3: seq<Role>, leader: nat, g: seq<nat>, t: Thread, first: nat, top: nat)
    requires Taken(r0, r1, t) && SameAt(m0, m1, leader) && Sound(m1, r1) && t.tf < |r0| && r1[t.tf] == Other && IsRoot(r1, t.root)
    requires Group(r1, leader, g) && Spread(m1, r1, m2, r2, {leader} + Tables(g), leader, first, top) && top <= VPNS
    requires AllFresh(m2, r2, leader, first, top) && SameAt(m2, m3, leader) && |r3| == |r2| && leader != t.root
    requires forall p: nat {:trigger r3[p]} :: p < |r3| ==> r3[p] == if Uses(r2, p, t, true) then Free else r2[p]
    ensures forall p: nat {:trigger r3[p]} :: p < |r3| && r0[p] != Free ==> r3[p] == r0[p]
    ensures OwnsRange(m3, r3, leader, first, top)
    ensures forall w: nat {:trigger Pte(m3, leader, w)} :: w < first ==> Pte(m3, leader, w) == Pte(m0, leader, w)
  {
    forall p: nat | p < |r3| && r0[p] != Free ensures r3[p] == r0[p] {
      assert r1[p] == r0[p] && r2[p] == r1[p];
      assert p != t.tf && !Under(r1, p, t.root) && r1[p] != Owned(t.root, t.stack);
      if r2[p].Low? { ParentKept(m1, r1, r2, p); }
    }
    forall w: nat | first <= w < top ensures OwnsPage(m3, r3, leader, w) {
      assert Fresh(m2, r2, leader, w);
      assert Pte(m3, leader, w) == Pte(m2, leader, w);
    }
    forall w: nat | w < first ensures Pte(m3, leader, w) == Pte(m0, leader, w) {
      assert Pte(m2, leader, w) == Pte(m1, leader, w);
    }
  }

  lemma ParentKept(m1: seq<Page>, r1: seq<Role>, r2: seq<Role>, p: nat)
    requires Sound(m1, r1) && |r2| == |r1| && p < |r1| && r1[p].Low?
    requires forall x {:trigger r2[x]} :: 0 <= x < |r1| ==> r2[x] == r1[x] || r1[x] == Free
    ensures r1[p].parent < |r1| && r2[r1[p].parent] == r1[r1[p].parent]
  {
    assert UpOk(m1, r1, p);
  }

  lemma GrownLife(m1: seq<Page>, r1: seq<Role>, m2: seq<Page>, r2: seq<Role>, leader: nat, g: seq<nat>, t: Thread,
                  first: nat, top: nat, tramp: nat, full: bool)
    requires Group(r1, leader, g) && Spread(m1, r1, m2, r2, {leader} + Tables(g), leader, first, top) && top <= t.stack
    requires Members(m2, leader, g, top, top, full) && AllFresh(m2, r2, leader, first, top) && g != [] && g[|g| - 1] == t.root
    requires ThreadOk(m1, r1, leader, t, first, true, tramp, true) && LeaderOwns(m1, r1, leader, first)
    ensures ThreadOk(m2, r2, leader, t, top, true, tramp, full) && LeaderOwns(m2, r2, leader, top) && IsRoot(r2, leader)
    ensures |r2| == |r1| && forall p: nat {:trigger r2[p]} :: p < |r1| && Uses(r1, p, t, true) ==> Uses(r2, p, t, true)
  {
    GrowKeepsThread(m1, r1, m2, r2, leader, g, |g| - 1, t, first, top, true, tramp, true, full);
    GrowKeepsOwnership(m1, r1, m2, r2, leader, g, first, top);
    GrowprocKeepsPages(m1, r1, m2, r2, leader, g, t, first, top, true);
    assert r2[leader] == r1[leader];
    forall p: nat | p < |r1| && Uses(r1, p, t, true) ensures Uses(r2, p, t, true) { UsesStay(r1, r2, t, true, p); }
  }

  /**
  Agreement: below n a thread maps only pages where the leader maps a user page, the same one, and that page is in use;
  it maps every such page if no mappages of growproc failed.
  */
  lemma NoDanglingPages(mem: seq<Page>, role: seq<Role>, leader: nat, group: seq<nat>, n: nat, top: nat, full: bool, i: nat, v: nat)
    requires Sound(mem, role) && Group(role, leader, group) && Members(mem, leader, group, n, top, full)
    requires i < |group| && v < n <= VPNS && LeaderOwns(mem, role, leader, n)
    ensures var e := Pte(mem, group[i], v);
      && (full ==> (IsValid(e) <==> IsUser(Pte(mem, leader, v))))
      && (IsValid(e) ==> IsUser(Pte(mem, leader, v)) && Ppn(e) == Ppn(Pte(mem, leader, v)))
      && (IsValid(e) ==> Ppn(e) < |role| && role[Ppn(e)] == Owned(leader, v))
  {
    assert Member(mem, leader, group[i], n, top, full);
    var l := Pte(mem, leader, v);
    if IsUser(l) {
      LeafOfTree(mem, role, leader, v);
      SharedIsValid(l);
    }
  }

  lemma SharedIsValid(e: nat)
    requires IsUser(e) && IsLeaf(e)
    ensures IsValid(SharedEntry(e)) && Ppn(SharedEntry(e)) == Ppn(e)
  {
    UserBitsLeaf(e);
    LeafBits(Addr(Ppn(e)), UserBits(e));
  }

  /** Shrinking is free of uvmunmap's panic exactly when the leader's pages there are for the user and every thread has them. */
  lemma ShrinkNeedsFullTables(mem: seq<Page>, role: seq<Role>, leader: nat, group: seq<nat>, lo: nat, hi: nat)
    requires Sound(mem, role) && Group(role, leader, group) && lo <= hi <= VPNS && Members(mem, leader, group, hi, hi, false)
    ensures Droppable(mem, group, lo, hi) <==> FullOn(mem, leader, group, lo, hi)
  {
    forall v: nat | lo <= v < hi
      ensures AllMap(mem, group, v) <==> forall i :: 0 <= i < |group| ==> HasPage(mem, leader, group[i], v)
    {
      forall i | 0 <= i < |group| ensures IsValid(Pte(mem, group[i], v)) <==> HasPage(mem, leader, group[i], v) {
        PageDroppable(mem, role, leader, group, hi, i, v);
      }
    }
    if Droppable(mem, group, lo, hi) {
      forall i, v: nat | 0 <= i < |group| && lo <= v < hi ensures HasPage(mem, leader, group[i], v) {
        assert AllMap(mem, group, v);
      }
    }
  }

  /** v is a user page of the leader, and the thread has it. */
  ghost predicate HasPage(mem: seq<Page>, leader: nat, q: nat, v: nat) {
    IsUser(Pte(mem, leader, v)) && Pte(mem, q, v) == Want(mem, leader, v)
  }

  ghost predicate FullOn(mem: seq<Page>, leader: nat, group: seq<nat>, lo: nat, hi: nat) {
    forall i, v: nat {:trigger HasPage(mem, leader, group[i], v)} :: 0 <= i < |group| && lo <= v < hi ==>
      HasPage(mem, leader, group[i], v)
  }

  lemma PageDroppable(mem: seq<Page>, role: seq<Role>, leader: nat, group: seq<nat>, hi: nat, i: nat, v: nat)
    requires Sound(mem, role) && Group(role, leader, group) && hi <= VPNS && Members(mem, leader, group, hi, hi, false)
    requires i < |group| && v < hi
    ensures IsValid(Pte(mem, group[i], v)) <==> HasPage(mem, leader, group[i], v)
  {
    assert Member(mem, leader, group[i], hi, hi, false);
    if IsUser(Pte(mem, leader, v)) {
      LeafOfTree(mem, role, leader, v);
      SharedIsValid(Pte(mem, leader, v));
    }
  }

  // ----- growproc's panic -----

  lemma FivePages(role: seq<Role>, list: seq<nat>)
    requires FreeOk(role, list, 1) && |role| == 6 && forall p :: 1 <= p < 6 ==> role[p] == Free
    ensures |list| >= 5
  {
    forall p: nat ensures multiset{1, 2, 3, 4, 5}[p] <= multiset(list)[p] {
      if 1 <= p < 6 { EachPageOnce(role, list, 1, p); }
    }
    assert multiset{1, 2, 3, 4, 5} <= multiset(list);
    assert multiset(list) == multiset{1, 2, 3, 4, 5} + (multiset(list) - multiset{1, 2, 3, 4, 5});
    assert |multiset(list)| == |list|;
  }

  lemma NothingYet(mem: seq<Page>, role: seq<Role>)
    requires |mem| == |role| && Sized(mem) && forall p :: 0 <= p < |role| ==> role[p] == Free || role[p] == Other
    ensures Sound(mem, role)
  {
    forall p: nat | p < |role| ensures DownOk(mem, role, p) && UpOk(mem, role, p) && OwnedOk(mem, role, p) { }
  }

  /** Two address spaces that map a page take at least seven pages: two tables each below the roots, and the page. */
  lemma SevenPages(mem: seq<Page>, role: seq<Role>, leader: nat, q: nat)
    requires Sound(mem, role) && role != [] && role[0] == Other && IsRoot(role, leader) && IsRoot(role, q) && leader != q
    requires OwnsPage(mem, role, leader, 0) && IsValid(Pte(mem, q, 0))
    ensures |role| >= 8
  {
    Path(mem, role, leader, 0);
    Path(mem, role, q, 0);
    LeafOfTree(mem, role, leader, 0);
    LeafOfTree(mem, role, q, 0);
    var a, b, c, d := Next(mem, leader, PX(2, 0)), LowPage(mem, leader, 0), Next(mem, q, PX(2, 0)), LowPage(mem, q, 0);
    var used: set<int> := {leader, q, a, b, c, d, Ppn(Pte(mem, leader, 0))};
    assert |used| == 7;
    FewUpTo(used, |role| - 1);
  }

  function UpTo(n: nat): (r: set<int>)
    ensures forall x :: x in r <==> 1 <= x <= n
  {
    if n == 0 then {} else UpTo(n - 1) + {n}
  }

  lemma {:induction false} FewUpTo(s: set<int>, n: nat)
    requires s <= UpTo(n)
    ensures |s| <= n
  {
    if n > 0 { FewUpTo(s - {n}, n - 1); }
  }

  lemma Weaker(mem: seq<Page>, leader: nat, group: seq<nat>, n: nat, full: bool)
    requires Members(mem, leader, group, n, n, full)
    ensures Members(mem, leader, group, n, n, false)
  {
    forall i | 0 <= i < |group| ensures Member(mem, leader, group[i], n, n, false) {
      assert Member(mem, leader, group[i], n, n, full);
    }
  }

  /** Five pages of memory after the kernel's, and two address spaces that map nothing. */
  method TwoSpaces() returns (k: Kmem, leader: nat, q: nat)
    ensures fresh(k) && VmOk(k) && |k.role| == 6 && k.role[0] == Other && |k.list| >= 3
    ensures IsRoot(k.role, leader) && IsRoot(k.role, q) && leader != q
    ensures MapsNothing(k.mem, leader) && MapsNothing(k.mem, q)
    ensures forall p {:trigger k.role[p]} :: 0 <= p < |k.role| ==> !k.role[p].Owned?
  {
    k := new Kmem(PGSIZE, 6 * PGSIZE, seq(6, _ => Filled(0)));
    assert forall p :: 1 <= p < 6 ==> PGSIZE <= Addr(p) && Addr(p) + PGSIZE <= 6 * PGSIZE;
    NothingYet(k.mem, k.role);
    FivePages(k.role, k.list);
    leader := Uvmcreate(k);
    ghost var m1 := k.mem;
    q := Uvmcreate(k);
    assert forall v: nat {:trigger Pte(k.mem, leader, v)} :: v < VPNS ==> Pte(k.mem, leader, v) == Pte(m1, leader, v);
  }

  /**
  It can happen: with five pages of memory and a group of two, the leader grows by a page, and there is no page left for
  a table of the other.
  */
  method StarvedGroup() returns (k: Kmem, leader: nat, q: nat)
    ensures fresh(k) && VmOk(k) && Group(k.role, leader, [q]) && Members(k.mem, leader, [q], 1, 1, false)
    ensures OwnsPage(k.mem, k.role, leader, 0) && IsUser(Pte(k.mem, leader, 0)) && NoneOwnedIn(k.role, [q], 0, 1)
    ensures !Droppable(k.mem, [q], 0, 1)
  {
    k, leader, q := TwoSpaces();
    ghost var r2 := k.role;
    var r;
    ghost var complete;
    r, complete := GrowGroup(k, leader, [q], 0, PGSIZE, true);
    StarvedEnd(r2, k.mem, k.role, leader, q, complete);
  }

  lemma StarvedEnd(r0: seq<Role>, m1: seq<Page>, r1: seq<Role>, leader: nat, q: nat, complete: bool)
    requires Sound(m1, r1) && |r1| == |r0| == 6 && r0[0] == Other && Group(r1, leader, [q]) && AllFresh(m1, r1, leader, 0, 1)
    requires forall p {:trigger r0[p]} :: 0 <= p < |r0| ==> !r0[p].Owned?
    requires Members(m1, leader, [q], 1, 1, complete)
    requires forall p {:trigger r1[p]} :: 0 <= p < |r0| ==>
               r1[p] == r0[p] || (r0[p] == Free && NewUse(r1, p, {leader} + Tables([q]), leader, 0, 1))
    ensures Members(m1, leader, [q], 1, 1, false) && !Droppable(m1, [q], 0, 1)
    ensures OwnsPage(m1, r1, leader, 0) && IsUser(Pte(m1, leader, 0)) && NoneOwnedIn(r1, [q], 0, 1)
  {
    Weaker(m1, leader, [q], 1, complete);
    assert Fresh(m1, r1, leader, 0);
    Grown1Shared(Pte(m1, leader, 0));
    assert IsRoot(r1, [q][0]) && r1[0] == Other;
    if IsValid(Pte(m1, q, 0)) {
      SevenPages(m1, r1, leader, q);
      assert false;
    }
    assert !AllMap(m1, [q], 0) by { assert [q][0] == q; }
  }

  /** Then growproc(-PGSIZE) panics. */
  method ShrinkPanics() returns (ok: bool)
    ensures !ok
  {
    var k, leader, q := StarvedGroup();
    ok := ShrinkGroup(k, leader, [q], PGSIZE, 0, false);
  }
}
