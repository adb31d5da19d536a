/**
Sv39 page tables in physical memory (section 4.4 of the RISC-V Privileged Architecture, version 20211203). A tree of
table pages refines a finite map from virtual page number to leaf entry; every operation's effect on that map and on
the ownership of physical pages is stated, on the failing paths too.
*/
module Vm {
  import opened Kalloc

  const VPNS: nat := 0x800_0000            // page numbers a three-level tree can hold
  const MAXVPN: nat := 0x400_0000          // MAXVA / PGSIZE: half of them, so that addresses need no sign extension
  const PTE_V: nat := 1
  const PTE_R: nat := 2
  const PTE_W: nat := 4
  const PTE_X: nat := 8
  const PTE_U: nat := 16

  // ----- Entries -----

  predicate IsValid(e: nat) { e % 2 == 1 }

  /** Any of R, W and X: a leaf rather than a pointer to the next level. */
  predicate IsLeaf(e: nat) { e / 2 % 8 != 0 }

  function Ppn(e: nat): nat { e / 1024 }

  function Flags(e: nat): nat { e % 1024 }

  function Pointer(q: nat): nat { q * 1024 + PTE_V }

  /** PA2PTE(pa) | perm | PTE_V. */
  function Leaf(pa: nat, perm: nat): nat { pa / PGSIZE * 1024 + (if perm % 2 == 1 then perm else perm + PTE_V) }

  // ----- Indices: PX(level, va) for the page number of va -----

  function PX(level: nat, vpn: nat): (i: nat)
    requires level <= 2
    ensures i < WORDS
  {
    if level == 2 then vpn / 0x4_0000 % WORDS else if level == 1 then vpn / 0x200 % WORDS else vpn % WORDS
  }

  /** Distinct page numbers never share a slot at every level. */
  lemma IndicesDiffer(v: nat, w: nat)
    requires v < VPNS && w < VPNS
    ensures PX(2, v) == PX(2, w) && PX(1, v) == PX(1, w) && PX(0, v) == PX(0, w) ==> v == w
  {
    assert v == v / 0x4_0000 * 0x4_0000 + v / 0x200 % WORDS * 0x200 + v % WORDS;
    assert w == w / 0x4_0000 * 0x4_0000 + w / 0x200 % WORDS * 0x200 + w % WORDS;
  }

  // ----- The map a tree stands for -----

  function Word(mem: seq<Page>, p: nat, i: nat): nat {
    if p < |mem| && i < |mem[p]| then mem[p][i] else 0
  }

  /** The page that slot i of table p points to, or -1. */
  function Next(mem: seq<Page>, p: nat, i: nat): int {
    if IsValid(Word(mem, p, i)) then Ppn(Word(mem, p, i)) else -1
  }

  /** The level-0 table of `v` in the tree at `root`, or -1. */
  function LowPage(mem: seq<Page>, root: nat, v: nat): int {
    var m := Next(mem, root, PX(2, v));
    if m == -1 then -1 else Next(mem, m, PX(1, v))
  }

  /** The leaf entry of page number `v`; 0 where the tree has no table for it. */
  function Pte(mem: seq<Page>, root: nat, v: nat): nat {
    var l := LowPage(mem, root, v);
    if l == -1 then 0 else Word(mem, l, PX(0, v))
  }

  // ----- Trees of table pages -----

  predicate IsTable(r: Role) { r.Root? || r.Mid? || r.Low? }

  function ChildRole(role: seq<Role>, p: nat, i: nat): Role
    requires p < |role|
  {
    if role[p].Root? then Mid(p, i) else Low(p, i)
  }

  predicate PointsTo(role: seq<Role>, e: nat, r: Role) {
    e == Pointer(Ppn(e)) && Ppn(e) < |role| && role[Ppn(e)] == r
  }

  /** The entries of a table are zero, or valid and point to tables that know it as their parent, at level 0 leaves. */
  ghost predicate DownOk(mem: seq<Page>, role: seq<Role>, p: nat)
    requires p < |mem| == |role| && Sized(mem)
  {
    IsTable(role[p]) ==> forall i {:trigger mem[p][i]} :: 0 <= i < WORDS && mem[p][i] != 0 ==>
      IsValid(mem[p][i]) &&
      if role[p].Low? then IsLeaf(mem[p][i]) else PointsTo(role, mem[p][i], ChildRole(role, p, i))
  }

  /** A table below the root is in the slot it names, so none is lost. */
  ghost predicate UpOk(mem: seq<Page>, role: seq<Role>, p: nat)
    requires p < |mem| == |role| && Sized(mem)
  {
    var r := role[p];
    (r.Mid? || r.Low?) ==>
      && r.parent < |mem| && r.slot < WORDS && mem[r.parent][r.slot] == Pointer(p)
      && (if r.Mid? then role[r.parent].Root? else role[r.parent].Mid?)
  }

  /** All trees are sound, except that nothing is said of the entries of tables in `x`. */
  ghost predicate Trees(mem: seq<Page>, role: seq<Role>, x: set<nat>) {
    && |mem| == |role| && Sized(mem)
    && (forall p: nat {:trigger DownOk(mem, role, p)} :: p < |mem| && p !in x ==> DownOk(mem, role, p))
    && (forall p: nat {:trigger UpOk(mem, role, p)} :: p < |mem| ==> UpOk(mem, role, p))
  }

  /** A page of user memory is mapped where its role says. */
  ghost predicate OwnedOk(mem: seq<Page>, role: seq<Role>, p: nat)
    requires p < |role|
  {
    role[p].Owned? ==>
      && role[p].root < |role| && role[role[p].root].Root? && role[p].vpn < VPNS
      && IsValid(Pte(mem, role[p].root, role[p].vpn)) && Ppn(Pte(mem, role[p].root, role[p].vpn)) == p
  }

  ghost predicate Sound(mem: seq<Page>, role: seq<Role>) {
    && Trees(mem, role, {})
    && (forall p: nat {:trigger OwnedOk(mem, role, p)} :: p < |role| ==> OwnedOk(mem, role, p))
  }

  lemma PathX(mem: seq<Page>, role: seq<Role>, x: set<nat>, root: nat, v: nat)
    requires Trees(mem, role, x) && root < |role| && role[root].Root? && v < VPNS
    requires root !in x && forall m :: 0 <= m < |role| && role[m] == Mid(root, PX(2, v)) ==> m !in x
    ensures var m := Next(mem, root, PX(2, v));
      && (m != -1 ==> 0 <= m < |role| && role[m] == Mid(root, PX(2, v)))
      && var l := LowPage(mem, root, v);
         l != -1 ==> m != -1 && 0 <= l < |role| && role[l] == Low(m, PX(1, v))
  {
    assert DownOk(mem, role, root);
    var e := mem[root][PX(2, v)];
    if IsValid(e) {
      assert role[Ppn(e)] == Mid(root, PX(2, v));
      assert DownOk(mem, role, Ppn(e));
      var f := mem[Ppn(e)][PX(1, v)];
    }
  }

  /** The tables that lead to `v` carry the roles of their place in the tree. */
  lemma Path(mem: seq<Page>, role: seq<Role>, root: nat, v: nat)
    requires Trees(mem, role, {}) && root < |role| && role[root].Root? && v < VPNS
    ensures var m := Next(mem, root, PX(2, v));
      && (m != -1 ==> 0 <= m < |role| && role[m] == Mid(root, PX(2, v)))
      && var l := LowPage(mem, root, v);
         l != -1 ==> m != -1 && 0 <= l < |role| && role[l] == Low(m, PX(1, v))
  {
    PathX(mem, role, {}, root, v);
  }

  predicate LowOf(role: seq<Role>, p: nat, root: nat, v: nat) {
    && p < |role| && role[p].Low? && role[p].slot == PX(1, v)
    && role[p].parent < |role| && role[role[p].parent] == Mid(root, PX(2, v))
  }

  /** Entries and pages elsewhere do not matter to a page number's entry. */
  lemma PteFrame(mem: seq<Page>, mem': seq<Page>, role: seq<Role>, root: nat, v: nat)
    requires Trees(mem, role, {}) && root < |role| && role[root].Root? && v < VPNS && |mem'| == |mem|
    requires mem'[root] == mem[root]
    requires forall p {:trigger mem'[p]} :: 0 <= p < |mem| && role[p] == Mid(root, PX(2, v)) ==> mem'[p] == mem[p]
    requires forall p {:trigger mem'[p]} :: 0 <= p < |mem| && LowOf(role, p, root, v) ==> mem'[p] == mem[p]
    ensures Pte(mem', root, v) == Pte(mem, root, v) && LowPage(mem', root, v) == LowPage(mem, root, v)
  {
    Path(mem, role, root, v);
  }

  // ----- Changing one page that is no table -----

  lemma ScribbleTrees(mem: seq<Page>, role: seq<Role>, x: set<nat>, p: nat, page: Page)
    requires Trees(mem, role, x) && p < |mem| && !IsTable(role[p]) && |page| == WORDS
    ensures Trees(mem[p := page], role, x)
  {
    var mem' := mem[p := page];
    forall q: nat | q < |mem| && q !in x ensures DownOk(mem', role, q) { assert DownOk(mem, role, q); }
    forall q: nat | q < |mem| ensures UpOk(mem', role, q) {
      assert UpOk(mem, role, q);
    }
  }

  lemma Scribble(mem: seq<Page>, role: seq<Role>, p: nat, page: Page)
    requires Sound(mem, role) && p < |mem| && !IsTable(role[p]) && |page| == WORDS
    ensures Sound(mem[p := page], role)
    ensures forall r: nat, v: nat {:trigger Pte(mem[p := page], r, v)} :: r < |role| && role[r].Root? && v < VPNS ==>
              Pte(mem[p := page], r, v) == Pte(mem, r, v)
  {
    var mem' := mem[p := page];
    ScribbleTrees(mem, role, {}, p, page);
    forall r: nat, v: nat | r < |role| && role[r].Root? && v < VPNS ensures Pte(mem', r, v) == Pte(mem, r, v) {
      PteFrame(mem, mem', role, r, v);
    }
    forall q: nat | q < |role| ensures OwnedOk(mem', role, q) { assert OwnedOk(mem, role, q); }
  }

  /** Roles of pages that are no tables may change among themselves. */
  lemma Rename(mem: seq<Page>, role: seq<Role>, p: nat, r: Role)
    requires Sound(mem, role) && p < |mem| && !IsTable(role[p]) && !IsTable(r)
    requires OwnedOk(mem, role[p := r], p)
    ensures Sound(mem, role[p := r])
  {
    var role' := role[p := r];
    forall q: nat | q < |mem| ensures DownOk(mem, role', q) {
      assert DownOk(mem, role, q);
    }
    forall q: nat | q < |mem| ensures UpOk(mem, role', q) { assert UpOk(mem, role, q); }
    forall q: nat | q < |role| ensures OwnedOk(mem, role', q) { assert OwnedOk(mem, role, q); }
  }

  // ----- Changing one leaf entry -----

  ghost predicate NobodyOwns(role: seq<Role>, root: nat, v: nat) {
    forall p {:trigger role[p]} :: 0 <= p < |role| ==> role[p] != Owned(root, v)
  }

  function SetWord(mem: seq<Page>, p: nat, i: nat, e: nat): (r: seq<Page>)
    requires p < |mem| && i < |mem[p]|
    ensures |r| == |mem| && |r[p]| == |mem[p]| && r[p][i] == e
    ensures forall j :: 0 <= j < |mem[p]| && j != i ==> r[p][j] == mem[p][j]
    ensures forall q :: 0 <= q < |mem| && q != p ==> r[q] == mem[q]
  {
    mem[p := mem[p][..i] + [e] + mem[p][i + 1..]]
  }

  lemma SetLeafTrees(mem: seq<Page>, role: seq<Role>, l: nat, i: nat, e: nat)
    requires Trees(mem, role, {}) && l < |mem| && i < WORDS && role[l].Low? && (e != 0 ==> IsValid(e) && IsLeaf(e))
    ensures Trees(SetWord(mem, l, i, e), role, {})
  {
    var mem' := SetWord(mem, l, i, e);
    forall q: nat | q < |mem| ensures DownOk(mem', role, q) { assert DownOk(mem, role, q); }
    forall q: nat | q < |mem| ensures UpOk(mem', role, q) { assert UpOk(mem, role, q); }
  }

  /** Writing the slot of `v` changes the entry of `v` and of no other page number, in this tree or any other. */
  lemma SetLeafPte(mem: seq<Page>, role: seq<Role>, root: nat, v: nat, e: nat, r: nat, w: nat)
    requires Trees(mem, role, {}) && root < |role| && role[root].Root? && v < VPNS
    requires r < |role| && role[r].Root? && w < VPNS
    requires LowPage(mem, root, v) != -1
    ensures 0 <= LowPage(mem, root, v) < |mem|
    ensures Pte(SetWord(mem, LowPage(mem, root, v), PX(0, v), e), r, w)
              == if r == root && w == v then e else Pte(mem, r, w)
  {
    Path(mem, role, root, v);
    Path(mem, role, r, w);
    IndicesDiffer(v, w);
    var l := LowPage(mem, root, v);
    var mem' := SetWord(mem, l, PX(0, v), e);
    assert Next(mem', r, PX(2, w)) == Next(mem, r, PX(2, w));
    assert LowPage(mem', r, w) == LowPage(mem, r, w);
  }

  lemma SetLeaf(mem: seq<Page>, role: seq<Role>, root: nat, v: nat, e: nat)
    requires Sound(mem, role) && root < |role| && role[root].Root? && v < VPNS && NobodyOwns(role, root, v)
    requires LowPage(mem, root, v) != -1 && (e != 0 ==> IsValid(e) && IsLeaf(e))
    ensures 0 <= LowPage(mem, root, v) < |mem|
    ensures var mem' := SetWord(mem, LowPage(mem, root, v), PX(0, v), e);
      && Sound(mem', role)
      && forall r: nat, w: nat {:trigger Pte(mem', r, w)} :: r < |role| && role[r].Root? && w < VPNS ==>
           Pte(mem', r, w) == if r == root && w == v then e else Pte(mem, r, w)
  {
    Path(mem, role, root, v);
    var mem' := SetWord(mem, LowPage(mem, root, v), PX(0, v), e);
    SetLeafTrees(mem, role, LowPage(mem, root, v), PX(0, v), e);
    forall r: nat, w: nat | r < |role| && role[r].Root? && w < VPNS
      ensures Pte(mem', r, w) == if r == root && w == v then e else Pte(mem, r, w)
    {
      SetLeafPte(mem, role, root, v, e, r, w);
    }
    forall q: nat | q < |role| ensures OwnedOk(mem', role, q) { assert OwnedOk(mem, role, q); }
  }

  // ----- Adding a table -----

  ghost predicate Zeroed(page: Page) {
    forall i {:trigger page[i]} :: 0 <= i < |page| ==> page[i] == 0
  }

  lemma PointerBits(q: nat)
    ensures IsValid(Pointer(q)) && !IsLeaf(Pointer(q)) && Pointer(q) != 0 && Ppn(Pointer(q)) == q
  {
    Split(q, PTE_V);
  }

  lemma AddTableTrees(mem: seq<Page>, role: seq<Role>, p: nat, i: nat, q: nat)
    requires Trees(mem, role, {}) && p < |mem| && i < WORDS && q < |mem| && p != q
    requires (role[p].Root? || role[p].Mid?) && !IsValid(mem[p][i]) && role[q] == Other && Zeroed(mem[q])
    ensures Trees(SetWord(mem, p, i, Pointer(q)), role[q := ChildRole(role, p, i)], {})
  {
    var mem', role' := SetWord(mem, p, i, Pointer(q)), role[q := ChildRole(role, p, i)];
    PointerBits(q);
    forall t: nat | t < |mem| ensures DownOk(mem', role', t) { AddTableDown(mem, role, p, i, q, t); }
    forall t: nat | t < |mem| ensures UpOk(mem', role', t) { AddTableUp(mem, role, p, i, q, t); }
  }

  lemma AddTableDown(mem: seq<Page>, role: seq<Role>, p: nat, i: nat, q: nat, t: nat)
    requires Trees(mem, role, {}) && p < |mem| && i < WORDS && q < |mem| && p != q && t < |mem|
    requires (role[p].Root? || role[p].Mid?) && !IsValid(mem[p][i]) && role[q] == Other && Zeroed(mem[q])
    ensures DownOk(SetWord(mem, p, i, Pointer(q)), role[q := ChildRole(role, p, i)], t)
  {
    PointerBits(q);
    assert DownOk(mem, role, t);
    if t != p { assert SetWord(mem, p, i, Pointer(q))[t] == mem[t]; }
  }

  lemma AddTableUp(mem: seq<Page>, role: seq<Role>, p: nat, i: nat, q: nat, t: nat)
    requires Trees(mem, role, {}) && p < |mem| && i < WORDS && q < |mem| && p != q && t < |mem|
    requires (role[p].Root? || role[p].Mid?) && !IsValid(mem[p][i]) && role[q] == Other && Zeroed(mem[q])
    ensures UpOk(SetWord(mem, p, i, Pointer(q)), role[q := ChildRole(role, p, i)], t)
  {
    assert UpOk(mem, role, t);
    if t != q && (role[t].Mid? || role[t].Low?) {
      var x, j := role[t].parent, role[t].slot;
      PointerBits(t);
      assert !(x == p && j == i);
      assert x != q;
    }
  }

  lemma AddTablePte(mem: seq<Page>, role: seq<Role>, p: nat, i: nat, q: nat, r: nat, v: nat)
    requires Trees(mem, role, {}) && p < |mem| && i < WORDS && q < |mem| && p != q
    requires (role[p].Root? || role[p].Mid?) && !IsValid(mem[p][i]) && role[q] == Other && Zeroed(mem[q])
    requires r < |role| && role[r].Root? && v < VPNS
    ensures Pte(SetWord(mem, p, i, Pointer(q)), r, v) == Pte(mem, r, v)
  {
    Path(mem, role, r, v);
    PointerBits(q);
    var mem' := SetWord(mem, p, i, Pointer(q));
    var m := Next(mem, r, PX(2, v));
    if p == r && i == PX(2, v) {
      assert Next(mem', r, i) == q;
      assert Word(mem', q, PX(1, v)) == 0;
    } else {
      assert Next(mem', r, PX(2, v)) == m;
      if m == p && i == PX(1, v) {
        assert LowPage(mem', r, v) == q;
        assert Word(mem', q, PX(0, v)) == 0;
      } else {
        assert LowPage(mem', r, v) == LowPage(mem, r, v);
      }
    }
  }

  /** Hanging an empty table into a free slot changes no translation. */
  lemma AddTable(mem: seq<Page>, role: seq<Role>, p: nat, i: nat, q: nat)
    requires Sound(mem, role) && p < |mem| && i < WORDS && q < |mem| && p != q
    requires (role[p].Root? || role[p].Mid?) && !IsValid(mem[p][i]) && role[q] == Other && Zeroed(mem[q])
    ensures var mem', role' := SetWord(mem, p, i, Pointer(q)), role[q := ChildRole(role, p, i)];
      && Sound(mem', role')
      && forall r: nat, v: nat {:trigger Pte(mem', r, v)} :: r < |role| && role[r].Root? && v < VPNS ==>
           Pte(mem', r, v) == Pte(mem, r, v)
  {
    var mem', role' := SetWord(mem, p, i, Pointer(q)), role[q := ChildRole(role, p, i)];
    AddTableTrees(mem, role, p, i, q);
    forall r: nat, v: nat | r < |role| && role[r].Root? && v < VPNS ensures Pte(mem', r, v) == Pte(mem, r, v) {
      AddTablePte(mem, role, p, i, q, r, v);
    }
    forall t: nat | t < |role| ensures OwnedOk(mem', role', t) { assert OwnedOk(mem, role, t); }
  }

  // ----- The kernel's view -----

  /** Trees, owned pages and free pages all lie in managed memory. */
  ghost predicate Managed(role: seq<Role>, lo: nat) {
    forall p {:trigger role[p]} :: 0 <= p < |role| && role[p] != Other ==> lo <= p
  }

  ghost predicate VmOk(k: Kmem)
    reads k
  {
    k.Valid() && Sound(k.mem, k.role) && Managed(k.role, k.lo)
  }

  ghost predicate IsRoot(role: seq<Role>, r: nat) { r < |role| && role[r].Root? }

  /** Page p is a table of the tree at root, below the root itself. */
  predicate InTree(role: seq<Role>, p: nat, root: nat)
    requires p < |role|
  {
    (role[p].Mid? || role[p].Low?) && Under(role, p, root)
  }

  /** Free pages may have become tables of the tree at root; no other page changed its role, and no page that holds data its contents. */
  ghost predicate Grew(m0: seq<Page>, r0: seq<Role>, m1: seq<Page>, r1: seq<Role>, root: nat) {
    && |m0| == |m1| == |r0| == |r1|
    && (forall p {:trigger r1[p]} :: 0 <= p < |r0| ==>
          r1[p] == r0[p] || (r0[p] == Free && InTree(r1, p, root)))
    && (forall p {:trigger m1[p]} :: 0 <= p < |m0| && (r0[p] == Other || r0[p].Owned?) ==> m1[p] == m0[p])
  }

  ghost predicate SameMap(m0: seq<Page>, r0: seq<Role>, m1: seq<Page>) {
    forall r: nat, v: nat {:trigger Pte(m1, r, v)} :: IsRoot(r0, r) && v < VPNS ==> Pte(m1, r, v) == Pte(m0, r, v)
  }

  lemma GrewOn(m0: seq<Page>, r0: seq<Role>, m1: seq<Page>, r1: seq<Role>, m2: seq<Page>, r2: seq<Role>, root: nat)
    requires Grew(m0, r0, m1, r1, root) && Grew(m1, r1, m2, r2, root)
    ensures Grew(m0, r0, m2, r2, root)
  {
    forall p | 0 <= p < |m0| && (r0[p] == Other || r0[p].Owned?) ensures m2[p] == m0[p] {
      assert r1[p] == r0[p] && m1[p] == m0[p];
    }
    forall p | 0 <= p < |r0| ensures r2[p] == r0[p] || (r0[p] == Free && InTree(r2, p, root)) {
      assert r1[p] == r0[p] || r0[p] == Free;
    }
  }

  // ----- kalloc under the trees -----

  /** A page taken off the free list is nobody's yet. */
  lemma TakeFree(m0: seq<Page>, r0: seq<Role>, q: nat, page: Page)
    requires Sound(m0, r0) && q < |r0| && r0[q] == Free && |page| == WORDS
    ensures Sound(m0[q := page], r0[q := Other]) && SameMap(m0, r0, m0[q := page])
  {
    Scribble(m0, r0, q, page);
    Rename(m0[q := page], r0, q, Other);
  }

  /** kalloc followed by memset or memmove; 0 when memory has run out. */
  method AllocWith(k: Kmem, page: Page) returns (pa: nat)
    requires VmOk(k) && |page| == WORDS
    modifies k
    ensures VmOk(k) && (pa == 0 <==> old(k.list) == [])
    ensures pa == 0 ==> k.mem == old(k.mem) && k.role == old(k.role) && k.list == old(k.list)
    ensures pa != 0 ==>
              && old(k.list) != [] && pa == Addr(old(k.list)[0]) && k.lo <= old(k.list)[0] < |old(k.mem)|
              && old(k.role)[old(k.list)[0]] == Free
              && k.role == old(k.role)[old(k.list)[0] := Other] && k.list == old(k.list)[1..]
              && k.mem == old(k.mem)[old(k.list)[0] := page]
              && SameMap(old(k.mem), old(k.role), k.mem)
  {
    ghost var m0, r0, l0 := k.mem, k.role, k.list;
    pa := k.Kalloc();
    if pa != 0 {
      ghost var q := l0[0];
      assert r0[q] == Free;
      TakeFree(m0, r0, q, page);
      NotListed(k, q);
      ChainKept(k.mem, k.freelist, k.list, q, page);
      assert pa / PGSIZE == q;
      k.mem := k.mem[pa / PGSIZE := page];
      assert k.mem == m0[q := page];
    }
  }

  lemma NotListed(k: Kmem, p: nat)
    requires k.Valid() && p < |k.role| && k.role[p] != Free
    ensures p !in k.list
  {
  }

  /** At most n pages have left the free list. */
  predicate Spent(before: seq<nat>, after: seq<nat>, n: nat) { |after| <= |before| <= |after| + n }

  lemma SpentOn(l0: seq<nat>, l1: seq<nat>, l2: seq<nat>, n: nat, i: nat)
    requires Spent(l0, l1, n) && Spent(l1, l2, i)
    ensures Spent(l0, l2, n + i)
  {
  }

  // ----- walk -----

  /** Where the walk for `v` is when it is about to look at `level`. */
  ghost function Walked(mem: seq<Page>, root: nat, v: nat, level: nat): int {
    if level == 2 then root else if level == 1 then Next(mem, root, PX(2, v)) else LowPage(mem, root, v)
  }

  /** The table the walk stands on has the role of its place, or it stands nowhere. */
  lemma WalkedRole(mem: seq<Page>, role: seq<Role>, root: nat, v: nat, level: nat)
    requires Sound(mem, role) && IsRoot(role, root) && v < VPNS && level <= 2 && Walked(mem, root, v, level) != -1
    ensures var p := Walked(mem, root, v, level);
      && 0 <= p < |mem| && |mem[p]| == WORDS
      && (if level == 2 then role[p].Root? else if level == 1 then role[p].Mid? else role[p].Low?)
      && (level == 0 ==> mem[p][PX(0, v)] == Pte(mem, root, v))
      && (level > 0 ==> Walked(mem, root, v, level - 1) == Next(mem, p, PX(level, v)))
  {
    Path(mem, role, root, v);
  }

  lemma HangTable(m0: seq<Page>, r0: seq<Role>, root: nat, v: nat, level: nat, q: nat)
    requires Sound(m0, r0) && IsRoot(r0, root) && v < VPNS && 1 <= level <= 2
    requires Walked(m0, root, v, level) != -1 && Walked(m0, root, v, level - 1) == -1
    requires q < |m0| && r0[q] == Other && Zeroed(m0[q])
    ensures var p := Walked(m0, root, v, level);
      && 0 <= p < |m0| && p < |r0| && |m0[p]| == WORDS
      && var m1, r1 := SetWord(m0, p, PX(level, v), Pointer(q)), r0[q := ChildRole(r0, p, PX(level, v))];
      && Sound(m1, r1) && SameMap(m0, r0, m1) && Walked(m1, root, v, level - 1) == q
      && InTree(r1, q, root)
  {
    WalkedRole(m0, r0, root, v, level);
    var p: nat := Walked(m0, root, v, level);
    PointerBits(q);
    AddTable(m0, r0, p, PX(level, v), q);
    Path(m0, r0, root, v);
  }

  /** walk's allocating branch: the slot gets a fresh empty table. */
  method NewTable(k: Kmem, ghost root: nat, v: nat, level: nat, pt: nat) returns (q: nat)
    requires VmOk(k) && IsRoot(k.role, root) && v < MAXVPN && 1 <= level <= 2
    requires Walked(k.mem, root, v, level) == pt && Walked(k.mem, root, v, level - 1) == -1
    modifies k
    ensures VmOk(k) && (q == 0 <==> old(k.list) == []) && Spent(old(k.list), k.list, 1)
    ensures q == 0 ==> k.mem == old(k.mem) && k.role == old(k.role)
    ensures Grew(old(k.mem), old(k.role), k.mem, k.role, root) && SameMap(old(k.mem), old(k.role), k.mem)
    ensures q != 0 ==> Walked(k.mem, root, v, level - 1) == q
  {
    ghost var m0, r0 := k.mem, k.role;
    var pa := AllocWith(k, Filled(0));
    if pa == 0 { return 0; }
    q := pa / PGSIZE;
    ghost var m1, r1 := k.mem, k.role;
    WalkedRole(m0, r0, root, v, level);
    StillWalked(m0, r0, root, v, level, q);
    HangTable(m1, r1, root, v, level, q);
    NotListed(k, pt);
    ChainKept(m1, k.freelist, k.list, pt, SetWord(m1, pt, PX(level, v), Pointer(q))[pt]);
    assert SetWord(m1, pt, PX(level, v), Pointer(q)) == m1[pt := SetWord(m1, pt, PX(level, v), Pointer(q))[pt]];
    RoleTaken(k.role, k.list, k.lo, q, ChildRole(r1, pt, PX(level, v)));
    k.mem := SetWord(k.mem, pt, PX(level, v), Pointer(q));
    k.role := k.role[q := ChildRole(r1, pt, PX(level, v))];
    TableGrew(m0, r0, m1, r1, k.mem, k.role, root, q);
  }

  /** A free page has become a table, and no translation has changed. */
  lemma TableGrew(m0: seq<Page>, r0: seq<Role>, m1: seq<Page>, r1: seq<Role>, m2: seq<Page>, r2: seq<Role>, root: nat, q: nat)
    requires |m0| == |m1| == |m2| == |r0| == |r2| && q < |r0| && r0[q] == Free && r1 == r0[q := Other]
    requires forall p :: 0 <= p < |r0| && p != q ==> r2[p] == r0[p]
    requires InTree(r2, q, root) && SameMap(m0, r0, m1) && SameMap(m1, r1, m2)
    requires forall p {:trigger m2[p]} :: 0 <= p < |m0| && (r0[p] == Other || r0[p].Owned?) ==> m2[p] == m0[p]
    ensures Grew(m0, r0, m2, r2, root) && SameMap(m0, r0, m2)
  {
    forall r: nat, w: nat | IsRoot(r0, r) && w < VPNS ensures Pte(m2, r, w) == Pte(m0, r, w) {
      assert IsRoot(r1, r);
      assert Pte(m1, r, w) == Pte(m0, r, w);
    }
  }

  lemma StillWalked(m0: seq<Page>, r0: seq<Role>, root: nat, v: nat, level: nat, q: nat)
    requires Sound(m0, r0) && IsRoot(r0, root) && v < VPNS && 1 <= level <= 2 && q < |m0| && r0[q] == Free
    requires Walked(m0, root, v, level) != -1
    ensures Walked(m0[q := Filled(0)], root, v, level) == Walked(m0, root, v, level)
    ensures Walked(m0[q := Filled(0)], root, v, level - 1) == Walked(m0, root, v, level - 1)
  {
    Path(m0, r0, root, v);
  }

  lemma RoleTaken(role: seq<Role>, list: seq<nat>, lo: nat, q: nat, r: Role)
    requires FreeOk(role, list, lo) && q < |role| && role[q] != Free && r != Free
    ensures FreeOk(role[q := r], list, lo)
  {
    forall p | 0 <= p < |role| && role[q := r][p] == Free ensures p in list { assert role[p] == Free; }
  }

  /**
  The slot of page number va / PGSIZE, as table page and index. With `alloc` missing tables are created, which changes
  no translation; two pages are enough for that, and it fails only when memory has run out. Without, it fails just when
  there is no table.
  */
  method Walk(k: Kmem, root: nat, va: nat, alloc: bool) returns (found: bool, pt: nat, i: nat)
    requires VmOk(k) && IsRoot(k.role, root) && va / PGSIZE < MAXVPN          // else panic("walk")
    modifies k
    ensures VmOk(k) && Grew(old(k.mem), old(k.role), k.mem, k.role, root) && SameMap(old(k.mem), old(k.role), k.mem)
    ensures found ==> pt == LowPage(k.mem, root, va / PGSIZE) && i == PX(0, va / PGSIZE)
    ensures found ==> pt < |k.mem| && k.role[pt].Low? && k.mem[pt][i] == Pte(k.mem, root, va / PGSIZE)
    ensures !found && alloc ==> k.list == [] && |old(k.list)| < 2
    ensures Spent(old(k.list), k.list, if alloc then 2 else 0)
    ensures !alloc ==> k.mem == old(k.mem) && k.role == old(k.role)
    ensures !alloc ==> (found <==> LowPage(old(k.mem), root, va / PGSIZE) != -1)
  {
    ghost var m0, r0, l0 := k.mem, k.role, k.list;
    var v := va / PGSIZE;
    pt := root;
    var level := 2;
    while level > 0
      invariant level <= 2 && VmOk(k) && Grew(m0, r0, k.mem, k.role, root) && SameMap(m0, r0, k.mem)
      invariant Walked(k.mem, root, v, level) == pt && Spent(l0, k.list, if alloc then 2 - level else 0)
      invariant !alloc ==> k.mem == m0 && k.role == r0
    {
      WalkedRole(k.mem, k.role, root, v, level);
      var pte := k.mem[pt][PX(level, v)];
      if IsValid(pte) {
        pt := Ppn(pte);
      } else {
        if !alloc { return false, 0, 0; }
        ghost var m1, r1 := k.mem, k.role;
        var q := NewTable(k, root, v, level, pt);
        GrewOn(m0, r0, m1, r1, k.mem, k.role, root);
        if q == 0 { return false, 0, 0; }
        pt := q;
      }
      level := level - 1;
    }
    WalkedRole(k.mem, k.role, root, v, 0);
    found, i := true, PX(0, v);
  }

  // ----- Writing a leaf entry -----

  lemma LeafBits(pa: nat, perm: nat)
    requires IsLeaf(perm) && perm < 1024
    ensures IsValid(Leaf(pa, perm)) && IsLeaf(Leaf(pa, perm)) && Ppn(Leaf(pa, perm)) == pa / PGSIZE
    ensures Flags(Leaf(pa, perm)) == if perm % 2 == 1 then perm else perm + PTE_V
  {
    Split(pa / PGSIZE, if perm % 2 == 1 then perm else perm + PTE_V);
    assert (perm + 1) / 2 == perm / 2 || perm % 2 == 1;
  }

  lemma UnmappedUnowned(mem: seq<Page>, role: seq<Role>, root: nat, v: nat)
    requires Sound(mem, role) && IsRoot(role, root) && v < VPNS && !IsValid(Pte(mem, root, v))
    ensures NobodyOwns(role, root, v)
  {
    forall p | 0 <= p < |role| ensures role[p] != Owned(root, v) { assert OwnedOk(mem, role, p); }
  }

  /** One entry of the map, and none other, becomes `e`. */
  ghost predicate Updated(m0: seq<Page>, r0: seq<Role>, m1: seq<Page>, root: nat, v: nat, e: nat) {
    forall r: nat, w: nat {:trigger Pte(m1, r, w)} :: IsRoot(r0, r) && w < VPNS ==>
      Pte(m1, r, w) == if r == root && w == v then e else Pte(m0, r, w)
  }

  /** Pages that hold data keep it. */
  ghost predicate SameData(m0: seq<Page>, m1: seq<Page>, r1: seq<Role>) {
    |m0| == |m1| == |r1| &&
    forall p {:trigger m1[p]} :: 0 <= p < |m0| && (r1[p] == Other || r1[p].Owned?) ==> m1[p] == m0[p]
  }

  /** *pte = e */
  method WritePte(k: Kmem, ghost root: nat, ghost v: nat, pt: nat, i: nat, e: nat)
    requires VmOk(k) && IsRoot(k.role, root) && v < VPNS && NobodyOwns(k.role, root, v)
    requires pt == LowPage(k.mem, root, v) && i == PX(0, v) && pt < |k.mem| && k.role[pt].Low?
    requires e != 0 ==> IsValid(e) && IsLeaf(e)
    modifies k
    ensures VmOk(k) && k.role == old(k.role) && k.list == old(k.list)
    ensures SameData(old(k.mem), k.mem, k.role)
    ensures Updated(old(k.mem), old(k.role), k.mem, root, v, e)
  {
    SetLeaf(k.mem, k.role, root, v, e);
    NotListed(k, pt);
    ghost var m1 := SetWord(k.mem, pt, i, e);
    ChainKept(k.mem, k.freelist, k.list, pt, m1[pt]);
    assert m1 == k.mem[pt := m1[pt]];
    k.mem := SetWord(k.mem, pt, i, e);
  }

  // ----- mappages -----

  /** `n` consecutive page numbers from `first` map consecutive physical pages from `pa`; nothing else changed. */
  ghost predicate Mapped(m0: seq<Page>, r0: seq<Role>, m1: seq<Page>, root: nat, first: nat, n: nat, pa: nat, perm: nat) {
    forall r: nat, w: nat {:trigger Pte(m1, r, w)} :: IsRoot(r0, r) && w < VPNS ==>
      Pte(m1, r, w) == if r == root && first <= w < first + n then Leaf(pa + (w - first) * PGSIZE, perm) else Pte(m0, r, w)
  }

  lemma MapOneMore(m0: seq<Page>, m1: seq<Page>, m2: seq<Page>, r0: seq<Role>, r1: seq<Role>,
                   root: nat, first: nat, n: nat, pa: nat, perm: nat)
    requires Mapped(m0, r0, m1, root, first, n, pa, perm)
    requires Updated(m1, r1, m2, root, first + n, Leaf(pa + n * PGSIZE, perm))
    requires forall r: nat :: IsRoot(r0, r) ==> IsRoot(r1, r)
    ensures Mapped(m0, r0, m2, root, first, n + 1, pa, perm)
  {
    forall r: nat, w: nat | IsRoot(r0, r) && w < VPNS
      ensures Pte(m2, r, w) == if r == root && first <= w < first + n + 1 then Leaf(pa + (w - first) * PGSIZE, perm)
                               else Pte(m0, r, w)
    {
      assert IsRoot(r1, r);
    }
  }

  lemma UpdatedAfter(m0: seq<Page>, r0: seq<Role>, m1: seq<Page>, r1: seq<Role>, m2: seq<Page>, root: nat, v: nat, e: nat)
    requires SameMap(m0, r0, m1) && Updated(m1, r1, m2, root, v, e)
    requires forall r: nat :: IsRoot(r0, r) ==> IsRoot(r1, r)
    ensures Updated(m0, r0, m2, root, v, e)
  {
    forall r: nat, w: nat | IsRoot(r0, r) && w < VPNS
      ensures Pte(m2, r, w) == if r == root && w == v then e else Pte(m0, r, w)
    {
      assert IsRoot(r1, r);
      assert Pte(m1, r, w) == Pte(m0, r, w);
    }
  }

  lemma GrewRoots(m0: seq<Page>, r0: seq<Role>, m1: seq<Page>, r1: seq<Role>, root: nat)
    requires Grew(m0, r0, m1, r1, root)
    ensures forall r: nat :: IsRoot(r0, r) <==> IsRoot(r1, r)
  {
  }

  ghost predicate Blank(mem: seq<Page>, root: nat, first: nat, last: nat) {
    forall w: nat {:trigger Pte(mem, root, w)} :: first <= w < last ==> !IsValid(Pte(mem, root, w))
  }

  /** One turn of mappages' loop. */
  method MapOne(k: Kmem, root: nat, a: nat, pa: nat, perm: nat) returns (ok: bool)
    requires VmOk(k) && IsRoot(k.role, root) && a / PGSIZE < MAXVPN && IsLeaf(perm) && perm < 1024
    requires !IsValid(Pte(k.mem, root, a / PGSIZE))                               // else panic("mappages: remap")
    modifies k
    ensures VmOk(k) && Grew(old(k.mem), old(k.role), k.mem, k.role, root)
    ensures ok ==> Updated(old(k.mem), old(k.role), k.mem, root, a / PGSIZE, Leaf(pa, perm))
    ensures !ok ==> SameMap(old(k.mem), old(k.role), k.mem) && k.list == [] && |old(k.list)| < 2
    ensures Spent(old(k.list), k.list, 2)
  {
    ghost var m0, r0, v := k.mem, k.role, a / PGSIZE;
    var found, pt, i := Walk(k, root, a, true);
    if !found { return false; }
    ghost var m1, r1 := k.mem, k.role;
    GrewRoots(m0, r0, m1, r1, root);
    LeafBits(pa, perm);
    assert Pte(m1, root, v) == Pte(m0, root, v);
    UnmappedUnowned(m1, r1, root, v);
    WritePte(k, root, v, pt, i, Leaf(pa, perm));
    UpdatedAfter(m0, r0, m1, r1, k.mem, root, v, Leaf(pa, perm));
    GrewData(m0, r0, m1, r1, k.mem, root);
    ok := true;
  }

  /** The same after n pages have been mapped. */
  method MapNext(k: Kmem, root: nat, a: nat, phys: nat, perm: nat,
                 ghost m0: seq<Page>, ghost r0: seq<Role>, ghost first: nat, ghost n: nat, ghost pa: nat) returns (ok: bool)
    requires VmOk(k) && IsRoot(r0, root) && IsLeaf(perm) && perm < 1024
    requires Grew(m0, r0, k.mem, k.role, root) && Mapped(m0, r0, k.mem, root, first, n, pa, perm)
    requires a == (first + n) * PGSIZE && first + n < MAXVPN && phys == pa + n * PGSIZE && !IsValid(Pte(m0, root, first + n))
    modifies k
    ensures VmOk(k) && Grew(m0, r0, k.mem, k.role, root)
    ensures Mapped(m0, r0, k.mem, root, first, if ok then n + 1 else n, pa, perm)
    ensures (!ok ==> k.list == [] && |old(k.list)| < 2) && Spent(old(k.list), k.list, 2)
  {
    ghost var m1, r1 := k.mem, k.role;
    GrewRoots(m0, r0, m1, r1, root);
    assert a / PGSIZE == first + n;
    assert Pte(m1, root, first + n) == Pte(m0, root, first + n);
    ok := MapOne(k, root, a, phys, perm);
    GrewOn(m0, r0, m1, r1, k.mem, k.role, root);
    if ok {
      MapOneMore(m0, m1, k.mem, r0, r1, root, first, n, pa, perm);
    } else {
      SameMapped(m0, r0, m1, r1, k.mem, root, first, n, pa, perm);
    }
  }

  /** Success maps the whole range; failure, for want of a table page, leaves the first `n` pages mapped. */
  method Mappages(k: Kmem, root: nat, va: nat, size: nat, pa: nat, perm: nat) returns (r: int, ghost n: nat)
    requires VmOk(k) && IsRoot(k.role, root)
    requires size > 0 && (va + size - 1) / PGSIZE < MAXVPN && IsLeaf(perm) && perm < 1024
    requires Blank(k.mem, root, va / PGSIZE, (va + size - 1) / PGSIZE + 1)       // else panic("mappages: remap")
    modifies k
    ensures VmOk(k) && Grew(old(k.mem), old(k.role), k.mem, k.role, root)
    ensures Mapped(old(k.mem), old(k.role), k.mem, root, va / PGSIZE, n, pa, perm)
    ensures r == 0 || r == -1
    ensures r == 0 ==> n == (va + size - 1) / PGSIZE + 1 - va / PGSIZE
    ensures r == -1 ==> n < (va + size - 1) / PGSIZE + 1 - va / PGSIZE && k.list == [] && |old(k.list)| < 2 * n + 2
    ensures Spent(old(k.list), k.list, 2 * n + 2)
    ensures r == 0 ==> Spent(old(k.list), k.list, 2 * n)
  {
    ghost var m0, r0, l0 := k.mem, k.role, k.list;
    var a := va / PGSIZE * PGSIZE;
    var last := (va + size - 1) / PGSIZE * PGSIZE;
    var phys := pa;
    ghost var first := va / PGSIZE;
    n := 0;
    while true
      invariant VmOk(k) && Grew(m0, r0, k.mem, k.role, root) && a == (first + n) * PGSIZE && a <= last
      invariant Mapped(m0, r0, k.mem, root, first, n, pa, perm) && phys == pa + n * PGSIZE
      invariant Spent(l0, k.list, 2 * n)
      decreases last - a
    {
      ghost var l1 := k.list;
      var ok := MapNext(k, root, a, phys, perm, m0, r0, first, n, pa);
      SpentOn(l0, l1, k.list, 2 * n, 2);
      if !ok { return -1, n; }
      n := n + 1;
      if a == last { break; }
      a := a + PGSIZE;
      phys := phys + PGSIZE;
    }
    r := 0;
  }

  lemma SameMapped(m0: seq<Page>, r0: seq<Role>, m1: seq<Page>, r1: seq<Role>, m2: seq<Page>,
                   root: nat, first: nat, n: nat, pa: nat, perm: nat)
    requires Mapped(m0, r0, m1, root, first, n, pa, perm) && SameMap(m1, r1, m2)
    requires forall r: nat :: IsRoot(r0, r) ==> IsRoot(r1, r)
    ensures Mapped(m0, r0, m2, root, first, n, pa, perm)
  {
    forall r: nat, w: nat | IsRoot(r0, r) && w < VPNS ensures Pte(m2, r, w) == Pte(m1, r, w) {
      assert IsRoot(r1, r);
    }
  }

  lemma GrewData(m0: seq<Page>, r0: seq<Role>, m1: seq<Page>, r1: seq<Role>, m2: seq<Page>, root: nat)
    requires Grew(m0, r0, m1, r1, root) && SameData(m1, m2, r1)
    ensures Grew(m0, r0, m2, r1, root)
  {
    forall p | 0 <= p < |m0| && (r0[p] == Other || r0[p].Owned?) ensures m2[p] == m0[p] {
      assert r1[p] == r0[p] && m1[p] == m0[p];
    }
  }

  // ----- uvmunmap -----

  /** The page mapped at `v` belongs to it. */
  ghost predicate OwnsPage(mem: seq<Page>, role: seq<Role>, root: nat, v: nat) {
    && IsValid(Pte(mem, root, v)) && Ppn(Pte(mem, root, v)) < |role|
    && role[Ppn(Pte(mem, root, v))] == Owned(root, v)
  }

  ghost predicate Unmapped(m0: seq<Page>, r0: seq<Role>, m1: seq<Page>, root: nat, first: nat, n: nat) {
    forall r: nat, w: nat {:trigger Pte(m1, r, w)} :: IsRoot(r0, r) && w < VPNS ==>
      Pte(m1, r, w) == if r == root && first <= w < first + n then 0 else Pte(m0, r, w)
  }

  predicate OwnedIn(r: Role, root: nat, first: nat, n: nat) {
    r.Owned? && r.root == root && first <= r.vpn < first + n
  }

  /** Exactly the pages that belong to the range are freed. */
  ghost predicate FreedRange(r0: seq<Role>, r1: seq<Role>, root: nat, first: nat, n: nat) {
    |r0| == |r1| && forall p {:trigger r1[p]} :: 0 <= p < |r0| ==>
      r1[p] == if OwnedIn(r0[p], root, first, n) then Free else r0[p]
  }

  /** kfree of a page of user memory. */
  method FreeUserPage(k: Kmem, pa: nat)
    requires VmOk(k) && pa % PGSIZE == 0 && pa / PGSIZE < |k.mem|
    requires k.role[pa / PGSIZE].Owned? || (k.role[pa / PGSIZE] == Other && k.lo <= pa / PGSIZE)
    modifies k
    ensures VmOk(k) && k.role == old(k.role)[pa / PGSIZE := Free]
    ensures SameMap(old(k.mem), old(k.role), k.mem)
    ensures |k.mem| == old(|k.mem|) && forall p :: 0 <= p < |k.mem| && p != pa / PGSIZE ==> k.mem[p] == old(k.mem)[p]
  {
    ghost var q := pa / PGSIZE;
    ghost var m0, r0 := k.mem, k.role;
    Rename(m0, r0, q, Other);
    RoleTaken(k.role, k.list, k.lo, q, Other);
    k.role := k.role[q := Other];
    k.Kfree(pa);
    assert k.mem == m0[q := k.mem[q]];
    Scribble(m0, r0[q := Other], q, k.mem[q]);
    Rename(k.mem, r0[q := Other], q, Free);
    assert r0[q := Other][q := Free] == r0[q := Free];
    forall r: nat, v: nat | IsRoot(r0, r) && v < VPNS ensures Pte(k.mem, r, v) == Pte(m0, r, v) {
      assert IsRoot(r0[q := Other], r);
    }
  }

  ghost predicate UnmapReady(mem: seq<Page>, role: seq<Role>, root: nat, first: nat, n: nat, doFree: bool) {
    forall w: nat {:trigger Pte(mem, root, w)} :: first <= w < first + n ==>
      IsValid(Pte(mem, root, w)) && (if doFree then OwnsPage(mem, role, root, w) else NobodyOwns(role, root, w))
  }

  /** One turn of uvmunmap's loop. */
  method UnmapOne(k: Kmem, root: nat, a: nat, doFree: bool)
    requires VmOk(k) && IsRoot(k.role, root) && a / PGSIZE < MAXVPN
    requires UnmapReady(k.mem, k.role, root, a / PGSIZE, 1, doFree)
    modifies k
    ensures VmOk(k) && Updated(old(k.mem), old(k.role), k.mem, root, a / PGSIZE, 0)
    ensures SameData(old(k.mem), k.mem, k.role)
    ensures if doFree then FreedRange(old(k.role), k.role, root, a / PGSIZE, 1) else k.role == old(k.role)
  {
    ghost var m0, r0, v := k.mem, k.role, a / PGSIZE;
    assert IsValid(Pte(m0, root, v));
    var found, pt, i := Walk(k, root, a, false);
    var pte := k.mem[pt][i];
    assert pte == Pte(m0, root, v);
    if doFree {
      FreeUserPage(k, Ppn(pte) * PGSIZE);
      OnlyOne(m0, r0, root, v);
      assert Ppn(pte) * PGSIZE / PGSIZE == Ppn(pte);
      FreedOne(m0, r0, k.mem, k.role, root, v);
    }
    ghost var m1, r1 := k.mem, k.role;
    WritePte(k, root, v, pt, i, 0);
    UpdatedAfter(m0, r0, m1, r1, k.mem, root, v, 0);
  }

  lemma OnlyOne(mem: seq<Page>, role: seq<Role>, root: nat, v: nat)
    requires Sound(mem, role) && OwnsPage(mem, role, root, v)
    ensures forall p {:trigger role[p]} :: 0 <= p < |role| && role[p] == Owned(root, v) ==> p == Ppn(Pte(mem, root, v))
  {
    forall p | 0 <= p < |role| && role[p] == Owned(root, v) ensures p == Ppn(Pte(mem, root, v)) {
      assert OwnedOk(mem, role, p);
    }
  }

  lemma FreedOne(m0: seq<Page>, r0: seq<Role>, m1: seq<Page>, r1: seq<Role>, root: nat, v: nat)
    requires Sound(m0, r0) && Sound(m1, r1) && OwnsPage(m0, r0, root, v) && IsRoot(r0, root) && v < VPNS
    requires |m0| == |m1| && r1 == r0[Ppn(Pte(m0, root, v)) := Free]
    requires forall p {:trigger r0[p]} :: 0 <= p < |r0| && r0[p] == Owned(root, v) ==> p == Ppn(Pte(m0, root, v))
    requires forall p :: 0 <= p < |m0| && p != Ppn(Pte(m0, root, v)) ==> m1[p] == m0[p]
    ensures FreedRange(r0, r1, root, v, 1) && NobodyOwns(r1, root, v) && SameData(m0, m1, r1)
    ensures LowPage(m1, root, v) == LowPage(m0, root, v)
  {
    Path(m0, r0, root, v);
  }

  lemma UnmapOneMore(m0: seq<Page>, m1: seq<Page>, m2: seq<Page>, r0: seq<Role>, r1: seq<Role>, root: nat, first: nat, n: nat)
    requires Unmapped(m0, r0, m1, root, first, n) && Updated(m1, r1, m2, root, first + n, 0)
    requires forall r: nat :: IsRoot(r0, r) ==> IsRoot(r1, r)
    ensures Unmapped(m0, r0, m2, root, first, n + 1)
  {
    forall r: nat, w: nat | IsRoot(r0, r) && w < VPNS
      ensures Pte(m2, r, w) == if r == root && first <= w < first + n + 1 then 0 else Pte(m0, r, w)
    {
      assert IsRoot(r1, r);
    }
  }

  lemma FreedOneMore(r0: seq<Role>, r1: seq<Role>, r2: seq<Role>, root: nat, first: nat, n: nat)
    requires FreedRange(r0, r1, root, first, n) && FreedRange(r1, r2, root, first + n, 1)
    ensures FreedRange(r0, r2, root, first, n + 1)
  {
    forall p | 0 <= p < |r0| ensures r2[p] == if OwnedIn(r0[p], root, first, n + 1) then Free else r0[p] {
      assert r1[p] == if OwnedIn(r0[p], root, first, n) then Free else r0[p];
    }
  }

  lemma StillReady(m0: seq<Page>, r0: seq<Role>, m1: seq<Page>, r1: seq<Role>, root: nat, first: nat, n: nat, i: nat, doFree: bool)
    requires UnmapReady(m0, r0, root, first, n, doFree) && Unmapped(m0, r0, m1, root, first, i) && i < n
    requires IsRoot(r0, root) && first + n <= VPNS
    requires if doFree then FreedRange(r0, r1, root, first, i) else r1 == r0
    ensures UnmapReady(m1, r1, root, first + i, 1, doFree)
  {
    assert IsValid(Pte(m0, root, first + i));
    assert Pte(m1, root, first + i) == Pte(m0, root, first + i);
  }

  /** Removes exactly the range from the map; with `doFree` exactly its pages are freed, without it none is. */
  method Uvmunmap(k: Kmem, root: nat, va: nat, npages: nat, doFree: bool)
    requires VmOk(k) && IsRoot(k.role, root)
    requires va % PGSIZE == 0 && va / PGSIZE + npages <= MAXVPN
    requires UnmapReady(k.mem, k.role, root, va / PGSIZE, npages, doFree)
    modifies k
    ensures VmOk(k) && Unmapped(old(k.mem), old(k.role), k.mem, root, va / PGSIZE, npages)
    ensures SameData(old(k.mem), k.mem, k.role)
    ensures if doFree then FreedRange(old(k.role), k.role, root, va / PGSIZE, npages) else k.role == old(k.role)
  {
    ghost var m0, r0, first, n := k.mem, k.role, va / PGSIZE, 0;
    var a := va;
    while a < va + npages * PGSIZE
      invariant VmOk(k) && a == va + n * PGSIZE && n <= npages
      invariant Unmapped(m0, r0, k.mem, root, first, n) && SameData(m0, k.mem, k.role)
      invariant if doFree then FreedRange(r0, k.role, root, first, n) else k.role == r0
    {
      ghost var m1, r1 := k.mem, k.role;
      assert a / PGSIZE == first + n;
      StillReady(m0, r0, m1, r1, root, first, npages, n, doFree);
      UnmapOne(k, root, a, doFree);
      UnmapOneMore(m0, m1, k.mem, r0, r1, root, first, n);
      if doFree { FreedOneMore(r0, r1, k.role, root, first, n); }
      DataOn(m0, m1, r1, k.mem, k.role);
      a := a + PGSIZE;
      n := n + 1;
    }
  }

  lemma DataOn(m0: seq<Page>, m1: seq<Page>, r1: seq<Role>, m2: seq<Page>, r2: seq<Role>)
    requires SameData(m0, m1, r1) && SameData(m1, m2, r2)
    requires forall p {:trigger r2[p]} :: 0 <= p < |r2| ==> r2[p] == r1[p] || r2[p] == Free
    ensures SameData(m0, m2, r2)
  {
  }

  // ----- Growing and shrinking an address space -----

  /** PGROUNDUP(sz) / PGSIZE. */
  function PgUp(sz: nat): (n: nat)
    ensures sz <= n * PGSIZE < sz + PGSIZE
  {
    (sz + PGSIZE - 1) / PGSIZE
  }

  function WithV(perm: nat): nat { if perm % 2 == 1 then perm else perm + PTE_V }

  /** The contents and permissions a fresh page of user memory is to have. */
  datatype Image = Image(page: Page, perm: nat)

  /** `w` is mapped, as asked, to a page that was free and now belongs to it. */
  ghost predicate Placed(r0: seq<Role>, m1: seq<Page>, r1: seq<Role>, root: nat, w: nat, img: Image) {
    var e := Pte(m1, root, w);
    && IsValid(e) && Flags(e) == WithV(img.perm) && Ppn(e) < |r0| && |r0| == |m1| == |r1|
    && r0[Ppn(e)] == Free && r1[Ppn(e)] == Owned(root, w) && m1[Ppn(e)] == img.page
  }

  ghost predicate GrownRoles(r0: seq<Role>, r1: seq<Role>, root: nat, first: nat, n: nat) {
    |r0| == |r1| && forall p {:trigger r1[p]} :: 0 <= p < |r0| ==>
      r1[p] == r0[p] || (r0[p] == Free && (InTree(r1, p, root) || OwnedIn(r1[p], root, first, n)))
  }

  /** `imgs` have been placed from page number `first` on; nothing else is mapped otherwise, no data page touched. */
  ghost predicate Grown(m0: seq<Page>, r0: seq<Role>, m1: seq<Page>, r1: seq<Role>, root: nat, first: nat, imgs: seq<Image>) {
    && |m0| == |m1| && GrownRoles(r0, r1, root, first, |imgs|)
    && |m0| == |r0| && (forall p {:trigger m1[p]} :: 0 <= p < |m0| && (r0[p] == Other || r0[p].Owned?) ==> m1[p] == m0[p])
    && (forall r: nat, w: nat {:trigger Pte(m1, r, w)} ::
          IsRoot(r0, r) && w < VPNS && !(r == root && first <= w < first + |imgs|) ==> Pte(m1, r, w) == Pte(m0, r, w))
    && (forall i {:trigger imgs[i]} :: 0 <= i < |imgs| ==> Placed(r0, m1, r1, root, first + i, imgs[i]))
  }

  lemma AttachedOne(m0: seq<Page>, r0: seq<Role>, m1: seq<Page>, r1: seq<Role>, root: nat, v: nat, pa: nat, perm: nat)
    requires Grew(m0, r0, m1, r1, root) && Mapped(m0, r0, m1, root, v, 1, pa, perm) && IsRoot(r0, root) && v < VPNS
    requires pa / PGSIZE < |r0| && r0[pa / PGSIZE] == Other && IsLeaf(perm) && perm < 1024
    ensures r1[pa / PGSIZE] == Other && Pte(m1, root, v) == Leaf(pa, perm)
    ensures Grown(m0, r0[pa / PGSIZE := Free], m1, r1[pa / PGSIZE := Owned(root, v)], root, v, [Image(m0[pa / PGSIZE], perm)])
  {
    var q := pa / PGSIZE;
    LeafBits(pa, perm);
    var r0', r1' := r0[q := Free], r1[q := Owned(root, v)];
    forall p | 0 <= p < |r0|
      ensures r1'[p] == r0'[p] || (r0'[p] == Free && (InTree(r1', p, root) || OwnedIn(r1'[p], root, v, 1)))
    {
      assert r1[p] == r0[p] || r0[p] == Free;
    }
    forall r: nat, w: nat | IsRoot(r0', r) && w < VPNS && !(r == root && v <= w < v + 1)
      ensures Pte(m1, r, w) == Pte(m0, r, w)
    {
      assert IsRoot(r0, r);
    }
  }

  /** The page at `pa`, filled already, is mapped at `a` and becomes its own; or it is freed again. */
  method Attach(k: Kmem, root: nat, a: nat, pa: nat, perm: nat) returns (ok: bool)
    requires VmOk(k) && IsRoot(k.role, root) && a % PGSIZE == 0 && a / PGSIZE < MAXVPN && IsLeaf(perm) && perm < 1024
    requires pa % PGSIZE == 0 && k.lo <= pa / PGSIZE < |k.role| && k.role[pa / PGSIZE] == Other
    requires !IsValid(Pte(k.mem, root, a / PGSIZE))
    modifies k
    ensures VmOk(k)
    ensures ok ==> Grown(old(k.mem), old(k.role)[pa / PGSIZE := Free], k.mem, k.role,
                         root, a / PGSIZE, [Image(old(k.mem)[pa / PGSIZE], perm)])
    ensures !ok ==> Grew(old(k.mem), old(k.role)[pa / PGSIZE := Free], k.mem, k.role, root)
    ensures !ok ==> SameMap(old(k.mem), old(k.role), k.mem) && |old(k.list)| < 2
    ensures ok ==> Spent(old(k.list), k.list, 2)
  {
    ghost var m0, r0, v, q := k.mem, k.role, a / PGSIZE, pa / PGSIZE;
    assert (a + PGSIZE - 1) / PGSIZE == v;
    ghost var n;
    var r;
    r, n := Mappages(k, root, a, PGSIZE, pa, perm);
    ghost var m1, r1 := k.mem, k.role;
    if r != 0 {
      FreeUserPage(k, pa);
      GaveUp(m0, r0, m1, r1, k.mem, root, v, pa, perm);
      return false;
    }
    AttachedOne(m0, r0, m1, r1, root, v, pa, perm);
    GrewRoots(m0, r0, m1, r1, root);
    LeafBits(pa, perm);
    Rename(m1, r1, q, Owned(root, v));
    RoleTaken(k.role, k.list, k.lo, q, Owned(root, v));
    k.role := k.role[q := Owned(root, v)];
    ok := true;
  }

  lemma GaveUp(m0: seq<Page>, r0: seq<Role>, m1: seq<Page>, r1: seq<Role>, m2: seq<Page>, root: nat, v: nat, pa: nat, perm: nat)
    requires Grew(m0, r0, m1, r1, root) && Mapped(m0, r0, m1, root, v, 0, pa, perm) && SameMap(m1, r1, m2)
    requires pa / PGSIZE < |r0| && r0[pa / PGSIZE] == Other && |m2| == |m1|
    requires forall p :: 0 <= p < |m2| && p != pa / PGSIZE ==> m2[p] == m1[p]
    ensures SameMap(m0, r0, m2) && Grew(m0, r0[pa / PGSIZE := Free], m2, r1[pa / PGSIZE := Free], root)
  {
    forall x: nat, w: nat | IsRoot(r0, x) && w < VPNS ensures Pte(m2, x, w) == Pte(m0, x, w) {
      assert r1[x] == r0[x] && IsRoot(r1, x);
      assert Pte(m1, x, w) == Pte(m0, x, w);
    }
    var q := pa / PGSIZE;
    var r0', r1' := r0[q := Free], r1[q := Free];
    forall p | 0 <= p < |r0| ensures r1'[p] == r0'[p] || (r0'[p] == Free && InTree(r1', p, root)) {
      assert r1[p] == r0[p] || r0[p] == Free;
    }
  }

  /** uvmalloc's perm argument: PTE_R|PTE_U|xperm. */
  function WithRU(x: nat): nat {
    x / 32 * 32 + PTE_U + x / 8 % 2 * PTE_X + x / 4 % 2 * PTE_W + PTE_R + x % 2
  }

  lemma RUBits(x: nat)
    requires x < 1024
    ensures IsLeaf(WithRU(x)) && WithRU(x) < 1024
  {
  }

  /** e is valid, readable and the user's, and as writable and executable as x asks for. */
  predicate Permits(e: nat, x: nat) {
    e % 2 == 1 && e / 2 % 2 == 1 && e / 16 % 2 == 1 && e / 4 % 2 == x / 4 % 2 && e / 8 % 2 == x / 8 % 2
  }

  lemma Digits(h: nat, u: nat, x: nat, w: nat, r: nat, v: nat)
    requires u < 2 && x < 2 && w < 2 && r < 2 && v < 2
    ensures var e := 32 * h + 16 * u + 8 * x + 4 * w + 2 * r + v;
      e % 2 == v && e / 2 % 2 == r && e / 4 % 2 == w && e / 8 % 2 == x && e / 16 % 2 == u
  {
    var e := 32 * h + 16 * u + 8 * x + 4 * w + 2 * r + v;
    Bit(16 * h + 8 * u + 4 * x + 2 * w + r, v);
    Bit(8 * h + 4 * u + 2 * x + w, r);
    HalfOf(e, 2);
    Bit(4 * h + 2 * u + x, w);
    HalfOf(e, 4);
    Bit(2 * h + u, x);
    HalfOf(e, 8);
    Bit(h, u);
  }

  lemma Bit(q: nat, b: nat)
    requires b < 2
    ensures (2 * q + b) / 2 == q && (2 * q + b) % 2 == b
  {
  }

  lemma LowFive(e: nat)
    ensures e == 32 * (e / 32) + 16 * (e / 16 % 2) + 8 * (e / 8 % 2) + 4 * (e / 4 % 2) + 2 * (e / 2 % 2) + e % 2
  {
    assert e == 2 * (e / 2) + e % 2;
    HalfOf(e, 2);
    HalfOf(e, 4);
    HalfOf(e, 8);
    HalfOf(e, 16);
  }

  lemma HalfOf(e: nat, d: nat)
    requires d == 2 || d == 4 || d == 8 || d == 16
    ensures e / d == 2 * (e / (2 * d)) + e / d % 2
  {
    var q, r := e / (2 * d), e % (2 * d);
    if r < d { assert e / d == 2 * q; } else { assert e / d == 2 * q + 1; }
  }

  /** What uvmalloc asks for is what an entry with these flags permits. */
  lemma AskedFor(e: nat, x: nat)
    requires Flags(e) == WithV(WithRU(x)) && x < 1024
    ensures Permits(e, x)
  {
    var f := Flags(e);
    assert e == 32 * (32 * (e / 1024) + x / 32) + 16 + x / 8 % 2 * 8 + x / 4 % 2 * 4 + 2 + 1;
    Digits(32 * (e / 1024) + x / 32, 1, x / 8 % 2, x / 4 % 2, 1, 1);
  }

  /** kalloc, fill and map one page; on failure everything taken for it but table pages is free again. */
  method GrowOne(k: Kmem, root: nat, a: nat, page: Page, perm: nat) returns (ok: bool)
    requires VmOk(k) && IsRoot(k.role, root) && a % PGSIZE == 0 && a / PGSIZE < MAXVPN && IsLeaf(perm) && perm < 1024
    requires |page| == WORDS && Pte(k.mem, root, a / PGSIZE) == 0
    modifies k
    ensures VmOk(k)
    ensures ok ==> Grown(old(k.mem), old(k.role), k.mem, k.role, root, a / PGSIZE, [Image(page, perm)])
    ensures !ok ==> Grew(old(k.mem), old(k.role), k.mem, k.role, root) && SameMap(old(k.mem), old(k.role), k.mem)
    ensures if ok then Spent(old(k.list), k.list, 3) else |old(k.list)| < 3
  {
    ghost var m0, r0 := k.mem, k.role;
    var pa := AllocWith(k, page);
    if pa == 0 { return false; }
    ghost var m1, r1, q := k.mem, k.role, pa / PGSIZE;
    assert Pte(m1, root, a / PGSIZE) == Pte(m0, root, a / PGSIZE);
    ok := Attach(k, root, a, pa, perm);
    assert r1[q := Free] == r0;
    if ok {
      Rebase(m0, m1, r0, k.mem, k.role, root, a / PGSIZE, [Image(page, perm)], q);
    } else {
      forall p | 0 <= p < |m0| && (r0[p] == Other || r0[p].Owned?) ensures k.mem[p] == m0[p] { assert p != q; }
      forall r: nat, w: nat | IsRoot(r0, r) && w < VPNS ensures Pte(k.mem, r, w) == Pte(m0, r, w) {
        assert IsRoot(r1, r);
        assert Pte(m1, r, w) == Pte(m0, r, w);
      }
    }
  }

  lemma Rebase(m0: seq<Page>, m1: seq<Page>, r0: seq<Role>, m2: seq<Page>, r2: seq<Role>,
               root: nat, first: nat, imgs: seq<Image>, q: nat)
    requires Grown(m1, r0, m2, r2, root, first, imgs) && |m0| == |m1| && q < |m0| && r0[q] == Free
    requires SameMap(m0, r0, m1) && forall p :: 0 <= p < |m0| && p != q ==> m1[p] == m0[p]
    ensures Grown(m0, r0, m2, r2, root, first, imgs)
  {
    forall r: nat, w: nat | IsRoot(r0, r) && w < VPNS && !(r == root && first <= w < first + |imgs|)
      ensures Pte(m2, r, w) == Pte(m0, r, w)
    {
      assert Pte(m1, r, w) == Pte(m0, r, w);
    }
  }

  /** One more page after those placed already. */
  lemma GrownOneMore(m0: seq<Page>, r0: seq<Role>, m1: seq<Page>, r1: seq<Role>, m2: seq<Page>, r2: seq<Role>,
                     root: nat, first: nat, imgs: seq<Image>, img: Image)
    requires Grown(m0, r0, m1, r1, root, first, imgs) && Grown(m1, r1, m2, r2, root, first + |imgs|, [img])
    requires IsRoot(r0, root) && first + |imgs| < VPNS
    ensures Grown(m0, r0, m2, r2, root, first, imgs + [img])
  {
    var all := imgs + [img];
    forall p | 0 <= p < |r0|
      ensures r2[p] == r0[p] || (r0[p] == Free && (InTree(r2, p, root) || OwnedIn(r2[p], root, first, |all|)))
    {
      assert r1[p] == r0[p] || r0[p] == Free;
    }
    forall p | 0 <= p < |m0| && (r0[p] == Other || r0[p].Owned?) ensures m2[p] == m0[p] {
      assert r1[p] == r0[p] && m1[p] == m0[p];
    }
    forall r: nat, w: nat | IsRoot(r0, r) && w < VPNS && !(r == root && first <= w < first + |all|)
      ensures Pte(m2, r, w) == Pte(m0, r, w)
    {
      assert r1[r] == r0[r] && IsRoot(r1, r);
      assert Pte(m1, r, w) == Pte(m0, r, w);
    }
    AllPlaced(m0, r0, m1, r1, m2, r2, root, first, imgs, img);
  }

  lemma AllPlaced(m0: seq<Page>, r0: seq<Role>, m1: seq<Page>, r1: seq<Role>, m2: seq<Page>, r2: seq<Role>,
                  root: nat, first: nat, imgs: seq<Image>, img: Image)
    requires Grown(m0, r0, m1, r1, root, first, imgs) && Grown(m1, r1, m2, r2, root, first + |imgs|, [img])
    requires IsRoot(r0, root) && first + |imgs| < VPNS
    ensures forall i {:trigger (imgs + [img])[i]} :: 0 <= i <= |imgs| ==>
              Placed(r0, m2, r2, root, first + i, (imgs + [img])[i])
  {
    NewlyPlaced(m0, r0, m1, r1, m2, r2, root, first, imgs, img);
    assert r1[root] == r0[root] && IsRoot(r1, root);
    forall i | 0 <= i < |imgs| ensures Placed(r0, m2, r2, root, first + i, imgs[i]) {
      assert Pte(m2, root, first + i) == Pte(m1, root, first + i);
      StillPlaced(r0, m1, r1, m2, r2, root, first + i, imgs[i]);
    }
  }

  lemma StillPlaced(r0: seq<Role>, m1: seq<Page>, r1: seq<Role>, m2: seq<Page>, r2: seq<Role>, root: nat, w: nat, img: Image)
    requires Placed(r0, m1, r1, root, w, img) && |r2| == |m2| == |m1| && Pte(m2, root, w) == Pte(m1, root, w)
    requires forall p {:trigger m2[p]} :: 0 <= p < |m2| && (r1[p] == Other || r1[p].Owned?) ==> m2[p] == m1[p]
    requires forall p {:trigger r2[p]} :: 0 <= p < |r2| ==> r2[p] == r1[p] || r1[p] == Free
    ensures Placed(r0, m2, r2, root, w, img)
  {
  }

  lemma NewlyPlaced(m0: seq<Page>, r0: seq<Role>, m1: seq<Page>, r1: seq<Role>, m2: seq<Page>, r2: seq<Role>,
                    root: nat, first: nat, imgs: seq<Image>, img: Image)
    requires Grown(m0, r0, m1, r1, root, first, imgs) && Grown(m1, r1, m2, r2, root, first + |imgs|, [img])
    ensures Placed(r0, m2, r2, root, first + |imgs|, img)
  {
    assert [img][0] == img;
    assert Placed(r1, m2, r2, root, first + |imgs| + 0, [img][0]);
    var q := Ppn(Pte(m2, root, first + |imgs|));
    assert r1[q] == Free;
    assert r1[q] == r0[q] || r0[q] == Free;
  }

  /** One turn of the loop in uvmalloc or uvmcopy, after `imgs` have been placed. */
  method GrowNext(k: Kmem, root: nat, a: nat, page: Page, perm: nat,
                  ghost m0: seq<Page>, ghost r0: seq<Role>, ghost first: nat, ghost imgs: seq<Image>) returns (ok: bool)
    requires VmOk(k) && IsRoot(r0, root) && a == (first + |imgs|) * PGSIZE && first + |imgs| < MAXVPN
    requires IsLeaf(perm) && perm < 1024 && |page| == WORDS
    requires Grown(m0, r0, k.mem, k.role, root, first, imgs) && Pte(m0, root, first + |imgs|) == 0
    modifies k
    ensures VmOk(k) && forall r: nat {:trigger IsRoot(k.role, r)} :: IsRoot(r0, r) ==> IsRoot(k.role, r)
    ensures ok ==> Grown(m0, r0, k.mem, k.role, root, first, imgs + [Image(page, perm)])
    ensures !ok ==> Grew(old(k.mem), old(k.role), k.mem, k.role, root) && SameMap(old(k.mem), old(k.role), k.mem)
    ensures if ok then Spent(old(k.list), k.list, 3) else |old(k.list)| < 3
  {
    ghost var m1, r1 := k.mem, k.role;
    GrownRoots(m0, r0, m1, r1, root, first, imgs);
    assert Pte(m1, root, first + |imgs|) == 0;
    assert a / PGSIZE == first + |imgs|;
    ok := GrowOne(k, root, a, page, perm);
    if ok {
      GrownOneMore(m0, r0, m1, r1, k.mem, k.role, root, first, imgs, Image(page, perm));
      GrownRoots(m0, r0, k.mem, k.role, root, first, imgs + [Image(page, perm)]);
    } else {
      GrewRoots(m1, r1, k.mem, k.role, root);
    }
  }

  lemma GrownRoots(m0: seq<Page>, r0: seq<Role>, m1: seq<Page>, r1: seq<Role>, root: nat, first: nat, imgs: seq<Image>)
    requires Grown(m0, r0, m1, r1, root, first, imgs)
    ensures forall r: nat {:trigger IsRoot(r1, r)} :: IsRoot(r0, r) ==> IsRoot(r1, r)
  {
  }

  // ----- Undoing -----

  /** After growing, a failed attempt to grow further, and unmapping what was placed, the map is as at first. */
  lemma Undone(m0: seq<Page>, r0: seq<Role>, m1: seq<Page>, r1: seq<Role>, m2: seq<Page>, r2: seq<Role>,
               m3: seq<Page>, r3: seq<Role>, root: nat, first: nat, imgs: seq<Image>)
    requires Sound(m0, r0) && IsRoot(r0, root) && first + |imgs| <= VPNS
    requires forall w: nat {:trigger Pte(m0, root, w)} :: first <= w < first + |imgs| ==> Pte(m0, root, w) == 0
    requires Grown(m0, r0, m1, r1, root, first, imgs) && Grew(m1, r1, m2, r2, root) && SameMap(m1, r1, m2)
    requires Unmapped(m2, r2, m3, root, first, |imgs|) && FreedRange(r2, r3, root, first, |imgs|) && SameData(m2, m3, r3)
    ensures SameMap(m0, r0, m3) && Grew(m0, r0, m3, r3, root)
  {
    forall r: nat, w: nat | IsRoot(r0, r) && w < VPNS ensures Pte(m3, r, w) == Pte(m0, r, w) {
      assert r1[r] == r0[r] && r2[r] == r1[r] && IsRoot(r1, r) && IsRoot(r2, r);
      assert Pte(m2, r, w) == Pte(m1, r, w);
    }
    NoneOwned(m0, r0, root, first, |imgs|);
    forall p | 0 <= p < |r0| ensures r3[p] == r0[p] || (r0[p] == Free && InTree(r3, p, root)) {
      assert r1[p] == r0[p] || r0[p] == Free;
      assert r2[p] == r1[p] || r1[p] == Free;
      assert !OwnedIn(r0[p], root, first, |imgs|);
    }
    forall p | 0 <= p < |m0| && (r0[p] == Other || r0[p].Owned?) ensures m3[p] == m0[p] {
      assert !OwnedIn(r0[p], root, first, |imgs|);
      assert r1[p] == r0[p] && m1[p] == m0[p] && r2[p] == r1[p] && m2[p] == m1[p];
    }
  }

  lemma NoneOwned(mem: seq<Page>, role: seq<Role>, root: nat, first: nat, n: nat)
    requires Sound(mem, role)
    requires forall w: nat {:trigger Pte(mem, root, w)} :: first <= w < first + n ==> Pte(mem, root, w) == 0
    ensures forall p {:trigger role[p]} :: 0 <= p < |role| ==> !OwnedIn(role[p], root, first, n)
  {
    forall p | 0 <= p < |role| ensures !OwnedIn(role[p], root, first, n) {
      assert OwnedOk(mem, role, p);
    }
  }

  lemma PlacedIsReady(r0: seq<Role>, m0: seq<Page>, m1: seq<Page>, r1: seq<Role>, m2: seq<Page>, r2: seq<Role>,
                      root: nat, first: nat, imgs: seq<Image>)
    requires Grown(m0, r0, m1, r1, root, first, imgs) && Grew(m1, r1, m2, r2, root) && SameMap(m1, r1, m2)
    requires IsRoot(r1, root) && first + |imgs| <= VPNS
    ensures UnmapReady(m2, r2, root, first, |imgs|, true)
  {
    forall w: nat | first <= w < first + |imgs| ensures IsValid(Pte(m2, root, w)) && OwnsPage(m2, r2, root, w) {
      assert Placed(r0, m1, r1, root, first + (w - first), imgs[w - first]);
      assert Pte(m2, root, w) == Pte(m1, root, w);
    }
  }

  // ----- uvmdealloc and uvmalloc -----

  method Uvmdealloc(k: Kmem, root: nat, oldsz: nat, newsz: nat) returns (sz: nat)
    requires VmOk(k) && IsRoot(k.role, root)
    requires newsz < oldsz ==> PgUp(oldsz) <= MAXVPN
    requires newsz < oldsz ==> UnmapReady(k.mem, k.role, root, PgUp(newsz), PgUp(oldsz) - PgUp(newsz), true)
    modifies k
    ensures VmOk(k) && sz == if newsz < oldsz then newsz else oldsz
    ensures newsz >= oldsz ==> k.mem == old(k.mem) && k.role == old(k.role)
    ensures newsz < oldsz ==>
              && Unmapped(old(k.mem), old(k.role), k.mem, root, PgUp(newsz), PgUp(oldsz) - PgUp(newsz))
              && FreedRange(old(k.role), k.role, root, PgUp(newsz), PgUp(oldsz) - PgUp(newsz))
              && SameData(old(k.mem), k.mem, k.role)
  {
    if newsz >= oldsz { return oldsz; }
    var up, to := PgUp(oldsz) * PGSIZE, PgUp(newsz) * PGSIZE;
    if to < up {
      var npages := (up - to) / PGSIZE;
      assert npages == PgUp(oldsz) - PgUp(newsz) && to / PGSIZE == PgUp(newsz);
      Uvmunmap(k, root, to, npages, true);
    }
    sz := newsz;
  }

  function Zeros(n: nat, perm: nat): (r: seq<Image>)
    ensures |r| == n && forall i :: 0 <= i < n ==> r[i] == Image(Filled(0), perm)
  {
    seq(n, _ => Image(Filled(0), perm))
  }

  /** uvmalloc's way out: uvmdealloc takes back what it placed. */
  method RollBack(k: Kmem, root: nat, a: nat, from: nat,
                  ghost m0: seq<Page>, ghost r0: seq<Role>, ghost m1: seq<Page>, ghost r1: seq<Role>,
                  ghost first: nat, ghost imgs: seq<Image>)
    requires VmOk(k) && IsRoot(r0, root) && Sound(m0, r0)
    requires from == first * PGSIZE && a == (first + |imgs|) * PGSIZE && first + |imgs| <= MAXVPN
    requires forall w: nat {:trigger Pte(m0, root, w)} :: first <= w < first + |imgs| ==> Pte(m0, root, w) == 0
    requires Grown(m0, r0, m1, r1, root, first, imgs) && Grew(m1, r1, k.mem, k.role, root) && SameMap(m1, r1, k.mem)
    modifies k
    ensures VmOk(k) && Grew(m0, r0, k.mem, k.role, root) && SameMap(m0, r0, k.mem)
  {
    ghost var m2, r2 := k.mem, k.role;
    GrownRoots(m0, r0, m1, r1, root, first, imgs);
    GrewRoots(m1, r1, m2, r2, root);
    PlacedIsReady(r0, m0, m1, r1, m2, r2, root, first, imgs);
    RoundedUp(first, |imgs|);
    var _ := Uvmdealloc(k, root, a, from);
    if imgs == [] {
      GrownEmpty(m0, r0, m1, r1, m2, r2, root, first, imgs);
    } else {
      Undone(m0, r0, m1, r1, m2, r2, k.mem, k.role, root, first, imgs);
    }
  }

  /**
  All or nothing: either every page from PGROUNDUP(oldsz) up to newsz is mapped to a zeroed page of its own, or the
  map is the old one and every page taken is back on the free list, but for pages that became tables of the tree. Three
  free pages for each page of the range, one for its data and two for tables, are enough for success.
  */
  method Uvmalloc(k: Kmem, root: nat, oldsz: nat, newsz: nat, xperm: nat) returns (sz: nat)
    requires VmOk(k) && IsRoot(k.role, root) && xperm < 1024
    requires PgUp(newsz) <= MAXVPN                                                 // else panic("walk")
    requires forall w: nat {:trigger Pte(k.mem, root, w)} :: PgUp(oldsz) <= w < PgUp(newsz) ==> Pte(k.mem, root, w) == 0
    modifies k
    ensures VmOk(k) && (newsz < oldsz ==> sz == oldsz) && (newsz >= oldsz ==> sz == newsz || sz == 0)
    ensures newsz < oldsz ==> k.mem == old(k.mem) && k.role == old(k.role)
    ensures newsz >= oldsz && sz == newsz && PgUp(oldsz) <= PgUp(newsz) ==>
              Grown(old(k.mem), old(k.role), k.mem, k.role, root, PgUp(oldsz), Zeros(PgUp(newsz) - PgUp(oldsz), WithRU(xperm)))
    ensures newsz > oldsz && sz == 0 ==> Grew(old(k.mem), old(k.role), k.mem, k.role, root) && SameMap(old(k.mem), old(k.role), k.mem)
    ensures sz == newsz ==> forall w: nat {:trigger Pte(k.mem, root, w)} :: PgUp(oldsz) <= w < PgUp(newsz) ==>
              Permits(Pte(k.mem, root, w), xperm)
    ensures newsz > oldsz && sz == 0 ==> |old(k.list)| < 3 * (PgUp(newsz) - PgUp(oldsz))
    ensures newsz > oldsz && sz != 0 ==> Spent(old(k.list), k.list, 3 * (PgUp(newsz) - PgUp(oldsz)))
  {
    if newsz < oldsz { return oldsz; }
    ghost var m0, r0, l0, first, n := k.mem, k.role, k.list, PgUp(oldsz), 0;
    var perm := WithRU(xperm);
    RUBits(xperm);
    var from := PgUp(oldsz) * PGSIZE;
    var a := from;
    GrownNothing(m0, r0, root, first, perm);
    while a < newsz
      invariant VmOk(k) && a == (first + n) * PGSIZE && first + n <= PgUp(newsz)
      invariant Grown(m0, r0, k.mem, k.role, root, first, Zeros(n, perm)) && Spent(l0, k.list, 3 * n)
    {
      ghost var m1, r1 := k.mem, k.role;
      var ok := GrowNext(k, root, a, Filled(0), perm, m0, r0, first, Zeros(n, perm));
      if !ok {
        RollBack(k, root, a, from, m0, r0, m1, r1, first, Zeros(n, perm));
        return 0;
      }
      assert Zeros(n, perm) + [Image(Filled(0), perm)] == Zeros(n + 1, perm);
      a := a + PGSIZE;
      n := n + 1;
    }
    AllPermit(m0, r0, k.mem, k.role, root, first, n, xperm);
    sz := newsz;
  }

  lemma AllPermit(m0: seq<Page>, r0: seq<Role>, m1: seq<Page>, r1: seq<Role>, root: nat, first: nat, n: nat, x: nat)
    requires Grown(m0, r0, m1, r1, root, first, Zeros(n, WithRU(x))) && x < 1024
    ensures forall w: nat {:trigger Pte(m1, root, w)} :: first <= w < first + n ==> Permits(Pte(m1, root, w), x)
  {
    forall w: nat | first <= w < first + n ensures Permits(Pte(m1, root, w), x) {
      assert Placed(r0, m1, r1, root, first + (w - first), Zeros(n, WithRU(x))[w - first]);
      AskedFor(Pte(m1, root, w), x);
    }
  }

  lemma RoundedUp(first: nat, n: nat)
    ensures PgUp((first + n) * PGSIZE) == first + n && PgUp(first * PGSIZE) == first
  {
  }

  lemma GrownNothing(m0: seq<Page>, r0: seq<Role>, root: nat, first: nat, perm: nat)
    requires |m0| == |r0|
    ensures Grown(m0, r0, m0, r0, root, first, Zeros(0, perm))
  {
  }

  lemma GrownEmpty(m0: seq<Page>, r0: seq<Role>, m1: seq<Page>, r1: seq<Role>, m2: seq<Page>, r2: seq<Role>,
                   root: nat, first: nat, imgs: seq<Image>)
    requires Grown(m0, r0, m1, r1, root, first, imgs) && imgs == [] && Grew(m1, r1, m2, r2, root) && SameMap(m1, r1, m2)
    ensures Grew(m0, r0, m2, r2, root) && SameMap(m0, r0, m2)
  {
    forall p | 0 <= p < |r0| ensures r1[p] == r0[p] || (r0[p] == Free && InTree(r1, p, root)) {
      assert !OwnedIn(r1[p], root, first, 0);
    }
    GrewOn(m0, r0, m1, r1, m2, r2, root);
    forall r: nat, w: nat | IsRoot(r0, r) && w < VPNS ensures Pte(m2, r, w) == Pte(m0, r, w) {
      assert IsRoot(r1, r);
      assert Pte(m1, r, w) == Pte(m0, r, w);
    }
  }

  // ----- uvmcopy -----

  /** The pages below `n` of the space at `old`, with their permissions. */
  ghost function Images(mem: seq<Page>, src: nat, n: nat): (r: seq<Image>)
    ensures |r| == n
    ensures forall i :: 0 <= i < n ==> r[i] == Image(PageAt(mem, src, i), Flags(Pte(mem, src, i)))
  {
    seq(n, i requires 0 <= i < n => Image(PageAt(mem, src, i), Flags(Pte(mem, src, i))))
  }

  ghost function PageAt(mem: seq<Page>, src: nat, v: nat): Page {
    if Ppn(Pte(mem, src, v)) < |mem| then mem[Ppn(Pte(mem, src, v))] else []
  }

  /** A page that can be copied: mapped to memory that holds data. */
  ghost predicate Readable(mem: seq<Page>, role: seq<Role>, src: nat, v: nat) {
    var e := Pte(mem, src, v);
    IsValid(e) && Ppn(e) < |mem| && |mem| == |role| && (role[Ppn(e)] == Other || role[Ppn(e)].Owned?)
  }

  /** uvmcopy's source is untouched by what it has copied so far. */
  lemma StillReadable(m0: seq<Page>, r0: seq<Role>, m1: seq<Page>, r1: seq<Role>, src: nat, dst: nat, imgs: seq<Image>, v: nat)
    requires Grown(m0, r0, m1, r1, dst, 0, imgs) && IsRoot(r0, src) && src != dst && v < VPNS && Readable(m0, r0, src, v)
    ensures IsRoot(r1, src) && Readable(m1, r1, src, v)
    ensures Pte(m1, src, v) == Pte(m0, src, v) && PageAt(m1, src, v) == PageAt(m0, src, v)
  {
  }

  lemma LeafOfTree(mem: seq<Page>, role: seq<Role>, root: nat, v: nat)
    requires Sound(mem, role) && IsRoot(role, root) && v < VPNS && IsValid(Pte(mem, root, v))
    ensures IsLeaf(Pte(mem, root, v)) && IsLeaf(Flags(Pte(mem, root, v)))
    ensures LowPage(mem, root, v) != -1
  {
    Path(mem, role, root, v);
    assert DownOk(mem, role, LowPage(mem, root, v));
    FlagBits(Pte(mem, root, v));
  }

  lemma FlagBits(e: nat)
    ensures IsLeaf(Flags(e)) <==> IsLeaf(e)
  {
    Split(e / 1024, e % 1024);
  }

  lemma Split(h: nat, f: nat)
    requires f < 1024
    ensures (h * 1024 + f) / 1024 == h && (h * 1024 + f) % 1024 == f && (h * 1024 + f) / 2 % 8 == f / 2 % 8
    ensures (h * 1024 + f) % 2 == f % 2
  {
    Half(512 * h, f);
    Low8(64 * h, f / 2);
  }

  lemma Half(x: nat, y: nat)
    ensures (2 * x + y) / 2 == x + y / 2
  {
  }

  lemma Low8(x: nat, y: nat)
    ensures (8 * x + y) % 8 == y % 8
  {
    assert 8 * x + y == 8 * (x + y / 8) + y % 8;
  }

  /**
  Success: every page below sz has a copy of its own in the child, same contents and permissions, and the parent is
  as it was. Failure: both maps are as they were and every page taken is free again, but for table pages. It does not
  fail when there are three free pages for each page to copy.
  */
  method Uvmcopy(k: Kmem, src: nat, dst: nat, sz: nat) returns (r: int)
    requires VmOk(k) && IsRoot(k.role, src) && IsRoot(k.role, dst) && src != dst && PgUp(sz) <= MAXVPN
    requires forall v: nat {:trigger Readable(k.mem, k.role, src, v)} :: v < PgUp(sz) ==> Readable(k.mem, k.role, src, v)
    requires forall w: nat {:trigger Pte(k.mem, dst, w)} :: w < PgUp(sz) ==> Pte(k.mem, dst, w) == 0
    modifies k
    ensures VmOk(k) && (r == 0 || r == -1)
    ensures r == 0 ==>
              Grown(old(k.mem), old(k.role), k.mem, k.role, dst, 0, Images(old(k.mem), src, PgUp(sz)))
    ensures r == -1 ==> Grew(old(k.mem), old(k.role), k.mem, k.role, dst) && SameMap(old(k.mem), old(k.role), k.mem)
    ensures r == -1 ==> |old(k.list)| < 3 * PgUp(sz)
  {
    ghost var m0, r0, l0, n := k.mem, k.role, k.list, 0;
    var i := 0;
    assert Grown(m0, r0, m0, r0, dst, 0, Images(m0, src, 0));
    while i < sz
      invariant VmOk(k) && i == n * PGSIZE && n <= PgUp(sz) && IsRoot(k.role, src) && IsRoot(k.role, dst)
      invariant Grown(m0, r0, k.mem, k.role, dst, 0, Images(m0, src, n)) && Spent(l0, k.list, 3 * n)
    {
      ghost var m1, r1 := k.mem, k.role;
      assert i / PGSIZE == n < PgUp(sz);
      var ok := CopyOne(k, src, dst, i, m0, r0, n);
      if !ok {
        CopyBack(k, dst, i, m0, r0, m1, r1, Images(m0, src, n));
        return -1;
      }
      assert Images(m0, src, n) + [Image(PageAt(m0, src, n), Flags(Pte(m0, src, n)))] == Images(m0, src, n + 1);
      i := i + PGSIZE;
      n := n + 1;
    }
    r := 0;
  }

  /** uvmcopy's way out. */
  method CopyBack(k: Kmem, dst: nat, i: nat,
                  ghost m0: seq<Page>, ghost r0: seq<Role>, ghost m1: seq<Page>, ghost r1: seq<Role>, ghost imgs: seq<Image>)
    requires VmOk(k) && IsRoot(k.role, dst) && Sound(m0, r0) && IsRoot(r0, dst)
    requires i == |imgs| * PGSIZE && |imgs| <= MAXVPN
    requires forall w: nat {:trigger Pte(m0, dst, w)} :: w < |imgs| ==> Pte(m0, dst, w) == 0
    requires Grown(m0, r0, m1, r1, dst, 0, imgs) && Grew(m1, r1, k.mem, k.role, dst) && SameMap(m1, r1, k.mem)
    modifies k
    ensures VmOk(k) && Grew(m0, r0, k.mem, k.role, dst) && SameMap(m0, r0, k.mem)
  {
    ghost var m2, r2 := k.mem, k.role;
    GrewRoots(m1, r1, m2, r2, dst);
    PlacedIsReady(r0, m0, m1, r1, m2, r2, dst, 0, imgs);
    assert i / PGSIZE == |imgs|;
    Uvmunmap(k, dst, 0, i / PGSIZE, true);
    Undone(m0, r0, m1, r1, m2, r2, k.mem, k.role, dst, 0, imgs);
  }

  /** The walk(), PTE2PA and PTE_FLAGS of uvmcopy's loop, and the page that memmove will read. */
  method Source(k: Kmem, src: nat, i: nat) returns (page: Page, flags: nat)
    requires VmOk(k) && IsRoot(k.role, src) && i / PGSIZE < MAXVPN && Readable(k.mem, k.role, src, i / PGSIZE)
    modifies k
    ensures VmOk(k) && k.mem == old(k.mem) && k.role == old(k.role) && |k.list| == |old(k.list)|
    ensures page == PageAt(k.mem, src, i / PGSIZE) && flags == Flags(Pte(k.mem, src, i / PGSIZE))
    ensures |page| == WORDS && IsLeaf(flags) && flags < 1024
  {
    LeafOfTree(k.mem, k.role, src, i / PGSIZE);
    var found, pt, x := Walk(k, src, i, false);
    var pte := k.mem[pt][x];
    page, flags := k.mem[Ppn(pte)], Flags(pte);
  }

  /** One turn of uvmcopy's loop. */
  method CopyOne(k: Kmem, src: nat, dst: nat, i: nat, ghost m0: seq<Page>, ghost r0: seq<Role>, ghost v: nat)
    returns (ok: bool)
    requires VmOk(k) && IsRoot(r0, src) && IsRoot(r0, dst) && src != dst && i == v * PGSIZE && v < MAXVPN
    requires Grown(m0, r0, k.mem, k.role, dst, 0, Images(m0, src, v))
    requires Readable(m0, r0, src, v) && Pte(m0, dst, v) == 0
    modifies k
    ensures VmOk(k) && forall r: nat {:trigger IsRoot(k.role, r)} :: IsRoot(r0, r) ==> IsRoot(k.role, r)
    ensures ok ==> Grown(m0, r0, k.mem, k.role, dst, 0,
                         Images(m0, src, v) + [Image(PageAt(m0, src, v), Flags(Pte(m0, src, v)))])
    ensures !ok ==> Grew(old(k.mem), old(k.role), k.mem, k.role, dst) && SameMap(old(k.mem), old(k.role), k.mem)
    ensures if ok then Spent(old(k.list), k.list, 3) else |old(k.list)| < 3
  {
    ghost var m1, r1 := k.mem, k.role;
    StillReadable(m0, r0, m1, r1, src, dst, Images(m0, src, v), v);
    assert i / PGSIZE == v;
    var page, flags := Source(k, src, i);
    ok := GrowNext(k, dst, i, page, flags, m0, r0, 0, Images(m0, src, v));
  }

  // ----- freewalk -----

  /** Table page p lies in the subtree of pt. */
  predicate Under(role: seq<Role>, p: nat, pt: nat)
    requires p < |role|
  {
    || p == pt
    || ((role[p].Mid? || role[p].Low?) && role[p].parent == pt)
    || (role[p].Low? && role[p].parent < |role| && role[role[p].parent].Mid? && role[role[p].parent].parent == pt)
  }

  /** The slot of pt through which p, below pt, is reached. */
  function Branch(role: seq<Role>, p: nat, pt: nat): nat
    requires p < |role| && p != pt && Under(role, p, pt)
  {
    if role[p].parent == pt then role[p].slot else role[role[p].parent].slot
  }

  /** No leaf is left below pt. */
  ghost predicate Bare(mem: seq<Page>, role: seq<Role>, pt: nat)
    requires |mem| == |role|
  {
    forall p: nat {:trigger mem[p]} :: p < |mem| && Under(role, p, pt) && role[p].Low? ==> Zeroed(mem[p])
  }

  function Height(r: Role): nat { if r.Root? then 2 else if r.Mid? then 1 else 0 }

  /** A subtree that may be taken down: only tables in `x` refer to it, and those are being taken down themselves. */
  ghost predicate Doomed(mem: seq<Page>, role: seq<Role>, x: set<nat>, pt: nat) {
    && Trees(mem, role, x) && pt < |mem| && IsTable(role[pt]) && pt !in x && Bare(mem, role, pt)
    && (!role[pt].Root? ==> role[pt].parent in x)
    && forall y :: y in x ==> y < |mem| && IsTable(role[y]) && Height(role[y]) > Height(role[pt])
  }

  /** Roles with the branches of pt below slot i freed. */
  ghost predicate Felled(r0: seq<Role>, r1: seq<Role>, pt: nat, i: nat) {
    |r0| == |r1| && forall p: nat {:trigger r1[p]} :: p < |r0| ==>
      r1[p] == if p != pt && Under(r0, p, pt) && Branch(r0, p, pt) < i then Free else r0[p]
  }

  /** freewalk's loop at slot i: lower slots are cleared and their subtrees free, the others as they were. */
  ghost predicate Felling(m0: seq<Page>, r0: seq<Role>, m1: seq<Page>, r1: seq<Role>, x: set<nat>, pt: nat, i: nat) {
    && Trees(m1, r1, x + {pt}) && |m1| == |m0| == |r0| && Sized(m0) && pt < |m0| && Felled(r0, r1, pt, i)
    && (forall j :: 0 <= j < WORDS ==> m1[pt][j] == if j < i then 0 else m0[pt][j])
    && (forall p: nat {:trigger m1[p]} :: p < |m0| && p != pt && r1[p] == r0[p] ==> m1[p] == m0[p])
  }

  lemma ChildIs(m0: seq<Page>, r0: seq<Role>, x: set<nat>, pt: nat, i: nat, c: nat)
    requires Doomed(m0, r0, x, pt) && i < WORDS && m0[pt][i] == Pointer(c) && !r0[pt].Low?
    ensures c < |r0| && r0[c] == ChildRole(r0, pt, i) && c != pt && c !in x
  {
    PointerBits(c);
    assert DownOk(m0, r0, pt);
  }

  lemma ChildBranch(m0: seq<Page>, r0: seq<Role>, x: set<nat>, pt: nat, i: nat, c: nat, p: nat)
    requires Doomed(m0, r0, x, pt) && i < WORDS && m0[pt][i] == Pointer(c) && !r0[pt].Low? && p < |r0|
    ensures c < |r0|
    ensures Under(r0, p, c) <==> p != pt && Under(r0, p, pt) && Branch(r0, p, pt) == i
  {
    ChildIs(m0, r0, x, pt, i, c);
    assert UpOk(m0, r0, p);
    if r0[p].Low? && r0[p].parent < |r0| { assert UpOk(m0, r0, r0[p].parent); }
    forall q: nat | Pointer(q) == Pointer(c) ensures q == c { PointerBits(q); PointerBits(c); }
  }

  lemma ChildDoomed(m0: seq<Page>, r0: seq<Role>, m1: seq<Page>, r1: seq<Role>, x: set<nat>, pt: nat, i: nat, c: nat)
    requires Doomed(m0, r0, x, pt) && Felling(m0, r0, m1, r1, x, pt, i) && i < WORDS
    requires m0[pt][i] == Pointer(c) && !r0[pt].Low?
    ensures Doomed(m1, r1, x + {pt}, c) && Height(r1[c]) < Height(r0[pt])
    ensures forall p: nat {:trigger Under(r1, p, c)} :: p < |r1| ==>
              (Under(r1, p, c) <==> p != pt && Under(r0, p, pt) && Branch(r0, p, pt) == i)
  {
    ChildIs(m0, r0, x, pt, i, c);
    ChildBranch(m0, r0, x, pt, i, c, c);
    forall p: nat | p < |r1| ensures Under(r1, p, c) <==> p != pt && Under(r0, p, pt) && Branch(r0, p, pt) == i {
      ChildBranch(m0, r0, x, pt, i, c, p);
      assert UpOk(m0, r0, p);
      if r0[p].Low? && r0[p].parent < |r0| { assert UpOk(m0, r0, r0[p].parent); }
    }
  }

  /** What freewalk promises: the whole subtree is free, nothing else was touched. */
  ghost predicate TakenDown(m0: seq<Page>, r0: seq<Role>, m1: seq<Page>, r1: seq<Role>, pt: nat) {
    && |m0| == |m1| == |r0| == |r1|
    && (forall p: nat {:trigger r1[p]} :: p < |r0| ==> r1[p] == if Under(r0, p, pt) then Free else r0[p])
    && (forall p: nat {:trigger m1[p]} :: p < |m0| && !Under(r0, p, pt) ==> m1[p] == m0[p])
  }

  lemma BranchFelled(m0: seq<Page>, r0: seq<Role>, m1: seq<Page>, r1: seq<Role>, m2: seq<Page>, r2: seq<Role>,
                     x: set<nat>, pt: nat, i: nat, c: nat)
    requires Doomed(m0, r0, x, pt) && Felling(m0, r0, m1, r1, x, pt, i) && i < WORDS
    requires m0[pt][i] == Pointer(c) && !r0[pt].Low? && c < |r1|
    requires forall p: nat {:trigger Under(r1, p, c)} :: p < |r1| ==>
              (Under(r1, p, c) <==> p != pt && Under(r0, p, pt) && Branch(r0, p, pt) == i)
    requires TakenDown(m1, r1, m2, r2, c) && Trees(m2, r2, x + {pt})
    ensures |m2[pt]| == WORDS && r2[pt] == r0[pt] && Felling(m0, r0, SetWord(m2, pt, i, 0), r2, x, pt, i + 1)
  {
    var m3 := SetWord(m2, pt, i, 0);
    assert r1[pt] == r0[pt] && m2[pt] == m1[pt];
    forall q: nat | q < |m3| && q !in x + {pt} ensures DownOk(m3, r2, q) { assert DownOk(m2, r2, q); }
    forall q: nat | q < |m3| ensures UpOk(m3, r2, q) {
      assert UpOk(m2, r2, q);
      PointerBits(q);
    }
    assert Felled(r0, r2, pt, i + 1);
  }

  lemma SlotEmpty(m0: seq<Page>, r0: seq<Role>, m1: seq<Page>, r1: seq<Role>, x: set<nat>, pt: nat, i: nat)
    requires Doomed(m0, r0, x, pt) && Felling(m0, r0, m1, r1, x, pt, i) && i < WORDS && m0[pt][i] == 0
    ensures Felling(m0, r0, m1, r1, x, pt, i + 1)
  {
    forall p: nat | p < |r0| && p != pt && Under(r0, p, pt) ensures Branch(r0, p, pt) != i {
      assert UpOk(m0, r0, p);
      if r0[p].Low? && r0[p].parent < |r0| { assert UpOk(m0, r0, r0[p].parent); }
      PointerBits(p);
      if r0[p].parent != pt { PointerBits(r0[p].parent); }
    }
  }

  /** An entry of a doomed table is zero or a pointer to the next level. */
  lemma NoLeafBelow(mem: seq<Page>, role: seq<Role>, x: set<nat>, pt: nat, i: nat)
    requires Doomed(mem, role, x, pt) && i < WORDS
    ensures mem[pt][i] == 0 || (!role[pt].Low? && mem[pt][i] == Pointer(Ppn(mem[pt][i])))
    ensures mem[pt][i] != 0 ==> IsValid(mem[pt][i]) && !IsLeaf(mem[pt][i])
  {
    assert DownOk(mem, role, pt);
    if mem[pt][i] != 0 {
      assert role[pt].Low? ==> Zeroed(mem[pt]);
      PointerBits(Ppn(mem[pt][i]));
    }
  }

  /** Once its slots are cleared the table itself can go. */
  lemma TableGone(m0: seq<Page>, r0: seq<Role>, m1: seq<Page>, r1: seq<Role>, x: set<nat>, pt: nat, page: Page)
    requires Doomed(m0, r0, x, pt) && Felling(m0, r0, m1, r1, x, pt, WORDS) && |page| == WORDS
    ensures Trees(m1[pt := page], r1[pt := Free], x) && TakenDown(m0, r0, m1[pt := page], r1[pt := Free], pt)
  {
    var m2, r2 := m1[pt := page], r1[pt := Free];
    assert r1[pt] == r0[pt];
    forall p: nat | p < |m2| && p !in x ensures DownOk(m2, r2, p) {
      if p != pt {
        assert DownOk(m1, r1, p);
      }
    }
    forall p: nat | p < |m2| ensures UpOk(m2, r2, p) {
      assert UpOk(m1, r1, p);
      PointerBits(p);
    }
    forall p: nat | p < |r0| ensures r2[p] == if Under(r0, p, pt) then Free else r0[p] {
      if p != pt && Under(r0, p, pt) { BranchInTable(m0, r0, x, pt, p); }
    }
  }

  lemma BranchInTable(m0: seq<Page>, r0: seq<Role>, x: set<nat>, pt: nat, p: nat)
    requires Doomed(m0, r0, x, pt) && p < |r0| && p != pt && Under(r0, p, pt)
    ensures Branch(r0, p, pt) < WORDS
  {
    assert UpOk(m0, r0, p);
    if r0[p].parent != pt { assert UpOk(m0, r0, r0[p].parent); }
  }

  method FreeTable(k: Kmem, pt: nat, ghost m0: seq<Page>, ghost r0: seq<Role>, ghost x: set<nat>)
    requires k.Valid() && Managed(k.role, k.lo)
    requires Doomed(m0, r0, x, pt) && Felling(m0, r0, k.mem, k.role, x, pt, WORDS)
    modifies k
    ensures k.Valid() && Managed(k.role, k.lo) && Trees(k.mem, k.role, x) && TakenDown(m0, r0, k.mem, k.role, pt)
  {
    ghost var m1, r1 := k.mem, k.role;
    assert r1[pt] == r0[pt];
    RoleTaken(k.role, k.list, k.lo, pt, Other);
    k.role := k.role[pt := Other];
    assert pt * PGSIZE / PGSIZE == pt;
    k.Kfree(pt * PGSIZE);
    assert k.role == r1[pt := Free];
    assert k.mem == m1[pt := k.mem[pt]];
    TableGone(m0, r0, m1, r1, x, pt, k.mem[pt]);
  }

  /** Frees every table page of the subtree at pt, each once, and no other page; its panic cannot happen. */
  method Freewalk(k: Kmem, pt: nat, ghost x: set<nat>)
    requires k.Valid() && Managed(k.role, k.lo) && Doomed(k.mem, k.role, x, pt)
    modifies k
    ensures k.Valid() && Managed(k.role, k.lo) && Trees(k.mem, k.role, x)
    ensures TakenDown(old(k.mem), old(k.role), k.mem, k.role, pt)
    decreases Height(k.role[pt])
  {
    ghost var m0, r0 := k.mem, k.role;
    for i := 0 to WORDS
      invariant k.Valid() && Managed(k.role, k.lo) && Felling(m0, r0, k.mem, k.role, x, pt, i)
    {
      var pte := k.mem[pt][i];
      NoLeafBelow(m0, r0, x, pt, i);
      if IsValid(pte) && !IsLeaf(pte) {
        var child := Ppn(pte);
        ghost var m1, r1 := k.mem, k.role;
        ChildDoomed(m0, r0, m1, r1, x, pt, i, child);
        Freewalk(k, child, x + {pt});
        BranchFelled(m0, r0, m1, r1, k.mem, k.role, x, pt, i, child);
        ClearSlot(k, pt, i);
      } else {
        assert !IsValid(pte);                   // else panic("freewalk: leaf")
        SlotEmpty(m0, r0, k.mem, k.role, x, pt, i);
      }
    }
    FreeTable(k, pt, m0, r0, x);
  }

  /** pagetable[i] = 0 */
  method ClearSlot(k: Kmem, pt: nat, i: nat)
    requires k.Valid() && pt < |k.mem| && i < WORDS && |k.mem[pt]| == WORDS && k.role[pt] != Free
    modifies k
    ensures k.Valid() && k.role == old(k.role) && k.mem == SetWord(old(k.mem), pt, i, 0)
  {
    NotListed(k, pt);
    ghost var m1 := SetWord(k.mem, pt, i, 0);
    ChainKept(k.mem, k.freelist, k.list, pt, m1[pt]);
    assert m1 == k.mem[pt := m1[pt]];
    k.mem := SetWord(k.mem, pt, i, 0);
  }

  // ----- uvmcreate and uvmfree -----

  lemma NewRoot(mem: seq<Page>, role: seq<Role>, q: nat)
    requires Sound(mem, role) && q < |role| && role[q] == Other && Zeroed(mem[q])
    ensures Sound(mem, role[q := Root]) && forall v: nat {:trigger Pte(mem, q, v)} :: v < VPNS ==> Pte(mem, q, v) == 0
  {
    var role' := role[q := Root];
    forall p: nat | p < |mem| ensures DownOk(mem, role', p) { assert DownOk(mem, role, p); }
    forall p: nat | p < |mem| ensures UpOk(mem, role', p) { assert UpOk(mem, role, p); }
    forall p: nat | p < |role| ensures OwnedOk(mem, role', p) { assert OwnedOk(mem, role, p); }
    forall v: nat | v < VPNS ensures Pte(mem, q, v) == 0 {
      assert mem[q][PX(2, v)] == 0;
    }
  }

  /** An address space that maps nothing; 0 when memory has run out. */
  method Uvmcreate(k: Kmem) returns (root: nat)
    requires VmOk(k)
    modifies k
    ensures VmOk(k) && (root == 0 <==> old(k.list) == []) && SameMap(old(k.mem), old(k.role), k.mem)
    ensures Spent(old(k.list), k.list, 1)
    ensures root == 0 ==> k.mem == old(k.mem) && k.role == old(k.role)
    ensures root != 0 ==> root < |old(k.role)| && old(k.role)[root] == Free && k.role == old(k.role)[root := Root]
    ensures root != 0 ==> forall v: nat {:trigger Pte(k.mem, root, v)} :: v < VPNS ==> Pte(k.mem, root, v) == 0
  {
    var pa := AllocWith(k, Filled(0));
    if pa == 0 { return 0; }
    root := pa / PGSIZE;
    NewRoot(k.mem, k.role, root);
    RoleTaken(k.role, k.list, k.lo, root, Root);
    k.role := k.role[root := Root];
  }

  ghost predicate MapsNothing(mem: seq<Page>, root: nat) {
    forall v: nat {:trigger Pte(mem, root, v)} :: v < VPNS ==> Pte(mem, root, v) == 0
  }

  /** With no page number mapped there is no leaf in any table of the tree: freewalk may run. */
  lemma NothingMappedIsBare(mem: seq<Page>, role: seq<Role>, root: nat)
    requires Sound(mem, role) && IsRoot(role, root) && MapsNothing(mem, root)
    ensures Doomed(mem, role, {}, root)
  {
    forall p: nat | p < |mem| && Under(role, p, root) && role[p].Low? ensures Zeroed(mem[p]) {
      assert UpOk(mem, role, p);
      var m := role[p].parent;
      assert UpOk(mem, role, m);
      PointerBits(p);
      PointerBits(m);
      forall i | 0 <= i < WORDS ensures mem[p][i] == 0 {
        var v := role[m].slot * 0x4_0000 + role[p].slot * 0x200 + i;
        Composed(role[m].slot, role[p].slot, i);
        assert LowPage(mem, root, v) == p;
        assert Pte(mem, root, v) == 0;
      }
    }
  }

  lemma Composed(i2: nat, i1: nat, i0: nat)
    requires i2 < WORDS && i1 < WORDS && i0 < WORDS
    ensures var v := i2 * 0x4_0000 + i1 * 0x200 + i0;
      v < VPNS && PX(2, v) == i2 && PX(1, v) == i1 && PX(0, v) == i0
  {
  }

  lemma OthersStay(m0: seq<Page>, r0: seq<Role>, m1: seq<Page>, r1: seq<Role>, root: nat)
    requires Sound(m0, r0) && IsRoot(r0, root) && MapsNothing(m0, root)
    requires TakenDown(m0, r0, m1, r1, root) && Trees(m1, r1, {})
    ensures Sound(m1, r1)
    ensures forall r: nat, v: nat {:trigger Pte(m1, r, v)} :: IsRoot(r0, r) && r != root && v < VPNS ==> Pte(m1, r, v) == Pte(m0, r, v)
  {
    forall r: nat, v: nat | IsRoot(r0, r) && r != root && v < VPNS ensures Pte(m1, r, v) == Pte(m0, r, v) {
      forall p: nat | p < |m0| && (p == r || r0[p] == Mid(r, PX(2, v)) || LowOf(r0, p, r, v)) ensures m1[p] == m0[p] {
        assert UpOk(m0, r0, p);
        assert !Under(r0, p, root);
      }
      PteFrame(m0, m1, r0, r, v);
    }
    forall p: nat | p < |r1| ensures OwnedOk(m1, r1, p) {
      assert OwnedOk(m0, r0, p);
    }
  }

  /** The whole address space goes: its own pages and its table pages are freed, no other map or page changes. */
  method Uvmfree(k: Kmem, root: nat, sz: nat)
    requires VmOk(k) && IsRoot(k.role, root) && PgUp(sz) <= MAXVPN
    requires UnmapReady(k.mem, k.role, root, 0, PgUp(sz), true)
    requires forall v: nat {:trigger Pte(k.mem, root, v)} :: PgUp(sz) <= v < VPNS ==> Pte(k.mem, root, v) == 0
    modifies k
    ensures VmOk(k) && |k.role| == old(|k.role|)
    ensures forall p: nat {:trigger k.role[p]} :: p < |k.role| ==>
              k.role[p] == if Under(old(k.role), p, root) || OwnedIn(old(k.role)[p], root, 0, PgUp(sz)) then Free else old(k.role)[p]
    ensures forall r: nat, v: nat {:trigger Pte(k.mem, r, v)} :: IsRoot(old(k.role), r) && r != root && v < VPNS ==>
              Pte(k.mem, r, v) == Pte(old(k.mem), r, v)
  {
    ghost var m0, r0 := k.mem, k.role;
    if sz > 0 {
      assert PgUp(sz) * PGSIZE / PGSIZE == PgUp(sz);
      Uvmunmap(k, root, 0, PgUp(sz) * PGSIZE / PGSIZE, true);
    }
    ghost var m1, r1 := k.mem, k.role;
    assert MapsNothing(m1, root);
    NothingMappedIsBare(m1, r1, root);
    Freewalk(k, root, {});
    OthersStay(m1, r1, k.mem, k.role, root);
    assert forall p: nat :: p < |r0| ==> (Under(r1, p, root) <==> Under(r0, p, root));
  }

  // ----- What it comes to -----

  /** Every page is on the free list exactly once if it is free, and not at all if it is in use. */
  lemma {:induction false} EachPageOnce(role: seq<Role>, list: seq<nat>, lo: nat, p: nat)
    requires FreeOk(role, list, lo) && p < |role|
    ensures multiset(list)[p] == if role[p] == Free then 1 else 0
  {
    if role[p] == Free {
      var j :| 0 <= j < |list| && list[j] == p;
      assert list == list[..j] + [p] + list[j + 1..];
      assert p !in list[..j] && p !in list[j + 1..];
    } else {
      assert p !in list;
    }
  }

  /** uvmalloc and then uvmdealloc over the same range gives back the map, and the pages. */
  lemma AllocDeallocRestores(m0: seq<Page>, r0: seq<Role>, m1: seq<Page>, r1: seq<Role>, m2: seq<Page>, r2: seq<Role>,
                             root: nat, oldsz: nat, newsz: nat, xperm: nat)
    requires Sound(m0, r0) && IsRoot(r0, root) && PgUp(oldsz) <= PgUp(newsz) <= MAXVPN
    requires forall w: nat {:trigger Pte(m0, root, w)} :: PgUp(oldsz) <= w < PgUp(newsz) ==> Pte(m0, root, w) == 0
    requires Grown(m0, r0, m1, r1, root, PgUp(oldsz), Zeros(PgUp(newsz) - PgUp(oldsz), WithRU(xperm)))
    requires Unmapped(m1, r1, m2, root, PgUp(oldsz), PgUp(newsz) - PgUp(oldsz)) && SameData(m1, m2, r2)
    requires FreedRange(r1, r2, root, PgUp(oldsz), PgUp(newsz) - PgUp(oldsz))
    ensures SameMap(m0, r0, m2) && Grew(m0, r0, m2, r2, root)
  {
    Undone(m0, r0, m1, r1, m1, r1, m2, r2, root, PgUp(oldsz), Zeros(PgUp(newsz) - PgUp(oldsz), WithRU(xperm)));
  }

  /** After a successful uvmcopy parent and child read the same at every address, from different pages. */
  lemma CopyIsPrivate(m0: seq<Page>, r0: seq<Role>, m1: seq<Page>, r1: seq<Role>, src: nat, dst: nat, sz: nat, v: nat)
    requires Grown(m0, r0, m1, r1, dst, 0, Images(m0, src, PgUp(sz))) && IsRoot(r0, src) && src != dst
    requires v < PgUp(sz) <= MAXVPN && Readable(m0, r0, src, v)
    ensures Pte(m1, src, v) == Pte(m0, src, v) && PageAt(m1, src, v) == PageAt(m0, src, v)
    ensures PageAt(m1, dst, v) == PageAt(m1, src, v) && Ppn(Pte(m1, dst, v)) != Ppn(Pte(m1, src, v))
    ensures Flags(Pte(m1, dst, v)) == Flags(Pte(m1, src, v)) && r1[Ppn(Pte(m1, dst, v))] == Owned(dst, v)
  {
    StillReadable(m0, r0, m1, r1, src, dst, Images(m0, src, PgUp(sz)), v);
    assert Placed(r0, m1, r1, dst, 0 + v, Images(m0, src, PgUp(sz))[v]);
  }

  datatype Mapping = Mapping(ppn: nat, flags: nat)

  /** The map a tree refines: physical page and flags of every mapped page number. */
  ghost function Table(mem: seq<Page>, root: nat): map<nat, Mapping> {
    map v: nat | v < VPNS && IsValid(Pte(mem, root, v)) :: Mapping(Ppn(Pte(mem, root, v)), Flags(Pte(mem, root, v)))
  }

  predicate InRange(v: nat, first: nat, n: nat) { first <= v < first + n }

  ghost function Range(first: nat, n: nat, pa: nat, perm: nat): map<nat, Mapping> {
    map v: nat | v < first + n && InRange(v, first, n) :: Mapping(pa / PGSIZE + (v - first), WithV(perm))
  }

  lemma LeafAt(pa: nat, i: nat, perm: nat)
    requires IsLeaf(perm) && perm < 1024
    ensures var e := Leaf(pa + i * PGSIZE, perm); IsValid(e) && Ppn(e) == pa / PGSIZE + i && Flags(e) == WithV(perm)
  {
    LeafBits(pa + i * PGSIZE, perm);
    assert (pa + i * PGSIZE) / PGSIZE == pa / PGSIZE + i;
  }

  /** mappages adds exactly its range to the map. */
  lemma MappagesOnTable(m0: seq<Page>, r0: seq<Role>, m1: seq<Page>, root: nat, first: nat, n: nat, pa: nat, perm: nat)
    requires Mapped(m0, r0, m1, root, first, n, pa, perm) && IsRoot(r0, root) && first + n <= VPNS
    requires IsLeaf(perm) && perm < 1024
    ensures Table(m1, root) == Table(m0, root) + Range(first, n, pa, perm)
  {
    var t0, t1, add := Table(m0, root), Table(m1, root), Range(first, n, pa, perm);
    forall v: nat ensures (v in t1 <==> v in t0 || v in add) && (v in t1 ==> t1[v] == if v in add then add[v] else t0[v]) {
      if InRange(v, first, n) {
        EntryInRange(m0, r0, m1, root, first, n, pa, perm, v);
      } else if v < VPNS {
        assert Pte(m1, root, v) == Pte(m0, root, v);
      }
    }
    assert t1.Keys == t0.Keys + add.Keys;
  }

  lemma EntryInRange(m0: seq<Page>, r0: seq<Role>, m1: seq<Page>, root: nat, first: nat, n: nat, pa: nat, perm: nat, v: nat)
    requires Mapped(m0, r0, m1, root, first, n, pa, perm) && IsRoot(r0, root) && first + n <= VPNS
    requires IsLeaf(perm) && perm < 1024 && InRange(v, first, n)
    ensures v in Table(m1, root) && Table(m1, root)[v] == Mapping(pa / PGSIZE + (v - first), WithV(perm))
  {
    LeafAt(pa, v - first, perm);
    assert Pte(m1, root, v) == Leaf(pa + (v - first) * PGSIZE, perm);
  }

  /** uvmunmap removes exactly its range from the map. */
  lemma UvmunmapOnTable(m0: seq<Page>, r0: seq<Role>, m1: seq<Page>, root: nat, first: nat, n: nat)
    requires Unmapped(m0, r0, m1, root, first, n) && IsRoot(r0, root)
    ensures Table(m1, root) == map v | v in Table(m0, root) && !InRange(v, first, n) :: Table(m0, root)[v]
  {
  }

  /** Either way the other address spaces keep their maps. */
  lemma OtherTables(m0: seq<Page>, r0: seq<Role>, m1: seq<Page>, root: nat, first: nat, n: nat, pa: nat, perm: nat, r: nat)
    requires Mapped(m0, r0, m1, root, first, n, pa, perm) || Unmapped(m0, r0, m1, root, first, n)
    requires IsRoot(r0, r) && r != root
    ensures Table(m1, r) == Table(m0, r)
  {
    forall v: nat | v < VPNS ensures Pte(m1, r, v) == Pte(m0, r, v) { }
  }
}
