/**
The physical page allocator: a free list threaded through the free pages themselves. Every managed page is on the list
exactly once or has one owner.
*/
module Kalloc {
  const PGSIZE: nat := 4096
  const WORDS: nat := 512            // 64-bit words in a page
  const JUNK_FREE: nat := 0x0101_0101_0101_0101
  const JUNK_ALLOC: nat := 0x0505_0505_0505_0505

  type Page = seq<nat>

  /** What a physical page is used for. Page-table pages name the slot that refers to them. */
  datatype Role =
    | Free
    | Other                            // the kernel itself, or handed out by kalloc
    | Root                             // a level-2 page-table page
    | Mid(parent: nat, slot: nat)      // level 1
    | Low(parent: nat, slot: nat)      // level 0
    | Owned(root: nat, vpn: nat)       // user memory that belongs to page `vpn` of an address space

  function Filled(w: nat): Page { seq(WORDS, _ => w) }

  /** Physical addresses are bytes; page p starts at Addr(p). Page 0 is not memory, so 0 is the null pointer. */
  function Addr(p: nat): nat { p * PGSIZE }

  predicate Sized(mem: seq<Page>) {
    forall p {:trigger mem[p]} :: 0 <= p < |mem| ==> |mem[p]| == WORDS
  }

  /** The list at `head` runs through exactly the pages `list`, each linked to the next by its first word. */
  ghost predicate Chain(mem: seq<Page>, head: nat, list: seq<nat>)
    decreases |list|
  {
    if list == [] then head == 0 else
      && 0 < list[0] < |mem| && |mem[list[0]]| == WORDS
      && head == Addr(list[0]) && Chain(mem, mem[list[0]][0], list[1..])
  }

  /** The free list has every free page once and no other; free pages lie in the managed range [lo, |mem|). */
  ghost predicate FreeOk(role: seq<Role>, list: seq<nat>, lo: nat) {
    && (forall k {:trigger list[k]} :: 0 <= k < |list| ==> lo <= list[k] < |role| && role[list[k]] == Free)
    && (forall j, k {:trigger list[j], list[k]} :: 0 <= j < k < |list| ==> list[j] != list[k])
    && (forall p {:trigger role[p]} :: 0 <= p < |role| && role[p] == Free ==> p in list)
  }

  /** Writing a page that is not on the list leaves the list alone. */
  lemma {:induction false} ChainKept(mem: seq<Page>, head: nat, list: seq<nat>, p: nat, page: Page)
    requires Chain(mem, head, list) && p < |mem| && p !in list
    ensures Chain(mem[p := page], head, list)
    decreases |list|
  {
    if list != [] {
      assert list[0] != p;
      ChainKept(mem, mem[list[0]][0], list[1..], p, page);
    }
  }

  class Kmem {
    var mem: seq<Page>
    var freelist: nat                // kmem.freelist
    const lo: nat                    // first page after the kernel
    ghost var list: seq<nat>
    ghost var role: seq<Role>

    ghost predicate Valid()
      reads this
    {
      && 0 < lo <= |mem| == |role| && Sized(mem)
      && Chain(mem, freelist, list) && FreeOk(role, list, lo)
    }

    /** kinit: everything from the end of the kernel to the top of memory becomes free, nothing else. */
    constructor (end: nat, top: nat, contents: seq<Page>)
      requires 0 < end <= top && top % PGSIZE == 0
      requires |contents| == top / PGSIZE && Sized(contents)
      ensures Valid() && lo == (end + PGSIZE - 1) / PGSIZE && |mem| == top / PGSIZE
      ensures forall p :: 0 <= p < |mem| ==> (role[p] == Free <==> end <= Addr(p) && Addr(p) + PGSIZE <= top)
      ensures forall p :: 0 <= p < |mem| ==> role[p] == Free || role[p] == Other
      ensures forall p :: 0 <= p < lo ==> mem[p] == contents[p]
    {
      mem, freelist, list := contents, 0, [];
      lo := (end + PGSIZE - 1) / PGSIZE;
      role := seq(|contents|, _ => Other);
      new;
      RoundUp(end, top);
      Freerange(end, top);
    }

    /** kfree. The first three requires are its panic; the last says that the page is not free already. */
    method Kfree(pa: nat)
      requires Valid()
      requires pa % PGSIZE == 0 && pa / PGSIZE < |mem| && lo <= pa / PGSIZE
      requires role[pa / PGSIZE] == Other
      modifies this
      ensures Valid() && list == [pa / PGSIZE] + old(list) && role == old(role)[pa / PGSIZE := Free]
      ensures |mem| == old(|mem|) && forall p :: 0 <= p < |mem| && p != pa / PGSIZE ==> mem[p] == old(mem)[p]
    {
      ghost var p: nat := pa / PGSIZE;
      assert pa == Addr(p);
      ghost var m0 := mem;
      var r := pa / PGSIZE;
      mem := mem[r := Filled(JUNK_FREE)];
      var page: Page := [freelist] + mem[r][1..];          // r->next = kmem.freelist
      mem := mem[r := page];
      assert mem == m0[p := mem[p]];
      assert p !in list by { assert forall k :: 0 <= k < |list| ==> role[list[k]] == Free; }
      ChainKept(m0, freelist, list, p, mem[p]);
      freelist := pa;
      list := [p] + list;
      assert list[1..] == old(list);
      role := role[p := Free];
    }

    /** kalloc: the head of the list, or null when there is none. */
    method Kalloc() returns (pa: nat)
      requires Valid()
      modifies this
      ensures Valid() && (pa == 0 <==> old(list) == [])
      ensures pa == 0 ==> mem == old(mem) && role == old(role) && list == old(list)
      ensures pa != 0 ==>
                && old(list) != [] && pa == Addr(old(list)[0]) && old(list)[0] < |old(mem)| && lo <= old(list)[0]
                && list == old(list)[1..] && role == old(role)[old(list)[0] := Other]
                && mem == old(mem)[old(list)[0] := Filled(JUNK_ALLOC)]
    {
      pa := freelist;
      if pa != 0 {
        ghost var p := list[0];
        var r := pa / PGSIZE;
        assert r == p;
        freelist := mem[r][0];
        assert p !in list[1..] by { assert forall k :: 1 <= k < |list| ==> list[k] != list[0]; }
        ChainKept(mem, freelist, list[1..], p, Filled(JUNK_ALLOC));
        mem := mem[r := Filled(JUNK_ALLOC)];
        role := role[p := Other];
        PopOk(role, list, lo);
        list := list[1..];
      }
    }

    method Freerange(start: nat, end: nat)
      requires Valid() && lo == (start + PGSIZE - 1) / PGSIZE && end == |mem| * PGSIZE
      requires list == [] && forall p :: 0 <= p < |role| ==> role[p] == Other
      modifies this
      ensures Valid() && |mem| == old(|mem|)
      ensures forall p :: 0 <= p < |role| ==> role[p] == if lo <= p then Free else Other
      ensures forall p :: 0 <= p < lo ==> mem[p] == old(mem)[p]
    {
      var p := (start + PGSIZE - 1) / PGSIZE * PGSIZE;
      while p + PGSIZE <= end
        invariant Valid() && |mem| == old(|mem|) && p % PGSIZE == 0 && lo <= p / PGSIZE <= |mem|
        invariant forall q :: 0 <= q < |role| ==> role[q] == if lo <= q < p / PGSIZE then Free else Other
        invariant forall q :: 0 <= q < lo ==> mem[q] == old(mem)[q]
      {
        Kfree(p);
        p := p + PGSIZE;
      }
    }
  }

  lemma RoundUp(end: nat, top: nat)
    requires 0 < end <= top && top % PGSIZE == 0
    ensures 0 < (end + PGSIZE - 1) / PGSIZE <= top / PGSIZE
    ensures forall p: nat {:trigger Addr(p)} :: (end + PGSIZE - 1) / PGSIZE <= p <==> end <= Addr(p)
    ensures forall p: nat {:trigger Addr(p)} :: p < top / PGSIZE <==> Addr(p) + PGSIZE <= top
  {
  }

  lemma PopOk(role: seq<Role>, list: seq<nat>, lo: nat)
    requires list != [] && list[0] < |role| && role[list[0]] == Other
    requires FreeOk(role[list[0] := Free], list, lo)
    ensures FreeOk(role, list[1..], lo)
  {
    var was := role[list[0] := Free];
    forall p | 0 <= p < |role| && role[p] == Free ensures p in list[1..] {
      assert was[p] == Free;
    }
    forall k | 0 <= k < |list| - 1 ensures lo <= list[1..][k] < |role| && role[list[1..][k]] == Free {
      assert list[1..][k] == list[k + 1] != list[0];
    }
  }
}
