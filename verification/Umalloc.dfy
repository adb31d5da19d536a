/**
The user-level heap: a circular list of free blocks in address order through `base`, first fit from `freep`, split at
the tail, coalesced on free.  Addresses and sizes are in headers (16 bytes); an address maps to the header stored there.
*/
module Umalloc {

  const NULL: int := 0
  const BASE: int := 1      // &base: below every address sbrk returns

  /** The header fields, by address. */
  datatype Mem = Mem(ptr: seq<int>, size: seq<int>)

  predicate Has(m: Mem, a: int) {
    0 <= a < |m.ptr| && a < |m.size|
  }

  function Put(m: Mem, a: int, ptr: int, size: int): (r: Mem)
    requires Has(m, a)
    ensures |r.ptr| == |m.ptr| && |r.size| == |m.size|
  {
    Mem(m.ptr[a := ptr], m.size[a := size])
  }

  // ----- The free list -----

  ghost predicate Blocks(m: Mem, free: set<int>) {
    forall a :: a in free ==> Has(m, a) && a >= BASE && if a == BASE then m.size[a] == 0 else m.size[a] > 0
  }

  /** Each free block points to a free block: a higher one, or base. */
  ghost predicate Links(m: Mem, free: set<int>)
    requires Blocks(m, free)
  {
    forall a {:trigger m.ptr[a]} :: a in free ==> m.ptr[a] in free && (m.ptr[a] > a || m.ptr[a] == BASE)
  }

  /** No block points past a higher one. */
  ghost predicate Ascends(m: Mem, free: set<int>)
    requires Blocks(m, free)
  {
    forall a, b {:trigger m.ptr[a], b in free} :: a in free && b in free && a < b ==> a < m.ptr[a] <= b
  }

  /** No two blocks overlap or touch. */
  ghost predicate Gaps(m: Mem, free: set<int>)
    requires Blocks(m, free)
  {
    forall a, b :: a in free && b in free && a < b ==> a + m.size[a] < b
  }

  /** The blocks in A other than p have the same header in both. */
  ghost predicate SameBut(m: Mem, m': Mem, A: set<int>, p: int) {
    && |m'.ptr| == |m.ptr| && |m'.size| == |m.size|
    && (forall a {:trigger m'.ptr[a]} :: a in A && a != p && Has(m, a) ==> m'.ptr[a] == m.ptr[a])
    && (forall a {:trigger m'.size[a]} :: a in A && a != p && Has(m, a) ==> m'.size[a] == m.size[a])
  }

  /** The free blocks form one cycle through base: each points to the next higher one, the highest to base, and no two
      overlap or touch. */
  ghost predicate FreeList(m: Mem, free: set<int>) {
    BASE in free && Blocks(m, free) && Links(m, free) && Ascends(m, free) && Gaps(m, free)
  }

  /** Unit u lies in a free block. */
  ghost predicate InFree(m: Mem, free: set<int>, u: int) {
    exists a :: a in free && Has(m, a) && a <= u < a + m.size[a]
  }

  /** p is the last free block below bp. */
  ghost predicate Slot(free: set<int>, p: int, bp: int) {
    p in free && p < bp && forall a :: a in free ==> a <= p || bp < a
  }

  ghost function Above(free: set<int>, p: int): set<int> {
    set a | a in free && a > p
  }

  /** free's search, from anywhere on the cycle. */
  method FindSlot(m: Mem, ghost free: set<int>, freep: int, bp: int) returns (p: int)
    requires FreeList(m, free) && freep in free && bp > BASE && bp !in free
    ensures Slot(free, p, bp)
  {
    p := freep;
    while !(bp > p && bp < m.ptr[p])
      invariant p in free
      decreases p > bp, Above(free, p)
    {
      if p >= m.ptr[p] && (bp > p || bp < m.ptr[p]) {
        break;
      }
      ghost var q := p;
      p := m.ptr[p];
      if p > q {
        assert p in Above(free, q) && p !in Above(free, p);
      }
    }
  }

  // ----- free: linking and coalescing -----

  /** The header updates of free once the slot after p is known. */
  function Linked(m: Mem, p: int, bp: int): (r: Mem)
    requires Has(m, p) && Has(m, bp) && Has(m, m.ptr[p])
  {
    var next, n := m.ptr[p], m.size[bp];
    var u := if bp + n == next then Put(m, bp, m.ptr[next], n + m.size[next]) else Put(m, bp, next, n);
    if p + m.size[p] == bp then Put(u, p, u.ptr[bp], m.size[p] + u.size[bp]) else Put(u, p, bp, m.size[p])
  }

  /** The free blocks afterwards. */
  ghost function FreeWith(m: Mem, free: set<int>, p: int, bp: int): set<int>
    requires Has(m, p) && Has(m, bp)
  {
    var next := m.ptr[p];
    (free - if bp + m.size[bp] == next then {next} else {}) + if p + m.size[p] == bp then {} else {bp}
  }

  /** A block that may be freed: none of its units is free. */
  ghost predicate Freeable(m: Mem, free: set<int>, bp: int) {
    && FreeList(m, free) && Has(m, bp) && m.size[bp] > 0 && bp > BASE
    && forall u :: bp <= u < bp + m.size[bp] ==> !InFree(m, free, u)
  }

  lemma Sides(m: Mem, free: set<int>, p: int, bp: int)
    requires Freeable(m, free, bp) && Slot(free, p, bp)
    ensures forall a :: a in free ==> if a <= p then a + m.size[a] <= bp else bp + m.size[bp] <= a
    ensures bp !in free
  {
    forall a | a in free ensures a != bp && if a <= p then a + m.size[a] <= bp else bp + m.size[bp] <= a {
      if a != BASE {
        assert InFree(m, free, a);
        assert a <= bp < a + m.size[a] ==> InFree(m, free, bp);
      }
    }
  }

  /** The block that will follow the freed one, and how far the freed one reaches. */
  ghost function After(m: Mem, p: int, bp: int): int
    requires Has(m, p) && Has(m, bp) && Has(m, m.ptr[p])
  {
    if bp + m.size[bp] == m.ptr[p] then m.ptr[m.ptr[p]] else m.ptr[p]
  }

  ghost function Reach(m: Mem, p: int, bp: int): int
    requires Has(m, p) && Has(m, bp) && Has(m, m.ptr[p])
  {
    m.size[bp] + if bp + m.size[bp] == m.ptr[p] then m.size[m.ptr[p]] else 0
  }

  lemma NextUp(m: Mem, free: set<int>, p: int, bp: int)
    requires Freeable(m, free, bp) && Slot(free, p, bp)
    ensures m.ptr[p] in free && Has(m, m.ptr[p]) && (m.ptr[p] > bp || m.ptr[p] == BASE)
    ensures forall a :: a in free && a > p ==> m.ptr[p] > bp && m.ptr[p] <= a
  {
    Sides(m, free, p, bp);
  }

  lemma AfterUp(m: Mem, free: set<int>, p: int, bp: int)
    requires Freeable(m, free, bp) && Slot(free, p, bp) && Has(m, m.ptr[p])
    ensures var after, up := After(m, p, bp), bp + m.size[bp] == m.ptr[p];
            && after in free && (after > bp || after == BASE) && (up ==> after != m.ptr[p])
            && Reach(m, p, bp) > 0
    ensures forall a :: a in free && a > p && !(bp + m.size[bp] == m.ptr[p] && a == m.ptr[p]) ==>
              After(m, p, bp) != BASE && After(m, p, bp) <= a && bp + Reach(m, p, bp) < a
  {
    NextUp(m, free, p, bp);
    Sides(m, free, p, bp);
    var next := m.ptr[p];
    if bp + m.size[bp] == next {
      assert m.ptr[next] in free;
    }
  }

  /** m' is m after bp was inserted or absorbed behind p. */
  ghost predicate Rebuilt(m: Mem, free: set<int>, p: int, bp: int, m': Mem, F: set<int>) {
    && Freeable(m, free, bp) && Slot(free, p, bp) && Has(m, m.ptr[p])
    && (var up, down := bp + m.size[bp] == m.ptr[p], p + m.size[p] == bp;
        && Has(m', p) && m'.ptr[p] == (if down then After(m, p, bp) else bp)
        && m'.size[p] == m.size[p] + (if down then Reach(m, p, bp) else 0)
        && (!down ==> Has(m', bp) && m'.ptr[bp] == After(m, p, bp) && m'.size[bp] == Reach(m, p, bp))
        && SameBut(m, m', free, p)
        && (forall a :: a in F <==> (a in free && !(up && a == m.ptr[p])) || (!down && a == bp)))
  }

  lemma LinkedRebuilds(m: Mem, free: set<int>, p: int, bp: int)
    requires Freeable(m, free, bp) && Slot(free, p, bp)
    ensures Has(m, m.ptr[p]) && Rebuilt(m, free, p, bp, Linked(m, p, bp), FreeWith(m, free, p, bp))
  {
    NextUp(m, free, p, bp);
    LinkedHeaders(m, free, p, bp);
    var up, down := bp + m.size[bp] == m.ptr[p], p + m.size[p] == bp;
    forall a ensures a in FreeWith(m, free, p, bp) <==> (a in free && !(up && a == m.ptr[p])) || (!down && a == bp) {}
  }

  lemma LinkedHeaders(m: Mem, free: set<int>, p: int, bp: int)
    requires Freeable(m, free, bp) && Slot(free, p, bp) && Has(m, m.ptr[p])
    ensures var m', down := Linked(m, p, bp), p + m.size[p] == bp;
            && m'.ptr[p] == (if down then After(m, p, bp) else bp) && m'.size[p] == m.size[p] + (if down then Reach(m, p, bp) else 0)
            && (!down ==> m'.ptr[bp] == After(m, p, bp) && m'.size[bp] == Reach(m, p, bp))
            && SameBut(m, m', free, p)
  {
    Sides(m, free, p, bp);
  }

  lemma RebuiltNode(m: Mem, free: set<int>, p: int, bp: int, m': Mem, F: set<int>, a: int)
    requires Rebuilt(m, free, p, bp, m', F) && a in F
    ensures Has(m', a) && a >= BASE && (if a == BASE then m'.size[a] == 0 else m'.size[a] > 0)
    ensures m'.ptr[a] in F && (m'.ptr[a] > a || m'.ptr[a] == BASE)
  {
    NextUp(m, free, p, bp);
    AfterUp(m, free, p, bp);
    Sides(m, free, p, bp);
    if a != p && a != bp && a < p {
      assert m.ptr[a] <= p;
    }
  }

  lemma RebuiltPair(m: Mem, free: set<int>, p: int, bp: int, m': Mem, F: set<int>, a: int, b: int)
    requires Rebuilt(m, free, p, bp, m', F) && a in F && b in F && a < b
    ensures Has(m', a) && a < m'.ptr[a] <= b && a + m'.size[a] < b
  {
    NextUp(m, free, p, bp);
    AfterUp(m, free, p, bp);
    Sides(m, free, p, bp);
    if a != p && a != bp && a < p {
      assert m.ptr[a] <= p;
    }
  }

  lemma RebuiltBlocks(m: Mem, free: set<int>, p: int, bp: int, m': Mem, F: set<int>)
    requires Rebuilt(m, free, p, bp, m', F)
    ensures BASE in F && Blocks(m', F) && Links(m', F)
  {
    NextUp(m, free, p, bp);
    forall a | a in F
      ensures Has(m', a) && a >= BASE && (if a == BASE then m'.size[a] == 0 else m'.size[a] > 0)
      ensures m'.ptr[a] in F && (m'.ptr[a] > a || m'.ptr[a] == BASE)
    {
      RebuiltNode(m, free, p, bp, m', F, a);
    }
  }

  lemma RebuiltPairs(m: Mem, free: set<int>, p: int, bp: int, m': Mem, F: set<int>)
    requires Rebuilt(m, free, p, bp, m', F) && Blocks(m', F)
    ensures Ascends(m', F) && Gaps(m', F)
  {
    forall a, b | a in F && b in F && a < b ensures a < m'.ptr[a] <= b && a + m'.size[a] < b {
      RebuiltPair(m, free, p, bp, m', F, a, b);
    }
  }

  /** free keeps the list well formed. */
  lemma LinkedList(m: Mem, free: set<int>, p: int, bp: int)
    requires Freeable(m, free, bp) && Slot(free, p, bp)
    ensures Has(m, m.ptr[p]) && FreeList(Linked(m, p, bp), FreeWith(m, free, p, bp))
  {
    LinkedRebuilds(m, free, p, bp);
    RebuiltBlocks(m, free, p, bp, Linked(m, p, bp), FreeWith(m, free, p, bp));
    RebuiltPairs(m, free, p, bp, Linked(m, p, bp), FreeWith(m, free, p, bp));
  }

  /** Every old free unit, and every unit of bp, is in some block. */
  lemma RebuiltCovers(m: Mem, free: set<int>, p: int, bp: int, m': Mem, F: set<int>, u: int)
    requires Rebuilt(m, free, p, bp, m', F)
    requires InFree(m, free, u) || bp <= u < bp + m.size[bp]
    ensures InFree(m', F, u)
  {
    NextUp(m, free, p, bp);
    var next, n, into := m.ptr[p], m.size[bp], if p + m.size[p] == bp then p else bp;
    if bp <= u < bp + n {
      assert into in F && into <= u < into + m'.size[into];
    } else {
      var a :| a in free && Has(m, a) && a <= u < a + m.size[a];
      var b := if a == next && bp + n == next then into else a;
      assert b in F && b <= u < b + m'.size[b];
    }
  }

  /** And no other unit is. */
  lemma RebuiltExact(m: Mem, free: set<int>, p: int, bp: int, m': Mem, F: set<int>, u: int)
    requires Rebuilt(m, free, p, bp, m', F) && InFree(m', F, u)
    ensures InFree(m, free, u) || bp <= u < bp + m.size[bp]
  {
    NextUp(m, free, p, bp);
    Sides(m, free, p, bp);
    var next, n := m.ptr[p], m.size[bp];
    var b :| b in F && Has(m', b) && b <= u < b + m'.size[b];
    if !(bp <= u < bp + n) {
      var a := if b != p && b != bp then b else if u < bp then p else next;
      assert a in free && a <= u < a + m.size[a];
    }
  }

  /** free makes exactly the units of the freed block free. */
  lemma LinkedUnits(m: Mem, free: set<int>, p: int, bp: int, u: int)
    requires Freeable(m, free, bp) && Slot(free, p, bp)
    ensures Has(m, m.ptr[p])
    ensures InFree(Linked(m, p, bp), FreeWith(m, free, p, bp), u)
        <==> InFree(m, free, u) || bp <= u < bp + m.size[bp]
  {
    LinkedRebuilds(m, free, p, bp);
    var m', F := Linked(m, p, bp), FreeWith(m, free, p, bp);
    if InFree(m, free, u) || bp <= u < bp + m.size[bp] { RebuiltCovers(m, free, p, bp, m', F, u); }
    if InFree(m', F, u) { RebuiltExact(m, free, p, bp, m', F, u); }
  }

  // ----- malloc: taking a block off the list -----

  /** A larger block gives up its last n units, which get a header of their own. */
  function Carved(m: Mem, p: int, n: int): (r: Mem)
    requires Has(m, p) && Has(m, p + m.size[p] - n)
  {
    var q := p + m.size[p] - n;
    var u := Put(m, p, m.ptr[p], m.size[p] - n);
    Put(u, q, u.ptr[q], n)
  }

  /** m' and F are m and free without block p, whose predecessor now points past it. */
  ghost predicate Removed(m: Mem, free: set<int>, prevp: int, p: int, m': Mem, F: set<int>) {
    && FreeList(m, free) && prevp in free && p in free && p != BASE && prevp != p && m.ptr[prevp] == p
    && F == free - {p} && Has(m', prevp) && m'.ptr[prevp] == m.ptr[p] && m'.size[prevp] == m.size[prevp]
    && SameBut(m, m', F, prevp)
  }

  lemma RemovedNode(m: Mem, free: set<int>, prevp: int, p: int, m': Mem, F: set<int>, a: int)
    requires Removed(m, free, prevp, p, m', F) && a in F
    ensures Has(m', a) && a >= BASE && (if a == BASE then m'.size[a] == 0 else m'.size[a] > 0)
    ensures m'.ptr[a] in F && (m'.ptr[a] > a || m'.ptr[a] == BASE)
  {
    assert m.ptr[p] != p && m.ptr[p] in free;
    assert m.ptr[a] in free;
  }

  lemma RemovedPair(m: Mem, free: set<int>, prevp: int, p: int, m': Mem, F: set<int>, a: int, b: int)
    requires Removed(m, free, prevp, p, m', F) && a in F && b in F && a < b
    ensures Has(m', a) && a < m'.ptr[a] <= b && a + m'.size[a] < b
  {
    assert m.ptr[p] in free && m.ptr[a] <= b;
  }

  lemma RemovedList(m: Mem, free: set<int>, prevp: int, p: int, m': Mem, F: set<int>)
    requires Removed(m, free, prevp, p, m', F)
    ensures FreeList(m', F)
  {
    forall a | a in F
      ensures Has(m', a) && a >= BASE && (if a == BASE then m'.size[a] == 0 else m'.size[a] > 0)
      ensures m'.ptr[a] in F && (m'.ptr[a] > a || m'.ptr[a] == BASE)
    {
      RemovedNode(m, free, prevp, p, m', F, a);
    }
    forall a, b | a in F && b in F && a < b ensures a < m'.ptr[a] <= b && a + m'.size[a] < b {
      RemovedPair(m, free, prevp, p, m', F, a, b);
    }
  }

  lemma RemovedUnit(m: Mem, free: set<int>, prevp: int, p: int, m': Mem, F: set<int>, u: int)
    requires Removed(m, free, prevp, p, m', F)
    ensures InFree(m', F, u) <==> InFree(m, free, u) && !(p <= u < p + m.size[p])
  {
    if InFree(m', F, u) {
      var a :| a in F && Has(m', a) && a <= u < a + m'.size[a];
      assert a in free && a <= u < a + m.size[a];
    }
    if InFree(m, free, u) && !(p <= u < p + m.size[p]) {
      var a :| a in free && Has(m, a) && a <= u < a + m.size[a];
      assert a in F && a <= u < a + m'.size[a];
    }
  }

  lemma CarvedList(m: Mem, free: set<int>, p: int, n: int)
    requires FreeList(m, free) && p in free && 0 < n < m.size[p] && Has(m, p + m.size[p] - n)
    ensures p + m.size[p] - n !in free && FreeList(Carved(m, p, n), free)
  {
    var m', q := Carved(m, p, n), p + m.size[p] - n;
    assert q !in free;
    assert SameBut(m, m', free, p);
    forall a | a in free
      ensures Has(m', a) && (if a == BASE then m'.size[a] == 0 else 0 < m'.size[a] <= m.size[a])
      ensures m'.ptr[a] in free && (m'.ptr[a] > a || m'.ptr[a] == BASE)
    {
    }
    forall a, b | a in free && b in free && a < b ensures a < m'.ptr[a] <= b && a + m'.size[a] < b {
      assert m.ptr[a] <= b;
    }
  }

  lemma CarvedUnit(m: Mem, free: set<int>, p: int, n: int, u: int)
    requires FreeList(m, free) && p in free && 0 < n < m.size[p] && Has(m, p + m.size[p] - n)
    ensures var q := p + m.size[p] - n; InFree(Carved(m, p, n), free, u) <==> InFree(m, free, u) && !(q <= u < q + n)
  {
    CarvedList(m, free, p, n);
    var m', q := Carved(m, p, n), p + m.size[p] - n;
    if InFree(m', free, u) {
      var a :| a in free && Has(m', a) && a <= u < a + m'.size[a];
      assert a <= u < a + m.size[a];
    }
    if InFree(m, free, u) && !(q <= u < q + n) {
      var a :| a in free && Has(m, a) && a <= u < a + m.size[a];
      assert a <= u < a + m'.size[a];
    }
  }

  // ----- The whole heap -----

  ghost predicate Within(a: int, u: int, n: int) {
    a <= u < a + n
  }

  /** The n units from a on. */
  ghost function Span(a: int, n: int): (s: set<int>)
    ensures forall u :: u in s <==> a <= u < a + n
  {
    var s := set u | a <= u < a + n && Within(a, u, n);
    assert forall u :: a <= u < a + n ==> Within(a, u, n);
    s
  }

  ghost predicate InLive(live: map<int, int>, u: int) {
    exists a :: a in live && a <= u < a + live[a]
  }

  /** Live blocks have their size in their header and do not overlap. */
  ghost predicate LiveOk(m: Mem, live: map<int, int>) {
    && (forall a :: a in live ==> Has(m, a) && m.size[a] == live[a] > 0 && a > BASE)
    && (forall a, b :: a in live && b in live && a < b ==> a + live[a] <= b)
  }

  /** Free and live blocks tile the memory obtained from sbrk. */
  ghost predicate Tiled(m: Mem, free: set<int>, live: map<int, int>, owned: set<int>) {
    && (forall u :: u in owned <==> InFree(m, free, u) || InLive(live, u))
    && (forall u :: !(InFree(m, free, u) && InLive(live, u)))
  }

  ghost predicate HeapOk(m: Mem, free: set<int>, live: map<int, int>, owned: set<int>) {
    FreeList(m, free) && LiveOk(m, live) && Tiled(m, free, live, owned)
  }

  lemma LiveFreeable(m: Mem, free: set<int>, live: map<int, int>, owned: set<int>, bp: int)
    requires HeapOk(m, free, live, owned) && bp in live
    ensures Freeable(m, free, bp) && bp !in free
  {
    forall u | bp <= u < bp + m.size[bp] ensures !InFree(m, free, u) {
      assert InLive(live, u);
    }
    assert bp in free ==> InFree(m, free, bp);
  }

  lemma InLiveWithout(live: map<int, int>, bp: int, u: int)
    requires bp in live && forall a, b :: a in live && b in live && a < b ==> a + live[a] <= b
    ensures InLive(live - {bp}, u) <==> InLive(live, u) && !(bp <= u < bp + live[bp])
  {
    if InLive(live - {bp}, u) {
      var a :| a in live - {bp} && a <= u < a + (live - {bp})[a];
      assert a in live && a <= u < a + live[a];
    }
    if InLive(live, u) && !(bp <= u < bp + live[bp]) {
      var a :| a in live && a <= u < a + live[a];
      assert a in live - {bp} && a <= u < a + (live - {bp})[a];
    }
  }

  lemma InLiveWith(live: map<int, int>, bp: int, n: int, u: int)
    requires bp !in live
    ensures InLive(live[bp := n], u) <==> InLive(live, u) || bp <= u < bp + n
  {
    var more := live[bp := n];
    if InLive(more, u) {
      var a :| a in more && a <= u < a + more[a];
      assert a != bp ==> a in live && a <= u < a + live[a];
    }
    if InLive(live, u) {
      var a :| a in live && a <= u < a + live[a];
      assert a in more && a <= u < a + more[a];
    }
    if bp <= u < bp + n { assert bp in more && bp <= u < bp + more[bp]; }
  }

  /** Freeing a live block keeps the heap, moving exactly that block's units from live to free. */
  lemma FreeKeeps(m: Mem, free: set<int>, live: map<int, int>, owned: set<int>, p: int, bp: int)
    requires HeapOk(m, free, live, owned) && bp in live && Slot(free, p, bp)
    ensures Has(m, m.ptr[p]) && HeapOk(Linked(m, p, bp), FreeWith(m, free, p, bp), live - {bp}, owned)
  {
    LiveFreeable(m, free, live, owned, bp);
    LinkedList(m, free, p, bp);
    var m', F, rest := Linked(m, p, bp), FreeWith(m, free, p, bp), live - {bp};
    forall a | a in rest ensures Has(m', a) && m'.size[a] == rest[a] {
      LiveFreeable(m, free, live, owned, a);
    }
    forall u
      ensures u in owned <==> InFree(m', F, u) || InLive(rest, u)
      ensures !(InFree(m', F, u) && InLive(rest, u))
    {
      LinkedUnits(m, free, p, bp, u);
      InLiveWithout(live, bp, u);
      assert bp <= u < bp + live[bp] ==> InLive(live, u);
    }
  }

  /** Moving n units at q from free to live keeps the heap. */
  lemma TakeKeeps(m: Mem, free: set<int>, live: map<int, int>, owned: set<int>, m': Mem, F: set<int>, q: int, n: int)
    requires HeapOk(m, free, live, owned) && FreeList(m', F) && n > 0 && q > BASE && Has(m', q) && m'.size[q] == n
    requires forall u :: q <= u < q + n ==> InFree(m, free, u)
    requires forall u :: InFree(m', F, u) <==> InFree(m, free, u) && !(q <= u < q + n)
    requires forall a :: a in live ==> Has(m', a) && m'.size[a] == m.size[a]
    ensures q !in live && HeapOk(m', F, live[q := n], owned)
  {
    forall a | a in live ensures a != q && (if a < q then a + live[a] <= q else q + n <= a) {
      assert InLive(live, a);
      assert a <= q < a + live[a] ==> InLive(live, q);
    }
    forall u
      ensures u in owned <==> InFree(m', F, u) || InLive(live[q := n], u)
      ensures !(InFree(m', F, u) && InLive(live[q := n], u))
    {
      InLiveWith(live, q, n, u);
    }
  }

  /** A fresh region from sbrk becomes one live block. */
  lemma GrowKeeps(m: Mem, free: set<int>, live: map<int, int>, owned: set<int>, m': Mem, hp: int, nu: int)
    requires HeapOk(m, free, live, owned) && hp > BASE && nu > 0 && Has(m, hp) && (forall u :: u in owned ==> u < hp)
    requires m' == Mem(m.ptr, m.size[hp := nu]) && |m.ptr| == |m.size|
    ensures hp !in live && hp !in free
    ensures HeapOk(m', free, live[hp := nu], owned + Span(hp, nu))
  {
    forall a | a in free ensures a < hp { assert a != BASE ==> InFree(m, free, a); }
    forall a | a in live ensures a + live[a] <= hp {
      assert InLive(live, a + live[a] - 1);
    }
    assert FreeList(m', free);
    forall u ensures InFree(m', free, u) <==> InFree(m, free, u) {
      if InFree(m', free, u) { var a :| a in free && Has(m', a) && a <= u < a + m'.size[a]; assert Has(m, a); }
      if InFree(m, free, u) { var a :| a in free && Has(m, a) && a <= u < a + m.size[a]; assert Has(m', a); }
    }
    forall u ensures InLive(live[hp := nu], u) <==> InLive(live, u) || hp <= u < hp + nu {
      InLiveWith(live, hp, nu, u);
    }
  }

  /** The block that took bp in is at least as large. */
  lemma LinkedSize(m: Mem, free: set<int>, p: int, bp: int)
    requires Freeable(m, free, bp) && Slot(free, p, bp)
    ensures Has(m, m.ptr[p]) && p in FreeWith(m, free, p, bp)
    ensures exists a :: a in FreeWith(m, free, p, bp) && Has(Linked(m, p, bp), a) && Linked(m, p, bp).size[a] >= m.size[bp]
  {
    LinkedRebuilds(m, free, p, bp);
    NextUp(m, free, p, bp);
    var a := if p + m.size[p] == bp then p else bp;
    assert a in FreeWith(m, free, p, bp) && Linked(m, p, bp).size[a] >= m.size[bp];
  }

  /** Lines 33-42 of free, on a live block whose slot is known. */
  method Coalesce(m: Mem, ghost free: set<int>, ghost live: map<int, int>, ghost owned: set<int>, p: int, bp: int)
    returns (m': Mem, ghost F: set<int>)
    requires HeapOk(m, free, live, owned) && bp in live && Slot(free, p, bp)
    ensures HeapOk(m', F, live - {bp}, owned) && p in F
    ensures |m'.ptr| == |m.ptr| && |m'.size| == |m.size|
    ensures forall u :: InFree(m', F, u) <==> InFree(m, free, u) || bp <= u < bp + live[bp]
    ensures exists a :: a in F && Has(m', a) && m'.size[a] >= live[bp]
  {
    LiveFreeable(m, free, live, owned, bp);
    FreeKeeps(m, free, live, owned, p, bp);
    forall u { LinkedUnits(m, free, p, bp, u); }
    LinkedSize(m, free, p, bp);
    m' := m;
    if bp + m'.size[bp] == m'.ptr[p] {
      m' := Put(m', bp, m'.ptr[m'.ptr[p]], m'.size[bp] + m'.size[m'.ptr[p]]);
    } else {
      m' := Put(m', bp, m'.ptr[p], m'.size[bp]);
    }
    if p + m'.size[p] == bp {
      m' := Put(m', p, m'.ptr[bp], m'.size[p] + m'.size[bp]);
    } else {
      m' := Put(m', p, bp, m'.size[p]);
    }
    F := FreeWith(m, free, p, bp);
    assert m' == Linked(m, p, bp);
  }

  /** An exact fit leaves the list whole. */
  method TakeWhole(m: Mem, ghost free: set<int>, ghost live: map<int, int>, ghost owned: set<int>, prevp: int, p: int)
    returns (m': Mem, ghost F: set<int>)
    requires HeapOk(m, free, live, owned) && prevp in free && p in free && m.ptr[prevp] == p && m.size[p] > 0
    ensures p !in live && HeapOk(m', F, live[p := m.size[p]], owned) && prevp in F
    ensures |m'.ptr| == |m.ptr| && |m'.size| == |m.size|
  {
    m' := Put(m, prevp, m.ptr[p], m.size[prevp]);
    F := free - {p};
    RemovedList(m, free, prevp, p, m', F);
    forall u { RemovedUnit(m, free, prevp, p, m', F, u); }
    forall u | p <= u < p + m.size[p] ensures InFree(m, free, u) {}
    forall a | a in live ensures Has(m', a) && m'.size[a] == m.size[a] {}
    TakeKeeps(m, free, live, owned, m', F, p, m.size[p]);
  }

  /** A larger block keeps its head and gives up its last n units. */
  method TakeTail(m: Mem, ghost free: set<int>, ghost live: map<int, int>, ghost owned: set<int>, p: int, n: int)
    returns (m': Mem, q: int)
    requires HeapOk(m, free, live, owned) && (forall u :: u in owned ==> u < |m.ptr|) && |m.ptr| == |m.size|
    requires p in free && 0 < n < m.size[p]
    ensures q == p + m.size[p] - n && q !in live && HeapOk(m', free, live[q := n], owned)
    ensures |m'.ptr| == |m.ptr| && |m'.size| == |m.size|
  {
    q := p + m.size[p] - n;
    forall u | q <= u < q + n ensures InFree(m, free, u) && u in owned {
      assert p <= u < p + m.size[p];
    }
    assert q in owned;
    CarvedList(m, free, p, n);
    forall u { CarvedUnit(m, free, p, n, u); }
    m' := Put(m, p, m.ptr[p], m.size[p] - n);
    m' := Put(m', q, m'.ptr[q], n);
    assert m' == Carved(m, p, n);
    forall a | a in live ensures Has(m', a) && m'.size[a] == m.size[a] {
      assert InLive(live, a);
      assert a == q || a == p ==> InFree(m, free, a);
    }
    TakeKeeps(m, free, live, owned, m', free, q, n);
  }

  // ----- malloc's scan -----

  /** The free blocks that a scan starting after freep has passed when it is at p. */
  ghost predicate Passed(free: set<int>, freep: int, p: int, seen: set<int>) {
    seen == set a | a in free && if p > freep then freep < a < p else a > freep || a < p
  }

  lemma PassedStart(m: Mem, free: set<int>, freep: int)
    requires FreeList(m, free) && freep in free
    ensures m.ptr[freep] in free && Passed(free, freep, m.ptr[freep], {})
  {
    var p := m.ptr[freep];
    forall a | a in free ensures !(if p > freep then freep < a < p else a > freep || a < p) {}
  }

  lemma PassedStep(m: Mem, free: set<int>, freep: int, p: int, seen: set<int>)
    requires FreeList(m, free) && freep in free && p in free && p != freep && Passed(free, freep, p, seen)
    ensures p !in seen && m.ptr[p] in free && Passed(free, freep, m.ptr[p], seen + {p})
  {
    var q := m.ptr[p];
    assert q in free;
    forall a | a in free ensures a in seen + {p} <==> if q > freep then freep < a < q else a > freep || a < q {
      assert p < a ==> p < q <= a;
    }
  }

  // ----- Requests -----

  const UINT: int := 0x1_0000_0000
  const HEADER: int := 16

  /** The headers malloc looks for: room for nbytes, and the header itself. */
  function Units(nbytes: nat): (n: int)
    ensures n >= 1 && (n - 1) * HEADER >= nbytes && (n - 1) * HEADER < nbytes + HEADER
  {
    (nbytes + HEADER - 1) / HEADER + 1
  }

  /** What morecore asks for. */
  function Grow(nu: int): (r: int)
    ensures r >= nu && r >= 4096 && (r == nu || r == 4096)
  {
    if nu < 4096 then 4096 else nu
  }

  /** The argument of sbrk is an int: 32 bits, two's complement. */
  function ToInt(x: int): (r: int)
    ensures -0x8000_0000 <= r < 0x8000_0000 && (x - r) % UINT == 0
  {
    var y := x % UINT;
    if y >= 0x8000_0000 then y - UINT else y
  }

  /** sbrk is asked for the region the heap goes on to use exactly when the request is at most 2^31 - 32 bytes. */
  lemma RegionCovered(nbytes: nat)
    requires nbytes < UINT
    ensures ToInt(Grow(Units(nbytes)) * HEADER) == Grow(Units(nbytes)) * HEADER <==> nbytes <= 0x7FFF_FFE0
  {
  }

  /** The largest request makes sbrk grow by a single header, while the block is recorded as 2^28 + 1 headers. */
  lemma LargestRequest()
    ensures Units(UINT - 1) == 0x1000_0001 && ToInt(Grow(Units(UINT - 1)) * HEADER) == HEADER
  {
  }

  class Heap {
    var mem: Mem
    var freep: int
    ghost var free: set<int>
    ghost var live: map<int, int>    // blocks handed out, with their sizes
    ghost var owned: set<int>        // units obtained from sbrk

    ghost predicate Valid()
      reads this
    {
      && BASE < |mem.ptr| == |mem.size| && (forall u :: u in owned ==> u < |mem.ptr|)
      && if freep == NULL then free == {} && live == map[] && owned == {}
         else freep in free && HeapOk(mem, free, live, owned)
    }

    constructor (units: nat)
      requires units > BASE
      ensures Valid() && live == map[] && owned == {} && |mem.ptr| == units
    {
      mem, freep := Mem(seq(units, i => 0), seq(units, i => 0)), NULL;
      free, live, owned := {}, map[], {};
    }

    /** Returns a live block to the free list, joining it with its neighbours. */
    method Free(ap: int)
      requires Valid() && ap - 1 in live
      modifies this
      ensures Valid() && freep in free && live == old(live) - {ap - 1} && owned == old(owned)
      ensures Slot(old(free), freep, ap - 1)
      ensures |mem.ptr| == |old(mem).ptr|
      ensures forall u :: InFree(mem, free, u)
                <==> InFree(old(mem), old(free), u) || ap - 1 <= u < ap - 1 + old(live)[ap - 1]
      ensures exists a :: a in free && Has(mem, a) && mem.size[a] >= old(live)[ap - 1]
    {
      var bp := ap - 1;
      LiveFreeable(mem, free, live, owned, bp);
      var p := FindSlot(mem, free, freep, bp);
      mem, free := Coalesce(mem, free, live, owned, p, bp);
      live := live - {bp};
      freep := p;
    }

    /** Extends the heap by a region at `grant`, or fails when sbrk did (-1). */
    method Morecore(nunits: int, grant: int) returns (p: int)
      requires Valid() && freep != NULL && nunits >= 1
      requires grant != -1 ==> Fresh(grant, nunits)
      modifies this
      ensures Valid() && freep in free && live == old(live) && |mem.ptr| == |old(mem).ptr|
      ensures p == if grant == -1 then NULL else freep
      ensures owned == if grant == -1 then old(owned) else old(owned) + Span(grant, Grow(nunits))
      ensures grant == -1 ==> mem == old(mem) && free == old(free) && freep == old(freep)
      ensures grant != -1 ==> exists a :: a in free && Has(mem, a) && mem.size[a] >= nunits
    {
      if grant == -1 {
        return NULL;
      }
      var nu := Grow(nunits);
      var hp := grant;
      GrowKeeps(mem, free, live, owned, Mem(mem.ptr, mem.size[hp := nu]), hp, nu);
      mem := Mem(mem.ptr, mem.size[hp := nu]);
      live, owned := live[hp := nu], owned + Span(hp, nu);
      Free(hp + 1);
      assert live == old(live);
      p := freep;
    }

    /** A region that sbrk may return for such a request: in memory, and above everything it returned before. */
    ghost predicate Fresh(grant: int, nunits: int)
      reads this
    {
      grant > BASE && grant + Grow(nunits) <= |mem.ptr| && forall u :: u in owned ==> u < grant
    }

    ghost predicate Fits(nunits: int)
      reads this
    {
      exists a :: a in free && Has(mem, a) && mem.size[a] >= nunits
    }

    /** Takes the units for a request from block p, whose predecessor is prevp. */
    method Take(prevp: int, p: int, nunits: int) returns (q: int)
      requires Valid() && freep != NULL && nunits >= 1
      requires prevp in free && p in free && mem.ptr[prevp] == p && mem.size[p] >= nunits
      modifies this
      ensures Valid() && owned == old(owned) && q !in old(live) && live == old(live)[q := nunits]
      ensures |mem.ptr| == |old(mem).ptr| && freep == prevp && q == p + old(mem).size[p] - nunits && q > BASE
    {
      if mem.size[p] == nunits {
        mem, free := TakeWhole(mem, free, live, owned, prevp, p);
        q := p;
      } else {
        mem, q := TakeTail(mem, free, live, owned, p, nunits);
      }
      live := live[q := nunits];
      freep := prevp;
      assert q in live;
    }

    /** The first call to malloc makes base the only block of the list. */
    method Start(ghost nunits: int)
      requires Valid() && nunits >= 1
      modifies this`mem, this`freep, this`free
      ensures Valid() && freep != NULL && |mem.ptr| == |old(mem).ptr| && (Fits(nunits) <==> old(Fits(nunits)))
      ensures old(freep) != NULL ==> mem == old(mem) && free == old(free) && freep == old(freep)
    {
      if freep == NULL {
        mem := Put(mem, BASE, BASE, 0);
        freep, free := BASE, {BASE};
        assert HeapOk(mem, free, live, owned);
      }
    }

    /** First fit from freep; `grant` is what sbrk would return.  A returned block has room for nbytes and is disjoint
        from every other live block, because the heap stays tiled. */
    method Malloc(nbytes: nat, grant: int) returns (r: int)
      requires Valid() && nbytes < UINT
      requires grant != -1 ==> Fresh(grant, Units(nbytes)) && nbytes <= 0x7FFF_FFE0
      modifies this
      ensures Valid() && freep != NULL && |mem.ptr| == |old(mem).ptr|
      ensures r == NULL <==> !old(Fits(Units(nbytes))) && grant == -1
      ensures r == NULL ==> live == old(live) && owned == old(owned)
      ensures r != NULL ==> r - 1 !in old(live) && live == old(live)[r - 1 := Units(nbytes)]
      ensures old(Fits(Units(nbytes))) ==> owned == old(owned)
      ensures r != NULL && !old(Fits(Units(nbytes))) ==> owned == old(owned) + Span(grant, Grow(Units(nbytes)))
      ensures old(Fits(Units(nbytes))) ==> FromFirst(old(mem), old(free), old(freep), Units(nbytes), r - 1)
    {
      var nunits := Units(nbytes);
      Start(nunits);
      r := FirstFit(nunits, grant);
    }

    /** malloc's loop. */
    method FirstFit(nunits: int, grant: int) returns (r: int)
      requires Valid() && freep != NULL && nunits >= 1
      requires grant != -1 ==> Fresh(grant, nunits)
      modifies this
      ensures Valid() && freep != NULL && |mem.ptr| == |old(mem).ptr|
      ensures r == NULL <==> !old(Fits(nunits)) && grant == -1
      ensures r == NULL ==> live == old(live) && owned == old(owned)
      ensures r != NULL ==> r - 1 !in old(live) && live == old(live)[r - 1 := nunits]
      ensures old(Fits(nunits)) ==> owned == old(owned)
      ensures r != NULL && !old(Fits(nunits)) ==> owned == old(owned) + Span(grant, Grow(nunits))
      ensures old(Fits(nunits)) ==> FromFirst(old(mem), old(free), old(freep), nunits, r - 1)
    {
      ghost var fits, m0, free0, freep0, live0, owned0 := Fits(nunits), mem, free, freep, live, owned;
      PassedStart(mem, free, freep);
      var prevp := freep;
      var p := mem.ptr[prevp];
      ghost var seen: set<int>, grown := {}, false;
      while true
        invariant Valid() && freep != NULL && |mem.ptr| == |m0.ptr| && live == live0
        invariant prevp in free && p in free && mem.ptr[prevp] == p && Passed(free, freep, p, seen)
        invariant TooSmall(mem, seen, nunits)
        invariant !grown ==> mem == m0 && free == free0 && freep == freep0 && owned == owned0
        invariant grown ==> !fits && grant != -1 && Fits(nunits) && owned == owned0 + Span(grant, Grow(nunits))
        decreases !grown, free - seen
      {
        if mem.size[p] >= nunits {
          r := TakeFirst(prevp, p, nunits, seen);
          return;
        }
        if p == freep {
          NothingFits(mem, free, freep, seen, nunits);
          assert !Fits(nunits) && !grown;
          p := Morecore(nunits, grant);
          if p == NULL {
            return NULL;
          }
          PassedStart(mem, free, freep);
          seen, grown := {}, true;
        } else {
          PassedStep(mem, free, freep, p, seen);
          seen := seen + {p};
        }
        prevp, p := p, mem.ptr[p];
      }
    }

    /** The scan has come to a block that is large enough: it is the first such block. */
    method TakeFirst(prevp: int, p: int, nunits: int, ghost seen: set<int>) returns (r: int)
      requires Valid() && freep != NULL && nunits >= 1
      requires prevp in free && p in free && mem.ptr[prevp] == p && mem.size[p] >= nunits
      requires Passed(free, freep, p, seen) && TooSmall(mem, seen, nunits)
      modifies this
      ensures Valid() && freep != NULL && |mem.ptr| == |old(mem).ptr| && owned == old(owned) && old(Fits(nunits))
      ensures r != NULL && r - 1 !in old(live) && live == old(live)[r - 1 := nunits]
      ensures FromFirst(old(mem), old(free), old(freep), nunits, r - 1)
    {
      StopsAtFirst(mem, free, freep, seen, nunits, p);
      assert Fits(nunits) by { assert p in free && Has(mem, p); }
      var q := Take(prevp, p, nunits);
      r := q + 1;
      assert r - 1 == q;
    }
  }

  ghost predicate TooSmall(m: Mem, seen: set<int>, n: int) {
    forall a :: a in seen && Has(m, a) ==> m.size[a] < n
  }

  /** Of the blocks with n units or more, p is the first after freep, going round. */
  ghost predicate First(m: Mem, free: set<int>, freep: int, n: int, p: int) {
    && p in free && Has(m, p) && m.size[p] >= n
    && forall a :: a in free && Has(m, a) && m.size[a] >= n ==>
         if p > freep then a >= p || a <= freep else p <= a <= freep
  }

  /** The block at q is cut from the end of that first one. */
  ghost predicate FromFirst(m: Mem, free: set<int>, freep: int, n: int, q: int) {
    exists p :: First(m, free, freep, n, p) && q == p + m.size[p] - n
  }

  lemma StopsAtFirst(m: Mem, free: set<int>, freep: int, seen: set<int>, n: int, p: int)
    requires FreeList(m, free) && freep in free && p in free && Passed(free, freep, p, seen) && m.size[p] >= n
    requires TooSmall(m, seen, n)
    ensures FromFirst(m, free, freep, n, p + m.size[p] - n)
  {
    assert First(m, free, freep, n, p);
  }

  /** A scan that has come back to freep has passed every block. */
  lemma NothingFits(m: Mem, free: set<int>, freep: int, seen: set<int>, nunits: int)
    requires FreeList(m, free) && freep in free && Passed(free, freep, freep, seen) && m.size[freep] < nunits
    requires TooSmall(m, seen, nunits)
    ensures forall a :: a in free ==> m.size[a] < nunits
  {
    forall a | a in free ensures m.size[a] < nunits {
      assert a == freep || a in seen;
    }
  }
}
