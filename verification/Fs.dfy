/**
The file layer's blocks: the bitmap allocator, direct and indirect block mapping, byte-level reading and writing, and
truncation. Blocks are bytes; a bitmap is bits of bytes and an indirect block little-endian 32-bit words, as on disk.
Every block has one owner, and a file is a sequence of bytes.
*/
module Fs {
  const BSIZE: nat := 1024
  const NDIRECT: nat := 12
  const NINDIRECT: nat := BSIZE / 4
  const MAXFILE: nat := NDIRECT + NINDIRECT
  const BPB: nat := BSIZE * 8
  const UINT: nat := 0x1_0000_0000

  type Byte = x: nat | x < 0x100
  type Block = seq<Byte>

  /** The in-memory inode, which iupdate copies to disk: file size and block addresses. */
  datatype Inode = Inode(size: nat, addrs: seq<nat>)

  /** What a block is used for: metadata, nothing, a block balloc has just handed out, or part of one inode. */
  datatype Role = Meta | Free | Loose | Data(ino: nat, bn: nat) | Ind(ino: nat)

  // ----- Words and bits in a block -----

  /** a[j] of the uint array in the block. */
  function Word(b: Block, j: nat): nat
    requires |b| == BSIZE && j < NINDIRECT
  {
    (b[4 * j] as nat) + 0x100 * (b[4 * j + 1] as nat) + 0x1_0000 * (b[4 * j + 2] as nat) + 0x100_0000 * (b[4 * j + 3] as nat)
  }

  function WordBytes(w: nat): (r: seq<Byte>)
    requires w < UINT
    ensures |r| == 4
  {
    [w % 0x100, w / 0x100 % 0x100, w / 0x1_0000 % 0x100, w / 0x100_0000]
  }

  function PutWord(b: Block, j: nat, w: nat): (r: Block)
    requires |b| == BSIZE && j < NINDIRECT && w < UINT
    ensures |r| == BSIZE
  {
    b[..4 * j] + WordBytes(w) + b[4 * j + 4..]
  }

  lemma Digits(w: nat)
    requires w < UINT
    ensures w % 0x100 + 0x100 * (w / 0x100 % 0x100) + 0x1_0000 * (w / 0x1_0000 % 0x100) + 0x100_0000 * (w / 0x100_0000) == w
  {
    assert w / 0x1_0000 == w / 0x100 / 0x100 && w / 0x100_0000 == w / 0x1_0000 / 0x100;
  }

  /** On disk word j is the four bytes from 4 * j on, the lowest first; no other byte is written. */
  lemma WordLayout(b: Block, j: nat, w: nat)
    requires |b| == BSIZE && j < NINDIRECT && w < UINT
    ensures var r := PutWord(b, j, w);
      && (r[4 * j] as nat) + 0x100 * (r[4 * j + 1] as nat) + 0x1_0000 * (r[4 * j + 2] as nat) + 0x100_0000 * (r[4 * j + 3] as nat) == w
      && forall k :: 0 <= k < BSIZE && k / 4 != j ==> r[k] == b[k]
  {
    PutWordGet(b, j, w, j);
  }

  /** Writing one word and reading the block's words back. */
  lemma PutWordGet(b: Block, j: nat, w: nat, i: nat)
    requires |b| == BSIZE && j < NINDIRECT && w < UINT && i < NINDIRECT
    ensures Word(PutWord(b, j, w), i) == if i == j then w else Word(b, i)
  {
    var r := PutWord(b, j, w);
    if i == j {
      Digits(w);
      assert r[4 * j] == WordBytes(w)[0] && r[4 * j + 1] == WordBytes(w)[1];
      assert r[4 * j + 2] == WordBytes(w)[2] && r[4 * j + 3] == WordBytes(w)[3];
    } else {
      assert r[4 * i] == b[4 * i] && r[4 * i + 1] == b[4 * i + 1];
      assert r[4 * i + 2] == b[4 * i + 2] && r[4 * i + 3] == b[4 * i + 3];
    }
  }

  /** 1 << p. */
  function Mask(p: nat): nat
  {
    if p == 0 then 1 else 2 * Mask(p - 1)
  }

  /** x & (1 << p) is not zero. */
  predicate On(x: nat, p: nat) {
    if p == 0 then x % 2 == 1 else On(x / 2, p - 1)
  }

  lemma {:induction false} OrBit(x: nat, p: nat, q: nat)
    requires !On(x, p)
    ensures On(x + Mask(p), q) <==> p == q || On(x, q)
  {
    if p > 0 && q > 0 {
      OrBit(x / 2, p - 1, q - 1);
      assert (x + Mask(p)) / 2 == x / 2 + Mask(p - 1);
    }
  }

  lemma {:induction false} BitFits(x: nat, p: nat, n: nat)
    requires p < n && x < Mask(n)
    ensures if On(x, p) then x >= Mask(p) else x + Mask(p) < Mask(n)
  {
    if p > 0 { BitFits(x / 2, p - 1, n - 1); }
  }

  lemma {:induction false} AndNotBit(x: nat, p: nat)
    requires On(x, p)
    ensures x >= Mask(p) && !On(x - Mask(p), p)
  {
    if p > 0 {
      AndNotBit(x / 2, p - 1);
      assert (x - Mask(p)) / 2 == x / 2 - Mask(p - 1);
    }
  }

  lemma Mask8()
    ensures Mask(8) == 0x100
  {
    assert Mask(4) == 16;
  }

  predicate Bit(b: Block, i: nat)
    requires |b| == BSIZE && i < BPB
  {
    On(b[i / 8], i % 8)
  }

  /** x | (1 << p). */
  function Or(x: Byte, p: nat): Byte
    requires p < 8
  {
    BitFits(x, p, 8);
    Mask8();
    if On(x, p) then x else x + Mask(p)
  }

  /** x & ~(1 << p). */
  function AndNot(x: Byte, p: nat): Byte
    requires p < 8
  {
    BitFits(x, p, 8);
    Mask8();
    if On(x, p) then x - Mask(p) else x
  }

  function SetBit(b: Block, i: nat): (r: Block)
    requires |b| == BSIZE && i < BPB
    ensures |r| == BSIZE
  {
    b[i / 8 := Or(b[i / 8], i % 8)]
  }

  function ClearBit(b: Block, i: nat): (r: Block)
    requires |b| == BSIZE && i < BPB
    ensures |r| == BSIZE
  {
    b[i / 8 := AndNot(b[i / 8], i % 8)]
  }

  lemma OrAndNot(x: Byte, p: nat, q: nat)
    requires p < 8 && q < 8
    ensures On(Or(x, p), q) <==> p == q || On(x, q)
    ensures On(AndNot(x, p), q) <==> p != q && On(x, q)
  {
    if On(x, p) {
      AndNotBit(x, p);
      OrBit(x - Mask(p), p, q);
    } else {
      OrBit(x, p, q);
    }
  }

  /** Marking or clearing one bit of a bitmap block leaves every other bit alone. */
  lemma BitsAfter(b: Block, i: nat, k: nat)
    requires |b| == BSIZE && i < BPB && k < BPB
    ensures Bit(SetBit(b, i), k) <==> k == i || Bit(b, k)
    ensures Bit(ClearBit(b, i), k) <==> k != i && Bit(b, k)
  {
    assert i == 8 * (i / 8) + i % 8 && k == 8 * (k / 8) + k % 8;
    OrAndNot(b[i / 8], i % 8, k % 8);
  }

  // ----- Files over blocks -----

  ghost predicate Shape(blk: seq<Block>, inodes: seq<Inode>) {
    && |blk| < UINT
    && (forall b {:trigger blk[b]} :: 0 <= b < |blk| ==> |blk[b]| == BSIZE)
    && (forall i {:trigger inodes[i]} :: 0 <= i < |inodes| ==> |inodes[i].addrs| == NDIRECT + 1)
  }

  /** The address of block bn of an inode, 0 where it has none. */
  function Addr(blk: seq<Block>, ip: Inode, bn: nat): nat {
    if |ip.addrs| != NDIRECT + 1 || bn >= MAXFILE then 0
    else if bn < NDIRECT then ip.addrs[bn]
    else if ip.addrs[NDIRECT] == 0 || ip.addrs[NDIRECT] >= |blk| || |blk[ip.addrs[NDIRECT]]| != BSIZE then 0
    else Word(blk[ip.addrs[NDIRECT]], bn - NDIRECT)
  }

  /** Every block inode i refers to knows it. */
  ghost predicate SlotsOk(blk: seq<Block>, inodes: seq<Inode>, role: seq<Role>, i: nat)
    requires i < |inodes|
  {
    var ip := inodes[i];
    && |ip.addrs| == NDIRECT + 1
    && (ip.addrs[NDIRECT] != 0 ==> ip.addrs[NDIRECT] < |role| && role[ip.addrs[NDIRECT]] == Ind(i))
    && forall bn: nat {:trigger Addr(blk, ip, bn)} :: Addr(blk, ip, bn) != 0 ==>
         Addr(blk, ip, bn) < |role| && role[Addr(blk, ip, bn)] == Data(i, bn)
  }

  /** A block that an inode owns is in the slot it names, so none is lost. */
  ghost predicate OwnerOk(blk: seq<Block>, inodes: seq<Inode>, role: seq<Role>, b: nat)
    requires b < |role|
  {
    match role[b]
    case Data(i, bn) => i < |inodes| && bn < MAXFILE && Addr(blk, inodes[i], bn) == b && b != 0
    case Ind(i) => i < |inodes| && |inodes[i].addrs| == NDIRECT + 1 && inodes[i].addrs[NDIRECT] == b && b != 0
    case _ => true
  }

  /** A file has a block for each of its bytes. */
  ghost predicate SizeOk(blk: seq<Block>, ip: Inode) {
    ip.size <= MAXFILE * BSIZE &&
    forall bn: nat {:trigger Addr(blk, ip, bn)} :: bn * BSIZE < ip.size ==> Addr(blk, ip, bn) != 0
  }

  /** bit b of the free map that starts at block `start`. */
  predicate InUse(blk: seq<Block>, start: nat, b: nat) {
    start + b / BPB < |blk| && |blk[start + b / BPB]| == BSIZE && Bit(blk[start + b / BPB], b % BPB)
  }

  ghost predicate BitOk(blk: seq<Block>, role: seq<Role>, start: nat, b: nat)
    requires b < |role|
  {
    start + b / BPB < |role| && role[start + b / BPB] == Meta && (InUse(blk, start, b) <==> role[b] != Free)
  }

  /** The free map has a bit for exactly the blocks in use; the map itself is metadata. */
  ghost predicate MapOk(blk: seq<Block>, role: seq<Role>, start: nat) {
    && |role| == |blk| && 0 < |blk| && role[0] == Meta
    && (forall b: nat {:trigger BitOk(blk, role, start, b)} :: b < |role| ==> BitOk(blk, role, start, b))
  }

  ghost predicate Owned(blk: seq<Block>, inodes: seq<Inode>, role: seq<Role>) {
    && |role| == |blk| && Shape(blk, inodes)
    && (forall i: nat {:trigger SlotsOk(blk, inodes, role, i)} :: i < |inodes| ==> SlotsOk(blk, inodes, role, i))
    && (forall b: nat {:trigger OwnerOk(blk, inodes, role, b)} :: b < |role| ==> OwnerOk(blk, inodes, role, b))
  }

  /** Between operations no block is in balloc's hands. */
  ghost predicate Settled(role: seq<Role>) {
    forall b {:trigger role[b]} :: 0 <= b < |role| ==> role[b] != Loose
  }

  ghost predicate FsOk(blk: seq<Block>, inodes: seq<Inode>, role: seq<Role>, start: nat) {
    && Owned(blk, inodes, role) && MapOk(blk, role, start) && Settled(role)
    && (forall i: nat {:trigger inodes[i]} :: i < |inodes| ==> SizeOk(blk, inodes[i]))
  }

  /** Byte k of a file. */
  function ByteAt(blk: seq<Block>, ip: Inode, k: nat): Byte {
    var a := Addr(blk, ip, k / BSIZE);
    if a < |blk| && |blk[a]| == BSIZE then blk[a][k % BSIZE] else 0
  }

  function Contents(blk: seq<Block>, ip: Inode): (r: seq<Byte>)
    ensures |r| == ip.size && forall k :: 0 <= k < |r| ==> r[k] == ByteAt(blk, ip, k)
  {
    seq(ip.size, k requires 0 <= k < ip.size => ByteAt(blk, ip, k))
  }

  /** No block is referred to by two slots: not by two files, not twice in one, not as data and as an indirect block. */
  lemma OneOwner(blk: seq<Block>, inodes: seq<Inode>, role: seq<Role>, i: nat, m: nat, j: nat, n: nat)
    requires Owned(blk, inodes, role) && i < |inodes| && j < |inodes|
    requires Addr(blk, inodes[i], m) != 0
    ensures Addr(blk, inodes[i], m) == Addr(blk, inodes[j], n) ==> i == j && m == n
    ensures Addr(blk, inodes[i], m) != inodes[j].addrs[NDIRECT]
    ensures i != j && inodes[i].addrs[NDIRECT] != 0 ==> inodes[i].addrs[NDIRECT] != inodes[j].addrs[NDIRECT]
  {
    assert SlotsOk(blk, inodes, role, i) && SlotsOk(blk, inodes, role, j);
  }

  // ----- Changing one block that maps nothing -----

  lemma AddrFrame(blk: seq<Block>, inodes: seq<Inode>, role: seq<Role>, b: nat, page: Block, i: nat, bn: nat)
    requires Owned(blk, inodes, role) && b < |blk| && !role[b].Ind? && |page| == BSIZE && i < |inodes|
    ensures Addr(blk[b := page], inodes[i], bn) == Addr(blk, inodes[i], bn)
  {
    assert SlotsOk(blk, inodes, role, i);
  }

  lemma OwnedFrame(blk: seq<Block>, inodes: seq<Inode>, role: seq<Role>, b: nat, page: Block)
    requires Owned(blk, inodes, role) && b < |blk| && !role[b].Ind? && |page| == BSIZE
    ensures Owned(blk[b := page], inodes, role)
    ensures forall i: nat, bn: nat {:trigger Addr(blk[b := page], inodes[i], bn)} :: i < |inodes| ==>
              Addr(blk[b := page], inodes[i], bn) == Addr(blk, inodes[i], bn)
  {
    var blk' := blk[b := page];
    forall i: nat, bn: nat | i < |inodes| ensures Addr(blk', inodes[i], bn) == Addr(blk, inodes[i], bn) {
      AddrFrame(blk, inodes, role, b, page, i, bn);
    }
    forall i: nat | i < |inodes| ensures SlotsOk(blk', inodes, role, i) { assert SlotsOk(blk, inodes, role, i); }
    forall x: nat | x < |role| ensures OwnerOk(blk', inodes, role, x) { assert OwnerOk(blk, inodes, role, x); }
  }

  /** Free, Loose and Meta may be exchanged without touching ownership. */
  lemma OwnedRename(blk: seq<Block>, inodes: seq<Inode>, role: seq<Role>, b: nat, r: Role)
    requires Owned(blk, inodes, role) && b < |role|
    requires !role[b].Data? && !role[b].Ind? && !r.Data? && !r.Ind?
    ensures Owned(blk, inodes, role[b := r])
  {
    var role' := role[b := r];
    forall i: nat | i < |inodes| ensures SlotsOk(blk, inodes, role', i) { assert SlotsOk(blk, inodes, role, i); }
    forall x: nat | x < |role| ensures OwnerOk(blk, inodes, role', x) { assert OwnerOk(blk, inodes, role, x); }
  }

  // ----- The bitmap -----

  function Zero(): (r: Block)
    ensures |r| == BSIZE && forall k :: 0 <= k < BSIZE ==> r[k] == 0
  {
    seq(BSIZE, _ => 0)
  }

  lemma SameBlockSameBit(x: nat, b: nat)
    ensures x / BPB == b / BPB && x % BPB == b % BPB ==> x == b
  {
    assert x == x / BPB * BPB + x % BPB && b == b / BPB * BPB + b % BPB;
  }

  lemma BitFlip(blk: seq<Block>, role: seq<Role>, start: nat, b: nat, r: Role, x: nat)
    requires MapOk(blk, role, start) && b < |role| && role[b] != Meta && r != Meta && x < |role|
    requires start + b / BPB < |blk| && |blk[start + b / BPB]| == BSIZE
    ensures var m := start + b / BPB;
      BitOk(blk[m := if r == Free then ClearBit(blk[m], b % BPB) else SetBit(blk[m], b % BPB)], role[b := r], start, x)
  {
    assert BitOk(blk, role, start, x) && BitOk(blk, role, start, b);
    SameBlockSameBit(x, b);
    if start + x / BPB == start + b / BPB {
      BitsAfter(blk[start + b / BPB], b % BPB, x % BPB);
    }
  }

  /** Setting or clearing the bit of b and giving it the matching role keeps the map right. */
  lemma MapKept(blk: seq<Block>, role: seq<Role>, start: nat, b: nat, r: Role)
    requires MapOk(blk, role, start) && b < |role| && role[b] != Meta && r != Meta
    requires start + b / BPB < |blk| && |blk[start + b / BPB]| == BSIZE
    ensures var m := start + b / BPB;
      && m != b && role[m] == Meta
      && MapOk(blk[m := if r == Free then ClearBit(blk[m], b % BPB) else SetBit(blk[m], b % BPB)], role[b := r], start)
  {
    assert BitOk(blk, role, start, b);
    var m := start + b / BPB;
    var blk', role' := blk[m := if r == Free then ClearBit(blk[m], b % BPB) else SetBit(blk[m], b % BPB)], role[b := r];
    forall x: nat | x < |role'| ensures BitOk(blk', role', start, x) {
      BitFlip(blk, role, start, b, r, x);
    }
  }

  lemma MapIgnores(blk: seq<Block>, role: seq<Role>, start: nat, b: nat, page: Block, r: Role)
    requires MapOk(blk, role, start) && b < |role| && role[b] != Meta && role[b] != Free && r != Meta && r != Free
    ensures MapOk(blk[b := page], role[b := r], start)
  {
    var blk', role' := blk[b := page], role[b := r];
    forall x: nat | x < |role'| ensures BitOk(blk', role', start, x) {
      assert BitOk(blk, role, start, x);
    }
  }

  // ----- Filling one slot of an inode -----

  predicate Of(r: Role, i: nat) { (r.Data? || r.Ind?) && r.ino == i }

  /** Blocks may have been taken, all of them free before and referred to by inode i now; no other use changed. */
  ghost predicate TakenFor(role0: seq<Role>, role1: seq<Role>, i: nat) {
    |role0| == |role1| && forall b {:trigger role1[b]} :: 0 <= b < |role0| ==>
      role1[b] == role0[b] || (role0[b] == Free && Of(role1[b], i))
  }

  /** Slot bn of inode i may have been filled; no other address, role, size or data changed. */
  ghost predicate Extends(blk0: seq<Block>, ino0: seq<Inode>, role0: seq<Role>,
                          blk1: seq<Block>, ino1: seq<Inode>, role1: seq<Role>, i: nat, bn: nat) {
    && |blk0| == |blk1| == |role0| == |role1| && |ino0| == |ino1|
    && (forall j {:trigger ino1[j]} :: 0 <= j < |ino0| ==> ino1[j].size == ino0[j].size)
    && (forall j: nat, n: nat {:trigger Addr(blk1, ino1[j], n)} :: j < |ino0| && !(j == i && n == bn) ==>
          Addr(blk1, ino1[j], n) == Addr(blk0, ino0[j], n))
    && (i < |ino0| && Addr(blk0, ino0[i], bn) != 0 ==> Addr(blk1, ino1[i], bn) == Addr(blk0, ino0[i], bn))
    && TakenFor(role0, role1, i)
    && (forall b {:trigger blk1[b]} :: 0 <= b < |blk0| && role0[b].Data? ==> blk1[b] == blk0[b])
  }

  lemma SetDirect(blk: seq<Block>, inodes: seq<Inode>, role: seq<Role>, i: nat, bn: nat, b: nat)
    requires Owned(blk, inodes, role) && i < |inodes| && bn < NDIRECT && inodes[i].addrs[bn] == 0
    requires 0 < b < |role| && role[b] == Loose
    ensures var ino', role' := inodes[i := inodes[i].(addrs := inodes[i].addrs[bn := b])], role[b := Data(i, bn)];
      && Owned(blk, ino', role') && Addr(blk, ino'[i], bn) == b
      && forall j: nat, n: nat {:trigger Addr(blk, ino'[j], n)} :: j < |inodes| && !(j == i && n == bn) ==>
           Addr(blk, ino'[j], n) == Addr(blk, inodes[j], n)
  {
    var ino', role' := inodes[i := inodes[i].(addrs := inodes[i].addrs[bn := b])], role[b := Data(i, bn)];
    forall j: nat | j < |inodes| ensures SlotsOk(blk, ino', role', j) {
      assert SlotsOk(blk, inodes, role, j);
      forall n: nat | Addr(blk, ino'[j], n) != 0
        ensures Addr(blk, ino'[j], n) < |role'| && role'[Addr(blk, ino'[j], n)] == Data(j, n)
      {
        if !(j == i && n == bn) { assert Addr(blk, ino'[j], n) == Addr(blk, inodes[j], n); }
      }
    }
    forall x: nat | x < |role| ensures OwnerOk(blk, ino', role', x) { assert OwnerOk(blk, inodes, role, x); }
  }

  lemma SetIndirect(blk: seq<Block>, inodes: seq<Inode>, role: seq<Role>, i: nat, b: nat)
    requires Owned(blk, inodes, role) && i < |inodes| && inodes[i].addrs[NDIRECT] == 0
    requires 0 < b < |role| && role[b] == Loose && blk[b] == Zero()
    ensures var ino', role' := inodes[i := inodes[i].(addrs := inodes[i].addrs[NDIRECT := b])], role[b := Ind(i)];
      && Owned(blk, ino', role')
      && forall j: nat, n: nat {:trigger Addr(blk, ino'[j], n)} :: j < |inodes| ==> Addr(blk, ino'[j], n) == Addr(blk, inodes[j], n)
  {
    var ino', role' := inodes[i := inodes[i].(addrs := inodes[i].addrs[NDIRECT := b])], role[b := Ind(i)];
    forall j: nat, n: nat | j < |inodes| ensures Addr(blk, ino'[j], n) == Addr(blk, inodes[j], n) {
      if j == i && NDIRECT <= n < MAXFILE { assert Word(Zero(), n - NDIRECT) == 0; }
    }
    forall j: nat | j < |inodes| ensures SlotsOk(blk, ino', role', j) {
      assert SlotsOk(blk, inodes, role, j);
      forall bn: nat | Addr(blk, ino'[j], bn) != 0
        ensures Addr(blk, ino'[j], bn) < |role'| && role'[Addr(blk, ino'[j], bn)] == Data(j, bn)
      {
        assert Addr(blk, ino'[j], bn) == Addr(blk, inodes[j], bn);
      }
    }
    forall x: nat | x < |role| ensures OwnerOk(blk, ino', role', x) {
      assert OwnerOk(blk, inodes, role, x);
      if role[x].Data? { assert Addr(blk, ino'[role[x].ino], role[x].bn) == x; }
    }
  }

  lemma SetSlot(blk: seq<Block>, inodes: seq<Inode>, role: seq<Role>, i: nat, bn: nat, b: nat)
    requires Owned(blk, inodes, role) && i < |inodes| && NDIRECT <= bn < MAXFILE
    requires 0 != inodes[i].addrs[NDIRECT] < |blk| && Addr(blk, inodes[i], bn) == 0
    requires 0 < b < |role| && role[b] == Loose
    ensures var a := inodes[i].addrs[NDIRECT];
      var blk', role' := blk[a := PutWord(blk[a], bn - NDIRECT, b)], role[b := Data(i, bn)];
      && role[a] == Ind(i) && Owned(blk', inodes, role') && Addr(blk', inodes[i], bn) == b
      && forall j: nat, n: nat {:trigger Addr(blk', inodes[j], n)} :: j < |inodes| && !(j == i && n == bn) ==>
           Addr(blk', inodes[j], n) == Addr(blk, inodes[j], n)
  {
    var a := inodes[i].addrs[NDIRECT];
    var blk', role' := blk[a := PutWord(blk[a], bn - NDIRECT, b)], role[b := Data(i, bn)];
    assert SlotsOk(blk, inodes, role, i);
    forall j: nat, n: nat | j < |inodes|
      ensures Addr(blk', inodes[j], n) == if j == i && n == bn then b else Addr(blk, inodes[j], n)
    {
      assert SlotsOk(blk, inodes, role, j);
      if j == i && NDIRECT <= n < MAXFILE { PutWordGet(blk[a], bn - NDIRECT, b, n - NDIRECT); }
    }
    forall j: nat | j < |inodes| ensures SlotsOk(blk', inodes, role', j) {
      assert SlotsOk(blk, inodes, role, j);
      forall n: nat | Addr(blk', inodes[j], n) != 0
        ensures Addr(blk', inodes[j], n) < |role'| && role'[Addr(blk', inodes[j], n)] == Data(j, n)
      {
        assert Addr(blk', inodes[j], n) == if j == i && n == bn then b else Addr(blk, inodes[j], n);
      }
    }
    forall x: nat | x < |role| ensures OwnerOk(blk', inodes, role', x) { assert OwnerOk(blk, inodes, role, x); }
  }

  /** What a file holds does not depend on slots beyond its size. */
  lemma ContentsKept(blk0: seq<Block>, ino0: seq<Inode>, role0: seq<Role>,
                     blk1: seq<Block>, ino1: seq<Inode>, role1: seq<Role>, i: nat, bn: nat, j: nat)
    requires Owned(blk0, ino0, role0) && Extends(blk0, ino0, role0, blk1, ino1, role1, i, bn) && Shape(blk1, ino1)
    requires j < |ino0| && SizeOk(blk0, ino0[j])
    ensures Contents(blk1, ino1[j]) == Contents(blk0, ino0[j])
  {
    forall k | 0 <= k < ino0[j].size ensures ByteAt(blk1, ino1[j], k) == ByteAt(blk0, ino0[j], k) {
      assert Addr(blk0, ino0[j], k / BSIZE) != 0;
      assert SlotsOk(blk0, ino0, role0, j);
      assert Addr(blk1, ino1[j], k / BSIZE) == Addr(blk0, ino0[j], k / BSIZE);
    }
  }

  /** What balloc reads in the free map: bit bi of its q-th block. */
  lemma BitRead(blk: seq<Block>, role: seq<Role>, start: nat, q: nat, bi: nat)
    requires MapOk(blk, role, start) && bi < BPB && q * BPB + bi < |role|
    requires forall x {:trigger blk[x]} :: 0 <= x < |blk| ==> |blk[x]| == BSIZE
    ensures q * BPB / BPB == q && start + q < |blk| && |blk[start + q]| == BSIZE
    ensures Bit(blk[start + q], bi) <==> role[q * BPB + bi] != Free
  {
    assert BitOk(blk, role, start, q * BPB + bi);
    assert (q * BPB + bi) / BPB == q && (q * BPB + bi) % BPB == bi;
  }

  lemma ExtendsOn(b0: seq<Block>, i0: seq<Inode>, r0: seq<Role>, b1: seq<Block>, i1: seq<Inode>, r1: seq<Role>,
                  b2: seq<Block>, i2: seq<Inode>, r2: seq<Role>, i: nat, bn: nat)
    requires Extends(b0, i0, r0, b1, i1, r1, i, bn) && Extends(b1, i1, r1, b2, i2, r2, i, bn)
    ensures Extends(b0, i0, r0, b2, i2, r2, i, bn)
  {
    forall j | 0 <= j < |i0| ensures i2[j].size == i0[j].size { assert i1[j].size == i0[j].size; }
    forall j: nat, n: nat | j < |i0| && !(j == i && n == bn) ensures Addr(b2, i2[j], n) == Addr(b0, i0[j], n) {
      assert Addr(b1, i1[j], n) == Addr(b0, i0[j], n);
    }
    forall b | 0 <= b < |r0| && r0[b] != Free ensures r2[b] == r0[b] { assert r1[b] == r0[b]; }
    forall b | 0 <= b < |b0| && r0[b].Data? ensures b2[b] == b0[b] { assert r1[b] == r0[b] && b1[b] == b0[b]; }
  }

  lemma SizesKept(b0: seq<Block>, i0: seq<Inode>, r0: seq<Role>, b1: seq<Block>, i1: seq<Inode>, r1: seq<Role>, i: nat, bn: nat)
    requires Extends(b0, i0, r0, b1, i1, r1, i, bn)
    requires forall j: nat {:trigger i0[j]} :: j < |i0| ==> SizeOk(b0, i0[j])
    ensures forall j: nat {:trigger i1[j]} :: j < |i1| ==> SizeOk(b1, i1[j])
  {
    forall j: nat | j < |i1| ensures SizeOk(b1, i1[j]) {
      assert i1[j].size == i0[j].size && SizeOk(b0, i0[j]);
      forall n: nat | n * BSIZE < i1[j].size ensures Addr(b1, i1[j], n) != 0 {
        assert Addr(b0, i0[j], n) != 0;
        if !(j == i && n == bn) { assert Addr(b1, i1[j], n) == Addr(b0, i0[j], n); }
      }
    }
  }

  /** Block b is part of the free map of a disk of n blocks. */
  predicate InMap(start: nat, n: nat, b: nat) { start <= b && (b - start) * BPB < n }

  /** Metadata is as it was, apart from the free map. */
  ghost predicate MetaKept(b0: seq<Block>, b1: seq<Block>, role0: seq<Role>, start: nat) {
    |b0| == |b1| == |role0| && forall b {:trigger b1[b]} :: 0 <= b < |b0| && role0[b] == Meta && !InMap(start, |role0|, b) ==>
      b1[b] == b0[b]
  }

  ghost predicate NoneFree(role: seq<Role>) {
    forall x {:trigger role[x]} :: 0 <= x < |role| ==> role[x] != Free
  }

  /** What balloc does, to everybody else. */
  ghost predicate Claimed(b0: seq<Block>, r0: seq<Role>, b1: seq<Block>, r1: seq<Role>, inodes: seq<Inode>, r: nat) {
    && |b0| == |b1| == |r0| && 0 < r < |r0| && r0[r] == Free && r1 == r0[r := Loose] && b1[r] == Zero()
    && (forall x {:trigger b1[x]} :: 0 <= x < |b1| && x != r && r0[x] != Meta ==> b1[x] == b0[x])
    && (forall i: nat, bn: nat {:trigger Addr(b1, inodes[i], bn)} :: i < |inodes| ==>
          Addr(b1, inodes[i], bn) == Addr(b0, inodes[i], bn))
  }

  // ----- The code -----

  /** The buffers' contents and the inode table; `start` is sb.bmapstart, and sb.size the number of blocks. */
  class FileSystem {
    var blk: seq<Block>
    var inodes: seq<Inode>
    const start: nat
    ghost var role: seq<Role>

    ghost predicate Valid()
      reads this
    {
      FsOk(blk, inodes, role, start)
    }

    /** A well-formed image, as mkfs or an earlier run leaves it. */
    constructor (blocks: seq<Block>, table: seq<Inode>, bmapstart: nat, ghost use: seq<Role>)
      requires FsOk(blocks, table, use, bmapstart)
      ensures Valid() && blk == blocks && inodes == table && start == bmapstart && role == use
    {
      blk, inodes, start, role := blocks, table, bmapstart, use;
    }

    /** balloc's search, bitmap block by bitmap block; |blk| when no bit is clear. */
    method FindFree() returns (r: nat)
      requires Shape(blk, inodes) && MapOk(blk, role, start)
      ensures r <= |blk| && (r < |blk| ==> role[r] == Free)
      ensures forall x {:trigger role[x]} :: 0 <= x < r && x < |role| ==> role[x] != Free
    {
      ghost var blk0, role0 := blk, role;
      var b := 0;
      ghost var q := 0;
      while b < |blk|
        invariant b == q * BPB
        invariant forall x {:trigger role0[x]} :: 0 <= x < b && x < |role0| ==> role0[x] != Free
      {
        BitRead(blk0, role0, start, q, 0);
        var bp := blk[start + b / BPB];
        assert bp == blk0[start + q];
        var bi := 0;
        while bi < BPB && b + bi < |blk|
          invariant bi <= BPB
          invariant forall x {:trigger role0[x]} :: 0 <= x < b + bi && x < |role0| ==> role0[x] != Free
        {
          BitRead(blk0, role0, start, q, bi);
          if !Bit(bp, bi) { return b + bi; }
          bi := bi + 1;
        }
        b := b + BPB;
        q := q + 1;
      }
      r := |blk|;
    }

    /** The first free block, marked in use and zeroed; 0 only when there is none. */
    method Balloc() returns (r: nat)
      requires Owned(blk, inodes, role) && MapOk(blk, role, start)
      modifies this`blk, this`role
      ensures Owned(blk, inodes, role) && MapOk(blk, role, start)
      ensures r == 0 ==> blk == old(blk) && role == old(role) && NoneFree(role)
      ensures r != 0 ==> Claimed(old(blk), old(role), blk, role, inodes, r)
      ensures r != 0 ==> forall x {:trigger old(role)[x]} :: 0 <= x < r ==> old(role)[x] != Free
      ensures MetaKept(old(blk), blk, old(role), start)
    {
      r := FindFree();
      if r == |blk| { return 0; }
      Claim(r);
    }

    /** Mark block b in use and zero it. */
    method Claim(b: nat)
      requires Owned(blk, inodes, role) && MapOk(blk, role, start) && b < |blk| && role[b] == Free
      modifies this`blk, this`role
      ensures Owned(blk, inodes, role) && MapOk(blk, role, start)
      ensures Claimed(old(blk), old(role), blk, role, inodes, b)
      ensures MetaKept(old(blk), blk, old(role), start)
    {
      ghost var blk0, role0 := blk, role;
      assert BitOk(blk, role, start, b);
      var m := start + b / BPB;
      MapKept(blk, role, start, b, Loose);
      OwnedFrame(blk, inodes, role, m, SetBit(blk[m], b % BPB));
      blk := blk[m := SetBit(blk[m], b % BPB)];
      assert InMap(start, |role0|, m) && MetaKept(blk0, blk, role0, start);
      OwnedRename(blk, inodes, role, b, Loose);
      role := role[b := Loose];
      ghost var blk1 := blk;
      MapIgnores(blk, role, start, b, Zero(), Loose);
      OwnedFrame(blk, inodes, role, b, Zero());
      blk := blk[b := Zero()];                 // bzero
      assert role[b := Loose] == role;
    }

    /** Its panic is the second requires. Ownership is for the caller to restore. */
    method Bfree(b: nat)
      requires MapOk(blk, role, start) && Shape(blk, inodes) && b < |blk|
      requires role[b] != Free && role[b] != Meta
      modifies this`blk, this`role
      ensures MapOk(blk, role, start) && Shape(blk, inodes) && role == old(role)[b := Free] && |blk| == |old(blk)|
      ensures forall x {:trigger blk[x]} :: 0 <= x < |blk| && old(role)[x] != Meta ==> blk[x] == old(blk)[x]
      ensures MetaKept(old(blk), blk, old(role), start)
    {
      assert BitOk(blk, role, start, b);
      var m := start + b / BPB;
      assert Bit(blk[m], b % BPB);              // else panic("freeing free block")
      MapKept(blk, role, start, b, Free);
      blk := blk[m := ClearBit(blk[m], b % BPB)];
      role := role[b := Free];
    }

    /** bmap's first case. */
    method BmapDirect(i: nat, bn: nat) returns (addr: nat)
      requires Valid() && i < |inodes| && bn < NDIRECT
      modifies this
      ensures Valid() && Extends(old(blk), old(inodes), old(role), blk, inodes, role, i, bn)
      ensures addr == Addr(blk, inodes[i], bn) && (addr == 0 ==> NoneFree(role))
      ensures Addr(old(blk), old(inodes)[i], bn) != 0 || addr == 0 ==> blk == old(blk) && inodes == old(inodes) && role == old(role)
      ensures MetaKept(old(blk), blk, old(role), start)
    {
      ghost var b0, i0, r0 := blk, inodes, role;
      assert SlotsOk(blk, inodes, role, i);
      addr := inodes[i].addrs[bn];
      if addr == 0 {
        addr := Balloc();
        if addr == 0 { return 0; }
        ghost var b1, r1 := blk, role;
        assert |inodes[i].addrs| == NDIRECT + 1;
        SetDirect(blk, inodes, role, i, bn, addr);
        inodes := inodes[i := inodes[i].(addrs := inodes[i].addrs[bn := addr])];
        MapIgnores(blk, role, start, addr, blk[addr], Data(i, bn));
        assert blk[addr := blk[addr]] == blk;
        role := role[addr := Data(i, bn)];
        FilledDirect(b0, i0, r0, b1, r1, inodes, role, i, bn, addr);
        SizesKept(b0, i0, r0, blk, inodes, role, i, bn);
      }
    }

    /** Loads the indirect block, allocating it if necessary; no address changes. */
    method LoadIndirect(i: nat, ghost bn: nat) returns (addr: nat)
      requires Valid() && i < |inodes|
      modifies this
      ensures Valid() && Extends(old(blk), old(inodes), old(role), blk, inodes, role, i, bn)
      ensures |inodes[i].addrs| == NDIRECT + 1 && addr == inodes[i].addrs[NDIRECT] && addr < |blk|
      ensures addr == 0 ==> NoneFree(role)
      ensures Addr(blk, inodes[i], bn) == Addr(old(blk), old(inodes)[i], bn)
      ensures old(inodes)[i].addrs[NDIRECT] != 0 || addr == 0 ==> blk == old(blk) && inodes == old(inodes) && role == old(role)
      ensures MetaKept(old(blk), blk, old(role), start)
    {
      ghost var b0, i0, r0 := blk, inodes, role;
      assert SlotsOk(blk, inodes, role, i);
      addr := inodes[i].addrs[NDIRECT];
      if addr == 0 {
        addr := Balloc();
        if addr == 0 { return 0; }
        ghost var b1, r1 := blk, role;
        SetIndirect(blk, inodes, role, i, addr);
        inodes := inodes[i := inodes[i].(addrs := inodes[i].addrs[NDIRECT := addr])];
        MapIgnores(blk, role, start, addr, blk[addr], Ind(i));
        assert blk[addr := blk[addr]] == blk;
        role := role[addr := Ind(i)];
        FilledIndirect(b0, i0, r0, b1, r1, inodes, role, i, bn, addr);
        SizesKept(b0, i0, r0, blk, inodes, role, i, bn);
      }
    }

    /** bmap's second case. */
    method BmapIndirect(i: nat, bn: nat) returns (addr: nat)
      requires Valid() && i < |inodes| && NDIRECT <= bn < MAXFILE
      modifies this
      ensures Valid() && Extends(old(blk), old(inodes), old(role), blk, inodes, role, i, bn)
      ensures addr == Addr(blk, inodes[i], bn) && (addr == 0 ==> NoneFree(role))
      ensures Addr(old(blk), old(inodes)[i], bn) != 0 ==> blk == old(blk) && inodes == old(inodes) && role == old(role)
      ensures MetaKept(old(blk), blk, old(role), start)
    {
      ghost var b0, i0, r0 := blk, inodes, role;
      assert SlotsOk(blk, inodes, role, i);
      var a := LoadIndirect(i, bn);
      if a == 0 { return 0; }
      addr := Word(blk[a], bn - NDIRECT);
      assert addr == Addr(blk, inodes[i], bn);
      if addr == 0 {
        ghost var b1, i1, r1 := blk, inodes, role;
        addr := Balloc();
        if addr != 0 {
          ghost var b2, r2 := blk, role;
          FillSlot(i, bn, a, addr);
          FilledSlot(b1, i1, r1, b2, r2, blk, role, i, bn, addr);
          SizesKept(b1, i1, r1, blk, inodes, role, i, bn);
          ExtendsOn(b0, i0, r0, b1, i1, r1, blk, inodes, role, i, bn);
        }
      }
    }

    /** a[bn] = addr, in the indirect block. */
    method FillSlot(i: nat, bn: nat, a: nat, addr: nat)
      requires Owned(blk, inodes, role) && MapOk(blk, role, start) && i < |inodes| && NDIRECT <= bn < MAXFILE
      requires |inodes[i].addrs| == NDIRECT + 1 && a == inodes[i].addrs[NDIRECT] && 0 < a < |blk|
      requires Addr(blk, inodes[i], bn) == 0 && 0 < addr < |blk| && role[addr] == Loose
      modifies this`blk, this`role
      ensures Owned(blk, inodes, role) && MapOk(blk, role, start)
      ensures old(role)[a] == Ind(i) && |old(blk)[a]| == BSIZE && addr < UINT
      ensures blk == old(blk)[a := PutWord(old(blk)[a], bn - NDIRECT, addr)] && role == old(role)[addr := Data(i, bn)]
      ensures Addr(blk, inodes[i], bn) == addr
      ensures forall j: nat, n: nat {:trigger Addr(blk, inodes[j], n)} :: j < |inodes| && !(j == i && n == bn) ==>
                Addr(blk, inodes[j], n) == Addr(old(blk), inodes[j], n)
      ensures MetaKept(old(blk), blk, old(role), start)
    {
      ghost var b0, r0 := blk, role;
      SetSlot(blk, inodes, role, i, bn, addr);
      MapIgnores(b0, r0, start, a, PutWord(blk[a], bn - NDIRECT, addr), Ind(i));
      assert r0[a := Ind(i)] == r0;
      blk := blk[a := PutWord(blk[a], bn - NDIRECT, addr)];
      MapIgnores(blk, r0, start, addr, blk[addr], Data(i, bn));
      assert blk[addr := blk[addr]] == blk;
      role := role[addr := Data(i, bn)];
    }

    /** The address of block bn of the file, allocated if there is none; 0 only when the disk is full. */
    method Bmap(i: nat, bn: nat) returns (addr: nat)
      requires Valid() && i < |inodes| && bn < MAXFILE                    // else panic("bmap: out of range")
      modifies this
      ensures Valid() && Extends(old(blk), old(inodes), old(role), blk, inodes, role, i, bn)
      ensures addr == Addr(blk, inodes[i], bn) && (addr == 0 ==> NoneFree(role))
      ensures Addr(old(blk), old(inodes)[i], bn) != 0 ==> blk == old(blk) && inodes == old(inodes) && role == old(role)
      ensures MetaKept(old(blk), blk, old(role), start)
      ensures if bn < NDIRECT then bn < |inodes[i].addrs| && addr == inodes[i].addrs[bn]
              else addr != 0 ==> NDIRECT < |inodes[i].addrs| && 0 < inodes[i].addrs[NDIRECT] < |blk|
      ensures NDIRECT <= bn && addr != 0 ==> |blk[inodes[i].addrs[NDIRECT]]| == BSIZE
      ensures NDIRECT <= bn && addr != 0 ==> addr == Word(blk[inodes[i].addrs[NDIRECT]], bn - NDIRECT)
    {
      if bn < NDIRECT {
        addr := BmapDirect(i, bn);
      } else {
        addr := BmapIndirect(i, bn);
      }
    }

    /** All of the file from `off` on, at most n bytes; nothing when `off` lies beyond the end or off + n wraps. */
    method Readi(i: nat, off: nat, n: nat) returns (data: seq<Byte>)
      requires Valid() && i < |inodes| && off < UINT && n < UINT
      modifies this
      ensures Valid() && blk == old(blk) && inodes == old(inodes) && role == old(role)
      ensures data == Slice(Contents(blk, inodes[i]), off, n)
      ensures if off <= inodes[i].size && off + n < UINT then
                && |data| == (if off + n <= inodes[i].size then n else inodes[i].size - off)
                && forall k :: 0 <= k < |data| ==> data[k] == ByteAt(blk, inodes[i], off + k)
              else
                data == []
    {
      data := [];
      Wraps(off, n);
      if off > inodes[i].size || (off + n) % UINT < off { return; }
      var len := n;
      if off + n > inodes[i].size { len := inodes[i].size - off; }
      ghost var b0, i0, r0 := blk, inodes, role;
      ghost var c := Contents(b0, i0[i]);
      var tot := 0;
      while tot < len
        invariant Valid() && blk == b0 && inodes == i0 && role == r0
        invariant tot == |data| <= len && data == c[off..off + tot]
      {
        var some := ReadSome(i, off, tot, len);
        data := data + some;
        tot := tot + |some|;
      }
    }

    /** One turn of readi's loop: bytes up to the end of a block. */
    method ReadSome(i: nat, off: nat, tot: nat, len: nat) returns (some: seq<Byte>)
      requires Valid() && i < |inodes| && tot < len && off + len <= inodes[i].size
      modifies this
      ensures Valid() && blk == old(blk) && inodes == old(inodes) && role == old(role)
      ensures 0 < |some| <= len - tot
      ensures Contents(blk, inodes[i])[off..off + tot + |some|] == Contents(blk, inodes[i])[off..off + tot] + some
    {
      var at := off + tot;
      assert Addr(blk, inodes[i], at / BSIZE) != 0 by { assert SizeOk(blk, inodes[i]); }
      var addr := Bmap(i, at / BSIZE);
      assert addr != 0;                            // else the loop would end early
      assert SlotsOk(blk, inodes, role, i);
      var m := Min(len - tot, BSIZE - at % BSIZE);
      SliceOfBlock(blk, inodes[i], off, tot, m);
      some := blk[addr][at % BSIZE..at % BSIZE + m];
    }

    /** memmove into the buffer of block bn, and log_write. */
    method Store(i: nat, bn: nat, addr: nat, lo: nat, bytes: seq<Byte>)
      requires Valid() && i < |inodes| && addr == Addr(blk, inodes[i], bn) != 0 && lo + |bytes| <= BSIZE
      modifies this`blk
      ensures Valid() && |blk| == |old(blk)|
      ensures StoredInto(old(blk), blk, inodes, i, bn, lo, bytes)
      ensures MetaKept(old(blk), blk, old(role), start)
    {
      ghost var b0 := blk;
      assert SlotsOk(blk, inodes, role, i);
      var page := Patched(blk[addr], lo, bytes);
      OwnedFrame(blk, inodes, role, addr, page);
      MapIgnores(blk, role, start, addr, page, Data(i, bn));
      assert role[addr := Data(i, bn)] == role;
      blk := blk[addr := page];
      forall j: nat | j < |inodes| ensures SizeOk(blk, inodes[j]) { assert SizeOk(b0, inodes[j]); }
      forall j: nat, k: nat {:trigger ByteAt(blk, inodes[j], k)} | j < |inodes|
        ensures ByteAt(blk, inodes[j], k) == if j == i && Within(k, bn, lo, |bytes|) then bytes[k % BSIZE - lo]
                                             else ByteAt(b0, inodes[j], k)
      {
        StoredByte(b0, inodes, role, i, bn, lo, bytes, addr, j, k);
      }
    }

    /** One turn of writei's loop: bytes up to the end of a block, none when the disk is full. */
    method WriteSome(i: nat, data: seq<Byte>, off: nat, tot: nat, ghost b0: seq<Block>, ghost i0: seq<Inode>) returns (m: nat)
      requires Valid() && tot < |data| && off + |data| <= MAXFILE * BSIZE
      requires Writing(b0, i0, blk, inodes, i, off, data[..tot])
      modifies this
      ensures Valid() && tot + m <= |data| && Writing(b0, i0, blk, inodes, i, off, data[..tot + m])
      ensures m == 0 ==> NoneFree(role)
      ensures m != 0 && tot + m < |data| ==> (off + tot + m) % BSIZE == 0
      ensures MetaKept(old(blk), blk, old(role), start)
      ensures TakenFor(old(role), role, i)
    {
      ghost var b1, i1, r1 := blk, inodes, role;
      var at := off + tot;
      var addr := Bmap(i, at / BSIZE);
      MappedOn(b0, i0, b1, i1, r1, blk, inodes, role, i, at / BSIZE, off, data[..tot]);
      if addr == 0 { return 0; }
      m := Min(|data| - tot, BSIZE - at % BSIZE);
      ToBlockEnd(at);
      ghost var b2 := blk;
      Store(i, at / BSIZE, addr, at % BSIZE, data[tot..tot + m]);
      WroteOn(b0, i0, b2, blk, inodes, i, off, data, tot, m);
    }

    /** writei's end: the size, and iupdate. */
    method Resize(i: nat, end: nat, ghost b0: seq<Block>, ghost i0: seq<Inode>, ghost off: nat, ghost bytes: seq<Byte>)
      requires Valid() && Writing(b0, i0, blk, inodes, i, off, bytes) && end == off + |bytes| <= MAXFILE * BSIZE
      modifies this`inodes
      ensures Valid() && |inodes| == |old(inodes)|
      ensures Contents(blk, inodes[i]) == Spliced(Contents(b0, i0[i]), off, bytes)
      ensures forall j {:trigger inodes[j]} :: 0 <= j < |inodes| && j != i ==> inodes[j] == old(inodes)[j]
    {
      ghost var size := if end > inodes[i].size then end else inodes[i].size;
      Written(b0, i0, blk, inodes, i, off, bytes, size);
      SizeFrame(blk, inodes, role, i, size);
      assert SizeOk(blk, inodes[i]);
      assert inodes[i].(size := inodes[i].size) == inodes[i];
      if end > inodes[i].size {
        inodes := inodes[i := inodes[i].(size := end)];
      }
    }

    /**
    Exactly the bytes [off, off + tot) are replaced, the file grows to hold them, every other file is as it was; tot
    falls short of n only when the disk is full, and then at the end of a block. -1, and no change, when the range is
    not allowed.
    */
    method Writei(i: nat, data: seq<Byte>, off: nat) returns (r: int)
      requires Valid() && i < |inodes| && off < UINT && |data| < UINT
      modifies this
      ensures Valid() && |inodes| == |old(inodes)|
      ensures r == -1 <==> off > old(inodes)[i].size || off + |data| >= UINT || off + |data| > MAXFILE * BSIZE
      ensures r == -1 ==> blk == old(blk) && inodes == old(inodes) && role == old(role)
      ensures r != -1 ==> 0 <= r <= |data| && (r < |data| ==> NoneFree(role))
      ensures 0 < r < |data| ==> (off + r) % BSIZE == 0
      ensures r != -1 ==> Contents(blk, inodes[i]) == Spliced(Contents(old(blk), old(inodes)[i]), off, data[..r])
      ensures forall j {:trigger inodes[j]} :: 0 <= j < |inodes| && j != i ==>
                Contents(blk, inodes[j]) == Contents(old(blk), old(inodes)[j])
      ensures MetaKept(old(blk), blk, old(role), start)
      ensures TakenFor(old(role), role, i)
    {
      ghost var b0, i0, r0 := blk, inodes, role;
      Wraps(off, |data|);
      if off > inodes[i].size || (off + |data|) % UINT < off { return -1; }
      if off + |data| > MAXFILE * BSIZE { return -1; }
      var tot := 0;
      Unwritten(b0, i0, i, off, data);
      while tot < |data|
        invariant tot <= |data| && Valid() && Writing(b0, i0, blk, inodes, i, off, data[..tot])
        invariant 0 < tot < |data| ==> (off + tot) % BSIZE == 0
        invariant TakenFor(r0, role, i) && MetaKept(b0, blk, r0, start)
      {
        var m := WriteSome(i, data, off, tot, b0, i0);
        if m == 0 { break; }
        tot := tot + m;
      }
      Resize(i, off + tot, b0, i0, off, data[..tot]);
      r := tot;
    }

    /** The file becomes empty: exactly the inode's blocks, data and indirect, are freed. */
    method Itrunc(i: nat)
      requires Valid() && i < |inodes|
      modifies this
      ensures Valid() && |inodes| == |old(inodes)| && |role| == |old(role)|
      ensures inodes[i].size == 0 && forall n :: 0 <= n <= NDIRECT ==> inodes[i].addrs[n] == 0
      ensures forall b {:trigger role[b]} :: 0 <= b < |role| ==> role[b] == if Of(old(role)[b], i) then Free else old(role)[b]
      ensures forall j {:trigger inodes[j]} :: 0 <= j < |inodes| && j != i ==>
                inodes[j] == old(inodes)[j] && Contents(blk, inodes[j]) == Contents(old(blk), old(inodes)[j])
      ensures MetaKept(old(blk), blk, old(role), start)
    {
      ghost var b0, i0, r0 := blk, inodes, role;
      assert SlotsOk(b0, i0, r0, i);
      for n := 0 to NDIRECT
        invariant Cutting(b0, i0, r0, blk, inodes, role, i, n) && MapOk(blk, role, start) && MetaKept(b0, blk, r0, start)
      {
        CutSlot(b0, i0, r0, blk, inodes, role, i, n);
        if inodes[i].addrs[n] != 0 {
          Bfree(inodes[i].addrs[n]);
          inodes := inodes[i := inodes[i].(addrs := inodes[i].addrs[n := 0])];
        }
      }
      if inodes[i].addrs[NDIRECT] != 0 {
        FreeIndirect(i, b0, i0, r0);
      } else {
        NoIndirect(b0, i0, r0, blk, inodes, role, i);
      }
      ghost var i1 := inodes;
      inodes := inodes[i := inodes[i].(size := 0)];
      Emptied(b0, i0, r0, blk, inodes, role, i);
    }

    /** itrunc's second half: the blocks the indirect block lists, then the indirect block. */
    method FreeIndirect(i: nat, ghost b0: seq<Block>, ghost i0: seq<Inode>, ghost r0: seq<Role>)
      requires FsOk(b0, i0, r0, start) && Cutting(b0, i0, r0, blk, inodes, role, i, NDIRECT) && MapOk(blk, role, start)
      requires inodes[i].addrs[NDIRECT] != 0
      modifies this
      ensures MapOk(blk, role, start) && Cut(b0, i0, r0, blk, inodes, role, i)
      ensures MetaKept(old(blk), blk, old(role), start)
    {
      assert SlotsOk(b0, i0, r0, i);
      var ind := inodes[i].addrs[NDIRECT];
      ghost var i1 := inodes;
      for j := 0 to NINDIRECT
        invariant inodes == i1 && Cutting(b0, i0, r0, blk, inodes, role, i, NDIRECT + j) && MapOk(blk, role, start)
        invariant MetaKept(old(blk), blk, old(role), start)
      {
        CutWord(b0, i0, r0, blk, inodes, role, i, j);
        if Word(blk[ind], j) != 0 {
          Bfree(Word(blk[ind], j));
        }
      }
      assert role[ind] == Ind(i);
      Bfree(ind);
      inodes := inodes[i := inodes[i].(addrs := inodes[i].addrs[NDIRECT := 0])];
      LastCut(b0, i0, r0, role, i, ind);
    }

    /** All files, as byte sequences. */
    ghost function Files(): (r: seq<seq<Byte>>)
      reads this
      ensures |r| == |inodes| && forall i :: 0 <= i < |r| ==> r[i] == Contents(blk, inodes[i])
    {
      seq(|inodes|, i requires 0 <= i < |inodes| reads this => Contents(blk, inodes[i]))
    }

    /** One call of readi, writei or itrunc. */
    method Do(op: Op) returns (a: Answer)
      requires Valid() && op.i < |inodes| && Callable(op)
      modifies this
      ensures Valid() && |inodes| == |old(inodes)| && Fits(old(Files()), op, a) && Files() == After(old(Files()), op, a)
      ensures |role| == |old(role)| && MetaKept(old(blk), blk, old(role), start)
      ensures forall b {:trigger role[b]} :: 0 <= b < |role| ==> (role[b] == Meta <==> old(role)[b] == Meta)
      ensures Used(old(role), op, a, role)
    {
      ghost var was := Files();
      match op
      case Read(i, off, n) =>
        var data := Readi(i, off, n);
        a := Got(data);
        ReadFits(was, i, off, n, data);
      case Write(i, off, data) =>
        var r := Writei(i, data, off);
        a := Wrote(r);
      case Truncate(i) =>
        Itrunc(i);
        assert Contents(blk, inodes[i]) == [];
        a := Done;
      assert Files() == After(was, op, a);
    }

    lemma MapExact()
      requires Valid()
      ensures forall b: nat {:trigger InUse(blk, start, b)} :: 0 < b < |role| ==>
                (InUse(blk, start, b) <==> role[b] == Meta || Referenced(blk, inodes, b))
    {
      forall b: nat | 0 < b < |role| ensures InUse(blk, start, b) <==> role[b] == Meta || Referenced(blk, inodes, b) {
        BitmapExact(blk, inodes, role, start, b);
      }
    }

    /**
    Any sequence of calls from a well-formed image: each does to the files, as byte sequences, what it says, the bits of
    the free map are set exactly for metadata and for blocks some inode refers to, and other metadata is untouched. `use`
    is what the blocks were used for before and after each call: a write is short only when that leaves none free.
    */
    method DoAll(ops: seq<Op>) returns (answers: seq<Answer>, ghost use: seq<seq<Role>>)
      requires Valid() && forall k :: 0 <= k < |ops| ==> ops[k].i < |inodes| && Callable(ops[k])
      modifies this
      ensures Valid() && |inodes| == |old(inodes)| && |answers| == |ops|
      ensures Explains(old(Files()), ops, answers, Files())
      ensures |role| == |old(role)| && forall b: nat {:trigger InUse(blk, start, b)} :: 0 < b < |role| ==>
                (InUse(blk, start, b) <==> old(role)[b] == Meta || Referenced(blk, inodes, b))
      ensures MetaKept(old(blk), blk, old(role), start)
      ensures |use| == |ops| + 1 && AllUsed(use, ops, answers) && use[0] == old(role) && use[|ops|] == role
      decreases |ops|
    {
      if ops == [] {
        answers, use := [], [role];
      } else {
        ghost var r0 := role;
        var a := Do(ops[0]);
        var rest;
        ghost var later;
        rest, later := DoAll(ops[1..]);
        answers, use := [a] + rest, [r0] + later;
        assert answers[1..] == rest && use[1..] == later;
      }
      MapExact();
    }
  }

  // ----- Sequences of calls -----

  datatype Op = Read(i: nat, off: nat, n: nat) | Write(i: nat, off: nat, data: seq<Byte>) | Truncate(i: nat)
  datatype Answer = Got(data: seq<Byte>) | Wrote(r: int) | Done

  /** The arguments are 32-bit numbers. */
  predicate Callable(op: Op) {
    match op
    case Read(i, off, n) => off < UINT && n < UINT
    case Write(i, off, data) => off < UINT && |data| < UINT
    case Truncate(i) => true
  }

  /** The answer is right for the files as they were. */
  predicate Fits(files: seq<seq<Byte>>, op: Op, a: Answer) {
    op.i < |files| &&
    match op
    case Read(i, off, n) =>
      a.Got? &&
      if off <= |files[i]| && off + n < UINT then
        && |a.data| == (if off + n <= |files[i]| then n else |files[i]| - off)
        && forall k :: 0 <= k < |a.data| ==> a.data[k] == files[i][off + k]
      else
        a.data == []
    case Write(i, off, data) =>
      a.Wrote? && a.r <= |data| && (0 < a.r < |data| ==> (off + a.r) % BSIZE == 0) &&
      if off > |files[i]| || off + |data| >= UINT || off + |data| > MAXFILE * BSIZE then a.r == -1 else a.r >= 0
    case Truncate(i) => a.Done?
  }

  lemma ReadFits(files: seq<seq<Byte>>, i: nat, off: nat, n: nat, data: seq<Byte>)
    requires i < |files| && data == Slice(files[i], off, n)
    ensures Fits(files, Read(i, off, n), Got(data))
  {
  }

  /** What the call makes of the blocks; a write that stopped short has found none free. */
  ghost predicate Used(r0: seq<Role>, op: Op, a: Answer, r1: seq<Role>) {
    |r1| == |r0| &&
    match op
    case Read(i, off, n) => r1 == r0
    case Write(i, off, data) => TakenFor(r0, r1, i) && (a.Wrote? && 0 <= a.r < |data| ==> NoneFree(r1))
    case Truncate(i) => forall b {:trigger r1[b]} :: 0 <= b < |r0| ==> r1[b] == if Of(r0[b], i) then Free else r0[b]
  }

  ghost predicate AllUsed(use: seq<seq<Role>>, ops: seq<Op>, answers: seq<Answer>)
    requires |use| == |ops| + 1 && |answers| == |ops|
    decreases |ops|
  {
    ops == [] || (Used(use[0], ops[0], answers[0], use[1]) && AllUsed(use[1..], ops[1..], answers[1..]))
  }

  /** What the call makes of the files; a write has replaced as many bytes as it says. */
  function After(files: seq<seq<Byte>>, op: Op, a: Answer): seq<seq<Byte>>
    requires Fits(files, op, a)
  {
    match op
    case Read(i, off, n) => files
    case Write(i, off, data) => if a.r == -1 then files else files[i := Spliced(files[i], off, data[..a.r])]
    case Truncate(i) => files[i := []]
  }

  ghost predicate Explains(files: seq<seq<Byte>>, ops: seq<Op>, answers: seq<Answer>, now: seq<seq<Byte>>)
    requires |answers| == |ops|
    decreases |ops|
  {
    if ops == [] then now == files
    else Fits(files, ops[0], answers[0]) && Explains(After(files, ops[0], answers[0]), ops[1..], answers[1..], now)
  }

  // ----- Truncation -----

  predicate DataBelow(r: Role, i: nat, n: nat) { r.Data? && r.ino == i && r.bn < n }

  /** Slots below n of inode i have been freed; the direct ones are cleared, the indirect block still lists the others. */
  ghost predicate Cutting(b0: seq<Block>, i0: seq<Inode>, r0: seq<Role>, b1: seq<Block>, i1: seq<Inode>, r1: seq<Role>,
                          i: nat, n: nat) {
    && |b0| == |b1| == |r0| == |r1| && |i0| == |i1| && i < |i0| && Shape(b0, i0) && Shape(b1, i1)
    && (forall j {:trigger i1[j]} :: 0 <= j < |i0| && j != i ==> i1[j] == i0[j])
    && i1[i].size == i0[i].size && i1[i].addrs[NDIRECT] == i0[i].addrs[NDIRECT]
    && (forall m {:trigger i1[i].addrs[m]} :: 0 <= m < NDIRECT ==> i1[i].addrs[m] == if m < n then 0 else i0[i].addrs[m])
    && (forall b {:trigger r1[b]} :: 0 <= b < |r0| ==> r1[b] == if DataBelow(r0[b], i, n) then Free else r0[b])
    && (forall b {:trigger b1[b]} :: 0 <= b < |b0| && r0[b] != Meta ==> b1[b] == b0[b])
  }

  /** All slots have been freed and cleared. */
  ghost predicate Cut(b0: seq<Block>, i0: seq<Inode>, r0: seq<Role>, b1: seq<Block>, i1: seq<Inode>, r1: seq<Role>, i: nat) {
    && |b0| == |b1| == |r0| == |r1| && |i0| == |i1| && i < |i0| && Shape(b0, i0) && Shape(b1, i1)
    && (forall j {:trigger i1[j]} :: 0 <= j < |i0| && j != i ==> i1[j] == i0[j])
    && (forall m {:trigger i1[i].addrs[m]} :: 0 <= m <= NDIRECT ==> i1[i].addrs[m] == 0)
    && (forall b {:trigger r1[b]} :: 0 <= b < |r0| ==> r1[b] == if Of(r0[b], i) then Free else r0[b])
    && (forall b {:trigger b1[b]} :: 0 <= b < |b0| && r0[b] != Meta ==> b1[b] == b0[b])
  }

  lemma CutSlot(b0: seq<Block>, i0: seq<Inode>, r0: seq<Role>, b1: seq<Block>, i1: seq<Inode>, r1: seq<Role>, i: nat, n: nat)
    requires Owned(b0, i0, r0) && Cutting(b0, i0, r0, b1, i1, r1, i, n) && n < NDIRECT
    ensures i1[i].addrs[n] == i0[i].addrs[n]
    ensures i0[i].addrs[n] != 0 ==> i0[i].addrs[n] < |r0| && r0[i0[i].addrs[n]] == r1[i0[i].addrs[n]] == Data(i, n)
    ensures forall b {:trigger r0[b]} :: 0 <= b < |r0| && r0[b] == Data(i, n) ==> b == i0[i].addrs[n] != 0
  {
    assert SlotsOk(b0, i0, r0, i);
    assert Addr(b0, i0[i], n) == i0[i].addrs[n];
    forall b | 0 <= b < |r0| && r0[b] == Data(i, n) ensures b == i0[i].addrs[n] != 0 { assert OwnerOk(b0, i0, r0, b); }
  }

  lemma CutWord(b0: seq<Block>, i0: seq<Inode>, r0: seq<Role>, b1: seq<Block>, i1: seq<Inode>, r1: seq<Role>, i: nat, j: nat)
    requires Owned(b0, i0, r0) && Cutting(b0, i0, r0, b1, i1, r1, i, NDIRECT + j) && j < NINDIRECT
    requires i1[i].addrs[NDIRECT] != 0
    ensures var ind := i1[i].addrs[NDIRECT];
      && ind < |b1| && b1[ind] == b0[ind] && r1[ind] == Ind(i)
      && var a := Word(b1[ind], j);
      && (a != 0 ==> a < |r0| && r0[a] == r1[a] == Data(i, NDIRECT + j))
      && forall b {:trigger r0[b]} :: 0 <= b < |r0| && r0[b] == Data(i, NDIRECT + j) ==> b == a != 0
  {
    assert SlotsOk(b0, i0, r0, i);
    assert Addr(b0, i0[i], NDIRECT + j) == Word(b0[i1[i].addrs[NDIRECT]], j);
    forall b | 0 <= b < |r0| && r0[b] == Data(i, NDIRECT + j) ensures b == Word(b0[i1[i].addrs[NDIRECT]], j) != 0 {
      assert OwnerOk(b0, i0, r0, b);
    }
  }

  lemma LastCut(b0: seq<Block>, i0: seq<Inode>, r0: seq<Role>, r1: seq<Role>, i: nat, ind: nat)
    requires Owned(b0, i0, r0) && i < |i0| && |r1| == |r0| && ind < |r0| && i0[i].addrs[NDIRECT] == ind
    requires forall b {:trigger r1[b]} :: 0 <= b < |r0| ==>
               r1[b] == if b == ind || DataBelow(r0[b], i, MAXFILE) then Free else r0[b]
    requires r0[ind] == Ind(i)
    ensures forall b {:trigger r1[b]} :: 0 <= b < |r0| ==> r1[b] == if Of(r0[b], i) then Free else r0[b]
  {
    forall b | 0 <= b < |r0| ensures Of(r0[b], i) <==> b == ind || DataBelow(r0[b], i, MAXFILE) { assert OwnerOk(b0, i0, r0, b); }
  }

  lemma NoIndirect(b0: seq<Block>, i0: seq<Inode>, r0: seq<Role>, b1: seq<Block>, i1: seq<Inode>, r1: seq<Role>, i: nat)
    requires Owned(b0, i0, r0) && Cutting(b0, i0, r0, b1, i1, r1, i, NDIRECT) && i1[i].addrs[NDIRECT] == 0
    ensures Cut(b0, i0, r0, b1, i1, r1, i)
  {
    forall b | 0 <= b < |r0| ensures Of(r0[b], i) <==> DataBelow(r0[b], i, NDIRECT) { assert OwnerOk(b0, i0, r0, b); }
  }

  lemma Emptied(b0: seq<Block>, i0: seq<Inode>, r0: seq<Role>, b1: seq<Block>, i1: seq<Inode>, r1: seq<Role>, i: nat)
    requires Owned(b0, i0, r0) && Cut(b0, i0, r0, b1, i1, r1, i) && i1[i].size == 0
    requires forall j: nat {:trigger i0[j]} :: j < |i0| ==> SizeOk(b0, i0[j])
    ensures Owned(b1, i1, r1) && forall j: nat {:trigger i1[j]} :: j < |i1| ==> SizeOk(b1, i1[j])
    ensures forall j {:trigger i1[j]} :: 0 <= j < |i1| && j != i ==> Contents(b1, i1[j]) == Contents(b0, i0[j])
  {
    forall j: nat, n: nat | j < |i0| && j != i ensures Addr(b1, i1[j], n) == Addr(b0, i0[j], n) {
      assert SlotsOk(b0, i0, r0, j);
    }
    forall j: nat | j < |i1| ensures SlotsOk(b1, i1, r1, j) {
      assert SlotsOk(b0, i0, r0, j);
      if j != i {
        forall n: nat | Addr(b1, i1[j], n) != 0 ensures Addr(b1, i1[j], n) < |r1| && r1[Addr(b1, i1[j], n)] == Data(j, n) {
          assert Addr(b1, i1[j], n) == Addr(b0, i0[j], n);
        }
      }
    }
    forall b: nat | b < |r1| ensures OwnerOk(b1, i1, r1, b) { assert OwnerOk(b0, i0, r0, b); }
    forall j: nat | j < |i1| ensures SizeOk(b1, i1[j]) {
      assert SizeOk(b0, i0[j]);
      if j != i {
        forall n: nat | n * BSIZE < i1[j].size ensures Addr(b1, i1[j], n) != 0 { assert Addr(b0, i0[j], n) != 0; }
      }
    }
    forall j | 0 <= j < |i1| && j != i ensures Contents(b1, i1[j]) == Contents(b0, i0[j]) {
      SameFile(b0, i0, r0, b1, i1, j);
    }
  }

  lemma SameFile(b0: seq<Block>, i0: seq<Inode>, r0: seq<Role>, b1: seq<Block>, i1: seq<Inode>, j: nat)
    requires Owned(b0, i0, r0) && j < |i0| == |i1| && i1[j] == i0[j] && |b1| == |b0| && SizeOk(b0, i0[j])
    requires forall n: nat {:trigger Addr(b1, i1[j], n)} :: Addr(b1, i1[j], n) == Addr(b0, i0[j], n)
    requires forall b {:trigger b1[b]} :: 0 <= b < |b0| && r0[b] != Meta ==> b1[b] == b0[b]
    ensures Contents(b1, i1[j]) == Contents(b0, i0[j])
  {
    assert SlotsOk(b0, i0, r0, j);
    forall k | 0 <= k < i0[j].size ensures ByteAt(b1, i1[j], k) == ByteAt(b0, i0[j], k) {
      assert Addr(b0, i0[j], k / BSIZE) != 0;
      assert Addr(b1, i1[j], k / BSIZE) == Addr(b0, i0[j], k / BSIZE);
    }
  }

  lemma ToBlockEnd(at: nat)
    ensures (at + (BSIZE - at % BSIZE)) % BSIZE == 0
  {
  }

  /** The test for a sum of two 32-bit numbers having wrapped around. */
  lemma Wraps(a: nat, b: nat)
    requires a < UINT && b < UINT
    ensures (a + b) % UINT < a <==> a + b >= UINT
  {
  }

  function Min(a: nat, b: nat): nat { if a < b then a else b }

  /** The next m bytes of the file lie next to each other in one block. */
  lemma SliceOfBlock(blk: seq<Block>, ip: Inode, off: nat, tot: nat, m: nat)
    requires off + tot + m <= ip.size && (off + tot) % BSIZE + m <= BSIZE
    requires var a := Addr(blk, ip, (off + tot) / BSIZE); a < |blk| && |blk[a]| == BSIZE
    ensures var at := off + tot;
      Contents(blk, ip)[off..off + tot + m]
        == Contents(blk, ip)[off..at] + blk[Addr(blk, ip, at / BSIZE)][at % BSIZE..at % BSIZE + m]
  {
    var at := off + tot;
    forall x: nat | at <= x < at + m
      ensures ByteAt(blk, ip, x) == blk[Addr(blk, ip, at / BSIZE)][at % BSIZE..at % BSIZE + m][x - at]
    {
      SameBlock(at, x - at);
    }
  }

  lemma SameBlock(at: nat, k: nat)
    requires at % BSIZE + k < BSIZE
    ensures (at + k) / BSIZE == at / BSIZE && (at + k) % BSIZE == at % BSIZE + k
  {
  }

  lemma FilledIndirect(b0: seq<Block>, i0: seq<Inode>, r0: seq<Role>, b1: seq<Block>, r1: seq<Role>,
                       i2: seq<Inode>, r2: seq<Role>, i: nat, bn: nat, addr: nat)
    requires Claimed(b0, r0, b1, r1, i0, addr) && i < |i0| && |i0[i].addrs| == NDIRECT + 1
    requires i2 == i0[i := i0[i].(addrs := i0[i].addrs[NDIRECT := addr])] && r2 == r1[addr := Ind(i)]
    requires forall j: nat, n: nat {:trigger Addr(b1, i2[j], n)} :: j < |i0| ==> Addr(b1, i2[j], n) == Addr(b1, i0[j], n)
    ensures Extends(b0, i0, r0, b1, i2, r2, i, bn) && Addr(b1, i2[i], bn) == Addr(b0, i0[i], bn)
  {
  }

  lemma FilledSlot(b0: seq<Block>, i0: seq<Inode>, r0: seq<Role>, b1: seq<Block>, r1: seq<Role>,
                   b2: seq<Block>, r2: seq<Role>, i: nat, bn: nat, addr: nat)
    requires Claimed(b0, r0, b1, r1, i0, addr) && i < |i0| && Addr(b0, i0[i], bn) == 0
    requires |i0[i].addrs| == NDIRECT + 1 && i0[i].addrs[NDIRECT] < |b1| && r1[i0[i].addrs[NDIRECT]] == Ind(i)
    requires |b2| == |b1| && r2 == r1[addr := Data(i, bn)]
    requires forall x {:trigger b2[x]} :: 0 <= x < |b1| && x != i0[i].addrs[NDIRECT] ==> b2[x] == b1[x]
    requires forall j: nat, n: nat {:trigger Addr(b2, i0[j], n)} :: j < |i0| && !(j == i && n == bn) ==>
               Addr(b2, i0[j], n) == Addr(b1, i0[j], n)
    ensures Extends(b0, i0, r0, b2, i0, r2, i, bn)
  {
    forall j: nat, n: nat | j < |i0| && !(j == i && n == bn) ensures Addr(b2, i0[j], n) == Addr(b0, i0[j], n) {
      assert Addr(b1, i0[j], n) == Addr(b0, i0[j], n);
    }
  }

  lemma FilledDirect(b0: seq<Block>, i0: seq<Inode>, r0: seq<Role>, b1: seq<Block>, r1: seq<Role>,
                     i2: seq<Inode>, r2: seq<Role>, i: nat, bn: nat, addr: nat)
    requires Claimed(b0, r0, b1, r1, i0, addr) && i < |i0| && bn < NDIRECT && |i0[i].addrs| == NDIRECT + 1
    requires Addr(b0, i0[i], bn) == 0
    requires i2 == i0[i := i0[i].(addrs := i0[i].addrs[bn := addr])] && r2 == r1[addr := Data(i, bn)]
    requires forall j: nat, n: nat {:trigger Addr(b1, i2[j], n)} :: j < |i0| && !(j == i && n == bn) ==>
               Addr(b1, i2[j], n) == Addr(b1, i0[j], n)
    ensures Extends(b0, i0, r0, b1, i2, r2, i, bn)
  {
  }

  /** Byte k lies among the n bytes from `lo` on in block bn. */
  predicate Within(k: nat, bn: nat, lo: nat, n: nat) { k / BSIZE == bn && lo <= k % BSIZE < lo + n }

  /** A block with `bytes` copied over it from byte `lo` on. */
  function Patched(b: Block, lo: nat, bytes: seq<Byte>): (r: Block)
    requires lo + |bytes| <= |b|
    ensures |r| == |b|
    ensures forall k :: 0 <= k < |b| ==> r[k] == if lo <= k < lo + |bytes| then bytes[k - lo] else b[k]
  {
    b[..lo] + bytes + b[lo + |bytes|..]
  }

  /** `bytes` have replaced those from `lo` on in block bn of file i; no other byte of any file changed, no address did. */
  ghost predicate StoredInto(b0: seq<Block>, b1: seq<Block>, inodes: seq<Inode>, i: nat, bn: nat, lo: nat, bytes: seq<Byte>) {
    && (forall j: nat, n: nat {:trigger Addr(b1, inodes[j], n)} :: j < |inodes| ==>
          Addr(b1, inodes[j], n) == Addr(b0, inodes[j], n))
    && (forall j: nat, k: nat {:trigger ByteAt(b1, inodes[j], k)} :: j < |inodes| ==>
          ByteAt(b1, inodes[j], k) == if j == i && Within(k, bn, lo, |bytes|) then bytes[k % BSIZE - lo]
                                      else ByteAt(b0, inodes[j], k))
  }

  lemma StoredByte(blk: seq<Block>, inodes: seq<Inode>, role: seq<Role>, i: nat, bn: nat, lo: nat, bytes: seq<Byte>,
                   a: nat, j: nat, k: nat)
    requires Owned(blk, inodes, role) && i < |inodes| && a == Addr(blk, inodes[i], bn) != 0 && lo + |bytes| <= BSIZE
    requires j < |inodes| && a < |blk| && |blk[a]| == BSIZE
    ensures ByteAt(blk[a := Patched(blk[a], lo, bytes)], inodes[j], k)
              == if j == i && Within(k, bn, lo, |bytes|) then bytes[k % BSIZE - lo] else ByteAt(blk, inodes[j], k)
  {
    assert SlotsOk(blk, inodes, role, i);
    AddrFrame(blk, inodes, role, a, Patched(blk[a], lo, bytes), j, k / BSIZE);
    OneOwner(blk, inodes, role, i, bn, j, k / BSIZE);
  }

  /** What a read of n bytes from `off` returns: nothing where it starts beyond the end or its end wraps around. */
  function Slice(c: seq<Byte>, off: nat, n: nat): (r: seq<Byte>)
    ensures off <= |c| && off + n < UINT ==>
              |r| <= n && |r| <= |c| - off && (|r| == n || |r| == |c| - off) && forall k :: 0 <= k < |r| ==> r[k] == c[off + k]
    ensures off > |c| || off + n >= UINT ==> r == []
  {
    if off > |c| || off + n >= UINT then [] else if off + n > |c| then c[off..] else c[off..off + n]
  }

  /** `was` with `bytes` written over it from `off` on. */
  function Spliced(was: seq<Byte>, off: nat, bytes: seq<Byte>): (r: seq<Byte>)
    requires off <= |was|
    ensures |r| >= |was| && |r| >= off + |bytes| && (|r| == |was| || |r| == off + |bytes|)
    ensures forall k :: 0 <= k < |r| ==> r[k] == if off <= k < off + |bytes| then bytes[k - off] else was[k]
  {
    was[..off] + bytes + if off + |bytes| < |was| then was[off + |bytes|..] else []
  }

  /** writei after `bytes` have been written: sizes are still the old ones, the bytes are there and mapped. */
  ghost predicate Writing(b0: seq<Block>, i0: seq<Inode>, b1: seq<Block>, i1: seq<Inode>, i: nat, off: nat, bytes: seq<Byte>) {
    && |i1| == |i0| && i < |i0| && off <= i0[i].size && i1[i].size == i0[i].size
    && (forall j {:trigger i1[j]} :: 0 <= j < |i0| && j != i ==> Contents(b1, i1[j]) == Contents(b0, i0[j]))
    && (forall n: nat {:trigger Addr(b1, i1[i], n)} ::
          n * BSIZE < i0[i].size || n * BSIZE < off + |bytes| ==> Addr(b1, i1[i], n) != 0)
    && (forall k: nat {:trigger ByteAt(b1, i1[i], k)} :: k < i0[i].size || k < off + |bytes| ==>
          ByteAt(b1, i1[i], k) == if off <= k < off + |bytes| then bytes[k - off] else ByteAt(b0, i0[i], k))
  }

  lemma Unwritten(b0: seq<Block>, i0: seq<Inode>, i: nat, off: nat, data: seq<Byte>)
    requires i < |i0| && off <= i0[i].size && SizeOk(b0, i0[i])
    ensures Writing(b0, i0, b0, i0, i, off, data[..0])
  {
  }

  /** bmap in between changes nothing that has been written. */
  lemma MappedOn(b0: seq<Block>, i0: seq<Inode>, b1: seq<Block>, i1: seq<Inode>, r1: seq<Role>,
                 b2: seq<Block>, i2: seq<Inode>, r2: seq<Role>, i: nat, bn: nat, off: nat, bytes: seq<Byte>)
    requires Writing(b0, i0, b1, i1, i, off, bytes)
    requires Owned(b1, i1, r1) && Extends(b1, i1, r1, b2, i2, r2, i, bn) && Shape(b2, i2)
    requires forall j: nat {:trigger i1[j]} :: j < |i1| ==> SizeOk(b1, i1[j])
    ensures Writing(b0, i0, b2, i2, i, off, bytes)
  {
    forall j | 0 <= j < |i0| && j != i ensures Contents(b2, i2[j]) == Contents(b0, i0[j]) {
      assert SizeOk(b1, i1[j]);
      ContentsKept(b1, i1, r1, b2, i2, r2, i, bn, j);
    }
    assert SlotsOk(b1, i1, r1, i);
    forall n: nat | n * BSIZE < i0[i].size || n * BSIZE < off + |bytes| ensures Addr(b2, i2[i], n) != 0 {
      assert Addr(b1, i1[i], n) != 0;
    }
    forall k: nat | k < i0[i].size || k < off + |bytes| ensures ByteAt(b2, i2[i], k) == ByteAt(b1, i1[i], k) {
      assert k / BSIZE * BSIZE <= k;
      assert Addr(b1, i1[i], k / BSIZE) != 0;
      assert Addr(b2, i2[i], k / BSIZE) == Addr(b1, i1[i], k / BSIZE);
    }
  }

  lemma Region(at: nat, m: nat, k: nat)
    requires at % BSIZE + m <= BSIZE
    ensures Within(k, at / BSIZE, at % BSIZE, m) <==> at <= k < at + m
    ensures at <= k < at + m ==> k % BSIZE - at % BSIZE == k - at
  {
    if at <= k < at + m { SameBlock(at, k - at); }
    assert at == at / BSIZE * BSIZE + at % BSIZE && k == k / BSIZE * BSIZE + k % BSIZE;
  }

  /** One block's worth of data later. */
  lemma WroteOn(b0: seq<Block>, i0: seq<Inode>, b1: seq<Block>, b2: seq<Block>, i1: seq<Inode>,
                i: nat, off: nat, data: seq<Byte>, tot: nat, m: nat)
    requires tot + m <= |data| && Writing(b0, i0, b1, i1, i, off, data[..tot]) && (off + tot) % BSIZE + m <= BSIZE
    requires Addr(b1, i1[i], (off + tot) / BSIZE) != 0
    requires StoredInto(b1, b2, i1, i, (off + tot) / BSIZE, (off + tot) % BSIZE, data[tot..tot + m])
    ensures Writing(b0, i0, b2, i1, i, off, data[..tot + m])
  {
    var at := off + tot;
    forall j | 0 <= j < |i0| && j != i ensures Contents(b2, i1[j]) == Contents(b0, i0[j]) {
      assert Contents(b1, i1[j]) == Contents(b0, i0[j]);
      assert forall k :: 0 <= k < i1[j].size ==> ByteAt(b2, i1[j], k) == ByteAt(b1, i1[j], k);
    }
    forall n: nat | n * BSIZE < i0[i].size || n * BSIZE < at + m ensures Addr(b2, i1[i], n) != 0 {
      if !(n * BSIZE < i0[i].size || n * BSIZE < at) { SameBlock(at, n * BSIZE - at); }
    }
    forall k: nat | k < i0[i].size || k < at + m
      ensures ByteAt(b2, i1[i], k) == if off <= k < at + m then data[..tot + m][k - off] else ByteAt(b0, i0[i], k)
    {
      Region(at, m, k);
    }
  }

  /** Once the size is right the file is the old one with the bytes written over it. */
  lemma Written(b0: seq<Block>, i0: seq<Inode>, b1: seq<Block>, i1: seq<Inode>, i: nat, off: nat, bytes: seq<Byte>, size: nat)
    requires Writing(b0, i0, b1, i1, i, off, bytes)
    requires size == if off + |bytes| > i0[i].size then off + |bytes| else i0[i].size
    ensures Contents(b1, i1[i].(size := size)) == Spliced(Contents(b0, i0[i]), off, bytes)
    ensures forall bn: nat :: bn * BSIZE < size ==> Addr(b1, i1[i].(size := size), bn) != 0
  {
    var ip := i1[i].(size := size);
    forall k | 0 <= k < size ensures ByteAt(b1, ip, k) == Spliced(Contents(b0, i0[i]), off, bytes)[k] {
      assert ByteAt(b1, ip, k) == ByteAt(b1, i1[i], k);
    }
    forall bn: nat | bn * BSIZE < size ensures Addr(b1, ip, bn) != 0 {
      assert Addr(b1, ip, bn) == Addr(b1, i1[i], bn);
    }
  }

  /** A file's size is nobody else's business. */
  lemma SizeFrame(blk: seq<Block>, inodes: seq<Inode>, role: seq<Role>, i: nat, size: nat)
    requires Owned(blk, inodes, role) && i < |inodes|
    ensures Owned(blk, inodes[i := inodes[i].(size := size)], role)
  {
    var ino' := inodes[i := inodes[i].(size := size)];
    forall j: nat | j < |inodes| ensures SlotsOk(blk, ino', role, j) {
      assert SlotsOk(blk, inodes, role, j);
      forall bn: nat | Addr(blk, ino'[j], bn) != 0
        ensures Addr(blk, ino'[j], bn) < |role| && role[Addr(blk, ino'[j], bn)] == Data(j, bn)
      {
        assert Addr(blk, ino'[j], bn) == Addr(blk, inodes[j], bn);
      }
    }
    forall b: nat | b < |role| ensures OwnerOk(blk, ino', role, b) { assert OwnerOk(blk, inodes, role, b); }
  }

  // ----- What it comes to -----

  /** A read of what has just been written returns it; a read that does not touch it returns what was there before. */
  lemma ReadAfterWrite(was: seq<Byte>, off: nat, bytes: seq<Byte>, at: nat, n: nat)
    requires off <= |was| && off + |bytes| < UINT
    ensures Slice(Spliced(was, off, bytes), off, |bytes|) == bytes
    ensures at + n <= off ==> Slice(Spliced(was, off, bytes), at, n) == Slice(was, at, n)
    ensures off + |bytes| <= at <= |was| ==> Slice(Spliced(was, off, bytes), at, n) == Slice(was, at, n)
    ensures |Spliced(was, off, bytes)| == if off + |bytes| > |was| then off + |bytes| else |was|
  {
    var r := Spliced(was, off, bytes);
    assert forall k :: 0 <= k < |r| ==> r[k] == if off <= k < off + |bytes| then bytes[k - off] else was[k];
  }

  /** Some slot of some inode, direct, indirect or the pointer to the indirect block, refers to b. */
  ghost predicate Referenced(blk: seq<Block>, inodes: seq<Inode>, b: nat) {
    || (exists i: nat, bn: nat :: i < |inodes| && Addr(blk, inodes[i], bn) == b)
    || (exists i: nat :: i < |inodes| && |inodes[i].addrs| == NDIRECT + 1 && inodes[i].addrs[NDIRECT] == b)
  }

  /** The free map is exact: the bits set are metadata and referenced blocks. Every operation keeps FsOk. */
  lemma BitmapExact(blk: seq<Block>, inodes: seq<Inode>, role: seq<Role>, start: nat, b: nat)
    requires FsOk(blk, inodes, role, start) && 0 < b < |role|
    ensures InUse(blk, start, b) <==> role[b] == Meta || Referenced(blk, inodes, b)
    ensures role[b] == Meta ==> !Referenced(blk, inodes, b)
  {
    assert BitOk(blk, role, start, b) && OwnerOk(blk, inodes, role, b);
    if i: nat, bn: nat :| i < |inodes| && Addr(blk, inodes[i], bn) == b { assert SlotsOk(blk, inodes, role, i); }
    if i: nat :| i < |inodes| && |inodes[i].addrs| == NDIRECT + 1 && inodes[i].addrs[NDIRECT] == b {
      assert SlotsOk(blk, inodes, role, i);
    }
  }

  /** An image with empty inodes and a free map that covers just the metadata is well formed. */
  lemma EmptyImage(blk: seq<Block>, inodes: seq<Inode>, role: seq<Role>, start: nat)
    requires Shape(blk, inodes) && MapOk(blk, role, start)
    requires forall b {:trigger role[b]} :: 0 <= b < |role| ==> role[b] == Meta || role[b] == Free
    requires forall i {:trigger inodes[i]} :: 0 <= i < |inodes| ==> inodes[i] == Inode(0, seq(NDIRECT + 1, _ => 0))
    ensures FsOk(blk, inodes, role, start)
    ensures forall i {:trigger inodes[i]} :: 0 <= i < |inodes| ==> Contents(blk, inodes[i]) == []
  {
    forall b: nat | b < |role| ensures OwnerOk(blk, inodes, role, b) { assert role[b] == Meta || role[b] == Free; }
    forall i: nat | i < |inodes| ensures SlotsOk(blk, inodes, role, i) { assert inodes[i].addrs[NDIRECT] == 0; }
  }
}
