/**
Directories as files of 16-byte entries: looking a name up, adding one, and the test for emptiness, over the byte-level
reads and writes of the file layer.
*/
module Dir {
  import opened Fs

  const DIRSIZ: nat := 14
  const DESIZE: nat := 16                  // sizeof(struct dirent)
  const USHORT: nat := 0x1_0000

  /** name is the whole field: a name shorter than DIRSIZ is followed by a NUL and whatever comes after it. */
  datatype Dirent = Dirent(inum: nat, name: seq<Byte>)

  function Decode(b: seq<Byte>): (d: Dirent)
    requires |b| == DESIZE
    ensures d.inum < USHORT && |d.name| == DIRSIZ
  {
    Dirent((b[0] as nat) + 0x100 * (b[1] as nat), b[2..])
  }

  function Encode(d: Dirent): (b: seq<Byte>)
    requires d.inum < USHORT && |d.name| == DIRSIZ
    ensures |b| == DESIZE && (b[0] as nat) + 0x100 * (b[1] as nat) == d.inum
    ensures forall k :: 0 <= k < DIRSIZ ==> b[2 + k] == d.name[k]
  {
    [d.inum % 0x100, d.inum / 0x100] + d.name
  }

  lemma DecodeEncode(d: Dirent)
    requires d.inum < USHORT && |d.name| == DIRSIZ
    ensures Decode(Encode(d)) == d
  {
  }

  /** The entries of a directory's contents; a free slot has inum 0. */
  function Entries(c: seq<Byte>): (r: seq<Dirent>)
    ensures |r| == |c| / DESIZE
    ensures forall k {:trigger r[k]} :: 0 <= k < |r| ==> r[k] == Decode(c[k * DESIZE..k * DESIZE + DESIZE])
  {
    seq(|c| / DESIZE, k requires 0 <= k < |c| / DESIZE => Decode(c[k * DESIZE..k * DESIZE + DESIZE]))
  }

  // ----- Names -----

  /** The string a name field holds: up to its first NUL. */
  function Str(n: seq<Byte>): seq<Byte> {
    if n == [] || n[0] == 0 then [] else [n[0]] + Str(n[1..])
  }

  /** What strncpy leaves in a field of n bytes. */
  function Padded(name: seq<Byte>): (r: seq<Byte>)
    ensures |r| == |name| && forall k :: 0 <= k < |r| ==> r[k] == if k < |Str(name)| then name[k] else 0
  {
    Str2(name);
    Str(name) + seq(|name| - |Str(name)|, _ => 0)
  }

  lemma {:induction false} Str2(n: seq<Byte>)
    ensures |Str(n)| <= |n| && Str(n) == n[..|Str(n)|] && (|Str(n)| < |n| ==> n[|Str(n)|] == 0)
    ensures forall k :: 0 <= k < |Str(n)| ==> n[k] != 0
  {
    if n != [] && n[0] != 0 { Str2(n[1..]); }
  }

  /** Copying a name does not change the string it holds. */
  lemma {:induction false} StrOfPadded(n: seq<Byte>)
    ensures Str(Padded(n)) == Str(n)
  {
    Str2(n);
    if n == [] || n[0] == 0 {
    } else {
      StrOfPadded(n[1..]);
      Str2(n[1..]);
      assert Padded(n)[1..] == Padded(n[1..]);
    }
  }

  /** namecmp(s, t) == 0, by strncmp's loop. */
  method Namecmp(s: seq<Byte>, t: seq<Byte>) returns (same: bool)
    requires |s| == |t| == DIRSIZ
    ensures same <==> Str(s) == Str(t)
  {
    var i := 0;
    while i < DIRSIZ && s[i] != 0 && s[i] == t[i]
      invariant i <= DIRSIZ && s[..i] == t[..i]
      invariant Str(s) == Str(t) <==> Str(s[i..]) == Str(t[i..])
    {
      assert s[i..][1..] == s[i + 1..] && t[i..][1..] == t[i + 1..];
      SameHere(s[i..], t[i..]);
      i := i + 1;
    }
    if i < DIRSIZ { DifferHere(s[i..], t[i..]); }
    same := i == DIRSIZ || s[i] == t[i];
  }

  lemma SameHere(s: seq<Byte>, t: seq<Byte>)
    requires s != [] && t != [] && s[0] == t[0] != 0
    ensures Str(s) == Str(t) <==> Str(s[1..]) == Str(t[1..])
  {
    assert Str(s) == [s[0]] + Str(s[1..]) && Str(t) == [t[0]] + Str(t[1..]);
    assert Str(s)[1..] == Str(s[1..]) && Str(t)[1..] == Str(t[1..]);
  }

  lemma DifferHere(s: seq<Byte>, t: seq<Byte>)
    requires s != [] && t != [] && (s[0] == 0 || s[0] != t[0])
    ensures Str(s) == Str(t) <==> s[0] == t[0]
  {
    if t[0] != 0 { assert Str(t)[0] == t[0]; }
    if s[0] != 0 { assert Str(s)[0] == s[0]; }
  }

  /** Entry d has the name: it is in use and holds the same string. */
  predicate Has(d: Dirent, name: seq<Byte>) { d.inum != 0 && Str(d.name) == Str(name) }

  // ----- Reading and writing one entry -----

  lemma EntrySlice(c: seq<Byte>, k: nat)
    requires |c| % DESIZE == 0 && k < |c| / DESIZE && |c| < UINT
    ensures |Slice(c, k * DESIZE, DESIZE)| == DESIZE && Decode(Slice(c, k * DESIZE, DESIZE)) == Entries(c)[k]
  {
  }

  /** Writing entry k, or one past the last, and nothing else. */
  lemma EntrySplice(c: seq<Byte>, k: nat, d: Dirent)
    requires |c| % DESIZE == 0 && k <= |c| / DESIZE && d.inum < USHORT && |d.name| == DIRSIZ
    ensures k * DESIZE <= |c|
    ensures var r := Spliced(c, k * DESIZE, Encode(d));
      |r| % DESIZE == 0 && Entries(r) == if k < |c| / DESIZE then Entries(c)[k := d] else Entries(c) + [d]
  {
    var r, n := Spliced(c, k * DESIZE, Encode(d)), |c| / DESIZE;
    assert |c| == n * DESIZE;
    DecodeEncode(d);
    assert |r| == if k < n then |c| else |c| + DESIZE;
    assert |r| / DESIZE == if k < n then n else n + 1;
    forall j | 0 <= j < |r| / DESIZE ensures Entries(r)[j] == if j == k then d else Entries(c)[j] {
      var b := r[j * DESIZE..j * DESIZE + DESIZE];
      if j == k { assert b == Encode(d); } else { assert b == c[j * DESIZE..j * DESIZE + DESIZE]; }
    }
  }

  /** The contents of an inode as a directory. */
  ghost function Dirents(fs: FileSystem, dp: nat): seq<Dirent>
    reads fs
    requires dp < |fs.inodes|
  {
    Entries(Contents(fs.blk, fs.inodes[dp]))
  }

  ghost predicate IsDir(fs: FileSystem, dp: nat)
    reads fs
  {
    fs.Valid() && dp < |fs.inodes| && fs.inodes[dp].size % DESIZE == 0
  }

  /** The directory holds ds in this image. */
  ghost predicate Shows(fs: FileSystem, dp: nat, ds: seq<Dirent>, b0: seq<Block>, i0: seq<Inode>, r0: seq<Role>)
    reads fs
  {
    IsDir(fs, dp) && fs.blk == b0 && fs.inodes == i0 && fs.role == r0 && Dirents(fs, dp) == ds
  }

  /** One entry of a directory that is being searched. */
  method EntryOf(fs: FileSystem, dp: nat, off: nat, ghost n: nat, ghost ds: seq<Dirent>,
                 ghost b0: seq<Block>, ghost i0: seq<Inode>, ghost r0: seq<Role>) returns (d: Dirent)
    requires Shows(fs, dp, ds, b0, i0, r0) && n < |ds| && off == n * DESIZE
    modifies fs
    ensures Shows(fs, dp, ds, b0, i0, r0) && d == ds[n]
  {
    d := ReadEntry(fs, dp, off / DESIZE);
  }

  /** readi of the entry at `off`; its two panics cannot happen. */
  method ReadEntry(fs: FileSystem, dp: nat, k: nat) returns (d: Dirent)
    requires IsDir(fs, dp) && k < fs.inodes[dp].size / DESIZE
    modifies fs
    ensures fs.Valid() && fs.blk == old(fs.blk) && fs.inodes == old(fs.inodes) && fs.role == old(fs.role)
    ensures d == Dirents(fs, dp)[k]
  {
    SizeBound(fs, dp);
    ghost var c := Contents(fs.blk, fs.inodes[dp]);
    EntrySlice(c, k);
    var b := fs.Readi(dp, k * DESIZE, DESIZE);
    d := Decode(b);
  }

  lemma SizeBound(fs: FileSystem, dp: nat)
    requires fs.Valid() && dp < |fs.inodes|
    ensures fs.inodes[dp].size <= MAXFILE * BSIZE < UINT
  {
    assert SizeOk(fs.blk, fs.inodes[dp]);
  }

  /** One turn of dirlookup's loop. */
  method Matches(fs: FileSystem, dp: nat, off: nat, name: seq<Byte>, ghost n: nat, ghost ds: seq<Dirent>,
                 ghost b0: seq<Block>, ghost i0: seq<Inode>, ghost r0: seq<Role>) returns (hit: bool, inum: nat)
    requires Shows(fs, dp, ds, b0, i0, r0) && n < |ds| && off == n * DESIZE && |name| == DIRSIZ
    modifies fs
    ensures Shows(fs, dp, ds, b0, i0, r0) && (hit <==> Has(ds[n], name)) && inum == ds[n].inum
  {
    var de := EntryOf(fs, dp, off, n, ds, b0, i0, r0);
    inum, hit := de.inum, false;
    if de.inum != 0 { hit := Namecmp(name, de.name); }
  }

  /** The first entry with the name, or the number of entries. */
  method Dirlookup(fs: FileSystem, dp: nat, name: seq<Byte>) returns (found: bool, inum: nat, off: nat)
    requires IsDir(fs, dp) && |name| == DIRSIZ
    modifies fs
    ensures fs.Valid() && fs.blk == old(fs.blk) && fs.inodes == old(fs.inodes) && fs.role == old(fs.role)
    ensures found <==> Holds(Dirents(fs, dp), name)
    ensures found ==> off % DESIZE == 0 && off / DESIZE < |Dirents(fs, dp)| && Has(Dirents(fs, dp)[off / DESIZE], name)
    ensures found ==> inum == Dirents(fs, dp)[off / DESIZE].inum
    ensures found ==> forall k :: 0 <= k < off / DESIZE ==> !Has(Dirents(fs, dp)[k], name)
  {
    ghost var ds := Dirents(fs, dp);
    ghost var b0, i0, r0 := fs.blk, fs.inodes, fs.role;
    off := 0;
    ghost var n := 0;
    while off < fs.inodes[dp].size
      invariant Shows(fs, dp, ds, b0, i0, r0)
      invariant off == n * DESIZE && n <= |ds| && forall k :: 0 <= k < n ==> !Has(ds[k], name)
    {
      var hit;
      hit, inum := Matches(fs, dp, off, name, n, ds, b0, i0, r0);
      if hit {
        assert off / DESIZE == n && Has(ds[off / DESIZE], name);
        return true, inum, off;
      }
      off := off + DESIZE;
      n := n + 1;
    }
    found, inum := false, 0;
  }

  /** The number of the first free entry from `from` on, the number of entries if there is none. */
  method FirstFree(fs: FileSystem, dp: nat) returns (off: nat)
    requires IsDir(fs, dp)
    modifies fs
    ensures fs.Valid() && fs.blk == old(fs.blk) && fs.inodes == old(fs.inodes) && fs.role == old(fs.role)
    ensures off % DESIZE == 0 && IsFirstFree(Dirents(fs, dp), off / DESIZE)
  {
    ghost var ds := Dirents(fs, dp);
    ghost var b0, i0, r0 := fs.blk, fs.inodes, fs.role;
    off := 0;
    ghost var n := 0;
    while off < fs.inodes[dp].size
      invariant Shows(fs, dp, ds, b0, i0, r0)
      invariant off == n * DESIZE && n <= |ds| && forall k :: 0 <= k < n ==> ds[k].inum != 0
    {
      var de := EntryOf(fs, dp, off, n, ds, b0, i0, r0);
      if de.inum == 0 { break; }
      off := off + DESIZE;
      n := n + 1;
    }
  }

  ghost predicate IsFirstFree(ds: seq<Dirent>, k: nat) {
    k <= |ds| && (k < |ds| ==> ds[k].inum == 0) && forall j :: 0 <= j < k ==> ds[j].inum != 0
  }

  /** The directory with entry k set, or appended. */
  function WithEntry(ds: seq<Dirent>, k: nat, d: Dirent): seq<Dirent>
    requires k <= |ds|
  {
    if k < |ds| then ds[k := d] else ds + [d]
  }

  /** No file's contents differ. */
  ghost predicate SameFiles(b0: seq<Block>, i0: seq<Inode>, b1: seq<Block>, i1: seq<Inode>, except: int) {
    |i1| == |i0| && forall j {:trigger i1[j]} :: 0 <= j < |i0| && j != except ==> Contents(b1, i1[j]) == Contents(b0, i0[j])
  }

  lemma Aligned(k: nat, r: nat)
    requires (k * DESIZE + r) % BSIZE == 0
    ensures r % DESIZE == 0
  {
    var q := (k * DESIZE + r) / BSIZE;
    assert k * DESIZE + r == 64 * q * DESIZE;
    assert r == (64 * q - k) * DESIZE;
  }

  /** A write of a whole entry is done or not done: entries do not cross blocks, and writei stops only between blocks. */
  lemma EntryWritesAreWhole(k: nat, r: int)
    requires -1 <= r <= DESIZE && (0 < r < DESIZE ==> (k * DESIZE + r) % BSIZE == 0)
    ensures r == -1 || r == 0 || r == DESIZE
  {
    if r >= 0 && (k * DESIZE + r) % BSIZE == 0 { Aligned(k, r); }
  }

  /** writei of entry `off / DESIZE`: it is set, or nothing at all has happened. */
  method WriteEntry(fs: FileSystem, dp: nat, k: nat, d: Dirent) returns (ok: bool)
    requires IsDir(fs, dp) && k <= fs.inodes[dp].size / DESIZE && d.inum < USHORT && |d.name| == DIRSIZ
    modifies fs
    ensures fs.Valid() && SameFiles(old(fs.blk), old(fs.inodes), fs.blk, fs.inodes, if ok then dp else -1)
    ensures ok ==> IsDir(fs, dp) && Dirents(fs, dp) == WithEntry(old(Dirents(fs, dp)), k, d)
    ensures !ok ==> NoneFree(fs.role) || old(fs.inodes)[dp].size == MAXFILE * BSIZE
  {
    ghost var b0, i0 := fs.blk, fs.inodes;
    ghost var c := Contents(b0, i0[dp]);
    SizeBound(fs, dp);
    var r := fs.Writei(dp, Encode(d), k * DESIZE);
    EntryWritesAreWhole(k, r);
    ok := r == DESIZE;
    EntrySplice(c, k, d);
    if ok {
      assert Encode(d)[..DESIZE] == Encode(d);
    } else if r == 0 {
      assert Spliced(c, k * DESIZE, Encode(d)[..0]) == c;
    } else {
      FullDirectory(i0[dp].size, k);
    }
  }

  lemma FullDirectory(size: nat, k: nat)
    requires size % DESIZE == 0 && size <= MAXFILE * BSIZE && k <= size / DESIZE
    requires k * DESIZE > size || k * DESIZE + DESIZE >= UINT || k * DESIZE + DESIZE > MAXFILE * BSIZE
    ensures size == MAXFILE * BSIZE
  {
    assert size == size / DESIZE * DESIZE;
  }

  /** isdirempty: nothing in use after the first two entries. */
  method Isdirempty(fs: FileSystem, dp: nat) returns (r: bool)
    requires IsDir(fs, dp)
    modifies fs
    ensures fs.Valid() && fs.blk == old(fs.blk) && fs.inodes == old(fs.inodes) && fs.role == old(fs.role)
    ensures r <==> forall k :: 2 <= k < |Dirents(fs, dp)| ==> Dirents(fs, dp)[k].inum == 0
  {
    ghost var ds := Dirents(fs, dp);
    ghost var b0, i0, r0 := fs.blk, fs.inodes, fs.role;
    assert |ds| == i0[dp].size / DESIZE;
    var off := 2 * DESIZE;
    ghost var n := 2;
    r := true;
    while off < fs.inodes[dp].size
      invariant Shows(fs, dp, ds, b0, i0, r0)
      invariant off == n * DESIZE && 2 <= n && forall k :: 2 <= k < n && k < |ds| ==> ds[k].inum == 0
    {
      var de := EntryOf(fs, dp, off, n, ds, b0, i0, r0);
      if de.inum != 0 { return false; }
      off := off + DESIZE;
      n := n + 1;
    }
  }

  /** dirlink's two searches. */
  method FindPlace(fs: FileSystem, dp: nat, name: seq<Byte>) returns (taken: bool, k: nat)
    requires IsDir(fs, dp) && |name| == DIRSIZ
    modifies fs
    ensures fs.Valid() && fs.blk == old(fs.blk) && fs.inodes == old(fs.inodes) && fs.role == old(fs.role)
    ensures taken <==> Holds(Dirents(fs, dp), name)
    ensures !taken ==> IsFirstFree(Dirents(fs, dp), k)
  {
    ghost var ds := Dirents(fs, dp);
    var inum, off;
    k := 0;
    taken, inum, off := Dirlookup(fs, dp, name);
    assert Dirents(fs, dp) == ds;
    if !taken {
      off := FirstFree(fs, dp);
      assert Dirents(fs, dp) == ds;
      k := off / DESIZE;
    }
  }

  /** Some entry in use has the name. */
  ghost predicate Holds(ds: seq<Dirent>, name: seq<Byte>) { exists k :: 0 <= k < |ds| && Has(ds[k], name) }

  /**
  dirlink: 0, and the first free slot (or a new last one) names the inode; or -1, and no file has changed: the name is
  taken, the disk is full, or the directory cannot grow.
  */
  method Dirlink(fs: FileSystem, dp: nat, name: seq<Byte>, inum: nat) returns (r: int)
    requires IsDir(fs, dp) && |name| == DIRSIZ && inum < USHORT
    modifies fs
    ensures fs.Valid() && (r == 0 || r == -1)
    ensures SameFiles(old(fs.blk), old(fs.inodes), fs.blk, fs.inodes, if r == 0 then dp else -1)
    ensures r == 0 ==> IsDir(fs, dp) && Linked(old(Dirents(fs, dp)), Dirents(fs, dp), name, inum)
    ensures r == -1 ==>
      Holds(old(Dirents(fs, dp)), name) || NoneFree(fs.role) || old(fs.inodes)[dp].size == MAXFILE * BSIZE
  {
    ghost var ds := Dirents(fs, dp);
    var taken, k := FindPlace(fs, dp, name);
    assert Dirents(fs, dp) == ds;
    if taken { return -1; }
    var ok := WriteEntry(fs, dp, k, Dirent(inum, Padded(name)));
    r := if ok then 0 else -1;
  }

  /** `now` is `was` with one entry for inum under the name, which no entry had, in the first free place. */
  ghost predicate Linked(was: seq<Dirent>, now: seq<Dirent>, name: seq<Byte>, inum: nat) {
    !Holds(was, name) && exists k: nat :: IsFirstFree(was, k) && now == WithEntry(was, k, Dirent(inum, Padded(name)))
  }

  // ----- What a directory says -----

  /** No two entries in use hold the same name. */
  ghost predicate Unique(ds: seq<Dirent>) {
    forall j, k :: 0 <= j < k < |ds| && ds[j].inum != 0 && ds[k].inum != 0 ==> Str(ds[j].name) != Str(ds[k].name)
  }

  /** The first entry in use that holds the string n; |ds| if none does. */
  ghost function Find(ds: seq<Dirent>, n: seq<Byte>): (k: nat)
    ensures k <= |ds| && (k < |ds| ==> ds[k].inum != 0 && Str(ds[k].name) == n)
    ensures forall j :: 0 <= j < k ==> ds[j].inum == 0 || Str(ds[j].name) != n
  {
    if ds == [] || (ds[0].inum != 0 && Str(ds[0].name) == n) then 0 else 1 + Find(ds[1..], n)
  }

  /** The inode a name stands for, 0 for none. */
  ghost function Lookup(ds: seq<Dirent>, n: seq<Byte>): nat {
    if Find(ds, n) < |ds| then ds[Find(ds, n)].inum else 0
  }

  /** With unique names every entry in use is the one its name finds. */
  lemma FindUnique(ds: seq<Dirent>, k: nat)
    requires Unique(ds) && k < |ds| && ds[k].inum != 0
    ensures Find(ds, Str(ds[k].name)) == k
  {
  }

  /** dirlink adds one name and leaves what every other name stands for. */
  lemma DirlinkMeans(was: seq<Dirent>, now: seq<Dirent>, name: seq<Byte>, inum: nat, n: seq<Byte>)
    requires Unique(was) && Linked(was, now, name, inum) && inum != 0
    ensures Unique(now) && Lookup(now, n) == if n == Str(name) then inum else Lookup(was, n)
    ensures Lookup(was, Str(name)) == 0
  {
    StrOfPadded(name);
    var k: nat :| IsFirstFree(was, k) && now == WithEntry(was, k, Dirent(inum, Padded(name)));
    forall j | 0 <= j < |was| && was[j].inum != 0 ensures Str(was[j].name) != Str(name) { assert !Has(was[j], name); }
    EntryChanged(was, k, Dirent(inum, Padded(name)), n);
  }

  /** Setting a free or a new entry, or clearing one, changes what that one name stands for. */
  lemma EntryChanged(ds: seq<Dirent>, k: nat, d: Dirent, n: seq<Byte>)
    requires Unique(ds) && k <= |ds| && (k < |ds| && ds[k].inum != 0 ==> d.inum == 0)
    requires d.inum != 0 ==> forall j :: 0 <= j < |ds| && ds[j].inum != 0 ==> Str(ds[j].name) != Str(d.name)
    ensures var now := WithEntry(ds, k, d);
      && Unique(now)
      && Lookup(now, n) == (if d.inum != 0 && n == Str(d.name) then d.inum
                            else if k < |ds| && ds[k].inum != 0 && n == Str(ds[k].name) then 0 else Lookup(ds, n))
  {
    var now := WithEntry(ds, k, d);
    assert forall j :: 0 <= j < |ds| && j != k ==> now[j] == ds[j];
    var a, b := Find(ds, n), Find(now, n);
    if d.inum != 0 && n == Str(d.name) {
      FindUnique(now, k);
    } else if a < |ds| && a != k {
      FindUnique(now, a);
    }
  }

  /** What sys_unlink writes over an entry. */
  const CLEARED: Dirent := Dirent(0, seq(DIRSIZ, _ => 0))

  /** Clearing a name's entry makes it stand for nothing, and no other name is affected. */
  lemma UnlinkMeans(was: seq<Dirent>, k: nat, n: seq<Byte>)
    requires Unique(was) && k < |was| && was[k].inum != 0
    ensures Unique(was[k := CLEARED])
    ensures Lookup(was[k := CLEARED], n) == if n == Str(was[k].name) then 0 else Lookup(was, n)
  {
    EntryChanged(was, k, CLEARED, n);
  }
}
