/**
The redo log as a sequence of single-block disk writes.

A commit and a recovery are described here write by write, so that "a crash after any block write" is an
index into that sequence.  The main results say what a complete recovery makes of every such crash point.
*/
module LogSpec {

  /** A disk block, as its 32-bit words. */
  type Block = seq<int>

  type Disk = seq<Block>

  /** Where the log lies: the header is block `start`, logged copies follow it, `size` blocks in all. */
  datatype Area = Area(start: nat, size: nat)

  ghost predicate InLog(a: Area, b: int) {
    a.start <= b < a.start + a.size
  }

  // ----- The header block -----

  /** The in-memory header written over an old header block; the words after the last entry keep their old value. */
  function Encode(prior: Block, lh: seq<nat>): (r: Block)
    ensures |lh| + 1 <= |prior| ==> |r| == |prior|
  {
    [|lh|] + lh + if |lh| + 1 <= |prior| then prior[|lh| + 1..] else []
  }

  ghost predicate IsHeader(b: Block) {
    |b| > 0 && 0 <= b[0] < |b| && forall i :: 1 <= i <= b[0] ==> 0 <= b[i]
  }

  function Decode(b: Block): (lh: seq<nat>)
    requires IsHeader(b)
    ensures |lh| == b[0]
  {
    seq(b[0], i requires 0 <= i < b[0] => b[i + 1])
  }

  lemma DecodeEncode(prior: Block, lh: seq<nat>)
    ensures IsHeader(Encode(prior, lh)) && Decode(Encode(prior, lh)) == lh
  {
    var e := Encode(prior, lh);
    assert forall i :: 1 <= i <= |lh| ==> e[i] == lh[i - 1];
  }

  /** The layout on disk: the count in word 0, block number i in word i + 1, nothing else touched. */
  lemma HeaderLayout(prior: Block, lh: seq<nat>)
    requires |lh| + 1 <= |prior|
    ensures var e := Encode(prior, lh);
      && |e| == |prior| && e[0] == |lh|
      && (forall i :: 0 <= i < |lh| ==> e[i + 1] == lh[i])
      && (forall i :: |lh| < i < |prior| ==> e[i] == prior[i])
  {
    assert Encode(prior, lh) == [|lh|] + lh + prior[|lh| + 1..];
  }

  // ----- Well-formed logs -----

  /** Home blocks are distinct, lie on the disk and outside the log area, and their copies fit in it. */
  ghost predicate Loggable(a: Area, len: nat, lh: seq<nat>) {
    && |lh| < a.size && a.start + a.size <= len
    && (forall i :: 0 <= i < |lh| ==> lh[i] < len && !InLog(a, lh[i]))
    && (forall i, j :: 0 <= i < j < |lh| ==> lh[i] != lh[j])
  }

  /** A disk image that recovery can start from. */
  ghost predicate Image(a: Area, d: Disk) {
    && a.start + a.size <= |d| && 0 < a.size
    && IsHeader(d[a.start])
    && Loggable(a, |d|, Decode(d[a.start]))
  }

  /** The two disks agree on every block outside the log area. */
  ghost predicate SameHome(a: Area, d: Disk, e: Disk) {
    |d| == |e| && forall b :: 0 <= b < |d| && !InLog(a, b) ==> d[b] == e[b]
  }

  // ----- Commit and recovery, one block write at a time -----

  /** The `i`th block write of a commit: the copies, the header, the installs, the cleared header. */
  function CommitWrite(a: Area, d: Disk, view: Disk, lh: seq<nat>, i: nat): (w: (nat, Block))
    requires Loggable(a, |d|, lh) && |view| == |d| && i < 2 * |lh| + 2
    ensures w.0 < |d|
  {
    if i < |lh| then (a.start + 1 + i, view[lh[i]])
    else if i == |lh| then (a.start, Encode(d[a.start], lh))
    else if i < 2 * |lh| + 1 then (lh[i - |lh| - 1], d[a.start + i - |lh|])
    else (a.start, Encode(d[a.start], []))
  }

  /** The disk after the first `i` writes of a commit. */
  function CommitDisk(a: Area, d: Disk, view: Disk, lh: seq<nat>, i: nat): (r: Disk)
    requires Loggable(a, |d|, lh) && |view| == |d| && i <= 2 * |lh| + 2
    ensures |r| == |d|
  {
    if i == 0 then d else
      var p := CommitDisk(a, d, view, lh, i - 1);
      var w := CommitWrite(a, p, view, lh, i - 1);
      p[w.0 := w.1]
  }

  /** The `i`th block write of a recovery whose header read gave `lh`. */
  function RecoverWrite(a: Area, d: Disk, lh: seq<nat>, i: nat): (w: (nat, Block))
    requires Loggable(a, |d|, lh) && i <= |lh|
    ensures w.0 < |d|
  {
    if i < |lh| then (lh[i], d[a.start + 1 + i]) else (a.start, Encode(d[a.start], []))
  }

  function RecoverDisk(a: Area, d: Disk, lh: seq<nat>, i: nat): (r: Disk)
    requires Loggable(a, |d|, lh) && i <= |lh| + 1
    ensures |r| == |d|
  {
    if i == 0 then d else
      var p := RecoverDisk(a, d, lh, i - 1);
      var w := RecoverWrite(a, p, lh, i - 1);
      p[w.0 := w.1]
  }

  /** What an uninterrupted recovery makes of a disk. */
  function Recovered(a: Area, d: Disk): (r: Disk)
    requires Image(a, d)
  {
    var lh := Decode(d[a.start]);
    RecoverDisk(a, d, lh, |lh| + 1)
  }

  /** The disk with the logged blocks replaced by their cached contents. */
  function Installed(d: Disk, view: Disk, lh: seq<nat>): (r: Disk)
    requires |view| == |d|
    ensures |r| == |d|
  {
    seq(|d|, b requires 0 <= b < |d| => if b in lh then view[b] else d[b])
  }

  /** The disks after each of the first `k` writes of a commit. */
  function CommitTrail(a: Area, d: Disk, view: Disk, lh: seq<nat>, k: nat): (r: seq<Disk>)
    requires Loggable(a, |d|, lh) && |view| == |d| && k <= 2 * |lh| + 2
    ensures |r| == k
  {
    seq(k, i requires 0 <= i < k => CommitDisk(a, d, view, lh, i + 1))
  }

  /** The disks after each of the first `k` writes of a recovery. */
  function RecoverTrail(a: Area, d: Disk, lh: seq<nat>, k: nat): (r: seq<Disk>)
    requires Loggable(a, |d|, lh) && k <= |lh| + 1
    ensures |r| == k
  {
    seq(k, i requires 0 <= i < k => RecoverDisk(a, d, lh, i + 1))
  }

  lemma CopyStep(a: Area, d: Disk, view: Disk, lh: seq<nat>, k: nat)
    requires Loggable(a, |d|, lh) && |view| == |d| && k < |lh|
    ensures CommitDisk(a, d, view, lh, k + 1) == CommitDisk(a, d, view, lh, k)[a.start + 1 + k := view[lh[k]]]
    ensures CommitTrail(a, d, view, lh, k + 1)
         == CommitTrail(a, d, view, lh, k) + [CommitDisk(a, d, view, lh, k + 1)]
  {
  }

  lemma InstallStep(a: Area, d: Disk, lh: seq<nat>, k: nat)
    requires Loggable(a, |d|, lh) && k < |lh|
    ensures var p := RecoverDisk(a, d, lh, k); RecoverDisk(a, d, lh, k + 1) == p[lh[k] := p[a.start + 1 + k]]
    ensures RecoverTrail(a, d, lh, k + 1) == RecoverTrail(a, d, lh, k) + [RecoverDisk(a, d, lh, k + 1)]
  {
  }

  lemma TrailStep(a: Area, d: Disk, lh: seq<nat>, k: nat)
    requires Loggable(a, |d|, lh) && k <= |lh|
    ensures RecoverTrail(a, d, lh, k + 1) == RecoverTrail(a, d, lh, k) + [RecoverDisk(a, d, lh, k + 1)]
  {
  }

  lemma RecoverEnd(a: Area, d: Disk, lh: seq<nat>)
    requires Loggable(a, |d|, lh)
    ensures var p := RecoverDisk(a, d, lh, |lh|); RecoverDisk(a, d, lh, |lh| + 1) == p[a.start := Encode(p[a.start], [])]
  {
  }

  // ----- What the intermediate disks look like -----

  /** The first `k` home blocks carry their logged copy, the rest and the log area are as in `d`. */
  ghost predicate InstalledUpTo(a: Area, d: Disk, e: Disk, lh: seq<nat>, k: nat)
    requires Loggable(a, |d|, lh) && k <= |lh|
  {
    && |e| == |d|
    && (forall i :: 0 <= i < k ==> e[lh[i]] == d[a.start + 1 + i])
    && (forall b :: 0 <= b < |d| && (forall i :: 0 <= i < k ==> lh[i] != b) ==> e[b] == d[b])
  }

  lemma {:induction false} RecoverPrefix(a: Area, d: Disk, lh: seq<nat>, k: nat)
    requires Loggable(a, |d|, lh) && k <= |lh|
    ensures InstalledUpTo(a, d, RecoverDisk(a, d, lh, k), lh, k)
  {
    if k > 0 {
      RecoverPrefix(a, d, lh, k - 1);
      var p := RecoverDisk(a, d, lh, k - 1);
      assert RecoverDisk(a, d, lh, k) == p[lh[k - 1] := p[a.start + k]];
    }
  }

  lemma RecoverHome(a: Area, d: Disk, lh: seq<nat>)
    requires Loggable(a, |d|, lh)
    ensures var r := RecoverDisk(a, d, lh, |lh| + 1);
            && (forall i :: 0 <= i < |lh| ==> r[lh[i]] == d[a.start + 1 + i])
            && (forall b :: 0 <= b < |d| && !InLog(a, b) && b !in lh ==> r[b] == d[b])
            && r[a.start] == Encode(d[a.start], [])
  {
    RecoverPrefix(a, d, lh, |lh|);
  }

  /** After `i <= |lh|` writes of a commit: copies of the first `i` blocks are in the log, nothing else moved. */
  lemma {:induction false} CommitCopies(a: Area, d: Disk, view: Disk, lh: seq<nat>, i: nat)
    requires Loggable(a, |d|, lh) && |view| == |d| && i <= |lh|
    ensures var c := CommitDisk(a, d, view, lh, i);
            && (forall j :: 0 <= j < i ==> c[a.start + 1 + j] == view[lh[j]])
            && (forall b :: 0 <= b < |d| && !(a.start < b <= a.start + i) ==> c[b] == d[b])
  {
    if i > 0 {
      CommitCopies(a, d, view, lh, i - 1);
    }
  }

  /** From the header write on, a commit performs exactly the writes of a recovery of that disk. */
  lemma {:induction false} CommitTail(a: Area, d: Disk, view: Disk, lh: seq<nat>, k: nat)
    requires Loggable(a, |d|, lh) && |view| == |d| && k <= |lh| + 1
    ensures CommitDisk(a, d, view, lh, |lh| + 1 + k)
         == RecoverDisk(a, CommitDisk(a, d, view, lh, |lh| + 1), lh, k)
  {
    if k > 0 {
      CommitTail(a, d, view, lh, k - 1);
    }
  }

  // ----- Crash safety -----

  /** A recovery that ran to the end leaves an empty log, so recovering again changes no home block. */
  lemma RecoveryCompletes(a: Area, d: Disk)
    requires Image(a, d)
    ensures var r := Recovered(a, d);
            Image(a, r) && Decode(r[a.start]) == [] && SameHome(a, Recovered(a, r), r)
  {
    var lh := Decode(d[a.start]);
    RecoverHome(a, d, lh);
    DecodeEncode(d[a.start], []);
    RecoverHome(a, Recovered(a, d), []);
  }

  lemma RecoveryCutShort(a: Area, d: Disk, lh: seq<nat>, k: nat)
    requires Loggable(a, |d|, lh) && k <= |lh|
    ensures var c := RecoverDisk(a, d, lh, k);
            c[a.start] == d[a.start] && SameHome(a, RecoverDisk(a, c, lh, |lh| + 1), RecoverDisk(a, d, lh, |lh| + 1))
  {
    var c := RecoverDisk(a, d, lh, k);
    RecoverPrefix(a, d, lh, k);
    RecoverHome(a, d, lh);
    RecoverHome(a, c, lh);
    var r, s := RecoverDisk(a, c, lh, |lh| + 1), RecoverDisk(a, d, lh, |lh| + 1);
    forall b | 0 <= b < |d| && !InLog(a, b) ensures r[b] == s[b] {
      if b in lh {
        var i :| 0 <= i < |lh| && lh[i] == b;
        assert c[a.start + 1 + i] == d[a.start + 1 + i];
      }
    }
  }

  /** Recovery is idempotent under crashes: cut off after any number of its writes and run again, it ends on the
      same home blocks. */
  lemma RecoveryCrashSafe(a: Area, d: Disk, k: nat)
    requires Image(a, d) && k <= |Decode(d[a.start])| + 1
    ensures var c := RecoverDisk(a, d, Decode(d[a.start]), k);
            Image(a, c) && SameHome(a, Recovered(a, c), Recovered(a, d))
  {
    var lh := Decode(d[a.start]);
    if k <= |lh| {
      RecoveryCutShort(a, d, lh, k);
    } else {
      RecoveryCompletes(a, d);
    }
  }

  lemma CopiesRecover(a: Area, d: Disk, view: Disk, lh: seq<nat>, h: Disk)
    requires Loggable(a, |d|, lh) && |view| == |d| && SameHome(a, h, d)
    requires forall j :: 0 <= j < |lh| ==> h[a.start + 1 + j] == view[lh[j]]
    ensures SameHome(a, RecoverDisk(a, h, lh, |lh| + 1), Installed(d, view, lh))
  {
    RecoverHome(a, h, lh);
    var r := RecoverDisk(a, h, lh, |lh| + 1);
    forall b | 0 <= b < |d| && !InLog(a, b) ensures r[b] == Installed(d, view, lh)[b] {
      if b in lh {
        var j :| 0 <= j < |lh| && lh[j] == b;
        assert h[a.start + 1 + j] == view[lh[j]];
      }
    }
  }

  /** The disk after the header write of a commit recovers to the new contents. */
  lemma HeaderWritten(a: Area, d: Disk, view: Disk, lh: seq<nat>)
    requires Loggable(a, |d|, lh) && |view| == |d|
    ensures var h := CommitDisk(a, d, view, lh, |lh| + 1);
            Image(a, h) && Decode(h[a.start]) == lh && SameHome(a, Recovered(a, h), Installed(d, view, lh))
  {
    CommitCopies(a, d, view, lh, |lh|);
    var c := CommitDisk(a, d, view, lh, |lh|);
    var h := c[a.start := Encode(c[a.start], lh)];
    assert h == CommitDisk(a, d, view, lh, |lh| + 1);
    DecodeEncode(c[a.start], lh);
    forall j | 0 <= j < |lh| ensures h[a.start + 1 + j] == view[lh[j]] {
      assert c[a.start + 1 + j] == view[lh[j]];
    }
    CopiesRecover(a, d, view, lh, h);
  }

  lemma CopiesOnly(a: Area, d: Disk, view: Disk, lh: seq<nat>, i: nat)
    requires Image(a, d) && Decode(d[a.start]) == []
    requires Loggable(a, |d|, lh) && |view| == |d| && i <= |lh|
    ensures var c := CommitDisk(a, d, view, lh, i); Image(a, c) && SameHome(a, Recovered(a, c), d)
  {
    CommitCopies(a, d, view, lh, i);
    var c := CommitDisk(a, d, view, lh, i);
    assert c[a.start] == d[a.start];
    CopiesRecover(a, d, view, [], c);
  }

  lemma HeaderOnDisk(a: Area, d: Disk, view: Disk, lh: seq<nat>, k: nat)
    requires Loggable(a, |d|, lh) && |view| == |d| && k <= |lh| + 1
    ensures var c := CommitDisk(a, d, view, lh, |lh| + 1 + k);
            Image(a, c) && SameHome(a, Recovered(a, c), Installed(d, view, lh))
  {
    HeaderWritten(a, d, view, lh);
    CommitTail(a, d, view, lh, k);
    var h := CommitDisk(a, d, view, lh, |lh| + 1);
    RecoveryCrashSafe(a, h, k);
    assert CommitDisk(a, d, view, lh, |lh| + 1 + k) == RecoverDisk(a, h, Decode(h[a.start]), k);
  }

  /** Commit is crash-atomic.  Cut off after `i` of its block writes, the disk recovers to the old home blocks when
      the header write (write number |lh|) had not completed, and to all new ones when it had. */
  lemma CommitCrashSafe(a: Area, d: Disk, view: Disk, lh: seq<nat>, i: nat)
    requires Image(a, d) && Decode(d[a.start]) == []
    requires Loggable(a, |d|, lh) && |view| == |d| && i <= 2 * |lh| + 2
    ensures var c := CommitDisk(a, d, view, lh, i);
            Image(a, c) && SameHome(a, Recovered(a, c), if i <= |lh| then d else Installed(d, view, lh))
  {
    if i <= |lh| {
      CopiesOnly(a, d, view, lh, i);
    } else {
      HeaderOnDisk(a, d, view, lh, i - |lh| - 1);
    }
  }

  /** A completed commit has installed every logged block and left the log empty. */
  lemma CommitCompletes(a: Area, d: Disk, view: Disk, lh: seq<nat>)
    requires Image(a, d) && Decode(d[a.start]) == []
    requires Loggable(a, |d|, lh) && |view| == |d|
    ensures var c := CommitDisk(a, d, view, lh, 2 * |lh| + 2);
            Image(a, c) && Decode(c[a.start]) == [] && SameHome(a, c, Installed(d, view, lh))
  {
    HeaderWritten(a, d, view, lh);
    CommitTail(a, d, view, lh, |lh| + 1);
    RecoveryCompletes(a, CommitDisk(a, d, view, lh, |lh| + 1));
  }

  /** The disk the header write makes. */
  function HeaderDisk(a: Area, d: Disk, view: Disk, lh: seq<nat>): (h: Disk)
    requires Loggable(a, |d|, lh) && |view| == |d|
    ensures |h| == |d|
  {
    var c := CommitDisk(a, d, view, lh, |lh|);
    c[a.start := Encode(c[a.start], lh)]
  }

  lemma HeaderDiskIs(a: Area, d: Disk, view: Disk, lh: seq<nat>)
    requires Loggable(a, |d|, lh) && |view| == |d|
    ensures HeaderDisk(a, d, view, lh) == CommitDisk(a, d, view, lh, |lh| + 1)
  {
  }

  /** A commit is its copies, the header write, and a recovery of the disk that makes. */
  lemma CommitParts(a: Area, d: Disk, view: Disk, lh: seq<nat>)
    requires Loggable(a, |d|, lh) && |view| == |d|
    ensures var n, h := |lh|, HeaderDisk(a, d, view, lh);
            CommitTrail(a, d, view, lh, 2 * n + 2) == CommitTrail(a, d, view, lh, n) + [h] + RecoverTrail(a, h, lh, n + 1)
  {
    var n, h := |lh|, HeaderDisk(a, d, view, lh);
    HeaderDiskIs(a, d, view, lh);
    var t := CommitTrail(a, d, view, lh, n) + [h] + RecoverTrail(a, h, lh, n + 1);
    forall i | 0 <= i < 2 * n + 2 ensures CommitDisk(a, d, view, lh, i + 1) == t[i] {
      if i > n { CommitTail(a, d, view, lh, i - n); }
    }
  }

  lemma CommitEnds(a: Area, d: Disk, view: Disk, lh: seq<nat>)
    requires Loggable(a, |d|, lh) && |view| == |d|
    ensures var h := HeaderDisk(a, d, view, lh);
            SameHome(a, RecoverDisk(a, h, lh, |lh| + 1), Installed(d, view, lh))
  {
    HeaderDiskIs(a, d, view, lh);
    HeaderWritten(a, d, view, lh);
  }

  // ----- Repeated crashes -----

  /** The disk after each recovery in turn was cut off after `cuts[i]` of its writes. */
  ghost predicate Interrupted(a: Area, d: Disk, cuts: seq<nat>, e: Disk)
    decreases |cuts|
  {
    if cuts == [] then e == d
    else
      && Image(a, d) && cuts[0] <= |Decode(d[a.start])| + 1
      && Interrupted(a, RecoverDisk(a, d, Decode(d[a.start]), cuts[0]), cuts[1..], e)
  }

  lemma {:induction false} RepeatedCrashes(a: Area, d: Disk, cuts: seq<nat>, e: Disk)
    requires Image(a, d) && Interrupted(a, d, cuts, e)
    ensures Image(a, e) && SameHome(a, Recovered(a, e), Recovered(a, d))
    decreases |cuts|
  {
    if cuts != [] {
      RecoveryCrashSafe(a, d, cuts[0]);
      RepeatedCrashes(a, RecoverDisk(a, d, Decode(d[a.start]), cuts[0]), cuts[1..], e);
    }
  }

  /** Commit under any crash after one of its writes followed by any number of crashes during recovery. */
  lemma CommitSurvivesRepeatedCrashes(a: Area, d: Disk, view: Disk, lh: seq<nat>, i: nat, cuts: seq<nat>, e: Disk)
    requires Image(a, d) && Decode(d[a.start]) == []
    requires Loggable(a, |d|, lh) && |view| == |d| && i <= 2 * |lh| + 2
    requires Interrupted(a, CommitDisk(a, d, view, lh, i), cuts, e)
    ensures Image(a, e)
    ensures SameHome(a, Recovered(a, e), if i <= |lh| then d else Installed(d, view, lh))
  {
    CommitCrashSafe(a, d, view, lh, i);
    RepeatedCrashes(a, CommitDisk(a, d, view, lh, i), cuts, e);
  }
}
