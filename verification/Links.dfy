/**
Link counts over every run of create, sys_link, sys_unlink and iput. sys_link gives up the inode's lock between
raising the count and writing the entry, so any number of other operations may come in between.
*/
module Links {
  type Name = string
  const DOT: Name := "."
  const DOTDOT: Name := ".."
  const ROOT: nat := 1                     // ROOTINO

  datatype Kind = Unallocated | File | Dir

  /** A dinode and, for a directory, its entries: slots with inum 0 are not in the map. */
  datatype Inode = Inode(kind: Kind, nlink: int, ents: map<Name, nat>)

  /**
  pending: calls of sys_link between nlink++ and their end, with the inode. linked: history, the directories that
  hang in the tree, each with the name it has in its parent.
  */
  datatype State = State(ino: seq<Inode>, pending: map<nat, nat>, linked: map<nat, Name>)

  datatype Step =
    | CreateFile(dp: nat, name: Name, ip: nat)
    | CreateDir(dp: nat, name: Name, ip: nat)
    | CreateFails(ip: nat, dir: bool)             // an inode was allocated, a dirlink failed, nlink is back at 0
    | LinkStart(call: nat, ip: nat)
    | LinkEnter(call: nat, dp: nat, name: Name)
    | LinkFails(call: nat)
    | Unlink(dp: nat, name: Name)
    | Free(ip: nat)                               // iput of the last reference

  /** ip->nlink is a short. */
  function Short(x: int): int { (x + 0x8000) % 0x1_0000 - 0x8000 }

  predicate IsDir(s: State, d: nat) { d < |s.ino| && s.ino[d].kind.Dir? }

  /** isdirempty. */
  predicate Empty(e: map<Name, nat>) { forall n :: n in e ==> n == DOT || n == DOTDOT }

  predicate Enabled(s: State, step: Step) {
    match step
    case CreateFile(dp, name, ip) =>
      IsDir(s, dp) && name !in s.ino[dp].ents && ip < |s.ino| && s.ino[ip].kind.Unallocated?
    case CreateDir(dp, name, ip) =>
      IsDir(s, dp) && name !in s.ino[dp].ents && ip < |s.ino| && s.ino[ip].kind.Unallocated?
    case CreateFails(ip, _) => ip < |s.ino| && s.ino[ip].kind.Unallocated?
    case LinkStart(c, ip) => c !in s.pending && ip < |s.ino| && s.ino[ip].kind.File?
    case LinkEnter(c, dp, name) =>
      c in s.pending && s.pending[c] < |s.ino| && IsDir(s, dp) && name !in s.ino[dp].ents
    case LinkFails(c) => c in s.pending && s.pending[c] < |s.ino|
    case Unlink(dp, name) =>
      && IsDir(s, dp) && name in s.ino[dp].ents && name != DOT && name != DOTDOT
      && var ip := s.ino[dp].ents[name];
      ip < |s.ino| && s.ino[ip].nlink >= 1 && (s.ino[ip].kind.Dir? ==> Empty(s.ino[ip].ents))
    case Free(ip) =>
      ip < |s.ino| && !s.ino[ip].kind.Unallocated? && s.ino[ip].nlink == 0 && forall c :: c in s.pending ==> s.pending[c] != ip
  }

  /** The directory that the step changes still hangs in the tree: it is not a removed working directory. */
  predicate InTree(s: State, step: Step) {
    step.CreateFile? || step.CreateDir? || step.LinkEnter? || step.Unlink? ==> step.dp in s.linked
  }

  predicate Allowed(s: State, step: Step) { Enabled(s, step) && InTree(s, step) }

  function Count(s: State, i: nat, n: int): State
    requires i < |s.ino|
  {
    s.(ino := s.ino[i := s.ino[i].(nlink := Short(s.ino[i].nlink + n))])
  }

  function Enter(s: State, dp: nat, name: Name, ip: nat): State
    requires dp < |s.ino|
  {
    s.(ino := s.ino[dp := s.ino[dp].(ents := s.ino[dp].ents[name := ip])])
  }

  function MakeFile(s: State, dp: nat, name: Name, ip: nat): State
    requires dp < |s.ino| && ip < |s.ino|
  {
    Enter(s.(ino := s.ino[ip := Inode(File, 1, map[])]), dp, name, ip)
  }

  function Apply(s: State, step: Step): State
    requires Enabled(s, step)
  {
    match step
    case CreateFile(dp, name, ip) => MakeFile(s, dp, name, ip)
    case CreateDir(dp, name, ip) =>
      var s1 := s.(ino := s.ino[ip := Inode(Dir, 1, map[DOT := ip, DOTDOT := dp])],
                   linked := if dp in s.linked then s.linked[ip := name] else s.linked);
      Count(Enter(s1, dp, name, ip), dp, 1)
    case CreateFails(ip, dir) =>
      s.(ino := s.ino[ip := if dir then Inode(Dir, 0, map[DOT := ip]) else Inode(File, 0, map[])])
    case LinkStart(c, ip) => Count(s, ip, 1).(pending := s.pending[c := ip])
    case LinkEnter(c, dp, name) => Enter(s, dp, name, s.pending[c]).(pending := s.pending - {c})
    case LinkFails(c) => Count(s, s.pending[c], -1).(pending := s.pending - {c})
    case Unlink(dp, name) =>
      var ip := s.ino[dp].ents[name];
      var s1 := s.(ino := s.ino[dp := s.ino[dp].(ents := s.ino[dp].ents - {name})]);
      if s.ino[ip].kind.Dir? then Count(Count(s1, dp, -1), ip, -1).(linked := s.linked - {ip})
      else Count(s1, ip, -1)
    case Free(ip) => s.(ino := s.ino[ip := Inode(Unallocated, 0, map[])])
  }

  /** What mkfs makes: the root, which is its own parent. */
  function Init(n: nat): State
    requires ROOT < n
  {
    State(seq(n, i => if i == ROOT then Inode(Dir, 1, map[DOT := ROOT, DOTDOT := ROOT]) else Inode(Unallocated, 0, map[])),
          map[], map[ROOT := DOTDOT])
  }

  // ----- Names -----

  predicate NamesIt(s: State, d: nat, n: Name, i: nat) {
    d < |s.ino| && n in s.ino[d].ents && n != DOT && s.ino[d].ents[n] == i
  }

  /** Every place that names i: an entry other than "." in a directory that hangs in the tree. */
  ghost function Names(s: State, i: nat): set<(nat, Name)> {
    set d, n | d in s.linked && d < |s.ino| && n in s.ino[d].ents && NamesIt(s, d, n, i) :: (d, n)
  }

  /** The calls of sys_link that hold one count of i. */
  ghost function Holders(s: State, i: nat): set<nat> { HoldersOf(s.pending, i) }

  ghost function HoldersOf(pending: map<nat, nat>, i: nat): set<nat> { set c | c in pending && pending[c] == i }

  ghost function Total(s: State, i: nat): nat { |Names(s, i)| + |Holders(s, i)| }

  /** No count has outgrown a short. */
  ghost predicate Fits(s: State) {
    forall i: nat {:trigger Total(s, i)} :: i < |s.ino| ==> Total(s, i) <= 0x7FFF
  }

  predicate IsRun(s: State, steps: seq<Step>)
    decreases |steps|
  {
    steps == [] || (Enabled(s, steps[0]) && IsRun(Apply(s, steps[0]), steps[1..]))
  }

  function Run(s: State, steps: seq<Step>): State
    requires IsRun(s, steps)
    decreases |steps|
  {
    if steps == [] then s else Run(Apply(s, steps[0]), steps[1..])
  }

  // ----- The invariant -----

  predicate Proper(n: Name) { n != DOT && n != DOTDOT }

  /** A linked directory has "." and "..", its parent is linked and has it, and its entries name allocated inodes. */
  ghost predicate DirOk(s: State, d: nat)
    requires d in s.linked
  {
    && d < |s.ino| && s.ino[d].kind.Dir?
    && var e := s.ino[d].ents;
    && DOT in e && e[DOT] == d && DOTDOT in e && e[DOTDOT] in s.linked && e[DOTDOT] < |s.ino|
    && (if d == ROOT then e[DOTDOT] == ROOT
        else Proper(s.linked[d]) && s.linked[d] in s.ino[e[DOTDOT]].ents && s.ino[e[DOTDOT]].ents[s.linked[d]] == d)
  }

  /** An entry of a linked directory names an allocated inode, and a directory only where that directory says. */
  ghost predicate EntryOk(s: State, d: nat, n: Name)
    requires d in s.linked && d < |s.ino| && n in s.ino[d].ents
  {
    var c := s.ino[d].ents[n];
    && c < |s.ino| && !s.ino[c].kind.Unallocated?
    && (Proper(n) && s.ino[c].kind.Dir? ==>
          c in s.linked && c != ROOT && DOTDOT in s.ino[c].ents && s.ino[c].ents[DOTDOT] == d && s.linked[c] == n)
  }

  ghost predicate KindsOk(s: State) {
    && ROOT in s.linked
    && (forall i: nat {:trigger s.ino[i]} :: i < |s.ino| && s.ino[i].kind.Dir? && i !in s.linked ==>
          s.ino[i].nlink == 0 && Empty(s.ino[i].ents))
    && (forall c: nat {:trigger s.pending[c]} :: c in s.pending ==> s.pending[c] < |s.ino| && s.ino[s.pending[c]].kind.File?)
  }

  ghost predicate TreeOk(s: State) {
    && KindsOk(s)
    && (forall d: nat {:trigger DirOk(s, d)} :: d in s.linked ==> DirOk(s, d))
    && (forall d: nat, n {:trigger EntryOk(s, d, n)} ::
          d in s.linked && d < |s.ino| && n in s.ino[d].ents ==> EntryOk(s, d, n))
  }

  ghost predicate CountsOk(s: State) {
    forall i: nat {:trigger Total(s, i)} :: i < |s.ino| ==> s.ino[i].nlink == Total(s, i)
  }

  ghost predicate Inv(s: State) {
    TreeOk(s) && CountsOk(s)
  }

  lemma InitInv(n: nat)
    requires ROOT < n
    ensures Inv(Init(n)) && Fits(Init(n))
  {
    var s := Init(n);
    forall i: nat | i < n ensures Total(s, i) == if i == ROOT then 1 else 0 {
      assert Holders(s, i) == {};
      assert Names(s, i) == if i == ROOT then {(ROOT, DOTDOT)} else {};
    }
  }

  // ----- The tree -----

  /** Directory d has what it had before, perhaps under more names. */
  ghost predicate Retains(s: State, r: State, d: nat) {
    && d < |s.ino| == |r.ino| && r.ino[d].kind == s.ino[d].kind
    && forall n {:trigger n in r.ino[d].ents} :: n in s.ino[d].ents ==> n in r.ino[d].ents && r.ino[d].ents[n] == s.ino[d].ents[n]
  }

  lemma DirKept(s: State, r: State, d: nat)
    requires d in s.linked && DirOk(s, d) && Retains(s, r, d) && Retains(s, r, s.ino[d].ents[DOTDOT])
    requires d in r.linked && r.linked[d] == s.linked[d] && s.ino[d].ents[DOTDOT] in r.linked
    ensures DirOk(r, d)
  {
    var p := s.ino[d].ents[DOTDOT];
    assert DOT in r.ino[d].ents && DOTDOT in r.ino[d].ents;
    if d != ROOT { assert s.linked[d] in r.ino[p].ents; }
  }

  lemma EntryKept(s: State, r: State, d: nat, n: Name)
    requires d in s.linked && d < |s.ino| && n in s.ino[d].ents && EntryOk(s, d, n)
    requires d in r.linked && d < |r.ino| && n in r.ino[d].ents && r.ino[d].ents[n] == s.ino[d].ents[n]
    requires Retains(s, r, s.ino[d].ents[n])
    requires s.ino[d].ents[n] in s.linked ==>
               s.ino[d].ents[n] in r.linked && r.linked[s.ino[d].ents[n]] == s.linked[s.ino[d].ents[n]]
    ensures EntryOk(r, d, n)
  {
    var c := s.ino[d].ents[n];
    if Proper(n) && s.ino[c].kind.Dir? { assert DOTDOT in r.ino[c].ents; }
  }

  /** What is left of an inode that was not touched, or only gained an entry or a count. */
  lemma Retained(s: State, step: Step, d: nat)
    requires Inv(s) && Allowed(s, step) && d < |s.ino| && !s.ino[d].kind.Unallocated?
    requires !step.Unlink? && !step.Free?
    ensures Retains(s, Apply(s, step), d)
  {
  }

  lemma GrowTree(s: State, step: Step)
    requires Inv(s) && Allowed(s, step) && !step.Unlink? && !step.Free?
    requires Apply(s, step).linked == s.linked
    requires forall d: nat, n {:trigger EntryOk(Apply(s, step), d, n)} ::
               d in s.linked && d < |s.ino| && n in Apply(s, step).ino[d].ents && n !in s.ino[d].ents ==> EntryOk(Apply(s, step), d, n)
    ensures forall d: nat :: d in Apply(s, step).linked ==> DirOk(Apply(s, step), d)
    ensures forall d: nat, n :: d in Apply(s, step).linked && d < |Apply(s, step).ino| && n in Apply(s, step).ino[d].ents ==>
              EntryOk(Apply(s, step), d, n)
  {
    var r := Apply(s, step);
    forall d: nat | d in s.linked ensures DirOk(r, d) {
      assert DirOk(s, d) && DirOk(s, s.ino[d].ents[DOTDOT]);
      Retained(s, step, d);
      Retained(s, step, s.ino[d].ents[DOTDOT]);
      DirKept(s, r, d);
    }
    forall d: nat, n | d in s.linked && d < |r.ino| && n in r.ino[d].ents ensures EntryOk(r, d, n) {
      assert DirOk(s, d);
      if n in s.ino[d].ents {
        assert EntryOk(s, d, n);
        Retained(s, step, d);
        Retained(s, step, s.ino[d].ents[n]);
        EntryKept(s, r, d, n);
      }
    }
  }

  lemma AddEntry(s: State, step: Step, d: nat, n: Name)
    requires Inv(s) && Allowed(s, step) && (step.CreateFile? || step.LinkEnter?)
    requires d in s.linked && d < |s.ino| && n in Apply(s, step).ino[d].ents && n !in s.ino[d].ents
    ensures EntryOk(Apply(s, step), d, n)
  {
    assert DirOk(s, d);
  }

  lemma NoEntry(s: State, step: Step, d: nat)
    requires Inv(s) && Allowed(s, step) && (step.CreateFails? || step.LinkStart? || step.LinkFails?) && d in s.linked
    ensures d < |s.ino| && Apply(s, step).ino[d].ents == s.ino[d].ents && Apply(s, step).linked == s.linked
  {
    assert DirOk(s, d);
  }

  lemma AddTree(s: State, step: Step)
    requires Inv(s) && Allowed(s, step) && !step.CreateDir? && !step.Unlink? && !step.Free? && KindsOk(Apply(s, step))
    ensures TreeOk(Apply(s, step))
  {
    var r := Apply(s, step);
    if step.CreateFile? || step.LinkEnter? {
      forall d: nat, n | d in s.linked && d < |s.ino| && n in r.ino[d].ents && n !in s.ino[d].ents ensures EntryOk(r, d, n) {
        AddEntry(s, step, d, n);
      }
    } else {
      forall d: nat | d in s.linked ensures d < |s.ino| && r.ino[d].ents == s.ino[d].ents { NoEntry(s, step, d); }
      NoEntry(s, step, ROOT);
    }
    GrowTree(s, step);
  }

  lemma NotLinked(s: State, ip: nat)
    requires TreeOk(s) && ip < |s.ino| && s.ino[ip].kind.Unallocated?
    ensures ip !in s.linked
  {
    assert ip in s.linked ==> DirOk(s, ip);
  }

  lemma MkdirDir(s: State, step: Step, d: nat)
    requires Inv(s) && Allowed(s, step) && step.CreateDir? && step.ip !in s.linked && d in Apply(s, step).linked
    ensures DirOk(Apply(s, step), d)
  {
    assert DirOk(s, step.dp);
    if d != step.ip {
      assert DirOk(s, d) && DirOk(s, s.ino[d].ents[DOTDOT]);
      Retained(s, step, d);
      Retained(s, step, s.ino[d].ents[DOTDOT]);
      DirKept(s, Apply(s, step), d);
    }
  }

  lemma MkdirEntry(s: State, step: Step, d: nat, n: Name)
    requires Inv(s) && Allowed(s, step) && step.CreateDir? && step.ip !in s.linked
    requires var r := Apply(s, step); d in r.linked && d < |r.ino| && n in r.ino[d].ents
    ensures EntryOk(Apply(s, step), d, n)
  {
    assert DirOk(s, step.dp);
    if d != step.ip {
      assert DirOk(s, d);
      if n in s.ino[d].ents {
        assert EntryOk(s, d, n);
        Retained(s, step, d);
        Retained(s, step, s.ino[d].ents[n]);
        EntryKept(s, Apply(s, step), d, n);
      }
    }
  }

  lemma MkdirTree(s: State, step: Step)
    requires Inv(s) && Allowed(s, step) && step.CreateDir? && KindsOk(Apply(s, step))
    ensures TreeOk(Apply(s, step))
  {
    var r := Apply(s, step);
    NotLinked(s, step.ip);
    forall d: nat | d in r.linked ensures DirOk(r, d) { MkdirDir(s, step, d); }
    forall d: nat, n | d in r.linked && d < |r.ino| && n in r.ino[d].ents ensures EntryOk(r, d, n) {
      MkdirEntry(s, step, d, n);
    }
  }

  /** An empty directory is nobody's parent. */
  lemma EmptyHasNoKids(s: State, ip: nat, c: nat)
    requires TreeOk(s) && ip in s.linked && ip < |s.ino| && Empty(s.ino[ip].ents) && c in s.linked && ip != ROOT
    ensures c < |s.ino| && DOTDOT in s.ino[c].ents && s.ino[c].ents[DOTDOT] != ip
  {
    assert DirOk(s, c) && DirOk(s, ip);
  }

  /** The directory and the inode of an unlink. */
  lemma UnlinkIs(s: State, step: Step)
    requires Inv(s) && Allowed(s, step) && step.Unlink?
    ensures var ip := s.ino[step.dp].ents[step.name];
      && ip != step.dp && ip != ROOT && ip < |s.ino|
      && (s.ino[ip].kind.Dir? ==> ip in s.linked && s.linked[ip] == step.name)
      && (s.ino[ip].kind.Dir? ==> DOTDOT in s.ino[ip].ents && s.ino[ip].ents[DOTDOT] == step.dp)
      && (!s.ino[ip].kind.Dir? ==> ip !in s.linked)
  {
    var ip := s.ino[step.dp].ents[step.name];
    assert DirOk(s, step.dp) && EntryOk(s, step.dp, step.name) && DirOk(s, ROOT);
    if ip in s.linked { assert DirOk(s, ip); }
  }

  lemma UnlinkEffect(s: State, step: Step, d: nat)
    requires Inv(s) && Allowed(s, step) && step.Unlink? && d < |s.ino|
    ensures var r := Apply(s, step);
      && r.ino[d].kind == s.ino[d].kind && |r.ino| == |s.ino|
      && (forall n {:trigger n in r.ino[d].ents} ::
            n in r.ino[d].ents <==> n in s.ino[d].ents && !(d == step.dp && n == step.name))
      && (forall n {:trigger r.ino[d].ents[n]} :: n in r.ino[d].ents ==> r.ino[d].ents[n] == s.ino[d].ents[n])
      && (d in r.linked <==> d in s.linked && !(s.ino[d].kind.Dir? && s.ino[step.dp].ents[step.name] == d))
      && (d in r.linked ==> r.linked[d] == s.linked[d])
  {
    UnlinkIs(s, step);
  }

  lemma UnlinkDir(s: State, step: Step, d: nat)
    requires Inv(s) && Allowed(s, step) && step.Unlink? && d in Apply(s, step).linked && d in s.linked
    ensures DirOk(Apply(s, step), d)
  {
    var ip := s.ino[step.dp].ents[step.name];
    assert DirOk(s, d);
    var p := s.ino[d].ents[DOTDOT];
    assert DirOk(s, p);
    UnlinkIs(s, step);
    UnlinkEffect(s, step, d);
    UnlinkEffect(s, step, p);
    if s.ino[ip].kind.Dir? { EmptyHasNoKids(s, ip, d); }
    if d != ROOT { assert EntryOk(s, p, s.linked[d]); }
  }

  lemma UnlinkEntry(s: State, step: Step, d: nat, n: Name)
    requires Inv(s) && Allowed(s, step) && step.Unlink? && d in s.linked && d in Apply(s, step).linked
    requires d < |s.ino| && d < |Apply(s, step).ino| && n in Apply(s, step).ino[d].ents
    ensures EntryOk(Apply(s, step), d, n)
  {
    UnlinkIs(s, step);
    UnlinkEffect(s, step, d);
    assert EntryOk(s, d, n);
    var c := s.ino[d].ents[n];
    UnlinkEffect(s, step, c);
    if c in s.linked { assert DirOk(s, c); }
  }

  lemma UnlinkTree(s: State, step: Step)
    requires Inv(s) && Allowed(s, step) && step.Unlink? && KindsOk(Apply(s, step))
    ensures TreeOk(Apply(s, step))
  {
    var r := Apply(s, step);
    forall d: nat | d in r.linked ensures d in s.linked && d < |s.ino| {
      if d in s.linked { assert DirOk(s, d); }
    }
    forall d: nat | d in r.linked ensures DirOk(r, d) { UnlinkDir(s, step, d); }
    forall d: nat, n | d in r.linked && d < |r.ino| && n in r.ino[d].ents ensures EntryOk(r, d, n) {
      UnlinkEntry(s, step, d, n);
    }
  }

  lemma FreeDir(s: State, step: Step, d: nat)
    requires Inv(s) && Allowed(s, step) && step.Free? && step.ip !in s.linked && d in s.linked
    ensures DirOk(Apply(s, step), d)
  {
    assert DirOk(s, d) && DirOk(s, s.ino[d].ents[DOTDOT]);
  }

  lemma FreeEntry(s: State, step: Step, d: nat, n: Name)
    requires Inv(s) && Allowed(s, step) && step.Free? && step.ip !in s.linked && Names(s, step.ip) == {}
    requires d in s.linked && d < |s.ino| && n in Apply(s, step).ino[d].ents
    ensures EntryOk(Apply(s, step), d, n)
  {
    var ip := step.ip;
    assert DirOk(s, d) && EntryOk(s, d, n);
    var c := s.ino[d].ents[n];
    assert c == ip && n != DOT ==> (d, n) in Names(s, ip);
    assert c in s.linked ==> DirOk(s, c);
  }

  lemma FreeTree(s: State, step: Step)
    requires Inv(s) && Allowed(s, step) && step.Free? && step.ip !in s.linked && Names(s, step.ip) == {}
    requires KindsOk(Apply(s, step))
    ensures TreeOk(Apply(s, step))
  {
    var r := Apply(s, step);
    forall d: nat | d in r.linked ensures DirOk(r, d) { FreeDir(s, step, d); }
    forall d: nat, n | d in r.linked && d < |r.ino| && n in r.ino[d].ents ensures EntryOk(r, d, n) {
      FreeEntry(s, step, d, n);
    }
  }

  // ----- The counts -----

  ghost function B(b: bool): int { if b then 1 else 0 }

  /** (d, n) is one of the names of i. */
  predicate Named(s: State, d: nat, n: Name, i: nat) { d in s.linked && NamesIt(s, d, n, i) }

  lemma EnterName(s: State, step: Step, d: nat, n: Name, i: nat)
    requires Inv(s) && Allowed(s, step) && (step.CreateFile? || step.LinkEnter?) && i < |s.ino|
    ensures var ip := if step.CreateFile? then step.ip else s.pending[step.call];
      Named(Apply(s, step), d, n, i) <==> Named(s, d, n, i) || (d == step.dp && n == step.name && i == ip)
  {
    assert DirOk(s, step.dp);
    assert d in s.linked ==> DirOk(s, d);
  }

  lemma SameNames(s: State, r: State, i: nat)
    requires forall d: nat, n {:trigger Named(r, d, n, i)} :: Named(r, d, n, i) <==> Named(s, d, n, i)
    ensures Names(r, i) == Names(s, i)
  {
    forall x ensures x in Names(r, i) <==> x in Names(s, i) {
      assert x in Names(r, i) <==> Named(r, x.0, x.1, i);
      assert x in Names(s, i) <==> Named(s, x.0, x.1, i);
    }
  }

  lemma OneMoreName(s: State, r: State, i: nat, dp: nat, name: Name)
    requires !Named(s, dp, name, i)
    requires forall d: nat, n {:trigger Named(r, d, n, i)} ::
               Named(r, d, n, i) <==> Named(s, d, n, i) || (d == dp && n == name)
    ensures |Names(r, i)| == |Names(s, i)| + 1
  {
    forall x ensures x in Names(r, i) <==> x in Names(s, i) || x == (dp, name) {
      assert x in Names(r, i) <==> Named(r, x.0, x.1, i);
      assert x in Names(s, i) <==> Named(s, x.0, x.1, i);
    }
    assert Names(r, i) == Names(s, i) + {(dp, name)};
    assert (dp, name) !in Names(s, i);
  }

  /** One place more names the inode, none changes for another. */
  lemma EnterNames(s: State, step: Step, i: nat)
    requires Inv(s) && Allowed(s, step) && (step.CreateFile? || step.LinkEnter?) && i < |s.ino|
    ensures var ip := if step.CreateFile? then step.ip else s.pending[step.call];
      |Names(Apply(s, step), i)| == |Names(s, i)| + B(i == ip)
  {
    var ip := if step.CreateFile? then step.ip else s.pending[step.call];
    var r := Apply(s, step);
    forall d: nat, n ensures Named(r, d, n, i) <==> Named(s, d, n, i) || (d == step.dp && n == step.name && i == ip) {
      EnterName(s, step, d, n, i);
    }
    if i == ip { OneMoreName(s, r, i, step.dp, step.name); } else { SameNames(s, r, i); }
  }

  lemma MkdirName(s: State, step: Step, d: nat, n: Name, i: nat)
    requires Inv(s) && Allowed(s, step) && step.CreateDir? && i < |s.ino|
    ensures Named(Apply(s, step), d, n, i) <==>
              Named(s, d, n, i) || (d == step.dp && n == step.name && i == step.ip) || (d == step.ip && n == DOTDOT && i == step.dp)
    ensures !Named(s, step.dp, step.name, i) && !Named(s, step.ip, DOTDOT, i) && step.ip != step.dp
  {
    assert DirOk(s, step.dp);
    NotLinked(s, step.ip);
    assert d in s.linked ==> DirOk(s, d);
  }

  lemma MkdirNames(s: State, step: Step, i: nat)
    requires Inv(s) && Allowed(s, step) && step.CreateDir? && i < |s.ino|
    ensures |Names(Apply(s, step), i)| == |Names(s, i)| + B(i == step.ip) + B(i == step.dp)
  {
    var r, ip, dp, name := Apply(s, step), step.ip, step.dp, step.name;
    forall d: nat, n ensures Named(r, d, n, i) <==>
        Named(s, d, n, i) || (d == dp && n == name && i == ip) || (d == ip && n == DOTDOT && i == dp)
    {
      MkdirName(s, step, d, n, i);
    }
    MkdirName(s, step, dp, name, i);
    if i == ip { OneMoreName(s, r, i, dp, name); } else if i == dp { OneMoreName(s, r, i, ip, DOTDOT); } else { SameNames(s, r, i); }
  }

  lemma UnlinkName(s: State, step: Step, d: nat, n: Name, i: nat)
    requires Inv(s) && Allowed(s, step) && step.Unlink? && i < |s.ino|
    ensures var ip := s.ino[step.dp].ents[step.name];
      && Named(s, step.dp, step.name, ip)
      && (s.ino[ip].kind.Dir? ==> Named(s, ip, DOTDOT, step.dp) && ip != step.dp)
      && (Named(Apply(s, step), d, n, i) <==>
            Named(s, d, n, i) && !(d == step.dp && n == step.name && i == ip)
            && !(s.ino[ip].kind.Dir? && d == ip && n == DOTDOT && i == step.dp))
  {
    var ip := s.ino[step.dp].ents[step.name];
    UnlinkIs(s, step);
    assert d in s.linked ==> DirOk(s, d);
    if d in s.linked { UnlinkEffect(s, step, d); }
  }

  lemma UnlinkNames(s: State, step: Step, i: nat)
    requires Inv(s) && Allowed(s, step) && step.Unlink? && i < |s.ino|
    ensures var ip := s.ino[step.dp].ents[step.name];
      |Names(Apply(s, step), i)| + B(i == ip) + B(s.ino[ip].kind.Dir? && i == step.dp) == |Names(s, i)|
  {
    var r, dp, name := Apply(s, step), step.dp, step.name;
    var ip := s.ino[dp].ents[name];
    forall d: nat, n ensures Named(r, d, n, i) <==>
        Named(s, d, n, i) && !(d == dp && n == name && i == ip) && !(s.ino[ip].kind.Dir? && d == ip && n == DOTDOT && i == dp)
    {
      UnlinkName(s, step, d, n, i);
    }
    UnlinkName(s, step, dp, name, i);
    if i == ip {
      OneMoreName(r, s, i, dp, name);
    } else if s.ino[ip].kind.Dir? && i == dp {
      OneMoreName(r, s, i, ip, DOTDOT);
    } else {
      SameNames(s, r, i);
    }
  }

  lemma OtherNames(s: State, step: Step, i: nat)
    requires Inv(s) && Allowed(s, step) && (step.CreateFails? || step.LinkStart? || step.LinkFails? || step.Free?) && i < |s.ino|
    requires step.Free? ==> step.ip !in s.linked
    ensures Names(Apply(s, step), i) == Names(s, i)
  {
    var r := Apply(s, step);
    if step.CreateFails? { NotLinked(s, step.ip); }
    forall d: nat, n ensures Named(r, d, n, i) <==> Named(s, d, n, i) { assert d in s.linked ==> DirOk(s, d); }
    SameNames(s, r, i);
  }

  lemma HoldersStep(pending: map<nat, nat>, c: nat, ip: nat, i: nat)
    requires c !in pending
    ensures |HoldersOf(pending[c := ip], i)| == |HoldersOf(pending, i)| + B(ip == i)
    ensures pending[c := ip] - {c} == pending
  {
    assert HoldersOf(pending[c := ip], i) == if ip == i then HoldersOf(pending, i) + {c} else HoldersOf(pending, i);
  }

  lemma HoldersChange(s: State, step: Step, i: nat)
    requires Enabled(s, step)
    ensures |Holders(Apply(s, step), i)| + B((step.LinkEnter? || step.LinkFails?) && s.pending[step.call] == i)
              == |Holders(s, i)| + B(step.LinkStart? && step.ip == i)
  {
    var r := Apply(s, step);
    if step.LinkStart? {
      HoldersStep(s.pending, step.call, step.ip, i);
    } else if step.LinkEnter? || step.LinkFails? {
      assert r.pending == s.pending - {step.call};
      HoldersStep(r.pending, step.call, s.pending[step.call], i);
      assert s.pending == r.pending[step.call := s.pending[step.call]];
    } else {
      assert r.pending == s.pending;
    }
  }

  lemma UnallocatedUnnamed(s: State, ip: nat)
    requires Inv(s) && ip < |s.ino| && s.ino[ip].kind.Unallocated?
    ensures Total(s, ip) == 0
  {
    forall x ensures x !in Names(s, ip) {
      assert x in Names(s, ip) ==> EntryOk(s, x.0, x.1);
    }
    assert Names(s, ip) == {};
    assert Holders(s, ip) == {};
  }

  /** A directory that hangs in the tree has a name. */
  lemma LinkedIsNamed(s: State, d: nat)
    requires Inv(s) && d in s.linked
    ensures d < |s.ino| && Names(s, d) != {}
  {
    assert DirOk(s, d);
    var p := s.ino[d].ents[DOTDOT];
    assert DirOk(s, p);
    if d == ROOT { assert Named(s, ROOT, DOTDOT, d) && (ROOT, DOTDOT) in Names(s, d); }
    else { assert (p, s.linked[d]) in Names(s, d); }
  }

  /** iput frees only inodes that nothing names. */
  lemma FreedIsUnnamed(s: State, ip: nat)
    requires Inv(s) && Enabled(s, Free(ip))
    ensures Names(s, ip) == {} && Holders(s, ip) == {} && ip !in s.linked
  {
    assert Total(s, ip) == 0;
    if ip in s.linked { LinkedIsNamed(s, ip); }
  }

  /** By how much a step changes what names or holds inode i. */
  ghost function Change(s: State, step: Step, i: nat): int
    requires Allowed(s, step)
  {
    match step
    case CreateFile(_, _, ip) => B(i == ip)
    case CreateDir(dp, _, ip) => B(i == ip) + B(i == dp)
    case LinkStart(_, ip) => B(i == ip)
    case LinkFails(c) => -B(i == s.pending[c])
    case Unlink(dp, name) =>
      var ip := s.ino[dp].ents[name];
      -B(i == ip) - B(s.ino[ip].kind.Dir? && i == dp)
    case _ => 0
  }

  lemma TotalStep(s: State, step: Step, i: nat)
    requires Inv(s) && Allowed(s, step) && i < |s.ino|
    ensures Total(Apply(s, step), i) == Total(s, i) + Change(s, step, i)
  {
    HoldersChange(s, step, i);
    if step.CreateFile? || step.LinkEnter? {
      EnterNames(s, step, i);
    } else if step.CreateDir? {
      MkdirNames(s, step, i);
    } else if step.Unlink? {
      UnlinkNames(s, step, i);
    } else {
      if step.Free? { FreedIsUnnamed(s, step.ip); }
      OtherNames(s, step, i);
    }
  }

  lemma ShortFits(x: int)
    requires -0x8000 <= x <= 0x7FFF
    ensures Short(x) == x
  {
  }

  lemma NlinkUnlink(s: State, step: Step, i: nat)
    requires Inv(s) && Fits(s) && Allowed(s, step) && step.Unlink? && i < |s.ino|
    ensures |Apply(s, step).ino| == |s.ino|
    ensures Apply(s, step).ino[i].nlink == Short(s.ino[i].nlink + Change(s, step, i))
  {
    assert s.ino[i].nlink == Total(s, i) <= 0x7FFF;
    ShortFits(s.ino[i].nlink);
    UnlinkIs(s, step);
  }

  lemma NlinkStep(s: State, step: Step, i: nat)
    requires Inv(s) && Fits(s) && Allowed(s, step) && i < |s.ino|
    ensures |Apply(s, step).ino| == |s.ino|
    ensures Apply(s, step).ino[i].nlink == Short(s.ino[i].nlink + Change(s, step, i))
  {
    assert s.ino[i].nlink == Total(s, i) <= 0x7FFF;
    ShortFits(s.ino[i].nlink);
    if step.Unlink? {
      NlinkUnlink(s, step, i);
    } else if s.ino[i].kind.Unallocated? {
      UnallocatedUnnamed(s, i);
    }
  }

  lemma CountStep(s: State, step: Step)
    requires Inv(s) && Fits(s) && Allowed(s, step) && Fits(Apply(s, step))
    ensures CountsOk(Apply(s, step))
  {
    assert DirOk(s, ROOT);
    NlinkStep(s, step, ROOT);
    forall i: nat | i < |Apply(s, step).ino| ensures Apply(s, step).ino[i].nlink == Total(Apply(s, step), i) {
      CountOfStep(s, step, i);
    }
  }

  lemma CountOfStep(s: State, step: Step, i: nat)
    requires Inv(s) && Fits(s) && Allowed(s, step) && Fits(Apply(s, step)) && i < |s.ino|
    ensures |Apply(s, step).ino| == |s.ino| && Apply(s, step).ino[i].nlink == Total(Apply(s, step), i)
  {
    NlinkStep(s, step, i);
    TotalStep(s, step, i);
    assert s.ino[i].nlink == Total(s, i);
    assert Total(Apply(s, step), i) <= 0x7FFF;
  }

  /** A directory that was emptied and unlinked had no other name. */
  lemma UnlinkedIsUnnamed(s: State, step: Step)
    requires Inv(s) && Allowed(s, step) && step.Unlink? && s.ino[s.ino[step.dp].ents[step.name]].kind.Dir?
    ensures Total(Apply(s, step), s.ino[step.dp].ents[step.name]) == 0
  {
    var r, ip := Apply(s, step), s.ino[step.dp].ents[step.name];
    UnlinkIs(s, step);
    forall x ensures x !in Names(r, ip) { UnlinkedNot(s, step, x.0, x.1); }
    assert Names(r, ip) == {};
    forall c | c in s.pending ensures s.pending[c] != ip { assert s.ino[s.pending[c]].kind.File?; }
    assert r.pending == s.pending;
    assert Holders(r, ip) == {};
  }

  lemma UnlinkedNot(s: State, step: Step, d: nat, n: Name)
    requires Inv(s) && Allowed(s, step) && step.Unlink? && s.ino[s.ino[step.dp].ents[step.name]].kind.Dir?
    ensures !Named(Apply(s, step), d, n, s.ino[step.dp].ents[step.name])
  {
    var ip := s.ino[step.dp].ents[step.name];
    UnlinkIs(s, step);
    UnlinkName(s, step, d, n, ip);
    if Named(s, d, n, ip) {
      assert EntryOk(s, d, n);
      EmptyHasNoKids(s, ip, d);
    }
  }

  lemma KindsStep(s: State, step: Step)
    requires Inv(s) && Allowed(s, step) && CountsOk(Apply(s, step))
    ensures KindsOk(Apply(s, step))
  {
    var r := Apply(s, step);
    if step.Unlink? { UnlinkIs(s, step); }
    if step.Free? { FreedIsUnnamed(s, step.ip); }
    forall i: nat | i < |r.ino| && r.ino[i].kind.Dir? && i !in r.linked ensures r.ino[i].nlink == 0 && Empty(r.ino[i].ents) {
      KindStep(s, step, i);
    }
    forall c: nat | c in r.pending ensures r.pending[c] < |r.ino| && r.ino[r.pending[c]].kind.File? {
      HolderStep(s, step, c);
    }
  }

  lemma KindStep(s: State, step: Step, i: nat)
    requires Inv(s) && Allowed(s, step) && CountsOk(Apply(s, step)) && i < |Apply(s, step).ino|
    requires Apply(s, step).ino[i].kind.Dir? && i !in Apply(s, step).linked
    ensures Apply(s, step).ino[i].nlink == 0 && Empty(Apply(s, step).ino[i].ents)
  {
    if step.Unlink? && i == s.ino[step.dp].ents[step.name] {
      UnlinkedIsUnnamed(s, step);
      assert Apply(s, step).ino[i].nlink == Total(Apply(s, step), i);
    } else {
      assert s.ino[i] == s.ino[i];
    }
  }

  lemma HolderStep(s: State, step: Step, c: nat)
    requires Inv(s) && Allowed(s, step) && c in Apply(s, step).pending
    ensures var r := Apply(s, step); r.pending[c] < |r.ino| && r.ino[r.pending[c]].kind.File?
  {
    if c in s.pending { assert s.ino[s.pending[c]].kind.File?; }
  }

  /** What a caller can look at before a step: no count is at its limit, and no entry goes into a removed directory. */
  predicate CountSafe(s: State, step: Step)
    requires Enabled(s, step)
  {
    match step
    case CreateFile(dp, _, _) => dp in s.linked
    case CreateDir(dp, _, _) => dp in s.linked && s.ino[dp].nlink < 0x7FFF
    case LinkStart(_, ip) => s.ino[ip].nlink < 0x7FFF
    case LinkEnter(_, dp, _) => dp in s.linked
    case _ => true
  }

  /** In a removed directory there is nothing to unlink. */
  lemma SafeIsAllowed(s: State, step: Step)
    requires Inv(s) && Enabled(s, step) && CountSafe(s, step)
    ensures Allowed(s, step)
  {
    assert step.Unlink? ==> step.dp in s.linked || Empty(s.ino[step.dp].ents);
  }

  lemma SafeFits(s: State, step: Step)
    requires Inv(s) && Fits(s) && Enabled(s, step) && CountSafe(s, step)
    ensures Allowed(s, step) && Fits(Apply(s, step))
  {
    SafeIsAllowed(s, step);
    forall i: nat | i < |Apply(s, step).ino| ensures Total(Apply(s, step), i) <= 0x7FFF {
      NlinkStep(s, step, i);
      TotalStep(s, step, i);
      assert s.ino[i].nlink == Total(s, i);
      if s.ino[i].kind.Unallocated? { UnallocatedUnnamed(s, i); }
    }
  }

  lemma StepKeepsInv(s: State, step: Step)
    requires Inv(s) && Fits(s) && Enabled(s, step) && CountSafe(s, step)
    ensures Inv(Apply(s, step)) && Fits(Apply(s, step))
  {
    SafeFits(s, step);
    CountStep(s, step);
    KindsStep(s, step);
    match step
    case CreateDir(_, _, _) => MkdirTree(s, step);
    case Unlink(_, _) => UnlinkTree(s, step);
    case Free(ip) => FreedIsUnnamed(s, ip); FreeTree(s, step);
    case _ => AddTree(s, step);
  }

  /** Every step of the run was safe where it was taken. */
  predicate Safe(s: State, steps: seq<Step>)
    requires IsRun(s, steps)
    decreases |steps|
  {
    steps == [] || (CountSafe(s, steps[0]) && Safe(Apply(s, steps[0]), steps[1..]))
  }

  lemma {:induction false} RunKeepsInv(s: State, steps: seq<Step>)
    requires Inv(s) && Fits(s) && IsRun(s, steps) && Safe(s, steps)
    ensures Inv(Run(s, steps)) && Fits(Run(s, steps))
    decreases |steps|
  {
    if steps != [] {
      StepKeepsInv(s, steps[0]);
      RunKeepsInv(Apply(s, steps[0]), steps[1..]);
    }
  }

  // ----- Main results -----

  lemma FullCountBreaks(s: State, step: Step)
    requires Inv(s) && Fits(s) && Enabled(s, step) && !CountSafe(s, step)
    requires step.LinkStart? || (step.CreateDir? && step.dp in s.linked)
    ensures !CountsOk(Apply(s, step))
  {
    var i := if step.LinkStart? then step.ip else step.dp;
    if step.CreateDir? { NotLinked(s, step.ip); }
    assert s.ino[i].nlink == Total(s, i);
    assert Apply(s, step).ino[i].nlink != Total(Apply(s, step), i);
  }

  lemma LostLinkBreaks(s: State, step: Step)
    requires Inv(s) && Enabled(s, step) && step.LinkEnter? && step.dp !in s.linked
    ensures !CountsOk(Apply(s, step))
  {
    var r, ip := Apply(s, step), s.pending[step.call];
    assert s.ino[ip].nlink == Total(s, ip);
    forall d: nat, n ensures Named(r, d, n, ip) <==> Named(s, d, n, ip) { }
    SameNames(s, r, ip);
    HoldersChange(s, step, ip);
    assert r.ino[ip].nlink != Total(r, ip);
  }

  /** An unsafe step always breaks the counts: of the directory, of the linked file, or of the new inode. */
  lemma UnsafeBreaks(s: State, step: Step)
    requires Inv(s) && Fits(s) && Enabled(s, step) && !CountSafe(s, step)
    ensures !CountsOk(Apply(s, step))
  {
    if step.LinkEnter? {
      LostLinkBreaks(s, step);
    } else if step.LinkStart? || step.dp in s.linked {
      FullCountBreaks(s, step);
    } else {
      RemovedDirectoryLeaks(s, step);
      assert Apply(s, step).ino[step.ip].nlink != Total(Apply(s, step), step.ip);
    }
  }

  /** The exact condition, step by step: the counts are right after a step if and only if the step was safe. */
  lemma CountsIffSafe(s: State, step: Step)
    requires Inv(s) && Fits(s) && Enabled(s, step)
    ensures CountsOk(Apply(s, step)) <==> CountSafe(s, step)
  {
    if CountSafe(s, step) { StepKeepsInv(s, step); } else { UnsafeBreaks(s, step); }
  }

  /** The counts are right in every state of the run. */
  ghost predicate AlwaysCounts(s: State, steps: seq<Step>)
    requires IsRun(s, steps)
    decreases |steps|
  {
    CountsOk(s) && (steps == [] || AlwaysCounts(Apply(s, steps[0]), steps[1..]))
  }

  /** And over whole runs: nlink counts names all along if and only if every step was safe. */
  lemma {:induction false} RunCountsIffSafe(s: State, steps: seq<Step>)
    requires Inv(s) && Fits(s) && IsRun(s, steps)
    ensures AlwaysCounts(s, steps) <==> Safe(s, steps)
    decreases |steps|
  {
    if steps != [] {
      var r := Apply(s, steps[0]);
      CountsIffSafe(s, steps[0]);
      if CountSafe(s, steps[0]) {
        StepKeepsInv(s, steps[0]);
        RunCountsIffSafe(r, steps[1..]);
      } else {
        assert !AlwaysCounts(r, steps[1..]);
      }
    }
  }

  /** nlink counts names: exactly the entries in the tree, plus the links that are just being made. */
  lemma LinkCounts(n: nat, steps: seq<Step>, i: nat)
    requires ROOT < n && IsRun(Init(n), steps) && Safe(Init(n), steps) && i < |Run(Init(n), steps).ino|
    ensures var s := Run(Init(n), steps);
      && s.ino[i].nlink == |Names(s, i)| + |Holders(s, i)|
      && (s.pending == map[] ==> s.ino[i].nlink == |Names(s, i)|)
  {
    InitInv(n);
    RunKeepsInv(Init(n), steps);
    var s := Run(Init(n), steps);
    assert s.ino[i].nlink == Total(s, i);
    if s.pending == map[] { assert Holders(s, i) == {}; }
  }

  /** sys_unlink's panic "nlink < 1" cannot happen: whatever a linked directory names has a count to give up. */
  lemma UnlinkNeverPanics(n: nat, steps: seq<Step>, dp: nat, name: Name)
    requires ROOT < n && IsRun(Init(n), steps) && Safe(Init(n), steps)
    requires var s := Run(Init(n), steps);
      IsDir(s, dp) && dp in s.linked && name in s.ino[dp].ents && name != DOT
    ensures var s := Run(Init(n), steps); s.ino[dp].ents[name] < |s.ino| && s.ino[s.ino[dp].ents[name]].nlink >= 1
  {
    InitInv(n);
    RunKeepsInv(Init(n), steps);
    var s := Run(Init(n), steps);
    assert EntryOk(s, dp, name);
    var ip := s.ino[dp].ents[name];
    assert (dp, name) in Names(s, ip);
    assert s.ino[ip].nlink == Total(s, ip);
  }

  /** iput never frees an inode that some place in the tree names. */
  lemma NamedIsNeverFreed(n: nat, steps: seq<Step>, ip: nat)
    requires ROOT < n && IsRun(Init(n), steps) && Safe(Init(n), steps) && Enabled(Run(Init(n), steps), Free(ip))
    ensures Names(Run(Init(n), steps), ip) == {} && ip !in Run(Init(n), steps).linked
  {
    InitInv(n);
    RunKeepsInv(Init(n), steps);
    FreedIsUnnamed(Run(Init(n), steps), ip);
  }

  /** At the bound one link more makes the count negative, so that unlinking any of the 32767 names panics. */
  lemma CountOverflows(s: State, call: nat, ip: nat, dp: nat, name: Name)
    requires Inv(s) && Enabled(s, LinkStart(call, ip)) && Total(s, ip) == 0x7FFF && Named(s, dp, name, ip)
    ensures Apply(s, LinkStart(call, ip)).ino[ip].nlink == -0x8000
    ensures !Enabled(Apply(s, LinkStart(call, ip)), Unlink(dp, name))
  {
    assert s.ino[ip].nlink == Total(s, ip);
  }

  /**
  create does not look at dp->nlink. In a directory that has been removed but is still some process's working
  directory it makes an inode with a count of 1 that nothing in the tree names, so that iput will never free it.
  */
  lemma RemovedDirectoryLeaks(s: State, step: Step)
    requires Inv(s) && Enabled(s, step) && (step.CreateFile? || step.CreateDir?) && step.dp !in s.linked
    ensures var r, ip := Apply(s, step), step.ip;
      ip < |r.ino| && r.ino[ip].nlink == 1 && Names(r, ip) == {} && Holders(r, ip) == {} && !Enabled(r, Free(ip))
  {
    var r, ip := Apply(s, step), step.ip;
    UnallocatedUnnamed(s, ip);
    NotLinked(s, ip);
    forall d: nat, n ensures Named(r, d, n, ip) <==> Named(s, d, n, ip) { }
    SameNames(s, r, ip);
  }

  const REMOVING: seq<Step> := [CreateDir(ROOT, "d", 2), Unlink(ROOT, "d"), CreateFile(2, "f", 3)]

  /** It can happen: mkdir d, rmdir d while somebody is in it, and a file is made there. */
  lemma LeakReachable()
    ensures IsRun(Init(4), REMOVING) && !AlwaysCounts(Init(4), REMOVING)
    ensures var r := Run(Init(4), REMOVING); |r.ino| == 4 && r.ino[3].nlink == 1 && Names(r, 3) == {} && !Enabled(r, Free(3))
  {
    InitInv(4);
    var s1 := Apply(Init(4), REMOVING[0]);
    StepKeepsInv(Init(4), REMOVING[0]);
    var s2 := Apply(s1, REMOVING[1]);
    StepKeepsInv(s1, REMOVING[1]);
    RemovedDirectoryLeaks(s2, REMOVING[2]);
    var r := Apply(s2, REMOVING[2]);
    OneStep(s2, REMOVING[2..], r);
    OneStep(s1, REMOVING[1..], s2);
    OneStep(Init(4), REMOVING, s1);
    RunCountsIffSafe(Init(4), REMOVING);
  }

  lemma OneStep(s: State, steps: seq<Step>, r: State)
    requires steps != [] && Enabled(s, steps[0]) && Apply(s, steps[0]) == r && IsRun(r, steps[1..])
    ensures IsRun(s, steps) && Run(s, steps) == Run(r, steps[1..])
    ensures Safe(s, steps) <==> CountSafe(s, steps[0]) && Safe(r, steps[1..])
  {
  }

  // ----- What each operation leaves behind -----

  /** Nothing but the inodes in a has changed. */
  ghost predicate SameBut(s: State, r: State, a: set<nat>) {
    |r.ino| == |s.ino| && forall i: nat {:trigger r.ino[i]} :: i < |s.ino| && i !in a ==> r.ino[i] == s.ino[i]
  }

  /** Directory d has gained name, for ip, and has everything it had. */
  ghost predicate Gained(s: State, r: State, d: nat, name: Name, ip: nat) {
    && d < |s.ino| == |r.ino| && r.ino[d].kind.Dir? && name in r.ino[d].ents && r.ino[d].ents[name] == ip
    && (forall n {:trigger n in r.ino[d].ents} :: n in r.ino[d].ents <==> n in s.ino[d].ents || n == name)
    && forall n {:trigger n in s.ino[d].ents} :: n in s.ino[d].ents ==> n in r.ino[d].ents && r.ino[d].ents[n] == s.ino[d].ents[n]
  }

  /** create: the new inode has one name, a new directory also its "." and ".."; the parent counts a "..". */
  lemma CreateMeans(s: State, step: Step)
    requires Inv(s) && Enabled(s, step) && (step.CreateFile? || step.CreateDir?)
    ensures var r, dp, ip := Apply(s, step), step.dp, step.ip;
      && SameBut(s, r, {dp, ip}) && r.pending == s.pending && ip < |r.ino| && dp < |r.ino|
      && Gained(s, r, dp, step.name, ip) && r.ino[ip].nlink == 1
      && (step.CreateFile? ==> r.ino[ip].kind.File? && r.ino[ip].ents == map[] && r.ino[dp].nlink == s.ino[dp].nlink)
      && (step.CreateDir? ==>
            && r.ino[ip].kind.Dir? && r.ino[ip].ents == map[DOT := ip, DOTDOT := dp]
            && (-1 <= s.ino[dp].nlink < 0x7FFF ==> r.ino[dp].nlink == s.ino[dp].nlink + 1))
  {
    if step.CreateDir? && -1 <= s.ino[step.dp].nlink < 0x7FFF { ShortFits(s.ino[step.dp].nlink + 1); }
  }

  /** A create that fails leaves an inode that nothing names, which iput can free at once. */
  lemma CreateFailsMeans(s: State, ip: nat, dir: bool)
    requires Inv(s) && Enabled(s, CreateFails(ip, dir))
    ensures var r := Apply(s, CreateFails(ip, dir));
      && SameBut(s, r, {ip}) && r.pending == s.pending && r.linked == s.linked
      && Enabled(r, Free(ip)) && Apply(r, Free(ip)).ino[ip].kind.Unallocated? && SameBut(s, Apply(r, Free(ip)), {ip})
  {
    forall c | c in s.pending ensures s.pending[c] != ip { assert s.ino[s.pending[c]].kind.File?; }
  }

  /** sys_link that goes through: whatever comes in between, the count went up once and the name was entered once. */
  lemma LinkMeans(s: State, call: nat, ip: nat)
    requires Inv(s) && Enabled(s, LinkStart(call, ip)) && s.ino[ip].nlink < 0x7FFF
    ensures var r := Apply(s, LinkStart(call, ip));
      && SameBut(s, r, {ip}) && call in r.pending && r.pending[call] == ip
      && (forall c :: c != call ==> (c in r.pending <==> c in s.pending) && (c in s.pending ==> r.pending[c] == s.pending[c]))
      && ip < |r.ino| && r.ino[ip].nlink == s.ino[ip].nlink + 1 && r.ino[ip].kind.File? && r.ino[ip].ents == s.ino[ip].ents
  {
    assert s.ino[ip].nlink == Total(s, ip);
    ShortFits(s.ino[ip].nlink + 1);
  }

  lemma LinkEndMeans(s: State, step: Step)
    requires Inv(s) && Enabled(s, step) && (step.LinkEnter? || step.LinkFails?)
    ensures var r, ip := Apply(s, step), s.pending[step.call];
      && ip < |s.ino| && step.call !in r.pending && s.ino[ip].nlink >= 1
      && (forall c :: c != step.call ==> (c in r.pending <==> c in s.pending) && (c in r.pending ==> r.pending[c] == s.pending[c]))
      && (step.LinkEnter? ==>
            && SameBut(s, r, {step.dp}) && Gained(s, r, step.dp, step.name, ip)
            && r.ino[step.dp].nlink == s.ino[step.dp].nlink)
      && (step.LinkFails? && s.ino[ip].nlink <= 0x7FFF ==>
            SameBut(s, r, {ip}) && r.ino[ip] == s.ino[ip].(nlink := s.ino[ip].nlink - 1))
  {
    var ip := s.pending[step.call];
    assert s.ino[ip].kind.File?;
    assert step.call in Holders(s, ip);
    assert s.ino[ip].nlink == Total(s, ip);
    if step.LinkFails? && s.ino[ip].nlink <= 0x7FFF { ShortFits(s.ino[ip].nlink - 1); }
  }

  /** sys_unlink: the name is gone, the inode has one count less, and so has the parent of a directory for its "..". */
  lemma UnlinkMeans(s: State, dp: nat, name: Name)
    requires Inv(s) && Fits(s) && Enabled(s, Unlink(dp, name))
    ensures var r, ip := Apply(s, Unlink(dp, name)), s.ino[dp].ents[name];
      && ip != dp && SameBut(s, r, {dp, ip}) && r.pending == s.pending && name !in r.ino[dp].ents
      && Gained(r, s, dp, name, ip)
      && r.ino[ip] == s.ino[ip].(nlink := s.ino[ip].nlink - 1)
      && r.ino[dp].nlink == s.ino[dp].nlink - (if s.ino[ip].kind.Dir? then 1 else 0)
  {
    var step, ip := Unlink(dp, name), s.ino[dp].ents[name];
    assert CountSafe(s, step);
    SafeIsAllowed(s, step);
    UnlinkIs(s, step);
    UnlinkEffect(s, step, dp);
    UnlinkedCounts(s, dp, name);
    assert |s.ino| == |Apply(s, step).ino|;
  }

  lemma UnlinkedCounts(s: State, dp: nat, name: Name)
    requires Inv(s) && Fits(s) && Allowed(s, Unlink(dp, name)) && s.ino[dp].ents[name] != dp
    ensures var r, ip := Apply(s, Unlink(dp, name)), s.ino[dp].ents[name];
      && ip < |r.ino| && dp < |r.ino| && r.ino[ip].nlink == s.ino[ip].nlink - 1
      && r.ino[dp].nlink == s.ino[dp].nlink - (if s.ino[ip].kind.Dir? then 1 else 0)
  {
    var ip := s.ino[dp].ents[name];
    assert s.ino[ip].nlink == Total(s, ip) && s.ino[dp].nlink == Total(s, dp);
    ShortFits(s.ino[ip].nlink - 1);
    ShortFits(s.ino[dp].nlink - 1);
  }

  /** iput frees exactly the allocated inodes that nothing names or is about to name, and touches no other. */
  lemma FreeMeans(s: State, ip: nat)
    requires Inv(s) && ip < |s.ino| && !s.ino[ip].kind.Unallocated?
    ensures Enabled(s, Free(ip)) <==> Names(s, ip) == {} && Holders(s, ip) == {}
    ensures Enabled(s, Free(ip)) ==>
      var r := Apply(s, Free(ip));
      && SameBut(s, r, {ip}) && r.pending == s.pending && r.linked == s.linked
      && ip < |r.ino| && r.ino[ip].kind.Unallocated? && r.ino[ip].ents == map[]
  {
    assert s.ino[ip].nlink == Total(s, ip);
    if Enabled(s, Free(ip)) { FreedIsUnnamed(s, ip); }
    if Holders(s, ip) == {} {
      forall c | c in s.pending ensures s.pending[c] != ip { assert s.pending[c] == ip ==> c in Holders(s, ip); }
    }
  }

  // ----- A run that reaches the bound -----

  /** The kth of many different names: four letters. */
  function Label(k: nat): Name {
    [Letter(k / 16 / 16 / 16 % 16), Letter(k / 16 / 16 % 16), Letter(k / 16 % 16), Letter(k % 16)]
  }

  function Letter(d: nat): char
    requires d < 16
  {
    (97 + d) as char
  }

  lemma LabelsDiffer(j: nat, k: nat)
    requires j < 0x1_0000 && k < 0x1_0000 && Label(j) == Label(k)
    ensures j == k
  {
    assert Label(j)[0] == Label(k)[0] && Label(j)[1] == Label(k)[1] && Label(j)[2] == Label(k)[2] && Label(j)[3] == Label(k)[3];
    SameDigit(j / 16 / 16, k / 16 / 16);
    SameDigit(j / 16, k / 16);
    SameDigit(j, k);
  }

  lemma SameDigit(j: nat, k: nat)
    requires Letter(j % 16) == Letter(k % 16)
    ensures j / 16 == k / 16 ==> j == k
  {
  }

  /** Two directories take the names, since one cannot hold them all: a file has at most 268 blocks. */
  function Place(k: nat): nat { if k < 0x4000 then ROOT else 2 }

  /** File 3 has names 0 to k, and no others of the list are taken. */
  ghost predicate Linked(s: State, k: nat) {
    && Inv(s) && Fits(s) && |s.ino| == 4 && s.pending == map[] && ROOT in s.linked && 2 in s.linked
    && s.ino[3].kind.File? && s.ino[3].nlink == k + 1
    && Named(s, Place(k), Label(k), 3)
    && forall j: nat {:trigger Label(j)} :: k < j < 0x1_0000 ==> Label(j) !in s.ino[ROOT].ents && Label(j) !in s.ino[2].ents
  }

  lemma LinkedStart()
    ensures var steps := [CreateDir(ROOT, ".d", 2), CreateFile(ROOT, Label(0), 3)];
      IsRun(Init(4), steps) && Safe(Init(4), steps) && Linked(Run(Init(4), steps), 0)
  {
    var steps := [CreateDir(ROOT, ".d", 2), CreateFile(ROOT, Label(0), 3)];
    InitInv(4);
    var s1 := Apply(Init(4), steps[0]);
    StepKeepsInv(Init(4), steps[0]);
    assert ".d" != Label(0) && DOT != Label(0) && DOTDOT != Label(0);
    var s2 := Apply(s1, steps[1]);
    StepKeepsInv(s1, steps[1]);
    OneStep(s1, steps[1..], s2);
    OneStep(Init(4), steps, s1);
    forall j: nat | 0 < j < 0x1_0000 ensures Label(j) !in s2.ino[ROOT].ents && Label(j) !in s2.ino[2].ents {
      if Label(j) == Label(0) { LabelsDiffer(j, 0); }
    }
  }

  /** One more link, in its two steps. */
  lemma LinkedMore(s: State, k: nat) returns (r: State)
    requires Linked(s, k) && k + 1 < 0x7FFF
    ensures var steps := [LinkStart(0, 3), LinkEnter(0, Place(k + 1), Label(k + 1))];
      IsRun(s, steps) && Safe(s, steps) && r == Run(s, steps) && Linked(r, k + 1)
  {
    var steps := [LinkStart(0, 3), LinkEnter(0, Place(k + 1), Label(k + 1))];
    assert DirOk(s, Place(k + 1));
    var s1 := Apply(s, steps[0]);
    StepKeepsInv(s, steps[0]);
    LinkedReady(s, s1, k);
    r := Apply(s1, steps[1]);
    StepKeepsInv(s1, steps[1]);
    LinkedEnter(s, s1, r, k);
    OneStep(s1, steps[1..], r);
    OneStep(s, steps, s1);
  }

  lemma LinkedReady(s: State, s1: State, k: nat)
    requires Linked(s, k) && k + 1 < 0x7FFF && Enabled(s, LinkStart(0, 3)) && s1 == Apply(s, LinkStart(0, 3))
    ensures var step := LinkEnter(0, Place(k + 1), Label(k + 1)); Enabled(s1, step) && CountSafe(s1, step)
  {
    assert DirOk(s, Place(k + 1));
  }

  lemma LinkedEnter(s: State, s1: State, r: State, k: nat)
    requires Linked(s, k) && k + 1 < 0x7FFF && Enabled(s, LinkStart(0, 3)) && s1 == Apply(s, LinkStart(0, 3))
    requires var step := LinkEnter(0, Place(k + 1), Label(k + 1)); Enabled(s1, step) && r == Apply(s1, step)
    requires Inv(r) && Fits(r)
    ensures Linked(r, k + 1)
  {
    assert DOT != Label(k + 1);
    assert s1.pending - {0} == map[];
    forall j: nat | k + 1 < j < 0x1_0000 ensures Label(j) !in r.ino[ROOT].ents && Label(j) !in r.ino[2].ents {
      LabelStaysFree(s, s1, r, k, j);
    }
    assert Named(r, Place(k + 1), Label(k + 1), 3);
  }

  lemma LabelStaysFree(s: State, s1: State, r: State, k: nat, j: nat)
    requires Linked(s, k) && k + 1 < j < 0x1_0000 && Enabled(s, LinkStart(0, 3)) && s1 == Apply(s, LinkStart(0, 3))
    requires Enabled(s1, LinkEnter(0, Place(k + 1), Label(k + 1))) && r == Apply(s1, LinkEnter(0, Place(k + 1), Label(k + 1)))
    ensures |r.ino| == 4 && Label(j) !in r.ino[ROOT].ents && Label(j) !in r.ino[2].ents
  {
    if Label(j) == Label(k + 1) { LabelsDiffer(j, k + 1); }
  }

  lemma {:induction false} LinkedRuns(k: nat) returns (steps: seq<Step>)
    requires k < 0x7FFF
    ensures IsRun(Init(4), steps) && Safe(Init(4), steps) && Linked(Run(Init(4), steps), k)
  {
    if k == 0 {
      LinkedStart();
      steps := [CreateDir(ROOT, ".d", 2), CreateFile(ROOT, Label(0), 3)];
    } else {
      var before := LinkedRuns(k - 1);
      var r := LinkedMore(Run(Init(4), before), k - 1);
      var more := [LinkStart(0, 3), LinkEnter(0, Place(k), Label(k))];
      RunAppend(Init(4), before, more);
      steps := before + more;
    }
  }

  lemma {:induction false} RunAppend(s: State, a: seq<Step>, b: seq<Step>)
    requires IsRun(s, a) && IsRun(Run(s, a), b)
    ensures IsRun(s, a + b) && Run(s, a + b) == Run(Run(s, a), b)
    ensures Safe(s, a) && Safe(Run(s, a), b) ==> Safe(s, a + b)
    decreases |a|
  {
    if a == [] {
      assert a + b == b;
    } else {
      RunAppend(Apply(s, a[0]), a[1..], b);
      assert (a + b)[1..] == a[1..] + b;
    }
  }

  /** It can happen: 32767 names, one sys_link more, and the count is negative and unlink panics. */
  lemma OverflowReachable() returns (steps: seq<Step>)
    ensures IsRun(Init(4), steps) && !AlwaysCounts(Init(4), steps)
    ensures var r := Run(Init(4), steps); |r.ino| == 4 && r.ino[3].nlink == -0x8000
    ensures exists dp, name :: Named(Run(Init(4), steps), dp, name, 3) && !Enabled(Run(Init(4), steps), Unlink(dp, name))
  {
    var before := LinkedRuns(0x7FFE);
    var s := Run(Init(4), before);
    assert s.ino[3].nlink == Total(s, 3);
    CountOverflows(s, 0, 3, Place(0x7FFE), Label(0x7FFE));
    var r := Apply(s, LinkStart(0, 3));
    OneStep(s, [LinkStart(0, 3)], r);
    RunAppend(Init(4), before, [LinkStart(0, 3)]);
    steps := before + [LinkStart(0, 3)];
    assert Named(r, Place(0x7FFE), Label(0x7FFE), 3);
    InitInv(4);
    UnsafeEnds(Init(4), before, LinkStart(0, 3));
    RunCountsIffSafe(Init(4), steps);
  }

  lemma {:induction false} UnsafeEnds(s: State, a: seq<Step>, step: Step)
    requires IsRun(s, a) && Enabled(Run(s, a), step) && !CountSafe(Run(s, a), step) && IsRun(s, a + [step])
    ensures !Safe(s, a + [step])
    decreases |a|
  {
    if a == [] {
      assert a + [step] == [step];
    } else {
      assert (a + [step])[1..] == a[1..] + [step];
      UnsafeEnds(Apply(s, a[0]), a[1..], step);
    }
  }
}
