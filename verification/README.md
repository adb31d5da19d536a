# Verified model of the xv6-riscv kernel and its companion programs

A Dafny 4.11 model of the parts of this repository whose correctness is hardest to see, with proofs that hold over every
input, every run and every reachable state. Each file is one component.

| file | what it models |
|---|---|
| LogSpec.dfy | the sequence of single block writes of a commit and of a recovery, and what a crash after any of them leaves |
| LogProtocol.dfy | file system operations interleaving through begin_op, log_write and end_op, with crashes; log space |
| Bio.dfy | the LRU buffer cache on its doubly linked list |
| Log.dfy | log.c as code over that cache, tied disk by disk to LogSpec |
| LogRefines.dfy | that code's calls, commits and reboots as runs of LogProtocol |
| Fs.dfy | bitmap allocator, block map, byte-level read and write, truncation |
| Dir.dfy | directory entries, lookup and linking over Fs |
| Links.dfy | link counts over create, link, unlink and the freeing of inodes |
| Kalloc.dfy, Vm.dfy | the physical page allocator, and Sv39 page tables over it |
| Threads.dfy | address spaces of kernel threads over Vm, and growproc for a group |
| ThreadGroup.dfy | a process and its threads over any sequence of create, exit, join and growproc |
| Sleep.dfy, SleepLock.dfy, Procs.dfy | sleep/wakeup at the level of single lock operations, sleep locks, exit/wait/join |
| Umalloc.dfy | the user heap allocator |
| Virtio.dfy | the virtio disk driver and its device |
| Shell.dfy | tokens, grammar, parser and in-place termination of the shell |
| Grep.dfy | the regular expression matcher |
| ReadersWriters.dfy | the writer-preferring monitor |

Code that changes state is a class, or methods over one, with loops where the source has loops; each method's contract
ties the new state to the old. Concurrency is a state machine: a `Step` datatype, `Enabled`, `Apply`, and theorems over
every sequence of enabled steps from the initial state, for any number of threads, processes or operations. Sequential
classes sit beside the machines where the source has both. LogRefines' Kernel, Virtio's Driver, ReadersWriters' Monitor
and SleepLock's Sleeplock carry the machine's state or run as ghost fields, which every method moves by the machine's
own `Apply`.

What the proofs found in the code (each is a lemma):

- log_write's "too big a transaction" panic is unreachable exactly when log.size > LOGSIZE, but mkfs makes the log area
  LOGSIZE blocks, one of them the header, so three operations within their budgets reach it (TooBigUnreachable).
- malloc hands `nu * sizeof(Header)` to sbrk as an int; the region it then uses is the one it got exactly for requests
  up to 2^31 - 32 bytes (RegionCovered).
- thread_join sleeps on a thread that has already ended exactly if that thread ended by exit() instead of thread_exit()
  (JoinersMissNothing, StrandedReachable).
- The parent of a process is gone exactly if it left by thread_exit(), which does not reparent (ParentsLive,
  OrphanReachable).
- Two processes that call wakeup while holding their own p->lock can deadlock (TwoSelfLockedScansDeadlock). The comment
  on wakeup forbids it and thread_exit does it; it is safe as long as all such calls are made under one lock, there
  wait_lock (GuardIsReleased).
- nlink counts names exactly as long as no inode is given a 32768th and nothing is entered into a removed directory
  (CountsIffSafe). Past the first limit unlink panics (OverflowReachable); a name created in a removed working directory
  leaks its inode (LeakReachable).
- growproc ignores a failing mappages. A later growproc that gives up a page which some thread lacks, for that reason or
  because it is the stack guard, panics in uvmunmap, and only then (ShrinkGroup, ShrinkNeedsFullTables, ShrinkPanics).

What an operation's specification computes is pinned by laws stated without it: the bytes of files and the bits of page
table entries, the command a line spells, what a pattern's characters match, which slot is reaped, what each step of a
machine changes.

Constants are those of param.h, fs.h, riscv.h and virtio.h; the number of buffers, blocks, inodes, processes and pages
is arbitrary.

## Model

| member | source | states |
|---|---|---|
| LogSpec.DecodeEncode | xv6-riscv/kernel/log.c:87-114 | reading back a header block that write_head wrote gives the block list it was written from, whatever the block held before |
| LogSpec.HeaderLayout | xv6-riscv/kernel/log.c:103-114 | the header block on disk: the count in word 0, block number i in word i + 1, every other word as it was |
| LogSpec.CommitCopies | xv6-riscv/kernel/log.c:179-191 | while copies are being made only log blocks change, and the first i hold the cached contents of the first i home blocks |
| LogSpec.CommitTail | xv6-riscv/kernel/log.c:194-203 | from its header write on, a commit writes block for block what a recovery of the disk at that moment would write |
| LogSpec.CommitParts | xv6-riscv/kernel/log.c:194-203 | a commit passes through exactly the disks of write_log, then the header write, then those of a recovery |
| LogSpec.RecoveryCompletes | xv6-riscv/kernel/log.c:117-123 | after a finished recovery the log is empty and recovering again moves no home block |
| LogSpec.RecoveryCrashSafe | xv6-riscv/kernel/log.c:69-123 | a recovery cut off after any of its writes and run again ends on the home blocks it would have ended on uninterrupted |
| LogSpec.HeaderWritten | xv6-riscv/kernel/log.c:103-114 | once the header is on disk, recovery produces the new contents of every logged block and the old of every other |
| LogSpec.CommitCrashSafe | xv6-riscv/kernel/log.c:179-203 | a crash after any single block write of a commit recovers to all-old before the header write and all-new from it on |
| LogSpec.CommitCompletes | xv6-riscv/kernel/log.c:194-203 | an uninterrupted commit has installed every logged block and left an empty log |
| LogSpec.RepeatedCrashes | xv6-riscv/kernel/log.c:69-123 | any number of recoveries each cut off anywhere do not change what a complete recovery finally yields |
| LogSpec.CommitSurvivesRepeatedCrashes | xv6-riscv/kernel/log.c:69-203 | commit atomicity under a crash in the commit followed by any number of crashes during recovery |
| LogProtocol.SpaceStep | xv6-riscv/kernel/log.c:127-235 | every step keeps: blocks logged plus the unspent budget of all outstanding operations is at most LOGSIZE |
| LogProtocol.UnspentBound | xv6-riscv/kernel/log.c:127-142 | the unspent budgets together never exceed MAXOPBLOCKS for each outstanding operation, the reservation begin_op makes |
| LogProtocol.WholeCommitted | xv6-riscv/kernel/log.c:147-175 | the commit point turns the transaction being collected into one committed group without splitting any operation |
| LogProtocol.CrashHere | xv6-riscv/kernel/log.c:117-123 | in whatever phase the machine stops, one complete recovery gives exactly the committed groups |
| LogProtocol.RunInv | xv6-riscv/kernel/log.c:127-235 | every state reachable by any interleaving of begins, writes, ends, single commit writes, crashes and recovery writes meets the invariant |
| LogProtocol.CrashSafety | xv6-riscv/kernel/log.c:127-235 | over every run the recovered disk is the initial disk with exactly the committed group transactions applied in order |
| LogProtocol.OperationsAreWhole | xv6-riscv/kernel/log.c:127-175 | no operation is split over two groups, its updates are lost or committed as a whole, and commit runs with nothing outstanding |
| LogProtocol.ReadsSeeLatest | xv6-riscv/kernel/log.c:215-235 | outside recovery every block reads as all committed groups followed by the updates made since |
| LogProtocol.UpdatesKept | xv6-riscv/kernel/log.c:127-235 | no step but a crash loses an update, a crash loses at most those of the transaction being collected, and a log_write adds exactly its own |
| LogProtocol.NothingLost | xv6-riscv/kernel/log.c:127-235 | over every run without a crash the committed groups one after the other, then the current transaction, are all the log_writes made, in order |
| LogProtocol.IdleIsEmpty | xv6-riscv/kernel/log.c:147-175 | whenever nothing is outstanding and no commit or recovery runs, the log is empty |
| LogProtocol.Durable | xv6-riscv/kernel/log.c:147-175 | durability: in a run without a crash, once nothing is outstanding and the commit is through, the disk holds every log_write ever made, in order, and recovering it changes no home block |
| LogProtocol.SpaceSuffices | xv6-riscv/kernel/log.c:215-235 | with a log area larger than LOGSIZE no run makes log_write panic |
| LogProtocol.SpaceExhausted | xv6-riscv/kernel/log.c:215-235 | with a log area of LOGSIZE blocks or fewer three operations within their budgets do make log_write panic |
| LogProtocol.TooBigUnreachable | xv6-riscv/kernel/log.c:215-235 | the log_write panic is unreachable exactly when log.size > LOGSIZE; mkfs sets nlog = LOGSIZE (mkfs.c:25), so there it is reachable |
| Bio.UnlinkRing | xv6-riscv/kernel/bio.c:117-137 | taking a buffer out of the doubly linked list leaves a consistent ring of the others in the same order |
| Bio.LinkFirstRing | xv6-riscv/kernel/bio.c:117-137 | linking a buffer behind the head puts it in front of the ring in both directions |
| Bio.FrontOk | xv6-riscv/kernel/bio.c:117-137 | the six pointer assignments of brelse move one buffer to the front, keep a permutation of all buffers, and keep it ordered by latest release |
| Bio.MoveToFront | xv6-riscv/kernel/bio.c:117-137 | the relinking changes the list and nothing that any buffer holds |
| Bio.FindCached | xv6-riscv/kernel/bio.c:59-74 | the forward scan finds the one buffer of the block, or there is none |
| Bio.UnusedIsOldest | xv6-riscv/kernel/bio.c:75-89 | the backward scan stops at the unused buffer that was released longest ago, or every buffer is in use |
| Bio.Pigeonhole | xv6-riscv/kernel/bio.c:59-89 | distinct buffers each used by a different block are no more than the blocks in use: with fewer blocks in use than buffers one is free |
| Bio.BCache.constructor | xv6-riscv/kernel/bio.c:37-53 | binit yields a ring of all buffers, all unused, over a disk whose contents are what readers see |
| Bio.BCache.SomeUnused | xv6-riscv/kernel/bio.c:59-89 | bget cannot run out of buffers while fewer blocks are in use than there are buffers |
| Bio.BCache.RecycleOldest | xv6-riscv/kernel/bio.c:75-89 | the backward loop: the least recently released unused buffer goes to the block, or all are busy and nothing changes |
| Bio.BCache.Recycle | xv6-riscv/kernel/bio.c:75-89 | an unused buffer is given to a block that had none; every other block keeps its buffer |
| Bio.BCache.Bget | xv6-riscv/kernel/bio.c:59-89 | returns the one locked buffer of the block, fails exactly when the block is not cached and all buffers are busy, and recycles only the least recently released unused buffer |
| Bio.BCache.BgetLocked | xv6-riscv/kernel/bio.c:59-74 | for a block whose buffer somebody else has locked: that buffer, counted as used before the wait begins, so that nobody recycles it |
| Bio.BCache.Grab | xv6-riscv/kernel/bio.c:69-71 | when the wait in acquiresleep ends the buffer is still that of the block and belongs to the caller |
| Bio.BCache.Load | xv6-riscv/kernel/bio.c:93-103 | the holder of a buffer finds in it the last contents stored for the block, read from disk if need be |
| Bio.BCache.Bread | xv6-riscv/kernel/bio.c:93-103 | returns the buffer with the last contents stored for the block, from cache or disk |
| Bio.BCache.Store | xv6-riscv/kernel/bio.c:26-34 | overwriting a held buffer changes what readers see of that block only |
| Bio.BCache.Bwrite | xv6-riscv/kernel/bio.c:107-112 | exactly the held block reaches the disk, as one write, with the contents readers see |
| Bio.BCache.Brelse | xv6-riscv/kernel/bio.c:117-137 | one use fewer; at zero the buffer becomes the most recently released, else the list is untouched |
| Bio.BCache.Bpin | xv6-riscv/kernel/bio.c:140-144 | a pinned buffer counts as used, so it cannot be recycled |
| Bio.BCache.Bunpin | xv6-riscv/kernel/bio.c:147-151 | gives up one use without touching list, contents or disk |
| Log.Log.constructor | xv6-riscv/kernel/log.c:55-65 | an initialised log has an empty header and no operation outstanding |
| Log.Log.CopyAndWrite | xv6-riscv/kernel/log.c:69-83 | one block takes the contents of another in the cache and on disk, with a single disk write |
| Log.Log.LogOne | xv6-riscv/kernel/log.c:179-191 | one round of write_log: through the cache, the logged block's latest contents go to its log slot; pins stay |
| Log.Log.WriteLog | xv6-riscv/kernel/log.c:179-191 | the disks it passes through are exactly the first writes of the commit specification; no home block changes for readers |
| Log.Log.InstallOne | xv6-riscv/kernel/log.c:69-83 | one round of install_trans copies log slot to home block on disk and gives up that block's pin unless recovering |
| Log.Log.InstallTrans | xv6-riscv/kernel/log.c:69-83 | the disks passed through are exactly those of the recovery specification; outside recovery all pins are gone afterwards |
| Log.Log.InstallAll | xv6-riscv/kernel/log.c:69-83 | after installing, disk and readers' view coincide on every block |
| Log.Log.WriteHead | xv6-riscv/kernel/log.c:103-114 | a single disk write that puts the in-memory header on disk |
| Log.Log.ReadHead | xv6-riscv/kernel/log.c:87-97 | the in-memory header becomes the list the disk header holds; the disk is untouched |
| Log.Log.RecoverFromLog | xv6-riscv/kernel/log.c:117-123 | with any image left by a crash the disk becomes its recovery, passing through exactly the disks of the recovery specification, and readers see the disk |
| Log.Log.LogAndHead | xv6-riscv/kernel/log.c:194-203 | the first half of commit ends on the header-written disk, through the specified disks |
| Log.Log.Commit | xv6-riscv/kernel/log.c:194-203 | the code over the cache performs exactly the specified sequence of single block writes; readers notice no change of home blocks; the log is empty and nothing pinned |
| Log.Log.ViewInstalled | xv6-riscv/kernel/log.c:215-235 | between operations readers see the disk with exactly the logged blocks replaced |
| Log.Log.TryBegin | xv6-riscv/kernel/log.c:127-142 | an operation is admitted iff no commit runs and the reservations of all operations fit LOGSIZE |
| Log.Log.LogWrite | xv6-riscv/kernel/log.c:215-235 | the block is listed once and pinned once (absorption), and it succeeds iff neither panic condition holds |
| Log.Log.Update | xv6-riscv/kernel/log.c:205-235 | bread, modify, log_write, brelse: readers see the new contents, the disk does not change, the block stays pinned |
| Log.Log.InstallAndClear | xv6-riscv/kernel/log.c:117-123 | install_trans and the empty header: the disks passed through are exactly those of a recovery, for a commit and for a recovery alike; nothing stays pinned |
| Log.Log.CommitLogged | xv6-riscv/kernel/log.c:194-203 | a commit of a transaction that is not empty, write by write that of the specification |
| Log.Log.EndOp | xv6-riscv/kernel/log.c:147-175 | only the last operation out commits, and it does so with none outstanding; others leave disk and log alone |
| LogRefines.ChainIsRun | xv6-riscv/kernel/log.c:127-235 | states that follow one another by enabled steps from the initial one are those of a run of LogProtocol |
| LogRefines.CommitChain | xv6-riscv/kernel/log.c:194-203 | from the end of the last operation every block write of the commit is an enabled protocol step |
| LogRefines.RecoverChain | xv6-riscv/kernel/log.c:117-123 | after a stop anywhere, every block write of the recovery is an enabled protocol step |
| LogRefines.Kernel.Begin | xv6-riscv/kernel/log.c:127-142 | begin_op lets an operation in exactly when the protocol admits it, and is that step of the run |
| LogRefines.Kernel.Write | xv6-riscv/kernel/log.c:215-235 | bread, modify, log_write, brelse over the cache is one Write step of the run |
| LogRefines.Kernel.End | xv6-riscv/kernel/log.c:147-203 | end_op is an End step, followed, for the last operation, by one protocol step for each block the cache writes, in the order it writes them |
| LogRefines.Kernel.Reboot | xv6-riscv/kernel/log.c:55-65 | after a stop at any point of a run, inside a commit or a recovery too, initlog is the crash and the recovery steps of the same run, one for each block it writes |
| LogRefines.CodeIsCrashSafe | xv6-riscv/kernel/log.c:55-235 | whatever disk the code over the cache has written, recovering it gives the initial disk with exactly the committed transactions of the run up to that very write; later writes are later steps |
| LogRefines.CodeReadsLatest | xv6-riscv/kernel/log.c:215-235 | between operations the cache shows all committed transactions and the updates made since |
| LogRefines.CodeIsDurable | xv6-riscv/kernel/log.c:147-203 | for the code over the cache: when the last end_op has returned and there was no crash, the disk holds every log_write of the run in order, before and after a recovery |
| Fs.PutWordGet | xv6-riscv/kernel/fs.c:399-415 | storing one address in an indirect block changes that entry and no other |
| Fs.WordLayout | xv6-riscv/kernel/fs.c:399-415 | an address lies in the indirect block as four bytes from 4 * j on, lowest first, and storing it writes no other byte |
| Fs.BitsAfter | xv6-riscv/kernel/fs.c:66-105 | setting or clearing one bit of the free map by byte and mask leaves every other bit alone |
| Fs.OneOwner | xv6-riscv/kernel/fs.c:383-421 | a block is referred to by at most one slot over all direct, indirect-pointer and indirect-entry slots of all inodes |
| Fs.BitmapExact | xv6-riscv/kernel/fs.c:66-105 | in every state the operations keep, a bit is set exactly for metadata and referenced blocks |
| Fs.MapKept | xv6-riscv/kernel/fs.c:66-105 | flipping the bit of a data block together with its use keeps the map exact |
| Fs.SetDirect | xv6-riscv/kernel/fs.c:388-396 | a fresh block in a direct slot keeps single ownership and changes no other address |
| Fs.SetIndirect | xv6-riscv/kernel/fs.c:399-406 | a fresh zeroed indirect block changes no address of any file |
| Fs.SetSlot | xv6-riscv/kernel/fs.c:407-418 | a fresh block in an indirect entry keeps single ownership and changes no other address |
| Fs.ContentsKept | xv6-riscv/kernel/fs.c:383-421 | allocating a block for one slot changes the contents of no file |
| Fs.EmptyImage | xv6-riscv/mkfs/mkfs.c:93-115 | a disk with empty inodes and a map covering just the metadata is well formed and all its files are empty |
| Fs.FileSystem.FindFree | xv6-riscv/kernel/fs.c:66-88 | the bitmap search returns the lowest free block, or the number of blocks when none is free |
| Fs.FileSystem.Balloc | xv6-riscv/kernel/fs.c:66-88 | the lowest free block is marked and zeroed with no block in use touched; 0 only when the disk is full |
| Fs.FileSystem.Bfree | xv6-riscv/kernel/fs.c:92-105 | frees exactly that block in map and role; the panic is the precondition, which itrunc always meets |
| Fs.FileSystem.Bmap | xv6-riscv/kernel/fs.c:383-421 | returns the address of the block, from the direct slot or word bn - NDIRECT of the indirect block, allocating at most that slot; an existing block is returned with no change; 0 only when the disk is full; a block taken is a data or indirect block of that inode and referenced, whatever the outcome |
| Fs.FileSystem.Readi | xv6-riscv/kernel/fs.c:472-496 | byte by byte: for off within the file the n bytes from off on, or as many as there are up to the end; nothing for off beyond the end or when off + n wraps; changes nothing |
| Fs.FileSystem.Writei | xv6-riscv/kernel/fs.c:506-539 | refuses exactly the stated ranges; otherwise exactly the bytes [off, off+r) are replaced, the size grows to the maximum, short counts only on a full disk and at a block boundary, no other file changes, and every block taken is referenced by the inode |
| Fs.FileSystem.Itrunc | xv6-riscv/kernel/fs.c:426-453 | frees exactly the inode's data and indirect blocks, each without reaching bfree's panic, and no other file changes |
| Fs.FileSystem.DoAll | xv6-riscv/kernel/fs.c:383-539 | any sequence of reads, writes and truncations of any files, failing ones included, does to the files as byte sequences what the calls ask for, every read delivers the bytes there are, and the sequence leaves the free map exact; a write stops short only between blocks and when no block is free |
| Fs.Emptied | xv6-riscv/kernel/fs.c:426-453 | after the truncation loops ownership is sound again and all other files hold what they held |
| Fs.Written | xv6-riscv/kernel/fs.c:506-539 | with the new size the file is the old byte sequence with the bytes spliced in, and every byte has a block |
| Fs.ReadAfterWrite | xv6-riscv/kernel/fs.c:472-539 | reading what was written returns it; reading elsewhere returns what was there before |
| Dir.DecodeEncode | xv6-riscv/kernel/fs.h:56-59 | a directory entry survives being written as 16 bytes and read back |
| Dir.Encode | xv6-riscv/kernel/fs.h:56-59 | the inode number takes the first two bytes, lowest first, the name the other fourteen |
| Dir.Padded | xv6-riscv/kernel/string.c:71-81 | what strncpy leaves: the name up to its first NUL, then NULs to the end of the field |
| Dir.StrOfPadded | xv6-riscv/kernel/string.c:71-81 | copying a name into a field, cut or padded, keeps the string the field holds |
| Dir.Namecmp | xv6-riscv/kernel/fs.c:543-547 | the comparison loop says equal exactly when both fields hold the same string |
| Dir.EntrySlice | xv6-riscv/kernel/fs.c:560-566 | reading 16 bytes at entry k gives entry k of the directory |
| Dir.EntrySplice | xv6-riscv/kernel/fs.c:600-606 | writing 16 bytes at entry k, or one past the last, sets or appends that entry only |
| Dir.EntryWritesAreWhole | xv6-riscv/kernel/fs.c:600-606 | a write of one entry is complete or did nothing: entries do not cross blocks and writei stops only between blocks |
| Dir.Dirlookup | xv6-riscv/kernel/fs.c:552-575 | finds the first entry in use with the name, iff there is one, with its inode and offset; its panics cannot happen |
| Dir.WriteEntry | xv6-riscv/kernel/fs.c:506-539 | the entry is set and no file but the directory changes, or nothing changes and the disk or the directory is full |
| Dir.Isdirempty | xv6-riscv/kernel/sysfile.c:175-187 | true iff no entry after the first two is in use |
| Dir.Dirlink | xv6-riscv/kernel/fs.c:580-606 | adds one entry under a name nobody had, in the first free place; fails only on a taken name, full disk or full directory, changing no file |
| Dir.FindUnique | xv6-riscv/kernel/fs.c:552-575 | with unique names every entry in use is the one its own name finds |
| Dir.DirlinkMeans | xv6-riscv/kernel/fs.c:580-606 | as a map from names to inodes: one name is added, every other name stands for what it did, names stay unique |
| Dir.EntryChanged | xv6-riscv/kernel/fs.c:580-606 | setting or clearing one entry changes what that entry's name stands for and no other |
| Dir.UnlinkMeans | xv6-riscv/kernel/sysfile.c:190-244 | clearing an entry makes its name stand for nothing and affects no other name |
| Links.StepKeepsInv | xv6-riscv/kernel/sysfile.c:125-303 | every operation keeps: counts match names, linked directories form a tree through "..", entries name allocated inodes |
| Links.RunKeepsInv | xv6-riscv/kernel/sysfile.c:125-303 | so does every run |
| Links.LinkCounts | xv6-riscv/kernel/sysfile.c:125-303 | over every run of safe steps each nlink equals the number of entries naming the inode in linked directories, "." not counted, plus links just being made |
| Links.UnlinkNeverPanics | xv6-riscv/kernel/sysfile.c:190-244 | "unlink: nlink < 1" is unreachable for any name in any linked directory |
| Links.NamedIsNeverFreed | xv6-riscv/kernel/fs.c:337-362 | iput frees an inode only when nothing in the tree names it |
| Links.FreedIsUnnamed | xv6-riscv/kernel/fs.c:337-362 | at the step that frees it an inode has no name and no sys_link holds a count of it |
| Links.FreeMeans | xv6-riscv/kernel/fs.c:337-362 | iput can free an allocated inode iff nothing names it and no sys_link holds a count of it; then the inode is unallocated and empty and every other inode is as it was |
| Links.CreateMeans | xv6-riscv/kernel/sysfile.c:247-303 | the new inode has one name, in the directory asked for, and a count of one; a new directory has "." and "..", and its parent one count more; nothing else changes |
| Links.CreateFailsMeans | xv6-riscv/kernel/sysfile.c:247-303 | a create that fails leaves an inode nothing names, which can be freed at once; no other inode has changed |
| Links.LinkMeans | xv6-riscv/kernel/sysfile.c:125-171 | sys_link's first part adds one to the count and nothing else |
| Links.LinkEndMeans | xv6-riscv/kernel/sysfile.c:125-171 | its second part enters the name, or takes the count back, and ends the call |
| Links.UnlinkMeans | xv6-riscv/kernel/sysfile.c:190-244 | the name goes, the inode loses one count, and so does the parent if it was a directory; every other entry and inode stays |
| Links.EmptyHasNoKids | xv6-riscv/kernel/sysfile.c:175-187 | a directory that isdirempty accepts is the parent of no linked directory |
| Links.UnlinkedIsUnnamed | xv6-riscv/kernel/sysfile.c:190-244 | a removed directory had no other name, so nothing names or holds it afterwards |
| Links.LinkedIsNamed | xv6-riscv/kernel/sysfile.c:247-303 | a directory that hangs in the tree always has a name, so its count is never zero |
| Links.CountsIffSafe | xv6-riscv/kernel/sysfile.c:125-303 | the exact condition, for every step: the counts are right afterwards iff the step gives no 32768th name or link to an inode and enters nothing into a removed directory |
| Links.RunCountsIffSafe | xv6-riscv/kernel/sysfile.c:125-303 | over every run: nlink counts names all along iff every step was safe in that sense |
| Links.UnsafeBreaks | xv6-riscv/kernel/sysfile.c:125-303 | an unsafe step always breaks a count: of the directory, of the linked file or of the new inode |
| Links.CountOverflows | xv6-riscv/kernel/sysfile.c:125-171 | with 32767 names one more sys_link wraps nlink to -32768, and unlinking any of the names then panics |
| Links.OverflowReachable | xv6-riscv/kernel/sysfile.c:125-171 | a run from the initial state that gets there |
| Links.RemovedDirectoryLeaks | xv6-riscv/kernel/sysfile.c:247-303 | a file or directory created in a removed directory has a count of 1 that no name accounts for, so that iput cannot free it |
| Links.LeakReachable | xv6-riscv/kernel/sysfile.c:190-303 | a run from the initial state that does this: mkdir, rmdir of a working directory, create |
| Kalloc.ChainKept | xv6-riscv/kernel/kalloc.c:47-63 | writing a page that is not free leaves the chain of free pages intact |
| Kalloc.Kmem.constructor | xv6-riscv/kernel/kalloc.c:27-40 | exactly the whole pages between the kernel's end and the top of memory become free |
| Kalloc.Kmem.Freerange | xv6-riscv/kernel/kalloc.c:34-40 | the loop frees every managed page once and no other |
| Kalloc.Kmem.Kfree | xv6-riscv/kernel/kalloc.c:47-63 | the page becomes the head of the free list and no other page changes; its panic and freeing twice are excluded by the requirements |
| Kalloc.Kmem.Kalloc | xv6-riscv/kernel/kalloc.c:69-82 | takes the head of the list, filled with junk, and fails exactly when nothing is free |
| Vm.IndicesDiffer | xv6-riscv/kernel/vm.c:88-105 | distinct page numbers never share the three indices, so they never share a slot |
| Vm.Path | xv6-riscv/kernel/vm.c:88-105 | the tables that lead to a page number are those whose role names their place in the tree |
| Vm.SetLeafPte | xv6-riscv/kernel/vm.c:145-167 | writing the leaf slot of one page number changes the translation of no other, in this address space or any other |
| Vm.AddTable | xv6-riscv/kernel/vm.c:95-101 | hanging an empty table into a free slot changes no translation anywhere |
| Vm.Walk | xv6-riscv/kernel/vm.c:88-105 | finds the slot that holds the translation of the address; allocating changes no translation; fails only when memory has run out, or without alloc exactly when there is no table |
| Vm.Mappages | xv6-riscv/kernel/vm.c:145-167 | success maps exactly the range to consecutive pages; failure leaves a mapped prefix and only when no page is free |
| Vm.MappagesOnTable | xv6-riscv/kernel/vm.c:145-167 | on the map of page numbers to (page, flags): exactly the range is added |
| Vm.Uvmunmap | xv6-riscv/kernel/vm.c:173-194 | exactly the range is unmapped; exactly its pages are freed, or none |
| Vm.UvmunmapOnTable | xv6-riscv/kernel/vm.c:173-194 | on the map: exactly the range is removed |
| Vm.OtherTables | xv6-riscv/kernel/vm.c:145-194 | neither operation changes any other address space |
| Vm.FreeUserPage | xv6-riscv/kernel/kalloc.c:47-63 | freeing a page of user memory changes no translation |
| Vm.Attach | xv6-riscv/kernel/vm.c:236-248 | the page becomes mapped and owned, or it is freed again and no translation changed |
| Vm.Uvmalloc | xv6-riscv/kernel/vm.c:228-251 | all or nothing: success maps fresh zeroed pages, each valid, readable, the user's, and writable and executable exactly as xperm says, bit by bit; failure restores every translation and returns every data page, and comes only with fewer than three free pages for each page asked for |
| Vm.AskedFor | xv6-riscv/kernel/vm.c:244 | an entry with the flags PTE_R|PTE_U|xperm has V, R and U set and the W and X bits of xperm |
| Vm.PgUp | xv6-riscv/kernel/riscv.h:338 | rounding up: the least number of pages that hold so many bytes |
| Vm.Uvmdealloc | xv6-riscv/kernel/vm.c:258-269 | the pages between the two sizes, rounded up, are unmapped and freed; nothing happens when the size does not shrink |
| Vm.Undone | xv6-riscv/kernel/vm.c:228-251 | unmapping what was placed before an allocation failed restores the translations and the page uses |
| Vm.AllocDeallocRestores | xv6-riscv/kernel/vm.c:228-269 | uvmalloc followed by uvmdealloc restores the map and the pages |
| Vm.Uvmcopy | xv6-riscv/kernel/vm.c:308-335 | success gives the child the parent's pages, contents and permissions, in fresh pages; failure leaves every translation as before and returns every data page, and comes only with fewer than three free pages for each page to copy |
| Vm.CopyIsPrivate | xv6-riscv/kernel/vm.c:308-335 | after uvmcopy parent and child read the same everywhere, from different pages |
| Vm.NothingMappedIsBare | xv6-riscv/kernel/vm.c:274-289 | when no page number is mapped no table of the tree holds a leaf, so freewalk cannot panic |
| Vm.Freewalk | xv6-riscv/kernel/vm.c:274-289 | every table page of the subtree is freed exactly once and no other page is touched |
| Vm.OthersStay | xv6-riscv/kernel/vm.c:274-289 | all other address spaces keep every translation when a tree is taken down |
| Vm.Uvmcreate | xv6-riscv/kernel/vm.c:199-207 | an address space that maps nothing, on a page that was free |
| Vm.Uvmfree | xv6-riscv/kernel/vm.c:294-299 | the pages the space owns and its table pages become free and nothing else does |
| Vm.EachPageOnce | xv6-riscv/kernel/kalloc.c:47-82 | conservation: a free page is on the free list exactly once, a page in use not at all |
| Threads.FreeStack | xv6-riscv/kernel/proc.c:270-282 | thread_exit frees exactly the thread's private stack |
| Threads.UnmapShared | xv6-riscv/kernel/proc.c:50-57 | the shared range is unmapped without freeing any page |
| Threads.FreeprocThread | xv6-riscv/kernel/proc.c:47-92 | after reaping exactly the thread's tables and trapframe have become free: no shared page, and no leaf is left for freewalk to panic on |
| Threads.ProcPagetable | xv6-riscv/kernel/proc.c:461-490 | the new table maps trampoline and trapframe only, both out of the user's reach, the one not writable and the other not executable; with fewer than five free pages it may fail, and then every page taken is free again |
| Threads.ShareAll | xv6-riscv/kernel/proc.c:108-129 | the new table maps exactly the leader's user pages, the same page with the R, W, X and U bits agreeing one by one, and the leader's map is untouched; it gives up, with the pages so far shared, only if there are fewer than two free pages for each page |
| Threads.TopStaysGuarded | xv6-riscv/kernel/proc.c:461-490 | as long as a thread is in order the user can touch neither of the two pages at the top, nobody can write the trampoline, and nobody can run the trapframe |
| Threads.SameRights | xv6-riscv/kernel/proc.c:120-126 | the entry that thread_create makes for a user page of the leader: the same physical page, valid, and R, W, X and U bit for bit the leader's |
| Threads.Populate | xv6-riscv/kernel/proc.c:108-147 | the thread gets the shared pages and one fresh user stack page, readable and writable |
| Threads.Allocproc | xv6-riscv/kernel/proc.c:398-413 | a trapframe and a page table, or, with fewer than six free pages, nothing taken |
| Threads.ThreadCreate | xv6-riscv/kernel/proc.c:94-194 | on success everything taken was free and every other space keeps its map; on early failure nothing is taken; later failure has taken only free pages and changed no other map; neither happens with nine free pages and two more for each page to share |
| Threads.LifeReturnsEveryPage | xv6-riscv/kernel/proc.c:47-297 | create, exit, join: every page is used afterwards exactly as before |
| Threads.LifeReturnsItsPages | xv6-riscv/kernel/proc.c:47-297 | the same whatever else happens in between: each page taken stays in use until the one call that frees it, and exit and reaping free nobody else's page |
| Threads.JoinGroup | xv6-riscv/kernel/proc.c:94-194 | thread_create in a group: the new thread maps every user page of the leader, and the group as a whole is as growproc wants it; a failure, for want of free pages only, leaves group and leader as they were |
| Threads.LeaveGroup | xv6-riscv/kernel/proc.c:47-297 | thread_exit and reaping, also of a thread that lacks shared pages: exactly the pages the thread uses become free, and every other address space maps what it did |
| Threads.LifeWithGrowth | xv6-riscv/kernel/proc.c:47-611 | create, growproc, exit, join: every page in use before is in use as before and every page the thread took is free again; the leader keeps its map and has the new pages, and the rest of the group agrees with it; all that whenever there are enough free pages at first |
| Threads.Walkaddr | xv6-riscv/kernel/vm.c:111-128 | the physical address of a user page, 0 for anything else |
| Threads.ShareWithGroup | xv6-riscv/kernel/proc.c:561-582 | a page the leader gained is given to every thread's table; a table is passed over only when mappages has failed because no page is free |
| Threads.GrowGroup | xv6-riscv/kernel/proc.c:550-588 | after growing, each thread maps below the new size exactly the leader's user pages, if a free page is left or there were enough before, else it may lack some; all other translations and uses of pages are as before; it fails only for want of free pages, changing no translation |
| Threads.DropFromGroup | xv6-riscv/kernel/proc.c:593-602 | the page disappears from every thread's table and is not freed through it, or the panic comes, exactly when some thread does not map it |
| Threads.ShrinkGroup | xv6-riscv/kernel/proc.c:590-608 | panics exactly when some thread lacks a page of the range; else exactly the leader's pages above the new size are freed, each once, leader and threads map nothing there, and every other translation and all data are as before |
| Threads.GrowKeepsOwnership | xv6-riscv/kernel/proc.c:550-588 | after growing, every user page of the leader below the new size is its own |
| Threads.ShrinkKeepsOwnership | xv6-riscv/kernel/proc.c:590-608 | so it is after shrinking |
| Threads.GrowKeepsThread | xv6-riscv/kernel/proc.c:550-588 | a thread of the group is, after growing, still one that can exit and be reaped, up to the new size |
| Threads.ShrinkKeepsThread | xv6-riscv/kernel/proc.c:590-608 | so it is after shrinking |
| Threads.GrowprocKeepsPages | xv6-riscv/kernel/proc.c:543-611 | growproc takes from a thread none of the pages it uses: stack, trapframe, tables |
| Threads.ShrinkNeedsFullTables | xv6-riscv/kernel/proc.c:590-602 | the shrinking loop does not panic iff every page of the range is a user page of the leader that no thread lacks |
| Threads.StarvedGroup | xv6-riscv/kernel/proc.c:573-581 | a run from kinit in which a mappages that growproc ignores fails: with five pages of memory the leader grows and a thread does not get the page |
| Threads.ShrinkPanics | xv6-riscv/kernel/proc.c:590-602 | in that state growproc(-PGSIZE) panics |
| Threads.NoDanglingPages | xv6-riscv/kernel/proc.c:543-611 | below the size a thread maps a page only where the leader maps a user page, the same page, and that page is in use; and everywhere the leader does unless a mappages failed |
| ThreadGroups.ThreadGroup.constructor | xv6-riscv/kernel/proc.c:543-548 | a process without threads, each of its pages accounted for |
| ThreadGroups.ThreadGroup.Create | xv6-riscv/kernel/proc.c:94-194 | thread_create keeps the whole group in order and touches no other space; it fails only for want of free pages, and an early failure changes nothing |
| ThreadGroups.ThreadGroup.Exit | xv6-riscv/kernel/proc.c:270-282 | so does thread_exit, for any thread of the group |
| ThreadGroups.ThreadGroup.Reap | xv6-riscv/kernel/proc.c:47-92 | so does the reaping in thread_join, while other threads run or wait to be reaped |
| ThreadGroups.ThreadGroup.Grow | xv6-riscv/kernel/proc.c:550-588 | so does growproc for n > 0; the leader keeps its map and gains fresh pages; threads come to lack pages only when the free list ran out |
| ThreadGroups.ThreadGroup.Shrink | xv6-riscv/kernel/proc.c:590-608 | so does growproc for n < 0, which panics exactly when some thread lacks a page given up; a size below zero changes nothing |
| ThreadGroups.ThreadGroup.DoAll | xv6-riscv/kernel/proc.c:47-611 | any sequence of thread_create, thread_exit, reaping and growproc calls that does not halt keeps the group in order, loses no page and touches no other space, and each call does what it asks for or, for want of pages, nothing; with the free pages that the calls can cost at most none halts, every call does what it asks for and no thread lacks a page |
| ThreadGroups.TablesAgree | xv6-riscv/kernel/proc.c:543-611 | after any such sequence: below the size a thread maps only the leader's user pages, the same pages, in use by the leader, and all of them unless a mappages has failed; above it only its stack |
| ThreadGroups.NothingShared | xv6-riscv/kernel/proc.c:47-297 | no page that a thread uses is used by another thread, by the leader or by anybody else |
| ThreadGroups.NothingLost | xv6-riscv/kernel/proc.c:47-297 | once all threads are reaped every page but the leader's is used as at first, and on the free list once if it was free |
| ThreadGroups.AllDroppable | xv6-riscv/kernel/proc.c:590-602 | where no thread lacks a page and all of the leader's are for the user, shrinking by any amount does not panic |
| Sleep.StepKeepsInv | xv6-riscv/kernel/proc.c:873-917 | every lock-level step of sleep, wakeup and kill keeps the invariant |
| Sleep.NoLostWakeup | xv6-riscv/kernel/proc.c:873-917 | when wakeup(chan) returns to a waker holding lk, nobody who went into sleep(chan, lk) before is still asleep |
| Sleep.SchedIsSafe | xv6-riscv/kernel/proc.c:819-836 | sched is reached with p->lock and no other lock held and not marked RUNNING: its panics are unreachable from sleep |
| Sleep.StepRefines | xv6-riscv/kernel/proc.c:873-917 | each step is a step, or no step, of an abstract monitor in which sleeping releases the lock atomically and wakeup is one broadcast |
| Sleep.RunRefines | xv6-riscv/kernel/proc.c:873-917 | so every run of the protocol is a run of that monitor |
| Sleep.SleepsOn | xv6-riscv/kernel/proc.c:873-902 | each step of sleep and of the scheduler moves the process from its place in sleep to the next, with the state, the channel and p->lock it is to have there |
| Sleep.ScansGoOn | xv6-riscv/kernel/proc.c:904-917 | each turn of wakeup ends one slot further on, and kill makes a sleeper RUNNABLE |
| Sleep.LooksAndWakes | xv6-riscv/kernel/proc.c:904-917 | the process that wakeup looks at becomes RUNNABLE iff it sleeps on the channel, and is locked before and unlocked after |
| Sleep.LocksChange | xv6-riscv/kernel/proc.c:873-902 | acquire and the end of sleep take their spin lock when it is free, release and the middle of sleep give theirs up, nothing else touches one |
| Sleep.OneScanIsReleased | xv6-riscv/kernel/proc.c:904-917 | while at most one process scans with its own p->lock held, whoever holds a p->lock can go on or waits for one whose holder can |
| Sleep.GuardIsReleased | xv6-riscv/kernel/proc.c:237-297 | the same in every run in which wakeup is called with one's own p->lock held under one given lock only, as thread_exit calls it under wait_lock |
| Sleep.TwoSelfLockedScansDeadlock | xv6-riscv/kernel/proc.c:904-917 | without such a lock a run exists in which two processes that call wakeup with their own p->lock held wait for each other and neither can move |
| SleepLock.StepKeepsInv | xv6-riscv/kernel/sleeplock.c:22-41 | every step of acquiresleep and releasesleep keeps the invariant |
| SleepLock.AtMostOneOwner | xv6-riscv/kernel/sleeplock.c:22-41 | at most one owner, it is the one pid names, and nobody sleeps on a free lock |
| SleepLock.FreeLockIsTaken | xv6-riscv/kernel/sleeplock.c:22-31 | while the lock is free whoever wants it, or whoever holds the spin lock, can take it |
| SleepLock.StepMoves | xv6-riscv/kernel/sleeplock.c:22-41 | where each step takes the process that makes it: the lock when nobody owns it, else to sleep; only releasesleep wakes others, and it wakes all of them |
| SleepLock.Sleeplock.Acquire | xv6-riscv/kernel/sleeplock.c:22-31 | the caller gets the lock iff nobody owned it |
| SleepLock.Sleeplock.Release | xv6-riscv/kernel/sleeplock.c:34-41 | afterwards nobody owns the lock and nobody sleeps on it |
| SleepLock.Sleeplock.Holding | xv6-riscv/kernel/sleeplock.c:44-52 | true iff the caller is the owner |
| Procs.StepKeepsInv | xv6-riscv/kernel/proc.c:196-297 | every step of exit, thread_exit, wait, thread_join and creation keeps the invariant |
| Procs.RunKeepsInv | xv6-riscv/kernel/proc.c:684-772 | so does every run, for any number of processes |
| Procs.JoinersMissNothing | xv6-riscv/kernel/proc.c:196-235 | with wait_lock free, the thread a joiner sleeps on is alive iff that thread has not gone through exit(), and it is a zombie iff it has |
| Procs.ExitedMeans | xv6-riscv/kernel/proc.c:684-723 | the history the condition speaks of is the threads whose exit() has marked them ZOMBIE in the run |
| Procs.WaitersMissNothing | xv6-riscv/kernel/proc.c:728-772 | with wait_lock free nobody sleeps in wait() while a non-thread child is a zombie |
| Procs.ParentsLive | xv6-riscv/kernel/proc.c:668-723 | the parent of a process is alive to reap it iff no parent has left it behind by thread_exit() without its being adopted since |
| Procs.ThreadExitOrphans | xv6-riscv/kernel/proc.c:237-297 | thread_exit does not reparent: it orphans exactly the children the thread has at that moment |
| Procs.OrphanedMeans | xv6-riscv/kernel/proc.c:237-297 | the history the condition speaks of is the processes that a thread_exit left behind in the run and that no exit has reparented since |
| Procs.OrphanReachable | xv6-riscv/kernel/proc.c:237-297 | a run from the initial state in which a process is left with a zombie thread as its parent |
| Procs.ExitStrandsJoiner | xv6-riscv/kernel/proc.c:684-723 | a thread that leaves by exit() instead of thread_exit() leaves its joiner asleep on a zombie with wait_lock free |
| Procs.StrandedReachable | xv6-riscv/kernel/proc.c:196-235 | a run from the initial state in which thread_join is asleep on a zombie with wait_lock free |
| Procs.ExitStep | xv6-riscv/kernel/proc.c:684-723 | each step of an exiting thread can be taken and leaves its joiners asleep |
| Procs.WaitReaps | xv6-riscv/kernel/proc.c:728-772 | one pass of wait: with a zombie child exactly the first one's slot becomes free and nothing else in the table changes but the caller, who leaves; without one it leaves if killed or childless and sleeps otherwise |
| Procs.JoinReaps | xv6-riscv/kernel/proc.c:196-235 | one pass of thread_join: the slot of the thread it names becomes free if that is a zombie, it sleeps if the thread lives, and leaves if there is none |
| Procs.SlotsChange | xv6-riscv/kernel/proc.c:196-235 | only creation takes a slot into use, with the next pid, and only these two free one |
| Procs.Census | xv6-riscv/kernel/proc.c:684-772 | over every run: the slots in use are those at first plus the creations minus the reapings |
| Procs.ReapedOnce | xv6-riscv/kernel/proc.c:684-772 | over every run no pid is reaped twice, and nobody who was reaped is in the table again |
| Procs.EveryoneReapedOnce | xv6-riscv/kernel/proc.c:684-772 | from the first process on: slots in use and reaped pids together are all that were created, each pid at most once among the reaped |
| Procs.LivesChange | xv6-riscv/kernel/proc.c:237-297 | a process ends by the marking step of its own exit or thread_exit alone, and gets another parent by exit's scan alone |
| Procs.CallsBegin | xv6-riscv/kernel/proc.c:196-235 | a call takes a process to wait for wait_lock, the lock takes it into the body, kill takes a sleeper back to the lock; nobody else moves |
| Procs.WakeRouses | xv6-riscv/kernel/proc.c:684-723 | the wakeups in exit and thread_exit wake everybody who sleeps on that slot, and nobody else |
| Procs.GoAdvances | xv6-riscv/kernel/proc.c:196-297 | each step of the holder of wait_lock takes it nearer the release, and the last one releases it and leaves the call or sleeps |
| Procs.LockComesBack | xv6-riscv/kernel/proc.c:196-297 | whoever holds wait_lock gives it back within 2n + 4 steps of its own |
| Umalloc.FindSlot | xv6-riscv/user/umalloc.c:30-32 | from anywhere on the cycle the search ends at the last free block below the freed one |
| Umalloc.LinkedList | xv6-riscv/user/umalloc.c:33-43 | free leaves one address-ordered cycle through base with a single wrap and no two adjacent free blocks |
| Umalloc.LinkedUnits | xv6-riscv/user/umalloc.c:33-43 | the free units afterwards are exactly the old ones and the freed block's |
| Umalloc.RemovedList | xv6-riscv/user/umalloc.c:74-77 | taking a whole block out leaves a well-formed list |
| Umalloc.CarvedList | xv6-riscv/user/umalloc.c:78-82 | taking the tail of a block leaves a well-formed list |
| Umalloc.FreeKeeps | xv6-riscv/user/umalloc.c:24-44 | free and live blocks still tile the memory obtained, the block having changed sides |
| Umalloc.TakeKeeps | xv6-riscv/user/umalloc.c:73-85 | the same when units go from free to live |
| Umalloc.GrowKeeps | xv6-riscv/user/umalloc.c:46-61 | the same when sbrk's region is added |
| Umalloc.NothingFits | xv6-riscv/user/umalloc.c:72-89 | a scan that has come back to freep has seen every free block, so nothing fits |
| Umalloc.StopsAtFirst | xv6-riscv/user/umalloc.c:72-89 | the block at which the scan stops is, going round from freep, the first with room |
| Umalloc.RegionCovered | xv6-riscv/user/umalloc.c:46-61 | sbrk, whose argument is an int, is asked for the whole region iff the request is at most 2^31 - 32 bytes |
| Umalloc.LargestRequest | xv6-riscv/user/umalloc.c:46-90 | for the largest request sbrk is asked for one header while the block is recorded as 2^28 + 1 headers |
| Umalloc.Heap.constructor | xv6-riscv/user/umalloc.c:19-22 | the untouched allocator: nothing obtained, nothing live |
| Umalloc.Heap.Free | xv6-riscv/user/umalloc.c:24-44 | frees exactly the block; some free block is now at least as large, and freep is the last free block below the freed one |
| Umalloc.Heap.Morecore | xv6-riscv/user/umalloc.c:46-61 | a granted region becomes free memory joined to its neighbours; when sbrk fails nothing changes |
| Umalloc.Heap.Take | xv6-riscv/user/umalloc.c:73-85 | the last units of the block, as many as requested, become a live block disjoint from every other, and freep is the block before |
| Umalloc.Heap.FirstFit | xv6-riscv/user/umalloc.c:72-89 | malloc's loop: a block of the units asked for, new to the live ones, cut from the end of the first free block after freep that is large enough; null iff nothing fits and sbrk fails; memory is obtained only if nothing fits |
| Umalloc.Heap.Malloc | xv6-riscv/user/umalloc.c:63-90 | returns a block with room for nbytes, disjoint from all live ones; null iff nothing free fits and sbrk fails; sbrk is called only when nothing fits |
| Virtio.RingPut | xv6-riscv/kernel/virtio_disk.c:263-273 | an entry put at the 16-bit wrapping index overwrites none still waiting |
| Virtio.RingTake | xv6-riscv/kernel/virtio_disk.c:305-322 | the consumer's wrapping index finds the oldest waiting entry |
| Virtio.Wraps | xv6-riscv/kernel/virtio_disk.c:263-273 | an index that wraps at 2^16 still walks round the ring of NUM slots |
| Virtio.DescriptorsPartition | xv6-riscv/kernel/virtio_disk.c:157-213 | free descriptors and the three-descriptor chains of requests in flight partition the table |
| Virtio.RingsFit | xv6-riscv/kernel/virtio_disk.c:263-273 | neither ring ever holds more unconsumed entries than requests in flight |
| Virtio.RoomForTwo | xv6-riscv/kernel/virtio_disk.c:202-213 | three descriptors are free iff at most one request is in flight |
| Virtio.StepKeepsInv | xv6-riscv/kernel/virtio_disk.c:157-327 | every step of driver, device and interrupt handler keeps the invariant |
| Virtio.RunKeepsInv | xv6-riscv/kernel/virtio_disk.c:157-327 | so does every run |
| Virtio.FreeingIsSafe | xv6-riscv/kernel/virtio_disk.c:170-197 | when a chain is freed its three descriptors are distinct, in use and linked: no panic of free_desc |
| Virtio.HandlerIsSafe | xv6-riscv/kernel/virtio_disk.c:295-327 | the handler always finds a completed request with status 0 and clears the disk flag of exactly the buffer that posted it |
| Virtio.DeviceServes | xv6-riscv/kernel/virtio_disk.c:216-292 | going by the shared memory alone the device moves exactly the requested block in the requested direction and sets one status byte |
| Virtio.ReturnIsDone | xv6-riscv/kernel/virtio_disk.c:284-292 | virtio_disk_rw returns only after its own request was completed and handled; buffer and medium then agree |
| Virtio.NeverStuck | xv6-riscv/kernel/virtio_disk.c:216-327 | a request in flight is never stuck: device, handler or a woken process can move |
| Virtio.StepMoves | xv6-riscv/kernel/virtio_disk.c:216-327 | every step but a new request and a caller's own writes takes exactly one request one move further: taken, completed, handled, finished |
| Virtio.StepRecords | xv6-riscv/kernel/virtio_disk.c:216-292 | only a completion and a caller's own writes touch data or medium, and a new request passes what its buffer holds |
| Virtio.RequestsFinish | xv6-riscv/kernel/virtio_disk.c:216-327 | over every run: at most four moves for each request; a move is possible exactly while fewer were made, and exactly when four were made for each have all returned |
| Virtio.MediumHoldsLastWrite | xv6-riscv/kernel/virtio_disk.c:216-292 | whatever else is in flight a block holds the value of the last completed write to it |
| Virtio.DiskIsLinear | xv6-riscv/kernel/virtio_disk.c:216-292 | from initialisation on a returning read delivers, and a returning write has stored, the last write of its block |
| Virtio.Driver.constructor | xv6-riscv/kernel/virtio_disk.c:62-153 | after initialisation all descriptors are free and both rings empty |
| Virtio.Driver.AllocDesc | xv6-riscv/kernel/virtio_disk.c:157-166 | marks one free descriptor, or reports that there is none |
| Virtio.Driver.FreeDesc | xv6-riscv/kernel/virtio_disk.c:170-182 | one descriptor in use becomes empty and free, and whoever sleeps for descriptors is woken |
| Virtio.Driver.FreeChain | xv6-riscv/kernel/virtio_disk.c:186-197 | frees exactly the descriptors of the chain |
| Virtio.Driver.Alloc3Desc | xv6-riscv/kernel/virtio_disk.c:202-213 | three distinct free descriptors iff three are free; otherwise those taken are given back, which wakes the sleepers |
| Virtio.Driver.Start | xv6-riscv/kernel/virtio_disk.c:216-282 | posts the request, or sleeps on the free flags exactly when two are in flight; nobody sleeps there while three descriptors are free |
| Virtio.Driver.SleepersWait | xv6-riscv/kernel/virtio_disk.c:216-232 | whoever sleeps for descriptors does so while two requests are in flight, so that the end of one will wake it |
| Virtio.Driver.Finish | xv6-riscv/kernel/virtio_disk.c:284-292 | releases the chain after completion without touching the data, and wakes whoever sleeps for descriptors |
| Virtio.Driver.Intr | xv6-riscv/kernel/virtio_disk.c:295-327 | handles every completed request there is, each once, and no other |
| Shell.LineSound | xv6-riscv/user/sh.c:346-360 | what the line parser consumed is what its tree derives in the grammar |
| Shell.PipeSound | xv6-riscv/user/sh.c:363-373 | the same for pipes |
| Shell.ExecSound | xv6-riscv/user/sh.c:401-447 | the same for blocks and simple commands |
| Shell.LineComplete | xv6-riscv/user/sh.c:346-360 | any line the grammar derives, followed by the end or a parenthesis, is parsed to its tree |
| Shell.PipeComplete | xv6-riscv/user/sh.c:363-373 | the same for pipes and what may follow them |
| Shell.ExecComplete | xv6-riscv/user/sh.c:401-447 | the same for blocks and simple commands |
| Shell.AcceptsTheGrammar | xv6-riscv/user/sh.c:329-447 | a token string is parsed whole iff the grammar derives it |
| Shell.NoTwoTrees | xv6-riscv/user/sh.c:329-447 | no token string has two trees |
| Shell.OneSpelling | xv6-riscv/user/sh.c:329-447 | a line of the grammar stands for one command, said token by token without the parser: | and ; split into left and right in the order of the line, & and redirections wrap, argv is the words in order, < > and >> give their fd and mode |
| Shell.OpsAreNodes | xv6-riscv/user/sh.c:346-398 | one PipeCmd, ListCmd, BackCmd or RedirCmd of the fitting kind for each operator in the line, and none more |
| Shell.SpeltInOrder | xv6-riscv/user/sh.c:346-447 | in every pipe and list each word of the left command lies in the line before each of the right one, and argv is in the order of the line |
| Shell.TokensAre | xv6-riscv/user/sh.c:267-309 | tokens from characters: white space is skipped, >> is one token, other punctuation stands for itself, a word runs to the next of either |
| Shell.Gettoken | xv6-riscv/user/sh.c:267-309 | delivers the next token and its slice, advances past it and the white space after it, and never past the end |
| Shell.Peek | xv6-riscv/user/sh.c:312-321 | skips white space and tells whether the next character is one of the given ones, consuming no token |
| Shell.Parseredirs | xv6-riscv/user/sh.c:376-398 | reads exactly the redirections there are, in order, or panics on a missing file name |
| Shell.Parseexec | xv6-riscv/user/sh.c:417-447 | parses one simple command or block: succeeds and stops exactly where the grammar does |
| Shell.Parseblock | xv6-riscv/user/sh.c:401-414 | the same for a parenthesised line |
| Shell.Parsepipe | xv6-riscv/user/sh.c:363-373 | the same for a pipe |
| Shell.Parseline | xv6-riscv/user/sh.c:346-360 | the same for a line |
| Shell.LineWords | xv6-riscv/user/sh.c:197-259 | the command structures hold exactly the words of the tokens, each as often as it occurs |
| Shell.ToksAreWords | xv6-riscv/user/sh.c:267-309 | every word token is a maximal run of word characters |
| Shell.EndsOutside | xv6-riscv/user/sh.c:451-494 | words are disjoint slices and the end of one never lies inside another |
| Shell.TerminatedReadsBack | xv6-riscv/user/sh.c:451-494 | once all ends are overwritten every word pointer reads back exactly its word |
| Shell.Nulterminate | xv6-riscv/user/sh.c:451-494 | writes a NUL after every word of the command and changes nothing else |
| Shell.Parsecmd | xv6-riscv/user/sh.c:329-343 | does not panic iff the input is a line of the grammar; then the result is the one command that the line spells, with a node for every operator and its words in the order of the line, exactly the input's, and each reads back from the buffer |
| Grep.AcceptsFirst | xv6-riscv/user/grep.c:84-105 | items match at the start of text iff the first matches some piece and the others what follows |
| Grep.HereIsAccepted | xv6-riscv/user/grep.c:84-105 | the items stand for the pattern's characters: c* takes any run of c, or of anything for a dot, a final $ only the end, any other character itself, a dot any one |
| Grep.PlainHere | xv6-riscv/user/grep.c:84-95 | a pattern of plain characters and dots matches here iff the text begins like it, with a final $ iff the text is like it |
| Grep.PlainMatch | xv6-riscv/user/grep.c:72-81 | such a pattern is found iff it occurs somewhere in the text; under ^ iff the text begins with it, under $ iff it ends with it, under both iff it is the text |
| Grep.MatchHere | xv6-riscv/user/grep.c:84-95 | true iff the text begins as the characters of the pattern say: some prefix of it, all of it under a final $, splits into consecutive pieces matched by the items |
| Grep.MatchStar | xv6-riscv/user/grep.c:98-105 | the same with a repeated item in front |
| Grep.Match | xv6-riscv/user/grep.c:72-81 | true iff some segment of text matches, from its start under ^ and to its end under $ |
| ReadersWriters.StepKeepsInv | activities/readers_writers/reader_writer_final.c:19-77 | every step of any reader or writer, spurious wakeups included, keeps the invariant |
| ReadersWriters.RunKeepsInv | activities/readers_writers/reader_writer_final.c:19-77 | so does every run, for any number of threads |
| ReadersWriters.MutualExclusion | activities/readers_writers/reader_writer_final.c:19-77 | a writer is never inside with another writer or a reader, and the three counters are exact |
| ReadersWriters.NoLostUpdate | activities/readers_writers/reader_writer_final.c:58-65 | data equals the number of writes made, although each is a separate load and store |
| ReadersWriters.EveryWriterCounts | activities/readers_writers/reader_writer_final.c:58-65 | data equals how often a writer has entered its exit section plus the writers that have written and are about to: no writer skips its write |
| ReadersWriters.StepMoves | activities/readers_writers/reader_writer_final.c:19-72 | where each step takes a thread, by who is inside and who is queued, and what it leaves in data |
| ReadersWriters.NeverAllBlocked | activities/readers_writers/reader_writer_final.c:19-77 | never are all threads blocked on the condition variables, and some thread can always take a step of its own |
| ReadersWriters.QueuedWriterKeepsReadersOut | activities/readers_writers/reader_writer_final.c:23-28 | while a writer is queued no reader enters |
| ReadersWriters.ReaderSeesOneValue | activities/readers_writers/reader_writer_final.c:29-34 | data does not change while a reader is inside |
| ReadersWriters.Monitor.ReaderTest | activities/readers_writers/reader_writer_final.c:24-29 | a reader enters iff no writer is inside or queued, else it waits |
| ReadersWriters.Monitor.ReaderLeave | activities/readers_writers/reader_writer_final.c:34-39 | the last reader out, and only it, signals the writers |
| ReadersWriters.Monitor.WriterArrive | activities/readers_writers/reader_writer_final.c:51-52 | the writer queues up before its first test |
| ReadersWriters.Monitor.WriterTest | activities/readers_writers/reader_writer_final.c:53-58 | a writer enters iff nobody is inside, and is then alone |
| ReadersWriters.Monitor.WriterLeave | activities/readers_writers/reader_writer_final.c:65-72 | signals the next writer iff one is queued, otherwise wakes every waiting reader |

## Left out

Not modelled at all:

- Assembly, traps, the scheduler's choice of a process, CSRs, TLB flushes, the UART and the console. The scheduler may
  run any RUNNABLE process at any step.
- mkfs's file copying; its layout is used only to define a well-formed initial image.
- Copies from and to user memory in readi and writei, and their failures: source and destination are kernel buffers.
- runcmd and the main loop of the shell, grep's line buffer, pipes, exec, path lookup and system call argument checks.
- uvmclear, uvmfirst, copyin, copyout, kvmmake; fork's and exec's use of the memory operations.
- The dinode format, iupdate, ialloc and the inode cache (iget, idup, ilock): the inode table is in memory. In Dir the
  references iget and iput count are not modelled.
- Devices other than ROOTDEV.

Hypotheses and abstractions, by member:

- LogProtocol.SpaceSuffices: an operation makes at most MAXOPBLOCKS log_write calls, as the source demands of its callers; the state machine enforces it.
- Log.Log.Commit: requires more buffers than logged blocks plus one, else bget has no buffer for a log block; with mkfs's log area a transaction has at most 29 blocks and NBUF is 30, so it holds there. Readers that run during a commit are not modelled, and blocks are words rather than bytes.
- Log.Log.TryBegin: one test of begin_op's loop; the sleeping in between is the business of Sleep.
- Log.Log.RecoverFromLog: requires a header of at most LOGSIZE blocks, as write_head writes them; read_head does not check.
- Bio.BCache.Bget: the call that need not wait; when somebody else has locked the buffer bget is BgetLocked, the wait is SleepLock's subject, and Grab ends it.
- Bio.BCache.Bread: likewise Bget and then Load; after a wait it is BgetLocked, Grab and Load.
- Bio.BCache.Brelse: a buffer released with no other use must have been written or still be pinned; that is what log clients do, and what makes every bread return the last contents stored.
- Bio.BCache.Bunpin: while the buffer is held, as in install_trans.
- Fs.FileSystem.Readi: every file has a block for each of its bytes; mkfs rounds the root directory's size up to a block, and an image in which that crosses into a block never allocated is outside the model.
- Fs.FileSystem.Writei: log_write and iupdate of the same blocks are not repeated here; crash safety is LogProtocol's.
- Dir.Dirlink: the range of the inode number is that of a ushort, as the caller gets it from ialloc.
- Links.LinkCounts: operations are atomic, since each holds the inode locks it needs, except sys_link, whose gap between counting and entering is two steps. Where steps are unsafe the counts are wrong, exactly then (CountsIffSafe), and nothing is claimed of what follows the first unsafe step.
- Vm.Mappages: an existing mapping in the range is the "remap" panic and a requirement here, as is an address beyond MAXVA for Vm.Walk.
- Vm.Uvmunmap: the range must be mapped, and to pages the space owns when they are to be freed; these are its panics and what its callers provide.
- Vm.Uvmalloc: page table entries and sizes are unbounded integers, so overflow of 64-bit sums is not modelled; on failure table pages that walk has added stay in the tree, as in the source.
- Threads.ThreadCreate: the outcome Abandoned, memory running out after pages were shared, where the source calls freeproc with shared pages still mapped, is not followed further. The address of the stack, which the source derives from the pid, is a parameter above the shared region. Open files and the working directory are not part of it.
- Threads.FreeprocThread: for threads reaped by thread_join while the leader lives; reaping a thread through wait() is excluded.
- Threads.GrowGroup: when the free list runs out threads may lack pages; which ones is not said. Growth ends below the thread stacks, so no page of a thread is in the way.
- Threads.ShrinkGroup: after a panic nothing is promised.
- ThreadGroups.ThreadGroup.DoAll: a call nobody can make, such as the exit of a thread that has exited, is skipped, and so is one that would grow into the thread stacks. The run ends where thread_create gives up with pages shared, or with the panic. The leader stays; its exec, fork and exit are not calls of the sequence.
- Sleep.NoLostWakeup: what a process does between its calls is arbitrary, but sleep is called holding lk only; holding more is sched's panic.
- Sleep.GuardIsReleased: says that the way to a p->lock is open, not when the scheduler takes it; progress of that kind is left out throughout.
- Procs.StepKeepsInv: the scans of the process table under wait_lock are one step each in wait and thread_join, creation is one step, and killed is an input.
- Procs.WaitReaps: the pid that wait and thread_join return is not part of the state, nor is wait's copyout, whose failure leaves the child a zombie.
- Virtio.StepKeepsInv: a device that completes each posted head once and reports success; a failing status byte is the driver's panic. The start-up handshake and memory barriers are not modelled.
- Virtio.RequestsFinish: says that a move can be made, not when the device or the scheduler makes it.
- Virtio.Driver.Intr: completions that arrive while the handler loops are further steps of the machine.
- Virtio.Driver.Start: one turn of the loop; that a wakeup reaches every sleeper is Sleep.NoLostWakeup.
- Umalloc.Heap.Malloc: sbrk's answer is a parameter, a fresh region above all earlier ones or failure, aligned to a header; requests above 2^31 - 32 bytes are excluded when memory is granted, because of RegionCovered. Memory is counted in headers.
- Shell.Parsecmd: the exec node that parseexec shares with the redirections around it is built at the end instead of being filled in place; sizes of argv are bounded as in the source. The input has no NUL before its end.
- LogRefines.Kernel.Reboot: requires, as initlog does, a header that fits its block, and at most LOGSIZE blocks listed in it.
- LogRefines.Kernel.Write: the calls of operations are whole, one after the other; the cache is not shared with readers during a commit.
