# xv6 in Dafny

A model of the parts of xv6 (x86) that carry its hard invariants, with proofs of what they promise: the
write-ahead log, files over inode blocks, sleep locks, the buffer cache, lazily filled address spaces, the
process table with its aging scheduler, pipes, the user-level allocator, the shell's parser and grep's matcher.

`dafny verify dfyconfig.toml` checks everything. Each group of files can be read on its own.

## The parts

**The log** (`LogDisk`, `LogProtocol`, `LogTheorems`, `LogBuffers`, `LogFill`, `LogSize`, `LogPanics`, `LogSleep`,
`LogBudget`, `LogCode`). The disk is a sequence of blocks of bytes, written one at a time. `LogProtocol` is a state
machine whose steps are the block writes of `commit` and `recover_from_log`, the calls of file system operations, the
sleep and wakeup of `begin_op`, and other processes that hold buffers, with a crash enabled in every state. `log_write`
is two steps, as it takes the lock only after its test for room: other operations may append between the test and the
append. The log area has `size` blocks and the cache `nbuf` buffers; a step that needs a buffer panics when listed,
tested and held blocks fill the cache, which is when `bget` panics (`BufferCache.PanicsByCount`). `LogTheorems` proves
over every run of operations within their budgets that recovery yields the replay of a prefix of the logged writes which
splits no operation, also when recovery itself crashes any number of times. What a run has logged is told from its
events alone (`RunWrites`), and at every moment, in a commit too, a read gives what was logged last (`LatestIsShown`).
`LogBudget` ties the budget to the files:
the transactions of `filewrite` are within it in any interleaving. `LogCode` is `struct log` with its methods; it
records the disk after each write and proves which state every one of these images recovers to. What one might take for
granted has exact conditions, each an if-and-only-if over all runs:

* Operations within their budgets are crash-atomic when `size` exceeds `LOGSIZE`, or is 1, or is at least `nbuf`
  (`CutExact`). Otherwise two of them can pass the test together at the last free place, and the commit then copies a
  block over the one behind the area before it writes the header (`SmallLogSplits`).
* No run, within budgets or not, writes behind the array of the header when `nbuf` is at most `LOGSIZE` or `size` below
  it (`OverrunExact`).
* Operations within their budgets never make the kernel panic when `size` exceeds `LOGSIZE` and `nbuf` exceeds `LOGSIZE`
  by more than other processes hold (`PanicExact`); for the panic "too big a transaction" alone see `LogSizeExact`.
* The area that `mkfs.c` builds and the cache of `param.h` have `LOGSIZE` each (`AsBuilt`): there every run at all is
  crash-atomic and none overruns the array, but operations within their budgets can reach both panics.
* The test for a full log comes before the search for absorption, so logging a block that is already listed can
  panic (`AbsorptionCanPanic`). The budget is therefore stated as "fewer than `MAXOPBLOCKS` blocks before each
  `log_write`", and the file layer is proved to stay within it.
* Whoever sleeps in `begin_op` has a reason to, and an operation or a commit is on whose end wakes everybody
  (`SleepersHaveReason`, `EveryEndWakes`).

**Files** (`Blocks`, `Inodes`, `WriteLemmas`, `FileSystem`, `FileWrite`, `FileTruncate`, `OpenFile`, `Format`,
`CrashSafe`). Blocks are bytes; bitmaps, indirect blocks and on-disk inodes are read out of them. A map `owner`, which
no branch reads, names the inode and slot of each block in use; the invariant says it is exactly the inverse of the
slots and that the bitmap marks exactly its keys and the metadata. A file is a byte sequence; `writei` splices it and
leaves all others alone, `readi` returns a slice of it and changes nothing. `balloc` panics when the bitmap has no clear
bit; for `bmap`, `writei` and `filewrite` that panic is stated as a count of free blocks before the call, with what is
on disk when it strikes. Each logged write is recorded with its data, and the disk is the one at the start of the
transaction with these writes applied. `Format` makes the blank file system that all of this starts from. `CrashSafe`
joins files and log: crash a `filewrite` at any step of the log and recover, and there is a valid file system with a
whole number of chunks, or all of the bytes, in the file and every other file unchanged (`FilewriteSurvives`).

**Sleep locks** (`SleepLock`). Any number of processes and locks, every statement of `acquiresleep`,
`releasesleep`, `holdingsleep`, `sleep` and `wakeup` that touches shared state a step of its own, interleaved in
every way with dispatches, preemptions and stray wakeups.

**The buffer cache** (`BufferCache`, with `Rings`). The list is its `next` and `prev` pointers; the sequence they
spell and the time stamps are books that no branch reads. `current` is the contents a block has as of its last write.

**Address spaces** (`Frames`, `PageTables`, `Spaces`, `KernelMap`, `Lazy`, `CopySpace`, `AddressSpaces`, `Machines`).
Page directories and tables are frames of the memory they describe. A map `owner` names for each frame that is not free
the place that refers to it. Every operation is proved against that map and says how many frames it may take.
`AddressSpaces` proves that processes that grow, shrink, fork, load and store see what a machine would show them that
allocates all pages at growth. `Machines` has whole runs from an empty memory on: each failure has its reason, and with
enough memory for the pages asked for, a run shows exactly what the eager machine shows (`RunIsSmooth`). One call
differs: `growproc` asked to shrink by exactly the size frees all pages, then reports failure and keeps the size
(`GrowProc`, `ShrinkToZeroLoses`).

**Processes** (`ProcTable`, `ProcCode`, `Processes`, `Signals`, `Scheduler`). `ProcCode` has the table scans in place
on an array, proved against the functions of `ProcTable`; `Processes` interleaves them. `Signals` says over whole runs
what kills and what wakes a process. Two things fail, with exact conditions: `allocproc` does not clear the mark of
`kill`, and `kill` takes the pid of a free slot, so a child can be born killed though nobody named it (`BornKilled`,
`UnmarkedExactly`, `BlamedExactly`); and the scheduler starves: there are runs from boot, of any length, in which the
second of two processes at the top priority is runnable all along and no pass can pick it (`Starves`, `PassedOver`).

**Pipes** (`Pipe`, `PipeCalls`). The ring with its 32-bit counters, and any number of readers and writers over it.
`PipeCalls` accounts for every byte: each is from one call of `pipewrite`, in the order of its buffer, all of them once
the call has returned success, and what the reads return is the stream. A killed writer returns without waking readers,
so a reader can stay asleep on a full pipe (`Stranded`); `ReaderLeftAsleep` says exactly when for a write,
`ReadersServed` for a whole run.

**The allocator** (`Umalloc`, with `Rings`). Headers in memory; the free list as a sequence, the live blocks and the
block of each unit are books that no branch reads.

**The shell and grep** (`Shell`, `ShellGrammar`, `ShellParses`, `ShellCode`, `ShellRoundTrip`, `ShellWords`, `Grep`).
`Shell` has the recursive descent as functions and `ShellCode` its loops and recursion as methods equal to them.
`ShellGrammar` says independently what a line is, its tokens and the sentences of the grammar with their meaning;
`ParsesExactly` proves of every string that the parser returns a command if and only if the string is a sentence that
means it. The NUL termination is on an array. The matcher of grep is proved against the words of the pattern, defined
on the pattern's characters.

`Basics` has what several groups share.

## Model

| member | source | states |
|---|---|---|
| LogDisk.HeaderRoundTrip | log.c:85-113 | what `write_head` stores over any old header block, `read_head` reads back |
| LogDisk.InstallContents | log.c:69-82 | after k turns of `install_trans` the first k listed blocks hold their log blocks and no other block has changed |
| LogDisk.RecoverRestores | log.c:115-122 | recovery of an image that holds a state in redo form yields that state in place and an empty log |
| LogDisk.LogBlockWriteIsSafe | log.c:177-190 | filling a log block changes no outcome of recovery while the header on disk is empty |
| LogDisk.InstallOneIsSafe | log.c:74-81 | copying one listed block home keeps the committed state recoverable |
| LogProtocol.AbsorbKeepsHeader | log.c:223-230 | absorption lists each block once and only home blocks |
| LogProtocol.AppendShows | log.c:223-232 | after the append of `log_write` the cache shows the new data of that block and the old data of all others |
| LogProtocol.CommitShows | log.c:98-113 | the one write of the header makes recovery yield what the cache shows |
| LogProtocol.StepKeepsInv | log.c:69-233 | every step of any operation, of commit, of recovery, of other users of buffers, and a crash keep the invariant, panics for want of a buffer included, as long as an append finds room |
| LogProtocol.StepKeepsOps | log.c:124-233 | every step, in every log area, keeps the books about operations |
| LogTheorems.RunKeepsInv | log.c:69-233 | the invariant holds at the end of every run in which each append finds room |
| LogTheorems.HistoryIsLogged | log.c:213-233 | the history of any run that does not overrun the array is what its events log: the block and data of each test at its append, cut back to the commit point by a crash |
| LogTheorems.LoggedReadsBack | log.c:213-233 | a block logged reads back with the new data at once, and no other block reads differently |
| LogTheorems.RunIsSafe | log.c:124-233 | in a log area of more than LOGSIZE blocks, or of the header alone, or of no fewer blocks than there are buffers, every append of every run within budgets finds room |
| LogTheorems.CrashRecoversCut | log.c:124-202 | a crash after any run within budgets in such an area, the one that is built included, recovers a prefix of the writes its events logged that splits no operation; `committing` implies no operation in progress; with none in progress nothing is lost |
| LogTheorems.HeaderWriteCommits | log.c:192-202 | the committed prefix moves at the header write alone, then past every logged write, with no operation in progress, unless there is no buffer for it |
| LogTheorems.StepKeepsShows | log.c:69-202 | every step keeps that a read gives what was logged last, after the commit point as well as before it |
| LogTheorems.LatestIsShown | bio.c:96-106 | after any run within budgets, outside recovery, `bread` of any home block gives the last data the events logged for it |
| LogTheorems.RecoverySurvivesCrashes | log.c:115-122 | recovery interrupted by any number of crashes ends in the state that the first one would have restored |
| LogTheorems.StepKeepsReserved | log.c:124-233 | every step, in every log area, keeps listed blocks, tested but not yet appended ones and unspent budgets within LOGSIZE |
| LogTheorems.RunKeepsReserved | log.c:124-233 | so does every run, and no append writes behind the end of the array |
| LogBuffers.StepKeepsCache | bio.c:61-93 | every step keeps the pinned buffers those of listed blocks, and no more blocks pinned, tested or held than there are buffers |
| LogBuffers.HeldExactly | bio.c:61-141 | other processes have in buffers exactly what they got there and have not let go |
| LogBuffers.ListedAreCached | log.c:223-230 | so an append of a new block finds fewer blocks listed than there are buffers |
| LogBuffers.RunStaysBounded | log.c:213-233 | in no run, within budgets or not, does the list outgrow the array if there are no more buffers than places in it or the area is smaller |
| LogSize.SmallLogPanics | log.c:213-219 | operations within budget reach the panic "too big a transaction" in a log area of at most LOGSIZE blocks whose list the cache can hold |
| LogSize.LogSizeExact | log.c:213-219 | all runs within budget are free of that panic if and only if the log area has more than LOGSIZE blocks or the cache is too small for its list |
| LogSize.AbsorptionCanPanic | log.c:218-227 | with the log full, logging a block it lists already panics |
| LogSize.OverBudgetOverruns | log.c:218-230 | with more than LOGSIZE buffers and an area that large, a run in which one operation is beyond its budget writes behind the end of the array |
| LogSize.OverrunExact | log.c:218-230 | no run at all writes behind the end of the array if and only if there are at most LOGSIZE buffers or the area has fewer blocks than that |
| LogSize.SmallLogSplits | log.c:177-230 | a run within budgets in an area of 2 to LOGSIZE blocks, and with more buffers than that, whose recovery is no whole number of operations |
| LogSize.CutExact | log.c:124-233 | on a disk with a block behind the log area, all runs within budgets are crash-atomic if and only if the area has more than LOGSIZE blocks, only its header, or no fewer blocks than there are buffers |
| LogPanics.RunWorks | log.c:69-233 | with more than LOGSIZE blocks in the area and more than LOGSIZE buffers besides those that others may hold, no step of any run within budgets panics |
| LogPanics.PanicExact | log.c:69-233 | no run within budgets panics, beside processes that hold h buffers at most, if and only if the area has more than LOGSIZE blocks and the cache more than LOGSIZE + h buffers |
| LogPanics.SmallCacheIsAtomic | bio.c:81-92 | with no more buffers than LOGSIZE and than blocks in the area, every run at all is crash-atomic |
| LogPanics.FullListDies | log.c:177-186 | with LOGSIZE buffers and blocks, operations within budgets can list that many; `write_log` then finds no buffer and nothing has been written |
| LogPanics.AsBuilt | param.h:10-12 | in the area and cache as built every run is crash-atomic and none overruns the array; both panics are within reach of operations within budgets |
| LogSleep.StepWakes | log.c:124-174 | every step keeps that nobody sleeps in `begin_op` who could enter |
| LogSleep.SleepersHaveReason | log.c:125-141 | in every state of every run a sleeper has a commit on or a log too full, and an operation or a commit to wake them |
| LogSleep.EveryEndWakes | log.c:145-174 | the end of an operation, or of the commit it starts, wakes everybody |
| LogSleep.AsleepExactly | log.c:125-174 | who sleeps after a step: who went to sleep in it, and who slept and was not woken |
| LogSleep.SleepsUntilWoken | log.c:125-174 | a sleeper sleeps on until a wakeup |
| LogBudget.BudgetedIsDisciplined | log.c:124-233 | operations that each log at most MAXOPBLOCKS blocks, fewer before the last call, stay disciplined whatever the others list |
| LogBudget.BudgetedRunsAreAtomic | log.c:124-233 | so all their runs are crash-atomic in such areas |
| LogBudget.TransactionsAreAtomic | file.c:127-153 | any run whose events ask for the writes of transactions within the budget, such as those of `WriteChunks`, in any interleaving, is crash-atomic |
| LogCode.Log.constructor | log.c:53-66 | `initlog` up to the recovery, for any disk |
| LogCode.Log.InstallTrans | log.c:69-82 | the committed state is recoverable after each write and, unless a buffer is wanting, home at the end with no listed buffer pinned |
| LogCode.Log.ReadHead | log.c:85-96 | for any header block: no buffer, a count that does not fit the array, or the list in memory becomes what the block lists, usable exactly if that is |
| LogCode.Log.WriteHead | log.c:101-113 | one block is written and then lists what memory does; nothing is exactly when there is no buffer for it |
| LogCode.Log.RecoverFromLog | log.c:115-122 | with two buffers it ends with the recovered state home and the log empty; recoverable after each write on the way |
| LogCode.Log.WriteLog | log.c:177-190 | the log area gets the pinned blocks; after each write the disk recovers to what it was before; exactly when it stops for want of a buffer |
| LogCode.Log.Commit | log.c:192-202 | images before the header write recover to the old state, all later ones to the new state, which ends up in place; exactly when it stops for want of a buffer, with the old state recoverable |
| LogCode.Log.BeginOp | log.c:125-141 | one turn of the loop: enters exactly when no commit is on and a full budget more fits the log, else sleeps; nobody sleeps without a reason |
| LogCode.Log.Append | log.c:223-232 | the cache shows the write and the block is listed once |
| LogCode.Log.LogWrite | log.c:213-233 | when it panics and what it lists and shows, without another process between test and append |
| LogCode.Log.EndOp | log.c:145-174 | the last one out leaves what the cache shows on disk, and every image on the way recovers to the state before or to that one; an earlier one writes nothing; all sleepers are woken; exactly when it panics |
| LogCode.ClearedIsHome | log.c:197-200 | once everything listed is home no buffer is pinned and emptying the header loses nothing |
| Blocks.WordSetWord | fs.c:389-393 | storing a 32-bit word in a block of bytes changes that word alone |
| Blocks.BitUpdate | fs.c:66-68 | setting or clearing one bit of a bitmap block changes that bit alone |
| Inodes.WrittenIsSplice | fs.c:498-508 | bytes written through direct and indirect slots are a splice of the file's byte sequence |
| Inodes.GrowAddr | fs.c:378-381 | a fresh block in an empty address keeps ownership and bitmap in step and shows in no file |
| Inodes.GrowEntry | fs.c:389-394 | so does one in an empty entry of the indirect block |
| Inodes.DinodeRoundTrip | fs.c:226-233 | the sixteen words of an inode decode to it |
| Inodes.SlotBlocksAre | fs.c:414-431 | the blocks in the first k slots of an inode are the blocks it owns there |
| Inodes.FreedAll | fs.c:407-435 | clearing the bits of all blocks of an inode and emptying it keeps ownership and bitmap in step and every other file as it was |
| FileSystem.FreeIsUnowned | fs.c:55-78 | the free blocks are the data blocks less the owned ones |
| FileSystem.Balloc | fs.c:55-78 | the lowest free block, owned by nobody, marked and zeroed; the panic exactly when no block is free |
| FileSystem.Bfree | fs.c:80-95 | panics exactly when the bit is clear, else clears it |
| FileSystem.AllocAddr | fs.c:378-381 | the address gets a fresh block, logged with its bitmap block; data everywhere reads as before |
| FileSystem.AllocEntry | fs.c:391-394 | the same for an entry of the indirect block, which is logged too |
| FileSystem.IndirectRoot | fs.c:385-389 | the indirect block, made only if there is none |
| FileSystem.IndirectEntry | fs.c:389-396 | the block of an entry, made only if there is none |
| FileSystem.BmapIndirect | fs.c:383-397 | the indirect case of `bmap`, with what it logs and takes; the panic exactly when fewer blocks are free than are missing |
| FileSystem.Bmap | fs.c:372-400 | changes nothing if the block is there; else only that slot and the indirect block come to be, and every file reads as before; panics exactly beyond MAXFILE or when fewer blocks are free than are missing |
| FileSystem.EncodeDinode | fs.c:226-233 | the stored inode reads back, its seven neighbours are unchanged |
| FileSystem.Iupdate | fs.c:220-236 | the disk inode equals the cached one, all other inodes and all files are unchanged |
| FileSystem.ReadChunk | fs.c:469-474 | one turn of the loop returns the bytes of the file and changes nothing |
| FileSystem.ReadRange | fs.c:469-474 | the loop returns the slice of the file and changes nothing |
| FileSystem.Readi | fs.c:452-476 | exactly the requested slice clipped to the size, when it fails, and that it never allocates or logs |
| WriteLemmas.ChunkBudget | file.c:127-133 | for 1536 bytes at any offset the loop of `writei` has at most nine blocks to log |
| WriteLemmas.DenseGrows | fs.c:498-508 | one more block keeps a file without holes |
| FileWrite.WriteChunk | fs.c:498-504 | one turn of the loop puts its bytes into one block of one file and logs what its budget says |
| FileWrite.WriteRange | fs.c:498-504 | the loop writes all bytes, makes exactly the blocks they need and logs no more than the budget of the range; stops exactly when fewer are free |
| FileWrite.Writei | fs.c:481-511 | splices one file and keeps all others, keeps files without holes, disk inodes equal to cached ones, ownership and bitmap in step; exactly when it fails; panics exactly when fewer blocks are free than the file gains, with a prefix of the bytes in and all other files unchanged; ten logged blocks at most for 1536 bytes, nine before the last |
| FileTruncate.FreeSlot | fs.c:414-419 | one `bfree` of the loops finds its block in use |
| FileTruncate.FreeAll | fs.c:414-431 | the loops free each block of the file once, so "freeing free block" is out of reach |
| FileTruncate.Itrunc | fs.c:407-435 | the file owns nothing afterwards, every other file is unchanged, all invariants hold |
| OpenFile.WrittenTwice | file.c:134-152 | chunks written one after the other in transactions of their own are one write |
| OpenFile.WriteChunks | file.c:127-153 | all bytes or a prefix of whole chunks goes in, exactly when which, and exactly when the disk is too full; the state after each transaction is valid, has a whole number of chunks, and comes of the one before by writes within the budget |
| OpenFile.ReadBack | fs.c:452-511 | exactly when `writei` succeeds; what it put at an offset `readi` then returns from there, and any read of any other file is as before |
| OpenFile.File.constructor | sysfile.c:327-331 | an open file at offset 0 |
| OpenFile.File.Read | file.c:96-113 | the bytes at the offset, which moves past them; exactly when it fails |
| OpenFile.File.Write | file.c:117-156 | the file gets the bytes at the offset, which moves past what went in; exactly when it fails, with how much went in, and exactly when it panics, with what is on disk then |
| CrashSafe.TransactionsSurvive | log.c:124-202 | events that make transactions in turn, a crash at any step: recovery leaves the disk between two of them, and after all that have ended if none is in progress |
| CrashSafe.FilesBehind | fs.c:55-511 | the invariant of the files does not depend on the log area |
| CrashSafe.FilewriteSurvives | file.c:127-153 | crash `filewrite` at any step and recover: a valid file system, a whole number of chunks or all bytes in the file, every other file as it was |
| Format.ImageIsValid | mkfs.c:93-104 | the layout that is built is one the file system can work on |
| Format.Blank | mkfs.c:109-251 | the zeroed disk with its metadata blocks marked is a valid file system with every data block free |
| SleepLock.MoveKeepsInv | sleeplock.c:22-53 | every statement of the lock operations, `sleep` and `wakeup` keeps the invariant |
| SleepLock.OtherKeepsInv | proc.c:511-532 | so do dispatches, preemptions and wakeups by `kill` |
| SleepLock.RunKeepsInv | proc.c:452-509 | the invariant holds in every state of every run |
| SleepLock.MutualExclusion | sleeplock.c:22-53 | no two processes hold a sleep lock at once, and `holdingsleep` answers truly |
| SleepLock.Exclusive | sleeplock.c:22-42 | between two returns of `acquiresleep` on the same lock, to whomever, the one who got it first has cleared it |
| SleepLock.OnlyWoken | proc.c:452-500 | a sleep ends only by `kill` or by a wakeup on its channel |
| SleepLock.NothingStale | sleeplock.c:22-42 | a free lock has no pid, and outside `sleep` a process has no channel |
| SleepLock.GoesOn | proc.c:452-532 | a process preempted, or killed in its sleep, goes on when dispatched |
| SleepLock.NoLostWakeup | proc.c:452-509 | while a sleep lock is free and no releaser is inside its wakeup, nobody sleeps on it |
| SleepLock.QuietMeansHeld | sleeplock.c:22-42 | when nothing can move, whoever is inside an operation sleeps on a lock that is held |
| SleepLock.HoldingAnswers | sleeplock.c:44-53 | what `holdingsleep` reads is whether its caller owns the lock |
| SleepLock.PtableHolderMoves | proc.c:452-509 | the holder of `ptable.lock` is never stuck |
| SleepLock.SpinHolderMoves | spinlock.c:24-68 | nor is the holder of any sleep lock's spinlock once `ptable.lock` is free |
| BufferCache.UnlinkRing | bio.c:132-133 | unlinking by the two pointer writes removes one buffer from the ring |
| BufferCache.PushRing | bio.c:134-137 | the four pointer writes insert a buffer after the head |
| BufferCache.FindCached | bio.c:69-76 | finds a buffer with the block, or there is none |
| BufferCache.FindIdle | bio.c:81-91 | finds the idle clean buffer let go longest ago, or there is none |
| BufferCache.Get | bio.c:61-93 | the buffer of the block, else the least recently released idle one; the panic exactly when there is neither; every block is in one buffer at most |
| BufferCache.PanicsByCount | bio.c:81-92 | `bget` finds no buffer if and only if the blocks in use and the one asked for are more than there are buffers |
| BufferCache.Lock | bio.c:73-74 | a waiting process gets the free lock; the cache stays coherent |
| BufferCache.Fill | bio.c:96-106 | the buffer holds the latest contents of its block, from the cache or from disk; exactly when the disk refuses |
| BufferCache.WriteLogged | log.c:213-233 | the new data is current though not on disk, and the buffer cannot be recycled |
| BufferCache.Bwrite | bio.c:109-116 | the new data is current and on disk, and the buffer is no longer pinned |
| BufferCache.Unlock | bio.c:121-126 | the first half of `brelse` keeps the invariant for any interleaving |
| BufferCache.Drop | bio.c:128-141 | the last user puts the buffer to the front, the ring stays a permutation of all buffers in order of release |
| BufferCache.Binit | bio.c:38-56 | the ring of all buffers, no block in two of them |
| BufferCache.Bcache.constructor | bio.c:38-56 | the same for the object |
| BufferCache.Bcache.Bread | bio.c:96-106 | returns the latest contents of the block, exactly when it panics |
| BufferCache.Bcache.Brelse | bio.c:121-141 | one user less, no contents change |
| Frames.Kalloc | kalloc.c:82-95 | the frame was on the free list and nobody's; 0 exactly when the list is empty; every frame stays free once or owned once |
| Frames.Kfree | kalloc.c:59-77 | a frame in use goes back; every frame stays free once or owned once |
| Frames.InstallTable | vm.c:45-52 | an empty table in an absent directory entry changes no entry or page of any space |
| Frames.InstallPage | vm.c:69-73 | a frame in an absent user entry changes that page alone, in that space alone |
| Frames.RemovePage | vm.c:318-324 | freeing a page's frame and clearing its entry changes that page alone |
| Frames.PutPage | vm.c:433-440 | a write to the frame of a user page shows in that page alone: no frame is in two places |
| PageTables.Walk | vm.c:35-55 | finds or makes the table, fails exactly when it may not or memory is out; no entry or page changes, at most one frame is taken |
| PageTables.MapOne | vm.c:69-73 | one turn of `mappages`: the entry is set, fails exactly when memory is out, panics exactly when it was present |
| PageTables.MapPages | vm.c:60-80 | exactly the pages of the range are mapped, to consecutive frames; each frame taken became a table |
| Spaces.SkipIsAbsent | vm.c:315-317 | the skip over a missing table passes over no present page |
| Spaces.RemoveAt | vm.c:318-325 | one page and its frame gone, nothing else |
| Spaces.DeallocUvm | vm.c:304-328 | exactly the pages between the sizes are gone and exactly their frames are free again |
| Spaces.FreeVm | vm.c:332-347 | exactly the frames of that space are free again, every other space is unchanged |
| KernelMap.SetupKvm | vm.c:118-136 | a space that maps exactly the kernel's ranges; on failure every frame is back, and memory was short |
| Lazy.KallocWith | trap.c:62-70 | a frame with the given bytes that shows in no space |
| Lazy.FillPage | trap.c:62-77 | a zeroed page where none was; on failure every frame is back |
| Lazy.HandleFault | trap.c:37-81 | every page of every space reads as before; handled for any absent page from the second up to the size if two frames are free; the "remap" panic exactly on a present page |
| Lazy.AllocUvm | vm.c:252-298 | exactly when it allocates at once; every page reads as before, new ones as zeroes; on failure memory was short and only tables were added |
| CopySpace.Abandon | vm.c:402-404 | every frame of the half-made copy is back |
| CopySpace.CopyUvm | vm.c:364-405 | a copy of the present pages with their flags and the kernel's map; on failure every frame is back, and memory was short |
| AddressSpaces.ShrinkToZeroLoses | proc.c:176-179 | `growproc` asked to shrink any process by its size fails, and a nonzero byte of it reads as zero afterwards |
| AddressSpaces.GrowUp | proc.c:172-175 | growth shows what the eager machine shows; fails only beyond KERNBASE or where it allocates at once and memory is short |
| AddressSpaces.GrowDown | proc.c:176-179 | a shrink takes no frame; one to size 0 fails with the pages gone, one by more than the size changes nothing |
| AddressSpaces.GrowProc | proc.c:166-183 | steps as the eager machine if and only if it is not asked to shrink nonzero contents to size 0; growth fails only beyond KERNBASE or where it allocates at once and memory is short |
| AddressSpaces.ForkSpace | proc.c:200-207 | the child sees what the parent sees, no other process changes; on failure the owners of all frames are the same, and memory was short |
| AddressSpaces.FreeSpace | proc.c:299-301 | the space of the reaped child is gone, no other process changes |
| AddressSpaces.Access | trap.c:130-153 | an access within the size succeeds if memory is not out, and no page of any process reads differently for it |
| AddressSpaces.LoadByte | trap.c:130-153 | a load returns the byte the eager machine has there |
| AddressSpaces.StoreByte | trap.c:130-153 | a store changes one byte of one process |
| Machines.FreeRange | kalloc.c:46-53 | every frame of the range is free once |
| Machines.FirstSpace | vm.c:182-193 | a space with one page that holds the given bytes; fails only when memory is short |
| Machines.OpenNeverRemaps | trap.c:37-81 | with all pages open to their users no step of any process meets the "remap" panic |
| Machines.Perform | proc.c:166-207 | any step of any process shows what the eager machine shows; a failure, kill or panic has its reason in the sizes, the free frames or the page's flags; every frame is accounted for |
| Machines.FramesLeft | proc.c:166-207 | over any run, frames in use grow by no more than the cost of its steps |
| Machines.RunIsSmooth | proc.c:166-207 | with frames for that cost at the start, every step of the run is the eager machine's and none fails for want of memory |
| Machines.Machine.constructor | kalloc.c:30-44 | no process, all memory free |
| Machines.Machine.UserInit | proc.c:128-140 | the first process sees one page with its program; fails only when memory is short |
| Machines.Machine.Do | proc.c:166-207 | `Perform` on the object, with every directory that of a process and every frame free or owned once |
| Machines.Machine.Run | proc.c:166-207 | every run goes to its end unless a step faults on a present page, which none does if all pages are open; it shows step by step what the eager machine shows, without failures if memory suffices |
| Umalloc.FindPlace | umalloc.c:29-32 | the search from any `freep` ends at the neighbours of the block |
| Umalloc.Relink | umalloc.c:33-42 | the header writes of `free` link the block in and merge it with the neighbours it touches |
| Umalloc.Free | umalloc.c:24-44 | the list stays circular, in address order and fully coalesced; no live block changes, no unit is lost |
| Umalloc.MoreCore | umalloc.c:46-61 | new units join the list and one block is then large enough |
| Umalloc.Carve | umalloc.c:75-84 | a block of exactly the asked units leaves the list, which keeps all invariants |
| Umalloc.AllSeen | umalloc.c:74-89 | a walk of one whole turn has seen every free block |
| Umalloc.WalkOn | umalloc.c:74-86 | past a block that is too small the walk goes on, or it has come round and nothing fits |
| Umalloc.Malloc | umalloc.c:63-90 | ends, asks for memory once at most, and returns a new block of the right size that overlaps no other; fails only when no free block fits and `sbrk` refuses, and then loses nothing |
| Umalloc.UnitsSuffice | umalloc.c:52-69 | the block holds the bytes, and `sbrk` is asked for a positive amount, if and only if the request is at most 0x7FFFFFF0 |
| Umalloc.Apart | umalloc.c:24-90 | blocks, free or live, do not overlap |
| Umalloc.UnitsConserved | umalloc.c:24-90 | the units got from `sbrk` are exactly those of the free and live blocks, each in one block |
| Umalloc.Allocator.constructor | umalloc.c:21-22 | no block and no memory yet |
| Umalloc.Allocator.Alloc | umalloc.c:63-90 | a new live block of at least the asked bytes, the others unchanged; none only when no free block fits and `sbrk` refuses |
| Umalloc.Allocator.Release | umalloc.c:24-44 | one live block less, the others unchanged, no unit lost |
| ProcCode.Wakeup1 | proc.c:492-500 | exactly the sleepers on the channel become runnable |
| ProcCode.AgingPass | proc.c:345-354 | every runnable process ages once |
| ProcCode.AdoptChildren | proc.c:264-271 | all children go to init, which is woken exactly if one is a zombie |
| ProcCode.Exit | proc.c:259-274 | the table after the locked part of `exit` |
| ProcCode.ScanChildren | proc.c:290-310 | the first zombie child is reaped and its pid reported; else whether there are children |
| ProcCode.PickPass | proc.c:356-373 | a runnable process of the highest priority at the lowest slot that has it, or none is runnable |
| ProcCode.FindUnused | proc.c:84-95 | the first unused slot |
| ProcCode.Kill | proc.c:514-532 | marks the first process with the pid and takes it out of any sleep |
| ProcCode.SetPriority | sysproc.c:88-116 | succeeds exactly for a priority in 1..5 and a pid in the table, and restarts the wait count |
| Processes.StepKeepsInv | proc.c:78-321 | every step of fork, exit, wait, sleep, wakeup, kill and dispatch keeps the invariant |
| Processes.RunKeepsInv | proc.c:78-321 | the invariant holds in every state of every run |
| Processes.ExitAndWait | proc.c:233-321 | every process but init has a live parent until it is reaped; nobody sleeps in `wait` with a zombie child; pids are unique; each exit is reported once at most |
| Signals.KillMarks | proc.c:514-532 | `kill` marks the process, ends its sleep and changes nothing else |
| Signals.KilledUntilReaped | proc.c:286-321 | over any run the mark stays, with the pid, until the process is reaped |
| Signals.RunKeepsAwake | proc.c:312-319 | in no state of any run does a killed process sleep in `wait` |
| Signals.BlamedExactly | proc.c:84-98 | in every state of a run each marked slot has a pid that a `kill` named, if and only if no `allocproc` takes a marked slot |
| Signals.UnmarkedExactly | proc.c:514-532 | no free slot is ever marked if and only if no `kill` names the pid of a free slot and no `fork` fails after its child was killed; then every mark has been named |
| Signals.BornKilled | proc.c:514-532 | a run from boot: `kill(0)` succeeds on a free slot and the next child is killed from birth, its pid never named |
| Signals.SleepEnds | proc.c:492-532 | a sleep ends only by a wakeup on its channel, by `kill`, or in `wait` by the exit of a child or by init inheriting a zombie |
| Signals.WokenByName | proc.c:452-509 | whoever went to sleep on a channel and is still in that sleep is woken by the next wakeup on it, and nobody is left asleep there |
| Signals.RunKeepsTidy | proc.c:84-231 | a child in the making has a maker, so that a failed `fork` loses no slot; only sleepers and those just woken have a channel |
| Scheduler.StepKeepsPriorities | proc.c:345-387 | every step keeps live priorities in 1..5 and wait counts below the threshold |
| Scheduler.RunKeepsPriorities | proc.c:345-387 | so does every run |
| Scheduler.AgingClosedForm | proc.c:345-354 | after N passes that found it runnable a process has priority min(5, p0 + (t0 + N) / 100), whatever else happened |
| Scheduler.SetThenAges | sysproc.c:88-116 | after `setpriority` the closed form starts from the new priority and no wait |
| Scheduler.ForkInherits | proc.c:186-231 | a child becomes runnable with the priority its parent had when it linked it, unless it was set since, and no time waited |
| Scheduler.SomeoneRuns | proc.c:358-387 | a pass that dispatches nobody found nobody runnable |
| Scheduler.PassedOver | proc.c:361-371 | a process found at the top is passed over if and only if a lower slot is at the top too |
| Scheduler.NeverPicked | proc.c:361-371 | with two runnable processes at the top no pass picks the one at the higher slot |
| Scheduler.Starves | proc.c:361-371 | for every n, a run from boot with n turns in which the second process is runnable at the top all along and no pass can pick it |
| Pipe.Counters | pipe.c:85-106 | the full and empty tests on wrapped counters say how many bytes are in flight |
| Pipe.PutRep | pipe.c:93-93 | a stored byte joins the stream, also when the counter wraps |
| Pipe.NextRep | pipe.c:116-116 | the byte taken is the oldest not yet delivered |
| Pipe.FillRep | pipe.c:84-94 | a write stores as many bytes as there is room for, in order |
| Pipe.DrainRep | pipe.c:113-117 | a read takes as many bytes as there are, in order |
| Pipe.Buffer.constructor | pipe.c:31-37 | an empty pipe |
| Pipe.Buffer.WriteBytes | pipe.c:84-94 | the copying of `pipewrite` up to a full ring |
| Pipe.Buffer.ReadBytes | pipe.c:113-117 | the copying of `piperead` up to an empty ring |
| Pipe.StepKeepsInv | pipe.c:59-121 | every call, wakeup, kill and close keeps the invariant |
| Pipe.RunKeepsInv | pipe.c:59-121 | the invariant holds in every state of every run |
| Pipe.Stream | pipe.c:59-121 | what was delivered is a prefix of what was stored, at most 512 bytes are in flight, no reader and writer are both asleep, and whoever sleeps is not killed and has the other end open |
| Pipe.WriteReturns | pipe.c:80-99 | exactly when a write returns all its bytes, fails, or sleeps with the ring full |
| Pipe.ReadReturns | pipe.c:102-121 | exactly when a read fails or sleeps, else the next bytes, as many as there are up to the asked number |
| PipeCalls.StepKeepsCalls | pipe.c:59-121 | every step keeps the account of calls and bytes |
| PipeCalls.EveryByteCounts | pipe.c:59-121 | in every state of every run: each call of the events is in progress or has returned once; each byte of the stream is from one write; the bytes from a write are its buffer up to where it is, all of it after success; what the reads returned is what was delivered |
| PipeCalls.FlagsAre | pipe.c:59-76 | a process is killed and an end closed exactly if an event did that |
| Pipe.ReaderLeftAsleep | pipe.c:84-98 | a write leaves a sleeping reader asleep if and only if it does not fit and its caller is killed or the read end is closed |
| Pipe.Stranded | pipe.c:86-89 | such a run |
| Pipe.ReadersServed | pipe.c:59-121 | readers sleep on an empty pipe only, in every state of a run, if and only if no write of the run ends that way |
| Grep.StartsStar | grep.c:98-106 | a starred character at the start of the text: nothing, or one character and the star again |
| Grep.ParseKeepsWords | grep.c:84-106 | taking a pattern apart from the left keeps its words, defined on the string: which * are operators, which $ is the anchor, and which part of the text each character takes |
| Grep.ParseKeepsEnd | grep.c:91-92 | a pattern is anchored at the end if and only if its last character is $ |
| Grep.MatchHere | grep.c:84-96 | 1 exactly when some prefix of the text, all of it under a trailing $, is a word of the rest of the pattern |
| Grep.MatchStar | grep.c:98-106 | the same for the pattern of a starred character and the rest |
| Grep.Match | grep.c:72-82 | 1 exactly when some part of the text is a word of the pattern, anchored as ^ and $ say |
| ShellRoundTrip.RoundTrip | sh.c:327-446 | the fully parenthesised text of any command tree parses to that tree; words are non-empty and free of symbols, white space and NUL, fewer than MAXARGS in a command |
| ShellRoundTrip.LineParses | sh.c:344-446 | so does it inside parentheses, up to where they close |
| ShellGrammar.LexIsUnique | sh.c:265-308 | there is exactly one way to read a line as tokens as large as can be with white space around them, and calls of `gettoken` find it |
| ShellParses.LineSound | sh.c:344-446 | what `parseline` returns is what some sentence means whose tokens stand there |
| ShellParses.LineComplete | sh.c:344-446 | every sentence, before the end of the line or a closing parenthesis, is parsed to its meaning: words and redirections in any order, the first redirection innermost; lists and pipelines group to the right, pipes bind before & and & before ; |
| ShellParses.ParsesExactly | sh.c:327-446 | for every string: `parsecmd` returns a command if and only if the string is a sentence that means it |
| ShellParses.MeansOne | sh.c:327-446 | so no line means two commands |
| ShellCode.Parser.NextToken | sh.c:265-308 | the scanning loops find the token of the grammar |
| ShellCode.Parser.PeekAt | sh.c:310-320 | whether the next token starts with one of the characters |
| ShellCode.Parser.Redirs | sh.c:374-397 | the loop parses the redirections of the grammar |
| ShellCode.Parser.Args | sh.c:429-445 | the loop parses the words of the grammar, fewer than MAXARGS |
| ShellCode.Parser.BlockCmd | sh.c:399-413 | a parenthesised line of the grammar |
| ShellCode.Parser.ExecCmd | sh.c:415-446 | a simple or parenthesised command of the grammar |
| ShellCode.Parser.PipeCmd | sh.c:361-372 | a pipeline of the grammar |
| ShellCode.Parser.LineCmd | sh.c:344-359 | a line of the grammar; the recursion ends on every input |
| ShellCode.Parser.Command | sh.c:327-342 | the command that the line means, or a syntax panic exactly when it means none |
| ShellWords.LineParseProper | sh.c:344-446 | every word of a parsed command is a maximal stretch of word characters |
| ShellWords.NulTerminate | sh.c:449-493 | exactly the ends of words are overwritten |
| ShellWords.WordsSurvive | sh.c:449-493 | no word of a parsed command is altered, and each ends in a NUL |

## Left out

- Memory ordering: spinlocks and single statements are sequentially consistent; `xchg`, `swtch`, `lcr3` and the interrupt flag are atomic primitives.
- The disk: a block write is atomic and synchronous, as `iderw` in `memide.c` is; the queue of `ide.c` and its interrupts are not part of this model.
- After a panic nothing is claimed, except that a panicked kernel in the log model can still be rebooted.
- LogCode.Log.BeginOp: one turn of the loop; the loop as a whole, with sleep and wakeup of any number of processes, is in `LogProtocol` and `LogSleep`.
- LogCode.Log.LogWrite: test and append without another process between them; `TestRoom` and `Append` are the two halves, and `LogProtocol` interleaves them.
- LogProtocol.StepKeepsInv: the sleep locks of buffers are not part of the log model, which only allows more interleavings; a clean buffer that nobody uses counts as free, whatever it caches. `log_write` is called between `begin_op` and `end_op` only; its panic otherwise is in `LogWrite`.
- LogPanics.PanicExact: the others' buffers are a number that is held at most; how many the file system itself holds at once is not derived from its code.
- CrashSafe.FilewriteSurvives: one process makes its transactions in turn; with other operations in the same transaction `TransactionsAreAtomic` holds, without naming the files.
- OpenFile.File.Read: a file over an inode; for a pipe `fileread` calls `piperead`, which `Pipe` models, and `File.Write` likewise.
- FileSystem.Readi: a device inode is handed to its driver, which is not part of this model; the same holds for `Writei`.
- The file system works on one disk as of the last write: the buffer cache and the log are proved separately to show exactly that, and memory is a value that the methods take and return instead of objects with aliases.
- `ialloc`, `iget`, `iput`, `ilock`, directories, paths and link counts: mostly bookkeeping around the operations modelled here.
- Format.Blank: the file system before `mkfs` adds the root directory and the files.
- BufferCache.Bcache.Bread: for a caller that finds the buffer's lock free; the steps `Get`, `Lock`, `Fill`, `Unlock` and `Drop` are proved for any interleaving of callers.
- Frames.Kfree: the range and alignment tests that panic are replaced by the demand that the frame is in use; the free list is a sequence, not pointers inside the frames.
- Frames.PutPage: stands for a user store and for the kernel writing through its own map; the translation buffer is not part of this model.
- PageTables.MapPages: a user mapping is of one page whose frame the kernel holds, as in `inituvm`, `allocuvm`, `copyuvm` and the fault handler, its only callers for user pages.
- KernelMap.SetupKvm: the kernel's ranges are a parameter, in the kernel's half and disjoint; the test of PHYSTOP is a constant of the build.
- `exec`, `loaduvm` and `clearpteu`: results would rest mostly on assumptions about the guess of `allocuvm` at the initial stack.
- AddressSpaces.GrowProc: memory is released in a shrink of exactly the size although the call fails; the contract says so rather than the more usual "failure changes nothing".
- Machines.Perform: the frame that `fork` takes for the kernel stack (proc.c:103) is not among the frames counted; it belongs to no address space.
- Umalloc.Malloc: `sbrk` is a parameter that grants the asked units above all earlier ones or refuses; for requests above 0x7FFFFFF0 the C code asks it for too little or for a negative amount, which is not modelled, and `Alloc` excludes them.
- Processes.StepKeepsInv: `nextpid` and wait counts are unbounded integers; the C `int` would wrap after 2^31 forks or passes.
- Scheduler.Starves: shows that no bound on waiting exists; it does not say how often starvation occurs.
- Pipe.StepKeepsInv: a call holds the pipe's lock until it returns or sleeps, so one step goes that far; `pipeclose` freeing the page when both ends are closed is not modelled.
- ShellCode.Parser.Command: a syntax panic is the result Fail; `>>` opens its file as `>` does, as in the code.
- The line loop of `grep`, running commands in the shell, system call dispatch, the console, traps other than page faults, boot code and user programs.
