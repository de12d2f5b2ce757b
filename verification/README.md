# Two teaching kernels, verified in Dafny

This project models the hard parts of the xv6 and JOS (`oslab6`) kernels and proves what
they are for: crash-safe logging, isolation of address spaces, exact reference counts,
allocators that lose nothing, and blocking that never loses a wakeup.  `dafny verify
dfyconfig.toml` checks everything.

Protocols are step systems over every interleaving: a run is any sequence of enabled
steps, and a main result speaks about every state of every run.  Code that works in place
is a class whose loops are proved against functions on plain values; the lemmas are about
those functions.

| file | what it models |
|---|---|
| `LogSpace.dfy`, `RedoLog.dfy`, `LogRun.dfy`, `LogSpill.dfy` | xv6 log: reservation, disk images during commit and recovery, log plus cache over whole runs with crashes, and which log sizes are safe |
| `BufCache.dfy` | the linked ring of the buffer cache and its replacement order |
| `SleepLock.dfy`, `ProcTable.dfy`, `Pipe.dfy` | sleep and wakeup, exit and wait, the pipe |
| `Inodes.dfy`, `Links.dfy` | xv6 block maps, file contents and truncation; directories and link counts |
| `Vm.dfy` | xv6 frames and page tables with rollback |
| `Umalloc.dfy`, `Grep.dfy` | the K&R allocator and the regular-expression matcher |
| `PhysPages.dfy`, `CowFork.dfy` | JOS pages and page tables; user-level copy-on-write fork |
| `JosFile.dfy`, `Sched.dfy` | JOS file blocks and truncation; round-robin scheduling |
| `Wrappers.dfy` | the option type |

Integers are unbounded except where width matters: the pipe counters, the sums in `malloc`,
`readi` and `writei`, the 16-bit `pp_ref` and JOS file sizes (signed 32-bit, with the addition
in the block count wrapping in two's complement) are written out.
Answers of code outside the model are parameters: whether `sbrk` finds frames, what `ialloc` returns, the
`killed` flag a pipe call sees, and which process or environment acts.

## Properties that turned out to need a condition

- The header fits the on-disk log exactly when `log.size > LOGSIZE` (or is 1), and mkfs gives
  it LOGSIZE blocks (`LogSpace.FitsIff`).  Crash safety needs less: it holds in every reachable
  state exactly when that is so or there are no more buffers than log blocks
  (`LogSpill.SafeIff`).  The shipped kernel has 30 of each and is safe: a commit that has
  outgrown the log stops at "no buffers", every buffer being pinned, before it can write
  behind the log.  With one buffer more it would not be (`LogSpill.Spilled`).
- A pipe writer that is killed while storing more than PIPESIZE bytes returns without waking
  a sleeping reader (`Pipe.StepWakeful`, `Pipe.StrandedReader`).
- Link counts and the directory tree are conserved exactly when entries are added only to
  directories that are still linked; a removed current directory accepts new entries, and a
  file made there has a wrong count (`Links.StepInv`, `Links.LostFile`).  For `mkdir` the counts
  alone survive in one more case (`Links.MadeDirOk`, `Links.RevivedDirectory`).
- `sys_env_set_status` and a second `sys_env_destroy` on an environment running on another CPU
  break the one-CPU rule, and nothing else does (`Sched.StepInv`, `Sched.RunTwice`).
- Truncating a JOS file whose indirect block holds a block beyond its size loses that block,
  and only then (`JosFile.Server.TruncateBlocks`).  With sizes of at least 0 no such file
  arises; a negative size, which the server accepts, makes one (`JosFile.BlockLost`).
- `page_insert` keeps the reference counts exact unless `pp_ref` is at 0xFFFF and the page is
  not what it replaces, which a run from boot can bring about (`PhysPages.CountWraps`), or perm
  has bits above the low twelve that are not in the frame numbers (`PhysPages.HighBits`).
- Round robin bounds the wait of a runnable environment by NENV dispatches of the CPU, and NENV
  more for each exit on it; with exits any number can pass (`Sched.WaitInRun`, `Sched.Starvation`).
- `malloc` allots too few units exactly when its 32-bit sum wraps (`Umalloc.UnitsSuffice`).  From
  0x7FFFFFF1 bytes up to there, `sbrk` is passed 0 or a negative count and may answer, giving no
  memory; new memory serves a request exactly below (`Umalloc.ServedIff`, `Umalloc.NoMemoryBehind`).
- fork hands over every user page of the parent, but duppage ignores the answer of
  `sys_page_map` for shared and read-only pages: a PTE_SHARE page held read-only is always
  refused, since write permission is asked for, and the child starts without it
  (`CowFork.ForkGives`).
- `page_free` detects a double free unless the page is the last one on the list
  (`PhysPages.FreeIff`, `PhysPages.FreedTwice`).
- A new process starts without the killed mark exactly when no `kill` has hit its slot since the
  last reap; `kill(0)` hits unused slots (`ProcTable.StartsUnmarked`, `ProcTable.BornKilled`).
- Truncation keeps to MAXOPBLOCKS log blocks on every disk with fewer bitmap blocks than that,
  and on no other (`Inodes.TruncFitsIff`).

## Model

| member | source | states |
|---|---|---|
| `LogSpace.ReservationHolds` | xv6/log.c:126-174 | In every interleaving of begin_op, log_write and end_op: logged block numbers are distinct, they plus the unused reservations of outstanding operations stay within LOGSIZE, and `committing` implies that no operation is outstanding |
| `LogSpace.StepKeepsInv` | xv6/log.c:126-174 | Each of begin_op, the size test, the append, end_op and the end of commit keeps the reservation invariant |
| `LogSpace.ChargedAppendHasRoom` | xv6/log.c:214-233 | An operation that has used less than MAXOPBLOCKS always finds room in the header array |
| `LogSpace.Overflow` | xv6/log.c:214-233 | For every on-disk log of 2 to LOGSIZE blocks, two operations that pass the size test before either appends make the header outgrow the log |
| `LogSpace.OneBlockLogStaysEmpty` | xv6/log.c:214-233 | With a log of one block no append ever passes the size test |
| `LogSpace.FitsIff` | xv6/log.c:214-233 | The logged blocks always fit the on-disk log if and only if log.size exceeds LOGSIZE or is 1; mkfs sets it to LOGSIZE |
| `RedoLog.Encode` | xv6/log.c:102-113 | The header block written by write_head decodes to the in-memory block list |
| `RedoLog.MeaningUnique` | xv6/log.c:70-122 | A disk image stands for at most one file-system state after recovery |
| `RedoLog.EmptyHeaderMeaning` | xv6/log.c:70-122 | With an empty header an image stands for exactly its home blocks |
| `RedoLog.SlotWriteIsSilent` | xv6/log.c:178-190 | Writing a log slot under an empty header does not change what recovery will produce |
| `RedoLog.SpillWrite` | xv6/log.c:178-190 | A write one slot past the log area changes what recovery will produce, unless it stores what was there |
| `RedoLog.HeadWriteCommits` | xv6/log.c:193-202 | The header write over filled slots switches the image from the old to the new contents in one block write |
| `RedoLog.HeadEraseIsSilent` | xv6/log.c:102-113 | Erasing the header after installation leaves the meaning of the image unchanged |
| `RedoLog.InstallKeepsMeaning` | xv6/log.c:70-82 | Installing any one slot, in any order and any number of times, keeps what the image stands for |
| `RedoLog.Log.LogWrite` | xv6/log.c:214-233 | Absorption: the block number is recorded once, the buffer is pinned, and readers see the new data |
| `RedoLog.Log.Bread` | xv6/bio.c:97-106 | Reads through the cache return the current view of the block, whatever was recycled |
| `RedoLog.Log.WriteLog` | xv6/log.c:178-190 | Every slot holds the cached contents of its block; every intermediate image still stands for the old contents |
| `RedoLog.Log.InstallTrans` | xv6/log.c:70-82 | All committed contents reach their home blocks; every intermediate image stands for the same contents |
| `RedoLog.Log.Commit` | xv6/log.c:193-202 | Crash atomicity of commit: each image up to the header write stands for exactly the old contents, each later one for exactly the new; at the end the new contents are home and the header is empty |
| `RedoLog.Log.RecoverFromLog` | xv6/log.c:116-122 | Recovery ends with the committed contents at home and an empty header; a crash at any of its writes leaves an image with the same meaning, so it may be restarted any number of times |
| `LogRun.StepInv` | xv6/log.c:70-233 | A step (an operation, buffer recycling, a disk write of a commit, a crash, recovery) keeps the invariant of log, cache and disk if and only if it does not write a log slot behind the log area, whatever its size |
| `LogRun.CrashSafety` | xv6/log.c:70-202 | After any run that stayed inside the log area, with any number of crashes, at every instant, the disk stands for exactly the contents at the last header write that committed, read off the run, and for nothing else |
| `LogRun.CommitsAreAtomic` | xv6/log.c:146-202 | In every run, also one that spills, a commit happens with no operation in progress and publishes for every block the last contents logged |
| `LogRun.ReadsSeeLastLogged` | xv6/bio.c:62-106 | In any run that stayed inside the log area, a process that holds a block's buffer sees the last contents logged for it, or its own unlogged change made inside an operation |
| `LogRun.OneBufferPerBlock` | xv6/bio.c:62-93 | In every state of every run, also one that spills, a block of the root device has at most one buffer |
| `LogRun.HomeUntouched` | xv6/bio.c:79-91 | In any run that stayed inside the log area, until install_trans the on-disk home copy of every block keeps its committed contents, because dirty buffers are never recycled |
| `LogRun.CommitRunsAlone` | xv6/log.c:146-174 | In every run, also one that spills, commit and recovery run with no operation outstanding; the "log.committing" panic is unreachable; the header stays within LOGSIZE distinct blocks |
| `LogRun.BeginsAgain` | xv6/log.c:126-174 | In every state of every run `committing` is set exactly while a commit or recovery is under way; when none is and no operation is outstanding, the log is empty and any process may begin |
| `LogRun.CommitGoesOn` | xv6/log.c:70-202 | A commit or recovery under way has a next step, once the buffers that step uses are its own |
| `LogRun.OneNearer` | xv6/log.c:70-202 | Each of its disk writes, reads and copies brings it exactly one step nearer its end, and no step of another process takes it further away |
| `LogRun.CommitEnds` | xv6/log.c:165-202 | Without a crash a commit or recovery is over exactly when it has made the steps counted at its start: 2n + 3 for a commit of n blocks (each to the log, the header, each home, the header again, the end), n + 2 for recovery |
| `LogRun.BreadMiss` | xv6/bio.c:79-106 | bread of an uncached block goes through with any unreferenced clean buffer and yields it locked with the disk's contents, changing nothing else |
| `LogRun.BreadHit` | xv6/bio.c:69-106 | bread of a cached block whose lock is free yields its buffer locked, with the cached contents or, if it was not valid, the disk's |
| `LogRun.WriteGoesThrough` | xv6/log.c:214-233 | A change inside an operation with room left passes the size test and is recorded, dirty, with the block in the header and nothing else changed |
| `LogRun.GivesUp` | xv6/bio.c:121-141 | A buffer with nothing unlogged in it can be unlocked and given back, and an operation with no such buffer left can end |
| `LogRun.SoundStep` | xv6/log.c:70-233 | Every step, also a write behind the log area, keeps the headers in memory and on disk lists of distinct file-system blocks, and every buffer of the header block equal to the disk |
| `LogRun.HistoryVariables` | xv6/log.c:193-233 | The state's current and committed contents equal the last logged and last committed contents computed from the run alone |
| `LogSpill.SpareBuffer` | xv6/bio.c:79-91 | While a commit holds a log block in a buffer there are more buffers than logged blocks, since those are all pinned |
| `LogSpill.SafeRun` | xv6/log.c:178-190 | With one log block, more than LOGSIZE, or no fewer than there are buffers, no run ever writes behind the log area |
| `LogSpill.SafeCrashes` | xv6/log.c:70-202 | Crash safety of every run for those configurations, with nothing asked of the run; the shipped one, 30 log blocks and 30 buffers, is among them |
| `LogSpill.SafeReads` | xv6/bio.c:62-106 | For those configurations, in every run, bread returns the last contents logged |
| `LogSpill.SafeHomes` | xv6/bio.c:79-91 | For those configurations, in every run, home copies keep their committed contents until install_trans |
| `LogSpill.Outgrown` | xv6/log.c:214-233 | From boot: with 2 to LOGSIZE log blocks and more buffers than that, a run fills the header with as many blocks as the area has |
| `LogSpill.Spilled` | xv6/log.c:178-190 | Its commit writes the block behind the log, and the disk no longer stands for the committed contents |
| `LogSpill.SafeIff` | xv6/log.c:70-233 | On a disk with room behind the log: every reachable state is crash-safe if and only if the log has one block, or more than LOGSIZE, or no fewer than there are buffers |
| `BufCache.Unlinked` | xv6/bio.c:130-138 | The two stores that take a node out leave a ring of the remaining nodes in the same order |
| `BufCache.Inserted` | xv6/bio.c:49-55 | The four stores that put a node behind the header leave a ring with that node first |
| `BufCache.Cache.constructor` | xv6/bio.c:39-56 | binit links all NBUF buffers into one ring, prev inverse to next |
| `BufCache.Cache.Brelse` | xv6/bio.c:121-141 | The ring is kept; the last release moves the buffer to the front, any other release leaves the order alone |
| `BufCache.Cache.Search` | xv6/bio.c:69-76 | The forward walk terminates and finds a buffer of the block if and only if there is one |
| `BufCache.Cache.Victim` | xv6/bio.c:81-91 | The backward walk picks, among unreferenced clean buffers, the one released longest ago, and fails only if there is none |
| `BufCache.Cache.Bget` | xv6/bio.c:62-93 | A cached block is never given a second buffer; a miss recycles the least recently released idle clean buffer; it fails exactly when neither exists |
| `SleepLock.StepInv` | xv6/sleeplock.c:23-42 | Every statement of acquiresleep, sleep, releasesleep and wakeup, by any process at any time, keeps the lock invariant |
| `SleepLock.NoLostWakeup` | xv6/sleeplock.c:23-42 | In every reachable state a process asleep on the lock implies that the lock is held by a process that has yet to release it, or that a releaser stands between clearing it and its wakeup |
| `SleepLock.MutualExclusion` | xv6/sleeplock.c:23-42 | At most one process is between acquiresleep and releasesleep, and lk->pid names it |
| `SleepLock.NeverStuck` | xv6/proc.c:489-545 | While any process is inside acquiresleep or releasesleep or holds the lock, some process can take a step: no deadlock over lk->lk and ptable.lock |
| `SleepLock.CallEnds` | xv6/sleeplock.c:23-42 | Undisturbed, acquiresleep on a free lock ends with the caller as its holder, and releasesleep with the lock free and every sleeper awake; both leave the spin locks free and the other processes where they were |
| `SleepLock.WholeCall` | xv6/sleeplock.c:23-42 | With both spin locks free, a caller of acquiresleep on a free lock holds it 3 statements later, and the holder that calls releasesleep is out 6 statements later with the lock free and no sleeper left |
| `SleepLock.NeverGivesUp` | xv6/sleeplock.c:23-33 | Over every run a process that entered acquiresleep is still in it, or has held the lock |
| `SleepLock.WaitsAsleep` | xv6/proc.c:489-523 | On a held lock the caller ends up asleep, off the CPU, with lk->lk and ptable.lock given back |
| `SleepLock.WokenBy` | xv6/proc.c:529-568 | A sleeper is woken by the releaser's wakeup, which wakes all, or by kill, which wakes one, and by no other step |
| `ProcTable.ExitInv` | xv6/proc.c:251-272 | exit keeps: no process asleep in wait has a zombie child, every parent is alive, pids are distinct |
| `ProcTable.StepInv` | xv6/proc.c:187-324 | Every critical section of ptable.lock, and fork's stores outside it, keeps the process-table invariant |
| `ProcTable.NoMissedZombie` | xv6/proc.c:280-324 | After any run, whenever ptable.lock is free, no process asleep in wait has a ZOMBIE child |
| `ProcTable.ParentAlive` | xv6/proc.c:235-275 | After any run every process past fork, except init, has a parent, and a parent is never UNUSED, EMBRYO or ZOMBIE |
| `ProcTable.ZombieReapable` | xv6/proc.c:280-314 | A zombie's parent is not asleep in wait, may reap it as soon as it runs, and a zombie has no children to orphan |
| `ProcTable.ForkMakes` | xv6/proc.c:187-229 | With a free slot, fork's steps all go through and end with a running child of the caller under a pid no other slot holds; no other slot changes |
| `ProcTable.ForkGivesUp` | xv6/proc.c:199-204 | A fork that fails after allocproc leaves the slot free and every other slot as it was |
| `ProcTable.ExitHandsOver` | xv6/proc.c:251-272 | exit leaves a zombie with its parent, gives each child to init, and makes runnable a parent asleep in wait, and init if a zombie was passed to it |
| `ProcTable.WaitReturns` | xv6/proc.c:280-324 | A parent asleep in wait is woken by a child's exit, can then run and reap that child, and the slot can be allocated again |
| `ProcTable.SleepsUntil` | xv6/proc.c:489-568 | A process that sleeps on a channel becomes runnable by a wakeup on that channel and by its own kill, and not by a wakeup on another or another's kill |
| `ProcTable.YieldReturns` | xv6/proc.c:457-463 | yield followed by a dispatch of the same process restores the table |
| `ProcTable.Table.Wakeup1` | xv6/proc.c:529-536 | Exactly the sleepers on the channel become runnable |
| `ProcTable.Table.AllocProc` | xv6/proc.c:74-96 | The first unused slot gets a pid that no slot holds; none is reported only if all are in use |
| `ProcTable.Table.Exit` | xv6/proc.c:251-272 | The nested loops compute the atomic exit step: parent woken, children given to init, init woken if one is a zombie |
| `ProcTable.Table.Wait` | xv6/proc.c:280-324 | It reaps a zombie child with its pid, fails only without children or when killed with no zombie child, and sleeps only when a child exists and none is a zombie |
| `ProcTable.Table.Kill` | xv6/proc.c:551-568 | A nonzero pid is held by at most one slot, and that slot is marked and made runnable if it slept, its pid kept; every slot of another pid is unchanged; pid 0 marks the first slot with pid 0; without a match nothing changes |
| `ProcTable.MarkHistory` | xv6/proc.c:551-567 | A slot is marked killed exactly when the last kill or reap of the slot in the run was a kill |
| `ProcTable.StartsUnmarked` | xv6/proc.c:74-96 | A new process starts unmarked if and only if no kill has hit its slot since it was last reaped |
| `ProcTable.BornKilled` | xv6/proc.c:551-567 | kill(0) after boot marks an unused slot, and the next process made there is born killed |
| `ProcTable.Table.Schedule` | xv6/proc.c:402-419 | The process chosen is runnable, none runnable is better by priority then creation time, and ties go to the lowest slot |
| `Pipe.PutQueue` | xv6/pipe.c:93 | Storing a byte appends it to the queue, also when the 32-bit write counter wraps |
| `Pipe.GetQueue` | xv6/pipe.c:116 | Fetching a byte removes the oldest, also when the 32-bit read counter wraps |
| `Pipe.Fifo` | xv6/pipe.c:79-121 | After any run of readers and writers the delivered bytes are a prefix of the stored bytes, and nwrite - nread modulo 2^32 is their difference, at most PIPESIZE |
| `Pipe.StepWakeful` | xv6/pipe.c:79-121 | A critical section leaves no process asleep on a condition that has come true, if and only if it is not a dying (or reader-less) writer of more than PIPESIZE bytes while a reader sleeps |
| `Pipe.NoLostWakeup` | xv6/pipe.c:79-121 | Over every run without such a write, sleeping readers imply an empty open pipe and sleeping writers a full one with a reader |
| `Pipe.StrandedReader` | xv6/pipe.c:85-91 | Such a write happens: a killed writer of 513 bytes fills the pipe, returns without a wakeup, and the reader stays asleep on 512 bytes |
| `Pipe.Buffer.WriteSection` | xv6/pipe.c:79-98 | The loop stores exactly what fits, in order; it returns n, returns -1, or sleeps with the rest exactly as the pipe's state and the killed flag decide |
| `Pipe.Buffer.ReadSection` | xv6/pipe.c:101-121 | It delivers the oldest min(n, available) bytes; 0 for n > 0 only at end of file; on an empty pipe with a writer, and only then, it sleeps, or returns -1 if killed |
| `Pipe.Buffer.Close` | xv6/pipe.c:60-75 | Closing an end wakes the other side, and the page is freed exactly when both ends are closed |
| `Pipe.WriteFills` | xv6/pipe.c:84-95 | A write stores exactly the bytes there is room for, and stops short only at a full buffer |
| `Pipe.Sleepers` | xv6/pipe.c:79-121 | A reader of an empty open pipe and a writer with more than fits and a reader there go to sleep; a dying reader changes nothing |
| `Pipe.CloseEnds` | xv6/pipe.c:60-75 | From the close of the write end on, over every run, no reader sleeps; from the close of the read end on, no writer does |
| `Pipe.KillWakes` | xv6/proc.c:551-568 | kill takes a sleeper off both channels and nobody else |
| `Umalloc.UnitsSuffice` | xv6/umalloc.c:69 | The units allotted hold the request if and only if the 32-bit sum does not wrap |
| `Umalloc.NoOverlap` | xv6/umalloc.c:24-90 | Distinct blocks of the obtained memory never overlap |
| `Umalloc.ReleaseOk` | xv6/umalloc.c:25-44 | Freeing keeps the tiling, leaves no two adjacent free blocks and loses no memory |
| `Umalloc.ReleaseBlocks` | xv6/umalloc.c:25-44 | Freeing gives up exactly the freed block; every other allocated block is untouched |
| `Umalloc.CarveOk` | xv6/umalloc.c:74-83 | Taking units from the tail of a free block keeps tiling and coalescing |
| `Umalloc.CarveBlocks` | xv6/umalloc.c:74-83 | Exactly one new allocated block appears, and it was no block before |
| `Umalloc.Between` | xv6/umalloc.c:31-33 | An allocated block has a unique place between two neighbours of the address-ordered list |
| `Umalloc.FindPredecessor` | xv6/umalloc.c:31-33 | free's walk terminates from any entry of the ring at the entry below the freed address |
| `Umalloc.OrderRelease` | xv6/umalloc.c:34-43 | The list after free: an absorbed upper neighbour leaves it, the block enters unless a lower neighbour absorbs it |
| `Umalloc.OrderCarve` | xv6/umalloc.c:74-83 | The list after malloc: an exact fit leaves it, a split keeps it |
| `Umalloc.JoinedRing` | xv6/umalloc.c:34-43 | The pointer stores of free leave one cycle in address order through base |
| `Umalloc.GrownHasRoom` | xv6/umalloc.c:47-61 | After morecore a free block large enough exists, merged or not |
| `Umalloc.GrownAhead` | xv6/umalloc.c:86-88 | After morecore the walk of malloc meets a large enough block wherever it resumes, so it terminates |
| `Umalloc.Allocator.Free` | xv6/umalloc.c:25-44 | From the in-memory headers: the list is again one cycle in address order, and exactly the given block is released |
| `Umalloc.SbrkIff` | xv6/umalloc.c:54 | When sbrk answers, the region has the units asked for if and only if they are fewer than 2^28; from there to 2^29 units no memory is added |
| `Umalloc.GrowProcIs` | xv6/proc.c:164-181 | growproc adds exactly n bytes or none; it takes off exactly n if that is less than the size, nothing if it is more, and fails with the memory gone if it is all of it |
| `Umalloc.ServedIff` | xv6/umalloc.c:52-69 | A request is served in full out of new memory if and only if it is at most 0x7FFFFFF0 bytes |
| `Umalloc.NoMemoryBehind` | xv6/umalloc.c:52-58 | A request of 0xFFFFFFF1 bytes asks sbrk for 0 bytes, gets an answer and no memory, and its header store goes past the end of memory |
| `Umalloc.Allocator.Morecore` | xv6/umalloc.c:47-61 | The region from sbrk joins the free list, merged with a neighbour it touches; failure changes nothing; the header store is past the end of memory exactly when sbrk answers a request of 2^28 units or more |
| `Umalloc.Allocator.Malloc` | xv6/umalloc.c:64-90 | The walk terminates; a new allocated block is returned, inside the memory the process has, that overlaps no other; memory is asked for only if every free block is too small; 0 is returned exactly when sbrk then fails, and a store goes past the end of memory exactly when it then answers a request of 2^28 units or more |
| `Umalloc.Allocator.Store` | xv6/umalloc.c:64-90 | A program that writes anything anywhere in its block past the header cannot damage the free list |
| `Grep.MatchHere` | xv6/grep.c:85-96 | It answers 1 exactly when some prefix of the text splits into one piece per pattern item, the whole text if the pattern ends in "$" |
| `Grep.MatchStar` | xv6/grep.c:99-106 | It answers 1 exactly when some run of the starred character leaves a place where the rest matches |
| `Grep.Match` | xv6/grep.c:73-82 | It answers 1 exactly when the declarative meaning of the pattern holds at some position, at the start if it begins with "^"; all recursion terminates |
| `Grep.HereItem` | xv6/grep.c:85-106 | The declarative meaning unfolds item by item, the fact behind the matcher's recursion |
| `Vm.RollsBack` | xv6/vm.c:118-136 | Work on behalf of a directory that holds nothing before and nothing after leaves the memory map and the set of free frames as they were |
| `Vm.Kernel.constructor` | xv6/kalloc.c:46-77 | Every frame of the range is on the free list exactly once |
| `Vm.Kernel.Kalloc` | xv6/kalloc.c:82-95 | The head of the list is taken; 0 exactly when the list is empty |
| `Vm.Kernel.Kfree` | xv6/kalloc.c:59-77 | A frame that nothing maps goes back on the list, which stays free of duplicates |
| `Vm.Kernel.Walk` | xv6/vm.c:35-55 | No mapping changes; a table is made only if asked for and only a missing frame makes it fail |
| `Vm.Kernel.MapPages` | xv6/vm.c:60-80 | Exactly the pages of the range become mapped to consecutive frames, or a prefix of them on failure; no page is mapped twice; it succeeds exactly when there are as many free frames as page tables missing in the range |
| `Vm.Kernel.MapUserPage` | xv6/vm.c:60-80 | For a user page: exactly that page becomes mapped to the frame held for it; it fails, mapping nothing, exactly when its table is missing and no frame is free |
| `Vm.Kernel.SetupKvm` | xv6/vm.c:118-136 | A new directory whose kernel part is exactly kmap and whose user part is empty, exactly when there are free frames for it and the tables of kmap; otherwise the memory map and free set unchanged |
| `Vm.XvLayout` | xv6/vm.c:105-115 | The rows of kmap lie in the kernel half and do not overlap, so the "remap" panic is unreachable |
| `Vm.KernelTables` | xv6/vm.c:105-115 | The four rows of kmap need 64 page tables, wherever the kernel's data begins |
| `Vm.UserTables` | xv6/vm.c:35-55 | The first n user pages need ceil(n / 1024) page tables |
| `Vm.TooFew` | xv6/vm.c:60-80 | When a page on the way cannot be paid for, there were too few free frames for all of them from the start, whatever tables were there |
| `Vm.Kernel.DeallocUvm` | xv6/vm.c:255-279 | Exactly the user pages from PGROUNDUP(newsz) below oldsz are unmapped and freed; every other page keeps mapping and contents |
| `Vm.SkipTable` | xv6/vm.c:266-268 | Skipping 4 MB at a missing table misses no mapped page |
| `Vm.Kernel.AllocUvm` | xv6/vm.c:221-249 | Success maps exactly the new pages, zeroed and writable; failure restores every mapping; it succeeds exactly when there are free frames for the new pages and the tables missing for them; existing pages keep their contents; other directories are untouched |
| `Vm.Kernel.FreeVm` | xv6/vm.c:283-298 | The directory and everything held for it is given back, and nothing else changes |
| `Vm.FreedExactly` | xv6/vm.c:283-298 | After freevm the free list gained exactly the frames that belonged to the directory |
| `Vm.Kernel.CopyUvm` | xv6/vm.c:315-345 | Success, exactly when there are free frames for the directory, its kernel tables, the pages and their tables: each page below sz has a private frame with the parent's contents and flags, nothing above, the kernel part is kmap, and the parent is unchanged; failure: memory map and free set unchanged |
| `Vm.ForeignLookup` | xv6/vm.c:315-345 | Work on one directory leaves every other directory's mappings and page contents alone |
| `PhysPages.PageInit` | oslab6/kern/pmap.c:297-344 | Exactly the non-reserved pages are on the free list, uncounted, each once |
| `PhysPages.AddPteOk` | oslab6/kern/pmap.c:501-517 | Writing an entry for a page already counted keeps pp_ref equal to the number of holders |
| `PhysPages.AddTableOk` | oslab6/kern/pmap.c:424-443 | Hanging a cleared page table into a directory keeps every count |
| `PhysPages.TranslateFrame` | oslab6/kern/pmap.c:424-443 | Changing one entry is seen at one page of one environment |
| `PhysPages.Machine.PageAlloc` | oslab6/kern/pmap.c:359-371 | The first free page is taken; failure exactly on an empty list |
| `PhysPages.Machine.PageFree` | oslab6/kern/pmap.c:378-388 | The panic is taken, with nothing changed, exactly for a counted page or one with a link; otherwise the page is the head of the list, which stays acyclic if the page was not on it |
| `PhysPages.FreeIff` | oslab6/kern/pmap.c:383-387 | A page without a link leaves a list exactly if it was not on it: freeing the last page of the list again passes the test and makes a cycle |
| `PhysPages.Machine.PageDecref` | oslab6/kern/pmap.c:395-399 | The count falls by one and the page is listed exactly when it reaches zero, also just after the 16-bit count has wrapped |
| `PhysPages.Machine.PgdirWalk` | oslab6/kern/pmap.c:424-443 | No translation of any environment changes; a table is added only when missing, wanted and affordable |
| `PhysPages.Machine.PageLookup` | oslab6/kern/pmap.c:531-548 | A page is found exactly when the address translates: a nonzero entry is a present one |
| `PhysPages.Machine.PageInsert` | oslab6/kern/pmap.c:501-517 | The page is mapped there in place of whatever was, even itself, and no other mapping changes; failure, only for want of a table page, changes nothing; the counts are the numbers of holders afterwards if and only if the bits of perm above the low twelve are in the frame numbers of page and table already; and pp_ref, 16 bits, equals them if and only if it was below 0xFFFF or the page was mapped there already |
| `PhysPages.Machine.PageRemove` | oslab6/kern/pmap.c:566-577 | That mapping alone goes, its page loses one count and is freed exactly at zero |
| `PhysPages.Machine.EnvSetupVm` | oslab6/kern/env.c:165-200 | A new environment maps nothing below UTOP; others are unchanged; failure changes nothing |
| `PhysPages.Machine.EnvFree` | oslab6/kern/env.c:415-462 | The environment is gone, others translate as before, and each page is counted less by exactly what it held |
| `PhysPages.GivenBack` | oslab6/kern/env.c:415-462 | Conservation: old count is new count plus the entries, tables and directory the environment held |
| `PhysPages.Machine.SysPageAlloc` | oslab6/kern/syscall.c:181-208 | For every perm: the error codes hold exactly in their cases, each leaving the state unchanged; success maps a page nobody held, with exact counts if and only if the high bits of perm are in the frame numbers |
| `PhysPages.Machine.SysPageMap` | oslab6/kern/syscall.c:227-267 | For every perm: -E_INVAL exactly for bad addresses, a missing source, bad permissions or write access to a read-only page; success shares that one page at that one address; counts stay exact unless that page had 0xFFFF of them and gained one, or perm has high bits the frame numbers have not |
| `PhysPages.CountWraps` | oslab6/kern/pmap.c:508 | From boot, one environment maps one page 65536 times: pp_ref reads 0 with all mappings in place |
| `PhysPages.HighBits` | oslab6/kern/pmap.c:512-514 | With permission bits above the low twelve, the counts survive the two stores if and only if those bits are already in the frame numbers of the page and of its table |
| `PhysPages.FreedTwice` | oslab6/kern/pmap.c:383-387 | The only free page, freed again, is not detected, and no list remains |
| `PhysPages.FrameBits` | oslab6/kern/pmap.c:512-514 | Each bit of the stored frame number is the or of that bit of the page's number and of perm |
| `CowFork.StepInv` | oslab6/lib/fork.c:15-127 | Every system call of pgfault, duppage and fork, and every write, of every environment keeps the mapping invariant |
| `CowFork.WritableIsPrivate` | oslab6/lib/fork.c:62-79 | In every reachable state a frame writable through an unshared mapping is mapped by no other page of a started environment |
| `CowFork.OthersStep` | oslab6/lib/fork.c:15-127 | A step of another environment changes neither the mapping nor the contents of a page one owns |
| `CowFork.PrivateMemory` | oslab6/lib/fork.c:15-127 | Through every later run of writes, faults and forks by anyone, an unshared page reads as the last contents its own environment wrote |
| `CowFork.ChildSnapshot` | oslab6/lib/fork.c:62-79 | When duppage returns the child sees contents the parent saw at the first or the second of its two system calls |
| `CowFork.ChildPageKept` | oslab6/lib/fork.c:98-127 | From then on only the child changes that page |
| `CowFork.OneTurn` | oslab6/lib/fork.c:62-79 | When duppage has dealt with a page the child has it exactly if its call was made and succeeded; then with the parent's frame and contents, writable exactly if shared, copy-on-write exactly if the parent's was that or writable |
| `CowFork.ForkGives` | oslab6/lib/fork.c:97-127 | When fork makes the child runnable every page below the user stack top has had its turn: the child has it exactly if the parent had it for user access then and the system call allowed it, with the parent's contents at one of the two calls for an unshared page |
| `CowFork.StackGiven` | oslab6/lib/fork.c:117-123 | Above, the child has its own zeroed writable exception stack and nothing else |
| `CowFork.FaultResolves` | oslab6/lib/fork.c:15-48 | With a free frame, the calls of pgfault all succeed, and the page is writable with the contents it had |
| `CowFork.ForkGoesOn` | oslab6/lib/fork.c:97-127 | With a free frame, an environment outside its handler can begin a fork, and one under way always has a next step |
| `CowFork.ForkNearer` | oslab6/lib/fork.c:97-127 | Every step of a fork brings it nearer its end, and no other environment moves it |
| `Inodes.AttachOk` | xv6/fs.c:374-401 | Giving a free block to an empty slot keeps one owner per block |
| `Inodes.DetachOk` | xv6/fs.c:409-436 | Freeing a slot's block keeps ownership and touches no other slot |
| `Inodes.Fs.Balloc` | xv6/fs.c:57-78 | The lowest free block is marked, cleared and logged; 0 exactly when none is free |
| `Inodes.Fs.Bmap` | xv6/fs.c:374-401 | The block of the file at that index, allocated and zeroed if missing; everything stored reads as before; everything changed on disk is logged, and at most the needed bitmap, indirect and data blocks are; it panics exactly past the largest file or with fewer free blocks than it needs |
| `Inodes.Fs.Readi` | xv6/fs.c:454-477 | It returns exactly the clipped slice of the flat contents, changing nothing; -1 exactly for an offset past the end or a 32-bit wrap |
| `Inodes.Fs.Writei` | xv6/fs.c:483-512 | Bytes off.. of the flat contents become src, extending if needed; every other file is unchanged; the error cases are exact; it panics exactly when the free blocks are fewer than the data and indirect blocks missing in the range; every block, bitmap bit and inode it changes is logged, and a chunk logs at most MAXOPBLOCKS blocks |
| `Inodes.WroteContents` | xv6/fs.c:483-512 | The block-level stores mean a splice of the flat byte sequence and nothing for other files |
| `Inodes.ChunkBound` | xv6/file.c:127-152 | A chunk of filewrite logs at most MAXOPBLOCKS distinct blocks for any alignment and any bitmap size |
| `Inodes.Fs.Bfree` | xv6/fs.c:82-96 | The panic is taken exactly on a free block; otherwise that one bit clears |
| `Inodes.Fs.Drop` | xv6/fs.c:409-436 | Freeing one direct block, or the emptied indirect block, clears that pointer alone and does not reach the "freeing free block" panic |
| `Inodes.Fs.Itrunc` | xv6/fs.c:409-436 | Exactly the blocks owned by the inode become free; other files keep their contents; the "freeing free block" panic is never reached; everything changed is logged, and the blocks logged are exactly the bitmap blocks of those blocks and the inode's |
| `Inodes.TruncBound` | xv6/fs.c:409-436 | Truncation alone logs at most MAXOPBLOCKS blocks if and only if the file's bits are in fewer bitmap blocks than that |
| `Inodes.TruncFitsIff` | xv6/fs.c:409-436 | On disks of a given size every truncation does so if and only if fewer than MAXOPBLOCKS bitmap blocks serve data blocks; the disk mkfs makes has one |
| `Inodes.FreedExactly` | xv6/fs.c:409-436 | When an inode's slots are emptied and the others kept, exactly its blocks are free |
| `Inodes.Fs.FileWrite` | xv6/file.c:118-156 | The chunks add up to one splice at the offset; the bytes written are exactly those of the chunks that fit a file, n is returned exactly when all do, and it panics exactly when the free blocks are too few for them; each transaction logs everything that changed since the one before, in at most MAXOPBLOCKS blocks |
| `Inodes.SlackStep` | xv6/fs.c:499-505 | Storing one piece leaves the room that the rest of any longer write finds unchanged: what was missing is what was provided and what is missing still |
| `Inodes.ShortHere` | xv6/fs.c:57-78 | When bmap finds no block, the whole rest of the write needs more blocks than are free |
| `Links.StepInv` | xv6/sysfile.c:119-284 | create, both halves of sys_link, its undo, sys_unlink and the final iput conserve link counts together with the shape of the directory tree if and only if they add no entry to a removed directory |
| `Links.StepCounts` | xv6/sysfile.c:119-284 | The counts alone survive a step if and only if it adds no entry to a removed directory, or makes a directory in one whose own parent is freed, under another number |
| `Links.LostFile` | xv6/sysfile.c:242-284 | From mkfs: mkdir a, mkdir a/b, rmdir a/b, then a file made in the removed directory, has nlink 1 and no entry that counts |
| `Links.RevivedDirectory` | xv6/sysfile.c:270-279 | A directory made in a removed directory whose parent is freed keeps every count |
| `Links.ReusedNumber` | xv6/sysfile.c:270-279 | Unless it is given the inode number of that parent |
| `Links.LinkCounts` | xv6/sysfile.c:119-284 | From mkfs on, over every run that adds entries to linked directories only: nlink is the number of entries other than "." in directories with nlink > 0, plus the link calls in progress |
| `Links.NameAdded` | xv6/sysfile.c:119-284 | create and link make exactly the one name of the one directory lead to the inode; every other name of every directory leads where it did |
| `Links.DotsMade` | xv6/sysfile.c:270-279 | A directory made has "." and "..", leading to itself and its parent, and no other name |
| `Links.NameCut` | xv6/sysfile.c:185-239 | unlink takes away exactly the one name and lowers the count of what it led to by one |
| `Links.LinkTakenBack` | xv6/sysfile.c:133-164 | sys_link raises the count and its undo restores the file system |
| `Links.MadeFileOk` | xv6/sysfile.c:242-284 | create of a file keeps the counts exactly when the parent is still linked |
| `Links.MadeDirOk` | xv6/sysfile.c:270-279 | create of a directory keeps counts and tree exactly when the parent is still linked, and the counts alone exactly when it is, or its own parent is freed and its number not reused |
| `Links.LinkDoneOk` | xv6/sysfile.c:144-156 | The last step of sys_link keeps the new name's count exactly when the parent is still linked |
| `Links.UnlinkedDirOk` | xv6/sysfile.c:211-229 | Removing an empty directory: it had one link, its parent at least two, and the counts stay exact |
| `Links.FreedOk` | xv6/fs.c:333-353 | Freeing an inode without links breaks no count and leaves no dangling entry |
| `Links.Cuttable` | xv6/sysfile.c:211-212 | The "nlink < 1" panic is unreachable |
| `Links.Fs.DirLookup` | xv6/fs.c:526-549 | An entry is found if and only if the name is in use |
| `Links.Fs.DirLink` | xv6/fs.c:553-579 | The entry goes to the first free slot or the end; refused exactly when the name is taken |
| `Links.Fs.IsDirEmpty` | xv6/sysfile.c:169-181 | It answers yes exactly when no slot past the dots is in use |
| `Links.Fs.Create` | xv6/sysfile.c:242-284 | It makes the entry exactly when the name is free; when it is taken it answers the file of that name if a file was wanted, else nothing; the dots of a new directory always succeed; counts stay exact in a linked parent |
| `Links.Fs.LinkStart` | xv6/sysfile.c:133-142 | Directories are refused; otherwise nlink is raised with the link pending |
| `Links.Fs.LinkEnd` | xv6/sysfile.c:144-164 | The entry is made exactly when the parent exists and the name is free; otherwise the undo restores the count |
| `Links.Fs.Unlink` | xv6/sysfile.c:185-239 | It removes the entry exactly when the name is a proper entry and not a non-empty directory; counts stay exact |
| `JosFile.Server.AllocBlock` | oslab6/fs/fs.c:58-76 | The first free block past the bitmap is taken; none exactly when all are in use |
| `JosFile.AttachOk` | oslab6/fs/fs.c:175-192 | No block is both free and owned, none is owned twice, after a block is added |
| `JosFile.Server.BlockWalk` | oslab6/fs/fs.c:144-164 | The error codes hold exactly in their cases; only the indirect slot can change |
| `JosFile.Server.GetBlock` | oslab6/fs/fs.c:175-192 | -E_INVAL exactly past the largest file, -E_NO_DISK only with no block free; else the block of that index, free before and cleared if new; nothing but it and the indirect block is taken; a file written below its size owns nothing beyond it |
| `JosFile.IndirectFreed` | oslab6/fs/fs.c:447-450 | Freeing the indirect block keeps ownership exactly when it holds no block beyond the file's size |
| `JosFile.Server.TruncateBlocks` | oslab6/fs/fs.c:436-451 | For every signed 32-bit size, the block counts taken as unsigned: ownership is kept if and only if no block beyond the old size sits in a freed indirect block; then exactly the slots from the new to the old size are emptied, and otherwise a block is in use and in no slot |
| `JosFile.BlocksOk` | oslab6/fs/fs.c:441-442 | For sizes of at least 0 the computed block count is ceil(n/BLKSIZE) if and only if the 32-bit addition does not wrap |
| `JosFile.BlocksOfNegative` | oslab6/fs/fs.c:441-442 | A negative size has no blocks down to -8190, since C divides toward zero, and below that 2^32 less the quotient |
| `JosFile.FreedExactly` | oslab6/fs/fs.c:436-451 | For a file owning nothing past the old block count: exactly its blocks at the new block count and up become free, and the indirect block when at most NDIRECT remain |
| `JosFile.Server.SetSize` | oslab6/fs/fs.c:455-462 | The same for file_set_size and every signed 32-bit size; growing frees nothing; other files keep their size and blocks; with sizes of at least 0, files that own nothing beyond their size stay so, nothing is lost, and shrinking frees exactly the blocks at index ceil(n/BLKSIZE) and up |
| `JosFile.BlocksMonotone` | oslab6/fs/fs.c:441-442 | For sizes of at least 0 the computed block count grows with the size, over the wrap of the addition too |
| `JosFile.NegativeSize` | oslab6/fs/serv.c:200 | A file with a block in its indirect block, set to size -10000, then 4096, then 0, loses one: in use and in no slot |
| `JosFile.BlockLost` | oslab6/fs/serv.c:200 | From a formatted disk such a file arises |
| `Sched.Scan` | oslab6/kern/sched.c:33-43 | The circular scan finds the runnable environment nearest after the current one, or shows there is none |
| `Sched.FirstUnique` | oslab6/kern/sched.c:33-43 | The nearest runnable environment is unique, so the dispatch order is determined by the table |
| `Sched.DistanceFalls` | oslab6/kern/sched.c:33-43 | Dispatching another environment brings a waiting runnable one strictly nearer |
| `Sched.BoundedWait` | oslab6/kern/sched.c:12-49 | An environment that is runnable until it is dispatched is dispatched within NENV calls, whatever else happens to the table |
| `Sched.WaitInRun` | oslab6/kern/sched.c:12-49 | In every run, fewer than NENV dispatches of a CPU, and NENV more for each exit on it, pass over a runnable environment |
| `Sched.Starvation` | oslab6/kern/env.c:470-486 | Where they exit, the scan restarts at 0: two environments that create each other in turn and exit are dispatched any number of times over one that stays runnable |
| `Sched.StepInv` | oslab6/kern/env.c:470-548 | Environments marked running or dying are exactly those on a CPU, each on one, after a step if and only if it did not set the status of, or destroy again, one that another CPU is executing |
| `Sched.NeverRunningElsewhere` | oslab6/kern/sched.c:12-49 | After every run of such steps, sched_yield never chooses an environment another CPU is running |
| `Sched.RunTwice` | oslab6/kern/syscall.c:109-125 | sys_env_set_status on an environment running elsewhere lets two CPUs run it |
| `Sched.YieldTable` | oslab6/kern/sched.c:12-49 | After sched_yield the chosen environment runs, the one that was running is runnable unless chosen, every other status is as it was, and the CPU halts exactly when nothing is runnable and it was running nothing |
| `Sched.YieldKeepsReady` | oslab6/kern/env.c:521-548 | sched_yield makes no environment ready or unready and does not touch what the other CPUs run |
| `Sched.ServedInTurn` | oslab6/kern/sched.c:12-49 | In every run, a runnable environment that nobody else destroys or blocks stays runnable until it is dispatched, and before that fewer than NENV dispatches of a CPU pass, and NENV more for each exit on it |
| `Sched.CpuGoesOn` | oslab6/kern/sched.c:12-49 | In every state a CPU that runs an environment or none can yield, one that runs an environment can block it, and one that runs a live or dying environment can exit it |
| `Sched.DestroyFrees` | oslab6/kern/env.c:470-486 | env_destroy frees an environment at once, or, if another CPU runs it, marks it, and that CPU frees it at its next exit; no other status changes |
| `Sched.Kernel.SchedYield` | oslab6/kern/sched.c:12-49 | The scan, then env_run or halt: the status of every environment and the current one of every CPU afterwards, exactly; it keeps the invariant and takes no environment from another CPU |

## Left out

- Device and boot code, inline assembly, context switching, TLB flushes and trap frames: a disk block write, a context switch and an atomic exchange are single steps with sequential consistency.
- `lab1`, `lab5`: earlier stages of the same JOS code.
- Panics for lack of buffers or inodes: stops, not claimed unreachable; for lack of disk blocks the exact condition is stated.
- LogRun.ReadsSeeLastLogged: speaks of buffers of the root device; buffers of device 0, where all of them start, hold no block.
- ProcTable.StepInv: pids are unbounded; `waitsch` (which reports the caller's times), process memory, open files and the trap path are not modelled.
- ProcTable.Table.Schedule: the choice only; the switch to the process and `setpriority` are not modelled.
- Pipe.StepWakeful: sleep on `p->lock` is one step here; that it loses no wakeup between releasing the lock and sleeping is the subject of SleepLock.
- Umalloc.Allocator.Malloc: `sbrk` answers an address at or above the memory obtained so far, in whole header units; a call whose header store is past the end of memory is followed no further (the kernel kills the process, or the store lands in the rest of its last page).
- Vm.Kernel.FreeVm: the model clears a directory slot when its table is freed; the code leaves the slot, in a page that is about to be freed.
- Vm.Kernel.MapPages: the kernel ranges of setupkvm; user pages are mapped one at a time by MapUserPage.
- Vm.Kernel.DeallocUvm: addresses are counted in pages after rounding; sizes above KERNBASE, which no caller passes, are excluded.
- Vm.Kernel.AllocUvm: pages between the old and the new size are unmapped before the call, as the "remap" panic demands; a failed call may leave new empty page tables.
- `inituvm`, `loaduvm`, `clearpteu`, `copyout`, `switchuvm`: copying into pages that are already mapped.
- PhysPages.Machine.PageInsert: what the hardware makes of low bits outside PTE_SYSCALL, and the accessed and dirty bits it sets, are not modelled.
- RedoLog.Log.WriteLog: the list fits the log area; a list that has outgrown it is the subject of LogSpill, over the steps of LogRun.
- RedoLog.Log.Commit: the same.
- LogSpill.SafeIff: the direction that spills asks for as many blocks behind the log area as it has.
- `envid2env`, `env_alloc` identifiers, `load_icode`, `user_mem_check`: no mapping changes.
- CowFork.PrivateMemory: covers environments whose mappings change only by fork and page faults; PTE_SHARE pages are shared on purpose.
- JOS IPC and the JOS pipe: permission of a page not sent and end of file by reference counts depend on interleavings that break the simple statements.
- Inodes.Fs.Readi: device inodes go to a driver and are not modelled; the same holds for Writei and FileWrite.
- Inode cache reference counts (`iget`, `idup`, the count in `iput`), `namex` path walking, the open-file table: counters and lookups beside the modelled state.
- Links.LinkCounts: `nlink` is unbounded here, a short in the code; one device; a whole sys_unlink is one step, since it holds the locks of both inodes.
- JosFile.Server.SetSize: flushing, file names, `file_read` and `file_write` are not modelled.
- Sched.Kernel.SchedYield: `env_runs`, the address-space switch and the monitor loop of an idle system are not modelled.
- Reading lines in `grep`, the shell and the user utilities.
