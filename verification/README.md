# Nachos 3.4 in Dafny

A model of the Nachos teaching operating system and of the machine it simulates, with proofs
about its file system, its kernel, the protocols that run on the kernel, and its arithmetic and
memory. Paths below are relative to the directory that holds `nachos-3.4`.

## What is modelled

**The file system** (`Common`, `Bits`, `Encoding`, `BitMap`, `FileHeader`, `OpenFile`, `Directory`, `Volume`,
`VolumeSteps`, `FileSystem`, `FreeSpace`, `FileSystemRuns`). The disk is a sequence of 1024 sectors of 128
bytes. `BitMap`, `FileHeader`, `OpenFile`, `Directory` and `FileSystem` are classes with the fields, loops
and error returns of the original; file headers, directory entries and bitmap words are stored as the
bytes the original stores. `FsOk` is what every operation keeps. The main result is
`FileSystemRuns.Run`: any sequence of Create, Open, ReadAt, WriteAt and Remove behaves as on a map from
names, cut to nine characters, to byte strings of fixed length, with a count of free sectors. Two names are
of one file exactly if their first nine characters agree (`Encoding.SameKeyIff`).
`Volumes.ExactlyOwned` says that in every such state the marked sectors are exactly those in use, each
used once.

**The kernel** (`Kernel`, `KernelPlaces`, `KernelInvariant`, `KernelSteps`, `KernelOrder`, `KernelRuns`,
`KernelEnds`, `KernelTheorems`, `KernelCalls`). Threads, the ready list, interrupt levels, semaphores, locks and condition
variables as one step system: each thread has a position in the kernel's code and the interrupt level it
will restore, and a step is a call, the next piece of code of the running thread, or an interrupt handler.
Any number of threads, semaphores, locks and conditions may exist. `KernelRuns.RunInv` proves one
invariant for every state of every run. `KernelTheorems` draws from it mutual exclusion, conservation of
semaphore units, no lost wakeups, one place per thread, first come first served, and when Wait is atomic;
`KernelEnds` says which finished threads are destroyed and which never are; `KernelCalls` what a call has
done when it returns, whatever runs meanwhile: who gets the processor, who is woken, in what order, who owns
the lock, and that the interrupt level is as it was.

**Code on that kernel** (`KernelUses`, `KernelClients`, `KernelCounter`, `KernelDisk`, `KernelElevator`,
`KernelPost`). The code of the clients and the kernel's are one step system, so every interleaving the
kernel can produce is covered, preemption inside P, V, Acquire and Release included, and other threads do
what they like. `KernelClients.RunFollows` holds for any client code: each call takes effect at one moment
between its call and its return, so what a run on the kernel has come to, a run over atomic semaphores and
locks comes to. The shared counter, SynchDisk, the elevator, and the post offices of two machines with a
kernel each are such code, and refine the protocols below.

**Protocols over atomic semaphores** (`SharedCounter`, `SynchDisk`, `Elevator`, `ElevatorStop`,
`ElevatorRounds`, `ElevatorJourney`, `Post`). Step systems for any number of threads, in which P and Acquire are taken at the point where they take their
unit, and V and Release where they give it. The elevator's every update of a shared variable is a step of
its own. Any thread may run at any step, which is more than the kernel's ready list allows; that is right
for what holds in every run, and where a run is shown to exist, it is one that the original has.

**Interrupts** (`List`, `Interrupt`). The linked list and the interrupt hardware are classes. Handlers
are a parameter, any function that schedules into the future. The firing loops are proved to end, and all
that is ever scheduled is traced to a device or to a handler that fired.

**The machine** (`Mult`, `Memory`, `Instructions`, `InstructionMeaning`, `Mips`, `Disk`). The multiply loop,
address translation and memory access on hosts of either byte order, decoding and the switch over opcodes
with traps and delayed loads, and the timing of the disk. `InstructionMeaning` says what each operation does
without its expression: sums modulo the word, bits, orders, targets, and the codes of the R2000.

## Findings

- FileHeader::Allocate does not check the size against the header's table: it stores past the end of the
  table exactly when the size needs more than thirty sectors and the disk has that many clear
  (`FileHeaders.FileHeader.Allocate`). Create comes to that exactly when moreover the name is new and an
  entry is free (`FileSystems.FileSystem.Create`), on every consistent disk already with one byte above
  MaxFileSize (`FileSystems.SmallestOverrun`), so with 3841 bytes on a formatted disk
  (`FileSystems.OverrunOnBlank`).
- Apart from that, ten files of at most thirty sectors cannot fill the disk, so Create never fails for lack
  of room: it succeeds exactly when the name is new, fewer than ten files exist and the size fits a header
  (`FileSystems.FileSystem.Create`, `Volumes.PlentyOfRoom`). Create with a negative size makes an empty file.
- WriteAt writes whole sectors from a buffer whose bytes beyond the end of the file are not
  initialised, so those bytes of the last sector are unspecified; no file shows them.
- Condition::Wait never turns interrupts off, while Thread::Sleep asserts that they are. Called with them
  off, Wait is atomic as its header promises (`KernelTheorems.WaitIsAtomic`). A thread that has released
  the lock in Wait goes to sleep exactly if it called Wait with them off; otherwise the assertion fails and
  the machine has stopped (`KernelTheorems.WaitSleepsIffOff`), and that does come about
  (`KernelTheorems.WaitStops`).
- Switching to a new thread does not pass through the end of Scheduler::Run, so a finished thread waits
  for a later switch to be deleted. It stops waiting without being deleted exactly when another thread
  calls Finish (`KernelEnds.LosesIff`); then it is never deleted (`KernelEnds.NeverDestroyed`); and there is a
  run that loses one (`KernelEnds.ALostThread`).
- The elevator shuts down only when everybody has left or has not yet registered
  (`ElevatorProtocol.NobodyForgotten`, `ElevatorShutdown.EverybodyLeftIff`). Its callers can see to it that
  everybody has left: nobody may come once `E_spawnerActive` is false, and it may become false only when
  everybody who came has registered (`ElevatorShutdown.NobodyLeftBehind`). The yields of ElevatorTest are
  there to keep to that. Calling Elevator and ArrivingGoingFromTo directly, as main does, leaves the flag
  false throughout; a person who comes when the lift is past its last Yield of the round is left behind, in
  a building of any height (`ElevatorShutdown.SomebodyForgotten`), and never served
  (`ElevatorShutdown.LeftBehind`).
- Without the semaphore and without a timer, the shared counter ends at 5 for every number of workers:
  FIFO scheduling keeps them in step (`SharedCounter.LaunchUnsynchronised`).
- Network::Send asserts that `sendBusy` is false, but nothing sets it; what keeps packets apart is the
  lock and the semaphore of PostOffice::Send (`PostOffices.AssertionsHold`).
- In the simulator, OR takes rs twice: it is right exactly when rt has no bit of its own
  (`MipsInstructions.OrRightIff`, and `OrWrong` for 0 | 1). Because registers are unsigned and `tmp` is not,
  SRA shifts in zeros and SRL the sign: each is right exactly when the sign is clear or nothing is shifted
  (`SraRightIff`, `SrlRightIff`, `ShiftsWrong`). SLT and SLTI compare unsigned: they are right exactly when
  the signs agree (`SltRightIff`, `SltWrong`). So do BGTZ and BLEZ: they are right exactly when the sign is
  clear, or when branching leads to where not branching does (`BgtzRightIff`, `BlezRightIff`,
  `BranchesWrong`). DIV divides unsigned: it is right exactly when it divides by 0 or 1, or a number by
  itself, or one that is not negative by another such or by a negative one of larger magnitude
  (`DivRightIff`, and `DivWrong` for -4 / 2).

## Model

| member | source | states |
|---|---|---|
| `Bits.BitOfOr` | nachos-3.4/code/userprog/bitmap.cc:47-51 | or-ing words is or-ing their bits, so marking sets one bit and keeps the others |
| `Bits.AndPow2` | nachos-3.4/code/userprog/bitmap.cc:75-83 | masking with a power of two tests exactly that bit |
| `BitMaps.UpdateWord` | nachos-3.4/code/userprog/bitmap.cc:46-65 | changing one bit of one word changes the set of marked bits by just that bit |
| `BitMaps.BitMap.constructor` | nachos-3.4/code/userprog/bitmap.cc:20-28 | a new map has nothing marked |
| `BitMaps.BitMap.Mark` | nachos-3.4/code/userprog/bitmap.cc:46-51 | the bit joins the marked set, nothing else changes |
| `BitMaps.BitMap.Clear` | nachos-3.4/code/userprog/bitmap.cc:60-65 | the bit leaves the marked set, nothing else changes |
| `BitMaps.BitMap.Test` | nachos-3.4/code/userprog/bitmap.cc:74-83 | true exactly for marked bits |
| `BitMaps.BitMap.Find` | nachos-3.4/code/userprog/bitmap.cc:94-103 | marks and returns the lowest clear bit; -1, changing nothing, exactly when all are marked |
| `BitMaps.BitMap.NumClear` | nachos-3.4/code/userprog/bitmap.cc:111-119 | the number of clear bits |
| `Encoding.WordsRoundTrip` | nachos-3.4/code/userprog/bitmap.cc:148-166 | words written as bytes are read back |
| `Encoding.HeaderRoundTrip` | nachos-3.4/code/filesys/filehdr.cc:77-94 | a file header survives being written to a sector and fetched |
| `Encoding.TableRoundTrip` | nachos-3.4/code/filesys/directory.cc:63-80 | a directory table survives being written and fetched |
| `Encoding.SamePrefixIffSameKey` | nachos-3.4/code/filesys/directory.cc:90-98 | strncmp up to FileNameMaxLen says equal exactly when the nine-character keys are equal |
| `Encoding.SameKeyIff` | nachos-3.4/code/filesys/directory.cc:90-98 | for all C strings: two names have the same key, so are of the same file, exactly if their first nine characters, or all where there are fewer, are the same |
| `FileHeaders.SynchDisk.ReadSector` | nachos-3.4/code/filesys/synchdisk.cc:72-79 | the buffer gets the sector and the disk stays as it is |
| `FileHeaders.SynchDisk.WriteSector` | nachos-3.4/code/filesys/synchdisk.cc:90-97 | the sector gets the bytes of the buffer, no other sector changes |
| `FileHeaders.BlocksJustEnough` | nachos-3.4/code/filesys/filehdr.cc:44-45 | divRoundUp gives the least number of sectors that hold the file |
| `FileHeaders.FileHeader.Allocate` | nachos-3.4/code/filesys/filehdr.cc:41-53 | refused, marking nothing, exactly when too few sectors are clear; stores past the table exactly when there are enough and more than thirty are needed; otherwise takes that many distinct clear ones and marks just them |
| `FileHeaders.FileHeader.Deallocate` | nachos-3.4/code/filesys/filehdr.cc:61-68 | every sector of the file was marked and exactly those are cleared |
| `FileHeaders.FileHeader.FetchFrom` | nachos-3.4/code/filesys/filehdr.cc:77-81 | the header is the one encoded in the sector |
| `FileHeaders.FileHeader.WriteBack` | nachos-3.4/code/filesys/filehdr.cc:90-94 | the sector then encodes the header, no other sector changes |
| `FileHeaders.FileHeader.ByteToSector` | nachos-3.4/code/filesys/filehdr.cc:106-110 | the sector that holds the byte, for every byte of the file |
| `FileHeaders.FlatFrame` | nachos-3.4/code/filesys/filehdr.cc:21-33 | a file's bytes depend on its own sectors only |
| `OpenFiles.OpenFile.constructor` | nachos-3.4/code/filesys/openfile.cc:29-35 | the handle has the header on disk and stands at byte 0 |
| `OpenFiles.OpenFile.Seek` | nachos-3.4/code/filesys/openfile.cc:55-59 | only the position changes |
| `OpenFiles.OpenFile.Read` | nachos-3.4/code/filesys/openfile.cc:74-80 | ReadAt at the current position, which moves past what was read |
| `OpenFiles.OpenFile.Write` | nachos-3.4/code/filesys/openfile.cc:82-88 | WriteAt at the current position, which moves past what was written |
| `OpenFiles.OpenFile.ReadAt` | nachos-3.4/code/filesys/openfile.cc:116-144 | copies out min(n, length - position) bytes of the file, or none; the rest of the caller's buffer is unchanged |
| `OpenFiles.OpenFile.WriteAt` | nachos-3.4/code/filesys/openfile.cc:146-186 | splices that many bytes into the file's contents; bytes outside the range and sectors of other files are unchanged |
| `OpenFiles.OpenFile.ReadSectors` | nachos-3.4/code/filesys/openfile.cc:134-137 | the loop fills the buffer with the blocks asked for, all of them blocks of the file |
| `OpenFiles.OpenFile.LoadEdges` | nachos-3.4/code/filesys/openfile.cc:170-174 | what a partial first or last sector held is in the buffer before it is overlaid |
| `OpenFiles.OpenFile.WriteSectors` | nachos-3.4/code/filesys/openfile.cc:180-183 | the loop stores the buffer in the blocks asked for and touches no other sector |
| `OpenFiles.StoredContent` | nachos-3.4/code/filesys/openfile.cc:162-186 | storing whole blocks that agree with a byte string turns the file into that string |
| `Directories.Directory.FindIndex` | nachos-3.4/code/filesys/directory.cc:90-98 | the index of the entry with the name's key; -1 exactly when there is none |
| `Directories.Directory.Find` | nachos-3.4/code/filesys/directory.cc:108-116 | the sector of the entry with the name's key; -1 exactly when there is none |
| `Directories.Directory.Add` | nachos-3.4/code/filesys/directory.cc:129-144 | false, changing nothing, when the key is there or the table is full; otherwise one free entry takes name and sector |
| `Directories.Directory.Remove` | nachos-3.4/code/filesys/directory.cc:153-162 | false, changing nothing, when the key is not there; otherwise its entry is free and no other changes |
| `Directories.Directory.FetchFrom` | nachos-3.4/code/filesys/directory.cc:63-67 | the table is the one encoded in the file |
| `Directories.Directory.WriteBack` | nachos-3.4/code/filesys/directory.cc:76-80 | the file then encodes the table, and only that file changes |
| `Directories.FetchBitMap` | nachos-3.4/code/userprog/bitmap.cc:148-152 | the marked set is the one encoded in the file |
| `Directories.WriteBitMap` | nachos-3.4/code/userprog/bitmap.cc:161-165 | the file then encodes the marked set, and only that file changes |
| `Volumes.ExactlyOwned` | nachos-3.4/code/filesys/filehdr.cc:41-68 | the marked sectors are exactly the header and data sectors of the bitmap, the directory and the files, and no sector has two uses |
| `Volumes.PlentyOfRoom` | nachos-3.4/code/filesys/filesys.cc:188-190 | at most 372 sectors are ever in use, so the disk never runs out for a file that a header can describe |
| `Volumes.FullDirectory` | nachos-3.4/code/filesys/directory.cc:134-143 | a free entry exists exactly when fewer than ten files do |
| `VolumeSteps.FileAdded` | nachos-3.4/code/filesys/filesys.cc:190-206 | writing a new header, directory and bitmap adds one file and keeps every other file's bytes |
| `VolumeSteps.FileRemoved` | nachos-3.4/code/filesys/filesys.cc:271-281 | writing the shrunken directory and bitmap removes one file and keeps every other file's bytes |
| `VolumeSteps.FileWritten` | nachos-3.4/code/filesys/openfile.cc:180-183 | a write to one file's sectors changes that file only |
| `FileSystems.FileSystem.constructor` | nachos-3.4/code/filesys/filesys.cc:79-143 | formatting gives a consistent disk without files; otherwise the files on a consistent disk are kept |
| `FileSystems.FileSystem.Create` | nachos-3.4/code/filesys/filesys.cc:174-215 | succeeds exactly when the key is new, an entry is free and the size fits; then one file of that size is added; overruns the table exactly when the size does not fit but the disk has room; without success not one sector changes |
| `FileSystems.SmallestOverrun` | nachos-3.4/code/filesys/filehdr.cc:49-50 | on every consistent disk with a free entry, a new file of MaxFileSize + 1 bytes overruns the table and one of MaxFileSize does not |
| `FileSystems.OverrunOnBlank` | nachos-3.4/code/filesys/filesys.cc:200 | on a formatted disk, Create with 3841 bytes overruns the table |
| `FileSystems.FileSystem.Open` | nachos-3.4/code/filesys/filesys.cc:227-241 | a handle on the named file, exactly when there is one |
| `FileSystems.FileSystem.Remove` | nachos-3.4/code/filesys/filesys.cc:257-288 | the named file goes and its sectors are free, exactly when there is one; otherwise nothing changes |
| `FileSystems.CreateRemove` | nachos-3.4/code/filesys/filesys.cc:174-288 | Create then Remove restores the files and the bitmap exactly |
| `FileSystems.BlankIsOk` | nachos-3.4/code/filesys/filesys.cc:82-121 | the disk that formatting leaves is consistent and has no files |
| `FreeSpace.CreateTakes` | nachos-3.4/code/filesys/filehdr.cc:41-53 | a new file takes from the free sectors exactly one for its header and those its length needs |
| `FreeSpace.RemoveGives` | nachos-3.4/code/filesys/filesys.cc:271-281 | removing a file gives back exactly as many |
| `FreeSpace.FreeOnBlank` | nachos-3.4/code/filesys/filesys.cc:82-121 | formatting leaves all but five sectors free |
| `FileSystemRuns.Run` | nachos-3.4/code/filesys/filesys.cc:174-288 | every sequence of operations has the outcomes of a map from keys to byte strings of fixed length with a count of free sectors, and leaves that map and count on disk; a client must only avoid what the original leaves undefined, and the overrun exactly |
| `FileSystemRuns.NamesApart` | nachos-3.4/code/filesys/filesys.cc:175-238 | once a file has been created under a name, another name opens it exactly if the first nine characters agree, and else opens what it opened before |
| `FileSystemRuns.ReadBack` | nachos-3.4/code/filesys/openfile.cc:116-186 | a read gets as many bytes as asked for and there are, each as the write before left it: what was written there, or what was there |
| `KernelPlaces.StepPlaces` | nachos-3.4/code/threads/thread.cc:143-226 | every step keeps each thread in one place: lists hold exactly the threads whose status says so, once |
| `KernelSteps.StepShape` | nachos-3.4/code/threads/synch.cc:64-98 | every step keeps each thread at a position some call leads to |
| `KernelOrder.TakeWoken` | nachos-3.4/code/threads/synch.cc:69-75 | a P that takes a unit keeps the bound on units by threads on their way, whether or not it had slept |
| `KernelOrder.GiveWoken` | nachos-3.4/code/threads/synch.cc:93-96 | V adds one unit and puts one more thread on its way |
| `KernelOrder.TakeLocks` | nachos-3.4/code/threads/synch.cc:116-120 | a P inside Acquire makes its caller the only holder, before the owner is set |
| `KernelOrder.OwnLocks` | nachos-3.4/code/threads/synch.cc:119 | setting the owner changes no holder |
| `KernelOrder.DisownLocks` | nachos-3.4/code/threads/synch.cc:124 | clearing the owner changes no holder |
| `KernelOrder.GiveLocks` | nachos-3.4/code/threads/synch.cc:125 | the V inside Release leaves the lock without a holder |
| `KernelRuns.StepInv` | nachos-3.4/code/threads/synch.cc:64-172 | every call, every piece of kernel code and every handler keeps the whole invariant |
| `KernelRuns.InitialInv` | nachos-3.4/code/threads/synch.cc:36-44 | the invariant holds at the start, with every lock's semaphore at 1 |
| `KernelRuns.RunInv` | nachos-3.4/code/threads/scheduler.cc:53-133 | the invariant holds in every state of every run |
| `KernelTheorems.MutualExclusion` | nachos-3.4/code/threads/synch.cc:116-126 | at most one thread is between the decrement in Acquire and the increment in Release; an owner is that thread; the semaphore is at 1 exactly when there is none |
| `KernelTheorems.OwnerChanges` | nachos-3.4/code/threads/synch.cc:116-147 | only the owner gives up a lock, in Release or Wait; a thread becomes owner only of a lock that nobody owns |
| `KernelTheorems.WaitMayReacquire` | nachos-3.4/code/threads/synch.cc:142-148 | a thread back in Wait does not own the lock, so the assertion in Acquire holds |
| `KernelTheorems.WaitIsAtomic` | nachos-3.4/code/threads/synch.h:121-124 | with interrupts off nothing runs between Wait's release of the lock and its joining the queue |
| `KernelTheorems.WaitSleepsIffOff` | nachos-3.4/code/threads/synch.cc:142-148 | past the release of the lock, Wait goes to sleep exactly if it was called with interrupts off; if not, the assertion in Sleep fails and no thread can go on |
| `KernelTheorems.WaitStops` | nachos-3.4/code/threads/thread.cc:217 | called with interrupts on, and with no time slice running out meanwhile, Wait comes to that assertion in its own next steps |
| `KernelTheorems.UnitsConserved` | nachos-3.4/code/threads/synch.cc:64-98 | value = initial + completed Vs - completed Ps, in every state |
| `KernelTheorems.NoSleeperStranded` | nachos-3.4/code/threads/synch.cc:64-98 | while a thread sleeps on a semaphore with units, a woken thread is ready or running to take one |
| `KernelTheorems.SemaphoresAtomic` | nachos-3.4/code/threads/synch.cc:64-98 | each step is, for each semaphore, nothing, one V, or one P that found a unit |
| `KernelTheorems.OnePlace` | nachos-3.4/code/threads/thread.cc:143-226 | a thread is running, once on the ready list, once on one queue, or on no list |
| `KernelTheorems.DeadStayDead` | nachos-3.4/code/threads/scheduler.cc:119-126 | once finished, a thread is never again on a list or running, in any later state; once destroyed, it stays destroyed and is not current |
| `KernelEnds.StepEnds` | nachos-3.4/code/threads/scheduler.cc:116-126 | a step ends no thread, destroys the one that waits for it, or is a call of Finish by the running thread, which then waits |
| `KernelEnds.LosesIff` | nachos-3.4/code/threads/thread.cc:151 | the thread waiting to be destroyed stops waiting without being destroyed exactly when the step is a call of Finish |
| `KernelEnds.LostIff` | nachos-3.4/code/threads/scheduler.cc:119-126 | in every run, the finished threads neither destroyed nor waiting are exactly those that were waiting when another called Finish |
| `KernelEnds.NeverDestroyed` | nachos-3.4/code/threads/scheduler.cc:119-126 | a thread lost in this way is never destroyed |
| `KernelEnds.OvertakenBy` | nachos-3.4/code/threads/scheduler.cc:92-126 | from every state in which the running thread may finish and one that has not yet run is next, a run loses the first |
| `KernelEnds.ALostThread` | nachos-3.4/code/threads/thread.cc:144-154 | however the kernel is set up, there is a run from the start that loses a thread |
| `KernelTheorems.RunFollows` | nachos-3.4/code/threads/thread.cc:174-226 | the processor changes hands only by a dispatch, with interrupts off, and threads join the end of the ready list; that Yield and Sleep do hand it over is in KernelCalls |
| `KernelTheorems.FirstComeFirstServed` | nachos-3.4/code/threads/scheduler.cc:53-74 | the thread at ready position k runs at the (k+1)-st dispatch |
| `KernelCalls.YieldGivesWay` | nachos-3.4/code/threads/thread.cc:174-190 | in every run, a thread in Yield gives the processor to the first thread that is ready and comes last itself; with none ready it keeps the processor |
| `KernelCalls.YieldBegins` | nachos-3.4/code/machine/interrupt.cc:172-178 | a call of Yield, and a timer interrupt in a tick, put the running thread on its way into Yield, with the ready list as it is |
| `KernelCalls.TimeSliceEnds` | nachos-3.4/code/machine/interrupt.cc:172-178 | from then on the thread does nothing else, until the one that was first to be ready has the processor and the thread itself is last |
| `KernelCalls.SleepHandsOver` | nachos-3.4/code/threads/thread.cc:211-226 | a thread that sleeps gives the processor to the first thread that is ready |
| `KernelCalls.PTakesOrSleeps` | nachos-3.4/code/threads/synch.cc:64-77 | P takes a unit and returns, or, exactly if there is none, the thread sleeps, last in the queue |
| `KernelCalls.VWakesFirst` | nachos-3.4/code/threads/synch.cc:87-98 | V, by a thread or a handler, adds a unit and makes the thread that has slept longest ready, behind those that are; no other queue changes |
| `KernelCalls.SignalWakesFirst` | nachos-3.4/code/threads/synch.cc:149-160 | Signal makes the thread that has waited longest ready, if there is one |
| `KernelCalls.BroadcastWakesAll` | nachos-3.4/code/threads/synch.cc:161-172 | Broadcast makes all that wait ready, in the order in which they came |
| `KernelCalls.NobodyOvertakes` | nachos-3.4/code/threads/synch.cc:64-172 | in every run, what a queue holds later is what it held and those that joined since, in that order, less those that left from the front |
| `KernelCalls.LevelRestored` | nachos-3.4/code/threads/synch.cc:64-172 | in every run, a thread back in its own code has interrupts on exactly if it had, whatever it called and whoever ran, unless it called SetLevel |
| `KernelCalls.SetLevelSets` | nachos-3.4/code/machine/interrupt.cc:114-127 | SetLevel leaves the thread the level it asks for; enabling interrupts, or a user instruction, begins a tick in which handlers may run |
| `KernelCalls.PReturns` | nachos-3.4/code/threads/synch.cc:64-77 | in every run, a P, also that of Acquire, ends only by a step of its own thread that takes a unit that is there |
| `KernelCalls.VReturns` | nachos-3.4/code/threads/synch.cc:87-98 | in every run, a V, also that of Release and of Wait, ends only by a step of its own thread that adds a unit |
| `KernelCalls.AcquireReturns` | nachos-3.4/code/threads/synch.cc:116-147 | in every run, a thread that has called Acquire or Wait owns the lock when the call returns |
| `KernelCalls.CallBegins` | nachos-3.4/code/threads/synch.cc:64-147 | the calls that these three are about |
| `KernelUses.StepUse` | nachos-3.4/code/threads/synch.cc:64-126 | for every semaphore, of a client or inside a lock, a step changes the value, and the holder of the lock, only where P takes a unit that is there or V gives one, and only the running thread enters or leaves P and V |
| `KernelClients.StepFollows` | nachos-3.4/code/threads/synch.cc:64-126 | for any client code, every step of the kernel and of the code is nothing, or one event of the same code over atomic semaphores and locks |
| `KernelClients.RunFollows` | nachos-3.4/code/threads/synch.cc:64-126 | for any client code, what a run on the kernel has come to, a run over atomic semaphores and locks from the same start comes to |
| `KernelClients.CallAllowed` | nachos-3.4/code/threads/synch.cc:116-123 | a call passes what Acquire and Release assert exactly if, over atomic locks, the caller does not hold what it acquires and holds what it releases |
| `KernelDisk.EventFollows` | nachos-3.4/code/filesys/synchdisk.cc:72-109 | what the callers of SynchDisk and the disk do is nothing, or one step of the protocol |
| `KernelDisk.RunFollows` | nachos-3.4/code/filesys/synchdisk.cc:72-109 | every run of SynchDisk on the kernel comes to where a run of the protocol comes to |
| `KernelDisk.OneOutstanding` | nachos-3.4/code/filesys/synchdisk.cc:72-109 | in every interleaving of the kernel, semaphore value plus busy disk = threads between request and end of P, at most 1 |
| `KernelDisk.IdleAtRequest` | nachos-3.4/code/machine/disk.cc:120 | in every interleaving of the kernel the raw disk is idle when a request is made |
| `KernelDisk.EndsAfterItsInterrupt` | nachos-3.4/code/filesys/synchdisk.cc:72-109 | on the kernel, when P has returned the interrupt of the caller's own request, the last one issued, has come, and a read has brought what all requests before it left |
| `KernelDisk.CallsAllowed` | nachos-3.4/code/threads/synch.cc:116-123 | what Acquire and Release assert holds for every caller of SynchDisk |
| `KernelCounter.EventFollows` | nachos-3.4/code/threads/threadtest.cc:41-47 | what a worker does is one step of the abstract counter |
| `KernelCounter.RunFollows` | nachos-3.4/code/threads/threadtest.cc:31-55 | every run of the counter on the kernel comes to where a run of the abstract counter comes to |
| `KernelCounter.CounterIsExact` | nachos-3.4/code/threads/threadtest.cc:31-55 | on the kernel, what a worker has read is the value until it writes; no two are between entering and calling V; when all are done, the value is 5n |
| `KernelElevator.EventFollows` | nachos-3.4/code/threads/threadtest.cc:117-225 | what a passenger, the lift or a caller does is one step of the elevator over an atomic lock and semaphores |
| `KernelElevator.RunFollows` | nachos-3.4/code/threads/threadtest.cc:117-225 | every run of the elevator on the kernel comes to where a run of that elevator comes to |
| `KernelElevator.Ledger` | nachos-3.4/code/threads/threadtest.cc:117-225 | on the kernel, with the lock free, waitingAt and wantOffAt count the people registered and riding, and E_onboard the riders, at most 5 |
| `KernelElevator.CallsAllowed` | nachos-3.4/code/threads/synch.cc:116-123 | on the kernel, every call of a passenger or of the lift passes what Acquire and Release assert, on a semaphore that exists |
| `KernelPost.LeftFollows` | nachos-3.4/code/network/post.cc:262-293 | every step of the sending machine's kernel, threads and network is nothing, or one step of the mail |
| `KernelPost.RightFollows` | nachos-3.4/code/network/post.cc:221-246 | every step of the receiving machine's kernel, worker and network is nothing, or one step of the mail |
| `KernelPost.RunFollows` | nachos-3.4/code/network/post.cc:221-329 | every run of two machines, each with its kernel, comes to where a run of the mail over atomic semaphores comes to |
| `KernelPost.MailInOrder` | nachos-3.4/code/network/post.cc:221-329 | on the two kernels, a mailbox holds the letters delivered that were sent to it, all of them, whole, in the order sent, none twice |
| `KernelPost.CallsAllowed` | nachos-3.4/code/machine/network.cc:110-111 | on the sending kernel, Send's calls pass what Acquire and Release assert, and the network is free when a packet is handed to it |
| `Lists.InsertedSorted` | nachos-3.4/code/threads/list.cc:178-204 | insertion keeps a sorted list sorted |
| `Lists.InsertedKeeps` | nachos-3.4/code/threads/list.cc:178-204 | insertion keeps every element and adds one |
| `Lists.List.constructor` | nachos-3.4/code/threads/list.cc:43-46 | a new list is empty |
| `Lists.List.IsEmpty` | nachos-3.4/code/threads/list.cc:154-161 | true exactly for the empty list |
| `Lists.List.Append` | nachos-3.4/code/threads/list.cc:76-89 | the item is last, the others keep their order |
| `Lists.List.Prepend` | nachos-3.4/code/threads/list.cc:102-115 | the item is first, the others keep their order |
| `Lists.List.FindPlace` | nachos-3.4/code/threads/list.cc:192-199 | the walk stops at the element before the first larger key |
| `Lists.List.SortedInsert` | nachos-3.4/code/threads/list.cc:178-204 | the item goes before the first larger key, behind equal ones |
| `Lists.List.SortedRemove` | nachos-3.4/code/threads/list.cc:217-238 | takes the first element with its key; none exactly when the list is empty |
| `Lists.List.Remove` | nachos-3.4/code/threads/list.cc:124-128 | takes the first item; none exactly when the list is empty |
| `Interrupts.Interrupt.constructor` | nachos-3.4/code/machine/interrupt.cc:60-67 | nothing pending, nothing fired, time 0, interrupts off |
| `Interrupts.Interrupt.Schedule` | nachos-3.4/code/machine/interrupt.cc:264-275 | one more pending interrupt, not yet due; the history records it |
| `Interrupts.Interrupt.CallHandler` | nachos-3.4/code/machine/interrupt.cc:324-333 | one entry for each request of the handler, in order, at the time now plus its delay, joins the history and the pending interrupts |
| `Interrupts.Interrupt.CheckIfDue` | nachos-3.4/code/machine/interrupt.cc:290-336 | fires the first pending interrupt exactly when it is due and is not the timer alone on an idle machine; then what its handler asked for, and no more, has been scheduled, each at its time, and is pending beside the rest; moves the clock only when told to; each firing leaves one fewer due |
| `Interrupts.Interrupt.FireAllDue` | nachos-3.4/code/machine/interrupt.cc:169-171 | the loop ends although handlers schedule more, with nothing due, or an idle machine with its timer; a yield is asked for exactly if it was before or a handler that fired asked; what has been scheduled since is what the handlers that fired asked for |
| `Interrupts.Interrupt.OneTick` | nachos-3.4/code/machine/interrupt.cc:150-181 | time advances by the tick of the mode, everything due fires at the new time, interrupts are on, and the caller is told to yield exactly if that was asked for, before or by a handler that fired |
| `Interrupts.Interrupt.SetLevel` | nachos-3.4/code/machine/interrupt.cc:114-127 | returns the old level; turning interrupts on is a tick, with its yield; anything else passes no time and changes nothing |
| `Interrupts.Interrupt.Idle` | nachos-3.4/code/machine/interrupt.cc:210-235 | halts exactly when nothing but the timer is pending; otherwise the clock comes to the next interrupt and at least that one fires |
| `Interrupts.FireGood` | nachos-3.4/code/machine/interrupt.cc:316-335 | firing the first due interrupt keeps the history in order and every interrupt accounted for |
| `Interrupts.PutBackGood` | nachos-3.4/code/machine/interrupt.cc:307-318 | putting an interrupt back, perhaps behind equal ones, keeps them too |
| `Interrupts.DueAfterSchedule` | nachos-3.4/code/machine/interrupt.cc:264-275 | scheduling for the future makes nothing due |
| `Interrupts.Run` | nachos-3.4/code/machine/interrupt.cc:114-336 | over every run and for all handlers: each interrupt fires at most once, never early, in order of time; ticks are idle plus system plus user ticks; all that was scheduled was started by a device, at its time, or asked for by a handler that fired; the run ends early only by halting |
| `Interrupts.StillPending` | nachos-3.4/code/machine/timer.cc:61-70 | if each interrupt of a kind asks for the next one and no other handler does, as the timer and the polls of keyboard and network do, then in every run as many are pending as devices have started: they never stop |
| `SynchDiskProtocol.StepKeeps` | nachos-3.4/code/filesys/synchdisk.cc:72-109 | every step of every thread and of the disk keeps the protocol's invariant |
| `SynchDiskProtocol.OneOutstanding` | nachos-3.4/code/filesys/synchdisk.cc:72-109 | semaphore value plus busy disk = threads between request and end of P, at most 1 |
| `SynchDiskProtocol.DiskIdleAtRequest` | nachos-3.4/code/machine/disk.cc:120 | the raw disk's assertion that it is idle never fails |
| `SynchDiskProtocol.OwnInterrupt` | nachos-3.4/code/filesys/synchdisk.cc:72-109 | a call returns only after its own interrupt; a read brings what the requests before it left |
| `SynchDiskProtocol.LastWriteStays` | nachos-3.4/code/filesys/synchdisk.cc:90-97 | requests made one after the other leave in a sector what the last of them that writes it wrote |
| `SynchDiskProtocol.ReadsLastWrite` | nachos-3.4/code/filesys/synchdisk.cc:72-79 | in every interleaving, a read that is served brings what the last write before it put into the sector, or what was there at the start |
| `SynchDiskProtocol.CallEnds` | nachos-3.4/code/filesys/synchdisk.cc:72-109 | in every run, a call that has the lock is over within four steps, whatever they are |
| `SynchDiskProtocol.Proceeds` | nachos-3.4/code/filesys/synchdisk.cc:72-109 | while a thread is in a call a step is possible, and each one brings that call nearer to its end |
| `ElevatorProtocol.StepKeeps` | nachos-3.4/code/threads/threadtest.cc:117-225 | every statement of a passenger or of the lift, and every arrival, keeps the invariant |
| `ElevatorProtocol.CountsMove` | nachos-3.4/code/threads/threadtest.cc:124-153 | each passenger's step changes the counters by just that passenger |
| `ElevatorProtocol.Ledger` | nachos-3.4/code/threads/threadtest.cc:117-225 | with the lock free, waitingAt and wantOffAt count the people registered and riding, and wantOffAt adds up to E_onboard, at most 5 |
| `ElevatorProtocol.OnlyAtTheDoor` | nachos-3.4/code/threads/threadtest.cc:132-153 | people board and leave only with the doors open at their floor, and board only if there is room |
| `ElevatorProtocol.NobodyForgotten` | nachos-3.4/code/threads/threadtest.cc:207-222 | at shutdown everybody has left or has not registered |
| `ElevatorRounds.OneFloor` | nachos-3.4/code/threads/threadtest.cc:184-189 | the lift moves by one floor, on in its direction, and turns exactly at floor 1 and at the top |
| `ElevatorRounds.OnlyThen` | nachos-3.4/code/threads/threadtest.cc:117-225 | no other step of anybody changes its floor or its direction |
| `ElevatorRounds.StopsInTurn` | nachos-3.4/code/threads/threadtest.cc:179-224 | in every run the doors open at the floors 2, 3, up to the top, down to 1, up again, one after the other |
| `ElevatorRounds.EveryFloorServed` | nachos-3.4/code/threads/threadtest.cc:179-224 | among any 2 * (floors - 1) stops that follow each other in a run, each floor has one |
| `ElevatorRounds.EverybodyCalled` | nachos-3.4/code/threads/threadtest.cc:196-204 | each time the doors open, the lift wakes exactly as many people as wait at that floor or ride to it, nobody elsewhere, and advertises five places, whatever the others do meanwhile |
| `ElevatorRounds.UnitsConserved` | nachos-3.4/code/threads/threadtest.cc:126-157 | between any two states of a run, the units of a floor change by the calls there less the people woken there, and those of spaceSem by places advertised and vacated less those taken up |
| `ElevatorJourneys.HasTravelled` | nachos-3.4/code/threads/threadtest.cc:117-160 | whoever is in the lift got in at their own floor, with the doors open and room; whoever is out again got out, later, at the floor they wanted |
| `ElevatorJourneys.Journey` | nachos-3.4/code/threads/threadtest.cc:117-225 | for every height and every trip there is a run in which somebody comes and, by their own steps and the lift's, gets there and leaves |
| `ElevatorJourneys.JourneyAndEnd` | nachos-3.4/code/threads/threadtest.cc:207-222 | and when the arrivals are then declared over, the lift shuts down |
| `ElevatorShutdown.EverybodyLeftIff` | nachos-3.4/code/threads/threadtest.cc:209-222 | at shutdown everybody has left exactly if nobody is still to register |
| `ElevatorShutdown.NobodyLeftBehind` | nachos-3.4/code/threads/threadtest.cc:246-261 | if people come only while E_spawnerActive is true, and it becomes false only when nobody is still to register, everybody has left at shutdown |
| `ElevatorShutdown.LeftBehind` | nachos-3.4/code/threads/threadtest.cc:117-160 | who has not left when the lift has stopped never will |
| `ElevatorShutdown.MayStop` | nachos-3.4/code/threads/threadtest.cc:209-222 | from where the doors are about to close, past the last Yield: if nobody registered remains and E_spawnerActive is false, the lift goes on to stop by its own steps alone |
| `ElevatorShutdown.SomebodyForgotten` | nachos-3.4/code/threads/threadtest.cc:162-222 | for every number of floors and every trip, a run with E_spawnerActive false throughout, in which a person who comes when the lift is past its last Yield is left behind, all other steps being the lift's |
| `PostOffices.OpenedIsSent` | nachos-3.4/code/network/post.cc:231-244 | the letter opened from a buffer that begins with the bytes of Send is the letter sent, whatever follows |
| `PostOffices.LabelRoundTrip` | nachos-3.4/code/network/post.cc:279 | headers copied to the front of a packet are read back |
| `PostOffices.SenderKeeps` | nachos-3.4/code/network/post.cc:282-287 | one sender at a time; messageSent plus the interrupt due counts the sender that waits |
| `PostOffices.StepKeeps` | nachos-3.4/code/network/post.cc:221-329 | every step of senders, wire, polling and worker keeps the invariant |
| `PostOffices.OneTokenPerPacket` | nachos-3.4/code/machine/network.cc:60-87 | messageAvailable plus the worker's token is 1 exactly when a packet is buffered, so none is overwritten |
| `PostOffices.AssertionsHold` | nachos-3.4/code/machine/network.cc:76-77 | what the networks and the worker assert always holds: a packet is sent only when none is going out, and what arrives is for this machine and fits its buffers and boxes |
| `PostOffices.MailInOrder` | nachos-3.4/code/network/post.cc:221-329 | a mailbox holds the letters delivered that were sent to it, all of them, whole, in the order sent, none twice |
| `PostOffices.NoneLost` | nachos-3.4/code/machine/network.cc:104-127 | if the wire lost nothing, everything sent is delivered or on its way, in order |
| `PostOffices.Proceeds` | nachos-3.4/code/network/post.cc:221-246 | while a letter is on its way, the receiving machine has a step that brings one nearer to its box |
| `PostOffices.DeliversAll` | nachos-3.4/code/network/post.cc:221-246 | from any state the receiving machine can, by its own steps, deliver all that is on its way, in order |
| `PostOffices.SendProceeds` | nachos-3.4/code/network/post.cc:262-293 | while a thread is in Send the sending machine has a step, and each one brings that call nearer to its end |
| `SharedCounter.StepKeeps` | nachos-3.4/code/threads/threadtest.cc:41-47 | with the semaphore, the variable equals the additions completed, in every interleaving |
| `SharedCounter.NothingLost` | nachos-3.4/code/threads/threadtest.cc:31-55 | when all n workers have added, the value is 5n |
| `SharedCounter.NoDeadlock` | nachos-3.4/code/threads/threadtest.cc:31-55 | a run that cannot go on has all workers done, and 5n |
| `SharedCounter.EveryRunEnds` | nachos-3.4/code/threads/threadtest.cc:31-55 | every schedule ends after exactly 22n steps, with 5n, and none has to stop before |
| `SharedCounter.LaunchUnsynchronised` | nachos-3.4/code/threads/threadtest.cc:33-71 | without the semaphore and without a timer the value ends at 5 for every number of workers |
| `Multiplication.Mult` | nachos-3.4/code/machine/mipssim.cc:634-692 | hi and lo hold the exact product, unsigned or in 64-bit two's complement, for all operands |
| `Multiplication.MultBits` | nachos-3.4/code/machine/mipssim.cc:655-679 | the shift-and-add loop with its early exit gives the product of the bits as unsigned words |
| `Multiplication.AddDouble` | nachos-3.4/code/machine/mipssim.cc:663-667 | the carry test adds double words exactly |
| `Multiplication.Magnitudes` | nachos-3.4/code/machine/mipssim.cc:643-653 | negating the most negative int, which leaves it, still gives its magnitude |
| `MachineMemory.LoadIsLittle` | nachos-3.4/code/machine/translate.cc:41-65 | a load is little endian on either host |
| `MachineMemory.StoreIsLittle` | nachos-3.4/code/machine/translate.cc:67-71 | a store is little endian on either host |
| `MachineMemory.LoadAfterStore` | nachos-3.4/code/machine/translate.cc:101-166 | loading what was stored gives it back, as far as it fits |
| `MachineMemory.TlbLikePageTable` | nachos-3.4/code/machine/translate.cc:211-254 | a TLB that agrees with the page table gives the same address or exception, or a page fault |
| `MachineMemory.DistinctFrames` | nachos-3.4/code/machine/translate.cc:208-251 | a page table without shared frames maps no two virtual bytes to one physical byte |
| `MachineMemory.AccessIff` | nachos-3.4/code/machine/translate.cc:186-255 | an access succeeds exactly if it is aligned and the page has a valid entry, not read-only if it writes, with a frame that exists; it goes to that frame at the same offset; a read-only page is never written |
| `MachineMemory.MarksUse` | nachos-3.4/code/machine/translate.cc:246-250 | a successful access marks the page's entry as used, and as dirty if it was or is written; nothing else of it changes, and no other entry |
| `MachineMemory.Memory.SearchTlb` | nachos-3.4/code/machine/translate.cc:223-227 | the first valid entry for the page, or none |
| `MachineMemory.Memory.Translate` | nachos-3.4/code/machine/translate.cc:186-255 | which exception is raised, exactly; otherwise the address lies in memory and only use and dirty bits change |
| `MachineMemory.Memory.ReadMem` | nachos-3.4/code/machine/translate.cc:87-122 | the value of consecutive virtual bytes; nothing that a program sees changes |
| `MachineMemory.Memory.WriteMem` | nachos-3.4/code/machine/translate.cc:137-169 | with an injective table exactly the virtual bytes named change; a failed store changes nothing |
| `MipsInstructions.DecodeImmediate` | nachos-3.4/code/machine/mipssim.cc:594-603 | the fields of an immediate instruction are found by Decode, the immediate with its sign |
| `MipsInstructions.DecodeSpecial` | nachos-3.4/code/machine/mipssim.cc:604-610 | the fields of a register instruction are found, the opcode by its low bits |
| `MipsInstructions.DecodeConditional` | nachos-3.4/code/machine/mipssim.cc:611-625 | the conditional branches are told apart by their rt field |
| `MipsInstructions.DecodeJump` | nachos-3.4/code/machine/mipssim.cc:606-608 | the target of a jump is found |
| `MipsInstructions.SignExtended` | nachos-3.4/code/machine/mipssim.cc:599-603 | the immediate is the 16-bit int with these bits |
| `MipsMeaning.DecodedIff` | nachos-3.4/code/machine/mipssim.h:117-150 | every word is decoded as an operation exactly if it has the code that the R2000 gives that operation |
| `MipsInstructions.AddExact` | nachos-3.4/code/machine/mipssim.cc:125-143 | the sign test of ADD and ADDI traps exactly when the signed sum does not fit, else the sum is exact |
| `MipsInstructions.SubExact` | nachos-3.4/code/machine/mipssim.cc:457-465 | the same for SUB |
| `MipsInstructions.RetiredOk` | nachos-3.4/code/machine/mipssim.cc:554-565 | a completed instruction keeps register 0 zero and the load register below 32, and advances the program counters |
| `MipsInstructions.TrappedOk` | nachos-3.4/code/machine/machine.cc:100-111 | a trap leaves every register but the pending load's and the failing address as it was |
| `MipsInstructions.LoadArrives` | nachos-3.4/code/machine/mipssim.cc:575-582 | a delayed load arrives with the next instruction, completed or trapped |
| `MipsInstructions.OthersKept` | nachos-3.4/code/machine/mipssim.cc:554-582 | an instruction changes no general register but the one it sets and the pending load's |
| `MipsMeaning.SetsOne` | nachos-3.4/code/machine/mipssim.cc:125-547 | for every operation that sets a register: which one; that the value is the sum or difference, as int or modulo 2^32, has the bits of the logical operation or shift, or is the flag, the register named or the link; and that no other register changes |
| `MipsMeaning.SetsPair` | nachos-3.4/code/machine/mipssim.cc:195-369 | multiplication leaves the 64-bit product in HI and LO, division the remainder and quotient of the words, or zeros |
| `MipsMeaning.GoesOn` | nachos-3.4/code/machine/mipssim.cc:153-229 | where the machine goes on: by the offset exactly if the comparison of BEQ, BNE, BGEZ, BLTZ, BGTZ or BLEZ, read as the simulator compares, holds; within the same 256 MB for J; to rs, as the link leaves it, for JR and JALR; else to the next instruction |
| `MipsMeaning.TrapIs` | nachos-3.4/code/machine/mipssim.cc:125-547 | an operation raises Overflow exactly if a signed sum or difference asked for does not fit, Syscall exactly for SYSCALL, and IllegalInstr exactly for the codes it does not know |
| `MipsMeaning.Performed` | nachos-3.4/code/machine/mipssim.cc:554-565 | the whole of it, for every instruction that completes |
| `MipsInstructions.OrRightIff` | nachos-3.4/code/machine/mipssim.cc:375-377 | OR gives the or of its operands exactly when every bit of rt is one of rs |
| `MipsInstructions.OrWrong` | nachos-3.4/code/machine/mipssim.cc:375-377 | 0 or 1 comes out as 0 |
| `MipsInstructions.SraRightIff` | nachos-3.4/code/machine/mipssim.cc:436-443 | SRA and SRAV shift arithmetically exactly when the sign is clear or nothing is shifted |
| `MipsInstructions.SrlRightIff` | nachos-3.4/code/machine/mipssim.cc:445-455 | SRL and SRLV shift logically exactly when the sign is clear or nothing is shifted |
| `MipsInstructions.ShiftsWrong` | nachos-3.4/code/machine/mipssim.cc:436-449 | the most negative int shifted by one comes out of SRA positive and of SRL negative |
| `MipsInstructions.SltRightIff` | nachos-3.4/code/machine/mipssim.cc:404-416 | SLT and SLTI compare as signed exactly when the signs agree |
| `MipsInstructions.SltWrong` | nachos-3.4/code/machine/mipssim.cc:404-409 | the most negative int is not less than 0 for SLT |
| `MipsInstructions.BgtzRightIff` | nachos-3.4/code/machine/mipssim.cc:173-176 | BGTZ goes where a signed comparison says exactly when the sign is clear or both ways lead to the same place |
| `MipsInstructions.BlezRightIff` | nachos-3.4/code/machine/mipssim.cc:178-181 | the same for BLEZ |
| `MipsInstructions.BranchesWrong` | nachos-3.4/code/machine/mipssim.cc:173-181 | BGTZ branches on the most negative int, and BLEZ does not |
| `MipsInstructions.DivRightIff` | nachos-3.4/code/machine/mipssim.cc:195-203 | DIV gives quotient and remainder of the signed division exactly when the divisor is 0 or 1, or equal to the dividend, or the dividend is not negative and the divisor is not either or is negative and larger in magnitude |
| `MipsInstructions.DivWrong` | nachos-3.4/code/machine/mipssim.cc:195-203 | -4 divided by 2 comes out as 0x7ffffffe |
| `MipsSimulator.Machine.DelayedLoad` | nachos-3.4/code/machine/mipssim.cc:575-582 | the pending load is committed, the new one recorded, register 0 zero |
| `MipsSimulator.Machine.RaiseException` | nachos-3.4/code/machine/machine.cc:100-111 | the registers at the call of the handler |
| `MipsSimulator.Machine.Arithmetic` | nachos-3.4/code/machine/mipssim.cc:125-151 | the additions and subtractions set the wrapped result, and trap, changing nothing, exactly when a signed result is asked for and does not fit |
| `MipsSimulator.Machine.Execute` | nachos-3.4/code/machine/mipssim.cc:124-547 | the switch over opcodes, in the order in which it assigns, leaves the registers and gives the branch target that the table of results and targets has for the opcode, or raises its trap with nothing changed |
| `MipsSimulator.MisalignedAccess` | nachos-3.4/code/machine/mipssim.cc:245-323 | a misaligned access is an address error, or gives up if it is partial |
| `MipsSimulator.LoadMeans` | nachos-3.4/code/machine/mipssim.cc:231-343 | a load brings the number that the bytes found spell, signed for LB and LH and unsigned for LBU, LHU and LW; LWR replaces the first byte of the register by the last one found |
| `MipsSimulator.StoreMeans` | nachos-3.4/code/machine/mipssim.cc:383-532 | a store leaves the low bytes of the register, and SWR the bytes that were there with the first byte of the register as the last |
| `MipsSimulator.AddressMeans` | nachos-3.4/code/machine/mipssim.cc:231-532 | the address is rs plus the immediate, modulo 2^32 |
| `MipsSimulator.Machine.DoLoad` | nachos-3.4/code/machine/mipssim.cc:231-343 | exactly when a load traps and with which exception; otherwise the value of the virtual bytes, extended or merged |
| `MipsSimulator.Machine.DoStore` | nachos-3.4/code/machine/mipssim.cc:383-532 | exactly when a store traps and with which exception, the read's before the write's; otherwise exactly the virtual bytes named change; a trap changes no memory byte |
| `MipsSimulator.Machine.OneInstruction` | nachos-3.4/code/machine/mipssim.cc:93-566 | fetch, decode and execute: traps in the fetch exactly when the fetch faults; otherwise ends as the instruction, the registers and the page table say; when it completes, the registers are as the meaning of the operation has them (MipsMeaning.Performs), and the virtual bytes as its store has them; when it traps, only the pending load and the failing address show |
| `DiskTiming.ModuloDiff` | nachos-3.4/code/machine/disk.cc:202-209 | the sectors that pass before the wanted one, and none of them is it |
| `DiskTiming.FirstFromBoundary` | nachos-3.4/code/machine/disk.cc:249 | waiting that many sectors from a boundary brings the first pass |
| `DiskTiming.BufferTest` | nachos-3.4/code/machine/disk.cc:241-243 | the comparison says that the sector has passed whole since the buffer was started |
| `DiskTiming.SeekPerTrack` | nachos-3.4/code/machine/disk.cc:182-184 | a seek takes 500 ticks to the next track, as long back as there, and as long as its parts |
| `DiskTiming.Disk.TimeToSeek` | nachos-3.4/code/machine/disk.cc:179-194 | the seek between the tracks, and the wait to the next sector boundary |
| `DiskTiming.Disk.ComputeLatency` | nachos-3.4/code/machine/disk.cc:232-253 | from the buffer one ROTATION_TIME, exactly when no seek is needed and the sector has passed; otherwise the transfer begins at the sector's first pass after the seek |
| `DiskTiming.Disk.UpdateLast` | nachos-3.4/code/machine/disk.cc:261-271 | the buffer starts afresh after a seek, always on a sector boundary |
| `DiskTiming.Disk.Request` | nachos-3.4/code/machine/disk.cc:115-153 | the latency of the request, and the track buffer, kept without a seek and otherwise started afresh at the first boundary after it |
| `DiskTiming.Disk.HandleInterrupt` | nachos-3.4/code/machine/disk.cc:161-166 | the disk is idle again |

## Left out

- Host files, sockets, the console, printing and debugging output: the disk is a sequence of sectors, the wire a queue that may lose packets.
- SWITCH, stacks and the stack fencepost: a context switch changes the current thread.
- Kernel calls as methods: threads, semaphores, locks and conditions are steps on a value, because a call does not return before other threads run. The nesting of OneTick inside Yield inside OneTick is flattened, which is possible because each is the last thing its caller does.
- Interrupts.Interrupt.OneTick: hands the yield request to its caller instead of calling Yield; the switch itself is in the kernel's step system. The clock does not overflow. DelayedLoad before a handler is not repeated here.
- Handlers in the idle loop: the kernel's step system lets them run whenever the current thread is in Sleep, also when another is ready, which allows more than the original does.
- What the original does after it has stored past a header's table: Create reports the overrun and stops there.
- OpenFiles.OpenFile.ReadAt: asks for a position that is not negative and for position + numBytes within int, which the original does not check.
- OpenFiles.OpenFile.WriteAt: asks the same. Bytes of the last sector beyond the end of the file are unspecified.
- FileHeaders.FileHeader.ByteToSector: takes the block number along, and the table dataSectors is a sequence; `char *` arguments are an array and an offset.
- SynchDiskProtocol: a sector number out of range, which the raw disk refuses, is not requested.
- The blocking path of SynchList::Remove and elevatorTest.cc: they call Wait with interrupts on.
- Liveness under a fair scheduler: that every passenger is served, that every thread is scheduled, that every packet arrives. What is shown is that runs exist that get there, and for SynchDisk and the shared counter that every run does.
- SynchList: the postal worker's Put is one step, and the mailboxes' own lock and condition are not modelled.
- The Yields of the elevator's loops: a thread may yield any number of times, so their numbers play no part.
- ElevatorProtocol: the number of floors is fixed before the lift starts, and E_InitIfNeeded has run.
- PostOffices: one direction of the link; the other is the same with the machines exchanged. Both offices have the same number of boxes.
- MipsSimulator.Machine.OneInstruction: runs to the call of the exception handler; where an operation differs from the MIPS manual is under Findings. The cases of LWL, LWR, SWL and SWR behind their failing assertions are left out.
- DiskTiming.Disk.Request: covers both requests; the transfer of data is in the file system's SynchDisk.
- Crash recovery and concurrent callers of the file system, which the original excludes.
- `nachos-3.4/code/bin`, the user programs, AddrSpace, timers and consoles are not modelled.
