# Verified models of the PiP test programs

The test suite of Process-in-Process (PiP) contains small concurrent programs with exact claims: a
turn protocol over one file offset, a pipeline of relay tasks, tasks that steal each other's heap
blocks, children that are reaped by the wrong thread, token rings, locks and barriers. Each test
tries a few numbers of tasks and whatever interleavings the machine happens to give. This project
models the programs as step machines over the primitives they use, and proves their claims for every
number of tasks, every iteration count and every interleaving. Two sequential pieces, the list
interpreter `test.sh` and the core selection of `corebind.c`, are methods with loops.

Each concurrent program has at least two modules. The first has the state, the atomic steps (`Enabled`
and `Next`; a schedule is a sequence of steps, `Run` follows it), the invariant, the proof that every
step keeps it, and the results about whole runs. The second, `...Program`, is the program in its own
form: a class that holds the program counters, locals and shared variables in arrays and fields and
changes them in place. Its `Execute` performs one step of one participant, and its contract says that
the object then stands exactly where `Next` says; a method `Run...` follows any schedule on a new
object and states on the object's own fields what the program guarantees. A plain `x += k` on shared
memory is two steps.

Most programs have a third module, `...Work` or `...Order`. It lists what the participants do in a run one
by one, by its place in the list and without the functions that define the steps: who sends, exports, writes
or stores when and what, and that each participant takes the steps of its loop in the order of the program
and, at its end, all of them. The lemmas called `...IsNoticed` there say exactly when a CHECK fails, in any
state, reachable or not.

Assumed, and modelled by their contracts: barriers count calls and release a round when the count is
complete (pthread_barrier_wait in POSIX.1-2017, System Interfaces; that this gives the usual contract
is proved in `CyclicBarrier`); a trylock is atomic; a pending signal is not queued (section 2.4.1 of
POSIX.1-2017, System Interfaces); a named import waits for the export; a pipe is a byte queue of
limited capacity whose end of file is seen when no descriptor for its write end is left, and a write()
to one that nobody can read ends the task with SIGPIPE; malloc, mmap
and fork return a block, a page or a pid that is not in use.

| program | modules |
|---|---|
| `basics/seek.c` | `SeekTurns` (specification), `SeekBarrier` and `SeekSync` (the two variants), `SeekRecords`, `SeekStdin`, `SeekOpening`, `SeekFormat`, `SeekTransfer`, `SeekVariants` (main results), `SeekProgram` |
| `basics/hook_and_coe.c` | `FdTables`, `Pipeline`, `PipelineResults`, `PipelineRuns`, `PipelineLimits`, `PipelineAsWritten`, `PipelineLag`, `PipelineProgram` |
| `compat/malloc-x.c` | `MallocSlots`, `MallocWork`, `MallocProgress`, `MallocProgram` |
| `compat/fork.c` | `ForkReap`, `ForkWork`, `ForkProgram` |
| `basics/pip_namexp.c` | `NamedRing`, `NamedOrder`, `NamedRingProgram` |
| `basics/pip_kill.c` | `SignalRing`, `SignalOrder`, `SignalRingProgram` |
| `porting/spinlock.c` | `LockedCount`, `LockedWork`, `LockedOutcomes`, `LockedCountProgram` |
| the three `pip_barrier` programs | `BarrierRounds`, `BarrierWork`, `BarrierRoundsProgram` |
| `compat/pagefault.c` | `PageTouches`, `PageWork`, `PageTouchesProgram` |
| `test.sh` | `TestRunner` |
| `basics/corebind.c` | `CoreBinding` |
| shared | `CyclicBarrier`, `Sums`, `Division`, `Supply`, `Sequences` |

## Where a program does not do what it seems to claim

- `basics/seek.c` in stdin mode accepts a stream that is cut inside its very last record if niters is at
  least 2: a task compares its whole `check` buffer after any positive count, and the buffer still holds
  the same record from the iteration before. `SeekOpening.PassesExactlyIfAccepted` gives the exact set of
  accepted inputs, and `SeekOpening.CutStreamAccepted` a passing run for every such cut.
- `basics/hook_and_coe.c:225` says `ccc =- ccr`. With the subtraction that is meant no comparison ever
  fails and no task meets a broken pipe (`PipelineResults.EveryRun`, `Pipeline.NothingBreaks`). As written,
  every file of two bytes or more can go wrong, and no other: a comparison fails, or root closes fd_in with
  bytes still on their way and the last task gets SIGPIPE (`PipelineLag.CleanExactlyIfTiny`). This is so
  even if every read of the file returns a whole block, as a regular file's does unless it is interrupted
  (`PipelineLag.WholeCleanExactlyIfTiny`); a text can fail its very first comparison then (`TextFails`).
- The failing comparison alone: if reads of the file, too, may return any part of what is asked for, all
  files can fail one except those with nothing but zero bytes behind the first byte, and those of a zero
  byte and one more (`PipelineAsWritten.PassesExactlyIfHarmless`). For texts that means every file of two
  bytes or more (`HarmlessText`), and no such read is needed. Some files with zero bytes do need one.
- The tasks of that pipeline see end of file in the order 0, 1, ..., but their exits are in order in every
  run only if there is a single task: each may overtake the one ahead of it, and, unless
  SIGPIPE ends it, no other (`PipelineLimits.InOrderExactlyIfAlone`, `Overtaken` and `ExitOrder`).
- `porting/spinlock.c:136` gives up if the race without the lock has left a zero, which is taken to mean that
  there was no race. With more than one thread, however many, some run leaves a zero
  (`LockedOutcomes.GivesUpExactlyIfSeveral`). Some run also gets to the end, exactly if there is only one
  thread or an iteration to race in (`FinishesExactlyIf`).
- Root writes a whole block before it reads any of it back, so the pipeline may wedge if the pipes are too
  small. `PipelineLimits.DeliversExactlyIfRoomy` gives the exact condition; pipes of 512 bytes, the
  least that POSIX allows for PIPE_BUF, meet it for every number of tasks.
- In `blt/pip_barrier.c` barrier and counter are on task 0's stack. Nobody follows the counter when task 0
  is through (`BarrierRounds.OwnerMayGo`), but any other task may still be inside its last wait on the
  barrier then (`BarrierOutlived`): the barrier outlives all waits on it in every run if and only if there
  is no other task or no iteration (`OutlivesExactlyIfAlone`).
- In `basics/pip_namexp.c`, which needs two tasks, it is the same with the barrier on task 0's stack: for
  every number of tasks and iterations any other task may still be inside its last wait when task 0 is done
  (`NamedRing.BarrierOutlived`), while nobody follows the counter any more (`NamedRing.OwnerMayGo`).

## Model

| member | source | states |
|---|---|---|
| CyclicBarrier.Contract | basics/seek.c:139-162 | a barrier that only counts calls lets a caller return exactly when every participant has started as many waits as the caller |
| CyclicBarrier.EnterSound | basics/seek.c:139-162 | one more call keeps the count of calls equal to size times rounds plus waiting callers, and nobody is a round ahead |
| CyclicBarrier.SomebodyFree | basics/seek.c:139-162 | the barrier itself never wedges: somebody is outside it or may return |
| SeekVariants.VariantsAgree | basics/seek.c:136-314 | with and without USE_BARRIER the program allows exactly the same sequences of calls on the shared file, in all three modes |
| SeekVariants.BarrierRefinesTurns | basics/seek.c:139-314 | the barrier variant allows exactly the traces of the turn machine, in which one transfer at a time happens in the order root, 0, ..., ntasks-1, over and over |
| SeekVariants.SyncRefinesTurns | basics/seek.c:136-313 | the same for the variant with the counter token |
| SeekVariants.BarrierFileMode | basics/seek.c:184-219 | file mode with the barrier: no CHECK fails, every run is finite, and one that cannot go on has everybody returned, all records in the file in order and all of it read back |
| SeekVariants.SyncFileMode | basics/seek.c:195-218 | the same with the counter token |
| SeekVariants.BarrierStdoutMode | basics/seek.c:165-183 | with root's own write as steps: a stdout run fails no CHECK, is finite, and ends with everybody returned and root's record and the tasks' records, niters times, on its output |
| SeekVariants.SyncStdoutMode | basics/seek.c:165-183 | the same with the counter token |
| SeekVariants.BarrierStdinMode | basics/seek.c:145-164 | for every input: root's comparison and all comparisons of a stdin run that cannot go on have passed if and only if the input is acceptable, and then everybody has returned |
| SeekVariants.SyncStdinMode | basics/seek.c:145-164 | the same with the counter token |
| SeekOpening.StdinOpens | basics/seek.c:146-149 | however its record arrives, root's strcmp passes exactly if the input begins with it, and the tasks then find the rest ahead of them |
| SeekOpening.StdoutOpens | basics/seek.c:166-168 | root's record is what the output holds when the tasks start |
| SeekOpening.PassesExactlyIfAccepted | basics/seek.c:145-164 | over every input and any pieces: no comparison of root or a task fails if and only if the input begins with the whole stream or, from two iterations on, is the stream cut inside its last record |
| SeekOpening.AcceptsMeans | basics/seek.c:145-164 | the acceptable inputs written out: they begin with root's record and niters times those of the tasks, or are that stream cut inside its last record |
| SeekOpening.CutStreamAccepted | basics/seek.c:247-248 | for any number of tasks, two iterations or more and every cut inside the last record of the program's own stream: a run that gets to the end with no failed CHECK |
| SeekBarrier.TurnOwner | basics/seek.c:276-312 | whoever has passed the waits ahead of its transfer is the only one, and its transfer is the next one in order |
| SeekBarrier.StepInv | basics/seek.c:184-314 | every step of any participant keeps the invariant |
| SeekBarrier.StepRefines | basics/seek.c:184-314 | every step is invisible from the file or is the turn machine's next step |
| SeekBarrier.Serve | basics/seek.c:184-314 | what the turn machine can do next, the program can do at once or after an invisible step |
| SeekBarrier.RunRefines | basics/seek.c:184-314 | every run maps to a run of the turn machine |
| SeekBarrier.RunRealised | basics/seek.c:184-314 | every run of the turn machine is the image of a run of the program |
| SeekBarrier.RunBounded | basics/seek.c:184-314 | no run is longer than the rank of its first state |
| SeekBarrier.NobodyLeftBehind | basics/seek.c:139-314 | when nothing can move and no CHECK has failed, nobody is at a barrier and all transfers are over |
| SeekSync.TokenHolder | basics/seek.c:277-288 | the participant the counter names is the only one in its transfer, and root is spinning meanwhile |
| SeekSync.StepInv | basics/seek.c:199-313 | every step keeps the invariant of the counter variant |
| SeekSync.StepRefines | basics/seek.c:199-313 | every step is invisible or the turn machine's next step |
| SeekSync.RunRefines | basics/seek.c:199-313 | every run of the counter variant maps to a run of the turn machine |
| SeekSync.RunRealised | basics/seek.c:199-313 | every run of the turn machine is the image of a run of the counter variant |
| SeekSync.NobodyLeftSpinning | basics/seek.c:199-313 | when nothing can move and no CHECK has failed, nobody spins on the counter |
| SeekRecords.FileModeReadsBack | basics/seek.c:195-218 | in file mode no comparison fails and reading never meets the end of the file; at the end the file is the records of root, 0, ..., ntasks-1, niters times, and the offset is at its end |
| SeekRecords.StdoutWritesStream | basics/seek.c:165-183 | what a complete stdout run has written |
| SeekRecords.StreamsAgree | basics/seek.c:145-183 | the stream written in stdout mode is the one needed in stdin mode |
| SeekRecords.FileIs | basics/seek.c:195-218 | the file at the end is the concatenation of all records, niters times over |
| SeekRecords.NeedIs | basics/seek.c:145-183 | the stream is root's record and then the concatenation of the tasks' records, niters times over |
| SeekStdin.PassesExactlyIfAccepted | basics/seek.c:238-256 | once root has passed its own comparison, the tasks pass all of theirs if and only if the input is acceptable |
| SeekStdin.StdoutFeedsStdin | basics/seek.c:145-183 | what a stdout run writes, a stdin run with the same arguments accepts |
| SeekFormat.RecordsDiffer | basics/seek.c:143-144 | different participants have different records |
| SeekFormat.RecordMeans | basics/seek.c:143-235 | the record of task k is k in decimal without leading zeros, right-aligned in eight places or longer if it has more digits; root's is `    ROOT` |
| SeekFormat.NumeralIsUnique | basics/seek.c:235-235 | a number has only one such text |
| SeekFormat.ProgramRecords | basics/seek.c:143-235 | every participant of the program has its own record |
| SeekFormat.ProgramConfigValid | basics/seek.c:235-236 | the program's own records are not empty and hold no NUL |
| SeekTransfer.MyRead | basics/seek.c:52-66 | for any pattern of short reads, errors and ends of file: the count returned, the bytes in the buffer and the offset; an error or end of file of the first call is returned as it is |
| SeekTransfer.MyWrite | basics/seek.c:68-82 | for any pattern of short writes and errors: the count returned and the new contents and offset; an error of the first call is returned as it is |
| SeekTransfer.WriteThenRead | basics/seek.c:52-82 | what my_write has written, my_read reads back from the same offset, whatever the pieces |
| SeekTransfer.NoCallFails | basics/seek.c:56-64 | if no call fails, everything available and wanted is moved, in however many pieces |
| SeekTransfer.ShortMeansStopped | basics/seek.c:58-61 | a short count means that some call returned 0 or failed |
| SeekProgram.BarrierProgram.constructor | basics/seek.c:132-142 | the initial state of the barrier variant |
| SeekProgram.BarrierProgram.Execute | basics/seek.c:184-314 | one step in place is one step of the machine |
| SeekProgram.BarrierProgram.Drive | basics/seek.c:184-314 | following any schedule in place is a run of the machine |
| SeekProgram.SyncProgram.constructor | basics/seek.c:132-137 | the initial state of the counter variant |
| SeekProgram.SyncProgram.Execute | basics/seek.c:195-313 | one step in place is one step of the machine |
| SeekProgram.SyncProgram.Drive | basics/seek.c:195-313 | following any schedule in place is a run of the machine |
| SeekProgram.RunBarrierFile | basics/seek.c:184-314 | any schedule in file mode: no CHECK fails, and at the end the file is all records in order, read back in full |
| SeekProgram.RunSyncFile | basics/seek.c:195-313 | the same with the counter token |
| FdTables.Launcher.Setup | basics/hook_and_coe.c:151-206 | after the pipes, marks, spawns and closes: exactly the descriptors of root and of every task |
| FdTables.Launcher.OpenPipes | basics/hook_and_coe.c:151-159 | root's table with all pipes open and its two ends marked close-on-exec |
| FdTables.Launcher.SpawnNext | basics/hook_and_coe.c:182-193 | one spawn and the two closes after it, for any task |
| FdTables.SpawnedTable | basics/hook_and_coe.c:94-113 | the hook and close-on-exec leave a task pipe k on 0, pipe k+1 on 1 and the ends meant for later tasks |
| FdTables.HookAndExecCommute | basics/hook_and_coe.c:94-113 | closing the marked descriptors before or after the hook makes no difference |
| FdTables.TaskEnds | basics/hook_and_coe.c:172-206 | the write end of pipe j is held by exactly the tasks 0..j-1, the read end by tasks 0..j |
| FdTables.RootEnds | basics/hook_and_coe.c:151-206 | root holds only the write end of pipe 0 and the read end of the last pipe |
| FdTables.WithoutCoe | basics/hook_and_coe.c:153-153 | without the close-on-exec mark task 0 would keep the write end of its own input |
| FdTables.HandedEndsSurvive | basics/hook_and_coe.c:94-113 | whatever ends a task is handed, even ones marked close-on-exec, are on 0 and 1 when its main starts |
| Pipeline.StepFlows | basics/hook_and_coe.c:208-255 | for any file, and with line 225 as written or as meant, every step, SIGPIPE included, keeps pipes, buffers, descriptors and the end-of-file cascade in order |
| Pipeline.StepInv | basics/hook_and_coe.c:208-255 | with the subtraction meant, every step of root or a relay keeps the full invariant |
| PipelineResults.Conservation | basics/hook_and_coe.c:208-255 | root's received bytes followed by all bytes in flight, from the last pipe back to the first, are the bytes sent; at most BUFSZ are in flight |
| PipelineResults.FlowIs | basics/hook_and_coe.c:240-252 | the same from every pipe on |
| Pipeline.ComparesExactly | basics/hook_and_coe.c:229-229 | strncmp on zeroed buffers succeeds on a prefix exactly when it is the whole block or the block has a NUL there |
| Pipeline.NoEarlyEnd | basics/hook_and_coe.c:223-246 | no read meets an end of file while root still feeds |
| Pipeline.NoWriterMeans | basics/hook_and_coe.c:232-254 | a pipe has no writer exactly when root has closed fd_out and the tasks ahead have gone, the nearest at least past its close |
| Pipeline.ReadableMeans | basics/hook_and_coe.c:231-254 | the last pipe has a reader exactly until root closes fd_in, any other at least while the task that writes to it is there; so only the last task can get SIGPIPE |
| Pipeline.RootFindsReader | basics/hook_and_coe.c:215-219 | root never writes to a pipe that nobody can read |
| Pipeline.BrokenPipeEnds | basics/hook_and_coe.c:247-251 | in any state, a task with bytes to write gets SIGPIPE exactly if nobody can read them, and then writes no more |
| Pipeline.EofEndsCollecting | basics/hook_and_coe.c:222-229 | in any state, an end of file takes root from its reading loop to its comparison |
| Pipeline.NothingBreaks | basics/hook_and_coe.c:222-233 | with the subtraction meant, no task ever gets SIGPIPE |
| PipelineResults.NoBrokenPipe | basics/hook_and_coe.c:247-251 | with the subtraction meant, a relay with bytes to write finds the reader they are meant for |
| PipelineResults.NeverWedged | basics/hook_and_coe.c:208-238 | when nothing can move, the file has come back, all tasks have exited and all waits returned |
| PipelineResults.RankDrops | basics/hook_and_coe.c:208-255 | every step brings the end nearer |
| PipelineResults.EveryRun | basics/hook_and_coe.c:208-255 | for any number of relays, any file and any cutting of transfers: finite, no mismatch, bytes conserved in order, everything delivered at the end |
| PipelineAsWritten.PassesExactlyIfHarmless | basics/hook_and_coe.c:222-229 | with the line as written, for every file, of which a read() may return any part: no run ever fails a comparison if and only if all bytes behind the first are zero, or the file is a zero byte and one more |
| PipelineAsWritten.Fails | basics/hook_and_coe.c:225-225 | for any other file, any number of tasks and any capacity, a run that fails a comparison, with one- and two-byte reads of the file |
| PipelineAsWritten.CalmStep | basics/hook_and_coe.c:222-229 | on a harmless file every step keeps what root compares equal up to a zero byte |
| PipelineAsWritten.HarmlessText | basics/hook_and_coe.c:225-225 | a text is harmless exactly if it has at most one byte |
| PipelineLag.CleanExactlyIfTiny | basics/hook_and_coe.c:208-238 | with the line as written, for any number of tasks and any capacity: no run fails a comparison or has a task ended by SIGPIPE if and only if the file has at most one byte |
| PipelineLag.WholeCleanExactlyIfTiny | basics/hook_and_coe.c:208-238 | the same when every read of the file returns a whole block or the rest of the file, for pipes that hold one block |
| PipelineLag.GoesWrong | basics/hook_and_coe.c:220-233 | for every file of two bytes or more and any block size that fits in a pipe, a run in which a comparison fails or the last task is ended by SIGPIPE |
| PipelineLag.TextFails | basics/hook_and_coe.c:222-229 | for every text of two bytes or more, a run with whole blocks that fails a comparison |
| PipelineResults.EndsInOrder | basics/hook_and_coe.c:244-254 | a task sees end of file only after all tasks ahead of it have seen theirs and closed their outputs |
| PipelineLimits.DeliversExactlyIfRoomy | basics/hook_and_coe.c:209-238 | every halted run has delivered the file if and only if the pipes plus one byte per task hold a block of the file |
| PipelineLimits.Wedge | basics/hook_and_coe.c:215-219 | otherwise, for any number of tasks and any such capacity, a run in which root and all tasks block in write() |
| PipelineLimits.ExitOrder | basics/hook_and_coe.c:246-254 | with line 225 as written or as meant: a task that comes to its exit does so only after all tasks ahead of it but possibly the nearest, which has closed its output |
| PipelineLimits.InOrderExactlyIfAlone | basics/hook_and_coe.c:232-254 | the tasks end in order in every run, by exit or by SIGPIPE, if and only if there is one task |
| PipelineLimits.Overtaken | basics/hook_and_coe.c:246-254 | for any file, any number of tasks and any task but the first, a run in which it exits before the one ahead of it |
| PipelineResults.HoldIs | basics/hook_and_coe.c:151-157 | that capacity is (n+1)*cap+n |
| PipelineResults.LeastCapacity | basics/hook_and_coe.c:123-219 | pipes of 512 bytes are enough for any number of tasks and any file, and no smaller ones are |
| PipelineProgram.Program.constructor | basics/hook_and_coe.c:208-209 | the initial state on the tables the setup leaves |
| PipelineProgram.Program.Execute | basics/hook_and_coe.c:208-255 | one step in place is one step of the machine |
| PipelineProgram.RunPipeline | basics/hook_and_coe.c:147-238 | setup and any schedule: no mismatch, bytes conserved in order, and when root is done the file is back and all tasks have exited |
| MallocSlots.VictimIsForeign | compat/malloc-x.c:105-130 | inside the critical section `who` is another task, although it was looked at before the lock was taken, and the block is live and that task's |
| MallocSlots.StepInv | compat/malloc-x.c:89-140 | every step keeps blocks and slots one to one, lock ownership and the counter |
| MallocSlots.EarlyLeaverIsLast | compat/malloc-x.c:100-100 | the counter is 0 only when all other tasks have finished |
| MallocWork.EveryTaskWorks | compat/malloc-x.c:98-138 | in every run a task probes, frees, allocates, stores, signs and unlocks one slot in each iteration from 0 up; at the head of its loop it has done as many as it counts, and behind it niters, or fewer if all others have finished |
| MallocWork.LooksFirst | compat/malloc-x.c:99-106 | each pick of a slot comes after a look at the counter of its own, and each trylock after a look at who filled the slot |
| MallocWork.DeadBlockIsNoticed | compat/malloc-x.c:113-130 | in any state, mprobe and free() end the task exactly if the block is not live |
| MallocProgress.UsefulBounded | compat/malloc-x.c:98-140 | in every run all but boundedly many steps are polling, from the look at the counter to a failed trylock |
| MallocProgress.Attempt | compat/malloc-x.c:99-106 | with all locks free: into which slot a task gets that keeps picking one it did not fill itself, and that it leaves its loop instead when it finds its iterations over or the counter 0; either way the run's rank falls |
| MallocProgress.CanFinish | compat/malloc-x.c:95-140 | from every reachable state some run brings all tasks to their end |
| MallocProgress.EveryRunCanFinish | compat/malloc-x.c:70-144 | every run has boundedly many useful steps and can be extended to one in which all tasks finish |
| MallocSlots.EveryRun | compat/malloc-x.c:70-144 | no heap check fails, every block freed was live and another task's, and at the end the live blocks are exactly those in the slots, each once |
| MallocProgram.Program.constructor | compat/malloc-x.c:70-88 | slots, locks and counter as task 0 sets them up |
| MallocProgram.Program.Execute | compat/malloc-x.c:89-140 | one step in place is one step of the machine |
| MallocProgram.Program.ReplaceBlock | compat/malloc-x.c:106-137 | from the trylock to the unlock |
| MallocProgram.RunTasks | compat/malloc-x.c:70-144 | any schedule: no heap check fails, a task that has finished has replaced niters blocks or is the last, and at the end every slot holds a live block, all different, nothing else is live, and all locks are free |
| ForkReap.StepInv | compat/fork.c:71-145 | every step keeps the invariant that ties the table, the unreaped children, the pids in hand and the countdowns together |
| ForkReap.WaitsComeLast | compat/fork.c:83-104 | whenever wait() returns, every task has recorded all its children, and the pid returned is in the table |
| ForkReap.CompareTask | compat/fork.c:112-129 | a search that has not found its pid still has it ahead, so no search ends without it |
| ForkReap.OnlyCell | compat/fork.c:115-126 | a pid stands at one place of the table only |
| ForkReap.NeverEchild | compat/fork.c:103-108 | a task with children left to reap always has one that wait() can give it, its own or, in thread mode, anybody's |
| ForkReap.HandsBound | compat/fork.c:101-130 | the tasks hold no more pids than they are due, and fewer if one of them is between two waits |
| ForkReap.RunCounts | compat/fork.c:101-130 | each wait() is followed by exactly one crossing out, and n counts them down |
| ForkWork.ForksAndRecords | compat/fork.c:72-81 | a task forks nfork children and stores the i-th one at place i of its row |
| ForkWork.SearchesAllRows | compat/fork.c:112-129 | each search goes over all rows, and compares in the others' rows only in thread mode |
| ForkWork.TaskZeroIsLast | compat/fork.c:132-142 | when task 0 returns all others have returned |
| ForkWork.ChildlessIsNoticed | compat/fork.c:104-108 | in any state, a task with no child to wait for fails with ECHILD |
| ForkReap.NeverStuck | compat/fork.c:71-145 | some task can go on unless all have returned |
| ForkReap.RankDrops | compat/fork.c:71-145 | every step brings the end nearer: forks left, children due, places left to search |
| ForkReap.EveryRun | compat/fork.c:71-145 | in both modes runs are finite and no wait() fails; when nothing more can happen all tasks have returned, each has reaped and crossed out exactly nfork children, no child is left and the table is empty |
| ForkProgram.IdxAddresses | compat/fork.c:39-39 | IDX(P,I) names each entry of the flat table, and a store through it changes that entry only |
| ForkProgram.Program.constructor | compat/fork.c:56-61 | task 0 clears the table |
| ForkProgram.Program.Execute | compat/fork.c:71-145 | one step in place, on the flat table, is one step of the machine |
| ForkProgram.Program.SetAt | compat/fork.c:124-124 | a store to the table |
| ForkProgram.Program.At | compat/fork.c:115-115 | a load from the table |
| ForkProgram.RunTasks | compat/fork.c:56-145 | any schedule: no wait() fails, and once all have returned no child is left and the flat table is cleared |
| NamedRing.StepInv | basics/pip_namexp.c:78-121 | every step keeps the invariant |
| NamedRing.OneHolder | basics/pip_namexp.c:80-118 | at most one task has the right to touch the counter |
| NamedRing.PointerComesBack | basics/pip_namexp.c:87-102 | when task 0's import can return, it returns task 0's own pointer, the counter is ntasks, and every task has exported in this and all earlier sweeps |
| NamedOrder.ExportedInOrder | basics/pip_namexp.c:80-118 | in every run the exports of a forward sweep are those of tasks 0, 1, ..., nt-1 and those of a backward sweep of tasks 0, nt-1, ..., 1, sweep after sweep, 2*niters*nt in all |
| NamedOrder.EveryTaskWorks | basics/pip_namexp.c:80-118 | each task takes the steps of its loop in order, task 0 with both its checks in every sweep, and all of them by its end |
| NamedOrder.AddsOne | basics/pip_namexp.c:109-115 | a task adds 1 to whatever its pointer leads to |
| NamedOrder.WrongIsNoticed | basics/pip_namexp.c:84-102 | in any state, another pointer, another count or a name exported before makes the CHECK fail, and nothing else does |
| NamedRing.OwnerIsThere | basics/pip_namexp.c:105-115 | whenever a task follows the pointer, it points to task 0's counter and task 0 is waiting in its import |
| NamedRing.OwnerMayGo | basics/pip_namexp.c:78-124 | when task 0 is done, whoever is not is inside its last wait and may leave it |
| NamedRing.BarrierOutlived | basics/pip_namexp.c:69-124 | for any number of tasks and iterations and any task but task 0, a run in which it is still inside its last wait when task 0 is done |
| NamedRing.NeverStuck | basics/pip_namexp.c:78-121 | the ring never stops before everybody is through |
| NamedRing.EveryRun | basics/pip_namexp.c:78-121 | runs are finite, no CHECK fails, no name is exported twice, and at the end every name of every sweep has been exported |
| NamedRingProgram.Program.constructor | basics/pip_namexp.c:59-77 | every task points to its own counter |
| NamedRingProgram.Program.Execute | basics/pip_namexp.c:78-121 | one step in place is one step of the machine |
| NamedRingProgram.RunRing | basics/pip_namexp.c:59-121 | any schedule: no CHECK fails, and task 0 compares its own pointer and ntasks |
| SignalRing.StepInv | basics/pip_kill.c:49-81 | every step keeps the invariant |
| SignalRing.TargetIsFree | basics/pip_kill.c:53-79 | the target of a kill has its signals blocked and none pending |
| SignalRing.OneSignal | basics/pip_kill.c:49-81 | at most one signal is pending anywhere, it is the round's, and pipid_sender names the predecessor of its target |
| SignalRing.AllBlocked | basics/pip_kill.c:132-178 | past the first barrier everybody has the signals blocked |
| SignalRing.RunReceives | basics/pip_kill.c:152-182 | no signal is lost or taken out of turn: a party receives the signals of its rounds in order |
| SignalOrder.ReceivedInOrder | basics/pip_kill.c:49-81 | in every run the signals of round r are received by tasks 0, 1, ..., nt-1 and then by root, and are SIGUSR1 in even rounds and SIGUSR2 in odd ones |
| SignalOrder.EveryPartyWorks | basics/pip_kill.c:49-81 | each party takes the steps of its loop in order, both checks included, and all of them by its end |
| SignalOrder.WrongIsNoticed | basics/pip_kill.c:56-75 | in any state, the checks fail exactly on a sender other than the one before, and on the wrong signal |
| SignalOrder.LossIsNoticed | basics/pip_kill.c:53-79 | in any state, a kill is recorded as handled exactly if its target has not blocked it, and as merged exactly if one of its kind is pending |
| SignalRing.NeverStuck | basics/pip_kill.c:150-185 | the ring never stops before everybody is through |
| SignalRing.EveryRun | basics/pip_kill.c:132-185 | runs are finite, no CHECK fails, no signal is merged or handled, and everybody who is through has received SIGUSR1 and SIGUSR2 in turn, niters times each |
| SignalRingProgram.Program.constructor | basics/pip_kill.c:139-141 | nobody has blocked or received anything |
| SignalRingProgram.Program.Execute | basics/pip_kill.c:132-185 | one step in place is one step of the machine |
| SignalRingProgram.Program.Send | basics/pip_kill.c:79-79 | a blocked signal is left pending, any other is handled |
| SignalRingProgram.RunRing | basics/pip_kill.c:132-185 | any schedule: no CHECK fails, no signal is lost or handled, at most one is pending, and whoever is done has received SIGUSR1 and SIGUSR2 in turn, niters times each |
| LockedCount.StepInv | porting/spinlock.c:55-155 | every step keeps the invariant |
| LockedCount.WorkSum | porting/spinlock.c:75-91 | after the reset the counter is the sum of what the threads have added and not taken back |
| LockedCount.FreeLockSum | porting/spinlock.c:72-92 | while the lock is free, that is the sum over the threads between their two critical sections |
| LockedCount.Exclusion | porting/spinlock.c:75-91 | two threads are never in critical sections at once |
| LockedCount.WorkSeen | porting/spinlock.c:142-145 | main reads 0 |
| LockedWork.EveryThreadWorks | porting/spinlock.c:55-105 | in every run each thread takes the steps of both its loops in order; when it is done, or main has read the counter and passed its barriers, it has taken all of them, niters times adding and taking back in each loop |
| LockedWork.RaceAdds | porting/spinlock.c:59-63 | thread id adds or takes away id+10, whatever the counter holds |
| LockedWork.MainJoinsAll | porting/spinlock.c:151-155 | when main is done all threads are |
| LockedWork.NonzeroIsNoticed | porting/spinlock.c:145-155 | from any state: if main reads the counter and gets to its end, its last CHECK fails exactly if what it read was not 0 |
| LockedOutcomes.GivesUpExactlyIfSeveral | porting/spinlock.c:136-136 | in some run the race leaves a zero and main gives up, if and only if there is more than one thread |
| LockedOutcomes.FinishesExactlyIf | porting/spinlock.c:128-156 | in some run all come to the end, if and only if there is one thread or an iteration to race in |
| LockedCount.NeverStuck | porting/spinlock.c:55-155 | when nothing but failing trylocks can happen, everybody is done or main has given up at its first check |
| LockedCount.StepRank | porting/spinlock.c:55-155 | every step but a failing trylock, which changes nothing, brings the end nearer |
| LockedCount.EveryRun | porting/spinlock.c:128-155 | whatever the races leave behind, main's last CHECK holds, and useful steps are bounded |
| LockedCountProgram.Program.constructor | porting/spinlock.c:118-127 | free lock, main yet to reset the counter |
| LockedCountProgram.Program.Execute | porting/spinlock.c:55-155 | one step in place is one step of the machine |
| LockedCountProgram.RunThreads | porting/spinlock.c:118-155 | any schedule: main has seen 0 and its last CHECK does not fail, and when it comes to it each thread has taken all steps of both its loops |
| BarrierRounds.ReadsAreRight | basics/pip_barrier.c:102-109 | whoever checks in round i reads i, and after the loop the counter is niters |
| BarrierRounds.NoOverlap | basics/pip_barrier2.c:82-108 | nobody writes while another writes or reads |
| BarrierRounds.RunWrites | blt/pip_barrier.c:65-70 | the writers of a run are the tasks 0, 1, ..., ntasks-1 in turn, one for each round |
| BarrierWork.WritersTakeTurns | basics/pip_barrier.c:106-106 | the m-th addition of a run is that of task m % ntasks, and there have been as many as the counter says |
| BarrierWork.EveryPartyWorks | basics/pip_barrier.c:102-108 | each party checks the counter and passes two barriers in iteration 0, 1, and so on, and in all niters by its end |
| BarrierWork.LastCheckIsMade | basics/pip_barrier2.c:88-99 | the last comparison is made once by root, where it takes part and after all tasks have ended, or else by task 0, and by nobody else |
| BarrierWork.AddsOne | basics/pip_barrier.c:106-106 | the writer adds 1 to whatever the counter holds |
| BarrierWork.WrongIsNoticed | basics/pip_barrier2.c:83-99 | in any state, the checks fail exactly on another value |
| BarrierRounds.StepInv | basics/pip_barrier.c:102-109 | every step keeps the invariant, in all three programs |
| BarrierRounds.NeverStuck | basics/pip_barrier2.c:82-108 | nobody is left at a barrier |
| BarrierRounds.EveryRun | basics/pip_barrier.c:98-109 | runs are finite, no CHECK fails, the counter ends at niters, and all have waited equally often |
| BarrierRounds.OwnerMayGo | blt/pip_barrier.c:65-74 | when task 0 is through its loop nobody follows the pointer to its counter, and whoever is not through is in its last wait and may leave it |
| BarrierRounds.BarrierOutlived | blt/pip_barrier.c:50-75 | for any number of tasks, at least one iteration and any task but task 0, a run in which it is still inside its last wait when task 0 is done |
| BarrierRounds.OutlivesExactlyIfAlone | blt/pip_barrier.c:50-75 | in every run nobody is inside the barrier once task 0 is done, if and only if there is no other task or no iteration |
| BarrierRoundsProgram.Program.constructor | blt/pip_barrier.c:50-64 | the counter is 0 and everybody is at its loop |
| BarrierRoundsProgram.Program.Execute | blt/pip_barrier.c:65-73 | one step in place is one step of the machine |
| BarrierRoundsProgram.RunRounds | basics/pip_barrier2.c:82-108 | any schedule: no CHECK fails, and at the end the counter is niters and all have waited equally often |
| PageTouches.EverythingMapped | compat/pagefault.c:84-112 | whoever stores finds every page published and none unmapped |
| PageWork.StoresInOrder | compat/pagefault.c:84-112 | a task stores to the pages from its own on to the last and then from the first on, root from the first to the last, and all of them before it unmaps |
| PageWork.RootUnmapsLast | compat/pagefault.c:88-114 | root unmaps its page only when all tasks have ended |
| PageWork.FaultIsNoticed | compat/pagefault.c:84-114 | in any state, a store fails exactly if there is no mapped page behind its entry, and munmap exactly if the page is not mapped |
| PageTouches.StepInv | compat/pagefault.c:64-114 | every step keeps the invariant |
| PageTouches.NeverStuck | compat/pagefault.c:84-114 | nobody is left at a barrier or in a wait |
| PageTouches.EveryRun | compat/pagefault.c:64-114 | no store faults, no munmap fails, everybody stores to every page exactly once, and no page stays mapped |
| PageTouchesProgram.Program.constructor | compat/pagefault.c:64-103 | nothing is mapped or published |
| PageTouchesProgram.Program.Execute | compat/pagefault.c:64-114 | one step in place is one step of the machine |
| PageTouchesProgram.RunParties | compat/pagefault.c:64-114 | any schedule: no store faults, no munmap fails, and at the end everybody has stored to every page once and nothing is mapped |
| TestRunner.Script.RunList | test.sh:446-657 | a run of the script, with its includes going through the summary file, counts exactly what a direct fold over the whole tree counts |
| TestRunner.Script.RunModes | test.sh:480-612 | one command is counted under each mode up to and including the first KILLED |
| TestRunner.RunInOrder | test.sh:446-614 | a list runs in order up to its own first KILLED command |
| TestRunner.IncludeGoesOn | test.sh:451-465 | a KILLED inside an included list does not stop the list that includes it |
| TestRunner.IncludeIsPaste | test.sh:451-465 | including a list runs what pasting its lines would, unless one of its own commands is KILLED |
| TestRunner.CommandRuns | test.sh:480-612 | a command is run under one mode after the other up to and including the first exit 7 |
| TestRunner.RunsNothing | test.sh:446-467 | blank lines, comments, missing includes and empty includes run nothing |
| TestRunner.CountersMean | test.sh:500-512 | the counters are the numbers of exits with 0, 1, 2, 3, 4 or no result, 5, 6 and 7 |
| TestRunner.TotalIsRuns | test.sh:184-185 | the printed total is the number of (command, mode) pairs run |
| TestRunner.ExitMeans | test.sh:640-645 | without a threshold the exit is PASS if and only if something passed and nothing was FAIL, UNRESOLVED or KILLED; it is KILLED if and only if something was |
| TestRunner.ThresholdMeans | test.sh:647-657 | the same with a threshold |
| TestRunner.ExitStatusMeans | test.sh:640-657 | by exit numbers: 7 exactly if something exited with 7; 0 exactly if something exited with 0, nothing with 7, and there is nothing but 0, 2, 3, 5 and 6 or fewer failures than the threshold; else 1 |
| CoreBinding.NthCore | basics/corebind.c:59-69 | the core returned is in the set and has exactly nth modulo ncores members below it |
| CoreBinding.NthIsUnique | basics/corebind.c:59-69 | number and core determine one another |
| CoreBinding.Spread | basics/corebind.c:98-118 | ncores tasks in a row get different cores, and every core gets one |
| CoreBinding.Root.FillCpuset | basics/corebind.c:36-57 | the set filled is the set of cores that can be bound to, and the affinity is as before |
| CoreBinding.Root.SpawnAll | basics/corebind.c:97-118 | bound directly or by inheritance, task i has the affinity of core number i |
| CoreBinding.CheckTask | basics/corebind.c:133-147 | a task's check passes where root has put it, and for no other task less than ncores away |

## Left out

- The PiP library (spawn, wait, couple, TLS and the rest): its code is not part of this model.
- `porting/atomic.c`: its sum invariant is the one of `LockedCount` without the lock.
- `compat/realloc-x.c`, `compat/memalign-x.c`, `blt/pip_mutex.c`, `pthread/pthread_mutex.c`: the same protocols as chosen programs, or easier ones.
- Failing library calls other than the ones named in the table: the steps of the machines are calls that succeed. Transfers that fail or stop are in `SeekTransfer`; in `SeekTurns` a read may also meet the end of the file.
- Termination under unfair schedulers where a program retries: in `MallocProgress` and `LockedCount` the useful steps of a run are bounded, and one can always be had; nothing makes a scheduler choose it.
- MallocSlots.EveryRun: starts when task 0 has exported the counter, the slots and the barrier; the imports that wait for this are not steps. The sizes asked of malloc do not matter to the model, and malloc never returns NULL.
- ForkReap.EveryRun: starts when task 0 has cleared and exported the table. nfork is positive, as it is without a negative argument. The children themselves only exit. A wait() interrupted by a signal and tried again is no step.
- NamedRing.EveryRun: needs two tasks or more, as the program does (line 54); the imports and exports before the first barrier are not steps.
- SignalRing.EveryRun: niters is a parameter (line 113 reads it from the wrong argument). The kills that are meant to be refused (lines 135-137 and 173-174) and the spawns are not steps; any party may come to its mask and the first barrier at any time.
- LockedCount.EveryRun: main's check that the race has left a trace (line 136) may end the program in the model, too; when it can is in `LockedOutcomes`. `ncols` is not kept.
- PageTouches.EveryRun: root's page need not be mapped before the tasks start, which allows more runs than the program has.
- FdTables.Launcher.Setup: descriptors are named by their purpose, 0 and 1 being different from those of the pipes, and every process has its own table, as in PiP's process mode.
- SeekVariants.BarrierStdinMode: with one task and one iteration at least, as the program makes sure. Opening the stream does not fail.
- TestRunner.Script.RunList: a list comes with its includes looked up, so that lists that include themselves are not covered; logs, XML, widths, times and the probing of modes are left out.
- PipelineAsWritten.PassesExactlyIfHarmless: a read() of the file may return any number of bytes up to what is asked for; a regular file returns less only where it ends or when the read is interrupted. Without such reads some more files with zero bytes pass all comparisons, such as the three bytes `\0ab`; `PipelineLag.WholeCleanExactlyIfTiny` says what happens to them.
- PipelineAsWritten.Fails: the same; for texts `PipelineLag.TextFails` does without such reads.
- PipelineLag.WholeCleanExactlyIfTiny: for pipes that hold one block of the file; smaller ones are covered where the file may be read in smaller pieces (`CleanExactlyIfTiny`).
- Pipeline.StepFlows: SIGPIPE ends one task only, as in PiP's process mode, and root waits for a task so ended as for any other. What follows a failed comparison, which ends the program, is not modelled.
- CoreBinding.NthCore: pipids are not negative and the set is not empty; on an empty one the program divides by zero.
- `utils/timer.c`, build files, list files, `pips` and the compatibility smoke tests: build plumbing, I/O and foreign calls.
