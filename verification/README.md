# Verified models of SPDK tools

This project models the logic of several SPDK programs in Dafny and proves what they
promise, for every input and every run:

- the asynchronous copy engine of `spdk_dd` (modules `DdModel`, `DdAccounting`,
  `DdTally`, `DdBuffers`, `DdChunks`, `DdCopy`, `DdProgress`, `DdSparse`, `DdLength`,
  `DdSeekQueue`, `DdSeekHang`, `DdSeekRuns`, `DdRuns`, `DdReport`, `DdSetup`, `DdEngine`);
- the trace recorder and its converged trace file (`TraceRecorder`, `TraceAggregate`);
- the worker loop of `spdk_nvme_perf` and its worker assignment (`PerfWorker`,
  `PerfAssign`);
- the legacy virtio ring (`Vring`), the latency histogram and the script that prints it
  (`Histogram`), and the walk over the ANA log page of `spdk_nvme_identify` (`AnaWalk`).

`Arith` and `ByteOrder` hold shared arithmetic and byte encodings.

## How the copy engine is modelled

`DdModel.State` is `g_job` with its contexts, `g_error` and `g_interrupt`. Each callback
of the source is a function from state to state; `DdEngine.Job` is the same code as a
class that updates its fields in place, and every method is proved equal to its function.
What the program does not decide is in the events: the device moves the bytes of a
transfer one by one in any order and at any time between submission and completion,
completions arrive in any order, a submission or a seek may fail, the status poller ticks
and the interrupt arrives between any two steps. A run is the launch loop of `dd_run`
followed by any sequence of enabled events.

Three modes share the copy chain: dense copies, sparse copies from a file (`lseek`), and
sparse copies from a bdev (asynchronous seeks and the seek queue). What is proved about
positions and counts (claims, cursor, seek queue, operations in flight, exits, totals)
holds in every run, whatever fails, whatever a completed transfer has really moved, and for
every output block size. The theorems about the data assume that a completed transfer moved
its bytes (`FaithfulRun`), because the completion callbacks do not look at `success`, and
that holes begin and end on output blocks (`Aligned`), that the region is `Contained` and
that output blocks fit the buffers (`BlocksFit`); each of these conditions is the exact one
of a theorem below or a property of the input. Errors, interrupts and refused submissions
are part of all runs. A transfer that is longer than its buffer is submitted and completed
like any other; what it does beyond the buffer is undefined and not modelled.

## What turned out to be false

The code is modelled as it is. Where a promise fails, the exact condition is proved.

- `--sparse` with `--count`: a data seek can carry the cursor over the end of the region.
  It stays inside if and only if the region is empty, ends with data, is followed directly
  by data, or is followed by no data (`DdSparse.StaysInRegionIff`; an input in
  `DdSparse.CopyLeavesRegion`).
- A sparse copy of an empty region leaves a fresh output file empty even if the copy was
  to start at a positive offset (`DdSparse.SparseFileCopy`; an accepted request in
  `DdSparse.EmptyCopyIsShort`).
- A sparse copy of part of a file does not always give a shorter output file its full
  length: it does if and only if the region does not end with a hole that is followed
  directly by data (`DdLength.SparseCopyIsLongIff`; an input in
  `DdLength.CutInHoleIsShort`). Sparse copies from a bdev always do
  (`DdLength.BdevCopyIsLong`).
- A failed `lseek` is an error only for the last context in flight; otherwise it is lost,
  and the copy can still end without an error (`DdReport.LostSeek`,
  `DdReport.ErrorIsTheAnswer`).
- After an interrupt the total lacks the bytes since the last tick if the last context stops
  before its read (`DdReport.HaltedWindsDown`).
- A sparse copy from a bdev without errors reaches `dd_exit` in all its runs if and only if
  it has at most two contexts, no data in its region, or data at the very end
  (`DdSeekHang.AlwaysExitsIff`). Otherwise contexts can be left waiting with nothing in
  flight, and for every depth from three on the program accepts such a request
  (`DdSeekHang.ThreeContextsMayHang`).
- The seek callbacks skip the decrement after an error or an interrupt. A sparse copy from a
  bdev that is interrupted with something in flight ends with `dd_exit` if and only if no
  seek was in flight (`DdSeekHang.InterruptExitsIff`); every such copy has a run in which
  one is (`DdSeekHang.InterruptedLaunchNeverExits`). After the step that brings the first
  error it ends with `dd_exit` if and only if that step has already called it, or has left
  something in flight but no seek (`DdSeekHang.HaltedRunExitsIff`).
- A sparse copy from a bdev can start a seek after `dd_exit`, when the bdev is being closed:
  if and only if the only operation in flight is a hole seek, the transfer for its chunk is
  refused, others wait and input is left (`DdSeekRuns.SubmitsAfterExitIff`; it happens in
  `DdSeekRuns.LateSeekHappens`).
- `dd_exit` is not called exactly once by every copy. A dense copy or a sparse copy of a
  file calls it once if and only if it has one context or its first context submits
  something, and otherwise once per context (`DdAccounting.ExitsOnceIff`). The queue-depth
  clamps leave one context to a dense copy with nothing to copy
  (`DdSetup.PreparedCopyExitsOnce`), but not to a sparse copy without data: a file that is
  one hole makes both contexts of the default depth exit (`DdSetup.HoleFileExitsTwice`).
- For an input file a start in the unit behind its end is accepted and clamps the depth to
  zero, so that nothing is copied and no context ever calls `dd_exit`
  (`DdSetup.DepthZeroIff`, `DdSetup.NoContextsNoCopy`; a request in
  `DdSetup.SkippedInputLeavesNoContext`).
- `dd_run` checks that the I/O unit is a multiple of the block size for an input bdev only.
  The transfers of a dense copy stay inside their buffers in all its runs if and only if the
  output block size divides the unit, or the whole copy is shorter than a unit and fits
  rounded up (`DdBuffers.TransfersFitIff`; an accepted request that overruns in
  `DdBuffers.AcceptedCopyOverruns`). Those of a sparse copy do if and only if each of its
  chunks, which are the same in every run, fits rounded up
  (`DdChunks.SparseTransfersFitIff`, `DdChunks.BdevTransfersFitIff`).
- The recorder takes a zero time stamp for "nothing recorded yet"; when a recorded one is
  zero it copies entries twice (`TraceRecorder.CopiedIsWindowIff`,
  `TraceRecorder.ZeroStampRecordsTwice`). The producer replaces a zero stamp by the tick
  count, so this input needs a tick count of zero and is hypothetical on real hardware.
- An I/O budget given in percent is not compared with the queue depth, and a budget below
  it trips the assertion of `submit_single_io` (`PerfWorker.BudgetIff`,
  `PerfWorker.PercentBudgetTrips`).
- The C iterator computes the end of a bucket in 64 bits. The last bucket of a histogram up
  to 2^64, as the default one is, ends at zero, so that a data point is reported in its own
  range if and only if it is neither above the largest range nor in that bucket
  (`Histogram.TallyIsReportedIff`; for the default histogram these are the data points from
  2^64 - 2^56 on, `Histogram.DefaultMisreportsIff`).
- `histogram.py` prints the first row of a histogram with `min_range > 0` with wrong ranges
  and has no row for the largest range (`Histogram.ScriptPrintsIff`,
  `Histogram.ScriptMisprints`).

## Model

| member | source | states |
|---|---|---|
| `DdEngine.Job.constructor` | spdk/app/spdk_dd/spdk_dd.c:1171-1187 | the job before the launch: idle contexts of whole-unit length, nothing counted, the cursor at the start |
| `DdEngine.Job.ShowProgress` | spdk/app/spdk_dd/spdk_dd.c:216-233 | the bytes since the last tick move to the total |
| `DdEngine.Job.FinalizeTarget` | spdk/app/spdk_dd/spdk_dd.c:287-315 | the last context out lengthens the output file, adds up the total and exits |
| `DdEngine.Job.TargetWrite` | spdk/app/spdk_dd/spdk_dd.c:349-404 | new state of the write callback, with its stop and refusal paths |
| `DdEngine.Job.TargetRead` | spdk/app/spdk_dd/spdk_dd.c:421-466 | new state of the read callback |
| `DdEngine.Job.TargetPopulateBuffer` | spdk/app/spdk_dd/spdk_dd.c:482-549 | the claim from the shared cursor and the choice between populate and read |
| `DdEngine.Job.SeekInFile` | spdk/app/spdk_dd/spdk_dd.c:551-589 | data and hole seeks of an input file, with their error paths |
| `DdEngine.Job.TargetSeek` | spdk/app/spdk_dd/spdk_dd.c:711-778 | new state of the seek callback in all three modes |
| `DdEngine.Job.CompletePoll` | spdk/app/spdk_dd/spdk_dd.c:780-801 | the completion step; in all modes, also after errors, `outstanding > 0` holds whenever it happens |
| `DdEngine.Job.BdevSeekDataDone` | spdk/app/spdk_dd/spdk_dd.c:592-646 | new state after a data seek; the assertion follows from the order of the queue |
| `DdEngine.Job.BdevSeekHoleDone` | spdk/app/spdk_dd/spdk_dd.c:649-708 | new state after a hole seek, including the start of the next seek; the assertion follows from the order of the queue |
| `DdEngine.Job.LaunchAll` | spdk/app/spdk_dd/spdk_dd.c:1244-1246 | the loop that starts every context |
| `DdEngine.Job.Handle` | spdk/app/spdk_dd/spdk_dd.c:592-801 | one event in any mode is the step function and keeps the count of operations in flight or the order of the queue |
| `DdEngine.Job.RunProgram` | spdk/app/spdk_dd/spdk_dd.c:348-801 | after any run, in any of the three modes, that exits without error or interrupt the total is the number of bytes to copy, and the output is the copy if the transfers really happened |
| `DdModel.NextData` | spdk/app/spdk_dd/spdk_dd.c:551-573 | the contract of `SEEK_DATA`: the first data byte, or none |
| `DdModel.NextHole` | spdk/app/spdk_dd/spdk_dd.c:575-589 | the contract of `SEEK_HOLE`: all bytes before it are data |
| `DdAccounting.StepKeeps` | spdk/app/spdk_dd/spdk_dd.c:348-549 | every step, also after errors, keeps the count of operations in flight, calls `dd_exit` at most once and only with nothing in flight, and uses up a measure |
| `DdAccounting.LaunchKeeps` | spdk/app/spdk_dd/spdk_dd.c:1244-1246 | the launch leaves something in flight, or every context has called `dd_exit` |
| `DdAccounting.InFlightAccounting` | spdk/app/spdk_dd/spdk_dd.c:359-465 | in every reachable state outside bdev-sparse mode, for every output block size, `outstanding` is the number of operations in flight, at most the queue depth, and nothing is in flight after `dd_exit`; transfers fit their buffers if the output block size divides the unit |
| `DdAccounting.RunsAreFinite` | spdk/app/spdk_dd/spdk_dd.c:481-549 | the number of device moves and completions of every run is bounded by the input |
| `DdAccounting.QuiescentRunHasExited` | spdk/app/spdk_dd/spdk_dd.c:359-372 | a run with nothing left in flight has called `dd_exit`, once unless the launch found nothing to do |
| `DdAccounting.ExitsOnceIff` | spdk/app/spdk_dd/spdk_dd.c:359-502 | a dense copy or a sparse copy of a file that is at rest has called `dd_exit` once if and only if it has one context or its first context submitted something, and otherwise once per context |
| `DdAccounting.LaunchIdlesIff` | spdk/app/spdk_dd/spdk_dd.c:1244-1246 | when the launch leaves nothing in flight, exactly: interrupt, nothing to copy, a refused submission, a failed seek, or no data before the end of the region |
| `DdCopy.RoundedDisjoint` | spdk/app/spdk_dd/spdk_dd.c:352-356 | rounded-up transfers of disjoint claims are disjoint on the output |
| `DdCopy.MoveCopies` | spdk/app/spdk_dd/spdk_dd.c:318-332 | every byte the device moves keeps the copy invariant |
| `DdCopy.CompleteCopies` | spdk/app/spdk_dd/spdk_dd.c:780-801 | every completion of a finished transfer keeps the copy invariant |
| `DdCopy.CopyIsSafe` | spdk/app/spdk_dd/spdk_dd.c:348-549 | at every moment of every run whose completed transfers really happened, through errors and interrupts, an output byte is the original or, inside the region, the input's; no byte outside the region changes |
| `DdCopy.CopyIsCorrect` | spdk/app/spdk_dd/spdk_dd.c:348-549 | a run that exits without error or interrupt has copied every byte to copy and left holes and the rest of the last block alone |
| `DdTally.ClaimsTile` | spdk/app/spdk_dd/spdk_dd.c:485-505 | in every reachable state, whatever failed and whatever the transfers did, the claims are disjoint, in order, hold exactly the bytes to copy that the cursor has passed, and in a dense copy are whole units except at the end; the counters account for all of them |
| `DdTally.TotalIsExact` | spdk/app/spdk_dd/spdk_dd.c:230-244 | the reported total of a copy without error is the number of bytes to copy, however the ticks fall |
| `DdBuffers.FittingRun` | spdk/app/spdk_dd/spdk_dd.c:352-356 | when output blocks fit and the region is contained, every transfer of every run fits its buffer |
| `DdBuffers.FirstTransferOverruns` | spdk/app/spdk_dd/spdk_dd.c:513-517 | when output blocks do not fit, the first transfer of every dense copy is longer than its buffer |
| `DdBuffers.TransfersFitIff` | spdk/app/spdk_dd/spdk_dd.c:517-517 | in every reachable state of a dense copy every transfer fits its buffer, if and only if the block size divides the unit or the whole copy is shorter and fits rounded up |
| `DdBuffers.AcceptedCopyOverruns` | spdk/app/spdk_dd/spdk_dd.c:1157-1169 | a request that is accepted and whose only transfer is longer than its buffer |
| `DdChunks.SparseTransfersFitIff` | spdk/app/spdk_dd/spdk_dd.c:513-517 | in every reachable state of a sparse copy of a file every transfer fits its buffer, if and only if each of its chunks fits rounded up |
| `DdChunks.BdevTransfersFitIff` | spdk/app/spdk_dd/spdk_dd.c:676-686 | the same for sparse copies from a bdev |
| `DdProgress.SomeRunSucceeds` | spdk/app/spdk_dd/spdk_dd.c:348-549 | every copy that is not a bdev-sparse one has a run that ends with `dd_exit` and without error, and whose transfers really happen |
| `DdSparse.SparseFileCopy` | spdk/app/spdk_dd/spdk_dd.c:710-754 | a sparse copy to a fresh file leaves exactly the input region behind the offset, or nothing for an empty region |
| `DdSparse.EmptyCopyIsShort` | spdk/app/spdk_dd/spdk_dd.c:710-734 | an accepted sparse copy of an empty region that leaves the output file shorter than its offset |
| `DdLength.DenseFileCopy` | spdk/app/spdk_dd/spdk_dd.c:348-549 | a dense copy to a fresh file leaves exactly the input region behind the offset |
| `DdLength.SparseCopyIsLongIff` | spdk/app/spdk_dd/spdk_dd.c:287-315 | a sparse copy of a file that ended without error has given a shorter output file the length of the region if and only if that does not end with a hole directly before data; exactly that length if it ends with a hole |
| `DdLength.CutInHoleIsShort` | spdk/app/spdk_dd/spdk_dd.c:495-502 | an input whose copy ends without error and leaves the file too short |
| `DdLength.BdevCopyIsLong` | spdk/app/spdk_dd/spdk_dd.c:287-315 | a sparse copy from a bdev to a file that ended without error has given the file its full length, and no more if the input ends with a hole |
| `DdLength.BdevSparseFileCopy` | spdk/app/spdk_dd/spdk_dd.c:591-646 | to a fresh file it leaves exactly the input region behind the offset |
| `DdSparse.RunStaysInRegionIff` | spdk/app/spdk_dd/spdk_dd.c:485-505 | a run without error has kept its claims inside the region if and only if the data around its end is `Contained` |
| `DdSparse.StaysInRegionIff` | spdk/app/spdk_dd/spdk_dd.c:485-505 | no state of any run of a sparse copy has a claim outside the region, if and only if the data around its end is `Contained` |
| `DdSparse.CopyLeavesRegion` | spdk/app/spdk_dd/spdk_dd.c:485-505 | an input and a run without error that copies from behind the region |
| `DdSeekQueue.StepOrdered` | spdk/app/spdk_dd/spdk_dd.c:591-766 | every step of a sparse copy from a bdev, through errors and failed transfers, keeps the order of the queue, the claims and the count of operations in flight |
| `DdSeekQueue.CursorNeverGoesBack` | spdk/app/spdk_dd/spdk_dd.c:629-630 | no step moves the input cursor back |
| `DdSeekQueue.SeekQueueProtocol` | spdk/app/spdk_dd/spdk_dd.c:591-766 | in every reachable state at most one seek is in flight and it is the head's, queue and copy chain are disjoint, claims are disjoint and skip only holes, and what is in flight is counted, exactly until the first error |
| `DdSeekQueue.BdevStepCopies` | spdk/app/spdk_dd/spdk_dd.c:591-766 | every step whose completed transfer really happened keeps the copy invariant |
| `DdSeekQueue.BdevCopyIsCorrect` | spdk/app/spdk_dd/spdk_dd.c:591-766 | a sparse copy from a bdev that exits without error, and whose transfers really happened, has copied the data, left the holes, and counted the bytes |
| `DdSeekQueue.BdevTotalIsExact` | spdk/app/spdk_dd/spdk_dd.c:230-244 | its total is the number of data bytes, whatever the transfers did |
| `DdSeekHang.HaltedRunExitsIff` | spdk/app/spdk_dd/spdk_dd.c:601-611 | after the step that brings the first error or the interrupt, a run at rest has called `dd_exit` if and only if that step did, or left something in flight but no seek |
| `DdSeekHang.InterruptExitsIff` | spdk/app/spdk_dd/spdk_dd.c:662-671 | a run that is interrupted with something in flight ends with `dd_exit` if and only if no seek was in flight |
| `DdSeekHang.InterruptDuringSeekNeverExits` | spdk/app/spdk_dd/spdk_dd.c:601-611 | after an interrupt during a seek no continuation calls `dd_exit` |
| `DdSeekHang.ErrorDuringSeekNeverExits` | spdk/app/spdk_dd/spdk_dd.c:601-611 | nor after a refused submission or a flagged completion during a seek |
| `DdSeekHang.InterruptedLaunchNeverExits` | spdk/app/spdk_dd/spdk_dd.c:601-611 | an interrupt right after any launch of a copy from a bdev in which all went well leads to no `dd_exit` in any continuation |
| `DdSeekRuns.BdevRunsAreFinite` | spdk/app/spdk_dd/spdk_dd.c:591-766 | the number of device moves, completions and seeks of every run is bounded by the input and the depth, through errors |
| `DdSeekRuns.StepLateIff` | spdk/app/spdk_dd/spdk_dd.c:686-706 | a step leaves something in flight after `dd_exit` if and only if it is the refused transfer of the only hole seek in flight, with others waiting and input left |
| `DdSeekRuns.SubmitsAfterExitIff` | spdk/app/spdk_dd/spdk_dd.c:686-706 | a run ever has something in flight after `dd_exit` if and only if it has such a step |
| `DdSeekRuns.LateSeekHappens` | spdk/app/spdk_dd/spdk_dd.c:686-706 | such a run for every copy with two contexts, data and a final hole |
| `DdReport.ExitStatusIsError` | spdk/app/spdk_dd/spdk_dd.c:287-315 | in every state of every run, in all modes, the last status given to `dd_exit` is the error, and no transfer is in flight after it |
| `DdReport.ErrorIsTheAnswer` | spdk/app/spdk_dd/spdk_dd.c:348-778 | which answer of the environment becomes the error in each step, exactly |
| `DdReport.HaltedWindsDown` | spdk/app/spdk_dd/spdk_dd.c:359-372 | after an error or an interrupt nothing is claimed, queued or submitted; contexts stop one by one, and the last one exits and adds up the total except before a read |
| `DdReport.LostSeek` | spdk/app/spdk_dd/spdk_dd.c:551-589 | a failed `lseek` of a context that is not the last in flight changes nothing |
| `DdReport.CountersAreExact` | spdk/app/spdk_dd/spdk_dd.c:370-370 | in every state of every run the counters hold exactly the bytes handed to a write, accepted or refused |
| `DdReport.TotalIsShown` | spdk/app/spdk_dd/spdk_dd.c:216-244 | the total grows only with a tick or with the exit of a copy without error, and then holds everything counted |
| `DdReport.OnlyPartialBlocksArePopulated` | spdk/app/spdk_dd/spdk_dd.c:505-517 | in every state of every run a claim of whole output blocks is not read back from the output |
| `DdReport.LaunchQueuesInOrder` | spdk/app/spdk_dd/spdk_dd.c:755-766 | the launch queues the contexts in their order |
| `DdReport.QueueIsFifo` | spdk/app/spdk_dd/spdk_dd.c:591-766 | contexts that wait for a seek are served in the order in which they came |
| `DdSeekHang.BdevQuiescentRunHasExited` | spdk/app/spdk_dd/spdk_dd.c:618-627 | with at most two contexts, no data, or data at the end of the input, nothing in flight means `dd_exit` was called |
| `DdSeekHang.HangingRun` | spdk/app/spdk_dd/spdk_dd.c:618-627 | for every copy with three or more contexts, some data and a final hole, a run without error whose transfers all happen and that ends with nothing in flight and no `dd_exit` |
| `DdSeekHang.ThreeContextsMayHang` | spdk/app/spdk_dd/spdk_dd.c:948-953 | for every depth from three on, a request that the set-up accepts with that depth and that has such a run |
| `DdSeekHang.AlwaysExitsIff` | spdk/app/spdk_dd/spdk_dd.c:755-766 | for every sparse copy from a bdev and every depth: all runs without error come to `dd_exit`, if and only if the depth is at most two, there is no data, or the input ends with data |
| `DdSetup.PrepareIsExact` | spdk/app/spdk_dd/spdk_dd.c:1094-1169 | which requests are refused and with which status, and the positions, sizes, block sizes and depth of an accepted one, exactly |
| `DdSetup.ClampsSuffice` | spdk/app/spdk_dd/spdk_dd.c:896-910 | an accepted request that starts inside the input keeps at least one context, and only one if nothing is to be copied |
| `DdSetup.DepthZeroIff` | spdk/app/spdk_dd/spdk_dd.c:903-910 | when an accepted request is left without any context, exactly |
| `DdSetup.NoContextsNoCopy` | spdk/app/spdk_dd/spdk_dd.c:1244-1246 | without any context nothing is copied and the copy chain never calls `dd_exit` |
| `DdSetup.SkippedInputLeavesNoContext` | spdk/app/spdk_dd/spdk_dd.c:903-910 | an accepted request that is left without any context |
| `DdSetup.PreparedCopyExitsOnce` | spdk/app/spdk_dd/spdk_dd.c:1094-1169 | a dense copy set up by the program calls `dd_exit` exactly once |
| `DdSetup.HoleFileExitsTwice` | spdk/app/spdk_dd/spdk_dd.c:551-573 | an accepted sparse copy of a file that is one hole, whose two contexts both call `dd_exit` |
| `TraceRecorder.ProduceHolds` | spdk/lib/trace/trace.c:36-40 | the producer keeps the ring equal to the end of its history |
| `TraceRecorder.CopiedIsWindow` | spdk/app/trace_record/trace_record.c:346-412 | the one or two slices that a poll copies are exactly the new part of the history, and the count is right |
| `TraceRecorder.TscIsFirstField` | spdk/include/spdk/trace.h:24-30 | the time stamp is the first field of an entry |
| `TraceRecorder.PollFailsIff` | spdk/app/trace_record/trace_record.c:351-360 | a poll without write errors fails if and only if the counter has gone back |
| `TraceRecorder.CopiedIsWindowIff` | spdk/app/trace_record/trace_record.c:366-384 | a poll copies the new part of the history if and only if the zero time stamp is not misread or nothing recorded is left in the ring |
| `TraceRecorder.ZeroStampRecordsTwice` | spdk/app/trace_record/trace_record.c:366-384 | two polls that record an entry with a zero time stamp twice |
| `TraceRecorder.PollAppends` | spdk/app/trace_record/trace_record.c:333-432 | a poll appends that part and keeps count and time stamps equal to those of the file |
| `TraceRecorder.LastIsNewest` | spdk/app/trace_record/trace_record.c:258-270 | the entry before the masked counter is the newest one |
| `TraceRecorder.RecordedInOrder` | spdk/app/trace_record/trace_record.c:386-412 | recorded indices increase strictly, and with the missed ones make up the counter |
| `TraceRecorder.RunRecords` | spdk/app/trace_record/trace_record.c:333-432 | over any run of polls the file is the recorded part of the history in order, and counter, missed entries and time stamps are consistent |
| `TraceRecorder.KeepingUpRecordsAll` | spdk/app/trace_record/trace_record.c:386-412 | a recorder that is never lapped records the whole history |
| `TraceRecorder.LcoreRecorder.Append` | spdk/app/trace_record/trace_record.c:272-330 | the writes of the padding functions append both slices, or fail having written nothing or the first one |
| `TraceRecorder.LcoreRecorder.Record` | spdk/app/trace_record/trace_record.c:333-432 | a successful poll is the poll function; a rollback returns -1; a failed poll keeps the recorded counter and the last time stamp, and has already changed the number of entries, the first time stamp and possibly the file |
| `TraceAggregate.CopyFile` | spdk/app/trace_record/trace_record.c:515-523 | the chunked copy appends the whole lcore file and counts its length |
| `TraceAggregate.Aggregate` | spdk/app/trace_record/trace_record.c:459-540 | the converged file is the header, the offset table, the histories and the owner data |
| `TraceAggregate.LayoutOfFile` | spdk/app/trace_record/trace_record.c:459-540 | header, sizes and owner data are where the header says |
| `TraceAggregate.OffsetReads` | spdk/app/trace_record/trace_record.c:459-470 | the header gives every lcore the offset of its history, or zero |
| `TraceAggregate.AggregateRoundTrip` | spdk/include/spdk/trace.h:166-182 | reading back through the offsets recovers exactly the entries of each lcore, and no history for the others |
| `TraceAggregate.HeaderIsKept` | spdk/app/trace_record/trace_record.c:511-525 | at its recorded offset every traced lcore has its own history header, unchanged but for the number of entries, and then the bytes of its file |
| `TraceAggregate.RecordedHistoryIsReadBack` | spdk/app/trace_record/trace_record.c:436-548 | from producer to reader: a recorder that keeps up gives back exactly the history |
| `PerfWorker.NsWorkerCtx.SubmitSingleIo` | spdk/app/spdk_nvme_perf/perf.c:1406-1460 | new state of a submission, accepted, queued or freed |
| `PerfWorker.NsWorkerCtx.CompleteTask` | spdk/app/spdk_nvme_perf/perf.c:1463-1504 | new state of a completion, freed when draining, submitted again otherwise |
| `PerfWorker.NsWorkerCtx.SubmitIo` | spdk/app/spdk_nvme_perf/perf.c:1551-1559 | the first loop, without a failed assertion when the budget covers the depth |
| `PerfWorker.NsWorkerCtx.RetryQueued` | spdk/app/spdk_nvme_perf/perf.c:1703-1716 | the loop over the swapped-out queue, which stops submitting when draining begins |
| `PerfWorker.StepKeeps` | spdk/app/spdk_nvme_perf/perf.c:1406-1504 | every step conserves I/O tasks and budget; draining is never cleared and nothing is submitted after it |
| `PerfWorker.TasksAreConserved` | spdk/app/spdk_nvme_perf/perf.c:1406-1559 | in every state of every run, allocated = in flight + queued + freed, the depth counts those in flight, and submitted = completed + depth |
| `PerfWorker.DepthIsKept` | spdk/app/spdk_nvme_perf/perf.c:1496-1503 | while nothing drains and the driver accepts everything, the depth stays the configured one, nothing is freed, and submitted = depth + completed |
| `PerfWorker.NoTaskIsLost` | spdk/app/spdk_nvme_perf/perf.c:1440-1456 | before draining, whatever the driver answers, every task is in flight or queued if errors are to be survived, and none is queued otherwise |
| `PerfWorker.CompletionReplaces` | spdk/app/spdk_nvme_perf/perf.c:1463-1504 | what becomes of a completed task: in flight again, last in the queue, or freed, exactly |
| `PerfWorker.StepDrainsIff` | spdk/app/spdk_nvme_perf/perf.c:1457-1459 | draining begins with the end of time, a lost device or the end of the budget, and for no other reason |
| `PerfWorker.InitialOutcome` | spdk/app/spdk_nvme_perf/perf.c:1551-1559 | where the first loop leaves each task, and the refused ones in order |
| `PerfWorker.RetryKeepsOrder` | spdk/app/spdk_nvme_perf/perf.c:1703-1716 | a retry leaves in the queue, in order, exactly the tasks that still wait, and touches no other |
| `PerfWorker.RetryEmptiesQueue` | spdk/app/spdk_nvme_perf/perf.c:1703-1716 | an accepted retry within the budget empties the queue and raises the depth by its length |
| `PerfWorker.BudgetIsKept` | spdk/app/spdk_nvme_perf/perf.c:1457-1459 | with a budget of at least the depth no run submits more, and the assertion never fails |
| `PerfWorker.BudgetIff` | spdk/app/spdk_nvme_perf/perf.c:1551-1559 | the first loop keeps the assertion for every answer of the driver if and only if there is no budget or it covers the depth |
| `PerfWorker.PercentBudgetTrips` | spdk/app/spdk_nvme_perf/perf.c:3097-3103 | options that are accepted and still trip the assertion |
| `PerfWorker.DrainLoop` | spdk/app/spdk_nvme_perf/perf.c:1777-1793 | the drain loop ends by itself exactly when every depth is zero, and then all that was submitted has completed |
| `PerfWorker.CheckIoIsRun` | spdk/app/spdk_nvme_perf/perf.c:1777-1793 | every completion that is reported in a round is handled |
| `PerfWorker.DrainRound` | spdk/app/spdk_nvme_perf/perf.c:1778-1792 | one round, and whether a namespace is left |
| `PerfAssign.Associate` | spdk/app/spdk_nvme_perf/perf.c:3134-3155 | the returned pairs walk both lists in order, wrap around, and are balanced |
| `PerfAssign.AssignmentIsBalanced` | spdk/app/spdk_nvme_perf/perf.c:3134-3155 | in the sequence of pairs all are distinct, every worker and namespace has one, and their numbers of pairs differ by at most one |
| `Vring.NeedEventIff` | spdk/include/linux/virtio_ring.h:192-202 | on wrapped indices the test is true exactly when the batch passes the event index |
| `Vring.TriggersAreCrossings` | spdk/include/linux/virtio_ring.h:192-202 | over any chain of batches the triggering ones are as many as the passes of the event index |
| `Vring.AndHighBits` | spdk/include/linux/virtio_ring.h:176-177 | masking with the complement of a power of two minus one rounds down |
| `Vring.LayoutIsDisjointAndExact` | spdk/include/linux/virtio_ring.h:168-186 | the parts of the ring do not overlap, the used ring is aligned, and the layout ends exactly at `vring_size` |
| `Vring.KnownLayout` | spdk/include/linux/virtio_ring.h:168-186 | the addresses and the size of a ring of 256 descriptors |
| `Histogram.AllocIsAllocated` | spdk/include/spdk/histogram_data.h:233-264 | every histogram that can be allocated has ranges for at most 64 digits; the default one has 58 |
| `Histogram.TallyIsReportedIff` | spdk/include/spdk/histogram_data.h:96-192 | in 64-bit arithmetic the range reported for the bucket of a data point contains it if and only if it is not above the largest range and not in the bucket whose end wraps to zero |
| `Histogram.DefaultMisreportsIff` | spdk/include/spdk/histogram_data.h:150-167 | the data points that the default histogram reports in a range that ends at zero, exactly |
| `Histogram.TallyClamps` | spdk/include/spdk/histogram_data.h:131-146 | data points above the largest range are counted in the last bucket, those below the smallest in the first |
| `Histogram.ScriptMatchesIterator` | spdk/scripts/histogram.py:39-43 | behind the first row the script prints the ranges of the C iterator |
| `Histogram.ScriptPrintsIff` | spdk/scripts/histogram.py:32-43 | which data points the script prints in a range that contains them, exactly |
| `Histogram.ScriptMisprints` | spdk/scripts/histogram.py:42-43 | a data point printed outside its range |
| `Histogram.ScriptWidth` | spdk/scripts/histogram.py:39-43 | bucket widths, and their relative size of at most 2^-granularity behind the first row |
| `Histogram.Report` | spdk/scripts/histogram.py:23-47 | the printed ranges tile the values in order, each row has the counter of its bucket and the sum up to it, and the cumulative count ends one below the total |
| `Histogram.TileUnique` | spdk/scripts/histogram.py:32-43 | every value below the end lies in exactly one printed range |
| `AnaWalk.SizeIsEnoughIff` | spdk/app/spdk_nvme_identify/identify.c:454-462 | the requested page size is enough exactly when groups and namespaces, weighted by size, are at most the announced ones |
| `AnaWalk.EncodedExample` | spdk/app/spdk_nvme_identify/identify.c:2160-2172 | a descriptor byte by byte |
| `AnaWalk.Walk` | spdk/app/spdk_nvme_identify/identify.c:2156-2176 | the walk visits every descriptor in order, decodes it, and never leaves the buffer |

## Left out

- Devices, io_uring, libaio and the bdev layer: an environment that moves bytes and completes operations in any order.
- `dd_uring_poll` calling `dd_exit` on a negative result and continuing, and the exact size check of the AIO poller; a completion may be flagged as an error at any time instead.
- Opening, closing and freeing of targets and buffers, option parsing, and all printing.
- Overlapping input and output targets of a copy.
- The set-up of io_uring and AIO, which may itself call `dd_exit`, in particular for a queue depth of zero; the model starts with the launch of the contexts.
- What a transfer does beyond its buffer: undefined in the source, so no run contains it.
- DdSeekQueue.BdevCopyIsCorrect: states sparse copies from a bdev only up to the end of the input, because with a count the next seek is started past the region.
- Short transfers in `cont_write` and `cont_read`: a write succeeds as a whole or fails.
- The copy of the history header that a poll keeps for the converged file: `TraceAggregate` takes it as given.
- A producer writing during a poll of the recorder: a poll sees one state of the ring. Entries of several slots are produced slot by slot.
- TraceAggregate.AggregateRoundTrip: assumes that each lcore file has the length its counter says, which the recorder guarantees; the source only prints a message otherwise.
- Warm-up and the reset of statistics, the cleanup of queued I/O after the drain loop, latency statistics and data protection in `spdk_nvme_perf`, and `--use-every-core`.
- Vring.LayoutIsDisjointAndExact: does not model the truncation of `vring_size` to 32 bits for queue sizes beyond 2^26.
- Zone reports and the other log pages of `spdk_nvme_identify`; the rest of the repository.
