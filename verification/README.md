# Verification of muduo's base library

Dafny models of the monitors and of the logging stack in `muduo/base`, with proofs about every schedule,
every insertion sequence, every clock and every device. `dafny verify dfyconfig.toml` checks the project.

## What is modelled

**The monitors.** `MutexLock` and its field `holder_`, `CountDownLatch`, `BlockingQueue`, `BoundBlockingQueue`
and `ThreadPool`. Each is a record of values with a set of actions, one per atomic piece of code: a stretch from
lock (or wake-up) to wait or unlock, an unlocked read of `running_`, the beginning or the end of a task.
`Next` executes one action, `Run` any sequence of them; a disabled action changes nothing, so a statement about
every sequence is a statement about every schedule of any number of threads. A notification wakes any
non-empty set of sleepers and spurious wake-ups may happen at any time, as IEEE Std 1003.1-2017 allows
(`pthread_cond_signal`, `pthread_cond_wait`). Beside each record there is a class with the fields of the
original; each method is one of the pieces, proved to do exactly what `Next` says.

**Two clients.** `DrainBarriers` is the protocol of `ThreadPool_test.cc` (start, submit, latch, stop) and
`SentinelShutdown` the one of `BlockingQueue_test.cc` and `BoundBlockingQueue_test.cc`, for any number of
threads and any jobs or data. For both the project proves what holds in every run, that every run makes a
bounded number of steps apart from spurious wake-ups, and the exact condition under which the client cannot get
stuck. Both also exist as programs over the classes (`PoolTest`, `QueueTest`, and `BoundQueueTest` over the ring)
that execute any schedule.

**The logging stack.** `convert` and `convertHex` as loops over a char array, `FixedBuffer` and `LogStream` with
their two admission rules, the record that `Logger` builds, and `LogFile` with its rolling by size and by day.
**`StringPiece`** is modelled on its bytes, with a class for the operations that move the view.

## Findings

- `Condition::wait` does not touch `holder_`, so `assertLocked` can fail for the thread that owns the mutex
  (`MutexLocks.AssertLockedCanFailAfterWait`). After a `wait` it holds exactly when it held before and no other
  thread locked or unlocked meanwhile (`MutexLocks.AssertLockedAfterWaitIff`); over a whole guard, exactly until
  somebody else does (`MutexLocks.AssertLockedInGuardIff`).
- `BoundBlockingQueue` accepts capacity 0, and then producers and consumers all sleep for ever; with any other
  capacity that never happens (`BlockingQueues.DeadlockIffNoCapacity`).
- The client of `ThreadPool_test.cc` finishes under every schedule exactly when fewer jobs throw than there are
  workers, since a throwing job costs its worker; with no workers at all, when the main thread runs the jobs
  itself, exactly when no job throws or is an empty function. Otherwise `latch.wait` returns in no run
  (`DrainBarriers.FinishesIffSurvives`, `DrainBarriers.NeverPasses`).
- The sentinel client finishes exactly when what it puts after the n-th "stop" fits in the queue
  (`SentinelShutdown.FinishesIffFits`), and it consumes everything exactly when the data hold no "stop".
- `formatTime` trusts a zeroed cache. The time of a thread's record is right exactly when the thread has by then
  logged in a second other than 0; before that it is empty, and the length assertion that follows fails
  (`Logging.TimeIsRightIffLeftSecondZero`, with the input in `Logging.TimeIsEmptyInSecondZero`).
- A clock that reads 0 or less leaves `LogFile` without a file (`LogFiles.LogFile.constructor`), and
  `remove_prefix` and `remove_suffix` leave a usable view exactly when there is enough to drop
  (`StringPieces.StringPiece.RemovePrefix`).
- The comment at muduo/base/ThreadPool.cc:71 speaks of an empty queue; the code asks whether there are threads.
  The one at muduo/base/LogFile.h:49 speaks of a file that reaches its size; the code rolls when the size is
  exceeded, and only in a later second than the last roll. The model follows the code.

## Assumptions

`count_` and `writtenBytes_` of `LogFile` are never initialised and are taken to start at 0; for the results about
its runs the first clock reading is positive. Unlocked reads of `running_` and `threads_` are atomic and sequentially consistent. Tasks of
the pool client do not use the pool or the latch. `int` counters and sizes do not overflow. The texts of the
time, the microseconds and the thread id have the lengths that the source asserts.

## Model

| member | source | states |
|---|---|---|
| MutexLocks.HolderIsSound | muduo/base/Mutex.h:38-65 | in every run, waits included: mutual exclusion, a non-zero `holder_` is between its lock and unlock, a running thread that passes `isLockedbyThisThread` owns the mutex, and the destructor's assertion holds when nobody is inside |
| MutexLocks.AssertLockedAfterWaitIff | muduo/base/Condition.h:39 | after any run, and any steps of the other threads during one `wait`: back in the guard the thread passes `assertLocked` if and only if it did before and nobody locked or unlocked meanwhile |
| MutexLocks.AssertLockedInGuardIff | muduo/base/Mutex.h:45-65 | the same from one `lock` to its `unlock`, with any number of waits inside |
| MutexLocks.OnlyTheOwnerMoves | muduo/base/Mutex.h:55-65 | in every run, while a thread owns the mutex no other thread can make a step, so nothing separates the two steps of `lock` or of `unlock` |
| MutexLocks.AssertLockedHoldsWithoutWait | muduo/base/Mutex.h:78-92 | in runs without `wait` the thread inside the guard always passes |
| MutexLocks.AssertLockedCanFailAfterWait | muduo/base/Condition.h:39 | a run in which the owner fails it |
| MutexLocks.MutexLock.Acquire | muduo/base/Mutex.h:57 | getting the pthread mutex, which blocks until it is free |
| MutexLocks.MutexLock.SetHolder | muduo/base/Mutex.h:58 | the assignment to `holder_` after it |
| MutexLocks.MutexLock.Lock | muduo/base/Mutex.h:55-59 | the two in order, from the moment the mutex is free |
| MutexLocks.MutexLock.ClearHolder | muduo/base/Mutex.h:63 | the assignment to `holder_` before giving up the mutex |
| MutexLocks.MutexLock.Release | muduo/base/Mutex.h:64 | giving up the pthread mutex |
| MutexLocks.MutexLock.Unlock | muduo/base/Mutex.h:61-65 | the two in order |
| MutexLocks.MutexLock.BeginWait | muduo/base/Condition.h:39 | giving up the mutex in `wait` leaves `holder_` alone |
| MutexLocks.MutexLock.EndWait | muduo/base/Condition.h:39 | getting it back leaves `holder_` alone |
| MutexLocks.MutexLock.IsLockedByThisThread | muduo/base/Mutex.h:45-48 | a thread that is told yes is between its lock and its unlock and, unless blocked in `wait`, owns the mutex |
| Conditions.Waiters.NotifyCovers | muduo/base/Condition.h:44 | one notification keeps the woken threads sufficient for one more unit of work, whichever sleepers it wakes |
| CountDownLatches.LatchOpensAtZero | muduo/base/CountDownLatch.cc:22-44 | in every run: the count is the initial one minus the executed calls of `countDown`, `wait` returns to nobody before, whoever has called it is still in it or has returned, and from then on (below zero too) nobody sleeps and the next step of every waiter returns |
| CountDownLatches.CountDownLatch.CountDown | muduo/base/CountDownLatch.cc:37-44 | one call of `countDown` |
| CountDownLatches.CountDownLatch.WaitTurn | muduo/base/CountDownLatch.cc:29-35 | one turn of the loop in `wait` |
| CountDownLatches.CountDownLatch.GetCount | muduo/base/CountDownLatch.cc:46-50 | the initial count minus the calls of `countDown`; from 0 down nobody sleeps, above it `wait` has returned to nobody |
| BlockingQueues.QueueIsFifo | muduo/base/BoundBlockingQueue.h:41-65 | in every run the completed puts are the takes followed by the contents, the capacity is respected, and the values each thread really called `put` with went in in that order, the last one possibly blocked |
| BlockingQueues.NoCallIsLost | muduo/base/BoundBlockingQueue.h:41-65 | in every run each executed call of `put` is completed or blocked with its value on `notFull_`, and each executed call of `take` has got a value or is blocked on `notEmpty_` |
| BlockingQueues.PutGoesInOrSleeps | muduo/base/BoundBlockingQueue.h:41-51 | a `put` is always possible for a thread that is not blocked, or was woken; with room the value goes in last and takers are woken, on a full queue the thread sleeps with its value, whoever else sleeps |
| BlockingQueues.TakeGetsOldestOrSleeps | muduo/base/BoundBlockingQueue.h:53-65 | the same for `take` |
| BlockingQueues.NoLostWakeup | muduo/base/BoundBlockingQueue.h:41-65 | a sleeping consumer implies that the woken ones suffice for the items, a sleeping producer that the woken ones suffice for the free places |
| BlockingQueues.DeadlockIffNoCapacity | muduo/base/BoundBlockingQueue.h:34-65 | a state with both kinds asleep and nobody woken is reachable if and only if the capacity is 0 |
| QueueClasses.CircularBuffer.PushBack | muduo/base/BoundBlockingQueue.h:49 | appends to the ring, overwriting the oldest element of a full one |
| QueueClasses.CircularBuffer.PopFront | muduo/base/BoundBlockingQueue.h:61-62 | removes and returns the oldest element |
| QueueClasses.BoundBlockingQueue.PutTurn | muduo/base/BoundBlockingQueue.h:41-51 | one turn of `put`; the new state of the ring and both conditions, never overwriting |
| QueueClasses.BoundBlockingQueue.TakeTurn | muduo/base/BoundBlockingQueue.h:53-65 | one turn of `take`, with the value returned |
| QueueClasses.BlockingQueue.Put | muduo/base/BlockingQueue.h:40-45 | `put` of the unbounded queue |
| QueueClasses.BlockingQueue.TakeTurn | muduo/base/BlockingQueue.h:47-58 | one turn of its `take` |
| ThreadPools.NoLostWakeup | muduo/base/ThreadPool.cc:69-97 | a worker sleeps un-notified only while the pool runs and the woken workers suffice for the queue; with tasks queued the live workers are never all asleep, losses by exceptions included |
| ThreadPools.TasksAreConserved | muduo/base/ThreadPool.cc:69-107 | the tasks that the run submitted are the dequeued ones followed by the queue; a dequeued task is in exactly one worker's hands until it is over, and begins and ends once; what is recorded as begun, ended and executed in the caller is what the run executed |
| ThreadPools.LossesAreExact | muduo/base/ThreadPool.cc:101-120 | in every run each dequeued throwing task costs exactly one worker, nothing else does while the pool runs, and never more throwing tasks are dequeued than there are workers |
| ThreadPools.ShutdownCompletes | muduo/base/ThreadPool.cc:57-107 | after `stop`, in every continuation: nobody sleeps, at most four steps per thread however long the queue, at most one more dequeue per worker, and every live worker can move |
| ThreadPools.StopDrainsExactly | muduo/base/ThreadPool.cc:57-107 | in every continuation of `stop` without submissions at whose end all workers have exited: exactly the first min(queue length, workers past the test of `running_`) tasks of the queue have been dequeued, all are over, and the rest are still queued |
| ThreadPools.ThreadPool.Start | muduo/base/ThreadPool.cc:43-47 | `start` up to its loop |
| ThreadPools.ThreadPool.Spawn | muduo/base/ThreadPool.cc:48-54 | one turn of that loop |
| ThreadPools.ThreadPool.Stop | muduo/base/ThreadPool.cc:57-63 | the critical section of `stop` |
| ThreadPools.ThreadPool.Submit | muduo/base/ThreadPool.cc:69-79 | `run`: queued and notified, or executed by the caller when there are no threads |
| ThreadPools.ThreadPool.TakeTurn | muduo/base/ThreadPool.cc:81-97 | one turn of `take`: the front task whatever `running_` is, and on an empty queue sleep or, after `stop`, an empty task |
| ThreadPools.ThreadPool.LoopTest | muduo/base/ThreadPool.cc:103 | the test of `running_` by a worker |
| DrainBarriers.DrainBarrier | muduo/base/tests/ThreadPool_test.cc:37-51 | in every run, for any number of workers: past `latch.wait` all jobs and then `countDown` were dequeued in submission order, past `stop` each began once and is over once |
| DrainBarriers.ComponentsRunAlone | muduo/base/tests/ThreadPool_test.cc:35-53 | the pool and the latch of every run of the client are those of a run of the pool and of a run of the latch, so everything proved about these holds in it |
| DrainBarriers.NeverPasses | muduo/base/ThreadPool.cc:101-120 | with as many throwing jobs as workers `latch.wait` returns in no run |
| DrainBarriers.RunsAreBounded | muduo/base/tests/ThreadPool_test.cc:35-53 | an explicit bound on the steps of every run, plus one per spurious wake-up |
| DrainBarriers.FinishesIffSurvives | muduo/base/tests/ThreadPool_test.cc:35-53 | the client finishes under every schedule if and only if fewer jobs throw than there are workers, or, with no workers, no job throws or is empty |
| DrainBarriers.PoolTest.MainTurn | muduo/base/tests/ThreadPool_test.cc:35-53 | the next piece of `main` on the real objects |
| DrainBarriers.PoolTest.WorkerTurn | muduo/base/ThreadPool.cc:99-121 | the next piece of a worker on the real objects |
| DrainBarriers.PoolTest.Execute | muduo/base/tests/ThreadPool_test.cc:35-53 | the program under any schedule ends in the state of the model, with the drain barrier; it can be continued until it finishes, or never gets past the latch |
| SentinelShutdown.SentinelsComeLast | muduo/base/tests/BlockingQueue_test.cc:45-67 | in every run nothing is put before all consumers have started, and they receive the data and then "stop" n times, in order |
| SentinelShutdown.ComponentsRunAlone | muduo/base/tests/BlockingQueue_test.cc:45-90 | the queue and the latch of every run of the client are those of a run of the queue and of a run of the latch |
| SentinelShutdown.OneSentinelEach | muduo/base/tests/BlockingQueue_test.cc:70-90 | a consumer has taken one sentinel if it has stopped and none otherwise |
| SentinelShutdown.AllConsumedIffNoStopInData | muduo/base/tests/BlockingQueue_test.cc:59-90 | after the joins the queue is empty and exactly the script was consumed if and only if no data item was the sentinel |
| SentinelShutdown.RunsAreBounded | muduo/base/tests/BlockingQueue_test.cc:45-90 | an explicit bound on the steps of every run, plus one per spurious wake-up |
| SentinelShutdown.FinishesIffFits | muduo/base/tests/BoundBlockingQueue_test.cc:45-91 | it finishes under every schedule if and only if what is put after the n-th sentinel fits; otherwise under none |
| SentinelShutdown.CleanDataFits | muduo/base/tests/BoundBlockingQueue_test.cc:45-91 | that is so with at least one consumer, clean data, and the unbounded queue or any capacity from 1 |
| SentinelShutdown.QueueTest.MainTurn | muduo/base/tests/BlockingQueue_test.cc:45-67 | the next piece of `run` and `joinAll` on the real objects |
| SentinelShutdown.QueueTest.ConsumerTurn | muduo/base/tests/BlockingQueue_test.cc:70-90 | the next piece of `threadFunc` |
| SentinelShutdown.QueueTest.Execute | muduo/base/tests/BlockingQueue_test.cc:98-107 | the program under any schedule ends in the state of the model, with all clean data consumed in order, or can be continued |
| SentinelShutdown.BoundQueueTest.MainTurn | muduo/base/tests/BoundBlockingQueue_test.cc:46-68 | the next piece of `run` and `joinAll` on the bounded queue |
| SentinelShutdown.BoundQueueTest.ConsumerTurn | muduo/base/tests/BoundBlockingQueue_test.cc:71-91 | the next piece of `threadFunc` on the bounded queue |
| SentinelShutdown.BoundQueueTest.Execute | muduo/base/tests/BoundBlockingQueue_test.cc:99-108 | the program over the ring under any schedule: if it fits it finishes with all clean data consumed in order or can be continued, otherwise it never finishes |
| Numerals.DecimalRoundTrip | muduo/base/LogStream.cc:45-61 | reading the text by the values of its characters gives the integer back, the text is canonical, and no 64-bit value needs more than 20 characters |
| Numerals.HexRoundTrip | muduo/base/LogStream.cc:63-76 | the same for hexadecimal digits 0-9 and A-F, with 16 digits exactly for 64-bit values |
| Numerals.DecimalDigitWritten | muduo/base/LogStream.cc:51-53 | truncating remainder and mirrored table give the next digit of either sign, with an index in -9..9 |
| Numerals.ReverseRange | muduo/base/LogStream.cc:59 | reverses a range in place and nothing else |
| Numerals.Finish | muduo/base/LogStream.cc:57-59 | the terminator, and the text that was written backwards turned round |
| Numerals.WriteDigits | muduo/base/LogStream.cc:48-54 | the loop writes the digits backwards |
| Numerals.WriteHexDigits | muduo/base/LogStream.cc:67-71 | the same for the hexadecimal loop |
| Numerals.Convert | muduo/base/LogStream.cc:45-61 | the text and the terminator in place, everything else unchanged |
| Numerals.ConvertHex | muduo/base/LogStream.cc:63-76 | the same for `convertHex` |
| LogStreams.InsertionsKeepWholeFragments | muduo/base/LogStream.h:51-64 | for every sequence of insertions: the old bytes, then whole fragments in order, and a byte free |
| LogStreams.KeptExactlyWhenFitting | muduo/base/LogStream.cc:112-119 | a fragment is kept exactly when its predecessors left more bytes than a text has, or at least 32 for a number |
| LogStreams.RefusedStaysRefused | muduo/base/LogStream.h:51-57 | what is refused once is refused for the rest of the record |
| LogStreams.RenderingsReadBack | muduo/base/LogStream.cc:112-174 | texts are written as they are, integers as canonical decimal numerals, pointers as '0', 'x' and the hexadecimal digits that read back as the pointer |
| LogStreams.FixedBuffer.Append | muduo/base/LogStream.h:51-57 | copies when the size is below `avail`, else changes nothing |
| LogStreams.FixedBuffer.Reset | muduo/base/LogStream.h:66 | empties the buffer |
| LogStreams.FixedBuffer.DebugString | muduo/base/LogStream.cc:83-87 | terminates the text inside the array |
| LogStreams.LogStream.InsertText | muduo/base/LogStream.h:95-152 | insertion of text, characters and booleans |
| LogStreams.LogStream.InsertBool | muduo/base/LogStream.h:95-99 | "1" or "0" under the rule for text |
| LogStreams.LogStream.InsertInteger | muduo/base/LogStream.cc:112-161 | insertion of an integer of any defined type |
| LogStreams.LogStream.InsertPointer | muduo/base/LogStream.cc:163-174 | insertion of a pointer |
| Logging.RecordShape | muduo/base/Logging.cc:113-181 | every record has fewer than 4000 bytes and an intact 38-byte header, then what the insertions left, and a complete trailer if and only if used bytes, base name and 36 fit in 4000 |
| Logging.RecordHeader | muduo/base/Logging.cc:56-64 | bytes 0-16 of every record are the time, 17-25 the microseconds, 26-31 the thread id, and 32-37 the text of the level |
| Logging.ErrnoTextIff | muduo/base/Logging.cc:126-128 | an error number other than 0 adds "message (errno=number) " behind the header, complete if and only if the message and 78 bytes fit in 4000 |
| Logging.SecondIsWhole | muduo/base/Logging.cc:134 | the second of a reading is a truncating division by a million |
| Logging.TrailerCompleteIff | muduo/base/Logging.cc:154-157 | that condition for `finish` alone |
| Logging.TimeIsRightIffLeftSecondZero | muduo/base/Logging.cc:131-151 | for every sequence of records of one thread: the time in the last is that of its second, and has 17 characters, if and only if some record so far is outside second 0; otherwise it is empty |
| Logging.TimeIsEmptyInSecondZero | muduo/base/Logging.cc:137 | the failing input: a thread whose first record is of second 0 |
| Logging.TimeCache.Format | muduo/base/Logging.cc:131-147 | the text inserted after any earlier records of the thread, from the cached fields |
| Logging.Logger.constructor | muduo/base/Logging.cc:113-129 | the header with the time that the thread's cache gives, then the text of a saved error number |
| Logging.Logger.Insert | muduo/base/Logging.h:78 | one insertion by the user |
| Logging.Logger.Destroy | muduo/base/Logging.cc:177-186 | the record handed to `g_output`; on FATAL then `g_flush` and the abort, in this order |
| LogFiles.DeliveredInFullIff | muduo/base/LogFile.cc:41-60 | a line is written in full if and only if no attempt after the first takes nothing before enough bytes were offered |
| LogFiles.DeliveredAtGap | muduo/base/LogFile.cc:41-60 | otherwise exactly what was offered before the first such attempt is written |
| LogFiles.File.Append | muduo/base/LogFile.cc:41-60 | the write loop ends and delivers that prefix; the counter grows by the full length |
| LogFiles.BytesAreConserved | muduo/base/LogFile.cc:120-157 | for all appends, clocks and short writes the files in creation order concatenate to the deliveries, each file to a block of whole ones; rolls strictly later each time |
| LogFiles.FilesFollowAppends | muduo/base/LogFile.cc:120-157 | in every run each file was created by the first roll or by the append before its first line, at that append's second reading, and its byte counter is the sum over the lines appended to it |
| LogFiles.PeriodIsDay | muduo/base/LogFile.cc:130-148 | a period is 86400 seconds from a multiple of 86400 |
| LogFiles.FileSizesAreBounded | muduo/base/LogFile.cc:120-157 | with a non-decreasing clock a file is at most the larger of `rollSize` and the bytes appended to it in the second of its creation, plus its last line |
| LogFiles.FewLinesOfTheNextDay | muduo/base/LogFile.cc:124-156 | with such a clock at most 1026 of the lines in a file began on a later day, days being counted in 86400 seconds, and `startOfPeriod_` is midnight before the last roll |
| LogFiles.NewFileIff | muduo/base/LogFile.cc:120-157 | with such a clock, after any run, an append creates a file if and only if it exceeds the size in a later second than the last roll or is a check that sees a later day; so that check always really rolls |
| LogFiles.ChecksDivideAppends | muduo/base/LogFile.cc:127-139 | checks and counter are quotient and remainder by 1026 of the appends within size, in any run |
| LogFiles.OneCheckIn1026 | muduo/base/LogFile.cc:127-139 | every 1026 such appends include exactly one check |
| LogFiles.ClosedFilesAreFlushed | muduo/base/LogFile.cc:151-156 | in every run from the start, closed files are flushed completely |
| LogFiles.CheckLimitsFlushAge | muduo/base/LogFile.cc:133-136 | with such a clock, after any run, a check leaves the last flush at most `flushInterval` old; without a new file it flushes everything if and only if the last flush was older |
| LogFiles.LogFile.constructor | muduo/base/LogFile.cc:82-95 | the initial file, which exists if and only if the clock is positive |
| LogFiles.LogFile.Append | muduo/base/LogFile.cc:120-141 | one append, with all its branches |
| LogFiles.LogFile.RollFile | muduo/base/LogFile.cc:143-157 | rolling, only in a later second |
| StringPieces.CompareIsLexicographic | muduo/base/StringPiece.h:132-145 | `compare` is the lexicographic order on unsigned bytes |
| StringPieces.CompareIsTotalOrder | muduo/base/StringPiece.h:132-145 | antisymmetric, transitive and total |
| StringPieces.OperatorsAgreeWithCompare | muduo/base/StringPiece.h:110-128 | the four macro operators are sign tests of `compare`, and `==` is equality of the bytes |
| StringPieces.StartsWithIsPrefix | muduo/base/StringPiece.h:164-168 | `starts_with` is the prefix relation |
| StringPieces.PrefixIsInterval | muduo/base/StringPiece.h:119-168 | the pieces with a given prefix form an interval of the order |
| StringPieces.StringPiece.Set | muduo/base/StringPiece.h:79-83 | `set` with a length |
| StringPieces.StringPiece.Clear | muduo/base/StringPiece.h:73-77 | the empty view |
| StringPieces.StringPiece.RemovePrefix | muduo/base/StringPiece.h:99-103 | drops the first bytes; the view stays usable if and only if there are that many |
| StringPieces.StringPiece.RemoveSuffix | muduo/base/StringPiece.h:105-108 | drops the last bytes, likewise |

## Left out

- Scheduler fairness and memory-model effects: stuck states are excluded and runs are bounded, eventual scheduling is not modelled.
- That the monitors' atomic pieces are really exclusive rests on the mutex model; the two models are not composed.
- Exceptions that are not `std::exception`: `runInThread` rethrows them and the process ends.
- `~ThreadPool`, which only calls `stop`, and calls of `run` that overlap with `start`.
- `Condition::waitForSeconds`: a timed wait that no monitor here uses.
- What an unusable `StringPiece`, or a `LogFile` without a file, does when it is used.
- `LogFile::flush` and the optional mutex of `LogFile`: calls are taken one at a time.
- File names: a file is named by the second of its roll, and these are proved distinct; time zones and `strftime` are not modelled.
- `Fmt`, `float` and `double` insertion: the output of `snprintf` is not part of this model.
- `operator<<(long long)`: declared without a definition.
- A count of the latch, a file size or an `int` length at the end of its machine range.
- `Thread`, `CurrentThread`, `Singleton`, `ThreadLocal`, `Atomic`, `ProcessInfo`, `FileUtil`, `Exception`, `Timestamp`: wrappers over system calls with only easy properties.
