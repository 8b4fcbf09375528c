# Async-Logger, modelled in Dafny

This project models the two loggers of Async-Logger.

- **Asynchronous logger** (`logger.cpp/logger_async.cpp`). `log` formats a line and pushes it on a queue guarded by a mutex. A single worker thread pops lines in FIFO order. For each line it releases the lock, appends the line to the log file if the file opened, then takes the lock again to wake the `waitEmpty` callers if the queue is empty. The destructor raises `exit_flag`, and the worker drains the queue before it returns. `waitEmpty` blocks until the queue is empty.
- **Synchronous logger** (`logger.cpp/logger.cpp`). `log` formats a line and appends it to the file at once, if the file opened.

Each locked critical section of the asynchronous logger is one atomic step. So is the worker's unlocked write to the file.

- `AsyncLogger.State` is the shared state. It holds the queue `q`, `exitFlag`, `fileOpen`, the entries written to the file `output`, and the worker's position in its loop (`worker`).
- The worker's position is one of four. `AtWait` is waiting on `cv`. `Holding(item)` has popped `item` but not yet written it. `AfterWrite` is about to retest the queue. `Stopped` has returned.
- `Push` is the critical section of `log`, and `SetExit` that of the destructor. `Step` is the worker's next step: the locked pop, the unlocked write, or the locked emptiness test.
- `Pending(s)` lists the lines submitted but not yet written, oldest first: the line the worker holds, then the queue.
- The class `AsyncLogger.Logger` holds the same state in fields. Each of its methods is proved to take exactly the matching step (`Snapshot() == Step(old(Snapshot())).next`, and so on). Its invariant `Valid()` ties the pending lines and the file to ghost histories: the submitted lines, and the lines the worker has finished with.
- `Run` applies any interleaving of submissions, worker steps and shutdowns. `Drain` applies consecutive worker steps.

The module `LogLine` is a decoder for the line layout both loggers write (`Parse`). It is proved to invert `Compose` in both directions (`ParseCompose`, `ComposeParse`). Every line that parses has a timestamp without '[' and a label without ']' (`ParsedFieldsAreClean`), so the two directions cover the same lines. Each formatter is proved to round-trip through it (`FormatLineParses`, `FormatEntryParses`), and each label table through its own `LabelLevel` decoder.

The level is `Levels.Level = Info | Warning | Error | Other(code)`. `Other(code)` is an enum value outside the three enumerators, so `code` is never 0, 1 or 2. It reaches the `default` branch of each label table.

The model follows the code as written:

- The asynchronous logger's fallback label is "UNK" and its WARNING label is "WARN". The synchronous logger writes "UNKNOWN" and "WARNING". The two tables are kept apart.
- The asynchronous `log` never reads `exit_flag`, so a `log` after shutdown is not rejected. The model's `Log` does not read it either.
- The asynchronous worker writes a line only if the file opened at construction. Otherwise it pops the line and drops it.

## Model

| member | source | states |
|---|---|---|
| `AsyncLogger.LevelToStr` | logger.cpp/logger_async.cpp:88-95 | INFO, WARNING and ERROR get labels that decode back to the same level. Every other value gets "UNK", and only those do. No label is empty or holds a bracket or a space. |
| `AsyncLogger.FormatLine` | logger.cpp/logger_async.cpp:98-100 | The line starts with the timestamp followed by " [". It ends with the message. Its length is the sum of the parts plus the four separator characters. |
| `AsyncLogger.FormatLineParses` | logger.cpp/logger_async.cpp:98-100 | A formatted line reads back as exactly its timestamp, its level's label and its message, whenever the timestamp holds no '['. The label gives back the level. |
| `AsyncLogger.SetExit` | logger.cpp/logger_async.cpp:34-38 | The destructor's critical section sets `exit_flag`. It leaves the queue, the file, whether it opened and the worker's position unchanged. |
| `AsyncLogger.Step` | logger.cpp/logger_async.cpp:103-150 | At the wait, the worker sleeps iff the queue is empty and `exit_flag` is clear. It returns iff `exit_flag` is set and the queue is empty. Otherwise it pops exactly `q[0]` and holds it. A held line is appended to the file iff the file is open. The next step retests the queue without changing anything, and wakes the `waitEmpty` callers iff the queue is then empty. No step changes `exit_flag` or whether the file is open. |
| `AsyncLogger.StepPending` | logger.cpp/logger_async.cpp:117-135 | Only the write changes the list of pending lines, and it removes exactly the oldest one. A pop moves the front of the queue into the worker's hands without reordering anything. |
| `AsyncLogger.StepKeepsInv` | logger.cpp/logger_async.cpp:103-150 | Each worker step keeps the invariant. The submitted lines are the finished ones followed by the pending ones. The file holds its old lines followed by the finished ones (only its old lines if it did not open). The worker returns only after shutdown. The line a step finishes is the one the worker held. |
| `AsyncLogger.RunKeepsOrder` | logger.cpp/logger_async.cpp:47-150 | FIFO, no loss. For any interleaving of `log`, worker steps and shutdown, the pending lines are a suffix of (old pending lines + submitted lines). The prefix before that suffix was appended to the file in that order, or dropped if the file is not open. |
| `AsyncLogger.ExitFlagSticky` | logger.cpp/logger_async.cpp:34-38 | No `log`, worker step or shutdown lowers `exit_flag` once it is set. |
| `AsyncLogger.StoppedWritesNothing` | logger.cpp/logger_async.cpp:117-120 | After the worker has returned, no run changes the file, and the queue becomes exactly the old queue followed by every line logged afterwards, in order. |
| `AsyncLogger.WaitEmptyMayReturnBeforeWrite` | logger.cpp/logger_async.cpp:57-62 | Suppose a line is logged while the worker waits and the queue is empty. After the worker's pop, the queue is empty, so `waitEmpty` may return, but the file is unchanged and the line is still held unwritten. |
| `AsyncLogger.AllWrittenMeansFlushed` | logger.cpp/logger_async.cpp:57-62 | Once the queue is empty and the worker holds no line, the file holds every accounted line after its old lines. |
| `AsyncLogger.InvFlushed` | logger.cpp/logger_async.cpp:131-135 | Take two states that keep the invariant for the same submissions, the later with nothing pending. The file has then gained exactly the earlier pending lines, in order (nothing if it did not open). |
| `AsyncLogger.DrainPrefix` | logger.cpp/logger_async.cpp:104-149 | Start with the worker at its wait. After n full iterations (pop, write, retest, with n at most the queue's length), the first n lines are off the queue and, in order, were appended to the file if it is open. The worker is back at its wait and the flags are unchanged. |
| `AsyncLogger.DrainTerminates` | logger.cpp/logger_async.cpp:112-149 | Start with `exit_flag` set and the worker at its wait. Iteration k pops line k. The retest ending the last iteration wakes the `waitEmpty` callers, and the step after that returns. Every pending line is then in the file if it is open. |
| `AsyncLogger.Logger.constructor` | logger.cpp/logger_async.cpp:18-28 | The queue starts empty, `exit_flag` is false and the worker waits. The file keeps its existing lines (append mode). |
| `AsyncLogger.Logger.Log` | logger.cpp/logger_async.cpp:47-55 | Exactly one formatted line is pushed at the back of the queue. Nothing else changes. The line is added to the submitted history, and the invariant is kept. |
| `AsyncLogger.Logger.RequestExit` | logger.cpp/logger_async.cpp:34-38 | The destructor's critical section sets `exit_flag`, changes nothing else and keeps the invariant. |
| `AsyncLogger.Logger.WaitEmpty` | logger.cpp/logger_async.cpp:58-62 | `waitEmpty` may return iff the queue is empty. At that point, if the file is open, the file's lines followed by the worker's unwritten line (if any) are the old lines followed by every submitted line. |
| `AsyncLogger.Logger.WaitAllWritten` | logger.cpp/logger_async.cpp:57-62 | The drain-wait the code's comment describes. It may return iff the queue is empty and the worker holds no unwritten line. At that point the open file holds its old lines followed by every submitted line. |
| `AsyncLogger.Logger.WorkerStep` | logger.cpp/logger_async.cpp:104-150 | One worker step changes the fields exactly as `Step` does and keeps the invariant. |
| `AsyncLogger.Logger.WorkerLoop` | logger.cpp/logger_async.cpp:103-151 | The loop terminates (measure: the steps left to write the queue). It equals a drain of as many steps as it took. A running worker leaves the queue empty and holds no line. It appends the pending lines in order if the file is open. It returns `true` (thread ends, worker stopped) iff `exit_flag` is set, and otherwise waits. A worker that has already returned changes nothing. |
| `AsyncLogger.Logger.Destroy` | logger.cpp/logger_async.cpp:34-41 | After shutdown and join, `exit_flag` is set. If the worker was running, the queue is empty and the worker has returned. The open file then holds its old lines followed by every line ever submitted, in push order. |
| `SyncLogger.LevelToString` | logger.cpp/logger.cpp:41-49 | INFO, WARNING and ERROR get labels that decode back to the same level. Every other value gets "UNKNOWN", and only those do. No label is empty or holds a bracket or a space. |
| `SyncLogger.FormatEntry` | logger.cpp/logger.cpp:23 | The line starts with the timestamp, immediately followed by '['. It ends with the message. Its length is the sum of the parts plus the two brackets. |
| `SyncLogger.FormatEntryParses` | logger.cpp/logger.cpp:23 | A written line reads back, with no gap around the brackets, as exactly its timestamp, its level's label and its message, whenever the timestamp holds no '['. The label gives back the level. |
| `SyncLogger.Logger.constructor` | logger.cpp/logger.cpp:11-18 | The file keeps its existing lines (append mode). Nothing has been logged yet. |
| `SyncLogger.Logger.Log` | logger.cpp/logger.cpp:20-25 | If the file is open, exactly one formatted line is appended and earlier lines are kept. Otherwise the call does nothing. The invariant says the file holds its old lines followed by one line per call, in call order. |

## Findings

| source | as written | input that shows it | evidently intended | confidence | as-written member | corrected member |
|---|---|---|---|---|---|---|
| logger.cpp/logger_async.cpp:57-62 | `waitEmpty` waits only for `q.empty()`. The worker pops a line under the lock and writes it after releasing the lock (:123-135). | With the worker waiting and the queue empty, call `log("x")`. The worker pops "x" and releases the lock. The queue is empty, so `waitEmpty` returns, but "x" is not yet in the file. | The comment at :57 says `waitEmpty` tells when "all logs are written". That needs it to wait also until the worker holds no unwritten line. | not executed | `AsyncLogger.WaitEmptyMayReturnBeforeWrite` | `AsyncLogger.Logger.WaitAllWritten` |

## Left out

- Threads, the mutex and both condition variables. Each locked region is one atomic step, and so is the worker's unlocked write. A worker that would block in `cv.wait` has the `Idle` outcome, and `WorkerLoop` returns `false` there instead of sleeping. The wake-up mechanics (`notify_one`, `notify_all`, spurious wake-ups, `join`) are not modelled. Interleavings inside one region, or inside the write, do not arise.
- WaitEmpty: it promises only that the file plus the worker's unwritten line hold every submitted line, not the file alone. That is what the code does (see Findings). The stronger promise is made by `WaitAllWritten`, which is not part of the C++ logger.
- Destroy: "the file holds every submitted line" holds only if every write succeeds. The same applies to `WaitAllWritten`, `WorkerLoop`, `RunKeepsOrder` and the synchronous `Log`. A failed `file << item` (logger.cpp/logger_async.cpp:133, logger.cpp/logger.cpp:23) sets the stream's error state. That line is lost, later writes do nothing, and `is_open()` stays true. Write failures are not modelled: every write to an open file succeeds.
- The wall clock (`currentDateTime`, `currnetDateTime`, `strftime`). The timestamp is a parameter of `Log`. The decoding lemmas assume only that it holds no '['. The format "YYYY-MM-DD HH:MM:SS" is not modelled.
- `std::ofstream` I/O. The file is modelled as its list of written entries (`output`) plus whether it opened (`fileOpen`); `flush` and the `close` in the destructor are not modelled. `output` holds one element per written entry, and statements about "lines of the file" (`Destroy`, `WaitAllWritten`, `AllWrittenMeansFlushed`, the synchronous `Log`) are about these entries. A message containing '\n' spans several lines of the file, since neither logger escapes it before `std::endl`, and an existing file that does not end in a newline has its last line joined to the first entry, since append mode adds no separator. Neither is modelled. The diagnostics written to `std::cerr` are side output and are left out.
- The two `main` functions. They only start demo threads and log a few messages.
