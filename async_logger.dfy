/** The asynchronous logger: producers format a line and push it on a queue, and a single
    worker pops lines in order and appends them to the log file while it is open.

    Every locked critical section of the C++ logger is one atomic step here, and so is the
    worker's unlocked write to the file. `State` and the functions `Push`, `Step` and
    `SetExit` are the step relation; the class `Logger` holds the same state in fields and
    its methods are proved to take exactly those steps. */
module AsyncLogger {
  import opened Levels
  import opened LogLine

  // ---------------------------------------------------------------------------
  // Labels and line format

  /** The level named by an asynchronous logger's label; the fallback label names none. */
  function LabelLevel(s: string): Option<Level>
  {
    if s == "INFO" then Some(Info)
    else if s == "WARN" then Some(Warning)
    else if s == "ERROR" then Some(Error)
    else None
  }

  /** The label of a level: INFO, WARN and ERROR for the three enumerators, UNK for any
      other value. */
  function LevelToStr(level: Level): (s: string)
    ensures LabelLevel(s) == (if level.Other? then None else Some(level))
    ensures level.Other? <==> s == "UNK"
    ensures '[' !in s && ']' !in s && ' ' !in s && s != ""
  {
    match level
    case Info => "INFO"
    case Warning => "WARN"
    case Error => "ERROR"
    case Other(_) => "UNK"
  }

  /** One queued line: the timestamp, a space, the bracketed label, a space, the message.
      The timestamp is a parameter here; the C++ logger reads the wall clock. */
  function FormatLine(ts: string, level: Level, msg: string): (line: string)
    ensures |line| == |ts| + |LevelToStr(level)| + |msg| + 4
    ensures line[..|ts|] == ts && line[|line| - |msg|..] == msg
    ensures line[|ts|..|ts| + 2] == " ["
  {
    ts + " [" + LevelToStr(level) + "] " + msg
  }

  /** A formatted line reads back as its timestamp, its level's label and its message,
      and the label gives back the level it was made from. */
  lemma FormatLineParses(ts: string, level: Level, msg: string)
    requires '[' !in ts
    ensures Parse(FormatLine(ts, level, msg), " ") == Some(Fields(ts, LevelToStr(level), msg))
    ensures !level.Other? ==> LabelLevel(Parse(FormatLine(ts, level, msg), " ").value.levelLabel) == Some(level)
  {
    var f := Fields(ts, LevelToStr(level), msg);
    assert Compose(f, " ") == FormatLine(ts, level, msg);
    ParseCompose(f, " ");
  }

  // ---------------------------------------------------------------------------
  // The queue discipline as a step relation

  /** Where the worker thread stands in its loop: waiting on `cv` for work or shutdown,
      holding a popped line it has not yet written (outside the lock), having written it
      and about to test for an empty queue, or returned for good. */
  datatype Worker = AtWait | Holding(item: string) | AfterWrite | Stopped

  /** What the logger and its worker share: the pending lines, the shutdown flag, whether
      the log file opened, the lines written to it so far, and the worker's position. */
  datatype State = State(q: seq<string>, exitFlag: bool, fileOpen: bool, output: seq<string>,
                         worker: Worker)

  /** The line the worker has popped but not yet written, if any. */
  function InFlight(s: State): seq<string>
  {
    if s.worker.Holding? then [s.worker.item] else []
  }

  /** Every line submitted but not yet written, oldest first. */
  function Pending(s: State): seq<string>
  {
    InFlight(s) + s.q
  }

  /** What one worker step did: it would sleep, it returned, it popped a line, it wrote a
      line, or it checked the queue and woke the `waitEmpty` callers iff `notifyEmpty`. */
  datatype Outcome = Idle | Exited | Popped(item: string) | Wrote(item: string)
                   | Checked(notifyEmpty: bool)

  datatype StepResult = StepResult(next: State, outcome: Outcome)

  /** The worker's termination test. */
  predicate WorkerExits(s: State)
  {
    s.exitFlag && s.q == []
  }

  /** The condition `waitEmpty` waits for. */
  predicate Drained(s: State)
  {
    s.q == []
  }

  /** The critical section of `log`: the formatted line goes to the back of the queue. */
  function Push(s: State, line: string): State
  {
    s.(q := s.q + [line])
  }

  /** The critical section of the destructor: the shutdown flag is raised and nothing else
      changes. */
  function SetExit(s: State): (r: State)
    ensures r.exitFlag
    ensures r.q == s.q && r.output == s.output && r.fileOpen == s.fileOpen && r.worker == s.worker
  {
    s.(exitFlag := true)
  }

  /** The worker's next step. At the wait it sleeps while the queue is empty and no shutdown
      was requested, returns once shutdown was requested and the queue is empty, and
      otherwise pops the front line (all under the lock). Holding a line, it writes it if
      the file is open (outside the lock). After the write it takes the lock again and
      wakes the `waitEmpty` callers iff the queue is empty at that moment. */
  function Step(s: State): (r: StepResult)
    ensures r.next.exitFlag == s.exitFlag && r.next.fileOpen == s.fileOpen
    ensures r.outcome == Idle <==> s.worker == AtWait && !s.exitFlag && s.q == []
    ensures r.outcome == Exited <==> s.worker == Stopped || (s.worker == AtWait && WorkerExits(s))
    ensures r.outcome == Exited ==> r.next == s.(worker := Stopped)
    ensures r.outcome.Popped? <==> s.worker == AtWait && s.q != []
    ensures r.outcome == Idle ==> r.next == s
    ensures r.outcome.Popped? ==>
      r.outcome.item == s.q[0] && r.next == s.(q := s.q[1..], worker := Holding(s.q[0]))
    ensures s.worker.Holding? ==>
      r.outcome == Wrote(s.worker.item) &&
      r.next == s.(output := s.output + (if s.fileOpen then [s.worker.item] else []),
                   worker := AfterWrite)
    ensures r.outcome.Checked? <==> s.worker == AfterWrite
    ensures r.outcome.Checked? ==>
      r.next == s.(worker := AtWait) && (r.outcome.notifyEmpty <==> Drained(s))
  {
    match s.worker
    case AtWait =>
      if !(s.exitFlag || s.q != []) then StepResult(s, Idle)
      else if s.exitFlag && s.q == [] then StepResult(s.(worker := Stopped), Exited)
      else
        var item := s.q[0];
        StepResult(s.(q := s.q[1..], worker := Holding(item)), Popped(item))
    case Holding(item) =>
      var written := if s.fileOpen then s.output + [item] else s.output;
      StepResult(s.(output := written, worker := AfterWrite), Wrote(item))
    case AfterWrite =>
      StepResult(s.(worker := AtWait), Checked(s.q == []))
    case Stopped =>
      StepResult(s, Exited)
  }

  // ---------------------------------------------------------------------------
  // Runs: any interleaving of submissions, worker steps and shutdown

  datatype Event = Submit(line: string) | Work | Shutdown

  function Apply(s: State, e: Event): State
  {
    match e
    case Submit(line) => Push(s, line)
    case Work => Step(s).next
    case Shutdown => SetExit(s)
  }

  function Run(s: State, events: seq<Event>): State
    decreases |events|
  {
    if events == [] then s else Run(Apply(s, events[0]), events[1..])
  }

  /** The line an event submits, if any. */
  function Pushed(e: Event): seq<string>
  {
    if e.Submit? then [e.line] else []
  }

  /** The lines submitted by a run, in submission order. */
  function Submitted(events: seq<Event>): seq<string>
    decreases |events|
  {
    if events == [] then [] else Pushed(events[0]) + Submitted(events[1..])
  }

  /** `s` is what remains after some prefix of `all` has been written: the pending lines
      (the one in flight, then the queue) are the rest of `all`, and the prefix follows
      `written` in the output if the file is open. */
  ghost predicate Accounts(written: seq<string>, all: seq<string>, s: State)
  {
    var p := Pending(s);
    |p| <= |all| && p == all[|all| - |p|..] &&
    s.output == written + (if s.fileOpen then all[..|all| - |p|] else [])
  }

  lemma PushKeepsOrder(written: seq<string>, all: seq<string>, s: State, line: string)
    requires Accounts(written, all, s)
    ensures Accounts(written, all + [line], Push(s, line))
  {
    var k := |all| - |Pending(s)|;
    assert Pending(Push(s, line)) == Pending(s) + [line];
    assert (all + [line])[..k] == all[..k];
  }

  /** Only a write changes the pending lines, and it removes exactly the oldest one: a pop
      moves the front of the queue into the worker's hands without reordering anything. */
  lemma StepPending(s: State)
    ensures !s.worker.Holding? ==> Pending(Step(s).next) == Pending(s)
    ensures s.worker.Holding? ==> Pending(s) != [] && Pending(Step(s).next) == Pending(s)[1..]
  {
    if s.worker == AtWait && s.q != [] {
      assert Pending(s) == [s.q[0]] + s.q[1..];
    }
  }

  lemma StepKeepsOrder(written: seq<string>, all: seq<string>, s: State)
    requires Accounts(written, all, s)
    ensures Accounts(written, all, Step(s).next)
  {
    var t := Step(s).next;
    StepPending(s);
    if s.worker.Holding? {
      var p, item := Pending(s), s.worker.item;
      var k := |all| - |p|;
      assert Pending(t) == p[1..] == all[k + 1..];
      assert all[..k + 1] == all[..k] + [item];
      assert t.output == s.output + (if s.fileOpen then [item] else []);
    } else {
      assert t.output == s.output;
    }
  }

  /** Shutdown takes no line off and writes none. */
  lemma SetExitKeepsOrder(written: seq<string>, all: seq<string>, s: State)
    requires Accounts(written, all, s)
    ensures Accounts(written, all, SetExit(s))
  {
    assert Pending(SetExit(s)) == Pending(s);
  }

  /** Every kind of step keeps that account, with a submitted line added at the back. */
  lemma ApplyKeepsOrder(written: seq<string>, all: seq<string>, s: State, e: Event)
    requires Accounts(written, all, s)
    ensures Accounts(written, all + Pushed(e), Apply(s, e))
    ensures Apply(s, e).fileOpen == s.fileOpen
  {
    match e
    case Submit(line) => PushKeepsOrder(written, all, s, line);
    case Shutdown =>
      assert all + Pushed(e) == all;
      SetExitKeepsOrder(written, all, s);
    case Work =>
      assert all + Pushed(e) == all;
      StepKeepsOrder(written, all, s);
  }

  /** FIFO without loss: after any run, the pending lines (in flight, then queued) are what
      is left of the old pending lines followed by the submitted lines once some prefix has
      been taken off, and that prefix is exactly what was appended to the output (nothing,
      if the file is not open). */
  lemma {:induction false} RunKeepsOrder(s: State, events: seq<Event>)
    ensures var r := Run(s, events); var all := Pending(s) + Submitted(events);
      |Pending(r)| <= |all| && Pending(r) == all[|all| - |Pending(r)|..] &&
      r.output == s.output + (if s.fileOpen then all[..|all| - |Pending(r)|] else []) &&
      r.fileOpen == s.fileOpen
  {
    var p := Pending(s);
    assert p[|p| - |p|..] == p && p[..0] == [];
    RunAccounts(s.output, p, s, events);
  }

  lemma {:induction false} RunAccounts(written: seq<string>, all: seq<string>, s: State, events: seq<Event>)
    requires Accounts(written, all, s)
    ensures Accounts(written, all + Submitted(events), Run(s, events))
    ensures Run(s, events).fileOpen == s.fileOpen
    decreases |events|
  {
    if events == [] {
      assert all + Submitted(events) == all;
    } else {
      var e, rest := events[0], events[1..];
      ApplyKeepsOrder(written, all, s, e);
      RunAccounts(written, all + Pushed(e), Apply(s, e), rest);
      assert Submitted(events) == Pushed(e) + Submitted(rest);
      assert (all + Pushed(e)) + Submitted(rest) == all + (Pushed(e) + Submitted(rest));
    }
  }

  /** Nothing lowers the shutdown flag: once raised it stays raised for the rest of any run. */
  lemma {:induction false} ExitFlagSticky(s: State, events: seq<Event>)
    requires s.exitFlag
    ensures Run(s, events).exitFlag
    decreases |events|
  {
    if events != [] {
      ExitFlagSticky(Apply(s, events[0]), events[1..]);
    }
  }

  /** Once the worker has returned nothing more reaches the file: a line logged after that
      stays in the queue for good. */
  lemma {:induction false} StoppedWritesNothing(s: State, events: seq<Event>)
    requires s.worker == Stopped
    ensures Run(s, events).output == s.output && Run(s, events).worker == Stopped
    ensures Run(s, events).q == s.q + Submitted(events)
    decreases |events|
  {
    if events == [] {
      assert s.q + Submitted(events) == s.q;
    } else {
      var e, rest := events[0], events[1..];
      StoppedWritesNothing(Apply(s, e), rest);
      assert Apply(s, e).q == s.q + Pushed(e);
      assert Submitted(events) == Pushed(e) + Submitted(rest);
      AppendAssoc(s.q, Pushed(e), Submitted(rest));
    }
  }

  // ---------------------------------------------------------------------------
  // Waiting for an empty queue

  /** `waitEmpty` can return while a line is still unwritten: once the worker has popped
      the last queued line and released the lock, the queue is empty, but that line is not
      yet in the file. */
  lemma WaitEmptyMayReturnBeforeWrite(s: State, line: string)
    requires s.worker == AtWait && s.q == []
    ensures var t := Step(Push(s, line)).next;
      Drained(t) && t.output == s.output && InFlight(t) == [line]
  {
  }

  /** The condition a drain-wait needs for "every submitted line is written": the queue is
      empty and the worker holds no unwritten line. */
  predicate AllWritten(s: State)
  {
    s.q == [] && !s.worker.Holding?
  }

  /** Under that condition the file holds every line accounted for after its old lines, or
      only its old lines if it did not open. */
  lemma AllWrittenMeansFlushed(written: seq<string>, all: seq<string>, s: State)
    requires Accounts(written, all, s) && AllWritten(s)
    ensures s.output == written + (if s.fileOpen then all else [])
  {
    assert Pending(s) == [];
    assert all[..|all|] == all;
  }

  // ---------------------------------------------------------------------------
  // Draining after shutdown

  /** `n` consecutive worker steps with no submission in between. */
  function Drain(s: State, n: nat): State
    decreases n
  {
    if n == 0 then s else Drain(Step(s).next, n - 1)
  }

  lemma {:induction false} DrainAdd(s: State, a: nat, b: nat)
    ensures Drain(s, a + b) == Drain(Drain(s, a), b)
    decreases a
  {
    if a > 0 {
      DrainAdd(Step(s).next, a - 1, b);
    }
  }

  /** One full iteration from the wait: pop, write, test. */
  lemma DrainRound(s: State)
    requires s.worker == AtWait && s.q != []
    ensures Step(s).outcome == Popped(s.q[0])
    ensures Step(Drain(s, 2)).outcome == Checked(|s.q| == 1)
    ensures Drain(s, 3) == s.(q := s.q[1..],
                              output := s.output + (if s.fileOpen then [s.q[0]] else []))
  {
    var s1 := Step(s).next;
    var s2 := Step(s1).next;
    assert Drain(s, 2) == Drain(s1, 1) == Drain(s2, 0);
    assert Drain(s, 3) == Drain(s2, 1);
  }

  /** After `n` full iterations, at most the queue's length, the first `n` lines have been
      taken off the queue in order and written if the file is open; the worker is back at
      its wait and the flags are unchanged. */
  lemma {:induction false} DrainPrefix(s: State, n: nat)
    requires s.worker == AtWait && n <= |s.q|
    ensures Drain(s, 3 * n) == s.(q := s.q[n..],
                                  output := s.output + (if s.fileOpen then s.q[..n] else []))
    decreases n
  {
    if n == 0 {
      assert s.q[0..] == s.q && s.q[..0] == [];
    } else {
      DrainRound(s);
      var t := Drain(s, 3);
      DrainAdd(s, 3, 3 * (n - 1));
      DrainPrefix(t, n - 1);
      SplitFront(s.q, n);
      if s.fileOpen {
        assert (s.output + [s.q[0]]) + s.q[1..][..n - 1] == s.output + s.q[..n];
      }
    }
  }

  lemma SplitFront(q: seq<string>, n: nat)
    requires 0 < n <= |q|
    ensures q[1..][n - 1..] == q[n..]
    ensures q[..n] == [q[0]] + q[1..][..n - 1]
  {
  }

  /** Drain on shutdown: once the flag is raised and the worker is at its wait, each of its
      next |q| iterations pops the next line in order, the test closing the last of them
      wakes the `waitEmpty` callers, and the step after that returns, with every pending
      line written if the file is open. */
  lemma DrainTerminates(s: State)
    requires s.exitFlag && s.worker == AtWait
    ensures forall k :: 0 <= k < |s.q| ==> Step(Drain(s, 3 * k)).outcome == Popped(s.q[k])
    ensures s.q != [] ==> Step(Drain(s, 3 * |s.q| - 1)).outcome == Checked(true)
    ensures Step(Drain(s, 3 * |s.q|)).outcome == Exited
    ensures Drain(s, 3 * |s.q|).output == s.output + (if s.fileOpen then s.q else [])
  {
    forall k | 0 <= k < |s.q|
      ensures Step(Drain(s, 3 * k)).outcome == Popped(s.q[k])
    {
      DrainPrefix(s, k);
      DrainRound(Drain(s, 3 * k));
    }
    if s.q != [] {
      var m := |s.q| - 1;
      DrainPrefix(s, m);
      DrainRound(Drain(s, 3 * m));
      DrainAdd(s, 3 * m, 2);
    }
    DrainPrefix(s, |s.q|);
    assert s.q[..|s.q|] == s.q;
  }

  // ---------------------------------------------------------------------------
  // The logger object

  /** The logger's invariant, given the file's old lines, every submitted line and every
      line the worker has finished with: the submitted lines are the finished ones followed
      by the pending ones, the file holds its old lines followed by the finished ones (only
      its old lines, if it did not open), and the worker returns only after shutdown was
      requested. */
  ghost predicate Inv(prior: seq<string>, submitted: seq<string>, written: seq<string>, s: State)
  {
    submitted == written + Pending(s) &&
    s.output == prior + (if s.fileOpen then written else []) &&
    (s.worker == Stopped ==> s.exitFlag)
  }

  /** A worker step keeps the invariant, and the line it finishes, if any, is the one it
      held. */
  lemma StepKeepsInv(prior: seq<string>, submitted: seq<string>, written: seq<string>, s: State)
    requires Inv(prior, submitted, written, s)
    ensures Inv(prior, submitted, written + InFlight(s), Step(s).next)
  {
    StepPending(s);
    if s.worker.Holding? {
      assert Pending(s) == InFlight(s) + Pending(Step(s).next);
    }
  }

  /** Between two states that keep the invariant for the same submissions, the lines
      finished in between are exactly what was pending before and is no longer: once
      nothing is pending, the file has gained every line that was pending, in order. */
  lemma InvFlushed(prior: seq<string>, submitted: seq<string>, w0: seq<string>, s0: State,
                   w1: seq<string>, s1: State)
    requires Inv(prior, submitted, w0, s0) && Inv(prior, submitted, w1, s1)
    requires s1.fileOpen == s0.fileOpen && Pending(s1) == []
    ensures s1.output == s0.output + (if s0.fileOpen then Pending(s0) else [])
  {
    var p0 := Pending(s0);
    assert w1 + [] == w1;
    assert w1 == w0 + p0;
    if s0.fileOpen {
      assert s1.output == prior + (w0 + p0);
      assert s0.output == prior + w0;
      AppendAssoc(prior, w0, p0);
    } else {
      assert s1.output == prior + [] == prior;
      assert s0.output == prior + [] == prior;
      assert s0.output + [] == s0.output;
    }
  }

  lemma AppendAssoc(a: seq<string>, b: seq<string>, c: seq<string>)
    ensures a + (b + c) == (a + b) + c
  {
  }

  /** How many worker steps are left before the worker is back at its wait. */
  function StepsToWait(w: Worker): nat
  {
    match w
    case Holding(_) => 2
    case AfterWrite => 1
    case _ => 0
  }

  /** The worker steps it takes to write every queued line and get back to the wait. */
  function Backlog(s: State): nat
  {
    3 * |s.q| + StepsToWait(s.worker)
  }

  /** Every step that neither sleeps nor returns brings the worker closer to its wait with
      an empty queue, and the two others leave the backlog as it is; so a worker that is not
      fed new lines sleeps or returns within `Backlog` steps. */
  lemma StepProgress(s: State)
    ensures var r := Step(s);
      if r.outcome == Idle || r.outcome == Exited then Backlog(r.next) == Backlog(s)
      else Backlog(r.next) < Backlog(s)
  {
  }

  class Logger {
    var q: seq<string>
    var exitFlag: bool
    /** Whether the file opened (in append mode) when the logger was constructed. */
    const fileOpen: bool
    /** The lines of the log file. */
    var output: seq<string>
    /** The worker thread's position in `workerLoop`, with its local `item`. */
    var worker: Worker

    /** The file's lines before this logger opened it. */
    ghost const Prior: seq<string>
    /** Every line pushed since construction, in push order. */
    ghost var Submitted: seq<string>
    /** Every line the worker has finished with (written, or dropped if the file did not
        open), in the order it did so. */
    ghost var Written: seq<string>

    function Snapshot(): State
      reads this
    {
      State(q, exitFlag, fileOpen, output, worker)
    }

    /** FIFO without loss: the submitted lines are the finished ones followed by the pending
        ones (in flight, then queued); the file holds its old lines followed by the finished
        ones (only its old lines, if it did not open); and the worker has returned only after
        shutdown was requested. */
    ghost predicate Valid()
      reads this
    {
      Inv(Prior, Submitted, Written, Snapshot())
    }

    /** Opens the logger and starts the worker; `isOpen` is whether the file opened and
        `existing` its lines. */
    constructor (isOpen: bool, existing: seq<string>)
      ensures Valid()
      ensures q == [] && !exitFlag && fileOpen == isOpen && output == existing && worker == AtWait
      ensures Prior == existing && Submitted == []
    {
      q := [];
      exitFlag := false;
      fileOpen := isOpen;
      output := existing;
      worker := AtWait;
      Prior := existing;
      Submitted := [];
      Written := [];
      assert existing + [] == existing;
    }

    /** Formats the message with the timestamp `ts` and pushes it on the queue. */
    method Log(ts: string, level: Level, message: string)
      requires Valid()
      modifies this
      ensures Valid()
      ensures Snapshot() == Push(old(Snapshot()), FormatLine(ts, level, message))
      ensures Submitted == old(Submitted) + [FormatLine(ts, level, message)]
    {
      var line := FormatLine(ts, level, message);
      q := q + [line];
      Submitted := Submitted + [line];
      assert Pending(Snapshot()) == Pending(old(Snapshot())) + [line];
    }

    /** The destructor's critical section: request shutdown. */
    method RequestExit()
      requires Valid()
      modifies this
      ensures Valid() && Submitted == old(Submitted)
      ensures Snapshot() == SetExit(old(Snapshot()))
    {
      exitFlag := true;
      assert Pending(Snapshot()) == Pending(old(Snapshot()));
    }

    /** Whether `waitEmpty` may return now: only when the queue is empty. Then every
        submitted line is in the file or is the one line the worker holds unwritten. */
    method WaitEmpty() returns (released: bool)
      requires Valid()
      ensures released <==> Drained(Snapshot())
      ensures released && fileOpen ==> output + InFlight(Snapshot()) == Prior + Submitted
    {
      released := |q| == 0;
      if released {
        assert Pending(Snapshot()) == InFlight(Snapshot());
      }
    }

    /** A drain-wait that also waits for the worker's write: it may return only when the
        queue is empty and no popped line is unwritten, and then the file holds every
        submitted line. */
    method WaitAllWritten() returns (released: bool)
      requires Valid()
      ensures released <==> AllWritten(Snapshot())
      ensures released && fileOpen ==> output == Prior + Submitted
    {
      released := |q| == 0 && !worker.Holding?;
      if released {
        assert Pending(Snapshot()) == [];
      }
    }

    /** The worker's next step: the locked pop at the wait, the unlocked write, or the
        locked test for an empty queue. */
    method WorkerStep() returns (outcome: Outcome)
      requires Valid()
      modifies this
      ensures Valid() && Submitted == old(Submitted)
      ensures Snapshot() == Step(old(Snapshot())).next
      ensures outcome == Step(old(Snapshot())).outcome
    {
      StepKeepsInv(Prior, Submitted, Written, Snapshot());
      Written := Written + InFlight(Snapshot());
      match worker {
        case AtWait =>
          if !(exitFlag || |q| != 0) {
            outcome := Idle;
          } else if exitFlag && |q| == 0 {
            worker := Stopped;
            outcome := Exited;
          } else {
            var item := q[0];
            q := q[1..];
            worker := Holding(item);
            outcome := Popped(item);
          }
        case Holding(item) =>
          if fileOpen {
            output := output + [item];
          }
          worker := AfterWrite;
          outcome := Wrote(item);
        case AfterWrite =>
          outcome := Checked(|q| == 0);
          worker := AtWait;
        case Stopped =>
          outcome := Exited;
      }
      assert Snapshot() == Step(old(Snapshot())).next;
    }

    /** The worker loop, run until it returns or would sleep: it writes every pending line
        in order, then returns `true` if shutdown was requested (the thread ends) or
        `false` if it would wait for the next push. A worker that has already returned
        does nothing. `steps` counts the worker steps taken. */
    method WorkerLoop() returns (exited: bool, ghost steps: nat)
      requires Valid()
      modifies this
      ensures Valid() && Submitted == old(Submitted)
      ensures Snapshot() == Drain(old(Snapshot()), steps)
      ensures exitFlag == old(exitFlag)
      ensures old(worker) == Stopped ==> Snapshot() == old(Snapshot()) && exited
      ensures old(worker) != Stopped ==>
        q == [] && exited == exitFlag && worker == (if exitFlag then Stopped else AtWait) &&
        output == old(output) + (if fileOpen then Pending(old(Snapshot())) else [])
    {
      ghost var start := Snapshot();
      var outcome := WorkerStep();
      steps := 1;
      while !(outcome.Exited? || outcome.Idle?)
        invariant Valid() && Submitted == old(Submitted) && exitFlag == old(exitFlag)
        invariant Snapshot() == Drain(start, steps)
        invariant start.worker == Stopped ==> Snapshot() == start && outcome == Exited
        invariant outcome != Exited ==> worker != Stopped
        invariant start.worker != Stopped ==>
          (outcome == Exited ==> q == [] && worker == Stopped) &&
          (outcome == Idle ==> q == [] && worker == AtWait && !exitFlag)
        decreases Backlog(Snapshot()) + (if outcome.Exited? || outcome.Idle? then 0 else 1)
      {
        ghost var before := Snapshot();
        StepProgress(before);
        outcome := WorkerStep();
        assert Snapshot() == Step(before).next && outcome == Step(before).outcome;
        DrainAdd(start, steps, 1);
        steps := steps + 1;
      }
      exited := outcome.Exited?;
      if start.worker != Stopped {
        InvFlushed(Prior, Submitted, old(Written), start, Written, Snapshot());
      }
    }

    /** The destructor up to the join: raise the flag, then let the worker drain the queue
        and return. Afterwards, if the worker was still running, the queue is empty, the
        worker has returned and, if the file opened, it holds every line ever submitted,
        in submission order, after its old lines. */
    method Destroy()
      requires Valid()
      modifies this
      ensures Valid() && Submitted == old(Submitted) && exitFlag
      ensures old(worker) != Stopped ==>
        q == [] && worker == Stopped &&
        output == old(output) + (if fileOpen then Pending(old(Snapshot())) else []) &&
        (fileOpen ==> output == Prior + Submitted)
    {
      RequestExit();
      var exited, steps := WorkerLoop();
    }
  }
}
