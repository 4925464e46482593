/**
 * The run loop of ProcessPcb.c: processPcbArray drives every PCB of the
 * table through Ready, Running and Exit, one after another, dispatching
 * each operation of a process to processPcbLine.
 *
 * The log is a sequence of abstract events: the timestamps and the
 * `sprintf` text of the C lines are not modelled, only the kind of line
 * and its integer and string fields.  The waits of runTimer and of the
 * I/O thread are a separate sequence of millisecond amounts.
 *
 * The functions (`LineOutcome`, `RunOps`, `RunPcb`, `RunFrom`,
 * `Simulation`) say what the C code computes; the methods keep the C
 * code's shape and are proved equal to them.
 */
module ExecutionEngine {
  import opened SimTypes
  import opened LinkedList
  import opened PcbTable
  import opened MemoryManager

  /** One line of the simulator's log. */
  datatype Event =
    | SystemStart
    | BeginPcbCreation
    | AllNew
    | AllReady
    | SystemStop
    | Selected(policy: int, pid: int, estimate: int)
    | StateSet(pid: int, state: State)
    | AllocationStart(pid: int, segment: int, base: int, requested: int)
    | AllocationSuccessful(pid: int)
    | AllocationFailed(pid: int)
    | AccessStart(pid: int, segment: int, base: int, requested: int)
    | AccessSuccessful(pid: int)
    | AccessFailed(pid: int)
    | InputStart(pid: int, name: string)
    | InputEnd(pid: int, name: string)
    | OutputStart(pid: int, name: string)
    | OutputEnd(pid: int, name: string)
    | OperationStart(pid: int, name: string)
    | OperationEnd(pid: int, name: string)
    | SegmentationFault(pid: int)

  /** The lines that record a process's scheduling and state changes. */
  predicate IsLifecycle(e: Event)
  {
    e.Selected? || e.StateSet?
  }

  /** No line of `s` records a scheduling or state change. */
  predicate NoLifecycle(s: seq<Event>)
  {
    forall k :: 0 <= k < |s| ==> !IsLifecycle(s[k])
  }

  /** `log` is `old` followed by lines that are not lifecycle lines. */
  predicate ExtendsWithoutLifecycle(log: seq<Event>, old_: seq<Event>)
  {
    |old_| <= |log| && log[..|old_|] == old_ && NoLifecycle(log[|old_|..])
  }

  /**
   * The list side of addLineToLogFile: the line joins the log for the
   * destinations File (1) and Both (2); Monitor (0) and any other code
   * leave the log as it is.
   */
  function AddLineToLogFile(line: Event, log: seq<Event>, logTo: int): seq<Event>
  {
    if logTo == LOG_FILE || logTo == LOG_BOTH then log + [line] else log
  }

  /** A non-lifecycle line extends the log without lifecycle lines. */
  lemma AddOpLine(line: Event, log: seq<Event>, logTo: int)
    requires !IsLifecycle(line)
    ensures ExtendsWithoutLifecycle(AddLineToLogFile(line, log, logTo), log)
  {
    var r := AddLineToLogFile(line, log, logTo);
    assert r[|log|..] == [] || r[|log|..] == [line];
  }

  /** ExtendsWithoutLifecycle chains. */
  lemma ExtendsTrans(a: seq<Event>, b: seq<Event>, c: seq<Event>)
    requires ExtendsWithoutLifecycle(b, a) && ExtendsWithoutLifecycle(c, b)
    ensures ExtendsWithoutLifecycle(c, a)
  {
    assert c[..|a|] == b[..|a|];
    forall k | 0 <= k < |c| - |a|
      ensures !IsLifecycle(c[|a|..][k])
    {
      if |a| + k < |b| {
        assert c[|a|..][k] == b[|a|..][k];
      } else {
        assert c[|a|..][k] == c[|b|..][|a| + k - |b|];
      }
    }
  }

  /** startOperatingSystemOps: the three opening lines. */
  function StartOperatingSystemOps(log: seq<Event>, logTo: int): seq<Event>
  {
    var log1 := AddLineToLogFile(SystemStart, log, logTo);
    var log2 := AddLineToLogFile(BeginPcbCreation, log1, logTo);
    AddLineToLogFile(AllNew, log2, logTo)
  }

  /** endOperatingSystemOps: the closing line. */
  function EndOperatingSystemOps(log: seq<Event>, logTo: int): seq<Event>
  {
    AddLineToLogFile(SystemStop, log, logTo)
  }

  // ---------------------------------------------------------------------
  // processPcbLine

  /** What one call of processPcbLine leaves behind. */
  datatype LineResult = LineResult(verdict: Verdict, memory: seq<Mmu>, log: seq<Event>, waits: seq<int>)

  /** The input case: start line, one wait of ioCycleTime per cycle, end line, success. */
  function InputOutcome(data: CfgData, process: Pcb, op: Op, memory: seq<Mmu>, log: seq<Event>, waits: seq<int>): LineResult
  {
    var pid := process.processCounter;
    var log1 := AddLineToLogFile(InputStart(pid, op.name), log, data.logTo);
    LineResult(Returns(1), memory, AddLineToLogFile(InputEnd(pid, op.name), log1, data.logTo),
               waits + [data.ioCycleTime * process.processCycle])
  }

  /** The output case: as the input case with output lines. */
  function OutputOutcome(data: CfgData, process: Pcb, op: Op, memory: seq<Mmu>, log: seq<Event>, waits: seq<int>): LineResult
  {
    var pid := process.processCounter;
    var log1 := AddLineToLogFile(OutputStart(pid, op.name), log, data.logTo);
    LineResult(Returns(1), memory, AddLineToLogFile(OutputEnd(pid, op.name), log1, data.logTo),
               waits + [data.ioCycleTime * process.processCycle])
  }

  /** The processor case: start line, one wait of procCycleTime per cycle, end line, success. */
  function OperationOutcome(data: CfgData, process: Pcb, op: Op, memory: seq<Mmu>, log: seq<Event>, waits: seq<int>): LineResult
  {
    var pid := process.processCounter;
    var log1 := AddLineToLogFile(OperationStart(pid, op.name), log, data.logTo);
    LineResult(Returns(1), memory, AddLineToLogFile(OperationEnd(pid, op.name), log1, data.logTo),
               waits + [data.procCycleTime * process.processCycle])
  }

  /** M(allocate): start line, then allocateMem; its 1 is success, any other code failure. */
  function AllocationOutcome(data: CfgData, process: Pcb, memory: seq<Mmu>, log: seq<Event>, waits: seq<int>): LineResult
  {
    var pid := process.processCounter;
    var mmu := ProcessMemoryRequest(process);
    var log1 := AddLineToLogFile(AllocationStart(pid, mmu.segment, mmu.base, mmu.requested), log, data.logTo);
    var verdict := AllocateVerdict(mmu, memory, data.memAvailable);
    var memory1 := AllocateRegistry(mmu, memory, data.memAvailable);
    if verdict == Spins then LineResult(Spins, memory1, log1, waits)
    else if verdict == Returns(1) then
      LineResult(Returns(1), memory1, AddLineToLogFile(AllocationSuccessful(pid), log1, data.logTo), waits)
    else LineResult(Returns(0), memory1, AddLineToLogFile(AllocationFailed(pid), log1, data.logTo), waits)
  }

  /** M(access): start line, then accessMem; its 1 is success, any other code failure. */
  function AccessOutcome(data: CfgData, process: Pcb, memory: seq<Mmu>, log: seq<Event>, waits: seq<int>): LineResult
  {
    var pid := process.processCounter;
    var mmu := ProcessMemoryRequest(process);
    var log1 := AddLineToLogFile(AccessStart(pid, mmu.segment, mmu.base, mmu.requested), log, data.logTo);
    var verdict := AccessVerdict(mmu, memory, data.memAvailable);
    if verdict == Spins then LineResult(Spins, memory, log1, waits)
    else if verdict == Returns(1) then
      LineResult(Returns(1), memory, AddLineToLogFile(AccessSuccessful(pid), log1, data.logTo), waits)
    else LineResult(Returns(0), memory, AddLineToLogFile(AccessFailed(pid), log1, data.logTo), waits)
  }

  /**
   * processPcbLine on the operation `op` at the process's cursor.  An 'M'
   * operation that is neither allocate nor access has no `break`, so it
   * runs the input case.  Any letter other than M, I, O and P fails.
   */
  function LineOutcome(data: CfgData, process: Pcb, op: Op, memory: seq<Mmu>, log: seq<Event>, waits: seq<int>): LineResult
  {
    if op.letter == 'M' && op.name == "allocate" then AllocationOutcome(data, process, memory, log, waits)
    else if op.letter == 'M' && op.name == "access" then AccessOutcome(data, process, memory, log, waits)
    else if op.letter == 'M' || op.letter == 'I' then InputOutcome(data, process, op, memory, log, waits)
    else if op.letter == 'O' then OutputOutcome(data, process, op, memory, log, waits)
    else if op.letter == 'P' then OperationOutcome(data, process, op, memory, log, waits)
    else LineResult(Returns(0), memory, log, waits)
  }

  /**
   * What processPcbLine reports: 1 for I, O and P; 0 for a letter outside
   * M, I, O, P; allocateMem's or accessMem's outcome for M(allocate) and
   * M(access); and, by falling through, the input case's 1 for any other M.
   * Only M(allocate) can change the registry, and never past one region.
   */
  lemma LineVerdicts(data: CfgData, process: Pcb, op: Op, memory: seq<Mmu>, log: seq<Event>, waits: seq<int>)
    ensures var r := LineOutcome(data, process, op, memory, log, waits);
            && (op.letter == 'I' || op.letter == 'O' || op.letter == 'P' ==> r.verdict == Returns(1))
            && (op.letter !in {'M', 'I', 'O', 'P'} ==> r.verdict == Returns(0) && r.log == log && r.waits == waits)
            && (op.letter == 'M' && op.name == "allocate" ==>
                  r.verdict == AllocateVerdict(ProcessMemoryRequest(process), memory, data.memAvailable))
            && (op.letter == 'M' && op.name == "access" ==>
                  r.verdict == AccessVerdict(ProcessMemoryRequest(process), memory, data.memAvailable))
            && (op.letter == 'M' && op.name != "allocate" && op.name != "access" ==>
                  r == InputOutcome(data, process, op, memory, log, waits) && r.verdict == Returns(1))
            && (!(op.letter == 'M' && op.name == "allocate") ==> r.memory == memory)
            && (|memory| <= 1 ==> |r.memory| <= 1)
  {
    AllocateAtMostOne(ProcessMemoryRequest(process), memory, data.memAvailable);
  }

  /** Every case of processPcbLine only adds operation lines to the log. */
  lemma LineLogExtends(data: CfgData, process: Pcb, op: Op, memory: seq<Mmu>, log: seq<Event>, waits: seq<int>)
    ensures ExtendsWithoutLifecycle(LineOutcome(data, process, op, memory, log, waits).log, log)
  {
    var r := LineOutcome(data, process, op, memory, log, waits);
    var pid := process.processCounter;
    var mmu := ProcessMemoryRequest(process);
    var logTo := data.logTo;
    if op.letter == 'M' && op.name == "allocate" {
      var log1 := AddLineToLogFile(AllocationStart(pid, mmu.segment, mmu.base, mmu.requested), log, logTo);
      AddOpLine(AllocationStart(pid, mmu.segment, mmu.base, mmu.requested), log, logTo);
      AddOpLine(AllocationSuccessful(pid), log1, logTo);
      AddOpLine(AllocationFailed(pid), log1, logTo);
      if r.log != log1 {
        ExtendsTrans(log, log1, r.log);
      }
    } else if op.letter == 'M' && op.name == "access" {
      var log1 := AddLineToLogFile(AccessStart(pid, mmu.segment, mmu.base, mmu.requested), log, logTo);
      AddOpLine(AccessStart(pid, mmu.segment, mmu.base, mmu.requested), log, logTo);
      AddOpLine(AccessSuccessful(pid), log1, logTo);
      AddOpLine(AccessFailed(pid), log1, logTo);
      if r.log != log1 {
        ExtendsTrans(log, log1, r.log);
      }
    } else if op.letter == 'M' || op.letter == 'I' {
      var log1 := AddLineToLogFile(InputStart(pid, op.name), log, logTo);
      AddOpLine(InputStart(pid, op.name), log, logTo);
      AddOpLine(InputEnd(pid, op.name), log1, logTo);
      ExtendsTrans(log, log1, r.log);
    } else if op.letter == 'O' {
      var log1 := AddLineToLogFile(OutputStart(pid, op.name), log, logTo);
      AddOpLine(OutputStart(pid, op.name), log, logTo);
      AddOpLine(OutputEnd(pid, op.name), log1, logTo);
      ExtendsTrans(log, log1, r.log);
    } else if op.letter == 'P' {
      var log1 := AddLineToLogFile(OperationStart(pid, op.name), log, logTo);
      AddOpLine(OperationStart(pid, op.name), log, logTo);
      AddOpLine(OperationEnd(pid, op.name), log1, logTo);
      ExtendsTrans(log, log1, r.log);
    } else {
      assert r.log[|log|..] == [];
    }
  }

  // ---------------------------------------------------------------------
  // One process's operations

  /** How the operation loop of one process ends. */
  datatype RunEnd = Completed | Faulted | Hung

  /** The state the operation loop leaves: its end, the cursor it stopped at, registry, log, waits. */
  datatype Run = Run(end: RunEnd, cursor: nat, memory: seq<Mmu>, log: seq<Event>, waits: seq<int>)

  /**
   * The operation loop of processPcbArray for process `pid` from the
   * operation at `cursor`: until an 'A' node, each operation runs with the
   * PCB's cycle set to that operation's cycles; success moves the cursor on,
   * failure logs a segmentation fault and ends the loop, and a registry scan
   * that never returns stops everything.
   */
  function RunOps(data: CfgData, ops: seq<Op>, pid: int, cursor: nat,
                  memory: seq<Mmu>, log: seq<Event>, waits: seq<int>): (r: Run)
    requires cursor < |ops| && NextA(ops, cursor) < |ops|
    ensures cursor <= r.cursor <= NextA(ops, cursor)
    decreases NextA(ops, cursor) - cursor, 1
  {
    if ops[cursor].letter == 'A' then Run(Completed, cursor, memory, log, waits)
    else RunLine(data, ops, pid, cursor, memory, log, waits)
  }

  /**
   * The body of the operation loop at a non-'A' node: the operation runs
   * with the PCB's cycle set to that operation's cycles; success moves the
   * cursor on, failure logs a segmentation fault and ends the loop, and a
   * registry scan that never returns stops everything.
   */
  function RunLine(data: CfgData, ops: seq<Op>, pid: int, cursor: nat,
                   memory: seq<Mmu>, log: seq<Event>, waits: seq<int>): (r: Run)
    requires cursor < |ops| && NextA(ops, cursor) < |ops| && ops[cursor].letter != 'A'
    ensures cursor <= r.cursor <= NextA(ops, cursor)
    decreases NextA(ops, cursor) - cursor, 0
  {
    var line := LineOutcome(data, Pcb(cursor, pid, ops[cursor].cycles, Running), ops[cursor], memory, log, waits);
    if line.verdict == Returns(1) then RunOps(data, ops, pid, cursor + 1, line.memory, line.log, line.waits)
    else if line.verdict == Spins then Run(Hung, cursor, line.memory, line.log, line.waits)
    else Run(Faulted, cursor, line.memory, AddLineToLogFile(SegmentationFault(pid), line.log, data.logTo), line.waits)
  }

  /** One step of the operation loop, from a non-'A' node, as processPcbLine's result decides it. */
  lemma RunOpsStep(data: CfgData, ops: seq<Op>, pid: int, cursor: nat,
                   memory: seq<Mmu>, log: seq<Event>, waits: seq<int>, line: LineResult)
    requires cursor < |ops| && NextA(ops, cursor) < |ops| && ops[cursor].letter != 'A'
    requires line == LineOutcome(data, Pcb(cursor, pid, ops[cursor].cycles, Running), ops[cursor], memory, log, waits)
    ensures line.verdict == Returns(1) ==>
              RunOps(data, ops, pid, cursor, memory, log, waits)
              == RunOps(data, ops, pid, cursor + 1, line.memory, line.log, line.waits)
    ensures line.verdict == Spins ==>
              RunOps(data, ops, pid, cursor, memory, log, waits)
              == Run(Hung, cursor, line.memory, line.log, line.waits)
    ensures line.verdict != Returns(1) && line.verdict != Spins ==>
              RunOps(data, ops, pid, cursor, memory, log, waits)
              == Run(Faulted, cursor, line.memory, AddLineToLogFile(SegmentationFault(pid), line.log, data.logTo), line.waits)
  {
  }

  /**
   * One pass of the operation loop towards the loop's final state `target`,
   * from what processPcbLine returned and what the loop body then logged.
   */
  lemma StepRuns(data: CfgData, ops: seq<Op>, pid: int, cursor: nat, memory: seq<Mmu>, log: seq<Event>, waits: seq<int>,
                 verdict: Verdict, memory': seq<Mmu>, log': seq<Event>, waits': seq<int>, target: Run)
    requires cursor < |ops| && NextA(ops, cursor) < |ops| && ops[cursor].letter != 'A'
    requires RunOps(data, ops, pid, cursor, memory, log, waits) == target
    requires var line := LineOutcome(data, Pcb(cursor, pid, ops[cursor].cycles, Running), ops[cursor], memory, log, waits);
             && verdict == line.verdict && memory' == line.memory && waits' == line.waits
             && log' == (if verdict == Returns(1) || verdict == Spins then line.log
                         else AddLineToLogFile(SegmentationFault(pid), line.log, data.logTo))
    ensures verdict == Returns(1) ==> RunOps(data, ops, pid, cursor + 1, memory', log', waits') == target
    ensures verdict != Returns(1) ==> target == Run(if verdict == Spins then Hung else Faulted, cursor, memory', log', waits')
  {
    var line := LineOutcome(data, Pcb(cursor, pid, ops[cursor].cycles, Running), ops[cursor], memory, log, waits);
    RunOpsStep(data, ops, pid, cursor, memory, log, waits, line);
  }

  /**
   * Where the operation loop stops: it completes exactly at the next 'A'
   * node; it can hang only on M(allocate) or M(access); and it faults only
   * on one of those or on a letter processPcbLine does not know.
   */
  lemma {:induction false} RunOpsEnds(data: CfgData, ops: seq<Op>, pid: int, cursor: nat,
                                      memory: seq<Mmu>, log: seq<Event>, waits: seq<int>)
    requires cursor < |ops| && NextA(ops, cursor) < |ops|
    ensures var r := RunOps(data, ops, pid, cursor, memory, log, waits);
            && (r.end == Completed <==> r.cursor == NextA(ops, cursor))
            && (r.end != Completed ==> ops[r.cursor].letter != 'A')
            && (r.end == Hung ==> ops[r.cursor].letter == 'M' && ops[r.cursor].name in {"allocate", "access"})
            && (r.end == Faulted ==>
                  (ops[r.cursor].letter == 'M' && ops[r.cursor].name in {"allocate", "access"})
                  || ops[r.cursor].letter !in {'M', 'I', 'O', 'P'})
    decreases NextA(ops, cursor) - cursor
  {
    if ops[cursor].letter != 'A' {
      var p := Pcb(cursor, pid, ops[cursor].cycles, Running);
      LineVerdicts(data, p, ops[cursor], memory, log, waits);
      var line := LineOutcome(data, p, ops[cursor], memory, log, waits);
      if line.verdict == Returns(1) {
        RunOpsEnds(data, ops, pid, cursor + 1, line.memory, line.log, line.waits);
      }
    }
  }

  /** The operation loop adds no scheduling or state lines to the log. */
  lemma {:induction false} RunOpsLog(data: CfgData, ops: seq<Op>, pid: int, cursor: nat,
                                     memory: seq<Mmu>, log: seq<Event>, waits: seq<int>)
    requires cursor < |ops| && NextA(ops, cursor) < |ops|
    ensures ExtendsWithoutLifecycle(RunOps(data, ops, pid, cursor, memory, log, waits).log, log)
    decreases NextA(ops, cursor) - cursor
  {
    if ops[cursor].letter == 'A' {
      assert log[|log|..] == [];
    } else {
      var p := Pcb(cursor, pid, ops[cursor].cycles, Running);
      var line := LineOutcome(data, p, ops[cursor], memory, log, waits);
      LineLogExtends(data, p, ops[cursor], memory, log, waits);
      var r := RunOps(data, ops, pid, cursor, memory, log, waits);
      if line.verdict == Returns(1) {
        RunOpsLog(data, ops, pid, cursor + 1, line.memory, line.log, line.waits);
        ExtendsTrans(log, line.log, r.log);
      } else if line.verdict != Spins {
        AddOpLine(SegmentationFault(pid), line.log, data.logTo);
        ExtendsTrans(log, line.log, r.log);
      }
    }
  }

  /** A registry the operation loop starts with at most one region ends with at most one. */
  lemma {:induction false} RunOpsRegistry(data: CfgData, ops: seq<Op>, pid: int, cursor: nat,
                                          memory: seq<Mmu>, log: seq<Event>, waits: seq<int>)
    requires cursor < |ops| && NextA(ops, cursor) < |ops|
    requires |memory| <= 1
    ensures |RunOps(data, ops, pid, cursor, memory, log, waits).memory| <= 1
    decreases NextA(ops, cursor) - cursor
  {
    if ops[cursor].letter != 'A' {
      var p := Pcb(cursor, pid, ops[cursor].cycles, Running);
      LineVerdicts(data, p, ops[cursor], memory, log, waits);
      var line := LineOutcome(data, p, ops[cursor], memory, log, waits);
      if line.verdict == Returns(1) {
        RunOpsRegistry(data, ops, pid, cursor + 1, line.memory, line.log, line.waits);
      }
    }
  }

  /** A PCB processPcbArray can run: its estimate, its first step and its operation loop stay on the list. */
  predicate Runnable(ops: seq<Op>, p: Pcb)
  {
    EstimateDefined(ops, p.cursor) && p.cursor + 1 < |ops| && NextA(ops, p.cursor + 1) < |ops|
  }

  /** What running one PCB leaves: the PCB, the log, the waits, and whether the simulator hangs. */
  datatype Outcome = Outcome(pcb: Pcb, log: seq<Event>, waits: seq<int>, hung: bool)

  /**
   * One iteration of processPcbArray's process loop: the selection line
   * with the PCB's estimate, Running, the operation loop on a fresh empty
   * registry from the node after the start marker, then Exit.
   */
  function RunPcb(data: CfgData, ops: seq<Op>, p: Pcb, log: seq<Event>, waits: seq<int>): Outcome
    requires Runnable(ops, p)
  {
    var pid := p.processCounter;
    var log1 := AddLineToLogFile(Selected(data.cpuSchedulingCode, pid, Estimate(ops, data, p.cursor)), log, data.logTo);
    var log2 := AddLineToLogFile(StateSet(pid, Running), log1, data.logTo);
    var r := RunOps(data, ops, pid, p.cursor + 1, [], log2, waits);
    if r.end == Hung then Outcome(Pcb(r.cursor, pid, ops[r.cursor].cycles, Running), r.log, r.waits, true)
    else Outcome(Pcb(r.cursor, pid, ops[r.cursor].cycles, Exit), AddLineToLogFile(StateSet(pid, Exit), r.log, data.logTo), r.waits, false)
  }

  /** The simulator's state between processes: the PCB table, the log, the waits, and a hang. */
  datatype Sim = Sim(table: seq<Pcb>, log: seq<Event>, waits: seq<int>, hung: bool)

  /** Every PCB from `i` up to `n` can be run. */
  predicate RunnableFrom(ops: seq<Op>, table: seq<Pcb>, i: nat, n: nat)
    requires n <= |table|
  {
    forall k :: i <= k < n ==> Runnable(ops, table[k])
  }

  /** processPcbArray's process loop from PCB `i` up to `n`: each PCB in array order, until a process hangs. */
  function RunFrom(data: CfgData, ops: seq<Op>, s: Sim, i: nat, n: nat): Sim
    requires i <= n <= |s.table| && RunnableFrom(ops, s.table, i, n)
    decreases n - i, 1
  {
    if i == n || s.hung then s
    else RunNext(data, ops, s, i, n)
  }

  /** One pass of the process loop: PCB `i` runs, its entry is stored back, and the loop goes on. */
  function RunNext(data: CfgData, ops: seq<Op>, s: Sim, i: nat, n: nat): Sim
    requires i < n <= |s.table| && RunnableFrom(ops, s.table, i, n)
    decreases n - i, 0
  {
    var o := RunPcb(data, ops, s.table[i], s.log, s.waits);
    RunFrom(data, ops, Sim(s.table[i := o.pcb], o.log, o.waits, o.hung), i + 1, n)
  }

  /** One pass of the process loop, for a simulation that has not hung. */
  lemma RunFromStep(data: CfgData, ops: seq<Op>, s: Sim, i: nat, n: nat)
    requires i < n <= |s.table| && RunnableFrom(ops, s.table, i, n) && !s.hung
    ensures var o := RunPcb(data, ops, s.table[i], s.log, s.waits);
            && RunnableFrom(ops, s.table[i := o.pcb], i + 1, n)
            && RunFrom(data, ops, s, i, n)
               == RunFrom(data, ops, Sim(s.table[i := o.pcb], o.log, o.waits, o.hung), i + 1, n)
  {
  }

  /** setPcbArrayToReady's table: entries 0 through `n`, inclusive, set to Ready. */
  function MadeReady(table: seq<Pcb>, n: nat): (t: seq<Pcb>)
    requires n < |table|
    ensures |t| == |table|
    ensures forall k :: 0 <= k <= n ==> t[k] == table[k].(processState := Ready)
    ensures forall k :: n < k < |table| ==> t[k] == table[k]
  {
    seq(|table|, k requires 0 <= k < |table| => if k <= n then table[k].(processState := Ready) else table[k])
  }

  /**
   * processPcbArray on a table of `n` PCBs: the opening lines, every entry
   * up to `n` set Ready, the process loop, and the closing line unless a
   * process hung.
   */
  function Simulation(table: seq<Pcb>, data: CfgData, ops: seq<Op>, n: nat): Sim
    requires n < |table| && RunnableFrom(ops, table, 0, n)
  {
    var log := AddLineToLogFile(AllReady, StartOperatingSystemOps([], data.logTo), data.logTo);
    var ready := MadeReady(table, n);
    var s := RunFrom(data, ops, Sim(ready, log, [], false), 0, n);
    if s.hung then s else s.(log := EndOperatingSystemOps(s.log, data.logTo))
  }

  // ---------------------------------------------------------------------
  // What a whole run promises

  /** A destination other than File or Both keeps nothing in the log. */
  predicate Silent(logTo: int)
  {
    logTo != LOG_FILE && logTo != LOG_BOTH
  }

  /** Under a silent destination processPcbLine leaves the log as it is. */
  lemma LineSilent(data: CfgData, process: Pcb, op: Op, memory: seq<Mmu>, log: seq<Event>, waits: seq<int>)
    requires Silent(data.logTo)
    ensures LineOutcome(data, process, op, memory, log, waits).log == log
  {
  }

  /** Under a silent destination the operation loop leaves the log as it is. */
  lemma {:induction false} RunOpsSilent(data: CfgData, ops: seq<Op>, pid: int, cursor: nat,
                                        memory: seq<Mmu>, log: seq<Event>, waits: seq<int>)
    requires cursor < |ops| && NextA(ops, cursor) < |ops| && Silent(data.logTo)
    ensures RunOps(data, ops, pid, cursor, memory, log, waits).log == log
    decreases NextA(ops, cursor) - cursor
  {
    if ops[cursor].letter != 'A' {
      var p := Pcb(cursor, pid, ops[cursor].cycles, Running);
      LineSilent(data, p, ops[cursor], memory, log, waits);
      var line := LineOutcome(data, p, ops[cursor], memory, log, waits);
      if line.verdict == Returns(1) {
        RunOpsSilent(data, ops, pid, cursor + 1, line.memory, line.log, line.waits);
      }
    }
  }

  /** The lifecycle lines of `s`, in order. */
  function Lifecycle(s: seq<Event>): (r: seq<Event>)
    ensures |r| <= |s|
  {
    if s == [] then []
    else Lifecycle(s[..|s| - 1]) + (if IsLifecycle(s[|s| - 1]) then [s[|s| - 1]] else [])
  }

  /** The lifecycle lines of a concatenation are those of its parts. */
  lemma {:induction false} LifecycleConcat(a: seq<Event>, b: seq<Event>)
    ensures Lifecycle(a + b) == Lifecycle(a) + Lifecycle(b)
    decreases |b|
  {
    if b != [] {
      var b' := b[..|b| - 1];
      assert (a + b)[..|a + b| - 1] == a + b';
      LifecycleConcat(a, b');
    } else {
      assert a + b == a;
    }
  }

  /** A stretch without lifecycle lines has none to list. */
  lemma {:induction false} LifecycleNone(s: seq<Event>)
    requires NoLifecycle(s)
    ensures Lifecycle(s) == []
    decreases |s|
  {
    if s != [] {
      LifecycleNone(s[..|s| - 1]);
    }
  }

  /** Extending a log without lifecycle lines keeps its lifecycle lines. */
  lemma LifecycleKept(log: seq<Event>, old_: seq<Event>)
    requires ExtendsWithoutLifecycle(log, old_)
    ensures Lifecycle(log) == Lifecycle(old_)
  {
    assert log == old_ + log[|old_|..];
    LifecycleConcat(old_, log[|old_|..]);
    LifecycleNone(log[|old_|..]);
  }

  /** A lifecycle line added to the log is the next lifecycle line. */
  lemma LifecycleAdd(line: Event, log: seq<Event>, logTo: int)
    requires IsLifecycle(line) && !Silent(logTo)
    ensures Lifecycle(AddLineToLogFile(line, log, logTo)) == Lifecycle(log) + [line]
  {
    assert (log + [line])[..|log|] == log;
  }

  /** The opening lines and the all-Ready line hold no lifecycle line. */
  lemma OpeningLines(logTo: int)
    ensures Lifecycle(AddLineToLogFile(AllReady, StartOperatingSystemOps([], logTo), logTo)) == []
  {
    var log := AddLineToLogFile(AllReady, StartOperatingSystemOps([], logTo), logTo);
    assert NoLifecycle(log);
    LifecycleNone(log);
  }

  /** The closing line is not a lifecycle line. */
  lemma ClosingLine(log: seq<Event>, logTo: int)
    ensures Lifecycle(EndOperatingSystemOps(log, logTo)) == Lifecycle(log)
  {
    assert NoLifecycle([SystemStop]);
    LifecycleConcat(log, [SystemStop]);
    LifecycleNone([SystemStop]);
  }

  /** The lifecycle lines of one process that runs to the end: selection, Running, Exit. */
  function Trio(data: CfgData, ops: seq<Op>, p: Pcb): seq<Event>
    requires EstimateDefined(ops, p.cursor)
  {
    [Selected(data.cpuSchedulingCode, p.processCounter, Estimate(ops, data, p.cursor)),
     StateSet(p.processCounter, Running), StateSet(p.processCounter, Exit)]
  }

  /** The lifecycle lines of PCBs `i` up to `n`, each running to the end, in array order. */
  function Schedule(data: CfgData, ops: seq<Op>, table: seq<Pcb>, i: nat, n: nat): seq<Event>
    requires i <= n <= |table| && RunnableFrom(ops, table, i, n)
    decreases n - i
  {
    if i == n then [] else Trio(data, ops, table[i]) + Schedule(data, ops, table, i + 1, n)
  }

  /** The schedule depends only on each PCB's cursor and process number. */
  lemma {:induction false} ScheduleFrame(data: CfgData, ops: seq<Op>, t: seq<Pcb>, u: seq<Pcb>, i: nat, n: nat)
    requires i <= n <= |t| && n <= |u| && RunnableFrom(ops, t, i, n)
    requires forall k :: i <= k < n ==> t[k].cursor == u[k].cursor && t[k].processCounter == u[k].processCounter
    ensures RunnableFrom(ops, u, i, n)
    ensures Schedule(data, ops, t, i, n) == Schedule(data, ops, u, i, n)
    decreases n - i
  {
    assert forall k :: i <= k < n ==> Runnable(ops, u[k]) by {
      forall k | i <= k < n
        ensures Runnable(ops, u[k])
      {
        assert Runnable(ops, t[k]);
      }
    }
    if i < n {
      ScheduleFrame(data, ops, t, u, i + 1, n);
    }
  }

  /** Running one PCB: its entry keeps its process number and ends in Exit, or in Running when it hung. */
  lemma RunPcbEntry(data: CfgData, ops: seq<Op>, p: Pcb, log: seq<Event>, waits: seq<int>)
    requires Runnable(ops, p)
    ensures RunPcb(data, ops, p, log, waits).pcb.processCounter == p.processCounter
    ensures RunPcb(data, ops, p, log, waits).pcb.processState == (if RunPcb(data, ops, p, log, waits).hung then Running else Exit)
  {
  }

  /** Running one PCB with a silent destination leaves the log as it is. */
  lemma RunPcbSilent(data: CfgData, ops: seq<Op>, p: Pcb, log: seq<Event>, waits: seq<int>)
    requires Runnable(ops, p) && Silent(data.logTo)
    ensures RunPcb(data, ops, p, log, waits).log == log
  {
    var pid := p.processCounter;
    var log1 := AddLineToLogFile(Selected(data.cpuSchedulingCode, pid, Estimate(ops, data, p.cursor)), log, data.logTo);
    var log2 := AddLineToLogFile(StateSet(pid, Running), log1, data.logTo);
    RunOpsSilent(data, ops, pid, p.cursor + 1, [], log2, waits);
  }

  /** Running one PCB to the end with File or Both adds exactly its selection, Running and Exit lifecycle lines. */
  lemma RunPcbLifecycle(data: CfgData, ops: seq<Op>, p: Pcb, log: seq<Event>, waits: seq<int>)
    requires Runnable(ops, p) && !Silent(data.logTo)
    ensures !RunPcb(data, ops, p, log, waits).hung ==>
              Lifecycle(RunPcb(data, ops, p, log, waits).log) == Lifecycle(log) + Trio(data, ops, p)
  {
    var pid := p.processCounter;
    var log1 := AddLineToLogFile(Selected(data.cpuSchedulingCode, pid, Estimate(ops, data, p.cursor)), log, data.logTo);
    var log2 := AddLineToLogFile(StateSet(pid, Running), log1, data.logTo);
    var r := RunOps(data, ops, pid, p.cursor + 1, [], log2, waits);
    LifecycleAdd(Selected(data.cpuSchedulingCode, pid, Estimate(ops, data, p.cursor)), log, data.logTo);
    LifecycleAdd(StateSet(pid, Running), log1, data.logTo);
    RunOpsLog(data, ops, pid, p.cursor + 1, [], log2, waits);
    LifecycleKept(r.log, log2);
    LifecycleAdd(StateSet(pid, Exit), r.log, data.logTo);
  }

  /**
   * The process loop from PCB `i`: entries outside `i` up to `n` are
   * untouched, every entry keeps its process number, and when no process
   * hangs each entry from `i` up to `n` ends in Exit.
   */
  lemma {:induction false} RunFromTable(data: CfgData, ops: seq<Op>, s: Sim, i: nat, n: nat)
    requires i <= n <= |s.table| && RunnableFrom(ops, s.table, i, n) && !s.hung
    ensures var r := RunFrom(data, ops, s, i, n);
            && |r.table| == |s.table|
            && (forall k :: 0 <= k < |s.table| && !(i <= k < n) ==> r.table[k] == s.table[k])
            && (forall k :: 0 <= k < |s.table| ==> r.table[k].processCounter == s.table[k].processCounter)
            && (!r.hung ==> forall k :: i <= k < n ==> r.table[k].processState == Exit)
    decreases n - i
  {
    if i < n {
      var o := RunPcb(data, ops, s.table[i], s.log, s.waits);
      var next := Sim(s.table[i := o.pcb], o.log, o.waits, o.hung);
      RunFromStep(data, ops, s, i, n);
      RunPcbEntry(data, ops, s.table[i], s.log, s.waits);
      if !o.hung {
        RunFromTable(data, ops, next, i + 1, n);
      }
    }
  }

  /** With a silent destination the process loop leaves the log as it is. */
  lemma {:induction false} RunFromSilent(data: CfgData, ops: seq<Op>, s: Sim, i: nat, n: nat)
    requires i <= n <= |s.table| && RunnableFrom(ops, s.table, i, n) && !s.hung && Silent(data.logTo)
    ensures RunFrom(data, ops, s, i, n).log == s.log
    decreases n - i
  {
    if i < n {
      var o := RunPcb(data, ops, s.table[i], s.log, s.waits);
      RunFromStep(data, ops, s, i, n);
      RunPcbSilent(data, ops, s.table[i], s.log, s.waits);
      if !o.hung {
        RunFromSilent(data, ops, Sim(s.table[i := o.pcb], o.log, o.waits, o.hung), i + 1, n);
      }
    }
  }

  /** The schedule from `i` is PCB `i`'s lines, then the schedule from `i + 1` of a table that agrees from there on. */
  lemma ScheduleStep(data: CfgData, ops: seq<Op>, t: seq<Pcb>, u: seq<Pcb>, i: nat, n: nat)
    requires i < n <= |t| && n <= |u| && RunnableFrom(ops, t, i, n)
    requires forall k :: i < k < n ==> t[k].cursor == u[k].cursor && t[k].processCounter == u[k].processCounter
    ensures RunnableFrom(ops, u, i + 1, n)
    ensures Schedule(data, ops, t, i, n) == Trio(data, ops, t[i]) + Schedule(data, ops, u, i + 1, n)
  {
    ScheduleFrame(data, ops, t, u, i + 1, n);
  }

  /**
   * The log of the process loop from PCB `i` with File or Both: when no
   * process hangs it gains exactly the lifecycle lines of PCBs `i` up to
   * `n`, one process after another in array order.
   */
  lemma {:induction false} RunFromLog(data: CfgData, ops: seq<Op>, s: Sim, i: nat, n: nat)
    requires i <= n <= |s.table| && RunnableFrom(ops, s.table, i, n) && !s.hung && !Silent(data.logTo)
    ensures !RunFrom(data, ops, s, i, n).hung ==>
              Lifecycle(RunFrom(data, ops, s, i, n).log) == Lifecycle(s.log) + Schedule(data, ops, s.table, i, n)
    decreases n - i, 1
  {
    if i < n {
      var next := LogStep(data, ops, s, i, n);
      if !next.hung {
        LogJoin(data, ops, s, next, i, n);
      }
    }
  }

  /** RunFromLog's induction step: the lines of PCB `i`, then those of the rest of the loop. */
  lemma {:induction false} LogJoin(data: CfgData, ops: seq<Op>, s: Sim, next: Sim, i: nat, n: nat)
    requires i < n <= |s.table| && n <= |next.table| && RunnableFrom(ops, s.table, i, n) && RunnableFrom(ops, next.table, i + 1, n)
    requires !next.hung && !Silent(data.logTo)
    requires Lifecycle(next.log) == Lifecycle(s.log) + Trio(data, ops, s.table[i])
    requires Schedule(data, ops, s.table, i, n) == Trio(data, ops, s.table[i]) + Schedule(data, ops, next.table, i + 1, n)
    ensures !RunFrom(data, ops, next, i + 1, n).hung ==>
              Lifecycle(RunFrom(data, ops, next, i + 1, n).log) == Lifecycle(s.log) + Schedule(data, ops, s.table, i, n)
    decreases n - i, 0
  {
    RunFromLog(data, ops, next, i + 1, n);
    var r := RunFrom(data, ops, next, i + 1, n);
    if !r.hung {
      Chain(Lifecycle(s.log), Lifecycle(next.log), Lifecycle(r.log), Trio(data, ops, s.table[i]),
            Schedule(data, ops, next.table, i + 1, n), Schedule(data, ops, s.table, i, n));
    }
  }

  /** Two extensions in a row are one extension by their concatenation. */
  lemma Chain(a: seq<Event>, b: seq<Event>, c: seq<Event>, x: seq<Event>, y: seq<Event>, z: seq<Event>)
    requires b == a + x && c == b + y && z == x + y
    ensures c == a + z
  {
  }

  /** One pass of the process loop with File or Both, as RunFromLog's induction step needs it. */
  lemma LogStep(data: CfgData, ops: seq<Op>, s: Sim, i: nat, n: nat) returns (next: Sim)
    requires i < n <= |s.table| && RunnableFrom(ops, s.table, i, n) && !s.hung && !Silent(data.logTo)
    ensures n <= |next.table| && RunnableFrom(ops, next.table, i + 1, n)
    ensures RunFrom(data, ops, s, i, n) == RunFrom(data, ops, next, i + 1, n)
    ensures !next.hung ==> Lifecycle(next.log) == Lifecycle(s.log) + Trio(data, ops, s.table[i])
    ensures !next.hung ==> Schedule(data, ops, s.table, i, n) == Trio(data, ops, s.table[i]) + Schedule(data, ops, next.table, i + 1, n)
  {
    var o := RunPcb(data, ops, s.table[i], s.log, s.waits);
    next := Sim(s.table[i := o.pcb], o.log, o.waits, o.hung);
    RunFromStep(data, ops, s, i, n);
    RunPcbLifecycle(data, ops, s.table[i], s.log, s.waits);
    ScheduleStep(data, ops, s.table, next.table, i, n);
  }

  /**
   * processPcbArray's table on `n` PCBs: it keeps its size and process
   * numbers; entry `n` (written one past the count) is Ready and later
   * entries are untouched; when no process hangs every entry below `n` is
   * in Exit.
   */
  lemma SimulationTable(table: seq<Pcb>, data: CfgData, ops: seq<Op>, n: nat)
    requires n < |table| && RunnableFrom(ops, table, 0, n)
    ensures var r := Simulation(table, data, ops, n);
            && |r.table| == |table|
            && (forall k :: 0 <= k < |table| ==> r.table[k].processCounter == table[k].processCounter)
            && r.table[n] == table[n].(processState := Ready)
            && (forall k :: n < k < |table| ==> r.table[k] == table[k])
            && (!r.hung ==> forall k :: 0 <= k < n ==> r.table[k].processState == Exit)
  {
    var log := AddLineToLogFile(AllReady, StartOperatingSystemOps([], data.logTo), data.logTo);
    var ready := MadeReady(table, n);
    ScheduleFrame(data, ops, table, ready, 0, n);
    RunFromTable(data, ops, Sim(ready, log, [], false), 0, n);
  }

  /** processPcbArray's log on `n` PCBs with Monitor (or any destination other than File and Both) is empty. */
  lemma SimulationSilent(table: seq<Pcb>, data: CfgData, ops: seq<Op>, n: nat)
    requires n < |table| && RunnableFrom(ops, table, 0, n) && Silent(data.logTo)
    ensures Simulation(table, data, ops, n).log == []
  {
    var log := AddLineToLogFile(AllReady, StartOperatingSystemOps([], data.logTo), data.logTo);
    var ready := MadeReady(table, n);
    ScheduleFrame(data, ops, table, ready, 0, n);
    RunFromSilent(data, ops, Sim(ready, log, [], false), 0, n);
  }

  /**
   * processPcbArray's log on `n` PCBs with File or Both: when no process
   * hangs, its lifecycle lines are selection, Running and Exit for each
   * process in array order.
   */
  lemma SimulationLog(table: seq<Pcb>, data: CfgData, ops: seq<Op>, n: nat)
    requires n < |table| && RunnableFrom(ops, table, 0, n) && !Silent(data.logTo)
    ensures !Simulation(table, data, ops, n).hung ==>
              Lifecycle(Simulation(table, data, ops, n).log) == Schedule(data, ops, table, 0, n)
  {
    var log := AddLineToLogFile(AllReady, StartOperatingSystemOps([], data.logTo), data.logTo);
    var ready := MadeReady(table, n);
    ScheduleFrame(data, ops, table, ready, 0, n);
    RunFromLog(data, ops, Sim(ready, log, [], false), 0, n);
    OpeningLines(data.logTo);
    ClosingLine(RunFrom(data, ops, Sim(ready, log, [], false), 0, n).log, data.logTo);
  }

  // ---------------------------------------------------------------------
  // The C functions, as methods on the PCB array and the registry list

  /**
   * processPcbLine: runs the operation at the process's cursor against
   * the process's registry list, adding its lines and waits.
   */
  method ProcessPcbLine(data: CfgData, process: Pcb, ops: seq<Op>, memory: Node<Option<Mmu>>,
                        log: seq<Event>, waits: seq<int>)
    returns (verdict: Verdict, log': seq<Event>, waits': seq<int>)
    requires process.cursor < |ops|
    requires memory.Valid() && AllSome(memory.Tail)
    modifies memory.Repr
    ensures memory.Valid() && AllSome(memory.Tail) && fresh(memory.Repr - old(memory.Repr))
    ensures LineResult(verdict, Blocks(memory.Tail), log', waits')
            == LineOutcome(data, process, ops[process.cursor], old(Blocks(memory.Tail)), log, waits)
  {
    var opCode := ops[process.cursor].letter;
    var opString := ops[process.cursor].name;
    var logTo := data.logTo;
    var ioWait := data.ioCycleTime * process.processCycle;
    var procWait := data.procCycleTime * process.processCycle;
    var pid := process.processCounter;
    log', waits' := log, waits;

    if opCode == 'M' {
      var mmu := ProcessMemoryRequest(process);
      if opString == "allocate" {
        log' := AddLineToLogFile(AllocationStart(pid, mmu.segment, mmu.base, mmu.requested), log', logTo);
        var result := AllocateMem(mmu, memory, data);
        if result == Spins {
          return Spins, log', waits';
        } else if result == Returns(1) {
          log' := AddLineToLogFile(AllocationSuccessful(pid), log', logTo);
          return Returns(1), log', waits';
        } else {
          log' := AddLineToLogFile(AllocationFailed(pid), log', logTo);
          return Returns(0), log', waits';
        }
      } else if opString == "access" {
        log' := AddLineToLogFile(AccessStart(pid, mmu.segment, mmu.base, mmu.requested), log', logTo);
        var result := AccessMem(mmu, memory, data);
        if result == Spins {
          return Spins, log', waits';
        } else if result == Returns(1) {
          log' := AddLineToLogFile(AccessSuccessful(pid), log', logTo);
          return Returns(1), log', waits';
        } else {
          log' := AddLineToLogFile(AccessFailed(pid), log', logTo);
          return Returns(0), log', waits';
        }
      }
      // neither allocate nor access: there is no `break`, so case 'I' runs
    }

    if opCode == 'M' || opCode == 'I' {
      log' := AddLineToLogFile(InputStart(pid, opString), log', logTo);
      waits' := waits' + [ioWait];
      log' := AddLineToLogFile(InputEnd(pid, opString), log', logTo);
      return Returns(1), log', waits';
    } else if opCode == 'O' {
      log' := AddLineToLogFile(OutputStart(pid, opString), log', logTo);
      waits' := waits' + [ioWait];
      log' := AddLineToLogFile(OutputEnd(pid, opString), log', logTo);
      return Returns(1), log', waits';
    } else if opCode == 'P' {
      log' := AddLineToLogFile(OperationStart(pid, opString), log', logTo);
      waits' := waits' + [procWait];
      log' := AddLineToLogFile(OperationEnd(pid, opString), log', logTo);
      return Returns(1), log', waits';
    } else {
      return Returns(0), log', waits';
    }
  }

  /** A PCB whose cursor has moved to the next node, with that node's cycles. */
  function Advance(ops: seq<Op>, p: Pcb): (q: Pcb)
    requires p.cursor + 1 < |ops|
    ensures q.cursor == p.cursor + 1 && q.processCycle == ops[q.cursor].cycles
    ensures q.processCounter == p.processCounter && q.processState == p.processState
  {
    p.(cursor := p.cursor + 1, processCycle := ops[p.cursor + 1].cycles)
  }

  /** updatePointerAndCycle: PCB `processNumber` advances; the other entries stay. */
  method UpdatePointerAndCycle(pcbArrayPointer: array<Pcb>, processNumber: nat, ops: seq<Op>)
    requires processNumber < pcbArrayPointer.Length
    requires pcbArrayPointer[processNumber].cursor + 1 < |ops|
    modifies pcbArrayPointer
    ensures pcbArrayPointer[processNumber] == Advance(ops, old(pcbArrayPointer[processNumber]))
    ensures forall k :: 0 <= k < pcbArrayPointer.Length && k != processNumber ==>
              pcbArrayPointer[k] == old(pcbArrayPointer[k])
  {
    var p := pcbArrayPointer[processNumber];
    pcbArrayPointer[processNumber] := p.(cursor := p.cursor + 1, processCycle := ops[p.cursor + 1].cycles);
  }

  /**
   * setPcbArrayToReady: the loop runs to `arrayLength` inclusive, so it
   * writes one entry more than the process count; that entry must exist.
   */
  method SetPcbArrayToReady(pcbArray: array<Pcb>, arrayLength: nat, log: seq<Event>, logTo: int)
    returns (log': seq<Event>)
    requires arrayLength < pcbArray.Length
    modifies pcbArray
    ensures pcbArray[..] == MadeReady(old(pcbArray[..]), arrayLength)
    ensures log' == AddLineToLogFile(AllReady, log, logTo)
  {
    ghost var table := pcbArray[..];
    for processCount := 0 to arrayLength + 1
      invariant forall k :: 0 <= k < processCount ==> pcbArray[k] == table[k].(processState := Ready)
      invariant forall k :: processCount <= k < pcbArray.Length ==> pcbArray[k] == table[k]
    {
      pcbArray[processCount] := pcbArray[processCount].(processState := Ready);
    }
    log' := AddLineToLogFile(AllReady, log, logTo);
  }

  /**
   * One iteration of processPcbArray's process loop, for PCB `i`: a fresh
   * registry, the selection line, Running, the operation loop, then Exit.
   * `hung` reports a registry scan that never returns; the C program
   * stops there.
   */
  method RunProcess(pcbArrayPointer: array<Pcb>, data: CfgData, ops: seq<Op>, i: nat,
                    log: seq<Event>, waits: seq<int>)
    returns (log': seq<Event>, waits': seq<int>, hung: bool)
    requires i < pcbArrayPointer.Length && Runnable(ops, pcbArrayPointer[i])
    modifies pcbArrayPointer
    ensures var o := RunPcb(data, ops, old(pcbArrayPointer[i]), log, waits);
            && pcbArrayPointer[i] == o.pcb
            && log' == o.log && waits' == o.waits && hung == o.hung
    ensures forall k :: 0 <= k < pcbArrayPointer.Length && k != i ==> pcbArrayPointer[k] == old(pcbArrayPointer[k])
  {
    var memory := MemCreate();
    var pid := pcbArrayPointer[i].processCounter;
    var estimate := EstimatePcbTime(ops, pcbArrayPointer[i].cursor, data);
    log' := AddLineToLogFile(Selected(data.cpuSchedulingCode, pid, estimate), log, data.logTo);

    pcbArrayPointer[i] := pcbArrayPointer[i].(processState := Running);
    log' := AddLineToLogFile(StateSet(pid, Running), log', data.logTo);
    UpdatePointerAndCycle(pcbArrayPointer, i, ops);

    log', waits', hung := OperationLoop(pcbArrayPointer, data, ops, i, memory, log', waits);
    if hung {
      return;
    }

    pcbArrayPointer[i] := pcbArrayPointer[i].(processState := Exit);
    log' := AddLineToLogFile(StateSet(pid, Exit), log', data.logTo);
  }

  /**
   * The inner loop of processPcbArray: while PCB `i` is Running and its
   * cursor is not on an 'A' node, run the operation there; on success
   * advance the cursor, on failure log a segmentation fault and leave.
   */
  method OperationLoop(pcbArrayPointer: array<Pcb>, data: CfgData, ops: seq<Op>, i: nat,
                       memory: Node<Option<Mmu>>, log: seq<Event>, waits: seq<int>)
    returns (log': seq<Event>, waits': seq<int>, hung: bool)
    requires i < pcbArrayPointer.Length
    requires var p := pcbArrayPointer[i];
             && p.cursor < |ops| && NextA(ops, p.cursor) < |ops|
             && p.processState == Running && p.processCycle == ops[p.cursor].cycles
    requires memory.Valid() && AllSome(memory.Tail) && pcbArrayPointer !in memory.Repr
    modifies pcbArrayPointer, memory.Repr
    ensures var p := old(pcbArrayPointer[i]);
            var r := RunOps(data, ops, p.processCounter, p.cursor, old(Blocks(memory.Tail)), log, waits);
            (pcbArrayPointer[i], log', waits', hung)
            == (Pcb(r.cursor, p.processCounter, ops[r.cursor].cycles, Running), r.log, r.waits, r.end == Hung)
    ensures forall k :: 0 <= k < pcbArrayPointer.Length && k != i ==> pcbArrayPointer[k] == old(pcbArrayPointer[k])
  {
    ghost var table := pcbArrayPointer[..];
    ghost var pid := pcbArrayPointer[i].processCounter;
    ghost var last := NextA(ops, pcbArrayPointer[i].cursor);
    ghost var target := RunOps(data, ops, pid, pcbArrayPointer[i].cursor, Blocks(memory.Tail), log, waits);
    ghost var repr := memory.Repr;
    log', waits', hung := log, waits, false;

    while ops[pcbArrayPointer[i].cursor].letter != 'A' && pcbArrayPointer[i].processState == Running
      invariant memory.Valid() && AllSome(memory.Tail)
      invariant fresh(memory.Repr - repr) && pcbArrayPointer !in memory.Repr
      invariant forall k :: 0 <= k < pcbArrayPointer.Length && k != i ==> pcbArrayPointer[k] == table[k]
      invariant var p := pcbArrayPointer[i];
                p.cursor < |ops| && p == Pcb(p.cursor, pid, ops[p.cursor].cycles, Running)
      invariant NextA(ops, pcbArrayPointer[i].cursor) == last
      invariant RunOps(data, ops, pid, pcbArrayPointer[i].cursor, Blocks(memory.Tail), log', waits') == target
      decreases last - pcbArrayPointer[i].cursor
    {
      ghost var cursor, memory0, log0, waits0 := pcbArrayPointer[i].cursor, Blocks(memory.Tail), log', waits';
      var verdict;
      verdict, log', waits' := OperationStep(pcbArrayPointer, data, ops, i, memory, log', waits');
      StepRuns(data, ops, pid, cursor, memory0, log0, waits0, verdict, Blocks(memory.Tail), log', waits', target);
      if verdict == Spins {
        // the registry scan never returns: nothing after it runs
        hung := true;
        break;
      } else if verdict != Returns(1) {
        // the segmentation fault ends the loop
        break;
      }
    }
  }

  /**
   * One pass of the inner loop's body: processPcbLine on the operation at
   * PCB `i`'s cursor, then either updatePointerAndCycle (success) or the
   * segmentation-fault line (failure).
   */
  method OperationStep(pcbArrayPointer: array<Pcb>, data: CfgData, ops: seq<Op>, i: nat,
                       memory: Node<Option<Mmu>>, log: seq<Event>, waits: seq<int>)
    returns (verdict: Verdict, log': seq<Event>, waits': seq<int>)
    requires i < pcbArrayPointer.Length
    requires var p := pcbArrayPointer[i];
             && p.cursor < |ops| && NextA(ops, p.cursor) < |ops| && ops[p.cursor].letter != 'A'
             && p == Pcb(p.cursor, p.processCounter, ops[p.cursor].cycles, Running)
    requires memory.Valid() && AllSome(memory.Tail) && pcbArrayPointer !in memory.Repr
    modifies pcbArrayPointer, memory.Repr
    ensures memory.Valid() && AllSome(memory.Tail) && fresh(memory.Repr - old(memory.Repr))
    ensures var p := old(pcbArrayPointer[i]);
            var line := LineOutcome(data, p, ops[p.cursor], old(Blocks(memory.Tail)), log, waits);
            && verdict == line.verdict && Blocks(memory.Tail) == line.memory && waits' == line.waits
            && log' == (if verdict == Returns(1) || verdict == Spins then line.log
                        else AddLineToLogFile(SegmentationFault(p.processCounter), line.log, data.logTo))
            && pcbArrayPointer[i] == (if verdict == Returns(1) then Advance(ops, p) else p)
    ensures forall k :: 0 <= k < pcbArrayPointer.Length && k != i ==> pcbArrayPointer[k] == old(pcbArrayPointer[k])
  {
    var p := pcbArrayPointer[i];
    verdict, log', waits' := ProcessPcbLine(data, p, ops, memory, log, waits);
    if verdict == Returns(1) {
      UpdatePointerAndCycle(pcbArrayPointer, i, ops);
    } else if verdict != Spins {
      log' := AddLineToLogFile(SegmentationFault(p.processCounter), log', data.logTo);
    }
  }

  /**
   * processPcbArray on the first `arraySize` PCBs of the table: returns the
   * log, the waits, and whether a process hung.  The table must have the
   * entry one past `arraySize` that setPcbArrayToReady writes.
   */
  method ProcessPcbArray(pcbArrayPointer: array<Pcb>, data: CfgData, ops: seq<Op>, arraySize: nat)
    returns (log: seq<Event>, waits: seq<int>, hung: bool)
    requires arraySize < pcbArrayPointer.Length
    requires RunnableFrom(ops, pcbArrayPointer[..], 0, arraySize)
    modifies pcbArrayPointer
    ensures Sim(pcbArrayPointer[..], log, waits, hung) == Simulation(old(pcbArrayPointer[..]), data, ops, arraySize)
  {
    log := StartOperatingSystemOps([], data.logTo);
    log := SetPcbArrayToReady(pcbArrayPointer, arraySize, log, data.logTo);
    log, waits, hung := RunProcesses(pcbArrayPointer, data, ops, arraySize, log, []);
    if hung {
      return;
    }
    log := EndOperatingSystemOps(log, data.logTo);
  }

  /** One pass of processPcbArray's process loop, for PCB `i`, as `RunFrom` takes it. */
  method ProcessOne(pcbArrayPointer: array<Pcb>, data: CfgData, ops: seq<Op>, i: nat, n: nat,
                    log: seq<Event>, waits: seq<int>)
    returns (log': seq<Event>, waits': seq<int>, hung: bool)
    requires i < n <= pcbArrayPointer.Length
    requires RunnableFrom(ops, pcbArrayPointer[..], i, n)
    modifies pcbArrayPointer
    ensures RunnableFrom(ops, pcbArrayPointer[..], i + 1, n)
    ensures RunFrom(data, ops, Sim(old(pcbArrayPointer[..]), log, waits, false), i, n)
            == RunFrom(data, ops, Sim(pcbArrayPointer[..], log', waits', hung), i + 1, n)
  {
    ghost var before := Sim(pcbArrayPointer[..], log, waits, false);
    ghost var o := RunPcb(data, ops, before.table[i], log, waits);
    RunFromStep(data, ops, before, i, n);
    log', waits', hung := RunProcess(pcbArrayPointer, data, ops, i, log, waits);
    StoredBack(pcbArrayPointer[..], before.table, i, o.pcb);
  }

  /** A table that differs from `t` only at `i`, where it holds `v`, is `t[i := v]`. */
  lemma StoredBack(a: seq<Pcb>, t: seq<Pcb>, i: nat, v: Pcb)
    requires |a| == |t| && i < |a| && a[i] == v
    requires forall k :: 0 <= k < |a| && k != i ==> a[k] == t[k]
    ensures a == t[i := v]
  {
  }

  /**
   * processPcbArray's process loop: every PCB below `arraySize` in array
   * order, stopping at a process that hangs.
   */
  method RunProcesses(pcbArrayPointer: array<Pcb>, data: CfgData, ops: seq<Op>, arraySize: nat,
                      log: seq<Event>, waits: seq<int>)
    returns (log': seq<Event>, waits': seq<int>, hung: bool)
    requires arraySize <= pcbArrayPointer.Length
    requires RunnableFrom(ops, pcbArrayPointer[..], 0, arraySize)
    modifies pcbArrayPointer
    ensures Sim(pcbArrayPointer[..], log', waits', hung)
            == RunFrom(data, ops, Sim(old(pcbArrayPointer[..]), log, waits, false), 0, arraySize)
  {
    ghost var start := Sim(pcbArrayPointer[..], log, waits, false);
    log', waits' := log, waits;
    for processCount := 0 to arraySize
      invariant RunnableFrom(ops, pcbArrayPointer[..], processCount, arraySize)
      invariant RunFrom(data, ops, Sim(pcbArrayPointer[..], log', waits', false), processCount, arraySize)
                == RunFrom(data, ops, start, 0, arraySize)
    {
      var processHung;
      log', waits', processHung := ProcessOne(pcbArrayPointer, data, ops, processCount, arraySize, log', waits');
      if processHung {
        return log', waits', true;
      }
    }
    hung := false;
  }
}
