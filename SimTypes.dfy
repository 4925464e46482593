/**
 * The records the simulator passes between its parts, mirrored from the
 * headers (InputDataProcessor.h, ProcessPcb.h, LinkedList.h).
 *
 * Pointers into the operation catalog become indices: a catalog is a
 * `seq<Op>` holding the nodes after the list's sentinel head, node `i` is
 * `ops[i]`, its `next` is `i + 1`, and the index `|ops|` plays NULL.
 */
module SimTypes {

  datatype Option<+T> = None | Some(value: T)

  /** One meta-data entry: component letter, operation string, cycle count
      (the three slots of a catalog node's `data` array). */
  datatype Op = Op(letter: char, name: string, cycles: int)

  /** The parsed configuration file (`CfgData`). */
  datatype CfgData = CfgData(
    version: int,
    metaFilePath: string,
    cpuSchedulingCode: int,
    quantumTimeCycles: int,
    memAvailable: int,
    procCycleTime: int,
    ioCycleTime: int,
    logTo: int,
    logPath: string)

  /** The strings the simulator stores in `processState`. */
  datatype State = New | Ready | Running | Exit

  /** `struct pcb`; `cursor` is `metaDataPointer` as a catalog index. */
  datatype Pcb = Pcb(cursor: nat, processCounter: int, processCycle: int, processState: State)

  /** `struct MMU`: one decoded memory request or committed region. */
  datatype Mmu = Mmu(processId: int, segment: int, base: int, requested: int)

  // Scheduling codes (InputDataProcessor.h); NONE and FCFS-N share code 0.
  const SCHED_NONE: int := 0
  const SCHED_FCFS_N: int := 0
  const SCHED_SJF_N: int := 1
  const SCHED_SRTF_P: int := 2
  const SCHED_FCFS_P: int := 3
  const SCHED_RR_P: int := 4

  // Log destinations (InputDataProcessor.h).
  const LOG_MONITOR: int := 0
  const LOG_FILE: int := 1
  const LOG_BOTH: int := 2
}
