# Sim04 in Dafny

Sim04 is a small operating-system simulator written in C. It reads a
configuration file and a meta-data file. The meta-data file is a catalog of
operations, each written `S(start)0`: a component letter, an operation name
and a cycle count. Sim04 cuts the catalog into processes at every
`A(start)` entry and builds one process control block (PCB) per process.
When the configuration asks for shortest-job-first, it orders the PCBs by
their estimated service time. It then runs every process to its end, one
after the other. Along the way it keeps a log of system, scheduling and
operation lines, and keeps a registry of the memory regions each process
has allocated.

This project models the four C files that do that work, and proves what
they compute:

| module | C file | form |
|---|---|---|
| `StringUtilities` | StringUtilities.c | methods over NUL-terminated `array<char>` buffers, each proved against a function on the text the buffer holds |
| `LinkedList` | LinkedList.c | a heap class `Node<T>` with a ghost list of the payloads after it and a `Repr` footprint |
| `PcbTable` | ProcessPcb.c (storePcb, getNumStartSymbols, estimatePcbTime, reorderSJF) | methods over an `array<Pcb>`, specified by functions on the catalog |
| `MemoryManager` | ProcessPcb.c (processMemoryRequest, allocateMem, accessMem) | the two registry scans as methods over a `Node` list |
| `ExecutionEngine` | ProcessPcb.c (processPcbArray and the functions it calls) | methods over the PCB array and the registry, proved against a functional run of the simulator |
| `InputDataProcessor` | InputDataProcessor.c | processCFG and processMetaData as methods over the lines of a file, proved against per-line step functions |
| `MetaDataText` | InputDataProcessor.c | the text of a well-formed meta-data file, and the proof that processMetaData reads it back |
| `ConfigText` | InputDataProcessor.c | the lines of a well-formed configuration file, and the proof that processCFG accepts them and returns their values |

`SimTypes` holds the shared records: an entry of the meta-data file (`Op`),
the parsed configuration (`CfgData`), the PCB, the MMU record, and the
scheduling and log codes.

**Representation choices.**
- The catalog is a `seq<Op>`. A node pointer is an index into it, and
  `|ops|` stands for NULL.
- The log is a sequence of abstract `Event` values, one per line the
  simulator would format. Timestamps are not kept.
- Every wait the simulator would sleep for (an I/O thread or `runTimer`)
  is recorded, in milliseconds, in a `waits` sequence.

**The model follows the code where the code departs from the evident
design.** Each departure is stated as a lemma:
- **compareString and splitString return 1 and 0.** Their header comments
  promise 0 and -1, but the code returns 1 on a match or a found delimiter
  and 0 otherwise.
- **allocateMem only answers on an empty registry.** It returns 1 on an
  empty registry, even for a request that does not fit, and records the
  request only when it fits. On a non-empty registry it returns 0 or never
  returns: the scan `continue`s without advancing. So a registry holds at
  most one region (`AllocateOneOnlyWhenEmpty`,
  `OversizedFirstAllocationSucceeds`, `DisjointSecondAllocationSpins`).
- **accessMem never returns 1** (`AccessNeverSucceeds`, `ContainedAccessSpins`).
- **A scan that never ends is a verdict.** The `Verdict` type has a case
  `Spins` for a scan that would never return. A process that reaches such
  a scan hangs the simulator, and the model stops there.
- **getNumStartSymbols misses the first catalog node.** It starts counting
  one node past the first (`FirstNodeNeverCounted`).
- **storePcb skips a node after every start marker it records.** A start
  marker right after another is therefore missed (`AdjacentStartSkipped`).
  When no two markers are adjacent, the table holds every process
  (`TableHasEveryProcess`).
- **estimatePcbTime skips every 'A' node at the cursor.** A process with no
  operations is therefore estimated with the next process's operations
  (`EmptyProcessBorrowsNext`).
- **setPcbArrayToReady writes one entry past the table.** Its loop bound
  is `<=` (`MadeReady`).
- **processPcbLine falls through from 'M' to 'I'.** An 'M' entry that is
  neither allocate nor access runs the input case.
- **processCFG's scheduling names are off by one.** It maps " SRTF-N" to
  SRTF-P's code and does not know " SRTF-P" (`SchedulingCode`).
- **processMetaData stops at a line with no ';'.** The loop ends there, so
  a line holding a single entry closed by '.' is dropped (`LoneEntryStops`).

## Model

| member | source | states |
|---|---|---|
| StringUtilities.Content | StringUtilities.c:35-37 | the text a buffer holds is a NUL-free prefix of it, followed in the buffer by a NUL when shorter than the buffer |
| StringUtilities.ContentDiffers | StringUtilities.c:42-57 | two buffers that agree up to a cell where they differ hold different texts, which is the case where compareString returns 0 |
| StringUtilities.CompareString | StringUtilities.c:25-59 | returns 1 or 0, and 1 exactly when the two NUL-terminated texts are equal |
| StringUtilities.IndexOf | StringUtilities.c:83-103 | the first position of the delimiter: no occurrence before it, the delimiter at it, and the text length exactly when the delimiter is absent |
| StringUtilities.Before | StringUtilities.c:82-103 | the left half is a prefix of the text without the delimiter |
| StringUtilities.SplitRejoins | StringUtilities.c:61-118 | left half, delimiter and right half give back the whole text: only the pivot is lost |
| StringUtilities.SplitString | StringUtilities.c:61-118 | returns 1 exactly when the delimiter occurs; `left` holds the text before the first delimiter; on 1 `right` holds the text after it; on 0 `right` is untouched; each output keeps its cells beyond the written text |
| StringUtilities.CopyLeft | StringUtilities.c:82-103 | copies the cells before the first delimiter or NUL into `left`, ends them with a NUL, reports which of the two it stopped at, and leaves the later cells of `left` alone |
| StringUtilities.CopyRight | StringUtilities.c:105-117 | `right` holds the cells after the pivot up to the NUL, then a NUL, and its later cells unchanged |
| StringUtilities.CopyString | StringUtilities.c:120-162 | a null pointer gives null; otherwise a fresh array holding exactly the text and its NUL |
| StringUtilities.StringToInt | StringUtilities.c:164-204 | the result is the value of the text: one optional leading sign, then every non-space character accumulated in base ten |
| StringUtilities.AccumulateStep | StringUtilities.c:191-201 | one more character leaves the total alone when it is a space and otherwise multiplies it by ten and adds the character's digit value |
| StringUtilities.RemoveSpaces | StringUtilities.c:193-197 | the characters the digit loop uses hold no space |
| StringUtilities.DecimalValueSnoc | StringUtilities.c:199 | appending a digit to a numeral multiplies its value by ten and adds the digit |
| StringUtilities.AccumulateIsDecimal | StringUtilities.c:191-201 | the digit loop computes the positional decimal value of the text with its spaces removed |
| StringUtilities.SignedNumeral | StringUtilities.c:180-203 | a '-' or '+' sign followed by digits gives the signed decimal value of the digits |
| StringUtilities.Strip | StringUtilities.c:282-311 | the stripped text holds no newline, is never longer, and a text that starts with no space and holds no newline is unchanged |
| StringUtilities.StripBuffer | StringUtilities.c:282-311 | stripString keeps the buffer's length |
| StringUtilities.CutContent | StringUtilities.c:300-310 | a NUL over the first newline leaves the text before that newline |
| StringUtilities.StripBufferContent | StringUtilities.c:282-311 | the buffer stripString leaves holds the stripped text |
| StringUtilities.StripString | StringUtilities.c:282-311 | in place: the buffer becomes the shifted-then-cut buffer, and its text is the stripped old text |
| StringUtilities.ShiftLeft | StringUtilities.c:292-298 | every cell of the text and its NUL move one cell left, and the text stays NUL-free |
| StringUtilities.CutAtNewline | StringUtilities.c:300-310 | a NUL replaces the first newline before the terminating NUL; nothing else changes |
| LinkedList.Node.constructor | LinkedList.c:32-35 | a fresh single node holding the payload with no successor |
| LinkedList.Node.Append | LinkedList.c:38-60 | the payload becomes the last one after the node, earlier payloads and the node's own payload unchanged, only fresh nodes added |
| LinkedList.LinkedListCreate | LinkedList.c:20-36 | a fresh one-node list holding `data` |
| LinkedList.LinkedListAppend | LinkedList.c:38-60 | `data` becomes the last payload and the earlier ones stay in order |
| LinkedList.LogFileCreate | LinkedList.c:62-67 | a fresh log with no lines |
| LinkedList.LogFileAppend | LinkedList.c:69-83 | one more line, the earlier lines unchanged, and the new one a fresh copy holding the text of `logLine` |
| LinkedList.MemCreate | LinkedList.c:85-90 | a fresh registry with no regions |
| LinkedList.MemAppend | LinkedList.c:92-106 | the block becomes the last region and the earlier regions stay |
| PcbTable.StartPositionsExact | ProcessPcb.c:25-39 | the start-marker positions from `i` on are counted exactly: each is a start marker, every start marker is listed, and they increase |
| PcbTable.StartPositionsCount | ProcessPcb.c:29-37 | the list of start positions is as long as the count |
| PcbTable.StartPositionsSound | ProcessPcb.c:31-35 | every listed position is a start marker at or after `i`, in increasing order |
| PcbTable.StartPositionsComplete | ProcessPcb.c:29-37 | every start marker at or after `i` is listed |
| PcbTable.GetNumStartSymbols | ProcessPcb.c:25-39 | returns the number of `A(start)` nodes after the node it is handed |
| PcbTable.ScanStarts | ProcessPcb.c:48-63 | every position storePcb's walk records is a start marker |
| PcbTable.ScanFindsAllStarts | ProcessPcb.c:48-63 | when no start marker follows another, the walk's double step records exactly the start markers, in order |
| PcbTable.TableEntry | ProcessPcb.c:52-57 | the entry written for a marker: cursor at the marker, process number in order of recording, state New, cycles of the marker node |
| PcbTable.Table | ProcessPcb.c:48-63 | the first `m` entries storePcb writes |
| PcbTable.SkipA | ProcessPcb.c:445-448 | the first node at or after the cursor that is not an 'A' node |
| PcbTable.NextA | ProcessPcb.c:451 | the first 'A' node at or after the cursor, with no 'A' before it |
| PcbTable.CostUntilAIsServiceTime | ProcessPcb.c:450-465 | the estimate loop adds I/O cycles at ioCycleTime and processor cycles at procCycleTime over exactly the operations up to the next 'A' node |
| PcbTable.EstimateOfProcess | ProcessPcb.c:443-466 | from a process's start marker, the estimate is the service time of that process's operations |
| PcbTable.EmptyProcessBorrowsNext | ProcessPcb.c:445-448 | a process without operations is estimated with the operations of the next process |
| PcbTable.EstimatePcbTime | ProcessPcb.c:443-466 | the loop computes the estimate for the cursor it is given |
| PcbTable.Swap | ProcessPcb.c:82-84 | exchanging two entries keeps the table's length and its multiset of entries |
| PcbTable.SwapEstimable | ProcessPcb.c:82-84 | an exchange keeps every entry's estimate defined |
| PcbTable.SjfSwapBelow | ProcessPcb.c:79-85 | an exchange with a larger estimate below `outer` keeps the pass invariant one position further |
| PcbTable.SjfSwapAbove | ProcessPcb.c:79-85 | an exchange with a larger estimate above `outer` keeps the pass invariant one position further |
| PcbTable.SjfNoSwap | ProcessPcb.c:79-85 | a smaller estimate at `inner` leaves the table and extends the invariant |
| PcbTable.SjfDiagonal | ProcessPcb.c:79-85 | comparing entry `outer` with itself leaves the first `outer + 1` entries ordered |
| PcbTable.SjfStepKeeps | ProcessPcb.c:77-86 | one comparison keeps the pass invariant and the multiset of entries |
| PcbTable.ReorderSJF | ProcessPcb.c:73-89 | the first `arraySize` entries end in non-decreasing order of estimate, as a permutation of the old ones; the rest of the array is unchanged |
| PcbTable.CompareAndSwap | ProcessPcb.c:79-85 | exchanges the two entries exactly when the outer estimate is at most the inner one |
| PcbTable.StorePcb | ProcessPcb.c:41-71 | an array sized by the start-marker count; its recorded prefix is the table in catalog order, or under SJF a permutation of it sorted by estimate |
| PcbTable.RecordStarts | ProcessPcb.c:45-63 | the walk stores the table entries for the markers it records, up to the array's size |
| PcbTable.ScanAdvance | ProcessPcb.c:48-63 | a recorded marker is followed by a skipped node; any other node just advances the walk |
| PcbTable.TableHasEveryProcess | ProcessPcb.c:41-63 | when the catalog starts with a non-marker and no marker follows another, the table holds one entry per start marker |
| PcbTable.FirstNodeNeverCounted | ProcessPcb.c:43 | a start marker as the first catalog node is not counted |
| PcbTable.AdjacentStartSkipped | ProcessPcb.c:58-62 | a start marker right after a recorded one is stepped over |
| MemoryManager.CRemBounds | ProcessPcb.c:240-242 | C's truncating `/` and `%` agree with Euclidean division on non-negative values, and a negative dividend gives a non-positive remainder |
| MemoryManager.CDivDiv | ProcessPcb.c:240-241 | truncating division by 1000 twice is truncating division by 1000000 |
| MemoryManager.ProcessMemoryRequest | ProcessPcb.c:234-245 | the region belongs to the PCB's process |
| MemoryManager.DecodeFields | ProcessPcb.c:234-245 | segment, base and requested recombine to the cycle value; for a non-negative value they are its decimal digit groups, each below 1000 |
| MemoryManager.DecodeEncoded | ProcessPcb.c:234-245 | a cycle value encoded from a segment, base and size decodes back to them |
| MemoryManager.DecodeExample | ProcessPcb.c:240-242 | 5090 decodes to segment 0, base 5, 90 units |
| MemoryManager.AllocateMem | ProcessPcb.c:247-274 | the verdict and the new registry are those of allocateMem's scan |
| MemoryManager.AccessMem | ProcessPcb.c:276-302 | the verdict is that of accessMem's scan, and the registry is not touched |
| MemoryManager.AllocateOnEmpty | ProcessPcb.c:249-255 | an empty registry answers 1 and records the request only when it fits |
| MemoryManager.AllocateOneOnlyWhenEmpty | ProcessPcb.c:247-274 | allocateMem answers 1 exactly on an empty registry, and never records into a non-empty one |
| MemoryManager.AllocateAtMostOne | ProcessPcb.c:247-274 | a registry with at most one region keeps at most one |
| MemoryManager.AccessNeverSucceeds | ProcessPcb.c:276-302 | accessMem never answers 1, and answers 0 exactly on an empty registry or a failing first region |
| MemoryManager.OversizedFirstAllocationSucceeds | ProcessPcb.c:251-273 | a first request beyond memory is answered 1 without being recorded |
| MemoryManager.DisjointSecondAllocationSpins | ProcessPcb.c:257-266 | a second, disjoint, fitting request makes the scan loop forever |
| MemoryManager.ContainedAccessSpins | ProcessPcb.c:285-294 | an access inside the committed region makes the scan loop forever |
| ExecutionEngine.AddOpLine | ProcessPcb.c:203-220 | adding an operation line extends the log without a lifecycle line |
| ExecutionEngine.LifecycleAdd | ProcessPcb.c:211-218 | with File or Both, an added lifecycle line is the next lifecycle line of the log |
| ExecutionEngine.OpeningLines | ProcessPcb.c:158-186 | the start-up lines and the all-Ready line hold no lifecycle line |
| ExecutionEngine.ClosingLine | ProcessPcb.c:188-193 | the System stop line adds no lifecycle line |
| ExecutionEngine.LineVerdicts | ProcessPcb.c:306-441 | I, O and P succeed; an unknown letter fails and logs nothing; M(allocate) and M(access) answer with the registry scan; any other M runs the input case; only allocate changes the registry, and a registry of at most one region keeps at most one |
| ExecutionEngine.LineLogExtends | ProcessPcb.c:306-441 | every case only adds operation lines to the log |
| ExecutionEngine.LineSilent | ProcessPcb.c:205-209 | with a destination other than File or Both, processPcbLine adds nothing to the log |
| ExecutionEngine.RunOps | ProcessPcb.c:123-139 | the operation loop stops between its start and the next 'A' node |
| ExecutionEngine.RunLine | ProcessPcb.c:125-138 | one pass of the loop from a non-'A' node keeps the cursor within the process |
| ExecutionEngine.RunOpsStep | ProcessPcb.c:127-138 | success advances the loop; a scan that never returns hangs it; any other answer logs a segmentation fault and ends it |
| ExecutionEngine.StepRuns | ProcessPcb.c:127-138 | the state after one pass determines the rest of the loop |
| ExecutionEngine.RunOpsEnds | ProcessPcb.c:123-139 | the loop completes exactly when it reaches the next 'A' node; a hang happens only at M(allocate) or M(access); a fault only there or at an unknown letter |
| ExecutionEngine.RunOpsLog | ProcessPcb.c:123-139 | the operation loop adds no lifecycle line |
| ExecutionEngine.RunOpsRegistry | ProcessPcb.c:123-139 | a registry with at most one region ends with at most one |
| ExecutionEngine.RunOpsSilent | ProcessPcb.c:123-139 | with a silent destination the operation loop leaves the log as it is |
| ExecutionEngine.RunFromStep | ProcessPcb.c:100-150 | one pass of the process loop runs PCB `i`, stores its entry back, and goes on with the next |
| ExecutionEngine.MadeReady | ProcessPcb.c:175-181 | entries 0 through `n`, the last one included, become Ready; the others are unchanged |
| ExecutionEngine.ScheduleFrame | ProcessPcb.c:103-116 | the scheduling lines depend only on each PCB's cursor and process number |
| ExecutionEngine.ScheduleStep | ProcessPcb.c:100-150 | the schedule from PCB `i` is its own lines followed by the schedule of the rest |
| ExecutionEngine.RunPcbEntry | ProcessPcb.c:111-148 | a run keeps the PCB's process number and ends in Exit, or in Running when the simulator hangs |
| ExecutionEngine.RunPcbSilent | ProcessPcb.c:100-149 | with a silent destination a run leaves the log as it is |
| ExecutionEngine.RunPcbLifecycle | ProcessPcb.c:100-148 | with File or Both, a run that does not hang adds exactly its selection, Running and Exit lines |
| ExecutionEngine.RunFromTable | ProcessPcb.c:100-150 | the process loop keeps the table's size and every process number, touches only PCBs `i` to `n`, and leaves them in Exit unless it hangs |
| ExecutionEngine.RunFromSilent | ProcessPcb.c:100-150 | with a silent destination the process loop leaves the log as it is |
| ExecutionEngine.RunFromLog | ProcessPcb.c:100-150 | with File or Both, a loop that does not hang adds exactly the schedule's lifecycle lines, PCB by PCB in array order |
| ExecutionEngine.SimulationTable | ProcessPcb.c:91-156 | a whole run keeps every process number, leaves the extra entry Ready and the rest beyond `n` unchanged, and ends each run PCB in Exit unless it hangs |
| ExecutionEngine.SimulationSilent | ProcessPcb.c:91-156 | with a silent destination the kept log is empty |
| ExecutionEngine.SimulationLog | ProcessPcb.c:91-156 | with File or Both, the lifecycle lines of a run that does not hang are exactly each PCB's selection, Running and Exit lines, in array order |
| ExecutionEngine.ProcessPcbLine | ProcessPcb.c:306-441 | verdict, registry, log and waits are those of the case the entry's letter and name select |
| ExecutionEngine.Advance | ProcessPcb.c:195-201 | the cursor moves to the next node and takes its cycles; number and state unchanged |
| ExecutionEngine.UpdatePointerAndCycle | ProcessPcb.c:195-201 | PCB `processNumber` advances and every other entry stays |
| ExecutionEngine.SetPcbArrayToReady | ProcessPcb.c:175-186 | the table becomes the made-ready table and the all-Ready line is added |
| ExecutionEngine.RunProcess | ProcessPcb.c:102-149 | the PCB, log, waits and hang flag are those of running that PCB; other entries stay |
| ExecutionEngine.OperationLoop | ProcessPcb.c:123-139 | the PCB stops where the operation loop stops, with that node's cycles, still Running; log, waits and hang follow the loop; other entries stay |
| ExecutionEngine.OperationStep | ProcessPcb.c:127-138 | one processPcbLine, then the advance on success or the segmentation-fault line otherwise |
| ExecutionEngine.ProcessPcbArray | ProcessPcb.c:91-156 | table, log, waits and hang flag are those of the whole simulation |
| ExecutionEngine.ProcessOne | ProcessPcb.c:100-150 | one pass of the process loop, as the loop's function takes it |
| ExecutionEngine.RunProcesses | ProcessPcb.c:100-150 | the process loop's final table, log, waits and hang flag |
| InputDataProcessor.ReadLine | InputDataProcessor.c:78 | a stripped line holds no newline |
| InputDataProcessor.ReadsAsItself | InputDataProcessor.c:78 | a line with no leading space, newline or NUL reads as itself |
| InputDataProcessor.TextsAppend | InputDataProcessor.c:72-78 | each line is read on its own: the texts of two runs of lines are the texts of each |
| InputDataProcessor.SchedulingCode | InputDataProcessor.c:138-171 | every known scheduling value gets a code between NONE and RR-P |
| InputDataProcessor.LogCode | InputDataProcessor.c:239-254 | every known destination gets a code between Monitor and Both |
| InputDataProcessor.SlotFrame | InputDataProcessor.c:112-264 | a key sets no flag but its own |
| InputDataProcessor.SlotInRange | InputDataProcessor.c:112-264 | a key that does not abort keeps every read field within its bounds |
| InputDataProcessor.KeyTestInRange | InputDataProcessor.c:112-264 | one key test keeps a line's effect within bounds |
| InputDataProcessor.ConfigLineInRange | InputDataProcessor.c:105-264 | a configuration line that does not abort leaves every read field within its bounds |
| InputDataProcessor.CfgStepInRange | InputDataProcessor.c:80-282 | one pass of the line loop keeps every read field within bounds unless it fails |
| InputDataProcessor.CfgRunInRange | InputDataProcessor.c:68-283 | unless the loop has failed, every field whose key was read is within its bounds |
| InputDataProcessor.ParseCfgInRange | InputDataProcessor.c:29-313 | an accepted configuration has version 0 to 10, quantum 1 to 99, memory 1 to 1048576 KB, cycle times 1 to 10000 ms, and known scheduling and log codes |
| InputDataProcessor.KeyTestFlags | InputDataProcessor.c:112-264 | a key test sets no flag but that of a key the line names |
| InputDataProcessor.ConfigLineFlags | InputDataProcessor.c:105-264 | a configuration line sets no flag but that of the key it names |
| InputDataProcessor.CfgStepFlags | InputDataProcessor.c:80-264 | one pass of the loop sets no flag but that of the key its line names |
| InputDataProcessor.CfgRunNamed | InputDataProcessor.c:68-283 | every flag the loop has set belongs to a key some line names |
| InputDataProcessor.ParseCfgMissingKey | InputDataProcessor.c:285-305 | a file in which some key is never named is rejected |
| InputDataProcessor.CfgRunNext | InputDataProcessor.c:68-283 | the loop over `k + 1` lines is the loop over `k` lines and one more pass |
| InputDataProcessor.CfgRunSettled | InputDataProcessor.c:97-101 | once the loop has stopped or failed, later lines change nothing |
| InputDataProcessor.CfgRunMarkers | InputDataProcessor.c:82-101 | the loop starts only at a start-marker line, and stops only at an end marker after it |
| InputDataProcessor.ParseCfgFramed | InputDataProcessor.c:68-101 | processCFG accepts only a file with the start marker and, after it, the end marker |
| InputDataProcessor.CfgRunQuiet | InputDataProcessor.c:89-93 | lines before the start marker change nothing |
| InputDataProcessor.CfgRunAfterPreamble | InputDataProcessor.c:80-93 | after a preamble without the start marker, the loop stands where it would without it |
| InputDataProcessor.ParseCfgPreamble | InputDataProcessor.c:80-93 | a file reads the same with or without a preamble that holds no start marker |
| InputDataProcessor.SlotAborts | InputDataProcessor.c:112-264 | a key sets the abort flag exactly when its value is out of bounds (version, quantum, memory, cycle times) or unknown (scheduling, log), whatever was read before |
| InputDataProcessor.KeyTestAborts | InputDataProcessor.c:112-264 | after a key test the abort flag is set exactly when it was already set, or the line names that key with a rejected value |
| InputDataProcessor.ConfigLineAborts | InputDataProcessor.c:112-264 | a line naming a key with a rejected value aborts, whatever the later tests do |
| InputDataProcessor.ParseCfgRejects | InputDataProcessor.c:112-281 | a key line with a rejected value, read after the start marker while the loop goes on, makes processCFG return NULL, whatever follows |
| InputDataProcessor.ProcessCfg | InputDataProcessor.c:29-313 | the result is the parse of the file's lines: NULL on a rejected value (ParseCfgRejects), a missing key (ParseCfgMissingKey) or a missing marker (ParseCfgFramed); the record of the values on a well-formed file (ConfigText.ParseCfgAccepts) |
| InputDataProcessor.CfgPass | InputDataProcessor.c:70-282 | one pass reads, strips and acts on line `k`, as the loop's step function does |
| InputDataProcessor.AllKeysRead | InputDataProcessor.c:286-305 | true exactly when all nine flags are set |
| InputDataProcessor.ParseConfigLine | InputDataProcessor.c:105-264 | record, flags and abort flag are the line's effect |
| InputDataProcessor.TestKey | InputDataProcessor.c:112-264 | on a matching key, the value is read into its field, bounds-checked and its flag set |
| InputDataProcessor.LookUpScheduling | InputDataProcessor.c:138-171 | the else-if chain gives the scheduling code, or none |
| InputDataProcessor.LookUpLog | InputDataProcessor.c:239-254 | the else-if chain gives the log code, or none |
| InputDataProcessor.SkipSpace | InputDataProcessor.c:401-402 | `%d` skips leading whitespace: a suffix starting with a non-space |
| InputDataProcessor.DigitRun | InputDataProcessor.c:401-402 | `%d` takes the longest run of digits |
| InputDataProcessor.ScanEntry | InputDataProcessor.c:401-409 | a fully scanned entry has a non-empty operation string without ')' |
| InputDataProcessor.MetaRunNext | InputDataProcessor.c:351-485 | the loop over `k + 1` lines is the loop over `k` lines and one more pass |
| InputDataProcessor.MetaRunSettled | InputDataProcessor.c:374-385 | once the loop has stopped or failed, later lines change nothing |
| InputDataProcessor.LineEntriesAppend | InputDataProcessor.c:387-484 | a line's entries, when all valid, are appended after those read before: at least one, each legal |
| InputDataProcessor.MetaStepAppends | InputDataProcessor.c:359-484 | one pass only appends to the catalog, and only legal entries |
| InputDataProcessor.MetaRunLegal | InputDataProcessor.c:351-485 | every catalog entry is legal |
| InputDataProcessor.MetaRunGrows | InputDataProcessor.c:351-485 | entries are only appended, in line order |
| InputDataProcessor.ParseMetaLegal | InputDataProcessor.c:315-490 | processMetaData returns only legal entries |
| InputDataProcessor.MetaRunQuiet | InputDataProcessor.c:369-372 | lines before the start marker change nothing |
| InputDataProcessor.MetaRunAfterPreamble | InputDataProcessor.c:359-372 | after a preamble without the start marker, the loop stands where it would without it |
| InputDataProcessor.ParseMetaPreamble | InputDataProcessor.c:359-372 | a file reads the same with or without a preamble that holds no start marker |
| InputDataProcessor.ProcessMetaData | InputDataProcessor.c:315-490 | the result is the parse of the file's lines |
| InputDataProcessor.MetaPass | InputDataProcessor.c:353-485 | one pass reads, strips and acts on line `k`, as the loop's step function does |
| InputDataProcessor.ProcessLineEntries | InputDataProcessor.c:387-484 | the do-while loop gives the line's entries appended to the catalog, or none on an invalid entry |
| InputDataProcessor.CheckEntry | InputDataProcessor.c:389-440 | one entry, its leading space removed, is scanned and checked against both tables |
| InputDataProcessor.IsLegalLetter | InputDataProcessor.c:411-424 | true exactly when the letter is in the component-letter table |
| InputDataProcessor.IsLegalOp | InputDataProcessor.c:426-439 | true exactly when the string is in the operation-string table |
| MetaDataText.Numeral | InputDataProcessor.c:401 | a cycle count is written as a non-empty run of digits |
| MetaDataText.NumeralValue | InputDataProcessor.c:401 | the digits written for `n` have the value `n` |
| MetaDataText.ScanNumeral | InputDataProcessor.c:401-402 | `%d` reads a written count back |
| MetaDataText.LegalShape | InputDataProcessor.c:23-26 | every legal letter and operation string can be written in the entry format |
| MetaDataText.ScanEntryText | InputDataProcessor.c:401-409 | the sscanf format reads a written entry back as itself |
| MetaDataText.NextEntry | InputDataProcessor.c:393-402 | an entry written after "; " is read back once its space is dropped |
| MetaDataText.NextAt | InputDataProcessor.c:483-484 | the loop condition splits the rest at its first ';' |
| MetaDataText.TailEntries | InputDataProcessor.c:387-484 | the loop over the rest of a written line reads all its entries, in order |
| MetaDataText.LineReadsAsItself | InputDataProcessor.c:359 | stripString leaves a written line as it is |
| MetaDataText.LineEntriesOf | InputDataProcessor.c:382-484 | a written line splits at ';' and yields exactly its entries |
| MetaDataText.MetaStepLine | InputDataProcessor.c:359-484 | after the start marker, one pass over a written line appends exactly its entries |
| MetaDataText.MetaStepEnd | InputDataProcessor.c:374-377 | the end marker stops the loop |
| MetaDataText.LoneEntryStops | InputDataProcessor.c:382-385 | a line holding one entry closed by '.' stops the loop without its entry being read |
| MetaDataText.MetaFileReadsAsItself | InputDataProcessor.c:355-359 | every line of a written file reads as itself |
| MetaDataText.MetaFileRun | InputDataProcessor.c:351-485 | after the start marker and `k` written lines, the catalog holds those lines' entries, in order |
| MetaDataText.ParseMetaFile | InputDataProcessor.c:315-490 | processMetaData reads a written meta-data file back as the entries it was written from |
| ConfigText.SchedulingTable | InputDataProcessor.c:134-171 | the six known scheduling values map to their codes, " SRTF-N" to SRTF-P's; " SRTF-P" and a value without the leading space are unknown |
| ConfigText.LogTable | InputDataProcessor.c:237-255 | " Monitor", " File" and " Both" map to 0, 1 and 2; other values are unknown |
| ConfigText.KeyNamesDistinct | InputDataProcessor.c:112-264 | the nine key names differ, so a line matches at most one of the nine tests |
| ConfigText.KeyTestNamed | InputDataProcessor.c:112-264 | on a line naming key `j`, test `i` has that key's effect when `i == j` and none otherwise |
| ConfigText.ConfigLineNamed | InputDataProcessor.c:109-264 | a line naming key `j` has exactly that key's effect |
| ConfigText.PartialStep | InputDataProcessor.c:112-264 | key line `k` with an accepted value stores its value in its own field, sets its own flag, and does not abort |
| ConfigText.ConfigStep | InputDataProcessor.c:64-281 | one pass over key line `k` after the start marker sets that key's field and flag, and the loop goes on |
| ConfigText.ConfigFileRun | InputDataProcessor.c:64-281 | after the start marker and `k` key lines the loop holds exactly the first `k` values and flags |
| ConfigText.CfgStepEnd | InputDataProcessor.c:95-101 | the end marker after the start marker stops the loop |
| ConfigText.PartialAll | InputDataProcessor.c:109-264 | after the nine key lines the record is the decoded one |
| ConfigText.ParseCfgAccepts | InputDataProcessor.c:29-313 | a file holding the start marker, the nine keys in order with accepted values, and the end marker is accepted, and the record holds the version through stringToDouble, the stripped paths, the table codes and the stringToInt numbers of those values |

## Left out

- Clock and log text: `accessTimer`, the `sprintf` formatting and the timestamps are not modelled. A log line is an abstract `Event`.
- Output: printing to the monitor is not modelled. The model's log holds only the lines appended to the LogFile list.
- createLogFile: writing the log list to a file is file I/O and is not modelled.
- Threads and timers: the I/O thread and `runTimer` become entries of the `waits` sequence. `pthread_create` and `pthread_join` are not modelled.
- clearArray: clearing a buffer has no effect on abstract log lines, so it is not modelled.
- Freeing memory: deallocateBuffers, deallocatePcb, deallocateLogFile, deallocateMemoryList and every `free` on the abort paths are not modelled.
- Opening files: a file is the sequence of its lines.
  - `fopen` returning NULL is not modelled.
  - Neither is processMetaData's removal of a leading space from the file name.
  - `getline` returning -1 is the end of that sequence.
- stringToDouble: floating point is not modelled. processCFG's `(int) stringToDouble(...)` for Version/Phase is the parameter `versionOf`.
- Integer width: C's 32-bit `int` is modelled as an unbounded integer. Overflow in stringToInt, in cycles times cycle time, and in the estimate sum is not modelled.
- Buffer size: the 255-byte buffers of the parsers are not modelled, so lines of any length are read whole.
- Uninitialised values:
  - the record processCFG gets from `malloc` starts as a fixed blank record;
  - processCFG's uninitialised `buffer` pointer is not modelled;
  - for a configuration line with no ':', splitString writes nothing to `configValueBuffer`, so the C then reads an uninitialised buffer; the model reads the value as empty (`InputDataProcessor.ConfigValue`);
  - logFileCreate's head line is null.
- Entry scanning (`InputDataProcessor.ScanEntry`):
  - the value of a `%d` beyond `int` is not modelled;
  - a partial scan that fills fewer than three slots counts as invalid, as the C's check of `elementsRead` does.
- In-place split: the do-while loop calls `splitString(right, left, right, ...)`, with `right` as both input and output. The model splits a value. The copy only moves cells left, so the result is the same.
- Catalog storage: processMetaData appends to a LinkedList. The model's catalog is a `seq<Op>` without the head node. LinkedList.c itself is modelled separately.
- Main.c is not part of this model.
- Unused settings: the quantum and the preemptive scheduling codes are read and bounds-checked, but the engine does not use them; neither does the model.
- ConfigText.ParseCfgAccepts: acceptance is proved for files that hold each key once, in processCFG's order, right after the start marker; a preamble before the start marker is covered by `InputDataProcessor.ParseCfgPreamble`. Other orders and repeated keys are accepted by the C too, but no lemma states it. The lemma takes the line texts with their key names rather than writing a record out as text: the character facts about the nine key literals that a writer would need cost more than the verifier's budget allows.
- ExecutionEngine.SetPcbArrayToReady: requires a cell at index `arrayLength`, which the C writes one past the PCBs it stored; the write past the allocation is not modelled.
- PcbTable.StorePcb: requires a non-empty catalog and `ScanSafe`. These exclude an empty catalog and a recorded start marker as the last node, where the C dereferences NULL.
- PcbTable.EstimatePcbTime: requires that the 'A'-skipping walk stays on the list; the C dereferences NULL otherwise.
- ExecutionEngine.RunProcess: requires a PCB whose estimate and operation loop stay on the list; the C dereferences NULL otherwise.
- ExecutionEngine.OperationLoop: requires the process's next 'A' node to exist; a catalog ending without one makes the C run off the list.
