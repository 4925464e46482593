/**
 * The configuration-file and meta-data parsers (InputDataProcessor.c),
 * over the lines a file holds.  Each raw line is the buffer getline
 * leaves; both parsers look at its text after stripString has run.
 */
module InputDataProcessor {
  import opened SimTypes
  import opened StringUtilities

  /** What a raw line reads as once stripString has run on getline's buffer. */
  function ReadLine(raw: string): (t: string)
    ensures '\n' !in t
  {
    Strip(Content(raw))
  }

  /** The texts of all the lines, as the parsers read them one by one. */
  function Texts(lines: seq<string>): (r: seq<string>)
    ensures |r| == |lines|
  {
    seq(|lines|, i requires 0 <= i < |lines| => ReadLine(lines[i]))
  }

  /** A line that starts with no space and holds no newline or NUL reads as itself. */
  lemma ReadsAsItself(t: string)
    requires t != [] && t[0] != ' ' && '\n' !in t && NUL !in t
    ensures ReadLine(t) == t
  {
    assert t[..|t|] == t;
  }

  /** The texts of two runs of lines, one after the other. */
  lemma TextsAppend(a: seq<string>, b: seq<string>)
    ensures Texts(a + b) == Texts(a) + Texts(b)
  {
    forall i | 0 <= i < |a + b|
      ensures Texts(a + b)[i] == (Texts(a) + Texts(b))[i]
    {
      if i < |a| {
        assert Texts(a + b)[i] == ReadLine((a + b)[i]) == ReadLine(a[i]) == Texts(a)[i];
      } else {
        assert Texts(a + b)[i] == ReadLine((a + b)[i]) == ReadLine(b[i - |a|]) == Texts(b)[i - |a|];
      }
    }
  }

  /** The two kinds of input file, each a section between a start and an end marker line. */
  datatype Section = Config | Meta

  /** The line that opens a section. */
  function StartMarker(s: Section): string
  {
    match s
    case Config => "Start Simulator Configuration File"
    case Meta => "Start Program Meta-Data Code:"
  }

  /** The line that closes a section. */
  function EndMarker(s: Section): string
  {
    match s
    case Config => "End Simulator Configuration File."
    case Meta => "End Program Meta-Data Code."
  }

  // ---------------------------------------------------------------------
  // processCFG

  /** The key whose `dataRead` slot is `j`, in processCFG's order. */
  function KeyName(j: nat): string
    requires j < 9
  {
    if j == 0 then "Version/Phase"
    else if j == 1 then "File Path"
    else if j == 2 then "CPU Scheduling Code"
    else if j == 3 then "Quantum Time (cycles)"
    else if j == 4 then "Memory Available (KB)"
    else if j == 5 then "Processor Cycle Time (msec)"
    else if j == 6 then "I/O Cycle Time (msec)"
    else if j == 7 then "Log To"
    else "Log File Path"
  }

  /** The name side of a configuration line: the text before its first ':'. */
  function ConfigName(t: string): string
  {
    Before(t, ':')
  }

  /**
   * The value side: the text after the first ':'.  Without a ':' the C
   * value buffer is left as it was, uninitialised; the model reads it as
   * empty.
   */
  function ConfigValue(t: string): string
  {
    if ':' in t then After(t, ':') else []
  }

  /** The scheduling values processCFG knows; " SRTF-N" gets SRTF-P's code, and " SRTF-P" is unknown. */
  function SchedulingCode(value: string): (r: Option<int>)
    ensures r.Some? ==> SCHED_NONE <= r.value <= SCHED_RR_P
  {
    if value == " NONE" then Some(SCHED_NONE)
    else if value == " FCFS-N" then Some(SCHED_FCFS_N)
    else if value == " SJF-N" then Some(SCHED_SJF_N)
    else if value == " SRTF-N" then Some(SCHED_SRTF_P)
    else if value == " FCFS-P" then Some(SCHED_FCFS_P)
    else if value == " RR-P" then Some(SCHED_RR_P)
    else None
  }

  /** The log destinations processCFG knows. */
  function LogCode(value: string): (r: Option<int>)
    ensures r.Some? ==> LOG_MONITOR <= r.value <= LOG_BOTH
  {
    if value == " Monitor" then Some(LOG_MONITOR)
    else if value == " File" then Some(LOG_FILE)
    else if value == " Both" then Some(LOG_BOTH)
    else None
  }

  /** Whether a line loop is still reading, has stopped at its end, or has failed. */
  datatype Phase = Scanning | Stopped | Failed

  /** What one configuration line leaves: the record, the `dataRead` flags, and whether to abort. */
  datatype LineEffect = LineEffect(data: CfgData, read: seq<bool>, abort: bool)

  /** The field of slot `j` holds a value within that slot's bounds (paths have none). */
  predicate Bounded(j: nat, data: CfgData)
  {
    && (j == 0 ==> 0 <= data.version <= 10)
    && (j == 2 ==> SCHED_NONE <= data.cpuSchedulingCode <= SCHED_RR_P)
    && (j == 3 ==> 1 <= data.quantumTimeCycles <= 99)
    && (j == 4 ==> 1 <= data.memAvailable <= 1048576)
    && (j == 5 ==> 1 <= data.procCycleTime <= 10000)
    && (j == 6 ==> 1 <= data.ioCycleTime <= 10000)
    && (j == 7 ==> LOG_MONITOR <= data.logTo <= LOG_BOTH)
  }

  /** The fields whose keys have been read hold values within their bounds. */
  predicate ReadInRange(data: CfgData, read: seq<bool>)
  {
    forall j :: 0 <= j < |read| && read[j] ==> Bounded(j, data)
  }

  /** Every bounded field of a configuration is within its bounds. */
  predicate InRange(data: CfgData)
  {
    && 0 <= data.version <= 10
    && SCHED_NONE <= data.cpuSchedulingCode <= SCHED_RR_P
    && 1 <= data.quantumTimeCycles <= 99
    && 1 <= data.memAvailable <= 1048576
    && 1 <= data.procCycleTime <= 10000
    && 1 <= data.ioCycleTime <= 10000
    && LOG_MONITOR <= data.logTo <= LOG_BOTH
  }

  /**
   * The ways processCFG reads a value's text: as a version (`versionOf`
   * stands for the cast of stringToDouble's result), as an integer
   * (stringToInt), as a path (stripString), and against the scheduling
   * and log tables.
   */
  datatype Reading = Reading(version: int, number: int, path: string, scheduling: Option<int>, log: Option<int>)

  function ReadValue(value: string, versionOf: string -> int): Reading
  {
    Reading(versionOf(value), ToInt(value), Strip(value), SchedulingCode(value), LogCode(value))
  }

  /**
   * The body of processCFG's loop for a line after the start marker: the
   * nine key tests in turn; the key named, if any, sets its field and its
   * `dataRead` flag, and a value out of bounds or unknown sets the abort flag.
   */
  function ConfigLine(name: string, value: string, data: CfgData, read: seq<bool>, versionOf: string -> int): (e: LineEffect)
    requires |read| == 9
    ensures |e.read| == 9
  {
    var r := ReadValue(value, versionOf);
    var e0 := KeyTest(0, name, r, LineEffect(data, read, false));
    var e1 := KeyTest(1, name, r, e0);
    var e2 := KeyTest(2, name, r, e1);
    var e3 := KeyTest(3, name, r, e2);
    var e4 := KeyTest(4, name, r, e3);
    var e5 := KeyTest(5, name, r, e4);
    var e6 := KeyTest(6, name, r, e5);
    var e7 := KeyTest(7, name, r, e6);
    KeyTest(8, name, r, e7)
  }

  /** processCFG's test for the key of slot `i`: on a match, that slot's effect; the abort flag stays set once set. */
  function KeyTest(i: nat, name: string, r: Reading, e: LineEffect): (e': LineEffect)
    requires i < 9 && |e.read| == 9
    ensures |e'.read| == 9
  {
    if name == KeyName(i) then
      var f := SlotEffect(i, r, e.data, e.read);
      LineEffect(f.data, f.read, e.abort || f.abort)
    else e
  }

  /** What the key of slot `j` does with the value read as `r`. */
  function SlotEffect(j: nat, r: Reading, data: CfgData, read: seq<bool>): (e: LineEffect)
    requires j < 9 && |read| == 9
    ensures |e.read| == 9
  {
    if j == 0 then
      LineEffect(data.(version := r.version), read[0 := true], r.version < 0 || r.version > 10)
    else if j == 1 then
      LineEffect(data.(metaFilePath := r.path), read[1 := true], false)
    else if j == 2 then
      match r.scheduling
      case Some(code) => LineEffect(data.(cpuSchedulingCode := code), read[2 := true], false)
      case None => LineEffect(data, read, true)
    else if j == 3 then
      LineEffect(data.(quantumTimeCycles := r.number), read[3 := true], r.number >= 100 || r.number <= 0)
    else if j == 4 then
      LineEffect(data.(memAvailable := r.number), read[4 := true], r.number < 1 || r.number > 1048576)
    else if j == 5 then
      LineEffect(data.(procCycleTime := r.number), read[5 := true], r.number < 1 || r.number > 10000)
    else if j == 6 then
      LineEffect(data.(ioCycleTime := r.number), read[6 := true], r.number < 1 || r.number > 10000)
    else if j == 7 then
      match r.log
      case Some(code) => LineEffect(data.(logTo := code), read[7 := true], false)
      case None => LineEffect(data, read, true)
    else
      LineEffect(data.(logPath := r.path), read[8 := true], false)
  }

  /** A line sets no flag but its own key's. */
  lemma SlotFrame(j: nat, r: Reading, data: CfgData, read: seq<bool>)
    requires j < 9 && |read| == 9
    ensures forall i :: 0 <= i < 9 && i != j ==> SlotEffect(j, r, data, read).read[i] == read[i]
  {
  }

  /** A line that does not abort leaves every field whose key has been read within its bounds. */
  lemma SlotInRange(j: nat, r: Reading, data: CfgData, read: seq<bool>)
    requires j < 9 && |read| == 9 && ReadInRange(data, read)
    requires r.scheduling.Some? ==> SCHED_NONE <= r.scheduling.value <= SCHED_RR_P
    requires r.log.Some? ==> LOG_MONITOR <= r.log.value <= LOG_BOTH
    ensures !SlotEffect(j, r, data, read).abort
            ==> ReadInRange(SlotEffect(j, r, data, read).data, SlotEffect(j, r, data, read).read)
  {
  }

  /** The value read as `r` is out of bounds or unknown for the key of slot `j`, so processCFG sets its abort flag. */
  predicate Rejected(j: nat, r: Reading)
  {
    || (j == 0 && (r.version < 0 || r.version > 10))
    || (j == 2 && r.scheduling.None?)
    || (j == 3 && (r.number >= 100 || r.number <= 0))
    || (j == 4 && (r.number < 1 || r.number > 1048576))
    || (j == 5 && (r.number < 1 || r.number > 10000))
    || (j == 6 && (r.number < 1 || r.number > 10000))
    || (j == 7 && r.log.None?)
  }

  /** A key aborts exactly when its value is rejected, whatever was read before. */
  lemma SlotAborts(j: nat, r: Reading, data: CfgData, read: seq<bool>)
    requires j < 9 && |read| == 9
    ensures SlotEffect(j, r, data, read).abort <==> Rejected(j, r)
  {
  }

  /** A key test aborts when the line had already aborted, or when it names the key and the value is rejected. */
  lemma KeyTestAborts(i: nat, name: string, r: Reading, e: LineEffect)
    requires i < 9 && |e.read| == 9
    ensures KeyTest(i, name, r, e).abort <==> e.abort || (name == KeyName(i) && Rejected(i, r))
  {
    if name == KeyName(i) {
      SlotAborts(i, r, e.data, e.read);
    }
  }

  /** A line naming the key of slot `j` aborts when its value is rejected: the abort flag stays set through the later tests. */
  lemma ConfigLineAborts(j: nat, value: string, data: CfgData, read: seq<bool>, versionOf: string -> int)
    requires j < 9 && |read| == 9 && Rejected(j, ReadValue(value, versionOf))
    ensures ConfigLine(KeyName(j), value, data, read, versionOf).abort
  {
    var name, r := KeyName(j), ReadValue(value, versionOf);
    var e0 := KeyTest(0, name, r, LineEffect(data, read, false));
    var e1 := KeyTest(1, name, r, e0);
    var e2 := KeyTest(2, name, r, e1);
    var e3 := KeyTest(3, name, r, e2);
    var e4 := KeyTest(4, name, r, e3);
    var e5 := KeyTest(5, name, r, e4);
    var e6 := KeyTest(6, name, r, e5);
    var e7 := KeyTest(7, name, r, e6);
    KeyTestAborts(0, name, r, LineEffect(data, read, false));
    KeyTestAborts(1, name, r, e0);
    KeyTestAborts(2, name, r, e1);
    KeyTestAborts(3, name, r, e2);
    KeyTestAborts(4, name, r, e3);
    KeyTestAborts(5, name, r, e4);
    KeyTestAborts(6, name, r, e5);
    KeyTestAborts(7, name, r, e6);
    KeyTestAborts(8, name, r, e7);
  }

  /** All nine flags are set. */
  predicate AllRead(read: seq<bool>)
  {
    forall j :: 0 <= j < |read| ==> read[j]
  }

  /** The record before any key is read (the C struct comes from malloc; no field of it is read before it is set). */
  const UNSET: CfgData := CfgData(0, "", 0, 0, 0, 0, 0, 0, "")

  const NONE_READ: seq<bool> := [false, false, false, false, false, false, false, false, false]

  /** Where processCFG's line loop stands after the lines read so far. */
  datatype CfgState = CfgState(hit: bool, data: CfgData, read: seq<bool>, phase: Phase)

  const CFG_INIT: CfgState := CfgState(false, UNSET, NONE_READ, Scanning)

  /**
   * One pass of processCFG's line loop over the line text `t`: lines up to
   * the start marker are skipped; the end marker stops the loop; any other
   * line is a configuration line, and its abort fails the loop.
   */
  function CfgStep(s: CfgState, t: string, versionOf: string -> int): (r: CfgState)
    requires |s.read| == 9
    ensures |r.read| == 9
  {
    if s.phase != Scanning then s
    else if t == StartMarker(Config) then s.(hit := true)
    else if !s.hit then s
    else if t == EndMarker(Config) then s.(phase := Stopped)
    else
      var e := ConfigLine(ConfigName(t), ConfigValue(t), s.data, s.read, versionOf);
      CfgState(true, e.data, e.read, if e.abort then Failed else Scanning)
  }

  /** The line loop run over `texts`, in order. */
  function CfgRun(texts: seq<string>, versionOf: string -> int): (r: CfgState)
    ensures |r.read| == 9
    decreases |texts|, 2
  {
    if texts == [] then CFG_INIT else CfgLast(texts, versionOf)
  }

  /** The loop over a nonempty `texts`: ends with the pass over the last line. */
  function CfgLast(texts: seq<string>, versionOf: string -> int): (r: CfgState)
    requires texts != []
    ensures |r.read| == 9
    decreases |texts|, 1
  {
    CfgAfterLine(texts, |texts| - 1, versionOf)
  }

  /** The state after the pass over line `k`, which follows the loop over the lines before it. */
  function CfgAfterLine(texts: seq<string>, k: nat, versionOf: string -> int): (r: CfgState)
    requires k < |texts|
    ensures |r.read| == 9
    decreases |texts|, 0
  {
    CfgStep(CfgRun(texts[..k], versionOf), texts[k], versionOf)
  }

  /** The loop over the first `k + 1` lines is the loop over `k` lines and one more pass. */
  lemma CfgRunNext(texts: seq<string>, k: nat, versionOf: string -> int)
    requires k < |texts|
    ensures CfgRun(texts[..k + 1], versionOf) == CfgStep(CfgRun(texts[..k], versionOf), texts[k], versionOf)
  {
    assert CfgRun(texts[..k + 1], versionOf) == CfgAfterLine(texts[..k + 1], k, versionOf);
    assert texts[..k + 1][..k] == texts[..k];
  }

  /** Once the loop has stopped or failed, later lines change nothing. */
  lemma {:induction false} CfgRunSettled(texts: seq<string>, n: nat, versionOf: string -> int)
    requires n <= |texts| && CfgRun(texts[..n], versionOf).phase != Scanning
    ensures CfgRun(texts, versionOf) == CfgRun(texts[..n], versionOf)
    decreases |texts| - n
  {
    if n < |texts| {
      var m := |texts| - 1;
      assert texts[..m][..n] == texts[..n];
      CfgRunSettled(texts[..m], n, versionOf);
      CfgRunNext(texts, m, versionOf);
      assert texts[..m + 1] == texts;
    } else {
      assert texts[..n] == texts;
    }
  }

  /**
   * processCFG on the lines of a configuration file: the record, when the
   * end marker was reached without an abort and all nine keys were read.
   */
  function ParseCfg(lines: seq<string>, versionOf: string -> int): Option<CfgData>
  {
    var s := CfgRun(Texts(lines), versionOf);
    if s.phase == Stopped && AllRead(s.read) then Some(s.data) else None
  }

  /** A line effect that does not abort has every read field within its bounds. */
  predicate Sound(e: LineEffect)
  {
    !e.abort ==> ReadInRange(e.data, e.read)
  }

  /** One key test keeps a line's effect sound. */
  lemma KeyTestInRange(i: nat, name: string, r: Reading, e: LineEffect)
    requires i < 9 && |e.read| == 9 && Sound(e)
    requires r.scheduling.Some? ==> SCHED_NONE <= r.scheduling.value <= SCHED_RR_P
    requires r.log.Some? ==> LOG_MONITOR <= r.log.value <= LOG_BOTH
    ensures Sound(KeyTest(i, name, r, e))
  {
    if name == KeyName(i) && !e.abort {
      SlotInRange(i, r, e.data, e.read);
    }
  }

  /** A configuration line that does not abort leaves every read field within its bounds. */
  lemma ConfigLineInRange(name: string, value: string, data: CfgData, read: seq<bool>, versionOf: string -> int)
    requires |read| == 9 && ReadInRange(data, read)
    ensures Sound(ConfigLine(name, value, data, read, versionOf))
  {
    var r := ReadValue(value, versionOf);
    var e0 := KeyTest(0, name, r, LineEffect(data, read, false));
    var e1 := KeyTest(1, name, r, e0);
    var e2 := KeyTest(2, name, r, e1);
    var e3 := KeyTest(3, name, r, e2);
    var e4 := KeyTest(4, name, r, e3);
    var e5 := KeyTest(5, name, r, e4);
    var e6 := KeyTest(6, name, r, e5);
    var e7 := KeyTest(7, name, r, e6);
    KeyTestInRange(0, name, r, LineEffect(data, read, false));
    KeyTestInRange(1, name, r, e0);
    KeyTestInRange(2, name, r, e1);
    KeyTestInRange(3, name, r, e2);
    KeyTestInRange(4, name, r, e3);
    KeyTestInRange(5, name, r, e4);
    KeyTestInRange(6, name, r, e5);
    KeyTestInRange(7, name, r, e6);
    KeyTestInRange(8, name, r, e7);
  }

  /** Unless the loop has failed, every field whose key has been read is within its bounds. */
  lemma {:induction false} CfgRunInRange(texts: seq<string>, versionOf: string -> int)
    ensures CfgRun(texts, versionOf).phase != Failed
            ==> ReadInRange(CfgRun(texts, versionOf).data, CfgRun(texts, versionOf).read)
  {
    if texts != [] {
      var k := |texts| - 1;
      var s := CfgRun(texts[..k], versionOf);
      CfgRunInRange(texts[..k], versionOf);
      CfgRunNext(texts, k, versionOf);
      assert texts[..k + 1] == texts;
      CfgStepInRange(s, texts[k], versionOf);
    }
  }

  /** One pass of the line loop keeps every read field within its bounds, unless it fails. */
  lemma CfgStepInRange(s: CfgState, t: string, versionOf: string -> int)
    requires |s.read| == 9 && (s.phase != Failed ==> ReadInRange(s.data, s.read))
    ensures CfgStep(s, t, versionOf).phase != Failed
            ==> ReadInRange(CfgStep(s, t, versionOf).data, CfgStep(s, t, versionOf).read)
  {
    if s.phase != Scanning || t == StartMarker(Config) || !s.hit || t == EndMarker(Config) {
      assert CfgStep(s, t, versionOf).data == s.data && CfgStep(s, t, versionOf).read == s.read;
    } else {
      ConfigLineInRange(ConfigName(t), ConfigValue(t), s.data, s.read, versionOf);
    }
  }

  /** A configuration processCFG accepts has every bounded field within its bounds. */
  lemma ParseCfgInRange(lines: seq<string>, versionOf: string -> int)
    ensures ParseCfg(lines, versionOf).Some? ==> InRange(ParseCfg(lines, versionOf).value)
  {
    var s := CfgRun(Texts(lines), versionOf);
    CfgRunInRange(Texts(lines), versionOf);
    if s.phase == Stopped && AllRead(s.read) {
      assert s.read[0] && s.read[2] && s.read[3] && s.read[4] && s.read[5] && s.read[6] && s.read[7];
    }
  }

  /** Some line of `texts` names the key of slot `j`. */
  predicate Named(texts: seq<string>, j: nat)
  {
    j < 9 && exists i :: 0 <= i < |texts| && ConfigName(texts[i]) == KeyName(j)
  }

  /** A key test sets no flag but that of a key the line names. */
  lemma KeyTestFlags(i: nat, name: string, r: Reading, e: LineEffect)
    requires i < 9 && |e.read| == 9
    ensures forall j :: 0 <= j < 9 && KeyTest(i, name, r, e).read[j] ==> e.read[j] || name == KeyName(j)
  {
    if name == KeyName(i) {
      SlotFrame(i, r, e.data, e.read);
    }
  }

  /** A configuration line sets no flag but that of the key it names. */
  lemma ConfigLineFlags(name: string, value: string, data: CfgData, read: seq<bool>, versionOf: string -> int)
    requires |read| == 9
    ensures forall j :: 0 <= j < 9 && ConfigLine(name, value, data, read, versionOf).read[j] ==> read[j] || name == KeyName(j)
  {
    var r := ReadValue(value, versionOf);
    var e0 := KeyTest(0, name, r, LineEffect(data, read, false));
    var e1 := KeyTest(1, name, r, e0);
    var e2 := KeyTest(2, name, r, e1);
    var e3 := KeyTest(3, name, r, e2);
    var e4 := KeyTest(4, name, r, e3);
    var e5 := KeyTest(5, name, r, e4);
    var e6 := KeyTest(6, name, r, e5);
    var e7 := KeyTest(7, name, r, e6);
    KeyTestFlags(0, name, r, LineEffect(data, read, false));
    KeyTestFlags(1, name, r, e0);
    KeyTestFlags(2, name, r, e1);
    KeyTestFlags(3, name, r, e2);
    KeyTestFlags(4, name, r, e3);
    KeyTestFlags(5, name, r, e4);
    KeyTestFlags(6, name, r, e5);
    KeyTestFlags(7, name, r, e6);
    KeyTestFlags(8, name, r, e7);
  }

  /** One pass of the line loop sets no flag but that of the key its line names. */
  lemma CfgStepFlags(s: CfgState, t: string, versionOf: string -> int)
    requires |s.read| == 9
    ensures forall j :: 0 <= j < 9 && CfgStep(s, t, versionOf).read[j] ==> s.read[j] || ConfigName(t) == KeyName(j)
  {
    if s.phase != Scanning || t == StartMarker(Config) || !s.hit || t == EndMarker(Config) {
      assert CfgStep(s, t, versionOf).read == s.read;
    } else {
      ConfigLineFlags(ConfigName(t), ConfigValue(t), s.data, s.read, versionOf);
    }
  }

  /** Every flag the loop has set belongs to a key some line names. */
  lemma {:induction false} CfgRunNamed(texts: seq<string>, versionOf: string -> int)
    ensures forall j :: 0 <= j < 9 && CfgRun(texts, versionOf).read[j] ==> Named(texts, j)
  {
    if texts != [] {
      var k := |texts| - 1;
      var s := CfgRun(texts[..k], versionOf);
      CfgRunNamed(texts[..k], versionOf);
      CfgRunNext(texts, k, versionOf);
      assert texts[..k + 1] == texts;
      CfgStepFlags(s, texts[k], versionOf);
      forall j | 0 <= j < 9 && CfgRun(texts, versionOf).read[j]
        ensures Named(texts, j)
      {
        if s.read[j] {
          var i :| 0 <= i < k && ConfigName(texts[..k][i]) == KeyName(j);
          assert texts[..k][i] == texts[i];
        } else {
          assert ConfigName(texts[k]) == KeyName(j);
        }
      }
    }
  }

  /** processCFG rejects a file in which some key is never named. */
  lemma ParseCfgMissingKey(lines: seq<string>, versionOf: string -> int, j: nat)
    requires j < 9 && !Named(Texts(lines), j)
    ensures ParseCfg(lines, versionOf) == None
  {
    CfgRunNamed(Texts(lines), versionOf);
  }

  /** The start marker of `sec` is followed, later on, by its end marker. */
  predicate Framed(texts: seq<string>, sec: Section)
  {
    exists a, b :: 0 <= a < b < |texts| && texts[a] == StartMarker(sec) && texts[b] == EndMarker(sec)
  }

  /** The loop has seen the start marker only if a line is that marker, and stopped only at an end marker after it. */
  lemma {:induction false} CfgRunMarkers(texts: seq<string>, versionOf: string -> int)
    ensures CfgRun(texts, versionOf).hit ==> StartMarker(Config) in texts
    ensures CfgRun(texts, versionOf).phase == Stopped ==> Framed(texts, Config)
  {
    if texts != [] {
      var k := |texts| - 1;
      var s := CfgRun(texts[..k], versionOf);
      CfgRunMarkers(texts[..k], versionOf);
      CfgRunNext(texts, k, versionOf);
      assert texts[..k + 1] == texts;
      if s.phase == Stopped {
        var a, b :| 0 <= a < b < k && texts[..k][a] == StartMarker(Config) && texts[..k][b] == EndMarker(Config);
        assert texts[a] == texts[..k][a] && texts[b] == texts[..k][b];
      } else if s.hit {
        var a :| 0 <= a < k && texts[..k][a] == StartMarker(Config);
        assert texts[a] == texts[..k][a];
      }
    }
  }

  /** processCFG accepts only a file holding the start marker and, after it, the end marker. */
  lemma ParseCfgFramed(lines: seq<string>, versionOf: string -> int)
    ensures ParseCfg(lines, versionOf).Some? ==> Framed(Texts(lines), Config)
  {
    CfgRunMarkers(Texts(lines), versionOf);
  }

  /** Before the start marker the loop changes nothing. */
  lemma {:induction false} CfgRunQuiet(pre: seq<string>, versionOf: string -> int)
    requires StartMarker(Config) !in pre
    ensures CfgRun(pre, versionOf) == CFG_INIT
  {
    if pre != [] {
      var k := |pre| - 1;
      assert pre[..k + 1] == pre;
      CfgRunQuiet(pre[..k], versionOf);
      CfgRunNext(pre, k, versionOf);
    }
  }

  /** After a preamble without the start marker, the loop stands where it would without the preamble. */
  lemma {:induction false} CfgRunAfterPreamble(pre: seq<string>, rest: seq<string>, k: nat, versionOf: string -> int)
    requires StartMarker(Config) !in pre && k <= |rest|
    ensures CfgRun((pre + rest)[..|pre| + k], versionOf) == CfgRun(rest[..k], versionOf)
  {
    if k == 0 {
      assert (pre + rest)[..|pre|] == pre;
      CfgRunQuiet(pre, versionOf);
    } else {
      CfgRunAfterPreamble(pre, rest, k - 1, versionOf);
      CfgRunNext(pre + rest, |pre| + k - 1, versionOf);
      CfgRunNext(rest, k - 1, versionOf);
      assert (pre + rest)[|pre| + k - 1] == rest[k - 1];
    }
  }

  /** processCFG skips the lines before the start marker: the file reads as if they were absent. */
  lemma ParseCfgPreamble(pre: seq<string>, rest: seq<string>, versionOf: string -> int)
    requires StartMarker(Config) !in Texts(pre)
    ensures ParseCfg(pre + rest, versionOf) == ParseCfg(rest, versionOf)
  {
    var a, b := Texts(pre), Texts(rest);
    TextsAppend(pre, rest);
    CfgRunAfterPreamble(a, b, |b|, versionOf);
    assert (a + b)[..|a| + |b|] == a + b;
    assert b[..|b|] == b;
  }

  /**
   * processCFG returns NULL once it reads, after the start marker and
   * before the loop has ended, a key line whose value is out of bounds or
   * unknown: no later line can undo the abort.
   */
  lemma ParseCfgRejects(lines: seq<string>, versionOf: string -> int, k: nat, j: nat)
    requires k < |lines| && j < 9
    requires CfgRun(Texts(lines)[..k], versionOf).phase == Scanning && CfgRun(Texts(lines)[..k], versionOf).hit
    requires Texts(lines)[k] != StartMarker(Config) && Texts(lines)[k] != EndMarker(Config)
    requires ConfigName(Texts(lines)[k]) == KeyName(j)
    requires Rejected(j, ReadValue(ConfigValue(Texts(lines)[k]), versionOf))
    ensures ParseCfg(lines, versionOf) == None
  {
    var texts := Texts(lines);
    var t := texts[k];
    var s := CfgRun(texts[..k], versionOf);
    CfgRunNext(texts, k, versionOf);
    ConfigLineAborts(j, ConfigValue(t), s.data, s.read, versionOf);
    assert CfgRun(texts[..k + 1], versionOf).phase == Failed;
    CfgRunSettled(texts, k + 1, versionOf);
  }

  /** processCFG: the line loop, then the check that every key was read. */
  method ProcessCfg(lines: seq<string>, versionOf: string -> int) returns (result: Option<CfgData>)
    ensures result == ParseCfg(lines, versionOf)
  {
    var data := UNSET;
    var dataRead := new bool[9](_ => false);
    var hitStartFlag := false;
    ghost var texts := Texts(lines);
    assert dataRead[..] == NONE_READ;

    // getline failing before the end marker fails the parse
    for k := 0 to |lines|
      invariant dataRead.Length == 9
      invariant CfgRun(texts[..k], versionOf) == CfgState(hitStartFlag, data, dataRead[..], Scanning)
    {
      var phase;
      hitStartFlag, data, phase := CfgPass(lines, texts, k, hitStartFlag, data, dataRead, versionOf);
      if phase != Scanning {
        CfgRunSettled(texts, k + 1, versionOf);
        if phase == Failed {
          return None;
        }
        // the end marker: every key must have been read
        var complete := AllKeysRead(dataRead);
        return if complete then Some(data) else None;
      }
    }
    assert texts[..|lines|] == texts;
    return None;
  }

  /** One pass of processCFG's line loop: line `k` is read, stripped and acted on. */
  method CfgPass(lines: seq<string>, ghost texts: seq<string>, k: nat, hitStartFlag: bool, data: CfgData,
                 dataRead: array<bool>, versionOf: string -> int)
    returns (hit': bool, data': CfgData, phase: Phase)
    requires texts == Texts(lines) && k < |lines| && dataRead.Length == 9
    requires CfgRun(texts[..k], versionOf) == CfgState(hitStartFlag, data, dataRead[..], Scanning)
    modifies dataRead
    ensures CfgRun(texts[..k + 1], versionOf) == CfgState(hit', data', dataRead[..], phase)
  {
    var buffer := ReadLine(lines[k]);
    assert buffer == texts[k];
    CfgRunNext(texts, k, versionOf);
    hit', data', phase := hitStartFlag, data, Scanning;
    if buffer == StartMarker(Config) {
      hit' := true;
    } else if hitStartFlag {
      if buffer == EndMarker(Config) {
        phase := Stopped;
      } else {
        var abort;
        data', abort := ParseConfigLine(ConfigName(buffer), ConfigValue(buffer), data, dataRead, versionOf);
        if abort {
          phase := Failed;
        }
      }
    }
  }

  /** processCFG's final loop: every `dataRead` flag must be set. */
  method AllKeysRead(dataRead: array<bool>) returns (complete: bool)
    ensures complete == AllRead(dataRead[..])
  {
    for readIndex := 0 to dataRead.Length
      invariant forall j :: 0 <= j < readIndex ==> dataRead[j]
    {
      if !dataRead[readIndex] {
        return false;
      }
    }
    return true;
  }

  /** The keyword tests of processCFG's loop body: one `if` per key, in the order of the slots. */
  method ParseConfigLine(configName: string, configValue: string, data: CfgData, dataRead: array<bool>,
                         versionOf: string -> int)
    returns (data': CfgData, abort: bool)
    requires dataRead.Length == 9
    modifies dataRead
    ensures LineEffect(data', dataRead[..], abort)
            == ConfigLine(configName, configValue, data, old(dataRead[..]), versionOf)
  {
    data', abort := data, false;
    data', abort := TestKey(0, configName, configValue, data', abort, dataRead, versionOf);
    data', abort := TestKey(1, configName, configValue, data', abort, dataRead, versionOf);
    data', abort := TestKey(2, configName, configValue, data', abort, dataRead, versionOf);
    data', abort := TestKey(3, configName, configValue, data', abort, dataRead, versionOf);
    data', abort := TestKey(4, configName, configValue, data', abort, dataRead, versionOf);
    data', abort := TestKey(5, configName, configValue, data', abort, dataRead, versionOf);
    data', abort := TestKey(6, configName, configValue, data', abort, dataRead, versionOf);
    data', abort := TestKey(7, configName, configValue, data', abort, dataRead, versionOf);
    data', abort := TestKey(8, configName, configValue, data', abort, dataRead, versionOf);
  }

  /** The test for the key of slot `i`: on a match, read the value into its field and set its flag. */
  method TestKey(i: nat, configName: string, configValue: string, data: CfgData, abort: bool,
             dataRead: array<bool>, versionOf: string -> int)
    returns (data': CfgData, abort': bool)
    requires i < 9 && dataRead.Length == 9
    modifies dataRead
    ensures LineEffect(data', dataRead[..], abort')
        == KeyTest(i, configName, ReadValue(configValue, versionOf), LineEffect(data, old(dataRead[..]), abort))
  {
    data', abort' := data, abort;
    if configName != KeyName(i) {
      return;
    }
    if i == 0 {
      data' := data'.(version := versionOf(configValue));
      if data'.version < 0 || data'.version > 10 {
        abort' := true;
      }
      dataRead[0] := true;
    } else if i == 1 {
      data' := data'.(metaFilePath := Strip(configValue));
      dataRead[1] := true;
    } else if i == 2 {
      var code := LookUpScheduling(configValue);
      if code.Some? {
        data' := data'.(cpuSchedulingCode := code.value);
        dataRead[2] := true;
      } else {
        abort' := true;
      }
    } else if i == 3 {
      data' := data'.(quantumTimeCycles := ToInt(configValue));
      if data'.quantumTimeCycles >= 100 || data'.quantumTimeCycles <= 0 {
        abort' := true;
      }
      dataRead[3] := true;
    } else if i == 4 {
      data' := data'.(memAvailable := ToInt(configValue));
      if data'.memAvailable < 1 || data'.memAvailable > 1048576 {
        abort' := true;
      }
      dataRead[4] := true;
    } else if i == 5 {
      data' := data'.(procCycleTime := ToInt(configValue));
      if data'.procCycleTime < 1 || data'.procCycleTime > 10000 {
        abort' := true;
      }
      dataRead[5] := true;
    } else if i == 6 {
      data' := data'.(ioCycleTime := ToInt(configValue));
      if data'.ioCycleTime < 1 || data'.ioCycleTime > 10000 {
        abort' := true;
      }
      dataRead[6] := true;
    } else if i == 7 {
      var code := LookUpLog(configValue);
      if code.Some? {
        data' := data'.(logTo := code.value);
        dataRead[7] := true;
      } else {
        abort' := true;
      }
    } else {
      data' := data'.(logPath := Strip(configValue));
      dataRead[8] := true;
    }
  }

  /** processCFG's else-if chain over the scheduling names. */
  method LookUpScheduling(configValue: string) returns (code: Option<int>)
    ensures code == SchedulingCode(configValue)
  {
    if configValue == " NONE" {
      code := Some(SCHED_NONE);
    } else if configValue == " FCFS-N" {
      code := Some(SCHED_FCFS_N);
    } else if configValue == " SJF-N" {
      code := Some(SCHED_SJF_N);
    } else if configValue == " SRTF-N" {
      code := Some(SCHED_SRTF_P);
    } else if configValue == " FCFS-P" {
      code := Some(SCHED_FCFS_P);
    } else if configValue == " RR-P" {
      code := Some(SCHED_RR_P);
    } else {
      code := None;
    }
  }

  /** processCFG's else-if chain over the log destinations. */
  method LookUpLog(configValue: string) returns (code: Option<int>)
    ensures code == LogCode(configValue)
  {
    if configValue == " Monitor" {
      code := Some(LOG_MONITOR);
    } else if configValue == " File" {
      code := Some(LOG_FILE);
    } else if configValue == " Both" {
      code := Some(LOG_BOTH);
    } else {
      code := None;
    }
  }

  // ---------------------------------------------------------------------
  // processMetaData

  /** The component letters an entry may name, in the order of their table. */
  function LegalLetter(i: nat): char
    requires i < 6
  {
    if i == 0 then 'S' else if i == 1 then 'P' else if i == 2 then 'A'
    else if i == 3 then 'M' else if i == 4 then 'I' else 'O'
  }

  /** The operation strings an entry may name, in the order of their table. */
  function LegalOp(i: nat): string
    requires i < 9
  {
    if i == 0 then "access" else if i == 1 then "allocate" else if i == 2 then "end"
    else if i == 3 then "hard drive" else if i == 4 then "keyboard" else if i == 5 then "printer"
    else if i == 6 then "monitor" else if i == 7 then "run" else "start"
  }

  /** An entry the parser keeps: its letter and its operation string are both in their tables. */
  predicate Legal(op: Op)
  {
    && (exists i :: 0 <= i < 6 && LegalLetter(i) == op.letter)
    && (exists i :: 0 <= i < 9 && LegalOp(i) == op.name)
  }

  /** The characters C's isspace accepts. */
  predicate IsSpace(c: char)
  {
    c == ' ' || c == '\t' || c == '\n' || c == '\r' || c as int == 11 || c as int == 12
  }

  predicate IsDigit(c: char)
  {
    '0' <= c <= '9'
  }

  /** `s` without its leading whitespace. */
  function SkipSpace(s: string): (r: string)
    ensures |r| <= |s| && r == s[|s| - |r|..]
    ensures r == [] || !IsSpace(r[0])
  {
    if s != [] && IsSpace(s[0]) then SkipSpace(s[1..]) else s
  }

  /** The longest run of digits `s` starts with. */
  function DigitRun(s: string): (d: string)
    ensures |d| <= |s| && d == s[..|d|]
    ensures forall i :: 0 <= i < |d| ==> IsDigit(d[i])
    ensures |d| < |s| ==> !IsDigit(s[|d|])
  {
    if s != [] && IsDigit(s[0]) then
      var rest := DigitRun(s[1..]);
      assert s[..1 + |rest|] == [s[0]] + s[1..][..|rest|];
      [s[0]] + rest
    else []
  }

  /**
   * What a `%d` conversion reads at the start of `s`: whitespace skipped,
   * one optional sign, then at least one digit; None when no digit follows.
   */
  function ScanInt(s: string): Option<int>
  {
    var u := SkipSpace(s);
    var body := if u != [] && (u[0] == '-' || u[0] == '+') then u[1..] else u;
    var digits := DigitRun(body);
    if digits == [] then None
    else if u[0] == '-' then Some(-DecimalValue(digits))
    else Some(DecimalValue(digits))
  }

  /**
   * sscanf(entry, "%c(%[^)])%d", ...) when it fills all three slots: any
   * first character, a '(', a non-empty run up to the first ')', the ')',
   * then an integer.  None whenever fewer than three slots are filled.
   */
  function ScanEntry(entry: string): (r: Option<Op>)
    ensures r.Some? ==> r.value.name != [] && ')' !in r.value.name
  {
    if |entry| < 2 || entry[1] != '(' then None
    else
      var rest := entry[2..];
      var j := IndexOf(rest, ')');
      if j == 0 || j == |rest| then None
      else match ScanInt(rest[j + 1..])
        case None => None
        case Some(n) => Some(Op(entry[0], rest[..j], n))
  }

  /** One entry of a line: scanned, then checked against both allow-lists. */
  function ParseEntry(entry: string): (r: Option<Op>)
  {
    match ScanEntry(entry)
    case None => None
    case Some(op) => if Legal(op) then Some(op) else None
  }

  /** The entry text with one leading space removed. */
  function DropSpace(s: string): string
  {
    if s != [] && s[0] == ' ' then s[1..] else s
  }

  /**
   * The do-while loop over one line's entries: `left` is the current entry,
   * `right` the rest of the line.  An invalid entry fails the whole parse;
   * a valid one is appended and the loop goes on with the rest.
   */
  function LineEntries(left: string, right: string, acc: seq<Op>): Option<seq<Op>>
    decreases |right|, 1
  {
    match ParseEntry(DropSpace(left))
    case None => None
    case Some(op) => NextEntries(right, acc + [op])
  }

  /** The loop's condition: it goes on while the rest splits at ';', or else at '.'. */
  function NextEntries(right: string, acc: seq<Op>): Option<seq<Op>>
    decreases |right|, 0
  {
    if ';' in right then LineEntries(Before(right, ';'), After(right, ';'), acc)
    else if '.' in right then LineEntries(Before(right, '.'), After(right, '.'), acc)
    else Some(acc)
  }

  /** Where processMetaData's line loop stands after the lines read so far. */
  datatype MetaState = MetaState(hit: bool, ops: seq<Op>, phase: Phase)

  const META_INIT: MetaState := MetaState(false, [], Scanning)

  /**
   * One pass of processMetaData's line loop over the line text `t`: lines up
   * to the start marker are skipped; the end marker or a line without ';'
   * stops the loop; an invalid entry fails it; otherwise the line's entries
   * are appended.
   */
  function MetaStep(s: MetaState, t: string): MetaState
  {
    if s.phase != Scanning then s
    else if t == StartMarker(Meta) then s.(hit := true)
    else if !s.hit then s
    else if t == EndMarker(Meta) || ';' !in t then s.(phase := Stopped)
    else
      match LineEntries(Before(t, ';'), After(t, ';'), s.ops)
      case None => s.(phase := Failed)
      case Some(ops) => s.(ops := ops)
  }

  /** The line loop run over `texts`, in order. */
  function MetaRun(texts: seq<string>): MetaState
    decreases |texts|, 2
  {
    if texts == [] then META_INIT else MetaLast(texts)
  }

  /** The loop over a nonempty `texts`: ends with the pass over the last line. */
  function MetaLast(texts: seq<string>): MetaState
    requires texts != []
    decreases |texts|, 1
  {
    MetaAfterLine(texts, |texts| - 1)
  }

  /** The state after the pass over line `k`, which follows the loop over the lines before it. */
  function MetaAfterLine(texts: seq<string>, k: nat): MetaState
    requires k < |texts|
    decreases |texts|, 0
  {
    MetaStep(MetaRun(texts[..k]), texts[k])
  }

  /** The loop over the first `k + 1` lines is the loop over `k` lines and one more pass. */
  lemma MetaRunNext(texts: seq<string>, k: nat)
    requires k < |texts|
    ensures MetaRun(texts[..k + 1]) == MetaStep(MetaRun(texts[..k]), texts[k])
  {
    assert MetaRun(texts[..k + 1]) == MetaAfterLine(texts[..k + 1], k);
    assert texts[..k + 1][..k] == texts[..k];
  }

  /** Once the loop has stopped or failed, later lines change nothing. */
  lemma {:induction false} MetaRunSettled(texts: seq<string>, n: nat)
    requires n <= |texts| && MetaRun(texts[..n]).phase != Scanning
    ensures MetaRun(texts) == MetaRun(texts[..n])
    decreases |texts| - n
  {
    if n < |texts| {
      var m := |texts| - 1;
      assert texts[..m][..n] == texts[..n];
      MetaRunSettled(texts[..m], n);
      MetaRunNext(texts, m);
      assert texts[..m + 1] == texts;
    } else {
      assert texts[..n] == texts;
    }
  }

  /** processMetaData on the lines of a meta-data file: the catalog, or None on an invalid entry. */
  function ParseMeta(lines: seq<string>): Option<seq<Op>>
  {
    var s := MetaRun(Texts(lines));
    if s.phase == Failed then None else Some(s.ops)
  }

  predicate AllLegal(ops: seq<Op>)
  {
    forall i :: 0 <= i < |ops| ==> Legal(ops[i])
  }

  /** A line's entries, when all are valid, are appended after those already read: at least one, each legal. */
  lemma {:induction false} LineEntriesAppend(left: string, right: string, acc: seq<Op>)
    ensures LineEntries(left, right, acc).Some? ==>
              && |acc| < |LineEntries(left, right, acc).value|
              && LineEntries(left, right, acc).value[..|acc|] == acc
              && AllLegal(LineEntries(left, right, acc).value[|acc|..])
    decreases |right|
  {
    match ParseEntry(DropSpace(left))
    case None =>
    case Some(op) =>
      assert Legal(op);
      var acc' := acc + [op];
      assert LineEntries(left, right, acc) == NextEntries(right, acc');
      if ';' in right {
        var r := LineEntries(Before(right, ';'), After(right, ';'), acc');
        assert LineEntries(left, right, acc) == r;
        LineEntriesAppend(Before(right, ';'), After(right, ';'), acc');
        if r.Some? {
          AppendedAfter(acc, op, r.value);
        }
      } else if '.' in right {
        var r := LineEntries(Before(right, '.'), After(right, '.'), acc');
        assert LineEntries(left, right, acc) == r;
        LineEntriesAppend(Before(right, '.'), After(right, '.'), acc');
        if r.Some? {
          AppendedAfter(acc, op, r.value);
        }
      } else {
        assert LineEntries(left, right, acc) == Some(acc');
        AppendedAfter(acc, op, acc');
      }
  }

  /** A catalog that begins `acc + [op]` with legal entries after that begins `acc` with legal entries after it. */
  lemma AppendedAfter(acc: seq<Op>, op: Op, ops: seq<Op>)
    requires Legal(op) && |acc| < |ops| && ops[..|acc| + 1] == acc + [op] && AllLegal(ops[|acc| + 1..])
    ensures ops[..|acc|] == acc && AllLegal(ops[|acc|..])
  {
    assert ops[..|acc| + 1][..|acc|] == ops[..|acc|];
    forall i | 0 <= i < |ops[|acc|..]|
      ensures Legal(ops[|acc|..][i])
    {
      if i > 0 {
        assert ops[|acc|..][i] == ops[|acc| + 1..][i - 1];
      } else {
        assert ops[|acc|..][i] == ops[..|acc| + 1][|acc|] == op;
      }
    }
  }

  /** One pass of the line loop only appends to the catalog, and only legal entries. */
  lemma MetaStepAppends(s: MetaState, t: string)
    ensures s.ops <= MetaStep(s, t).ops
    ensures AllLegal(s.ops) ==> AllLegal(MetaStep(s, t).ops)
  {
    if s.phase != Scanning || t == StartMarker(Meta) || !s.hit || t == EndMarker(Meta) || ';' !in t {
      assert MetaStep(s, t).ops == s.ops;
    } else {
      var r := LineEntries(Before(t, ';'), After(t, ';'), s.ops);
      LineEntriesAppend(Before(t, ';'), After(t, ';'), s.ops);
      if r.Some? {
        LegalJoin(s.ops, r.value);
      }
    }
  }

  /** A catalog that begins with `prefix` is legal when `prefix` and the rest are. */
  lemma LegalJoin(prefix: seq<Op>, ops: seq<Op>)
    requires |prefix| <= |ops| && ops[..|prefix|] == prefix
    ensures prefix <= ops
    ensures AllLegal(prefix) && AllLegal(ops[|prefix|..]) ==> AllLegal(ops)
  {
    if AllLegal(prefix) && AllLegal(ops[|prefix|..]) {
      forall i | 0 <= i < |ops|
        ensures Legal(ops[i])
      {
        if i >= |prefix| {
          assert ops[i] == ops[|prefix|..][i - |prefix|];
        } else {
          assert ops[i] == ops[..|prefix|][i];
        }
      }
    }
  }

  /** Every entry in the catalog is legal. */
  lemma {:induction false} MetaRunLegal(texts: seq<string>)
    ensures AllLegal(MetaRun(texts).ops)
  {
    if texts != [] {
      var k := |texts| - 1;
      MetaRunLegal(texts[..k]);
      MetaRunNext(texts, k);
      assert texts[..k + 1] == texts;
      MetaStepAppends(MetaRun(texts[..k]), texts[k]);
    }
  }

  /** Entries are only ever appended, in the order of the lines: the catalog after `k` lines begins the final one. */
  lemma {:induction false} MetaRunGrows(texts: seq<string>, k: nat)
    requires k <= |texts|
    ensures MetaRun(texts[..k]).ops <= MetaRun(texts).ops
    decreases |texts| - k
  {
    if k < |texts| {
      MetaRunNext(texts, k);
      MetaStepAppends(MetaRun(texts[..k]), texts[k]);
      assert texts[..k + 1][..k + 1] == texts[..k + 1];
      MetaRunGrows(texts, k + 1);
    } else {
      assert texts[..k] == texts;
    }
  }

  /** processMetaData accepts only legal entries. */
  lemma ParseMetaLegal(lines: seq<string>)
    ensures ParseMeta(lines).Some? ==> AllLegal(ParseMeta(lines).value)
  {
    MetaRunLegal(Texts(lines));
  }

  /** Before the start marker the loop changes nothing. */
  lemma {:induction false} MetaRunQuiet(pre: seq<string>)
    requires StartMarker(Meta) !in pre
    ensures MetaRun(pre) == META_INIT
  {
    if pre != [] {
      var k := |pre| - 1;
      assert pre[..k + 1] == pre;
      MetaRunQuiet(pre[..k]);
      MetaRunNext(pre, k);
    }
  }

  /** After a preamble without the start marker, the loop stands where it would without the preamble. */
  lemma {:induction false} MetaRunAfterPreamble(pre: seq<string>, rest: seq<string>, k: nat)
    requires StartMarker(Meta) !in pre && k <= |rest|
    ensures MetaRun((pre + rest)[..|pre| + k]) == MetaRun(rest[..k])
  {
    if k == 0 {
      assert (pre + rest)[..|pre|] == pre;
      MetaRunQuiet(pre);
    } else {
      MetaRunAfterPreamble(pre, rest, k - 1);
      MetaRunNext(pre + rest, |pre| + k - 1);
      MetaRunNext(rest, k - 1);
      assert (pre + rest)[|pre| + k - 1] == rest[k - 1];
    }
  }

  /** processMetaData skips the lines before the start marker: the file reads as if they were absent. */
  lemma ParseMetaPreamble(pre: seq<string>, rest: seq<string>)
    requires StartMarker(Meta) !in Texts(pre)
    ensures ParseMeta(pre + rest) == ParseMeta(rest)
  {
    var a, b := Texts(pre), Texts(rest);
    TextsAppend(pre, rest);
    MetaRunAfterPreamble(a, b, |b|);
    assert (a + b)[..|a| + |b|] == a + b;
    assert b[..|b|] == b;
  }

  /** processMetaData: the line loop, appending each line's entries to the catalog. */
  method ProcessMetaData(lines: seq<string>) returns (result: Option<seq<Op>>)
    ensures result == ParseMeta(lines)
  {
    var metaData: seq<Op> := [];
    var hitStartFlag := false;
    ghost var texts := Texts(lines);

    // getline failing ends the parse
    for k := 0 to |lines|
      invariant MetaRun(texts[..k]) == MetaState(hitStartFlag, metaData, Scanning)
    {
      var phase;
      hitStartFlag, metaData, phase := MetaPass(lines, texts, k, hitStartFlag, metaData);
      if phase != Scanning {
        MetaRunSettled(texts, k + 1);
        return if phase == Failed then None else Some(metaData);
      }
    }
    assert texts[..|lines|] == texts;
    return Some(metaData);
  }

  /** One pass of processMetaData's line loop: line `k` is read, stripped and acted on. */
  method MetaPass(lines: seq<string>, ghost texts: seq<string>, k: nat, hitStartFlag: bool, metaData: seq<Op>)
    returns (hit': bool, ops: seq<Op>, phase: Phase)
    requires texts == Texts(lines) && k < |lines|
    requires MetaRun(texts[..k]) == MetaState(hitStartFlag, metaData, Scanning)
    ensures MetaRun(texts[..k + 1]) == MetaState(hit', ops, phase)
  {
    var buffer := ReadLine(lines[k]);
    assert buffer == texts[k];
    MetaRunNext(texts, k);
    hit', ops, phase := hitStartFlag, metaData, Scanning;
    if buffer == StartMarker(Meta) {
      hit' := true;
    } else if hitStartFlag {
      if buffer == EndMarker(Meta) || ';' !in buffer {
        phase := Stopped;
      } else {
        var entries := ProcessLineEntries(Before(buffer, ';'), After(buffer, ';'), metaData);
        if entries.None? {
          phase := Failed;
        } else {
          ops := entries.value;
        }
      }
    }
  }

  /** The do-while loop of processMetaData over one line's entries. */
  method ProcessLineEntries(first: string, rest: string, metaData: seq<Op>) returns (result: Option<seq<Op>>)
    ensures result == LineEntries(first, rest, metaData)
  {
    var left, right, ops := first, rest, metaData;
    while true
      invariant LineEntries(left, right, ops) == LineEntries(first, rest, metaData)
      decreases |right|
    {
      var entry := CheckEntry(left);
      if entry.None? {
        return None;
      }
      ops := ops + [entry.value];
      if ';' in right {
        left, right := Before(right, ';'), After(right, ';');
      } else if '.' in right {
        left, right := Before(right, '.'), After(right, '.');
      } else {
        return Some(ops);
      }
    }
  }

  /**
   * The loop body's check of one entry: the leading space shifted out, the
   * sscanf, then both table scans; None when any of them fails.
   */
  method CheckEntry(left: string) returns (entry: Option<Op>)
    ensures entry == ParseEntry(DropSpace(left))
  {
    var text := left;
    if text != [] && text[0] == ' ' {
      text := text[1..];
    }
    var scanned := ScanEntry(text);
    var errorOccured := scanned.None?;
    var letterFound, opFound := false, false;
    if scanned.Some? {
      letterFound := IsLegalLetter(scanned.value.letter);
      opFound := IsLegalOp(scanned.value.name);
    }
    if errorOccured || !letterFound || !opFound {
      return None;
    }
    return scanned;
  }

  /** The component-letter check: a scan of the six legal letters. */
  method IsLegalLetter(c: char) returns (found: bool)
    ensures found <==> exists i :: 0 <= i < 6 && LegalLetter(i) == c
  {
    found := false;
    for index := 0 to 6
      invariant found <==> exists i :: 0 <= i < index && LegalLetter(i) == c
    {
      if c == LegalLetter(index) {
        found := true;
      }
    }
  }

  /** The operation-string check: a scan of the nine legal operation strings. */
  method IsLegalOp(s: string) returns (found: bool)
    ensures found <==> exists i :: 0 <= i < 9 && LegalOp(i) == s
  {
    found := false;
    for index := 0 to 9
      invariant found <==> exists i :: 0 <= i < index && LegalOp(i) == s
    {
      if s == LegalOp(index) {
        found := true;
      }
    }
  }
}
