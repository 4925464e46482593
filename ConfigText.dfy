/**
 * What processCFG accepts: a configuration file whose nine key lines, one
 * per key in processCFG's order, sit between the start and the end marker
 * and hold values within their bounds is read as the record of those
 * values.
 *
 * A key line is `Key: value`; the value text keeps its leading space
 * (" SJF-N"), as splitString leaves it.
 */
module ConfigText {
  import opened SimTypes
  import opened StringUtilities
  import opened InputDataProcessor

  /**
   * The scheduling table: each known value, with its leading space, maps
   * to its code; " SRTF-N" gets SRTF-P's code, while " SRTF-P" itself and
   * a value without the leading space are unknown.
   */
  lemma SchedulingTable()
    ensures SchedulingCode(" NONE") == Some(SCHED_NONE) && SchedulingCode(" FCFS-N") == Some(SCHED_FCFS_N)
    ensures SchedulingCode(" SJF-N") == Some(SCHED_SJF_N) && SchedulingCode(" SRTF-N") == Some(SCHED_SRTF_P)
    ensures SchedulingCode(" FCFS-P") == Some(SCHED_FCFS_P) && SchedulingCode(" RR-P") == Some(SCHED_RR_P)
    ensures SchedulingCode(" SRTF-P") == None && SchedulingCode("SJF-N") == None
  {
  }

  /** The log table: " Monitor", " File" and " Both"; anything else is unknown. */
  lemma LogTable()
    ensures LogCode(" Monitor") == Some(LOG_MONITOR) && LogCode(" File") == Some(LOG_FILE)
    ensures LogCode(" Both") == Some(LOG_BOTH)
    ensures LogCode(" Screen") == None && LogCode("Both") == None
  {
  }

  /** The first letter of the key of slot `j`. */
  function KeyHead(j: nat): char
  {
    if j == 0 then 'V' else if j == 1 then 'F' else if j == 2 then 'C' else if j == 3 then 'Q'
    else if j == 4 then 'M' else if j == 5 then 'P' else if j == 6 then 'I' else 'L'
  }

  lemma KeyNameHead(j: nat)
    requires j < 9
    ensures KeyName(j) != [] && KeyName(j)[0] == KeyHead(j)
  {
  }

  /** The two keys that start with 'L' differ in length. */
  lemma LogKeyLengths()
    ensures |KeyName(7)| == 6 && |KeyName(8)| == 13
  {
  }

  /** The nine keys are different names, so a line names at most one of them. */
  lemma KeyNamesDistinct(i: nat, j: nat)
    requires i < 9 && j < 9 && i != j
    ensures KeyName(i) != KeyName(j)
  {
    KeyNameHead(i);
    KeyNameHead(j);
    if i + j == 15 {
      LogKeyLengths();
    }
  }

  /** The test for slot `i` on a line naming the key of slot `j`: that slot's effect when `i == j`, nothing otherwise. */
  lemma KeyTestNamed(i: nat, j: nat, r: Reading, e: LineEffect)
    requires i < 9 && j < 9 && |e.read| == 9
    ensures KeyTest(i, KeyName(j), r, e)
            == if i == j then LineEffect(SlotEffect(j, r, e.data, e.read).data, SlotEffect(j, r, e.data, e.read).read,
                                         e.abort || SlotEffect(j, r, e.data, e.read).abort)
               else e
  {
    if i != j {
      KeyNamesDistinct(i, j);
    }
  }

  /** A line naming the key of slot `j` has exactly that key's effect: the other eight tests do not match. */
  lemma ConfigLineNamed(j: nat, value: string, data: CfgData, read: seq<bool>, versionOf: string -> int)
    requires j < 9 && |read| == 9
    ensures ConfigLine(KeyName(j), value, data, read, versionOf) == SlotEffect(j, ReadValue(value, versionOf), data, read)
  {
    var name, r := KeyName(j), ReadValue(value, versionOf);
    var e0 := KeyTest(0, name, r, LineEffect(data, read, false));
    var e1 := KeyTest(1, name, r, e0);
    var e2 := KeyTest(2, name, r, e1);
    var e3 := KeyTest(3, name, r, e2);
    var e4 := KeyTest(4, name, r, e3);
    var e5 := KeyTest(5, name, r, e4);
    var e6 := KeyTest(6, name, r, e5);
    var e7 := KeyTest(7, name, r, e6);
    KeyTestNamed(0, j, r, LineEffect(data, read, false));
    KeyTestNamed(1, j, r, e0);
    KeyTestNamed(2, j, r, e1);
    KeyTestNamed(3, j, r, e2);
    KeyTestNamed(4, j, r, e3);
    KeyTestNamed(5, j, r, e4);
    KeyTestNamed(6, j, r, e5);
    KeyTestNamed(7, j, r, e6);
    KeyTestNamed(8, j, r, e7);
  }

  /** A configuration file: the start marker, the key lines, the end marker. */
  function ConfigFile(body: seq<string>): (texts: seq<string>)
    ensures |texts| == |body| + 2
  {
    [StartMarker(Config)] + body + [EndMarker(Config)]
  }

  /** Line `j` names the key of slot `j`, in processCFG's order, and no line is a marker. */
  predicate NamesKeys(body: seq<string>)
  {
    && |body| == 9
    && forall j :: 0 <= j < 9 ==> body[j] != StartMarker(Config) && body[j] != EndMarker(Config) && ConfigName(body[j]) == KeyName(j)
  }

  /** How processCFG reads the value of line `j`. */
  function Value(body: seq<string>, j: nat, versionOf: string -> int): Reading
    requires j < |body|
  {
    ReadValue(ConfigValue(body[j]), versionOf)
  }

  /** Every line's value is within the bounds of the key of its slot. */
  predicate Accepted(body: seq<string>, versionOf: string -> int)
  {
    forall j :: 0 <= j < |body| ==> !Rejected(j, Value(body, j, versionOf))
  }

  /**
   * The record the value texts stand for, each read as processCFG reads
   * it: the version through stringToDouble, the paths stripped, the codes
   * from the scheduling and log tables, the numbers through stringToInt.
   */
  function Decoded(body: seq<string>, versionOf: string -> int): CfgData
    requires |body| == 9 && Accepted(body, versionOf)
  {
    assert !Rejected(2, Value(body, 2, versionOf)) && !Rejected(7, Value(body, 7, versionOf));
    CfgData(versionOf(ConfigValue(body[0])), Strip(ConfigValue(body[1])), SchedulingCode(ConfigValue(body[2])).value,
            ToInt(ConfigValue(body[3])), ToInt(ConfigValue(body[4])), ToInt(ConfigValue(body[5])),
            ToInt(ConfigValue(body[6])), LogCode(ConfigValue(body[7])).value, Strip(ConfigValue(body[8])))
  }

  /** The record after the first `k` key lines: their fields set, the others as before any key. */
  function Partial(body: seq<string>, k: nat, versionOf: string -> int): CfgData
    requires |body| == 9 && Accepted(body, versionOf) && k <= 9
  {
    assert !Rejected(2, Value(body, 2, versionOf)) && !Rejected(7, Value(body, 7, versionOf));
    CfgData(if 0 < k then Value(body, 0, versionOf).version else UNSET.version,
            if 1 < k then Value(body, 1, versionOf).path else UNSET.metaFilePath,
            if 2 < k then Value(body, 2, versionOf).scheduling.value else UNSET.cpuSchedulingCode,
            if 3 < k then Value(body, 3, versionOf).number else UNSET.quantumTimeCycles,
            if 4 < k then Value(body, 4, versionOf).number else UNSET.memAvailable,
            if 5 < k then Value(body, 5, versionOf).number else UNSET.procCycleTime,
            if 6 < k then Value(body, 6, versionOf).number else UNSET.ioCycleTime,
            if 7 < k then Value(body, 7, versionOf).log.value else UNSET.logTo,
            if 8 < k then Value(body, 8, versionOf).path else UNSET.logPath)
  }

  /** The `dataRead` flags after the first `k` key lines. */
  function Flags(k: nat): (read: seq<bool>)
    ensures |read| == 9
  {
    seq(9, j => j < k)
  }

  /** Key line `k` sets its own field and flag and does not abort. */
  lemma PartialStep(body: seq<string>, k: nat, versionOf: string -> int)
    requires |body| == 9 && Accepted(body, versionOf) && k < 9
    ensures SlotEffect(k, Value(body, k, versionOf), Partial(body, k, versionOf), Flags(k))
            == LineEffect(Partial(body, k + 1, versionOf), Flags(k + 1), false)
  {
    assert !Rejected(k, Value(body, k, versionOf));
    assert Flags(k)[k := true] == Flags(k + 1);
    if k == 0 {
    } else if k == 1 {
    } else if k == 2 {
    } else if k == 3 {
    } else if k == 4 {
    } else if k == 5 {
    } else if k == 6 {
    } else if k == 7 {
    } else {
    }
  }

  /** One pass of processCFG's loop over key line `k`, after the start marker: that key's field and flag are set and the loop goes on. */
  lemma ConfigStep(body: seq<string>, k: nat, versionOf: string -> int)
    requires NamesKeys(body) && Accepted(body, versionOf) && k < 9
    ensures CfgStep(CfgState(true, Partial(body, k, versionOf), Flags(k), Scanning), body[k], versionOf)
            == CfgState(true, Partial(body, k + 1, versionOf), Flags(k + 1), Scanning)
  {
    ConfigLineNamed(k, ConfigValue(body[k]), Partial(body, k, versionOf), Flags(k), versionOf);
    PartialStep(body, k, versionOf);
  }

  /** Before any key line nothing is read. */
  lemma FlagsNone()
    ensures Flags(0) == NONE_READ
  {
  }

  /** After the start marker and `k` key lines, the loop holds the first `k` keys' values and goes on. */
  lemma {:induction false} ConfigFileRun(body: seq<string>, k: nat, versionOf: string -> int)
    requires NamesKeys(body) && Accepted(body, versionOf) && k <= 9
    ensures CfgRun(ConfigFile(body)[..k + 1], versionOf) == CfgState(true, Partial(body, k, versionOf), Flags(k), Scanning)
  {
    var texts := ConfigFile(body);
    CfgRunNext(texts, k, versionOf);
    if k == 0 {
      assert texts[..0] == [];
      FlagsNone();
    } else {
      ConfigFileRun(body, k - 1, versionOf);
      ConfigFileLine(body, k - 1);
      ConfigStep(body, k - 1, versionOf);
    }
  }

  /** The end marker, read after the start marker, stops processCFG's loop. */
  lemma CfgStepEnd(s: CfgState, versionOf: string -> int)
    requires |s.read| == 9 && s.phase == Scanning && s.hit
    ensures CfgStep(s, EndMarker(Config), versionOf) == s.(phase := Stopped)
  {
    assert EndMarker(Config)[1] != StartMarker(Config)[1];
  }

  /** Line `i + 1` of a configuration file is key line `i`. */
  lemma ConfigFileLine(body: seq<string>, i: nat)
    requires i < |body|
    ensures ConfigFile(body)[i + 1] == body[i]
  {
  }

  /** The last line of a configuration file is the end marker, and its first `|body| + 2` lines are all of it. */
  lemma ConfigFileEnds(body: seq<string>)
    ensures ConfigFile(body)[|body| + 1] == EndMarker(Config)
    ensures ConfigFile(body)[..|body| + 2] == ConfigFile(body)
  {
  }

  /** After all nine key lines every flag is set. */
  lemma FlagsAll()
    ensures AllRead(Flags(9))
  {
  }

  /** After all nine key lines the record is the decoded one. */
  lemma PartialAll(body: seq<string>, versionOf: string -> int)
    requires |body| == 9 && Accepted(body, versionOf)
    ensures Partial(body, 9, versionOf) == Decoded(body, versionOf)
  {
  }

  /**
   * processCFG accepts a configuration file that names the nine keys in
   * order with values within their bounds, and returns the record of those
   * values.
   */
  lemma ParseCfgAccepts(lines: seq<string>, body: seq<string>, versionOf: string -> int)
    requires Texts(lines) == ConfigFile(body) && NamesKeys(body) && Accepted(body, versionOf)
    ensures ParseCfg(lines, versionOf) == Some(Decoded(body, versionOf))
  {
    var texts := ConfigFile(body);
    ConfigFileRun(body, 9, versionOf);
    CfgRunNext(texts, 10, versionOf);
    ConfigFileEnds(body);
    CfgStepEnd(CfgRun(texts[..10], versionOf), versionOf);
    FlagsAll();
    PartialAll(body, versionOf);
  }
}
