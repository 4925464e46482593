/**
 * Building the PCB table and ordering it (ProcessPcb.c:25-89, 443-466).
 *
 * The operation catalog is a `seq<Op>`: catalog index `i` is the `i`-th node
 * after the list's head and `|ops|` is NULL.  A PCB's `metaDataPointer` is
 * the index `cursor`.
 */
module PcbTable {
  import opened SimTypes

  /** A node `A(start)`, the first node of every process. */
  predicate IsStart(op: Op)
  {
    op.letter == 'A' && op.name == "start"
  }

  /** Number of start markers at catalog index `i` and after. */
  function StartsFrom(ops: seq<Op>, i: nat): nat
    decreases |ops| - i
  {
    if i >= |ops| then 0
    else (if IsStart(ops[i]) then 1 else 0) + StartsFrom(ops, i + 1)
  }

  /** Indices of the start markers at `i` and after, in catalog order. */
  function StartPositions(ops: seq<Op>, i: nat): seq<nat>
    decreases |ops| - i
  {
    if i >= |ops| then []
    else (if IsStart(ops[i]) then [i] else []) + StartPositions(ops, i + 1)
  }

  /** `StartPositions` lists every start marker from `i` on, each once, in order. */
  lemma StartPositionsExact(ops: seq<Op>, i: nat)
    ensures var ps := StartPositions(ops, i);
            && |ps| == StartsFrom(ops, i)
            && (forall k :: 0 <= k < |ps| ==> i <= ps[k] < |ops| && IsStart(ops[ps[k]]))
            && (forall p :: i <= p < |ops| && IsStart(ops[p]) ==> p in ps)
            && (forall k, l :: 0 <= k < l < |ps| ==> ps[k] < ps[l])
  {
    StartPositionsCount(ops, i);
    StartPositionsSound(ops, i);
    StartPositionsComplete(ops, i);
  }

  lemma {:induction false} StartPositionsCount(ops: seq<Op>, i: nat)
    ensures |StartPositions(ops, i)| == StartsFrom(ops, i)
    decreases |ops| - i
  {
    if i < |ops| {
      StartPositionsCount(ops, i + 1);
    }
  }

  /** Every index in `ps` is a start marker at or after `i`. */
  predicate MarkersFrom(ps: seq<nat>, ops: seq<Op>, i: nat)
  {
    forall k :: 0 <= k < |ps| ==> i <= ps[k] < |ops| && IsStart(ops[ps[k]])
  }

  /** The indices in `ps` strictly increase. */
  predicate Increasing(ps: seq<nat>)
  {
    forall k, l :: 0 <= k < l < |ps| ==> ps[k] < ps[l]
  }

  lemma {:induction false} StartPositionsSound(ops: seq<Op>, i: nat)
    ensures MarkersFrom(StartPositions(ops, i), ops, i)
    ensures Increasing(StartPositions(ops, i))
    decreases |ops| - i
  {
    if i < |ops| {
      StartPositionsSound(ops, i + 1);
      var rest := StartPositions(ops, i + 1);
      if IsStart(ops[i]) {
        var ps := [i] + rest;
        assert StartPositions(ops, i) == ps;
        forall k | 1 <= k < |ps|
          ensures ps[k] == rest[k - 1] && i < ps[k]
        {
        }
        forall k, l | 0 <= k < l < |ps|
          ensures ps[k] < ps[l]
        {
          if k > 0 {
            assert rest[k - 1] < rest[l - 1];
          }
        }
      } else {
        assert StartPositions(ops, i) == rest;
      }
    }
  }

  lemma {:induction false} StartPositionsComplete(ops: seq<Op>, i: nat)
    ensures forall p :: i <= p < |ops| && IsStart(ops[p]) ==> p in StartPositions(ops, i)
    decreases |ops| - i
  {
    if i < |ops| {
      StartPositionsComplete(ops, i + 1);
    }
  }

  /**
   * getNumStartSymbols: counts the start markers strictly after node
   * `head`; the walk begins at `head->next`.
   */
  method GetNumStartSymbols(ops: seq<Op>, head: nat) returns (count: nat)
    requires head < |ops|
    ensures count == StartsFrom(ops, head + 1)
  {
    var currentNode := head + 1;
    count := 0;
    while currentNode < |ops|
      invariant head + 1 <= currentNode <= |ops|
      invariant count + StartsFrom(ops, currentNode) == StartsFrom(ops, head + 1)
      decreases |ops| - currentNode
    {
      if ops[currentNode].letter == 'A' && ops[currentNode].name == "start" {
        count := count + 1;
      }
      currentNode := currentNode + 1;
    }
  }

  /**
   * The start markers storePcb's walk records from index `i` on: after
   * recording one it steps twice, so the node right after a start marker
   * is never examined.
   */
  function ScanStarts(ops: seq<Op>, i: nat): (ps: seq<nat>)
    ensures forall k :: 0 <= k < |ps| ==> i <= ps[k] < |ops| && IsStart(ops[ps[k]])
    decreases |ops| - i
  {
    if i >= |ops| then []
    else if IsStart(ops[i]) then [i] + ScanStarts(ops, i + 2)
    else ScanStarts(ops, i + 1)
  }

  /** No start marker sits right after another from index `i` on. */
  predicate StartsApart(ops: seq<Op>, i: nat)
  {
    forall p :: i <= p && p + 1 < |ops| && IsStart(ops[p]) ==> !IsStart(ops[p + 1])
  }

  /** When start markers are never adjacent, the double step misses none of them. */
  lemma {:induction false} ScanFindsAllStarts(ops: seq<Op>, i: nat)
    requires StartsApart(ops, i)
    ensures ScanStarts(ops, i) == StartPositions(ops, i)
    decreases |ops| - i
  {
    if i < |ops| {
      if IsStart(ops[i]) {
        ScanFindsAllStarts(ops, i + 2);
        if i + 1 < |ops| {
          assert !IsStart(ops[i + 1]);
          assert StartPositions(ops, i + 1) == StartPositions(ops, i + 2);
        }
      } else {
        ScanFindsAllStarts(ops, i + 1);
      }
    }
  }

  /** The table entry storePcb writes for the `k`-th marker it records, at `pos`. */
  function TableEntry(ops: seq<Op>, pos: nat, k: nat): (p: Pcb)
    requires pos < |ops|
    ensures p.cursor == pos && p.processCounter == k && p.processState == New
    ensures p.processCycle == ops[pos].cycles
  {
    Pcb(pos, k, ops[pos].cycles, New)
  }

  /** The first `m` entries storePcb writes, in catalog order. */
  function Table(ops: seq<Op>, m: nat): (t: seq<Pcb>)
    requires m <= |ScanStarts(ops, 0)|
    ensures |t| == m
  {
    seq(m, k requires 0 <= k < m => TableEntry(ops, ScanStarts(ops, 0)[k], k))
  }

  /**
   * storePcb's walk stays on the list: every start marker it records while
   * the table still has room has a successor node.
   */
  predicate ScanSafe(ops: seq<Op>)
  {
    forall k :: 0 <= k < |ScanStarts(ops, 0)| && k < StartsFrom(ops, 1) ==>
      ScanStarts(ops, 0)[k] + 1 < |ops|
  }

  // ---------------------------------------------------------------------
  // Service-time estimate

  /** First index at or after `i` whose letter is not 'A' (`|ops|` if none). */
  function SkipA(ops: seq<Op>, i: nat): (j: nat)
    requires i <= |ops|
    ensures i <= j <= |ops|
    ensures forall k :: i <= k < j ==> ops[k].letter == 'A'
    ensures j < |ops| ==> ops[j].letter != 'A'
    decreases |ops| - i
  {
    if i < |ops| && ops[i].letter == 'A' then SkipA(ops, i + 1) else i
  }

  /** First index at or after `i` whose letter is 'A' (`|ops|` if none). */
  function NextA(ops: seq<Op>, i: nat): (j: nat)
    requires i <= |ops|
    ensures i <= j <= |ops|
    ensures forall k :: i <= k < j ==> ops[k].letter != 'A'
    ensures j < |ops| ==> ops[j].letter == 'A'
    decreases |ops| - i
  {
    if i < |ops| && ops[i].letter != 'A' then NextA(ops, i + 1) else i
  }

  /** What one operation adds to an estimate: I/O and processor cycles at their rates. */
  function Cost(op: Op, cfg: CfgData): int
  {
    if op.letter == 'I' || op.letter == 'O' then op.cycles * cfg.ioCycleTime
    else if op.letter == 'P' then op.cycles * cfg.procCycleTime
    else 0
  }

  /** Sum of `Cost` from `i` up to the next 'A' node or the end of the catalog. */
  function CostUntilA(ops: seq<Op>, cfg: CfgData, i: nat): int
    requires i <= |ops|
    decreases |ops| - i
  {
    if i == |ops| || ops[i].letter == 'A' then 0
    else Cost(ops[i], cfg) + CostUntilA(ops, cfg, i + 1)
  }

  /** The walk of estimatePcbTime from `c` stays on the list while it skips 'A' nodes. */
  predicate EstimateDefined(ops: seq<Op>, c: nat)
  {
    c < |ops| && SkipA(ops, c) < |ops|
  }

  /** estimatePcbTime's value for a cursor at `c`. */
  function Estimate(ops: seq<Op>, cfg: CfgData, c: nat): int
    requires EstimateDefined(ops, c)
  {
    CostUntilA(ops, cfg, SkipA(ops, c))
  }

  /** The time a run of operations asks for, operation by operation. */
  function ServiceTime(s: seq<Op>, cfg: CfgData): int
  {
    if s == [] then 0 else Cost(s[0], cfg) + ServiceTime(s[1..], cfg)
  }

  lemma {:induction false} CostUntilAIsServiceTime(ops: seq<Op>, cfg: CfgData, i: nat)
    requires i <= |ops|
    ensures CostUntilA(ops, cfg, i) == ServiceTime(ops[i..NextA(ops, i)], cfg)
    decreases |ops| - i
  {
    if i < |ops| && ops[i].letter != 'A' {
      CostUntilAIsServiceTime(ops, cfg, i + 1);
      assert ops[i..NextA(ops, i)][1..] == ops[i + 1..NextA(ops, i + 1)];
    }
  }

  /**
   * For a process with at least one operation, the estimate taken at its
   * start marker is the service time of exactly its own operations.
   */
  lemma EstimateOfProcess(ops: seq<Op>, cfg: CfgData, c: nat)
    requires c + 1 < |ops| && ops[c].letter == 'A' && ops[c + 1].letter != 'A'
    ensures EstimateDefined(ops, c)
    ensures Estimate(ops, cfg, c) == ServiceTime(ops[c + 1..NextA(ops, c + 1)], cfg)
  {
    assert SkipA(ops, c + 1) == c + 1;
    CostUntilAIsServiceTime(ops, cfg, c + 1);
  }

  /**
   * A process with no operations is charged the operations of the next
   * process: the skip runs over its end marker and the next start marker.
   */
  lemma EmptyProcessBorrowsNext(ops: seq<Op>, cfg: CfgData, c: nat)
    requires c + 2 < |ops| && ops[c].letter == 'A' && ops[c + 1].letter == 'A'
    requires ops[c + 2].letter == 'A' && c + 3 < |ops| && ops[c + 3].letter != 'A'
    ensures EstimateDefined(ops, c)
    ensures Estimate(ops, cfg, c) == ServiceTime(ops[c + 3..NextA(ops, c + 3)], cfg)
    ensures ops[c + 1..NextA(ops, c + 1)] == []
  {
    assert SkipA(ops, c) == SkipA(ops, c + 3) == c + 3;
    CostUntilAIsServiceTime(ops, cfg, c + 3);
  }

  /** estimatePcbTime: skip the 'A' nodes at the cursor, then add up costs to the next 'A'. */
  method EstimatePcbTime(ops: seq<Op>, metaDataPointer: nat, cfg: CfgData) returns (timeEstimate: int)
    requires EstimateDefined(ops, metaDataPointer)
    ensures timeEstimate == Estimate(ops, cfg, metaDataPointer)
  {
    var p := metaDataPointer;
    while ops[p].letter == 'A'
      invariant metaDataPointer <= p <= SkipA(ops, metaDataPointer)
      invariant SkipA(ops, p) == SkipA(ops, metaDataPointer)
      decreases |ops| - p
    {
      p := p + 1;
    }

    timeEstimate := 0;
    while p < |ops| && ops[p].letter != 'A'
      invariant p <= |ops|
      invariant timeEstimate + CostUntilA(ops, cfg, p) == Estimate(ops, cfg, metaDataPointer)
      decreases |ops| - p
    {
      if ops[p].letter == 'I' || ops[p].letter == 'O' {
        timeEstimate := timeEstimate + ops[p].cycles * cfg.ioCycleTime;
      } else if ops[p].letter == 'P' {
        timeEstimate := timeEstimate + ops[p].cycles * cfg.procCycleTime;
      }
      p := p + 1;
    }
  }

  // ---------------------------------------------------------------------
  // Shortest-job-first ordering

  /** Every entry's cursor admits an estimate. */
  predicate Estimable(s: seq<Pcb>, ops: seq<Op>)
  {
    forall k :: 0 <= k < |s| ==> EstimateDefined(ops, s[k].cursor)
  }

  /** The SJF key of a table entry. */
  function Key(ops: seq<Op>, cfg: CfgData, p: Pcb): int
    requires EstimateDefined(ops, p.cursor)
  {
    Estimate(ops, cfg, p.cursor)
  }

  /** Estimates do not decrease over the first `m` entries. */
  predicate SortedUpTo(s: seq<Pcb>, ops: seq<Op>, cfg: CfgData, m: nat)
    requires Estimable(s, ops) && m <= |s|
  {
    forall k, l :: 0 <= k < l < m ==> Key(ops, cfg, s[k]) <= Key(ops, cfg, s[l])
  }

  /** `s` with entries `i` and `j` exchanged. */
  function Swap(s: seq<Pcb>, i: nat, j: nat): (t: seq<Pcb>)
    requires i < |s| && j < |s|
    ensures |t| == |s| && multiset(t) == multiset(s)
  {
    s[i := s[j]][j := s[i]]
  }

  /**
   * The inner-loop invariant of reorderSJF after `inner` steps of pass
   * `outer`: entry `outer` holds the largest estimate among the first
   * `inner` entries, and the first `outer` entries (`outer + 1` once
   * `inner` has passed `outer`) are in order.
   */
  predicate PassInvariant(s: seq<Pcb>, ops: seq<Op>, cfg: CfgData, outer: nat, inner: nat)
  {
    && outer < |s| && inner <= |s| && Estimable(s, ops)
    && (forall k :: 0 <= k < inner ==> Key(ops, cfg, s[k]) <= Key(ops, cfg, s[outer]))
    && SortedUpTo(s, ops, cfg, if inner <= outer then outer else outer + 1)
  }

  /** The entries after one comparison of pass `outer` at position `inner`. */
  function SjfStepResult(s: seq<Pcb>, ops: seq<Op>, cfg: CfgData, outer: nat, inner: nat): seq<Pcb>
    requires outer < |s| && inner < |s| && Estimable(s, ops)
  {
    if Key(ops, cfg, s[outer]) <= Key(ops, cfg, s[inner]) then Swap(s, outer, inner) else s
  }

  /** Exchanging two estimable entries keeps every entry estimable. */
  lemma SwapEstimable(s: seq<Pcb>, ops: seq<Op>, i: nat, j: nat)
    requires i < |s| && j < |s| && Estimable(s, ops)
    ensures Estimable(Swap(s, i, j), ops)
  {
    var t := Swap(s, i, j);
    forall k | 0 <= k < |t|
      ensures EstimateDefined(ops, t[k].cursor)
    {
      assert t[k] == s[k] || t[k] == s[i] || t[k] == s[j];
    }
  }

  /** Pass `outer` meets a larger estimate below `outer`: the exchange keeps the invariant. */
  lemma SjfSwapBelow(s: seq<Pcb>, ops: seq<Op>, cfg: CfgData, outer: nat, inner: nat)
    requires inner < outer && PassInvariant(s, ops, cfg, outer, inner)
    requires Key(ops, cfg, s[outer]) <= Key(ops, cfg, s[inner])
    ensures PassInvariant(Swap(s, outer, inner), ops, cfg, outer, inner + 1)
  {
    var t := Swap(s, outer, inner);
    SwapEstimable(s, ops, outer, inner);
    // the smaller old s[outer] moves down to position inner
    assert forall k :: 0 <= k < outer && k != inner ==> t[k] == s[k];
    forall k, l | 0 <= k < l < outer
      ensures Key(ops, cfg, t[k]) <= Key(ops, cfg, t[l])
    {
      if l == inner {
        assert Key(ops, cfg, t[k]) <= Key(ops, cfg, s[outer]);
      } else if k == inner {
        assert Key(ops, cfg, s[outer]) <= Key(ops, cfg, s[inner]) <= Key(ops, cfg, s[l]);
      }
    }
    forall k | 0 <= k < inner + 1
      ensures Key(ops, cfg, t[k]) <= Key(ops, cfg, t[outer])
    {
      if k != inner {
        assert t[k] == s[k];
      }
    }
  }

  /** Pass `outer` meets a larger estimate above `outer`: the exchange keeps the invariant. */
  lemma SjfSwapAbove(s: seq<Pcb>, ops: seq<Op>, cfg: CfgData, outer: nat, inner: nat)
    requires outer < inner < |s| && PassInvariant(s, ops, cfg, outer, inner)
    requires Key(ops, cfg, s[outer]) <= Key(ops, cfg, s[inner])
    ensures PassInvariant(Swap(s, outer, inner), ops, cfg, outer, inner + 1)
  {
    var t := Swap(s, outer, inner);
    SwapEstimable(s, ops, outer, inner);
    // the larger old s[inner] moves up to position outer
    assert forall k :: 0 <= k < outer ==> t[k] == s[k];
    forall k, l | 0 <= k < l < outer + 1
      ensures Key(ops, cfg, t[k]) <= Key(ops, cfg, t[l])
    {
      if l == outer {
        assert Key(ops, cfg, s[k]) <= Key(ops, cfg, s[outer]);
      }
    }
    forall k | 0 <= k < inner + 1
      ensures Key(ops, cfg, t[k]) <= Key(ops, cfg, t[outer])
    {
      if k != inner && k != outer {
        assert t[k] == s[k];
      }
    }
  }

  /** Pass `outer` meets a smaller estimate: nothing moves and the invariant extends. */
  lemma SjfNoSwap(s: seq<Pcb>, ops: seq<Op>, cfg: CfgData, outer: nat, inner: nat)
    requires inner < |s| && inner != outer && PassInvariant(s, ops, cfg, outer, inner)
    requires Key(ops, cfg, s[inner]) < Key(ops, cfg, s[outer])
    ensures PassInvariant(s, ops, cfg, outer, inner + 1)
  {
  }

  /** Pass `outer` compares entry `outer` with itself: the first `outer + 1` entries are in order. */
  lemma SjfDiagonal(s: seq<Pcb>, ops: seq<Op>, cfg: CfgData, outer: nat)
    requires PassInvariant(s, ops, cfg, outer, outer)
    ensures PassInvariant(s, ops, cfg, outer, outer + 1)
  {
    forall k, l | 0 <= k < l < outer + 1
      ensures Key(ops, cfg, s[k]) <= Key(ops, cfg, s[l])
    {
      if l == outer {
        assert Key(ops, cfg, s[k]) <= Key(ops, cfg, s[outer]);
      }
    }
  }

  /** One comparison keeps the pass invariant one position further, and the entries. */
  lemma SjfStepKeeps(s: seq<Pcb>, ops: seq<Op>, cfg: CfgData, outer: nat, inner: nat)
    requires inner < |s| && PassInvariant(s, ops, cfg, outer, inner)
    ensures PassInvariant(SjfStepResult(s, ops, cfg, outer, inner), ops, cfg, outer, inner + 1)
    ensures multiset(SjfStepResult(s, ops, cfg, outer, inner)) == multiset(s)
  {
    if inner == outer {
      assert Swap(s, outer, inner) == s;
      SjfDiagonal(s, ops, cfg, outer);
    } else if Key(ops, cfg, s[outer]) <= Key(ops, cfg, s[inner]) {
      if inner < outer {
        SjfSwapBelow(s, ops, cfg, outer, inner);
      } else {
        SjfSwapAbove(s, ops, cfg, outer, inner);
      }
    } else {
      SjfNoSwap(s, ops, cfg, outer, inner);
    }
  }

  /**
   * reorderSJF: for every pair (outer, inner) of the first `arraySize`
   * entries, exchange them when outer's estimate is at most inner's.  The
   * entries end up a permutation of the old ones with non-decreasing
   * estimates; equal estimates may change order.
   */
  method ReorderSJF(pcbArray: array<Pcb>, ops: seq<Op>, cfg: CfgData, arraySize: nat)
    requires arraySize <= pcbArray.Length
    requires Estimable(pcbArray[..arraySize], ops)
    modifies pcbArray
    ensures Estimable(pcbArray[..arraySize], ops)
    ensures SortedUpTo(pcbArray[..arraySize], ops, cfg, arraySize)
    ensures multiset(pcbArray[..arraySize]) == multiset(old(pcbArray[..arraySize]))
    ensures pcbArray[arraySize..] == old(pcbArray[arraySize..])
  {
    ghost var a0 := pcbArray[..arraySize];
    ghost var rest := pcbArray[arraySize..];
    for outer := 0 to arraySize
      invariant Estimable(pcbArray[..arraySize], ops)
      invariant SortedUpTo(pcbArray[..arraySize], ops, cfg, outer)
      invariant multiset(pcbArray[..arraySize]) == multiset(a0)
      invariant pcbArray[arraySize..] == rest
    {
      for inner := 0 to arraySize
        invariant PassInvariant(pcbArray[..arraySize], ops, cfg, outer, inner)
        invariant multiset(pcbArray[..arraySize]) == multiset(a0)
        invariant pcbArray[arraySize..] == rest
      {
        ghost var s := pcbArray[..arraySize];
        CompareAndSwap(pcbArray, ops, cfg, arraySize, outer, inner);
        SjfStepKeeps(s, ops, cfg, outer, inner);
      }
    }
  }

  /**
   * The body of reorderSJF's inner loop: estimate both entries and
   * exchange them when outer's estimate is at most inner's.
   */
  method CompareAndSwap(pcbArray: array<Pcb>, ops: seq<Op>, cfg: CfgData, arraySize: nat, outer: nat, inner: nat)
    requires outer < arraySize && inner < arraySize && arraySize <= pcbArray.Length
    requires Estimable(pcbArray[..arraySize], ops)
    modifies pcbArray
    ensures pcbArray[..arraySize] == SjfStepResult(old(pcbArray[..arraySize]), ops, cfg, outer, inner)
    ensures pcbArray[arraySize..] == old(pcbArray[arraySize..])
  {
    ghost var s := pcbArray[..arraySize];
    ghost var all := pcbArray[..];
    assert EstimateDefined(ops, s[outer].cursor) && EstimateDefined(ops, s[inner].cursor);
    var outerEstimate := EstimatePcbTime(ops, pcbArray[outer].cursor, cfg);
    var innerEstimate := EstimatePcbTime(ops, pcbArray[inner].cursor, cfg);
    if outerEstimate <= innerEstimate {
      var temp := pcbArray[outer];
      pcbArray[outer] := pcbArray[inner];
      pcbArray[inner] := temp;
      assert forall k :: 0 <= k < arraySize ==> pcbArray[k] == Swap(s, outer, inner)[k];
      assert forall k :: arraySize <= k < pcbArray.Length ==> pcbArray[k] == all[k];
    }
    assert pcbArray[..arraySize] == SjfStepResult(s, ops, cfg, outer, inner);
    assert pcbArray[arraySize..] == all[arraySize..];
  }

  // ---------------------------------------------------------------------
  // storePcb

  /** Minimum of two naturals. */
  function Min(a: nat, b: nat): nat
  {
    if a <= b then a else b
  }

  /**
   * storePcb: a table sized by getNumStartSymbols on the first catalog
   * node, filled in catalog order from the start markers the walk records
   * while the table has room, then ordered shortest-job-first when the
   * scheduling code is 1 (SJF-N).  Entries past `stored` are never written.
   */
  method StorePcb(ops: seq<Op>, cfg: CfgData) returns (pcbArray: array<Pcb>, ghost stored: nat)
    requires 0 < |ops| && ScanSafe(ops)
    requires cfg.cpuSchedulingCode == SCHED_SJF_N ==>
               forall k :: 0 <= k < Min(|ScanStarts(ops, 0)|, StartsFrom(ops, 1)) ==>
                 EstimateDefined(ops, ScanStarts(ops, 0)[k])
    ensures fresh(pcbArray) && pcbArray.Length == StartsFrom(ops, 1)
    ensures stored == Min(|ScanStarts(ops, 0)|, StartsFrom(ops, 1))
    ensures cfg.cpuSchedulingCode != SCHED_SJF_N ==> pcbArray[..stored] == Table(ops, stored)
    ensures cfg.cpuSchedulingCode == SCHED_SJF_N ==>
              && multiset(pcbArray[..stored]) == multiset(Table(ops, stored))
              && Estimable(pcbArray[..stored], ops)
              && SortedUpTo(pcbArray[..stored], ops, cfg, stored)
  {
    var startSymbols := GetNumStartSymbols(ops, 0);
    pcbArray := new Pcb[startSymbols];
    var count := RecordStarts(ops, pcbArray);
    stored := count;
    if cfg.cpuSchedulingCode == SCHED_SJF_N {
      ReorderSJF(pcbArray, ops, cfg, count);
    }
  }

  /**
   * The walk of storePcb: from the first catalog node, each start marker
   * met while the table has room is written as the next entry, and the
   * walk then steps over the node after it.
   */
  method RecordStarts(ops: seq<Op>, pcbArray: array<Pcb>) returns (count: nat)
    requires pcbArray.Length == StartsFrom(ops, 1)
    requires ScanSafe(ops)
    modifies pcbArray
    ensures count == Min(|ScanStarts(ops, 0)|, pcbArray.Length)
    ensures pcbArray[..count] == Table(ops, count)
  {
    var startSymbols := pcbArray.Length;
    var currentNode := 0;
    count := 0;
    ghost var scan := ScanStarts(ops, 0);

    while currentNode < |ops| && count < startSymbols
      invariant currentNode <= |ops| && count <= startSymbols
      invariant count <= |scan| && scan[count..] == ScanStarts(ops, currentNode)
      invariant forall k :: 0 <= k < count ==> pcbArray[k] == TableEntry(ops, scan[k], k)
      decreases |ops| - currentNode
    {
      ScanAdvance(ops, scan, count, currentNode);
      if ops[currentNode].letter == 'A' && ops[currentNode].name == "start" {
        pcbArray[count] := Pcb(currentNode, count, ops[currentNode].cycles, New);
        currentNode := currentNode + 1;
        count := count + 1;
      }
      currentNode := currentNode + 1;
    }
    if currentNode == |ops| {
      assert scan[count..] == [];
    }
    TableByCells(pcbArray[..count], ops, count);
  }

  /** One node of storePcb's walk, read off the remaining recorded markers. */
  lemma ScanAdvance(ops: seq<Op>, scan: seq<nat>, count: nat, i: nat)
    requires i < |ops| && count <= |scan| && scan[count..] == ScanStarts(ops, i)
    ensures IsStart(ops[i]) ==>
              count < |scan| && scan[count] == i && scan[count + 1..] == ScanStarts(ops, i + 2)
    ensures !IsStart(ops[i]) ==> scan[count..] == ScanStarts(ops, i + 1)
  {
    if IsStart(ops[i]) {
      assert scan[count..][0] == i;
      assert scan[count + 1..] == scan[count..][1..];
    }
  }

  /** Entries that agree with `TableEntry` one by one form `Table`. */
  lemma TableByCells(a: seq<Pcb>, ops: seq<Op>, m: nat)
    requires m <= |ScanStarts(ops, 0)| && |a| == m
    requires forall k :: 0 <= k < m ==> a[k] == TableEntry(ops, ScanStarts(ops, 0)[k], k)
    ensures a == Table(ops, m)
  {
  }

  /**
   * On a catalog whose first node is not a start marker and whose start
   * markers are never adjacent, storePcb writes one entry per start marker.
   */
  lemma TableHasEveryProcess(ops: seq<Op>)
    requires 0 < |ops| && !IsStart(ops[0]) && StartsApart(ops, 0)
    ensures Min(|ScanStarts(ops, 0)|, StartsFrom(ops, 1)) == StartsFrom(ops, 0)
    ensures ScanStarts(ops, 0) == StartPositions(ops, 0)
  {
    ScanFindsAllStarts(ops, 0);
    StartPositionsExact(ops, 0);
  }

  /** A start marker as the very first node is not counted, so its process gets no entry. */
  lemma FirstNodeNeverCounted()
    ensures var ops := [Op('A', "start", 0), Op('P', "run", 5), Op('A', "end", 0)];
            StartsFrom(ops, 1) == 0 && StartPositions(ops, 0) == [0]
  {
    var ops := [Op('A', "start", 0), Op('P', "run", 5), Op('A', "end", 0)];
    assert StartsFrom(ops, 1) == 0;
  }

  /** A start marker right after another is stepped over, so the table has an unwritten entry. */
  lemma AdjacentStartSkipped()
    ensures var ops := [Op('S', "start", 0), Op('A', "start", 0), Op('A', "start", 0),
                        Op('P', "run", 1), Op('A', "end", 0)];
            ScanStarts(ops, 0) == [1] && StartsFrom(ops, 1) == 2
  {
    var ops := [Op('S', "start", 0), Op('A', "start", 0), Op('A', "start", 0),
                Op('P', "run", 1), Op('A', "end", 0)];
    assert ScanStarts(ops, 3) == [];
    assert StartsFrom(ops, 3) == 0;
  }
}
