/**
 * The memory-management unit of ProcessPcb.c: decoding a memory request
 * from an operation's cycle value (processMemoryRequest) and checking it
 * against a process's registry of committed regions (allocateMem,
 * accessMem).  The registry is the `Memory` list of LinkedList.c.
 *
 * Both registry scans end their pass branch with a `continue` that skips
 * the advance, so once the first region passes its test the C loop never
 * ends.  The scans are modelled with a `Verdict`: `Returns(code)` where the
 * C function returns, `Spins` where it would loop forever.
 */
module MemoryManager {
  import opened SimTypes
  import opened LinkedList

  // ---------------------------------------------------------------------
  // C integer division

  /** C's `/` on `int`: the quotient truncated toward zero. */
  function CDiv(a: int, b: int): int
    requires b > 0
  {
    if a >= 0 then a / b else -((-a) / b)
  }

  /** C's `%` on `int`: the remainder takes the sign of the dividend. */
  function CRem(a: int, b: int): int
    requires b > 0
  {
    a - b * CDiv(a, b)
  }

  lemma CRemBounds(a: int, b: int)
    requires b > 0
    ensures a >= 0 ==> CDiv(a, b) == a / b && CRem(a, b) == a % b && 0 <= CRem(a, b) < b
    ensures a < 0 ==> CDiv(a, b) <= 0 && -b < CRem(a, b) <= 0
  {
    if a < 0 {
      assert (-a) == b * ((-a) / b) + (-a) % b;
    }
  }

  /** Floor division of a natural by 1000 twice is division by 1000000. */
  lemma DivDiv(x: nat)
    ensures (x / 1000) / 1000 == x / 1000000
  {
    var q, r := x / 1000000, x % 1000000;
    var r1, r0 := r / 1000, r % 1000;
    assert x == 1000 * (1000 * q + r1) + r0;
    assert x / 1000 == 1000 * q + r1;
    assert (1000 * q + r1) / 1000 == q;
  }

  /** Truncating division by 1000 twice is truncating division by 1000000. */
  lemma CDivDiv(a: int)
    ensures CDiv(CDiv(a, 1000), 1000) == CDiv(a, 1000000)
  {
    if a >= 0 {
      DivDiv(a);
    } else {
      DivDiv(-a);
      assert CDiv(a, 1000) == -((-a) / 1000);
      assert (-a) / 1000 >= 0;
    }
  }

  // ---------------------------------------------------------------------
  // processMemoryRequest

  /**
   * processMemoryRequest: the requesting process's number, and the cycle
   * value cut by C's truncating division into segment (the millions),
   * base (the thousands within them) and size (the units).
   */
  function ProcessMemoryRequest(memReq: Pcb): (mmu: Mmu)
    ensures mmu.processId == memReq.processCounter
  {
    var request := memReq.processCycle;
    Mmu(memReq.processCounter,
        CDiv(request, 1000000),
        CRem(CDiv(request, 1000), 1000),
        CRem(request, 1000))
  }

  /**
   * The decoded fields always add back up to the cycle value; for a
   * non-negative value base and size are its two low three-digit groups
   * and the segment is the rest.  A negative value gives fields that are
   * all negative or zero, as C's truncating division does.
   */
  lemma DecodeFields(memReq: Pcb)
    ensures var mmu := ProcessMemoryRequest(memReq);
            && mmu.segment * 1000000 + mmu.base * 1000 + mmu.requested == memReq.processCycle
            && (memReq.processCycle >= 0 ==>
                  && mmu.segment == memReq.processCycle / 1000000
                  && mmu.base == (memReq.processCycle / 1000) % 1000
                  && mmu.requested == memReq.processCycle % 1000
                  && 0 <= mmu.base < 1000 && 0 <= mmu.requested < 1000)
            && (memReq.processCycle < 0 ==>
                  && mmu.segment <= 0
                  && -1000 < mmu.base <= 0 && -1000 < mmu.requested <= 0)
  {
    var request := memReq.processCycle;
    CDivDiv(request);
    CRemBounds(request, 1000);
    CRemBounds(request, 1000000);
    CRemBounds(CDiv(request, 1000), 1000);
  }

  /** Encoding a region's fields as a cycle value and decoding it gives them back. */
  lemma DecodeEncoded(pid: int, segment: nat, base: int, requested: int, cursor: nat, state: State)
    requires 0 <= base < 1000 && 0 <= requested < 1000
    ensures ProcessMemoryRequest(Pcb(cursor, pid, segment * 1000000 + base * 1000 + requested, state))
            == Mmu(pid, segment, base, requested)
  {
    var c := segment * 1000000 + base * 1000 + requested;
    var m := ProcessMemoryRequest(Pcb(cursor, pid, c, state));
    assert c == (segment * 1000 + base) * 1000 + requested;
    assert c % 1000 == requested && c / 1000 == segment * 1000 + base;
    assert (segment * 1000 + base) % 1000 == base;
    DecodeFields(Pcb(cursor, pid, c, state));
    assert m.segment * 1000000 + m.base * 1000 + m.requested == c;
  }

  /** The worked example: 5090 asks for 90 units at base 5 of segment 0. */
  lemma DecodeExample(pid: int)
    ensures ProcessMemoryRequest(Pcb(0, pid, 5090, Running)) == Mmu(pid, 0, 5, 90)
  {
    DecodeEncoded(pid, 0, 5, 90, 0, Running);
  }

  // ---------------------------------------------------------------------
  // The registry

  /** Every node after the head of a `Memory` list holds a region. */
  predicate AllSome(t: seq<Option<Mmu>>)
  {
    forall k :: 0 <= k < |t| ==> t[k].Some?
  }

  /** The regions held by the nodes after the head, in list order. */
  function Blocks(t: seq<Option<Mmu>>): (b: seq<Mmu>)
    requires AllSome(t)
    ensures |b| == |t| && forall k :: 0 <= k < |t| ==> t[k] == Some(b[k])
  {
    seq(|t|, k requires 0 <= k < |t| && t[k].Some? => t[k].value)
  }

  /** Outcome of one registry scan. */
  datatype Verdict = Returns(code: int) | Spins

  /**
   * allocateMem's test of one committed region: the request's base is not
   * the region's base, the request ends before the region's base or at or
   * after its end, and the region's base plus the requested size fits in
   * the available memory.
   */
  predicate AllocBlockPasses(mmu: Mmu, block: Mmu, memAvailable: int)
  {
    && (mmu.base < block.base || mmu.base > block.base)
    && (mmu.base + mmu.requested <= block.base
        || mmu.base + mmu.requested >= block.base + block.requested)
    && block.base + mmu.requested <= memAvailable
  }

  /**
   * accessMem's test of one committed region: both the request's base and
   * its end lie inside the region, and the end fits in the available memory.
   */
  predicate AccessBlockPasses(mmu: Mmu, block: Mmu, memAvailable: int)
  {
    && block.base <= mmu.base < block.base + block.requested
    && block.base <= mmu.base + mmu.requested < block.base + block.requested
    && mmu.base + mmu.requested <= memAvailable
  }

  /**
   * allocateMem's outcome on a registry: 1 on an empty one; otherwise the
   * scan stops at the first region, returning 0 when it fails the test and
   * never returning when it passes.
   */
  function AllocateVerdict(mmu: Mmu, blocks: seq<Mmu>, memAvailable: int): Verdict
  {
    if blocks == [] then Returns(1)
    else if AllocBlockPasses(mmu, blocks[0], memAvailable) then Spins
    else Returns(0)
  }

  /** The registry after allocateMem: the request is recorded only on an empty registry it fits. */
  function AllocateRegistry(mmu: Mmu, blocks: seq<Mmu>, memAvailable: int): seq<Mmu>
  {
    if blocks == [] && mmu.base + mmu.requested <= memAvailable then [mmu] else blocks
  }

  /** accessMem's outcome: 0 on an empty registry or when the first region fails, else never returns. */
  function AccessVerdict(mmu: Mmu, blocks: seq<Mmu>, memAvailable: int): Verdict
  {
    if blocks == [] then Returns(0)
    else if AccessBlockPasses(mmu, blocks[0], memAvailable) then Spins
    else Returns(0)
  }

  /**
   * allocateMem: a request that fits in the available memory is recorded
   * in an empty registry.  The scan of a non-empty registry stops at its
   * first region (see `AllocateVerdict`).
   */
  method AllocateMem(mmu: Mmu, memory: Node<Option<Mmu>>, data: CfgData) returns (verdict: Verdict)
    requires memory.Valid() && AllSome(memory.Tail)
    modifies memory.Repr
    ensures memory.Valid() && fresh(memory.Repr - old(memory.Repr)) && AllSome(memory.Tail)
    ensures verdict == AllocateVerdict(mmu, old(Blocks(memory.Tail)), data.memAvailable)
    ensures Blocks(memory.Tail) == AllocateRegistry(mmu, old(Blocks(memory.Tail)), data.memAvailable)
  {
    var currentBlock := memory.next;

    if currentBlock == null && mmu.base + mmu.requested <= data.memAvailable {
      MemAppend(memory, mmu);
      return Returns(1);
    }

    if currentBlock != null {
      assert memory.Tail[0] == currentBlock.data;
      var block := currentBlock.data.value;
      if AllocBlockPasses(mmu, block, data.memAvailable) {
        // `continue` without advancing `currentBlock`: the loop never ends
        return Spins;
      } else {
        return Returns(0);
      }
    }
    return Returns(1);
  }

  /**
   * accessMem: reads the registry only.  It reports 0 for an empty
   * registry and for a first region that fails the containment test.
   */
  method AccessMem(mmu: Mmu, memory: Node<Option<Mmu>>, data: CfgData) returns (verdict: Verdict)
    requires memory.Valid() && AllSome(memory.Tail)
    ensures verdict == AccessVerdict(mmu, Blocks(memory.Tail), data.memAvailable)
  {
    var currentBlock := memory.next;

    if currentBlock == null {
      return Returns(0);
    }

    assert memory.Tail[0] == currentBlock.data;
    var block := currentBlock.data.value;
    if AccessBlockPasses(mmu, block, data.memAvailable) {
      // `continue` without advancing `currentBlock`: the loop never ends
      return Spins;
    } else {
      return Returns(0);
    }
  }

  // ---------------------------------------------------------------------
  // What the scans do

  /** On an empty registry allocateMem returns 1, recording the request only when it fits. */
  lemma AllocateOnEmpty(mmu: Mmu, memAvailable: int)
    ensures AllocateVerdict(mmu, [], memAvailable) == Returns(1)
    ensures mmu.base + mmu.requested <= memAvailable ==> AllocateRegistry(mmu, [], memAvailable) == [mmu]
    ensures mmu.base + mmu.requested > memAvailable ==> AllocateRegistry(mmu, [], memAvailable) == []
  {
  }

  /** allocateMem returns 1 exactly on an empty registry, and records nothing in a non-empty one. */
  lemma AllocateOneOnlyWhenEmpty(mmu: Mmu, blocks: seq<Mmu>, memAvailable: int)
    ensures AllocateVerdict(mmu, blocks, memAvailable) == Returns(1) <==> blocks == []
    ensures blocks != [] ==> AllocateRegistry(mmu, blocks, memAvailable) == blocks
    ensures AllocateVerdict(mmu, blocks, memAvailable) != Returns(1) ==>
              AllocateRegistry(mmu, blocks, memAvailable) == blocks
  {
  }

  /** So a registry fed only by allocateMem never holds more than one region. */
  lemma AllocateAtMostOne(mmu: Mmu, blocks: seq<Mmu>, memAvailable: int)
    ensures |blocks| <= 1 ==> |AllocateRegistry(mmu, blocks, memAvailable)| <= 1
  {
  }

  /** accessMem never reports success. */
  lemma AccessNeverSucceeds(mmu: Mmu, blocks: seq<Mmu>, memAvailable: int)
    ensures AccessVerdict(mmu, blocks, memAvailable) != Returns(1)
    ensures AccessVerdict(mmu, blocks, memAvailable) == Returns(0) <==>
              blocks == [] || !AccessBlockPasses(mmu, blocks[0], memAvailable)
  {
  }

  // ---------------------------------------------------------------------
  // The evident per-region intent, and where the code departs from it

  /** Two regions share at least one unit. */
  predicate Overlaps(a: Mmu, b: Mmu)
  {
    a.base < b.base + b.requested && b.base < a.base + a.requested
  }

  /** A request evidently meant to be granted: it fits and overlaps no committed region. */
  predicate IntendedAllocate(mmu: Mmu, blocks: seq<Mmu>, memAvailable: int)
  {
    && mmu.base + mmu.requested <= memAvailable
    && forall k :: 0 <= k < |blocks| ==> !Overlaps(mmu, blocks[k])
  }

  /** An access evidently meant to be granted: it lies inside one committed region. */
  predicate IntendedAccess(mmu: Mmu, blocks: seq<Mmu>)
  {
    exists k :: 0 <= k < |blocks| && blocks[k].base <= mmu.base
                && mmu.base + mmu.requested <= blocks[k].base + blocks[k].requested
  }

  /** A request that does not fit is still reported as allocated on an empty registry. */
  lemma OversizedFirstAllocationSucceeds()
    ensures var mmu := Mmu(0, 0, 900, 200);
            !IntendedAllocate(mmu, [], 1000)
            && AllocateVerdict(mmu, [], 1000) == Returns(1)
            && AllocateRegistry(mmu, [], 1000) == []
  {
  }

  /** A second, disjoint region that fits is never granted: the scan does not return. */
  lemma DisjointSecondAllocationSpins()
    ensures var first, second := Mmu(0, 0, 0, 100), Mmu(0, 0, 200, 50);
            IntendedAllocate(second, [first], 1000)
            && AllocateVerdict(second, [first], 1000) == Spins
  {
  }

  /** An access inside the committed region is never granted: the scan does not return. */
  lemma ContainedAccessSpins()
    ensures var region, request := Mmu(0, 0, 0, 100), Mmu(0, 0, 10, 40);
            IntendedAccess(request, [region])
            && AccessVerdict(request, [region], 1000) == Spins
  {
    var region, request := Mmu(0, 0, 0, 100), Mmu(0, 0, 10, 40);
    assert [region][0] == region;
  }
}
