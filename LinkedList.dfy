/**
 * The singly linked lists of LinkedList.c.  The C file has three node types
 * (a generic `LinkedList`, `LogFile` and `Memory`) that differ only in their
 * payload; here they are one generic `Node<T>`.  Each list starts with a
 * head node whose payload the simulator never reads.
 */
module LinkedList {
  import opened SimTypes
  import opened StringUtilities

  class Node<T> {
    var data: T
    var next: Node?<T>

    /** The payloads of the nodes after this one, in list order. */
    ghost var Tail: seq<T>
    /** This node and every node after it. */
    ghost var Repr: set<object>

    ghost predicate Valid()
      reads this, Repr
      decreases Repr
    {
      && this in Repr
      && (next == null ==> Tail == [])
      && (next != null ==>
            && next in Repr
            && next.Repr <= Repr
            && this !in next.Repr
            && next.Valid()
            && Tail == [next.data] + next.Tail)
    }

    /** A single node: the `malloc` plus the two field stores of a create. */
    constructor (d: T)
      ensures Valid() && fresh(Repr)
      ensures data == d && next == null && Tail == []
    {
      data := d;
      next := null;
      Tail := [];
      Repr := {this};
    }

    /**
     * The append all three list types share: walk to the last node by
     * recursion and hang a fresh node holding `d` after it.
     */
    method Append(d: T)
      requires Valid()
      modifies Repr
      decreases Repr
      ensures Valid() && fresh(Repr - old(Repr))
      ensures data == old(data) && Tail == old(Tail) + [d]
    {
      if next == null {
        var n := new Node(d);
        next := n;
        Tail := [d];
        Repr := Repr + n.Repr;
      } else {
        next.Append(d);
        Tail := [next.data] + next.Tail;
        Repr := Repr + next.Repr;
      }
    }
  }

  /** linkedListCreate: a one-node list holding `data`. */
  method LinkedListCreate<T>(data: T) returns (list: Node<T>)
    ensures list.Valid() && fresh(list.Repr)
    ensures list.data == data && list.Tail == []
  {
    list := new Node(data);
  }

  /** linkedListAppend: `data` becomes the last payload; earlier ones stay. */
  method LinkedListAppend<T>(head: Node<T>, data: T)
    requires head.Valid()
    modifies head.Repr
    ensures head.Valid() && fresh(head.Repr - old(head.Repr))
    ensures head.data == old(head.data) && head.Tail == old(head.Tail) + [data]
  {
    head.Append(data);
  }

  /** logFileCreate: an empty log; the head's line is never set (null here). */
  method LogFileCreate() returns (list: Node<array?<char>>)
    ensures list.Valid() && fresh(list.Repr)
    ensures list.Tail == []
  {
    list := new Node(null);
  }

  /**
   * logFileAppend: a fresh copy of `logLine` becomes the last line, so a
   * later change to the caller's buffer does not reach the log.
   */
  method LogFileAppend(head: Node<array?<char>>, logLine: array<char>)
    requires head.Valid() && NUL in logLine[..]
    modifies head.Repr
    ensures head.Valid() && fresh(head.Repr - old(head.Repr))
    ensures |head.Tail| == |old(head.Tail)| + 1
    ensures head.Tail[..|head.Tail| - 1] == old(head.Tail)
    ensures var line := head.Tail[|head.Tail| - 1];
            line != null && fresh(line) && Content(line[..]) == old(Content(logLine[..]))
  {
    var copy := CopyString(logLine);
    assert copy !in head.Repr;
    head.Append(copy);
  }

  /** memCreate: an empty region list; the head holds no region. */
  method MemCreate() returns (memory: Node<Option<Mmu>>)
    ensures memory.Valid() && fresh(memory.Repr)
    ensures memory.Tail == []
  {
    memory := new Node(None);
  }

  /** memAppend: `block` becomes the last region. */
  method MemAppend(head: Node<Option<Mmu>>, block: Mmu)
    requires head.Valid()
    modifies head.Repr
    ensures head.Valid() && fresh(head.Repr - old(head.Repr))
    ensures head.Tail == old(head.Tail) + [Some(block)]
  {
    head.Append(Some(block));
  }
}
