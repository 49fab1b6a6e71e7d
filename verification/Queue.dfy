/** The linked queue of lib.c, whose nodes keep `next` and `prev` in one field, over the
    node pool of memory.c while it hands out nodes one after the other. */
module Queue {

  /** `struct node`: the union of `next` and `prev` is the one field `link`. */
  class Node {
    var value: nat
    var link: Node?
  }

  // ---- The pool ---------------------------------------------------------

  class NodePool {
    const cells: seq<Node>
    var nextFree: nat
    var numFree: nat

    /** The pool's memory starts out zeroed. */
    constructor (memory: seq<Node>, count: nat)
      requires forall i: nat, j: nat | i < j < |memory| :: memory[i] != memory[j]
      requires forall i: nat | i < |memory| :: memory[i].link == null
      ensures Valid() && cells == memory && nextFree == 0 && numFree == count
    {
      cells := memory;
      nextFree := 0;
      numFree := count;
    }

    /** The nodes that have not been handed out yet, all zero. */
    ghost function Untouched(): set<Node>
      reads this
      ensures forall n | n in Untouched() :: n in cells
    {
      set n | nextFree <= |cells| && n in cells[nextFree..]
    }

    ghost predicate Valid()
      reads this, cells
    {
      Distinct() && forall n | n in Untouched() :: n.link == null
    }

    ghost predicate Distinct()
      reads this
    {
      nextFree <= |cells| && Apart()
    }

    ghost predicate Apart() {
      forall i: nat, j: nat | i < j < |cells| :: cells[i] != cells[j]
    }

    predicate Used(lo: nat, hi: nat)
      requires hi <= |cells|
      reads cells
    {
      forall i: nat | lo <= i < hi :: cells[i].link != null
    }

    /** A fresh pool has an unused node where its index is. */
    lemma NextUnused()
      requires Valid() && nextFree < |cells|
      ensures cells[nextFree] in Untouched() && cells[nextFree].link == null && !Used(0, |cells|)
      ensures cells[nextFree..] == [cells[nextFree]] + cells[nextFree + 1..]
    {
      assert cells[nextFree..] == [cells[nextFree]] + cells[nextFree + 1..];
    }

    /** The two scans of `node_alloc`: the pool index moves on to the first node with a
        null link, round the end if there is none from it on. An index at the end or
        behind it goes round at once. */
    method Seek()
      requires !Used(0, |cells|)
      modifies this`nextFree
      ensures nextFree < |cells| && cells[nextFree].link == null
      ensures if old(nextFree) >= |cells| || Used(old(nextFree), |cells|) then Used(0, nextFree)
        else old(nextFree) <= nextFree && Used(old(nextFree), nextFree)
    {
      var i := nextFree;
      while i < |cells| && cells[i].link != null
        invariant old(nextFree) <= i && (i <= |cells| || i == old(nextFree))
        invariant i <= |cells| ==> Used(old(nextFree), i)
        invariant i == old(nextFree) ==> nextFree == i
        invariant i != old(nextFree) ==> nextFree == if i < |cells| then i else |cells| - 1
      {
        i := i + 1;
        if i < |cells| {
          nextFree := nextFree + 1;
        }
      }
      if i >= |cells| {
        nextFree := 0;
        i := 0;
        while cells[i].link != null
          invariant 0 <= i < |cells| && nextFree == i && Used(0, i)
          decreases |cells| - i
        {
          assert Used(0, i + 1);
          i := i + 1;
          nextFree := nextFree + 1;
        }
      }
    }

    /** `node_alloc`: the first node with a null link from the pool index on, else the
        first of all. With the index at the end or behind it the code looks at the memory
        there; when that reads as a null link (`nullBehind`) it hands out that place, which
        is no node of the pool. */
    method NodeAlloc(nullBehind: bool) returns (n: Node?, outside: bool)
      requires numFree > 0 && !(nextFree >= |cells| && nullBehind) ==> !Used(0, |cells|)
      modifies this
      ensures old(numFree) == 0 ==> n == null && nextFree == old(nextFree) && numFree == 0
      ensures old(numFree) > 0 ==> numFree == old(numFree) - 1
      ensures outside <==> old(numFree) > 0 && old(nextFree) >= |cells| && nullBehind
      ensures outside ==> n == null && nextFree == old(nextFree) + 1
      ensures old(numFree) > 0 && !outside ==>
        0 < nextFree <= |cells| && n == cells[nextFree - 1] && n.link == null
      ensures old(numFree) > 0 && !outside ==>
        if old(nextFree) >= |cells| || Used(old(nextFree), |cells|) then Used(0, nextFree - 1)
        else old(nextFree) < nextFree && Used(old(nextFree), nextFree - 1)
    {
      n, outside := null, false;
      if numFree == 0 {
        return;
      }
      if nextFree >= |cells| && nullBehind {
        outside := true;
      } else {
        if nextFree >= |cells| || cells[nextFree].link != null {
          Seek();
        }
        n := cells[nextFree];
      }
      numFree := numFree - 1;
      nextFree := nextFree + 1;
    }

    /** On a fresh pool that is always the next unused node. */
    method NextNode() returns (n: Node)
      requires Valid() && nextFree < |cells| && numFree > 0
      modifies this
      ensures Valid() && nextFree == old(nextFree) + 1 && numFree == old(numFree) - 1
      ensures n in old(Untouched()) && Untouched() == old(Untouched()) - {n}
    {
      NextUnused();
      var outside;
      n, outside := NodeAlloc(false);
    }

    /** `node_free`. */
    method NodeFree(n: Node)
      requires Valid() && n !in Untouched()
      modifies this`numFree, n`link
      ensures Valid() && Untouched() == old(Untouched()) && n.link == null && numFree == old(numFree) + 1
    {
      numFree := numFree + 1;
      n.link := null;
    }
  }

  // ---- The queue --------------------------------------------------------

  class List {
    var head: Node?
    var tail: Node?
    var size: nat
    ghost var nodes: seq<Node>

    /** `init_list`. */
    constructor ()
      ensures Valid() && Contents() == [] && head == null && fresh(Repr())
    {
      head := null;
      tail := null;
      size := 0;
      nodes := [];
    }

    /** The nodes the queue owns: the two sentinels and those in line. */
    ghost function Own(): set<Node>
      reads this
    {
      (if head == null then {} else {head}) + (if tail == null then {} else {tail}) + set n | n in nodes
    }

    ghost function Repr(): set<object>
      reads this
    {
      {this} + Own()
    }

    /** The head's link leads along the line; the tail's link leads back to its last
        node, whose own link means nothing. */
    ghost predicate Valid()
      reads this, Own()
    {
      && size == |nodes|
      && (forall i: nat, j: nat | i < j < |nodes| :: nodes[i] != nodes[j])
      && (head == null <==> tail == null)
      && (head == null ==> nodes == [])
      && (head != null ==> head != tail && head !in nodes && tail !in nodes)
      && (nodes != [] ==> head.link == nodes[0] && tail.link == nodes[|nodes| - 1])
      && forall i: nat | i + 1 < |nodes| :: nodes[i].link == nodes[i + 1]
    }

    ghost function Contents(): (r: seq<nat>)
      reads this, nodes
      ensures |r| == |nodes|
    {
      seq(|nodes|, i requires 0 <= i < |nodes| reads this, nodes => nodes[i].value)
    }

    /** A node that is not the list's. */
    ghost predicate Outside(n: Node)
      reads this
    {
      n !in Own()
    }

    /** The first item after none: the tail's link and the node's own link meet. */
    method LinkFirst(n: Node)
      requires Valid() && size == 0 && head != null && Outside(n)
      modifies this`size, this`nodes, head, tail, n
      ensures Valid() && nodes == [n] && head == old(head) && tail == old(tail) && n.value == old(n.value)
      ensures size == 1 && Own() == {head, tail, n}
    {
      head.link := n;
      tail.link := n;
      n.link := tail;
      nodes := [n];
      size := size + 1;
    }

    /** The next item after others. */
    method LinkNext(n: Node, ghost last: Node)
      requires Valid() && size > 0 && head != null && Outside(n) && last == nodes[|nodes| - 1]
      modifies this`size, this`nodes, tail, last`link
      ensures Valid() && nodes == old(nodes) + [n] && head == old(head) && tail == old(tail)
      ensures size == old(size) + 1 && Own() == old(Own()) + {n}
    {
      tail.link.link := n;
      tail.link := n;
      nodes := nodes + [n];
      size := size + 1;
    }

    /** The two sentinels of a queue that has never held anything. */
    method MakeSentinels(pool: NodePool)
      requires Valid() && pool.Valid() && head == null
      requires |pool.cells| - pool.nextFree >= 2 && pool.numFree >= 2
      modifies this`head, this`tail, pool
      ensures Valid() && pool.Valid() && head != null && nodes == [] && size == 0
      ensures Own() <= old(pool.Untouched()) && pool.Untouched() == old(pool.Untouched()) - Own()
      ensures pool.nextFree == old(pool.nextFree) + 2 && pool.numFree == old(pool.numFree) - 2
    {
      head := pool.NextNode();
      tail := pool.NextNode();
    }

    /** `enqueue_tail`: the item goes to the end, whether the queue was never used, is
        in use, or has been drained. */
    method EnqueueTail(pool: NodePool, item: nat) returns (count: nat)
      requires Valid() && pool.Valid() && Own() !! pool.Untouched()
      requires |pool.cells| - pool.nextFree >= (if head == null then 3 else 1)
      requires pool.numFree >= (if head == null then 3 else 1)
      modifies this, pool, Own(), pool.Untouched()
      ensures Valid() && pool.Valid() && Own() !! pool.Untouched()
      ensures Contents() == old(Contents()) + [item] && count == |Contents()|
      ensures pool.Untouched() <= old(pool.Untouched()) && Own() <= old(Own()) + old(pool.Untouched())
      ensures pool.nextFree == old(pool.nextFree) + (if old(head) == null then 3 else 1)
      ensures pool.numFree == old(pool.numFree) - (if old(head) == null then 3 else 1)
      ensures head != null
    {
      var n := pool.NextNode();
      n.link := null;
      n.value := item;
      if size == 0 {
        if head == null {
          MakeSentinels(pool);
        }
        LinkFirst(n);
        assert old(Contents()) == [] && Contents() == [item];
      } else {
        ghost var before := Contents();
        LinkNext(n, nodes[|nodes| - 1]);
        assert Contents() == before + [item];
      }
      count := size;
    }

    /** `dequeue_front`: the oldest item's node, or none. */
    method DequeueFront() returns (n: Node?)
      requires Valid()
      modifies this, head
      ensures Valid() && (n == null <==> old(Contents()) == [])
      ensures n == null ==> Contents() == []
      ensures n != null ==>
        n in old(Own()) && n !in Own() && n.value == old(Contents())[0] && Contents() == old(Contents())[1..]
      ensures Own() <= old(Own()) && head == old(head) && tail == old(tail)
    {
      if size == 0 {
        return null;
      }
      n := head.link;
      head.link := n.link;
      nodes := nodes[1..];
      size := size - 1;
      assert Contents() == old(Contents())[1..];
    }
  }

  // ---- Runs of the abstract queue ---------------------------------------

  datatype Op = Enqueue(item: nat) | Dequeue

  datatype Run = Run(queue: seq<nat>, out: seq<nat>)

  /** The queue that the two methods implement, over a whole run. */
  function After(start: seq<nat>, ops: seq<Op>): Run {
    if ops == [] then Run(start, [])
    else
      var r := After(start, ops[..|ops| - 1]);
      match ops[|ops| - 1]
      case Enqueue(item) => Run(r.queue + [item], r.out)
      case Dequeue => if r.queue == [] then r else Run(r.queue[1..], r.out + [r.queue[0]])
  }

  function Enqueued(ops: seq<Op>): seq<nat> {
    if ops == [] then []
    else Enqueued(ops[..|ops| - 1]) + match ops[|ops| - 1] case Enqueue(item) => [item] case Dequeue => []
  }

  /** One operation: the queue afterwards, and what was handed out. */
  function One(queue: seq<nat>, op: Op): Run {
    match op
    case Enqueue(item) => Run(queue + [item], [])
    case Dequeue => if queue == [] then Run([], []) else Run(queue[1..], [queue[0]])
  }

  /** One operation of the abstract queue more. */
  lemma AfterStep(start: seq<nat>, ops: seq<Op>, i: nat)
    requires i < |ops|
    ensures var r := After(start, ops[..i]);
      After(start, ops[..i + 1]) == Run(One(r.queue, ops[i]).queue, r.out + One(r.queue, ops[i]).out)
  {
    assert ops[..i + 1][..i] == ops[..i];
  }

  method DriveOne(list: List, pool: NodePool, op: Op) returns (taken: seq<nat>)
    requires list.Valid() && pool.Valid() && list.Own() !! pool.Untouched()
    requires |pool.cells| - pool.nextFree >= (if list.head == null then 3 else 1)
    requires pool.numFree >= (if list.head == null then 3 else 1)
    modifies list, pool, list.Own(), pool.Untouched()
    ensures list.Valid() && pool.Valid() && list.Own() !! pool.Untouched()
    ensures list.Own() <= old(list.Own()) + old(pool.Untouched()) && pool.Untouched() <= old(pool.Untouched())
    ensures pool.nextFree <= old(pool.nextFree) + (if old(list.head) == null && list.head != null then 3 else 1)
    ensures pool.numFree + (if old(list.head) == null && list.head != null then 3 else 1) >= old(pool.numFree)
    ensures old(list.head) != null ==> list.head != null
    ensures Run(list.Contents(), taken) == One(old(list.Contents()), op)
  {
    hide List.Contents;
    taken := [];
    match op {
      case Enqueue(item) =>
        var _ := list.EnqueueTail(pool, item);
      case Dequeue =>
        taken := TakeOut(list, pool);
    }
  }

  /** Any interleaving of `enqueue_tail` and `dequeue_front` on one list behaves as the
      abstract queue, draining and refilling included; each dequeued node goes back to
      the pool, as `os_alloc` does it. */
  method Drive(list: List, pool: NodePool, ops: seq<Op>) returns (out: seq<nat>)
    requires list.Valid() && pool.Valid() && list.Own() !! pool.Untouched()
    requires |pool.cells| - pool.nextFree >= |ops| + 2 && pool.numFree >= |ops| + 2
    modifies list, pool, list.Own(), pool.Untouched()
    ensures list.Valid() && pool.Valid()
    ensures Run(list.Contents(), out) == After(old(list.Contents()), ops)
  {
    hide List.Contents, List.Valid, NodePool.Valid, One;
    out := [];
    ghost var own, unused, start := list.Own(), pool.Untouched(), list.Contents();
    var i := 0;
    while i < |ops|
      invariant i <= |ops| && list.Valid() && pool.Valid() && list.Own() !! pool.Untouched()
      invariant list.Own() <= own + unused && pool.Untouched() <= unused
      invariant |pool.cells| - pool.nextFree >= (if list.head == null then 2 else 0) + |ops| - i
      invariant pool.numFree >= (if list.head == null then 2 else 0) + |ops| - i
      invariant Run(list.Contents(), out) == After(start, ops[..i])
    {
      AfterStep(start, ops, i);
      var taken := DriveOne(list, pool, ops[i]);
      out := out + taken;
      i := i + 1;
    }
    assert ops[..|ops|] == ops;
  }

  /** `dequeue_front` and the release of the node it hands out. */
  method TakeOut(list: List, pool: NodePool) returns (taken: seq<nat>)
    requires list.Valid() && pool.Valid() && list.Own() !! pool.Untouched()
    modifies list, pool`numFree, list.Own()
    ensures list.Valid() && pool.Valid() && pool.Untouched() == old(pool.Untouched())
    ensures list.Own() <= old(list.Own()) && list.head == old(list.head) && pool.numFree >= old(pool.numFree)
    ensures taken == (if old(list.Contents()) == [] then [] else [old(list.Contents())[0]])
    ensures list.Contents() == (if old(list.Contents()) == [] then [] else old(list.Contents())[1..])
  {
    taken := [];
    var n := list.DequeueFront();
    if n != null {
      taken := [n.value];
      Release(list, pool, n);
    }
  }

  /** Freeing a node that has left the list does not concern the list. */
  method Release(list: List, pool: NodePool, n: Node)
    requires list.Valid() && pool.Valid() && n !in list.Own() && n !in pool.Untouched()
    modifies pool`numFree, n`link
    ensures list.Valid() && pool.Valid() && pool.Untouched() == old(pool.Untouched())
    ensures list.Contents() == old(list.Contents()) && pool.numFree == old(pool.numFree) + 1
  {
    pool.NodeFree(n);
    assert list.Contents() == old(list.Contents());
  }

  /** First in, first out, nothing lost and nothing made up: in every interleaving what
      came out followed by what is still there is what went in. */
  lemma {:induction false} FirstInFirstOut(start: seq<nat>, ops: seq<Op>)
    ensures var r := After(start, ops); r.out + r.queue == start + Enqueued(ops)
  {
    if ops != [] {
      FirstInFirstOut(start, ops[..|ops| - 1]);
      var r := After(start, ops[..|ops| - 1]);
      match ops[|ops| - 1]
      case Enqueue(item) =>
        assert r.out + (r.queue + [item]) == (r.out + r.queue) + [item];
        assert start + (Enqueued(ops[..|ops| - 1]) + [item]) == (start + Enqueued(ops[..|ops| - 1])) + [item];
      case Dequeue =>
        assert r.queue != [] ==> r.out + [r.queue[0]] + r.queue[1..] == r.out + r.queue;
        assert Enqueued(ops) == Enqueued(ops[..|ops| - 1]);
    }
  }
}
