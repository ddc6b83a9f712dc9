/**
 The intrusive singly linked list of suspended awaiters. The nodes belong to the coroutines
 that wait; the list only links them through their `next` pointers.
 */
module SList {

  class Node {
    const id: nat
    var next: Node?

    constructor (id: nat)
      ensures this.id == id && next == null
    {
      this.id := id;
      next := null;
    }
  }

  /** The nodes form one null-terminated chain, in this order. */
  ghost predicate Chain(nodes: seq<Node>)
    reads nodes
  {
    && (forall i, j | 0 <= i < j < |nodes| :: nodes[i] != nodes[j])
    && (forall i | 0 <= i < |nodes| - 1 :: nodes[i].next == nodes[i + 1])
    && (nodes != [] ==> nodes[|nodes| - 1].next == null)
  }

  class SList {
    var head: Node?
    var tail: Node?
    /** The contents, front first. */
    ghost var nodes: seq<Node>

    ghost predicate Valid()
      reads this, nodes
    {
      && Chain(nodes)
      && (nodes == [] ==> head == null && tail == null)
      && (nodes != [] ==> head == nodes[0] && tail == nodes[|nodes| - 1])
    }

    constructor ()
      ensures Valid() && nodes == []
    {
      head, tail, nodes := null, null, [];
    }

    /** Steals the whole chain of `rhs`, which is left empty and usable. */
    constructor Move(rhs: SList)
      requires rhs.Valid()
      modifies rhs
      ensures Valid() && nodes == old(rhs.nodes)
      ensures rhs.Valid() && rhs.nodes == []
    {
      head, tail, nodes := rhs.head, rhs.tail, rhs.nodes;
      new;
      rhs.head, rhs.tail, rhs.nodes := null, null, [];
    }

    method Empty() returns (b: bool)
      requires Valid()
      ensures b <==> nodes == []
    {
      b := head == null;
    }

    /**
     Appends. The list never writes the new node, so the result is a list again exactly when
     the node arrives with a null `next`.
     */
    method PushBack(node: Node)
      requires Valid() && node !in nodes
      modifies this, if tail == null then {} else {tail}
      ensures nodes == old(nodes) + [node]
      ensures Valid() <==> old(node.next) == null
      ensures node.next == old(node.next)
    {
      nodes := nodes + [node];
      if head == null {
        head, tail := node, node;
        return;
      }
      tail.next := node;
      tail := node;
    }

    /** Removes and returns the front; the popped node keeps its stale `next`. */
    method PopFront() returns (node: Node?)
      requires Valid()
      modifies this
      ensures Valid()
      ensures old(nodes) == [] ==> node == null && nodes == []
      ensures old(nodes) != [] ==> node == old(nodes)[0] && nodes == old(nodes)[1..]
    {
      node := head;
      if node == null {
        return;
      }
      head := head.next;
      if head == null {
        tail := null;
      }
      nodes := nodes[1..];
    }
  }

  /**
   After a list has been moved away, pushes into the source leave the stolen chain as it was,
   pointer for pointer, while the source collects exactly the pushed nodes.
   */
  method PushIntoMovedFrom(source: SList, more: seq<Node>) returns (stolen: SList)
    requires source.Valid()
    requires forall i, j | 0 <= i < j < |more| :: more[i] != more[j]
    requires forall n | n in more :: n !in source.nodes && n.next == null
    modifies source, more
    ensures fresh(stolen) && stolen.Valid() && stolen.nodes == old(source.nodes)
    ensures source.Valid() && source.nodes == more
    ensures forall n | n in old(source.nodes) :: n.next == old(n.next)
  {
    stolen := new SList.Move(source);
    for k := 0 to |more|
      invariant source.Valid() && source.nodes == more[..k]
      invariant stolen.Valid() && stolen.nodes == old(source.nodes) && fresh(stolen)
      invariant forall i | k <= i < |more| :: more[i].next == null
      invariant forall n | n in old(source.nodes) :: n.next == old(n.next)
    {
      source.PushBack(more[k]);
    }
  }
}
