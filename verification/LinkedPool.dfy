/**
  The two free lists: operations and buffers linked through their `next` field, with the head
  in the context. A list in memory stands for a stack of nodes, and the numbers of its nodes are
  the free list of the engine.
 */
module LinkedPool {
  import E = Engine

  class Node {
    const id: nat
    var next: Node?

    constructor (id: nat)
      ensures this.id == id && next == null
    {
      this.id := id;
      next := null;
    }
  }

  /** The node behind position `i`. */
  ghost function Successor(stack: seq<Node>, i: nat): Node? {
    if i + 1 < |stack| then stack[i + 1] else null
  }

  /** Following `next` from `head` visits exactly `stack`, in order, and then ends. */
  ghost predicate Linked(head: Node?, stack: seq<Node>)
    reads stack
  {
    && head == (if stack == [] then null else stack[0])
    && (forall i | 0 <= i < |stack| :: stack[i].next == Successor(stack, i))
    && (forall i, j | 0 <= i < j < |stack| :: stack[i] != stack[j])
  }

  /** The numbers of the nodes of a list. */
  ghost function Ids(stack: seq<Node>): (r: seq<nat>)
    ensures |r| == |stack| && forall i | 0 <= i < |stack| :: r[i] == stack[i].id
  {
    seq(|stack|, i requires 0 <= i < |stack| => stack[i].id)
  }

  /** Getting the first node is taking the first free operation of the engine; its first buffer likewise. */
  lemma PopTakes(stack: seq<Node>, e: E.Engine, t: E.OpType, fd: int, isMulti: bool, n: nat)
    requires stack != []
    ensures e.freeOps == Ids(stack) ==> stack[0].id == e.freeOps[0] && E.TakeOp(e, t, fd, isMulti).freeOps == Ids(stack[1..])
    ensures e.freeBufs == Ids(stack) ==> stack[0].id == e.freeBufs[0] && E.GiveBuf(e, n).freeBufs == Ids(stack[1..])
  {
    assert Ids(stack)[1..] == Ids(stack[1..]);
  }

  /** Putting a node back is giving its number back to the engine. */
  lemma PushGives(stack: seq<Node>, node: Node, e: E.Engine)
    ensures e.freeOps == Ids(stack) ==> E.PutOp(e, node.id).freeOps == Ids([node] + stack)
    ensures e.freeBufs == Ids(stack) ==> E.PutBuf(e, node.id).freeBufs == Ids([node] + stack)
  {
    assert [node.id] + Ids(stack) == Ids([node] + stack);
  }

  class Pool {
    const nodes: seq<Node>      // all nodes ever allocated, by number
    var head: Node?
    ghost var stack: seq<Node>  // the nodes on the list

    ghost predicate Valid()
      reads this, stack
    {
      Linked(head, stack)
    }

    /** iouring_alloc_io_op_pool, iouring_alloc_buf_addr_pool: `n` fresh nodes, appended one by one. */
    constructor (n: nat)
      ensures Valid() && stack == nodes && |nodes| == n && fresh(nodes)
      ensures forall i | 0 <= i < n :: nodes[i].id == i
      ensures Ids(stack) == E.Fresh(n, 0).freeOps == E.Fresh(n, 0).freeBufs
    {
      var first: Node?, prev: Node?, all: seq<Node> := null, null, [];
      for i := 0 to n
        invariant |all| == i && fresh(all) && Linked(first, all)
        invariant prev == if i == 0 then null else all[i - 1]
        invariant forall j | 0 <= j < i :: all[j].id == j
      {
        var node := new Node(i);
        if prev != null {
          prev.next := node;
        } else {
          first := node;
        }
        ghost var longer := all + [node];
        assert forall j | 0 <= j < i - 1 :: longer[j] == all[j] && Successor(longer, j) == Successor(all, j);
        assert i > 0 ==> longer[i - 1] == prev && Successor(longer, i - 1) == node;
        assert Successor(longer, i) == null;
        all := all + [node];
        prev := node;
      }
      head := first;
      nodes := all;
      stack := all;
    }

    /** iouring_get_io_op, iouring_get_buf_addr: NULL when empty, otherwise a pop. */
    method Get() returns (node: Node?)
      requires Valid()
      modifies this, stack
      ensures Valid()
      ensures old(stack) == [] ==> node == null && stack == []
      ensures old(stack) != [] ==> node == old(stack)[0] && node.next == null && stack == old(stack)[1..]
    {
      node := head;
      if node == null {
        return;
      }
      ghost var rest := stack[1..];
      assert forall i | 0 <= i < |rest| :: rest[i] == stack[i + 1] && rest[i] != node;
      assert stack[0].next == Successor(stack, 0);
      assert forall i | 0 <= i < |rest| :: Successor(rest, i) == Successor(stack, i + 1);
      head := node.next;
      node.next := null;
      stack := rest;
    }

    /** iouring_put_io_op, iouring_put_buf_addr: a push of a node that is not on the list. */
    method Put(node: Node)
      requires Valid() && node !in stack
      modifies this, node
      ensures Valid() && stack == [node] + old(stack)
    {
      ghost var longer := [node] + stack;
      assert Successor(longer, 0) == head;
      assert forall i | 0 < i < |longer| :: longer[i] == stack[i - 1] && longer[i] != node && Successor(longer, i) == Successor(stack, i - 1);
      node.next := head;
      head := node;
      stack := longer;
    }

    /** iouring_free_io_op_pool, iouring_free_buf_addr_pool: every node is freed once, in list order. */
    method Destroy() returns (freed: seq<Node>)
      requires Valid()
      modifies this
      ensures Valid() && stack == [] && head == null
      ensures freed == old(stack)
      ensures forall i, j | 0 <= i < j < |freed| :: freed[i] != freed[j]
    {
      freed := [];
      var node := head;
      while node != null
        invariant stack == old(stack) && Valid()
        invariant |freed| <= |stack| && freed == stack[..|freed|]
        invariant node == if |freed| < |stack| then stack[|freed|] else null
        decreases |stack| - |freed|
      {
        var prev := node;
        assert prev == stack[|freed|];
        node := node.next;
        freed := freed + [prev];
      }
      head := null;
      stack := [];
    }
  }
}
