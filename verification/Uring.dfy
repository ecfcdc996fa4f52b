/**
  The engine as it is in memory: operations and their `next` links updated in place, list heads
  in the context, the buffer ring in an array. A link is the number of the next node, -1 for NULL.
  Each method is proved against the function of the same name on engine values.
 */
module Uring {
  import opened Base
  import E = Engine
  import opened Ownership
  import opened OwnershipSteps
  import opened Invariant
  import opened Exclusive
  import opened Counting
  import B = BufferRing
  import M = Machine

  /** The link of the node at position `i` of a list. */
  ghost function Link(list: seq<nat>, i: nat): int {
    if i < |list| then list[i] else -1
  }

  /** Following the links from `head` visits exactly `list`. */
  ghost predicate Chained(head: int, next: seq<int>, list: seq<nat>) {
    && head == Link(list, 0)
    && (forall i | 0 <= i < |list| :: list[i] < |next|)
    && (forall i, j | 0 <= i < |list| && j == i + 1 :: next[list[i]] == Link(list, j))
    && (forall i, j | 0 <= i < j < |list| :: list[i] != list[j])
  }

  lemma Popped(head: int, next: seq<int>, list: seq<nat>)
    requires Chained(head, next, list) && list != []
    ensures Chained(next[list[0]], next[list[0] := -1], list[1..])
  {
    var rest, next' := list[1..], next[list[0] := -1];
    forall i: nat
      ensures Link(rest, i) == Link(list, i + 1)
    {
    }
    forall i, j | 0 <= i < |rest| && j == i + 1
      ensures next'[rest[i]] == Link(rest, j)
    {
      assert rest[i] == list[j] && list[0] != list[j];
      assert next[list[j]] == Link(list, j + 1);
    }
    assert next[list[0]] == Link(list, 1) == Link(rest, 0);
  }

  lemma Pushed(head: int, next: seq<int>, list: seq<nat>, x: nat)
    requires Chained(head, next, list) && x < |next| && x !in list
    ensures Chained(x, next[x := head], [x] + list)
  {
    var longer, next' := [x] + list, next[x := head];
    forall i: nat
      ensures Link(longer, i + 1) == Link(list, i)
    {
    }
    forall i, j | 0 <= i < |longer| && j == i + 1
      ensures next'[longer[i]] == Link(longer, j)
    {
      if i > 0 {
        assert longer[i] == list[i - 1] && list[i - 1] != x;
        assert next[list[i - 1]] == Link(list, i);
      } else {
        assert Link(longer, 1) == Link(list, 0);
      }
    }
  }

  class Context {
    var ops: seq<E.Op>
    var opPool: int             // head of the list of free operations
    var opNext: seq<int>
    var bufPool: int            // head of the list of free single-shot buffers
    var bufNext: seq<int>
    const br: B.Ring
    var poolMem: seq<Bytes>
    var slots: seq<E.Slot>
    var inflight: map<nat, E.Sqe>
    var armed: set<nat>
    var cq: seq<E.Cqe>
    var stale: seq<nat>
    ghost var freeOps: seq<nat>
    ghost var freeBufs: seq<nat>

    ghost predicate Valid()
      reads this, br, br.slots
    {
      && Chained(opPool, opNext, freeOps) && Chained(bufPool, bufNext, freeBufs)
      && |opNext| == |ops| && |bufNext| == |poolMem|
      && br.Valid() && br.slots.Length == |slots|
    }

    ghost function View(): E.Engine
      requires Valid()
      reads this, br, br.slots
    {
      E.Engine(ops, freeOps, freeBufs, br.Fifo(), poolMem, slots, inflight, armed, cq, stale)
    }

    /** iouring_init: the two lists are built node by node, and the ring is filled. */
    constructor (nOps: nat, log: nat)
      requires log <= 15
      ensures Valid() && fresh(br) && fresh(br.slots)
      ensures View() == E.Fresh(nOps, B.Pow2(log))
    {
      br := new B.Ring(log);
      var next: seq<int> := [];
      for i := 0 to nOps
        invariant |next| == i && forall j | 0 <= j < i :: next[j] == j + 1
      {
        next := next + [i + 1];
      }
      if nOps > 0 {
        next := next[nOps - 1 := -1];
      }
      ops := seq(nOps, _ => E.BLANK);
      opPool, opNext := if nOps > 0 then 0 else -1, next;
      bufPool, bufNext := if nOps > 0 then 0 else -1, next;
      poolMem := seq(nOps, _ => []);
      slots := seq(B.Pow2(log), _ => E.Slot([], []));
      inflight, armed, cq, stale := map[], {}, [], [];
      freeOps, freeBufs := seq(nOps, i => i), seq(nOps, i => i);
      new;
      assert br.Fifo() == E.Fresh(nOps, B.Pow2(log)).ring;
    }

    // -------------------------------------------------------------- pools and ring

    /** iouring_get_io_op and the assignments after it. */
    method TakeOp(t: E.OpType, fd: int, isMulti: bool) returns (r: Option<nat>)
      requires Valid()
      modifies this
      ensures Valid()
      ensures if old(View()).freeOps == [] then r == None && View() == old(View())
              else r == Some(old(View()).freeOps[0]) && View() == E.TakeOp(old(View()), t, fd, isMulti)
    {
      var n := opPool;
      if n < 0 {
        return None;
      }
      Popped(opPool, opNext, freeOps);
      opPool := opNext[n];
      opNext := opNext[n := -1];
      ops := ops[n := E.BLANK.(opType := t, fd := fd, isMulti := isMulti)];
      freeOps := freeOps[1..];
      return Some(n);
    }

    /** iouring_put_io_op. */
    method PutOp(o: nat)
      requires Valid() && o < |ops| && o !in View().freeOps
      modifies this
      ensures Valid() && View() == E.PutOp(old(View()), o)
    {
      Pushed(opPool, opNext, freeOps, o);
      opNext := opNext[o := opPool];
      opPool := o;
      freeOps := [o] + freeOps;
    }

    /** iouring_get_buf_addr, handed to operation `n`. */
    method GiveBuf(n: nat) returns (ok: bool)
      requires Valid() && n < |ops|
      modifies this
      ensures Valid()
      ensures if old(View()).freeBufs == [] then !ok && View() == old(View())
              else ok && View() == E.GiveBuf(old(View()), n)
    {
      var b := bufPool;
      if b < 0 {
        return false;
      }
      Popped(bufPool, bufNext, freeBufs);
      bufPool := bufNext[b];
      bufNext := bufNext[b := -1];
      freeBufs := freeBufs[1..];
      ops := ops[n := ops[n].(bufAddr := Some(b), buffer := E.PoolBuffer(b))];
      return true;
    }

    /** iouring_put_buf_addr. */
    method PutBuf(b: nat)
      requires Valid() && b < |poolMem| && b !in View().freeBufs
      modifies this
      ensures Valid() && View() == E.PutBuf(old(View()), b)
    {
      Pushed(bufPool, bufNext, freeBufs, b);
      bufNext := bufNext[b := bufPool];
      bufPool := b;
      freeBufs := [b] + freeBufs;
    }

    /** iouring_recycle_buffer, including its assertion. */
    method Recycle(o: nat)
      requires Valid() && o < |ops| && ops[o].bufIdx >= 0 && ops[o].bufAddr == None && |View().ring| < |slots|
      modifies this, br, br.slots
      ensures Valid() && View() == E.Recycle(old(View()), o)
    {
      assert ops[o].bufAddr == None && ops[o].bufIdx >= 0;
      br.Recycle(ops[o].bufIdx);
      ops := ops[o := ops[o].(bufIdx := -1)];
    }

    /** The transfer of a buffer in io_op_alloc_buf. */
    method MoveBuf(w: nat, n: nat)
      requires Valid() && w < |ops| && n < |ops| && w != n
      modifies this
      ensures Valid() && View() == E.MoveBuf(old(View()), w, n)
    {
      var owner := ops[w];
      if !owner.isMulti {
        var buffer := if owner.bufAddr.Some? then E.PoolBuffer(owner.bufAddr.value) else E.NoBuffer;
        ops := ops[n := ops[n].(dataLen := owner.dataLen, bufAddr := owner.bufAddr, buffer := buffer)];
        ops := ops[w := owner.(bufAddr := None)];
      } else {
        ops := ops[n := ops[n].(dataLen := owner.dataLen, bufIdx := owner.bufIdx, buffer := owner.buffer)];
        ops := ops[w := owner.(bufIdx := DO_NOT_FREE)];
      }
    }

    /** io_op_alloc_buf. */
    method AllocBuf(t: E.OpType, fd: int, isMulti: bool, owner: Option<nat>, ghost hand: multiset<nat>, ghost lost: multiset<nat>)
        returns (r: Option<nat>)
      requires Valid() && Own(View(), hand, lost) && (isMulti ==> t == E.UdpRecv)
      requires owner.Some? ==> InUse(View(), owner.value)
      modifies this
      ensures Valid() && (View(), r) == E.AllocBuf(old(View()), t, fd, isMulti, owner)
      ensures r == if old(freeOps) == [] then None else Some(old(freeOps)[0])
    {
      ghost var e := View();
      if View().freeOps != [] {
        TakeOpKeeps(View(), t, fd, isMulti, hand, lost);
      }
      r := TakeOp(t, fd, isMulti);
      if r.None? || isMulti {
        return;
      }
      if owner.Some? {
        MoveBuf(owner.value, r.value);
      } else {
        var ok := GiveBuf(r.value);
        if !ok {
          PutOp(r.value);
          r := None;
          BufferNeverExhausted(e, hand, lost, t, fd, isMulti, owner);
          assert false;
        }
      }
    }

    /** io_op_free, including its assertion. */
    method Free(o: nat, ghost hand: multiset<nat>, ghost lost: multiset<nat>) returns (r: Option<nat>)
      requires Valid() && Own(View(), hand, lost) && (o in hand || IsMulti(View(), o))
      modifies this, br, br.slots
      ensures Valid() && (View(), r) == E.Free(old(View()), o)
    {
      Located(View(), hand, lost, o);
      assert ShapeOk(ops[o]);
      if ops[o].bufIdx >= 0 {
        RoomToRecycle(View(), hand, lost, o);
      }
      if ops[o].isMulti {
        if ops[o].bufIdx >= 0 {
          Recycle(o);
          return Some(o);
        } else if ops[o].bufIdx != DO_NOT_FREE {
          PutOp(o);
          return None;
        }
        return Some(o);
      }
      assert ops[o].bufAddr == None || ops[o].bufIdx == -1;
      if ops[o].bufAddr.Some? {
        FreeBufUnowned(View(), hand, lost, o);
        PutBuf(ops[o].bufAddr.value);
      } else if ops[o].bufIdx >= 0 {
        Recycle(o);
      }
      PutOp(o);
      return None;
    }

    // -------------------------------------------------------------- submission

    /** Acquiring an entry for operation `o` and submitting request `r`. */
    method Post(o: nat, r: E.Sqe, out: E.Outcome) returns (ok: bool)
      requires Valid()
      modifies this
      ensures Valid() && (View(), ok) == E.Post(old(View()), o, r, out)
    {
      match out
      case Accepted =>
        inflight := inflight[o := r];
        return true;
      case NoSqe =>
        return false;
      case Stuck =>
        stale := stale + [o];
        return false;
    }

    /** iouring_submit_tun_read. */
    method SubmitRead(o: nat, out: E.Outcome) returns (ok: bool)
      requires Valid() && o < |ops|
      modifies this
      ensures Valid() && (View(), ok) == E.SubmitRead(old(View()), o, out)
    {
      ok := Post(o, E.Sqe(ops[o].fd, ops[o].buffer, BUF_SIZE, []), out);
    }

    /** iouring_submit_udp_send and iouring_submit_tun_write, with their checks. */
    method SubmitOut(o: nat, dest: Addr, out: E.Outcome) returns (ok: bool)
      requires Valid() && o < |ops|
      modifies this
      ensures Valid() && (View(), ok) == E.SubmitOut(old(View()), o, dest, out)
    {
      if ops[o].dataLen <= 0 || ops[o].fd < 0 || ops[o].dataLen > BUF_SIZE {
        return false;
      }
      ok := Post(o, E.Sqe(ops[o].fd, ops[o].buffer, ops[o].dataLen, dest), out);
    }

    /** iouring_submit_multishot_recvmsg_op. */
    method Arm(o: nat, out: E.Outcome) returns (ok: bool)
      requires Valid()
      modifies this
      ensures Valid() && (View(), ok) == E.Arm(old(View()), o, out)
    {
      match out
      case Accepted =>
        armed := armed + {o};
        return true;
      case NoSqe =>
        return false;
      case Stuck =>
        stale := stale + [o];
        return false;
    }

    // -------------------------------------------------------------- completion

    /** The oldest completion is taken from the queue and marked as seen. */
    method TakeCqe() returns (c: E.Cqe)
      requires Valid() && cq != []
      modifies this
      ensures Valid() && c == old(cq)[0] && View() == old(View()).(cq := old(cq)[1..])
    {
      c := cq[0];
      cq := cq[1..];
    }

    /** op->data_len = cqe_res. */
    method SetLen(o: nat, len: int)
      requires Valid() && o < |ops|
      modifies this
      ensures Valid() && View() == old(View()).Set(o, old(View()).At(o).(dataLen := len))
    {
      ops := ops[o := ops[o].(dataLen := len)];
    }

    /** iouring_multishot_recvmsg_out up to the point where it may re-arm. */
    method Decode(o: nat, buf: Option<nat>) returns (ok: bool)
      requires Valid() && o < |ops| && (buf.Some? ==> buf.value < |slots|)
      modifies this
      ensures Valid() && (View(), ok) == E.Decode(old(View()), o, buf)
    {
      if buf.None? {
        return false;
      }
      var i, len := buf.value, ops[o].dataLen;
      var op := ops[o].(bufIdx := i);
      if len >= E.HEADER {
        op := op.(addr := slots[i].name);
        if op.addr != [] {
          op := op.(buffer := E.RingBuffer(i), dataLen := len - E.HEADER);
          ops := ops[o := op];
          return op.dataLen != 0;
        }
      }
      ops := ops[o := op];
      return false;
    }

    /** Data is written to the pool buffer of operation `n`. */
    method Fill(n: nat, data: Bytes)
      requires Valid() && n < |ops|
      modifies this
      ensures Valid() && View() == M.Fill(old(View()), n, data)
    {
      ops := ops[n := ops[n].(dataLen := |data|)];
      if ops[n].buffer.PoolBuffer? {
        var b := ops[n].buffer.b;
        if b < |poolMem| {
          poolMem := poolMem[b := Overlay(poolMem[b], data)];
        }
      }
    }

    // -------------------------------------------------------------- the kernel's side

    /** The kernel stores the data of a read in the buffer of the request and completes it. */
    method KernelRead(o: nat, data: Bytes)
      requires Valid() && (o in inflight ==> o < |ops|)
      modifies this
      ensures Valid() && View() == E.KernelRead(old(View()), o, data)
    {
      if o in inflight && ops[o].opType == E.TunRead && |data| <= BUF_SIZE && inflight[o].loc.PoolBuffer? {
        var b := inflight[o].loc.b;
        if b < |poolMem| {
          poolMem := poolMem[b := Overlay(poolMem[b], data)];
        }
        inflight, cq := inflight - {o}, cq + [E.SingleCqe(o, |data|)];
      }
    }

    /** The kernel finishes a send or a write, or fails any request. */
    method KernelComplete(o: nat, res: int)
      requires Valid() && (o in inflight ==> o < |ops|)
      modifies this
      ensures Valid() && View() == E.KernelComplete(old(View()), o, res)
    {
      if o in inflight && !(ops[o].opType == E.TunRead && res >= 0) {
        inflight, cq := inflight - {o}, cq + [E.SingleCqe(o, res)];
      }
    }

    /** The kernel takes the buffer at the head of the ring and stores a datagram in it. */
    method KernelRecv(o: nat, name: Addr, payload: Bytes, more: bool)
      requires Valid() && (View().ring != [] ==> View().ring[0] < |slots|)
      modifies this, br
      ensures Valid() && View() == E.KernelRecv(old(View()), o, name, payload, more)
    {
      br.EmptyIff();
      if o in armed && br.tail != br.head && E.HEADER + |payload| <= BUF_SIZE && |name| <= 128 {
        var i := br.Consume();
        slots := slots[i := E.Slot(name, Overlay(slots[i].payload, payload))];
        armed := if more then armed else armed - {o};
        cq := cq + [E.MultiCqe(o, E.HEADER + |payload|, Some(i), more)];
      }
    }

    /** A multishot request completes without a buffer. */
    method KernelNoBuffer(o: nat, res: int, more: bool)
      requires Valid()
      modifies this
      ensures Valid() && View() == E.KernelNoBuffer(old(View()), o, res, more)
    {
      if o in armed {
        armed := if more then armed else armed - {o};
        cq := cq + [E.MultiCqe(o, res, None, more)];
      }
    }
  }

  /** The ring has room for a buffer that an operation owns: nothing unconsumed is overwritten. */
  lemma RoomToRecycle(e: E.Engine, hand: multiset<nat>, lost: multiset<nat>, o: nat)
    requires Own(e, hand, lost) && InUse(e, o) && e.At(o).bufIdx >= 0
    ensures |e.ring| < |e.slots|
  {
    HeldNotOffered(e, hand, lost, o);
    forall x: nat
      ensures Occ(e.ring, x) <= if x < |e.slots| then 1 else 0
    {
      assert RingPlaces(e, x) + lost[x] == One(x, |e.slots|);
    }
    B.RoomForRecycle(e.ring, e.At(o).bufIdx, |e.slots|);
  }
}
