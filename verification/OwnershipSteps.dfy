/** Every engine function and every kernel step keeps the conservation laws. */
module OwnershipSteps {
  import opened Base
  import opened Engine
  import opened Ownership

  /** An operation in use that is not a multishot one and owns no buffer. */
  ghost predicate Bare(e: Engine, n: nat) {
    n < |e.ops| && n !in e.freeOps && !e.ops[n].isMulti && e.ops[n].bufAddr == None && e.ops[n].bufIdx == -1
  }

  /** Facts about a single operation that follow from the laws. */
  lemma Located(e: Engine, hand: multiset<nat>, lost: multiset<nat>, o: nat)
    requires Own(e, hand, lost)
    ensures o in e.freeOps ==> o < |e.ops| && o !in e.inflight && CqOps(e.cq, o) == 0 && o !in hand
    ensures o in hand ==> o < |e.ops| && o !in e.freeOps && o !in e.inflight && CqOps(e.cq, o) == 0 && !e.ops[o].isMulti && hand[o] == 1
    ensures o in e.inflight ==> o < |e.ops| && o !in e.freeOps && CqOps(e.cq, o) == 0 && !e.ops[o].isMulti && o !in hand
    ensures CqOps(e.cq, o) > 0 ==> o < |e.ops| && o !in e.freeOps && o !in e.inflight && !e.ops[o].isMulti && o !in hand
    ensures IsMulti(e, o) ==> o !in e.inflight && CqOps(e.cq, o) == 0 && o !in hand
    ensures CqOps(e.cq, o) <= 1
    ensures o < |e.ops| && o !in e.freeOps && !e.ops[o].isMulti ==> o in e.inflight || CqOps(e.cq, o) > 0 || o in hand
  {
    OccIn(e.freeOps, o);
    assert OpPlaces(e, hand, o) == One(o, |e.ops|);
  }

  // ---------------------------------------------------------------- allocation

  lemma TakeOpKeeps(e: Engine, t: OpType, fd: int, isMulti: bool, hand: multiset<nat>, lost: multiset<nat>)
    requires Own(e, hand, lost) && e.freeOps != []
    requires isMulti ==> t == UdpRecv
    ensures var n := e.freeOps[0];
            var e' := TakeOp(e, t, fd, isMulti);
            && n < |e.ops| && n !in hand && n !in e.inflight && CqOps(e.cq, n) == 0 && !IsMulti(e, n)
            && n !in e'.freeOps && e'.At(n) == BLANK.(opType := t, fd := fd, isMulti := isMulti)
            && Own(e', if isMulti then hand else hand + multiset{n}, lost)
  {
    var n := e.freeOps[0];
    var e' := TakeOp(e, t, fd, isMulti);
    Located(e, hand, lost, n);
    forall x: nat
      ensures x in e'.freeOps <==> x in e.freeOps && x != n
    {
      OccIn(e.freeOps, x);
      OccIn(e'.freeOps, x);
      assert OpPlaces(e, hand, x) == One(x, |e.ops|);
    }
    var hand' := if isMulti then hand else hand + multiset{n};
    forall x: nat
      ensures PoolPlaces(e', x) == PoolPlaces(e, x)
      ensures RingPlaces(e', x) == RingPlaces(e, x)
      ensures OpPlaces(e', hand', x) == OpPlaces(e, hand, x)
    {
      OwnersUpdate(true, e.ops, e.freeOps, e'.ops, e'.freeOps, n, |e.ops|, x);
      OwnersUpdate(false, e.ops, e.freeOps, e'.ops, e'.freeOps, n, |e.ops|, x);
    }
  }

  /** Replacing operation `o` changes the counts by what it owned and owns. */
  lemma Replaced(e: Engine, e': Engine, o: nat, x: nat)
    requires o < |e.ops| && o !in e.freeOps
    requires e'.ops == e.ops[o := e'.At(o)] && e'.freeOps == e.freeOps
    ensures Owners(true, e'.ops, e'.freeOps, |e'.ops|, x) == Owners(true, e.ops, e.freeOps, |e.ops|, x)
              + (if Owns(true, e'.ops[o], x) then 1 else 0) - (if Owns(true, e.ops[o], x) then 1 else 0)
    ensures Owners(false, e'.ops, e'.freeOps, |e'.ops|, x) == Owners(false, e.ops, e.freeOps, |e.ops|, x)
              + (if Owns(false, e'.ops[o], x) then 1 else 0) - (if Owns(false, e.ops[o], x) then 1 else 0)
  {
    OwnersUpdate(true, e.ops, e.freeOps, e'.ops, e'.freeOps, o, |e.ops|, x);
    OwnersUpdate(false, e.ops, e.freeOps, e'.ops, e'.freeOps, o, |e.ops|, x);
  }

  lemma GiveBufKeeps(e: Engine, n: nat, hand: multiset<nat>, lost: multiset<nat>)
    requires Own(e, hand, lost) && Bare(e, n) && e.freeBufs != []
    ensures Own(GiveBuf(e, n), hand, lost)
  {
    var e' := GiveBuf(e, n);
    forall x: nat
      ensures PoolPlaces(e', x) == PoolPlaces(e, x)
      ensures RingPlaces(e', x) == RingPlaces(e, x)
      ensures OpPlaces(e', hand, x) == OpPlaces(e, hand, x)
    {
      Replaced(e, e', n, x);
    }
  }

  lemma MoveBufKeeps(e: Engine, w: nat, n: nat, hand: multiset<nat>, lost: multiset<nat>)
    requires Own(e, hand, lost) && Bare(e, n)
    requires w < |e.ops| && w !in e.freeOps && w != n
    requires e.ops[w].isMulti ==> e.ops[w].bufIdx >= 0 && e.ops[w].buffer == RingBuffer(e.ops[w].bufIdx)
    ensures Own(MoveBuf(e, w, n), hand, lost)
  {
    var owner := e.ops[w];
    var e1 := e.Set(n, MoveBuf(e, w, n).At(n));
    var e' := MoveBuf(e, w, n);
    forall x: nat
      ensures PoolPlaces(e', x) == PoolPlaces(e, x)
      ensures RingPlaces(e', x) == RingPlaces(e, x)
      ensures OpPlaces(e', hand, x) == OpPlaces(e, hand, x)
    {
      Replaced(e, e1, n, x);
      Replaced(e1, e', w, x);
    }
  }

  // ---------------------------------------------------------------- release

  lemma PutOpKeeps(e: Engine, o: nat, hand: multiset<nat>, lost: multiset<nat>)
    requires Own(e, hand, lost)
    requires o < |e.ops| && o !in e.freeOps && e.ops[o].bufAddr == None && e.ops[o].bufIdx < 0
    requires !e.ops[o].isMulti ==> o in hand
    ensures Own(PutOp(e, o), if e.ops[o].isMulti then hand else hand - multiset{o}, lost)
  {
    var e' := PutOp(e, o);
    var hand' := if e.ops[o].isMulti then hand else hand - multiset{o};
    forall x: nat
      ensures PoolPlaces(e', x) == PoolPlaces(e, x)
      ensures RingPlaces(e', x) == RingPlaces(e, x)
      ensures OpPlaces(e', hand', x) == OpPlaces(e, hand, x)
    {
      OwnersUpdate(true, e.ops, e.freeOps, e'.ops, e'.freeOps, o, |e.ops|, x);
      OwnersUpdate(false, e.ops, e.freeOps, e'.ops, e'.freeOps, o, |e.ops|, x);
    }
  }

  lemma RecycleKeeps(e: Engine, o: nat, hand: multiset<nat>, lost: multiset<nat>)
    requires Own(e, hand, lost)
    requires o < |e.ops| && o !in e.freeOps && e.ops[o].bufIdx >= 0
    ensures Own(Recycle(e, o), hand, lost)
  {
    var e' := Recycle(e, o);
    forall x: nat
      ensures PoolPlaces(e', x) == PoolPlaces(e, x)
      ensures RingPlaces(e', x) == RingPlaces(e, x)
      ensures OpPlaces(e', hand, x) == OpPlaces(e, hand, x)
    {
      Replaced(e, e', o, x);
      OccConcat(e.ring, [e.ops[o].bufIdx as nat], x);
    }
  }

  /** A single-shot operation gives its pool buffer back and then itself. */
  lemma PutBothKeeps(e: Engine, o: nat, hand: multiset<nat>, lost: multiset<nat>)
    requires Own(e, hand, lost)
    requires o in hand && e.At(o).bufAddr.Some?
    ensures Own(PutOp(PutBuf(e, e.At(o).bufAddr.value), o), hand - multiset{o}, lost)
  {
    Located(e, hand, lost, o);
    var b := e.ops[o].bufAddr.value;
    var e' := PutOp(PutBuf(e, b), o);
    var hand' := hand - multiset{o};
    forall x: nat
      ensures PoolPlaces(e', x) == PoolPlaces(e, x)
      ensures RingPlaces(e', x) == RingPlaces(e, x)
      ensures OpPlaces(e', hand', x) == OpPlaces(e, hand, x)
    {
      OwnersUpdate(true, e.ops, e.freeOps, e'.ops, e'.freeOps, o, |e.ops|, x);
      OwnersUpdate(false, e.ops, e.freeOps, e'.ops, e'.freeOps, o, |e.ops|, x);
    }
  }

  /** `io_op_free` keeps the laws on every kind of operation. */
  lemma FreeKeeps(e: Engine, o: nat, hand: multiset<nat>, lost: multiset<nat>)
    requires Own(e, hand, lost)
    requires o in hand || IsMulti(e, o)
    ensures Own(Free(e, o).0, hand - multiset{o}, lost)
    ensures Free(e, o).1.Some? <==> IsMulti(e, o) && e.At(o).bufIdx != -1
    ensures Free(e, o).1.Some? ==> IsMulti(Free(e, o).0, o)
  {
    Located(e, hand, lost, o);
    var op := e.At(o);
    if op.isMulti {
      assert hand - multiset{o} == hand;
      if op.bufIdx >= 0 {
        RecycleKeeps(e, o, hand, lost);
      } else if op.bufIdx != DO_NOT_FREE {
        PutOpKeeps(e, o, hand, lost);
      }
    } else if op.bufAddr.Some? {
      PutBothKeeps(e, o, hand, lost);
    } else if op.bufIdx >= 0 {
      RecycleKeeps(e, o, hand, lost);
      PutOpKeeps(Recycle(e, o), o, hand, lost);
    } else {
      PutOpKeeps(e, o, hand, lost);
    }
  }

  // ---------------------------------------------------------------- submission

  lemma PostKeeps(e: Engine, o: nat, r: Sqe, out: Outcome, hand: multiset<nat>, lost: multiset<nat>)
    requires Own(e, hand, lost) && o in hand
    ensures Own(Post(e, o, r, out).0, if out == Accepted then hand - multiset{o} else hand, lost)
  {
    Located(e, hand, lost, o);
    var e' := Post(e, o, r, out).0;
    var hand' := if out == Accepted then hand - multiset{o} else hand;
    forall x: nat
      ensures PoolPlaces(e', x) == PoolPlaces(e, x)
      ensures RingPlaces(e', x) == RingPlaces(e, x)
      ensures OpPlaces(e', hand', x) == OpPlaces(e, hand, x)
    {
    }
  }

  lemma ArmKeeps(e: Engine, o: nat, out: Outcome, hand: multiset<nat>, lost: multiset<nat>)
    requires Own(e, hand, lost)
    ensures Own(Arm(e, o, out).0, hand, lost)
  {
    SameCounts(e, Arm(e, o, out).0, hand, lost);
  }

  /** The laws do not look at memory contents, at armed requests or at unsubmitted entries. */
  lemma SameCounts(e: Engine, e': Engine, hand: multiset<nat>, lost: multiset<nat>)
    requires Own(e, hand, lost)
    requires e'.ops == e.ops && e'.freeOps == e.freeOps && e'.freeBufs == e.freeBufs && e'.ring == e.ring
    requires e'.cq == e.cq && e'.inflight == e.inflight && |e'.slots| == |e.slots| && |e'.poolMem| == |e.poolMem|
    ensures Own(e', hand, lost)
  {
    forall x: nat
      ensures PoolPlaces(e', x) == PoolPlaces(e, x)
      ensures RingPlaces(e', x) == RingPlaces(e, x)
      ensures OpPlaces(e', hand, x) == OpPlaces(e, hand, x)
    {
    }
  }

  // ---------------------------------------------------------------- kernel

  /** Completing a single-shot request moves its operation to the completion queue. */
  lemma CompleteKeeps(e: Engine, e': Engine, o: nat, res: int, hand: multiset<nat>, lost: multiset<nat>)
    requires Own(e, hand, lost) && o in e.inflight
    requires e'.ops == e.ops && e'.freeOps == e.freeOps && e'.freeBufs == e.freeBufs && e'.ring == e.ring
    requires e'.inflight == e.inflight - {o} && e'.cq == e.cq + [SingleCqe(o, res)]
    requires |e'.slots| == |e.slots| && |e'.poolMem| == |e.poolMem|
    ensures Own(e', hand, lost)
  {
    forall x: nat
      ensures PoolPlaces(e', x) == PoolPlaces(e, x)
      ensures RingPlaces(e', x) == RingPlaces(e, x)
      ensures OpPlaces(e', hand, x) == OpPlaces(e, hand, x)
    {
      CqAppend(e.cq, SingleCqe(o, res), x);
    }
  }

  lemma KernelReadKeeps(e: Engine, o: nat, data: Bytes, hand: multiset<nat>, lost: multiset<nat>)
    requires Own(e, hand, lost)
    ensures Own(KernelRead(e, o, data), hand, lost)
  {
    if o in e.inflight && e.At(o).opType == TunRead && |data| <= BUF_SIZE && e.inflight[o].loc.PoolBuffer? {
      CompleteKeeps(e, KernelRead(e, o, data), o, |data|, hand, lost);
    }
  }

  lemma KernelCompleteKeeps(e: Engine, o: nat, res: int, hand: multiset<nat>, lost: multiset<nat>)
    requires Own(e, hand, lost)
    ensures Own(KernelComplete(e, o, res), hand, lost)
  {
    if o in e.inflight && !(e.At(o).opType == TunRead && res >= 0) {
      CompleteKeeps(e, KernelComplete(e, o, res), o, res, hand, lost);
    }
  }

  lemma KernelRecvKeeps(e: Engine, o: nat, name: Addr, payload: Bytes, more: bool, hand: multiset<nat>, lost: multiset<nat>)
    requires Own(e, hand, lost)
    ensures Own(KernelRecv(e, o, name, payload, more), hand, lost)
  {
    var e' := KernelRecv(e, o, name, payload, more);
    if e'.cq != e.cq {
      forall x: nat
        ensures PoolPlaces(e', x) == PoolPlaces(e, x)
        ensures RingPlaces(e', x) == RingPlaces(e, x)
        ensures OpPlaces(e', hand, x) == OpPlaces(e, hand, x)
      {
        CqAppend(e.cq, e'.cq[|e.cq|], x);
      }
    }
  }

  lemma KernelNoBufferKeeps(e: Engine, o: nat, res: int, more: bool, hand: multiset<nat>, lost: multiset<nat>)
    requires Own(e, hand, lost)
    ensures Own(KernelNoBuffer(e, o, res, more), hand, lost)
  {
    var e' := KernelNoBuffer(e, o, res, more);
    if o in e.armed {
      forall x: nat
        ensures PoolPlaces(e', x) == PoolPlaces(e, x)
        ensures RingPlaces(e', x) == RingPlaces(e, x)
        ensures OpPlaces(e', hand, x) == OpPlaces(e, hand, x)
      {
        CqAppend(e.cq, MultiCqe(o, res, None, more), x);
      }
    }
  }
}
