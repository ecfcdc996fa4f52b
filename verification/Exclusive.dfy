/** Consequences of the conservation laws: no two owners share memory. */
module Exclusive {
  import opened Base
  import opened Engine
  import opened Ownership
  import opened Invariant

  /** Two operations in use never own the same pool buffer or the same ring buffer. */
  lemma TwoOwners(e: Engine, hand: multiset<nat>, lost: multiset<nat>, o: nat, p: nat)
    requires Own(e, hand, lost) && InUse(e, o) && InUse(e, p) && o != p
    ensures e.At(o).bufAddr.Some? ==> e.At(o).bufAddr != e.At(p).bufAddr
    ensures e.At(o).bufIdx >= 0 ==> e.At(o).bufIdx != e.At(p).bufIdx
  {
    var a, b := if o < p then o else p, if o < p then p else o;
    if e.At(o).bufAddr.Some? {
      var x := e.At(o).bufAddr.value;
      OwnersOfTwo(true, e.ops, e.freeOps, a, b, |e.ops|, x);
      assert PoolPlaces(e, x) <= 1;
    }
    if e.At(o).bufIdx >= 0 {
      var x: nat := e.At(o).bufIdx;
      OwnersOfTwo(false, e.ops, e.freeOps, a, b, |e.ops|, x);
      assert RingPlaces(e, x) <= 1;
    }
  }

  /** A free pool buffer has no owner. */
  lemma FreeBufUnowned(e: Engine, hand: multiset<nat>, lost: multiset<nat>, o: nat)
    requires Own(e, hand, lost) && InUse(e, o) && e.At(o).bufAddr.Some?
    ensures e.At(o).bufAddr.value !in e.freeBufs && e.At(o).bufAddr.value < |e.poolMem|
  {
    var x := e.At(o).bufAddr.value;
    OwnersAtLeast(true, e.ops, e.freeOps, o, |e.ops|, x);
    assert PoolPlaces(e, x) == One(x, |e.poolMem|);
    OccIn(e.freeBufs, x);
  }

  /** A ring buffer owned by an operation is neither in the ring nor in a completion. */
  lemma HeldNotOffered(e: Engine, hand: multiset<nat>, lost: multiset<nat>, o: nat)
    requires Own(e, hand, lost) && InUse(e, o) && e.At(o).bufIdx >= 0
    ensures e.At(o).bufIdx !in e.ring && CqBufs(e.cq, e.At(o).bufIdx) == 0 && e.At(o).bufIdx < |e.slots|
  {
    var x: nat := e.At(o).bufIdx;
    OwnersAtLeast(false, e.ops, e.freeOps, o, |e.ops|, x);
    assert RingPlaces(e, x) + lost[x] == One(x, |e.slots|);
    OccIn(e.ring, x);
  }

  /** A ring buffer in an unseen completion is not in the ring. */
  lemma CompletedNotOffered(e: Engine, hand: multiset<nat>, lost: multiset<nat>, j: nat)
    requires Own(e, hand, lost) && j < |e.cq| && e.cq[j].MultiCqe? && e.cq[j].buf.Some?
    ensures e.cq[j].buf.value !in e.ring && e.cq[j].buf.value < |e.slots|
  {
    var x := e.cq[j].buf.value;
    CqAtLeast(e.cq, j);
    assert RingPlaces(e, x) + lost[x] == One(x, |e.slots|);
    OccIn(e.ring, x);
  }

  /** A ring buffer in the ring is a slot of the buffer area. */
  lemma OfferedInRange(e: Engine, hand: multiset<nat>, lost: multiset<nat>)
    requires Own(e, hand, lost) && e.ring != []
    ensures e.ring[0] < |e.slots|
  {
    var x := e.ring[0];
    OccIn(e.ring, x);
    assert RingPlaces(e, x) + lost[x] == One(x, |e.slots|);
  }
}
