/** The number of free buffers, exactly. */
module Counting {
  import opened Base
  import opened Engine
  import opened Ownership

  // ---------------------------------------------------------------- sums over indices

  ghost function SumOcc(s: seq<nat>, n: nat): nat {
    if n == 0 then 0 else SumOcc(s, n - 1) + Occ(s, n - 1)
  }

  ghost function SumOwners(ops: seq<Op>, free: seq<nat>, k: nat, n: nat): nat
    requires k <= |ops|
  {
    if n == 0 then 0 else SumOwners(ops, free, k, n - 1) + Owners(true, ops, free, k, n - 1)
  }

  lemma {:induction false} SumOccCons(s: seq<nat>, n: nat)
    requires s != []
    ensures SumOcc(s, n) == SumOcc(s[1..], n) + if s[0] < n then 1 else 0
  {
    if n > 0 {
      SumOccCons(s, n - 1);
    }
  }

  lemma {:induction false} SumOccIsLength(s: seq<nat>, n: nat)
    requires forall i | 0 <= i < |s| :: s[i] < n
    ensures SumOcc(s, n) == |s|
  {
    if s == [] {
      SumOccEmpty(n);
    } else {
      SumOccCons(s, n);
      SumOccIsLength(s[1..], n);
    }
  }

  lemma {:induction false} SumOccEmpty(n: nat)
    ensures SumOcc([], n) == 0
  {
    if n > 0 {
      SumOccEmpty(n - 1);
    }
  }

  /** Members of a list without repetition, below `n`. */
  ghost function Members(s: seq<nat>, n: nat): set<nat> { set o: nat | o < n && o in s }

  lemma {:induction false} SumOccIsMembers(s: seq<nat>, n: nat)
    requires forall x: nat | x < n :: Occ(s, x) <= 1
    ensures SumOcc(s, n) == |Members(s, n)|
  {
    if n == 0 {
      assert Members(s, n) == {};
    } else {
      SumOccIsMembers(s, n - 1);
      OccIn(s, n - 1);
      assert Members(s, n) == if n - 1 in s then Members(s, n - 1) + {n - 1} else Members(s, n - 1);
    }
  }

  /** Operations below `k` that are in use and own a pool buffer. */
  ghost function Buffered(ops: seq<Op>, free: seq<nat>, k: nat): set<nat>
    requires k <= |ops|
  {
    set o: nat | o < k && o !in free && ops[o].bufAddr.Some?
  }

  lemma {:induction false} SumOwnersStep(ops: seq<Op>, free: seq<nat>, k: nat, n: nat)
    requires 0 < k <= |ops|
    ensures SumOwners(ops, free, k, n) == SumOwners(ops, free, k - 1, n)
      + if k - 1 !in free && ops[k - 1].bufAddr.Some? && ops[k - 1].bufAddr.value < n then 1 else 0
  {
    if n > 0 {
      SumOwnersStep(ops, free, k, n - 1);
    }
  }

  lemma {:induction false} SumOwnersIsBuffered(ops: seq<Op>, free: seq<nat>, k: nat, n: nat)
    requires k <= |ops|
    requires forall o: nat | o < k && o !in free && ops[o].bufAddr.Some? :: ops[o].bufAddr.value < n
    ensures SumOwners(ops, free, k, n) == |Buffered(ops, free, k)|
  {
    if k == 0 {
      SumOwnersNone(ops, free, n);
      assert Buffered(ops, free, k) == {};
    } else {
      SumOwnersStep(ops, free, k, n);
      SumOwnersIsBuffered(ops, free, k - 1, n);
      assert Buffered(ops, free, k)
          == if k - 1 !in free && ops[k - 1].bufAddr.Some? then Buffered(ops, free, k - 1) + {k - 1} else Buffered(ops, free, k - 1);
    }
  }

  lemma {:induction false} SumOwnersNone(ops: seq<Op>, free: seq<nat>, n: nat)
    ensures SumOwners(ops, free, 0, n) == 0
  {
    if n > 0 {
      SumOwnersNone(ops, free, n - 1);
    }
  }

  lemma {:induction false} SumPlaces(e: Engine, n: nat)
    requires PoolLaw(e) && n <= |e.poolMem|
    ensures SumOcc(e.freeBufs, n) + SumOwners(e.ops, e.freeOps, |e.ops|, n) == n
  {
    if n > 0 {
      SumPlaces(e, n - 1);
      assert PoolPlaces(e, n - 1) == 1;
    }
  }

  // ---------------------------------------------------------------- the counting laws

  /** Every list of the laws stays in range, and no operation is on the free list twice. */
  lemma InRange(e: Engine, hand: multiset<nat>, lost: multiset<nat>)
    requires Own(e, hand, lost)
    ensures forall i | 0 <= i < |e.freeBufs| :: e.freeBufs[i] < |e.poolMem|
    ensures forall i | 0 <= i < |e.freeOps| :: e.freeOps[i] < |e.ops|
    ensures forall x: nat :: Occ(e.freeOps, x) <= 1
    ensures forall o: nat | o < |e.ops| && o !in e.freeOps && e.ops[o].bufAddr.Some? :: e.ops[o].bufAddr.value < |e.poolMem|
  {
    forall x: nat
      ensures x in e.freeBufs ==> x < |e.poolMem|
      ensures x in e.freeOps ==> x < |e.ops|
      ensures Occ(e.freeOps, x) <= 1
    {
      OccIn(e.freeBufs, x);
      OccIn(e.freeOps, x);
      assert PoolPlaces(e, x) == One(x, |e.poolMem|);
      assert OpPlaces(e, hand, x) == One(x, |e.ops|);
    }
    assert forall i | 0 <= i < |e.freeBufs| :: e.freeBufs[i] in e.freeBufs;
    assert forall i | 0 <= i < |e.freeOps| :: e.freeOps[i] in e.freeOps;
    forall o: nat | o < |e.ops| && o !in e.freeOps && e.ops[o].bufAddr.Some?
      ensures e.ops[o].bufAddr.value < |e.poolMem|
    {
      OwnersAtLeast(true, e.ops, e.freeOps, o, |e.ops|, e.ops[o].bufAddr.value);
      assert PoolPlaces(e, e.ops[o].bufAddr.value) >= 1;
    }
  }

  /** Operations in use without a pool buffer. */
  ghost function Bufferless(e: Engine): set<nat> {
    set o: nat | o < |e.ops| && o !in e.freeOps && e.ops[o].bufAddr == None
  }

  /** Free buffers exceed free operations by the operations in use that own no pool buffer. */
  lemma FreeBuffersExceedFreeOps(e: Engine, hand: multiset<nat>, lost: multiset<nat>)
    requires Own(e, hand, lost)
    ensures |e.freeBufs| == |e.freeOps| + |Bufferless(e)|
  {
    var n := |e.ops|;
    InRange(e, hand, lost);
    SumPlaces(e, n);
    SumOccIsLength(e.freeBufs, n);
    SumOwnersIsBuffered(e.ops, e.freeOps, n, n);
    SumOccIsLength(e.freeOps, n);
    SumOccIsMembers(e.freeOps, n);
    ThreeKinds(e);
  }

  /** An operation is free, or in use with a pool buffer, or in use without. */
  lemma ThreeKinds(e: Engine)
    ensures |Members(e.freeOps, |e.ops|)| + |Buffered(e.ops, e.freeOps, |e.ops|)| + |Bufferless(e)| == |e.ops|
  {
    var n := |e.ops|;
    var members, buffered, bufferless := Members(e.freeOps, n), Buffered(e.ops, e.freeOps, n), Bufferless(e);
    assert members !! buffered !! bufferless;
    RangeSize(n);
    assert members + buffered + bufferless == Below(n);
  }

  /** All indices below `n`. */
  ghost function Below(n: nat): set<nat> { if n == 0 then {} else Below(n - 1) + {n - 1} }

  lemma {:induction false} RangeSize(n: nat)
    ensures |Below(n)| == n && forall o: nat :: o in Below(n) <==> o < n
  {
    if n > 0 {
      RangeSize(n - 1);
    }
  }

  /**
    Allocation of every kind, also with an owner, fails exactly when no operation is free: the branch
    that finds no buffer after an operation was allocated is never taken.
   */
  lemma BufferNeverExhausted(e: Engine, hand: multiset<nat>, lost: multiset<nat>, t: OpType, fd: int, isMulti: bool, owner: Option<nat>)
    requires Own(e, hand, lost)
    ensures AllocBuf(e, t, fd, isMulti, owner).1 == if e.freeOps == [] then None else Some(e.freeOps[0])
  {
    FreeBuffersExceedFreeOps(e, hand, lost);
  }
}
