/**
  Conservation laws of the engine. For every operation, every pool buffer and every ring
  buffer the number of places that hold it is counted, and the count is exactly one.
  Each engine function is shown to keep the counts.
 */
module Ownership {
  import opened Base
  import opened Engine

  // ---------------------------------------------------------------- what operations own

  /** `op` owns pool buffer `x` (`pool`), or ring buffer `x` (`!pool`). */
  ghost predicate Owns(pool: bool, op: Op, x: nat) {
    if pool then op.bufAddr == Some(x) else op.bufIdx == x
  }

  /** 1 when operation `o` is in use and owns `x`; the fields of a free operation mean nothing. */
  ghost function Share(pool: bool, ops: seq<Op>, free: seq<nat>, o: nat, x: nat): nat
    requires o < |ops|
  {
    if o !in free && Owns(pool, ops[o], x) then 1 else 0
  }

  /** How many of the operations below `k` own `x`. */
  ghost function Owners(pool: bool, ops: seq<Op>, free: seq<nat>, k: nat, x: nat): nat
    requires k <= |ops|
  {
    if k == 0 then 0 else Owners(pool, ops, free, k - 1, x) + Share(pool, ops, free, k - 1, x)
  }

  lemma {:induction false} OwnersUpdate(pool: bool, ops: seq<Op>, free: seq<nat>,
                                        ops': seq<Op>, free': seq<nat>, o: nat, k: nat, x: nat)
    requires |ops'| == |ops| && o < |ops| && k <= |ops|
    requires forall p: nat | p < |ops| && p != o :: ops'[p] == ops[p] && (p in free' <==> p in free)
    ensures Owners(pool, ops', free', k, x)
         == Owners(pool, ops, free, k, x)
          + if o < k then Share(pool, ops', free', o, x) - Share(pool, ops, free, o, x) else 0
  {
    if k > 0 {
      OwnersUpdate(pool, ops, free, ops', free', o, k - 1, x);
    }
  }

  lemma {:induction false} OwnersAtLeast(pool: bool, ops: seq<Op>, free: seq<nat>, o: nat, k: nat, x: nat)
    requires o < k <= |ops|
    ensures Share(pool, ops, free, o, x) <= Owners(pool, ops, free, k, x)
  {
    if o < k - 1 {
      OwnersAtLeast(pool, ops, free, o, k - 1, x);
    }
  }

  lemma {:induction false} OwnersOfTwo(pool: bool, ops: seq<Op>, free: seq<nat>, o: nat, p: nat, k: nat, x: nat)
    requires o < p < k <= |ops|
    ensures Share(pool, ops, free, o, x) + Share(pool, ops, free, p, x) <= Owners(pool, ops, free, k, x)
  {
    if p < k - 1 {
      OwnersOfTwo(pool, ops, free, o, p, k - 1, x);
    } else {
      OwnersAtLeast(pool, ops, free, o, k - 1, x);
    }
  }

  // ---------------------------------------------------------------- what completions carry

  /** How many unseen completions carry ring buffer `x`. */
  ghost function CqBufs(cq: seq<Cqe>, x: nat): nat {
    if cq == [] then 0
    else (if cq[0].MultiCqe? && cq[0].buf == Some(x) then 1 else 0) + CqBufs(cq[1..], x)
  }

  /** How many unseen completions finish single-shot operation `o`. */
  ghost function CqOps(cq: seq<Cqe>, o: nat): nat {
    if cq == [] then 0
    else (if cq[0].SingleCqe? && cq[0].op == o then 1 else 0) + CqOps(cq[1..], o)
  }

  lemma {:induction false} CqAppend(cq: seq<Cqe>, c: Cqe, x: nat)
    ensures CqBufs(cq + [c], x) == CqBufs(cq, x) + if c.MultiCqe? && c.buf == Some(x) then 1 else 0
    ensures CqOps(cq + [c], x) == CqOps(cq, x) + if c.SingleCqe? && c.op == x then 1 else 0
  {
    if cq == [] {
      assert cq + [c] == [c];
    } else {
      assert (cq + [c])[1..] == cq[1..] + [c];
      CqAppend(cq[1..], c, x);
    }
  }

  lemma {:induction false} CqAtLeast(cq: seq<Cqe>, j: nat)
    requires j < |cq|
    ensures cq[j].SingleCqe? ==> CqOps(cq, cq[j].op) > 0
    ensures cq[j].MultiCqe? && cq[j].buf.Some? ==> CqBufs(cq, cq[j].buf.value) > 0
  {
    if j > 0 {
      assert cq[1..][j - 1] == cq[j];
      CqAtLeast(cq[1..], j - 1);
    }
  }

  // ---------------------------------------------------------------- the laws

  /** `o` is a multishot operation in use. */
  ghost predicate IsMulti(e: Engine, o: nat) {
    o < |e.ops| && o !in e.freeOps && e.ops[o].isMulti
  }

  /** Number of places that hold pool buffer `b`. */
  ghost function PoolPlaces(e: Engine, b: nat): nat {
    Occ(e.freeBufs, b) + Owners(true, e.ops, e.freeOps, |e.ops|, b)
  }

  /** Number of places that hold ring buffer `i`: ring, unseen completions, operations in use. */
  ghost function RingPlaces(e: Engine, i: nat): nat {
    Occ(e.ring, i) + CqBufs(e.cq, i) + Owners(false, e.ops, e.freeOps, |e.ops|, i)
  }

  /** Number of places operation `o` is in; `hand` are single-shot operations the program works on. */
  ghost function OpPlaces(e: Engine, hand: multiset<nat>, o: nat): nat {
    Occ(e.freeOps, o) + (if o in e.inflight then 1 else 0) + CqOps(e.cq, o)
    + (if IsMulti(e, o) then 1 else 0) + hand[o]
  }

  ghost predicate ShapeOk(op: Op) {
    if op.isMulti then
      op.opType == UdpRecv && op.bufAddr == None && op.bufIdx >= DO_NOT_FREE
    else
      && op.bufIdx >= -1
      && (op.bufAddr.Some? ==> op.bufIdx == -1 && op.buffer == PoolBuffer(op.bufAddr.value))
      && (op.bufIdx >= 0 ==> op.buffer == RingBuffer(op.bufIdx))
  }

  ghost predicate Shapes(e: Engine) {
    forall o: nat | o < |e.ops| && o !in e.freeOps :: ShapeOk(e.ops[o])
  }

  function One(x: nat, n: nat): nat { if x < n then 1 else 0 }

  /** Each pool buffer is free or owned by exactly one operation in use. */
  ghost predicate PoolLaw(e: Engine) {
    forall b: nat :: PoolPlaces(e, b) == One(b, |e.poolMem|)
  }

  /** Each ring buffer is in the ring, in an unseen completion, owned by an operation in use, or lost. */
  ghost predicate RingLaw(e: Engine, lost: multiset<nat>) {
    forall i: nat :: RingPlaces(e, i) + lost[i] == One(i, |e.slots|)
  }

  /** Each operation is free, held by the kernel, completed, a multishot operation, or in hand. */
  ghost predicate OpLaw(e: Engine, hand: multiset<nat>) {
    forall o: nat :: OpPlaces(e, hand, o) == One(o, |e.ops|)
  }

  ghost predicate Own(e: Engine, hand: multiset<nat>, lost: multiset<nat>) {
    && |e.poolMem| == |e.ops|
    && PoolLaw(e) && RingLaw(e, lost) && OpLaw(e, hand) && Shapes(e)
  }
}
