/**
  The ring of provided buffers as it lies in shared memory: an array of entries, a 16-bit tail
  the program advances and a 16-bit head the kernel advances. It stands for a queue of indices.
 */
module BufferRing {
  import opened Base

  // ---------------------------------------------------------------- masks and 16-bit counters

  const WRAP := 0x1_0000

  function Pow2(k: nat): (r: nat)
    ensures r > 0
  {
    if k == 0 then 1 else 2 * Pow2(k - 1)
  }

  /** Bitwise conjunction. */
  function BitAnd(x: nat, y: nat): nat {
    if x == 0 || y == 0 then 0 else 2 * BitAnd(x / 2, y / 2) + if x % 2 == 1 && y % 2 == 1 then 1 else 0
  }

  /** The remainder of `x` by `n`. */
  function Rem(x: nat, n: nat): (r: nat)
    requires n > 0
    ensures r < n
  {
    if x < n then x else Rem(x - n, n)
  }

  lemma {:induction false} RemDouble(y: nat, b: nat, m: nat)
    requires m > 0 && b < 2
    ensures Rem(2 * y + b, 2 * m) == 2 * Rem(y, m) + b
  {
    if y >= m {
      RemDouble(y - m, b, m);
      assert 2 * y + b - 2 * m == 2 * (y - m) + b;
    }
  }

  /** Masking with n - 1 is the remainder by n, for every power of two n. */
  lemma {:induction false} MaskIsRemainder(x: nat, k: nat)
    ensures BitAnd(x, Pow2(k) - 1) == Rem(x, Pow2(k))
    decreases k
  {
    if k == 0 {
      RemOne(x);
    } else if x > 0 {
      var m := Pow2(k - 1);
      MaskIsRemainder(x / 2, k - 1);
      assert (2 * m - 1) / 2 == m - 1 && (2 * m - 1) % 2 == 1;
      RemDouble(x / 2, x % 2, m);
      assert 2 * (x / 2) + x % 2 == x;
    }
  }

  lemma {:induction false} RemOne(x: nat)
    ensures Rem(x, 1) == 0
  {
    if x > 0 {
      RemOne(x - 1);
    }
  }

  lemma {:induction false} RemAdd(a: nat, i: nat, n: nat)
    requires n > 0
    ensures Rem(a + i, n) == Rem(Rem(a, n) + i, n)
  {
    if a >= n {
      RemAdd(a - n, i, n);
      assert a + i - n == (a - n) + i;
    }
  }

  /** Adding a larger power of two does not change the remainder by a smaller one. */
  lemma {:induction false} RemPow2(x: nat, k: nat, j: nat)
    requires k <= j
    ensures Rem(x + Pow2(j), Pow2(k)) == Rem(x, Pow2(k))
    decreases j
  {
    if k < j {
      RemPow2(x + Pow2(j - 1), k, j - 1);
      RemPow2(x, k, j - 1);
      assert x + Pow2(j) == x + Pow2(j - 1) + Pow2(j - 1);
    }
  }

  lemma WrapIsPow2()
    ensures Pow2(16) == WRAP
  {
    assert Pow2(4) == 16;
    assert Pow2(8) == 256;
    assert Pow2(12) == 4096;
  }

  /** Wrapping a counter at 16 bits does not change its position in the ring. */
  lemma {:induction false} WrapKeepsPosition(x: nat, k: nat)
    requires k <= 16
    ensures Rem(Rem(x, WRAP), Pow2(k)) == Rem(x, Pow2(k))
  {
    if x >= WRAP {
      WrapKeepsPosition(x - WRAP, k);
      WrapIsPow2();
      RemPow2(x - WRAP, k, 16);
    }
  }

  // ---------------------------------------------------------------- the queue a ring stands for

  /** The entry `i` places behind counter value `head`. */
  ghost function Entry(slots: seq<nat>, head: nat, i: nat): nat
    requires |slots| > 0
  {
    slots[Rem(head + i, |slots|)]
  }

  /** The `len` entries from counter value `head` on. */
  ghost function Queue(slots: seq<nat>, head: nat, len: nat): (r: seq<nat>)
    requires |slots| > 0
    ensures |r| == len
    ensures forall i | 0 <= i < len :: r[i] == Entry(slots, head, i)
  {
    seq(len, (i: nat) requires 0 <= i < len => Entry(slots, head, i))
  }

  /** Counter values less than a ring apart have different positions. */
  lemma DistinctPositions(a: nat, b: nat, n: nat)
    requires a < b < a + n
    ensures Rem(a, n) != Rem(b, n)
  {
    var r, d := Rem(a, n), b - a;
    RemAdd(a, d, n);
    assert Rem(r + d, n) == if r + d < n then r + d else Rem(r + d - n, n);
  }

  /** Writing the first free entry adds to the queue and leaves what is in it alone. */
  lemma AppendQueue(slots: seq<nat>, head: nat, len: nat, x: nat)
    requires |slots| > 0 && len < |slots|
    ensures Queue(slots[Rem(head + len, |slots|) := x], head, len + 1) == Queue(slots, head, len) + [x]
  {
    var n := |slots|;
    var slots' := slots[Rem(head + len, n) := x];
    forall i | 0 <= i < len
      ensures Entry(slots', head, i) == Entry(slots, head, i)
    {
      DistinctPositions(head + i, head + len, n);
    }
  }

  lemma DropQueue(slots: seq<nat>, head: nat, len: nat)
    requires |slots| > 0 && len > 0
    ensures Queue(slots, head + 1, len - 1) == Queue(slots, head, len)[1..]
  {
    var q := Queue(slots, head, len);
    forall i | 0 <= i < len - 1
      ensures Queue(slots, head + 1, len - 1)[i] == q[1..][i]
    {
      assert q[1..][i] == q[i + 1] == Entry(slots, head, i + 1);
      assert head + 1 + i == head + (i + 1);
    }
  }

  /** The queue only depends on the position of the head, which survives a wrap of the counter. */
  lemma SamePosition(slots: seq<nat>, head: nat, head': nat, len: nat)
    requires |slots| > 0 && Rem(head, |slots|) == Rem(head', |slots|)
    ensures Queue(slots, head, len) == Queue(slots, head', len)
  {
    forall i | 0 <= i < len
      ensures Entry(slots, head, i) == Entry(slots, head', i)
    {
      RemAdd(head, i, |slots|);
      RemAdd(head', i, |slots|);
    }
  }

  // ---------------------------------------------------------------- the ring in memory

  class Ring {
    const log: nat
    const slots: array<nat>
    var tail: nat             // written by the program, 16 bits
    var head: nat             // written by the kernel, 16 bits
    ghost var count: nat      // entries between head and tail

    ghost predicate Valid()
      reads this, slots
    {
      && log <= 15 && slots.Length == Pow2(log)
      && tail < WRAP && head < WRAP && count <= slots.Length
      && tail == Rem(head + count, WRAP)
    }

    /** The kernel sees an empty ring exactly when its head has reached the tail. */
    lemma EmptyIff()
      requires Valid()
      ensures tail == head <==> Fifo() == []
    {
      LogBound(log);
      if count > 0 {
        DistinctPositions(head, head + count, WRAP);
      }
    }

    /** The buffers the kernel may consume, oldest first. */
    ghost function Fifo(): seq<nat>
      requires Valid()
      reads this, slots
    {
      Queue(slots[..], head, count)
    }

    /** The setup loop of iouring_alloc_multishot_buffers: every buffer at its own offset, one advance. */
    constructor (log: nat)
      requires log <= 15
      ensures Valid() && this.log == log && fresh(slots)
      ensures |Fifo()| == Pow2(log) && forall i | 0 <= i < Pow2(log) :: Fifo()[i] == i
    {
      this.log := log;
      this.slots := new nat[Pow2(log)];
      tail, head, count := 0, 0, 0;
      new;
      var n := slots.Length;
      for i := 0 to n
        invariant tail == 0 && head == 0 && count == 0
        invariant forall j | 0 <= j < i :: slots[j] == j
      {
        Add(i, i);
      }
      LogBound(log);
      count := n;
      tail := Rem(tail + n, WRAP);
      assert forall i | 0 <= i < n :: Entry(slots[..], head, i) == i;
    }

    /** io_uring_buf_ring_add: writes the entry `offset` places behind the tail. */
    method Add(bid: nat, offset: nat)
      requires slots.Length == Pow2(log)
      modifies slots
      ensures slots[..] == old(slots[..])[Rem(tail + offset, slots.Length) := bid]
    {
      MaskIsRemainder(tail + offset, log);
      slots[BitAnd(tail + offset, slots.Length - 1)] := bid;
    }

    /** iouring_recycle_buffer: one entry added at the tail, one advance. */
    method Recycle(bid: nat)
      requires Valid() && |Fifo()| < slots.Length
      modifies this, slots
      ensures Valid() && Fifo() == old(Fifo()) + [bid]
    {
      WrapKeepsPosition(head + count, log);
      AppendQueue(slots[..], head, count, bid);
      Add(bid, 0);
      RemAdd(head + count, 1, WRAP);
      tail := Rem(tail + 1, WRAP);
      count := count + 1;
    }

    /** The kernel takes the entry at its head. */
    method Consume() returns (bid: nat)
      requires Valid() && Fifo() != []
      modifies this
      ensures Valid() && bid == old(Fifo())[0] && Fifo() == old(Fifo())[1..]
    {
      MaskIsRemainder(head, log);
      bid := slots[BitAnd(head, slots.Length - 1)];
      DropQueue(slots[..], head, count);
      WrapKeepsPosition(head + 1, log);
      SamePosition(slots[..], head + 1, Rem(head + 1, WRAP), count - 1);
      RemAdd(head + 1, count - 1, WRAP);
      head := Rem(head + 1, WRAP);
      count := count - 1;
    }
  }

  lemma {:induction false} LogBound(k: nat)
    requires k <= 15
    ensures Pow2(k) <= Pow2(15) < WRAP
    decreases 15 - k
  {
    WrapIsPow2();
    if k < 15 {
      LogBound(k + 1);
    }
  }

  /** A recycled buffer that is not in the ring finds a free entry: nothing unconsumed is overwritten. */
  lemma {:induction false} RoomForRecycle(ring: seq<nat>, bid: nat, n: nat)
    requires (forall x: nat :: Occ(ring, x) <= if x < n then 1 else 0) && bid < n && bid !in ring
    ensures |ring| < n
  {
    OccIn(ring, bid);
    FitsBelow([bid] + ring, n);
  }

  lemma FirstOccurs(s: seq<nat>)
    ensures s == [] || Occ(s, s[0]) >= 1
  {
  }

  /** A list without repetitions of numbers below `n` has at most `n` elements. */
  lemma {:induction false} FitsBelow(s: seq<nat>, n: nat)
    requires forall x: nat :: Occ(s, x) <= if x < n then 1 else 0
    ensures |s| <= n
    decreases n
  {
    if n == 0 {
      FirstOccurs(s);
    } else if n - 1 in s {
      var i :| 0 <= i < |s| && s[i] == n - 1;
      var t := s[..i] + s[i + 1..];
      assert s == s[..i] + ([s[i]] + s[i + 1..]);
      forall x: nat
        ensures Occ(t, x) == Occ(s, x) - if x == n - 1 then 1 else 0
      {
        OccConcat(s[..i], s[i + 1..], x);
        OccConcat(s[..i], [s[i]] + s[i + 1..], x);
        OccConcat([s[i]], s[i + 1..], x);
      }
      FitsBelow(t, n - 1);
    } else {
      forall x: nat
        ensures Occ(s, x) <= if x < n - 1 then 1 else 0
      {
        OccIn(s, x);
      }
      FitsBelow(s, n - 1);
    }
  }
}
