/** What the engine functions leave alone, and what the operation they work on looks like afterwards. */
module EngineFrames {
  import opened Base
  import opened Engine
  import opened Ownership
  import opened OwnershipSteps
  import opened Machine
  import opened Invariant

  /** The parts of the engine the kernel works on are the same. */
  ghost predicate SameKernel(e: Engine, e': Engine) {
    e'.cq == e.cq && e'.inflight == e.inflight && e'.armed == e.armed && e'.stale == e.stale
  }

  ghost predicate SameMemory(e: Engine, e': Engine) {
    e'.poolMem == e.poolMem && e'.slots == e.slots
  }

  /** Every operation in use, except `a` and `b`, is still in use and has not changed. */
  ghost predicate SameUse(e: Engine, e': Engine, a: nat, b: nat) {
    && |e'.ops| == |e.ops|
    && forall p: nat | p != a && p != b :: (InUse(e', p) <==> InUse(e, p)) && (InUse(e, p) ==> e'.At(p) == e.At(p))
  }

  /** Requests and completions name operations in use that are not in hand. */
  lemma SinglesFrame(e: Engine, e': Engine, a: nat, b: nat, hand: multiset<nat>, lost: multiset<nat>)
    requires Own(e, hand, lost) && Singles(e) && SameUse(e, e', a, b)
    requires !InUse(e, a) || a in hand || IsMulti(e, a)
    requires !InUse(e, b) || b in hand || IsMulti(e, b)
    requires e'.cq == e.cq && e'.inflight == e.inflight
    ensures Singles(e')
  {
    Located(e, hand, lost, a);
    Located(e, hand, lost, b);
    forall o | o in e'.inflight
      ensures SqeOk(e'.At(o), e'.inflight[o])
    {
      Located(e, hand, lost, o);
    }
    forall j | 0 <= j < |e'.cq|
      ensures CqeOk(e', e'.cq[j])
    {
      if e.cq[j].SingleCqe? {
        CqAtLeast(e.cq, j);
        Located(e, hand, lost, e.cq[j].op);
      }
      assert CqeOk(e, e.cq[j]);
    }
  }

  /** `io_op_alloc`: the operation comes with a pool buffer of its own. */
  lemma AllocNew(e: Engine, t: OpType, fd: int, hand: multiset<nat>, lost: multiset<nat>)
    requires Own(e, hand, lost)
    ensures var (e', r) := AllocBuf(e, t, fd, false, None);
      && SameKernel(e, e') && SameMemory(e, e')
      && if r.None? then Own(e', hand, lost) && SameUse(e, e', |e.ops|, |e.ops|)
         else var n := r.value;
           && n < |e.ops| && !InUse(e, n) && n !in hand && InUse(e', n) && SameUse(e, e', n, n)
           && Own(e', hand + multiset{n}, lost)
           && e'.At(n).bufAddr.Some?
           && e'.At(n) == BLANK.(opType := t, fd := fd, bufAddr := e'.At(n).bufAddr, buffer := PoolBuffer(e'.At(n).bufAddr.value))
  {
    if e.freeOps != [] {
      var n := e.freeOps[0];
      TakeOpKeeps(e, t, fd, false, hand, lost);
      var e1 := TakeOp(e, t, fd, false);
      FreeAfterTake(e, hand, lost);
      if e1.freeBufs == [] {
        PutOpKeeps(e1, n, hand + multiset{n}, lost);
        assert hand + multiset{n} - multiset{n} == hand;
      } else {
        GiveBufKeeps(e1, n, hand + multiset{n}, lost);
      }
    }
  }

  /** The free list loses exactly its first element. */
  lemma FreeAfterTake(e: Engine, hand: multiset<nat>, lost: multiset<nat>)
    requires Own(e, hand, lost) && e.freeOps != []
    ensures forall p: nat :: p in e.freeOps[1..] <==> p in e.freeOps && p != e.freeOps[0]
  {
    forall p: nat
      ensures p in e.freeOps[1..] <==> p in e.freeOps && p != e.freeOps[0]
    {
      OccIn(e.freeOps, p);
      OccIn(e.freeOps[1..], p);
      assert OpPlaces(e, hand, p) == One(p, |e.ops|);
    }
  }

  /** `io_op_alloc_buf` with an owner: it fails only without operations, and the buffer changes hands. */
  lemma AllocMove(e: Engine, t: OpType, fd: int, w: nat, hand: multiset<nat>, lost: multiset<nat>)
    requires Own(e, hand, lost)
    requires InUse(e, w) && (Loaded(e.At(w)) || ReadDone(e.At(w)))
    ensures var (e', r) := AllocBuf(e, t, fd, false, Some(w));
      && SameKernel(e, e') && SameMemory(e, e')
      && (r.None? <==> e.freeOps == [])
      && if r.None? then e' == e
         else var n := r.value;
           && n == e.freeOps[0] && e'.freeOps == e.freeOps[1..]
           && n < |e.ops| && !InUse(e, n) && n !in hand && n != w && InUse(e', n) && InUse(e', w)
           && SameUse(e, e', n, w)
           && Own(e', hand + multiset{n}, lost)
           && e'.At(n) == BLANK.(opType := t, fd := fd, dataLen := e.At(w).dataLen, buffer := e.At(w).buffer,
                                 bufIdx := e.At(w).bufIdx, bufAddr := e.At(w).bufAddr)
           && e'.At(w) == if e.At(w).isMulti then e.At(w).(bufIdx := DO_NOT_FREE) else e.At(w).(bufAddr := None)
  {
    if e.freeOps != [] {
      var n := e.freeOps[0];
      TakeOpKeeps(e, t, fd, false, hand, lost);
      FreeAfterTake(e, hand, lost);
      assert ShapeOk(e.ops[w]);
      MoveBufKeeps(TakeOp(e, t, fd, false), w, n, hand + multiset{n}, lost);
    }
  }

  /** `io_op_alloc` for a multishot request. */
  lemma AllocMulti(e: Engine, fd: int, hand: multiset<nat>, lost: multiset<nat>)
    requires Own(e, hand, lost)
    ensures var (e', r) := AllocBuf(e, UdpRecv, fd, true, None);
      && SameKernel(e, e') && SameMemory(e, e')
      && if r.None? then e' == e
         else var n := r.value;
           && n < |e.ops| && !InUse(e, n) && n !in hand && InUse(e', n) && SameUse(e, e', n, n)
           && Own(e', hand, lost)
           && e'.At(n) == BLANK.(opType := UdpRecv, fd := fd, isMulti := true)
  {
    if e.freeOps != [] {
      TakeOpKeeps(e, UdpRecv, fd, true, hand, lost);
      FreeAfterTake(e, hand, lost);
    }
  }

  /** `io_op_free` touches no other operation. */
  lemma FreeFrame(e: Engine, o: nat)
    requires InUse(e, o)
    ensures var (e', r) := Free(e, o);
      && SameKernel(e, e') && SameMemory(e, e') && SameUse(e, e', o, o)
      && (r.Some? ==> r.value == o && InUse(e', o)
                      && e'.At(o) == e.At(o).(bufIdx := if e.At(o).bufIdx >= 0 then -1 else DO_NOT_FREE))
      && (r.None? ==> o in e'.freeOps)
  {
  }

  /** Outstanding reads only depend on operations in use that are not in hand. */
  lemma OutstandingFrame(e: Engine, e': Engine, a: nat, b: nat, hand: multiset<nat>, hand': multiset<nat>)
    requires SameUse(e, e', a, b)
    requires forall p: nat | p != a && p != b :: p in hand <==> p in hand'
    requires a in Outstanding(e, hand) <==> a in Outstanding(e', hand')
    requires b in Outstanding(e, hand) <==> b in Outstanding(e', hand')
    ensures Outstanding(e', hand') == Outstanding(e, hand)
  {
    forall p: nat
      ensures p in Outstanding(e', hand') <==> p in Outstanding(e, hand)
    {
      if p != a && p != b {
        assert InUse(e', p) <==> InUse(e, p);
      }
    }
  }

  /** `o` is a multishot operation before exactly when it is one afterwards, on the same socket. */
  ghost predicate SameMulti(e: Engine, e': Engine, o: nat) {
    (IsMulti(e', o) <==> IsMulti(e, o)) && (IsMulti(e, o) ==> e'.At(o).fd == e.At(o).fd)
  }

  /** The law of multishot requests survives when no such operation, request or completion changed. */
  lemma MultiFrame(e: Engine, e': Engine, ph: Phase, ph': Phase, udp: map<int, nat>)
    requires MultiLaw(e, ph, udp)
    requires e'.cq == e.cq && e'.armed == e.armed
    requires forall o: nat :: SameMulti(e, e', o)
    requires !ph.Rearm? && !ph'.Rearm?
    ensures MultiLaw(e', ph', udp)
  {
    forall o: nat
      ensures Activity(e', ph', o) == Activity(e, ph, o)
      ensures (IsMulti(e', o) <==> IsMulti(e, o)) && (IsMulti(e, o) ==> e'.At(o).fd == e.At(o).fd)
    {
      assert SameMulti(e, e', o);
    }
  }

  /** Nothing changes for idle multishot operations when only the current one was worked on. */
  lemma IdleFrame(e: Engine, e': Engine, ph: Phase, ph': Phase, a: nat, b: nat, still: map<nat, nat>)
    requires Idle(e, ph, still) && SameUse(e, e', a, b)
    requires IsMulti(e', a) <==> IsMulti(e, a)
    requires IsMulti(e', b) <==> IsMulti(e, b)
    requires IsMulti(e, a) ==> Current(ph) == Some(a) && (Current(ph') == Some(a) || e'.At(a).bufIdx < 0)
    requires IsMulti(e, b) ==> Current(ph) == Some(b) && (Current(ph') == Some(b) || e'.At(b).bufIdx < 0)
    requires Current(ph') == Current(ph) || Current(ph) == Some(a) || Current(ph) == Some(b)
          || (Current(ph).Some? && !IsMulti(e, Current(ph).value))
          || (Current(ph) == None && Current(ph').Some? && !IsMulti(e, Current(ph').value))
    requires Current(ph).Some? && Current(ph').Some? ==> Current(ph') == Current(ph)
    ensures Idle(e', ph', still)
  {
    forall o: nat
      ensures IsMulti(e', o) <==> IsMulti(e, o)
      ensures IsMulti(e', o) && o != a && o != b ==> e'.At(o) == e.At(o)
    {
      if o != a && o != b {
        assert InUse(e', o) <==> InUse(e, o);
      }
    }
  }

  /** A step of the program on operations `a` and `b` keeps the invariant. */
  lemma LocalInv(s: Sys, s': Sys, a: nat, b: nat)
    requires Inv(s) && s' == s.(e := s'.e, phase := s'.phase, peers := s'.peers, trace := s'.trace)
    requires s'.e.cq == s.e.cq && s'.e.inflight == s.e.inflight && s'.e.armed == s.e.armed
    requires SameUse(s.e, s'.e, a, b)
    requires forall x | x in {a, b} :: !InUse(s.e, x) || x in Hand(s.e, s.phase) || IsMulti(s.e, x)
    requires Program(s'.e, s'.phase, s.lost, s.still, s.tunReads)
    requires Continuing(s'.phase) ==>
      && Continuing(s.phase) && s'.e.stale == [] && !s.phase.Rearm? && !s'.phase.Rearm?
      && SameMulti(s.e, s'.e, a) && SameMulti(s.e, s'.e, b)
    ensures Inv(s')
  {
    SinglesFrame(s.e, s'.e, a, b, Hand(s.e, s.phase), s.lost);
    if Continuing(s'.phase) {
      forall o: nat
        ensures SameMulti(s.e, s'.e, o)
      {
        if o != a && o != b {
          assert InUse(s'.e, o) <==> InUse(s.e, o);
        }
      }
      MultiFrame(s.e, s'.e, s.phase, s'.phase, s.udp);
    }
  }
}
