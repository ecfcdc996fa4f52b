/** How long wait_for_recv can go on, and which peer a socket talks to. */
module Progress {
  import opened Base
  import opened Engine
  import opened Machine
  import opened Ownership
  import opened OwnershipSteps
  import opened Invariant
  import opened InvariantSteps
  import opened EngineFrames
  import opened WaitSteps

  // ---------------------------------------------------------------- turns of wait_for_recv

  /** Sends and writes that are with the kernel or completed and unseen. */
  ghost function Retirable(e: Engine, hand: multiset<nat>): set<nat> {
    set o: nat | o < |e.ops| && o !in e.freeOps && !e.ops[o].isMulti && e.ops[o].opType != TunRead && o !in hand
  }

  /** The program is inside the loop of wait_for_recv before every step of the run. */
  ghost predicate InLoop(s: Sys, ls: seq<Label>)
    decreases |ls|
  {
    ls != [] ==> (s.phase.Wait? || s.phase.Got?) && InLoop(Step(s, ls[0]), ls[1..])
  }

  /** Number of turns of that loop that get a completion. */
  ghost function Turns(s: Sys, ls: seq<Label>): nat
    decreases |ls|
  {
    if ls == [] then 0
    else (if ls[0].Next? && s.phase.Wait? && s.e.cq != [] then 1 else 0) + Turns(Step(s, ls[0]), ls[1..])
  }

  /** An upper bound on the turns that are left. */
  ghost function Left(s: Sys): nat {
    match s.phase
    case Wait => |Retirable(s.e, multiset{})| + 1
    case Got(o) => if s.e.At(o).opType == TunRead then 0 else |Retirable(s.e, multiset{o})| + 1
    case _ => 0
  }

  lemma TakeSingleLeft(s: Sys, e': Engine, c: Cqe)
    requires c.SingleCqe? && s.phase.Wait? && InUse(s.e, c.op) && !s.e.At(c.op).isMulti
    requires e'.freeOps == s.e.freeOps && e'.ops == s.e.ops[c.op := s.e.At(c.op).(dataLen := c.res)]
    ensures Left(s.(phase := Got(c.op), e := e')) + 1 <= Left(s)
  {
    if s.e.At(c.op).opType != TunRead {
      RetirableTaken(s.e, e', c.op);
    }
  }

  lemma RetirableTaken(e: Engine, e': Engine, o: nat)
    requires InUse(e, o) && !e.At(o).isMulti && e.At(o).opType != TunRead
    requires e'.freeOps == e.freeOps && e'.ops == e.ops[o := e.At(o).(dataLen := e'.At(o).dataLen)]
    ensures |Retirable(e', multiset{o})| + 1 == |Retirable(e, multiset{})|
  {
    var before, after := Retirable(e, multiset{}), Retirable(e', multiset{o});
    assert o in before && o !in after;
    assert before == after + {o};
  }

  lemma TakeLeft(s: Sys)
    requires Inv(s) && s.phase.Wait? && s.e.cq != []
    ensures Left(TakeNext(s)) + 1 <= Left(s)
  {
    var c := s.e.cq[0];
    if c.SingleCqe? {
      CqAtLeast(s.e.cq, 0);
      Located(s.e, multiset{}, s.lost, c.op);
      if c.res >= 0 {
        TakeSingleGives(s);
        TakeSingleLeft(s, TakeNext(s).e, c);
      }
    } else {
      TakeMultiLeaves(s);
    }
  }

  lemma TakeMultiLeaves(s: Sys)
    requires Inv(s) && s.phase.Wait? && s.e.cq != [] && s.e.cq[0].MultiCqe?
    ensures Left(TakeNext(s)) == 0
  {
    var c := s.e.cq[0];
    assert IsMulti(s.e, c.op) && CqeOk(s.e, c);
    if c.buf.None? {
      TakePlainGives(s);
    } else {
      TakeBufferGives(s);
    }
  }

  lemma RetireLeft(s: Sys, o: nat)
    requires Inv(s) && s.phase == Got(o)
    ensures Left(Dispatch(s, o)) <= Left(s)
  {
    if s.e.At(o).opType != TunRead {
      assert o in multiset{o};
      Located(s.e, multiset{o}, s.lost, o);
      FreeFrame(s.e, o);
      var e' := Free(s.e, o).0;
      forall p: nat
        ensures p in Retirable(e', multiset{}) ==> p in Retirable(s.e, multiset{o})
      {
        assert p != o ==> (InUse(e', p) <==> InUse(s.e, p));
      }
      SubsetSize(Retirable(e', multiset{}), Retirable(s.e, multiset{o}));
    }
  }

  lemma SubsetSize(a: set<nat>, b: set<nat>)
    requires a <= b
    ensures |a| <= |b|
  {
    assert b == a + (b - a);
  }

  lemma KernelLeft(s: Sys, l: Label)
    requires IsKernel(l)
    ensures Left(KernelStep(s, l)) == Left(s)
  {
    var s' := KernelStep(s, l);
    assert s'.e.ops == s.e.ops && s'.e.freeOps == s.e.freeOps;
    assert forall hand :: Retirable(s'.e, hand) == Retirable(s.e, hand);
  }

  lemma StepLeft(s: Sys, l: Label)
    requires Inv(s) && (s.phase.Wait? || s.phase.Got?)
    ensures Left(Step(s, l)) + (if l.Next? && s.phase.Wait? && s.e.cq != [] then 1 else 0) <= Left(s)
  {
    if IsKernel(l) {
      KernelLeft(s, l);
    } else if l.Next? {
      StepOfNext(s, l);
      if s.phase.Wait? && s.e.cq != [] { TakeLeft(s); }
    } else if l.Act? && s.phase.Got? {
      StepAtGot(s, l);
      RetireLeft(s, s.phase.op);
    } else {
      IdleLeft(s, l);
    }
  }

  lemma IdleLeft(s: Sys, l: Label)
    requires s.phase.Wait? || s.phase.Got?
    requires !IsKernel(l) && !l.Next? && !(l.Act? && s.phase.Got?)
    ensures Left(Step(s, l)) <= Left(s)
  {
  }

  lemma {:induction false} TurnsBounded(s: Sys, ls: seq<Label>)
    requires Inv(s) && InLoop(s, ls)
    ensures Turns(s, ls) <= Left(s)
    decreases |ls|
  {
    if ls != [] {
      StepKeeps(s, ls[0]);
      StepLeft(s, ls[0]);
      TurnsBounded(Step(s, ls[0]), ls[1..]);
    }
  }

  /**
    A call of wait_for_recv gets at most one completion more than there are sends and writes in
    flight or completed when it is entered, whatever the kernel does meanwhile.
   */
  lemma WaitBounded(nOps: nat, nRing: nat, peers: map<int, Addr>, before: seq<Label>, ls: seq<Label>)
    requires var s := Exec(Initial(nOps, nRing, peers), before); s.phase.Wait? && InLoop(s, ls)
    ensures var s := Exec(Initial(nOps, nRing, peers), before); Turns(s, ls) <= |Retirable(s.e, multiset{})| + 1
  {
    InitialInv(nOps, nRing, peers);
    ExecKeeps(Initial(nOps, nRing, peers), before);
    TurnsBounded(Exec(Initial(nOps, nRing, peers), before), ls);
  }

  // ---------------------------------------------------------------- peer pinning

  /** Every submitted datagram on `fd` from position `k` of the trace on goes to `a`. */
  ghost predicate AllTo(tr: seq<Event>, k: nat, fd: int, a: Addr) {
    forall i | k <= i < |tr| && tr[i].Submit? && tr[i].m.ToPeer? && tr[i].m.fd == fd :: tr[i].m.dest == a
  }

  lemma HandlePins(s: Sys, o: nat, plain: bool, coded: Option<Bytes>, fd: int)
    requires PeerOf(s.peers, fd) != []
    ensures PeerOf(Handle(s, o, plain, coded).peers, fd) == PeerOf(s.peers, fd)
    ensures Handle(s, o, plain, coded).trace == s.trace
  {
  }

  lemma TransmitPins(s: Sys, r: Option<nat>, n: nat, out: Outcome, fd: int)
    ensures Transmit(s, r, n, out).peers == s.peers
    ensures s.trace <= Transmit(s, r, n, out).trace && AllTo(Transmit(s, r, n, out).trace, |s.trace|, fd, PeerOf(s.peers, fd))
  {
  }

  lemma ActPins(s: Sys, l: Label, fd: int)
    requires l.Act? && !s.phase.Send? && !s.phase.Back?
    ensures Pinned(s, Step(s, l), fd)
  {
    assert Step(s, l).peers == s.peers && Step(s, l).trace == s.trace;
  }

  lemma KernelPins(s: Sys, l: Label, fd: int)
    requires IsKernel(l)
    ensures s.trace <= KernelStep(s, l).trace && AllTo(KernelStep(s, l).trace, |s.trace|, fd, PeerOf(s.peers, fd))
  {
  }

  lemma NextPins(s: Sys, fd: int)
    requires s.e.cq != []
    ensures s.trace <= TakeNext(s).trace && AllTo(TakeNext(s).trace, |s.trace|, fd, PeerOf(s.peers, fd))
  {
  }

  /** The step to `s'` keeps the peer of socket `fd`, and what it submits on the socket goes there. */
  ghost predicate Pinned(s: Sys, s': Sys, fd: int) {
    && PeerOf(s'.peers, fd) == PeerOf(s.peers, fd) && s.trace <= s'.trace
    && AllTo(s'.trace, |s.trace|, fd, PeerOf(s.peers, fd))
  }

  lemma OtherPins(s: Sys, l: Label, fd: int)
    requires !l.Act?
    ensures Pinned(s, Step(s, l), fd)
  {
    if IsKernel(l) {
      KernelPins(s, l, fd);
    } else if l.Next? && s.e.cq != [] {
      NextPins(s, fd);
    }
  }

  lemma BackPins(s: Sys, l: Label, fd: int)
    requires PeerOf(s.peers, fd) != [] && s.phase.Back? && l.Act?
    ensures Pinned(s, Step(s, l), fd)
  {
    StepAtBack(s, l);
    HandlePins(s, s.phase.op, l.plain, l.coded, fd);
  }

  lemma SendPins(s: Sys, l: Label, fd: int)
    requires s.phase.Send? && l.Act?
    ensures Pinned(s, Step(s, l), fd)
  {
    StepAtSend(s, l);
    TransmitPins(s, s.phase.recv, s.phase.out, l.out, fd);
  }

  lemma StepPins(s: Sys, l: Label, fd: int)
    requires PeerOf(s.peers, fd) != []
    ensures Pinned(s, Step(s, l), fd)
  {
    if !l.Act? {
      OtherPins(s, l, fd);
    } else if s.phase.Back? {
      BackPins(s, l, fd);
    } else if s.phase.Send? {
      SendPins(s, l, fd);
    } else {
      ActPins(s, l, fd);
    }
  }

  /**
    Once a connection has an address, it keeps it over every continuation of the program, from the
    handshake through the event loop, and every datagram submitted on its socket goes there.
   */
  lemma {:induction false} PeerPinned(s: Sys, ls: seq<Label>, fd: int)
    requires PeerOf(s.peers, fd) != []
    ensures PeerOf(Exec(s, ls).peers, fd) == PeerOf(s.peers, fd) && s.trace <= Exec(s, ls).trace
    ensures AllTo(Exec(s, ls).trace, |s.trace|, fd, PeerOf(s.peers, fd))
    decreases |ls|
  {
    if ls != [] {
      StepPins(s, ls[0], fd);
      PeerPinned(Step(s, ls[0]), ls[1..], fd);
      PinnedChain(s.trace, Step(s, ls[0]).trace, Exec(s, ls).trace, fd, PeerOf(s.peers, fd));
    }
  }

  lemma PinnedChain(t0: seq<Event>, t1: seq<Event>, t2: seq<Event>, fd: int, a: Addr)
    requires t0 <= t1 <= t2 && AllTo(t1, |t0|, fd, a) && AllTo(t2, |t1|, fd, a)
    ensures t0 <= t2 && AllTo(t2, |t0|, fd, a)
  {
    forall i | |t0| <= i < |t2| && t2[i].Submit? && t2[i].m.ToPeer? && t2[i].m.fd == fd
      ensures t2[i].m.dest == a
    {
      if i < |t1| {
        assert t2[i] == t1[i];
      }
    }
  }

  // ---------------------------------------------------------------- the handshake sees datagrams only

  ghost predicate NoReadsInHandshake(s: Sys) { s.mode.Handshake? ==> s.tunReads == 0 }

  lemma ActKeepsMode(s: Sys, l: Label)
    requires l.Act?
    ensures Step(s, l).mode == s.mode && Step(s, l).tunReads == s.tunReads
  {
  }

  lemma {:induction false} HandshakeReads(s: Sys, ls: seq<Label>)
    requires NoReadsInHandshake(s)
    ensures NoReadsInHandshake(Exec(s, ls))
    decreases |ls|
  {
    if ls != [] {
      if ls[0].Act? {
        ActKeepsMode(s, ls[0]);
      }
      HandshakeReads(Step(s, ls[0]), ls[1..]);
    }
  }

  /** The handshake driver's assertion that it received a datagram, with an address, never fails. */
  lemma HandshakeGetsDatagrams(nOps: nat, nRing: nat, peers: map<int, Addr>, ls: seq<Label>)
    requires var s := Exec(Initial(nOps, nRing, peers), ls); s.mode.Handshake? && s.phase.Back?
    ensures var s := Exec(Initial(nOps, nRing, peers), ls);
      s.e.At(s.phase.op).opType == UdpRecv && s.e.At(s.phase.op).addr != []
  {
    InitialInv(nOps, nRing, peers);
    ExecKeeps(Initial(nOps, nRing, peers), ls);
    HandshakeReads(Initial(nOps, nRing, peers), ls);
    var s := Exec(Initial(nOps, nRing, peers), ls);
    assert ShapeOk(s.e.ops[s.phase.op]);
  }
}
