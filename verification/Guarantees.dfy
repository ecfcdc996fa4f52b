/** What holds in every run, for every pool size, ring size, program and kernel schedule. */
module Guarantees {
  import opened Base
  import opened Engine
  import opened Machine
  import opened Ownership
  import opened OwnershipSteps
  import opened Invariant
  import opened InvariantSteps
  import opened Exclusive
  import opened Counting
  import opened WaitSteps

  /** The state after a run from start-up. */
  ghost function After(nOps: nat, nRing: nat, peers: map<int, Addr>, ls: seq<Label>): Sys {
    Exec(Initial(nOps, nRing, peers), ls)
  }

  lemma Reached(nOps: nat, nRing: nat, peers: map<int, Addr>, ls: seq<Label>)
    ensures Inv(After(nOps, nRing, peers, ls))
    ensures var e := After(nOps, nRing, peers, ls).e; |e.ops| == nOps == |e.poolMem| && |e.slots| == nRing
  {
    InitialInv(nOps, nRing, peers);
    ExecKeeps(Initial(nOps, nRing, peers), ls);
    ExecSizes(Initial(nOps, nRing, peers), ls);
  }

  ghost predicate SameSizes(e: Engine, e': Engine) { |e'.ops| == |e.ops| && |e'.slots| == |e.slots| }

  lemma AllocSizes(e: Engine, t: OpType, fd: int, isMulti: bool, owner: Option<nat>)
    ensures SameSizes(e, AllocBuf(e, t, fd, isMulti, owner).0)
  {
  }

  lemma FreeSizes(e: Engine)
    ensures forall o: nat :: SameSizes(e, Free(e, o).0)
  {
  }

  lemma RelaySizes(s: Sys, o: nat, t: OpType, fd: int)
    ensures SameSizes(s.e, Relay(s, o, t, fd).e)
  {
    AllocSizes(s.e, t, fd, false, Some(o));
  }

  lemma RecodeSizes(s: Sys, o: nat, t: OpType, fd: int, coded: Option<Bytes>)
    ensures SameSizes(s.e, Recode(s, o, t, fd, coded).e)
  {
    AllocSizes(s.e, t, fd, false, None);
    FreeSizes(AllocBuf(s.e, t, fd, false, None).0);
  }

  lemma HandleSizes(s: Sys, o: nat, plain: bool, coded: Option<Bytes>)
    ensures SameSizes(s.e, Handle(s, o, plain, coded).e)
  {
    match s.mode
    case Zero(tunFd, udpFd) =>
      RelaySizes(s, o, UdpSend, udpFd);
      RelaySizes(s.(peers := Pin(s.peers, udpFd, s.e.At(o).addr)), o, TunWrite, tunFd);
    case Dtls(tunFd, udpFd) =>
      RecodeSizes(s, o, UdpSend, udpFd, coded);
      RecodeSizes(s, o, TunWrite, tunFd, coded);
    case Forward(inFd, outFd) =>
      RecodeSizes(s, o, UdpSend, if s.e.At(o).fd == inFd then outFd else inFd, coded);
    case _ =>
  }

  lemma TransmitSizes(s: Sys, r: Option<nat>, n: nat, out: Outcome)
    ensures SameSizes(s.e, Transmit(s, r, n, out).e)
  {
    var dest := if s.e.At(n).opType == UdpSend then PeerOf(s.peers, s.e.At(n).fd) else [];
    FreeSizes(SubmitOut(s.e, n, dest, out).0);
  }

  lemma ActSizes(s: Sys, l: Label)
    requires l.Act?
    ensures SameSizes(s.e, Step(s, l).e)
  {
    match s.phase {
      case Got(o) =>
        StepAtGot(s, l);
        FreeSizes(s.e);
        AllocSizes(s.e, s.e.At(o).opType, s.e.At(o).fd, false, None);
      case Back(o) => StepAtBack(s, l); HandleSizes(s, o, l.plain, l.coded);
      case Send(r, n) => StepAtSend(s, l); TransmitSizes(s, r, n, l.out);
      case _ => RestSizes(s, l);
    }
  }

  lemma RestSizes(s: Sys, l: Label)
    requires l.Act? && !s.phase.Got? && !s.phase.Back? && !s.phase.Send?
    ensures SameSizes(s.e, Step(s, l).e)
  {
    FreeSizes(s.e);
    match s.phase {
      case Resub(_, _) => StepAtResub(s, l);
      case Rearm(_) => StepAtRearm(s, l);
      case Done(_, _) => StepAtDone(s, l);
      case Bail(_, _) => StepAtBail(s, l);
      case _ =>
    }
  }

  lemma FirstReadSizes(s: Sys, fd: int, out: Outcome)
    ensures SameSizes(s.e, FirstRead(s, fd, out).e)
  {
    AllocSizes(s.e, TunRead, fd, false, None);
    var (e1, n) := AllocBuf(s.e, TunRead, fd, false, None);
    if n.Some? {
      FreeSizes(SubmitRead(e1, n.value, out).0);
    }
  }

  lemma StartSizes(s: Sys, l: Label)
    requires l.ArmUdp? || l.StartRead? || l.Flight?
    ensures SameSizes(s.e, Step(s, l).e)
  {
    if l.ArmUdp? {
      AllocSizes(s.e, UdpRecv, l.fd, true, None);
    } else if l.StartRead? {
      FirstReadSizes(s, l.fd, l.out);
    } else if s.mode.Handshake? {
      AllocSizes(s.e, UdpSend, s.mode.fd, false, None);
    }
  }

  lemma StepSizes(s: Sys, l: Label)
    ensures SameSizes(s.e, Step(s, l).e)
  {
    if l.Act? {
      ActSizes(s, l);
    } else if l.ArmUdp? || l.StartRead? || l.Flight? {
      StartSizes(s, l);
    } else if l.Next? {
      NextSizes(s);
    }
  }

  lemma NextSizes(s: Sys)
    ensures SameSizes(s.e, Step(s, Next).e)
  {
    if s.e.cq != [] {
      var c := s.e.cq[0];
      var e1 := s.e.(cq := s.e.cq[1..]).Set(c.op, s.e.At(c.op).(dataLen := c.res));
      assert SameSizes(s.e, e1);
      DecodeSizes(e1, c.op, if c.MultiCqe? then c.buf else None);
    }
  }

  lemma DecodeSizes(e: Engine, o: nat, buf: Option<nat>)
    ensures SameSizes(e, Decode(e, o, buf).0)
  {
  }

  lemma {:induction false} ExecSizes(s: Sys, ls: seq<Label>)
    ensures |Exec(s, ls).e.ops| == |s.e.ops| && |Exec(s, ls).e.slots| == |s.e.slots|
    decreases |ls|
  {
    if ls != [] {
      StepSizes(s, ls[0]);
      ExecSizes(Step(s, ls[0]), ls[1..]);
    }
  }

  // ---------------------------------------------------------------- ownership

  /** At a loop head every operation is in exactly one place, and so is every pool buffer. */
  lemma EverythingHasOnePlace(nOps: nat, nRing: nat, peers: map<int, Addr>, ls: seq<Label>, x: nat)
    requires x < nOps && After(nOps, nRing, peers, ls).phase.Top?
    ensures var e := After(nOps, nRing, peers, ls).e;
      && Occ(e.freeOps, x) + (if x in e.inflight then 1 else 0) + CqOps(e.cq, x) + (if IsMulti(e, x) then 1 else 0) == 1
      && Occ(e.freeBufs, x) + Owners(true, e.ops, e.freeOps, |e.ops|, x) == 1
  {
    Reached(nOps, nRing, peers, ls);
    var e := After(nOps, nRing, peers, ls).e;
    assert OpPlaces(e, multiset{}, x) == 1;
    assert PoolPlaces(e, x) == 1;
  }

  /** Ring buffer `i` is in the ring, in one unseen completion, or owned by one single-shot operation that is in flight or completed. */
  ghost predicate RingPlaced(e: Engine, i: nat) {
    && Occ(e.ring, i) + CqBufs(e.cq, i) + Owners(false, e.ops, e.freeOps, |e.ops|, i) == 1
    && forall o: nat | InUse(e, o) && e.At(o).bufIdx == i :: !e.At(o).isMulti && (o in e.inflight || CqOps(e.cq, o) == 1)
  }

  lemma PlacedWithoutDrops(s: Sys, i: nat)
    requires Inv(s) && s.phase.Top? && s.drops == 0 && i < |s.e.slots|
    ensures RingPlaced(s.e, i)
  {
    assert RingPlaces(s.e, i) + s.lost[i] == 1;
    assert s.lost == multiset{};
    assert s.still == map[];
    forall o: nat | InUse(s.e, o) && s.e.At(o).bufIdx == i
      ensures !s.e.At(o).isMulti && (o in s.e.inflight || CqOps(s.e.cq, o) == 1)
    {
      Located(s.e, multiset{}, s.lost, o);
      assert OpPlaces(s.e, multiset{}, o) == 1;
    }
  }

  /** After a drop, some ring buffer is lost, or kept by the operation that received the dropped datagram. */
  lemma MisplacedAfterDrop(s: Sys) returns (i: nat)
    requires Inv(s) && s.phase.Top? && s.drops > 0
    ensures i < |s.e.slots| && !RingPlaced(s.e, i)
  {
    if s.lost != multiset{} {
      i :| i in s.lost;
      assert RingPlaces(s.e, i) + s.lost[i] == One(i, |s.e.slots|);
    } else {
      assert s.still.Keys != {};
      var o :| o in s.still;
      assert IsMulti(s.e, o);
      i := s.still[o];
      HeldNotOffered(s.e, multiset{}, s.lost, o);
      assert InUse(s.e, o) && s.e.At(o).bufIdx == i;
    }
  }

  /** At a loop head every ring buffer is in its place if and only if no handshake datagram was ever dropped. */
  lemma RingBuffersConserved(nOps: nat, nRing: nat, peers: map<int, Addr>, ls: seq<Label>)
    requires After(nOps, nRing, peers, ls).phase.Top?
    ensures var s := After(nOps, nRing, peers, ls);
      (forall i: nat | i < nRing :: RingPlaced(s.e, i)) <==> s.drops == 0
  {
    Reached(nOps, nRing, peers, ls);
    var s := After(nOps, nRing, peers, ls);
    if s.drops == 0 {
      forall i: nat | i < nRing
        ensures RingPlaced(s.e, i)
      {
        PlacedWithoutDrops(s, i);
      }
    } else {
      var i := MisplacedAfterDrop(s);
    }
  }

  /** The operations in use that own ring buffer `i`: single-shot ones, and multishot ones after a drop. */
  ghost function RidersOf(e: Engine, i: nat): set<nat> {
    set o: nat | o < |e.ops| && o !in e.freeOps && !e.ops[o].isMulti && e.ops[o].bufIdx == i
  }

  ghost function KeepersOf(still: map<nat, nat>, i: nat): set<nat> { set o | o in still && still[o] == i }

  ghost function OwnersBelow(e: Engine, k: nat, i: nat): set<nat>
    requires k <= |e.ops|
  {
    set o: nat | o < k && o !in e.freeOps && e.ops[o].bufIdx == i
  }

  lemma {:induction false} OwnersAreMembers(e: Engine, k: nat, i: nat)
    requires k <= |e.ops|
    ensures Owners(false, e.ops, e.freeOps, k, i) == |OwnersBelow(e, k, i)|
  {
    if k == 0 {
      assert OwnersBelow(e, 0, i) == {};
    } else {
      OwnersAreMembers(e, k - 1, i);
      assert OwnersBelow(e, k, i) ==
        if k - 1 !in e.freeOps && e.ops[k - 1].bufIdx == i then OwnersBelow(e, k - 1, i) + {k - 1} else OwnersBelow(e, k - 1, i);
    }
  }

  lemma OwnersAreRidersAndKeepers(e: Engine, ph: Phase, still: map<nat, nat>, i: nat)
    requires Idle(e, ph, still) && Current(ph) == None
    ensures |OwnersBelow(e, |e.ops|, i)| == |RidersOf(e, i)| + |KeepersOf(still, i)|
  {
    var riders, keepers := RidersOf(e, i), KeepersOf(still, i);
    forall o: nat
      ensures o in OwnersBelow(e, |e.ops|, i) <==> o in riders + keepers
      ensures !(o in riders && o in keepers)
    {
      if o in keepers {
        assert IsMulti(e, o);
      } else if InUse(e, o) && e.ops[o].isMulti {
        assert IsMulti(e, o);
      }
    }
    assert OwnersBelow(e, |e.ops|, i) == riders + keepers;
    assert riders !! keepers;
  }

  /**
    At every loop head, also after drops, ring buffer `i` is in exactly one place: the ring, a
    completion, a single-shot operation, a multishot operation that kept it, or lost.
   */
  lemma RingAccounted(nOps: nat, nRing: nat, peers: map<int, Addr>, ls: seq<Label>, i: nat)
    requires i < nRing && After(nOps, nRing, peers, ls).phase.Top?
    ensures var s := After(nOps, nRing, peers, ls);
      Occ(s.e.ring, i) + CqBufs(s.e.cq, i) + |RidersOf(s.e, i)| + |KeepersOf(s.still, i)| + s.lost[i] == 1
  {
    Reached(nOps, nRing, peers, ls);
    var s := After(nOps, nRing, peers, ls);
    assert RingPlaces(s.e, i) + s.lost[i] == 1;
    OwnersAreMembers(s.e, |s.e.ops|, i);
    OwnersAreRidersAndKeepers(s.e, s.phase, s.still, i);
  }

  /** In every state, two requests with the kernel use different memory. */
  lemma NoSharedMemory(nOps: nat, nRing: nat, peers: map<int, Addr>, ls: seq<Label>, o: nat, p: nat)
    requires var e := After(nOps, nRing, peers, ls).e; o in e.inflight && p in e.inflight && o != p
    ensures var e := After(nOps, nRing, peers, ls).e; e.inflight[o].loc != e.inflight[p].loc
  {
    Reached(nOps, nRing, peers, ls);
    var s := After(nOps, nRing, peers, ls);
    var hand := Hand(s.e, s.phase);
    Located(s.e, hand, s.lost, o);
    Located(s.e, hand, s.lost, p);
    assert SqeOk(s.e.At(o), s.e.inflight[o]) && SqeOk(s.e.At(p), s.e.inflight[p]);
    assert ShapeOk(s.e.ops[o]) && ShapeOk(s.e.ops[p]);
    TwoOwners(s.e, hand, s.lost, o, p);
  }

  /**
    In every state, the memory of a request is a buffer that nobody else may hand out or fill: not
    in the free list, not offered in the ring, and not named by a completion.
   */
  lemma RequestOwnsMemory(nOps: nat, nRing: nat, peers: map<int, Addr>, ls: seq<Label>, o: nat)
    requires o in After(nOps, nRing, peers, ls).e.inflight
    ensures var e := After(nOps, nRing, peers, ls).e;
      && e.inflight[o].loc != NoBuffer
      && (forall b: nat | b in e.freeBufs :: e.inflight[o].loc != PoolBuffer(b))
      && (forall i: nat | i in e.ring || CqBufs(e.cq, i) > 0 :: e.inflight[o].loc != RingBuffer(i))
  {
    Reached(nOps, nRing, peers, ls);
    var s := After(nOps, nRing, peers, ls);
    var hand := Hand(s.e, s.phase);
    Located(s.e, hand, s.lost, o);
    assert SqeOk(s.e.At(o), s.e.inflight[o]) && ShapeOk(s.e.ops[o]);
    if s.e.At(o).bufAddr.Some? {
      FreeBufUnowned(s.e, hand, s.lost, o);
    } else {
      HeldNotOffered(s.e, hand, s.lost, o);
    }
  }

  /** The assertions in `iouring_recycle_buffer` and `io_op_free` never fail. */
  lemma AssertionsHold(nOps: nat, nRing: nat, peers: map<int, Addr>, ls: seq<Label>, o: nat)
    requires InUse(After(nOps, nRing, peers, ls).e, o)
    ensures var op := After(nOps, nRing, peers, ls).e.At(o);
      && (op.bufIdx >= 0 ==> op.bufAddr == None)
      && (!op.isMulti ==> op.bufAddr == None || op.bufIdx == -1)
  {
    Reached(nOps, nRing, peers, ls);
    assert ShapeOk(After(nOps, nRing, peers, ls).e.ops[o]);
  }

  /**
    Every datagram that a program gets is shorter than the buffers it is decrypted into, and has an
    address: the assertions of `dtls_decrypt_packet` and of the loops that fix the peer.
   */
  lemma DatagramsFit(nOps: nat, nRing: nat, peers: map<int, Addr>, ls: seq<Label>)
    requires After(nOps, nRing, peers, ls).phase.Back?
    ensures var s := After(nOps, nRing, peers, ls);
      var op := s.e.At(s.phase.op);
      op.opType == UdpRecv ==> 0 < op.dataLen <= 1456 < BUF_SIZE && op.addr != []
  {
    Reached(nOps, nRing, peers, ls);
  }

  // ---------------------------------------------------------------- counting

  /** Multishot operations in use, and writes in use that ride on a ring buffer. */
  ghost function MultiSet(e: Engine): set<nat> { set o: nat | o < |e.ops| && IsMulti(e, o) }

  ghost function Riders(e: Engine): set<nat> {
    set o: nat | o < |e.ops| && o !in e.freeOps && !e.ops[o].isMulti && e.ops[o].bufIdx >= 0
  }

  /** At a loop head, free buffers minus free operations is multishot operations plus riders. */
  lemma ExactCount(nOps: nat, nRing: nat, peers: map<int, Addr>, ls: seq<Label>)
    requires After(nOps, nRing, peers, ls).phase.Top?
    ensures var e := After(nOps, nRing, peers, ls).e;
      |e.freeBufs| == |e.freeOps| + |MultiSet(e)| + |Riders(e)|
  {
    Reached(nOps, nRing, peers, ls);
    var s := After(nOps, nRing, peers, ls);
    FreeBuffersExceedFreeOps(s.e, multiset{}, s.lost);
    BufferlessKinds(s.e, s.lost);
  }

  /** At a loop head an operation without a pool buffer is multishot or rides on a ring buffer. */
  lemma BufferlessKinds(e: Engine, lost: multiset<nat>)
    requires Own(e, multiset{}, lost) && Singles(e)
    ensures |Bufferless(e)| == |MultiSet(e)| + |Riders(e)|
  {
    forall o: nat
      ensures o in Bufferless(e) <==> o in MultiSet(e) + Riders(e)
    {
      BufferlessKind(e, lost, o);
    }
    assert Bufferless(e) == MultiSet(e) + Riders(e);
    assert MultiSet(e) !! Riders(e);
  }

  lemma BufferlessKind(e: Engine, lost: multiset<nat>, o: nat)
    requires Own(e, multiset{}, lost) && Singles(e)
    ensures o in Bufferless(e) <==> o in MultiSet(e) || o in Riders(e)
  {
    Located(e, multiset{}, lost, o);
    if o < |e.ops| && o !in e.freeOps {
      assert ShapeOk(e.ops[o]);
      if CqOps(e.cq, o) > 0 {
        CompletedReady(e, e.cq, o);
      } else if o in e.inflight {
        assert SqeOk(e.At(o), e.inflight[o]);
      }
    }
  }

  lemma {:induction false} CompletedReady(e: Engine, cq: seq<Cqe>, o: nat)
    requires CqOps(cq, o) > 0 && forall j | 0 <= j < |cq| :: CqeOk(e, cq[j])
    ensures Ready(e.At(o))
  {
    assert CqeOk(e, cq[0]);
    if !(cq[0].SingleCqe? && cq[0].op == o) {
      forall j | 0 <= j < |cq[1..]|
        ensures CqeOk(e, cq[1..][j])
      {
        assert cq[1..][j] == cq[j + 1];
      }
      CompletedReady(e, cq[1..], o);
    }
  }

  /** In every state allocation of every kind, also with an owner, fails exactly when no operation is free. */
  lemma AllocationFailsOnlyWithoutOps(nOps: nat, nRing: nat, peers: map<int, Addr>, ls: seq<Label>,
                                      t: OpType, fd: int, isMulti: bool, owner: Option<nat>)
    ensures var e := After(nOps, nRing, peers, ls).e;
      AllocBuf(e, t, fd, isMulti, owner).1 == if e.freeOps == [] then None else Some(e.freeOps[0])
  {
    Reached(nOps, nRing, peers, ls);
    var s := After(nOps, nRing, peers, ls);
    BufferNeverExhausted(s.e, Hand(s.e, s.phase), s.lost, t, fd, isMulti, owner);
  }

  // ---------------------------------------------------------------- receiving goes on

  /**
    Whenever wait_for_recv returns an operation, each socket has exactly one multishot request that
    is active or whose end the program has not seen, and as many TUN reads are outstanding as were
    submitted at start-up.
   */
  lemma ReceiveStaysArmed(nOps: nat, nRing: nat, peers: map<int, Addr>, ls: seq<Label>, fd: int)
    requires After(nOps, nRing, peers, ls).phase.Back? && fd in After(nOps, nRing, peers, ls).udp
    ensures var s := After(nOps, nRing, peers, ls);
      var o := s.udp[fd];
      && IsMulti(s.e, o) && s.e.At(o).fd == fd
      && (forall p: nat | IsMulti(s.e, p) && s.e.At(p).fd == fd :: p == o)
      && (if o in s.e.armed then 1 else 0) + Finals(s.e.cq, o) == 1
      && |Outstanding(s.e, Hand(s.e, s.phase))| == s.tunReads
      && (forall r | r in Outstanding(s.e, Hand(s.e, s.phase)) :: r in s.e.inflight || CqOps(s.e.cq, r) > 0)
  {
    Reached(nOps, nRing, peers, ls);
    var s := After(nOps, nRing, peers, ls);
    assert Activity(s.e, s.phase, s.udp[fd]) == 1;
    forall r | r in Outstanding(s.e, Hand(s.e, s.phase))
      ensures r in s.e.inflight || CqOps(s.e.cq, r) > 0
    {
      Located(s.e, Hand(s.e, s.phase), s.lost, r);
    }
  }

  /** While the program goes on, no filled submission entry is left behind. */
  lemma NoStaleEntry(nOps: nat, nRing: nat, peers: map<int, Addr>, ls: seq<Label>)
    requires Continuing(After(nOps, nRing, peers, ls).phase)
    ensures After(nOps, nRing, peers, ls).e.stale == []
  {
    Reached(nOps, nRing, peers, ls);
  }

  // ---------------------------------------------------------------- failures and shutdown

  /**
    After any failure of a forwarding function, the single following io_op_free leaves nothing in
    hand: every pool buffer is in one place and every ring buffer in one place or lost before.
   */
  lemma FailuresConserve(nOps: nat, nRing: nat, peers: map<int, Addr>, ls: seq<Label>, l: Label, x: nat)
    requires var s := After(nOps, nRing, peers, ls);
      s.phase.Done? && !s.phase.ok && !s.mode.Forward? && l.Act?
    ensures var s, s' := After(nOps, nRing, peers, ls), Step(After(nOps, nRing, peers, ls), l);
      && s'.phase.Stopped? && s'.phase.held == multiset{} && s'.lost == s.lost
      && (x < nOps ==> PoolPlaces(s'.e, x) == 1 && OpPlaces(s'.e, multiset{}, x) == 1)
      && (x < nRing ==> RingPlaces(s'.e, x) + s.lost[x] == 1)
  {
    Reached(nOps, nRing, peers, ls);
    var s := After(nOps, nRing, peers, ls);
    StepAtDone(s, l);
    StepKeeps(s, l);
    StepSizes(s, l);
    AfterFailure(s, Finish(s, s.phase.op, s.phase.ok), x);
  }

  lemma AfterFailure(s: Sys, s': Sys, x: nat)
    requires Inv(s) && Inv(s') && s.phase.Done? && !s.phase.ok && !s.mode.Forward?
    requires s' == Finish(s, s.phase.op, s.phase.ok) && |s'.e.ops| == |s.e.ops| && |s'.e.slots| == |s.e.slots|
    ensures s'.phase.Stopped? && s'.phase.held == multiset{} && s'.lost == s.lost
    ensures x < |s.e.ops| ==> PoolPlaces(s'.e, x) == 1 && OpPlaces(s'.e, multiset{}, x) == 1
    ensures x < |s.e.slots| ==> RingPlaces(s'.e, x) + s.lost[x] == 1
  {
    assert Hand(s'.e, s'.phase) == multiset{};
  }

  /** What the loop passes to free() is NULL or a multishot operation that cleanup will not free again. */
  lemma ShutdownFreesOnce(nOps: nat, nRing: nat, peers: map<int, Addr>, ls: seq<Label>)
    requires After(nOps, nRing, peers, ls).phase.Stopped?
    ensures var s := After(nOps, nRing, peers, ls);
      && (s.phase.last.Some? ==> s.phase.last.value !in s.e.freeOps && s.e.At(s.phase.last.value).isMulti)
      && (forall x: nat :: Occ(s.e.freeOps, x) <= 1)
      && (forall x: nat :: Occ(s.e.freeBufs, x) <= 1)
  {
    Reached(nOps, nRing, peers, ls);
    var s := After(nOps, nRing, peers, ls);
    forall x: nat
      ensures Occ(s.e.freeOps, x) <= 1 && Occ(s.e.freeBufs, x) <= 1
    {
      assert OpPlaces(s.e, Hand(s.e, s.phase), x) <= 1;
      assert PoolPlaces(s.e, x) <= 1;
    }
  }

  // ---------------------------------------------------------------- handshake accounting

  /**
    Every dropped datagram cost a ring buffer that is lost, or has an entry in `still`. While the
    program goes on, the entries are the buffers that their operations really keep.
   */
  lemma DropsAccounted(nOps: nat, nRing: nat, peers: map<int, Addr>, ls: seq<Label>)
    ensures var s := After(nOps, nRing, peers, ls);
      && |s.lost| + |s.still| == s.drops && (s.drops == 0 ==> s.lost == multiset{})
      && (Continuing(s.phase) ==> forall o | o in s.still :: IsMulti(s.e, o) && s.e.At(o).bufIdx == s.still[o])
  {
    Reached(nOps, nRing, peers, ls);
    var s := After(nOps, nRing, peers, ls);
    if Continuing(s.phase) {
      KeptReally(s.e, s.phase, s.still);
    }
  }

  lemma KeptReally(e: Engine, ph: Phase, still: map<nat, nat>)
    requires Idle(e, ph, still)
    ensures forall o | o in still :: IsMulti(e, o) && e.At(o).bufIdx == still[o]
  {
  }

  /** The step of `l` picks up a datagram for a multishot operation that kept a buffer after a drop. */
  ghost predicate Overwrites(s: Sys, l: Label) {
    l.Next? && s.phase.Wait? && s.e.cq != [] && s.e.cq[0].MultiCqe? && s.e.cq[0].buf.Some? && s.e.cq[0].op in s.still
  }

  /** The step to `s'` loses the buffer that is overwritten, and no other. */
  ghost predicate LosesExactly(s: Sys, l: Label, s': Sys) {
    if Overwrites(s, l) then s'.lost == s.lost + multiset{s.still[s.e.cq[0].op]} && s'.still == s.still - {s.e.cq[0].op}
    else s'.lost == s.lost
  }

  /** A ring buffer is lost exactly when the operation that kept it after a drop completes again with another. */
  lemma LostOnlyAfterDrop(nOps: nat, nRing: nat, peers: map<int, Addr>, ls: seq<Label>, l: Label)
    ensures LosesExactly(After(nOps, nRing, peers, ls), l, Step(After(nOps, nRing, peers, ls), l))
  {
    Reached(nOps, nRing, peers, ls);
    LostStep(After(nOps, nRing, peers, ls), l);
  }

  lemma LostStep(s: Sys, l: Label)
    requires Inv(s)
    ensures LosesExactly(s, l, Step(s, l))
  {
    if l.Next? && s.phase.Wait? && s.e.cq != [] {
      LostNext(s);
    } else {
      LostSame(s, l);
    }
  }

  lemma LostNext(s: Sys)
    requires Inv(s) && s.phase.Wait? && s.e.cq != []
    ensures LosesExactly(s, Next, Step(s, Next))
  {
    assert CqeOk(s.e, s.e.cq[0]);
    if s.e.cq[0].SingleCqe? {
      LostSingle(s);
    } else {
      assert IsMulti(s.e, s.e.cq[0].op);
      if s.e.cq[0].buf.Some? {
        TakeBufferGives(s);
      } else {
        TakePlainGives(s);
      }
    }
  }

  lemma LostSingle(s: Sys)
    requires s.e.cq != [] && s.e.cq[0].SingleCqe?
    ensures TakeNext(s).lost == s.lost
  {
  }

  lemma LostSame(s: Sys, l: Label)
    requires !(l.Next? && s.phase.Wait? && s.e.cq != [])
    ensures LosesExactly(s, l, Step(s, l))
  {
    if l.Act? {
      LostAct(s, l);
    }
  }

  lemma LostAct(s: Sys, l: Label)
    requires l.Act?
    ensures Step(s, l).lost == s.lost
  {
  }
}
