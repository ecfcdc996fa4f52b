/** Reads stay on the device they were submitted for at start-up, in every run. */
module Devices {
  import opened Base
  import opened Engine
  import opened Machine
  import opened Ownership
  import opened OwnershipSteps
  import opened Invariant
  import opened InvariantSteps
  import opened EngineFrames
  import opened CopyRelay
  import opened LoopSteps
  import opened RelaySteps
  import opened Guarantees

  // ---------------------------------------------------------------- the engine

  ghost predicate IsReadOp(op: Op) { !op.isMulti && op.opType == TunRead }

  /** The request goes to the socket or device of its operation, and a read asks for BUF_SIZE bytes. */
  ghost predicate Names(op: Op, r: Sqe) {
    r.fd == op.fd && (op.opType == TunRead ==> r.len == BUF_SIZE && r.dest == [])
  }

  /** Every read is on `fd`, whether it is with the kernel, completed or being handled. */
  ghost predicate OnDevice(e: Engine, fd: int) {
    && (forall o: nat | InUse(e, o) && IsReadOp(e.At(o)) :: e.At(o).fd == fd)
    && (forall o | o in e.inflight :: Names(e.At(o), e.inflight[o]))
  }

  /** The operations the program works on are not with the kernel. */
  lemma DeviceFrame(e: Engine, e': Engine, a: nat, b: nat, fd: int, hand: multiset<nat>, lost: multiset<nat>)
    requires Own(e, hand, lost) && OnDevice(e, fd) && SameUse(e, e', a, b) && e'.inflight == e.inflight
    requires forall x | x in {a, b} :: !InUse(e, x) || x in hand || IsMulti(e, x)
    requires forall x | x in {a, b} && InUse(e', x) && IsReadOp(e'.At(x)) :: e'.At(x).fd == fd
    ensures OnDevice(e', fd)
  {
    assert a in {a, b} && b in {a, b};
    forall o | o in e.inflight
      ensures e'.At(o) == e.At(o)
    {
      Located(e, hand, lost, o);
      assert InUse(e, o);
    }
  }

  /** Kinds of operations, and what the kernel holds, are the same or less. */
  lemma SameKinds(e: Engine, e': Engine, fd: int)
    requires OnDevice(e, fd) && e'.freeOps == e.freeOps && |e'.ops| == |e.ops|
    requires forall o: nat :: e'.At(o).fd == e.At(o).fd && e'.At(o).opType == e.At(o).opType && e'.At(o).isMulti == e.At(o).isMulti
    requires forall o | o in e'.inflight :: o in e.inflight && e'.inflight[o] == e.inflight[o]
    ensures OnDevice(e', fd)
  {
  }

  lemma PostDevice(e: Engine, o: nat, r: Sqe, out: Outcome, fd: int)
    requires OnDevice(e, fd) && Names(e.At(o), r)
    ensures OnDevice(Post(e, o, r, out).0, fd)
  {
    assert forall p: nat :: Post(e, o, r, out).0.At(p) == e.At(p);
  }

  lemma FreeDevice(e: Engine, o: nat, fd: int, hand: multiset<nat>, lost: multiset<nat>)
    requires Own(e, hand, lost) && OnDevice(e, fd) && (o in hand || IsMulti(e, o))
    ensures OnDevice(Free(e, o).0, fd)
  {
    Located(e, hand, lost, o);
    FreeFrame(e, o);
    DeviceFrame(e, Free(e, o).0, o, o, fd, hand, lost);
  }

  lemma NewDevice(e: Engine, t: OpType, to: int, fd: int, hand: multiset<nat>, lost: multiset<nat>)
    requires Own(e, hand, lost) && OnDevice(e, fd) && (t == TunRead ==> to == fd)
    ensures OnDevice(AllocBuf(e, t, to, false, None).0, fd)
  {
    AllocNew(e, t, to, hand, lost);
    var (e', r) := AllocBuf(e, t, to, false, None);
    var n := if r.None? then |e.ops| else r.value;
    DeviceFrame(e, e', n, n, fd, hand, lost);
  }

  lemma MoveDevice(e: Engine, t: OpType, to: int, w: nat, fd: int, hand: multiset<nat>, lost: multiset<nat>)
    requires Own(e, hand, lost) && OnDevice(e, fd) && (t == UdpSend || t == TunWrite)
    requires InUse(e, w) && (Loaded(e.At(w)) || ReadDone(e.At(w))) && (w in hand || IsMulti(e, w))
    ensures OnDevice(AllocBuf(e, t, to, false, Some(w)).0, fd)
  {
    AllocMove(e, t, to, w, hand, lost);
    var (e', r) := AllocBuf(e, t, to, false, Some(w));
    if r.Some? {
      DeviceFrame(e, e', r.value, w, fd, hand, lost);
    }
  }

  lemma FilledDevice(e: Engine, t: OpType, to: int, data: Bytes, fd: int, hand: multiset<nat>, lost: multiset<nat>)
    requires Own(e, hand, lost) && OnDevice(e, fd) && (t == UdpSend || t == TunWrite)
    requires AllocBuf(e, t, to, false, None).1.Some?
    ensures var (e1, r) := AllocBuf(e, t, to, false, None); OnDevice(Fill(e1, r.value, data), fd)
  {
    AllocFill(e, t, to, data, hand, lost);
    var (e1, r) := AllocBuf(e, t, to, false, None);
    DeviceFrame(e, Fill(e1, r.value, data), r.value, r.value, fd, hand, lost);
  }

  lemma UndoneDevice(e: Engine, t: OpType, to: int, fd: int, hand: multiset<nat>, lost: multiset<nat>)
    requires Own(e, hand, lost) && OnDevice(e, fd) && (t == UdpSend || t == TunWrite)
    requires AllocBuf(e, t, to, false, None).1.Some?
    ensures var (e1, r) := AllocBuf(e, t, to, false, None); OnDevice(Free(e1, r.value).0, fd)
  {
    NewDevice(e, t, to, fd, hand, lost);
    AllocNew(e, t, to, hand, lost);
    var (e1, r) := AllocBuf(e, t, to, false, None);
    assert r.value in hand + multiset{r.value};
    FreeDevice(e1, r.value, fd, hand + multiset{r.value}, lost);
  }

  // ---------------------------------------------------------------- steps

  lemma TakeDevice(s: Sys, fd: int)
    requires OnDevice(s.e, fd) && s.e.cq != []
    ensures OnDevice(TakeNext(s).e, fd)
  {
    TakeKinds(s.e);
    SameKinds(s.e, TakeNext(s).e, fd);
  }

  lemma TakeKinds(e: Engine)
    requires e.cq != []
    ensures var e' := TakeEngine(e).0;
      && e'.freeOps == e.freeOps && |e'.ops| == |e.ops| && e'.inflight == e.inflight
      && forall o: nat :: e'.At(o).fd == e.At(o).fd && e'.At(o).opType == e.At(o).opType && e'.At(o).isMulti == e.At(o).isMulti
  {
  }

  lemma KernelDevice(s: Sys, l: Label, fd: int)
    requires OnDevice(s.e, fd) && IsKernel(l)
    ensures OnDevice(KernelStep(s, l).e, fd)
  {
    var s' := KernelStep(s, l);
    assert s'.e.ops == s.e.ops && s'.e.freeOps == s.e.freeOps;
    SameKinds(s.e, s'.e, fd);
  }

  lemma DispatchEngine(s: Sys, o: nat)
    requires s.e.At(o).opType != UdpRecv
    ensures Dispatch(s, o).e ==
      if s.e.At(o).opType == TunRead then AllocBuf(s.e, TunRead, s.e.At(o).fd, false, None).0 else Free(s.e, o).0
  {
  }

  lemma GotInHand(s: Sys)
    requires Inv(s) && s.phase.Got?
    ensures var o := s.phase.op;
      && Own(s.e, multiset{o}, s.lost) && InUse(s.e, o) && !s.e.At(o).isMulti && s.e.At(o).opType != UdpRecv
  {
    var o := s.phase.op;
    assert o in multiset{o};
    Located(s.e, multiset{o}, s.lost, o);
  }

  /** The read that replaces a finished one is on the same device. */
  lemma GotDevice(s: Sys, fd: int)
    requires Inv(s) && OnDevice(s.e, fd) && s.phase.Got?
    ensures OnDevice(Dispatch(s, s.phase.op).e, fd)
  {
    var o := s.phase.op;
    GotInHand(s);
    DispatchEngine(s, o);
    if s.e.At(o).opType == TunRead {
      NewDevice(s.e, TunRead, s.e.At(o).fd, fd, multiset{o}, s.lost);
    } else {
      FreeDevice(s.e, o, fd, multiset{o}, s.lost);
    }
  }

  lemma ResubDevice(s: Sys, out: Outcome, fd: int)
    requires OnDevice(s.e, fd) && s.phase.Resub?
    ensures OnDevice(Resubmit(s, s.phase.op, s.phase.next, out).e, fd)
  {
    var n := s.phase.next;
    PostDevice(s.e, n, Sqe(s.e.At(n).fd, s.e.At(n).buffer, BUF_SIZE, []), out, fd);
  }

  lemma RearmDevice(s: Sys, out: Outcome, fd: int)
    requires OnDevice(s.e, fd) && s.phase.Rearm?
    ensures OnDevice(Reactivate(s, s.phase.op, out).e, fd)
  {
    SameKinds(s.e, Reactivate(s, s.phase.op, out).e, fd);
  }

  lemma RecodeDevice(s: Sys, o: nat, t: OpType, to: int, coded: Option<Bytes>, fd: int)
    requires Own(s.e, Holding(s.e, o), s.lost) && OnDevice(s.e, fd) && (t == UdpSend || t == TunWrite)
    ensures OnDevice(Recode(s, o, t, to, coded).e, fd)
  {
    NewDevice(s.e, t, to, fd, Holding(s.e, o), s.lost);
    if AllocBuf(s.e, t, to, false, None).1.Some? {
      UndoneDevice(s.e, t, to, fd, Holding(s.e, o), s.lost);
      if coded.Some? {
        FilledDevice(s.e, t, to, coded.value, fd, Holding(s.e, o), s.lost);
      }
    }
  }

  /** The engine after the zero-copy edge handled a packet. */
  lemma ZeroEngine(s: Sys, o: nat, plain: bool, coded: Option<Bytes>)
    requires s.mode.Zero? && (s.e.At(o).opType == TunRead || s.e.At(o).opType == UdpRecv)
    ensures Handle(s, o, plain, coded).e ==
      if s.e.At(o).opType == TunRead then AllocBuf(s.e, UdpSend, s.mode.udpFd, false, Some(o)).0
      else AllocBuf(s.e, TunWrite, s.mode.tunFd, false, Some(o)).0
  {
  }

  lemma ZeroDevice(s: Sys, plain: bool, coded: Option<Bytes>, fd: int)
    requires Inv(s) && OnDevice(s.e, fd) && s.phase.Back? && s.mode.Zero?
    ensures OnDevice(Handle(s, s.phase.op, plain, coded).e, fd)
  {
    var o := s.phase.op;
    assert ShapeOk(s.e.ops[o]);
    ZeroEngine(s, o, plain, coded);
    if s.e.At(o).opType == TunRead {
      MoveDevice(s.e, UdpSend, s.mode.udpFd, o, fd, Holding(s.e, o), s.lost);
    } else {
      MoveDevice(s.e, TunWrite, s.mode.tunFd, o, fd, Holding(s.e, o), s.lost);
    }
  }

  lemma CodingDevice(s: Sys, plain: bool, coded: Option<Bytes>, fd: int)
    requires Inv(s) && OnDevice(s.e, fd) && s.phase.Back? && Codes(s.mode)
    ensures OnDevice(Handle(s, s.phase.op, plain, coded).e, fd)
  {
    var o := s.phase.op;
    CodedHandle(s, o, plain, coded);
    RecodeDevice(s, o, CodedType(s.mode, s.e.At(o)), CodedFd(s.mode, s.e.At(o)), coded, fd);
  }

  lemma OtherModes(s: Sys, o: nat, plain: bool, coded: Option<Bytes>)
    requires !Relays(s.mode)
    ensures Handle(s, o, plain, coded).e == s.e
  {
  }

  lemma BackDevice(s: Sys, l: Label, fd: int)
    requires Inv(s) && OnDevice(s.e, fd) && s.phase.Back? && l.Act?
    ensures OnDevice(Step(s, l).e, fd)
  {
    StepAtBack(s, l);
    if s.mode.Zero? {
      ZeroDevice(s, l.plain, l.coded, fd);
    } else if Codes(s.mode) {
      CodingDevice(s, l.plain, l.coded, fd);
    } else {
      OtherModes(s, s.phase.op, l.plain, l.coded);
    }
  }

  /** A submission, and the release of an operation that was refused. */
  lemma SubmitDevice(e: Engine, n: nat, dest: Addr, out: Outcome, fd: int, hand: multiset<nat>, lost: multiset<nat>)
    requires Own(e, hand, lost) && OnDevice(e, fd) && n in hand && e.At(n).opType != TunRead
    ensures var (e1, ok) := SubmitOut(e, n, dest, out); OnDevice(e1, fd) && (!ok ==> OnDevice(Free(e1, n).0, fd))
  {
    var op := e.At(n);
    PostDevice(e, n, Sqe(op.fd, op.buffer, op.dataLen, dest), out, fd);
    var (e1, ok) := SubmitOut(e, n, dest, out);
    if !ok {
      SameCounts(e, e1, hand, lost);
      FreeDevice(e1, n, fd, hand, lost);
    }
  }

  lemma TransmitEngine(s: Sys, r: Option<nat>, n: nat, out: Outcome)
    ensures var dest := if s.e.At(n).opType == UdpSend then PeerOf(s.peers, s.e.At(n).fd) else [];
      var (e1, ok) := SubmitOut(s.e, n, dest, out);
      Transmit(s, r, n, out).e == if ok || r.None? then e1 else Free(e1, n).0
  {
  }

  lemma SendDevice(s: Sys, l: Label, fd: int)
    requires Inv(s) && OnDevice(s.e, fd) && s.phase.Send? && l.Act?
    ensures OnDevice(Step(s, l).e, fd)
  {
    var n := s.phase.out;
    var dest := if s.e.At(n).opType == UdpSend then PeerOf(s.peers, s.e.At(n).fd) else [];
    StepAtSend(s, l);
    TransmitEngine(s, s.phase.recv, n, l.out);
    SubmitDevice(s.e, n, dest, l.out, fd, Hand(s.e, s.phase), s.lost);
  }

  lemma ReleaseDevice(s: Sys, l: Label, fd: int)
    requires Inv(s) && OnDevice(s.e, fd) && (s.phase.Done? || s.phase.Bail?) && l.Act?
    ensures OnDevice(Step(s, l).e, fd)
  {
    FreeDevice(s.e, s.phase.op, fd, Hand(s.e, s.phase), s.lost);
    if s.phase.Done? { StepAtDone(s, l); } else { StepAtBail(s, l); }
  }

  lemma ActDevice(s: Sys, l: Label, fd: int)
    requires Inv(s) && OnDevice(s.e, fd) && l.Act?
    ensures OnDevice(Step(s, l).e, fd)
  {
    match s.phase {
      case Got(_) => StepAtGot(s, l); GotDevice(s, fd);
      case Resub(_, _) => StepAtResub(s, l); ResubDevice(s, l.out, fd);
      case Rearm(_) => StepAtRearm(s, l); RearmDevice(s, l.out, fd);
      case Back(_) => BackDevice(s, l, fd);
      case Send(_, _) => SendDevice(s, l, fd);
      case Done(_, _) => ReleaseDevice(s, l, fd);
      case Bail(_, _) => ReleaseDevice(s, l, fd);
      case _ =>
    }
  }

  lemma ArmDevice(s: Sys, to: int, out: Outcome, fd: int)
    requires Inv(s) && OnDevice(s.e, fd) && s.phase.Top?
    ensures OnDevice(FirstArm(s, to, out).e, fd)
  {
    AllocMulti(s.e, to, multiset{}, s.lost);
    var (e1, r) := AllocBuf(s.e, UdpRecv, to, true, None);
    var n := if r.None? then |s.e.ops| else r.value;
    DeviceFrame(s.e, e1, n, n, fd, multiset{}, s.lost);
    SameKinds(e1, FirstArm(s, to, out).e, fd);
  }

  lemma FirstReadDevice(s: Sys, out: Outcome, fd: int)
    requires Inv(s) && OnDevice(s.e, fd) && s.phase.Top?
    ensures OnDevice(FirstRead(s, fd, out).e, fd)
  {
    AllocNew(s.e, TunRead, fd, multiset{}, s.lost);
    NewDevice(s.e, TunRead, fd, fd, multiset{}, s.lost);
    var (e1, r) := AllocBuf(s.e, TunRead, fd, false, None);
    if r.Some? {
      var n := r.value;
      PostDevice(e1, n, Sqe(e1.At(n).fd, e1.At(n).buffer, BUF_SIZE, []), out, fd);
      if out != Accepted {
        var e2 := SubmitRead(e1, n, out).0;
        SameCounts(e1, e2, multiset{} + multiset{n}, s.lost);
        assert n in multiset{} + multiset{n};
        FreeDevice(e2, n, fd, multiset{} + multiset{n}, s.lost);
      }
    }
  }

  lemma FlightDevice(s: Sys, chunk: Bytes, fd: int)
    requires Inv(s) && OnDevice(s.e, fd) && s.phase.Top? && s.mode.Handshake?
    ensures OnDevice(SendFlight(s, s.mode.fd, chunk).e, fd)
  {
    NewDevice(s.e, UdpSend, s.mode.fd, fd, multiset{}, s.lost);
    if AllocBuf(s.e, UdpSend, s.mode.fd, false, None).1.Some? {
      FilledDevice(s.e, UdpSend, s.mode.fd, chunk, fd, multiset{}, s.lost);
    }
  }

  lemma HeadDevice(s: Sys, l: Label)
    requires l.Enter? || l.Run? || l.WaitFails?
    ensures Step(s, l).e == s.e
  {
  }

  lemma StartDevice(s: Sys, l: Label, fd: int)
    requires Inv(s) && OnDevice(s.e, fd) && (l.ArmUdp? || l.StartRead? || l.Flight?) && (l.StartRead? ==> l.fd == fd)
    ensures OnDevice(Step(s, l).e, fd)
  {
    if l.ArmUdp? {
      if s.phase.Top? { ArmDevice(s, l.fd, l.out, fd); }
    } else if l.StartRead? {
      if s.phase.Top? { FirstReadDevice(s, l.out, fd); }
    } else {
      StepOfFlight(s, l);
      if s.phase.Top? && s.mode.Handshake? { FlightDevice(s, l.chunk, fd); }
    }
  }

  lemma StepDevice(s: Sys, l: Label, fd: int)
    requires Inv(s) && OnDevice(s.e, fd) && (l.StartRead? ==> l.fd == fd)
    ensures OnDevice(Step(s, l).e, fd)
  {
    if IsKernel(l) {
      KernelDevice(s, l, fd);
    } else if l.Act? {
      ActDevice(s, l, fd);
    } else if l.Next? {
      StepOfNext(s, l);
      if s.phase.Wait? && s.e.cq != [] { TakeDevice(s, fd); }
    } else if l.Enter? || l.Run? || l.WaitFails? {
      HeadDevice(s, l);
    } else {
      StartDevice(s, l, fd);
    }
  }

  // ---------------------------------------------------------------- runs

  lemma {:induction false} ExecDevice(s: Sys, ls: seq<Label>, fd: int)
    requires Inv(s) && OnDevice(s.e, fd) && forall i | 0 <= i < |ls| && ls[i].StartRead? :: ls[i].fd == fd
    ensures OnDevice(Exec(s, ls).e, fd)
    decreases |ls|
  {
    if ls != [] {
      StepDevice(s, ls[0], fd);
      StepKeeps(s, ls[0]);
      ExecDevice(Step(s, ls[0]), ls[1..], fd);
    }
  }

  /**
    When start-up reads from one device only, then in every run all reads, also those that replace
    finished ones, are on this device; each request with the kernel goes to the device or socket of
    its operation, and a read asks for BUF_SIZE bytes.
   */
  lemma ReadsStayOnDevice(nOps: nat, nRing: nat, peers: map<int, Addr>, ls: seq<Label>, fd: int)
    requires forall i | 0 <= i < |ls| && ls[i].StartRead? :: ls[i].fd == fd
    ensures OnDevice(After(nOps, nRing, peers, ls).e, fd)
  {
    InitialInv(nOps, nRing, peers);
    var s0 := Initial(nOps, nRing, peers);
    assert forall o: nat | o < nOps :: s0.e.freeOps[o] == o;
    assert OnDevice(s0.e, fd);
    ExecDevice(s0, ls, fd);
  }
}
