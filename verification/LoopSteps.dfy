/** The steps of the event loops, of the handshake driver and of start-up keep the invariant. */
module LoopSteps {
  import opened Base
  import opened Engine
  import opened Machine
  import opened Ownership
  import opened OwnershipSteps
  import opened Invariant
  import opened EngineFrames
  import opened WaitSteps

  // ---------------------------------------------------------------- handling a packet

  /** The packet's buffer moves to an outgoing operation. */
  lemma RelayProgram(e: Engine, o: nat, t: OpType, fd: int, lost: multiset<nat>, still: map<nat, nat>, k: nat)
    requires Program(e, Back(o), lost, still, k) && (t == UdpSend || t == TunWrite)
    ensures var (e', r) := AllocBuf(e, t, fd, false, Some(o));
      Program(e', if r.None? then Done(o, false) else Send(Some(o), r.value), lost, still, k)
  {
    var (e', r) := AllocBuf(e, t, fd, false, Some(o));
    var hand := Holding(e, o);
    AllocMove(e, t, fd, o, hand, lost);
    Located(e, hand, lost, o);
    if r.Some? {
      assert Hand(e', Send(Some(o), r.value)) == hand + multiset{r.value};
      OutstandingFrame(e, e', r.value, o, hand, hand + multiset{r.value});
      IdleFrame(e, e', Back(o), Send(Some(o), r.value), r.value, o, still);
    }
  }

  lemma RelayKeeps(s: Sys, o: nat, t: OpType, fd: int)
    requires Inv(s) && s.phase == Back(o) && (t == UdpSend || t == TunWrite)
    ensures Inv(Relay(s, o, t, fd))
  {
    AllocMove(s.e, t, fd, o, Holding(s.e, o), s.lost);
    RelayProgram(s.e, o, t, fd, s.lost, s.still, s.tunReads);
    var r := AllocBuf(s.e, t, fd, false, Some(o)).1;
    LocalInv(s, Relay(s, o, t, fd), if r.None? then |s.e.ops| else r.value, o);
  }

  lemma FillKeeps(e: Engine, n: nat, data: Bytes, hand: multiset<nat>, lost: multiset<nat>)
    requires Own(e, hand, lost) && InUse(e, n)
    ensures Own(Fill(e, n, data), hand, lost)
    ensures SameKernel(e, Fill(e, n, data)) && SameUse(e, Fill(e, n, data), n, n) && InUse(Fill(e, n, data), n)
    ensures Fill(e, n, data).At(n) == e.At(n).(dataLen := |data|)
  {
    var e' := Fill(e, n, data);
    forall x: nat
      ensures PoolPlaces(e', x) == PoolPlaces(e, x)
      ensures RingPlaces(e', x) == RingPlaces(e, x)
      ensures OpPlaces(e', hand, x) == OpPlaces(e, hand, x)
    {
      Replaced(e, e', n, x);
    }
  }

  /** An operation that was just allocated goes back unused. */
  lemma UndoAlloc(e: Engine, t: OpType, fd: int, hand: multiset<nat>, lost: multiset<nat>)
    requires Own(e, hand, lost) && AllocBuf(e, t, fd, false, None).1.Some?
    ensures var (e1, r) := AllocBuf(e, t, fd, false, None);
      var e' := Free(e1, r.value).0;
      Own(e', hand, lost) && SameKernel(e, e') && SameUse(e, e', r.value, r.value) && !InUse(e', r.value)
  {
    AllocNew(e, t, fd, hand, lost);
    var (e1, r) := AllocBuf(e, t, fd, false, None);
    var n := r.value;
    assert n in hand + multiset{n};
    FreeKeeps(e1, n, hand + multiset{n}, lost);
    FreeFrame(e1, n);
    assert hand + multiset{n} - multiset{n} == hand;
    assert SameUse(e, e1, n, n) && SameUse(e1, Free(e1, n).0, n, n);
  }

  /** A new operation is filled with `data`. */
  lemma AllocFill(e: Engine, t: OpType, fd: int, data: Bytes, hand: multiset<nat>, lost: multiset<nat>)
    requires Own(e, hand, lost) && AllocBuf(e, t, fd, false, None).1.Some? && t != UdpRecv && t != TunRead
    ensures var (e1, r) := AllocBuf(e, t, fd, false, None);
      var n, e' := r.value, Fill(e1, r.value, data);
      && Own(e', hand + multiset{n}, lost) && SameKernel(e, e') && SameUse(e, e', n, n)
      && !InUse(e, n) && InUse(e', n) && n !in hand && Ready(e'.At(n)) && e'.At(n).opType == t
      && e'.At(n).fd == fd && e'.At(n).dataLen == |data|
  {
    AllocNew(e, t, fd, hand, lost);
    var (e1, r) := AllocBuf(e, t, fd, false, None);
    FillKeeps(e1, r.value, data, hand + multiset{r.value}, lost);
    assert SameUse(e, e1, r.value, r.value);
  }

  /** The recoded packet is put into the buffer of an outgoing operation. */
  lemma RecodeProgram(e: Engine, o: nat, t: OpType, fd: int, data: Bytes, lost: multiset<nat>, still: map<nat, nat>, k: nat)
    requires Program(e, Back(o), lost, still, k) && (t == UdpSend || t == TunWrite)
    requires AllocBuf(e, t, fd, false, None).1.Some?
    ensures var (e1, r) := AllocBuf(e, t, fd, false, None);
      Program(Fill(e1, r.value, data), Send(Some(o), r.value), lost, still, k)
  {
    var (e1, r) := AllocBuf(e, t, fd, false, None);
    var n, e' := r.value, Fill(e1, r.value, data);
    var hand := Holding(e, o);
    AllocFill(e, t, fd, data, hand, lost);
    OutstandingFrame(e, e', n, n, hand, hand + multiset{n});
    IdleFrame(e, e', Back(o), Send(Some(o), n), n, n, still);
  }

  lemma RecodeKeeps(s: Sys, o: nat, t: OpType, fd: int, coded: Option<Bytes>)
    requires Inv(s) && s.phase == Back(o) && (t == UdpSend || t == TunWrite)
    ensures Inv(Recode(s, o, t, fd, coded))
  {
    if AllocBuf(s.e, t, fd, false, None).1.None? {
      RefusedKeeps(s, o, t, fd);
    } else if coded.None? || |coded.value| > BUF_SIZE {
      UndoneKeeps(s, o, t, fd);
    } else {
      RecodedKeeps(s, o, t, fd, coded.value);
    }
  }

  lemma RefusedKeeps(s: Sys, o: nat, t: OpType, fd: int)
    requires Inv(s) && s.phase == Back(o) && AllocBuf(s.e, t, fd, false, None).1.None?
    ensures Inv(s.(e := AllocBuf(s.e, t, fd, false, None).0, phase := Done(o, false)))
  {
    AllocNew(s.e, t, fd, Holding(s.e, o), s.lost);
    LocalInv(s, s.(e := AllocBuf(s.e, t, fd, false, None).0, phase := Done(o, false)), |s.e.ops|, |s.e.ops|);
  }

  lemma RecodedKeeps(s: Sys, o: nat, t: OpType, fd: int, data: Bytes)
    requires Inv(s) && s.phase == Back(o) && (t == UdpSend || t == TunWrite)
    requires AllocBuf(s.e, t, fd, false, None).1.Some?
    ensures var (e1, r) := AllocBuf(s.e, t, fd, false, None);
      Inv(s.(e := Fill(e1, r.value, data), phase := Send(Some(o), r.value)))
  {
    var (e1, r) := AllocBuf(s.e, t, fd, false, None);
    AllocFill(s.e, t, fd, data, Holding(s.e, o), s.lost);
    RecodeProgram(s.e, o, t, fd, data, s.lost, s.still, s.tunReads);
    LocalInv(s, s.(e := Fill(e1, r.value, data), phase := Send(Some(o), r.value)), r.value, r.value);
  }

  lemma UndoneKeeps(s: Sys, o: nat, t: OpType, fd: int)
    requires Inv(s) && s.phase == Back(o) && AllocBuf(s.e, t, fd, false, None).1.Some?
    ensures var (e1, r) := AllocBuf(s.e, t, fd, false, None);
      Inv(s.(e := Free(e1, r.value).0, phase := Done(o, false)))
  {
    var (e1, r) := AllocBuf(s.e, t, fd, false, None);
    AllocNew(s.e, t, fd, Holding(s.e, o), s.lost);
    UndoAlloc(s.e, t, fd, Holding(s.e, o), s.lost);
    LocalInv(s, s.(e := Free(e1, r.value).0, phase := Done(o, false)), r.value, r.value);
  }

  /** The handshake driver drops a datagram of another connection and keeps its buffer. */
  lemma DropKeeps(s: Sys, o: nat)
    requires Inv(s) && s.phase == Back(o) && Loaded(s.e.At(o))
    ensures Inv(s.(phase := Top(None), drops := s.drops + 1, still := s.still[o := s.e.At(o).bufIdx]))
  {
    DropProgram(s.e, o, s.lost, s.still, s.tunReads);
    MultiFrame(s.e, s.e, s.phase, Top(None), s.udp);
  }

  lemma DropProgram(e: Engine, o: nat, lost: multiset<nat>, still: map<nat, nat>, k: nat)
    requires Program(e, Back(o), lost, still, k) && Loaded(e.At(o))
    ensures Program(e, Top(None), lost, still[o := e.At(o).bufIdx], k)
    ensures |still[o := e.At(o).bufIdx]| == |still| + 1
  {
    assert IsMulti(e, o) && o !in still;
    DropIdle(e, o, still);
    StillGrows(still, o, e.At(o).bufIdx);
    assert Hand(e, Back(o)) == multiset{} == Hand(e, Top(None));
  }

  lemma DropIdle(e: Engine, o: nat, still: map<nat, nat>)
    requires Idle(e, Back(o), still) && IsMulti(e, o) && e.At(o).bufIdx >= 0
    ensures Idle(e, Top(None), still[o := e.At(o).bufIdx])
  {
  }

  lemma StillGrows(still: map<nat, nat>, o: nat, i: nat)
    requires o !in still
    ensures |still[o := i]| == |still| + 1
  {
    assert still[o := i].Keys == still.Keys + {o};
  }

  /** Only the phase changes, between two phases that hold the same operations. */
  lemma PhaseOnly(s: Sys, s': Sys)
    requires Inv(s) && s' == s.(phase := s'.phase, peers := s'.peers, mode := s'.mode)
    requires Hand(s.e, s'.phase) == Hand(s.e, s.phase) && PhaseOk(s.e, s'.phase)
    requires Continuing(s'.phase) ==>
      && Continuing(s.phase) && !s.phase.Rearm? && !s'.phase.Rearm?
      && Current(s'.phase) == Current(s.phase) && Owed(s.e, s'.phase) == Owed(s.e, s.phase)
      && (s'.phase.Back? ==> s'.phase == s.phase)
    ensures Inv(s')
  {
    if Continuing(s'.phase) {
      MultiFrame(s.e, s.e, s.phase, s'.phase, s.udp);
    }
  }

  lemma HandshakeKeeps(s: Sys, o: nat, fd: int, plain: bool, coded: Option<Bytes>)
    requires Inv(s) && s.phase == Back(o) && s.mode == Handshake(fd)
    ensures Inv(Handle(s, o, plain, coded))
  {
    var op := s.e.At(o);
    assert ShapeOk(s.e.ops[o]);
    if op.opType == UdpRecv && op.fd != fd {
      DropKeeps(s, o);
    } else if op.opType == UdpRecv {
      PhaseOnly(s, s.(peers := Pin(s.peers, fd, op.addr), phase := Done(o, true)));
    } else {
      PhaseOnly(s, Halt(s, s.e, None, Holding(s.e, o)));
    }
  }

  lemma ZeroKeeps(s: Sys, o: nat, tunFd: int, udpFd: int, plain: bool, coded: Option<Bytes>)
    requires Inv(s) && s.phase == Back(o) && s.mode == Zero(tunFd, udpFd)
    ensures Inv(Handle(s, o, plain, coded))
  {
    var op := s.e.At(o);
    assert ShapeOk(s.e.ops[o]);
    if op.opType == TunRead {
      RelayKeeps(s, o, UdpSend, udpFd);
    } else {
      var pinned := s.(peers := Pin(s.peers, udpFd, op.addr));
      PhaseOnly(s, pinned);
      RelayKeeps(pinned, o, TunWrite, tunFd);
    }
  }

  lemma DtlsKeeps(s: Sys, o: nat, tunFd: int, udpFd: int, plain: bool, coded: Option<Bytes>)
    requires Inv(s) && s.phase == Back(o) && s.mode == Dtls(tunFd, udpFd)
    ensures Inv(Handle(s, o, plain, coded))
  {
    assert ShapeOk(s.e.ops[o]);
    if s.e.At(o).opType == TunRead {
      RecodeKeeps(s, o, UdpSend, udpFd, coded);
    } else {
      RecodeKeeps(s, o, TunWrite, tunFd, coded);
    }
  }

  lemma ForwardKeeps(s: Sys, o: nat, inFd: int, outFd: int, plain: bool, coded: Option<Bytes>)
    requires Inv(s) && s.phase == Back(o) && s.mode == Forward(inFd, outFd)
    ensures Inv(Handle(s, o, plain, coded))
  {
    ForwardIs(s, o, inFd, outFd, plain, coded);
    if s.e.At(o).opType != UdpRecv || !plain {
      PhaseOnly(s, Halt(s, s.e, None, Holding(s.e, o)));
    } else {
      RecodeKeeps(s, o, UdpSend, if s.e.At(o).fd == inFd then outFd else inFd, coded);
    }
  }

  lemma ForwardIs(s: Sys, o: nat, inFd: int, outFd: int, plain: bool, coded: Option<Bytes>)
    requires s.mode == Forward(inFd, outFd)
    ensures Handle(s, o, plain, coded) ==
      if s.e.At(o).opType != UdpRecv || !plain then Halt(s, s.e, None, Holding(s.e, o))
      else Recode(s, o, UdpSend, if s.e.At(o).fd == inFd then outFd else inFd, coded)
  {
  }

  lemma IdleSetupKeeps(s: Sys, o: nat, plain: bool, coded: Option<Bytes>)
    requires Inv(s) && s.phase == Back(o) && s.mode.Setup?
    ensures Inv(Handle(s, o, plain, coded))
  {
    PhaseOnly(s, Halt(s, s.e, None, Holding(s.e, o)));
  }

  lemma HandleKeeps(s: Sys, plain: bool, coded: Option<Bytes>)
    requires Inv(s) && s.phase.Back?
    ensures Inv(Handle(s, s.phase.op, plain, coded))
  {
    var o := s.phase.op;
    match s.mode
    case Setup => IdleSetupKeeps(s, o, plain, coded);
    case Handshake(fd) => HandshakeKeeps(s, o, fd, plain, coded);
    case Zero(tunFd, udpFd) => ZeroKeeps(s, o, tunFd, udpFd, plain, coded);
    case Dtls(tunFd, udpFd) => DtlsKeeps(s, o, tunFd, udpFd, plain, coded);
    case Forward(inFd, outFd) => ForwardKeeps(s, o, inFd, outFd, plain, coded);
  }

  // ---------------------------------------------------------------- submitting and finishing

  lemma TransmitKeeps(s: Sys, out: Outcome)
    requires Inv(s) && s.phase.Send?
    ensures Inv(Transmit(s, s.phase.recv, s.phase.out, out))
  {
    var n := s.phase.out;
    Located(s.e, Hand(s.e, s.phase), s.lost, n);
    var op := s.e.At(n);
    var dest := if op.opType == UdpSend then PeerOf(s.peers, op.fd) else [];
    var (e1, ok) := SubmitOut(s.e, n, dest, out);
    if ok {
      SentKeeps(s, n, Sqe(op.fd, op.buffer, op.dataLen, dest), Transmit(s, s.phase.recv, n, out));
    } else {
      NotSentKeeps(s, e1, Transmit(s, s.phase.recv, n, out));
    }
  }

  lemma NotSentKeeps(s: Sys, e1: Engine, s': Sys)
    requires Inv(s) && s.phase.Send? && e1 == s.e.(stale := e1.stale)
    requires s' == if s.phase.recv.None? then Halt(s, e1, None, multiset{s.phase.out})
                   else s.(e := Free(e1, s.phase.out).0, phase := Done(s.phase.recv.value, false))
    ensures Inv(s')
  {
    SameCounts(s.e, e1, Hand(s.e, s.phase), s.lost);
    if s.phase.recv.None? {
      AbandonKeeps(s, e1, s.phase.out);
    } else {
      UnsentKeeps(s, e1, s.phase.recv.value, s.phase.out);
    }
  }

  lemma SentProgram(e: Engine, n: nat, r: Sqe, ph: Phase, ph': Phase, lost: multiset<nat>, still: map<nat, nat>, k: nat)
    requires ph.Send? && n == ph.out && Program(e, ph, lost, still, k) && InUse(e, n)
    requires ph' == if ph.recv.Some? then Done(ph.recv.value, true) else Top(None)
    ensures Program(e.(inflight := e.inflight[n := r]), ph', lost, still, k)
  {
    var e' := e.(inflight := e.inflight[n := r]);
    var hand := Hand(e, ph);
    PostKeeps(e, n, r, Accepted, hand, lost);
    assert Hand(e', ph') == hand - multiset{n};
    assert Outstanding(e', hand - multiset{n}) == Outstanding(e, hand);
    IdleFrame(e, e', ph, ph', |e.ops|, |e.ops|, still);
  }

  lemma SentKeeps(s: Sys, n: nat, r: Sqe, s': Sys)
    requires Inv(s) && s.phase.Send? && n == s.phase.out && InUse(s.e, n) && SqeOk(s.e.At(n), r)
    requires s' == s.(e := s.e.(inflight := s.e.inflight[n := r]), trace := s'.trace,
                      phase := if s.phase.recv.Some? then Done(s.phase.recv.value, true) else Top(None))
    ensures Inv(s')
  {
    SentProgram(s.e, n, r, s.phase, s'.phase, s.lost, s.still, s.tunReads);
    AcceptInv(s, s', n, r);
  }

  lemma UnsentProgram(e: Engine, o: nat, n: nat, lost: multiset<nat>, still: map<nat, nat>, k: nat)
    requires Own(e, Hand(e, Send(Some(o), n)), lost) && PhaseOk(e, Send(Some(o), n))
    ensures InUse(e, n) && n in Hand(e, Send(Some(o), n))
    ensures Program(Free(e, n).0, Done(o, false), lost, still, k)
  {
    var hand := Hand(e, Send(Some(o), n));
    assert n in hand;
    Located(e, hand, lost, n);
    Located(e, hand, lost, o);
    FreeKeeps(e, n, hand, lost);
    FreeFrame(e, n);
    assert hand - multiset{n} == Holding(Free(e, n).0, o);
  }

  lemma UnsentKeeps(s: Sys, e1: Engine, o: nat, n: nat)
    requires Inv(s) && s.phase == Send(Some(o), n)
    requires e1 == s.e.(stale := e1.stale) && Own(e1, Hand(s.e, s.phase), s.lost)
    ensures Inv(s.(e := Free(e1, n).0, phase := Done(o, false)))
  {
    UnsentProgram(e1, o, n, s.lost, s.still, s.tunReads);
    FreeFrame(e1, n);
    LocalInv(s, s.(e := Free(e1, n).0, phase := Done(o, false)), n, n);
  }

  /** The handshake driver returns without releasing a send it could not submit. */
  lemma AbandonKeeps(s: Sys, e1: Engine, n: nat)
    requires Inv(s) && s.phase == Send(None, n)
    requires e1 == s.e.(stale := e1.stale) && Own(e1, Hand(s.e, s.phase), s.lost)
    ensures Inv(Halt(s, e1, None, multiset{n}))
  {
    assert Hand(s.e, s.phase) == multiset{n};
    LocalInv(s, Halt(s, e1, None, multiset{n}), |s.e.ops|, |s.e.ops|);
  }

  /** Releasing the operation of a packet: nothing of it stays in hand. */
  lemma FinishOwn(e: Engine, o: nat, lost: multiset<nat>)
    requires Own(e, Holding(e, o), lost) && Releasable(e, o)
    ensures Own(Free(e, o).0, multiset{}, lost)
    ensures Free(e, o).1.Some? ==> IsMulti(Free(e, o).0, o)
    ensures SameMulti(e, Free(e, o).0, o)
  {
    var hand := Holding(e, o);
    Located(e, hand, lost, o);
    FreeKeeps(e, o, hand, lost);
    FreeFrame(e, o);
    assert hand - multiset{o} == multiset{};
  }

  lemma FinishProgram(e: Engine, o: nat, lost: multiset<nat>, still: map<nat, nat>, k: nat)
    requires Program(e, Done(o, true), lost, still, k)
    ensures Program(Free(e, o).0, Top(Free(e, o).1), lost, still, k)
    ensures Program(Free(e, o).0, Top(None), lost, still, k)
  {
    var (e', last) := Free(e, o);
    FinishOwn(e, o, lost);
    FreeFrame(e, o);
    Located(e, Holding(e, o), lost, o);
    OutstandingFrame(e, e', o, o, Holding(e, o), multiset{});
    IdleFrame(e, e', Done(o, true), Top(last), o, o, still);
  }

  lemma FinishedKeeps(s: Sys, o: nat, last: Option<nat>)
    requires Inv(s) && s.phase == Done(o, true) && (last == None || last == Free(s.e, o).1)
    ensures Inv(s.(e := Free(s.e, o).0, phase := Top(last)))
  {
    FreeFrame(s.e, o);
    FinishOwn(s.e, o, s.lost);
    FinishProgram(s.e, o, s.lost, s.still, s.tunReads);
    LocalInv(s, s.(e := Free(s.e, o).0, phase := Top(last)), o, o);
  }

  lemma GiveUpKeeps(s: Sys, o: nat)
    requires Inv(s) && s.phase == Done(o, false)
    ensures Inv(Halt(s, Free(s.e, o).0, Free(s.e, o).1, multiset{}))
  {
    FreeFrame(s.e, o);
    FinishOwn(s.e, o, s.lost);
    LocalInv(s, Halt(s, Free(s.e, o).0, Free(s.e, o).1, multiset{}), o, o);
  }

  lemma FinishKeeps(s: Sys)
    requires Inv(s) && s.phase.Done?
    ensures Inv(Finish(s, s.phase.op, s.phase.ok))
  {
    var o := s.phase.op;
    if s.phase.ok {
      FinishedKeeps(s, o, if s.mode.Handshake? then None else Free(s.e, o).1);
    } else if s.mode.Forward? {
      PhaseOnly(s, Halt(s, s.e, None, Holding(s.e, o)));
    } else {
      GiveUpKeeps(s, o);
    }
  }

  // ---------------------------------------------------------------- start-up and handshake sends

  lemma FlightProgram(e: Engine, fd: int, chunk: Bytes, ph: Phase, lost: multiset<nat>, still: map<nat, nat>, k: nat)
    requires Program(e, ph, lost, still, k) && ph.Top? && AllocBuf(e, UdpSend, fd, false, None).1.Some?
    ensures var (e1, r) := AllocBuf(e, UdpSend, fd, false, None);
      Program(Fill(e1, r.value, chunk), Send(None, r.value), lost, still, k)
  {
    var (e1, r) := AllocBuf(e, UdpSend, fd, false, None);
    var n, e' := r.value, Fill(e1, r.value, chunk);
    AllocFill(e, UdpSend, fd, chunk, multiset{}, lost);
    assert multiset{} + multiset{n} == multiset{n};
    OutstandingFrame(e, e', n, n, multiset{}, multiset{n});
    IdleFrame(e, e', ph, Send(None, n), n, n, still);
  }

  lemma SendFlightKeeps(s: Sys, fd: int, chunk: Bytes)
    requires Inv(s) && s.phase.Top?
    ensures Inv(SendFlight(s, fd, chunk))
  {
    var r := AllocBuf(s.e, UdpSend, fd, false, None).1;
    if r.None? {
      AllocNew(s.e, UdpSend, fd, multiset{}, s.lost);
      LocalInv(s, SendFlight(s, fd, chunk), |s.e.ops|, |s.e.ops|);
    } else {
      AllocFill(s.e, UdpSend, fd, chunk, multiset{}, s.lost);
      FlightProgram(s.e, fd, chunk, s.phase, s.lost, s.still, s.tunReads);
      LocalInv(s, SendFlight(s, fd, chunk), r.value, r.value);
    }
  }

  lemma FirstReadKeeps(s: Sys, fd: int, out: Outcome)
    requires Inv(s) && s.phase.Top?
    ensures Inv(FirstRead(s, fd, out))
  {
    AllocNew(s.e, TunRead, fd, multiset{}, s.lost);
    var (e1, r) := AllocBuf(s.e, TunRead, fd, false, None);
    if r.None? {
      OutstandingFrame(s.e, e1, |s.e.ops|, |s.e.ops|, multiset{}, multiset{});
      IdleFrame(s.e, e1, s.phase, s.phase, |s.e.ops|, |s.e.ops|, s.still);
      LocalInv(s, FirstRead(s, fd, out), |s.e.ops|, |s.e.ops|);
    } else if out == Accepted {
      StartedKeeps(s, fd);
    } else {
      NotStartedKeeps(s, fd, out);
    }
  }

  lemma NotStartedOwn(e: Engine, fd: int, out: Outcome, lost: multiset<nat>)
    requires Own(e, multiset{}, lost) && out != Accepted && AllocBuf(e, TunRead, fd, false, None).1.Some?
    ensures var (e1, r) := AllocBuf(e, TunRead, fd, false, None);
      var e' := Free(SubmitRead(e1, r.value, out).0, r.value).0;
      && Own(e', multiset{}, lost) && SameUse(e, e', r.value, r.value) && !InUse(e, r.value)
      && e'.cq == e.cq && e'.inflight == e.inflight && e'.armed == e.armed
  {
    var (e1, r) := AllocBuf(e, TunRead, fd, false, None);
    var n, e2 := r.value, SubmitRead(e1, r.value, out).0;
    AllocNew(e, TunRead, fd, multiset{}, lost);
    assert multiset{} + multiset{n} == multiset{n};
    SameCounts(e1, e2, multiset{n}, lost);
    FreeKeeps(e2, n, multiset{n}, lost);
    FreeFrame(e2, n);
    assert multiset{n} - multiset{n} == multiset{};
  }

  lemma NotStartedKeeps(s: Sys, fd: int, out: Outcome)
    requires Inv(s) && s.phase.Top? && out != Accepted && AllocBuf(s.e, TunRead, fd, false, None).1.Some?
    ensures Inv(FirstRead(s, fd, out))
  {
    var n := AllocBuf(s.e, TunRead, fd, false, None).1.value;
    NotStartedOwn(s.e, fd, out, s.lost);
    LocalInv(s, FirstRead(s, fd, out), n, n);
  }

  /** The engine after a read was allocated and accepted. */
  lemma StartedProgram(e: Engine, fd: int, ph: Phase, lost: multiset<nat>, still: map<nat, nat>, k: nat)
    requires Program(e, ph, lost, still, k) && ph.Top? && AllocBuf(e, TunRead, fd, false, None).1.Some?
    ensures var (e1, r) := AllocBuf(e, TunRead, fd, false, None);
      Program(SubmitRead(e1, r.value, Accepted).0, ph, lost, still, k + 1)
  {
    AllocNew(e, TunRead, fd, multiset{}, lost);
    var (e1, r) := AllocBuf(e, TunRead, fd, false, None);
    var n := r.value;
    var e2 := SubmitRead(e1, n, Accepted).0;
    assert multiset{} + multiset{n} == multiset{n};
    PostKeeps(e1, n, Sqe(e1.At(n).fd, e1.At(n).buffer, BUF_SIZE, []), Accepted, multiset{n}, lost);
    assert multiset{n} - multiset{n} == multiset{};
    OutstandingFrame(e, e1, n, n, multiset{}, multiset{n});
    assert Outstanding(e2, multiset{}) == Outstanding(e1, multiset{n}) + {n};
    IdleFrame(e, e2, ph, ph, n, n, still);
  }

  lemma StartedKeeps(s: Sys, fd: int)
    requires Inv(s) && s.phase.Top? && AllocBuf(s.e, TunRead, fd, false, None).1.Some?
    ensures Inv(FirstRead(s, fd, Accepted))
  {
    StartedProgram(s.e, fd, s.phase, s.lost, s.still, s.tunReads);
    AllocNew(s.e, TunRead, fd, multiset{}, s.lost);
    var (e1, r) := AllocBuf(s.e, TunRead, fd, false, None);
    var n := r.value;
    var e2 := SubmitRead(e1, n, Accepted).0;
    SinglesFrame(s.e, e1, n, n, multiset{}, s.lost);
    AcceptSingles(e1, e2, n, Sqe(e1.At(n).fd, e1.At(n).buffer, BUF_SIZE, []));
    forall o: nat
      ensures SameMulti(s.e, e2, o)
    {
      if o != n {
        assert InUse(e1, o) <==> InUse(s.e, o);
      }
    }
    MultiFrame(s.e, e2, s.phase, s.phase, s.udp);
  }

  lemma FirstArmKeeps(s: Sys, fd: int, out: Outcome)
    requires Inv(s) && s.phase.Top? && fd !in s.udp
    ensures Inv(FirstArm(s, fd, out))
  {
    AllocMulti(s.e, fd, multiset{}, s.lost);
    var (e1, r) := AllocBuf(s.e, UdpRecv, fd, true, None);
    if r.None? {
      LocalInv(s, FirstArm(s, fd, out), |s.e.ops|, |s.e.ops|);
    } else {
      var n := r.value;
      var (e2, ok) := Arm(e1, n, out);
      SinglesFrame(s.e, e2, n, n, multiset{}, s.lost);
      FirstArmProgram(s.e, e1, e2, n, s.phase, ok, s.lost, s.still, s.tunReads);
      if ok {
        NewMultiLaw(s.e, e2, s.phase, n, fd, s.udp);
      }
    }
  }

  lemma FirstArmProgram(e: Engine, e1: Engine, e2: Engine, n: nat, ph: Phase, ok: bool,
                        lost: multiset<nat>, still: map<nat, nat>, k: nat)
    requires ph.Top? && Program(e, ph, lost, still, k) && Own(e1, multiset{}, lost)
    requires SameUse(e, e1, n, n) && !InUse(e, n) && InUse(e1, n) && e1.At(n).isMulti && e1.At(n).bufIdx < 0
    requires e2 == e1.(armed := e2.armed, stale := e2.stale)
    ensures Program(e2, if ok then ph else Stopped(None, multiset{}), lost, still, k)
  {
    SameCounts(e1, e2, multiset{}, lost);
    OutstandingFrame(e, e2, n, n, multiset{}, multiset{});
    NewIdle(e, e2, ph, n, still);
    if ph.last.Some? {
      assert InUse(e, ph.last.value);
    }
  }

  lemma NewIdle(e: Engine, e': Engine, ph: Phase, n: nat, still: map<nat, nat>)
    requires Idle(e, ph, still) && SameUse(e, e', n, n) && !InUse(e, n) && e'.At(n).bufIdx < 0 && ph.Top?
    ensures Idle(e', ph, still)
  {
    forall o: nat | o != n
      ensures (IsMulti(e', o) <==> IsMulti(e, o)) && (IsMulti(e, o) ==> e'.At(o) == e.At(o))
    {
      assert InUse(e', o) <==> InUse(e, o);
    }
  }

  lemma NewMultiLaw(e: Engine, e': Engine, ph: Phase, n: nat, fd: int, udp: map<int, nat>)
    requires MultiLaw(e, ph, udp) && SameUse(e, e', n, n) && !InUse(e, n) && IsMulti(e', n) && ph.Top?
    requires e'.At(n).fd == fd && fd !in udp && e'.armed == e.armed + {n} && e'.cq == e.cq
    ensures MultiLaw(e', ph, udp[fd := n])
  {
    forall o: nat | o != n
      ensures (IsMulti(e', o) <==> IsMulti(e, o)) && (IsMulti(e, o) ==> e'.At(o) == e.At(o))
    {
      assert InUse(e', o) <==> InUse(e, o);
    }
    forall o: nat
      ensures Activity(e', ph, o) == Activity(e, ph, o) + if o == n then 1 else 0
    {
      assert Activity(e, ph, n) == 0;
    }
  }
}
