/** Every step of every program, in every mode, is a step of the by-value relay. */
module RelaySteps {
  import opened Base
  import opened Engine
  import opened Machine
  import opened Ownership
  import opened OwnershipSteps
  import opened Invariant
  import opened EngineFrames
  import opened Exclusive
  import opened CopyRelay
  import opened CopySteps
  import opened LoopSteps

  // ---------------------------------------------------------------- where outgoing operations go

  /** The operation `out` leaves by the side opposite to the packet of `recv`. */
  ghost predicate Directed(m: Mode, recv: Op, out: Op)
    requires Relays(m)
  {
    match m
    case Zero(tunFd, udpFd) => Crosses(tunFd, udpFd, recv, out)
    case Dtls(tunFd, udpFd) => Crosses(tunFd, udpFd, recv, out)
    case Forward(inFd, outFd) => out.opType == UdpSend && out.fd == if recv.fd == inFd then outFd else inFd
  }

  ghost predicate Crosses(tunFd: int, udpFd: int, recv: Op, out: Op) {
    if recv.isMulti then out.opType == TunWrite && out.fd == tunFd else out.opType == UdpSend && out.fd == udpFd
  }

  /** What is about to be submitted is directed as the mode demands. */
  ghost predicate ModeOk(s: Sys) {
    s.phase.Send? ==>
      if s.phase.recv.Some? then
        && Relays(s.mode) && Directed(s.mode, s.e.At(s.phase.recv.value), s.e.At(s.phase.out))
        && (s.mode.Zero? && s.e.At(s.phase.recv.value).isMulti ==>
              Pin(s.peers, s.mode.udpFd, s.e.At(s.phase.recv.value).addr) == s.peers)
      else s.mode.Handshake? && s.e.At(s.phase.out).opType == UdpSend && s.e.At(s.phase.out).fd == s.mode.fd
  }

  lemma RelaySends(s: Sys, o: nat, t: OpType, fd: int)
    requires Inv(s) && s.phase == Back(o)
    ensures var s' := Relay(s, o, t, fd);
      && s'.mode == s.mode
      && (s'.phase.Send? ==> s'.phase.recv == Some(o) && s'.e.At(s'.phase.out).opType == t
                             && s'.e.At(s'.phase.out).fd == fd && s'.e.At(o).isMulti == s.e.At(o).isMulti
                             && s'.e.At(o).addr == s.e.At(o).addr)
  {
    AllocMove(s.e, t, fd, o, Holding(s.e, o), s.lost);
  }

  lemma RecodeSends(s: Sys, o: nat, t: OpType, fd: int, coded: Option<Bytes>)
    requires Own(s.e, Holding(s.e, o), s.lost) && InUse(s.e, o) && (t == UdpSend || t == TunWrite)
    ensures var s' := Recode(s, o, t, fd, coded);
      && s'.mode == s.mode
      && (s'.phase.Send? ==> s'.phase.recv == Some(o) && s'.e.At(s'.phase.out).opType == t
                             && s'.e.At(s'.phase.out).fd == fd && s'.e.At(o) == s.e.At(o))
  {
    if AllocBuf(s.e, t, fd, false, None).1.Some? && coded.Some? {
      AllocFill(s.e, t, fd, coded.value, Holding(s.e, o), s.lost);
    }
  }

  lemma ZeroDirected(s: Sys, o: nat, plain: bool, coded: Option<Bytes>)
    requires Inv(s) && s.phase == Back(o) && s.mode.Zero?
    ensures ModeOk(Handle(s, o, plain, coded))
  {
    assert ShapeOk(s.e.ops[o]);
    if s.e.At(o).opType == TunRead {
      RelaySends(s, o, UdpSend, s.mode.udpFd);
    } else {
      var pinned := s.(peers := Pin(s.peers, s.mode.udpFd, s.e.At(o).addr));
      PhaseOnly(s, pinned);
      RelaySends(pinned, o, TunWrite, s.mode.tunFd);
    }
  }

  /** How a coding node handles the packet of `o`. */
  ghost function CodedType(m: Mode, recv: Op): OpType { if m.Dtls? && recv.isMulti then TunWrite else UdpSend }

  ghost function CodedFd(m: Mode, recv: Op): int
    requires Codes(m)
  {
    match m
    case Dtls(tunFd, udpFd) => if recv.isMulti then tunFd else udpFd
    case Forward(inFd, outFd) => if recv.fd == inFd then outFd else inFd
  }

  lemma CodedHandle(s: Sys, o: nat, plain: bool, coded: Option<Bytes>)
    requires Inv(s) && s.phase == Back(o) && Codes(s.mode)
    ensures Handle(s, o, plain, coded) ==
      if s.mode.Forward? && (s.e.At(o).opType != UdpRecv || !plain) then Halt(s, s.e, None, Holding(s.e, o))
      else Recode(s, o, CodedType(s.mode, s.e.At(o)), CodedFd(s.mode, s.e.At(o)), coded)
  {
    assert ShapeOk(s.e.ops[o]);
  }

  lemma CodedDirected(s: Sys, o: nat, plain: bool, coded: Option<Bytes>)
    requires Inv(s) && s.phase == Back(o) && Codes(s.mode)
    ensures ModeOk(Handle(s, o, plain, coded))
  {
    CodedHandle(s, o, plain, coded);
    RecodeSends(s, o, CodedType(s.mode, s.e.At(o)), CodedFd(s.mode, s.e.At(o)), coded);
  }

  lemma HandleDirected(s: Sys, o: nat, plain: bool, coded: Option<Bytes>)
    requires Inv(s) && s.phase == Back(o)
    ensures ModeOk(Handle(s, o, plain, coded))
  {
    if s.mode.Zero? {
      ZeroDirected(s, o, plain, coded);
    } else if Codes(s.mode) {
      CodedDirected(s, o, plain, coded);
    }
  }

  lemma FlightDirected(s: Sys, chunk: Bytes)
    requires Inv(s) && s.phase.Top? && s.mode.Handshake?
    ensures ModeOk(SendFlight(s, s.mode.fd, chunk))
  {
    if AllocBuf(s.e, UdpSend, s.mode.fd, false, None).1.Some? {
      AllocFill(s.e, UdpSend, s.mode.fd, chunk, multiset{}, s.lost);
    }
  }

  lemma KernelDirected(s: Sys, l: Label)
    requires ModeOk(s) && IsKernel(l)
    ensures ModeOk(Step(s, l))
  {
    assert KernelStep(s, l).e.ops == s.e.ops;
  }

  /** Only handling a packet leads to a submission for it. */
  lemma ActLeads(s: Sys, l: Label)
    requires l.Act? && !s.phase.Back? && !s.phase.Send?
    ensures var s' := Step(s, l); s'.mode == s.mode && !s'.phase.Done? && !s'.phase.Send?
  {
    if s.phase.Got? {
      DispatchLeads(s, s.phase.op);
    } else if s.phase.Done? {
      FinishLeads(s, s.phase.op, s.phase.ok);
    }
  }

  lemma DispatchLeads(s: Sys, o: nat)
    ensures var ph := Dispatch(s, o).phase; !ph.Done? && !ph.Send?
  {
  }

  lemma FinishLeads(s: Sys, o: nat, ok: bool)
    ensures var ph := Finish(s, o, ok).phase; !ph.Done? && !ph.Send?
  {
  }

  /** A submission leads out of the turn or to its end. */
  lemma TransmitLeads(s: Sys, r: Option<nat>, n: nat, out: Outcome)
    ensures var ph := Transmit(s, r, n, out).phase; ph.Done? || ph.Top? || ph.Stopped?
  {
  }

  /** Between coding a packet and the end of its turn, the program itself only acts. */
  lemma OnlyActs(s: Sys, l: Label)
    requires (s.phase.Send? || s.phase.Done?) && !IsKernel(l) && !l.Act?
    ensures Step(s, l) == s
  {
  }

  lemma HeadPhases(s: Sys, l: Label)
    requires !IsKernel(l) && !l.Act? && !s.phase.Send? && !s.phase.Done?
    ensures var ph := Step(s, l).phase; !ph.Done? && (ph.Send? ==> ph.recv.None? && l.Flight?)
  {
    if l.Next? {
      NextPhases(s);
    }
  }

  lemma NextPhases(s: Sys)
    requires !s.phase.Send? && !s.phase.Done?
    ensures var ph := Step(s, Next).phase; !ph.Done? && !ph.Send?
  {
    if s.phase.Wait? && s.e.cq != [] {
      assert Step(s, Next).phase == TakePhase(TakeEngine(s.e).1, if s.e.cq[0].SingleCqe? then multiset{s.e.cq[0].op} else multiset{});
    }
  }

  lemma OtherDirected(s: Sys, l: Label)
    requires ModeOk(s) && !l.Flight? && !(l.Act? && s.phase.Back?) && !IsKernel(l)
    ensures ModeOk(Step(s, l))
  {
    if l.Act? && s.phase.Send? {
      StepAtSend(s, l);
      TransmitLeads(s, s.phase.recv, s.phase.out, l.out);
    } else if l.Act? {
      ActLeads(s, l);
    } else if s.phase.Send? || s.phase.Done? {
      OnlyActs(s, l);
    } else {
      HeadPhases(s, l);
    }
  }

  lemma ModeOkKeeps(s: Sys, l: Label)
    requires Inv(s) && ModeOk(s)
    ensures ModeOk(Step(s, l))
  {
    if IsKernel(l) {
      KernelDirected(s, l);
    } else if l.Flight? {
      FlightStepDirected(s, l);
    } else if l.Act? && s.phase.Back? {
      BackDirected(s, l);
    } else {
      OtherDirected(s, l);
    }
  }

  lemma FlightStepDirected(s: Sys, l: Label)
    requires Inv(s) && ModeOk(s) && l.Flight?
    ensures ModeOk(Step(s, l))
  {
    StepOfFlight(s, l);
    if s.phase.Top? && s.mode.Handshake? && |l.chunk| <= BUF_SIZE {
      FlightDirected(s, l.chunk);
    }
  }

  lemma BackDirected(s: Sys, l: Label)
    requires Inv(s) && l.Act? && s.phase.Back?
    ensures ModeOk(Step(s, l))
  {
    StepAtBack(s, l);
    HandleDirected(s, s.phase.op, l.plain, l.coded);
  }

  // ---------------------------------------------------------------- events

  lemma KernelEvents(s: Sys, l: Label)
    requires IsKernel(l)
    ensures var s' := KernelStep(s, l);
      s'.trace == s.trace || exists ev :: s'.trace == s.trace + [ev] && !ev.Submit? && !ev.Take?
  {
    var s' := KernelStep(s, l);
    if |s'.e.cq| != |s.e.cq| && s'.trace != s.trace {
      var ev := s'.trace[|s.trace|];
      assert s'.trace == s.trace + [ev] && !ev.Submit? && !ev.Take?;
    }
  }

  lemma TransmitEvents(s: Sys, r: Option<nat>, n: nat, out: Outcome)
    ensures var s' := Transmit(s, r, n, out); s'.trace == s.trace || exists t, m :: s'.trace == s.trace + [Submit(t, m)]
  {
  }

  lemma TakeEvents(s: Sys)
    requires s.e.cq != []
    ensures var s' := TakeNext(s); s'.trace == s.trace || exists a :: s'.trace == s.trace + [Take(a)]
  {
  }

  lemma SilentSteps(s: Sys, l: Label)
    requires !IsKernel(l) && !(l.Act? && s.phase.Send?) && !l.Next?
    ensures Step(s, l).trace == s.trace
  {
  }

  /** Only the submission submits, and only wait_for_recv picks packets up. */
  lemma EventsOf(s: Sys, l: Label)
    requires s.trace < Step(s, l).trace
    ensures var ev := Step(s, l).trace[|s.trace|];
      (ev.Submit? ==> s.phase.Send?) && (ev.Take? ==> s.phase.Wait?)
  {
    if IsKernel(l) {
      KernelEvents(s, l);
    } else if l.Act? && s.phase.Send? {
      StepAtSend(s, l);
      TransmitEvents(s, s.phase.recv, s.phase.out, l.out);
    } else if l.Next? {
      StepOfNext(s, l);
      if s.phase.Wait? && s.e.cq != [] {
        TakeEvents(s);
      }
    } else {
      SilentSteps(s, l);
    }
  }

  // ---------------------------------------------------------------- submitting

  lemma AddedOutbox(e: Engine, e1: Engine, n: nat, r: Sqe)
    requires n !in e.inflight && e.At(n).opType != TunRead && e1 == e.(inflight := e.inflight[n := r])
    ensures Outbox(e1) == Outbox(e)[n := MsgOf(e1, e.At(n).opType, r)] && n !in Outbox(e)
  {
    var box := Outbox(e)[n := MsgOf(e1, e.At(n).opType, r)];
    forall p: nat
      ensures p in Outbox(e1) <==> p in box
      ensures p in box ==> Outbox(e1)[p] == box[p]
    {
      assert e1.At(p) == e.At(p);
    }
  }

  /** The message of an accepted request, and what stays the same. */
  lemma AcceptedView(e: Engine, e1: Engine, n: nat, dest: Addr)
    requires n !in e.inflight && e.At(n).opType != TunRead
    requires e1 == e.(inflight := e.inflight[n := Sqe(e.At(n).fd, e.At(n).buffer, e.At(n).dataLen, dest)])
    ensures var m := MsgOf(e1, e1.At(n).opType, e1.inflight[n]);
      && Outbox(e1) == Outbox(e)[n := m] && n !in Outbox(e)
      && Arrivals(e1, e1.cq) == Arrivals(e, e.cq)
      && m == var b := e.Read(e.At(n).buffer, e.At(n).dataLen);
              if e.At(n).opType == UdpSend then ToPeer(e.At(n).fd, dest, b) else ToTun(e.At(n).fd, b)
  {
    ArrivalsFrame(e, e1, e.cq);
    AddedOutbox(e, e1, n, e1.inflight[n]);
  }

  lemma SubmitRefines(s: Sys, s': Sys, n: nat, m: Msg)
    requires s'.peers == s.peers && s'.trace == s.trace + [Submit(n, m)]
    requires Continuing(s.phase) && Continuing(s'.phase) && Packet(s'.e, s'.phase) == None
    requires Packet(s.e, s.phase).Some? && Makes(s.mode, s.peers, Packet(s.e, s.phase).value, m)
    requires n !in Outbox(s.e) && Outbox(s'.e) == Outbox(s.e)[n := m]
    requires Arrivals(s'.e, s'.e.cq) == Arrivals(s.e, s.e.cq)
    ensures Refines(s, s')
  {
    assert s'.trace[|s.trace|..] == [Submit(n, m)];
  }

  /** The message of a directed operation is the one the relay makes. */
  lemma DirectedMakes(s: Sys, m: Msg)
    requires ModeOk(s) && s.phase.Send?
    requires var op := s.e.At(s.phase.out);
      var b := s.e.Read(op.buffer, op.dataLen);
      m == if op.opType == UdpSend then ToPeer(op.fd, PeerOf(s.peers, op.fd), b) else ToTun(op.fd, b)
    ensures Makes(s.mode, s.peers, Packet(s.e, s.phase).value, m)
  {
  }

  lemma SentRefines(s: Sys, n: nat, e1: Engine, dest: Addr, s': Sys)
    requires s.phase.Send? && n == s.phase.out && n !in s.e.inflight && s.e.At(n).opType != TunRead && ModeOk(s)
    requires dest == if s.e.At(n).opType == UdpSend then PeerOf(s.peers, s.e.At(n).fd) else []
    requires e1 == s.e.(inflight := s.e.inflight[n := Sqe(s.e.At(n).fd, s.e.At(n).buffer, s.e.At(n).dataLen, dest)])
    requires s' == s.(e := e1, trace := s.trace + [Submit(n, MsgOf(e1, e1.At(n).opType, e1.inflight[n]))],
                      phase := if s.phase.recv.Some? then Done(s.phase.recv.value, true) else Top(None))
    ensures Refines(s, s')
  {
    AcceptedView(s.e, e1, n, dest);
    var m := MsgOf(e1, e1.At(n).opType, e1.inflight[n]);
    DirectedMakes(s, m);
    SubmitRefines(s, s', n, m);
  }

  lemma UnsentQuiet(s: Sys, n: nat, e1: Engine)
    requires Inv(s) && s.phase.Send? && n == s.phase.out && e1 == s.e.(stale := e1.stale)
    ensures Quiet(s.e, e1) && Quiet(s.e, Free(e1, n).0)
  {
    SameCounts(s.e, e1, Hand(s.e, s.phase), s.lost);
    QuietFree(e1, n, Hand(s.e, s.phase), s.lost);
  }

  lemma UnsentRefines(s: Sys, n: nat, e1: Engine, s': Sys)
    requires Inv(s) && s.phase.Send? && n == s.phase.out && e1 == s.e.(stale := e1.stale)
    requires s' == if s.phase.recv.Some? then s.(e := Free(e1, n).0, phase := Done(s.phase.recv.value, false))
                   else Halt(s, e1, None, multiset{n})
    ensures Refines(s, s')
  {
    UnsentQuiet(s, n, e1);
    UnsentShown(s, s');
  }

  lemma UnsentShown(s: Sys, s': Sys)
    requires Quiet(s.e, s'.e) && s' == s.(e := s'.e, phase := s'.phase) && s.phase.Send?
    requires s'.phase.Stopped? || (s'.phase.Done? && !s'.phase.ok)
    ensures Refines(s, s')
  {
    QuietRefines(s, s');
  }

  lemma TransmitRefines(s: Sys, out: Outcome)
    requires Inv(s) && ModeOk(s) && s.phase.Send?
    ensures Refines(s, Transmit(s, s.phase.recv, s.phase.out, out))
  {
    var n := s.phase.out;
    var op := s.e.At(n);
    var dest := if op.opType == UdpSend then PeerOf(s.peers, op.fd) else [];
    var (e1, ok) := SubmitOut(s.e, n, dest, out);
    Located(s.e, Hand(s.e, s.phase), s.lost, n);
    if ok {
      SentRefines(s, n, e1, dest, Transmit(s, s.phase.recv, n, out));
    } else {
      UnsentRefines(s, n, e1, Transmit(s, s.phase.recv, n, out));
    }
  }

  // ---------------------------------------------------------------- coding and flights

  /** Filling the buffer of an operation in hand changes no packet and no message. */
  lemma FillView(e: Engine, n: nat, data: Bytes, hand: multiset<nat>, lost: multiset<nat>)
    requires Own(e, hand, lost) && Singles(e) && n in hand && e.At(n).bufAddr.Some?
    ensures var e' := Fill(e, n, data); Arrivals(e', e'.cq) == Arrivals(e, e.cq) && Outbox(e') == Outbox(e)
  {
    FillBox(e, n, data, hand, lost);
    FillArrivals(e, n, data, hand, lost);
  }

  lemma FillBox(e: Engine, n: nat, data: Bytes, hand: multiset<nat>, lost: multiset<nat>)
    requires Own(e, hand, lost) && Singles(e) && n in hand && e.At(n).bufAddr.Some?
    ensures Outbox(Fill(e, n, data)) == Outbox(e)
  {
    var e' := Fill(e, n, data);
    Located(e, hand, lost, n);
    assert ShapeOk(e.ops[n]);
    FreeBufUnowned(e, hand, lost, n);
    forall p | p in e.inflight
      ensures e'.At(p) == e.At(p) && MsgOf(e', e.At(p).opType, e.inflight[p]) == MsgOf(e, e.At(p).opType, e.inflight[p])
    {
      Located(e, hand, lost, p);
      PoolWriteFrame(e, e', n, hand, lost, p, e.inflight[p].len);
    }
  }

  lemma FillArrivals(e: Engine, n: nat, data: Bytes, hand: multiset<nat>, lost: multiset<nat>)
    requires Own(e, hand, lost) && Singles(e) && n in hand && e.At(n).bufAddr.Some?
    ensures Arrivals(Fill(e, n, data), e.cq) == Arrivals(e, e.cq)
  {
    var e' := Fill(e, n, data);
    Located(e, hand, lost, n);
    assert ShapeOk(e.ops[n]);
    FreeBufUnowned(e, hand, lost, n);
    forall j | 0 <= j < |e.cq|
      ensures SameArrival(e, e', e.cq[j])
    {
      var c := e.cq[j];
      if c.SingleCqe? {
        CqAtLeast(e.cq, j);
        Located(e, hand, lost, c.op);
        assert CqeOk(e, c);
        PoolWriteFrame(e, e', n, hand, lost, c.op, c.res);
      }
    }
    ArrivalsFrame(e, e', e.cq);
  }

  /** A new operation changes no packet and no message, whether it is filled or given back. */
  lemma NewView(s: Sys, t: OpType, fd: int)
    requires Inv(s) && (s.phase.Back? || s.phase.Top?) && t != UdpRecv && t != TunRead
    ensures var (e1, r) := AllocBuf(s.e, t, fd, false, None);
      && Quiet(s.e, e1)
      && (r.Some? ==> Quiet(e1, Free(e1, r.value).0)
                      && Own(e1, Hand(s.e, s.phase) + multiset{r.value}, s.lost) && Singles(e1))
  {
    var hand := Hand(s.e, s.phase);
    AllocNew(s.e, t, fd, hand, s.lost);
    var (e1, r) := AllocBuf(s.e, t, fd, false, None);
    var n := if r.None? then |s.e.ops| else r.value;
    QuietUse(s, e1, n, n);
    SinglesFrame(s.e, e1, n, n, hand, s.lost);
    if r.Some? {
      QuietFree(e1, n, hand + multiset{n}, s.lost);
    }
  }

  /** The engine with a new operation that holds exactly `data`. */
  lemma NewFilled(s: Sys, t: OpType, fd: int, data: Bytes)
    requires Inv(s) && (s.phase.Back? || s.phase.Top?) && t != UdpRecv && t != TunRead
    requires AllocBuf(s.e, t, fd, false, None).1.Some?
    ensures var (e1, r) := AllocBuf(s.e, t, fd, false, None);
      var e', n := Fill(e1, r.value, data), r.value;
      && Arrivals(e', e'.cq) == Arrivals(s.e, s.e.cq) && Outbox(e') == Outbox(s.e)
      && e'.Read(e'.At(n).buffer, e'.At(n).dataLen) == data
      && (s.phase.Back? ==> e'.At(s.phase.op) == s.e.At(s.phase.op))
  {
    var hand := Hand(s.e, s.phase);
    NewView(s, t, fd);
    AllocNew(s.e, t, fd, hand, s.lost);
    var (e1, r) := AllocBuf(s.e, t, fd, false, None);
    QuietView(s.e, e1);
    FilledReads(e1, r.value, data, hand + multiset{r.value}, s.lost);
  }

  lemma FilledReads(e: Engine, n: nat, data: Bytes, hand: multiset<nat>, lost: multiset<nat>)
    requires Own(e, hand, lost) && Singles(e) && n in hand && InUse(e, n)
    requires e.At(n).bufAddr.Some? && e.At(n).buffer == PoolBuffer(e.At(n).bufAddr.value)
    ensures var e' := Fill(e, n, data);
      && Arrivals(e', e'.cq) == Arrivals(e, e.cq) && Outbox(e') == Outbox(e)
      && e'.Read(e'.At(n).buffer, e'.At(n).dataLen) == data
      && forall o: nat | o != n :: e'.At(o) == e.At(o)
  {
    FillView(e, n, data, hand, lost);
    FreeBufUnowned(e, hand, lost, n);
  }

  /** The step of `l` from `s` to `s'` takes up new bytes. */
  ghost predicate LoadStep(s: Sys, l: Label, s': Sys) {
    s'.trace == s.trace && Loads(s.mode, l, Abs(s), Abs(s'))
  }

  lemma CodedLoad(s: Sys, o: nat, n: nat, e': Engine, l: Label)
    requires s.phase == Back(o) && Codes(s.mode) && l.Act? && l.coded.Some?
    requires Arrivals(e', e'.cq) == Arrivals(s.e, s.e.cq) && Outbox(e') == Outbox(s.e)
    requires e'.Read(e'.At(n).buffer, e'.At(n).dataLen) == l.coded.value && e'.At(o) == s.e.At(o)
    ensures LoadStep(s, l, s.(e := e', phase := Send(Some(o), n)))
  {
    assert Carried(e', o, n) == Carried(s.e, o, o).(bytes := l.coded.value);
  }

  lemma FlightLoad(s: Sys, n: nat, e': Engine, l: Label)
    requires s.phase.Top? && s.mode.Handshake? && l.Flight?
    requires Arrivals(e', e'.cq) == Arrivals(s.e, s.e.cq) && Outbox(e') == Outbox(s.e)
    requires e'.Read(e'.At(n).buffer, e'.At(n).dataLen) == l.chunk
    ensures LoadStep(s, l, s.(e := e', phase := Send(None, n)))
  {
  }

  lemma QuietTwice(e: Engine, e1: Engine, e2: Engine)
    requires Quiet(e, e1) && Quiet(e1, e2)
    ensures Quiet(e, e2)
  {
    assert forall j | 0 <= j < |e.cq| :: e1.cq[j] == e.cq[j];
  }

  /** An operation that is not used shows nothing. */
  lemma UnusedQuiet(s: Sys, t: OpType, fd: int)
    requires Inv(s) && (s.phase.Back? || s.phase.Top?) && t != UdpRecv && t != TunRead
    ensures var (e1, r) := AllocBuf(s.e, t, fd, false, None);
      Quiet(s.e, e1) && (r.Some? ==> Quiet(s.e, Free(e1, r.value).0))
  {
    NewView(s, t, fd);
    var (e1, r) := AllocBuf(s.e, t, fd, false, None);
    if r.Some? {
      QuietTwice(s.e, e1, Free(e1, r.value).0);
    }
  }

  /** What a coding step shows: new bytes for the packet, or the end of the loop. */
  ghost predicate CodesOrStops(s: Sys, l: Label, s': Sys) {
    if s'.phase.Send? then l.Act? && l.coded.Some? && LoadStep(s, l, s') else !Continuing(s'.phase) && Refines(s, s')
  }

  lemma StopShows(s: Sys, l: Label, e': Engine, ph: Phase)
    requires Quiet(s.e, e') && Continuing(s.phase) && ((ph.Done? && !ph.ok) || ph.Stopped?)
    ensures CodesOrStops(s, l, s.(e := e', phase := ph))
  {
    QuietRefines(s, s.(e := e', phase := ph));
  }

  lemma RecodeFits(s: Sys, o: nat, t: OpType, fd: int, l: Label)
    requires Inv(s) && s.phase == Back(o) && (t == UdpSend || t == TunWrite) && Codes(s.mode) && l.Act?
    requires AllocBuf(s.e, t, fd, false, None).1.Some? && l.coded.Some?
    ensures var (e1, r) := AllocBuf(s.e, t, fd, false, None);
      CodesOrStops(s, l, s.(e := Fill(e1, r.value, l.coded.value), phase := Send(Some(o), r.value)))
  {
    var (e1, r) := AllocBuf(s.e, t, fd, false, None);
    NewFilled(s, t, fd, l.coded.value);
    CodedLoad(s, o, r.value, Fill(e1, r.value, l.coded.value), l);
  }

  lemma RecodeShows(s: Sys, o: nat, t: OpType, fd: int, l: Label)
    requires Inv(s) && s.phase == Back(o) && (t == UdpSend || t == TunWrite) && Codes(s.mode) && l.Act?
    ensures CodesOrStops(s, l, Recode(s, o, t, fd, l.coded))
  {
    var (e1, r) := AllocBuf(s.e, t, fd, false, None);
    if r.Some? && l.coded.Some? && |l.coded.value| <= BUF_SIZE {
      RecodeFits(s, o, t, fd, l);
    } else {
      UnusedQuiet(s, t, fd);
      StopShows(s, l, if r.None? then e1 else Free(e1, r.value).0, Done(o, false));
    }
  }

  /** A coding node replaces the bytes of the packet by the coded ones, or stops. */
  lemma CodedHandleShows(s: Sys, o: nat, l: Label)
    requires Inv(s) && s.phase == Back(o) && Codes(s.mode) && l.Act?
    ensures CodesOrStops(s, l, Handle(s, o, l.plain, l.coded))
  {
    CodedHandle(s, o, l.plain, l.coded);
    if s.mode.Forward? && (s.e.At(o).opType != UdpRecv || !l.plain) {
      StopShows(s, l, s.e, Stopped(None, Holding(s.e, o)));
    } else {
      RecodeShows(s, o, CodedType(s.mode, s.e.At(o)), CodedFd(s.mode, s.e.At(o)), l);
    }
  }

  /** The handshake driver takes the datagram or drops it. */
  lemma HandshakeRefines(s: Sys, o: nat, plain: bool, coded: Option<Bytes>)
    requires Inv(s) && s.phase == Back(o) && s.mode.Handshake?
    ensures Refines(s, Handle(s, o, plain, coded))
  {
    assert ShapeOk(s.e.ops[o]);
    HandshakeShown(s, o, Handle(s, o, plain, coded));
  }

  lemma HandshakeShown(s: Sys, o: nat, s': Sys)
    requires s.phase == Back(o) && s.mode.Handshake? && s'.e == s.e && s'.trace == s.trace
    requires s'.phase.Stopped? || s'.phase.Top? || s'.phase == Done(o, true)
    requires s'.peers == s.peers || (s.e.At(o).isMulti && s'.peers == Pin(s.peers, s.mode.fd, s.e.At(o).addr))
    ensures Refines(s, s')
  {
    assert s'.trace[|s.trace|..] == [];
    assert Abs(s).cur == Some(Handling(Carried(s.e, o, o)));
  }

  lemma FlightShows(s: Sys, l: Label)
    requires Inv(s) && s.phase.Top? && s.mode.Handshake? && l.Flight?
    ensures var s' := SendFlight(s, s.mode.fd, l.chunk);
      if s'.phase.Send? then LoadStep(s, l, s') else !Continuing(s'.phase) && Refines(s, s')
  {
    var (e1, r) := AllocBuf(s.e, UdpSend, s.mode.fd, false, None);
    if r.None? {
      UnusedQuiet(s, UdpSend, s.mode.fd);
      StopShows(s, l, e1, Stopped(None, multiset{}));
    } else {
      NewFilled(s, UdpSend, s.mode.fd, l.chunk);
      FlightLoad(s, r.value, Fill(e1, r.value, l.chunk), l);
    }
  }

  // ---------------------------------------------------------------- start-up

  lemma FirstArmQuiet(s: Sys, fd: int, out: Outcome)
    requires Inv(s) && s.phase.Top?
    ensures Quiet(s.e, FirstArm(s, fd, out).e)
  {
    AllocMulti(s.e, fd, multiset{}, s.lost);
    var r := AllocBuf(s.e, UdpRecv, fd, true, None).1;
    var n := if r.None? then |s.e.ops| else r.value;
    QuietUse(s, FirstArm(s, fd, out).e, n, n);
  }

  lemma FirstArmRefines(s: Sys, fd: int, out: Outcome)
    requires s.phase.Top? && Quiet(s.e, FirstArm(s, fd, out).e)
    ensures Refines(s, FirstArm(s, fd, out))
  {
    QuietRefines(s, FirstArm(s, fd, out));
  }

  lemma FirstReadQuiet(s: Sys, fd: int)
    requires Inv(s) && s.phase.Top?
    ensures var (e1, r) := AllocBuf(s.e, TunRead, fd, false, None);
      Quiet(s.e, e1) && (r.Some? ==> r.value !in s.e.inflight && e1.At(r.value).opType == TunRead)
  {
    AllocNew(s.e, TunRead, fd, multiset{}, s.lost);
    var (e1, r) := AllocBuf(s.e, TunRead, fd, false, None);
    var n := if r.None? then |s.e.ops| else r.value;
    Located(s.e, multiset{}, s.lost, n);
    QuietUse(s, e1, n, n);
  }

  lemma FirstReadView(s: Sys, fd: int, out: Outcome)
    requires Inv(s) && s.phase.Top?
    ensures var e' := FirstRead(s, fd, out).e;
      Arrivals(e', e'.cq) == Arrivals(s.e, s.e.cq) && Outbox(e') == Outbox(s.e)
  {
    FirstReadQuiet(s, fd);
    var (e1, r) := AllocBuf(s.e, TunRead, fd, false, None);
    QuietView(s.e, e1);
    if r.Some? {
      var e2 := SubmitRead(e1, r.value, out).0;
      SubmitView(e1, e2);
      if out != Accepted {
        AllocNew(s.e, TunRead, fd, multiset{}, s.lost);
        NotStartedQuiet(e1, e2, r.value, s.lost);
        QuietView(e2, Free(e2, r.value).0);
      }
    }
  }

  lemma NotStartedQuiet(e1: Engine, e2: Engine, n: nat, lost: multiset<nat>)
    requires Own(e1, multiset{} + multiset{n}, lost) && e2 == e1.(stale := e2.stale)
    ensures Quiet(e2, Free(e2, n).0)
  {
    SameCounts(e1, e2, multiset{} + multiset{n}, lost);
    assert n in multiset{} + multiset{n};
    QuietFree(e2, n, multiset{} + multiset{n}, lost);
  }

  /** A step of start-up that shows nothing. */
  lemma UnseenRefines(s: Sys, s': Sys)
    requires s.phase.Top? && (s'.phase == s.phase || s'.phase.Stopped?) && s'.peers == s.peers && s'.trace == s.trace
    requires Arrivals(s'.e, s'.e.cq) == Arrivals(s.e, s.e.cq) && Outbox(s'.e) == Outbox(s.e)
    ensures Refines(s, s')
  {
    if s'.phase.Stopped? {
      HaltRefines(s, s');
    } else {
      StutterRefines(s, s');
    }
  }

  lemma FirstReadRefines(s: Sys, fd: int, out: Outcome)
    requires Inv(s) && s.phase.Top?
    ensures Refines(s, FirstRead(s, fd, out))
  {
    FirstReadView(s, fd, out);
    UnseenRefines(s, FirstRead(s, fd, out));
  }

  lemma StartRefines(s: Sys, l: Label)
    requires Inv(s) && (l.ArmUdp? || l.StartRead?)
    ensures Refines(s, Step(s, l))
  {
    if !(s.phase.Top? && s.mode.Setup? && (l.ArmUdp? ==> l.fd !in s.udp)) {
      StutterRefines(s, s);
    } else if l.ArmUdp? {
      FirstArmQuiet(s, l.fd, l.out);
      FirstArmRefines(s, l.fd, l.out);
    } else {
      FirstReadRefines(s, l.fd, l.out);
    }
  }

  // ---------------------------------------------------------------- every step

  /** Entering a loop, waiting and leaving show nothing. */
  lemma HeadRefines(s: Sys, l: Label)
    requires l.Enter? || l.Run? || l.WaitFails?
    ensures Refines(s, Step(s, l))
  {
    if (l.WaitFails? && s.phase.Wait?) || (l.Run? && !l.go && s.phase.Top? && !s.mode.Setup?) {
      var last := if s.phase.Top? then s.phase.last else None;
      HaltRefines(s, Halt(s, s.e, last, multiset{}));
    } else if l.Run? && s.phase.Top? && !s.mode.Setup? {
      StutterRefines(s, s.(phase := Wait));
    } else if l.Enter? {
      StutterRefines(s, Step(s, l));
    } else {
      StutterRefines(s, s);
    }
  }

  lemma HandleRefines(s: Sys, o: nat, l: Label)
    requires Inv(s) && s.phase == Back(o) && l.Act? && !Codes(s.mode)
    ensures Refines(s, Handle(s, o, l.plain, l.coded))
  {
    match s.mode
    case Setup => HaltRefines(s, Halt(s, s.e, None, Holding(s.e, o)));
    case Handshake(_) => HandshakeRefines(s, o, l.plain, l.coded);
    case Zero(_, _) => ZeroHandleRefines(s, o, l.plain, l.coded);
  }

  lemma WaitActRefines(s: Sys, l: Label)
    requires Inv(s) && l.Act? && !s.phase.Back? && !s.phase.Send? && !s.phase.Done?
    ensures Refines(s, Step(s, l))
  {
    match s.phase {
      case Got(_) => StepAtGot(s, l); DispatchRefines(s);
      case Resub(o, n) =>
        Located(s.e, multiset{o, n}, s.lost, n);
        StepAtResub(s, l);
        ResubmitRefines(s, l.out);
      case Rearm(_) => StepAtRearm(s, l); ReactivateRefines(s, l.out);
      case Bail(_, _) => StepAtBail(s, l); BailRefines(s);
      case _ => StutterRefines(s, s);
    }
  }

  lemma LoopActRefines(s: Sys, l: Label)
    requires Inv(s) && ModeOk(s) && l.Act? && !(Codes(s.mode) && s.phase.Back?)
    requires s.phase.Back? || s.phase.Send? || s.phase.Done?
    ensures Refines(s, Step(s, l))
  {
    match s.phase {
      case Back(o) => StepAtBack(s, l); HandleRefines(s, o, l);
      case Send(_, _) => StepAtSend(s, l); TransmitRefines(s, l.out);
      case Done(_, _) => StepAtDone(s, l); FinishRefines(s);
    }
  }

  lemma KernelRefines(s: Sys, l: Label)
    requires Inv(s) && IsKernel(l)
    ensures Refines(s, KernelStep(s, l))
  {
    match l
    case KRead(o, data) => KReadRefines(s, o, data);
    case KComplete(o, res) => KCompleteRefines(s, o, res);
    case KRecv(o, name, payload, more) => KRecvRefines(s, o, name, payload, more);
    case KNoBuffer(o, res, more) => KNoBufferRefines(s, o, res, more);
  }

  lemma NextRefines(s: Sys)
    requires Inv(s)
    ensures Refines(s, Step(s, Next))
  {
    StepOfNext(s, Next);
    if s.phase.Wait? && s.e.cq != [] {
      if s.e.cq[0].SingleCqe? { TakeSingleRefines(s); } else { TakeMultiRefines(s); }
    } else {
      StutterRefines(s, s);
    }
  }

  /** The step codes a packet. */
  ghost predicate IsCoding(s: Sys, l: Label) { l.Act? && s.phase.Back? && Codes(s.mode) }

  /** The step takes up a chunk of a handshake flight. */
  ghost predicate IsFlight(s: Sys, l: Label) { l.Flight? && s.phase.Top? && s.mode.Handshake? && |l.chunk| <= BUF_SIZE }

  /** What the step of `l` to `s'` shows: a step of the relay, or new bytes when it codes or takes up a chunk. */
  ghost predicate Shows(s: Sys, l: Label, s': Sys) {
    if IsCoding(s, l) then CodesOrStops(s, l, s')
    else if IsFlight(s, l) && s'.phase.Send? then LoadStep(s, l, s')
    else Refines(s, s')
  }

  lemma CodingShown(s: Sys, l: Label)
    requires Inv(s) && IsCoding(s, l)
    ensures Shows(s, l, Step(s, l))
  {
    StepAtBack(s, l);
    CodedHandleShows(s, s.phase.op, l);
  }

  lemma FlightShown(s: Sys, l: Label)
    requires Inv(s) && IsFlight(s, l)
    ensures Shows(s, l, Step(s, l))
  {
    StepOfFlight(s, l);
    FlightShows(s, l);
  }

  lemma PlainShown(s: Sys, l: Label)
    requires Inv(s) && ModeOk(s) && !IsCoding(s, l) && !IsFlight(s, l)
    ensures Shows(s, l, Step(s, l))
  {
    PlainRefines(s, l);
  }

  /** Every step of every program and of the kernel is a step of the relay, or gives it new bytes. */
  lemma StepShows(s: Sys, l: Label)
    requires Inv(s) && ModeOk(s)
    ensures Shows(s, l, Step(s, l))
  {
    if IsCoding(s, l) {
      CodingShown(s, l);
    } else if IsFlight(s, l) {
      FlightShown(s, l);
    } else {
      PlainShown(s, l);
    }
  }

  lemma PlainRefines(s: Sys, l: Label)
    requires Inv(s) && ModeOk(s) && !IsCoding(s, l) && !IsFlight(s, l)
    ensures Refines(s, Step(s, l))
  {
    match l
    case Next => NextRefines(s);
    case Act(_, _, _) => ActRefines(s, l);
    case ArmUdp(_, _) => StartRefines(s, l);
    case StartRead(_, _) => StartRefines(s, l);
    case Flight(_) => StutterRefines(s, s);
    case Enter(_) => HeadRefines(s, l);
    case Run(_) => HeadRefines(s, l);
    case WaitFails => HeadRefines(s, l);
    case _ => KernelRefines(s, l);
  }

  lemma ActRefines(s: Sys, l: Label)
    requires Inv(s) && ModeOk(s) && l.Act? && !IsCoding(s, l)
    ensures Refines(s, Step(s, l))
  {
    if s.phase.Back? || s.phase.Send? || s.phase.Done? {
      LoopActRefines(s, l);
    } else {
      WaitActRefines(s, l);
    }
  }
}
