/**
  A whole turn of an event loop on one packet, with the kernel acting in between: when it ends at
  the head of the loop with the packet's message submitted, and when it does not.
 */
module Turns {
  import opened Base
  import opened Engine
  import opened Machine
  import opened Ownership
  import opened OwnershipSteps
  import opened Invariant
  import opened InvariantSteps
  import opened EngineFrames
  import opened CopyRelay
  import opened CopySteps
  import opened RelaySteps
  import opened LoopSteps
  import opened Ledger
  import opened Integrity
  import opened Stopping
  import opened Guarantees
  import opened Progress
  import opened Causes

  // ---------------------------------------------------------------- what a turn does

  ghost predicate KernelOnly(ls: seq<Label>) { forall i | 0 <= i < |ls| :: IsKernel(ls[i]) }

  /** The packet is handled, the outgoing operation submitted and the received one released. */
  ghost function Turn(s: Sys, a1: Label, k1: seq<Label>, a2: Label, k2: seq<Label>, a3: Label): Sys {
    Step(Exec(Step(Exec(Step(s, a1), k1), a2), k2), a3)
  }

  /** The packet that wait_for_recv returned, as it is passed on. */
  ghost function PassedOn(s: Sys, l: Label): Arrival
    requires s.phase.Back? && l.Act?
  {
    var a := Carried(s.e, s.phase.op, s.phase.op);
    if Codes(s.mode) && l.coded.Some? then a.(bytes := l.coded.value) else a
  }

  /** The socket or device on the other side. */
  ghost function OtherSide(m: Mode, recv: Op): int
    requires Relays(m)
  {
    if m.Zero? then (if recv.isMulti then m.tunFd else m.udpFd) else CodedFd(m, recv)
  }

  /** How many bytes are submitted. */
  ghost function Length(s: Sys, l: Label): int
    requires s.phase.Back? && l.Act?
  {
    if Codes(s.mode) && l.coded.Some? then |l.coded.value| else s.e.At(s.phase.op).dataLen
  }

  /** The conditions for a packet to be passed on. */
  ghost predicate Passes(s: Sys, a1: Label, a2: Label)
    requires s.phase.Back? && Relays(s.mode) && a1.Act? && a2.Act?
  {
    && !Unprepared(s, s.phase.op, a1.plain, a1.coded)
    && 0 < Length(s, a1) <= BUF_SIZE && OtherSide(s.mode, s.e.At(s.phase.op)) >= 0
    && a2.out == Accepted
  }

  /** The first datagram of the zero-copy edge fixes its peer. */
  ghost function PeersNext(s: Sys): map<int, Addr>
    requires s.phase.Back?
  {
    if s.mode.Zero? && s.e.At(s.phase.op).isMulti then Pin(s.peers, s.mode.udpFd, s.e.At(s.phase.op).addr) else s.peers
  }

  /** How a turn from `s` ends. */
  ghost predicate TurnEnds(s: Sys, a1: Label, a2: Label, s': Sys)
    requires s.phase.Back? && Relays(s.mode) && a1.Act? && a2.Act?
  {
    if Passes(s, a1, a2) then
      && s'.phase == Top(if s.e.At(s.phase.op).isMulti then Some(s.phase.op) else None)
      && Subs(s'.trace) == Subs(s.trace) + [MsgFor(s.mode, PeersNext(s), PassedOn(s, a1))]
    else s'.phase.Stopped? && Subs(s'.trace) == Subs(s.trace)
  }

  // ---------------------------------------------------------------- the kernel in between

  /** What the program is doing is the same, and nothing was submitted. */
  ghost predicate Meanwhile(s: Sys, s': Sys) {
    && s'.phase == s.phase && s'.mode == s.mode && s'.peers == s.peers && s'.e.ops == s.e.ops
    && Packet(s'.e, s'.phase) == Packet(s.e, s.phase) && Subs(s'.trace) == Subs(s.trace)
  }

  lemma NoSubmission(tr: seq<Event>, tr': seq<Event>)
    requires tr' == tr || exists ev :: tr' == tr + [ev] && !ev.Submit? && !ev.Take?
    ensures Subs(tr') == Subs(tr)
  {
    if tr' != tr {
      var ev :| tr' == tr + [ev] && !ev.Submit? && !ev.Take?;
      Added(tr, ev);
    }
  }

  lemma KernelMeanwhile(s: Sys, l: Label)
    requires Inv(s) && ModeOk(s) && Relays(s.mode) && IsKernel(l)
    ensures Meanwhile(s, Step(s, l))
  {
    var s' := KernelStep(s, l);
    assert Step(s, l) == s';
    KernelEvents(s, l);
    NoSubmission(s.trace, s'.trace);
    KernelRefines(s, l);
    SamePacket(s, s');
    assert s'.e.ops == s.e.ops;
  }

  /** A step of the relay that neither takes nor submits keeps what is worked on. */
  lemma SamePacket(s: Sys, s': Sys)
    requires Refines(s, s') && Relays(s.mode) && s'.phase == s.phase
    requires s'.trace == s.trace || exists ev :: s'.trace == s.trace + [ev] && !ev.Submit? && !ev.Take?
    ensures Packet(s'.e, s'.phase) == Packet(s.e, s.phase)
  {
    if s'.trace == s.trace {
      assert s'.trace[|s.trace|..] == [];
    } else {
      var ev :| s'.trace == s.trace + [ev] && !ev.Submit? && !ev.Take?;
      assert s'.trace[|s.trace|..] == [ev];
    }
  }

  lemma {:induction false} KernelRuns(s: Sys, ls: seq<Label>)
    requires Inv(s) && ModeOk(s) && Relays(s.mode) && KernelOnly(ls)
    ensures Meanwhile(s, Exec(s, ls)) && Inv(Exec(s, ls)) && ModeOk(Exec(s, ls))
    decreases |ls|
  {
    if ls != [] {
      KernelMeanwhile(s, ls[0]);
      StepKeeps(s, ls[0]);
      ModeOkKeeps(s, ls[0]);
      KernelRuns(Step(s, ls[0]), ls[1..]);
    }
  }

  // ---------------------------------------------------------------- the three steps of a turn

  /** `s1` is the state in which the packet of `s` is about to be submitted. */
  ghost predicate Prepared(s: Sys, a1: Label, s1: Sys)
    requires s.phase.Back? && Relays(s.mode) && a1.Act?
  {
    && s1.phase.Send? && s1.phase.recv == Some(s.phase.op) && s1.mode == s.mode && s1.peers == PeersNext(s)
    && s1.e.At(s1.phase.out).dataLen == Length(s, a1) && s1.e.At(s1.phase.out).fd == OtherSide(s.mode, s.e.At(s.phase.op))
    && s1.e.At(s.phase.op).isMulti == s.e.At(s.phase.op).isMulti
    && Packet(s1.e, s1.phase) == Some(Handling(PassedOn(s, a1))) && Subs(s1.trace) == Subs(s.trace)
  }

  /** Only the phase and the engine change, and the program is about to release the packet's operation. */
  ghost predicate GivesUpOn(s: Sys, s1: Sys)
    requires s.phase.Back?
  {
    && s1.mode == s.mode && Subs(s1.trace) == Subs(s.trace)
    && (s1.phase == Done(s.phase.op, false) || s1.phase.Stopped?)
  }

  lemma RelayMoves(s: Sys, o: nat, t: OpType, fd: int)
    requires Inv(s) && s.phase == Back(o)
    ensures var s1 := Relay(s, o, t, fd);
      && s1 == s.(e := s1.e, phase := s1.phase)
      && s1.e.At(o).isMulti == s.e.At(o).isMulti
      && (s1.phase.Send? ==> s1.e.At(s1.phase.out).dataLen == s.e.At(o).dataLen && s1.e.At(s1.phase.out).fd == fd)
  {
    AllocMove(s.e, t, fd, o, Holding(s.e, o), s.lost);
  }

  lemma ZeroPrepares(s: Sys, a1: Label)
    requires Inv(s) && s.phase.Back? && s.mode.Zero? && a1.Act?
    ensures var s1 := Step(s, a1);
      && s1.mode == s.mode && s1.peers == PeersNext(s) && s1.trace == s.trace
      && s1.e.At(s.phase.op).isMulti == s.e.At(s.phase.op).isMulti
      && (s1.phase.Send? ==> s1.e.At(s1.phase.out).dataLen == s.e.At(s.phase.op).dataLen
                             && s1.e.At(s1.phase.out).fd == OtherSide(s.mode, s.e.At(s.phase.op)))
  {
    var o := s.phase.op;
    assert ShapeOk(s.e.ops[o]);
    StepAtBack(s, a1);
    if s.e.At(o).opType == TunRead {
      RelayMoves(s, o, UdpSend, s.mode.udpFd);
    } else {
      var pinned := s.(peers := Pin(s.peers, s.mode.udpFd, s.e.At(o).addr));
      PhaseOnly(s, pinned);
      RelayMoves(pinned, o, TunWrite, s.mode.tunFd);
    }
  }

  lemma ZeroCarries(s: Sys, s1: Sys)
    requires Refines(s, s1) && s.mode.Zero? && s.phase.Back? && s1.trace == s.trace && s1.phase.Send?
    ensures Packet(s1.e, s1.phase) == Some(Handling(Carried(s.e, s.phase.op, s.phase.op)))
  {
    assert s1.trace[|s.trace|..] == [];
  }

  lemma ZeroPhase(s: Sys, a1: Label)
    requires Inv(s) && s.phase.Back? && s.mode.Zero? && a1.Act?
    ensures Step(s, a1).phase == if s.e.freeOps == [] then Done(s.phase.op, false) else Send(Some(s.phase.op), First(s.e.freeOps))
  {
    var o := s.phase.op;
    StepAtBack(s, a1);
    assert ShapeOk(s.e.ops[o]);
    RelayPhase(s, o, UdpSend, s.mode.udpFd);
    RelayPhase(s.(peers := Pin(s.peers, s.mode.udpFd, s.e.At(o).addr)), o, TunWrite, s.mode.tunFd);
  }

  lemma ZeroShown(s: Sys, a1: Label)
    requires Inv(s) && ModeOk(s) && s.phase.Back? && s.mode.Zero? && a1.Act?
    ensures var s1 := Step(s, a1);
      s1.trace == s.trace && s1.phase.Send? ==> Packet(s1.e, s1.phase) == Some(Handling(Carried(s.e, s.phase.op, s.phase.op)))
  {
    StepShows(s, a1);
    var s1 := Step(s, a1);
    if s1.trace == s.trace && s1.phase.Send? {
      ZeroCarries(s, s1);
    }
  }

  lemma ZeroFirst(s: Sys, a1: Label)
    requires Inv(s) && ModeOk(s) && s.phase.Back? && s.mode.Zero? && a1.Act?
    ensures var s1 := Step(s, a1);
      if Unprepared(s, s.phase.op, a1.plain, a1.coded) then GivesUpOn(s, s1) else Prepared(s, a1, s1)
  {
    ZeroPhase(s, a1);
    ZeroPrepares(s, a1);
    ZeroShown(s, a1);
  }

  lemma RecodeFills(s: Sys, o: nat, t: OpType, fd: int, coded: Option<Bytes>)
    requires Own(s.e, Holding(s.e, o), s.lost) && InUse(s.e, o) && (t == UdpSend || t == TunWrite)
    ensures var s1 := Recode(s, o, t, fd, coded);
      && s1 == s.(e := s1.e, phase := s1.phase) && s1.e.At(o) == s.e.At(o)
      && (s1.phase.Send? ==> coded.Some? && s1.e.At(s1.phase.out).dataLen == |coded.value| && s1.e.At(s1.phase.out).fd == fd)
  {
    RecodeLeaves(s, o, t, fd, coded);
    if AllocBuf(s.e, t, fd, false, None).1.Some? && coded.Some? {
      AllocFill(s.e, t, fd, coded.value, Holding(s.e, o), s.lost);
    }
  }

  lemma CodingPrepares(s: Sys, a1: Label)
    requires Inv(s) && s.phase.Back? && Codes(s.mode) && a1.Act?
    ensures var s1 := Step(s, a1);
      && s1.mode == s.mode && s1.peers == s.peers && s1.trace == s.trace
      && s1.e.At(s.phase.op) == s.e.At(s.phase.op)
      && (s1.phase.Send? ==> a1.coded.Some? && s1.e.At(s1.phase.out).dataLen == |a1.coded.value|
                             && s1.e.At(s1.phase.out).fd == CodedFd(s.mode, s.e.At(s.phase.op)))
  {
    var o := s.phase.op;
    StepAtBack(s, a1);
    CodedHandle(s, o, a1.plain, a1.coded);
    RecodeFills(s, o, CodedType(s.mode, s.e.At(o)), CodedFd(s.mode, s.e.At(o)), a1.coded);
  }

  lemma CodingPhase(s: Sys, a1: Label)
    requires Inv(s) && s.phase.Back? && Codes(s.mode) && a1.Act?
    ensures var ph := Step(s, a1).phase;
      if Unprepared(s, s.phase.op, a1.plain, a1.coded) then ph == Done(s.phase.op, false) || ph.Stopped?
      else ph == Send(Some(s.phase.op), First(s.e.freeOps))
  {
    var o := s.phase.op;
    StepAtBack(s, a1);
    CodedHandle(s, o, a1.plain, a1.coded);
    RecodePhase(s, o, CodedType(s.mode, s.e.At(o)), CodedFd(s.mode, s.e.At(o)), a1.coded);
  }

  lemma CodingCarries(s: Sys, a1: Label, s1: Sys)
    requires CodesOrStops(s, a1, s1) && Codes(s.mode) && s.phase.Back? && a1.Act? && s1.phase.Send?
    ensures Packet(s1.e, s1.phase) == Some(Handling(PassedOn(s, a1)))
  {
  }

  lemma CodingFirst(s: Sys, a1: Label)
    requires Inv(s) && ModeOk(s) && s.phase.Back? && Codes(s.mode) && a1.Act?
    ensures var s1 := Step(s, a1);
      if Unprepared(s, s.phase.op, a1.plain, a1.coded) then GivesUpOn(s, s1) else Prepared(s, a1, s1)
  {
    var s1 := Step(s, a1);
    CodingPrepares(s, a1);
    CodingPhase(s, a1);
    CodingShown(s, a1);
    if s1.phase.Send? {
      CodingCarries(s, a1, s1);
    }
  }

  /** The message the relay makes of the packet in hand. */
  lemma SendMakes(s: Sys, s': Sys, n: nat, m: Msg, a: Arrival)
    requires Refines(s, s') && Relays(s.mode) && Packet(s.e, s.phase) == Some(Handling(a))
    requires s'.trace == s.trace + [Submit(n, m)]
    ensures m == MsgFor(s.mode, s.peers, a) && Subs(s'.trace) == Subs(s.trace) + [m]
  {
    assert s'.trace[|s.trace|..] == [Submit(n, m)];
    Added(s.trace, Submit(n, m));
  }

  lemma TransmitTraces(s: Sys, o: nat, n: nat, out: Outcome)
    ensures var s' := Transmit(s, Some(o), n, out);
      if Refused(s.e, n, out) then s'.phase == Done(o, false) && s'.trace == s.trace
      else s'.phase == Done(o, true) && s'.e.ops == s.e.ops && exists m :: s'.trace == s.trace + [Submit(n, m)]
  {
  }

  lemma SecondStep(s: Sys, a2: Label, a: Arrival)
    requires Inv(s) && ModeOk(s) && Relays(s.mode) && s.phase.Send? && s.phase.recv.Some? && a2.Act?
    requires Packet(s.e, s.phase) == Some(Handling(a))
    ensures var s', o := Step(s, a2), s.phase.recv.value;
      && s'.mode == s.mode
      && if Refused(s.e, s.phase.out, a2.out) then s'.phase == Done(o, false) && Subs(s'.trace) == Subs(s.trace)
         else s'.phase == Done(o, true) && s'.e.ops == s.e.ops && Subs(s'.trace) == Subs(s.trace) + [MsgFor(s.mode, s.peers, a)]
  {
    var s' := Step(s, a2);
    StepAtSend(s, a2);
    TransmitTraces(s, s.phase.recv.value, s.phase.out, a2.out);
    TransmitRefines(s, a2.out);
    if !Refused(s.e, s.phase.out, a2.out) {
      var m :| s'.trace == s.trace + [Submit(s.phase.out, m)];
      SendMakes(s, s', s.phase.out, m, a);
    }
  }

  ghost predicate Sound(s: Sys) { Inv(s) && ModeOk(s) && Relays(s.mode) }

  /** The release at the end of a turn: the loop keeps a multishot operation as its last one. */
  lemma ReleasedLast(e: Engine, o: nat, lost: multiset<nat>)
    requires Own(e, Holding(e, o), lost) && Releasable(e, o)
    ensures Free(e, o).1 == if e.At(o).isMulti then Some(o) else None
  {
    Located(e, Holding(e, o), lost, o);
    FreeKeeps(e, o, Holding(e, o), lost);
    FreeFrame(e, o);
  }

  lemma ThirdStep(s: Sys, a3: Label)
    requires Sound(s) && (s.phase.Done? || s.phase.Stopped?) && a3.Act?
    ensures var s' := Step(s, a3);
      && s'.trace == s.trace && s'.mode == s.mode
      && if s.phase.Done? && s.phase.ok then s'.phase == Top(if s.e.At(s.phase.op).isMulti then Some(s.phase.op) else None)
         else s'.phase.Stopped?
  {
    if s.phase.Done? {
      StepAtDone(s, a3);
      ReleasedLast(s.e, s.phase.op, s.lost);
    }
  }

  // ---------------------------------------------------------------- whole turns

  lemma StepSound(s: Sys, l: Label)
    requires Sound(s) && l.Act?
    ensures Sound(Step(s, l))
  {
    StepKeeps(s, l);
    ModeOkKeeps(s, l);
    ActKeepsMode(s, l);
  }

  /** A turn that was given up on ends the loop. */
  lemma GivenUp(s: Sys, s1: Sys, k1: seq<Label>, a2: Label, k2: seq<Label>, a3: Label)
    requires s.phase.Back? && GivesUpOn(s, s1) && Sound(s1)
    requires a2.Act? && a3.Act? && KernelOnly(k1) && KernelOnly(k2)
    ensures var s' := Step(Exec(Step(Exec(s1, k1), a2), k2), a3); s'.phase.Stopped? && Subs(s'.trace) == Subs(s.trace)
  {
    var s2 := Exec(s1, k1);
    KernelRuns(s1, k1);
    ThirdStep(s2, a2);
    StepSound(s2, a2);
    KernelRuns(Step(s2, a2), k2);
    ThirdStep(Exec(Step(s2, a2), k2), a3);
  }

  /** The end of a turn. */
  lemma LastPart(s: Sys, k2: seq<Label>, a3: Label)
    requires Sound(s) && s.phase.Done? && KernelOnly(k2) && a3.Act?
    ensures var s' := Step(Exec(s, k2), a3);
      && Subs(s'.trace) == Subs(s.trace)
      && if s.phase.ok then s'.phase == Top(if s.e.At(s.phase.op).isMulti then Some(s.phase.op) else None) else s'.phase.Stopped?
  {
    KernelRuns(s, k2);
    ThirdStep(Exec(s, k2), a3);
  }

  /** The kernel does not touch a prepared packet. */
  lemma StaysPrepared(s: Sys, a1: Label, s1: Sys, s2: Sys)
    requires s.phase.Back? && Relays(s.mode) && a1.Act? && Prepared(s, a1, s1) && Meanwhile(s1, s2)
    ensures Prepared(s, a1, s2)
  {
    assert forall o: nat :: s2.e.At(o) == s1.e.At(o);
  }

  /** A prepared packet is refused only for its length, its socket or by the kernel. */
  lemma RefusedIff(s: Sys, a1: Label, s2: Sys, a2: Label)
    requires s.phase.Back? && Relays(s.mode) && a1.Act? && a2.Act? && Prepared(s, a1, s2)
    requires !Unprepared(s, s.phase.op, a1.plain, a1.coded)
    ensures Refused(s2.e, s2.phase.out, a2.out) <==> !Passes(s, a1, a2)
  {
  }

  /** `s3` is the state in which the packet of `s` was submitted, or could not be. */
  ghost predicate HandedOver(s: Sys, a1: Label, a2: Label, s3: Sys)
    requires s.phase.Back? && Relays(s.mode) && a1.Act? && a2.Act?
  {
    && s3.phase == Done(s.phase.op, Passes(s, a1, a2))
    && (Passes(s, a1, a2) ==> s3.e.At(s.phase.op).isMulti == s.e.At(s.phase.op).isMulti)
    && Subs(s3.trace) == Subs(s.trace) + if Passes(s, a1, a2) then [MsgFor(s.mode, PeersNext(s), PassedOn(s, a1))] else []
  }

  lemma SecondGives(s: Sys, a1: Label, s2: Sys, a2: Label)
    requires s.phase.Back? && Relays(s.mode) && a1.Act? && a2.Act? && Prepared(s, a1, s2) && Sound(s2)
    requires !Unprepared(s, s.phase.op, a1.plain, a1.coded)
    ensures HandedOver(s, a1, a2, Step(s2, a2))
  {
    RefusedIff(s, a1, s2, a2);
    SecondStep(s2, a2, PassedOn(s, a1));
    assert Subs(s.trace) + [] == Subs(s.trace);
  }

  lemma SubmittedEnds(s: Sys, a1: Label, a2: Label, s3: Sys, k2: seq<Label>, a3: Label)
    requires s.phase.Back? && Relays(s.mode) && a1.Act? && a2.Act? && a3.Act? && KernelOnly(k2)
    requires HandedOver(s, a1, a2, s3) && Sound(s3)
    ensures TurnEnds(s, a1, a2, Step(Exec(s3, k2), a3))
  {
    LastPart(s3, k2, a3);
    assert Subs(s.trace) + [] == Subs(s.trace);
  }

  /** A turn whose packet was prepared ends with its submission, or with the loop. */
  lemma PreparedEnds(s: Sys, a1: Label, s1: Sys, k1: seq<Label>, a2: Label, k2: seq<Label>, a3: Label)
    requires s.phase.Back? && Relays(s.mode) && a1.Act? && Prepared(s, a1, s1) && Sound(s1)
    requires !Unprepared(s, s.phase.op, a1.plain, a1.coded)
    requires a2.Act? && a3.Act? && KernelOnly(k1) && KernelOnly(k2)
    ensures TurnEnds(s, a1, a2, Step(Exec(Step(Exec(s1, k1), a2), k2), a3))
  {
    var s2 := Exec(s1, k1);
    KernelRuns(s1, k1);
    StaysPrepared(s, a1, s1, s2);
    SecondGives(s, a1, s2, a2);
    StepSound(s2, a2);
    SubmittedEnds(s, a1, a2, Step(s2, a2), k2, a3);
  }

  lemma TurnFrom(s: Sys, a1: Label, k1: seq<Label>, a2: Label, k2: seq<Label>, a3: Label)
    requires Sound(s) && s.phase.Back?
    requires a1.Act? && a2.Act? && a3.Act? && KernelOnly(k1) && KernelOnly(k2)
    ensures TurnEnds(s, a1, a2, Turn(s, a1, k1, a2, k2, a3))
  {
    var s1 := Step(s, a1);
    StepSound(s, a1);
    if s.mode.Zero? { ZeroFirst(s, a1); } else { CodingFirst(s, a1); }
    if Unprepared(s, s.phase.op, a1.plain, a1.coded) {
      GivenUp(s, s1, k1, a2, k2, a3);
    } else {
      PreparedEnds(s, a1, s1, k1, a2, k2, a3);
    }
  }

  /**
    In every run of an edge or a forwarder, the turn on a packet that wait_for_recv returned ends at
    the head of the loop if and only if an operation is free, the codec gave 1 to BUF_SIZE bytes (or
    the plain packet is not empty), the socket is valid and the submission was accepted; exactly one
    message more is then submitted, the one made of the packet. Otherwise the loop is left and
    nothing is submitted. The kernel may act between the steps as it likes.
   */
  lemma PacketPassedIff(nOps: nat, nRing: nat, peers: map<int, Addr>, ls: seq<Label>,
                        a1: Label, k1: seq<Label>, a2: Label, k2: seq<Label>, a3: Label)
    requires var s := After(nOps, nRing, peers, ls); s.phase.Back? && Relays(s.mode)
    requires a1.Act? && a2.Act? && a3.Act? && KernelOnly(k1) && KernelOnly(k2)
    ensures var s := After(nOps, nRing, peers, ls); TurnEnds(s, a1, a2, Turn(s, a1, k1, a2, k2, a3))
  {
    Reached(nOps, nRing, peers, ls);
    InitialInv(nOps, nRing, peers);
    RunForwardOk(Initial(nOps, nRing, peers), ls);
    TurnFrom(After(nOps, nRing, peers, ls), a1, k1, a2, k2, a3);
  }
}
