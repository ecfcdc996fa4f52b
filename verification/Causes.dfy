/** Why a program leaves its loop, and where each of its steps leads otherwise: exactly, in every run. */
module Causes {
  import opened Base
  import opened Engine
  import opened Machine
  import opened Ownership
  import opened OwnershipSteps
  import opened Invariant
  import opened InvariantSteps
  import opened Counting
  import opened CopyRelay
  import opened RelaySteps
  import opened Guarantees
  import opened Stopping
  import opened Progress

  // ---------------------------------------------------------------- causes

  /** The completion is of no use: an error, or a datagram without a buffer, an address or a payload. */
  ghost predicate Faulty(e: Engine, c: Cqe) {
    c.res < 0 || (c.MultiCqe? && (c.buf.None? || e.SlotAt(c.buf.value).name == [] || c.res == HEADER))
  }

  /** The codec gave something, and it fits a buffer. */
  predicate FitsBuffer(coded: Option<Bytes>) { coded.Some? && |coded.value| <= BUF_SIZE }

  /** The packet of operation `o` cannot be prepared for sending. */
  ghost predicate Unprepared(s: Sys, o: nat, plain: bool, coded: Option<Bytes>) {
    match s.mode
    case Setup => true
    case Handshake(_) => false
    case Zero(_, _) => s.e.freeOps == []
    case Dtls(_, _) => s.e.freeOps == [] || !FitsBuffer(coded)
    case Forward(_, _) => s.e.At(o).opType != UdpRecv || !plain || s.e.freeOps == [] || !FitsBuffer(coded)
  }

  /** The causes for which the step of `l` makes a program leave its loop. */
  ghost predicate Leaves(s: Sys, l: Label) {
    match l
    case ArmUdp(fd, out) => s.phase.Top? && s.mode.Setup? && fd !in s.udp && (s.e.freeOps == [] || out != Accepted)
    case StartRead(_, out) => s.phase.Top? && s.mode.Setup? && s.e.freeOps != [] && out != Accepted
    case Flight(_) => IsFlight(s, l) && s.e.freeOps == []
    case Run(go) => s.phase.Top? && !s.mode.Setup? && !go
    case WaitFails => s.phase.Wait?
    case Next => s.phase.Wait? && s.e.cq != [] && Faulty(s.e, s.e.cq[0])
    case Act(out, plain, coded) => ActLeaves(s, out, plain, coded)
    case _ => false
  }

  ghost predicate ActLeaves(s: Sys, out: Outcome, plain: bool, coded: Option<Bytes>) {
    match s.phase
    case Got(o) => s.e.At(o).opType == TunRead && s.e.freeOps == []
    case Resub(_, _) => out != Accepted
    case Rearm(_) => out != Accepted
    case Back(o) => Unprepared(s, o, plain, coded)
    case Send(_, n) => Refused(s.e, n, out)
    case _ => false
  }

  function First(list: seq<nat>): nat { if list == [] then 0 else list[0] }

  /** Where the step of `l` leads when it does not leave the loop. */
  ghost predicate Proceeds(s: Sys, l: Label, ph: Phase) {
    match l
    case Flight(_) => if IsFlight(s, l) then ph.Send? && ph.recv.None? else ph == s.phase
    case Run(_) => ph == if s.phase.Top? && !s.mode.Setup? then Wait else s.phase
    case Next => if s.phase.Wait? && s.e.cq != [] then ph == TakenTo(s.e.cq[0]) else ph == s.phase
    case Act(_, _, _) => ActProceeds(s, ph)
    case _ => ph == s.phase
  }

  ghost function TakenTo(c: Cqe): Phase {
    if c.SingleCqe? then Got(c.op) else if c.more then Back(c.op) else Rearm(c.op)
  }

  ghost predicate ActProceeds(s: Sys, ph: Phase) {
    match s.phase
    case Got(o) => if s.e.At(o).opType == TunRead then ph == Resub(o, First(s.e.freeOps)) else ph == Wait
    case Resub(o, _) => ph == Back(o)
    case Rearm(o) => ph == Back(o)
    case Back(o) =>
      if !s.mode.Handshake? then ph == Send(Some(o), First(s.e.freeOps))
      else ph == if s.e.At(o).fd == s.mode.fd then Done(o, true) else Top(None)
    case Send(r, _) => ph == if r.Some? then Done(r.value, true) else Top(None)
    case Done(_, _) => ph.Top?
    case _ => ph == s.phase
  }

  /** The step of `l` to `s'` leaves the loop for one of the causes only, and leads where it should otherwise. */
  ghost predicate Explained(s: Sys, l: Label, s': Sys) {
    (!Continuing(s'.phase) <==> Leaves(s, l)) && (Continuing(s'.phase) ==> Proceeds(s, l, s'.phase))
  }

  // ---------------------------------------------------------------- wait_for_recv

  lemma SingleTaken(s: Sys)
    requires Inv(s) && s.phase.Wait? && s.e.cq != [] && s.e.cq[0].SingleCqe?
    ensures Explained(s, Next, TakeNext(s))
  {
    CqAtLeast(s.e.cq, 0);
    Located(s.e, multiset{}, s.lost, s.e.cq[0].op);
    TakeSinglePhase(s);
  }

  lemma TakeSinglePhase(s: Sys)
    requires s.phase.Wait? && s.e.cq != [] && s.e.cq[0].SingleCqe? && !s.e.At(s.e.cq[0].op).isMulti
    ensures Explained(s, Next, TakeNext(s))
  {
  }

  lemma MultiTaken(s: Sys)
    requires Inv(s) && s.phase.Wait? && s.e.cq != [] && s.e.cq[0].MultiCqe?
    ensures Explained(s, Next, TakeNext(s))
  {
    var c := s.e.cq[0];
    assert IsMulti(s.e, c.op) && CqeOk(s.e, c);
    TakeMultiPhase(s);
  }

  lemma TakeMultiPhase(s: Sys)
    requires s.phase.Wait? && s.e.cq != [] && s.e.cq[0].MultiCqe? && IsMulti(s.e, s.e.cq[0].op) && CqeOk(s.e, s.e.cq[0])
    ensures Explained(s, Next, TakeNext(s))
  {
  }

  lemma NextExplained(s: Sys)
    requires Inv(s) && Continuing(s.phase)
    ensures Explained(s, Next, Step(s, Next))
  {
    StepOfNext(s, Next);
    if s.phase.Wait? && s.e.cq != [] {
      if s.e.cq[0].SingleCqe? { SingleTaken(s); } else { MultiTaken(s); }
    }
  }

  lemma GotExplained(s: Sys, l: Label)
    requires Inv(s) && s.phase.Got? && l.Act?
    ensures Explained(s, l, Step(s, l))
  {
    StepAtGot(s, l);
    var op := s.e.At(s.phase.op);
    BufferNeverExhausted(s.e, Hand(s.e, s.phase), s.lost, op.opType, op.fd, false, None);
  }

  lemma AgainExplained(s: Sys, l: Label)
    requires (s.phase.Resub? || s.phase.Rearm?) && l.Act?
    ensures Explained(s, l, Step(s, l))
  {
    if s.phase.Resub? { StepAtResub(s, l); } else { StepAtRearm(s, l); }
  }

  // ---------------------------------------------------------------- the event loops

  lemma RelayPhase(s: Sys, o: nat, t: OpType, fd: int)
    requires Own(s.e, Holding(s.e, o), s.lost)
    ensures Relay(s, o, t, fd).phase == if s.e.freeOps == [] then Done(o, false) else Send(Some(o), First(s.e.freeOps))
  {
    BufferNeverExhausted(s.e, Holding(s.e, o), s.lost, t, fd, false, Some(o));
  }

  lemma RecodePhase(s: Sys, o: nat, t: OpType, fd: int, coded: Option<Bytes>)
    requires Own(s.e, Holding(s.e, o), s.lost)
    ensures Recode(s, o, t, fd, coded).phase ==
      if s.e.freeOps == [] || !FitsBuffer(coded) then Done(o, false) else Send(Some(o), First(s.e.freeOps))
  {
    BufferNeverExhausted(s.e, Holding(s.e, o), s.lost, t, fd, false, None);
  }

  lemma ZeroExplained(s: Sys, l: Label)
    requires Inv(s) && s.phase.Back? && l.Act? && s.mode.Zero?
    ensures Explained(s, l, Step(s, l))
  {
    var o := s.phase.op;
    StepAtBack(s, l);
    assert ShapeOk(s.e.ops[o]);
    RelayPhase(s, o, UdpSend, s.mode.udpFd);
    RelayPhase(s.(peers := Pin(s.peers, s.mode.udpFd, s.e.At(o).addr)), o, TunWrite, s.mode.tunFd);
  }

  lemma CodingExplained(s: Sys, l: Label)
    requires Inv(s) && s.phase.Back? && l.Act? && Codes(s.mode)
    ensures Explained(s, l, Step(s, l))
  {
    var o := s.phase.op;
    StepAtBack(s, l);
    CodedHandle(s, o, l.plain, l.coded);
    RecodePhase(s, o, CodedType(s.mode, s.e.At(o)), CodedFd(s.mode, s.e.At(o)), l.coded);
  }

  lemma OtherBackExplained(s: Sys, l: Label)
    requires s.phase.Back? && l.Act? && !Relays(s.mode)
    requires s.mode.Handshake? ==> s.e.At(s.phase.op).opType == UdpRecv
    ensures Explained(s, l, Step(s, l))
  {
    StepAtBack(s, l);
  }

  lemma SendExplained(s: Sys, l: Label)
    requires s.phase.Send? && l.Act?
    ensures Explained(s, l, Step(s, l))
  {
    StepAtSend(s, l);
  }

  lemma DoneExplained(s: Sys, l: Label)
    requires s.phase.Done? && s.phase.ok && l.Act?
    ensures Explained(s, l, Step(s, l))
  {
    StepAtDone(s, l);
  }

  lemma ActExplained(s: Sys, l: Label)
    requires Inv(s) && Continuing(s.phase) && l.Act?
    requires s.mode.Handshake? && s.phase.Back? ==> s.e.At(s.phase.op).opType == UdpRecv
    ensures Explained(s, l, Step(s, l))
  {
    match s.phase {
      case Got(_) => GotExplained(s, l);
      case Resub(_, _) => AgainExplained(s, l);
      case Rearm(_) => AgainExplained(s, l);
      case Back(_) =>
        if s.mode.Zero? { ZeroExplained(s, l); }
        else if Codes(s.mode) { CodingExplained(s, l); }
        else { OtherBackExplained(s, l); }
      case Send(_, _) => SendExplained(s, l);
      case Done(_, _) => DoneExplained(s, l);
      case _ =>
    }
  }

  // ---------------------------------------------------------------- start-up, flights and the loop head

  lemma StartExplained(s: Sys, l: Label)
    requires Inv(s) && Continuing(s.phase) && (l.ArmUdp? || l.StartRead?)
    ensures Explained(s, l, Step(s, l))
  {
    if s.phase.Top? {
      if l.ArmUdp? {
        ArmExplained(s, l);
      } else {
        ReadExplained(s, l);
      }
    }
  }

  lemma ArmExplained(s: Sys, l: Label)
    requires s.phase.Top? && l.ArmUdp?
    ensures Explained(s, l, Step(s, l))
  {
    if s.mode.Setup? && l.fd !in s.udp {
      StepOfArm(s, l);
    }
  }

  lemma ReadExplained(s: Sys, l: Label)
    requires Own(s.e, multiset{}, s.lost) && s.phase.Top? && l.StartRead?
    ensures Explained(s, l, Step(s, l))
  {
    BufferNeverExhausted(s.e, multiset{}, s.lost, TunRead, l.fd, false, None);
  }

  lemma FlightExplained(s: Sys, l: Label)
    requires Inv(s) && Continuing(s.phase) && l.Flight?
    ensures Explained(s, l, Step(s, l))
  {
    StepOfFlight(s, l);
    if s.mode.Handshake? {
      BufferNeverExhausted(s.e, Hand(s.e, s.phase), s.lost, UdpSend, s.mode.fd, false, None);
    }
  }

  lemma HeadExplained(s: Sys, l: Label)
    requires Continuing(s.phase) && (l.Enter? || l.Run? || l.WaitFails?)
    ensures Explained(s, l, Step(s, l))
  {
  }

  lemma KernelExplained(s: Sys, l: Label)
    requires Continuing(s.phase) && IsKernel(l)
    ensures Explained(s, l, Step(s, l))
  {
    assert Step(s, l) == KernelStep(s, l);
  }

  lemma StepExplained(s: Sys, l: Label)
    requires Inv(s) && Continuing(s.phase)
    requires s.mode.Handshake? && s.phase.Back? ==> s.e.At(s.phase.op).opType == UdpRecv
    ensures Explained(s, l, Step(s, l))
  {
    if IsKernel(l) {
      KernelExplained(s, l);
    } else if l.Act? {
      ActExplained(s, l);
    } else if l.Next? {
      NextExplained(s);
    } else if l.ArmUdp? || l.StartRead? {
      StartExplained(s, l);
    } else if l.Flight? {
      FlightExplained(s, l);
    } else {
      HeadExplained(s, l);
    }
  }

  // ---------------------------------------------------------------- runs

  lemma LeftForGood(s: Sys, l: Label)
    requires !Continuing(s.phase)
    ensures !Continuing(Step(s, l).phase)
  {
    if l.Act? {
      match s.phase {
        case Done(_, _) => StepAtDone(s, l);
        case Bail(_, _) => StepAtBail(s, l);
        case _ =>
      }
    } else if IsKernel(l) {
      assert Step(s, l) == KernelStep(s, l);
    } else {
      HeadStays(s, l);
    }
  }

  lemma HeadStays(s: Sys, l: Label)
    requires !s.phase.Top? && !s.phase.Wait? && !l.Act? && !IsKernel(l)
    ensures Step(s, l) == s
  {
  }

  /**
    In every run a step makes the program leave its loop if and only if one of the causes is given,
    and leads to the next point of the program otherwise.
   */
  lemma EveryStepExplained(nOps: nat, nRing: nat, peers: map<int, Addr>, ls: seq<Label>, l: Label)
    requires Continuing(After(nOps, nRing, peers, ls).phase)
    ensures Explained(After(nOps, nRing, peers, ls), l, Step(After(nOps, nRing, peers, ls), l))
  {
    var s := After(nOps, nRing, peers, ls);
    Reached(nOps, nRing, peers, ls);
    if s.mode.Handshake? && s.phase.Back? {
      HandshakeGetsDatagrams(nOps, nRing, peers, ls);
    }
    StepExplained(s, l);
  }

  /** Step `i` of the run is the one that makes the program leave its loop, for one of the causes. */
  ghost predicate LeftAt(s: Sys, ls: seq<Label>, i: int) {
    0 <= i < |ls| && Continuing(Exec(s, ls[..i]).phase) && Leaves(Exec(s, ls[..i]), ls[i])
  }

  lemma LeftBefore(s: Sys, ls: seq<Label>, l: Label, i: int)
    requires 0 <= i < |ls|
    ensures LeftAt(s, ls + [l], i) <==> LeftAt(s, ls, i)
  {
    assert (ls + [l])[..i] == ls[..i];
  }

  lemma LeftLast(s: Sys, ls: seq<Label>, l: Label)
    ensures LeftAt(s, ls + [l], |ls|) <==> Continuing(Exec(s, ls).phase) && Leaves(Exec(s, ls), l)
  {
    assert (ls + [l])[..|ls|] == ls;
  }

  ghost predicate NeverLeft(s: Sys, ls: seq<Label>) { forall i | 0 <= i < |ls| :: !LeftAt(s, ls, i) }

  lemma NeverLeftMore(s: Sys, ls: seq<Label>, l: Label)
    ensures NeverLeft(s, ls + [l]) <==> NeverLeft(s, ls) && !LeftAt(s, ls + [l], |ls|)
  {
    forall i | 0 <= i < |ls|
      ensures LeftAt(s, ls + [l], i) <==> LeftAt(s, ls, i)
    {
      LeftBefore(s, ls, l, i);
    }
  }

  /** A program has left its loop if and only if some step of its run had a cause for it. */
  lemma {:induction false} StoppedForCause(nOps: nat, nRing: nat, peers: map<int, Addr>, ls: seq<Label>)
    ensures Continuing(After(nOps, nRing, peers, ls).phase) <==> NeverLeft(Initial(nOps, nRing, peers), ls)
    decreases |ls|
  {
    var s0 := Initial(nOps, nRing, peers);
    if ls != [] {
      var front, l := ls[..|ls| - 1], ls[|ls| - 1];
      assert ls == front + [l];
      ExecSnoc(s0, front, l);
      StoppedForCause(nOps, nRing, peers, front);
      NeverLeftMore(s0, front, l);
      LeftLast(s0, front, l);
      if Continuing(Exec(s0, front).phase) {
        EveryStepExplained(nOps, nRing, peers, front, l);
      } else {
        LeftForGood(Exec(s0, front), l);
      }
    }
  }
}
