/** What a program leaves behind when it stops. */
module Stopping {
  import opened Base
  import opened Engine
  import opened Machine
  import opened Ownership
  import opened OwnershipSteps
  import opened Invariant
  import opened InvariantSteps
  import opened EngineFrames
  import opened Exclusive
  import opened RelaySteps
  import opened Guarantees
  import opened Progress

  // ---------------------------------------------------------------- operations

  /** The submission of the chunk in operation `n` is refused by the checks or by the kernel. */
  ghost predicate Refused(e: Engine, n: nat, out: Outcome) {
    out != Accepted || e.At(n).dataLen <= 0 || e.At(n).fd < 0 || e.At(n).dataLen > BUF_SIZE
  }

  /**
    The operations that a stop in this step leaves in no place at all: that of a failed single-shot
    completion, a replacement read that was not accepted, a handshake send that was refused, and a
    TUN read that a program other than an edge gets.
   */
  ghost function Stranded(s: Sys, l: Label): multiset<nat> {
    if l.Next? then
      if s.phase.Wait? && s.e.cq != [] && s.e.cq[0].SingleCqe? && s.e.cq[0].res < 0 then multiset{s.e.cq[0].op} else multiset{}
    else if !l.Act? then multiset{}
    else
      match s.phase
      case Bail(_, leaked) => leaked
      case Send(r, n) => if r.None? && Refused(s.e, n, l.out) then multiset{n} else multiset{}
      case Back(o) => if (s.mode.Setup? || s.mode.Forward?) && s.e.At(o).opType == TunRead then multiset{o} else multiset{}
      case _ => multiset{}
  }

  /** The operation a forwarder works on is a multishot one that still owns the buffer of its datagram. */
  ghost predicate ForwardOk(s: Sys) {
    s.mode.Forward? ==>
      && (s.phase.Send? && s.phase.recv.Some? ==> Loaded(s.e.At(s.phase.recv.value)))
      && (s.phase.Done? ==> Loaded(s.e.At(s.phase.op)))
  }

  lemma ForwardHandled(s: Sys, o: nat, plain: bool, coded: Option<Bytes>)
    requires Inv(s) && s.phase == Back(o) && s.mode.Forward?
    ensures ForwardOk(Handle(s, o, plain, coded))
  {
    CodedHandle(s, o, plain, coded);
    if s.e.At(o).opType == UdpRecv && plain {
      assert ShapeOk(s.e.ops[o]) && Loaded(s.e.At(o));
      RecodeLeaves(s, o, UdpSend, CodedFd(s.mode, s.e.At(o)), coded);
    }
  }

  lemma RecodeLeaves(s: Sys, o: nat, t: OpType, fd: int, coded: Option<Bytes>)
    requires Own(s.e, Holding(s.e, o), s.lost) && InUse(s.e, o) && (t == UdpSend || t == TunWrite)
    ensures Recode(s, o, t, fd, coded).e.At(o) == s.e.At(o)
  {
    AllocNew(s.e, t, fd, Holding(s.e, o), s.lost);
    var (e1, r) := AllocBuf(s.e, t, fd, false, None);
    if r.Some? {
      FreeFrame(e1, r.value);
    }
  }

  lemma ForwardSent(s: Sys, l: Label)
    requires Inv(s) && ForwardOk(s) && ModeOk(s) && s.mode.Forward? && s.phase.Send? && l.Act?
    ensures ForwardOk(Step(s, l))
  {
    var o, n := s.phase.recv.value, s.phase.out;
    Located(s.e, Hand(s.e, s.phase), s.lost, n);
    assert n != o;
    StepAtSend(s, l);
    TransmitLeaves(s, o, n, l.out);
  }

  /** Submitting operation `n`, or releasing it, does not touch another one. */
  lemma TransmitLeaves(s: Sys, o: nat, n: nat, out: Outcome)
    requires InUse(s.e, n) && n != o && s.phase == Send(Some(o), n)
    ensures Loaded(s.e.At(o)) && InUse(s.e, o) ==> Loaded(Transmit(s, Some(o), n, out).e.At(o))
    ensures Transmit(s, Some(o), n, out).phase.Done? && Transmit(s, Some(o), n, out).phase.op == o
  {
    var dest := if s.e.At(n).opType == UdpSend then PeerOf(s.peers, s.e.At(n).fd) else [];
    var e1 := SubmitOut(s.e, n, dest, out).0;
    FreeFrame(e1, n);
  }

  lemma ForwardKernel(s: Sys, l: Label)
    requires ForwardOk(s) && IsKernel(l)
    ensures ForwardOk(KernelStep(s, l))
  {
    assert KernelStep(s, l).e.ops == s.e.ops;
  }

  lemma ForwardOthers(s: Sys, l: Label)
    requires ForwardOk(s) && !(l.Act? && (s.phase.Back? || s.phase.Send?))
    ensures ForwardOk(Step(s, l))
  {
    if IsKernel(l) {
      ForwardKernel(s, l);
    } else if l.Act? {
      ActLeads(s, l);
    } else if s.phase.Send? || s.phase.Done? {
      OnlyActs(s, l);
    } else {
      HeadPhases(s, l);
    }
  }

  lemma ForwardOkKeeps(s: Sys, l: Label)
    requires Inv(s) && ModeOk(s) && ForwardOk(s)
    ensures ForwardOk(Step(s, l))
  {
    if !(l.Act? && (s.phase.Back? || s.phase.Send?)) {
      ForwardOthers(s, l);
    } else if !s.mode.Forward? {
      NotForward(s, l);
    } else if s.phase.Back? {
      StepAtBack(s, l);
      ForwardHandled(s, s.phase.op, l.plain, l.coded);
    } else {
      ForwardSent(s, l);
    }
  }

  lemma NotForward(s: Sys, l: Label)
    requires l.Act? && (s.phase.Back? || s.phase.Send?) && !s.mode.Forward?
    ensures ForwardOk(Step(s, l))
  {
    if s.phase.Back? { StepAtBack(s, l); } else { StepAtSend(s, l); }
  }

  lemma {:induction false} RunForwardOk(s: Sys, ls: seq<Label>)
    requires Inv(s) && ModeOk(s) && ForwardOk(s)
    ensures ForwardOk(Exec(s, ls)) && ModeOk(Exec(s, ls)) && Inv(Exec(s, ls))
    decreases |ls|
  {
    if ls != [] {
      ForwardOkKeeps(s, ls[0]);
      StepKeeps(s, ls[0]);
      ModeOkKeeps(s, ls[0]);
      RunForwardOk(Step(s, ls[0]), ls[1..]);
    }
  }

  /** The step stops the program with `held` if and only if that is not empty, and only with that. */
  ghost predicate StopsWith(s': Sys, held: multiset<nat>) {
    (s'.phase.Stopped? ==> s'.phase.held == held) && (held != multiset{} ==> s'.phase.Stopped?)
  }

  lemma NextStrands(s: Sys)
    requires Inv(s) && !s.phase.Stopped?
    ensures StopsWith(Step(s, Next), Stranded(s, Next))
  {
    StepOfNext(s, Next);
    if s.phase.Wait? && s.e.cq != [] {
      TakeStrands(s);
    }
  }

  lemma TakeStrands(s: Sys)
    requires s.phase.Wait? && s.e.cq != []
    ensures StopsWith(TakeNext(s), Stranded(s, Next))
  {
  }

  lemma BackStrands(s: Sys, l: Label)
    requires Inv(s) && s.phase.Back? && l.Act? && (s.mode.Handshake? ==> s.e.At(s.phase.op).opType == UdpRecv)
    ensures StopsWith(Step(s, l), Stranded(s, l))
  {
    assert ShapeOk(s.e.ops[s.phase.op]);
    StepAtBack(s, l);
    HandleStrands(s, s.phase.op, l.plain, l.coded);
  }

  lemma HandleStrands(s: Sys, o: nat, plain: bool, coded: Option<Bytes>)
    requires (s.e.At(o).opType == TunRead && !s.e.At(o).isMulti) || (s.e.At(o).opType == UdpRecv && s.e.At(o).isMulti)
    requires s.mode.Handshake? ==> s.e.At(o).opType == UdpRecv
    ensures StopsWith(Handle(s, o, plain, coded),
      if (s.mode.Setup? || s.mode.Forward?) && s.e.At(o).opType == TunRead then multiset{o} else multiset{})
  {
  }

  lemma SendStrands(s: Sys, l: Label)
    requires s.phase.Send? && l.Act?
    ensures StopsWith(Step(s, l), Stranded(s, l))
  {
  }

  lemma DoneStrands(s: Sys, l: Label)
    requires ForwardOk(s) && s.phase.Done? && l.Act?
    ensures StopsWith(Step(s, l), multiset{})
  {
  }

  lemma OtherStrands(s: Sys, l: Label)
    requires !s.phase.Stopped? && !l.Next? && !(l.Act? && (s.phase.Back? || s.phase.Send? || s.phase.Done?))
    ensures StopsWith(Step(s, l), Stranded(s, l))
  {
  }

  lemma StepStrands(s: Sys, l: Label)
    requires Inv(s) && ForwardOk(s) && !s.phase.Stopped?
    requires s.mode.Handshake? && s.phase.Back? ==> s.e.At(s.phase.op).opType == UdpRecv
    ensures StopsWith(Step(s, l), Stranded(s, l))
  {
    if l.Next? {
      NextStrands(s);
    } else if l.Act? && s.phase.Back? {
      BackStrands(s, l);
    } else if l.Act? && s.phase.Send? {
      SendStrands(s, l);
    } else if l.Act? && s.phase.Done? {
      DoneStrands(s, l);
    } else {
      OtherStrands(s, l);
    }
  }

  /**
    In every run and for every next step: the program stops with operations that are in no place if
    and only if the step strands some, and those are exactly the stranded ones.
   */
  lemma StopsHolding(nOps: nat, nRing: nat, peers: map<int, Addr>, ls: seq<Label>, l: Label)
    requires !After(nOps, nRing, peers, ls).phase.Stopped?
    ensures var s, s' := After(nOps, nRing, peers, ls), Step(After(nOps, nRing, peers, ls), l);
      && ((s'.phase.Stopped? && s'.phase.held != multiset{}) <==> Stranded(s, l) != multiset{})
      && (s'.phase.Stopped? ==> s'.phase.held == Stranded(s, l))
  {
    var s := After(nOps, nRing, peers, ls);
    InitialInv(nOps, nRing, peers);
    RunForwardOk(Initial(nOps, nRing, peers), ls);
    if s.mode.Handshake? && s.phase.Back? {
      HandshakeGetsDatagrams(nOps, nRing, peers, ls);
    }
    StepStrands(s, l);
  }

  /** In a stopped program the held operations are those that nothing else accounts for. */
  lemma HeldAreStranded(nOps: nat, nRing: nat, peers: map<int, Addr>, ls: seq<Label>, o: nat)
    requires After(nOps, nRing, peers, ls).phase.Stopped? && o < nOps
    ensures var s := After(nOps, nRing, peers, ls);
      o in s.phase.held <==> o !in s.e.freeOps && o !in s.e.inflight && CqOps(s.e.cq, o) == 0 && !IsMulti(s.e, o)
  {
    Reached(nOps, nRing, peers, ls);
    var s := After(nOps, nRing, peers, ls);
    assert OpPlaces(s.e, s.phase.held, o) == 1;
    OccIn(s.e.freeOps, o);
  }

  /**
    What shutdown gives back: in a stopped program an operation is freed, by the walk over the free
    list or as the last one of the loop, if and only if it is not with the kernel, not completed
    unseen, not stranded, and not a multishot operation other than the last one.
   */
  lemma FreedAtShutdown(nOps: nat, nRing: nat, peers: map<int, Addr>, ls: seq<Label>, o: nat)
    requires After(nOps, nRing, peers, ls).phase.Stopped? && o < nOps
    ensures var s := After(nOps, nRing, peers, ls);
      (o in s.e.freeOps || s.phase.last == Some(o)) <==>
        && o !in s.e.inflight && CqOps(s.e.cq, o) == 0 && o !in s.phase.held
        && (IsMulti(s.e, o) ==> s.phase.last == Some(o))
  {
    Reached(nOps, nRing, peers, ls);
    var s := After(nOps, nRing, peers, ls);
    assert OpPlaces(s.e, s.phase.held, o) == 1;
    OccIn(s.e.freeOps, o);
  }

  // ---------------------------------------------------------------- the ring buffer of a forwarder

  /** After the stop only the kernel goes on, and no operation changes. */
  lemma {:induction false} StoppedStays(s: Sys, ls: seq<Label>)
    requires s.phase.Stopped?
    ensures var t := Exec(s, ls); t.phase == s.phase && t.e.ops == s.e.ops && t.e.freeOps == s.e.freeOps
    decreases |ls|
  {
    if ls != [] {
      StoppedStep(s, ls[0]);
      StoppedStays(Step(s, ls[0]), ls[1..]);
    }
  }

  lemma StoppedStep(s: Sys, l: Label)
    requires s.phase.Stopped?
    ensures var t := Step(s, l); t.phase == s.phase && t.e.ops == s.e.ops && t.e.freeOps == s.e.freeOps
  {
  }

  /** A step in which the forwarder gives up on a datagram. */
  ghost predicate GivesUp(s: Sys, l: Label) {
    s.mode.Forward? && l.Act? && (s.phase.Back? || (s.phase.Done? && !s.phase.ok)) && Step(s, l).phase.Stopped?
  }

  lemma GiveUpKeepsBuffer(s: Sys, l: Label)
    requires Inv(s) && ForwardOk(s) && GivesUp(s, l)
    ensures var s', o := Step(s, l), s.phase.op;
      s'.e == s.e && InUse(s.e, o) && (s.e.At(o).isMulti ==> Loaded(s.e.At(o)))
  {
    if s.phase.Back? {
      StepAtBack(s, l);
      CodedHandle(s, s.phase.op, l.plain, l.coded);
      RecodeGoesOn(s, s.phase.op, CodedType(s.mode, s.e.At(s.phase.op)), CodedFd(s.mode, s.e.At(s.phase.op)), l.coded);
    } else {
      StepAtDone(s, l);
    }
  }

  lemma RecodeGoesOn(s: Sys, o: nat, t: OpType, fd: int, coded: Option<Bytes>)
    ensures !Recode(s, o, t, fd, coded).phase.Stopped?
  {
  }

  /**
    A forwarder that gives up on a datagram stops with the ring buffer of the datagram still owned
    by the multishot operation. Whatever happens `later`, it is in no other place: the kernel never
    gets it back.
   */
  lemma ForwarderAbandons(nOps: nat, nRing: nat, peers: map<int, Addr>, ls: seq<Label>, l: Label, later: seq<Label>)
    requires GivesUp(After(nOps, nRing, peers, ls), l) && IsMulti(After(nOps, nRing, peers, ls).e, After(nOps, nRing, peers, ls).phase.op)
    ensures var s, t := After(nOps, nRing, peers, ls), Exec(Step(After(nOps, nRing, peers, ls), l), later);
      Abandoned(t, s.phase.op, s.e.At(s.phase.op).bufIdx)
  {
    var s := After(nOps, nRing, peers, ls);
    InitialInv(nOps, nRing, peers);
    RunForwardOk(Initial(nOps, nRing, peers), ls);
    GiveUpKeepsBuffer(s, l);
    var s' := Step(s, l);
    StepKeeps(s, l);
    ExecKeeps(s', later);
    StoppedStays(s', later);
    StaysAbandoned(Exec(s', later), s.phase.op);
  }

  /** The multishot operation `o` keeps ring buffer `i`, which is in no other place. */
  ghost predicate Abandoned(t: Sys, o: nat, i: int) {
    && t.phase.Stopped? && IsMulti(t.e, o) && t.e.At(o).bufIdx == i && 0 <= i < |t.e.slots| && t.e.At(o).buffer == RingBuffer(i)
    && i !in t.e.ring && CqBufs(t.e.cq, i) == 0
  }

  lemma StaysAbandoned(t: Sys, o: nat)
    requires Inv(t) && t.phase.Stopped? && IsMulti(t.e, o) && Loaded(t.e.At(o))
    ensures Abandoned(t, o, t.e.At(o).bufIdx)
  {
    HeldNotOffered(t.e, Hand(t.e, t.phase), t.lost, o);
  }
}
