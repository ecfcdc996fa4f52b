/** The invariant holds initially and every step keeps it, so it holds in every run. */
module InvariantSteps {
  import opened Base
  import opened Engine
  import opened Machine
  import opened Ownership
  import opened OwnershipSteps
  import opened Invariant
  import opened WaitSteps
  import opened LoopSteps

  // ---------------------------------------------------------------- kernel

  /** The kernel leaves the program's data alone and appends at most one completion. */
  ghost predicate Appends(e: Engine, e': Engine) {
    && e'.ops == e.ops && e'.freeOps == e.freeOps && e'.stale == e.stale
    && |e.cq| <= |e'.cq| <= |e.cq| + 1 && e'.cq[..|e.cq|] == e.cq
    && if |e'.cq| == |e.cq| || e'.cq[|e.cq|].SingleCqe? then e'.armed == e.armed
       else var c := e'.cq[|e.cq|];
         c.op in e.armed && e'.armed == if c.more then e.armed else e.armed - {c.op}
  }

  lemma AppendsActivity(e: Engine, e': Engine, ph: Phase, o: nat)
    requires Appends(e, e')
    ensures Activity(e', ph, o) == Activity(e, ph, o)
  {
    if |e'.cq| == |e.cq| {
      assert e'.cq == e.cq;
    } else {
      assert e'.cq == e.cq + [e'.cq[|e.cq|]];
      FinalsAppend(e.cq, e'.cq[|e.cq|], o);
    }
  }

  lemma AppendsMultiLaw(e: Engine, e': Engine, ph: Phase, udp: map<int, nat>)
    requires Appends(e, e') && MultiLaw(e, ph, udp)
    ensures MultiLaw(e', ph, udp)
  {
    forall o: nat
      ensures Activity(e', ph, o) == Activity(e, ph, o)
      ensures IsMulti(e', o) == IsMulti(e, o)
    {
      AppendsActivity(e, e', ph, o);
    }
    forall j | 0 <= j < |e'.cq| && e'.cq[j].MultiCqe?
      ensures IsMulti(e', e'.cq[j].op)
    {
      if j < |e.cq| {
        assert e'.cq[j] == e.cq[j];
      } else {
        assert Activity(e, ph, e'.cq[j].op) > 0;
      }
    }
  }

  /** What the program sees of its own data does not depend on the kernel's. */
  lemma SameOps(e: Engine, e': Engine, ph: Phase, still: map<nat, nat>, n: nat)
    requires e'.ops == e.ops && e'.freeOps == e.freeOps
    ensures Hand(e', ph) == Hand(e, ph)
    ensures PhaseOk(e, ph) ==> PhaseOk(e', ph)
    ensures Idle(e, ph, still) ==> Idle(e', ph, still)
    ensures ReadsLaw(e, ph, n) ==> ReadsLaw(e', ph, n)
  {
    SamePhase(e, e', ph);
    SameIdle(e, e', ph, still);
    SameOutstanding(e, e', Hand(e, ph));
  }

  lemma SamePhase(e: Engine, e': Engine, ph: Phase)
    requires e'.ops == e.ops && e'.freeOps == e.freeOps
    ensures Hand(e', ph) == Hand(e, ph)
    ensures PhaseOk(e, ph) ==> PhaseOk(e', ph)
    ensures Owed(e', ph) == Owed(e, ph)
  {
  }

  lemma SameIdle(e: Engine, e': Engine, ph: Phase, still: map<nat, nat>)
    requires e'.ops == e.ops && e'.freeOps == e.freeOps
    ensures Idle(e, ph, still) ==> Idle(e', ph, still)
  {
    assert forall o: nat :: IsMulti(e', o) == IsMulti(e, o) && e'.At(o) == e.At(o);
  }

  lemma SameOutstanding(e: Engine, e': Engine, hand: multiset<nat>)
    requires e'.ops == e.ops && e'.freeOps == e.freeOps
    ensures Outstanding(e', hand) == Outstanding(e, hand)
  {
  }

  lemma KernelInv(s: Sys, s': Sys)
    requires Inv(s) && Appends(s.e, s'.e)
    requires s' == s.(e := s'.e, trace := s'.trace)
    requires Own(s'.e, Hand(s.e, s.phase), s.lost) && Singles(s'.e)
    ensures Inv(s')
  {
    SameOps(s.e, s'.e, s.phase, s.still, s.tunReads);
    if Continuing(s.phase) {
      AppendsMultiLaw(s.e, s'.e, s.phase, s.udp);
    }
  }

  /** Appending an acceptable completion keeps requests and completions in agreement. */
  lemma AppendsSingles(e: Engine, e': Engine, c: Cqe)
    requires Singles(e) && e'.ops == e.ops
    requires forall o | o in e'.inflight :: o in e.inflight && e'.inflight[o] == e.inflight[o]
    requires e'.cq == e.cq + [c] && CqeOk(e, c)
    ensures Singles(e')
  {
    assert forall o: nat :: e'.At(o) == e.At(o);
    forall j | 0 <= j < |e'.cq|
      ensures CqeOk(e', e'.cq[j])
    {
      if j < |e.cq| {
        assert CqeOk(e, e.cq[j]);
      }
    }
  }

  lemma KernelReadAppends(e: Engine, o: nat, data: Bytes)
    requires Singles(e)
    ensures Appends(e, KernelRead(e, o, data)) && Singles(KernelRead(e, o, data))
  {
    var e' := KernelRead(e, o, data);
    if |e'.cq| > |e.cq| {
      AppendsSingles(e, e', SingleCqe(o, |data|));
    }
  }

  lemma KReadKeeps(s: Sys, o: nat, data: Bytes)
    requires Inv(s)
    ensures Inv(KernelStep(s, KRead(o, data)))
  {
    KernelReadKeeps(s.e, o, data, Hand(s.e, s.phase), s.lost);
    KernelReadAppends(s.e, o, data);
    KernelInv(s, KernelStep(s, KRead(o, data)));
  }

  lemma KernelCompleteAppends(e: Engine, o: nat, res: int)
    requires Singles(e)
    ensures Appends(e, KernelComplete(e, o, res)) && Singles(KernelComplete(e, o, res))
  {
    var e' := KernelComplete(e, o, res);
    if |e'.cq| > |e.cq| {
      AppendsSingles(e, e', SingleCqe(o, res));
    }
  }

  lemma KCompleteKeeps(s: Sys, o: nat, res: int)
    requires Inv(s)
    ensures Inv(KernelStep(s, KComplete(o, res)))
  {
    KernelCompleteKeeps(s.e, o, res, Hand(s.e, s.phase), s.lost);
    KernelCompleteAppends(s.e, o, res);
    KernelInv(s, KernelStep(s, KComplete(o, res)));
  }

  lemma KernelRecvAppends(e: Engine, o: nat, name: Addr, payload: Bytes, more: bool)
    requires Singles(e)
    ensures Appends(e, KernelRecv(e, o, name, payload, more)) && Singles(KernelRecv(e, o, name, payload, more))
  {
    var e' := KernelRecv(e, o, name, payload, more);
    if |e'.cq| > |e.cq| {
      AppendsSingles(e, e', e'.cq[|e.cq|]);
    }
  }

  lemma KRecvKeeps(s: Sys, o: nat, name: Addr, payload: Bytes, more: bool)
    requires Inv(s)
    ensures Inv(KernelStep(s, KRecv(o, name, payload, more)))
  {
    KernelRecvKeeps(s.e, o, name, payload, more, Hand(s.e, s.phase), s.lost);
    KernelRecvAppends(s.e, o, name, payload, more);
    KernelInv(s, KernelStep(s, KRecv(o, name, payload, more)));
  }

  lemma KernelNoBufferAppends(e: Engine, o: nat, res: int, more: bool)
    requires Singles(e)
    ensures Appends(e, KernelNoBuffer(e, o, res, more)) && Singles(KernelNoBuffer(e, o, res, more))
  {
    var e' := KernelNoBuffer(e, o, res, more);
    if |e'.cq| > |e.cq| {
      AppendsSingles(e, e', MultiCqe(o, res, None, more));
    }
  }

  lemma KNoBufferKeeps(s: Sys, o: nat, res: int, more: bool)
    requires Inv(s)
    ensures Inv(KernelStep(s, KNoBuffer(o, res, more)))
  {
    KernelNoBufferKeeps(s.e, o, res, more, Hand(s.e, s.phase), s.lost);
    KernelNoBufferAppends(s.e, o, res, more);
    KernelInv(s, KernelStep(s, KNoBuffer(o, res, more)));
  }


  // ---------------------------------------------------------------- every step

  lemma ActKeeps(s: Sys, l: Label)
    requires Inv(s) && l.Act?
    ensures Inv(Step(s, l))
  {
    if s.phase.Back? || s.phase.Send? || s.phase.Done? {
      LoopActKeeps(s, l);
    } else {
      WaitActKeeps(s, l);
    }
  }

  lemma WaitActKeeps(s: Sys, l: Label)
    requires Inv(s) && l.Act? && !s.phase.Back? && !s.phase.Send? && !s.phase.Done?
    ensures Inv(Step(s, l))
  {
    match s.phase {
      case Got(_) => StepAtGot(s, l); DispatchKeeps(s);
      case Resub(_, _) => StepAtResub(s, l); ResubmitKeeps(s, l.out);
      case Rearm(_) => StepAtRearm(s, l); ReactivateKeeps(s, l.out);
      case Bail(_, _) => StepAtBail(s, l); BailKeeps(s);
      case _ =>
    }
  }

  lemma LoopActKeeps(s: Sys, l: Label)
    requires Inv(s) && l.Act? && (s.phase.Back? || s.phase.Send? || s.phase.Done?)
    ensures Inv(Step(s, l))
  {
    match s.phase {
      case Back(_) => BackActKeeps(s, l);
      case Send(_, _) => SendActKeeps(s, l);
      case Done(_, _) => DoneActKeeps(s, l);
    }
  }

  lemma BackActKeeps(s: Sys, l: Label)
    requires Inv(s) && l.Act? && s.phase.Back?
    ensures Inv(Step(s, l))
  {
    StepAtBack(s, l);
    HandleKeeps(s, l.plain, l.coded);
  }

  lemma SendActKeeps(s: Sys, l: Label)
    requires Inv(s) && l.Act? && s.phase.Send?
    ensures Inv(Step(s, l))
  {
    StepAtSend(s, l);
    TransmitKeeps(s, l.out);
  }

  lemma DoneActKeeps(s: Sys, l: Label)
    requires Inv(s) && l.Act? && s.phase.Done?
    ensures Inv(Step(s, l))
  {
    StepAtDone(s, l);
    FinishKeeps(s);
  }

  lemma NextKeeps(s: Sys)
    requires Inv(s) && s.phase.Wait? && s.e.cq != []
    ensures Inv(TakeNext(s))
  {
    if s.e.cq[0].SingleCqe? {
      TakeSingleKeeps(s);
    } else {
      TakeMultiKeeps(s);
    }
  }

  lemma RunKeeps(s: Sys, go: bool)
    requires Inv(s) && s.phase.Top?
    ensures Inv(if go then s.(phase := Wait) else Halt(s, s.e, s.phase.last, multiset{}))
  {
    PhaseOnly(s, if go then s.(phase := Wait) else Halt(s, s.e, s.phase.last, multiset{}));
  }

  lemma ArmUdpKeeps(s: Sys, fd: int, out: Outcome)
    requires Inv(s)
    ensures Inv(Step(s, ArmUdp(fd, out)))
  {
    if s.phase.Top? && s.mode.Setup? && fd !in s.udp {
      FirstArmKeeps(s, fd, out);
    }
  }

  lemma StartReadKeeps(s: Sys, fd: int, out: Outcome)
    requires Inv(s)
    ensures Inv(Step(s, StartRead(fd, out)))
  {
    if s.phase.Top? && s.mode.Setup? {
      FirstReadKeeps(s, fd, out);
    }
  }

  lemma FlightKeeps(s: Sys, chunk: Bytes)
    requires Inv(s)
    ensures Inv(Step(s, Flight(chunk)))
  {
    if s.phase.Top? && s.mode.Handshake? {
      SendFlightKeeps(s, s.mode.fd, chunk);
    }
  }

  lemma LoopHeadKeeps(s: Sys, l: Label)
    requires Inv(s) && s.phase.Top? && (l.Enter? || l.Run?)
    ensures Inv(Step(s, l))
  {
    if l.Enter? {
      EnterStepKeeps(s, l);
    } else {
      RunStepKeeps(s, l);
    }
  }

  lemma EnterStepKeeps(s: Sys, l: Label)
    requires Inv(s) && s.phase.Top? && l.Enter?
    ensures Inv(Step(s, l))
  {
    StepOfEnter(s, l);
    EnterKeeps(s, l.mode);
  }

  lemma RunStepKeeps(s: Sys, l: Label)
    requires Inv(s) && s.phase.Top? && l.Run?
    ensures Inv(Step(s, l))
  {
    StepOfRun(s, l);
    RunKeeps(s, l.go);
  }

  lemma EnterKeeps(s: Sys, mode: Mode)
    requires Inv(s) && s.phase.Top?
    ensures Inv(s.(mode := mode))
  {
    PhaseOnly(s, s.(mode := mode));
  }

  lemma KernelStepKeeps(s: Sys, l: Label)
    requires Inv(s) && IsKernel(l)
    ensures Inv(Step(s, l))
  {
    assert Step(s, l) == KernelStep(s, l);
    match l
    case KRead(o, data) => KReadKeeps(s, o, data);
    case KComplete(o, res) => KCompleteKeeps(s, o, res);
    case KRecv(o, name, payload, more) => KRecvKeeps(s, o, name, payload, more);
    case KNoBuffer(o, res, more) => KNoBufferKeeps(s, o, res, more);
  }

  lemma StartStepKeeps(s: Sys, l: Label)
    requires Inv(s) && (l.ArmUdp? || l.StartRead? || l.Flight?)
    ensures Inv(Step(s, l))
  {
    match l
    case ArmUdp(fd, out) => ArmUdpKeeps(s, fd, out);
    case StartRead(fd, out) => StartReadKeeps(s, fd, out);
    case Flight(chunk) => FlightKeeps(s, chunk);
  }

  lemma NextStepKeeps(s: Sys, l: Label)
    requires Inv(s) && l.Next?
    ensures Inv(Step(s, l))
  {
    StepOfNext(s, l);
    if s.phase.Wait? && s.e.cq != [] {
      NextKeeps(s);
    }
  }

  lemma WaitFailsKeeps(s: Sys, l: Label)
    requires Inv(s) && l.WaitFails?
    ensures Inv(Step(s, l))
  {
    if s.phase.Wait? {
      assert Step(s, l) == Halt(s, s.e, None, multiset{});
      PhaseOnly(s, Halt(s, s.e, None, multiset{}));
    } else {
      assert Step(s, l) == s;
    }
  }

  lemma HeadStepKeeps(s: Sys, l: Label)
    requires Inv(s) && (l.Enter? || l.Run?)
    ensures Inv(Step(s, l))
  {
    if s.phase.Top? {
      LoopHeadKeeps(s, l);
    } else {
      assert Step(s, l) == s;
    }
  }

  /** Every step of the program and of the kernel keeps the invariant. */
  lemma StepKeeps(s: Sys, l: Label)
    requires Inv(s)
    ensures Inv(Step(s, l))
  {
    if IsKernel(l) {
      KernelStepKeeps(s, l);
    } else if l.Act? {
      ActKeeps(s, l);
    } else if l.Next? {
      NextStepKeeps(s, l);
    } else if l.WaitFails? {
      WaitFailsKeeps(s, l);
    } else if l.Enter? || l.Run? {
      HeadStepKeeps(s, l);
    } else {
      StartStepKeeps(s, l);
    }
  }

  lemma {:induction false} OwnersOfBlank(pool: bool, ops: seq<Op>, free: seq<nat>, k: nat, x: nat)
    requires k <= |ops| && forall o: nat | o < k :: ops[o] == BLANK
    ensures Owners(pool, ops, free, k, x) == 0
  {
    if k > 0 {
      OwnersOfBlank(pool, ops, free, k - 1, x);
    }
  }

  lemma {:induction false} OccOfRange(s: seq<nat>, a: nat, x: nat)
    requires forall i | 0 <= i < |s| :: s[i] == a + i
    ensures Occ(s, x) == if a <= x < a + |s| then 1 else 0
  {
    if s != [] {
      forall i | 0 <= i < |s[1..]|
        ensures s[1..][i] == a + 1 + i
      {
        assert s[1..][i] == s[i + 1];
      }
      OccOfRange(s[1..], a + 1, x);
    }
  }

  /** The state `iouring_init` leaves behind satisfies the invariant, for all pool and ring sizes. */
  lemma InitialInv(nOps: nat, nRing: nat, peers: map<int, Addr>)
    ensures Inv(Initial(nOps, nRing, peers))
  {
    var s := Initial(nOps, nRing, peers);
    forall x: nat
      ensures PoolPlaces(s.e, x) == One(x, nOps)
      ensures RingPlaces(s.e, x) == One(x, nRing)
      ensures OpPlaces(s.e, multiset{}, x) == One(x, nOps)
      ensures x < nOps ==> x in s.e.freeOps
    {
      OwnersOfBlank(true, s.e.ops, s.e.freeOps, nOps, x);
      OwnersOfBlank(false, s.e.ops, s.e.freeOps, nOps, x);
      OccOfRange(s.e.freeOps, 0, x);
      OccOfRange(s.e.ring, 0, x);
      OccIn(s.e.freeOps, x);
    }
    assert Outstanding(s.e, multiset{}) == {};
  }

  /** The invariant holds after every run. */
  lemma {:induction false} ExecKeeps(s: Sys, ls: seq<Label>)
    requires Inv(s)
    ensures Inv(Exec(s, ls))
    decreases |ls|
  {
    if ls != [] {
      StepKeeps(s, ls[0]);
      ExecKeeps(Step(s, ls[0]), ls[1..]);
    }
  }
}
