/**
  Runs recorded step by step: each lemma takes the state reached so far, gives the state after
  one more step, and says what the program relies on when it carries that step out in memory.
 */
module RunLog {
  import opened Base
  import opened Engine
  import opened Machine
  import opened Ownership
  import opened OwnershipSteps
  import opened Invariant
  import opened InvariantSteps
  import opened EngineFrames
  import opened Exclusive
  import opened ZeroCopy
  import opened Ledger
  import opened CopyRelay
  import opened Sessions
  import opened CodedLedger
  import opened Counting
  import opened Guarantees
  import opened Causes
  import opened Devices

  /**
    `s` is the state reached from an initial state by the steps of `log`. (Stated as a
    quantifier, so that the run is unfolded only where a proof speaks of it.)
   */
  ghost predicate Reaches(start: Sys, log: seq<Label>, s: Sys) {
    && start == Initial(|start.e.ops|, |start.e.slots|, start.peers)
    && (forall ls | ls == log :: Exec(start, ls) == s)
    && (forall i | 0 <= i < |log| && log[i].Enter? :: log[i].mode.Setup? || log[i].mode == s.mode)
  }

  /** A run of the zero-copy edge relays every packet once, whatever carried it out. */
  lemma ReachedRelays(start: Sys, log: seq<Label>, s: Sys, z: Mode)
    requires Reaches(start, log, s) && z.Zero? && (s.mode.Setup? || s.mode == z)
    ensures RelaysExactly(z, PeerOf(start.peers, z.udpFd), s)
  {
    assert Exec(start, log) == s;
    assert forall i | 0 <= i < |log| :: ZeroLabel(z, log[i]);
    EveryPacketRelayedOnce(z, |start.e.ops|, |start.e.slots|, start.peers, log);
  }

  lemma {:induction false} ExecAppend(s: Sys, a: seq<Label>, b: seq<Label>)
    ensures Exec(s, a + b) == Exec(Exec(s, a), b)
    decreases |a|
  {
    if a == [] {
      assert a + b == b;
    } else {
      assert (a + b)[1..] == a[1..] + b;
      ExecAppend(Step(s, a[0]), a[1..], b);
    }
  }

  /** A coding loop that began in `s0` codes every packet once, whatever carried it out. */
  lemma ReachedCodes(start: Sys, log0: seq<Label>, s0: Sys, log: seq<Label>, s: Sys, k0: Coder)
    requires Reaches(start, log0, s0) && Reaches(start, log, s) && log0 <= log
    requires s0.phase.Top? && Codes(s0.mode) && CodingRun(s0, k0, log[|log0|..])
    ensures CodesExactly(s0, k0, s)
  {
    assert Exec(start, log0) == s0 && Exec(start, log) == s;
    assert log == log0 + log[|log0|..];
    ExecAppend(start, log0, log[|log0|..]);
    EveryPacketCodedOnce(|start.e.ops|, |start.e.slots|, start.peers, log0, s0, k0, log[|log0|..]);
  }

  lemma ReachedShutdown(start: Sys, log: seq<Label>, s: Sys)
    requires Reaches(start, log, s) && s.phase.Stopped?
    ensures s.phase.last.Some? ==> s.phase.last.value !in s.e.freeOps && s.e.At(s.phase.last.value).isMulti
  {
    ReachedInv(start, log, s);
  }

  /** `next` is reached by one more step, in the same part of the program. */
  ghost predicate StepTo(start: Sys, log: seq<Label>, s: Sys, l: Label, next: Sys) {
    Reaches(start, log + [l], next) && next.mode == s.mode
  }

  lemma Extends(start: Sys, log: seq<Label>, s: Sys, l: Label, next: Sys)
    requires Reaches(start, log, s) && next == Step(s, l)
    requires if l.Enter? then s.mode.Setup? && next.mode == l.mode else next.mode == s.mode
    ensures Reaches(start, log + [l], next)
  {
    ExecSnoc(start, log, l);
    assert Exec(start, log) == s;
  }

  lemma ReachedInv(start: Sys, log: seq<Label>, s: Sys)
    requires Reaches(start, log, s)
    ensures Inv(s)
  {
    InitialInv(|start.e.ops|, |start.e.slots|, start.peers);
    ExecKeeps(start, log);
    assert Exec(start, log) == s;
  }

  // ---------------------------------------------------------------- why a program stops

  /** Some step had a cause to leave the loop other than the loop's guard. */
  ghost predicate LeftByCause(start: Sys, log: seq<Label>) {
    exists i :: LeftAt(start, log, i) && log[i] != Run(false)
  }

  /** A program that stopped without its guard failing had a cause. */
  lemma ReachedCause(start: Sys, log: seq<Label>, s: Sys)
    requires Reaches(start, log, s) && !Continuing(s.phase) && Run(false) !in log
    ensures LeftByCause(start, log)
  {
    assert Exec(start, log) == s;
    StoppedForCause(|start.e.ops|, |start.e.slots|, start.peers, log);
    var i :| 0 <= i < |log| && LeftAt(start, log, i);
    assert log[i] in log;
  }

  /** A program that goes on until its guard fails had none. */
  lemma GuardIsNoCause(start: Sys, log: seq<Label>, s: Sys)
    requires Reaches(start, log, s) && Continuing(s.phase)
    ensures !LeftByCause(start, log + [Run(false)])
  {
    assert Exec(start, log) == s;
    StoppedForCause(|start.e.ops|, |start.e.slots|, start.peers, log);
    NeverLeftMore(start, log, Run(false));
    forall i | 0 <= i < |log|
      ensures !LeftAt(start, log + [Run(false)], i)
    {
      LeftBefore(start, log, Run(false), i);
    }
  }

  // ---------------------------------------------------------------- what an event loop leaves alone

  /** An event loop stays the same one and starts no further reads or receives. */
  lemma LoopStep(s: Sys, l: Label)
    requires Relays(s.mode)
    ensures var s' := Step(s, l); s'.mode == s.mode && s'.tunReads == s.tunReads && s'.udp == s.udp
  {
    if l.Act? {
      LoopAct(s, l);
    }
  }

  lemma LoopAct(s: Sys, l: Label)
    requires l.Act?
    ensures var s' := Step(s, l); s'.mode == s.mode && s'.tunReads == s.tunReads && s'.udp == s.udp
  {
  }

  lemma {:induction false} LoopRuns(s: Sys, ls: seq<Label>, fd: int)
    requires Relays(s.mode) && Inv(s)
    ensures var s' := Exec(s, ls); s'.mode == s.mode && s'.tunReads == s.tunReads && s'.udp == s.udp
    ensures OnDevice(s.e, fd) ==> OnDevice(Exec(s, ls).e, fd)
    decreases |ls|
  {
    if ls != [] {
      LoopStep(s, ls[0]);
      StepKeeps(s, ls[0]);
      if OnDevice(s.e, fd) {
        LoopDevice(s, ls[0], fd);
      }
      LoopRuns(Step(s, ls[0]), ls[1..], fd);
    }
  }

  lemma LoopDevice(s: Sys, l: Label, fd: int)
    requires Relays(s.mode) && Inv(s) && OnDevice(s.e, fd)
    ensures OnDevice(Step(s, l).e, fd)
  {
    if l.StartRead? {
      assert Step(s, l) == s;
    } else {
      StepDevice(s, l, fd);
    }
  }

  /** The receives and the number of reads are the same, and reads are on the device they were on. */
  ghost predicate SameReads(s0: Sys, s: Sys) {
    s.tunReads == s0.tunReads && s.udp == s0.udp && forall fd :: OnDevice(s0.e, fd) ==> OnDevice(s.e, fd)
  }

  /** The reads of an event loop are those of start-up, and stay on their device. */
  lemma ReachedSameReads(start: Sys, log0: seq<Label>, s0: Sys, log: seq<Label>, s: Sys)
    requires Reaches(start, log0, s0) && Reaches(start, log, s) && log0 <= log && Relays(s0.mode)
    ensures SameReads(s0, s)
  {
    assert Exec(start, log0) == s0 && Exec(start, log) == s;
    assert log == log0 + log[|log0|..];
    ExecAppend(start, log0, log[|log0|..]);
    ReachedInv(start, log0, s0);
    forall fd
      ensures OnDevice(s0.e, fd) ==> OnDevice(s.e, fd)
    {
      LoopRuns(s0, log[|log0|..], fd);
    }
    LoopRuns(s0, log[|log0|..], 0);
  }

  // ---------------------------------------------------------------- the environment's part

  /** The steps of the kernel. */
  ghost function KernelOf(ls: seq<Label>): seq<Label> {
    if ls == [] then [] else (if IsKernel(ls[0]) then [ls[0]] else []) + KernelOf(ls[1..])
  }

  lemma {:induction false} KernelOfAppend(ls: seq<Label>, l: Label)
    ensures KernelOf(ls + [l]) == KernelOf(ls) + if IsKernel(l) then [l] else []
  {
    if ls == [] {
      assert [] + [l] == [l] && [l][1..] == [];
    } else {
      assert (ls + [l])[0] == ls[0] && (ls + [l])[1..] == ls[1..] + [l];
      KernelOfAppend(ls[1..], l);
      Regrouped(if IsKernel(ls[0]) then [ls[0]] else [], KernelOf(ls[1..]), if IsKernel(l) then [l] else []);
    }
  }

  /** The environment raises no objection. */
  const GO := Act(Accepted, true, None)

  /** What the environment answers in this step is what it has in store, or no objection. */
  ghost predicate Drawn(env: seq<Label>, l: Label) {
    && (l.Act? ==> l == GO || l in env)
    && (l.ArmUdp? || l.StartRead? ==> l.out == Accepted || exists a | a in env :: a.Act? && a.out == l.out)
  }

  /**
    Of what the environment `env` has in store, `script` is left. All its kernel steps happen, in their
    order; refusals and codec answers are its own; and the wait call fails only when nothing is left.
   */
  ghost predicate Obeys(env: seq<Label>, script: seq<Label>, log: seq<Label>, ph: Phase) {
    && KernelOf(log) + KernelOf(script) == KernelOf(env)
    && (forall l | l in script :: l in env)
    && (forall l | l in log :: Drawn(env, l))
    && (WaitFails in log || Run(false) in log ==> ph.Stopped?)
    && (WaitFails in log ==> script == [])
  }

  /** (Stated as a quantifier, so that it is unfolded only where a proof speaks of it.) */
  ghost predicate Obeyed(env: seq<Label>, script: seq<Label>, log: seq<Label>, ph: Phase) {
    forall ls | ls == log :: Obeys(env, script, ls, ph)
  }

  lemma ObeyedStart(env: seq<Label>, ph: Phase)
    ensures Obeyed(env, env, [], ph)
  {
    assert [] + KernelOf(env) == KernelOf(env);
  }

  lemma ObeyedRecord(env: seq<Label>, script: seq<Label>, log: seq<Label>, ph: Phase, l: Label, ph': Phase)
    requires Obeyed(env, script, log, ph) && !ph.Stopped? && !IsKernel(l) && Drawn(env, l)
    requires (l == WaitFails || l == Run(false) ==> ph'.Stopped?) && (l == WaitFails ==> script == [])
    ensures Obeyed(env, script, log + [l], ph')
    ensures Run(false) in log + [l] <==> l == Run(false)
  {
    assert Obeys(env, script, log, ph);
    KernelOfAppend(log, l);
    assert KernelOf(log) + [] == KernelOf(log);
  }

  lemma ObeyedKernel(env: seq<Label>, script: seq<Label>, log: seq<Label>, ph: Phase)
    requires Obeyed(env, script, log, ph) && !ph.Stopped? && script != [] && IsKernel(script[0])
    ensures Obeyed(env, script[1..], log + [script[0]], ph)
  {
    assert Obeys(env, script, log, ph);
    KernelOfAppend(log, script[0]);
    Regrouped(KernelOf(log), [script[0]], KernelOf(script[1..]));
    KernelDrawn(env, log, script[0]);
  }

  lemma Regrouped(a: seq<Label>, b: seq<Label>, c: seq<Label>)
    ensures a + b + c == a + (b + c)
  {
  }

  lemma KernelDrawn(env: seq<Label>, log: seq<Label>, l: Label)
    requires IsKernel(l) && forall x | x in log :: Drawn(env, x)
    ensures forall x | x in log + [l] :: Drawn(env, x)
    ensures WaitFails in log + [l] <==> WaitFails in log
    ensures Run(false) in log + [l] <==> Run(false) in log
  {
  }

  lemma ObeyedSkip(env: seq<Label>, script: seq<Label>, log: seq<Label>, ph: Phase)
    requires Obeyed(env, script, log, ph) && script != [] && !IsKernel(script[0])
    ensures Obeyed(env, script[1..], log, ph) && script[0] in env
  {
    assert Obeys(env, script, log, ph);
    assert [] + KernelOf(script[1..]) == KernelOf(script[1..]);
  }

  // ---------------------------------------------------------------- kernel

  /** The engine after a step of the kernel. */
  function KernelEngine(e: Engine, l: Label): Engine
    requires IsKernel(l)
  {
    match l
    case KRead(o, data) => KernelRead(e, o, data)
    case KComplete(o, res) => KernelComplete(e, o, res)
    case KRecv(o, name, payload, more) => KernelRecv(e, o, name, payload, more)
    case KNoBuffer(o, res, more) => KernelNoBuffer(e, o, res, more)
  }

  /** The kernel only touches operations and slots that exist. */
  ghost predicate KernelSafe(e: Engine, l: Label)
    requires IsKernel(l)
  {
    (l.o in e.inflight ==> l.o < |e.ops|) && (e.ring != [] ==> e.ring[0] < |e.slots|)
  }

  lemma KernelIsSafe(s: Sys, l: Label)
    requires Inv(s) && IsKernel(l)
    ensures KernelSafe(s.e, l)
  {
    Located(s.e, Hand(s.e, s.phase), s.lost, l.o);
    if s.e.ring != [] {
      OfferedInRange(s.e, Hand(s.e, s.phase), s.lost);
    }
  }

  lemma KernelTo(start: Sys, log: seq<Label>, s: Sys, l: Label) returns (next: Sys)
    requires Reaches(start, log, s) && IsKernel(l)
    ensures StepTo(start, log, s, l, next) && KernelSafe(s.e, l)
    ensures next.e == KernelEngine(s.e, l) && next.phase == s.phase && next.peers == s.peers
    ensures |next.e.cq| <= |s.e.cq| + 1
  {
    next := Step(s, l);
    Extends(start, log, s, l, next);
    ReachedInv(start, log, s);
    KernelIsSafe(s, l);
  }

  // ---------------------------------------------------------------- wait_for_recv

  /** The phase of the state machine that goes with what is left to do. */
  ghost predicate Follows(ph: Phase, t: Turned) {
    match t
    case Single(o) => ph == Got(o)
    case Decoded(o) => ph == Back(o)
    case Ended(o) => ph == Rearm(o)
    case Broken(o) => ph == Bail(o, multiset{})
    case Dead => ph.Stopped? && ph.last == None
  }

  /** The completion names an operation and a ring buffer that exist. */
  ghost predicate CqeSafe(e: Engine, c: Cqe) {
    c.op < |e.ops| && (c.MultiCqe? && c.buf.Some? ==> c.buf.value < |e.slots|)
  }

  lemma OldestIsSafe(s: Sys)
    requires Inv(s) && s.phase.Wait? && s.e.cq != []
    ensures CqeSafe(s.e, s.e.cq[0])
  {
    CqAtLeast(s.e.cq, 0);
    if s.e.cq[0].SingleCqe? {
      Located(s.e, multiset{}, s.lost, s.e.cq[0].op);
    } else {
      assert IsMulti(s.e, s.e.cq[0].op);
      if s.e.cq[0].buf.Some? {
        CompletedNotOffered(s.e, multiset{}, s.lost, 0);
      }
    }
  }

  lemma NextTo(start: Sys, log: seq<Label>, s: Sys) returns (next: Sys)
    requires Reaches(start, log, s) && s.phase.Wait? && s.e.cq != []
    ensures StepTo(start, log, s, Next, next) && CqeSafe(s.e, s.e.cq[0])
    ensures next.e == TakeEngine(s.e).0 && Follows(next.phase, TakeEngine(s.e).1) && next.peers == s.peers
    ensures |next.e.cq| == |s.e.cq| - 1
  {
    next := TakeNext(s);
    Extends(start, log, s, Next, next);
    ReachedInv(start, log, s);
    OldestIsSafe(s);
    TakeEngineCq(s.e);
  }

  lemma TakeEngineCq(e: Engine)
    requires e.cq != []
    ensures TakeEngine(e).0.cq == e.cq[1..]
  {
  }

  lemma WaitFailsTo(start: Sys, log: seq<Label>, s: Sys) returns (next: Sys)
    requires Reaches(start, log, s) && s.phase.Wait?
    ensures StepTo(start, log, s, WaitFails, next)
    ensures next.e == s.e && next.phase == Stopped(None, multiset{}) && next.peers == s.peers
  {
    next := Halt(s, s.e, None, multiset{});
    Extends(start, log, s, WaitFails, next);
  }

  lemma GotOwned(s: Sys)
    requires Inv(s) && s.phase.Got?
    ensures Own(s.e, multiset{s.phase.op}, s.lost) && InUse(s.e, s.phase.op)
  {
    assert s.phase.op in multiset{s.phase.op};
    Located(s.e, multiset{s.phase.op}, s.lost, s.phase.op);
  }

  lemma GotTo(start: Sys, log: seq<Label>, s: Sys, o: nat, l: Label) returns (next: Sys)
    requires Reaches(start, log, s) && s.phase == Got(o) && l.Act?
    ensures StepTo(start, log, s, l, next) && next.peers == s.peers
    ensures Own(s.e, multiset{o}, s.lost) && InUse(s.e, o) && next.e.cq == s.e.cq
    ensures s.e.At(o).opType == UdpSend || s.e.At(o).opType == TunWrite || s.e.At(o).opType == TunRead
    ensures s.e.At(o).opType == UdpSend || s.e.At(o).opType == TunWrite ==>
      next.e == Free(s.e, o).0 && next.phase == Wait
    ensures s.e.At(o).opType == TunRead ==>
      var (e, n) := AllocBuf(s.e, TunRead, s.e.At(o).fd, false, None);
      next.e == e && next.phase == if n.None? then Bail(o, multiset{}) else Resub(o, n.value)
  {
    FreeCq(s.e, o);
    AllocCq(s.e, s.e.At(o).opType, s.e.At(o).fd, None);
    next := Dispatch(s, o);
    Extends(start, log, s, l, next);
    ReachedInv(start, log, s);
    GotOwned(s);
  }

  lemma ResubTo(start: Sys, log: seq<Label>, s: Sys, o: nat, n: nat, l: Label) returns (next: Sys)
    requires Reaches(start, log, s) && s.phase == Resub(o, n) && l.Act?
    ensures StepTo(start, log, s, l, next) && next.peers == s.peers && n < |s.e.ops|
    ensures var (e, ok) := SubmitRead(s.e, n, l.out);
      next.e == e && next.phase == if ok then Back(o) else Bail(o, multiset{n})
  {
    next := Resubmit(s, o, n, l.out);
    Extends(start, log, s, l, next);
    ReachedInv(start, log, s);
    Located(s.e, multiset{o, n}, s.lost, n);
  }

  lemma RearmTo(start: Sys, log: seq<Label>, s: Sys, o: nat, l: Label) returns (next: Sys)
    requires Reaches(start, log, s) && s.phase == Rearm(o) && l.Act?
    ensures StepTo(start, log, s, l, next) && next.peers == s.peers
    ensures var (e, ok) := Arm(s.e, o, l.out);
      next.e == e && next.phase == if ok then Back(o) else Bail(o, multiset{})
  {
    next := Reactivate(s, o, l.out);
    Extends(start, log, s, l, next);
  }

  /** Operation `o` may be passed to io_op_free. */
  ghost predicate Freeable(e: Engine, o: nat, hand: multiset<nat>, lost: multiset<nat>) {
    Own(e, hand, lost) && (o in hand || IsMulti(e, o))
  }

  lemma BailTo(start: Sys, log: seq<Label>, s: Sys, o: nat, l: Label) returns (next: Sys)
    requires Reaches(start, log, s) && s.phase.Bail? && s.phase.op == o && l.Act?
    ensures StepTo(start, log, s, l, next) && next.peers == s.peers
    ensures next.e.cq == s.e.cq && Freeable(s.e, o, Hand(s.e, s.phase), s.lost)
    ensures next.e == Free(s.e, o).0 && next.phase == Stopped(None, s.phase.leaked)
  {
    FreeCq(s.e, o);
    next := Halt(s, Free(s.e, o).0, None, s.phase.leaked);
    Extends(start, log, s, l, next);
    ReachedInv(start, log, s);
  }

  // ---------------------------------------------------------------- completions stay

  lemma AllocCq(e: Engine, t: OpType, fd: int, owner: Option<nat>)
    ensures AllocBuf(e, t, fd, false, owner).0.cq == e.cq
  {
  }

  lemma FreeCq(e: Engine, o: nat)
    ensures Free(e, o).0.cq == e.cq
  {
  }

  lemma RecodeCq(e: Engine, t: OpType, fd: int, coded: Option<Bytes>)
    ensures RecodeEngine(e, t, fd, coded).0.cq == e.cq
  {
    AllocCq(e, t, fd, None);
    var (e1, n) := AllocBuf(e, t, fd, false, None);
    if n.Some? {
      FreeCq(e1, n.value);
    }
  }

  lemma SendCq(e: Engine, n: nat, dest: Addr, out: Outcome)
    ensures SendEngine(e, n, dest, out).0.cq == e.cq
  {
    FreeCq(SubmitOut(e, n, dest, out).0, n);
  }

  // ---------------------------------------------------------------- the event loops

  /** The phase after the forwarding functions obtained an outgoing operation, or none. */
  ghost function Outgoing(o: nat, n: Option<nat>): Phase {
    if n.None? then Done(o, false) else Send(Some(o), n.value)
  }

  /** What an edge does with the packet of `o`: a TUN packet is sent, a datagram is written. */
  function OutType(e: Engine, o: nat): OpType { if e.At(o).opType == TunRead then UdpSend else TunWrite }

  function OutFd(e: Engine, o: nat, tunFd: int, udpFd: int): int {
    if e.At(o).opType == TunRead then udpFd else tunFd
  }

  /** What wait_for_recv returned is owned by the program and names a packet. */
  lemma BackTo(start: Sys, log: seq<Label>, s: Sys, o: nat)
    requires Reaches(start, log, s) && s.phase == Back(o)
    ensures InUse(s.e, o) && Own(s.e, Holding(s.e, o), s.lost)
    ensures s.e.At(o).opType == TunRead || s.e.At(o).opType == UdpRecv
  {
    ReachedInv(start, log, s);
    assert ShapeOk(s.e.ops[o]);
  }

  /** tun_udp_run_zero handles a packet by moving its buffer. */
  lemma RelayTo(start: Sys, log: seq<Label>, s: Sys, o: nat, tunFd: int, udpFd: int, l: Label) returns (next: Sys)
    requires Reaches(start, log, s) && s.phase == Back(o) && s.mode == Zero(tunFd, udpFd) && l.Act?
    requires s.e.At(o).opType == TunRead || s.e.At(o).opType == UdpRecv
    ensures StepTo(start, log, s, l, next)
    ensures next.peers == if s.e.At(o).opType == TunRead then s.peers else Pin(s.peers, udpFd, s.e.At(o).addr)
    ensures next.e.cq == s.e.cq
    ensures var (e, n) := AllocBuf(s.e, OutType(s.e, o), OutFd(s.e, o, tunFd, udpFd), false, Some(o));
      next.e == e && next.phase == Outgoing(o, n)
  {
    AllocCq(s.e, OutType(s.e, o), OutFd(s.e, o, tunFd, udpFd), Some(o));
    next := Handle(s, o, l.plain, l.coded);
    Extends(start, log, s, l, next);
  }

  /** The engine after a packet was encrypted or decrypted into an operation of its own. */
  function RecodeEngine(e: Engine, t: OpType, fd: int, coded: Option<Bytes>): (Engine, Option<nat>) {
    var (e1, n) := AllocBuf(e, t, fd, false, None);
    if n.None? then (e1, None)
    else if coded.None? || |coded.value| > BUF_SIZE then (Free(e1, n.value).0, None)
    else (Fill(e1, n.value, coded.value), n)
  }

  /** tun_udp_run encrypts or decrypts a packet into a new operation. */
  lemma RecodeTo(start: Sys, log: seq<Label>, s: Sys, o: nat, tunFd: int, udpFd: int, l: Label) returns (next: Sys)
    requires Reaches(start, log, s) && s.phase == Back(o) && s.mode == Dtls(tunFd, udpFd) && l.Act?
    requires s.e.At(o).opType == TunRead || s.e.At(o).opType == UdpRecv
    ensures StepTo(start, log, s, l, next) && next.peers == s.peers
    ensures next.e.cq == s.e.cq
    ensures var (e, n) := RecodeEngine(s.e, OutType(s.e, o), OutFd(s.e, o, tunFd, udpFd), l.coded);
      next.e == e && next.phase == Outgoing(o, n)
  {
    RecodeCq(s.e, OutType(s.e, o), OutFd(s.e, o, tunFd, udpFd), l.coded);
    next := Handle(s, o, l.plain, l.coded);
    Extends(start, log, s, l, next);
  }

  /** forward_udp_packet: the packet leaves by the other connection's socket. */
  lemma ForwardTo(start: Sys, log: seq<Label>, s: Sys, o: nat, inFd: int, outFd: int, l: Label) returns (next: Sys)
    requires Reaches(start, log, s) && s.phase == Back(o) && s.mode == Forward(inFd, outFd) && l.Act?
    ensures StepTo(start, log, s, l, next) && next.peers == s.peers && next.e.cq == s.e.cq
    ensures s.e.At(o).opType != UdpRecv || !l.plain ==>
      next.e == s.e && next.phase == Stopped(None, Holding(s.e, o))
    ensures s.e.At(o).opType == UdpRecv && l.plain ==>
      var (e, n) := RecodeEngine(s.e, UdpSend, if s.e.At(o).fd == inFd then outFd else inFd, l.coded);
      next.e == e && next.phase == Outgoing(o, n)
  {
    RecodeCq(s.e, UdpSend, if s.e.At(o).fd == inFd then outFd else inFd, l.coded);
    next := Handle(s, o, l.plain, l.coded);
    Extends(start, log, s, l, next);
  }

  /** The engine after a submission, with the release of an operation that was not accepted. */
  function SendEngine(e: Engine, n: nat, dest: Addr, out: Outcome): (Engine, bool) {
    var (e1, ok) := SubmitOut(e, n, dest, out);
    if ok then (e1, true) else (Free(e1, n).0, false)
  }

  /** Allocation fails only without operations. */
  lemma AllocFails(e: Engine, t: OpType, fd: int, owner: Option<nat>, hand: multiset<nat>, lost: multiset<nat>)
    requires Own(e, hand, lost)
    ensures AllocBuf(e, t, fd, false, owner).1.None? <==> e.freeOps == []
  {
    BufferNeverExhausted(e, hand, lost, t, fd, false, owner);
  }

  /** Where an outgoing operation is sent to. */
  function DestOf(e: Engine, peers: map<int, Addr>, n: nat): Addr {
    if e.At(n).opType == UdpSend then PeerOf(peers, e.At(n).fd) else []
  }

  lemma SendTo(start: Sys, log: seq<Label>, s: Sys, o: nat, n: nat, l: Label) returns (next: Sys)
    requires Reaches(start, log, s) && s.phase == Send(Some(o), n) && l.Act?
    ensures StepTo(start, log, s, l, next) && next.peers == s.peers
    ensures next.e.cq == s.e.cq
    ensures n < |s.e.ops| && n in Hand(s.e, s.phase) && Own(s.e, Hand(s.e, s.phase), s.lost)
    ensures var (e, ok) := SendEngine(s.e, n, DestOf(s.e, s.peers, n), l.out);
      next.e == e && next.phase == Done(o, ok)
  {
    SendCq(s.e, n, DestOf(s.e, s.peers, n), l.out);
    next := Transmit(s, Some(o), n, l.out);
    Extends(start, log, s, l, next);
    ReachedInv(start, log, s);
    Located(s.e, Hand(s.e, s.phase), s.lost, n);
  }

  lemma FinishTo(start: Sys, log: seq<Label>, s: Sys, o: nat, ok: bool, l: Label) returns (next: Sys)
    requires Reaches(start, log, s) && s.phase == Done(o, ok) && !s.mode.Handshake? && l.Act?
    ensures StepTo(start, log, s, l, next) && next.peers == s.peers
    ensures next.e.cq == s.e.cq && Freeable(s.e, o, Holding(s.e, o), s.lost)
    ensures if s.mode.Forward? && !ok then next.e == s.e && next.phase == Stopped(None, Holding(s.e, o))
            else var (e, last) := Free(s.e, o);
              next.e == e && next.phase == if ok then Top(last) else Stopped(last, multiset{})
  {
    FreeCq(s.e, o);
    next := Finish(s, o, ok);
    Extends(start, log, s, l, next);
    ReachedInv(start, log, s);
  }

  lemma RunTo(start: Sys, log: seq<Label>, s: Sys, go: bool) returns (next: Sys)
    requires Reaches(start, log, s) && s.phase.Top? && !s.mode.Setup?
    ensures StepTo(start, log, s, Run(go), next) && next.peers == s.peers
    ensures next.e == s.e && next.phase == if go then Wait else Stopped(s.phase.last, multiset{})
  {
    next := if go then s.(phase := Wait) else Halt(s, s.e, s.phase.last, multiset{});
    Extends(start, log, s, Run(go), next);
  }

  // ---------------------------------------------------------------- start-up

  lemma FirstArmTo(start: Sys, log: seq<Label>, s: Sys, fd: int, out: Outcome) returns (next: Sys)
    requires Reaches(start, log, s) && s.phase.Top? && s.mode.Setup? && fd !in s.udp
    ensures StepTo(start, log, s, ArmUdp(fd, out), next) && next.peers == s.peers && next.tunReads == s.tunReads
    ensures Own(s.e, multiset{}, s.lost)
    ensures var (e1, n) := AllocBuf(s.e, UdpRecv, fd, true, None);
      if n.None? then next.e == e1 && next.phase == Stopped(None, multiset{})
      else var (e2, ok) := Arm(e1, n.value, out);
        next.e == e2 && (if ok then next.phase == s.phase && next.udp == s.udp[fd := n.value]
                         else next.phase == Stopped(None, multiset{}))
  {
    next := FirstArm(s, fd, out);
    Extends(start, log, s, ArmUdp(fd, out), next);
    ReachedInv(start, log, s);
  }

  /** The engine after one turn of the loop of iouring_initial_tun_reads; what it submitted. */
  function FirstReadEngine(e: Engine, fd: int, out: Outcome): (Engine, nat, bool) {
    var (e1, n) := AllocBuf(e, TunRead, fd, false, None);
    if n.None? then (e1, 0, true)
    else
      var (e2, ok) := SubmitRead(e1, n.value, out);
      if ok then (e2, 1, true) else (Free(e2, n.value).0, 0, false)
  }

  /** The first `k` free operations of `e` became reads on `fd`; nothing else that the kernel holds changed. */
  ghost predicate ReadsAdded(e: Engine, e': Engine, fd: int, k: nat) {
    && k <= |e.freeOps| && e'.freeOps == e.freeOps[k..]
    && (forall o | o in e.inflight :: o in e'.inflight && e'.inflight[o] == e.inflight[o] && e'.At(o) == e.At(o))
    && (forall o: nat | o in e'.inflight :: o in e.inflight || o in e.freeOps[..k])
    && (forall i | 0 <= i < k :: IsRead(e', e.freeOps[i], fd))
  }

  /** A read of BUF_SIZE bytes from `fd` into the pool buffer of operation `o` is with the kernel. */
  ghost predicate IsRead(e: Engine, o: nat, fd: int) {
    o in e.inflight && e.At(o).opType == TunRead && e.At(o).bufAddr.Some?
    && e.inflight[o] == Sqe(fd, PoolBuffer(e.At(o).bufAddr.value), BUF_SIZE, [])
  }

  /** One turn of that loop. */
  lemma FirstReadGives(e: Engine, fd: int, out: Outcome, lost: multiset<nat>)
    requires Own(e, multiset{}, lost)
    ensures var (e', k, ok) := FirstReadEngine(e, fd, out);
      && ok == (e.freeOps == [] || out == Accepted)
      && k == (if e.freeOps != [] && out == Accepted then 1 else 0)
      && ReadsAdded(e, e', fd, k)
  {
    BufferNeverExhausted(e, multiset{}, lost, TunRead, fd, false, None);
    if e.freeOps != [] {
      AllocNew(e, TunRead, fd, multiset{}, lost);
      var (e1, n) := AllocBuf(e, TunRead, fd, false, None);
      assert e1.freeOps == e.freeOps[1..] && n == Some(e.freeOps[0]);
      FirstReadOthers(e, e1, n.value, lost);
      if out != Accepted {
        GivenBack(e, e1, SubmitRead(e1, n.value, out).0, n.value);
      }
    }
  }

  lemma FirstReadOthers(e: Engine, e1: Engine, n: nat, lost: multiset<nat>)
    requires Own(e, multiset{}, lost) && !InUse(e, n) && SameUse(e, e1, n, n)
    ensures forall o | o in e.inflight :: o != n && e1.At(o) == e.At(o)
  {
    forall o | o in e.inflight
      ensures o != n && e1.At(o) == e.At(o)
    {
      Located(e, multiset{}, lost, o);
    }
  }

  /** A refused read puts its operation back where it was. */
  lemma GivenBack(e: Engine, e1: Engine, e2: Engine, n: nat)
    requires e.freeOps != [] && n == e.freeOps[0] && e1.freeOps == e.freeOps[1..] && e2 == e1.(stale := e2.stale)
    requires !e1.At(n).isMulti && e1.At(n).bufAddr.Some?
    ensures var e3 := Free(e2, n).0; e3.freeOps == e.freeOps && e3.inflight == e1.inflight && e3.ops == e1.ops
  {
  }

  /** One read more. */
  lemma ReadsAddedMore(e: Engine, e1: Engine, e2: Engine, fd: int, k: nat, j: nat)
    requires ReadsAdded(e, e1, fd, k) && ReadsAdded(e1, e2, fd, j) && j <= 1
    ensures ReadsAdded(e, e2, fd, k + j)
  {
    assert e.freeOps[k..][j..] == e.freeOps[k + j..];
    assert e.freeOps[..k + j] == e.freeOps[..k] + e1.freeOps[..j];
    forall i | 0 <= i < k + j
      ensures IsRead(e2, e.freeOps[i], fd)
    {
      if i < k {
        assert IsRead(e1, e.freeOps[i], fd);
      } else {
        assert e.freeOps[i] == e1.freeOps[0] && IsRead(e2, e1.freeOps[0], fd);
      }
    }
  }

  /** Two reads that were added use different buffers. */
  lemma ReadsApart(e: Engine, lost: multiset<nat>, e': Engine, hand: multiset<nat>, lost': multiset<nat>, fd: int, k: nat)
    requires ReadsAdded(e, e', fd, k) && Own(e, multiset{}, lost) && Own(e', hand, lost')
    ensures forall i, j | 0 <= i < j < k :: e'.inflight[e.freeOps[i]].loc != e'.inflight[e.freeOps[j]].loc
  {
    forall i, j | 0 <= i < j < k
      ensures e'.inflight[e.freeOps[i]].loc != e'.inflight[e.freeOps[j]].loc
    {
      assert IsRead(e', e.freeOps[i], fd) && IsRead(e', e.freeOps[j], fd);
      Located(e', hand, lost', e.freeOps[i]);
      Located(e', hand, lost', e.freeOps[j]);
      FreeDistinct(e, multiset{}, lost, i, j);
      TwoOwners(e', hand, lost', e.freeOps[i], e.freeOps[j]);
    }
  }

  lemma FreeDistinct(e: Engine, hand: multiset<nat>, lost: multiset<nat>, i: nat, j: nat)
    requires Own(e, hand, lost) && i < j < |e.freeOps|
    ensures e.freeOps[i] != e.freeOps[j]
  {
    var x := e.freeOps[i];
    assert e.freeOps == e.freeOps[..j] + e.freeOps[j..];
    OccConcat(e.freeOps[..j], e.freeOps[j..], x);
    assert e.freeOps[..j][i] == x;
    OccIn(e.freeOps[..j], x);
    OccIn(e.freeOps[j..], x);
    assert e.freeOps[j] == e.freeOps[j..][0];
    assert OpPlaces(e, hand, x) == One(x, |e.ops|);
  }

  function Min(a: nat, b: nat): nat { if a <= b then a else b }

  /** The last step recorded is a read on `fd` at start-up that the kernel did not accept. */
  ghost predicate RefusedRead(log: seq<Label>, fd: int) {
    log != [] && log[|log| - 1].StartRead? && log[|log| - 1].fd == fd && log[|log| - 1].out != Accepted
  }

  /** From `s0` to `s` exactly `k` reads were added, and counted. (A quantifier, to be unfolded only where needed.) */
  ghost predicate ReadsCounted(s0: Sys, s: Sys, fd: int, k: nat) {
    s.tunReads == s0.tunReads + k && forall e | e == s.e :: ReadsAdded(s0.e, e, fd, k)
  }

  lemma NoReadsCounted(s: Sys, fd: int)
    ensures ReadsCounted(s, s, fd, 0)
  {
    assert ReadsAdded(s.e, s.e, fd, 0);
  }

  lemma ReadsCountedMore(s0: Sys, s1: Sys, s2: Sys, fd: int, k: nat, j: nat)
    requires ReadsCounted(s0, s1, fd, k) && ReadsCounted(s1, s2, fd, j) && j <= 1
    ensures ReadsCounted(s0, s2, fd, k + j) && k + j <= |s0.e.freeOps|
    ensures s1.e.freeOps == [] <==> k == |s0.e.freeOps|
  {
    assert ReadsAdded(s0.e, s1.e, fd, k) && ReadsAdded(s1.e, s2.e, fd, j);
    ReadsAddedMore(s0.e, s1.e, s2.e, fd, k, j);
  }

  /** The engine function of one turn. (A quantifier for the same reason.) */
  ghost predicate ReadTurned(e: Engine, fd: int, out: Outcome, e': Engine, k: nat, ok: bool) {
    forall was | was == e :: (e', k, ok) == FirstReadEngine(was, fd, out)
  }

  /** The reads recorded since `log0` are on `fd`. (A quantifier over the log, to be unfolded only where needed.) */
  ghost predicate ReadsOnly(log0: seq<Label>, log: seq<Label>, fd: int) {
    forall ls | ls == log :: StartsOn(log0, ls, fd)
  }

  ghost predicate StartsOn(log0: seq<Label>, log: seq<Label>, fd: int) {
    forall l | l in log && l.StartRead? :: l in log0 || l.fd == fd
  }

  lemma NoReadsYet(log: seq<Label>, fd: int)
    ensures ReadsOnly(log, log, fd)
  {
    assert StartsOn(log, log, fd);
  }

  lemma ReadsOnlyMore(log0: seq<Label>, log: seq<Label>, l: Label, fd: int)
    requires ReadsOnly(log0, log, fd) && (l.StartRead? ==> l.fd == fd)
    ensures ReadsOnly(log0, log + [l], fd)
  {
    assert StartsOn(log0, log, fd);
    assert StartsOn(log0, log + [l], fd);
  }

  /** When all reads of a recorded run were started on `fd`, all its reads are on it. */
  lemma ReachedDevice(start: Sys, log: seq<Label>, s: Sys, fd: int)
    requires Reaches(start, log, s) && ReadsOnly([], log, fd)
    ensures OnDevice(s.e, fd)
  {
    assert Exec(start, log) == s && StartsOn([], log, fd);
    assert forall i | 0 <= i < |log| && log[i].StartRead? :: log[i] in log;
    ReadsStayOnDevice(|start.e.ops|, |start.e.slots|, start.peers, log, fd);
  }

  /** Reads that were added use buffers of their own. */
  lemma ReachedOwnReads(start: Sys, log0: seq<Label>, s0: Sys, log: seq<Label>, s: Sys, fd: int, k: nat)
    requires Reaches(start, log0, s0) && s0.phase.Top? && Reaches(start, log, s) && ReadsCounted(s0, s, fd, k)
    ensures ReadsAdded(s0.e, s.e, fd, k)
    ensures forall i, j | 0 <= i < j < k :: s.e.inflight[s0.e.freeOps[i]].loc != s.e.inflight[s0.e.freeOps[j]].loc
  {
    assert ReadsAdded(s0.e, s.e, fd, k);
    ReachedInv(start, log0, s0);
    ReachedInv(start, log, s);
    ReadsApart(s0.e, s0.lost, s.e, Hand(s.e, s.phase), s.lost, fd, k);
  }

  lemma FirstReadTo(start: Sys, log: seq<Label>, s: Sys, fd: int, out: Outcome) returns (next: Sys)
    requires Reaches(start, log, s) && s.phase.Top? && s.mode.Setup?
    ensures StepTo(start, log, s, StartRead(fd, out), next) && next.peers == s.peers && next.udp == s.udp
    ensures Own(s.e, multiset{}, s.lost)
    ensures var (e, k, ok) := FirstReadEngine(s.e, fd, out);
      && next.e == e && next.phase == (if ok then s.phase else Stopped(None, multiset{}))
      && ok == (s.e.freeOps == [] || out == Accepted)
      && k == (if s.e.freeOps != [] && out == Accepted then 1 else 0)
      && ReadsCounted(s, next, fd, k)
  {
    next := FirstRead(s, fd, out);
    Extends(start, log, s, StartRead(fd, out), next);
    ReachedInv(start, log, s);
    FirstReadGives(s.e, fd, out, s.lost);
  }

  lemma EnterTo(start: Sys, log: seq<Label>, s: Sys, mode: Mode) returns (next: Sys)
    requires Reaches(start, log, s) && s.phase.Top? && s.mode.Setup? && !mode.Handshake?
    ensures Reaches(start, log + [Enter(mode)], next) && next == s.(mode := mode)
  {
    next := s.(mode := mode);
    Extends(start, log, s, Enter(mode), next);
  }
}
