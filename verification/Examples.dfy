/** Runs that show where the guarantees end. */
module Examples {
  import opened Base
  import opened Engine
  import opened Machine
  import opened Invariant
  import opened Guarantees

  lemma ExecTwo(s: Sys, ls: seq<Label>, s1: Sys, s2: Sys)
    requires |ls| >= 2 && s1 == Step(s, ls[0]) && s2 == Step(s1, ls[1])
    ensures Exec(s, ls) == Exec(s2, ls[2..])
  {
    assert Exec(s, ls) == Exec(s1, ls[1..]);
    assert ls[1..][0] == ls[1] && ls[1..][1..] == ls[2..];
    assert Exec(s1, ls[1..]) == Exec(s2, ls[2..]);
  }

  /** A multishot operation on socket `fd` that has received nothing. */
  function Multi(fd: int): Op { BLANK.(opType := UdpRecv, fd := fd, isMulti := true) }

  // ---------------------------------------------------------------- a request that ended unseen

  /** The run of `UnseenEndExample`: two datagrams arrive, and the second ends the request. */
  function UnseenEnd(): seq<Label> {
    [ArmUdp(3, Accepted), Enter(Zero(4, 3)), KRecv(0, [1], [7], true), KRecv(0, [1], [8], false), Run(true), Next]
  }

  /**
    The request need not be active when wait_for_recv returns: its end may wait behind the
    completion that was returned. ReceiveStaysArmed says that this is the only exception.
   */
  lemma UnseenEndExample()
    ensures var s := After(1, 2, map[], UnseenEnd());
      s.phase == Back(0) && s.udp == map[3 := 0] && 0 !in s.e.armed && Finals(s.e.cq, 0) == 1
  {
    UnseenRun(UnseenEnd());
  }

  lemma UnseenRun(ls: seq<Label>)
    requires |ls| == 6 && ls[0] == ArmUdp(3, Accepted) && ls[1] == Enter(Zero(4, 3)) && ls[2] == KRecv(0, [1], [7], true)
    requires ls[3] == KRecv(0, [1], [8], false) && ls[4] == Run(true) && ls[5] == Next
    ensures FirstReturned(After(1, 2, map[], ls))
  {
    var s2 := UnseenStart(ls);
    var s4 := UnseenArrive(s2, ls[2..]);
    assert ls[2..][2..] == ls[4..] && ls[4..][2..] == [];
    var s6 := UnseenTake(s4, ls[4..]);
    assert Exec(s6, []) == s6;
  }

  /** The socket is armed and the loop entered. */
  ghost predicate Listening(s: Sys) {
    && s.phase == Top(None) && s.mode == Zero(4, 3) && s.udp == map[3 := 0]
    && s.e.armed == {0} && s.e.ring == [0, 1] && s.e.cq == [] && |s.e.slots| == 2 && s.e.ops == [Multi(3)]
  }

  /** Both datagrams are in, and the request is over. */
  ghost predicate BothArrived(s: Sys) {
    && s.phase == Top(None) && s.mode == Zero(4, 3) && s.udp == map[3 := 0]
    && s.e.armed == {} && s.e.ops == [Multi(3)] && s.e.SlotAt(0).name == [1]
    && s.e.cq == [MultiCqe(0, HEADER + 1, Some(0), true), MultiCqe(0, HEADER + 1, Some(1), false)]
  }

  ghost predicate FirstReturned(s: Sys) {
    s.phase == Back(0) && s.udp == map[3 := 0] && s.e.armed == {} && Finals(s.e.cq, 0) == 1
  }

  lemma UnseenStart(ls: seq<Label>) returns (s: Sys)
    requires |ls| >= 2 && ls[0] == ArmUdp(3, Accepted) && ls[1] == Enter(Zero(4, 3))
    ensures After(1, 2, map[], ls) == Exec(s, ls[2..]) && Listening(s)
  {
    var s0 := Initial(1, 2, map[]);
    var s1 := ArmOnly(s0);
    s := s1.(mode := Zero(4, 3));
    ExecTwo(s0, ls, s1, s);
  }

  lemma ArmOnly(s0: Sys) returns (s: Sys)
    requires s0 == Initial(1, 2, map[])
    ensures s == FirstArm(s0, 3, Accepted) && s.mode.Setup? && Listening(s.(mode := Zero(4, 3)))
  {
    assert s0.e.freeOps[0] == 0 && s0.e.ring == [0, 1] && s0.e.ops == [BLANK];
    var e1 := AllocBuf(s0.e, UdpRecv, 3, true, None).0;
    assert e1.ops == [Multi(3)];
    s := FirstArm(s0, 3, Accepted);
  }

  lemma UnseenArrive(s: Sys, ls: seq<Label>) returns (s': Sys)
    requires |ls| >= 2 && ls[0] == KRecv(0, [1], [7], true) && ls[1] == KRecv(0, [1], [8], false) && Listening(s)
    ensures Exec(s, ls) == Exec(s', ls[2..]) && BothArrived(s')
  {
    var s1 := KernelStep(s, ls[0]);
    assert s1.e == KernelRecv(s.e, 0, [1], [7], true);
    s' := KernelStep(s1, ls[1]);
    assert s'.e == KernelRecv(s1.e, 0, [1], [8], false);
    ExecTwo(s, ls, s1, s');
  }

  lemma UnseenTake(s: Sys, ls: seq<Label>) returns (s': Sys)
    requires |ls| >= 2 && ls[0] == Run(true) && ls[1] == Next && BothArrived(s)
    ensures Exec(s, ls) == Exec(s', ls[2..]) && FirstReturned(s')
  {
    var s1 := s.(phase := Wait);
    s' := TakeNext(s1);
    assert s'.e.cq == [MultiCqe(0, HEADER + 1, Some(1), false)];
    assert s'.e.cq[1..] == [] && Finals([], 0) == 0;
    ExecTwo(s, ls, s1, s');
  }

  // ---------------------------------------------------------------- a ring buffer that is lost

  /** The run of `LostBufferExample`: during the handshake on socket 3, two datagrams arrive on socket 5. */
  function LosesBuffer(): seq<Label> {
    [ArmUdp(3, Accepted), ArmUdp(5, Accepted), Enter(Handshake(3)), KRecv(1, [1], [7], true),
     KRecv(1, [1], [8], true), Run(true), Next, Act(Accepted, true, None), Run(true), Next]
  }

  /** The first datagram is dropped, and the second one overwrites the index of its buffer. */
  lemma LostBufferExample()
    ensures var s := After(2, 2, map[], LosesBuffer()); s.lost == multiset{0} && s.drops == 1
  {
    LostRun(LosesBuffer());
  }

  ghost predicate LosingLabels(ls: seq<Label>) {
    && |ls| == 10 && ls[0] == ArmUdp(3, Accepted) && ls[1] == ArmUdp(5, Accepted) && ls[2] == Enter(Handshake(3))
    && ls[3] == KRecv(1, [1], [7], true) && ls[4] == KRecv(1, [1], [8], true) && ls[5] == Run(true) && ls[6] == Next
    && ls[7] == Act(Accepted, true, None) && ls[8] == Run(true) && ls[9] == Next
  }

  lemma LostRun(ls: seq<Label>)
    requires LosingLabels(ls)
    ensures var s := After(2, 2, map[], ls); s.lost == multiset{0} && s.drops == 1
  {
    var c := LostBegin(ls);
    var d := LostDrop(c, ls[6..]);
    assert ls[6..][2..] == ls[8..] && ls[8..][2..] == [];
    var e := LostAgain(d, ls[8..]);
    assert Exec(e, []) == e;
  }

  const FIRST := MultiCqe(1, HEADER + 1, Some(0), true)
  const SECOND := MultiCqe(1, HEADER + 1, Some(1), true)

  ghost predicate NothingLost(s: Sys) { s.drops == 0 && s.lost == multiset{} && s.still == map[] }

  ghost predicate TwoArmed(s: Sys) {
    && NothingLost(s) && s.phase == Top(None) && s.mode.Setup? && s.tunReads == 0
    && s.e.armed == {0, 1} && s.e.ring == [0, 1] && s.e.cq == [] && |s.e.slots| == 2 && s.e.ops == [Multi(3), Multi(5)]
  }

  ghost predicate OneIn(s: Sys) {
    && NothingLost(s) && s.phase == Top(None) && s.mode == Handshake(3)
    && s.e.ops == [Multi(3), Multi(5)] && s.e.armed == {0, 1} && s.e.ring == [1] && s.e.cq == [FIRST]
    && |s.e.slots| == 2 && s.e.SlotAt(0).name == [1]
  }

  ghost predicate TwoIn(s: Sys) {
    && NothingLost(s) && s.phase == Wait && s.mode == Handshake(3)
    && s.e.ops == [Multi(3), Multi(5)] && s.e.cq == [FIRST, SECOND] && s.e.SlotAt(0).name == [1] && s.e.SlotAt(1).name == [1]
  }

  /** The operation of socket 5 holds ring buffer 0, and another datagram waits for it. */
  ghost predicate Holds(s: Sys) {
    && s.mode == Handshake(3) && s.lost == multiset{} && |s.e.ops| == 2 && s.e.ops[1].isMulti && s.e.ops[1].bufIdx == 0
    && s.e.ops[1].fd == 5 && s.e.ops[1].opType == UdpRecv && s.e.cq == [SECOND] && s.e.SlotAt(1).name == [1]
  }

  lemma LostBegin(ls: seq<Label>) returns (s: Sys)
    requires LosingLabels(ls)
    ensures After(2, 2, map[], ls) == Exec(s, ls[6..]) && TwoIn(s)
  {
    var a := LostArmed(ls);
    var b := LostFirst(a, ls[2..]);
    assert ls[2..][2..] == ls[4..] && ls[4..][2..] == ls[6..];
    s := LostSecond(b, ls[4..]);
  }

  lemma LostArmed(ls: seq<Label>) returns (s: Sys)
    requires |ls| >= 2 && ls[0] == ArmUdp(3, Accepted) && ls[1] == ArmUdp(5, Accepted)
    ensures After(2, 2, map[], ls) == Exec(s, ls[2..]) && TwoArmed(s)
  {
    var s0 := Initial(2, 2, map[]);
    var s1 := ArmFirst(s0);
    s := ArmSecond(s1);
    ExecTwo(s0, ls, s1, s);
  }

  ghost predicate OneArmed(s: Sys) {
    && NothingLost(s) && s.phase == Top(None) && s.mode.Setup? && s.tunReads == 0 && s.udp == map[3 := 0]
    && s.e.armed == {0} && s.e.ring == [0, 1] && s.e.cq == [] && |s.e.slots| == 2
    && s.e.ops == [Multi(3), BLANK] && s.e.freeOps == [1]
  }

  lemma ArmFirst(s0: Sys) returns (s: Sys)
    requires s0 == Initial(2, 2, map[])
    ensures s == Step(s0, ArmUdp(3, Accepted)) && OneArmed(s)
  {
    StepOfArm(s0, ArmUdp(3, Accepted));
    assert s0.e.freeOps == [0, 1] && s0.e.ops == [BLANK, BLANK] && s0.e.ring == [0, 1];
    s := FirstArm(s0, 3, Accepted);
    assert s.e.freeOps == [1] && s.e.ops == [Multi(3), BLANK] && s.e.armed == {0};
  }

  lemma ArmSecond(s1: Sys) returns (s: Sys)
    requires OneArmed(s1)
    ensures s == Step(s1, ArmUdp(5, Accepted)) && TwoArmed(s)
  {
    StepOfArm(s1, ArmUdp(5, Accepted));
    s := FirstArm(s1, 5, Accepted);
    assert s.e.ops == [Multi(3), Multi(5)] && s.e.armed == {0, 1};
  }

  lemma LostFirst(s: Sys, ls: seq<Label>) returns (s': Sys)
    requires |ls| >= 2 && ls[0] == Enter(Handshake(3)) && ls[1] == KRecv(1, [1], [7], true) && TwoArmed(s)
    ensures Exec(s, ls) == Exec(s', ls[2..]) && OneIn(s')
  {
    var s1 := s.(mode := Handshake(3));
    s' := KernelStep(s1, ls[1]);
    assert s'.e == KernelRecv(s1.e, 1, [1], [7], true);
    ExecTwo(s, ls, s1, s');
  }

  lemma LostSecond(s: Sys, ls: seq<Label>) returns (s': Sys)
    requires |ls| >= 2 && ls[0] == KRecv(1, [1], [8], true) && ls[1] == Run(true) && OneIn(s)
    ensures Exec(s, ls) == Exec(s', ls[2..]) && TwoIn(s')
  {
    var s1 := KernelStep(s, ls[0]);
    assert s1.e == KernelRecv(s.e, 1, [1], [8], true);
    s' := s1.(phase := Wait);
    ExecTwo(s, ls, s1, s');
  }

  lemma LostDrop(s: Sys, ls: seq<Label>) returns (s': Sys)
    requires |ls| >= 2 && ls[0] == Next && ls[1] == Act(Accepted, true, None) && TwoIn(s)
    ensures Exec(s, ls) == Exec(s', ls[2..]) && s'.phase == Top(None) && s'.drops == 1 && Holds(s')
  {
    var s1 := LostTaken(s);
    s' := Handle(s1, 1, true, None);
    ExecTwo(s, ls, s1, s');
  }

  lemma LostTaken(s: Sys) returns (s': Sys)
    requires TwoIn(s)
    ensures s' == TakeNext(s) && s'.phase == Back(1) && s'.drops == 0 && Holds(s')
  {
    s' := TakeNext(s);
    assert s'.e.cq == [SECOND];
  }

  lemma LostAgain(s: Sys, ls: seq<Label>) returns (s': Sys)
    requires |ls| >= 2 && ls[0] == Run(true) && ls[1] == Next && s.phase == Top(None) && s.drops == 1 && Holds(s)
    ensures Exec(s, ls) == Exec(s', ls[2..]) && s'.lost == multiset{0} && s'.drops == 1
  {
    var s1 := s.(phase := Wait);
    s' := TakeNext(s1);
    ExecTwo(s, ls, s1, s');
  }

  // ---------------------------------------------------------------- operations that shutdown does not free

  /** One TUN read is submitted, and the zero-copy loop is entered. */
  ghost predicate Reading(s: Sys) {
    && s.phase == Top(None) && s.mode == Zero(4, 3) && s.e.freeOps == [] && s.e.cq == [] && |s.e.ops| == 1
    && s.e.ops[0].opType == TunRead && 0 in s.e.inflight
  }

  lemma ReadStart(ls: seq<Label>) returns (s: Sys)
    requires |ls| >= 2 && ls[0] == StartRead(4, Accepted) && ls[1] == Enter(Zero(4, 3))
    ensures After(1, 1, map[], ls) == Exec(s, ls[2..]) && Reading(s)
  {
    var s0 := Initial(1, 1, map[]);
    assert s0.e.freeOps == [0] && s0.e.freeBufs == [0] && s0.e.ops == [BLANK];
    var s1 := FirstRead(s0, 4, Accepted);
    s := s1.(mode := Zero(4, 3));
    ExecTwo(s0, ls, s1, s);
  }

  /** A run whose guard fails while a read is in flight. */
  function LeavesRead(): seq<Label> { [StartRead(4, Accepted), Enter(Zero(4, 3)), Run(false)] }

  /** The read in flight is on no list that shutdown walks, although nothing is stranded. */
  lemma InFlightExample()
    ensures var s := After(1, 1, map[], LeavesRead());
      s.phase == Stopped(None, multiset{}) && s.e.freeOps == [] && 0 in s.e.inflight
  {
    ReadLeft(LeavesRead());
  }

  lemma ReadLeft(ls: seq<Label>)
    requires |ls| == 3 && ls[0] == StartRead(4, Accepted) && ls[1] == Enter(Zero(4, 3)) && ls[2] == Run(false)
    ensures var s := After(1, 1, map[], ls); s.phase == Stopped(None, multiset{}) && s.e.freeOps == [] && 0 in s.e.inflight
  {
    var s := ReadStart(ls);
    assert ls[2..] == [Run(false)];
    ExecLast(s, Run(false));
    StepOfRun(s, Run(false));
  }

  lemma ExecLast(s: Sys, l: Label)
    ensures Exec(s, [l]) == Step(s, l)
  {
    assert [l][1..] == [];
    assert Exec(Step(s, l), []) == Step(s, l);
  }

  /** A run in which the read fails. */
  function FailsRead(): seq<Label> {
    [StartRead(4, Accepted), Enter(Zero(4, 3)), KComplete(0, -1), Run(true), Next]
  }

  /** wait_for_recv leaves the operation of a failed completion in no place. */
  lemma StrandedExample()
    ensures After(1, 1, map[], FailsRead()).phase == Stopped(None, multiset{0})
  {
    ReadStranded(FailsRead());
  }

  lemma ReadStranded(ls: seq<Label>)
    requires |ls| == 5 && ls[0] == StartRead(4, Accepted) && ls[1] == Enter(Zero(4, 3))
    requires ls[2] == KComplete(0, -1) && ls[3] == Run(true) && ls[4] == Next
    ensures After(1, 1, map[], ls).phase == Stopped(None, multiset{0})
  {
    var s := ReadStart(ls);
    var s2 := ReadFails(s, ls[2..]);
    assert ls[2..][2..] == [Next];
    ExecLast(s2, Next);
    StepOfNext(s2, Next);
  }

  lemma ReadFails(s: Sys, ls: seq<Label>) returns (s': Sys)
    requires |ls| >= 2 && ls[0] == KComplete(0, -1) && ls[1] == Run(true) && Reading(s)
    ensures Exec(s, ls) == Exec(s', ls[2..]) && s'.phase == Wait && s'.e.cq == [SingleCqe(0, -1)]
  {
    var s1 := KernelStep(s, ls[0]);
    assert s1.e == KernelComplete(s.e, 0, -1);
    s' := s1.(phase := Wait);
    ExecTwo(s, ls, s1, s');
  }

  // ---------------------------------------------------------------- a ring buffer that a forwarder abandons

  /** A run of the forwarder in which decryption of the first datagram fails. */
  function AbandonsBuffer(): seq<Label> {
    [ArmUdp(3, Accepted), Enter(Forward(3, 5)), KRecv(0, [1], [7], true), Run(true), Next, Act(Accepted, false, None)]
  }

  /** The only ring buffer stays with the multishot operation. */
  lemma AbandonedExample()
    ensures var s := After(1, 1, map[], AbandonsBuffer());
      s.phase.Stopped? && s.e.ring == [] && s.e.At(0).isMulti && s.e.At(0).bufIdx == 0
  {
    ForwardAbandons(AbandonsBuffer());
  }

  lemma ForwardAbandons(ls: seq<Label>)
    requires |ls| == 6 && ls[0] == ArmUdp(3, Accepted) && ls[1] == Enter(Forward(3, 5)) && ls[2] == KRecv(0, [1], [7], true)
    requires ls[3] == Run(true) && ls[4] == Next && ls[5] == Act(Accepted, false, None)
    ensures var s := After(1, 1, map[], ls); s.phase.Stopped? && s.e.ring == [] && s.e.At(0).isMulti && s.e.At(0).bufIdx == 0
  {
    var a := ForwardStart(ls);
    var b := ForwardArrive(a, ls[2..]);
    assert ls[2..][2..] == ls[4..] && ls[4..][2..] == [];
    var c := ForwardGiveUp(b, ls[4..]);
    assert Exec(c, []) == c;
  }

  ghost predicate Forwarding(s: Sys) {
    && s.phase == Top(None) && s.mode == Forward(3, 5) && s.e.armed == {0} && s.e.ring == [0] && s.e.cq == []
    && |s.e.slots| == 1 && s.e.ops == [Multi(3)]
  }

  ghost predicate ForwardWaits(s: Sys) {
    && s.phase == Wait && s.mode == Forward(3, 5) && s.e.ring == [] && s.e.ops == [Multi(3)]
    && s.e.cq == [MultiCqe(0, HEADER + 1, Some(0), true)] && s.e.SlotAt(0).name == [1]
  }

  lemma ForwardStart(ls: seq<Label>) returns (s: Sys)
    requires |ls| >= 2 && ls[0] == ArmUdp(3, Accepted) && ls[1] == Enter(Forward(3, 5))
    ensures After(1, 1, map[], ls) == Exec(s, ls[2..]) && Forwarding(s)
  {
    var s0 := Initial(1, 1, map[]);
    assert s0.e.freeOps[0] == 0 && s0.e.ring == [0] && s0.e.ops == [BLANK];
    var e1 := AllocBuf(s0.e, UdpRecv, 3, true, None).0;
    assert e1.ops == [Multi(3)];
    var s1 := FirstArm(s0, 3, Accepted);
    s := s1.(mode := Forward(3, 5));
    ExecTwo(s0, ls, s1, s);
  }

  lemma ForwardArrive(s: Sys, ls: seq<Label>) returns (s': Sys)
    requires |ls| >= 2 && ls[0] == KRecv(0, [1], [7], true) && ls[1] == Run(true) && Forwarding(s)
    ensures Exec(s, ls) == Exec(s', ls[2..]) && ForwardWaits(s')
  {
    var s1 := KernelStep(s, ls[0]);
    assert s1.e == KernelRecv(s.e, 0, [1], [7], true);
    s' := s1.(phase := Wait);
    ExecTwo(s, ls, s1, s');
  }

  lemma ForwardGiveUp(s: Sys, ls: seq<Label>) returns (s': Sys)
    requires |ls| >= 2 && ls[0] == Next && ls[1] == Act(Accepted, false, None) && ForwardWaits(s)
    ensures Exec(s, ls) == Exec(s', ls[2..]) && s'.phase.Stopped? && s'.e.ring == [] && s'.e.At(0).isMulti && s'.e.At(0).bufIdx == 0
  {
    var s1 := ForwardTaken(s);
    s' := Handle(s1, 0, false, None);
    StepAtBack(s1, ls[1]);
    ExecTwo(s, ls, s1, s');
  }

  lemma ForwardTaken(s: Sys) returns (s': Sys)
    requires ForwardWaits(s)
    ensures s' == TakeNext(s) && s'.phase == Back(0) && s'.mode == Forward(3, 5) && s'.e.ring == [] && |s'.e.ops| == 1
    ensures s'.e.ops[0].isMulti && s'.e.ops[0].bufIdx == 0
  {
    s' := TakeNext(s);
  }
}
