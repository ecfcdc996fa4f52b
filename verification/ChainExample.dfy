/** Two edges and one packet: a chain as the end-to-end theorems speak of, written out state by state. */
module ChainExample {
  import opened Base
  import opened Engine
  import opened Machine
  import opened CopyRelay
  import opened RelaySteps
  import opened Ledger
  import opened Sessions
  import opened Directions
  import opened Chain

  // ---------------------------------------------------------------- a codec

  function Tag(k: nat, p: Bytes): Bytes { [0] + p }

  function Untag(d: Bytes): Option<Bytes> { if d != [] && d[0] == 0 then Some(d[1..]) else None }

  const TAG := Codec(Tag, Untag)
  const FRESH := Session(TAG, 0, [], [])
  const CODER := Coder(FRESH, FRESH)

  lemma TagIsClean()
    ensures Clean(FRESH)
  {
    forall k: nat, p: Bytes
      ensures TAG.unseal(TAG.seal(k, p)) == Some(p) && 0 < |TAG.seal(k, p)| <= |p| + 45
    {
      assert ([0] + p)[1..] == p;
    }
  }

  lemma TagCodes(a: Arrival)
    ensures a == TunPacket(4, [7]) ==> Code(Dtls(4, 3), CODER, a).coded == Some([0, 7])
    ensures a == Datagram(5, [1], [0, 7]) ==> Code(Dtls(6, 5), CODER, a).coded == Some([7])
  {
    TagIsClean();
    SealClean(FRESH, [7]);
    OpenClean(FRESH, [0, 7]);
    assert [0] + [7] == [0, 7] && [0, 7][1..] == [7];
  }

  // ---------------------------------------------------------------- running step by step

  /** `s1` is the next state, and the codec is not asked. */
  lemma PlainStep(s: Sys, k: Coder, ls: seq<Label>, s1: Sys)
    requires ls != [] && s1 == Step(s, ls[0]) && !IsCoding(s, ls[0])
    ensures Exec(s, ls) == Exec(s1, ls[1..]) && (CodingRun(s, k, ls) <==> CodingRun(s1, k, ls[1..]))
  {
  }

  /** `s1` is the next state, and the codec answers for the packet `a`; the sessions no longer matter. */
  lemma CodedStep(s: Sys, k: Coder, ls: seq<Label>, s1: Sys, a: Arrival)
    requires ls != [] && s1 == Step(s, ls[0]) && IsCoding(s, ls[0]) && InHand(s) == a
    requires ls[0].plain == Code(s.mode, k, a).plain && ls[0].coded == Code(s.mode, k, a).coded
    requires CodingRun(s1, Code(s.mode, k, a).next, ls[1..])
    ensures Exec(s, ls) == Exec(s1, ls[1..]) && CodingRun(s, k, ls)
  {
  }

  // ---------------------------------------------------------------- the far edge

  const IN := Datagram(5, [1], [0, 7])
  const WRITTEN := ToTun(6, [7])
  const LISTENS := BLANK.(opType := UdpRecv, fd := 5, isMulti := true)
  const HOLDS := LISTENS.(bufIdx := 0, addr := [1], buffer := RingBuffer(0), dataLen := 2)
  const WRITES := BLANK.(opType := TunWrite, fd := 6, bufAddr := Some(0), buffer := PoolBuffer(0), dataLen := 1)

  const B0 := Sys(Dtls(6, 5), Top(None),
    Engine([LISTENS, BLANK], [1], [0, 1], [0], [[], []], [Slot([], [])], map[], {0}, [], []),
    map[], map[5 := 0], 0, multiset{}, map[], 0, [])
  const B1 := B0.(trace := [In(IN)],
    e := B0.e.(ring := [], slots := [Slot([1], [0, 7])], cq := [MultiCqe(0, HEADER + 2, Some(0), true)]))
  const B2 := B1.(phase := Wait)
  const B3 := B2.(phase := Back(0), trace := [In(IN), Take(IN)], e := B2.e.(cq := [], ops := [HOLDS, BLANK]))
  const B4 := B3.(phase := Send(Some(0), 1), e := B3.e.(freeOps := [], freeBufs := [1], poolMem := [[7], []], ops := [HOLDS, WRITES]))
  const B5 := B4.(phase := Done(0, true), trace := [In(IN), Take(IN), Submit(1, WRITTEN)],
    e := B4.e.(inflight := map[1 := Sqe(6, PoolBuffer(0), 1, [])]))

  const B_RUN := [KRecv(0, [1], [0, 7], true), Run(true), Next, Act(Accepted, true, Some([7])), Act(Accepted, true, None)]
  const FAR := Node(2, 1, map[], [ArmUdp(5, Accepted)], Dtls(6, 5), CODER, B_RUN, false)

  lemma FarStart()
    ensures FAR.Ready() == B0.(mode := Setup)
  {
    var s0 := Initial(2, 1, map[]);
    assert s0.e.freeOps == [0, 1] && s0.e.freeBufs == [0, 1] && s0.e.ring == [0] && s0.e.ops == [BLANK, BLANK];
    assert s0.e.poolMem == [[], []] && s0.e.slots == [Slot([], [])];
    var e1 := AllocBuf(s0.e, UdpRecv, 5, true, None).0;
    assert e1.ops == [LISTENS, BLANK] && e1.freeOps == [1];
    StepOfArm(s0, ArmUdp(5, Accepted));
    assert FirstArm(s0, 5, Accepted) == B0.(mode := Setup);
    assert [ArmUdp(5, Accepted)][1..] == [];
    assert Exec(B0.(mode := Setup), []) == B0.(mode := Setup);
  }

  lemma FarArrives()
    ensures KernelStep(B0, B_RUN[0]) == B1
  {
    assert KernelRecv(B0.e, 0, [1], [0, 7], true) == B1.e;
    var c := B1.e.cq[0];
    assert c == B1.e.cq[|B1.e.cq| - 1] && IsArrival(B1.e, c) && ArrivalOf(B1.e, c) == IN;
    assert B1.trace == B0.trace + [In(IN)];
  }

  lemma FarTakes()
    ensures TakeNext(B2) == B3
  {
    assert B2.e.cq[1..] == [];
    assert ArrivalOf(B2.e, B2.e.cq[0]) == IN;
    assert B3.trace == B2.trace + [Take(IN)];
  }

  lemma FarCodes()
    ensures Handle(B3, 0, true, Some([7])) == B4 && Carried(B3.e, 0, 0) == IN
  {
    var (e1, n) := AllocBuf(B3.e, TunWrite, 6, false, None);
    assert n == Some(1) && e1.ops == [HOLDS, WRITES.(dataLen := 0)] && e1.freeOps == [] && e1.freeBufs == [1];
    assert Fill(e1, 1, [7]) == B4.e;
  }

  lemma FarSubmits()
    ensures Transmit(B4, Some(0), 1, Accepted) == B5
  {
    assert SubmitOut(B4.e, 1, [], Accepted) == (B5.e, true);
    assert MsgOf(B5.e, TunWrite, B5.e.inflight[1]) == WRITTEN;
    assert B5.trace == B4.trace + [Submit(1, WRITTEN)];
  }

  lemma FarRuns()
    ensures FAR.Begin() == B0 && FAR.End() == B5 && CodingRun(B0, CODER, B_RUN)
  {
    FarStart();
    FarEnds(B_RUN);
  }

  lemma FarEnds(ls: seq<Label>)
    requires ls == B_RUN
    ensures Exec(B0, ls) == B5 && CodingRun(B0, CODER, ls)
  {
    FarTail(ls[2..]);
    FarArrives();
    PlainStep(B0, CODER, ls, B1);
    assert ls[1..][0] == Run(true) && ls[1..][1..] == ls[2..];
    StepOfRun(B1, Run(true));
    PlainStep(B1, CODER, ls[1..], B2);
  }

  lemma FarTail(ls: seq<Label>)
    requires ls == B_RUN[2..]
    ensures Exec(B2, ls) == B5 && CodingRun(B2, CODER, ls)
  {
    var k := Code(Dtls(6, 5), CODER, IN).next;
    FarTakes();
    StepOfNext(B2, ls[0]);
    PlainStep(B2, CODER, ls, B3);
    assert ls[1..][0] == Act(Accepted, true, Some([7])) && ls[1..][1..] == ls[2..];
    FarLast(ls[2..], k);
    FarCodes();
    StepAtBack(B3, ls[1]);
    TagCodes(IN);
    CodedStep(B3, CODER, ls[1..], B4, IN);
  }

  lemma FarLast(ls: seq<Label>, k: Coder)
    requires ls == B_RUN[4..]
    ensures Exec(B4, ls) == B5 && CodingRun(B4, k, ls)
  {
    FarSubmits();
    StepAtSend(B4, ls[0]);
    PlainStep(B4, k, ls, B5);
    assert ls[1..] == [];
  }

  lemma FarValid()
    ensures FAR.Valid()
  {
    FarStart();
    FarRuns();
    ArrivedIs(B5.trace);
    ValidIf(FAR, IN);
  }

  /** A node of this example is valid when its run is a coding run that receives only `a`. */
  lemma ValidIf(n: Node, a: Arrival)
    requires n.mode.Dtls? && n.coder == CODER && n.Ready().mode.Setup? && n.Ready().phase.Top? && |a.bytes| <= MTU
    requires CodingRun(n.Begin(), n.coder, n.after)
    requires forall i | 0 <= i < |n.End().trace| && n.End().trace[i].In? :: n.End().trace[i].a == a
    ensures n.Valid()
  {
    TagIsClean();
  }

  // ---------------------------------------------------------------- the near edge

  const GO := Act(Accepted, true, None)
  const READ := TunPacket(4, [7])
  const SENT := ToPeer(3, [9], [0, 7])
  const SENDS := BLANK.(opType := UdpSend, fd := 3, bufAddr := Some(2), buffer := PoolBuffer(2), dataLen := 2)

  /** A read into pool buffer `b`. */
  function Reads(b: nat): Op { BLANK.(opType := TunRead, fd := 4, bufAddr := Some(b), buffer := PoolBuffer(b)) }

  function Request(b: nat): Sqe { Sqe(4, PoolBuffer(b), BUF_SIZE, []) }

  const A0 := Sys(Dtls(4, 3), Top(None),
    Engine([Reads(0), BLANK, BLANK], [1, 2], [1, 2], [0], [[], [], []], [Slot([], [])], map[0 := Request(0)], {}, [], []),
    map[3 := [9]], map[], 1, multiset{}, map[], 0, [])
  const A1 := A0.(trace := [In(READ)], e := A0.e.(inflight := map[], cq := [SingleCqe(0, 1)], poolMem := [[7], [], []]))
  const A2 := A1.(phase := Wait)
  const A3 := A2.(phase := Got(0), trace := [In(READ), Take(READ)],
    e := A2.e.(cq := [], ops := [Reads(0).(dataLen := 1), BLANK, BLANK]))
  const A4 := A3.(phase := Resub(0, 1),
    e := A3.e.(freeOps := [2], freeBufs := [2], ops := [Reads(0).(dataLen := 1), Reads(1), BLANK]))
  const A5 := A4.(phase := Back(0), e := A4.e.(inflight := map[1 := Request(1)]))
  const A6 := A5.(phase := Send(Some(0), 2),
    e := A5.e.(freeOps := [], freeBufs := [], poolMem := [[7], [], [0, 7]], ops := [Reads(0).(dataLen := 1), Reads(1), SENDS]))
  const A7 := A6.(phase := Done(0, true), trace := [In(READ), Take(READ), Submit(2, SENT)],
    e := A6.e.(inflight := map[1 := Request(1), 2 := Sqe(3, PoolBuffer(2), 2, [9])]))
  const A8 := A7.(trace := [In(READ), Take(READ), Submit(2, SENT), Out(2, SENT)],
    e := A7.e.(inflight := map[1 := Request(1)], cq := [SingleCqe(2, 2)]))

  const A_RUN := [KRead(0, [7]), Run(true), Next, GO, GO, Act(Accepted, true, Some([0, 7])), GO, KComplete(2, 2)]
  const NEAR := Node(3, 1, map[3 := [9]], [StartRead(4, Accepted)], Dtls(4, 3), CODER, A_RUN, true)

  lemma NearStart()
    ensures NEAR.Ready() == A0.(mode := Setup)
  {
    var s0 := Initial(3, 1, map[3 := [9]]);
    assert s0.e.freeOps == [0, 1, 2] && s0.e.freeBufs == [0, 1, 2] && s0.e.ring == [0] && s0.e.ops == [BLANK, BLANK, BLANK];
    assert s0.e.poolMem == [[], [], []] && s0.e.slots == [Slot([], [])];
    var (e1, n) := AllocBuf(s0.e, TunRead, 4, false, None);
    assert n == Some(0) && e1.ops == [Reads(0), BLANK, BLANK] && e1.freeOps == [1, 2] && e1.freeBufs == [1, 2];
    assert FirstRead(s0, 4, Accepted) == A0.(mode := Setup);
    assert [StartRead(4, Accepted)][1..] == [];
    assert Exec(A0.(mode := Setup), []) == A0.(mode := Setup);
  }

  lemma NearArrives()
    ensures KernelStep(A0, A_RUN[0]) == A1
  {
    assert KernelRead(A0.e, 0, [7]) == A1.e;
    var c := A1.e.cq[0];
    assert c == A1.e.cq[|A1.e.cq| - 1] && IsArrival(A1.e, c) && ArrivalOf(A1.e, c) == READ;
    assert A1.trace == A0.trace + [In(READ)];
  }

  lemma NearTakes()
    ensures TakeNext(A2) == A3
  {
    assert A2.e.cq[1..] == [];
    assert ArrivalOf(A2.e, A2.e.cq[0]) == READ;
    assert A3.trace == A2.trace + [Take(READ)];
  }

  lemma NearReplaces()
    ensures Dispatch(A3, 0) == A4 && Resubmit(A4, 0, 1, Accepted) == A5
  {
    var (e1, n) := AllocBuf(A3.e, TunRead, 4, false, None);
    assert n == Some(1) && e1 == A4.e;
    assert SubmitRead(A4.e, 1, Accepted) == (A5.e, true);
  }

  lemma NearCodes()
    ensures Handle(A5, 0, true, Some([0, 7])) == A6 && Carried(A5.e, 0, 0) == READ
  {
    var (e1, n) := AllocBuf(A5.e, UdpSend, 3, false, None);
    assert n == Some(2) && e1.ops == [Reads(0).(dataLen := 1), Reads(1), SENDS.(dataLen := 0)] && e1.freeOps == [] && e1.freeBufs == [];
    assert Fill(e1, 2, [0, 7]) == A6.e;
  }

  lemma NearSubmits()
    ensures Transmit(A6, Some(0), 2, Accepted) == A7
  {
    assert SubmitOut(A6.e, 2, [9], Accepted) == (A7.e, true);
    assert MsgOf(A7.e, UdpSend, A7.e.inflight[2]) == SENT;
    assert A7.trace == A6.trace + [Submit(2, SENT)];
  }

  lemma NearSends()
    ensures KernelStep(A7, A_RUN[7]) == A8
  {
    assert KernelComplete(A7.e, 2, 2) == A8.e;
    var c := A8.e.cq[0];
    assert c == A8.e.cq[|A8.e.cq| - 1] && !IsArrival(A8.e, c);
    assert MsgOf(A7.e, UdpSend, A7.e.inflight[2]) == SENT;
    assert A8.trace == A7.trace + [Out(2, SENT)];
  }

  lemma NearBegins(ls: seq<Label>)
    requires ls == A_RUN
    ensures Exec(A0, ls) == A8 && CodingRun(A0, CODER, ls)
  {
    NearWaits(ls[2..]);
    NearArrives();
    PlainStep(A0, CODER, ls, A1);
    assert ls[1..][0] == Run(true) && ls[1..][1..] == ls[2..];
    StepOfRun(A1, Run(true));
    PlainStep(A1, CODER, ls[1..], A2);
  }

  lemma NearWaits(ls: seq<Label>)
    requires ls == A_RUN[2..]
    ensures Exec(A2, ls) == A8 && CodingRun(A2, CODER, ls)
  {
    NearResubmits(ls[1..]);
    NearTakes();
    StepOfNext(A2, ls[0]);
    PlainStep(A2, CODER, ls, A3);
  }

  lemma NearResubmits(ls: seq<Label>)
    requires ls == A_RUN[3..]
    ensures Exec(A3, ls) == A8 && CodingRun(A3, CODER, ls)
  {
    NearTail(ls[2..]);
    NearReplaces();
    StepAtGot(A3, ls[0]);
    PlainStep(A3, CODER, ls, A4);
    assert ls[1..][0] == GO && ls[1..][1..] == ls[2..];
    StepAtResub(A4, GO);
    PlainStep(A4, CODER, ls[1..], A5);
  }

  lemma NearTail(ls: seq<Label>)
    requires ls == A_RUN[5..]
    ensures Exec(A5, ls) == A8 && CodingRun(A5, CODER, ls)
  {
    NearLast(ls[1..], Code(Dtls(4, 3), CODER, READ).next);
    NearCodes();
    StepAtBack(A5, ls[0]);
    TagCodes(READ);
    CodedStep(A5, CODER, ls, A6, READ);
  }

  lemma NearLast(ls: seq<Label>, k: Coder)
    requires ls == A_RUN[6..]
    ensures Exec(A6, ls) == A8 && CodingRun(A6, k, ls)
  {
    NearSubmits();
    StepAtSend(A6, ls[0]);
    PlainStep(A6, k, ls, A7);
    assert ls[1..][0] == A_RUN[7] && ls[1..][1..] == [];
    NearSends();
    PlainStep(A7, k, ls[1..], A8);
  }

  lemma NearValid()
    ensures NEAR.Valid() && NEAR.Begin() == A0 && NEAR.End() == A8
  {
    NearStart();
    NearBegins(A_RUN);
    ValidIf(NEAR, READ);
  }

  // ---------------------------------------------------------------- the chain

  /** Nodes with these traces are linked: the datagram that arrived is the one that was sent. */
  lemma LinksIf(n: Node, next: Node)
    requires n.mode == Dtls(4, 3) && n.way && n.coder == CODER && n.End().trace == A8.trace && Subs(n.Begin().trace) == []
    requires next.mode == Dtls(6, 5) && !next.way && next.coder == CODER && next.End().trace == B5.trace
    ensures Linked(n, next)
  {
    SendsIf(n);
    ArrivedIs(next.End().trace);
  }

  lemma ArrivedIs(tr: seq<Event>)
    requires tr == B5.trace
    ensures forall i | 0 <= i < |tr| && tr[i].In? :: tr[i].a == IN
  {
  }

  lemma SendsIf(n: Node)
    requires n.mode == Dtls(4, 3) && n.way && n.End().trace == A8.trace
    ensures Delivered(n, [0, 7])
  {
    assert n.End().trace[3] == Out(2, SENT) && Leaves(n.mode, n.way, SENT);
    assert Sends(n, [0, 7]);
    assert Cut([0, 7]) == [0, 7];
  }

  lemma NetworkLinks()
    ensures Linked(NEAR, FAR)
  {
    NearValid();
    FarRuns();
    LinksIf(NEAR, FAR);
  }

  lemma PathIf(n: Node, next: Node)
    requires n.Valid() && next.Valid() && Linked(n, next)
    requires n.mode.Dtls? && n.way && next.mode.Dtls? && !next.way
    ensures Path([n, next])
  {
  }

  lemma FarWrites()
    ensures WRITTEN in Subs(B5.trace)
  {
    var tr := B4.trace;
    assert B5.trace == tr + [Submit(1, WRITTEN)];
    Added(tr, Submit(1, WRITTEN));
  }

  /** The packet read by the near edge is the one submitted to the far TUN device. */
  lemma ChainDelivers()
    ensures Path([NEAR, FAR]) && WRITTEN in Subs(FAR.End().trace) && Read(NEAR, WRITTEN.bytes)
  {
    NearValid();
    FarValid();
    FarRuns();
    NetworkLinks();
    PathIf(NEAR, FAR);
    FarWrites();
    EndToEnd([NEAR, FAR], WRITTEN);
  }
}
