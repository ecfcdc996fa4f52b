/** Steps of the kernel, of wait_for_recv and of the zero-copy loop are steps of the by-value relay. */
module CopySteps {
  import opened Base
  import opened Engine
  import opened Machine
  import opened Ownership
  import opened OwnershipSteps
  import opened Invariant
  import opened EngineFrames
  import opened Exclusive
  import opened CopyRelay
  import opened WaitSteps

  /** The relay can do what the step from `s` to `s'` does, with the same events. */
  ghost predicate Refines(s: Sys, s': Sys) {
    s.trace <= s'.trace && CopyNext(s.mode, Abs(s), Abs(s'), s'.trace[|s.trace|..])
  }

  /** The packets, the packet in hand and the messages are the same. */
  ghost predicate SameView(e: Engine, e': Engine, ph: Phase, ph': Phase) {
    Arrivals(e', e'.cq) == Arrivals(e, e.cq) && Outbox(e') == Outbox(e) && Packet(e', ph') == Packet(e, ph)
  }

  lemma StutterRefines(s: Sys, s': Sys)
    requires s'.peers == s.peers && s'.trace == s.trace && SameView(s.e, s'.e, s.phase, s'.phase)
    requires Continuing(s'.phase) == Continuing(s.phase)
    ensures Refines(s, s')
  {
    assert s'.trace[|s.trace|..] == [];
  }

  lemma ArriveRefines(s: Sys, s': Sys, a: Arrival)
    requires s'.peers == s.peers && s'.trace == s.trace + [In(a)] && s'.phase == s.phase
    requires Arrivals(s'.e, s'.e.cq) == Arrivals(s.e, s.e.cq) + [a]
    requires Outbox(s'.e) == Outbox(s.e) && Packet(s'.e, s.phase) == Packet(s.e, s.phase)
    ensures Refines(s, s')
  {
    assert s'.trace[|s.trace|..] == [In(a)];
  }

  lemma GoneRefines(s: Sys, s': Sys, ev: Event)
    requires s'.peers == s.peers && s'.trace == s.trace + [ev] && s'.phase == s.phase && (ev.Out? || ev.Fail?)
    requires ev.ticket in Outbox(s.e) && Outbox(s.e)[ev.ticket] == ev.m && Outbox(s'.e) == Outbox(s.e) - {ev.ticket}
    requires Arrivals(s'.e, s'.e.cq) == Arrivals(s.e, s.e.cq) && Packet(s'.e, s.phase) == Packet(s.e, s.phase)
    ensures Refines(s, s')
  {
    assert s'.trace[|s.trace|..] == [ev];
  }

  // ---------------------------------------------------------------- the packet in hand

  /** The operation whose buffer holds the packet in hand. */
  ghost function Holder(ph: Phase): Option<nat> {
    match ph
    case Got(o) => Some(o)
    case Resub(o, _) => Some(o)
    case Rearm(o) => Some(o)
    case Back(o) => Some(o)
    case Send(_, n) => Some(n)
    case _ => None
  }

  lemma HolderOwns(s: Sys)
    requires Inv(s) && Holder(s.phase).Some?
    ensures var w := Holder(s.phase).value;
      && InUse(s.e, w) && w !in s.e.inflight && CqOps(s.e.cq, w) == 0
      && (s.e.At(w).isMulti ==> Loaded(s.e.At(w)))
      && (!s.e.At(w).isMulti ==> s.e.At(w).bufAddr.Some? || s.e.At(w).bufIdx >= 0)
  {
    var w := Holder(s.phase).value;
    Located(s.e, Hand(s.e, s.phase), s.lost, w);
  }

  lemma PacketKept(e: Engine, e': Engine, ph: Phase)
    requires e'.ops == e.ops
    requires Holder(ph).Some? ==>
      var op := e.At(Holder(ph).value); e'.Read(op.buffer, op.dataLen) == e.Read(op.buffer, op.dataLen)
    ensures Packet(e', ph) == Packet(e, ph)
  {
  }

  // ---------------------------------------------------------------- kernel

  /** Storing a TUN packet changes no other packet and no message. */
  lemma ReadArrivals(s: Sys, e': Engine, o: nat)
    requires Inv(s) && o in s.e.inflight && s.e.At(o).bufAddr.Some? && e'.ops == s.e.ops
    requires e'.slots == s.e.slots && |e'.poolMem| == |s.e.poolMem|
    requires forall b: nat | b < |s.e.poolMem| && b != s.e.At(o).bufAddr.value :: e'.poolMem[b] == s.e.poolMem[b]
    ensures Arrivals(e', s.e.cq) == Arrivals(s.e, s.e.cq)
    ensures forall p | p in s.e.inflight && p != o :: MsgOf(e', s.e.At(p).opType, s.e.inflight[p]) == MsgOf(s.e, s.e.At(p).opType, s.e.inflight[p])
    ensures Packet(e', s.phase) == Packet(s.e, s.phase)
  {
    var hand := Hand(s.e, s.phase);
    Located(s.e, hand, s.lost, o);
    forall j | 0 <= j < |s.e.cq|
      ensures SameArrival(s.e, e', s.e.cq[j])
    {
      var c := s.e.cq[j];
      if c.SingleCqe? {
        CqAtLeast(s.e.cq, j);
        Located(s.e, hand, s.lost, c.op);
        assert CqeOk(s.e, c);
        PoolWriteFrame(s.e, e', o, hand, s.lost, c.op, c.res);
      }
    }
    ArrivalsFrame(s.e, e', s.e.cq);
    forall p | p in s.e.inflight && p != o
      ensures MsgOf(e', s.e.At(p).opType, s.e.inflight[p]) == MsgOf(s.e, s.e.At(p).opType, s.e.inflight[p])
    {
      Located(s.e, hand, s.lost, p);
      PoolWriteFrame(s.e, e', o, hand, s.lost, p, s.e.inflight[p].len);
    }
    if Holder(s.phase).Some? {
      HolderOwns(s);
      var w := Holder(s.phase).value;
      if !s.e.At(w).isMulti {
        PoolWriteFrame(s.e, e', o, hand, s.lost, w, s.e.At(w).dataLen);
      }
    }
    PacketKept(s.e, e', s.phase);
  }

  lemma KReadView(s: Sys, e': Engine, o: nat, data: Bytes)
    requires Inv(s) && e' == KernelRead(s.e, o, data) && |e'.cq| > |s.e.cq|
    ensures var a := ArrivalOf(e', SingleCqe(o, |data|));
      && Arrivals(e', e'.cq) == Arrivals(s.e, s.e.cq) + [a]
      && Outbox(e') == Outbox(s.e) && Packet(e', s.phase) == Packet(s.e, s.phase)
      && a == TunPacket(s.e.At(o).fd, data)
  {
    Located(s.e, Hand(s.e, s.phase), s.lost, o);
    assert SqeOk(s.e.At(o), s.e.inflight[o]) && ShapeOk(s.e.ops[o]);
    FreeBufUnowned(s.e, Hand(s.e, s.phase), s.lost, o);
    ReadArrivals(s, e', o);
    ArrivalsAppend(e', s.e.cq, SingleCqe(o, |data|));
    SameOutbox(s.e, e', o);
  }

  lemma SameOutbox(e: Engine, e': Engine, o: nat)
    requires e'.inflight == e.inflight - {o} && e'.ops == e.ops && o in e.inflight && e.At(o).opType == TunRead
    requires forall p | p in e.inflight && p != o :: MsgOf(e', e.At(p).opType, e.inflight[p]) == MsgOf(e, e.At(p).opType, e.inflight[p])
    ensures Outbox(e') == Outbox(e)
  {
    assert forall p: nat :: e'.At(p) == e.At(p);
  }

  lemma KReadRefines(s: Sys, o: nat, data: Bytes)
    requires Inv(s)
    ensures Refines(s, KernelStep(s, KRead(o, data)))
  {
    var e' := KernelRead(s.e, o, data);
    var s' := KernelStep(s, KRead(o, data));
    if |e'.cq| == |s.e.cq| {
      StutterRefines(s, s');
    } else {
      KReadView(s, e', o, data);
      ArriveRefines(s, s', ArrivalOf(e', SingleCqe(o, |data|)));
    }
  }

  lemma GoneOutbox(e: Engine, e': Engine, o: nat)
    requires o in e.inflight && e'.inflight == e.inflight - {o} && e'.ops == e.ops && SameMemory(e, e')
    ensures Outbox(e') == if e.At(o).opType == TunRead then Outbox(e) else Outbox(e) - {o}
  {
    assert forall p: nat :: e'.At(p) == e.At(p);
  }

  lemma KCompleteView(s: Sys, e': Engine, o: nat, res: int)
    requires e' == KernelComplete(s.e, o, res) && |e'.cq| > |s.e.cq|
    ensures Arrivals(e', e'.cq) == Arrivals(s.e, s.e.cq) && Packet(e', s.phase) == Packet(s.e, s.phase)
    ensures Outbox(e') == if s.e.At(o).opType == TunRead then Outbox(s.e) else Outbox(s.e) - {o}
  {
    ArrivalsAppend(e', s.e.cq, SingleCqe(o, res));
    ArrivalsFrame(s.e, e', s.e.cq);
    PacketKept(s.e, e', s.phase);
    GoneOutbox(s.e, e', o);
  }

  lemma KCompleteRefines(s: Sys, o: nat, res: int)
    requires Inv(s)
    ensures Refines(s, KernelStep(s, KComplete(o, res)))
  {
    var e' := KernelComplete(s.e, o, res);
    var s' := KernelStep(s, KComplete(o, res));
    if |e'.cq| == |s.e.cq| {
      StutterRefines(s, s');
    } else {
      KCompleteView(s, e', o, res);
      if s.e.At(o).opType == TunRead {
        StutterRefines(s, s');
      } else {
        var m := MsgOf(s.e, s.e.At(o).opType, s.e.inflight[o]);
        GoneRefines(s, s', if res >= 0 then Out(o, m) else Fail(o, m));
      }
    }
  }

  /** Only the slot at the head of the ring may have changed. */
  ghost predicate HeadSlotOnly(e: Engine, e': Engine) {
    && e.ring != [] && e'.ops == e.ops && e'.inflight == e.inflight
    && e'.poolMem == e.poolMem && |e'.slots| == |e.slots|
    && forall i: nat | i < |e.slots| && i != e.ring[0] :: e'.slots[i] == e.slots[i]
  }

  /** Storing a datagram in the ring changes no message. */
  lemma RecvOutbox(e: Engine, e': Engine, hand: multiset<nat>, lost: multiset<nat>)
    requires Own(e, hand, lost) && Singles(e) && HeadSlotOnly(e, e')
    ensures Outbox(e') == Outbox(e)
  {
    forall p | p in e.inflight
      ensures MsgOf(e', e'.At(p).opType, e.inflight[p]) == MsgOf(e, e.At(p).opType, e.inflight[p])
    {
      Located(e, hand, lost, p);
      SlotWriteFrame(e, e', hand, lost, p, e.inflight[p].len);
    }
  }

  /** Storing a datagram in the ring changes no packet. */
  lemma RecvArrivals(e: Engine, e': Engine, hand: multiset<nat>, lost: multiset<nat>)
    requires Own(e, hand, lost) && Singles(e) && HeadSlotOnly(e, e')
    ensures Arrivals(e', e.cq) == Arrivals(e, e.cq)
  {
    forall j | 0 <= j < |e.cq|
      ensures SameArrival(e, e', e.cq[j])
    {
      var c := e.cq[j];
      if c.SingleCqe? {
        CqAtLeast(e.cq, j);
        Located(e, hand, lost, c.op);
        assert CqeOk(e, c);
        SlotWriteFrame(e, e', hand, lost, c.op, c.res);
      } else if c.buf.Some? {
        CompletedNotOffered(e, hand, lost, j);
        OccIn(e.ring, e.ring[0]);
      }
    }
    ArrivalsFrame(e, e', e.cq);
  }

  lemma RecvPacket(s: Sys, e': Engine)
    requires Inv(s) && HeadSlotOnly(s.e, e')
    ensures Packet(e', s.phase) == Packet(s.e, s.phase)
  {
    if Holder(s.phase).Some? {
      HolderOwns(s);
      var w := Holder(s.phase).value;
      SlotWriteFrame(s.e, e', Hand(s.e, s.phase), s.lost, w, s.e.At(w).dataLen);
    }
    PacketKept(s.e, e', s.phase);
  }

  lemma KRecvView(s: Sys, e': Engine, o: nat, name: Addr, payload: Bytes, more: bool)
    requires Inv(s) && e' == KernelRecv(s.e, o, name, payload, more) && |e'.cq| > |s.e.cq|
    ensures var a := ArrivalOf(e', e'.cq[|s.e.cq|]);
      && Arrivals(e', e'.cq) == Arrivals(s.e, s.e.cq) + [a]
      && Outbox(e') == Outbox(s.e) && Packet(e', s.phase) == Packet(s.e, s.phase)
      && a == Datagram(s.e.At(o).fd, name, payload)
  {
    OfferedInRange(s.e, Hand(s.e, s.phase), s.lost);
    RecvArrivals(s.e, e', Hand(s.e, s.phase), s.lost);
    RecvOutbox(s.e, e', Hand(s.e, s.phase), s.lost);
    RecvPacket(s, e');
    ArrivalsAppend(e', s.e.cq, e'.cq[|s.e.cq|]);
  }

  lemma KRecvRefines(s: Sys, o: nat, name: Addr, payload: Bytes, more: bool)
    requires Inv(s)
    ensures Refines(s, KernelStep(s, KRecv(o, name, payload, more)))
  {
    var e' := KernelRecv(s.e, o, name, payload, more);
    var s' := KernelStep(s, KRecv(o, name, payload, more));
    if |e'.cq| == |s.e.cq| {
      StutterRefines(s, s');
    } else {
      KRecvView(s, e', o, name, payload, more);
      ArriveRefines(s, s', ArrivalOf(e', e'.cq[|s.e.cq|]));
    }
  }

  lemma KNoBufferView(s: Sys, e': Engine, o: nat, res: int, more: bool)
    requires e' == KernelNoBuffer(s.e, o, res, more)
    ensures SameView(s.e, e', s.phase, s.phase)
  {
    if |e'.cq| > |s.e.cq| {
      ArrivalsAppend(e', s.e.cq, MultiCqe(o, res, None, more));
      ArrivalsFrame(s.e, e', s.e.cq);
    }
    PacketKept(s.e, e', s.phase);
  }

  lemma KNoBufferRefines(s: Sys, o: nat, res: int, more: bool)
    requires Inv(s)
    ensures Refines(s, KernelStep(s, KNoBuffer(o, res, more)))
  {
    var s' := KernelStep(s, KNoBuffer(o, res, more));
    KNoBufferView(s, s'.e, o, res, more);
    StutterRefines(s, s');
  }

  // ---------------------------------------------------------------- program: shapes of its steps

  lemma HaltRefines(s: Sys, s': Sys)
    requires s'.trace == s.trace && !Continuing(s'.phase) && Packet(s'.e, s'.phase) == None
    requires Arrivals(s'.e, s'.e.cq) == Arrivals(s.e, s.e.cq) && Outbox(s'.e) == Outbox(s.e)
    requires Pins(s.mode, Abs(s), s'.peers)
    ensures Refines(s, s')
  {
    assert s'.trace[|s.trace|..] == [];
  }

  lemma TakeRefines(s: Sys, s': Sys, a: Arrival)
    requires s'.peers == s.peers && s'.trace == s.trace + [Take(a)]
    requires Continuing(s.phase) && Packet(s.e, s.phase) == None
    requires Arrivals(s.e, s.e.cq) == [a] + Arrivals(s'.e, s'.e.cq) && Outbox(s'.e) == Outbox(s.e)
    requires Packet(s'.e, s'.phase) == if Continuing(s'.phase) then Some(Handling(a)) else None
    ensures Refines(s, s')
  {
    assert s'.trace[|s.trace|..] == [Take(a)];
  }

  // ---------------------------------------------------------------- program: wait_for_recv

  /** The packets behind the oldest completion do not depend on the operation that is dispatched. */
  lemma PopArrivals(e: Engine, e': Engine, lost: multiset<nat>)
    requires Own(e, multiset{}, lost) && e.cq != [] && (e.cq[0].SingleCqe? || IsMulti(e, e.cq[0].op))
    requires SameMemory(e, e') && e'.cq == e.cq[1..] && e'.inflight == e.inflight
    requires forall p: nat | p != e.cq[0].op :: e'.At(p) == e.At(p)
    requires e'.At(e.cq[0].op).fd == e.At(e.cq[0].op).fd
    ensures Arrivals(e', e'.cq) == Arrivals(e, e.cq[1..])
    ensures Outbox(e') == Outbox(e)
  {
    var o, rest := e.cq[0].op, e.cq[1..];
    PoppedOnce(e, lost);
    forall j | 0 <= j < |rest|
      ensures SameArrival(e, e', rest[j])
    {
      assert rest[j] == e.cq[j + 1];
    }
    ArrivalsFrame(e, e', rest);
    PopOutbox(e, e', o);
  }

  /** The operation of the oldest completion is with no request and in no other single-shot completion. */
  lemma PoppedOnce(e: Engine, lost: multiset<nat>)
    requires Own(e, multiset{}, lost) && e.cq != [] && (e.cq[0].SingleCqe? || IsMulti(e, e.cq[0].op))
    ensures e.cq[0].op !in e.inflight
    ensures forall j | 1 <= j < |e.cq| && e.cq[j].SingleCqe? :: e.cq[j].op != e.cq[0].op
  {
    var o := e.cq[0].op;
    Located(e, multiset{}, lost, o);
    CqAtLeast(e.cq, 0);
    forall j | 1 <= j < |e.cq| && e.cq[j].SingleCqe?
      ensures e.cq[j].op != o
    {
      assert e.cq[j] == e.cq[1..][j - 1];
      CqAtLeast(e.cq[1..], j - 1);
    }
  }

  lemma PopOutbox(e: Engine, e': Engine, o: nat)
    requires SameMemory(e, e') && e'.inflight == e.inflight && o !in e.inflight
    requires forall p: nat | p != o :: e'.At(p) == e.At(p)
    ensures Outbox(e') == Outbox(e)
  {
  }

  lemma TakeFailedRefines(s: Sys)
    requires Own(s.e, multiset{}, s.lost) && s.phase.Wait? && s.e.cq != [] && s.e.cq[0].SingleCqe? && s.e.cq[0].res < 0
    ensures Refines(s, TakeNext(s))
  {
    PopArrivals(s.e, TakeNext(s).e, s.lost);
    HaltRefines(s, TakeNext(s));
  }

  lemma TakeDoneRefines(s: Sys)
    requires Own(s.e, multiset{}, s.lost) && s.phase.Wait? && s.e.cq != []
    requires var c := s.e.cq[0]; c.SingleCqe? && c.res >= 0 && !s.e.At(c.op).isMulti
    ensures Refines(s, TakeNext(s))
  {
    var c, s' := s.e.cq[0], TakeNext(s);
    CqAtLeast(s.e.cq, 0);
    Located(s.e, multiset{}, s.lost, c.op);
    TakeSingleGives(s);
    PopArrivals(s.e, s'.e, s.lost);
    if s.e.At(c.op).opType == TunRead {
      TakeRefines(s, s', ArrivalOf(s.e, c));
    } else {
      StutterRefines(s, s');
    }
  }

  lemma TakeSingleRefines(s: Sys)
    requires Inv(s) && s.phase.Wait? && s.e.cq != [] && s.e.cq[0].SingleCqe?
    ensures Refines(s, TakeNext(s))
  {
    assert CqeOk(s.e, s.e.cq[0]);
    if s.e.cq[0].res < 0 {
      TakeFailedRefines(s);
    } else {
      TakeDoneRefines(s);
    }
  }

  lemma TakePlainRefines(s: Sys)
    requires Own(s.e, multiset{}, s.lost) && s.phase.Wait? && s.e.cq != []
    requires var c := s.e.cq[0]; c.MultiCqe? && c.buf.None? && IsMulti(s.e, c.op)
    ensures Refines(s, TakeNext(s))
  {
    var s' := TakeNext(s);
    TakePlainGives(s);
    PopArrivals(s.e, s'.e, s.lost);
    HaltRefines(s, s');
  }

  lemma TakeBufferRefines(s: Sys)
    requires Own(s.e, multiset{}, s.lost) && s.phase.Wait? && s.e.cq != []
    requires var c := s.e.cq[0]; c.MultiCqe? && c.buf.Some? && IsMulti(s.e, c.op) && c.res >= HEADER
    ensures Refines(s, TakeNext(s))
  {
    var s' := TakeNext(s);
    TakeBufferGives(s);
    PopArrivals(s.e, s'.e, s.lost);
    TakeRefines(s, s', ArrivalOf(s.e, s.e.cq[0]));
  }

  lemma TakeMultiRefines(s: Sys)
    requires Inv(s) && s.phase.Wait? && s.e.cq != [] && s.e.cq[0].MultiCqe?
    ensures Refines(s, TakeNext(s))
  {
    var c := s.e.cq[0];
    assert IsMulti(s.e, c.op) && CqeOk(s.e, c);
    if c.buf.None? {
      TakePlainRefines(s);
    } else {
      TakeBufferRefines(s);
    }
  }

  lemma RetireRefines(s: Sys, o: nat)
    requires Own(s.e, multiset{o}, s.lost) && s.phase == Got(o) && s.e.At(o).opType != TunRead
    ensures Refines(s, s.(e := Free(s.e, o).0, phase := Wait))
  {
    assert o in multiset{o};
    QuietFree(s.e, o, multiset{o}, s.lost);
    QuietView(s.e, Free(s.e, o).0);
    StutterRefines(s, s.(e := Free(s.e, o).0, phase := Wait));
  }

  lemma ReplaceQuiet(s: Sys, o: nat, e': Engine, r: Option<nat>)
    requires Inv(s) && s.phase == Got(o) && s.e.At(o).opType == TunRead
    requires (e', r) == AllocBuf(s.e, TunRead, s.e.At(o).fd, false, None)
    ensures Quiet(s.e, e') && e'.At(o) == s.e.At(o)
  {
    assert o in multiset{o};
    AllocNew(s.e, TunRead, s.e.At(o).fd, multiset{o}, s.lost);
    Located(s.e, multiset{o}, s.lost, o);
    var n := if r.None? then |s.e.ops| else r.value;
    QuietUse(s, e', n, n);
  }

  /** A program step that changes no packet and no message. */
  lemma QuietRefines(s: Sys, s': Sys)
    requires Quiet(s.e, s'.e) && s'.peers == s.peers && s'.trace == s.trace
    requires Continuing(s.phase)
    requires Packet(s'.e, s'.phase) == if Continuing(s'.phase) then Packet(s.e, s.phase) else None
    ensures Refines(s, s')
  {
    QuietView(s.e, s'.e);
    if Continuing(s'.phase) {
      StutterRefines(s, s');
    } else {
      HaltRefines(s, s');
    }
  }

  lemma ReplaceShown(s: Sys, o: nat, e': Engine, ph': Phase)
    requires s.phase == Got(o) && s.e.At(o).opType == TunRead && Quiet(s.e, e') && e'.At(o) == s.e.At(o)
    requires ph' == Bail(o, multiset{}) || (ph'.Resub? && ph'.op == o)
    ensures Refines(s, s.(e := e', phase := ph'))
  {
    QuietRefines(s, s.(e := e', phase := ph'));
  }

  lemma ReplaceRefines(s: Sys, o: nat)
    requires Inv(s) && s.phase == Got(o) && s.e.At(o).opType == TunRead
    ensures Refines(s, Dispatch(s, o))
  {
    var (e', r) := AllocBuf(s.e, TunRead, s.e.At(o).fd, false, None);
    ReplaceQuiet(s, o, e', r);
    ReplaceShown(s, o, e', if r.None? then Bail(o, multiset{}) else Resub(o, r.value));
  }

  lemma DispatchRefines(s: Sys)
    requires Inv(s) && s.phase.Got?
    ensures Refines(s, Dispatch(s, s.phase.op))
  {
    if s.e.At(s.phase.op).opType == TunRead {
      ReplaceRefines(s, s.phase.op);
    } else {
      RetireRefines(s, s.phase.op);
    }
  }

  /** Submitting a read or re-arming shows nothing. */
  lemma SubmitView(e: Engine, e': Engine)
    requires e'.ops == e.ops && e'.cq == e.cq && SameMemory(e, e')
    requires forall o | o in e'.inflight && o !in e.inflight :: e.At(o).opType == TunRead
    requires forall o | o in e.inflight :: o in e'.inflight && e'.inflight[o] == e.inflight[o]
    ensures Arrivals(e', e'.cq) == Arrivals(e, e.cq) && Outbox(e') == Outbox(e)
  {
    ArrivalsFrame(e, e', e.cq);
    assert forall o: nat :: e'.At(o) == e.At(o);
  }

  lemma ResubmitRefines(s: Sys, out: Outcome)
    requires s.phase.Resub? && s.e.At(s.phase.next).opType == TunRead && s.phase.next !in s.e.inflight
    ensures Refines(s, Resubmit(s, s.phase.op, s.phase.next, out))
  {
    var s' := Resubmit(s, s.phase.op, s.phase.next, out);
    SubmitView(s.e, s'.e);
    if out == Accepted {
      StutterRefines(s, s');
    } else {
      HaltRefines(s, s');
    }
  }

  lemma ReactivateRefines(s: Sys, out: Outcome)
    requires s.phase.Rearm?
    ensures Refines(s, Reactivate(s, s.phase.op, out))
  {
    var s' := Reactivate(s, s.phase.op, out);
    SubmitView(s.e, s'.e);
    if out == Accepted {
      StutterRefines(s, s');
    } else {
      HaltRefines(s, s');
    }
  }

  lemma BailRefines(s: Sys)
    requires Inv(s) && s.phase.Bail?
    ensures Refines(s, Halt(s, Free(s.e, s.phase.op).0, None, s.phase.leaked))
  {
    var s' := Halt(s, Free(s.e, s.phase.op).0, None, s.phase.leaked);
    QuietFree(s.e, s.phase.op, Hand(s.e, s.phase), s.lost);
    QuietView(s.e, s'.e);
    StutterRefines(s, s');
  }

  // ---------------------------------------------------------------- program: the zero-copy loop

  /** Handing the buffer over does not change the packet. */
  lemma MoveQuiet(s: Sys, o: nat, t: OpType, fd: int)
    requires Inv(s) && s.phase == Back(o)
    ensures var (e', r) := AllocBuf(s.e, t, fd, false, Some(o));
      && Quiet(s.e, e')
      && (r.Some? ==> Carried(e', o, r.value) == Carried(s.e, o, o))
  {
    MoveGives(s.e, o, t, fd, Holding(s.e, o), s.lost);
    var (e', r) := AllocBuf(s.e, t, fd, false, Some(o));
    QuietUse(s, e', if r.None? then |s.e.ops| else r.value, o);
  }

  lemma MoveGives(e: Engine, o: nat, t: OpType, fd: int, hand: multiset<nat>, lost: multiset<nat>)
    requires Own(e, hand, lost) && InUse(e, o) && (Loaded(e.At(o)) || ReadDone(e.At(o)))
    ensures var (e', r) := AllocBuf(e, t, fd, false, Some(o));
      var n := if r.None? then |e.ops| else r.value;
      && SameUse(e, e', n, o) && e'.At(o).fd == e.At(o).fd && !InUse(e, n)
      && e'.cq == e.cq && e'.inflight == e.inflight && SameMemory(e, e')
      && (r.Some? ==> Carried(e', o, n) == Carried(e, o, o))
  {
    AllocMove(e, t, fd, o, hand, lost);
  }

  /** A program step that changes no packet and no message, and may fix the peer. */
  lemma PinRefines(s: Sys, s': Sys)
    requires Quiet(s.e, s'.e) && s'.trace == s.trace && Continuing(s.phase) && Pins(s.mode, Abs(s), s'.peers)
    requires Packet(s'.e, s'.phase) == if Continuing(s'.phase) then Packet(s.e, s.phase) else None
    ensures Refines(s, s')
  {
    QuietView(s.e, s'.e);
    assert s'.trace[|s.trace|..] == [];
  }

  lemma RelayShown(s: Sys, s1: Sys, o: nat, e': Engine, r: Option<nat>)
    requires s.phase == Back(o) && s1 == s.(peers := s1.peers) && Pins(s.mode, Abs(s), s1.peers) && Quiet(s.e, e')
    requires r.Some? ==> Carried(e', o, r.value) == Carried(s.e, o, o)
    ensures Refines(s, s1.(e := e', phase := if r.None? then Done(o, false) else Send(Some(o), r.value)))
  {
    PinRefines(s, s1.(e := e', phase := if r.None? then Done(o, false) else Send(Some(o), r.value)));
  }

  lemma RelayRefines(s: Sys, s1: Sys, o: nat, t: OpType, fd: int)
    requires Inv(s) && s.phase == Back(o) && s1 == s.(peers := s1.peers) && Pins(s.mode, Abs(s), s1.peers)
    ensures Refines(s, Relay(s1, o, t, fd))
  {
    MoveQuiet(s, o, t, fd);
    var (e', r) := AllocBuf(s.e, t, fd, false, Some(o));
    RelayShown(s, s1, o, e', r);
  }

  lemma ZeroHandleRefines(s: Sys, o: nat, plain: bool, coded: Option<Bytes>)
    requires Inv(s) && s.phase == Back(o) && s.mode.Zero?
    ensures Refines(s, Handle(s, o, plain, coded))
  {
    assert ShapeOk(s.e.ops[o]);
    if s.e.At(o).opType == TunRead {
      RelayRefines(s, s, o, UdpSend, s.mode.udpFd);
    } else {
      var s1 := s.(peers := Pin(s.peers, s.mode.udpFd, s.e.At(o).addr));
      assert Abs(s).cur == Some(Handling(Carried(s.e, o, o)));
      RelayRefines(s, s1, o, TunWrite, s.mode.tunFd);
    }
  }

  lemma FinishRefines(s: Sys)
    requires Inv(s) && s.phase.Done?
    ensures Refines(s, Finish(s, s.phase.op, s.phase.ok))
  {
    QuietFree(s.e, s.phase.op, Hand(s.e, s.phase), s.lost);
    FinishShown(s, Finish(s, s.phase.op, s.phase.ok));
  }

  lemma FinishShown(s: Sys, s': Sys)
    requires s.phase.Done? && (s'.e == s.e || Quiet(s.e, s'.e)) && s' == s.(e := s'.e, phase := s'.phase)
    requires if s.phase.ok then s'.phase.Top? else s'.phase.Stopped?
    ensures Refines(s, s')
  {
    if s'.e != s.e {
      QuietView(s.e, s'.e);
    }
    StutterRefines(s, s');
  }
}
