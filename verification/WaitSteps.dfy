/** The steps of wait_for_recv keep the invariant. */
module WaitSteps {
  import opened Base
  import opened Engine
  import opened Machine
  import opened Ownership
  import opened OwnershipSteps
  import opened Invariant
  import opened EngineFrames

  // ---------------------------------------------------------------- taking a completion

  /** A single-shot completion puts its operation into the program's hand. */
  lemma PopSingle(e: Engine, e': Engine, hand: multiset<nat>, lost: multiset<nat>)
    requires Own(e, hand, lost) && e.cq != [] && e.cq[0].SingleCqe?
    requires var c := e.cq[0]; e' == e.(cq := e.cq[1..]).Set(c.op, e.At(c.op).(dataLen := c.res)) || e' == e.(cq := e.cq[1..])
    ensures Own(e', hand + multiset{e.cq[0].op}, lost)
  {
    var o := e.cq[0].op;
    CqAtLeast(e.cq, 0);
    Located(e, hand, lost, o);
    var hand' := hand + multiset{o};
    forall x: nat
      ensures PoolPlaces(e', x) == PoolPlaces(e, x)
      ensures RingPlaces(e', x) == RingPlaces(e, x)
      ensures OpPlaces(e', hand', x) == OpPlaces(e, hand, x)
    {
      Replaced(e, e', o, x);
    }
  }

  /** A multishot completion without a buffer changes no owner. */
  lemma PopPlain(e: Engine, e': Engine, hand: multiset<nat>, lost: multiset<nat>)
    requires Own(e, hand, lost) && e.cq != [] && e.cq[0].MultiCqe? && e.cq[0].buf == None
    requires var c := e.cq[0];
      e' == e.(cq := e.cq[1..]) || (IsMulti(e, c.op) && e' == e.(cq := e.cq[1..]).Set(c.op, e.At(c.op).(dataLen := c.res)))
    ensures Own(e', hand, lost)
  {
    forall x: nat
      ensures PoolPlaces(e', x) == PoolPlaces(e, x)
      ensures RingPlaces(e', x) == RingPlaces(e, x)
      ensures OpPlaces(e', hand, x) == OpPlaces(e, hand, x)
    {
      if e'.ops != e.ops {
        Replaced(e, e', e.cq[0].op, x);
      }
    }
  }

  /** The index of a completion replaces the one its operation held; a held one is lost. */
  lemma PopBuffer(e: Engine, e': Engine, hand: multiset<nat>, lost: multiset<nat>)
    requires Own(e, hand, lost) && e.cq != [] && e.cq[0].MultiCqe? && e.cq[0].buf.Some? && IsMulti(e, e.cq[0].op)
    requires var o := e.cq[0].op;
      && e' == e.(cq := e.cq[1..]).Set(o, e'.At(o))
      && e'.At(o).isMulti && e'.At(o).bufIdx == e.cq[0].buf.value && e'.At(o).bufAddr == None && e'.At(o).opType == UdpRecv
    ensures var old' := e.At(e.cq[0].op).bufIdx;
      Own(e', hand, if old' >= 0 then lost + multiset{old' as nat} else lost)
  {
    var o := e.cq[0].op;
    assert ShapeOk(e.ops[o]);
    var was := e.At(o).bufIdx;
    var lost' := if was >= 0 then lost + multiset{was as nat} else lost;
    forall x: nat
      ensures PoolPlaces(e', x) == PoolPlaces(e, x)
      ensures RingPlaces(e', x) + lost'[x] == RingPlaces(e, x) + lost[x]
      ensures OpPlaces(e', hand, x) == OpPlaces(e, hand, x)
    {
      Replaced(e, e', o, x);
    }
  }

  /** Requests and completions still agree after the oldest completion was taken. */
  lemma PopSingles(e: Engine, e': Engine, o: nat, hand: multiset<nat>, lost: multiset<nat>)
    requires Own(e, hand, lost) && Singles(e) && e.cq != [] && o == e.cq[0].op
    requires e'.cq == e.cq[1..] && e'.inflight == e.inflight && |e'.ops| == |e.ops|
    requires forall p: nat | p != o :: e'.At(p) == e.At(p)
    requires e.cq[0].SingleCqe? || IsMulti(e, o) || e'.ops == e.ops
    ensures Singles(e')
  {
    CqAtLeast(e.cq, 0);
    Located(e, hand, lost, o);
    forall j | 0 <= j < |e'.cq|
      ensures CqeOk(e', e'.cq[j])
    {
      assert e'.cq[j] == e.cq[j + 1] && CqeOk(e, e.cq[j + 1]);
      if e.cq[j + 1].SingleCqe? {
        CqAtLeast(e.cq[1..], j);
      }
    }
  }

  /** Taking a single-shot completion does not concern multishot requests. */
  lemma PopMultiLaw(e: Engine, e': Engine, o: nat, ph': Phase, udp: map<int, nat>)
    requires MultiLaw(e, Wait, udp) && e.cq != []
    requires e'.cq == e.cq[1..] && e'.armed == e.armed && e'.freeOps == e.freeOps && |e'.ops| == |e.ops|
    requires forall p: nat :: e'.At(p).isMulti == e.At(p).isMulti && e'.At(p).fd == e.At(p).fd
    requires if e.cq[0].MultiCqe? && !e.cq[0].more then ph' == Rearm(e.cq[0].op) else !ph'.Rearm?
    ensures MultiLaw(e', ph', udp)
  {
    forall p: nat
      ensures IsMulti(e', p) <==> IsMulti(e, p)
    {
      assert e'.At(p).isMulti == e.At(p).isMulti;
    }
    forall p: nat
      ensures Activity(e', ph', p) == Activity(e, Wait, p)
    {
    }
    forall j | 0 <= j < |e'.cq| && e'.cq[j].MultiCqe?
      ensures IsMulti(e', e'.cq[j].op)
    {
      assert e'.cq[j] == e.cq[j + 1];
    }
  }

  /** The shape of a successful turn on a single-shot completion. */
  lemma TakeSingleGives(s: Sys)
    requires s.e.cq != [] && s.e.cq[0].SingleCqe? && s.e.cq[0].res >= 0 && !s.e.At(s.e.cq[0].op).isMulti
    ensures var c, s' := s.e.cq[0], TakeNext(s);
      s' == s.(phase := Got(c.op), trace := s'.trace, e := s.e.(cq := s.e.cq[1..]).Set(c.op, s.e.At(c.op).(dataLen := c.res)))
  {
  }

  lemma TakeSingleKeeps(s: Sys)
    requires Inv(s) && s.phase.Wait? && s.e.cq != [] && s.e.cq[0].SingleCqe?
    ensures Inv(TakeNext(s))
  {
    var c := s.e.cq[0];
    CqAtLeast(s.e.cq, 0);
    Located(s.e, multiset{}, s.lost, c.op);
    assert CqeOk(s.e, c);
    if c.res < 0 {
      TakeFailedGives(s);
      FailedInv(s, TakeNext(s), c);
    } else {
      TakeSingleGives(s);
      GotInv(s, TakeNext(s), c);
    }
  }

  /** The shape of a turn on a single-shot completion that reports an error. */
  lemma TakeFailedGives(s: Sys)
    requires s.e.cq != [] && s.e.cq[0].SingleCqe? && s.e.cq[0].res < 0
    ensures var s' := TakeNext(s);
      s' == s.(phase := Stopped(None, multiset{s.e.cq[0].op}), e := s.e.(cq := s.e.cq[1..]))
  {
  }

  lemma FailedInv(s: Sys, s': Sys, c: Cqe)
    requires Inv(s) && s.phase.Wait? && s.e.cq != [] && c == s.e.cq[0] && c.SingleCqe?
    requires s' == s.(phase := Stopped(None, multiset{c.op}), e := s.e.(cq := s.e.cq[1..]))
    ensures Inv(s')
  {
    PopSingle(s.e, s'.e, multiset{}, s.lost);
    assert multiset{} + multiset{c.op} == multiset{c.op};
    PopSingles(s.e, s'.e, c.op, multiset{}, s.lost);
  }

  lemma GotInv(s: Sys, s': Sys, c: Cqe)
    requires Inv(s) && s.phase.Wait? && s.e.cq != [] && c == s.e.cq[0] && c.SingleCqe? && c.res >= 0
    requires InUse(s.e, c.op) && CqeOk(s.e, c)
    requires s' == s.(phase := Got(c.op), trace := s'.trace, e := s.e.(cq := s.e.cq[1..]).Set(c.op, s.e.At(c.op).(dataLen := c.res)))
    ensures Inv(s')
  {
    GotProgram(s.e, s'.e, c, s.lost, s.still, s.tunReads);
    GotRest(s.e, s'.e, c, s.lost, s.udp);
  }

  lemma GotRest(e: Engine, e': Engine, c: Cqe, lost: multiset<nat>, udp: map<int, nat>)
    requires Own(e, multiset{}, lost) && Singles(e) && MultiLaw(e, Wait, udp)
    requires e.cq != [] && c == e.cq[0] && c.SingleCqe? && InUse(e, c.op)
    requires e' == e.(cq := e.cq[1..]).Set(c.op, e.At(c.op).(dataLen := c.res))
    ensures Singles(e') && MultiLaw(e', Got(c.op), udp)
  {
    PopSingles(e, e', c.op, multiset{}, lost);
    PopMultiLaw(e, e', c.op, Got(c.op), udp);
  }

  lemma GotProgram(e: Engine, e': Engine, c: Cqe, lost: multiset<nat>, still: map<nat, nat>, k: nat)
    requires Program(e, Wait, lost, still, k) && e.cq != [] && c == e.cq[0] && c.SingleCqe? && c.res >= 0
    requires InUse(e, c.op) && CqeOk(e, c)
    requires e' == e.(cq := e.cq[1..]).Set(c.op, e.At(c.op).(dataLen := c.res))
    ensures Program(e', Got(c.op), lost, still, k)
  {
    PopSingle(e, e', multiset{}, lost);
    assert multiset{} + multiset{c.op} == multiset{c.op};
    TakeSingleReads(e, e', c.op, k);
    IdleFrame(e, e', Wait, Got(c.op), c.op, c.op, still);
  }

  lemma TakeSingleReads(e: Engine, e': Engine, o: nat, n: nat)
    requires ReadsLaw(e, Wait, n) && InUse(e, o) && !e.At(o).isMulti
    requires e'.freeOps == e.freeOps && e'.ops == e.ops[o := e.At(o).(dataLen := e'.At(o).dataLen)]
    ensures ReadsLaw(e', Got(o), n)
  {
    var before, after := Outstanding(e, multiset{}), Outstanding(e', multiset{o});
    assert after == before - {o};
  }

  /** The shape of a turn on a multishot completion `c` that selected a buffer. */
  ghost predicate TakesBuffer(s: Sys, s': Sys, c: Cqe)
    requires c.MultiCqe? && c.buf.Some?
  {
    var op, op' := s.e.At(c.op), s'.e.At(c.op);
    && s.e.cq != [] && c == s.e.cq[0]
    && s'.e == s.e.(cq := s.e.cq[1..]).Set(c.op, op')
    && op' == op.(bufIdx := c.buf.value, dataLen := op'.dataLen, addr := op'.addr, buffer := op'.buffer)
    && s'.lost == (if op.bufIdx >= 0 then s.lost + multiset{op.bufIdx as nat} else s.lost)
    && s'.still == (if op.bufIdx >= 0 then s.still - {c.op} else s.still)
    && s' == s.(phase := s'.phase, trace := s'.trace, e := s'.e, lost := s'.lost, still := s'.still)
    && (s'.phase == Bail(c.op, multiset{}) || s'.phase == if c.more then Back(c.op) else Rearm(c.op))
    && (!s'.phase.Bail? ==> op'.buffer == RingBuffer(c.buf.value) && op'.dataLen == c.res - HEADER != 0
                            && op'.addr == s.e.SlotAt(c.buf.value).name != [])
  }

  lemma TakeBufferGives(s: Sys)
    requires s.e.cq != [] && s.e.cq[0].MultiCqe? && s.e.cq[0].buf.Some? && s.e.cq[0].res >= HEADER
    requires IsMulti(s.e, s.e.cq[0].op)
    ensures TakesBuffer(s, TakeNext(s), s.e.cq[0])
  {
  }

  lemma TakePlainGives(s: Sys)
    requires s.e.cq != [] && s.e.cq[0].MultiCqe? && s.e.cq[0].buf.None? && IsMulti(s.e, s.e.cq[0].op)
    ensures TakesPlain(s, TakeNext(s), s.e.cq[0])
  {
  }

  /** The shape of a turn on a multishot completion `c` without a buffer. */
  ghost predicate TakesPlain(s: Sys, s': Sys, c: Cqe) {
    && s.e.cq != [] && c == s.e.cq[0]
    && s'.e == s.e.(cq := s.e.cq[1..]).Set(c.op, s.e.At(c.op).(dataLen := s'.e.At(c.op).dataLen))
    && s' == s.(phase := s'.phase, e := s'.e)
    && (s'.e == s.e.(cq := s.e.cq[1..]) || s'.e.At(c.op).dataLen == c.res)
    && (s'.phase == Bail(c.op, multiset{}) || s'.phase == Stopped(None, multiset{}))
  }

  lemma TakeMultiKeeps(s: Sys)
    requires Inv(s) && s.phase.Wait? && s.e.cq != [] && s.e.cq[0].MultiCqe?
    ensures Inv(TakeNext(s))
  {
    var c := s.e.cq[0];
    assert IsMulti(s.e, c.op) && CqeOk(s.e, c);
    if c.buf.None? {
      TakePlainGives(s);
      PlainInv(s, TakeNext(s), c);
    } else {
      TakeBufferGives(s);
      LoadedInv(s, TakeNext(s), c);
    }
  }

  lemma PlainInv(s: Sys, s': Sys, c: Cqe)
    requires Inv(s) && s.phase.Wait? && c.MultiCqe? && c.buf.None? && TakesPlain(s, s', c) && IsMulti(s.e, c.op)
    ensures Inv(s')
  {
    PopPlain(s.e, s'.e, multiset{}, s.lost);
    PopSingles(s.e, s'.e, c.op, multiset{}, s.lost);
    assert Hand(s'.e, s'.phase) == multiset{};
  }

  lemma LoadedOwn(s: Sys, s': Sys, c: Cqe)
    requires Own(s.e, multiset{}, s.lost) && Singles(s.e)
    requires c.MultiCqe? && c.buf.Some? && TakesBuffer(s, s', c) && IsMulti(s.e, c.op)
    ensures Own(s'.e, multiset{}, s'.lost) && Singles(s'.e) && Hand(s'.e, s'.phase) == multiset{}
  {
    assert ShapeOk(s.e.ops[c.op]);
    PopBuffer(s.e, s'.e, multiset{}, s.lost);
    PopSingles(s.e, s'.e, c.op, multiset{}, s.lost);
  }

  /** A buffer that is lost stops being one that is still held. */
  lemma LoadedCount(e: Engine, o: nat, still: map<nat, nat>, lost: multiset<nat>)
    requires Idle(e, Wait, still) && IsMulti(e, o) && e.At(o).bufIdx >= 0
    ensures |lost + multiset{e.At(o).bufIdx as nat}| + |still - {o}| == |lost| + |still|
  {
    assert o in still;
    assert still.Keys == (still - {o}).Keys + {o};
  }

  lemma LoadedIdle(e: Engine, e': Engine, o: nat, ph': Phase, still: map<nat, nat>)
    requires Idle(e, Wait, still) && IsMulti(e, o) && e'.freeOps == e.freeOps
    requires e'.ops == e.ops[o := e'.At(o)] && e'.At(o).isMulti && Current(ph') == Some(o)
    ensures Idle(e', ph', if e.At(o).bufIdx >= 0 then still - {o} else still)
  {
    assert forall p: nat :: IsMulti(e', p) <==> IsMulti(e, p);
  }

  lemma LoadedProgram(s: Sys, s': Sys, c: Cqe)
    requires Program(s.e, Wait, s.lost, s.still, s.tunReads) && Singles(s.e)
    requires c.MultiCqe? && c.buf.Some? && TakesBuffer(s, s', c) && IsMulti(s.e, c.op) && CqeOk(s.e, c)
    ensures Program(s'.e, s'.phase, s'.lost, s'.still, s.tunReads) && Singles(s'.e)
  {
    LoadedOwn(s, s', c);
    if !s'.phase.Bail? {
      LoadedIdle(s.e, s'.e, c.op, s'.phase, s.still);
      assert Outstanding(s'.e, multiset{}) == Outstanding(s.e, multiset{});
    }
  }

  lemma LoadedInv(s: Sys, s': Sys, c: Cqe)
    requires Inv(s) && s.phase.Wait? && c.MultiCqe? && c.buf.Some? && TakesBuffer(s, s', c)
    requires IsMulti(s.e, c.op) && CqeOk(s.e, c)
    ensures Inv(s')
  {
    LoadedProgram(s, s', c);
    LoadedRest(s, s', c);
  }

  lemma LoadedRest(s: Sys, s': Sys, c: Cqe)
    requires Idle(s.e, Wait, s.still) && MultiLaw(s.e, Wait, s.udp) && s.e.stale == []
    requires |s.lost| + |s.still| == s.drops
    requires c.MultiCqe? && c.buf.Some? && TakesBuffer(s, s', c) && IsMulti(s.e, c.op) && CqeOk(s.e, c)
    ensures |s'.lost| + |s'.still| == s'.drops
    ensures Continuing(s'.phase) ==> MultiLaw(s'.e, s'.phase, s'.udp) && s'.e.stale == []
  {
    if s.e.At(c.op).bufIdx >= 0 {
      LoadedCount(s.e, c.op, s.still, s.lost);
    }
    if !s'.phase.Bail? {
      PopMultiLaw(s.e, s'.e, c.op, s'.phase, s.udp);
    }
  }

  // ---------------------------------------------------------------- dispatching it

  lemma DispatchKeeps(s: Sys)
    requires Inv(s) && s.phase.Got?
    ensures Inv(Dispatch(s, s.phase.op))
  {
    var o := s.phase.op;
    var op := s.e.At(o);
    assert o in multiset{o};
    Located(s.e, multiset{o}, s.lost, o);
    if op.opType == UdpSend || op.opType == TunWrite {
      RetireKeeps(s, o);
    } else {
      AllocNew(s.e, op.opType, op.fd, multiset{o}, s.lost);
      ReplaceKeeps(s, o);
    }
  }

  /** A finished send or write gives its operation and its buffer back. */
  lemma RetireKeeps(s: Sys, o: nat)
    requires Inv(s) && s.phase == Got(o) && InUse(s.e, o) && s.e.At(o).opType != TunRead
    ensures Inv(s.(e := Free(s.e, o).0, phase := Wait))
  {
    FreeFrame(s.e, o);
    RetireProgram(s.e, o, s.lost, s.still, s.tunReads);
    LocalInv(s, s.(e := Free(s.e, o).0, phase := Wait), o, o);
  }

  lemma RetireProgram(e: Engine, o: nat, lost: multiset<nat>, still: map<nat, nat>, k: nat)
    requires Program(e, Got(o), lost, still, k) && InUse(e, o) && e.At(o).opType != TunRead
    ensures Program(Free(e, o).0, Wait, lost, still, k)
  {
    var e' := Free(e, o).0;
    FreeKeeps(e, o, multiset{o}, lost);
    FreeFrame(e, o);
    assert multiset{o} - multiset{o} == multiset{};
    OutstandingFrame(e, e', o, o, multiset{o}, multiset{});
    IdleFrame(e, e', Got(o), Wait, o, o, still);
  }

  /** A completed read gets a successor with a buffer of its own. */
  lemma ReplaceKeeps(s: Sys, o: nat)
    requires Inv(s) && s.phase == Got(o) && InUse(s.e, o) && s.e.At(o).opType == TunRead
    ensures Inv(Dispatch(s, o))
  {
    var op := s.e.At(o);
    AllocNew(s.e, op.opType, op.fd, multiset{o}, s.lost);
    ReplaceProgram(s.e, o, s.lost, s.still, s.tunReads);
    var r := AllocBuf(s.e, op.opType, op.fd, false, None).1;
    var n := if r.None? then |s.e.ops| else r.value;
    LocalInv(s, Dispatch(s, o), n, n);
  }

  lemma ReplaceProgram(e: Engine, o: nat, lost: multiset<nat>, still: map<nat, nat>, k: nat)
    requires Program(e, Got(o), lost, still, k) && InUse(e, o) && e.At(o).opType == TunRead
    ensures var (e', r) := AllocBuf(e, TunRead, e.At(o).fd, false, None);
      Program(e', if r.None? then Bail(o, multiset{}) else Resub(o, r.value), lost, still, k)
  {
    AllocNew(e, TunRead, e.At(o).fd, multiset{o}, lost);
    var (e', r) := AllocBuf(e, TunRead, e.At(o).fd, false, None);
    if r.None? {
      assert Hand(e', Bail(o, multiset{})) == multiset{o};
    } else {
      var n := r.value;
      assert multiset{o} + multiset{n} == multiset{o, n};
      OutstandingFrame(e, e', n, n, multiset{o}, multiset{o, n});
      IdleFrame(e, e', Got(o), Resub(o, n), n, n, still);
    }
  }

  /** The kernel accepts the request of operation `n`, which was in hand. */
  lemma AcceptInv(s: Sys, s': Sys, n: nat, r: Sqe)
    requires Inv(s) && Continuing(s.phase) && !s.phase.Rearm? && !s'.phase.Rearm?
    requires s' == s.(e := s.e.(inflight := s.e.inflight[n := r]), phase := s'.phase, trace := s'.trace)
    requires SqeOk(s.e.At(n), r) && Program(s'.e, s'.phase, s.lost, s.still, s.tunReads)
    ensures Inv(s')
  {
    AcceptSingles(s.e, s'.e, n, r);
    MultiFrame(s.e, s'.e, s.phase, s'.phase, s.udp);
  }

  lemma AcceptSingles(e: Engine, e': Engine, n: nat, r: Sqe)
    requires Singles(e) && e' == e.(inflight := e.inflight[n := r]) && SqeOk(e.At(n), r)
    ensures Singles(e')
  {
    assert forall o: nat :: e'.At(o) == e.At(o);
    forall j | 0 <= j < |e'.cq|
      ensures CqeOk(e', e'.cq[j])
    {
      assert CqeOk(e, e.cq[j]);
    }
  }

  lemma ResubmitKeeps(s: Sys, out: Outcome)
    requires Inv(s) && s.phase.Resub?
    ensures Inv(Resubmit(s, s.phase.op, s.phase.next, out))
  {
    var o, n := s.phase.op, s.phase.next;
    assert o in multiset{o, n} && n in multiset{o, n};
    Located(s.e, multiset{o, n}, s.lost, o);
    Located(s.e, multiset{o, n}, s.lost, n);
    if out == Accepted {
      ReplacedKeeps(s, o, n);
    } else {
      LeakKeeps(s, o, n, out);
    }
  }

  lemma ReplacedKeeps(s: Sys, o: nat, n: nat)
    requires Inv(s) && s.phase == Resub(o, n) && InUse(s.e, n) && InUse(s.e, o) && o != n
    ensures Inv(Resubmit(s, o, n, Accepted))
  {
    var r := Sqe(s.e.At(n).fd, s.e.At(n).buffer, BUF_SIZE, []);
    ReplacedProgram(s.e, o, n, r, s.lost, s.still, s.tunReads);
    AcceptInv(s, Resubmit(s, o, n, Accepted), n, r);
  }

  lemma ReplacedProgram(e: Engine, o: nat, n: nat, r: Sqe, lost: multiset<nat>, still: map<nat, nat>, k: nat)
    requires Program(e, Resub(o, n), lost, still, k) && InUse(e, o) && InUse(e, n) && o != n
    ensures Program(e.(inflight := e.inflight[n := r]), Back(o), lost, still, k)
  {
    var e' := e.(inflight := e.inflight[n := r]);
    PostKeeps(e, n, r, Accepted, multiset{o, n}, lost);
    assert Hand(e', Back(o)) == multiset{o} == multiset{o, n} - multiset{n};
    assert Outstanding(e', multiset{o}) == Outstanding(e, multiset{o, n}) + {n};
    IdleFrame(e, e', Resub(o, n), Back(o), |e.ops|, |e.ops|, still);
  }

  lemma LeakProgram(e: Engine, e': Engine, o: nat, n: nat, lost: multiset<nat>, still: map<nat, nat>, k: nat)
    requires Program(e, Resub(o, n), lost, still, k) && InUse(e, o) && e' == e.(stale := e'.stale)
    ensures Program(e', Bail(o, multiset{n}), lost, still, k)
  {
    SameCounts(e, e', multiset{o, n}, lost);
    assert Hand(e', Bail(o, multiset{n})) == multiset{o} + multiset{n} == multiset{o, n};
  }

  /** A read that could not be submitted stays behind; wait_for_recv then fails. */
  lemma LeakKeeps(s: Sys, o: nat, n: nat, out: Outcome)
    requires Inv(s) && s.phase == Resub(o, n) && InUse(s.e, o) && out != Accepted
    ensures Inv(Resubmit(s, o, n, out))
  {
    var s' := Resubmit(s, o, n, out);
    LeakProgram(s.e, s'.e, o, n, s.lost, s.still, s.tunReads);
    LocalInv(s, s', |s.e.ops|, |s.e.ops|);
  }

  lemma ReactivateKeeps(s: Sys, out: Outcome)
    requires Inv(s) && s.phase.Rearm?
    ensures Inv(Reactivate(s, s.phase.op, out))
  {
    var o := s.phase.op;
    var s' := Reactivate(s, o, out);
    ArmKeeps(s.e, o, out, multiset{}, s.lost);
    assert Hand(s'.e, s'.phase) == multiset{};
    if out == Accepted {
      ArmedMultiLaw(s.e, s'.e, o, s.udp);
      SameOpsLaws(s.e, s'.e, s.phase, s'.phase, s.still, s.tunReads);
      AgreeSame(s.e, s'.e);
    } else {
      LocalInv(s, s', |s.e.ops|, |s.e.ops|);
    }
  }

  lemma AgreeSame(e: Engine, e': Engine)
    requires Singles(e) && e'.ops == e.ops && e'.cq == e.cq && e'.inflight == e.inflight
    ensures Singles(e')
  {
    forall j | 0 <= j < |e'.cq|
      ensures CqeOk(e', e'.cq[j])
    {
      assert CqeOk(e, e.cq[j]);
    }
  }

  lemma ArmedMultiLaw(e: Engine, e': Engine, o: nat, udp: map<int, nat>)
    requires MultiLaw(e, Rearm(o), udp) && e' == e.(armed := e.armed + {o})
    ensures MultiLaw(e', Back(o), udp)
  {
    forall p: nat
      ensures Activity(e', Back(o), p) == Activity(e, Rearm(o), p)
      ensures IsMulti(e', p) <==> IsMulti(e, p)
    {
      assert Activity(e, Rearm(o), p) <= 1;
    }
  }

  /** Between phases that work on the same operation, idle operations and outstanding reads are the same. */
  lemma SameOpsLaws(e: Engine, e': Engine, ph: Phase, ph': Phase, still: map<nat, nat>, n: nat)
    requires e'.ops == e.ops && e'.freeOps == e.freeOps
    requires Idle(e, ph, still) && ReadsLaw(e, ph, n)
    requires Current(ph') == Current(ph) && Hand(e', ph') == Hand(e, ph) && Owed(e', ph') == Owed(e, ph)
    requires ph'.Back? ==> e'.At(ph'.op).isMulti
    ensures Idle(e', ph', still) && ReadsLaw(e', ph', n)
  {
    assert forall o: nat :: IsMulti(e', o) == IsMulti(e, o) && e'.At(o) == e.At(o);
    assert Outstanding(e', Hand(e, ph)) == Outstanding(e, Hand(e, ph));
  }

  lemma BailProgram(e: Engine, o: nat, leaked: multiset<nat>, lost: multiset<nat>, still: map<nat, nat>, k: nat)
    requires Program(e, Bail(o, leaked), lost, still, k)
    ensures Program(Free(e, o).0, Stopped(None, leaked), lost, still, k)
  {
    var hand := Hand(e, Bail(o, leaked));
    Located(e, hand, lost, o);
    FreeKeeps(e, o, hand, lost);
    assert hand - multiset{o} == leaked;
  }

  lemma BailKeeps(s: Sys)
    requires Inv(s) && s.phase.Bail?
    ensures Inv(Halt(s, Free(s.e, s.phase.op).0, None, s.phase.leaked))
  {
    var o := s.phase.op;
    FreeFrame(s.e, o);
    BailProgram(s.e, o, s.phase.leaked, s.lost, s.still, s.tunReads);
    LocalInv(s, Halt(s, Free(s.e, o).0, None, s.phase.leaked), o, o);
  }
}
