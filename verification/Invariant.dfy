/** The invariant of every run, at every point of the program and under every kernel schedule. */
module Invariant {
  import opened Base
  import opened Engine
  import opened Machine
  import opened Ownership

  /** Single-shot operations the program is working on. */
  ghost function Hand(e: Engine, ph: Phase): multiset<nat> {
    match ph
    case Top(_) => multiset{}
    case Wait => multiset{}
    case Got(o) => multiset{o}
    case Resub(o, n) => multiset{o, n}
    case Rearm(_) => multiset{}
    case Back(o) => Holding(e, o)
    case Send(r, n) => (if r.Some? then Holding(e, r.value) else multiset{}) + multiset{n}
    case Done(o, _) => Holding(e, o)
    case Bail(o, leaked) => Holding(e, o) + leaked
    case Stopped(_, held) => held
  }

  /** The operation whose packet the program is working on. */
  ghost function Current(ph: Phase): Option<nat> {
    match ph
    case Rearm(o) => Some(o)
    case Back(o) => Some(o)
    case Send(r, _) => r
    case Done(o, _) => Some(o)
    case _ => None
  }

  /** The program has not decided to leave its loop. */
  ghost predicate Continuing(ph: Phase) {
    !ph.Stopped? && !ph.Bail? && (ph.Done? ==> ph.ok)
  }

  /** An operation that can be with the kernel: it owns its memory. */
  ghost predicate Ready(op: Op) {
    && !op.isMulti && op.opType != UdpRecv
    && (op.bufAddr.Some? || op.bufIdx >= 0)
    && (op.opType == TunRead ==> op.bufAddr.Some?)
  }

  ghost predicate CqeOk(e: Engine, c: Cqe) {
    if c.SingleCqe? then Ready(e.At(c.op)) && (e.At(c.op).opType == TunRead ==> c.res <= BUF_SIZE)
    else c.buf.Some? ==> HEADER <= c.res <= BUF_SIZE
  }

  ghost predicate SqeOk(op: Op, r: Sqe) {
    Ready(op) && r.loc == op.buffer && (op.opType != TunRead ==> 0 < r.len == op.dataLen <= BUF_SIZE)
  }

  /** Requests and completions agree with the operations they name. */
  ghost predicate Singles(e: Engine) {
    && (forall o | o in e.inflight :: SqeOk(e.At(o), e.inflight[o]))
    && (forall j | 0 <= j < |e.cq| :: CqeOk(e, e.cq[j]))
  }

  /** Number of unseen completions that end the multishot request of `o`. */
  ghost function Finals(cq: seq<Cqe>, o: nat): nat {
    if cq == [] then 0
    else (if cq[0].MultiCqe? && cq[0].op == o && !cq[0].more then 1 else 0) + Finals(cq[1..], o)
  }

  lemma {:induction false} FinalsAppend(cq: seq<Cqe>, c: Cqe, o: nat)
    ensures Finals(cq + [c], o) == Finals(cq, o) + if c.MultiCqe? && c.op == o && !c.more then 1 else 0
  {
    if cq == [] {
      assert cq + [c] == [c];
    } else {
      assert (cq + [c])[1..] == cq[1..] + [c];
      FinalsAppend(cq[1..], c, o);
    }
  }

  /** The multishot request of `o` is active, has ended unseen, or is being submitted again. */
  ghost function Activity(e: Engine, ph: Phase, o: nat): nat {
    (if o in e.armed then 1 else 0) + Finals(e.cq, o) + (if ph == Rearm(o) then 1 else 0)
  }

  ghost predicate MultiLaw(e: Engine, ph: Phase, udp: map<int, nat>) {
    && (forall o: nat :: Activity(e, ph, o) == if IsMulti(e, o) then 1 else 0)
    && (forall j | 0 <= j < |e.cq| && e.cq[j].MultiCqe? :: IsMulti(e, e.cq[j].op))
    && (forall fd | fd in udp :: IsMulti(e, udp[fd]) && e.At(udp[fd]).fd == fd)
    && (forall o: nat | IsMulti(e, o) :: e.At(o).fd in udp && udp[e.At(o).fd] == o)
  }

  /** A multishot operation the program is not working on owns a buffer only after a dropped datagram. */
  ghost predicate Idle(e: Engine, ph: Phase, still: map<nat, nat>) {
    && (forall o | o in still :: IsMulti(e, o))
    && (forall o: nat | IsMulti(e, o) ::
          if Current(ph) == Some(o) then o !in still
          else if o in still then e.At(o).bufIdx == still[o] else e.At(o).bufIdx < 0)
  }

  /** TUN reads that are with the kernel or completed and unseen. */
  ghost function Outstanding(e: Engine, hand: multiset<nat>): set<nat> {
    set o: nat | o < |e.ops| && o !in e.freeOps && !e.ops[o].isMulti && e.ops[o].opType == TunRead && o !in hand
  }

  /** 1 while a completed TUN read has not been replaced. */
  ghost function Owed(e: Engine, ph: Phase): nat {
    if ph.Resub? || (ph.Got? && e.At(ph.op).opType == TunRead) then 1 else 0
  }

  ghost predicate ReadsLaw(e: Engine, ph: Phase, tunReads: nat) {
    && |Outstanding(e, Hand(e, ph))| + Owed(e, ph) == tunReads
    && (ph.Back? && !e.At(ph.op).isMulti ==> tunReads > 0)
  }

  /** A multishot operation holding a decoded datagram. */
  ghost predicate Loaded(op: Op) {
    op.isMulti && op.bufIdx >= 0 && op.buffer == RingBuffer(op.bufIdx)
    && 0 < op.dataLen <= BUF_SIZE - HEADER && op.addr != []
  }

  /** A completed TUN read holding its packet. */
  ghost predicate ReadDone(op: Op) {
    !op.isMulti && op.opType == TunRead && op.bufAddr.Some? && 0 <= op.dataLen <= BUF_SIZE
  }

  ghost predicate InUse(e: Engine, o: nat) {
    o < |e.ops| && o !in e.freeOps
  }

  /** io_op_free will not take `o` for a multishot operation that was never used. */
  ghost predicate Releasable(e: Engine, o: nat) {
    InUse(e, o) && (e.At(o).isMulti ==> e.At(o).bufIdx != -1)
  }

  ghost predicate PhaseOk(e: Engine, ph: Phase) {
    match ph
    case Top(last) => last.Some? ==> IsMulti(e, last.value)
    case Wait => true
    case Got(o) => Ready(e.At(o)) && (e.At(o).opType == TunRead ==> ReadDone(e.At(o)))
    case Resub(o, n) => ReadDone(e.At(o)) && Ready(e.At(n)) && e.At(n).opType == TunRead
    case Rearm(o) => InUse(e, o) && Loaded(e.At(o))
    case Back(o) => InUse(e, o) && (Loaded(e.At(o)) || ReadDone(e.At(o)))
    case Send(r, n) => Ready(e.At(n)) && e.At(n).opType != TunRead && (r.Some? ==> Releasable(e, r.value))
    case Done(o, _) => Releasable(e, o)
    case Bail(o, _) => InUse(e, o)
    case Stopped(last, _) => last.Some? ==> IsMulti(e, last.value)
  }

  /** What holds of the program's own data in phase `ph`. */
  ghost predicate Program(e: Engine, ph: Phase, lost: multiset<nat>, still: map<nat, nat>, tunReads: nat) {
    && Own(e, Hand(e, ph), lost)
    && PhaseOk(e, ph)
    && (Continuing(ph) ==> Idle(e, ph, still) && ReadsLaw(e, ph, tunReads))
  }

  ghost predicate Inv(s: Sys) {
    && Program(s.e, s.phase, s.lost, s.still, s.tunReads)
    && Singles(s.e)
    && |s.lost| + |s.still| == s.drops
    && (Continuing(s.phase) ==> MultiLaw(s.e, s.phase, s.udp) && s.e.stale == [])
  }
}
