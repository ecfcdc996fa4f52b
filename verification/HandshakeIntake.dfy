/**
  What the handshake driver makes of the datagrams that reach the engine: it handles each one that
  wait_for_recv picks up, in order, and drops exactly those of other sockets.
 */
module HandshakeIntake {
  import opened Base
  import opened Engine
  import opened Machine
  import opened Ownership
  import opened Invariant
  import opened InvariantSteps
  import opened CopyRelay
  import opened CopySteps
  import opened RelaySteps
  import opened Ledger
  import opened Integrity
  import opened Progress
  import opened HandshakeLedger
  import C = Connection

  // ---------------------------------------------------------------- what is handled

  /** The packets that came on other sockets than `fd`. */
  ghost function Foreign(fd: int, packets: seq<Arrival>): nat {
    if packets == [] then 0
    else Foreign(fd, packets[..|packets| - 1]) + if packets[|packets| - 1].fd != fd then 1 else 0
  }

  lemma ForeignMore(fd: int, packets: seq<Arrival>, a: Arrival)
    ensures Foreign(fd, packets + [a]) == Foreign(fd, packets) + if a.fd != fd then 1 else 0
  {
    assert (packets + [a])[..|packets|] == packets;
  }

  /** The packet being worked on. */
  ghost function Open(c: Copier): seq<Arrival> {
    if c.cur.Some? && c.cur.value.Handling? then [c.cur.value.a] else []
  }

  /** All packets picked up were handled, but perhaps the last one. */
  ghost predicate Intake(c: Copier, handled: seq<Arrival>, taken: seq<Arrival>) {
    handled <= taken && |taken| <= |handled| + 1 && (!c.halted ==> taken == handled + Open(c))
  }

  lemma IntakeNext(fd: int, c: Copier, c': Copier, ev: seq<Event>, handled: seq<Arrival>, tr: seq<Event>)
    requires Intake(c, handled, Takes(tr)) && CopyNext(Handshake(fd), c, c', ev)
    requires ev == [] && !c'.halted ==> Open(c') == Open(c)
    ensures Intake(c', handled, Takes(tr + ev))
  {
    if ev == [] {
      assert tr + ev == tr;
    } else {
      assert ev == [ev[0]];
      Added(tr, ev[0]);
      assert Takes(tr) + [] == Takes(tr);
      if ev[0].Take? {
        IntakeTake(fd, c, c', ev[0].a, handled, Takes(tr));
      } else {
        IntakeOther(fd, c, c', ev[0], handled, Takes(tr));
      }
    }
  }

  lemma IntakeTake(fd: int, c: Copier, c': Copier, a: Arrival, handled: seq<Arrival>, taken: seq<Arrival>)
    requires Intake(c, handled, taken) && CopyNext(Handshake(fd), c, c', [Take(a)])
    ensures Intake(c', handled, taken + [a])
  {
    assert Open(c) == [];
    assert handled + [] == handled;
  }

  lemma IntakeOther(fd: int, c: Copier, c': Copier, ev: Event, handled: seq<Arrival>, taken: seq<Arrival>)
    requires Intake(c, handled, taken) && CopyNext(Handshake(fd), c, c', [ev]) && !ev.Take?
    ensures Intake(c', handled, taken)
  {
    assert Open(c') == Open(c);
  }

  // ---------------------------------------------------------------- steps

  /** A packet is being worked on and has not been handled. */
  ghost predicate Underway(e: Engine, ph: Phase) {
    ph.Resub? || ph.Rearm? || ph.Back? || (ph.Got? && e.At(ph.op).opType == TunRead)
  }

  /** A packet that is worked on stays so until it is handled. */
  lemma UnderwayActs(s: Sys, l: Label)
    requires Underway(s.e, s.phase) && l.Act? && !s.phase.Back?
    ensures var s' := Step(s, l); Continuing(s'.phase) ==> Underway(s'.e, s'.phase)
  {
    match s.phase
    case Got(_) => StepAtGot(s, l);
    case Resub(_, _) => StepAtResub(s, l);
    case Rearm(_) => StepAtRearm(s, l);
  }

  lemma UnderwayStays(s: Sys, l: Label)
    requires Underway(s.e, s.phase) && !IsHandling(s, l)
    ensures var s' := Step(s, l); Continuing(s'.phase) ==> Underway(s'.e, s'.phase)
  {
    if l.Act? {
      UnderwayActs(s, l);
    } else if IsKernel(l) {
      assert KernelStep(s, l).e.ops == s.e.ops;
    } else {
      UnderwayIdle(s, l);
    }
  }

  lemma UnderwayIdle(s: Sys, l: Label)
    requires Underway(s.e, s.phase) && !l.Act? && !IsKernel(l)
    ensures Step(s, l) == s
  {
  }

  /** A silent step of the driver does not lose the packet. */
  lemma OpenStays(s: Sys, l: Label)
    requires ModeOk(s) && s.mode.Handshake? && !IsHandling(s, l) && Refines(s, Step(s, l)) && Step(s, l).trace == s.trace
    ensures Continuing(Step(s, l).phase) ==> Open(Abs(Step(s, l))) == Open(Abs(s))
  {
    var s' := Step(s, l);
    assert s'.trace[|s.trace|..] == [];
    if Underway(s.e, s.phase) {
      UnderwayStays(s, l);
    }
  }

  lemma DropsStay(s: Sys, l: Label)
    requires !IsHandling(s, l)
    ensures Step(s, l).drops == s.drops
  {
    if l.Act? {
      ActDrops(s, l);
    }
  }

  lemma ActDrops(s: Sys, l: Label)
    requires l.Act? && !s.phase.Back?
    ensures Step(s, l).drops == s.drops
  {
  }

  lemma ModeStaysOn(s: Sys, l: Label)
    requires !l.Enter?
    ensures Step(s, l).mode == s.mode
  {
    if l.Act? {
      ActKeepsMode(s, l);
    }
  }

  /** The account of state `s` for the events since position `base`, when `drops` were dropped before. */
  ghost predicate Holds(fd: int, s: Sys, base: nat, drops: nat, handled: seq<Arrival>) {
    && s.mode == Handshake(fd) && s.tunReads == 0 && base <= |s.trace|
    && Intake(Abs(s), handled, Takes(s.trace[base..])) && s.drops == drops + Foreign(fd, handled)
  }

  lemma QuietIntake(fd: int, s: Sys, base: nat, drops: nat, handled: seq<Arrival>, l: Label)
    requires Inv(s) && ModeOk(s) && Holds(fd, s, base, drops, handled) && !l.Enter? && !IsHandling(s, l)
    ensures Holds(fd, Step(s, l), base, drops, handled)
  {
    var s' := Step(s, l);
    StepShows(s, l);
    DropsStay(s, l);
    ModeStaysOn(s, l);
    HandshakeReads(s, [l]);
    assert Exec(s, [l]) == Exec(s', []) == s';
    if Refines(s, s') {
      QuietShown(fd, s, s', base, handled, l);
    } else {
      LoadShown(s, s', base, handled, l);
    }
  }

  lemma QuietShown(fd: int, s: Sys, s': Sys, base: nat, handled: seq<Arrival>, l: Label)
    requires ModeOk(s) && s.mode == Handshake(fd) && s' == Step(s, l) && Refines(s, s') && !IsHandling(s, l)
    requires base <= |s.trace| && Intake(Abs(s), handled, Takes(s.trace[base..]))
    ensures base <= |s'.trace| && Intake(Abs(s'), handled, Takes(s'.trace[base..]))
  {
    if s'.trace == s.trace {
      OpenStays(s, l);
      assert s'.trace[|s.trace|..] == [];
    }
    IntakeNext(fd, Abs(s), Abs(s'), s'.trace[|s.trace|..], handled, s.trace[base..]);
    SliceOn(s.trace, s'.trace, base);
  }

  lemma LoadShown(s: Sys, s': Sys, base: nat, handled: seq<Arrival>, l: Label)
    requires s.mode.Handshake? && LoadStep(s, l, s') && base <= |s.trace| && Intake(Abs(s), handled, Takes(s.trace[base..]))
    ensures base <= |s'.trace| && Intake(Abs(s'), handled, Takes(s'.trace[base..]))
  {
  }

  lemma HandlingIntake(fd: int, s: Sys, base: nat, drops: nat, handled: seq<Arrival>, l: Label)
    requires Inv(s) && Holds(fd, s, base, drops, handled) && IsHandling(s, l)
    ensures Holds(fd, Step(s, l), base, drops, handled + Seen(s, l))
  {
    var o := s.phase.op;
    var a := Carried(s.e, o, o);
    assert ShapeOk(s.e.ops[o]);
    StepAtBack(s, l);
    ForeignMore(fd, handled, a);
    HandledShown(s, Handle(s, o, l.plain, l.coded), base, handled, a);
  }

  lemma HandledShown(s: Sys, s': Sys, base: nat, handled: seq<Arrival>, a: Arrival)
    requires s.phase.Back? && a == Carried(s.e, s.phase.op, s.phase.op) && s'.trace == s.trace && s'.e == s.e
    requires s'.phase.Top? || s'.phase.Done? || s'.phase.Stopped?
    requires base <= |s.trace| && Intake(Abs(s), handled, Takes(s.trace[base..]))
    ensures Intake(Abs(s'), handled + [a], Takes(s'.trace[base..]))
  {
    assert Open(Abs(s)) == [a] && Open(Abs(s')) == [];
    assert handled + [a] + [] == handled + [a];
  }

  lemma {:induction false} IntakeRun(fd: int, s: Sys, base: nat, drops: nat, handled: seq<Arrival>, ls: seq<Label>)
    requires Inv(s) && ModeOk(s) && Holds(fd, s, base, drops, handled) && forall i | 0 <= i < |ls| :: !ls[i].Enter?
    ensures Holds(fd, Exec(s, ls), base, drops, handled + Handled(s, ls))
    decreases |ls|
  {
    Join(handled, [], []);
    if ls != [] {
      var s1, now := Step(s, ls[0]), Seen(s, ls[0]);
      if IsHandling(s, ls[0]) {
        HandlingIntake(fd, s, base, drops, handled, ls[0]);
      } else {
        QuietIntake(fd, s, base, drops, handled, ls[0]);
      }
      StepKeeps(s, ls[0]);
      ModeOkKeeps(s, ls[0]);
      IntakeRun(fd, s1, base, drops, handled + now, ls[1..]);
      HandledFirst(s, ls);
      Join(handled, now, Handled(s1, ls[1..]));
    }
  }

  lemma Join(a: seq<Arrival>, b: seq<Arrival>, c: seq<Arrival>)
    ensures a + b + c == a + (b + c) && a + [] == a
  {
  }

  // ---------------------------------------------------------------- theorems

  /**
    In every run of the handshake driver on socket `fd`: the packets it looked at are the packets
    picked up, in order and unchanged, only the last may be open; and the datagrams dropped are
    exactly those of other sockets.
   */
  lemma DatagramsHandled(nOps: nat, nRing: nat, peers: map<int, Addr>, before: seq<Label>, s0: Sys, fd: int, ls: seq<Label>)
    requires s0 == Exec(Initial(nOps, nRing, peers), before) && s0.phase.Top? && s0.mode == Handshake(fd)
    requires forall i | 0 <= i < |ls| :: !ls[i].Enter?
    ensures Accepts(fd, s0, Exec(s0, ls), Handled(s0, ls))
  {
    RunAccounted(nOps, nRing, peers, before);
    HandshakeReads(Initial(nOps, nRing, peers), before);
    assert s0.trace[|s0.trace|..] == [];
    IntakeRun(fd, s0, |s0.trace|, s0.drops, [], ls);
    assert [] + Handled(s0, ls) == Handled(s0, ls);
  }

  /** From `s0` to `s` the driver looked at `handled`. */
  ghost predicate Accepts(fd: int, s0: Sys, s: Sys, handled: seq<Arrival>) {
    |s0.trace| <= |s.trace| &&
    var taken := Takes(s.trace[|s0.trace|..]);
    && handled <= taken && |taken| <= |handled| + 1 && (s.phase.Top? ==> taken == handled)
    && s.drops == s0.drops + Foreign(fd, handled)
  }

  /** A packet as the driver's own account has it. */
  ghost function AsReceived(packets: seq<Arrival>): seq<C.Received> {
    seq(|packets|, i requires 0 <= i < |packets| =>
      C.Received(packets[i].fd, if packets[i].Datagram? then packets[i].src else [], packets[i].bytes))
  }

  lemma {:induction false} SameForeign(fd: int, packets: seq<Arrival>)
    ensures C.Foreign(fd, AsReceived(packets)) == Foreign(fd, packets)
  {
    if packets != [] {
      var n := |packets| - 1;
      assert AsReceived(packets)[..n] == AsReceived(packets[..n]);
      SameForeign(fd, packets[..n]);
    }
  }

  lemma {:induction false} SameSource(p: Addr, fd: int, packets: seq<Arrival>)
    requires Sourced(packets)
    ensures C.FirstSource(p, fd, AsReceived(packets)) == PeerFrom(p, fd, packets)
  {
    if packets != [] {
      var n := |packets| - 1;
      assert packets[n] in packets;
      SameSource(p, fd, packets[..n]);
      assert packets == packets[..n] + [packets[n]];
      assert AsReceived(packets) == AsReceived(packets[..n]) + AsReceived([packets[n]]);
      C.FirstSourceAppend(p, fd, AsReceived(packets[..n]), AsReceived([packets[n]]));
      PeerFromMore(p, fd, packets[..n], packets[n]);
      assert AsReceived([packets[n]])[1..] == [];
    }
  }

  /**
    When the datagrams of the driver's turns are those it looked at on the engine, its account of
    dropped datagrams and its address are the engine's, and what it gave to SSL are the bytes picked
    up on its socket.
   */
  lemma HandshakeFromTheWire(nOps: nat, nRing: nat, peers: map<int, Addr>, before: seq<Label>, s0: Sys, fd: int, ls: seq<Label>,
                             h: C.Hs, turns: seq<C.Turn>)
    requires s0 == Exec(Initial(nOps, nRing, peers), before) && s0.phase.Top? && s0.mode == Handshake(fd)
    requires (forall i | 0 <= i < |ls| :: !ls[i].Enter?) && C.Consumed(h, fd, turns) == AsReceived(Handled(s0, ls))
    ensures C.Run(h, fd, turns).0.drops - h.drops == Exec(s0, ls).drops - s0.drops
    ensures h.addr == PeerOf(s0.peers, fd) ==> C.Run(h, fd, turns).0.addr == PeerOf(Exec(s0, ls).peers, fd)
    ensures Accepts(fd, s0, Exec(s0, ls), Handled(s0, ls))
  {
    DatagramsHandled(nOps, nRing, peers, before, s0, fd, ls);
    FlightsSubmitted(nOps, nRing, peers, before, s0, fd, ls);
    C.RunDrops(h, fd, turns);
    C.HandshakePeer(h, fd, turns);
    SameForeign(fd, Handled(s0, ls));
    SameSource(h.addr, fd, Handled(s0, ls));
  }
}
