/**
  The handshake driver on the engine: what it submits are the chunks it drained from the write
  BIO, in order, each to the peer that the datagrams looked at before it left; so the bytes on the
  wire are the bytes the driver's own account says it sent.
 */
module HandshakeLedger {
  import opened Base
  import opened Engine
  import opened Machine
  import opened Ownership
  import opened Invariant
  import opened InvariantSteps
  import opened CopyRelay
  import opened CopySteps
  import opened RelaySteps
  import opened Ledger
  import opened Integrity
  import opened Progress
  import C = Connection

  // ---------------------------------------------------------------- what the driver does

  /** What the driver itself does in a run. */
  datatype Move =
    | Looks(a: Arrival)    // it looks at the packet that wait_for_recv returned
    | Hands(chunk: Bytes)  // it hands a chunk to the engine

  /** The driver looks at the packet that wait_for_recv returned. */
  ghost predicate IsHandling(s: Sys, l: Label) { l.Act? && s.phase.Back? }

  ghost function Moved(s: Sys, l: Label): seq<Move> {
    if IsHandling(s, l) then [Looks(Carried(s.e, s.phase.op, s.phase.op))]
    else if IsFlight(s, l) && Step(s, l).phase.Send? then [Hands(l.chunk)]
    else []
  }

  ghost function Moves(s: Sys, ls: seq<Label>): seq<Move>
    decreases |ls|
  {
    if ls == [] then [] else Moved(s, ls[0]) + Moves(Step(s, ls[0]), ls[1..])
  }

  ghost function ChunksOf(ms: seq<Move>): seq<Bytes> {
    if ms == [] then []
    else ChunksOf(ms[..|ms| - 1]) + if ms[|ms| - 1].Hands? then [ms[|ms| - 1].chunk] else []
  }

  ghost function LookedAt(ms: seq<Move>): seq<Arrival> {
    if ms == [] then []
    else LookedAt(ms[..|ms| - 1]) + if ms[|ms| - 1].Looks? then [ms[|ms| - 1].a] else []
  }

  /** The chunks that the driver handed to the engine, in order. */
  ghost function Chunks(s: Sys, ls: seq<Label>): seq<Bytes> { ChunksOf(Moves(s, ls)) }

  /** The packets the driver looked at, in order. */
  ghost function Handled(s: Sys, ls: seq<Label>): seq<Arrival> { LookedAt(Moves(s, ls)) }

  // ---------------------------------------------------------------- what it should send, and where to

  /** The packets that came on socket `fd`. */
  ghost function OnSocket(fd: int, packets: seq<Arrival>): seq<Arrival> {
    if packets == [] then []
    else OnSocket(fd, packets[..|packets| - 1]) + if packets[|packets| - 1].fd == fd then [packets[|packets| - 1]] else []
  }

  ghost function SourceOf(a: Arrival): Addr { if a.Datagram? then a.src else [] }

  /** The address is `p` or, when that is not set, the source of the first datagram of the socket. */
  ghost function PeerFrom(p: Addr, fd: int, packets: seq<Arrival>): Addr {
    var own := OnSocket(fd, packets);
    if p != [] || own == [] then p else SourceOf(own[0])
  }

  /** Each chunk goes to the address that the packets looked at before it left. */
  ghost function Meant(fd: int, p: Addr, ms: seq<Move>): seq<Msg> {
    if ms == [] then []
    else
      var n := |ms| - 1;
      Meant(fd, p, ms[..n]) +
      if ms[n].Hands? then [ToPeer(fd, PeerFrom(p, fd, LookedAt(ms[..n])), ms[n].chunk)] else []
  }

  lemma MovesOn(fd: int, p: Addr, ms: seq<Move>, m: Move)
    ensures ChunksOf(ms + [m]) == ChunksOf(ms) + if m.Hands? then [m.chunk] else []
    ensures LookedAt(ms + [m]) == LookedAt(ms) + if m.Looks? then [m.a] else []
    ensures Meant(fd, p, ms + [m]) == Meant(fd, p, ms) + if m.Hands? then [ToPeer(fd, PeerFrom(p, fd, LookedAt(ms)), m.chunk)] else []
  {
    assert (ms + [m])[..|ms|] == ms;
  }

  lemma {:induction false} LookedAtAppend(a: seq<Move>, b: seq<Move>)
    ensures LookedAt(a + b) == LookedAt(a) + LookedAt(b)
    decreases |b|
  {
    if b == [] {
      assert a + b == a;
    } else {
      assert (a + b)[..|a + b| - 1] == a + b[..|b| - 1];
      LookedAtAppend(a, b[..|b| - 1]);
    }
  }

  /** The packet that the step of `l` looks at, if any. */
  ghost function Seen(s: Sys, l: Label): seq<Arrival> {
    if IsHandling(s, l) then [Carried(s.e, s.phase.op, s.phase.op)] else []
  }

  lemma HandledFirst(s: Sys, ls: seq<Label>)
    requires ls != []
    ensures Handled(s, ls) == Seen(s, ls[0]) + Handled(Step(s, ls[0]), ls[1..])
  {
    LookedAtAppend(Moved(s, ls[0]), Moves(Step(s, ls[0]), ls[1..]));
    SeenOf(s, ls[0]);
  }

  lemma SeenOf(s: Sys, l: Label)
    ensures LookedAt(Moved(s, l)) == Seen(s, l)
  {
    if Moved(s, l) != [] {
      assert Moved(s, l)[..0] == [];
    }
  }

  lemma {:induction false} OnSocketSubset(fd: int, packets: seq<Arrival>)
    ensures forall a | a in OnSocket(fd, packets) :: a in packets
  {
    if packets != [] {
      OnSocketSubset(fd, packets[..|packets| - 1]);
    }
  }

  /** All packets are datagrams that have a source. */
  ghost predicate Sourced(packets: seq<Arrival>) { forall a | a in packets :: SourceOf(a) != [] }

  /** Looking at one packet more. */
  lemma PeerFromMore(p: Addr, fd: int, packets: seq<Arrival>, a: Arrival)
    requires Sourced(packets)
    ensures PeerFrom(p, fd, packets + [a]) ==
      if a.fd == fd && PeerFrom(p, fd, packets) == [] then SourceOf(a) else PeerFrom(p, fd, packets)
  {
    assert (packets + [a])[..|packets|] == packets;
    OnSocketSubset(fd, packets);
    var own := OnSocket(fd, packets);
    if own != [] {
      assert own[0] in own;
    }
  }

  // ---------------------------------------------------------------- the account

  /** The account of a driver in state `c`, whose address was `p` and which did `ms` and submitted `subs`. */
  ghost predicate Account(fd: int, p: Addr, c: Copier, sending: bool, ms: seq<Move>, subs: seq<Msg>) {
    var meant := Meant(fd, p, ms);
    && Sourced(LookedAt(ms)) && PeerOf(c.peers, fd) == PeerFrom(p, fd, LookedAt(ms))
    && subs <= meant && |meant| <= |subs| + 1
    && (!c.halted ==> |meant| == |subs| + if sending then 1 else 0)
    && (!c.halted && sending ==>
          c.cur.Some? && c.cur.value.Sending? && meant[|subs|] == ToPeer(fd, PeerOf(c.peers, fd), c.cur.value.chunk))
    && (c.cur.Some? && c.cur.value.Sending? ==> sending)
  }

  lemma AccountSilent(fd: int, p: Addr, c: Copier, c': Copier, sending: bool, ms: seq<Move>, subs: seq<Msg>)
    requires Account(fd, p, c, sending, ms, subs) && CopyNext(Handshake(fd), c, c', []) && c'.peers == c.peers
    requires !sending || c'.halted || c'.cur == c.cur
    ensures Account(fd, p, c', sending && c'.cur.Some?, ms, subs)
  {
  }

  lemma AccountEvent(fd: int, p: Addr, c: Copier, c': Copier, sending: bool, ms: seq<Move>, subs: seq<Msg>, ev: Event)
    requires Account(fd, p, c, sending, ms, subs) && CopyNext(Handshake(fd), c, c', [ev]) && (ev.Take? ==> !sending)
    ensures Account(fd, p, c', sending && c'.cur.Some?, ms, if ev.Submit? then subs + [ev.m] else subs)
  {
    if ev.Submit? {
      assert ev.m == Meant(fd, p, ms)[|subs|];
    }
  }

  lemma AccountNext(fd: int, p: Addr, c: Copier, c': Copier, sending: bool, ms: seq<Move>, ev: seq<Event>, tr: seq<Event>)
    requires Account(fd, p, c, sending, ms, Subs(tr)) && CopyNext(Handshake(fd), c, c', ev) && c'.peers == c.peers
    requires ev == [] ==> !sending || c'.halted || c'.cur == c.cur
    requires ev != [] ==> (ev[0].Take? ==> !sending)
    ensures Account(fd, p, c', sending && c'.cur.Some?, ms, Subs(tr + ev))
  {
    if ev == [] {
      assert tr + ev == tr;
      AccountSilent(fd, p, c, c', sending, ms, Subs(tr));
    } else {
      assert ev == [ev[0]];
      Added(tr, ev[0]);
      assert Subs(tr) + [] == Subs(tr);
      AccountEvent(fd, p, c, c', sending, ms, Subs(tr), ev[0]);
    }
  }

  lemma AccountLoad(fd: int, p: Addr, c: Copier, c': Copier, ms: seq<Move>, subs: seq<Msg>, chunk: Bytes)
    requires Account(fd, p, c, false, ms, subs) && !c.halted && c' == c.(cur := Some(Sending(chunk)))
    ensures Account(fd, p, c', true, ms + [Hands(chunk)], subs)
  {
    MovesOn(fd, p, ms, Hands(chunk));
    assert LookedAt(ms) + [] == LookedAt(ms);
  }

  /** The driver looks at packet `a`, which fixes the address if it is the first of the socket. */
  lemma AccountLook(fd: int, p: Addr, c: Copier, c': Copier, ms: seq<Move>, subs: seq<Msg>, a: Arrival)
    requires Account(fd, p, c, false, ms, subs) && c'.halted == c.halted && c'.cur == None && SourceOf(a) != []
    requires PeerOf(c'.peers, fd) == if a.fd == fd && PeerOf(c.peers, fd) == [] then SourceOf(a) else PeerOf(c.peers, fd)
    ensures Account(fd, p, c', false, ms + [Looks(a)], subs)
  {
    MovesOn(fd, p, ms, Looks(a));
    PeerFromMore(p, fd, LookedAt(ms), a);
    assert Meant(fd, p, ms) + [] == Meant(fd, p, ms);
  }

  // ---------------------------------------------------------------- steps and runs

  /** The account of state `s`, for the events since position `base` of the trace. */
  ghost predicate Holds(fd: int, p: Addr, s: Sys, base: nat, ms: seq<Move>) {
    && s.mode == Handshake(fd) && s.tunReads == 0 && base <= |s.trace|
    && Account(fd, p, Abs(s), s.phase.Send?, ms, Subs(s.trace[base..]))
  }

  /** While an operation is about to be submitted, only its submission changes what is worked on. */
  ghost predicate Settles(s: Sys, s': Sys) {
    && s'.mode == s.mode
    && (s'.phase.Send? <==> s.phase.Send? && Packet(s'.e, s'.phase).Some?)
    && (s.phase.Send? && s'.trace == s.trace ==> !Continuing(s'.phase) || Packet(s'.e, s'.phase) == Packet(s.e, s.phase))
  }

  lemma DriverActs(s: Sys, l: Label)
    requires s.mode.Handshake? && l.Act? && !s.phase.Send?
    ensures Settles(s, Step(s, l))
  {
    if s.phase.Back? {
      HandshakeHandles(s, s.phase.op, l.plain, l.coded);
    } else {
      ActLeads(s, l);
    }
  }

  lemma HandshakeHandles(s: Sys, o: nat, plain: bool, coded: Option<Bytes>)
    requires s.mode.Handshake?
    ensures var s' := Handle(s, o, plain, coded); s'.mode == s.mode && !s'.phase.Send?
  {
  }

  lemma DriverSends(s: Sys, l: Label)
    requires s.mode.Handshake? && l.Act? && s.phase.Send? && s.phase.recv.None?
    ensures Settles(s, Step(s, l))
  {
    var s' := Step(s, l);
    assert s'.mode == s.mode && (s'.phase.Top? || s'.phase.Stopped?);
    assert s'.trace == s.trace ==> s'.phase.Stopped?;
  }

  lemma DriverOthers(s: Sys, l: Label)
    requires s.mode.Handshake? && !l.Act? && !l.Enter? && !IsFlight(s, l)
    ensures var s' := Step(s, l);
      s'.mode == s.mode && (s'.phase.Send? <==> s.phase.Send?)
  {
  }

  lemma OthersSettle(s: Sys, l: Label)
    requires s.mode.Handshake? && !l.Act? && !l.Enter? && !IsFlight(s, l) && Refines(s, Step(s, l))
    ensures Settles(s, Step(s, l))
  {
    var s' := Step(s, l);
    DriverOthers(s, l);
    if s.phase.Send? && s'.trace == s.trace {
      assert s'.trace[|s.trace|..] == [];
      assert CopyNext(s.mode, Abs(s), Abs(s'), []);
    }
  }

  lemma StepSettles(s: Sys, l: Label)
    requires ModeOk(s) && s.mode.Handshake? && !l.Enter? && !IsFlight(s, l) && Refines(s, Step(s, l))
    ensures Settles(s, Step(s, l))
  {
    if !l.Act? {
      OthersSettle(s, l);
    } else if s.phase.Send? {
      DriverSends(s, l);
    } else {
      DriverActs(s, l);
    }
  }

  /** Only looking at a packet changes peers. */
  lemma PeersStay(s: Sys, l: Label)
    requires !IsHandling(s, l)
    ensures Step(s, l).peers == s.peers
  {
    if l.Act? {
      ActPeers(s, l);
    }
  }

  lemma ActPeers(s: Sys, l: Label)
    requires l.Act? && !s.phase.Back?
    ensures Step(s, l).peers == s.peers
  {
  }

  /** A run of the driver goes on without TUN reads. */
  lemma ReadsStay(s: Sys, l: Label)
    requires s.mode.Handshake? && s.tunReads == 0 && !l.Enter?
    ensures Step(s, l).mode == s.mode && Step(s, l).tunReads == 0
  {
    if l.Act? {
      ActKeepsMode(s, l);
    }
  }

  lemma QuietStep(fd: int, p: Addr, s: Sys, base: nat, ms: seq<Move>, l: Label)
    requires Inv(s) && ModeOk(s) && Holds(fd, p, s, base, ms) && !l.Enter? && !IsFlight(s, l) && !IsHandling(s, l)
    ensures Holds(fd, p, Step(s, l), base, ms)
  {
    var s' := Step(s, l);
    StepShows(s, l);
    StepSettles(s, l);
    ReadsStay(s, l);
    PeersStay(s, l);
    if s'.trace == s.trace {
      assert s'.trace[|s.trace|..] == [];
    } else {
      EventsOf(s, l);
    }
    AccountNext(fd, p, Abs(s), Abs(s'), s.phase.Send?, ms, s'.trace[|s.trace|..], s.trace[base..]);
    SliceOn(s.trace, s'.trace, base);
  }

  lemma FlightStep(fd: int, p: Addr, s: Sys, base: nat, ms: seq<Move>, l: Label)
    requires Inv(s) && ModeOk(s) && Holds(fd, p, s, base, ms) && IsFlight(s, l)
    ensures Holds(fd, p, Step(s, l), base, ms + Moved(s, l))
  {
    var s' := SendFlight(s, fd, l.chunk);
    StepOfFlight(s, l);
    FlightShows(s, l);
    FlightSilent(s, fd, l.chunk);
    if s'.phase.Send? {
      AccountLoad(fd, p, Abs(s), Abs(s'), ms, Subs(s.trace[base..]), l.chunk);
    } else {
      assert ms + [] == ms && s'.trace[|s.trace|..] == [];
      AccountSilent(fd, p, Abs(s), Abs(s'), false, ms, Subs(s.trace[base..]));
    }
  }

  lemma FlightSilent(s: Sys, fd: int, chunk: Bytes)
    ensures var s' := SendFlight(s, fd, chunk);
      && s'.trace == s.trace && s'.mode == s.mode && s'.peers == s.peers && s'.tunReads == s.tunReads
      && (s'.phase.Send? || s'.phase.Stopped?)
  {
  }

  /** Without TUN reads, what wait_for_recv returns is a datagram with an address. */
  lemma LooksAtDatagram(s: Sys)
    requires Inv(s) && s.phase.Back? && s.tunReads == 0
    ensures var op := s.e.At(s.phase.op); op.isMulti && op.opType == UdpRecv && op.addr != []
  {
    assert ShapeOk(s.e.ops[s.phase.op]);
  }

  /** The driver looks at a datagram: the first one of its socket fixes the peer. */
  lemma LookPins(s: Sys, o: nat, fd: int, plain: bool, coded: Option<Bytes>)
    requires s.phase == Back(o) && s.mode == Handshake(fd) && s.e.At(o).isMulti && s.e.At(o).opType == UdpRecv
    ensures var s' := Handle(s, o, plain, coded);
      && s'.e == s.e && s'.trace == s.trace && s'.mode == s.mode && s'.tunReads == s.tunReads
      && Continuing(s'.phase) && Packet(s'.e, s'.phase) == None && !s'.phase.Send?
      && PeerOf(s'.peers, fd) ==
           if s.e.At(o).fd == fd && PeerOf(s.peers, fd) == [] then s.e.At(o).addr else PeerOf(s.peers, fd)
  {
  }

  lemma LookStep(fd: int, p: Addr, s: Sys, base: nat, ms: seq<Move>, l: Label)
    requires Inv(s) && Holds(fd, p, s, base, ms) && IsHandling(s, l)
    ensures Holds(fd, p, Step(s, l), base, ms + Moved(s, l))
  {
    var o := s.phase.op;
    LooksAtDatagram(s);
    StepAtBack(s, l);
    LookPins(s, o, fd, l.plain, l.coded);
    AccountLook(fd, p, Abs(s), Abs(Step(s, l)), ms, Subs(s.trace[base..]), Carried(s.e, o, o));
  }

  lemma DriverStep(fd: int, p: Addr, s: Sys, base: nat, ms: seq<Move>, l: Label)
    requires Inv(s) && ModeOk(s) && Holds(fd, p, s, base, ms) && !l.Enter?
    ensures Holds(fd, p, Step(s, l), base, ms + Moved(s, l))
  {
    if IsHandling(s, l) {
      LookStep(fd, p, s, base, ms, l);
    } else if IsFlight(s, l) {
      FlightStep(fd, p, s, base, ms, l);
    } else {
      QuietStep(fd, p, s, base, ms, l);
      assert ms + [] == ms;
    }
  }

  lemma Regroup(a: seq<Move>, b: seq<Move>, c: seq<Move>)
    ensures a + b + c == a + (b + c) && a + [] == a
  {
  }

  lemma {:induction false} DriverRun(fd: int, p: Addr, s: Sys, base: nat, ms: seq<Move>, ls: seq<Label>)
    requires Inv(s) && ModeOk(s) && Holds(fd, p, s, base, ms) && forall i | 0 <= i < |ls| :: !ls[i].Enter?
    ensures Holds(fd, p, Exec(s, ls), base, ms + Moves(s, ls))
    decreases |ls|
  {
    Regroup(ms, [], []);
    if ls != [] {
      var s1, now := Step(s, ls[0]), Moved(s, ls[0]);
      DriverStep(fd, p, s, base, ms, ls[0]);
      StepKeeps(s, ls[0]);
      ModeOkKeeps(s, ls[0]);
      DriverRun(fd, p, s1, base, ms + now, ls[1..]);
      Regroup(ms, now, Moves(s1, ls[1..]));
    }
  }

  // ---------------------------------------------------------------- theorems

  /** The payloads of messages, in order. */
  ghost function Bodies(subs: seq<Msg>): seq<Bytes> { seq(|subs|, i requires 0 <= i < |subs| => subs[i].bytes) }

  /** From `s0` to `s` the driver did `ms` and submitted what that means. */
  ghost predicate Submits(fd: int, s0: Sys, s: Sys, ms: seq<Move>) {
    |s0.trace| <= |s.trace| &&
    var p, subs := PeerOf(s0.peers, fd), Subs(s.trace[|s0.trace|..]);
    var meant := Meant(fd, p, ms);
    && subs <= meant && |meant| <= |subs| + 1 && (s.phase.Top? || s.phase.Wait? ==> subs == meant)
    && PeerOf(s.peers, fd) == PeerFrom(p, fd, LookedAt(ms)) && Sourced(LookedAt(ms))
  }

  /**
    In every run of the handshake driver on socket `fd`, from any state in which it begins: its
    peer is the one at the beginning or, without one, the source of the first datagram of its socket
    that it looked at. The messages submitted are the chunks it handed over, in order, each to the
    peer that the datagrams looked at before it left; only the last may be missing, and at the head
    of the loop none is.
   */
  lemma FlightsSubmitted(nOps: nat, nRing: nat, peers: map<int, Addr>, before: seq<Label>, s0: Sys, fd: int, ls: seq<Label>)
    requires s0 == Exec(Initial(nOps, nRing, peers), before) && s0.phase.Top? && s0.mode == Handshake(fd)
    requires forall i | 0 <= i < |ls| :: !ls[i].Enter?
    ensures Submits(fd, s0, Exec(s0, ls), Moves(s0, ls))
  {
    var p := PeerOf(s0.peers, fd);
    RunAccounted(nOps, nRing, peers, before);
    HandshakeReads(Initial(nOps, nRing, peers), before);
    assert s0.trace[|s0.trace|..] == [];
    NothingMeant(fd, p, s0);
    DriverRun(fd, p, s0, |s0.trace|, [], ls);
    assert [] + Moves(s0, ls) == Moves(s0, ls);
    HoldsSubmits(fd, p, s0, Exec(s0, ls), Moves(s0, ls));
  }

  lemma NothingMeant(fd: int, p: Addr, s0: Sys)
    requires s0.phase.Top? && p == PeerOf(s0.peers, fd)
    ensures Account(fd, p, Abs(s0), false, [], [])
  {
  }

  lemma HoldsSubmits(fd: int, p: Addr, s0: Sys, s: Sys, ms: seq<Move>)
    requires p == PeerOf(s0.peers, fd) && Holds(fd, p, s, |s0.trace|, ms)
    ensures Submits(fd, s0, s, ms)
  {
  }

  lemma {:induction false} MeantBodies(fd: int, p: Addr, ms: seq<Move>)
    ensures Bodies(Meant(fd, p, ms)) == ChunksOf(ms)
  {
    if ms != [] {
      MeantBodies(fd, p, ms[..|ms| - 1]);
    }
  }

  lemma {:induction false} DrainedPayloads(sent: seq<(Addr, Bytes)>)
    ensures C.Concat(C.Bodies(sent)) == C.Payloads(sent)
  {
    if sent != [] {
      assert C.Bodies(sent)[1..] == C.Bodies(sent[1..]);
      DrainedPayloads(sent[1..]);
    }
  }

  /** The chunk of a send that the turns refuse. */
  ghost function RefusedChunk(h: C.Hs, fd: int, turns: seq<C.Turn>): seq<Bytes> {
    if C.Refused(h, fd, turns) == [] then [] else [C.Refused(h, fd, turns)]
  }

  /** The engine is between turns with all sends accepted, or refused the send that the turns refuse. */
  ghost predicate InTune(s0: Sys, s: Sys, h: C.Hs, fd: int, turns: seq<C.Turn>) {
    || ((s.phase.Top? || s.phase.Wait?) && C.Refused(h, fd, turns) == [])
    || (|s0.trace| <= |s.trace| && |Subs(s.trace[|s0.trace|..])| == |C.Run(h, fd, turns).0.sent|)
  }

  /**
    When the chunks handed over are those the driver drained in its turns, the bytes submitted on
    the socket, then the chunk of a refused send, then what is left in the write BIO, are the bytes
    SSL produced.
   */
  lemma HandshakeOnTheWire(nOps: nat, nRing: nat, peers: map<int, Addr>, before: seq<Label>, s0: Sys, fd: int, ls: seq<Label>,
                           h: C.Hs, turns: seq<C.Turn>)
    requires s0 == Exec(Initial(nOps, nRing, peers), before) && s0.phase.Top? && s0.mode == Handshake(fd)
    requires forall i | 0 <= i < |ls| :: !ls[i].Enter?
    requires h.sent == [] && h.wbio == h.produced
    requires Chunks(s0, ls) == C.Bodies(C.Run(h, fd, turns).0.sent) + RefusedChunk(h, fd, turns)
    requires InTune(s0, Exec(s0, ls), h, fd, turns)
    ensures var s, h' := Exec(s0, ls), C.Run(h, fd, turns).0;
      && |s0.trace| <= |s.trace|
      && Bodies(Subs(s.trace[|s0.trace|..])) == C.Bodies(h'.sent)
      && C.Concat(Bodies(Subs(s.trace[|s0.trace|..]))) + C.Refused(h, fd, turns) + h'.wbio == h'.produced
  {
    FlightsSubmitted(nOps, nRing, peers, before, s0, fd, ls);
    var s, h' := Exec(s0, ls), C.Run(h, fd, turns).0;
    MeantBodies(fd, PeerOf(s0.peers, fd), Moves(s0, ls));
    SubmittedBodies(Subs(s.trace[|s0.trace|..]), Meant(fd, PeerOf(s0.peers, fd), Moves(s0, ls)), C.Bodies(h'.sent), RefusedChunk(h, fd, turns));
    AllProduced(h, fd, turns);
  }

  lemma SubmittedBodies(subs: seq<Msg>, meant: seq<Msg>, sent: seq<Bytes>, refused: seq<Bytes>)
    requires subs <= meant && Bodies(meant) == sent + refused
    requires (subs == meant && refused == []) || |subs| == |sent|
    ensures Bodies(subs) == sent
  {
    assert |Bodies(meant)| == |meant|;
    assert Bodies(subs) == Bodies(meant)[..|subs|];
  }

  lemma AllProduced(h: C.Hs, fd: int, turns: seq<C.Turn>)
    requires h.sent == [] && h.wbio == h.produced
    ensures var h' := C.Run(h, fd, turns).0; C.Concat(C.Bodies(h'.sent)) + C.Refused(h, fd, turns) + h'.wbio == h'.produced
  {
    var h' := C.Run(h, fd, turns).0;
    DrainedPayloads(h'.sent);
    assert C.Payloads(h.sent) + h.wbio == h.wbio;
    C.HandshakeOutput(h, fd, turns);
  }
}
