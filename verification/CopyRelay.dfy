/**
  A relay that handles packets by value. In the zero-copy mode it copies them, in the coding modes
  it replaces their bytes, and in the handshake it sends chunks and swallows datagrams. The engine's
  programs refine it under every interleaving with the kernel, with the same events.
 */
module CopyRelay {
  import opened Base
  import opened Engine
  import opened Machine
  import opened Ownership
  import opened OwnershipSteps
  import opened Invariant
  import opened EngineFrames
  import opened Exclusive

  // ---------------------------------------------------------------- the copying relay

  /** What the relay is working on. */
  datatype Work =
    | Handling(a: Arrival)     // a packet it received
    | Sending(chunk: Bytes)    // bytes of a handshake flight

  /** Packets and messages are values here; nothing the kernel does can change them. */
  datatype Copier = Copier(
    peers: map<int, Addr>,
    arrived: seq<Arrival>,    // received packets, oldest first
    cur: Option<Work>,        // what is being worked on
    outbox: map<nat, Msg>,    // accepted messages that have not been sent
    halted: bool)

  /** The modes of the event loops, and those of them that encrypt or decrypt. */
  predicate Relays(m: Mode) { m.Zero? || Codes(m) }

  predicate Codes(m: Mode) { m.Dtls? || m.Forward? }

  /** The message a node makes of a packet: it leaves by the other side. */
  function MsgFor(m: Mode, peers: map<int, Addr>, a: Arrival): Msg
    requires Relays(m)
  {
    match m
    case Zero(tunFd, udpFd) => if a.TunPacket? then ToPeer(udpFd, PeerOf(peers, udpFd), a.bytes) else ToTun(tunFd, a.bytes)
    case Dtls(tunFd, udpFd) => if a.TunPacket? then ToPeer(udpFd, PeerOf(peers, udpFd), a.bytes) else ToTun(tunFd, a.bytes)
    case Forward(inFd, outFd) =>
      var other := if a.fd == inFd then outFd else inFd;
      ToPeer(other, PeerOf(peers, other), a.bytes)
  }

  /** The peers stay, or the datagram being handled fixes the one of this connection. */
  ghost predicate Pins(m: Mode, c: Copier, peers: map<int, Addr>) {
    || peers == c.peers
    || ((m.Zero? || m.Handshake?) && c.cur.Some? && c.cur.value.Handling? && c.cur.value.a.Datagram?
        && peers == Pin(c.peers, if m.Zero? then m.udpFd else m.fd, c.cur.value.a.src))
  }

  /** A datagram that the zero-copy edge passes on has fixed the peer, unless there was one. */
  ghost predicate Fixed(m: Mode, peers: map<int, Addr>, a: Arrival) {
    m.Zero? && a.Datagram? ==> Pin(peers, m.udpFd, a.src) == peers
  }

  /** The message the relay submits for its work. */
  ghost predicate Makes(m: Mode, peers: map<int, Addr>, w: Work, msg: Msg) {
    match w
    case Handling(a) => Relays(m) && msg == MsgFor(m, peers, a) && Fixed(m, peers, a)
    case Sending(chunk) => m.Handshake? && msg == ToPeer(m.fd, PeerOf(peers, m.fd), chunk)
  }

  /** One step of the relay in mode `m`, with its events. */
  ghost predicate CopyNext(m: Mode, c: Copier, c': Copier, ev: seq<Event>) {
    if ev == [] then
      && Pins(m, c, c'.peers)
      && (|| c' == c.(peers := c'.peers)
          || c' == c.(peers := c'.peers, cur := None, halted := true)
          || (m.Handshake? && c' == c.(peers := c'.peers, cur := None)))
    else
      |ev| == 1 &&
      match ev[0]
      case In(a) => c' == c.(arrived := c.arrived + [a])
      case Take(a) =>
        && !c.halted && c.cur == None && c.arrived != [] && c.arrived[0] == a
        && (c' == c.(arrived := c.arrived[1..], cur := Some(Handling(a))) || c' == c.(arrived := c.arrived[1..], halted := true))
      case Submit(t, msg) =>
        && !c.halted && c.cur.Some? && t !in c.outbox && Makes(m, c.peers, c.cur.value, msg)
        && c' == c.(cur := None, outbox := c.outbox[t := msg])
      case Out(t, msg) => t in c.outbox && c.outbox[t] == msg && c' == c.(outbox := c.outbox - {t})
      case Fail(t, msg) => t in c.outbox && c.outbox[t] == msg && c' == c.(outbox := c.outbox - {t})
  }

  /** A step that replaces the bytes of the packet by `l.coded`, or takes up the chunk of a flight. */
  ghost predicate Loads(m: Mode, l: Label, c: Copier, c': Copier) {
    || (Codes(m) && l.Act? && l.coded.Some? && c.cur.Some? && c.cur.value.Handling?
        && c' == c.(cur := Some(Handling(c.cur.value.a.(bytes := l.coded.value)))))
    || (m.Handshake? && l.Flight? && c.cur == None && c' == c.(cur := Some(Sending(l.chunk))))
  }

  // ---------------------------------------------------------------- what the engine's memory stands for

  /** The packets of the unseen completions, read from memory. */
  ghost function Arrivals(e: Engine, cq: seq<Cqe>): seq<Arrival> {
    if cq == [] then []
    else (if IsArrival(e, cq[0]) then [ArrivalOf(e, cq[0])] else []) + Arrivals(e, cq[1..])
  }

  /** The messages of the requests in flight, read from memory. */
  ghost function Outbox(e: Engine): map<nat, Msg> {
    map o | o in e.inflight && e.At(o).opType != TunRead :: MsgOf(e, e.At(o).opType, e.inflight[o])
  }

  /** The packet received by operation `o`, in the buffer of operation `w`. */
  ghost function Carried(e: Engine, o: nat, w: nat): Arrival {
    var bytes := e.Read(e.At(w).buffer, e.At(w).dataLen);
    if e.At(o).isMulti then Datagram(e.At(o).fd, e.At(o).addr, bytes) else TunPacket(e.At(o).fd, bytes)
  }

  /** What the program is working on, read from memory. */
  ghost function Packet(e: Engine, ph: Phase): Option<Work> {
    match ph
    case Got(o) => if e.At(o).opType == TunRead then Some(Handling(Carried(e, o, o))) else None
    case Resub(o, _) => Some(Handling(Carried(e, o, o)))
    case Rearm(o) => Some(Handling(Carried(e, o, o)))
    case Back(o) => Some(Handling(Carried(e, o, o)))
    case Send(r, n) =>
      Some(if r.Some? then Handling(Carried(e, r.value, n)) else Sending(e.Read(e.At(n).buffer, e.At(n).dataLen)))
    case _ => None
  }

  /** The relay a state of the programs stands for. */
  ghost function Abs(s: Sys): Copier {
    Copier(s.peers, Arrivals(s.e, s.e.cq), Packet(s.e, s.phase), Outbox(s.e), !Continuing(s.phase))
  }

  // ---------------------------------------------------------------- frames

  /** The completion stands for the same packet in both engines. */
  ghost predicate SameArrival(e: Engine, e': Engine, c: Cqe) {
    IsArrival(e', c) == IsArrival(e, c) && (IsArrival(e, c) ==> ArrivalOf(e', c) == ArrivalOf(e, c))
  }

  lemma {:induction false} ArrivalsFrame(e: Engine, e': Engine, cq: seq<Cqe>)
    requires forall j | 0 <= j < |cq| :: SameArrival(e, e', cq[j])
    ensures Arrivals(e', cq) == Arrivals(e, cq)
  {
    if cq != [] {
      assert SameArrival(e, e', cq[0]);
      forall j | 0 <= j < |cq[1..]|
        ensures SameArrival(e, e', cq[1..][j])
      {
        assert cq[1..][j] == cq[j + 1];
      }
      ArrivalsFrame(e, e', cq[1..]);
    }
  }

  lemma {:induction false} ArrivalsAppend(e: Engine, cq: seq<Cqe>, c: Cqe)
    ensures Arrivals(e, cq + [c]) == Arrivals(e, cq) + if IsArrival(e, c) then [ArrivalOf(e, c)] else []
  {
    if cq == [] {
      assert cq + [c] == [c];
    } else {
      assert (cq + [c])[1..] == cq[1..] + [c];
      ArrivalsAppend(e, cq[1..], c);
    }
  }

  /** Nothing that a completion or a request refers to has changed. */
  ghost predicate Quiet(e: Engine, e': Engine) {
    && e'.cq == e.cq && e'.inflight == e.inflight && SameMemory(e, e')
    && (forall o | o in e.inflight :: e'.At(o).opType == e.At(o).opType)
    && (forall j | 0 <= j < |e.cq| ::
          && e'.At(e.cq[j].op).fd == e.At(e.cq[j].op).fd
          && (e.cq[j].SingleCqe? ==> e'.At(e.cq[j].op) == e.At(e.cq[j].op)))
  }

  lemma QuietView(e: Engine, e': Engine)
    requires Quiet(e, e')
    ensures Arrivals(e', e'.cq) == Arrivals(e, e.cq)
    ensures Outbox(e') == Outbox(e)
  {
    forall j | 0 <= j < |e.cq|
      ensures SameArrival(e, e', e.cq[j])
    {
    }
    ArrivalsFrame(e, e', e.cq);
  }

  /** Completions and requests name operations that the program does not touch. */
  lemma QuietUse(s: Sys, e': Engine, a: nat, b: nat)
    requires Inv(s) && Continuing(s.phase) && SameUse(s.e, e', a, b)
    requires e'.cq == s.e.cq && e'.inflight == s.e.inflight && SameMemory(s.e, e')
    requires forall x | x in {a, b} ::
      !InUse(s.e, x) || x in Hand(s.e, s.phase) || (IsMulti(s.e, x) && e'.At(x).fd == s.e.At(x).fd)
    ensures Quiet(s.e, e')
  {
    var hand := Hand(s.e, s.phase);
    assert a in {a, b} && b in {a, b};
    Located(s.e, hand, s.lost, a);
    Located(s.e, hand, s.lost, b);
    forall o | o in s.e.inflight
      ensures e'.At(o).opType == s.e.At(o).opType
    {
      Located(s.e, hand, s.lost, o);
    }
    forall j | 0 <= j < |s.e.cq|
      ensures var o := s.e.cq[j].op;
        e'.At(o).fd == s.e.At(o).fd && (s.e.cq[j].SingleCqe? ==> e'.At(o) == s.e.At(o))
    {
      var o := s.e.cq[j].op;
      if s.e.cq[j].SingleCqe? {
        CqAtLeast(s.e.cq, j);
        Located(s.e, hand, s.lost, o);
      } else {
        assert IsMulti(s.e, o);
      }
    }
  }

  /** Releasing an operation of the program changes no packet and no message. */
  lemma QuietFree(e: Engine, o: nat, hand: multiset<nat>, lost: multiset<nat>)
    requires Own(e, hand, lost) && (o in hand || IsMulti(e, o))
    ensures Quiet(e, Free(e, o).0)
  {
    Located(e, hand, lost, o);
    forall j | 0 <= j < |e.cq| && e.cq[j].SingleCqe?
      ensures e.cq[j].op != o
    {
      CqAtLeast(e.cq, j);
    }
  }

  /** The kernel stores a packet in pool buffer `b`, which belongs to request `o`. */
  lemma PoolWriteFrame(e: Engine, e': Engine, o: nat, hand: multiset<nat>, lost: multiset<nat>, p: nat, len: int)
    requires Own(e, hand, lost) && InUse(e, o) && InUse(e, p) && p != o && !e.At(p).isMulti && e.At(o).bufAddr.Some?
    requires (e.At(p).bufAddr.Some? || e.At(p).bufIdx >= 0)
    requires e'.slots == e.slots && |e'.poolMem| == |e.poolMem|
    requires forall b: nat | b < |e.poolMem| && b != e.At(o).bufAddr.value :: e'.poolMem[b] == e.poolMem[b]
    ensures e'.Read(e.At(p).buffer, len) == e.Read(e.At(p).buffer, len)
  {
    TwoOwners(e, hand, lost, o, p);
    assert ShapeOk(e.ops[p]);
  }

  /** A datagram is stored in a slot of the ring; no owner of memory sees it. */
  lemma SlotWriteFrame(e: Engine, e': Engine, hand: multiset<nat>, lost: multiset<nat>, p: nat, len: int)
    requires Own(e, hand, lost) && e.ring != [] && InUse(e, p)
    requires e.At(p).isMulti ==> e.At(p).bufIdx >= 0 && e.At(p).buffer == RingBuffer(e.At(p).bufIdx)
    requires !e.At(p).isMulti ==> e.At(p).bufAddr.Some? || e.At(p).bufIdx >= 0
    requires e'.poolMem == e.poolMem && |e'.slots| == |e.slots|
    requires forall i: nat | i < |e.slots| && i != e.ring[0] :: e'.slots[i] == e.slots[i]
    ensures e'.Read(e.At(p).buffer, len) == e.Read(e.At(p).buffer, len)
  {
    assert ShapeOk(e.ops[p]);
    if e.At(p).bufIdx >= 0 {
      HeldNotOffered(e, hand, lost, p);
    }
  }
}
