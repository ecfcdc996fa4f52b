/**
  The program and the kernel as one state machine. The program is cut at every engine call
  (`Phase` says where it is); the kernel may act between any two of those steps. A label
  fixes every choice of the environment, so "for all label sequences" is "for every run".
 */
module Machine {
  import opened Base
  import opened Engine

  /** Which part of the program is running. */
  datatype Mode =
    | Setup                          // start-up: submitting the initial receives and reads
    | Handshake(fd: int)             // do_dtls_handshake on the connection with this socket
    | Zero(tunFd: int, udpFd: int)   // tun_udp_run_zero
    | Dtls(tunFd: int, udpFd: int)   // tun_udp_run
    | Forward(inFd: int, outFd: int) // forwarder_run

  datatype Phase =
    | Top(last: Option<nat>)                         // head of the event loop; value of the loop's `op`
    | Wait                                           // head of the loop of wait_for_recv
    | Got(op: nat)                                   // a single-shot operation was dispatched
    | Resub(op: nat, next: nat)                     // about to submit the read that replaces `op`
    | Rearm(op: nat)                                 // about to submit an ended multishot request again
    | Back(op: nat)                                  // wait_for_recv returned `op`
    | Send(recv: Option<nat>, out: nat)              // about to submit `out`; `recv` is freed afterwards
    | Done(op: nat, ok: bool)                        // about to call the io_op_free of the loop
    | Bail(op: nat, leaked: multiset<nat>)           // wait_for_recv failed, about to free `op`
    | Stopped(last: Option<nat>, held: multiset<nat>) // left the loop; `last` is passed to free()

  /** A packet that reached the program. */
  datatype Arrival =
    | TunPacket(fd: int, bytes: Bytes)
    | Datagram(fd: int, src: Addr, bytes: Bytes)

  /** A packet the program asked the kernel to send or write. */
  datatype Msg =
    | ToTun(fd: int, bytes: Bytes)
    | ToPeer(fd: int, dest: Addr, bytes: Bytes)

  datatype Event =
    | In(a: Arrival)              // the kernel stored a packet and completed the request
    | Take(a: Arrival)            // wait_for_recv picked the packet up
    | Submit(ticket: nat, m: Msg) // an outgoing request was accepted by the kernel
    | Out(ticket: nat, m: Msg)    // the kernel read the memory of the request and sent these bytes
    | Fail(ticket: nat, m: Msg)   // the kernel gave the request up

  datatype Label =
    | KRead(o: nat, data: Bytes)
    | KComplete(o: nat, res: int)
    | KRecv(o: nat, name: Addr, payload: Bytes, more: bool)
    | KNoBuffer(o: nat, res: int, more: bool)
    | ArmUdp(fd: int, out: Outcome)
    | StartRead(fd: int, out: Outcome)
    | Enter(mode: Mode)
    | Flight(chunk: Bytes)
    | Run(go: bool)
    | WaitFails
    | Next
    | Act(out: Outcome, plain: bool, coded: Option<Bytes>)

  datatype Sys = Sys(
    mode: Mode,
    phase: Phase,
    e: Engine,
    peers: map<int, Addr>,   // the address of each connection, by socket
    udp: map<int, nat>,      // the multishot operation of each socket
    tunReads: nat,            // TUN reads submitted at start-up
    lost: multiset<nat>,     // ring buffers whose index was overwritten while it was owned
    still: map<nat, nat>,    // ring buffers kept by a multishot operation after a dropped datagram
    drops: nat,              // datagrams dropped by the handshake driver
    trace: seq<Event>)

  function Initial(nOps: nat, nRing: nat, peers: map<int, Addr>): Sys {
    Sys(Setup, Top(None), Fresh(nOps, nRing), peers, map[], 0, multiset{}, map[], 0, [])
  }

  function PeerOf(peers: map<int, Addr>, fd: int): Addr { if fd in peers then peers[fd] else [] }

  /** The first packet on a socket fixes the address of its connection. */
  function Pin(peers: map<int, Addr>, fd: int, src: Addr): map<int, Addr> {
    if PeerOf(peers, fd) == [] then peers[fd := src] else peers
  }

  /** The completion reports a received packet. */
  predicate IsArrival(e: Engine, c: Cqe) {
    c.res >= 0 && if c.SingleCqe? then e.At(c.op).opType == TunRead else c.buf.Some?
  }

  /** The packet a completion stands for, read from memory. */
  function ArrivalOf(e: Engine, c: Cqe): Arrival {
    if c.SingleCqe? then TunPacket(e.At(c.op).fd, e.Read(e.At(c.op).buffer, c.res))
    else if c.buf.Some? then
      Datagram(e.At(c.op).fd, e.SlotAt(c.buf.value).name, e.Read(RingBuffer(c.buf.value), c.res - HEADER))
    else Datagram(e.At(c.op).fd, [], [])
  }

  /** What the kernel reads when it carries out a request. */
  function MsgOf(e: Engine, t: OpType, r: Sqe): Msg {
    if t == UdpSend then ToPeer(r.fd, r.dest, e.Read(r.loc, r.len)) else ToTun(r.fd, e.Read(r.loc, r.len))
  }

  // ---------------------------------------------------------------- kernel

  /** The label of a step of the kernel. */
  predicate IsKernel(l: Label) { l.KRead? || l.KComplete? || l.KRecv? || l.KNoBuffer? }

  function KernelStep(s: Sys, l: Label): (s': Sys)
    requires IsKernel(l)
    ensures s' == s.(e := s'.e, trace := s'.trace)
  {
    var e' := match l
      case KRead(o, data) => KernelRead(s.e, o, data)
      case KComplete(o, res) => KernelComplete(s.e, o, res)
      case KRecv(o, name, payload, more) => KernelRecv(s.e, o, name, payload, more)
      case KNoBuffer(o, res, more) => KernelNoBuffer(s.e, o, res, more);
    var ev :=
      if |e'.cq| == |s.e.cq| then []
      else
        var c := e'.cq[|e'.cq| - 1];
        if IsArrival(e', c) then [In(ArrivalOf(e', c))]
        else if c.SingleCqe? && c.op in s.e.inflight && s.e.At(c.op).opType != TunRead then
          var m := MsgOf(s.e, s.e.At(c.op).opType, s.e.inflight[c.op]);
          [if c.res >= 0 then Out(c.op, m) else Fail(c.op, m)]
        else [];
    s.(e := e', trace := s.trace + ev)
  }

  // ---------------------------------------------------------------- wait_for_recv

  function Halt(s: Sys, e: Engine, last: Option<nat>, held: multiset<nat>): Sys {
    s.(e := e, phase := Stopped(last, held))
  }

  /** What one completion leaves wait_for_recv to do. */
  datatype Turned =
    | Single(op: nat)   // dispatch a single-shot operation
    | Decoded(op: nat)  // a datagram was decoded
    | Ended(op: nat)    // a datagram was decoded and the request must be submitted again
    | Broken(op: nat)   // decoding failed
    | Dead              // the completion reports an error

  /** The engine after the oldest completion was taken and decoded, and what is left to do. */
  function TakeEngine(e: Engine): (r: (Engine, Turned))
    requires e.cq != []
  {
    var c := e.cq[0];
    var e0 := e.(cq := e.cq[1..]);
    if c.res < 0 then (e0, Dead)
    else
      var e1 := e0.Set(c.op, e0.At(c.op).(dataLen := c.res));
      if !e1.At(c.op).isMulti then (e1, Single(c.op))
      else
        var (e2, ok) := Decode(e1, c.op, if c.MultiCqe? then c.buf else None);
        (e2, if !ok then Broken(c.op) else if c.MultiCqe? && c.more then Decoded(c.op) else Ended(c.op))
  }

  /** Where the program is with that left to do; `held` is in its hand when it stops. */
  function TakePhase(t: Turned, held: multiset<nat>): Phase {
    match t
    case Single(o) => Got(o)
    case Decoded(o) => Back(o)
    case Ended(o) => Rearm(o)
    case Broken(o) => Bail(o, multiset{})
    case Dead => Stopped(None, held)
  }

  /** One turn of the loop of wait_for_recv on the oldest completion. */
  function TakeNext(s: Sys): (s': Sys)
    requires s.e.cq != []
    ensures s' == s.(e := s'.e, phase := s'.phase, lost := s'.lost, still := s'.still, trace := s'.trace)
  {
    var c := s.e.cq[0];
    var (e', t) := TakeEngine(s.e);
    var overwritten := c.res >= 0 && s.e.At(c.op).isMulti && c.MultiCqe? && c.buf.Some? && s.e.At(c.op).bufIdx >= 0;
    s.(e := e',
       phase := TakePhase(t, if c.SingleCqe? then multiset{c.op} else multiset{}),
       trace := if IsArrival(s.e, c) then s.trace + [Take(ArrivalOf(s.e, c))] else s.trace,
       lost := if overwritten then s.lost + multiset{s.e.At(c.op).bufIdx as nat} else s.lost,
       still := if overwritten then s.still - {c.op} else s.still)
  }

  /** Dispatch of a single-shot completion. */
  function Dispatch(s: Sys, o: nat): (s': Sys)
    ensures s' == s.(e := s'.e, phase := s'.phase)
  {
    var op := s.e.At(o);
    if op.opType == UdpSend || op.opType == TunWrite then
      s.(e := Free(s.e, o).0, phase := Wait)
    else
      var (e1, next) := AllocBuf(s.e, op.opType, op.fd, false, None);
      if next.None? then s.(e := e1, phase := Bail(o, multiset{}))
      else s.(e := e1, phase := Resub(o, next.value))
  }

  function Resubmit(s: Sys, o: nat, next: nat, out: Outcome): (s': Sys)
    ensures s' == s.(e := s'.e, phase := s'.phase)
  {
    var (e1, ok) := SubmitRead(s.e, next, out);
    s.(e := e1, phase := if ok then Back(o) else Bail(o, multiset{next}))
  }

  function Reactivate(s: Sys, o: nat, out: Outcome): (s': Sys)
    ensures s' == s.(e := s'.e, phase := s'.phase)
  {
    var (e1, ok) := Arm(s.e, o, out);
    s.(e := e1, phase := if ok then Back(o) else Bail(o, multiset{}))
  }

  // ---------------------------------------------------------------- the event loops

  function Holding(e: Engine, o: nat): multiset<nat> { if e.At(o).isMulti then multiset{} else multiset{o} }

  /** tun_to_udp and udp_to_tun up to the submit call: the buffer moves to a new operation. */
  function Relay(s: Sys, o: nat, t: OpType, fd: int): (s': Sys)
    ensures s' == s.(e := s'.e, phase := s'.phase)
  {
    var (e1, out) := AllocBuf(s.e, t, fd, false, Some(o));
    if out.None? then s.(e := e1, phase := Done(o, false))
    else s.(e := e1, phase := Send(Some(o), out.value))
  }

  /** The bytes `data` are placed in the pool buffer of operation `n`. */
  function Fill(e: Engine, n: nat, data: Bytes): Engine {
    var op := e.At(n);
    var e1 := e.Set(n, op.(dataLen := |data|));
    if op.buffer.PoolBuffer? then e1.SetPool(op.buffer.b, Overlay(e1.PoolAt(op.buffer.b), data)) else e1
  }

  /** dtls_encrypt_and_send_udp and dtls_decrypt_and_write_tun up to the submit call. */
  function Recode(s: Sys, o: nat, t: OpType, fd: int, coded: Option<Bytes>): (s': Sys)
    ensures s' == s.(e := s'.e, phase := s'.phase)
  {
    var (e1, out) := AllocBuf(s.e, t, fd, false, None);
    if out.None? then s.(e := e1, phase := Done(o, false))
    else if coded.None? || |coded.value| > BUF_SIZE then
      s.(e := Free(e1, out.value).0, phase := Done(o, false))
    else s.(e := Fill(e1, out.value, coded.value), phase := Send(Some(o), out.value))
  }

  /** What the running part of the program does with the operation wait_for_recv returned. */
  function Handle(s: Sys, o: nat, plain: bool, coded: Option<Bytes>): (s': Sys)
    ensures s' == s.(e := s'.e, phase := s'.phase, peers := s'.peers, drops := s'.drops, still := s'.still)
  {
    var op := s.e.At(o);
    match s.mode
    case Setup => Halt(s, s.e, None, Holding(s.e, o))
    case Handshake(fd) =>
      if op.opType != UdpRecv then Halt(s, s.e, None, Holding(s.e, o))
      else if op.fd != fd then
        s.(phase := Top(None), drops := s.drops + 1,
           still := if op.bufIdx >= 0 then s.still[o := op.bufIdx] else s.still)
      else s.(peers := Pin(s.peers, fd, op.addr), phase := Done(o, true))
    case Zero(tunFd, udpFd) =>
      if op.opType == TunRead then Relay(s, o, UdpSend, udpFd)
      else if op.opType == UdpRecv then
        Relay(s.(peers := Pin(s.peers, udpFd, op.addr)), o, TunWrite, tunFd)
      else s.(phase := Done(o, false))
    case Dtls(tunFd, udpFd) =>
      if op.opType == TunRead then Recode(s, o, UdpSend, udpFd, coded)
      else if op.opType == UdpRecv then Recode(s, o, TunWrite, tunFd, coded)
      else s.(phase := Done(o, false))
    case Forward(inFd, outFd) =>
      if op.opType != UdpRecv || !plain then Halt(s, s.e, None, Holding(s.e, o))
      else Recode(s, o, UdpSend, if op.fd == inFd then outFd else inFd, coded)
  }

  /** Submission of the outgoing operation, and its release when that fails. */
  function Transmit(s: Sys, o: Option<nat>, n: nat, out: Outcome): (s': Sys)
    ensures s' == s.(e := s'.e, phase := s'.phase, trace := s'.trace)
  {
    var dest := if s.e.At(n).opType == UdpSend then PeerOf(s.peers, s.e.At(n).fd) else [];
    var (e1, ok) := SubmitOut(s.e, n, dest, out);
    if ok then
      s.(e := e1, trace := s.trace + [Submit(n, MsgOf(e1, e1.At(n).opType, e1.inflight[n]))],
         phase := if o.Some? then Done(o.value, true) else Top(None))
    else if o.None? then Halt(s, e1, None, multiset{n})
    else s.(e := Free(e1, n).0, phase := Done(o.value, false))
  }

  /** The io_op_free at the end of a turn of the event loop. */
  function Finish(s: Sys, o: nat, ok: bool): (s': Sys)
    ensures s' == s.(e := s'.e, phase := s'.phase)
  {
    if s.mode.Forward? && !ok then Halt(s, s.e, None, Holding(s.e, o))
    else
      var (e1, last) := Free(s.e, o);
      if ok then s.(e := e1, phase := Top(if s.mode.Handshake? then None else last))
      else Halt(s, e1, last, multiset{})
  }

  // ---------------------------------------------------------------- start-up

  /** iouring_submit_multishot_recvmsg. */
  function FirstArm(s: Sys, fd: int, out: Outcome): (s': Sys)
    ensures s' == s.(e := s'.e, phase := s'.phase, udp := s'.udp)
  {
    var (e1, n) := AllocBuf(s.e, UdpRecv, fd, true, None);
    if n.None? then Halt(s, e1, None, multiset{})
    else
      var (e2, ok) := Arm(e1, n.value, out);
      if ok then s.(e := e2, udp := s.udp[fd := n.value]) else Halt(s, e2, None, multiset{})
  }

  /** One turn of the loop of iouring_initial_tun_reads. */
  function FirstRead(s: Sys, fd: int, out: Outcome): (s': Sys)
    ensures s' == s.(e := s'.e, phase := s'.phase, tunReads := s'.tunReads)
  {
    var (e1, n) := AllocBuf(s.e, TunRead, fd, false, None);
    if n.None? then s.(e := e1)
    else
      var (e2, ok) := SubmitRead(e1, n.value, out);
      if ok then s.(e := e2, tunReads := s.tunReads + 1)
      else Halt(s, Free(e2, n.value).0, None, multiset{})
  }

  /** The handshake driver sends bytes it read from the write BIO. */
  function SendFlight(s: Sys, fd: int, chunk: Bytes): (s': Sys)
    ensures s' == s.(e := s'.e, phase := s'.phase)
  {
    var (e1, n) := AllocBuf(s.e, UdpSend, fd, false, None);
    if n.None? then Halt(s, e1, None, multiset{})
    else s.(e := Fill(e1, n.value, chunk), phase := Send(None, n.value))
  }

  // ---------------------------------------------------------------- one step, and runs

  function Step(s: Sys, l: Label): Sys {
    match l
    case KRead(_, _) => KernelStep(s, l)
    case KComplete(_, _) => KernelStep(s, l)
    case KRecv(_, _, _, _) => KernelStep(s, l)
    case KNoBuffer(_, _, _) => KernelStep(s, l)
    case ArmUdp(fd, out) =>
      if s.phase.Top? && s.mode.Setup? && fd !in s.udp then FirstArm(s, fd, out) else s
    case StartRead(fd, out) =>
      if s.phase.Top? && s.mode.Setup? then FirstRead(s, fd, out) else s
    case Enter(mode) =>
      if s.phase.Top? && (s.mode.Setup? || s.mode.Handshake?) && (mode.Handshake? ==> s.tunReads == 0)
      then s.(mode := mode) else s
    case Flight(chunk) =>
      if s.phase.Top? && s.mode.Handshake? && |chunk| <= BUF_SIZE then SendFlight(s, s.mode.fd, chunk) else s
    case Run(go) =>
      if s.phase.Top? && !s.mode.Setup? then
        if go then s.(phase := Wait) else Halt(s, s.e, s.phase.last, multiset{})
      else s
    case WaitFails => if s.phase.Wait? then Halt(s, s.e, None, multiset{}) else s
    case Next => if s.phase.Wait? && s.e.cq != [] then TakeNext(s) else s
    case Act(out, plain, coded) =>
      match s.phase {
        case Got(o) => Dispatch(s, o)
        case Resub(o, next) => Resubmit(s, o, next, out)
        case Rearm(o) => Reactivate(s, o, out)
        case Back(o) => Handle(s, o, plain, coded)
        case Send(o, n) => Transmit(s, o, n, out)
        case Done(o, ok) => Finish(s, o, ok)
        case Bail(o, leaked) => Halt(s, Free(s.e, o).0, None, leaked)
        case _ => s
      }
  }

  function Exec(s: Sys, ls: seq<Label>): Sys
    decreases |ls|
  {
    if ls == [] then s else Exec(Step(s, ls[0]), ls[1..])
  }

  lemma {:induction false} ExecSnoc(s: Sys, ls: seq<Label>, l: Label)
    ensures Exec(s, ls + [l]) == Step(Exec(s, ls), l)
    decreases |ls|
  {
    if ls == [] {
      assert ls + [l] == [l] && [l][1..] == [];
    } else {
      assert (ls + [l])[1..] == ls[1..] + [l];
      ExecSnoc(Step(s, ls[0]), ls[1..], l);
    }
  }

  // ---------------------------------------------------------------- the cases of a step

  lemma StepAtBack(s: Sys, l: Label)
    requires l.Act? && s.phase.Back?
    ensures Step(s, l) == Handle(s, s.phase.op, l.plain, l.coded)
  {
  }

  lemma StepAtSend(s: Sys, l: Label)
    requires l.Act? && s.phase.Send?
    ensures Step(s, l) == Transmit(s, s.phase.recv, s.phase.out, l.out)
  {
  }

  lemma StepAtDone(s: Sys, l: Label)
    requires l.Act? && s.phase.Done?
    ensures Step(s, l) == Finish(s, s.phase.op, s.phase.ok)
  {
  }

  lemma StepAtGot(s: Sys, l: Label)
    requires l.Act? && s.phase.Got?
    ensures Step(s, l) == Dispatch(s, s.phase.op)
  {
  }

  lemma StepOfFlight(s: Sys, l: Label)
    requires l.Flight?
    ensures Step(s, l) == if s.phase.Top? && s.mode.Handshake? && |l.chunk| <= BUF_SIZE then SendFlight(s, s.mode.fd, l.chunk) else s
  {
  }

  lemma StepOfEnter(s: Sys, l: Label)
    requires l.Enter? && s.phase.Top?
    ensures Step(s, l) == s || Step(s, l) == s.(mode := l.mode)
  {
  }

  lemma StepOfArm(s: Sys, l: Label)
    requires l.ArmUdp? && s.phase.Top? && s.mode.Setup? && l.fd !in s.udp
    ensures Step(s, l) == FirstArm(s, l.fd, l.out)
  {
  }

  lemma StepOfRun(s: Sys, l: Label)
    requires l.Run? && s.phase.Top?
    ensures Step(s, l) ==
      if s.mode.Setup? then s else if l.go then s.(phase := Wait) else Halt(s, s.e, s.phase.last, multiset{})
  {
  }

  lemma StepOfNext(s: Sys, l: Label)
    requires l.Next?
    ensures Step(s, l) == if s.phase.Wait? && s.e.cq != [] then TakeNext(s) else s
  {
  }

  lemma StepAtResub(s: Sys, l: Label)
    requires l.Act? && s.phase.Resub?
    ensures Step(s, l) == Resubmit(s, s.phase.op, s.phase.next, l.out)
  {
  }

  lemma StepAtRearm(s: Sys, l: Label)
    requires l.Act? && s.phase.Rearm?
    ensures Step(s, l) == Reactivate(s, s.phase.op, l.out)
  {
  }

  lemma StepAtBail(s: Sys, l: Label)
    requires l.Act? && s.phase.Bail?
    ensures Step(s, l) == Halt(s, Free(s.e, s.phase.op).0, None, s.phase.leaked)
  {
  }
}
