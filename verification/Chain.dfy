/**
  End to end: an edge, any number of forwarders and an edge, each of them a run of its program on
  the engine, connected by networks that lose, repeat, reorder and invent datagrams. Every packet
  written to the far TUN device was read from the near one.
 */
module Chain {
  import opened Base
  import opened Layout
  import opened Machine
  import opened Invariant
  import opened InvariantSteps
  import opened CopyRelay
  import opened RelaySteps
  import opened Ledger
  import opened Integrity
  import opened Sessions
  import opened CodedLedger
  import opened Directions

  // ---------------------------------------------------------------- nodes

  /**
    A run of a node: start-up and handshake (`before`), then the event loop of `mode` with the
    sessions `coder`. Packets of the chain go through it in way `way`.
   */
  datatype Node = Node(nOps: nat, nRing: nat, peers: map<int, Addr>, before: seq<Label>,
                       mode: Mode, coder: Coder, after: seq<Label>, way: bool)
  {
    /** The state in which the loop is entered. */
    ghost function Ready(): Sys { Exec(Initial(nOps, nRing, peers), before) }

    ghost function Begin(): Sys { Ready().(mode := mode) }

    ghost function End(): Sys { Exec(Begin(), after) }

    /** The events of the loop. */
    ghost function Events(): seq<Event> {
      if |Begin().trace| <= |End().trace| then End().trace[|Begin().trace|..] else []
    }

    /** A run of edge or forwarder whose sessions are clean when the loop begins. */
    ghost predicate Valid() {
      && Codes(mode) && TwoSided(mode)
      && (Ready().mode.Setup? || Ready().mode.Handshake?) && Ready().phase.Top?
      && CodingRun(Begin(), coder, after) && Clean(coder.near) && Clean(coder.far)
      && forall i | 0 <= i < |End().trace| && End().trace[i].In? :: End().trace[i].a.TunPacket? ==> |End().trace[i].a.bytes| <= MTU
    }

    /** Packets that entered in the way of the chain and were passed on, and what left for them. */
    ghost function Entered(): seq<Bytes>
      requires Codes(mode)
    {
      var n := |Subs(Events())|;
      Entering(mode, way, if n <= |Takes(Events())| then Takes(Events())[..n] else [])
    }

    ghost function Left(): seq<Bytes>
      requires Codes(mode)
    {
      Leaving(mode, way, Subs(Events()))
    }

    /** The plaintext of packet `j` that was passed on. */
    ghost function Passed(j: nat): Option<Bytes>
      requires Codes(mode)
    {
      if j < |Entered()| then Plain(mode, coder, way, Entered()[j]) else None
    }
  }

  /** The node's ledger, from the theorems about runs. */
  lemma NodeLedger(n: Node)
    requires n.Valid()
    ensures CodesExactly(n.Begin(), n.coder, n.End())
    ensures Accounted(Abs(n.Begin()), n.Begin().trace) && Accounted(Abs(n.End()), n.End().trace)
  {
    RunAccounted(n.nOps, n.nRing, n.peers, n.before);
    Entry(n);
    EveryPacketCodedOnce(n.nOps, n.nRing, n.peers, n.before + [Enter(n.mode)], n.Begin(), n.coder, n.after);
    AccountedExec(n.Begin(), n.after);
  }

  /** Entering the loop is a step of the run. */
  lemma Entry(n: Node)
    requires n.Valid()
    ensures n.Begin() == Exec(Initial(n.nOps, n.nRing, n.peers), n.before + [Enter(n.mode)])
    ensures Inv(n.Begin()) && ModeOk(n.Begin()) && Abs(n.Begin()) == Abs(n.Ready())
  {
    RunAccounted(n.nOps, n.nRing, n.peers, n.before);
    ExecSnoc(Initial(n.nOps, n.nRing, n.peers), n.before, Enter(n.mode));
    EnterKeeps(n.Ready(), n.mode);
    EnterIs(n.Ready(), n.mode);
  }

  lemma EnterIs(s: Sys, mode: Mode)
    requires s.phase.Top? && (s.mode.Setup? || s.mode.Handshake?) && !mode.Handshake?
    ensures Step(s, Enter(mode)) == s.(mode := mode) && ModeOk(s.(mode := mode)) && Abs(s.(mode := mode)) == Abs(s)
  {
  }

  // ---------------------------------------------------------------- reading traces

  lemma {:induction false} SplitTrace(t: seq<Event>, u: seq<Event>)
    ensures Takes(t + u) == Takes(t) + Takes(u) && Subs(t + u) == Subs(t) + Subs(u)
    decreases |u|
  {
    if u == [] {
      assert t + u == t;
    } else {
      var v, ev := u[..|u| - 1], u[|u| - 1];
      SplitTrace(t, v);
      assert u == v + [ev] && t + u == (t + v) + [ev];
      Added(t + v, ev);
      Added(v, ev);
    }
  }

  /** A received packet is an event of the trace. */
  lemma {:induction false} InsSource(tr: seq<Event>, a: Arrival)
    requires a in Ins(tr)
    ensures exists i :: 0 <= i < |tr| && tr[i] == In(a)
  {
    var v, ev := tr[..|tr| - 1], tr[|tr| - 1];
    if ev == In(a) {
      assert tr[|tr| - 1] == In(a);
    } else {
      InsSource(v, a);
      var i :| 0 <= i < |v| && v[i] == In(a);
      assert tr[i] == In(a);
    }
  }

  /** A message that was sent has been settled. */
  lemma {:induction false} SentSettled(tr: seq<Event>, i: nat)
    requires i < |tr| && tr[i].Out?
    ensures Settled(tr, tr[i].m) > 0
  {
    if i < |tr| - 1 {
      SentSettled(tr[..|tr| - 1], i);
    }
  }

  lemma {:induction false} SubmittedSource(tr: seq<Event>, m: Msg)
    requires Submitted(tr, m) > 0
    ensures m in Subs(tr)
  {
    var v, ev := tr[..|tr| - 1], tr[|tr| - 1];
    if !(ev.Submit? && ev.m == m) {
      SubmittedSource(v, m);
    }
  }

  // ---------------------------------------------------------------- one node

  /** Every packet a node picked up in its loop was received. */
  lemma TakenReceived(n: Node, a: Arrival)
    requires n.Valid() && a in Takes(n.Events())
    ensures exists i :: 0 <= i < |n.End().trace| && n.End().trace[i] == In(a)
  {
    NodeLedger(n);
    var t, u := n.Begin().trace, n.End().trace;
    assert u == t + n.Events();
    SplitTrace(t, n.Events());
    InsSource(u, a);
  }

  /** What leaves a node in the way of the chain are the records of what entered, in order. */
  lemma NodeWays(n: Node)
    requires n.Valid()
    ensures |Subs(n.Events())| <= |Takes(n.Events())|
    ensures Matches(n.mode, n.coder, n.way, n.Entered(), n.Left())
  {
    NodeLedger(n);
    var taken, subs := Takes(n.Events()), Subs(n.Events());
    forall i | 0 <= i < |subs|
      ensures Coded(n.mode, n.coder, n.Begin().peers, taken, subs, i) && Small(n.mode, taken[i])
    {
      assert Coded(n.mode, n.coder, n.Begin().peers, taken, subs, i);
      TakenReceived(n, taken[i]);
    }
    WaysExact(n.mode, n.coder, n.Begin().peers, taken, subs, |subs|);
    assert subs[..|subs|] == subs;
  }

  /** A message that a node sent was submitted before its loop, or is one that left. */
  lemma SentWas(n: Node, i: nat)
    requires n.Valid() && i < |n.End().trace| && n.End().trace[i].Out?
    ensures var m := n.End().trace[i].m; m in Subs(n.Begin().trace) || m in Subs(n.Events())
  {
    NodeLedger(n);
    var t, u := n.Begin().trace, n.End().trace;
    SentSettled(u, i);
    SubmittedSource(u, u[i].m);
    assert u == t + n.Events();
    SplitTrace(t, n.Events());
  }

  // ---------------------------------------------------------------- one hop

  /** What arrives of a datagram: the ring buffer holds CAPACITY bytes of it. */
  function Cut(d: Bytes): Bytes { Prefix(d, if |d| < CAPACITY then |d| else CAPACITY) }

  /** Packet `a` comes to node `n` from the node before it. */
  ghost predicate Comes(n: Node, a: Arrival)
    requires Codes(n.mode)
  {
    a.Datagram? && Way(n.mode, a) == n.way
  }

  /** Node `n` sent datagram `d` to the node behind it. */
  ghost predicate Sends(n: Node, d: Bytes)
    requires Codes(n.mode)
  {
    exists i :: 0 <= i < |n.End().trace| && n.End().trace[i].Out? && Leaves(n.mode, n.way, n.End().trace[i].m) && n.End().trace[i].m.bytes == d
  }

  /** The codec of the session between `n` and the node behind it. */
  function LinkCodec(n: Node): Codec { Sealer(n.mode, n.coder, n.way).codec }

  /**
    The network between two nodes that share a session: a datagram that arrives is one that was
    sent, or it does not decrypt. What was sent before the loop, the handshake, carries no packets.
   */
  ghost predicate Linked(n: Node, next: Node) {
    && Codes(n.mode) && Codes(next.mode)
    && Opener(next.mode, next.coder, next.way).codec == LinkCodec(n)
    && (forall i | 0 <= i < |next.End().trace| && next.End().trace[i].In? && Comes(next, next.End().trace[i].a) ::
          Delivered(n, next.End().trace[i].a.bytes))
    && (forall m | m in Subs(n.Begin().trace) && Leaves(n.mode, n.way, m) :: LinkCodec(n).unseal(Cut(m.bytes)) == None)
  }

  ghost predicate Delivered(n: Node, d: Bytes)
    requires Codes(n.mode)
  {
    (exists b :: Sends(n, b) && d == Cut(b)) || LinkCodec(n).unseal(d) == None
  }

  /** The plaintexts a node passed on are all among `ps`. */
  ghost predicate PassesOnly(n: Node, ps: seq<Bytes>)
    requires Codes(n.mode)
  {
    forall j | 0 <= j < |n.Entered()| :: n.Passed(j).Some? && n.Passed(j).value in ps
  }

  lemma {:induction false} EnteringSource(m: Mode, w: bool, taken: seq<Arrival>, d: Bytes)
    requires Codes(m) && d in Entering(m, w, taken)
    ensures exists a :: a in taken && Way(m, a) == w && a.bytes == d
  {
    var v, a := taken[..|taken| - 1], taken[|taken| - 1];
    if Way(m, a) == w && a.bytes == d {
      assert a in taken;
    } else {
      EnteringSource(m, w, v, d);
    }
  }

  lemma {:induction false} LeavingHas(m: Mode, w: bool, subs: seq<Msg>, msg: Msg)
    requires Codes(m) && msg in subs && Leaves(m, w, msg)
    ensures msg.bytes in Leaving(m, w, subs)
  {
    if subs[|subs| - 1] != msg {
      LeavingHas(m, w, subs[..|subs| - 1], msg);
    }
  }

  lemma CutWhole(d: Bytes)
    requires |d| <= CAPACITY
    ensures Cut(d) == d
  {
  }

  /** What a node sent decrypts to nothing, or to a packet it passed on. */
  lemma SentDecrypts(n: Node, next: Node, ps: seq<Bytes>, b: Bytes)
    requires n.Valid() && Codes(next.mode) && PassesOnly(n, ps) && (forall p | p in ps :: |p| <= MTU) && (n.mode.Dtls? ==> n.way)
    requires Linked(n, next) && Sends(n, b)
    ensures LinkCodec(n).unseal(Cut(b)).Some? ==> LinkCodec(n).unseal(Cut(b)).value in ps
  {
    var i :| 0 <= i < |n.End().trace| && n.End().trace[i].Out? && Leaves(n.mode, n.way, n.End().trace[i].m) && n.End().trace[i].m.bytes == b;
    SentWas(n, i);
    if n.End().trace[i].m in Subs(n.Events()) {
      LeavingHas(n.mode, n.way, Subs(n.Events()), n.End().trace[i].m);
      LeftDecrypts(n, ps, b);
    }
  }

  lemma LeftDecrypts(n: Node, ps: seq<Bytes>, b: Bytes)
    requires n.Valid() && PassesOnly(n, ps) && (forall p | p in ps :: |p| <= MTU) && (n.mode.Dtls? ==> n.way) && b in n.Left()
    ensures Cut(b) == b && LinkCodec(n).unseal(b).Some? && LinkCodec(n).unseal(b).value in ps
  {
    NodeWays(n);
    var j :| 0 <= j < |n.Left()| && n.Left()[j] == b;
    assert n.Passed(j).Some? && n.Passed(j).value in ps;
    RecordOpens(n, j, n.Passed(j).value);
    CutWhole(b);
  }

  lemma RecordOpens(n: Node, j: nat, p: Bytes)
    requires Clean(n.coder.near) && Clean(n.coder.far) && (n.mode.Dtls? ==> n.way)
    ensures var b := Record(n.mode, n.coder, n.way, j, p);
      LinkCodec(n).unseal(b) == Some(p) && 0 < |b| <= |p| + 45
  {
    assert Sound(LinkCodec(n));
  }

  /** Over one hop: what the next node passes on, the node before it passed on. */
  lemma Hop(n: Node, next: Node, ps: seq<Bytes>)
    requires n.Valid() && next.Valid() && Linked(n, next) && PassesOnly(n, ps) && (forall p | p in ps :: |p| <= MTU)
    requires (n.mode.Dtls? ==> n.way) && (next.mode.Dtls? ==> !next.way)
    ensures PassesOnly(next, ps)
  {
    NodeWays(next);
    forall j | 0 <= j < |next.Entered()|
      ensures next.Passed(j).Some? && next.Passed(j).value in ps
    {
      var d := next.Entered()[j];
      var k := |Subs(next.Events())|;
      EnteringSource(next.mode, next.way, Takes(next.Events())[..k], d);
      var a :| a in Takes(next.Events())[..k] && Way(next.mode, a) == next.way && a.bytes == d;
      EnteredDatagram(next, a);
      TakenReceived(next, a);
      assert Delivered(n, d);
      if b :| Sends(n, b) && d == Cut(b) {
        SentDecrypts(n, next, ps, b);
      }
    }
  }

  /** A packet in a way that opens packets is a datagram. */
  lemma EnteredDatagram(n: Node, a: Arrival)
    requires n.Valid() && (n.mode.Dtls? ==> !n.way) && Way(n.mode, a) == n.way
    requires var k := |Subs(n.Events())|; k <= |Takes(n.Events())| && a in Takes(n.Events())[..k]
    ensures Comes(n, a)
  {
    NodeLedger(n);
    var i :| 0 <= i < |Subs(n.Events())| && Takes(n.Events())[i] == a;
    assert Coded(n.mode, n.coder, n.Begin().peers, Takes(n.Events()), Subs(n.Events()), i);
  }

  // ---------------------------------------------------------------- before the loop

  /** Before an event loop, nothing is written to a TUN device. */
  ghost predicate NoTunYet(s: Sys) {
    s.mode.Setup? || s.mode.Handshake? ==> forall m | m in Subs(s.trace) :: m.ToPeer?
  }

  lemma NoTunStep(s: Sys, l: Label)
    requires Inv(s) && ModeOk(s) && NoTunYet(s)
    ensures NoTunYet(Step(s, l))
  {
    var s' := Step(s, l);
    if s'.mode.Setup? || s'.mode.Handshake? {
      LoopsStay(s, l);
      StepQueues(s, l);
      StepShows(s, l);
      NoTunShown(s, l, s');
    }
  }

  lemma NoTunShown(s: Sys, l: Label, s': Sys)
    requires NoTunYet(s) && (s.mode.Setup? || s.mode.Handshake?) && QueueStep(s, s') && Shows(s, l, s')
    ensures NoTunYet(s')
  {
    var ev := s'.trace[|s.trace|..];
    if ev == [] {
      assert s'.trace == s.trace;
    } else {
      assert s'.trace == s.trace + [ev[0]];
      Added(s.trace, ev[0]);
      ShownToPeer(s, l, s', ev[0]);
    }
  }

  /** A loop is never left for start-up or a handshake. */
  lemma LoopsStay(s: Sys, l: Label)
    requires Step(s, l).mode.Setup? || Step(s, l).mode.Handshake?
    ensures s.mode.Setup? || s.mode.Handshake?
  {
  }

  lemma ShownToPeer(s: Sys, l: Label, s': Sys, ev: Event)
    requires Shows(s, l, s') && (s.mode.Setup? || s.mode.Handshake?) && s'.trace == s.trace + [ev]
    ensures ev.Submit? ==> ev.m.ToPeer?
  {
    assert s'.trace[|s.trace|..] == [ev];
  }

  lemma {:induction false} NoTunRun(s: Sys, ls: seq<Label>)
    requires Inv(s) && ModeOk(s) && NoTunYet(s)
    ensures NoTunYet(Exec(s, ls))
    decreases |ls|
  {
    if ls != [] {
      NoTunStep(s, ls[0]);
      StepKeeps(s, ls[0]);
      ModeOkKeeps(s, ls[0]);
      NoTunRun(Step(s, ls[0]), ls[1..]);
    }
  }

  lemma NoTunBefore(nOps: nat, nRing: nat, peers: map<int, Addr>, before: seq<Label>)
    ensures NoTunYet(Exec(Initial(nOps, nRing, peers), before))
  {
    var s := Initial(nOps, nRing, peers);
    InitialInv(nOps, nRing, peers);
    assert s.trace == [] && Subs([]) == [];
    NoTunRun(s, before);
  }

  // ---------------------------------------------------------------- the whole chain

  /** An edge, forwarders and an edge, with a network between any two neighbours. */
  ghost predicate Path(nodes: seq<Node>) {
    && |nodes| >= 2 && (forall i | 0 <= i < |nodes| :: nodes[i].Valid())
    && nodes[0].mode.Dtls? && nodes[0].way
    && nodes[|nodes| - 1].mode.Dtls? && !nodes[|nodes| - 1].way
    && (forall i | 0 < i < |nodes| - 1 :: nodes[i].mode.Forward?)
    && (forall i, j | 0 <= i < |nodes| && 0 <= j < |nodes| && j == i + 1 :: Linked(nodes[i], nodes[j]))
  }

  /** The packets of an edge's TUN device: each is short and was received. */
  lemma FromTun(n: Node)
    requires n.Valid() && n.mode.Dtls? && n.way
    ensures PassesOnly(n, n.Entered())
    ensures forall p | p in n.Entered() :: |p| <= MTU && Read(n, p)
  {
    NodeWays(n);
    forall p | p in n.Entered()
      ensures |p| <= MTU && Read(n, p)
    {
      var k := |Subs(n.Events())|;
      EnteringSource(n.mode, n.way, Takes(n.Events())[..k], p);
      var a :| a in Takes(n.Events())[..k] && Way(n.mode, a) == n.way && a.bytes == p;
      TakenReceived(n, a);
      var i :| 0 <= i < |n.End().trace| && n.End().trace[i] == In(a);
      assert n.End().trace[i] == In(TunPacket(a.fd, p));
    }
  }

  /** Node `n` read packet `p` from its TUN device. */
  ghost predicate Read(n: Node, p: Bytes) {
    exists i, fd :: 0 <= i < |n.End().trace| && n.End().trace[i] == In(TunPacket(fd, p))
  }

  /** Neighbours of a path. */
  ghost predicate Neighbours(n: Node, next: Node) {
    n.Valid() && next.Valid() && Linked(n, next) && (n.mode.Dtls? ==> n.way) && (next.mode.Dtls? ==> !next.way)
  }

  lemma PathHop(nodes: seq<Node>, i: nat)
    requires Path(nodes) && i + 1 < |nodes|
    ensures Neighbours(nodes[i], nodes[i + 1])
  {
  }

  lemma PathEnds(nodes: seq<Node>)
    requires Path(nodes)
    ensures nodes[0].Valid() && nodes[0].mode.Dtls? && nodes[0].way
    ensures var far := nodes[|nodes| - 1]; far.Valid() && far.mode.Dtls? && !far.way
  {
  }

  /** The nodes up to `i` pass on only packets of `ps`, if the first does. */
  lemma {:induction false} AllPass(nodes: seq<Node>, i: nat, ps: seq<Bytes>)
    requires i < |nodes| && (forall j | 0 <= j < |nodes| :: Codes(nodes[j].mode))
    requires forall j, k | 0 <= j < |nodes| && 0 <= k < |nodes| && k == j + 1 :: Neighbours(nodes[j], nodes[k])
    requires PassesOnly(nodes[0], ps) && (forall p | p in ps :: |p| <= MTU)
    ensures PassesOnly(nodes[i], ps)
  {
    if i > 0 {
      AllPass(nodes, i - 1, ps);
      assert Neighbours(nodes[i - 1], nodes[i]);
      Hop(nodes[i - 1], nodes[i], ps);
    }
  }

  lemma WrittenInLoop(n: Node, m: Msg)
    requires n.Valid() && m.ToTun? && m in Subs(n.End().trace)
    ensures m in Subs(n.Events())
  {
    NoTunBefore(n.nOps, n.nRing, n.peers, n.before);
    NodeLedger(n);
    assert n.End().trace == n.Begin().trace + n.Events();
    SplitTrace(n.Begin().trace, n.Events());
  }

  /** A message an edge wrote to its TUN device is a packet it passed on. */
  lemma WrittenPassed(n: Node, m: Msg)
    requires n.Valid() && n.mode.Dtls? && !n.way && m.ToTun? && m in Subs(n.End().trace)
    ensures exists j :: 0 <= j < |n.Entered()| && n.Passed(j) == Some(m.bytes)
  {
    WrittenInLoop(n, m);
    LeavingHas(n.mode, n.way, Subs(n.Events()), m);
    NodeWays(n);
    var j :| 0 <= j < |n.Left()| && n.Left()[j] == m.bytes;
    assert n.Passed(j) == Some(m.bytes);
  }

  /**
    For any number of forwarders, any kernel schedule on every node and any behaviour of the
    networks: each packet submitted to the far TUN device was read from the near one.
   */
  lemma EndToEnd(nodes: seq<Node>, m: Msg)
    requires Path(nodes) && m.ToTun? && m in Subs(nodes[|nodes| - 1].End().trace)
    ensures Read(nodes[0], m.bytes)
  {
    var near, far := nodes[0], nodes[|nodes| - 1];
    PathEnds(nodes);
    FromTun(near);
    forall j, k | 0 <= j < |nodes| && 0 <= k < |nodes| && k == j + 1
      ensures Neighbours(nodes[j], nodes[k])
    {
      PathHop(nodes, j);
    }
    AllPass(nodes, |nodes| - 1, near.Entered());
    WrittenPassed(far, m);
    var j :| 0 <= j < |far.Entered()| && far.Passed(j) == Some(m.bytes);
  }

  /** The same for what the kernel wrote. */
  lemma EndToEndWritten(nodes: seq<Node>, i: nat)
    requires Path(nodes)
    requires var tr := nodes[|nodes| - 1].End().trace; i < |tr| && tr[i].Out? && tr[i].m.ToTun?
    ensures Read(nodes[0], nodes[|nodes| - 1].End().trace[i].m.bytes)
  {
    var far := nodes[|nodes| - 1];
    PathEnds(nodes);
    NodeLedger(far);
    SentSettled(far.End().trace, i);
    SubmittedSource(far.End().trace, far.End().trace[i].m);
    EndToEnd(nodes, far.End().trace[i].m);
  }

  // ---------------------------------------------------------------- networks that lose nothing

  /** Everything that came to a node for its loop in the way of the chain, in order. */
  ghost function Coming(n: Node): seq<Bytes>
    requires Codes(n.mode)
  {
    Entering(n.mode, n.way, Arrivals(n.Begin().e, n.Begin().e.cq) + Ins(n.Events()))
  }

  /** The network delivers, unchanged and in order, an initial part of what the node before submitted. */
  ghost predicate Faithful(n: Node, next: Node) {
    && Codes(n.mode) && Codes(next.mode)
    && Opener(next.mode, next.coder, next.way).codec == LinkCodec(n)
    && Coming(next) <= n.Left()
  }

  /** The plaintexts a node passed on, in order. */
  ghost function Plaintexts(n: Node): seq<Bytes>
    requires Codes(n.mode)
  {
    seq(|n.Entered()|, (j: nat) => if n.Passed(j).Some? then n.Passed(j).value else [])
  }

  lemma {:induction false} EnteringPrefix(m: Mode, w: bool, a: seq<Arrival>, b: seq<Arrival>)
    requires Codes(m) && a <= b
    ensures Entering(m, w, a) <= Entering(m, w, b)
    decreases |b|
  {
    if |a| < |b| {
      EnteringPrefix(m, w, a, b[..|b| - 1]);
    } else {
      assert a == b;
    }
  }

  /** A node passes on an initial part of what comes to it. */
  lemma EnteredComing(n: Node)
    requires n.Valid()
    ensures n.Entered() <= Coming(n)
  {
    NodeLedger(n);
    NodeWays(n);
    var k := |Subs(n.Events())|;
    var all := Arrivals(n.Begin().e, n.Begin().e.cq) + Ins(n.Events());
    assert Takes(n.Events())[..k] <= all;
    EnteringPrefix(n.mode, n.way, Takes(n.Events())[..k], all);
  }

  /** Over a faithful network the next node passes on an initial part of what the node before passed on. */
  lemma FaithfulHop(n: Node, next: Node)
    requires n.Valid() && next.Valid() && Faithful(n, next)
    requires (n.mode.Dtls? ==> n.way) && (next.mode.Dtls? ==> !next.way)
    ensures Plaintexts(next) <= Plaintexts(n)
  {
    NodeWays(n);
    EnteredComing(next);
    forall j | 0 <= j < |next.Entered()|
      ensures j < |n.Entered()| && n.Passed(j).Some? && next.Passed(j) == n.Passed(j)
    {
      var d := next.Entered()[j];
      assert d == Coming(next)[j] == n.Left()[j];
      RecordOpens(n, j, n.Passed(j).value);
    }
  }

  ghost predicate FaithfulNeighbours(n: Node, next: Node) {
    n.Valid() && next.Valid() && Faithful(n, next) && (n.mode.Dtls? ==> n.way) && (next.mode.Dtls? ==> !next.way)
  }

  lemma {:induction false} FaithfulChain(nodes: seq<Node>, i: nat)
    requires i < |nodes| && (forall j | 0 <= j < |nodes| :: Codes(nodes[j].mode))
    requires forall j, k | 0 <= j < |nodes| && 0 <= k < |nodes| && k == j + 1 :: FaithfulNeighbours(nodes[j], nodes[k])
    ensures Plaintexts(nodes[i]) <= Plaintexts(nodes[0])
  {
    if i > 0 {
      FaithfulChain(nodes, i - 1);
      assert FaithfulNeighbours(nodes[i - 1], nodes[i]);
      FaithfulHop(nodes[i - 1], nodes[i]);
    }
  }

  /**
    Over networks that deliver in order and unchanged, what the far edge submits to its TUN device
    is, in order and packet by packet, an initial part of what came from the near one's.
   */
  lemma EndToEndInOrder(nodes: seq<Node>)
    requires |nodes| >= 2 && (forall j | 0 <= j < |nodes| :: Codes(nodes[j].mode))
    requires forall j, k | 0 <= j < |nodes| && 0 <= k < |nodes| && k == j + 1 :: FaithfulNeighbours(nodes[j], nodes[k])
    requires nodes[0].mode.Dtls? && nodes[|nodes| - 1].mode.Dtls?
    ensures nodes[|nodes| - 1].Left() <= Coming(nodes[0])
  {
    var near, far := nodes[0], nodes[|nodes| - 1];
    assert FaithfulNeighbours(near, nodes[1]) && FaithfulNeighbours(nodes[|nodes| - 2], far);
    FaithfulChain(nodes, |nodes| - 1);
    EnteredComing(near);
    NodeWays(far);
    NearPlain(near);
    FarWritten(far);
  }

  lemma NearPlain(n: Node)
    requires n.mode.Dtls? && n.way
    ensures Plaintexts(n) == n.Entered()
  {
    forall j | 0 <= j < |n.Entered()|
      ensures Plaintexts(n)[j] == n.Entered()[j]
    {
      assert n.Passed(j) == Some(n.Entered()[j]);
    }
  }

  lemma FarWritten(n: Node)
    requires n.mode.Dtls? && !n.way && Matches(n.mode, n.coder, n.way, n.Entered(), n.Left())
    ensures n.Left() == Plaintexts(n)
  {
    forall j | 0 <= j < |n.Left()|
      ensures n.Left()[j] == Plaintexts(n)[j]
    {
      assert n.Passed(j) == Plain(n.mode, n.coder, n.way, n.Entered()[j]);
    }
  }
}
