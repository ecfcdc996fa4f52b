/** What a run of the DTLS edge or of the forwarder submits for the packets it receives. */
module CodedLedger {
  import opened Base
  import opened Engine
  import opened Machine
  import opened Ownership
  import opened Invariant
  import opened InvariantSteps
  import opened CopyRelay
  import opened RelaySteps
  import opened Ledger
  import opened Integrity
  import opened Sessions

  // ---------------------------------------------------------------- the ledger

  /** The packet fits its buffer, and a forwarder only passes datagrams on. */
  ghost predicate Sized(z: Mode, a: Arrival) {
    |a.bytes| <= (if a.TunPacket? then BUF_SIZE else BUF_SIZE - HEADER) && (z.Forward? ==> a.Datagram?)
  }

  /** Message `i` is the coding of packet `i`, for the other side. */
  ghost predicate Coded(z: Mode, k0: Coder, peers: map<int, Addr>, taken: seq<Arrival>, subs: seq<Msg>, i: nat)
    requires Codes(z) && i < |taken| && i < |subs|
  {
    && CodedAt(z, k0, taken, i).Some?
    && subs[i] == MsgFor(z, peers, taken[i].(bytes := CodedAt(z, k0, taken, i).value))
    && Sized(z, taken[i])
  }

  /** What a trace says: packets received, packets picked up, messages submitted. */
  datatype Books = Books(ins: seq<Arrival>, taken: seq<Arrival>, subs: seq<Msg>)

  ghost function BooksOf(tr: seq<Event>): Books { Books(Ins(tr), Takes(tr), Subs(tr)) }

  ghost function Entered(b: Books, ev: Event): Books {
    match ev
    case In(a) => b.(ins := b.ins + [a])
    case Take(a) => b.(taken := b.taken + [a])
    case Submit(_, m) => b.(subs := b.subs + [m])
    case _ => b
  }

  lemma BooksAdd(tr: seq<Event>, ev: Event)
    ensures BooksOf(tr + [ev]) == Entered(BooksOf(tr), ev)
  {
    Added(tr, ev);
    assert Ins(tr) + [] == Ins(tr) && Takes(tr) + [] == Takes(tr) && Subs(tr) + [] == Subs(tr);
  }

  /** Packets are picked up in order and submitted one by one; `first` were waiting at the beginning. */
  ghost predicate InOrder(first: seq<Arrival>, c: Copier, b: Books) {
    && first + b.ins == b.taken + c.arrived
    && |b.subs| <= |b.taken| <= |b.subs| + 1
    && (c.halted ==> c.cur == None)
    && (!c.halted ==> |b.taken| == |b.subs| + if c.cur.Some? then 1 else 0)
  }

  /** Every message submitted is the coding of its packet. */
  ghost predicate AllCoded(z: Mode, k0: Coder, peers: map<int, Addr>, b: Books)
    requires Codes(z)
  {
    |b.subs| <= |b.taken| && forall i | 0 <= i < |b.subs| :: Coded(z, k0, peers, b.taken, b.subs, i)
  }

  /** `k` are the sessions after the packets coded so far; `coded` says that this includes the one in hand. */
  ghost predicate InStep(z: Mode, k0: Coder, c: Copier, coded: bool, k: Coder, b: Books)
    requires Codes(z)
  {
    var n := |b.subs|;
    && (coded ==> c.cur.Some?)
    && (!c.halted ==>
          && |b.taken| == n + (if c.cur.Some? then 1 else 0)
          && k == CoderAfter(z, k0, if coded then b.taken else b.taken[..n])
          && (c.cur.Some? && !coded ==> c.cur.value == Handling(b.taken[n]))
          && (coded ==> CodedAt(z, k0, b.taken, n).Some? && Sized(z, b.taken[n])
                        && c.cur.value == Handling(b.taken[n].(bytes := CodedAt(z, k0, b.taken, n).value))))
  }

  /** The ledger of a coding node. */
  ghost predicate Kept(z: Mode, k0: Coder, first: seq<Arrival>, c: Copier, coded: bool, k: Coder, b: Books)
    requires Codes(z)
  {
    InOrder(first, c, b) && AllCoded(z, k0, c.peers, b) && InStep(z, k0, c, coded, k, b)
  }

  lemma OrderNext(z: Mode, first: seq<Arrival>, c: Copier, c': Copier, ev: Event, b: Books)
    requires Codes(z) && InOrder(first, c, b) && CopyNext(z, c, c', [ev])
    ensures InOrder(first, c', Entered(b, ev))
  {
    match ev
    case In(a) => assert first + (b.ins + [a]) == (first + b.ins) + [a] == b.taken + (c.arrived + [a]);
    case Take(a) => assert b.taken + c.arrived == (b.taken + [a]) + c.arrived[1..];
    case _ =>
  }

  /** Packets that come later do not change how earlier ones were coded. */
  lemma CodedStays(z: Mode, k0: Coder, taken: seq<Arrival>, a: Arrival, i: nat)
    requires Codes(z) && i < |taken|
    ensures CodedAt(z, k0, taken + [a], i) == CodedAt(z, k0, taken, i)
  {
    assert (taken + [a])[..i] == taken[..i];
  }

  lemma CodedNext(z: Mode, k0: Coder, peers: map<int, Addr>, b: Books, ev: Event)
    requires Codes(z) && AllCoded(z, k0, peers, b)
    requires ev.Submit? ==> |b.subs| < |b.taken| && Coded(z, k0, peers, b.taken, b.subs + [ev.m], |b.subs|)
    ensures AllCoded(z, k0, peers, Entered(b, ev))
  {
    match ev
    case Take(a) => CodedTake(z, k0, peers, b, a);
    case Submit(_, m) => CodedSubmit(z, k0, peers, b, m);
    case _ =>
  }

  lemma CodedTake(z: Mode, k0: Coder, peers: map<int, Addr>, b: Books, a: Arrival)
    requires Codes(z) && AllCoded(z, k0, peers, b)
    ensures AllCoded(z, k0, peers, b.(taken := b.taken + [a]))
  {
    forall i | 0 <= i < |b.subs|
      ensures Coded(z, k0, peers, b.taken + [a], b.subs, i)
    {
      assert Coded(z, k0, peers, b.taken, b.subs, i);
      CodedStays(z, k0, b.taken, a, i);
    }
  }

  lemma CodedSubmit(z: Mode, k0: Coder, peers: map<int, Addr>, b: Books, m: Msg)
    requires Codes(z) && AllCoded(z, k0, peers, b)
    requires |b.subs| < |b.taken| && Coded(z, k0, peers, b.taken, b.subs + [m], |b.subs|)
    ensures AllCoded(z, k0, peers, b.(subs := b.subs + [m]))
  {
    forall i | 0 <= i < |b.subs| + 1
      ensures Coded(z, k0, peers, b.taken, b.subs + [m], i)
    {
      if i < |b.subs| {
        assert Coded(z, k0, peers, b.taken, b.subs, i);
      }
    }
  }

  lemma StepNext(z: Mode, k0: Coder, c: Copier, c': Copier, coded: bool, k: Coder, ev: Event, b: Books)
    requires Codes(z) && InStep(z, k0, c, coded, k, b) && CopyNext(z, c, c', [ev])
    requires (ev.Submit? ==> coded) && (ev.Take? ==> !coded)
    ensures InStep(z, k0, c', coded && c'.cur.Some?, k, Entered(b, ev))
  {
    match ev
    case Take(a) => StepTake(z, k0, c, c', k, a, b);
    case Submit(t, m) => StepSubmit(z, k0, c, c', k, t, m, b);
    case _ =>
  }

  lemma StepTake(z: Mode, k0: Coder, c: Copier, c': Copier, k: Coder, a: Arrival, b: Books)
    requires Codes(z) && InStep(z, k0, c, false, k, b) && CopyNext(z, c, c', [Take(a)])
    ensures InStep(z, k0, c', false, k, b.(taken := b.taken + [a]))
  {
    assert (b.taken + [a])[..|b.subs|] == b.taken[..|b.subs|];
  }

  lemma StepSubmit(z: Mode, k0: Coder, c: Copier, c': Copier, k: Coder, t: nat, m: Msg, b: Books)
    requires Codes(z) && InStep(z, k0, c, true, k, b) && CopyNext(z, c, c', [Submit(t, m)])
    ensures InStep(z, k0, c', false, k, b.(subs := b.subs + [m]))
  {
    assert b.taken[..|b.subs| + 1] == b.taken;
  }

  /** A step of the relay that codes nothing. */
  lemma KeptNext(z: Mode, k0: Coder, first: seq<Arrival>, c: Copier, c': Copier, coded: bool, k: Coder, ev: seq<Event>, tr: seq<Event>)
    requires Codes(z) && Kept(z, k0, first, c, coded, k, BooksOf(tr)) && CopyNext(z, c, c', ev)
    requires ev != [] ==> (ev[0].Submit? ==> coded) && (ev[0].Take? ==> !coded)
    ensures Kept(z, k0, first, c', coded && c'.cur.Some?, k, BooksOf(tr + ev))
  {
    if ev == [] {
      assert tr + ev == tr;
    } else {
      assert ev == [ev[0]];
      BooksAdd(tr, ev[0]);
      OrderNext(z, first, c, c', ev[0], BooksOf(tr));
      CodedNext(z, k0, c.peers, BooksOf(tr), ev[0]);
      StepNext(z, k0, c, c', coded, k, ev[0], BooksOf(tr));
    }
  }

  /** The step that codes the packet in hand. */
  lemma KeptCode(z: Mode, k0: Coder, first: seq<Arrival>, c: Copier, c': Copier, k: Coder, a: Arrival, b: Books)
    requires Codes(z) && Kept(z, k0, first, c, false, k, b) && !c.halted && c.cur == Some(Handling(a)) && Sized(z, a)
    requires Code(z, k, a).coded.Some? && c' == c.(cur := Some(Handling(a.(bytes := Code(z, k, a).coded.value))))
    ensures Kept(z, k0, first, c', true, Code(z, k, a).next, b)
  {
    assert b.taken[..|b.taken| - 1] == b.taken[..|b.subs|] && b.taken[|b.taken| - 1] == a;
  }

  // ---------------------------------------------------------------- the steps of the program

  /** In a coding mode the loop stays what it is, and only coding prepares an operation for sending. */
  lemma ActStays(s: Sys, l: Label)
    requires Codes(s.mode) && l.Act? && !s.phase.Back?
    ensures var s' := Step(s, l);
      s'.mode == s.mode && !s'.phase.Send? && (s.phase.Send? ==> s'.phase.Done? || s'.phase.Top? || s'.phase.Stopped?)
  {
    if s.phase.Send? {
      TransmitLeads(s, s.phase.recv, s.phase.out, l.out);
    } else {
      ActLeads(s, l);
    }
  }

  lemma OtherStays(s: Sys, l: Label)
    requires Codes(s.mode) && !l.Act?
    ensures var s' := Step(s, l);
      s'.mode == s.mode && (s'.phase.Send? <==> s.phase.Send?)
  {
  }

  lemma PhaseStays(s: Sys, l: Label)
    requires Codes(s.mode) && !IsCoding(s, l)
    ensures Step(s, l).mode == s.mode
    ensures Step(s, l).phase.Send? <==> s.phase.Send? && Packet(Step(s, l).e, Step(s, l).phase).Some?
  {
    if l.Act? {
      ActStays(s, l);
    } else {
      OtherStays(s, l);
    }
  }

  /** A packet that is coded fits its buffer. */
  lemma InHandSized(s: Sys, plain: bool, coded: Option<Bytes>)
    requires Inv(s) && s.phase.Back? && Codes(s.mode) && Handle(s, s.phase.op, plain, coded).phase.Send?
    ensures Sized(s.mode, InHand(s))
  {
    CodedHandle(s, s.phase.op, plain, coded);
    assert ShapeOk(s.e.ops[s.phase.op]);
    CarriedFits(s.e, s.phase.op);
  }

  lemma CarriedFits(e: Engine, o: nat)
    requires Loaded(e.At(o)) || ReadDone(e.At(o))
    ensures |Carried(e, o, o).bytes| <= if e.At(o).isMulti then BUF_SIZE - HEADER else BUF_SIZE
  {
  }

  /** The ledger in state `s` of a run, with the events `tr` since it began. */
  ghost predicate Holds(z: Mode, k0: Coder, first: seq<Arrival>, s: Sys, k: Coder, tr: seq<Event>)
    requires Codes(z)
  {
    s.mode == z && Kept(z, k0, first, Abs(s), s.phase.Send?, k, BooksOf(tr))
  }

  /** The ledger goes on with the events of the step from `s` to `s'`. */
  ghost predicate HoldsOn(z: Mode, k0: Coder, first: seq<Arrival>, s: Sys, s': Sys, k: Coder, tr: seq<Event>)
    requires Codes(z)
  {
    s.trace <= s'.trace && Holds(z, k0, first, s', k, tr + s'.trace[|s.trace|..])
  }

  lemma QuietLedger(z: Mode, k0: Coder, first: seq<Arrival>, s: Sys, k: Coder, tr: seq<Event>, l: Label)
    requires Codes(z) && Inv(s) && ModeOk(s) && Holds(z, k0, first, s, k, tr) && !IsCoding(s, l)
    ensures HoldsOn(z, k0, first, s, Step(s, l), k, tr)
  {
    var s' := Step(s, l);
    StepShows(s, l);
    PhaseStays(s, l);
    var ev := s'.trace[|s.trace|..];
    if ev != [] {
      EventsOf(s, l);
    }
    KeptNext(z, k0, first, Abs(s), Abs(s'), s.phase.Send?, k, ev, tr);
  }

  lemma CodingLedger(z: Mode, k0: Coder, first: seq<Arrival>, s: Sys, k: Coder, tr: seq<Event>, l: Label, s': Sys)
    requires Codes(z) && Inv(s) && ModeOk(s) && Holds(z, k0, first, s, k, tr) && IsCoding(s, l)
    requires l.coded == Code(z, k, InHand(s)).coded && s' == Handle(s, s.phase.op, l.plain, l.coded)
    ensures s'.trace == s.trace && Holds(z, k0, first, s', Code(z, k, InHand(s)).next, tr)
  {
    CodedHandleShows(s, s.phase.op, l);
    HandleSilent(s, s.phase.op, l.plain, l.coded);
    if s'.phase.Send? {
      InHandSized(s, l.plain, l.coded);
      KeptCode(z, k0, first, Abs(s), Abs(s'), k, InHand(s), BooksOf(tr));
    } else {
      assert s'.trace[|s.trace|..] == [] && tr + [] == tr;
      KeptNext(z, k0, first, Abs(s), Abs(s'), false, k, [], tr);
    }
  }

  lemma HandleSilent(s: Sys, o: nat, plain: bool, coded: Option<Bytes>)
    ensures Handle(s, o, plain, coded).trace == s.trace && Handle(s, o, plain, coded).mode == s.mode
  {
  }

  lemma LedgerStep(z: Mode, k0: Coder, first: seq<Arrival>, s: Sys, k: Coder, tr: seq<Event>, l: Label)
    requires Codes(z) && Inv(s) && ModeOk(s) && Holds(z, k0, first, s, k, tr)
    requires IsCoding(s, l) ==> l.coded == Code(z, k, InHand(s)).coded
    ensures HoldsOn(z, k0, first, s, Step(s, l), NextCoder(s, k, l), tr)
  {
    if IsCoding(s, l) {
      CodingStep(z, k0, first, s, k, tr, l);
    } else {
      QuietLedger(z, k0, first, s, k, tr, l);
    }
  }

  lemma CodingStep(z: Mode, k0: Coder, first: seq<Arrival>, s: Sys, k: Coder, tr: seq<Event>, l: Label)
    requires Codes(z) && Inv(s) && ModeOk(s) && Holds(z, k0, first, s, k, tr) && IsCoding(s, l)
    requires l.coded == Code(z, k, InHand(s)).coded
    ensures HoldsOn(z, k0, first, s, Step(s, l), NextCoder(s, k, l), tr)
  {
    var s' := Handle(s, s.phase.op, l.plain, l.coded);
    StepAtBack(s, l);
    CodingLedger(z, k0, first, s, k, tr, l, s');
    NoEvents(s.trace, s'.trace, tr);
  }

  lemma NoEvents(t: seq<Event>, t': seq<Event>, tr: seq<Event>)
    requires t' == t
    ensures t <= t' && tr + t'[|t|..] == tr
  {
  }

  /** The ledger of the events since position `base` of the trace. */
  ghost predicate Since(z: Mode, k0: Coder, first: seq<Arrival>, s: Sys, k: Coder, base: nat)
    requires Codes(z)
  {
    base <= |s.trace| && Holds(z, k0, first, s, k, s.trace[base..])
  }

  lemma SinceStep(z: Mode, k0: Coder, first: seq<Arrival>, s: Sys, k: Coder, base: nat, l: Label)
    requires Codes(z) && Inv(s) && ModeOk(s) && Since(z, k0, first, s, k, base)
    requires IsCoding(s, l) ==> l.coded == Code(z, k, InHand(s)).coded
    ensures s.trace <= Step(s, l).trace && Since(z, k0, first, Step(s, l), NextCoder(s, k, l), base)
  {
    LedgerStep(z, k0, first, s, k, s.trace[base..], l);
    SliceOn(s.trace, Step(s, l).trace, base);
  }

  /** The ledger over a whole run. */
  lemma {:induction false} LedgerRun(z: Mode, k0: Coder, first: seq<Arrival>, s: Sys, k: Coder, base: nat, ls: seq<Label>)
      returns (k': Coder)
    requires Codes(z) && Inv(s) && ModeOk(s) && Since(z, k0, first, s, k, base) && CodingRun(s, k, ls)
    ensures s.trace <= Exec(s, ls).trace && Since(z, k0, first, Exec(s, ls), k', base)
    decreases |ls|
  {
    if ls == [] {
      k' := k;
    } else {
      SinceStep(z, k0, first, s, k, base, ls[0]);
      StepKeeps(s, ls[0]);
      ModeOkKeeps(s, ls[0]);
      k' := LedgerRun(z, k0, first, Step(s, ls[0]), NextCoder(s, k, ls[0]), base, ls[1..]);
    }
  }

  // ---------------------------------------------------------------- theorem

  /**
    What a coding node did since its loop began in `s0`: it picked packets up in the order they came,
    submitted one message for each but perhaps the last, and message `i` carries exactly what the
    sessions made of packet `i`, to the other side.
   */
  ghost predicate CodesExactly(s0: Sys, k0: Coder, s: Sys)
    requires Codes(s0.mode)
  {
    s0.trace <= s.trace &&
    var tr := s.trace[|s0.trace|..];
    && s.mode == s0.mode && s.peers == s0.peers
    && Arrivals(s0.e, s0.e.cq) + Ins(tr) == Takes(tr) + Arrivals(s.e, s.e.cq)
    && |Subs(tr)| <= |Takes(tr)| <= |Subs(tr)| + 1
    && (s.phase.Top? ==> |Subs(tr)| == |Takes(tr)|)
    && forall i | 0 <= i < |Subs(tr)| :: Coded(s0.mode, k0, s0.peers, Takes(tr), Subs(tr), i)
  }

  lemma {:induction false} PeersStay(s: Sys, ls: seq<Label>)
    requires Codes(s.mode)
    ensures Exec(s, ls).peers == s.peers
    decreases |ls|
  {
    if ls != [] {
      PeerStays(s, ls[0]);
      PeersStay(Step(s, ls[0]), ls[1..]);
    }
  }

  lemma PeerStays(s: Sys, l: Label)
    requires Codes(s.mode)
    ensures Step(s, l).peers == s.peers && Step(s, l).mode == s.mode
  {
  }

  /** For every run from start-up through a handshake into a coding loop, and every kernel schedule. */
  lemma EveryPacketCodedOnce(nOps: nat, nRing: nat, peers: map<int, Addr>, before: seq<Label>, s0: Sys, k0: Coder, ls: seq<Label>)
    requires s0 == Exec(Initial(nOps, nRing, peers), before) && s0.phase.Top? && Codes(s0.mode)
    requires CodingRun(s0, k0, ls)
    ensures CodesExactly(s0, k0, Exec(s0, ls))
  {
    RunAccounted(nOps, nRing, peers, before);
    LedgerStart(s0, k0);
    var k := LedgerRun(s0.mode, k0, Arrivals(s0.e, s0.e.cq), s0, k0, |s0.trace|, ls);
    PeersStay(s0, ls);
    LedgerGives(s0, k0, Exec(s0, ls), k);
  }

  lemma LedgerStart(s0: Sys, k0: Coder)
    requires Codes(s0.mode) && s0.phase.Top?
    ensures Since(s0.mode, k0, Arrivals(s0.e, s0.e.cq), s0, k0, |s0.trace|)
  {
    var first := Arrivals(s0.e, s0.e.cq);
    assert first + [] == [] + first;
    assert s0.trace[|s0.trace|..] == [];
  }

  lemma LedgerGives(s0: Sys, k0: Coder, s: Sys, k: Coder)
    requires Codes(s0.mode) && s0.trace <= s.trace && s.peers == s0.peers
    requires Since(s0.mode, k0, Arrivals(s0.e, s0.e.cq), s, k, |s0.trace|)
    ensures CodesExactly(s0, k0, s)
  {
  }
}
