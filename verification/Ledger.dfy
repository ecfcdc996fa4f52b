/** What the events of a zero-copy run say about packets: order, exact bytes, no invention, no duplication. */
module Ledger {
  import opened Base
  import opened Machine
  import opened CopyRelay
  import opened ZeroCopy

  // ---------------------------------------------------------------- reading a trace

  ghost function Ins(tr: seq<Event>): seq<Arrival> {
    if tr == [] then [] else Ins(tr[..|tr| - 1]) + if tr[|tr| - 1].In? then [tr[|tr| - 1].a] else []
  }

  ghost function Takes(tr: seq<Event>): seq<Arrival> {
    if tr == [] then [] else Takes(tr[..|tr| - 1]) + if tr[|tr| - 1].Take? then [tr[|tr| - 1].a] else []
  }

  ghost function Subs(tr: seq<Event>): seq<Msg> {
    if tr == [] then [] else Subs(tr[..|tr| - 1]) + if tr[|tr| - 1].Submit? then [tr[|tr| - 1].m] else []
  }

  /** How often message `m` was submitted. */
  ghost function Submitted(tr: seq<Event>, m: Msg): nat {
    if tr == [] then 0 else Submitted(tr[..|tr| - 1], m) + if tr[|tr| - 1].Submit? && tr[|tr| - 1].m == m then 1 else 0
  }

  /** How often the kernel sent or gave up message `m`. */
  ghost function Settled(tr: seq<Event>, m: Msg): nat {
    if tr == [] then 0
    else
      var ev := tr[|tr| - 1];
      Settled(tr[..|tr| - 1], m) + if (ev.Out? || ev.Fail?) && ev.m == m then 1 else 0
  }

  /** How often message `m` waits in the outbox. */
  ghost function Waiting(box: map<nat, Msg>, m: Msg): nat { |Tickets(box, m)| }

  ghost function Tickets(box: map<nat, Msg>, m: Msg): set<nat> { set t | t in box && box[t] == m }

  // ---------------------------------------------------------------- the ledger

  /** `msg` is the packet `a`, byte for byte, going to the other side of edge `z`. */
  ghost predicate Relayed(z: Mode, a: Arrival, msg: Msg)
    requires z.Zero?
  {
    && msg.bytes == a.bytes
    && if a.TunPacket? then msg.ToPeer? && msg.fd == z.udpFd else msg.ToTun? && msg.fd == z.tunFd
  }

  ghost predicate Balanced(z: Mode, c: Copier, tr: seq<Event>)
    requires z.Zero?
  {
    && Ins(tr) == Takes(tr) + c.arrived
    && |Subs(tr)| <= |Takes(tr)| <= |Subs(tr)| + 1
    && (!c.halted ==> |Takes(tr)| == |Subs(tr)| + if c.cur.Some? then 1 else 0)
    && (!c.halted && c.cur.Some? ==> c.cur.value == Handling(Takes(tr)[|Subs(tr)|]))
    && (c.halted ==> c.cur == None)
    && (forall i | 0 <= i < |Subs(tr)| :: Relayed(z, Takes(tr)[i], Subs(tr)[i]))
    && (forall m :: Submitted(tr, m) == Settled(tr, m) + Waiting(c.outbox, m))
  }

  // ---------------------------------------------------------------- destinations

  /** The peer after packet `a`: the first datagram fixes it. */
  function PeerNext(p: Addr, a: Arrival): Addr { if p == [] && a.Datagram? then a.src else p }

  /** The peer after the packets `taken`, when it was `p`. */
  function PeerAfter(p: Addr, taken: seq<Arrival>): Addr {
    if taken == [] then p else PeerNext(PeerAfter(p, taken[..|taken| - 1]), taken[|taken| - 1])
  }

  lemma PeerStep(p: Addr, taken: seq<Arrival>, n: nat)
    requires n < |taken|
    ensures PeerAfter(p, taken[..n + 1]) == PeerNext(PeerAfter(p, taken[..n]), taken[n])
  {
    assert taken[..n + 1][..n] == taken[..n];
  }

  /** Message `i`, if it is a datagram, goes to the peer that the packets before it left. */
  ghost predicate SentTo(p: Addr, taken: seq<Arrival>, subs: seq<Msg>, i: nat)
    requires i < |taken| && i < |subs|
  {
    taken[i].TunPacket? ==> subs[i].ToPeer? && subs[i].dest == PeerAfter(p, taken[..i])
  }

  /** Every message so far went to the right peer, and the peer known now is the one of the packets so far. */
  ghost predicate Addressed(z: Mode, p: Addr, c: Copier, taken: seq<Arrival>, subs: seq<Msg>)
    requires z.Zero?
  {
    var n := |subs|;
    && n <= |taken| && (forall i | 0 <= i < n :: SentTo(p, taken, subs, i))
    && (!c.halted ==>
          || PeerOf(c.peers, z.udpFd) == PeerAfter(p, taken[..n])
          || (n < |taken| && PeerOf(c.peers, z.udpFd) == PeerAfter(p, taken[..n + 1])))
  }

  lemma AddressedTake(z: Mode, p: Addr, c: Copier, c': Copier, taken: seq<Arrival>, subs: seq<Msg>, a: Arrival)
    requires z.Zero? && Addressed(z, p, c, taken, subs) && c'.peers == c.peers && (!c'.halted ==> !c.halted && |taken| == |subs|)
    ensures Addressed(z, p, c', taken + [a], subs)
  {
    forall i | 0 <= i < |subs|
      ensures SentTo(p, taken + [a], subs, i)
    {
      assert SentTo(p, taken, subs, i) && (taken + [a])[..i] == taken[..i];
    }
    assert (taken + [a])[..|subs|] == taken[..|subs|];
  }

  lemma AddressedSubmit(z: Mode, p: Addr, c: Copier, c': Copier, taken: seq<Arrival>, subs: seq<Msg>, msg: Msg)
    requires z.Zero? && Addressed(z, p, c, taken, subs) && !c.halted && |taken| == |subs| + 1 && c'.peers == c.peers
    requires msg == MsgFor(z, c.peers, taken[|subs|]) && Fixed(z, c.peers, taken[|subs|])
    ensures Addressed(z, p, c', taken, subs + [msg])
  {
    var n := |subs|;
    PeerStep(p, taken, n);
    forall i | 0 <= i < n + 1
      ensures SentTo(p, taken, subs + [msg], i)
    {
      if i < n {
        assert SentTo(p, taken, subs, i);
      }
    }
  }

  /** The datagram in hand fixes the peer. */
  lemma AddressedPin(z: Mode, p: Addr, c: Copier, c': Copier, taken: seq<Arrival>, subs: seq<Msg>)
    requires z.Zero? && Addressed(z, p, c, taken, subs) && (!c'.halted ==> !c.halted)
    requires c'.peers == c.peers || (|subs| < |taken| && taken[|subs|].Datagram? && c'.peers == Pin(c.peers, z.udpFd, taken[|subs|].src))
    ensures Addressed(z, p, c', taken, subs)
  {
    if |subs| < |taken| {
      PeerStep(p, taken, |subs|);
    }
  }

  lemma AddressedNext(z: Mode, m: Mode, p: Addr, c: Copier, c': Copier, ev: seq<Event>, tr: seq<Event>)
    requires z.Zero? && (m.Setup? || m == z) && Balanced(z, c, tr) && Addressed(z, p, c, Takes(tr), Subs(tr)) && CopyNext(m, c, c', ev)
    ensures Addressed(z, p, c', Takes(tr + ev), Subs(tr + ev))
  {
    if ev == [] {
      assert tr + ev == tr;
      AddressedSilent(z, m, p, c, c', tr);
    } else {
      assert ev == [ev[0]];
      Added(tr, ev[0]);
      assert Takes(tr) + [] == Takes(tr) && Subs(tr) + [] == Subs(tr);
      match ev[0]
      case Take(a) => AddressedTake(z, p, c, c', Takes(tr), Subs(tr), a);
      case Submit(_, msg) => AddressedSubmit(z, p, c, c', Takes(tr), Subs(tr), msg);
      case _ => AddressedPin(z, p, c, c', Takes(tr), Subs(tr));
    }
  }

  lemma AddressedSilent(z: Mode, m: Mode, p: Addr, c: Copier, c': Copier, tr: seq<Event>)
    requires z.Zero? && (m.Setup? || m == z) && Balanced(z, c, tr) && Addressed(z, p, c, Takes(tr), Subs(tr)) && CopyNext(m, c, c', [])
    ensures Addressed(z, p, c', Takes(tr), Subs(tr))
  {
    if c.halted {
      assert c'.halted;
    } else {
      AddressedPin(z, p, c, c', Takes(tr), Subs(tr));
    }
  }

  // ---------------------------------------------------------------- runs

  lemma SliceOn(t: seq<Event>, t': seq<Event>, base: nat)
    requires t <= t' && base <= |t|
    ensures t[base..] + t'[|t|..] == t'[base..]
  {
  }

  lemma Added(tr: seq<Event>, ev: Event)
    ensures Ins(tr + [ev]) == Ins(tr) + if ev.In? then [ev.a] else []
    ensures Takes(tr + [ev]) == Takes(tr) + if ev.Take? then [ev.a] else []
    ensures Subs(tr + [ev]) == Subs(tr) + if ev.Submit? then [ev.m] else []
    ensures forall m :: Submitted(tr + [ev], m) == Submitted(tr, m) + if ev.Submit? && ev.m == m then 1 else 0
    ensures forall m :: Settled(tr + [ev], m) == Settled(tr, m) + if (ev.Out? || ev.Fail?) && ev.m == m then 1 else 0
  {
    assert (tr + [ev])[..|tr + [ev]| - 1] == tr;
  }

  lemma BoxAdd(box: map<nat, Msg>, t: nat, msg: Msg, m: Msg)
    requires t !in box
    ensures Waiting(box[t := msg], m) == Waiting(box, m) + if msg == m then 1 else 0
  {
    assert Tickets(box[t := msg], m) == if msg == m then Tickets(box, m) + {t} else Tickets(box, m);
  }

  lemma BoxRemove(box: map<nat, Msg>, t: nat, m: Msg)
    requires t in box
    ensures Waiting(box, m) == Waiting(box - {t}, m) + if box[t] == m then 1 else 0
  {
    assert Tickets(box - {t}, m) == if box[t] == m then Tickets(box, m) - {t} else Tickets(box, m);
  }

  lemma BalancedStep(z: Mode, m: Mode, c: Copier, c': Copier, ev: Event, tr: seq<Event>)
    requires z.Zero? && (m.Setup? || m == z) && Balanced(z, c, tr) && CopyNext(m, c, c', [ev])
    ensures Balanced(z, c', tr + [ev])
  {
    Added(tr, ev);
    forall x: Msg
      ensures Submitted(tr + [ev], x) == Settled(tr + [ev], x) + Waiting(c'.outbox, x)
    {
      if ev.Submit? {
        BoxAdd(c.outbox, ev.ticket, ev.m, x);
      } else if ev.Out? || ev.Fail? {
        BoxRemove(c.outbox, ev.ticket, x);
      }
    }
    if ev.Submit? {
      assert Relayed(z, c.cur.value.a, ev.m);
    }
    assert Ins(tr + [ev]) == Takes(tr + [ev]) + c'.arrived;
  }

  lemma BalancedNext(z: Mode, m: Mode, c: Copier, c': Copier, ev: seq<Event>, tr: seq<Event>)
    requires z.Zero? && (m.Setup? || m == z) && Balanced(z, c, tr) && CopyNext(m, c, c', ev)
    ensures Balanced(z, c', tr + ev)
  {
    if ev == [] {
      assert tr + ev == tr;
    } else {
      assert ev == [ev[0]];
      BalancedStep(z, m, c, c', ev[0], tr);
    }
  }

  /** Both accounts of the events `tr`. */
  ghost predicate Booked(z: Mode, p: Addr, c: Copier, tr: seq<Event>)
    requires z.Zero?
  {
    Balanced(z, c, tr) && Addressed(z, p, c, Takes(tr), Subs(tr))
  }

  lemma BookedNext(z: Mode, m: Mode, p: Addr, c: Copier, c': Copier, ev: seq<Event>, tr: seq<Event>)
    requires z.Zero? && (m.Setup? || m == z) && Booked(z, p, c, tr) && CopyNext(m, c, c', ev)
    ensures Booked(z, p, c', tr + ev)
  {
    BalancedNext(z, m, c, c', ev, tr);
    AddressedNext(z, m, p, c, c', ev, tr);
  }

  lemma {:induction false} BookedRun(z: Mode, p: Addr, ms: seq<Mode>, cs: seq<Copier>, evs: seq<seq<Event>>, tr: seq<Event>)
    requires z.Zero? && CopyRun(ms, cs, evs) && (forall i | 0 <= i < |ms| :: ms[i].Setup? || ms[i] == z)
    requires Booked(z, p, cs[0], tr)
    ensures Booked(z, p, cs[|evs|], tr + Flat(evs))
    decreases |evs|
  {
    if evs == [] {
      FlatNone(evs, tr);
    } else {
      assert CopyNext(ms[0], cs[0], cs[1], evs[0]);
      BookedNext(z, ms[0], p, cs[0], cs[1], evs[0], tr);
      CopyRunTail(ms, cs, evs);
      BookedRun(z, p, ms[1..], cs[1..], evs[1..], tr + evs[0]);
      FlatCons(evs, tr);
    }
  }

  lemma FlatNone(evs: seq<seq<Event>>, tr: seq<Event>)
    requires evs == []
    ensures tr + Flat(evs) == tr
  {
  }

  lemma FlatCons(evs: seq<seq<Event>>, tr: seq<Event>)
    requires evs != []
    ensures tr + evs[0] + Flat(evs[1..]) == tr + Flat(evs)
  {
  }

  lemma CopyRunTail(ms: seq<Mode>, cs: seq<Copier>, evs: seq<seq<Event>>)
    requires CopyRun(ms, cs, evs) && evs != []
    ensures CopyRun(ms[1..], cs[1..], evs[1..])
  {
    forall i | 0 <= i < |evs[1..]|
      ensures CopyNext(ms[1..][i], cs[1..][i], cs[1..][i + 1], evs[1..][i])
    {
      assert CopyNext(ms[i + 1], cs[i + 1], cs[i + 2], evs[i + 1]);
    }
  }

  /** What an edge `z` whose peer was `p` at first did in a run that led to `s`. */
  ghost predicate RelaysExactly(z: Mode, p: Addr, s: Sys)
    requires z.Zero?
  {
    && |Subs(s.trace)| <= |Takes(s.trace)| <= |Subs(s.trace)| + 1
    && Takes(s.trace) <= Ins(s.trace)
    && (forall i | 0 <= i < |Subs(s.trace)| ::
          Relayed(z, Ins(s.trace)[i], Subs(s.trace)[i]) && SentTo(p, Ins(s.trace), Subs(s.trace), i))
    && (forall m :: Submitted(s.trace, m) == Settled(s.trace, m) + Waiting(Outbox(s.e), m))
    && (s.phase.Top? ==> |Subs(s.trace)| == |Takes(s.trace)|)
  }

  /**
    In every run of the zero-copy edge the submitted messages are, in order and byte for byte,
    the packets received first; those to the peer go to the first address or, without one, to the
    source of the first datagram before them; no message is sent more often than it was submitted;
    and at the head of the loop every packet that was picked up has been submitted exactly once.
   */
  lemma EveryPacketRelayedOnce(z: Mode, nOps: nat, nRing: nat, peers: map<int, Addr>, ls: seq<Label>)
    requires ZeroRun(z, ls)
    ensures RelaysExactly(z, PeerOf(peers, z.udpFd), Exec(Initial(nOps, nRing, peers), ls))
  {
    var s, p := Exec(Initial(nOps, nRing, peers), ls), PeerOf(peers, z.udpFd);
    ZeroCopyRefinesCopying(z, nOps, nRing, peers, ls);
    var ms, cs, evs :| Shows(z, Initial(nOps, nRing, peers), s, ms, cs, evs) && cs[0] == Empty(peers);
    assert Booked(z, p, Empty(peers), []);
    BookedRun(z, p, ms, cs, evs, []);
    assert [] + Flat(evs) == s.trace;
    BalancedGives(z, p, s);
  }

  lemma BalancedGives(z: Mode, p: Addr, s: Sys)
    requires z.Zero? && Balanced(z, Abs(s), s.trace) && Addressed(z, p, Abs(s), Takes(s.trace), Subs(s.trace))
    ensures RelaysExactly(z, p, s)
  {
    forall i | 0 <= i < |Subs(s.trace)|
      ensures Relayed(z, Ins(s.trace)[i], Subs(s.trace)[i]) && SentTo(p, Ins(s.trace), Subs(s.trace), i)
    {
      assert Relayed(z, Takes(s.trace)[i], Subs(s.trace)[i]) && SentTo(p, Takes(s.trace), Subs(s.trace), i);
      assert Ins(s.trace)[..i] == Takes(s.trace)[..i];
    }
  }
}
