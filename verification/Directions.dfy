/**
  The two ways through a coding node. In each way the messages that leave are, in order, the
  records of the plaintexts of the packets that entered, numbered without a gap.
 */
module Directions {
  import opened Base
  import opened Machine
  import opened Connection
  import opened CopyRelay
  import opened Sessions
  import opened CodedLedger

  /** The MTU of the TUN device. */
  const MTU := 1400

  /** Decryption undoes encryption, a record is at most 45 bytes longer than its packet, a plaintext no longer than its record. */
  ghost predicate Sound(c: Codec) {
    && (forall k: nat, p: Bytes :: c.unseal(c.seal(k, p)) == Some(p) && 0 < |c.seal(k, p)| <= |p| + 45)
    && (forall d: Bytes :: c.unseal(d).Some? ==> |c.unseal(d).value| <= |d|)
  }

  /** A session that can be used: its codec is sound and nothing is left in its BIOs. */
  ghost predicate Clean(x: Session) { Sound(x.codec) && x.wbio == [] && x.rbio == [] }

  lemma SealClean(x: Session, p: Bytes)
    requires Clean(x) && 0 < |p| <= BUF_SIZE - 45
    ensures Seal(x, p) == (x.(sealed := x.sealed + 1), Some(x.codec.seal(x.sealed, p)))
  {
    var record := x.codec.seal(x.sealed, p);
    assert 0 < |record| <= |p| + 45;
    ConcatOne(record);
    assert [] + record == record;
  }

  lemma SealEmpty(x: Session)
    ensures Seal(x, []).1 == None
  {
  }

  lemma OpenClean(x: Session, d: Bytes)
    requires x.rbio == []
    ensures Open(x, d) == (x, if d == [] then None else x.codec.unseal(d))
  {
    if d != [] {
      assert [] + d == d;
      assert d[|d|..] == [];
    }
  }

  // ---------------------------------------------------------------- one packet

  /** The way of a packet: out of the TUN device of an edge, or from the inbound to the outbound side of a forwarder. */
  predicate Way(m: Mode, a: Arrival)
    requires Codes(m)
  {
    if m.Dtls? then a.TunPacket? else a.fd == m.inFd
  }

  /** The session that opens packets of a way; an edge does not open TUN packets. */
  function Opener(m: Mode, k: Coder, w: bool): Session { if m.Dtls? || w then k.near else k.far }

  /** The session that seals packets of a way; an edge does not seal what it writes to the TUN device. */
  function Sealer(m: Mode, k: Coder, w: bool): Session { if m.Dtls? || !w then k.near else k.far }

  function Plain(m: Mode, k: Coder, w: bool, d: Bytes): Option<Bytes> {
    if m.Dtls? && w then Some(d) else Opener(m, k, w).codec.unseal(d)
  }

  /** The bytes that leave for plaintext `p` as number `j` of its way. */
  function Record(m: Mode, k: Coder, w: bool, j: nat, p: Bytes): Bytes {
    if m.Dtls? && !w then p else Sealer(m, k, w).codec.seal(Sealer(m, k, w).sealed + j, p)
  }

  /** `k` after `out` packets were sealed in the one way and `back` in the other. */
  function Counted(m: Mode, k: Coder, out: nat, back: nat): Coder {
    if m.Dtls? then k.(near := k.near.(sealed := k.near.sealed + out))
    else Coder(k.near.(sealed := k.near.sealed + back), k.far.(sealed := k.far.sealed + out))
  }

  ghost predicate Small(z: Mode, a: Arrival) { Sized(z, a) && (a.TunPacket? ==> |a.bytes| <= MTU) }

  /** One packet of a node whose sessions are clean. */
  lemma CodeClean(m: Mode, k: Coder, a: Arrival)
    requires Codes(m) && Clean(k.near) && Clean(k.far) && Small(m, a) && Code(m, k, a).coded.Some?
    ensures var w := Way(m, a);
      && Plain(m, k, w, a.bytes).Some?
      && Code(m, k, a).coded.value == Record(m, k, w, 0, Plain(m, k, w, a.bytes).value)
      && Code(m, k, a).next == Counted(m, k, if w then 1 else 0, if w then 0 else 1)
  {
    if m.Dtls? {
      if a.TunPacket? {
        if a.bytes == [] {
          SealEmpty(k.near);
        } else {
          SealClean(k.near, a.bytes);
        }
      } else {
        OpenClean(k.near, a.bytes);
      }
    } else {
      var x, y := if a.fd == m.inFd then k.near else k.far, if a.fd == m.inFd then k.far else k.near;
      OpenClean(x, a.bytes);
      assert x.codec.unseal(a.bytes).Some? ==> |x.codec.unseal(a.bytes).value| <= |a.bytes|;
      SealClean(y, x.codec.unseal(a.bytes).value);
    }
  }

  // ---------------------------------------------------------------- sequences of packets

  /** The packets that entered in way `w`, in order. */
  function Entering(m: Mode, w: bool, taken: seq<Arrival>): seq<Bytes>
    requires Codes(m)
  {
    if taken == [] then []
    else
      var a := taken[|taken| - 1];
      Entering(m, w, taken[..|taken| - 1]) + if Way(m, a) == w then [a.bytes] else []
  }

  /** Message `msg` leaves in way `w`. */
  predicate Leaves(m: Mode, w: bool, msg: Msg)
    requires Codes(m)
  {
    if m.Dtls? then msg.ToPeer? == w else msg.ToPeer? && msg.fd == if w then m.outFd else m.inFd
  }

  /** The messages that left in way `w`, in order. */
  function Leaving(m: Mode, w: bool, subs: seq<Msg>): seq<Bytes>
    requires Codes(m)
  {
    if subs == [] then []
    else
      var msg := subs[|subs| - 1];
      Leaving(m, w, subs[..|subs| - 1]) + if Leaves(m, w, msg) then [msg.bytes] else []
  }

  /** What leaves in way `w` are the records of what entered, one by one. */
  ghost predicate Matches(m: Mode, k: Coder, w: bool, entering: seq<Bytes>, leaving: seq<Bytes>) {
    && |leaving| == |entering|
    && forall j | 0 <= j < |leaving| ::
         Plain(m, k, w, entering[j]).Some? && leaving[j] == Record(m, k, w, j, Plain(m, k, w, entering[j]).value)
  }

  /** The two sides of a forwarder are different sockets. */
  predicate TwoSided(m: Mode) { m.Forward? ==> m.inFd != m.outFd }

  lemma MsgLeaves(m: Mode, peers: map<int, Addr>, a: Arrival, w: bool)
    requires Codes(m) && TwoSided(m)
    ensures Leaves(m, w, MsgFor(m, peers, a)) <==> Way(m, a) == w
  {
  }

  /** Coding with counted sessions is coding with the first ones under a later number. */
  lemma CountedCodes(m: Mode, k: Coder, out: nat, back: nat, w: bool, d: Bytes, p: Bytes)
    ensures Plain(m, Counted(m, k, out, back), w, d) == Plain(m, k, w, d)
    ensures Record(m, Counted(m, k, out, back), w, 0, p) == Record(m, k, w, if w then out else back, p)
  {
  }

  lemma CountedTwice(m: Mode, k: Coder, out: nat, back: nat, w: bool)
    ensures var k1 := Counted(m, k, out, back);
      Counted(m, k1, if w then 1 else 0, if w then 0 else 1)
        == if w then Counted(m, k, out + 1, back) else Counted(m, k, out, back + 1)
  {
  }

  lemma MatchesMore(m: Mode, k: Coder, w: bool, entering: seq<Bytes>, leaving: seq<Bytes>, d: Bytes)
    requires Matches(m, k, w, entering, leaving) && Plain(m, k, w, d).Some?
    ensures Matches(m, k, w, entering + [d], leaving + [Record(m, k, w, |entering|, Plain(m, k, w, d).value)])
  {
  }

  /** Sessions and messages after `taken`, one message for each packet. */
  ghost predicate BothWays(m: Mode, k: Coder, taken: seq<Arrival>, subs: seq<Msg>)
    requires Codes(m)
  {
    && CoderAfter(m, k, taken) == Counted(m, k, |Entering(m, true, taken)|, |Entering(m, false, taken)|)
    && forall w :: Matches(m, k, w, Entering(m, w, taken), Leaving(m, w, subs))
  }

  /** The first `n` messages of a ledger, in both ways. */
  lemma {:induction false} WaysExact(m: Mode, k: Coder, peers: map<int, Addr>, taken: seq<Arrival>, subs: seq<Msg>, n: nat)
    requires Codes(m) && TwoSided(m) && Clean(k.near) && Clean(k.far) && n <= |subs| <= |taken|
    requires AllSmall(m, k, peers, taken, subs)
    ensures BothWays(m, k, taken[..n], subs[..n])
  {
    if n == 0 {
      NoneYet(m, k, taken[..0], subs[..0]);
    } else {
      WaysExact(m, k, peers, taken, subs, n - 1);
      SmallAt(m, k, peers, taken, subs, n - 1);
      WayNext(m, k, peers, taken, subs, n - 1);
    }
  }

  /** The messages are codings of packets that fit. */
  ghost predicate AllSmall(m: Mode, k: Coder, peers: map<int, Addr>, taken: seq<Arrival>, subs: seq<Msg>)
    requires Codes(m)
  {
    |subs| <= |taken| && forall i | 0 <= i < |subs| :: Coded(m, k, peers, taken, subs, i) && Small(m, taken[i])
  }

  lemma SmallAt(m: Mode, k: Coder, peers: map<int, Addr>, taken: seq<Arrival>, subs: seq<Msg>, i: nat)
    requires Codes(m) && AllSmall(m, k, peers, taken, subs) && i < |subs|
    ensures Coded(m, k, peers, taken, subs, i) && Small(m, taken[i])
  {
  }

  lemma WayNext(m: Mode, k: Coder, peers: map<int, Addr>, taken: seq<Arrival>, subs: seq<Msg>, n: nat)
    requires Codes(m) && TwoSided(m) && Clean(k.near) && Clean(k.far) && n < |subs| <= |taken|
    requires Coded(m, k, peers, taken, subs, n) && Small(m, taken[n]) && BothWays(m, k, taken[..n], subs[..n])
    ensures BothWays(m, k, taken[..n + 1], subs[..n + 1])
  {
    WayStep(m, k, peers, taken[..n], subs[..n], taken[n], subs[n]);
    assert taken[..n + 1] == taken[..n] + [taken[n]];
    assert subs[..n + 1] == subs[..n] + [subs[n]];
  }

  lemma NoneYet(m: Mode, k: Coder, taken: seq<Arrival>, subs: seq<Msg>)
    requires Codes(m) && taken == [] && subs == []
    ensures BothWays(m, k, taken, subs)
  {
  }

  lemma WayStep(m: Mode, k: Coder, peers: map<int, Addr>, taken: seq<Arrival>, subs: seq<Msg>, a: Arrival, msg: Msg)
    requires Codes(m) && TwoSided(m) && Clean(k.near) && Clean(k.far) && Small(m, a)
    requires BothWays(m, k, taken, subs)
    requires Code(m, CoderAfter(m, k, taken), a).coded.Some?
    requires msg == MsgFor(m, peers, a.(bytes := Code(m, CoderAfter(m, k, taken), a).coded.value))
    ensures BothWays(m, k, taken + [a], subs + [msg])
  {
    var w, k1 := Way(m, a), CoderAfter(m, k, taken);
    var out, back := |Entering(m, true, taken)|, |Entering(m, false, taken)|;
    assert (taken + [a])[..|taken|] == taken && (subs + [msg])[..|subs|] == subs;
    CodeClean(m, k1, a);
    var p := Plain(m, k1, w, a.bytes).value;
    CountedCodes(m, k, out, back, w, a.bytes, p);
    CountedTwice(m, k, out, back, w);
    MsgLeaves(m, peers, a.(bytes := Code(m, k1, a).coded.value), w);
    MsgLeaves(m, peers, a.(bytes := Code(m, k1, a).coded.value), !w);
    MatchesMore(m, k, w, Entering(m, w, taken), Leaving(m, w, subs), a.bytes);
    assert Entering(m, !w, taken + [a]) == Entering(m, !w, taken);
    assert Leaving(m, !w, subs + [msg]) == Leaving(m, !w, subs);
    forall v: bool
      ensures Matches(m, k, v, Entering(m, v, taken + [a]), Leaving(m, v, subs + [msg]))
    {
      assert v == w || v == !w;
    }
  }
}
