/**
  The two DTLS sessions of a node as they are used by the event loops: each packet is encrypted
  with dtls_encrypt_packet and each datagram decrypted with dtls_decrypt_packet, on the BIOs that
  earlier packets left behind.
 */
module Sessions {
  import opened Base
  import opened Machine
  import opened Connection
  import opened CopyRelay
  import opened RelaySteps

  // ---------------------------------------------------------------- one session

  /** What SSL does to packets on one session; `seal` numbers its records. */
  datatype Codec = Codec(seal: (nat, Bytes) -> Bytes, unseal: Bytes -> Option<Bytes>)

  datatype Session = Session(codec: Codec, sealed: nat, wbio: Bytes, rbio: Bytes)

  /** dtls_encrypt_packet of `p` into a buffer of BUF_SIZE bytes. */
  function Seal(x: Session, p: Bytes): (Session, Option<Bytes>) {
    var (w, r) := Encrypt(x.wbio, WriteReply(|p|, [x.codec.seal(x.sealed, p)]), BUF_SIZE);
    (x.(wbio := w, sealed := x.sealed + 1), r)
  }

  /** SSL's answers to the record `d`: one plaintext, or an error. */
  function Answers(c: Codec, d: Bytes): seq<ReadReply> {
    var r := if c.unseal(d).Some? then ReadReply(|d|, c.unseal(d).value, NoError) else ReadReply(|d|, [], OtherError);
    [r, r, r, r, r]
  }

  /** dtls_decrypt_packet of `d`. */
  function Open(x: Session, d: Bytes): (Session, Option<Bytes>) {
    var (b, r) := Decrypt(x.rbio, d, Answers(x.codec, x.rbio + d));
    (x.(rbio := b), r)
  }

  // ---------------------------------------------------------------- the sessions of a node

  /** An edge has the session `near`; a forwarder has `near` on its inbound and `far` on its outbound socket. */
  datatype Coder = Coder(near: Session, far: Session)

  /** What coding one packet gives: the sessions afterwards, and what the loop gets from the codec. */
  datatype Coding = Coding(next: Coder, plain: bool, coded: Option<Bytes>)

  /** The codec calls a node makes for a packet. */
  function Code(m: Mode, k: Coder, a: Arrival): Coding
    requires Codes(m)
  {
    if m.Dtls? then
      var (x, r) := if a.TunPacket? then Seal(k.near, a.bytes) else Open(k.near, a.bytes);
      Coding(k.(near := x), true, r)
    else if a.fd == m.inFd then
      var (x, p) := Open(k.near, a.bytes);
      if p.None? || p.value == [] then Coding(k.(near := x), false, None)
      else
        var (y, r) := Seal(k.far, p.value);
        Coding(Coder(x, y), true, r)
    else
      var (x, p) := Open(k.far, a.bytes);
      if p.None? || p.value == [] then Coding(k.(far := x), false, None)
      else
        var (y, r) := Seal(k.near, p.value);
        Coding(Coder(y, x), true, r)
  }

  /** The sessions after a sequence of packets. */
  function CoderAfter(m: Mode, k: Coder, taken: seq<Arrival>): Coder
    requires Codes(m)
  {
    if taken == [] then k
    else Code(m, CoderAfter(m, k, taken[..|taken| - 1]), taken[|taken| - 1]).next
  }

  /** What the codec gives for packet `i`, after the packets before it. */
  function CodedAt(m: Mode, k: Coder, taken: seq<Arrival>, i: nat): Option<Bytes>
    requires Codes(m) && i < |taken|
  {
    Code(m, CoderAfter(m, k, taken[..i]), taken[i]).coded
  }

  // ---------------------------------------------------------------- coding runs

  /** The packet the program codes next. */
  ghost function InHand(s: Sys): Arrival
    requires s.phase.Back?
  {
    Carried(s.e, s.phase.op, s.phase.op)
  }

  ghost function NextCoder(s: Sys, k: Coder, l: Label): Coder {
    if IsCoding(s, l) then Code(s.mode, k, InHand(s)).next else k
  }

  /** Whenever a packet is coded, the codec answers as the sessions of the node do, for the packet in memory. */
  ghost predicate CodingRun(s: Sys, k: Coder, ls: seq<Label>)
    decreases |ls|
  {
    ls != [] ==>
      && (IsCoding(s, ls[0]) ==>
            var c := Code(s.mode, k, InHand(s)); ls[0].plain == c.plain && ls[0].coded == c.coded)
      && CodingRun(Machine.Step(s, ls[0]), NextCoder(s, k, ls[0]), ls[1..])
  }

  /** The same labels, with the answers the sessions give. */
  ghost function Tuned(s: Sys, k: Coder, ls: seq<Label>): seq<Label>
    decreases |ls|
  {
    if ls == [] then []
    else
      var l := if IsCoding(s, ls[0]) then
          var c := Code(s.mode, k, InHand(s)); ls[0].(plain := c.plain, coded := c.coded)
        else ls[0];
      [l] + Tuned(Machine.Step(s, l), NextCoder(s, k, l), ls[1..])
  }

  /** Every schedule of the kernel and the environment has a coding run. */
  lemma {:induction false} TunedIsCoding(s: Sys, k: Coder, ls: seq<Label>)
    ensures CodingRun(s, k, Tuned(s, k, ls)) && |Tuned(s, k, ls)| == |ls|
    decreases |ls|
  {
    if ls != [] {
      var l := Tuned(s, k, ls)[0];
      assert Tuned(s, k, ls)[1..] == Tuned(Machine.Step(s, l), NextCoder(s, k, l), ls[1..]);
      TunedIsCoding(Machine.Step(s, l), NextCoder(s, k, l), ls[1..]);
    }
  }
}
