/**
  A DTLS connection: SSL is a machine that consumes bytes of the read BIO and appends records
  to the write BIO. What it does at each call is an input, so every statement holds for every SSL.
 */
module Connection {
  import opened Base

  // ---------------------------------------------------------------- SSL and its BIOs

  datatype SslError = NoError | WantRead | WantWrite | ZeroReturn | OtherError

  /** One call into SSL: bytes eaten from the read BIO, records appended to the write BIO, result. */
  datatype SslReply = SslReply(eats: nat, records: seq<Bytes>, ret: int, err: SslError)

  function Concat(parts: seq<Bytes>): Bytes {
    if parts == [] then [] else parts[0] + Concat(parts[1..])
  }

  lemma {:induction false} ConcatAppend(a: seq<Bytes>, b: seq<Bytes>)
    ensures Concat(a + b) == Concat(a) + Concat(b)
  {
    if a == [] {
      assert a + b == b;
    } else {
      assert (a + b)[1..] == a[1..] + b;
      ConcatAppend(a[1..], b);
      assert a[0] + (Concat(a[1..]) + Concat(b)) == (a[0] + Concat(a[1..])) + Concat(b);
    }
  }

  lemma ConcatOne(b: Bytes)
    ensures Concat([b]) == b
  {
    assert Concat([b][1..]) == [];
  }

  /** BIO_read of at most `size` bytes: the chunk and what stays. */
  function Drain(bio: Bytes, size: nat): (r: (Bytes, Bytes))
    ensures r.0 + r.1 == bio && |r.0| <= size
    ensures r.1 == [] <==> |bio| <= size
  {
    if |bio| <= size then (bio, []) else (bio[..size], bio[size..])
  }

  // ---------------------------------------------------------------- handshake: the state it works on

  datatype Received = Received(fd: int, src: Addr, data: Bytes)

  /** The environment of one turn: SSL's reply, whether the send was accepted, what was received. */
  datatype Turn = Turn(reply: SslReply, accepted: bool, got: Option<Received>)

  datatype Verdict = Going | Success | Failure

  datatype Hs = Hs(
    addr: Addr,
    rbio: Bytes,
    wbio: Bytes,
    sent: seq<(Addr, Bytes)>,  // datagrams submitted, with their destination
    produced: Bytes,           // everything SSL ever appended to the write BIO
    drops: nat)                // datagrams that arrived on another socket

  /** SSL_do_handshake: consumes from the read BIO, appends to the write BIO. */
  function Call(h: Hs, reply: SslReply): Hs {
    var flight := Concat(reply.records);
    h.(rbio := if reply.eats <= |h.rbio| then h.rbio[reply.eats..] else [],
       wbio := h.wbio + flight, produced := h.produced + flight)
  }

  /** The send part of a turn: at most one datagram of at most BUF_SIZE bytes. */
  function SendPart(h: Hs): Hs {
    if h.wbio == [] then h
    else h.(sent := h.sent + [(h.addr, Drain(h.wbio, BUF_SIZE).0)], wbio := Drain(h.wbio, BUF_SIZE).1)
  }

  /** The receive part of a turn, when SSL wants to read. */
  function ReceivePart(h: Hs, fd: int, got: Option<Received>): (Hs, Verdict) {
    if h.rbio != [] || got.None? then (h, Failure)
    else if got.value.fd != fd then (h.(drops := h.drops + 1), Going)
    else (h.(addr := if h.addr == [] then got.value.src else h.addr, rbio := h.rbio + got.value.data), Going)
  }

  /** One turn of the loop of do_dtls_handshake on socket `fd`. */
  function Step(h: Hs, fd: int, t: Turn): (Hs, Verdict) {
    var called := Call(h, t.reply);
    if called.wbio != [] && !t.accepted then (called.(wbio := Drain(called.wbio, BUF_SIZE).1), Failure)
    else
      var after := SendPart(called);
      if t.reply.ret == 1 then (after, Success)
      else if t.reply.ret == 0 then (after, Failure)
      else
        match t.reply.err
        case WantRead => ReceivePart(after, fd, t.got)
        case WantWrite => if after.wbio != [] then (after, Failure) else (after, Going)
        case _ => (after, Failure)
  }

  /** The whole loop; `Going` when the environment's turns are used up and the driver still waits. */
  function Run(h: Hs, fd: int, turns: seq<Turn>): (Hs, Verdict)
    decreases |turns|
  {
    if turns == [] then (h, Going)
    else
      var (h1, v) := Step(h, fd, turns[0]);
      if v == Going then Run(h1, fd, turns[1..]) else (h1, v)
  }

  // ---------------------------------------------------------------- handshake: output

  ghost function Payloads(sent: seq<(Addr, Bytes)>): Bytes {
    if sent == [] then [] else sent[0].1 + Payloads(sent[1..])
  }

  lemma {:induction false} PayloadsAppend(sent: seq<(Addr, Bytes)>, a: Addr, b: Bytes)
    ensures Payloads(sent + [(a, b)]) == Payloads(sent) + b
  {
    if sent == [] {
      assert sent + [(a, b)] == [(a, b)];
      assert Payloads([(a, b)][1..]) == [];
    } else {
      assert (sent + [(a, b)])[1..] == sent[1..] + [(a, b)];
      PayloadsAppend(sent[1..], a, b);
    }
  }

  /** The bytes sent, in order, followed by what is in the write BIO, are the bytes SSL produced. */
  ghost predicate OutputConserved(h: Hs) { Payloads(h.sent) + h.wbio == h.produced }

  lemma SendConserves(h: Hs)
    requires OutputConserved(h)
    ensures OutputConserved(SendPart(h))
  {
    if h.wbio != [] {
      var (chunk, rest) := Drain(h.wbio, BUF_SIZE);
      PayloadsAppend(h.sent, h.addr, chunk);
      assert Payloads(h.sent) + chunk + rest == Payloads(h.sent) + (chunk + rest);
    }
  }

  /** The chunk that was taken from the write BIO for a send the kernel refused; the driver then fails. */
  ghost function Refused(h: Hs, fd: int, turns: seq<Turn>): Bytes
    decreases |turns|
  {
    if turns == [] then []
    else
      var called := Call(h, turns[0].reply);
      if called.wbio != [] && !turns[0].accepted then Drain(called.wbio, BUF_SIZE).0
      else if Step(h, fd, turns[0]).1 == Going then Refused(Step(h, fd, turns[0]).0, fd, turns[1..])
      else []
  }

  lemma CallConserves(h: Hs, reply: SslReply)
    requires OutputConserved(h)
    ensures OutputConserved(Call(h, reply))
  {
    var flight := Concat(reply.records);
    assert Payloads(h.sent) + (h.wbio + flight) == Payloads(h.sent) + h.wbio + flight;
  }

  lemma StepConserves(h: Hs, fd: int, t: Turn)
    requires OutputConserved(h) && (t.accepted || Call(h, t.reply).wbio == [])
    ensures OutputConserved(Step(h, fd, t).0)
  {
    CallConserves(h, t.reply);
    SendConserves(Call(h, t.reply));
  }

  /**
    In every run the bytes sent, in order, then the one chunk of a refused send, then what is left
    in the write BIO, are exactly the bytes SSL produced.
   */
  lemma {:induction false} HandshakeOutput(h: Hs, fd: int, turns: seq<Turn>)
    requires OutputConserved(h)
    ensures var h' := Run(h, fd, turns).0;
      Payloads(h'.sent) + Refused(h, fd, turns) + h'.wbio == h'.produced
    ensures (forall i | 0 <= i < |turns| :: turns[i].accepted) ==> Refused(h, fd, turns) == []
    decreases |turns|
  {
    if turns == [] {
      Insert(Payloads(h.sent), h.wbio);
    } else {
      var called := Call(h, turns[0].reply);
      if called.wbio != [] && !turns[0].accepted {
        RefusedConserves(h, fd, turns[0]);
      } else {
        StepConserves(h, fd, turns[0]);
        var (h1, v) := Step(h, fd, turns[0]);
        if v == Going {
          HandshakeOutput(h1, fd, turns[1..]);
        } else {
          Insert(Payloads(h1.sent), h1.wbio);
        }
      }
    }
  }

  lemma Insert(a: Bytes, b: Bytes)
    ensures a + [] + b == a + b
  {
  }

  lemma RefusedConserves(h: Hs, fd: int, t: Turn)
    requires OutputConserved(h) && Call(h, t.reply).wbio != [] && !t.accepted
    ensures var (h1, v) := Step(h, fd, t);
      v == Failure && Payloads(h1.sent) + Drain(Call(h, t.reply).wbio, BUF_SIZE).0 + h1.wbio == h1.produced
  {
    CallConserves(h, t.reply);
    var called := Call(h, t.reply);
    var (chunk, rest) := Drain(called.wbio, BUF_SIZE);
    assert Payloads(called.sent) + chunk + rest == Payloads(called.sent) + (chunk + rest);
  }

  // ---------------------------------------------------------------- handshake: whole records

  /** The write BIO is empty after a turn exactly when what SSL produced in it fits one datagram. */
  lemma FlightFitsIff(h: Hs, fd: int, t: Turn)
    requires h.wbio == []
    ensures Step(h, fd, t).0.wbio == [] <==> |Concat(t.reply.records)| <= BUF_SIZE
  {
    var called := Call(h, t.reply);
    assert called.wbio == Concat(t.reply.records);
  }

  /** Each datagram is the concatenation of whole records. */
  ghost predicate WholeRecords(sent: seq<(Addr, Bytes)>, flights: seq<seq<Bytes>>) {
    |sent| == |flights| && forall i | 0 <= i < |sent| :: sent[i].1 == Concat(flights[i])
  }

  /** The flights of the first `k` turns, one for each turn that produced output. */
  ghost function Flights(turns: seq<Turn>, k: nat): seq<seq<Bytes>>
    requires k <= |turns|
  {
    if k == 0 then [] else Flight(turns[0]) + Flights(turns[1..], k - 1)
  }

  ghost function Flight(t: Turn): seq<seq<Bytes>> {
    if Concat(t.reply.records) == [] then [] else [t.reply.records]
  }

  lemma FittingSend(h: Hs, records: seq<Bytes>, flights: seq<seq<Bytes>>)
    requires WholeRecords(h.sent, flights) && h.wbio == Concat(records) && |h.wbio| <= BUF_SIZE
    ensures SendPart(h).wbio == []
    ensures WholeRecords(SendPart(h).sent, flights + if Concat(records) == [] then [] else [records])
  {
    assert flights + [] == flights;
  }

  /** The send of turn `t` is accepted, and what SSL produced in it fits one datagram. */
  ghost predicate Fits(t: Turn) { t.accepted && |Concat(t.reply.records)| <= BUF_SIZE }

  lemma FittingStep(h: Hs, fd: int, t: Turn, flights: seq<seq<Bytes>>, h1: Hs, v: Verdict)
    requires h.wbio == [] && WholeRecords(h.sent, flights) && Fits(t) && (h1, v) == Step(h, fd, t)
    ensures h1.wbio == [] && WholeRecords(h1.sent, flights + Flight(t))
  {
    assert Call(h, t.reply).wbio == Concat(t.reply.records);
    FittingSend(Call(h, t.reply), t.reply.records, flights);
  }

  /** The first turn, and the rest of the run after it. */
  lemma FittingTurn(h: Hs, fd: int, turns: seq<Turn>, flights: seq<seq<Bytes>>) returns (h1: Hs, v: Verdict)
    requires h.wbio == [] && WholeRecords(h.sent, flights) && turns != [] && Fits(turns[0])
    ensures h1.wbio == [] && WholeRecords(h1.sent, flights + Flight(turns[0]))
    ensures Run(h, fd, turns) == if v == Going then Run(h1, fd, turns[1..]) else (h1, v)
  {
    var r := Step(h, fd, turns[0]);
    h1, v := r.0, r.1;
    FittingStep(h, fd, turns[0], flights, h1, v);
  }

  /**
    When every flight fits a datagram, the write BIO is empty whenever the driver waits or ends, and
    every datagram carries whole records, one flight each, as section 4.1.1 of RFC 6347 requires.
   */
  lemma {:induction false} HandshakeSendsWholeRecords(h: Hs, fd: int, turns: seq<Turn>, flights: seq<seq<Bytes>>)
      returns (k: nat, all: seq<seq<Bytes>>)
    requires h.wbio == [] && WholeRecords(h.sent, flights)
    requires forall i | 0 <= i < |turns| :: Fits(turns[i])
    ensures Run(h, fd, turns).0.wbio == []
    ensures k <= |turns| && all == flights + Flights(turns, k) && WholeRecords(Run(h, fd, turns).0.sent, all)
    decreases |turns|
  {
    if turns == [] {
      k, all := 0, flights;
    } else {
      var h1, v := FittingTurn(h, fd, turns, flights);
      if v == Going {
        k, all := HandshakeSendsWholeRecords(h1, fd, turns[1..], flights + Flight(turns[0]));
        FlightsCons(turns, k, flights);
        k := k + 1;
      } else {
        FlightsCons(turns, 0, flights);
        k, all := 1, flights + Flight(turns[0]);
      }
    }
  }

  lemma FlightsCons(turns: seq<Turn>, k: nat, flights: seq<seq<Bytes>>)
    requires k < |turns|
    ensures flights + Flights(turns, k + 1) == (flights + Flight(turns[0])) + Flights(turns[1..], k)
    ensures flights + Flights(turns, 1) == flights + Flight(turns[0])
  {
    assert Flights(turns[1..], 0) == [];
  }

  /** A record ends after `x` bytes of `records`, or none has begun. */
  ghost predicate Boundary(records: seq<Bytes>, x: nat) {
    exists k :: 0 <= k <= |records| && |Concat(records[..k])| == x
  }

  /** Every datagram begins and ends where records do. */
  ghost predicate Unsplit(records: seq<Bytes>, datagrams: seq<Bytes>) {
    forall i | 0 <= i <= |datagrams| :: Boundary(records, |Concat(datagrams[..i])|)
  }

  /** How many of the first records fit into `room` bytes. */
  function Fitting(records: seq<Bytes>, room: nat): (k: nat)
    ensures k <= |records|
  {
    if records == [] || |records[0]| > room then 0 else 1 + Fitting(records[1..], room - |records[0]|)
  }

  /**
    At every turn the records that wait, `pending` and the new ones, fit one datagram or fill it
    exactly at the end of a record.
   */
  ghost predicate NeverCut(pending: seq<Bytes>, turns: seq<Turn>)
    decreases |turns|
  {
    turns != [] ==>
      var all := pending + turns[0].reply.records;
      if |Concat(all)| <= BUF_SIZE then NeverCut([], turns[1..])
      else
        var k := Fitting(all, BUF_SIZE);
        |Concat(all[..k])| == BUF_SIZE && NeverCut(all[k..], turns[1..])
  }

  /** All records of the turns, in order. */
  ghost function Made(turns: seq<Turn>): seq<Bytes> {
    if turns == [] then [] else turns[0].reply.records + Made(turns[1..])
  }

  /** The datagrams of turns whose sends are accepted, from what the write BIO holds. */
  ghost function Datagrams(wbio: Bytes, turns: seq<Turn>): seq<Bytes>
    decreases |turns|
  {
    if turns == [] then []
    else
      var full := wbio + Concat(turns[0].reply.records);
      (if full == [] then [] else [Drain(full, BUF_SIZE).0]) + Datagrams(Drain(full, BUF_SIZE).1, turns[1..])
  }

  /** The number of turns the driver goes through. */
  ghost function Played(h: Hs, fd: int, turns: seq<Turn>): (n: nat)
    ensures n <= |turns|
    decreases |turns|
  {
    if turns == [] then 0
    else
      var (h1, v) := Step(h, fd, turns[0]);
      1 + if v == Going then Played(h1, fd, turns[1..]) else 0
  }

  ghost function Bodies(sent: seq<(Addr, Bytes)>): seq<Bytes> { seq(|sent|, i requires 0 <= i < |sent| => sent[i].1) }

  lemma StepDatagram(h: Hs, fd: int, t: Turn)
    requires t.accepted
    ensures var h1, full := Step(h, fd, t).0, h.wbio + Concat(t.reply.records);
      && h1.wbio == Drain(full, BUF_SIZE).1
      && Bodies(h1.sent) == Bodies(h.sent) + if full == [] then [] else [Drain(full, BUF_SIZE).0]
  {
    var after := SendPart(Call(h, t.reply));
    assert Step(h, fd, t).0.sent == after.sent && Step(h, fd, t).0.wbio == after.wbio;
  }

  /** What a run sends depends only on the replies of the turns it goes through. */
  lemma {:induction false} RunDatagrams(h: Hs, fd: int, turns: seq<Turn>)
    requires forall i | 0 <= i < |turns| :: turns[i].accepted
    ensures Bodies(Run(h, fd, turns).0.sent) == Bodies(h.sent) + Datagrams(h.wbio, turns[..Played(h, fd, turns)])
    decreases |turns|
  {
    if turns != [] {
      var (h1, v) := Step(h, fd, turns[0]);
      var n := Played(h, fd, turns);
      StepDatagram(h, fd, turns[0]);
      if v == Going {
        RunDatagrams(h1, fd, turns[1..]);
      }
      DatagramsCons(h, h1, turns, n);
    }
  }

  lemma DatagramsCons(h: Hs, h1: Hs, turns: seq<Turn>, n: nat)
    requires 0 < n <= |turns|
    requires var full := h.wbio + Concat(turns[0].reply.records);
      && h1.wbio == Drain(full, BUF_SIZE).1
      && Bodies(h1.sent) == Bodies(h.sent) + if full == [] then [] else [Drain(full, BUF_SIZE).0]
    ensures Bodies(h.sent) + Datagrams(h.wbio, turns[..n]) == Bodies(h1.sent) + Datagrams(h1.wbio, turns[1..][..n - 1])
    ensures n == 1 ==> Bodies(h1.sent) + Datagrams(h1.wbio, turns[1..][..n - 1]) == Bodies(h1.sent)
  {
    assert turns[..n][0] == turns[0] && turns[..n][1..] == turns[1..][..n - 1];
  }

  lemma {:induction false} ConcatMonotone(records: seq<Bytes>, i: nat, k: nat)
    requires i <= k <= |records|
    ensures |Concat(records[..i])| <= |Concat(records[..k])|
  {
    ConcatAppend(records[..i], records[i..k]);
    assert records[..i] + records[i..k] == records[..k];
  }

  /** No other number of records has the length of the room, if the fitting ones leave some. */
  lemma {:induction false} FittingIs(records: seq<Bytes>, room: nat)
    ensures var k := Fitting(records, room);
      && |Concat(records[..k])| <= room
      && (k < |records| ==> |Concat(records[..k + 1])| > room)
  {
    if records != [] {
      ConcatOne(records[0]);
      assert records[..1] == [records[0]];
      if |records[0]| <= room {
        var k := Fitting(records[1..], room - |records[0]|);
        FittingIs(records[1..], room - |records[0]|);
        assert records[..k + 1][1..] == records[1..][..k];
        if k < |records[1..]| {
          assert records[..k + 2][1..] == records[1..][..k + 1];
        }
      }
    }
  }

  /** The records before and behind a boundary can be looked at separately. */
  lemma BoundaryShift(a: seq<Bytes>, b: seq<Bytes>, y: nat)
    ensures Boundary(a + b, |Concat(a)| + y) <==> Boundary(b, y)
  {
    if Boundary(b, y) {
      BoundaryBehind(a, b, y);
    }
    if Boundary(a + b, |Concat(a)| + y) {
      BoundaryWithin(a, b, y);
    }
  }

  lemma BoundaryBehind(a: seq<Bytes>, b: seq<Bytes>, y: nat)
    requires Boundary(b, y)
    ensures Boundary(a + b, |Concat(a)| + y)
  {
    var k :| 0 <= k <= |b| && |Concat(b[..k])| == y;
    BehindLength(a, b, k);
    BoundaryAt(a + b, |a| + k);
  }

  lemma BehindLength(a: seq<Bytes>, b: seq<Bytes>, k: nat)
    requires k <= |b|
    ensures |Concat((a + b)[..|a| + k])| == |Concat(a)| + |Concat(b[..k])|
  {
    assert (a + b)[..|a| + k] == a + b[..k];
    ConcatAppend(a, b[..k]);
  }

  lemma BoundaryAt(records: seq<Bytes>, k: nat)
    requires k <= |records|
    ensures Boundary(records, |Concat(records[..k])|)
  {
  }

  lemma BoundaryWithin(a: seq<Bytes>, b: seq<Bytes>, y: nat)
    requires Boundary(a + b, |Concat(a)| + y)
    ensures Boundary(b, y)
  {
    var k :| 0 <= k <= |a + b| && |Concat((a + b)[..k])| == |Concat(a)| + y;
    if k <= |a| {
      assert (a + b)[..k] == a[..k] && a[..|a|] == a;
      ConcatMonotone(a, k, |a|);
      BoundaryAt(b, 0);
    } else {
      assert |a| + (k - |a|) == k;
      BehindLength(a, b, k - |a|);
      BoundaryAt(b, k - |a|);
    }
  }

  lemma UnsplitShift(a: seq<Bytes>, b: seq<Bytes>, d: Bytes, tail: seq<Bytes>)
    requires |Concat(a)| == |d|
    ensures Unsplit(a + b, [d] + tail) <==> Unsplit(b, tail)
  {
    var ds := [d] + tail;
    forall i | 0 <= i <= |tail|
      ensures |Concat(ds[..i + 1])| == |d| + |Concat(tail[..i])|
      ensures Boundary(a + b, |Concat(ds[..i + 1])|) <==> Boundary(b, |Concat(tail[..i])|)
    {
      assert ds[..i + 1] == [d] + tail[..i];
      ConcatOne(d);
      ConcatAppend([d], tail[..i]);
      BoundaryShift(a, b, |Concat(tail[..i])|);
    }
    assert |Concat((a + b)[..0])| == 0 == |Concat(ds[..0])|;
    if Unsplit(b, tail) {
      forall i | 0 <= i <= |ds|
        ensures Boundary(a + b, |Concat(ds[..i])|)
      {
        if i > 0 {
          assert Boundary(b, |Concat(tail[..i - 1])|);
        }
      }
    }
    if Unsplit(a + b, ds) {
      forall i | 0 <= i <= |tail|
        ensures Boundary(b, |Concat(tail[..i])|)
      {
        assert Boundary(a + b, |Concat(ds[..i + 1])|);
      }
    }
  }

  /** A datagram that is filled in the middle of a record is cut there for good. */
  lemma CutInside(all: seq<Bytes>, later: seq<Bytes>)
    requires |Concat(all)| > BUF_SIZE && |Concat(all[..Fitting(all, BUF_SIZE)])| != BUF_SIZE
    ensures !Boundary(all + later, BUF_SIZE)
  {
    var k := Fitting(all, BUF_SIZE);
    FittingIs(all, BUF_SIZE);
    assert all[..|all|] == all;
    forall i | 0 <= i <= |all + later|
      ensures |Concat((all + later)[..i])| != BUF_SIZE
    {
      if i <= |all| {
        assert (all + later)[..i] == all[..i];
        if i <= k { ConcatMonotone(all, i, k); } else { ConcatMonotone(all, k + 1, i); }
      } else {
        assert (all + later)[..|all|] == all;
        ConcatMonotone(all + later, |all|, i);
      }
    }
  }

  /** The waiting records fit one datagram, or none of their bytes is left to send. */
  lemma UnsplitFits(all: seq<Bytes>, later: seq<Bytes>, tail: seq<Bytes>)
    requires |Concat(all)| <= BUF_SIZE
    ensures var full := Concat(all);
      Unsplit(all + later, (if full == [] then [] else [full]) + tail) <==> Unsplit(later, tail)
  {
    var full := Concat(all);
    if full == [] {
      assert [] + tail == tail;
      forall i | 0 <= i <= |tail|
        ensures Boundary(all + later, |Concat(tail[..i])|) <==> Boundary(later, |Concat(tail[..i])|)
      {
        BoundaryShift(all, later, |Concat(tail[..i])|);
      }
    } else {
      UnsplitShift(all, later, full, tail);
    }
  }

  lemma UnsplitCut(all: seq<Bytes>, later: seq<Bytes>, d: Bytes, tail: seq<Bytes>)
    requires |Concat(all)| > BUF_SIZE && |d| == BUF_SIZE && |Concat(all[..Fitting(all, BUF_SIZE)])| != BUF_SIZE
    ensures !Unsplit(all + later, [d] + tail)
  {
    CutInside(all, later);
    assert ([d] + tail)[..1] == [d];
    ConcatOne(d);
    assert !Boundary(all + later, |Concat(([d] + tail)[..1])|);
  }

  lemma UnsplitFull(all: seq<Bytes>, k: nat, later: seq<Bytes>, d: Bytes, tail: seq<Bytes>)
    requires k <= |all| && |Concat(all[..k])| == |d|
    ensures Unsplit(all + later, [d] + tail) <==> Unsplit(all[k..] + later, tail)
  {
    assert all + later == all[..k] + (all[k..] + later);
    UnsplitShift(all[..k], all[k..] + later, d, tail);
  }

  /** What is left of the write BIO after a datagram filled with `k` whole records. */
  lemma LeftOver(all: seq<Bytes>, k: nat)
    requires k <= |all| && |Concat(all[..k])| == BUF_SIZE < |Concat(all)|
    ensures Drain(Concat(all), BUF_SIZE).1 == Concat(all[k..])
  {
    ConcatAppend(all[..k], all[k..]);
    assert all[..k] + all[k..] == all;
  }

  /** One turn: what is sent of the waiting records `all`, and what is left for later. */
  lemma UnsplitTurn(all: seq<Bytes>, later: seq<Bytes>, tail: seq<Bytes>)
    ensures var full, k := Concat(all), Fitting(all, BUF_SIZE);
      Unsplit(all + later, (if full == [] then [] else [Drain(full, BUF_SIZE).0]) + tail) <==>
        if |full| <= BUF_SIZE then Unsplit(later, tail)
        else |Concat(all[..k])| == BUF_SIZE && Unsplit(all[k..] + later, tail)
  {
    var full, k := Concat(all), Fitting(all, BUF_SIZE);
    if |full| <= BUF_SIZE {
      UnsplitFits(all, later, tail);
    } else if |Concat(all[..k])| == BUF_SIZE {
      UnsplitFull(all, k, later, Drain(full, BUF_SIZE).0, tail);
    } else {
      UnsplitCut(all, later, Drain(full, BUF_SIZE).0, tail);
    }
  }

  lemma {:induction false} UnsplitIff(pending: seq<Bytes>, turns: seq<Turn>)
    ensures Unsplit(pending + Made(turns), Datagrams(Concat(pending), turns)) <==> NeverCut(pending, turns)
    decreases |turns|
  {
    if turns == [] {
      NothingSent(pending + Made(turns));
    } else {
      var all, later := pending + turns[0].reply.records, Made(turns[1..]);
      var full, k := Concat(all), Fitting(all, BUF_SIZE);
      ConcatAppend(pending, turns[0].reply.records);
      assert pending + Made(turns) == all + later;
      UnsplitTurn(all, later, Datagrams(Drain(full, BUF_SIZE).1, turns[1..]));
      if |full| <= BUF_SIZE {
        UnsplitIff([], turns[1..]);
        assert [] + later == later;
      } else if |Concat(all[..k])| == BUF_SIZE {
        UnsplitIff(all[k..], turns[1..]);
        LeftOver(all, k);
      }
    }
  }

  lemma NothingSent(records: seq<Bytes>)
    ensures Unsplit(records, [])
  {
    assert |Concat(records[..0])| == 0;
  }

  /**
    In every run whose sends are accepted, all datagrams begin and end at record boundaries, as
    section 4.1.1 of RFC 6347 requires, if and only if at each turn the records that wait fit one
    datagram or fill it exactly at the end of a record.
   */
  lemma WholeRecordsIff(h: Hs, fd: int, turns: seq<Turn>)
    requires h.wbio == [] && h.sent == [] && forall i | 0 <= i < |turns| :: turns[i].accepted
    ensures var ts := turns[..Played(h, fd, turns)];
      Unsplit(Made(ts), Bodies(Run(h, fd, turns).0.sent)) <==> NeverCut([], ts)
  {
    var ts := turns[..Played(h, fd, turns)];
    RunDatagrams(h, fd, turns);
    assert Bodies(h.sent) == [] && [] + Datagrams([], ts) == Datagrams([], ts);
    UnsplitIff([], ts);
    assert [] + Made(ts) == Made(ts);
  }

  /** Two records of 1000 bytes: the first datagram holds one record and 600 bytes of the next. */
  lemma SplitRecordExample(a: Bytes, b: Bytes, h: Hs, fd: int)
    requires |a| == 1000 && |b| == 1000 && h.wbio == [] && h.sent == []
    ensures var h1 := Step(h, fd, Turn(SslReply(0, [a, b], -1, WantRead), true, None)).0;
      h1.sent == [(h.addr, a + b[..600])] && h1.wbio == b[600..]
  {
    ConcatOne(b);
    assert [a, b][1..] == [b];
    assert Concat([a, b]) == a + b;
    assert (a + b)[..1600] == a + b[..600];
    assert (a + b)[1600..] == b[600..];
    var called := Call(h, SslReply(0, [a, b], -1, WantRead));
    assert called.wbio == a + b;
    assert SendPart(called).sent == [(h.addr, a + b[..600])];
  }

  // ---------------------------------------------------------------- handshake: input and peer

  /** The read BIO holds the unread end of one datagram. */
  ghost predicate OneDatagram(rbio: Bytes, last: Bytes) { |rbio| <= |last| && rbio == last[|last| - |rbio|..] }

  /** The last datagram the driver passed to SSL. */
  ghost function LastData(last: Bytes, fd: int, turns: seq<Turn>, h: Hs): Bytes
    decreases |turns|
  {
    if turns == [] then last
    else
      var t := turns[0];
      var (h1, v) := Step(h, fd, t);
      var now := if v == Going && t.reply.err == WantRead && t.got.Some? && t.got.value.fd == fd then t.got.value.data else last;
      if v == Going then LastData(now, fd, turns[1..], h1) else now
  }

  /** In every run the read BIO never holds bytes of more than one datagram. */
  lemma {:induction false} HandshakeInput(h: Hs, fd: int, turns: seq<Turn>, last: Bytes)
    requires OneDatagram(h.rbio, last)
    ensures OneDatagram(Run(h, fd, turns).0.rbio, LastData(last, fd, turns, h))
    decreases |turns|
  {
    if turns != [] {
      var t := turns[0];
      var (h1, v) := Step(h, fd, t);
      var now := if v == Going && t.reply.err == WantRead && t.got.Some? && t.got.value.fd == fd then t.got.value.data else last;
      StepInput(h, fd, t, last);
      if v == Going {
        HandshakeInput(h1, fd, turns[1..], now);
      }
    }
  }

  lemma StepInput(h: Hs, fd: int, t: Turn, last: Bytes)
    requires OneDatagram(h.rbio, last)
    ensures var (h1, v) := Step(h, fd, t);
      OneDatagram(h1.rbio, if v == Going && t.reply.err == WantRead && t.got.Some? && t.got.value.fd == fd then t.got.value.data else last)
  {
    var eaten := Call(h, t.reply).rbio;
    assert OneDatagram(eaten, last);
  }

  /** The datagrams the driver looks at in its turns, in order. */
  ghost function Consumed(h: Hs, fd: int, turns: seq<Turn>): seq<Received>
    decreases |turns|
  {
    if turns == [] then []
    else
      var (h1, v) := Step(h, fd, turns[0]);
      if v != Going then []
      else (if turns[0].reply.err == WantRead && turns[0].got.Some? then [turns[0].got.value] else []) + Consumed(h1, fd, turns[1..])
  }

  /** How many of the datagrams came on other sockets. */
  ghost function Foreign(fd: int, got: seq<Received>): nat {
    if got == [] then 0 else Foreign(fd, got[..|got| - 1]) + if got[|got| - 1].fd != fd then 1 else 0
  }

  lemma {:induction false} ForeignAppend(fd: int, a: seq<Received>, b: seq<Received>)
    ensures Foreign(fd, a + b) == Foreign(fd, a) + Foreign(fd, b)
    decreases |b|
  {
    if b == [] {
      assert a + b == a;
    } else {
      assert (a + b)[..|a + b| - 1] == a + b[..|b| - 1];
      ForeignAppend(fd, a, b[..|b| - 1]);
    }
  }

  /** The driver drops exactly the datagrams of other sockets. */
  lemma {:induction false} RunDrops(h: Hs, fd: int, turns: seq<Turn>)
    ensures Run(h, fd, turns).0.drops == h.drops + Foreign(fd, Consumed(h, fd, turns))
    decreases |turns|
  {
    if turns != [] {
      var (h1, v) := Step(h, fd, turns[0]);
      StepDrops(h, fd, turns[0]);
      if v == Going {
        RunDrops(h1, fd, turns[1..]);
        var now := if turns[0].reply.err == WantRead && turns[0].got.Some? then [turns[0].got.value] else [];
        ForeignAppend(fd, now, Consumed(h1, fd, turns[1..]));
        ForeignFew(fd, now);
      }
    }
  }

  lemma ForeignFew(fd: int, got: seq<Received>)
    requires |got| <= 1
    ensures Foreign(fd, got) == if got != [] && got[0].fd != fd then 1 else 0
  {
    if got != [] {
      assert got[..0] == [];
    }
  }

  lemma StepDrops(h: Hs, fd: int, t: Turn)
    ensures var (h1, v) := Step(h, fd, t);
      h1.drops == h.drops + if v == Going && t.reply.err == WantRead && t.got.Some? && t.got.value.fd != fd then 1 else 0
  {
  }

  /** The source of the first datagram on socket `fd`, unless the address was `p` before. */
  function FirstSource(p: Addr, fd: int, got: seq<Received>): (r: Addr)
    ensures p != [] ==> r == p
    decreases |got|
  {
    if got == [] then p
    else FirstSource(if p == [] && got[0].fd == fd then got[0].src else p, fd, got[1..])
  }

  lemma {:induction false} FirstSourceAppend(p: Addr, fd: int, a: seq<Received>, b: seq<Received>)
    ensures FirstSource(p, fd, a + b) == FirstSource(FirstSource(p, fd, a), fd, b)
    decreases |a|
  {
    if a == [] {
      assert a + b == b;
    } else {
      assert (a + b)[1..] == a[1..] + b;
      FirstSourceAppend(if p == [] && a[0].fd == fd then a[0].src else p, fd, a[1..], b);
    }
  }

  /** An address that was found is the source of a datagram on `fd`, and none on `fd` before it had one. */
  lemma {:induction false} FirstSourceIs(fd: int, got: seq<Received>)
    ensures var r := FirstSource([], fd, got);
      if r == [] then forall i | 0 <= i < |got| && got[i].fd == fd :: got[i].src == []
      else exists i :: IsFirst(fd, got, r, i)
    decreases |got|
  {
    if got != [] && !(got[0].fd == fd && got[0].src != []) {
      FirstSourceIs(fd, got[1..]);
      var r := FirstSource([], fd, got[1..]);
      if r == [] {
        forall i | 0 <= i < |got| && got[i].fd == fd
          ensures got[i].src == []
        {
          if i > 0 { assert got[i] == got[1..][i - 1]; }
        }
      } else {
        var i :| IsFirst(fd, got[1..], r, i);
        assert forall j | 0 < j < |got| :: got[j] == got[1..][j - 1];
        assert IsFirst(fd, got, r, i + 1);
      }
    } else if got != [] {
      assert IsFirst(fd, got, got[0].src, 0);
    }
  }

  ghost predicate IsFirst(fd: int, got: seq<Received>, r: Addr, i: int) {
    0 <= i < |got| && got[i].fd == fd && got[i].src == r
    && forall j | 0 <= j < i && got[j].fd == fd :: got[j].src == []
  }

  // ---------------------------------------------------------------- handshake: when it ends, and how

  /** What the write BIO holds before turn `k`, when a datagram was taken from it in each turn before. */
  ghost function Left(wbio: Bytes, turns: seq<Turn>, k: nat): Bytes
    requires k <= |turns|
    decreases k, 0
  {
    if k == 0 then wbio else Drain(Held(wbio, turns, k - 1), BUF_SIZE).1
  }

  /** What the write BIO holds when SSL has returned in turn `k`. */
  ghost function Held(wbio: Bytes, turns: seq<Turn>, k: nat): Bytes
    requires k < |turns|
    decreases k, 1
  {
    Left(wbio, turns, k) + Concat(turns[k].reply.records)
  }

  /** The bytes that turn `t` passes on to SSL. */
  ghost function Passed(fd: int, t: Turn): Bytes {
    if t.reply.err == WantRead && t.got.Some? && t.got.value.fd == fd then t.got.value.data else []
  }

  /** What the read BIO holds before turn `k`. */
  ghost function Waiting(rbio: Bytes, fd: int, turns: seq<Turn>, k: nat): Bytes
    requires k <= |turns|
    decreases k, 0
  {
    if k == 0 then rbio else Unread(rbio, fd, turns, k - 1) + Passed(fd, turns[k - 1])
  }

  /** What the read BIO holds when SSL has returned in turn `k`. */
  ghost function Unread(rbio: Bytes, fd: int, turns: seq<Turn>, k: nat): Bytes
    requires k < |turns|
    decreases k, 1
  {
    Eaten(Waiting(rbio, fd, turns, k), turns[k].reply.eats)
  }

  /** There is nothing to send in turn `k`, or the send is accepted. */
  ghost predicate SendOk(h: Hs, turns: seq<Turn>, k: nat)
    requires k < |turns|
  {
    Held(h.wbio, turns, k) == [] || turns[k].accepted
  }

  /** Turn `k` is followed by another: SSL is not done, and what it asked for could be done. */
  ghost predicate GoesOn(h: Hs, fd: int, turns: seq<Turn>, k: nat)
    requires k < |turns|
  {
    var reply := turns[k].reply;
    && SendOk(h, turns, k) && reply.ret != 0 && reply.ret != 1
    && if reply.err == WantRead then Unread(h.rbio, fd, turns, k) == [] && turns[k].got.Some?
       else reply.err == WantWrite && |Held(h.wbio, turns, k)| <= BUF_SIZE
  }

  /** SSL completes the handshake in turn `k`, and its last flight is accepted. */
  ghost predicate Completes(h: Hs, fd: int, turns: seq<Turn>, k: nat)
    requires k < |turns|
  {
    SendOk(h, turns, k) && turns[k].reply.ret == 1
  }

  /**
    Turn `k` fails: the send is refused, SSL gives up, it asks for input while input waits, nothing is
    received, it asks for output while output waits, or it reports another error.
   */
  ghost predicate Breaks(h: Hs, fd: int, turns: seq<Turn>, k: nat)
    requires k < |turns|
  {
    var reply := turns[k].reply;
    || !SendOk(h, turns, k)
    || reply.ret == 0
    || (reply.ret != 1 && reply.err == WantRead && (Unread(h.rbio, fd, turns, k) != [] || turns[k].got.None?))
    || (reply.ret != 1 && reply.err == WantWrite && |Held(h.wbio, turns, k)| > BUF_SIZE)
    || (reply.ret != 1 && reply.err != WantRead && reply.err != WantWrite)
  }

  ghost predicate AllGoOn(h: Hs, fd: int, turns: seq<Turn>, k: nat)
    requires k <= |turns|
  {
    forall j | 0 <= j < k :: GoesOn(h, fd, turns, j)
  }

  /** Some turn completes the handshake, and every turn before it goes on. */
  ghost predicate Succeeds(h: Hs, fd: int, turns: seq<Turn>) {
    exists k :: 0 <= k < |turns| && Completes(h, fd, turns, k) && AllGoOn(h, fd, turns, k)
  }

  /** Some turn fails, and every turn before it goes on. */
  ghost predicate Fails(h: Hs, fd: int, turns: seq<Turn>) {
    exists k :: 0 <= k < |turns| && Breaks(h, fd, turns, k) && AllGoOn(h, fd, turns, k)
  }

  /** The datagrams submitted in the first `n` turns: each goes to the first source of those looked at before. */
  ghost function Letters(h: Hs, fd: int, turns: seq<Turn>, n: nat): seq<(Addr, Bytes)>
    requires n <= |turns|
  {
    if n == 0 then []
    else
      var full := Held(h.wbio, turns, n - 1);
      Letters(h, fd, turns, n - 1) +
      if full == [] || !turns[n - 1].accepted then []
      else [(FirstSource(h.addr, fd, Consumed(h, fd, turns[..n - 1])), Drain(full, BUF_SIZE).0)]
  }

  /** A run over `a + b` is a run over `a`, and one over `b` from where that goes on. */
  lemma {:induction false} RunAppend(h: Hs, fd: int, a: seq<Turn>, b: seq<Turn>)
    ensures Run(h, fd, a + b) == if Run(h, fd, a).1 == Going then Run(Run(h, fd, a).0, fd, b) else Run(h, fd, a)
    decreases |a|
  {
    if a == [] {
      assert a + b == b;
    } else {
      FirstOf(a, b);
      if Step(h, fd, a[0]).1 == Going {
        RunAppend(Step(h, fd, a[0]).0, fd, a[1..], b);
      }
    }
  }

  lemma FirstOf(a: seq<Turn>, b: seq<Turn>)
    requires a != []
    ensures (a + b)[0] == a[0] && (a + b)[1..] == a[1..] + b
  {
  }

  lemma {:induction false} PlayedAppend(h: Hs, fd: int, a: seq<Turn>, b: seq<Turn>)
    ensures Played(h, fd, a + b) == if Run(h, fd, a).1 == Going then |a| + Played(Run(h, fd, a).0, fd, b) else Played(h, fd, a)
    decreases |a|
  {
    if a == [] {
      assert a + b == b;
    } else {
      FirstOf(a, b);
      if Step(h, fd, a[0]).1 == Going {
        PlayedAppend(Step(h, fd, a[0]).0, fd, a[1..], b);
      }
    }
  }

  /** The datagrams a turn looks at. */
  ghost function Looked(h1: Hs, fd: int, t: Turn): seq<Received> {
    if Step(h1, fd, t).1 == Going && t.reply.err == WantRead && t.got.Some? then [t.got.value] else []
  }

  lemma ConsumedCons(h: Hs, fd: int, turns: seq<Turn>)
    requires turns != []
    ensures var (h1, v) := Step(h, fd, turns[0]);
      Consumed(h, fd, turns) == Looked(h, fd, turns[0]) + if v == Going then Consumed(h1, fd, turns[1..]) else []
  {
  }

  lemma Joined<T>(a: seq<T>, b: seq<T>, c: seq<T>)
    ensures a + (b + c) == a + b + c
  {
  }

  lemma {:induction false} ConsumedAppend(h: Hs, fd: int, a: seq<Turn>, b: seq<Turn>)
    requires Run(h, fd, a).1 == Going
    ensures Consumed(h, fd, a + b) == Consumed(h, fd, a) + Consumed(Run(h, fd, a).0, fd, b)
    decreases |a|
  {
    if a == [] {
      assert a + b == b;
    } else {
      FirstOf(a, b);
      var (h1, v) := Step(h, fd, a[0]);
      ConsumedAppend(h1, fd, a[1..], b);
      ConsumedCons(h, fd, a);
      ConsumedCons(h, fd, a + b);
      Joined(Looked(h, fd, a[0]), Consumed(h1, fd, a[1..]), Consumed(Run(h1, fd, a[1..]).0, fd, b));
    }
  }

  lemma {:induction false} ConsumedStops(h: Hs, fd: int, a: seq<Turn>, b: seq<Turn>)
    requires Run(h, fd, a).1 != Going
    ensures Consumed(h, fd, a + b) == Consumed(h, fd, a)
    decreases |a|
  {
    FirstOf(a, b);
    ConsumedCons(h, fd, a);
    ConsumedCons(h, fd, a + b);
    if Step(h, fd, a[0]).1 == Going {
      ConsumedStops(Step(h, fd, a[0]).0, fd, a[1..], b);
    }
  }

  lemma RunOne(h: Hs, fd: int, t: Turn)
    ensures Run(h, fd, [t]) == Step(h, fd, t) && Played(h, fd, [t]) == 1
    ensures Consumed(h, fd, [t]) == Looked(h, fd, t)
  {
    assert [t][1..] == [];
  }

  /** The state `h1` after `k` turns that go on. */
  ghost predicate IsAfter(h: Hs, fd: int, turns: seq<Turn>, k: nat, h1: Hs)
    requires k <= |turns|
  {
    && h1.wbio == Left(h.wbio, turns, k) && h1.rbio == Waiting(h.rbio, fd, turns, k)
    && h1.addr == FirstSource(h.addr, fd, Consumed(h, fd, turns[..k]))
    && h1.sent == h.sent + Letters(h, fd, turns, k)
  }

  /** How turn `k` ends, from the state before it. */
  lemma TurnEnds(h: Hs, fd: int, turns: seq<Turn>, k: nat, h1: Hs)
    requires k < |turns| && IsAfter(h, fd, turns, k, h1)
    ensures var v := Step(h1, fd, turns[k]).1;
      && (v == Going <==> GoesOn(h, fd, turns, k))
      && (v == Success <==> Completes(h, fd, turns, k))
      && (v == Failure <==> Breaks(h, fd, turns, k))
  {
    var called := Call(h1, turns[k].reply);
    assert called.wbio == Held(h.wbio, turns, k) && called.rbio == Unread(h.rbio, fd, turns, k);
  }

  /** What a turn sends. */
  lemma TurnSends(h1: Hs, fd: int, t: Turn)
    ensures var h2, full := Step(h1, fd, t).0, h1.wbio + Concat(t.reply.records);
      && h2.sent == (if full == [] || !t.accepted then h1.sent else h1.sent + [(h1.addr, Drain(full, BUF_SIZE).0)])
      && h2.wbio == Drain(full, BUF_SIZE).1
  {
  }

  /** What a turn makes of the datagram it looks at. */
  lemma TurnLooks(h1: Hs, fd: int, t: Turn)
    ensures var (h2, v) := Step(h1, fd, t);
      && (v == Going ==> h2.rbio == Eaten(h1.rbio, t.reply.eats) + Passed(fd, t))
      && h2.addr == FirstSource(h1.addr, fd, Looked(h1, fd, t))
  {
    if Looked(h1, fd, t) != [] {
      assert [t.got.value][1..] == [];
    }
    assert Eaten(h1.rbio, t.reply.eats) + [] == Eaten(h1.rbio, t.reply.eats);
  }

  lemma {:induction false} RunPrefix(h: Hs, fd: int, turns: seq<Turn>, k: nat)
    requires k <= |turns| && AllGoOn(h, fd, turns, k)
    ensures var (h1, v) := Run(h, fd, turns[..k]);
      v == Going && IsAfter(h, fd, turns, k, h1) && Played(h, fd, turns[..k]) == k
  {
    if k == 0 {
      assert turns[..0] == [] && h.sent + [] == h.sent;
    } else {
      RunPrefix(h, fd, turns, k - 1);
      var h1 := Run(h, fd, turns[..k - 1]).0;
      TurnEnds(h, fd, turns, k - 1, h1);
      PrefixTurn(h, fd, turns, k - 1, h1);
      var (h2, v) := Step(h1, fd, turns[k - 1]);
      LettersNext(h, fd, turns, k - 1, h1, h2);
      SourceNext(h, fd, turns, k - 1, h1, h2, v);
    }
  }

  /** One turn more. */
  lemma PrefixTurn(h: Hs, fd: int, turns: seq<Turn>, k: nat, h1: Hs)
    requires k < |turns| && Run(h, fd, turns[..k]) == (h1, Going) && IsAfter(h, fd, turns, k, h1)
    requires Played(h, fd, turns[..k]) == k
    ensures Run(h, fd, turns[..k + 1]) == Step(h1, fd, turns[k])
    ensures Played(h, fd, turns[..k + 1]) == k + 1
    ensures Consumed(h, fd, turns[..k + 1]) == Consumed(h, fd, turns[..k]) + Looked(h1, fd, turns[k])
  {
    assert turns[..k + 1] == turns[..k] + [turns[k]];
    RunAppend(h, fd, turns[..k], [turns[k]]);
    PlayedAppend(h, fd, turns[..k], [turns[k]]);
    ConsumedAppend(h, fd, turns[..k], [turns[k]]);
    RunOne(h1, fd, turns[k]);
  }

  /** The datagram of turn `k` follows those before it. */
  lemma LettersNext(h: Hs, fd: int, turns: seq<Turn>, k: nat, h1: Hs, h2: Hs)
    requires k < |turns| && IsAfter(h, fd, turns, k, h1) && h2 == Step(h1, fd, turns[k]).0
    ensures h2.sent == h.sent + Letters(h, fd, turns, k + 1) && h2.wbio == Left(h.wbio, turns, k + 1)
  {
    TurnSends(h1, fd, turns[k]);
    var full := Held(h.wbio, turns, k);
    Joined(h.sent, Letters(h, fd, turns, k), if full == [] || !turns[k].accepted then [] else [(h1.addr, Drain(full, BUF_SIZE).0)]);
  }

  /** The datagram that turn `k` looks at follows those before it. */
  lemma SourceNext(h: Hs, fd: int, turns: seq<Turn>, k: nat, h1: Hs, h2: Hs, v: Verdict)
    requires k < |turns| && IsAfter(h, fd, turns, k, h1) && (h2, v) == Step(h1, fd, turns[k])
    requires Consumed(h, fd, turns[..k + 1]) == Consumed(h, fd, turns[..k]) + Looked(h1, fd, turns[k])
    ensures h2.addr == FirstSource(h.addr, fd, Consumed(h, fd, turns[..k + 1]))
    ensures v == Going ==> h2.rbio == Waiting(h.rbio, fd, turns, k + 1)
  {
    TurnLooks(h1, fd, turns[k]);
    FirstSourceAppend(h.addr, fd, Consumed(h, fd, turns[..k]), Looked(h1, fd, turns[k]));
  }

  /** The number of turns that go on before the first that does not. */
  lemma {:induction false} FirstStop(h: Hs, fd: int, turns: seq<Turn>, from: nat) returns (k: nat)
    requires from <= |turns| && AllGoOn(h, fd, turns, from)
    ensures k <= |turns| && AllGoOn(h, fd, turns, k) && (k < |turns| ==> !GoesOn(h, fd, turns, k))
    decreases |turns| - from
  {
    if from < |turns| && GoesOn(h, fd, turns, from) {
      k := FirstStop(h, fd, turns, from + 1);
    } else {
      k := from;
    }
  }

  /** A run over turns `a` that ends there is the run over all turns. */
  lemma RunEnded(h: Hs, fd: int, turns: seq<Turn>, n: nat)
    requires n <= |turns| && Run(h, fd, turns[..n]).1 != Going
    ensures Run(h, fd, turns) == Run(h, fd, turns[..n])
    ensures Played(h, fd, turns) == Played(h, fd, turns[..n]) && Consumed(h, fd, turns) == Consumed(h, fd, turns[..n])
  {
    assert turns[..n] + turns[n..] == turns;
    RunAppend(h, fd, turns[..n], turns[n..]);
    PlayedAppend(h, fd, turns[..n], turns[n..]);
    ConsumedStops(h, fd, turns[..n], turns[n..]);
  }

  /** The turn after which the run is over, from the state before it. */
  lemma LastTurn(h: Hs, fd: int, turns: seq<Turn>, k: nat, h1: Hs, h2: Hs, v: Verdict)
    requires k < |turns| && Run(h, fd, turns[..k]) == (h1, Going) && IsAfter(h, fd, turns, k, h1)
    requires Played(h, fd, turns[..k]) == k && (h2, v) == Step(h1, fd, turns[k]) && v != Going
    ensures Run(h, fd, turns) == (h2, v) && Played(h, fd, turns) == k + 1
    ensures h2.addr == FirstSource(h.addr, fd, Consumed(h, fd, turns))
    ensures h2.sent == h.sent + Letters(h, fd, turns, k + 1)
  {
    PrefixTurn(h, fd, turns, k, h1);
    RunEnded(h, fd, turns, k + 1);
    LettersNext(h, fd, turns, k, h1, h2);
    SourceNext(h, fd, turns, k, h1, h2, v);
  }

  lemma RunStops(h: Hs, fd: int, turns: seq<Turn>, k: nat)
    requires k < |turns| && AllGoOn(h, fd, turns, k) && !GoesOn(h, fd, turns, k)
    ensures var (h', v) := Run(h, fd, turns);
      && v != Going && Played(h, fd, turns) == k + 1
      && (v == Success <==> Completes(h, fd, turns, k))
      && (v == Failure <==> Breaks(h, fd, turns, k))
      && h'.addr == FirstSource(h.addr, fd, Consumed(h, fd, turns))
      && h'.sent == h.sent + Letters(h, fd, turns, k + 1)
  {
    RunPrefix(h, fd, turns, k);
    var h1 := Run(h, fd, turns[..k]).0;
    TurnEnds(h, fd, turns, k, h1);
    LastTurn(h, fd, turns, k, h1, Step(h1, fd, turns[k]).0, Step(h1, fd, turns[k]).1);
  }

  lemma RunGoesOn(h: Hs, fd: int, turns: seq<Turn>)
    requires AllGoOn(h, fd, turns, |turns|)
    ensures var (h', v) := Run(h, fd, turns);
      && v == Going && Played(h, fd, turns) == |turns|
      && h'.addr == FirstSource(h.addr, fd, Consumed(h, fd, turns))
      && h'.sent == h.sent + Letters(h, fd, turns, |turns|)
  {
    RunPrefix(h, fd, turns, |turns|);
    assert turns[..|turns|] == turns;
  }

  /** A turn goes on, completes the handshake or fails, and only one of these. */
  lemma OneEnd(h: Hs, fd: int, turns: seq<Turn>, k: nat)
    requires k < |turns|
    ensures GoesOn(h, fd, turns, k) <==> !Completes(h, fd, turns, k) && !Breaks(h, fd, turns, k)
    ensures !(Completes(h, fd, turns, k) && Breaks(h, fd, turns, k))
  {
  }

  lemma OnlyEnd(h: Hs, fd: int, turns: seq<Turn>, k: nat)
    requires k < |turns| && AllGoOn(h, fd, turns, k) && !GoesOn(h, fd, turns, k)
    ensures Succeeds(h, fd, turns) <==> Completes(h, fd, turns, k)
    ensures Fails(h, fd, turns) <==> Breaks(h, fd, turns, k)
  {
    forall j | 0 <= j < |turns| && j != k && AllGoOn(h, fd, turns, j)
      ensures !Completes(h, fd, turns, j) && !Breaks(h, fd, turns, j)
    {
      OneEnd(h, fd, turns, j);
      assert j < k;
    }
  }

  lemma NoEnd(h: Hs, fd: int, turns: seq<Turn>)
    requires AllGoOn(h, fd, turns, |turns|)
    ensures !Succeeds(h, fd, turns) && !Fails(h, fd, turns)
  {
    forall j | 0 <= j < |turns|
      ensures !Completes(h, fd, turns, j) && !Breaks(h, fd, turns, j)
    {
      OneEnd(h, fd, turns, j);
    }
  }

  /**
    The driver succeeds if and only if some turn completes the handshake and all turns before it go
    on; it fails if and only if some turn fails and all before it go on; it still waits otherwise.
    The conditions are on SSL's answers, the BIOs, and what was sent and received.
   */
  lemma VerdictIff(h: Hs, fd: int, turns: seq<Turn>)
    ensures Run(h, fd, turns).1 == Success <==> Succeeds(h, fd, turns)
    ensures Run(h, fd, turns).1 == Failure <==> Fails(h, fd, turns)
    ensures Run(h, fd, turns).1 == Going <==> AllGoOn(h, fd, turns, |turns|)
  {
    var k := FirstStop(h, fd, turns, 0);
    if k == |turns| {
      RunGoesOn(h, fd, turns);
      NoEnd(h, fd, turns);
    } else {
      RunStops(h, fd, turns, k);
      OnlyEnd(h, fd, turns, k);
      OneEnd(h, fd, turns, k);
    }
  }

  /**
    In every run the address afterwards is the one before or, without one, the first source among
    the datagrams of the socket; and each datagram that is sent carries the next BUF_SIZE bytes of
    the write BIO to the address that the datagrams before it left.
   */
  lemma HandshakePeer(h: Hs, fd: int, turns: seq<Turn>)
    ensures var h' := Run(h, fd, turns).0;
      && h'.addr == FirstSource(h.addr, fd, Consumed(h, fd, turns))
      && h'.sent == h.sent + Letters(h, fd, turns, Played(h, fd, turns))
  {
    var k := FirstStop(h, fd, turns, 0);
    if k == |turns| {
      RunGoesOn(h, fd, turns);
    } else {
      RunStops(h, fd, turns, k);
    }
  }

  // ---------------------------------------------------------------- the connection object

  class Conn {
    var addr: Addr
    var rbio: Bytes
    var wbio: Bytes
    var sent: seq<(Addr, Bytes)>
    var drops: nat
    var established: bool
    ghost var produced: Bytes

    ghost function View(): Hs
      reads this
    {
      Hs(addr, rbio, wbio, sent, produced, drops)
    }

    constructor (addr: Addr)
      ensures View() == Hs(addr, [], [], [], [], 0) && !established
    {
      this.addr := addr;
      rbio, wbio, sent, drops, established, produced := [], [], [], 0, false, [];
    }

    /** The WANT_READ case: takes the datagram wait_for_recv returned, or drops one of another socket. */
    method Receive(fd: int, got: Option<Received>) returns (v: Verdict)
      modifies this
      ensures (View(), v) == ReceivePart(old(View()), fd, got) && established == old(established)
    {
      if rbio != [] || got.None? {
        return Failure;
      }
      if got.value.fd != fd {
        drops := drops + 1;
      } else {
        if addr == [] {
          addr := got.value.src;
        }
        rbio := rbio + got.value.data;
      }
      return Going;
    }

    /** SSL is called once; what it produced is read and sent, at most BUF_SIZE bytes. */
    method CallAndSend(t: Turn) returns (ok: bool)
      modifies this
      ensures var called := Call(old(View()), t.reply);
        && ok == (called.wbio == [] || t.accepted)
        && View() == if ok then SendPart(called) else called.(wbio := Drain(called.wbio, BUF_SIZE).1)
      ensures established == old(established)
    {
      var flight := Concat(t.reply.records);
      rbio := if t.reply.eats <= |rbio| then rbio[t.reply.eats..] else [];
      wbio := wbio + flight;
      produced := produced + flight;
      if wbio != [] {
        var (chunk, rest) := Drain(wbio, BUF_SIZE);
        wbio := rest;
        if !t.accepted {
          return false;
        }
        sent := sent + [(addr, chunk)];
      }
      return true;
    }

    /** One turn of the loop of do_dtls_handshake. */
    method HandshakeTurn(fd: int, t: Turn) returns (v: Verdict)
      modifies this
      ensures (View(), v) == Step(old(View()), fd, t)
      ensures established == (old(established) || v == Success)
    {
      var ok := CallAndSend(t);
      if !ok {
        return Failure;
      }
      if t.reply.ret == 1 {
        established := true;
        return Success;
      } else if t.reply.ret == 0 {
        return Failure;
      }
      match t.reply.err {
        case WantRead => v := Receive(fd, t.got);
        case WantWrite => return if wbio != [] then Failure else Going;
        case _ => return Failure;
      }
    }

    /** do_dtls_handshake on socket `fd`, with `turns` as the environment. */
    method DoHandshake(fd: int, turns: seq<Turn>) returns (v: Verdict)
      modifies this
      ensures (View(), v) == Run(old(View()), fd, turns)
      ensures (v == Success <==> Succeeds(old(View()), fd, turns)) && (v == Failure <==> Fails(old(View()), fd, turns))
      ensures established == (old(established) || Succeeds(old(View()), fd, turns))
    {
      VerdictIff(View(), fd, turns);
      var i := 0;
      v := Going;
      ghost var goal := Run(View(), fd, turns);
      assert turns[0..] == turns;
      while i < |turns|
        invariant 0 <= i <= |turns| && v == Going && established == old(established)
        invariant Run(View(), fd, turns[i..]) == goal
      {
        ghost var before := View();
        v := HandshakeTurn(fd, turns[i]);
        RunFrom(before, View(), v, fd, turns, i);
        if v != Going {
          return;
        }
        i := i + 1;
      }
      assert turns[i..] == [];
    }

    /** dtls_encrypt_packet. */
    method EncryptPacket(reply: WriteReply, size: nat) returns (r: Option<Bytes>)
      modifies this`wbio
      ensures (wbio, r) == Encrypt(old(wbio), reply, size)
    {
      wbio := wbio + Concat(reply.records);
      if reply.written <= 0 {
        return None;
      }
      if wbio == [] || size == 0 {
        return None;
      }
      var (chunk, rest) := Drain(wbio, size);
      wbio := rest;
      return Some(chunk);
    }

    /** dtls_decrypt_packet, with its loop of four retries. */
    method DecryptPacket(encrypted: Bytes, size: nat, replies: seq<ReadReply>) returns (r: Option<Bytes>)
      requires |encrypted| < size && |replies| == 5
      modifies this`rbio
      ensures (rbio, r) == Decrypt(old(rbio), encrypted, replies)
      ensures r == if encrypted == [] then None else FirstAnswer(replies)
    {
      DecryptGives(rbio, encrypted, replies);
      if encrypted == [] {
        return None;
      }
      rbio := rbio + encrypted;
      ghost var goal := ReadLoop(rbio, replies, 4);
      var last := replies[0];
      rbio := Eaten(rbio, last.eats);
      var i := 0;
      while i < 4 && last.err == WantRead
        invariant 0 <= i <= 4 && last == replies[i]
        invariant if last.err == WantRead && i < 4 then ReadLoop(rbio, replies[i + 1..], 3 - i) == goal else (rbio, last) == goal
      {
        assert replies[i + 1..][0] == replies[i + 1] && replies[i + 1..][1..] == replies[i + 2..];
        last := replies[i + 1];
        rbio := Eaten(rbio, last.eats);
        i := i + 1;
      }
      return if last.err == NoError then Some(last.plain) else None;
    }
  }

  lemma RunFrom(h: Hs, h1: Hs, v: Verdict, fd: int, turns: seq<Turn>, i: nat)
    requires i < |turns| && (h1, v) == Step(h, fd, turns[i])
    ensures Run(h, fd, turns[i..]) == if v == Going then Run(h1, fd, turns[i + 1..]) else (h1, v)
  {
    assert turns[i..][0] == turns[i] && turns[i..][1..] == turns[i + 1..];
  }

  // ---------------------------------------------------------------- encrypting packets

  /** One call of dtls_encrypt_packet: SSL_write's result and the records it appended. */
  datatype WriteReply = WriteReply(written: int, records: seq<Bytes>)

  /** dtls_encrypt_packet into a buffer of `size` bytes: the write BIO afterwards and the result. */
  function Encrypt(wbio: Bytes, reply: WriteReply, size: nat): (Bytes, Option<Bytes>) {
    var full := wbio + Concat(reply.records);
    if reply.written <= 0 then (full, None)
    else if full == [] || size == 0 then (full, None)
    else (Drain(full, size).1, Some(Drain(full, size).0))
  }

  /** Any sequence of calls: the write BIO afterwards and the results. */
  function EncryptAll(wbio: Bytes, replies: seq<WriteReply>, size: nat): (Bytes, seq<Option<Bytes>>)
    decreases |replies|
  {
    if replies == [] then (wbio, [])
    else
      var (w1, r) := Encrypt(wbio, replies[0], size);
      var (w2, rs) := EncryptAll(w1, replies[1..], size);
      (w2, [r] + rs)
  }

  /** The bytes of the results, in order. */
  ghost function Outputs(rs: seq<Option<Bytes>>): Bytes {
    if rs == [] then [] else (if rs[0].Some? then rs[0].value else []) + Outputs(rs[1..])
  }

  /** The bytes the calls produced, in order. */
  ghost function Inputs(replies: seq<WriteReply>): Bytes {
    if replies == [] then [] else Concat(replies[0].records) + Inputs(replies[1..])
  }

  lemma EncryptConserves(wbio: Bytes, reply: WriteReply, size: nat)
    ensures var (w, r) := Encrypt(wbio, reply, size);
      (if r.Some? then r.value else []) + w == wbio + Concat(reply.records)
  {
  }

  /** Over any sequence of calls the results are a prefix of everything produced; the rest is in the write BIO. */
  lemma {:induction false} PipeConserves(wbio: Bytes, replies: seq<WriteReply>, size: nat)
    ensures var (w, rs) := EncryptAll(wbio, replies, size);
      Outputs(rs) + w == wbio + Inputs(replies)
    decreases |replies|
  {
    if replies != [] {
      var (w1, r) := Encrypt(wbio, replies[0], size);
      var (w2, rs) := EncryptAll(w1, replies[1..], size);
      PipeConserves(w1, replies[1..], size);
      var out := if r.Some? then r.value else [];
      EncryptConserves(wbio, replies[0], size);
      assert ([r] + rs)[1..] == rs;
      Glue(out, w1, wbio, Concat(replies[0].records), Outputs(rs), w2, Inputs(replies[1..]));
    }
  }

  /** Two steps of conservation make one. */
  lemma Glue(out: Bytes, mid: Bytes, w: Bytes, new1: Bytes, out2: Bytes, end: Bytes, new2: Bytes)
    requires out + mid == w + new1 && out2 + end == mid + new2
    ensures (out + out2) + end == w + (new1 + new2)
  {
    assert (out + out2) + end == out + (out2 + end);
    assert out + (mid + new2) == (out + mid) + new2;
  }

  /** From an empty write BIO a call gives back its own record and leaves the BIO empty, exactly when the record fits. */
  lemma PipeExactIff(record: Bytes, size: nat)
    requires record != []
    ensures Encrypt([], WriteReply(1, [record]), size) == ([], Some(record)) <==> |record| <= size
  {
    ConcatOne(record);
    assert [] + record == record;
  }

  /** With an empty write BIO and records that fit, the i-th call returns exactly the i-th record. */
  lemma {:induction false} PipeExact(replies: seq<WriteReply>, records: seq<Bytes>, size: nat)
    requires |replies| == |records|
    requires forall i | 0 <= i < |records| ::
      replies[i].written > 0 && replies[i].records == [records[i]] && 0 < |records[i]| <= size
    ensures var (w, rs) := EncryptAll([], replies, size);
      w == [] && |rs| == |records| && forall i | 0 <= i < |records| :: rs[i] == Some(records[i])
    decreases |replies|
  {
    if replies != [] {
      ConcatOne(records[0]);
      assert [] + records[0] == records[0];
      assert Encrypt([], replies[0], size) == ([], Some(records[0]));
      PipeExact(replies[1..], records[1..], size);
      var (w, rs) := EncryptAll([], replies[1..], size);
      forall i | 0 <= i < |records|
        ensures ([Some(records[0])] + rs)[i] == Some(records[i])
      {
        if i > 0 {
          assert records[1..][i - 1] == records[i];
        }
      }
    }
  }

  // ---------------------------------------------------------------- decrypting packets

  /** One SSL_read: bytes eaten from the read BIO, the plaintext it wrote and its error code. */
  datatype ReadReply = ReadReply(eats: nat, plain: Bytes, err: SslError)

  function Eaten(bio: Bytes, n: nat): Bytes { if n <= |bio| then bio[n..] else [] }

  /** SSL_read, repeated while it asks for more input, at most `tries` more times: the read BIO and the last answer. */
  function ReadLoop(rbio: Bytes, replies: seq<ReadReply>, tries: nat): (Bytes, ReadReply)
    requires |replies| > tries
    decreases tries
  {
    var rest := Eaten(rbio, replies[0].eats);
    if replies[0].err != WantRead || tries == 0 then (rest, replies[0])
    else ReadLoop(rest, replies[1..], tries - 1)
  }

  /** dtls_decrypt_packet: the read BIO and the plaintext, if the last answer is no error. */
  function Decrypt(rbio: Bytes, encrypted: Bytes, replies: seq<ReadReply>): (Bytes, Option<Bytes>)
    requires |replies| == 5
  {
    if encrypted == [] then (rbio, None)
    else
      var (bio, r) := ReadLoop(rbio + encrypted, replies, 4);
      (bio, if r.err == NoError then Some(r.plain) else None)
  }

  /** A plaintext is the first answer of SSL that is not a retry, among at most five calls, and nothing else. */
  lemma {:induction false} FirstAnswerWins(rbio: Bytes, replies: seq<ReadReply>, tries: nat, k: nat)
    requires |replies| > tries && k <= tries
    requires replies[k].err != WantRead && forall j | 0 <= j < k :: replies[j].err == WantRead
    ensures ReadLoop(rbio, replies, tries).1 == replies[k]
    decreases tries
  {
    if k > 0 {
      assert replies[1..][k - 1] == replies[k];
      FirstAnswerWins(Eaten(rbio, replies[0].eats), replies[1..], tries - 1, k - 1);
    }
  }

  /** When SSL asks for more input five times, the packet is refused. */
  lemma {:induction false} RetriesExhausted(rbio: Bytes, replies: seq<ReadReply>, tries: nat)
    requires |replies| > tries && forall j | 0 <= j <= tries :: replies[j].err == WantRead
    ensures ReadLoop(rbio, replies, tries).1.err == WantRead
    decreases tries
  {
    if tries > 0 {
      forall j | 0 <= j <= tries - 1
        ensures replies[1..][j].err == WantRead
      {
        assert replies[1..][j] == replies[j + 1];
      }
      RetriesExhausted(Eaten(rbio, replies[0].eats), replies[1..], tries - 1);
    }
  }

  /** The plaintext of the first answer that is not a retry, if that answer is no error. */
  function FirstAnswer(replies: seq<ReadReply>): Option<Bytes> {
    if replies == [] then None
    else if replies[0].err == WantRead then FirstAnswer(replies[1..])
    else if replies[0].err == NoError then Some(replies[0].plain)
    else None
  }

  lemma {:induction false} FirstAnswerAt(replies: seq<ReadReply>, k: nat)
    requires k <= |replies| && forall j | 0 <= j < k :: replies[j].err == WantRead
    ensures FirstAnswer(replies) == FirstAnswer(replies[k..])
  {
    if k == 0 {
      assert replies[0..] == replies;
    } else {
      assert forall j | 0 <= j < k - 1 :: replies[1..][j] == replies[j + 1];
      assert replies[1..][k - 1..] == replies[k..];
      FirstAnswerAt(replies[1..], k - 1);
    }
  }

  /** The number of retries in front. */
  lemma {:induction false} Retries(replies: seq<ReadReply>, from: nat) returns (k: nat)
    requires from <= |replies| && forall j | 0 <= j < from :: replies[j].err == WantRead
    ensures k <= |replies| && (forall j | 0 <= j < k :: replies[j].err == WantRead)
    ensures k < |replies| ==> replies[k].err != WantRead
    decreases |replies| - from
  {
    if from < |replies| && replies[from].err == WantRead {
      k := Retries(replies, from + 1);
    } else {
      k := from;
    }
  }

  /** A packet decrypts to the plaintext of the first answer that is not a retry, or to nothing. */
  lemma DecryptGives(rbio: Bytes, encrypted: Bytes, replies: seq<ReadReply>)
    requires |replies| == 5
    ensures Decrypt(rbio, encrypted, replies).1 == if encrypted == [] then None else FirstAnswer(replies)
  {
    var k := Retries(replies, 0);
    FirstAnswerAt(replies, k);
    if k == 5 {
      RetriesExhausted(rbio + encrypted, replies, 4);
    } else {
      FirstAnswerWins(rbio + encrypted, replies, 4, k);
    }
  }

  /** What the read BIO holds afterwards is an end of what it held and was given. */
  lemma {:induction false} ReadLoopSuffix(rbio: Bytes, replies: seq<ReadReply>, tries: nat)
    requires |replies| > tries
    ensures OneDatagram(ReadLoop(rbio, replies, tries).0, rbio)
    decreases tries
  {
    var rest := Eaten(rbio, replies[0].eats);
    EatenSuffix(rbio, replies[0].eats);
    if replies[0].err == WantRead && tries > 0 {
      ReadLoopSuffix(rest, replies[1..], tries - 1);
      SuffixOfSuffix(ReadLoop(rest, replies[1..], tries - 1).0, rest, rbio);
    }
  }

  lemma EatenSuffix(bio: Bytes, n: nat)
    ensures OneDatagram(Eaten(bio, n), bio)
  {
  }

  lemma SuffixOfSuffix(a: Bytes, b: Bytes, c: Bytes)
    requires OneDatagram(a, b) && OneDatagram(b, c)
    ensures OneDatagram(a, c)
  {
  }
}
