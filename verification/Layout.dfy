/**
  A slice of the multishot buffer area, byte by byte: what the kernel stores for a datagram and
  what `iouring_multishot_recvmsg_out` reads back.
 */
module Layout {
  import opened Base

  const HEADER_SIZE := 16   // struct io_uring_recvmsg_out: four 32-bit words
  const NAME_SIZE := 128    // msg_namelen, the size of struct sockaddr_storage
  const PAYLOAD_AT := HEADER_SIZE + NAME_SIZE
  const CAPACITY := BUF_SIZE - PAYLOAD_AT

  // ---------------------------------------------------------------- 32-bit words, little endian

  function Word(x: nat): (r: Bytes)
    requires x < 0x1_0000_0000
    ensures |r| == 4
  {
    [(x % 256) as Byte, (x / 256 % 256) as Byte, (x / 65536 % 256) as Byte, (x / 16777216) as Byte]
  }

  function WordAt(b: Bytes, i: nat): (x: nat)
    requires i + 4 <= |b|
    ensures x < 0x1_0000_0000
  {
    b[i] as nat + 256 * b[i + 1] as nat + 65536 * b[i + 2] as nat + 16777216 * b[i + 3] as nat
  }

  lemma WordRoundTrip(x: nat, rest: Bytes)
    requires x < 0x1_0000_0000
    ensures WordAt(Word(x) + rest, 0) == x
  {
    var a, b, c := x % 256, x / 256, x / 65536;
    assert x == 256 * b + a;
    assert b == 256 * (b / 256) + b % 256;
    assert b / 256 == c;
    assert c == 256 * (c / 256) + c % 256;
    assert c / 256 == x / 16777216;
  }

  // ---------------------------------------------------------------- what the kernel stores

  /** The slice after the kernel stored a datagram; bytes it does not write keep their old value. */
  function Stored(was: Bytes, name: Addr, payload: Bytes): (r: Bytes)
    requires |was| == BUF_SIZE && |name| <= NAME_SIZE && |payload| <= CAPACITY
    ensures |r| == BUF_SIZE
  {
    Word(|name|) + Word(0) + Word(|payload|) + Word(0)
    + name + was[HEADER_SIZE + |name|..PAYLOAD_AT]
    + payload + was[PAYLOAD_AT + |payload|..]
  }

  /** The completion's result for that datagram. */
  function Result(payload: Bytes): nat { PAYLOAD_AT + |payload| }

  // ---------------------------------------------------------------- what the program reads

  /** Where the name and the payload are in the slice. */
  datatype Decoded = Decoded(nameFrom: nat, nameLen: nat, from: nat, len: nat)

  /** `iouring_multishot_recvmsg_out`: validation, name, payload and payload length. */
  function Decode(buf: Bytes, res: int): (r: Option<Decoded>)
    requires |buf| == BUF_SIZE
    ensures r.Some? ==> r.value.from == PAYLOAD_AT && r.value.len == res - PAYLOAD_AT
  {
    if res < PAYLOAD_AT then None
    else
      var nameLen := WordAt(buf, 0);
      if nameLen == 0 then None
      else if res - PAYLOAD_AT == 0 then None
      else Some(Decoded(HEADER_SIZE, nameLen, PAYLOAD_AT, res - PAYLOAD_AT))
  }

  /** Decoding gives back exactly the datagram that was stored, whatever the slice held before. */
  lemma DecodeStored(was: Bytes, name: Addr, payload: Bytes)
    requires |was| == BUF_SIZE && |name| <= NAME_SIZE && |payload| <= CAPACITY
    ensures var r := Decode(Stored(was, name, payload), Result(payload));
      && (r.Some? <==> name != [] && payload != [])
      && (r.Some? ==>
            && r.value.nameFrom + r.value.nameLen <= r.value.from && r.value.from + r.value.len <= BUF_SIZE
            && Stored(was, name, payload)[r.value.nameFrom..r.value.nameFrom + r.value.nameLen] == name
            && Stored(was, name, payload)[r.value.from..r.value.from + r.value.len] == payload)
  {
    var buf := Stored(was, name, payload);
    var rest := Word(0) + Word(|payload|) + Word(0)
      + name + was[HEADER_SIZE + |name|..PAYLOAD_AT] + payload + was[PAYLOAD_AT + |payload|..];
    assert buf == Word(|name|) + rest;
    WordRoundTrip(|name|, rest);
    assert buf[HEADER_SIZE..HEADER_SIZE + |name|] == name;
    assert buf[PAYLOAD_AT..PAYLOAD_AT + |payload|] == payload;
  }

  // ---------------------------------------------------------------- slices

  /** Byte `k` of slice `i` in the buffer area. */
  function Address(i: nat, k: nat): nat { i * BUF_SIZE + k }

  /** Slices do not overlap and lie inside the area. */
  lemma SlicesDisjoint(n: nat, i: nat, j: nat, k: nat, m: nat)
    requires i < n && j < n && i != j && k < BUF_SIZE && m < BUF_SIZE
    ensures Address(i, k) != Address(j, m) && Address(i, k) < n * BUF_SIZE
  {
    assert i + 1 <= n;
    assert (i + 1) * BUF_SIZE <= n * BUF_SIZE;
  }

  /** Every decoded payload lies in its own slice, for every result the kernel can report. */
  lemma PayloadInSlice(buf: Bytes, res: int, n: nat, i: nat)
    requires |buf| == BUF_SIZE && res <= BUF_SIZE && i < n && Decode(buf, res).Some?
    ensures var d := Decode(buf, res).value;
      && 0 < d.len <= CAPACITY
      && Address(i, d.from) + d.len <= Address(i + 1, 0) <= n * BUF_SIZE
      && d.len < BUF_SIZE
  {
    assert (i + 1) * BUF_SIZE <= n * BUF_SIZE;
  }
}
