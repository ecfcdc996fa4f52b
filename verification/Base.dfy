/** Values shared by every part of the model. */
module Base {

  newtype Byte = x: int | 0 <= x < 256
  type Bytes = seq<Byte>

  /** The bytes of a socket address; the empty sequence is an address of length 0 (not set). */
  type Addr = Bytes

  datatype Option<+T> = None | Some(value: T)

  /** Size of a pool buffer and of a slice of the multishot buffer area. */
  const BUF_SIZE := 1600

  /** bufIdx value of a multishot operation whose ring buffer was moved to another operation. */
  const DO_NOT_FREE := -2

  /** The first `n` bytes of `s`, or all of it when there are fewer. */
  function Prefix(s: Bytes, n: int): (r: Bytes)
    ensures r <= s
    ensures 0 <= n <= |s| ==> |r| == n
  {
    if 0 <= n <= |s| then s[..n] else s
  }

  /** Memory contents after `data` was written at the start of `was`: the tail of `was` survives. */
  function Overlay(was: Bytes, data: Bytes): (r: Bytes)
    ensures data <= r
  {
    if |data| <= |was| then data + was[|data|..] else data
  }

  /** How often `x` occurs in `s`. */
  function Occ(s: seq<nat>, x: nat): nat {
    if s == [] then 0 else (if s[0] == x then 1 else 0) + Occ(s[1..], x)
  }

  lemma {:induction false} OccConcat(s: seq<nat>, t: seq<nat>, x: nat)
    ensures Occ(s + t, x) == Occ(s, x) + Occ(t, x)
  {
    if s == [] {
      assert s + t == t;
    } else {
      assert (s + t)[1..] == s[1..] + t;
      OccConcat(s[1..], t, x);
    }
  }

  lemma {:induction false} OccIn(s: seq<nat>, x: nat)
    ensures x in s <==> Occ(s, x) > 0
  {
    if s != [] {
      OccIn(s[1..], x);
    }
  }
}
