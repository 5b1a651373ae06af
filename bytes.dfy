/** Bytes and the little-endian encoding of unsigned integers (`u64::to_le_bytes`,
    `AsyncReadExt::read_u64_le`). */
module Bytes {

  import opened Outcomes

  newtype byte = x: int | 0 <= x < 256

  /** 256^n, the number of values that fit in n bytes. */
  function Pow256(n: nat): (r: nat)
    ensures r >= 1
  {
    if n == 0 then 1 else 256 * Pow256(n - 1)
  }

  const U64_LIMIT: nat := 0x1_0000_0000_0000_0000

  lemma Pow256Of8()
    ensures Pow256(8) == U64_LIMIT
  {
    calc {
      Pow256(8);
      256 * 256 * 256 * 256 * 256 * 256 * 256 * 256 * Pow256(0);
    }
  }

  /** The n least significant bytes of x, least significant first. */
  function LeBytes(x: nat, n: nat): (r: seq<byte>)
    requires x < Pow256(n)
    ensures |r| == n
  {
    if n == 0 then [] else [(x % 256) as byte] + LeBytes(x / 256, n - 1)
  }

  /** The value of a little-endian byte string. */
  function FromLeBytes(s: seq<byte>): (r: nat)
    ensures r < Pow256(|s|)
  {
    if s == [] then 0 else s[0] as nat + 256 * FromLeBytes(s[1..])
  }

  lemma {:induction false} FromLeBytesOfLeBytes(x: nat, n: nat)
    requires x < Pow256(n)
    ensures FromLeBytes(LeBytes(x, n)) == x
  {
    if n > 0 {
      var s := LeBytes(x, n);
      assert s[1..] == LeBytes(x / 256, n - 1);
      FromLeBytesOfLeBytes(x / 256, n - 1);
    }
  }

  lemma {:induction false} LeBytesOfFromLeBytes(s: seq<byte>)
    ensures LeBytes(FromLeBytes(s), |s|) == s
  {
    if s != [] {
      var x := FromLeBytes(s);
      assert x % 256 == s[0] as nat;
      assert x / 256 == FromLeBytes(s[1..]);
      LeBytesOfFromLeBytes(s[1..]);
    }
  }

  /** The width of a `u64` in bytes. */
  const U64_WIDTH: nat := 8

  /** `u64::to_le_bytes`: eight bytes, least significant first. */
  function U64ToLeBytes(x: nat): (r: seq<byte>)
    requires x < U64_LIMIT
    ensures |r| == 8
    ensures FromLeBytes(r) == x
  {
    Pow256Of8();
    FromLeBytesOfLeBytes(x, U64_WIDTH);
    LeBytes(x, U64_WIDTH)
  }

  /** `read_u64_le` on a byte stream: fails with an unexpected end of input when fewer
      than eight bytes remain; otherwise consumes exactly eight. */
  function ReadU64Le(input: seq<byte>): (r: Option<(nat, seq<byte>)>)
    ensures r.None? <==> |input| < 8
    ensures r.Some? ==> r.value.0 < U64_LIMIT && r.value.1 == input[8..]
    ensures r.Some? ==> U64ToLeBytes(r.value.0) == input[..8]
  {
    if |input| < 8 then None
    else
      Pow256Of8();
      LeBytesOfFromLeBytes(input[..8]);
      Some((FromLeBytes(input[..8]), input[8..]))
  }

  /** Reading back what `to_le_bytes` wrote recovers the length and leaves the rest of the
      stream untouched. */
  lemma ReadU64LeOfU64ToLeBytes(x: nat, rest: seq<byte>)
    requires x < U64_LIMIT
    ensures ReadU64Le(U64ToLeBytes(x) + rest) == Some((x, rest))
  {
    var s := U64ToLeBytes(x) + rest;
    assert s[..8] == U64ToLeBytes(x);
    assert s[8..] == rest;
  }
}
