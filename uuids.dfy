/** Library identifiers (`uuid::Uuid`) and their `to_string` form: 32 lower-case hex
    digits grouped 8-4-4-4-12 by hyphens. */
module Uuids {

  import opened Bytes
  import Paths

  type Uuid = s: seq<byte> | |s| == 16 witness seq(16, _ => 0 as byte)

  predicate IsLowerHexDigit(c: char)
  {
    '0' <= c <= '9' || 'a' <= c <= 'f'
  }

  function HexDigit(n: nat): (c: char)
    requires n < 16
    ensures IsLowerHexDigit(c)
  {
    if n < 10 then (48 + n) as char else (87 + n) as char
  }

  function HexDigitValue(c: char): (n: nat)
    requires IsLowerHexDigit(c)
    ensures n < 16 && HexDigit(n) == c
  {
    if c <= '9' then c as nat - 48 else c as nat - 87
  }

  /** Two lower-case hex digits per byte, most significant nibble first. */
  function Hex(bs: seq<byte>): (r: string)
    ensures |r| == 2 * |bs|
    ensures forall i :: 0 <= i < |r| ==> IsLowerHexDigit(r[i])
  {
    if bs == [] then [] else [HexDigit(bs[0] as nat / 16), HexDigit(bs[0] as nat % 16)] + Hex(bs[1..])
  }

  /** `Uuid::to_string` (the hyphenated format). */
  function UuidToString(u: Uuid): (r: string)
    ensures |r| == 36
    ensures forall i :: 0 <= i < |r| ==> IsLowerHexDigit(r[i]) || r[i] == '-'
  {
    Hex(u[..4]) + "-" + Hex(u[4..6]) + "-" + Hex(u[6..8]) + "-" + Hex(u[8..10]) + "-" + Hex(u[10..])
  }

  /** A library's directory name is one ordinary path component. */
  lemma UuidStringIsPlainName(u: Uuid)
    ensures Paths.IsPlainName(UuidToString(u))
  {
    var s := UuidToString(u);
    assert s[0] != '.';
    assert Paths.Separator !in s by {
      forall i | 0 <= i < |s| ensures s[i] != Paths.Separator { }
    }
  }
}
