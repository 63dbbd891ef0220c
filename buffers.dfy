/** Node.js `Buffer` operations the envelope code relies on, with Node's own
    index conventions. */
module Buffers {

  newtype byte = b: int | 0 <= b < 256

  const UINT32_LIMIT: int := 0x1_0000_0000

  /** How `buf.slice` resolves one index: a negative index counts back from
      the end, and the result is clamped to `0 .. len`. */
  function SliceIndex(len: nat, i: int): (r: nat)
    ensures r <= len
    ensures 0 <= i <= len ==> r == i
  {
    if i < 0 then (if len + i < 0 then 0 else len + i)
    else if i > len then len
    else i
  }

  /** `buf.slice(start, end)`: never fails; an empty result when the resolved
      bounds cross. */
  function Slice(s: seq<byte>, start: int, end: int): (r: seq<byte>)
    ensures 0 <= start <= end <= |s| ==> r == s[start..end]
    ensures |r| <= |s|
  {
    var a, b := SliceIndex(|s|, start), SliceIndex(|s|, end);
    if a < b then s[a..b] else []
  }

  /** `buf.writeUInt32BE(n, 0)` on a fresh 4-byte buffer. */
  function WriteUInt32BE(n: nat): (r: seq<byte>)
    requires n < UINT32_LIMIT
    ensures |r| == 4
  {
    [(n / 0x100_0000) as byte, (n / 0x1_0000 % 0x100) as byte,
     (n / 0x100 % 0x100) as byte, (n % 0x100) as byte]
  }

  /** `buf.readUInt32BE(0)`; the caller has checked that four bytes are there. */
  function ReadUInt32BE(s: seq<byte>): (r: nat)
    requires |s| >= 4
    ensures r < UINT32_LIMIT
    ensures r / 0x100_0000 == s[0] as int && r % 0x100 == s[3] as int
  {
    s[0] as int * 0x100_0000 + s[1] as int * 0x1_0000 + s[2] as int * 0x100 + s[3] as int
  }

  /** Reading back a written length gives the length. */
  lemma ReadWriteUInt32BE(n: nat)
    requires n < UINT32_LIMIT
    ensures ReadUInt32BE(WriteUInt32BE(n)) == n
  {
    var hi := n / 0x1_0000;
    var lo := n % 0x1_0000;
    assert n == hi * 0x1_0000 + lo;
    assert n / 0x100_0000 == hi / 0x100;
    assert n / 0x1_0000 % 0x100 == hi % 0x100;
    assert n / 0x100 == hi * 0x100 + lo / 0x100;
    assert n / 0x100 % 0x100 == lo / 0x100;
    assert n % 0x100 == lo % 0x100;
  }
}
