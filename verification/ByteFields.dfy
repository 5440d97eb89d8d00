/** Bytes, and the little-endian fields made of them. */
module ByteFields {

  type byte = b: int | 0 <= b < 256

  function Word(m: seq<byte>, at: nat): (w: nat)
    requires at + 2 <= |m|
    ensures w < 0x1_0000
  {
    m[at] as int + 0x100 * m[at + 1] as int
  }

  function Dword(m: seq<byte>, at: nat): (d: nat)
    requires at + 4 <= |m|
    ensures d < 0x1_0000_0000
  {
    m[at] as int + 0x100 * m[at + 1] as int + 0x1_0000 * m[at + 2] as int + 0x100_0000 * m[at + 3] as int
  }

  function Word2(w: nat): (bs: seq<byte>)
    requires w < 0x1_0000
    ensures |bs| == 2 && Word(bs, 0) == w
  {
    [w % 256, w / 256]
  }

  function Dword4(d: nat): (bs: seq<byte>)
    requires d < 0x1_0000_0000
    ensures |bs| == 4 && Dword(bs, 0) == d
  {
    var low, high := d % 0x1_0000, d / 0x1_0000;
    [low % 0x100, low / 0x100, high % 0x100, high / 0x100]
  }

  function Zeros(n: nat): (z: seq<byte>)
    ensures |z| == n && forall i :: 0 <= i < n ==> z[i] == 0
  {
    seq(n, _ => 0)
  }
}
