/** Byte-level vocabulary shared by every module: bytes, fixed-width integers and
    the little-endian accessors both wire protocols use. */
module Bytes {
  type byte = x: int | 0 <= x < 0x100
  type u16 = x: int | 0 <= x < 0x1_0000
  type u32 = x: int | 0 <= x < 0x1_0000_0000

  datatype Option<+T> = None | Some(value: T)

  function Least(a: int, b: int): int { if a <= b then a else b }

  lemma Associates<T>(a: seq<T>, b: seq<T>, c: seq<T>)
    ensures (a + b) + c == a + (b + c)
  {}

  function Rd16(s: seq<byte>): (r: u16)
    requires |s| >= 2
  {
    s[0] as int + s[1] as int * 0x100
  }

  function Rd32(s: seq<byte>): (r: u32)
    requires |s| >= 4
  {
    s[0] as int + s[1] as int * 0x100 + s[2] as int * 0x1_0000 + s[3] as int * 0x100_0000
  }

  function Wr16(v: u16): (s: seq<byte>)
    ensures |s| == 2 && Rd16(s) == v
  {
    [v % 0x100, v / 0x100]
  }

  function Wr32(v: u32): (s: seq<byte>)
    ensures |s| == 4 && Rd32(s) == v
  {
    var (v8, v16, v24) := (v / 0x100, v / 0x100 / 0x100, v / 0x100 / 0x100 / 0x100);
    [v % 0x100, v8 % 0x100, v16 % 0x100, v24]
  }

  /** Reading inverts writing in the other direction too, so a 16-bit word on the wire
      and its value determine each other. */
  lemma Wr16Inverts(s: seq<byte>)
    requires |s| == 2
    ensures Wr16(Rd16(s)) == s
  {}

  /** Replace `data` at `off`: what a positioned write does to a byte array. */
  function Patch(s: seq<byte>, off: nat, data: seq<byte>): (r: seq<byte>)
    requires off + |data| <= |s|
    ensures |r| == |s|
    ensures r[off..off + |data|] == data
    ensures forall i :: 0 <= i < |s| && !(off <= i < off + |data|) ==> r[i] == s[i]
  {
    s[..off] + data + s[off + |data|..]
  }
}
