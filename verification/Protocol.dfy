/** The FDC+ block format and disk geometry (include/protocol.h). */
module Protocol {
  import opened Bytes

  const BLOCK_LEN := 10
  const OFF_CKSUM := 8
  const TRACK_BUF := 8192
  const MAX_DRIVE := 4
  const UINT32_MAX := 0xFFFF_FFFF

  /** Sum of the bytes without any width limit; the wire carries it modulo 2^16. */
  function Sum(s: seq<byte>): nat {
    if s == [] then 0 else Sum(s[..|s| - 1]) + s[|s| - 1]
  }

  /** The accumulator wraps at every addition, which is the same as wrapping once. */
  method Checksum16(data: array<byte>, n: nat) returns (sum: u16)
    requires n <= data.Length
    ensures sum == Sum(data[..n]) % 0x1_0000
  {
    sum := 0;
    var i := 0;
    while i < n
      invariant 0 <= i <= n
      invariant sum == Sum(data[..i]) % 0x1_0000
    {
      assert data[..i + 1][..i] == data[..i];
      sum := (sum + data[i]) % 0x1_0000;
      i := i + 1;
    }
  }

  predicate BlockValid(block: seq<byte>) {
    |block| == BLOCK_LEN && Rd16(block[OFF_CKSUM..]) == Sum(block[..OFF_CKSUM]) % 0x1_0000
  }

  method BlockFinalize(block: array<byte>)
    requires block.Length == BLOCK_LEN
    modifies block
    ensures block[..OFF_CKSUM] == old(block[..OFF_CKSUM])
    ensures BlockValid(block[..])
  {
    var sum := Checksum16(block, OFF_CKSUM);
    var w := Wr16(sum);
    block[OFF_CKSUM], block[OFF_CKSUM + 1] := w[0], w[1];
    assert block[..][..OFF_CKSUM] == old(block[..OFF_CKSUM]);
    assert block[..][OFF_CKSUM..] == w;
  }

  method CheckBlock(block: array<byte>) returns (ok: bool)
    requires block.Length == BLOCK_LEN
    ensures ok <==> BlockValid(block[..])
  {
    var sum := Checksum16(block, OFF_CKSUM);
    assert block[..][..OFF_CKSUM] == block[..OFF_CKSUM];
    ok := block[OFF_CKSUM] as int + block[OFF_CKSUM + 1] as int * 0x100 == sum;
  }

  lemma {:induction false} SumConcat(a: seq<byte>, b: seq<byte>)
    ensures Sum(a + b) == Sum(a) + Sum(b)
  {
    if b == [] {
      assert a + b == a;
    } else {
      var b' := b[..|b| - 1];
      assert (a + b)[..|a + b| - 1] == a + b';
      SumConcat(a, b');
    }
  }

  /** A valid block with one byte changed before the checksum is never valid: the sum
      moves by less than 2^8, so it cannot come back modulo 2^16. */
  lemma OneByteErrorDetected(block: seq<byte>, i: nat, v: byte)
    requires BlockValid(block) && i < OFF_CKSUM && v != block[i]
    ensures !BlockValid(block[i := v])
  {
    var c := block[i := v];
    var head, tail := block[..i], block[i + 1..OFF_CKSUM];
    assert block[..OFF_CKSUM] == (head + [block[i]]) + tail;
    assert c[..OFF_CKSUM] == (head + [v]) + tail;
    SumConcat(head + [block[i]], tail);
    SumConcat(head + [v], tail);
    SumConcat(head, [block[i]]);
    SumConcat(head, [v]);
    assert [v][..0] == [] && [block[i]][..0] == [];
    assert Sum([v]) == v && Sum([block[i]]) == block[i];
    assert c[OFF_CKSUM..] == block[OFF_CKSUM..];
  }

  function Word1Drive(w: u16): nat { w / 0x1000 }
  function Word1Track(w: u16): nat { w % 0x1000 }

  /** 32-bit product, as the image offset is computed. */
  function TrackOffset(track: u32, len: u32): u32 { (track * len) % 0x1_0000_0000 }

  /** disk_track_in_bounds: every product and difference is 32-bit. */
  predicate TrackInBounds(track: u32, len: u32, size: u32) {
    if len == 0 then false
    else if track > UINT32_MAX / len then false
    else
      var off := TrackOffset(track, len);
      if off > size then false else size - off >= len
  }

  /** The guarded 32-bit test admits exactly the tracks that lie inside the image when
      computed without any width limit, and then the offset did not wrap. */
  lemma BoundsAreExact(track: u32, len: u32, size: u32)
    ensures TrackInBounds(track, len, size) <==> len > 0 && track * len + len <= size
    ensures TrackInBounds(track, len, size) ==> TrackOffset(track, len) == track * len
  {
    if len > 0 {
      var q := UINT32_MAX / len;
      if track > q {
        assert track * len >= (q + 1) * len by { MulMono(q + 1, track, len); }
        assert (q + 1) * len > UINT32_MAX;
      } else {
        assert track * len <= q * len by { MulMono(track, q, len); }
        assert q * len <= UINT32_MAX;
      }
    }
  }

  lemma MulMono(a: int, b: int, k: nat)
    requires a <= b
    ensures a * k <= b * k
  {}

  function BitValue(n: nat): (v: nat)
    requires n < MAX_DRIVE
  {
    [1, 2, 4, 8][n]
  }

  /** STAT bitmap: bit n set exactly when drive n is mounted, all higher bits clear. */
  method StatusBitmap(mounted: seq<bool>) returns (bits: u16)
    requires |mounted| == MAX_DRIVE
    ensures bits < 16
    ensures forall n :: 0 <= n < MAX_DRIVE ==> (bits / BitValue(n) % 2 == 1 <==> mounted[n])
  {
    bits := 0;
    var i := 0;
    while i < MAX_DRIVE
      invariant 0 <= i <= MAX_DRIVE
      invariant i < MAX_DRIVE ==> bits < BitValue(i)
      invariant bits < 16
      invariant forall n :: 0 <= n < i ==> (bits / BitValue(n) % 2 == 1 <==> mounted[n])
    {
      if mounted[i] {
        bits := bits + BitValue(i); // bit i is still clear, so or-ing it in is adding it
      }
      i := i + 1;
    }
  }
}
