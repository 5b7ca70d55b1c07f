/** What the bytes on the line make the FDC+ engine do, said of the bytes themselves
    (src/fdc/fdc.c, include/protocol.h). */
module FdcLine {
  import opened Bytes
  import opened Protocol
  import opened DiskCore
  import opened FdcController

  /** How many bytes the w-th receive window would bring. */
  function Due(l: Line, w: nat): nat { if w < |l.timing| then Total(l.timing[w]) else 0 }

  /** The first byte comes in the first window, the other nine in the second. */
  predicate CommandComes(l: Line) { |l.bytes| >= 10 && Due(l, 0) >= 1 && Due(l, 1) >= 9 }

  function Sum8(b: seq<byte>): nat
    requires |b| >= 8
  {
    b[0] as int + b[1] as int + b[2] as int + b[3] as int + b[4] as int + b[5] as int + b[6] as int + b[7] as int
  }

  /** Ten bytes that end in the sum of the first eight, low byte first. */
  predicate Checked(b: seq<byte>) { |b| >= 10 && b[8] as int + 0x100 * b[9] as int == Sum8(b) }

  /** A valid command block of this name, for drive d, track t and length n: four bits of
      drive and twelve of track in the first word, the length in the second, both with the
      low byte first. */
  predicate Asks(b: seq<byte>, name: seq<byte>, d: nat, t: nat, n: nat) {
    && Checked(b) && b[..4] == name
    && d == b[5] / 16 && t == b[4] as int + 0x100 * (b[5] as int % 16) && n == b[6] as int + 0x100 * b[7] as int
  }

  /** The drive is there, and a track of this length fits the buffer. */
  predicate Serves(ds: Disks, d: nat, n: nat) { d < 4 && ds[d].Some? && 1 <= n <= 8192 }

  predicate OnDisk(ds: Disks, d: nat, t: nat, n: nat) { Serves(ds, d, n) && t * n + n <= |ds[d].value| }

  /** The t-th n bytes of drive d. */
  function BytesAt(ds: Disks, d: nat, t: nat, n: nat): (r: seq<byte>)
    requires OnDisk(ds, d, t, n)
    ensures |r| == n
  {
    ds[d].value[t * n..t * n + n]
  }

  /** Drive d with these bytes in place of its t-th. */
  function WithBytes(ds: Disks, d: nat, t: nat, data: seq<byte>): (r: Disks)
    requires OnDisk(ds, d, t, |data|)
  {
    ds[d := Some(Patch(ds[d].value, t * |data|, data))]
  }

  lemma LowHigh(sum: nat)
    ensures Wr16(sum % 0x1_0000) == [sum % 0x100, sum / 0x100 % 0x100]
  {
    var (q, r) := (sum / 0x1_0000, sum % 0x1_0000);
    assert sum == 0x100 * (0x100 * q + r / 0x100) + r % 0x100;
    assert sum / 0x100 == 0x100 * q + r / 0x100;
  }

  lemma SumGrows(b: seq<byte>, k: nat)
    requires k < |b|
    ensures Sum(b[..k + 1]) == Sum(b[..k]) + b[k]
  {
    assert b[..k + 1][..k] == b[..k];
  }

  lemma SumOfEight(b: seq<byte>)
    requires |b| >= 8
    ensures Sum(b[..8]) == Sum8(b)
  {
    assert b[..0] == [];
    SumGrows(b, 0);
    SumGrows(b, 1);
    SumGrows(b, 2);
    SumGrows(b, 3);
    SumGrows(b, 4);
    SumGrows(b, 5);
    SumGrows(b, 6);
    SumGrows(b, 7);
  }

  lemma CheckedIsValid(b: seq<byte>)
    requires |b| >= 10
    ensures Checked(b) <==> BlockValid(b[..10])
  {
    SumOfEight(b);
    assert b[..10][..8] == b[..8];
  }

  lemma FieldsAre(b: seq<byte>, name: seq<byte>, d: nat, t: nat, n: nat)
    requires Asks(b, name, d, t, n)
    ensures t < 0x1000 && n < 0x1_0000 && IoOf(b[..10]) == Io(d, t, n)
  {}

  /** The bytes of a block that is sent: mnemonic, two words and the sum. */
  predicate Answer(r: seq<byte>, name: seq<byte>, word1: nat, word2: nat) {
    && |r| == 10 && r[..4] == name && Checked(r)
    && r[4] as int + 0x100 * r[5] as int == word1 && r[6] as int + 0x100 * r[7] as int == word2
  }

  lemma BlockIsAnswer(name: seq<byte>, word1: u16, word2: u16)
    requires |name| == 4
    ensures Answer(Block(name, word1, word2), name, word1, word2)
  {
    CheckedIsValid(Block(name, word1, word2));
    assert Block(name, word1, word2)[..10] == Block(name, word1, word2);
  }

  // ---- what a turn does ----

  /** What a turn of the loop comes to: the output, the disks, and what is left on the line. */
  datatype Outcome = Outcome(out: seq<byte>, disks: Disks, rest: seq<byte>)

  function Done(ds: Disks, l: Line, card: Card): Outcome {
    var (ev, l') := Turn(ds, l, card);
    Outcome(Reply(ds, ev), Next(ds, ev), l'.bytes)
  }

  /** A command block that came in time is taken off the line whole. */
  lemma CommandTaken(l: Line)
    requires CommandComes(l)
    ensures Got(l, 1) == 1 && Got(Past(l, 1), 9) == 9
    ensures var l2 := Past(Past(l, 1), 9);
            && l2.bytes == l.bytes[10..] && Due(l2, 0) == Due(l, 2) && Due(l2, 1) == Due(l, 3)
  {}

  /** The turn on a valid command block. */
  lemma CommandTurn(ds: Disks, l: Line, card: Card, name: seq<byte>, d: nat, t: nat, n: nat)
    requires CommandComes(l) && Asks(l.bytes, name, d, t, n)
    ensures t < 0x1000 && n < 0x1_0000
    ensures var (io, l2) := (Io(d, t, n), Past(Past(l, 1), 9));
            && l2.bytes == l.bytes[10..] && Due(l2, 0) == Due(l, 2) && Due(l2, 1) == Due(l, 3)
            && (name == READ ==> Turn(ds, l, card) == (ReadTurn(ds, io, card), l2))
            && (name == STAT ==> Turn(ds, l, card) == (Stat, l2))
            && (name == WRIT ==> Turn(ds, l, card) == WritTurn(ds, io, l2, card))
  {
    CommandTaken(l);
    CheckedIsValid(l.bytes);
    FieldsAre(l.bytes, name, d, t, n);
    assert l.bytes[..10][..4] == l.bytes[..4];
  }

  /** READ for a track that is there, and a card that works: the track's bytes, and their sum
      with the low byte first. Nothing at all otherwise. */
  lemma ReadOnTheLine(ds: Disks, l: Line, card: Card, d: nat, t: nat, n: nat)
    requires CommandComes(l) && Asks(l.bytes, [0x52, 0x45, 0x41, 0x44], d, t, n)
    ensures var o := Done(ds, l, card);
            && o.disks == ds && o.rest == l.bytes[10..]
            && if OnDisk(ds, d, t, n) && card.None? then
                 var data := BytesAt(ds, d, t, n);
                 o.out == data + [Sum(data) % 0x100, Sum(data) / 0x100 % 0x100]
               else o.out == []
  {
    CommandTurn(ds, l, card, READ, d, t, n);
    ReadIsSent(ds, Io(d, t, n), card);
  }

  lemma ReadIsSent(ds: Disks, io: Io, card: Card)
    requires io.drive >= 0
    ensures var ev := ReadTurn(ds, io, card);
            && Next(ds, ev) == ds
            && if OnDisk(ds, io.drive, io.track, io.len) && card.None? then
                 var data := BytesAt(ds, io.drive, io.track, io.len);
                 Reply(ds, ev) == data + [Sum(data) % 0x100, Sum(data) / 0x100 % 0x100]
               else Reply(ds, ev) == []
  {
    InsideIsOnDisk(ds, io);
    if OnDisk(ds, io.drive, io.track, io.len) {
      LowHigh(Sum(Track(ds, io)));
    }
  }

  lemma InsideIsOnDisk(ds: Disks, io: Io)
    requires io.drive >= 0
    ensures Ready(ds, io) <==> Serves(ds, io.drive, io.len)
    ensures Inside(ds, io) <==> OnDisk(ds, io.drive, io.track, io.len)
    ensures Inside(ds, io) ==> Track(ds, io) == BytesAt(ds, io.drive, io.track, io.len)
  {}

  /** STAT: which drives are mounted, drive 0 in the lowest bit. */
  lemma StatOnTheLine(ds: Disks, l: Line, card: Card, d: nat, t: nat, n: nat)
    requires CommandComes(l) && Asks(l.bytes, [0x53, 0x54, 0x41, 0x54], d, t, n)
    ensures var o := Done(ds, l, card);
            && o.disks == ds && o.rest == l.bytes[10..]
            && Answer(o.out, [0x53, 0x54, 0x41, 0x54], 0, Bit(ds[0], 1) + Bit(ds[1], 2) + Bit(ds[2], 4) + Bit(ds[3], 8))
  {
    CommandTurn(ds, l, card, STAT, d, t, n);
    BlockIsAnswer(STAT, 0, Bitmap(ds));
  }

  function Bit(d: Option<seq<byte>>, v: nat): nat { if d.Some? then v else 0 }

  /** Whatever is no command of the three, or no valid block, is passed over in silence. */
  lemma OtherOnTheLine(ds: Disks, l: Line, card: Card)
    requires CommandComes(l)
    requires Checked(l.bytes) ==> l.bytes[..4] !in {[0x52, 0x45, 0x41, 0x44], [0x53, 0x54, 0x41, 0x54], [0x57, 0x52, 0x49, 0x54]}
    ensures Done(ds, l, card) == Outcome([], ds, l.bytes[10..])
  {
    CommandTaken(l);
    CheckedIsValid(l.bytes);
    assert l.bytes[..10][..4] == l.bytes[..4];
  }

  /** Without a command block nothing is sent and nothing is written; and if not even a byte
      comes nothing is taken off the line. */
  lemma SilenceOnTheLine(ds: Disks, l: Line, card: Card)
    requires !CommandComes(l)
    ensures var o := Done(ds, l, card);
            && o.out == [] && o.disks == ds
            && (|l.bytes| == 0 || Due(l, 0) == 0 ==> o.rest == l.bytes)
  {}

  // ---- WRIT ----

  /** WRIT for a drive that is not there, or a length that does not fit: not ready. */
  lemma UnreadyOnTheLine(ds: Disks, l: Line, card: Card, d: nat, t: nat, n: nat)
    requires CommandComes(l) && Asks(l.bytes, [0x57, 0x52, 0x49, 0x54], d, t, n) && !Serves(ds, d, n)
    ensures var o := Done(ds, l, card);
            o.disks == ds && o.rest == l.bytes[10..] && Answer(o.out, [0x57, 0x52, 0x49, 0x54], 1, 0)
  {
    CommandTurn(ds, l, card, WRIT, d, t, n);
    BlockIsAnswer(WRIT, 1, 0);
  }

  /** The track data comes in the third window, and its sum in the fourth. */
  predicate DataComes(l: Line, n: nat) { |l.bytes| >= 10 + n + 2 && Due(l, 2) >= n && Due(l, 3) >= 2 }

  /** The write status: 2 for a sum that is not that of the data, 3 when the track is not
      there or the card fails, and else 0. */
  function StatusOf(ds: Disks, d: nat, t: nat, data: seq<byte>, sum: nat, card: Card): nat {
    if sum != Sum(data) % 0x1_0000 then 2 else if !OnDisk(ds, d, t, |data|) || card.Some? then 3 else 0
  }

  /** What the write leaves: on 0 exactly the track is replaced by the data, and on 2 and 3
      nothing is, but for the drive on which the card failed. */
  predicate Leaves(ds: Disks, disks: Disks, d: nat, t: nat, data: seq<byte>, status: nat, card: Card) {
    if status == 0 then
      OnDisk(ds, d, t, |data|) && disks == WithBytes(ds, d, t, data)
    else
      disks == ds || (card.Some? && status == 3 && OnDisk(ds, d, t, |data|) && disks == ds[d := disks[d]]
                      && disks[d].Some? && |disks[d].value| == |ds[d].value|)
  }

  /** WRIT with its data: ready, and the status, and what that says of the disks. */
  lemma WritOnTheLine(ds: Disks, l: Line, card: Card, d: nat, t: nat, n: nat)
    requires CommandComes(l) && Asks(l.bytes, [0x57, 0x52, 0x49, 0x54], d, t, n)
    requires Serves(ds, d, n) && DataComes(l, n)
    ensures var (b, o, data) := (l.bytes, Done(ds, l, card), l.bytes[10..10 + n]);
            var status := StatusOf(ds, d, t, data, b[10 + n] as int + 0x100 * b[11 + n] as int, card);
            && o.rest == b[12 + n..]
            && |o.out| == 20 && Answer(o.out[..10], [0x57, 0x52, 0x49, 0x54], 0, 0)
            && Answer(o.out[10..], [0x57, 0x53, 0x54, 0x41], status, 0)
            && Leaves(ds, o.disks, d, t, data, status, card)
  {
    CommandTurn(ds, l, card, WRIT, d, t, n);
    var (b, l2) := (l.bytes, Past(Past(l, 1), 9));
    DataTaken(l2, b, n);
    WritIsAnswered(ds, Io(d, t, n), l2, b[10..10 + n], b[10 + n] as int + 0x100 * b[11 + n] as int, card);
  }

  lemma DataTaken(l2: Line, b: seq<byte>, n: nat)
    requires |b| >= 10 + n + 2 && l2.bytes == b[10..] && Due(l2, 0) >= n && Due(l2, 1) >= 2
    ensures var ((p, l'), data) := (PayloadOf(l2, n), b[10..10 + n]);
            && l'.bytes == b[12 + n..]
            && p == if b[10 + n] as int + 0x100 * b[11 + n] as int == Sum(data) % 0x1_0000 then Right(data) else Wrong
  {
    assert l2.bytes[..n] == b[10..10 + n];
    assert Past(l2, n).bytes == b[10 + n..];
  }

  lemma WritIsAnswered(ds: Disks, io: Io, l2: Line, data: seq<byte>, sum: nat, card: Card)
    requires io.drive >= 0 && Serves(ds, io.drive, io.len) && |data| == io.len
    requires PayloadOf(l2, io.len).0 == if sum == Sum(data) % 0x1_0000 then Right(data) else Wrong
    ensures var (ev, l') := WritTurn(ds, io, l2, card);
            var (out, status) := (Reply(ds, ev), StatusOf(ds, io.drive, io.track, data, sum, card));
            && l' == PayloadOf(l2, io.len).1
            && |out| == 20 && Answer(out[..10], [0x57, 0x52, 0x49, 0x54], 0, 0)
            && Answer(out[10..], [0x57, 0x53, 0x54, 0x41], status, 0)
            && Leaves(ds, Next(ds, ev), io.drive, io.track, data, status, card)
  {
    InsideIsOnDisk(ds, io);
    WritIsStored(ds, io, data, sum, card);
    StatusIsSent(ds, io, data, sum, card);
  }

  /** The event of a WRIT with its data. */
  function WritEvent(ds: Disks, io: Io, data: seq<byte>, sum: nat, card: Card): Event {
    if sum != Sum(data) % 0x1_0000 then WritDamaged(io)
    else if card.Some? && Inside(ds, io) then WritFailed(io, data, card.value)
    else Writ(io, data)
  }

  lemma WritIsStored(ds: Disks, io: Io, data: seq<byte>, sum: nat, card: Card)
    requires io.drive >= 0 && Serves(ds, io.drive, io.len) && |data| == io.len
    ensures Leaves(ds, Next(ds, WritEvent(ds, io, data, sum, card)), io.drive, io.track, data,
                   StatusOf(ds, io.drive, io.track, data, sum, card), card)
  {
    InsideIsOnDisk(ds, io);
  }

  lemma StatusIsSent(ds: Disks, io: Io, data: seq<byte>, sum: nat, card: Card)
    requires io.drive >= 0 && Serves(ds, io.drive, io.len) && |data| == io.len
    ensures var out := Reply(ds, WritEvent(ds, io, data, sum, card));
            && |out| == 20 && Answer(out[..10], [0x57, 0x52, 0x49, 0x54], 0, 0)
            && Answer(out[10..], [0x57, 0x53, 0x54, 0x41], StatusOf(ds, io.drive, io.track, data, sum, card), 0)
  {
    InsideIsOnDisk(ds, io);
    var (out, status) := (Reply(ds, WritEvent(ds, io, data, sum, card)), StatusOf(ds, io.drive, io.track, data, sum, card));
    BlockIsAnswer(WRIT, 0, 0);
    BlockIsAnswer(WSTA, status, 0);
    assert out == Block(WRIT, 0, 0) + Block(WSTA, status, 0);
    assert out[..10] == Block(WRIT, 0, 0) && out[10..] == Block(WSTA, status, 0);
  }

  /** WRIT whose data does not come in full: ready, no status, and nothing is written. */
  lemma CutOnTheLine(ds: Disks, l: Line, card: Card, d: nat, t: nat, n: nat)
    requires CommandComes(l) && Asks(l.bytes, [0x57, 0x52, 0x49, 0x54], d, t, n)
    requires Serves(ds, d, n) && !DataComes(l, n)
    ensures var o := Done(ds, l, card);
            o.disks == ds && Answer(o.out, [0x57, 0x52, 0x49, 0x54], 0, 0)
  {
    CommandTurn(ds, l, card, WRIT, d, t, n);
    DataShort(Past(Past(l, 1), 9), n);
    BlockIsAnswer(WRIT, 0, 0);
  }

  lemma DataShort(l2: Line, n: nat)
    requires |l2.bytes| < n + 2 || Due(l2, 0) < n || Due(l2, 1) < 2
    ensures PayloadOf(l2, n).0.NotAll?
  {}
}
