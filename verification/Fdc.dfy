/** The FDC+ serial engine: one command block after the other from a byte stream that may
    fall silent anywhere (src/fdc/fdc.c). */
module Fdc {
  import opened Bytes
  import opened Protocol
  import opened DiskCore
  import opened DiskDevice
  import opened FdcController

  // ---- the disk module as the controller sees it ----

  function DiskOf(t: Table, d: int): Option<seq<byte>>
    requires TableOk(t) && 0 <= d < MAX_DRIVE
  {
    assert SlotOk(t, t.drv[d]);
    if t.drv[d].mounted then Some(t.images[ImageOf(t, d)]) else None
  }

  function DisksOf(t: Table): (r: Disks)
    requires TableOk(t)
  {
    [DiskOf(t, 0), DiskOf(t, 1), DiskOf(t, 2), DiskOf(t, 3)]
  }

  lemma InsideIsAdmitted(t: Table, io: Io)
    requires TableOk(t) && Sole(t)
    ensures Inside(DisksOf(t), io) <==> Admitted(t, io)
    ensures Admitted(t, io) ==> TrackBytes(t, t.images, io) == Some(Track(DisksOf(t), io))
  {}

  /** Writing to one image is the controller's write to one disk. */
  lemma WriteIsNext(t: Table, t': Table, io: Io, data: seq<byte>)
    requires TableOk(t) && TableOk(t') && Admitted(t, io) && |data| == io.len
    requires ImageOf(t, io.drive) in t.images && io.track * io.len + io.len <= |t.images[ImageOf(t, io.drive)]|
    requires t'.drv == t.drv && t'.backings == t.backings
    requires t'.images == t.images[ImageOf(t, io.drive) := Patch(t.images[ImageOf(t, io.drive)], io.track * io.len, data)]
    ensures DisksOf(t') == Next(DisksOf(t), Writ(io, data))
  {}

  /** A write at which the card fails is the controller's failed write. */
  lemma FailIsNext(t: Table, t': Table, io: Io, data: seq<byte>, torn: seq<byte>)
    requires TableOk(t) && Sole(t) && TableOk(t') && Admitted(t, io)
    requires ImageOf(t, io.drive) in t.images
    requires t'.drv == t.drv && t'.backings == t.backings
    requires t'.images == t.images[ImageOf(t, io.drive) := Left(t.images[ImageOf(t, io.drive)], torn)]
    ensures DisksOf(t') == Next(DisksOf(t), WritFailed(io, data, torn))
  {}

  class Engine {
    const cmd: array<byte>
    const resp: array<byte>
    const data: array<byte>
    const disk: Disk
    var line: Line            // what the line will still bring, and when
    var sent: seq<byte>       // what has gone out

    ghost predicate Valid()
      reads this, disk, disk.buf
    {
      && disk.Valid()
      && cmd.Length == BLOCK_LEN && resp.Length == BLOCK_LEN && data.Length == TRACK_BUF
      && cmd != resp && cmd != data && resp != data && data != disk.buf && cmd != disk.buf && resp != disk.buf
    }

    ghost function Disks(): Disks
      reads this, disk, disk.buf
      requires Valid()
    {
      DisksOf(disk.Tab())
    }

    constructor (disk: Disk, line: Line)
      requires disk.Valid()
      ensures Valid() && this.disk == disk && this.line == line && sent == []
      ensures fresh(cmd) && fresh(resp) && fresh(data)
      ensures Disks() == old(DisksOf(disk.Tab()))
    {
      this.disk, this.line, sent := disk, line, [];
      cmd := new byte[BLOCK_LEN](i => 0);
      resp := new byte[BLOCK_LEN](i => 0);
      data := new byte[TRACK_BUF](i => 0);
    }

    // ---- the line ----

    /** link_recv: bytes are put into buf[at..] as they come, until there are `need` of them
        or the window closes. */
    method Recv(buf: array<byte>, at: nat, need: nat) returns (got: nat)
      requires at + need <= buf.Length
      modifies this`line, buf
      ensures got == Got(old(line), need) && line == Past(old(line), got)
      ensures buf[..] == old(buf[..at]) + old(line).bytes[..got] + old(buf[at + got..])
    {
      var (bytes, window) := (line.bytes, if line.timing == [] then [] else line.timing[0]);
      ghost var first := buf[..];
      got := FillFrom(buf, at, need, bytes, window);
      assert first[..at] == old(buf[..at]) && first[at + got..] == old(buf[at + got..]);
      line := Past(line, got);
    }

    /** The calls of recv within one window. */
    method FillFrom(buf: array<byte>, at: nat, need: nat, bytes: seq<byte>, window: seq<nat>) returns (got: nat)
      requires at + need <= buf.Length
      modifies buf
      ensures got == Least(need, Least(|bytes|, Total(window)))
      ensures buf[..] == old(buf[..])[..at] + bytes[..got] + old(buf[..])[at + got..]
    {
      ghost var first := buf[..];
      var i := 0;
      got := 0;
      while got < need && i < |window|
        invariant i <= |window| && got == Least(need, Least(|bytes|, Total(window[..i])))
        invariant buf[..] == first[..at] + bytes[..got] + first[at + got..]
        decreases |window| - i
      {
        var r := Least(window[i], Least(need - got, |bytes| - got));
        OneMoreCall(window, i, got, need, |bytes|);
        Take(buf, at, got, bytes, r, first);
        got, i := got + r, i + 1;
      }
      TotalSoFar(window, i);
    }

    /** What one call of recv adds to the `got` bytes that have come so far. */
    method Take(buf: array<byte>, at: nat, got: nat, bytes: seq<byte>, r: nat, ghost first: seq<byte>)
      requires at + got + r <= buf.Length == |first| && got + r <= |bytes|
      requires buf[..] == first[..at] + bytes[..got] + first[at + got..]
      modifies buf
      ensures buf[..] == first[..at] + bytes[..got + r] + first[at + got + r..]
    {
      for i := 0 to r
        invariant buf[..] == first[..at] + bytes[..got + i] + first[at + got + i..]
      {
        buf[at + got + i] := bytes[got + i];
        Grown(first, at, bytes, got + i);
      }
    }

    /** link_flush_input: whatever has arrived by now is thrown away. */
    method Flush()
      modifies this`line
      ensures line == Flushed(old(line))
    {
      line := Flushed(line);
    }

    method BuildResp(name: seq<byte>, word1: u16, word2: u16)
      requires |name| == 4 && resp.Length == BLOCK_LEN
      modifies resp
      ensures resp[..] == Block(name, word1, word2)
    {
      var (w1, w2) := (Wr16(word1), Wr16(word2));
      resp[0], resp[1], resp[2], resp[3] := name[0], name[1], name[2], name[3];
      resp[4], resp[5], resp[6], resp[7] := w1[0], w1[1], w2[0], w2[1];
      assert resp[..8] == name + w1 + w2;
      BlockFinalize(resp);
      BlockIsDetermined(resp[..], name, word1, word2);
    }

    // ---- command handlers ----

    /** disk_status_bitmap. */
    method Stat()
      requires Valid()
      modifies this`sent, resp
      ensures Valid()
      ensures sent == old(sent) + Reply(Disks(), FdcController.Stat)
    {
      var mounted := [disk.drv[0].mounted, disk.drv[1].mounted, disk.drv[2].mounted, disk.drv[3].mounted];
      var bits := StatusBitmap(mounted);
      BitmapIs(Disks(), mounted, bits);
      BuildResp(STAT, RESP_OK, bits);
      sent := sent + resp[..];
    }

    /** READ: the track and its checksum, or silence. The card is used unless the track is
        in the buffer. */
    method Read(io: Io, card: Card) returns (ghost ev: Event, ghost used: Card)
      requires Valid() && io.len < 0x1_0000
      modifies this`sent, data, disk, disk.buf
      ensures Valid() && Disks() == old(Disks())
      ensures (used == card || (used == None && ev.Read?)) && ev == ReadTurn(Disks(), io, used)
      ensures sent == old(sent) + Reply(Disks(), ev)
    {
      ghost var t := disk.Tab();
      var err := disk.ReadTrack(io, data, card);
      SameDisks(t, disk.Tab());
      InsideIsAdmitted(disk.Tab(), io);
      used := if err == OK then None else card;
      ev := ReadTurn(Disks(), io, used);
      if err != OK {
        return;
      }
      var sum := Checksum16(data, io.len);
      sent := sent + data[..io.len] + Wr16(sum);
    }

    /** WRIT: the ready test, the track data and its checksum, and the write. */
    method Write(io: Io, card: Card) returns (ghost ev: Event)
      requires Valid() && io.len < 0x1_0000 && 0 <= io.drive
      modifies this`sent, this`line, resp, data, disk, disk.buf
      ensures Valid()
      ensures (ev, line) == WritTurn(old(Disks()), io, old(line), card)
      ensures Disks() == Next(old(Disks()), ev)
      ensures sent == old(sent) + Reply(old(Disks()), ev)
    {
      ghost var (ds, l) := (Disks(), line);
      var ready := AnswerReady(io);
      if !ready {
        return WritRefused(io);
      }
      ev := TakeTrack(io, card);
      WritReply(ds, io, l, card, old(sent));
    }

    /** Whether the drive can be written to, told to the host. */
    method AnswerReady(io: Io) returns (ready: bool)
      requires Valid() && io.len < 0x1_0000 && 0 <= io.drive
      modifies this`sent, resp
      ensures Valid() && ready == Ready(Disks(), io)
      ensures sent == old(sent) + Block(WRIT, if ready then RESP_OK else RESP_NOT_READY, 0)
    {
      ReadyIs(disk.Tab(), io);
      ready := io.len > 0 && io.len <= TRACK_BUF && io.drive < MAX_DRIVE && disk.drv[io.drive].mounted
               && !disk.drv[io.drive].readonly;
      BuildResp(WRIT, if ready then RESP_OK else RESP_NOT_READY, 0);
      sent := sent + resp[..];
    }

    /** A ready drive: the track data is received and stored, and the status sent. */
    method TakeTrack(io: Io, card: Card) returns (ghost ev: Event)
      requires Valid() && Ready(Disks(), io)
      modifies this`sent, this`line, resp, data, disk, disk.buf
      ensures Valid()
      ensures (ev, line) == WritTurn(old(Disks()), io, old(line), card)
      ensures Disks() == Next(old(Disks()), ev)
      ensures sent == old(sent) + Status(old(Disks()), ev)
    {
      var complete, intact;
      ghost var payload;
      complete, intact, payload := ReceiveTrack(io.len);
      if !complete {
        return WritCut(io);
      }
      var code: u16;
      if !intact {
        ev, code := WritDamaged(io), RESP_CSUM_ERR;
      } else {
        ev := if card.Some? && Inside(Disks(), io) then WritFailed(io, payload.data, card.value) else Writ(io, payload.data);
        code := Store(io, card);
      }
      BuildResp(WSTA, code, 0);
      sent := sent + resp[..];
    }

    /** The track data and its checksum: whether both came in full, and agree. */
    method ReceiveTrack(len: nat) returns (complete: bool, intact: bool, ghost payload: Payload)
      requires Valid() && 0 < len <= TRACK_BUF
      modifies this`line, data
      ensures Valid()
      ensures (payload, line) == PayloadOf(old(line), len)
      ensures complete == !payload.NotAll? && (complete ==> intact == payload.Right?)
      ensures payload.Right? ==> payload.data == data[..len]
    {
      ghost var was := line;
      var got := Recv(data, 0, len);
      if got != len {
        Flush();
        return false, false, NotAll;
      }
      assert data[..len] == was.bytes[..len];
      var ck := new byte[2](i => 0);
      got := Recv(ck, 0, 2);
      if got != 2 {
        Flush();
        return false, false, NotAll;
      }
      assert ck[..] == Past(was, len).bytes[..2];
      var sum := Checksum16(data, len);
      complete, intact := true, Rd16(ck[..]) == sum;
      payload := if intact then Right(data[..len]) else Wrong;
    }

    /** The track in `data` goes to the disk; 0 says that it is there. */
    method Store(io: Io, card: Card) returns (code: u16)
      requires Valid() && io.len <= TRACK_BUF
      modifies disk, disk.buf
      ensures Valid() && data[..] == old(data[..])
      ensures code == if Inside(old(Disks()), io) && card.None? then RESP_OK else RESP_WRITE_ERR
      ensures Disks() == Next(old(Disks()),
                              if card.Some? && Inside(old(Disks()), io) then WritFailed(io, data[..io.len], card.value)
                              else Writ(io, data[..io.len]))
    {
      ghost var t := disk.Tab();
      InsideIsAdmitted(t, io);
      var err := disk.WriteTrack(io, data, card);
      if err == OK {
        WriteIsNext(t, disk.Tab(), io, data[..io.len]);
        return RESP_OK;
      }
      if Admitted(t, io) {
        FailIsNext(t, disk.Tab(), io, data[..io.len], card.value);
      } else {
        SameDisks(t, disk.Tab());
      }
      return RESP_WRITE_ERR;
    }

    // ---- the task ----

    /** One turn of the loop: whatever the line brings and however it falls silent, the
        turn is the controller's, with its effect on the disks and its reply. */
    method Poll(card: Card) returns (ghost ev: Event, ghost used: Card)
      requires Valid()
      modifies this`sent, this`line, cmd, resp, data, disk, disk.buf
      ensures Valid() && (used == card || (used == None && ev.Read?))
      ensures (ev, line) == Turn(old(Disks()), old(line), used)
      ensures Disks() == Next(old(Disks()), ev)
      ensures sent == old(sent) + Reply(old(Disks()), ev)
    {
      ghost var was := line;
      var got := Recv(cmd, 0, 1);
      if got != 1 {
        return Idle, card;
      }
      assert cmd[..1] == was.bytes[..1];
      got := Recv(cmd, 1, BLOCK_LEN - 1);
      if got != BLOCK_LEN - 1 {
        Flush();
        return CutShort, card;
      }
      assert cmd[..] == was.bytes[..BLOCK_LEN];
      var valid := CheckBlock(cmd);
      if !valid {
        return Damaged, card;
      }
      ev, used := Dispatch(card);
    }

    method Dispatch(card: Card) returns (ghost ev: Event, ghost used: Card)
      requires Valid() && BlockValid(cmd[..])
      modifies this`sent, this`line, resp, data, disk, disk.buf
      ensures Valid() && (used == card || (used == None && ev.Read?))
      ensures (ev, line) ==
              var c := old(cmd[..]);
              if c[..4] == STAT then (FdcController.Stat, old(line))
              else if c[..4] == READ then (ReadTurn(old(Disks()), IoOf(c), used), old(line))
              else if c[..4] == WRIT then WritTurn(old(Disks()), IoOf(c), old(line), used)
              else (Unknown, old(line))
      ensures Disks() == Next(old(Disks()), ev)
      ensures sent == old(sent) + Reply(old(Disks()), ev)
    {
      var io := IoOf(cmd[..]);
      assert cmd[..][..4] == cmd[..4];
      used := card;
      if cmd[..4] == STAT {
        this.Stat();
        ev := FdcController.Stat;
      } else if cmd[..4] == READ {
        ev, used := this.Read(io, card);
      } else if cmd[..4] == WRIT {
        ev := this.Write(io, card);
      } else {
        ev := Unknown;
      }
    }

    /** The endless loop, for any number of turns: on any line and with any card the engine
        does to the disks and sends to the host what the controller does. The card outcomes
        that matter are those of the turns that use it. */
    method Serve(cards: seq<Card>) returns (ghost evs: seq<Event>, ghost used: seq<Card>)
      requires Valid()
      modifies this`sent, this`line, cmd, resp, data, disk, disk.buf
      ensures Valid()
      ensures UsedAs(cards, used, evs)
      ensures (evs, line) == RunOf(old(Disks()), old(line), used)
      ensures Disks() == After(old(Disks()), evs)
      ensures sent == old(sent) + Replies(old(Disks()), evs)
    {
      evs, used := [], [];
      ghost var (ds, before, l) := (Disks(), sent, line);
      for i := 0 to |cards|
        invariant Valid() && (evs, line) == RunOf(ds, l, used)
        invariant UsedAs(cards[..i], used, evs)
        invariant Disks() == After(ds, evs) && sent == before + Replies(ds, evs)
      {
        ghost var l1 := line;
        ghost var ev, u := Poll(cards[i]);
        RunGoesOn(ds, evs, ev, before);
        RunTakesOn(ds, l, used, evs, l1, ev, u, line);
        UsedOn(cards, i, used, evs, u, ev);
        evs, used := evs + [ev], used + [u];
      }
      assert cards[..|cards|] == cards;
    }
  }

  /** The bytes that one more call of recv brings. */
  lemma OneMoreCall(window: seq<nat>, i: nat, got: nat, need: nat, have: nat)
    requires i < |window| && got == Least(need, Least(have, Total(window[..i])))
    ensures got + Least(window[i], Least(need - got, have - got)) == Least(need, Least(have, Total(window[..i + 1])))
  {
    assert window[..i + 1][..i] == window[..i];
  }

  lemma {:induction false} TotalSoFar(window: seq<nat>, i: nat)
    requires i <= |window|
    ensures Total(window[..i]) <= Total(window) && (i == |window| ==> Total(window[..i]) == Total(window))
    decreases |window|
  {
    if i < |window| {
      var n := |window| - 1;
      TotalSoFar(window[..n], i);
      assert window[..n][..i] == window[..i];
    } else {
      assert window[..i] == window;
    }
  }

  /** A buffer that holds `got` bytes of a stream receives the next one. */
  lemma Grown(first: seq<byte>, at: nat, bytes: seq<byte>, got: nat)
    requires at + got < |first| && got < |bytes|
    ensures (first[..at] + bytes[..got] + first[at + got..])[at + got := bytes[got]]
            == first[..at] + bytes[..got + 1] + first[at + got + 1..]
  {}

  /** After a ready answer comes the write status. */
  lemma WritReply(ds: Disks, io: Io, l: Line, card: Card, before: seq<byte>)
    requires Ready(ds, io)
    ensures var ev := WritTurn(ds, io, l, card).0;
            before + Reply(ds, ev) == before + Block(WRIT, RESP_OK, 0) + Status(ds, ev)
  {
    Associates(before, Block(WRIT, RESP_OK, 0), Status(ds, WritTurn(ds, io, l, card).0));
  }

  /** The card outcomes that matter: all but those of READs answered from the buffer. */
  predicate UsedAs(cards: seq<Card>, used: seq<Card>, evs: seq<Event>) {
    && |used| == |cards| == |evs|
    && forall i :: 0 <= i < |cards| ==> used[i] == cards[i] || (used[i] == None && evs[i].Read?)
  }

  lemma UsedOn(cards: seq<Card>, i: nat, used: seq<Card>, evs: seq<Event>, card: Card, ev: Event)
    requires i < |cards| && UsedAs(cards[..i], used, evs) && (card == cards[i] || (card == None && ev.Read?))
    ensures UsedAs(cards[..i + 1], used + [card], evs + [ev])
  {
    forall k | 0 <= k < i ensures used[k] == cards[k] || (used[k] == None && evs[k].Read?) {
      assert cards[..i][k] == cards[k];
    }
  }

  lemma RunTakesOn(ds: Disks, l: Line, cards: seq<Card>, evs: seq<Event>, l1: Line, ev: Event, card: Card, l2: Line)
    requires (evs, l1) == RunOf(ds, l, cards) && (ev, l2) == Turn(After(ds, evs), l1, card)
    ensures (evs + [ev], l2) == RunOf(ds, l, cards + [card])
  {
    assert (cards + [card])[..|cards|] == cards;
  }

  lemma RunGoesOn(ds: Disks, evs: seq<Event>, ev: Event, before: seq<byte>)
    ensures After(ds, evs + [ev]) == Next(After(ds, evs), ev)
    ensures before + Replies(ds, evs + [ev]) == before + Replies(ds, evs) + Reply(After(ds, evs), ev)
  {
    var all := evs + [ev];
    assert all[..|all| - 1] == evs && all[|all| - 1] == ev;
    assert Replies(ds, all) == Replies(ds, evs) + Reply(After(ds, evs), ev);
    Associates(before, Replies(ds, evs), Reply(After(ds, evs), ev));
  }

  lemma ReadyIs(t: Table, io: Io)
    requires TableOk(t) && AllLocal(t)
    ensures Ready(DisksOf(t), io) <==>
            1 <= io.len <= TRACK_BUF && 0 <= io.drive < MAX_DRIVE && t.drv[io.drive].mounted && !t.drv[io.drive].readonly
  {}

  lemma SameDisks(t: Table, t': Table)
    requires TableOk(t) && TableOk(t') && t'.drv == t.drv && t'.backings == t.backings && t'.images == t.images
    ensures DisksOf(t') == DisksOf(t)
  {}

  /** A valid block is determined by its mnemonic and words. */
  lemma BlockIsDetermined(block: seq<byte>, name: seq<byte>, word1: u16, word2: u16)
    requires |name| == 4 && BlockValid(block) && block[..8] == name + Wr16(word1) + Wr16(word2)
    ensures block == Block(name, word1, word2)
  {}

  lemma BitmapIs(ds: Disks, mounted: seq<bool>, bits: u16)
    requires |mounted| == MAX_DRIVE && forall n :: 0 <= n < MAX_DRIVE ==> mounted[n] == ds[n].Some?
    requires bits < 16 && forall n :: 0 <= n < MAX_DRIVE ==> (bits / BitValue(n) % 2 == 1 <==> mounted[n])
    ensures bits == Bitmap(ds)
  {}
}
