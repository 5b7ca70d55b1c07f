/** The disk module as the fdc task uses it when every mounted drive is a local image
    (src/disk/disk.c). Each method is the critical section of DiskCore, done in place. */
module DiskDevice {
  import opened Bytes
  import opened Protocol
  import opened DiskCore

  /** Nothing else writes to the mounted images, which are as long as when they were mounted. */
  predicate Sole(t: Table) {
    forall d :: 0 <= d < |t.drv| && Installed(t, d) && ImageOf(t, d) in t.images ==>
      Untouched(t, d) && |t.images[ImageOf(t, d)]| == t.backings[t.drv[d].backing.value].size
  }

  predicate AllLocal(t: Table) { forall d :: 0 <= d < |t.drv| ==> !t.drv[d].remote }

  /** memcpy of the first n bytes. */
  method Copy(src: array<byte>, dst: array<byte>, n: nat)
    requires src != dst && n <= src.Length && n <= dst.Length
    modifies dst
    ensures dst[..] == src[..n] + old(dst[n..])
  {
    for i := 0 to n
      invariant dst[..i] == src[..i] && dst[i..] == old(dst[i..])
    {
      ghost var rest := dst[i..];
      dst[i] := src[i];
      assert dst[..i + 1] == src[..i + 1] && dst[i + 1..] == rest[1..];
    }
    assert dst[..] == dst[..n] + dst[n..];
  }

  method Fill(dst: array<byte>, data: seq<byte>)
    requires |data| <= dst.Length
    modifies dst
    ensures dst[..] == FillBuf(old(dst[..]), data)
  {
    for i := 0 to |data|
      invariant dst[..i] == data[..i] && dst[i..] == old(dst[i..])
    {
      ghost var rest := dst[i..];
      dst[i] := data[i];
      assert dst[..i + 1] == data[..i + 1] && dst[i + 1..] == rest[1..];
    }
    assert dst[..] == dst[..|data|] + dst[|data|..];
    assert old(dst[..])[|data|..] == old(dst[|data|..]);
  }

  class Disk {
    var drv: seq<Slot>
    var backings: map<nat, Backing>
    var images: map<nat, seq<byte>>
    var cache: Cache
    const buf: array<byte>

    ghost function Tab(): Table
      reads this, buf
    {
      Table(drv, backings, images, buf[..], cache)
    }

    ghost predicate Valid()
      reads this, buf
    {
      buf.Length == TRACK_BUF && TableOk(Tab()) && Sole(Tab()) && AllLocal(Tab()) && Coherent(Tab(), images)
    }

    /** A disk module with these drives mounted and nothing cached. */
    constructor (drv: seq<Slot>, backings: map<nat, Backing>, images: map<nat, seq<byte>>)
      requires var t := Table(drv, backings, images, seq(TRACK_BUF, i => 0), Invalid); TableOk(t) && Sole(t) && AllLocal(t)
      ensures Valid() && fresh(buf)
      ensures this.drv == drv && this.backings == backings && this.images == images && cache == Invalid
    {
      this.drv, this.backings, this.images, cache := drv, backings, images, Invalid;
      buf := new byte[TRACK_BUF](i => 0);
      new;
      assert buf[..] == seq(TRACK_BUF, i => 0);
    }

    method Check(io: Io) returns (c: Code)
      requires Valid()
      ensures c == CheckTrack(Tab(), io) && (c == OK <==> Admitted(Tab(), io))
    {
      CheckTrackExact(Tab(), io);
      if !(0 <= io.drive < MAX_DRIVE) {
        return INVALID_ARG;
      }
      if io.len == 0 || io.len > TRACK_BUF {
        return INVALID_SIZE;
      }
      assert SlotOk(Tab(), drv[io.drive]);
      if !drv[io.drive].mounted || drv[io.drive].backing.None? {
        return INVALID_STATE;
      }
      if !TrackInBounds(io.track, io.len, backings[drv[io.drive].backing.value].size) {
        return INVALID_SIZE;
      }
      return OK;
    }

    /** disk_read_track: OK only for a track inside the mounted image, and then with that
        image's bytes, from the cache or from the card. `fault` is what the card does if it
        is read: it fails, and leaves junk in the buffer. Only then is such a track refused. */
    method ReadTrack(io: Io, dst: array<byte>, fault: Option<seq<byte>>) returns (c: Code)
      requires Valid() && dst != buf && dst.Length == TRACK_BUF
      modifies this, buf, dst
      ensures Valid()
      ensures Tab() == ReadLocked(old(Tab()), io, fault).0
      ensures drv == old(drv) && backings == old(backings) && images == old(images)
      ensures Admitted(Tab(), io) ==> c == OK || (c == FAIL && fault.Some? && cache == Invalid)
      ensures c == OK ==> Admitted(Tab(), io)
      ensures c == OK ==> TrackBytes(Tab(), images, io) == Some(dst[..io.len])
    {
      c := Check(io);
      if c != OK {
        return;
      }
      if cache != Cache.Valid(io.drive, io.track, io.len) {
        c := Fetch(io, fault);
        if c != OK {
          return;
        }
      }
      Copy(buf, dst, io.len);
      assert dst[..io.len] == buf[..io.len];
    }

    /** The track is read from the card into the buffer. */
    method Fetch(io: Io, fault: Option<seq<byte>>) returns (c: Code)
      requires Valid() && Admitted(Tab(), io) && cache != Cache.Valid(io.drive, io.track, io.len)
      modifies this`cache, buf
      ensures Valid()
      ensures Tab() == ReadLocked(old(Tab()), io, fault).0
      ensures if fault.None? then c == OK && cache == Cache.Valid(io.drive, io.track, io.len) else c == FAIL && cache == Invalid
    {
      ghost var t := Tab();
      ReadLockedIsCorrect(t, images, io, fault);
      CheckTrackExact(t, io);
      if fault.Some? {
        if |fault.value| == TRACK_BUF {
          Fill(buf, fault.value);
          assert buf[..] == fault.value;
        }
        cache := Invalid;
        return FAIL;
      }
      var off := TrackOffset(io.track, io.len);
      Fill(buf, images[backings[drv[io.drive].backing.value].image][off..off + io.len]);
      cache := Cache.Valid(io.drive, io.track, io.len);
      c := OK;
    }

    /** disk_write_track: OK exactly for a track inside the mounted image that the card took;
        the image then holds these bytes there and is otherwise unchanged. A card that fails
        may leave anything of the same size in that image, and no other. */
    method WriteTrack(io: Io, data: array<byte>, fault: Option<seq<byte>>) returns (c: Code)
      requires Valid() && data != buf && io.len <= data.Length
      modifies this, buf
      ensures Valid()
      ensures Tab() == WriteLocked(old(Tab()), io, data[..io.len], fault).0
      ensures drv == old(drv) && backings == old(backings)
      ensures c == OK <==> Admitted(Tab(), io) && fault.None?
      ensures c == OK ==>
                && ImageOf(Tab(), io.drive) in old(images)
                && io.track * io.len + io.len <= |old(images)[ImageOf(Tab(), io.drive)]|
                && images == old(images)[ImageOf(Tab(), io.drive) :=
                                Patch(old(images)[ImageOf(Tab(), io.drive)], io.track * io.len, data[..io.len])]
      ensures !Admitted(Tab(), io) ==> images == old(images)
      ensures Admitted(Tab(), io) && fault.Some? ==>
                && c == FAIL && ImageOf(Tab(), io.drive) in old(images)
                && images == old(images)[ImageOf(Tab(), io.drive) := Left(old(images)[ImageOf(Tab(), io.drive)], fault.value)]
    {
      ghost var t := Tab();
      WriteLockedIsCorrect(t, images, io, data[..io.len], fault);
      CheckTrackExact(t, io);
      c := Check(io);
      if c != OK {
        return;
      }
      var img := backings[drv[io.drive].backing.value].image;
      if fault.Some? {
        images, cache := images[img := Left(images[img], fault.value)], DropDrive(cache, io.drive);
        return FAIL;
      }
      images := images[img := Patch(images[img], TrackOffset(io.track, io.len), data[..io.len])];
      Copy(data, buf, io.len);
      cache := Cache.Valid(io.drive, io.track, io.len);
    }
  }
}
