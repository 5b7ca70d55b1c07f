/** The mount table, the shared track buffer with its one-entry cache, and the two
    track operations as they run inside the disk lock (src/disk/disk.c). Both the
    concurrent model and the single-task device are built on these bodies. */
module DiskCore {
  import opened Bytes
  import opened Protocol

  type Path = seq<string>

  datatype Code = OK | INVALID_ARG | INVALID_SIZE | INVALID_STATE | NOT_SUPPORTED
                | NOT_FOUND | NO_MEM | TIMEOUT | BUSY | FAIL

  /** The (drive, track, len) triple of a track request. */
  datatype Io = Io(drive: int, track: u32, len: u32)

  datatype Slot = Slot(mounted: bool, remote: bool, readonly: bool, name: string, canon: Path, backing: Option<nat>)

  const EMPTY_SLOT := Slot(false, false, false, "", [], None)

  /** `name` records what the backing was opened from, a file or a URL, and `readonly` that it
      was granted for reading alone; `foreign` that something else has written to its file
      since, through a handle of its own. Nothing in the code depends on these. */
  datatype Backing = Backing(remote: bool, image: nat, size: u32, foreign: bool, name: string, readonly: bool)

  datatype Cache = Invalid | Valid(drive: int, track: u32, len: u32)

  datatype Table = Table(drv: seq<Slot>, backings: map<nat, Backing>, images: map<nat, seq<byte>>,
                         buf: seq<byte>, cache: Cache)

  predicate DriveOk(d: int) { 0 <= d < MAX_DRIVE }

  /** What holds of one slot: mounted iff a backing is installed, the remote flag is the kind
      of that backing, and its image is as long as it was when opened or longer, unless
      something else has written to it. */
  predicate SlotOk(t: Table, slot: Slot) {
    && (slot.mounted <==> slot.backing.Some?)
    && (slot.readonly ==> slot.remote)
    && (slot.backing.Some? ==>
          var b := slot.backing.value;
          && b in t.backings
          && t.backings[b].remote == slot.remote
          && t.backings[b].image in t.images
          && (!t.backings[b].foreign ==> t.backings[b].size <= |t.images[t.backings[b].image]|))
  }

  predicate Installed(t: Table, d: int) {
    && 0 <= d < |t.drv|
    && t.drv[d].backing.Some?
    && t.drv[d].backing.value in t.backings
  }

  function ImageOf(t: Table, d: int): nat
    requires Installed(t, d)
  {
    t.backings[t.drv[d].backing.value].image
  }

  /** Nothing but the drive itself has written to its image since it was mounted. */
  predicate Untouched(t: Table, d: int) {
    Installed(t, d) && !t.backings[t.drv[d].backing.value].foreign
  }

  predicate TableOk(t: Table) {
    && |t.drv| == MAX_DRIVE
    && |t.buf| == TRACK_BUF
    && (forall d :: 0 <= d < MAX_DRIVE ==> SlotOk(t, t.drv[d]))
    && (forall d, e :: 0 <= d < e < MAX_DRIVE && Installed(t, d) && Installed(t, e) ==> ImageOf(t, d) != ImageOf(t, e))
  }

  /** check_track, in its order of tests. */
  function CheckTrack(t: Table, io: Io): (c: Code)
    requires TableOk(t)
  {
    if !DriveOk(io.drive) then INVALID_ARG
    else if io.len == 0 || io.len > TRACK_BUF then INVALID_SIZE
    else if !t.drv[io.drive].mounted then INVALID_STATE
    else if !TrackInBounds(io.track, io.len, t.backings[t.drv[io.drive].backing.value].size) then INVALID_SIZE
    else OK
  }

  /** The request lies inside the image mounted on its drive. */
  predicate Admitted(t: Table, io: Io) {
    && Installed(t, io.drive)
    && 1 <= io.len <= TRACK_BUF
    && io.track * io.len + io.len <= t.backings[t.drv[io.drive].backing.value].size
  }

  /** A request passes the check exactly when its bytes lie inside the mounted image,
      with no 32-bit wrap-around in the offset. */
  lemma CheckTrackExact(t: Table, io: Io)
    requires TableOk(t)
    ensures CheckTrack(t, io) == OK <==> Admitted(t, io)
    ensures CheckTrack(t, io) == OK ==> TrackOffset(io.track, io.len) == io.track * io.len
  {
    if DriveOk(io.drive) {
      assert SlotOk(t, t.drv[io.drive]);
      if Installed(t, io.drive) && 1 <= io.len <= TRACK_BUF {
        BoundsAreExact(io.track, io.len, t.backings[t.drv[io.drive].backing.value].size);
      }
    }
  }

  /** The bytes of a track of the image mounted on a drive, as `view` shows the images. */
  function TrackBytes(t: Table, view: map<nat, seq<byte>>, io: Io): (r: Option<seq<byte>>) {
    if Admitted(t, io) && ImageOf(t, io.drive) in view
       && io.track * io.len + io.len <= |view[ImageOf(t, io.drive)]|
    then Some(view[ImageOf(t, io.drive)][io.track * io.len..io.track * io.len + io.len])
    else None
  }

  /** A valid cache entry names a mounted drive and an in-bounds track, and the buffer
      holds that image's bytes, unless something else has written to it. */
  predicate Coherent(t: Table, view: map<nat, seq<byte>>) {
    t.cache.Valid? ==>
      var io := Io(t.cache.drive, t.cache.track, t.cache.len);
      && io.len <= |t.buf| && Admitted(t, io)
      && (Untouched(t, io.drive) ==> TrackBytes(t, view, io) == Some(t.buf[..io.len]))
  }

  function DropDrive(c: Cache, d: int): Cache {
    if c.Valid? && c.drive == d then Invalid else c
  }

  function FillBuf(buf: seq<byte>, data: seq<byte>): (r: seq<byte>)
    requires |data| <= |buf|
    ensures |r| == |buf| && r[..|data|] == data
  {
    data + buf[|data|..]
  }

  /** The bytes of a track that are in the image: all of them unless the image ends early. */
  function Present(image: seq<byte>, off: nat, len: nat): (r: seq<byte>)
    ensures |r| <= len && (off + len <= |image| ==> r == image[off..off + len])
  {
    if off >= |image| then [] else if off + len <= |image| then image[off..off + len] else image[off..]
  }

  /** The image after `data` was written at `off`. A write past the end makes it longer. */
  function Overlaid(image: seq<byte>, off: nat, data: seq<byte>): (r: seq<byte>)
    ensures |r| >= |image| && off + |data| <= |r| && r[off..off + |data|] == data
    ensures off + |data| <= |image| ==> r == Patch(image, off, data)
  {
    if off + |data| <= |image| then Patch(image, off, data)
    else if off <= |image| then image[..off] + data
    else image + seq(off - |image|, i => 0) + data
  }

  datatype ReadOutcome = Returned(code: Code, bytes: seq<byte>) | ToWorker

  /** disk_read_track from lock to unlock. `fault` is the junk a failed card read leaves
      in the buffer; a read past the end of the file fails, too, and leaves what was there. */
  function ReadLocked(t: Table, io: Io, fault: Option<seq<byte>>): (r: (Table, ReadOutcome))
    requires TableOk(t)
  {
    var c := CheckTrack(t, io);
    if c != OK then (t, Returned(c, []))
    else if t.cache == Valid(io.drive, io.track, io.len) then (t, Returned(OK, t.buf[..io.len]))
    else if t.drv[io.drive].remote then (t, ToWorker)
    else if fault.Some? then
      (t.(buf := if |fault.value| == TRACK_BUF then fault.value else t.buf, cache := Invalid), Returned(FAIL, []))
    else
      CheckTrackExact(t, io);
      var off := TrackOffset(io.track, io.len);
      var bytes := Present(t.images[ImageOf(t, io.drive)], off, io.len);
      if |bytes| < io.len then (t.(buf := FillBuf(t.buf, bytes), cache := Invalid), Returned(FAIL, []))
      else (t.(buf := FillBuf(t.buf, bytes), cache := Valid(io.drive, io.track, io.len)), Returned(OK, bytes))
  }

  /** An image after a failed write that was to end at `end`: anything of its size, or
      longer by what was to be written behind it. */
  function Left(image: seq<byte>, torn: seq<byte>, end: nat := 0): (r: seq<byte>)
    ensures |image| <= |r| && (|r| <= |image| || |r| <= end) && (r == torn || r == image)
  {
    if |torn| == |image| || |image| < |torn| <= end then torn else image
  }

  datatype WriteOutcome = Written(code: Code) | ToWriter

  /** disk_write_track from lock to unlock. `fault` is what a failed write leaves of the
      image (a torn write: any content of the same size). */
  function WriteLocked(t: Table, io: Io, data: seq<byte>, fault: Option<seq<byte>>): (r: (Table, WriteOutcome))
    requires TableOk(t) && |data| == io.len
  {
    var c := CheckTrack(t, io);
    if c != OK then (t, Written(c))
    else if t.drv[io.drive].readonly then (t, Written(NOT_SUPPORTED))
    else if t.drv[io.drive].remote then (t, ToWriter)
    else
      CheckTrackExact(t, io);
      var img := ImageOf(t, io.drive);
      var off := TrackOffset(io.track, io.len);
      if fault.Some? then
        var left := Left(t.images[img], fault.value, off + io.len);
        (t.(images := t.images[img := left], cache := DropDrive(t.cache, io.drive)), Written(FAIL))
      else
        (t.(images := t.images[img := Overlaid(t.images[img], off, data)],
            buf := FillBuf(t.buf, data), cache := Valid(io.drive, io.track, io.len)), Written(OK))
  }

  /** A view that may differ from the images only where a remote write is in flight. */
  predicate LocalsAgree(t: Table, view: map<nat, seq<byte>>) {
    && t.images.Keys == view.Keys
    && forall d :: 0 <= d < |t.drv| && Installed(t, d) && !t.drv[d].remote && ImageOf(t, d) in t.images
                   ==> view[ImageOf(t, d)] == t.images[ImageOf(t, d)]
  }

  /** A read that answers OK gives the bytes of the image mounted on that drive, unless it
      hit the cache and something else has written to the image; the cache stays as true as
      it was, and no image changes. */
  lemma ReadLockedIsCorrect(t: Table, view: map<nat, seq<byte>>, io: Io, fault: Option<seq<byte>>)
    requires TableOk(t) && Coherent(t, view) && LocalsAgree(t, view)
    ensures var (t', out) := ReadLocked(t, io, fault);
            && TableOk(t') && Coherent(t', view)
            && t'.images == t.images && t'.drv == t.drv && t'.backings == t.backings
            && (out.Returned? && out.code == OK ==> Admitted(t, io) && |out.bytes| == io.len)
            && (out.Returned? && out.code == OK && (t.cache == Valid(io.drive, io.track, io.len) ==> Untouched(t, io.drive)) ==>
                  TrackBytes(t, view, io) == Some(out.bytes))
            && (fault.None? && Admitted(t, io) && Untouched(t, io.drive) ==> out.ToWorker? || out.code == OK)
            && (out.ToWorker? ==> Admitted(t, io) && t.drv[io.drive].remote)
  {
    CheckTrackExact(t, io);
    var (t', out) := ReadLocked(t, io, fault);
    TableSame(t, t');
    if Installed(t, io.drive) {
      assert SlotOk(t, t.drv[io.drive]);
    }
    if out.Returned? && out.code == OK && t.cache != Valid(io.drive, io.track, io.len) {
      assert t'.buf[..io.len] == out.bytes;
    }
  }

  lemma TableSame(t: Table, t': Table)
    requires TableOk(t) && t'.drv == t.drv && t'.backings == t.backings && |t'.buf| == TRACK_BUF
    requires t'.images.Keys == t.images.Keys
    requires forall i :: i in t.images ==> |t'.images[i]| >= |t.images[i]|
    ensures TableOk(t')
  {
    assert forall d :: 0 <= d < MAX_DRIVE ==> SlotOk(t, t.drv[d]);
    forall d | 0 <= d < MAX_DRIVE ensures SlotOk(t', t'.drv[d]) {
      assert SlotOk(t, t.drv[d]);
    }
    assert forall d :: Installed(t', d) == Installed(t, d);
    assert forall d :: Installed(t, d) ==> ImageOf(t', d) == ImageOf(t, d);
  }

  /** What a local write does to a view of the images. */
  function ViewAfter(t: Table, view: map<nat, seq<byte>>, t': Table, io: Io): (v: map<nat, seq<byte>>)
    requires Installed(t, io.drive) && ImageOf(t, io.drive) in t'.images
  {
    view[ImageOf(t, io.drive) := t'.images[ImageOf(t, io.drive)]]
  }

  /** A write that answers OK puts exactly the track's bytes into exactly one image, in their
      place unless something else has cut the image short; an answer other than OK without a
      card fault changes no image. The cache stays as true as it was after every outcome. */
  lemma WriteLockedIsCorrect(t: Table, view: map<nat, seq<byte>>, io: Io, data: seq<byte>, fault: Option<seq<byte>>)
    requires TableOk(t) && Coherent(t, view) && LocalsAgree(t, view) && |data| == io.len
    ensures var (t', out) := WriteLocked(t, io, data, fault);
            && TableOk(t') && t'.drv == t.drv && t'.backings == t.backings && t'.images.Keys == t.images.Keys
            && (out == Written(OK) ==>
                  && Admitted(t, io) && !t.drv[io.drive].remote
                  && var img := ImageOf(t, io.drive);
                  && t'.images == t.images[img := Overlaid(t.images[img], io.track * io.len, data)]
                  && (Untouched(t, io.drive) ==> io.track * io.len + io.len <= |t.images[img]|))
            && (out != Written(OK) && (fault.None? || out != Written(FAIL)) ==> t'.images == t.images)
            && (out.ToWriter? ==> Admitted(t, io) && t.drv[io.drive].remote && !t.drv[io.drive].readonly)
            && (fault.None? && Admitted(t, io) && !t.drv[io.drive].remote ==> out == Written(OK))
            && (forall i :: i in t.images ==> |t'.images[i]| >= |t.images[i]|)
            && (forall i :: i in t.images && t'.images[i] != t.images[i] ==>
                  Installed(t, io.drive) && i == ImageOf(t, io.drive) && !t.drv[io.drive].remote)
            && (t'.images == t.images ==> Coherent(t', view))
            && (t'.images != t.images || out == Written(OK) ==>
                  Installed(t, io.drive) && Coherent(t', ViewAfter(t, view, t', io)))
  {
    CheckTrackExact(t, io);
    var (t', out) := WriteLocked(t, io, data, fault);
    if Installed(t, io.drive) {
      assert SlotOk(t, t.drv[io.drive]);
    }
    TableSame(t, t');
    if Installed(t, io.drive) && !t.drv[io.drive].remote && CheckTrack(t, io) == OK {
      var img := ImageOf(t, io.drive);
      if fault.Some? {
        if t.cache.Valid? && t.cache.drive != io.drive {
          assert Installed(t, t.cache.drive) && ImageOf(t, t.cache.drive) != img;
        }
      } else {
        assert t'.buf[..io.len] == data;
      }
    }
  }

  // ---- what the cache is for ----

  /** A track that was just read is read again without the card or the worker, whatever
      state they are in, and with the same bytes. */
  lemma SecondReadIsFree(t: Table, io: Io, fault: Option<seq<byte>>, again: Option<seq<byte>>)
    requires TableOk(t) && ReadLocked(t, io, fault).1.Returned? && ReadLocked(t, io, fault).1.code == OK
    ensures TableOk(ReadLocked(t, io, fault).0)
    ensures ReadLocked(ReadLocked(t, io, fault).0, io, again) == ReadLocked(t, io, fault)
  {
    CheckTrackExact(t, io);
    var (t', out) := ReadLocked(t, io, fault);
    TableSame(t, t');
    CheckTrackExact(t', io);
    assert out.bytes == t'.buf[..io.len];
  }

  /** So is a local track that was just written, and it reads as what was written. */
  lemma ReadAfterWriteIsFree(t: Table, io: Io, data: seq<byte>, fault: Option<seq<byte>>, again: Option<seq<byte>>)
    requires TableOk(t) && |data| == io.len && WriteLocked(t, io, data, fault).1 == Written(OK)
    ensures var t' := WriteLocked(t, io, data, fault).0; TableOk(t') && ReadLocked(t', io, again) == (t', Returned(OK, data))
  {
    CheckTrackExact(t, io);
    var t' := WriteLocked(t, io, data, fault).0;
    assert SlotOk(t, t.drv[io.drive]);
    TableSame(t, t');
    CheckTrackExact(t', io);
    assert t'.buf[..io.len] == data;
  }
}
