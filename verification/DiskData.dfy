/** What the disk machine keeps about data: the cache shows the mounted image, a mounted
    local image stays the file it was opened from, and remote transfers stay in bounds. */
module DiskData {
  import opened Bytes
  import opened Protocol
  import opened DiskCore
  import opened DiskMachine
  import opened DiskLocks
  import opened DiskJobs
  import opened DiskBackings

  /** The images as callers see them: a remote write under way takes effect when the
      worker next enters the disk lock. */
  function View(tab: Table, wpc: WPc): map<nat, seq<byte>> {
    if wpc.FillWrite? && wpc.b in tab.backings then tab.images[tab.backings[wpc.b].image := wpc.before] else tab.images
  }

  predicate RemoteOk(tab: Table, fs: map<Path, nat>, b: nat)
    requires b in tab.backings
  {
    var x := tab.backings[b];
    && x.image in tab.images
    && (x.remote ==> !x.foreign && x.image !in fs.Values && |tab.images[x.image]| == x.size)
  }

  /** A mounted local image is still the file its canonical name names. */
  predicate LocalOk(tab: Table, fs: map<Path, nat>, d: int)
    requires 0 <= d < |tab.drv|
  {
    Installed(tab, d) && !tab.drv[d].remote ==>
      tab.drv[d].canon in fs && fs[tab.drv[d].canon] == ImageOf(tab, d)
  }

  ghost predicate TabInv(tab: Table, fs: map<Path, nat>, wpc: WPc) {
    && TableOk(tab)
    && FsOk(fs, tab.images)
    && (forall b :: b in tab.backings ==> RemoteOk(tab, fs, b))
    && (forall d :: 0 <= d < MAX_DRIVE ==> LocalOk(tab, fs, d))
    && Coherent(tab, View(tab, wpc))
  }

  /** A task that opened an image and has yet to install it, and a task that has been
      allowed to change a file: both hold the mount lock. */
  predicate CallerData(tab: Table, fs: map<Path, nat>, pc: Pc) {
    && (pc.SwapIn? && pc.how.Install? ==>
          && pc.how.b in tab.backings && !tab.backings[pc.how.b].remote
          && pc.how.path in fs && fs[pc.how.path] == tab.backings[pc.how.b].image
          && tab.backings[pc.how.b].image in tab.images
          && (!tab.backings[pc.how.b].foreign ==> tab.backings[pc.how.b].size <= |tab.images[tab.backings[pc.how.b].image]|)
          && FreeElsewhere(tab, pc.d, tab.backings[pc.how.b].image))
    && (pc.ActIn? ==> forall d :: 0 <= d < |tab.drv| ==> !Touches(tab.drv[d], pc.op.path))
  }

  /** Session b belongs to the drive of this transfer or to none, and no other drive
      shows its image. */
  predicate OwnImage(tab: Table, b: nat, drive: int)
    requires b in tab.backings
  {
    forall d :: 0 <= d < |tab.drv| && Installed(tab, d) ==>
      if tab.drv[d].backing == Some(b) then d == drive else ImageOf(tab, d) != tab.backings[b].image
  }

  predicate WorkerData(tab: Table, jobs: map<nat, Job>, wpc: WPc) {
    && (wpc.Xfer? || wpc.FillRead? || wpc.FillWrite? ==>
          && wpc.j in jobs && wpc.b in tab.backings && tab.backings[wpc.b].remote
          && tab.backings[wpc.b].image in tab.images
          && TrackInBounds(jobs[wpc.j].io.track, jobs[wpc.j].io.len, tab.backings[wpc.b].size)
          && OwnImage(tab, wpc.b, jobs[wpc.j].io.drive))
    && (wpc.FillRead? ==> Staged(tab.images[tab.backings[wpc.b].image], jobs[wpc.j].io, wpc.stage))
    && (wpc.FillWrite? ==>
          && |wpc.before| == tab.backings[wpc.b].size
          && (wpc.ok ==> Patched(wpc.before, tab.images[tab.backings[wpc.b].image], jobs[wpc.j].io, jobs[wpc.j].data)))
    && (wpc.InstallIn? ==> wpc.b in tab.backings && tab.backings[wpc.b].remote && FreeElsewhere(tab, MAX_DRIVE, tab.backings[wpc.b].image))
  }

  /** `image` is `before` with the track replaced by `bytes`. */
  predicate Patched(before: seq<byte>, image: seq<byte>, io: Io, bytes: seq<byte>) {
    && |bytes| == io.len
    && io.track * io.len + io.len <= |before|
    && image == Patch(before, io.track * io.len, bytes)
  }

  /** `bytes` are the track's bytes in the image. */
  predicate Staged(image: seq<byte>, io: Io, bytes: seq<byte>) {
    && io.track * io.len + io.len <= |image|
    && bytes == image[io.track * io.len..io.track * io.len + io.len]
  }

  ghost predicate DataInv(s: State) {
    && TabInv(s.tab, s.fs, s.ts.worker.pc)
    && (forall t :: 0 <= t < |s.ts.callers| ==> CallerData(s.tab, s.fs, s.ts.callers[t].pc))
    && WorkerData(s.tab, s.jobs, s.ts.worker.pc)
  }

  /** The image of a handle that is open for writing is there, and behind no session. */
  predicate HandleOk(tab: Table, i: nat) {
    i in tab.images && forall b :: b in tab.backings && tab.backings[b].remote ==> tab.backings[b].image != i
  }

  ghost predicate HandlesOk(s: State) { forall i :: i in s.writers ==> HandleOk(s.tab, i) }

  /** The whole invariant. */
  ghost predicate Inv(s: State) {
    && LockInv(s.ts)
    && JobInv(s.jobs, s.queue, s.ts)
    && BackInvOf(s)
    && DataInv(s)
    && HandlesOk(s)
  }

  /** Local images never coincide with the image of a remote session. */
  lemma ViewAgrees(tab: Table, fs: map<Path, nat>, wpc: WPc, jobs: map<nat, Job>)
    requires TabInv(tab, fs, wpc) && WorkerData(tab, jobs, wpc)
    ensures LocalsAgree(tab, View(tab, wpc))
  {}

  // ---- track I/O ----

  lemma ReadKeepsData(s: State, t: nat, fault: Option<seq<byte>>)
    requires DataInv(s) && CanIo(s, t, DoRead(fault))
    ensures DataInv(DoIoStep(s, t, DoRead(fault)))
  {
    var io := s.ts.callers[t].pc.io;
    ViewAgrees(s.tab, s.fs, s.ts.worker.pc, s.jobs);
    ReadLockedIsCorrect(s.tab, View(s.tab, s.ts.worker.pc), io, fault);
    SameBacking(s, DoIoStep(s, t, DoRead(fault)), t);
  }

  /** Table and images as before, up to buffer and cache. */
  lemma SameBacking(s: State, s': State, t: nat)
    requires DataInv(s) && t < |s.ts.callers| == |s'.ts.callers|
    requires s'.tab.drv == s.tab.drv && s'.tab.backings == s.tab.backings && s'.tab.images == s.tab.images
    requires s'.fs == s.fs && s'.ts.worker == s.ts.worker
    requires TableOk(s'.tab) && Coherent(s'.tab, View(s'.tab, s.ts.worker.pc))
    requires s'.ts.callers == s.ts.callers[t := s'.ts.callers[t]]
    requires CallerData(s.tab, s.fs, s'.ts.callers[t].pc)
    requires WRef(s.ts.worker.pc).Some? && s.ts.worker.pc.j in s.jobs ==>
               s.ts.worker.pc.j in s'.jobs && s'.jobs[s.ts.worker.pc.j].io == s.jobs[s.ts.worker.pc.j].io
               && s'.jobs[s.ts.worker.pc.j].data == s.jobs[s.ts.worker.pc.j].data
    ensures DataInv(s')
  {
    assert forall d :: Installed(s'.tab, d) == Installed(s.tab, d);
    assert forall d :: Installed(s.tab, d) ==> ImageOf(s'.tab, d) == ImageOf(s.tab, d);
    forall b | b in s'.tab.backings ensures RemoteOk(s'.tab, s'.fs, b) {
      assert RemoteOk(s.tab, s.fs, b);
    }
    forall d | 0 <= d < MAX_DRIVE ensures LocalOk(s'.tab, s'.fs, d) {
      assert LocalOk(s.tab, s.fs, d);
    }
    forall u | 0 <= u < |s'.ts.callers| ensures CallerData(s'.tab, s'.fs, s'.ts.callers[u].pc) {
      assert u == t || CallerData(s.tab, s.fs, s.ts.callers[u].pc);
    }
  }

  /** A local write changes one installed local image, and makes it no shorter. */
  lemma WriteKeepsData(s: State, t: nat, fault: Option<seq<byte>>)
    requires DataInv(s) && CanIo(s, t, DoWrite(fault))
    ensures DataInv(DoIoStep(s, t, DoWrite(fault)))
  {
    var pc := s.ts.callers[t].pc;
    var (io, data) := (pc.io, pc.data);
    var view := View(s.tab, s.ts.worker.pc);
    ViewAgrees(s.tab, s.fs, s.ts.worker.pc, s.jobs);
    WriteLockedIsCorrect(s.tab, view, io, data, fault);
    var (tab', out) := WriteLocked(s.tab, io, data, fault);
    var s' := DoIoStep(s, t, DoWrite(fault));
    if tab'.images == s.tab.images && out != Written(OK) {
      SameBacking(s, s', t);
    } else {
      var img := ImageOf(s.tab, io.drive);
      assert LocalOk(s.tab, s.fs, io.drive) && img in s.fs.Values;
      LocalWriteKeeps(s, s', t, img, io.drive);
    }
  }

  lemma LocalWriteKeeps(s: State, s': State, t: nat, img: nat, d0: int)
    requires DataInv(s) && t < |s.ts.callers| == |s'.ts.callers|
    requires Installed(s.tab, d0) && ImageOf(s.tab, d0) == img && !s.tab.drv[d0].remote
    requires s'.tab.drv == s.tab.drv && s'.tab.backings == s.tab.backings && s'.tab.images.Keys == s.tab.images.Keys
    requires img in s.tab.images && img in s.fs.Values && s'.tab.images == s.tab.images[img := s'.tab.images[img]]
    requires |s'.tab.images[img]| >= |s.tab.images[img]|
    requires s'.fs == s.fs && s'.ts.worker == s.ts.worker && s'.jobs == s.jobs
    requires TableOk(s'.tab) && Coherent(s'.tab, View(s.tab, s.ts.worker.pc)[img := s'.tab.images[img]])
    requires s'.ts.callers == s.ts.callers[t := s'.ts.callers[t]]
    requires !s'.ts.callers[t].pc.SwapIn? && !s'.ts.callers[t].pc.ActIn?
    ensures DataInv(s')
  {
    assert forall d :: Installed(s'.tab, d) == Installed(s.tab, d);
    assert forall d :: Installed(s.tab, d) ==> ImageOf(s'.tab, d) == ImageOf(s.tab, d);
    var wpc := s.ts.worker.pc;
    if wpc.Xfer? || wpc.FillRead? || wpc.FillWrite? {
      assert RemoteOk(s.tab, s.fs, wpc.b);
    }
    assert View(s'.tab, wpc) == View(s.tab, wpc)[img := s'.tab.images[img]];
    forall b | b in s'.tab.backings ensures RemoteOk(s'.tab, s'.fs, b) {
      assert RemoteOk(s.tab, s.fs, b);
    }
    forall d | 0 <= d < MAX_DRIVE ensures LocalOk(s'.tab, s'.fs, d) {
      assert LocalOk(s.tab, s.fs, d);
    }
    forall u | 0 <= u < |s'.ts.callers| ensures CallerData(s'.tab, s'.fs, s'.ts.callers[u].pc) {
      assert u == t || CallerData(s.tab, s.fs, s.ts.callers[u].pc);
    }
  }

  lemma IoKeepsData(s: State, t: nat, a: IoAct)
    requires DataInv(s) && CanIo(s, t, a)
    ensures DataInv(DoIoStep(s, t, a))
  {
    if a.DoRead? { ReadKeepsData(s, t, a.fault); }
    else if a.DoWrite? { WriteKeepsData(s, t, a.fault); }
    else { SameBacking(s, DoIoStep(s, t, a), t); }
  }

  // ---- jobs ----

  /** Steps of the job protocol leave the table alone, and the worker's job with it. */
  lemma JobStepShape(s: State, t: nat, a: JobAct)
    requires CanJob(s, t, a)
    ensures var (s', pc, pc') := (DoJobStep(s, t, a), s.ts.callers[t].pc, DoJobStep(s, t, a).ts.callers[t].pc);
            && s'.tab == s.tab && s'.fs == s.fs && s'.ts.worker == s.ts.worker
            && |s'.ts.callers| == |s.ts.callers| && s'.ts.callers == s.ts.callers[t := s'.ts.callers[t]]
            && (pc'.SwapIn? || pc'.ActIn? ==> pc' == pc)
  {}

  lemma JobStepJobs(s: State, t: nat, a: JobAct, i: nat)
    requires CanJob(s, t, a) && i in s.jobs
    requires (a.SendFails? || a.DoReap?) ==> s.ts.callers[t].pc.j != i
    ensures var s' := DoJobStep(s, t, a);
            i in s'.jobs && s'.jobs[i].io == s.jobs[i].io && s'.jobs[i].data == s.jobs[i].data
  {}

  lemma JobKeepsData(s: State, t: nat, a: JobAct)
    requires DataInv(s) && JobInv(s.jobs, s.queue, s.ts) && CanJob(s, t, a)
    ensures DataInv(DoJobStep(s, t, a))
  {
    JobStepShape(s, t, a);
    var wref := WRef(s.ts.worker.pc);
    assert CallerJob(s.jobs, s.queue, wref, t, s.ts.callers[t].pc);
    assert CallerData(s.tab, s.fs, s.ts.callers[t].pc);
    if wref.Some? && wref.value in s.jobs {
      if a.SendFails? || a.DoReap? {
        assert JobOk(s.jobs, s.queue, wref, s.ts.callers, s.ts.callers[t].pc.j);
      }
      JobStepJobs(s, t, a, wref.value);
    }
    SameBacking(s, DoJobStep(s, t, a), t);
  }

  // ---- mounting ----

  lemma OpensKeepsData(s: State, t: nat, b: nat)
    requires DataInv(s) && CanMount(s, t, Opens(b))
    ensures DataInv(DoMountStep(s, t, Opens(b)))
  {
    var s' := DoMountStep(s, t, Opens(b));
    forall d | 0 <= d < MAX_DRIVE ensures Installed(s'.tab, d) == Installed(s.tab, d)
      && (Installed(s.tab, d) ==> ImageOf(s'.tab, d) == ImageOf(s.tab, d)) {
      assert SlotOk(s.tab, s.tab.drv[d]);
    }
    MoreBackings(s, s', b, t);
  }

  /** A backing is opened: nothing installed or in flight changes. */
  lemma MoreBackings(s: State, s': State, b: nat, t: nat)
    requires DataInv(s) && b !in s.tab.backings && b in s'.tab.backings
    requires s'.tab == s.tab.(backings := s.tab.backings[b := s'.tab.backings[b]])
    requires s'.fs == s.fs && s'.jobs == s.jobs && RemoteOk(s'.tab, s.fs, b)
    requires |s'.ts.callers| == |s.ts.callers|
    requires forall u :: 0 <= u < |s.ts.callers| ==> s'.ts.callers[u] == s.ts.callers[u] || CallerData(s'.tab, s.fs, s'.ts.callers[u].pc)
    requires s'.ts.worker == s.ts.worker
             || (WorkerData(s'.tab, s.jobs, s'.ts.worker.pc) && View(s'.tab, s'.ts.worker.pc) == View(s.tab, s.ts.worker.pc))
    ensures DataInv(s')
  {
    forall d | 0 <= d < MAX_DRIVE ensures SlotOk(s'.tab, s'.tab.drv[d]) && Installed(s'.tab, d) == Installed(s.tab, d)
      && (Installed(s.tab, d) ==> ImageOf(s'.tab, d) == ImageOf(s.tab, d)) {
      assert SlotOk(s.tab, s.tab.drv[d]);
    }
    forall c | c in s'.tab.backings ensures RemoteOk(s'.tab, s'.fs, c) {
      assert c == b || RemoteOk(s.tab, s.fs, c);
    }
    forall d | 0 <= d < MAX_DRIVE ensures LocalOk(s'.tab, s'.fs, d) {
      assert LocalOk(s.tab, s.fs, d);
    }
    forall u | 0 <= u < |s'.ts.callers| ensures CallerData(s'.tab, s'.fs, s'.ts.callers[u].pc) {
      assert CallerData(s.tab, s.fs, s.ts.callers[u].pc);
    }
  }

  /** A backing that is in no slot is closed. */
  lemma FewerBackings(s: State, s': State, b: nat)
    requires DataInv(s) && b in s.tab.backings
    requires s'.tab == s.tab.(backings := s.tab.backings - {b}) && s'.fs == s.fs && s'.jobs == s.jobs
    requires forall d :: 0 <= d < |s.tab.drv| ==> s.tab.drv[d].backing != Some(b)
    requires |s'.ts.callers| == |s.ts.callers|
    requires forall u :: 0 <= u < |s.ts.callers| ==>
               if s'.ts.callers[u] == s.ts.callers[u]
               then !(s.ts.callers[u].pc.SwapIn? && s.ts.callers[u].pc.how.Install? && s.ts.callers[u].pc.how.b == b)
               else !s'.ts.callers[u].pc.SwapIn? && !s'.ts.callers[u].pc.ActIn?
    requires if s'.ts.worker == s.ts.worker
             then !((s.ts.worker.pc.Xfer? || s.ts.worker.pc.FillRead? || s.ts.worker.pc.FillWrite? || s.ts.worker.pc.InstallIn?)
                    && s.ts.worker.pc.b == b)
             else s'.ts.worker.pc.Complete? && !s.ts.worker.pc.FillWrite?
    ensures DataInv(s')
  {
    forall d | 0 <= d < MAX_DRIVE ensures SlotOk(s'.tab, s'.tab.drv[d]) && Installed(s'.tab, d) == Installed(s.tab, d)
      && (Installed(s.tab, d) ==> ImageOf(s'.tab, d) == ImageOf(s.tab, d)) {
      assert SlotOk(s.tab, s.tab.drv[d]);
    }
    forall c | c in s'.tab.backings ensures RemoteOk(s'.tab, s'.fs, c) {
      assert RemoteOk(s.tab, s.fs, c);
    }
    forall d | 0 <= d < MAX_DRIVE ensures LocalOk(s'.tab, s'.fs, d) {
      assert LocalOk(s.tab, s.fs, d);
    }
    forall u | 0 <= u < |s'.ts.callers| ensures CallerData(s'.tab, s'.fs, s'.ts.callers[u].pc) {
      assert CallerData(s.tab, s.fs, s.ts.callers[u].pc);
    }
  }

  /** Slots are emptied, or one is filled with an image no other drive shows; the cache
      keeps only entries of untouched drives. */
  lemma SlotsChange(s: State, s': State, t: nat)
    requires DataInv(s) && t < |s.ts.callers| == |s'.ts.callers| && |s'.tab.drv| == MAX_DRIVE
    requires s'.tab.backings == s.tab.backings && s'.tab.images == s.tab.images && s'.tab.buf == s.tab.buf
    requires s'.fs == s.fs && s'.jobs == s.jobs && s'.ts.worker == s.ts.worker
    requires s'.ts.callers == s.ts.callers[t := s'.ts.callers[t]]
    requires !s'.ts.callers[t].pc.SwapIn? && !s'.ts.callers[t].pc.ActIn?
    requires forall d :: 0 <= d < MAX_DRIVE ==> s'.tab.drv[d] == s.tab.drv[d] || NewSlotOk(s, s', t, d)
    requires s'.tab.cache == s.tab.cache || s'.tab.cache == Invalid
    requires s'.tab.cache.Valid? && DriveOk(s'.tab.cache.drive) ==> s'.tab.drv[s'.tab.cache.drive] == s.tab.drv[s'.tab.cache.drive]
    requires forall u, d :: 0 <= u < |s.ts.callers| && u != t && 0 <= d < MAX_DRIVE && s'.tab.drv[d] != s.tab.drv[d] && s'.tab.drv[d].mounted
               ==> !s.ts.callers[u].pc.ActIn? && !(s.ts.callers[u].pc.SwapIn? && s.ts.callers[u].pc.how.Install?)
    ensures DataInv(s')
  {
    forall d | 0 <= d < MAX_DRIVE
      ensures SlotOk(s'.tab, s'.tab.drv[d]) && LocalOk(s'.tab, s'.fs, d)
              && (Installed(s'.tab, d) ==> (s'.tab.drv[d] == s.tab.drv[d] && ImageOf(s'.tab, d) == ImageOf(s.tab, d))
                                           || ImageOf(s'.tab, d) in s.fs.Values) {
      assert SlotOk(s.tab, s.tab.drv[d]) && LocalOk(s.tab, s.fs, d);
    }
    TablesStayDistinct(s, s', t);
    forall b | b in s'.tab.backings ensures RemoteOk(s'.tab, s'.fs, b) {
      assert RemoteOk(s.tab, s.fs, b);
    }
    forall d | 0 <= d < MAX_DRIVE && Installed(s'.tab, d) && s'.tab.drv[d] != s.tab.drv[d]
      ensures s'.tab.drv[d].mounted && ImageOf(s'.tab, d) in s.fs.Values {
      assert NewSlotOk(s, s', t, d);
      assert CallerData(s.tab, s.fs, s.ts.callers[t].pc);
    }
    forall d | Installed(s'.tab, d) && s'.tab.drv[d] == s.tab.drv[d]
      ensures Installed(s.tab, d) && ImageOf(s.tab, d) == ImageOf(s'.tab, d) {
    }
    forall u | 0 <= u < |s'.ts.callers| ensures CallerData(s'.tab, s'.fs, s'.ts.callers[u].pc) {
      assert CallerData(s.tab, s.fs, s.ts.callers[u].pc);
      var pc := s'.ts.callers[u].pc;
      if pc.SwapIn? && pc.how.Install? {
        forall e | 0 <= e < MAX_DRIVE && e != pc.d && Installed(s'.tab, e)
          ensures ImageOf(s'.tab, e) != s.tab.backings[pc.how.b].image {
          assert s'.tab.drv[e] == s.tab.drv[e];
        }
      }
    }
    var wpc := s.ts.worker.pc;
    if wpc.Xfer? || wpc.FillRead? || wpc.FillWrite? || wpc.InstallIn? {
      assert RemoteOk(s.tab, s.fs, wpc.b);
    }
  }

  /** The new content of a slot: nothing, or the local image that task t has opened. */
  predicate NewSlotOk(s: State, s': State, t: nat, d: int)
    requires 0 <= d < |s'.tab.drv| && t < |s.ts.callers|
  {
    var (slot, pc) := (s'.tab.drv[d], s.ts.callers[t].pc);
    || (slot.backing == None && !slot.mounted && !slot.readonly)
    || (pc.SwapIn? && pc.how.Install? && pc.d == d && slot == NewSlot(pc.how)
        && forall e :: 0 <= e < |s'.tab.drv| && e != d && e < |s.tab.drv| ==> s'.tab.drv[e] == s.tab.drv[e])
  }

  lemma TablesStayDistinct(s: State, s': State, t: nat)
    requires DataInv(s) && t < |s.ts.callers| && |s'.tab.drv| == MAX_DRIVE
    requires s'.tab.backings == s.tab.backings && s'.tab.images == s.tab.images
    requires forall d :: 0 <= d < MAX_DRIVE ==> s'.tab.drv[d] == s.tab.drv[d] || NewSlotOk(s, s', t, d)
    ensures forall d, e :: 0 <= d < e < MAX_DRIVE && Installed(s'.tab, d) && Installed(s'.tab, e) ==> ImageOf(s'.tab, d) != ImageOf(s'.tab, e)
  {
    assert CallerData(s.tab, s.fs, s.ts.callers[t].pc);
    forall d, e | 0 <= d < e < MAX_DRIVE && Installed(s'.tab, d) && Installed(s'.tab, e)
      ensures ImageOf(s'.tab, d) != ImageOf(s'.tab, e) {
      if s'.tab.drv[d] != s.tab.drv[d] {
        assert NewSlotOk(s, s', t, d);
        assert Installed(s.tab, e) && ImageOf(s.tab, e) == ImageOf(s'.tab, e);
      } else if s'.tab.drv[e] != s.tab.drv[e] {
        assert NewSlotOk(s, s', t, e);
        assert Installed(s.tab, d) && ImageOf(s.tab, d) == ImageOf(s'.tab, d);
      } else {
        assert Installed(s.tab, d) && Installed(s.tab, e);
      }
    }
  }

  lemma SwapTable(s: State, t: nat)
    requires CanMount(s, t, DoSwap)
    ensures var (s', d) := (DoMountStep(s, t, DoSwap), s.ts.callers[t].pc.d);
            && s'.tab.images == s.tab.images && s'.tab.buf == s.tab.buf && s'.fs == s.fs
            && s'.tab.cache == DropDrive(s.tab.cache, d)
            && !s'.ts.callers[t].pc.SwapIn? && !s'.ts.callers[t].pc.ActIn?
  {}

  lemma OthersHoldNothing(s: State, t: nat)
    requires LockInv(s.ts) && t < |s.ts.callers| && MountDepth(s.ts.callers[t].pc) > 0
    ensures forall u :: 0 <= u < |s.ts.callers| && u != t ==> MountDepth(s.ts.callers[u].pc) == 0
  {
    assert CallerLocks(s.ts, t, s.ts.callers[t]);
    forall u | 0 <= u < |s.ts.callers| && u != t ensures MountDepth(s.ts.callers[u].pc) == 0 {
      assert CallerLocks(s.ts, u, s.ts.callers[u]);
    }
  }

  lemma SwapKeepsData(s: State, t: nat)
    requires DataInv(s) && LockInv(s.ts) && CanMount(s, t, DoSwap)
    ensures DataInv(DoMountStep(s, t, DoSwap))
  {
    SwapShape(s, t);
    SwapTable(s, t);
    OthersHoldNothing(s, t);
    SlotsChange(s, DoMountStep(s, t, DoSwap), t);
  }

  lemma SweepKeepsData(s: State, t: nat)
    requires DataInv(s) && CanMount(s, t, DoSweep)
    ensures DataInv(DoMountStep(s, t, DoSweep))
  {
    SlotsChange(s, DoMountStep(s, t, DoSweep), t);
  }

  lemma MountKeepsData(s: State, t: nat, a: MountAct)
    requires Inv(s) && CanMount(s, t, a)
    ensures DataInv(DoMountStep(s, t, a))
  {
    assert CallerJob(s.jobs, s.queue, WRef(s.ts.worker.pc), t, s.ts.callers[t].pc);
    assert CallerData(s.tab, s.fs, s.ts.callers[t].pc);
    if a.Opens? { OpensKeepsData(s, t, a.b); }
    else if a.DoSwap? { SwapKeepsData(s, t); }
    else if a.DoSweep? { SweepKeepsData(s, t); }
    else if a.DoDispose? && s.ts.callers[t].pc.olds != [] && !s.ts.callers[t].pc.olds[0].remote { CloseLocalKeepsData(s, t); }
    else {
      MountStepShape(s, t, a);
      SameBacking(s, DoMountStep(s, t, a), t);
    }
  }

  lemma MountStepShape(s: State, t: nat, a: MountAct)
    requires CanMount(s, t, a) && !a.Opens? && !a.DoSwap? && !a.DoSweep? && PcShape(s.ts.callers[t].pc)
    requires a.DoDispose? ==> s.ts.callers[t].pc.olds == [] || s.ts.callers[t].pc.olds[0].remote
    ensures var (s', pc') := (DoMountStep(s, t, a), DoMountStep(s, t, a).ts.callers[t].pc);
            && s'.tab == s.tab && s'.fs == s.fs && s'.jobs == s.jobs && s'.ts.worker == s.ts.worker
            && |s'.ts.callers| == |s.ts.callers| && s'.ts.callers == s.ts.callers[t := s'.ts.callers[t]]
            && (pc'.SwapIn? ==> !pc'.how.Install?) && !pc'.ActIn?
  {}

  /** A backing whose owner is neither a slot nor a task about to install it. */
  lemma OutOfTable(s: State, b: nat)
    requires BackInvOf(s) && b in s.owner && !s.owner[b].InSlot?
    requires s.owner[b].WithCaller? && s.owner[b].t < |s.ts.callers| ==> !s.ts.callers[s.owner[b].t].pc.SwapIn?
    ensures forall d :: 0 <= d < |s.tab.drv| ==> s.tab.drv[d].backing != Some(b)
    ensures forall u :: 0 <= u < |s.ts.callers| && s.ts.callers[u].pc.SwapIn? && s.ts.callers[u].pc.how.Install?
              ==> s.ts.callers[u].pc.how.b != b
  {
    forall d | 0 <= d < |s.tab.drv| ensures s.tab.drv[d].backing != Some(b) {
      assert SlotOwns(s.tab.drv, s.tab.backings, s.owner, d);
    }
    forall u | 0 <= u < |s.ts.callers| && s.ts.callers[u].pc.SwapIn? && s.ts.callers[u].pc.how.Install?
      ensures s.ts.callers[u].pc.how.b != b {
      assert Carried(s.tab.backings, s.owner, u, Refs(s.ts.callers[u].pc));
      assert Refs(s.ts.callers[u].pc)[0].b == s.ts.callers[u].pc.how.b;
    }
  }

  lemma CloseLocalKeepsData(s: State, t: nat)
    requires DataInv(s) && BackInvOf(s) && CanMount(s, t, DoDispose)
    requires s.ts.callers[t].pc.olds != [] && !s.ts.callers[t].pc.olds[0].remote
    ensures DataInv(DoMountStep(s, t, DoDispose))
  {
    var olds := s.ts.callers[t].pc.olds;
    assert Carried(s.tab.backings, s.owner, t, olds);
    CloseLocalShape(s, t);
    OutOfTable(s, olds[0].b);
    FewerBackings(s, DoMountStep(s, t, DoDispose), olds[0].b);
  }

  // ---- guarded changes ----

  lemma CheckKeepsData(s: State, t: nat, known: bool)
    requires DataInv(s) && CanGuard(s, t, DoCheck(known))
    ensures DataInv(DoGuardStep(s, t, DoCheck(known)))
  {
    var s' := DoGuardStep(s, t, DoCheck(known));
    var op := s.ts.callers[t].pc.op;
    if s'.ts.callers[t].pc.ActIn? && !known {
      forall d | 0 <= d < |s.tab.drv| ensures !Touches(s.tab.drv[d], op.path) {
        assert SlotOk(s.tab, s.tab.drv[d]) && LocalOk(s.tab, s.fs, d);
      }
    }
    SameBacking(s, s', t);
  }

  /** The change an allowed operation makes leaves every mounted local image in place:
      its directory entry, its bytes, and its size. */
  lemma EffectSparesMounted(tab: Table, fs: map<Path, nat>, wpc: WPc, op: Op, newImg: nat)
    requires TabInv(tab, fs, wpc)
    requires forall d :: 0 <= d < MAX_DRIVE ==> !Touches(tab.drv[d], op.path)
    requires CanAct(fs, tab.images, op, newImg)
    ensures var (fs', images') := Effect(fs, tab.images, op, newImg);
            && FsOk(fs', images') && tab.images.Keys <= images'.Keys
            && fs'.Values <= fs.Values + {newImg}
            && (forall i :: i in tab.images && (i !in fs.Values || exists d :: 0 <= d < MAX_DRIVE && Installed(tab, d) && ImageOf(tab, d) == i)
                  ==> images'[i] == tab.images[i])
            && (forall i :: i in tab.images && i !in fs.Values ==> i !in fs'.Values)
            && (forall d :: 0 <= d < MAX_DRIVE && Installed(tab, d) && !tab.drv[d].remote ==>
                  tab.drv[d].canon in fs' && fs'[tab.drv[d].canon] == ImageOf(tab, d))
  {
    forall d | 0 <= d < MAX_DRIVE && Installed(tab, d) && !tab.drv[d].remote
      ensures tab.drv[d].canon in fs && fs[tab.drv[d].canon] == ImageOf(tab, d) && !(op.path <= tab.drv[d].canon) {
      assert SlotOk(tab, tab.drv[d]) && LocalOk(tab, fs, d);
    }
    match op
    case Delete(p) =>
    case Rename(p, q) => RenameKeepsFs(fs, tab.images, p, q);
    case OpenWrite(p, truncate) =>
      if p in fs {
        forall d | 0 <= d < MAX_DRIVE && Installed(tab, d) ensures ImageOf(tab, d) != fs[p] {
          assert SlotOk(tab, tab.drv[d]);
          assert RemoteOk(tab, fs, tab.drv[d].backing.value);
        }
      }
  }

  lemma RenameKeepsFs(fs: map<Path, nat>, images: map<nat, seq<byte>>, p: Path, q: Path)
    requires FsOk(fs, images) && CanRename(fs, p, q)
    ensures FsOk(Renamed(fs, p, q), images)
    ensures Renamed(fs, p, q).Values <= fs.Values
    ensures forall k :: k in fs ==> MovedPath(p, q, k) in Renamed(fs, p, q) && Renamed(fs, p, q)[MovedPath(p, q, k)] == fs[k]
  {
    var r := Renamed(fs, p, q);
    forall k | k in fs ensures MovedPath(q, p, MovedPath(p, q, k)) == k && MovedPath(p, q, k) != [] {
      if p <= k {
        assert q + k[|p|..] == MovedPath(p, q, k) && (q + k[|p|..])[|q|..] == k[|p|..];
        assert p + k[|p|..] == k;
      }
    }
    forall a, b | a in r && b in r && r[a] == r[b] ensures a == b {
      var x, y :| x in fs && y in fs && a == MovedPath(p, q, x) && b == MovedPath(p, q, y);
    }
    assert r.Values <= fs.Values;
  }

  lemma ActsKeepsData(s: State, t: nat, newImg: nat)
    requires DataInv(s) && LockInv(s.ts) && CanGuard(s, t, Acts(newImg))
    ensures DataInv(DoGuardStep(s, t, Acts(newImg)))
  {
    var op := s.ts.callers[t].pc.op;
    assert CallerData(s.tab, s.fs, s.ts.callers[t].pc);
    EffectSparesMounted(s.tab, s.fs, s.ts.worker.pc, op, newImg);
    OthersHoldNothing(s, t);
    FilesChange(s, DoGuardStep(s, t, Acts(newImg)), t);
  }

  /** What a guarded change does to the card: no mounted image and no remote one changes, and
      the mounted ones keep their names. */
  ghost predicate Spares(tab: Table, fs: map<Path, nat>, tab': Table, fs': map<Path, nat>) {
    && tab' == tab.(images := tab'.images)
    && FsOk(fs', tab'.images) && tab.images.Keys <= tab'.images.Keys
    && (forall i :: i in tab.images && (i !in fs.Values || exists d :: 0 <= d < |tab.drv| && Installed(tab, d) && ImageOf(tab, d) == i)
          ==> tab'.images[i] == tab.images[i])
    && (forall i :: i in tab.images && i !in fs.Values ==> i !in fs'.Values)
    && (forall d :: 0 <= d < |tab.drv| && Installed(tab, d) && !tab.drv[d].remote ==>
          tab.drv[d].canon in fs' && fs'[tab.drv[d].canon] == ImageOf(tab, d))
  }

  lemma FilesChange(s: State, s': State, t: nat)
    requires DataInv(s) && t < |s.ts.callers| == |s'.ts.callers|
    requires Spares(s.tab, s.fs, s'.tab, s'.fs) && s'.jobs == s.jobs && s'.ts.worker == s.ts.worker
    requires s'.ts.callers == s.ts.callers[t := s'.ts.callers[t]]
    requires !s'.ts.callers[t].pc.SwapIn? && !s'.ts.callers[t].pc.ActIn?
    requires forall u :: 0 <= u < |s.ts.callers| && u != t ==> MountDepth(s.ts.callers[u].pc) == 0
    ensures DataInv(s')
  {
    SparedTable(s.tab, s.fs, s'.tab, s'.fs, s.ts.worker.pc);
    SparedTransfer(s.tab, s.fs, s'.tab, s'.fs, s.jobs, s.ts.worker.pc);
    forall u | 0 <= u < |s'.ts.callers| ensures CallerData(s'.tab, s'.fs, s'.ts.callers[u].pc) {
      assert CallerData(s.tab, s.fs, s.ts.callers[u].pc);
    }
  }

  lemma SparedTable(tab: Table, fs: map<Path, nat>, tab': Table, fs': map<Path, nat>, wpc: WPc)
    requires TabInv(tab, fs, wpc) && Spares(tab, fs, tab', fs')
    ensures TabInv(tab', fs', wpc)
  {
    forall d | 0 <= d < MAX_DRIVE ensures SlotOk(tab', tab'.drv[d]) && LocalOk(tab', fs', d) {
      SparedSlot(tab, fs, tab', fs', wpc, d);
    }
    assert forall d :: Installed(tab', d) == Installed(tab, d);
    assert forall d :: Installed(tab, d) ==> ImageOf(tab', d) == ImageOf(tab, d);
    forall b | b in tab'.backings ensures RemoteOk(tab', fs', b) {
      assert RemoteOk(tab, fs, b);
    }
    SparedCache(tab, fs, tab', fs', wpc);
  }

  lemma SparedCache(tab: Table, fs: map<Path, nat>, tab': Table, fs': map<Path, nat>, wpc: WPc)
    requires TabInv(tab, fs, wpc) && Spares(tab, fs, tab', fs')
    ensures Coherent(tab', View(tab', wpc))
  {
    if tab.cache.Valid? {
      SparedSlot(tab, fs, tab', fs', wpc, tab.cache.drive);
    }
  }

  lemma SparedSlot(tab: Table, fs: map<Path, nat>, tab': Table, fs': map<Path, nat>, wpc: WPc, d: int)
    requires TabInv(tab, fs, wpc) && Spares(tab, fs, tab', fs') && 0 <= d < MAX_DRIVE
    ensures SlotOk(tab', tab'.drv[d]) && LocalOk(tab', fs', d)
    ensures Installed(tab, d) ==> ImageOf(tab, d) in tab.images && ImageOf(tab, d) in tab'.images
                                  && tab'.images[ImageOf(tab, d)] == tab.images[ImageOf(tab, d)]
  {
    assert SlotOk(tab, tab.drv[d]);
  }

  lemma SparedTransfer(tab: Table, fs: map<Path, nat>, tab': Table, fs': map<Path, nat>, jobs: map<nat, Job>, wpc: WPc)
    requires TabInv(tab, fs, wpc) && WorkerData(tab, jobs, wpc) && Spares(tab, fs, tab', fs')
    ensures WorkerData(tab', jobs, wpc)
  {
    assert forall d :: Installed(tab', d) == Installed(tab, d);
    if wpc.Xfer? || wpc.FillRead? || wpc.FillWrite? {
      assert RemoteOk(tab, fs, wpc.b);
    }
  }

  lemma GuardKeepsData(s: State, t: nat, a: GuardAct)
    requires DataInv(s) && LockInv(s.ts) && CanGuard(s, t, a)
    ensures DataInv(DoGuardStep(s, t, a))
  {
    if a.DoCheck? { CheckKeepsData(s, t, a.known); }
    else if a.Acts? { ActsKeepsData(s, t, a.newImg); }
    else { SameBacking(s, DoGuardStep(s, t, a), t); }
  }

  // ---- the worker ----

  /** The worker moves without touching table, images or files. */
  lemma WorkerMoves(s: State, s': State)
    requires DataInv(s) && s'.tab == s.tab && s'.fs == s.fs && s'.ts.callers == s.ts.callers
    requires WorkerData(s.tab, s'.jobs, s'.ts.worker.pc)
    requires View(s.tab, s'.ts.worker.pc) == View(s.tab, s.ts.worker.pc)
    ensures DataInv(s')
  {}

  /** A transfer starts only with the remote session that the job's drive has mounted. */
  lemma AfterLookOk(tab: Table, fs: map<Path, nat>, jobs: map<nat, Job>, j: nat, connected: bool)
    requires TableOk(tab) && j in jobs && forall b :: b in tab.backings ==> RemoteOk(tab, fs, b)
    ensures var wpc := AfterLook(tab, j, jobs[j], connected);
            WorkerData(tab, jobs, wpc) && !wpc.FillWrite?
  {
    var d := jobs[j].io.drive;
    if AfterLook(tab, j, jobs[j], connected).Xfer? {
      assert SlotOk(tab, tab.drv[d]) && Installed(tab, d);
      assert RemoteOk(tab, fs, tab.drv[d].backing.value);
    }
  }

  lemma WLookKeepsData(s: State, connected: bool)
    requires DataInv(s) && CanWork(s, WLook(connected))
    ensures DataInv(DoWorkStep(s, WLook(connected)))
  {
    AfterLookOk(s.tab, s.fs, s.jobs, s.ts.worker.pc.j, connected);
    WorkerMoves(s, DoWorkStep(s, WLook(connected)));
  }

  lemma WReadsKeepsData(s: State, ok: bool)
    requires DataInv(s) && CanWork(s, WReads(ok))
    ensures DataInv(DoWorkStep(s, WReads(ok)))
  {
    var (j, b) := (s.ts.worker.pc.j, s.ts.worker.pc.b);
    assert RemoteOk(s.tab, s.fs, b);
    BoundsAreExact(s.jobs[j].io.track, s.jobs[j].io.len, s.tab.backings[b].size);
    WorkerMoves(s, DoWorkStep(s, WReads(ok)));
  }

  lemma WWritesKeepsData(s: State, a: WorkAct)
    requires DataInv(s) && CanWork(s, a) && a.WWrites?
    ensures DataInv(DoWorkStep(s, a))
  {
    var s' := DoWorkStep(s, a);
    var (j, b) := (s.ts.worker.pc.j, s.ts.worker.pc.b);
    assert RemoteOk(s.tab, s.fs, b);
    var img := s.tab.backings[b].image;
    BoundsAreExact(s.jobs[j].io.track, s.jobs[j].io.len, s.tab.backings[b].size);
    assert View(s'.tab, s'.ts.worker.pc) == View(s.tab, s.ts.worker.pc);
    assert forall d :: Installed(s'.tab, d) == Installed(s.tab, d);
    assert forall d :: Installed(s.tab, d) ==> ImageOf(s'.tab, d) == ImageOf(s.tab, d);
    forall d | 0 <= d < MAX_DRIVE ensures SlotOk(s'.tab, s'.tab.drv[d]) && LocalOk(s'.tab, s'.fs, d) {
      assert SlotOk(s.tab, s.tab.drv[d]) && LocalOk(s.tab, s.fs, d);
    }
    forall c | c in s'.tab.backings ensures RemoteOk(s'.tab, s'.fs, c) {
      assert RemoteOk(s.tab, s.fs, c);
    }
    forall u | 0 <= u < |s'.ts.callers| ensures CallerData(s'.tab, s'.fs, s'.ts.callers[u].pc) {
      assert CallerData(s.tab, s.fs, s.ts.callers[u].pc);
    }
  }

  /** The worker enters the lock again: the buffer and cache take what it read or wrote. */
  lemma WFillKeepsData(s: State, a: WorkAct)
    requires DataInv(s) && JobInv(s.jobs, s.queue, s.ts) && CanWork(s, a) && (a.WFillRead? || a.WFillWrite?)
    ensures DataInv(DoWorkStep(s, a))
  {
    var s' := DoWorkStep(s, a);
    var (j, b) := (s.ts.worker.pc.j, s.ts.worker.pc.b);
    var io := s.jobs[j].io;
    assert JobOk(s.jobs, s.queue, Some(j), s.ts.callers, j);
    assert RemoteOk(s.tab, s.fs, b);
    BoundsAreExact(io.track, io.len, s.tab.backings[b].size);
    FillShape(s, a);
    FillIsCoherent(s, a);
    TableSame(s.tab, s'.tab);
    assert forall d :: Installed(s'.tab, d) == Installed(s.tab, d);
    assert forall d :: Installed(s.tab, d) ==> ImageOf(s'.tab, d) == ImageOf(s.tab, d);
    forall d | 0 <= d < MAX_DRIVE ensures LocalOk(s'.tab, s'.fs, d) {
      assert LocalOk(s.tab, s.fs, d);
    }
    forall c | c in s'.tab.backings ensures RemoteOk(s'.tab, s'.fs, c) {
      assert RemoteOk(s.tab, s.fs, c);
    }
    forall u | 0 <= u < |s'.ts.callers| ensures CallerData(s'.tab, s'.fs, s'.ts.callers[u].pc) {
      assert CallerData(s.tab, s.fs, s.ts.callers[u].pc);
    }
  }

  lemma FillShape(s: State, a: WorkAct)
    requires CanWork(s, a) && (a.WFillRead? || a.WFillWrite?)
    ensures var s' := DoWorkStep(s, a);
            && s'.tab.drv == s.tab.drv && s'.tab.backings == s.tab.backings && s'.tab.images == s.tab.images
            && |s'.tab.buf| == |s.tab.buf| && s'.fs == s.fs && s'.ts.callers == s.ts.callers && s'.ts.worker.pc.Complete?
  {
    if a.WFillRead? {
      ReadFillShape(s);
    } else {
      WriteFillShape(s);
    }
  }

  lemma ReadFillShape(s: State)
    requires CanWork(s, WFillRead)
    ensures var s' := DoWorkStep(s, WFillRead);
            && s'.tab.drv == s.tab.drv && s'.tab.backings == s.tab.backings && s'.tab.images == s.tab.images
            && |s'.tab.buf| == |s.tab.buf| && s'.fs == s.fs && s'.ts.callers == s.ts.callers && s'.ts.worker.pc.Complete?
  {}

  lemma WriteFillShape(s: State)
    requires CanWork(s, WFillWrite)
    ensures var s' := DoWorkStep(s, WFillWrite);
            && s'.tab.drv == s.tab.drv && s'.tab.backings == s.tab.backings && s'.tab.images == s.tab.images
            && |s'.tab.buf| == |s.tab.buf| && s'.fs == s.fs && s'.ts.callers == s.ts.callers && s'.ts.worker.pc.Complete?
  {}

  lemma FillIsCoherent(s: State, a: WorkAct)
    requires DataInv(s) && CanWork(s, a) && (a.WFillRead? || a.WFillWrite?)
    requires JobShape(s.jobs[s.ts.worker.pc.j]) && WorkerJob(s.jobs, s.ts.worker.pc)
    requires var (x, io) := (s.tab.backings[s.ts.worker.pc.b], s.jobs[s.ts.worker.pc.j].io);
             |s.tab.images[x.image]| == x.size && io.track * io.len + io.len <= x.size
    ensures Coherent(DoWorkStep(s, a).tab, s.tab.images)
  {
    if a.WFillRead? {
      ReadIsCoherent(s);
    } else {
      WriteIsCoherent(s);
    }
  }

  lemma ReadIsCoherent(s: State)
    requires DataInv(s) && CanWork(s, WFillRead)
    requires JobShape(s.jobs[s.ts.worker.pc.j]) && WorkerJob(s.jobs, s.ts.worker.pc)
    requires var (x, io) := (s.tab.backings[s.ts.worker.pc.b], s.jobs[s.ts.worker.pc.j].io);
             |s.tab.images[x.image]| == x.size && io.track * io.len + io.len <= x.size
    ensures Coherent(DoWorkStep(s, WFillRead).tab, s.tab.images)
  {
    var (pc, io, s') := (s.ts.worker.pc, s.jobs[s.ts.worker.pc.j].io, DoWorkStep(s, WFillRead));
    if s'.tab.cache != s.tab.cache {
      assert SlotOk(s.tab, s.tab.drv[io.drive]);
      assert s'.tab.buf[..io.len] == pc.stage;
    }
  }

  lemma WriteIsCoherent(s: State)
    requires DataInv(s) && CanWork(s, WFillWrite)
    requires JobShape(s.jobs[s.ts.worker.pc.j]) && WorkerJob(s.jobs, s.ts.worker.pc)
    requires var (x, io) := (s.tab.backings[s.ts.worker.pc.b], s.jobs[s.ts.worker.pc.j].io);
             |s.tab.images[x.image]| == x.size && io.track * io.len + io.len <= x.size
    ensures Coherent(DoWorkStep(s, WFillWrite).tab, s.tab.images)
  {
    WriteFillShape(s);
    if DoWorkStep(s, WFillWrite).tab.cache == s.tab.cache {
      OldEntryIsCoherent(s);
    } else {
      NewEntryIsCoherent(s);
    }
  }

  /** An entry that a write leaves alone is not one of the image it wrote. */
  lemma OldEntryIsCoherent(s: State)
    requires DataInv(s) && CanWork(s, WFillWrite) && DoWorkStep(s, WFillWrite).tab.cache == s.tab.cache
    requires JobShape(s.jobs[s.ts.worker.pc.j]) && WorkerJob(s.jobs, s.ts.worker.pc)
    ensures Coherent(DoWorkStep(s, WFillWrite).tab, s.tab.images)
  {
    var (pc, c) := (s.ts.worker.pc, s.tab.cache);
    if c.Valid? {
      assert Installed(s.tab, c.drive);
      assert s.tab.drv[c.drive].backing != Some(pc.b) || c.drive == s.jobs[pc.j].io.drive;
    }
  }

  lemma NewEntryIsCoherent(s: State)
    requires DataInv(s) && CanWork(s, WFillWrite) && DoWorkStep(s, WFillWrite).tab.cache != s.tab.cache
    requires JobShape(s.jobs[s.ts.worker.pc.j]) && WorkerJob(s.jobs, s.ts.worker.pc)
    requires var (x, io) := (s.tab.backings[s.ts.worker.pc.b], s.jobs[s.ts.worker.pc.j].io);
             |s.tab.images[x.image]| == x.size && io.track * io.len + io.len <= x.size
    ensures Coherent(DoWorkStep(s, WFillWrite).tab, s.tab.images)
  {
    var (io, s') := (s.jobs[s.ts.worker.pc.j].io, DoWorkStep(s, WFillWrite));
    if s'.tab.cache.Valid? {
      assert SlotOk(s.tab, s.tab.drv[io.drive]);
      assert s'.tab.buf[..io.len] == s.jobs[s.ts.worker.pc.j].data;
    }
  }

  lemma WOpensKeepsData(s: State, a: WorkAct)
    requires DataInv(s) && CanWork(s, a) && a.WOpens?
    ensures DataInv(DoWorkStep(s, a))
  {
    var s' := DoWorkStep(s, a);
    forall d | 0 <= d < MAX_DRIVE ensures Installed(s'.tab, d) == Installed(s.tab, d)
      && (Installed(s.tab, d) ==> ImageOf(s'.tab, d) == ImageOf(s.tab, d)) {
      assert SlotOk(s.tab, s.tab.drv[d]);
    }
    assert s'.ts.callers == s.ts.callers;
    MoreBackings(s, s', a.b, 0);
  }

  lemma WInstallsKeepsData(s: State)
    requires DataInv(s) && CanWork(s, WInstalls)
    ensures DataInv(DoWorkStep(s, WInstalls))
  {
    var s' := DoWorkStep(s, WInstalls);
    if s'.ts.worker.pc.Discard? {
      WorkerMoves(s, s');
    } else {
      RemoteInstalled(s, s', s.ts.worker.pc.b, s.jobs[s.ts.worker.pc.j].io.drive);
    }
  }

  lemma RemoteInstalled(s: State, s': State, b: nat, d0: nat)
    requires DataInv(s) && s.ts.worker.pc.InstallIn? && b == s.ts.worker.pc.b && d0 < MAX_DRIVE
    requires s.tab.drv[d0].remote && !s.tab.drv[d0].mounted && |s'.tab.drv| == MAX_DRIVE
    requires s'.tab.drv == s.tab.drv[d0 := s'.tab.drv[d0]]
    requires s'.tab.drv[d0].backing == Some(b) && s'.tab.drv[d0].mounted && s'.tab.drv[d0].remote
    requires s'.tab.backings == s.tab.backings && s'.tab.images == s.tab.images && s'.tab.buf == s.tab.buf
    requires s'.tab.cache == DropDrive(s.tab.cache, d0) && s'.fs == s.fs && s'.ts.callers == s.ts.callers
    requires s'.ts.worker.pc.Complete?
    ensures DataInv(s')
  {
    assert RemoteOk(s.tab, s.fs, b);
    forall d | 0 <= d < MAX_DRIVE ensures SlotOk(s'.tab, s'.tab.drv[d]) && LocalOk(s'.tab, s'.fs, d) {
      assert SlotOk(s.tab, s.tab.drv[d]) && LocalOk(s.tab, s.fs, d);
    }
    forall d | d != d0 && Installed(s'.tab, d)
      ensures Installed(s.tab, d) && ImageOf(s'.tab, d) == ImageOf(s.tab, d) != s.tab.backings[b].image {
    }
    assert ImageOf(s'.tab, d0) == s.tab.backings[b].image;
    forall c | c in s'.tab.backings ensures RemoteOk(s'.tab, s'.fs, c) {
      assert RemoteOk(s.tab, s.fs, c);
    }
    forall u | 0 <= u < |s'.ts.callers| ensures CallerData(s'.tab, s'.fs, s'.ts.callers[u].pc) {
      assert CallerData(s.tab, s.fs, s.ts.callers[u].pc);
    }
  }

  lemma WClosesKeepsData(s: State, a: WorkAct)
    requires DataInv(s) && JobInv(s.jobs, s.queue, s.ts) && BackInvOf(s) && CanWork(s, a) && (a.WCloses? || a.WDiscards?)
    ensures DataInv(DoWorkStep(s, a))
  {
    var pc := s.ts.worker.pc;
    var b := if a.WCloses? then s.jobs[pc.j].bclose else pc.b;
    if a.WCloses? {
      assert Closes(s.jobs, s.queue, pc, pc.j);
      assert CloseOk(s.tab.backings, s.owner, s.jobs, pc.j);
    }
    OutOfTable(s, b);
    FewerBackings(s, DoWorkStep(s, a), b);
  }

  lemma OtherWorkKeepsData(s: State, a: WorkAct)
    requires DataInv(s) && CanWork(s, a)
    requires a.WTake? || a.WTakeTrack? || a.WTakeMtx? || a.WOpenFails? || a.WCompletes? || a.WUnlocks? || a.WFrees?
    ensures DataInv(DoWorkStep(s, a))
  {
    WorkerMoves(s, DoWorkStep(s, a));
  }

  lemma WorkKeepsData(s: State, a: WorkAct)
    requires Inv(s) && CanWork(s, a)
    ensures DataInv(DoWorkStep(s, a))
  {
    if a.WLook? { WLookKeepsData(s, a.connected); }
    else if a.WReads? { WReadsKeepsData(s, a.ok); }
    else if a.WWrites? { WWritesKeepsData(s, a); }
    else if a.WFillRead? || a.WFillWrite? { WFillKeepsData(s, a); }
    else if a.WOpens? { WOpensKeepsData(s, a); }
    else if a.WInstalls? { WInstallsKeepsData(s); }
    else if a.WCloses? || a.WDiscards? { WClosesKeepsData(s, a); }
    else { OtherWorkKeepsData(s, a); }
  }

  // ---- handles open for writing ----

  /** A write through a handle marks the backings of its image, and leaves all others and
      every session as they were. */
  lemma FileKeepsData(s: State, a: FileAct)
    requires DataInv(s) && HandlesOk(s) && CanFile(s, a)
    ensures DataInv(DoFileStep(s, a))
  {
    if a.HandleWrite? {
      var s' := DoFileStep(s, a);
      HandleWriteKeepsTab(s.tab, s'.tab, s.fs, s.ts.worker.pc, a.image);
      HandleWriteKeepsTransfer(s.tab, s'.tab, s.fs, s.jobs, s.ts.worker.pc, a.image);
      forall u | 0 <= u < |s.ts.callers| ensures CallerData(s'.tab, s'.fs, s'.ts.callers[u].pc) {
        assert CallerData(s.tab, s.fs, s.ts.callers[u].pc);
        HandleWriteKeepsCaller(s.tab, s'.tab, s.fs, s.ts.callers[u].pc, a.image);
      }
    }
  }

  /** What a write through a handle does to the table. */
  ghost predicate WrittenBehind(tab: Table, tab': Table, i: nat) {
    && i in tab.images && tab'.images.Keys == tab.images.Keys && tab'.backings == Marked(tab.backings, i)
    && tab' == tab.(images := tab'.images, backings := tab'.backings)
    && forall k :: k in tab.images && k != i ==> tab'.images[k] == tab.images[k]
  }

  lemma HandleWriteKeepsTab(tab: Table, tab': Table, fs: map<Path, nat>, wpc: WPc, i: nat)
    requires TabInv(tab, fs, wpc) && HandleOk(tab, i) && WrittenBehind(tab, tab', i)
    requires wpc.FillWrite? ==> wpc.b in tab.backings && tab.backings[wpc.b].remote
    ensures TabInv(tab', fs, wpc)
  {
    forall d | 0 <= d < MAX_DRIVE ensures SlotOk(tab', tab'.drv[d]) && LocalOk(tab', fs, d)
      && Installed(tab', d) == Installed(tab, d)
      && (Installed(tab, d) ==> ImageOf(tab', d) == ImageOf(tab, d)) {
      assert SlotOk(tab, tab.drv[d]) && LocalOk(tab, fs, d);
    }
    forall b | b in tab'.backings ensures RemoteOk(tab', fs, b) {
      assert RemoteOk(tab, fs, b);
    }
  }

  lemma HandleWriteKeepsTransfer(tab: Table, tab': Table, fs: map<Path, nat>, jobs: map<nat, Job>, wpc: WPc, i: nat)
    requires TabInv(tab, fs, wpc) && HandleOk(tab, i) && WrittenBehind(tab, tab', i) && WorkerData(tab, jobs, wpc)
    ensures WorkerData(tab', jobs, wpc)
  {
    assert forall d :: Installed(tab', d) == Installed(tab, d);
    assert forall d :: Installed(tab, d) ==> ImageOf(tab', d) == ImageOf(tab, d);
  }

  lemma HandleWriteKeepsCaller(tab: Table, tab': Table, fs: map<Path, nat>, pc: Pc, i: nat)
    requires WrittenBehind(tab, tab', i) && CallerData(tab, fs, pc)
    ensures CallerData(tab', fs, pc)
  {
    assert forall d :: Installed(tab', d) == Installed(tab, d);
    assert forall d :: Installed(tab, d) ==> ImageOf(tab', d) == ImageOf(tab, d);
  }
}
