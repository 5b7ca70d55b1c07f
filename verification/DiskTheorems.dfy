/** The main results about the disk module, for every run of any number of tasks. */
module DiskTheorems {
  import opened Bytes
  import opened Protocol
  import opened DiskCore
  import opened DiskMachine
  import opened DiskLocks
  import opened DiskJobs
  import opened DiskBackings
  import opened DiskData
  import opened DiskWriters

  // ---- the track cache ----

  /** A worker's write to the image mounted on drive d is under way. */
  predicate WriteInFlight(s: State, d: int) {
    s.ts.worker.pc.FillWrite? && 0 <= d < |s.tab.drv| && s.tab.drv[d].backing == Some(s.ts.worker.pc.b)
  }

  /** A track read that answers OK returns, whatever interleaved with it, the bytes that
      the image mounted on the drive has at the step that copied them: its bytes as the
      completed writes left them, which are its very bytes unless the worker is in the
      middle of writing that image. Only a cached track may be out of date, and only when
      something else has written to the image since it was mounted. */
  lemma ReadReturnsMountedBytes(run: seq<State>, i: nat, t: nat, a: IoAct, bytes: seq<byte>)
    requires IsRun(run) && i < |run| && CanIo(run[i], t, a) && (a.DoRead? || a.DoCopy?)
    requires DoIoStep(run[i], t, a).ts.callers[t].pc == Done(OK, bytes)
    ensures var (s, io) := (run[i], run[i].ts.callers[t].pc.io);
            && Admitted(s.tab, io) && s.tab.drv[io.drive].mounted && |bytes| == io.len
            && (s.tab.drv[io.drive].remote ==> Untouched(s.tab, io.drive))
            && (Untouched(s.tab, io.drive) || s.tab.cache != Cached(io) ==>
                  && TrackBytes(s.tab, View(s.tab, s.ts.worker.pc), io) == Some(bytes)
                  && (!WriteInFlight(s, io.drive) ==> TrackBytes(s.tab, s.tab.images, io) == Some(bytes)))
  {
    RunsKeepInv(run, i);
    if a.DoRead? {
      ReadShowsView(run[i], t, a, bytes);
    } else {
      CopyShowsView(run[i], t, bytes);
    }
    ShownIsMounted(run[i], run[i].ts.callers[t].pc.io);
  }

  lemma ReadShowsView(s: State, t: nat, a: IoAct, bytes: seq<byte>)
    requires DataInv(s) && CanIo(s, t, a) && a.DoRead? && DoIoStep(s, t, a).ts.callers[t].pc == Done(OK, bytes)
    ensures var io := s.ts.callers[t].pc.io;
            && Admitted(s.tab, io) && |bytes| == io.len
            && (Untouched(s.tab, io.drive) || s.tab.cache != Cached(io) ==>
                  TrackBytes(s.tab, View(s.tab, s.ts.worker.pc), io) == Some(bytes))
  {
    ViewAgrees(s.tab, s.fs, s.ts.worker.pc, s.jobs);
    ReadLockedIsCorrect(s.tab, View(s.tab, s.ts.worker.pc), s.ts.callers[t].pc.io, a.fault);
  }

  lemma CopyShowsView(s: State, t: nat, bytes: seq<byte>)
    requires DataInv(s) && CanIo(s, t, DoCopy) && DoIoStep(s, t, DoCopy).ts.callers[t].pc == Done(OK, bytes)
    ensures var io := s.ts.callers[t].pc.io;
            && Admitted(s.tab, io) && |bytes| == io.len
            && s.tab.cache == Cached(io)
            && (Untouched(s.tab, io.drive) ==> TrackBytes(s.tab, View(s.tab, s.ts.worker.pc), io) == Some(bytes))
  {}

  /** A session is nobody else's, and readers see an image as it is but while it is written. */
  lemma ShownIsMounted(s: State, io: Io)
    requires DataInv(s) && Admitted(s.tab, io)
    ensures s.tab.drv[io.drive].mounted
    ensures s.tab.drv[io.drive].remote ==> Untouched(s.tab, io.drive)
    ensures !WriteInFlight(s, io.drive) ==> TrackBytes(s.tab, s.tab.images, io) == TrackBytes(s.tab, View(s.tab, s.ts.worker.pc), io)
  {
    assert SlotOk(s.tab, s.tab.drv[io.drive]);
    assert RemoteOk(s.tab, s.fs, s.tab.drv[io.drive].backing.value);
  }

  function Cached(io: Io): Cache { Cache.Valid(io.drive, io.track, io.len) }

  /** In every reachable state a valid cache entry names a mounted drive and a track inside
      its image, and the buffer holds that track: the image's very bytes, unless a write to
      that image is under way, or something else has written to it since it was mounted. */
  lemma CacheShowsMountedImage(run: seq<State>, i: nat)
    requires IsRun(run) && i < |run| && run[i].tab.cache.Valid?
    ensures var (tab, c) := (run[i].tab, run[i].tab.cache);
            && Installed(tab, c.drive) && tab.drv[c.drive].mounted
            && 1 <= c.len <= |tab.buf| && Admitted(tab, Io(c.drive, c.track, c.len))
            && (Untouched(tab, c.drive) && !WriteInFlight(run[i], c.drive) ==>
                  TrackBytes(tab, tab.images, Io(c.drive, c.track, c.len)) == Some(tab.buf[..c.len]))
  {
    RunsKeepInv(run, i);
    assert SlotOk(run[i].tab, run[i].tab.drv[run[i].tab.cache.drive]);
  }

  /** A remote write takes effect for readers in one step, the worker's second critical
      section, and exactly as the track write it is. */
  lemma RemoteWriteIsAtomic(s: State)
    requires DataInv(s) && CanWork(s, WFillWrite) && s.ts.worker.pc.ok
    ensures var (io, data, b) := (s.jobs[s.ts.worker.pc.j].io, s.jobs[s.ts.worker.pc.j].data, s.ts.worker.pc.b);
            b in s.tab.backings &&
            var img := s.tab.backings[b].image;
            var (v, s') := (View(s.tab, s.ts.worker.pc), DoWorkStep(s, WFillWrite));
            && |data| == io.len && img in v && io.track * io.len + io.len <= |v[img]|
            && View(s'.tab, s'.ts.worker.pc) == v[img := Patch(v[img], io.track * io.len, data)]
  {}

  /** A local write takes effect for readers in the one step that answers OK: in place,
      unless something else has cut the image short. */
  lemma LocalWriteIsAtomic(s: State, t: nat, fault: Option<seq<byte>>)
    requires DataInv(s) && CanIo(s, t, DoWrite(fault))
    requires t < |DoIoStep(s, t, DoWrite(fault)).ts.callers| && DoIoStep(s, t, DoWrite(fault)).ts.callers[t].pc == Done(OK, [])
    ensures var (io, data) := (s.ts.callers[t].pc.io, s.ts.callers[t].pc.data);
            Admitted(s.tab, io) &&
            var img := ImageOf(s.tab, io.drive);
            var (v, s') := (View(s.tab, s.ts.worker.pc), DoIoStep(s, t, DoWrite(fault)));
            && img in v && (Untouched(s.tab, io.drive) ==> io.track * io.len + io.len <= |v[img]|)
            && View(s'.tab, s'.ts.worker.pc) == v[img := Overlaid(v[img], io.track * io.len, data)]
  {
    var (io, data) := (s.ts.callers[t].pc.io, s.ts.callers[t].pc.data);
    ViewAgrees(s.tab, s.fs, s.ts.worker.pc, s.jobs);
    WriteLockedIsCorrect(s.tab, View(s.tab, s.ts.worker.pc), io, data, fault);
    assert LocalOk(s.tab, s.fs, io.drive);
    if s.ts.worker.pc.FillWrite? {
      assert RemoteOk(s.tab, s.fs, s.ts.worker.pc.b);
    }
  }

  /** The steps that may change a mounted image: a local write that succeeds or is torn by
      a card fault, and the end of a remote write. */
  predicate WriteStep(s: State, a: Action)
    requires Enabled(s, a)
  {
    || (a.OfIo? && a.io.DoWrite? && (a.io.fault.Some? ||
          WriteLocked(s.tab, s.ts.callers[a.t].pc.io, s.ts.callers[a.t].pc.data, None).1 == Written(OK)))
    || (a.OfWorker? && a.wrk.WFillWrite?)
  }

  /** Readers see the same image on drive d before and after. */
  predicate SameImage(s: State, s': State, d: int)
    requires 0 <= d < MAX_DRIVE && Installed(s.tab, d)
  {
    var img := ImageOf(s.tab, d);
    var (v, v') := (View(s.tab, s.ts.worker.pc), View(s'.tab, s'.ts.worker.pc));
    img in v && img in v' && v'[img] == v[img]
  }

  /** A write to image i through a handle that was opened for writing. */
  predicate WritesBehind(a: Action, i: nat) { a.OfFile? && a.file.HandleWrite? && a.file.image == i }

  /** No other step changes what readers see of a mounted image: not the cache filling,
      not a transfer in progress, not a mount, not a guarded change to a file; only a write
      through a handle on that very image can. */
  lemma OnlyWritesChangeImages(s: State, a: Action, d: int)
    requires Inv(s) && Enabled(s, a) && !WriteStep(s, a)
    requires 0 <= d < MAX_DRIVE && Installed(s.tab, d) && !WritesBehind(a, ImageOf(s.tab, d))
    ensures SameImage(s, Apply(s, a), d)
  {
    match a
    case OfIo(t, x) => IoLeavesImages(s, t, x, d);
    case OfJob(t, x) => JobLeavesImages(s, t, x, d);
    case OfMount(t, x) => MountLeavesImages(s, t, x, d);
    case OfGuard(t, x) => GuardLeavesImages(s, t, x, d);
    case OfWorker(x) => WorkLeavesImages(s, x, d);
    case OfFile(x) => FileLeavesImages(s, x, d);
  }

  lemma IoLeavesImages(s: State, t: nat, a: IoAct, d: int)
    requires Inv(s) && CanIo(s, t, a) && 0 <= d < MAX_DRIVE && Installed(s.tab, d)
    requires a.DoWrite? ==> a.fault.None? && WriteLocked(s.tab, s.ts.callers[t].pc.io, s.ts.callers[t].pc.data, None).1 != Written(OK)
    ensures SameImage(s, DoIoStep(s, t, a), d)
  {
    assert SlotOk(s.tab, s.tab.drv[d]);
    var io := s.ts.callers[t].pc.io;
    ViewAgrees(s.tab, s.fs, s.ts.worker.pc, s.jobs);
    if a.DoRead? {
      ReadLockedIsCorrect(s.tab, View(s.tab, s.ts.worker.pc), io, a.fault);
    } else if a.DoWrite? {
      WriteLockedIsCorrect(s.tab, View(s.tab, s.ts.worker.pc), io, s.ts.callers[t].pc.data, a.fault);
    }
  }

  lemma JobLeavesImages(s: State, t: nat, a: JobAct, d: int)
    requires Inv(s) && CanJob(s, t, a) && 0 <= d < MAX_DRIVE && Installed(s.tab, d)
    ensures SameImage(s, DoJobStep(s, t, a), d)
  {
    assert SlotOk(s.tab, s.tab.drv[d]);
    JobStepShape(s, t, a);
  }

  lemma MountLeavesImages(s: State, t: nat, a: MountAct, d: int)
    requires Inv(s) && CanMount(s, t, a) && 0 <= d < MAX_DRIVE && Installed(s.tab, d)
    ensures SameImage(s, DoMountStep(s, t, a), d)
  {
    assert SlotOk(s.tab, s.tab.drv[d]);
    if a.DoDispose? {
      assert Carried(s.tab.backings, s.owner, t, Refs(s.ts.callers[t].pc));
    }
    MountBackings(s, t, a);
  }

  /** Mount steps close local backings only, and change no image. */
  lemma MountBackings(s: State, t: nat, a: MountAct)
    requires CanMount(s, t, a)
    requires a.DoDispose? && s.ts.callers[t].pc.olds != [] && !s.ts.callers[t].pc.olds[0].remote ==>
               s.ts.callers[t].pc.olds[0].b in s.tab.backings && !s.tab.backings[s.ts.callers[t].pc.olds[0].b].remote
    ensures var s' := DoMountStep(s, t, a);
            && s'.tab.images == s.tab.images && s'.ts.worker == s.ts.worker
            && forall b :: b in s.tab.backings && s.tab.backings[b].remote ==>
                 b in s'.tab.backings && s'.tab.backings[b] == s.tab.backings[b]
  {}

  lemma GuardLeavesImages(s: State, t: nat, a: GuardAct, d: int)
    requires Inv(s) && CanGuard(s, t, a) && 0 <= d < MAX_DRIVE && Installed(s.tab, d)
    ensures SameImage(s, DoGuardStep(s, t, a), d)
  {
    GuardChanges(s, t, a);
    if a.Acts? {
      ActLeavesImages(s, t, a.newImg, d);
    } else {
      assert SlotOk(s.tab, s.tab.drv[d]);
    }
  }

  lemma ActLeavesImages(s: State, t: nat, newImg: nat, d: int)
    requires Inv(s) && CanGuard(s, t, Acts(newImg)) && 0 <= d < MAX_DRIVE && Installed(s.tab, d)
    ensures SameImage(s, DoGuardStep(s, t, Acts(newImg)), d)
  {
    assert CallerData(s.tab, s.fs, s.ts.callers[t].pc);
    EffectLeavesImage(s.tab, s.fs, s.ts.worker.pc, s.ts.callers[t].pc.op, newImg, d);
  }

  lemma EffectLeavesImage(tab: Table, fs: map<Path, nat>, wpc: WPc, op: Op, newImg: nat, d: int)
    requires TabInv(tab, fs, wpc) && 0 <= d < MAX_DRIVE && Installed(tab, d)
    requires forall e :: 0 <= e < MAX_DRIVE ==> !Touches(tab.drv[e], op.path)
    requires CanAct(fs, tab.images, op, newImg)
    ensures var images' := Effect(fs, tab.images, op, newImg).1;
            ImageOf(tab, d) in tab.images && ImageOf(tab, d) in images' && images'[ImageOf(tab, d)] == tab.images[ImageOf(tab, d)]
  {
    assert SlotOk(tab, tab.drv[d]);
    EffectSparesMounted(tab, fs, wpc, op, newImg);
  }

  lemma FileLeavesImages(s: State, a: FileAct, d: int)
    requires Inv(s) && CanFile(s, a) && 0 <= d < MAX_DRIVE && Installed(s.tab, d)
    requires !WritesBehind(OfFile(a), ImageOf(s.tab, d))
    ensures SameImage(s, DoFileStep(s, a), d)
  {
    assert SlotOk(s.tab, s.tab.drv[d]);
    assert HandleOk(s.tab, a.image);
  }

  lemma WorkLeavesImages(s: State, a: WorkAct, d: int)
    requires Inv(s) && CanWork(s, a) && !a.WFillWrite? && 0 <= d < MAX_DRIVE && Installed(s.tab, d)
    ensures SameImage(s, DoWorkStep(s, a), d)
  {
    assert SlotOk(s.tab, s.tab.drv[d]);
    WorkViews(s, a);
  }

  lemma WorkViews(s: State, a: WorkAct)
    requires CanWork(s, a) && !a.WFillWrite?
    ensures View(DoWorkStep(s, a).tab, DoWorkStep(s, a).ts.worker.pc) == View(s.tab, s.ts.worker.pc)
  {
    if a.WWrites? {
    } else {
      WorkImages(s, a);
    }
  }

  lemma WorkImages(s: State, a: WorkAct)
    requires CanWork(s, a) && !a.WFillWrite? && !a.WWrites?
    ensures var s' := DoWorkStep(s, a);
            && s'.tab.images == s.tab.images
            && (s'.ts.worker.pc.FillWrite? || s.ts.worker.pc.FillWrite? ==>
                  s'.ts.worker.pc == s.ts.worker.pc && s'.tab == s.tab)
  {
    if OnTrack(a) {
      TrackWorkImages(s, a);
    } else {
      OtherWorkImages(s, a);
    }
  }

  lemma TrackWorkImages(s: State, a: WorkAct)
    requires CanWork(s, a) && OnTrack(a) && !a.WFillWrite? && !a.WWrites?
    ensures var s' := DoWorkStep(s, a);
            && s'.tab.images == s.tab.images
            && (s'.ts.worker.pc.FillWrite? || s.ts.worker.pc.FillWrite? ==>
                  s'.ts.worker.pc == s.ts.worker.pc && s'.tab == s.tab)
  {}

  lemma OtherWorkImages(s: State, a: WorkAct)
    requires CanWork(s, a) && !OnTrack(a)
    ensures var s' := DoWorkStep(s, a);
            && s'.tab.images == s.tab.images
            && (s'.ts.worker.pc.FillWrite? || s.ts.worker.pc.FillWrite? ==>
                  s'.ts.worker.pc == s.ts.worker.pc && s'.tab == s.tab)
  {}

  // ---- acknowledged writes ----

  /** A remote write that its caller sees answered OK did reach the session: the job it
      reaps carries the mark that only the successful transfer of exactly its bytes sets. */
  lemma AcknowledgedWriteIsStored(run: seq<State>, i: nat, t: nat)
    requires IsRun(run) && i < |run| && CanJob(run[i], t, DoReap) && run[i].ts.callers[t].pc.k.ForWrite?
    requires DoJobStep(run[i], t, DoReap).ts.callers[t].pc == Done(OK, [])
    ensures var (s, pc) := (run[i], run[i].ts.callers[t].pc);
            && s.jobs[pc.j].stored
            && s.jobs[pc.j].io == pc.k.io && s.jobs[pc.j].data == pc.k.data
  {
    RunsKeepInv(run, i);
    var s := run[i];
    assert CallerJob(s.jobs, s.queue, WRef(s.ts.worker.pc), t, s.ts.callers[t].pc);
    assert JobOk(s.jobs, s.queue, WRef(s.ts.worker.pc), s.ts.callers, s.ts.callers[t].pc.j);
  }

  /** The step replaced exactly job j's track in the image of the session it runs on, which
      is an image of the job's drive and no other drive's. */
  predicate Transferred(s: State, a: WorkAct, s': State, j: nat) {
    var pc := s.ts.worker.pc;
    && a.WWrites? && a.ok && pc.Xfer? && pc.j == j && j in s.jobs && pc.b in s.tab.backings
    && var (img, io) := (s.tab.backings[pc.b].image, s.jobs[j].io);
    && img in s.tab.images && img in s'.tab.images
    && Patched(s.tab.images[img], s'.tab.images[img], io, s.jobs[j].data)
    && OwnImage(s.tab, pc.b, io.drive)
  }

  /** Only a transfer that replaces exactly the job's track in the image of a session of the
      job's drive marks a job as stored. */
  lemma StoredMeansTransferred(s: State, a: Action, j: nat)
    requires Inv(s) && Enabled(s, a)
    requires j in Apply(s, a).jobs && Apply(s, a).jobs[j].stored && !(j in s.jobs && s.jobs[j].stored)
    ensures a.OfWorker? && Transferred(s, a.wrk, Apply(s, a), j)
  {
    match a
    case OfIo(t, x) => IoChanges(s, t, x);
    case OfJob(t, x) => NoneStored(s, t, x, j);
    case OfMount(t, x) => MountChanges(s, t, x);
    case OfGuard(t, x) => GuardChanges(s, t, x);
    case OfWorker(x) =>
      StoringStep(s, x, j);
      TransferDone(s, x);
    case OfFile(x) =>
  }

  lemma NoneStored(s: State, t: nat, a: JobAct, j: nat)
    requires CanJob(s, t, a) && j in DoJobStep(s, t, a).jobs && DoJobStep(s, t, a).jobs[j].stored
    ensures j in s.jobs && s.jobs[j].stored
  {}

  lemma StoringStep(s: State, a: WorkAct, j: nat)
    requires CanWork(s, a)
    requires j in DoWorkStep(s, a).jobs && DoWorkStep(s, a).jobs[j].stored && !(j in s.jobs && s.jobs[j].stored)
    ensures a.WWrites? && a.ok && s.ts.worker.pc.Xfer? && s.ts.worker.pc.j == j
  {}

  lemma TransferDone(s: State, a: WorkAct)
    requires DataInv(s) && CanWork(s, a) && a.WWrites? && a.ok
    ensures Transferred(s, a, DoWorkStep(s, a), s.ts.worker.pc.j)
  {
    var pc := s.ts.worker.pc;
    assert RemoteOk(s.tab, s.fs, pc.b);
    BoundsAreExact(s.jobs[pc.j].io.track, s.jobs[pc.j].io.len, s.tab.backings[pc.b].size);
  }
}
