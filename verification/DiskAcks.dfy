/** An acknowledged remote write, followed back through the run: the call, the worker's look
    at the drive, and the transfer (src/disk/disk.c). */
module DiskAcks {
  import opened Bytes
  import opened DiskCore
  import opened DiskMachine
  import opened DiskJobs
  import opened DiskBackings
  import opened DiskData
  import opened DiskWriters
  import opened DiskTheorems
  import opened DiskCalls

  /** Task t is in the call that made job j, with this continuation. */
  predicate InCall(s: State, t: nat, j: nat, k: Kont) {
    t < |s.ts.callers| && JRef(s.ts.callers[t].pc) == Some(j) && s.ts.callers[t].pc.k == k
  }

  /** A task that refers to a job has done so since the job was made. */
  lemma InCallBefore(s: State, a: Action, t: nat, j: nat, k: Kont)
    requires Enabled(s, a) && j in s.jobs && InCall(Apply(s, a), t, j, k)
    ensures InCall(s, t, j, k)
  {
    match a
    case OfIo(u, x) => IoMakesNoCall(s, u, x, t);
    case OfJob(u, x) => JobStepInCall(s, u, x, t, j, k);
    case OfMount(u, x) => MountMakesNoCall(s, u, x, t);
    case OfGuard(u, x) => GuardChanges(s, u, x);
    case OfWorker(x) => WorkLeavesTasks(s, x);
    case OfFile(x) =>
  }

  lemma IoMakesNoCall(s: State, u: nat, a: IoAct, t: nat)
    requires CanIo(s, u, a) && t < |DoIoStep(s, u, a).ts.callers|
    ensures t < |s.ts.callers|
    ensures var pc' := DoIoStep(s, u, a).ts.callers[t].pc; pc' == s.ts.callers[t].pc || JRef(pc').None?
  {}

  lemma JobStepInCall(s: State, u: nat, a: JobAct, t: nat, j: nat, k: Kont)
    requires CanJob(s, u, a) && j in s.jobs && InCall(DoJobStep(s, u, a), t, j, k)
    ensures InCall(s, t, j, k)
  {}

  lemma MountMakesNoCall(s: State, u: nat, a: MountAct, t: nat)
    requires CanMount(s, u, a) && t < |DoMountStep(s, u, a).ts.callers|
    ensures t < |s.ts.callers|
    ensures var pc' := DoMountStep(s, u, a).ts.callers[t].pc; pc' == s.ts.callers[t].pc || JRef(pc').None?
  {
    MountChanges(s, u, a);
    MountNoJob(s, u, a);
  }

  // ---- back to the transfer ----

  /** The step from n to n + 1 is the transfer of job j. */
  ghost predicate TransferAt(run: seq<State>, n: nat, j: nat) {
    n + 1 < |run| &&
    exists x :: CanWork(run[n], x) && run[n + 1] == DoWorkStep(run[n], x) && Transferred(run[n], x, run[n + 1], j)
  }

  ghost predicate InCallFrom(run: seq<State>, n: nat, i: nat, t: nat, j: nat, k: Kont) {
    n <= i < |run| && forall m :: n <= m <= i ==> InCall(run[m], t, j, k)
  }

  predicate StoredJob(s: State, j: nat) { j in s.jobs && s.jobs[j].stored }

  lemma StoredBefore(s: State, a: Action, t: nat, j: nat, k: Kont)
    requires Inv(s) && Enabled(s, a) && InCall(Apply(s, a), t, j, k) && StoredJob(Apply(s, a), j)
    ensures InCall(s, t, j, k)
    ensures StoredJob(s, j) || (a.OfWorker? && Transferred(s, a.wrk, Apply(s, a), j))
  {
    if !StoredJob(s, j) {
      StoredMeansTransferred(s, a, j);
    }
    InCallBefore(s, a, t, j, k);
  }

  lemma StepBack(run: seq<State>, n: nat, t: nat, j: nat, k: Kont)
    requires IsRun(run) && n + 1 < |run| && InCall(run[n + 1], t, j, k) && StoredJob(run[n + 1], j)
    ensures InCall(run[n], t, j, k) && (StoredJob(run[n], j) || TransferAt(run, n, j))
  {
    RunsKeepInv(run, n);
    var a := StepOf(run, n);
    StoredBefore(run[n], a, t, j, k);
    if !StoredJob(run[n], j) {
      assert CanWork(run[n], a.wrk) && run[n + 1] == DoWorkStep(run[n], a.wrk) && Transferred(run[n], a.wrk, run[n + 1], j);
    }
  }

  lemma FirstHasNoJobs(run: seq<State>, i: nat, j: nat)
    requires IsRun(run) && i < |run| && StoredJob(run[i], j)
    ensures i > 0
  {}

  lemma CallBack(run: seq<State>, n: nat, t: nat, j: nat, k: Kont)
    requires IsRun(run) && n + 1 < |run| && InCall(run[n + 1], t, j, k) && StoredJob(run[n + 1], j)
    ensures InCall(run[n], t, j, k)
  {
    StepBack(run, n, t, j, k);
  }

  /** The step at which the job came to be marked as stored. */
  lemma {:induction false} BackToMark(run: seq<State>, i: nat, t: nat, j: nat, k: Kont) returns (w: nat)
    requires IsRun(run) && i < |run| && InCall(run[i], t, j, k) && StoredJob(run[i], j)
    ensures w < i && !StoredJob(run[w], j) && StoredJob(run[w + 1], j) && InCallFrom(run, w, i, t, j, k)
  {
    FirstHasNoJobs(run, i, j);
    CallBack(run, i - 1, t, j, k);
    if StoredJob(run[i - 1], j) {
      w := BackToMark(run, i - 1, t, j, k);
    } else {
      w := i - 1;
      JustThere(run, w, t, j, k);
    }
    OneLater(run, w, i - 1, t, j, k);
  }

  lemma BackToTransfer(run: seq<State>, i: nat, t: nat, j: nat, k: Kont) returns (w: nat)
    requires IsRun(run) && i < |run| && InCall(run[i], t, j, k) && StoredJob(run[i], j)
    ensures w < i && TransferAt(run, w, j) && InCallFrom(run, w, i, t, j, k)
  {
    w := BackToMark(run, i, t, j, k);
    StepBack(run, w, t, j, k);
  }

  // ---- back to the worker's look at the drive ----

  /** The worker takes up job j and finds backing b mounted on the drive. */
  predicate Looks(s: State, j: nat, b: nat) {
    s.ts.worker.pc == Look(j) && j in s.jobs && MountedAt(s.tab, s.jobs[j].io.drive, b)
  }

  /** Backing b is mounted on drive d, as a remote drive that may be written. */
  predicate MountedAt(tab: Table, d: int, b: nat) {
    Installed(tab, d) && tab.drv[d].mounted && tab.drv[d].remote && !tab.drv[d].readonly && tab.drv[d].backing == Some(b)
  }

  /** A transfer starts at a look at the drive, with the backing that is mounted there. */
  lemma TransferStarts(s: State, a: Action, j: nat, b: nat)
    requires Enabled(s, a) && Apply(s, a).ts.worker.pc == Xfer(j, b)
    ensures s.ts.worker.pc == Xfer(j, b) || (a.OfWorker? && a.wrk.WLook? && s.ts.worker.pc == Look(j))
  {
    match a
    case OfIo(u, x) => IoLeavesWorker(s, u, x);
    case OfJob(u, x) => JobStepShape(s, u, x);
    case OfMount(u, x) => MountChanges(s, u, x);
    case OfGuard(u, x) => GuardChanges(s, u, x);
    case OfWorker(x) => WorkStarts(s, x, j, b);
    case OfFile(x) =>
  }

  lemma IoLeavesWorker(s: State, u: nat, a: IoAct)
    requires CanIo(s, u, a)
    ensures DoIoStep(s, u, a).ts.worker == s.ts.worker
  {}

  lemma WorkStarts(s: State, a: WorkAct, j: nat, b: nat)
    requires CanWork(s, a) && DoWorkStep(s, a).ts.worker.pc == Xfer(j, b)
    ensures s.ts.worker.pc == Xfer(j, b) || (a.WLook? && s.ts.worker.pc == Look(j))
  {}

  lemma LookFinds(s: State, connected: bool, j: nat, b: nat)
    requires DataInv(s) && CanWork(s, WLook(connected)) && s.ts.worker.pc == Look(j) && s.jobs[j].kind == WRITE
    requires DoWorkStep(s, WLook(connected)).ts.worker.pc == Xfer(j, b)
    ensures MountedAt(s.tab, s.jobs[j].io.drive, b)
  {}

  lemma XferBefore(s: State, a: Action, t: nat, j: nat, k: Kont, b: nat)
    requires Inv(s) && Enabled(s, a) && InCall(Apply(s, a), t, j, k) && k.ForWrite?
    requires Apply(s, a).ts.worker.pc == Xfer(j, b) && b in Apply(s, a).tab.backings
    ensures InCall(s, t, j, k) && b in s.tab.backings && Apply(s, a).tab.backings[b].image == s.tab.backings[b].image
    ensures s.ts.worker.pc == Xfer(j, b) || Looks(s, j, b)
  {
    TransferStarts(s, a, j, b);
    InCallBefore(s, a, t, j, k);
    if s.ts.worker.pc != Xfer(j, b) {
      assert CallerJob(s.jobs, s.queue, WRef(s.ts.worker.pc), t, s.ts.callers[t].pc);
      LookFinds(s, a.wrk.connected, j, b);
    }
    BackingStays(s, a, b);
  }

  lemma XferStep(s: State, a: Action, s': State, t: nat, j: nat, k: Kont, b: nat)
    requires Inv(s) && Enabled(s, a) && s' == Apply(s, a) && InCall(s', t, j, k) && k.ForWrite?
    requires s'.ts.worker.pc == Xfer(j, b) && b in s'.tab.backings
    ensures InCall(s, t, j, k) && b in s.tab.backings && s'.tab.backings[b].image == s.tab.backings[b].image
    ensures s.ts.worker.pc == Xfer(j, b) || Looks(s, j, b)
  {
    XferBefore(s, a, t, j, k, b);
  }

  lemma TransferIsOpen(run: seq<State>, n: nat)
    requires IsRun(run) && n < |run| && run[n].ts.worker.pc.Xfer?
    ensures run[n].ts.worker.pc.b in run[n].tab.backings
  {
    RunsKeepInv(run, n);
  }

  lemma LookBack(run: seq<State>, n: nat, t: nat, j: nat, k: Kont, b: nat)
    requires IsRun(run) && n + 1 < |run| && InCall(run[n + 1], t, j, k) && k.ForWrite?
    requires run[n + 1].ts.worker.pc == Xfer(j, b)
    ensures InCall(run[n], t, j, k) && b in run[n].tab.backings && b in run[n + 1].tab.backings
    ensures run[n + 1].tab.backings[b].image == run[n].tab.backings[b].image
    ensures run[n].ts.worker.pc == Xfer(j, b) || Looks(run[n], j, b)
  {
    RunsKeepInv(run, n);
    TransferIsOpen(run, n + 1);
    var a := StepOf(run, n);
    XferStep(run[n], a, run[n + 1], t, j, k, b);
  }

  lemma {:induction false} BackToLook(run: seq<State>, w: nat, t: nat, j: nat, k: Kont, b: nat) returns (l: nat)
    requires IsRun(run) && w < |run| && InCall(run[w], t, j, k) && k.ForWrite? && run[w].ts.worker.pc == Xfer(j, b)
    ensures l < w && Looks(run[l], j, b) && InCallFrom(run, l, w, t, j, k)
    ensures b in run[w].tab.backings && b in run[l].tab.backings && run[l].tab.backings[b].image == run[w].tab.backings[b].image
  {
    NotFirst(run, w);
    LookBack(run, w - 1, t, j, k, b);
    if run[w - 1].ts.worker.pc == Xfer(j, b) {
      l := BackToLook(run, w - 1, t, j, k, b);
      OneLater(run, l, w - 1, t, j, k);
    } else {
      l := w - 1;
      JustThere(run, l, t, j, k);
      OneLater(run, l, w - 1, t, j, k);
    }
  }

  lemma NotFirst(run: seq<State>, w: nat)
    requires IsRun(run) && w < |run| && run[w].ts.worker.pc.Xfer?
    ensures w > 0
  {}

  lemma JustThere(run: seq<State>, n: nat, t: nat, j: nat, k: Kont)
    requires n < |run| && InCall(run[n], t, j, k)
    ensures InCallFrom(run, n, n, t, j, k)
  {}

  lemma OneLater(run: seq<State>, n: nat, i: nat, t: nat, j: nat, k: Kont)
    requires InCallFrom(run, n, i, t, j, k) && i + 1 < |run| && InCall(run[i + 1], t, j, k)
    ensures InCallFrom(run, n, i + 1, t, j, k)
  {}

  // ---- the result ----

  /** A remote write that its caller sees answered OK has been carried out, within that very
      call: at state l the worker found a session mounted on the caller's drive, and in the
      step after state w exactly the caller's track was replaced by the caller's bytes in the
      image of that session, which no other drive shows. */
  lemma AcknowledgedWriteReachedItsDrive(run: seq<State>, i: nat, t: nat) returns (l: nat, w: nat, b: nat)
    requires IsRun(run) && i < |run| && CanJob(run[i], t, DoReap) && run[i].ts.callers[t].pc.k.ForWrite?
    requires DoJobStep(run[i], t, DoReap).ts.callers[t].pc == Done(OK, [])
    ensures var (j, k) := (run[i].ts.callers[t].pc.j, run[i].ts.callers[t].pc.k);
            && l < w < i && InCallFrom(run, l, i, t, j, k)
            && run[l].ts.worker.pc == Look(j) && MountedAt(run[l].tab, k.io.drive, b)
            && WrittenThere(run[w].tab, run[w + 1].tab, ImageOf(run[l].tab, k.io.drive), k.io, k.data)
  {
    var (j, k) := (run[i].ts.callers[t].pc.j, run[i].ts.callers[t].pc.k);
    AcknowledgedWriteIsStored(run, i, t);
    w := BackToTransfer(run, i, t, j, k);
    b := run[w].ts.worker.pc.b;
    l := BackToLook(run, w, t, j, k, b);
    SameJob(run, l, t, j, k);
    SameJob(run, w, t, j, k);
    TransferWrites(run[w], run[w + 1], j, k.io, k.data);
  }

  /** Exactly this track of the image was replaced, and no other drive shows the image. */
  predicate WrittenThere(tab: Table, tab': Table, img: nat, io: Io, data: seq<byte>) {
    && img in tab.images && img in tab'.images && Patched(tab.images[img], tab'.images[img], io, data)
    && forall d :: 0 <= d < |tab.drv| && d != io.drive && Installed(tab, d) ==> ImageOf(tab, d) != img
  }

  lemma TransferWrites(s: State, s': State, j: nat, io: Io, data: seq<byte>)
    requires j in s.jobs && s.jobs[j].io == io && s.jobs[j].data == data
    requires exists x :: CanWork(s, x) && s' == DoWorkStep(s, x) && Transferred(s, x, s', j)
    ensures s.ts.worker.pc.Xfer? && s.ts.worker.pc.b in s.tab.backings
    ensures WrittenThere(s.tab, s'.tab, s.tab.backings[s.ts.worker.pc.b].image, io, data)
  {
    var x :| CanWork(s, x) && s' == DoWorkStep(s, x) && Transferred(s, x, s', j);
    forall d | 0 <= d < |s.tab.drv| && d != io.drive && Installed(s.tab, d)
      ensures ImageOf(s.tab, d) != s.tab.backings[s.ts.worker.pc.b].image {
    }
  }

  lemma SameJob(run: seq<State>, n: nat, t: nat, j: nat, k: Kont)
    requires IsRun(run) && n < |run| && InCall(run[n], t, j, k) && k.ForWrite?
    ensures j in run[n].jobs && run[n].jobs[j].io == k.io && run[n].jobs[j].data == k.data
  {
    RunsKeepInv(run, n);
    var s := run[n];
    assert CallerJob(s.jobs, s.queue, WRef(s.ts.worker.pc), t, s.ts.callers[t].pc);
  }
}
