/** Lifetimes, the guard on SD changes, and progress, for every run of the disk machine. */
module DiskOwnership {
  import opened Bytes
  import opened Protocol
  import opened DiskCore
  import opened DiskMachine
  import opened DiskLocks
  import opened DiskJobs
  import opened DiskBackings
  import opened DiskData
  import opened DiskWriters
  import opened DiskCalls

  // ---- jobs ----

  /** Nobody points to job j. */
  predicate Forgotten(s: State, j: nat) {
    && (forall u :: 0 <= u < |s.ts.callers| ==> JRef(s.ts.callers[u].pc) != Some(j))
    && j !in s.queue && WRef(s.ts.worker.pc) != Some(j)
  }

  /** Whoever frees a job is the one party it belongs to, its creator while the creator
      still waits for it and the worker otherwise; and after the free nobody points to it,
      so it is neither touched again nor freed twice. */
  lemma JobIsFreedOnce(s: State, a: Action, j: nat)
    requires JobInv(s.jobs, s.queue, s.ts) && Enabled(s, a) && j in s.jobs && j !in Apply(s, a).jobs
    ensures if Held(s.jobs, s.ts.callers, j)
            then a.OfJob? && a.t == s.jobs[j].maker && (a.job.DoReap? || a.job.SendFails?)
            else a.OfWorker? && a.wrk.WFrees? && WRef(s.ts.worker.pc) == Some(j)
    ensures Forgotten(Apply(s, a), j)
  {
    FreeingStep(s, a, j);
    KeepsJobs(s, a);
    FreedIsForgotten(Apply(s, a), j);
    assert JobOk(s.jobs, s.queue, WRef(s.ts.worker.pc), s.ts.callers, j);
    if a.OfJob? {
      assert CallerJob(s.jobs, s.queue, WRef(s.ts.worker.pc), a.t, s.ts.callers[a.t].pc);
    }
  }

  lemma FreedIsForgotten(s: State, j: nat)
    requires JobInv(s.jobs, s.queue, s.ts) && j !in s.jobs
    ensures Forgotten(s, j)
  {
    forall u | 0 <= u < |s.ts.callers| ensures JRef(s.ts.callers[u].pc) != Some(j) {
      assert CallerJob(s.jobs, s.queue, WRef(s.ts.worker.pc), u, s.ts.callers[u].pc);
    }
  }

  lemma FreeingStep(s: State, a: Action, j: nat)
    requires Enabled(s, a) && j in s.jobs && j !in Apply(s, a).jobs
    ensures || (a.OfJob? && (a.job.DoReap? || a.job.SendFails?) && a.t < |s.ts.callers| && JRef(s.ts.callers[a.t].pc) == Some(j))
            || (a.OfWorker? && a.wrk.WFrees? && s.ts.worker.pc == FreeJob(j))
  {
    match a
    case OfIo(t, x) =>
    case OfJob(t, x) => CallerFrees(s, t, x, j);
    case OfMount(t, x) => MountChanges(s, t, x);
    case OfGuard(t, x) => GuardChanges(s, t, x);
    case OfWorker(x) => WorkerFrees(s, x, j);
    case OfFile(x) =>
  }

  lemma CallerFrees(s: State, t: nat, a: JobAct, j: nat)
    requires CanJob(s, t, a) && j in s.jobs && j !in DoJobStep(s, t, a).jobs
    ensures (a.DoReap? || a.SendFails?) && JRef(s.ts.callers[t].pc) == Some(j)
  {}

  lemma WorkerFrees(s: State, a: WorkAct, j: nat)
    requires CanWork(s, a) && j in s.jobs && j !in DoWorkStep(s, a).jobs
    ensures a.WFrees? && s.ts.worker.pc == FreeJob(j)
  {}

  /** Every allocated job, in every reachable state, has someone who is going to free it:
      its creator, or the worker side for a job nobody waits for any more. */
  lemma EveryJobHasOneOwner(run: seq<State>, i: nat, j: nat)
    requires IsRun(run) && i < |run| && j in run[i].jobs
    ensures var (s, job) := (run[i], run[i].jobs[j]);
            var working := j in s.queue || WRef(s.ts.worker.pc) == Some(j);
            && (Held(s.jobs, s.ts.callers, j) <==> !(working && (!job.sync || job.abandoned)))
            && (forall u :: 0 <= u < |s.ts.callers| && JRef(s.ts.callers[u].pc) == Some(j) ==> u == job.maker)
  {
    RunsKeepInv(run, i);
    var s := run[i];
    assert JobOk(s.jobs, s.queue, WRef(s.ts.worker.pc), s.ts.callers, j);
    forall u | 0 <= u < |s.ts.callers| && JRef(s.ts.callers[u].pc) == Some(j) ensures u == s.jobs[j].maker {
      assert CallerJob(s.jobs, s.queue, WRef(s.ts.worker.pc), u, s.ts.callers[u].pc);
    }
  }

  // ---- backings ----

  /** In every reachable state a drive is mounted exactly when a backing is installed on
      it, and its remote flag says which kind of backing that is. */
  lemma MountedIffInstalled(run: seq<State>, i: nat, d: nat)
    requires IsRun(run) && i < |run| && d < MAX_DRIVE
    ensures var tab := run[i].tab;
            && |tab.drv| == MAX_DRIVE
            && (tab.drv[d].mounted <==> Installed(tab, d))
            && (Installed(tab, d) ==> tab.drv[d].remote == tab.backings[tab.drv[d].backing.value].remote
                                      && tab.drv[d].backing.value in run[i].owner
                                      && run[i].owner[tab.drv[d].backing.value] == InSlot(d))
  {
    RunsKeepInv(run, i);
    assert SlotOk(run[i].tab, run[i].tab.drv[d]);
    assert SlotOwns(run[i].tab.drv, run[i].tab.backings, run[i].owner, d);
  }

  predicate UsesBacking(pc: WPc) { pc.Xfer? || pc.FillRead? || pc.FillWrite? || pc.InstallIn? || pc.Discard? }

  /** No slot, no task, no close job and no transfer refers to backing b. */
  ghost predicate Unused(s: State, b: nat) {
    && (forall d :: 0 <= d < |s.tab.drv| ==> s.tab.drv[d].backing != Some(b))
    && (forall u, x :: 0 <= u < |s.ts.callers| && x in Refs(s.ts.callers[u].pc) ==> x.b != b)
    && (forall j :: Closes(s.jobs, s.queue, s.ts.worker.pc, j) ==> s.jobs[j].bclose != b)
    && (UsesBacking(s.ts.worker.pc) ==> s.ts.worker.pc.b != b)
  }

  /** A remote session is closed by the worker and a local file by the task that took it
      out of the table; once closed, nothing anywhere refers to it, so nothing uses it
      again or closes it twice. */
  lemma BackingIsClosedOnce(s: State, a: Action, b: nat)
    requires BackInvOf(s) && JobInv(s.jobs, s.queue, s.ts) && FlagsOk(s.tab.drv)
    requires Enabled(s, a) && b in s.tab.backings && b !in Apply(s, a).tab.backings
    ensures if s.tab.backings[b].remote then a.OfWorker? else a.OfMount? && s.owner[b] == WithCaller(a.t)
    ensures Unused(Apply(s, a), b)
  {
    ClosingStep(s, a, b);
    KeepsBackings(s, a);
    GoneIsUnused(Apply(s, a), b);
  }

  lemma GoneIsUnused(s: State, b: nat)
    requires BackInvOf(s) && b !in s.tab.backings
    ensures Unused(s, b)
  {
    forall d | 0 <= d < |s.tab.drv| ensures s.tab.drv[d].backing != Some(b) {
      assert SlotOwns(s.tab.drv, s.tab.backings, s.owner, d);
    }
    forall u, x | 0 <= u < |s.ts.callers| && x in Refs(s.ts.callers[u].pc) ensures x.b != b {
      assert Carried(s.tab.backings, s.owner, u, Refs(s.ts.callers[u].pc));
    }
    forall j | Closes(s.jobs, s.queue, s.ts.worker.pc, j) ensures s.jobs[j].bclose != b {
      assert CloseOk(s.tab.backings, s.owner, s.jobs, j);
    }
  }

  lemma ClosingStep(s: State, a: Action, b: nat)
    requires BackInvOf(s) && JobInv(s.jobs, s.queue, s.ts)
    requires Enabled(s, a) && b in s.tab.backings && b !in Apply(s, a).tab.backings
    ensures if s.tab.backings[b].remote then a.OfWorker? else a.OfMount? && s.owner[b] == WithCaller(a.t)
  {
    match a
    case OfIo(t, x) => IoBackings(s, t, x);
    case OfJob(t, x) => JobStepShape(s, t, x);
    case OfMount(t, x) =>
      assert Carried(s.tab.backings, s.owner, t, Refs(s.ts.callers[t].pc));
      MountCloses(s, t, x, b);
    case OfGuard(t, x) => GuardChanges(s, t, x);
    case OfWorker(x) => WorkCloses(s, x, b);
    case OfFile(x) =>
  }

  lemma IoBackings(s: State, t: nat, a: IoAct)
    requires CanIo(s, t, a)
    ensures DoIoStep(s, t, a).tab.backings == s.tab.backings
  {}

  lemma MountCloses(s: State, t: nat, a: MountAct, b: nat)
    requires CanMount(s, t, a) && b in s.tab.backings && b !in DoMountStep(s, t, a).tab.backings
    requires Carried(s.tab.backings, s.owner, t, Refs(s.ts.callers[t].pc))
    ensures !s.tab.backings[b].remote && b in s.owner && s.owner[b] == WithCaller(t)
  {
    MountClosesHead(s, t, a, b);
    HeadIsCarried(s.tab.backings, s.owner, t, s.ts.callers[t].pc.olds, b);
  }

  lemma HeadIsCarried(backings: map<nat, Backing>, owner: map<nat, Owner>, t: nat, olds: seq<Old>, b: nat)
    requires Carried(backings, owner, t, olds) && olds != [] && olds[0] == Old(b, false)
    ensures b in backings && !backings[b].remote && b in owner && owner[b] == WithCaller(t)
  {}

  lemma MountClosesHead(s: State, t: nat, a: MountAct, b: nat)
    requires CanMount(s, t, a) && b in s.tab.backings && b !in DoMountStep(s, t, a).tab.backings
    ensures a.DoDispose? && s.ts.callers[t].pc.olds != [] && s.ts.callers[t].pc.olds[0] == Old(b, false)
  {}

  lemma WorkCloses(s: State, a: WorkAct, b: nat)
    requires BackInvOf(s) && JobInv(s.jobs, s.queue, s.ts)
    requires CanWork(s, a) && b in s.tab.backings && b !in DoWorkStep(s, a).tab.backings
    ensures s.tab.backings[b].remote
  {
    WorkClosesIts(s, a, b);
    var pc := s.ts.worker.pc;
    if a.WCloses? {
      assert Closes(s.jobs, s.queue, pc, pc.j);
      assert CloseOk(s.tab.backings, s.owner, s.jobs, pc.j);
    }
  }

  lemma WorkClosesIts(s: State, a: WorkAct, b: nat)
    requires CanWork(s, a) && b in s.tab.backings && b !in DoWorkStep(s, a).tab.backings
    ensures (a.WDiscards? && s.ts.worker.pc.Discard? && s.ts.worker.pc.b == b) ||
            (a.WCloses? && s.ts.worker.pc.Closing? && s.ts.worker.pc.j in s.jobs && s.jobs[s.ts.worker.pc.j].bclose == b)
  {}

  /** About to hand session b to the worker to be closed. */
  predicate ClosesNow(pc: Pc, b: nat) { (pc.MakeJob? || pc.Post?) && pc.k.ForClose? && pc.k.b == b }

  /** A session is lost only when its close could not be scheduled: the job for it was not
      allocated, or the queue did not take it in time. */
  lemma LostOnlyIfUnscheduled(s: State, a: Action, b: nat)
    requires Enabled(s, a) && b in s.owner && s.owner[b] != Leaked
    requires b in Apply(s, a).owner && Apply(s, a).owner[b] == Leaked
    ensures a.OfJob? && (a.job.NoJob? || a.job.SendFails?) && ClosesNow(Pc0(s, a.t), b)
  {
    match a
    case OfIo(t, x) =>
    case OfJob(t, x) => JobLoses(s, t, x, b);
    case OfMount(t, x) => MountLoses(s, t, x, b);
    case OfGuard(t, x) => GuardChanges(s, t, x);
    case OfWorker(x) => WorkLoses(s, x, b);
    case OfFile(x) =>
  }

  lemma JobLoses(s: State, t: nat, a: JobAct, b: nat)
    requires CanJob(s, t, a) && b in s.owner && s.owner[b] != Leaked
    requires b in DoJobStep(s, t, a).owner && DoJobStep(s, t, a).owner[b] == Leaked
    ensures (a.NoJob? || a.SendFails?) && ClosesNow(Pc0(s, t), b)
  {}

  lemma MountLoses(s: State, t: nat, a: MountAct, b: nat)
    requires CanMount(s, t, a) && b in s.owner && s.owner[b] != Leaked && b in DoMountStep(s, t, a).owner
    ensures DoMountStep(s, t, a).owner[b] != Leaked
  {}

  lemma WorkLoses(s: State, a: WorkAct, b: nat)
    requires CanWork(s, a) && b in s.owner && s.owner[b] != Leaked && b in DoWorkStep(s, a).owner
    ensures DoWorkStep(s, a).owner[b] != Leaked
  {}

  // ---- the guard on changes to SD files ----

  /** When a delete, a rename or an open for writing takes effect, no file or folder it
      touches is, or holds, a local image mounted at that moment; and after it every
      mounted local image is still the file it was, byte for byte. */
  lemma ChangesSpareMountedImages(run: seq<State>, i: nat, t: nat, newImg: nat, d: nat)
    requires IsRun(run) && i < |run| && CanGuard(run[i], t, Acts(newImg))
    requires d < MAX_DRIVE && Installed(run[i].tab, d) && !run[i].tab.drv[d].remote
    ensures var (s, s') := (run[i], DoGuardStep(run[i], t, Acts(newImg)));
            var (canon, img) := (s.tab.drv[d].canon, ImageOf(s.tab, d));
            && !(s.ts.callers[t].pc.op.path <= canon)
            && canon in s.fs && s.fs[canon] == img
            && canon in s'.fs && s'.fs[canon] == img
            && img in s.tab.images && img in s'.tab.images && s'.tab.images[img] == s.tab.images[img]
  {
    RunsKeepInv(run, i);
    var s := run[i];
    assert SlotOk(s.tab, s.tab.drv[d]) && LocalOk(s.tab, s.fs, d);
    assert CallerData(s.tab, s.fs, s.ts.callers[t].pc);
    EffectSparesMounted(s.tab, s.fs, s.ts.worker.pc, s.ts.callers[t].pc.op, newImg);
  }

  /** A refused check leaves with a mounted local image that the change would have
      touched; an allowed one leaves with none: the guard refuses exactly those changes. */
  lemma GuardIsExact(run: seq<State>, i: nat, t: nat, known: bool)
    requires IsRun(run) && i < |run| && CanGuard(run[i], t, DoCheck(known))
    ensures var (s, op) := (run[i], run[i].ts.callers[t].pc.op);
            DoGuardStep(s, t, DoCheck(known)).ts.callers[t].pc == ActRel(BUSY) <==>
            exists d :: 0 <= d < MAX_DRIVE && Installed(s.tab, d) && !s.tab.drv[d].remote && op.path <= s.tab.drv[d].canon
  {
    RunsKeepInv(run, i);
    var s := run[i];
    var op := s.ts.callers[t].pc.op;
    forall d | 0 <= d < MAX_DRIVE
      ensures Touches(s.tab.drv[d], op.path) <==> Installed(s.tab, d) && !s.tab.drv[d].remote && op.path <= s.tab.drv[d].canon {
      assert SlotOk(s.tab, s.tab.drv[d]) && LocalOk(s.tab, s.fs, d);
    }
    if !known {
      forall d | 0 <= d < MAX_DRIVE ensures !Touches(s.tab.drv[d], op.path) {
        assert SlotOk(s.tab, s.tab.drv[d]) && LocalOk(s.tab, s.fs, d);
      }
    }
  }

  predicate Guarding(pc: Pc) { pc.CheckIn? || pc.ActIn? || pc.ActRel? }

  /** How a guarded change goes on: the check allows or refuses it, the change is made or
      fails, the lock is given back. */
  predicate GuardMoves(pc: Pc, pc': Pc) {
    || pc' == pc
    || (pc.CheckIn? && (pc' == ActIn(pc.op) || pc' == ActRel(BUSY)))
    || (pc.ActIn? && pc'.ActRel?)
    || (pc.ActRel? && pc'.Done?)
  }

  /** From the check on, whatever any task does, the mount lock stays with the guarding
      task, taken once, until the one step that ends the guard, and that step frees it. */
  lemma GuardIsHeldToItsRelease(s: State, a: Action, t: nat)
    requires LockInv(s.ts) && Enabled(s, a) && t < |s.ts.callers| && Guarding(s.ts.callers[t].pc)
    ensures var (pc, ts') := (s.ts.callers[t].pc, Apply(s, a).ts);
            && |ts'.callers| == |s.ts.callers| && GuardMoves(pc, ts'.callers[t].pc)
            && (Guarding(ts'.callers[t].pc) ==> ts'.mount == Some(t) && ts'.depth == 1)
            && (!Guarding(ts'.callers[t].pc) ==> a == OfGuard(t, LeaveAct) && ts'.mount == None)
  {
    KeepsLocks(s, a);
    LocksAtPc(s.ts, t);
    GuardStepPc(s, a, t);
    LocksAtPc(Apply(s, a).ts, t);
  }

  lemma GuardStepPc(s: State, a: Action, t: nat)
    requires Enabled(s, a) && t < |s.ts.callers| && Guarding(s.ts.callers[t].pc) && s.ts.depth == 1
    ensures var (pc, ts') := (s.ts.callers[t].pc, Apply(s, a).ts);
            && |ts'.callers| == |s.ts.callers| && GuardMoves(pc, ts'.callers[t].pc)
            && (!Guarding(ts'.callers[t].pc) ==> a == OfGuard(t, LeaveAct) && ts'.mount == None)
  {
    match a
    case OfIo(u, x) => IoSparesGuard(s, u, x, t);
    case OfJob(u, x) => JobSparesGuard(s, u, x, t);
    case OfMount(u, x) => MountSparesGuard(s, u, x, t);
    case OfGuard(u, x) => GuardMovesOn(s, u, x, t);
    case OfWorker(x) => WorkLeavesTasks(s, x);
    case OfFile(x) => FileSparesGuard(s, x);
  }

  lemma GuardMovesOn(s: State, u: nat, a: GuardAct, t: nat)
    requires CanGuard(s, u, a) && t < |s.ts.callers| && Guarding(s.ts.callers[t].pc) && s.ts.depth == 1
    ensures var (pc, ts') := (s.ts.callers[t].pc, DoGuardStep(s, u, a).ts);
            && |ts'.callers| == |s.ts.callers| && GuardMoves(pc, ts'.callers[t].pc)
            && (!Guarding(ts'.callers[t].pc) ==> u == t && a.LeaveAct? && ts'.mount == None)
  {}

  lemma FileSparesGuard(s: State, a: FileAct)
    requires CanFile(s, a)
    ensures DoFileStep(s, a).ts == s.ts
  {}

  lemma IoSparesGuard(s: State, u: nat, a: IoAct, t: nat)
    requires CanIo(s, u, a) && t < |s.ts.callers| && Guarding(s.ts.callers[t].pc)
    ensures |DoIoStep(s, u, a).ts.callers| == |s.ts.callers| && DoIoStep(s, u, a).ts.callers[t] == s.ts.callers[t]
  {}

  lemma JobSparesGuard(s: State, u: nat, a: JobAct, t: nat)
    requires CanJob(s, u, a) && t < |s.ts.callers| && Guarding(s.ts.callers[t].pc)
    ensures |DoJobStep(s, u, a).ts.callers| == |s.ts.callers| && DoJobStep(s, u, a).ts.callers[t] == s.ts.callers[t]
  {}

  lemma MountSparesGuard(s: State, u: nat, a: MountAct, t: nat)
    requires CanMount(s, u, a) && t < |s.ts.callers| && Guarding(s.ts.callers[t].pc)
    ensures |DoMountStep(s, u, a).ts.callers| == |s.ts.callers| && DoMountStep(s, u, a).ts.callers[t] == s.ts.callers[t]
  {}

  /** A task holds the mount lock once from its check to the release, and a task between
      calls holds no lock at all. */
  lemma CheckIsReleasedOnce(run: seq<State>, i: nat, t: nat)
    requires IsRun(run) && i < |run| && t < |run[i].ts.callers|
    ensures var (ts, pc) := (run[i].ts, run[i].ts.callers[t].pc);
            && (Guarding(pc) ==> ts.mount == Some(t) && ts.depth == 1)
            && (pc.Idle? || pc.Done? ==> ts.mount != Some(t) && ts.track != Some(Task(t)) && ts.mtx != Some(Task(t)))
  {
    RunsKeepInv(run, i);
    LocksAtPc(run[i].ts, t);
  }

  lemma LocksAtPc(ts: Tasks, t: nat)
    requires LockInv(ts) && t < |ts.callers|
    ensures var pc := ts.callers[t].pc;
            && (Guarding(pc) ==> ts.mount == Some(t) && ts.depth == 1)
            && (pc.Idle? || pc.Done? ==> ts.mount != Some(t) && ts.track != Some(Task(t)) && ts.mtx != Some(Task(t)))
  {}

  // ---- progress ----

  /** A step of a task, other than starting a new call or giving up on a wait. */
  predicate Progress(a: Action) {
    !a.OfFile? && !(a.OfJob? && (a.job.Start? || a.job.TimesOut? || a.job.SendFails?))
  }

  ghost predicate CanMove(s: State) {
    exists a :: Enabled(s, a) && Progress(a)
  }

  predicate Busy(s: State) {
    || s.queue != [] || !s.ts.worker.pc.WIdle?
    || exists t :: 0 <= t < |s.ts.callers| && !s.ts.callers[t].pc.Idle?
  }

  /** The step a caller takes at `pc` once it is not kept waiting. */
  function Body(t: nat, pc: Pc): Action {
    match pc
    case ReadIn(_) => OfIo(t, DoRead(None))
    case WriteIn(_, _) => OfIo(t, DoWrite(None))
    case CopyIn(_) => OfIo(t, DoCopy)
    case MakeJob(_) => OfJob(t, NoJob)
    case Post(_, _) => OfJob(t, Send)
    case Wait(_, _) => OfJob(t, Woken)
    case GiveUp(_, _) => OfJob(t, DoGiveUp)
    case Reap(_, _) => OfJob(t, DoReap)
    case MountWant(_, _, _) => OfMount(t, TakeMount)
    case MountIn(_, _, _) => OfMount(t, OpenFails(FAIL))
    case SwapWant(_, _, _) => OfMount(t, TakeMount)
    case SwapIn(_, _, _) => OfMount(t, DoSwap)
    case SwapRel(_, _) => OfMount(t, LeaveSwap)
    case Dispose(_, _) => OfMount(t, DoDispose)
    case OuterRel(_) => OfMount(t, LeaveOuter)
    case CheckWant(_) => OfMount(t, TakeMount)
    case CheckIn(_) => OfGuard(t, DoCheck(true))
    case ActIn(_) => OfGuard(t, ActFails)
    case ActRel(_) => OfGuard(t, LeaveAct)
    case SweepIn => OfMount(t, DoSweep)
    case RemountIn(_) => OfMount(t, DoRemount)
    case _ => OfJob(t, Return)
  }

  /** What a caller at `c.pc` still waits for once it holds the locks it needs. */
  predicate Ready(s: State, t: nat)
    requires t < |s.ts.callers|
  {
    var c := s.ts.callers[t];
    && !c.blocked && !c.pc.Idle?
    && (c.pc.Post? ==> |s.queue| < QUEUE_LEN)
    && (c.pc.Wait? ==> c.pc.j in s.jobs && s.jobs[c.pc.j].completed)
    && (WantsMount(c.pc) ==> s.ts.mount.None? || s.ts.mount == Some(t))
  }

  lemma JobCallerCanMove(s: State, t: nat)
    requires JobInv(s.jobs, s.queue, s.ts) && t < |s.ts.callers| && Ready(s, t)
    requires Body(t, s.ts.callers[t].pc).OfJob?
    ensures Enabled(s, Body(t, s.ts.callers[t].pc))
  {
    assert CallerJob(s.jobs, s.queue, WRef(s.ts.worker.pc), t, s.ts.callers[t].pc);
    if s.ts.callers[t].pc.Wait? {
      assert JobOk(s.jobs, s.queue, WRef(s.ts.worker.pc), s.ts.callers, s.ts.callers[t].pc.j);
    }
  }

  lemma OtherCallerCanMove(s: State, t: nat)
    requires TableOk(s.tab) && t < |s.ts.callers| && PcShape(s.ts.callers[t].pc) && Ready(s, t)
    requires !Body(t, s.ts.callers[t].pc).OfJob?
    ensures Enabled(s, Body(t, s.ts.callers[t].pc))
  {}

  lemma ShapeIsOk(s: State, t: nat)
    requires JobInv(s.jobs, s.queue, s.ts) && t < |s.ts.callers|
    ensures PcShape(s.ts.callers[t].pc)
  {
    assert CallerJob(s.jobs, s.queue, WRef(s.ts.worker.pc), t, s.ts.callers[t].pc);
  }

  /** A caller that holds the locks it needs is held up only by a full queue, an
      unfinished job, or another task's mount lock. */
  lemma CallerCanMove(s: State, t: nat)
    requires JobInv(s.jobs, s.queue, s.ts) && TableOk(s.tab) && t < |s.ts.callers| && Ready(s, t)
    ensures Enabled(s, Body(t, s.ts.callers[t].pc)) && Progress(Body(t, s.ts.callers[t].pc))
  {
    if Body(t, s.ts.callers[t].pc).OfJob? {
      JobCallerCanMove(s, t);
    } else {
      ShapeIsOk(s, t);
      OtherCallerCanMove(s, t);
    }
  }

  /** The step the worker takes at its pc once it is not kept waiting. */
  function WorkerBody(s: State): WorkAct {
    match s.ts.worker.pc
    case WIdle => WTake
    case Look(_) => WLook(false)
    case Xfer(j, b) =>
      if j in s.jobs && s.jobs[j].kind == READ then WReads(false)
      else WWrites(false, if b in s.tab.backings && s.tab.backings[b].image in s.tab.images
                          then s.tab.images[s.tab.backings[b].image] else [])
    case FillRead(_, _, _) => WFillRead
    case FillWrite(_, _, _, _) => WFillWrite
    case Opening(_, _) => WOpenFails(FAIL)
    case InstallIn(_, _, _, _) => WInstalls
    case Discard(_, _) => WDiscards
    case Closing(_) => WCloses
    case Complete(_, _) => WCompletes
    case Unlock => WUnlocks
    case FreeJob(_) => WFrees
  }

  /** The worker is held up only by a lock or by an empty queue. */
  lemma WorkerCanMove(s: State)
    requires Inv(s) && !s.ts.worker.blocked
    requires s.ts.worker.pc.WIdle? ==> s.queue != []
    ensures CanWork(s, WorkerBody(s))
  {}

  /** Whoever holds the track lock or the job mutex can take its next step: neither is
      ever held across a wait for the queue, a job, the network or another lock. */
  lemma LockHolderCanMove(s: State, w: Who)
    requires Inv(s) && (s.ts.track == Some(w) || s.ts.mtx == Some(w))
    ensures match w
            case TheWorker => CanWork(s, WorkerBody(s)) && !s.ts.worker.pc.WIdle?
            case Task(t) => t < |s.ts.callers| && Enabled(s, Body(t, s.ts.callers[t].pc)) && Progress(Body(t, s.ts.callers[t].pc))
  {
    match w
    case TheWorker => WorkerCanMove(s);
    case Task(t) =>
      assert CallerLocks(s.ts, t, s.ts.callers[t]);
      CallerCanMove(s, t);
  }

  /** With both short locks free and the worker out of work, the holder of the mount lock
      can move, and any busy caller can when nobody holds it. */
  lemma QuietCallerCanMove(s: State, t: nat)
    requires Inv(s) && s.ts.track.None? && s.ts.mtx.None? && s.queue == [] && s.ts.worker.pc.WIdle?
    requires t < |s.ts.callers| && !s.ts.callers[t].pc.Idle? && (s.ts.mount.None? || s.ts.mount == Some(t))
    ensures CanMove(s)
  {
    var c := s.ts.callers[t];
    if c.blocked {
      assert CallerLocks(s.ts, t, c);
      var a := OfJob(t, if InTrack(c.pc) then TakeTrack else TakeMtx);
      assert Enabled(s, a) && Progress(a);
    } else {
      assert CallerJob(s.jobs, s.queue, WRef(s.ts.worker.pc), t, c.pc);
      CallerCanMove(s, t);
    }
  }

  /** No deadlock: in every reachable state with anything left to do, some task can take a
      step that is neither a new call, nor a wait given up. */
  lemma NoDeadlock(run: seq<State>, i: nat)
    requires IsRun(run) && i < |run| && Busy(run[i])
    ensures CanMove(run[i])
  {
    RunsKeepInv(run, i);
    var s := run[i];
    if s.ts.track.Some? {
      HeldCanMove(s, s.ts.track.value);
    } else if s.ts.mtx.Some? {
      HeldCanMove(s, s.ts.mtx.value);
    } else if s.ts.worker.blocked {
      var a := OfWorker(if WInTrack(s.ts.worker.pc) then WTakeTrack else WTakeMtx);
      assert Enabled(s, a) && Progress(a);
    } else if !s.ts.worker.pc.WIdle? || s.queue != [] {
      WorkerCanMove(s);
      assert Progress(OfWorker(WorkerBody(s))) && Enabled(s, OfWorker(WorkerBody(s)));
    } else {
      var t := if s.ts.mount.Some? then s.ts.mount.value
               else var u :| 0 <= u < |s.ts.callers| && !s.ts.callers[u].pc.Idle?; u;
      assert CallerLocks(s.ts, t, s.ts.callers[t]);
      QuietCallerCanMove(s, t);
    }
  }

  lemma HeldCanMove(s: State, w: Who)
    requires Inv(s) && (s.ts.track == Some(w) || s.ts.mtx == Some(w))
    ensures CanMove(s)
  {
    LockHolderCanMove(s, w);
    if w.TheWorker? {
      assert Progress(OfWorker(WorkerBody(s))) && Enabled(s, OfWorker(WorkerBody(s)));
    }
  }
}
