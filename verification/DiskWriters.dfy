/** Every step of every task keeps the whole invariant of the disk machine, and what handles
    that are open for writing on the card can do to a mounted image: nothing, if none was
    open on it when it was opened for mounting. */
module DiskWriters {
  import opened Bytes
  import opened DiskCore
  import opened DiskMachine
  import opened DiskLocks
  import opened DiskJobs
  import opened DiskBackings
  import opened DiskData

  // ---- what each kind of step does to tables and handles ----

  lemma IoShape(s: State, t: nat, a: IoAct)
    requires CanIo(s, t, a)
    ensures var s' := DoIoStep(s, t, a);
            && s'.writers == s.writers && s'.tab.drv == s.tab.drv && s'.tab.backings == s.tab.backings
            && s.tab.images.Keys <= s'.tab.images.Keys && |s'.ts.callers| == |s.ts.callers|
            && s'.ts.callers == s.ts.callers[t := s'.ts.callers[t]] && !s'.ts.callers[t].pc.SwapIn?
  {}

  lemma MountShape(s: State, t: nat, a: MountAct)
    requires CanMount(s, t, a) && !a.Opens? && !a.DoSwap? && PcShape(s.ts.callers[t].pc)
    ensures var s' := DoMountStep(s, t, a);
            && s'.writers == s.writers && s'.tab.images == s.tab.images
            && (forall b :: b in s'.tab.backings ==> b in s.tab.backings && s'.tab.backings[b] == s.tab.backings[b])
            && |s'.tab.drv| == |s.tab.drv|
            && (forall d :: 0 <= d < |s.tab.drv| && s'.tab.drv[d].backing.Some? ==> s.tab.drv[d].backing == s'.tab.drv[d].backing)
            && |s'.ts.callers| == |s.ts.callers| && s'.ts.callers == s.ts.callers[t := s'.ts.callers[t]]
            && !(s'.ts.callers[t].pc.SwapIn? && s'.ts.callers[t].pc.how.Install?)
  {
    if a.DoDispose? || a.DoSweep? {
      DisposeShapes(s, t, a);
    } else {
      LaterMountShape(s, t, a);
    }
  }

  lemma DisposeShapes(s: State, t: nat, a: MountAct)
    requires CanMount(s, t, a) && (a.DoDispose? || a.DoSweep?) && PcShape(s.ts.callers[t].pc)
    ensures var s' := DoMountStep(s, t, a);
            && s'.writers == s.writers && s'.tab.images == s.tab.images
            && (forall b :: b in s'.tab.backings ==> b in s.tab.backings && s'.tab.backings[b] == s.tab.backings[b])
            && |s'.tab.drv| == |s.tab.drv|
            && (forall d :: 0 <= d < |s.tab.drv| && s'.tab.drv[d].backing.Some? ==> s.tab.drv[d].backing == s'.tab.drv[d].backing)
            && |s'.ts.callers| == |s.ts.callers| && s'.ts.callers == s.ts.callers[t := s'.ts.callers[t]]
            && !(s'.ts.callers[t].pc.SwapIn? && s'.ts.callers[t].pc.how.Install?)
  {
    if a.DoDispose? {
      DisposeShape(s, t);
    } else {
      SweepLeaves(s, t);
    }
  }

  lemma DisposeShape(s: State, t: nat)
    requires CanMount(s, t, DoDispose) && PcShape(s.ts.callers[t].pc)
    ensures var s' := DoMountStep(s, t, DoDispose);
            && s'.writers == s.writers && s'.tab.images == s.tab.images
            && (forall b :: b in s'.tab.backings ==> b in s.tab.backings && s'.tab.backings[b] == s.tab.backings[b])
            && |s'.tab.drv| == |s.tab.drv|
            && (forall d :: 0 <= d < |s.tab.drv| && s'.tab.drv[d].backing.Some? ==> s.tab.drv[d].backing == s'.tab.drv[d].backing)
            && |s'.ts.callers| == |s.ts.callers| && s'.ts.callers == s.ts.callers[t := s'.ts.callers[t]]
            && !(s'.ts.callers[t].pc.SwapIn? && s'.ts.callers[t].pc.how.Install?)
  {}

  lemma SweepLeaves(s: State, t: nat)
    requires CanMount(s, t, DoSweep) && PcShape(s.ts.callers[t].pc)
    ensures var s' := DoMountStep(s, t, DoSweep);
            && s'.writers == s.writers && s'.tab.images == s.tab.images
            && (forall b :: b in s'.tab.backings ==> b in s.tab.backings && s'.tab.backings[b] == s.tab.backings[b])
            && |s'.tab.drv| == |s.tab.drv|
            && (forall d :: 0 <= d < |s.tab.drv| && s'.tab.drv[d].backing.Some? ==> s.tab.drv[d].backing == s'.tab.drv[d].backing)
            && |s'.ts.callers| == |s.ts.callers| && s'.ts.callers == s.ts.callers[t := s'.ts.callers[t]]
            && !(s'.ts.callers[t].pc.SwapIn? && s'.ts.callers[t].pc.how.Install?)
  {}

  lemma LaterMountShape(s: State, t: nat, a: MountAct)
    requires CanMount(s, t, a) && !a.Opens? && !a.DoSwap? && !a.DoDispose? && !a.DoSweep? && PcShape(s.ts.callers[t].pc)
    ensures var s' := DoMountStep(s, t, a);
            && s'.writers == s.writers && s'.tab.images == s.tab.images
            && (forall b :: b in s'.tab.backings ==> b in s.tab.backings && s'.tab.backings[b] == s.tab.backings[b])
            && |s'.tab.drv| == |s.tab.drv|
            && (forall d :: 0 <= d < |s.tab.drv| && s'.tab.drv[d].backing.Some? ==> s.tab.drv[d].backing == s'.tab.drv[d].backing)
            && |s'.ts.callers| == |s.ts.callers| && s'.ts.callers == s.ts.callers[t := s'.ts.callers[t]]
            && !(s'.ts.callers[t].pc.SwapIn? && s'.ts.callers[t].pc.how.Install?)
  {}

  lemma SwapImages(s: State, t: nat)
    requires CanMount(s, t, DoSwap)
    ensures var s' := DoMountStep(s, t, DoSwap);
            s'.tab.images == s.tab.images && s'.writers == s.writers && !s'.ts.callers[t].pc.SwapIn?
  {}

  lemma ActsShape(s: State, t: nat, newImg: nat)
    requires CanGuard(s, t, Acts(newImg))
    ensures var s' := DoGuardStep(s, t, Acts(newImg));
            && s'.tab.drv == s.tab.drv && s'.tab.backings == s.tab.backings && s.tab.images.Keys <= s'.tab.images.Keys
            && t < |s.ts.callers| == |s'.ts.callers|
            && s'.ts.callers == s.ts.callers[t := s'.ts.callers[t]] && s'.ts.callers[t].pc.ActRel?
  {}

  lemma WorkShape(s: State, a: WorkAct)
    requires CanWork(s, a) && !a.WOpens? && !a.WInstalls? && !a.WWrites?
    ensures var s' := DoWorkStep(s, a);
            && s'.writers == s.writers && s'.tab.images == s.tab.images && s'.tab.drv == s.tab.drv
            && (forall b :: b in s'.tab.backings ==> b in s.tab.backings && s'.tab.backings[b] == s.tab.backings[b])
            && s'.ts.callers == s.ts.callers
  {
    WorkBackings(s, a);
    WorkTasks(s, a);
  }

  lemma WorkBackings(s: State, a: WorkAct)
    requires CanWork(s, a) && !a.WOpens? && !a.WInstalls? && !a.WWrites?
    ensures var s' := DoWorkStep(s, a);
            forall b :: b in s'.tab.backings ==> b in s.tab.backings && s'.tab.backings[b] == s.tab.backings[b]
  {}

  lemma WorkTasks(s: State, a: WorkAct)
    requires CanWork(s, a) && !a.WOpens? && !a.WInstalls? && !a.WWrites?
    ensures var s' := DoWorkStep(s, a);
            && s'.writers == s.writers && s'.tab.images == s.tab.images && s'.tab.drv == s.tab.drv
            && s'.ts.callers == s.ts.callers
  {
    if OnTrack(a) {
      TrackWorkTasks(s, a);
    } else {
      OtherWorkTasks(s, a);
    }
  }

  lemma TrackWorkTasks(s: State, a: WorkAct)
    requires CanWork(s, a) && OnTrack(a) && !a.WWrites?
    ensures var s' := DoWorkStep(s, a);
            && s'.writers == s.writers && s'.tab.images == s.tab.images && s'.tab.drv == s.tab.drv
            && s'.ts.callers == s.ts.callers
  {}

  lemma OtherWorkTasks(s: State, a: WorkAct)
    requires CanWork(s, a) && !a.WOpens? && !a.WInstalls? && !OnTrack(a)
    ensures var s' := DoWorkStep(s, a);
            && s'.writers == s.writers && s'.tab.images == s.tab.images && s'.tab.drv == s.tab.drv
            && s'.ts.callers == s.ts.callers
  {}

  lemma JobWriters(s: State, t: nat, a: JobAct)
    requires CanJob(s, t, a)
    ensures DoJobStep(s, t, a).writers == s.writers
  {}

  // ---- handles and sessions ----

  /** No more handles, and no session on the image of one. */
  lemma StillHandled(s: State, s': State)
    requires HandlesOk(s) && s'.writers <= s.writers && s.tab.images.Keys <= s'.tab.images.Keys
    requires forall b :: b in s'.tab.backings && s'.tab.backings[b].remote ==>
               (b in s.tab.backings && s.tab.backings[b].remote && s.tab.backings[b].image == s'.tab.backings[b].image)
               || s'.tab.backings[b].image !in s.writers
    ensures HandlesOk(s')
  {
    forall i | i in s'.writers ensures HandleOk(s'.tab, i) {
      assert HandleOk(s.tab, i);
    }
  }

  lemma MountKeepsHandles(s: State, t: nat, a: MountAct)
    requires Inv(s) && CanMount(s, t, a)
    ensures HandlesOk(DoMountStep(s, t, a))
  {
    assert CallerJob(s.jobs, s.queue, WRef(s.ts.worker.pc), t, s.ts.callers[t].pc);
    if a.DoSwap? {
      SwapShape(s, t);
      SwapImages(s, t);
    } else if !a.Opens? {
      MountShape(s, t, a);
    }
    StillHandled(s, DoMountStep(s, t, a));
  }

  /** A change opens a handle on a file of the card, or a new one. */
  lemma GuardKeepsHandles(s: State, t: nat, a: GuardAct)
    requires Inv(s) && CanGuard(s, t, a)
    ensures HandlesOk(DoGuardStep(s, t, a))
  {
    GuardChanges(s, t, a);
    if a.Acts? {
      var s' := DoGuardStep(s, t, a);
      ActsShape(s, t, a.newImg);
      forall i | i in s'.writers ensures HandleOk(s'.tab, i) {
        if i in s.writers {
          assert HandleOk(s.tab, i);
        } else {
          assert CallerData(s.tab, s.fs, s.ts.callers[t].pc);
          OpenedImage(s, t, a.newImg, i);
          PassedIsUnwatched(s.tab, s.fs, s.ts.worker.pc, s.ts.callers[t].pc.op.path, i);
        }
      }
    } else {
      StillHandled(s, DoGuardStep(s, t, a));
    }
  }

  lemma OpenedImage(s: State, t: nat, newImg: nat, i: nat)
    requires CanGuard(s, t, Acts(newImg)) && i in DoGuardStep(s, t, Acts(newImg)).writers && i !in s.writers
    ensures var (s', op) := (DoGuardStep(s, t, Acts(newImg)), s.ts.callers[t].pc.op);
            && op.OpenWrite? && (if op.path in s.fs then i == s.fs[op.path] else i !in s.tab.images)
            && i in s'.tab.images && s'.tab.drv == s.tab.drv && s'.tab.backings == s.tab.backings
            && |s'.ts.callers| == |s.ts.callers| && s'.ts.callers == s.ts.callers[t := s'.ts.callers[t]]
            && s'.ts.callers[t].pc.ActRel?
  {}

  /** The image of a file that the guard let pass, or of a new file, is neither mounted nor
      remote. */
  lemma PassedIsUnwatched(tab: Table, fs: map<Path, nat>, wpc: WPc, p: Path, i: nat)
    requires TabInv(tab, fs, wpc) && forall d :: 0 <= d < |tab.drv| ==> !Touches(tab.drv[d], p)
    requires if p in fs then i == fs[p] else i !in tab.images
    ensures forall b :: b in tab.backings && tab.backings[b].remote ==> tab.backings[b].image != i
    ensures forall d :: 0 <= d < |tab.drv| && Installed(tab, d) ==> ImageOf(tab, d) != i
  {
    forall b | b in tab.backings && tab.backings[b].remote ensures tab.backings[b].image != i {
      assert RemoteOk(tab, fs, b);
    }
    forall d | 0 <= d < |tab.drv| && Installed(tab, d) ensures ImageOf(tab, d) != i {
      assert SlotOk(tab, tab.drv[d]) && LocalOk(tab, fs, d) && !Touches(tab.drv[d], p);
    }
  }

  lemma WorkKeepsHandles(s: State, a: WorkAct)
    requires Inv(s) && CanWork(s, a)
    ensures HandlesOk(DoWorkStep(s, a))
  {
    if !a.WOpens? && !a.WInstalls? && !a.WWrites? {
      WorkShape(s, a);
    }
    StillHandled(s, DoWorkStep(s, a));
  }

  lemma FileKeepsHandles(s: State, a: FileAct)
    requires HandlesOk(s) && CanFile(s, a)
    ensures HandlesOk(DoFileStep(s, a))
  {
    StillHandled(s, DoFileStep(s, a));
  }

  lemma KeepsHandles(s: State, a: Action)
    requires Inv(s) && Enabled(s, a)
    ensures HandlesOk(Apply(s, a))
  {
    match a
    case OfIo(t, x) => IoShape(s, t, x); StillHandled(s, DoIoStep(s, t, x));
    case OfJob(t, x) => JobStepShape(s, t, x); JobWriters(s, t, x); StillHandled(s, DoJobStep(s, t, x));
    case OfMount(t, x) => MountKeepsHandles(s, t, x);
    case OfGuard(t, x) => GuardKeepsHandles(s, t, x);
    case OfWorker(x) => WorkKeepsHandles(s, x);
    case OfFile(x) => FileKeepsHandles(s, x);
  }

  // ---- the whole invariant ----

  lemma KeepsData(s: State, a: Action)
    requires Inv(s) && Enabled(s, a)
    ensures DataInv(Apply(s, a))
  {
    match a
    case OfIo(t, x) => IoKeepsData(s, t, x);
    case OfJob(t, x) => JobKeepsData(s, t, x);
    case OfMount(t, x) => MountKeepsData(s, t, x);
    case OfGuard(t, x) => GuardKeepsData(s, t, x);
    case OfWorker(x) => WorkKeepsData(s, x);
    case OfFile(x) => FileKeepsData(s, x);
  }

  /** Every step of every task, and of every handle on the card, keeps the whole invariant. */
  lemma KeepsInv(s: State, a: Action)
    requires Inv(s) && Enabled(s, a)
    ensures Inv(Apply(s, a))
  {
    KeepsLocks(s, a);
    KeepsJobs(s, a);
    assert forall d :: 0 <= d < |s.tab.drv| ==> SlotOk(s.tab, s.tab.drv[d]);
    KeepsBackings(s, a);
    KeepsData(s, a);
    KeepsHandles(s, a);
  }

  lemma StepsKeepInv(s: State, s': State)
    requires Inv(s) && StepsTo(s, s')
    ensures Inv(s')
  {
    var a :| Enabled(s, a) && s' == Apply(s, a);
    KeepsInv(s, a);
  }

  lemma InitInv(s: State)
    requires Init(s)
    ensures Inv(s)
  {}

  /** The step that a run takes at i. */
  lemma StepOf(run: seq<State>, i: nat) returns (a: Action)
    requires IsRun(run) && i + 1 < |run|
    ensures Enabled(run[i], a) && run[i + 1] == Apply(run[i], a)
  {
    assert StepAt(run, i);
    a :| Enabled(run[i], a) && run[i + 1] == Apply(run[i], a);
  }

  lemma StepKeepsInv(run: seq<State>, i: nat)
    requires IsRun(run) && 0 < i < |run| && Inv(run[i - 1])
    ensures Inv(run[i])
  {
    StepIsOne(run, i);
    StepsKeepInv(run[i - 1], run[i]);
  }

  lemma StepIsOne(run: seq<State>, i: nat)
    requires IsRun(run) && 0 < i < |run|
    ensures StepsTo(run[i - 1], run[i])
  {
    assert StepAt(run, i - 1);
  }

  /** The invariant holds in every state of every run. */
  lemma {:induction false} RunsKeepInv(run: seq<State>, i: nat)
    requires IsRun(run) && i < |run|
    ensures Inv(run[i])
  {
    if i == 0 {
      InitInv(run[0]);
    } else {
      RunsKeepInv(run, i - 1);
      StepKeepsInv(run, i);
    }
  }

  // ---- local backings in the table ----

  /** About to put backing b into the table. */
  predicate InstallsBacking(pc: Pc, b: nat) { pc.SwapIn? && pc.how.Install? && pc.how.b == b }

  /** In no slot, and not on the way into one. */
  predicate Unwatched(s: State, b: nat) {
    && (forall d :: 0 <= d < |s.tab.drv| ==> s.tab.drv[d].backing != Some(b))
    && (forall u :: 0 <= u < |s.ts.callers| ==> !InstallsBacking(s.ts.callers[u].pc, b))
  }

  /** The same slots, and at most task t goes elsewhere than to installing b. */
  lemma SlotsStayUnwatched(s: State, s': State, t: nat, b: nat)
    requires Unwatched(s, b) && s'.tab.drv == s.tab.drv && t < |s.ts.callers| == |s'.ts.callers|
    requires s'.ts.callers == s.ts.callers[t := s'.ts.callers[t]]
    requires InstallsBacking(s'.ts.callers[t].pc, b) ==> InstallsBacking(s.ts.callers[t].pc, b)
    ensures Unwatched(s', b)
  {
    forall u | 0 <= u < |s'.ts.callers| ensures !InstallsBacking(s'.ts.callers[u].pc, b) {
      assert !InstallsBacking(s.ts.callers[u].pc, b);
    }
  }

  /** What is out of the table never comes back into it. */
  lemma StaysUnwatched(s: State, a: Action, b: nat)
    requires Inv(s) && Enabled(s, a) && b in s.tab.backings && !s.tab.backings[b].remote && Unwatched(s, b)
    ensures Unwatched(Apply(s, a), b)
  {
    match a
    case OfIo(t, x) => IoStaysUnwatched(s, t, x, b);
    case OfJob(t, x) => JobStaysUnwatched(s, t, x, b);
    case OfMount(t, x) => MountStaysUnwatched(s, t, x, b);
    case OfGuard(t, x) => GuardStaysUnwatched(s, t, x, b);
    case OfWorker(x) => WorkStaysUnwatched(s, x, b);
    case OfFile(x) =>
  }

  lemma IoStaysUnwatched(s: State, t: nat, a: IoAct, b: nat)
    requires CanIo(s, t, a) && Unwatched(s, b)
    ensures Unwatched(DoIoStep(s, t, a), b)
  {
    IoShape(s, t, a);
    SlotsStayUnwatched(s, DoIoStep(s, t, a), t, b);
  }

  lemma JobStaysUnwatched(s: State, t: nat, a: JobAct, b: nat)
    requires CanJob(s, t, a) && Unwatched(s, b)
    ensures Unwatched(DoJobStep(s, t, a), b)
  {
    JobStepShape(s, t, a);
    SlotsStayUnwatched(s, DoJobStep(s, t, a), t, b);
  }

  lemma GuardStaysUnwatched(s: State, t: nat, a: GuardAct, b: nat)
    requires CanGuard(s, t, a) && Unwatched(s, b)
    ensures Unwatched(DoGuardStep(s, t, a), b)
  {
    GuardChanges(s, t, a);
    SlotsStayUnwatched(s, DoGuardStep(s, t, a), t, b);
  }

  lemma MountStaysUnwatched(s: State, t: nat, a: MountAct, b: nat)
    requires Inv(s) && CanMount(s, t, a) && b in s.tab.backings && Unwatched(s, b)
    ensures Unwatched(DoMountStep(s, t, a), b)
  {
    assert CallerJob(s.jobs, s.queue, WRef(s.ts.worker.pc), t, s.ts.callers[t].pc);
    assert !InstallsBacking(s.ts.callers[t].pc, b);
    if a.Opens? {
      OpensShape(s, t, a.b);
      SlotsStayUnwatched(s, DoMountStep(s, t, a), t, b);
    } else if a.DoSwap? {
      SwapShape(s, t);
      SwapImages(s, t);
      SwapStaysUnwatched(s, DoMountStep(s, t, a), t, b);
    } else {
      MountShape(s, t, a);
      FewerStayUnwatched(s, DoMountStep(s, t, a), t, b);
    }
  }

  lemma OpensShape(s: State, t: nat, b: nat)
    requires CanMount(s, t, Opens(b))
    ensures var (s', pc) := (DoMountStep(s, t, Opens(b)), s.ts.callers[t].pc);
            && s'.tab.drv == s.tab.drv && s'.writers == s.writers && b !in s.tab.backings
            && s'.tab.backings == s.tab.backings[b := s'.tab.backings[b]] && b in s'.tab.backings
            && !s'.tab.backings[b].remote && !s'.tab.backings[b].foreign && s'.tab.backings[b].image == s.fs[pc.path]
            && s'.tab.backings[b].name == pc.name && !s'.tab.backings[b].readonly
            && s'.ts.callers[t].pc == SwapIn(pc.d, Install(b, pc.name, pc.path), Finish(OK))
            && |s'.ts.callers| == |s.ts.callers| && s'.ts.callers == s.ts.callers[t := s'.ts.callers[t]]
            && InstallsBacking(s'.ts.callers[t].pc, b)
  {}

  lemma SwapStaysUnwatched(s: State, s': State, t: nat, b: nat)
    requires Unwatched(s, b) && t < |s.ts.callers| == |s'.ts.callers|
    requires s.ts.callers[t].pc.SwapIn? && s.ts.callers[t].pc.d < |s.tab.drv|
    requires s'.tab.drv == s.tab.drv[s.ts.callers[t].pc.d := NewSlot(s.ts.callers[t].pc.how)]
    requires s'.ts.callers == s.ts.callers[t := s'.ts.callers[t]] && !s'.ts.callers[t].pc.SwapIn?
    ensures Unwatched(s', b)
  {
    assert !InstallsBacking(s.ts.callers[t].pc, b);
    forall u | 0 <= u < |s'.ts.callers| ensures !InstallsBacking(s'.ts.callers[u].pc, b) {
      assert !InstallsBacking(s.ts.callers[u].pc, b);
    }
  }

  lemma FewerStayUnwatched(s: State, s': State, t: nat, b: nat)
    requires Unwatched(s, b) && t < |s.ts.callers| == |s'.ts.callers| && |s'.tab.drv| == |s.tab.drv|
    requires forall d :: 0 <= d < |s.tab.drv| && s'.tab.drv[d].backing.Some? ==> s.tab.drv[d].backing == s'.tab.drv[d].backing
    requires s'.ts.callers == s.ts.callers[t := s'.ts.callers[t]]
    requires !InstallsBacking(s'.ts.callers[t].pc, b)
    ensures Unwatched(s', b)
  {
    forall u | 0 <= u < |s'.ts.callers| ensures !InstallsBacking(s'.ts.callers[u].pc, b) {
      assert !InstallsBacking(s.ts.callers[u].pc, b);
    }
  }

  lemma WorkStaysUnwatched(s: State, a: WorkAct, b: nat)
    requires Inv(s) && CanWork(s, a) && b in s.tab.backings && !s.tab.backings[b].remote && Unwatched(s, b)
    ensures Unwatched(DoWorkStep(s, a), b)
  {
    WorkSlots(s, a);
  }

  /** The worker puts nothing into the table but the session it has opened. */
  lemma WorkSlots(s: State, a: WorkAct)
    requires CanWork(s, a)
    ensures var s' := DoWorkStep(s, a);
            && s'.ts.callers == s.ts.callers && |s'.tab.drv| == |s.tab.drv|
            && forall d :: 0 <= d < |s.tab.drv| ==>
                 s'.tab.drv[d] == s.tab.drv[d] || (s.ts.worker.pc.InstallIn? && s'.tab.drv[d].backing == Some(s.ts.worker.pc.b))
  {
    if OnTrack(a) {
      TrackWorkSlots(s, a);
    } else {
      OtherWorkSlots(s, a);
    }
  }

  lemma TrackWorkSlots(s: State, a: WorkAct)
    requires CanWork(s, a) && OnTrack(a)
    ensures var s' := DoWorkStep(s, a);
            && s'.ts.callers == s.ts.callers && |s'.tab.drv| == |s.tab.drv|
            && forall d :: 0 <= d < |s.tab.drv| ==>
                 s'.tab.drv[d] == s.tab.drv[d] || (s.ts.worker.pc.InstallIn? && s'.tab.drv[d].backing == Some(s.ts.worker.pc.b))
  {}

  lemma OtherWorkSlots(s: State, a: WorkAct)
    requires CanWork(s, a) && !OnTrack(a)
    ensures var s' := DoWorkStep(s, a);
            && s'.ts.callers == s.ts.callers && |s'.tab.drv| == |s.tab.drv|
            && forall d :: 0 <= d < |s.tab.drv| ==>
                 s'.tab.drv[d] == s.tab.drv[d] || (s.ts.worker.pc.InstallIn? && s'.tab.drv[d].backing == Some(s.ts.worker.pc.b))
  {}

  // ---- clean backings ----

  /** A local backing that, as long as it is in the table, nothing else has written to or
      can write to. */
  predicate Clean(s: State, b: nat) {
    && b in s.tab.backings && !s.tab.backings[b].remote
    && (Unwatched(s, b) || (!s.tab.backings[b].foreign && s.tab.backings[b].image !in s.writers))
  }

  /** An open backing stays what it is, but for the mark that a write through a handle leaves. */
  lemma BackingStays(s: State, a: Action, b: nat)
    requires Enabled(s, a) && b in s.tab.backings && b in Apply(s, a).tab.backings
    ensures var (x, x') := (s.tab.backings[b], Apply(s, a).tab.backings[b]);
            && x' == x.(foreign := x'.foreign)
            && (x'.foreign != x.foreign ==> a.OfFile? && a.file.HandleWrite? && a.file.image == x.image)
  {
    match a
    case OfIo(u, x) => IoChanges(s, u, x);
    case OfJob(u, x) => JobStepShape(s, u, x);
    case OfMount(u, x) => MountLeavesBacking(s, u, x, b);
    case OfGuard(u, x) => GuardChanges(s, u, x);
    case OfWorker(x) => WorkLeavesBacking(s, x, b);
    case OfFile(x) =>
  }

  lemma MountLeavesBacking(s: State, u: nat, a: MountAct, b: nat)
    requires CanMount(s, u, a) && b in s.tab.backings && b in DoMountStep(s, u, a).tab.backings
    ensures DoMountStep(s, u, a).tab.backings[b] == s.tab.backings[b]
  {}

  lemma WorkLeavesBacking(s: State, a: WorkAct, b: nat)
    requires CanWork(s, a) && b in s.tab.backings && b in DoWorkStep(s, a).tab.backings
    ensures DoWorkStep(s, a).tab.backings[b] == s.tab.backings[b]
  {}

  /** Handles are opened only under the guard. */
  lemma HandlesComeGuarded(s: State, a: Action)
    requires Enabled(s, a) && !(a.OfGuard? && a.grd.Acts?)
    ensures Apply(s, a).writers <= s.writers
  {
    match a
    case OfIo(t, x) => IoShape(s, t, x);
    case OfJob(t, x) => JobWriters(s, t, x);
    case OfMount(t, x) => MountWriters(s, t, x);
    case OfGuard(t, x) =>
    case OfWorker(x) => WorkWriters(s, x);
    case OfFile(x) =>
  }

  lemma MountWriters(s: State, t: nat, a: MountAct)
    requires CanMount(s, t, a)
    ensures DoMountStep(s, t, a).writers == s.writers
  {}

  lemma WorkWriters(s: State, a: WorkAct)
    requires CanWork(s, a)
    ensures DoWorkStep(s, a).writers == s.writers
  {}

  /** Whatever happens, a clean backing stays clean as long as it is open. */
  lemma KeepsClean(s: State, a: Action, b: nat)
    requires Inv(s) && Enabled(s, a) && Clean(s, b) && b in Apply(s, a).tab.backings
    ensures Clean(Apply(s, a), b)
  {
    BackingStays(s, a, b);
    if Unwatched(s, b) {
      StaysUnwatched(s, a, b);
    } else if a.OfGuard? && a.grd.Acts? {
      if s.tab.backings[b].image in Apply(s, a).writers {
        HandleIsElsewhere(s, a.t, a.grd.newImg, b);
      }
    } else {
      HandlesComeGuarded(s, a);
    }
  }

  /** The guard lets no handle be opened on an image that is in the table or on its way. */
  lemma HandleIsElsewhere(s: State, t: nat, newImg: nat, b: nat)
    requires Inv(s) && CanGuard(s, t, Acts(newImg)) && b in s.tab.backings
    requires s.tab.backings[b].image in DoGuardStep(s, t, Acts(newImg)).writers && s.tab.backings[b].image !in s.writers
    ensures Unwatched(s, b)
  {
    var i := s.tab.backings[b].image;
    assert CallerData(s.tab, s.fs, s.ts.callers[t].pc);
    OpenedImage(s, t, newImg, i);
    PassedIsUnwatched(s.tab, s.fs, s.ts.worker.pc, s.ts.callers[t].pc.op.path, i);
    OthersInstallNothing(s, t);
    forall d | 0 <= d < |s.tab.drv| ensures s.tab.drv[d].backing != Some(b) {
      assert s.tab.drv[d].backing == Some(b) ==> Installed(s.tab, d) && ImageOf(s.tab, d) == i;
    }
  }

  /** While one task guards a change no other is about to install an image. */
  lemma OthersInstallNothing(s: State, t: nat)
    requires LockInv(s.ts) && t < |s.ts.callers| && s.ts.callers[t].pc.ActIn?
    ensures forall u :: 0 <= u < |s.ts.callers| ==> !s.ts.callers[u].pc.SwapIn?
  {
    forall u | 0 <= u < |s.ts.callers| ensures !s.ts.callers[u].pc.SwapIn? {
      assert CallerLocks(s.ts, t, s.ts.callers[t]) && CallerLocks(s.ts, u, s.ts.callers[u]);
    }
  }

  ghost predicate OpenFrom(run: seq<State>, n: nat, i: nat, b: nat) {
    n <= i < |run| && forall k :: n <= k <= i ==> b in run[k].tab.backings
  }

  lemma StepKeepsClean(run: seq<State>, i: nat, b: nat)
    requires IsRun(run) && i + 1 < |run| && Clean(run[i], b) && b in run[i + 1].tab.backings
    ensures Clean(run[i + 1], b)
  {
    RunsKeepInv(run, i);
    var a := StepOf(run, i);
    KeepsClean(run[i], a, b);
  }

  lemma {:induction false} StaysClean(run: seq<State>, n: nat, i: nat, b: nat)
    requires IsRun(run) && OpenFrom(run, n, i, b) && Clean(run[n], b)
    ensures Clean(run[i], b)
  {
    if n < i {
      StaysClean(run, n, i - 1, b);
      StepKeepsClean(run, i - 1, b);
    }
  }

  /** An image that is opened for mounting while no handle is open for writing on it. */
  lemma OpenedClean(s: State, t: nat, b: nat)
    requires Inv(s) && CanMount(s, t, Opens(b))
    ensures Clean(Apply(s, OfMount(t, Opens(b))), b) <==> s.fs[s.ts.callers[t].pc.path] !in s.writers
  {
    OpensShape(s, t, b);
    var s' := Apply(s, OfMount(t, Opens(b)));
    assert InstallsBacking(s'.ts.callers[t].pc, b) && !Unwatched(s', b);
  }

  // ---- runs in which that is the rule ----

  /** The step opens no image for mounting that a handle is open for writing on. */
  predicate NoWriter(s: State, a: Action)
    requires Enabled(s, a)
  {
    a.OfMount? && a.mnt.Opens? ==> s.fs[Pc0(s, a.t).path] !in s.writers
  }

  ghost predicate CareStep(s: State, s': State) {
    exists a :: Enabled(s, a) && NoWriter(s, a) && s' == Apply(s, a)
  }

  ghost predicate CareAt(run: seq<State>, i: nat)
    requires i + 1 < |run|
  {
    CareStep(run[i], run[i + 1])
  }

  ghost predicate IsCareful(run: seq<State>) {
    && |run| > 0 && Init(run[0])
    && forall i :: 0 <= i < |run| - 1 ==> CareAt(run, i)
  }

  lemma CarefulIsRun(run: seq<State>)
    requires IsCareful(run)
    ensures IsRun(run)
  {
    forall i | 0 <= i < |run| - 1 ensures StepAt(run, i) {
      assert CareAt(run, i);
    }
  }

  lemma LocalsAreOpened(s: State, a: Action, s': State, b: nat)
    requires Enabled(s, a) && s' == Apply(s, a)
    requires b !in s.tab.backings && b in s'.tab.backings && !s'.tab.backings[b].remote
    ensures a.OfMount? && a.mnt == Opens(b)
  {
    match a
    case OfIo(u, x) => IoChanges(s, u, x);
    case OfJob(u, x) => JobStepShape(s, u, x);
    case OfMount(u, x) => MountOpens(s, u, x, b);
    case OfGuard(u, x) => GuardChanges(s, u, x);
    case OfWorker(x) => WorkOpens(s, x, b);
    case OfFile(x) =>
  }

  lemma MountOpens(s: State, t: nat, a: MountAct, b: nat)
    requires CanMount(s, t, a) && b !in s.tab.backings && b in DoMountStep(s, t, a).tab.backings
    ensures a == Opens(b)
  {}

  lemma WorkOpens(s: State, a: WorkAct, b: nat)
    requires CanWork(s, a) && b !in s.tab.backings && b in DoWorkStep(s, a).tab.backings
    ensures DoWorkStep(s, a).tab.backings[b].remote
  {}

  lemma CareStepKeepsClean(run: seq<State>, i: nat, b: nat)
    requires IsCareful(run) && i + 1 < |run| && Inv(run[i])
    requires b in run[i + 1].tab.backings && !run[i + 1].tab.backings[b].remote
    requires b in run[i].tab.backings && !run[i].tab.backings[b].remote ==> Clean(run[i], b)
    ensures Clean(run[i + 1], b)
  {
    assert CareAt(run, i);
    var a :| Enabled(run[i], a) && NoWriter(run[i], a) && run[i + 1] == Apply(run[i], a);
    if b in run[i].tab.backings {
      BackingStays(run[i], a, b);
      KeepsClean(run[i], a, b);
    } else {
      LocalsAreOpened(run[i], a, run[i + 1], b);
      OpenedClean(run[i], a.t, b);
    }
  }

  lemma {:induction false} CarefulRuns(run: seq<State>, i: nat, b: nat)
    requires IsCareful(run) && i < |run| && b in run[i].tab.backings && !run[i].tab.backings[b].remote
    ensures Clean(run[i], b)
  {
    FirstHasNoBackings(run);
    if b in run[i - 1].tab.backings && !run[i - 1].tab.backings[b].remote {
      CarefulRuns(run, i - 1, b);
    }
    CarefulIsRun(run);
    RunsKeepInv(run, i - 1);
    CareStepKeepsClean(run, i - 1, b);
  }

  lemma FirstHasNoBackings(run: seq<State>)
    requires IsCareful(run)
    ensures run[0].tab.backings == map[]
  {}

  /** In a run in which no image is mounted while a handle is open for writing on it, nothing
      but the drive itself ever writes to a mounted image. */
  lemma CarefulRunsAreClean(run: seq<State>, i: nat, d: nat)
    requires IsCareful(run) && i < |run| && d < |run[i].tab.drv| && Installed(run[i].tab, d)
    ensures Untouched(run[i].tab, d)
  {
    var (s, b) := (run[i], run[i].tab.drv[d].backing.value);
    CarefulIsRun(run);
    RunsKeepInv(run, i);
    assert RemoteOk(s.tab, s.fs, b);
    if !s.tab.backings[b].remote {
      CarefulRuns(run, i, b);
    }
    assert !Unwatched(s, b);
  }
}
