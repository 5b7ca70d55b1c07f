/** Every mounted drive shows what its name says, whatever was asked of it in the meantime:
    the file or the session that was opened from the name it has now (src/disk/disk.c). */
module DiskNames {
  import opened Bytes
  import opened Protocol
  import opened DiskCore
  import opened DiskMachine
  import opened DiskLocks
  import opened DiskJobs
  import opened DiskBackings
  import opened DiskData
  import opened DiskWriters

  /** It was opened from this name, and is for reading alone or not. */
  predicate Fits(x: Backing, name: string, readonly: bool) { x.name == name && x.readonly == readonly }

  /** The backing on drive d was opened from the drive's name, and in the drive's mode. */
  predicate SlotNamed(tab: Table, d: int)
    requires 0 <= d < |tab.drv|
  {
    Installed(tab, d) ==> Fits(tab.backings[tab.drv[d].backing.value], tab.drv[d].name, tab.drv[d].readonly)
  }

  /** So is one that is about to be put on a drive. */
  predicate CallerNamed(tab: Table, pc: Pc) {
    pc.SwapIn? && pc.how.Install? && pc.how.b in tab.backings ==> Fits(tab.backings[pc.how.b], pc.how.name, false)
  }

  predicate WorkerNamed(tab: Table, pc: WPc) {
    pc.InstallIn? && pc.b in tab.backings ==> Fits(tab.backings[pc.b], pc.url, pc.ro)
  }

  ghost predicate NameInv(s: State) {
    && (forall d :: 0 <= d < |s.tab.drv| ==> SlotNamed(s.tab, d))
    && (forall t :: 0 <= t < |s.ts.callers| ==> CallerNamed(s.tab, s.ts.callers[t].pc))
    && WorkerNamed(s.tab, s.ts.worker.pc)
  }

  /** What slots, tasks and the worker refer to is open. */
  ghost predicate AllOpen(s: State) {
    && (forall d :: 0 <= d < |s.tab.drv| ==> SlotOpen(s.tab, d))
    && (forall u :: 0 <= u < |s.ts.callers| ==> CallerOpen(s.tab, s.ts.callers[u].pc))
    && (s.ts.worker.pc.InstallIn? ==> s.ts.worker.pc.b in s.tab.backings)
  }

  predicate SlotOpen(tab: Table, d: int)
    requires 0 <= d < |tab.drv|
  {
    tab.drv[d].backing.Some? ==> tab.drv[d].backing.value in tab.backings
  }

  predicate CallerOpen(tab: Table, pc: Pc) { pc.SwapIn? && pc.how.Install? ==> pc.how.b in tab.backings }

  lemma InvIsOpen(s: State)
    requires Inv(s)
    ensures AllOpen(s)
  {
    forall d | 0 <= d < |s.tab.drv| ensures SlotOpen(s.tab, d) {
      assert SlotOk(s.tab, s.tab.drv[d]);
    }
    forall u | 0 <= u < |s.ts.callers| ensures CallerOpen(s.tab, s.ts.callers[u].pc) {
      assert CallerData(s.tab, s.fs, s.ts.callers[u].pc);
    }
  }

  predicate SameName(s: State, s': State, b: nat) {
    b in s.tab.backings && b in s'.tab.backings ==>
      s'.tab.backings[b].name == s.tab.backings[b].name && s'.tab.backings[b].readonly == s.tab.backings[b].readonly
  }

  /** Backings keep their names, and whatever is new in a slot, a task or the worker is named
      right. */
  lemma NamesKept(s: State, s': State)
    requires NameInv(s) && AllOpen(s) && |s'.tab.drv| == |s.tab.drv| && |s'.ts.callers| == |s.ts.callers|
    requires forall b :: SameName(s, s', b)
    requires forall d :: 0 <= d < |s.tab.drv| ==> s'.tab.drv[d] == s.tab.drv[d] || SlotNamed(s'.tab, d)
    requires forall u :: 0 <= u < |s.ts.callers| ==>
               s'.ts.callers[u].pc == s.ts.callers[u].pc || CallerNamed(s'.tab, s'.ts.callers[u].pc)
    requires s'.ts.worker.pc == s.ts.worker.pc || WorkerNamed(s'.tab, s'.ts.worker.pc)
    ensures NameInv(s')
  {
    forall d | 0 <= d < |s'.tab.drv| ensures SlotNamed(s'.tab, d) {
      assert SlotNamed(s.tab, d) && SlotOpen(s.tab, d);
      if s.tab.drv[d].backing.Some? {
        assert SameName(s, s', s.tab.drv[d].backing.value);
      }
    }
    forall u | 0 <= u < |s'.ts.callers| ensures CallerNamed(s'.tab, s'.ts.callers[u].pc) {
      var pc := s.ts.callers[u].pc;
      assert CallerNamed(s.tab, pc) && CallerOpen(s.tab, pc);
      if pc.SwapIn? && pc.how.Install? {
        assert SameName(s, s', pc.how.b);
      }
    }
    if s.ts.worker.pc.InstallIn? {
      assert SameName(s, s', s.ts.worker.pc.b);
    }
  }

  lemma MountKeepsNames(s: State, t: nat, a: MountAct)
    requires NameInv(s) && AllOpen(s) && JobInv(s.jobs, s.queue, s.ts) && CanMount(s, t, a)
    ensures NameInv(DoMountStep(s, t, a))
  {
    forall b ensures SameName(s, DoMountStep(s, t, a), b) {
      if b in s.tab.backings && b in DoMountStep(s, t, a).tab.backings {
        MountLeavesBacking(s, t, a, b);
      }
    }
    assert CallerJob(s.jobs, s.queue, WRef(s.ts.worker.pc), t, s.ts.callers[t].pc);
    if a.Opens? {
      OpensShape(s, t, a.b);
      MountChanges(s, t, a);
    } else if a.DoSwap? {
      SwapShape(s, t);
      SwapImages(s, t);
      assert CallerNamed(s.tab, s.ts.callers[t].pc);
    } else {
      MountSlots(s, t, a);
      MountChanges(s, t, a);
    }
    NamesKept(s, DoMountStep(s, t, a));
  }

  lemma MountSlots(s: State, t: nat, a: MountAct)
    requires CanMount(s, t, a) && !a.Opens? && !a.DoSwap? && PcShape(s.ts.callers[t].pc)
    ensures var s' := DoMountStep(s, t, a);
            && |s'.tab.drv| == |s.tab.drv|
            && (forall d :: 0 <= d < |s.tab.drv| ==> s'.tab.drv[d] == s.tab.drv[d] || s'.tab.drv[d].backing.None?)
            && |s'.ts.callers| == |s.ts.callers| && s'.ts.callers == s.ts.callers[t := s'.ts.callers[t]]
            && !(s'.ts.callers[t].pc.SwapIn? && s'.ts.callers[t].pc.how.Install?)
  {
    MountShape(s, t, a);
    SlotsEmptied(s, t, a);
  }

  lemma SlotsEmptied(s: State, t: nat, a: MountAct)
    requires CanMount(s, t, a) && !a.Opens? && !a.DoSwap?
    ensures var s' := DoMountStep(s, t, a);
            && |s'.tab.drv| == |s.tab.drv|
            && forall d :: 0 <= d < |s.tab.drv| ==> s'.tab.drv[d] == s.tab.drv[d] || s'.tab.drv[d].backing.None?
  {}

  lemma WorkKeepsNames(s: State, a: WorkAct)
    requires NameInv(s) && AllOpen(s) && CanWork(s, a)
    ensures NameInv(DoWorkStep(s, a))
  {
    forall b ensures SameName(s, DoWorkStep(s, a), b) {
      if b in s.tab.backings && b in DoWorkStep(s, a).tab.backings {
        WorkLeavesBacking(s, a, b);
      }
    }
    if a.WInstalls? {
      InstallsNamed(s);
    } else {
      WorkNames(s, a);
    }
    NamesKept(s, DoWorkStep(s, a));
  }

  /** The worker puts a session on a drive only under the URL it was opened from. */
  lemma InstallsNamed(s: State)
    requires CanWork(s, WInstalls) && WorkerNamed(s.tab, s.ts.worker.pc)
    ensures var s' := DoWorkStep(s, WInstalls);
            && s'.ts.callers == s.ts.callers && !s'.ts.worker.pc.InstallIn? && |s'.tab.drv| == |s.tab.drv|
            && forall d :: 0 <= d < |s.tab.drv| ==> s'.tab.drv[d] == s.tab.drv[d] || SlotNamed(s'.tab, d)
  {}

  lemma WorkNames(s: State, a: WorkAct)
    requires CanWork(s, a) && !a.WInstalls?
    ensures var s' := DoWorkStep(s, a);
            && s'.ts.callers == s.ts.callers && s'.tab.drv == s.tab.drv
            && (s'.ts.worker.pc == s.ts.worker.pc || WorkerNamed(s'.tab, s'.ts.worker.pc))
  {
    if a.WOpens? || a.WWrites? {
    } else {
      WorkTasks(s, a);
      NoOtherInstalls(s, a);
    }
  }

  lemma NoOtherInstalls(s: State, a: WorkAct)
    requires CanWork(s, a) && !a.WOpens?
    ensures var pc' := DoWorkStep(s, a).ts.worker.pc; pc'.InstallIn? ==> pc' == s.ts.worker.pc
  {}

  lemma IoKeepsNames(s: State, t: nat, a: IoAct)
    requires NameInv(s) && AllOpen(s) && CanIo(s, t, a)
    ensures NameInv(DoIoStep(s, t, a))
  {
    IoShape(s, t, a);
    IoChanges(s, t, a);
    NamesKept(s, DoIoStep(s, t, a));
  }

  lemma JobKeepsNames(s: State, t: nat, a: JobAct)
    requires NameInv(s) && AllOpen(s) && CanJob(s, t, a)
    ensures NameInv(DoJobStep(s, t, a))
  {
    JobStepShape(s, t, a);
    NamesKept(s, DoJobStep(s, t, a));
  }

  lemma GuardKeepsNames(s: State, t: nat, a: GuardAct)
    requires NameInv(s) && AllOpen(s) && CanGuard(s, t, a)
    ensures NameInv(DoGuardStep(s, t, a))
  {
    GuardChanges(s, t, a);
    NamesKept(s, DoGuardStep(s, t, a));
  }

  lemma FileKeepsNames(s: State, a: FileAct)
    requires NameInv(s) && AllOpen(s) && CanFile(s, a)
    ensures NameInv(DoFileStep(s, a))
  {
    NamesKept(s, DoFileStep(s, a));
  }

  /** Every step of every task keeps the names right. */
  lemma KeepsNames(s: State, a: Action)
    requires Inv(s) && NameInv(s) && Enabled(s, a)
    ensures NameInv(Apply(s, a))
  {
    InvIsOpen(s);
    match a
    case OfIo(t, x) => IoKeepsNames(s, t, x);
    case OfJob(t, x) => JobKeepsNames(s, t, x);
    case OfMount(t, x) => MountKeepsNames(s, t, x);
    case OfGuard(t, x) => GuardKeepsNames(s, t, x);
    case OfWorker(x) => WorkKeepsNames(s, x);
    case OfFile(x) => FileKeepsNames(s, x);
  }

  lemma InitNames(s: State)
    requires Init(s)
    ensures NameInv(s)
  {}

  lemma StepsKeepNames(s: State, s': State)
    requires Inv(s) && NameInv(s) && StepsTo(s, s')
    ensures NameInv(s')
  {
    var a :| Enabled(s, a) && s' == Apply(s, a);
    KeepsNames(s, a);
  }

  lemma StepKeepsNames(run: seq<State>, i: nat)
    requires IsRun(run) && 0 < i < |run| && Inv(run[i - 1]) && NameInv(run[i - 1])
    ensures NameInv(run[i])
  {
    StepIsOne(run, i);
    StepsKeepNames(run[i - 1], run[i]);
  }

  lemma NextIsNamed(run: seq<State>, i: nat)
    requires IsRun(run) && 0 < i < |run| && NameInv(run[i - 1])
    ensures NameInv(run[i])
  {
    RunsKeepInv(run, i - 1);
    StepKeepsNames(run, i);
  }

  lemma {:induction false} RunsKeepNames(run: seq<State>, i: nat)
    requires IsRun(run) && i < |run|
    ensures NameInv(run[i])
  {
    if i == 0 {
      InitNames(run[0]);
    } else {
      RunsKeepNames(run, i - 1);
      NextIsNamed(run, i);
    }
  }

  /** In every reachable state the file or session on a mounted drive is the one that was
      opened from the drive's name: a session that was opened for a URL the drive no longer
      has never gets onto it. And the drive refuses writes exactly if the session does. */
  lemma DriveShowsItsName(run: seq<State>, i: nat, d: nat)
    requires IsRun(run) && i < |run| && d < |run[i].tab.drv| && Installed(run[i].tab, d)
    ensures var (x, slot) := (run[i].tab.backings[run[i].tab.drv[d].backing.value], run[i].tab.drv[d]);
            x.name == slot.name && x.readonly == slot.readonly
  {
    RunsKeepNames(run, i);
    assert SlotNamed(run[i].tab, d);
  }
}
