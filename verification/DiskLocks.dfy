/** Locks of the disk machine: who holds what, in every reachable state. */
module DiskLocks {
  import opened Bytes
  import opened DiskMachine

  /** Each lock is held by exactly the task whose position says so. */
  ghost predicate LockInv(ts: Tasks) {
    && (forall t :: 0 <= t < |ts.callers| ==> CallerLocks(ts, t, ts.callers[t]))
    && (ts.track == Some(TheWorker) <==> WInTrack(ts.worker.pc) && !ts.worker.blocked)
    && (ts.mtx == Some(TheWorker) <==> WInMtx(ts.worker.pc) && !ts.worker.blocked)
    && (ts.worker.blocked ==> WInTrack(ts.worker.pc) || ts.worker.pc.Complete?)
    && (ts.mount.Some? <==> ts.depth > 0)
    && (ts.mount.Some? ==> ts.mount.value < |ts.callers|)
    && (ts.track.Some? && ts.track.value.Task? ==> ts.track.value.t < |ts.callers|)
    && (ts.mtx.Some? && ts.mtx.value.Task? ==> ts.mtx.value.t < |ts.callers|)
  }

  ghost predicate CallerLocks(ts: Tasks, t: nat, c: Caller) {
    && (ts.track == Some(Task(t)) <==> InTrack(c.pc) && !c.blocked)
    && (ts.mtx == Some(Task(t)) <==> InMtx(c.pc) && !c.blocked)
    && (c.blocked ==> InTrack(c.pc) || InMtx(c.pc))
    && MountDepth(c.pc) == (if ts.mount == Some(t) then ts.depth else 0)
  }

  lemma MountTaken(ts: Tasks, t: nat, pc: Pc)
    requires LockInv(ts) && t < |ts.callers| && !ts.callers[t].blocked
    requires ts.mount.None? || ts.mount == Some(t)
    requires !InTrack(ts.callers[t].pc) && !InMtx(ts.callers[t].pc)
    requires MountDepth(pc) == MountDepth(ts.callers[t].pc) + 1
    ensures LockInv(To(ts, t, pc).(mount := Some(t), depth := ts.depth + 1))
  {}

  lemma MountReleased(ts: Tasks, t: nat, pc: Pc)
    requires LockInv(ts) && t < |ts.callers| && !ts.callers[t].blocked
    requires !InTrack(ts.callers[t].pc) && !InMtx(ts.callers[t].pc)
    requires MountDepth(pc) + 1 == MountDepth(ts.callers[t].pc)
    ensures LockInv(To(Release(ts), t, pc))
    ensures ts.mount == Some(t)
  {}

  lemma LockTaken(ts: Tasks, t: nat)
    requires LockInv(ts) && t < |ts.callers| && ts.callers[t].blocked
    ensures InTrack(ts.callers[t].pc) && ts.track.None? ==>
              LockInv(ts.(track := Some(Task(t)), callers := ts.callers[t := Caller(ts.callers[t].pc, false)]))
    ensures InMtx(ts.callers[t].pc) && ts.mtx.None? ==>
              LockInv(ts.(mtx := Some(Task(t)), callers := ts.callers[t := Caller(ts.callers[t].pc, false)]))
  {}

  lemma WorkerLocks(ts: Tasks)
    requires LockInv(ts)
    ensures forall pc: WPc :: !ts.worker.blocked && (pc.Unlock? ==> ts.worker.pc.Complete?) ==> LockInv(WTo(ts, pc))
    ensures ts.worker.blocked && WInTrack(ts.worker.pc) && ts.track.None? ==>
              LockInv(ts.(track := Some(TheWorker), worker := Worker(ts.worker.pc, false)))
    ensures ts.worker.blocked && WInMtx(ts.worker.pc) && ts.mtx.None? ==>
              LockInv(ts.(mtx := Some(TheWorker), worker := Worker(ts.worker.pc, false)))
  {}

  /** A step that only moves task t, without touching the mount lock. */
  ghost predicate Moves(ts: Tasks, t: nat, ts': Tasks) {
    && t < |ts.callers| == |ts'.callers|
    && ts' == To(ts, t, ts'.callers[t].pc)
    && MountDepth(ts'.callers[t].pc) == MountDepth(ts.callers[t].pc)
  }

  lemma MoveKeepsLocks(ts: Tasks, t: nat, ts': Tasks)
    requires LockInv(ts) && Moves(ts, t, ts') && !ts.callers[t].blocked
    ensures LockInv(ts')
  {}

  lemma IoMoves(s: State, t: nat, a: IoAct)
    requires CanIo(s, t, a)
    ensures Moves(s.ts, t, DoIoStep(s, t, a).ts)
  {}

  lemma EarlyJobMoves(s: State, t: nat, a: JobAct)
    requires CanJob(s, t, a) && (a.Start? || a.Return? || a.LinkDown? || a.NewJob? || a.NoJob? || a.Send?)
    ensures Moves(s.ts, t, DoJobStep(s, t, a).ts)
  {}

  lemma LateJobMoves(s: State, t: nat, a: JobAct)
    requires CanJob(s, t, a) && (a.SendFails? || a.Woken? || a.TimesOut? || a.DoGiveUp? || a.DoReap?)
    ensures Moves(s.ts, t, DoJobStep(s, t, a).ts)
  {}

  lemma JobMoves(s: State, t: nat, a: JobAct)
    requires CanJob(s, t, a) && !a.TakeTrack? && !a.TakeMtx?
    ensures Moves(s.ts, t, DoJobStep(s, t, a).ts)
  {
    if a.Start? || a.Return? || a.LinkDown? || a.NewJob? || a.NoJob? || a.Send? {
      EarlyJobMoves(s, t, a);
    } else {
      LateJobMoves(s, t, a);
    }
  }

  lemma MountMoves(s: State, t: nat, a: MountAct)
    requires CanMount(s, t, a) && !a.TakeMount? && !a.LeaveSwap? && !a.LeaveOuter?
    ensures Moves(s.ts, t, DoMountStep(s, t, a).ts)
  {
    MountMovesTo(s, t, a);
    if a.DoDispose? {
      DisposeDepth(s, t);
    } else {
      MountKeepsDepth(s, t, a);
    }
  }

  lemma MountMovesTo(s: State, t: nat, a: MountAct)
    requires CanMount(s, t, a) && !a.TakeMount? && !a.LeaveSwap? && !a.LeaveOuter?
    ensures var ts' := DoMountStep(s, t, a).ts;
            |s.ts.callers| == |ts'.callers| && ts' == To(s.ts, t, ts'.callers[t].pc)
  {}

  lemma MountKeepsDepth(s: State, t: nat, a: MountAct)
    requires CanMount(s, t, a) && !a.TakeMount? && !a.LeaveSwap? && !a.LeaveOuter? && !a.DoDispose?
    ensures MountDepth(Pc0(DoMountStep(s, t, a), t)) == MountDepth(s.ts.callers[t].pc)
  {}

  lemma DisposeDepth(s: State, t: nat)
    requires CanMount(s, t, DoDispose)
    ensures MountDepth(DoMountStep(s, t, DoDispose).ts.callers[t].pc) == MountDepth(s.ts.callers[t].pc)
  {}

  lemma GuardStaysOn(s: State, t: nat, a: GuardAct)
    requires CanGuard(s, t, a) && !a.LeaveAct?
    ensures Moves(s.ts, t, DoGuardStep(s, t, a).ts)
  {}

  lemma WorkMoves(s: State, a: WorkAct)
    requires CanWork(s, a) && !a.WTakeTrack? && !a.WTakeMtx?
    ensures DoWorkStep(s, a).ts == WTo(s.ts, DoWorkStep(s, a).ts.worker.pc)
    ensures DoWorkStep(s, a).ts.worker.pc.Unlock? ==> s.ts.worker.pc.Complete?
  {
    if OnTrack(a) {
      TrackWorkMoves(s, a);
    } else {
      OtherWorkMoves(s, a);
    }
  }

  predicate OnTrack(a: WorkAct) { a.WLook? || a.WReads? || a.WWrites? || a.WFillRead? || a.WFillWrite? }

  lemma TrackWorkMoves(s: State, a: WorkAct)
    requires CanWork(s, a) && OnTrack(a)
    ensures DoWorkStep(s, a).ts == WTo(s.ts, DoWorkStep(s, a).ts.worker.pc) && !DoWorkStep(s, a).ts.worker.pc.Unlock?
  {}

  lemma OtherWorkMoves(s: State, a: WorkAct)
    requires CanWork(s, a) && !a.WTakeTrack? && !a.WTakeMtx? && !OnTrack(a)
    ensures DoWorkStep(s, a).ts == WTo(s.ts, DoWorkStep(s, a).ts.worker.pc)
    ensures DoWorkStep(s, a).ts.worker.pc.Unlock? ==> s.ts.worker.pc.Complete?
  {}

  /** Every step keeps the locks as the positions of the tasks say. */
  lemma KeepsLocks(s: State, a: Action)
    requires LockInv(s.ts) && Enabled(s, a)
    ensures LockInv(Apply(s, a).ts)
  {
    match a
    case OfIo(t, x) => IoMoves(s, t, x); MoveKeepsLocks(s.ts, t, DoIoStep(s, t, x).ts);
    case OfJob(t, x) => JobKeepsLocks(s, t, x);
    case OfMount(t, x) => MountKeepsLocks(s, t, x);
    case OfGuard(t, x) => GuardKeepsLocks(s, t, x);
    case OfWorker(x) => WorkKeepsLocks(s, x);
    case OfFile(x) =>
  }

  lemma JobKeepsLocks(s: State, t: nat, a: JobAct)
    requires LockInv(s.ts) && CanJob(s, t, a)
    ensures LockInv(DoJobStep(s, t, a).ts)
  {
    if a.TakeTrack? || a.TakeMtx? {
      LockTaken(s.ts, t);
    } else {
      JobMoves(s, t, a);
      MoveKeepsLocks(s.ts, t, DoJobStep(s, t, a).ts);
    }
  }

  lemma MountKeepsLocks(s: State, t: nat, a: MountAct)
    requires LockInv(s.ts) && CanMount(s, t, a)
    ensures LockInv(DoMountStep(s, t, a).ts)
  {
    if a.TakeMount? {
      MountTaken(s.ts, t, WithMount(Pc0(s, t)));
    } else if a.LeaveSwap? {
      MountReleased(s.ts, t, Dispose(Pc0(s, t).olds, Pc0(s, t).next));
    } else if a.LeaveOuter? {
      MountReleased(s.ts, t, Done(Pc0(s, t).code, []));
    } else {
      MountMoves(s, t, a);
      MoveKeepsLocks(s.ts, t, DoMountStep(s, t, a).ts);
    }
  }

  lemma GuardKeepsLocks(s: State, t: nat, a: GuardAct)
    requires LockInv(s.ts) && CanGuard(s, t, a)
    ensures LockInv(DoGuardStep(s, t, a).ts)
  {
    if a.LeaveAct? {
      MountReleased(s.ts, t, Done(Pc0(s, t).code, []));
    } else {
      GuardStaysOn(s, t, a);
      MoveKeepsLocks(s.ts, t, DoGuardStep(s, t, a).ts);
    }
  }

  lemma WorkKeepsLocks(s: State, a: WorkAct)
    requires LockInv(s.ts) && CanWork(s, a)
    ensures LockInv(DoWorkStep(s, a).ts)
  {
    WorkerLocks(s.ts);
    if !a.WTakeTrack? && !a.WTakeMtx? {
      WorkMoves(s, a);
    }
  }
}
