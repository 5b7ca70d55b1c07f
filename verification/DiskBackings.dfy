/** Backing lifetime: every open backing has exactly one place that will close it, the
    table's flags match what is installed, and a remote session is used and closed by
    the worker alone. */
module DiskBackings {
  import opened Bytes
  import opened Protocol
  import opened DiskCore
  import opened DiskMachine
  import opened DiskJobs

  /** The backings a caller carries and will close, or hand on to be closed. */
  function Refs(pc: Pc): seq<Old> {
    match pc
    case SwapIn(_, how, _) => if how.Install? then [Old(how.b, false)] else []
    case SwapRel(olds, _) => olds
    case Dispose(olds, _) => olds
    case MakeJob(k) => KontRefs(k)
    case Post(_, k) => KontRefs(k)
    case _ => []
  }

  function KontRefs(k: Kont): seq<Old> {
    if k.ForClose? then [Old(k.b, true)] + k.rest else []
  }

  predicate Carried(backings: map<nat, Backing>, owner: map<nat, Owner>, t: nat, olds: seq<Old>) {
    && (forall i :: 0 <= i < |olds| ==>
          && olds[i].b in backings && olds[i].b in owner
          && owner[olds[i].b] == WithCaller(t)
          && backings[olds[i].b].remote == olds[i].remote)
    && (forall i, k :: 0 <= i < k < |olds| ==> olds[i].b != olds[k].b)
  }

  /** Job j is on its way to close a backing. */
  predicate Closes(jobs: map<nat, Job>, queue: seq<nat>, wpc: WPc, j: nat) {
    j in jobs && jobs[j].kind == CLOSE && (j in queue || wpc == Closing(j))
  }

  predicate SlotOwns(drv: seq<Slot>, backings: map<nat, Backing>, owner: map<nat, Owner>, d: nat)
    requires d < |drv|
  {
    drv[d].backing.Some? ==>
      var b := drv[d].backing.value;
      b in backings && b in owner && owner[b] == InSlot(d) && backings[b].remote == drv[d].remote
  }

  predicate WorkerOwns(backings: map<nat, Backing>, owner: map<nat, Owner>, wpc: WPc) {
    && (wpc.Xfer? || wpc.FillRead? || wpc.FillWrite? ==> wpc.b in backings && backings[wpc.b].remote)
    && (wpc.InstallIn? || wpc.Discard? ==>
          wpc.b in backings && backings[wpc.b].remote && wpc.b in owner && owner[wpc.b] == WithWorker)
  }

  /** The owner on record really is the one place that refers to b. */
  predicate OwnerOk(drv: seq<Slot>, backings: map<nat, Backing>, jobs: map<nat, Job>, queue: seq<nat>,
                    callers: seq<Caller>, wpc: WPc, b: nat, o: Owner) {
    match o
    case InSlot(d) => d < |drv| && drv[d].backing == Some(b)
    case WithCaller(t) => t < |callers| && exists x :: x in Refs(callers[t].pc) && x.b == b
    case InJob(j) => Closes(jobs, queue, wpc, j) && jobs[j].bclose == b
    case WithWorker => (wpc.InstallIn? || wpc.Discard?) && wpc.b == b
    case Leaked => b in backings && backings[b].remote
  }

  predicate CloseOk(backings: map<nat, Backing>, owner: map<nat, Owner>, jobs: map<nat, Job>, j: nat)
    requires j in jobs
  {
    var b := jobs[j].bclose;
    b in backings && b in owner && owner[b] == InJob(j) && backings[b].remote
  }

  ghost predicate BackInv(drv: seq<Slot>, backings: map<nat, Backing>, owner: map<nat, Owner>,
                          jobs: map<nat, Job>, queue: seq<nat>, callers: seq<Caller>, wpc: WPc) {
    && |drv| == MAX_DRIVE
    && owner.Keys == backings.Keys
    && (forall d :: 0 <= d < |drv| ==> SlotOwns(drv, backings, owner, d))
    && (forall t :: 0 <= t < |callers| ==> Carried(backings, owner, t, Refs(callers[t].pc)))
    && (forall j :: Closes(jobs, queue, wpc, j) ==> CloseOk(backings, owner, jobs, j))
    && WorkerOwns(backings, owner, wpc)
    && (forall b :: b in owner ==> OwnerOk(drv, backings, jobs, queue, callers, wpc, b, owner[b]))
  }

  ghost predicate BackInvOf(s: State) {
    BackInv(s.tab.drv, s.tab.backings, s.owner, s.jobs, s.queue, s.ts.callers, s.ts.worker.pc)
  }

  /** Nothing about backings changes: same references everywhere. */
  lemma SameRefs(s: State, s': State, t: nat)
    requires BackInvOf(s) && t < |s.ts.callers| == |s'.ts.callers|
    requires s'.tab.drv == s.tab.drv && s'.tab.backings == s.tab.backings && s'.owner == s.owner
    requires s'.ts.callers == s.ts.callers[t := s'.ts.callers[t]] && s'.ts.worker.pc == s.ts.worker.pc
    requires Refs(s'.ts.callers[t].pc) == Refs(s.ts.callers[t].pc)
    requires forall j :: Closes(s'.jobs, s'.queue, s.ts.worker.pc, j) <==> Closes(s.jobs, s.queue, s.ts.worker.pc, j)
    requires forall j :: Closes(s.jobs, s.queue, s.ts.worker.pc, j) ==> j in s'.jobs && s'.jobs[j] == s.jobs[j]
    ensures BackInvOf(s')
  {}

  /** Track operations move only their caller, and change neither slots nor backings. */
  lemma IoChanges(s: State, t: nat, a: IoAct)
    requires CanIo(s, t, a)
    ensures var s' := DoIoStep(s, t, a);
            && s'.tab.drv == s.tab.drv && s'.tab.backings == s.tab.backings && s'.owner == s.owner
            && s'.jobs == s.jobs && s'.queue == s.queue && s'.ts.worker == s.ts.worker
            && |s'.ts.callers| == |s.ts.callers| && s'.ts.callers == s.ts.callers[t := s'.ts.callers[t]]
            && Refs(s'.ts.callers[t].pc) == Refs(s.ts.callers[t].pc)
  {}

  lemma IoKeepsBackings(s: State, t: nat, a: IoAct)
    requires BackInvOf(s) && CanIo(s, t, a)
    ensures BackInvOf(DoIoStep(s, t, a))
  {
    IoChanges(s, t, a);
    SameRefs(s, DoIoStep(s, t, a), t);
  }

  lemma GuardKeepsBackings(s: State, t: nat, a: GuardAct)
    requires BackInvOf(s) && CanGuard(s, t, a)
    ensures BackInvOf(DoGuardStep(s, t, a))
  {
    GuardChanges(s, t, a);
    SameRefs(s, DoGuardStep(s, t, a), t);
  }

  /** A guarded change touches files, never the mount table or the backings. */
  lemma GuardChanges(s: State, t: nat, a: GuardAct)
    requires CanGuard(s, t, a)
    ensures var s' := DoGuardStep(s, t, a);
            && s'.tab.drv == s.tab.drv && s'.tab.backings == s.tab.backings && s'.owner == s.owner
            && s'.tab.buf == s.tab.buf && s'.tab.cache == s.tab.cache
            && s'.jobs == s.jobs && s'.queue == s.queue && s'.ts.worker == s.ts.worker
            && |s'.ts.callers| == |s.ts.callers| && s'.ts.callers == s.ts.callers[t := s'.ts.callers[t]]
            && Refs(s'.ts.callers[t].pc) == Refs(s.ts.callers[t].pc) == []
  {}

  /** A session a caller was to close goes to a close job, or is leaked because it could
      not be handed over. */
  lemma HandedOn(s: State, s': State, t: nat, b: nat, rest: seq<Old>, o: Owner)
    requires BackInvOf(s) && t < |s.ts.callers| == |s'.ts.callers|
    requires s'.tab.drv == s.tab.drv && s'.tab.backings == s.tab.backings
    requires s'.ts.callers == s.ts.callers[t := s'.ts.callers[t]] && s'.ts.worker.pc == s.ts.worker.pc
    requires Refs(s.ts.callers[t].pc) == [Old(b, true)] + rest && Refs(s'.ts.callers[t].pc) == rest
    requires s'.owner == s.owner[b := o]
    requires o == Leaked || (o.InJob? && Closes(s'.jobs, s'.queue, s.ts.worker.pc, o.j) && s'.jobs[o.j].bclose == b)
    requires forall j :: o != InJob(j) ==>
               (Closes(s'.jobs, s'.queue, s.ts.worker.pc, j) <==> Closes(s.jobs, s.queue, s.ts.worker.pc, j))
    requires forall j :: Closes(s.jobs, s.queue, s.ts.worker.pc, j) ==> o != InJob(j) && j in s'.jobs && s'.jobs[j] == s.jobs[j]
    ensures BackInvOf(s')
  {
    var olds := Refs(s.ts.callers[t].pc);
    assert Carried(s.tab.backings, s.owner, t, olds);
    assert olds[0] == Old(b, true);
    assert forall i :: 0 <= i < |rest| ==> rest[i] == olds[i + 1];
    forall u | 0 <= u < |s'.ts.callers| ensures Carried(s.tab.backings, s'.owner, u, Refs(s'.ts.callers[u].pc)) {
      assert Carried(s.tab.backings, s.owner, u, Refs(s.ts.callers[u].pc));
    }
    forall d | 0 <= d < |s'.tab.drv| ensures SlotOwns(s'.tab.drv, s'.tab.backings, s'.owner, d) {
      assert SlotOwns(s.tab.drv, s.tab.backings, s.owner, d);
    }
    forall j | Closes(s'.jobs, s'.queue, s'.ts.worker.pc, j) ensures CloseOk(s'.tab.backings, s'.owner, s'.jobs, j) {
      if o != InJob(j) {
        assert CloseOk(s.tab.backings, s.owner, s.jobs, j);
      }
    }
    forall c | c in s'.owner
      ensures OwnerOk(s'.tab.drv, s'.tab.backings, s'.jobs, s'.queue, s'.ts.callers, s'.ts.worker.pc, c, s'.owner[c]) {
      HandedOwner(s, s', t, b, rest, o, c);
    }
  }

  lemma HandedOwner(s: State, s': State, t: nat, b: nat, rest: seq<Old>, o: Owner, c: nat)
    requires t < |s.ts.callers| == |s'.ts.callers| && s'.tab.drv == s.tab.drv && s'.tab.backings == s.tab.backings
    requires s'.ts.callers == s.ts.callers[t := s'.ts.callers[t]] && s'.ts.worker.pc == s.ts.worker.pc
    requires Refs(s.ts.callers[t].pc) == [Old(b, true)] + rest && Refs(s'.ts.callers[t].pc) == rest
    requires c in s.owner && b in s.tab.backings && s.tab.backings[b].remote
    requires OwnerOk(s.tab.drv, s.tab.backings, s.jobs, s.queue, s.ts.callers, s.ts.worker.pc, c, s.owner[c])
    requires o == Leaked || (o.InJob? && Closes(s'.jobs, s'.queue, s.ts.worker.pc, o.j) && s'.jobs[o.j].bclose == b)
    requires forall j :: Closes(s.jobs, s.queue, s.ts.worker.pc, j) ==>
               Closes(s'.jobs, s'.queue, s.ts.worker.pc, j) && s'.jobs[j] == s.jobs[j]
    ensures OwnerOk(s'.tab.drv, s'.tab.backings, s'.jobs, s'.queue, s'.ts.callers, s'.ts.worker.pc, c,
                    if c == b then o else s.owner[c])
  {}

  lemma JobKeepsBackings(s: State, t: nat, a: JobAct)
    requires BackInvOf(s) && JobInv(s.jobs, s.queue, s.ts) && CanJob(s, t, a)
    ensures BackInvOf(DoJobStep(s, t, a))
  {
    if a.NoJob? || a.Send? || a.SendFails? {
      if s.ts.callers[t].pc.k.ForClose? {
        HandOver(s, t, a);
      } else {
        KeepsWithoutClose(s, t, a);
        SameRefs(s, DoJobStep(s, t, a), t);
      }
    } else {
      if a.NewJob? {
        NewJobChanges(s, t, a.j);
      } else if a.DoGiveUp? || a.DoReap? {
        WaitEnds(s, t, a);
      } else {
        JobChanges(s, t, a);
      }
      SameRefs(s, DoJobStep(s, t, a), t);
    }
  }

  lemma HandOver(s: State, t: nat, a: JobAct)
    requires CanJob(s, t, a) && (a.NoJob? || a.Send? || a.SendFails?) && s.ts.callers[t].pc.k.ForClose?
    requires BackInvOf(s) && JobInv(s.jobs, s.queue, s.ts)
    ensures BackInvOf(DoJobStep(s, t, a))
  {
    var pc := s.ts.callers[t].pc;
    var k := pc.k;
    assert Carried(s.tab.backings, s.owner, t, Refs(pc));
    assert Refs(pc)[0] == Old(k.b, true);
    var o := if a.Send? then InJob(pc.j) else Leaked;
    if a.NoJob? {
      NotMade(s, t);
    } else {
      HandedFacts(s, t, a, o);
    }
    HandedOn(s, DoJobStep(s, t, a), t, k.b, k.rest, o);
  }

  lemma NotMade(s: State, t: nat)
    requires CanJob(s, t, NoJob) && s.ts.callers[t].pc.k.ForClose?
    requires s.ts.callers[t].pc.k.b in s.owner
    ensures var s' := DoJobStep(s, t, NoJob);
            && s'.tab == s.tab && s'.jobs == s.jobs && s'.queue == s.queue && s'.ts.worker == s.ts.worker
            && |s'.ts.callers| == |s.ts.callers| && s'.ts.callers == s.ts.callers[t := s'.ts.callers[t]]
            && Refs(s'.ts.callers[t].pc) == s.ts.callers[t].pc.k.rest
            && s'.owner == s.owner[s.ts.callers[t].pc.k.b := Leaked]
  {}

  lemma HandedFacts(s: State, t: nat, a: JobAct, o: Owner)
    requires JobInv(s.jobs, s.queue, s.ts) && CanJob(s, t, a) && (a.Send? || a.SendFails?)
    requires s.ts.callers[t].pc.k.ForClose? && s.ts.callers[t].pc.k.b in s.owner
    requires o == if a.Send? then InJob(s.ts.callers[t].pc.j) else Leaked
    ensures var (s', pc) := (DoJobStep(s, t, a), s.ts.callers[t].pc);
            && s'.tab == s.tab && s'.ts.worker == s.ts.worker
            && |s'.ts.callers| == |s.ts.callers| && s'.ts.callers == s.ts.callers[t := s'.ts.callers[t]]
            && Refs(s'.ts.callers[t].pc) == pc.k.rest
            && s'.owner == s.owner[pc.k.b := o]
            && pc.j in s.jobs && s.jobs[pc.j].bclose == pc.k.b
            && !Closes(s.jobs, s.queue, s.ts.worker.pc, pc.j)
            && (a.Send? ==> s'.jobs == s.jobs && Closes(s'.jobs, s'.queue, s.ts.worker.pc, pc.j))
            && (a.SendFails? ==> s'.jobs == s.jobs - {pc.j})
            && (forall j :: j != pc.j ==> (j in s'.queue <==> j in s.queue))
  {
    HandedTasks(s, t, a, o);
    HandedJobs(s, t, a);
  }

  lemma HandedTasks(s: State, t: nat, a: JobAct, o: Owner)
    requires CanJob(s, t, a) && (a.Send? || a.SendFails?)
    requires s.ts.callers[t].pc.k.ForClose? && s.ts.callers[t].pc.k.b in s.owner
    requires o == if a.Send? then InJob(s.ts.callers[t].pc.j) else Leaked
    ensures var (s', pc) := (DoJobStep(s, t, a), s.ts.callers[t].pc);
            && s'.tab == s.tab && s'.ts.worker == s.ts.worker
            && |s'.ts.callers| == |s.ts.callers| && s'.ts.callers == s.ts.callers[t := s'.ts.callers[t]]
            && Refs(s'.ts.callers[t].pc) == pc.k.rest
            && s'.owner == s.owner[pc.k.b := o]
  {}

  lemma HandedJobs(s: State, t: nat, a: JobAct)
    requires JobInv(s.jobs, s.queue, s.ts) && CanJob(s, t, a) && (a.Send? || a.SendFails?)
    requires s.ts.callers[t].pc.k.ForClose?
    ensures var (s', pc) := (DoJobStep(s, t, a), s.ts.callers[t].pc);
            && pc.j in s.jobs && s.jobs[pc.j].bclose == pc.k.b
            && !Closes(s.jobs, s.queue, s.ts.worker.pc, pc.j)
            && (a.Send? ==> s'.jobs == s.jobs && Closes(s'.jobs, s'.queue, s.ts.worker.pc, pc.j))
            && (a.SendFails? ==> s'.jobs == s.jobs - {pc.j})
            && (forall j :: j != pc.j ==> (j in s'.queue <==> j in s.queue))
  {}

  /** A job that closes nothing is not made, is queued, or is freed unqueued. */
  lemma KeepsWithoutClose(s: State, t: nat, a: JobAct)
    requires JobInv(s.jobs, s.queue, s.ts) && CanJob(s, t, a)
    requires (a.NoJob? || a.Send? || a.SendFails?) && !s.ts.callers[t].pc.k.ForClose?
    ensures var s' := DoJobStep(s, t, a);
            && s'.tab == s.tab && s'.owner == s.owner && s'.ts.worker == s.ts.worker
            && |s'.ts.callers| == |s.ts.callers| && s'.ts.callers == s.ts.callers[t := s'.ts.callers[t]]
            && Refs(s'.ts.callers[t].pc) == Refs(s.ts.callers[t].pc)
            && (forall j :: Closes(s'.jobs, s'.queue, s.ts.worker.pc, j) <==> Closes(s.jobs, s.queue, s.ts.worker.pc, j))
            && (forall j :: Closes(s.jobs, s.queue, s.ts.worker.pc, j) ==> j in s'.jobs && s'.jobs[j] == s.jobs[j])
  {
    var pc := s.ts.callers[t].pc;
    assert CallerJob(s.jobs, s.queue, WRef(s.ts.worker.pc), t, pc);
    WithoutCloseShape(s, t, a);
    if !a.NoJob? {
      assert s.jobs[pc.j].kind != CLOSE;
    }
  }

  lemma WithoutCloseShape(s: State, t: nat, a: JobAct)
    requires CanJob(s, t, a) && (a.NoJob? || a.Send? || a.SendFails?) && !s.ts.callers[t].pc.k.ForClose?
    ensures var (s', pc) := (DoJobStep(s, t, a), s.ts.callers[t].pc);
            && s'.tab == s.tab && s'.owner == s.owner && s'.ts.worker == s.ts.worker
            && |s'.ts.callers| == |s.ts.callers| && s'.ts.callers == s.ts.callers[t := s'.ts.callers[t]]
            && Refs(s'.ts.callers[t].pc) == Refs(s.ts.callers[t].pc) == []
            && (a.NoJob? ==> s'.jobs == s.jobs && s'.queue == s.queue)
            && (a.Send? ==> s'.jobs == s.jobs && s'.queue == s.queue + [pc.j])
            && (a.SendFails? ==> s'.jobs == s.jobs - {pc.j} && s'.queue == s.queue)
  {}

  lemma JobChanges(s: State, t: nat, a: JobAct)
    requires CanJob(s, t, a)
    requires a.Start? || a.Return? || a.TakeTrack? || a.TakeMtx? || a.LinkDown? || a.Woken? || a.TimesOut?
    ensures var s' := DoJobStep(s, t, a);
            && s'.tab == s.tab && s'.owner == s.owner && s'.queue == s.queue && s'.jobs == s.jobs
            && s'.ts.worker == s.ts.worker
            && |s'.ts.callers| == |s.ts.callers| && s'.ts.callers == s.ts.callers[t := s'.ts.callers[t]]
            && Refs(s'.ts.callers[t].pc) == Refs(s.ts.callers[t].pc)
  {}

  lemma NewJobChanges(s: State, t: nat, j: nat)
    requires JobInv(s.jobs, s.queue, s.ts) && CanJob(s, t, NewJob(j))
    ensures var s' := DoJobStep(s, t, NewJob(j));
            && s'.tab == s.tab && s'.owner == s.owner && s'.queue == s.queue && s'.ts.worker == s.ts.worker
            && |s'.ts.callers| == |s.ts.callers| && s'.ts.callers == s.ts.callers[t := s'.ts.callers[t]]
            && Refs(s'.ts.callers[t].pc) == Refs(s.ts.callers[t].pc)
            && (forall i :: Closes(s'.jobs, s'.queue, s.ts.worker.pc, i) <==> Closes(s.jobs, s.queue, s.ts.worker.pc, i))
            && (forall i :: Closes(s.jobs, s.queue, s.ts.worker.pc, i) ==> i in s'.jobs && s'.jobs[i] == s.jobs[i])
  {}

  lemma WaitEnds(s: State, t: nat, a: JobAct)
    requires JobInv(s.jobs, s.queue, s.ts) && CanJob(s, t, a) && (a.DoGiveUp? || a.DoReap?)
    ensures var s' := DoJobStep(s, t, a);
            && s'.tab == s.tab && s'.owner == s.owner && s'.queue == s.queue && s'.ts.worker == s.ts.worker
            && |s'.ts.callers| == |s.ts.callers| && s'.ts.callers == s.ts.callers[t := s'.ts.callers[t]]
            && Refs(s'.ts.callers[t].pc) == Refs(s.ts.callers[t].pc)
            && (forall j :: Closes(s'.jobs, s'.queue, s.ts.worker.pc, j) <==> Closes(s.jobs, s.queue, s.ts.worker.pc, j))
            && (forall j :: Closes(s.jobs, s.queue, s.ts.worker.pc, j) ==> j in s'.jobs && s'.jobs[j] == s.jobs[j])
  {
    var pc := s.ts.callers[t].pc;
    assert CallerJob(s.jobs, s.queue, WRef(s.ts.worker.pc), t, pc);
    assert s.jobs[pc.j].kind != CLOSE;
    WaitEndShape(s, t, a);
  }

  lemma WaitEndShape(s: State, t: nat, a: JobAct)
    requires CanJob(s, t, a) && (a.DoGiveUp? || a.DoReap?) && Sync(s.ts.callers[t].pc.k)
    ensures var (s', j) := (DoJobStep(s, t, a), s.ts.callers[t].pc.j);
            && s'.tab == s.tab && s'.owner == s.owner && s'.queue == s.queue && s'.ts.worker == s.ts.worker
            && |s'.ts.callers| == |s.ts.callers| && s'.ts.callers == s.ts.callers[t := s'.ts.callers[t]]
            && Refs(s'.ts.callers[t].pc) == Refs(s.ts.callers[t].pc) == []
            && (s'.jobs == s.jobs || s'.jobs == s.jobs - {j} || s'.jobs == s.jobs[j := s.jobs[j].(abandoned := true)])
  {}

  // ---- mounting and unmounting ----

  lemma OpensKeepsBackings(s: State, t: nat, b: nat)
    requires BackInvOf(s) && CanMount(s, t, Opens(b))
    ensures BackInvOf(DoMountStep(s, t, Opens(b)))
  {
    var s' := DoMountStep(s, t, Opens(b));
    forall u | 0 <= u < |s'.ts.callers|
      ensures Carried(s'.tab.backings, s'.owner, u, Refs(s'.ts.callers[u].pc)) {
      assert Carried(s.tab.backings, s.owner, u, Refs(s.ts.callers[u].pc));
    }
    forall d | 0 <= d < |s'.tab.drv| ensures SlotOwns(s'.tab.drv, s'.tab.backings, s'.owner, d) {
      assert SlotOwns(s.tab.drv, s.tab.backings, s.owner, d);
    }
    forall c | c in s'.owner
      ensures OwnerOk(s'.tab.drv, s'.tab.backings, s'.jobs, s'.queue, s'.ts.callers, s'.ts.worker.pc, c, s'.owner[c]) {
      if c == b {
        assert Old(b, false) in Refs(s'.ts.callers[t].pc);
      } else {
        assert OwnerOk(s.tab.drv, s.tab.backings, s.jobs, s.queue, s.ts.callers, s.ts.worker.pc, c, s.owner[c]);
      }
    }
    forall j | Closes(s'.jobs, s'.queue, s'.ts.worker.pc, j) ensures CloseOk(s'.tab.backings, s'.owner, s'.jobs, j) {
      assert CloseOk(s.tab.backings, s.owner, s.jobs, j);
    }
  }

  lemma SwapKeepsBackings(s: State, t: nat)
    requires BackInvOf(s) && CanMount(s, t, DoSwap)
    ensures BackInvOf(DoMountStep(s, t, DoSwap))
  {
    var s' := DoMountStep(s, t, DoSwap);
    SwappedSlots(s, t);
    forall c | c in s'.owner
      ensures OwnerOk(s'.tab.drv, s'.tab.backings, s'.jobs, s'.queue, s'.ts.callers, s'.ts.worker.pc, c, s'.owner[c]) {
      SwappedOwner(s, t, c);
    }
    forall j | Closes(s'.jobs, s'.queue, s'.ts.worker.pc, j) ensures CloseOk(s'.tab.backings, s'.owner, s'.jobs, j) {
      assert CloseOk(s.tab.backings, s.owner, s.jobs, j);
    }
  }

  lemma SwappedSlots(s: State, t: nat)
    requires BackInvOf(s) && CanMount(s, t, DoSwap)
    ensures var s' := DoMountStep(s, t, DoSwap);
            && s'.jobs == s.jobs && s'.queue == s.queue && s'.ts.worker == s.ts.worker
            && s'.tab.backings == s.tab.backings && s'.owner.Keys == s.owner.Keys && |s'.tab.drv| == |s.tab.drv|
            && (forall b :: b in s.owner && !s.owner[b].InSlot? && s.owner[b] != WithCaller(t) ==> s'.owner[b] == s.owner[b])
            && (forall u :: 0 <= u < |s'.ts.callers| ==> Carried(s'.tab.backings, s'.owner, u, Refs(s'.ts.callers[u].pc)))
            && (forall e :: 0 <= e < |s'.tab.drv| ==> SlotOwns(s'.tab.drv, s'.tab.backings, s'.owner, e))
  {
    SwapChanges(s, t);
    OthersUnswapped(s, DoMountStep(s, t, DoSwap), t, s.ts.callers[t].pc.d);
  }

  /** What a swap on drive d leaves to the other tasks and slots. */
  lemma OthersUnswapped(s: State, s': State, t: nat, d: nat)
    requires BackInvOf(s) && t < |s.ts.callers| == |s'.ts.callers| && d < |s.tab.drv| == |s'.tab.drv|
    requires s'.ts.callers == s.ts.callers[t := s'.ts.callers[t]]
    requires s'.tab.backings == s.tab.backings && s'.owner.Keys == s.owner.Keys
    requires s'.tab.drv == s.tab.drv[d := s'.tab.drv[d]]
    requires forall b :: b in s.owner && s.owner[b] != InSlot(d) && s.owner[b] != WithCaller(t) ==> s'.owner[b] == s.owner[b]
    requires Carried(s'.tab.backings, s'.owner, t, Refs(s'.ts.callers[t].pc))
    requires SlotOwns(s'.tab.drv, s'.tab.backings, s'.owner, d)
    ensures forall u :: 0 <= u < |s'.ts.callers| ==> Carried(s'.tab.backings, s'.owner, u, Refs(s'.ts.callers[u].pc))
    ensures forall e :: 0 <= e < |s'.tab.drv| ==> SlotOwns(s'.tab.drv, s'.tab.backings, s'.owner, e)
  {
    forall u | 0 <= u < |s'.ts.callers|
      ensures Carried(s'.tab.backings, s'.owner, u, Refs(s'.ts.callers[u].pc)) {
      assert Carried(s.tab.backings, s.owner, u, Refs(s.ts.callers[u].pc));
    }
    forall e | 0 <= e < |s'.tab.drv| ensures SlotOwns(s'.tab.drv, s'.tab.backings, s'.owner, e) {
      assert SlotOwns(s.tab.drv, s.tab.backings, s.owner, e);
    }
  }

  lemma SwapChanges(s: State, t: nat)
    requires BackInvOf(s) && CanMount(s, t, DoSwap)
    ensures var (s', pc) := (DoMountStep(s, t, DoSwap), s.ts.callers[t].pc);
            && s'.jobs == s.jobs && s'.queue == s.queue && s'.ts.worker == s.ts.worker
            && |s'.ts.callers| == |s.ts.callers| && s'.ts.callers == s.ts.callers[t := s'.ts.callers[t]]
            && s'.tab.backings == s.tab.backings && s'.owner.Keys == s.owner.Keys
            && s'.tab.drv == s.tab.drv[pc.d := s'.tab.drv[pc.d]]
            && (forall b :: b in s.owner && s.owner[b] != InSlot(pc.d) && s.owner[b] != WithCaller(t) ==> s'.owner[b] == s.owner[b])
            && Carried(s'.tab.backings, s'.owner, t, Refs(s'.ts.callers[t].pc))
            && SlotOwns(s'.tab.drv, s'.tab.backings, s'.owner, pc.d)
  {
    var pc := s.ts.callers[t].pc;
    assert SlotOwns(s.tab.drv, s.tab.backings, s.owner, pc.d);
    assert Carried(s.tab.backings, s.owner, t, Refs(pc));
    if pc.how.Install? {
      assert Refs(pc)[0] == Old(pc.how.b, false);
    }
    SwapShape(s, t);
    SwapOwnerChanges(s.tab.drv, s.tab.backings, s.owner, pc.how, pc.d, t);
  }

  lemma SwapOwnerChanges(drv: seq<Slot>, backings: map<nat, Backing>, owner: map<nat, Owner>, how: How, d: nat, t: nat)
    requires d < |drv| && SlotOwns(drv, backings, owner, d)
    requires how.Install? ==> Carried(backings, owner, t, [Old(how.b, false)])
    ensures var (was, owner') := (drv[d], SwapOwner(owner, drv[d], how, d, t));
            && owner'.Keys == owner.Keys
            && (forall b :: b in owner && owner[b] != InSlot(d) && owner[b] != WithCaller(t) ==> owner'[b] == owner[b])
            && Carried(backings, owner', t, if was.backing.Some? then [Old(was.backing.value, was.remote)] else [])
            && SlotOwns(drv[d := NewSlot(how)], backings, owner', d)
  {
    if how.Install? {
      assert [Old(how.b, false)][0] == Old(how.b, false);
    }
  }

  /** The owners a swap changes: what was in the slot goes to the task, what the task
      brought goes into the slot. */
  function SwapOwner(owner: map<nat, Owner>, was: Slot, how: How, d: nat, t: nat): map<nat, Owner> {
    var mid := if was.backing.Some? then owner[was.backing.value := WithCaller(t)] else owner;
    if how.Install? then mid[how.b := InSlot(d)] else mid
  }

  lemma SwapShape(s: State, t: nat)
    requires CanMount(s, t, DoSwap)
    ensures var (s', pc) := (DoMountStep(s, t, DoSwap), s.ts.callers[t].pc);
            var was := s.tab.drv[pc.d];
            && s'.jobs == s.jobs && s'.queue == s.queue && s'.ts.worker == s.ts.worker
            && |s'.ts.callers| == |s.ts.callers| && s'.ts.callers == s.ts.callers[t := s'.ts.callers[t]]
            && s'.tab.backings == s.tab.backings && s'.owner == SwapOwner(s.owner, was, pc.how, pc.d, t)
            && s'.tab.drv == s.tab.drv[pc.d := NewSlot(pc.how)]
            && Refs(s'.ts.callers[t].pc) == if was.backing.Some? then [Old(was.backing.value, was.remote)] else []
  {}

  lemma SwappedOwner(s: State, t: nat, c: nat)
    requires BackInvOf(s) && CanMount(s, t, DoSwap) && c in DoMountStep(s, t, DoSwap).owner
    ensures var s' := DoMountStep(s, t, DoSwap);
            OwnerOk(s'.tab.drv, s'.tab.backings, s'.jobs, s'.queue, s'.ts.callers, s'.ts.worker.pc, c, s'.owner[c])
  {
    SwapShape(s, t);
    SwappedOwnerOk(s, DoMountStep(s, t, DoSwap), t, c);
  }

  lemma SwappedOwnerOk(s: State, s': State, t: nat, c: nat)
    requires BackInvOf(s) && t < |s.ts.callers| == |s'.ts.callers| && c in s'.owner
    requires var pc := s.ts.callers[t].pc;
             && pc.SwapIn? && pc.d < |s.tab.drv|
             && s'.tab.backings == s.tab.backings && s'.owner == SwapOwner(s.owner, s.tab.drv[pc.d], pc.how, pc.d, t)
             && s'.tab.drv == s.tab.drv[pc.d := NewSlot(pc.how)]
    requires s'.jobs == s.jobs && s'.queue == s.queue && s'.ts.worker == s.ts.worker
    requires s'.ts.callers == s.ts.callers[t := s'.ts.callers[t]]
    requires var was := s.tab.drv[s.ts.callers[t].pc.d];
             Refs(s'.ts.callers[t].pc) == if was.backing.Some? then [Old(was.backing.value, was.remote)] else []
    ensures OwnerOk(s'.tab.drv, s'.tab.backings, s'.jobs, s'.queue, s'.ts.callers, s'.ts.worker.pc, c, s'.owner[c])
  {
    var pc := s.ts.callers[t].pc;
    var was := s.tab.drv[pc.d];
    assert SlotOwns(s.tab.drv, s.tab.backings, s.owner, pc.d);
    assert Carried(s.tab.backings, s.owner, t, Refs(pc));
    if pc.how.Install? {
      assert Refs(pc)[0] == Old(pc.how.b, false);
    }
    assert OwnerOk(s.tab.drv, s.tab.backings, s.jobs, s.queue, s.ts.callers, s.ts.worker.pc, c, s.owner[c]);
    if was.backing == Some(c) {
      assert Old(c, was.remote) in Refs(s'.ts.callers[t].pc);
    }
  }

  /** A backing with owner `o` is closed, and its one reference goes with it. */
  lemma ClosedKeeps(s: State, s': State, b: nat)
    requires BackInvOf(s) && b in s.owner && b in s.tab.backings && !s.owner[b].InSlot?
    requires s'.tab.drv == s.tab.drv && s'.tab.backings == s.tab.backings - {b} && s'.owner == s.owner - {b}
    requires |s'.ts.callers| == |s.ts.callers|
    requires forall u :: 0 <= u < |s.ts.callers| ==>
               Refs(s.ts.callers[u].pc) == DropsOnly(s, b, u) + Refs(s'.ts.callers[u].pc)
    requires forall j :: Closes(s'.jobs, s'.queue, s'.ts.worker.pc, j) ==>
               Closes(s.jobs, s.queue, s.ts.worker.pc, j) && s'.jobs[j] == s.jobs[j] && s.owner[b] != InJob(j)
    requires forall j :: Closes(s.jobs, s.queue, s.ts.worker.pc, j) && s.owner[b] != InJob(j) ==>
               Closes(s'.jobs, s'.queue, s'.ts.worker.pc, j)
    requires WorkerOwns(s'.tab.backings, s'.owner, s'.ts.worker.pc)
    requires s.owner[b] == WithWorker || (s.ts.worker.pc.InstallIn? || s.ts.worker.pc.Discard? ==> s'.ts.worker.pc == s.ts.worker.pc)
    ensures BackInvOf(s')
  {
    forall u | 0 <= u < |s'.ts.callers|
      ensures Carried(s'.tab.backings, s'.owner, u, Refs(s'.ts.callers[u].pc)) {
      ClosedCarried(s.tab.backings, s.owner, b, u, DropsOnly(s, b, u), Refs(s'.ts.callers[u].pc));
    }
    forall e | 0 <= e < |s'.tab.drv| ensures SlotOwns(s'.tab.drv, s'.tab.backings, s'.owner, e) {
      assert SlotOwns(s.tab.drv, s.tab.backings, s.owner, e);
    }
    forall c | c in s'.owner
      ensures OwnerOk(s'.tab.drv, s'.tab.backings, s'.jobs, s'.queue, s'.ts.callers, s'.ts.worker.pc, c, s'.owner[c]) {
      assert OwnerOk(s.tab.drv, s.tab.backings, s.jobs, s.queue, s.ts.callers, s.ts.worker.pc, c, s.owner[c]);
      if s.owner[c].WithCaller? {
        var x :| x in Refs(s.ts.callers[s.owner[c].t].pc) && x.b == c;
        assert x in Refs(s'.ts.callers[s.owner[c].t].pc);
      }
    }
    forall j | Closes(s'.jobs, s'.queue, s'.ts.worker.pc, j) ensures CloseOk(s'.tab.backings, s'.owner, s'.jobs, j) {
      assert CloseOk(s.tab.backings, s.owner, s.jobs, j);
    }
  }

  /** The reference that goes with b, if task u carries it. */
  function DropsOnly(s: State, b: nat, u: nat): seq<Old>
    requires b in s.owner && b in s.tab.backings
  {
    if s.owner[b] == WithCaller(u) then [Old(b, s.tab.backings[b].remote)] else []
  }

  lemma ClosedCarried(backings: map<nat, Backing>, owner: map<nat, Owner>, b: nat, u: nat, gone: seq<Old>, olds: seq<Old>)
    requires b in owner && b in backings && Carried(backings, owner, u, gone + olds)
    requires gone == if owner[b] == WithCaller(u) then [Old(b, backings[b].remote)] else []
    ensures Carried(backings - {b}, owner - {b}, u, olds)
  {
    assert forall i :: 0 <= i < |olds| ==> olds[i] == (gone + olds)[|gone| + i];
    if gone != [] {
      assert (gone + olds)[0].b == b;
    }
  }

  /** A local backing is closed by the caller that took it out of the table. */
  lemma CloseLocalKeepsBackings(s: State, t: nat)
    requires BackInvOf(s) && CanMount(s, t, DoDispose)
    requires s.ts.callers[t].pc.olds != [] && !s.ts.callers[t].pc.olds[0].remote
    ensures BackInvOf(DoMountStep(s, t, DoDispose))
  {
    CloseLocalShape(s, t);
    LocalClosed(s, DoMountStep(s, t, DoDispose), t, s.ts.callers[t].pc.olds);
  }

  lemma LocalClosed(s: State, s': State, t: nat, olds: seq<Old>)
    requires BackInvOf(s) && t < |s.ts.callers| == |s'.ts.callers| && olds != [] && !olds[0].remote && Refs(s.ts.callers[t].pc) == olds
    requires s'.tab == s.tab.(backings := s.tab.backings - {olds[0].b}) && s'.owner == s.owner - {olds[0].b}
    requires s'.jobs == s.jobs && s'.queue == s.queue && s'.ts.worker == s.ts.worker
    requires s'.ts.callers == s.ts.callers[t := s'.ts.callers[t]] && Refs(s'.ts.callers[t].pc) == olds[1..]
    ensures BackInvOf(s')
  {
    assert Carried(s.tab.backings, s.owner, t, olds);
    assert olds == [olds[0]] + olds[1..];
    ClosedKeeps(s, s', olds[0].b);
  }

  lemma CloseLocalShape(s: State, t: nat)
    requires CanMount(s, t, DoDispose)
    requires s.ts.callers[t].pc.olds != [] && !s.ts.callers[t].pc.olds[0].remote
    ensures var (s', olds) := (DoMountStep(s, t, DoDispose), s.ts.callers[t].pc.olds);
            && s'.tab == s.tab.(backings := s.tab.backings - {olds[0].b}) && s'.owner == s.owner - {olds[0].b}
            && s'.jobs == s.jobs && s'.queue == s.queue && s'.ts.worker == s.ts.worker
            && |s'.ts.callers| == |s.ts.callers| && s'.ts.callers == s.ts.callers[t := s'.ts.callers[t]]
            && Refs(s'.ts.callers[t].pc) == olds[1..] && Refs(s.ts.callers[t].pc) == olds
  {}

  lemma {:induction false} SweepOldsAre(drv: seq<Slot>, n: nat)
    requires n <= |drv|
    ensures forall x :: x in SweepOlds(drv, n) <==> exists d :: 0 <= d < n && Swept(drv[d]) && x == Old(drv[d].backing.value, true)
    ensures (forall d, e :: 0 <= d < e < n && Swept(drv[d]) && Swept(drv[e]) ==> drv[d].backing != drv[e].backing)
            ==> forall i, k :: 0 <= i < k < |SweepOlds(drv, n)| ==> SweepOlds(drv, n)[i].b != SweepOlds(drv, n)[k].b
  {
    if n > 0 {
      SweepOldsAre(drv, n - 1);
      var r := SweepOlds(drv, n - 1);
      assert forall i :: 0 <= i < |r| ==> r[i] in r;
    }
  }

  /** The sweep takes exactly the live remote drives' backings out of the table, each
      once, and the sweeping task becomes their owner. */
  lemma SweepTakes(drv: seq<Slot>, backings: map<nat, Backing>, owner: map<nat, Owner>, t: nat)
    requires |drv| == MAX_DRIVE && owner.Keys == backings.Keys
    requires forall d :: 0 <= d < |drv| ==> SlotOwns(drv, backings, owner, d)
    ensures Carried(backings, SweepOwner(owner, drv, t), t, SweepOlds(drv, MAX_DRIVE))
    ensures forall b :: b in owner ==>
              var o := SweepOwner(owner, drv, t)[b];
              if owner[b].InSlot? && owner[b].d < MAX_DRIVE && Swept(drv[owner[b].d]) && drv[owner[b].d].backing == Some(b)
              then o == WithCaller(t) && Old(b, true) in SweepOlds(drv, MAX_DRIVE)
              else o == owner[b]
  {
    var olds := SweepOlds(drv, MAX_DRIVE);
    SweepOldsAre(drv, MAX_DRIVE);
    forall d, e | 0 <= d < e < MAX_DRIVE && Swept(drv[d]) && Swept(drv[e]) ensures drv[d].backing != drv[e].backing {
      assert SlotOwns(drv, backings, owner, d) && SlotOwns(drv, backings, owner, e);
    }
    forall i | 0 <= i < |olds|
      ensures olds[i].b in owner && olds[i].b in backings && backings[olds[i].b].remote && olds[i] == Old(olds[i].b, true) {
      assert olds[i] in olds;
      var d :| 0 <= d < MAX_DRIVE && Swept(drv[d]) && olds[i] == Old(drv[d].backing.value, true);
      assert SlotOwns(drv, backings, owner, d);
    }
    forall i | 0 <= i < |olds| ensures SweepOwner(owner, drv, t)[olds[i].b] == WithCaller(t) {
      assert olds[i] in olds;
    }
    forall b | b in owner && Old(b, true) in olds
      ensures owner[b].InSlot? && owner[b].d < MAX_DRIVE && Swept(drv[owner[b].d]) && drv[owner[b].d].backing == Some(b) {
      var d :| 0 <= d < MAX_DRIVE && Swept(drv[d]) && Old(b, true) == Old(drv[d].backing.value, true);
      assert SlotOwns(drv, backings, owner, d);
    }
  }

  lemma SweepKeepsBackings(s: State, t: nat)
    requires BackInvOf(s) && CanMount(s, t, DoSweep)
    ensures BackInvOf(DoMountStep(s, t, DoSweep))
  {
    SweepTakes(s.tab.drv, s.tab.backings, s.owner, t);
    SweepShape(s, t);
    SweptKeeps(s, DoMountStep(s, t, DoSweep), t);
  }

  lemma SweepShape(s: State, t: nat)
    requires CanMount(s, t, DoSweep)
    ensures var s' := DoMountStep(s, t, DoSweep);
            && s'.tab.backings == s.tab.backings && s'.owner == SweepOwner(s.owner, s.tab.drv, t)
            && |s'.tab.drv| == MAX_DRIVE
            && (forall d :: 0 <= d < MAX_DRIVE ==>
                  s'.tab.drv[d] == if Swept(s.tab.drv[d]) then Unslot(s.tab.drv[d]) else s.tab.drv[d])
            && s'.jobs == s.jobs && s'.queue == s.queue && s'.ts.worker == s.ts.worker
            && |s'.ts.callers| == |s.ts.callers| && s'.ts.callers == s.ts.callers[t := s'.ts.callers[t]]
            && Refs(s'.ts.callers[t].pc) == SweepOlds(s.tab.drv, MAX_DRIVE) && Refs(s.ts.callers[t].pc) == []
  {}

  lemma SweptKeeps(s: State, s': State, t: nat)
    requires BackInvOf(s) && t < |s.ts.callers| == |s'.ts.callers| && |s'.tab.drv| == MAX_DRIVE
    requires s'.tab.backings == s.tab.backings && s'.owner.Keys == s.owner.Keys
    requires s'.jobs == s.jobs && s'.queue == s.queue && s'.ts.worker == s.ts.worker
    requires s'.ts.callers == s.ts.callers[t := s'.ts.callers[t]] && Refs(s.ts.callers[t].pc) == []
    requires Carried(s'.tab.backings, s'.owner, t, Refs(s'.ts.callers[t].pc))
    requires forall d :: 0 <= d < MAX_DRIVE ==>
               s'.tab.drv[d] == if Swept(s.tab.drv[d]) then Unslot(s.tab.drv[d]) else s.tab.drv[d]
    requires forall b :: b in s.owner ==>
               if s.owner[b].InSlot? && s.owner[b].d < MAX_DRIVE && Swept(s.tab.drv[s.owner[b].d])
                  && s.tab.drv[s.owner[b].d].backing == Some(b)
               then s'.owner[b] == WithCaller(t) && Old(b, true) in Refs(s'.ts.callers[t].pc)
               else s'.owner[b] == s.owner[b]
    ensures BackInvOf(s')
  {
    forall u | 0 <= u < |s'.ts.callers|
      ensures Carried(s'.tab.backings, s'.owner, u, Refs(s'.ts.callers[u].pc)) {
      assert Carried(s.tab.backings, s.owner, u, Refs(s.ts.callers[u].pc));
    }
    forall e | 0 <= e < |s'.tab.drv| ensures SlotOwns(s'.tab.drv, s'.tab.backings, s'.owner, e) {
      assert SlotOwns(s.tab.drv, s.tab.backings, s.owner, e);
    }
    forall c | c in s'.owner
      ensures OwnerOk(s'.tab.drv, s'.tab.backings, s'.jobs, s'.queue, s'.ts.callers, s'.ts.worker.pc, c, s'.owner[c]) {
      assert OwnerOk(s.tab.drv, s.tab.backings, s.jobs, s.queue, s.ts.callers, s.ts.worker.pc, c, s.owner[c]);
    }
    forall j | Closes(s'.jobs, s'.queue, s'.ts.worker.pc, j) ensures CloseOk(s'.tab.backings, s'.owner, s'.jobs, j) {
      assert CloseOk(s.tab.backings, s.owner, s.jobs, j);
    }
  }

  lemma MountKeepsBackings(s: State, t: nat, a: MountAct)
    requires BackInvOf(s) && JobInv(s.jobs, s.queue, s.ts) && CanMount(s, t, a)
    ensures BackInvOf(DoMountStep(s, t, a))
  {
    if a.Opens? { OpensKeepsBackings(s, t, a.b); }
    else if a.DoSwap? { SwapKeepsBackings(s, t); }
    else if a.DoSweep? { SweepKeepsBackings(s, t); }
    else if a.DoDispose? && s.ts.callers[t].pc.olds != [] && !s.ts.callers[t].pc.olds[0].remote { CloseLocalKeepsBackings(s, t); }
    else {
      assert CallerJob(s.jobs, s.queue, WRef(s.ts.worker.pc), t, s.ts.callers[t].pc);
      OtherMounts(s, t, a);
      SameRefs(s, DoMountStep(s, t, a), t);
    }
  }

  lemma OtherMounts(s: State, t: nat, a: MountAct)
    requires CanMount(s, t, a) && !a.Opens? && !a.DoSwap? && !a.DoSweep?
    requires a.DoDispose? ==> s.ts.callers[t].pc.olds == [] || s.ts.callers[t].pc.olds[0].remote
    requires s.ts.callers[t].pc.SwapWant? ==> !s.ts.callers[t].pc.how.Install?
    ensures var s' := DoMountStep(s, t, a);
            && s'.tab == s.tab && s'.owner == s.owner && s'.jobs == s.jobs && s'.queue == s.queue
            && s'.ts.worker == s.ts.worker
            && |s'.ts.callers| == |s.ts.callers| && s'.ts.callers == s.ts.callers[t := s'.ts.callers[t]]
            && Refs(s'.ts.callers[t].pc) == Refs(s.ts.callers[t].pc)
  {
    if a.DoDispose? {
      DisposeShape(s, t, a);
    } else {
      PlainMounts(s, t, a);
    }
  }

  lemma DisposeShape(s: State, t: nat, a: MountAct)
    requires CanMount(s, t, a) && a.DoDispose?
    requires s.ts.callers[t].pc.olds == [] || s.ts.callers[t].pc.olds[0].remote
    ensures var s' := DoMountStep(s, t, a);
            && s'.tab == s.tab && s'.owner == s.owner && s'.jobs == s.jobs && s'.queue == s.queue
            && s'.ts.worker == s.ts.worker
            && |s'.ts.callers| == |s.ts.callers| && s'.ts.callers == s.ts.callers[t := s'.ts.callers[t]]
            && Refs(s'.ts.callers[t].pc) == Refs(s.ts.callers[t].pc)
  {}

  lemma PlainMounts(s: State, t: nat, a: MountAct)
    requires CanMount(s, t, a) && !a.Opens? && !a.DoSwap? && !a.DoSweep? && !a.DoDispose?
    requires s.ts.callers[t].pc.SwapWant? ==> !s.ts.callers[t].pc.how.Install?
    ensures var s' := DoMountStep(s, t, a);
            && s'.tab == s.tab && s'.owner == s.owner && s'.jobs == s.jobs && s'.queue == s.queue
            && s'.ts.worker == s.ts.worker
            && |s'.ts.callers| == |s.ts.callers| && s'.ts.callers == s.ts.callers[t := s'.ts.callers[t]]
            && Refs(s'.ts.callers[t].pc) == Refs(s.ts.callers[t].pc)
  {}

  // ---- the worker ----

  /** The worker moves without opening, closing or installing a backing. */
  lemma WorkSameRefs(s: State, s': State)
    requires BackInvOf(s)
    requires s'.tab.drv == s.tab.drv && s'.tab.backings == s.tab.backings && s'.owner == s.owner
    requires s'.ts.callers == s.ts.callers
    requires forall j :: Closes(s'.jobs, s'.queue, s'.ts.worker.pc, j) <==> Closes(s.jobs, s.queue, s.ts.worker.pc, j)
    requires forall j :: Closes(s.jobs, s.queue, s.ts.worker.pc, j) ==> j in s'.jobs && s'.jobs[j] == s.jobs[j]
    requires WorkerOwns(s.tab.backings, s.owner, s'.ts.worker.pc)
    requires s.ts.worker.pc.InstallIn? || s.ts.worker.pc.Discard? ==>
               (s'.ts.worker.pc.InstallIn? || s'.ts.worker.pc.Discard?) && s'.ts.worker.pc.b == s.ts.worker.pc.b
    ensures BackInvOf(s')
  {}

  predicate PlainWork(a: WorkAct) {
    a.WTakeTrack? || a.WTakeMtx? || a.WReads? || a.WWrites? || a.WFillRead? || a.WFillWrite? || a.WOpenFails?
    || a.WCompletes? || a.WUnlocks? || a.WFrees?
  }

  predicate PlainTrack(a: WorkAct) { a.WReads? || a.WWrites? || a.WFillRead? || a.WFillWrite? }

  lemma PlainWorkShape(s: State, a: WorkAct)
    requires CanWork(s, a) && PlainWork(a)
    ensures var s' := DoWorkStep(s, a);
            && s'.tab.drv == s.tab.drv && s'.tab.backings == s.tab.backings && s'.owner == s.owner
            && s'.ts.callers == s.ts.callers && s'.queue == s.queue
  {
    PlainWorkTable(s, a);
    PlainWorkTasks(s, a);
  }

  lemma PlainWorkTable(s: State, a: WorkAct)
    requires CanWork(s, a) && PlainWork(a)
    ensures DoWorkStep(s, a).tab.drv == s.tab.drv && DoWorkStep(s, a).tab.backings == s.tab.backings
  {
    if PlainTrack(a) {
      TrackTable(s, a);
    } else {
      OtherTable(s, a);
    }
  }

  lemma TrackTable(s: State, a: WorkAct)
    requires CanWork(s, a) && PlainTrack(a)
    ensures DoWorkStep(s, a).tab.drv == s.tab.drv && DoWorkStep(s, a).tab.backings == s.tab.backings
  {}

  lemma OtherTable(s: State, a: WorkAct)
    requires CanWork(s, a) && PlainWork(a) && !PlainTrack(a)
    ensures DoWorkStep(s, a).tab.drv == s.tab.drv && DoWorkStep(s, a).tab.backings == s.tab.backings
  {}

  lemma PlainWorkTasks(s: State, a: WorkAct)
    requires CanWork(s, a) && PlainWork(a)
    ensures var s' := DoWorkStep(s, a);
            s'.owner == s.owner && s'.ts.callers == s.ts.callers && s'.queue == s.queue
  {}

  lemma PlainWorkPcs(s: State, a: WorkAct)
    requires CanWork(s, a) && PlainWork(a)
    ensures var (pc, pc') := (s.ts.worker.pc, DoWorkStep(s, a).ts.worker.pc);
            && (pc.Closing? || pc.InstallIn? || pc.Discard? ==> pc' == pc)
            && (pc'.Closing? || pc'.InstallIn? || pc'.Discard? || pc'.Xfer? ==> pc' == pc)
  {
    if PlainTrack(a) {
      TrackPcs(s, a);
    } else {
      OtherPcs(s, a);
    }
  }

  lemma TrackPcs(s: State, a: WorkAct)
    requires CanWork(s, a) && PlainTrack(a)
    ensures var (pc, pc') := (s.ts.worker.pc, DoWorkStep(s, a).ts.worker.pc);
            && (pc.Closing? || pc.InstallIn? || pc.Discard? ==> pc' == pc)
            && (pc'.Closing? || pc'.InstallIn? || pc'.Discard? || pc'.Xfer? ==> pc' == pc)
  {}

  lemma OtherPcs(s: State, a: WorkAct)
    requires CanWork(s, a) && PlainWork(a) && !PlainTrack(a)
    ensures var (pc, pc') := (s.ts.worker.pc, DoWorkStep(s, a).ts.worker.pc);
            && (pc.Closing? || pc.InstallIn? || pc.Discard? ==> pc' == pc)
            && (pc'.Closing? || pc'.InstallIn? || pc'.Discard? || pc'.Xfer? ==> pc' == pc)
  {}

  lemma PlainWorkFills(s: State, a: WorkAct)
    requires CanWork(s, a) && PlainWork(a)
    ensures var (pc, pc') := (s.ts.worker.pc, DoWorkStep(s, a).ts.worker.pc);
            pc'.FillRead? || pc'.FillWrite? ==> pc' == pc || (pc.Xfer? && pc'.b == pc.b)
  {
    if PlainTrack(a) {
      TrackFills(s, a);
    } else {
      OtherFills(s, a);
    }
  }

  lemma TrackFills(s: State, a: WorkAct)
    requires CanWork(s, a) && PlainTrack(a)
    ensures var (pc, pc') := (s.ts.worker.pc, DoWorkStep(s, a).ts.worker.pc);
            pc'.FillRead? || pc'.FillWrite? ==> pc' == pc || (pc.Xfer? && pc'.b == pc.b)
  {}

  lemma OtherFills(s: State, a: WorkAct)
    requires CanWork(s, a) && PlainWork(a) && !PlainTrack(a)
    ensures var (pc, pc') := (s.ts.worker.pc, DoWorkStep(s, a).ts.worker.pc);
            pc'.FillRead? || pc'.FillWrite? ==> pc' == pc || (pc.Xfer? && pc'.b == pc.b)
  {}

  lemma PlainWorkJobs(s: State, a: WorkAct)
    requires CanWork(s, a) && PlainWork(a)
    ensures var (s', pc) := (DoWorkStep(s, a), s.ts.worker.pc);
            || s'.jobs == s.jobs
            || (WRef(pc).Some? && !pc.Closing? && pc.j in s.jobs
                && (s'.jobs == s.jobs - {pc.j}
                    || (pc.j in s'.jobs && s'.jobs == s.jobs[pc.j := s'.jobs[pc.j]] && s'.jobs[pc.j].kind == s.jobs[pc.j].kind)))
  {}

  lemma PlainWorkKeepsBackings(s: State, a: WorkAct)
    requires BackInvOf(s) && JobInv(s.jobs, s.queue, s.ts) && CanWork(s, a) && PlainWork(a)
    ensures BackInvOf(DoWorkStep(s, a))
  {
    PlainWorkShape(s, a);
    PlainWorkPcs(s, a);
    PlainWorkFills(s, a);
    PlainWorkJobs(s, a);
    PlainWorkRefs(s, DoWorkStep(s, a));
  }

  lemma PlainWorkRefs(s: State, s': State)
    requires BackInvOf(s) && JobInv(s.jobs, s.queue, s.ts)
    requires s'.tab.drv == s.tab.drv && s'.tab.backings == s.tab.backings && s'.owner == s.owner
    requires s'.ts.callers == s.ts.callers && s'.queue == s.queue
    requires var (pc, pc') := (s.ts.worker.pc, s'.ts.worker.pc);
             && (pc.Closing? || pc.InstallIn? || pc.Discard? ==> pc' == pc)
             && (pc'.Closing? || pc'.InstallIn? || pc'.Discard? || pc'.Xfer? ==> pc' == pc)
             && (pc'.FillRead? || pc'.FillWrite? ==> pc' == pc || (pc.Xfer? && pc'.b == pc.b))
    requires var pc := s.ts.worker.pc;
             || s'.jobs == s.jobs
             || (WRef(pc).Some? && !pc.Closing? && pc.j in s.jobs
                 && (s'.jobs == s.jobs - {pc.j}
                     || (pc.j in s'.jobs && s'.jobs == s.jobs[pc.j := s'.jobs[pc.j]] && s'.jobs[pc.j].kind == s.jobs[pc.j].kind)))
    ensures BackInvOf(s')
  {
    WorkSameRefs(s, s');
  }

  lemma WTakeKeepsBackings(s: State)
    requires BackInvOf(s) && JobInv(s.jobs, s.queue, s.ts) && CanWork(s, WTake)
    ensures BackInvOf(DoWorkStep(s, WTake))
  {}

  lemma LookOwns(tab: Table, owner: map<nat, Owner>, j: nat, job: Job, connected: bool)
    requires TableOk(tab)
    ensures var wpc := AfterLook(tab, j, job, connected);
            WorkerOwns(tab.backings, owner, wpc) && !wpc.Closing? && !wpc.InstallIn? && !wpc.Discard?
  {
    if DriveOk(job.io.drive) {
      assert SlotOk(tab, tab.drv[job.io.drive]);
    }
  }

  lemma WLookKeepsBackings(s: State, connected: bool)
    requires BackInvOf(s) && CanWork(s, WLook(connected))
    ensures BackInvOf(DoWorkStep(s, WLook(connected)))
  {
    LookOwns(s.tab, s.owner, s.ts.worker.pc.j, s.jobs[s.ts.worker.pc.j], connected);
    WorkSameRefs(s, DoWorkStep(s, WLook(connected)));
  }

  lemma WOpensKeepsBackings(s: State, a: WorkAct)
    requires BackInvOf(s) && CanWork(s, a) && a.WOpens?
    ensures BackInvOf(DoWorkStep(s, a))
  {
    var s' := DoWorkStep(s, a);
    forall u | 0 <= u < |s'.ts.callers|
      ensures Carried(s'.tab.backings, s'.owner, u, Refs(s'.ts.callers[u].pc)) {
      assert Carried(s.tab.backings, s.owner, u, Refs(s.ts.callers[u].pc));
    }
    forall d | 0 <= d < |s'.tab.drv| ensures SlotOwns(s'.tab.drv, s'.tab.backings, s'.owner, d) {
      assert SlotOwns(s.tab.drv, s.tab.backings, s.owner, d);
    }
    forall c | c in s'.owner
      ensures OwnerOk(s'.tab.drv, s'.tab.backings, s'.jobs, s'.queue, s'.ts.callers, s'.ts.worker.pc, c, s'.owner[c]) {
      if c != a.b {
        assert OwnerOk(s.tab.drv, s.tab.backings, s.jobs, s.queue, s.ts.callers, s.ts.worker.pc, c, s.owner[c]);
      }
    }
    forall j | Closes(s'.jobs, s'.queue, s'.ts.worker.pc, j) ensures CloseOk(s'.tab.backings, s'.owner, s'.jobs, j) {
      assert CloseOk(s.tab.backings, s.owner, s.jobs, j);
    }
  }

  /** A drive is mounted exactly when a backing is installed on it. */
  predicate FlagsOk(drv: seq<Slot>) { forall d :: 0 <= d < |drv| ==> (drv[d].mounted <==> drv[d].backing.Some?) }

  lemma WInstallsKeepsBackings(s: State)
    requires BackInvOf(s) && FlagsOk(s.tab.drv) && CanWork(s, WInstalls)
    ensures BackInvOf(DoWorkStep(s, WInstalls))
  {
    var s' := DoWorkStep(s, WInstalls);
    var (b, d) := (s.ts.worker.pc.b, s.jobs[s.ts.worker.pc.j].io.drive);
    if s'.ts.worker.pc.Discard? {
      WorkSameRefs(s, s');
    } else {
      InstalledKeeps(s, s', b, d);
    }
  }

  lemma InstalledKeeps(s: State, s': State, b: nat, d: nat)
    requires BackInvOf(s) && d < MAX_DRIVE && s.ts.worker.pc.InstallIn? && s.ts.worker.pc.b == b
    requires s.tab.drv[d].backing == None && s.tab.drv[d].remote
    requires |s'.tab.drv| == |s.tab.drv| && s'.tab.drv == s.tab.drv[d := s'.tab.drv[d]]
    requires s'.tab.drv[d].backing == Some(b) && s'.tab.drv[d].remote
    requires s'.tab.backings == s.tab.backings && b in s.owner && s'.owner == s.owner[b := InSlot(d)]
    requires s'.jobs == s.jobs && s'.queue == s.queue && s'.ts.callers == s.ts.callers && s'.ts.worker.pc.Complete?
    ensures BackInvOf(s')
  {
    forall u | 0 <= u < |s'.ts.callers|
      ensures Carried(s'.tab.backings, s'.owner, u, Refs(s'.ts.callers[u].pc)) {
      assert Carried(s.tab.backings, s.owner, u, Refs(s.ts.callers[u].pc));
    }
    forall e | 0 <= e < |s'.tab.drv| ensures SlotOwns(s'.tab.drv, s'.tab.backings, s'.owner, e) {
      assert SlotOwns(s.tab.drv, s.tab.backings, s.owner, e);
    }
    forall c | c in s'.owner
      ensures OwnerOk(s'.tab.drv, s'.tab.backings, s'.jobs, s'.queue, s'.ts.callers, s'.ts.worker.pc, c, s'.owner[c]) {
      assert OwnerOk(s.tab.drv, s.tab.backings, s.jobs, s.queue, s.ts.callers, s.ts.worker.pc, c, s.owner[c]);
    }
    forall j | Closes(s'.jobs, s'.queue, s'.ts.worker.pc, j) ensures CloseOk(s'.tab.backings, s'.owner, s'.jobs, j) {
      assert CloseOk(s.tab.backings, s.owner, s.jobs, j);
    }
  }

  lemma WClosesKeepsBackings(s: State, a: WorkAct)
    requires BackInvOf(s) && JobInv(s.jobs, s.queue, s.ts) && CanWork(s, a) && (a.WCloses? || a.WDiscards?)
    ensures BackInvOf(DoWorkStep(s, a))
  {
    var pc := s.ts.worker.pc;
    var b := if a.WCloses? then s.jobs[pc.j].bclose else pc.b;
    if a.WCloses? {
      assert Closes(s.jobs, s.queue, pc, pc.j);
      assert CloseOk(s.tab.backings, s.owner, s.jobs, pc.j);
    }
    ClosedKeeps(s, DoWorkStep(s, a), b);
  }

  /** A write through a handle leaves every backing where it is, and of its kind. */
  lemma FileKeepsBackings(s: State, a: FileAct)
    requires BackInvOf(s) && CanFile(s, a)
    ensures BackInvOf(DoFileStep(s, a))
  {
    var s' := DoFileStep(s, a);
    forall t | 0 <= t < |s.ts.callers| ensures Carried(s'.tab.backings, s.owner, t, Refs(s.ts.callers[t].pc)) {
      assert Carried(s.tab.backings, s.owner, t, Refs(s.ts.callers[t].pc));
    }
    forall d | 0 <= d < |s.tab.drv| ensures SlotOwns(s.tab.drv, s'.tab.backings, s.owner, d) {
      assert SlotOwns(s.tab.drv, s.tab.backings, s.owner, d);
    }
    forall j | Closes(s.jobs, s.queue, s.ts.worker.pc, j) ensures CloseOk(s'.tab.backings, s.owner, s.jobs, j) {
      assert CloseOk(s.tab.backings, s.owner, s.jobs, j);
    }
    forall b | b in s.owner
      ensures OwnerOk(s.tab.drv, s'.tab.backings, s.jobs, s.queue, s.ts.callers, s.ts.worker.pc, b, s.owner[b]) {
      assert OwnerOk(s.tab.drv, s.tab.backings, s.jobs, s.queue, s.ts.callers, s.ts.worker.pc, b, s.owner[b]);
    }
  }

  /** Every step keeps every backing with exactly one owner. */
  lemma KeepsBackings(s: State, a: Action)
    requires BackInvOf(s) && JobInv(s.jobs, s.queue, s.ts) && FlagsOk(s.tab.drv) && Enabled(s, a)
    ensures BackInvOf(Apply(s, a))
  {
    match a
    case OfIo(t, x) => IoKeepsBackings(s, t, x);
    case OfJob(t, x) => JobKeepsBackings(s, t, x);
    case OfMount(t, x) => MountKeepsBackings(s, t, x);
    case OfGuard(t, x) => GuardKeepsBackings(s, t, x);
    case OfWorker(x) =>
      if PlainWork(x) { PlainWorkKeepsBackings(s, x); }
      else if x.WTake? { WTakeKeepsBackings(s); }
      else if x.WLook? { WLookKeepsBackings(s, x.connected); }
      else if x.WOpens? { WOpensKeepsBackings(s, x); }
      else if x.WInstalls? { WInstallsKeepsBackings(s); }
      else { WClosesKeepsBackings(s, x); }
    case OfFile(x) => FileKeepsBackings(s, x);
  }
}
