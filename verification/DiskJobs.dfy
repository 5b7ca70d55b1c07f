/** Job ownership: whatever the order of timeout, abandonment, completion and enqueue
    failure, every job has exactly one party that will free it, and nobody refers to a
    job that has been freed. */
module DiskJobs {
  import opened Bytes
  import opened Protocol
  import opened DiskCore
  import opened DiskMachine

  /** The job a caller holds a pointer to. */
  function JRef(pc: Pc): Option<nat> {
    match pc
    case Post(j, _) => Some(j)
    case Wait(j, _) => Some(j)
    case GiveUp(j, _) => Some(j)
    case Reap(j, _) => Some(j)
    case _ => None
  }

  /** The job the worker holds a pointer to. */
  function WRef(pc: WPc): Option<nat> {
    match pc
    case WIdle => None
    case Unlock => None
    case _ => Some(pc.j)
  }

  predicate KontShape(k: Kont) {
    match k
    case ForRead(io) => 1 <= io.len <= TRACK_BUF
    case ForWrite(io, data) => 1 <= io.len <= TRACK_BUF && |data| == io.len
    case ForMount(d) => DriveOk(d)
    case ForRemount(i) => i < MAX_DRIVE
    case ForClose(_, _, next) => NextShape(next)
  }

  predicate NextShape(next: Next) { next.OpenRemote? ==> DriveOk(next.drive) }

  /** Sizes and drive numbers that the checks before a pc have established. */
  predicate PcShape(pc: Pc) {
    match pc
    case WriteIn(io, data) => |data| == io.len
    case MakeJob(k) => KontShape(k)
    case Post(_, k) => KontShape(k)
    case Wait(_, k) => KontShape(k)
    case GiveUp(_, k) => KontShape(k)
    case Reap(_, k) => KontShape(k)
    case MountWant(d, _, _) => DriveOk(d)
    case MountIn(d, _, _) => DriveOk(d)
    case SwapWant(d, how, next) => DriveOk(d) && NextShape(next) && !how.Install?
    case SwapIn(d, how, next) => DriveOk(d) && NextShape(next) && (how.Install? ==> !next.Outer?)
    case SwapRel(_, next) => NextShape(next)
    case Dispose(_, next) => NextShape(next)
    case _ => true
  }

  /** A job and the continuation of the caller waiting for it agree. */
  predicate Matches(k: Kont, job: Job) {
    Sync(k) && job.sync && job == MadeJob(k, job.maker)
      .(completed := job.completed, abandoned := job.abandoned, signalled := job.signalled,
        stored := job.stored, result := job.result)
  }

  predicate JobShape(job: Job) {
    && (job.kind == READ || job.kind == WRITE ==> 1 <= job.io.len <= TRACK_BUF)
    && (job.kind == WRITE ==> |job.data| == job.io.len)
    && (job.kind == CLOSE ==> !job.sync)
    && (job.completed <==> job.signalled)
    && (job.completed ==> job.sync && !job.abandoned)
    && (job.abandoned ==> job.sync)
    && (job.completed && job.kind == WRITE && job.result == OK ==> job.stored)
  }

  /** What holds of a caller that points to job j. */
  predicate CallerJob(jobs: map<nat, Job>, queue: seq<nat>, wref: Option<nat>, t: nat, pc: Pc) {
    PcShape(pc) &&
    (JRef(pc).Some? ==>
      var j := pc.j;
      && j in jobs && jobs[j].maker == t && !jobs[j].abandoned
      && (pc.Post? ==> jobs[j] == MadeJob(pc.k, t) && j !in queue && wref != Some(j))
      && (!pc.Post? ==> Matches(pc.k, jobs[j]))
      && (pc.Wait? || pc.GiveUp? ==> jobs[j].completed || j in queue || wref == Some(j))
      && (pc.Reap? ==> jobs[j].completed))
  }

  /** The creator still points to the job: then it is the creator that frees it. */
  predicate Held(jobs: map<nat, Job>, callers: seq<Caller>, j: nat)
    requires j in jobs
  {
    jobs[j].maker < |callers| && JRef(callers[jobs[j].maker].pc) == Some(j)
  }

  /** Exactly one party is to free j: its creator, or else the queue-and-worker side. */
  predicate JobOk(jobs: map<nat, Job>, queue: seq<nat>, wref: Option<nat>, callers: seq<Caller>, j: nat)
    requires j in jobs
  {
    var working := j in queue || wref == Some(j);
    && JobShape(jobs[j])
    && (jobs[j].completed ==> !working && Held(jobs, callers, j))
    && (working && jobs[j].sync && !jobs[j].abandoned ==> Held(jobs, callers, j))
    && (working && (!jobs[j].sync || jobs[j].abandoned) ==> !Held(jobs, callers, j))
    && (!Held(jobs, callers, j) ==> working)
  }

  predicate WorkerJob(jobs: map<nat, Job>, pc: WPc) {
    && (WRef(pc).Some? ==> pc.j in jobs)
    && (pc.Look? ==> jobs[pc.j].kind != CLOSE)
    && (pc.Xfer? ==> jobs[pc.j].kind == READ || jobs[pc.j].kind == WRITE)
    && (pc.FillRead? ==> jobs[pc.j].kind == READ && |pc.stage| == jobs[pc.j].io.len)
    && (pc.FillWrite? ==> jobs[pc.j].kind == WRITE && (pc.ok ==> jobs[pc.j].stored))
    && (pc.Opening? || pc.InstallIn? || pc.Discard? ==> jobs[pc.j].kind == MOUNT)
    && (pc.Closing? ==> jobs[pc.j].kind == CLOSE)
    && (pc.Complete? && jobs[pc.j].kind == WRITE && pc.code == OK ==> jobs[pc.j].stored)
    && (pc.FreeJob? ==> !jobs[pc.j].sync || jobs[pc.j].abandoned)
  }

  predicate QueueOk(jobs: map<nat, Job>, queue: seq<nat>, wref: Option<nat>) {
    && (forall i :: 0 <= i < |queue| ==> queue[i] in jobs && wref != Some(queue[i]))
    && (forall i, k :: 0 <= i < k < |queue| ==> queue[i] != queue[k])
  }

  ghost predicate JobInv(jobs: map<nat, Job>, queue: seq<nat>, ts: Tasks) {
    var wref := WRef(ts.worker.pc);
    && QueueOk(jobs, queue, wref)
    && WorkerJob(jobs, ts.worker.pc)
    && (forall t :: 0 <= t < |ts.callers| ==> CallerJob(jobs, queue, wref, t, ts.callers[t].pc))
    && (forall j :: j in jobs ==> JobOk(jobs, queue, wref, ts.callers, j))
  }

  // ---- one lemma for each kind of step ----

  /** A caller that points to no job moves to another pc without one. */
  lemma FreeMove(jobs: map<nat, Job>, queue: seq<nat>, ts: Tasks, ts': Tasks, t: nat)
    requires JobInv(jobs, queue, ts) && t < |ts.callers| && ts'.worker.pc == ts.worker.pc
    requires |ts'.callers| == |ts.callers| && ts'.callers == ts.callers[t := ts'.callers[t]]
    requires JRef(ts'.callers[t].pc) == JRef(ts.callers[t].pc)
    requires CallerJob(jobs, queue, WRef(ts.worker.pc), t, ts'.callers[t].pc)
    ensures JobInv(jobs, queue, ts')
  {}

  /** The caller's job changes hands or disappears: t's reference and one job change. */
  lemma JobMove(jobs: map<nat, Job>, queue: seq<nat>, ts: Tasks,
                jobs': map<nat, Job>, queue': seq<nat>, ts': Tasks, t: nat, j: nat)
    requires JobInv(jobs, queue, ts) && t < |ts.callers| && ts'.worker.pc == ts.worker.pc
    requires |ts'.callers| == |ts.callers| && ts'.callers == ts.callers[t := ts'.callers[t]]
    requires JRef(ts.callers[t].pc) == Some(j) || (JRef(ts.callers[t].pc).None? && j !in jobs)
    requires JRef(ts'.callers[t].pc) == Some(j) || JRef(ts'.callers[t].pc).None?
    requires forall i :: i != j ==> (i in jobs' <==> i in jobs) && (i in jobs' && i in jobs ==> jobs'[i] == jobs[i])
    requires forall i :: i != j ==> (i in queue' <==> i in queue)
    requires QueueOk(jobs', queue', WRef(ts.worker.pc))
    requires WorkerJob(jobs', ts.worker.pc)
    requires CallerJob(jobs', queue', WRef(ts.worker.pc), t, ts'.callers[t].pc)
    requires j in jobs' ==> JobOk(jobs', queue', WRef(ts.worker.pc), ts'.callers, j)
    ensures JobInv(jobs', queue', ts')
  {
    var wref := WRef(ts.worker.pc);
    assert CallerJob(jobs, queue, wref, t, ts.callers[t].pc);
    forall u | 0 <= u < |ts'.callers| && u != t ensures CallerJob(jobs', queue', wref, u, ts'.callers[u].pc) {
      assert CallerJob(jobs, queue, wref, u, ts.callers[u].pc);
    }
    forall i | i in jobs' && i != j ensures JobOk(jobs', queue', wref, ts'.callers, i) {
      assert JobOk(jobs, queue, wref, ts.callers, i);
      assert Held(jobs', ts'.callers, i) == Held(jobs, ts.callers, i);
    }
  }

  /** The worker moves, and only its own job may change. */
  lemma WorkMove(jobs: map<nat, Job>, queue: seq<nat>, ts: Tasks,
                 jobs': map<nat, Job>, queue': seq<nat>, ts': Tasks, j: nat)
    requires JobInv(jobs, queue, ts) && ts'.callers == ts.callers
    requires j in jobs
    requires forall i :: i != j ==> (i in jobs' <==> i in jobs) && (i in jobs' && i in jobs ==> jobs'[i] == jobs[i])
    requires forall i :: i != j ==> ((i in queue' || WRef(ts'.worker.pc) == Some(i)) <==> (i in queue || WRef(ts.worker.pc) == Some(i)))
    requires forall i :: i != j ==> (i in queue' <==> i in queue)
    requires QueueOk(jobs', queue', WRef(ts'.worker.pc))
    requires WorkerJob(jobs', ts'.worker.pc)
    requires j in jobs' ==> JobOk(jobs', queue', WRef(ts'.worker.pc), ts.callers, j)
    requires forall t :: 0 <= t < |ts.callers| && JRef(ts.callers[t].pc) == Some(j) ==>
               CallerJob(jobs', queue', WRef(ts'.worker.pc), t, ts.callers[t].pc)
    ensures JobInv(jobs', queue', ts')
  {}

  // ---- every step ----

  lemma IoKeepsJobs(s: State, t: nat, a: IoAct)
    requires JobInv(s.jobs, s.queue, s.ts) && CanIo(s, t, a)
    ensures var s' := DoIoStep(s, t, a); JobInv(s'.jobs, s'.queue, s'.ts)
  {
    var s' := DoIoStep(s, t, a);
    assert CallerJob(s.jobs, s.queue, WRef(s.ts.worker.pc), t, s.ts.callers[t].pc);
    if !a.DoCopy? {
      CheckTrackExact(s.tab, s.ts.callers[t].pc.io);
    }
    FreeMove(s.jobs, s.queue, s.ts, s'.ts, t);
  }

  lemma NewJobKeepsJobs(s: State, t: nat, j: nat)
    requires JobInv(s.jobs, s.queue, s.ts) && CanJob(s, t, NewJob(j))
    ensures var s' := DoJobStep(s, t, NewJob(j)); JobInv(s'.jobs, s'.queue, s'.ts)
  {
    var s' := DoJobStep(s, t, NewJob(j));
    var wref := WRef(s.ts.worker.pc);
    assert CallerJob(s.jobs, s.queue, wref, t, s.ts.callers[t].pc);
    JobMove(s.jobs, s.queue, s.ts, s'.jobs, s'.queue, s'.ts, t, j);
  }

  /** The job goes to the end of the queue; its maker waits for it or lets it go. */
  lemma SendShape(s: State, t: nat)
    requires CanJob(s, t, Send)
    ensures var (s', j, k) := (DoJobStep(s, t, Send), s.ts.callers[t].pc.j, s.ts.callers[t].pc.k);
            && s'.jobs == s.jobs && s'.queue == s.queue + [j] && s'.ts.worker == s.ts.worker
            && s'.ts.callers == s.ts.callers[t := s'.ts.callers[t]]
            && s'.ts.callers[t].pc == if Sync(k) then Wait(j, k) else After(k, OK)
  {}

  lemma SendKeepsJobs(s: State, t: nat)
    requires JobInv(s.jobs, s.queue, s.ts) && CanJob(s, t, Send)
    ensures var s' := DoJobStep(s, t, Send); JobInv(s'.jobs, s'.queue, s'.ts)
  {
    SendShape(s, t);
    var s' := DoJobStep(s, t, Send);
    JobQueued(s.jobs, s.queue, s.ts, s'.queue, s'.ts, t);
  }

  lemma JobQueued(jobs: map<nat, Job>, queue: seq<nat>, ts: Tasks, queue': seq<nat>, ts': Tasks, t: nat)
    requires JobInv(jobs, queue, ts) && t < |ts.callers| && ts.callers[t].pc.Post?
    requires var (j, k) := (ts.callers[t].pc.j, ts.callers[t].pc.k);
             && queue' == queue + [j] && ts'.worker == ts.worker
             && |ts'.callers| == |ts.callers| && ts'.callers == ts.callers[t := ts'.callers[t]]
             && ts'.callers[t].pc == if Sync(k) then Wait(j, k) else After(k, OK)
    ensures JobInv(jobs, queue', ts')
  {
    var (wref, j) := (WRef(ts.worker.pc), ts.callers[t].pc.j);
    assert CallerJob(jobs, queue, wref, t, ts.callers[t].pc);
    assert JobOk(jobs, queue, wref, ts.callers, j);
    assert queue'[|queue|] == j;
    JobMove(jobs, queue, ts, jobs, queue', ts', t, j);
  }

  /** A job leaves: freed by the caller that owns it. */
  lemma DropShape(s: State, t: nat, a: JobAct)
    requires CanJob(s, t, a) && (a.SendFails? || a.DoReap?) && PcShape(s.ts.callers[t].pc)
    ensures var s' := DoJobStep(s, t, a);
            && s'.jobs == s.jobs - {s.ts.callers[t].pc.j} && s'.queue == s.queue && s'.ts.worker == s.ts.worker
            && |s'.ts.callers| == |s.ts.callers| && s'.ts.callers == s.ts.callers[t := s'.ts.callers[t]]
            && JRef(s'.ts.callers[t].pc).None? && PcShape(s'.ts.callers[t].pc)
  {}

  lemma DropKeepsJobs(s: State, t: nat, a: JobAct)
    requires JobInv(s.jobs, s.queue, s.ts) && CanJob(s, t, a) && (a.SendFails? || a.DoReap?)
    ensures var s' := DoJobStep(s, t, a); JobInv(s'.jobs, s'.queue, s'.ts)
  {
    assert CallerJob(s.jobs, s.queue, WRef(s.ts.worker.pc), t, s.ts.callers[t].pc);
    DropShape(s, t, a);
    var s' := DoJobStep(s, t, a);
    JobDropped(s.jobs, s.queue, s.ts, s'.jobs, s'.ts, t, s.ts.callers[t].pc.j);
  }

  lemma JobDropped(jobs: map<nat, Job>, queue: seq<nat>, ts: Tasks, jobs': map<nat, Job>, ts': Tasks, t: nat, j: nat)
    requires JobInv(jobs, queue, ts) && t < |ts.callers| && ts'.worker == ts.worker
    requires |ts'.callers| == |ts.callers| && ts'.callers == ts.callers[t := ts'.callers[t]]
    requires (ts.callers[t].pc.Post? || ts.callers[t].pc.Reap?) && ts.callers[t].pc.j == j && jobs' == jobs - {j}
    requires JRef(ts'.callers[t].pc).None? && PcShape(ts'.callers[t].pc)
    ensures JobInv(jobs', queue, ts')
  {
    var wref := WRef(ts.worker.pc);
    assert CallerJob(jobs, queue, wref, t, ts.callers[t].pc);
    assert JobOk(jobs, queue, wref, ts.callers, j);
    JobMove(jobs, queue, ts, jobs', queue, ts', t, j);
  }

  lemma LateResultKeepsJobs(s: State, t: nat)
    requires JobInv(s.jobs, s.queue, s.ts) && CanJob(s, t, DoGiveUp) && s.jobs[s.ts.callers[t].pc.j].completed
    ensures var s' := DoJobStep(s, t, DoGiveUp); JobInv(s'.jobs, s'.queue, s'.ts)
  {
    var s' := DoJobStep(s, t, DoGiveUp);
    var wref := WRef(s.ts.worker.pc);
    assert CallerJob(s.jobs, s.queue, wref, t, s.ts.callers[t].pc);
    var j := s.ts.callers[t].pc.j;
    assert JobOk(s.jobs, s.queue, wref, s.ts.callers, j);
    FreeMove(s.jobs, s.queue, s.ts, s'.ts, t);
  }

  /** The job that t gives up on becomes the worker's, and t refers to it no more. */
  lemma AbandonShape(s: State, t: nat)
    requires JobInv(s.jobs, s.queue, s.ts) && CanJob(s, t, DoGiveUp) && !s.jobs[s.ts.callers[t].pc.j].completed
    ensures var (s', j) := (DoJobStep(s, t, DoGiveUp), s.ts.callers[t].pc.j);
            && j in s.jobs && s'.jobs == s.jobs[j := s.jobs[j].(abandoned := true)] && s'.queue == s.queue
            && s'.ts.worker == s.ts.worker && |s'.ts.callers| == |s.ts.callers|
            && s'.ts.callers == s.ts.callers[t := s'.ts.callers[t]]
            && JRef(s'.ts.callers[t].pc).None? && PcShape(s'.ts.callers[t].pc)
  {
    assert CallerJob(s.jobs, s.queue, WRef(s.ts.worker.pc), t, s.ts.callers[t].pc);
  }

  lemma AbandonKeepsJobs(s: State, t: nat)
    requires JobInv(s.jobs, s.queue, s.ts) && CanJob(s, t, DoGiveUp) && !s.jobs[s.ts.callers[t].pc.j].completed
    ensures var s' := DoJobStep(s, t, DoGiveUp); JobInv(s'.jobs, s'.queue, s'.ts)
  {
    AbandonShape(s, t);
    var s' := DoJobStep(s, t, DoGiveUp);
    JobAbandoned(s.jobs, s.queue, s.ts, s'.jobs, s'.ts, t, s.ts.callers[t].pc.j);
  }

  lemma JobAbandoned(jobs: map<nat, Job>, queue: seq<nat>, ts: Tasks, jobs': map<nat, Job>, ts': Tasks, t: nat, j: nat)
    requires JobInv(jobs, queue, ts) && t < |ts.callers| && ts'.worker.pc == ts.worker.pc
    requires |ts'.callers| == |ts.callers| && ts'.callers == ts.callers[t := ts'.callers[t]]
    requires ts.callers[t].pc.GiveUp? && ts.callers[t].pc.j == j && j in jobs && !jobs[j].completed
    requires jobs' == jobs[j := jobs[j].(abandoned := true)]
    requires JRef(ts'.callers[t].pc).None? && PcShape(ts'.callers[t].pc)
    ensures JobInv(jobs', queue, ts')
  {
    var wref := WRef(ts.worker.pc);
    assert CallerJob(jobs, queue, wref, t, ts.callers[t].pc);
    assert JobOk(jobs, queue, wref, ts.callers, j);
    JobMove(jobs, queue, ts, jobs', queue, ts', t, j);
  }

  lemma GiveUpKeepsJobs(s: State, t: nat)
    requires JobInv(s.jobs, s.queue, s.ts) && CanJob(s, t, DoGiveUp)
    ensures var s' := DoJobStep(s, t, DoGiveUp); JobInv(s'.jobs, s'.queue, s'.ts)
  {
    if s.jobs[s.ts.callers[t].pc.j].completed {
      LateResultKeepsJobs(s, t);
    } else {
      AbandonKeepsJobs(s, t);
    }
  }

  /** Steps that leave the task's job, if it has one, as it is. */
  lemma OtherJobShape(s: State, t: nat, a: JobAct)
    requires CanJob(s, t, a) && PcShape(s.ts.callers[t].pc)
    requires a.Start? || a.Return? || a.TakeTrack? || a.TakeMtx? || a.LinkDown? || a.NoJob?
    ensures var (s', pc) := (DoJobStep(s, t, a), s.ts.callers[t].pc);
            && s'.jobs == s.jobs && s'.queue == s.queue && s'.ts.worker == s.ts.worker
            && |s'.ts.callers| == |s.ts.callers| && s'.ts.callers == s.ts.callers[t := s'.ts.callers[t]]
            && (s'.ts.callers[t].pc == pc || (JRef(pc).None? && JRef(s'.ts.callers[t].pc).None? && PcShape(s'.ts.callers[t].pc)))
  {}

  lemma OtherJobStepsKeepJobs(s: State, t: nat, a: JobAct)
    requires JobInv(s.jobs, s.queue, s.ts) && CanJob(s, t, a)
    requires a.Start? || a.Return? || a.TakeTrack? || a.TakeMtx? || a.LinkDown? || a.NoJob?
    ensures var s' := DoJobStep(s, t, a); JobInv(s'.jobs, s'.queue, s'.ts)
  {
    assert CallerJob(s.jobs, s.queue, WRef(s.ts.worker.pc), t, s.ts.callers[t].pc);
    OtherJobShape(s, t, a);
    FreeMove(s.jobs, s.queue, s.ts, DoJobStep(s, t, a).ts, t);
  }

  lemma WaitEndKeepsJobs(s: State, t: nat, a: JobAct)
    requires JobInv(s.jobs, s.queue, s.ts) && CanJob(s, t, a)
    requires a.Woken? || a.TimesOut?
    ensures var s' := DoJobStep(s, t, a); JobInv(s'.jobs, s'.queue, s'.ts)
  {
    var s' := DoJobStep(s, t, a);
    var wref := WRef(s.ts.worker.pc);
    assert CallerJob(s.jobs, s.queue, wref, t, s.ts.callers[t].pc);
    assert JobOk(s.jobs, s.queue, wref, s.ts.callers, s.ts.callers[t].pc.j);
    FreeMove(s.jobs, s.queue, s.ts, s'.ts, t);
  }

  /** The shape of the pc a mount step leads to. */
  lemma MountShapes(s: State, t: nat, a: MountAct)
    requires CanMount(s, t, a) && PcShape(s.ts.callers[t].pc)
    ensures PcShape(Pc0(DoMountStep(s, t, a), t))
  {
    if a.DoDispose? || a.DoSwap? || a.LeaveSwap? {
      SwapShapes(s, t, a);
    } else {
      OtherMountShapes(s, t, a);
    }
  }

  lemma SwapShapes(s: State, t: nat, a: MountAct)
    requires CanMount(s, t, a) && PcShape(s.ts.callers[t].pc) && (a.DoDispose? || a.DoSwap? || a.LeaveSwap?)
    ensures PcShape(Pc0(DoMountStep(s, t, a), t))
  {}

  lemma OtherMountShapes(s: State, t: nat, a: MountAct)
    requires CanMount(s, t, a) && PcShape(s.ts.callers[t].pc) && !(a.DoDispose? || a.DoSwap? || a.LeaveSwap?)
    ensures PcShape(Pc0(DoMountStep(s, t, a), t))
  {}

  lemma MountNoJob(s: State, t: nat, a: MountAct)
    requires CanMount(s, t, a)
    ensures JRef(Pc0(DoMountStep(s, t, a), t)).None? && JRef(s.ts.callers[t].pc).None?
  {}

  lemma MountKeepsJobs(s: State, t: nat, a: MountAct)
    requires JobInv(s.jobs, s.queue, s.ts) && CanMount(s, t, a)
    ensures var s' := DoMountStep(s, t, a); JobInv(s'.jobs, s'.queue, s'.ts)
  {
    assert CallerJob(s.jobs, s.queue, WRef(s.ts.worker.pc), t, s.ts.callers[t].pc);
    MountShapes(s, t, a);
    MountNoJob(s, t, a);
    MountChanges(s, t, a);
    FreeMove(s.jobs, s.queue, s.ts, DoMountStep(s, t, a).ts, t);
  }

  /** Mount steps move one caller and touch neither jobs nor queue. */
  lemma MountChanges(s: State, t: nat, a: MountAct)
    requires CanMount(s, t, a)
    ensures var s' := DoMountStep(s, t, a);
            && s'.jobs == s.jobs && s'.queue == s.queue && s'.ts.worker == s.ts.worker
            && |s'.ts.callers| == |s.ts.callers| && s'.ts.callers == s.ts.callers[t := s'.ts.callers[t]]
  {}

  lemma GuardShape(s: State, t: nat, a: GuardAct)
    requires CanGuard(s, t, a)
    ensures var s' := DoGuardStep(s, t, a);
            && s'.jobs == s.jobs && s'.queue == s.queue && s'.ts.worker == s.ts.worker
            && |s'.ts.callers| == |s.ts.callers| && s'.ts.callers == s.ts.callers[t := s'.ts.callers[t]]
            && JRef(s.ts.callers[t].pc).None? && JRef(s'.ts.callers[t].pc).None? && PcShape(s'.ts.callers[t].pc)
  {}

  lemma GuardKeepsJobs(s: State, t: nat, a: GuardAct)
    requires JobInv(s.jobs, s.queue, s.ts) && CanGuard(s, t, a)
    ensures var s' := DoGuardStep(s, t, a); JobInv(s'.jobs, s'.queue, s'.ts)
  {
    assert CallerJob(s.jobs, s.queue, WRef(s.ts.worker.pc), t, s.ts.callers[t].pc);
    GuardShape(s, t, a);
    FreeMove(s.jobs, s.queue, s.ts, DoGuardStep(s, t, a).ts, t);
  }

  lemma WTakeShape(s: State)
    requires CanWork(s, WTake)
    ensures var (s', j) := (DoWorkStep(s, WTake), s.queue[0]);
            && s'.jobs == s.jobs && s'.queue == s.queue[1..] && s'.ts.callers == s.ts.callers
            && s'.ts.worker.pc == if s.jobs[j].kind == CLOSE then Closing(j) else Look(j)
  {}

  lemma WTakeKeepsJobs(s: State)
    requires JobInv(s.jobs, s.queue, s.ts) && CanWork(s, WTake)
    ensures var s' := DoWorkStep(s, WTake); JobInv(s'.jobs, s'.queue, s'.ts)
  {
    WTakeShape(s);
    JobTaken(s.jobs, s.queue, s.ts, DoWorkStep(s, WTake).ts);
  }

  lemma JobTaken(jobs: map<nat, Job>, queue: seq<nat>, ts: Tasks, ts': Tasks)
    requires JobInv(jobs, queue, ts) && ts.worker.pc.WIdle? && queue != [] && queue[0] in jobs && ts'.callers == ts.callers
    requires ts'.worker.pc == if jobs[queue[0]].kind == CLOSE then Closing(queue[0]) else Look(queue[0])
    ensures JobInv(jobs, queue[1..], ts')
  {}

  /** The worker keeps its job and changes none. */
  lemma WorkSame(jobs: map<nat, Job>, queue: seq<nat>, ts: Tasks, ts': Tasks)
    requires JobInv(jobs, queue, ts) && ts'.callers == ts.callers
    requires WRef(ts'.worker.pc) == WRef(ts.worker.pc) && WorkerJob(jobs, ts'.worker.pc)
    ensures JobInv(jobs, queue, ts')
  {}

  predicate KeepsItsJob(a: WorkAct) {
    !a.WTake? && !a.WCompletes? && !a.WUnlocks? && !a.WFrees? && !a.WWrites?
  }

  lemma WorkStores(s: State, a: WorkAct)
    requires CanWork(s, a) && KeepsItsJob(a)
    ensures var s' := DoWorkStep(s, a);
            s'.jobs == s.jobs && s'.queue == s.queue && s'.ts.callers == s.ts.callers
  {}

  lemma WorkPcs(s: State, a: WorkAct)
    requires WorkerJob(s.jobs, s.ts.worker.pc) && CanWork(s, a) && KeepsItsJob(a)
    ensures var pc' := DoWorkStep(s, a).ts.worker.pc;
            WRef(pc') == WRef(s.ts.worker.pc) && WorkerJob(s.jobs, pc')
  {
    if a.WLook? {
      LookPcs(s, a);
    } else if ForTrack(a) {
      TrackWorkPcs(s, a);
    } else {
      OtherWorkPcs(s, a);
    }
  }

  lemma LookPcs(s: State, a: WorkAct)
    requires WorkerJob(s.jobs, s.ts.worker.pc) && CanWork(s, a) && a.WLook?
    ensures var pc' := DoWorkStep(s, a).ts.worker.pc;
            WRef(pc') == WRef(s.ts.worker.pc) && WorkerJob(s.jobs, pc')
  {}

  predicate ForTrack(a: WorkAct) { a.WReads? || a.WFillRead? || a.WFillWrite? }

  lemma TrackWorkPcs(s: State, a: WorkAct)
    requires WorkerJob(s.jobs, s.ts.worker.pc) && CanWork(s, a) && ForTrack(a)
    ensures var pc' := DoWorkStep(s, a).ts.worker.pc;
            WRef(pc') == WRef(s.ts.worker.pc) && WorkerJob(s.jobs, pc')
  {
    if a.WReads? {
      ReadsPcs(s, a);
    } else {
      FillPcs(s, a);
    }
  }

  lemma ReadsPcs(s: State, a: WorkAct)
    requires WorkerJob(s.jobs, s.ts.worker.pc) && CanWork(s, a) && a.WReads?
    ensures var pc' := DoWorkStep(s, a).ts.worker.pc;
            WRef(pc') == WRef(s.ts.worker.pc) && WorkerJob(s.jobs, pc')
  {}

  lemma FillPcs(s: State, a: WorkAct)
    requires WorkerJob(s.jobs, s.ts.worker.pc) && CanWork(s, a) && (a.WFillRead? || a.WFillWrite?)
    ensures var pc' := DoWorkStep(s, a).ts.worker.pc;
            WRef(pc') == WRef(s.ts.worker.pc) && WorkerJob(s.jobs, pc')
  {}

  lemma OtherWorkPcs(s: State, a: WorkAct)
    requires WorkerJob(s.jobs, s.ts.worker.pc) && CanWork(s, a) && KeepsItsJob(a) && !a.WLook? && !ForTrack(a)
    ensures var pc' := DoWorkStep(s, a).ts.worker.pc;
            WRef(pc') == WRef(s.ts.worker.pc) && WorkerJob(s.jobs, pc')
  {}

  lemma WorkKeepsJobs(s: State, a: WorkAct)
    requires JobInv(s.jobs, s.queue, s.ts) && CanWork(s, a) && KeepsItsJob(a)
    ensures var s' := DoWorkStep(s, a); JobInv(s'.jobs, s'.queue, s'.ts)
  {
    WorkStores(s, a);
    WorkPcs(s, a);
    WorkSame(s.jobs, s.queue, s.ts, DoWorkStep(s, a).ts);
  }

  /** Steps in which the worker changes its job or gives it up. */
  lemma WEndKeepsJobs(s: State, a: WorkAct)
    requires JobInv(s.jobs, s.queue, s.ts) && CanWork(s, a)
    requires a.WCompletes? || a.WFrees? || a.WWrites?
    ensures var s' := DoWorkStep(s, a); JobInv(s'.jobs, s'.queue, s'.ts)
  {
    var j := s.ts.worker.pc.j;
    WEndFacts(s, a, j);
    var s' := DoWorkStep(s, a);
    WorkMove(s.jobs, s.queue, s.ts, s'.jobs, s'.queue, s'.ts, j);
  }

  lemma WEndFacts(s: State, a: WorkAct, j: nat)
    requires JobInv(s.jobs, s.queue, s.ts) && CanWork(s, a)
    requires a.WCompletes? || a.WFrees? || a.WWrites?
    requires WRef(s.ts.worker.pc) == Some(j)
    ensures var s' := DoWorkStep(s, a);
            && s'.queue == s.queue && s'.ts.callers == s.ts.callers
            && (s'.jobs == s.jobs - {j} || (j in s'.jobs && s'.jobs == s.jobs[j := s'.jobs[j]]))
            && (WRef(s'.ts.worker.pc) == Some(j) || WRef(s'.ts.worker.pc).None?)
            && WorkerJob(s'.jobs, s'.ts.worker.pc)
            && (j in s'.jobs ==> JobOk(s'.jobs, s'.queue, WRef(s'.ts.worker.pc), s.ts.callers, j))
            && (forall t :: 0 <= t < |s.ts.callers| && JRef(s.ts.callers[t].pc) == Some(j) ==>
                  CallerJob(s'.jobs, s'.queue, WRef(s'.ts.worker.pc), t, s.ts.callers[t].pc))
  {
    assert JobOk(s.jobs, s.queue, Some(j), s.ts.callers, j);
    WEndJob(s, a, j);
    forall t | 0 <= t < |s.ts.callers| && JRef(s.ts.callers[t].pc) == Some(j)
      ensures var s' := DoWorkStep(s, a);
              CallerJob(s'.jobs, s'.queue, WRef(s'.ts.worker.pc), t, s.ts.callers[t].pc) {
      assert CallerJob(s.jobs, s.queue, Some(j), t, s.ts.callers[t].pc);
      WEndCaller(s, a, j, t);
    }
  }

  lemma WEndJob(s: State, a: WorkAct, j: nat)
    requires CanWork(s, a) && (a.WCompletes? || a.WFrees? || a.WWrites?) && WRef(s.ts.worker.pc) == Some(j)
    requires j !in s.queue && WorkerJob(s.jobs, s.ts.worker.pc)
    requires j in s.jobs && JobOk(s.jobs, s.queue, Some(j), s.ts.callers, j)
    ensures var s' := DoWorkStep(s, a);
            && s'.queue == s.queue && s'.ts.callers == s.ts.callers
            && (s'.jobs == s.jobs - {j} || (j in s'.jobs && s'.jobs == s.jobs[j := s'.jobs[j]]))
            && (WRef(s'.ts.worker.pc) == Some(j) || WRef(s'.ts.worker.pc).None?)
            && WorkerJob(s'.jobs, s'.ts.worker.pc)
            && (j in s'.jobs ==> JobOk(s'.jobs, s'.queue, WRef(s'.ts.worker.pc), s.ts.callers, j))
  {
    if a.WWrites? {
      WWritesJob(s, a, j);
    } else {
      WLeavesJob(s, a, j);
    }
  }

  lemma WWritesJob(s: State, a: WorkAct, j: nat)
    requires CanWork(s, a) && a.WWrites? && WRef(s.ts.worker.pc) == Some(j)
    requires j !in s.queue && WorkerJob(s.jobs, s.ts.worker.pc)
    requires j in s.jobs && JobOk(s.jobs, s.queue, Some(j), s.ts.callers, j)
    ensures var s' := DoWorkStep(s, a);
            && s'.queue == s.queue && s'.ts.callers == s.ts.callers
            && (s'.jobs == s.jobs - {j} || (j in s'.jobs && s'.jobs == s.jobs[j := s'.jobs[j]]))
            && (WRef(s'.ts.worker.pc) == Some(j) || WRef(s'.ts.worker.pc).None?)
            && WorkerJob(s'.jobs, s'.ts.worker.pc)
            && (j in s'.jobs ==> JobOk(s'.jobs, s'.queue, WRef(s'.ts.worker.pc), s.ts.callers, j))
  {}

  lemma WLeavesJob(s: State, a: WorkAct, j: nat)
    requires CanWork(s, a) && (a.WCompletes? || a.WFrees?) && WRef(s.ts.worker.pc) == Some(j)
    requires j !in s.queue && WorkerJob(s.jobs, s.ts.worker.pc)
    requires j in s.jobs && JobOk(s.jobs, s.queue, Some(j), s.ts.callers, j)
    ensures var s' := DoWorkStep(s, a);
            && s'.queue == s.queue && s'.ts.callers == s.ts.callers
            && (s'.jobs == s.jobs - {j} || (j in s'.jobs && s'.jobs == s.jobs[j := s'.jobs[j]]))
            && (WRef(s'.ts.worker.pc) == Some(j) || WRef(s'.ts.worker.pc).None?)
            && WorkerJob(s'.jobs, s'.ts.worker.pc)
            && (j in s'.jobs ==> JobOk(s'.jobs, s'.queue, WRef(s'.ts.worker.pc), s.ts.callers, j))
  {}

  lemma WEndCaller(s: State, a: WorkAct, j: nat, t: nat)
    requires CanWork(s, a) && (a.WCompletes? || a.WFrees? || a.WWrites?) && WRef(s.ts.worker.pc) == Some(j)
    requires t < |s.ts.callers| && JRef(s.ts.callers[t].pc) == Some(j)
    requires CallerJob(s.jobs, s.queue, Some(j), t, s.ts.callers[t].pc) && WorkerJob(s.jobs, s.ts.worker.pc)
    requires j in s.jobs && JobOk(s.jobs, s.queue, Some(j), s.ts.callers, j)
    ensures var s' := DoWorkStep(s, a);
            CallerJob(s'.jobs, s'.queue, WRef(s'.ts.worker.pc), t, s.ts.callers[t].pc)
  {}

  lemma CallerKeepsJobs(s: State, t: nat, a: JobAct)
    requires JobInv(s.jobs, s.queue, s.ts) && CanJob(s, t, a)
    ensures var s' := DoJobStep(s, t, a); JobInv(s'.jobs, s'.queue, s'.ts)
  {
    if a.NewJob? { NewJobKeepsJobs(s, t, a.j); }
    else if a.Send? { SendKeepsJobs(s, t); }
    else if a.SendFails? || a.DoReap? { DropKeepsJobs(s, t, a); }
    else if a.DoGiveUp? { GiveUpKeepsJobs(s, t); }
    else if a.Woken? || a.TimesOut? { WaitEndKeepsJobs(s, t, a); }
    else { OtherJobStepsKeepJobs(s, t, a); }
  }

  lemma WorkerKeepsJobs(s: State, a: WorkAct)
    requires JobInv(s.jobs, s.queue, s.ts) && CanWork(s, a)
    ensures var s' := DoWorkStep(s, a); JobInv(s'.jobs, s'.queue, s'.ts)
  {
    if a.WTake? { WTakeKeepsJobs(s); }
    else if a.WCompletes? || a.WFrees? || a.WWrites? { WEndKeepsJobs(s, a); }
    else if a.WUnlocks? { }
    else { WorkKeepsJobs(s, a); }
  }

  /** Every step keeps the job invariant. */
  lemma KeepsJobs(s: State, a: Action)
    requires JobInv(s.jobs, s.queue, s.ts) && Enabled(s, a)
    ensures var s' := Apply(s, a); JobInv(s'.jobs, s'.queue, s'.ts)
  {
    match a
    case OfIo(t, x) => IoKeepsJobs(s, t, x);
    case OfMount(t, x) => MountKeepsJobs(s, t, x);
    case OfGuard(t, x) => GuardKeepsJobs(s, t, x);
    case OfJob(t, x) => CallerKeepsJobs(s, t, x);
    case OfWorker(x) => WorkerKeepsJobs(s, x);
    case OfFile(x) =>
  }
}
