/** Why a call on a drive was not answered OK: every refusal and every failure has a cause
    that is named here (src/disk/disk.c). */
module DiskRefusals {
  import opened Bytes
  import opened Protocol
  import opened DiskCore
  import opened DiskMachine
  import opened DiskJobs
  import opened DiskBackings
  import opened DiskData
  import opened DiskWriters
  import opened DiskTheorems
  import opened DiskCalls
  import opened DiskAcks
  import opened DiskAnswers

  // ---- the worker ----

  /** Job j is over with this code, or is going to be. */
  predicate Ruled(s: State, j: nat, code: Code) {
    || (j in s.jobs && s.jobs[j].completed && s.jobs[j].result == code)
    || s.ts.worker.pc == Complete(j, code)
    || (s.ts.worker.pc.FillWrite? && s.ts.worker.pc.j == j && !s.ts.worker.pc.ok && code == FAIL)
  }

  /** The codes of a job's end that are accounted for here: all that fail it, and the OK of a
      read. */
  predicate Accounted(jobs: map<nat, Job>, j: nat, code: Code) { j in jobs && (code == OK ==> jobs[j].kind == READ) }

  /** The drive is a mounted remote one, and its session can take the request. */
  predicate Takes(tab: Table, job: Job) {
    && Admitted(tab, job.io) && tab.drv[job.io.drive].remote
    && (job.kind == WRITE ==> !tab.drv[job.io.drive].readonly)
  }

  /** The worker's step ends job j with this code, and this is why: the link is down, the
      server has refused or failed, or the drive cannot take the request, or it no longer has,
      or still has, the session on it that the bytes were read from. */
  predicate Grounds(s: State, a: WorkAct, j: nat, code: Code) {
    var pc := s.ts.worker.pc;
    j in s.jobs && WRef(pc) == Some(j) &&
    match a
    case WLook(connected) => code == INVALID_STATE && (!connected || (s.jobs[j].kind != MOUNT && !Takes(s.tab, s.jobs[j])))
    case WReads(ok) => code == FAIL && !ok
    case WWrites(ok, _) => code == FAIL && !ok
    case WOpenFails(why) => code == why
    case WFillRead => pc.FillRead? && code == if ShowsBacking(s.tab, s.jobs[j].io.drive, pc.b) then OK else INVALID_STATE
    case _ => false
  }

  predicate ShowsBacking(tab: Table, d: int, b: nat) { Installed(tab, d) && tab.drv[d].backing == Some(b) }

  lemma WorkRules(s: State, a: WorkAct, j: nat, code: Code)
    requires DataInv(s) && WorkerJob(s.jobs, s.ts.worker.pc) && CanWork(s, a) && Accounted(s.jobs, j, code) && Ruled(DoWorkStep(s, a), j, code)
    ensures Ruled(s, j, code) || Grounds(s, a, j, code)
  {
    if a.WLook? {
      LookRules(s, a.connected, j, code);
    } else if a.WFillRead? {
      FillRules(s, j, code);
    } else {
      OthersRule(s, a, j, code);
    }
  }

  lemma LookRules(s: State, connected: bool, j: nat, code: Code)
    requires TableOk(s.tab) && WorkerJob(s.jobs, s.ts.worker.pc) && CanWork(s, WLook(connected)) && Accounted(s.jobs, j, code)
    requires Ruled(DoWorkStep(s, WLook(connected)), j, code)
    ensures Ruled(s, j, code) || Grounds(s, WLook(connected), j, code)
  {
    var job := s.jobs[s.ts.worker.pc.j];
    if DriveOk(job.io.drive) {
      assert SlotOk(s.tab, s.tab.drv[job.io.drive]);
    }
    if Takes(s.tab, job) {
      BoundsAreExact(job.io.track, job.io.len, s.tab.backings[s.tab.drv[job.io.drive].backing.value].size);
    }
  }

  lemma MountLook(tab: Table, j: nat, job: Job, connected: bool)
    requires TableOk(tab) && job.kind == MOUNT
    ensures AfterLook(tab, j, job, connected) ==
            if !Waiting(tab, job.io.drive, NameOf(tab, job.io.drive)) then Complete(j, OK)
            else if connected then Opening(j, NameOf(tab, job.io.drive)) else Complete(j, INVALID_STATE)
  {}

  lemma TransferLook(tab: Table, j: nat, job: Job, connected: bool)
    requires TableOk(tab) && job.kind != MOUNT && 1 <= job.io.len <= TRACK_BUF && (job.kind == READ || job.kind == WRITE)
    ensures AfterLook(tab, j, job, connected) ==
            if Takes(tab, job) && connected then Xfer(j, tab.drv[job.io.drive].backing.value) else Complete(j, INVALID_STATE)
  {
    var io := job.io;
    if DriveOk(io.drive) {
      assert SlotOk(tab, tab.drv[io.drive]);
      if Installed(tab, io.drive) {
        BoundsAreExact(io.track, io.len, tab.backings[tab.drv[io.drive].backing.value].size);
      }
    }
  }

  /** What the worker does with a job it has taken up: without the link nothing is opened or
      transferred, and with it exactly what the drive can take. */
  lemma LookIsExact(run: seq<State>, i: nat, connected: bool)
    requires IsRun(run) && i < |run| && CanWork(run[i], WLook(connected))
    ensures var s := run[i];
            var (j, pc') := (s.ts.worker.pc.j, DoWorkStep(s, WLook(connected)).ts.worker.pc);
            var (job, d) := (s.jobs[j], s.jobs[j].io.drive);
            if job.kind == MOUNT && !Waiting(s.tab, d, NameOf(s.tab, d)) then pc' == Complete(j, OK)
            else if !connected then pc' == Complete(j, INVALID_STATE)
            else if job.kind == MOUNT then pc' == Opening(j, NameOf(s.tab, d))
            else if Takes(s.tab, job) then pc' == Xfer(j, s.tab.drv[d].backing.value)
            else pc' == Complete(j, INVALID_STATE)
  {
    var (s, j) := (run[i], run[i].ts.worker.pc.j);
    LookedAtJob(run, i, connected);
    if s.jobs[j].kind == MOUNT {
      MountLook(s.tab, j, s.jobs[j], connected);
    } else {
      TransferLook(s.tab, j, s.jobs[j], connected);
    }
  }

  lemma LookedAtJob(run: seq<State>, i: nat, connected: bool)
    requires IsRun(run) && i < |run| && CanWork(run[i], WLook(connected))
    ensures var job := run[i].jobs[run[i].ts.worker.pc.j];
            job.kind != CLOSE && (job.kind != MOUNT ==> 1 <= job.io.len <= TRACK_BUF)
  {
    RunsKeepInv(run, i);
    var s := run[i];
    assert JobOk(s.jobs, s.queue, WRef(s.ts.worker.pc), s.ts.callers, s.ts.worker.pc.j);
  }

  lemma FillRules(s: State, j: nat, code: Code)
    requires TableOk(s.tab) && WorkerJob(s.jobs, s.ts.worker.pc) && CanWork(s, WFillRead) && Accounted(s.jobs, j, code)
    requires Ruled(DoWorkStep(s, WFillRead), j, code)
    ensures Ruled(s, j, code) || Grounds(s, WFillRead, j, code)
  {
    var d := s.jobs[s.ts.worker.pc.j].io.drive;
    if Installed(s.tab, d) {
      assert SlotOk(s.tab, s.tab.drv[d]);
    }
  }

  lemma OthersRule(s: State, a: WorkAct, j: nat, code: Code)
    requires WorkerJob(s.jobs, s.ts.worker.pc) && CanWork(s, a) && Accounted(s.jobs, j, code) && Ruled(DoWorkStep(s, a), j, code)
    requires !a.WLook? && !a.WFillRead?
    ensures Ruled(s, j, code) || Grounds(s, a, j, code)
  {}

  // ---- back to the cause ----

  lemma JobRulesNothing(s: State, u: nat, a: JobAct, j: nat, code: Code)
    requires WorkerJob(s.jobs, s.ts.worker.pc) && CanJob(s, u, a) && Ruled(DoJobStep(s, u, a), j, code)
    ensures Ruled(s, j, code) && j in s.jobs
  {
    JobStepShape(s, u, a);
    if j in DoJobStep(s, u, a).jobs {
      JobLeavesVerdict(s, u, a, j);
    }
  }

  lemma OthersLeaveRuling(s: State, s': State, j: nat, code: Code)
    requires WorkerJob(s.jobs, s.ts.worker.pc) && s'.jobs == s.jobs && s'.ts.worker == s.ts.worker && Ruled(s', j, code)
    ensures Ruled(s, j, code)
  {}

  /** The step from s to s' is the worker's, and ends job j with this code. If that is OK,
      the track a read asked for is in the cache. */
  ghost predicate Rules(s: State, s': State, j: nat, code: Code) {
    && j in s.jobs && (code == OK ==> s'.tab.cache == Cached(s.jobs[j].io))
    && exists x :: CanWork(s, x) && s' == DoWorkStep(s, x) && Grounds(s, x, j, code)
  }

  lemma GroundsFill(s: State, a: WorkAct, j: nat)
    requires TableOk(s.tab) && CanWork(s, a) && WorkerJob(s.jobs, s.ts.worker.pc) && Grounds(s, a, j, OK)
    ensures DoWorkStep(s, a).tab.cache == Cached(s.jobs[j].io)
  {
    assert SlotOk(s.tab, s.tab.drv[s.jobs[j].io.drive]);
  }

  lemma JobIsThere(s: State, a: Action, t: nat, j: nat, k: Kont)
    requires Inv(s) && Enabled(s, a) && !a.OfJob? && InCall(Apply(s, a), t, j, k)
    ensures InCall(s, t, j, k) && j in s.jobs && s.jobs[j].kind == MadeJob(k, t).kind
  {
    if a.OfWorker? {
      WorkLeavesTasks(s, a.wrk);
    } else {
      AsideInCall(s, a, t, j, k);
    }
    CalledJob(s, t, j, k);
  }

  lemma RuledBefore(s: State, a: Action, t: nat, j: nat, k: Kont, code: Code)
    requires Inv(s) && Enabled(s, a) && InCall(Apply(s, a), t, j, k) && Ruled(Apply(s, a), j, code) && (code == OK ==> k.ForRead?)
    ensures InCall(s, t, j, k) && j in s.jobs && (Ruled(s, j, code) || (a.OfWorker? && Grounds(s, a.wrk, j, code)))
  {
    if !a.OfJob? {
      JobIsThere(s, a, t, j, k);
    }
    if a.OfJob? {
      JobRulesNothing(s, a.t, a.job, j, code);
      JobStepInCall(s, a.t, a.job, t, j, k);
    } else if a.OfWorker? {
      WorkRules(s, a.wrk, j, code);
    } else {
      AsideLeaves(s, a);
      OthersLeaveRuling(s, Apply(s, a), j, code);
    }
  }

  lemma RuledStep(s: State, a: Action, s': State, t: nat, j: nat, k: Kont, code: Code)
    requires Inv(s) && Enabled(s, a) && s' == Apply(s, a) && InCall(s', t, j, k) && Ruled(s', j, code) && (code == OK ==> k.ForRead?)
    ensures InCall(s, t, j, k) && (Ruled(s, j, code) || Rules(s, s', j, code))
  {
    RuledBefore(s, a, t, j, k, code);
    if !Ruled(s, j, code) {
      if code == OK {
        GroundsFill(s, a.wrk, j);
      }
      assert CanWork(s, a.wrk) && s' == DoWorkStep(s, a.wrk) && Grounds(s, a.wrk, j, code);
    }
  }

  lemma BackOneRuling(run: seq<State>, n: nat, t: nat, j: nat, k: Kont, code: Code)
    requires IsRun(run) && n + 1 < |run| && InCall(run[n + 1], t, j, k) && Ruled(run[n + 1], j, code) && (code == OK ==> k.ForRead?)
    ensures InCall(run[n], t, j, k) && (Ruled(run[n], j, code) || Rules(run[n], run[n + 1], j, code))
  {
    RunsKeepInv(run, n);
    var a := StepOf(run, n);
    RuledStep(run[n], a, run[n + 1], t, j, k, code);
  }

  lemma NothingRuledAtFirst(run: seq<State>, i: nat, j: nat, code: Code)
    requires IsRun(run) && i < |run| && Ruled(run[i], j, code)
    ensures i > 0
  {}

  lemma {:induction false} BackToRuling(run: seq<State>, i: nat, t: nat, j: nat, k: Kont, code: Code) returns (n: nat)
    requires IsRun(run) && i < |run| && InCall(run[i], t, j, k) && Ruled(run[i], j, code) && (code == OK ==> k.ForRead?)
    ensures n < i && Rules(run[n], run[n + 1], j, code) && InCallFrom(run, n, i, t, j, k)
  {
    NothingRuledAtFirst(run, i, j, code);
    BackOneRuling(run, i - 1, t, j, k, code);
    if Ruled(run[i - 1], j, code) {
      n := BackToRuling(run, i - 1, t, j, k, code);
    } else {
      n := i - 1;
      JustThere(run, n, t, j, k);
    }
    OneLater(run, n, i - 1, t, j, k);
  }

  // ---- the caller ----

  /** What is wrong with a request that does not fit what is mounted. */
  function Objection(tab: Table, io: Io): Code {
    if !(0 <= io.drive < MAX_DRIVE) then INVALID_ARG
    else if 1 <= io.len <= TRACK_BUF && !Installed(tab, io.drive) then INVALID_STATE
    else INVALID_SIZE
  }

  /** The step of task t that ends its call with this code, and why: the request does not fit
      what is mounted, the card fails, the image has been cut short, the cache has been given
      to another track, the job was not to be had or not done in time, or it has failed. */
  predicate Refuses(s: State, t: nat, a: Action, code: Code) {
    t < |s.ts.callers| &&
    var pc := s.ts.callers[t].pc;
    match a
    case OfIo(u, DoRead(fault)) =>
      u == t && pc.ReadIn? &&
      if !Admitted(s.tab, pc.io) then code == Objection(s.tab, pc.io)
      else
        && code == FAIL && !s.tab.drv[pc.io.drive].remote && s.tab.cache != Cached(pc.io)
        && (fault.Some? || TrackBytes(s.tab, s.tab.images, pc.io).None?)
    case OfIo(u, DoWrite(fault)) =>
      u == t && pc.WriteIn? &&
      if !Admitted(s.tab, pc.io) then code == Objection(s.tab, pc.io)
      else if s.tab.drv[pc.io.drive].readonly then code == NOT_SUPPORTED
      else code == FAIL && !s.tab.drv[pc.io.drive].remote && fault.Some?
    case OfIo(u, DoCopy) => u == t && pc.CopyIn? && code == INVALID_STATE && s.tab.cache != Cached(pc.io)
    case OfJob(u, x) =>
      && u == t && KontOf(pc).Some?
      && ((x.NoJob? && code == NO_MEM) || (x.SendFails? && code == TIMEOUT)
          || (x.DoGiveUp? && code == TIMEOUT && pc.GiveUp? && pc.j in s.jobs && !s.jobs[pc.j].completed)
          || (x.DoReap? && pc.Reap? && Ruled(s, pc.j, code)))
    case _ => false
  }

  predicate Says(s': State, t: nat, code: Code) { t < |s'.ts.callers| && s'.ts.callers[t].pc.Done? && s'.ts.callers[t].pc.code == code }

  lemma IoRefuses(s: State, t: nat, a: IoAct, code: Code)
    requires DataInv(s) && CanIo(s, t, a) && Says(DoIoStep(s, t, a), t, code) && code != OK
    requires a.DoCopy? && s.tab.cache == Cached(s.ts.callers[t].pc.io) ==> s.ts.callers[t].pc.io.len <= |s.tab.buf|
    ensures Refuses(s, t, OfIo(t, a), code)
  {
    var io := s.ts.callers[t].pc.io;
    CheckTrackExact(s.tab, io);
    if DriveOk(io.drive) {
      assert SlotOk(s.tab, s.tab.drv[io.drive]);
    }
  }

  lemma JobRefuses(s: State, t: nat, a: JobAct, code: Code)
    requires CanJob(s, t, a) && KontOf(s.ts.callers[t].pc).Some? && Says(DoJobStep(s, t, a), t, code) && code != OK
    requires var pc := s.ts.callers[t].pc; pc.Reap? ==> pc.j in s.jobs && s.jobs[pc.j].completed
    ensures Refuses(s, t, OfJob(t, a), code)
  {}

  /** Where a call that uses a drive's track can be answered. */
  predicate Answers(pc: Pc) { pc.ReadIn? || pc.WriteIn? || pc.CopyIn? || KontOf(pc).Some? }

  lemma StepRefuses(s: State, a: Action, t: nat, code: Code)
    requires Inv(s) && Enabled(s, a) && t < |s.ts.callers| && Answers(s.ts.callers[t].pc)
    requires Says(Apply(s, a), t, code) && code != OK
    ensures Refuses(s, t, a, code)
  {
    if Actor(a) != Some(t) {
      OthersStay(s, a, t);
    } else if KontOf(s.ts.callers[t].pc).Some? {
      ActsOnJob(s, a, t);
      ReapsFinished(s, t);
      JobRefuses(s, t, a.job, code);
    } else {
      OnTrackActs(s, a, t);
      if a.OfIo? {
        CacheFits(s);
        IoRefuses(s, t, a.io, code);
      } else {
        TakesOnly(s, a, t);
      }
    }
  }

  lemma CacheFits(s: State)
    requires DataInv(s)
    ensures s.tab.cache.Valid? ==> s.tab.cache.len <= |s.tab.buf|
  {}

  lemma ReapsFinished(s: State, t: nat)
    requires JobInv(s.jobs, s.queue, s.ts) && t < |s.ts.callers|
    ensures var pc := s.ts.callers[t].pc; pc.Reap? ==> pc.j in s.jobs && s.jobs[pc.j].completed
  {
    assert CallerJob(s.jobs, s.queue, WRef(s.ts.worker.pc), t, s.ts.callers[t].pc);
  }

  lemma OnTrackActs(s: State, a: Action, t: nat)
    requires Enabled(s, a) && Actor(a) == Some(t) && t < |s.ts.callers|
    requires s.ts.callers[t].pc.ReadIn? || s.ts.callers[t].pc.WriteIn? || s.ts.callers[t].pc.CopyIn?
    ensures a.OfIo? || a == OfJob(t, TakeTrack)
  {}

  lemma TakesOnly(s: State, a: Action, t: nat)
    requires Enabled(s, a) && a == OfJob(t, TakeTrack)
    ensures Pc0(Apply(s, a), t) == Pc0(s, t)
  {}

  // ---- a read that got its job done ----

  lemma CopyAfterOk(s: State, a: Action, t: nat)
    requires JobInv(s.jobs, s.queue, s.ts) && Enabled(s, a) && t < |s.ts.callers| && KontOf(s.ts.callers[t].pc).Some?
    requires Pc0(Apply(s, a), t).CopyIn?
    ensures s.ts.callers[t].pc.Reap? && Ruled(s, s.ts.callers[t].pc.j, OK)
  {
    if Actor(a) != Some(t) {
      OthersStay(s, a, t);
    } else {
      ActsOnJob(s, a, t);
      ReapsFinished(s, t);
      ReapsOk(s, t, a.job);
    }
  }

  lemma ReapsOk(s: State, t: nat, a: JobAct)
    requires CanJob(s, t, a) && KontOf(s.ts.callers[t].pc).Some? && Pc0(DoJobStep(s, t, a), t).CopyIn?
    ensures a.DoReap? && s.jobs[s.ts.callers[t].pc.j].result == OK
  {}

  lemma CopyStep(run: seq<State>, n: nat, t: nat)
    requires IsRun(run) && n + 1 < |run| && t < |run[n].ts.callers| && KontOf(run[n].ts.callers[t].pc).Some?
    requires t < |run[n + 1].ts.callers| && run[n + 1].ts.callers[t].pc.CopyIn?
    ensures run[n].ts.callers[t].pc.Reap? && Ruled(run[n], run[n].ts.callers[t].pc.j, OK)
  {
    RunsKeepInv(run, n);
    var a := StepOf(run, n);
    CopyAfterOk(run[n], a, t);
  }

  lemma CopyFrom(pc: Pc, io: Io)
    requires Within(Read(io), pc) && Goes(pc, CopyIn(io))
    ensures KontOf(pc) == Some(ForRead(io))
  {}

  /** Where the caller took its job back. */
  lemma {:induction false} BackToReap(run: seq<State>, c: nat, e: nat, t: nat, io: Io) returns (m: nat)
    requires IsRun(run) && Spans(run, c, e, t, Read(io)) && run[e].ts.callers[t].pc == CopyIn(io)
    ensures c < m < e && KontOf(run[m].ts.callers[t].pc) == Some(ForRead(io)) && run[m].ts.callers[t].pc.Reap?
    ensures Ruled(run[m], run[m].ts.callers[t].pc.j, OK)
  {
    if e == c + 1 {
      assert false;
    } else {
      Earlier(run, c, e - 1, e, t, Read(io));
      if run[e - 1].ts.callers[t].pc == CopyIn(io) {
        m := BackToReap(run, c, e - 1, t, io);
      } else {
        CallStaysWithin(run, c, e - 1, t, Read(io));
        StepGoes(run, e - 1, t);
        CopyFrom(run[e - 1].ts.callers[t].pc, io);
        CopyStep(run, e - 1, t);
        m := e - 1;
      }
    }
  }

  /** The track was in the cache since: the worker put it there within the call. */
  lemma CopyWasFilled(run: seq<State>, c: nat, e: nat, t: nat, io: Io) returns (n: nat)
    requires IsRun(run) && Spans(run, c, e, t, Read(io)) && run[e].ts.callers[t].pc == CopyIn(io)
    ensures c < n < e && run[n + 1].tab.cache == Cached(io)
  {
    var m := BackToReap(run, c, e, t, io);
    var (j, k) := (run[m].ts.callers[t].pc.j, run[m].ts.callers[t].pc.k);
    n := BackToRuling(run, m, t, j, k, OK);
    Earlier(run, c, m, e, t, Read(io));
    AfterStart(run, c, n, m, t, Read(io), j, k);
    IoOfCall(run, n, t, j, k);
  }

  lemma IoOfCall(run: seq<State>, n: nat, t: nat, j: nat, k: Kont)
    requires IsRun(run) && n < |run| && InCall(run[n], t, j, k) && k.ForRead?
    ensures j in run[n].jobs && run[n].jobs[j].io == k.io
  {
    RunsKeepInv(run, n);
    CalledJob(run[n], t, j, k);
  }

  // ---- the results ----

  /** The answer at step e has a cause: the caller's own last step, or the worker's step
      after some state n within the call that failed the job; or the track was in the cache
      by the step after n, and has been displaced since. */
  ghost predicate Explained(run: seq<State>, c: nat, e: nat, t: nat, n: nat, code: Code) {
    && e + 1 < |run| && t < |run[e].ts.callers|
    && (exists a :: Enabled(run[e], a) && run[e + 1] == Apply(run[e], a) && Refuses(run[e], t, a, code))
    && var pc := run[e].ts.callers[t].pc;
    && (pc.Reap? ==> c < n < e && Rules(run[n], run[n + 1], pc.j, code))
    && (pc.CopyIn? ==> c < n < e && run[n + 1].tab.cache == Cached(pc.io))
  }

  lemma LastStepRefuses(run: seq<State>, e: nat, t: nat, code: Code)
    requires IsRun(run) && e + 1 < |run| && t < |run[e].ts.callers| && Answers(run[e].ts.callers[t].pc)
    requires Says(run[e + 1], t, code) && code != OK
    ensures exists a :: Enabled(run[e], a) && run[e + 1] == Apply(run[e], a) && Refuses(run[e], t, a, code)
    ensures run[e].ts.callers[t].pc.Reap? ==> Ruled(run[e], run[e].ts.callers[t].pc.j, code)
  {
    RunsKeepInv(run, e);
    var a := StepOf(run, e);
    StepRefuses(run[e], a, t, code);
  }

  lemma Explain(run: seq<State>, c: nat, e: nat, t: nat, call: Call, code: Code) returns (n: nat)
    requires IsRun(run) && Spans(run, c, e, t, call) && e + 1 < |run| && Answers(run[e].ts.callers[t].pc)
    requires run[e].ts.callers[t].pc.CopyIn? ==> call == Read(run[e].ts.callers[t].pc.io)
    requires Says(run[e + 1], t, code) && code != OK
    ensures Explained(run, c, e, t, n, code)
  {
    LastStepRefuses(run, e, t, code);
    n := 0;
    if run[e].ts.callers[t].pc.Reap? {
      var (j, k) := (run[e].ts.callers[t].pc.j, run[e].ts.callers[t].pc.k);
      n := BackToRuling(run, e, t, j, k, code);
      AfterStart(run, c, n, e, t, call, j, k);
    } else if run[e].ts.callers[t].pc.CopyIn? {
      n := CopyWasFilled(run, c, e, t, call.io);
    }
  }

  /** A read that is not answered OK has a cause, and its code says which. */
  lemma ReadRefusalIsExplained(run: seq<State>, c: nat, i: nat, t: nat, io: Io, code: Code) returns (e: nat, n: nat)
    requires IsRun(run) && Spans(run, c, i, t, Read(io)) && Says(run[i], t, code) && code != OK
    ensures c < e < i && Explained(run, c, e, t, n, code)
  {
    e := AnsweredAt(run, c, i, t, Read(io));
    if e == c {
      assert false;
    }
    CallStaysWithin(run, c, e, t, Read(io));
    n := Explain(run, c, e, t, Read(io), code);
  }

  /** So has a write: with as many bytes as the track has, it gets to the drive. */
  lemma WriteRefusalIsExplained(run: seq<State>, c: nat, i: nat, t: nat, io: Io, data: seq<byte>, code: Code) returns (e: nat, n: nat)
    requires IsRun(run) && Spans(run, c, i, t, Write(io, data)) && Says(run[i], t, code) && code != OK
    ensures if |data| == io.len then c < e < i && Explained(run, c, e, t, n, code) else code == INVALID_ARG
  {
    e := AnsweredAt(run, c, i, t, Write(io, data));
    n := 0;
    if |data| == io.len {
      if e == c {
        assert false;
      }
      CallStaysWithin(run, c, e, t, Write(io, data));
      n := Explain(run, c, e, t, Write(io, data), code);
    } else {
      CallStaysWithin(run, c, i, t, Write(io, data));
    }
  }

  /** So has the configuration of a drive there is. */
  lemma ConfigureRefusalIsExplained(run: seq<State>, c: nat, i: nat, t: nat, d: nat, url: string, code: Code) returns (e: nat, n: nat)
    requires IsRun(run) && Spans(run, c, i, t, Configure(d, url)) && Says(run[i], t, code) && code != OK && d < MAX_DRIVE
    ensures c < e < i && Explained(run, c, e, t, n, code)
  {
    var call := Configure(d, url);
    e := AnsweredAt(run, c, i, t, call);
    if e == c {
      assert false;
    }
    CallStaysWithin(run, c, e, t, call);
    StepGoes(run, e, t);
    RefusedAtMount(run, e, t, call);
    n := Explain(run, c, e, t, call, code);
  }

  lemma RefusedAtMount(run: seq<State>, e: nat, t: nat, call: Call)
    requires IsRun(run) && e + 1 < |run| && t < |run[e].ts.callers| == |run[e + 1].ts.callers|
    requires call.Configure? && Within(call, run[e].ts.callers[t].pc) && !run[e].ts.callers[t].pc.Done? && run[e + 1].ts.callers[t].pc.Done?
    ensures KontOf(run[e].ts.callers[t].pc).Some?
  {
    StepGoes(run, e, t);
  }
}
