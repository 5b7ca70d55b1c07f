/** What an OK to the mounting of a remote drive says, followed back through the run: the
    worker's verdict, and its look at the drive (src/disk/disk.c). */
module DiskAnswers {
  import opened Bytes
  import opened Protocol
  import opened DiskCore
  import opened DiskMachine
  import opened DiskJobs
  import opened DiskBackings
  import opened DiskData
  import opened DiskWriters
  import opened DiskTheorems
  import opened DiskCalls
  import opened DiskAcks

  /** Job j has been answered OK, or is going to be. */
  predicate Decided(s: State, j: nat) {
    || (j in s.jobs && s.jobs[j].completed && s.jobs[j].result == OK)
    || s.ts.worker.pc == Complete(j, OK)
    || (s.ts.worker.pc.Discard? && s.ts.worker.pc.j == j)
  }

  /** The step at which that is decided: the worker finds that the drive does not wait for a
      session, or that it no longer waits for the one it has opened, or puts it there. */
  predicate Decides(s: State, s': State, j: nat) {
    j in s.jobs &&
    var (pc, d) := (s.ts.worker.pc, s.jobs[j].io.drive);
    || (pc == Look(j) && !Waiting(s.tab, d, NameOf(s.tab, d)))
    || (pc.InstallIn? && pc.j == j && !Waiting(s'.tab, d, pc.url))
  }

  lemma WorkDecides(s: State, a: WorkAct, j: nat)
    requires CanWork(s, a) && WorkerJob(s.jobs, s.ts.worker.pc) && j in s.jobs && s.jobs[j].kind == MOUNT
    requires |s.tab.drv| == MAX_DRIVE && Decided(DoWorkStep(s, a), j)
    ensures Decided(s, j) || Decides(s, DoWorkStep(s, a), j)
  {
    if a.WLook? {
      LookDecides(s, a, j);
    } else if a.WInstalls? {
      InstallDecides(s, j);
    } else {
      OthersDecideNothing(s, a, j);
    }
  }

  lemma LookDecides(s: State, a: WorkAct, j: nat)
    requires CanWork(s, a) && a.WLook? && j in s.jobs && s.jobs[j].kind == MOUNT && Decided(DoWorkStep(s, a), j)
    ensures Decided(s, j) || Decides(s, DoWorkStep(s, a), j)
  {}

  lemma InstallDecides(s: State, j: nat)
    requires CanWork(s, WInstalls) && j in s.jobs && |s.tab.drv| == MAX_DRIVE && Decided(DoWorkStep(s, WInstalls), j)
    ensures Decided(s, j) || Decides(s, DoWorkStep(s, WInstalls), j)
  {}

  lemma OthersDecideNothing(s: State, a: WorkAct, j: nat)
    requires CanWork(s, a) && WorkerJob(s.jobs, s.ts.worker.pc) && j in s.jobs && s.jobs[j].kind == MOUNT
    requires Decided(DoWorkStep(s, a), j) && !a.WLook? && !a.WInstalls?
    ensures Decided(s, j)
  {}

  lemma JobLeavesVerdict(s: State, u: nat, a: JobAct, j: nat)
    requires CanJob(s, u, a) && j in DoJobStep(s, u, a).jobs
    ensures var job := DoJobStep(s, u, a).jobs[j];
            job.completed ==> j in s.jobs && s.jobs[j].completed && s.jobs[j].result == job.result
  {}

  lemma JobDecidesNothing(s: State, u: nat, a: JobAct, j: nat)
    requires WorkerJob(s.jobs, s.ts.worker.pc) && CanJob(s, u, a) && Decided(DoJobStep(s, u, a), j)
    ensures Decided(s, j) && j in s.jobs
  {
    JobStepShape(s, u, a);
    if j in DoJobStep(s, u, a).jobs {
      JobLeavesVerdict(s, u, a, j);
    }
  }

  lemma OthersLeaveVerdict(s: State, s': State, j: nat)
    requires WorkerJob(s.jobs, s.ts.worker.pc) && s'.jobs == s.jobs && s'.ts.worker == s.ts.worker && Decided(s', j)
    ensures Decided(s, j) && j in s.jobs
  {}

  lemma CalledJob(s: State, t: nat, j: nat, k: Kont)
    requires JobInv(s.jobs, s.queue, s.ts) && InCall(s, t, j, k)
    ensures j in s.jobs && s.jobs[j].kind == MadeJob(k, t).kind && s.jobs[j].io == MadeJob(k, t).io
  {
    assert CallerJob(s.jobs, s.queue, WRef(s.ts.worker.pc), t, s.ts.callers[t].pc);
  }

  lemma WorkerDecides(s: State, a: WorkAct, t: nat, j: nat, k: Kont)
    requires JobInv(s.jobs, s.queue, s.ts) && |s.tab.drv| == MAX_DRIVE && CanWork(s, a)
    requires InCall(s, t, j, k) && k.ForMount? && Decided(DoWorkStep(s, a), j)
    ensures Decided(s, j) || Decides(s, DoWorkStep(s, a), j)
  {
    CalledJob(s, t, j, k);
    WorkDecides(s, a, j);
  }

  /** Steps that leave the jobs and the worker alone. */
  predicate Aside(a: Action) { !a.OfJob? && !a.OfWorker? }

  lemma AsideLeaves(s: State, a: Action)
    requires Enabled(s, a) && Aside(a)
    ensures Apply(s, a).jobs == s.jobs && Apply(s, a).ts.worker == s.ts.worker
  {
    match a
    case OfIo(u, x) => IoChanges(s, u, x);
    case OfMount(u, x) => MountChanges(s, u, x);
    case OfGuard(u, x) => GuardChanges(s, u, x);
    case OfFile(x) =>
  }

  lemma AsideInCall(s: State, a: Action, t: nat, j: nat, k: Kont)
    requires JobInv(s.jobs, s.queue, s.ts) && Enabled(s, a) && Aside(a) && InCall(Apply(s, a), t, j, k)
    ensures InCall(s, t, j, k)
  {
    match a
    case OfIo(u, x) => IoMakesNoCall(s, u, x, t);
    case OfMount(u, x) => MountMakesNoCall(s, u, x, t);
    case OfGuard(u, x) => GuardChanges(s, u, x);
    case OfFile(x) =>
  }

  lemma AsideDecides(s: State, a: Action, t: nat, j: nat, k: Kont)
    requires JobInv(s.jobs, s.queue, s.ts) && Enabled(s, a) && Aside(a)
    requires InCall(Apply(s, a), t, j, k) && Decided(Apply(s, a), j)
    ensures InCall(s, t, j, k) && Decided(s, j)
  {
    AsideLeaves(s, a);
    AsideInCall(s, a, t, j, k);
    OthersLeaveVerdict(s, Apply(s, a), j);
  }

  /** Only the worker decides, and only about a job that is there. */
  lemma DecidedBefore(s: State, a: Action, t: nat, j: nat, k: Kont)
    requires JobInv(s.jobs, s.queue, s.ts) && |s.tab.drv| == MAX_DRIVE && Enabled(s, a)
    requires InCall(Apply(s, a), t, j, k) && k.ForMount? && Decided(Apply(s, a), j)
    ensures InCall(s, t, j, k) && (Decided(s, j) || Decides(s, Apply(s, a), j))
  {
    if a.OfJob? {
      JobDecidesNothing(s, a.t, a.job, j);
      JobStepInCall(s, a.t, a.job, t, j, k);
    } else if a.OfWorker? {
      WorkLeavesTasks(s, a.wrk);
      WorkerDecides(s, a.wrk, t, j, k);
    } else {
      AsideDecides(s, a, t, j, k);
    }
  }

  lemma DecidedStep(s: State, a: Action, s': State, t: nat, j: nat, k: Kont)
    requires JobInv(s.jobs, s.queue, s.ts) && |s.tab.drv| == MAX_DRIVE && Enabled(s, a) && s' == Apply(s, a)
    requires InCall(s', t, j, k) && k.ForMount? && Decided(s', j)
    ensures InCall(s, t, j, k) && (Decided(s, j) || Decides(s, s', j))
  {
    DecidedBefore(s, a, t, j, k);
  }

  lemma BackOne(run: seq<State>, n: nat, t: nat, j: nat, k: Kont)
    requires IsRun(run) && n + 1 < |run| && InCall(run[n + 1], t, j, k) && k.ForMount? && Decided(run[n + 1], j)
    ensures InCall(run[n], t, j, k) && (Decided(run[n], j) || Decides(run[n], run[n + 1], j))
  {
    RunsKeepInv(run, n);
    var a := StepOf(run, n);
    DecidedStep(run[n], a, run[n + 1], t, j, k);
  }

  lemma NothingDecidedAtFirst(run: seq<State>, i: nat, j: nat)
    requires IsRun(run) && i < |run| && Decided(run[i], j)
    ensures i > 0
  {}

  lemma {:induction false} BackToDecision(run: seq<State>, i: nat, t: nat, j: nat, k: Kont) returns (n: nat)
    requires IsRun(run) && i < |run| && InCall(run[i], t, j, k) && k.ForMount? && Decided(run[i], j)
    ensures n < i && Decides(run[n], run[n + 1], j) && InCallFrom(run, n, i, t, j, k)
  {
    NothingDecidedAtFirst(run, i, j);
    BackOne(run, i - 1, t, j, k);
    if Decided(run[i - 1], j) {
      n := BackToDecision(run, i - 1, t, j, k);
    } else {
      n := i - 1;
      JustThere(run, n, t, j, k);
    }
    OneLater(run, n, i - 1, t, j, k);
  }

  // ---- back to the worker's look at the drive ----

  /** The worker is opening a session for job j, or has one in its hands, for this URL. */
  predicate OpensFor(s: State, j: nat, url: string) {
    var pc := s.ts.worker.pc;
    (pc.Opening? || pc.InstallIn?) && pc.j == j && pc.url == url
  }

  predicate LooksWaiting(s: State, j: nat, url: string) {
    s.ts.worker.pc == Look(j) && j in s.jobs && Waiting(s.tab, s.jobs[j].io.drive, url)
  }

  lemma WorkOpensFor(s: State, a: WorkAct, j: nat, url: string)
    requires CanWork(s, a) && OpensFor(DoWorkStep(s, a), j, url)
    ensures j in s.jobs || OpensFor(s, j, url)
    ensures OpensFor(s, j, url) || LooksWaiting(s, j, url)
  {
    if a.WLook? {
      LookOpensFor(s, a, j, url);
    } else {
      OthersOpenNothing(s, a, j, url);
    }
  }

  lemma LookOpensFor(s: State, a: WorkAct, j: nat, url: string)
    requires CanWork(s, a) && a.WLook? && OpensFor(DoWorkStep(s, a), j, url)
    ensures LooksWaiting(s, j, url)
  {}

  lemma OthersOpenNothing(s: State, a: WorkAct, j: nat, url: string)
    requires CanWork(s, a) && !a.WLook? && OpensFor(DoWorkStep(s, a), j, url)
    ensures OpensFor(s, j, url)
  {}

  lemma OpensForBefore(s: State, a: Action, t: nat, j: nat, k: Kont, url: string)
    requires JobInv(s.jobs, s.queue, s.ts) && Enabled(s, a)
    requires InCall(Apply(s, a), t, j, k) && OpensFor(Apply(s, a), j, url)
    ensures InCall(s, t, j, k) && (OpensFor(s, j, url) || LooksWaiting(s, j, url))
  {
    if a.OfJob? {
      JobOpensNothing(s, a.t, a.job, t, j, k, url);
    } else if a.OfWorker? {
      WorkLeavesTasks(s, a.wrk);
      WorkOpensFor(s, a.wrk, j, url);
    } else {
      AsideLeaves(s, a);
      AsideInCall(s, a, t, j, k);
    }
  }

  lemma JobOpensNothing(s: State, u: nat, a: JobAct, t: nat, j: nat, k: Kont, url: string)
    requires WorkerJob(s.jobs, s.ts.worker.pc) && CanJob(s, u, a)
    requires InCall(DoJobStep(s, u, a), t, j, k) && OpensFor(DoJobStep(s, u, a), j, url)
    ensures InCall(s, t, j, k) && OpensFor(s, j, url)
  {
    JobStepShape(s, u, a);
    JobStepInCall(s, u, a, t, j, k);
  }

  lemma OpensForStep(s: State, a: Action, s': State, t: nat, j: nat, k: Kont, url: string)
    requires JobInv(s.jobs, s.queue, s.ts) && Enabled(s, a) && s' == Apply(s, a)
    requires InCall(s', t, j, k) && OpensFor(s', j, url)
    ensures InCall(s, t, j, k) && (OpensFor(s, j, url) || LooksWaiting(s, j, url))
  {
    OpensForBefore(s, a, t, j, k, url);
  }

  lemma BackOneLook(run: seq<State>, n: nat, t: nat, j: nat, k: Kont, url: string)
    requires IsRun(run) && n + 1 < |run| && InCall(run[n + 1], t, j, k) && OpensFor(run[n + 1], j, url)
    ensures InCall(run[n], t, j, k) && (OpensFor(run[n], j, url) || LooksWaiting(run[n], j, url))
  {
    RunsKeepInv(run, n);
    var a := StepOf(run, n);
    OpensForStep(run[n], a, run[n + 1], t, j, k, url);
  }

  lemma NothingOpensAtFirst(run: seq<State>, i: nat, j: nat, url: string)
    requires IsRun(run) && i < |run| && OpensFor(run[i], j, url)
    ensures i > 0
  {}

  lemma {:induction false} BackToLooking(run: seq<State>, i: nat, t: nat, j: nat, k: Kont, url: string) returns (l: nat)
    requires IsRun(run) && i < |run| && InCall(run[i], t, j, k) && OpensFor(run[i], j, url)
    ensures l < i && LooksWaiting(run[l], j, url) && InCallFrom(run, l, i, t, j, k)
  {
    NothingOpensAtFirst(run, i, j, url);
    BackOneLook(run, i - 1, t, j, k, url);
    if OpensFor(run[i - 1], j, url) {
      l := BackToLooking(run, i - 1, t, j, k, url);
    } else {
      l := i - 1;
      JustThere(run, l, t, j, k);
    }
    OneLater(run, l, i - 1, t, j, k);
  }

  // ---- the result ----

  /** A caller who asked for a remote drive to be mounted and sees OK can rely on this: the
      worker has looked at the drive, at state l of the very call, and at some state n since
      then the drive was not waiting for the URL it had at the look: it was mounted, and then
      from that URL, or it had been given to something else. */
  lemma MountAnswerIsHonest(run: seq<State>, i: nat, t: nat) returns (l: nat, n: nat)
    requires IsRun(run) && i < |run| && CanJob(run[i], t, DoReap) && run[i].ts.callers[t].pc.k.ForMount?
    requires DoJobStep(run[i], t, DoReap).ts.callers[t].pc == Done(OK, [])
    ensures var (j, k) := (run[i].ts.callers[t].pc.j, run[i].ts.callers[t].pc.k);
            && l <= n <= i && InCallFrom(run, l, i, t, j, k) && run[l].ts.worker.pc == Look(j)
            && !Waiting(run[n].tab, k.drive, NameOf(run[l].tab, k.drive))
  {
    var (j, k) := (run[i].ts.callers[t].pc.j, run[i].ts.callers[t].pc.k);
    ReapedIsDecided(run, i, t);
    var m := BackToDecision(run, i, t, j, k);
    DriveOfCall(run, m, t, j, k);
    if run[m].ts.worker.pc == Look(j) {
      l, n := m, m;
    } else {
      var url := run[m].ts.worker.pc.url;
      l := BackToLooking(run, m, t, j, k, url);
      DriveOfCall(run, l, t, j, k);
      CallJoins(run, l, m, i, t, j, k);
      n := m + 1;
    }
  }

  lemma ReapedIsDecided(run: seq<State>, i: nat, t: nat)
    requires IsRun(run) && i < |run| && CanJob(run[i], t, DoReap) && run[i].ts.callers[t].pc.k.ForMount?
    requires DoJobStep(run[i], t, DoReap).ts.callers[t].pc == Done(OK, [])
    ensures Decided(run[i], run[i].ts.callers[t].pc.j)
  {
    RunsKeepInv(run, i);
    var s := run[i];
    assert CallerJob(s.jobs, s.queue, WRef(s.ts.worker.pc), t, s.ts.callers[t].pc);
  }

  lemma DriveOfCall(run: seq<State>, n: nat, t: nat, j: nat, k: Kont)
    requires IsRun(run) && n < |run| && InCall(run[n], t, j, k) && k.ForMount?
    ensures j in run[n].jobs && run[n].jobs[j].io.drive == k.drive
  {
    RunsKeepInv(run, n);
    CalledJob(run[n], t, j, k);
  }

  lemma CallJoins(run: seq<State>, l: nat, m: nat, i: nat, t: nat, j: nat, k: Kont)
    requires InCallFrom(run, l, m, t, j, k) && InCallFrom(run, m, i, t, j, k)
    ensures InCallFrom(run, l, i, t, j, k)
  {}

  // ---- from the start of a call to its answer ----

  /** The step that answers the call. */
  lemma {:induction false} AnsweredAt(run: seq<State>, c: nat, i: nat, t: nat, call: Call) returns (e: nat)
    requires IsRun(run) && Spans(run, c, i, t, call) && run[i].ts.callers[t].pc.Done?
    ensures c <= e < i && t < |run[e].ts.callers| && !run[e].ts.callers[t].pc.Done?
    ensures run[e + 1].ts.callers[t].pc == run[i].ts.callers[t].pc
    ensures if e == c then run[i].ts.callers[t].pc == Begin(call) else Spans(run, c, e, t, call)
  {
    if i == c + 1 {
      Starts(run[c], t, call);
      e := c;
    } else {
      Earlier(run, c, i - 1, i, t, call);
      if run[i - 1].ts.callers[t].pc.Done? {
        StepGoes(run, i - 1, t);
        e := AnsweredAt(run, c, i - 1, t, call);
      } else {
        e := i - 1;
      }
    }
  }

  predicate SaysOk(s': State, t: nat) { t < |s'.ts.callers| && s'.ts.callers[t].pc.Done? && s'.ts.callers[t].pc.code == OK }

  /** A call that waits for the worker is answered OK only with the job's own result, or, in
      the case of a mount, because the link is down and the mount is left for later. */
  lemma OkIsReaped(s: State, a: Action, t: nat)
    requires Enabled(s, a) && t < |s.ts.callers| && KontOf(s.ts.callers[t].pc).Some? && SaysOk(Apply(s, a), t)
    requires KontOf(s.ts.callers[t].pc).value.ForWrite? || KontOf(s.ts.callers[t].pc).value.ForMount?
    ensures a == OfJob(t, DoReap) || (a == OfJob(t, LinkDown) && KontOf(s.ts.callers[t].pc).value.ForMount?)
  {
    if Actor(a) != Some(t) {
      OthersStay(s, a, t);
    } else {
      ActsOnJob(s, a, t);
      JobSaysOk(s, t, a.job);
    }
  }

  lemma ActsOnJob(s: State, a: Action, t: nat)
    requires Enabled(s, a) && t < |s.ts.callers| && KontOf(s.ts.callers[t].pc).Some? && Actor(a) == Some(t)
    ensures a.OfJob?
  {}

  lemma JobSaysOk(s: State, t: nat, a: JobAct)
    requires CanJob(s, t, a) && KontOf(s.ts.callers[t].pc).Some? && SaysOk(DoJobStep(s, t, a), t)
    requires KontOf(s.ts.callers[t].pc).value.ForWrite? || KontOf(s.ts.callers[t].pc).value.ForMount?
    ensures a.DoReap? || (a.LinkDown? && KontOf(s.ts.callers[t].pc).value.ForMount?)
    ensures DoJobStep(s, t, a).ts.callers[t].pc == Done(OK, [])
  {}

  lemma OkStep(run: seq<State>, e: nat, t: nat) returns (a: Action)
    requires IsRun(run) && e + 1 < |run| && t < |run[e].ts.callers| && KontOf(run[e].ts.callers[t].pc).Some? && SaysOk(run[e + 1], t)
    requires KontOf(run[e].ts.callers[t].pc).value.ForWrite? || KontOf(run[e].ts.callers[t].pc).value.ForMount?
    ensures a == OfJob(t, DoReap) || (a == OfJob(t, LinkDown) && KontOf(run[e].ts.callers[t].pc).value.ForMount?)
    ensures Enabled(run[e], a) && run[e + 1] == DoJobStep(run[e], t, a.job) && run[e + 1].ts.callers[t].pc == Done(OK, [])
  {
    a := StepOf(run, e);
    OkIsReaped(run[e], a, t);
    JobSaysOk(run[e], t, a.job);
  }

  /** The step puts the track into the image, which is longer for it only if it had been cut
      short. */
  predicate TrackStored(s: State, s': State, img: nat, io: Io, data: seq<byte>) {
    && |data| == io.len && img in s.tab.images && img in s'.tab.images
    && s'.tab.images[img] == Overlaid(s.tab.images[img], io.track * io.len, data)
  }

  lemma WrittenIsStored(s: State, s': State, img: nat, io: Io, data: seq<byte>)
    requires WrittenThere(s.tab, s'.tab, img, io, data)
    ensures TrackStored(s, s', img, io, data)
  {}

  /** A write that is answered OK has been carried out within the call: at state l the drive
      had an image mounted, and the step after state n put exactly the caller's bytes into
      that image, at the caller's track. */
  lemma WriteCallIsHonest(run: seq<State>, c: nat, i: nat, t: nat, io: Io, data: seq<byte>) returns (l: nat, n: nat)
    requires IsRun(run) && Spans(run, c, i, t, Write(io, data)) && SaysOk(run[i], t)
    ensures c < l <= n < i && Installed(run[l].tab, io.drive)
    ensures TrackStored(run[n], run[n + 1], ImageOf(run[l].tab, io.drive), io, data)
  {
    var call := Write(io, data);
    var e := AnsweredAt(run, c, i, t, call);
    if e == c {
      assert false;
    }
    CallStaysWithin(run, c, e, t, call);
    if run[e].ts.callers[t].pc == WriteIn(io, data) {
      l, n := e, e;
      WrittenAtOnce(run, e, t, io, data);
    } else {
      l, n := WrittenByWorker(run, c, e, t, io, data);
    }
  }

  lemma WrittenByWorker(run: seq<State>, c: nat, e: nat, t: nat, io: Io, data: seq<byte>) returns (l: nat, n: nat)
    requires IsRun(run) && Spans(run, c, e, t, Write(io, data)) && e + 1 < |run|
    requires KontOf(run[e].ts.callers[t].pc) == Some(ForWrite(io, data)) && SaysOk(run[e + 1], t)
    ensures c < l <= n < e && Installed(run[l].tab, io.drive)
    ensures TrackStored(run[n], run[n + 1], ImageOf(run[l].tab, io.drive), io, data)
  {
    var a := OkStep(run, e, t);
    var b;
    l, n, b := AcknowledgedWriteReachedItsDrive(run, e, t);
    WrittenIsStored(run[n], run[n + 1], ImageOf(run[l].tab, io.drive), io, data);
    AfterStart(run, c, l, e, t, Write(io, data), run[e].ts.callers[t].pc.j, run[e].ts.callers[t].pc.k);
  }

  lemma AfterStart(run: seq<State>, c: nat, l: nat, e: nat, t: nat, call: Call, j: nat, k: Kont)
    requires Spans(run, c, e, t, call) && InCallFrom(run, l, e, t, j, k)
    ensures c < l
  {}

  lemma WrittenAtOnce(run: seq<State>, e: nat, t: nat, io: Io, data: seq<byte>)
    requires IsRun(run) && e + 1 < |run| && t < |run[e].ts.callers| && run[e].ts.callers[t].pc == WriteIn(io, data) && |data| == io.len
    requires SaysOk(run[e + 1], t)
    ensures Installed(run[e].tab, io.drive)
    ensures TrackStored(run[e], run[e + 1], ImageOf(run[e].tab, io.drive), io, data)
  {
    RunsKeepInv(run, e);
    var a := StepOf(run, e);
    WriteInActs(run[e], a, t);
    WriteStores(run[e], t, a.io.fault);
  }

  lemma WriteInActs(s: State, a: Action, t: nat)
    requires Enabled(s, a) && t < |s.ts.callers| && s.ts.callers[t].pc.WriteIn? && SaysOk(Apply(s, a), t)
    ensures a.OfIo? && a.t == t && a.io.DoWrite?
  {
    if Actor(a) != Some(t) {
      OthersStay(s, a, t);
    }
  }

  lemma WriteStores(s: State, t: nat, fault: Option<seq<byte>>)
    requires DataInv(s) && CanIo(s, t, DoWrite(fault)) && SaysOk(DoIoStep(s, t, DoWrite(fault)), t)
    ensures var (io, data) := (s.ts.callers[t].pc.io, s.ts.callers[t].pc.data);
            && Installed(s.tab, io.drive)
            && TrackStored(s, DoIoStep(s, t, DoWrite(fault)), ImageOf(s.tab, io.drive), io, data)
  {
    ViewAgrees(s.tab, s.fs, s.ts.worker.pc, s.jobs);
    WriteLockedIsCorrect(s.tab, View(s.tab, s.ts.worker.pc), s.ts.callers[t].pc.io, s.ts.callers[t].pc.data, fault);
  }

  /** These are the track's bytes as the drive's image shows them, by the cache if nothing
      else has written to the image. */
  predicate Shows(s: State, io: Io, bytes: seq<byte>) {
    && Admitted(s.tab, io) && s.tab.drv[io.drive].mounted && |bytes| == io.len
    && (Untouched(s.tab, io.drive) || s.tab.cache != Cached(io) ==> TrackBytes(s.tab, View(s.tab, s.ts.worker.pc), io) == Some(bytes))
  }

  /** A read that is answered OK gives the bytes that the drive's image shows at some state
      of the call. */
  lemma ReadCallIsHonest(run: seq<State>, c: nat, i: nat, t: nat, io: Io) returns (n: nat)
    requires IsRun(run) && Spans(run, c, i, t, Read(io)) && SaysOk(run[i], t)
    ensures c < n < i && Shows(run[n], io, run[i].ts.callers[t].pc.bytes)
  {
    n := AnsweredAt(run, c, i, t, Read(io));
    if n == c {
      assert false;
    }
    CallStaysWithin(run, c, n, t, Read(io));
    var a := ReadStep(run, n, t, io);
    ReadReturnsMountedBytes(run, n, t, a, run[i].ts.callers[t].pc.bytes);
  }

  lemma ReadStep(run: seq<State>, n: nat, t: nat, io: Io) returns (a: IoAct)
    requires IsRun(run) && n + 1 < |run| && t < |run[n].ts.callers| && SaysOk(run[n + 1], t)
    requires var pc := run[n].ts.callers[t].pc; pc == ReadIn(io) || pc == CopyIn(io) || KontOf(pc) == Some(ForRead(io))
    ensures run[n].ts.callers[t].pc.ReadIn? || run[n].ts.callers[t].pc.CopyIn?
    ensures run[n].ts.callers[t].pc.io == io
    ensures (a.DoRead? || a.DoCopy?) && CanIo(run[n], t, a) && run[n + 1] == DoIoStep(run[n], t, a)
  {
    var x := StepOf(run, n);
    ReadEnds(run[n], x, t, io);
    a := x.io;
  }

  lemma ReadEnds(s: State, a: Action, t: nat, io: Io)
    requires Enabled(s, a) && t < |s.ts.callers| && SaysOk(Apply(s, a), t)
    requires var pc := s.ts.callers[t].pc; pc == ReadIn(io) || pc == CopyIn(io) || KontOf(pc) == Some(ForRead(io))
    ensures a.OfIo? && a.t == t && (a.io.DoRead? || a.io.DoCopy?)
  {
    if Actor(a) != Some(t) {
      OthersStay(s, a, t);
    } else if KontOf(s.ts.callers[t].pc).Some? {
      ActsOnJob(s, a, t);
      NoReadByJob(s, t, a.job);
    }
  }

  lemma NoReadByJob(s: State, t: nat, a: JobAct)
    requires CanJob(s, t, a) && KontOf(s.ts.callers[t].pc).Some? && KontOf(s.ts.callers[t].pc).value.ForRead?
    ensures !SaysOk(DoJobStep(s, t, a), t)
  {}

  /** A configuration answered OK: the link was down, and the mount is left for later; or the
      worker has looked at the drive, and since then the drive was at some state not waiting
      for the URL it had at the look. */
  lemma ConfigureIsHonest(run: seq<State>, c: nat, i: nat, t: nat, d: nat, url: string) returns (e: nat, l: nat, n: nat)
    requires IsRun(run) && Spans(run, c, i, t, Configure(d, url)) && SaysOk(run[i], t)
    ensures c < e < i && KontOf(run[e].ts.callers[t].pc) == Some(ForMount(d))
    ensures (CanJob(run[e], t, LinkDown) && run[e + 1] == DoJobStep(run[e], t, LinkDown))
            || (c < l <= n <= e && run[l].ts.worker.pc.Look? && !Waiting(run[n].tab, d, NameOf(run[l].tab, d)))
  {
    var call := Configure(d, url);
    e := AnsweredAt(run, c, i, t, call);
    if e == c {
      assert false;
    }
    CallStaysWithin(run, c, e, t, call);
    StepGoes(run, e, t);
    NotBeforeMount(run, e, t, call);
    var a := OkStep(run, e, t);
    l, n := e, e;
    if a == OfJob(t, DoReap) {
      var (j, k) := (run[e].ts.callers[t].pc.j, run[e].ts.callers[t].pc.k);
      l, n := MountAnswerIsHonest(run, e, t);
      AfterStart(run, c, l, e, t, call, j, k);
    }
  }

  lemma NotBeforeMount(run: seq<State>, e: nat, t: nat, call: Call)
    requires IsRun(run) && e + 1 < |run| && t < |run[e].ts.callers| == |run[e + 1].ts.callers|
    requires call.Configure? && Within(call, run[e].ts.callers[t].pc) && !run[e].ts.callers[t].pc.Done? && SaysOk(run[e + 1], t)
    ensures KontOf(run[e].ts.callers[t].pc) == Some(ForMount(call.d))
  {
    StepGoes(run, e, t);
  }
}
