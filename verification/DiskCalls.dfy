/** Whole calls of the disk module, from their start to their answer, whatever other tasks
    do in between (src/disk/disk.c). */
module DiskCalls {
  import opened Bytes
  import opened Protocol
  import opened DiskCore
  import opened DiskMachine
  import opened DiskJobs
  import opened DiskBackings
  import opened DiskData
  import opened DiskWriters

  /** What the job is for that a task is making, waiting for or taking back. */
  function KontOf(pc: Pc): Option<Kont> {
    match pc
    case MakeJob(k) => Some(k)
    case Post(_, k) => Some(k)
    case Wait(_, k) => Some(k)
    case GiveUp(_, k) => Some(k)
    case Reap(_, k) => Some(k)
    case _ => None
  }

  /** The task whose step this is. */
  function Actor(a: Action): Option<nat> {
    match a
    case OfIo(t, _) => Some(t)
    case OfJob(t, _) => Some(t)
    case OfMount(t, _) => Some(t)
    case OfGuard(t, _) => Some(t)
    case OfWorker(_) => None
    case OfFile(_) => None
  }

  lemma OthersStay(s: State, a: Action, t: nat)
    requires Enabled(s, a) && t < |s.ts.callers| && Actor(a) != Some(t)
    ensures |Apply(s, a).ts.callers| == |s.ts.callers| && Apply(s, a).ts.callers[t] == s.ts.callers[t]
  {
    match a
    case OfIo(u, x) => IoChanges(s, u, x);
    case OfJob(u, x) => JobStepShape(s, u, x);
    case OfMount(u, x) => MountChanges(s, u, x);
    case OfGuard(u, x) => GuardChanges(s, u, x);
    case OfWorker(x) => WorkLeavesTasks(s, x);
    case OfFile(x) =>
  }

  lemma WorkLeavesTasks(s: State, a: WorkAct)
    requires CanWork(s, a)
    ensures DoWorkStep(s, a).ts.callers == s.ts.callers
  {}

  // ---- where a task can go from where it stands ----

  /** Where the job of `k` ends. */
  predicate EndsAt(k: Kont, pc: Pc) {
    match k
    case ForRead(io) => pc == CopyIn(io) || pc.Done?
    case ForWrite(_, _) => pc.Done?
    case ForMount(_) => pc.Done?
    case ForRemount(i) => pc == RemountIn(i + 1)
    case ForClose(_, rest, next) => pc == Dispose(rest, next)
  }

  predicate Goes(pc: Pc, pc': Pc) {
    match pc
    case Idle => true
    case ReadIn(io) => pc' == MakeJob(ForRead(io)) || pc'.Done?
    case WriteIn(io, data) => pc' == MakeJob(ForWrite(io, data)) || pc'.Done?
    case CopyIn(_) => pc'.Done?
    case MountWant(d, name, path) => pc' == MountIn(d, name, path)
    case MountIn(d, name, path) =>
      || (pc'.SwapIn? && pc'.d == d && pc'.next == Finish(OK) && pc'.how.Install? && pc'.how.name == name && pc'.how.path == path)
      || (pc'.SwapWant? && pc'.d == d && pc'.how == Drop && pc'.next.Outer? && pc'.next.code != OK)
    case SwapWant(d, how, next) => pc' == SwapIn(d, how, next)
    case SwapIn(_, _, next) => pc'.SwapRel? && pc'.next == next
    case SwapRel(olds, next) => pc' == Dispose(olds, next)
    case Dispose(_, next) => GoesOn(pc', next) || pc' == Continue(next)
    case OuterRel(code) => pc' == Done(code, [])
    case CheckWant(op) => pc' == CheckIn(op)
    case CheckIn(op) => pc' == ActIn(op) || pc' == ActRel(BUSY)
    case ActIn(op) => pc'.ActRel?
    case ActRel(code) => pc' == Done(code, [])
    case SweepIn => pc'.Dispose? && pc'.next == Finish(OK)
    case RemountIn(i) => pc' == (if i >= MAX_DRIVE then Done(OK, []) else RemountIn(i + 1)) || (i < MAX_DRIVE && pc' == MakeJob(ForRemount(i)))
    case Done(_, _) => pc'.Idle?
    case _ => KontOf(pc') == KontOf(pc) || EndsAt(KontOf(pc).value, pc')
  }

  /** The task is getting rid of the backings that a change of slots has freed. */
  predicate GoesOn(pc: Pc, next: Next) {
    || ((pc.SwapRel? || pc.Dispose?) && pc.next == next)
    || (KontOf(pc).Some? && KontOf(pc).value.ForClose? && KontOf(pc).value.next == next)
  }

  lemma IoGoes(s: State, t: nat, a: IoAct)
    requires CanIo(s, t, a)
    ensures t < |DoIoStep(s, t, a).ts.callers| && Goes(s.ts.callers[t].pc, DoIoStep(s, t, a).ts.callers[t].pc)
  {}

  lemma JobGoes(s: State, t: nat, a: JobAct)
    requires CanJob(s, t, a)
    ensures t < |DoJobStep(s, t, a).ts.callers|
    ensures var (pc, pc') := (s.ts.callers[t].pc, DoJobStep(s, t, a).ts.callers[t].pc); pc' == pc || Goes(pc, pc')
  {
    if a.Start? || a.Return? || a.TakeTrack? || a.TakeMtx? || a.LinkDown? {
      CallGoes(s, t, a);
    } else {
      WaitGoes(s, t, a);
    }
  }

  lemma CallGoes(s: State, t: nat, a: JobAct)
    requires CanJob(s, t, a) && (a.Start? || a.Return? || a.TakeTrack? || a.TakeMtx? || a.LinkDown?)
    ensures t < |DoJobStep(s, t, a).ts.callers|
    ensures var (pc, pc') := (s.ts.callers[t].pc, DoJobStep(s, t, a).ts.callers[t].pc); pc' == pc || Goes(pc, pc')
  {}

  lemma WaitGoes(s: State, t: nat, a: JobAct)
    requires CanJob(s, t, a) && !(a.Start? || a.Return? || a.TakeTrack? || a.TakeMtx? || a.LinkDown?)
    ensures t < |DoJobStep(s, t, a).ts.callers|
    ensures Goes(s.ts.callers[t].pc, DoJobStep(s, t, a).ts.callers[t].pc)
  {}

  lemma MountGoes(s: State, t: nat, a: MountAct)
    requires CanMount(s, t, a)
    ensures t < |DoMountStep(s, t, a).ts.callers| && Goes(s.ts.callers[t].pc, DoMountStep(s, t, a).ts.callers[t].pc)
  {
    MountChanges(s, t, a);
  }

  lemma GuardGoes(s: State, t: nat, a: GuardAct)
    requires CanGuard(s, t, a)
    ensures t < |DoGuardStep(s, t, a).ts.callers| && Goes(s.ts.callers[t].pc, DoGuardStep(s, t, a).ts.callers[t].pc)
  {}

  lemma EachGoes(s: State, a: Action, t: nat)
    requires Enabled(s, a) && t < |s.ts.callers|
    ensures |Apply(s, a).ts.callers| == |s.ts.callers|
    ensures var (pc, pc') := (s.ts.callers[t].pc, Apply(s, a).ts.callers[t].pc);
            pc' == pc || (Actor(a) == Some(t) && Goes(pc, pc'))
  {
    SameTasks(s, a);
    if Actor(a) != Some(t) {
      OthersStay(s, a, t);
    } else {
      match a
      case OfIo(u, x) => IoGoes(s, u, x);
      case OfJob(u, x) => JobGoes(s, u, x);
      case OfMount(u, x) => MountGoes(s, u, x);
      case OfGuard(u, x) => GuardGoes(s, u, x);
    }
  }

  lemma SameTasks(s: State, a: Action)
    requires Enabled(s, a)
    ensures |Apply(s, a).ts.callers| == |s.ts.callers|
  {
    match a
    case OfIo(u, x) => IoChanges(s, u, x);
    case OfJob(u, x) => JobStepShape(s, u, x);
    case OfMount(u, x) => MountChanges(s, u, x);
    case OfGuard(u, x) => GuardChanges(s, u, x);
    case OfWorker(x) => WorkLeavesTasks(s, x);
    case OfFile(x) =>
  }

  // ---- where a task can stand in a call ----

  predicate Refusal(next: Next) { (next.Finish? || next.Outer?) && next.code != OK }

  predicate Swaps(pc: Pc, d: nat, how: How, next: Next) { pc == SwapWant(d, how, next) || pc == SwapIn(d, how, next) }

  predicate Within(call: Call, pc: Pc) {
    match call
    case Read(io) => pc == ReadIn(io) || pc == CopyIn(io) || KontOf(pc) == Some(ForRead(io)) || pc.Done?
    case Write(io, data) =>
      || pc == (if |data| == io.len then WriteIn(io, data) else Done(INVALID_ARG, []))
      || (|data| == io.len && (KontOf(pc) == Some(ForWrite(io, data)) || pc.Done?))
    case Unmount(d) =>
      if DriveOk(d) then Swaps(pc, d, Drop, Finish(OK)) || GoesOn(pc, Finish(OK)) || pc == Done(OK, [])
      else pc == Done(INVALID_ARG, [])
    case Configure(d, url) =>
      if DriveOk(d)
      then Swaps(pc, d, Remote(url), OpenRemote(d)) || GoesOn(pc, OpenRemote(d)) || KontOf(pc) == Some(ForMount(d)) || pc.Done?
      else pc == Done(INVALID_ARG, [])
    case MountLocal(d, name, path, card) =>
      if DriveOk(d) && name != "" then Mounts(pc, d, name, path) else pc == Done(INVALID_ARG, [])
    case Sweep => pc.SweepIn? || GoesOn(pc, Finish(OK)) || pc == Done(OK, [])
    case Remount =>
      || (pc.RemountIn? && pc.i <= MAX_DRIVE) || pc == Done(OK, [])
      || (KontOf(pc).Some? && KontOf(pc).value.ForRemount? && KontOf(pc).value.i < MAX_DRIVE)
    case Change(op) => pc == CheckWant(op) || pc == CheckIn(op) || pc == ActIn(op) || pc.ActRel? || pc.Done?
  }

  predicate Mounts(pc: Pc, d: nat, name: string, path: Path) {
    || pc == MountWant(d, name, path) || pc == MountIn(d, name, path)
    || (pc.SwapIn? && pc.d == d && pc.next == Finish(OK) && pc.how.Install? && pc.how.name == name && pc.how.path == path)
    || ((pc.SwapWant? || pc.SwapIn?) && pc.d == d && pc.how == Drop && Refusal(pc.next))
    || LeavesMount(pc, true) || LeavesMount(pc, false)
  }

  /** The slot has been changed, and this is what will be answered. */
  predicate LeavesMount(pc: Pc, ok: bool) {
    if ok then GoesOn(pc, Finish(OK)) || pc == Done(OK, [])
    else
      || ((pc.SwapRel? || pc.Dispose?) && Refusal(pc.next))
      || (KontOf(pc).Some? && KontOf(pc).value.ForClose? && Refusal(KontOf(pc).value.next))
      || (pc.OuterRel? && pc.code != OK) || (pc.Done? && pc.code != OK)
  }

  lemma MountStays(pc: Pc, pc': Pc, d: nat, name: string, path: Path)
    requires Mounts(pc, d, name, path) && Goes(pc, pc') && !pc'.Idle?
    ensures Mounts(pc', d, name, path)
  {
    if LeavesMount(pc, true) {
      LeavesStill(pc, pc', true);
    } else if LeavesMount(pc, false) {
      LeavesStill(pc, pc', false);
    } else {
      MountGoesOn(pc, pc', d, name, path);
    }
  }

  lemma LeavesStill(pc: Pc, pc': Pc, ok: bool)
    requires LeavesMount(pc, ok) && Goes(pc, pc') && !pc'.Idle?
    ensures LeavesMount(pc', ok)
  {}

  lemma MountGoesOn(pc: Pc, pc': Pc, d: nat, name: string, path: Path)
    requires Mounts(pc, d, name, path) && !LeavesMount(pc, true) && !LeavesMount(pc, false) && Goes(pc, pc')
    ensures Mounts(pc', d, name, path)
  {}

  lemma StaysWithin(call: Call, pc: Pc, pc': Pc)
    requires Within(call, pc) && Goes(pc, pc') && !pc'.Idle?
    ensures Within(call, pc')
  {
    if call.MountLocal? && DriveOk(call.d) && call.name != "" {
      MountStays(pc, pc', call.d, call.name, call.path);
    } else {
      OtherStays(call, pc, pc');
    }
  }

  lemma OtherStays(call: Call, pc: Pc, pc': Pc)
    requires Within(call, pc) && Goes(pc, pc') && !pc'.Idle? && (call.MountLocal? ==> !DriveOk(call.d) || call.name == "")
    ensures Within(call, pc')
  {
    if call.Unmount? || call.Configure? {
      SlotCallStays(call, pc, pc');
    } else {
      TrackCallStays(call, pc, pc');
    }
  }

  lemma SlotCallStays(call: Call, pc: Pc, pc': Pc)
    requires Within(call, pc) && Goes(pc, pc') && !pc'.Idle? && (call.Unmount? || call.Configure?)
    ensures Within(call, pc')
  {}

  lemma TrackCallStays(call: Call, pc: Pc, pc': Pc)
    requires Within(call, pc) && Goes(pc, pc') && !pc'.Idle? && !call.Unmount? && !call.Configure?
    requires call.MountLocal? ==> !DriveOk(call.d) || call.name == ""
    ensures Within(call, pc')
  {}

  lemma BeginsWithin(call: Call)
    ensures Within(call, Begin(call))
  {}

  // ---- a call in a run ----

  /** Task t begins the call with the step after state c, and is still in it at state i. */
  ghost predicate Spans(run: seq<State>, c: nat, i: nat, t: nat, call: Call) {
    && c < i < |run| && CanJob(run[c], t, Start(call)) && run[c + 1] == DoJobStep(run[c], t, Start(call))
    && forall n :: c < n <= i ==> t < |run[n].ts.callers| && !run[n].ts.callers[t].pc.Idle?
  }

  lemma Starts(s: State, t: nat, call: Call)
    requires CanJob(s, t, Start(call))
    ensures t < |DoJobStep(s, t, Start(call)).ts.callers| && DoJobStep(s, t, Start(call)).ts.callers[t].pc == Begin(call)
  {}

  lemma StepGoes(run: seq<State>, n: nat, t: nat)
    requires IsRun(run) && n + 1 < |run| && t < |run[n].ts.callers|
    ensures |run[n + 1].ts.callers| == |run[n].ts.callers|
    ensures var (pc, pc') := (run[n].ts.callers[t].pc, run[n + 1].ts.callers[t].pc); pc' == pc || Goes(pc, pc')
  {
    var a := StepOf(run, n);
    EachGoes(run[n], a, t);
  }

  lemma Earlier(run: seq<State>, c: nat, m: nat, e: nat, t: nat, call: Call)
    requires Spans(run, c, e, t, call) && c < m <= e
    ensures Spans(run, c, m, t, call)
  {}

  lemma {:induction false} CallStaysWithin(run: seq<State>, c: nat, i: nat, t: nat, call: Call)
    requires IsRun(run) && Spans(run, c, i, t, call)
    ensures Within(call, run[i].ts.callers[t].pc)
  {
    if i == c + 1 {
      Starts(run[c], t, call);
      BeginsWithin(call);
    } else {
      Earlier(run, c, i - 1, i, t, call);
      CallStaysWithin(run, c, i - 1, t, call);
      StepGoes(run, i - 1, t);
      if run[i].ts.callers[t].pc != run[i - 1].ts.callers[t].pc {
        StaysWithin(call, run[i - 1].ts.callers[t].pc, run[i].ts.callers[t].pc);
      }
    }
  }

  // ---- mounting and unmounting ----

  function DriveOf(call: Call): int {
    match call
    case MountLocal(d, _, _, _) => d
    case Unmount(d) => d
    case Configure(d, _) => d
    case _ => -1
  }

  /** The drive's slot has been changed, and the call is to be answered OK, or refused. */
  predicate Changed(call: Call, pc: Pc, ok: bool) {
    DriveOk(DriveOf(call)) &&
    match call
    case Unmount(d) => ok && (GoesOn(pc, Finish(OK)) || pc.Done?)
    case Configure(d, url) => ok && (GoesOn(pc, OpenRemote(d)) || KontOf(pc) == Some(ForMount(d)) || pc.Done?)
    case MountLocal(d, name, _, _) => name != "" && LeavesMount(pc, ok)
    case _ => false
  }

  /** What the call makes of the slot. */
  predicate Makes(call: Call, slot: Slot, ok: bool) {
    match call
    case Unmount(_) => slot == Slot(false, false, false, "", [], None)
    case Configure(_, url) => slot == Slot(false, true, false, url, [], None)
    case MountLocal(_, name, path, _) =>
      if ok
      then slot.mounted && !slot.remote && !slot.readonly && slot.name == name && slot.canon == path && slot.backing.Some?
      else slot == Slot(false, false, false, "", [], None)
    case _ => false
  }

  /** The slot is changed where the table is changed, to what was asked for. */
  lemma ChangedBySwap(call: Call, pc: Pc, pc': Pc, ok: bool)
    requires Within(call, pc) && Goes(pc, pc') && Changed(call, pc', ok)
    ensures Changed(call, pc, ok) || (pc.SwapIn? && pc'.SwapRel? && pc.d == DriveOf(call) && Makes(call, NewSlot(pc.how), ok))
  {
    if call.Unmount? {
      UnmountSwaps(call, pc, pc', ok);
    } else if call.Configure? {
      ConfigureSwaps(call, pc, pc', ok);
    } else if ok {
      MountSwaps(call, pc, pc');
    } else {
      RefusalSwaps(call, pc, pc');
    }
  }

  lemma UnmountSwaps(call: Call, pc: Pc, pc': Pc, ok: bool)
    requires call.Unmount? && Within(call, pc) && Goes(pc, pc') && Changed(call, pc', ok)
    ensures Changed(call, pc, ok) || (pc.SwapIn? && pc'.SwapRel? && pc.d == call.d && Makes(call, NewSlot(pc.how), ok))
  {}

  lemma ConfigureSwaps(call: Call, pc: Pc, pc': Pc, ok: bool)
    requires call.Configure? && Within(call, pc) && Goes(pc, pc') && Changed(call, pc', ok)
    ensures Changed(call, pc, ok) || (pc.SwapIn? && pc'.SwapRel? && pc.d == call.d && Makes(call, NewSlot(pc.how), ok))
  {}

  lemma MountSwaps(call: Call, pc: Pc, pc': Pc)
    requires call.MountLocal? && Within(call, pc) && Goes(pc, pc') && Changed(call, pc', true)
    ensures Changed(call, pc, true) || (pc.SwapIn? && pc'.SwapRel? && pc.d == call.d && Makes(call, NewSlot(pc.how), true))
  {
    if pc.SwapIn? {
      MountSwapsNow(call, pc, pc');
    } else {
      MountSwapsBefore(call, pc, pc');
    }
  }

  lemma MountSwapsNow(call: Call, pc: Pc, pc': Pc)
    requires call.MountLocal? && Within(call, pc) && Goes(pc, pc') && Changed(call, pc', true) && pc.SwapIn?
    ensures pc'.SwapRel? && pc.d == call.d && Makes(call, NewSlot(pc.how), true)
  {}

  lemma MountSwapsBefore(call: Call, pc: Pc, pc': Pc)
    requires call.MountLocal? && Within(call, pc) && Goes(pc, pc') && Changed(call, pc', true) && !pc.SwapIn?
    ensures Changed(call, pc, true)
  {}

  lemma RefusalSwaps(call: Call, pc: Pc, pc': Pc)
    requires call.MountLocal? && Within(call, pc) && Goes(pc, pc') && Changed(call, pc', false)
    ensures Changed(call, pc, false) || (pc.SwapIn? && pc'.SwapRel? && pc.d == call.d && Makes(call, NewSlot(pc.how), false))
  {
    if pc.SwapIn? {
      RefusalSwapsNow(call, pc, pc');
    } else {
      RefusalSwapsBefore(call, pc, pc');
    }
  }

  lemma RefusalSwapsNow(call: Call, pc: Pc, pc': Pc)
    requires call.MountLocal? && Within(call, pc) && Goes(pc, pc') && Changed(call, pc', false) && pc.SwapIn?
    ensures pc'.SwapRel? && pc.d == call.d && Makes(call, NewSlot(pc.how), false)
  {}

  lemma RefusalSwapsBefore(call: Call, pc: Pc, pc': Pc)
    requires call.MountLocal? && Within(call, pc) && Goes(pc, pc') && Changed(call, pc', false) && !pc.SwapIn?
    ensures Changed(call, pc, false)
  {}

  lemma NotAtOnce(call: Call, ok: bool)
    ensures !Changed(call, Begin(call), ok)
  {}

  /** Task t's step puts what it has in its hands into the slot. */
  predicate SwappedIn(s: State, s': State, t: nat) {
    && t < |s.ts.callers| && s.ts.callers[t].pc.SwapIn?
    && 0 <= s.ts.callers[t].pc.d < |s'.tab.drv| && s'.tab.drv[s.ts.callers[t].pc.d] == NewSlot(s.ts.callers[t].pc.how)
    && s'.tab.backings == s.tab.backings
  }

  lemma SwapMakes(s: State, a: Action, t: nat)
    requires Enabled(s, a) && Actor(a) == Some(t) && t < |s.ts.callers| == |Apply(s, a).ts.callers|
    requires s.ts.callers[t].pc.SwapIn? && Apply(s, a).ts.callers[t].pc.SwapRel?
    ensures SwappedIn(s, Apply(s, a), t)
  {
    assert a.OfMount? && a.mnt.DoSwap? by {
      SwapsByItself(s, a, t);
    }
    SwapShape(s, t);
  }

  lemma SwapsByItself(s: State, a: Action, t: nat)
    requires Enabled(s, a) && Actor(a) == Some(t) && t < |s.ts.callers| == |Apply(s, a).ts.callers|
    requires s.ts.callers[t].pc.SwapIn? && Apply(s, a).ts.callers[t].pc.SwapRel?
    ensures a == OfMount(t, DoSwap)
  {}

  lemma SlotMade(s: State, a: Action, t: nat, call: Call, ok: bool)
    requires Enabled(s, a) && t < |s.ts.callers| == |Apply(s, a).ts.callers| && Within(call, s.ts.callers[t].pc)
    requires Changed(call, Apply(s, a).ts.callers[t].pc, ok) && !Changed(call, s.ts.callers[t].pc, ok)
    ensures SwappedIn(s, Apply(s, a), t) && s.ts.callers[t].pc.d == DriveOf(call)
    ensures Makes(call, Apply(s, a).tab.drv[DriveOf(call)], ok)
  {
    EachGoes(s, a, t);
    ChangedBySwap(call, s.ts.callers[t].pc, Apply(s, a).ts.callers[t].pc, ok);
    SwapMakes(s, a, t);
  }

  lemma StepMakes(run: seq<State>, n: nat, t: nat, call: Call, ok: bool)
    requires IsRun(run) && n + 1 < |run| && t < |run[n].ts.callers| == |run[n + 1].ts.callers|
    requires Within(call, run[n].ts.callers[t].pc)
    requires Changed(call, run[n + 1].ts.callers[t].pc, ok) && !Changed(call, run[n].ts.callers[t].pc, ok)
    ensures SwappedIn(run[n], run[n + 1], t) && run[n].ts.callers[t].pc.d == DriveOf(call)
    ensures Makes(call, run[n + 1].tab.drv[DriveOf(call)], ok)
  {
    var a := StepOf(run, n);
    SlotMade(run[n], a, t, call, ok);
  }

  lemma {:induction false} BackToSwap(run: seq<State>, c: nat, i: nat, t: nat, call: Call, ok: bool) returns (m: nat)
    requires IsRun(run) && Spans(run, c, i, t, call) && Changed(call, run[i].ts.callers[t].pc, ok)
    ensures c < m - 1 && m <= i && SwappedIn(run[m - 1], run[m], t)
    ensures 0 <= DriveOf(call) < |run[m].tab.drv| && Makes(call, run[m].tab.drv[DriveOf(call)], ok)
    ensures run[m - 1].ts.callers[t].pc.d == DriveOf(call)
  {
    if i == c + 1 {
      Starts(run[c], t, call);
      NotAtOnce(call, ok);
      assert false;
    } else {
      Earlier(run, c, i - 1, i, t, call);
      if Changed(call, run[i - 1].ts.callers[t].pc, ok) {
        m := BackToSwap(run, c, i - 1, t, call, ok);
      } else {
        CallStaysWithin(run, c, i - 1, t, call);
        StepGoes(run, i - 1, t);
        StepMakes(run, i - 1, t, call, ok);
        m := i;
      }
    }
  }

  /** An unmount is answered OK for every drive there is, and it has unmounted that drive:
      at some state of the call the slot was empty. */
  lemma UnmountUnmounts(run: seq<State>, c: nat, i: nat, t: nat, d: nat) returns (m: nat)
    requires IsRun(run) && Spans(run, c, i, t, Unmount(d)) && run[i].ts.callers[t].pc.Done?
    ensures run[i].ts.callers[t].pc == Done(if d < MAX_DRIVE then OK else INVALID_ARG, [])
    ensures d < MAX_DRIVE ==> c < m <= i && d < |run[m].tab.drv| && run[m].tab.drv[d] == Slot(false, false, false, "", [], None)
  {
    CallStaysWithin(run, c, i, t, Unmount(d));
    m := i;
    if DriveOk(d) {
      m := BackToSwap(run, c, i, t, Unmount(d), true);
    }
  }

  /** A drive that is given a URL has had it, and nothing mounted under it, at some state of
      the call, whatever becomes of the session. */
  lemma ConfigureConfigures(run: seq<State>, c: nat, i: nat, t: nat, d: nat, url: string) returns (m: nat)
    requires IsRun(run) && Spans(run, c, i, t, Configure(d, url)) && run[i].ts.callers[t].pc.Done?
    ensures d >= MAX_DRIVE ==> run[i].ts.callers[t].pc == Done(INVALID_ARG, [])
    ensures d < MAX_DRIVE ==> c < m <= i && d < |run[m].tab.drv| && run[m].tab.drv[d] == Slot(false, true, false, url, [], None)
  {
    CallStaysWithin(run, c, i, t, Configure(d, url));
    m := i;
    if DriveOk(d) {
      m := BackToSwap(run, c, i, t, Configure(d, url), true);
    }
  }

  // ---- the link to the servers ----

  /** No remote drive is mounted. */
  predicate NoneRemote(tab: Table) { forall d :: 0 <= d < |tab.drv| && tab.drv[d].remote ==> !tab.drv[d].mounted && tab.drv[d].backing.None? }

  /** A sweep empties the remote drives, which keep their URLs, and no other drive. */
  lemma SweepEmpties(s: State, t: nat)
    requires TableOk(s.tab) && CanMount(s, t, DoSweep)
    ensures var tab' := DoMountStep(s, t, DoSweep).tab;
            && NoneRemote(tab') && |tab'.drv| == |s.tab.drv|
            && forall d :: 0 <= d < |s.tab.drv| ==>
                 if s.tab.drv[d].remote then tab'.drv[d].remote && tab'.drv[d].name == s.tab.drv[d].name else tab'.drv[d] == s.tab.drv[d]
  {
    assert forall d :: 0 <= d < MAX_DRIVE ==> SlotOk(s.tab, s.tab.drv[d]);
  }

  lemma SweepStep(run: seq<State>, n: nat, t: nat)
    requires IsRun(run) && n + 1 < |run| && t < |run[n].ts.callers| == |run[n + 1].ts.callers|
    requires run[n].ts.callers[t].pc.SweepIn? && !run[n + 1].ts.callers[t].pc.SweepIn?
    ensures NoneRemote(run[n + 1].tab)
  {
    RunsKeepInv(run, n);
    var a := StepOf(run, n);
    SweepsByItself(run[n], a, t);
    SweepEmpties(run[n], t);
  }

  lemma SweepsByItself(s: State, a: Action, t: nat)
    requires Enabled(s, a) && t < |s.ts.callers| == |Apply(s, a).ts.callers|
    requires s.ts.callers[t].pc.SweepIn? && !Apply(s, a).ts.callers[t].pc.SweepIn?
    ensures a == OfMount(t, DoSweep)
  {
    if Actor(a) != Some(t) {
      OthersStay(s, a, t);
    }
  }

  /** When the link is lost every remote drive is unmounted: at some state of the call none
      is mounted. */
  lemma {:induction false} SweepSweeps(run: seq<State>, c: nat, i: nat, t: nat) returns (m: nat)
    requires IsRun(run) && Spans(run, c, i, t, Sweep) && !run[i].ts.callers[t].pc.SweepIn?
    ensures c < m <= i && NoneRemote(run[m].tab)
  {
    if i == c + 1 {
      assert false;
    } else if run[i - 1].ts.callers[t].pc.SweepIn? {
      StepGoes(run, i - 1, t);
      SweepStep(run, i - 1, t);
      m := i;
    } else {
      Earlier(run, c, i - 1, i, t, Sweep);
      m := SweepSweeps(run, c, i - 1, t);
    }
  }

  /** Drive d is configured for this URL and not mounted. */
  predicate Waiting(tab: Table, d: int, url: string) {
    0 <= d < |tab.drv| && tab.drv[d].remote && !tab.drv[d].mounted && tab.drv[d].name == url && url != ""
  }

  function NameOf(tab: Table, d: int): string { if 0 <= d < |tab.drv| then tab.drv[d].name else "" }

  /** The remounting task is past drive d. */
  predicate Behind(pc: Pc, d: nat) {
    (pc.RemountIn? && pc.i > d) || pc.Done? || (KontOf(pc).Some? && KontOf(pc).value.ForRemount? && KontOf(pc).value.i >= d)
  }

  lemma PassesDrive(pc: Pc, pc': Pc, d: nat)
    requires Within(Remount, pc) && Goes(pc, pc') && d < MAX_DRIVE && Behind(pc', d) && !Behind(pc, d)
    ensures pc == RemountIn(d) && pc' != pc
  {}

  lemma RemountsByItself(s: State, a: Action, t: nat)
    requires Enabled(s, a) && t < |s.ts.callers| == |Apply(s, a).ts.callers| && s.ts.callers[t].pc.RemountIn?
    requires Apply(s, a).ts.callers[t].pc != s.ts.callers[t].pc
    ensures a == OfMount(t, DoRemount)
  {
    if Actor(a) != Some(t) {
      OthersStay(s, a, t);
    }
  }

  lemma RemountAt(s: State, t: nat, d: nat)
    requires CanMount(s, t, DoRemount) && d < MAX_DRIVE && s.ts.callers[t].pc == RemountIn(d)
    ensures Visited(s, DoMountStep(s, t, DoRemount), t, d)
  {}

  /** The task comes to drive d, and makes a job for it exactly if it waits for a session. */
  predicate Visited(s: State, s': State, t: nat, d: nat) {
    && t < |s.ts.callers| == |s'.ts.callers| && d < |s.tab.drv| && s.ts.callers[t].pc == RemountIn(d)
    && s'.ts.callers[t].pc == if Waiting(s.tab, d, s.tab.drv[d].name) then MakeJob(ForRemount(d)) else RemountIn(d + 1)
  }

  lemma VisitStep(run: seq<State>, n: nat, t: nat, d: nat)
    requires IsRun(run) && n + 1 < |run| && t < |run[n].ts.callers| == |run[n + 1].ts.callers| && d < MAX_DRIVE
    requires Within(Remount, run[n].ts.callers[t].pc) && Behind(run[n + 1].ts.callers[t].pc, d) && !Behind(run[n].ts.callers[t].pc, d)
    ensures Visited(run[n], run[n + 1], t, d)
  {
    RunsKeepInv(run, n);
    StepGoes(run, n, t);
    PassesDrive(run[n].ts.callers[t].pc, run[n + 1].ts.callers[t].pc, d);
    var a := StepOf(run, n);
    RemountsByItself(run[n], a, t);
    RemountAt(run[n], t, d);
  }

  /** When the link is back every drive is visited, and a session is asked for exactly for
      those that wait for one. */
  lemma {:induction false} RemountVisits(run: seq<State>, c: nat, i: nat, t: nat, d: nat) returns (m: nat)
    requires IsRun(run) && Spans(run, c, i, t, Remount) && d < MAX_DRIVE && Behind(run[i].ts.callers[t].pc, d)
    ensures c < m < i && Visited(run[m], run[m + 1], t, d)
  {
    if i == c + 1 {
      assert false;
    } else {
      Earlier(run, c, i - 1, i, t, Remount);
      if Behind(run[i - 1].ts.callers[t].pc, d) {
        m := RemountVisits(run, c, i - 1, t, d);
      } else {
        CallStaysWithin(run, c, i - 1, t, Remount);
        StepGoes(run, i - 1, t);
        VisitStep(run, i - 1, t, d);
        m := i - 1;
      }
    }
  }

  /** What a caller puts into the queue is a job for its own drive and track, with its own
      bytes, or for the backing it is to get rid of. */
  lemma PostedJobIsTheCallers(run: seq<State>, i: nat, t: nat)
    requires IsRun(run) && i < |run| && t < |run[i].ts.callers| && run[i].ts.callers[t].pc.Post?
    ensures run[i].ts.callers[t].pc.j in run[i].jobs
    ensures var (job, k) := (run[i].jobs[run[i].ts.callers[t].pc.j], run[i].ts.callers[t].pc.k);
            && !job.completed && !job.abandoned && job.maker == t
            && match k
               case ForRead(io) => job.kind == READ && job.io == io
               case ForWrite(io, data) => job.kind == WRITE && job.io == io && job.data == data
               case ForMount(d) => job.kind == MOUNT && job.io.drive == d
               case ForRemount(d) => job.kind == MOUNT && job.io.drive == d
               case ForClose(b, _, _) => job.kind == CLOSE && job.bclose == b
  {
    RunsKeepInv(run, i);
    var s := run[i];
    assert CallerJob(s.jobs, s.queue, WRef(s.ts.worker.pc), t, s.ts.callers[t].pc);
  }
}
