/** The disk module as a concurrent machine: any number of caller tasks (fdc, CLI, FTP,
    network), the worker that owns every remote session, three locks and the job queue
    (src/disk/disk.c). A step is what one task does between two lock operations. */
module DiskMachine {
  import opened Bytes
  import opened Protocol
  import opened DiskCore

  const QUEUE_LEN := 12

  // ---- jobs ----

  datatype Kind = READ | WRITE | MOUNT | CLOSE

  /** `maker` is the task that created the job; `signalled` is the job's semaphore;
      `stored` records that a WRITE job's bytes reached the image of its drive. */
  datatype Job = Job(kind: Kind, io: Io, data: seq<byte>, bclose: nat, maker: nat, sync: bool,
                     completed: bool, abandoned: bool, signalled: bool, stored: bool, result: Code)

  // ---- callers ----

  /** A backing taken out of the table, with the slot's remote flag as it was then. */
  datatype Old = Old(b: nat, remote: bool)

  datatype Next = Finish(code: Code) | Outer(code: Code) | OpenRemote(drive: nat)

  /** Why a job was posted, that is, where its caller goes on afterwards. */
  datatype Kont =
    | ForRead(io: Io)
    | ForWrite(io: Io, data: seq<byte>)
    | ForMount(drive: nat)
    | ForRemount(i: nat)
    | ForClose(b: nat, rest: seq<Old>, next: Next)

  predicate Sync(k: Kont) { k.ForRead? || k.ForWrite? || k.ForMount? }

  /** What a slot is changed to. */
  datatype How = Drop | Remote(url: string) | Install(b: nat, name: string, path: Path)

  /** A change to an SD file made under the guard. */
  datatype Op = Delete(path: Path) | Rename(path: Path, to: Path) | OpenWrite(path: Path, truncate: bool)

  datatype Call =
    | Read(io: Io) | Write(io: Io, data: seq<byte>)
    | MountLocal(d: nat, name: string, path: Path, card: bool) | Unmount(d: nat) | Configure(d: nat, url: string)
    | Sweep | Remount | Change(op: Op)

  datatype Pc =
    | Idle
    | ReadIn(io: Io)                                  // in the track lock
    | WriteIn(io: Io, data: seq<byte>)                // in the track lock
    | CopyIn(io: Io)                                  // in the track lock
    | MakeJob(k: Kont)
    | Post(j: nat, k: Kont)
    | Wait(j: nat, k: Kont)
    | GiveUp(j: nat, k: Kont)                         // in the job mutex
    | Reap(j: nat, k: Kont)
    | MountWant(d: nat, name: string, path: Path)     // waiting for the mount lock
    | MountIn(d: nat, name: string, path: Path)
    | SwapWant(d: nat, how: How, next: Next)          // waiting for the mount lock
    | SwapIn(d: nat, how: How, next: Next)            // in the track lock and the mount lock
    | SwapRel(olds: seq<Old>, next: Next)
    | Dispose(olds: seq<Old>, next: Next)
    | OuterRel(code: Code)
    | CheckWant(op: Op)                               // waiting for the mount lock
    | CheckIn(op: Op)
    | ActIn(op: Op)
    | ActRel(code: Code)
    | SweepIn                                         // in the track lock
    | RemountIn(i: nat)                               // in the track lock
    | Done(code: Code, bytes: seq<byte>)

  /** `blocked`: standing before the lock its pc needs, not yet holding it. */
  datatype Caller = Caller(pc: Pc, blocked: bool)

  predicate InTrack(pc: Pc) {
    pc.ReadIn? || pc.WriteIn? || pc.CopyIn? || pc.SwapIn? || pc.SweepIn? || pc.RemountIn?
  }

  predicate InMtx(pc: Pc) { pc.GiveUp? }

  predicate WantsMount(pc: Pc) { pc.MountWant? || pc.SwapWant? || pc.CheckWant? }

  function OuterDepth(next: Next): nat { if next.Outer? then 1 else 0 }

  function KontDepth(k: Kont): nat { if k.ForClose? then OuterDepth(k.next) else 0 }

  /** How many times a task standing at `pc` has taken the recursive mount lock. */
  function MountDepth(pc: Pc): nat {
    match pc
    case MountIn(_, _, _) => 1
    case SwapWant(_, _, next) => OuterDepth(next)
    case SwapIn(_, _, next) => 1 + OuterDepth(next)
    case SwapRel(_, next) => 1 + OuterDepth(next)
    case Dispose(_, next) => OuterDepth(next)
    case MakeJob(k) => KontDepth(k)
    case Post(_, k) => KontDepth(k)
    case Wait(_, k) => KontDepth(k)
    case GiveUp(_, k) => KontDepth(k)
    case Reap(_, k) => KontDepth(k)
    case OuterRel(_) => 1
    case CheckIn(_) => 1
    case ActIn(_) => 1
    case ActRel(_) => 1
    case _ => 0
  }

  // ---- worker ----

  datatype WPc =
    | WIdle
    | Look(j: nat)                                             // in the track lock
    | Xfer(j: nat, b: nat)
    | FillRead(j: nat, b: nat, stage: seq<byte>)               // in the track lock
    | FillWrite(j: nat, b: nat, ok: bool, before: seq<byte>)   // in the track lock
    | Opening(j: nat, url: string)
    | InstallIn(j: nat, b: nat, ro: bool, url: string)         // in the track lock
    | Discard(j: nat, b: nat)
    | Closing(j: nat)
    | Complete(j: nat, code: Code)                             // in the job mutex
    | Unlock                                                   // in the job mutex
    | FreeJob(j: nat)

  datatype Worker = Worker(pc: WPc, blocked: bool)

  predicate WInTrack(pc: WPc) { pc.Look? || pc.FillRead? || pc.FillWrite? || pc.InstallIn? }
  predicate WInMtx(pc: WPc) { pc.Complete? || pc.Unlock? }

  // ---- state ----

  datatype Who = Task(t: nat) | TheWorker

  /** Who is to close a backing. */
  datatype Owner = InSlot(d: nat) | WithCaller(t: nat) | InJob(j: nat) | WithWorker | Leaked

  /** Where every task stands, and the locks. `mount` is the recursive mount lock: its
      owner, and how often the owner has taken it. */
  datatype Tasks = Tasks(callers: seq<Caller>, worker: Worker, track: Option<Who>, mtx: Option<Who>,
                         mount: Option<nat>, depth: nat)

  datatype State = State(
    tab: Table,
    owner: map<nat, Owner>,
    fs: map<Path, nat>,           // SD card: canonical path of each file, to its image
    writers: multiset<nat>,       // the image of each handle that is open for writing
    jobs: map<nat, Job>,          // allocated jobs only; freeing removes, ids may be reused
    queue: seq<nat>,
    ts: Tasks)

  function Enter(pc: Pc): Caller { Caller(pc, InTrack(pc) || InMtx(pc)) }

  predicate T(s: State, t: nat) { t < |s.ts.callers| }

  /** Task t finishes its step: it gives back the track lock or job mutex the step ran in
      and stands at `pc`, before that pc's lock if it needs one. */
  function To(ts: Tasks, t: nat, pc: Pc): Tasks
    requires t < |ts.callers|
  {
    ts.(callers := ts.callers[t := Enter(pc)],
        track := if InTrack(ts.callers[t].pc) then None else ts.track,
        mtx := if InMtx(ts.callers[t].pc) then None else ts.mtx)
  }

  function WTo(ts: Tasks, pc: WPc): Tasks {
    ts.(worker := Worker(pc, WInTrack(pc) || pc.Complete?),
        track := if WInTrack(ts.worker.pc) then None else ts.track,
        mtx := if WInMtx(ts.worker.pc) && !pc.Unlock? then None else ts.mtx)
  }

  /** One release of the recursive mount lock. */
  function Release(ts: Tasks): Tasks {
    if ts.depth <= 1 then ts.(mount := None, depth := 0) else ts.(depth := ts.depth - 1)
  }

  function WithMount(pc: Pc): Pc {
    match pc
    case MountWant(d, name, path) => MountIn(d, name, path)
    case SwapWant(d, how, next) => SwapIn(d, how, next)
    case CheckWant(op) => CheckIn(op)
    case _ => pc
  }

  /** Where a caller goes once its job is over with `code`. */
  function After(k: Kont, code: Code): Pc {
    match k
    case ForRead(io) => if code == OK then CopyIn(io) else Done(code, [])
    case ForWrite(_, _) => Done(code, [])
    case ForMount(_) => Done(code, [])
    case ForRemount(i) => RemountIn(i + 1)
    case ForClose(_, rest, next) => Dispose(rest, next)
  }

  function Continue(next: Next): Pc {
    match next
    case Finish(code) => Done(code, [])
    case Outer(code) => OuterRel(code)
    case OpenRemote(d) => MakeJob(ForMount(d))
  }

  function Begin(call: Call): Pc {
    match call
    case Read(io) => ReadIn(io)
    case Write(io, data) => if |data| == io.len then WriteIn(io, data) else Done(INVALID_ARG, [])
    case MountLocal(d, name, path, card) =>
      if !DriveOk(d) || name == "" then Done(INVALID_ARG, [])
      else if !card then SwapWant(d, Drop, Finish(INVALID_STATE))
      else MountWant(d, name, path)
    case Unmount(d) => if DriveOk(d) then SwapWant(d, Drop, Finish(OK)) else Done(INVALID_ARG, [])
    case Configure(d, url) => if DriveOk(d) then SwapWant(d, Remote(url), OpenRemote(d)) else Done(INVALID_ARG, [])
    case Sweep => SweepIn
    case Remount => RemountIn(0)
    case Change(op) => CheckWant(op)
  }

  // ---- the SD card ----

  function MovedPath(p: Path, q: Path, k: Path): Path { if p <= k then q + k[|p|..] else k }

  /** A rename of a file or of a folder with all it holds. */
  function Renamed(fs: map<Path, nat>, p: Path, q: Path): map<Path, nat> {
    map k | k in (set x | x in fs :: MovedPath(p, q, x)) && MovedPath(q, p, k) in fs :: fs[MovedPath(q, p, k)]
  }

  predicate CanRename(fs: map<Path, nat>, p: Path, q: Path) {
    && p != [] && q != [] && !(p <= q)
    && forall k :: k in fs ==> !(q <= k)
  }

  // ---- actions ----

  datatype IoAct = DoRead(fault: Option<seq<byte>>) | DoWrite(fault: Option<seq<byte>>) | DoCopy

  datatype JobAct =
    | Start(call: Call) | Return | TakeTrack | TakeMtx
    | LinkDown | NewJob(j: nat) | NoJob | Send | SendFails
    | Woken | TimesOut | DoGiveUp | DoReap

  datatype MountAct =
    | TakeMount | Opens(b: nat) | OpenFails(code: Code) | DoSwap | LeaveSwap | DoDispose | LeaveOuter
    | DoSweep | DoRemount

  datatype GuardAct = DoCheck(known: bool) | Acts(newImg: nat) | ActFails | LeaveAct

  datatype WorkAct =
    | WTake | WTakeTrack | WTakeMtx
    | WLook(connected: bool)
    | WReads(ok: bool) | WWrites(ok: bool, torn: seq<byte>)
    | WFillRead | WFillWrite
    | WOpens(b: nat, image: nat, ro: bool) | WOpenFails(code: Code)
    | WInstalls | WDiscards | WCloses
    | WCompletes | WUnlocks | WFrees

  /** What is done through a handle that was opened for writing earlier. No lock is taken
      for it. */
  datatype FileAct = HandleWrite(image: nat, content: seq<byte>) | HandleClose(image: nat)

  datatype Action =
    | OfIo(t: nat, io: IoAct)
    | OfJob(t: nat, job: JobAct)
    | OfMount(t: nat, mnt: MountAct)
    | OfGuard(t: nat, grd: GuardAct)
    | OfWorker(wrk: WorkAct)
    | OfFile(file: FileAct)

  function Pc0(s: State, t: nat): Pc { if T(s, t) then s.ts.callers[t].pc else Idle }

  predicate Runs(s: State, t: nat) { T(s, t) && !s.ts.callers[t].blocked }

  predicate WRuns(s: State) { !s.ts.worker.blocked }

  predicate CanIo(s: State, t: nat, a: IoAct) {
    match a
    case DoRead(_) => Runs(s, t) && Pc0(s, t).ReadIn? && TableOk(s.tab)
    case DoWrite(_) => Runs(s, t) && Pc0(s, t).WriteIn? && TableOk(s.tab) && |Pc0(s, t).data| == Pc0(s, t).io.len
    case DoCopy => Runs(s, t) && Pc0(s, t).CopyIn?
  }

  predicate CanJob(s: State, t: nat, a: JobAct) {
    match a
    case Start(call) => Runs(s, t) && Pc0(s, t).Idle?
    case Return => Runs(s, t) && Pc0(s, t).Done?
    case TakeTrack => T(s, t) && s.ts.callers[t].blocked && InTrack(Pc0(s, t)) && s.ts.track.None?
    case TakeMtx => T(s, t) && s.ts.callers[t].blocked && InMtx(Pc0(s, t)) && s.ts.mtx.None?
    case LinkDown => Runs(s, t) && Pc0(s, t).MakeJob? && Pc0(s, t).k.ForMount?
    case NewJob(j) => Runs(s, t) && Pc0(s, t).MakeJob? && j !in s.jobs
    case NoJob => Runs(s, t) && Pc0(s, t).MakeJob?
    case Send => Runs(s, t) && Pc0(s, t).Post? && |s.queue| < QUEUE_LEN
    case SendFails => Runs(s, t) && Pc0(s, t).Post?
    case Woken => Runs(s, t) && Pc0(s, t).Wait? && Pc0(s, t).j in s.jobs && s.jobs[Pc0(s, t).j].signalled
    case TimesOut => Runs(s, t) && Pc0(s, t).Wait?
    case DoGiveUp => Runs(s, t) && Pc0(s, t).GiveUp? && Pc0(s, t).j in s.jobs
    case DoReap => Runs(s, t) && Pc0(s, t).Reap? && Pc0(s, t).j in s.jobs
  }

  predicate CanMount(s: State, t: nat, a: MountAct) {
    match a
    case TakeMount => Runs(s, t) && WantsMount(Pc0(s, t)) && (s.ts.mount.None? || s.ts.mount == Some(t))
    case Opens(b) =>
      && Runs(s, t) && Pc0(s, t).MountIn? && b !in s.tab.backings
      && Pc0(s, t).path in s.fs && s.fs[Pc0(s, t).path] in s.tab.images
      && |s.tab.images[s.fs[Pc0(s, t).path]]| <= UINT32_MAX
      && FreeElsewhere(s.tab, Pc0(s, t).d, s.fs[Pc0(s, t).path])
    case OpenFails(code) => Runs(s, t) && Pc0(s, t).MountIn? && code != OK
    case DoSwap => Runs(s, t) && Pc0(s, t).SwapIn? && Pc0(s, t).d < |s.tab.drv|
    case LeaveSwap => Runs(s, t) && Pc0(s, t).SwapRel?
    case DoDispose => Runs(s, t) && Pc0(s, t).Dispose?
    case LeaveOuter => Runs(s, t) && Pc0(s, t).OuterRel?
    case DoSweep => Runs(s, t) && Pc0(s, t).SweepIn? && |s.tab.drv| == MAX_DRIVE
    case DoRemount => Runs(s, t) && Pc0(s, t).RemountIn? && |s.tab.drv| == MAX_DRIVE
  }

  predicate CanGuard(s: State, t: nat, a: GuardAct) {
    match a
    case DoCheck(known) => Runs(s, t) && Pc0(s, t).CheckIn? && (known || forall k :: k in s.fs ==> !(Pc0(s, t).op.path <= k))
    case Acts(newImg) => Runs(s, t) && Pc0(s, t).ActIn? && CanAct(s.fs, s.tab.images, Pc0(s, t).op, newImg)
    case ActFails => Runs(s, t) && Pc0(s, t).ActIn?
    case LeaveAct => Runs(s, t) && Pc0(s, t).ActRel?
  }

  predicate CanWork(s: State, a: WorkAct) {
    match a
    case WTake => WRuns(s) && s.ts.worker.pc.WIdle? && |s.queue| > 0 && s.queue[0] in s.jobs
    case WTakeTrack => s.ts.worker.blocked && WInTrack(s.ts.worker.pc) && s.ts.track.None?
    case WTakeMtx => s.ts.worker.blocked && WInMtx(s.ts.worker.pc) && s.ts.mtx.None?
    case WLook(_) => WRuns(s) && s.ts.worker.pc.Look? && s.ts.worker.pc.j in s.jobs && TableOk(s.tab)
    case WReads(_) => WRuns(s) && s.ts.worker.pc.Xfer? && WXfer(s) && s.jobs[s.ts.worker.pc.j].kind == READ
    case WWrites(_, torn) =>
      && WRuns(s) && s.ts.worker.pc.Xfer? && WXfer(s) && s.jobs[s.ts.worker.pc.j].kind == WRITE
      && |s.jobs[s.ts.worker.pc.j].data| == s.jobs[s.ts.worker.pc.j].io.len
      && |torn| == |s.tab.images[s.tab.backings[s.ts.worker.pc.b].image]|
    case WFillRead => WRuns(s) && s.ts.worker.pc.FillRead? && s.ts.worker.pc.j in s.jobs && |s.ts.worker.pc.stage| <= |s.tab.buf|
    case WFillWrite =>
      && WRuns(s) && s.ts.worker.pc.FillWrite? && s.ts.worker.pc.j in s.jobs
      && |s.jobs[s.ts.worker.pc.j].data| <= |s.tab.buf|
    case WOpens(b, image, _) =>
      && WRuns(s) && s.ts.worker.pc.Opening? && b !in s.tab.backings
      && image in s.tab.images && image !in s.fs.Values && image !in s.writers // not one of the card's
      && |s.tab.images[image]| <= UINT32_MAX
      && FreeElsewhere(s.tab, MAX_DRIVE, image)
    case WOpenFails(code) => WRuns(s) && s.ts.worker.pc.Opening? && code != OK
    case WInstalls => WRuns(s) && s.ts.worker.pc.InstallIn? && s.ts.worker.pc.j in s.jobs
    case WDiscards => WRuns(s) && s.ts.worker.pc.Discard?
    case WCloses => WRuns(s) && s.ts.worker.pc.Closing? && s.ts.worker.pc.j in s.jobs
    case WCompletes => WRuns(s) && s.ts.worker.pc.Complete? && s.ts.worker.pc.j in s.jobs
    case WUnlocks => WRuns(s) && s.ts.worker.pc.Unlock?
    case WFrees => WRuns(s) && s.ts.worker.pc.FreeJob? && s.ts.worker.pc.j in s.jobs
  }

  predicate CanFile(s: State, a: FileAct) { a.image in s.writers && a.image in s.tab.images }

  predicate Enabled(s: State, a: Action) {
    match a
    case OfIo(t, x) => CanIo(s, t, x)
    case OfJob(t, x) => CanJob(s, t, x)
    case OfMount(t, x) => CanMount(s, t, x)
    case OfGuard(t, x) => CanGuard(s, t, x)
    case OfWorker(x) => CanWork(s, x)
    case OfFile(x) => CanFile(s, x)
  }

  /** Environment: two drives never mount the same image. */
  predicate FreeElsewhere(t: Table, d: int, image: nat) {
    forall e :: 0 <= e < |t.drv| && e != d && Installed(t, e) ==> ImageOf(t, e) != image
  }

  predicate WXfer(s: State)
    requires s.ts.worker.pc.Xfer?
  {
    var pc := s.ts.worker.pc;
    && pc.j in s.jobs && pc.b in s.tab.backings && s.tab.backings[pc.b].image in s.tab.images
    && TrackOffset(s.jobs[pc.j].io.track, s.jobs[pc.j].io.len) + s.jobs[pc.j].io.len
         <= |s.tab.images[s.tab.backings[pc.b].image]|
  }

  predicate CanAct(fs: map<Path, nat>, images: map<nat, seq<byte>>, op: Op, newImg: nat) {
    match op
    case Delete(p) => p in fs
    case Rename(p, q) => CanRename(fs, p, q)
    case OpenWrite(p, _) => if p in fs then fs[p] in images else p != [] && newImg !in images
  }

  /** What the file operation does to the card. */
  function Effect(fs: map<Path, nat>, images: map<nat, seq<byte>>, op: Op, newImg: nat): (map<Path, nat>, map<nat, seq<byte>>) {
    match op
    case Delete(p) => (fs - {p}, images)
    case Rename(p, q) => (Renamed(fs, p, q), images)
    case OpenWrite(p, truncate) =>
      if p !in fs then (fs[p := newImg], images[newImg := []])
      else if truncate then (fs, images[fs[p] := []])
      else (fs, images)
  }

  /** The handle that a change leaves open. */
  function Opened(fs: map<Path, nat>, op: Op): multiset<nat> {
    if op.OpenWrite? && op.path in fs then multiset{fs[op.path]} else multiset{}
  }

  /** The drive whose local image a change to `path` would touch, if any. */
  function Holder(drv: seq<Slot>, path: Path, d: nat := 0): (r: Option<nat>)
    requires d <= |drv|
    ensures r.Some? ==> d <= r.value < |drv| && Touches(drv[r.value], path)
    ensures r.None? ==> forall e :: d <= e < |drv| ==> !Touches(drv[e], path)
    decreases |drv| - d
  {
    if d == |drv| then None
    else if Touches(drv[d], path) then Some(d)
    else Holder(drv, path, d + 1)
  }

  /** The slot holds a local image that is `path` itself or lies under it. */
  predicate Touches(slot: Slot, path: Path) {
    slot.mounted && !slot.remote && slot.canon != [] && path <= slot.canon
  }

  function Unslot(slot: Slot): Slot { slot.(backing := None, mounted := false, readonly := false) }

  predicate Swept(slot: Slot) { slot.remote && slot.mounted && slot.backing.Some? }

  function SweepOlds(drv: seq<Slot>, n: nat): (r: seq<Old>)
    requires n <= |drv|
  {
    if n == 0 then []
    else SweepOlds(drv, n - 1) + (if Swept(drv[n - 1]) then [Old(drv[n - 1].backing.value, true)] else [])
  }

  /** disk_remote_unmount_all: every live remote drive becomes not-ready at once. */
  function SweepTable(t: Table): Table
    requires |t.drv| == MAX_DRIVE
  {
    t.(drv := seq(MAX_DRIVE, i requires 0 <= i < MAX_DRIVE => if Swept(t.drv[i]) then Unslot(t.drv[i]) else t.drv[i]),
       cache := if t.cache.Valid? && DriveOk(t.cache.drive) && Swept(t.drv[t.cache.drive]) then Invalid else t.cache)
  }

  function SweepOwner(owner: map<nat, Owner>, drv: seq<Slot>, t: nat): map<nat, Owner> {
    map b | b in owner :: if Old(b, true) in SweepOlds(drv, |drv|) then WithCaller(t) else owner[b]
  }

  function NewSlot(how: How): Slot {
    match how
    case Drop => EMPTY_SLOT
    case Remote(url) => Slot(false, true, false, url, [], None)
    case Install(b, name, path) => Slot(true, false, false, name, path, Some(b))
  }

  function MadeJob(k: Kont, t: nat): Job {
    match k
    case ForRead(io) => Job(READ, io, [], 0, t, true, false, false, false, false, FAIL)
    case ForWrite(io, data) => Job(WRITE, io, data, 0, t, true, false, false, false, false, FAIL)
    case ForMount(d) => Job(MOUNT, Io(d, 0, 0), [], 0, t, true, false, false, false, false, FAIL)
    case ForRemount(i) => Job(MOUNT, Io(i, 0, 0), [], 0, t, false, false, false, false, false, FAIL)
    case ForClose(b, _, _) => Job(CLOSE, Io(-1, 0, 0), [], b, t, false, false, false, false, false, FAIL)
  }

  /** The job could not be made or queued: a session waiting to be closed is leaked. */
  function Lost(owner: map<nat, Owner>, k: Kont): map<nat, Owner> {
    if k.ForClose? && k.b in owner then owner[k.b := Leaked] else owner
  }

  function DoIoStep(s: State, t: nat, a: IoAct): State
    requires CanIo(s, t, a)
  {
    match a
    case DoRead(fault) =>
      var io := Pc0(s, t).io;
      var (tab, out) := ReadLocked(s.tab, io, fault);
      s.(ts := To(s.ts, t, if out.ToWorker? then MakeJob(ForRead(io)) else Done(out.code, out.bytes)), tab := tab)
    case DoWrite(fault) =>
      var (io, data) := (Pc0(s, t).io, Pc0(s, t).data);
      var (tab, out) := WriteLocked(s.tab, io, data, fault);
      s.(ts := To(s.ts, t, if out.ToWriter? then MakeJob(ForWrite(io, data)) else Done(out.code, [])), tab := tab)
    case DoCopy =>
      var io := Pc0(s, t).io;
      s.(ts := To(s.ts, t, if s.tab.cache == Valid(io.drive, io.track, io.len) && io.len <= |s.tab.buf|
               then Done(OK, s.tab.buf[..io.len]) else Done(INVALID_STATE, [])))
  }

  function DoJobStep(s: State, t: nat, a: JobAct): State
    requires CanJob(s, t, a)
  {
    match a
    case Start(call) => s.(ts := To(s.ts, t, Begin(call)))
    case Return => s.(ts := To(s.ts, t, Idle))
    case TakeTrack => s.(ts := s.ts.(track := Some(Task(t)), callers := s.ts.callers[t := Caller(Pc0(s, t), false)]))
    case TakeMtx => s.(ts := s.ts.(mtx := Some(Task(t)), callers := s.ts.callers[t := Caller(Pc0(s, t), false)]))
    case LinkDown => s.(ts := To(s.ts, t, Done(OK, []))) // the session is opened once the link is up
    case NewJob(j) =>
      var k := Pc0(s, t).k;
      s.(ts := To(s.ts, t, Post(j, k)), jobs := s.jobs[j := MadeJob(k, t)])
    case NoJob =>
      var k := Pc0(s, t).k;
      s.(ts := To(s.ts, t, After(k, NO_MEM)), owner := Lost(s.owner, k))
    case Send =>
      var (j, k) := (Pc0(s, t).j, Pc0(s, t).k);
      s.(ts := To(s.ts, t, if Sync(k) then Wait(j, k) else After(k, OK)), queue := s.queue + [j],
          owner := if k.ForClose? then s.owner[k.b := InJob(j)] else s.owner)
    case SendFails =>
      var (j, k) := (Pc0(s, t).j, Pc0(s, t).k);
      s.(ts := To(s.ts, t, After(k, TIMEOUT)), jobs := s.jobs - {j}, owner := Lost(s.owner, k))
    case Woken => s.(ts := To(s.ts, t, Reap(Pc0(s, t).j, Pc0(s, t).k)))
    case TimesOut => s.(ts := To(s.ts, t, GiveUp(Pc0(s, t).j, Pc0(s, t).k)))
    case DoGiveUp =>
      var (j, k) := (Pc0(s, t).j, Pc0(s, t).k);
      if s.jobs[j].completed then s.(ts := To(s.ts, t, Reap(j, k)))
      else s.(ts := To(s.ts, t, After(k, TIMEOUT)), jobs := s.jobs[j := s.jobs[j].(abandoned := true)])
    case DoReap =>
      var (j, k) := (Pc0(s, t).j, Pc0(s, t).k);
      s.(ts := To(s.ts, t, After(k, s.jobs[j].result)), jobs := s.jobs - {j})
  }

  function DoMountStep(s: State, t: nat, a: MountAct): State
    requires CanMount(s, t, a)
  {
    match a
    case TakeMount => s.(ts := To(s.ts, t, WithMount(Pc0(s, t))).(mount := Some(t), depth := s.ts.depth + 1))
    case Opens(b) =>
      var MountIn(d, name, path) := Pc0(s, t);
      var sdFile := Backing(false, s.fs[path], |s.tab.images[s.fs[path]]|, false, name, false);
      s.(ts := To(s.ts, t, SwapIn(d, Install(b, name, path), Finish(OK))),
          tab := s.tab.(backings := s.tab.backings[b := sdFile]),
          owner := s.owner[b := WithCaller(t)])
    case OpenFails(code) => s.(ts := To(s.ts, t, SwapWant(Pc0(s, t).d, Drop, Outer(code))))
    case DoSwap =>
      var SwapIn(d, how, next) := Pc0(s, t);
      var was := s.tab.drv[d];
      var olds := if was.backing.Some? then [Old(was.backing.value, was.remote)] else [];
      var owner := if was.backing.Some? then s.owner[was.backing.value := WithCaller(t)] else s.owner;
      s.(ts := To(s.ts, t, SwapRel(olds, next)),
          tab := s.tab.(drv := s.tab.drv[d := NewSlot(how)], cache := DropDrive(s.tab.cache, d)),
          owner := if how.Install? then owner[how.b := InSlot(d)] else owner)
    case LeaveSwap =>
      var SwapRel(olds, next) := Pc0(s, t);
      s.(ts := To(Release(s.ts), t, Dispose(olds, next)))
    case DoDispose =>
      var Dispose(olds, next) := Pc0(s, t);
      if olds == [] then s.(ts := To(s.ts, t, Continue(next)))
      else if olds[0].remote then s.(ts := To(s.ts, t, MakeJob(ForClose(olds[0].b, olds[1..], next))))
      else s.(ts := To(s.ts, t, Dispose(olds[1..], next)),
              tab := s.tab.(backings := s.tab.backings - {olds[0].b}), owner := s.owner - {olds[0].b})
    case LeaveOuter => s.(ts := To(Release(s.ts), t, Done(Pc0(s, t).code, [])))
    case DoSweep =>
      s.(ts := To(s.ts, t, Dispose(SweepOlds(s.tab.drv, MAX_DRIVE), Finish(OK))),
         tab := SweepTable(s.tab), owner := SweepOwner(s.owner, s.tab.drv, t))
    case DoRemount =>
      var i := Pc0(s, t).i;
      s.(ts := To(s.ts, t, if i >= MAX_DRIVE then Done(OK, [])
               else if s.tab.drv[i].remote && !s.tab.drv[i].mounted && s.tab.drv[i].name != "" then MakeJob(ForRemount(i))
               else RemountIn(i + 1)))
  }

  function DoGuardStep(s: State, t: nat, a: GuardAct): State
    requires CanGuard(s, t, a)
  {
    match a
    case DoCheck(known) =>
      var op := Pc0(s, t).op;
      s.(ts := To(s.ts, t, if known && Holder(s.tab.drv, op.path).Some? then ActRel(BUSY) else ActIn(op)))
    case Acts(newImg) =>
      var (fs, images) := Effect(s.fs, s.tab.images, Pc0(s, t).op, newImg);
      s.(ts := To(s.ts, t, ActRel(OK)), fs := fs, tab := s.tab.(images := images),
         writers := s.writers + Opened(fs, Pc0(s, t).op))
    case ActFails => s.(ts := To(s.ts, t, ActRel(FAIL)))
    case LeaveAct => s.(ts := To(Release(s.ts), t, Done(Pc0(s, t).code, [])))
  }

  function DoWorkStep(s: State, a: WorkAct): State
    requires CanWork(s, a)
  {
    match a
    case WTake =>
      var j := s.queue[0];
      s.(ts := WTo(s.ts, if s.jobs[j].kind == CLOSE then Closing(j) else Look(j)), queue := s.queue[1..])
    case WTakeTrack => s.(ts := s.ts.(track := Some(TheWorker), worker := Worker(s.ts.worker.pc, false)))
    case WTakeMtx => s.(ts := s.ts.(mtx := Some(TheWorker), worker := Worker(s.ts.worker.pc, false)))
    case WLook(connected) =>
      var j := s.ts.worker.pc.j;
      s.(ts := WTo(s.ts, AfterLook(s.tab, j, s.jobs[j], connected)))
    case WReads(ok) =>
      var Xfer(j, b) := s.ts.worker.pc;
      var io := s.jobs[j].io;
      var off := TrackOffset(io.track, io.len);
      if ok then s.(ts := WTo(s.ts, FillRead(j, b, s.tab.images[s.tab.backings[b].image][off..off + io.len])))
      else s.(ts := WTo(s.ts, Complete(j, FAIL)))
    case WWrites(ok, torn) =>
      var Xfer(j, b) := s.ts.worker.pc;
      var io := s.jobs[j].io;
      var img := s.tab.backings[b].image;
      var off := TrackOffset(io.track, io.len);
      var content := if ok then Patch(s.tab.images[img], off, s.jobs[j].data) else torn;
      s.(ts := WTo(s.ts, FillWrite(j, b, ok, s.tab.images[img])),
         tab := s.tab.(images := s.tab.images[img := content]), jobs := s.jobs[j := s.jobs[j].(stored := ok)])
    case WFillRead =>
      var FillRead(j, b, stage) := s.ts.worker.pc;
      var io := s.jobs[j].io;
      if DriveOk(io.drive) && io.drive < |s.tab.drv| && s.tab.drv[io.drive].mounted && s.tab.drv[io.drive].backing == Some(b)
      then s.(ts := WTo(s.ts, Complete(j, OK)),
              tab := s.tab.(buf := FillBuf(s.tab.buf, stage), cache := Valid(io.drive, io.track, io.len)))
      else s.(ts := WTo(s.ts, Complete(j, INVALID_STATE)))
    case WFillWrite =>
      var FillWrite(j, b, ok, _) := s.ts.worker.pc;
      var io := s.jobs[j].io;
      if !ok then s.(ts := WTo(s.ts, Complete(j, FAIL)), tab := s.tab.(cache := DropDrive(s.tab.cache, io.drive)))
      else if DriveOk(io.drive) && io.drive < |s.tab.drv| && s.tab.drv[io.drive].mounted && s.tab.drv[io.drive].backing == Some(b)
      then s.(ts := WTo(s.ts, Complete(j, OK)),
              tab := s.tab.(buf := FillBuf(s.tab.buf, s.jobs[j].data), cache := Valid(io.drive, io.track, io.len)))
      else s.(ts := WTo(s.ts, Complete(j, OK)))
    case WOpens(b, image, ro) =>
      s.(ts := WTo(s.ts, InstallIn(s.ts.worker.pc.j, b, ro, s.ts.worker.pc.url)),
          tab := s.tab.(backings := s.tab.backings[b := Backing(true, image, |s.tab.images[image]|, false, s.ts.worker.pc.url, ro)]),
          owner := s.owner[b := WithWorker])
    case WOpenFails(code) => s.(ts := WTo(s.ts, Complete(s.ts.worker.pc.j, code)))
    case WInstalls =>
      var InstallIn(j, b, ro, url) := s.ts.worker.pc;
      var d := s.jobs[j].io.drive;
      if DriveOk(d) && d < |s.tab.drv| && s.tab.drv[d].remote && !s.tab.drv[d].mounted && s.tab.drv[d].name == url
      then s.(ts := WTo(s.ts, Complete(j, OK)), owner := s.owner[b := InSlot(d)],
               tab := s.tab.(drv := s.tab.drv[d := s.tab.drv[d].(backing := Some(b), mounted := true, readonly := ro)],
                             cache := DropDrive(s.tab.cache, d)))
      else s.(ts := WTo(s.ts, Discard(j, b)))
    case WDiscards =>
      var Discard(j, b) := s.ts.worker.pc;
      s.(ts := WTo(s.ts, Complete(j, OK)), tab := s.tab.(backings := s.tab.backings - {b}), owner := s.owner - {b})
    case WCloses =>
      var j := s.ts.worker.pc.j;
      var b := s.jobs[j].bclose;
      s.(ts := WTo(s.ts, Complete(j, OK)), tab := s.tab.(backings := s.tab.backings - {b}), owner := s.owner - {b})
    case WCompletes =>
      var Complete(j, code) := s.ts.worker.pc;
      if s.jobs[j].abandoned || !s.jobs[j].sync then s.(ts := WTo(s.ts, FreeJob(j)))
      else s.(ts := WTo(s.ts, Unlock),
              jobs := s.jobs[j := s.jobs[j].(result := code, completed := true, signalled := true)])
    case WUnlocks => s.(ts := WTo(s.ts, WIdle))
    case WFrees => s.(ts := WTo(s.ts, WIdle), jobs := s.jobs - {s.ts.worker.pc.j})
  }

  function Marked(backings: map<nat, Backing>, image: nat): map<nat, Backing> {
    map b | b in backings :: if backings[b].image == image then backings[b].(foreign := true) else backings[b]
  }

  function DoFileStep(s: State, a: FileAct): State
    requires CanFile(s, a)
  {
    match a
    case HandleWrite(image, content) =>
      s.(tab := s.tab.(images := s.tab.images[image := content], backings := Marked(s.tab.backings, image)))
    case HandleClose(image) => s.(writers := s.writers - multiset{image})
  }

  function Apply(s: State, a: Action): State
    requires Enabled(s, a)
  {
    match a
    case OfIo(t, x) => DoIoStep(s, t, x)
    case OfJob(t, x) => DoJobStep(s, t, x)
    case OfMount(t, x) => DoMountStep(s, t, x)
    case OfGuard(t, x) => DoGuardStep(s, t, x)
    case OfWorker(x) => DoWorkStep(s, x)
    case OfFile(x) => DoFileStep(s, x)
  }

  /** What the worker decides in its first critical section (worker_read, worker_write,
      worker_mount), with the link test that follows it. */
  function AfterLook(tab: Table, j: nat, job: Job, connected: bool): (pc: WPc)
    requires TableOk(tab)
  {
    var d := job.io.drive;
    if job.kind == MOUNT then
      if !(DriveOk(d) && tab.drv[d].remote && !tab.drv[d].mounted && tab.drv[d].name != "") then Complete(j, OK)
      else if !connected then Complete(j, INVALID_STATE)
      else Opening(j, tab.drv[d].name)
    else if DriveOk(d) && tab.drv[d].mounted && tab.drv[d].remote && (job.kind == READ || !tab.drv[d].readonly)
            && TrackInBounds(job.io.track, job.io.len, tab.backings[tab.drv[d].backing.value].size) && connected
    then Xfer(j, tab.drv[d].backing.value)
    else Complete(j, INVALID_STATE)
  }

  ghost predicate Init(s: State) {
    && s.tab.drv == [EMPTY_SLOT, EMPTY_SLOT, EMPTY_SLOT, EMPTY_SLOT]
    && s.tab.backings == map[] && s.owner == map[] && s.tab.cache == Invalid && |s.tab.buf| == TRACK_BUF
    && s.jobs == map[] && s.queue == [] && s.writers == multiset{}
    && (forall t :: 0 <= t < |s.ts.callers| ==> s.ts.callers[t] == Caller(Idle, false))
    && s.ts.worker == Worker(WIdle, false)
    && s.ts.track == None && s.ts.mtx == None && s.ts.mount == None && s.ts.depth == 0
    && FsOk(s.fs, s.tab.images)
  }

  /** Distinct files are distinct images, and the card's root is no file. */
  ghost predicate FsOk(fs: map<Path, nat>, images: map<nat, seq<byte>>) {
    && [] !in fs
    && (forall p :: p in fs ==> fs[p] in images)
    && (forall p, q :: p in fs && q in fs && fs[p] == fs[q] ==> p == q)
  }

  ghost predicate StepsTo(s: State, s': State) {
    exists a :: Enabled(s, a) && s' == Apply(s, a)
  }

  ghost predicate StepAt(run: seq<State>, i: nat)
    requires i + 1 < |run|
  {
    StepsTo(run[i], run[i + 1])
  }

  /** Any sequence of states from an initial one, each a step after the last. */
  ghost predicate IsRun(run: seq<State>) {
    && |run| > 0 && Init(run[0])
    && forall i :: 0 <= i < |run| - 1 ==> StepAt(run, i)
  }
}
