/** What goes wrong when an image is mounted while a file handle is open for writing on it,
    and that nothing else has to be asked for (src/disk/disk.c, src/net/tnfs_server.c,
    src/cli/commands.c). */
module DiskHandles {
  import opened Bytes
  import opened Protocol
  import opened DiskCore
  import opened DiskMachine
  import opened DiskLocks
  import opened DiskJobs
  import opened DiskData
  import opened DiskWriters
  import opened DiskTheorems

  /** A mounted SD image is changed by its own drive's writes alone if and only if no handle
      is open for writing on it. */
  lemma MountedImageIsSafeIff(s: State, d: int)
    requires Inv(s) && 0 <= d < MAX_DRIVE && Installed(s.tab, d) && !s.tab.drv[d].remote
    ensures (forall a :: Enabled(s, a) && !WriteStep(s, a) ==> SameImage(s, Apply(s, a), d))
            <==> ImageOf(s.tab, d) !in s.writers
  {
    if ImageOf(s.tab, d) in s.writers {
      var a := HandleChangesImage(s, d);
    } else {
      forall a | Enabled(s, a) && !WriteStep(s, a) ensures SameImage(s, Apply(s, a), d) {
        OnlyWritesChangeImages(s, a, d);
      }
    }
  }

  lemma HandleChangesImage(s: State, d: int) returns (a: Action)
    requires Inv(s) && 0 <= d < MAX_DRIVE && Installed(s.tab, d) && !s.tab.drv[d].remote && ImageOf(s.tab, d) in s.writers
    ensures Enabled(s, a) && !WriteStep(s, a) && !SameImage(s, Apply(s, a), d)
  {
    var i := ImageOf(s.tab, d);
    assert SlotOk(s.tab, s.tab.drv[d]) && HandleOk(s.tab, i);
    ViewAgrees(s.tab, s.fs, s.ts.worker.pc, s.jobs);
    a := OfFile(HandleWrite(i, s.tab.images[i] + [0]));
  }

  // ---- the cache ----

  /** `size` bytes that differ from b at `at`. */
  function Against(size: nat, at: nat, b: byte): (r: seq<byte>)
    ensures |r| == size && (at < size ==> r[at] != b)
  {
    seq(size, i => (b as int + 1) % 0x100)
  }

  /** The cached track is answered from the cache, whatever has become of the image. */
  lemma CacheHitIsBlind(t: Table, io: Io)
    requires TableOk(t) && t.cache == Cached(io) && Admitted(t, io) && io.len <= |t.buf|
    ensures ReadLocked(t, io, None) == (t, Returned(OK, t.buf[..io.len]))
  {
    CheckTrackExact(t, io);
  }

  /** With a handle open on a mounted image and a track of it in the cache, one write through
      the handle makes the cache stale, and it stays valid: the next read of the track is
      answered OK with bytes that the image does not have. */
  lemma HandleWriteMakesCacheStale(s: State, io: Io) returns (content: seq<byte>)
    requires Inv(s) && s.tab.cache == Cached(io) && Installed(s.tab, io.drive) && ImageOf(s.tab, io.drive) in s.writers
    ensures var a := OfFile(HandleWrite(ImageOf(s.tab, io.drive), content));
            && Enabled(s, a)
            && var tab' := Apply(s, a).tab;
               && TableOk(tab') && io.len <= |tab'.buf|
               && ReadLocked(tab', io, None) == (tab', Returned(OK, tab'.buf[..io.len]))
               && TrackBytes(tab', tab'.images, io) != Some(tab'.buf[..io.len])
  {
    var i := ImageOf(s.tab, io.drive);
    CacheAdmits(s, io);
    content := Spoiler(s.tab, io);
    HandleKeepsTable(s, i, content);
    StaleAfter(s.tab, Apply(s, OfFile(HandleWrite(i, content))).tab, i, content, io);
  }

  /** An image that the cached track is not a track of. */
  function Spoiler(t: Table, io: Io): seq<byte>
    requires Admitted(t, io) && io.len <= |t.buf|
  {
    Against(t.backings[t.drv[io.drive].backing.value].size, io.track * io.len, t.buf[0])
  }

  lemma StaleAfter(t: Table, t': Table, i: nat, content: seq<byte>, io: Io)
    requires t.cache == Cached(io) && Admitted(t, io) && io.len <= |t.buf| && ImageOf(t, io.drive) == i
    requires content == Spoiler(t, io)
    requires TableOk(t') && t' == t.(images := t.images[i := content], backings := Marked(t.backings, i))
    ensures ReadLocked(t', io, None) == (t', Returned(OK, t'.buf[..io.len]))
    ensures TrackBytes(t', t'.images, io) != Some(t'.buf[..io.len])
  {
    SameAdmission(t, t', i, io);
    CacheHitIsBlind(t', io);
    BytesDiffer(t', io, content, io.track * io.len);
  }

  lemma CacheAdmits(s: State, io: Io)
    requires Inv(s) && s.tab.cache == Cached(io)
    ensures Admitted(s.tab, io) && io.len <= |s.tab.buf|
  {}

  lemma HandleKeepsTable(s: State, i: nat, content: seq<byte>)
    requires Inv(s) && i in s.writers
    ensures Enabled(s, OfFile(HandleWrite(i, content))) && TableOk(Apply(s, OfFile(HandleWrite(i, content))).tab)
  {
    assert HandleOk(s.tab, i);
    KeepsInv(s, OfFile(HandleWrite(i, content)));
  }

  lemma SameAdmission(t: Table, t': Table, i: nat, io: Io)
    requires Admitted(t, io) && t'.drv == t.drv && t'.backings == Marked(t.backings, i)
    ensures Admitted(t', io) && ImageOf(t', io.drive) == ImageOf(t, io.drive)
  {}

  lemma BytesDiffer(t: Table, io: Io, content: seq<byte>, at: nat)
    requires Admitted(t, io) && io.len <= |t.buf| && ImageOf(t, io.drive) in t.images
    requires t.images[ImageOf(t, io.drive)] == content && at == io.track * io.len && at + io.len <= |content|
    requires content[at] != t.buf[0]
    ensures TrackBytes(t, t.images, io) != Some(t.buf[..io.len])
  {
    assert content[at..at + io.len][0] == content[at] != t.buf[..io.len][0];
  }

  // ---- a run that comes to it ----

  /** As `ts`, but task t stands at pc with the given locks. */
  function Standing(ts: Tasks, t: nat, pc: Pc, mount: bool, track: bool): Tasks
    requires t < |ts.callers|
  {
    ts.(callers := ts.callers[t := Caller(pc, false)], track := if track then Some(Task(t)) else None,
        mount := if mount then Some(t) else None, depth := if mount then 1 else 0)
  }

  /** The run has come to state s, up to where t stands, and b has been open from state n on. */
  ghost predicate At(run: seq<State>, n: nat, b: nat, s: State, t: nat, pc: Pc, mount: bool, track: bool)
    requires t < |s.ts.callers|
  {
    && IsRun(run) && run[|run| - 1] == s.(ts := Standing(s.ts, t, pc, mount, track))
    && OpenSince(run, n, b)
  }

  ghost predicate OpenSince(run: seq<State>, n: nat, b: nat) { forall k :: n <= k < |run| ==> b in run[k].tab.backings }

  lemma Extend(run: seq<State>, a: Action) returns (run': seq<State>)
    requires IsRun(run) && Enabled(run[|run| - 1], a)
    ensures IsRun(run') && run' == run + [Apply(run[|run| - 1], a)]
  {
    run' := run + [Apply(run[|run| - 1], a)];
    forall i | 0 <= i < |run'| - 1 ensures StepAt(run', i) {
      if i < |run| - 1 {
        assert StepAt(run, i);
      }
    }
  }

  /** One step of a run that has come so far, to a state in which b is open, too. */
  lemma Step(run: seq<State>, n: nat, b: nat, s: State, t: nat, pc: Pc, mount: bool, track: bool, a: Action)
      returns (run': seq<State>)
    requires t < |s.ts.callers| && At(run, n, b, s, t, pc, mount, track)
    requires var s0 := s.(ts := Standing(s.ts, t, pc, mount, track));
             Enabled(s0, a) && (n <= |run| ==> b in Apply(s0, a).tab.backings)
    ensures IsRun(run') && run < run' && OpenSince(run', n, b) && |run'| == |run| + 1
    ensures run'[|run'| - 1] == Apply(s.(ts := Standing(s.ts, t, pc, mount, track)), a)
  {
    run' := Extend(run, a);
  }

  /** A task between calls asks for an image to be mounted, and has the mount lock. */
  lemma AsksForMount(run: seq<State>, b: nat, s: State, t: nat, d: nat, name: string, p: Path) returns (run': seq<State>)
    requires name != "" && t < |s.ts.callers| && At(run, |run| + 2, b, s, t, Idle, false, false) && d < MAX_DRIVE
    ensures run < run' && At(run', |run'|, b, s, t, MountIn(d, name, p), true, false)
  {
    run' := Step(run, |run| + 2, b, s, t, Idle, false, false, OfJob(t, Start(MountLocal(d, name, p, true))));
    assert At(run', |run| + 2, b, s, t, MountWant(d, name, p), false, false);
    run' := Step(run', |run| + 2, b, s, t, MountWant(d, name, p), false, false, OfMount(t, TakeMount));
  }

  /** What the opening of an image leaves. */
  function WithOpened(s: State, t: nat, name: string, p: Path, b: nat): State
    requires p in s.fs && s.fs[p] in s.tab.images && |s.tab.images[s.fs[p]]| <= UINT32_MAX
  {
    var sdFile := Backing(false, s.fs[p], |s.tab.images[s.fs[p]]|, false, name, false);
    s.(tab := s.tab.(backings := s.tab.backings[b := sdFile]), owner := s.owner[b := WithCaller(t)])
  }

  lemma Opens(run: seq<State>, b: nat, s: State, t: nat, d: nat, name: string, p: Path) returns (run': seq<State>)
    requires t < |s.ts.callers| && At(run, |run|, b, s, t, MountIn(d, name, p), true, false)
    requires p in s.fs && s.fs[p] in s.tab.images && |s.tab.images[s.fs[p]]| <= UINT32_MAX
    requires b !in s.tab.backings && FreeElsewhere(s.tab, d, s.fs[p])
    ensures |run'| == |run| + 2 && run < run'
    ensures run'[|run|] == Apply(run[|run| - 1], OfMount(t, DiskMachine.Opens(b)))
    ensures At(run', |run|, b, WithOpened(s, t, name, p, b), t, SwapIn(d, Install(b, name, p), Finish(OK)), true, true)
  {
    var mid := Step(run, |run|, b, s, t, MountIn(d, name, p), true, false, OfMount(t, DiskMachine.Opens(b)));
    run' := Extend(mid, OfJob(t, TakeTrack));
  }

  /** The image is in the table, and the lock is given back. */
  lemma Swaps(run: seq<State>, n: nat, b: nat, s: State, t: nat, d: nat, name: string, p: Path)
      returns (run': seq<State>, s': State)
    requires t < |s.ts.callers| && At(run, n, b, s, t, SwapIn(d, Install(b, name, p), Finish(OK)), true, true)
    requires d < |s.tab.drv| && b in s.tab.backings && n <= |run|
    ensures run < run' && s'.ts == s.ts && Shown(s, s', d, name, p, b)
    ensures At(run', n, b, s', t, Dispose(Olds(s.tab.drv[d]), Finish(OK)), false, false)
  {
    run' := Step(run, n, b, s, t, SwapIn(d, Install(b, name, p), Finish(OK)), true, true, OfMount(t, DoSwap));
    s' := run'[|run'| - 1].(ts := s.ts);
    assert At(run', n, b, s', t, SwapRel(Olds(s.tab.drv[d]), Finish(OK)), true, false);
    run' := LeavesSwap(run', n, b, s', t, Olds(s.tab.drv[d]));
  }

  lemma LeavesSwap(run: seq<State>, n: nat, b: nat, s: State, t: nat, olds: seq<Old>) returns (run': seq<State>)
    requires t < |s.ts.callers| && At(run, n, b, s, t, SwapRel(olds, Finish(OK)), true, false) && b in s.tab.backings
    ensures run < run' && At(run', n, b, s, t, Dispose(olds, Finish(OK)), false, false)
  {
    run' := Step(run, n, b, s, t, SwapRel(olds, Finish(OK)), true, false, OfMount(t, LeaveSwap));
  }

  lemma Returns(run: seq<State>, n: nat, b: nat, s: State, t: nat, code: Code, bytes: seq<byte>) returns (run': seq<State>)
    requires t < |s.ts.callers| && At(run, n, b, s, t, Done(code, bytes), false, false) && b in s.tab.backings
    ensures run < run' && At(run', n, b, s, t, Idle, false, false)
  {
    run' := Step(run, n, b, s, t, Done(code, bytes), false, false, OfJob(t, Return));
  }

  function Olds(slot: Slot): seq<Old> { if slot.backing.Some? then [Old(slot.backing.value, slot.remote)] else [] }

  /** Backing b is on drive d; images, handles and b itself are as before. */
  predicate Shown(s: State, s': State, d: nat, name: string, p: Path, b: nat)
    requires d < |s.tab.drv|
  {
    && s'.tab.drv == s.tab.drv[d := Slot(true, false, false, name, p, Some(b))]
    && s'.tab.images == s.tab.images && s'.writers == s.writers
    && s'.tab.backings == s.tab.backings
  }

  /** What was in the slot is closed, or given up. */
  lemma Disposes(run: seq<State>, n: nat, b: nat, s: State, t: nat, olds: seq<Old>) returns (run': seq<State>, s': State)
    requires t < |s.ts.callers| && At(run, n, b, s, t, Dispose(olds, Finish(OK)), false, false)
    requires |olds| <= 1 && (olds != [] ==> olds[0].b != b) && b in s.tab.backings && n <= |run|
    ensures run < run' && s'.ts == s.ts && At(run', n, b, s', t, Idle, false, false)
    ensures s'.tab == s.tab.(backings := s'.tab.backings) && s'.writers == s.writers
    ensures b in s'.tab.backings && s'.tab.backings[b] == s.tab.backings[b]
  {
    s' := s;
    run' := run;
    if olds != [] {
      assert olds == [olds[0]];
      run', s' := DisposesOne(run, n, b, s, t, olds[0]);
    }
    run' := DisposesNone(run', n, b, s', t);
    run' := Returns(run', n, b, s', t, OK, []);
  }

  lemma DisposesNone(run: seq<State>, n: nat, b: nat, s: State, t: nat) returns (run': seq<State>)
    requires t < |s.ts.callers| && At(run, n, b, s, t, Dispose([], Finish(OK)), false, false) && b in s.tab.backings
    ensures run < run' && At(run', n, b, s, t, Done(OK, []), false, false)
  {
    run' := Step(run, n, b, s, t, Dispose([], Finish(OK)), false, false, OfMount(t, DoDispose));
  }

  lemma DisposesOne(run: seq<State>, n: nat, b: nat, s: State, t: nat, old': Old) returns (run': seq<State>, s': State)
    requires t < |s.ts.callers| && At(run, n, b, s, t, Dispose([old'], Finish(OK)), false, false)
    requires old'.b != b && b in s.tab.backings && n <= |run|
    ensures run < run' && s'.ts == s.ts && At(run', n, b, s', t, Dispose([], Finish(OK)), false, false)
    ensures s'.tab == s.tab.(backings := s'.tab.backings) && s'.writers == s.writers
    ensures b in s'.tab.backings && s'.tab.backings[b] == s.tab.backings[b]
  {
    assert [old'][1..] == [];
    run' := Step(run, n, b, s, t, Dispose([old'], Finish(OK)), false, false, OfMount(t, DoDispose));
    s' := run'[|run'| - 1].(ts := s.ts);
    if old'.remote {
      var k := ForClose(old'.b, [], Finish(OK));
      assert At(run', n, b, s', t, MakeJob(k), false, false);
      run', s' := GivesUp(run', n, b, s', t, k);
    }
  }

  lemma GivesUp(run: seq<State>, n: nat, b: nat, s: State, t: nat, k: Kont) returns (run': seq<State>, s': State)
    requires t < |s.ts.callers| && At(run, n, b, s, t, MakeJob(k), false, false) && b in s.tab.backings
    requires k.ForClose? && k.rest == [] && k.next == Finish(OK)
    ensures run < run' && s'.ts == s.ts && s'.tab == s.tab && s'.writers == s.writers
    ensures At(run', n, b, s', t, Dispose([], Finish(OK)), false, false)
  {
    run' := Step(run, n, b, s, t, MakeJob(k), false, false, OfJob(t, NoJob));
    s' := run'[|run'| - 1].(ts := s.ts);
  }

  lemma StartsRead(run: seq<State>, n: nat, b: nat, s: State, t: nat, io: Io) returns (run': seq<State>)
    requires t < |s.ts.callers| && At(run, n, b, s, t, Idle, false, false) && b in s.tab.backings
    ensures run < run' && At(run', n, b, s, t, ReadIn(io), false, true)
  {
    run' := Step(run, n, b, s, t, Idle, false, false, OfJob(t, Start(Read(io))));
    run' := Extend(run', OfJob(t, TakeTrack));
  }

  /** A track is read inside the lock. */
  lemma Reads(run: seq<State>, n: nat, b: nat, s: State, t: nat, io: Io) returns (run': seq<State>)
    requires t < |s.ts.callers| && At(run, n, b, s, t, Idle, false, false) && b in s.tab.backings
    requires TableOk(s.tab) && ReadLocked(s.tab, io, None).1.Returned?
    ensures run < run' && At(run', n, b, s.(tab := ReadLocked(s.tab, io, None).0), t, Idle, false, false)
  {
    run' := StartsRead(run, n, b, s, t, io);
    run' := ReadsLocked(run', n, b, s, t, io);
    var (tab, out) := ReadLocked(s.tab, io, None);
    run' := Returns(run', n, b, s.(tab := tab), t, out.code, out.bytes);
  }

  lemma ReadsLocked(run: seq<State>, n: nat, b: nat, s: State, t: nat, io: Io) returns (run': seq<State>)
    requires t < |s.ts.callers| && At(run, n, b, s, t, ReadIn(io), false, true) && b in s.tab.backings
    requires TableOk(s.tab) && ReadLocked(s.tab, io, None).1.Returned?
    ensures var (tab, out) := ReadLocked(s.tab, io, None);
            run < run' && At(run', n, b, s.(tab := tab), t, Done(out.code, out.bytes), false, false)
  {
    run' := Step(run, n, b, s, t, ReadIn(io), false, true, OfIo(t, DoRead(None)));
  }

  // ---- what reads see of a backing ----

  /** A read of backing b that is answered OK in the next step. */
  predicate AnswersRead(s: State, t: nat, a: IoAct, b: nat) {
    && CanIo(s, t, a) && (a.DoRead? || a.DoCopy?)
    && var (io, pc') := (s.ts.callers[t].pc.io, DoIoStep(s, t, a).ts.callers[t].pc);
    && 0 <= io.drive < |s.tab.drv| && s.tab.drv[io.drive].backing == Some(b)
    && pc'.Done? && pc'.code == OK
  }

  /** Every such read returns the image's bytes. */
  ghost predicate ReadsTrue(s: State, b: nat) {
    forall t: nat, a :: AnswersRead(s, t, a, b) ==>
      TrackBytes(s.tab, View(s.tab, s.ts.worker.pc), s.ts.callers[t].pc.io) == Some(DoIoStep(s, t, a).ts.callers[t].pc.bytes)
  }

  lemma CleanReadsTrue(run: seq<State>, i: nat, b: nat)
    requires IsRun(run) && i < |run| && Clean(run[i], b)
    ensures ReadsTrue(run[i], b)
  {
    var s := run[i];
    forall t: nat, a | AnswersRead(s, t, a, b)
      ensures TrackBytes(s.tab, View(s.tab, s.ts.worker.pc), s.ts.callers[t].pc.io) == Some(DoIoStep(s, t, a).ts.callers[t].pc.bytes) {
      assert !Unwatched(s, b);
      ReadReturnsMountedBytes(run, i, t, a, DoIoStep(s, t, a).ts.callers[t].pc.bytes);
    }
  }

  lemma StaleReadIsFalse(run: seq<State>, t: nat, b: nat, io: Io)
    requires IsRun(run)
    requires var s := run[|run| - 1]; CanIo(s, t, DoRead(None)) && s.ts.callers[t].pc == ReadIn(io) && Stale(s.tab, io, b)
    ensures !ReadsTrue(run[|run| - 1], b)
  {
    var s := run[|run| - 1];
    ViewsAgree(run, |run| - 1);
    SameTrack(s.tab, View(s.tab, s.ts.worker.pc), io);
    assert AnswersRead(s, t, DoRead(None), b);
  }

  lemma ViewsAgree(run: seq<State>, i: nat)
    requires IsRun(run) && i < |run|
    ensures LocalsAgree(run[i].tab, View(run[i].tab, run[i].ts.worker.pc))
  {
    RunsKeepInv(run, i);
    ViewAgrees(run[i].tab, run[i].fs, run[i].ts.worker.pc, run[i].jobs);
  }

  lemma SameTrack(t: Table, view: map<nat, seq<byte>>, io: Io)
    requires TableOk(t) && LocalsAgree(t, view) && Installed(t, io.drive) && !t.drv[io.drive].remote
    ensures TrackBytes(t, view, io) == TrackBytes(t, t.images, io)
  {}

  /** A read that fills the cache. */
  lemma ReadFills(t: Table, io: Io)
    requires TableOk(t) && Admitted(t, io) && Untouched(t, io.drive) && !t.drv[io.drive].remote
    ensures var (t', out) := ReadLocked(t, io, None);
            && out.Returned? && t'.cache == Cached(io)
            && t'.drv == t.drv && t'.backings == t.backings && t'.images == t.images
  {
    assert SlotOk(t, t.drv[io.drive]);
    CheckTrackExact(t, io);
  }

  lemma TableIsOk(run: seq<State>, i: nat)
    requires IsRun(run) && i < |run|
    ensures TableOk(run[i].tab)
  {
    RunsKeepInv(run, i);
  }

  /** With b mounted on a drive and a handle open on its image: a track of it is read and
      then written to through the handle, and the next read of the track is false. */
  lemma ReadGoesStale(run: seq<State>, n: nat, b: nat, s: State, t: nat, io: Io) returns (run': seq<State>)
    requires t < |s.ts.callers| && At(run, n, b, s, t, Idle, false, false) && n <= |run|
    requires Admitted(s.tab, io) && Untouched(s.tab, io.drive) && !s.tab.drv[io.drive].remote
    requires s.tab.drv[io.drive].backing == Some(b) && ImageOf(s.tab, io.drive) in s.writers
    ensures IsRun(run') && run < run' && OpenSince(run', n, b) && !ReadsTrue(run'[|run'| - 1], b)
  {
    TableIsOk(run, |run| - 1);
    ReadFills(s.tab, io);
    run' := Reads(run, n, b, s, t, io);
    run' := CachedGoesStale(run', n, b, s.(tab := ReadLocked(s.tab, io, None).0), t, io);
  }

  lemma CachedGoesStale(run: seq<State>, n: nat, b: nat, s: State, t: nat, io: Io) returns (run': seq<State>)
    requires t < |s.ts.callers| && At(run, n, b, s, t, Idle, false, false) && n <= |run|
    requires s.tab.cache == Cached(io) && Installed(s.tab, io.drive) && !s.tab.drv[io.drive].remote
    requires s.tab.drv[io.drive].backing == Some(b) && ImageOf(s.tab, io.drive) in s.writers
    ensures IsRun(run') && run < run' && OpenSince(run', n, b) && !ReadsTrue(run'[|run'| - 1], b)
  {
    var s';
    run', s' := HandleWrites(run, n, b, s, t, io);
    run' := StartsRead(run', n, b, s', t, io);
    LastReadIsFalse(run', n, b, s', t, io);
  }

  lemma LastReadIsFalse(run: seq<State>, n: nat, b: nat, s: State, t: nat, io: Io)
    requires t < |s.ts.callers| && At(run, n, b, s, t, ReadIn(io), false, true) && Stale(s.tab, io, b)
    ensures !ReadsTrue(run[|run| - 1], b)
  {
    StaleReadIsFalse(run, t, b, io);
  }

  /** A table whose cache answers a read of this track wrongly. */
  predicate Stale(tab: Table, io: Io, b: nat) {
    && Installed(tab, io.drive) && tab.drv[io.drive].backing == Some(b) && !tab.drv[io.drive].remote
    && TableOk(tab) && io.len <= |tab.buf| && ReadLocked(tab, io, None).1 == Returned(OK, tab.buf[..io.len])
    && TrackBytes(tab, tab.images, io) != Some(tab.buf[..io.len])
  }

  lemma HandleCanMakeStale(run: seq<State>, b: nat, io: Io) returns (content: seq<byte>)
    requires IsRun(run)
    requires var tab := run[|run| - 1].tab;
             && tab.cache == Cached(io) && Installed(tab, io.drive) && !tab.drv[io.drive].remote
             && tab.drv[io.drive].backing == Some(b) && ImageOf(tab, io.drive) in run[|run| - 1].writers
    ensures var (s, i) := (run[|run| - 1], ImageOf(run[|run| - 1].tab, io.drive));
            Enabled(s, OfFile(HandleWrite(i, content))) && Stale(Apply(s, OfFile(HandleWrite(i, content))).tab, io, b)
  {
    RunsKeepInv(run, |run| - 1);
    content := HandleWriteMakesCacheStale(run[|run| - 1], io);
  }

  lemma HandleWrites(run: seq<State>, n: nat, b: nat, s: State, t: nat, io: Io) returns (run': seq<State>, s': State)
    requires t < |s.ts.callers| && At(run, n, b, s, t, Idle, false, false) && n <= |run|
    requires s.tab.cache == Cached(io) && Installed(s.tab, io.drive) && !s.tab.drv[io.drive].remote
    requires s.tab.drv[io.drive].backing == Some(b) && ImageOf(s.tab, io.drive) in s.writers
    ensures run < run' && s'.ts == s.ts && At(run', n, b, s', t, Idle, false, false) && Stale(s'.tab, io, b)
  {
    var last := run[|run| - 1];
    var content := HandleCanMakeStale(run, b, io);
    var a := OfFile(HandleWrite(ImageOf(s.tab, io.drive), content));
    run' := Step(run, n, b, s, t, Idle, false, false, a);
    s' := s.(tab := Apply(last, a).tab);
  }

  /** An image is about to be opened for mounting, and the track lock is free: with a handle
      open for writing on the image, a read of any of its tracks can go wrong. */
  lemma OpenedGoesStale(run: seq<State>, t: nat, b: nat, io: Io) returns (run': seq<State>)
    requires IsRun(run) && MayOpen(run[|run| - 1], t, b, io) && Opening(run[|run| - 1], t) in run[|run| - 1].writers
    ensures Mounting(run, t, b, run') && !ReadsTrue(run'[|run'| - 1], b)
  {
    var s := run[|run| - 1];
    var MountIn(d, name, p) := s.ts.callers[t].pc;
    StandsToOpen(run, t, b);
    run' := Opens(run, b, s, t, d, name, p);
    run' := InstalledGoesStale(run', |run|, b, WithOpened(s, t, name, p, b), t, d, name, p, io);
  }

  lemma StandsToOpen(run: seq<State>, t: nat, b: nat)
    requires IsRun(run) && CanMount(run[|run| - 1], t, DiskMachine.Opens(b)) && run[|run| - 1].ts.track.None?
    ensures var (s, pc) := (run[|run| - 1], run[|run| - 1].ts.callers[t].pc);
            && At(run, |run|, b, s, t, pc, true, false)
            && pc.d < |s.tab.drv| && s.tab.drv[pc.d].backing != Some(b)
  {
    OpenerHasTheLock(run, t, b);
  }

  lemma OpenerHasTheLock(run: seq<State>, t: nat, b: nat)
    requires IsRun(run) && CanMount(run[|run| - 1], t, DiskMachine.Opens(b))
    ensures var (s, pc) := (run[|run| - 1], run[|run| - 1].ts.callers[t].pc);
            && s.ts.mount == Some(t) && s.ts.depth == 1 && pc.d < |s.tab.drv| && s.tab.drv[pc.d].backing != Some(b)
  {
    RunsKeepInv(run, |run| - 1);
    HasTheLock(run[|run| - 1], t);
    SlotHoldsOther(run[|run| - 1], t, b);
  }

  lemma HasTheLock(s: State, t: nat)
    requires LockInv(s.ts) && t < |s.ts.callers| && s.ts.callers[t].pc.MountIn?
    ensures s.ts.mount == Some(t) && s.ts.depth == 1
  {
    assert CallerLocks(s.ts, t, s.ts.callers[t]);
  }

  lemma SlotHoldsOther(s: State, t: nat, b: nat)
    requires JobInv(s.jobs, s.queue, s.ts) && TableOk(s.tab) && t < |s.ts.callers| && s.ts.callers[t].pc.MountIn?
    requires b !in s.tab.backings
    ensures s.ts.callers[t].pc.d < |s.tab.drv| && s.tab.drv[s.ts.callers[t].pc.d].backing != Some(b)
  {
    assert CallerJob(s.jobs, s.queue, WRef(s.ts.worker.pc), t, s.ts.callers[t].pc);
    assert SlotOk(s.tab, s.tab.drv[s.ts.callers[t].pc.d]);
  }

  lemma InstalledGoesStale(run: seq<State>, n: nat, b: nat, s: State, t: nat, d: nat, name: string, p: Path, io: Io)
      returns (run': seq<State>)
    requires t < |s.ts.callers| && At(run, n, b, s, t, SwapIn(d, Install(b, name, p), Finish(OK)), true, true)
    requires d < |s.tab.drv| && s.tab.drv[d].backing != Some(b) && b in s.tab.backings && n <= |run|
    requires var x := s.tab.backings[b];
             && !x.remote && !x.foreign && x.image in s.writers && io.drive == d
             && 1 <= io.len <= TRACK_BUF && io.track * io.len + io.len <= x.size
    ensures IsRun(run') && run < run' && OpenSince(run', n, b) && !ReadsTrue(run'[|run'| - 1], b)
  {
    var s';
    run', s' := Swaps(run, n, b, s, t, d, name, p);
    run', s' := Disposes(run', n, b, s', t, Olds(s.tab.drv[d]));
    run' := ReadGoesStale(run', n, b, s', t, io);
  }

  /** The image that t is about to open for mounting. */
  function Opening(s: State, t: nat): nat
    requires t < |s.ts.callers| && s.ts.callers[t].pc.MountIn? && s.ts.callers[t].pc.path in s.fs
  {
    s.fs[s.ts.callers[t].pc.path]
  }

  /** Task t may open an image for mounting as b; io is a track of it, on the drive it is for. */
  predicate MayOpen(s: State, t: nat, b: nat, io: Io) {
    && CanMount(s, t, DiskMachine.Opens(b)) && s.ts.track.None?
    && io.drive == s.ts.callers[t].pc.d && 1 <= io.len <= TRACK_BUF
    && io.track * io.len + io.len <= |s.tab.images[Opening(s, t)]|
  }

  /** The run goes on with the opening, and ends while b is still open. */
  ghost predicate Mounting(run: seq<State>, t: nat, b: nat, run': seq<State>)
    requires run != [] && Enabled(run[|run| - 1], OfMount(t, DiskMachine.Opens(b)))
  {
    && IsRun(run') && run < run' && run'[|run|] == Apply(run[|run| - 1], OfMount(t, DiskMachine.Opens(b)))
    && OpenSince(run', |run|, b)
  }

  /** Mounting an image is safe if and only if no handle is open for writing on it: then, and
      only then, is every read that is answered from it true, whatever else happens, for as
      long as it is mounted. */
  lemma MountIsSafeIff(run: seq<State>, t: nat, b: nat, io: Io)
    requires IsRun(run) && MayOpen(run[|run| - 1], t, b, io)
    ensures (forall run' :: Mounting(run, t, b, run') ==> ReadsTrue(run'[|run'| - 1], b))
            <==> Opening(run[|run| - 1], t) !in run[|run| - 1].writers
  {
    if Opening(run[|run| - 1], t) in run[|run| - 1].writers {
      var run' := OpenedGoesStale(run, t, b, io);
    } else {
      forall run' | Mounting(run, t, b, run') ensures ReadsTrue(run'[|run'| - 1], b) {
        OpenedStaysTrue(run, t, b, run');
      }
    }
  }

  lemma OpenedStaysTrue(run: seq<State>, t: nat, b: nat, run': seq<State>)
    requires IsRun(run) && CanMount(run[|run| - 1], t, DiskMachine.Opens(b)) && Mounting(run, t, b, run')
    requires Opening(run[|run| - 1], t) !in run[|run| - 1].writers
    ensures ReadsTrue(run'[|run'| - 1], b)
  {
    RunsKeepInv(run, |run| - 1);
    OpenedClean(run[|run| - 1], t, b);
    StaysClean(run', |run|, |run'| - 1, b);
    CleanReadsTrue(run', |run'| - 1, b);
  }

  lemma StandsIdle(run: seq<State>, t: nat, b: nat)
    requires IsRun(run)
    requires var s := run[|run| - 1];
             t < |s.ts.callers| && s.ts.callers[t] == Caller(Idle, false) && s.ts.track.None? && s.ts.mount.None?
    ensures At(run, |run| + 2, b, run[|run| - 1], t, Idle, false, false)
  {
    RunsKeepInv(run, |run| - 1);
  }

  /** Such a run starts wherever some task is between calls and the two locks are free: any
      file that a handle is open for writing on, any drive, and any track. */
  lemma WriterMakesReadsStale(run: seq<State>, t: nat, d: nat, name: string, p: Path, b: nat, io: Io) returns (run': seq<State>)
    requires IsRun(run)
    requires var s := run[|run| - 1];
             && t < |s.ts.callers| && s.ts.callers[t] == Caller(Idle, false) && s.ts.track.None? && s.ts.mount.None?
             && name != "" && d < MAX_DRIVE && io.drive == d && 1 <= io.len <= TRACK_BUF && b !in s.tab.backings
             && p in s.fs && s.fs[p] in s.writers && s.fs[p] in s.tab.images && FreeElsewhere(s.tab, d, s.fs[p])
             && io.track * io.len + io.len <= |s.tab.images[s.fs[p]]| <= UINT32_MAX
    ensures IsRun(run') && run < run' && !ReadsTrue(run'[|run'| - 1], b)
  {
    StandsIdle(run, t, b);
    var asked := AsksForMount(run, b, run[|run| - 1], t, d, name, p);
    run' := OpenedGoesStale(asked, t, b, io);
  }
}
