/** Whole calls that mount a file of the card or change one (src/disk/disk.c). */
module DiskMounts {
  import opened Bytes
  import opened Protocol
  import opened DiskCore
  import opened DiskMachine
  import opened DiskJobs
  import opened DiskBackings
  import opened DiskData
  import opened DiskWriters
  import opened DiskCalls
  import opened DiskAnswers
  import opened DiskOwnership

  // ---- mounting ----

  /** Backing x is the file of this name as it is now, with all its bytes. */
  predicate IsFile(s: State, x: Backing, name: string, path: Path) {
    && path in s.fs && s.fs[path] in s.tab.images
    && !x.remote && x.name == name && x.image == s.fs[path] && x.size == |s.tab.images[s.fs[path]]|
  }

  /** Task t has the backing of a file just opened in its hands. */
  predicate Holds(s: State, t: nat, how: How) {
    t < |s.ts.callers| && how.Install? && s.ts.callers[t].pc.SwapIn? && s.ts.callers[t].pc.how == how && how.b in s.tab.backings
  }

  predicate SameFile(x: Backing, y: Backing) { x == y.(foreign := x.foreign) }

  lemma OpensFile(s: State, t: nat, b: nat)
    requires CanMount(s, t, Opens(b))
    ensures var (s', pc) := (DoMountStep(s, t, Opens(b)), s.ts.callers[t].pc);
            b in s'.tab.backings && IsFile(s, s'.tab.backings[b], pc.name, pc.path)
            && t < |s'.ts.callers| && s'.ts.callers[t].pc == SwapIn(pc.d, Install(b, pc.name, pc.path), Finish(OK))
  {}

  lemma OnlyOpens(s: State, a: Action, t: nat, how: How)
    requires Enabled(s, a) && Actor(a) == Some(t) && t < |s.ts.callers| && Holds(Apply(s, a), t, how)
    requires !Holds(s, t, how) && s.ts.callers[t].pc.MountIn?
    ensures a == OfMount(t, Opens(how.b))
  {}

  lemma ComesFromOpen(pc: Pc, pc': Pc, d: nat, name: string, path: Path)
    requires Mounts(pc, d, name, path) && Goes(pc, pc') && pc'.SwapIn? && pc'.how.Install?
    ensures pc == MountIn(d, name, path)
  {}

  lemma HeldSinceOpen(s: State, a: Action, t: nat, how: How, d: nat)
    requires Enabled(s, a) && t < |s.ts.callers| == |Apply(s, a).ts.callers| && Holds(Apply(s, a), t, how)
    requires Mounts(s.ts.callers[t].pc, d, how.name, how.path)
    requires s.ts.callers[t].pc == Apply(s, a).ts.callers[t].pc ==> how.b in s.tab.backings
    ensures if s.ts.callers[t].pc == Apply(s, a).ts.callers[t].pc
            then SameFile(Apply(s, a).tab.backings[how.b], s.tab.backings[how.b])
            else IsFile(s, Apply(s, a).tab.backings[how.b], how.name, how.path)
  {
    EachGoes(s, a, t);
    if s.ts.callers[t].pc == Apply(s, a).ts.callers[t].pc {
      BackingStays(s, a, how.b);
    } else {
      ComesFromOpen(s.ts.callers[t].pc, Apply(s, a).ts.callers[t].pc, d, how.name, how.path);
      OnlyOpens(s, a, t, how);
      OpensFile(s, t, how.b);
    }
  }

  lemma HeldIsOpen(run: seq<State>, n: nat, t: nat)
    requires IsRun(run) && n < |run| && t < |run[n].ts.callers|
    ensures var pc := run[n].ts.callers[t].pc; pc.SwapIn? && pc.how.Install? ==> pc.how.b in run[n].tab.backings
  {
    RunsKeepInv(run, n);
    assert CallerData(run[n].tab, run[n].fs, run[n].ts.callers[t].pc);
  }

  lemma HeldStep(run: seq<State>, n: nat, t: nat, how: How, d: nat)
    requires IsRun(run) && n + 1 < |run| && t < |run[n].ts.callers| == |run[n + 1].ts.callers| && Holds(run[n + 1], t, how)
    requires Mounts(run[n].ts.callers[t].pc, d, how.name, how.path)
    ensures if run[n].ts.callers[t].pc == run[n + 1].ts.callers[t].pc
            then Holds(run[n], t, how) && SameFile(run[n + 1].tab.backings[how.b], run[n].tab.backings[how.b])
            else IsFile(run[n], run[n + 1].tab.backings[how.b], how.name, how.path)
  {
    HeldIsOpen(run, n, t);
    var a := StepOf(run, n);
    HeldSinceOpen(run[n], a, t, how, d);
  }

  lemma HeldBefore(run: seq<State>, c: nat, n: nat, t: nat, call: Call, how: How)
    requires IsRun(run) && Spans(run, c, n, t, call) && call.MountLocal? && DriveOk(call.d) && call.name != "" && Holds(run[n], t, how)
    requires how.name == call.name && how.path == call.path
    ensures c + 1 < n
    ensures || (Holds(run[n - 1], t, how) && SameFile(run[n].tab.backings[how.b], run[n - 1].tab.backings[how.b]))
            || IsFile(run[n - 1], run[n].tab.backings[how.b], how.name, how.path)
  {
    if n > c + 1 {
      MountsBefore(run, c, n, t, call);
      HeldStep(run, n - 1, t, how, call.d);
    }
  }

  lemma MountsBefore(run: seq<State>, c: nat, n: nat, t: nat, call: Call)
    requires IsRun(run) && Spans(run, c, n, t, call) && call.MountLocal? && DriveOk(call.d) && call.name != "" && c + 1 < n
    ensures |run[n].ts.callers| == |run[n - 1].ts.callers| && Mounts(run[n - 1].ts.callers[t].pc, call.d, call.name, call.path)
  {
    Earlier(run, c, n - 1, n, t, call);
    CallStaysWithin(run, c, n - 1, t, call);
    StepGoes(run, n - 1, t);
  }

  /** The state of the call at which the file was opened. */
  lemma {:induction false} BackToOpen(run: seq<State>, c: nat, n: nat, t: nat, call: Call, how: How) returns (o: nat)
    requires IsRun(run) && Spans(run, c, n, t, call) && call.MountLocal? && DriveOk(call.d) && call.name != "" && Holds(run[n], t, how)
    requires how.name == call.name && how.path == call.path
    ensures c < o < n && IsFile(run[o], run[n].tab.backings[how.b].(foreign := false), how.name, how.path)
  {
    HeldBefore(run, c, n, t, call, how);
    if IsFile(run[n - 1], run[n].tab.backings[how.b], how.name, how.path) {
      o := n - 1;
    } else {
      Earlier(run, c, n - 1, n, t, call);
      o := BackToOpen(run, c, n - 1, t, call, how);
    }
  }

  /** At state m the drive shows the file of this name, writable, as it was found at state o,
      and known to be as long as it was then. */
  predicate ShowsFile(s: State, o: State, d: nat, name: string, path: Path) {
    && Installed(s.tab, d) && s.tab.drv[d].mounted && !s.tab.drv[d].remote && !s.tab.drv[d].readonly
    && s.tab.drv[d].name == name && s.tab.drv[d].canon == path && path in s.fs && ImageOf(s.tab, d) == s.fs[path]
    && IsFile(o, s.tab.backings[s.tab.drv[d].backing.value].(foreign := false), name, path)
  }

  lemma MountedFile(run: seq<State>, m: nat, d: nat)
    requires IsRun(run) && m < |run| && d < |run[m].tab.drv| && run[m].tab.drv[d].backing.Some? && !run[m].tab.drv[d].remote
    ensures var s := run[m];
            Installed(s.tab, d) && s.tab.drv[d].canon in s.fs && ImageOf(s.tab, d) == s.fs[s.tab.drv[d].canon]
  {
    RunsKeepInv(run, m);
    assert SlotOk(run[m].tab, run[m].tab.drv[d]) && LocalOk(run[m].tab, run[m].fs, d);
  }

  /** A mount from the card that is answered OK has mounted that very file: it was found and
      opened at some state o of the call, and on the drive at some state m. One that is
      refused has left the drive empty. */
  lemma MountMounts(run: seq<State>, c: nat, i: nat, t: nat, d: nat, name: string, path: Path, card: bool) returns (o: nat, m: nat)
    requires IsRun(run) && Spans(run, c, i, t, MountLocal(d, name, path, card)) && run[i].ts.callers[t].pc.Done?
    ensures var code := run[i].ts.callers[t].pc.code;
            if d >= MAX_DRIVE || name == "" then code == INVALID_ARG
            else
              && c < o < m <= i && d < |run[m].tab.drv|
              && if code == OK then ShowsFile(run[m], run[o], d, name, path)
                 else run[m].tab.drv[d] == Slot(false, false, false, "", [], None)
  {
    var call := MountLocal(d, name, path, card);
    CallStaysWithin(run, c, i, t, call);
    o, m := c + 1, i;
    if DriveOk(d) && name != "" {
      var ok := run[i].ts.callers[t].pc.code == OK;
      m := BackToSwap(run, c, i, t, call, ok);
      if ok {
        o := MountedAsFound(run, c, m, i, t, call);
      }
    }
  }

  lemma MountedAsFound(run: seq<State>, c: nat, m: nat, i: nat, t: nat, call: Call) returns (o: nat)
    requires IsRun(run) && Spans(run, c, i, t, call) && c < m - 1 && m <= i && SwappedIn(run[m - 1], run[m], t)
    requires call.MountLocal? && DriveOk(call.d) && call.name != "" && call.d < |run[m].tab.drv| && Makes(call, run[m].tab.drv[call.d], true)
    requires run[m - 1].ts.callers[t].pc.d == call.d
    ensures c < o < m && ShowsFile(run[m], run[o], call.d, call.name, call.path)
  {
    Earlier(run, c, m - 1, i, t, call);
    HeldIsOpen(run, m - 1, t);
    o := BackToOpen(run, c, m - 1, t, call, run[m - 1].ts.callers[t].pc.how);
    MountedFile(run, m, call.d);
  }

  // ---- changing a file ----

  /** The guarding task knows its answer. */
  predicate Told(pc: Pc, code: Code) { pc == ActRel(code) || (pc.Done? && pc.code == code) }

  lemma ToldBy(pc: Pc, pc': Pc, op: Op, code: Code)
    requires Within(Change(op), pc) && Goes(pc, pc') && Told(pc', code) && !Told(pc, code)
    ensures pc == CheckIn(op) || pc == ActIn(op)
    ensures pc' == ActRel(code)
  {}

  lemma ToldStep(run: seq<State>, n: nat, t: nat, op: Op, code: Code) returns (a: GuardAct)
    requires IsRun(run) && n + 1 < |run| && t < |run[n].ts.callers| == |run[n + 1].ts.callers|
    requires Within(Change(op), run[n].ts.callers[t].pc) && Told(run[n + 1].ts.callers[t].pc, code) && !Told(run[n].ts.callers[t].pc, code)
    ensures Tells(run[n], run[n + 1], t, op, a, code)
  {
    StepGoes(run, n, t);
    ToldBy(run[n].ts.callers[t].pc, run[n + 1].ts.callers[t].pc, op, code);
    var x := StepOf(run, n);
    TellsByItself(run[n], x, t, op, code);
    a := x.grd;
  }

  /** Task t's step gives the answer to a change: BUSY from the check, or what comes of it. */
  predicate Tells(s: State, s': State, t: nat, op: Op, a: GuardAct, code: Code) {
    && CanGuard(s, t, a) && s' == DoGuardStep(s, t, a) && t < |s'.ts.callers| && s'.ts.callers[t].pc == ActRel(code)
    && match a
       case DoCheck(_) => s.ts.callers[t].pc == CheckIn(op) && code == BUSY
       case Acts(_) => s.ts.callers[t].pc == ActIn(op) && code == OK
       case ActFails => s.ts.callers[t].pc == ActIn(op) && code == FAIL
       case LeaveAct => false
  }

  lemma TellsByItself(s: State, a: Action, t: nat, op: Op, code: Code)
    requires Enabled(s, a) && t < |s.ts.callers| == |Apply(s, a).ts.callers|
    requires s.ts.callers[t].pc == CheckIn(op) || s.ts.callers[t].pc == ActIn(op)
    requires Apply(s, a).ts.callers[t].pc == ActRel(code)
    ensures a.OfGuard? && Tells(s, Apply(s, a), t, op, a.grd, code)
  {
    if Actor(a) != Some(t) {
      OthersStay(s, a, t);
    } else {
      GuardActs(s, a, t);
      GuardTells(s, t, op, a.grd, code);
    }
  }

  lemma GuardActs(s: State, a: Action, t: nat)
    requires Enabled(s, a) && Actor(a) == Some(t) && t < |s.ts.callers| && (s.ts.callers[t].pc.CheckIn? || s.ts.callers[t].pc.ActIn?)
    ensures a.OfGuard?
  {}

  lemma GuardTells(s: State, t: nat, op: Op, a: GuardAct, code: Code)
    requires CanGuard(s, t, a) && t < |DoGuardStep(s, t, a).ts.callers| && DoGuardStep(s, t, a).ts.callers[t].pc == ActRel(code)
    requires s.ts.callers[t].pc == CheckIn(op) || s.ts.callers[t].pc == ActIn(op)
    ensures Tells(s, DoGuardStep(s, t, a), t, op, a, code)
  {}

  lemma ToldLater(run: seq<State>, c: nat, i: nat, t: nat, op: Op, code: Code)
    requires Spans(run, c, i, t, Change(op)) && Told(run[i].ts.callers[t].pc, code)
    ensures c + 1 < i
  {
    if i == c + 1 {
      assert false;
    }
  }

  lemma {:induction false} BackToAnswer(run: seq<State>, c: nat, i: nat, t: nat, op: Op, code: Code) returns (n: nat, a: GuardAct)
    requires IsRun(run) && Spans(run, c, i, t, Change(op)) && Told(run[i].ts.callers[t].pc, code)
    ensures c < n < i && Tells(run[n], run[n + 1], t, op, a, code)
  {
    ToldLater(run, c, i, t, op, code);
    Earlier(run, c, i - 1, i, t, Change(op));
    n := i - 1;
    if Told(run[n].ts.callers[t].pc, code) {
      n, a := BackToAnswer(run, c, n, t, op, code);
    } else {
      a := AnsweredHere(run, c, n, t, op, code);
    }
  }

  lemma AnsweredHere(run: seq<State>, c: nat, n: nat, t: nat, op: Op, code: Code) returns (a: GuardAct)
    requires IsRun(run) && Spans(run, c, n, t, Change(op)) && n + 1 < |run| && t < |run[n + 1].ts.callers|
    requires Told(run[n + 1].ts.callers[t].pc, code) && !Told(run[n].ts.callers[t].pc, code)
    ensures Tells(run[n], run[n + 1], t, op, a, code)
  {
    CallStaysWithin(run, c, n, t, Change(op));
    StepGoes(run, n, t);
    a := ToldStep(run, n, t, op, code);
  }

  /** The drive shows a local image that is the file or lies in the folder. */
  predicate Occupied(s: State, path: Path) {
    exists d :: 0 <= d < MAX_DRIVE && Installed(s.tab, d) && !s.tab.drv[d].remote && path <= s.tab.drv[d].canon
  }

  /** A change that is answered OK has been made at state n of the call, to a file that no
      drive showed then; one that is answered BUSY has been refused at a state at which a
      drive did show it; the card has failed any other, and nothing is changed. */
  lemma ChangeIsHonest(run: seq<State>, c: nat, i: nat, t: nat, op: Op) returns (n: nat, a: GuardAct)
    requires IsRun(run) && Spans(run, c, i, t, Change(op)) && run[i].ts.callers[t].pc.Done?
    ensures c < n < i
    ensures var (code, s, s') := (run[i].ts.callers[t].pc.code, run[n], run[n + 1]);
            && Enabled(s, OfGuard(t, a)) && s' == Apply(s, OfGuard(t, a))
            && match code
               case OK => a.Acts? && !Occupied(s, op.path) && (s'.fs, s'.tab.images) == Effect(s.fs, s.tab.images, op, a.newImg)
               case BUSY => a.DoCheck? && Occupied(s, op.path) && s'.fs == s.fs && s'.tab.images == s.tab.images
               case _ => code == FAIL && a.ActFails? && s'.fs == s.fs && s'.tab.images == s.tab.images
  {
    var code := run[i].ts.callers[t].pc.code;
    n, a := BackToAnswer(run, c, i, t, op, code);
    if a.DoCheck? {
      GuardIsExact(run, n, t, a.known);
      CheckChangesNothing(run[n], t, a);
    } else if a.Acts? {
      NotOccupied(run, n, t, a.newImg);
      ActHasEffect(run[n], t, a.newImg);
    } else {
      CheckChangesNothing(run[n], t, a);
    }
  }

  lemma CheckChangesNothing(s: State, t: nat, a: GuardAct)
    requires CanGuard(s, t, a) && !a.Acts?
    ensures DoGuardStep(s, t, a).fs == s.fs && DoGuardStep(s, t, a).tab.images == s.tab.images
  {}

  lemma ActHasEffect(s: State, t: nat, newImg: nat)
    requires CanGuard(s, t, Acts(newImg))
    ensures var s' := DoGuardStep(s, t, Acts(newImg));
            (s'.fs, s'.tab.images) == Effect(s.fs, s.tab.images, s.ts.callers[t].pc.op, newImg)
  {}

  lemma NotOccupied(run: seq<State>, n: nat, t: nat, newImg: nat)
    requires IsRun(run) && n < |run| && CanGuard(run[n], t, Acts(newImg))
    ensures !Occupied(run[n], run[n].ts.callers[t].pc.op.path)
  {
    forall d: nat | d < MAX_DRIVE && Installed(run[n].tab, d) && !run[n].tab.drv[d].remote
      ensures !(run[n].ts.callers[t].pc.op.path <= run[n].tab.drv[d].canon) {
      ChangesSpareMountedImages(run, n, t, newImg, d);
    }
  }

  /** The contents of the file at path k. */
  function Content(fs: map<Path, nat>, images: map<nat, seq<byte>>, k: Path): Option<seq<byte>> {
    if k in fs && fs[k] in images then Some(images[fs[k]]) else None
  }

  /** A delete takes away one file, and opening for writing empties it, makes it, or leaves it
      as it is; either leaves every other file as it is. */
  lemma ChangeDoesJustThat(fs: map<Path, nat>, images: map<nat, seq<byte>>, op: Op, newImg: nat)
    requires FsOk(fs, images) && CanAct(fs, images, op, newImg)
    ensures var (fs', images') := Effect(fs, images, op, newImg);
            match op
            case Delete(p) => p !in fs' && forall k :: k != p ==> Content(fs', images', k) == Content(fs, images, k)
            case OpenWrite(p, truncate) =>
              && Content(fs', images', p) == Some(if p in fs && !truncate then images[fs[p]] else [])
              && forall k :: k != p ==> Content(fs', images', k) == Content(fs, images, k)
            case Rename(_, _) => true
  {}

  /** A rename moves the file, or the folder with all it holds, and nothing else: every file
      is found under its new path, and every path found is some file's new path. */
  lemma RenameMovesAll(fs: map<Path, nat>, p: Path, q: Path)
    requires CanRename(fs, p, q)
    ensures forall k :: k in fs ==> MovedPath(p, q, k) in Renamed(fs, p, q) && Renamed(fs, p, q)[MovedPath(p, q, k)] == fs[k]
    ensures forall r :: r in Renamed(fs, p, q) ==> exists k :: k in fs && r == MovedPath(p, q, k)
  {
    forall k | k in fs ensures MovedPath(q, p, MovedPath(p, q, k)) == k {
      if p <= k {
        assert (q + k[|p|..])[|q|..] == k[|p|..] && p + k[|p|..] == k;
      }
    }
  }
}
