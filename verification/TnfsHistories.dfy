/** When the TNFS exchange is exactly-once: the condition on what the client has been
    through, and the condition on when a session ends (src/net/tnfs.c,
    src/net/tnfs_server.c). */
module TnfsHistories {
  import opened Bytes
  import opened TnfsProto
  import opened TnfsLink

  function Final(run: seq<State>): State
    requires run != []
  {
    run[|run| - 1]
  }

  /** What a client can go through: MOUNT first and only then, nothing after a MOUNT given
      up on or after UMOUNT. */
  predicate WellFormed(h: seq<Turn>) {
    && (h != [] ==> h[0].code == MOUNT)
    && (forall k :: 0 < k < |h| ==> MayFollow(h, k))
  }

  predicate MayFollow(h: seq<Turn>, k: nat)
    requires 0 < k < |h|
  {
    h[k].code != MOUNT && h[k - 1].code != UMOUNT && h[0].ok
  }

  /** The run ends between commands, and the client has been through h. */
  ghost predicate Had(run: seq<State>, h: seq<Turn>) {
    IsRun(run) && !Final(run).waiting && Hist(Final(run)) == h
  }

  /** Whatever the network and the server do, a client that goes through h has had its
      commands executed exactly once. */
  ghost predicate AlwaysExactlyOnce(h: seq<Turn>) {
    forall run :: Had(run, h) ==> ExactlyOnceAt(Final(run))
  }

  // ---- putting runs together ----

  lemma Extend(run: seq<State>, a: Step) returns (run': seq<State>)
    requires IsRun(run) && Enabled(Final(run), a) && !a.SessionEnds?
    ensures IsRun(run') && Final(run') == Apply(Final(run), a)
  {
    run' := run + [Apply(Final(run), a)];
    forall i | 0 <= i < |run'| - 1 ensures Follows(run'[i], run'[i + 1]) {
      if i < |run| - 1 {
        assert Follows(run[i], run[i + 1]);
      } else {
        assert Settled(Final(run), a);
      }
    }
  }

  /** Nothing is under way and nothing on its way. */
  predicate Drained(s: State) { !s.waiting && s.toServer == [] && s.toClient == [] }

  /** The session is there and the client may issue another command. */
  ghost predicate Ready(s: State) {
    && Drained(s) && s.issued != [] && s.since > 0 && s.issued[Last(s)].code != UMOUNT
    && (forall i :: i in s.gaveUp ==> i < |s.issued|)
    && s.session.Some? && s.conn != 0 && s.session.value.sid == s.conn
  }

  /** Nothing was executed under the current number. */
  predicate Unused(s: State) { s.session.Some? ==> s.session.value.lastSeq != s.num }

  /** After one more command that was given up on or answered. */
  ghost predicate OneMore(s: State, s': State, code: byte, ok: bool) {
    && Drained(s') && Hist(s') == Hist(s) + [Turn(code, ok)]
    && |s'.issued| == |s.issued| + 1 && s'.issued[|s.issued|].code == code
    && s.accepted <= s'.accepted
    && (code != UMOUNT ==> Ready(s'))
  }

  /** One transmission that is lost on the way to the server. */
  lemma LostAttempt(run: seq<State>) returns (run': seq<State>)
    requires IsRun(run) && var s := Final(run); s.waiting && s.issued != [] && s.attempts < RETRIES && s.toServer == []
    ensures IsRun(run') && Final(run') == Final(run).(attempts := Final(run).attempts + 1)
  {
    run' := Extend(run, Send);
    run' := Extend(run', LoseRequest);
  }

  /** A command that never reaches the server. */
  lemma LostTurn(run: seq<State>, code: byte) returns (run': seq<State>)
    requires IsRun(run) && Ready(Final(run)) && code != MOUNT
    ensures IsRun(run') && OneMore(Final(run), Final(run'), code, false)
    ensures Final(run').session == Final(run).session && Final(run').num == Final(run).num && Final(run').log == Final(run).log
  {
    run' := Extend(run, Issue(code));
    run' := LostAttempt(run');
    run' := LostAttempt(run');
    run' := LostAttempt(run');
    run' := Extend(run', GiveUp);
  }

  /** A command that is executed, but whose reply is lost. */
  lemma UnansweredTurn(run: seq<State>, code: byte) returns (run': seq<State>)
    requires IsRun(run) && Ready(Final(run)) && code != MOUNT && code != UMOUNT
    requires var x := Final(run).session.value; !(x.lastSeq == Final(run).num && x.lastCmd == code)
    ensures IsRun(run') && OneMore(Final(run), Final(run'), code, false)
    ensures var (s, s') := (Final(run), Final(run'));
            && s'.num == s.num && s'.log == s.log + [|s.issued|]
            && s'.session.value.lastSeq == s.num && s'.session.value.lastCmd == code
            && s'.session.value.reply == Rep(|s.issued|, s.conn, s.num, code, false)
  {
    run' := Extend(run, Issue(code));
    run' := Extend(run', Send);
    run' := Extend(run', Serve(NoSlot, false));
    run' := Extend(run', LoseReply);
    run' := LostAttempt(run');
    run' := LostAttempt(run');
    run' := Extend(run', GiveUp);
  }

  /** A command that is answered by its own execution. */
  lemma AnsweredTurn(run: seq<State>, code: byte) returns (run': seq<State>)
    requires IsRun(run) && Ready(Final(run)) && Unused(Final(run)) && code != MOUNT
    ensures IsRun(run') && OneMore(Final(run), Final(run'), code, true) && Unused(Final(run'))
  {
    run' := Extend(run, Issue(code));
    run' := Extend(run', Send);
    run' := Extend(run', Serve(NoSlot, false));
    run' := Extend(run', Receive(false));
  }

  /** A command that is taken for the cached one: it is answered with the old reply, and
      never executed. */
  lemma MistakenTurn(run: seq<State>, code: byte) returns (run': seq<State>)
    requires IsRun(run) && Ready(Final(run)) && code != MOUNT && code != UMOUNT
    requires var (s, x) := (Final(run), Final(run).session.value);
             x.lastSeq == s.num && x.lastCmd == code && x.reply.num == s.num && x.reply.code == code && !x.reply.again
    ensures IsRun(run') && OneMore(Final(run), Final(run'), code, true) && Unused(Final(run'))
    ensures var (s, s') := (Final(run), Final(run'));
            s'.accepted == s.accepted + [(|s.issued|, s.session.value.reply.idx)] && s'.log == s.log
  {
    run' := Extend(run, Issue(code));
    run' := Extend(run', Send);
    run' := Extend(run', Serve(NoSlot, false));
    run' := Extend(run', Receive(false));
  }

  /** One transmission that comes to nothing: it is lost, or it is executed, or taken for a
      retransmission, and the answer to it is lost. */
  lemma VainAttempt(run: seq<State>, lost: bool) returns (run': seq<State>)
    requires IsRun(run) && Trying(Final(run)) && Final(run).attempts < RETRIES
    ensures IsRun(run') && Trying(Final(run'))
    ensures var (s, s') := (Final(run), Final(run'));
            && s'.attempts == s.attempts + 1 && s'.issued == s.issued && s'.accepted == s.accepted
            && (s'.log == s.log + (if lost || Carried(s) then [] else [Last(s)]))
            && (Carried(s') <==> Carried(s) || !lost)
            && s'.gaveUp == s.gaveUp && s'.num == s.num && s'.since == s.since && s'.conn == s.conn
  {
    if lost {
      run' := LostAttempt(run);
    } else {
      run' := Extend(run, Send);
      run' := Extend(run', Serve(Granted(1), false));
      run' := Extend(run', LoseReply);
    }
  }

  /** The last command is under way, nothing is on its way, and the server will execute it,
      or has executed it and will know it again. */
  predicate Trying(s: State) {
    && s.waiting && s.issued != [] && s.toServer == [] && s.toClient == []
    && var c := s.issued[Last(s)];
    && c.code != UMOUNT && c.num == s.num
    && (c.code == MOUNT ==> s.session.Some? ==> Carried(s))
    && (c.code != MOUNT ==> s.session.Some? && s.session.value.sid == s.conn != 0)
    && (s.session.Some? && s.session.value.lastSeq == c.num && s.session.value.lastCmd == c.code ==> Carried(s))
  }

  /** The last command has been executed, and its reply is kept. */
  predicate Carried(s: State) {
    && s.issued != [] && s.session.Some? && s.session.value.sid != 0
    && var (c, x) := (s.issued[Last(s)], s.session.value);
    && x.lastSeq == c.num && x.lastCmd == c.code && x.reply == Rep(Last(s), x.sid, c.num, c.code, false)
  }

  lemma GoodAttempt(run: seq<State>) returns (run': seq<State>)
    requires IsRun(run) && Trying(Final(run)) && Final(run).attempts < RETRIES
    ensures IsRun(run')
    ensures var (s, s') := (Final(run), Final(run'));
            && !s'.waiting && s'.issued == s.issued && s'.gaveUp == s.gaveUp
            && s'.accepted == s.accepted + [(Last(s), Last(s))]
            && s'.log == s.log + (if Carried(s) then [] else [Last(s)])
  {
    run' := Extend(run, Send);
    run' := Extend(run', Serve(Granted(1), false));
    run' := Extend(run', Receive(false));
  }

  /** Two losses in a row, of requests or of replies, do a command no harm, the MOUNT
      included: the third transmission is answered, by the command's own reply, and the
      command has been executed once. Only a UMOUNT cannot be answered twice. */
  lemma TwoLossesDoNoHarm(run: seq<State>, code: byte, lost1: bool, lost2: bool) returns (run': seq<State>)
    requires IsRun(run) && code != UMOUNT
    requires if code == MOUNT then Final(run) == Init() else Ready(Final(run)) && Unused(Final(run))
    ensures IsRun(run')
    ensures var (s, s') := (Final(run), Final(run'));
            && !s'.waiting && s'.issued == s.issued + [Cmd(s.num, code)] && s'.gaveUp == s.gaveUp
            && s'.accepted == s.accepted + [(|s.issued|, |s.issued|)]
            && s'.log == s.log + [|s.issued|]
  {
    run' := Extend(run, Issue(code));
    run' := VainAttempt(run', lost1);
    run' := VainAttempt(run', lost2);
    run' := GoodAttempt(run');
  }

  lemma MountAnswered() returns (run: seq<State>)
    ensures IsRun(run) && Ready(Final(run)) && Unused(Final(run))
    ensures Hist(Final(run)) == [Turn(MOUNT, true)] && |Final(run).issued| == 1
  {
    run := [Init()];
    run := Extend(run, Issue(MOUNT));
    run := Extend(run, Send);
    run := Extend(run, Serve(Granted(1), false));
    run := Extend(run, Receive(false));
  }

  lemma MountGivenUp() returns (run: seq<State>)
    ensures Had(run, [Turn(MOUNT, false)])
  {
    run := [Init()];
    run := Extend(run, Issue(MOUNT));
    run := LostAttempt(run);
    run := LostAttempt(run);
    run := LostAttempt(run);
    run := Extend(run, GiveUp);
  }

  // ---- playing a history ----

  /** The run has played the first n turns of h. */
  ghost predicate Played(run: seq<State>, h: seq<Turn>, n: nat)
    requires n <= |h|
  {
    && IsRun(run) && Drained(Final(run)) && Hist(Final(run)) == h[..n] && |Final(run).issued| == n
    && (n > 0 && h[n - 1].code != UMOUNT ==> Ready(Final(run)))
  }

  lemma TurnPlayed(run: seq<State>, run': seq<State>, h: seq<Turn>, n: nat)
    requires 0 < n < |h| && Played(run, h, n)
    requires IsRun(run') && OneMore(Final(run), Final(run'), h[n].code, h[n].ok)
    ensures Played(run', h, n + 1)
  {
    assert h[..n] + [h[n]] == h[..n + 1];
  }

  /** The rest of a history, with every command that is given up on lost on its way. */
  lemma {:induction false} Play(run: seq<State>, h: seq<Turn>, n: nat) returns (run': seq<State>)
    requires WellFormed(h) && 0 < n <= |h| && Played(run, h, n) && Unused(Final(run))
    ensures Played(run', h, |h|) && Unused(Final(run')) && Final(run).accepted <= Final(run').accepted
    decreases |h| - n
  {
    if n == |h| {
      return run;
    }
    assert MayFollow(h, n);
    if h[n].ok {
      run' := AnsweredTurn(run, h[n].code);
    } else {
      run' := LostTurn(run, h[n].code);
    }
    TurnPlayed(run, run', h, n);
    run' := Play(run', h, n + 1);
  }

  /** Turns that are all given up on, without anything reaching the server. */
  lemma {:induction false} LoseAll(run: seq<State>, h: seq<Turn>, n: nat, k: nat) returns (run': seq<State>)
    requires WellFormed(h) && 0 < n <= k < |h| && Played(run, h, n) && AllGivenUp(h, n, k)
    ensures Played(run', h, k)
    ensures Final(run').session == Final(run).session && Final(run').num == Final(run).num
    ensures Final(run).accepted <= Final(run').accepted
    decreases k - n
  {
    if n == k {
      return run;
    }
    assert MayFollow(h, n);
    run' := LostTurn(run, h[n].code);
    TurnPlayed(run, run', h, n);
    run' := LoseAll(run', h, n + 1, k);
  }

  lemma PlayAll(h: seq<Turn>) returns (run: seq<State>)
    requires WellFormed(h) && h != [] && h[0].ok
    ensures Played(run, h, |h|) && Unused(Final(run))
  {
    run := MountAnswered();
    assert h[..1] == [Turn(MOUNT, true)];
    run := Play(run, h, 1);
  }

  /** Every history that a client can go through happens. */
  lemma HistoryHappens(h: seq<Turn>) returns (run: seq<State>)
    requires WellFormed(h)
    ensures Had(run, h)
  {
    if h == [] {
      run := [Init()];
    } else if h[0].ok {
      run := PlayAll(h);
      assert h[..|h|] == h;
    } else {
      assert |h| > 1 ==> MayFollow(h, 1);
      assert h == [Turn(MOUNT, false)];
      run := MountGivenUp();
    }
  }

  // ---- the condition on histories ----

  lemma PrefixIsWellFormed(h: seq<Turn>, n: nat)
    requires WellFormed(h) && n <= |h|
    ensures WellFormed(h[..n])
  {
    forall k | 0 < k < n ensures MayFollow(h[..n], k) {
      assert MayFollow(h, k);
    }
  }

  /** A code answered after it was given up on: some run answers it with the old reply. */
  lemma BurntSuccessFails(h: seq<Turn>, i: nat, k: nat) returns (run: seq<State>)
    requires WellFormed(h) && i < k < |h| && h[k].ok && AllGivenUp(h, i, k) && h[i].code == h[k].code
    ensures Had(run, h) && !ExactlyOnceAt(Final(run))
  {
    var c := h[i].code;
    assert MayFollow(h, i + 1) && MayFollow(h, k);
    assert i > 0;
    assert MayFollow(h, i);
    PrefixIsWellFormed(h, i);
    run := PlayAll(h[..i]);
    assert h[..i][..i] == h[..i];
    var cached := run;
    run := UnansweredTurn(cached, c);
    TurnPlayed(cached, run, h, i);
    var asked := LoseAll(run, h, i + 1, k);
    run := MistakenTurn(asked, c);
    TurnPlayed(asked, run, h, k);
    var m := |Final(asked).accepted|;
    assert Final(run).accepted[m] == (k, i);
    run := Play(run, h, k + 1);
    assert Final(run).accepted[m].0 != Final(run).accepted[m].1;
    assert h[..|h|] == h;
  }

  /** For every history of a client: all network behaviours are exactly-once if and only if
      no command is answered whose code was given up on since the last answer. The sequence
      number advances only on success, so the server cannot tell such a command from a
      retransmission of the earlier one. */
  lemma ExactlyOnceIffNoBurntSuccess(h: seq<Turn>)
    requires WellFormed(h)
    ensures AlwaysExactlyOnce(h) <==> NoBurntSuccess(h)
  {
    if NoBurntSuccess(h) {
      forall run | Had(run, h) ensures ExactlyOnceAt(Final(run)) {
        ExactlyOnce(run, |run| - 1);
      }
    } else {
      var i, k :| 0 <= i < k < |h| && h[k].ok && AllGivenUp(h, i, k) && h[i].code == h[k].code;
      var run := BurntSuccessFails(h, i, k);
    }
  }

  /** No code is issued again that was given up on since the last answer. */
  predicate NoBurntIssue(h: seq<Turn>) {
    forall i, k :: 0 <= i < k < |h| && AllGivenUp(h, i, k) ==> h[i].code != h[k].code
  }

  /** The history up to command k, if that command is answered. */
  function IfAnswered(h: seq<Turn>, k: nat): seq<Turn>
    requires k < |h|
  {
    h[..k] + [Turn(h[k].code, true)]
  }

  /** The same for a client that decides what to issue before it knows the answer: whichever
      of its commands may still be answered, all behaviours are exactly-once, if and only if
      it never issues a code again that it gave up on since the last answer. */
  lemma ExactlyOnceIffNoBurntIssue(h: seq<Turn>)
    requires WellFormed(h)
    ensures (forall k :: 0 <= k < |h| ==> AlwaysExactlyOnce(IfAnswered(h, k))) <==> NoBurntIssue(h)
  {
    forall k | 0 <= k < |h| ensures AlwaysExactlyOnce(IfAnswered(h, k)) <==> NoBurntSuccess(IfAnswered(h, k)) {
      AnsweredIsWellFormed(h, k);
      ExactlyOnceIffNoBurntSuccess(IfAnswered(h, k));
    }
    BurntIssues(h);
  }

  lemma AnsweredIsWellFormed(h: seq<Turn>, k: nat)
    requires WellFormed(h) && k < |h|
    ensures WellFormed(IfAnswered(h, k))
  {
    forall j | 0 < j < |IfAnswered(h, k)| ensures MayFollow(IfAnswered(h, k), j) {
      assert MayFollow(h, j);
    }
  }

  lemma BurntIssues(h: seq<Turn>)
    ensures NoBurntIssue(h) <==> forall k :: 0 <= k < |h| ==> NoBurntSuccess(IfAnswered(h, k))
  {
    if NoBurntIssue(h) {
      forall k | 0 <= k < |h| ensures NoBurntSuccess(IfAnswered(h, k)) {
        FreshIsClean(h, k);
      }
    } else {
      var i, k :| 0 <= i < k < |h| && AllGivenUp(h, i, k) && h[i].code == h[k].code;
      var g := IfAnswered(h, k);
      assert g[k].ok && AllGivenUp(g, i, k) && g[i].code == g[k].code;
      assert !NoBurntSuccess(IfAnswered(h, k));
    }
  }

  lemma FreshIsClean(h: seq<Turn>, n: nat)
    requires NoBurntIssue(h) && n < |h|
    ensures NoBurntSuccess(IfAnswered(h, n))
  {
    var g := IfAnswered(h, n);
    forall i, k | 0 <= i < k < |g| && g[k].ok && AllGivenUp(g, i, k) ensures g[i].code != g[k].code {
      assert forall j :: i <= j < k ==> h[j] == g[j];
      assert AllGivenUp(h, i, k);
    }
  }

  // ---- the condition on session ends ----

  /** The run goes on with the end of the session, and after it as runs do. */
  ghost predicate GoesOnAfterEnd(run: seq<State>, run': seq<State>)
    requires run != []
  {
    && run < run' && run'[|run|] == Apply(Final(run), SessionEnds)
    && forall i :: |run| <= i < |run'| - 1 ==> Follows(run'[i], run'[i + 1])
  }

  lemma EndIsAStep(run: seq<State>, run': seq<State>)
    requires IsRun(run) && GoesOnAfterEnd(run, run') && !MountMayArrive(Final(run))
    ensures IsRun(run')
  {
    forall i | 0 <= i < |run'| - 1 ensures Follows(run'[i], run'[i + 1]) {
      if i < |run| - 1 {
        assert Follows(run[i], run[i + 1]) && run'[i] == run[i] && run'[i + 1] == run[i + 1];
      } else if i == |run| - 1 {
        assert Enabled(Final(run), SessionEnds) && Settled(Final(run), SessionEnds);
      }
    }
  }

  lemma GoOn(run: seq<State>, run': seq<State>, a: Step) returns (run'': seq<State>)
    requires run != [] && GoesOnAfterEnd(run, run') && Enabled(Final(run'), a) && !a.SessionEnds?
    ensures GoesOnAfterEnd(run, run'') && Final(run'') == Apply(Final(run'), a)
  {
    run'' := run' + [Apply(Final(run'), a)];
    forall i | |run| <= i < |run''| - 1 ensures Follows(run''[i], run''[i + 1]) {
      if i < |run'| - 1 {
        assert Follows(run'[i], run'[i + 1]);
      } else {
        assert Settled(Final(run'), a);
      }
    }
  }

  /** The session was ended while a MOUNT could still arrive: it arrives, and is executed
      a second time. */
  lemma MountRunsTwice(run: seq<State>) returns (run': seq<State>)
    requires IsRun(run) && Clean(Final(run)) && Final(run).session.Some? && MountMayArrive(Final(run))
    ensures GoesOnAfterEnd(run, run') && Clean(Final(run')) && !ExactlyOnceAt(Final(run'))
    ensures Final(run').log == Final(run).log + [0]
  {
    var s := Final(run);
    RunsKeepInv(run, |run| - 1);
    run' := run + [Apply(s, SessionEnds)];
    if s.toServer == [] {
      run' := GoOn(run, run', Send);
    }
    MountIsFirst(s);
    assert Final(run').toServer[0].idx == 0 && Final(run').toServer[0].code == MOUNT;
    run' := GoOn(run, run', Serve(Granted(1), false));
    assert Hist(Final(run')) == Hist(s);
    assert Final(run').log[0] == Final(run').log[|s.log|] == 0;
  }

  /** That does happen: the MOUNT is executed, its reply is lost, the server's link drops and
      comes back, and the client sends the MOUNT again. */
  lemma LinkLossRepeatsMount() returns (run: seq<State>, run': seq<State>)
    ensures IsRun(run) && Final(run).log == [0] && Final(run).accepted == []
    ensures GoesOnAfterEnd(run, run') && Final(run').log == [0, 0]
  {
    run := [Init()];
    run := Extend(run, Issue(MOUNT));
    run := Extend(run, Send);
    run := Extend(run, Serve(Granted(1), false));
    run := Extend(run, LoseReply);
    NoGiveUpIsClean(Final(run));
    run' := MountRunsTwice(run);
  }

  lemma MountIsFirst(s: State)
    requires Inv(s) && MountMayArrive(s)
    ensures s.toServer != [] ==> s.toServer[0].idx == 0 && s.toServer[0].code == MOUNT
    ensures s.toServer == [] ==> s.waiting && |s.issued| == 1 && s.attempts < RETRIES && s.issued[0].code == MOUNT
  {
    if s.toServer != [] {
      assert ReqOk(s, s.toServer[0]);
      if i :| 0 <= i < |s.toServer| && s.toServer[i].code == MOUNT {
        assert ReqOk(s, s.toServer[i]);
      }
    }
  }

  /** Wherever a live session ends: everything after it is exactly-once if and only if no
      MOUNT can arrive any more, that is, the end does not fall between the execution of the
      MOUNT and its acceptance, or while a copy of it is on its way. */
  lemma SessionEndIsHarmlessIff(run: seq<State>)
    requires IsRun(run) && Clean(Final(run)) && Final(run).session.Some?
    ensures (forall run' :: GoesOnAfterEnd(run, run') && Clean(Final(run')) ==> ExactlyOnceAt(Final(run')))
            <==> !MountMayArrive(Final(run))
  {
    if MountMayArrive(Final(run)) {
      var run' := MountRunsTwice(run);
    } else {
      forall run' | GoesOnAfterEnd(run, run') && Clean(Final(run')) ensures ExactlyOnceAt(Final(run')) {
        EndIsAStep(run, run');
        ExactlyOnce(run', |run'| - 1);
      }
    }
  }
}
