/** One TNFS connection: a client that retransmits, a server that caches its last reply, and
    a network that keeps the order of datagrams in each direction but loses and duplicates
    them (src/net/tnfs.c, src/net/tnfs_server.c). */
module TnfsLink {
  import opened Bytes
  import opened TnfsProto

  const RETRIES := 3

  /** A request as sent: `idx` is which of the client's commands it carries. The server
      sees the session id, the sequence number and the command code (and the body, for
      which `idx` stands), never `idx` itself. */
  datatype Req = Req(idx: nat, sid: u16, num: byte, code: byte)

  /** A reply: `idx` is the command whose execution produced it. */
  datatype Rep = Rep(idx: nat, sid: u16, num: byte, code: byte, again: bool)

  /** A command as the client issued it. */
  datatype Cmd = Cmd(num: byte, code: byte)

  datatype Session = Session(sid: u16, lastSeq: byte, lastCmd: byte, reply: Rep)

  datatype State = State(
    // client (tnfs_file and the loop of tnfs_command)
    issued: seq<Cmd>,          // every command issued so far
    waiting: bool,             // the last one is under way
    num: byte, conn: u16, attempts: nat,
    since: nat,                // commands issued before the last success, and that one
    gaveUp: set<nat>,
    accepted: seq<(nat, nat)>, // each accepted reply: for which command, and of which
    // network
    toServer: seq<Req>, toClient: seq<Rep>,
    // server
    session: Option<Session>,
    log: seq<nat>)             // the commands executed, in order

  /** What the server makes of a MOUNT. */
  datatype Fate = NoSlot | Rejected | Granted(sid: u16)

  datatype Step =
    | Issue(code: byte)
    | Send
    | GiveUp
    | Receive(dup: bool)
    | LoseRequest | LoseReply
    | Serve(fate: Fate, dup: bool)
    | SessionEnds              // idle timeout, or the server's link went down: at any moment

  function Last(s: State): nat
    requires s.issued != []
  {
    |s.issued| - 1
  }

  predicate Enabled(s: State, a: Step) {
    match a
    case Issue(code) =>
      // MOUNT first, and then anything but another MOUNT; nothing after UMOUNT or a failed MOUNT
      && !s.waiting
      && (if s.issued == [] then code == MOUNT
          else code != MOUNT && s.issued[Last(s)].code != UMOUNT && s.since > 0)
    case Send => s.waiting && s.issued != [] && s.attempts < RETRIES
    case GiveUp => s.waiting && s.issued != []
    case Receive(_) => s.waiting && s.issued != [] && s.toClient != []
    case LoseRequest => s.toServer != []
    case LoseReply => s.toClient != []
    case Serve(fate, _) => s.toServer != [] && (fate.Granted? ==> fate.sid != 0)
    case SessionEnds => true
  }

  function Apply(s: State, a: Step): State
    requires Enabled(s, a)
  {
    match a
    case Issue(code) => s.(issued := s.issued + [Cmd(s.num, code)], waiting := true, attempts := 0)
    case Send =>
      var c := s.issued[Last(s)];
      s.(toServer := s.toServer + [Req(Last(s), s.conn, c.num, c.code)], attempts := s.attempts + 1)
    case GiveUp => s.(waiting := false, gaveUp := s.gaveUp + {Last(s)})
    case Receive(dup) => Received(s.(toClient := if dup then s.toClient else s.toClient[1..]), s.toClient[0])
    case LoseRequest => s.(toServer := s.toServer[1..])
    case LoseReply => s.(toClient := s.toClient[1..])
    case Serve(fate, dup) => Served(s.(toServer := if dup then s.toServer else s.toServer[1..]), s.toServer[0], fate)
    case SessionEnds => s.(session := None)
  }

  /** udp_response takes a reply by its sequence number and code; "try again" does not end
      the command. */
  function Received(s: State, r: Rep): State
    requires s.issued != []
  {
    var c := s.issued[Last(s)];
    if r.num != c.num || r.code != c.code || r.again then s
    else s.(waiting := false, num := (c.num + 1) % 0x100, since := |s.issued|,
            conn := if c.code == MOUNT then r.sid else s.conn,
            accepted := s.accepted + [(Last(s), r.idx)])
  }

  /** The server's loop on one datagram: replay, execute, or ignore. */
  function Served(s: State, q: Req, fate: Fate): State {
    if q.code == MOUNT then
      if s.session.Some? && s.session.value.lastCmd == MOUNT && s.session.value.lastSeq == q.num then Replay(s)
      else
        match fate
        case NoSlot => s.(toClient := s.toClient + [Rep(q.idx, 0, q.num, MOUNT, true)])
        case Rejected => s // answered, but not to the client's address
        case Granted(sid) => Execute(s, q, sid)
    else if s.session.None? || s.session.value.sid != q.sid || q.sid == 0 then s
    else if s.session.value.lastSeq == q.num && s.session.value.lastCmd == q.code then Replay(s)
    else
      var s' := Execute(s, q, s.session.value.sid);
      if q.code == UMOUNT then s'.(session := None) else s'
  }

  function Replay(s: State): State
    requires s.session.Some?
  {
    s.(toClient := s.toClient + [s.session.value.reply])
  }

  function Execute(s: State, q: Req, sid: u16): State {
    var r := Rep(q.idx, sid, q.num, q.code, false);
    s.(log := s.log + [q.idx], toClient := s.toClient + [r], session := Some(Session(sid, q.num, q.code, r)))
  }

  function Init(): State {
    State([], false, 0, 0, 0, 0, {}, [], [], [], None, [])
  }

  /** A MOUNT is on its way to the server, or may still be sent. */
  predicate MountMayArrive(s: State) {
    || (exists i :: 0 <= i < |s.toServer| && s.toServer[i].code == MOUNT)
    || (s.waiting && |s.issued| == 1 && s.attempts < RETRIES)
  }

  /** No session ends between the execution of the MOUNT and the time after which no copy
      of it can come any more. */
  predicate Settled(s: State, a: Step) { a.SessionEnds? ==> s.session.None? || !MountMayArrive(s) }

  ghost predicate Follows(s: State, s': State) {
    exists a :: Enabled(s, a) && Settled(s, a) && s' == Apply(s, a)
  }

  ghost predicate IsRun(run: seq<State>) {
    && |run| > 0 && run[0] == Init()
    && forall i :: 0 <= i < |run| - 1 ==> Follows(run[i], run[i + 1])
  }

  // ---- what the client has been through ----

  /** A command that is over, and whether it was answered or given up on. */
  datatype Turn = Turn(code: byte, ok: bool)

  function Finished(s: State): (n: nat)
    ensures n <= |s.issued|
  {
    if s.waiting && s.issued != [] then |s.issued| - 1 else |s.issued|
  }

  function Hist(s: State): (h: seq<Turn>)
    ensures |h| == Finished(s)
  {
    seq(Finished(s), i requires 0 <= i < Finished(s) => Turn(s.issued[i].code, i !in s.gaveUp))
  }

  predicate AllGivenUp(h: seq<Turn>, i: nat, k: nat)
    requires i <= k <= |h|
  {
    forall j :: i <= j < k ==> !h[j].ok
  }

  /** No command is answered whose code was given up on since the last answer. */
  predicate NoBurntSuccess(h: seq<Turn>) {
    forall i, k :: 0 <= i < k < |h| && h[k].ok && AllGivenUp(h, i, k) ==> h[i].code != h[k].code
  }

  predicate Clean(s: State) { NoBurntSuccess(Hist(s)) }

  lemma HistGrows(s: State, a: Step)
    requires Enabled(s, a)
    ensures Hist(s) <= Hist(Apply(s, a))
  {}

  lemma PrefixIsClean(h: seq<Turn>, h': seq<Turn>)
    requires h <= h' && NoBurntSuccess(h')
    ensures NoBurntSuccess(h)
  {
    forall i, k | 0 <= i < k < |h| && h[k].ok && AllGivenUp(h, i, k) ensures h[i].code != h[k].code {
      assert h'[k].ok && AllGivenUp(h', i, k);
    }
  }

  // ---- what a run keeps ----

  /** Commands since the last success share the current sequence number; all but the one
      under way have been given up. */
  ghost predicate ClientOk(s: State) {
    && s.since <= |s.issued|
    && (s.waiting ==> s.since < |s.issued|)
    && (forall i :: s.since <= i < |s.issued| ==> s.issued[i].num == s.num)
    && (forall i :: s.since <= i < |s.issued| && !(s.waiting && i == |s.issued| - 1) ==> i in s.gaveUp)
    && (s.since > 0 ==> s.num == (s.issued[s.since - 1].num + 1) % 0x100)
    && (forall i :: 0 <= i < |s.issued| ==> (s.issued[i].code == MOUNT <==> i == 0))
    && (s.since == 0 ==> |s.issued| <= 1)
    && (forall i :: i in s.gaveUp ==> i < |s.issued|)
    && (s.waiting ==> |s.issued| - 1 !in s.gaveUp)
  }

  /** The last command executed, if any. */
  function Done(s: State): int { if s.log == [] then -1 else s.log[|s.log| - 1] }

  predicate Sorted(s: seq<nat>) { forall i, j :: 0 <= i < j < |s| ==> s[i] < s[j] }

  ghost predicate LogOk(s: State) {
    && Sorted(s.log)
    && (forall i :: 0 <= i < |s.log| ==> s.log[i] < |s.issued|)
    && (forall i :: 0 <= i < s.since && i !in s.gaveUp ==> i in s.log)
    && (s.log != [] ==> s.log[0] == 0)
    && (s.since > 0 ==> s.log != [] && Done(s) >= s.since - 1)
  }

  predicate ReqOk(s: State, q: Req) {
    && q.idx < |s.issued| && q.idx >= Done(s)
    && q.num == s.issued[q.idx].num && q.code == s.issued[q.idx].code
    && (q.idx > 0 ==> q.sid == s.conn)
  }

  predicate RepOk(s: State, r: Rep) {
    && r.idx < |s.issued| && r.idx >= s.since - 1
    && r.num == s.issued[r.idx].num && r.code == s.issued[r.idx].code
    && (if r.again then r.idx == 0 else r.idx <= Done(s) && r.idx in s.log)
    && (s.session.Some? && !r.again ==> r.sid == s.session.value.sid)
  }

  ghost predicate NetOk(s: State) {
    && (forall i :: 0 <= i < |s.toServer| ==> ReqOk(s, s.toServer[i]))
    && (forall i, j :: 0 <= i < j < |s.toServer| ==> s.toServer[i].idx <= s.toServer[j].idx)
    && (forall i :: 0 <= i < |s.toClient| ==> RepOk(s, s.toClient[i]))
    && (forall i, j :: 0 <= i < j < |s.toClient| ==> s.toClient[i].idx <= s.toClient[j].idx)
  }

  ghost predicate ServerOk(s: State) {
    && (s.session.Some? ==>
          var x := s.session.value;
          && s.log != [] && Done(s) < |s.issued| && x.sid != 0
          && x.lastSeq == s.issued[Done(s)].num && x.lastCmd == s.issued[Done(s)].code
          && x.reply == Rep(Done(s), x.sid, x.lastSeq, x.lastCmd, false)
          && (s.since > 0 ==> s.conn == x.sid))
    && (s.session.None? && s.log != [] ==> !MountMayArrive(s))
  }

  ghost predicate AcceptedOk(s: State) {
    && (forall i :: 0 <= i < |s.accepted| ==> s.accepted[i].0 == s.accepted[i].1 < s.since)
    && (forall i :: 0 <= i < |s.accepted| ==> s.accepted[i].0 in s.log && s.accepted[i].0 !in s.gaveUp)
  }

  ghost predicate Inv(s: State) { ClientOk(s) && LogOk(s) && NetOk(s) && ServerOk(s) && AcceptedOk(s) }

  // ---- each step keeps it ----

  lemma IssueKeeps(s: State, code: byte)
    requires Inv(s) && Enabled(s, Issue(code))
    ensures Inv(Apply(s, Issue(code)))
  {
    IssueKeepsNet(s, code);
  }

  lemma IssueKeepsNet(s: State, code: byte)
    requires Inv(s) && Enabled(s, Issue(code))
    ensures NetOk(Apply(s, Issue(code)))
  {
    var s' := Apply(s, Issue(code));
    assert forall i :: 0 <= i < |s.toServer| ==> ReqOk(s, s.toServer[i]) && ReqOk(s', s.toServer[i]);
    assert forall i :: 0 <= i < |s.toClient| ==> RepOk(s, s.toClient[i]) && RepOk(s', s.toClient[i]);
  }

  lemma SendKeeps(s: State)
    requires Inv(s) && Enabled(s, Send)
    ensures Inv(Apply(s, Send))
  {
    SendKeepsNet(s);
  }

  lemma SendKeepsNet(s: State)
    requires ClientOk(s) && LogOk(s) && NetOk(s) && Enabled(s, Send)
    ensures NetOk(Apply(s, Send))
  {
    var s' := Apply(s, Send);
    assert forall i :: 0 <= i < |s.toServer| ==> ReqOk(s, s.toServer[i]) && ReqOk(s', s.toServer[i]);
    assert forall i :: 0 <= i < |s.toClient| ==> RepOk(s, s.toClient[i]) && RepOk(s', s.toClient[i]);
  }

  lemma GiveUpKeeps(s: State)
    requires Inv(s) && Enabled(s, GiveUp)
    ensures Inv(Apply(s, GiveUp))
  {}

  lemma LoseRequestKeeps(s: State)
    requires Inv(s) && Enabled(s, LoseRequest)
    ensures Inv(Apply(s, LoseRequest))
  {
    LoseRequestKeepsNet(s);
  }

  lemma LoseRequestKeepsNet(s: State)
    requires NetOk(s) && s.toServer != []
    ensures NetOk(s.(toServer := s.toServer[1..]))
  {}

  lemma LoseReplyKeeps(s: State)
    requires Inv(s) && Enabled(s, LoseReply)
    ensures Inv(Apply(s, LoseReply))
  {
    LoseReplyKeepsNet(s);
  }

  lemma LoseReplyKeepsNet(s: State)
    requires NetOk(s) && s.toClient != []
    ensures NetOk(s.(toClient := s.toClient[1..]))
  {}

  lemma SessionEndsKeeps(s: State)
    requires Inv(s) && Settled(s, SessionEnds)
    ensures Inv(Apply(s, SessionEnds))
  {}

  /** The command under way has a code that was not given up on since the last success. */
  predicate Fresh(s: State)
    requires s.issued != []
  {
    forall i :: s.since <= i < Last(s) ==> s.issued[i].code != s.issued[Last(s)].code
  }

  /** The reply that udp_response takes is the one to the command under way. */
  lemma TakesItsOwnReply(s: State)
    requires Inv(s) && s.waiting && s.toClient != [] && Fresh(s)
    requires var (c, r) := (s.issued[Last(s)], s.toClient[0]); r.num == c.num && r.code == c.code
    ensures s.toClient[0].idx == Last(s)
  {
    assert RepOk(s, s.toClient[0]);
  }

  /** An answer that keeps the history clean is one to a fresh code. */
  lemma CleanIsFresh(s: State)
    requires ClientOk(s) && s.waiting && NoBurntSuccess(Hist(s) + [Turn(s.issued[Last(s)].code, true)])
    ensures Fresh(s)
  {
    var h := Hist(s) + [Turn(s.issued[Last(s)].code, true)];
    forall i | s.since <= i < Last(s) ensures s.issued[i].code != s.issued[Last(s)].code {
      assert h[Last(s)].ok && AllGivenUp(h, i, Last(s));
    }
  }

  predicate Takes(s: State, r: Rep)
    requires s.issued != []
  {
    r.num == s.issued[Last(s)].num && r.code == s.issued[Last(s)].code && !r.again
  }

  lemma ReceiveKeeps(s: State, dup: bool)
    requires Inv(s) && Enabled(s, Receive(dup)) && Clean(Apply(s, Receive(dup)))
    ensures Inv(Apply(s, Receive(dup)))
  {
    var r := s.toClient[0];
    var s1 := if dup then s else Apply(s, LoseReply);
    ReceiveShape(s, dup);
    if !dup {
      LoseReplyKeeps(s);
    }
    if Takes(s1, r) {
      AnswerIsAdded(s, s1, r);
      CleanIsFresh(s);
      TakesItsOwnReply(s);
      LaterReplies(s, dup);
      ReplyStillOk(s, s1, r);
      AcceptKeepsInv(s1, r);
    }
  }

  lemma AnswerIsAdded(s: State, s1: State, r: Rep)
    requires ClientOk(s) && s.waiting && s1.issued == s.issued && s1.gaveUp == s.gaveUp && Takes(s1, r)
    ensures Hist(Received(s1, r)) == Hist(s) + [Turn(s.issued[Last(s)].code, true)]
  {}

  lemma AcceptKeepsInv(s: State, r: Rep)
    requires Inv(s) && s.waiting && RepOk(s, r) && r.idx == Last(s) && !r.again
    requires forall i :: 0 <= i < |s.toClient| ==> s.toClient[i].idx >= Last(s)
    ensures Inv(Received(s, r))
  {
    AcceptKeeps(s, r);
    AcceptKeepsNet(s, r);
  }

  lemma ReceiveShape(s: State, dup: bool)
    requires Enabled(s, Receive(dup))
    ensures Enabled(s, LoseReply)
    ensures var s1 := if dup then s else Apply(s, LoseReply);
            && s1.issued == s.issued && s1.gaveUp == s.gaveUp && s1.waiting && s1.log == s.log && s1.since == s.since && s1.session == s.session
            && s1.toClient == (if dup then s.toClient else s.toClient[1..])
            && Apply(s, Receive(dup)) == Received(s1, s.toClient[0])
            && (!Takes(s1, s.toClient[0]) ==> Received(s1, s.toClient[0]) == s1)
  {}

  lemma ReplyStillOk(s: State, s1: State, r: Rep)
    requires NetOk(s) && s.toClient != [] && r == s.toClient[0]
    requires s1.issued == s.issued && s1.log == s.log && s1.since == s.since && s1.session == s.session
    ensures RepOk(s1, r)
  {}

  lemma LaterReplies(s: State, dup: bool)
    requires NetOk(s) && s.toClient != []
    ensures var rest := if dup then s.toClient else s.toClient[1..];
            forall i :: 0 <= i < |rest| ==> rest[i].idx >= s.toClient[0].idx
  {}

  lemma AcceptKeeps(s: State, r: Rep)
    requires Inv(s) && s.waiting && RepOk(s, r) && r.idx == Last(s) && !r.again
    ensures var s' := Received(s, r); ClientOk(s') && LogOk(s') && AcceptedOk(s')
  {}

  lemma AcceptKeepsNet(s: State, r: Rep)
    requires Inv(s) && s.waiting && RepOk(s, r) && r.idx == Last(s) && !r.again
    requires forall i :: 0 <= i < |s.toClient| ==> s.toClient[i].idx >= Last(s)
    ensures var s' := Received(s, r); NetOk(s') && ServerOk(s')
  {}

  // ---- the server's side ----

  lemma TakeRequestKeeps(s: State, dup: bool)
    requires Inv(s) && s.toServer != []
    ensures Inv(s.(toServer := if dup then s.toServer else s.toServer[1..]))
    ensures ReqOk(s, s.toServer[0])
    ensures var rest := if dup then s.toServer else s.toServer[1..];
            forall i :: 0 <= i < |rest| ==> rest[i].idx >= s.toServer[0].idx
  {
    if !dup {
      LoseRequestKeeps(s);
    }
  }

  lemma ReplayKeeps(s: State)
    requires Inv(s) && s.session.Some?
    ensures Inv(Replay(s))
  {
    var s' := Replay(s);
    var r := s.session.value.reply;
    assert Done(s) in s.log;
    assert RepOk(s', r);
    assert forall i :: 0 <= i < |s.toServer| ==> ReqOk(s, s.toServer[i]) && ReqOk(s', s.toServer[i]);
    forall i | 0 <= i < |s.toClient| ensures RepOk(s', s.toClient[i]) && s.toClient[i].idx <= r.idx {
      assert RepOk(s, s.toClient[i]);
    }
  }

  /** A request with another number or code than the last command executed is a later one. */
  lemma NewIsLater(s: State, q: Req)
    requires Inv(s) && ReqOk(s, q) && s.session.Some?
    requires !(s.session.value.lastSeq == q.num && s.session.value.lastCmd == q.code)
    ensures q.idx > Done(s)
  {}

  /** A later command with a fresh code is never taken for the cached one, across the wrap
      of the number. */
  lemma NewIsNotTheCached(s: State, q: Req)
    requires Inv(s) && ReqOk(s, q) && s.session.Some? && q.idx > Done(s)
    requires forall i :: s.since <= i < q.idx ==> s.issued[i].code != q.code
    ensures !(s.session.value.lastSeq == q.num && s.session.value.lastCmd == q.code)
  {}

  /** Executing a later request keeps everything. */
  lemma ExecuteKeeps(s: State, q: Req, sid: u16)
    requires Inv(s) && ReqOk(s, q) && q.idx > Done(s) && sid != 0
    requires if s.session.Some? then sid == s.session.value.sid else s.log == [] && q.idx == 0 && s.since == 0
    requires forall i :: 0 <= i < |s.toServer| ==> s.toServer[i].idx >= q.idx
    ensures Inv(Execute(s, q, sid))
  {
    ExecuteKeepsLog(s, q, sid);
    ExecuteKeepsNet(s, q, sid);
    ExecuteKeepsServer(s, q, sid);
  }

  lemma ExecuteKeepsNet(s: State, q: Req, sid: u16)
    requires Inv(s) && ReqOk(s, q) && q.idx > Done(s)
    requires if s.session.Some? then sid == s.session.value.sid else s.log == [] && q.idx == 0 && s.since == 0
    requires forall i :: 0 <= i < |s.toServer| ==> s.toServer[i].idx >= q.idx
    requires Done(Execute(s, q, sid)) == q.idx && RepOk(Execute(s, q, sid), Rep(q.idx, sid, q.num, q.code, false))
    ensures NetOk(Execute(s, q, sid))
  {
    var s' := Execute(s, q, sid);
    assert forall i :: 0 <= i < |s.toServer| ==> ReqOk(s, s.toServer[i]) && ReqOk(s', s.toServer[i]);
    forall i | 0 <= i < |s.toClient| ensures RepOk(s', s.toClient[i]) && s.toClient[i].idx <= q.idx {
      assert RepOk(s, s.toClient[i]);
    }
  }

  lemma ExecuteKeepsLog(s: State, q: Req, sid: u16)
    requires Inv(s) && ReqOk(s, q) && q.idx > Done(s)
    requires s.log == [] ==> q.idx == 0
    ensures LogOk(Execute(s, q, sid)) && AcceptedOk(Execute(s, q, sid)) && Done(Execute(s, q, sid)) == q.idx
    ensures RepOk(Execute(s, q, sid), Rep(q.idx, sid, q.num, q.code, false))
  {}

  lemma ExecuteKeepsServer(s: State, q: Req, sid: u16)
    requires Inv(s) && ReqOk(s, q) && q.idx > Done(s) && sid != 0
    requires if s.session.Some? then sid == s.session.value.sid else s.since == 0
    ensures ServerOk(Execute(s, q, sid))
  {}

  lemma ServeKeeps(s: State, fate: Fate, dup: bool)
    requires Inv(s) && Enabled(s, Serve(fate, dup))
    ensures Inv(Apply(s, Serve(fate, dup)))
  {
    var q := s.toServer[0];
    var s1 := s.(toServer := if dup then s.toServer else s.toServer[1..]);
    TakeRequestKeeps(s, dup);
    RequestStillOk(s, s1, q);
    if q.code == MOUNT {
      MountKeeps(s1, q, fate);
    } else {
      CommandKeeps(s1, q, fate);
    }
  }

  lemma RequestStillOk(s: State, s1: State, q: Req)
    requires ReqOk(s, q) && s1.issued == s.issued && s1.log == s.log && s1.conn == s.conn
    ensures ReqOk(s1, q)
  {}

  lemma MountKeeps(s: State, q: Req, fate: Fate)
    requires Inv(s) && ReqOk(s, q) && q.code == MOUNT && (fate.Granted? ==> fate.sid != 0)
    requires s.session.None? && s.log != [] ==> q.idx > 0
    requires forall i :: 0 <= i < |s.toServer| ==> s.toServer[i].idx >= q.idx
    ensures Inv(Served(s, q, fate))
  {
    assert q.idx == 0;
    if s.session.Some? {
      ReplayKeeps(s);
    } else if fate.NoSlot? {
      NoSlotKeeps(s, q);
    } else if fate.Granted? {
      ExecuteKeeps(s, q, fate.sid);
    }
  }

  lemma NoSlotKeeps(s: State, q: Req)
    requires Inv(s) && ReqOk(s, q) && q.idx == 0 && s.log == []
    ensures Inv(s.(toClient := s.toClient + [Rep(q.idx, 0, q.num, MOUNT, true)]))
  {}

  lemma CommandKeeps(s: State, q: Req, fate: Fate)
    requires Inv(s) && ReqOk(s, q) && q.code != MOUNT
    requires forall i :: 0 <= i < |s.toServer| ==> s.toServer[i].idx >= q.idx
    ensures Inv(Served(s, q, fate))
  {
    if s.session.Some? && s.session.value.sid == q.sid && q.sid != 0 {
      if s.session.value.lastSeq == q.num && s.session.value.lastCmd == q.code {
        ReplayKeeps(s);
      } else {
        NewIsLater(s, q);
        ExecuteKeeps(s, q, s.session.value.sid);
        if q.code == UMOUNT {
          UnmountKeeps(Execute(s, q, s.session.value.sid), q);
        }
      }
    }
  }

  lemma UnmountKeeps(s: State, q: Req)
    requires Inv(s) && 0 < q.idx < |s.issued|
    requires forall i :: 0 <= i < |s.toServer| ==> s.toServer[i].idx >= q.idx
    ensures Inv(s.(session := None))
  {}

  lemma StepKeeps(s: State, a: Step)
    requires Inv(s) && Enabled(s, a) && Settled(s, a) && Clean(Apply(s, a))
    ensures Inv(Apply(s, a))
  {
    match a
    case Issue(code) => IssueKeeps(s, code);
    case Send => SendKeeps(s);
    case GiveUp => GiveUpKeeps(s);
    case Receive(dup) => ReceiveKeeps(s, dup);
    case LoseRequest => LoseRequestKeeps(s);
    case LoseReply => LoseReplyKeeps(s);
    case Serve(fate, dup) => ServeKeeps(s, fate, dup);
    case SessionEnds => SessionEndsKeeps(s);
  }

  lemma {:induction false} RunsKeepInv(run: seq<State>, i: nat)
    requires IsRun(run) && i < |run| && Clean(run[i])
    ensures Inv(run[i])
  {
    if i > 0 {
      assert Follows(run[i - 1], run[i - 1 + 1]);
      var a :| Enabled(run[i - 1], a) && Settled(run[i - 1], a) && run[i] == Apply(run[i - 1], a);
      HistGrows(run[i - 1], a);
      PrefixIsClean(Hist(run[i - 1]), Hist(run[i]));
      RunsKeepInv(run, i - 1);
      StepKeeps(run[i - 1], a);
    }
  }

  // ---- main results ----

  /** Commands were executed in the order they were issued and none twice; every command
      that the client saw answered was executed, and the reply it took is the one that this
      execution produced. */
  ghost predicate ExactlyOnceAt(s: State) {
    && Sorted(s.log)
    && (forall i :: 0 <= i < |s.log| ==> s.log[i] < |s.issued|)
    && (forall i :: 0 <= i < |s.accepted| ==> s.accepted[i].0 == s.accepted[i].1 && s.accepted[i].0 in s.log)
    && (forall i :: 0 <= i < Finished(s) && i !in s.gaveUp ==> i in s.log)
  }

  /** However the network loses and duplicates, and however the session ends, commands are
      executed exactly once as long as no code given up on is answered before another. */
  lemma ExactlyOnce(run: seq<State>, n: nat)
    requires IsRun(run) && n < |run| && Clean(run[n])
    ensures ExactlyOnceAt(run[n])
  {
    RunsKeepInv(run, n);
  }

  /** Until the client first gives up on a command, the server has executed exactly the
      client's commands in order, and is at most one behind it. */
  lemma InStepUntilGiveUp(run: seq<State>, n: nat)
    requires IsRun(run) && n < |run| && run[n].gaveUp == {}
    ensures var s := run[n];
            && s.log == seq(|s.log|, i => i)
            && |s.issued| - (if s.waiting then 1 else 0) <= |s.log| <= |s.issued|
  {
    var s := run[n];
    NoGiveUpIsClean(s);
    RunsKeepInv(run, n);
    var done: nat := if s.waiting then |s.issued| - 1 else |s.issued|;
    NothingMissing(s, done);
    SortedAndFull(s.log, done, |s.issued|);
  }

  lemma NoGiveUpIsClean(s: State)
    requires s.gaveUp == {}
    ensures Clean(s)
  {
    assert forall i :: 0 <= i < |Hist(s)| ==> Hist(s)[i].ok;
  }

  lemma NothingMissing(s: State, done: nat)
    requires ClientOk(s) && LogOk(s) && s.gaveUp == {} && done == if s.waiting then |s.issued| - 1 else |s.issued|
    ensures forall i :: 0 <= i < done ==> i in s.log
  {
    assert s.since < done ==> s.since in s.gaveUp;
  }

  lemma {:induction false} SortedAndFull(s: seq<nat>, done: nat, n: nat)
    requires Sorted(s) && done <= n <= done + 1
    requires (forall i :: 0 <= i < |s| ==> s[i] < n) && (forall i :: 0 <= i < done ==> i in s)
    ensures s == seq(|s|, i => i) && done <= |s| <= n
  {
    SortedIsAbove(s);
    forall i | 0 <= i < |s| ensures s[i] == i {
      assert i <= s[i] < n;
      if i < done {
        ValueAtIndex(s, i);
      }
    }
    if done > 0 {
      assert done - 1 in s;
      var k :| 0 <= k < |s| && s[k] == done - 1;
      assert k == done - 1;
    }
    assert s != [] ==> s[|s| - 1] == |s| - 1;
  }

  lemma {:induction false} SortedIsAbove(s: seq<nat>)
    requires Sorted(s)
    ensures forall i :: 0 <= i < |s| ==> s[i] >= i
  {
    if s != [] {
      var init := s[..|s| - 1];
      SortedIsAbove(init);
      assert forall i :: 0 <= i < |init| ==> s[i] == init[i];
      if |s| > 1 {
        assert s[|s| - 2] >= |s| - 2;
      }
    }
  }

  /** A sorted list that has all of 0..i has them in place. */
  lemma {:induction false} ValueAtIndex(s: seq<nat>, i: nat)
    requires Sorted(s) && i < |s| && forall k :: 0 <= k <= i ==> k in s
    ensures s[i] == i
  {
    SortedIsAbove(s);
    assert i in s;
    var k :| 0 <= k < |s| && s[k] == i;
    if k < i {
      ValueAtIndex(s, k);
    }
  }
}
