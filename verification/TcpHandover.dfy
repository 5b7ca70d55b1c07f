/** FDC+ over TCP: how an accepted client passes from the listener task to the fdc task
    (src/fdc/fdc.c, src/net/fdc_tcp.c). The two tasks, and a console that may clear the
    counters, interleave at every access to the variables they share. */
module TcpHandover {
  import opened Bytes

  type Socket = nat

  /** Where the listener stands. */
  datatype LPc =
    | Accepting
    | Attaching(s: Socket)     // before the critical section of fdc_tcp_attach
    | Refusing(s: Socket)      // attach said no: close comes next
    | Detaching                // link down: before `if (s_tcp_active)`
    | Kicking                  // before `s_tcp_kick = true`

  /** Where the fdc task stands in its loop. */
  datatype FPc =
    | Top                      // tcp_service: drop?
    | Close | Unset | Unflag | Uncount | Release   // tcp_drop, statement by statement
    | Look                     // tcp_service: adopt?
    | Take | Reset | Count     // the adoption
    | Serve                    // one transaction, or none, on the active transport

  datatype Place = AtListener | Refused | Pending | Adopted | Closed

  /** One input or output of the fdc task: in which transaction, and on which transport
      (a socket, or the UART). */
  datatype Access = Access(txn: nat, via: Option<Socket>)

  datatype State = State(
    lpc: LPc, fpc: FPc,
    pending: Option<Socket>, fd: Option<Socket>, active: bool, kick: bool, dead: bool,
    next: nat,                 // sockets accepted so far are 0 .. next-1
    closed: seq<Socket>,       // in the order of the close() calls
    refused: set<Socket>,
    connects: nat, disconnects: nat,
    atClear: nat,              // clients counted in when the counters were last cleared
    txn: nat, log: seq<Access>)

  datatype Step =
    | Accept | Attach | CloseRefused | LinkDown | ReadActive | SetKick
    | StayOrDrop | DoClose | DoUnset | DoUnflag | DoUncount | DoRelease
    | DoLook | DoTake | DoReset | DoCount
    | Io(fails: bool) | EndTurn
    | ClearStats

  predicate Enabled(s: State, a: Step) {
    match a
    case Accept => s.lpc.Accepting?
    case Attach => s.lpc.Attaching?
    case CloseRefused => s.lpc.Refusing?
    case LinkDown => s.lpc.Accepting?
    case ReadActive => s.lpc.Detaching?
    case SetKick => s.lpc.Kicking?
    case StayOrDrop => s.fpc.Top?
    case DoClose => s.fpc.Close? && s.fd.Some?
    case DoUnset => s.fpc.Unset?
    case DoUnflag => s.fpc.Unflag?
    case DoUncount => s.fpc.Uncount?
    case DoRelease => s.fpc.Release?
    case DoLook => s.fpc.Look?
    case DoTake => s.fpc.Take?
    case DoReset => s.fpc.Reset?
    case DoCount => s.fpc.Count?
    case Io(_) => s.fpc.Serve?
    case EndTurn => s.fpc.Serve?
    case ClearStats => true
  }

  function Apply(s: State, a: Step): State
    requires Enabled(s, a)
  {
    match a
    case Accept => s.(lpc := Attaching(s.next), next := s.next + 1)
    case Attach =>
      if !s.active && s.pending.None? then s.(lpc := Accepting, pending := Some(s.lpc.s), active := true)
      else s.(lpc := Refusing(s.lpc.s))
    case CloseRefused => s.(lpc := Accepting, closed := s.closed + [s.lpc.s], refused := s.refused + {s.lpc.s})
    case LinkDown => s.(lpc := Detaching)
    case ReadActive => s.(lpc := if s.active then Kicking else Accepting)
    case SetKick => s.(lpc := Accepting, kick := true)
    case StayOrDrop => s.(fpc := if s.fd.Some? && (s.dead || s.kick) then Close else Look)
    case DoClose => s.(fpc := Unset, closed := s.closed + [s.fd.value])
    case DoUnset => s.(fpc := Unflag, fd := None)
    case DoUnflag => s.(fpc := Uncount, dead := false, kick := false)
    case DoUncount => s.(fpc := Release, disconnects := s.disconnects + 1)
    case DoRelease => s.(fpc := Look, active := false)
    case DoLook => if s.fd.None? && s.pending.Some? then s.(fpc := Take) else s.(fpc := Serve, txn := s.txn + 1)
    case DoTake => s.(fpc := Reset, fd := s.pending, pending := None)
    case DoReset => s.(fpc := Count, dead := false, kick := false)
    case DoCount => s.(fpc := Serve, connects := s.connects + 1, txn := s.txn + 1)
    case Io(fails) => s.(log := s.log + [Access(s.txn, s.fd)], dead := s.dead || (fails && s.fd.Some?))
    case EndTurn => s.(fpc := Top)
    case ClearStats => s.(connects := 0, disconnects := 0, atClear := CountedIn(s))
  }

  /** A client whose connect has been counted and whose disconnect has not. */
  function CountedIn(s: State): nat {
    if (s.fd.Some? && !s.fpc.Reset? && !s.fpc.Count?) || s.fpc.Unflag? || s.fpc.Uncount? then 1 else 0
  }

  function Init(): State {
    State(Accepting, Top, None, None, false, false, false, 0, [], {}, 0, 0, 0, 0, [])
  }

  ghost predicate Follows(s: State, s': State) { exists a :: Enabled(s, a) && s' == Apply(s, a) }

  ghost predicate StepAt(run: seq<State>, i: nat)
    requires 0 < i < |run|
  {
    Follows(run[i - 1], run[i])
  }

  ghost predicate IsRun(run: seq<State>) {
    && |run| > 0 && run[0] == Init()
    && forall i :: 0 < i < |run| ==> StepAt(run, i)
  }

  // ---- where a socket is ----

  predicate Is(s: State, x: Socket, p: Place) {
    match p
    case AtListener => s.lpc == Attaching(x) || s.lpc == Refusing(x)
    case Refused => x in s.refused
    case Pending => s.pending == Some(x)
    case Adopted => s.fd == Some(x) && !s.fpc.Unset?
    case Closed => x in s.closed && x !in s.refused
  }

  predicate Somewhere(s: State, x: Socket) {
    Is(s, x, AtListener) || Is(s, x, Refused) || Is(s, x, Pending) || Is(s, x, Adopted) || Is(s, x, Closed)
  }

  /** No two of these at once. */
  predicate OncePlaced(s: State, x: Socket) {
    && (x in s.closed ==> !Is(s, x, AtListener) && !Is(s, x, Pending) && !Is(s, x, Adopted))
    && (Is(s, x, AtListener) ==> !Is(s, x, Pending) && !Is(s, x, Adopted))
    && (Is(s, x, Pending) ==> !Is(s, x, Adopted))
  }

  predicate Distinct(xs: seq<Socket>) { forall i, j :: 0 <= i < j < |xs| ==> xs[i] != xs[j] }

  ghost predicate Placed(s: State) {
    && (forall x :: 0 <= x < s.next ==> Somewhere(s, x) && OncePlaced(s, x))
    && (forall x :: x in s.closed ==> x < s.next)
    && (forall x :: x in s.refused ==> x in s.closed)
    && Distinct(s.closed)
    && (s.lpc.Attaching? || s.lpc.Refusing? ==> s.lpc.s < s.next)
    && (s.pending.Some? ==> s.pending.value < s.next)
    && (s.fd.Some? ==> s.fd.value < s.next)
  }

  /** A client has been closed, and the listener may not yet take another. */
  predicate Dropping(s: State) { s.fpc.Unflag? || s.fpc.Uncount? || s.fpc.Release? }

  /** `active` covers a client from the attach to the last statement of the drop, so there
      is never a second one beside it. */
  predicate OneClient(s: State) {
    && (s.pending.Some? ==> s.active && s.fd.None?)
    && (s.fd.Some? ==> s.active)
    && (s.fpc.Close? || s.fpc.Unset? ==> s.fd.Some?)
    && (Dropping(s) ==> s.active && s.fd.None? && s.pending.None?)
    && (s.active ==> s.pending.Some? || s.fd.Some? || Dropping(s))
    && (s.fpc.Take? ==> s.pending.Some?)
    && (s.fpc.Reset? || s.fpc.Count? ==> s.fd.Some?)
  }

  predicate Counted(s: State) { s.connects + s.atClear == s.disconnects + CountedIn(s) }

  /** A transaction never changes its transport, and its socket is open. */
  predicate OneTransport(s: State) {
    && (forall i :: 0 <= i < |s.log| ==> s.log[i].txn <= s.txn)
    && (s.fpc.Serve? ==> forall i :: 0 <= i < |s.log| && s.log[i].txn == s.txn ==> s.log[i].via == s.fd)
    && (forall i, j :: 0 <= i < j < |s.log| && s.log[i].txn == s.log[j].txn ==> s.log[i].via == s.log[j].via)
  }

  ghost predicate Inv(s: State) { Placed(s) && OneClient(s) && Counted(s) && OneTransport(s) }

  /** Steps that close a socket, or take in a new one. */
  lemma CloseKeepsPlaced(s: State, a: Step)
    requires Placed(s) && OneClient(s) && Enabled(s, a) && (a.CloseRefused? || a.DoClose? || a.Accept?)
    ensures Placed(Apply(s, a))
  {
    var s' := Apply(s, a);
    if !a.Accept? {
      var x := if a.DoClose? then s.fd.value else s.lpc.s;
      assert Somewhere(s, x) && OncePlaced(s, x);
    }
    forall x | 0 <= x < s'.next ensures Somewhere(s', x) && OncePlaced(s', x) {
      if x < s.next {
        assert Somewhere(s, x) && OncePlaced(s, x);
      }
    }
  }

  /** Steps that at most pass a socket on. */
  lemma PassKeepsPlaced(s: State, a: Step)
    requires Placed(s) && OneClient(s) && Enabled(s, a) && !a.CloseRefused? && !a.DoClose? && !a.Accept?
    ensures Placed(Apply(s, a))
  {
    var s' := Apply(s, a);
    forall x | 0 <= x < s'.next ensures Somewhere(s', x) && OncePlaced(s', x) {
      assert Somewhere(s, x) && OncePlaced(s, x);
    }
  }

  lemma KeepsPlaced(s: State, a: Step)
    requires Placed(s) && OneClient(s) && Enabled(s, a)
    ensures Placed(Apply(s, a))
  {
    if a.CloseRefused? || a.DoClose? || a.Accept? {
      CloseKeepsPlaced(s, a);
    } else {
      PassKeepsPlaced(s, a);
    }
  }

  lemma KeepsOneClient(s: State, a: Step)
    requires OneClient(s) && Enabled(s, a)
    ensures OneClient(Apply(s, a))
  {}

  lemma KeepsCounted(s: State, a: Step)
    requires OneClient(s) && Counted(s) && Enabled(s, a)
    ensures Counted(Apply(s, a))
  {}

  lemma KeepsOneTransport(s: State, a: Step)
    requires OneTransport(s) && Enabled(s, a)
    ensures OneTransport(Apply(s, a))
  {
    TransportMoves(s, a);
    TransportKept(s, Apply(s, a));
  }

  /** A step leaves the log alone, or adds to it within a transaction. */
  lemma TransportMoves(s: State, a: Step)
    requires Enabled(s, a)
    ensures TransportMoved(s, Apply(s, a))
  {}

  predicate TransportMoved(s: State, s': State) {
    || (s'.log == s.log && (s'.txn == s.txn + 1 || (s'.txn == s.txn && (s'.fpc.Serve? ==> s.fpc.Serve? && s'.fd == s.fd))))
    || (s'.log == s.log + [Access(s.txn, s.fd)] && s'.txn == s.txn && s.fpc.Serve? && s'.fd == s.fd)
  }

  lemma TransportKept(s: State, s': State)
    requires OneTransport(s) && TransportMoved(s, s')
    ensures OneTransport(s')
  {}

  lemma StepKeepsInv(s: State, s': State)
    requires Inv(s) && Follows(s, s')
    ensures Inv(s')
  {
    var a :| Enabled(s, a) && s' == Apply(s, a);
    KeepsPlaced(s, a);
    KeepsOneClient(s, a);
    KeepsCounted(s, a);
    KeepsOneTransport(s, a);
  }

  lemma {:induction false} RunsKeepInv(run: seq<State>, i: nat)
    requires IsRun(run) && i < |run|
    ensures Inv(run[i])
  {
    if i > 0 {
      RunsKeepInv(run, i - 1);
      assert StepAt(run, i);
      StepKeepsInv(run[i - 1], run[i]);
    }
  }

  // ---- main results, for every interleaving ----

  /** Every socket ever accepted is in exactly one place, and no socket is closed twice. */
  lemma EverySocketInOnePlace(run: seq<State>, i: nat, x: Socket)
    requires IsRun(run) && i < |run| && x < run[i].next
    ensures exists p :: Is(run[i], x, p) && forall q :: Is(run[i], x, q) ==> q == p
    ensures Distinct(run[i].closed)
  {
    RunsKeepInv(run, i);
    var s := run[i];
    assert Somewhere(s, x) && OncePlaced(s, x);
    var p := if Is(s, x, AtListener) then AtListener else if Is(s, x, Refused) then Refused
             else if Is(s, x, Pending) then Pending else if Is(s, x, Adopted) then Adopted else Closed;
    assert Is(s, x, p);
    forall q | Is(s, x, q) ensures q == p {}
  }

  /** A pending and an adopted client never exist together, and a new client is taken
      exactly when there is neither, nor one still being dropped. */
  lemma OneClientAtATime(run: seq<State>, i: nat)
    requires IsRun(run) && i < |run|
    ensures var s := run[i];
            && !(s.pending.Some? && s.fd.Some?)
            && (Enabled(s, Attach) ==>
                 (Apply(s, Attach).pending == Some(s.lpc.s) <==> s.pending.None? && s.fd.None? && !Dropping(s)) &&
                 (Apply(s, Attach).pending != Some(s.lpc.s) ==> Apply(s, Attach).pending == s.pending))
  {
    RunsKeepInv(run, i);
    var s := run[i];
    if s.lpc.Attaching? {
      assert OncePlaced(s, s.lpc.s) && Is(s, s.lpc.s, AtListener);
    }
  }

  /** Between clears, connects minus disconnects is 1 exactly while a client is counted in,
      and 0 otherwise; a clear in the middle shifts it by the client it found. */
  lemma CountersTellTheClient(run: seq<State>, i: nat)
    requires IsRun(run) && i < |run|
    ensures var s := run[i];
            && s.connects + s.atClear - s.disconnects == CountedIn(s)
            && (s.fpc.Serve? || s.fpc.Top? || s.fpc.Look? ==> (CountedIn(s) == 1 <==> s.fd.Some?))
  {
    RunsKeepInv(run, i);
  }

  /** Everything that one transaction reads and writes goes over one transport, and never
      over a socket that has been closed. */
  lemma TransactionsKeepTheirTransport(run: seq<State>, i: nat, fails: bool)
    requires IsRun(run) && i < |run|
    ensures var log := run[i].log;
            forall k, l :: 0 <= k < l < |log| && log[k].txn == log[l].txn ==> log[k].via == log[l].via
    ensures Enabled(run[i], Io(fails)) && run[i].fd.Some? ==> run[i].fd.value !in run[i].closed
  {
    RunsKeepInv(run, i);
    var s := run[i];
    if s.fpc.Serve? && s.fd.Some? {
      assert OncePlaced(s, s.fd.value) && Is(s, s.fd.value, Adopted);
    }
  }

  // ---- what the task does with a client ----

  /** State j is the next one after i in which a transaction can run. */
  ghost predicate NextServed(run: seq<State>, i: nat, j: nat) {
    i < j < |run| && run[j].fpc.Serve? && forall k :: i <= k < j ==> !run[k].fpc.Serve?
  }

  lemma NextStep(run: seq<State>, i: nat) returns (a: Step)
    requires IsRun(run) && 0 < i < |run|
    ensures OneClient(run[i - 1]) && Enabled(run[i - 1], a) && run[i] == Apply(run[i - 1], a)
  {
    RunsKeepInv(run, i - 1);
    assert StepAt(run, i);
    a :| Enabled(run[i - 1], a) && run[i] == Apply(run[i - 1], a);
  }

  /** Socket x waits to be adopted, or has been. */
  predicate OnItsWay(s: State, x: Socket) {
    if s.fpc.Top? || s.fpc.Look? || s.fpc.Take? then s.pending == Some(x) && s.fd.None?
    else (s.fpc.Reset? || s.fpc.Count? || s.fpc.Serve?) && s.fd == Some(x)
  }

  lemma OnItsWayStep(s: State, a: Step, s': State, x: Socket)
    requires OneClient(s) && Enabled(s, a) && s' == Apply(s, a) && OnItsWay(s, x) && !s.fpc.Serve?
    ensures OnItsWay(s', x)
  {}

  lemma {:induction false} StaysOnItsWay(run: seq<State>, i: nat, k: nat, x: Socket)
    requires IsRun(run) && i <= k < |run| && OnItsWay(run[i], x)
    requires forall n :: i <= n < k ==> !run[n].fpc.Serve?
    ensures OnItsWay(run[k], x)
    decreases k - i
  {
    if i < k {
      StaysOnItsWay(run, i, k - 1, x);
      var a := NextStep(run, k);
      OnItsWayStep(run[k - 1], a, run[k], x);
    }
  }

  /** A client that is pending when the task is at the top of its loop has the next
      transaction, whatever the listener and the console do in the meantime. */
  lemma PendingIsServedNext(run: seq<State>, i: nat, j: nat, x: Socket)
    requires IsRun(run) && NextServed(run, i, j) && run[i].fpc.Top? && run[i].pending == Some(x)
    ensures run[j].fd == Some(x) && run[j].pending.None? && x !in run[j].closed
  {
    RunsKeepInv(run, i);
    StaysOnItsWay(run, i, j, x);
    RunsKeepInv(run, j);
    assert OncePlaced(run[j], x) && Is(run[j], x, Adopted);
  }

  /** Socket x is to be dropped, or has been. */
  predicate OnItsWayOut(s: State, x: Socket) {
    if s.fpc.Top? then s.fd == Some(x) && (s.dead || s.kick)
    else if s.fpc.Close? then s.fd == Some(x)
    else x in s.closed
  }

  lemma OnItsWayOutStep(s: State, a: Step, s': State, x: Socket)
    requires OneClient(s) && Enabled(s, a) && s' == Apply(s, a) && OnItsWayOut(s, x) && !s.fpc.Serve?
    ensures OnItsWayOut(s', x)
  {}

  lemma {:induction false} StaysOnItsWayOut(run: seq<State>, i: nat, k: nat, x: Socket)
    requires IsRun(run) && i <= k < |run| && OnItsWayOut(run[i], x)
    requires forall n :: i <= n < k ==> !run[n].fpc.Serve?
    ensures OnItsWayOut(run[k], x)
    decreases k - i
  {
    if i < k {
      StaysOnItsWayOut(run, i, k - 1, x);
      var a := NextStep(run, k);
      OnItsWayOutStep(run[k - 1], a, run[k], x);
    }
  }

  /** A client that is dead or kicked when the task is at the top of its loop has been
      closed before the next transaction, and does not have it. */
  lemma DeadIsDroppedNext(run: seq<State>, i: nat, j: nat, x: Socket)
    requires IsRun(run) && NextServed(run, i, j) && run[i].fpc.Top? && run[i].fd == Some(x) && (run[i].dead || run[i].kick)
    ensures x in run[j].closed && run[j].fd != Some(x) && run[j].pending != Some(x)
  {
    StaysOnItsWayOut(run, i, j, x);
    RunsKeepInv(run, j);
    assert OncePlaced(run[j], x);
  }

  /** Socket x is condemned in transaction n: it is still in use in that one, and closed in
      every later one. */
  predicate Condemned(s: State, x: Socket, n: nat) {
    if s.txn > n then x in s.closed
    else s.txn == n && if s.fpc.Serve? then s.fd == Some(x) && (s.dead || s.kick) else OnItsWayOut(s, x)
  }

  lemma CondemnedStep(s: State, a: Step, s': State, x: Socket, n: nat)
    requires OneClient(s) && Enabled(s, a) && s' == Apply(s, a) && Condemned(s, x, n)
    ensures Condemned(s', x, n)
  {}

  lemma {:induction false} StaysCondemned(run: seq<State>, i: nat, k: nat, x: Socket, n: nat)
    requires IsRun(run) && i <= k < |run| && Condemned(run[i], x, n)
    ensures Condemned(run[k], x, n)
    decreases k - i
  {
    if i < k {
      StaysCondemned(run, i, k - 1, x, n);
      var a := NextStep(run, k);
      CondemnedStep(run[k - 1], a, run[k], x, n);
    }
  }

  /** A client on which an input or output has failed, or that the listener has kicked, has
      no later transaction: it is closed before the next one begins. */
  lemma BrokenIsDropped(run: seq<State>, i: nat, j: nat, x: Socket)
    requires IsRun(run) && 0 < i <= j < |run| && run[i - 1].fpc.Serve? && run[i - 1].fd == Some(x)
    requires run[i] == Apply(run[i - 1], Io(true)) || (run[i].kick && run[i].fpc.Serve? && run[i].fd == Some(x))
    requires run[j].txn > run[i].txn
    ensures x in run[j].closed
  {
    RunsKeepInv(run, i);
    StaysCondemned(run, i, j, x, run[i].txn);
  }

  /** Socket x is the transport, and nothing asks for it to be dropped. */
  predicate Kept(s: State, x: Socket) { s.fd == Some(x) && !s.dead && (s.fpc.Top? || s.fpc.Look? || s.fpc.Serve?) }

  lemma KeptStep(s: State, a: Step, s': State, x: Socket)
    requires OneClient(s) && Enabled(s, a) && s' == Apply(s, a) && Kept(s, x) && !s.fpc.Serve? && !s.kick
    ensures Kept(s', x)
  {}

  lemma {:induction false} StaysKept(run: seq<State>, i: nat, k: nat, x: Socket)
    requires IsRun(run) && i <= k < |run| && Kept(run[i], x)
    requires forall n :: i <= n < k ==> !run[n].fpc.Serve? && !run[n].kick
    ensures Kept(run[k], x)
    decreases k - i
  {
    if i < k {
      StaysKept(run, i, k - 1, x);
      var a := NextStep(run, k);
      KeptStep(run[k - 1], a, run[k], x);
    }
  }

  /** And a client that is neither has the next transaction as well. */
  lemma LiveStaysNext(run: seq<State>, i: nat, j: nat, x: Socket)
    requires IsRun(run) && NextServed(run, i, j) && run[i].fpc.Top? && run[i].fd == Some(x) && !run[i].dead
    requires forall n :: i <= n < j ==> !run[n].kick
    ensures run[j].fd == Some(x)
  {
    StaysKept(run, i, j, x);
  }

  /** Nobody to serve since the top of the loop: the next transaction is on the UART. */
  lemma {:induction false} NobodyMeansUart(run: seq<State>, i: nat, j: nat)
    requires IsRun(run) && NextServed(run, i, j) && run[i].fpc.Top? && run[i].fd.None?
    requires forall n :: i <= n <= j ==> run[n].pending.None?
    ensures run[j].fd.None?
  {
    NobodyStays(run, i, j);
  }

  predicate Nobody(s: State) { s.fd.None? && (s.fpc.Top? || s.fpc.Look? || s.fpc.Serve?) }

  lemma NobodyStep(s: State, a: Step, s': State)
    requires Enabled(s, a) && s' == Apply(s, a) && Nobody(s) && s.pending.None? && !s.fpc.Serve?
    ensures Nobody(s')
  {}

  lemma {:induction false} NobodyStays(run: seq<State>, i: nat, k: nat)
    requires IsRun(run) && i <= k < |run| && Nobody(run[i])
    requires forall n :: i <= n <= k ==> run[n].pending.None?
    requires forall n :: i <= n < k ==> !run[n].fpc.Serve?
    ensures Nobody(run[k])
    decreases k - i
  {
    if i < k {
      NobodyStays(run, i, k - 1);
      var a := NextStep(run, k);
      NobodyStep(run[k - 1], a, run[k]);
    }
  }

  /** How many steps the task takes at most until it can serve. */
  function Distance(pc: FPc): nat {
    match pc
    case Top => 10 case Close => 9 case Unset => 8 case Unflag => 7 case Uncount => 6 case Release => 5
    case Look => 4 case Take => 3 case Reset => 2 case Count => 1 case Serve => 0
  }

  /** The step the task takes outside a transaction. */
  function Task(pc: FPc): Step {
    match pc
    case Top => StayOrDrop case Close => DoClose case Unset => DoUnset case Unflag => DoUnflag case Uncount => DoUncount
    case Release => DoRelease case Look => DoLook case Take => DoTake case Reset => DoReset case Count => DoCount
    case Serve => EndTurn
  }

  /** Outside a transaction the task always has exactly one step to take, whatever the others
      do, and it brings it nearer to serving; no other step moves the task. */
  lemma TaskGetsToServe(run: seq<State>, i: nat, a: Step)
    requires IsRun(run) && i < |run| && !run[i].fpc.Serve?
    ensures Enabled(run[i], Task(run[i].fpc))
    ensures Enabled(run[i], a) && IsTasks(a) ==> a == Task(run[i].fpc) && Distance(Apply(run[i], a).fpc) < Distance(run[i].fpc)
    ensures Enabled(run[i], a) && !IsTasks(a) ==> Apply(run[i], a).fpc == run[i].fpc
  {
    RunsKeepInv(run, i);
    TaskMoves(run[i], a);
  }

  lemma TaskMoves(s: State, a: Step)
    requires OneClient(s) && !s.fpc.Serve?
    ensures Enabled(s, Task(s.fpc))
    ensures Enabled(s, a) && IsTasks(a) ==> a == Task(s.fpc) && Distance(Apply(s, a).fpc) < Distance(s.fpc)
    ensures Enabled(s, a) && !IsTasks(a) ==> Apply(s, a).fpc == s.fpc
  {}

  /** A step of the fdc task. */
  predicate IsTasks(a: Step) {
    a.StayOrDrop? || a.DoClose? || a.DoUnset? || a.DoUnflag? || a.DoUncount? || a.DoRelease?
    || a.DoLook? || a.DoTake? || a.DoReset? || a.DoCount? || a.Io? || a.EndTurn?
  }

  // ---- the link goes down ----

  /** The listener has yet to ask for client x to be dropped, or has, or need not. */
  predicate Asked(s: State, x: Socket) {
    match s.lpc
    case Detaching => (s.fd == Some(x) && !s.fpc.Unset?) || x in s.closed
    case Kicking => true
    case Accepting => s.kick || x in s.closed
    case _ => false
  }

  lemma AskedStep(s: State, a: Step, s': State, x: Socket)
    requires OneClient(s) && Enabled(s, a) && s' == Apply(s, a) && Asked(s, x) && !s.lpc.Accepting?
    ensures Asked(s', x)
  {}

  lemma {:induction false} StaysAsked(run: seq<State>, i: nat, k: nat, x: Socket)
    requires IsRun(run) && i <= k < |run| && run[i].lpc.Detaching? && Asked(run[i], x)
    requires forall n :: i <= n < k ==> !run[n].lpc.Accepting?
    ensures Asked(run[k], x)
    decreases k - i
  {
    if i < k {
      StaysAsked(run, i, k - 1, x);
      var a := NextStep(run, k);
      AskedStep(run[k - 1], a, run[k], x);
    }
  }

  /** When the link goes down under an adopted client, the listener does not go back to
      accepting before it has asked for the client to be dropped, unless it is closed by
      then. */
  lemma LinkDownIsAsked(run: seq<State>, i: nat, j: nat, x: Socket)
    requires IsRun(run) && i < j < |run| && run[i].lpc.Detaching? && run[i].fd == Some(x) && run[j].lpc.Accepting?
    requires forall n :: i <= n < j ==> !run[n].lpc.Accepting?
    ensures run[j].kick || x in run[j].closed
  {
    RunsKeepInv(run, i);
    assert Somewhere(run[i], x) && OncePlaced(run[i], x);
    StaysAsked(run, i, j, x);
  }
}
