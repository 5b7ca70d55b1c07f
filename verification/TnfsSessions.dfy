/** The TNFS server's session table, and the files and directories its sessions hold open
    (src/net/tnfs_server.c). */
module TnfsSessions {
  import opened Bytes
  import opened TnfsProto

  const MAX_SESSIONS := 2
  const MAX_FILES := 4
  const MAX_DIRS := 2
  const IDLE_US := 30_000_000

  datatype Status = OK | EBADF | EMFILE | ENOENT | EAGAIN

  /** A session slot. A file or directory entry is the handle it holds, or -1. */
  datatype Session = Session(inUse: bool, sid: u16, peer: nat, lastActive: int, files: seq<int>, dirs: seq<int>,
                             haveReply: bool, lastSeq: byte, lastCmd: byte)

  const FREE := Session(false, 0, 0, 0, [-1, -1, -1, -1], [-1, -1], false, 0, 0)

  // ---- handles ----

  function One(b: bool): nat { if b then 1 else 0 }

  /** How often handle h is held in a row of entries. */
  function Count(s: seq<int>, h: nat): nat {
    if s == [] then 0 else Count(s[..|s| - 1], h) + One(s[|s| - 1] == h)
  }

  function HeldBy(x: Session, h: nat): nat { Count(x.files, h) + Count(x.dirs, h) }

  function HeldIn(table: seq<Session>, h: nat): nat {
    if table == [] then 0 else HeldIn(table[..|table| - 1], h) + HeldBy(table[|table| - 1], h)
  }

  lemma {:induction false} CountUpdate(s: seq<int>, i: nat, v: int, h: nat)
    requires i < |s|
    ensures Count(s[i := v], h) + One(s[i] == h) == Count(s, h) + One(v == h)
  {
    var n := |s| - 1;
    if i < n {
      assert s[i := v][..n] == s[..n][i := v];
      CountUpdate(s[..n], i, v, h);
    } else {
      assert s[i := v][..n] == s[..n];
    }
  }

  lemma {:induction false} HeldInUpdate(table: seq<Session>, i: nat, x: Session, h: nat)
    requires i < |table|
    ensures HeldIn(table[i := x], h) + HeldBy(table[i], h) == HeldIn(table, h) + HeldBy(x, h)
  {
    var n := |table| - 1;
    if i < n {
      assert table[i := x][..n] == table[..n][i := x];
      HeldInUpdate(table[..n], i, x, h);
    } else {
      assert table[i := x][..n] == table[..n];
    }
  }

  /** A handle counted once stands in exactly one entry. */
  lemma {:induction false} CountedOnce(s: seq<int>, h: nat) returns (i: int)
    ensures Count(s, h) == 0 ==> i == -1 && forall k :: 0 <= k < |s| ==> s[k] != h
    ensures Count(s, h) > 0 ==> 0 <= i < |s| && s[i] == h
    ensures Count(s, h) == 1 ==> forall k :: 0 <= k < |s| && s[k] == h ==> k == i
  {
    if s == [] {
      return -1;
    }
    var n := |s| - 1;
    i := CountedOnce(s[..n], h);
    assert forall k :: 0 <= k < n ==> s[..n][k] == s[k];
    if s[n] == h {
      i := n;
    }
  }

  lemma {:induction false} HeldOnce(table: seq<Session>, h: nat) returns (i: int)
    ensures HeldIn(table, h) == 0 ==> forall k :: 0 <= k < |table| ==> HeldBy(table[k], h) == 0
    ensures HeldIn(table, h) > 0 ==> 0 <= i < |table| && HeldBy(table[i], h) > 0
    ensures HeldIn(table, h) == 1 ==> forall k :: 0 <= k < |table| ==> HeldBy(table[k], h) == One(k == i)
  {
    if table == [] {
      return -1;
    }
    var n := |table| - 1;
    i := HeldOnce(table[..n], h);
    assert forall k :: 0 <= k < n ==> table[..n][k] == table[k];
    if HeldBy(table[n], h) > 0 {
      i := n;
    }
  }

  // ---- session ids ----

  predicate SidsOk(table: seq<Session>) {
    && (forall i :: 0 <= i < |table| && table[i].inUse ==> table[i].sid != 0)
    && (forall i, j :: 0 <= i < j < |table| && table[i].inUse && table[j].inUse ==> table[i].sid != table[j].sid)
  }

  predicate IsFor(x: Session, sid: u16, peer: nat) { sid != 0 && x.inUse && x.sid == sid && x.peer == peer }

  /** At most one session answers to an id. */
  lemma SidsFindOne(table: seq<Session>, i: nat, j: nat, sid: u16, peer: nat)
    requires SidsOk(table) && i < |table| && j < |table| && IsFor(table[i], sid, peer) && IsFor(table[j], sid, peer)
    ensures i == j
  {}

  /** The ids that a new session may not get. */
  function NotOffered(table: seq<Session>): (r: set<int>)
    ensures |r| <= |table| + 1 && 0 in r
    ensures forall i :: 0 <= i < |table| && table[i].inUse ==> table[i].sid in r
  {
    if table == [] then {0}
    else
      var n := |table| - 1;
      var rest := NotOffered(table[..n]);
      assert forall i :: 0 <= i < n ==> table[..n][i] == table[i];
      if table[n].inUse then rest + {table[n].sid as int} else rest
  }

  // ---- the handle account ----

  /** Every handle ever given out is in exactly one entry, or has been closed exactly once. */
  ghost predicate HandlesOk(table: seq<Session>, closed: seq<int>, next: nat) {
    forall h: nat :: HeldIn(table, h) + Count(closed, h) == One(h < next)
  }

  /** The handles in a row of entries. */
  function Live(s: seq<int>): seq<int> {
    if s == [] then [] else Live(s[..|s| - 1]) + (if s[|s| - 1] >= 0 then [s[|s| - 1]] else [])
  }

  lemma {:induction false} CountConcat(a: seq<int>, b: seq<int>, h: nat)
    ensures Count(a + b, h) == Count(a, h) + Count(b, h)
  {
    if b == [] {
      assert a + b == a;
    } else {
      assert (a + b)[..|a + b| - 1] == a + b[..|b| - 1];
      CountConcat(a, b[..|b| - 1], h);
    }
  }

  lemma {:induction false} CountLive(s: seq<int>, h: nat)
    ensures Count(Live(s), h) == Count(s, h)
  {
    if s != [] {
      var last := if s[|s| - 1] >= 0 then [s[|s| - 1]] else [];
      CountLive(s[..|s| - 1], h);
      CountConcat(Live(s[..|s| - 1]), last, h);
      assert last != [] ==> last[..0] == [];
    }
  }

  lemma FreeHoldsNothing(h: nat)
    ensures HeldBy(FREE, h) == 0
  {
    NothingCounted(FREE.files, h);
    NothingCounted(FREE.dirs, h);
  }

  lemma {:induction false} NothingCounted(s: seq<int>, h: nat)
    requires forall i :: 0 <= i < |s| ==> s[i] < 0
    ensures Count(s, h) == 0
  {
    if s != [] {
      NothingCounted(s[..|s| - 1], h);
    }
  }

  lemma {:induction false} NothingLive(s: seq<int>)
    requires forall i :: 0 <= i < |s| ==> s[i] < 0
    ensures Live(s) == []
  {
    if s != [] {
      NothingLive(s[..|s| - 1]);
    }
  }

  lemma FreedOk(table: seq<Session>, closed: seq<int>, next: nat, i: nat)
    requires HandlesOk(table, closed, next) && i < |table|
    ensures HandlesOk(table[i := FREE], closed + Live(table[i].files) + Live(table[i].dirs), next)
  {
    forall h: nat
      ensures HeldIn(table[i := FREE], h) + Count(closed + Live(table[i].files) + Live(table[i].dirs), h) == One(h < next)
    {
      HeldInUpdate(table, i, FREE, h);
      FreeHoldsNothing(h);
      CountConcat(closed + Live(table[i].files), Live(table[i].dirs), h);
      CountConcat(closed, Live(table[i].files), h);
      CountLive(table[i].files, h);
      CountLive(table[i].dirs, h);
    }
  }

  /** One entry of one session changes from v to w, as an open or a close does. */
  lemma EntryOk(table: seq<Session>, closed: seq<int>, next: nat, i: nat, x: Session, v: int, w: int, closed': seq<int>, next': nat)
    requires HandlesOk(table, closed, next) && i < |table|
    requires forall h: nat :: HeldBy(x, h) + One(v == h) == HeldBy(table[i], h) + One(w == h)
    requires (v < 0 && w == next && next' == next + 1 && closed' == closed) ||
             (v >= 0 && w < 0 && next' == next && closed' == closed + [v])
    ensures HandlesOk(table[i := x], closed', next')
  {
    forall h: nat ensures HeldIn(table[i := x], h) + Count(closed', h) == One(h < next') {
      HeldInUpdate(table, i, x, h);
      if v >= 0 {
        CountConcat(closed, [v], h);
        assert [v][..0] == [];
        assert Count([v], h) == One(v == h);
      }
    }
  }

  lemma FileEntry(x: Session, k: nat, w: int)
    requires k < |x.files|
    ensures forall h: nat :: HeldBy(x.(files := x.files[k := w]), h) + One(x.files[k] == h) == HeldBy(x, h) + One(w == h)
  {
    forall h: nat ensures HeldBy(x.(files := x.files[k := w]), h) + One(x.files[k] == h) == HeldBy(x, h) + One(w == h) {
      CountUpdate(x.files, k, w, h);
    }
  }

  lemma DirEntry(x: Session, k: nat, w: int)
    requires k < |x.dirs|
    ensures forall h: nat :: HeldBy(x.(dirs := x.dirs[k := w]), h) + One(x.dirs[k] == h) == HeldBy(x, h) + One(w == h)
  {
    forall h: nat ensures HeldBy(x.(dirs := x.dirs[k := w]), h) + One(x.dirs[k] == h) == HeldBy(x, h) + One(w == h) {
      CountUpdate(x.dirs, k, w, h);
    }
  }

  /** Where an open handle is: in one entry, of one session, and not yet closed; a handle
      that is in no entry has been closed, once. */
  lemma HandleIsInOnePlace(table: seq<Session>, closed: seq<int>, next: nat, h: nat) returns (i: int)
    requires HandlesOk(table, closed, next) && h < next
    ensures i < 0 ==> Count(closed, h) == 1 && forall k :: 0 <= k < |table| ==> HeldBy(table[k], h) == 0
    ensures i >= 0 ==> Count(closed, h) == 0 && i < |table| && forall k :: 0 <= k < |table| ==> HeldBy(table[k], h) == One(k == i)
  {
    assert HeldIn(table, h) + Count(closed, h) == One(h < next);
    i := HeldOnce(table, h);
    if HeldIn(table, h) == 0 {
      i := -1;
    }
  }

  class Server {
    const table: array<Session>
    var nextSid: u16
    var next: nat                  // handles the system has given out
    var closed: seq<int>           // the close() and closedir() calls, in order

    ghost predicate Shape()
      reads this, table
    {
      && table.Length == MAX_SESSIONS
      && forall i :: 0 <= i < MAX_SESSIONS ==>
           |table[i].files| == MAX_FILES && |table[i].dirs| == MAX_DIRS && (!table[i].inUse ==> table[i] == FREE)
    }

    ghost predicate Valid()
      reads this, table
    {
      Shape() && SidsOk(table[..]) && HandlesOk(table[..], closed, next)
    }

    /** The table after the loop that marks every slot free. */
    constructor ()
      ensures Valid() && fresh(table) && next == 0 && closed == [] && nextSid == 1
      ensures forall i :: 0 <= i < MAX_SESSIONS ==> table[i] == FREE
    {
      table := new Session[MAX_SESSIONS](i => FREE);
      nextSid, next, closed := 1, 0, [];
      new;
      assert table[..] == [FREE, FREE];
      forall h: nat ensures HeldIn([FREE, FREE], h) + Count([], h) == One(h < 0) {
        FreeHoldsNothing(h);
        assert [FREE, FREE][..1] == [FREE] && [FREE][..0] == [];
        assert HeldIn([FREE], h) == HeldIn([], h) + HeldBy(FREE, h);
        assert HeldIn([FREE, FREE], h) == HeldIn([FREE], h) + HeldBy(FREE, h);
      }
    }

    method FindSession(sid: u16, peer: nat) returns (r: int)
      requires Valid()
      ensures -1 <= r < MAX_SESSIONS
      ensures r >= 0 ==> IsFor(table[r], sid, peer)
      ensures r < 0 ==> forall i :: 0 <= i < MAX_SESSIONS ==> !IsFor(table[i], sid, peer)
    {
      if sid == 0 {
        return -1;
      }
      for i := 0 to table.Length
        invariant forall k :: 0 <= k < i ==> !IsFor(table[k], sid, peer)
      {
        if table[i].inUse && table[i].sid == sid && table[i].peer == peer {
          return i;
        }
      }
      return -1;
    }

    /** free_session: everything the session left open is closed, and the slot is free. */
    method FreeSession(i: nat)
      requires Valid() && i < MAX_SESSIONS
      modifies this`closed, table
      ensures Valid()
      ensures table[..] == old(table[..])[i := FREE]
      ensures closed == old(closed) + Live(old(table[i]).files) + Live(old(table[i]).dirs)
    {
      var x := table[i];
      CloseEach(x.files);
      CloseEach(x.dirs);
      FreedOk(table[..], old(closed), next, i);
      table[i] := FREE;
    }

    method CloseEach(entries: seq<int>)
      modifies this`closed
      ensures closed == old(closed) + Live(entries)
    {
      for k := 0 to |entries|
        invariant closed == old(closed) + Live(entries[..k])
      {
        assert entries[..k + 1][..k] == entries[..k];
        if entries[k] >= 0 {
          closed := closed + [entries[k]];
        }
      }
      assert entries[..|entries|] == entries;
    }

    /** next_sid: an id that no session has. Two draws more than there are sessions are
        enough, wherever the counter stands. */
    method NextSid() returns (sid: u16, ghost draws: nat)
      requires table.Length == MAX_SESSIONS
      modifies this`nextSid
      ensures sid != 0 && forall i :: 0 <= i < MAX_SESSIONS && table[i].inUse ==> table[i].sid != sid
      ensures draws <= MAX_SESSIONS + 2
      ensures draws > 0 && nextSid == Draw(old(nextSid), draws) && sid == Draw(old(nextSid), draws - 1)
    {
      ghost var (start, no) := (nextSid, NotOffered(table[..]));
      draws := 0;
      while true
        invariant nextSid == Draw(start, draws) && DrawnSet(start, draws) <= no && draws <= |no|
        decreases |no| - draws
      {
        var cand := nextSid;
        nextSid := Succ(nextSid);
        draws := draws + 1;
        if cand != 0 {
          var taken := IsTaken(cand);
          if !taken {
            return cand, draws;
          }
        }
        DrawsFit(start, draws, no);
      }
    }

    method IsTaken(cand: u16) returns (taken: bool)
      requires table.Length == MAX_SESSIONS
      ensures taken <==> exists i :: 0 <= i < MAX_SESSIONS && table[i].inUse && table[i].sid == cand
      ensures taken ==> cand as int in NotOffered(table[..])
    {
      taken := false;
      for i := 0 to table.Length
        invariant !taken && forall k :: 0 <= k < i ==> !(table[k].inUse && table[k].sid == cand)
      {
        if table[i].inUse && table[i].sid == cand {
          assert table[..][i] == table[i];
          return true;
        }
      }
    }

    /** alloc_session's search: the first free slot, or -1. */
    method FreeSlot() returns (r: int)
      requires Valid()
      ensures -1 <= r < MAX_SESSIONS
      ensures r >= 0 ==> !table[r].inUse
      ensures r < 0 ==> forall i :: 0 <= i < MAX_SESSIONS ==> table[i].inUse
    {
      for i := 0 to table.Length
        invariant forall k :: 0 <= k < i ==> table[k].inUse
      {
        if !table[i].inUse {
          return i;
        }
      }
      return -1;
    }

    method FindReplay(num: byte, peer: nat) returns (r: int)
      requires Valid()
      ensures -1 <= r < MAX_SESSIONS
      ensures r >= 0 ==> Mounted(table[r], num, peer)
      ensures r < 0 ==> forall i :: 0 <= i < MAX_SESSIONS ==> !Mounted(table[i], num, peer)
    {
      for i := 0 to table.Length
        invariant forall k :: 0 <= k < i ==> !Mounted(table[k], num, peer)
      {
        if table[i].inUse && table[i].peer == peer && table[i].haveReply && table[i].lastCmd == MOUNT && table[i].lastSeq == num {
          return i;
        }
      }
      return -1;
    }

    /** handle_mount: a retransmission gets the session it already has; otherwise the client
        gets a slot of its own under a new id, is asked to come back, or is turned away
        with every slot as it was. */
    method HandleMount(num: byte, peer: nat, accepted: bool, now: int) returns (st: Status, ghost at: int)
      requires Valid()
      modifies this`nextSid, this`closed, table
      ensures Valid() && closed == old(closed) && -1 <= at < MAX_SESSIONS
      ensures st == if Replayed(old(table[..]), num, peer) then OK
                    else if AllTaken(old(table[..])) then EAGAIN
                    else if accepted then OK else ENOENT
      ensures Replayed(old(table[..]), num, peer) ==> at >= 0 && old(table[at]).inUse
      ensures if at >= 0 && st == OK && old(table[at]).inUse then
                Mounted(old(table[at]), num, peer) && table[..] == old(table[..])[at := old(table[at]).(lastActive := now)]
              else if st == OK then
                0 <= at < MAX_SESSIONS && Mounted(table[at], num, peer) && HoldsNothing(table[at]) && table[at].lastActive == now
                && table[..] == old(table[..])[at := table[at]]
              else
                table[..] == old(table[..])
    {
      ghost var was := table[..];
      var e := FindReplay(num, peer);
      assert forall i :: 0 <= i < MAX_SESSIONS ==> was[i] == table[i];
      if e >= 0 {
        assert Mounted(was[e], num, peer);
        ActiveOk(table[..], closed, next, e, now);
        table[e] := table[e].(lastActive := now);
        return OK, e;
      }
      st, at := Admit(num, peer, accepted, now);
    }

    /** A MOUNT that is no retransmission: a slot of its own, or none with every slot as it
        was. */
    method Admit(num: byte, peer: nat, accepted: bool, now: int) returns (st: Status, ghost at: int)
      requires Valid()
      modifies this`nextSid, this`closed, table
      ensures Valid() && closed == old(closed) && -1 <= at < MAX_SESSIONS
      ensures st == if AllTaken(old(table[..])) then EAGAIN else if accepted then OK else ENOENT
      ensures st == OK ==> at >= 0 && !old(table[at]).inUse
      ensures if st == OK then
                0 <= at && Mounted(table[at], num, peer) && HoldsNothing(table[at]) && table[at].lastActive == now
                && table[..] == old(table[..])[at := table[at]]
              else table[..] == old(table[..])
    {
      ghost var was := table[..];
      var i := FreeSlot();
      assert forall k :: 0 <= k < MAX_SESSIONS ==> was[k] == table[k];
      if i < 0 {
        return EAGAIN, -1;
      }
      NewSession(i, num, peer, now);
      if !accepted {
        NothingLive(FREE.files);
        NothingLive(FREE.dirs);
        FreeSession(i);
        assert table[..] == was;
        return ENOENT, -1;
      }
      return OK, i;
    }

    /** A free slot becomes a session, under an id that no other session has. */
    method NewSession(i: nat, num: byte, peer: nat, now: int)
      requires Valid() && i < MAX_SESSIONS && table[i] == FREE
      modifies this`nextSid, table
      ensures Valid() && table[..] == old(table[..])[i := table[i]]
      ensures Mounted(table[i], num, peer) && HoldsNothing(table[i]) && table[i].lastActive == now
    {
      ghost var was := table[..];
      table[i] := FREE.(inUse := true);
      var sid;
      ghost var draws;
      sid, draws := NextSid();
      assert forall k :: 0 <= k < MAX_SESSIONS && k != i ==> table[k] == was[k];
      var x := FREE.(inUse := true, sid := sid, peer := peer, lastActive := now, haveReply := true, lastSeq := num, lastCmd := MOUNT);
      table[i] := x;
      assert table[..] == was[i := x];
      NewSessionOk(was, closed, next, i, x);
    }

    /** h_open or h_opendir: the handle the system gives goes into the first free entry; an
        error leaves everything as it was. */
    method OpenFile(i: nat, found: bool) returns (st: Status, fd: int)
      requires Valid() && i < MAX_SESSIONS && table[i].inUse
      modifies this`next, table
      ensures Valid()
      ensures st == EMFILE <==> forall k :: 0 <= k < MAX_FILES ==> old(table[i]).files[k] >= 0
      ensures st == OK <==> found && st != EMFILE
      ensures if st == OK then
                0 <= fd < MAX_FILES && old(table[i]).files[fd] < 0 && next == old(next) + 1
                && table[..] == old(table[..])[i := old(table[i]).(files := old(table[i]).files[fd := old(next)])]
              else next == old(next) && table[..] == old(table[..])
    {
      var x := table[i];
      fd := FirstFree(x.files);
      if fd < 0 {
        return EMFILE, -1;
      }
      if !found {
        return ENOENT, -1;
      }
      FileEntry(x, fd, next);
      x := x.(files := x.files[fd := next]);
      EntryOk(table[..], closed, next, i, x, table[i].files[fd], next, closed, next + 1);
      SameIdsOk(table[..], i, x);
      table[i], next := x, next + 1;
      st := OK;
    }

    method OpenDir(i: nat, found: bool) returns (st: Status, fd: int)
      requires Valid() && i < MAX_SESSIONS && table[i].inUse
      modifies this`next, table
      ensures Valid()
      ensures st == EMFILE <==> forall k :: 0 <= k < MAX_DIRS ==> old(table[i]).dirs[k] >= 0
      ensures st == OK <==> found && st != EMFILE
      ensures if st == OK then
                0 <= fd < MAX_DIRS && old(table[i]).dirs[fd] < 0 && next == old(next) + 1
                && table[..] == old(table[..])[i := old(table[i]).(dirs := old(table[i]).dirs[fd := old(next)])]
              else next == old(next) && table[..] == old(table[..])
    {
      var x := table[i];
      fd := FirstFree(x.dirs);
      if fd < 0 {
        return EMFILE, -1;
      }
      if !found {
        return ENOENT, -1;
      }
      DirEntry(x, fd, next);
      x := x.(dirs := x.dirs[fd := next]);
      EntryOk(table[..], closed, next, i, x, table[i].dirs[fd], next, closed, next + 1);
      SameIdsOk(table[..], i, x);
      table[i], next := x, next + 1;
      st := OK;
    }

    method FirstFree(entries: seq<int>) returns (r: int)
      ensures -1 <= r < |entries| && (r >= 0 ==> entries[r] < 0)
      ensures r < 0 ==> forall k :: 0 <= k < |entries| ==> entries[k] >= 0
    {
      for k := 0 to |entries|
        invariant forall j :: 0 <= j < k ==> entries[j] >= 0
      {
        if entries[k] < 0 {
          return k;
        }
      }
      return -1;
    }

    /** h_close: closes the handle in that entry and frees the entry, or refuses. */
    method CloseFile(i: nat, fd: byte) returns (st: Status)
      requires Valid() && i < MAX_SESSIONS && table[i].inUse
      modifies this`closed, table
      ensures Valid()
      ensures st == OK <==> fd < MAX_FILES && old(table[i]).files[fd] >= 0
      ensures if st == OK then
                closed == old(closed) + [old(table[i]).files[fd]]
                && table[..] == old(table[..])[i := old(table[i]).(files := old(table[i]).files[fd := -1])]
              else st == EBADF && closed == old(closed) && table[..] == old(table[..])
    {
      if fd >= MAX_FILES || table[i].files[fd] < 0 {
        return EBADF;
      }
      var x := table[i];
      FileEntry(x, fd, -1);
      x := x.(files := x.files[fd := -1]);
      EntryOk(table[..], closed, next, i, x, table[i].files[fd], -1, closed + [table[i].files[fd]], next);
      SameIdsOk(table[..], i, x);
      closed := closed + [table[i].files[fd]];
      table[i] := x;
      st := OK;
    }

    method CloseDir(i: nat, fd: byte) returns (st: Status)
      requires Valid() && i < MAX_SESSIONS && table[i].inUse
      modifies this`closed, table
      ensures Valid()
      ensures st == OK <==> fd < MAX_DIRS && old(table[i]).dirs[fd] >= 0
      ensures if st == OK then
                closed == old(closed) + [old(table[i]).dirs[fd]]
                && table[..] == old(table[..])[i := old(table[i]).(dirs := old(table[i]).dirs[fd := -1])]
              else st == EBADF && closed == old(closed) && table[..] == old(table[..])
    {
      if fd >= MAX_DIRS || table[i].dirs[fd] < 0 {
        return EBADF;
      }
      var x := table[i];
      DirEntry(x, fd, -1);
      x := x.(dirs := x.dirs[fd := -1]);
      EntryOk(table[..], closed, next, i, x, table[i].dirs[fd], -1, closed + [table[i].dirs[fd]], next);
      SameIdsOk(table[..], i, x);
      closed := closed + [table[i].dirs[fd]];
      table[i] := x;
      st := OK;
    }

    /** drop_all_sessions, when the link goes down: every handle ever given out has then
        been closed, once. */
    method DropAll()
      requires Valid()
      modifies this`closed, table
      ensures Valid()
      ensures forall i :: 0 <= i < MAX_SESSIONS ==> table[i] == FREE
      ensures forall h: nat :: Count(closed, h) == One(h < next)
    {
      for i := 0 to table.Length
        invariant Valid() && next == old(next)
        invariant forall k :: 0 <= k < i ==> table[k] == FREE
      {
        if table[i].inUse {
          FreeSession(i);
        }
      }
      NothingHeld(table[..]);
    }

    /** reap_idle: frees exactly the sessions idle for too long. */
    method ReapIdle(t: int)
      requires Valid()
      modifies this`closed, table
      ensures Valid()
      ensures forall i :: 0 <= i < MAX_SESSIONS ==>
                table[i] == if old(table[i]).inUse && t - old(table[i]).lastActive > IDLE_US then FREE else old(table[i])
    {
      for i := 0 to table.Length
        invariant Valid()
        invariant forall k :: i <= k < MAX_SESSIONS ==> table[k] == old(table[k])
        invariant forall k :: 0 <= k < i ==>
                    table[k] == if old(table[k]).inUse && t - old(table[k]).lastActive > IDLE_US then FREE else old(table[k])
      {
        if table[i].inUse && t - table[i].lastActive > IDLE_US {
          FreeSession(i);
        }
      }
    }
  }

  predicate Mounted(x: Session, num: byte, peer: nat) {
    x.inUse && x.peer == peer && x.haveReply && x.lastCmd == MOUNT && x.lastSeq == num
  }

  /** The client has a session already by a MOUNT of this number. */
  predicate Replayed(table: seq<Session>, num: byte, peer: nat) {
    exists i :: 0 <= i < |table| && Mounted(table[i], num, peer)
  }

  predicate AllTaken(table: seq<Session>) { forall i :: 0 <= i < |table| ==> table[i].inUse }

  predicate HoldsNothing(x: Session) { x.files == FREE.files && x.dirs == FREE.dirs }

  lemma SameIdsOk(table: seq<Session>, i: nat, x: Session)
    requires SidsOk(table) && i < |table| && x.inUse == table[i].inUse && x.sid == table[i].sid
    ensures SidsOk(table[i := x])
  {}

  lemma SameHandlesOk(table: seq<Session>, closed: seq<int>, next: nat, i: nat, x: Session)
    requires HandlesOk(table, closed, next) && i < |table| && x.files == table[i].files && x.dirs == table[i].dirs
    ensures HandlesOk(table[i := x], closed, next)
  {
    forall h: nat ensures HeldIn(table[i := x], h) + Count(closed, h) == One(h < next) {
      HeldInUpdate(table, i, x, h);
      assert HeldIn(table, h) + Count(closed, h) == One(h < next);
    }
  }

  lemma ActiveOk(table: seq<Session>, closed: seq<int>, next: nat, i: nat, now: int)
    requires SidsOk(table) && HandlesOk(table, closed, next) && i < |table|
    ensures SidsOk(table[i := table[i].(lastActive := now)]) && HandlesOk(table[i := table[i].(lastActive := now)], closed, next)
  {
    SameIdsOk(table, i, table[i].(lastActive := now));
    SameHandlesOk(table, closed, next, i, table[i].(lastActive := now));
  }

  lemma NewSessionOk(table: seq<Session>, closed: seq<int>, next: nat, i: nat, x: Session)
    requires SidsOk(table) && HandlesOk(table, closed, next) && i < |table| && table[i] == FREE
    requires x.inUse && x.sid != 0 && HoldsNothing(x)
    requires forall k :: 0 <= k < |table| && k != i && table[k].inUse ==> table[k].sid != x.sid
    ensures SidsOk(table[i := x]) && HandlesOk(table[i := x], closed, next)
  {
    SameHandlesOk(table, closed, next, i, x);
  }

  lemma {:induction false} NothingHeld(table: seq<Session>)
    requires forall i :: 0 <= i < |table| ==> table[i] == FREE
    ensures forall h: nat :: HeldIn(table, h) == 0
  {
    forall h: nat ensures HeldIn(table, h) == 0 {
      if table != [] {
        NothingHeld(table[..|table| - 1]);
        FreeHoldsNothing(h);
      }
    }
  }

  function Succ(v: u16): u16 { (v + 1) % 0x1_0000 }

  function Draw(start: u16, k: nat): u16 { if k == 0 then start else Succ(Draw(start, k - 1)) }

  lemma {:induction false} DrawIs(start: u16, k: nat)
    ensures Draw(start, k) == (start + k) % 0x1_0000
  {
    if k > 0 {
      DrawIs(start, k - 1);
    }
  }

  function DrawnSet(start: u16, draws: nat): set<int> {
    if draws == 0 then {} else DrawnSet(start, draws - 1) + {Draw(start, draws - 1) as int}
  }

  lemma CloseValuesDiffer(a: nat, d: nat)
    requires 0 < d < 0x1_0000
    ensures (a + d) % 0x1_0000 != a % 0x1_0000
  {}

  lemma {:induction false} NotDrawnBefore(start: u16, m: nat, n: nat)
    requires m <= n < 0x1_0000
    ensures Draw(start, n) as int !in DrawnSet(start, m)
  {
    if m > 0 {
      NotDrawnBefore(start, m - 1, n);
      DrawIs(start, n);
      DrawIs(start, m - 1);
      CloseValuesDiffer(start + m - 1, n - m + 1);
    }
  }

  /** Until the counter comes round, every draw is another value. */
  lemma {:induction false} DrawsDiffer(start: u16, draws: nat)
    requires draws <= 0x1_0000
    ensures |DrawnSet(start, draws)| == draws
  {
    if draws > 0 {
      DrawsDiffer(start, draws - 1);
      NotDrawnBefore(start, draws - 1, draws - 1);
    }
  }

  lemma DrawsFit(start: u16, draws: nat, no: set<int>)
    requires DrawnSet(start, draws) <= no && draws <= 0x1_0000
    ensures draws <= |no|
  {
    DrawsDiffer(start, draws);
    SubsetSize(DrawnSet(start, draws), no);
  }

  lemma SubsetSize(a: set<int>, b: set<int>)
    requires a <= b
    ensures |a| <= |b|
  {
    assert b == a + (b - a);
  }
}
