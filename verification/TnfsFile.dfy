/** Positioned reads and writes over a remote file with a position of its own, in chunks,
    with the LSEEK left out where the position is known to be right (src/net/tnfs.c,
    src/net/tnfs_server.c). */
module TnfsFile {
  import opened Bytes
  import opened TnfsProto
  import TnfsLink

  const MAX_SIZE := 0xFFFF_FFFF

  /** LSEEK from the start of the file, READ, WRITE. */
  datatype Op = Seek(off: u32) | Get(want: u16) | Put(data: seq<byte>)

  function Code(op: Op): byte {
    match op case Seek(_) => LSEEK case Get(_) => READ case Put(_) => WRITE
  }

  // ---- the server's file ----

  function SetByte(f: seq<byte>, i: nat, v: byte): (r: seq<byte>)
    ensures |r| == if i < |f| then |f| else i + 1
    ensures forall k :: 0 <= k < |r| ==> r[k] == if k == i then v else if k < |f| then f[k] else 0
  {
    if i < |f| then f[i := v] else f + seq(i - |f|, k => 0) + [v]
  }

  /** A POSIX write at position p, past the end as well. */
  function WriteBytes(f: seq<byte>, p: nat, d: seq<byte>): (r: seq<byte>)
    ensures d == [] ==> r == f
    ensures d != [] ==> |r| == if p + |d| >= |f| then p + |d| else |f|
  {
    if d == [] then f else SetByte(WriteBytes(f, p, d[..|d| - 1]), p + |d| - 1, d[|d| - 1])
  }

  /** A write replaces exactly the bytes from p on by its data; a gap before them is zeros. */
  lemma {:induction false} WrittenAt(f: seq<byte>, p: nat, d: seq<byte>, i: nat)
    requires i < |WriteBytes(f, p, d)|
    ensures WriteBytes(f, p, d)[i] == if p <= i < p + |d| then d[i - p] else if i < |f| then f[i] else 0
  {
    if d != [] && i < |WriteBytes(f, p, d[..|d| - 1])| {
      WrittenAt(f, p, d[..|d| - 1], i);
    }
  }

  /** Two writes one after the other are one write. */
  lemma {:induction false} WritesJoin(f: seq<byte>, p: nat, a: seq<byte>, b: seq<byte>)
    ensures WriteBytes(WriteBytes(f, p, a), p + |a|, b) == WriteBytes(f, p, a + b)
  {
    if b == [] {
      assert a + b == a;
    } else {
      assert (a + b)[..|a + b| - 1] == a + b[..|b| - 1];
      WritesJoin(f, p, a, b[..|b| - 1]);
    }
  }

  /** h_lseek, h_read and h_write on an open file. `env` is what the card's file system
      does: a negative value an error, otherwise how many bytes it gets through. */
  function Exec(f: seq<byte>, p: nat, op: Op, env: int): (r: (seq<byte>, nat, seq<byte>))
    ensures r.2 != []
    ensures |f| <= MAX_SIZE && p <= MAX_SIZE ==> |r.0| <= MAX_SIZE && r.1 <= MAX_SIZE
  {
    match op
    case Seek(off) =>
      if off >= 0x8000_0000 then (f, p, [ST_EINVAL]) // a negative int32
      else (f, off, [ST_OK] + Wr32(off))
    case Get(want) =>
      var want' := Least(want, IO_CHUNK);
      if env < 0 then (f, p, [ST_EIO])
      else
        var n := Least(Least(env, want'), if p <= |f| then |f| - p else 0);
        if n == 0 && want' > 0 then (f, p, [ST_EOF])
        else (f, p + n, [ST_OK] + Wr16(n) + (if n == 0 then [] else f[p..p + n]))
    case Put(data) =>
      if env < 0 || |data| >= 0x1_0000 || p > MAX_SIZE then (f, p, [ST_EIO])
      else
        var n := Least(Least(env, |data|), MAX_SIZE - p);
        (WriteBytes(f, p, data[..n]), p + n, [ST_OK] + Wr16(n))
  }

  /** A READ that the file system gets on with says that the end is reached exactly if it is,
      and else gives some of the bytes from the position on. */
  lemma ReadTellsTheEnd(f: seq<byte>, p: nat, want: u16, env: int)
    requires want > 0 && env >= 1
    ensures var (f', p', resp) := Exec(f, p, Get(want), env);
            f' == f && if p >= |f| then p' == p && resp == [0x21]
                       else p < p' <= |f| && p' - p <= want && resp == [0x00] + Wr16(p' - p) + f[p..p']
  {}

  // ---- the server's session ----

  datatype Srv = Srv(file: seq<byte>, pos: nat, have: bool, lastNum: byte, lastCmd: byte, reply: seq<byte>)

  predicate Cached(s: Srv, num: byte, code: byte) { s.have && s.lastNum == num && s.lastCmd == code }

  /** One request: a replay of the cached reply, or an execution that is cached. */
  function Served(s: Srv, num: byte, op: Op, env: int): (r: (Srv, seq<byte>)) {
    if Cached(s, num, Code(op)) then (s, s.reply)
    else
      var (f, p, body) := Exec(s.file, s.pos, op, env);
      (Srv(f, p, true, num, Code(op), body), body)
  }

  /** What a READ reply tells when it carries data. */
  lemma ReadReply(f: seq<byte>, p: nat, want: u16, env: int, body: seq<byte>)
    requires Exec(f, p, Get(want), env).2 == body && |body| >= 3
    ensures var n := Rd16(body[1..]);
            && n <= want && |body| == 3 + n && Exec(f, p, Get(want), env).1 == p + n
            && (n > 0 ==> p + n <= |f| && body[3..] == f[p..p + n])
  {}

  /** What a WRITE reply tells. */
  lemma WriteReply(f: seq<byte>, p: nat, data: seq<byte>, env: int, body: seq<byte>)
    requires Exec(f, p, Put(data), env).2 == body && |body| >= 3
    ensures var n := Rd16(body[1..]);
            && n <= |data| && body[0] == ST_OK
            && Exec(f, p, Put(data), env).0 == WriteBytes(f, p, data[..n]) && Exec(f, p, Put(data), env).1 == p + n
  {}

  /** However far a WRITE gets, it has written a first part of its data and moved the
      position past it. */
  lemma PutEffect(f: seq<byte>, p: nat, data: seq<byte>, env: int)
    requires p <= MAX_SIZE
    ensures var (f', p', _) := Exec(f, p, Put(data), env);
            p <= p' <= p + |data| && f' == WriteBytes(f, p, data[..p' - p])
  {}

  lemma ChunkJoins(f: seq<byte>, off: nat, data: seq<byte>, done: nat, len: nat, n: nat)
    requires done + len <= |data| && n <= len
    ensures WriteBytes(WriteBytes(f, off, data[..done]), off + done, data[done..done + len][..n])
         == WriteBytes(f, off, data[..done + n])
  {
    var (a, b) := (data[..done], data[done..done + len][..n]);
    assert a + b == data[..done + n];
    WritesJoin(f, off, a, b);
  }

  /** A LSEEK that is answered OK has moved the position there, unless the server took it
      for a retransmission of an earlier one to another place: exactly then it has not. */
  lemma SeekIsHonestUnlessReplayed(s: Srv, num: byte, off: u32, env: int)
    requires Served(s, num, Seek(off), env).1 != [] && Served(s, num, Seek(off), env).1[0] == ST_OK
    ensures Served(s, num, Seek(off), env).0.pos == off <==> !Cached(s, num, LSEEK) || s.pos == off
  {}

  /** Such a replay follows when a LSEEK was executed but its replies were lost and the
      client gave up: the number is not advanced, so the next LSEEK looks the same. It is
      answered OK, and the READ after it returns bytes from the old place. */
  lemma GivenUpSeekMisleads(s: Srv, num: byte, first: u32, off: u32, n: u16)
    requires !Cached(s, num, LSEEK) && first < 0x8000_0000 && 0 < n <= IO_CHUNK && first + n <= |s.file|
    ensures var s1 := Served(s, num, Seek(first), 0).0;
            var (s2, seekReply) := Served(s1, num, Seek(off), 0);
            var (s3, readReply) := Served(s2, (num + 1) % 0x100, Get(n), n);
            && seekReply[0] == ST_OK && s2 == s1
            && readReply == [ST_OK] + Wr16(n) + s.file[first..first + n]
  {}

  // ---- what a client can know ----

  /** The requests `ops` were sent under `num` and given up on, one after the other: each of
      them was lost or has been served, and that has brought the server from s to s'. */
  ghost predicate MayBe(s: Srv, num: byte, ops: seq<Op>, s': Srv)
    decreases |ops|
  {
    if ops == [] then s' == s
    else
      || MayBe(s, num, ops[1..], s')
      || exists env: int :: MayBeServed(s, num, ops, env, s')
  }

  ghost predicate MayBeServed(s: Srv, num: byte, ops: seq<Op>, env: int, s': Srv)
    requires ops != []
    decreases |ops|, 0
  {
    MayBe(Served(s, num, ops[0], env).0, num, ops[1..], s')
  }

  /** Nothing has been served under this number, as after a success. */
  predicate Unused(s: Srv, num: byte) { !(s.have && s.lastNum == num) }

  /** Whatever became of the requests given up on since the last success, and whatever the
      server holds, a LSEEK to `off` that is answered OK has moved the position there. */
  ghost predicate SeekIsSafe(ops: seq<Op>, num: byte, off: u32) {
    forall s, s' :: Unused(s, num) && MayBe(s, num, ops, s') ==> SeeksTo(s', num, off)
  }

  ghost predicate SeeksTo(s: Srv, num: byte, off: u32) {
    forall env: int :: var (s', body) := Served(s, num, Seek(off), env); body != [] && body[0] == ST_OK ==> s'.pos == off
  }

  /** An LSEEK that the server carries out, to a place other than `off`. */
  predicate Elsewhere(op: Op, off: u32) { op.Seek? && op.off != off && op.off < 0x8000_0000 }

  /** The seek is safe if and only if no LSEEK to another place was given up on since the
      last success. */
  lemma SeekIsSafeIff(ops: seq<Op>, num: byte, off: u32)
    ensures SeekIsSafe(ops, num, off) <==> forall i :: 0 <= i < |ops| ==> !Elsewhere(ops[i], off)
  {
    if i :| 0 <= i < |ops| && Elsewhere(ops[i], off) {
      var s := Srv([], off, false, 0, 0, []);
      OnlyThatServed(s, num, ops, i);
      var s' := Served(s, num, ops[i], 0).0;
      assert Served(s', num, Seek(off), 0).1[0] == ST_OK;
      assert !SeeksTo(s', num, off);
    } else {
      forall s, s' | Unused(s, num) && MayBe(s, num, ops, s') ensures SeeksTo(s', num, off) {
        ReplaysSeekHere(s, num, ops, s', off);
      }
    }
  }

  /** The same on the command codes alone, all that the file client would have to remember:
      seeks are safe whatever was given up on under these codes, if and only if LSEEK is not
      one of them. */
  lemma SeekIsSafeIffNotBurnt(burnt: set<byte>, num: byte, off: u32)
    ensures (forall ops :: CodesIn(ops, burnt) ==> SeekIsSafe(ops, num, off)) <==> LSEEK !in burnt
  {
    if LSEEK in burnt {
      var ops := [Seek(if off == 0 then 1 else 0)];
      assert Elsewhere(ops[0], off);
      SeekIsSafeIff(ops, num, off);
      assert CodesIn(ops, burnt) && !SeekIsSafe(ops, num, off);
    } else {
      forall ops | CodesIn(ops, burnt) ensures SeekIsSafe(ops, num, off) {
        SeekIsSafeIff(ops, num, off);
      }
    }
  }

  predicate CodesIn(ops: seq<Op>, codes: set<byte>) { forall i :: 0 <= i < |ops| ==> Code(ops[i]) in codes }

  lemma {:induction false} NoneServed(s: Srv, num: byte, ops: seq<Op>)
    ensures MayBe(s, num, ops, s)
    decreases |ops|
  {
    if ops != [] {
      NoneServed(s, num, ops[1..]);
    }
  }

  lemma {:induction false} OnlyThatServed(s: Srv, num: byte, ops: seq<Op>, i: nat)
    requires i < |ops|
    ensures MayBe(s, num, ops, Served(s, num, ops[i], 0).0)
    decreases |ops|
  {
    if i == 0 {
      NoneServed(Served(s, num, ops[0], 0).0, num, ops[1..]);
      assert MayBeServed(s, num, ops, 0, Served(s, num, ops[0], 0).0);
    } else {
      OnlyThatServed(s, num, ops[1..], i - 1);
    }
  }

  /** A LSEEK that the server would replay is one to this place, or was refused. */
  predicate SeekHere(s: Srv, num: byte, off: u32) {
    Cached(s, num, LSEEK) ==> s.reply != [] && (s.reply[0] == ST_OK ==> s.pos == off)
  }

  lemma ServedSeekHere(s: Srv, num: byte, op: Op, env: int, off: u32)
    requires SeekHere(s, num, off) && !Elsewhere(op, off)
    ensures SeekHere(Served(s, num, op, env).0, num, off)
  {}

  lemma {:induction false} ReplaysSeekHere(s: Srv, num: byte, ops: seq<Op>, s': Srv, off: u32)
    requires SeekHere(s, num, off) && MayBe(s, num, ops, s') && forall i :: 0 <= i < |ops| ==> !Elsewhere(ops[i], off)
    ensures SeekHere(s', num, off) && SeeksTo(s', num, off)
    decreases |ops|
  {
    if ops != [] {
      if MayBe(s, num, ops[1..], s') {
        ReplaysSeekHere(s, num, ops[1..], s', off);
      } else {
        var env: int :| MayBeServed(s, num, ops, env, s');
        ServedSeekHere(s, num, ops[0], env, off);
        ReplaysSeekHere(Served(s, num, ops[0], env).0, num, ops[1..], s', off);
      }
    }
  }

  class Session {
    var file: seq<byte>
    var pos: nat
    var have: bool
    var lastNum: byte
    var lastCmd: byte
    var reply: seq<byte>

    ghost function State(): Srv
      reads this
    {
      Srv(file, pos, have, lastNum, lastCmd, reply)
    }

    method Serve(num: byte, op: Op, env: int) returns (body: seq<byte>)
      modifies this
      ensures (State(), body) == Served(old(State()), num, op, env)
    {
      if have && lastNum == num && lastCmd == Code(op) {
        return reply;
      }
      var r := Exec(file, pos, op, env);
      file, pos, body := r.0, r.1, r.2;
      have, lastNum, lastCmd, reply := true, num, Code(op), body;
    }
  }

  /** What the file may have become when some of these requests, sent but given up on, get
      to the server after all. */
  ghost predicate MayBecome(f: seq<byte>, p: nat, ops: seq<Op>, f': seq<byte>, p': nat)
    decreases |ops|
  {
    if ops == [] then f' == f && p' == p
    else
      || MayBecome(f, p, ops[1..], f', p')
      || exists env: int :: MayBecomeAfter(f, p, ops, env, f', p')
  }

  ghost predicate MayBecomeAfter(f: seq<byte>, p: nat, ops: seq<Op>, env: int, f': seq<byte>, p': nat)
    requires ops != []
    decreases |ops|, 0
  {
    var r := Exec(f, p, ops[0], env);
    MayBecome(r.0, r.1, ops[1..], f', p')
  }

  // ---- the client ----

  datatype Err = Ok | Timeout | Fail

  /** What becomes of one transmission: whether it can be sent, gets to the server, and is
      answered in time; and what the card's file system does if it is executed. */
  datatype Fate = Fate(sends: bool, arrives: bool, returns_: bool, env: int)

  predicate Answered(f: Fate) { f.sends && f.arrives && f.returns_ }

  /** How a command ends whose first transmission is the i-th. */
  function Outcome(net: nat -> Fate, i: nat, tries: nat): (r: Err)
    decreases tries
  {
    if tries == 0 then Timeout
    else if !net(i).sends then Fail
    else if Answered(net(i)) then Ok
    else Outcome(net, i + 1, tries - 1)
  }

  /** Ok means an answer to one of the transmissions, and that no earlier one was answered or
      could not be sent; Fail means that one could not be sent; Timeout that all were sent in
      vain. */
  lemma {:induction false} OutcomeIs(net: nat -> Fate, i: nat, tries: nat)
    ensures Outcome(net, i, tries) == Ok <==>
            exists k :: i <= k < i + tries && Answered(net(k)) && forall m :: i <= m < k ==> net(m).sends && !Answered(net(m))
    ensures Outcome(net, i, tries) == Fail <==>
            exists k :: i <= k < i + tries && !net(k).sends && forall m :: i <= m < k ==> net(m).sends && !Answered(net(m))
    ensures Outcome(net, i, tries) == Timeout <==> forall k :: i <= k < i + tries ==> net(k).sends && !Answered(net(k))
    decreases tries
  {
    if tries > 0 && net(i).sends && !Answered(net(i)) {
      OutcomeIs(net, i + 1, tries - 1);
    }
  }

  /** From the i-th on every transmission can be sent, one in three is answered, and the file
      system gets at least one byte on. */
  ghost predicate Reliable(net: nat -> Fate, i: nat) {
    forall k :: k >= i ==> net(k).sends && net(k).env >= 1 && OneOfThree(net, k)
  }

  predicate OneOfThree(net: nat -> Fate, k: nat) { Answered(net(k)) || Answered(net(k + 1)) || Answered(net(k + 2)) }

  lemma ReliableAnswers(net: nat -> Fate, from: nat, i: nat)
    requires Reliable(net, from) && i >= from
    ensures Outcome(net, i, TnfsLink.RETRIES) == Ok
  {
    assert net(i).sends && net(i + 1).sends && net(i + 2).sends && OneOfThree(net, i);
    assert Outcome(net, i, 3) == if Answered(net(i)) then Ok else Outcome(net, i + 1, 2);
    assert Outcome(net, i + 1, 2) == if Answered(net(i + 1)) then Ok else Outcome(net, i + 2, 1);
  }

  /** A reply that the client does not take for a success. */
  predicate Refused(op: Op, resp: seq<byte>) {
    match op
    case Seek(_) => resp == [] || resp[0] != ST_OK
    case Get(want) =>
      resp == [] || (resp[0] != ST_OK && resp[0] != ST_EOF) || |resp| < 3
      || Rd16(resp[1..]) == 0 || Rd16(resp[1..]) > want || |resp| < 3 + Rd16(resp[1..])
    case Put(data) =>
      resp == [] || resp[0] != ST_OK || |resp| < 3 || Rd16(resp[1..]) == 0 || Rd16(resp[1..]) > |data|
  }

  /** The size the client knows once `done` bytes have been written from `off` on. */
  function SizeAfter(size: nat, off: nat, done: nat): (r: nat)
    ensures r >= size && (done > 0 ==> r >= off + done) && (r == size || (done > 0 && r == off + done))
  {
    if done > 0 && off + done > size then off + done else size
  }

  class RemoteFile {
    const server: Session
    const net: nat -> Fate         // what becomes of each transmission
    var sent: nat                  // how many there have been
    var num: byte
    var size: nat
    var pos: nat
    var posValid: bool
    var resp: seq<byte>            // body of the last reply
    var late: seq<Op>              // requests given up on that may still be delivered
    ghost var burnt: set<byte>     // codes given up on since the last success
    ghost var asked: Op            // the last command

    ghost predicate LinkOk()
      reads this, server
    {
      && |server.file| <= MAX_SIZE && server.pos <= MAX_SIZE
      && (forall i :: 0 <= i < |late| ==> Code(late[i]) in burnt)
      && (burnt == {} ==> late == [])
      && (server.have && server.lastNum == num ==> server.lastCmd in burnt)
    }

    ghost predicate Valid()
      reads this, server
    {
      LinkOk() && (posValid ==> burnt == {})
    }

    /** The client's idea of the position is right, and a LSEEK will be understood. */
    ghost predicate Synced()
      reads this, server
    {
      (posValid ==> pos == server.pos) && LSEEK !in burnt
    }

    /** A file just opened: the position is unknown, and nothing was given up on. */
    constructor (server: Session, net: nat -> Fate, num: byte, size: nat)
      requires |server.file| <= MAX_SIZE && server.pos <= MAX_SIZE && !(server.have && server.lastNum == num)
      ensures Valid() && Synced() && late == [] && this.server == server && this.net == net && sent == 0
    {
      this.server, this.net, this.num, this.size := server, net, num, size;
      sent, pos, posValid, resp, late, burnt, asked := 0, 0, false, [], [], {}, Seek(0);
    }

    /** The last command went wrong: it was not answered, or not with a success. */
    ghost predicate WentWrong(err: Err, since: nat)
      reads this
    {
      || (exists i :: since <= i < sent && err == Outcome(net, i, TnfsLink.RETRIES) != Ok)
      || (err == Fail && Refused(asked, resp))
    }

    /** Some of the requests given up on reach the server after all. */
    method DeliverLate()
      requires LinkOk()
      modifies this`late, server
      ensures LinkOk() && late == []
      ensures MayBecome(old(server.file), old(server.pos), old(late), server.file, server.pos)
      decreases |late|
    {
      if late == [] {
        return;
      }
      var op := late[0];
      assert Code(op) in burnt;
      ghost var (f, p, ops) := (server.file, server.pos, late);
      var arrives: bool := *;
      if arrives {
        var env: int := *;
        ghost var was := server.State();
        var body := server.Serve(num, op, env);
        late := late[1..];
        ghost var (f1, p1) := (server.file, server.pos);
        DeliverLate();
        if !Cached(was, num, Code(op)) {
          assert MayBecomeAfter(f, p, ops, env, server.file, server.pos);
        }
      } else {
        late := late[1..];
        DeliverLate();
      }
    }

    /** tnfs_command, with the network in it: up to three transmissions, each of which may
        be lost on the way there or back, or fail to be sent. An answered command whose code
        was not given up on before has been executed once, and the answer is its own. */
    method Command(op: Op) returns (err: Err, ghost f0: seq<byte>, ghost p0: nat, ghost env: int)
      requires LinkOk()
      modifies this`num, this`resp, this`late, this`burnt, this`sent, this`asked, server
      ensures LinkOk() && asked == op && old(sent) < sent
      ensures err == Outcome(net, old(sent), TnfsLink.RETRIES)
      ensures MayBecome(old(server.file), old(server.pos), old(late), f0, p0)
      ensures err == Ok ==> num == (old(num) + 1) % 0x100 && burnt == {} && late == []
      ensures err == Ok && Code(op) !in old(burnt) ==>
                (server.file, server.pos, resp) == Exec(f0, p0, op, env) && exists k :: old(sent) <= k < sent && env == net(k).env
      ensures err != Ok ==> num == old(num) && burnt == old(burnt) + {Code(op)}
      ensures (server.file, server.pos) == (f0, p0) || (server.file, server.pos) == (Exec(f0, p0, op, env).0, Exec(f0, p0, op, env).1)
    {
      DeliverLate();
      f0, p0 := server.file, server.pos;
      err, env := Transmit(op);
    }

    /** The loop over the transmissions of one command. */
    method Transmit(op: Op) returns (err: Err, ghost env: int)
      requires LinkOk() && late == []
      modifies this`num, this`resp, this`late, this`burnt, this`sent, this`asked, server
      ensures LinkOk() && asked == op && old(sent) < sent
      ensures err == Outcome(net, old(sent), TnfsLink.RETRIES)
      ensures err == Ok ==> num == (old(num) + 1) % 0x100 && burnt == {} && late == []
      ensures err == Ok && Code(op) !in old(burnt) ==>
                && (server.file, server.pos, resp) == Exec(old(server.file), old(server.pos), op, env)
                && exists k :: old(sent) <= k < sent && env == net(k).env
      ensures err != Ok ==> num == old(num) && burnt == old(burnt) + {Code(op)}
      ensures var r := Exec(old(server.file), old(server.pos), op, env);
              (server.file, server.pos) == old((server.file, server.pos)) || (server.file, server.pos) == (r.0, r.1)
    {
      asked, env := op, 0;
      ghost var (f0, p0) := (server.file, server.pos);
      var delivered := false;
      ghost var (ran, end) := (false, Outcome(net, sent, TnfsLink.RETRIES));
      for attempt := 0 to TnfsLink.RETRIES
        invariant UnderWay(op, delivered, ran, f0, p0, env)
        invariant late == [] && burnt == old(burnt) && num == old(num) && asked == op && sent == old(sent) + attempt
        invariant end == Outcome(net, sent, TnfsLink.RETRIES - attempt)
        invariant ran ==> exists k :: old(sent) <= k < sent && env == net(k).env
      {
        var fate := net(sent);
        sent := sent + 1;
        if !fate.sends {
          GiveUp(op, delivered);
          return Fail, env;
        }
        if fate.arrives {
          var body;
          body, ran, env := Arrive(op, fate.env, delivered, ran, f0, p0, env);
          delivered := true;
          if fate.returns_ {
            Succeed(op, body);
            return Ok, env;
          }
        }
      }
      GiveUp(op, delivered);
      err := Timeout;
    }

    /** An answer ends the command, and the next one has the next number. */
    method Succeed(op: Op, body: seq<byte>)
      requires LinkOk0(op) && late == [] && Cached(server.State(), num, Code(op))
      modifies this`resp, this`num, this`burnt
      ensures LinkOk() && resp == body && num == (old(num) + 1) % 0x100 && burnt == {}
    {
      resp, num, burnt := body, (num + 1) % 0x100, {};
    }

    /** How far a command has come: whether a transmission got to the server, and whether that
        executed it. */
    ghost predicate UnderWay(op: Op, delivered: bool, ran: bool, f0: seq<byte>, p0: nat, env: int)
      reads this, server
    {
      && LinkOk0(op)
      && (!delivered ==> LinkOk() && !ran)
      && (delivered ==> Cached(server.State(), num, Code(op)) && (ran || Code(op) in burnt))
      && (if ran then (server.file, server.pos, server.reply) == Exec(f0, p0, op, env)
          else server.file == f0 && server.pos == p0)
    }

    /** A transmission gets to the server. */
    method Arrive(op: Op, e: int, ghost delivered: bool, ghost ran: bool, ghost f0: seq<byte>, ghost p0: nat, ghost env: int)
        returns (body: seq<byte>, ghost ran': bool, ghost env': int)
      requires UnderWay(op, delivered, ran, f0, p0, env)
      modifies server
      ensures UnderWay(op, true, ran', f0, p0, env') && body == server.reply
      ensures env' == if ran' && !ran then e else env
      ensures ran ==> ran'
    {
      ran', env' := ran, env;
      if !Cached(server.State(), num, Code(op)) {
        ran', env' := true, e;
      }
      body := server.Serve(num, op, e);
    }

    /** A request that never got to the server may still do so. */
    method GiveUp(op: Op, delivered: bool)
      requires LinkOk0(op) && late == [] && (!delivered ==> LinkOk())
      modifies this`late, this`burnt
      ensures LinkOk() && burnt == old(burnt) + {Code(op)}
    {
      var later: bool := *;
      if !delivered && later {
        late := [op];
      }
      burnt := burnt + {Code(op)};
    }

    ghost predicate LinkOk0(op: Op)
      reads this, server
    {
      && |server.file| <= MAX_SIZE && server.pos <= MAX_SIZE
      && (server.have && server.lastNum == num ==> server.lastCmd in burnt + {Code(op)})
    }

    /** tnfs_seek. */
    method SeekTo(off: u32) returns (err: Err, ghost f0: seq<byte>, ghost p0: nat)
      requires Valid()
      modifies this`num, this`resp, this`late, this`burnt, this`sent, this`asked, this`pos, this`posValid, server
      ensures Valid()
      ensures MayBecome(old(server.file), old(server.pos), old(late), f0, p0) && server.file == f0
      ensures err == Ok ==> posValid && pos == off && late == [] && burnt == {}
      ensures err == Ok && old(Synced()) ==> server.pos == off
      ensures err != Ok ==> !posValid && old(sent) < sent && WentWrong(err, old(sent))
      ensures old(posValid) && old(pos) == off ==> err == Ok && sent == old(sent)
      ensures old(Synced()) && Reliable(net, old(sent)) && off < 0x8000_0000 ==> err == Ok
      ensures old(sent) <= sent
    {
      if posValid && pos == off {
        return Ok, server.file, server.pos;
      }
      ghost var (env, from, reliable) := (0, sent, Reliable(net, sent));
      err, f0, p0, env := Command(Seek(off));
      if reliable { ReliableAnswers(net, from, from); }
      if err != Ok || resp == [] || resp[0] != ST_OK {
        posValid := false;
        return if err == Ok then Fail else err, f0, p0;
      }
      pos, posValid := off, true;
    }

    /** One READ of tnfs_read_at's loop, at a position known to be right. */
    method ReadChunk(want: nat) returns (err: Err, data: seq<byte>)
      requires Valid() && posValid && burnt == {} && 0 < want <= IO_CHUNK
      modifies this`num, this`resp, this`late, this`burnt, this`sent, this`asked, this`pos, this`posValid, server
      ensures Valid() && server.file == old(server.file) && LSEEK !in burnt && old(sent) < sent
      ensures err != Ok ==> !posValid && WentWrong(err, old(sent))
      ensures Reliable(net, old(sent)) && old(server.pos) + want <= |server.file| ==> err == Ok
      ensures err == Ok ==> posValid && burnt == {} && 0 < |data| <= want && pos == old(pos) + |data|
      ensures err == Ok && old(pos) == old(server.pos) ==>
                pos == server.pos && pos <= |server.file| && data == server.file[old(pos)..pos]
    {
      ghost var (from, reliable) := (sent, Reliable(net, sent));
      ghost var f, p, env;
      err, f, p, env := Command(Get(want));
      if reliable { ReliableAnswers(net, from, from); }
      data := [];
      if err != Ok {
        posValid := false;
        return;
      }
      if (resp[0] != ST_OK && resp[0] != ST_EOF) || |resp| < 3 {
        posValid := false;
        return Fail, [];
      }
      ReadReply(f, p, want, env, resp);
      var got := Rd16(resp[1..]);
      if got == 0 || got > want || |resp| < 3 + got {
        posValid := false;
        return Fail, [];
      }
      data := resp[3..3 + got];
      pos := pos + got;
    }

    /** tnfs_read_at: on Ok the buffer holds exactly the file's bytes at off, however the
        server cut the reads and whatever the network did; the file is unchanged. */
    method ReadAt(off: nat, len: nat, buf: array<byte>) returns (err: Err, ghost f0: seq<byte>, ghost p0: nat)
      requires Valid() && len <= buf.Length && off + len <= MAX_SIZE
      modifies this`num, this`resp, this`late, this`burnt, this`sent, this`asked, this`pos, this`posValid, server, buf
      ensures Valid()
      ensures len > 0 ==> MayBecome(old(server.file), old(server.pos), old(late), f0, p0) && server.file == f0
      ensures len == 0 ==> err == Ok && server.file == old(server.file)
      ensures err == Ok && old(Synced()) && len > 0 ==> off + len <= |f0| && buf[..len] == f0[off..off + len]
      ensures old(Synced()) ==> Synced() || (err != Ok && LSEEK in burnt)
      ensures err != Ok ==> WentWrong(err, old(sent))
      ensures old(Synced()) && Reliable(net, old(sent)) && off + len <= |f0| && (off < 0x8000_0000 || old(posValid && pos == off)) ==>
                err == Ok
    {
      f0, p0 := server.file, server.pos;
      var done: nat := 0;
      while done < len
        invariant Valid() && done <= len && (old(Synced()) ==> Synced())
        invariant done == 0 ==> server.file == old(server.file) && server.pos == old(server.pos)
        invariant done == 0 ==> late == old(late) && burnt == old(burnt)
        invariant done > 0 ==> MayBecome(old(server.file), old(server.pos), old(late), f0, p0) && server.file == f0 && burnt == {}
        invariant done > 0 && old(Synced()) ==> off + done <= |f0| && buf[..done] == f0[off..off + done]
        invariant old(sent) <= sent
        invariant if done > 0 then posValid && pos == off + done else sent == old(sent) && posValid == old(posValid) && pos == old(pos)
      {
        ghost var fs, ps;
        err, fs, ps := SeekTo(off + done);
        if done == 0 { f0, p0 := fs, ps; }
        if err != Ok {
          return;
        }
        var data;
        err, data := ReadChunk(Least(len - done, IO_CHUNK));
        if err != Ok {
          return;
        }
        ghost var was := buf[..done];
        CopyChunk(buf, done, data);
        assert old(Synced()) ==> was + data == f0[off..off + done + |data|];
        done := done + |data|;
      }
      err := Ok;
    }

    method CopyChunk(buf: array<byte>, at: nat, chunk: seq<byte>)
      requires at + |chunk| <= buf.Length
      modifies buf
      ensures buf[..at + |chunk|] == old(buf[..at]) + chunk
    {
      for i := 0 to |chunk|
        invariant buf[..at + i] == old(buf[..at]) + chunk[..i]
      {
        buf[at + i] := chunk[i];
        assert buf[..at + i + 1] == buf[..at + i] + [chunk[i]];
      }
    }

    /** One WRITE of tnfs_write_at's loop. The server has written a first part of the
        chunk: `put` bytes as far as the client knows, and n in truth. */
    method WriteChunk(chunk: seq<byte>) returns (err: Err, put: nat, ghost n: nat)
      requires Valid() && posValid && burnt == {} && 0 < |chunk| <= IO_CHUNK
      modifies this`num, this`resp, this`late, this`burnt, this`sent, this`asked, this`pos, this`posValid, server
      ensures Valid() && LSEEK !in burnt && n <= |chunk|
      ensures server.file == WriteBytes(old(server.file), old(server.pos), chunk[..n]) && server.pos == old(server.pos) + n
      ensures err != Ok ==> !posValid && WentWrong(err, old(sent))
      ensures err == Ok ==> posValid && burnt == {} && 0 < put == n && pos == old(pos) + n
      ensures Reliable(net, old(sent)) && old(server.pos) < MAX_SIZE ==> err == Ok
      ensures old(sent) < sent
    {
      ghost var (from, reliable) := (sent, Reliable(net, sent));
      ghost var f, p, env;
      err, f, p, env := Command(Put(chunk));
      if reliable { ReliableAnswers(net, from, from); }
      PutEffect(f, p, chunk, env);
      put, n := 0, server.pos - p;
      if err != Ok {
        posValid := false;
        return;
      }
      if resp[0] != ST_OK || |resp| < 3 {
        posValid := false;
        return Fail, 0, n;
      }
      WriteReply(f, p, chunk, env, resp);
      put := Rd16(resp[1..]);
      if put == 0 || put > |chunk| {
        posValid := false;
        return Fail, 0, n;
      }
      pos := pos + put;
    }

    /** One turn of tnfs_write_at's loop: the seek and the WRITE. */
    method WriteTurn(off: nat, chunk: seq<byte>) returns (err: Err, put: nat, ghost f0: seq<byte>, ghost p0: nat, ghost n: nat)
      requires Valid() && off <= MAX_SIZE && 0 < |chunk| <= IO_CHUNK
      modifies this`num, this`resp, this`late, this`burnt, this`sent, this`asked, this`pos, this`posValid, server
      ensures Valid() && n <= |chunk|
      ensures MayBecome(old(server.file), old(server.pos), old(late), f0, p0)
      ensures old(burnt) == {} ==> f0 == old(server.file)
      ensures old(Synced()) ==> server.file == WriteBytes(f0, off, chunk[..n])
      ensures old(Synced()) ==> Synced() || (err != Ok && LSEEK in burnt)
      ensures err == Ok ==> burnt == {} && 0 < put == n && posValid && pos == off + n
      ensures err != Ok ==> WentWrong(err, old(sent))
      ensures old(Synced()) && Reliable(net, old(sent)) && off < MAX_SIZE && (off < 0x8000_0000 || old(posValid && pos == off)) ==>
                err == Ok
      ensures old(sent) <= sent
    {
      put, n := 0, 0;
      err, f0, p0 := SeekTo(off);
      if err == Ok {
        err, put, n := WriteChunk(chunk);
      }
    }

    /** The turn of the loop that begins with byte `done` of the data. */
    method NextTurn(off: nat, data: seq<byte>, done: nat) returns (err: Err, put: nat, ghost f0: seq<byte>, ghost p0: nat, ghost n: nat)
      requires Valid() && off + |data| <= MAX_SIZE && done < |data|
      modifies this`num, this`resp, this`late, this`burnt, this`sent, this`asked, this`pos, this`posValid, this`size, server
      ensures Valid() && done + n <= |data|
      ensures MayBecome(old(server.file), old(server.pos), old(late), f0, p0)
      ensures old(burnt) == {} ==> f0 == old(server.file)
      ensures old(Synced()) ==>
                forall f :: f0 == WriteBytes(f, off, data[..done]) ==> server.file == WriteBytes(f, off, data[..done + n])
      ensures old(Synced()) ==> Synced() || (err != Ok && LSEEK in burnt)
      ensures err == Ok ==> burnt == {} && 0 < put == n && posValid && pos == off + done + n
      ensures err == Ok ==> size >= old(size) && size >= off + done + n && (size == old(size) || size == off + done + n)
      ensures err != Ok ==> WentWrong(err, old(sent))
      ensures old(Synced()) && Reliable(net, old(sent)) && (off + done < 0x8000_0000 || old(posValid && pos == off + done)) ==>
                err == Ok
      ensures old(sent) <= sent
    {
      var len := Least(|data| - done, IO_CHUNK);
      err, put, f0, p0, n := WriteTurn(off + done, data[done..done + len]);
      forall f | f0 == WriteBytes(f, off, data[..done])
        ensures WriteBytes(f0, off + done, data[done..done + len][..n]) == WriteBytes(f, off, data[..done + n]) {
        ChunkJoins(f, off, data, done, len, n);
      }
      if err == Ok {
        Grow(off + done + put);
      }
    }

    /** The file as the client knows it is at least this long. */
    method Grow(end: nat)
      modifies this`size
      ensures size >= old(size) && size >= end && (size == old(size) || size == end)
    {
      if end > size {
        size := end;
      }
    }

    /** tnfs_write_at: on Ok exactly the file's bytes from off on are replaced, once; on an
        error some first part of them is. */
    method WriteAt(off: nat, data: seq<byte>) returns (err: Err, ghost f0: seq<byte>, ghost p0: nat, ghost k: nat)
      requires Valid() && off + |data| <= MAX_SIZE
      modifies this`num, this`resp, this`late, this`burnt, this`sent, this`asked, this`pos, this`posValid, this`size, server
      ensures Valid()
      ensures MayBecome(old(server.file), old(server.pos), old(late), f0, p0) || data == []
      ensures old(Synced()) ==> k <= |data| && server.file == WriteBytes(f0, off, data[..k]) && (err == Ok ==> k == |data|)
      ensures old(Synced()) ==> Synced() || (err != Ok && LSEEK in burnt)
      ensures data == [] ==> err == Ok && server.file == old(server.file)
      ensures err == Ok ==> size == SizeAfter(old(size), off, |data|)
      ensures err != Ok ==> WentWrong(err, old(sent))
      ensures old(Synced()) && Reliable(net, old(sent)) && (off < 0x8000_0000 || old(posValid && pos == off)) ==> err == Ok
    {
      f0, p0, k, err := server.file, server.pos, 0, Ok;
      ghost var synced := Synced();
      var done: nat := 0;
      while done < |data|
        invariant Valid() && k == done <= |data| && (synced ==> Synced()) && err == Ok
        invariant done == 0 ==> server.file == f0 == old(server.file) && server.pos == old(server.pos) && late == old(late)
        invariant done > 0 ==> MayBecome(old(server.file), old(server.pos), old(late), f0, p0) && burnt == {}
        invariant synced ==> server.file == WriteBytes(f0, off, data[..k])
        invariant old(sent) <= sent && size == SizeAfter(old(size), off, done)
        invariant if done > 0 then posValid && pos == off + done else posValid == old(posValid) && pos == old(pos)
      {
        var put;
        ghost var f1, p1, n;
        err, put, f1, p1, n := NextTurn(off, data, done);
        if done == 0 {
          f0, p0 := f1, p1;
          assert data[..0] == [] && f0 == WriteBytes(f0, off, data[..done]);
        }
        k := done + n;
        if err != Ok {
          return;
        }
        done := done + put;
      }
    }
  }
}
