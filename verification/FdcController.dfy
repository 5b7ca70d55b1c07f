/** The drive controller that the FDC+ engine implements: four byte arrays, and commands
    that read a track, write a track, or ask which drives are there. */
module FdcController {
  import opened Bytes
  import opened Protocol
  import opened DiskCore

  type Disks = s: seq<Option<seq<byte>>> | |s| == MAX_DRIVE
    witness [None, None, None, None]

  const STAT: seq<byte> := [0x53, 0x54, 0x41, 0x54]
  const READ: seq<byte> := [0x52, 0x45, 0x41, 0x44]
  const WRIT: seq<byte> := [0x57, 0x52, 0x49, 0x54]
  const WSTA: seq<byte> := [0x57, 0x53, 0x54, 0x41]

  const RESP_OK := 0
  const RESP_NOT_READY := 1
  const RESP_CSUM_ERR := 2
  const RESP_WRITE_ERR := 3

  /** What one turn of the engine's loop amounts to. */
  datatype Event =
    | Idle                                // no byte came
    | CutShort                            // fewer bytes than a command block
    | Damaged                             // a command block with a wrong checksum
    | Unknown                             // a command that is none of the three
    | Stat
    | Read(io: Io)
    | ReadFailed(io: Io)                  // the card failed
    | WritRefused(io: Io)                 // drive not ready
    | WritCut(io: Io)                     // the track data did not come in full
    | WritDamaged(io: Io)                 // the track data's checksum is wrong
    | WritFailed(io: Io, data: seq<byte>, torn: seq<byte>)    // the card failed
    | Writ(io: Io, data: seq<byte>)

  /** What the card does if it is used: work, or fail and leave something behind. */
  type Card = Option<seq<byte>>

  predicate Ready(ds: Disks, io: Io) {
    1 <= io.len <= TRACK_BUF && 0 <= io.drive < MAX_DRIVE && ds[io.drive].Some?
  }

  /** The track lies inside the drive's image. */
  predicate Inside(ds: Disks, io: Io) {
    Ready(ds, io) && io.track * io.len + io.len <= |ds[io.drive].value|
  }

  function Track(ds: Disks, io: Io): (r: seq<byte>)
    requires Inside(ds, io)
    ensures |r| == io.len
  {
    ds[io.drive].value[io.track * io.len..io.track * io.len + io.len]
  }

  /** Only a complete, undamaged write to a track that exists changes a disk; one at which
      the card fails leaves anything of the same size on that disk. */
  function Next(ds: Disks, ev: Event): (r: Disks) {
    if ev.Writ? && Inside(ds, ev.io) && |ev.data| == ev.io.len
    then ds[ev.io.drive := Some(Patch(ds[ev.io.drive].value, ev.io.track * ev.io.len, ev.data))]
    else if ev.WritFailed? && Inside(ds, ev.io) then ds[ev.io.drive := Some(Left(ds[ev.io.drive].value, ev.torn))]
    else ds
  }

  /** A 10-byte block: mnemonic, two words and the checksum. */
  function Block(cmd: seq<byte>, word1: u16, word2: u16): (r: seq<byte>)
    requires |cmd| == 4
    ensures BlockValid(r)
    ensures r[..4] == cmd && Rd16(r[4..]) == word1 && Rd16(r[6..]) == word2
  {
    var head := cmd + Wr16(word1) + Wr16(word2);
    FieldsOf(cmd, Wr16(word1), Wr16(word2), Wr16(Sum(head) % 0x1_0000));
    head + Wr16(Sum(head) % 0x1_0000)
  }

  /** The fields of a block stand where they were put. */
  lemma FieldsOf(cmd: seq<byte>, w1: seq<byte>, w2: seq<byte>, ck: seq<byte>)
    requires |cmd| == 4 && |w1| == |w2| == |ck| == 2
    ensures var r := cmd + w1 + w2 + ck;
            && r[..4] == cmd && r[..8] == cmd + w1 + w2
            && Rd16(r[4..]) == Rd16(w1) && Rd16(r[6..]) == Rd16(w2) && Rd16(r[8..]) == Rd16(ck)
  {
    var r := cmd + w1 + w2 + ck;
    assert r[4..][0] == w1[0] && r[4..][1] == w1[1];
    assert r[6..][0] == w2[0] && r[6..][1] == w2[1];
    assert r[8..][0] == ck[0] && r[8..][1] == ck[1];
  }

  function Bitmap(ds: Disks): (r: u16)
    ensures r < 16 && forall n :: 0 <= n < MAX_DRIVE ==> (r / BitValue(n) % 2 == 1 <==> ds[n].Some?)
  {
    (if ds[0].Some? then 1 else 0) + (if ds[1].Some? then 2 else 0)
    + (if ds[2].Some? then 4 else 0) + (if ds[3].Some? then 8 else 0)
  }

  /** Everything the engine sends for an event. */
  function Reply(ds: Disks, ev: Event): seq<byte> {
    match ev
    case Idle => []
    case CutShort => []
    case Damaged => []
    case Unknown => []
    case Stat => Block(STAT, RESP_OK, Bitmap(ds))
    case ReadFailed(_) => []
    case Read(io) => if Inside(ds, io) then Track(ds, io) + Wr16(Sum(Track(ds, io)) % 0x1_0000) else []
    case WritRefused(_) => Block(WRIT, RESP_NOT_READY, 0)
    case _ => Block(WRIT, RESP_OK, 0) + Status(ds, ev)
  }

  /** The write status that follows a WRIT that was answered ready. */
  function Status(ds: Disks, ev: Event): seq<byte> {
    if ev.WritDamaged? then Block(WSTA, RESP_CSUM_ERR, 0)
    else if ev.WritFailed? then Block(WSTA, RESP_WRITE_ERR, 0)
    else if ev.Writ? then Block(WSTA, if Inside(ds, ev.io) then RESP_OK else RESP_WRITE_ERR, 0)
    else []
  }

  function IoOf(cmd: seq<byte>): Io
    requires |cmd| == BLOCK_LEN
  {
    var w := Rd16(cmd[4..]);
    Io(Word1Drive(w), Word1Track(w), Rd16(cmd[6..]))
  }

  /** The bytes taken from the line are what the event says they are. */
  predicate Accounts(ds: Disks, taken: seq<byte>, ev: Event) {
    if ev.Idle? then taken == []
    else if ev.CutShort? then taken != []
    else
      |taken| >= BLOCK_LEN &&
      var (cmd, rest) := (taken[..BLOCK_LEN], taken[BLOCK_LEN..]);
      if ev.Damaged? then !BlockValid(cmd) && rest == []
      else
        BlockValid(cmd) &&
        match ev
        case Stat => cmd[..4] == STAT && rest == []
        case Read(io) => cmd[..4] == READ && io == IoOf(cmd) && rest == []
        case ReadFailed(io) => cmd[..4] == READ && io == IoOf(cmd) && rest == [] && Inside(ds, io)
        case Unknown => cmd[..4] != STAT && cmd[..4] != READ && cmd[..4] != WRIT && rest == []
        case _ => cmd[..4] == WRIT && WritOutcome(ds, IoOf(cmd), rest, ev)
  }

  /** What may follow a WRIT command on the line, and what it then amounts to. */
  predicate WritOutcome(ds: Disks, io: Io, rest: seq<byte>, ev: Event) {
    match ev
    case WritRefused(x) => x == io && !Ready(ds, io) && rest == []
    case WritCut(x) => x == io && Ready(ds, io)
    case WritDamaged(x) =>
      x == io && Ready(ds, io) && |rest| == io.len + 2 && Rd16(rest[io.len..]) != Sum(rest[..io.len]) % 0x1_0000
    case WritFailed(x, data, _) =>
      x == io && Inside(ds, io) && |data| == io.len && rest == data + Wr16(Sum(data) % 0x1_0000)
    case Writ(x, data) =>
      x == io && Ready(ds, io) && |data| == io.len && rest == data + Wr16(Sum(data) % 0x1_0000)
    case _ => false
  }

  // ---- the line ----

  /** What the line will still bring, and how many of those bytes come to each call that
      is made within each successive receive window or flush. A window closes at its
      deadline or when the line is gone. Any bytes and any timing may come. */
  datatype Line = Line(bytes: seq<byte>, timing: seq<seq<nat>>)

  function Total(window: seq<nat>): nat {
    if window == [] then 0 else Total(window[..|window| - 1]) + window[|window| - 1]
  }

  /** How many of `need` bytes arrive in time. */
  function Got(l: Line, need: nat): (n: nat)
    ensures n <= need && n <= |l.bytes|
  {
    Least(need, Least(|l.bytes|, if l.timing == [] then 0 else Total(l.timing[0])))
  }

  function Past(l: Line, n: nat): Line
    requires n <= |l.bytes|
  {
    Line(l.bytes[n..], if l.timing == [] then [] else l.timing[1..])
  }

  function Flushed(l: Line): Line { Past(l, Got(l, |l.bytes|)) }

  /** The event of one turn on this line. */
  function Turn(ds: Disks, l: Line, card: Card): (r: (Event, Line)) {
    if Got(l, 1) != 1 then (Idle, Past(l, Got(l, 1)))
    else
      var l1 := Past(l, 1);
      if Got(l1, BLOCK_LEN - 1) != BLOCK_LEN - 1 then (CutShort, Flushed(Past(l1, Got(l1, BLOCK_LEN - 1))))
      else
        var (cmd, l2) := (l.bytes[..BLOCK_LEN], Past(l1, BLOCK_LEN - 1));
        if !BlockValid(cmd) then (Damaged, l2)
        else if cmd[..4] == STAT then (Stat, l2)
        else if cmd[..4] == READ then (ReadTurn(ds, IoOf(cmd), card), l2)
        else if cmd[..4] == WRIT then WritTurn(ds, IoOf(cmd), l2, card)
        else (Unknown, l2)
  }

  function ReadTurn(ds: Disks, io: Io, card: Card): Event {
    if card.Some? && Inside(ds, io) then ReadFailed(io) else Read(io)
  }

  function WritTurn(ds: Disks, io: Io, l: Line, card: Card): (r: (Event, Line)) {
    if !Ready(ds, io) then (WritRefused(io), l)
    else
      match PayloadOf(l, io.len)
      case (NotAll, l') => (WritCut(io), l')
      case (Wrong, l') => (WritDamaged(io), l')
      case (Right(data), l') =>
        (if card.Some? && Inside(ds, io) then WritFailed(io, data, card.value) else Writ(io, data), l')
  }

  /** What comes in as track data: not all of it, or all with a wrong or right checksum. */
  datatype Payload = NotAll | Wrong | Right(data: seq<byte>)

  function PayloadOf(l: Line, len: nat): (r: (Payload, Line)) {
    if Got(l, len) != len then (NotAll, Flushed(Past(l, Got(l, len))))
    else
      var (data, l1) := (l.bytes[..len], Past(l, len));
      if Got(l1, 2) != 2 then (NotAll, Flushed(Past(l1, Got(l1, 2))))
      else if Rd16(l1.bytes) != Sum(data) % 0x1_0000 then (Wrong, Past(l1, 2))
      else (Right(data), Past(l1, 2))
  }

  /** The bytes that a turn takes off the line. */
  function Taken(l: Line, l': Line): seq<byte>
    requires |l'.bytes| <= |l.bytes|
  {
    l.bytes[..|l.bytes| - |l'.bytes|]
  }

  predicate Later(l: Line, l': Line) {
    |l'.bytes| <= |l.bytes| && l.bytes[|l.bytes| - |l'.bytes|..] == l'.bytes
  }

  lemma PayloadAccounts(l: Line, len: nat)
    ensures var (p, l') := PayloadOf(l, len);
            && Later(l, l')
            && var taken := Taken(l, l');
            && (p.Wrong? ==> |taken| == len + 2 && Rd16(taken[len..]) != Sum(taken[..len]) % 0x1_0000)
            && (p.Right? ==> |p.data| == len && taken == p.data + Wr16(Sum(p.data) % 0x1_0000))
  {
    var (p, l') := PayloadOf(l, len);
    if p.NotAll? {
      LaterTwice(l, len);
    } else {
      TakenIs(l, l', len);
      Wr16Inverts(Past(l, len).bytes[..2]);
    }
  }

  lemma LaterOn(a: Line, b: Line, c: Line)
    requires Later(a, b) && Later(b, c)
    ensures Later(a, c)
  {
    assert a.bytes[|a.bytes| - |c.bytes|..] == a.bytes[|a.bytes| - |b.bytes|..][|b.bytes| - |c.bytes|..];
  }

  lemma FlushIsLater(l: Line, n: nat)
    requires n <= |l.bytes|
    ensures Later(l, Past(l, n)) && Later(l, Flushed(Past(l, n)))
  {
    LaterOn(l, Past(l, n), Flushed(Past(l, n)));
  }

  lemma LaterTwice(l: Line, len: nat)
    ensures Later(l, Flushed(Past(l, Got(l, len))))
    ensures Got(l, len) == len ==> Later(l, Flushed(Past(Past(l, len), Got(Past(l, len), 2))))
  {
    FlushIsLater(l, Got(l, len));
    if Got(l, len) == len {
      FlushIsLater(Past(l, len), Got(Past(l, len), 2));
      LaterOn(l, Past(l, len), Flushed(Past(Past(l, len), Got(Past(l, len), 2))));
    }
  }

  /** Track data and a checksum taken off the line. */
  lemma TakenIs(l: Line, l': Line, len: nat)
    requires len + 2 <= |l.bytes| && l' == Past(Past(l, len), 2)
    ensures Later(l, l') && Taken(l, l')[..len] == l.bytes[..len] && Taken(l, l')[len..] == Past(l, len).bytes[..2]
    ensures Taken(l, l') == l.bytes[..len] + Past(l, len).bytes[..2]
    ensures Rd16(Past(l, len).bytes[..2]) == Rd16(Past(l, len).bytes)
  {}

  lemma WritTurnAccounts(ds: Disks, io: Io, l: Line, card: Card)
    ensures var (ev, l') := WritTurn(ds, io, l, card);
            Later(l, l') && WritOutcome(ds, io, Taken(l, l'), ev)
  {
    if Ready(ds, io) {
      PayloadAccounts(l, io.len);
    }
  }

  /** A turn takes bytes off the front of the line, and the event is what they say. */
  lemma TurnAccounts(ds: Disks, l: Line, card: Card)
    ensures var (ev, l') := Turn(ds, l, card);
            Later(l, l') && Accounts(ds, Taken(l, l'), ev)
  {
    var (n, l1) := (Got(l, 1), Past(l, Got(l, 1)));
    if n != 1 || Got(l1, BLOCK_LEN - 1) != BLOCK_LEN - 1 {
      ShortTurnAccounts(ds, l, card);
    } else {
      var l2 := Past(l1, BLOCK_LEN - 1);
      CommandTaken(l, l2);
      CommandAccounts(ds, l, l2, card);
    }
  }

  lemma ShortTurnAccounts(ds: Disks, l: Line, card: Card)
    requires Got(l, 1) != 1 || Got(Past(l, 1), BLOCK_LEN - 1) != BLOCK_LEN - 1
    ensures var (ev, l') := Turn(ds, l, card);
            Later(l, l') && Accounts(ds, Taken(l, l'), ev)
  {}

  lemma CommandTaken(l: Line, l2: Line)
    requires |l.bytes| >= BLOCK_LEN && l2 == Past(Past(l, 1), BLOCK_LEN - 1)
    ensures l2.bytes == l.bytes[BLOCK_LEN..] && Later(l, l2) && Taken(l, l2) == l.bytes[..BLOCK_LEN]
  {}

  /** A turn in which a whole command block came, and the line behind it. */
  lemma CommandAccounts(ds: Disks, l: Line, l2: Line, card: Card)
    requires Got(l, 1) == 1 && Got(Past(l, 1), BLOCK_LEN - 1) == BLOCK_LEN - 1
    requires l2 == Past(Past(l, 1), BLOCK_LEN - 1) && |l.bytes| >= BLOCK_LEN
    requires l2.bytes == l.bytes[BLOCK_LEN..] && Later(l, l2) && Taken(l, l2) == l.bytes[..BLOCK_LEN]
    ensures var (ev, l') := Turn(ds, l, card);
            Later(l, l') && Accounts(ds, Taken(l, l'), ev)
  {
    var cmd := l.bytes[..BLOCK_LEN];
    if BlockValid(cmd) && cmd[..4] == WRIT {
      WritAccounts(ds, l, l2, card);
    } else {
      assert cmd[..BLOCK_LEN] == cmd && cmd[BLOCK_LEN..] == [];
    }
  }

  lemma WritAccounts(ds: Disks, l: Line, l2: Line, card: Card)
    requires |l.bytes| >= BLOCK_LEN && l2.bytes == l.bytes[BLOCK_LEN..]
    requires BlockValid(l.bytes[..BLOCK_LEN]) && l.bytes[..BLOCK_LEN][..4] == WRIT
    ensures var (ev, l') := WritTurn(ds, IoOf(l.bytes[..BLOCK_LEN]), l2, card);
            Later(l, l') && Accounts(ds, Taken(l, l'), ev)
  {
    var io := IoOf(l.bytes[..BLOCK_LEN]);
    WritTurnAccounts(ds, io, l2, card);
    CommandAndRest(l, l2, WritTurn(ds, io, l2, card).1);
  }

  lemma CommandAndRest(l: Line, l2: Line, l': Line)
    requires |l.bytes| >= BLOCK_LEN && l2.bytes == l.bytes[BLOCK_LEN..] && Later(l2, l')
    ensures Later(l, l') && |Taken(l, l')| >= BLOCK_LEN
    ensures Taken(l, l')[..BLOCK_LEN] == l.bytes[..BLOCK_LEN] && Taken(l, l')[BLOCK_LEN..] == Taken(l2, l')
  {}

  /** The line and the events after a number of turns, one card outcome for each. */
  function RunOf(ds: Disks, l: Line, cards: seq<Card>): (r: (seq<Event>, Line))
    ensures |r.0| == |cards|
  {
    if cards == [] then ([], l)
    else
      var n := |cards| - 1;
      var (evs, l') := RunOf(ds, l, cards[..n]);
      var (ev, l'') := Turn(After(ds, evs), l', cards[n]);
      (evs + [ev], l'')
  }

  // ---- runs ----

  function After(ds: Disks, evs: seq<Event>): (r: Disks)
  {
    if evs == [] then ds else Next(After(ds, evs[..|evs| - 1]), evs[|evs| - 1])
  }

  function Replies(ds: Disks, evs: seq<Event>): (r: seq<byte>) {
    if evs == [] then []
    else Replies(ds, evs[..|evs| - 1]) + Reply(After(ds, evs[..|evs| - 1]), evs[|evs| - 1])
  }

  /** The events are what successive pieces of these bytes say, one piece for each event,
      with nothing between them and nothing left over. */
  ghost predicate Genuine(ds: Disks, taken: seq<byte>, evs: seq<Event>)
    decreases |evs|
  {
    if evs == [] then taken == []
    else exists m :: 0 <= m <= |taken| && GenuineUpTo(ds, taken, evs, m)
  }

  /** The last event has the bytes from m on, those before it the others. */
  ghost predicate GenuineUpTo(ds: Disks, taken: seq<byte>, evs: seq<Event>, m: nat)
    requires evs != [] && m <= |taken|
    decreases |evs|, 0
  {
    && Genuine(ds, taken[..m], evs[..|evs| - 1])
    && Accounts(After(ds, evs[..|evs| - 1]), taken[m..], evs[|evs| - 1])
  }

  /** In every run the events account for all that was taken off the front of the line. */
  lemma {:induction false} RunsAreGenuine(ds: Disks, l: Line, cards: seq<Card>)
    ensures var (evs, l') := RunOf(ds, l, cards);
            Later(l, l') && Genuine(ds, Taken(l, l'), evs)
  {
    if cards != [] {
      var n := |cards| - 1;
      var (evs, l1) := RunOf(ds, l, cards[..n]);
      RunsAreGenuine(ds, l, cards[..n]);
      var (ev, l2) := Turn(After(ds, evs), l1, cards[n]);
      TurnAccounts(After(ds, evs), l1, cards[n]);
      NextPiece(l, l1, l2);
      assert (evs + [ev])[..n] == evs;
      assert GenuineUpTo(ds, Taken(l, l2), evs + [ev], |Taken(l, l1)|);
    }
  }

  lemma NextPiece(l: Line, l1: Line, l2: Line)
    requires Later(l, l1) && Later(l1, l2)
    ensures Later(l, l2) && |Taken(l, l1)| <= |Taken(l, l2)|
    ensures Taken(l, l2)[..|Taken(l, l1)|] == Taken(l, l1) && Taken(l, l2)[|Taken(l, l1)|..] == Taken(l1, l2)
  {
    LaterOn(l, l1, l2);
    assert l1.bytes == l.bytes[|Taken(l, l1)|..];
  }

  /** A host that sent WRIT sees a write status with code 0. */
  predicate Acknowledged(ds: Disks, ev: Event) {
    var r := Reply(ds, ev);
    (ev.WritRefused? || ev.WritCut? || ev.WritDamaged? || ev.WritFailed? || ev.Writ?) &&
    |r| == 2 * BLOCK_LEN && r[BLOCK_LEN..][..4] == WSTA && Rd16(r[BLOCK_LEN + 4..]) == RESP_OK
  }

  /** The byte that the last acknowledged write left at an address, or else the byte that
      was there at first; none if a write to that disk has failed on the card since. */
  function LastWritten(ds: Disks, evs: seq<Event>, d: nat, addr: nat): (r: Option<byte>)
    requires d < MAX_DRIVE && ds[d].Some? && addr < |ds[d].value|
    ensures r.None? ==> exists i :: 0 <= i < |evs| && evs[i].WritFailed? && evs[i].io.drive == d
  {
    if evs == [] then Some(ds[d].value[addr])
    else
      var (init, ev) := (evs[..|evs| - 1], evs[|evs| - 1]);
      if WritesTo(After(ds, init), ev, d, addr) then Some(ev.data[addr - ev.io.track * ev.io.len])
      else if ev.WritFailed? && ev.io.drive == d then None
      else LastWritten(ds, init, d, addr)
  }

  /** The write status says 0 exactly when the disks took the write; every other command
      leaves every disk as it is, unless the card failed during a write, and then every
      other disk, and the size of that one. */
  lemma StatusTellsTheTruth(ds: Disks, taken: seq<byte>, ev: Event)
    requires Accounts(ds, taken, ev)
    ensures Acknowledged(ds, ev) <==> ev.Writ? && Inside(ds, ev.io)
    ensures Acknowledged(ds, ev) ==> |ev.data| == ev.io.len
    ensures Acknowledged(ds, ev) ==> Inside(Next(ds, ev), ev.io) && Track(Next(ds, ev), ev.io) == ev.data
    ensures !Acknowledged(ds, ev) && !ev.WritFailed? ==> Next(ds, ev) == ds
    ensures ev.WritFailed? ==>
              forall d :: 0 <= d < MAX_DRIVE ==>
                if d != ev.io.drive || ds[d].None? then Next(ds, ev)[d] == ds[d]
                else Next(ds, ev)[d].Some? && |Next(ds, ev)[d].value| == |ds[d].value|
  {}

  /** In every run, at every moment and address, a disk holds what the last acknowledged
      write put there: acknowledged writes are never lost, and nothing else shows, as long
      as the card fails no write to that disk. */
  lemma {:induction false} DisksHoldLastWritten(ds: Disks, taken: seq<byte>, evs: seq<Event>, d: nat, addr: nat)
    requires d < MAX_DRIVE && ds[d].Some? && addr < |ds[d].value|
    requires Genuine(ds, taken, evs)
    ensures var now := After(ds, evs)[d];
            && now.Some? && |now.value| == |ds[d].value|
            && (LastWritten(ds, evs, d, addr).Some? ==> now.value[addr] == LastWritten(ds, evs, d, addr).value)
    decreases |evs|
  {
    if evs != [] {
      var (init, ev) := (evs[..|evs| - 1], evs[|evs| - 1]);
      var m :| 0 <= m <= |taken| && GenuineUpTo(ds, taken, evs, m);
      DisksHoldLastWritten(ds, taken[..m], init, d, addr);
      EventAtAddress(After(ds, init), taken[m..], ev, d, addr);
    }
  }

  predicate WritesTo(ds: Disks, ev: Event, d: nat, addr: nat) {
    && ev.Writ? && Acknowledged(ds, ev) && ev.io.drive == d && |ev.data| == ev.io.len
    && ev.io.track * ev.io.len <= addr < ev.io.track * ev.io.len + ev.io.len
  }

  /** What one event does to one byte. */
  lemma EventAtAddress(ds: Disks, taken: seq<byte>, ev: Event, d: nat, addr: nat)
    requires Accounts(ds, taken, ev) && d < MAX_DRIVE && ds[d].Some? && addr < |ds[d].value|
    ensures var after := Next(ds, ev)[d];
            && after.Some? && |after.value| == |ds[d].value|
            && (!(ev.WritFailed? && ev.io.drive == d) ==>
                  after.value[addr] == if WritesTo(ds, ev, d, addr) then ev.data[addr - ev.io.track * ev.io.len]
                                       else ds[d].value[addr])
  {
    StatusTellsTheTruth(ds, taken, ev);
    if Acknowledged(ds, ev) {
      WriteAtAddress(ds, ev.io, ev.data, d, addr);
    }
  }

  lemma WriteAtAddress(ds: Disks, io: Io, data: seq<byte>, d: nat, addr: nat)
    requires Inside(ds, io) && |data| == io.len && d < MAX_DRIVE && ds[d].Some? && addr < |ds[d].value|
    ensures var (after, off) := (Next(ds, Writ(io, data))[d], io.track * io.len);
            && after.Some? && |after.value| == |ds[d].value|
            && after.value[addr] == if io.drive == d && off <= addr < off + io.len then data[addr - off] else ds[d].value[addr]
  {
    if io.drive == d {
      PatchAt(ds[d].value, io.track * io.len, data, addr);
    }
  }

  lemma PatchAt(s: seq<byte>, off: nat, data: seq<byte>, addr: nat)
    requires off + |data| <= |s|
    ensures |Patch(s, off, data)| == |s|
    ensures addr < |s| ==> Patch(s, off, data)[addr] == if off <= addr < off + |data| then data[addr - off] else s[addr]
  {}

  /** A READ answered in any run carries, byte for byte, what the last acknowledged writes
      left on the track, where the card has failed no later write, and the sum of what it
      carries. */
  lemma ReadReflectsWrites(ds: Disks, taken: seq<byte>, evs: seq<Event>, io: Io, k: nat, addr: nat)
    requires Genuine(ds, taken, evs)
    requires 0 <= io.drive < MAX_DRIVE && ds[io.drive].Some? && Inside(After(ds, evs), io)
    requires k < io.len && addr == io.track * io.len + k && addr < |ds[io.drive].value|
    ensures var (r, want) := (Reply(After(ds, evs), Read(io)), LastWritten(ds, evs, io.drive, addr));
            && |r| == io.len + 2 && Rd16(r[io.len..]) == Sum(r[..io.len]) % 0x1_0000
            && (want.Some? ==> r[k] == want.value)
  {
    DisksHoldLastWritten(ds, taken, evs, io.drive, addr);
    ReadShows(After(ds, evs), io, k, addr, LastWritten(ds, evs, io.drive, addr));
  }

  lemma ReadShows(ds: Disks, io: Io, k: nat, addr: nat, want: Option<byte>)
    requires Inside(ds, io) && k < io.len && addr == io.track * io.len + k && addr < |ds[io.drive].value|
    requires want.Some? ==> ds[io.drive].value[addr] == want.value
    ensures var r := Reply(ds, Read(io));
            && |r| == io.len + 2 && Rd16(r[io.len..]) == Sum(r[..io.len]) % 0x1_0000
            && (want.Some? ==> r[k] == want.value)
  {
    TrackAt(ds, io, k, addr);
    ReadReply(ds, io, k, want);
  }

  lemma TrackAt(ds: Disks, io: Io, k: nat, addr: nat)
    requires Inside(ds, io) && k < io.len && addr == io.track * io.len + k
    ensures addr < |ds[io.drive].value| && Track(ds, io)[k] == ds[io.drive].value[addr]
  {}

  lemma ReadReply(ds: Disks, io: Io, k: nat, want: Option<byte>)
    requires Inside(ds, io) && k < io.len
    requires want.Some? ==> Track(ds, io)[k] == want.value
    ensures var r := Reply(ds, Read(io));
            && |r| == io.len + 2 && Rd16(r[io.len..]) == Sum(r[..io.len]) % 0x1_0000
            && (want.Some? ==> r[k] == want.value)
  {
    var r := Reply(ds, Read(io));
    assert r[..io.len] == Track(ds, io);
    assert r[io.len..] == Wr16(Sum(Track(ds, io)) % 0x1_0000);
    assert r[k] == Track(ds, io)[k];
  }

  /** Apart from track data, all that ever goes out is blocks that pass their own check: a
      WRIT answer says first whether the drive is ready, and only then how the write went. */
  lemma EveryBlockIsValid(ds: Disks, taken: seq<byte>, ev: Event)
    requires Accounts(ds, taken, ev) && !ev.Read?
    ensures var r := Reply(ds, ev);
            && (|r| == 0 || |r| == BLOCK_LEN || |r| == 2 * BLOCK_LEN)
            && (r != [] ==> BlockValid(r[..BLOCK_LEN]))
            && (|r| == 2 * BLOCK_LEN ==> BlockValid(r[BLOCK_LEN..]) && r[BLOCK_LEN..][..4] == WSTA)
            && (r != [] && !ev.Stat? ==>
                  r[..4] == WRIT && (Rd16(r[4..]) == RESP_OK <==> Ready(ds, ev.io)) && (|r| == 2 * BLOCK_LEN ==> Ready(ds, ev.io)))
  {
    var r := Reply(ds, ev);
    if r != [] && !ev.Stat? && !ev.WritRefused? {
      var ready := Block(WRIT, RESP_OK, 0);
      assert r[..BLOCK_LEN] == ready && r[BLOCK_LEN..] == Status(ds, ev);
      assert r[..4] == ready[..4] && Rd16(r[4..]) == Rd16(ready[4..]);
    } else if r != [] {
      assert r[..BLOCK_LEN] == r;
    }
  }
}
