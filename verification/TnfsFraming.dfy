/** TNFS replies on a byte stream: they carry no length, so the client derives it from the
    command and the status (src/net/tnfs.c), and this is the inverse of how the server
    builds them (src/net/tnfs_server.c). */
module TnfsFraming {
  import opened Bytes
  import opened TnfsProto
  import opened TnfsDir

  // ---- what the client takes off the stream ----

  /** Bytes of fixed length that follow an OK status. */
  function Extra(cmd: byte): (n: nat) {
    if cmd == MOUNT || cmd == LSEEK then 4
    else if cmd == OPENDIRX then 3
    else if cmd == WRITE || cmd == READ then 2
    else if cmd == OPEN || cmd == OPENDIR then 1
    else 0
  }

  /** Past the NUL of a name that starts at p. */
  function NameEnd(s: seq<byte>, p: nat): (r: Option<nat>)
    ensures r.Some? ==> p < r.value <= |s| && r.value <= MSG_CAP
    decreases |s| - p
  {
    if p >= MSG_CAP || p >= |s| then None
    else if s[p] == 0 then Some(p + 1)
    else NameEnd(s, p + 1)
  }

  function EntriesEnd(s: seq<byte>, p: nat, count: nat): (r: Option<nat>)
    requires p <= |s| && p <= MSG_CAP
    ensures r.Some? ==> p <= r.value <= |s| && r.value <= MSG_CAP
    decreases count
  {
    if count == 0 then Some(p)
    else if p + FIXED > MSG_CAP || p + FIXED > |s| then None
    else match NameEnd(s, p + FIXED) case None => None case Some(q) => EntriesEnd(s, q, count - 1)
  }

  /** How long the reply at the front of the stream is, in the client's eyes; None when the
      stream ends first or the reply does not fit. */
  function Framed(cmd: byte, s: seq<byte>): (r: Option<nat>)
    ensures r.Some? ==> r.value <= |s| && r.value <= MSG_CAP
  {
    if |s| < STATUS_OFF + 1 then None
    else if s[STATUS_OFF] == ST_EAGAIN then (if |s| < STATUS_OFF + 3 then None else Some(STATUS_OFF + 3))
    else if s[STATUS_OFF] == ST_OK || (cmd == READ && s[STATUS_OFF] == ST_EOF) then
      var total := STATUS_OFF + 1 + Extra(cmd);
      if |s| < total then None
      else if cmd == READ then
        var n := total + Rd16(s[STATUS_OFF + 1..]);
        if n > MSG_CAP || n > |s| then None else Some(n)
      else if cmd == READDIR then NameEnd(s, total)
      else if cmd == READDIRX then (if |s| < total + 4 then None else EntriesEnd(s, total + 4, s[total]))
      else Some(total)
    else Some(STATUS_OFF + 1)
  }

  /** tcp_read_exact, into resp from `total` on. */
  method ReadExact(stream: seq<byte>, resp: array<byte>, total: nat, n: nat) returns (ok: bool)
    requires total + n <= resp.Length && total <= |stream| && resp[..total] == stream[..total]
    modifies resp
    ensures ok <==> total + n <= |stream|
    ensures ok ==> resp[..total + n] == stream[..total + n]
  {
    for i := 0 to n
      invariant total + i <= |stream| && resp[..total + i] == stream[..total + i]
    {
      if total + i >= |stream| {
        return false;
      }
      resp[total + i] := stream[total + i];
      assert resp[..total + i + 1] == resp[..total + i] + [stream[total + i]];
    }
    ok := true;
  }

  /** The byte-by-byte loop for a NUL-terminated name. */
  method ReadName(stream: seq<byte>, resp: array<byte>, from: nat) returns (end: Option<nat>)
    requires resp.Length == MSG_CAP && from <= MSG_CAP && from <= |stream| && resp[..from] == stream[..from]
    modifies resp
    ensures end == NameEnd(stream, from)
    ensures end.Some? ==> resp[..end.value] == stream[..end.value]
  {
    var total := from;
    while true
      invariant from <= total <= MSG_CAP && total <= |stream| && resp[..total] == stream[..total]
      invariant NameEnd(stream, total) == NameEnd(stream, from)
      decreases |stream| - total
    {
      if total >= resp.Length {
        return None;
      }
      var ok := ReadExact(stream, resp, total, 1);
      if !ok {
        return None;
      }
      total := total + 1;
      assert resp[total - 1] == resp[..total][total - 1] == stream[total - 1];
      if resp[total - 1] == 0 {
        return Some(total);
      }
    }
  }

  /** tcp_response: exactly the bytes that Framed says, or an error. */
  method Response(stream: seq<byte>, resp: array<byte>, cmd: byte) returns (n: Option<nat>)
    requires resp.Length == MSG_CAP
    modifies resp
    ensures n == Framed(cmd, stream)
    ensures n.Some? ==> resp[..n.value] == stream[..n.value]
  {
    var ok := ReadExact(stream, resp, 0, STATUS_OFF + 1);
    if !ok {
      return None;
    }
    var status := resp[STATUS_OFF];
    assert status == resp[..STATUS_OFF + 1][STATUS_OFF] == stream[STATUS_OFF];
    var total := STATUS_OFF + 1;
    if status == ST_EAGAIN {
      ok := ReadExact(stream, resp, total, 2);
      return if ok then Some(total + 2) else None;
    }
    if !(status == ST_OK || (cmd == READ && status == ST_EOF)) {
      return Some(total);
    }
    ok := ReadExact(stream, resp, total, Extra(cmd));
    if !ok {
      return None;
    }
    total := total + Extra(cmd);
    if cmd == READ {
      var word := resp[STATUS_OFF + 1..STATUS_OFF + 3];
      assert word == resp[..total][STATUS_OFF + 1..] && word == stream[STATUS_OFF + 1..STATUS_OFF + 3];
      var count := Rd16(word);
      if total + count > resp.Length {
        return None;
      }
      ok := ReadExact(stream, resp, total, count);
      return if ok then Some(total + count) else None;
    }
    if cmd == READDIR {
      n := ReadName(stream, resp, total);
      return;
    }
    if cmd == READDIRX {
      n := ReadEntries(stream, resp, total);
      return;
    }
    n := Some(total);
  }

  /** The part of tcp_response for READDIRX. */
  method ReadEntries(stream: seq<byte>, resp: array<byte>, from: nat) returns (n: Option<nat>)
    requires resp.Length == MSG_CAP && from == STATUS_OFF + 1 <= |stream| && resp[..from] == stream[..from]
    modifies resp
    ensures n == if |stream| < from + 4 then None else EntriesEnd(stream, from + 4, stream[from])
    ensures n.Some? ==> resp[..n.value] == stream[..n.value]
  {
    var ok := ReadExact(stream, resp, from, 4);
    if !ok {
      return None;
    }
    var count: nat := resp[from];
    assert resp[from] == resp[..from + 4][from] == stream[from];
    var total: nat := from + 4;
    for i := 0 to count
      invariant total <= MSG_CAP && total <= |stream| && resp[..total] == stream[..total]
      invariant EntriesEnd(stream, total, count - i) == EntriesEnd(stream, from + 4, count)
    {
      if total + FIXED > resp.Length {
        return None;
      }
      ok := ReadExact(stream, resp, total, FIXED);
      if !ok {
        return None;
      }
      var end := ReadName(stream, resp, total + FIXED);
      if end.None? {
        return None;
      }
      total := end.value;
    }
    n := Some(total);
  }

  // ---- what the server's handlers build ----

  datatype Reply =
    | Error(status: byte)
    | Again(ms: u16)
    | Done
    | Handle(h: byte)
    | DirX(h: byte, count: u16)
    | Version(lo: byte, hi: byte, retry: u16)
    | Pos(off: u32)
    | Count(n: u16)
    | Data(data: seq<byte>)
    | Name(e: Entry)
    | Entries(rest: seq<Entry>, k: nat, eof: bool, pos: u16)

  /** The replies each handler can make. */
  predicate Builds(cmd: byte, r: Reply) {
    match r
    case Error(status) => status != ST_OK && status != ST_EAGAIN
    case Again(_) => cmd == MOUNT
    case Done => cmd == UMOUNT || cmd == CLOSE || cmd == CLOSEDIR
    case Handle(_) => cmd == OPEN || cmd == OPENDIR
    case DirX(_, _) => cmd == OPENDIRX
    case Version(_, _, _) => cmd == MOUNT
    case Pos(_) => cmd == LSEEK
    case Count(_) => cmd == WRITE
    case Data(data) => cmd == READ && |data| <= IO_CHUNK
    case Name(_) => cmd == READDIR
    case Entries(rest, k, _, _) => cmd == READDIRX && 0 < k <= |rest| && k < 0x100 && 5 + SizeAll(rest, k) <= BODY_CAP
  }

  function Body(r: Reply): seq<byte>
    requires r.Data? ==> |r.data| <= IO_CHUNK
    requires r.Entries? ==> 0 < r.k <= |r.rest| && r.k < 0x100
  {
    match r
    case Error(status) => [status]
    case Again(ms) => [ST_EAGAIN] + Wr16(ms)
    case Done => [ST_OK]
    case Handle(h) => [ST_OK, h]
    case DirX(h, count) => [ST_OK, h] + Wr16(count)
    case Version(lo, hi, retry) => [ST_OK, lo, hi] + Wr16(retry)
    case Pos(off) => [ST_OK] + Wr32(off)
    case Count(n) => [ST_OK] + Wr16(n)
    case Data(data) => [ST_OK] + Wr16(|data|) + data
    case Name(e) => [ST_OK] + NameBytes(e.name) + [0]
    case Entries(rest, k, eof, pos) => BodyX(rest, k, eof, pos)
  }

  lemma {:induction false} NameEndAt(s: seq<byte>, p: nat, q: nat)
    requires p <= q < |s| && q < MSG_CAP && s[q] == 0 && forall i :: p <= i < q ==> s[i] != 0
    ensures NameEnd(s, p) == Some(q + 1)
    decreases q - p
  {
    if p < q {
      NameEndAt(s, p + 1, q);
    }
  }

  /** A run of bytes stands in the stream at p. */
  predicate Stands(s: seq<byte>, p: nat, data: seq<byte>) { p + |data| <= |s| && s[p..p + |data|] == data }

  lemma PartStands(s: seq<byte>, p: nat, a: seq<byte>, b: seq<byte>)
    requires Stands(s, p, a + b)
    ensures Stands(s, p, a) && Stands(s, p + |a|, b)
  {
    assert s[p..p + |a|] == s[p..p + |a + b|][..|a|];
    assert s[p + |a|..p + |a| + |b|] == s[p..p + |a + b|][|a|..];
  }

  lemma ByteStands(s: seq<byte>, p: nat, data: seq<byte>, i: nat)
    requires Stands(s, p, data) && i < |data|
    ensures s[p + i] == data[i]
  {}

  /** The NUL-terminated name of e stands at p. */
  predicate NameLies(s: seq<byte>, p: nat, e: Entry) {
    && p + |e.name| < |s| && s[p..p + |e.name|] == NameBytes(e.name) && s[p + |e.name|] == 0
  }

  lemma NameStands(s: seq<byte>, p: nat, e: Entry)
    requires Stands(s, p, NameBytes(e.name) + [0])
    ensures NameLies(s, p, e)
  {
    PartStands(s, p, NameBytes(e.name), [0]);
    ByteStands(s, p + |e.name|, [0], 0);
  }

  lemma NameLiesEnds(s: seq<byte>, p: nat, e: Entry)
    requires NameLies(s, p, e) && p + |e.name| < MSG_CAP
    ensures NameEnd(s, p) == Some(p + |e.name| + 1)
  {
    forall i | p <= i < p + |e.name| ensures s[i] != 0 {
      assert s[i] == s[p..p + |e.name|][i - p] == NameBytes(e.name)[i - p];
    }
    NameEndAt(s, p, p + |e.name|);
  }

  /** An entry as the client reads it: the flags, and the name 13 bytes further on. */
  predicate EntryLies(s: seq<byte>, p: nat, e: Entry) {
    p + FIXED <= |s| && s[p] == e.flags && NameLies(s, p + FIXED, e)
  }

  lemma EntryStands(s: seq<byte>, p: nat, e: Entry)
    requires Stands(s, p, Encode(e))
    ensures EntryLies(s, p, e)
  {
    var fixed := [e.flags] + Wr32(e.size) + Wr32(e.mtime) + Wr32(e.ctime);
    assert Encode(e) == fixed + (NameBytes(e.name) + [0]);
    PartStands(s, p, fixed, NameBytes(e.name) + [0]);
    ByteStands(s, p, fixed, 0);
    NameStands(s, p + FIXED, e);
  }

  lemma {:induction false} EachEntryStands(s: seq<byte>, p: nat, rest: seq<Entry>, k: nat, i: nat)
    requires i < k <= |rest| && Stands(s, p, EncodeAll(rest, k))
    ensures Stands(s, p + SizeAll(rest, i), Encode(rest[i]))
  {
    PartStands(s, p, EncodeAll(rest, k - 1), Encode(rest[k - 1]));
    if i < k - 1 {
      EachEntryStands(s, p, rest, k - 1, i);
    }
  }

  predicate LiesAt(s: seq<byte>, p: nat, rest: seq<Entry>, i: nat)
    requires i < |rest|
  {
    EntryLies(s, p + SizeAll(rest, i), rest[i])
  }

  /** k entries stand one after the other from p on. */
  ghost predicate Lie(s: seq<byte>, p: nat, rest: seq<Entry>, k: nat)
    requires k <= |rest|
  {
    forall i {:trigger LiesAt(s, p, rest, i)} :: 0 <= i < k ==> LiesAt(s, p, rest, i)
  }

  lemma EntriesLie(s: seq<byte>, p: nat, rest: seq<Entry>, k: nat)
    requires k <= |rest| && Stands(s, p, EncodeAll(rest, k))
    ensures Lie(s, p, rest, k)
  {
    forall i | 0 <= i < k ensures LiesAt(s, p, rest, i) {
      EachEntryStands(s, p, rest, k, i);
      EntryStands(s, p + SizeAll(rest, i), rest[i]);
    }
  }

  /** Entries i to k stand one after the other from p on, as a reader goes through them. */
  predicate Chain(s: seq<byte>, p: nat, rest: seq<Entry>, i: nat, k: nat)
    requires i <= k <= |rest|
    decreases k - i
  {
    i == k || (EntryLies(s, p, rest[i]) && Chain(s, p + Size(rest[i]), rest, i + 1, k))
  }

  function End(p: nat, rest: seq<Entry>, i: nat, k: nat): (r: nat)
    requires i <= k <= |rest|
    ensures p <= r
    decreases k - i
  {
    if i == k then p else End(p + Size(rest[i]), rest, i + 1, k)
  }

  lemma {:induction false} LieIsChain(s: seq<byte>, p: nat, rest: seq<Entry>, i: nat, k: nat)
    requires i <= k <= |rest| && Lie(s, p, rest, k)
    ensures Chain(s, p + SizeAll(rest, i), rest, i, k) && End(p + SizeAll(rest, i), rest, i, k) == p + SizeAll(rest, k)
    decreases k - i
  {
    if i < k {
      assert LiesAt(s, p, rest, i);
      LieIsChain(s, p, rest, i + 1, k);
    }
  }

  lemma {:induction false} EntriesFrame(s: seq<byte>, p: nat, rest: seq<Entry>, i: nat, k: nat)
    requires i <= k <= |rest| && Chain(s, p, rest, i, k) && End(p, rest, i, k) <= MSG_CAP && End(p, rest, i, k) <= |s|
    ensures EntriesEnd(s, p, k - i) == Some(End(p, rest, i, k))
    decreases k - i
  {
    if i < k {
      NameLiesEnds(s, p + FIXED, rest[i]);
      EntriesFrame(s, p + Size(rest[i]), rest, i + 1, k);
    }
  }

  lemma BodyStands(hdr: seq<byte>, body: seq<byte>, tail: seq<byte>)
    requires |hdr| == STATUS_OFF
    ensures Stands(hdr + body + tail, STATUS_OFF, body)
    ensures body != [] ==> (hdr + body + tail)[STATUS_OFF] == body[0]
  {}

  /** On any reply that the server can build, whatever follows it on the stream, the client
      takes exactly that reply, except for a READ at end of file: the server sends the
      status alone, and the client waits for a count that is not there. */
  lemma FramingInvertsBuilding(cmd: byte, hdr: seq<byte>, r: Reply, tail: seq<byte>)
    requires |hdr| == STATUS_OFF && Builds(cmd, r)
    ensures Framed(cmd, hdr + Body(r) + tail) == Some(STATUS_OFF + |Body(r)|) <==> !(cmd == READ && r == Error(ST_EOF))
  {
    BodyStands(hdr, Body(r), tail);
    ReplyFrames(cmd, hdr + Body(r) + tail, r);
  }

  lemma ReplyFrames(cmd: byte, s: seq<byte>, r: Reply)
    requires Builds(cmd, r) && Stands(s, STATUS_OFF, Body(r))
    ensures Framed(cmd, s) == Some(STATUS_OFF + |Body(r)|) <==> !(cmd == READ && r == Error(ST_EOF))
  {
    match r
    case Data(data) => DataFrames(s, data);
    case Name(e) => NameFrames(s, e);
    case Entries(rest, k, eof, pos) =>
      EntriesReplyLies(s, rest, k, eof, pos);
      EntriesReplyFrames(s, rest, k, 5 + SizeAll(rest, k));
    case _ => ShortFrames(cmd, s, r);
  }

  /** The replies of fixed length. */
  lemma ShortFrames(cmd: byte, s: seq<byte>, r: Reply)
    requires Builds(cmd, r) && Stands(s, STATUS_OFF, Body(r)) && !r.Data? && !r.Name? && !r.Entries?
    ensures Framed(cmd, s) == Some(STATUS_OFF + |Body(r)|) <==> !(cmd == READ && r == Error(ST_EOF))
  {}

  lemma DataFrames(s: seq<byte>, data: seq<byte>)
    requires |data| <= IO_CHUNK && Stands(s, STATUS_OFF, Body(Data(data)))
    ensures Framed(READ, s) == Some(STATUS_OFF + |Body(Data(data))|)
  {
    var head := [ST_OK] + Wr16(|data|);
    PartStands(s, STATUS_OFF, head, data);
    ByteStands(s, STATUS_OFF, head, 0);
    ByteStands(s, STATUS_OFF, head, 1);
    ByteStands(s, STATUS_OFF, head, 2);
  }

  lemma NameFrames(s: seq<byte>, e: Entry)
    requires Stands(s, STATUS_OFF, Body(Name(e)))
    ensures Framed(READDIR, s) == Some(STATUS_OFF + |Body(Name(e))|)
  {
    assert Body(Name(e)) == [ST_OK] + (NameBytes(e.name) + [0]);
    PartStands(s, STATUS_OFF, [ST_OK], NameBytes(e.name) + [0]);
    ByteStands(s, STATUS_OFF, [ST_OK], 0);
    NameStands(s, STATUS_OFF + 1, e);
    NameLiesEnds(s, STATUS_OFF + 1, e);
  }

  lemma EntriesReplyLies(s: seq<byte>, rest: seq<Entry>, k: nat, eof: bool, pos: u16)
    requires 0 < k <= |rest| && k < 0x100 && Stands(s, STATUS_OFF, BodyX(rest, k, eof, pos))
    ensures |BodyX(rest, k, eof, pos)| == 5 + SizeAll(rest, k) && STATUS_OFF + 5 + SizeAll(rest, k) <= |s|
    ensures s[STATUS_OFF] == ST_OK && s[STATUS_OFF + 1] == k && Lie(s, STATUS_OFF + 5, rest, k)
  {
    HeadStands(s, HeadX(k, eof, pos), EncodeAll(rest, k));
    EntriesLie(s, STATUS_OFF + 5, rest, k);
  }

  lemma HeadStands(s: seq<byte>, head: seq<byte>, enc: seq<byte>)
    requires |head| == 5 && Stands(s, STATUS_OFF, head + enc)
    ensures s[STATUS_OFF] == head[0] && s[STATUS_OFF + 1] == head[1] && Stands(s, STATUS_OFF + 5, enc)
  {}

  lemma EntriesReplyFrames(s: seq<byte>, rest: seq<Entry>, k: nat, size: nat)
    requires 0 < k <= |rest| && k < 0x100 && size == 5 + SizeAll(rest, k) <= BODY_CAP
    requires STATUS_OFF + size <= |s| && s[STATUS_OFF] == ST_OK && s[STATUS_OFF + 1] == k && Lie(s, STATUS_OFF + 5, rest, k)
    ensures Framed(READDIRX, s) == Some(STATUS_OFF + size)
  {
    LieIsChain(s, STATUS_OFF + 5, rest, 0, k);
    EntriesFrame(s, STATUS_OFF + 5, rest, 0, k);
  }

  // ---- the client's view of the entries ----

  /** The names, with the directory flag, that tnfs_listx hands on: None when a reply is
      malformed. */
  function Decode(s: seq<byte>, p: nat, count: nat): (r: Option<seq<(string, bool)>>)
    requires p <= |s| <= MSG_CAP
    decreases count
  {
    if count == 0 then Some([])
    else if p + FIXED >= |s| then None
    else
      match NameEnd(s, p + FIXED)
      case None => None
      case Some(q) =>
        match Decode(s, q, count - 1)
        case None => None
        case Some(more) =>
          var name := Chars(s[p + FIXED..q - 1]);
          Some((if name != "" then [(name, s[p] % 2 == 1)] else []) + more)
  }

  function Chars(s: seq<byte>): string { seq(|s|, i requires 0 <= i < |s| => s[i] as char) }

  lemma CharsInvert(name: string)
    requires forall i :: 0 <= i < |name| ==> name[i] as int < 0x100
    ensures Chars(NameBytes(name)) == name
  {}

  function Listed(rest: seq<Entry>, i: nat, k: nat): (r: seq<(string, bool)>)
    requires i <= k <= |rest|
    decreases k - i
  {
    if i == k then [] else [(rest[i].name, rest[i].flags % 2 == 1)] + Listed(rest, i + 1, k)
  }

  lemma {:induction false} DecodeFrom(s: seq<byte>, p: nat, rest: seq<Entry>, i: nat, k: nat)
    requires i <= k <= |rest| && Chain(s, p, rest, i, k) && End(p, rest, i, k) <= |s| <= MSG_CAP
    ensures Decode(s, p, k - i) == Some(Listed(rest, i, k))
    decreases k - i
  {
    if i < k {
      DecodeFrom(s, p + Size(rest[i]), rest, i + 1, k);
      DecodeOne(s, p, rest[i], k - i);
    }
  }

  lemma DecodeOne(s: seq<byte>, p: nat, e: Entry, count: nat)
    requires EntryLies(s, p, e) && p + Size(e) <= |s| <= MSG_CAP && count > 0
    ensures var more := Decode(s, p + Size(e), count - 1);
            Decode(s, p, count) == if more.None? then None else Some([(e.name, e.flags % 2 == 1)] + more.value)
  {
    NameLiesEnds(s, p + FIXED, e);
    CharsInvert(e.name);
    assert s[p + FIXED..p + Size(e) - 1] == NameBytes(e.name);
  }

  lemma DecodeReply(s: seq<byte>, rest: seq<Entry>, k: nat, eof: bool, pos: u16)
    requires 0 < k <= |rest| && k < 0x100 && Stands(s, STATUS_OFF, BodyX(rest, k, eof, pos)) && |s| <= MSG_CAP
    ensures s[STATUS_OFF + 1] == k && Decode(s, STATUS_OFF + 5, k) == Some(Listed(rest, 0, k))
  {
    EntriesReplyLies(s, rest, k, eof, pos);
    LieIsChain(s, STATUS_OFF + 5, rest, 0, k);
    DecodeFrom(s, STATUS_OFF + 5, rest, 0, k);
  }

  /** The client reads out of a READDIRX reply exactly the entries that the server put in,
      in order. */
  lemma EntriesDecodeBack(hdr: seq<byte>, rest: seq<Entry>, k: nat, eof: bool, pos: u16)
    requires |hdr| == STATUS_OFF && 0 < k <= |rest| && k < 0x100 && 5 + SizeAll(rest, k) <= BODY_CAP
    ensures var s := hdr + BodyX(rest, k, eof, pos);
            |s| <= MSG_CAP && Decode(s, STATUS_OFF + 5, s[STATUS_OFF + 1]) == Some(Listed(rest, 0, k))
  {
    var s := hdr + BodyX(rest, k, eof, pos);
    BodyStands(hdr, BodyX(rest, k, eof, pos), []);
    assert s + [] == s;
    DecodeReply(s, rest, k, eof, pos);
  }
}
