/** Directory listings in batches: every visible entry once and in order, however many are
    asked for at a time (src/net/tnfs_server.c). */
module TnfsDir {
  import opened Bytes
  import opened TnfsProto
  import Wildcard

  const BODY_CAP := MSG_CAP - HDR_LEN
  const NAME_MAX := 255

  /** A directory entry with what stat says of it. */
  datatype Dirent = Dirent(name: string, flags: byte, size: u32, mtime: u32, ctime: u32)

  /** FAT long names: one byte a character, no NUL, no `*`. */
  predicate NameOk(name: string) {
    && 1 <= |name| <= NAME_MAX
    && forall i :: 0 <= i < |name| ==> 0 < name[i] as int < 0x100 && name[i] != '*'
  }

  type Entry = e: Dirent | NameOk(e.name)
    witness Dirent("A", 0, 0, 0, 0)

  /** Not hidden, and matched by the pattern of the listing. */
  predicate Visible(e: Entry, pattern: string) {
    e.name != "" && e.name[0] != '.' && (pattern == "" || Wildcard.Matches(pattern, e.name))
  }

  /** The visible entries from index i on. */
  function Filter(es: seq<Entry>, i: nat, pattern: string): (r: seq<Entry>)
    requires i <= |es|
    decreases |es| - i
  {
    if i == |es| then []
    else (if Visible(es[i], pattern) then [es[i]] else []) + Filter(es, i + 1, pattern)
  }

  /** A listing shows exactly the entries whose names do not begin with a dot and match the
      pattern, in whatever case; no pattern matches all. */
  lemma {:induction false} ListingShows(es: seq<Entry>, i: nat, pattern: string, e: Entry)
    requires i <= |es|
    ensures e in Filter(es, i, pattern) <==>
            e in es[i..] && e.name != "" && e.name[0] != '.' && (pattern == "" || Wildcard.Matches(pattern, e.name))
    decreases |es| - i
  {
    if i < |es| {
      ListingShows(es, i + 1, pattern, e);
      assert es[i..] == [es[i]] + es[i + 1..];
    }
  }

  // ---- replies ----

  function NameBytes(name: string): (r: seq<byte>)
    requires forall i :: 0 <= i < |name| ==> name[i] as int < 0x100
    ensures |r| == |name|
  {
    seq(|name|, i requires 0 <= i < |name| => name[i] as int)
  }

  function Size(e: Entry): nat { FIXED + |e.name| + 1 }

  function Encode(e: Entry): (r: seq<byte>)
    ensures |r| == Size(e)
  {
    [e.flags] + Wr32(e.size) + Wr32(e.mtime) + Wr32(e.ctime) + NameBytes(e.name) + [0]
  }

  /** The first k entries, one after the other. */
  function EncodeAll(es: seq<Entry>, k: nat): (r: seq<byte>)
    requires k <= |es|
    ensures |r| == SizeAll(es, k)
  {
    if k == 0 then [] else EncodeAll(es, k - 1) + Encode(es[k - 1])
  }

  function SizeAll(es: seq<Entry>, k: nat): nat
    requires k <= |es|
  {
    if k == 0 then 0 else SizeAll(es, k - 1) + Size(es[k - 1])
  }

  /** The body of a READDIRX reply with the first k of the entries that are left. */
  function BodyX(rest: seq<Entry>, k: nat, eof: bool, pos: u16): seq<byte>
    requires k <= |rest| && k < 0x100
  {
    if k == 0 then [ST_EOF] else HeadX(k, eof, pos) + EncodeAll(rest, k)
  }

  /** Status, count, directory status and position, before the entries. */
  function HeadX(k: byte, eof: bool, pos: u16): (r: seq<byte>)
    ensures |r| == 5 && r[0] == ST_OK && r[1] == k
  {
    [ST_OK, k, if eof then DIRSTATUS_EOF else 0] + Wr16(pos)
  }

  lemma HeadReads(rest: seq<Entry>, k: nat, eof: bool, pos: u16, body: seq<byte>)
    requires k <= |rest| && k < 0x100 && body == BodyX(rest, k, eof, pos)
    ensures k == 0 ==> body == [ST_EOF]
    ensures k > 0 ==> |body| > 5 && body[0] == ST_OK && body[1] == k && body[2] == (if eof then 1 else 0)
                      && body[3] as int + 0x100 * body[4] as int == pos
  {
    if k > 0 {
      assert body[..5] == HeadX(k, eof, pos);
      assert body[5..] == EncodeAll(rest, k);
    }
  }

  /** A directory entry on the wire: flags, size and the two times, each with the low byte
      first, and the name. */
  lemma EntryOnTheWire(e: Entry)
    ensures var b := Encode(e);
            && |b| == 13 + |e.name| + 1
            && b[0] == e.flags && Le32(b, 1) == e.size && Le32(b, 5) == e.mtime && Le32(b, 9) == e.ctime
            && b[13 + |e.name|] == 0
            && forall i :: 0 <= i < |e.name| ==> b[13 + i] as int == e.name[i] as int
  {
    var b := Encode(e);
    assert b[1..5] == Wr32(e.size) && b[5..9] == Wr32(e.mtime) && b[9..13] == Wr32(e.ctime);
    assert b[13..13 + |e.name|] == NameBytes(e.name);
    Le32Reads(b, 1);
    Le32Reads(b, 5);
    Le32Reads(b, 9);
  }

  function Le32(b: seq<byte>, i: nat): int
    requires i + 4 <= |b|
  {
    b[i] as int + 0x100 * b[i + 1] as int + 0x1_0000 * b[i + 2] as int + 0x100_0000 * b[i + 3] as int
  }

  lemma Le32Reads(b: seq<byte>, i: nat)
    requires i + 4 <= |b|
    ensures Le32(b, i) == Rd32(b[i..i + 4])
  {}

  function Wanted(n: byte): (r: nat) { if n == 0 then 1 else n }

  /** How many of the entries go into one reply: as many as are wanted and fit. */
  function Batch(rest: seq<Entry>, wanted: nat): (k: nat)
    ensures k <= |rest| && k <= wanted
    ensures 5 + SizeAll(rest, k) <= BODY_CAP
    ensures rest != [] && wanted > 0 ==> k > 0
  {
    BatchFrom(rest, wanted, 0)
  }

  function BatchFrom(rest: seq<Entry>, wanted: nat, k: nat): (r: nat)
    requires k <= |rest| && k <= wanted && 5 + SizeAll(rest, k) <= BODY_CAP
    ensures k <= r <= |rest| && r <= wanted && 5 + SizeAll(rest, r) <= BODY_CAP
    ensures k == 0 && rest != [] && wanted > 0 ==> r > 0
    decreases |rest| - k
  {
    if k == |rest| || k == wanted || 5 + SizeAll(rest, k) + Size(rest[k]) > BODY_CAP then k
    else BatchFrom(rest, wanted, k + 1)
  }

  // ---- a listing as a whole ----

  /** A request: READDIR, or READDIRX with its number. */
  datatype Req = Readdir | Readdirx(n: byte)

  function Returned(rest: seq<Entry>, q: Req): (k: nat)
    ensures k <= |rest| && (k == 0 <==> rest == [])
  {
    match q
    case Readdir => if rest == [] then 0 else 1
    case Readdirx(n) => Batch(rest, Wanted(n))
  }

  /** What a sequence of requests returns, all batches together, and what is left. */
  function Listing(rest: seq<Entry>, reqs: seq<Req>): (r: (seq<Entry>, seq<Entry>))
    decreases |reqs|
  {
    if reqs == [] then ([], rest)
    else
      var k := Returned(rest, reqs[0]);
      var (more, left) := Listing(rest[k..], reqs[1..]);
      (rest[..k] + more, left)
  }

  lemma {:induction false} ListingGoesOn(rest: seq<Entry>, reqs: seq<Req>)
    ensures var (got, left) := Listing(rest, reqs);
            got + left == rest && (left == [] || |got| >= |reqs|)
    decreases |reqs|
  {
    if reqs != [] {
      var k := Returned(rest, reqs[0]);
      var (more, left) := Listing(rest[k..], reqs[1..]);
      ListingGoesOn(rest[k..], reqs[1..]);
      Rejoined(rest, k, more, left);
    }
  }

  lemma Rejoined(rest: seq<Entry>, k: nat, more: seq<Entry>, left: seq<Entry>)
    requires k <= |rest| && more + left == rest[k..]
    ensures rest[..k] + more + left == rest
  {}

  /** However the requests are cut, nothing is skipped, repeated or put out of order; and a
      reply without entries comes exactly when everything has been returned, which is the
      case after as many requests as there are entries at the latest. */
  lemma {:induction false} ListingIsLossless(rest: seq<Entry>, reqs: seq<Req>, q: Req)
    ensures var (got, left) := Listing(rest, reqs);
            && got + left == rest
            && (Returned(left, q) == 0 <==> got == rest)
            && (|reqs| >= |rest| ==> got == rest)
  {
    var (got, left) := Listing(rest, reqs);
    ListingGoesOn(rest, reqs);
    if left == [] {
      assert got + left == got;
    }
  }

  // ---- the directory slot ----

  /** `visible` are the visible entries, and before[i] of them come before index i. */
  ghost predicate Tallied(entries: seq<Entry>, pattern: string, visible: seq<Entry>, before: seq<nat>) {
    && |before| == |entries| + 1 && before[0] == 0 && before[|entries|] == |visible|
    && forall i {:trigger Visible(entries[i], pattern)} :: 0 <= i < |entries| ==>
         if Visible(entries[i], pattern) then
           before[i + 1] == before[i] + 1 && before[i] < |visible| && visible[before[i]] == entries[i]
         else before[i + 1] == before[i]
  }

  function Earlier(entries: seq<Entry>, pattern: string, i: nat): (r: nat)
    requires i <= |entries|
    ensures r == |Filter(entries, 0, pattern)| - |Filter(entries, i, pattern)|
  {
    FilterShrinks(entries, i, pattern);
    |Filter(entries, 0, pattern)| - |Filter(entries, i, pattern)|
  }

  function Before(entries: seq<Entry>, pattern: string): (r: seq<nat>)
    ensures |r| == |entries| + 1
    ensures forall i :: 0 <= i <= |entries| ==> r[i] == |Filter(entries, 0, pattern)| - |Filter(entries, i, pattern)|
  {
    seq(|entries| + 1, i requires 0 <= i <= |entries| => Earlier(entries, pattern, i))
  }

  /** What is visible from i on is the end of all that is visible. */
  lemma {:induction false} FilterShrinks(entries: seq<Entry>, i: nat, pattern: string)
    requires i <= |entries|
    ensures var (all, rest) := (Filter(entries, 0, pattern), Filter(entries, i, pattern));
            |rest| <= |all| && rest == all[|all| - |rest|..]
  {
    if i > 0 {
      FilterShrinks(entries, i - 1, pattern);
    }
  }

  lemma FilterIsTallied(entries: seq<Entry>, pattern: string)
    ensures Tallied(entries, pattern, Filter(entries, 0, pattern), Before(entries, pattern))
  {
    var all := Filter(entries, 0, pattern);
    forall i | 0 <= i < |entries| ensures
        var before := Before(entries, pattern);
        if Visible(entries[i], pattern) then
          before[i + 1] == before[i] + 1 && before[i] < |all| && all[before[i]] == entries[i]
        else before[i + 1] == before[i] {
      FilterShrinks(entries, i, pattern);
      assert |Filter(entries, i, pattern)| > 0 ==> all[|all| - |Filter(entries, i, pattern)|] == Filter(entries, i, pattern)[0];
    }
  }

  class DirSlot {
    const entries: seq<Entry>       // the directory, in readdir order
    const pattern: string           // "" = match all
    var at: nat                     // how far readdir has come
    var pos: u16
    var pending: Option<Entry>      // read ahead, but not yet returned
    ghost const visible: seq<Entry>
    ghost const before: seq<nat>
    ghost var left: nat             // the visible entries from here on have yet to be returned

    ghost predicate Valid()
      reads this`at, this`pending, this`left
    {
      && Wildcard.CString(pattern) && Tallied(entries, pattern, visible, before)
      && at <= |entries| && left <= |visible|
      && before[at] == left + (if pending.Some? then 1 else 0)
      && (pending.Some? ==> left < |visible| && visible[left] == pending.value)
    }

    ghost function Rest(): seq<Entry>
      requires Valid()
      reads this`at, this`pending, this`left
    {
      visible[left..]
    }

    /** h_opendirx on a directory that is there: the listing starts at the first of the
        visible entries; "" and "*" match all. */
    constructor (entries: seq<Entry>, pat: string)
      requires Wildcard.CString(pat)
      ensures Valid() && pos == 0 && at == 0 && pending.None? && this.entries == entries
      ensures pattern == (if pat == "*" then "" else pat) && left == 0 && visible == Filter(entries, 0, pattern)
    {
      var p := if pat == "*" then "" else pat;
      this.entries, pattern, at, pos, pending := entries, p, 0, 0, None;
      visible, before, left := Filter(entries, 0, p), Before(entries, p), 0;
      new;
      FilterIsTallied(entries, p);
    }

    method IsVisible(e: Entry) returns (v: bool)
      requires Valid()
      ensures v == Visible(e, pattern)
    {
      if e.name[0] == '.' {
        return false;
      }
      if pattern != "" {
        StarFree(e);
        v := Wildcard.MatchCI(pattern, e.name);
        return;
      }
      return true;
    }

    /** The pre-count of h_opendirx, and its rewinddir. */
    method CountVisible() returns (count: u16)
      requires Valid() && at == 0 && pending.None?
      ensures count == |Rest()| % 0x1_0000
    {
      count := 0;
      for i := 0 to |entries|
        invariant count == before[i] % 0x1_0000
      {
        var v := IsVisible(entries[i]);
        if v {
          count := (count + 1) % 0x1_0000;
        }
      }
    }

    /** dir_next: the next entry of the listing; none exactly when nothing is left. */
    method Next() returns (r: Option<Entry>)
      requires Valid()
      modifies this`at, this`pending, this`left
      ensures Valid() && pending.None?
      ensures if old(left) == |visible| then r.None? && left == old(left)
              else r == Some(visible[old(left)]) && left == old(left) + 1
    {
      if pending.Some? {
        r := pending;
        pending := None;
        left := left + 1;
        return;
      }
      while at < |entries|
        invariant Valid() && pending.None? && left == old(left)
      {
        var e := entries[at];
        var v := IsVisible(e);
        at := at + 1;
        if v {
          left := left + 1;
          return Some(e);
        }
      }
      return None;
    }

    /** dir_stash: puts back the entry just read. */
    method Stash(e: Entry)
      requires Valid() && pending.None? && left > 0 && visible[left - 1] == e
      modifies this`pending, this`left
      ensures Valid() && left == old(left) - 1
    {
      pending := Some(e);
      left := left - 1;
    }

    /** h_readdir: one name, or end of file when nothing is left. */
    method ReadDir(body: array<byte>) returns (n: nat)
      requires Valid() && body.Length == MSG_CAP
      modifies this`at, this`pending, this`left, body
      ensures Valid() && n <= BODY_CAP
      ensures var k := Returned(old(Rest()), Readdir);
              && Rest() == old(Rest())[k..]
              && body[..n] == if k == 0 then [ST_EOF] else [ST_OK] + NameBytes(old(Rest())[0].name) + [0]
    {
      var r := Next();
      if r.None? {
        body[0] := ST_EOF;
        return 1;
      }
      body[0] := ST_OK;
      n := Append(body, 1, NameBytes(r.value.name) + [0]);
    }

    /** h_readdirx: as many entries as are wanted and fit the reply; the one read too many
        is put back. Only a listing that has nothing left answers without an entry, and the
        end-of-directory flag says that the batch was cut short by the end. */
    method ReadDirX(numwanted: byte, body: array<byte>) returns (n: nat)
      requires Valid() && body.Length == MSG_CAP
      modifies this`at, this`pending, this`left, this`pos, body
      ensures Valid() && n <= BODY_CAP
      ensures var (rest, k) := (old(Rest()), Returned(old(Rest()), Readdirx(numwanted)));
              && Rest() == rest[k..] && pos == (old(pos) + k) % 0x1_0000
              && k < 0x100 && body[..n] == BodyX(rest, k, k == |rest| && k < Wanted(numwanted), old(pos))
      ensures var k := Returned(old(Rest()), Readdirx(numwanted));
              && (k == 0 ==> n == 1 && body[0] == ST_EOF)
              && (k > 0 ==> n > 5 && body[0] == ST_OK && body[1] == k && body[3] as int + 0x100 * body[4] as int == old(pos))
              && (k > 0 ==> (body[2] % 2 == 1 <==> Rest() == [] && k < Wanted(numwanted)))
    {
      ghost var rest := Rest();
      var idx, count, eof := FillEntries(rest, if numwanted == 0 then 1 else numwanted, body);
      assert Rest() == rest[count..];
      n := Finish(rest, body, idx, count, eof);
      HeadReads(rest, count, eof, old(pos), body[..n]);
    }

    /** The head of the reply, once its entries are in. */
    method Finish(ghost rest: seq<Entry>, body: array<byte>, idx: nat, count: byte, eof: bool) returns (n: nat)
      requires body.Length == MSG_CAP && 5 <= idx <= BODY_CAP && count <= |rest| && body[5..idx] == EncodeAll(rest, count)
      modifies this`pos, body
      ensures n <= BODY_CAP && body[..n] == BodyX(rest, count, eof, old(pos)) && pos == (old(pos) + count) % 0x1_0000
    {
      if count == 0 {
        body[0] := ST_EOF;
        return 1;
      }
      FillHeader(body, count, eof, pos, idx);
      pos := (pos + count) % 0x1_0000;
      n := idx;
    }

    /** The loop of h_readdirx, over the body from offset 5 on. */
    method FillEntries(ghost rest: seq<Entry>, wanted: nat, body: array<byte>) returns (idx: nat, count: nat, eof: bool)
      requires Valid() && body.Length == MSG_CAP && 0 < wanted < 0x100 && rest == Rest()
      modifies this`at, this`pending, this`left, body
      ensures Valid() && 5 <= idx <= BODY_CAP
      ensures count == Batch(rest, wanted) && left == old(left) + count
      ensures body[5..idx] == EncodeAll(rest, count)
      ensures eof <==> count == |rest| && count < wanted
    {
      ghost var (from, hdr) := (left, body[..5]);
      idx, count, eof := 5, 0, false;
      while count < wanted
        invariant count <= |rest| && count <= wanted && idx == 5 + SizeAll(rest, count) <= BODY_CAP
        invariant Valid() && left == from + count && !eof
        invariant body[..idx] == hdr + EncodeAll(rest, count)
      {
        var r := Next();
        if r.None? {
          eof := true;
          break;
        }
        var e := r.value;
        assert e == rest[count];
        if idx + FIXED + |e.name| + 1 > BODY_CAP {
          Stash(e);
          break;
        }
        EncodedOneMore(hdr, rest, count);
        idx := Append(body, idx, Encode(e));
        count := count + 1;
      }
      BatchEndsHere(rest, wanted, count);
    }

    method FillHeader(body: array<byte>, count: byte, eof: bool, at: u16, n: nat)
      requires body.Length == MSG_CAP && 5 <= n <= BODY_CAP
      modifies body
      ensures body[..n] == HeadX(count, eof, at) + old(body[5..n])
    {
      var w := Wr16(at);
      ghost var rest := body[5..n];
      body[0], body[1], body[2], body[3], body[4] := ST_OK, count, if eof then DIRSTATUS_EOF else 0, w[0], w[1];
      assert body[5..n] == rest && body[..n] == body[..5] + body[5..n];
    }
  }

  /** The batch ends where its entries are all that are wanted, all there are, or all that
      fit. */
  lemma BatchEndsHere(rest: seq<Entry>, wanted: nat, count: nat)
    requires count <= |rest| && count <= wanted && 5 + SizeAll(rest, count) <= BODY_CAP
    requires count == wanted || count == |rest| || 5 + SizeAll(rest, count) + Size(rest[count]) > BODY_CAP
    ensures count == Batch(rest, wanted)
  {
    BatchGetsTo(rest, wanted, count);
  }

  lemma {:induction false} BatchGetsTo(rest: seq<Entry>, wanted: nat, count: nat)
    requires count <= |rest| && count <= wanted && 5 + SizeAll(rest, count) <= BODY_CAP
    ensures BatchFrom(rest, wanted, count) == Batch(rest, wanted)
  {
    if count > 0 {
      BatchGetsTo(rest, wanted, count - 1);
    }
  }

  lemma EncodedOneMore(hdr: seq<byte>, all: seq<Entry>, count: nat)
    requires count < |all|
    ensures hdr + EncodeAll(all, count + 1) == hdr + EncodeAll(all, count) + Encode(all[count])
  {}

  method Append(body: array<byte>, at: nat, data: seq<byte>) returns (n: nat)
    requires at + |data| <= body.Length
    modifies body
    ensures n == at + |data| && body[..n] == old(body[..at]) + data
  {
    for i := 0 to |data|
      invariant body[..at + i] == old(body[..at]) + data[..i]
    {
      body[at + i] := data[i];
      assert body[..at + i + 1] == body[..at + i] + [data[i]];
    }
    n := at + |data|;
  }

  lemma StarFree(e: Entry)
    ensures Wildcard.CString(e.name) && '*' !in e.name
  {}
}
