/** The client's extended listing against the server's directory slot (src/net/tnfs.c,
    src/net/tnfs_server.c). */
module TnfsList {
  import opened Bytes
  import opened TnfsProto
  import opened TnfsDir
  import opened TnfsFraming

  type Item = (string, bool)   // a name, and whether it is a folder

  /** memchr for the NUL of a name. */
  method PastName(s: seq<byte>, p: nat) returns (r: Option<nat>)
    requires |s| <= MSG_CAP
    ensures r == NameEnd(s, p)
  {
    var q := p;
    while q < |s|
      invariant p <= q && NameEnd(s, p) == NameEnd(s, q)
      decreases |s| - q
    {
      if s[q] == 0 {
        return Some(q + 1);
      }
      q := q + 1;
    }
    return None;
  }

  function Behind(items: seq<Item>, more: Option<seq<Item>>): Option<seq<Item>> {
    if more.None? then None else Some(items + more.value)
  }

  /** The loop over the entries of one reply. */
  method Entries(s: seq<byte>, from: nat, count: nat) returns (r: Option<seq<Item>>)
    requires from <= |s| <= MSG_CAP
    ensures r == Decode(s, from, count)
  {
    var p: nat := from;
    var items: seq<Item> := [];
    BehindNothing(Decode(s, from, count));
    for i := 0 to count
      invariant p <= |s| && Decode(s, from, count) == Behind(items, Decode(s, p, count - i))
    {
      if p + FIXED >= |s| {
        return None;
      }
      var q := PastName(s, p + FIXED);
      if q.None? {
        return None;
      }
      var name := Chars(s[p + FIXED..q.value - 1]);
      var item := if name != "" then [(name, s[p] % 2 == 1)] else [];
      BehindMore(items, item, Decode(s, q.value, count - i - 1));
      p, items := q.value, items + item;
    }
    assert Decode(s, p, 0) == Some([]) && items + [] == items;
    r := Some(items);
  }

  lemma BehindNothing(more: Option<seq<Item>>)
    ensures Behind([], more) == more
  {
    if more.Some? {
      assert [] + more.value == more.value;
    }
  }

  lemma BehindMore(items: seq<Item>, item: seq<Item>, more: Option<seq<Item>>)
    ensures Behind(items, Behind(item, more)) == Behind(items + item, more)
  {
    if more.Some? {
      Associates(items, item, more.value);
    }
  }

  /** A reply to a request for one entry, with entries left. */
  lemma OneEntry(hdr: seq<byte>, rest: seq<Entry>, pos: u16)
    requires |hdr| == STATUS_OFF && rest != []
    ensures var (k, s) := (Returned(rest, Readdirx(1)), hdr + BodyX(rest, 1, false, pos));
            && k == 1 && STATUS_OFF + 5 <= |s| <= MSG_CAP
            && s[STATUS_OFF] == ST_OK && s[STATUS_OFF + 1] == 1 && s[STATUS_OFF + 2] == 0
            && Decode(s, STATUS_OFF + 5, 1) == Some([(rest[0].name, rest[0].flags % 2 == 1)])
  {
    var k := Batch(rest, 1);
    EntriesDecodeBack(hdr, rest, k, false, pos);
    var s := hdr + BodyX(rest, 1, false, pos);
    assert s[STATUS_OFF..] == BodyX(rest, 1, false, pos) == HeadX(1, false, pos) + EncodeAll(rest, 1);
    assert Listed(rest, 1, 1) == [];
    assert Listed(rest, 0, 1) == [(rest[0].name, rest[0].flags % 2 == 1)];
  }

  lemma {:induction false} ListedFrom(rest: seq<Entry>, i: nat)
    requires 0 < i <= |rest|
    ensures Listed(rest[1..], i - 1, |rest| - 1) == Listed(rest, i, |rest|)
    decreases |rest| - i
  {
    if i < |rest| {
      ListedFrom(rest, i + 1);
    }
  }

  lemma ListedOneMore(rest: seq<Entry>, seen: seq<Item>)
    requires rest != []
    ensures seen + [(rest[0].name, rest[0].flags % 2 == 1)] + Listed(rest[1..], 0, |rest[1..]|)
         == seen + Listed(rest, 0, |rest|)
  {
    ListedFrom(rest, 1);
    Associates(seen, [(rest[0].name, rest[0].flags % 2 == 1)], Listed(rest, 1, |rest|));
  }

  /** tnfs_listx, with every command answered: one entry is asked for at a time, until the
      server says that it was the last or that there is none. The callback sees every visible
      entry once and in order, and the loop ends. */
  method ListExtended(slot: DirSlot, body: array<byte>, hdr: seq<byte>) returns (ok: bool, seen: seq<Item>, ghost asked: nat)
    requires slot.Valid() && body.Length == MSG_CAP && |hdr| == STATUS_OFF
    modifies slot`at, slot`pending, slot`left, slot`pos, body
    ensures slot.Valid() && slot.Rest() == []
    ensures ok && seen == Listed(old(slot.Rest()), 0, |old(slot.Rest())|)
    ensures asked == |old(slot.Rest())| + 1
  {
    seen, asked := [], 0;
    ghost var all := slot.Rest();
    while true
      invariant slot.Valid() && asked + |slot.Rest()| == |all|
      invariant seen + Listed(slot.Rest(), 0, |slot.Rest()|) == Listed(all, 0, |all|)
      decreases |slot.Rest()|
    {
      ghost var (rest, at) := (slot.Rest(), slot.pos);
      asked := asked + 1;
      var n := slot.ReadDirX(1, body);
      var resp := hdr + body[..n];
      if resp[STATUS_OFF] == ST_EOF {
        return true, seen, asked;
      }
      OneEntry(hdr, rest, at);
      if resp[STATUS_OFF] != ST_OK || |resp| < STATUS_OFF + 1 + 4 {
        return false, seen, asked;
      }
      var items := Entries(resp, STATUS_OFF + 5, resp[STATUS_OFF + 1]);
      if items.None? {
        return false, seen, asked;
      }
      ListedOneMore(rest, seen);
      seen := seen + items.value;
      if resp[STATUS_OFF + 2] % 2 == DIRSTATUS_EOF {
        return true, seen, asked;
      }
    }
  }
}
