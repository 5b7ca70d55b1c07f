/** Names on the SD card: which names are accepted, the canonical path that identifies a
    file, and the test whether a change touches a mounted image (src/disk/sd.c,
    src/disk/disk.c). */
module SdPath {
  import opened Bytes
  import Wildcard

  const FPATH_CAP := 300
  const MOUNT_POINT := "/sd"

  // ---- the card ----

  /** A folder tree. Every entry has a short name next to the long one; the entry may be
      asked for under either, in any case. */
  datatype Node = File(image: nat) | Dir(kids: seq<Kid>)
  datatype Kid = Kid(short: string, long: string, node: Node)

  function Fold(s: string): (r: string)
    ensures |r| == |s|
    ensures '/' in r <==> '/' in s
  {
    var r := seq(|s|, i requires 0 <= i < |s| => Wildcard.Lower(s[i]));
    assert forall i :: 0 <= i < |s| ==> (r[i] == '/' <==> s[i] == '/');
    r
  }

  predicate Answers(k: Kid, name: string) { Fold(k.short) == Fold(name) || Fold(k.long) == Fold(name) }

  /** A name that can stand between slashes. */
  predicate Clean(c: string) { c != "" && c != "." && c != ".." && '/' !in c && '\0' !in c }

  predicate AllClean(cs: seq<string>) { forall i :: 0 <= i < |cs| ==> Clean(cs[i]) }

  /** Short names are proper names, and no name fits two entries of a folder. */
  ghost predicate Good(n: Node) {
    n.Dir? ==>
      && (forall i :: 0 <= i < |n.kids| ==> Clean(n.kids[i].short) && Good(n.kids[i].node))
      && (forall i, j, name :: 0 <= i < j < |n.kids| && Answers(n.kids[i], name) ==> !Answers(n.kids[j], name))
  }

  function FindKid(kids: seq<Kid>, name: string): (r: Option<nat>)
    ensures r.Some? ==> r.value < |kids| && Answers(kids[r.value], name)
    ensures r.None? ==> forall i :: 0 <= i < |kids| ==> !Answers(kids[i], name)
  {
    if kids == [] then None
    else if Answers(kids[0], name) then Some(0)
    else match FindKid(kids[1..], name) case None => None case Some(i) => Some(i + 1)
  }

  /** A place in the tree: the entry to take at each level. It is what a file *is*, whatever
      it may be called. */
  type Place = seq<nat>

  predicate Exists(n: Node, at: Place) {
    at == [] || (n.Dir? && at[0] < |n.kids| && Exists(n.kids[at[0]].node, at[1..]))
  }

  function NodeAt(n: Node, at: Place): Node
    requires Exists(n, at)
  {
    if at == [] then n else NodeAt(n.kids[at[0]].node, at[1..])
  }

  function ShortNames(n: Node, at: Place): (r: seq<string>)
    requires Exists(n, at)
    ensures |r| == |at|
  {
    if at == [] then [] else [n.kids[at[0]].short] + ShortNames(n.kids[at[0]].node, at[1..])
  }

  /** FatFs looking a chain of names up, from the root down. */
  function Find(n: Node, names: seq<string>): (r: Option<Place>)
    ensures r.Some? ==> Exists(n, r.value) && |r.value| == |names|
  {
    if names == [] then Some([])
    else if n.File? then None
    else
      match FindKid(n.kids, names[0])
      case None => None
      case Some(i) =>
        match Find(n.kids[i].node, names[1..])
        case None => None
        case Some(at) =>
          var r := [i] + at;
          assert r[1..] == at;
          Some(r)
  }

  // ---- text ----

  function SegLen(s: string): (n: nat)
    ensures n <= |s| && '/' !in s[..n] && (n < |s| ==> s[n] == '/')
  {
    if s == "" || s[0] == '/' then 0
    else
      var n := SegLen(s[1..]);
      assert s[..n + 1] == [s[0]] + s[1..][..n];
      n + 1
  }

  function Split(s: string): (r: seq<string>)
    ensures r != []
    decreases |s|
  {
    var n := SegLen(s);
    if n == |s| then [s] else [s[..n]] + Split(s[n + 1..])
  }

  /** "/a/b/c" */
  function PathText(cs: seq<string>): string {
    if cs == [] then "" else "/" + cs[0] + PathText(cs[1..])
  }

  /** "a/b/c" */
  function Join(cs: seq<string>): string {
    if cs == [] then "" else cs[0] + PathText(cs[1..])
  }

  lemma {:induction false} SegLenIs(c: string, tail: string)
    requires '/' !in c && (tail == "" || tail[0] == '/')
    ensures SegLen(c + tail) == |c|
  {
    if c == "" {
      assert c + tail == tail;
    } else {
      assert c[0] in c && (c + tail)[1..] == c[1..] + tail;
      SegLenIs(c[1..], tail);
    }
  }

  lemma SplitOne(c: string)
    requires '/' !in c
    ensures Split(c) == [c]
  {}

  lemma SplitFirst(c: string, rest: string)
    requires '/' !in c
    ensures Split(c + ("/" + rest)) == [c] + Split(rest)
  {
    var s := c + ("/" + rest);
    SegLenIs(c, "/" + rest);
    assert s[..|c|] == c && s[|c| + 1..] == rest;
  }

  /** Splitting joined components gives them back, with more text behind them or not. */
  lemma {:induction false} SplitJoin(cs: seq<string>)
    requires cs != [] && forall i :: 0 <= i < |cs| ==> '/' !in cs[i]
    ensures Split(Join(cs)) == cs
  {
    if |cs| == 1 {
      assert Join(cs) == cs[0];
      SplitOne(cs[0]);
    } else {
      SplitJoin(cs[1..]);
      JoinIsPathText(cs[1..]);
      SplitFirst(cs[0], Join(cs[1..]));
    }
  }

  lemma {:induction false} SplitJoinMore(cs: seq<string>, more: string)
    requires cs != [] && forall i :: 0 <= i < |cs| ==> '/' !in cs[i]
    ensures Split(Join(cs) + ("/" + more)) == cs + Split(more)
  {
    if |cs| == 1 {
      assert Join(cs) == cs[0];
      SplitFirst(cs[0], more);
    } else {
      SplitJoinMore(cs[1..], more);
      JoinMore(cs, more);
      SplitFirst(cs[0], Join(cs[1..]) + ("/" + more));
      HeadTail(cs, Split(more));
    }
  }

  lemma HeadTail(cs: seq<string>, more: seq<string>)
    requires cs != []
    ensures [cs[0]] + (cs[1..] + more) == cs + more
  {}

  lemma JoinMore(cs: seq<string>, more: string)
    requires |cs| > 1
    ensures Join(cs) + ("/" + more) == cs[0] + ("/" + (Join(cs[1..]) + ("/" + more)))
  {}

  lemma {:induction false} PathTextSnoc(cs: seq<string>, c: string)
    ensures PathText(cs + [c]) == PathText(cs) + "/" + c
  {
    if cs != [] {
      assert (cs + [c])[1..] == cs[1..] + [c];
      PathTextSnoc(cs[1..], c);
    } else {
      assert PathText([c]) == "/" + c + "";
    }
  }

  lemma JoinIsPathText(cs: seq<string>)
    ensures cs != [] ==> PathText(cs) == "/" + Join(cs)
  {}

  lemma JoinSnoc(cs: seq<string>, c: string)
    ensures Join(cs + [c]) == if cs == [] then c else Join(cs) + "/" + c
  {
    if cs != [] {
      assert (cs + [c])[1..] == cs[1..] + [c];
      PathTextSnoc(cs[1..], c);
    }
  }

  // ---- what sd_canonical computes ----

  /** One component of the path, given the canonical components so far: what it makes of
      them, or None when there is no such file or a buffer is too small. */
  function Step(root: Node, hlen: nat, cap: nat, acc: seq<string>, seg: string): (r: Option<seq<string>>) {
    if seg == "" || seg == "." then Some(acc)
    else if seg == ".." then Some(if acc == [] then [] else acc[..|acc| - 1])
    else if hlen + |PathText(acc)| + 1 + |seg| >= FPATH_CAP then None
    else
      match Find(root, acc + [seg])
      case None => None
      case Some(at) =>
        var name := ShortNames(root, at)[|acc|];
        if hlen + |PathText(acc)| + 1 + |name| >= FPATH_CAP || |Join(acc + [name])| >= cap then None
        else Some(acc + [name])
  }

  /** The canonical components, as a fold over the path's components. */
  function Canon(root: Node, hlen: nat, cap: nat, acc: seq<string>, segs: seq<string>): (r: Option<seq<string>>)
    decreases |segs|
  {
    if segs == [] then Some(acc)
    else
      match Step(root, hlen, cap, acc, segs[0])
      case None => None
      case Some(acc') => Canon(root, hlen, cap, acc', segs[1..])
  }

  /** sd_canonical as a function of its arguments. */
  function Canonical(root: Node, hlen: nat, cap: nat, abs: string): (r: Option<seq<string>>) {
    if MOUNT_POINT <= abs && (|abs| == |MOUNT_POINT| || abs[|MOUNT_POINT|] == '/')
    then Canon(root, hlen, cap, [], Split(abs[|MOUNT_POINT|..]))
    else None
  }
}
