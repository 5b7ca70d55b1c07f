/** The loops of src/disk/sd.c over their buffers, against the functions of SdPath. */
module SdCanonical {
  import opened Bytes
  import opened SdPath
  import opened SdIdentity

  // ---- cutting the path into components ----

  lemma CanonSkipsSlash(root: Node, hlen: nat, cap: nat, acc: seq<string>, abs: string, p: nat)
    requires p < |abs| && abs[p] == '/'
    ensures Canon(root, hlen, cap, acc, Split(abs[p..])) == Canon(root, hlen, cap, acc, Split(abs[p + 1..]))
  {}

  lemma CanonAtEnd(root: Node, hlen: nat, cap: nat, acc: seq<string>)
    ensures Canon(root, hlen, cap, acc, Split("")) == Some(acc)
  {}

  lemma {:induction false} CanonSkipsSlashes(root: Node, hlen: nat, cap: nat, acc: seq<string>, abs: string, from: nat, p: nat)
    requires from <= p <= |abs| && forall k :: from <= k < p ==> abs[k] == '/'
    ensures Canon(root, hlen, cap, acc, Split(abs[p..])) == Canon(root, hlen, cap, acc, Split(abs[from..]))
    decreases p - from
  {
    if from < p {
      CanonSkipsSlash(root, hlen, cap, acc, abs, from);
      CanonSkipsSlashes(root, hlen, cap, acc, abs, from + 1, p);
    }
  }

  /** One round of the loop takes one step of the fold. */
  lemma CanonTakesSegment(root: Node, hlen: nat, cap: nat, acc: seq<string>, abs: string, seg: nat, p: nat)
    requires seg <= p <= |abs| && '/' !in abs[seg..p] && (p < |abs| ==> abs[p] == '/')
    ensures Canon(root, hlen, cap, acc, Split(abs[seg..])) ==
            match Step(root, hlen, cap, acc, abs[seg..p])
            case None => None
            case Some(acc') => Canon(root, hlen, cap, acc', Split(abs[p..]))
  {
    var c := abs[seg..p];
    var next := Step(root, hlen, cap, acc, c);
    if p < |abs| {
      assert abs[seg..] == c + ("/" + abs[p + 1..]);
      SplitFirst(c, abs[p + 1..]);
      assert ([c] + Split(abs[p + 1..]))[1..] == Split(abs[p + 1..]);
      if next.Some? {
        CanonSkipsSlash(root, hlen, cap, next.value, abs, p);
      }
    } else {
      assert abs[seg..] == c && abs[p..] == "";
      SplitOne(c);
      assert [c][1..] == [];
      if next.Some? {
        CanonAtEnd(root, hlen, cap, next.value);
      }
    }
  }

  // ---- text in buffers ----

  /** A buffer holds the C string s. */
  predicate Holds(mem: seq<char>, s: string) { |s| < |mem| && mem[..|s|] == s && mem[|s|] == '\0' }

  /** memcpy of a string with its NUL. */
  method CopyIn(buf: array<char>, at: nat, s: string)
    requires at + |s| < buf.Length
    modifies buf
    ensures Holds(buf[..], old(buf[..at]) + s)
  {
    for i := 0 to |s|
      invariant buf[..at] == old(buf[..at]) && buf[at..at + i] == s[..i]
    {
      buf[at + i] := s[i];
      assert buf[at..at + i + 1] == buf[at..at + i] + [s[i]];
    }
    buf[at + |s|] := '\0';
    assert buf[..][..at + |s|] == buf[..at] + buf[at..at + |s|];
  }

  /** Where the last slash of a string stands, or -1. */
  function LastSlash(s: string): (i: int)
    ensures -1 <= i < |s|
  {
    if s == "" then -1
    else if s[|s| - 1] == '/' then |s| - 1
    else LastSlash(s[..|s| - 1])
  }

  lemma {:induction false} LastSlashOf(pre: string, c: string)
    requires '/' !in c
    ensures LastSlash(pre + "/" + c) == |pre|
  {
    var s := pre + "/" + c;
    if c == "" {
      assert s[|s| - 1] == '/';
    } else {
      var c' := c[..|c| - 1];
      assert s[|s| - 1] == c[|c| - 1] && c[|c| - 1] in c;
      assert s[..|s| - 1] == pre + "/" + c';
      LastSlashOf(pre, c');
    }
  }

  lemma {:induction false} NoSlash(c: string)
    requires '/' !in c
    ensures LastSlash(c) == -1
  {
    if c != "" {
      assert c[|c| - 1] in c;
      NoSlash(c[..|c| - 1]);
    }
  }

  /** strrchr for the last slash, and the NUL put there; without a slash, at `floor`. */
  method CutAtLastSlash(buf: array<char>, n: nat, floor: nat, ghost s: string) returns (m: nat)
    requires Holds(buf[..], s) && n == |s| && floor <= n
    modifies buf
    ensures m == (if LastSlash(s) >= 0 then LastSlash(s) else floor)
    ensures m <= |s| && Holds(buf[..], s[..m])
  {
    var i: int := n - 1;
    assert s[..n] == s && buf[..n] == s;
    while i >= 0 && buf[i] != '/'
      invariant -1 <= i < n && LastSlash(s[..i + 1]) == LastSlash(s)
    {
      assert buf[i] == s[i] == s[..i + 1][i] && s[..i + 1][..i] == s[..i];
      i := i - 1;
    }
    assert i >= 0 ==> buf[i] == s[i] == s[..i + 1][i];
    m := if i >= 0 then i else floor;
    buf[m] := '\0';
    assert buf[..m] == s[..m];
  }

  /** The two buffers hold the same canonical components, each in its own form. */
  ghost predicate InStep(out: seq<char>, fpath: seq<char>, prefix: string, acc: seq<string>) {
    && AllClean(acc) && Holds(out, Join(acc)) && Holds(fpath, prefix + PathText(acc))
  }

  function Up(acc: seq<string>): seq<string> { if acc == [] then [] else acc[..|acc| - 1] }

  /** Cut at its last slash, each string has lost exactly the last component. */
  lemma CutJoin(acc: seq<string>)
    requires AllClean(acc)
    ensures var s := Join(acc); s[..if LastSlash(s) >= 0 then LastSlash(s) else 0] == Join(Up(acc))
  {
    if acc != [] {
      var c := acc[|acc| - 1];
      assert acc == Up(acc) + [c];
      JoinSnoc(Up(acc), c);
      if |acc| == 1 {
        NoSlash(c);
      } else {
        LastSlashOf(Join(Up(acc)), c);
      }
    }
  }

  lemma CutPathText(prefix: string, acc: seq<string>)
    requires AllClean(acc) && '/' !in prefix
    ensures var s := prefix + PathText(acc);
            s[..if LastSlash(s) >= 0 then LastSlash(s) else |prefix|] == prefix + PathText(Up(acc))
  {
    if acc != [] {
      var c := acc[|acc| - 1];
      assert acc == Up(acc) + [c];
      PathTextSnoc(Up(acc), c);
      assert prefix + PathText(acc) == prefix + PathText(Up(acc)) + "/" + c;
      LastSlashOf(prefix + PathText(Up(acc)), c);
    } else {
      NoSlash(prefix);
      assert prefix + "" == prefix;
    }
  }

  // ---- sd_canonical ----

  /** f_stat on "N:/a/b": the short name of what it finds. */
  function Stat(root: Node, text: string): (r: Option<string>)
    requires text != ""
  {
    var names := Split(text[1..]);
    match Find(root, names)
    case None => None
    case Some(at) => Some(ShortNames(root, at)[|names| - 1])
  }

  lemma StatLooksUp(root: Node, acc: seq<string>, seg: string)
    requires Good(root) && AllClean(acc) && '/' !in seg && seg != ""
    ensures var text := PathText(acc) + "/" + seg;
            Stat(root, text) == match Find(root, acc + [seg]) case None => None
                                case Some(at) => Some(ShortNames(root, at)[|acc|])
    ensures match Find(root, acc + [seg]) case None => true case Some(at) => Clean(ShortNames(root, at)[|acc|])
  {
    if Find(root, acc + [seg]).Some? {
      ShortNamesClean(root, Find(root, acc + [seg]).value);
    }
    PathTextSnoc(acc, seg);
    JoinIsPathText(acc + [seg]);
    SplitJoin(acc + [seg]);
  }

  /** sd_canonical: the short names of the folders and the file on the way, joined, for a
      path whose components all exist and fit; -1 and an empty buffer otherwise. */
  method Canonicalize(root: Node, mounted: bool, memory: bool, prefix: string, abs: string, out: array<char>) returns (r: int)
    requires Good(root) && '/' !in prefix && |prefix| <= 4
    modifies out
    ensures var c := Canonical(root, |prefix|, out.Length, abs);
            if mounted && memory && out.Length > 0 && c.Some?
            then r == |Join(c.value)| && Holds(out[..], Join(c.value))
            else r == -1
    ensures r == -1 && mounted && memory && out.Length > 0 && UnderMountPoint(abs) ==> out[0] == '\0'
  {
    if !mounted || out.Length == 0 || !UnderMountPoint(abs) || !memory {
      return -1;
    }
    var fpath := new char[FPATH_CAP];
    ghost var acc: seq<string> := [];
    var olen: nat, flen: nat := 0, |prefix|;
    CopyIn(out, 0, "");
    CopyIn(fpath, 0, prefix);
    var p: nat := |MOUNT_POINT|;
    var failed := false;
    while p < |abs| && !failed
      invariant p <= |abs| && fresh(fpath) && fpath.Length == FPATH_CAP
      invariant olen == |Join(acc)| && flen == |prefix + PathText(acc)|
      invariant !failed ==> InStep(out[..], fpath[..], prefix, acc)
      invariant Canonical(root, |prefix|, out.Length, abs) ==
                if failed then None else Canon(root, |prefix|, out.Length, acc, Split(abs[p..]))
      decreases !failed, |abs| - p
    {
      ghost var from := p;
      p := SkipSlashes(abs, p);
      CanonSkipsSlashes(root, |prefix|, out.Length, acc, abs, from, p);
      var seg := p;
      p := SkipSegment(abs, p);
      CanonTakesSegment(root, |prefix|, out.Length, acc, abs, seg, p);
      var name := abs[seg..p];
      if name == "" || name == "." {
        continue;
      }
      if name == ".." {
        olen, flen := Pop(out, fpath, olen, flen, prefix, acc);
        acc := Up(acc);
        continue;
      }
      var pushed;
      pushed, olen, flen, acc := Push(root, out, fpath, olen, flen, prefix, acc, name);
      failed := !pushed;
    }
    if failed {
      out[0] := '\0';
      return -1;
    }
    CanonAtEnd(root, |prefix|, out.Length, acc);
    r := olen;
  }

  predicate UnderMountPoint(abs: string) {
    MOUNT_POINT <= abs && (|abs| == |MOUNT_POINT| || abs[|MOUNT_POINT|] == '/')
  }

  method SkipSlashes(abs: string, from: nat) returns (p: nat)
    requires from <= |abs|
    ensures from <= p <= |abs| && (p < |abs| ==> abs[p] != '/')
    ensures forall k :: from <= k < p ==> abs[k] == '/'
  {
    p := from;
    while p < |abs| && abs[p] == '/'
      invariant from <= p <= |abs| && forall k :: from <= k < p ==> abs[k] == '/'
    {
      p := p + 1;
    }
  }

  method SkipSegment(abs: string, from: nat) returns (p: nat)
    requires from <= |abs|
    ensures from <= p <= |abs| && '/' !in abs[from..p] && (p < |abs| ==> abs[p] == '/')
    ensures from < |abs| && abs[from] != '/' ==> from < p
  {
    p := from;
    while p < |abs| && abs[p] != '/'
      invariant from <= p <= |abs| && '/' !in abs[from..p]
    {
      assert abs[from..p + 1] == abs[from..p] + [abs[p]];
      p := p + 1;
    }
  }

  /** ".." takes both strings up one level, and leaves the root where it is. */
  method Pop(out: array<char>, fpath: array<char>, olen: nat, flen: nat, prefix: string, ghost acc: seq<string>)
      returns (olen': nat, flen': nat)
    requires out != fpath && '/' !in prefix && InStep(out[..], fpath[..], prefix, acc)
    requires olen == |Join(acc)| && flen == |prefix + PathText(acc)|
    modifies out, fpath
    ensures InStep(out[..], fpath[..], prefix, Up(acc))
    ensures olen' == |Join(Up(acc))| && flen' == |prefix + PathText(Up(acc))|
  {
    CutJoin(acc);
    CutPathText(prefix, acc);
    olen' := CutAtLastSlash(out, olen, 0, Join(acc));
    flen' := CutAtLastSlash(fpath, flen, |prefix|, prefix + PathText(acc));
  }

  /** The short name of a component of the folder reached, or None. */
  function ShortNameOf(root: Node, acc: seq<string>, name: string): (r: Option<string>) {
    match Find(root, acc + [name]) case None => None case Some(at) => Some(ShortNames(root, at)[|acc|])
  }

  lemma StepByShortName(root: Node, hlen: nat, cap: nat, acc: seq<string>, name: string)
    requires name != "" && name != "." && name != ".."
    ensures Step(root, hlen, cap, acc, name) ==
            var nm := ShortNameOf(root, acc, name);
            if hlen + |PathText(acc)| + 1 + |name| >= FPATH_CAP || nm.None? then None
            else if hlen + |PathText(acc)| + 1 + |nm.value| >= FPATH_CAP || |Join(acc + [nm.value])| >= cap then None
            else Some(acc + [nm.value])
  {}

  /** The component as typed goes behind the path in fpath, and the card is asked for it. */
  method Lookup(root: Node, fpath: array<char>, flen: nat, prefix: string, ghost acc: seq<string>, name: string)
      returns (nm: Option<string>)
    requires Good(root) && AllClean(acc) && name != "" && '/' !in name
    requires Holds(fpath[..], prefix + PathText(acc)) && flen == |prefix + PathText(acc)|
    requires flen + 1 + |name| < fpath.Length
    modifies fpath
    ensures fpath[..flen + 1] == prefix + PathText(acc) + "/"
    ensures nm == ShortNameOf(root, acc, name) && (nm.Some? ==> Clean(nm.value))
  {
    ghost var was := prefix + PathText(acc);
    assert fpath[..flen] == was;
    CopyIn(fpath, flen, "/" + name);
    TextParts(prefix, PathText(acc), name);
    assert fpath[..flen + 1] == fpath[..][..flen + 1 + |name|][..flen + 1];
    assert fpath[|prefix|..flen + 1 + |name|] == fpath[..][..flen + 1 + |name|][|prefix|..];
    nm := Stat(root, fpath[|prefix|..flen + 1 + |name|]);
    StatLooksUp(root, acc, name);
  }

  lemma TextParts(pre: string, body: string, name: string)
    ensures var text := pre + body + ("/" + name);
            text[|pre|..] == body + "/" + name && text[..|pre + body| + 1] == pre + body + "/"
  {}

  /** A component that exists and fits is appended to both strings under its short name. */
  method Push(root: Node, out: array<char>, fpath: array<char>, olen: nat, flen: nat, prefix: string,
              ghost acc: seq<string>, name: string) returns (ok: bool, olen': nat, flen': nat, ghost acc': seq<string>)
    requires Good(root) && out != fpath && fpath.Length == FPATH_CAP && InStep(out[..], fpath[..], prefix, acc)
    requires olen == |Join(acc)| && flen == |prefix + PathText(acc)|
    requires name != "" && name != "." && name != ".." && '/' !in name
    modifies out, fpath
    ensures Step(root, |prefix|, out.Length, acc, name) == if ok then Some(acc') else None
    ensures olen' == |Join(acc')| && flen' == |prefix + PathText(acc')|
    ensures ok ==> InStep(out[..], fpath[..], prefix, acc')
  {
    ok, olen', flen', acc' := false, olen, flen, acc;
    StepByShortName(root, |prefix|, out.Length, acc, name);
    if flen + 1 + |name| >= fpath.Length {
      return;
    }
    var found := Lookup(root, fpath, flen, prefix, acc, name);
    if found.None? {
      return;
    }
    var nm := found.value;
    AppendedLen(prefix, acc, nm);
    if flen + 1 + |nm| >= fpath.Length || olen + (if olen > 0 then 1 else 0) + |nm| >= out.Length {
      return;
    }
    CopyIn(fpath, flen + 1, nm);
    acc' := acc + [nm];
    olen' := AppendShort(out, olen, acc, nm);
    ok, flen' := true, flen + 1 + |nm|;
  }

  method AppendShort(out: array<char>, olen: nat, ghost acc: seq<string>, nm: string) returns (olen': nat)
    requires AllClean(acc) && Clean(nm) && Holds(out[..], Join(acc)) && olen == |Join(acc)|
    requires olen + (if olen > 0 then 1 else 0) + |nm| < out.Length
    modifies out
    ensures Holds(out[..], Join(acc + [nm])) && olen' == |Join(acc + [nm])|
  {
    var o := olen;
    assert out[..olen] == Join(acc);
    if o > 0 {
      out[o] := '/';
      o := o + 1;
      assert out[..o] == Join(acc) + "/";
    }
    JoinSnoc(acc, nm);
    assert acc == [] ==> Join(acc) + nm == nm;
    CopyIn(out, o, nm);
    olen' := o + |nm|;
  }

  lemma AppendedLen(prefix: string, acc: seq<string>, name: string)
    requires AllClean(acc)
    ensures prefix + PathText(acc) + "/" + name == prefix + PathText(acc + [name])
    ensures |Join(acc + [name])| == |Join(acc)| + (if |Join(acc)| > 0 then 1 else 0) + |name|
  {
    PathTextSnoc(acc, name);
    JoinSnoc(acc, name);
  }

  // ---- sd_path ----

  /** Components that sd_path lets through: none is ".." and none but the last is empty. */
  predicate SegsOk(segs: seq<string>) {
    segs == [] || (segs[0] != ".." && (segs[0] == "" ==> |segs| == 1) && SegsOk(segs[1..]))
  }

  predicate Accepted(name: string) {
    name != "" && '\\' !in name && name[0] != '/' && SegsOk(Split(name))
  }

  predicate RestOk(name: string, p: nat)
    requires p <= |name|
  {
    p == |name| || SegsOk(Split(name[p..]))
  }

  lemma SegsOkFrom(name: string, seg: nat, p: nat)
    requires seg <= p <= |name| && seg < |name| && '/' !in name[seg..p] && (p < |name| ==> name[p] == '/')
    ensures SegsOk(Split(name[seg..])) <==>
            name[seg..p] != ".." && name[seg..p] != "" && RestOk(name, if p < |name| then p + 1 else p)
  {
    var c := name[seg..p];
    if p < |name| {
      var rest := name[p + 1..];
      assert name[seg..] == c + ("/" + rest);
      SplitFirst(c, rest);
      assert ([c] + Split(rest))[1..] == Split(rest);
      if rest == "" {
        SplitOne("");
        assert [""][1..] == [] && SegsOk([""]);
      }
    } else {
      assert name[seg..] == c;
      SplitOne(c);
      assert [c][1..] == [];
    }
  }

  /** sd_path: the accepted names, put under the mount point; a trailing slash gets by. */
  method PathOnCard(name: string, cap: nat) returns (r: Option<string>)
    ensures r == if Accepted(name) && |MOUNT_POINT| + 1 + |name| < cap then Some(MOUNT_POINT + "/" + name) else None
  {
    if name == "" || '\\' in name || name[0] == '/' {
      return None;
    }
    var p: nat := 0;
    assert name[0..] == name;
    while p < |name|
      invariant p <= |name| && Accepted(name) == RestOk(name, p)
    {
      var seg := p;
      p := SkipSegment(name, p);
      SegsOkFrom(name, seg, p);
      if p == seg || name[seg..p] == ".." {
        return None;
      }
      if p < |name| {
        p := p + 1;
      }
    }
    if |MOUNT_POINT| + 1 + |name| >= cap {
      return None;
    }
    r := Some(MOUNT_POINT + "/" + name);
  }

  predicate Proper(cs: seq<string>) { forall i :: 0 <= i < |cs| ==> cs[i] != "" && cs[i] != ".." }

  lemma {:induction false} SegsOkIffProper(cs: seq<string>)
    requires cs != []
    ensures SegsOk(cs) <==> Proper(cs[..|cs| - 1]) && cs[|cs| - 1] != ".."
  {
    if |cs| > 1 {
      SegsOkIffProper(cs[1..]);
      assert cs[..|cs| - 1] == [cs[0]] + cs[1..][..|cs| - 2];
    }
  }

  function NameOf(cs: seq<string>, slash: bool): string { Join(cs) + (if slash then "/" else "") }

  lemma NameSplits(cs: seq<string>, slash: bool)
    requires cs != [] && forall i :: 0 <= i < |cs| ==> '/' !in cs[i]
    ensures Split(NameOf(cs, slash)) == if slash then cs + [""] else cs
  {
    if slash {
      SplitJoinMore(cs, "");
      SplitOne("");
      assert Join(cs) + ("/" + "") == NameOf(cs, slash);
    } else {
      SplitJoin(cs);
      assert NameOf(cs, slash) == Join(cs);
    }
  }

  lemma NameSegsOk(cs: seq<string>, slash: bool)
    requires cs != [] && (slash || cs[|cs| - 1] != "")
    ensures SegsOk(if slash then cs + [""] else cs) <==> Proper(cs)
  {
    if slash {
      SegsOkIffProper(cs + [""]);
      assert (cs + [""])[..|cs|] == cs;
    } else {
      SegsOkIffProper(cs);
      assert cs == cs[..|cs| - 1] + [cs[|cs| - 1]];
    }
  }

  lemma NameStart(cs: seq<string>, slash: bool)
    requires cs != [] && '/' !in cs[0] && cs[0] != ""
    ensures NameOf(cs, slash) != "" && NameOf(cs, slash)[0] != '/'
  {
    FirstChar(cs);
  }

  /** A name of components between slashes, with or without a slash at its end, is accepted
      exactly if it has no backslash and no component is empty or "..". */
  lemma AcceptedIffProper(cs: seq<string>, slash: bool)
    requires cs != [] && (forall i :: 0 <= i < |cs| ==> '/' !in cs[i]) && (slash || cs[|cs| - 1] != "")
    ensures Accepted(NameOf(cs, slash)) <==> '\\' !in NameOf(cs, slash) && Proper(cs)
  {
    NameSplits(cs, slash);
    NameSegsOk(cs, slash);
    if Proper(cs) {
      NameStart(cs, slash);
    }
  }

  lemma FirstChar(cs: seq<string>)
    requires cs != [] && '/' !in cs[0]
    ensures cs[0] != "" ==> Join(cs) != "" && Join(cs)[0] != '/'
  {}

  /** An accepted name never leads out of the folder it starts from. */
  lemma {:induction false} AcceptedStaysInside(root: Node, at: Place, segs: seq<string>)
    requires Exists(root, at) && SegsOk(segs)
    ensures Walk(root, at, segs).Some? ==> at <= Walk(root, at, segs).value
    decreases |segs|
  {
    if segs != [] {
      WalkOne(root, at, segs);
      var n := NodeAt(root, at);
      assert [segs[0]][1..] == [];
      if n.Dir? && FindKid(n.kids, segs[0]).Some? {
        ChildExists(root, at, FindKid(n.kids, segs[0]).value);
      }
      if Walk(root, at, [segs[0]]).Some? {
        AcceptedStaysInside(root, Walk(root, at, [segs[0]]).value, segs[1..]);
      }
    }
  }
}
