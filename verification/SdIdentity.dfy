/** Canonical names identify files, and the guard's character test is ancestry. */
module SdIdentity {
  import opened Bytes
  import opened SdPath

  function Parent(root: Node, at: Place): (r: Place)
    requires Exists(root, at)
    ensures Exists(root, r)
  {
    if at == [] then []
    else
      ParentExists(root, at);
      at[..|at| - 1]
  }

  /** What a path means: the place reached from `at` by taking one component after the
      other. */
  function Walk(root: Node, at: Place, segs: seq<string>): (r: Option<Place>)
    requires Exists(root, at)
    ensures r.Some? ==> Exists(root, r.value)
    decreases |segs|
  {
    if segs == [] then Some(at)
    else if segs[0] == "" || segs[0] == "." then Walk(root, at, segs[1..])
    else if segs[0] == ".." then
      Walk(root, Parent(root, at), segs[1..])
    else if NodeAt(root, at).File? then None
    else
      match FindKid(NodeAt(root, at).kids, segs[0])
      case None => None
      case Some(i) =>
        ChildExists(root, at, i);
        Walk(root, at + [i], segs[1..])
  }

  lemma {:induction false} ParentExists(n: Node, at: Place)
    requires Exists(n, at) && at != []
    ensures Exists(n, at[..|at| - 1])
    ensures ShortNames(n, at[..|at| - 1]) == ShortNames(n, at)[..|at| - 1]
  {
    if |at| > 1 {
      ParentExists(n.kids[at[0]].node, at[1..]);
      assert at[..|at| - 1][1..] == at[1..][..|at| - 2];
    }
  }

  lemma {:induction false} ChildExists(n: Node, at: Place, i: nat)
    requires Exists(n, at) && NodeAt(n, at).Dir? && i < |NodeAt(n, at).kids|
    ensures Exists(n, at + [i])
    ensures ShortNames(n, at + [i]) == ShortNames(n, at) + [NodeAt(n, at).kids[i].short]
  {
    if at != [] {
      ChildExists(n.kids[at[0]].node, at[1..], i);
      assert (at + [i])[1..] == at[1..] + [i];
    } else {
      assert ([] + [i])[1..] == [];
    }
  }

  lemma {:induction false} ShortNamesClean(n: Node, at: Place)
    requires Good(n) && Exists(n, at)
    ensures AllClean(ShortNames(n, at))
  {
    if at != [] {
      ShortNamesClean(n.kids[at[0]].node, at[1..]);
    }
  }

  lemma FindsItself(kids: seq<Kid>, i: nat)
    requires Good(Dir(kids)) && i < |kids|
    ensures FindKid(kids, kids[i].short) == Some(i)
  {
    var d := Dir(kids);
    assert Answers(d.kids[i], kids[i].short);
    assert forall j :: 0 <= j < |d.kids| && j != i ==> !Answers(d.kids[j], kids[i].short);
  }

  /** Looking up canonical components and one more takes that one more step. */
  lemma {:induction false} FindSnoc(n: Node, at: Place, seg: string)
    requires Good(n) && Exists(n, at)
    ensures Find(n, ShortNames(n, at) + [seg]) ==
            (if NodeAt(n, at).File? || FindKid(NodeAt(n, at).kids, seg).None? then None
             else Some(at + [FindKid(NodeAt(n, at).kids, seg).value]))
  {
    var names := ShortNames(n, at) + [seg];
    if at == [] {
      assert names == [seg] && names[1..] == [];
      assert forall i: nat :: [i] + [] == [] + [i];
    } else {
      assert n == Dir(n.kids);
      FindsItself(n.kids, at[0]);
      var k := n.kids[at[0]];
      assert names[0] == k.short && names[1..] == ShortNames(k.node, at[1..]) + [seg];
      FindSnoc(k.node, at[1..], seg);
      assert forall i: nat :: [at[0]] + (at[1..] + [i]) == at + [i];
    }
  }

  /** When one step of the fold succeeds it has followed the step of the walk. */
  lemma StepFollows(root: Node, hlen: nat, cap: nat, at: Place, seg: string)
    requires Good(root) && Exists(root, at)
    ensures var s := Step(root, hlen, cap, ShortNames(root, at), seg);
            s.Some? ==> Walk(root, at, [seg]).Some? && s.value == ShortNames(root, Walk(root, at, [seg]).value)
  {
    if at != [] {
      ParentExists(root, at);
    }
    FindSnoc(root, at, seg);
    var n := NodeAt(root, at);
    if n.Dir? && FindKid(n.kids, seg).Some? {
      ChildExists(root, at, FindKid(n.kids, seg).value);
    }
  }

  lemma WalkOne(root: Node, at: Place, segs: seq<string>)
    requires Exists(root, at) && segs != []
    ensures Walk(root, at, segs) ==
            match Walk(root, at, [segs[0]]) case None => None case Some(to) => Walk(root, to, segs[1..])
  {}

  /** A canonical name that comes out is the short names of the place the path means. */
  lemma {:induction false} CanonNamesThePlace(root: Node, hlen: nat, cap: nat, at: Place, segs: seq<string>)
    requires Good(root) && Exists(root, at)
    ensures var c := Canon(root, hlen, cap, ShortNames(root, at), segs);
            c.Some? ==> Walk(root, at, segs).Some? && c.value == ShortNames(root, Walk(root, at, segs).value)
    decreases |segs|
  {
    if segs != [] {
      StepFollows(root, hlen, cap, at, segs[0]);
      WalkOne(root, at, segs);
      if Step(root, hlen, cap, ShortNames(root, at), segs[0]).Some? {
        CanonNamesThePlace(root, hlen, cap, Walk(root, at, [segs[0]]).value, segs[1..]);
      }
    }
  }

  /** Distinct places have distinct names, even without regard to case. */
  lemma {:induction false} NamesIdentify(n: Node, a: Place, b: Place)
    requires Good(n) && Exists(n, a) && Exists(n, b)
    requires |b| <= |a| && FoldAll(ShortNames(n, b)) == FoldAll(ShortNames(n, a))[..|b|]
    ensures b <= a
  {
    if b != [] {
      var (ka, kb) := (n.kids[a[0]], n.kids[b[0]]);
      assert FoldAll(ShortNames(n, b))[0] == FoldAll(ShortNames(n, a))[0];
      assert Answers(ka, ka.short) && Answers(kb, ka.short);
      assert a[0] == b[0];
      assert FoldAll(ShortNames(n, b))[1..] == FoldAll(ShortNames(ka.node, b[1..]));
      assert FoldAll(ShortNames(n, a))[..|b|][1..] == FoldAll(ShortNames(ka.node, a[1..]))[..|b| - 1];
      NamesIdentify(ka.node, a[1..], b[1..]);
    }
  }

  function FoldAll(cs: seq<string>): (r: seq<string>)
    ensures |r| == |cs|
  {
    seq(|cs|, i requires 0 <= i < |cs| => Fold(cs[i]))
  }

  // ---- canonical names are identities ----

  /** The place that a path from the mount point means. */
  function Meaning(root: Node, abs: string): (r: Option<Place>) {
    if MOUNT_POINT <= abs && (|abs| == |MOUNT_POINT| || abs[|MOUNT_POINT|] == '/')
    then Walk(root, [], Split(abs[|MOUNT_POINT|..])) else None
  }

  /** A path with a canonical name names something, and the canonical name is made of the
      short names on the way there: nothing of how the path was spelt is left in it. */
  lemma CanonicalNamesThePlace(root: Node, hlen: nat, cap: nat, abs: string)
    requires Good(root) && Canonical(root, hlen, cap, abs).Some?
    ensures Meaning(root, abs).Some?
    ensures Canonical(root, hlen, cap, abs).value == ShortNames(root, Meaning(root, abs).value)
    ensures AllClean(Canonical(root, hlen, cap, abs).value)
  {
    CanonNamesThePlace(root, hlen, cap, [], Split(abs[|MOUNT_POINT|..]));
    ShortNamesClean(root, Meaning(root, abs).value);
  }

  /** Two paths get the same canonical text, compared without case, exactly when they mean
      the same place. */
  lemma SameTextIffSamePlace(root: Node, hlen: nat, cap: nat, a: string, b: string)
    requires Good(root) && Canonical(root, hlen, cap, a).Some? && Canonical(root, hlen, cap, b).Some?
    ensures var (ca, cb) := (Join(Canonical(root, hlen, cap, a).value), Join(Canonical(root, hlen, cap, b).value));
            (Fold(ca) == Fold(cb) <==> Meaning(root, a) == Meaning(root, b))
            && (ca == cb <==> Meaning(root, a) == Meaning(root, b))
  {
    CanonicalNamesThePlace(root, hlen, cap, a);
    CanonicalNamesThePlace(root, hlen, cap, b);
    var (ca, cb) := (Canonical(root, hlen, cap, a).value, Canonical(root, hlen, cap, b).value);
    if Fold(Join(ca)) == Fold(Join(cb)) {
      FoldJoin(ca);
      FoldJoin(cb);
      JoinInjective(FoldAll(ca), FoldAll(cb));
      var (pa, pb) := (Meaning(root, a).value, Meaning(root, b).value);
      assert FoldAll(cb) == FoldAll(ca)[..|pb|];
      NamesIdentify(root, pa, pb);
      assert pa == pb;
    }
  }

  predicate Solid(cs: seq<string>) { forall i :: 0 <= i < |cs| ==> cs[i] != "" && '/' !in cs[i] }

  lemma JoinInjective(a: seq<string>, b: seq<string>)
    requires Solid(a) && Solid(b) && Join(a) == Join(b)
    ensures a == b
  {
    if a != [] && b != [] {
      SplitJoin(a);
      SplitJoin(b);
    }
  }

  lemma {:induction false} FoldPathText(cs: seq<string>)
    ensures Fold(PathText(cs)) == PathText(FoldAll(cs))
  {
    if cs != [] {
      FoldPathText(cs[1..]);
      FoldConcat("/", cs[0]);
      FoldConcat("/" + cs[0], PathText(cs[1..]));
      assert FoldAll(cs)[1..] == FoldAll(cs[1..]);
      assert Fold("/") == "/";
    }
  }

  lemma FoldConcat(a: string, b: string)
    ensures Fold(a + b) == Fold(a) + Fold(b)
  {}

  lemma FoldJoin(cs: seq<string>)
    ensures Fold(Join(cs)) == Join(FoldAll(cs))
    ensures AllClean(cs) ==> Solid(FoldAll(cs))
  {
    if cs != [] {
      FoldPathText(cs[1..]);
      FoldConcat(cs[0], PathText(cs[1..]));
      assert FoldAll(cs)[1..] == FoldAll(cs[1..]);
    }
  }

  // ---- canonical names are fixed points ----

  /** How far the canonical components fit the two buffers. */
  predicate Fits(hlen: nat, cap: nat, cs: seq<string>) {
    hlen + |PathText(cs)| < FPATH_CAP && |Join(cs)| < cap
  }

  lemma {:induction false} CanonFits(root: Node, hlen: nat, cap: nat, acc: seq<string>, segs: seq<string>)
    requires Fits(hlen, cap, acc)
    ensures var c := Canon(root, hlen, cap, acc, segs); c.Some? ==> Fits(hlen, cap, c.value)
    decreases |segs|
  {
    if segs != [] {
      var s := Step(root, hlen, cap, acc, segs[0]);
      if s.Some? {
        if |s.value| > |acc| {
          PathTextSnoc(acc, s.value[|acc|]);
        } else if acc != [] {
          ShorterFits(hlen, cap, acc, |acc| - 1);
        }
        CanonFits(root, hlen, cap, s.value, segs[1..]);
      }
    }
  }

  lemma {:induction false} PathTextGrows(cs: seq<string>, n: nat)
    requires n <= |cs|
    ensures |PathText(cs[..n])| <= |PathText(cs)|
  {
    if n > 0 {
      assert cs[..n][1..] == cs[1..][..n - 1];
      PathTextGrows(cs[1..], n - 1);
    }
  }

  lemma ShorterFits(hlen: nat, cap: nat, cs: seq<string>, n: nat)
    requires Fits(hlen, cap, cs) && n <= |cs|
    ensures Fits(hlen, cap, cs[..n])
  {
    PathTextGrows(cs, n);
    JoinIsPathText(cs);
    JoinIsPathText(cs[..n]);
  }

  lemma {:induction false} PrefixExists(n: Node, at: Place, k: nat)
    requires Exists(n, at) && k <= |at|
    ensures Exists(n, at[..k]) && ShortNames(n, at[..k]) == ShortNames(n, at)[..k]
    ensures k < |at| ==> NodeAt(n, at[..k]).Dir? && at[k] < |NodeAt(n, at[..k]).kids|
                         && NodeAt(n, at[..k]).kids[at[k]].short == ShortNames(n, at)[k]
    ensures Good(n) ==> Good(NodeAt(n, at[..k]))
  {
    if k > 0 {
      assert at[..k][1..] == at[1..][..k - 1];
      PrefixExists(n.kids[at[0]].node, at[1..], k - 1);
    }
  }

  /** Looking canonical components up finds the place they were taken from. */
  lemma {:induction false} FindsPlace(n: Node, at: Place)
    requires Good(n) && Exists(n, at)
    ensures Find(n, ShortNames(n, at)) == Some(at)
  {
    if at != [] {
      assert n == Dir(n.kids);
      FindsItself(n.kids, at[0]);
      FindsPlace(n.kids[at[0]].node, at[1..]);
      assert [at[0]] + at[1..] == at;
    }
  }

  lemma PrefixFound(root: Node, at: Place, k: nat)
    requires Good(root) && Exists(root, at) && k <= |at|
    ensures Find(root, ShortNames(root, at)[..k]) == Some(at[..k]) && ShortNames(root, at[..k]) == ShortNames(root, at)[..k]
  {
    PrefixExists(root, at, k);
    FindsPlace(root, at[..k]);
  }

  /** A component that is there under its own short name, and fits, is kept as it is. */
  lemma StepOn(root: Node, hlen: nat, cap: nat, cs: seq<string>, k: nat)
    requires k < |cs| && Clean(cs[k]) && Fits(hlen, cap, cs[..k + 1])
    requires Find(root, cs[..k + 1]).Some? && ShortNames(root, Find(root, cs[..k + 1]).value)[k] == cs[k]
    ensures Step(root, hlen, cap, cs[..k], cs[k]) == Some(cs[..k + 1])
  {
    assert cs[..k] + [cs[k]] == cs[..k + 1];
    PathTextSnoc(cs[..k], cs[k]);
  }

  lemma {:induction false} CanonOfShortNames(root: Node, hlen: nat, cap: nat, at: Place, k: nat)
    requires Good(root) && Exists(root, at) && k <= |at| && Fits(hlen, cap, ShortNames(root, at))
    ensures var cs := ShortNames(root, at); Canon(root, hlen, cap, cs[..k], cs[k..]) == Some(cs)
    decreases |at| - k
  {
    var cs := ShortNames(root, at);
    if k < |at| {
      PrefixFound(root, at, k + 1);
      ShortNamesClean(root, at);
      ShorterFits(hlen, cap, cs, k + 1);
      StepOn(root, hlen, cap, cs, k);
      assert cs[k..][1..] == cs[k + 1..];
      CanonOfShortNames(root, hlen, cap, at, k + 1);
    } else {
      assert cs[..k] == cs && cs[k..] == [];
    }
  }

  /** The canonical name is a name of the same place, and its own canonical name. */
  lemma CanonicalIsIdempotent(root: Node, hlen: nat, cap: nat, abs: string)
    requires Good(root) && hlen < FPATH_CAP && cap > 0 && Canonical(root, hlen, cap, abs).Some?
    ensures var c := Canonical(root, hlen, cap, abs);
            Canonical(root, hlen, cap, MOUNT_POINT + PathText(c.value)) == c
  {
    var cs := Canonical(root, hlen, cap, abs).value;
    CanonicalNamesThePlace(root, hlen, cap, abs);
    CanonFits(root, hlen, cap, [], Split(abs[|MOUNT_POINT|..]));
    CanonOfShortNames(root, hlen, cap, Meaning(root, abs).value, 0);
    var again := MOUNT_POINT + PathText(cs);
    assert again[|MOUNT_POINT|..] == PathText(cs);
    assert cs[..0] == [] && cs[0..] == cs;
    if cs == [] {
      SplitOne("");
      assert [""][1..] == [];
    } else {
      JoinIsPathText(cs);
      assert "" + ("/" + Join(cs)) == PathText(cs);
      SplitFirst("", Join(cs));
      SplitJoin(cs);
      assert ([""] + cs)[1..] == cs;
    }
  }

  // ---- when a name is found ----

  /** What the components can take up in the buffers: each its own length, or that of a
      short name, and a slash. */
  function Room(segs: seq<string>): nat {
    if segs == [] then 0 else 1 + (if |segs[0]| > SHORT_LEN then |segs[0]| else SHORT_LEN) + Room(segs[1..])
  }

  const SHORT_LEN := 12

  ghost predicate ShortNamesShort(n: Node) {
    n.Dir? ==> forall i :: 0 <= i < |n.kids| ==> |n.kids[i].short| <= SHORT_LEN && ShortNamesShort(n.kids[i].node)
  }

  lemma {:induction false} ShortAt(n: Node, at: Place)
    requires ShortNamesShort(n) && Exists(n, at)
    ensures forall i :: 0 <= i < |at| ==> |ShortNames(n, at)[i]| <= SHORT_LEN
  {
    if at != [] {
      ShortAt(n.kids[at[0]].node, at[1..]);
    }
  }

  lemma {:induction false} CanonFindsIfRoom(root: Node, hlen: nat, cap: nat, at: Place, segs: seq<string>)
    requires Good(root) && ShortNamesShort(root) && Exists(root, at)
    requires var used := |PathText(ShortNames(root, at))| + Room(segs); hlen + used < FPATH_CAP && used <= cap
    ensures Canon(root, hlen, cap, ShortNames(root, at), segs).Some? <==> Walk(root, at, segs).Some?
    decreases |segs|
  {
    if segs != [] {
      StepIfRoom(root, hlen, cap, at, segs);
      StepFollows(root, hlen, cap, at, segs[0]);
      WalkOne(root, at, segs);
      if Walk(root, at, [segs[0]]).Some? {
        CanonFindsIfRoom(root, hlen, cap, Walk(root, at, [segs[0]]).value, segs[1..]);
      }
    }
  }

  lemma StepIfRoom(root: Node, hlen: nat, cap: nat, at: Place, segs: seq<string>)
    requires Good(root) && ShortNamesShort(root) && Exists(root, at) && segs != []
    requires var used := |PathText(ShortNames(root, at))| + Room(segs); hlen + used < FPATH_CAP && used <= cap
    ensures var s := Step(root, hlen, cap, ShortNames(root, at), segs[0]);
            && (s.Some? <==> Walk(root, at, [segs[0]]).Some?)
            && (s.Some? ==> |PathText(s.value)| + Room(segs[1..]) <= |PathText(ShortNames(root, at))| + Room(segs))
  {
    if Special(segs[0]) {
      StepAside(root, hlen, cap, at, segs[0]);
    } else {
      StepDown(root, hlen, cap, at, segs[0]);
    }
  }

  predicate Special(seg: string) { seg == "" || seg == "." || seg == ".." }

  lemma StepAside(root: Node, hlen: nat, cap: nat, at: Place, seg: string)
    requires Exists(root, at) && Special(seg)
    ensures var s := Step(root, hlen, cap, ShortNames(root, at), seg);
            s.Some? && Walk(root, at, [seg]).Some? && |PathText(s.value)| <= |PathText(ShortNames(root, at))|
  {
    WalkAside(root, at, seg);
    if at != [] {
      PathTextGrows(ShortNames(root, at), |at| - 1);
    }
  }

  lemma WalkAside(root: Node, at: Place, seg: string)
    requires Exists(root, at) && Special(seg)
    ensures Walk(root, at, [seg]).Some?
  {
    assert [seg][0] == seg && [seg][1..] == [];
  }

  lemma StepDown(root: Node, hlen: nat, cap: nat, at: Place, seg: string)
    requires Good(root) && ShortNamesShort(root) && Exists(root, at) && !Special(seg)
    requires var used := |PathText(ShortNames(root, at))| + 1 + (if |seg| > SHORT_LEN then |seg| else SHORT_LEN);
             hlen + used < FPATH_CAP && used <= cap
    ensures var s := Step(root, hlen, cap, ShortNames(root, at), seg);
            && (s.Some? <==> Walk(root, at, [seg]).Some?)
            && (s.Some? ==> |PathText(s.value)| <= |PathText(ShortNames(root, at))| + 1 + SHORT_LEN)
  {
    FindIsWalk(root, at, seg);
    if Find(root, ShortNames(root, at) + [seg]).Some? {
      StepDownIfRoom(root, at, seg);
    }
  }

  lemma FindIsWalk(root: Node, at: Place, seg: string)
    requires Good(root) && Exists(root, at) && !Special(seg)
    ensures Find(root, ShortNames(root, at) + [seg]).Some? <==> Walk(root, at, [seg]).Some?
  {
    FindSnoc(root, at, seg);
  }

  lemma StepDownIfRoom(root: Node, at: Place, seg: string)
    requires Good(root) && ShortNamesShort(root) && Exists(root, at)
    requires Find(root, ShortNames(root, at) + [seg]).Some?
    ensures var (acc, to) := (ShortNames(root, at), Find(root, ShortNames(root, at) + [seg]).value);
            var name := ShortNames(root, to)[|acc|];
            && |name| <= SHORT_LEN && |Join(acc + [name])| < |PathText(acc + [name])| == |PathText(acc)| + 1 + |name|
  {
    var acc := ShortNames(root, at);
    var to := Find(root, acc + [seg]).value;
    ShortAt(root, to);
    PathTextSnoc(acc, ShortNames(root, to)[|acc|]);
    JoinIsPathText(acc + [ShortNames(root, to)[|acc|]]);
  }

  /** On a card with 8.3 short names, a path whose components leave room in the two
      buffers has a canonical name exactly when it names something that is there. */
  lemma CanonicalFailsOnlyIfMissing(root: Node, hlen: nat, cap: nat, abs: string)
    requires Good(root) && ShortNamesShort(root)
    requires |MOUNT_POINT| <= |abs|
    requires hlen + Room(Split(abs[|MOUNT_POINT|..])) < FPATH_CAP && Room(Split(abs[|MOUNT_POINT|..])) <= cap
    ensures Canonical(root, hlen, cap, abs).Some? <==> Meaning(root, abs).Some?
  {
    CanonFindsIfRoom(root, hlen, cap, [], Split(abs[|MOUNT_POINT|..]));
  }

  // ---- the guard's test ----

  /** The test on one drive in disk_change_begin: `path` is a prefix of the image's
      canonical name, without case, up to its end or to a slash. */
  predicate CharTest(image: string, path: string) {
    && image != ""
    && (path == "" ||
        (|path| <= |image| && Fold(image[..|path|]) == Fold(path)
         && (|image| == |path| || image[|path|] == '/')))
  }

  lemma {:induction false} PathTextConcat(a: seq<string>, b: seq<string>)
    ensures PathText(a + b) == PathText(a) + PathText(b)
  {
    if a == [] {
      assert a + b == b;
    } else {
      assert (a + b)[1..] == a[1..] + b;
      PathTextConcat(a[1..], b);
    }
  }

  /** Text up to a slash or the end is a prefix exactly when its components are. */
  lemma TextPrefix(a: seq<string>, b: seq<string>)
    requires Solid(a) && Solid(b) && a != [] && b != []
    ensures b <= a <==> Join(b) <= Join(a) && (|Join(a)| == |Join(b)| || Join(a)[|Join(b)|] == '/')
  {
    if b <= a {
      PrefixText(a, b);
    } else if Join(b) <= Join(a) && |Join(a)| > |Join(b)| && Join(a)[|Join(b)|] == '/' {
      SlashText(a, b);
    } else if Join(b) <= Join(a) && |Join(a)| == |Join(b)| {
      JoinInjective(a, b);
    }
  }

  lemma PrefixText(a: seq<string>, b: seq<string>)
    requires b != [] && b <= a
    ensures Join(a) == Join(b) + PathText(a[|b|..])
  {
    assert a[1..] == b[1..] + a[|b|..];
    PathTextConcat(b[1..], a[|b|..]);
  }

  lemma SlashText(a: seq<string>, b: seq<string>)
    requires Solid(a) && Solid(b) && a != [] && b != []
    requires Join(b) <= Join(a) && |Join(a)| > |Join(b)| && Join(a)[|Join(b)|] == '/'
    ensures b <= a
  {
    var more := Join(a)[|Join(b)| + 1..];
    assert Join(a) == Join(b) + ("/" + more);
    SplitJoin(a);
    SplitJoinMore(b, more);
  }

  /** The guard's character comparison on canonical names says whether the changed path is
      the mounted image itself or a folder on the way to it. */
  lemma CharTestIsAncestry(root: Node, image: Place, path: Place)
    requires Good(root) && Exists(root, image) && Exists(root, path) && image != []
    ensures CharTest(Join(ShortNames(root, image)), Join(ShortNames(root, path))) <==> path <= image
    ensures ShortNames(root, path) <= ShortNames(root, image) <==> path <= image
  {
    var (a, b) := (ShortNames(root, image), ShortNames(root, path));
    ShortNamesClean(root, image);
    ShortNamesClean(root, path);
    FoldJoin(a);
    FoldJoin(b);
    PrefixIsAncestry(root, image, path);
    if path != [] {
      FoldedPrefix(Join(a), Join(b));
      TextPrefix(FoldAll(a), FoldAll(b));
    }
  }

  lemma PrefixIsAncestry(root: Node, image: Place, path: Place)
    requires Good(root) && Exists(root, image) && Exists(root, path)
    ensures var (a, b) := (ShortNames(root, image), ShortNames(root, path));
            (FoldAll(b) <= FoldAll(a) <==> path <= image) && (b <= a <==> path <= image)
  {
    var (a, b) := (ShortNames(root, image), ShortNames(root, path));
    if b <= a {
      assert FoldAll(b) == FoldAll(a)[..|b|];
    }
    if FoldAll(b) <= FoldAll(a) {
      NamesIdentify(root, image, path);
    }
    if path <= image {
      PrefixExists(root, image, |path|);
      assert image[..|path|] == path;
      assert FoldAll(b) == FoldAll(a)[..|b|];
    }
  }

  lemma FoldedPrefix(image: string, path: string)
    requires path != "" && image != ""
    ensures CharTest(image, path) <==>
            Fold(path) <= Fold(image) && (|Fold(image)| == |Fold(path)| || Fold(image)[|Fold(path)|] == '/')
  {}
}
