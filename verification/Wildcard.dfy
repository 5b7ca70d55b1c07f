/** Case-insensitive file-name globbing (include/wildcard.h). */
module Wildcard {

  /** C strings: a NUL ends them, so none stands inside. */
  predicate CString(s: string) { '\0' !in s }

  function Lower(c: char): (r: char)
    ensures r == '*' <==> c == '*'
    ensures r == '\0' <==> c == '\0'
  {
    if 'A' <= c <= 'Z' then c - 'A' + 'a' else c
  }

  predicate OneMatches(p: char, c: char) { p == '?' || Lower(p) == Lower(c) }

  /** What a pattern means: `*` stands for any run of characters, `?` for any one. */
  predicate Matches(pat: string, str: string)
    decreases |pat| + |str|
  {
    if pat == "" then str == ""
    else if pat[0] == '*' then Matches(pat[1..], str) || (str != "" && Matches(pat, str[1..]))
    else str != "" && OneMatches(pat[0], str[0]) && Matches(pat[1..], str[1..])
  }

  /** The most recent star: the pattern position after it, and where in the string it began. */
  datatype Mark = NoStar | Star(star: nat, ss: nat)

  predicate MarkOk(pat: string, str: string, p: nat, s: nat, m: Mark) {
    && p <= |pat| && s <= |str|
    && (m.Star? ==> m.star <= p && m.ss <= s)
  }

  /** The matcher's loops from cursors p and s on. */
  predicate Run(pat: string, str: string, p: nat, s: nat, m: Mark)
    requires MarkOk(pat, str, p, s, m)
    decreases if m.Star? then |pat| - m.star else |pat| + 1, if m.Star? then |str| - m.ss else 0, |str| - s
  {
    if s == |str| then OnlyStars(pat[p..])
    else if p < |pat| && OneMatches(pat[p], str[s]) then Run(pat, str, p + 1, s + 1, m)
    else if p < |pat| && pat[p] == '*' then Run(pat, str, p + 1, s, Star(p + 1, s))
    else if m.Star? then Run(pat, str, m.star, m.ss + 1, Star(m.star, m.ss + 1))
    else false
  }

  predicate OnlyStars(pat: string) { forall i :: 0 <= i < |pat| ==> pat[i] == '*' }

  function At(s: string, i: nat): char { if i < |s| then s[i] else '\0' }

  /** wildcard_match_ci: on a name without `*` it answers what the pattern means; on any
      string it never answers true wrongly. */
  method MatchCI(pat: string, str: string) returns (r: bool)
    requires CString(pat) && CString(str)
    ensures '*' !in str ==> (r <==> Matches(pat, str))
    ensures r ==> Matches(pat, str)
    ensures r == Run(pat, str, 0, 0, NoStar)
  {
    var p: nat, s: nat := 0, 0;
    var m := NoStar;
    while At(str, s) != '\0'
      invariant MarkOk(pat, str, p, s, m)
      invariant Run(pat, str, p, s, m) == Run(pat, str, 0, 0, NoStar)
      decreases if m.Star? then |pat| - m.star else |pat| + 1, if m.Star? then |str| - m.ss else 0, |str| - s
    {
      if At(pat, p) == '?' || Lower(At(pat, p)) == Lower(At(str, s)) {
        p, s := p + 1, s + 1;
      } else if At(pat, p) == '*' {
        p := p + 1;
        m := Star(p, s);
      } else if m.Star? {
        m := Star(m.star, m.ss + 1);
        p, s := m.star, m.ss;
      } else {
        MatcherIsExact(str);
        return false;
      }
    }
    ghost var q: nat := p;
    while At(pat, p) == '*'
      invariant q <= p <= |pat| && OnlyStars(pat[q..p])
      decreases |pat| - p
    {
      assert pat[q..p + 1] == pat[q..p] + [pat[p]];
      p := p + 1;
    }
    r := At(pat, p) == '\0';
    assert p < |pat| ==> pat[q..][p - q] == pat[p];
    assert p == |pat| ==> pat[q..p] == pat[q..];
    MatcherIsExact(str);
    if r {
      RunIsSound(pat, str, 0, 0, NoStar);
      assert pat[0..] == pat && str[0..] == str;
    }
  }

  // ---- soundness ----

  /** A star may swallow any number of characters. */
  lemma {:induction false} StarSwallows(pat: string, str: string, k: nat)
    requires pat != "" && pat[0] == '*' && k <= |str| && Matches(pat[1..], str[k..])
    ensures Matches(pat, str)
    decreases k
  {
    if k > 0 {
      assert str[1..][k - 1..] == str[k..];
      StarSwallows(pat, str[1..], k - 1);
    } else {
      assert str[0..] == str;
    }
  }

  lemma {:induction false} StarsMatchEmpty(pat: string)
    requires OnlyStars(pat)
    ensures Matches(pat, "")
  {
    if pat != "" {
      StarsMatchEmpty(pat[1..]);
    }
  }

  /** The pattern from its cursor, or from the last star with a later start, matches what
      is left of the string. */
  ghost predicate Justified(pat: string, str: string, p: nat, s: nat, m: Mark, later: nat)
    requires MarkOk(pat, str, p, s, m)
  {
    || Matches(pat[p..], str[s..])
    || (m.Star? && exists k :: m.ss + later <= k <= |str| && Matches(pat[m.star..], str[k..]))
  }

  /** Whatever the string holds, an accepting run has found a way to match it. */
  lemma {:induction false} RunIsSound(pat: string, str: string, p: nat, s: nat, m: Mark)
    requires MarkOk(pat, str, p, s, m) && Run(pat, str, p, s, m)
    ensures Justified(pat, str, p, s, m, 0)
    decreases if m.Star? then |pat| - m.star else |pat| + 1, if m.Star? then |str| - m.ss else 0, |str| - s
  {
    if s == |str| {
      StarsMatchEmpty(pat[p..]);
    } else if p < |pat| && OneMatches(pat[p], str[s]) {
      RunIsSound(pat, str, p + 1, s + 1, m);
      if Matches(pat[p + 1..], str[s + 1..]) {
        assert pat[p..][1..] == pat[p + 1..] && str[s..][1..] == str[s + 1..];
        if pat[p] == '*' {
          StarSwallows(pat[p..], str[s..], 1);
        }
      }
    } else if p < |pat| && pat[p] == '*' {
      RunIsSound(pat, str, p + 1, s, Star(p + 1, s));
      var k :| s <= k <= |str| && Matches(pat[p + 1..], str[k..]);
      assert pat[p..][1..] == pat[p + 1..] && str[s..][k - s..] == str[k..];
      StarSwallows(pat[p..], str[s..], k - s);
    } else {
      RunIsSound(pat, str, m.star, m.ss + 1, Star(m.star, m.ss + 1));
    }
  }

  // ---- completeness on strings without a star ----

  lemma {:induction false} StarUnfolds(pat: string, str: string) returns (k: nat)
    requires pat != "" && pat[0] == '*' && Matches(pat, str)
    ensures k <= |str| && Matches(pat[1..], str[k..])
  {
    if Matches(pat[1..], str) {
      k := 0;
      assert str[0..] == str;
    } else {
      k := StarUnfolds(pat, str[1..]);
      k := k + 1;
      assert str[1..][k - 1..] == str[k..];
    }
  }

  /** A star-free piece of pattern uses up exactly its own length. */
  lemma {:induction false} LiteralsConsume(pat: string, str: string, n: nat)
    requires n <= |pat| && '*' !in pat[..n] && Matches(pat, str)
    ensures n <= |str| && Matches(pat[n..], str[n..])
  {
    if n > 0 {
      assert pat[0] == pat[..n][0];
      assert pat[1..][..n - 1] == pat[..n][1..];
      LiteralsConsume(pat[1..], str[1..], n - 1);
      assert pat[1..][n - 1..] == pat[n..] && str[1..][n - 1..] == str[n..];
    } else {
      assert pat[0..] == pat && str[0..] == str;
    }
  }

  lemma {:induction false} EmptyNeedsStars(pat: string)
    requires Matches(pat, "")
    ensures OnlyStars(pat)
  {
    if pat != "" {
      EmptyNeedsStars(pat[1..]);
      assert forall i :: 0 < i < |pat| ==> pat[i] == pat[1..][i - 1];
    }
  }

  /** Since the last star both cursors have moved over the same number of characters. */
  predicate Aligned(pat: string, p: nat, s: nat, m: Mark)
    requires p <= |pat|
  {
    m.Star? ==> m.star <= p && s - m.ss == p - m.star && '*' !in pat[m.star..p]
  }

  /** Giving up every star but the last loses nothing: a later start for the last star
      serves any match that an earlier star could lead to. */
  lemma LaterStart(pat: string, str: string, p: nat, s: nat, m: Mark)
    requires MarkOk(pat, str, p, s, m) && Aligned(pat, p, s, m)
    requires Justified(pat, str, p, s, m, 1)
    ensures exists k :: s <= k <= |str| && Matches(pat[p..], str[k..])
  {
    if !Matches(pat[p..], str[s..]) {
      var k :| m.ss + 1 <= k <= |str| && Matches(pat[m.star..], str[k..]);
      var n := p - m.star;
      assert pat[m.star..][..n] == pat[m.star..p];
      LiteralsConsume(pat[m.star..], str[k..], n);
      assert pat[m.star..][n..] == pat[p..] && str[k..][n..] == str[k + n..];
    }
  }

  /** A star that some later start matches justifies going on behind it. */
  lemma StarJustifies(pat: string, str: string, p: nat, s: nat, m: Mark)
    requires MarkOk(pat, str, p, s, m) && Aligned(pat, p, s, m) && Justified(pat, str, p, s, m, 1)
    requires p < |pat| && pat[p] == '*'
    ensures Justified(pat, str, p + 1, s, Star(p + 1, s), 1) && Aligned(pat, p + 1, s, Star(p + 1, s))
  {
    LaterStart(pat, str, p, s, m);
    var k :| s <= k <= |str| && Matches(pat[p..], str[k..]);
    var n := StarUnfolds(pat[p..], str[k..]);
    assert pat[p..][1..] == pat[p + 1..] && str[k..][n..] == str[k + n..];
    assert k + n >= s;
  }

  lemma OnlyStarsAreLeft(pat: string, str: string, p: nat, s: nat, m: Mark)
    requires MarkOk(pat, str, p, s, m) && Aligned(pat, p, s, m) && Justified(pat, str, p, s, m, 1) && s == |str|
    ensures OnlyStars(pat[p..])
  {
    LaterStart(pat, str, p, s, m);
    EmptyNeedsStars(pat[p..]);
  }

  /** A character that matches brings both cursors on. */
  lemma LiteralJustifies(pat: string, str: string, p: nat, s: nat, m: Mark)
    requires '*' !in str && MarkOk(pat, str, p, s, m) && Aligned(pat, p, s, m) && Justified(pat, str, p, s, m, 1)
    requires p < |pat| && s < |str| && OneMatches(pat[p], str[s])
    ensures Justified(pat, str, p + 1, s + 1, m, 1) && Aligned(pat, p + 1, s + 1, m)
  {
    assert pat[p..][1..] == pat[p + 1..] && str[s..][1..] == str[s + 1..];
    assert pat[p] != '*' by { assert str[s] in str; }
  }

  /** With neither a match nor a star ahead, the last star has to start later. */
  lemma StarStartsLater(pat: string, str: string, p: nat, s: nat, m: Mark)
    requires MarkOk(pat, str, p, s, m) && Justified(pat, str, p, s, m, 1) && s < |str|
    requires p < |pat| ==> !OneMatches(pat[p], str[s]) && pat[p] != '*'
    ensures m.Star? && m.ss < |str| && Justified(pat, str, m.star, m.ss + 1, Star(m.star, m.ss + 1), 1)
    ensures Aligned(pat, m.star, m.ss + 1, Star(m.star, m.ss + 1))
  {
    var k :| m.ss + 1 <= k <= |str| && Matches(pat[m.star..], str[k..]);
    assert k == m.ss + 1 || m.ss + 2 <= k;
  }

  lemma {:induction false} RunIsComplete(pat: string, str: string, p: nat, s: nat, m: Mark)
    requires '*' !in str && MarkOk(pat, str, p, s, m) && Aligned(pat, p, s, m)
    requires Justified(pat, str, p, s, m, 1)
    ensures Run(pat, str, p, s, m)
    decreases if m.Star? then |pat| - m.star else |pat| + 1, if m.Star? then |str| - m.ss else 0, |str| - s
  {
    if s == |str| {
      OnlyStarsAreLeft(pat, str, p, s, m);
    } else if p < |pat| && OneMatches(pat[p], str[s]) {
      LiteralJustifies(pat, str, p, s, m);
      RunIsComplete(pat, str, p + 1, s + 1, m);
    } else if p < |pat| && pat[p] == '*' {
      StarJustifies(pat, str, p, s, m);
      RunIsComplete(pat, str, p + 1, s, Star(p + 1, s));
    } else {
      StarStartsLater(pat, str, p, s, m);
      RunIsComplete(pat, str, m.star, m.ss + 1, Star(m.star, m.ss + 1));
    }
  }

  // ---- when the matcher is right ----

  function Marks(n: nat): (r: string)
    ensures |r| == n && forall i :: 0 <= i < n ==> r[i] == '?'
  {
    seq(n, i => '?')
  }

  /** A pattern that the matcher gets wrong on a string with a `*` at i: it takes the
      pattern's star for that one character. */
  function Fooling(str: string, i: nat): string
    requires i < |str|
  {
    str[..i] + "*" + Marks(|str| - i)
  }

  lemma {:induction false} MarksMatch(str: string)
    ensures Matches(Marks(|str|), str)
  {
    if str != "" {
      assert Marks(|str|)[1..] == Marks(|str[1..]|);
      MarksMatch(str[1..]);
    }
  }

  lemma {:induction false} PrefixMatches(pre: string, pat: string, str: string)
    requires '*' !in pre && Matches(pat, str)
    ensures Matches(pre + pat, pre + str)
  {
    if pre == "" {
      assert pre + pat == pat && pre + str == str;
    } else {
      PrefixMatches(pre[1..], pat, str);
      assert (pre + pat)[1..] == pre[1..] + pat && (pre + str)[1..] == pre[1..] + str;
      assert pre[0] in pre;
    }
  }

  lemma {:induction false} RunGoesStraight(pat: string, str: string, s: nat)
    requires s <= |str| < |pat|
    requires forall i :: s <= i < |str| ==> OneMatches(pat[i], str[i])
    requires pat[|str|] != '*'
    ensures !Run(pat, str, s, s, NoStar)
    decreases |str| - s
  {
    if s < |str| {
      RunGoesStraight(pat, str, s + 1);
    } else {
      assert pat[s..][0] == pat[s];
    }
  }

  lemma FoolingFools(str: string, i: nat)
    requires i < |str| && str[i] == '*' && '*' !in str[..i]
    ensures Matches(Fooling(str, i), str) && !Run(Fooling(str, i), str, 0, 0, NoStar)
  {
    var tail := "*" + Marks(|str| - i);
    MarksMatch(str[i..]);
    assert tail[1..] == Marks(|str[i..]|);
    assert Matches(tail, str[i..]);
    PrefixMatches(str[..i], tail, str[i..]);
    assert str[..i] + str[i..] == str && str[..i] + tail == Fooling(str, i);
    RunGoesStraight(Fooling(str, i), str, 0);
  }

  /** On a given string the matcher agrees with the meaning of every pattern exactly when
      the string holds no `*`. */
  lemma MatcherIsExact(str: string)
    ensures (forall pat :: Run(pat, str, 0, 0, NoStar) <==> Matches(pat, str)) <==> '*' !in str
  {
    if '*' in str {
      var i := FirstStar(str);
      FoolingFools(str, i);
    } else {
      forall pat ensures Run(pat, str, 0, 0, NoStar) <==> Matches(pat, str) {
        assert pat[0..] == pat && str[0..] == str;
        if Run(pat, str, 0, 0, NoStar) {
          RunIsSound(pat, str, 0, 0, NoStar);
        }
        if Matches(pat, str) {
          RunIsComplete(pat, str, 0, 0, NoStar);
        }
      }
    }
  }

  function FirstStar(str: string): (i: nat)
    requires '*' in str
    ensures i < |str| && str[i] == '*' && '*' !in str[..i]
  {
    if str[0] == '*' then 0
    else
      var j := FirstStar(str[1..]);
      assert str[..j + 1] == [str[0]] + str[1..][..j];
      j + 1
  }

  // ---- case ----

  /** A letter of the alphabet and its capital, or the same character twice. */
  predicate SameLetter(c: char, d: char) {
    || c == d
    || ('a' <= c <= 'z' && 'A' <= d <= 'Z' && c - 'a' == d - 'A')
    || ('a' <= d <= 'z' && 'A' <= c <= 'Z' && d - 'a' == c - 'A')
  }

  predicate SameButCase(s: string, t: string) { |s| == |t| && forall i :: 0 <= i < |s| ==> SameLetter(s[i], t[i]) }

  /** A pattern without wildcards matches the names that are spelt like it, capitals or not,
      and no others. */
  lemma {:induction false} PlainPatternIsSpelling(pat: string, str: string)
    requires '*' !in pat && '?' !in pat
    ensures Matches(pat, str) <==> SameButCase(pat, str)
  {
    if pat != "" && str != "" {
      PlainPatternIsSpelling(pat[1..], str[1..]);
      assert SameButCase(pat, str) <==> SameLetter(pat[0], str[0]) && SameButCase(pat[1..], str[1..]) by {
        assert pat == [pat[0]] + pat[1..] && str == [str[0]] + str[1..];
      }
    }
  }

  /** Capitals make no difference to any pattern, in the pattern or in the name. */
  lemma {:induction false} CaseMakesNoDifference(pat: string, str: string, pat': string, str': string)
    requires SameButCase(pat, pat') && SameButCase(str, str')
    ensures Matches(pat, str) <==> Matches(pat', str')
    decreases |pat| + |str|
  {
    if pat != "" && str != "" {
      CaseMakesNoDifference(pat[1..], str[1..], pat'[1..], str'[1..]);
    }
    if pat != "" && pat[0] == '*' {
      CaseMakesNoDifference(pat[1..], str, pat'[1..], str');
      if str != "" {
        CaseMakesNoDifference(pat, str[1..], pat', str'[1..]);
      }
    }
  }
}
