/** The command line tokenizer, which compacts its arguments in place (src/cli/cli.c). */
module Tokenizer {
  import opened Bytes

  const MAX_ARGS := 8

  predicate Blank(c: char) { c == ' ' || c == '\t' }

  predicate AllBlank(s: string) { forall i :: 0 <= i < |s| ==> Blank(s[i]) }

  // ---- what a line means ----

  function SkipBlanks(s: string): (r: string)
    ensures |r| <= |s| && (r != "" ==> !Blank(r[0]))
  {
    if s != "" && Blank(s[0]) then SkipBlanks(s[1..]) else s
  }

  /** The first argument of a line, which a blank outside quotes ends, and the rest after
      that blank. */
  function Word(s: string, quoted: bool): (r: (string, string))
    ensures |r.0| + |r.1| <= |s| && (s != "" && !Blank(s[0]) ==> |r.1| < |s|)
  {
    if s == "" then ("", "")
    else if s[0] == '"' then Word(s[1..], !quoted)
    else if !quoted && Blank(s[0]) then ("", s[1..])
    else
      var (w, rest) := Word(s[1..], quoted);
      ([s[0]] + w, rest)
  }

  function Words(s: string, room: nat): (r: seq<string>)
    ensures |r| <= room
    decreases room
  {
    var t := SkipBlanks(s);
    if room == 0 || t == "" then []
    else
      var (w, rest) := Word(t, false);
      [w] + Words(rest, room - 1)
  }

  // ---- the tokenizer ----

  /** A NUL-terminated string `w` stands at i. */
  predicate StringAt(mem: seq<char>, i: nat, w: string) {
    && i + |w| < |mem| && mem[i..i + |w|] == w && mem[i + |w|] == '\0' && '\0' !in w
  }

  /** The arguments stand one after the other, none reaching into the next. */
  predicate Laid(mem: seq<char>, argv: seq<nat>, words: seq<string>, end: nat) {
    && |argv| == |words|
    && (forall i :: 0 <= i < |argv| ==> StringAt(mem, argv[i], words[i]) && argv[i] + |words[i]| < end)
    && (forall i :: 0 < i < |argv| ==> argv[i - 1] + |words[i - 1]| < argv[i])
  }

  lemma LaidExtends(mem: seq<char>, mem': seq<char>, argv: seq<nat>, words: seq<string>, end: nat, a: nat, w: string, end': nat)
    requires Laid(mem, argv, words, end) && |mem'| == |mem| && end <= |mem|
    requires mem'[..end] == mem[..end]
    requires end <= a && a + |w| < end' && StringAt(mem', a, w)
    ensures Laid(mem', argv + [a], words + [w], end')
  {
    var argv', words' := argv + [a], words + [w];
    forall i | 0 <= i < |argv'| ensures StringAt(mem', argv'[i], words'[i]) && argv'[i] + |words'[i]| < end' {
      if i < |argv| {
        assert StringAt(mem, argv[i], words[i]);
        assert mem'[argv[i]..argv[i] + |words[i]|] == mem'[..end][argv[i]..argv[i] + |words[i]|];
        assert mem'[argv[i] + |words[i]|] == mem'[..end][argv[i] + |words[i]|];
      }
    }
  }

  /** The line from p on is still as it came, with its NUL at n. */
  ghost predicate Unread(mem: seq<char>, s: string, p: nat) {
    && p <= |s| < |mem| && '\0' !in s
    && mem[p..|s|] == s[p..] && mem[|s|] == '\0'
  }

  lemma UnreadAt(mem: seq<char>, s: string, p: nat)
    requires Unread(mem, s, p)
    ensures mem[p] == '\0' <==> p == |s|
    ensures p < |s| ==> mem[p] == s[p] && s[p..][0] == s[p] && s[p..][1..] == s[p + 1..] && Unread(mem, s, p + 1)
  {}

  method SkipFrom(line: array<char>, from: nat, ghost s: string) returns (p: nat)
    requires Unread(line[..], s, from)
    ensures from <= p && Unread(line[..], s, p) && s[p..] == SkipBlanks(s[from..])
  {
    p := from;
    UnreadAt(line[..], s, p);
    while line[p] == ' ' || line[p] == '\t'
      invariant from <= p <= |s| && Unread(line[..], s, p)
      invariant SkipBlanks(s[p..]) == SkipBlanks(s[from..])
      decreases |s| - p
    {
      UnreadAt(line[..], s, p);
      p := p + 1;
    }
    UnreadAt(line[..], s, p);
  }

  /** Cutting the argument at start: written up to d, read up to p. */
  ghost predicate Cutting(mem: seq<char>, s: string, start: nat, d: nat, p: nat, quoted: bool) {
    && start <= d <= p && Unread(mem, s, p) && '\0' !in mem[start..d]
    && Word(s[start..], false).0 == mem[start..d] + Word(s[p..], quoted).0
    && Word(s[start..], false).1 == Word(s[p..], quoted).1
  }

  lemma CuttingStarts(mem: seq<char>, s: string, start: nat)
    requires Unread(mem, s, start)
    ensures Cutting(mem, s, start, start, start, false)
  {}

  lemma QuoteRead(mem: seq<char>, s: string, start: nat, d: nat, p: nat, quoted: bool)
    requires Cutting(mem, s, start, d, p, quoted) && mem[p] == '"'
    ensures Cutting(mem, s, start, d, p + 1, !quoted)
  {}

  lemma CharRead(mem: seq<char>, mem': seq<char>, s: string, start: nat, d: nat, p: nat, quoted: bool)
    requires Cutting(mem, s, start, d, p, quoted) && mem[p] != '"' && mem[p] != '\0' && (quoted || !Blank(mem[p]))
    requires mem' == mem[d := mem[p]]
    ensures Cutting(mem', s, start, d + 1, p + 1, quoted)
    ensures mem'[..start] == mem[..start]
  {}

  /** The NUL that ends the argument goes where the delimiter or the line's NUL was, or
      before it. */
  lemma CutDone(mem: seq<char>, mem': seq<char>, s: string, start: nat, d: nat, p: nat, quoted: bool, end: nat)
    requires Cutting(mem, s, start, d, p, quoted)
    requires p == |s| || (!quoted && Blank(mem[p]))
    requires end == (if p == |s| then p else p + 1) && mem' == mem[d := '\0']
    ensures Unread(mem', s, end) && s[end..] == Word(s[start..], false).1
    ensures StringAt(mem', start, Word(s[start..], false).0) && d == start + |Word(s[start..], false).0|
    ensures mem'[..start] == mem[..start]
  {}

  /** One argument, moved down over its own quotes: the write cursor never passes the read
      cursor, so neither the unread part nor anything before the argument changes. */
  method CutWord(line: array<char>, start: nat, ghost s: string) returns (p: nat, ghost dst: nat)
    requires Unread(line[..], s, start) && start < |s| && !Blank(s[start])
    modifies line
    ensures start < p && Unread(line[..], s, p) && s[p..] == Word(s[start..], false).1
    ensures StringAt(line[..], start, Word(s[start..], false).0)
    ensures dst == start + |Word(s[start..], false).0| && (dst < p || p == |s|)
    ensures line[..][..start] == old(line[..])[..start]
  {
    p := start;
    var d: nat, inQuote := start, false;
    CuttingStarts(line[..], s, start);
    while line[p] != '\0'
      invariant Cutting(line[..], s, start, d, p, inQuote) && (p == start ==> !inQuote)
      invariant line[..][..start] == old(line[..])[..start]
      decreases |s| - p
    {
      UnreadAt(line[..], s, p);
      ghost var was := line[..];
      if line[p] == '"' {
        QuoteRead(was, s, start, d, p, inQuote);
        inQuote := !inQuote;
        p := p + 1;
        continue;
      }
      if !inQuote && (line[p] == ' ' || line[p] == '\t') {
        break;
      }
      line[d] := line[p];
      CharRead(was, line[..], s, start, d, p, inQuote);
      d, p := d + 1, p + 1;
    }
    UnreadAt(line[..], s, p);
    ghost var was, stop := line[..], p;
    if line[p] != '\0' {
      p := p + 1;
    }
    line[d] := '\0';
    CutDone(was, line[..], s, start, d, stop, inQuote, p);
    dst := d;
  }

  /** The arguments found so far, which end before `end`, and the rest of the line. */
  ghost predicate Found(mem: seq<char>, s: string, argv: seq<nat>, words: seq<string>, end: nat, p: nat, room: nat) {
    && Unread(mem, s, p) && end <= |s| + 1 && (end <= p || p == |s|)
    && |argv| <= room && Laid(mem, argv, words, end)
    && Words(s, room) == words + Words(s[p..], room - |argv|)
  }

  lemma FoundOne(mem: seq<char>, mem': seq<char>, s: string, argv: seq<nat>, words: seq<string>, end: nat,
                 from: nat, start: nat, dst: nat, p: nat, room: nat)
    requires Found(mem, s, argv, words, end, from, room) && |argv| < room
    requires from <= start < |s| && !Blank(s[start]) && s[start..] == SkipBlanks(s[from..])
    requires |mem'| == |mem| && mem'[..start] == mem[..start]
    requires Unread(mem', s, p) && s[p..] == Word(s[start..], false).1
    requires StringAt(mem', start, Word(s[start..], false).0)
    requires dst == start + |Word(s[start..], false).0| && dst <= p && (dst < p || p == |s|)
    ensures Found(mem', s, argv + [start], words + [Word(s[start..], false).0], dst + 1, p, room)
  {
    var w := Word(s[start..], false).0;
    assert mem'[..end] == mem'[..start][..end] == mem[..start][..end] == mem[..end];
    LaidExtends(mem, mem', argv, words, end, start, w, dst + 1);
    NextWord(s, words, from, start, p, room - |argv|);
  }

  lemma NextWord(s: string, words: seq<string>, from: nat, start: nat, p: nat, room: nat)
    requires from <= start < |s| && p <= |s| && s[start..] == SkipBlanks(s[from..]) && room > 0
    requires s[p..] == Word(s[start..], false).1
    ensures words + Words(s[from..], room) == words + [Word(s[start..], false).0] + Words(s[p..], room - 1)
  {}

  lemma AllFound(mem: seq<char>, s: string, argv: seq<nat>, words: seq<string>, end: nat, p: nat, room: nat)
    requires Found(mem, s, argv, words, end, p, room) && (SkipBlanks(s[p..]) == "" || |argv| == room)
    ensures Laid(mem, argv, Words(s, room), |s| + 1)
  {}

  /** The argv loop of cli_dispatch on a line of n characters and its NUL: afterwards each
      argv entry points to the argument the line means, all inside the line itself and
      without overlap. */
  method Tokenize(line: array<char>, n: nat) returns (argv: seq<nat>)
    requires n < line.Length && line[n] == '\0' && '\0' !in line[..n]
    modifies line
    ensures Laid(line[..], argv, Words(old(line[..n]), MAX_ARGS), n + 1)
  {
    ghost var s := line[..n];
    ghost var words: seq<string>, end: nat := [], 0;
    argv := [];
    var p: nat := 0;
    assert s[0..] == s && line[..][0..n] == s && [] + Words(s, MAX_ARGS) == Words(s, MAX_ARGS);
    while line[p] != '\0' && |argv| < MAX_ARGS
      invariant Found(line[..], s, argv, words, end, p, MAX_ARGS)
      decreases n - p
    {
      ghost var was, from := line[..], p;
      var start := SkipFrom(line, p, s);
      UnreadAt(was, s, start);
      if line[start] == '\0' {
        break;
      }
      ghost var dst;
      p, dst := CutWord(line, start, s);
      FoundOne(was, line[..], s, argv, words, end, from, start, dst, p, MAX_ARGS);
      argv, words, end := argv + [start], words + [Word(s[start..], false).0], dst + 1;
    }
    UnreadAt(line[..], s, p);
    AllFound(line[..], s, argv, words, end, p, MAX_ARGS);
  }

  // ---- every list of arguments can be written ----

  /** A stretch of an argument, with or without quotes around it. */
  datatype Piece = Bare(text: string) | Quoted(text: string)

  predicate PieceOk(p: Piece) {
    && '"' !in p.text
    && (p.Bare? ==> forall i :: 0 <= i < |p.text| ==> !Blank(p.text[i]))
  }

  /** A way to write one argument: pieces side by side, at least one of them visible. */
  predicate Spelling(ps: seq<Piece>) {
    && (forall i :: 0 <= i < |ps| ==> PieceOk(ps[i]))
    && ps != [] && (ps[0].Quoted? || ps[0].text != "")
  }

  function Meant(ps: seq<Piece>): string {
    if ps == [] then "" else ps[0].text + Meant(ps[1..])
  }

  function Ink(p: Piece): string { if p.Quoted? then "\"" + p.text + "\"" else p.text }

  function Spelt(ps: seq<Piece>): string {
    if ps == [] then "" else Ink(ps[0]) + Spelt(ps[1..])
  }

  /** An argument and the blanks that follow it. */
  datatype Arg = Arg(pieces: seq<Piece>, gap: string)

  predicate ArgsOk(args: seq<Arg>) {
    forall i :: 0 <= i < |args| ==>
      && Spelling(args[i].pieces) && AllBlank(args[i].gap)
      && (i < |args| - 1 ==> args[i].gap != "")
  }

  function Written(args: seq<Arg>): string {
    if args == [] then "" else Spelt(args[0].pieces) + args[0].gap + Written(args[1..])
  }

  function Meanings(args: seq<Arg>): (r: seq<string>)
    ensures |r| == |args|
  {
    seq(|args|, i requires 0 <= i < |args| => Meant(args[i].pieces))
  }

  lemma {:induction false} WordTakesText(text: string, quoted: bool, tail: string)
    requires '"' !in text && (!quoted ==> forall i :: 0 <= i < |text| ==> !Blank(text[i]))
    ensures Word(text + tail, quoted).0 == text + Word(tail, quoted).0
    ensures Word(text + tail, quoted).1 == Word(tail, quoted).1
  {
    if text == "" {
      assert text + tail == tail;
    } else {
      assert (text + tail)[1..] == text[1..] + tail;
      assert text[0] in text;
      WordTakesText(text[1..], quoted, tail);
      assert [text[0]] + (text[1..] + Word(tail, quoted).0) == text + Word(tail, quoted).0;
    }
  }

  lemma WordTakesPiece(p: Piece, tail: string)
    requires PieceOk(p)
    ensures Word(Ink(p) + tail, false).0 == p.text + Word(tail, false).0
    ensures Word(Ink(p) + tail, false).1 == Word(tail, false).1
  {
    if p.Quoted? {
      var s := "\"" + (p.text + ("\"" + tail));
      assert Ink(p) + tail == s && s[1..] == p.text + ("\"" + tail);
      assert ("\"" + tail)[1..] == tail;
      WordTakesText(p.text, true, "\"" + tail);
    } else {
      assert Ink(p) + tail == p.text + tail;
      WordTakesText(p.text, false, tail);
    }
  }

  lemma {:induction false} WordTakesSpelling(ps: seq<Piece>, tail: string)
    requires forall i :: 0 <= i < |ps| ==> PieceOk(ps[i])
    ensures Word(Spelt(ps) + tail, false).0 == Meant(ps) + Word(tail, false).0
    ensures Word(Spelt(ps) + tail, false).1 == Word(tail, false).1
  {
    if ps == [] {
      assert Spelt(ps) + tail == tail;
    } else {
      WordTakesSpelling(ps[1..], tail);
      WordTakesPiece(ps[0], Spelt(ps[1..]) + tail);
      Associates(Ink(ps[0]), Spelt(ps[1..]), tail);
      Associates(ps[0].text, Meant(ps[1..]), Word(tail, false).0);
    }
  }

  lemma {:induction false} BlanksAreSkipped(gap: string, s: string)
    requires AllBlank(gap)
    ensures SkipBlanks(gap + s) == SkipBlanks(s)
  {
    if gap == "" {
      assert gap + s == s;
    } else {
      assert (gap + s)[1..] == gap[1..] + s;
      BlanksAreSkipped(gap[1..], s);
    }
  }

  lemma {:induction false} WordsSkipBlanks(gap: string, s: string, room: nat)
    requires AllBlank(gap)
    ensures Words(gap + s, room) == Words(s, room)
  {
    BlanksAreSkipped(gap, s);
  }

  lemma SpeltStart(ps: seq<Piece>, tail: string)
    requires Spelling(ps)
    ensures var s := Spelt(ps) + tail; s != "" && !Blank(s[0]) && SkipBlanks(s) == s
  {}

  /** The first argument of a written list, and what is left for the others. */
  lemma FirstArg(a: Arg, more: string, room: nat)
    requires Spelling(a.pieces) && AllBlank(a.gap) && (a.gap == "" ==> more == "") && room > 0
    ensures Words(Spelt(a.pieces) + (a.gap + more), room)
         == [Meant(a.pieces)] + Words((if a.gap == "" then "" else a.gap[1..]) + more, room - 1)
  {
    var s := a.gap + more;
    SpeltStart(a.pieces, s);
    WordTakesSpelling(a.pieces, s);
    if a.gap != "" {
      assert s[0] == a.gap[0] && s[1..] == a.gap[1..] + more;
    }
    assert Word(s, false).0 == "";
    assert Meant(a.pieces) + "" == Meant(a.pieces);
    assert Word(s, false).1 == (if a.gap == "" then "" else a.gap[1..]) + more;
  }

  function UpTo(words: seq<string>, room: nat): seq<string> {
    if |words| <= room then words else words[..room]
  }

  lemma FirstMeaning(args: seq<Arg>, room: nat)
    requires args != [] && room > 0
    ensures UpTo(Meanings(args), room) == [Meant(args[0].pieces)] + UpTo(Meanings(args[1..]), room - 1)
  {}

  lemma NoWords(room: nat)
    ensures Words("", room) == []
  {}

  lemma RestIsOk(args: seq<Arg>)
    requires ArgsOk(args) && args != []
    ensures Spelling(args[0].pieces) && AllBlank(args[0].gap)
    ensures args[0].gap == "" ==> |args| == 1
    ensures Written(args) == Spelt(args[0].pieces) + (args[0].gap + Written(args[1..]))
  {
    Associates(Spelt(args[0].pieces), args[0].gap, Written(args[1..]));
  }

  /** Any list of arguments, however each is pieced together from quoted and bare text and
      however many blanks stand around them, tokenizes to what it means, up to the eight
      arguments there is room for. */
  lemma {:induction false} WordsInvertWriting(lead: string, args: seq<Arg>, room: nat)
    requires AllBlank(lead) && ArgsOk(args)
    ensures Words(lead + Written(args), room) == UpTo(Meanings(args), room)
    decreases room
  {
    WordsSkipBlanks(lead, Written(args), room);
    if args == [] || room == 0 {
      NoWords(room);
    } else {
      RestIsOk(args);
      FirstArg(args[0], Written(args[1..]), room);
      WordsInvertWriting(if args[0].gap == "" then "" else args[0].gap[1..], args[1..], room - 1);
      FirstMeaning(args, room);
    }
  }

  /** Arguments each wrapped in double quotes and joined by single blanks. */
  function QuoteAll(args: seq<string>): string {
    if args == [] then ""
    else "\"" + args[0] + "\"" + (if |args| == 1 then "" else " ") + QuoteAll(args[1..])
  }

  function QuotedArgs(args: seq<string>): seq<Arg> {
    seq(|args|, i requires 0 <= i < |args| => Arg([Quoted(args[i])], if i == |args| - 1 then "" else " "))
  }

  lemma {:induction false} QuoteAllIsWritten(args: seq<string>)
    ensures QuoteAll(args) == Written(QuotedArgs(args))
  {
    if args != [] {
      assert QuotedArgs(args)[1..] == QuotedArgs(args[1..]);
      assert Spelt([Quoted(args[0])]) == Ink(Quoted(args[0])) + "" == Ink(Quoted(args[0]));
      QuoteAllIsWritten(args[1..]);
    }
  }

  lemma OneQuoted(text: string)
    requires '"' !in text
    ensures Spelling([Quoted(text)]) && Meant([Quoted(text)]) == text
  {}

  /** As many quote-free arguments as there is room for (the tokenizer has room for eight),
      blanks and empty ones among them, survive quoting and tokenizing. */
  lemma QuotingRoundTrips(args: seq<string>, room: nat)
    requires |args| <= room && forall i :: 0 <= i < |args| ==> '"' !in args[i]
    ensures Words(QuoteAll(args), room) == args
  {
    QuoteAllIsWritten(args);
    QuotedMeanings(args);
    WordsInvertWriting("", QuotedArgs(args), room);
    assert "" + Written(QuotedArgs(args)) == Written(QuotedArgs(args));
  }

  lemma QuotedMeanings(args: seq<string>)
    requires forall i :: 0 <= i < |args| ==> '"' !in args[i]
    ensures ArgsOk(QuotedArgs(args)) && Meanings(QuotedArgs(args)) == args
  {
    var quoted := QuotedArgs(args);
    forall i | 0 <= i < |args| ensures Spelling(quoted[i].pieces) && Meant(quoted[i].pieces) == args[i] {
      OneQuoted(args[i]);
    }
  }
}
