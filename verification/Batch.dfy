/** Batch files on the console: nested execution with a stack of working directories
    (src/cli/commands.c, src/cli/cli.c). */
module Batch {
  import opened Bytes
  import Tokenizer
  import SdPath
  import SdCanonical

  const MAX_DEPTH := 4
  const LINE_MAX := 200
  const FILE_CAP := 129          // of the working directory
  const PATH_CAP := 145          // of a resolved path
  const QNAME_CAP := 258

  /** What the command table says of a word. */
  datatype Lookup = Command(name: string) | Ambiguous | Unknown

  /** Text files hold no NUL. */
  type Text = s: string | '\0' !in s
    witness ""

  /** The card's regular files by path, with their text, and the command table. None of
      them changes while a batch runs. */
  datatype Env = Env(mounted: bool, files: map<string, Text>, lookup: string -> Lookup)

  datatype Event =
    | Enter(path: string, dir: string, parent: string, depth: nat)
    | Echo(text: string)
    | Runs(argv: seq<string>, cwd: string)
    | TooLong | TooDeep | Usage
    | NotFound(name: string) | NoCommand(name: string) | NotUnique(name: string)

  // ---- names ----

  /** qualify. */
  function Qualify(cwd: string, name: string): (r: Option<string>) {
    var q := if cwd != "" then cwd + "/" + name else name;
    if |q| < QNAME_CAP then Some(q) else None
  }

  /** sd_path, as far as the length of its buffer goes. */
  function OnCard(name: string): (r: Option<string>) {
    if SdCanonical.Accepted(name) && |SdPath.MOUNT_POINT| + 1 + |name| < PATH_CAP
    then Some(SdPath.MOUNT_POINT + "/" + name) else None
  }

  predicate HasBat(name: string) {
    |name| >= 4 && SdPath.Fold(name[|name| - 4..]) == ".bat"
  }

  predicate IsFile(env: Env, path: Option<string>) { path.Some? && path.value in env.files }

  /** batch_path: the file meant by a name, as given or with ".bat". */
  function BatchPath(env: Env, cwd: string, name: string): (r: Option<string>)
    ensures r.Some? ==> r.value in env.files
  {
    if !env.mounted || Qualify(cwd, name).None? then None
    else
      var q := Qualify(cwd, name).value;
      if IsFile(env, OnCard(q)) then OnCard(q)
      else if !HasBat(q) && IsFile(env, OnCard(q + ".bat")) then OnCard(q + ".bat")
      else None
  }

  /** batch_dir_of: the folder of a resolved path, relative to the card's root. */
  function DirOf(path: string): (r: string)
    ensures |r| < FILE_CAP
  {
    var prefix := SdPath.MOUNT_POINT + "/";
    var rel := if prefix <= path then path[|prefix|..] else path;
    var slash := SdCanonical.LastSlash(rel);
    var n := if slash >= 0 then slash else 0;
    rel[..if n >= FILE_CAP then FILE_CAP - 1 else n]
  }

  // ---- lines ----

  function Newline(s: string): (i: nat)
    ensures i <= |s| && '\n' !in s[..i] && (i < |s| ==> s[i] == '\n')
  {
    if s == "" || s[0] == '\n' then 0
    else
      var i := Newline(s[1..]);
      assert s[..i + 1] == [s[0]] + s[1..][..i];
      i + 1
  }

  /** The first line when it ends in a newline and fits the buffer, and the text after it. */
  function FirstLine(text: Text): (r: (Option<Text>, Text))
    requires text != ""
    ensures |r.1| < |text|
  {
    var i := Newline(text);
    if i == |text| then (None, "")
    else (if i <= LINE_MAX then Some(text[..i]) else None, text[i + 1..])
  }

  function DropReturns(s: Text): (r: Text) {
    if s != "" && (s[|s| - 1] == '\r' || s[|s| - 1] == '\n') then DropReturns(s[..|s| - 1]) else s
  }

  function Clean(line: Text): (r: Text) {
    SkipKeepsText(DropReturns(line));
    Tokenizer.SkipBlanks(DropReturns(line))
  }

  lemma {:induction false} SkipKeepsText(s: string)
    ensures '\0' !in s ==> '\0' !in Tokenizer.SkipBlanks(s)
  {
    if s != "" && Tokenizer.Blank(s[0]) {
      SkipKeepsText(s[1..]);
    }
  }

  // ---- what a batch does ----

  function Dispatched(env: Env, cwd: string, depth: nat, line: string): (r: seq<Event>)
    requires depth <= MAX_DEPTH
    decreases MAX_DEPTH - depth, 1, 0
  {
    var argv := Tokenizer.Words(line, Tokenizer.MAX_ARGS);
    if argv == [] then []
    else
      match env.lookup(argv[0])
      case Unknown =>
        (match BatchPath(env, cwd, argv[0])
         case Some(path) => Executed(env, cwd, depth, path)
         case None => [NoCommand(argv[0])])
      case Ambiguous => [NotUnique(argv[0])]
      case Command(name) =>
        if name != "exec" then [Runs(argv, cwd)]
        else if |argv| < 2 then [Usage]
        else
          match BatchPath(env, cwd, argv[1])
          case Some(path) => Executed(env, cwd, depth, path)
          case None => [NotFound(argv[1])]
  }

  function Executed(env: Env, cwd: string, depth: nat, path: string): (r: seq<Event>)
    requires depth <= MAX_DEPTH && path in env.files
    decreases MAX_DEPTH - depth, 0, 0
  {
    if depth >= MAX_DEPTH then [TooDeep]
    else [Enter(path, DirOf(path), cwd, depth + 1)] + Ran(env, DirOf(path), depth + 1, env.files[path])
  }

  function Ran(env: Env, cwd: string, depth: nat, text: Text): (r: seq<Event>)
    requires depth <= MAX_DEPTH
    decreases MAX_DEPTH - depth, 2, |text|
  {
    if text == "" then []
    else
      var (line, rest) := FirstLine(text);
      LineDone(env, cwd, depth, line) + Ran(env, cwd, depth, rest)
  }

  function LineDone(env: Env, cwd: string, depth: nat, line: Option<Text>): (r: seq<Event>)
    requires depth <= MAX_DEPTH
    decreases MAX_DEPTH - depth, 1, 1
  {
    if line.None? then [TooLong]
    else
      var p := Clean(line.value);
      if p == "" then []
      else if p[0] == '#' then [Echo(p)]
      else [Echo(p)] + Dispatched(env, cwd, depth, p)
  }

  // ---- the console ----

  class Shell {
    const env: Env
    var cwd: string                // s_batch_cwd: "" = the card's root
    var depth: nat                 // exec_depth
    var out: seq<Event>

    ghost predicate Valid()
      reads this
    {
      |cwd| < FILE_CAP && depth <= MAX_DEPTH
    }

    constructor (env: Env)
      ensures Valid() && this.env == env && cwd == "" && depth == 0 && out == []
    {
      this.env, cwd, depth, out := env, "", 0, [];
    }

    /** cli_dispatch on a line of n characters: whatever batches run within it, the working
        directory and the depth are afterwards what they were, and the transcript has grown
        by what the line means. */
    method Dispatch(line: array<char>, n: nat)
      requires Valid() && n < line.Length && line[n] == '\0' && '\0' !in line[..n]
      modifies this`cwd, this`depth, this`out, line
      ensures Valid() && cwd == old(cwd) && depth == old(depth)
      ensures out == old(out) + Dispatched(env, cwd, depth, old(line[..n]))
      decreases MAX_DEPTH - depth, 1, 0
    {
      ghost var words := Tokenizer.Words(line[..n], Tokenizer.MAX_ARGS);
      var argv := Tokenizer.Tokenize(line, n);
      var args := Arguments(line, argv, words, n + 1);
      if args == [] {
        return;
      }
      match env.lookup(args[0])
      case Unknown =>
        var path := BatchPath(env, cwd, args[0]);
        if path.Some? {
          Execute(path.value);
        } else {
          out := out + [NoCommand(args[0])];
        }
      case Ambiguous => out := out + [NotUnique(args[0])];
      case Command(name) =>
        if name != "exec" {
          out := out + [Runs(args, cwd)];
        } else if |args| < 2 {
          out := out + [Usage];
        } else {
          var path := BatchPath(env, cwd, args[1]);
          if path.Some? {
            Execute(path.value);
          } else {
            out := out + [NotFound(args[1])];
          }
        }
    }

    /** batch_exec_path: the directory and the depth are set for the batch and put back. */
    method Execute(path: string)
      requires Valid() && path in env.files
      modifies this`cwd, this`depth, this`out
      ensures Valid() && cwd == old(cwd) && depth == old(depth)
      ensures out == old(out) + Executed(env, cwd, depth, path)
      decreases MAX_DEPTH - depth, 0, 0
    {
      if depth >= MAX_DEPTH {
        out := out + [TooDeep];
        return;
      }
      var saved := cwd;
      ghost var before := out;
      cwd := DirOf(path);
      depth := depth + 1;
      out := out + [Enter(path, cwd, saved, depth)];
      RunFile(env.files[path]);
      Associates(before, [Enter(path, cwd, saved, depth)], Ran(env, cwd, depth, env.files[path]));
      depth := depth - 1;
      cwd := saved;
    }

    /** run_batch_file: line by line to the end, without the lines that are too long. */
    method RunFile(text: Text)
      requires Valid()
      modifies this`cwd, this`depth, this`out
      ensures Valid() && cwd == old(cwd) && depth == old(depth)
      ensures out == old(out) + Ran(env, cwd, depth, text)
      decreases MAX_DEPTH - depth, 2, |text|
    {
      var rest: Text := text;
      ghost var done: seq<Event> := [];
      assert old(out) + done == old(out);
      while rest != ""
        invariant Valid() && cwd == old(cwd) && depth == old(depth)
        invariant out == old(out) + done && done + Ran(env, cwd, depth, rest) == Ran(env, cwd, depth, text)
        decreases |rest|
      {
        var line: Option<Text>;
        line, rest := ReadLine(rest);
        RunLine(line);
        Associates(done, LineDone(env, cwd, depth, line), Ran(env, cwd, depth, rest));
        Associates(old(out), done, LineDone(env, cwd, depth, line));
        done := done + LineDone(env, cwd, depth, line);
      }
      assert done + [] == done;
    }

    method RunLine(line: Option<Text>)
      requires Valid()
      modifies this`cwd, this`depth, this`out
      ensures Valid() && cwd == old(cwd) && depth == old(depth)
      ensures out == old(out) + LineDone(env, cwd, depth, line)
      decreases MAX_DEPTH - depth, 1, 1
    {
      if line.None? {
        out := out + [TooLong];
        return;
      }
      var p := Clean(line.value);
      if p == "" {
        return;
      }
      out := out + [Echo(p)];
      if p[0] == '#' {
        return;
      }
      ghost var before := out;
      var buf := new char[|p| + 1](i requires 0 <= i => if i < |p| then p[i] else '\0');
      assert buf[..|p|] == p;
      Dispatch(buf, |p|);
      Associates(old(out), [Echo(p)], Dispatched(env, cwd, depth, p));
    }
  }

  /** fgets into a buffer of LINE_MAX + 2, and the loop that drops the rest of a line that
      did not fit. */
  method ReadLine(text: Text) returns (line: Option<Text>, rest: Text)
    requires text != ""
    ensures (line, rest) == FirstLine(text)
  {
    var i := 0;
    while i < |text| && i < LINE_MAX + 1 && (i == 0 || text[i - 1] != '\n')
      invariant 0 <= i <= |text| && i <= LINE_MAX + 1
      invariant i > 0 ==> '\n' !in text[..i - 1]
      decreases |text| - i
    {
      assert i > 0 ==> text[..i] == text[..i - 1] + [text[i - 1]];
      i := i + 1;
    }
    if text[i - 1] == '\n' {
      NewlineIs(text, i - 1);
      return Some(text[..i - 1]), text[i..];
    }
    assert text[..i] == text[..i - 1] + [text[i - 1]];
    while i < |text| && text[i] != '\n'
      invariant 0 <= i <= |text| && '\n' !in text[..i]
      invariant i > LINE_MAX || i == |text|
    {
      assert text[..i + 1] == text[..i] + [text[i]];
      i := i + 1;
    }
    NewlineIs(text, i);
    line, rest := None, if i < |text| then text[i + 1..] else "";
  }

  lemma {:induction false} NewlineIs(s: string, i: nat)
    requires i <= |s| && '\n' !in s[..i] && (i < |s| ==> s[i] == '\n')
    ensures Newline(s) == i
  {}

  /** The arguments as strings, read where argv points. */
  method Arguments(line: array<char>, argv: seq<nat>, ghost words: seq<string>, ghost end: nat) returns (args: seq<string>)
    requires Tokenizer.Laid(line[..], argv, words, end)
    ensures args == words
  {
    args := [];
    for k := 0 to |argv|
      invariant args == words[..k]
    {
      assert Tokenizer.StringAt(line[..], argv[k], words[k]);
      var arg := StringFrom(line, argv[k], words[k]);
      args := args + [arg];
    }
  }

  method StringFrom(mem: array<char>, at: nat, ghost w: string) returns (s: string)
    requires Tokenizer.StringAt(mem[..], at, w)
    ensures s == w
  {
    s := "";
    var i := at;
    forall k | at <= k < at + |w| ensures mem[k] == w[k - at] && w[k - at] in w {
      assert mem[k] == mem[..][at..at + |w|][k - at];
    }
    while mem[i] != '\0'
      invariant at <= i <= at + |w| && s == w[..i - at]
      decreases at + |w| - i
    {
      s := s + [mem[i]];
      i := i + 1;
    }
  }

  // ---- nesting ----

  /** The folder of a resolved path in full, before batch_dir_of cuts it to its buffer. */
  function FullDir(path: string): (r: string) {
    var prefix := SdPath.MOUNT_POINT + "/";
    var rel := if prefix <= path then path[|prefix|..] else path;
    var slash := SdCanonical.LastSlash(rel);
    rel[..if slash >= 0 then slash else 0]
  }

  /** Folder b is folder a or lies under it. */
  predicate Extends(a: string, b: string) { a == "" || b == a || a + "/" <= b }

  lemma {:induction false} LastSlashNotBefore(s: string, i: nat)
    requires i < |s| && s[i] == '/'
    ensures SdCanonical.LastSlash(s) >= i
  {
    if s[|s| - 1] != '/' {
      LastSlashNotBefore(s[..|s| - 1], i);
    }
  }

  lemma DirExtends(cwd: string, rest: string)
    requires cwd != "" && |FullDir(SdPath.MOUNT_POINT + "/" + (cwd + "/" + rest))| < FILE_CAP
    ensures Extends(cwd, DirOf(SdPath.MOUNT_POINT + "/" + (cwd + "/" + rest)))
  {
    var rel := cwd + "/" + rest;
    var path := SdPath.MOUNT_POINT + "/" + rel;
    assert path[|SdPath.MOUNT_POINT + "/"|..] == rel;
    LastSlashNotBefore(rel, |cwd|);
    var slash := SdCanonical.LastSlash(rel);
    assert DirOf(path) == rel[..slash];
    assert slash == |cwd| ==> rel[..slash] == cwd;
    assert slash > |cwd| ==> rel[..slash][..|cwd| + 1] == cwd + "/";
  }

  /** A batch that is named inside a batch, with or without its ".bat", is in the running
      batch's folder or below it. */
  lemma BatchStaysBelow(env: Env, cwd: string, name: string)
    requires BatchPath(env, cwd, name).Some? && |FullDir(BatchPath(env, cwd, name).value)| < FILE_CAP
    ensures Extends(cwd, DirOf(BatchPath(env, cwd, name).value))
  {
    if cwd != "" {
      var path := BatchPath(env, cwd, name).value;
      var q := cwd + "/" + name;
      if path == SdPath.MOUNT_POINT + "/" + q {
        DirExtends(cwd, name);
      } else {
        assert q + ".bat" == cwd + "/" + (name + ".bat");
        DirExtends(cwd, name + ".bat");
      }
    }
  }

  predicate NestedOk(e: Event) {
    e.Enter? ==> 1 <= e.depth <= MAX_DEPTH && (|FullDir(e.path)| < FILE_CAP ==> Extends(e.parent, e.dir))
  }

  predicate AllNested(es: seq<Event>) { forall i :: 0 <= i < |es| ==> NestedOk(es[i]) }

  /** In everything that a line sets off, batches within batches and batches that run
      themselves included, no batch runs more than four deep and each runs in a folder that
      extends the one it was started from. */
  lemma {:induction false} DispatchedNests(env: Env, cwd: string, depth: nat, line: string)
    requires depth <= MAX_DEPTH
    ensures AllNested(Dispatched(env, cwd, depth, line))
    decreases MAX_DEPTH - depth, 1, 0
  {
    var argv := Tokenizer.Words(line, Tokenizer.MAX_ARGS);
    if argv != [] {
      NamedNests(env, cwd, depth, argv[0]);
      if |argv| > 1 {
        NamedNests(env, cwd, depth, argv[1]);
      }
    }
  }

  lemma {:induction false} NamedNests(env: Env, cwd: string, depth: nat, name: string)
    requires depth <= MAX_DEPTH
    ensures BatchPath(env, cwd, name).Some? ==> AllNested(Executed(env, cwd, depth, BatchPath(env, cwd, name).value))
    decreases MAX_DEPTH - depth, 0, 1
  {
    if BatchPath(env, cwd, name).Some? {
      var path := BatchPath(env, cwd, name).value;
      if |FullDir(path)| < FILE_CAP {
        BatchStaysBelow(env, cwd, name);
      }
      if depth < MAX_DEPTH {
        RanNests(env, DirOf(path), depth + 1, env.files[path]);
      }
    }
  }

  lemma {:induction false} RanNests(env: Env, cwd: string, depth: nat, text: Text)
    requires depth <= MAX_DEPTH
    ensures AllNested(Ran(env, cwd, depth, text))
    decreases MAX_DEPTH - depth, 2, |text|
  {
    if text != "" {
      var (line, rest) := FirstLine(text);
      RanNests(env, cwd, depth, rest);
      if line.Some? {
        DispatchedNests(env, cwd, depth, Clean(line.value));
      }
    }
  }
}
