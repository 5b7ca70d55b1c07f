/** Batch files as their authors write them, and what the console makes of them
    (src/cli/commands.c, src/cli/cli.c). */
module BatchScripts {
  import Tokenizer
  import SdPath
  import SdCanonical
  import opened Batch
  import opened Bytes

  datatype What = Cmd(argv: seq<string>) | Comment(text: string) | Nothing | Overlong(text: string)

  /** A line with its indentation, ended as on Unix or as on DOS. */
  datatype Item = Item(lead: string, what: What, dos: bool)

  function Body(what: What): string {
    match what
    case Cmd(argv) => Tokenizer.QuoteAll(argv)
    case Comment(text) => "#" + text
    case Nothing => ""
    case Overlong(text) => text
  }

  function LineOf(it: Item): string { it.lead + Body(it.what) + (if it.dos then "\r" else "") }

  /** A file of such lines. */
  function Script(items: seq<Item>): string {
    if items == [] then "" else LineOf(items[0]) + "\n" + Script(items[1..])
  }

  predicate ItemOk(it: Item) {
    && Tokenizer.AllBlank(it.lead) && (it.what.Overlong? <==> |LineOf(it)| > LINE_MAX)
    && '\n' !in Body(it.what) && '\r' !in Body(it.what) && '\0' !in Body(it.what)
    && (it.what.Cmd? ==>
          && 1 <= |it.what.argv| <= Tokenizer.MAX_ARGS
          && forall i :: 0 <= i < |it.what.argv| ==> '"' !in it.what.argv[i])
  }

  predicate ItemsOk(items: seq<Item>) { forall i :: 0 <= i < |items| ==> ItemOk(items[i]) }

  /** Every file on the card is a batch written like that. */
  ghost predicate Library(env: Env, scripts: map<string, seq<Item>>) {
    forall f :: f in env.files ==> f in scripts && ItemsOk(scripts[f]) && env.files[f] == Script(scripts[f])
  }

  // ---- what a script means ----

  /** Every command is shown and then carried out, in order, with the arguments that were
      written; a comment is only shown, an empty line does nothing, and a line that is too
      long is passed over and reported. */
  function Transcript(env: Env, scripts: map<string, seq<Item>>, cwd: string, depth: nat, items: seq<Item>): seq<Event>
    requires depth <= MAX_DEPTH
    decreases MAX_DEPTH - depth, 1, |items|
  {
    if items == [] then []
    else OneLine(env, scripts, cwd, depth, items[0].what) + Transcript(env, scripts, cwd, depth, items[1..])
  }

  function OneLine(env: Env, scripts: map<string, seq<Item>>, cwd: string, depth: nat, what: What): seq<Event>
    requires depth <= MAX_DEPTH
    decreases MAX_DEPTH - depth, 0, 3
  {
    match what
    case Cmd(argv) => [Echo(Tokenizer.QuoteAll(argv))] + (if argv == [] then [] else Answer(env, scripts, cwd, depth, argv))
    case Comment(text) => [Echo("#" + text)]
    case Nothing => []
    case Overlong(_) => [TooLong]
  }

  function Answer(env: Env, scripts: map<string, seq<Item>>, cwd: string, depth: nat, argv: seq<string>): seq<Event>
    requires depth <= MAX_DEPTH && argv != []
    decreases MAX_DEPTH - depth, 0, 2
  {
    match env.lookup(argv[0])
    case Command(name) =>
      if name != "exec" then [Runs(argv, cwd)]
      else if |argv| == 1 then [Usage]
      else Batched(env, scripts, cwd, depth, argv[1], NotFound(argv[1]))
    case Ambiguous => [NotUnique(argv[0])]
    case Unknown => Batched(env, scripts, cwd, depth, argv[0], NoCommand(argv[0]))
  }

  function Batched(env: Env, scripts: map<string, seq<Item>>, cwd: string, depth: nat, name: string, missing: Event): seq<Event>
    requires depth <= MAX_DEPTH
    decreases MAX_DEPTH - depth, 0, 1
  {
    var path := BatchPath(env, cwd, name);
    if path.None? then [missing] else Entered(env, scripts, cwd, depth, path.value)
  }

  /** A batch is run in its own folder, one deeper, unless that is too deep. */
  function Entered(env: Env, scripts: map<string, seq<Item>>, cwd: string, depth: nat, path: string): seq<Event>
    requires depth <= MAX_DEPTH
    decreases MAX_DEPTH - depth, 0, 0
  {
    if depth == MAX_DEPTH || path !in scripts then [TooDeep]
    else [Enter(path, DirOf(path), cwd, depth + 1)] + Transcript(env, scripts, DirOf(path), depth + 1, scripts[path])
  }

  // ---- one line ----

  lemma {:induction false} LineEnds(line: string, rest: string)
    requires '\n' !in line
    ensures Newline(line + "\n" + rest) == |line|
  {
    var s := line + "\n" + rest;
    if line != "" {
      assert s[1..] == line[1..] + "\n" + rest;
      LineEnds(line[1..], rest);
    }
  }

  lemma BlanksAreText(lead: string)
    requires Tokenizer.AllBlank(lead)
    ensures '\n' !in lead && '\r' !in lead && '\0' !in lead
  {}

  lemma LineIsText(it: Item)
    requires ItemOk(it)
    ensures '\n' !in LineOf(it) && '\0' !in LineOf(it)
  {
    BlanksAreText(it.lead);
  }

  lemma FirstIsLine(it: Item, rest: Text)
    requires ItemOk(it)
    ensures '\0' !in LineOf(it) && '\0' !in LineOf(it) + "\n" + rest
    ensures FirstLine(LineOf(it) + "\n" + rest) == (if it.what.Overlong? then None else Some(LineOf(it)), rest)
  {
    LineIsText(it);
    LineEnds(LineOf(it), rest);
    var s := LineOf(it) + "\n" + rest;
    assert s[..|LineOf(it)|] == LineOf(it) && s[|LineOf(it)| + 1..] == rest;
  }

  lemma {:induction false} SkipsLead(lead: string, body: string)
    requires Tokenizer.AllBlank(lead) && (body != "" ==> !Tokenizer.Blank(body[0]))
    ensures Tokenizer.SkipBlanks(lead + body) == body
  {
    if lead == "" {
      assert lead + body == body;
    } else {
      assert (lead + body)[1..] == lead[1..] + body;
      SkipsLead(lead[1..], body);
    }
  }

  lemma DropsReturn(s: Text)
    requires '\r' !in s && '\n' !in s
    ensures DropReturns(s) == s && DropReturns(s + "\r") == s
  {
    assert (s + "\r")[..|s|] == s;
  }

  lemma CleanIsBody(it: Item)
    requires ItemOk(it) && !it.what.Overlong?
    ensures '\0' !in LineOf(it) && Clean(LineOf(it)) == Body(it.what)
  {
    LineIsText(it);
    BlanksAreText(it.lead);
    var s := it.lead + Body(it.what);
    DropsReturn(s);
    assert s + "" == s;
    SkipsLead(it.lead, Body(it.what));
  }

  // ---- whole scripts ----

  lemma {:induction false} ScriptIsText(items: seq<Item>)
    requires ItemsOk(items)
    ensures '\0' !in Script(items)
  {
    if items != [] {
      LineIsText(items[0]);
      ScriptIsText(items[1..]);
    }
  }

  /** However lines are indented and ended, and however batches call each other, a script
      does what it means. */
  lemma {:induction false} ScriptsDoWhatTheyMean(env: Env, scripts: map<string, seq<Item>>, cwd: string, depth: nat, items: seq<Item>)
    requires depth <= MAX_DEPTH && Library(env, scripts) && ItemsOk(items)
    ensures '\0' !in Script(items) && Ran(env, cwd, depth, Script(items)) == Transcript(env, scripts, cwd, depth, items)
    decreases MAX_DEPTH - depth, 1, |items|
  {
    ScriptIsText(items);
    if items != [] {
      var (it, rest) := (items[0], items[1..]);
      ScriptIsText(rest);
      FirstIsLine(it, Script(rest));
      ScriptsDoWhatTheyMean(env, scripts, cwd, depth, rest);
      if !it.what.Overlong? {
        LineDoesWhatItMeans(env, scripts, cwd, depth, it);
      }
    }
  }

  lemma {:induction false} LineDoesWhatItMeans(env: Env, scripts: map<string, seq<Item>>, cwd: string, depth: nat, it: Item)
    requires depth <= MAX_DEPTH && Library(env, scripts) && ItemOk(it) && !it.what.Overlong?
    ensures '\0' !in LineOf(it) && LineDone(env, cwd, depth, Some(LineOf(it))) == OneLine(env, scripts, cwd, depth, it.what)
    decreases MAX_DEPTH - depth, 0, 3
  {
    CleanIsBody(it);
    if it.what.Cmd? {
      CommandDoesWhatItMeans(env, scripts, cwd, depth, it.what.argv);
    }
  }

  /** What a name that is to be a batch's does. */
  function Started(env: Env, cwd: string, depth: nat, path: Option<string>, missing: Event): seq<Event>
    requires depth <= MAX_DEPTH && (path.Some? ==> path.value in env.files)
  {
    if path.None? then [missing] else Executed(env, cwd, depth, path.value)
  }

  lemma UnknownStarts(env: Env, cwd: string, depth: nat, line: string, argv: seq<string>)
    requires depth <= MAX_DEPTH && argv == Tokenizer.Words(line, Tokenizer.MAX_ARGS) && argv != [] && env.lookup(argv[0]).Unknown?
    ensures Dispatched(env, cwd, depth, line) == Started(env, cwd, depth, BatchPath(env, cwd, argv[0]), NoCommand(argv[0]))
  {}

  lemma ExecStarts(env: Env, cwd: string, depth: nat, line: string, argv: seq<string>)
    requires depth <= MAX_DEPTH && argv == Tokenizer.Words(line, Tokenizer.MAX_ARGS) && |argv| > 1 && env.lookup(argv[0]) == Command("exec")
    ensures Dispatched(env, cwd, depth, line) == Started(env, cwd, depth, BatchPath(env, cwd, argv[1]), NotFound(argv[1]))
  {}

  lemma PlainAnswers(env: Env, scripts: map<string, seq<Item>>, cwd: string, depth: nat, line: string, argv: seq<string>)
    requires depth <= MAX_DEPTH && argv == Tokenizer.Words(line, Tokenizer.MAX_ARGS) && argv != []
    requires var l := env.lookup(argv[0]); l.Ambiguous? || (l.Command? && (l.name != "exec" || |argv| == 1))
    ensures Dispatched(env, cwd, depth, line) == Answer(env, scripts, cwd, depth, argv)
  {}

  lemma {:induction false} CommandDoesWhatItMeans(env: Env, scripts: map<string, seq<Item>>, cwd: string, depth: nat, argv: seq<string>)
    requires depth <= MAX_DEPTH && Library(env, scripts) && 1 <= |argv| <= Tokenizer.MAX_ARGS
    requires forall i :: 0 <= i < |argv| ==> '"' !in argv[i]
    ensures Dispatched(env, cwd, depth, Tokenizer.QuoteAll(argv)) == Answer(env, scripts, cwd, depth, argv)
    decreases MAX_DEPTH - depth, 0, 2
  {
    var line := Tokenizer.QuoteAll(argv);
    Tokenizer.QuotingRoundTrips(argv, Tokenizer.MAX_ARGS);
    var found := env.lookup(argv[0]);
    if found.Unknown? {
      UnknownStarts(env, cwd, depth, line, argv);
      NameDoesWhatItMeans(env, scripts, cwd, depth, argv[0], NoCommand(argv[0]));
    } else if found == Command("exec") && |argv| > 1 {
      ExecStarts(env, cwd, depth, line, argv);
      NameDoesWhatItMeans(env, scripts, cwd, depth, argv[1], NotFound(argv[1]));
    } else {
      PlainAnswers(env, scripts, cwd, depth, line, argv);
    }
  }

  lemma {:induction false} NameDoesWhatItMeans(env: Env, scripts: map<string, seq<Item>>, cwd: string, depth: nat, name: string, missing: Event)
    requires depth <= MAX_DEPTH && Library(env, scripts)
    ensures Batched(env, scripts, cwd, depth, name, missing) == Started(env, cwd, depth, BatchPath(env, cwd, name), missing)
    decreases MAX_DEPTH - depth, 0, 1
  {
    if BatchPath(env, cwd, name).Some? {
      FileDoesWhatItMeans(env, scripts, cwd, depth, BatchPath(env, cwd, name).value);
    }
  }

  lemma {:induction false} FileDoesWhatItMeans(env: Env, scripts: map<string, seq<Item>>, cwd: string, depth: nat, path: string)
    requires depth <= MAX_DEPTH && Library(env, scripts) && path in env.files
    ensures Entered(env, scripts, cwd, depth, path) == Executed(env, cwd, depth, path)
    decreases MAX_DEPTH - depth, 0, 0
  {
    if depth < MAX_DEPTH {
      ScriptsDoWhatTheyMean(env, scripts, DirOf(path), depth + 1, scripts[path]);
      SameAfterEntry(env, scripts, cwd, depth, path, env.files[path]);
    }
  }

  lemma SameAfterEntry(env: Env, scripts: map<string, seq<Item>>, cwd: string, depth: nat, path: string, text: Text)
    requires depth < MAX_DEPTH && path in env.files && env.files[path] == text && path in scripts
    requires Ran(env, DirOf(path), depth + 1, text) == Transcript(env, scripts, DirOf(path), depth + 1, scripts[path])
    ensures Entered(env, scripts, cwd, depth, path) == Executed(env, cwd, depth, path)
  {}

  // ---- folders and names ----

  /** The folder of a resolved path is all of it between the card's root and the last name. */
  lemma FolderOfPath(dir: string, base: string)
    requires '/' !in base
    ensures FullDir(SdPath.MOUNT_POINT + "/" + base) == ""
    ensures FullDir(SdPath.MOUNT_POINT + "/" + (dir + "/" + base)) == dir
  {
    var prefix := SdPath.MOUNT_POINT + "/";
    assert (prefix + base)[|prefix|..] == base;
    NoSlash(base);
    var rel := dir + "/" + base;
    assert (prefix + rel)[|prefix|..] == rel;
    SdCanonical.LastSlashOf(dir, base);
    assert rel[..|dir|] == dir;
  }

  lemma {:induction false} NoSlash(base: string)
    requires '/' !in base
    ensures SdCanonical.LastSlash(base) == -1
  {
    if base != "" {
      NoSlash(base[..|base| - 1]);
    }
  }

  /** A file of the very name wins over one with ".bat" after it, and without either, or
      without a card, there is no batch. */
  lemma NamedFileWins(env: Env, cwd: string, name: string, q: string)
    requires q == if cwd == "" then name else cwd + "/" + name
    ensures env.mounted && |q| < QNAME_CAP && IsFile(env, OnCard(q)) ==> BatchPath(env, cwd, name) == OnCard(q)
    ensures BatchPath(env, cwd, name).None? <==>
              || !env.mounted || |q| >= QNAME_CAP
              || (!IsFile(env, OnCard(q)) && (HasBat(q) || !IsFile(env, OnCard(q + ".bat"))))
  {}
}
