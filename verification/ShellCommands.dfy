/**
 The remote commands of the sandbox client, alone and inside the launcher that a submission stages: what
 the shells read back from them. Texts of fixed helper scripts are parameters, since nothing here depends
 on what they say.
 */
module ShellCommands {
  import opened Options
  import opened ShellWords
  import opened ShellQuote
  import opened StatusScript
  import ShellPieces
  import opened ShellScripts

  /** An environment change: a value, or None for a variable to be removed. */
  type Env = seq<(string, Option<string>)>

  // Commands for the host

  function EnvParts(env: Env): seq<string> {
    if env == [] then []
    else
      (match env[0].1
       case None => ["-u", Quote(env[0].0)]
       case Some(value) => [Quote(env[0].0) + ("=" + Quote(value))]) + EnvParts(env[1..])
  }

  function QuoteAll(args: seq<string>): seq<string> {
    if args == [] then [] else [Quote(args[0])] + QuoteAll(args[1..])
  }

  /** `_remote_command`. */
  function RemoteCommand(args: seq<string>, workdir: Option<string>, env: Env): string {
    Join((if workdir.Some? then ["cd", Quote(workdir.value), "&&"] else [])
      + (if env != [] then ["env"] + EnvParts(env) else [])
      + QuoteAll(args))
  }

  // What the words are meant to be, said without any quoting

  function EnvWords(env: Env): seq<Token> {
    if env == [] then []
    else
      (match env[0].1
       case None => [Literal("-u"), Literal(env[0].0)]
       case Some(value) => [Literal(env[0].0 + "=" + value)]) + EnvWords(env[1..])
  }

  function Words(args: seq<string>): seq<Token> {
    if args == [] then [] else [Literal(args[0])] + Words(args[1..])
  }

  function RemoteWords(args: seq<string>, workdir: Option<string>, env: Env): seq<Token> {
    (if workdir.Some? then [Literal("cd"), Literal(workdir.value), Operator("&&")] else [])
    + (if env != [] then [Literal("env")] + EnvWords(env) else [])
    + Words(args)
  }

  ghost predicate AllYield(parts: seq<string>, expected: seq<Token>) {
    |parts| == |expected| && forall i :: 0 <= i < |parts| ==> Yields(parts[i], expected[i])
  }

  lemma AllYieldAppend(a: seq<string>, x: seq<Token>, b: seq<string>, y: seq<Token>)
    requires AllYield(a, x) && AllYield(b, y)
    ensures AllYield(a + b, x + y)
  {
  }

  lemma {:induction false} QuoteAllYields(args: seq<string>)
    ensures AllYield(QuoteAll(args), Words(args))
    decreases |args|
  {
    if args != [] {
      QuotedYields(args[0]);
      QuoteAllYields(args[1..]);
      AllYieldAppend([Quote(args[0])], [Literal(args[0])], QuoteAll(args[1..]), Words(args[1..]));
    }
  }

  lemma {:induction false} EnvYields(env: Env)
    ensures AllYield(EnvParts(env), EnvWords(env))
    decreases |env|
  {
    if env != [] {
      EnvYields(env[1..]);
      match env[0].1
      case None =>
        SafeYields("-u");
        QuotedYields(env[0].0);
        AllYieldAppend(["-u", Quote(env[0].0)], [Literal("-u"), Literal(env[0].0)], EnvParts(env[1..]), EnvWords(env[1..]));
      case Some(value) =>
        AssignmentYields(env[0].0, value);
        AllYieldAppend([Quote(env[0].0) + ("=" + Quote(value))], [Literal(env[0].0 + "=" + value)],
          EnvParts(env[1..]), EnvWords(env[1..]));
    }
  }

  lemma RemotePartsYield(args: seq<string>, workdir: Option<string>, env: Env)
    ensures AllYield(
      (if workdir.Some? then ["cd", Quote(workdir.value), "&&"] else [])
        + (if env != [] then ["env"] + EnvParts(env) else []) + QuoteAll(args),
      RemoteWords(args, workdir, env))
  {
    var cd := if workdir.Some? then ["cd", Quote(workdir.value), "&&"] else [];
    var cdWords := if workdir.Some? then [Literal("cd"), Literal(workdir.value), Operator("&&")] else [];
    var set_ := if env != [] then ["env"] + EnvParts(env) else [];
    var setWords := if env != [] then [Literal("env")] + EnvWords(env) else [];
    SafeYields("cd");
    SafeYields("env");
    AndYields();
    if workdir.Some? { QuotedYields(workdir.value); }
    EnvYields(env);
    AllYieldAppend(["env"], [Literal("env")], EnvParts(env), EnvWords(env));
    QuoteAllYields(args);
    AllYieldAppend(cd, cdWords, set_, setWords);
    AllYieldAppend(cd + set_, cdWords + setWords, QuoteAll(args), Words(args));
  }

  /**
   For every argv, working directory and environment, the shell reads the built command as exactly the
   intended words: nothing is split, joined, expanded or dropped.
   */
  lemma RemoteCommandWords(args: seq<string>, workdir: Option<string>, env: Env)
    ensures Tokenize(RemoteCommand(args, workdir, env)) == Some(RemoteWords(args, workdir, env))
  {
    var parts := (if workdir.Some? then ["cd", Quote(workdir.value), "&&"] else [])
      + (if env != [] then ["env"] + EnvParts(env) else []) + QuoteAll(args);
    RemotePartsYield(args, workdir, env);
    if parts != [] {
      JoinFeeds(parts, RemoteWords(args, workdir, env), []);
      assert [] + RemoteWords(args, workdir, env) == RemoteWords(args, workdir, env);
    }
  }

  // Commands for the container

  function EnvOptions(env: Env): seq<string> {
    if env == [] then []
    else (if env[0].1.Some? then ["--env", env[0].0 + "=" + env[0].1.value] else []) + EnvOptions(env[1..])
  }

  function Unset(env: Env): seq<string> {
    if env == [] then [] else (if env[0].1.None? then [env[0].0] else []) + Unset(env[1..])
  }

  function UnsetOptions(unset: seq<string>): seq<string> {
    if unset == [] then [] else ["-u", unset[0]] + UnsetOptions(unset[1..])
  }

  const CONTAINER: string := "thunder-sandbox"
  const BUSYBOX: string := "/busybox"

  /** The scripts of a durable container job: the preparation, the session waiter and the inner script. */
  datatype JobScripts = JobScripts(prepare: string, waiter: string, inner: string)

  /** The unquoted parts of `docker exec`. */
  function ContainerParts(
    args: seq<string>, workdir: Option<string>, env: Env, pty: bool, job: Option<JobScripts>, user: Option<string>
  ): seq<string> {
    ["sudo", "--non-interactive", "docker", "exec", "--interactive"]
    + (if pty then ["--tty"] else [])
    + (if user.Some? then ["--user", user.value] else [])
    + (if workdir.Some? then ["--workdir", workdir.value] else [])
    + EnvOptions(env)
    + [CONTAINER]
    + (match job
       case None => if Unset(env) != [] then [BUSYBOX, "env"] + UnsetOptions(Unset(env)) else []
       case Some(scripts) =>
         [BUSYBOX, "sh", "-c", scripts.waiter, "sh", BUSYBOX, "sh", "-c", scripts.inner, "sh"])
    + args
  }

  const PREPARE_PARTS: seq<string> := ["sudo", "--non-interactive", "docker", "exec", "--user", "0"]

  /** The parts in front of a durable job's command; the container's name, its shell and the script are quoted. */
  function Preparation(prepare: string): seq<string> {
    PREPARE_PARTS + (QuoteAll([CONTAINER, BUSYBOX]) + (["sh", "-c"] + (QuoteAll([prepare]) + ["&&"])))
  }

  function PreparationTokens(prepare: string): seq<Token> {
    Words(PREPARE_PARTS) + (Words([CONTAINER, BUSYBOX]) + (Words(["sh", "-c"]) + (Words([prepare]) + [Operator("&&")])))
  }

  /** `_container_remote_command`. */
  function ContainerCommand(
    args: seq<string>, workdir: Option<string>, env: Env, pty: bool, job: Option<JobScripts>, user: Option<string>
  ): string {
    var command := Join(QuoteAll(ContainerParts(args, workdir, env, pty, job, user)));
    match job
    case None => command
    case Some(scripts) =>
      Join(Preparation(scripts.prepare) + [command])
  }

  function ContainerWords(
    args: seq<string>, workdir: Option<string>, env: Env, pty: bool, job: Option<JobScripts>, user: Option<string>
  ): seq<Token> {
    (if job.Some? then PreparationTokens(job.value.prepare) else [])
    + Words(ContainerParts(args, workdir, env, pty, job, user))
  }

  /**
   The container command runs the preparation script and then, after `&&`, exactly the parts: every
   nested script arrives at its `sh -c` byte for byte, and so does every argument.
   */
  lemma ContainerCommandWords(
    args: seq<string>, workdir: Option<string>, env: Env, pty: bool, job: Option<JobScripts>, user: Option<string>
  )
    ensures Tokenize(ContainerCommand(args, workdir, env, pty, job, user)) ==
      Some(ContainerWords(args, workdir, env, pty, job, user))
  {
    var parts := ContainerParts(args, workdir, env, pty, job, user);
    QuoteAllYields(parts);
    match job
    case None =>
      JoinFeeds(QuoteAll(parts), Words(parts), []);
      assert [] + Words(parts) == Words(parts);
    case Some(scripts) =>
      PreparationYields(scripts.prepare);
      PartsFeed(Preparation(scripts.prepare), PreparationTokens(scripts.prepare), Join(QuoteAll(parts)));
      JoinFeeds(QuoteAll(parts), Words(parts), PreparationTokens(scripts.prepare));
  }

  lemma {:induction false} JoinThen(parts: seq<string>, last: string)
    requires parts != []
    ensures Join(parts + [last]) == Join(parts) + (" " + last)
    decreases |parts|
  {
    if |parts| > 1 {
      assert (parts + [last])[1..] == parts[1..] + [last];
      JoinThen(parts[1..], last);
      var a, b, c := parts[0], " " + Join(parts[1..]), " " + last;
      assert a + (b + c) == (a + b) + c;
      assert " " + (Join(parts[1..]) + c) == b + c;
    } else {
      assert (parts + [last])[1..] == [last];
    }
  }

  predicate SafeWord(s: string) {
    s != [] && forall i :: 0 <= i < |s| ==> IsSafe(s[i])
  }

  lemma {:induction false} SafeWordsYield(parts: seq<string>)
    requires forall i :: 0 <= i < |parts| ==> SafeWord(parts[i])
    ensures AllYield(parts, Words(parts))
    decreases |parts|
  {
    if parts != [] {
      SafeYields(parts[0]);
      SafeWordsYield(parts[1..]);
      AllYieldAppend([parts[0]], [Literal(parts[0])], parts[1..], Words(parts[1..]));
      assert [parts[0]] + parts[1..] == parts;
    }
  }

  lemma FiveYield(a: seq<string>, b: seq<string>, c: seq<string>, d: seq<string>, e: seq<string>,
    v: seq<Token>, w: seq<Token>, x: seq<Token>, y: seq<Token>, z: seq<Token>)
    requires AllYield(a, v) && AllYield(b, w) && AllYield(c, x) && AllYield(d, y) && AllYield(e, z)
    ensures AllYield(a + (b + (c + (d + e))), v + (w + (x + (y + z))))
  {
    AllYieldAppend(d, y, e, z);
    AllYieldAppend(c, x, d + e, y + z);
    AllYieldAppend(b, w, c + (d + e), x + (y + z));
    AllYieldAppend(a, v, b + (c + (d + e)), w + (x + (y + z)));
  }

  lemma GroupsYield(fixed: seq<string>, names: seq<string>, shell: seq<string>, scripts: seq<string>)
    requires (forall i :: 0 <= i < |fixed| ==> SafeWord(fixed[i])) && forall i :: 0 <= i < |shell| ==> SafeWord(shell[i])
    ensures AllYield(
      fixed + (QuoteAll(names) + (shell + (QuoteAll(scripts) + ["&&"]))),
      Words(fixed) + (Words(names) + (Words(shell) + (Words(scripts) + [Operator("&&")]))))
  {
    SafeWordsYield(fixed);
    QuoteAllYields(names);
    SafeWordsYield(shell);
    QuoteAllYields(scripts);
    AndYields();
    FiveYield(fixed, QuoteAll(names), shell, QuoteAll(scripts), ["&&"],
      Words(fixed), Words(names), Words(shell), Words(scripts), [Operator("&&")]);
  }

  lemma PreparationYields(prepare: string)
    ensures AllYield(Preparation(prepare), PreparationTokens(prepare))
  {
    assert forall i :: 0 <= i < |PREPARE_PARTS| ==> SafeWord(PREPARE_PARTS[i]);
    GroupsYield(PREPARE_PARTS, [CONTAINER, BUSYBOX], ["sh", "-c"], [prepare]);
  }

  lemma PartsFeed(parts: seq<string>, expected: seq<Token>, command: string)
    requires AllYield(parts, expected) && parts != []
    ensures Feed(START, Join(parts + [command])) == Feed(Lexer(Blank, [], expected), command)
  {
    JoinThen(parts, command);
    JoinFeeds(parts, expected, []);
    assert [] + expected == expected;
    FeedThen(Join(parts), expected, command);
  }

  lemma FeedThen(text: string, expected: seq<Token>, command: string)
    requires Next(Feed(START, text), ' ') == Lexer(Blank, [], expected)
    ensures Feed(START, text + (" " + command)) == Feed(Lexer(Blank, [], expected), command)
  {
    FeedAppend(START, text, " " + command);
    assert (" " + command)[1..] == command;
  }

  // Commands inside the launcher

  lemma RemoteIsCommand(args: seq<string>, workdir: Option<string>, env: Env)
    ensures IsCommand(RemoteCommand(args, workdir, env), RemoteWords(args, workdir, env))
  {
    var parts := (if workdir.Some? then ["cd", Quote(workdir.value), "&&"] else [])
      + (if env != [] then ["env"] + EnvParts(env) else []) + QuoteAll(args);
    var words := RemoteWords(args, workdir, env);
    RemotePartsYield(args, workdir, env);
    if parts == [] {
      assert forall tokens: seq<Token> :: tokens + [] == tokens;
    } else {
      PartsAreCommand(parts, words);
    }
  }

  lemma PartsAreCommand(parts: seq<string>, words: seq<Token>)
    requires parts != [] && AllYield(parts, words)
    ensures IsCommand(Join(parts), words)
  {
    forall tokens: seq<Token>
      ensures Next(Feed(Lexer(Blank, [], tokens), Join(parts)), '\n') == Lexer(Blank, [], tokens + words + [Newline])
    {
      JoinFeeds(parts, words, tokens);
    }
  }

  lemma ContainerIsCommand(
    args: seq<string>, workdir: Option<string>, env: Env, pty: bool, job: Option<JobScripts>, user: Option<string>
  )
    ensures IsCommand(ContainerCommand(args, workdir, env, pty, job, user), ContainerWords(args, workdir, env, pty, job, user))
  {
    var parts := ContainerParts(args, workdir, env, pty, job, user);
    QuoteAllYields(parts);
    match job
    case None =>
      PartsAreCommand(QuoteAll(parts), Words(parts));
      assert [] + Words(parts) == Words(parts);
    case Some(scripts) =>
      PreparationYields(scripts.prepare);
      PreparedIsCommand(Preparation(scripts.prepare), PreparationTokens(scripts.prepare), QuoteAll(parts), Words(parts));
  }

  lemma PreparedIsCommand(first: seq<string>, x: seq<Token>, second: seq<string>, y: seq<Token>)
    requires first != [] && second != [] && AllYield(first, x) && AllYield(second, y)
    ensures IsCommand(Join(first + [Join(second)]), x + y)
  {
    JoinThen(first, Join(second));
    forall tokens: seq<Token>
      ensures Next(Feed(Lexer(Blank, [], tokens), Join(first + [Join(second)])), '\n')
        == Lexer(Blank, [], tokens + (x + y) + [Newline])
    {
      var lexer := Lexer(Blank, [], tokens);
      JoinFeeds(first, x, tokens);
      FeedAppend(lexer, Join(first), " " + Join(second));
      FeedOne(Feed(lexer, Join(first)), ' ', Join(second));
      JoinFeeds(second, y, tokens + x);
      Regroup(tokens, x, y);
    }
  }

  /** What that printf then writes is the text itself. */
  lemma StagedFileIsText(text: string)
    ensures Printf("%s", [text]) == Some(text)
  {
    PrintsNothing();
    PrintsArgument("", text, []);
    assert "%s" + "" == "%s" && [text] + [] == [text] && text + "" == text;
  }

  /**
   What two shells in a row do with a launcher: the submission stages it byte for byte, and the launcher,
   read in turn, has exactly `words` and the end of a line between its own tokens.
   */
  ghost predicate Survives(
    submission: SubmissionPaths, spec: string, prepared: string, paths: LauncherPaths, remarks: Remarks,
    command: string, words: seq<Token>
  ) {
    var launcher := LauncherScript(paths, remarks, command);
    && Tokenize(SubmissionScript(submission, spec, launcher, prepared)) ==
      Some(ShellPieces.Meaning(BeforeLauncher(submission, spec)) + StageTokens(launcher, "/launch.sh")
        + ShellPieces.Meaning(AfterLauncher(submission, prepared)))
    && Printf("%s", [launcher]) == Some(launcher)
    && Tokenize(launcher) ==
      Some(ShellPieces.Meaning(BeforeCommand(paths, remarks)) + (words + [Newline])
        + ShellPieces.Meaning(AfterCommand(paths, remarks)))
  }

  lemma CommandSurvives(
    submission: SubmissionPaths, spec: string, prepared: string, paths: LauncherPaths, remarks: Remarks,
    command: string, words: seq<Token>
  )
    requires IsCommand(command, words)
    ensures Survives(submission, spec, prepared, paths, remarks, command, words)
  {
    var launcher := LauncherScript(paths, remarks, command);
    SubmissionReads(submission, spec, launcher, prepared);
    StagedFileIsText(launcher);
    LauncherReads(paths, remarks, command, words);
  }

  /**
   For every argv, directory, environment, user and script, whether for the host or for a container, and
   for all paths and comments, the launcher that the submission stages runs exactly the intended words.
   */
  lemma ArgvSurvivesTwoShells(
    submission: SubmissionPaths, spec: string, prepared: string, paths: LauncherPaths, remarks: Remarks,
    args: seq<string>, workdir: Option<string>, env: Env, pty: bool, job: Option<JobScripts>, user: Option<string>
  )
    ensures Survives(submission, spec, prepared, paths, remarks, RemoteCommand(args, workdir, env), RemoteWords(args, workdir, env))
    ensures Survives(submission, spec, prepared, paths, remarks, ContainerCommand(args, workdir, env, pty, job, user),
      ContainerWords(args, workdir, env, pty, job, user))
  {
    RemoteIsCommand(args, workdir, env);
    CommandSurvives(submission, spec, prepared, paths, remarks, RemoteCommand(args, workdir, env), RemoteWords(args, workdir, env));
    ContainerIsCommand(args, workdir, env, pty, job, user);
    CommandSurvives(submission, spec, prepared, paths, remarks, ContainerCommand(args, workdir, env, pty, job, user),
      ContainerWords(args, workdir, env, pty, job, user));
  }
}
