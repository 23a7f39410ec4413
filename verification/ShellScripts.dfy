/** The launcher a submission stages, and the submission, line by line. */
module ShellScripts {
  import opened Options
  import opened Jobs
  import opened StatusScript
  import opened ShellWords
  import opened ShellPieces

  /** What the launcher's text depends on besides the command. */
  datatype LauncherPaths = LauncherPaths(
    job: string, status: string, runLock: string, supervisorPid: string, terminationRequest: string,
    captureStdout: bool, captureStderr: bool)

  /** The launcher's comments, line by line, whatever they say. */
  datatype Remarks = Remarks(
    zombie: seq<Remark>, trap: seq<Remark>, child: seq<Remark>, running: seq<Remark>, drain: seq<Remark>)

  function Notes(indent: nat, remarks: seq<Remark>): seq<Line> {
    if remarks == [] then [] else [Note(indent, remarks[0])] + Notes(indent, remarks[1..])
  }

  // Launcher

  function Preamble(paths: LauncherPaths): seq<Line> {
    [ Note(0, "!/bin/sh"),
      Code(0, [Words(["set", "-u"])], Eol),
      Code(0, [Words(["umask", "077"])], Eol),
      Code(0, [Words(["job="]), Quoted(paths.job)], Eol),
      Code(0, [Words(["status="]), Quoted(paths.status)], Eol) ]
  }

  /** The run lock. */
  function RunLock(paths: LauncherPaths): seq<Line> {
    [ Code(0, [Words(["exec", "8"]), Into(ToQuoted(paths.runLock))], Eol),
      Code(0, [Words(["if", "!", "flock", "-n", "8"]), OpGap(";"), Words(["then"])], Eol),
      Code(4, [Words(["exit", "0"])], Eol),
      Code(0, [Words(["fi"])], Eol) ]
  }

  /** The test for PREPARED. */
  function PreparedTest(): seq<Line> {
    [ Code(0, [Words(["if", "!", "grep", "-Eq"]), Gap(1), Quoted(StatePattern([Prepared])), Gap(1), Expanded([Var("status")]),
        OpGap(";"), Words(["then"])], Eol),
      Code(4, [Words(["exit", "0"])], Eol),
      Code(0, [Words(["fi"])], Eol),
      Code(0, [], Eol) ]
  }

  function WriteStatusOpening(): seq<Line> {
    [ Code(0, [Words(["write_status"]), CallGap, Words(["{"])], Eol),
      Code(4, [Words(["state="]), Param('1')], Eol),
      Code(4, [Words(["code="]), Param('2')], Eol),
      Code(4, [Words(["temporary="]), Expanded([Var("job"), Text("/.status."), Special('$')])], Eol),
      Code(4, [Words(["case"]), Gap(1), Expanded([Var("state")]), Gap(1), Words(["in"])], Eol) ]
  }

  /** The format a state's line prints with: two states have a fixed code, FAILED takes it as an argument. */
  function StatusFormat(state: JobState): string {
    PrintfFormat(
      state, if state == Succeeded then Some(0) else if state == Terminated then Some(143) else None, state == Failed)
  }

  function StatusCase(name: Bare, state: JobState): Line {
    Code(8, [Words([name]), OpGap(")"), Words(["printf"]), Gap(1), Quoted(StatusFormat(state)), Gap(1), Expanded([Special('$')])]
      + (if state == Failed then [Gap(1), Expanded([Var("code")])] else [])
      + [Gap(1), Into(ToExpanded([Var("temporary")])), Gap(1)], OpEol(";;"))
  }

  const STATUS_NAMES: seq<(Bare, JobState)> := [
    ("starting", Starting), ("running", Running), ("succeeded", Succeeded), ("failed", Failed), ("terminated", Terminated)]

  function StatusCases(names: seq<(Bare, JobState)>): seq<Line> {
    if names == [] then [] else [StatusCase(names[0].0, names[0].1)] + StatusCases(names[1..])
  }

  function WriteStatusClosing(): seq<Line> {
    [ Code(8, [Words(["*"]), OpGap(")"), Words(["exit", "64"]), Gap(1)], OpEol(";;")),
      Code(4, [Words(["esac"])], Eol),
      Code(4, [Words(["mv", "-f", "--"]), Gap(1), Expanded([Var("temporary")]), Gap(1), Expanded([Var("status")])], Eol),
      Code(0, [Words(["}"])], Eol),
      Code(0, [], Eol) ]
  }

  /** The scan of the process table. */
  function ScanOpening(): seq<Line> {
    [ Code(0, [Words(["payload_group_running"]), CallGap, Words(["{"])], Eol),
      Code(4, [Words(["for", "process_stat", "in", "/proc/[0-9]*/stat"]), OpGap(";"), Words(["do"])], Eol) ]
  }

  function ReadRecord(): seq<Line> {
    [ Code(8, [Words(["[", "-r"]), Gap(1), Expanded([Var("process_stat")]), Gap(1), Words(["]"]), Gap(1), OpGap("||"),
        Words(["continue"])], Eol),
      Code(8, [Words(["IFS=", "read", "-r", "process_record"]), Gap(1), From(ToExpanded([Var("process_stat")])), Gap(1),
        OpGap("||"), Words(["continue"])], Eol) ]
  }

  function SplitRecord(): seq<Line> {
    [ Code(8, [Words(["process_pid="]), Braces("process_record%% *")], Eol),
      Code(8, [Words(["process_fields="]), Braces("process_record##*) ")], Eol),
      Code(8, [Words(["set", "--"]), Gap(1)], VarEol("process_fields")) ]
  }

  /** `[ "$process_pid" != "$$" ]`, `[ "${1:-}" != "Z" ]` and `[ "${3:-}" = "$$" ]`. */
  function OtherProcess(): seq<Part> {
    [Words(["["]), Gap(1), Expanded([Var("process_pid")]), Gap(1), Words(["!="]), Gap(1), Expanded([Special('$')]), Gap(1),
     Words(["]"])]
  }

  function NoZombie(): seq<Part> {
    [Words(["["]), Gap(1), Expanded([Brace("1:-")]), Gap(1), Words(["!="]), Gap(1), Fixed("Z"), Gap(1), Words(["]"])]
  }

  function SameGroup(): seq<Part> {
    [Words(["["]), Gap(1), Expanded([Brace("3:-")]), Gap(1), Words(["="]), Gap(1), Expanded([Special('$')]), Gap(1),
     Words(["]"])]
  }

  /** Another process that is no zombie and belongs to the group. */
  function MemberTest(): seq<Line> {
    [ Code(8, [Words(["if"]), Gap(1)] + OtherProcess() + [Gap(13), OpGap("&&")] + NoZombie() + [Gap(13), OpGap("&&")]
        + SameGroup() + [OpGap(";"), Words(["then"])], Eol) ]
  }

  function ScanClosing(): seq<Line> {
    [ Code(12, [Words(["return", "0"])], Eol),
      Code(8, [Words(["fi"])], Eol),
      Code(4, [Words(["done"])], Eol),
      Code(4, [Words(["return", "1"])], Eol),
      Code(0, [Words(["}"])], Eol),
      Code(0, [], Eol) ]
  }

  /** The supervisor's pid file. */
  function RecordPid(paths: LauncherPaths): seq<Line> {
    [ Code(0, [Words(["pid_temporary="]), Expanded([Var("job"), Text("/.supervisor.pid."), Special('$')])], Eol),
      Code(0, [Words(["printf"]), Gap(1), Verbatim("%s\n"), Gap(1), Expanded([Special('$')]), Gap(1),
        Into(ToExpanded([Var("pid_temporary")]))], Eol),
      Code(0, [Words(["mv", "-f", "--"]), Gap(1), Expanded([Var("pid_temporary")]), Gap(1), Quoted(paths.supervisorPid)], Eol) ]
  }

  /** The trap and STARTING. */
  function Announcement(): seq<Line> {
    [ Code(0, [Words(["trap"]), Gap(1), Verbatim(":"), Gap(1), Words(["HUP", "INT", "TERM"])], Eol),
      Code(0, [Words(["write_status", "starting", "null"])], Eol),
      Code(0, [Words(["set", "+e"])], Eol) ]
  }

  function ChildOpening(): seq<Line> {
    [Code(0, [], OpEol("("))]
  }

  /** The child's own test, up to where the command stands. */
  function ChildTest(paths: LauncherPaths): seq<Line> {
    [ Code(4, [Words(["if", "[", "-f"]), Gap(1), Quoted(paths.terminationRequest), Gap(1), Words(["]"]), OpGap(";"),
        Words(["then"])], Eol),
      Code(8, [Words(["exit", "143"])], Eol),
      Code(4, [Words(["fi"])], Eol) ]
  }

  function Output(capture: bool, file: AfterName): Part {
    Into(if capture then ToExpanded([Var("job"), Text(file)]) else ToBare("/dev/null"))
  }

  /** The child's redirections, its pid and RUNNING. */
  function ChildRuns(paths: LauncherPaths): seq<Line> {
    [ Code(0, [OpGap(")"), From(ToBare("/dev/null")), Gap(1), Output(paths.captureStdout, "/stdout"), Gap(1), Words(["2"]),
        Output(paths.captureStderr, "/stderr"), Gap(1)], OpEol("&")),
      Code(0, [Words(["payload_pid="]), Param('!')], Eol) ]
  }

  function PublishRunning(): seq<Line> {
    [Code(0, [Words(["write_status", "running", "null"])], Eol)]
  }

  function WaitLoop(): seq<Line> {
    [ Code(0, [Words(["while", ":"]), OpGap(";"), Words(["do"])], Eol),
      Code(4, [Words(["wait"]), Gap(1), Expanded([Var("payload_pid")])], Eol),
      Code(4, [Words(["code="]), Param('?')], Eol),
      Code(4, [Words(["if", "kill", "-0"]), Gap(1), Expanded([Var("payload_pid")]), Gap(1), Words(["2"]),
        Into(ToBare("/dev/null")), OpGap(";"), Words(["then"])], Eol) ]
  }

  function WaitOver(): seq<Line> {
    [ Code(8, [Words(["continue"])], Eol),
      Code(4, [Words(["fi"])], Eol),
      Code(4, [Words(["break"])], Eol),
      Code(0, [Words(["done"])], Eol),
      Code(0, [Words(["set", "-e"])], Eol),
      Code(0, [Words(["trap", "-", "HUP", "INT", "TERM"])], Eol) ]
  }

  function RequestTest(paths: LauncherPaths): seq<Line> {
    [ Code(0, [Words(["if", "[", "-f"]), Gap(1), Quoted(paths.terminationRequest), Gap(1), Words(["]"]), OpGap(";"),
        Words(["then"])], Eol) ]
  }

  function Drain(): seq<Line> {
    [ Code(4, [Words(["while", "payload_group_running"]), OpGap(";"), Words(["do"])], Eol),
      Code(8, [Words(["sleep", "0.05"])], Eol),
      Code(4, [Words(["done"])], Eol),
      Code(4, [Words(["write_status", "terminated", "143"])], Eol) ]
  }

  function ByCode(): seq<Line> {
    [ Code(0, [Words(["elif", "["]), Gap(1), Expanded([Var("code")]), Gap(1), Words(["-eq", "0", "]"]), OpGap(";"),
        Words(["then"])], Eol),
      Code(4, [Words(["write_status", "succeeded"]), Gap(1), Expanded([Var("code")])], Eol),
      Code(0, [Words(["else"])], Eol) ]
  }

  function Otherwise(): seq<Line> {
    [ Code(4, [Words(["write_status", "failed"]), Gap(1), Expanded([Var("code")])], Eol),
      Code(0, [Words(["fi"])], Eol),
      Code(0, [Words(["exit", "0"])], Eol) ]
  }

  function BeforeCommand(paths: LauncherPaths, remarks: Remarks): seq<Line> {
    Preamble(paths) + RunLock(paths) + PreparedTest()
    + WriteStatusOpening() + StatusCases(STATUS_NAMES) + WriteStatusClosing()
    + ScanOpening() + ReadRecord() + SplitRecord() + Notes(8, remarks.zombie) + MemberTest() + ScanClosing()
    + RecordPid(paths) + Notes(0, remarks.trap) + Announcement()
    + ChildOpening() + Notes(4, remarks.child) + ChildTest(paths)
  }

  function AfterCommand(paths: LauncherPaths, remarks: Remarks): seq<Line> {
    ChildRuns(paths) + Notes(0, remarks.running) + PublishRunning() + WaitLoop() + WaitOver()
    + RequestTest(paths) + Notes(4, remarks.drain) + Drain() + ByCode() + Otherwise()
  }

  function CommandLine(command: string): string {
    Blanks(4) + (command + "\n")
  }

  /** `launcher_script`. */
  function LauncherScript(paths: LauncherPaths, remarks: Remarks, command: string): string {
    Render(BeforeCommand(paths, remarks)) + (CommandLine(command) + Render(AfterCommand(paths, remarks)))
  }

  // Submission

  /** What the submission's text depends on besides its three files. */
  datatype SubmissionPaths = SubmissionPaths(root: string, job: string, stage: string, submissionLock: string, status: string)

  /** The line that writes one staged file. */
  function StageLine(text: string, file: AfterName): Line {
    Code(0, [Words(["printf"]), Gap(1), Verbatim("%s"), Gap(1), Quoted(text), Gap(1),
      Into(ToExpanded([Var("stage"), Text(file)]))], Eol)
  }

  function SubmissionPreamble(paths: SubmissionPaths): seq<Line> {
    [ Code(0, [Words(["set", "-eu"])], Eol),
      Code(0, [Words(["umask", "077"])], Eol),
      Code(0, [Words(["root="]), Quoted(paths.root)], Eol),
      Code(0, [Words(["job="]), Quoted(paths.job)], Eol),
      Code(0, [Words(["stage="]), Quoted(paths.stage)], Eol) ]
  }

  function CleanupTrap(): seq<Line> {
    [ Code(0, [Words(["cleanup"]), CallGap, Words(["{", "rm", "-rf", "--"]), Gap(1), Expanded([Var("stage")]), OpGap(";"),
        Words(["}"])], Eol),
      Code(0, [Words(["trap", "cleanup", "EXIT", "HUP", "INT", "TERM"])], Eol) ]
  }

  function MakeStage(): seq<Line> {
    [ Code(0, [Words(["mkdir", "-p", "--"]), Gap(1), Expanded([Var("root")])], Eol),
      Code(0, [Words(["chmod", "700", "--"]), Gap(1), Expanded([Var("root")])], Eol),
      Code(0, [Words(["mkdir", "--"]), Gap(1), Expanded([Var("stage")])], Eol) ]
  }

  function InVariable(name: Name, file: AfterName): seq<Inner> {
    [Var(name), Text(file)]
  }

  function StageOutputs(): seq<Line> {
    [ Code(0, [Words(["chmod", "700", "--"]), Gap(1), Expanded([Var("stage")]), Gap(1),
        Expanded(InVariable("stage", "/launch.sh"))], Eol),
      Code(0, [Words([":"]), Gap(1), Into(ToExpanded(InVariable("stage", "/stdout")))], Eol),
      Code(0, [Words([":"]), Gap(1), Into(ToExpanded(InVariable("stage", "/stderr")))], Eol),
      Code(0, [Words([":"]), Gap(1), Into(ToExpanded(InVariable("stage", "/launcher.stderr")))], Eol) ]
  }

  /** The move that publishes the stage. */
  function PublishStage(): seq<Line> {
    [ Code(0, [Words(["if", "mv", "-T", "--"]), Gap(1), Expanded([Var("stage")]), Gap(1), Expanded([Var("job")]), Gap(1),
        Words(["2"]), Into(ToBare("/dev/null")), OpGap(";"), Words(["then"])], Eol),
      Code(4, [Words([":"])], Eol),
      Code(0, [Words(["else"])], Eol) ]
  }

  function CompareLine(file: AfterName): Line {
    Code(4, [Words(["cmp", "-s", "--"]), Gap(1), Expanded(InVariable("stage", file)), Gap(1),
      Expanded(InVariable("job", file))], Eol)
  }

  /** The comparison with a directory published before. */
  function Comparison(): seq<Line> {
    [ CompareLine("/spec.json"), CompareLine("/launch.sh"), Code(0, [Words(["fi"])], Eol) ]
  }

  function CommandTest(indent: nat, name: Bare): Line {
    Code(indent, [Words(["command", "-v", name]), Gap(1), Into(ToBare("/dev/null"))], Eol)
  }

  /** A message on standard error. */
  function Message(indent: nat, text: string): Line {
    Code(indent, [Words(["echo"]), Gap(1), Quoted(text), Gap(1), Onto(ToBare("2"))], Eol)
  }

  function SubmissionLock(paths: SubmissionPaths): seq<Line> {
    [ CommandTest(0, "flock"),
      Code(0, [Words(["exec", "9"]), Into(ToQuoted(paths.submissionLock))], Eol),
      Code(0, [Words(["if", "!", "flock", "-w", "15", "9"]), OpGap(";"), Words(["then"])], Eol) ]
    + [ Message(4, "durable job submission lock timed out"),
        Code(4, [Words(["exit", "70"])], Eol),
        Code(0, [Words(["fi"])], Eol) ]
  }

  function StartLauncherOpening(): seq<Line> {
    [ Code(0, [Words(["start_launcher"]), CallGap, Words(["{"])], Eol),
      CommandTest(4, "nohup"),
      CommandTest(4, "setsid") ]
  }

  function StartLauncher(): seq<Line> {
    [ Code(4, [Words(["nohup", "setsid", "sh"]), Gap(1), Expanded(InVariable("job", "/launch.sh")), Gap(1)]
        + [From(ToBare("/dev/null")), Gap(1), Into(ToBare("/dev/null")), Gap(1), Words(["2"]),
           Into(ToExpanded(InVariable("job", "/launcher.stderr"))), Gap(1)], OpEol("&")),
      Code(0, [Words(["}"])], Eol),
      Code(0, [], Eol) ]
  }

  /** A test whether the status is PREPARED, after the words `head` and before the word `body`. */
  function StatusTest(indent: nat, head: BareList, status: string, body: Bare): Line {
    Code(indent, [Words(head), Gap(1), Words(["grep", "-Eq"]), Gap(1), Quoted(StatePattern([Prepared])), Gap(1), Quoted(status),
      OpGap(";"), Words([body])], Eol)
  }

  function RoundsBegin(paths: SubmissionPaths): seq<Line> {
    [ Code(0, [Words(["launch_round=0"])], Eol),
      StatusTest(0, ["while"], paths.status, "do"),
      Code(4, [Words(["start_launcher"])], Eol),
      Code(4, [Words(["attempt=0"])], Eol) ]
  }

  /** Up to a hundred looks at the status. */
  function Attempts(paths: SubmissionPaths): seq<Line> {
    [ StatusTest(4, ["while"], paths.status, "do"),
      Code(8, [Words(["if", "["]), Gap(1), Expanded([Var("attempt")]), Gap(1), Words(["-ge", "100", "]"]), OpGap(";"),
        Words(["then"])], Eol),
      Code(12, [Words(["break"])], Eol),
      Code(8, [Words(["fi"])], Eol) ]
  }

  function NextAttempt(): seq<Line> {
    [ Code(8, [Words(["attempt="]), Sum("attempt + 1")], Eol),
      Code(8, [Words(["sleep", "0.05"])], Eol),
      Code(4, [Words(["done"])], Eol) ]
  }

  function RoundTest(paths: SubmissionPaths): seq<Line> {
    [ StatusTest(4, ["if", "!"], paths.status, "then"),
      Code(8, [Words(["break"])], Eol),
      Code(4, [Words(["fi"])], Eol) ]
  }

  function Unacknowledged(): Line {
    Message(8, "durable job launcher did not acknowledge execution")
  }

  function LastRoundTest(): Line {
    Code(4, [Words(["if", "["]), Gap(1), Expanded([Var("launch_round")]), Gap(1), Words(["-ge", "1", "]"]), OpGap(";"),
      Words(["then"])], Eol)
  }

  function LastRound(): seq<Line> {
    [ LastRoundTest(),
      Unacknowledged(),
      Code(8, [Words(["exit", "70"])], Eol),
      Code(4, [Words(["fi"])], Eol) ]
  }

  function NextRound(paths: SubmissionPaths): seq<Line> {
    [ Code(4, [Words(["launch_round="]), Sum("launch_round + 1")], Eol),
      Code(0, [Words(["done"])], Eol),
      Code(0, [Words(["cat", "--"]), Gap(1), Quoted(paths.status)], Eol) ]
  }

  function BeforeLauncher(paths: SubmissionPaths, spec: string): seq<Line> {
    SubmissionPreamble(paths) + CleanupTrap() + MakeStage() + [StageLine(spec, "/spec.json")]
  }

  function AfterLauncher(paths: SubmissionPaths, prepared: string): seq<Line> {
    [StageLine(prepared, "/status.json")] + StageOutputs() + PublishStage() + Comparison()
    + SubmissionLock(paths) + StartLauncherOpening() + StartLauncher()
    + RoundsBegin(paths) + Attempts(paths) + NextAttempt() + RoundTest(paths) + LastRound() + NextRound(paths)
  }

  function LaunchLine(launcher: string): Line {
    StageLine(launcher, "/launch.sh")
  }

  /** `submission_command`, given the three texts it stages. */
  function SubmissionScript(paths: SubmissionPaths, spec: string, launcher: string, prepared: string): string {
    Render(BeforeLauncher(paths, spec)) + (LineText(LaunchLine(launcher)) + Render(AfterLauncher(paths, prepared)))
  }

  // Reading both

  /** Read between two tokens, `text` is exactly `words`, whatever came before it. */
  ghost predicate Reads(text: string, words: seq<Token>) {
    forall tokens: seq<Token> :: Feed(Lexer(Blank, [], tokens), text) == Lexer(Blank, [], tokens + words)
  }

  lemma LineReads(line: Line)
    ensures Reads(LineText(line), LineTokens(line))
  {
    forall tokens: seq<Token>
      ensures Feed(Lexer(Blank, [], tokens), LineText(line)) == Lexer(Blank, [], tokens + LineTokens(line))
    {
      LineFeeds(tokens, line);
    }
  }

  /** `command` and a line break after it are exactly `words` and the end of their line. */
  ghost predicate IsCommand(command: string, words: seq<Token>) {
    forall tokens: seq<Token> ::
      Next(Feed(Lexer(Blank, [], tokens), command), '\n') == Lexer(Blank, [], tokens + words + [Newline])
  }

  lemma CommandReads(command: string, words: seq<Token>)
    requires IsCommand(command, words)
    ensures Reads(CommandLine(command), words + [Newline])
  {
    forall tokens: seq<Token>
      ensures Feed(Lexer(Blank, [], tokens), CommandLine(command)) == Lexer(Blank, [], tokens + (words + [Newline]))
    {
      var lexer := Lexer(Blank, [], tokens);
      FeedAppend(lexer, Blanks(4), command + "\n");
      BlanksFeed(lexer, 4);
      FeedAppend(lexer, command, "\n");
      FeedOne(Feed(lexer, command), '\n', "");
      Regroup(tokens, words, [Newline]);
    }
  }

  /** A text between the lines of a script. */
  lemma BetweenReads(before: seq<Line>, text: string, words: seq<Token>, after: seq<Line>)
    requires Reads(text, words)
    ensures Tokenize(Render(before) + (text + Render(after))) == Some(Meaning(before) + words + Meaning(after))
  {
    ScriptFeeds([], before);
    assert [] + Meaning(before) == Meaning(before);
    FeedAppend(START, Render(before), text + Render(after));
    FeedAppend(Lexer(Blank, [], Meaning(before)), text, Render(after));
    ScriptFeeds(Meaning(before) + words, after);
  }

  /**
   Around any command the launcher reads as the tokens of its own lines, whatever its paths and its
   comments are, and the command's words stand between them on a line of their own.
   */
  lemma LauncherReads(paths: LauncherPaths, remarks: Remarks, command: string, words: seq<Token>)
    requires IsCommand(command, words)
    ensures Tokenize(LauncherScript(paths, remarks, command)) ==
      Some(Meaning(BeforeCommand(paths, remarks)) + (words + [Newline]) + Meaning(AfterCommand(paths, remarks)))
  {
    CommandReads(command, words);
    BetweenReads(BeforeCommand(paths, remarks), CommandLine(command), words + [Newline], AfterCommand(paths, remarks));
  }

  /** The tokens of a line that stages `text`: `printf`, its format and the text itself, redirected to the file. */
  function StageTokens(text: string, file: string): seq<Token> {
    [Literal("printf"), Literal("%s"), Literal(text), Operator(">"), Word([Expand("stage")] + Chars(file)), Newline]
  }

  lemma FirstPart(begun: Begun, p: Part, rest: seq<Part>)
    ensures PartsTokens(begun, [p] + rest) ==
      (PartsTokens(After(begun, p).0, rest).0, After(begun, p).1 + PartsTokens(After(begun, p).0, rest).1)
  {
    assert ([p] + rest)[1..] == rest;
  }

  /** A word and a blank. */
  lemma WordThenGap(p: Part, word: seq<Item>, rest: seq<Part>)
    requires After(None, p) == (Some(word), [])
    ensures PartsTokens(None, [p, Gap(1)] + rest) ==
      (PartsTokens(None, rest).0, [Word(word)] + PartsTokens(None, rest).1)
  {
    assert [p, Gap(1)] + rest == [p] + ([Gap(1)] + rest);
    FirstPart(None, p, [Gap(1)] + rest);
    FirstPart(Some(word), Gap(1), rest);
    var more := PartsTokens(None, rest).1;
    assert [] + ([Word(word)] + more) == [Word(word)] + more;
  }

  lemma IntoAtEnd(target: Target)
    ensures PartsTokens(None, [Into(target)]) == (Some(TargetItems(target)), [Operator(">")])
  {
    FirstPart(None, Into(target), []);
    assert [Into(target)] + [] == [Into(target)];
    assert ([] + [Operator(">")]) + [] == [Operator(">")];
  }

  lemma BareAfter(word: Bare)
    ensures After(None, Words([word])) == (Some(BareItems(word)), [])
  {
    assert [] + BareItems(word) == BareItems(word);
  }

  lemma CharsAfter(s: string)
    ensures After(None, Quoted(s)) == (Some(Chars(s)), [])
    ensures '\'' !in s ==> After(None, Verbatim(s)) == (Some(Chars(s)), [])
  {
    assert [] + Chars(s) == Chars(s);
  }

  lemma ArgumentItems(text: string, target: Target)
    ensures PartsTokens(None, [Quoted(text), Gap(1), Into(target)]) ==
      (Some(TargetItems(target)), [Literal(text), Operator(">")])
  {
    IntoAtEnd(target);
    CharsAfter(text);
    WordThenGap(Quoted(text), Chars(text), [Into(target)]);
    assert [Quoted(text), Gap(1)] + [Into(target)] == [Quoted(text), Gap(1), Into(target)];
    assert [Literal(text)] + [Operator(">")] == [Literal(text), Operator(">")];
  }

  lemma FormatItems(format: Unquotable, text: string, target: Target)
    ensures PartsTokens(None, [Verbatim(format), Gap(1), Quoted(text), Gap(1), Into(target)]) ==
      (Some(TargetItems(target)), [Literal(format), Literal(text), Operator(">")])
  {
    var rest := [Quoted(text), Gap(1), Into(target)];
    ArgumentItems(text, target);
    CharsAfter(format);
    WordThenGap(Verbatim(format), Chars(format), rest);
    assert [Verbatim(format), Gap(1)] + rest == [Verbatim(format), Gap(1), Quoted(text), Gap(1), Into(target)];
    assert [Literal(format)] + [Literal(text), Operator(">")] == [Literal(format), Literal(text), Operator(">")];
  }

  lemma PrintfItems(name: Bare, format: Unquotable, text: string, target: Target)
    ensures PartsTokens(None, [Words([name]), Gap(1), Verbatim(format), Gap(1), Quoted(text), Gap(1), Into(target)]) ==
      (Some(TargetItems(target)), [Word(BareItems(name)), Literal(format), Literal(text), Operator(">")])
  {
    var rest := [Verbatim(format), Gap(1), Quoted(text), Gap(1), Into(target)];
    FormatItems(format, text, target);
    BareAfter(name);
    WordThenGap(Words([name]), BareItems(name), rest);
    assert [Words([name]), Gap(1)] + rest
      == [Words([name]), Gap(1), Verbatim(format), Gap(1), Quoted(text), Gap(1), Into(target)];
    var more := [Literal(format), Literal(text), Operator(">")];
    assert [Word(BareItems(name))] + more == [Word(BareItems(name)), Literal(format), Literal(text), Operator(">")];
  }

  lemma VariableItems(name: Name, file: AfterName)
    ensures TargetItems(ToExpanded([Var(name), Text(file)])) == [Expand(name)] + Chars(file)
  {
    var parts: seq<Inner> := [Var(name), Text(file)];
    assert parts[1..] == [Text(file)] && [Inner.Text(file)][1..] == [];
    assert InnersItems([Text(file)]) == Chars(file) + [];
    assert InnersItems(parts) == [Expand(name)] + Chars(file);
  }

  lemma StageLineTokens(text: string, file: AfterName)
    ensures LineTokens(StageLine(text, file)) == StageTokens(text, file)
  {
    PrintfItems("printf", "%s", text, ToExpanded([Var("stage"), Text(file)]));
    VariableItems("stage", file);
    PrintfIsPlain();
  }

  lemma PrintfIsPlain()
    ensures BareItems("printf") == Chars("printf")
  {
  }

  /** The submission reads as the tokens of its own lines, and the staged launcher is one word between them. */
  lemma SubmissionReads(paths: SubmissionPaths, spec: string, launcher: string, prepared: string)
    ensures Tokenize(SubmissionScript(paths, spec, launcher, prepared)) ==
      Some(Meaning(BeforeLauncher(paths, spec)) + StageTokens(launcher, "/launch.sh") + Meaning(AfterLauncher(paths, prepared)))
  {
    LineReads(LaunchLine(launcher));
    StageLineTokens(launcher, "/launch.sh");
    BetweenReads(BeforeLauncher(paths, spec), LineText(LaunchLine(launcher)), StageTokens(launcher, "/launch.sh"),
      AfterLauncher(paths, prepared));
  }
}
