# A model of thunder-sandbox in Dafny

thunder-sandbox runs commands in remote sandboxes over connections that come and go. This project models
the parts of it whose correctness is not local to one function, and proves what they promise.

**Durable jobs.** A job is a directory on the guest that several shell programs share: submissions (repeated
after a lost acknowledgement), the launchers they start, the child that runs the command, the command's own
descendants, and TERM and KILL signal shells. `JobProtocol` is their transition system for a host job: one
step is one shell statement, any program may stall or be killed between two statements, and any number of
copies of each may run. `JobInvariant` and `JobSafety` hold the inductive invariant, `JobTheorems` what
follows for every run, `JobLocks` who can hold the lock a submission waits for, and `JobSubmissions` how every
submission ends. `JobWitness` constructs runs: the command exits with any code, a foreign signal may interrupt the
wait for it, and a repeated submission fails although its job is at work. `JobWrites` says exactly what the runs can
do: which state replaces which in the status file, and which codes FAILED carries.

**The client of a job.** `StatusCaches`, `DurableReaders` and `ProcessHandles` are the classes behind a process
handle: a cached status, a byte cursor with an incremental decoder for each output, automatic cleanup, and the
escalation from TERM to KILL. Their remote side (`RemoteJob`) is a script saying, request by request, what the
job wrote meanwhile, how much time passed, and whether the request came back. `ClientRefinement` puts the two
halves together: what the client reports is true of the run that wrote the status file.

**Text across the boundary.** `StatusText` and `StatusScript` are the JSON status as Python writes and reads it,
as the launcher's `printf` writes it and as `grep` finds it. `ShellWords` is the shell's own tokenizer,
`ShellQuote` the quoting. In `ShellPieces` a script is a list of lines made of typed parts, and its text always
reads back as its tokens; `ShellScripts` writes the launcher and the submission that way, line by line, and
`ShellCommands` puts the quoted command lines between them. `Utf8` is the decoder.

**Build contexts.** `Regex` is the part of Python's regular expressions in use (text, parser, meaning), `Glob`
the compiler from a `.dockerignore` pattern to such text beside a direct matcher of patterns, `DockerIgnores` the
rules of a file, `Pruning` the exact condition under which leaving out an excluded directory is harmless, and
`ContextWalks` the pruned directory walk, beside what it selects for any rules and beside the naive filter.

The source's test for pruning compares the directory with the characters of the negated patterns. For `*` and
`!**/name` this leaves out every directory not called `name`, although `name` below it is to be kept
(`Pruning.DeepNegationIsLost`); for negations whose only wildcards are in the last component it is right
(`Pruning.SimpleNegationsArePrunable`), and `Pruning.PruningIsExact` and `ContextWalks.WalkAgreesExactly` say when
it is in general.

**Connections and smaller protocols.** `SshOwnership` is the shared connection under all interleavings of tasks,
`RetryLoops` the retry loop in real time, `Publication` the upload script with interrupted attempts,
`NetworkPolicies` the policy update and the wait for its enforcement.

## Premises

- Renames and reads of one small file are atomic, and a stage lies in the same file system as its target.
- Output files only grow. The scan of `/proc` for group members is one step.
- A signal shell is given a pid that some earlier status carried.
- Tasks of the client interleave only where they await. A sleep is exact and clocks move only during awaits.
- External utilities belong to the shell statement that runs them, and none of them fails: in particular a status
  that `printf` and `mv` are to write is written. All submissions of a job stage the same specification and
  launcher.
- The supervisor's `wait` is interrupted by a TERM of the protocol or by a foreign HUP, INT or TERM, which is
  recorded; whether an interrupted `wait` has already reaped a child that is dead is left to the shell. Other
  processes are killed from outside only by SIGKILL.
- The command does not write into the job's directory.
- The policy service numbers accepted updates in order, reports true numbers, and applies nothing when it
  answers that another update is pending.
- A loop that would wait for ever is given a finite script of events; when the script is used up, the request
  in flight is cancelled. Every finite course of events is some script.

## Model

| member | source | states |
|---|---|---|
| `Jobs.TransitionsAreWriterClosure` | thunder_sandbox/asynchronous/_jobs.py:46-71 | the transition table lists exactly the states the writers' single steps can lead to, in any number |
| `Jobs.HistoryIsOrdered` | thunder_sandbox/asynchronous/_jobs.py:46-91 | any two snapshots of a legal status history are equal or ordered by the table; a pid never changes, a terminal status is the last |
| `JobWrites.WriterStepsAreExact` | thunder_sandbox/asynchronous/_jobs.py:404-417 | one state directly replaces another in some run of the protocol exactly when that is one of the writers' single steps |
| `JobSafety.StepOk` | thunder_sandbox/asynchronous/_jobs.py:361-567 | every step of every program, and every death, keeps the invariant, and what has been decided (status order, terminal status, request, started children) stays decided |
| `JobSafety.RunOk` | thunder_sandbox/asynchronous/_jobs.py:361-567 | the invariant holds in every state of every run |
| `JobSafety.RunAdvances` | thunder_sandbox/asynchronous/_jobs.py:361-567 | between any two states of a run histories, starts and requests only grow, and a terminal status stays |
| `JobTheorems.CommandStartsAtMostOnce` | thunder_sandbox/asynchronous/_jobs.py:396-456 | over every interleaving of retried submissions, launchers, crashes and signal shells, the command begins at most once |
| `JobTheorems.StatusHistoryIsLegal` | thunder_sandbox/asynchronous/_jobs.py:404-417 | everything ever in the status file is a valid status and every write follows the table, with signal shells racing the supervisor |
| `JobTheorems.ReadersSeeTransitions` | thunder_sandbox/asynchronous/_jobs.py:46-71 | what a later reader sees after an earlier one is the same status or a transition; a terminal state and code never change |
| `JobTheorems.PublicationIsAtomicAndFinal` | thunder_sandbox/asynchronous/_jobs.py:513-533 | a published directory is complete and no later submission replaces it |
| `JobTheorems.NoStartAfterTerm` | thunder_sandbox/asynchronous/_jobs.py:443-456 | once a TERM has been sent the command never begins |
| `JobTheorems.TermReachesEveryChild` | thunder_sandbox/asynchronous/_jobs.py:706-720 | at a TERM the request is set; a child alive in the group is running the command, and a child that never ran it ends with 143 unless it was killed |
| `JobTheorems.TerminatedMeansGroupIsGone` | thunder_sandbox/asynchronous/_jobs.py:419-474 | TERMINATED implies a request, and nothing but the supervisor is alive in the group from then on |
| `JobTheorems.SucceededMeansCommandSucceeded` | thunder_sandbox/asynchronous/_jobs.py:458-477 | SUCCEEDED implies that the command began exactly once and its process exited with zero |
| `JobTheorems.FailedMeansChildEnded` | thunder_sandbox/asynchronous/_jobs.py:443-479 | FAILED implies that the child is dead; its code is the child's own unless a foreign HUP, INT or TERM interrupted the last wait, and then that signal's; and the command began exactly once unless the child was killed before it did |
| `JobWrites.FailedCodesAreExact` | thunder_sandbox/asynchronous/_jobs.py:456-479 | for every exit code of the child: without a foreign signal in the last wait FAILED carries exactly that code, if it is not zero, and with a HUP, INT or TERM exactly 129, 130 or 143; each of these in some run |
| `JobSubmissions.SubmissionEndsExactly` | thunder_sandbox/asynchronous/_jobs.py:530-566 | at every step of every run a submission ends with 0 exactly by reporting, with 70 exactly by a held lock or by still finding PREPARED in its second round, with 137 exactly by being killed; the comparison never ends one |
| `JobSubmissions.SubmissionExitCodes` | thunder_sandbox/asynchronous/_jobs.py:530-566 | a submission never exits with 1; one that exited with 70 had met a live holder of the lock, or the command had not begun in its second round |
| `JobLocks.LockIsHeldByTheLiving` | thunder_sandbox/asynchronous/_jobs.py:534-545 | in every state of every run only live processes hold the submission lock, and submissions only past its taking |
| `JobLocks.TimeoutNeedsHolder` | thunder_sandbox/asynchronous/_jobs.py:534-539 | the lock step can time out exactly while another live submission, launcher, child or payload holds the lock, and otherwise it gets the lock |
| `JobTheorems.SubmissionAcknowledgesStart` | thunder_sandbox/asynchronous/_jobs.py:546-566 | a submission that exits zero printed a status some launcher wrote |
| `JobTheorems.SignalShellsAcknowledge` | thunder_sandbox/asynchronous/_jobs.py:684-723 | a signal shell never meets a foreign supervisor; one that exits zero printed a status that was written, a KILL shell a terminal one |
| `JobWitness.SuccessIsReachable` | thunder_sandbox/asynchronous/_jobs.py:361-567 | some run of the protocol ends with SUCCEEDED |
| `JobWitness.RepeatedSubmissionMayTimeOut` | thunder_sandbox/asynchronous/_jobs.py:534-545 | in some run a submission is acknowledged, its launcher keeps the submission lock through an inherited descriptor, and the repetition exits with 70 |
| `StatusText.ObjectRoundTrip` | thunder_sandbox/asynchronous/_jobs.py:300-334 | the reader of flat JSON objects gives back the members the encoder wrote |
| `StatusText.StatusRoundTrip` | thunder_sandbox/asynchronous/_jobs.py:300-334 | every valid status survives `to_json` and `from_json` |
| `StatusScript.FormatText` | thunder_sandbox/asynchronous/_jobs.py:340-352 | placeholder substitution opens exactly the pid and, if asked, the code, and touches nothing else |
| `StatusScript.PrintfWritesToJson` | thunder_sandbox/asynchronous/_jobs.py:404-416 | for every pid, state and code the launcher's `printf` writes what `to_json` writes |
| `StatusScript.EntryOccursOnce` | thunder_sandbox/asynchronous/_jobs.py:336-337 | a state's entry occurs in a status text exactly when it is its state |
| `StatusScript.PatternFindsState` | thunder_sandbox/asynchronous/_jobs.py:336-337 | `grep -E` with a state pattern succeeds exactly on the statuses whose state is in the pattern's set |
| `ShellQuote.QuoteFeeds` | thunder_sandbox/asynchronous/sandbox.py:1930-1941 | wherever a word may begin, the tokenizer reads a quoted string as that string, character for character |
| `ShellQuote.JoinFeeds` | thunder_sandbox/asynchronous/sandbox.py:1930-1941 | joining parts with blanks yields their words in order |
| `ShellCommands.RemoteCommandWords` | thunder_sandbox/asynchronous/sandbox.py:1924-1941 | for all argv, workdir and env the shell reads back exactly the intended words |
| `ShellCommands.ContainerCommandWords` | thunder_sandbox/asynchronous/sandbox.py:2054-2126 | the container command line reads back as the preparation, `&&` and exactly the parts, nested scripts byte for byte |
| `ShellCommands.StagedFileIsText` | thunder_sandbox/asynchronous/_jobs.py:521-523 | what that `printf` writes is the text itself |
| `ShellPieces.ScriptFeeds` | thunder_sandbox/asynchronous/_jobs.py:391-567 | between two tokens the shell reads the text of any script of typed parts as exactly that script's tokens |
| `ShellScripts.LauncherReads` | thunder_sandbox/asynchronous/_jobs.py:391-482 | for all paths and comments the launcher reads as the tokens of its own lines with the command's words on a line of their own between them |
| `ShellScripts.StageLineTokens` | thunder_sandbox/asynchronous/_jobs.py:521-523 | the line that stages a file is one `printf` of the whole text, redirected to that file |
| `ShellScripts.SubmissionReads` | thunder_sandbox/asynchronous/_jobs.py:511-567 | the whole submission reads as the tokens of its own lines, and the launcher is one word of it |
| `ShellCommands.ArgvSurvivesTwoShells` | thunder_sandbox/asynchronous/_jobs.py:391-567 | for every argv, directory, environment, user and script, for the host or a container, and for all paths and comments: the submission stages the launcher byte for byte, and the launcher has exactly the intended words on its command line |
| `Utf8.DecodeInTwo` | thunder_sandbox/asynchronous/process.py:219-236 | decoding in two pieces with the kept bytes carried over is decoding the whole, for well-formed and malformed bytes |
| `Utf8.ChunkIndependence` | thunder_sandbox/asynchronous/process.py:219-236 | however fetches split the output, the incremental decoder gives the decoding of the whole |
| `Utf8.DecodesExactlyEncodings` | thunder_sandbox/asynchronous/process.py:189 | bytes decode to scalar values exactly when they are their encoding by sections 3 and 4 of RFC 3629 |
| `StatusCaches.StatusCache.Record` | thunder_sandbox/asynchronous/process.py:419-431 | a snapshot is recorded exactly when the table allows it; a known pid and a terminal status stay |
| `StatusCaches.StatusCache.Refresh` | thunder_sandbox/asynchronous/process.py:409-417 | against any legal remote history a refresh never reports a backward move, whichever snapshots it missed |
| `StatusCaches.StatusCache.Accept` | thunder_sandbox/asynchronous/process.py:433-439 | a snapshot read outside the lock raises exactly when the cache is not terminal and already holds a later one in another state |
| `StatusCaches.RacedAcknowledgement` | thunder_sandbox/asynchronous/process.py:433-439 | this happens: a TERM answered with STARTING is refused when another task's refresh has read RUNNING meanwhile |
| `DurableReaders.DurableReader.Take` | thunder_sandbox/asynchronous/process.py:221-232 | a chunk at the cursor enters the buffer as what it decodes to, and the cursor passes it |
| `DurableReaders.DurableReader.Finish` | thunder_sandbox/asynchronous/process.py:233-236 | the end is declared only with nothing left in the decoder |
| `DurableReaders.DurableReader.Fetch` | thunder_sandbox/asynchronous/process.py:209-236 | a lost request changes nothing, a successful one passes what lay past the cursor; the end is declared only on an empty read after a terminal status, and then for certain |
| `DurableReaders.DurableReader.Read` | thunder_sandbox/asynchronous/process.py:238-252 | what is returned is appended to what was returned before; `read(-1)` reads to the end, `read(n)` gives n units unless fewer are buffered, and an empty `read(n)` means the end |
| `DurableReaders.DurableReader.ReadLine` | thunder_sandbox/asynchronous/process.py:254-263 | a line has one newline, its last unit, unless the end was reached |
| `DurableReaders.DurableReader.WaitEof` | thunder_sandbox/asynchronous/process.py:265-269 | waiting for the end loses no buffered output |
| `DurableReaders.DurableReader.ReturnedIsPrefix` | thunder_sandbox/asynchronous/process.py:209-263 | exactly once: returned plus buffered output is what the file's first bytes read as, across any mix of reads, failures and growth |
| `DurableReaders.DurableReader.EofIsConclusive` | thunder_sandbox/asynchronous/process.py:212-237 | at the end every byte present when a terminal status was sampled has reached the client |
| `ProcessHandles.Process.MaybeAutoCleanup` | thunder_sandbox/asynchronous/process.py:458-469 | cleanup starts only with a terminal status and both outputs at their ends |
| `ProcessHandles.Process.CleanupRemote` | thunder_sandbox/asynchronous/process.py:471-477 | the remote cleanup succeeds at most once and is not requested again |
| `ProcessHandles.Process.Poll` | thunder_sandbox/asynchronous/process.py:377-383 | reports the cached return code; a settled handle sends nothing |
| `ProcessHandles.Process.AwaitTerminal` | thunder_sandbox/asynchronous/process.py:441-450 | ends with the code of a terminal status; the delays between polls double from a tenth of a second to one second |
| `ProcessHandles.Process.Wait` | thunder_sandbox/asynchronous/process.py:441-450 | the same, and the cleanup is started when nothing is needed any more; a settled handle sends nothing |
| `ProcessHandles.Process.Read` | thunder_sandbox/asynchronous/process.py:238-252 | what is returned is appended to what was returned before, the other output is left alone, and the cleanup is started when this was the last to end |
| `ProcessHandles.Process.ReadLine` | thunder_sandbox/asynchronous/process.py:254-263 | the same for lines |
| `ProcessHandles.Process.SendSignal` | thunder_sandbox/asynchronous/process.py:505-506 | exactly one signal is sent and the answer is taken over if it is no step back |
| `ProcessHandles.Process.AwaitPid` | thunder_sandbox/asynchronous/process.py:500-504 | ends with a pid or a terminal status and sends no signal |
| `ProcessHandles.Process.GracePeriod` | thunder_sandbox/asynchronous/process.py:511-522 | ends with a terminal status, after five seconds, or on a request that was not answered |
| `ProcessHandles.Process.Interrupt` | thunder_sandbox/asynchronous/process.py:505-522 | one TERM; without a terminal status it returns only after grace or a request that was not answered |
| `ProcessHandles.Process.Escalate` | thunder_sandbox/asynchronous/process.py:505-529 | TERM first, then at most one KILL to the same pid, not before grace or a request that was not answered |
| `ProcessHandles.Process.Terminate` | thunder_sandbox/asynchronous/process.py:487-529 | returns normally only with a terminal status; signals at most TERM and then KILL; nothing for a job known to be over; reports a job that did not stop only when the KILL was answered with a status that is not terminal |
| `ProcessHandles.Process.Cleanup` | thunder_sandbox/asynchronous/process.py:479-485 | succeeds only with the job over and its artifacts removed |
| `ProcessHandles.Process.CleanupLosesNothing` | thunder_sandbox/asynchronous/process.py:458-477 | once automatic cleanup has started, all output present when a terminal status was sampled is in client memory |
| `ClientRefinement.CachedTerminalIsFinal` | thunder_sandbox/asynchronous/process.py:409-417 | a cached terminal status is what the status file of the run holds from then on |
| `ClientRefinement.ReportedTerminatedMeansGroupIsGone` | thunder_sandbox/asynchronous/process.py:487-529 | when the client reports TERMINATED, the run has no payload process alive in the group, now or later |
| `ClientRefinement.ReportedSuccessIsReal` | thunder_sandbox/asynchronous/process.py:366-369 | when the client reports SUCCEEDED, the run began the command once and it exited with zero |
| `ClientRefinement.LaterStatusIsProgress` | thunder_sandbox/asynchronous/process.py:419-431 | whatever the run writes later, the cache can move to it |
| `ClientRefinement.TerminateInRun` | thunder_sandbox/asynchronous/process.py:487-529 | a process whose KILL is answered, if at all, by a KILL shell of a run never reports that the job did not stop |
| `Regex.TextIsReadBack` | thunder_sandbox/image.py:170-203 | the text of an expression parses back to it exactly when it has no empty set |
| `Glob.HeadMeaning` | thunder_sandbox/image.py:170-203 | a pattern matches a path exactly when its first item takes a piece and the rest matches what remains |
| `Glob.CompilationPreservesMeaning` | thunder_sandbox/image.py:170-203 | the compiled expression fully matches a newline-free path exactly when the pattern matches the path or an ancestor |
| `Glob.CompileIgnorePattern` | thunder_sandbox/image.py:170-203 | the text built by the loop, parsed as a regular expression, has that meaning exactly when no bracket of the pattern, a line, is empty; it parses as intended exactly then |
| `DockerIgnores.ReadLine` | thunder_sandbox/image.py:139-154 | a line states a pattern exactly when it is blanks, perhaps `!` and blanks, slashes, the pattern, slashes and blanks, and the pattern is not empty and neither begins nor ends with a slash; it is refused exactly when it is blanks, `!` and blanks |
| `DockerIgnores.Read` | thunder_sandbox/image.py:136-156 | the rules do what the file's patterns say, in order; refusal only for an empty negation or an empty bracket |
| `DockerIgnores.Excludes` | thunder_sandbox/image.py:158-163 | a path is excluded exactly when the last rule that matches it is not negated |
| `Pruning.PrunedIsExcluded` | thunder_sandbox/image.py:165-167 | where the negations lose nothing, everything below a pruned directory is excluded |
| `Pruning.PruningIsExact` | thunder_sandbox/image.py:158-167 | for given negations, pruning agrees with the filter whatever other rules the file has exactly when no negation accepts a path below a directory that it and the later ones do not accept and no negation begins with |
| `Pruning.SimpleNegationsArePrunable` | thunder_sandbox/image.py:165-167 | that holds where no negation has a wildcard before its last slash, or a bracket or an inner `**` after it |
| `Pruning.DeepNegationIsLost` | thunder_sandbox/image.py:165-167 | it fails for the negation of any plain name in all directories: its directories are pruned although the name is to be kept |
| `StringOrder.IncreasingIsUnique` | thunder_sandbox/image.py:307 | there is only one strictly increasing list of given strings |
| `ContextWalks.PrunedLeaves` | thunder_sandbox/image.py:269-273 | a pruned entry holds nothing that is selected |
| `ContextWalks.Walk.Inspect` | thunder_sandbox/image.py:248-268 | keeps the two build files and what the rules do not exclude, and refuses a path seen before |
| `ContextWalks.Walk.InspectDirectories` | thunder_sandbox/image.py:277-294 | what is listed and what is still to be walked make up what is selected of the subdirectories |
| `ContextWalks.Walk.InspectFiles` | thunder_sandbox/image.py:295-304 | lists exactly what is selected of the other entries |
| `ContextWalks.Walk.WalkDirectory` | thunder_sandbox/image.py:242-306 | for all rules, lists exactly what is selected below a directory, and fails only on something selected that is no regular file |
| `ContextWalks.ContextFiles` | thunder_sandbox/image.py:242-307 | for all rules and every tree without name collisions, the sorted, duplicate-free list of the regular files that are kept and lie in no pruned directory; it fails exactly when something else is selected |
| `ContextWalks.WalkAgreesExactly` | thunder_sandbox/image.py:242-307 | for given negations, the walk finds what the naive filter keeps in every tree and every file that has them exactly when the negations lose nothing |
| `SshOwnership.StepKeepsInv` | thunder_sandbox/asynchronous/_ssh.py:63-88 | every atomic segment of every task, cancellation and peer event keeps the invariant |
| `SshOwnership.OneOpenAtATime` | thunder_sandbox/asynchronous/_ssh.py:63-78 | at most one open is in flight, and no connection is live meanwhile |
| `SshOwnership.LiveIsCached` | thunder_sandbox/asynchronous/_ssh.py:63-88 | every opened connection nobody has begun to close is the cached one |
| `SshOwnership.DiscardSparesReplacement` | thunder_sandbox/asynchronous/_ssh.py:80-88 | discarding an old connection touches neither its replacement nor the cache |
| `SshOwnership.ClosedForGood` | thunder_sandbox/asynchronous/_ssh.py:156-168 | after `close` has taken the lock none is live, cached or ever opened again |
| `SshOwnership.SSHConnectionManager.Get` | thunder_sandbox/asynchronous/_ssh.py:63-69 | the object's fields change as the transition system says, up to the first await of `get` |
| `SshOwnership.SSHConnectionManager.GetLocked` | thunder_sandbox/asynchronous/_ssh.py:70-76 | the same for `get` with the lock, whose tests are repeated |
| `SshOwnership.SSHConnectionManager.GetOpened` | thunder_sandbox/asynchronous/_ssh.py:76-78 | the same when the open ends, well or badly |
| `SshOwnership.SSHConnectionManager.DiscardConnection` | thunder_sandbox/asynchronous/_ssh.py:80-88 | the same for `discard` |
| `SshOwnership.SSHConnectionManager.CloseLocked` | thunder_sandbox/asynchronous/_ssh.py:156-168 | the same for `close` with the lock |
| `RetryLoops.Pause` | thunder_sandbox/asynchronous/_ssh.py:149-152 | a pause is the delay with at most a fifth of jitter, shorter only to meet the deadline |
| `RetryLoops.Run` | thunder_sandbox/asynchronous/_ssh.py:117-154 | every attempt but the last failed in the transport, every pause has its closed form, and each way of ending has its cause in time |
| `RetryLoops.PausesAreShort` | thunder_sandbox/asynchronous/_ssh.py:149-153 | no pause exceeds six seconds or ends after the deadline |
| `RetryLoops.BudgetIsKept` | thunder_sandbox/asynchronous/_ssh.py:131-142 | the budget error comes at 600 seconds or later and before 606 seconds plus one attempt |
| `RetryLoops.FailuresAreSpaced` | thunder_sandbox/asynchronous/_ssh.py:117-154 | failures are at least the sum of the delays apart |
| `RetryLoops.AttemptsAreBounded` | thunder_sandbox/asynchronous/_ssh.py:117-154 | with attempts shorter than 600 seconds the loop is over after at most 125 of them |
| `Publication.OverlayFiles` | thunder_sandbox/asynchronous/sandbox.py:1022-1023 | file by file, an overlay holds the stage's files and the target's others |
| `Publication.CopyResumes` | thunder_sandbox/asynchronous/sandbox.py:1022-1023 | copying again over an interrupted copy, half-written files included, gives what one copy gives |
| `Publication.RemainderAddsNothing` | thunder_sandbox/asynchronous/sandbox.py:1024 | copying what is left of a half-removed stage changes nothing |
| `Publication.Guest.Publish` | thunder_sandbox/asynchronous/sandbox.py:1005-1029 | a complete attempt leaves the outcome as target and neither stage nor backup |
| `Publication.EveryPrefixIsCut` | thunder_sandbox/asynchronous/sandbox.py:1005-1029 | wherever an attempt of the script has got, entry by entry and file by file, what it leaves there is a cut attempt, and one that is over has published |
| `Publication.CutKeepsOutcome` | thunder_sandbox/asynchronous/sandbox.py:1005-1029 | an attempt cut at any step leaves the outcome of publishing as it was |
| `Publication.PublicationConverges` | thunder_sandbox/asynchronous/sandbox.py:1005-1029 | so does any sequence of attempts, each interrupted after any of its steps |
| `Publication.PublishAfter` | thunder_sandbox/asynchronous/sandbox.py:1005-1029 | after them one complete attempt gives the overlay, or the replacement, of the very first state |
| `NetworkPolicies.Sandbox.RequestUpdate` | thunder_sandbox/asynchronous/sandbox.py:1269-1284 | the PATCH is repeated only while nothing was applied, at least five seconds apart |
| `NetworkPolicies.Sandbox.WaitForNetworkPolicy` | thunder_sandbox/asynchronous/sandbox.py:1321-1368 | ends well only when the update is desired, enforced and reported; gives up only after thirty seconds without an answer |
| `NetworkPolicies.Sandbox.UpdateNetworkPolicy` | thunder_sandbox/asynchronous/sandbox.py:1269-1300 | at most one request is applied in every outcome; on a numbered return the update is the newest accepted and in force |

## Left out

- Container jobs: after a KILL the host supervisor lives on and may write 143 over 137, so terminal stability is stated for host jobs only.
- Runs with a cleanup step: once the directory is removed, a stalled older submission could publish it again.
- That a submission ends at all: how it ends is stated for every run, and a stalled process never takes a step.
- Reuse of pids, zombies, signals inside the window of a fork, and a process that joins a group it had left.
- How often a signal interrupts: a TERM that was sent, and a foreign signal, may interrupt any wait of the supervisor.
- Text of a job's specification: `JobSpec` has nested JSON, which the flat reader here does not cover; its embedding as a string is covered.
- JSON with escapes, fractions, booleans or nested values; strings of a status have none.
- Here-documents, reserved words, `case` patterns and assignment-looking first words: words are recognised, not interpreted.
- A number right before a redirection names a descriptor even where it is quoted, and a command substitution stops the tokenizer; the launcher and the submission have neither.
- ShellCommands.ContainerCommandWords: the texts of the fixed helper scripts are parameters.
- StatusCaches.StatusCache.Accept: a raced signal acknowledgement can be refused as a step back; exactly when is stated.
- ProcessHandles.Process.Read: calls on one handle follow one another; of other tasks of the handle only the refreshes of the status they cause are modelled.
- Reads after an explicit cleanup that came before the end of an output: the model's files stay readable.
- Attached processes, finaliser-driven cleanup and the timeouts that wrap `wait`.
- A syntactic form of `Pruning.Prunable` for brackets, whose members are a parameter.
- Regex.TextIsReadBack: only the part of the language the compiler writes; what a bracketed set accepts is a parameter, and ranges Python refuses are not refused.
- DockerIgnores.Read: starts from the lines; dividing the file into lines is not modelled.
- ContextWalks.ContextFiles: paths are their own normal form, unreadable directories are not modelled, and the lists of a directory may come in any order, of which the sorted one is one.
- Hashing and archiving the context.
- RetryLoops.Run: which errors count as transport failures is part of the schedule.
- Publication.Guest.Publish: a tree that would put a file over a directory, or the reverse, is refused by `cp` and `mv` with an error; such trees, symbolic links and file attributes are outside the model.
- NetworkPolicies.Sandbox.UpdateNetworkPolicy: the cache flushes after it, the overall timeout and errors of other kinds on the GET.
- HTTP, SSH and file transfer themselves, the synchronous adapters, credentials and configuration.
