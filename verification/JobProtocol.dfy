/**
 The durable-job protocol of a host job as a transition system.

 Submission shells, the launchers they start, the payload processes and the TERM and KILL signal
 shells share one job directory and run in any interleaving. A step is one shell statement; the
 external utilities a statement runs belong to it. Any shell or process may stall for ever (it
 simply takes no step) or die (`Crash`), and any number of copies of each shell may run.
 */
module JobProtocol {
  import opened Options
  import opened Jobs

  type Pid = p: int | p > 0 witness 1

  // The job directory

  datatype FileName = SpecJson | LaunchSh | StatusJson | Stdout | Stderr | LauncherStderr

  /** The order in which a submission fills its staging directory. */
  const STAGE_ORDER: seq<FileName> := [SpecJson, LaunchSh, StatusJson, Stdout, Stderr, LauncherStderr]

  const ALL_FILES: set<FileName> := {SpecJson, LaunchSh, StatusJson, Stdout, Stderr, LauncherStderr}

  datatype Directory = Directory(
    files: set<FileName>,
    status: Option<JobStatus>,
    supervisor: Option<Pid>,
    request: bool)

  const EMPTY_STAGE := Directory({}, None, None, false)

  // The processes

  datatype SubmissionPc =
    | Staging(next: nat)
    | Moving
    | Comparing
    | Locking
    | Testing
    | Launching
    | Polling(attempt: nat)
    | Retesting
    | Reporting
    | SubmissionExited(code: int)

  datatype Submission = Submission(
    pc: SubmissionPc,
    stage: Directory,
    round: nat,
    output: Option<JobStatus>)

  datatype LauncherPc =
    | Opened       // before the non-blocking lock
    | Locked       // before the PREPARED test
    | Checked      // before its pid is recorded
    | Recorded     // before the trap is set
    | Trapping     // before STARTING is written
    | Announced    // before the fork
    | Forked       // before RUNNING is written
    | Waiting      // in `wait`
    | Probing(waited: bool)  // before `kill -0` of the child; the wait was over or interrupted
    | Reaped       // before the trap is reset
    | Deciding     // before the termination request is tested
    | Draining     // scanning for group members
    | Finishing(final: JobStatus)
    | Gone

  datatype Launcher = Launcher(pc: LauncherPc, child: Option<Pid>, code: int)

  datatype ChildPc =
    | Unchecked    // before it tests the termination request
    | Cleared      // about to run the command
    | Executing    // the command has begun
    | ChildExited(code: int)

  datatype Child = Child(parent: Pid, pc: ChildPc, inGroup: bool)

  /** A descendant of the child: in the job's process group or outside every job group. */
  datatype Payload = Payload(inGroup: bool, alive: bool)

  datatype SignallerPc =
    | Touching
    | Grepping
    | Matching
    | Sending
    | Awaiting(attempt: nat)
    | Rechecking
    | Rewriting
    | Echoing
    | SignallerExited(code: int)

  datatype Signaller = Signaller(
    signal: Signal,
    target: Pid,
    pc: SignallerPc,
    output: Option<JobStatus>)

  /**
   Everything a launcher or a payload process can see or change. `history` (every content the
   status file has had), `starts` (the children that began the command, in order), `termed` (the groups a
   TERM was sent to) and `disturbed` (the foreign signal that ended the supervisor's last wait, if one did)
   record the past of the run.
   */
  datatype Job = Job(
    dir: Option<Directory>,
    launchers: map<Pid, Launcher>,
    children: map<Pid, Child>,
    payloads: map<Pid, Payload>,
    runLock: set<Pid>,
    history: seq<JobStatus>,
    starts: seq<Pid>,
    termed: set<Pid>,
    disturbed: Option<int>)

  /** The job and the short-lived shells around it; a lock is the set of processes whose descriptors hold it. */
  datatype State = State(
    job: Job,
    submissions: map<Pid, Submission>,
    signallers: map<Pid, Signaller>,
    submissionLock: set<Pid>)

  const INIT := State(Job(None, map[], map[], map[], {}, [], [], {}, None), map[], map[], {})

  // Observations

  predicate Published(j: Job) {
    j.dir.Some? && j.dir.value.status.Some?
  }

  function Status(j: Job): JobStatus
    requires Published(j)
  {
    j.dir.value.status.value
  }

  /** What the shells' `grep` for the prepared pattern answers; a missing file does not match. */
  predicate IsPrepared(j: Job) {
    Published(j) && Status(j).state == Prepared
  }

  predicate IsTerminal(j: Job) {
    Published(j) && Terminal(Status(j).state)
  }

  predicate Requested(j: Job) {
    j.dir.Some? && j.dir.value.request
  }

  /** Pids are never reused, so a dead process keeps its entry. */
  predicate Fresh(s: State, p: Pid) {
    && p !in s.submissions && p !in s.signallers
    && p !in s.job.launchers && p !in s.job.children && p !in s.job.payloads
  }

  predicate LauncherAlive(j: Job, l: Pid) {
    l in j.launchers && !j.launchers[l].pc.Gone?
  }

  predicate ChildAlive(j: Job, c: Pid) {
    c in j.children && !j.children[c].pc.ChildExited?
  }

  predicate PayloadAlive(j: Job, p: Pid) {
    p in j.payloads && j.payloads[p].alive
  }

  predicate JobProcessAlive(j: Job, p: Pid) {
    LauncherAlive(j, p) || ChildAlive(j, p) || PayloadAlive(j, p)
  }

  predicate SubmissionAlive(s: State, p: Pid) {
    p in s.submissions && !s.submissions[p].pc.SubmissionExited?
  }

  predicate SignallerAlive(s: State, p: Pid) {
    p in s.signallers && !s.signallers[p].pc.SignallerExited?
  }

  /** Some process of the job's group other than its supervisor is alive. */
  predicate OthersAlive(j: Job) {
    || (exists c :: c in j.children && ChildAlive(j, c) && j.children[c].inGroup)
    || (exists p :: p in j.payloads && PayloadAlive(j, p) && j.payloads[p].inGroup)
  }

  predicate RunsCommand(j: Job, p: Pid) {
    p in j.children && j.children[p].pc.Executing?
  }

  /** A process running the command or started by it. */
  predicate RunsPayload(j: Job, p: Pid) {
    RunsCommand(j, p) || PayloadAlive(j, p)
  }

  predicate InGroup(j: Job, p: Pid)
    requires RunsPayload(j, p)
  {
    if RunsCommand(j, p) then j.children[p].inGroup else j.payloads[p].inGroup
  }

  /** The states in which a TERM only interrupts the supervisor: between its two trap statements. */
  predicate SurvivesTerm(pc: LauncherPc) {
    pc.Trapping? || pc.Announced? || pc.Forked? || pc.Waiting? || pc.Probing? || pc.Reaped?
  }

  // Building blocks of the steps

  function Publish(j: Job, status: JobStatus): Job
    requires j.dir.Some?
  {
    j.(dir := Some(j.dir.value.(status := Some(status))), history := j.history + [status])
  }

  /** A forked process shares every lock its parent's descriptors hold. */
  function Inherit(lock: set<Pid>, parent: Pid, child: Pid): set<Pid> {
    if parent in lock then lock + {child} else lock
  }

  function MoveLauncher(j: Job, l: Pid, pc: LauncherPc): Job
    requires l in j.launchers
  {
    j.(launchers := j.launchers[l := j.launchers[l].(pc := pc)])
  }

  function MoveChild(j: Job, c: Pid, pc: ChildPc): Job
    requires c in j.children
  {
    j.(children := j.children[c := j.children[c].(pc := pc)])
  }

  function MoveSubmission(s: State, p: Pid, pc: SubmissionPc): State
    requires p in s.submissions
  {
    s.(submissions := s.submissions[p := s.submissions[p].(pc := pc)])
  }

  function MoveSignaller(s: State, q: Pid, pc: SignallerPc): State
    requires q in s.signallers
  {
    s.(signallers := s.signallers[q := s.signallers[q].(pc := pc)])
  }

  // Submission shell

  datatype SubmissionStep =
    | SubmitSpawn(p: Pid)
    | SubmitStage(p: Pid)
    | SubmitMove(p: Pid)
    | SubmitCompare(p: Pid)
    | SubmitLock(p: Pid)
    | SubmitTimeout(p: Pid)
    | SubmitTest(p: Pid)
    | SubmitLaunch(p: Pid, born: Pid)
    | SubmitPoll(p: Pid)
    | SubmitRetest(p: Pid)
    | SubmitReport(p: Pid)

  predicate SubmissionAt(s: State, p: Pid, pc: SubmissionPc) {
    p in s.submissions && s.submissions[p].pc == pc
  }

  predicate SubmitEnabled(s: State, step: SubmissionStep) {
    match step
    case SubmitSpawn(p) => Fresh(s, p)
    case SubmitStage(p) =>
      p in s.submissions && s.submissions[p].pc.Staging? && s.submissions[p].pc.next < |STAGE_ORDER|
    case SubmitMove(p) => SubmissionAt(s, p, Moving)
    case SubmitCompare(p) => SubmissionAt(s, p, Comparing)
    case SubmitLock(p) => SubmissionAt(s, p, Locking) && s.submissionLock == {}
    case SubmitTimeout(p) => SubmissionAt(s, p, Locking) && s.submissionLock != {}
    case SubmitTest(p) => SubmissionAt(s, p, Testing)
    case SubmitLaunch(p, l) => SubmissionAt(s, p, Launching) && Fresh(s, l)
    case SubmitPoll(p) => p in s.submissions && s.submissions[p].pc.Polling?
    case SubmitRetest(p) => SubmissionAt(s, p, Retesting)
    case SubmitReport(p) => SubmissionAt(s, p, Reporting) && Published(s.job)
  }

  function Stage(s: State, p: Pid): State
    requires SubmitEnabled(s, SubmitStage(p))
  {
    var k := s.submissions[p].pc.next;
    var stage := s.submissions[p].stage;
    var filled := stage.(
      files := stage.files + {STAGE_ORDER[k]},
      status := if STAGE_ORDER[k] == StatusJson then Some(PREPARED_STATUS) else stage.status);
    var pc := if k + 1 == |STAGE_ORDER| then Moving else Staging(k + 1);
    s.(submissions := s.submissions[p := s.submissions[p].(pc := pc, stage := filled)])
  }

  /** `mv -T` of a stage onto the job directory's name. */
  function PublishStage(j: Job, stage: Directory): Job {
    j.(dir := Some(stage),
       history := j.history + (if stage.status.Some? then [stage.status.value] else []))
  }

  /** `mv -T` publishes the stage unless a published directory is in the way. */
  function Move(s: State, p: Pid): State
    requires SubmitEnabled(s, SubmitMove(p))
  {
    if s.job.dir.None?
    then MoveSubmission(s, p, Locking).(job := PublishStage(s.job, s.submissions[p].stage))
    else MoveSubmission(s, p, Comparing)
  }

  function Compare(s: State, p: Pid): State
    requires SubmitEnabled(s, SubmitCompare(p))
  {
    if s.job.dir.Some? && {SpecJson, LaunchSh} <= s.job.dir.value.files
    then MoveSubmission(s, p, Locking)
    else MoveSubmission(s, p, SubmissionExited(1))
  }

  /** Start a launcher in a session of its own; it inherits the submission lock's descriptor. */
  function Launch(s: State, p: Pid, l: Pid): State
    requires SubmitEnabled(s, SubmitLaunch(p, l))
  {
    MoveSubmission(s, p, Polling(0)).(
      job := s.job.(launchers := s.job.launchers[l := Launcher(Opened, None, 0)]),
      submissionLock := Inherit(s.submissionLock, p, l))
  }

  function Retest(s: State, p: Pid): State
    requires SubmitEnabled(s, SubmitRetest(p))
  {
    if !IsPrepared(s.job) then MoveSubmission(s, p, Reporting)
    else if s.submissions[p].round >= 1 then MoveSubmission(s, p, SubmissionExited(70))
    else s.(submissions := s.submissions[p :=
      s.submissions[p].(pc := Testing, round := s.submissions[p].round + 1)])
  }

  function ApplySubmit(s: State, step: SubmissionStep): State
    requires SubmitEnabled(s, step)
  {
    match step
    case SubmitSpawn(p) => s.(submissions := s.submissions[p := Submission(Staging(0), EMPTY_STAGE, 0, None)])
    case SubmitStage(p) => Stage(s, p)
    case SubmitMove(p) => Move(s, p)
    case SubmitCompare(p) => Compare(s, p)
    case SubmitLock(p) => MoveSubmission(s, p, Testing).(submissionLock := {p})
    case SubmitTimeout(p) => MoveSubmission(s, p, SubmissionExited(70))
    case SubmitTest(p) => MoveSubmission(s, p, if IsPrepared(s.job) then Launching else Reporting)
    case SubmitLaunch(p, l) => Launch(s, p, l)
    case SubmitPoll(p) =>
      var attempt := s.submissions[p].pc.attempt;
      MoveSubmission(s, p, if !IsPrepared(s.job) || attempt >= 100 then Retesting else Polling(attempt + 1))
    case SubmitRetest(p) => Retest(s, p)
    case SubmitReport(p) =>
      s.(submissions := s.submissions[p :=
        s.submissions[p].(pc := SubmissionExited(0), output := Some(Status(s.job)))])
  }

  // Launcher

  datatype LauncherStep =
    | LaunchLock(p: Pid)
    | LaunchCheck(p: Pid)
    | LaunchRecord(p: Pid)
    | LaunchTrap(p: Pid)
    | LaunchAnnounce(p: Pid)
    | LaunchFork(p: Pid, born: Pid)
    | LaunchRunning(p: Pid)
    | LaunchWait(p: Pid)
    | LaunchInterrupted(p: Pid)
    | LaunchDisturbed(p: Pid, signalNumber: int)
    | LaunchProbe(p: Pid, zombie: bool)
    | LaunchUntrap(p: Pid)
    | LaunchDecide(p: Pid)
    | LaunchDrain(p: Pid)
    | LaunchFinish(p: Pid)

  /** The signals the supervisor traps: HUP, INT and TERM. */
  predicate IsTrapped(n: int) {
    n == 1 || n == 2 || n == 15
  }

  predicate LauncherAt(j: Job, p: Pid, pc: LauncherPc) {
    p in j.launchers && j.launchers[p].pc == pc
  }

  /**
   A trapped signal interrupts a wait: a TERM of the protocol, or a foreign one that somebody else sent. An
   interrupted wait may leave a dead child unreaped, a `zombie`, which `kill -0` still finds.
   */
  predicate LaunchEnabled(j: Job, step: LauncherStep) {
    match step
    case LaunchLock(p) => LauncherAt(j, p, Opened)
    case LaunchCheck(p) => LauncherAt(j, p, Locked)
    case LaunchRecord(p) => LauncherAt(j, p, Checked) && j.dir.Some?
    case LaunchTrap(p) => LauncherAt(j, p, Recorded)
    case LaunchAnnounce(p) => LauncherAt(j, p, Trapping) && j.dir.Some?
    case LaunchFork(p, c) => LauncherAt(j, p, Announced)
    case LaunchRunning(p) => LauncherAt(j, p, Forked) && j.dir.Some?
    case LaunchWait(p) =>
      && LauncherAt(j, p, Waiting) && j.launchers[p].child.Some?
      && j.launchers[p].child.value in j.children && j.children[j.launchers[p].child.value].pc.ChildExited?
    case LaunchInterrupted(p) => LauncherAt(j, p, Waiting) && p in j.termed
    case LaunchDisturbed(p, n) => LauncherAt(j, p, Waiting) && IsTrapped(n)
    case LaunchProbe(p, zombie) =>
      && p in j.launchers && j.launchers[p].pc.Probing? && j.launchers[p].child.Some?
      && (zombie ==> !j.launchers[p].pc.waited && !ChildAlive(j, j.launchers[p].child.value))
    case LaunchUntrap(p) => LauncherAt(j, p, Reaped)
    case LaunchDecide(p) => LauncherAt(j, p, Deciding)
    case LaunchDrain(p) => LauncherAt(j, p, Draining)
    case LaunchFinish(p) => p in j.launchers && j.launchers[p].pc.Finishing? && j.dir.Some?
  }

  function Fork(j: Job, l: Pid, c: Pid): Job
    requires LaunchEnabled(j, LaunchFork(l, c))
  {
    j.(launchers := j.launchers[l := j.launchers[l].(pc := Forked, child := Some(c))],
       children := j.children[c := Child(l, Unchecked, true)],
       runLock := Inherit(j.runLock, l, c))
  }

  function Decide(j: Job, l: Pid): Job
    requires LaunchEnabled(j, LaunchDecide(l))
  {
    var code := j.launchers[l].code;
    if Requested(j) then MoveLauncher(j, l, Draining)
    else if code == 0 then MoveLauncher(j, l, Finishing(JobStatus(Succeeded, Some(l), Some(0))))
    else MoveLauncher(j, l, Finishing(JobStatus(Failed, Some(l), Some(code))))
  }

  /** A wait is over, or a signal of the protocol or a foreign one has interrupted it. */
  function EndWait(j: Job, l: Pid, waited: bool, code: int, disturbed: Option<int>): Job
    requires l in j.launchers
  {
    j.(launchers := j.launchers[l := j.launchers[l].(pc := Probing(waited), code := code)], disturbed := disturbed)
  }

  function ApplyLaunch(j: Job, step: LauncherStep): Job
    requires LaunchEnabled(j, step)
  {
    match step
    case LaunchLock(p) =>
      if j.runLock == {} then MoveLauncher(j, p, Locked).(runLock := {p}) else MoveLauncher(j, p, Gone)
    case LaunchCheck(p) => MoveLauncher(j, p, if IsPrepared(j) then Checked else Gone)
    case LaunchRecord(p) => MoveLauncher(j, p, Recorded).(dir := Some(j.dir.value.(supervisor := Some(p))))
    case LaunchTrap(p) => MoveLauncher(j, p, Trapping)
    case LaunchAnnounce(p) => Publish(MoveLauncher(j, p, Announced), JobStatus(Starting, Some(p), None))
    case LaunchFork(p, c) => Fork(j, p, c)
    case LaunchRunning(p) => Publish(MoveLauncher(j, p, Waiting), JobStatus(Running, Some(p), None))
    case LaunchWait(p) =>
      var code := j.children[j.launchers[p].child.value].pc.code;
      EndWait(j, p, true, code, None)
    case LaunchInterrupted(p) => EndWait(j, p, false, 128 + 15, None)
    case LaunchDisturbed(p, n) => EndWait(j, p, false, 128 + n, Some(n))
    case LaunchProbe(p, zombie) =>
      MoveLauncher(j, p, if ChildAlive(j, j.launchers[p].child.value) || zombie then Waiting else Reaped)
    case LaunchUntrap(p) => MoveLauncher(j, p, Deciding)
    case LaunchDecide(p) => Decide(j, p)
    case LaunchDrain(p) =>
      if OthersAlive(j) then j
      else MoveLauncher(j, p, Finishing(JobStatus(Terminated, Some(p), Some(143))))
    case LaunchFinish(p) => Publish(MoveLauncher(j, p, Gone), j.launchers[p].pc.final)
  }

  // The child, the command it runs and the command's descendants

  datatype PayloadStep =
    | ChildCheck(p: Pid)
    | ChildStart(p: Pid)
    | ChildExit(p: Pid, code: int)
    | PayloadFork(p: Pid, born: Pid)
    | PayloadLeave(p: Pid)
    | PayloadClose(p: Pid)
    | PayloadUnlock(p: Pid)
    | PayloadExit(p: Pid)

  predicate ChildAt(j: Job, p: Pid, pc: ChildPc) {
    p in j.children && j.children[p].pc == pc
  }

  predicate WorkEnabled(j: Job, step: PayloadStep) {
    match step
    case ChildCheck(c) => ChildAt(j, c, Unchecked)
    case ChildStart(c) => ChildAt(j, c, Cleared)
    case ChildExit(c, code) => ChildAt(j, c, Executing) && 0 <= code < 256
    case PayloadFork(p, q) => RunsPayload(j, p)
    case PayloadLeave(p) => RunsPayload(j, p)
    case PayloadClose(p) => RunsPayload(j, p)
    case PayloadUnlock(p) => RunsPayload(j, p)
    case PayloadExit(p) => PayloadAlive(j, p)
  }

  function Leave(j: Job, p: Pid): Job
    requires RunsPayload(j, p)
  {
    if RunsCommand(j, p)
    then j.(children := j.children[p := j.children[p].(inGroup := false)])
    else j.(payloads := j.payloads[p := j.payloads[p].(inGroup := false)])
  }

  function ApplyWork(j: Job, step: PayloadStep): Job
    requires WorkEnabled(j, step)
  {
    match step
    case ChildCheck(c) => MoveChild(j, c, if Requested(j) then ChildExited(143) else Cleared)
    case ChildStart(c) => MoveChild(j, c, Executing).(starts := j.starts + [c])
    case ChildExit(c, code) => MoveChild(j, c, ChildExited(code))
    case PayloadFork(p, q) =>
      j.(payloads := j.payloads[q := Payload(InGroup(j, p), true)], runLock := Inherit(j.runLock, p, q))
    case PayloadLeave(p) => Leave(j, p)
    case PayloadClose(p) => j.(runLock := j.runLock - {p})
    case PayloadUnlock(p) => j.(runLock := if p in j.runLock then {} else j.runLock)
    case PayloadExit(p) => j.(payloads := j.payloads[p := j.payloads[p].(alive := false)])
  }

  // Group signals and deaths

  function SignalLauncher(l: Launcher, signal: Signal): Launcher {
    if signal == TERM && SurvivesTerm(l.pc) then l else l.(pc := Gone)
  }

  /** Before the command begins the child has the default disposition; afterwards TERM may be ignored. */
  function SignalChild(child: Child, signal: Signal, dies: bool): Child {
    if child.pc.ChildExited? || !child.inGroup then child
    else if signal == KILL then child.(pc := ChildExited(137))
    else if child.pc.Executing? && !dies then child
    else child.(pc := ChildExited(143))
  }

  function SignalPayload(payload: Payload, signal: Signal, dies: bool): Payload {
    if payload.inGroup && (signal == KILL || dies) then payload.(alive := false) else payload
  }

  /** Deliver `signal` to group `g`; `victims` are the payload processes a TERM happens to end. */
  function Deliver(j: Job, g: Pid, signal: Signal, victims: set<Pid>): Job {
    j.(launchers := map l | l in j.launchers ::
         if l == g then SignalLauncher(j.launchers[l], signal) else j.launchers[l],
       children := map c | c in j.children ::
         if j.children[c].parent == g then SignalChild(j.children[c], signal, c in victims) else j.children[c],
       payloads := map p | p in j.payloads :: SignalPayload(j.payloads[p], signal, p in victims),
       termed := if signal == TERM then j.termed + {g} else j.termed)
  }

  /** A job process dies by a SIGKILL from outside the protocol. */
  function Die(j: Job, p: Pid): Job
    requires JobProcessAlive(j, p)
  {
    if LauncherAlive(j, p) then MoveLauncher(j, p, Gone)
    else if ChildAlive(j, p) then MoveChild(j, p, ChildExited(137))
    else j.(payloads := j.payloads[p := j.payloads[p].(alive := false)])
  }

  // Signal shell

  datatype SignallerStep =
    | SignalSpawn(p: Pid, signal: Signal, target: Pid)
    | SignalTouch(p: Pid)
    | SignalGrep(p: Pid)
    | SignalMatch(p: Pid)
    | SignalSend(p: Pid, victims: set<Pid>)
    | SignalAwait(p: Pid)
    | SignalRecheck(p: Pid)
    | SignalRewrite(p: Pid)
    | SignalEcho(p: Pid)

  predicate SignallerAt(s: State, p: Pid, pc: SignallerPc) {
    p in s.signallers && s.signallers[p].pc == pc
  }

  /** A signal shell is given a pid that some earlier status carried. */
  predicate SignalEnabled(s: State, step: SignallerStep) {
    match step
    case SignalSpawn(q, _, t) =>
      Fresh(s, q) && exists i :: 0 <= i < |s.job.history| && s.job.history[i].pid == Some(t)
    case SignalTouch(q) => SignallerAt(s, q, Touching) && s.job.dir.Some?
    case SignalGrep(q) => SignallerAt(s, q, Grepping)
    case SignalMatch(q) => SignallerAt(s, q, Matching)
    case SignalSend(q, _) => SignallerAt(s, q, Sending)
    case SignalAwait(q) => q in s.signallers && s.signallers[q].pc.Awaiting?
    case SignalRecheck(q) => SignallerAt(s, q, Rechecking)
    case SignalRewrite(q) => SignallerAt(s, q, Rewriting) && s.job.dir.Some?
    case SignalEcho(q) => SignallerAt(s, q, Echoing) && Published(s.job)
  }

  /** Print the status file and exit. */
  function EchoStatus(s: State, q: Pid): State
    requires q in s.signallers && Published(s.job)
  {
    s.(signallers := s.signallers[q := s.signallers[q].(pc := SignallerExited(0), output := Some(Status(s.job)))])
  }

  function GrepTerminal(s: State, q: Pid, otherwise: SignallerPc): State
    requires q in s.signallers
  {
    if IsTerminal(s.job) then EchoStatus(s, q) else MoveSignaller(s, q, otherwise)
  }

  function Send(s: State, q: Pid, victims: set<Pid>): State
    requires SignalEnabled(s, SignalSend(q, victims))
  {
    var shell := s.signallers[q];
    MoveSignaller(s, q, if shell.signal == TERM then Echoing else Awaiting(0)).(
      job := Deliver(s.job, shell.target, shell.signal, victims))
  }

  function Await(s: State, q: Pid): State
    requires SignalEnabled(s, SignalAwait(q))
  {
    if !LauncherAlive(s.job, s.signallers[q].target) && !OthersAlive(s.job) then MoveSignaller(s, q, Rechecking)
    else if s.signallers[q].pc.attempt >= 40 then MoveSignaller(s, q, SignallerExited(70))
    else MoveSignaller(s, q, Awaiting(s.signallers[q].pc.attempt + 1))
  }

  function ApplySignal(s: State, step: SignallerStep): State
    requires SignalEnabled(s, step)
  {
    match step
    case SignalSpawn(q, signal, t) => s.(signallers := s.signallers[q := Signaller(signal, t, Touching, None)])
    case SignalTouch(q) =>
      MoveSignaller(s, q, Grepping).(job := s.job.(dir := Some(s.job.dir.value.(request := true))))
    case SignalGrep(q) => GrepTerminal(s, q, Matching)
    case SignalMatch(q) =>
      if s.job.dir.Some? && s.job.dir.value.supervisor == Some(s.signallers[q].target)
      then MoveSignaller(s, q, Sending)
      else MoveSignaller(s, q, SignallerExited(64))
    case SignalSend(q, victims) => Send(s, q, victims)
    case SignalAwait(q) => Await(s, q)
    case SignalRecheck(q) => GrepTerminal(s, q, Rewriting)
    case SignalRewrite(q) =>
      MoveSignaller(s, q, Echoing).(
        job := Publish(s.job, JobStatus(Terminated, Some(s.signallers[q].target), Some(137))))
    case SignalEcho(q) => EchoStatus(s, q)
  }

  // Steps of the whole system

  datatype Step =
    | OfSubmission(submit: SubmissionStep)
    | OfLauncher(launch: LauncherStep)
    | OfPayload(work: PayloadStep)
    | OfSignaller(send: SignallerStep)
    | Crash(p: Pid)

  predicate Enabled(s: State, step: Step) {
    match step
    case OfSubmission(submit) => SubmitEnabled(s, submit)
    case OfLauncher(launch) => LaunchEnabled(s.job, launch) && (launch.LaunchFork? ==> Fresh(s, launch.born))
    case OfPayload(work) => WorkEnabled(s.job, work) && (work.PayloadFork? ==> Fresh(s, work.born))
    case OfSignaller(send) => SignalEnabled(s, send)
    case Crash(p) => JobProcessAlive(s.job, p) || SubmissionAlive(s, p) || SignallerAlive(s, p)
  }

  /** The submission lock after a launcher or payload step. */
  function LauncherSharesLock(lock: set<Pid>, step: LauncherStep): set<Pid> {
    if step.LaunchFork? then Inherit(lock, step.p, step.born) else lock
  }

  function PayloadSharesLock(lock: set<Pid>, step: PayloadStep): set<Pid> {
    match step
    case PayloadFork(p, q) => Inherit(lock, p, q)
    case PayloadClose(p) => lock - {p}
    case PayloadUnlock(p) => if p in lock then {} else lock
    case _ => lock
  }

  function CrashProcess(s: State, p: Pid): State
    requires Enabled(s, Crash(p))
  {
    if JobProcessAlive(s.job, p) then s.(job := Die(s.job, p))
    else if SubmissionAlive(s, p) then
      s.(submissions := s.submissions[p := s.submissions[p].(pc := SubmissionExited(137), output := None)])
    else
      s.(signallers := s.signallers[p := s.signallers[p].(pc := SignallerExited(137), output := None)])
  }

  /** The effect of a step before dead processes' descriptors are closed. */
  function Effect(s: State, step: Step): State
    requires Enabled(s, step)
  {
    match step
    case OfSubmission(submit) => ApplySubmit(s, submit)
    case OfLauncher(launch) =>
      s.(job := ApplyLaunch(s.job, launch), submissionLock := LauncherSharesLock(s.submissionLock, launch))
    case OfPayload(work) =>
      s.(job := ApplyWork(s.job, work), submissionLock := PayloadSharesLock(s.submissionLock, work))
    case OfSignaller(send) => ApplySignal(s, send)
    case Crash(p) => CrashProcess(s, p)
  }

  /** A dead process holds no descriptor, so no lock. */
  function CloseDescriptors(s: State): State {
    s.(job := s.job.(runLock := (set p | p in s.job.runLock && JobProcessAlive(s.job, p))),
       submissionLock := (set p | p in s.submissionLock && (JobProcessAlive(s.job, p) || SubmissionAlive(s, p))))
  }

  function Apply(s: State, step: Step): State
    requires Enabled(s, step)
  {
    CloseDescriptors(Effect(s, step))
  }

  function Successor(s: State, step: Step): Option<State> {
    if Enabled(s, step) then Some(Apply(s, step)) else None
  }

  /** A finite run: `states[i+1]` results from `steps[i]` in `states[i]`. */
  ghost predicate Run(states: seq<State>, steps: seq<Step>) {
    && |states| == |steps| + 1
    && states[0] == INIT
    && forall i {:trigger steps[i]} :: 0 <= i < |steps| ==> Successor(states[i], steps[i]) == Some(states[i + 1])
  }
}
