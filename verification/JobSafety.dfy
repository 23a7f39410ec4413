/** Safety of the whole durable-job protocol: invariants of the shells around a job, and the theorems about runs. */
module JobSafety {
  import opened Options
  import opened Jobs
  import opened JobProtocol
  import opened JobInvariant

  const COMPLETE_STAGE := Directory(ALL_FILES, Some(PREPARED_STATUS), None, false)

  function KilledStatus(p: Pid): JobStatus {
    JobStatus(Terminated, Some(p), Some(137))
  }

  /** The supervisor has gone and its process group is empty. */
  ghost predicate Quiet(j: Job, p: Pid) {
    RunBy(j, p) && !LauncherAlive(j, p) && !OthersAlive(j)
  }

  /** What can no longer change about a job, in one step or in any number of them. */
  ghost predicate Advances(a: Job, b: Job) {
    && (Published(a) ==> Published(b) && b.dir.value.files == a.dir.value.files)
    && (Published(a) && Status(a).state != Prepared ==> Status(b).state != Prepared)
    && (IsTerminal(a) ==> IsTerminal(b) && Status(b) == Status(a))
    && (Requested(a) ==> Requested(b))
    && a.history <= b.history
    && a.starts <= b.starts
    && a.termed <= b.termed
    && (forall p :: RunBy(a, p) ==> RunBy(b, p))
    && (forall p :: Quiet(a, p) ==> Quiet(b, p) && (Status(b) == Status(a) || Status(b) == KilledStatus(p)))
  }

  function StagedFiles(k: nat): set<FileName>
    requires k <= |STAGE_ORDER|
  {
    set i | 0 <= i < k :: STAGE_ORDER[i]
  }

  ghost predicate SubmissionOk(j: Job, shell: Submission) {
    match shell.pc
    case Staging(k) =>
      && k < |STAGE_ORDER|
      && shell.stage.files == StagedFiles(k)
      && shell.stage.status == (if k > 2 then Some(PREPARED_STATUS) else None)
      && shell.stage.supervisor == None && !shell.stage.request
    case Moving => shell.stage == COMPLETE_STAGE
    case Reporting => Published(j) && !IsPrepared(j)
    case SubmissionExited(code) =>
      code == 0 ==> shell.output.Some? && shell.output.value in j.history && shell.output.value.state != Prepared
    case _ => Published(j)
  }

  ghost predicate SignallerOk(j: Job, shell: Signaller) {
    && RunBy(j, shell.target)
    && (!shell.pc.Touching? && shell.pc != SignallerExited(137) ==> Requested(j))
    && (shell.pc.Awaiting? || shell.pc.Rechecking? || shell.pc.Rewriting? ==> shell.signal == KILL)
    && (shell.pc.Rechecking? || shell.pc.Rewriting? ==> Quiet(j, shell.target))
    && (shell.pc.Rewriting? ==> !IsTerminal(j) || Status(j) == KilledStatus(shell.target))
    && (shell.pc.Echoing? && shell.signal == KILL ==> IsTerminal(j))
    && (shell.pc == SignallerExited(0) ==>
      && shell.output.Some? && shell.output.value in j.history
      && (shell.signal == KILL ==> Terminal(shell.output.value.state)))
    && shell.pc != SignallerExited(64)
  }

  ghost predicate ShellsOk(s: State) {
    && (forall p :: p in s.submissions ==> SubmissionOk(s.job, s.submissions[p]))
    && (forall q :: q in s.signallers ==> SignallerOk(s.job, s.signallers[q]))
  }

  ghost predicate Inv(s: State) {
    JobInv(s.job) && ShellsOk(s)
  }

  // Steps of the job only advance it

  lemma AdvancesReflexively(a: Job)
    ensures Advances(a, a)
  {
  }

  lemma AdvancesTransitively(a: Job, b: Job, c: Job)
    requires Advances(a, b) && Advances(b, c)
    ensures Advances(a, c)
  {
  }

  /** Steps that change neither the directory nor the recorded past, and revive nothing. */
  lemma QuietlyAdvances(a: Job, b: Job)
    requires b.dir == a.dir && b.history == a.history && a.starts <= b.starts && a.termed <= b.termed
    requires forall p :: Quiet(a, p) ==> !LauncherAlive(b, p) && !OthersAlive(b)
    ensures Advances(a, b)
  {
  }

  lemma WritingAdvances(j: Job, step: LauncherStep)
    requires JobInv(j) && LaunchEnabled(j, step)
    requires step.LaunchRecord? || step.LaunchAnnounce? || step.LaunchRunning? || step.LaunchFinish?
    ensures Advances(j, ApplyLaunch(j, step))
  {
    assert LauncherOk(j, step.p);
    assert !IsTerminal(j);
    assert forall p :: !Quiet(j, p);
  }

  lemma ForkAdvances(j: Job, p: Pid, c: Pid)
    requires JobInv(j) && LaunchEnabled(j, LaunchFork(p, c)) && FreshInJob(j, c)
    ensures Advances(j, Fork(j, p, c))
  {
    assert LauncherOk(j, p);
    assert forall q :: !Quiet(j, q);
    QuietlyAdvances(j, Fork(j, p, c));
  }

  lemma LauncherAdvances(j: Job, step: LauncherStep)
    requires JobInv(j) && LaunchEnabled(j, step)
    requires step.LaunchFork? ==> FreshInJob(j, step.born)
    ensures Advances(j, ApplyLaunch(j, step))
  {
    if step.LaunchRecord? || step.LaunchAnnounce? || step.LaunchRunning? || step.LaunchFinish? {
      WritingAdvances(j, step);
    } else if step.LaunchFork? {
      ForkAdvances(j, step.p, step.born);
    } else {
      RecordAdvances(j, step);
    }
  }

  lemma RecordAdvances(j: Job, step: LauncherStep)
    requires LaunchEnabled(j, step) && (ChangesRecordOnly(step) || EndsWait(step) || step.LaunchLock?)
    ensures Advances(j, ApplyLaunch(j, step))
  {
    RecordNeedsLife(j, step);
    QuietlyAdvances(j, ApplyLaunch(j, step));
  }

  lemma RecordNeedsLife(j: Job, step: LauncherStep)
    requires LaunchEnabled(j, step) && (ChangesRecordOnly(step) || EndsWait(step) || step.LaunchLock?)
    ensures OthersAlive(ApplyLaunch(j, step)) ==> OthersAlive(j)
  {
  }

  /** Work brings nobody in the group to life where nobody is alive. */
  lemma WorkNeedsLife(j: Job, step: PayloadStep)
    requires WorkEnabled(j, step)
    ensures OthersAlive(ApplyWork(j, step)) ==> OthersAlive(j)
  {
  }

  lemma PayloadAdvances(j: Job, step: PayloadStep)
    requires JobInv(j) && WorkEnabled(j, step)
    requires step.PayloadFork? ==> FreshInJob(j, step.born)
    ensures Advances(j, ApplyWork(j, step))
  {
    WorkNeedsLife(j, step);
    QuietlyAdvances(j, ApplyWork(j, step));
  }

  lemma DeliverAdvances(j: Job, g: Pid, signal: Signal, victims: set<Pid>)
    requires JobInv(j) && RunBy(j, g)
    ensures Advances(j, Deliver(j, g, signal, victims))
  {
    var k := Deliver(j, g, signal, victims);
    assert OthersAlive(k) ==> OthersAlive(j);
    QuietlyAdvances(j, k);
  }

  lemma DieAdvances(j: Job, p: Pid)
    requires JobInv(j) && JobProcessAlive(j, p)
    ensures Advances(j, Die(j, p))
  {
    var k := Die(j, p);
    assert OthersAlive(k) ==> OthersAlive(j);
    QuietlyAdvances(j, k);
  }

  lemma ShellsAdvance(s: State, after: Job)
    requires ShellsOk(s) && Advances(s.job, after)
    ensures ShellsOk(s.(job := after))
  {
    var t := s.(job := after);
    forall p | p in t.submissions ensures SubmissionOk(t.job, t.submissions[p]) {
      assert SubmissionOk(s.job, s.submissions[p]);
    }
    forall q | q in t.signallers ensures SignallerOk(t.job, t.signallers[q]) {
      assert SignallerOk(s.job, s.signallers[q]);
    }
  }

  // Every step keeps the invariant

  lemma StagedFilesStep(k: nat)
    requires k < |STAGE_ORDER|
    ensures StagedFiles(k + 1) == StagedFiles(k) + {STAGE_ORDER[k]}
    ensures StagedFiles(|STAGE_ORDER|) == ALL_FILES
  {
    assert STAGE_ORDER[0] == SpecJson && STAGE_ORDER[1] == LaunchSh && STAGE_ORDER[2] == StatusJson;
    assert STAGE_ORDER[3] == Stdout && STAGE_ORDER[4] == Stderr && STAGE_ORDER[5] == LauncherStderr;
    assert SpecJson in StagedFiles(6) && LaunchSh in StagedFiles(6) && StatusJson in StagedFiles(6)
      && Stdout in StagedFiles(6) && Stderr in StagedFiles(6) && LauncherStderr in StagedFiles(6);
  }

  lemma StagingOk(s: State, p: Pid)
    requires Inv(s) && SubmitEnabled(s, SubmitStage(p))
    ensures Inv(Stage(s, p))
  {
    assert SubmissionOk(s.job, s.submissions[p]);
    StagedFilesStep(s.submissions[p].pc.next);
    OneSubmissionMoves(s, Stage(s, p), p);
  }

  lemma NextSubmissionOk(s: State, step: SubmissionStep)
    requires SubmitEnabled(s, step) && !step.SubmitStage? && !step.SubmitMove? && !step.SubmitLaunch?
    requires step.p in s.submissions ==> SubmissionOk(s.job, s.submissions[step.p])
    requires Published(s.job) ==> s.job.history != [] && s.job.history[|s.job.history| - 1] == Status(s.job)
    ensures var t := ApplySubmit(s, step);
      t.job == s.job && OnlySubmission(s, t, step.p) && SubmissionOk(s.job, t.submissions[step.p])
  {
    assert StagedFiles(0) == {};
  }

  lemma SubmissionRecordOk(s: State, step: SubmissionStep)
    requires Inv(s) && SubmitEnabled(s, step)
    requires !step.SubmitStage? && !step.SubmitMove? && !step.SubmitLaunch?
    ensures Inv(ApplySubmit(s, step)) && ApplySubmit(s, step).job == s.job
  {
    NextSubmissionOk(s, step);
    OneSubmissionMoves(s, ApplySubmit(s, step), step.p);
  }

  predicate OnlySubmission(s: State, t: State, p: Pid) {
    && t.signallers == s.signallers
    && p in t.submissions && t.submissions == s.submissions[p := t.submissions[p]]
  }

  lemma OneSubmissionMoves(s: State, t: State, p: Pid)
    requires ShellsOk(s) && Advances(s.job, t.job)
    requires OnlySubmission(s, t, p) && SubmissionOk(t.job, t.submissions[p])
    ensures ShellsOk(t)
  {
    ShellsAdvance(s, t.job);
  }

  lemma SubmissionStepOk(s: State, step: SubmissionStep)
    requires Inv(s) && SubmitEnabled(s, step)
    ensures Inv(ApplySubmit(s, step))
    ensures Advances(s.job, ApplySubmit(s, step).job)
  {
    match step
    case SubmitMove(p) => MoveOk(s, p);
    case SubmitLaunch(p, l) => LaunchOk(s, p, l);
    case SubmitStage(p) => StagingOk(s, p);
    case _ => SubmissionRecordOk(s, step);
  }

  lemma LaunchOk(s: State, p: Pid, l: Pid)
    requires Inv(s) && SubmitEnabled(s, SubmitLaunch(p, l))
    ensures Inv(Launch(s, p, l))
    ensures Advances(s.job, Launch(s, p, l).job)
  {
    assert SubmissionOk(s.job, s.submissions[p]);
    NewLauncherKeepsInv(s.job, l);
    var k := s.job.(launchers := s.job.launchers[l := Launcher(Opened, None, 0)]);
    assert OthersAlive(k) ==> OthersAlive(s.job);
    QuietlyAdvances(s.job, k);
    OneSubmissionMoves(s, Launch(s, p, l), p);
  }

  lemma FirstPublication(j: Job)
    requires JobInv(j) && j.dir.None?
    ensures JobInv(PublishStage(j, COMPLETE_STAGE)) && Advances(j, PublishStage(j, COMPLETE_STAGE))
  {
    assert PublishStage(j, COMPLETE_STAGE).history == [PREPARED_STATUS];
  }

  lemma MoveOk(s: State, p: Pid)
    requires Inv(s) && SubmitEnabled(s, SubmitMove(p))
    ensures Inv(Move(s, p))
    ensures Advances(s.job, Move(s, p).job)
  {
    assert SubmissionOk(s.job, s.submissions[p]);
    if s.job.dir.None? {
      FirstPublication(s.job);
    }
    OneSubmissionMoves(s, Move(s, p), p);
  }

  /** The pid a signal shell carries is the supervisor's. */
  lemma HistoricPidIsCurrent(j: Job, i: nat, t: Pid)
    requires JobInv(j) && i < |j.history| && j.history[i].pid == Some(t)
    ensures RunBy(j, t)
  {
    HistoryIsOrdered(j.history, i, |j.history| - 1);
  }

  predicate ChangesJob(step: SignallerStep) {
    step.SignalTouch? || step.SignalSend? || step.SignalRewrite?
  }

  lemma OneSignallerMoves(s: State, t: State, q: Pid)
    requires ShellsOk(s) && Advances(s.job, t.job)
    requires OnlySignaller(s, t, q) && SignallerOk(t.job, t.signallers[q])
    ensures ShellsOk(t)
  {
    ShellsAdvance(s, t.job);
  }

  predicate OnlySignaller(s: State, t: State, q: Pid) {
    && t.submissions == s.submissions
    && q in t.signallers && t.signallers == s.signallers[q := t.signallers[q]]
  }

  lemma NextSignallerOk(s: State, step: SignallerStep)
    requires SignalEnabled(s, step) && !ChangesJob(step) && !step.SignalSpawn?
    requires SignallerOk(s.job, s.signallers[step.p])
    requires s.job.history != [] && s.job.history[|s.job.history| - 1] == Status(s.job)
    ensures SignallerOk(s.job, ApplySignal(s, step).signallers[step.p])
    ensures OnlySignaller(s, ApplySignal(s, step), step.p) && ApplySignal(s, step).job == s.job
  {
    assert Status(s.job) in s.job.history;
  }

  lemma RecordMoves(s: State, t: State, q: Pid)
    requires Inv(s) && t.job == s.job && OnlySignaller(s, t, q) && SignallerOk(t.job, t.signallers[q])
    ensures Inv(t)
  {
    OneSignallerMoves(s, t, q);
  }

  lemma SignallerRecordOk(s: State, step: SignallerStep)
    requires Inv(s) && SignalEnabled(s, step) && !ChangesJob(step) && !step.SignalSpawn?
    ensures Inv(ApplySignal(s, step)) && ApplySignal(s, step).job == s.job
  {
    assert SignallerOk(s.job, s.signallers[step.p]);
    NextSignallerOk(s, step);
    RecordMoves(s, ApplySignal(s, step), step.p);
  }

  lemma SpawnOk(s: State, q: Pid, signal: Signal, t: Pid)
    requires Inv(s) && SignalEnabled(s, SignalSpawn(q, signal, t))
    ensures Inv(ApplySignal(s, SignalSpawn(q, signal, t)))
  {
    var i :| 0 <= i < |s.job.history| && s.job.history[i].pid == Some(t);
    HistoricPidIsCurrent(s.job, i, t);
    OneSignallerMoves(s, ApplySignal(s, SignalSpawn(q, signal, t)), q);
  }

  lemma TouchOk(s: State, q: Pid)
    requires Inv(s) && SignalEnabled(s, SignalTouch(q))
    ensures Inv(ApplySignal(s, SignalTouch(q)))
    ensures Advances(s.job, ApplySignal(s, SignalTouch(q)).job)
  {
    assert SignallerOk(s.job, s.signallers[q]);
    TouchKeepsInv(s.job);
    assert OthersAlive(ApplySignal(s, SignalTouch(q)).job) ==> OthersAlive(s.job);
    OneSignallerMoves(s, ApplySignal(s, SignalTouch(q)), q);
  }

  lemma SendOk(s: State, q: Pid, victims: set<Pid>)
    requires Inv(s) && SignalEnabled(s, SignalSend(q, victims))
    ensures Inv(Send(s, q, victims))
    ensures Advances(s.job, Send(s, q, victims).job)
  {
    var shell := s.signallers[q];
    assert SignallerOk(s.job, shell);
    DeliverKeepsInv(s.job, shell.target, shell.signal, victims);
    DeliverAdvances(s.job, shell.target, shell.signal, victims);
    OneSignallerMoves(s, Send(s, q, victims), q);
  }

  lemma SignallerStepOk(s: State, step: SignallerStep)
    requires Inv(s) && SignalEnabled(s, step)
    ensures Inv(ApplySignal(s, step))
    ensures Advances(s.job, ApplySignal(s, step).job)
  {
    match step
    case SignalSpawn(q, signal, t) => SpawnOk(s, q, signal, t);
    case SignalTouch(q) => TouchOk(s, q);
    case SignalSend(q, victims) => SendOk(s, q, victims);
    case SignalRewrite(q) =>
      assert SignallerOk(s.job, s.signallers[q]);
      RewriteOk(s.job, s.signallers[q].target);
      OneSignallerMoves(s, ApplySignal(s, step), q);
    case _ => SignallerRecordOk(s, step);
  }

  /** A KILL shell that found the group empty and no terminal status publishes one. */
  lemma RewriteOk(j: Job, p: Pid)
    requires JobInv(j) && Quiet(j, p) && Requested(j)
    requires !IsTerminal(j) || Status(j) == KilledStatus(p)
    ensures JobInv(Publish(j, KilledStatus(p)))
    ensures Advances(j, Publish(j, KilledStatus(p)))
  {
    forall l | LauncherAlive(j, l) ensures !AfterAnnounce(j.launchers[l].pc) { assert LauncherOk(j, l); }
    PublishKeepsInv(j, KilledStatus(p), p);
    assert OthersAlive(Publish(j, KilledStatus(p))) ==> OthersAlive(j);
  }

  lemma CrashOk(s: State, p: Pid)
    requires Inv(s) && Enabled(s, Crash(p))
    ensures Inv(CrashProcess(s, p))
    ensures Advances(s.job, CrashProcess(s, p).job)
  {
    if JobProcessAlive(s.job, p) {
      DieKeepsInv(s.job, p);
      DieAdvances(s.job, p);
      ShellsAdvance(s, Die(s.job, p));
    } else if p in s.signallers {
      assert SignallerOk(s.job, s.signallers[p]);
    }
  }

  lemma EffectOk(s: State, step: Step)
    requires Inv(s) && Enabled(s, step)
    ensures Inv(Effect(s, step))
    ensures Advances(s.job, Effect(s, step).job)
  {
    match step
    case OfSubmission(submit) => SubmissionStepOk(s, submit);
    case OfLauncher(launch) =>
      LauncherKeepsInv(s.job, launch);
      LauncherAdvances(s.job, launch);
      ShellsAdvance(s, ApplyLaunch(s.job, launch));
    case OfPayload(work) =>
      PayloadKeepsInv(s.job, work);
      PayloadAdvances(s.job, work);
      ShellsAdvance(s, ApplyWork(s.job, work));
    case OfSignaller(send) => SignallerStepOk(s, send);
    case Crash(p) => CrashOk(s, p);
  }

  lemma DescriptorsOk(s: State)
    requires Inv(s)
    ensures Inv(CloseDescriptors(s))
    ensures Advances(s.job, CloseDescriptors(s).job)
  {
    var after := set p | p in s.job.runLock && JobProcessAlive(s.job, p);
    LockKeepsInv(s.job, after);
    var k := s.job.(runLock := after);
    assert OthersAlive(k) ==> OthersAlive(s.job);
    QuietlyAdvances(s.job, k);
    ShellsAdvance(s, k);
  }

  lemma StepOk(s: State, step: Step)
    requires Inv(s) && Enabled(s, step)
    ensures Inv(Apply(s, step))
    ensures Advances(s.job, Apply(s, step).job)
  {
    EffectOk(s, step);
    DescriptorsOk(Effect(s, step));
    AdvancesTransitively(s.job, Effect(s, step).job, Apply(s, step).job);
  }

  lemma {:induction false} RunOk(states: seq<State>, steps: seq<Step>, i: nat)
    requires Run(states, steps) && i < |states|
    ensures Inv(states[i])
  {
    if i > 0 {
      RunOk(states, steps, i - 1);
      StepOk(states[i - 1], steps[i - 1]);
    }
  }

  lemma RunStepAdvances(states: seq<State>, steps: seq<Step>, k: nat)
    requires Run(states, steps) && k < |steps|
    ensures Advances(states[k].job, states[k + 1].job)
  {
    RunOk(states, steps, k);
    StepOk(states[k], steps[k]);
  }

  lemma {:induction false} RunAdvances(states: seq<State>, steps: seq<Step>, i: nat, k: nat)
    requires Run(states, steps) && i <= k < |states|
    ensures Advances(states[i].job, states[k].job)
    decreases k
  {
    if i == k {
      AdvancesReflexively(states[i].job);
    } else {
      RunAdvances(states, steps, i, k - 1);
      RunStepAdvances(states, steps, k - 1);
      AdvancesTransitively(states[i].job, states[k - 1].job, states[k].job);
    }
  }
}
