/** What the durable-job protocol promises about every run, whatever is retried, stalled, duplicated or killed. */
module JobTheorems {
  import opened Options
  import opened Jobs
  import opened JobProtocol
  import opened JobInvariant
  import opened JobSafety

  // At-most-once execution

  predicate StartsCommand(step: Step) {
    step.OfPayload? && step.work.ChildStart?
  }

  lemma StartIsRecorded(s: State, step: Step)
    requires Enabled(s, step) && StartsCommand(step)
    ensures |Apply(s, step).job.starts| == |s.job.starts| + 1
  {
  }

  /** The command begins at most once in a run. */
  lemma CommandStartsAtMostOnce(states: seq<State>, steps: seq<Step>, i: nat, k: nat)
    requires Run(states, steps) && i < k < |steps|
    ensures !(StartsCommand(steps[i]) && StartsCommand(steps[k]))
  {
    if StartsCommand(steps[i]) {
      StartIsRecorded(states[i], steps[i]);
      RunAdvances(states, steps, i + 1, k);
      NothingStartsTwice(states, steps, k);
    }
  }

  lemma NothingStartsTwice(states: seq<State>, steps: seq<Step>, k: nat)
    requires Run(states, steps) && k < |steps| && |states[k].job.starts| > 0
    ensures !StartsCommand(steps[k])
  {
    RunOk(states, steps, k + 1);
    if StartsCommand(steps[k]) {
      StartIsRecorded(states[k], steps[k]);
    }
  }

  // The status file

  /** Every content of the status file is valid and any two are ordered by the transition table. */
  lemma StatusHistoryIsLegal(states: seq<State>, steps: seq<Step>, i: nat)
    requires Run(states, steps) && i < |states|
    ensures states[i].job.dir.Some? ==>
      && Published(states[i].job) && LegalHistory(states[i].job.history)
      && Status(states[i].job) == states[i].job.history[|states[i].job.history| - 1]
    ensures states[i].job.dir.None? ==> states[i].job.history == []
  {
    RunOk(states, steps, i);
  }

  /** What a later reader sees after an earlier one: the same status, or a state the table allows. */
  lemma ReadersSeeTransitions(states: seq<State>, steps: seq<Step>, i: nat, k: nat)
    requires Run(states, steps) && i <= k < |states| && Published(states[i].job)
    ensures Published(states[k].job)
    ensures var (a, b) := (Status(states[i].job), Status(states[k].job));
      && (a == b || CanTransition(a.state, b.state))
      && (a.state != Prepared ==> b.pid == a.pid)
      && (Terminal(a.state) ==> a == b)
  {
    RunOk(states, steps, i);
    RunOk(states, steps, k);
    RunAdvances(states, steps, i, k);
    var a, b := states[i].job.history, states[k].job.history;
    assert b[|a| - 1] == a[|a| - 1];
    HistoryIsOrdered(b, |a| - 1, |b| - 1);
  }

  /** Once published, a job directory is complete and is never replaced by another stage. */
  lemma PublicationIsAtomicAndFinal(states: seq<State>, steps: seq<Step>, i: nat, k: nat)
    requires Run(states, steps) && i <= k < |states| && states[i].job.dir.Some?
    ensures states[i].job.dir.value.files == ALL_FILES && states[k].job.dir.Some?
    ensures states[i].job.history <= states[k].job.history
    ensures k < |steps| && steps[k].OfSubmission? && steps[k].submit.SubmitMove? ==>
      states[k + 1].job.dir == states[k].job.dir
  {
    RunOk(states, steps, i);
    RunAdvances(states, steps, i, k);
  }

  // Termination

  predicate SendsTerm(s: State, step: Step) {
    && step.OfSignaller? && step.send.SignalSend?
    && step.send.p in s.signallers && s.signallers[step.send.p].signal == TERM
  }

  /** No termination is lost: once a TERM has been sent, the command never begins. */
  lemma NoStartAfterTerm(states: seq<State>, steps: seq<Step>, i: nat, k: nat)
    requires Run(states, steps) && i < k < |steps|
    requires SendsTerm(states[i], steps[i])
    ensures !StartsCommand(steps[k])
  {
    var target := TermIsRecorded(states[i], steps[i]);
    RunAdvances(states, steps, i + 1, k);
    RunOk(states, steps, k);
    NothingStartsWhenTermed(states[k], steps[k], target);
  }

  lemma TermIsRecorded(s: State, step: Step) returns (target: Pid)
    requires Enabled(s, step) && SendsTerm(s, step)
    ensures target in Apply(s, step).job.termed
  {
    target := s.signallers[step.send.p].target;
  }

  lemma NothingStartsWhenTermed(s: State, step: Step, g: Pid)
    requires Inv(s) && Enabled(s, step) && g in s.job.termed
    ensures !StartsCommand(step)
  {
    assert StartsCommand(step) ==> ChildOk(s.job, step.work.p);
  }

  /**
   When a TERM is sent, a child that is still in the group has the command running, and so received
   the signal, or is dead; a child that never ran the command ends with 143 unless it was killed.
   */
  lemma TermReachesEveryChild(states: seq<State>, steps: seq<Step>, i: nat, k: nat, c: Pid)
    requires Run(states, steps) && i < k < |states|
    requires SendsTerm(states[i], steps[i])
    requires c in states[k].job.children
    ensures Requested(states[i].job)
    ensures c in states[i].job.children ==>
      var after := states[i + 1].job.children[c];
      after.inGroup && !after.pc.ChildExited? ==> after.pc == Executing
    ensures var late := states[k].job.children[c];
      late.pc.ChildExited? && c !in states[k].job.starts ==> late.pc.code == 143 || late.pc.code == 137
  {
    RunOk(states, steps, i);
    RunOk(states, steps, k);
    TermAt(states[i], steps[i], c);
    assert ChildOk(states[k].job, c);
  }

  lemma TermAt(s: State, step: Step, c: Pid)
    requires Inv(s) && Enabled(s, step) && SendsTerm(s, step)
    ensures Requested(s.job)
    ensures c in s.job.children ==>
      && c in Apply(s, step).job.children
      && (var after := Apply(s, step).job.children[c]; after.inGroup && !after.pc.ChildExited? ==> after.pc == Executing)
  {
    assert SignallerOk(s.job, s.signallers[step.send.p]);
    if c in s.job.children {
      assert ChildOk(s.job, c);
    }
  }

  /** TERMINATED is published only on request and only when nothing but the supervisor is left in the group, for ever after. */
  lemma TerminatedMeansGroupIsGone(states: seq<State>, steps: seq<Step>, i: nat, k: nat)
    requires Run(states, steps) && i <= k < |states|
    requires Published(states[i].job) && Status(states[i].job).state == Terminated
    ensures Requested(states[i].job)
    ensures !OthersAlive(states[k].job)
  {
    RunOk(states, steps, i);
    ReadersSeeTransitions(states, steps, i, k);
    RunOk(states, steps, k);
  }

  /** SUCCEEDED means that the command did begin, once, and that the child running it exited with zero. */
  lemma SucceededMeansCommandSucceeded(states: seq<State>, steps: seq<Step>, i: nat)
    requires Run(states, steps) && i < |states|
    requires Published(states[i].job) && Status(states[i].job).state == Succeeded
    ensures |states[i].job.starts| == 1
    ensures var c := states[i].job.starts[0];
      c in states[i].job.children && states[i].job.children[c].pc == ChildExited(0)
  {
    RunOk(states, steps, i);
  }

  function NextDisturbed(before: Option<int>, step: Step): Option<int> {
    if step.OfLauncher? && step.launch.LaunchDisturbed? then Some(step.launch.signalNumber)
    else if step.OfLauncher? && EndsWait(step.launch) then None
    else before
  }

  /** The foreign signal that interrupted the supervisor's last wait so far, if one did. */
  function LastDisturbance(steps: seq<Step>): Option<int> {
    if steps == [] then None
    else NextDisturbed(LastDisturbance(steps[..|steps| - 1]), steps[|steps| - 1])
  }

  lemma LauncherDisturbance(j: Job, step: LauncherStep)
    requires LaunchEnabled(j, step)
    ensures ApplyLaunch(j, step).disturbed ==
      if step.LaunchDisturbed? then Some(step.signalNumber) else if EndsWait(step) then None else j.disturbed
  {
  }

  lemma SubmissionsDoNotDisturb(s: State, step: SubmissionStep)
    requires SubmitEnabled(s, step)
    ensures ApplySubmit(s, step).job.disturbed == s.job.disturbed
  {
  }

  lemma WorkDoesNotDisturb(j: Job, step: PayloadStep)
    requires WorkEnabled(j, step)
    ensures ApplyWork(j, step).disturbed == j.disturbed
  {
  }

  lemma SignalsDoNotDisturb(s: State, step: SignallerStep)
    requires SignalEnabled(s, step)
    ensures ApplySignal(s, step).job.disturbed == s.job.disturbed
  {
  }

  lemma NextDisturbance(s: State, step: Step)
    requires Enabled(s, step)
    ensures Apply(s, step).job.disturbed == NextDisturbed(s.job.disturbed, step)
  {
    match step
    case OfSubmission(submit) => SubmissionsDoNotDisturb(s, submit);
    case OfLauncher(launch) => LauncherDisturbance(s.job, launch);
    case OfPayload(work) => WorkDoesNotDisturb(s.job, work);
    case OfSignaller(send) => SignalsDoNotDisturb(s, send);
    case Crash(_) =>
  }

  lemma LastDisturbanceOfOneMore(steps: seq<Step>, i: nat)
    requires i < |steps|
    ensures LastDisturbance(steps[..i + 1]) == NextDisturbed(LastDisturbance(steps[..i]), steps[i])
  {
    assert steps[..i + 1][..i] == steps[..i] && steps[..i + 1][i] == steps[i];
  }

  lemma {:induction false} DisturbanceIsRecorded(states: seq<State>, steps: seq<Step>, i: nat)
    requires Run(states, steps) && i < |states|
    ensures states[i].job.disturbed == LastDisturbance(steps[..i])
  {
    if i == 0 {
      assert steps[..i] == [];
    } else {
      DisturbanceIsRecorded(states, steps, i - 1);
      NextDisturbance(states[i - 1], steps[i - 1]);
      LastDisturbanceOfOneMore(steps, i - 1);
    }
  }

  /**
   FAILED means that the child is dead. Its code is the child's own, unless a foreign HUP, INT or TERM
   interrupted the supervisor's last wait, and then it is that signal's. The command had begun, exactly
   once, unless the child was killed before it did.
   */
  lemma FailedMeansChildEnded(states: seq<State>, steps: seq<Step>, i: nat) returns (c: Pid)
    requires Run(states, steps) && i < |states|
    requires Published(states[i].job) && Status(states[i].job).state == Failed
    ensures var j := states[i].job; var code := Status(j).returncode;
      && c in j.children && j.children[c].pc.ChildExited? && code.Some? && code.value != 0
      && (match LastDisturbance(steps[..i])
          case None => code.value == j.children[c].pc.code
          case Some(n) => IsTrapped(n) && code.value == 128 + n)
      && (j.starts == [c] || (j.starts == [] && j.children[c].pc.code == 137))
  {
    RunOk(states, steps, i);
    DisturbanceIsRecorded(states, steps, i);
    var j := states[i].job;
    assert ValidStatus(j.history[|j.history| - 1]);
    c :| c in j.children;
    assert EndOk(j, j.children[c], c, Status(j).returncode.value);
  }

  // Acknowledgements

  /** A submission that exits zero has printed a status some launcher wrote, so one that carries a pid. */
  lemma SubmissionAcknowledgesStart(states: seq<State>, steps: seq<Step>, i: nat, p: Pid)
    requires Run(states, steps) && i < |states|
    requires p in states[i].submissions && states[i].submissions[p].pc == SubmissionExited(0)
    ensures var output := states[i].submissions[p].output;
      output.Some? && output.value in states[i].job.history && output.value.pid.Some?
  {
    RunOk(states, steps, i);
    var j := states[i].job;
    assert SubmissionOk(j, states[i].submissions[p]);
    var n :| 0 <= n < |j.history| && j.history[n] == states[i].submissions[p].output.value;
    PidMeansStarted(j.history, n);
  }

  /** A signal shell never meets a foreign supervisor record, and a KILL shell that exits zero prints a terminal status. */
  lemma SignalShellsAcknowledge(states: seq<State>, steps: seq<Step>, i: nat, q: Pid)
    requires Run(states, steps) && i < |states| && q in states[i].signallers
    ensures states[i].signallers[q].pc != SignallerExited(64)
    ensures var shell := states[i].signallers[q];
      shell.pc == SignallerExited(0) ==>
        && shell.output.Some? && shell.output.value in states[i].job.history
        && (shell.signal == KILL ==> Terminal(shell.output.value.state))
  {
    RunOk(states, steps, i);
    assert SignallerOk(states[i].job, states[i].signallers[q]);
  }
}
