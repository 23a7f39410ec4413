/** What the runs can do, exactly: which state replaces which in the status file, and which codes FAILED carries. */
module JobWrites {
  import opened Options
  import opened Jobs
  import opened JobProtocol
  import opened JobInvariant
  import opened JobSafety
  import opened JobTheorems
  import opened JobWitness

  ghost predicate WritesAt(s: State, step: Step, from: JobState, to: JobState) {
    && Enabled(s, step) && Published(s.job) && Status(s.job).state == from
    && Published(Apply(s, step).job) && Status(Apply(s, step).job).state == to
  }

  /** In some run the one state directly replaces the other. */
  ghost predicate Replaces(from: JobState, to: JobState) {
    exists s, step :: Reachable(s) && WritesAt(s, step, from, to)
  }

  lemma ReachableOk(s: State)
    requires Reachable(s)
    ensures Inv(s)
  {
    var states, steps :| RunsTo(states, steps, s);
    RunOk(states, steps, |steps|);
  }

  // Every write is a writer's step

  lemma OneJobWrite(j: Job, step: LauncherStep)
    requires LaunchEnabled(j, step)
    ensures |ApplyLaunch(j, step).history| <= |j.history| + 1
  {
  }

  lemma NoPayloadWrite(j: Job, step: PayloadStep)
    requires WorkEnabled(j, step)
    ensures ApplyWork(j, step).history == j.history
  {
  }

  lemma OneSignallerWrite(s: State, step: SignallerStep)
    requires SignalEnabled(s, step)
    ensures |ApplySignal(s, step).job.history| <= |s.job.history| + 1
  {
  }

  lemma NoSubmissionWrite(s: State, step: SubmissionStep)
    requires SubmitEnabled(s, step) && s.job.dir.Some?
    ensures ApplySubmit(s, step).job.history == s.job.history
  {
  }

  lemma OneWriteAtATime(s: State, step: Step)
    requires Enabled(s, step) && s.job.dir.Some?
    ensures |Apply(s, step).job.history| <= |s.job.history| + 1
  {
    match step
    case OfSubmission(submit) => NoSubmissionWrite(s, submit);
    case OfLauncher(launch) => OneJobWrite(s.job, launch);
    case OfPayload(work) => NoPayloadWrite(s.job, work);
    case OfSignaller(send) => OneSignallerWrite(s, send);
    case Crash(_) =>
  }

  lemma WriteIsWriterStep(s: State, step: Step, from: JobState, to: JobState)
    requires Reachable(s) && WritesAt(s, step, from, to)
    ensures from == to || WriterStep(from, to)
  {
    ReachableOk(s);
    StepOk(s, step);
    OneWriteAtATime(s, step);
    LastFollows(s.job, Apply(s, step).job);
  }

  lemma LastFollows(j: Job, k: Job)
    requires DirectoryOk(j) && DirectoryOk(k) && j.dir.Some? && k.dir.Some?
    requires j.history <= k.history && |k.history| <= |j.history| + 1
    ensures Follows(Status(j), Status(k))
  {
    var n := |j.history|;
    assert k.history[n - 1] == j.history[n - 1];
  }

  lemma SpawnKill(s: State, q: Pid, l: Pid, state: JobState) returns (t: State)
    requires Reachable(s) && Fresh(s, q) && Supervised(s.job, l, state) && Status(s.job).pid == Some(l)
    ensures Reachable(t) && Killing(t, q, l, Touching, state)
  {
    ReachableOk(s);
    var n := |s.job.history| - 1;
    assert s.job.history[n] == Status(s.job);
    t := Next(s, OfSignaller(SignalSpawn(q, KILL, l)));
  }

  lemma KillReplaces(first: State, q: Pid, l: Pid, state: JobState)
    requires Reachable(first) && Fresh(first, q) && Supervised(first.job, l, state) && Status(first.job).pid == Some(l)
    requires !Terminal(state)
    ensures Replaces(state, Terminated)
  {
    var s := SpawnKill(first, q, l, state);
    s := KillGoes(s, q, l, Touching, state);
    s := KillGoes(s, q, l, Grepping, state);
    s := KillGoes(s, q, l, Matching, state);
    s := SendStep(s, q, l, state);
    s := AwaitStep(s, q, l, state);
    s := KillGoes(s, q, l, Rechecking, state);
    assert WritesAt(s, OfSignaller(SignalRewrite(q)), state, Terminated);
  }

  // Every writer's step occurs

  lemma StartingReplacesPrepared()
    ensures Replaces(Prepared, Starting)
  {
    var s := Trapped(1, 2);
    assert WritesAt(s, OfLauncher(LaunchAnnounce(2)), Prepared, Starting);
  }

  lemma RunningReplacesStarting()
    ensures Replaces(Starting, Running)
  {
    var s := Submitted(1, 2);
    s := ForkStep(s, 1, 2, 3);
    assert WritesAt(s, OfLauncher(LaunchRunning(2)), Starting, Running);
  }

  lemma SucceededReplacesRunning()
    ensures Replaces(Running, Succeeded)
  {
    var s := Finishes(1, 2, 3, 0, None);
    assert WritesAt(s, OfLauncher(LaunchFinish(2)), Running, Succeeded);
  }

  lemma FailedReplacesRunning()
    ensures Replaces(Running, Failed)
  {
    var s := Finishes(1, 2, 3, 1, None);
    assert WritesAt(s, OfLauncher(LaunchFinish(2)), Running, Failed);
  }

  lemma TerminatedReplacesStarting()
    ensures Replaces(Starting, Terminated)
  {
    var s := Submitted(1, 2);
    ReachableOk(s);
    assert LauncherOk(s.job, 2);
    KillReplaces(s, 4, 2, Starting);
  }

  lemma TerminatedReplacesRunning()
    ensures Replaces(Running, Terminated)
  {
    var s := Worked(1, 2, 3, 0, 0);
    ReachableOk(s);
    assert LauncherOk(s.job, 2);
    KillReplaces(s, 4, 2, Running);
  }

  /** One state directly replaces another in some run exactly when that is one of the writers' steps. */
  lemma WriterStepsAreExact(from: JobState, to: JobState)
    requires from != to
    ensures Replaces(from, to) <==> WriterStep(from, to)
  {
    forall s, step | Reachable(s) && WritesAt(s, step, from, to)
      ensures WriterStep(from, to)
    {
      WriteIsWriterStep(s, step, from, to);
    }
    StartingReplacesPrepared();
    RunningReplacesStarting();
    TerminatedReplacesStarting();
    SucceededReplacesRunning();
    FailedReplacesRunning();
    TerminatedReplacesRunning();
  }

  // The codes of FAILED

  /**
   In some run the child exits with `e`, the last wait is interrupted by the foreign signal `d` or by none, and
   FAILED is published with `code`.
   */
  ghost predicate FailsWith(code: int, e: int, d: Option<int>) {
    exists states, steps, c :: FailedRun(states, steps, c, code, e, d)
  }

  ghost predicate FailedRun(states: seq<State>, steps: seq<Step>, c: Pid, code: int, e: int, d: Option<int>) {
    && Run(states, steps) && LastDisturbance(steps) == d
    && var j := states[|steps|].job;
      && Published(j) && Status(j).state == Failed && Status(j).returncode == Some(code)
      && j.children.Keys == {c} && j.children[c].pc == ChildExited(e)
  }

  lemma FailedRunCode(states: seq<State>, steps: seq<Step>, c: Pid, code: int, e: int, d: Option<int>)
    requires FailedRun(states, steps, c, code, e, d)
    ensures code != 0 && (d.Some? ==> IsTrapped(d.value)) && code == WaitCode(e, d)
  {
    var child := FailedMeansChildEnded(states, steps, |steps|);
    assert steps[..|steps|] == steps;
    assert child in states[|steps|].job.children.Keys;
  }

  /**
   The code of FAILED is exactly the child's own where no foreign signal interrupted the last wait, and
   exactly 129, 130 or 143 where a HUP, an INT or a TERM did, whatever the child exited with.
   */
  lemma FailedCodesAreExact(code: int, e: int, d: Option<int>)
    requires 0 <= e < 256
    ensures FailsWith(code, e, d) <==> code != 0 && (d.Some? ==> IsTrapped(d.value)) && code == WaitCode(e, d)
  {
    forall states, steps, c | FailedRun(states, steps, c, code, e, d)
      ensures code != 0 && (d.Some? ==> IsTrapped(d.value)) && code == WaitCode(e, d)
    {
      FailedRunCode(states, steps, c, code, e, d);
    }
    if code != 0 && (d.Some? ==> IsTrapped(d.value)) && code == WaitCode(e, d) {
      var states, steps := Finished(1, 2, 3, e, d);
      DisturbanceIsRecorded(states, steps, |steps|);
      assert steps[..|steps|] == steps;
      assert FailedRun(states, steps, 3, code, e, d);
    }
  }
}
