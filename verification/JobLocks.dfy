/** Who holds the submission lock in every run, and by which steps submissions end. */
module JobLocks {
  import opened JobProtocol

  predicate PastLock(pc: SubmissionPc) {
    pc.Testing? || pc.Launching? || pc.Polling? || pc.Retesting? || pc.Reporting?
  }

  /** Submissions and job processes have different pids. */
  predicate PidsApart(s: State) {
    && s.submissions.Keys !! s.job.launchers.Keys
    && s.submissions.Keys !! s.job.children.Keys
    && s.submissions.Keys !! s.job.payloads.Keys
  }

  predicate Alive(s: State, p: Pid) {
    JobProcessAlive(s.job, p) || SubmissionAlive(s, p)
  }

  /** A submission whose descriptor holds the lock has taken it. */
  predicate TakenOk(s: State) {
    forall p :: p in s.submissionLock && p in s.submissions ==>
      PastLock(s.submissions[p].pc) || s.submissions[p].pc.SubmissionExited?
  }

  ghost predicate LockOk(s: State) {
    PidsApart(s) && TakenOk(s) && forall p :: p in s.submissionLock ==> Alive(s, p)
  }

  lemma SubmissionKeepsLock(s: State, step: SubmissionStep)
    requires LockOk(s) && SubmitEnabled(s, step)
    ensures PidsApart(ApplySubmit(s, step)) && TakenOk(ApplySubmit(s, step))
  {
    assert step.SubmitSpawn? ==> step.p !in s.submissionLock by {
      assert step.p in s.submissionLock ==> Alive(s, step.p);
    }
  }

  lemma JobKeepsLock(s: State, t: State, born: set<Pid>)
    requires LockOk(s) && t.submissions == s.submissions
    requires forall p :: p in born ==> Fresh(s, p)
    requires t.submissionLock <= s.submissionLock + born
    requires t.job.launchers.Keys <= s.job.launchers.Keys + born
    requires t.job.children.Keys <= s.job.children.Keys + born
    requires t.job.payloads.Keys <= s.job.payloads.Keys + born
    ensures PidsApart(t) && TakenOk(t)
  {
  }

  lemma LauncherKeepsLock(s: State, step: LauncherStep)
    requires LockOk(s) && Enabled(s, OfLauncher(step))
    ensures PidsApart(Effect(s, OfLauncher(step))) && TakenOk(Effect(s, OfLauncher(step)))
  {
    JobKeepsLock(s, Effect(s, OfLauncher(step)), if step.LaunchFork? then {step.born} else {});
  }

  lemma PayloadKeepsLock(s: State, step: PayloadStep)
    requires LockOk(s) && Enabled(s, OfPayload(step))
    ensures PidsApart(Effect(s, OfPayload(step))) && TakenOk(Effect(s, OfPayload(step)))
  {
    JobKeepsLock(s, Effect(s, OfPayload(step)), if step.PayloadFork? then {step.born} else {});
  }

  lemma SignallerKeepsLock(s: State, step: SignallerStep)
    requires LockOk(s) && Enabled(s, OfSignaller(step))
    ensures PidsApart(Effect(s, OfSignaller(step))) && TakenOk(Effect(s, OfSignaller(step)))
  {
    JobKeepsLock(s, Effect(s, OfSignaller(step)), {});
  }

  lemma CrashKeepsLock(s: State, p: Pid)
    requires LockOk(s) && Enabled(s, Crash(p))
    ensures PidsApart(CrashProcess(s, p)) && TakenOk(CrashProcess(s, p))
  {
    if JobProcessAlive(s.job, p) || !SubmissionAlive(s, p) {
      JobKeepsLock(s, CrashProcess(s, p), {});
    }
  }

  lemma StepKeepsLock(s: State, step: Step)
    requires LockOk(s) && Enabled(s, step)
    ensures LockOk(Apply(s, step))
  {
    match step {
      case OfSubmission(submit) => SubmissionKeepsLock(s, submit);
      case OfLauncher(launch) => LauncherKeepsLock(s, launch);
      case OfPayload(work) => PayloadKeepsLock(s, work);
      case OfSignaller(send) => SignallerKeepsLock(s, send);
      case Crash(p) => CrashKeepsLock(s, p);
    }
    ClosingKeepsLock(Effect(s, step));
  }

  lemma ClosingKeepsLock(s: State)
    requires PidsApart(s) && TakenOk(s)
    ensures LockOk(CloseDescriptors(s))
  {
    var t := CloseDescriptors(s);
    assert forall p :: Alive(t, p) <==> Alive(s, p);
  }

  /** In every state of a run the lock is held only by live processes, and by submissions only past its taking. */
  lemma {:induction false} LockIsHeldByTheLiving(states: seq<State>, steps: seq<Step>, i: nat)
    requires Run(states, steps) && i < |states|
    ensures LockOk(states[i])
  {
    if i > 0 {
      LockIsHeldByTheLiving(states, steps, i - 1);
      StepKeepsLock(states[i - 1], steps[i - 1]);
    }
  }

  /** What can hold the lock against a submission: a process of the job, or a submission that has taken it and not ended. */
  predicate Holds(s: State, q: Pid) {
    q in s.submissionLock && (JobProcessAlive(s.job, q) || (q in s.submissions && PastLock(s.submissions[q].pc)))
  }

  /**
   The lock step of a submission times out only against another process that is alive and holds the lock;
   while no launcher, child or payload is alive and no other submission is past the lock, it gets the lock.
   */
  lemma TimeoutNeedsHolder(states: seq<State>, steps: seq<Step>, i: nat, p: Pid)
    requires Run(states, steps) && i < |states| && SubmissionAt(states[i], p, Locking)
    ensures SubmitEnabled(states[i], SubmitTimeout(p)) <==> exists q :: q != p && Holds(states[i], q)
    ensures SubmitEnabled(states[i], SubmitLock(p)) <==> !exists q :: q != p && Holds(states[i], q)
  {
    var s := states[i];
    LockIsHeldByTheLiving(states, steps, i);
    if s.submissionLock != {} {
      var q :| q in s.submissionLock;
      assert Alive(s, q) && Holds(s, q) && q != p;
    }
  }

  // Exit codes

  /** The step by which a submission ends, and its code. */
  predicate Ends(s: State, step: Step, p: Pid, code: int) {
    || (step == OfSubmission(SubmitReport(p)) && code == 0)
    || (step == OfSubmission(SubmitTimeout(p)) && code == 70)
    || (step == OfSubmission(SubmitRetest(p)) && p in s.submissions && s.submissions[p].round >= 1 && IsPrepared(s.job)
        && code == 70)
    || (step == Crash(p) && !JobProcessAlive(s.job, p) && code == 137)
  }

  /** Closing descriptors leaves the submissions as they are. */
  lemma ClosingSparesSubmissions(s: State)
    ensures CloseDescriptors(s).submissions == s.submissions
  {
  }

  lemma NextOfSubmission(s: State, step: SubmissionStep, p: Pid, code: int)
    requires SubmitEnabled(s, step) && !step.SubmitCompare?
    requires p in s.submissions && !s.submissions[p].pc.SubmissionExited?
    ensures p in ApplySubmit(s, step).submissions
    ensures ApplySubmit(s, step).submissions[p].pc == SubmissionExited(code) <==> Ends(s, OfSubmission(step), p, code)
  {
  }

  lemma OthersSpareSubmissions(s: State, step: Step, p: Pid)
    requires Enabled(s, step) && !step.OfSubmission? && p in s.submissions
    requires step != Crash(p) || JobProcessAlive(s.job, p) || s.submissions[p].pc.SubmissionExited?
    ensures p in Effect(s, step).submissions && Effect(s, step).submissions[p] == s.submissions[p]
  {
  }

  lemma NextSubmission(s: State, step: Step, p: Pid, code: int)
    requires Enabled(s, step) && (step.OfSubmission? ==> !step.submit.SubmitCompare?)
    requires p in s.submissions && !s.submissions[p].pc.SubmissionExited?
    ensures p in Apply(s, step).submissions
    ensures Apply(s, step).submissions[p].pc == SubmissionExited(code) <==> Ends(s, step, p, code)
  {
    ClosingSparesSubmissions(Effect(s, step));
    if step.OfSubmission? {
      NextOfSubmission(s, step.submit, p, code);
    } else if step != Crash(p) || JobProcessAlive(s.job, p) {
      OthersSpareSubmissions(s, step, p);
    }
  }

  lemma ExitIsKept(s: State, step: Step, p: Pid)
    requires Enabled(s, step) && p in s.submissions && s.submissions[p].pc.SubmissionExited?
    ensures p in Apply(s, step).submissions && Apply(s, step).submissions[p].pc == s.submissions[p].pc
  {
    ClosingSparesSubmissions(Effect(s, step));
    if !step.OfSubmission? {
      OthersSpareSubmissions(s, step, p);
    }
  }

  lemma NewSubmission(s: State, step: Step, p: Pid)
    requires Enabled(s, step) && p !in s.submissions && p in Apply(s, step).submissions
    ensures Apply(s, step).submissions[p].pc == Staging(0)
  {
  }
}
