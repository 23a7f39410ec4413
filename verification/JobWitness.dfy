/**
 Some runs: the safety theorems do not speak of an empty protocol. The command exits with any code, and a
 foreign signal may interrupt the wait for it; a repeated submission is not acknowledged although its job is
 running; a KILL shell has to write the status.
 */
module JobWitness {
  import opened Options
  import opened Jobs
  import opened JobProtocol

  ghost predicate RunsTo(states: seq<State>, steps: seq<Step>, s: State) {
    Run(states, steps) && states[|steps|] == s
  }

  lemma NoSteps()
    ensures RunsTo([INIT], [], INIT)
  {
  }

  lemma OneMoreStep(states: seq<State>, steps: seq<Step>, before: State, step: Step, s: State)
    requires RunsTo(states, steps, before) && Successor(before, step) == Some(s)
    ensures RunsTo(states + [s], steps + [step], s)
  {
    var (longer, more) := (states + [s], steps + [step]);
    forall i | 0 <= i < |more|
      ensures Successor(longer[i], more[i]) == Some(longer[i + 1])
    {
      if i < |steps| {
        assert longer[i] == states[i] && more[i] == steps[i] && longer[i + 1] == states[i + 1];
      }
    }
  }

  ghost predicate Reachable(s: State) {
    exists states, steps :: RunsTo(states, steps, s)
  }

  lemma Next(s: State, step: Step) returns (t: State)
    requires Reachable(s) && Enabled(s, step)
    ensures t == Apply(s, step) && Reachable(t)
  {
    var states, steps :| RunsTo(states, steps, s);
    t := Apply(s, step);
    OneMoreStep(states, steps, s, step, t);
  }

  /** One submission is staging; nothing else has happened. */
  predicate OnlyStages(s: State, p: Pid, next: nat) {
    && s.job == INIT.job && s.signallers == map[] && s.submissionLock == {}
    && s.submissions.Keys == {p}
    && s.submissions[p].pc == (if next == |STAGE_ORDER| then Moving else Staging(next))
    && s.submissions[p].round == 0
    && s.submissions[p].stage.status == (if next > 2 then Some(PREPARED_STATUS) else None)
    && (next > 0 ==> SpecJson in s.submissions[p].stage.files) && (next > 1 ==> LaunchSh in s.submissions[p].stage.files)
    && !s.submissions[p].stage.request
  }

  /** A published job with one submission, perhaps one launcher and perhaps its child; nobody has asked for termination. */
  predicate Going(s: State, p: Pid, pc: SubmissionPc, launchers: map<Pid, Launcher>, children: map<Pid, Child>, status: JobStatus) {
    && s.submissions.Keys == {p} && s.submissions[p].pc == pc && s.signallers == map[]
    && s.job.launchers == launchers && s.job.children == children && s.job.payloads == map[]
    && Published(s.job) && Status(s.job) == status && !Requested(s.job) && Comparable(s.job)
  }

  /** The files that a repeated submission compares are there. */
  predicate Comparable(j: Job) {
    j.dir.Some? && {SpecJson, LaunchSh} <= j.dir.value.files
  }

  lemma Spawn(p: Pid) returns (t: State)
    ensures Reachable(t) && OnlyStages(t, p, 0)
  {
    NoSteps();
    t := Next(INIT, OfSubmission(SubmitSpawn(p)));
    assert t.job.runLock == {} && t.submissionLock == {} && t.submissions.Keys == {p};
  }

  lemma StageOne(s: State, p: Pid, next: nat) returns (t: State)
    requires Reachable(s) && OnlyStages(s, p, next) && next < |STAGE_ORDER|
    ensures Reachable(t) && OnlyStages(t, p, next + 1)
  {
    t := Next(s, OfSubmission(SubmitStage(p)));
    assert t.job.runLock == {} && t.submissionLock == {} && t.submissions.Keys == {p};
  }

  lemma StageAll(p: Pid) returns (s: State)
    ensures Reachable(s) && OnlyStages(s, p, |STAGE_ORDER|)
  {
    s := Spawn(p);
    for next := 0 to |STAGE_ORDER|
      invariant Reachable(s) && OnlyStages(s, p, next)
    {
      s := StageOne(s, p, next);
    }
  }

  lemma MoveStep(s: State, p: Pid) returns (t: State)
    requires Reachable(s) && OnlyStages(s, p, |STAGE_ORDER|)
    ensures Reachable(t) && Submits(t, p, Locking)
  {
    t := Next(s, OfSubmission(SubmitMove(p)));
    assert t.submissions.Keys == {p};
  }

  /** It holds its lock once it has taken it. */
  predicate Submits(s: State, p: Pid, pc: SubmissionPc) {
    && Going(s, p, pc, map[], map[], PREPARED_STATUS)
    && s.job.runLock == {} && s.submissionLock == (if pc == Locking then {} else {p})
  }

  function SubmissionStepAt(pc: SubmissionPc, p: Pid): Step {
    OfSubmission(
      if pc.Locking? then SubmitLock(p) else if pc.Testing? then SubmitTest(p) else if pc.Polling? then SubmitPoll(p)
      else SubmitRetest(p))
  }

  lemma LockAndTest(s: State, p: Pid, pc: SubmissionPc) returns (t: State)
    requires Reachable(s) && Submits(s, p, pc) && (pc.Locking? || pc.Testing?)
    ensures Reachable(t) && Submits(t, p, if pc.Locking? then Testing else Launching)
  {
    t := Next(s, SubmissionStepAt(pc, p));
    assert t.submissions.Keys == {p};
  }

  lemma LaunchStep(s: State, p: Pid, l: Pid) returns (t: State)
    requires Reachable(s) && Submits(s, p, Launching) && l != p
    ensures Reachable(t) && Alone(t, p, l, Opened, Prepared) && t.job.runLock == {}
  {
    t := Next(s, OfSubmission(SubmitLaunch(p, l)));
    assert t.submissions.Keys == {p};
  }

  function StatusOf(l: Pid, state: JobState): JobStatus {
    if state == Prepared then PREPARED_STATUS else JobStatus(state, Some(l), None)
  }

  /** The launcher is at `pc`, has no child yet, and the status file says `state`; it shares the submission lock. */
  predicate Alone(s: State, p: Pid, l: Pid, pc: LauncherPc, state: JobState) {
    && Going(s, p, Polling(0), map[l := Launcher(pc, None, 0)], map[], StatusOf(l, state))
    && s.submissionLock == {p, l}
  }

  /** The launcher is at `pc`, its child is at `child`, and the status file says `state`. */
  predicate WithChild(s: State, p: Pid, l: Pid, c: Pid, pc: LauncherPc, child: ChildPc, state: JobState) {
    Going(s, p, Polling(0), map[l := Launcher(pc, Some(c), 0)], map[c := Child(l, child, true)], StatusOf(l, state))
  }

  function LauncherStepAt(pc: LauncherPc, l: Pid): Step {
    OfLauncher(
      if pc.Opened? then LaunchLock(l) else if pc.Locked? then LaunchCheck(l) else if pc.Checked? then LaunchRecord(l)
      else LaunchTrap(l))
  }

  function LauncherPcAfter(pc: LauncherPc): LauncherPc {
    if pc.Opened? then Locked else if pc.Locked? then Checked else if pc.Checked? then Recorded else Trapping
  }

  /** The steps of a launcher before it announces itself. */
  lemma BeforeAnnounce(s: State, p: Pid, l: Pid, pc: LauncherPc) returns (t: State)
    requires Reachable(s) && Alone(s, p, l, pc, Prepared)
    requires pc.Opened? || pc.Locked? || pc.Checked? || pc.Recorded?
    requires pc.Opened? ==> s.job.runLock == {}
    ensures Reachable(t) && Alone(t, p, l, LauncherPcAfter(pc), Prepared)
  {
    t := Next(s, LauncherStepAt(pc, l));
  }

  lemma AnnounceStep(s: State, p: Pid, l: Pid) returns (t: State)
    requires Reachable(s) && Alone(s, p, l, Trapping, Prepared)
    ensures Reachable(t) && Alone(t, p, l, Announced, Starting)
  {
    t := Next(s, OfLauncher(LaunchAnnounce(l)));
  }

  lemma ForkStep(s: State, p: Pid, l: Pid, c: Pid) returns (t: State)
    requires Reachable(s) && Alone(s, p, l, Announced, Starting) && c != p && c != l
    ensures Reachable(t) && WithChild(t, p, l, c, Forked, Unchecked, Starting)
  {
    t := Next(s, OfLauncher(LaunchFork(l, c)));
  }

  lemma RunningStep(s: State, p: Pid, l: Pid, c: Pid) returns (t: State)
    requires Reachable(s) && WithChild(s, p, l, c, Forked, Unchecked, Starting)
    ensures Reachable(t) && WithChild(t, p, l, c, Waiting, Unchecked, Running)
  {
    t := Next(s, OfLauncher(LaunchRunning(l)));
  }

  /** The child's way from its birth to its end with code `e`. */
  function ChildPcAt(n: nat, e: int): ChildPc {
    if n == 0 then Unchecked else if n == 1 then Cleared else if n == 2 then Executing else ChildExited(e)
  }

  function ChildStepAt(n: nat, c: Pid, e: int): Step {
    OfPayload(if n == 0 then ChildCheck(c) else if n == 1 then ChildStart(c) else ChildExit(c, e))
  }

  lemma ChildWorks(s: State, p: Pid, l: Pid, c: Pid, n: nat, e: int) returns (t: State)
    requires Reachable(s) && WithChild(s, p, l, c, Waiting, ChildPcAt(n, e), Running) && n < 3 && 0 <= e < 256
    ensures Reachable(t) && WithChild(t, p, l, c, Waiting, ChildPcAt(n + 1, e), Running)
  {
    t := Next(s, ChildStepAt(n, c, e));
  }

  /** The child has exited with `e`, and the last wait has ended with `code`, perhaps by a foreign signal. */
  predicate Ended(s: State, p: Pid, l: Pid, c: Pid, pc: LauncherPc, e: int, code: int, d: Option<int>) {
    && Going(s, p, Polling(0), map[l := Launcher(pc, Some(c), code)], map[c := Child(l, ChildExited(e), true)], StatusOf(l, Running))
    && s.job.disturbed == d
  }

  /** The code a wait ends with when the child has exited with `e`. */
  function WaitCode(e: int, d: Option<int>): int {
    match d
    case None => e
    case Some(n) => 128 + n
  }

  lemma WaitEnds(s: State, p: Pid, l: Pid, c: Pid, e: int, d: Option<int>) returns (t: State)
    requires Reachable(s) && WithChild(s, p, l, c, Waiting, ChildExited(e), Running) && (d.Some? ==> IsTrapped(d.value))
    ensures Reachable(t) && Ended(t, p, l, c, Probing(d.None?), e, WaitCode(e, d), d)
  {
    t := Next(s, OfLauncher(if d.None? then LaunchWait(l) else LaunchDisturbed(l, d.value)));
  }

  /** What a supervisor publishes of a code when nobody has asked for termination. */
  function FinalOf(l: Pid, code: int): JobStatus {
    JobStatus(if code == 0 then Succeeded else Failed, Some(l), Some(code))
  }

  function EndedStepAt(pc: LauncherPc, l: Pid): Step {
    OfLauncher(if pc.Probing? then LaunchProbe(l, false) else if pc.Reaped? then LaunchUntrap(l) else LaunchDecide(l))
  }

  function EndedPcAfter(pc: LauncherPc, l: Pid, code: int): LauncherPc {
    if pc.Probing? then Reaped else if pc.Reaped? then Deciding else Finishing(FinalOf(l, code))
  }

  lemma AfterWait(s: State, p: Pid, l: Pid, c: Pid, pc: LauncherPc, e: int, code: int, d: Option<int>) returns (t: State)
    requires Reachable(s) && Ended(s, p, l, c, pc, e, code, d) && (pc.Probing? || pc.Reaped? || pc.Deciding?)
    ensures Reachable(t) && Ended(t, p, l, c, EndedPcAfter(pc, l, code), e, code, d)
  {
    t := Next(s, EndedStepAt(pc, l));
  }

  lemma Trapped(p: Pid, l: Pid) returns (s: State)
    requires p != l
    ensures Reachable(s) && Alone(s, p, l, Trapping, Prepared)
  {
    s := StageAll(p);
    s := MoveStep(s, p);
    s := LockAndTest(s, p, Locking);
    s := LockAndTest(s, p, Testing);
    s := LaunchStep(s, p, l);
    s := BeforeAnnounce(s, p, l, Opened);
    s := BeforeAnnounce(s, p, l, Locked);
    s := BeforeAnnounce(s, p, l, Checked);
    s := BeforeAnnounce(s, p, l, Recorded);
  }

  lemma Submitted(p: Pid, l: Pid) returns (s: State)
    requires p != l
    ensures Reachable(s) && Alone(s, p, l, Announced, Starting)
  {
    s := Trapped(p, l);
    s := AnnounceStep(s, p, l);
  }

  lemma Worked(p: Pid, l: Pid, c: Pid, n: nat, e: int) returns (s: State)
    requires p != l && c != p && c != l && n <= 3 && 0 <= e < 256
    ensures Reachable(s) && WithChild(s, p, l, c, Waiting, ChildPcAt(n, e), Running)
    decreases n
  {
    if n == 0 {
      s := Submitted(p, l);
      s := ForkStep(s, p, l, c);
      s := RunningStep(s, p, l, c);
    } else {
      s := Worked(p, l, c, n - 1, e);
      s := ChildWorks(s, p, l, c, n - 1, e);
    }
  }

  /** The supervisor is about to publish what it has to say of a child that exited with `e`. */
  lemma Finishes(p: Pid, l: Pid, c: Pid, e: int, d: Option<int>) returns (s: State)
    requires p != l && c != p && c != l && 0 <= e < 256 && (d.Some? ==> IsTrapped(d.value))
    ensures Reachable(s) && Ended(s, p, l, c, Finishing(FinalOf(l, WaitCode(e, d))), e, WaitCode(e, d), d)
  {
    var code := WaitCode(e, d);
    s := Worked(p, l, c, 3, e);
    s := WaitEnds(s, p, l, c, e, d);
    s := AfterWait(s, p, l, c, Probing(d.None?), e, code, d);
    s := AfterWait(s, p, l, c, Reaped, e, code, d);
    s := AfterWait(s, p, l, c, Deciding, e, code, d);
  }

  /** The job is over; the child exited with `e`, and this is what the supervisor published. */
  predicate Over(s: State, l: Pid, c: Pid, e: int, code: int, d: Option<int>) {
    && Published(s.job) && Status(s.job) == FinalOf(l, code) && s.job.disturbed == d
    && s.job.children.Keys == {c} && s.job.children[c].pc == ChildExited(e)
  }

  lemma Finished(p: Pid, l: Pid, c: Pid, e: int, d: Option<int>) returns (states: seq<State>, steps: seq<Step>)
    requires p != l && c != p && c != l && 0 <= e < 256 && (d.Some? ==> IsTrapped(d.value))
    ensures Run(states, steps) && Over(states[|steps|], l, c, e, WaitCode(e, d), d)
  {
    var s := Finishes(p, l, c, e, d);
    var t := Next(s, OfLauncher(LaunchFinish(l)));
    states, steps :| RunsTo(states, steps, t);
  }

  /** Some run ends with a job that has succeeded. */
  lemma SuccessIsReachable() returns (states: seq<State>, steps: seq<Step>)
    ensures Run(states, steps)
    ensures var last := states[|steps|].job; Published(last) && Status(last).state == Succeeded
  {
    states, steps := Finished(1, 2, 3, 0, None);
  }

  // A repeated submission that times out

  /** The first submission has been acknowledged; of its launcher's descriptors one holds the submission lock. */
  predicate Acknowledged(s: State, p: Pid, l: Pid) {
    && s.submissions.Keys == {p} && s.submissions[p].pc == SubmissionExited(0) && s.signallers == map[]
    && Held(s, l)
  }

  predicate Held(s: State, l: Pid) {
    && s.job.launchers == map[l := Launcher(Announced, None, 0)] && s.job.children == map[] && s.job.payloads == map[]
    && Published(s.job) && Status(s.job).state == Starting && Comparable(s.job) && s.submissionLock == {l}
  }

  /** The same with a second submission, which has got to `pc`. */
  predicate Repeated(s: State, p: Pid, q: Pid, l: Pid, pc: SubmissionPc) {
    && s.submissions.Keys == {p, q} && s.submissions[p].pc == SubmissionExited(0) && s.submissions[q].pc == pc
    && s.signallers == map[] && Held(s, l)
  }

  predicate Polls(s: State, p: Pid, l: Pid, pc: SubmissionPc) {
    && s.submissions.Keys == {p} && s.submissions[p].pc == pc && s.signallers == map[]
    && s.job.launchers == map[l := Launcher(Announced, None, 0)] && s.job.children == map[] && s.job.payloads == map[]
    && Published(s.job) && Status(s.job).state == Starting && Comparable(s.job) && s.submissionLock == {p, l}
  }

  lemma PollAndRetest(s: State, p: Pid, l: Pid, pc: SubmissionPc) returns (t: State)
    requires Reachable(s) && Polls(s, p, l, pc) && (pc == Polling(0) || pc.Retesting?)
    ensures Reachable(t) && Polls(t, p, l, if pc.Polling? then Retesting else Reporting)
  {
    t := Next(s, SubmissionStepAt(pc, p));
    assert t.submissions.Keys == {p} && t.submissionLock == {p, l};
  }

  lemma ReportStep(s: State, p: Pid, l: Pid) returns (t: State)
    requires Reachable(s) && Polls(s, p, l, Reporting) && p != l
    ensures Reachable(t) && Acknowledged(t, p, l)
  {
    t := Next(s, OfSubmission(SubmitReport(p)));
    assert t.submissions.Keys == {p} && t.submissionLock == {l};
  }

  lemma SpawnAgain(s: State, p: Pid, q: Pid, l: Pid) returns (t: State)
    requires Reachable(s) && Acknowledged(s, p, l) && q != p && q != l
    ensures Reachable(t) && Repeated(t, p, q, l, Staging(0))
  {
    t := Next(s, OfSubmission(SubmitSpawn(q)));
    assert t.submissions.Keys == {p, q} && t.submissionLock == {l};
  }

  function RepeatStepAt(pc: SubmissionPc, q: Pid): Step {
    OfSubmission(
      if pc.Staging? then SubmitStage(q) else if pc.Moving? then SubmitMove(q) else if pc.Comparing? then SubmitCompare(q)
      else SubmitTimeout(q))
  }

  function RepeatPcAfter(pc: SubmissionPc): SubmissionPc {
    if pc.Staging? && pc.next + 1 < |STAGE_ORDER| then Staging(pc.next + 1) else if pc.Staging? then Moving
    else if pc.Moving? then Comparing else if pc.Comparing? then Locking else SubmissionExited(70)
  }

  lemma RepeatGoes(s: State, p: Pid, q: Pid, l: Pid, pc: SubmissionPc) returns (t: State)
    requires Reachable(s) && Repeated(s, p, q, l, pc) && q != p
    requires (pc.Staging? && pc.next < |STAGE_ORDER|) || pc.Moving? || pc.Comparing? || pc.Locking?
    ensures Reachable(t) && Repeated(t, p, q, l, RepeatPcAfter(pc))
  {
    t := Next(s, RepeatStepAt(pc, q));
    assert t.submissions.Keys == {p, q} && t.submissionLock == {l};
  }

  lemma SpawnsAgain(first: State, p: Pid, q: Pid, l: Pid) returns (s: State)
    requires Reachable(first) && Polls(first, p, l, Polling(0)) && p != l && q != p && q != l
    ensures Reachable(s) && Repeated(s, p, q, l, Staging(0))
  {
    s := PollAndRetest(first, p, l, Polling(0));
    s := PollAndRetest(s, p, l, Retesting);
    s := ReportStep(s, p, l);
    s := SpawnAgain(s, p, q, l);
  }

  lemma {:induction false} StagesAgain(first: State, p: Pid, q: Pid, l: Pid, next: nat) returns (s: State)
    requires Reachable(first) && Repeated(first, p, q, l, Staging(next)) && next < |STAGE_ORDER| && q != p
    ensures Reachable(s) && Repeated(s, p, q, l, Moving)
    decreases |STAGE_ORDER| - next
  {
    s := RepeatGoes(first, p, q, l, Staging(next));
    if next + 1 < |STAGE_ORDER| {
      s := StagesAgain(s, p, q, l, next + 1);
    }
  }

  lemma RepeatTimesOut(first: State, p: Pid, q: Pid, l: Pid) returns (s: State)
    requires Reachable(first) && Polls(first, p, l, Polling(0)) && p != l && q != p && q != l
    ensures Reachable(s) && Repeated(s, p, q, l, SubmissionExited(70))
  {
    s := SpawnsAgain(first, p, q, l);
    s := StagesAgain(s, p, q, l, 0);
    s := RepeatGoes(s, p, q, l, Moving);
    s := RepeatGoes(s, p, q, l, Comparing);
    s := RepeatGoes(s, p, q, l, Locking);
  }

  /**
   A repeated submission need not be acknowledged: there is a run in which the first submission is, its
   launcher is at work and holds the submission lock, and the repetition exits with 70.
   */
  lemma RepeatedSubmissionMayTimeOut() returns (states: seq<State>, steps: seq<Step>, p: Pid, q: Pid, l: Pid)
    ensures Run(states, steps)
    ensures var last := states[|steps|]; Repeated(last, p, q, l, SubmissionExited(70))
  {
    p, l, q := 1, 2, 3;
    var s := Submitted(p, l);
    s := RepeatTimesOut(s, p, q, l);
    states, steps :| RunsTo(states, steps, s);
  }

  // A KILL shell that publishes

  /** A KILL shell at `pc`, for a supervisor whose status says `state`. */
  predicate Killing(s: State, q: Pid, l: Pid, pc: SignallerPc, state: JobState) {
    && q in s.signallers && s.signallers[q] == Signaller(KILL, l, pc, None)
    && Supervised(s.job, l, state)
  }

  predicate Supervised(j: Job, l: Pid, state: JobState) {
    && Published(j) && Status(j).state == state && j.dir.value.supervisor == Some(l)
    && l in j.launchers && j.payloads == map[]
    && forall c :: c in j.children ==> j.children[c].inGroup && j.children[c].parent == l
  }

  /** The KILL has been delivered. */
  predicate Killed(s: State, q: Pid, l: Pid, pc: SignallerPc, state: JobState) {
    Killing(s, q, l, pc, state) && !LauncherAlive(s.job, l) && !OthersAlive(s.job)
  }

  function KillStepAt(pc: SignallerPc, q: Pid): Step {
    OfSignaller(
      if pc.Touching? then SignalTouch(q) else if pc.Grepping? then SignalGrep(q) else if pc.Matching? then SignalMatch(q)
      else SignalRecheck(q))
  }

  function KillPcAfter(pc: SignallerPc): SignallerPc {
    if pc.Touching? then Grepping else if pc.Grepping? then Matching else if pc.Matching? then Sending else Rewriting
  }

  lemma KillGoes(s: State, q: Pid, l: Pid, pc: SignallerPc, state: JobState) returns (t: State)
    requires Reachable(s) && Killing(s, q, l, pc, state) && !Terminal(state)
    requires pc.Touching? || pc.Grepping? || pc.Matching? || pc.Rechecking?
    ensures Reachable(t) && Killing(t, q, l, KillPcAfter(pc), state)
  {
    t := Next(s, KillStepAt(pc, q));
  }

  lemma SendStep(s: State, q: Pid, l: Pid, state: JobState) returns (t: State)
    requires Reachable(s) && Killing(s, q, l, Sending, state)
    ensures Reachable(t) && Killed(t, q, l, Awaiting(0), state)
  {
    t := Next(s, OfSignaller(SignalSend(q, {})));
  }

  lemma AwaitStep(s: State, q: Pid, l: Pid, state: JobState) returns (t: State)
    requires Reachable(s) && Killed(s, q, l, Awaiting(0), state)
    ensures Reachable(t) && Killing(t, q, l, Rechecking, state)
  {
    t := Next(s, OfSignaller(SignalAwait(q)));
  }
}
