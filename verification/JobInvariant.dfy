/** The inductive invariant of the job directory, its launchers and its processes. */
module JobInvariant {
  import opened Options
  import opened Jobs
  import opened JobProtocol

  /** The launchers between the PREPARED test and the STARTING write. */
  predicate Critical(pc: LauncherPc) {
    pc.Checked? || pc.Recorded? || pc.Trapping?
  }

  predicate AfterReap(pc: LauncherPc) {
    pc.Reaped? || pc.Deciding? || pc.Draining? || pc.Finishing?
  }

  predicate AfterFork(pc: LauncherPc) {
    pc.Forked? || pc.Waiting? || pc.Probing? || AfterReap(pc)
  }

  predicate AfterAnnounce(pc: LauncherPc) {
    pc.Announced? || AfterFork(pc)
  }

  /** The status names `p` as the supervisor of the one run this job has had. */
  predicate RunBy(j: Job, p: Pid) {
    && Published(j)
    && Status(j).state != Prepared
    && Status(j).pid == Some(p)
    && j.dir.value.supervisor == Some(p)
  }

  /** Nothing exists before publication; afterwards the directory is complete and its history legal. */
  ghost predicate DirectoryOk(j: Job) {
    && (j.dir.None? ==>
      && j.launchers == map[] && j.children == map[] && j.payloads == map[]
      && j.history == [] && j.starts == [] && j.termed == {} && j.runLock == {})
    && (j.dir.Some? ==>
      && Published(j) && j.dir.value.files == ALL_FILES
      && LegalHistory(j.history) && j.history[|j.history| - 1] == Status(j))
  }

  /** The code of a finished wait is the child's, unless a foreign signal interrupted it or termination is requested. */
  predicate CodeOk(j: Job, child: Child, code: int) {
    match j.disturbed
    case None => child.pc == ChildExited(code) || Requested(j)
    case Some(n) => IsTrapped(n) && code == 128 + n
  }

  /**
   What the code of a job that ends without a request says of its child: the child is dead, the code is its
   own unless a foreign signal interrupted the last wait, and it began the command unless it was killed.
   */
  predicate EndOk(j: Job, child: Child, c: Pid, code: int) {
    && child.pc.ChildExited?
    && (match j.disturbed
        case None => child.pc.code == code
        case Some(n) => IsTrapped(n) && code == 128 + n)
    && (j.starts == [c] || (j.starts == [] && child.pc.code == 137))
  }

  predicate CodeIsTrue(j: Job, code: int) {
    forall c :: c in j.children ==> EndOk(j, j.children[c], c, code)
  }

  /** What is known of the terminal status a supervisor is about to publish. */
  ghost predicate FinalOk(j: Job, l: Pid, final: JobStatus)
    requires l in j.launchers
  {
    && ValidStatus(final) && Terminal(final.state) && final.pid == Some(l)
    && (final.state != Terminated ==>
      && final.returncode == Some(j.launchers[l].code)
      && CodeIsTrue(j, j.launchers[l].code))
    && (final.state == Terminated ==> Requested(j) && !OthersAlive(j))
  }

  ghost predicate LauncherOk(j: Job, l: Pid)
    requires l in j.launchers
  {
    var pc := j.launchers[l].pc;
    var child := j.launchers[l].child;
    && (Critical(pc) ==> IsPrepared(j))
    && ((Critical(pc) || pc.Locked?) && IsPrepared(j) ==> l in j.runLock)
    && (pc.Recorded? || pc.Trapping? ==> j.dir.value.supervisor == Some(l))
    && (AfterAnnounce(pc) ==> RunBy(j, l))
    && (pc.Announced? ==> j.children == map[] && j.starts == [])
    && (pc.Announced? || pc.Forked? ==> Status(j).state == Starting)
    && (AfterFork(pc) && !pc.Forked? ==> Status(j).state == Running)
    && (AfterFork(pc) ==> child.Some? && child.value in j.children)
    && (AfterReap(pc) ==> !ChildAlive(j, child.value))
    && (AfterReap(pc) || pc.Probing? ==> CodeOk(j, j.children[child.value], j.launchers[l].code))
    && (pc.Draining? ==> Requested(j))
    && (pc.Finishing? ==> FinalOk(j, l, pc.final))
  }

  ghost predicate ChildOk(j: Job, c: Pid)
    requires c in j.children
  {
    var child := j.children[c];
    && RunBy(j, child.parent)
    && child.parent in j.launchers
    && (LauncherAlive(j, child.parent) ==>
      AfterFork(j.launchers[child.parent].pc) && j.launchers[child.parent].child == Some(c))
    && (child.pc.Unchecked? || child.pc.Cleared? ==> child.inGroup && j.starts == [])
    && (child.pc.Executing? ==> j.starts == [c])
    && (child.pc.ChildExited? && c !in j.starts ==> child.pc.code == 137 || (child.pc.code == 143 && Requested(j)))
    && (child.pc.Cleared? ==> child.parent !in j.termed)
  }

  ghost predicate ProcessesOk(j: Job) {
    && (forall c, d :: c in j.children && d in j.children ==> c == d)
    && |j.starts| <= 1
    && (forall c :: c in j.starts ==> c in j.children)
    && (j.payloads != map[] ==> j.starts != [])
    && j.runLock <= j.launchers.Keys + j.children.Keys + j.payloads.Keys
    && (forall a, b :: a in j.launchers && b in j.launchers && a in j.runLock && b in j.runLock ==> a == b)
    && j.launchers.Keys !! j.children.Keys
    && j.launchers.Keys !! j.payloads.Keys
    && j.children.Keys !! j.payloads.Keys
  }

  /** What SUCCEEDED and FAILED say of the child. */
  ghost predicate ExitOk(j: Job, status: JobStatus) {
    && (status.state == Succeeded ==>
      |j.starts| == 1 && j.starts[0] in j.children && j.children[j.starts[0]].pc == ChildExited(0))
    && (status.state == Failed ==>
      status.returncode.Some? && j.children != map[] && CodeIsTrue(j, status.returncode.value))
  }

  ghost predicate OutcomeOk(j: Job) {
    && (Published(j) && Status(j).state != Prepared ==>
      && j.dir.value.supervisor.Some? && RunBy(j, j.dir.value.supervisor.value)
      && j.dir.value.supervisor.value in j.launchers)
    && (IsPrepared(j) ==> j.children == map[] && j.starts == [] && j.termed == {})
    && (Published(j) && Status(j).state == Terminated ==> Requested(j) && !OthersAlive(j))
    && (Published(j) ==> ExitOk(j, Status(j)))
    && (forall g :: g in j.termed ==> Requested(j) && RunBy(j, g))
  }

  ghost predicate LaunchersOk(j: Job) {
    forall l :: l in j.launchers ==> LauncherOk(j, l)
  }

  ghost predicate ChildrenOk(j: Job) {
    forall c :: c in j.children ==> ChildOk(j, c)
  }

  ghost predicate JobInv(j: Job) {
    DirectoryOk(j) && OutcomeOk(j) && ProcessesOk(j) && LaunchersOk(j) && ChildrenOk(j)
  }

  predicate FreshInJob(j: Job, p: Pid) {
    p !in j.launchers && p !in j.children && p !in j.payloads
  }

  // One process's record changes

  /** The other launchers do not see the record, nor a new one. */
  lemma FrameLaunchers(j: Job, l: Pid, x: Launcher)
    requires LaunchersOk(j) && LauncherOk(j.(launchers := j.launchers[l := x]), l)
    ensures LaunchersOk(j.(launchers := j.launchers[l := x]))
  {
    var k := j.(launchers := j.launchers[l := x]);
    forall m | m in k.launchers && m != l
      ensures LauncherOk(k, m)
    {
      assert LauncherOk(j, m);
      FrameOtherLauncher(j, k, m);
    }
  }

  lemma FrameOtherLauncher(j: Job, k: Job, m: Pid)
    requires m in j.launchers && m in k.launchers && k.launchers[m] == j.launchers[m]
    requires k == j.(launchers := k.launchers) && LauncherOk(j, m)
    ensures LauncherOk(k, m)
  {
  }

  /** Its child sees whether it is alive and past the fork. */
  lemma FrameChildren(j: Job, l: Pid, x: Launcher)
    requires ChildrenOk(j)
    requires forall c :: c in j.children && j.children[c].parent == l && !x.pc.Gone? ==> AfterFork(x.pc) && x.child == Some(c)
    ensures ChildrenOk(j.(launchers := j.launchers[l := x]))
  {
    var k := j.(launchers := j.launchers[l := x]);
    forall c | c in k.children ensures ChildOk(k, c) { assert ChildOk(j, c); }
  }

  lemma FrameProcesses(j: Job, l: Pid, x: Launcher)
    requires ProcessesOk(j) && (l in j.launchers || (FreshInJob(j, l) && j.runLock <= j.launchers.Keys + j.children.Keys + j.payloads.Keys))
    ensures ProcessesOk(j.(launchers := j.launchers[l := x]))
  {
  }

  lemma FrameLauncher(j: Job, l: Pid, x: Launcher)
    requires JobInv(j) && l in j.launchers
    requires LauncherOk(j.(launchers := j.launchers[l := x]), l)
    requires forall c :: c in j.children && j.children[c].parent == l && !x.pc.Gone? ==> AfterFork(x.pc) && x.child == Some(c)
    ensures JobInv(j.(launchers := j.launchers[l := x]))
  {
    FrameLaunchers(j, l, x);
    FrameChildren(j, l, x);
    FrameProcesses(j, l, x);
  }

  /** Some live children die, by a KILL or, once termination is requested, by the request test or a TERM. */
  predicate ChildrenDwindle(before: map<Pid, Child>, after: map<Pid, Child>, requested: bool) {
    && before.Keys == after.Keys
    && forall c :: c in before ==>
      || after[c] == before[c]
      || (!before[c].pc.ChildExited?
          && (after[c] == before[c].(pc := ChildExited(137)) || (requested && after[c] == before[c].(pc := ChildExited(143)))))
  }

  lemma ChildrenDieLaunchersOk(j: Job, after: map<Pid, Child>)
    requires LaunchersOk(j) && ChildrenDwindle(j.children, after, Requested(j))
    ensures LaunchersOk(j.(children := after))
  {
    var k := j.(children := after);
    assert OthersAlive(k) ==> OthersAlive(j);
    assert forall c :: c in j.children && j.children[c].pc.ChildExited? ==> after[c] == j.children[c];
    forall m | m in k.launchers ensures LauncherOk(k, m) { assert LauncherOk(j, m); }
  }

  lemma ChildrenDieChildrenOk(j: Job, after: map<Pid, Child>)
    requires ChildrenOk(j) && ChildrenDwindle(j.children, after, Requested(j))
    ensures ChildrenOk(j.(children := after))
  {
    var k := j.(children := after);
    forall c | c in k.children ensures ChildOk(k, c) { assert ChildOk(j, c); }
  }

  lemma ChildrenDieKeepsInv(j: Job, after: map<Pid, Child>)
    requires JobInv(j) && ChildrenDwindle(j.children, after, Requested(j))
    ensures JobInv(j.(children := after))
  {
    var k := j.(children := after);
    assert OthersAlive(k) ==> OthersAlive(j);
    assert forall c :: c in j.children && j.children[c].pc.ChildExited? ==> after[c] == j.children[c];
    ChildrenDieLaunchersOk(j, after);
    ChildrenDieChildrenOk(j, after);
  }

  predicate PayloadsDwindle(before: map<Pid, Payload>, after: map<Pid, Payload>) {
    && before.Keys == after.Keys
    && forall p :: p in before ==> after[p].inGroup == before[p].inGroup && (after[p].alive ==> before[p].alive)
  }

  lemma PayloadsDieKeepsInv(j: Job, after: map<Pid, Payload>)
    requires JobInv(j) && PayloadsDwindle(j.payloads, after)
    ensures JobInv(j.(payloads := after))
  {
    var k := j.(payloads := after);
    assert OthersAlive(k) ==> OthersAlive(j);
    assert j.payloads == map[] ==> after == map[];
    assert after != map[] ==> j.payloads != map[];
    forall m | m in k.launchers ensures LauncherOk(k, m) { assert LauncherOk(j, m); }
    forall c | c in k.children ensures ChildOk(k, c) { assert ChildOk(j, c); }
  }

  /** Processes let go of the run lock, or a launcher takes it while nobody holds it. */
  lemma LockKeepsInv(j: Job, after: set<Pid>)
    requires JobInv(j)
    requires forall l :: l in after ==> l in j.launchers || l in j.children || l in j.payloads
    requires forall a, b :: a in j.launchers && b in j.launchers && a in after && b in after ==> a == b
    requires forall l :: LauncherAlive(j, l) && l in j.runLock && IsPrepared(j) ==> l in after
    ensures JobInv(j.(runLock := after))
  {
    LockLaunchersOk(j, after);
    LockChildrenOk(j, after);
  }

  lemma LockLaunchersOk(j: Job, after: set<Pid>)
    requires LaunchersOk(j) && forall l :: LauncherAlive(j, l) && l in j.runLock && IsPrepared(j) ==> l in after
    ensures LaunchersOk(j.(runLock := after))
  {
    var k := j.(runLock := after);
    forall m | m in k.launchers ensures LauncherOk(k, m) { assert LauncherOk(j, m); }
  }

  lemma LockChildrenOk(j: Job, after: set<Pid>)
    requires ChildrenOk(j)
    ensures ChildrenOk(j.(runLock := after))
  {
    var k := j.(runLock := after);
    forall c | c in k.children ensures ChildOk(k, c) { assert ChildOk(j, c); }
  }

  /** A supervisor, or a KILL shell once the group is gone, writes the next status. */
  lemma PublishKeepsInv(j: Job, status: JobStatus, p: Pid)
    requires JobInv(j) && RunBy(j, p) && status.pid == Some(p)
    requires ValidStatus(status) && Follows(Status(j), status)
    requires forall l :: LauncherAlive(j, l) ==> !AfterAnnounce(j.launchers[l].pc)
    requires status.state == Terminated ==> Requested(j) && !OthersAlive(j)
    requires ExitOk(j, status)
    ensures JobInv(Publish(j, status))
  {
    ExtendHistory(j.history, status);
    PublishLaunchersOk(j, status, p);
    PublishChildrenOk(j, status, p);
  }

  lemma PublishLaunchersOk(j: Job, status: JobStatus, p: Pid)
    requires LaunchersOk(j) && RunBy(j, p) && Follows(Status(j), status)
    requires forall l :: LauncherAlive(j, l) ==> !AfterAnnounce(j.launchers[l].pc)
    ensures LaunchersOk(Publish(j, status))
  {
    var k := Publish(j, status);
    forall m | m in k.launchers ensures LauncherOk(k, m) { assert LauncherOk(j, m); }
  }

  lemma PublishChildrenOk(j: Job, status: JobStatus, p: Pid)
    requires ChildrenOk(j) && RunBy(j, p) && Follows(Status(j), status) && status.pid == Some(p)
    ensures ChildrenOk(Publish(j, status))
  {
    var k := Publish(j, status);
    forall c | c in k.children ensures ChildOk(k, c) { assert ChildOk(j, c); }
  }

  // Steps of a launcher

  predicate ChangesRecordOnly(step: LauncherStep) {
    || step.LaunchCheck? || step.LaunchTrap? || step.LaunchProbe? || step.LaunchUntrap? || step.LaunchDecide?
    || step.LaunchDrain?
  }

  predicate BeforeFork(step: LauncherStep) {
    step.LaunchCheck? || step.LaunchTrap?
  }

  /** Only `p`'s record changes, and it stays on its side of the fork. */
  predicate MovesRecord(j: Job, k: Job, p: Pid) {
    && p in j.launchers && p in k.launchers
    && k == j.(launchers := j.launchers[p := k.launchers[p]])
    && (AfterFork(j.launchers[p].pc) <==> AfterFork(k.launchers[p].pc))
    && k.launchers[p].child == j.launchers[p].child
  }

  lemma NextRecordBeforeFork(j: Job, step: LauncherStep)
    requires LaunchEnabled(j, step) && BeforeFork(step) && LauncherOk(j, step.p)
    ensures LauncherOk(ApplyLaunch(j, step), step.p) && MovesRecord(j, ApplyLaunch(j, step), step.p)
  {
  }

  lemma NextRecordInProbe(j: Job, step: LauncherStep)
    requires LaunchEnabled(j, step) && step.LaunchProbe? && LauncherOk(j, step.p)
    ensures LauncherOk(ApplyLaunch(j, step), step.p) && MovesRecord(j, ApplyLaunch(j, step), step.p)
  {
  }

  /** What a supervisor that has not been asked to terminate is about to say of its child is true. */
  lemma DecidesTruly(j: Job, p: Pid)
    requires JobInv(j) && LauncherAt(j, p, Deciding) && !Requested(j)
    ensures CodeIsTrue(j, j.launchers[p].code)
  {
    assert LauncherOk(j, p);
    forall c | c in j.children
      ensures EndOk(j, j.children[c], c, j.launchers[p].code)
    {
      assert ChildOk(j, c);
      assert j.launchers[p].child == Some(c);
      assert j.starts == [] || j.starts == [c] by {
        if |j.starts| == 1 { assert j.starts[0] in j.starts; }
      }
    }
  }

  lemma NextRecordAfterWait(j: Job, step: LauncherStep)
    requires LaunchEnabled(j, step) && ChangesRecordOnly(step) && !BeforeFork(step) && !step.LaunchProbe?
    requires LauncherOk(j, step.p)
    requires step.LaunchDecide? && !Requested(j) ==> CodeIsTrue(j, j.launchers[step.p].code)
    ensures LauncherOk(ApplyLaunch(j, step), step.p) && MovesRecord(j, ApplyLaunch(j, step), step.p)
  {
    var k := ApplyLaunch(j, step);
    assert OthersAlive(k) ==> OthersAlive(j);
  }

  lemma RecordKeepsInv(j: Job, step: LauncherStep)
    requires JobInv(j) && LaunchEnabled(j, step) && ChangesRecordOnly(step)
    ensures JobInv(ApplyLaunch(j, step))
  {
    if BeforeFork(step) { NextRecordBeforeFork(j, step); }
    else if step.LaunchProbe? { NextRecordInProbe(j, step); }
    else {
      if step.LaunchDecide? && !Requested(j) { DecidesTruly(j, step.p); }
      NextRecordAfterWait(j, step);
    }
    forall c | c in j.children && j.children[c].parent == step.p
      ensures AfterFork(j.launchers[step.p].pc) && j.launchers[step.p].child == Some(c)
    {
      assert ChildOk(j, c);
    }
    FrameLauncher(j, step.p, ApplyLaunch(j, step).launchers[step.p]);
  }

  lemma TakeLockKeepsInv(j: Job, p: Pid)
    requires JobInv(j) && LauncherAt(j, p, Opened) && j.runLock == {}
    ensures JobInv(j.(runLock := {p})) && LauncherOk(MoveLauncher(j.(runLock := {p}), p, Locked), p)
  {
    assert LauncherOk(j, p);
    LockKeepsInv(j, {p});
  }

  /** A launcher that has not forked has no child. */
  lemma NoChildBeforeFork(j: Job, p: Pid)
    requires JobInv(j) && LauncherAlive(j, p) && !AfterFork(j.launchers[p].pc)
    ensures forall c :: c in j.children ==> j.children[c].parent != p
  {
    forall c | c in j.children ensures j.children[c].parent != p { assert ChildOk(j, c); }
  }

  lemma LockStepKeepsInv(j: Job, p: Pid)
    requires JobInv(j) && LaunchEnabled(j, LaunchLock(p))
    ensures JobInv(ApplyLaunch(j, LaunchLock(p)))
  {
    NoChildBeforeFork(j, p);
    if j.runLock == {} {
      TakeLockKeepsInv(j, p);
      FrameLauncher(j.(runLock := {p}), p, j.launchers[p].(pc := Locked));
    } else {
      FrameLauncher(j, p, j.launchers[p].(pc := Gone));
    }
  }

  lemma PidRecordKeepsInv(j: Job, p: Pid)
    requires JobInv(j) && LaunchEnabled(j, LaunchRecord(p))
    ensures JobInv(ApplyLaunch(j, LaunchRecord(p)))
  {
    var k := ApplyLaunch(j, LaunchRecord(p));
    forall m | m in k.launchers ensures LauncherOk(k, m) { assert LauncherOk(j, m); }
  }

  lemma AnnounceKeepsInv(j: Job, p: Pid)
    requires JobInv(j) && LaunchEnabled(j, LaunchAnnounce(p))
    ensures JobInv(ApplyLaunch(j, LaunchAnnounce(p)))
  {
    var k := ApplyLaunch(j, LaunchAnnounce(p));
    assert LauncherOk(j, p);
    ExtendHistory(j.history, JobStatus(Starting, Some(p), None));
    forall m | m in k.launchers ensures LauncherOk(k, m) { assert LauncherOk(j, m); }
  }

  lemma ForkLaunchersOk(j: Job, p: Pid, c: Pid)
    requires LaunchersOk(j) && LaunchEnabled(j, LaunchFork(p, c)) && FreshInJob(j, c)
    ensures LaunchersOk(Fork(j, p, c))
  {
    var k := Fork(j, p, c);
    assert LauncherOk(j, p);
    forall m | m in k.launchers ensures LauncherOk(k, m) { assert LauncherOk(j, m); }
  }

  lemma ForkKeepsInv(j: Job, p: Pid, c: Pid)
    requires JobInv(j) && LaunchEnabled(j, LaunchFork(p, c)) && FreshInJob(j, c)
    ensures JobInv(ApplyLaunch(j, LaunchFork(p, c)))
  {
    var k := Fork(j, p, c);
    assert LauncherOk(j, p);
    ForkLaunchersOk(j, p, c);
    assert ChildOk(k, c);
  }

  lemma RunningLaunchersOk(j: Job, p: Pid)
    requires LaunchersOk(j) && OutcomeOk(j) && LaunchEnabled(j, LaunchRunning(p))
    ensures LaunchersOk(ApplyLaunch(j, LaunchRunning(p)))
  {
    var k := ApplyLaunch(j, LaunchRunning(p));
    assert LauncherOk(j, p);
    forall m | m in k.launchers ensures LauncherOk(k, m) { assert LauncherOk(j, m); }
  }

  lemma RunningChildrenOk(j: Job, p: Pid)
    requires LaunchEnabled(j, LaunchRunning(p)) && ChildrenOk(j) && LauncherOk(j, p)
    ensures ChildrenOk(ApplyLaunch(j, LaunchRunning(p)))
  {
    var k := ApplyLaunch(j, LaunchRunning(p));
    forall c | c in k.children ensures ChildOk(k, c) { assert ChildOk(j, c); }
  }

  lemma RunningDirectoryOk(j: Job, p: Pid)
    requires LaunchEnabled(j, LaunchRunning(p)) && LauncherOk(j, p) && DirectoryOk(j) && OutcomeOk(j) && ProcessesOk(j)
    ensures var k := ApplyLaunch(j, LaunchRunning(p)); DirectoryOk(k) && OutcomeOk(k) && ProcessesOk(k)
  {
    ExtendHistory(j.history, JobStatus(Running, Some(p), None));
  }

  lemma RunningKeepsInv(j: Job, p: Pid)
    requires JobInv(j) && LaunchEnabled(j, LaunchRunning(p))
    ensures JobInv(ApplyLaunch(j, LaunchRunning(p)))
  {
    assert LauncherOk(j, p);
    RunningDirectoryOk(j, p);
    RunningLaunchersOk(j, p);
    RunningChildrenOk(j, p);
  }

  lemma GoneKeepsInv(j: Job, p: Pid)
    requires JobInv(j) && LauncherAlive(j, p) && AfterAnnounce(j.launchers[p].pc)
    ensures var k := MoveLauncher(j, p, Gone);
      JobInv(k) && forall l :: LauncherAlive(k, l) ==> !AfterAnnounce(k.launchers[l].pc)
  {
    var k := MoveLauncher(j, p, Gone);
    FrameLauncher(j, p, k.launchers[p]);
    assert LauncherOk(j, p);
    forall l | LauncherAlive(k, l) ensures !AfterAnnounce(k.launchers[l].pc) { assert LauncherOk(k, l); }
  }

  /** What a supervisor is about to publish is true. */
  lemma FinalIsTrue(j: Job, p: Pid)
    requires JobInv(j) && LaunchEnabled(j, LaunchFinish(p))
    ensures var final := j.launchers[p].pc.final;
      && RunBy(j, p) && final.pid == Some(p) && ValidStatus(final) && Follows(Status(j), final)
      && (final.state == Terminated ==> Requested(j) && !OthersAlive(j))
      && ExitOk(j, final)
  {
    assert LauncherOk(j, p);
    assert ChildOk(j, j.launchers[p].child.value);
  }

  lemma FinishKeepsInv(j: Job, p: Pid)
    requires JobInv(j) && LaunchEnabled(j, LaunchFinish(p))
    ensures JobInv(ApplyLaunch(j, LaunchFinish(p)))
  {
    var k := MoveLauncher(j, p, Gone);
    FinalIsTrue(j, p);
    assert LauncherOk(j, p);
    GoneKeepsInv(j, p);
    assert OthersAlive(k) == OthersAlive(j);
    PublishKeepsInv(k, j.launchers[p].pc.final, p);
  }

  predicate EndsWait(step: LauncherStep) {
    step.LaunchWait? || step.LaunchInterrupted? || step.LaunchDisturbed?
  }

  /** Only the supervisor looks at how its last wait ended, and not while it waits. */
  lemma DisturbanceKeepsInv(j: Job, p: Pid, disturbed: Option<int>)
    requires JobInv(j) && LauncherAt(j, p, Waiting)
    ensures JobInv(j.(disturbed := disturbed))
  {
    var k := j.(disturbed := disturbed);
    assert LauncherOk(j, p);
    forall m | m in k.launchers ensures LauncherOk(k, m) { assert LauncherOk(j, m); }
    forall c | c in k.children ensures ChildOk(k, c) { assert ChildOk(j, c); }
  }

  lemma NextRecordInWait(j: Job, step: LauncherStep)
    requires LaunchEnabled(j, step) && EndsWait(step) && LauncherOk(j, step.p) && OutcomeOk(j)
    ensures var k := ApplyLaunch(j, step);
      k == j.(disturbed := k.disturbed, launchers := j.launchers[step.p := k.launchers[step.p]])
      && LauncherOk(k, step.p) && AfterFork(k.launchers[step.p].pc) && k.launchers[step.p].child == j.launchers[step.p].child
  {
  }

  lemma WaitKeepsInv(j: Job, step: LauncherStep)
    requires JobInv(j) && LaunchEnabled(j, step) && EndsWait(step)
    ensures JobInv(ApplyLaunch(j, step))
  {
    var k := ApplyLaunch(j, step);
    NextRecordInWait(j, step);
    DisturbanceKeepsInv(j, step.p, k.disturbed);
    forall c | c in j.children && j.children[c].parent == step.p
      ensures j.launchers[step.p].child == Some(c)
    {
      assert ChildOk(j, c);
    }
    FrameLauncher(j.(disturbed := k.disturbed), step.p, k.launchers[step.p]);
  }

  lemma LauncherKeepsInv(j: Job, step: LauncherStep)
    requires JobInv(j) && LaunchEnabled(j, step)
    requires step.LaunchFork? ==> FreshInJob(j, step.born)
    ensures JobInv(ApplyLaunch(j, step))
  {
    match step
    case LaunchLock(p) => LockStepKeepsInv(j, p);
    case LaunchRecord(p) => PidRecordKeepsInv(j, p);
    case LaunchAnnounce(p) => AnnounceKeepsInv(j, p);
    case LaunchFork(p, c) => ForkKeepsInv(j, p, c);
    case LaunchRunning(p) => RunningKeepsInv(j, p);
    case LaunchFinish(p) => FinishKeepsInv(j, p);
    case LaunchWait(_) => WaitKeepsInv(j, step);
    case LaunchInterrupted(_) => WaitKeepsInv(j, step);
    case LaunchDisturbed(_, _) => WaitKeepsInv(j, step);
    case _ => RecordKeepsInv(j, step);
  }

  // Steps of the payload

  lemma StartKeepsInv(j: Job, c: Pid)
    requires JobInv(j) && WorkEnabled(j, ChildStart(c))
    ensures JobInv(ApplyWork(j, ChildStart(c)))
  {
    var k := ApplyWork(j, ChildStart(c));
    assert ChildOk(j, c);
    forall m | m in k.launchers ensures LauncherOk(k, m) { assert LauncherOk(j, m); }
  }

  lemma ChildExitKeepsInv(j: Job, c: Pid, code: int)
    requires JobInv(j) && WorkEnabled(j, ChildExit(c, code))
    ensures JobInv(ApplyWork(j, ChildExit(c, code)))
  {
    var k := ApplyWork(j, ChildExit(c, code));
    assert ChildOk(j, c);
    assert OthersAlive(k) ==> OthersAlive(j);
    forall m | m in k.launchers ensures LauncherOk(k, m) { assert LauncherOk(j, m); }
  }

  lemma CheckKeepsInv(j: Job, c: Pid)
    requires JobInv(j) && WorkEnabled(j, ChildCheck(c))
    ensures JobInv(ApplyWork(j, ChildCheck(c)))
  {
    var k := ApplyWork(j, ChildCheck(c));
    assert ChildOk(j, c);
    if Requested(j) {
      ChildrenDieKeepsInv(j, k.children);
    } else {
      assert OthersAlive(k) ==> OthersAlive(j);
      forall m | m in k.launchers ensures LauncherOk(k, m) { assert LauncherOk(j, m); }
    }
  }

  /** New payload processes in the group, while the supervisor is at work. */
  lemma PayloadForkLaunchersOk(j: Job, p: Pid, q: Pid)
    requires LaunchersOk(j) && WorkEnabled(j, PayloadFork(p, q)) && FreshInJob(j, q)
    ensures LaunchersOk(ApplyWork(j, PayloadFork(p, q)))
  {
    var k := ApplyWork(j, PayloadFork(p, q));
    assert OthersAlive(k) ==> OthersAlive(j);
    forall m | m in k.launchers ensures LauncherOk(k, m) { assert LauncherOk(j, m); }
  }

  lemma PayloadForkKeepsInv(j: Job, p: Pid, q: Pid)
    requires JobInv(j) && WorkEnabled(j, PayloadFork(p, q)) && FreshInJob(j, q)
    ensures JobInv(ApplyWork(j, PayloadFork(p, q)))
  {
    var k := ApplyWork(j, PayloadFork(p, q));
    assert OthersAlive(k) ==> OthersAlive(j);
    assert j.starts != [] by {
      if RunsCommand(j, p) { assert ChildOk(j, p); } else { assert j.payloads != map[]; }
    }
    PayloadForkLaunchersOk(j, p, q);
    PayloadForkChildrenOk(j, p, q);
  }

  lemma PayloadForkChildrenOk(j: Job, p: Pid, q: Pid)
    requires ChildrenOk(j) && WorkEnabled(j, PayloadFork(p, q))
    ensures ChildrenOk(ApplyWork(j, PayloadFork(p, q)))
  {
    var k := ApplyWork(j, PayloadFork(p, q));
    forall c | c in k.children ensures ChildOk(k, c) { assert ChildOk(j, c); }
  }

  /** A child's record changes without its death; nobody else comes alive. */
  lemma LeaveLaunchersOk(j: Job, p: Pid)
    requires LaunchersOk(j) && WorkEnabled(j, PayloadLeave(p))
    ensures LaunchersOk(Leave(j, p))
  {
    var k := Leave(j, p);
    assert OthersAlive(k) ==> OthersAlive(j);
    forall m | m in k.launchers ensures LauncherOk(k, m) { assert LauncherOk(j, m); }
  }

  lemma LeaveKeepsInv(j: Job, p: Pid)
    requires JobInv(j) && WorkEnabled(j, PayloadLeave(p))
    ensures JobInv(ApplyWork(j, PayloadLeave(p)))
  {
    var k := Leave(j, p);
    assert OthersAlive(k) ==> OthersAlive(j);
    LeaveLaunchersOk(j, p);
    LeaveChildrenOk(j, p);
  }

  lemma LeaveChildrenOk(j: Job, p: Pid)
    requires ChildrenOk(j) && WorkEnabled(j, PayloadLeave(p))
    ensures ChildrenOk(Leave(j, p))
  {
    var k := Leave(j, p);
    forall c | c in k.children ensures ChildOk(k, c) { assert ChildOk(j, c); }
  }

  lemma PayloadKeepsInv(j: Job, step: PayloadStep)
    requires JobInv(j) && WorkEnabled(j, step)
    requires step.PayloadFork? ==> FreshInJob(j, step.born)
    ensures JobInv(ApplyWork(j, step))
  {
    match step
    case ChildCheck(c) => CheckKeepsInv(j, c);
    case ChildStart(c) => StartKeepsInv(j, c);
    case ChildExit(c, code) => ChildExitKeepsInv(j, c, code);
    case PayloadFork(p, q) => PayloadForkKeepsInv(j, p, q);
    case PayloadLeave(p) => LeaveKeepsInv(j, p);
    case PayloadExit(p) => PayloadsDieKeepsInv(j, ApplyWork(j, step).payloads);
    case _ =>
      var after := ApplyWork(j, step).runLock;
      assert !IsPrepared(j);
      LockKeepsInv(j, after);
  }

  // Signals, deaths and closed descriptors

  lemma DeliverDwindles(j: Job, g: Pid, signal: Signal, victims: set<Pid>)
    requires g in j.launchers
    requires forall c :: c in j.children ==> j.children[c].parent == g
    requires forall c :: c in j.children && j.children[c].pc.Cleared? ==> j.children[c].inGroup
    ensures var k := Deliver(j, g, signal, victims);
      && k.launchers == j.launchers[g := SignalLauncher(j.launchers[g], signal)]
      && ChildrenDwindle(j.children, k.children, true)
      && PayloadsDwindle(j.payloads, k.payloads)
      && (forall c :: c in k.children ==> !k.children[c].pc.Cleared?)
  {
  }

  lemma SignalledLauncherKeepsInv(j: Job, g: Pid, signal: Signal)
    requires JobInv(j) && g in j.launchers
    ensures JobInv(j.(launchers := j.launchers[g := SignalLauncher(j.launchers[g], signal)]))
  {
    var x := SignalLauncher(j.launchers[g], signal);
    if x == j.launchers[g] {
      assert j.launchers[g := x] == j.launchers;
    } else {
      FrameLauncher(j, g, x);
    }
  }

  lemma DeliverKeepsInv(j: Job, g: Pid, signal: Signal, victims: set<Pid>)
    requires JobInv(j) && RunBy(j, g) && Requested(j)
    ensures JobInv(Deliver(j, g, signal, victims))
  {
    forall c | c in j.children
      ensures j.children[c].parent == g && (j.children[c].pc.Cleared? ==> j.children[c].inGroup)
    {
      assert ChildOk(j, c);
    }
    DeliverDwindles(j, g, signal, victims);
    var k := Deliver(j, g, signal, victims);
    SignalledLauncherKeepsInv(j, g, signal);
    ChildrenDieKeepsInv(j.(launchers := k.launchers), k.children);
    PayloadsDieKeepsInv(j.(launchers := k.launchers, children := k.children), k.payloads);
    TermedKeepsInv(k.(termed := j.termed), g, k.termed);
  }

  lemma TermedKeepsInv(j: Job, g: Pid, after: set<Pid>)
    requires JobInv(j) && RunBy(j, g) && Requested(j)
    requires after == j.termed || after == j.termed + {g}
    requires after != j.termed ==> forall c :: c in j.children ==> !j.children[c].pc.Cleared?
    ensures JobInv(j.(termed := after))
  {
    var k := j.(termed := after);
    forall m | m in k.launchers ensures LauncherOk(k, m) { assert LauncherOk(j, m); }
    forall c | c in k.children ensures ChildOk(k, c) { assert ChildOk(j, c); }
  }

  lemma DieKeepsInv(j: Job, p: Pid)
    requires JobInv(j) && JobProcessAlive(j, p)
    ensures JobInv(Die(j, p))
  {
    var k := Die(j, p);
    if LauncherAlive(j, p) {
      FrameLauncher(j, p, k.launchers[p]);
    } else if ChildAlive(j, p) {
      ChildrenDieKeepsInv(j, k.children);
    } else {
      PayloadsDieKeepsInv(j, k.payloads);
    }
  }

  lemma TouchKeepsInv(j: Job)
    requires JobInv(j) && j.dir.Some?
    ensures JobInv(j.(dir := Some(j.dir.value.(request := true))))
  {
    var k := j.(dir := Some(j.dir.value.(request := true)));
    forall m | m in k.launchers ensures LauncherOk(k, m) { assert LauncherOk(j, m); }
    forall c | c in k.children ensures ChildOk(k, c) { assert ChildOk(j, c); }
  }

  lemma NewLauncherKeepsInv(j: Job, l: Pid)
    requires JobInv(j) && j.dir.Some? && FreshInJob(j, l)
    ensures JobInv(j.(launchers := j.launchers[l := Launcher(Opened, None, 0)]))
  {
    var x := Launcher(Opened, None, 0);
    forall c | c in j.children ensures j.children[c].parent != l { assert ChildOk(j, c); }
    FrameLaunchers(j, l, x);
    FrameChildren(j, l, x);
    FrameProcesses(j, l, x);
  }
}
