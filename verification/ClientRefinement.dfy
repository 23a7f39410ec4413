/**
 The two halves of the durable job together: a client's cache that is fed by the status file of some run
 of the protocol. What the client reports then holds of the machine.
 */
module ClientRefinement {
  import opened Options
  import opened Jobs
  import opened JobProtocol
  import opened JobTheorems
  import opened StatusCaches
  import opened RemoteJob
  import opened ProcessHandles

  /** The remote side has written what the run wrote up to its `n`-th state. */
  ghost predicate FedBy(cache: StatusCache, states: seq<State>, n: nat)
    reads cache, cache.remote
  {
    cache.Valid() && n < |states| && Published(states[n].job) && cache.remote.history == states[n].job.history
  }

  /** A terminal status that is cached is the final content of the status file. */
  lemma CachedTerminalIsFinal(cache: StatusCache, states: seq<State>, steps: seq<Step>, n: nat, m: nat)
    requires Run(states, steps) && FedBy(cache, states, n) && n <= m < |states|
    requires Terminal(cache.status.state)
    ensures Published(states[m].job) && Status(states[m].job) == cache.status
  {
    var history := states[n].job.history;
    StatusHistoryIsLegal(states, steps, n);
    HistoryIsOrdered(history, cache.seen, |history| - 1);
    ReadersSeeTransitions(states, steps, n, m);
  }

  /** When the client reports TERMINATED, none of the job's processes but the supervisor is alive, nor ever is again. */
  lemma ReportedTerminatedMeansGroupIsGone(cache: StatusCache, states: seq<State>, steps: seq<Step>, n: nat, m: nat)
    requires Run(states, steps) && FedBy(cache, states, n) && n <= m < |states|
    requires cache.status.state == Terminated
    ensures Requested(states[n].job) && !OthersAlive(states[m].job)
  {
    CachedTerminalIsFinal(cache, states, steps, n, n);
    TerminatedMeansGroupIsGone(states, steps, n, m);
  }

  /** When the client reports SUCCEEDED, the command was begun exactly once and its process exited with zero. */
  lemma ReportedSuccessIsReal(cache: StatusCache, states: seq<State>, steps: seq<Step>, n: nat)
    requires Run(states, steps) && FedBy(cache, states, n)
    requires cache.status.state == Succeeded
    ensures cache.status.returncode == Some(0) && |states[n].job.starts| == 1
    ensures var c := states[n].job.starts[0];
      c in states[n].job.children && states[n].job.children[c].pc == ChildExited(0)
  {
    assert ValidStatus(cache.remote.history[cache.seen]);
    CachedTerminalIsFinal(cache, states, steps, n, n);
    SucceededMeansCommandSucceeded(states, steps, n);
  }

  /** Whatever snapshot the cache holds, any status the run writes later is one it can move to. */
  lemma LaterStatusIsProgress(cache: StatusCache, states: seq<State>, steps: seq<Step>, n: nat, m: nat)
    requires Run(states, steps) && FedBy(cache, states, n) && n <= m < |states|
    ensures Published(states[m].job) && Progress(cache.status, Status(states[m].job))
  {
    var history := states[n].job.history;
    StatusHistoryIsLegal(states, steps, n);
    HistoryIsOrdered(history, cache.seen, |history| - 1);
    ReadersSeeTransitions(states, steps, n, m);
    PidMeansStarted(history, cache.seen);
  }

  /** The answer is what a KILL shell of the run printed when it exited well. */
  ghost predicate AnsweredByKillShell(states: seq<State>, answer: JobStatus) {
    exists n, q :: 0 <= n < |states| && Prints(states[n], q, answer)
  }

  ghost predicate Prints(s: State, q: Pid, answer: JobStatus) {
    && q in s.signallers && s.signallers[q].signal == KILL && s.signallers[q].pc == SignallerExited(0)
    && s.signallers[q].output == Some(answer)
  }

  /** What a KILL shell of a run answers is terminal. */
  lemma KillAnswerIsTerminal(states: seq<State>, steps: seq<Step>, answer: JobStatus)
    requires Run(states, steps) && AnsweredByKillShell(states, answer)
    ensures Terminal(answer.state)
  {
    var n, q :| 0 <= n < |states| && Prints(states[n], q, answer);
    SignalShellsAcknowledge(states, steps, n, q);
  }

  /**
   `terminate` of a process whose KILL, if it comes to that and is answered, is answered by a KILL shell of
   a run: it never reports that the job did not stop.
   */
  method TerminateInRun(process: Process, ghost states: seq<State>, ghost steps: seq<Step>)
    returns (r: Result<(), Failure>, ghost sent: seq<(Signal, int)>, ghost killed: Option<JobStatus>)
    requires process.Valid() && Run(states, steps)
    modifies process`task, process.cache, process.cache.remote
    ensures process.Valid() && (r.Ok? ==> Terminal(process.cache.status.state))
    ensures (killed.Some? ==> AnsweredByKillShell(states, killed.value)) ==> r != Err(NotStopped)
  {
    r, sent, killed := process.Terminate();
    if killed.Some? && AnsweredByKillShell(states, killed.value) {
      KillAnswerIsTerminal(states, steps, killed.value);
    }
  }
}
