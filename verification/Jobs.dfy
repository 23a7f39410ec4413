/** The values of the durable-job protocol: states, signals, statuses and histories of statuses. */
module Jobs {
  import opened Options

  datatype JobState = Prepared | Starting | Running | Succeeded | Failed | Terminated

  datatype JobStatus = JobStatus(state: JobState, pid: Option<int>, returncode: Option<int>)

  /** The signals a client has sent. */
  datatype Signal = TERM | KILL

  predicate Terminal(state: JobState) {
    state.Succeeded? || state.Failed? || state.Terminated?
  }

  /** The table of states a reader may see after `previous`, having missed any number of writes. */
  function Transitions(previous: JobState): set<JobState> {
    match previous
    case Prepared => {Starting, Running, Succeeded, Failed, Terminated}
    case Starting => {Running, Succeeded, Failed, Terminated}
    case Running => {Succeeded, Failed, Terminated}
    case Succeeded => {}
    case Failed => {}
    case Terminated => {}
  }

  predicate CanTransition(previous: JobState, following: JobState) {
    following in Transitions(previous)
  }

  /** The checks made when a status value is built. */
  predicate ValidStatus(status: JobStatus) {
    && (status.pid.Some? ==> status.pid.value > 0)
    && (Terminal(status.state) <==> status.returncode.Some?)
    && (status.state == Succeeded ==> status.returncode == Some(0))
    && (status.state == Failed ==> status.returncode != Some(0))
  }

  // Writers and histories

  /** One state directly replacing another in the status file, by any of the writers. */
  predicate WriterStep(previous: JobState, following: JobState) {
    match previous
    case Prepared => following == Starting
    case Starting => following in {Running, Terminated}
    case Running => following in {Succeeded, Failed, Terminated}
    case _ => false
  }

  ghost predicate WriterPath(path: seq<JobState>) {
    && |path| >= 2
    && forall i :: 0 < i < |path| ==> WriterStep(path[i - 1], path[i])
  }

  ghost predicate PathBetween(path: seq<JobState>, from: JobState, to: JobState) {
    WriterPath(path) && path[0] == from && path[|path| - 1] == to
  }

  /** A path of writes only leads to states the table lists. */
  lemma {:induction false} PathIsTransition(path: seq<JobState>)
    requires WriterPath(path)
    ensures CanTransition(path[0], path[|path| - 1])
    decreases |path|
  {
    assert WriterStep(path[0], path[1]);
    if |path| > 2 {
      var rest := path[1..];
      assert forall i :: 0 < i < |rest| ==> rest[i - 1] == path[i] && rest[i] == path[i + 1];
      PathIsTransition(rest);
    }
  }

  function WitnessPath(from: JobState, to: JobState): seq<JobState>
    requires CanTransition(from, to)
  {
    match (from, to)
    case (Prepared, Starting) => [Prepared, Starting]
    case (Prepared, Running) => [Prepared, Starting, Running]
    case (Prepared, Terminated) => [Prepared, Starting, Terminated]
    case (Prepared, _) => [Prepared, Starting, Running, to]
    case (Starting, Running) => [Starting, Running]
    case (Starting, Terminated) => [Starting, Terminated]
    case (Starting, _) => [Starting, Running, to]
    case (_, _) => [from, to]
  }

  /** The transition table is exactly the transitive closure of the writers' steps. */
  lemma TransitionsAreWriterClosure(from: JobState, to: JobState)
    ensures CanTransition(from, to) <==> exists path :: PathBetween(path, from, to)
  {
    if CanTransition(from, to) {
      assert PathBetween(WitnessPath(from, to), from, to);
    }
    forall path | PathBetween(path, from, to)
      ensures CanTransition(from, to)
    {
      PathIsTransition(path);
    }
  }

  /** One published status replacing another: the same again, or a writer's step by the same job process. */
  predicate Follows(previous: JobStatus, following: JobStatus) {
    || following == previous
    || (&& WriterStep(previous.state, following.state)
        && following.pid.Some?
        && (previous.state != Prepared ==> following.pid == previous.pid))
  }

  const PREPARED_STATUS := JobStatus(Prepared, None, None)

  /** A history of the status file, from publication on, as the writers may produce it. */
  ghost predicate LegalHistory(history: seq<JobStatus>) {
    && |history| > 0
    && history[0] == PREPARED_STATUS
    && (forall i :: 0 <= i < |history| ==> ValidStatus(history[i]))
    && (forall i :: 0 < i < |history| ==> Follows(history[i - 1], history[i]))
  }

  /** Any two snapshots of one legal history are ordered by the table, whatever lies between them. */
  lemma {:induction false} HistoryIsOrdered(history: seq<JobStatus>, i: nat, j: nat)
    requires LegalHistory(history) && i <= j < |history|
    ensures history[i].state == history[j].state ==> history[i] == history[j]
    ensures history[i].state != history[j].state ==> CanTransition(history[i].state, history[j].state)
    ensures history[i].state != Prepared ==> history[j].pid == history[i].pid
    ensures history[i].state == Prepared <==> history[i].pid.None?
    ensures Terminal(history[i].state) ==> history[j] == history[i]
    decreases j
  {
    PidMeansStarted(history, i);
    if i < j {
      HistoryIsOrdered(history, i, j - 1);
      assert Follows(history[j - 1], history[j]);
    }
  }

  lemma {:induction false} PidMeansStarted(history: seq<JobStatus>, i: nat)
    requires LegalHistory(history) && i < |history|
    ensures history[i].state == Prepared ==> history[i] == PREPARED_STATUS
    ensures history[i].state == Prepared <==> history[i].pid.None?
    decreases i
  {
    if i > 0 {
      PidMeansStarted(history, i - 1);
      assert Follows(history[i - 1], history[i]);
    }
  }

  /** Appending a legal successor keeps a history legal. */
  lemma ExtendHistory(history: seq<JobStatus>, following: JobStatus)
    requires LegalHistory(history) && ValidStatus(following) && Follows(history[|history| - 1], following)
    ensures LegalHistory(history + [following])
  {
  }
}
