/**
 Who owns the shared SSH connection. Tasks run `get`, `run`, `discard` and `close` of one manager and may
 be suspended, and cancelled, at every await; the peer may end a connection at any time.
 */
module SshOwnership {
  import opened Options

  datatype Connection = Live | Closing | Closed

  /** Where a task is suspended. */
  datatype Pc =
    | Idle
    | WantsLock            // get, waiting for the lock
    | Opening              // get, holding the lock
    | Using(id: nat)       // run or connect, after get
    | Discarding(id: nat)  // discard, waiting until the connection is closed
    | WantsToClose         // close, waiting for the lock
    | ClosingDown(id: nat) // close, waiting until the connection is closed

  datatype State = State(
    connections: seq<Connection>,  // every connection opened so far
    cached: Option<nat>,
    lock: Option<nat>,
    closed: bool,
    tasks: seq<Pc>)

  datatype Step =
    | Get(t: nat)           // get, up to its first await
    | Lock(t: nat)          // get acquires the lock and goes on to the open, if it is still needed
    | Opened(t: nat)        // the open succeeds
    | OpenFailed(t: nat)
    | Done(t: nat)          // the operation ends and keeps the connection
    | Discard(t: nat)       // the operation failed in the transport: discard, up to its await
    | Close(t: nat)         // close asks for the lock
    | LockToClose(t: nat)   // close acquires the lock and runs up to its await
    | ShutDown(t: nat)      // a connection that a task waits for is closed
    | Cancel(t: nat)
    | PeerEnds(id: nat)     // the peer begins to end a connection
    | Settle(id: nat)       // a connection is now closed

  predicate At(s: State, t: nat, pc: Pc) {
    t < |s.tasks| && s.tasks[t] == pc
  }

  predicate IsClosed(s: State, id: nat) {
    id < |s.connections| && s.connections[id] == Closed
  }

  predicate Enabled(s: State, step: Step) {
    match step
    case Get(t) => At(s, t, Idle)
    case Lock(t) => At(s, t, WantsLock) && s.lock.None?
    case Opened(t) => At(s, t, Opening)
    case OpenFailed(t) => At(s, t, Opening)
    case Done(t) => t < |s.tasks| && s.tasks[t].Using?
    case Discard(t) => t < |s.tasks| && s.tasks[t].Using?
    case Close(t) => At(s, t, Idle)
    case LockToClose(t) => At(s, t, WantsToClose) && s.lock.None?
    case ShutDown(t) => t < |s.tasks| && (s.tasks[t].Discarding? || s.tasks[t].ClosingDown?) && IsClosed(s, s.tasks[t].id)
    case Cancel(t) => t < |s.tasks|
    case PeerEnds(id) => id < |s.connections| && s.connections[id] == Live
    case Settle(id) => id < |s.connections| && s.connections[id] == Closing
  }

  function Move(s: State, t: nat, pc: Pc): State
    requires t < |s.tasks|
  {
    s.(tasks := s.tasks[t := pc])
  }

  /** `connection.close()`. */
  function Shut(connections: seq<Connection>, id: nat): (r: seq<Connection>)
    ensures |r| == |connections|
  {
    if id < |connections| && connections[id] == Live then connections[id := Closing] else connections
  }

  /** The cached connection, unless `is_closed`. */
  predicate Healthy(s: State) {
    s.cached.Some? && !IsClosed(s, s.cached.value)
  }

  /** `get` without the lock: fail, take the cached connection, or ask for the lock. */
  function BeginGet(s: State, t: nat): State
    requires t < |s.tasks|
  {
    if s.closed then Move(s, t, Idle)
    else if Healthy(s) then Move(s, t, Using(s.cached.value))
    else Move(s, t, WantsLock)
  }

  /** `get` with the lock: the same tests again, and then the open. */
  function LockedGet(s: State, t: nat): State
    requires t < |s.tasks|
  {
    if s.closed then Move(s, t, Idle)
    else if Healthy(s) then Move(s, t, Using(s.cached.value))
    else Move(s, t, Opening).(lock := Some(t))
  }

  function FinishOpen(s: State, t: nat): State
    requires t < |s.tasks|
  {
    var id := |s.connections|;
    Move(s, t, Using(id)).(connections := s.connections + [Live], cached := Some(id), lock := None)
  }

  /** `discard`: forget the connection if it is the cached one, and close it. */
  function BeginDiscard(s: State, t: nat): State
    requires t < |s.tasks| && s.tasks[t].Using?
  {
    var id := s.tasks[t].id;
    Move(s, t, Discarding(id)).(
      cached := if s.cached == Some(id) then None else s.cached, connections := Shut(s.connections, id))
  }

  /** `close` with the lock. */
  function LockedClose(s: State, t: nat): State
    requires t < |s.tasks|
  {
    if s.closed then Move(s, t, Idle)
    else if s.cached.None? then Move(s, t, Idle).(closed := true)
    else
      Move(s, t, ClosingDown(s.cached.value)).(
        closed := true, cached := None, connections := Shut(s.connections, s.cached.value))
  }

  function Apply(s: State, step: Step): State
    requires Enabled(s, step)
  {
    match step
    case Get(t) => BeginGet(s, t)
    case Lock(t) => LockedGet(s, t)
    case Opened(t) => FinishOpen(s, t)
    case OpenFailed(t) => Move(s, t, Idle).(lock := None)
    case Done(t) => Move(s, t, Idle)
    case Discard(t) => BeginDiscard(s, t)
    case Close(t) => Move(s, t, WantsToClose)
    case LockToClose(t) => LockedClose(s, t)
    case ShutDown(t) => Move(s, t, Idle)
    case Cancel(t) => if s.tasks[t] == Opening then Move(s, t, Idle).(lock := None) else Move(s, t, Idle)
    case PeerEnds(id) => s.(connections := s.connections[id := Closing])
    case Settle(id) => s.(connections := s.connections[id := Closed])
  }

  /** A new manager and any number of tasks. */
  predicate Initial(s: State) {
    && s.connections == [] && s.cached.None? && s.lock.None? && !s.closed
    && forall t :: 0 <= t < |s.tasks| ==> s.tasks[t] == Idle
  }

  ghost predicate Run(states: seq<State>, steps: seq<Step>) {
    && |states| == |steps| + 1 && Initial(states[0])
    && forall i :: 0 <= i < |steps| ==> Enabled(states[i], steps[i]) && states[i + 1] == Apply(states[i], steps[i])
  }

  // The invariant

  /** The task that opens is the one that holds the lock. */
  predicate OpenerHoldsLock(s: State) {
    forall t :: 0 <= t < |s.tasks| ==> (s.tasks[t] == Opening <==> s.lock == Some(t))
  }

  /** What a task uses or waits for has been opened, and what it waits for is no longer live. */
  predicate TasksOk(s: State) {
    forall t :: 0 <= t < |s.tasks| ==>
      && (s.tasks[t].Using? || s.tasks[t].Discarding? || s.tasks[t].ClosingDown? ==> s.tasks[t].id < |s.connections|)
      && (s.tasks[t].Discarding? || s.tasks[t].ClosingDown? ==> s.connections[s.tasks[t].id] != Live)
  }

  ghost predicate Inv(s: State) {
    && OpenerHoldsLock(s) && TasksOk(s)
    && (s.lock.Some? ==> s.lock.value < |s.tasks| && !s.closed && !Healthy(s))
    && (s.cached.Some? ==> s.cached.value < |s.connections|)
    && (forall id :: 0 <= id < |s.connections| && s.connections[id] == Live ==> s.cached == Some(id))
    && (s.closed ==> s.cached.None?)
  }

  lemma GetKeepsInv(s: State, t: nat)
    requires Inv(s) && At(s, t, Idle)
    ensures Inv(BeginGet(s, t))
  {
  }

  lemma LockKeepsInv(s: State, t: nat)
    requires Inv(s) && At(s, t, WantsLock) && s.lock.None?
    ensures Inv(LockedGet(s, t))
  {
  }

  lemma OpenKeepsInv(s: State, t: nat)
    requires Inv(s) && At(s, t, Opening)
    ensures Inv(FinishOpen(s, t))
  {
    assert s.lock == Some(t);
    assert forall id :: 0 <= id < |s.connections| ==> s.connections[id] != Live;
  }

  lemma DiscardKeepsInv(s: State, t: nat)
    requires Inv(s) && t < |s.tasks| && s.tasks[t].Using?
    ensures Inv(BeginDiscard(s, t))
  {
  }

  lemma CloseKeepsInv(s: State, t: nat)
    requires Inv(s) && At(s, t, WantsToClose) && s.lock.None?
    ensures Inv(LockedClose(s, t))
  {
  }

  /** A task that gives up, or is done, leaves the invariant; so does the end of a connection. */
  lemma LeaveKeepsInv(s: State, t: nat, pc: Pc)
    requires Inv(s) && t < |s.tasks| && (pc == Idle || pc == WantsToClose)
    ensures Inv(Move(s, t, pc).(lock := if s.tasks[t] == Opening then None else s.lock))
  {
  }

  lemma EndKeepsInv(s: State, id: nat, state: Connection)
    requires Inv(s) && id < |s.connections| && state != Live
    requires s.connections[id] == Closed ==> state == Closed
    ensures Inv(s.(connections := s.connections[id := state]))
  {
  }

  lemma StepKeepsInv(s: State, step: Step)
    requires Inv(s) && Enabled(s, step)
    ensures Inv(Apply(s, step))
  {
    match step {
      case Get(t) => GetKeepsInv(s, t);
      case Lock(t) => LockKeepsInv(s, t);
      case Opened(t) => OpenKeepsInv(s, t);
      case Discard(t) => DiscardKeepsInv(s, t);
      case LockToClose(t) => CloseKeepsInv(s, t);
      case OpenFailed(t) => LeaveKeepsInv(s, t, Idle);
      case Done(t) => LeaveKeepsInv(s, t, Idle);
      case Close(t) => LeaveKeepsInv(s, t, WantsToClose);
      case ShutDown(t) => LeaveKeepsInv(s, t, Idle);
      case Cancel(t) => LeaveKeepsInv(s, t, Idle);
      case PeerEnds(id) => EndKeepsInv(s, id, Closing);
      case Settle(id) => EndKeepsInv(s, id, Closed);
    }
  }

  lemma {:induction false} RunKeepsInv(states: seq<State>, steps: seq<Step>, i: nat)
    requires Run(states, steps) && i < |states|
    ensures Inv(states[i])
    decreases i
  {
    if i > 0 {
      RunKeepsInv(states, steps, i - 1);
      StepKeepsInv(states[i - 1], steps[i - 1]);
    }
  }

  // What it means

  /** At most one open is in flight, and while it is no connection is live. */
  lemma OneOpenAtATime(states: seq<State>, steps: seq<Step>, i: nat, t: nat, u: nat)
    requires Run(states, steps) && i < |states|
    requires At(states[i], t, Opening) && At(states[i], u, Opening)
    ensures t == u
    ensures Live !in states[i].connections
  {
    RunKeepsInv(states, steps, i);
    assert OpenerHoldsLock(states[i]);
  }

  /** Every connection that was opened and not yet closed by anyone is the cached one; so there is at most one. */
  lemma LiveIsCached(states: seq<State>, steps: seq<Step>, i: nat, id: nat)
    requires Run(states, steps) && i < |states|
    requires id < |states[i].connections| && states[i].connections[id] == Live
    ensures states[i].cached == Some(id)
  {
    RunKeepsInv(states, steps, i);
  }

  /** Discarding a connection that has been replaced touches neither the replacement nor the cache. */
  lemma DiscardSparesReplacement(states: seq<State>, steps: seq<Step>, i: nat, id: nat)
    requires Run(states, steps) && i < |steps| && steps[i].Discard?
    requires states[i].cached == Some(id) && states[i].tasks[steps[i].t] != Using(id)
    ensures states[i + 1].cached == Some(id) && states[i + 1].connections == states[i].connections
  {
    RunKeepsInv(states, steps, i);
    assert TasksOk(states[i]);
  }

  lemma ClosedStep(s: State, step: Step)
    requires Inv(s) && Enabled(s, step) && s.closed
    ensures Apply(s, step).closed && |Apply(s, step).connections| == |s.connections|
  {
    assert OpenerHoldsLock(s);
  }

  lemma {:induction false} StaysClosed(states: seq<State>, steps: seq<Step>, i: nat, k: nat)
    requires Run(states, steps) && i <= k < |states| && states[i].closed
    ensures states[k].closed && |states[k].connections| == |states[i].connections|
    decreases k
  {
    if i < k {
      StaysClosed(states, steps, i, k - 1);
      RunKeepsInv(states, steps, k - 1);
      ClosedStep(states[k - 1], steps[k - 1]);
    }
  }

  /** Once `close` has taken the lock no connection is live, none is cached, and none is ever opened again. */
  lemma ClosedForGood(states: seq<State>, steps: seq<Step>, i: nat, k: nat)
    requires Run(states, steps) && i <= k < |states| && states[i].closed
    ensures states[k].closed && states[k].cached.None? && Live !in states[k].connections
    ensures |states[k].connections| == |states[i].connections|
  {
    StaysClosed(states, steps, i, k);
    RunKeepsInv(states, steps, k);
  }

  // The manager itself

  /**
   The object behind the transition system: each method is what a task does between two awaits of the
   method of the same name, and changes the fields as the step of the transition system says.
   */
  class SSHConnectionManager {
    var connections: seq<Connection>  // the connections opened so far, which their peers end as well
    var connection: Option<nat>
    var lock: Option<nat>
    var closed: bool
    var tasks: seq<Pc>

    function View(): State
      reads this
    {
      State(connections, connection, lock, closed, tasks)
    }

    constructor (count: nat)
      ensures Initial(View()) && |tasks| == count
    {
      connections, connection, lock, closed := [], None, None, false;
      tasks := seq(count, _ => Idle);
    }

    method Suspend(t: nat, pc: Pc)
      requires t < |tasks|
      modifies this`tasks
      ensures tasks == old(tasks)[t := pc]
    {
      tasks := tasks[t := pc];
    }

    predicate Ended(id: nat)
      reads this
    {
      id < |connections| && connections[id] == Closed
    }

    /** The call of `connection.close()` on one of the connections. */
    method CloseConnection(id: nat)
      modifies this`connections
      ensures connections == Shut(old(connections), id)
    {
      if id < |connections| && connections[id] == Live {
        connections := connections[id := Closing];
      }
    }

    /** `get` until it is given a connection, fails, or waits for the lock. */
    method Get(t: nat)
      requires Enabled(View(), Step.Get(t))
      modifies this
      ensures View() == Apply(old(View()), Step.Get(t))
    {
      if closed {
        Suspend(t, Idle);
        return;
      }
      if connection.Some? && !Ended(connection.value) {
        Suspend(t, Using(connection.value));
        return;
      }
      Suspend(t, WantsLock);
    }

    /** `get` once it has the lock: the lock is kept only across the open. */
    method GetLocked(t: nat)
      requires Enabled(View(), Lock(t))
      modifies this
      ensures View() == Apply(old(View()), Lock(t))
    {
      if closed {
        Suspend(t, Idle);
        return;
      }
      if connection.Some? && !Ended(connection.value) {
        Suspend(t, Using(connection.value));
        return;
      }
      lock := Some(t);
      Suspend(t, Opening);
    }

    /** `get` once the open has ended. */
    method GetOpened(t: nat, succeeded: bool)
      requires At(View(), t, Opening)
      modifies this
      ensures View() == Apply(old(View()), if succeeded then Opened(t) else OpenFailed(t))
    {
      lock := None;
      if !succeeded {
        Suspend(t, Idle);
        return;
      }
      var id := |connections|;
      connections := connections + [Live];
      connection := Some(id);
      Suspend(t, Using(id));
    }

    /** `discard` until it waits for the connection to be closed. */
    method DiscardConnection(t: nat)
      requires Enabled(View(), Discard(t))
      modifies this
      ensures View() == Apply(old(View()), Discard(t))
    {
      var id := tasks[t].id;
      if connection == Some(id) {
        connection := None;
      }
      CloseConnection(id);
      Suspend(t, Discarding(id));
    }

    /** `close` once it has the lock, until it waits for the connection to be closed. */
    method CloseLocked(t: nat)
      requires Enabled(View(), LockToClose(t))
      modifies this
      ensures View() == Apply(old(View()), LockToClose(t))
    {
      if closed {
        Suspend(t, Idle);
        return;
      }
      closed := true;
      var last := connection;
      connection := None;
      if last.Some? {
        CloseConnection(last.value);
        Suspend(t, ClosingDown(last.value));
      } else {
        Suspend(t, Idle);
      }
    }
  }
}
