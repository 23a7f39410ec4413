/** The status a process handle keeps, and the two ways it is replaced. */
module StatusCaches {
  import opened Options
  import opened Jobs
  import opened RemoteJob

  /** A cached status either stays or moves along the transition table; a terminal one stays, and so does a known pid. */
  predicate Progress(before: JobStatus, after: JobStatus) {
    after == before || (CanTransition(before.state, after.state) && (before.pid.Some? ==> after.pid == before.pid))
  }

  class StatusCache {
    const remote: Remote
    var status: JobStatus
    ghost var seen: nat  // the index in the remote history of the snapshot that is cached

    ghost predicate Valid()
      reads this, remote
    {
      remote.Valid() && seen < |remote.history| && remote.history[seen] == status
    }

    constructor (remote: Remote, status: JobStatus, ghost at: nat)
      requires remote.Valid() && at < |remote.history| && remote.history[at] == status
      ensures Valid() && this.remote == remote && this.status == status
    {
      this.remote := remote;
      this.status := status;
      seen := at;
    }

    /** Replace the cached status unless that would move backward. */
    method Record(following: JobStatus, ghost at: nat) returns (recorded: bool)
      requires Valid() && at < |remote.history| && remote.history[at] == following
      modifies this
      ensures Valid()
      ensures recorded <==> following.state == old(status.state) || CanTransition(old(status.state), following.state)
      ensures recorded <==> old(seen) <= at || following == old(status)
      ensures status == if recorded then following else old(status)
      ensures seen >= old(seen) && (recorded ==> seen >= at)
      ensures Progress(old(status), status)
    {
      var current := status;
      if at < seen { HistoryIsOrdered(remote.history, at, seen); } else { HistoryIsOrdered(remote.history, seen, at); }
      if following.state != current.state && !CanTransition(current.state, following.state) {
        return false;
      }
      status := following;
      if seen < at { seen := at; }
      return true;
    }

    /**
     Refresh under the status lock. It fails only when the request fails: against any legal remote
     history, whichever snapshots were missed, it never reports a backward move.
     */
    method Refresh() returns (r: Result<JobStatus, Failure>)
      requires Valid()
      modifies this, remote
      ensures Valid()
      ensures Terminal(old(status.state)) ==> r == Ok(old(status)) && unchanged(this) && unchanged(remote)
      ensures !Terminal(old(status.state)) ==> remote.requests == old(remote.requests) + [StatusRequest]
      ensures r.Ok? ==> r.value == status
      ensures r.Ok? && !Terminal(old(status.state)) ==>
        status == remote.history[|remote.history| - 1] && |remote.script| < |old(remote.script)|
      ensures r.Ok? && !Terminal(old(status.state)) ==> seen == |remote.history| - 1
      ensures !Terminal(old(status.state)) && old(remote.script) != [] ==>
        && remote.history == old(remote.history) + old(remote.script)[0].statuses
        && r.Ok? == !old(remote.script)[0].failed
      ensures r.Err? ==> r.error == ConnectionLost && status == old(status)
      ensures remote.unanswered == old(remote.unanswered) + if r.Err? then 1 else 0
      ensures remote.sleeps == old(remote.sleeps)
      ensures Progress(old(status), status)
      ensures |remote.script| <= |old(remote.script)| && old(remote.now) <= remote.now
      ensures old(remote.history) <= remote.history
      ensures old(remote.stdout) <= remote.stdout && old(remote.stderr) <= remote.stderr
    {
      if Terminal(status.state) {
        return Ok(status);
      }
      var served, _ := remote.Serve(StatusRequest);
      if !served {
        return Err(ConnectionLost);
      }
      var following := remote.history[|remote.history| - 1];
      var recorded := Record(following, |remote.history| - 1);
      if !recorded {
        return Err(MovedBackward);
      }
      return Ok(following);
    }

    /**
     Take over a snapshot that was read without the lock. The iff says exactly when this raises: the
     cache is not terminal and already holds a later snapshot in another state.
     */
    method Accept(following: JobStatus, ghost at: nat) returns (r: Result<JobStatus, Failure>)
      requires Valid() && at < |remote.history| && remote.history[at] == following
      modifies this
      ensures Valid()
      ensures Terminal(old(status.state)) ==> r == Ok(old(status)) && status == old(status)
      ensures r.Ok? ==> r.value == status
      ensures r.Err? <==> !Terminal(old(status.state)) && at < old(seen) && following.state != old(status.state)
      ensures r.Err? ==> r.error == MovedBackward && status == old(status)
      ensures r.Ok? && !Terminal(old(status.state)) ==> status == following && seen >= at
      ensures Progress(old(status), status)
    {
      if Terminal(status.state) {
        return Ok(status);
      }
      HistoryIsOrdered(remote.history, if at < seen then at else seen, if at < seen then seen else at);
      var recorded := Record(following, at);
      if !recorded {
        return Err(MovedBackward);
      }
      return Ok(following);
    }

    /** Another task's refresh comes between the answer and the caller, and is answered. */
    predicate Raced(script: seq<Event>, status: JobStatus) {
      !Terminal(status.state) && |script| > 1 && script[0].others && !script[1].failed
    }

    /**
     A round trip made without the status lock. The snapshot is what the status file holds when it is
     served; another task may refresh before the caller goes on.
     */
    method Await(request: Request) returns (served: bool, snapshot: JobStatus, ghost at: nat)
      requires Valid()
      modifies this, remote
      ensures Valid()
      ensures |remote.script| <= |old(remote.script)|
      ensures served ==> |remote.script| < |old(remote.script)|
      ensures remote.unanswered >= old(remote.unanswered) + if served then 0 else 1
      ensures remote.requests == old(remote.requests) + [request]
        || remote.requests == old(remote.requests) + [request, StatusRequest]
      ensures at < |remote.history| && |old(remote.history)| - 1 <= at && remote.history[at] == snapshot
      ensures old(remote.script) != [] ==>
        var event := old(remote.script)[0]; served == !event.failed && at == |old(remote.history)| + |event.statuses| - 1
      ensures Raced(old(remote.script), old(status)) ==>
        && remote.history == old(remote.history) + old(remote.script)[0].statuses + old(remote.script)[1].statuses
        && seen == |remote.history| - 1 && remote.requests == old(remote.requests) + [request, StatusRequest]
      ensures Progress(old(status), status)
      ensures old(remote.history) <= remote.history && old(remote.now) <= remote.now
      ensures old(remote.stdout) <= remote.stdout && old(remote.stderr) <= remote.stderr
    {
      var others;
      served, others := remote.Serve(request);
      at, snapshot := |remote.history| - 1, remote.history[|remote.history| - 1];
      if others {
        var _ := Refresh();
      }
    }
  
    /** A sleep of the caller, during which another task may refresh. */
    method Pause(duration: real)
      requires Valid() && duration >= 0.0
      modifies this, remote
      ensures Valid()
      ensures |remote.script| <= |old(remote.script)| && old(remote.unanswered) <= remote.unanswered
      ensures remote.sleeps == old(remote.sleeps) + [duration]
      ensures remote.requests == old(remote.requests) || remote.requests == old(remote.requests) + [StatusRequest]
      ensures Progress(old(status), status)
      ensures old(remote.history) <= remote.history && old(remote.now) + duration <= remote.now
      ensures old(remote.stdout) <= remote.stdout && old(remote.stderr) <= remote.stderr
    {
      var others := remote.Sleep(duration);
      if others {
        var _ := Refresh();
      }
    }
  }

  /**
   An acknowledgement can be refused: a TERM is answered with STARTING, another task's refresh reads RUNNING
   before the answer is taken over, and then it would be a step back.
   */
  method RacedAcknowledgement(pid: int) returns (cache: StatusCache, r: Result<JobStatus, Failure>)
    requires pid > 0
    ensures fresh(cache) && fresh(cache.remote) && cache.Valid()
    ensures cache.remote.requests == [SignalRequest(TERM, pid), StatusRequest]
    ensures cache.status == JobStatus(Running, Some(pid), None) && r == Err(MovedBackward)
  {
    var starting, running := JobStatus(Starting, Some(pid), None), JobStatus(Running, Some(pid), None);
    var history := [PREPARED_STATUS, starting];
    var answer, refresh := Event([], [], [], 0.0, false, true), Event([running], [], [], 0.0, false, false);
    var script := [answer, refresh];
    FutureOfTwo(answer, refresh);
    assert history + Future(script) == [PREPARED_STATUS, starting, running];
    var remote := new Remote(history, script, []);
    cache := new StatusCache(remote, starting, 1);
    var served, snapshot, at := cache.Await(SignalRequest(TERM, pid));
    assert remote.history == [PREPARED_STATUS, starting, running];
    r := cache.Accept(snapshot, at);
  }
}
