/** The durable half of a process handle: waiting, reading, terminating and cleaning up. */
module ProcessHandles {
  import opened Options
  import opened Jobs
  import opened Utf8
  import opened RemoteJob
  import opened StatusCaches
  import opened DurableReaders

  const GRACE: real := 5.0

  /** The k-th delay between two polls, counted from zero: a tenth of a second, doubled each time, at most one second. */
  function PollDelay(k: nat): (d: real)
    ensures 0.0 < d <= 1.0
  {
    if k == 0 then 0.1 else if PollDelay(k - 1) * 2.0 < 1.0 then PollDelay(k - 1) * 2.0 else 1.0
  }

  function PollDelays(k: nat): (delays: seq<real>)
    ensures |delays| == k
  {
    if k == 0 then [] else PollDelays(k - 1) + [PollDelay(k - 1)]
  }

  datatype CleanupTask = NoTask | Pending | Finished

  /** The signals among some requests, in order, with the processes they are for. */
  function Signals(requests: seq<Request>): seq<(Signal, int)> {
    if requests == [] then []
    else if requests[0].SignalRequest? then [(requests[0].signal, requests[0].pid)] + Signals(requests[1..])
    else Signals(requests[1..])
  }

  lemma {:induction false} SignalsAppend(a: seq<Request>, b: seq<Request>)
    ensures Signals(a + b) == Signals(a) + Signals(b)
    decreases |a|
  {
    if a == [] {
      assert a + b == b;
    } else {
      assert (a + b)[1..] == a[1..] + b && (a + b)[0] == a[0];
      SignalsAppend(a[1..], b);
    }
  }

  /** Asking for the status sends no signal; a signal request sends one, whether or not a status request follows. */
  lemma SignalsSent(before: seq<Request>, signal: Signal, pid: int)
    ensures Signals(before + [StatusRequest]) == Signals(before)
    ensures Signals(before + [SignalRequest(signal, pid)]) == Signals(before) + [(signal, pid)]
    ensures Signals(before + [SignalRequest(signal, pid), StatusRequest]) == Signals(before) + [(signal, pid)]
  {
    var request := SignalRequest(signal, pid);
    SignalsAppend(before, [StatusRequest]);
    SignalsAppend(before, [request]);
    SignalsAppend(before, [request, StatusRequest]);
    SignalsAppend([request], [StatusRequest]);
    assert [request, StatusRequest] == [request] + [StatusRequest];
  }

  /** What one call of `terminate` may send to the process `pid`. */
  predicate Escalation(sent: seq<(Signal, int)>, pid: Option<int>) {
    || sent == []
    || (pid.Some? && sent == [(TERM, pid.value)])
    || (pid.Some? && sent == [(TERM, pid.value), (KILL, pid.value)])
  }

  class Process {
    const cache: StatusCache
    const stdout: DurableReader
    const stderr: DurableReader
    const retain: bool
    var cleaned: bool
    var task: CleanupTask
    ghost var cleanups: nat  // cleanup requests that came back

    /** The job is known to be over and both outputs have been read to their ends. */
    predicate Settled()
      reads this, cache, stdout, stderr
    {
      Terminal(cache.status.state) && stdout.eof && stderr.eof
    }

    /** What is left on the remote side is to be removed, and nothing of it is needed any more. */
    predicate CleanupIsDue()
      reads this, cache, stdout, stderr
    {
      Settled() && !retain && !cleaned
    }

    ghost predicate Valid()
      reads this, cache, cache.remote, stdout, stderr
    {
      && stdout != stderr && stdout.cache == cache && stderr.cache == cache
      && stdout.stream == Stdout && stderr.stream == Stderr
      && stdout.Valid() && stderr.Valid()
      && cleanups == (if cleaned then 1 else 0)
      && (task != NoTask ==> Settled() && !retain)
    }

    constructor (cache: StatusCache, text: bool, captureStdout: bool, captureStderr: bool, retain: bool)
      requires cache.Valid()
      ensures Valid() && this.cache == cache && this.retain == retain && task == NoTask && !cleaned
      ensures fresh(stdout) && fresh(stderr)
    {
      this.cache, this.retain := cache, retain;
      stdout := new DurableReader(cache, Stdout, text, captureStdout);
      stderr := new DurableReader(cache, Stderr, text, captureStderr);
      cleaned, task, cleanups := false, NoTask, 0;
    }

    /** Only the cache and the remote side moved on. */
    twostate lemma Undisturbed()
      requires old(Valid()) && unchanged(this) && unchanged(stdout) && unchanged(stderr) && cache.Valid()
      requires old(cache.remote.stdout) <= cache.remote.stdout && old(cache.remote.stderr) <= cache.remote.stderr
      requires Progress(old(cache.status), cache.status)
      ensures Valid()
    {
      stdout.Undisturbed();
      stderr.Undisturbed();
    }

    /** `_maybe_auto_cleanup`: starts a task only when settled, and never beside a pending one. */
    method MaybeAutoCleanup()
      requires Valid()
      modifies this`task
      ensures Valid()
      ensures task == if CleanupIsDue() then Pending else old(task)
    {
      if retain || cleaned {
        return;
      }
      if Terminal(cache.status.state) && stdout.eof && stderr.eof && task != Pending {
        task := Pending;
      }
    }

    /** `_cleanup_remote`: after one success it does nothing. */
    method CleanupRemote() returns (r: Result<(), Failure>)
      requires Valid()
      modifies this`cleaned, this`cleanups, cache, cache.remote
      ensures Valid()
      ensures old(cleaned) ==> r.Ok? && cleaned && unchanged(cache) && unchanged(cache.remote)
      ensures r.Ok? <==> cleaned
      ensures r.Err? ==> r.error == ConnectionLost
      ensures !old(cleaned) ==>
        || cache.remote.requests == old(cache.remote.requests) + [CleanupRequest]
        || cache.remote.requests == old(cache.remote.requests) + [CleanupRequest, StatusRequest]
      ensures !old(cleaned) && cleaned ==> |cache.remote.script| < |old(cache.remote.script)|
      ensures cleanups <= 1
      ensures Settled() || !old(Settled())
      ensures Progress(old(cache.status), cache.status)
    {
      if cleaned {
        return Ok(());
      }
      label before:
      var served, _, _ := cache.Await(CleanupRequest);
      Undisturbed@before();
      if !served {
        return Err(ConnectionLost);
      }
      cleaned, cleanups := true, cleanups + 1;
      return Ok(());
    }

    /** The pending cleanup task runs; its result is consumed whatever it is. */
    method RunCleanupTask()
      requires Valid() && task == Pending
      modifies this, cache, cache.remote
      ensures Valid() && task == Finished && cleanups <= 1
      ensures old(cleaned) ==> cleaned && unchanged(cache.remote)
      ensures !old(cleaned) ==>
        || cache.remote.requests == old(cache.remote.requests) + [CleanupRequest]
        || cache.remote.requests == old(cache.remote.requests) + [CleanupRequest, StatusRequest]
    {
      var _ := CleanupRemote();
      task := Finished;
    }

    /** Only the status was refreshed. */
    twostate lemma Refreshed()
      requires old(Valid()) && unchanged(this) && unchanged(stdout) && unchanged(stderr) && cache.Valid()
      requires old(cache.remote.stdout) <= cache.remote.stdout && old(cache.remote.stderr) <= cache.remote.stderr
      requires Progress(old(cache.status), cache.status)
      requires cache.remote.requests == old(cache.remote.requests)
        || cache.remote.requests == old(cache.remote.requests) + [StatusRequest]
      ensures Valid()
      ensures Signals(cache.remote.requests) == Signals(old(cache.remote.requests))
      ensures cache.status.state != Prepared ==> cache.status.pid.Some?
    {
      Undisturbed();
      SignalsSent(old(cache.remote.requests), TERM, 0);
      PidMeansStarted(cache.remote.history, cache.seen);
    }

    /** `_refresh_status`, which leaves both streams alone and sends no signal. */
    method RefreshStatus() returns (r: Result<JobStatus, Failure>)
      requires Valid()
      modifies cache, cache.remote
      ensures Valid()
      ensures r.Ok? ==> r.value == cache.status && (r.value.state != Prepared ==> r.value.pid.Some?)
      ensures r.Ok? && Terminal(r.value.state) ==> r.value.returncode.Some?
      ensures r.Ok? && !Terminal(r.value.state) ==> |cache.remote.script| < |old(cache.remote.script)|
      ensures r.Err? ==> r.error == ConnectionLost
      ensures cache.remote.unanswered == old(cache.remote.unanswered) + if r.Err? then 1 else 0
      ensures cache.remote.sleeps == old(cache.remote.sleeps)
      ensures Terminal(old(cache.status.state)) ==> r.Ok? && unchanged(cache) && unchanged(cache.remote)
      ensures Signals(cache.remote.requests) == Signals(old(cache.remote.requests))
      ensures Progress(old(cache.status), cache.status)
      ensures old(cache.remote.now) <= cache.remote.now && |cache.remote.script| <= |old(cache.remote.script)|
    {
      label before:
      r := cache.Refresh();
      Refreshed@before();
      assert ValidStatus(cache.remote.history[cache.seen]);
    }

    /** A sleep, during which other tasks of the handle may refresh its status. */
    method Pause(duration: real)
      requires Valid() && duration >= 0.0
      modifies cache, cache.remote
      ensures Valid()
      ensures Signals(cache.remote.requests) == Signals(old(cache.remote.requests))
      ensures Progress(old(cache.status), cache.status)
      ensures old(cache.remote.unanswered) <= cache.remote.unanswered
      ensures cache.remote.sleeps == old(cache.remote.sleeps) + [duration]
      ensures old(cache.remote.now) <= cache.remote.now && |cache.remote.script| <= |old(cache.remote.script)|
    {
      label before:
      cache.Pause(duration);
      Refreshed@before();
    }

    method RefreshAfter(duration: real) returns (r: Result<JobStatus, Failure>)
      requires Valid() && duration >= 0.0
      modifies cache, cache.remote
      ensures Valid()
      ensures r.Ok? ==> r.value == cache.status && (r.value.state != Prepared ==> r.value.pid.Some?)
      ensures r.Ok? && !Terminal(r.value.state) ==> |cache.remote.script| < |old(cache.remote.script)|
      ensures r.Err? ==> r.error == ConnectionLost
      ensures Signals(cache.remote.requests) == Signals(old(cache.remote.requests))
      ensures Progress(old(cache.status), cache.status)
      ensures old(cache.remote.now) <= cache.remote.now && old(cache.remote.unanswered) <= cache.remote.unanswered
    {
      Pause(duration);
      r := RefreshStatus();
    }

    /** `poll`. */
    method Poll() returns (r: Result<Option<int>, Failure>)
      requires Valid()
      modifies cache, cache.remote
      ensures Valid()
      ensures r.Ok? ==> r.value == cache.status.returncode
      ensures r.Err? ==> r.error == ConnectionLost
      ensures old(Settled()) ==> r.Ok? && unchanged(cache) && unchanged(cache.remote)
      ensures Progress(old(cache.status), cache.status)
    {
      var status := RefreshStatus();
      return if status.Ok? then Ok(cache.status.returncode) else Err(status.error);
    }

    /** One round of the wait: refresh and, unless the job is over, sleep. */
    method PollOnce(delay: real) returns (r: Result<JobStatus, Failure>)
      requires Valid() && delay >= 0.0
      modifies cache, cache.remote
      ensures Valid()
      ensures r.Ok? && Terminal(r.value.state) ==> r.value == cache.status && r.value.returncode.Some?
      ensures r.Ok? && !Terminal(r.value.state) ==> |cache.remote.script| < |old(cache.remote.script)|
      ensures r.Err? ==> r.error == ConnectionLost
      ensures cache.remote.sleeps ==
        old(cache.remote.sleeps) + if r.Ok? && !Terminal(r.value.state) then [delay] else []
      ensures Terminal(old(cache.status.state)) ==>
        r.Ok? && Terminal(r.value.state) && unchanged(cache) && unchanged(cache.remote)
      ensures Progress(old(cache.status), cache.status)
    {
      r := RefreshStatus();
      if r.Ok? && !Terminal(r.value.state) {
        Pause(delay);
      }
    }

    /** Poll, with growing delays, until the job is over. */
    method AwaitTerminal() returns (r: Result<int, Failure>)
      requires Valid()
      modifies cache, cache.remote
      ensures Valid()
      ensures r.Ok? ==> Terminal(cache.status.state) && cache.status.returncode == Some(r.value)
      ensures r.Err? ==> r.error == ConnectionLost
      ensures Terminal(old(cache.status.state)) ==> r.Ok? && unchanged(cache) && unchanged(cache.remote)
      ensures exists k :: cache.remote.sleeps == old(cache.remote.sleeps) + PollDelays(k)
      ensures Progress(old(cache.status), cache.status)
    {
      var delay := 0.1;
      ghost var k := 0;
      assert old(cache.remote.sleeps) + PollDelays(0) == old(cache.remote.sleeps);
      while true
        invariant Valid() && delay == PollDelay(k) && cache.remote.sleeps == old(cache.remote.sleeps) + PollDelays(k)
        invariant Terminal(old(cache.status.state)) ==> unchanged(cache) && unchanged(cache.remote)
        invariant Progress(old(cache.status), cache.status)
        decreases |cache.remote.script|
      {
        var status := PollOnce(delay);
        if status.Err? {
          return Err(status.error);
        }
        if Terminal(status.value.state) {
          return Ok(status.value.returncode.value);
        }
        MoreDelays(old(cache.remote.sleeps), k);
        k := k + 1;
        delay := if delay * 2.0 < 1.0 then delay * 2.0 else 1.0;
      }
    }

    lemma MoreDelays(before: seq<real>, k: nat)
      ensures before + PollDelays(k) + [PollDelay(k)] == before + PollDelays(k + 1)
    {
    }

    /** `wait`: once the job is over, what is left of it may be removed. */
    method Wait() returns (r: Result<int, Failure>)
      requires Valid()
      modifies this`task, cache, cache.remote
      ensures Valid()
      ensures r.Ok? ==> Terminal(cache.status.state) && cache.status.returncode == Some(r.value)
      ensures r.Ok? && CleanupIsDue() ==> task == Pending
      ensures r.Err? ==> r.error == ConnectionLost
      ensures exists k :: cache.remote.sleeps == old(cache.remote.sleeps) + PollDelays(k)
      ensures old(Settled()) ==> r.Ok? && unchanged(cache) && unchanged(cache.remote)
      ensures Progress(old(cache.status), cache.status)
    {
      r := AwaitTerminal();
      if r.Ok? {
        MaybeAutoCleanup();
      }
    }

    /** `read` of one of the two streams; reaching its end may start the automatic cleanup. */
    method Read(reader: DurableReader, n: int) returns (r: Result<seq<int>, Failure>)
      requires Valid() && (reader == stdout || reader == stderr)
      modifies this`task, reader, cache, cache.remote
      ensures Valid()
      ensures reader == stdout ==> unchanged(stderr)
      ensures reader == stderr ==> unchanged(stdout)
      ensures r.Ok? ==> reader.returned == old(reader.returned) + r.value
      ensures r.Ok? && n > 0 && r.value == [] ==> reader.eof && reader.buffer == []
      ensures reader.eofReported && !old(reader.eofReported) && CleanupIsDue() ==> task == Pending
      ensures old(Settled()) ==> r.Ok? && unchanged(cache) && unchanged(cache.remote)
      ensures Progress(old(cache.status), cache.status)
    {
      label before:
      var reported := reader.eofReported;
      r := reader.Read(n);
      OtherUndisturbed@before(reader);
      if reader.eofReported && !reported {
        MaybeAutoCleanup();
      }
    }

    /** `readline` of one of the two streams. */
    method ReadLine(reader: DurableReader) returns (r: Result<seq<int>, Failure>)
      requires Valid() && (reader == stdout || reader == stderr)
      modifies this`task, reader, cache, cache.remote
      ensures Valid()
      ensures reader == stdout ==> unchanged(stderr)
      ensures reader == stderr ==> unchanged(stdout)
      ensures r.Ok? ==> reader.returned == old(reader.returned) + r.value
      ensures r.Ok? && r.value == [] ==> reader.eof && reader.buffer == []
      ensures reader.eofReported && !old(reader.eofReported) && CleanupIsDue() ==> task == Pending
      ensures old(Settled()) ==> r.Ok? && unchanged(cache) && unchanged(cache.remote)
      ensures Progress(old(cache.status), cache.status)
    {
      label before:
      var reported := reader.eofReported;
      r := reader.ReadLine();
      OtherUndisturbed@before(reader);
      if reader.eofReported && !reported {
        MaybeAutoCleanup();
      }
    }

    /** Reading one stream leaves the other as it was. */
    twostate lemma OtherUndisturbed(reader: DurableReader)
      requires old(Valid()) && unchanged(this) && (reader == stdout || reader == stderr)
      requires reader == stdout ==> unchanged(stderr)
      requires reader == stderr ==> unchanged(stdout)
      requires reader.Valid() && (old(reader.eof) ==> reader.eof)
      requires old(cache.remote.stdout) <= cache.remote.stdout && old(cache.remote.stderr) <= cache.remote.stderr
      requires Progress(old(cache.status), cache.status)
      ensures Valid()
    {
      if reader == stdout { stderr.Undisturbed(); } else { stdout.Undisturbed(); }
    }

    // Termination

    /** Send one signal and take over the status it answers with, if an answer comes. */
    method SendSignal(signal: Signal, pid: int) returns (r: Result<JobStatus, Failure>, ghost answer: Option<JobStatus>)
      requires Valid()
      modifies cache, cache.remote
      ensures Valid()
      ensures Signals(cache.remote.requests) == Signals(old(cache.remote.requests)) + [(signal, pid)]
      ensures r.Ok? ==> r.value == cache.status
      ensures r.Ok? ==> Terminal(cache.status.state) || cache.seen >= |old(cache.remote.history)| - 1
      ensures answer.Some? ==> answer.value in cache.remote.history
      ensures r.Ok? ==> answer.Some? && (Terminal(answer.value.state) ==> Terminal(cache.status.state))
      ensures r.Err? ==> r.error == ConnectionLost || r.error == MovedBackward
      ensures Progress(old(cache.status), cache.status)
      ensures old(cache.remote.now) <= cache.remote.now && old(cache.remote.unanswered) <= cache.remote.unanswered
    {
      label before:
      var served, snapshot, at := cache.Await(SignalRequest(signal, pid));
      Undisturbed@before();
      SignalsSent(old(cache.remote.requests), signal, pid);
      answer := None;
      if !served {
        return Err(ConnectionLost), None;
      }
      answer := Some(snapshot);
      label answered:
      r := cache.Accept(snapshot, at);
      Undisturbed@answered();
    }

    /** Wait until the status names the supervisor's pid, or the job is over. */
    method AwaitPid() returns (r: Result<JobStatus, Failure>)
      requires Valid()
      modifies cache, cache.remote
      ensures Valid()
      ensures r.Ok? ==> r.value == cache.status && (Terminal(r.value.state) || r.value.pid.Some?)
      ensures r.Err? ==> r.error == ConnectionLost
      ensures Signals(cache.remote.requests) == Signals(old(cache.remote.requests))
      ensures Progress(old(cache.status), cache.status)
      ensures old(cache.remote.now) <= cache.remote.now && old(cache.remote.unanswered) <= cache.remote.unanswered
    {
      var status := cache.status;
      while status.pid.None?
        invariant Valid() && status == cache.status
        invariant Signals(cache.remote.requests) == Signals(old(cache.remote.requests))
        invariant Progress(old(cache.status), cache.status)
        invariant old(cache.remote.now) <= cache.remote.now && old(cache.remote.unanswered) <= cache.remote.unanswered
        decreases |cache.remote.script|
      {
        var refreshed := RefreshAfter(0.1);
        if refreshed.Err? {
          return Err(refreshed.error);
        }
        status := refreshed.value;
        if Terminal(status.state) {
          break;
        }
      }
      return Ok(status);
    }

    /** Since that time the grace period has passed, or since then some request was not answered. */
    ghost predicate Elapsed(since: real, unanswered: nat)
      reads cache, cache.remote
    {
      since + GRACE <= cache.remote.now || unanswered < cache.remote.unanswered
    }

    /** Give the job its grace period, unless a request is not answered before it is over. */
    method GracePeriod(last: JobStatus) returns (status: JobStatus)
      requires Valid() && last == cache.status && last.pid.Some?
      modifies cache, cache.remote
      ensures Valid()
      ensures status.pid == last.pid == cache.status.pid
      ensures Terminal(status.state) ==> status == cache.status
      ensures Terminal(status.state) || Elapsed(old(cache.remote.now), old(cache.remote.unanswered))
      ensures Signals(cache.remote.requests) == Signals(old(cache.remote.requests))
      ensures Progress(old(cache.status), cache.status)
    {
      var deadline := cache.remote.now + GRACE;
      var delay := 0.1;
      status := last;
      while cache.remote.now < deadline
        invariant Valid() && delay > 0.0
        invariant !Terminal(last.state) ==> !Terminal(status.state)
        invariant status.pid == last.pid == cache.status.pid
        invariant Terminal(status.state) ==> status == cache.status
        invariant Signals(cache.remote.requests) == Signals(old(cache.remote.requests))
        invariant Progress(old(cache.status), cache.status) && old(cache.remote.unanswered) <= cache.remote.unanswered
        decreases |cache.remote.script|
      {
        var refreshed := RefreshStatus();
        if refreshed.Err? {
          return;
        }
        status := refreshed.value;
        if Terminal(status.state) {
          return;
        }
        var left := deadline - cache.remote.now;
        var rest := if left < 0.0 then 0.0 else left;
        Pause(if delay < rest then delay else rest);
        delay := if delay * 2.0 < 1.0 then delay * 2.0 else 1.0;
      }
    }

    /** TERM and, unless that ends the job, its grace period. */
    method Interrupt(last: JobStatus) returns (r: Result<JobStatus, Failure>)
      requires Valid() && last == cache.status && last.pid.Some?
      modifies cache, cache.remote
      ensures Valid()
      ensures Signals(cache.remote.requests) == Signals(old(cache.remote.requests)) + [(TERM, last.pid.value)]
      ensures cache.status.pid == last.pid && (r.Ok? ==> r.value.pid == last.pid)
      ensures r.Ok? && Terminal(r.value.state) ==> r.value == cache.status
      ensures r.Ok? && !Terminal(r.value.state) ==> Elapsed(old(cache.remote.now), old(cache.remote.unanswered))
      ensures r.Err? ==> r.error == ConnectionLost || r.error == MovedBackward
      ensures Progress(old(cache.status), cache.status)
    {
      ghost var answer;
      r, answer := SendSignal(TERM, last.pid.value);
      if r.Ok? && !Terminal(r.value.state) {
        var status := GracePeriod(r.value);
        r := Ok(status);
      }
    }

    /** TERM, a grace period, and then KILL. */
    method Escalate(last: JobStatus)
      returns (r: Result<(), Failure>, ghost sent: seq<(Signal, int)>, ghost killed: Option<JobStatus>)
      requires Valid() && last == cache.status && last.pid.Some?
      modifies cache, cache.remote
      ensures Valid()
      ensures r.Ok? ==> Terminal(cache.status.state)
      ensures Signals(cache.remote.requests) == Signals(old(cache.remote.requests)) + sent
      ensures sent != [] && Escalation(sent, cache.status.pid)
      ensures |sent| == 2 ==> Elapsed(old(cache.remote.now), old(cache.remote.unanswered))
      ensures r == Err(NotStopped) ==> |sent| == 2 && !Terminal(cache.status.state)
      ensures r == Err(NotStopped) ==>
        killed.Some? && killed.value in cache.remote.history && !Terminal(killed.value.state)
      ensures Progress(old(cache.status), cache.status)
    {
      var pid := last.pid.value;
      sent, killed := [(TERM, pid)], None;
      var status := Interrupt(last);
      if status.Err? {
        return Err(status.error), sent, None;
      }
      if Terminal(status.value.state) {
        return Ok(()), sent, None;
      }
      var answer;
      answer, killed := SendSignal(KILL, status.value.pid.value);
      sent := [(TERM, pid), (KILL, pid)];
      if answer.Err? {
        return Err(answer.error), sent, killed;
      }
      return if Terminal(answer.value.state) then Ok(()) else Err(NotStopped), sent, killed;
    }

    /**
     `terminate`. It returns normally only with a terminal status cached. It sends at most one TERM and
     then at most one KILL, both to the pid the status names, and the KILL only after five seconds of
     grace or a request that was not answered. A job already known to be over is not signalled at all.
     It reports that the job did not stop only if the KILL was answered with a status that is not terminal.
     */
    method Terminate()
      returns (r: Result<(), Failure>, ghost sent: seq<(Signal, int)>, ghost killed: Option<JobStatus>)
      requires Valid()
      modifies this`task, cache, cache.remote
      ensures Valid()
      ensures r.Ok? ==> Terminal(cache.status.state)
      ensures Signals(cache.remote.requests) == Signals(old(cache.remote.requests)) + sent
      ensures Escalation(sent, cache.status.pid)
      ensures |sent| == 2 ==> Elapsed(old(cache.remote.now), old(cache.remote.unanswered))
      ensures r == Err(NotStopped) ==> |sent| == 2 && !Terminal(cache.status.state)
      ensures r == Err(NotStopped) ==>
        killed.Some? && killed.value in cache.remote.history && !Terminal(killed.value.state)
      ensures Terminal(old(cache.status.state)) ==>
        r.Ok? && sent == [] && unchanged(cache) && unchanged(cache.remote) && unchanged(this)
      ensures r.Ok? && sent != [] && CleanupIsDue() ==> task == Pending
      ensures Progress(old(cache.status), cache.status)
    {
      sent, killed := [], None;
      if Terminal(cache.status.state) {
        return Ok(()), sent, None;
      }
      var waited := AwaitPid();
      if waited.Err? {
        return Err(waited.error), sent, None;
      }
      var status := waited.value;
      if Terminal(status.state) {
        return Ok(()), sent, None;
      }
      r, sent, killed := Escalate(status);
      if r.Ok? {
        MaybeAutoCleanup();
      }
    }

    /** `cleanup`: wait for the job, then remove its remote artifacts. */
    method Cleanup() returns (r: Result<(), Failure>)
      requires Valid()
      modifies this, cache, cache.remote
      ensures Valid()
      ensures r.Ok? ==> cleaned && Terminal(cache.status.state)
      ensures r.Err? ==> r.error == ConnectionLost
      ensures old(Settled()) && old(cleaned) ==> r.Ok? && unchanged(cache) && unchanged(cache.remote)
      ensures Progress(old(cache.status), cache.status)
    {
      var waited := Wait();
      if waited.Err? {
        return Err(waited.error);
      }
      r := CleanupRemote();
    }

    /**
     Automatic cleanup loses nothing: once it has been started, every byte each captured file held when a
     terminal status was sampled has been read, and the raw or decoded text of those bytes is what the
     client was given or still buffers.
     */
    lemma CleanupLosesNothing(reader: DurableReader)
      requires Valid() && task != NoTask && (reader == stdout || reader == stderr) && reader.captured
      requires reader.text ==> DecodePrefix(cache.remote.File(reader.stream)).Some?
      ensures var file := cache.remote.File(reader.stream);
        && reader.sampled <= reader.offset <= |file|
        && (reader.text ==> DecodeAll(file[..reader.offset]) == Some(reader.returned + reader.buffer))
        && (!reader.text ==> reader.returned + reader.buffer == file[..reader.offset])
    {
      reader.EofIsConclusive();
    }
  }
}
