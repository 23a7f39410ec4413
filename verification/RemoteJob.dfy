/**
 The remote side of a durable job as its client sees it. A script says, request by request, what the
 job wrote before the request was served and whether the request came back; when the script is used
 up the next request is cancelled. Every finite course of events is some script.
 */
module RemoteJob {
  import opened Jobs
  import opened Utf8

  datatype Stream = Stdout | Stderr

  datatype Request =
    | StatusRequest
    | OutputRequest(stream: Stream)
    | SignalRequest(signal: Signal, pid: int)
    | CleanupRequest

  /**
   What happened up to the answer of one request: statuses published, bytes appended to the output
   files, time passed, and whether the request failed. `others` says that another task of the same
   handle refreshes its status before the caller goes on.
   */
  datatype Event = Event(
    statuses: seq<JobStatus>, stdout: seq<Byte>, stderr: seq<Byte>, elapsed: real, failed: bool, others: bool)

  datatype Failure = ConnectionLost | MovedBackward | Undecodable | NotStopped

  function Future(script: seq<Event>): seq<JobStatus> {
    if script == [] then [] else script[0].statuses + Future(script[1..])
  }

  lemma FutureOfTwo(first: Event, second: Event)
    ensures Future([first, second]) == first.statuses + second.statuses
  {
    assert [first, second][1..] == [second] && [second][1..] == [];
    assert Future([second]) == second.statuses + [] == second.statuses;
  }

  lemma LegalPrefix(a: seq<JobStatus>, b: seq<JobStatus>)
    requires LegalHistory(a + b) && a != []
    ensures LegalHistory(a)
  {
    var h := a + b;
    assert forall i :: 0 <= i < |a| ==> a[i] == h[i];
    assert forall i :: 0 < i < |a| ==> Follows(h[i - 1], h[i]);
  }

  function Slice(file: seq<Byte>, offset: nat, size: nat): (chunk: seq<Byte>)
    ensures |chunk| <= size
    ensures offset <= |file| ==> offset + |chunk| <= |file| && chunk == file[offset..offset + |chunk|]
    ensures chunk == [] && size > 0 ==> |file| <= offset
  {
    if |file| <= offset then [] else if |file| <= offset + size then file[offset..] else file[offset..offset + size]
  }

  class Remote {
    var script: seq<Event>
    var history: seq<JobStatus>
    var stdout: seq<Byte>
    var stderr: seq<Byte>
    var now: real
    var pauses: seq<bool>  // whether other tasks of the handle refresh during each sleep to come
    var requests: seq<Request>
    ghost var unanswered: nat      // requests that did not come back
    ghost var sleeps: seq<real>    // how long the client slept, each time

    ghost predicate Valid()
      reads this
    {
      && LegalHistory(history) && LegalHistory(history + Future(script))
      && forall i :: 0 <= i < |script| ==> script[i].elapsed >= 0.0
    }

    function File(stream: Stream): seq<Byte>
      reads this
    {
      if stream == Stdout then stdout else stderr
    }

    constructor (history: seq<JobStatus>, script: seq<Event>, pauses: seq<bool>)
      requires LegalHistory(history) && LegalHistory(history + Future(script))
      requires forall i :: 0 <= i < |script| ==> script[i].elapsed >= 0.0
      ensures Valid() && this.history == history && this.script == script && requests == []
    {
      this.history, this.script, this.pauses := history, script, pauses;
      stdout, stderr, now, requests := [], [], 0.0, [];
      unanswered, sleeps := 0, [];
    }

    /** One round trip; `served` says that an answer came back. */
    method Serve(request: Request) returns (served: bool, others: bool)
      requires Valid()
      modifies this
      ensures Valid()
      ensures requests == old(requests) + [request]
      ensures old(history) <= history && old(stdout) <= stdout && old(stderr) <= stderr && old(now) <= now
      ensures |script| <= |old(script)|
      ensures served ==> |script| < |old(script)|
      ensures old(script) != [] ==>
        && script == old(script)[1..] && history == old(history) + old(script)[0].statuses
        && served == !old(script)[0].failed && others == old(script)[0].others
      ensures unanswered == old(unanswered) + if served then 0 else 1
      ensures sleeps == old(sleeps)
    {
      requests := requests + [request];
      if script == [] {
        unanswered := unanswered + 1;
        return false, false;
      }
      var event := script[0];
      assert history + Future(script) == (history + event.statuses) + Future(script[1..]);
      LegalPrefix(history + event.statuses, Future(script[1..]));
      history, stdout, stderr := history + event.statuses, stdout + event.stdout, stderr + event.stderr;
      now := now + event.elapsed;
      script := script[1..];
      if event.failed {
        unanswered := unanswered + 1;
      }
      return !event.failed, event.others;
    }

    /** An exact sleep; `others` says that another task refreshes meanwhile. */
    method Sleep(duration: real) returns (others: bool)
      requires Valid() && duration >= 0.0
      modifies this`now, this`pauses, this`sleeps
      ensures Valid() && now == old(now) + duration && sleeps == old(sleeps) + [duration]
    {
      now, sleeps := now + duration, sleeps + [duration];
      others := pauses != [] && pauses[0];
      pauses := if pauses == [] then [] else pauses[1..];
    }
  }
}
