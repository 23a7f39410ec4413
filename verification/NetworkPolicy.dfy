/** Updating a sandbox's network policy and waiting until the update is in force. */
module NetworkPolicies {
  import opened Options

  /** A policy in the form the service reports it. */
  type Policy = string

  datatype Status = Created | Ready | Finished | Failed | Unknown

  predicate Terminal(status: Status) {
    status.Finished? || status.Failed?
  }

  /** How the service answers a PATCH: what it refuses it does not apply; an answer that is lost may hide either. */
  datatype Verdict =
    | Accept(policy: Policy, numbered: bool)
    | AcceptWithoutPolicy(policy: Policy)
    | UpdateConflict
    | Refuse
    | LostUnapplied
    | LostApplied(policy: Policy)

  /** How the service answers a GET; the numbers, when it reports them, are the true ones. */
  datatype View =
    | Unreachable
    | OtherSandbox
    | View(status: Status, desired: bool, enforced: bool, policy: Policy)

  /**
   What happens up to one answer: updates by others are accepted, some accepted updates come into force,
   time passes. The last three fields are for the sleep after the answer.
   */
  datatype Event = Event(
    others: seq<Policy>, progress: nat, elapsed: real, verdict: Verdict, view: View, retryAfter: real, jitter: real)

  datatype PatchReply = Accepted(policy: Policy, generation: Option<nat>) | NoPolicy | Busy | Refused | Lost | Cancelled

  datatype GetReply =
    | Seen(status: Status, desired: Option<nat>, enforced: Option<nat>, policy: Policy)
    | NotSeen | Other | Cancelled

  const GRACE: real := 30.0
  const PATCH_PAUSE: real := 5.0

  function Min(a: real, b: real): real {
    if a <= b then a else b
  }

  function Max(a: real, b: real): real {
    if a <= b then b else a
  }

  /** The service, whose generations are the positions in the log of accepted updates, counted from one. */
  class Service {
    var script: seq<Event>
    var log: seq<Policy>
    var enforced: nat
    var now: real
    var retryAfter: real
    var jitter: real
    ghost var mine: seq<nat>      // the generations that requests of this client made
    ghost var patches: seq<real>  // when its PATCH requests were answered
    ghost var answered: real      // when a request was last answered

    ghost predicate Valid()
      reads this
    {
      && enforced <= |log|
      && (forall i :: 0 <= i < |script| ==> script[i].elapsed >= 0.0 && script[i].jitter >= 0.0)
      && jitter >= 0.0 && answered <= now
      && (forall k :: 0 <= k < |patches| ==> patches[k] <= now)
    }

    /** What happens before a request is served. */
    method Advance() returns (event: Event)
      requires Valid() && script != []
      modifies this`script, this`log, this`enforced, this`now, this`retryAfter, this`jitter
      ensures Valid() && |script| < |old(script)| && old(log) <= log && old(enforced) <= enforced && old(now) <= now
    {
      event := script[0];
      script := script[1..];
      log := log + event.others;
      enforced := if enforced + event.progress <= |log| then enforced + event.progress else |log|;
      now, retryAfter, jitter := now + event.elapsed, event.retryAfter, event.jitter;
    }

    method Patch() returns (reply: PatchReply)
      requires Valid()
      modifies this
      ensures Valid() && |script| <= |old(script)| && old(now) <= now && patches == old(patches) + [now]
      ensures reply != PatchReply.Cancelled ==> |script| < |old(script)|
      ensures reply.Accepted? ==>
        && mine == old(mine) + [|log|] && |log| > 0 && log[|log| - 1] == reply.policy && answered == now
        && (reply.generation.Some? ==> reply.generation.value == |log|)
      ensures reply == Busy || reply == Refused ==> mine == old(mine)
      ensures mine == old(mine) || mine == old(mine) + [|log|]
      ensures old(log) <= log
    {
      if script == [] {
        patches := patches + [now];
        return PatchReply.Cancelled;
      }
      var event := Advance();
      patches := patches + [now];
      match event.verdict {
        case Accept(policy, numbered) =>
          log := log + [policy];
          mine, answered := mine + [|log|], now;
          return Accepted(policy, if numbered then Some(|log|) else None);
        case AcceptWithoutPolicy(policy) =>
          log := log + [policy];
          mine, answered := mine + [|log|], now;
          return NoPolicy;
        case UpdateConflict => answered := now; return Busy;
        case Refuse => answered := now; return Refused;
        case LostUnapplied => return Lost;
        case LostApplied(policy) =>
          log := log + [policy];
          mine := mine + [|log|];
          return Lost;
      }
    }

    method Get() returns (reply: GetReply)
      requires Valid()
      modifies this
      ensures Valid() && |script| <= |old(script)| && old(now) <= now && patches == old(patches) && mine == old(mine)
      ensures reply != GetReply.Cancelled ==> |script| < |old(script)|
      ensures reply.Seen? ==>
        && (reply.desired.Some? ==> reply.desired.value == |log|)
        && (reply.enforced.Some? ==> reply.enforced.value == enforced)
      ensures reply.Seen? || reply == Other ==> answered == now
      ensures reply == NotSeen ==> answered == old(answered)
      ensures old(log) <= log
    {
      if script == [] {
        return GetReply.Cancelled;
      }
      var event := Advance();
      match event.view {
        case Unreachable => return NotSeen;
        case OtherSandbox => answered := now; return Other;
        case View(status, desired, reported, policy) =>
          answered := now;
          return Seen(status, if desired then Some(|log|) else None, if reported then Some(enforced) else None, policy);
      }
    }

    /** `_sleep_until_next_poll` without a deadline. */
    method SleepUntilNextPoll(delay: real, retryAfter: real)
      requires Valid() && delay >= 0.0
      modifies this`now
      ensures Valid() && now >= old(now) + delay
    {
      var pause := Max(delay, retryAfter);
      now := now + pause + Min(jitter, Min(pause * 0.2, 1.0));
    }
  }

  datatype Outcome =
    | Done(generation: Option<nat>)
    | Superseded(overtaken: nat)
    | Differs
    | Stopped
    | WrongSandbox
    | Outage
    | InvalidGeneration
    | NotReturned
    | Conflict
    | Ambiguous
    | WasCancelled

  datatype Info = Info(status: Status, policy: Policy, desired: Option<nat>, enforced: Option<nat>)

  /** `_network_policy_generation` refuses what is no 32-bit number. */
  predicate InvalidNumber(value: Option<nat>) {
    value.Some? && value.value > 0xFFFF_FFFF
  }

  /** An answer after which the client goes on waiting for an update. */
  predicate Undecided(info: Info, generation: nat) {
    && !Terminal(info.status)
    && (info.desired.Some? ==> info.desired.value <= generation)
    && (info.enforced.Some? ==> info.enforced.value <= generation)
    && !(info.desired == Some(generation) && info.enforced == Some(generation) && info.status == Ready)
  }

  class Sandbox {
    const service: Service
    var info: Info

    constructor (service: Service, info: Info)
      ensures this.service == service && this.info == info
    {
      this.service, this.info := service, info;
    }

    /** From the `first` request on they were made at least five seconds apart. */
    ghost predicate Paced(first: nat)
      reads service
    {
      forall k :: first < k < |service.patches| ==> service.patches[k] - service.patches[k - 1] >= PATCH_PAUSE
    }

    /** The PATCH request, repeated only while another update is pending. */
    method RequestUpdate() returns (reply: PatchReply)
      requires service.Valid()
      modifies service
      ensures service.Valid() && reply != Busy
      ensures service.mine == old(service.mine) || service.mine == old(service.mine) + [|service.log|]
      ensures reply.Accepted? ==>
        && service.mine == old(service.mine) + [|service.log|]
        && |service.log| > 0 && service.log[|service.log| - 1] == reply.policy && service.answered == service.now
        && (reply.generation.Some? ==> reply.generation.value == |service.log|)
      ensures reply == Refused ==> service.mine == old(service.mine)
      ensures |old(service.patches)| < |service.patches| && Paced(|old(service.patches)|)
    {
      reply := service.Patch();
      while reply == Busy
        invariant service.Valid() && service.answered <= service.now
        invariant service.mine == old(service.mine) || service.mine == old(service.mine) + [|service.log|]
        invariant reply == Busy || reply == Refused ==> service.mine == old(service.mine)
        invariant reply.Accepted? ==>
          && service.mine == old(service.mine) + [|service.log|]
          && |service.log| > 0 && service.log[|service.log| - 1] == reply.policy && service.answered == service.now
          && (reply.generation.Some? ==> reply.generation.value == |service.log|)
        invariant |old(service.patches)| < |service.patches| && Paced(|old(service.patches)|)
        decreases |service.script|, if reply == Busy then 1 else 0
      {
        service.SleepUntilNextPoll(PATCH_PAUSE, service.retryAfter);
        reply := service.Patch();
      }
    }

    /**
     `_wait_for_network_policy`. It ends well only on an answer in which the update is both the newest and
     in force, and gives up on the service only after thirty seconds without an answer.
     */
    method WaitForNetworkPolicy(policy: Policy, generation: nat) returns (outcome: Outcome)
      requires service.Valid() && 0 < generation <= |service.log| && service.answered == service.now
      modifies this, service
      ensures service.Valid() && service.mine == old(service.mine) && service.patches == old(service.patches)
      ensures old(service.log) <= service.log
      ensures outcome.Done? ==>
        && outcome.generation == Some(generation) && generation == |service.log| == service.enforced
        && info == Info(Ready, policy, Some(generation), Some(generation))
      ensures outcome.Superseded? ==> outcome.overtaken == generation < |service.log|
      ensures outcome == Stopped ==> Terminal(info.status)
      ensures outcome == Differs ==>
        info.policy != policy && info == Info(Ready, info.policy, Some(generation), Some(generation))
      ensures outcome == Outage ==> service.now - service.answered >= GRACE
      ensures outcome == Outage || outcome == WasCancelled ==> info == old(info) || Undecided(info, generation)
      ensures outcome != Conflict
    {
      var failingSince: Option<real> := None;
      var delay := 1.0;
      while true
        invariant service.Valid() && service.mine == old(service.mine) && service.patches == old(service.patches)
        invariant old(service.log) <= service.log && delay > 0.0
        invariant info == old(info) || Undecided(info, generation)
        invariant failingSince.Some? ==> service.answered <= failingSince.value <= service.now
        decreases |service.script|
      {
        var reply := service.Get();
        match reply {
          case Cancelled => return WasCancelled;
          case NotSeen =>
            if failingSince.None? {
              failingSince := Some(service.now);
            }
            if service.now - failingSince.value >= GRACE {
              return Outage;
            }
            service.SleepUntilNextPoll(delay, service.retryAfter);
            delay := Min(5.0, delay * 2.0);
            continue;
          case Other => return WrongSandbox;
          case Seen(status, desired, enforced, shown) =>
            failingSince, delay := None, 1.0;
            if InvalidNumber(desired) || InvalidNumber(enforced) {
              return InvalidGeneration;
            }
            info := Info(status, shown, desired, enforced);
            if Terminal(info.status) {
              return Stopped;
            }
            if (desired.Some? && desired.value > generation) || (enforced.Some? && enforced.value > generation) {
              return Superseded(generation);
            }
            if desired == Some(generation) && enforced == Some(generation) && info.status == Ready {
              return if info.policy != policy then Differs else Done(Some(generation));
            }
            service.SleepUntilNextPoll(delay, 0.0);
        }
      }
    }

    /**
     `_update_network_policy` up to the cache flushes. In every outcome at most one of its requests was
     applied. When it returns with a number, that update is the newest the service has accepted, it is in
     force, and the sandbox is ready and reports the accepted policy.
     */
    method UpdateNetworkPolicy() returns (outcome: Outcome)
      requires service.Valid()
      modifies this, service
      ensures service.Valid()
      ensures old(service.mine) <= service.mine && |service.mine| <= |old(service.mine)| + 1
      ensures outcome.Done? || outcome.Superseded? ==> |service.mine| == |old(service.mine)| + 1
      ensures outcome == Conflict ==> service.mine == old(service.mine)
      ensures outcome.Done? && outcome.generation.Some? ==>
        var g := outcome.generation.value;
        && service.mine[|old(service.mine)|] == g == |service.log| == service.enforced
        && g > 0 && info == Info(Ready, service.log[g - 1], Some(g), Some(g))
      ensures outcome.Superseded? ==>
        service.mine[|old(service.mine)|] == outcome.overtaken < |service.log|
      ensures outcome.Done? && outcome.generation.None? ==>
        && |service.log| > 0 && service.mine[|old(service.mine)|] == |service.log|
        && info == old(info).(policy := service.log[|service.log| - 1], desired := None, enforced := None)
      ensures outcome == Stopped ==> Terminal(info.status)
      ensures outcome == Outage ==> service.now - service.answered >= GRACE
      ensures Paced(|old(service.patches)|)
    {
      var reply := RequestUpdate();
      match reply {
        case Cancelled => return WasCancelled;
        case Refused => return Conflict;
        case Lost => return Ambiguous;
        case NoPolicy => return NotReturned;
        case Accepted(policy, generation) =>
          if InvalidNumber(generation) {
            return InvalidGeneration;
          }
          if generation.None? {
            info := info.(policy := policy, desired := None, enforced := None);
            return Done(None);
          }
          outcome := WaitForNetworkPolicy(policy, generation.value);
      }
    }
  }
}
