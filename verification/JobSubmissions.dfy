/** How submissions end in every run. */
module JobSubmissions {
  import opened JobProtocol
  import opened JobSafety
  import opened JobLocks

  lemma NextAfterCompare(s: State, q: Pid, p: Pid)
    requires Inv(s) && SubmitEnabled(s, SubmitCompare(q))
    requires p in s.submissions && !s.submissions[p].pc.SubmissionExited?
    ensures var t := Apply(s, OfSubmission(SubmitCompare(q)));
      p in t.submissions && !t.submissions[p].pc.SubmissionExited?
  {
    assert SubmissionOk(s.job, s.submissions[q]);
  }

  /**
   At any step of a run a submission ends with a code exactly so: with 0 by reporting, with 70 by a lock
   that is held or by a second round that still finds PREPARED, with 137 by being killed. The comparison
   never ends one.
   */
  lemma SubmissionEndsExactly(states: seq<State>, steps: seq<Step>, k: nat, p: Pid, code: int)
    requires Run(states, steps) && k < |steps|
    requires p in states[k].submissions && !states[k].submissions[p].pc.SubmissionExited?
    ensures p in states[k + 1].submissions
    ensures states[k + 1].submissions[p].pc == SubmissionExited(code) <==> Ends(states[k], steps[k], p, code)
  {
    var step := steps[k];
    if step.OfSubmission? && step.submit.SubmitCompare? {
      RunOk(states, steps, k);
      NextAfterCompare(states[k], step.submit.p, p);
    } else {
      NextSubmission(states[k], step, p, code);
    }
  }

  predicate HasEnded(s: State, p: Pid, code: int) {
    p in s.submissions && s.submissions[p].pc == SubmissionExited(code)
  }

  predicate EndsHere(s: State, step: Step, p: Pid, code: int) {
    p in s.submissions && !s.submissions[p].pc.SubmissionExited? && Ends(s, step, p, code)
  }

  lemma EndedOrEndsHere(states: seq<State>, steps: seq<Step>, k: nat, p: Pid, code: int)
    requires Run(states, steps) && k < |steps| && HasEnded(states[k + 1], p, code)
    ensures HasEnded(states[k], p, code) || EndsHere(states[k], steps[k], p, code)
  {
    assert Enabled(states[k], steps[k]) && states[k + 1] == Apply(states[k], steps[k]);
    if p !in states[k].submissions {
      NewSubmission(states[k], steps[k], p);
    } else if states[k].submissions[p].pc.SubmissionExited? {
      ExitIsKept(states[k], steps[k], p);
    } else {
      SubmissionEndsExactly(states, steps, k, p, code);
    }
  }

  lemma NotAtFirst(states: seq<State>, steps: seq<Step>, p: Pid, code: int)
    requires Run(states, steps)
    ensures !HasEnded(states[0], p, code)
  {
  }

  /** Every submission that has ended did so at one step of the run. */
  lemma {:induction false} EndOf(states: seq<State>, steps: seq<Step>, i: nat, p: Pid, code: int) returns (k: nat)
    requires Run(states, steps) && i < |states| && HasEnded(states[i], p, code)
    ensures k < i && EndsHere(states[k], steps[k], p, code)
  {
    NotAtFirst(states, steps, p, code);
    k := i - 1;
    EndedOrEndsHere(states, steps, k, p, code);
    if HasEnded(states[k], p, code) {
      k := EndOf(states, steps, k, p, code);
    }
  }

  /**
   A submission ends with 0, 70 or 137, never with 1. One that ended with 70 had met a live holder of the
   lock, or the command had not begun in its second round.
   */
  lemma SubmissionExitCodes(states: seq<State>, steps: seq<Step>, i: nat, p: Pid, code: int)
    requires Run(states, steps) && i < |states|
    requires HasEnded(states[i], p, code)
    ensures code == 0 || code == 70 || code == 137
    ensures code == 70 ==> exists k :: 0 <= k < i && EndedWith70(states[k], p)
  {
    var k := EndOf(states, steps, i, p, code);
    if code == 70 {
      RunOk(states, steps, k);
      assert Enabled(states[k], steps[k]);
      if steps[k] == OfSubmission(SubmitTimeout(p)) {
        TimeoutNeedsHolder(states, steps, k, p);
      }
      assert EndedWith70(states[k], p);
    }
  }

  /** Why a submission ends with 70. */
  ghost predicate EndedWith70(s: State, p: Pid) {
    || (SubmissionAt(s, p, Locking) && exists q :: q != p && Holds(s, q))
    || (SubmissionAt(s, p, Retesting) && s.submissions[p].round >= 1 && IsPrepared(s.job) && s.job.starts == [])
  }
}
