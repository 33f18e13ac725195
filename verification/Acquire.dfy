/** What becomes of a call of Acquire (internal/app/pool.go): when it waits, when it
    gives up, and with which answer. */
module Acquire {
  import opened Base
  import opened Store
  import opened PoolState
  import opened ScanLaws
  import opened Protocol
  import opened Runs

  /** Step `m` is one of call `c`. */
  predicate Own(steps: seq<Step>, m: nat, c: nat)
    requires m < |steps|
  {
    steps[m].ByCall? && steps[m].c == c
  }

  /** Step `i` is the last one of call `c` before step `j`, in the same process. */
  ghost predicate LastOwn(steps: seq<Step>, i: nat, j: nat, c: nat) {
    i < j <= |steps| && Own(steps, i, c) && SameProcess(steps, i, j) && forall m :: i < m < j ==> !Own(steps, m, c)
  }

  /** The call's deadline has passed: its last step was that its timer fired. */
  ghost predicate TimedOut(steps: seq<Step>, j: nat, c: nat) {
    exists i :: 0 <= i < j && LastOwn(steps, i, j, c) && steps[i].call == Timeout
  }

  lemma {:induction false} OwnStep(s: Sys, c: nat, step: CallStep)
    requires s.WF() && CallEnabled(s, c, step) && !step.ScanSlots?
    ensures c < |ApplyCall(s, c, step).calls|
    ensures var call := ApplyCall(s, c, step).calls[c];
      && (step.Begin? || step.Wake? ==> call == Scanning(false))
      && (step.Timeout? ==> call == Scanning(true))
      && (step.Abandon? ==> call == GotError)
      && (step.Reject? ==> call == GotNoReady)
  {}

  /** A scan does not end in another scan. */
  lemma {:induction false} ScanEnds(s: Sys, c: nat, step: CallStep)
    requires s.WF() && CallEnabled(s, c, step) && step.ScanSlots?
    ensures c < |ApplyCall(s, c, step).calls| && !ApplyCall(s, c, step).calls[c].Scanning?
  {}

  lemma {:induction false} OthersLeave(s: Sys, step: Step, c: nat)
    requires s.WF() && Enabled(s, step) && !(step.ByCall? && step.c == c) && c < |Apply(s, step).calls|
    ensures !IsRestart(step) && c < |s.calls| && Apply(s, step).calls[c] == s.calls[c]
  {
    match step {
      case ByWorker(w, ws) =>
      case ByWorld(es) =>
      case ByLease(l, ls) =>
      case ByCall(d, cs) =>
    }
  }

  lemma {:induction false} LastIs(steps: seq<Step>, j: nat, c: nat)
    requires j < |steps| && Own(steps, j, c)
    ensures TimedOut(steps, j + 1, c) <==> steps[j].call == Timeout
  {
    var n := j + 1;
    assert LastOwn(steps, j, n, c);
    forall i | 0 <= i < n && LastOwn(steps, i, n, c) ensures i == j {}
  }

  lemma {:induction false} LastStays(steps: seq<Step>, j: nat, c: nat)
    requires j < |steps| && !Own(steps, j, c) && !IsRestart(steps[j])
    ensures TimedOut(steps, j + 1, c) <==> TimedOut(steps, j, c)
  {
    var n := j + 1;
    forall i | 0 <= i < j ensures LastOwn(steps, i, n, c) <==> LastOwn(steps, i, j, c) {}
  }

  /** A scan is final exactly if the call's timer has fired. */
  lemma {:induction false} FinalIff(tr: seq<Sys>, steps: seq<Step>, k: nat, c: nat)
    requires Run(tr, steps) && k < |tr| && c < |tr[k].calls| && tr[k].calls[c].Scanning?
    ensures tr[k].calls[c].final <==> TimedOut(steps, k, c)
  {
    if k > 0 {
      var s, step := tr[k - 1], steps[k - 1];
      assert StepAt(tr, steps, k - 1);
      if Own(steps, k - 1, c) {
        LastIs(steps, k - 1, c);
        if step.call.ScanSlots? {
          ScanEnds(s, c, step.call);
        } else {
          OwnStep(s, c, step.call);
        }
      } else {
        OthersLeave(s, step, c);
        LastStays(steps, k - 1, c);
        FinalIff(tr, steps, k - 1, c);
      }
    }
  }

  /** What a scan of call `c` comes to.  A grant makes the newest lease the call's;
      a failing store ends the call; and if nothing is ready it gives up exactly if
      its deadline has passed, and otherwise waits on the channel that is current
      at that scan. */
  lemma {:induction false} ScanOutcome(tr: seq<Sys>, steps: seq<Step>, k: nat, c: nat)
    requires Run(tr, steps) && k < |steps| && Own(steps, k, c) && steps[k].call.ScanSlots?
    requires tr[k].WF() && Enabled(tr[k], steps[k])
    ensures c < |tr[k + 1].calls|
    ensures var r, call := Scan(tr[k].pool, steps[k].call.faults).1, tr[k + 1].calls[c];
      match r
      case Granted(i, e) =>
        call == GotLease(|tr[k].leases|) && tr[k + 1].leases == tr[k].leases + [Lease(e, Held)]
      case StoreFailed(e, fault) => call == GotError && tr[k + 1].leases == tr[k].leases
      case NoReady =>
        && tr[k + 1].leases == tr[k].leases
        && call == if steps[k].call.late || TimedOut(steps, k, c) then Rejecting
                   else Waiting(tr[k + 1].pool.notify)
  {
    assert StepAt(tr, steps, k);
    FinalIff(tr, steps, k, c);
  }

  /** The call has given up: it has decided to report, or has reported, that nothing
      is ready; and so has it from this step on. */
  ghost predicate GaveUpAt(tr: seq<Sys>, steps: seq<Step>, j: nat, k: nat, c: nat) {
    && j < k < |tr| && |tr| == |steps| + 1 && Own(steps, j, c) && steps[j].call.ScanSlots?
    && tr[j].WF() && Enabled(tr[j], steps[j]) && Scan(tr[j].pool, steps[j].call.faults).1 == NoReady
    && forall m :: j < m <= k ==> Rejected(tr[m], c)
  }

  /** No call reports that nothing is ready before its deadline: the scan after which
      it gave up was late, or its timer had fired. */
  lemma {:induction false} RejectedOnlyLate(tr: seq<Sys>, steps: seq<Step>, k: nat, c: nat) returns (j: nat)
    requires Run(tr, steps) && k < |tr| && Rejected(tr[k], c)
    ensures GaveUpAt(tr, steps, j, k, c)
    ensures steps[j].call.late || TimedOut(steps, j, c)
    decreases k
  {
    if k == 0 {
      assert false;
    } else if Rejected(tr[k - 1], c) {
      j := RejectedOnlyLate(tr, steps, k - 1, c);
    } else {
      j := k - 1;
      RejectingScan(tr, steps, j, c);
    }
  }

  lemma {:induction false} RejectingScan(tr: seq<Sys>, steps: seq<Step>, j: nat, c: nat)
    requires Run(tr, steps) && j < |steps| && Rejected(tr[j + 1], c) && !Rejected(tr[j], c)
    ensures GaveUpAt(tr, steps, j, j + 1, c) && (steps[j].call.late || TimedOut(steps, j, c))
  {
    assert StepAt(tr, steps, j);
    RejectsByScan(tr[j], steps[j], c);
    ScanOutcome(tr, steps, j, c);
  }

  lemma {:induction false} RejectsByScan(s: Sys, step: Step, c: nat)
    requires s.WF() && Enabled(s, step) && Rejected(Apply(s, step), c) && !Rejected(s, c)
    ensures step.ByCall? && step.c == c && step.call.ScanSlots? && Scan(s.pool, step.call.faults).1 == NoReady
  {
    if !(step.ByCall? && step.c == c) {
      OthersLeave(s, step, c);
    } else if !step.call.ScanSlots? {
      OwnStep(s, c, step.call);
    }
  }

  /** How the other steps of a call move it: it starts with a scan that may wait, a
      closed channel brings it back to one, its timer to a last one, its context ends
      it with an error; giving up is counted once. */
  lemma {:induction false} CallMoves(tr: seq<Sys>, steps: seq<Step>, k: nat, c: nat)
    requires Run(tr, steps) && k < |steps| && Own(steps, k, c) && !steps[k].call.ScanSlots?
    ensures c < |tr[k + 1].calls| && tr[k + 1].leases == tr[k].leases
    ensures var call := tr[k + 1].calls[c];
      match steps[k].call
      case Abandon => call == GotError
      case Reject => call == GotNoReady && tr[k + 1].pool == tr[k].pool.(rejected := tr[k].pool.rejected + 1)
      case _ =>
        && call == Scanning(TimedOut(steps, k + 1, c)) && tr[k + 1].pool == tr[k].pool
        && (TimedOut(steps, k + 1, c) <==> steps[k].call == Timeout)
  {
    assert StepAt(tr, steps, k);
    OwnStep(tr[k], c, steps[k].call);
    LastIs(steps, k, c);
  }

  /** A call can go on unless it is over; one that waits can always time out or be
      abandoned, and can wake exactly if its channel is no longer the current one. */
  lemma {:induction false} CallGoesOnIff(s: Sys, c: nat)
    requires s.WF() && c < |s.calls|
    ensures (exists step :: CallEnabled(s, c, step)) <==>
      s.calls[c].Scanning? || s.calls[c].Waiting? || s.calls[c].Rejecting?
    ensures s.calls[c].Waiting? ==>
      && CallEnabled(s, c, Timeout) && CallEnabled(s, c, Abandon)
      && (CallEnabled(s, c, Wake) <==> s.calls[c].notify != s.pool.notify)
    ensures s.calls[c].Rejecting? ==> CallEnabled(s, c, Reject)
    ensures forall faults, late :: |faults| == |s.pool.slots| ==>
      (CallEnabled(s, c, ScanSlots(faults, late)) <==> s.calls[c].Scanning?)
  {
    var faults := seq(|s.pool.slots|, _ => Clean);
    assert s.calls[c].Scanning? ==> CallEnabled(s, c, ScanSlots(faults, false));
    assert s.calls[c].Waiting? ==> CallEnabled(s, c, Timeout);
    assert s.calls[c].Rejecting? ==> CallEnabled(s, c, Reject);
  }
}
