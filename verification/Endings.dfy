/** What has ended stays ended (internal/app/pool.go, tor.go): a closed circuit is
    never used again, and once the application ends nothing is handed out. */
module Endings {
  import opened Base
  import opened Store
  import opened PoolState
  import opened PoolLaws
  import opened ScanLaws
  import opened Protocol
  import opened Invariant
  import opened OtherSteps
  import opened Runs

  predicate CutOff(s: Sys, e: nat) {
    e < |s.pool.eps| && s.pool.eps[e].cancelled
  }

  /** No cancellation is taken back. */
  ghost predicate StaysCut(s: Sys, t: Sys) {
    |s.pool.eps| <= |t.pool.eps| && forall e :: 0 <= e < |s.pool.eps| && CutOff(s, e) ==> CutOff(t, e)
  }

  lemma {:induction false} WorkerCuts(s: Sys, w: nat, step: WorkerStep)
    requires s.WF() && WorkerEnabled(s, w, step)
    ensures StaysCut(s, ApplyWorker(s, w, step))
  {}

  lemma {:induction false} CallCuts(s: Sys, c: nat, step: CallStep)
    requires s.WF() && CallEnabled(s, c, step)
    ensures StaysCut(s, ApplyCall(s, c, step))
  {
    if step.ScanSlots? {
      ScanHasEffect(s.pool, step.faults);
      var (q, r) := Scan(s.pool, step.faults);
      forall e | 0 <= e < |s.pool.eps| ensures s.pool.eps[e].cancelled ==> q.eps[e].cancelled {
        assert (r.Granted? && r.ep == e) || AtMostSkipped(s.pool, q, e);
      }
    }
  }

  lemma {:induction false} LeaseCuts(s: Sys, l: nat, step: LeaseStep)
    requires s.WF() && LeaseEnabled(s, l, step)
    ensures StaysCut(s, ApplyLease(s, l, step))
  {}

  lemma {:induction false} StepCuts(s: Sys, step: Step)
    requires s.WF() && Enabled(s, step) && !IsRestart(step)
    ensures StaysCut(s, Apply(s, step))
  {
    match step {
      case ByWorker(w, ws) => WorkerCuts(s, w, ws);
      case ByWorld(es) =>
      case ByCall(c, cs) => CallCuts(s, c, cs);
      case ByLease(l, ls) => LeaseCuts(s, l, ls);
    }
  }

  /** Closed circuits are cut off, and all circuits once the application has ended. */
  ghost predicate EndsOk(s: Sys) {
    && (forall e :: e in s.closed ==> CutOff(s, e))
    && (s.appDone ==> forall e :: 0 <= e < |s.pool.eps| ==> CutOff(s, e))
  }

  lemma {:induction false} WorkerEnds(s: Sys, w: nat, step: WorkerStep)
    requires s.WF() && WorkerEnabled(s, w, step) && EndsOk(s)
    ensures EndsOk(ApplyWorker(s, w, step))
  {
    var t := ApplyWorker(s, w, step);
    WorkerCuts(s, w, step);
    assert t.closed <= s.closed + if step.CloseCircuit? then {s.workers[w].pc.ep} else {};
    forall e | 0 <= e < |t.pool.eps| && t.appDone ensures CutOff(t, e) {
      assert e < |s.pool.eps| ==> CutOff(s, e);
    }
  }

  lemma {:induction false} CallEnds(s: Sys, c: nat, step: CallStep)
    requires s.WF() && CallEnabled(s, c, step)
    ensures var t := ApplyCall(s, c, step);
      t.closed == s.closed && t.appDone == s.appDone && |t.pool.eps| == |s.pool.eps|
  {}

  lemma {:induction false} LeaseEnds(s: Sys, l: nat, step: LeaseStep)
    requires s.WF() && LeaseEnabled(s, l, step)
    ensures var t := ApplyLease(s, l, step);
      t.closed == s.closed && t.appDone == s.appDone && |t.pool.eps| == |s.pool.eps|
  {}

  lemma {:induction false} StepEnds(s: Sys, step: Step)
    requires s.WF() && Enabled(s, step) && EndsOk(s)
    ensures EndsOk(Apply(s, step))
  {
    if !IsRestart(step) {
      StepCuts(s, step);
    }
    match step {
      case ByWorker(w, ws) => WorkerEnds(s, w, ws);
      case ByWorld(es) =>
      case ByCall(c, cs) => CallEnds(s, c, cs);
      case ByLease(l, ls) => LeaseEnds(s, l, ls);
    }
  }

  lemma {:induction false} EndsHold(tr: seq<Sys>, steps: seq<Step>, k: nat)
    requires Run(tr, steps) && k < |tr|
    ensures EndsOk(tr[k])
  {
    if k > 0 {
      EndsHold(tr, steps, k - 1);
      assert StepAt(tr, steps, k - 1);
      StepEnds(tr[k - 1], steps[k - 1]);
    }
  }

  /** How the outside world moves the system: a circuit that ends is cut off, the end
      of the application cuts off all, a lost session is the worker's to see until
      it has a new one, and a restart keeps nothing but the table and the history. */
  lemma {:induction false} WorldMoves(s: Sys, step: WorldStep)
    requires s.WF() && WorldEnabled(s, step)
    ensures var t := ApplyWorld(s, step);
      && (step.CircuitEnds? ==> CutOff(t, step.ep) && step.ep in t.ended && t.appDone == s.appDone)
      && (step.AppEnds? ==> t.appDone && forall e :: 0 <= e < |s.pool.eps| ==> CutOff(t, e) && e in t.ended)
      && (step.ControlLost? ==>
            && |t.workers| == |s.workers| && t.workers[step.w] == Worker(s.workers[step.w].pc, true)
            && (!s.workers[step.w].pc.Idle? ==> s.workers[step.w].pc.ep in t.ended))
      && (step.NewSession? ==> |t.workers| == |s.workers| && t.workers[step.w] == Worker(Idle, false))
      && (step.Restart? ==>
            && t.pool.rows == s.pool.rows && t.grants == s.grants && t.pool.unique == step.unique
            && |t.pool.slots| == |t.workers| == step.n
            && (forall w :: 0 <= w < step.n ==> t.workers[w] == Worker(Idle, false))
            && t.leases == [] && t.calls == [] && t.pool.eps == [] && t.pool.reserved == map[] && !t.appDone)
      && (!step.Restart? ==> t.leases == s.leases && t.calls == s.calls && t.pool == s.pool.(eps := t.pool.eps))
  {}

  /** A closed circuit can not be dialled over: in every state of every run its
      endpoint is cancelled. */
  lemma {:induction false} ClosedIsCut(tr: seq<Sys>, steps: seq<Step>, k: nat, e: nat)
    requires Run(tr, steps) && k < |tr| && e in tr[k].closed
    ensures CutOff(tr[k], e)
  {
    EndsHold(tr, steps, k);
  }

  /** Once the application has ended, no endpoint can be dialled over, none can be
      published, and no scan grants a lease, whatever the store does. */
  lemma {:induction false} NothingAfterTheEnd(
      tr: seq<Sys>, steps: seq<Step>, k: nat, e: nat, fault: Fault, faults: seq<Fault>)
    requires Run(tr, steps) && k < |tr| && tr[k].appDone && tr[k].WF() && |faults| == |tr[k].pool.slots|
    ensures NoneLive(tr[k].pool)
    ensures e < |tr[k].pool.eps| ==> CutOff(tr[k], e) && Publish(tr[k].pool, e, fault).1 != Published
    ensures !Scan(tr[k].pool, faults).1.Granted?
  {
    EndsHold(tr, steps, k);
    forall i | 0 <= i < |tr[k].pool.slots| ensures !tr[k].pool.Live(i) {
      if tr[k].pool.slots[i].ep.Some? {
        assert CutOff(tr[k], tr[k].pool.slots[i].ep.value);
      }
    }
    if e < |tr[k].pool.eps| {
      PublishAnswers(tr[k].pool, e, fault);
    }
    ScanHasEffect(tr[k].pool, faults);
  }
}
