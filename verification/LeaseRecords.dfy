/** What ties leases to the histories: each lease of the process is one entry of
    the history of grants, belongs to one call of Acquire, and runs over a circuit
    that its worker still owns or has closed. */
module LeaseRecords {
  import opened Base
  import opened Store
  import opened PoolState
  import opened ScanLaws
  import opened Protocol
  import opened Counting
  import opened Invariant
  import opened OtherSteps
  import opened Runs

  /** The grant that lease `l` came from: the leases of the process are the end
      of the history. */
  function GrantOf(s: Sys, l: nat): GrantRecord
    requires l < |s.leases| <= |s.grants|
  {
    s.grants[|s.grants| - |s.leases| + l]
  }

  ghost predicate LeasesRecorded(s: Sys)
    requires s.WF()
  {
    && |s.leases| <= |s.grants|
    && forall l {:trigger s.leases[l]} {:trigger GrantOf(s, l)} :: 0 <= l < |s.leases| ==>
         GrantOf(s, l) == GrantRecord(s.pool.eps[s.leases[l].ep].ip, s.pool.unique)
  }

  /** No two calls got the same lease. */
  ghost predicate CallsApart(s: Sys) {
    && (forall c :: 0 <= c < |s.calls| && s.calls[c].GotLease? ==> s.calls[c].lease < |s.leases|)
    && (forall c, d :: 0 <= c < d < |s.calls| && s.calls[c].GotLease? && s.calls[d].GotLease? ==>
          s.calls[c].lease != s.calls[d].lease)
  }

  ghost predicate CircuitsKnown(s: Sys)
    requires s.WF()
  {
    forall e {:trigger s.pool.eps[e]} {:trigger CircuitKnown(s, e)} :: 0 <= e < |s.pool.eps| ==> CircuitKnown(s, e)
  }

  /** The worker of endpoint `e` still has its circuit, or has closed it. */
  predicate CircuitKnown(s: Sys, e: nat)
    requires s.WF() && e < |s.pool.eps|
  {
    Owns(s.workers[s.pool.eps[e].slot].pc, e) || e in s.closed
  }

  ghost predicate Records(s: Sys) {
    s.WF() && LeasesRecorded(s) && CallsApart(s) && CircuitsKnown(s)
  }

  // ---- steps that grant nothing --------------------------------------------

  /** No lease was granted and no call got one. */
  ghost predicate NoGrant(s: Sys, t: Sys) {
    && s.WF() && t.WF() && t.grants == s.grants && t.pool.unique == s.pool.unique
    && |t.leases| == |s.leases|
    && (forall l {:trigger t.leases[l]} :: 0 <= l < |s.leases| ==> t.leases[l].ep == s.leases[l].ep)
    && |s.pool.eps| <= |t.pool.eps|
    && (forall e {:trigger t.pool.eps[e]} :: 0 <= e < |s.pool.eps| ==>
          t.pool.eps[e].ip == s.pool.eps[e].ip && t.pool.eps[e].slot == s.pool.eps[e].slot)
    && (forall c {:trigger t.calls[c]} :: 0 <= c < |t.calls| && t.calls[c].GotLease? ==>
          c < |s.calls| && s.calls[c] == t.calls[c])
  }

  lemma {:induction false} NoGrantKeeps(s: Sys, t: Sys)
    requires NoGrant(s, t) && LeasesRecorded(s) && CallsApart(s)
    ensures LeasesRecorded(t) && CallsApart(t)
  {
    forall l | 0 <= l < |t.leases|
      ensures GrantOf(t, l) == GrantRecord(t.pool.eps[t.leases[l].ep].ip, t.pool.unique)
    {
      assert GrantOf(t, l) == GrantOf(s, l) && t.leases[l].ep == s.leases[l].ep;
    }
  }

  lemma {:induction false} WorkerGrantsNothing(s: Sys, w: nat, step: WorkerStep)
    requires s.WF() && WorkerEnabled(s, w, step) && ApplyWorker(s, w, step).WF()
    ensures NoGrant(s, ApplyWorker(s, w, step))
  {
    match step {
      case Build(ip) =>
      case TryPublish(fault) =>
      case TakeBack =>
      case CloseCircuit =>
      case _ =>
    }
  }

  lemma {:induction false} WorkerPlaces(s: Sys, w: nat, step: WorkerStep, e: nat)
    requires s.WF() && WorkerEnabled(s, w, step) && e < |s.pool.eps|
    ensures var t := ApplyWorker(s, w, step);
      && s.closed <= t.closed && e < |t.pool.eps| && t.pool.eps[e].slot == s.pool.eps[e].slot
      && |t.workers| == |s.workers| && forall x :: 0 <= x < |s.workers| && x != w ==> t.workers[x] == s.workers[x]
  {}

  /** A worker keeps its endpoint until it closes the circuit. */
  lemma {:induction false} WorkerHoldsOn(s: Sys, w: nat, step: WorkerStep, e: nat)
    requires s.WF() && WorkerEnabled(s, w, step) && Owns(s.workers[w].pc, e)
    ensures var t := ApplyWorker(s, w, step); w < |t.workers| && (Owns(t.workers[w].pc, e) || e in t.closed)
  {}

  lemma {:induction false} WorkerKnows(s: Sys, w: nat, step: WorkerStep, e: nat)
    requires s.WF() && WorkerEnabled(s, w, step) && ApplyWorker(s, w, step).WF()
    requires e < |s.pool.eps| && CircuitKnown(s, e)
    ensures e < |ApplyWorker(s, w, step).pool.eps| && CircuitKnown(ApplyWorker(s, w, step), e)
  {
    WorkerPlaces(s, w, step, e);
    if s.pool.eps[e].slot == w && Owns(s.workers[w].pc, e) {
      WorkerHoldsOn(s, w, step, e);
    }
  }

  lemma {:induction false} WorkerAdds(s: Sys, w: nat, step: WorkerStep)
    requires s.WF() && WorkerEnabled(s, w, step) && ApplyWorker(s, w, step).WF()
    ensures var t := ApplyWorker(s, w, step);
      |t.pool.eps| == |s.pool.eps| || (|t.pool.eps| == |s.pool.eps| + 1 && CircuitKnown(t, |s.pool.eps|))
  {}

  lemma {:induction false} WorkerRecords(s: Sys, w: nat, step: WorkerStep)
    requires s.WF() && WorkerEnabled(s, w, step) && ApplyWorker(s, w, step).WF() && CircuitsKnown(s)
    ensures NoGrant(s, ApplyWorker(s, w, step)) && CircuitsKnown(ApplyWorker(s, w, step))
  {
    var t := ApplyWorker(s, w, step);
    WorkerGrantsNothing(s, w, step);
    WorkerAdds(s, w, step);
    forall e | 0 <= e < |t.pool.eps| ensures CircuitKnown(t, e) {
      if e < |s.pool.eps| {
        WorkerKnows(s, w, step, e);
      }
    }
  }

  lemma {:induction false} FinishUniqueLeaves(p: Pool, e: nat, err: Option<string>, x: nat)
    requires p.WF() && e < |p.eps| && x < |p.eps|
    ensures var q := FinishUnique(p, e, err);
      |q.eps| == |p.eps| && q.eps[x].ip == p.eps[x].ip && q.eps[x].slot == p.eps[x].slot && q.unique == p.unique
  {}

  lemma {:induction false} FinishReuseLeaves(p: Pool, e: nat, err: Option<string>, x: nat)
    requires p.WF() && e < |p.eps| && x < |p.eps|
    ensures var q := FinishReuse(p, e, err);
      |q.eps| == |p.eps| && q.eps[x].ip == p.eps[x].ip && q.eps[x].slot == p.eps[x].slot && q.unique == p.unique
  {}

  lemma {:induction false} FinishLeaves(s: Sys, l: nat, err: Option<string>, x: nat)
    requires s.WF() && LeaseEnabled(s, l, Finish(err)) && x < |s.pool.eps|
    ensures var t := DoFinish(s, l, err);
      && |t.pool.eps| == |s.pool.eps| && t.pool.unique == s.pool.unique
      && t.pool.eps[x].ip == s.pool.eps[x].ip && t.pool.eps[x].slot == s.pool.eps[x].slot
  {
    if s.pool.unique {
      FinishUniqueLeaves(s.pool, s.leases[l].ep, err, x);
    } else {
      FinishReuseLeaves(s.pool, s.leases[l].ep, err, x);
    }
  }

  /** Nothing but counters, slots and the insides of endpoints changed. */
  lemma {:induction false} Unmoved(s: Sys, t: Sys)
    requires s.WF() && t.WF() && CircuitsKnown(s)
    requires t.workers == s.workers && t.closed == s.closed && t.calls == s.calls && t.grants == s.grants
    requires t.pool.unique == s.pool.unique && |t.pool.eps| == |s.pool.eps| && |t.leases| == |s.leases|
    requires forall l {:trigger t.leases[l]} :: 0 <= l < |s.leases| ==> t.leases[l].ep == s.leases[l].ep
    requires forall e {:trigger t.pool.eps[e]} :: 0 <= e < |s.pool.eps| ==>
      t.pool.eps[e].ip == s.pool.eps[e].ip && t.pool.eps[e].slot == s.pool.eps[e].slot
    ensures NoGrant(s, t) && CircuitsKnown(t)
  {
    forall e | 0 <= e < |t.pool.eps| ensures CircuitKnown(t, e) { assert CircuitKnown(s, e); }
  }

  lemma {:induction false} FinishRecords(s: Sys, l: nat, err: Option<string>)
    requires s.WF() && LeaseEnabled(s, l, Finish(err)) && DoFinish(s, l, err).WF() && CircuitsKnown(s)
    ensures NoGrant(s, DoFinish(s, l, err)) && CircuitsKnown(DoFinish(s, l, err))
  {
    var t := DoFinish(s, l, err);
    FinishLeaves(s, l, err, s.leases[l].ep);
    forall x | 0 <= x < |s.pool.eps|
      ensures t.pool.eps[x].ip == s.pool.eps[x].ip && t.pool.eps[x].slot == s.pool.eps[x].slot
    {
      FinishLeaves(s, l, err, x);
    }
    Unmoved(s, t);
  }

  lemma {:induction false} SignalRecords(s: Sys, l: nat)
    requires s.WF() && LeaseEnabled(s, l, SignalDone) && DoSignal(s, l).WF() && CircuitsKnown(s)
    ensures NoGrant(s, DoSignal(s, l)) && CircuitsKnown(DoSignal(s, l))
  {
    var t := DoSignal(s, l);
    forall e | 0 <= e < |t.pool.eps| ensures CircuitKnown(t, e) { assert CircuitKnown(s, e); }
  }

  lemma {:induction false} WorldRecords(s: Sys, step: WorldStep)
    requires s.WF() && WorldEnabled(s, step) && !step.Restart? && ApplyWorld(s, step).WF() && CircuitsKnown(s)
    ensures NoGrant(s, ApplyWorld(s, step)) && CircuitsKnown(ApplyWorld(s, step))
  {
    var t := ApplyWorld(s, step);
    forall e | 0 <= e < |t.pool.eps| ensures CircuitKnown(t, e) { assert CircuitKnown(s, e); }
  }

  lemma {:induction false} CallRecords(s: Sys, c: nat, step: CallStep)
    requires s.WF() && CallEnabled(s, c, step) && !step.ScanSlots? && ApplyCall(s, c, step).WF() && CircuitsKnown(s)
    ensures NoGrant(s, ApplyCall(s, c, step)) && CircuitsKnown(ApplyCall(s, c, step))
  {
    var t := ApplyCall(s, c, step);
    forall e | 0 <= e < |t.pool.eps| ensures CircuitKnown(t, e) { assert CircuitKnown(s, e); }
  }

  lemma {:induction false} GrantsNothing(s: Sys, step: Step)
    requires s.WF() && Enabled(s, step) && Apply(s, step).WF() && CircuitsKnown(s)
    requires !IsRestart(step) && (step.ByCall? ==> !step.call.ScanSlots?)
    ensures NoGrant(s, Apply(s, step)) && CircuitsKnown(Apply(s, step))
  {
    match step {
      case ByWorker(w, ws) => WorkerRecords(s, w, ws);
      case ByWorld(es) => WorldRecords(s, es);
      case ByCall(c, cs) => CallRecords(s, c, cs);
      case ByLease(l, ls) =>
        match ls {
          case Finish(err) => FinishRecords(s, l, err);
          case SignalDone => SignalRecords(s, l);
        }
    }
  }

  // ---- scans ---------------------------------------------------------------

  lemma {:induction false} GrantedRecorded(s: Sys, c: nat, q: Pool, r: ScanResult, late: bool, l: nat)
    requires s.WF() && LeasesRecorded(s) && c < |s.calls| && s.calls[c].Scanning? && q.WF() && r.Granted?
    requires |q.eps| == |s.pool.eps| && ScanEffect(s.pool, q, r) && AfterScan(s, c, q, r, late).WF()
    requires l <= |s.leases|
    ensures var t := AfterScan(s, c, q, r, late);
      && |t.leases| == |s.leases| + 1 <= |t.grants|
      && GrantOf(t, l) == GrantRecord(t.pool.eps[t.leases[l].ep].ip, t.pool.unique)
  {
    var t := AfterScan(s, c, q, r, late);
    if l < |s.leases| {
      SameAddress(s.pool, q, r, s.leases[l].ep);
      assert GrantOf(t, l) == GrantOf(s, l);
    }
  }

  lemma {:induction false} ScanRecordsLeases(s: Sys, c: nat, q: Pool, r: ScanResult, late: bool)
    requires s.WF() && LeasesRecorded(s) && CallsApart(s) && c < |s.calls| && s.calls[c].Scanning? && q.WF()
    requires |q.eps| == |s.pool.eps| && ScanEffect(s.pool, q, r) && AfterScan(s, c, q, r, late).WF()
    ensures LeasesRecorded(AfterScan(s, c, q, r, late))
  {
    var t := AfterScan(s, c, q, r, late);
    if r.Granted? {
      forall l | 0 <= l <= |s.leases|
        ensures |t.leases| == |s.leases| + 1 <= |t.grants|
        ensures GrantOf(t, l) == GrantRecord(t.pool.eps[t.leases[l].ep].ip, t.pool.unique)
      {
        GrantedRecorded(s, c, q, r, late, l);
      }
      assert |t.leases| <= |t.grants| by { GrantedRecorded(s, c, q, r, late, 0); }
    } else {
      forall e | 0 <= e < |s.pool.eps|
        ensures t.pool.eps[e].ip == s.pool.eps[e].ip && t.pool.eps[e].slot == s.pool.eps[e].slot
      {
        SameAddress(s.pool, q, r, e);
      }
      assert NoGrant(s, t);
      NoGrantKeeps(s, t);
    }
  }

  lemma {:induction false} SameAddress(p: Pool, q: Pool, r: ScanResult, e: nat)
    requires p.WF() && |q.eps| == |p.eps| && ScanEffect(p, q, r) && e < |p.eps|
    ensures q.eps[e].ip == p.eps[e].ip && q.eps[e].slot == p.eps[e].slot && q.unique == p.unique
  {
    assert (r.Granted? && r.ep == e) || AtMostSkipped(p, q, e);
  }

  lemma {:induction false} ScanKeepsRecords(s: Sys, c: nat, q: Pool, r: ScanResult, late: bool)
    requires Records(s) && c < |s.calls| && s.calls[c].Scanning? && q.WF()
    requires |q.eps| == |s.pool.eps| && ScanEffect(s.pool, q, r) && AfterScan(s, c, q, r, late).WF()
    ensures Records(AfterScan(s, c, q, r, late))
  {
    ScanRecordsLeases(s, c, q, r, late);
    ScanCallsApart(s, c, q, r, late);
    var t := AfterScan(s, c, q, r, late);
    forall e | 0 <= e < |t.pool.eps| ensures CircuitKnown(t, e) {
      assert CircuitKnown(s, e);
      SameAddress(s.pool, q, r, e);
    }
  }

  lemma {:induction false} ScanCallsApart(s: Sys, c: nat, q: Pool, r: ScanResult, late: bool)
    requires CallsApart(s) && c < |s.calls| && s.calls[c].Scanning?
    requires r.StoreFailed? || r.Granted? ==> r.ep < |q.eps|
    ensures CallsApart(AfterScan(s, c, q, r, late))
  {}

  lemma {:induction false} StepKeepsRecords(s: Sys, step: Step, t: Sys)
    requires Records(s) && IsStep(s, step, t) && t.WF()
    ensures Records(t)
  {
    if step.ByCall? && step.call.ScanSlots? {
      ScanHasEffect(s.pool, step.call.faults);
      var (q, r) := Scan(s.pool, step.call.faults);
      ScanKeepsRecords(s, step.c, q, r, step.call.late);
    } else if !IsRestart(step) {
      GrantsNothing(s, step);
      NoGrantKeeps(s, t);
    }
  }

  lemma {:induction false} Recorded(tr: seq<Sys>, steps: seq<Step>, k: nat)
    requires Run(tr, steps) && k < |tr|
    ensures Records(tr[k])
  {
    WellFormed(tr, steps, k);
    if k > 0 {
      Recorded(tr, steps, k - 1);
      assert StepAt(tr, steps, k - 1);
      StepKeepsRecords(tr[k - 1], steps[k - 1], tr[k]);
    }
  }

  // ---- what follows --------------------------------------------------------

  lemma {:induction false} LeasesApart(s: Sys, l: nat, m: nat)
    requires Inv(s) && Records(s) && s.pool.unique && l < |s.leases| && m < |s.leases| && l != m
    ensures s.pool.eps[s.leases[l].ep].ip != s.pool.eps[s.leases[m].ep].ip
  {
    assert GrantOf(s, l).ip == s.pool.eps[s.leases[l].ep].ip;
    assert GrantOf(s, m).ip == s.pool.eps[s.leases[m].ep].ip;
    var base := |s.grants| - |s.leases|;
    if l < m {
      assert s.grants[base + l].ip != s.grants[base + m].ip;
    } else {
      assert s.grants[base + m].ip != s.grants[base + l].ip;
    }
  }

  /** In unique mode any two leases of a process have different addresses. */
  lemma {:induction false} LeasesUseDistinctAddresses(tr: seq<Sys>, steps: seq<Step>, k: nat, l: nat, m: nat)
    requires Run(tr, steps) && k < |tr| && tr[k].WF() && tr[k].pool.unique
    requires l < m < |tr[k].leases|
    ensures tr[k].pool.eps[tr[k].leases[l].ep].ip != tr[k].pool.eps[tr[k].leases[m].ep].ip
  {
    Reachable(tr, steps, k);
    Recorded(tr, steps, k);
    LeasesApart(tr[k], l, m);
  }

  /** An outstanding lease keeps its instance: unless the circuit, its session or
      the application has ended, the worker still serves or drains its endpoint
      and cannot leave the drain by its loop condition; in unique mode it cannot
      even see the endpoint as done, and its slot shows the endpoint but is not
      live. */
  ghost predicate Pinned(s: Sys, l: nat)
    requires s.WF() && l < |s.leases|
  {
    var e := s.leases[l].ep;
    var w := s.pool.eps[e].slot;
    && Serves(s.workers[w].pc, e) && !s.workers[w].pc.Leaving?
    && !WorkerEnabled(s, w, DrainEmpty)
    && (s.pool.unique ==>
          !WorkerEnabled(s, w, SeeDone) && s.pool.slots[w].ep == Some(e) && !s.pool.Live(w))
  }

  lemma {:induction false} HeldPins(s: Sys, l: nat)
    requires Inv(s) && Records(s) && l < |s.leases| && s.leases[l].phase.Held? && s.leases[l].ep !in s.ended
    ensures Pinned(s, l)
  {
    var e := s.leases[l].ep;
    Counted(s.leases, l);
    assert CircuitKnown(s, e) && EpOk(s, e) && SlotOk(s, s.pool.eps[e].slot);
  }

  lemma {:induction false} OutstandingPins(tr: seq<Sys>, steps: seq<Step>, k: nat, l: nat)
    requires Run(tr, steps) && k < |tr| && tr[k].WF()
    requires l < |tr[k].leases| && tr[k].leases[l].phase.Held? && tr[k].leases[l].ep !in tr[k].ended
    ensures Pinned(tr[k], l)
  {
    Reachable(tr, steps, k);
    Recorded(tr, steps, k);
    HeldPins(tr[k], l);
  }

  /** The connections of a circuit are cut under an outstanding lease only if the
      circuit, its session or the application has ended. */
  lemma {:induction false} CutOnlyIfEnded(tr: seq<Sys>, steps: seq<Step>, k: nat, l: nat)
    requires Run(tr, steps) && k < |tr| && tr[k].WF()
    requires l < |tr[k].leases| && tr[k].leases[l].phase.Held? && tr[k].pool.eps[tr[k].leases[l].ep].cancelled
    ensures tr[k].leases[l].ep in tr[k].ended
  {
    var s, e := tr[k], tr[k].leases[l].ep;
    Reachable(tr, steps, k);
    Recorded(tr, steps, k);
    Counted(s.leases, l);
    assert CircuitKnown(s, e) && EpOk(s, e) && SlotOk(s, s.pool.eps[e].slot);
  }

  /** In unique mode an instance has two outstanding leases only if the circuit of
      one of them has ended, by itself or with its session or the application. */
  lemma {:induction false} OnePerInstance(tr: seq<Sys>, steps: seq<Step>, k: nat, l: nat, m: nat)
    requires Run(tr, steps) && k < |tr| && tr[k].WF() && tr[k].pool.unique
    requires l < m < |tr[k].leases| && tr[k].leases[l].phase.Held? && tr[k].leases[m].phase.Held?
    requires tr[k].pool.eps[tr[k].leases[l].ep].slot == tr[k].pool.eps[tr[k].leases[m].ep].slot
    ensures tr[k].leases[l].ep in tr[k].ended || tr[k].leases[m].ep in tr[k].ended
  {
    LeasesUseDistinctAddresses(tr, steps, k, l, m);
    var s := tr[k];
    if s.leases[l].ep !in s.ended {
      OutstandingPins(tr, steps, k, l);
    }
    if s.leases[m].ep !in s.ended {
      OutstandingPins(tr, steps, k, m);
    }
  }
}
