/** The life of one endpoint over whole runs: drain before close, isolation
    between generations, and exact accounting. */
module Endpoints {
  import opened Base
  import opened Store
  import opened PoolState
  import opened ScanLaws
  import opened Protocol
  import opened Counting
  import opened Invariant
  import opened OtherSteps
  import opened Runs

  // ---- an endpoint that left its slot --------------------------------------

  /** `e` is not in its slot and its worker will not publish it any more. */
  predicate Retired(s: Sys, e: nat)
    requires s.WF()
  {
    && e < |s.pool.eps|
    && s.pool.slots[s.pool.eps[e].slot].ep != Some(e)
    && s.workers[s.pool.eps[e].slot].pc != Built(e)
  }

  /** Retired, with no more leases than it had and no more of them outstanding. */
  ghost predicate Winding(s: Sys, t: Sys, e: nat)
    requires s.WF() && t.WF() && Retired(s, e)
  {
    && Retired(t, e)
    && t.pool.eps[e].slot == s.pool.eps[e].slot
    && LeasesOn(t.leases, e) == LeasesOn(s.leases, e)
    && HeldOn(t.leases, e) <= HeldOn(s.leases, e)
  }

  lemma {:induction false} WorkerLeavesLeases(s: Sys, w: nat, step: WorkerStep)
    requires s.WF() && WorkerEnabled(s, w, step)
    ensures ApplyWorker(s, w, step).leases == s.leases
  {}

  lemma {:induction false} OtherWorkerRetires(s: Sys, w: nat, step: WorkerStep, e: nat)
    requires s.WF() && WorkerEnabled(s, w, step) && Retired(s, e) && s.pool.eps[e].slot != w
    requires ApplyWorker(s, w, step).WF()
    ensures Retired(ApplyWorker(s, w, step), e) && ApplyWorker(s, w, step).pool.eps[e].slot == s.pool.eps[e].slot
  {
    var t, i := ApplyWorker(s, w, step), s.pool.eps[e].slot;
    assert t.workers[i] == s.workers[i] && t.pool.slots[i] == s.pool.slots[i];
  }

  lemma {:induction false} OwnWorkerRetires(s: Sys, w: nat, step: WorkerStep, e: nat)
    requires s.WF() && WorkerEnabled(s, w, step) && Retired(s, e) && s.pool.eps[e].slot == w
    requires ApplyWorker(s, w, step).WF()
    ensures Retired(ApplyWorker(s, w, step), e) && ApplyWorker(s, w, step).pool.eps[e].slot == s.pool.eps[e].slot
  {
    match step {
      case Build(ip) =>
      case TryPublish(fault) =>
      case TakeBack =>
      case _ =>
    }
  }

  lemma {:induction false} WorkerWinds(s: Sys, w: nat, step: WorkerStep, e: nat)
    requires s.WF() && WorkerEnabled(s, w, step) && Retired(s, e) && ApplyWorker(s, w, step).WF()
    ensures Winding(s, ApplyWorker(s, w, step), e)
  {
    WorkerLeavesLeases(s, w, step);
    if s.pool.eps[e].slot == w {
      OwnWorkerRetires(s, w, step, e);
    } else {
      OtherWorkerRetires(s, w, step, e);
    }
  }

  lemma ScanWinds(s: Sys, c: nat, q: Pool, r: ScanResult, late: bool, e: nat)
    requires Scanned(s, c, q, r) && Retired(s, e) && AfterScan(s, c, q, r, late).WF()
    ensures Winding(s, AfterScan(s, c, q, r, late), e)
  {
    if r.Granted? {
      Appended(s.leases, Lease(r.ep, Held));
    }
  }

  lemma CallWinds(s: Sys, c: nat, step: CallStep, e: nat)
    requires s.WF() && CallEnabled(s, c, step) && Retired(s, e) && ApplyCall(s, c, step).WF()
    ensures Winding(s, ApplyCall(s, c, step), e)
  {
    if step.ScanSlots? {
      ScanHasEffect(s.pool, step.faults);
      var (q, r) := Scan(s.pool, step.faults);
      if r.NoReady? {
        NoReadyLeavesNoneLive(s.pool, step.faults);
      }
      ScanWinds(s, c, q, r, step.late, e);
    }
  }

  lemma FinishWinds(s: Sys, t: Sys, l: nat, err: Option<string>, e: nat)
    requires Finished(s, t, l, err) && Retired(s, e)
    ensures Winding(s, t, e)
  {
    Changed(s.leases, l, t.leases[l]);
  }

  lemma SignalWinds(s: Sys, l: nat, e: nat)
    requires s.WF() && LeaseEnabled(s, l, SignalDone) && Retired(s, e) && DoSignal(s, l).WF()
    ensures Winding(s, DoSignal(s, l), e)
  {
    Changed(s.leases, l, DoSignal(s, l).leases[l]);
  }

  lemma LeaseWinds(s: Sys, l: nat, step: LeaseStep, e: nat)
    requires Inv(s) && LeaseEnabled(s, l, step) && Retired(s, e) && ApplyLease(s, l, step).WF()
    ensures Winding(s, ApplyLease(s, l, step), e)
  {
    match step {
      case SignalDone => SignalWinds(s, l, e);
      case Finish(err) =>
        if FirstFinish(s, l) {
          assert EpOk(s, s.leases[l].ep);
          FirstFinishHeld(s, l);
          FinishEffect(s, l, err);
          FinishWinds(s, DoFinish(s, l, err), l, err, e);
        }
    }
  }

  lemma WorldWinds(s: Sys, step: WorldStep, e: nat)
    requires s.WF() && WorldEnabled(s, step) && !step.Restart? && Retired(s, e) && ApplyWorld(s, step).WF()
    ensures Winding(s, ApplyWorld(s, step), e)
  {}

  lemma {:induction false} WindingChain(tr: seq<Sys>, j: nat, k: nat, e: nat)
    requires j <= k < |tr| && (forall m :: j <= m <= k ==> tr[m].WF())
    requires Retired(tr[j], e)
    requires forall m, n :: j <= m < k && n == m + 1 && Retired(tr[m], e) ==> Winding(tr[m], tr[n], e)
    ensures Winding(tr[j], tr[k], e)
  {
    if j < k {
      WindingChain(tr, j, k - 1, e);
      assert Winding(tr[k - 1], tr[k], e);
    }
  }

  lemma StepWinds(tr: seq<Sys>, steps: seq<Step>, m: nat, e: nat)
    requires Run(tr, steps) && m < |steps| && !IsRestart(steps[m])
    requires tr[m].WF() && tr[m + 1].WF() && Retired(tr[m], e)
    ensures Winding(tr[m], tr[m + 1], e)
  {
    Reachable(tr, steps, m);
    assert StepAt(tr, steps, m);
    match steps[m] {
      case ByWorker(w, ws) => WorkerWinds(tr[m], w, ws, e);
      case ByWorld(es) => WorldWinds(tr[m], es, e);
      case ByCall(c, cs) => CallWinds(tr[m], c, cs, e);
      case ByLease(l, ls) => LeaseWinds(tr[m], l, ls, e);
    }
  }

  /** A retired endpoint is never leased again and its outstanding leases only
      fall, as long as the process lives. */
  lemma RetiredForGood(tr: seq<Sys>, steps: seq<Step>, j: nat, k: nat, e: nat)
    requires Run(tr, steps) && j <= k < |tr| && SameProcess(steps, j, k)
    requires tr[j].WF() && tr[k].WF() && Retired(tr[j], e)
    ensures Winding(tr[j], tr[k], e)
  {
    forall m | j <= m <= k ensures tr[m].WF() {
      WellFormed(tr, steps, m);
    }
    forall m, n | j <= m < k && n == m + 1 && Retired(tr[m], e) ensures Winding(tr[m], tr[n], e) {
      StepWinds(tr, steps, m, e);
    }
    WindingChain(tr, j, k, e);
  }

  // ---- drain before close --------------------------------------------------

  /** A failed reuse-mode lease that finishes retires its endpoint. */
  lemma FailureRetires(s: Sys, t: Sys, l: nat, err: string)
    requires Inv(s) && Finished(s, t, l, Some(err)) && !s.pool.unique
    ensures Retired(t, s.leases[l].ep)
    ensures LeasesOn(t.leases, s.leases[l].ep) == LeasesOn(s.leases, s.leases[l].ep)
    ensures HeldOn(t.leases, s.leases[l].ep) < HeldOn(s.leases, s.leases[l].ep)
  {
    var e := s.leases[l].ep;
    Counted(s.leases, l);
    Changed(s.leases, l, t.leases[l]);
    assert SlotOk(s, s.pool.eps[e].slot);
  }

  /** In reuse mode the first failed lease to finish on an endpoint ends its
      service: it is never leased again and `active` only falls. */
  lemma FailureEndsService(tr: seq<Sys>, steps: seq<Step>, j: nat, k: nat, l: nat, err: string)
    requires Run(tr, steps) && j < k < |tr| && SameProcess(steps, j, k)
    requires tr[j].WF() && tr[k].WF() && !tr[j].pool.unique
    requires l < |tr[j].leases| && tr[j].leases[l].phase.Held? && steps[j] == ByLease(l, Finish(Some(err)))
    ensures var e := tr[j].leases[l].ep;
      && Retired(tr[k], e)
      && LeasesOn(tr[k].leases, e) == LeasesOn(tr[j].leases, e)
      && HeldOn(tr[k].leases, e) < HeldOn(tr[j].leases, e)
  {
    var s, t, e := tr[j], tr[j + 1], tr[j].leases[l].ep;
    Reachable(tr, steps, j);
    Reachable(tr, steps, j + 1);
    assert t == DoFinish(s, l, Some(err)) by { assert StepAt(tr, steps, j); }
    FinishEffect(s, l, Some(err));
    FailureRetires(s, t, l, err);
    RetiredForGood(tr, steps, j + 1, k, e);
  }

  /** When the worker leaves the drain because nothing is active, no lease of
      that circuit is outstanding or can ever arise again. */
  lemma DrainedForGood(tr: seq<Sys>, steps: seq<Step>, j: nat, k: nat, w: nat)
    requires Run(tr, steps) && j <= k < |tr| && j < |steps| && SameProcess(steps, j, k)
    requires tr[j].WF() && w < |tr[j].workers| && steps[j] == ByWorker(w, DrainEmpty)
    requires WorkerEnabled(tr[j], w, DrainEmpty)
    ensures var e := tr[j].workers[w].pc.ep;
      HeldOn(tr[k].leases, e) == 0 && LeasesOn(tr[k].leases, e) == LeasesOn(tr[j].leases, e)
  {
    var e := tr[j].workers[w].pc.ep;
    Reachable(tr, steps, j);
    Reachable(tr, steps, k);
    assert SlotOk(tr[j], w) && EpOk(tr[j], e);
    RetiredForGood(tr, steps, j, k, e);
  }

  /** `e` loses its circuit, its control session or the application in this step,
      or is created after the application has ended. */
  ghost predicate EndsFor(s: Sys, step: Step, e: nat)
    requires s.WF()
  {
    || step == ByWorld(CircuitEnds(e))
    || (step == ByWorld(AppEnds) && e < |s.pool.eps|)
    || (step.ByWorld? && step.world.ControlLost? && step.world.w < |s.workers| && Owns(s.workers[step.world.w].pc, e))
    || (step.ByWorker? && step.worker.Build? && s.appDone && e == |s.pool.eps|)
  }

  lemma EndingStep(s: Sys, step: Step, t: Sys, e: nat)
    requires IsStep(s, step, t) && e in t.ended && e !in s.ended
    ensures EndsFor(s, step, e)
  {
    match step {
      case ByWorker(w, ws) =>
      case ByWorld(es) =>
      case ByCall(c, cs) =>
      case ByLease(l, ls) =>
    }
  }

  /** A circuit is closed under a live lease only if the circuit itself, its
      control session or the application had ended before. */
  lemma ClosedUnderLease(tr: seq<Sys>, steps: seq<Step>, k: nat, e: nat) returns (j: nat)
    requires Run(tr, steps) && k < |tr| && e in tr[k].closed && HeldOn(tr[k].leases, e) > 0
    ensures j < k && tr[j].WF() && EndsFor(tr[j], steps[j], e)
    ensures forall m :: j < m <= k ==> e in tr[m].ended
  {
    Reachable(tr, steps, k);
    assert EpOk(tr[k], e);
    var flag := seq(|tr|, m requires 0 <= m < |tr| => e in tr[m].ended);
    j := LastRise(flag, k);
    forall m | j < m <= k ensures e in tr[m].ended { assert flag[m]; }
    assert StepAt(tr, steps, j);
    EndingStep(tr[j], steps[j], tr[j + 1], e);
  }

  // ---- generation isolation ------------------------------------------------

  /** Slots show the same endpoints in the same states, with the same
      reservations, and no endpoint other than `e` changed. */
  ghost predicate Untouched(p: Pool, q: Pool, e: nat) {
    && |q.slots| == |p.slots| && |q.eps| == |p.eps|
    && (forall i :: 0 <= i < |p.slots| ==> q.slots[i].ep == p.slots[i].ep && q.slots[i].state == p.slots[i].state)
    && (forall x :: 0 <= x < |p.eps| && x != e ==> q.eps[x] == p.eps[x])
    && q.reserved == p.reserved && q.notify == p.notify && q.next == p.next && q.rows == p.rows
  }

  /** A Finish for an endpoint that is no longer current, however late, moves
      only the counters. */
  lemma LateFinish(tr: seq<Sys>, steps: seq<Step>, k: nat, l: nat, err: Option<string>)
    requires Run(tr, steps) && k < |tr| && tr[k].WF() && l < |tr[k].leases|
    requires var e := tr[k].leases[l].ep; tr[k].pool.slots[tr[k].pool.eps[e].slot].ep != Some(e)
    ensures Untouched(tr[k].pool, DoFinish(tr[k], l, err).pool, tr[k].leases[l].ep)
  {
    var s := tr[k];
    if FirstFinish(s, l) {
      Reachable(tr, steps, k);
      assert EpOk(s, s.leases[l].ep);
      FirstFinishHeld(s, l);
      FinishEffect(s, l, err);
    }
  }

  /** A withdraw for an endpoint that is no longer current changes nothing but
      that endpoint's own cancellation. */
  lemma LateWithdraw(tr: seq<Sys>, steps: seq<Step>, k: nat, e: nat)
    requires Run(tr, steps) && k < |tr| && tr[k].WF() && e < |tr[k].pool.eps|
    requires tr[k].pool.slots[tr[k].pool.eps[e].slot].ep != Some(e)
    ensures Untouched(tr[k].pool, Withdraw(tr[k].pool, e), e)
    ensures Withdraw(tr[k].pool, e).eps[e] == tr[k].pool.eps[e].(cancelled := true)
  {
    Reachable(tr, steps, k);
    var ip := tr[k].pool.eps[e].ip;
    if ip in tr[k].pool.reserved {
      assert ReservationHeld(tr[k], ip);
    }
  }

  /** Every done channel is closed at most once, in both modes. */
  lemma DoneClosedOnce(tr: seq<Sys>, steps: seq<Step>, k: nat, e: nat)
    requires Run(tr, steps) && k < |tr| && e < |tr[k].pool.eps|
    ensures tr[k].pool.eps[e].closes <= 1
  {
    Reachable(tr, steps, k);
    assert EpOk(tr[k], e);
  }

  // ---- accounting ----------------------------------------------------------

  /** Every request is completed, failed or outstanding, and is counted once
      for its instance. */
  lemma RequestsBalance(tr: seq<Sys>, steps: seq<Step>, k: nat)
    requires Run(tr, steps) && k < |tr|
    ensures var p := tr[k].pool;
      && p.requests == p.completed + p.failed + AllHeld(tr[k].leases)
      && p.requests == TotalRequests(p.slots)
      && p.rejected == NoReadyCalls(tr[k].calls)
  {
    Reachable(tr, steps, k);
  }

  /** A unique endpoint has at most one lease in its life; a reuse endpoint's
      `active` is exactly the number of its outstanding leases. */
  lemma LeasesPerEndpoint(tr: seq<Sys>, steps: seq<Step>, k: nat, e: nat)
    requires Run(tr, steps) && k < |tr| && e < |tr[k].pool.eps|
    ensures if tr[k].pool.unique then LeasesOn(tr[k].leases, e) <= 1
            else tr[k].pool.eps[e].active == HeldOn(tr[k].leases, e)
  {
    Reachable(tr, steps, k);
    assert EpOk(tr[k], e);
  }

  /** The guard that keeps `active` from falling below zero never bites. */
  lemma ActiveGuardIdle(tr: seq<Sys>, steps: seq<Step>, k: nat, l: nat)
    requires Run(tr, steps) && k < |tr| && tr[k].WF() && !tr[k].pool.unique
    requires l < |tr[k].leases| && tr[k].leases[l].phase.Held?
    ensures tr[k].pool.eps[tr[k].leases[l].ep].active > 0
  {
    Reachable(tr, steps, k);
    assert EpOk(tr[k], tr[k].leases[l].ep);
    Counted(tr[k].leases, l);
  }

  // ---- the failure streak --------------------------------------------------

  /** The finishes of instance `i`, in order. */
  function Mine(log: seq<FinishRecord>, i: nat): seq<bool> {
    if log == [] then []
    else Mine(log[..|log| - 1], i) + (if log[|log| - 1].slot == i then [log[|log| - 1].failed] else [])
  }

  /** `Streak` is the length of the longest run of failures that ends the
      instance's own finishes. */
  lemma {:induction false} StreakMeaning(log: seq<FinishRecord>, i: nat)
    ensures var mine, n := Mine(log, i), Streak(log, i);
      && n <= |mine|
      && (forall k :: |mine| - n <= k < |mine| ==> mine[k])
      && (n < |mine| ==> !mine[|mine| - n - 1])
  {
    if log != [] {
      StreakMeaning(log[..|log| - 1], i);
    }
  }

  /** The last three finishes of instance `w`, or more, all failed. */
  predicate ThreeFailed(log: seq<FinishRecord>, w: nat) {
    var mine := Mine(log, w);
    |mine| >= 3 && mine[|mine| - 1] && mine[|mine| - 2] && mine[|mine| - 3]
  }

  /** A worker asks for a rebuild exactly when its endpoint's last error is set
      and the instance's last three finishes, or more, all failed. */
  lemma RebuildDecision(tr: seq<Sys>, steps: seq<Step>, k: nat, w: nat)
    requires Run(tr, steps) && k < |steps| && steps[k] == ByWorker(w, SeeDone)
    requires tr[k].WF() && WorkerEnabled(tr[k], w, SeeDone)
    ensures w < |tr[k + 1].workers| && !tr[k + 1].workers[w].pc.Idle?
    ensures var pc := tr[k + 1].workers[w].pc;
      (pc == Leaving(pc.ep, AfterServe(true)) || pc == Draining(pc.ep, true)) <==>
        tr[k].pool.eps[tr[k].workers[w].pc.ep].lastErr.Some? && ThreeFailed(tr[k].finishes, w)
  {
    Reachable(tr, steps, k);
    assert StepAt(tr, steps, k);
    assert SlotOk(tr[k], w);
    StreakMeaning(tr[k].finishes, w);
  }

  /** The worker is on its way out after serving `e`, with this decision. */
  predicate Decided(s: Sys, w: nat, e: nat, rebuild: bool) {
    w < |s.workers| && (s.workers[w].pc == Draining(e, rebuild) || s.workers[w].pc == Leaving(e, AfterServe(rebuild)))
  }

  /** What the worker read when it saw the endpoint as done. */
  predicate Warrants(s: Sys, w: nat, e: nat) {
    e < |s.pool.eps| && s.pool.eps[e].lastErr.Some? && ThreeFailed(s.finishes, w)
  }

  lemma {:induction false} OwnDecision(s: Sys, w: nat, step: WorkerStep, e: nat, rebuild: bool)
    requires s.WF() && WorkerEnabled(s, w, step)
    requires Decided(ApplyWorker(s, w, step), w, e, rebuild) && !Decided(s, w, e, rebuild)
    ensures step.SeeDone? && s.workers[w].pc == Serving(e)
    ensures rebuild <==> s.pool.eps[e].lastErr.Some? && s.pool.slots[w].fails >= MAX_SERVE_FAILURES
    ensures ApplyWorker(s, w, step).pool == s.pool && s.pool.eps[e].closes > 0
  {}

  lemma {:induction false} OtherWorkersDecide(s: Sys, x: nat, step: WorkerStep, w: nat)
    requires s.WF() && WorkerEnabled(s, x, step) && x != w && w < |s.workers|
    ensures ApplyWorker(s, x, step).workers[w] == s.workers[w]
  {}

  lemma {:induction false} NotByOthers(s: Sys, step: Step, w: nat, e: nat, rebuild: bool)
    requires s.WF() && Enabled(s, step) && !(step.ByWorker? && step.w == w)
    requires Decided(Apply(s, step), w, e, rebuild)
    ensures Decided(s, w, e, rebuild) && !IsRestart(step)
  {
    match step {
      case ByWorker(x, ws) => if w < |s.workers| { OtherWorkersDecide(s, x, ws, w); }
      case ByWorld(_) =>
      case ByCall(_, _) =>
      case ByLease(_, _) =>
    }
  }

  /** This step is the decision, made by what it reads. */
  predicate Decides(s: Sys, step: Step, t: Sys, w: nat, e: nat, rebuild: bool) {
    && step == ByWorker(w, SeeDone) && w < |s.workers| && s.workers[w].pc == Serving(e)
    && e < |s.pool.eps| && w < |s.pool.slots| && t.pool == s.pool && s.pool.eps[e].closes > 0
    && (rebuild <==> s.pool.eps[e].lastErr.Some? && s.pool.slots[w].fails >= MAX_SERVE_FAILURES)
  }

  /** Only SeeDone brings a worker there. */
  lemma {:induction false} DecidingStep(tr: seq<Sys>, steps: seq<Step>, m: nat, w: nat, e: nat, rebuild: bool)
    requires Run(tr, steps) && m < |steps| && Decided(tr[m + 1], w, e, rebuild)
    ensures !IsRestart(steps[m])
    ensures Decided(tr[m], w, e, rebuild) || Decides(tr[m], steps[m], tr[m + 1], w, e, rebuild)
  {
    assert StepAt(tr, steps, m);
    if steps[m].ByWorker? && steps[m].w == w {
      if !Decided(tr[m], w, e, rebuild) {
        OwnDecision(tr[m], w, steps[m].worker, e, rebuild);
      }
    } else {
      NotByOthers(tr[m], steps[m], w, e, rebuild);
    }
  }

  /** After the done channel is closed the last error is never unset, and in
      unique mode it never changes. */
  ghost predicate KeepsEnd(s: Sys, t: Sys, e: nat) {
    e < |s.pool.eps| && s.pool.eps[e].closes > 0 ==>
      && e < |t.pool.eps| && t.pool.eps[e].closes > 0 && t.pool.unique == s.pool.unique
      && (s.pool.eps[e].lastErr.Some? ==> t.pool.eps[e].lastErr.Some?)
      && (s.pool.unique ==> t.pool.eps[e].lastErr == s.pool.eps[e].lastErr)
  }

  lemma {:induction false} WorkerKeepsEnd(s: Sys, w: nat, step: WorkerStep, e: nat)
    requires s.WF() && WorkerEnabled(s, w, step)
    ensures KeepsEnd(s, ApplyWorker(s, w, step), e)
  {}

  lemma {:induction false} CallKeepsEnd(s: Sys, c: nat, step: CallStep, e: nat)
    requires s.WF() && CallEnabled(s, c, step)
    ensures KeepsEnd(s, ApplyCall(s, c, step), e)
  {
    if step.ScanSlots? && e < |s.pool.eps| {
      ScanHasEffect(s.pool, step.faults);
      var (q, r) := Scan(s.pool, step.faults);
      assert (r.Granted? && r.ep == e) || AtMostSkipped(s.pool, q, e);
    }
  }

  lemma {:induction false} FinishKeepsEnd(s: Sys, l: nat, err: Option<string>, e: nat)
    requires Inv(s) && LeaseEnabled(s, l, Finish(err))
    ensures KeepsEnd(s, DoFinish(s, l, err), e)
  {
    if e < |s.pool.eps| && FirstFinish(s, l) {
      assert EpOk(s, e) && EpOk(s, s.leases[l].ep);
      FirstFinishHeld(s, l);
      FinishEffect(s, l, err);
    }
  }

  lemma {:induction false} StepKeepsEnd(tr: seq<Sys>, steps: seq<Step>, m: nat, e: nat)
    requires Run(tr, steps) && m < |steps| && !IsRestart(steps[m])
    ensures KeepsEnd(tr[m], tr[m + 1], e)
  {
    assert StepAt(tr, steps, m);
    match steps[m] {
      case ByWorker(w, ws) => WorkerKeepsEnd(tr[m], w, ws, e);
      case ByCall(c, cs) => CallKeepsEnd(tr[m], c, cs, e);
      case ByWorld(es) =>
      case ByLease(l, ls) =>
        if ls.Finish? {
          Reachable(tr, steps, m);
          FinishKeepsEnd(tr[m], l, ls.err, e);
        }
    }
  }

  lemma {:induction false} EndChain(tr: seq<Sys>, j: nat, k: nat, e: nat)
    requires j <= k < |tr| && forall m, n :: j <= m < k && n == m + 1 ==> KeepsEnd(tr[m], tr[n], e)
    ensures KeepsEnd(tr[j], tr[k], e)
  {
    if j < k {
      EndChain(tr, j, k - 1, e);
      assert KeepsEnd(tr[k - 1], tr[k], e);
    }
  }

  lemma {:induction false} ErrorStays(tr: seq<Sys>, steps: seq<Step>, j: nat, k: nat, e: nat)
    requires Run(tr, steps) && j <= k < |tr| && SameProcess(steps, j, k)
    ensures KeepsEnd(tr[j], tr[k], e)
  {
    forall m, n | j <= m < k && n == m + 1 ensures KeepsEnd(tr[m], tr[n], e) {
      StepKeepsEnd(tr, steps, m, e);
    }
    EndChain(tr, j, k, e);
  }

  /** A worker that is on its way out after serving decided so in an earlier
      SeeDone of that endpoint, in the same process. */
  lemma {:induction false} DecisionBehind(tr: seq<Sys>, steps: seq<Step>, k: nat, w: nat, e: nat, rebuild: bool)
    returns (j: nat)
    requires Run(tr, steps) && k < |tr| && Decided(tr[k], w, e, rebuild)
    ensures j < k && SameProcess(steps, j, k) && Decides(tr[j], steps[j], tr[j + 1], w, e, rebuild)
    decreases k
  {
    if k == 0 {
      assert false;
    } else {
      DecidingStep(tr, steps, k - 1, w, e, rebuild);
      if Decided(tr[k - 1], w, e, rebuild) {
        j := DecisionBehind(tr, steps, k - 1, w, e, rebuild);
      } else {
        j := k - 1;
      }
    }
  }

  /** What the worker read there, in terms of the history. */
  lemma {:induction false} WhatWasRead(tr: seq<Sys>, steps: seq<Step>, j: nat, w: nat, e: nat, rebuild: bool)
    requires Run(tr, steps) && j < |steps| && Decides(tr[j], steps[j], tr[j + 1], w, e, rebuild)
    ensures rebuild <==> Warrants(tr[j], w, e)
    ensures !tr[j].pool.unique ==> tr[j].pool.eps[e].lastErr.Some?
  {
    Reachable(tr, steps, j);
    assert EpOk(tr[j], e) && SlotOk(tr[j], w);
    StreakMeaning(tr[j].finishes, w);
  }

  lemma {:induction false} TakeBackResult(tr: seq<Sys>, steps: seq<Step>, k: nat, w: nat)
    requires Run(tr, steps) && k < |steps| && steps[k] == ByWorker(w, TakeBack)
    requires w < |tr[k].workers| && tr[k].workers[w].pc.Leaving?
    ensures var pc := tr[k].workers[w].pc;
      && w < |tr[k + 1].workers| && pc.ep < |tr[k].pool.eps|
      && tr[k + 1].workers[w].pc == Closing(pc.ep, ResultOf(pc.departure, tr[k].pool.eps[pc.ep].lastErr))
  {
    assert StepAt(tr, steps, k);
  }

  /** What `cycle` returns after serving: errServeFailures exactly if, when the
      worker saw its endpoint as done, the endpoint's last error was set and the
      instance's last three finishes had all failed; success exactly if no error
      was set then, which can be in unique mode only; and the error otherwise. */
  lemma {:induction false} CycleResultExact(tr: seq<Sys>, steps: seq<Step>, k: nat, w: nat) returns (j: nat)
    requires Run(tr, steps) && k < |steps| && steps[k] == ByWorker(w, TakeBack)
    requires w < |tr[k].workers| && tr[k].workers[w].pc.Leaving? && tr[k].workers[w].pc.departure.AfterServe?
    ensures j < k && steps[j] == ByWorker(w, SeeDone) && SameProcess(steps, j, k)
    ensures var e := tr[k].workers[w].pc.ep;
      && w < |tr[j].workers| && tr[j].workers[w].pc == Serving(e) && e < |tr[j].pool.eps|
      && w < |tr[k + 1].workers| && tr[k + 1].workers[w].pc.Closing? && tr[k + 1].workers[w].pc.ep == e
    ensures var e, result := tr[k].workers[w].pc.ep, tr[k + 1].workers[w].pc.result;
      && (result.ServeFailures? <==> Warrants(tr[j], w, e))
      && (result.ServedWell? <==> tr[j].pool.eps[e].lastErr.None?)
      && (result.ServedWell? ==> tr[j].pool.unique)
      && (result.ServeError? || result.ServeFailures? ==>
            e < |tr[k].pool.eps| && Some(result.err) == tr[k].pool.eps[e].lastErr)
      && (result.ServeFailures? || result.ServedWell? || result.ServeError?)
  {
    var pc := tr[k].workers[w].pc;
    var e := pc.ep;
    j := DecisionBehind(tr, steps, k, w, e, pc.departure.rebuild);
    WhatWasRead(tr, steps, j, w, e, pc.departure.rebuild);
    ErrorStays(tr, steps, j + 1, k, e);
    TakeBackResult(tr, steps, k, w);
  }
}
