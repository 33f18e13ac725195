/** How a worker's cycle ends over a whole run (internal/app/tor.go): which step
    decided its result, and when the worker has to wait. */
module Cycles {
  import opened Base
  import opened Store
  import opened PoolState
  import opened PoolLaws
  import opened ScanLaws
  import opened Protocol
  import opened Counting
  import opened Invariant
  import opened OtherSteps
  import opened Runs

  predicate Is(s: Sys, w: nat, pc: Pc) {
    w < |s.workers| && s.workers[w].pc == pc
  }

  /** Worker `w` came to `pc` in step `j`, a step of its own, and has stayed there
      from then up to state `k`, in the same process. */
  ghost predicate CameBy(tr: seq<Sys>, steps: seq<Step>, j: nat, k: nat, w: nat, pc: Pc) {
    && j < k < |tr| && |tr| == |steps| + 1 && SameProcess(steps, j, k)
    && steps[j].ByWorker? && steps[j].w == w
    && w < |tr[j].workers| && tr[j].workers[w].pc != pc
    && forall m :: j < m <= k ==> Is(tr[m], w, pc)
  }

  lemma {:induction false} OthersLeaveWorker(s: Sys, step: Step, w: nat, pc: Pc)
    requires s.WF() && Enabled(s, step) && !(step.ByWorker? && step.w == w) && !pc.Idle? && Is(Apply(s, step), w, pc)
    ensures Is(s, w, pc) && !IsRestart(step)
  {
    match step {
      case ByWorker(x, ws) =>
      case ByWorld(es) =>
      case ByCall(c, cs) =>
      case ByLease(l, ls) =>
    }
  }

  lemma {:induction false} CameNow(tr: seq<Sys>, steps: seq<Step>, j: nat, w: nat, pc: Pc)
    requires j < |steps| && |tr| == |steps| + 1 && steps[j].ByWorker? && steps[j].w == w
    requires w < |tr[j].workers| && tr[j].workers[w].pc != pc && Is(tr[j + 1], w, pc)
    ensures CameBy(tr, steps, j, j + 1, w, pc)
  {}

  lemma {:induction false} CameEarlier(tr: seq<Sys>, steps: seq<Step>, j: nat, k: nat, w: nat, pc: Pc)
    requires CameBy(tr, steps, j, k, w, pc) && k < |steps| && !IsRestart(steps[k]) && Is(tr[k + 1], w, pc)
    ensures CameBy(tr, steps, j, k + 1, w, pc)
  {}

  lemma {:induction false} ArrivedAt(tr: seq<Sys>, steps: seq<Step>, k: nat, w: nat, pc: Pc) returns (j: nat)
    requires Run(tr, steps) && k < |tr| && Is(tr[k], w, pc) && !pc.Idle?
    ensures CameBy(tr, steps, j, k, w, pc)
    decreases k
  {
    if k == 0 {
      assert false;
    } else {
      var m := k - 1;
      assert StepAt(tr, steps, m);
      if !Is(tr[m], w, pc) {
        OwnArrival(tr[m], steps[m], w, pc);
        CameNow(tr, steps, m, w, pc);
        j := m;
      } else {
        SameHere(tr[m], steps[m], w, pc);
        j := ArrivedAt(tr, steps, m, w, pc);
        CameEarlier(tr, steps, j, m, w, pc);
      }
    }
  }

  lemma {:induction false} OwnArrival(s: Sys, step: Step, w: nat, pc: Pc)
    requires s.WF() && Enabled(s, step) && !pc.Idle? && Is(Apply(s, step), w, pc) && !Is(s, w, pc)
    ensures step.ByWorker? && step.w == w && w < |s.workers|
  {
    if !(step.ByWorker? && step.w == w) {
      OthersLeaveWorker(s, step, w, pc);
    }
  }

  lemma {:induction false} SameHere(s: Sys, step: Step, w: nat, pc: Pc)
    requires s.WF() && Enabled(s, step) && !pc.Idle? && Is(Apply(s, step), w, pc)
    ensures !IsRestart(step)
  {
    if !(step.ByWorker? && step.w == w) {
      OthersLeaveWorker(s, step, w, pc);
    }
  }

  // ---- the result ----------------------------------------------------------

  /** Of a publish: the address is used, the store failed, or it was not ready. */
  predicate PublishSays(s: Sys, e: nat, fault: Fault, result: CycleResult)
    requires e < |s.pool.eps|
  {
    var p, ip := s.pool, s.pool.eps[e].ip;
    var used := p.unique && Spent(p.rows, ip);
    && (result == StoreError <==> fault != Clean)
    && (result == UsedAddress <==> fault == Clean && used)
    && (result == NotPublished <==> fault == Clean && !used && (p.eps[e].cancelled || (p.unique && ip in p.reserved)))
  }

  /** How a worker can come to close its circuit. */
  lemma {:induction false} ClosingBy(s: Sys, w: nat, step: WorkerStep, e: nat, result: CycleResult)
    requires s.WF() && WorkerEnabled(s, w, step) && s.workers[w].pc != Closing(e, result)
    requires Is(ApplyWorker(s, w, step), w, Closing(e, result))
    ensures e < |s.pool.eps|
    ensures || (step.TryPublish? && s.workers[w].pc == Built(e) && PublishSays(s, e, step.fault, result)
                && result in {StoreError, UsedAddress, NotPublished})
            || (step.TakeBack? && s.workers[w].pc.Leaving? && s.workers[w].pc.ep == e
                && result !in {StoreError, UsedAddress, NotPublished}
                && (result == CircuitClosed <==> s.workers[w].pc.departure == OnCircuit)
                && (result == ControlClosed <==> s.workers[w].pc.departure == OnControl))
  {
    if step.TryPublish? {
      PublishAnswers(s.pool, s.workers[w].pc.ep, step.fault);
    }
  }

  /** How a worker can come to leave its endpoint. */
  lemma {:induction false} LeavingBy(s: Sys, w: nat, step: WorkerStep, e: nat, departure: Departure)
    requires s.WF() && WorkerEnabled(s, w, step) && s.workers[w].pc != Leaving(e, departure)
    requires Is(ApplyWorker(s, w, step), w, Leaving(e, departure))
    ensures e < |s.pool.eps|
    ensures departure == OnCircuit <==> step.SeeCircuit?
    ensures departure == OnControl <==> step.SeeControl?
    ensures step.SeeCircuit? ==> s.workers[w].pc == Serving(e) && s.pool.eps[e].cancelled
    ensures step.SeeControl? ==> s.workers[w].pc == Serving(e) && s.workers[w].ctrlDone
  {}

  /** The step that decided the result of a cycle.  A publish that did not succeed
      says why: the address is used, in unique mode only; the store failed; or the
      address was reserved or the circuit gone.  A worker that left because its
      circuit or its session ended saw that while serving. */
  ghost predicate Decisive(s: Sys, step: WorkerStep, w: nat, e: nat, result: CycleResult) {
    && w < |s.workers| && e < |s.pool.eps|
    && (step.TryPublish? || step.SeeCircuit? || step.SeeControl? || step.SeeDone?)
    && s.workers[w].pc == (if step.TryPublish? then Built(e) else Serving(e))
    && (step.TryPublish? ==> PublishSays(s, e, step.fault, result))
    && (result in {StoreError, UsedAddress, NotPublished} <==> step.TryPublish?)
    && (result == CircuitClosed <==> step.SeeCircuit?) && (step.SeeCircuit? ==> s.pool.eps[e].cancelled)
    && (result == ControlClosed <==> step.SeeControl?) && (step.SeeControl? ==> s.workers[w].ctrlDone)
    && (step.SeeDone? <==> result.ServedWell? || result.ServeError? || result.ServeFailures?)
  }

  /** Every result of a cycle has such a step behind it, in the same process. */
  lemma {:induction false} ResultBehind(tr: seq<Sys>, steps: seq<Step>, k: nat, w: nat) returns (j: nat)
    requires Run(tr, steps) && k < |tr| && w < |tr[k].workers| && tr[k].workers[w].pc.Closing?
    ensures j < k && SameProcess(steps, j, k) && steps[j].ByWorker? && steps[j].w == w
    ensures Decisive(tr[j], steps[j].worker, w, tr[k].workers[w].pc.ep, tr[k].workers[w].pc.result)
  {
    var pc := tr[k].workers[w].pc;
    j := ArrivedAt(tr, steps, k, w, pc);
    assert StepAt(tr, steps, j);
    ClosingBy(tr[j], w, steps[j].worker, pc.ep, pc.result);
    if steps[j].worker.TakeBack? {
      var out := tr[j].workers[w].pc;
      TakenBack(tr[j], w, pc.result);
      j := LeftBy(tr, steps, j, w, out);
    }
  }

  lemma {:induction false} TakenBack(s: Sys, w: nat, result: CycleResult)
    requires s.WF() && WorkerEnabled(s, w, TakeBack)
    requires ApplyWorker(s, w, TakeBack).workers[w].pc == Closing(s.workers[w].pc.ep, result)
    ensures s.workers[w].pc.departure.AfterServe? <==>
      result.ServedWell? || result.ServeError? || result.ServeFailures?
  {}

  /** The step at which the worker stopped serving. */
  lemma {:induction false} LeftBy(tr: seq<Sys>, steps: seq<Step>, k: nat, w: nat, out: Pc) returns (j: nat)
    requires Run(tr, steps) && k < |tr| && Is(tr[k], w, out) && out.Leaving?
    ensures j < k && SameProcess(steps, j, k) && steps[j].ByWorker? && steps[j].w == w
    ensures var s, step, d := tr[j], steps[j].worker, out.departure;
      && w < |s.workers| && out.ep < |s.pool.eps| && s.workers[w].pc == Serving(out.ep)
      && (d == OnCircuit <==> step.SeeCircuit?) && (step.SeeCircuit? ==> s.pool.eps[out.ep].cancelled)
      && (d == OnControl <==> step.SeeControl?) && (step.SeeControl? ==> s.workers[w].ctrlDone)
      && (d.AfterServe? <==> step.SeeDone?)
  {
    j := ArrivedAt(tr, steps, k, w, out);
    assert StepAt(tr, steps, j);
    LeavingBy(tr[j], w, steps[j].worker, out.ep, out.departure);
    if out.departure.AfterServe? && !steps[j].worker.SeeDone? {
      var drain := tr[j].workers[w].pc;
      DrainingBefore(tr[j], w, steps[j].worker, out);
      j := ArrivedAt(tr, steps, j, w, drain);
      assert StepAt(tr, steps, j);
      DrainingBy(tr[j], w, steps[j].worker, drain);
    }
  }

  lemma {:induction false} DrainingBefore(s: Sys, w: nat, step: WorkerStep, out: Pc)
    requires s.WF() && WorkerEnabled(s, w, step) && out.Leaving? && out.departure.AfterServe? && s.workers[w].pc != out
    requires Is(ApplyWorker(s, w, step), w, out) && !step.SeeDone?
    ensures s.workers[w].pc.Draining? && s.workers[w].pc.ep == out.ep
  {}

  lemma {:induction false} DrainingBy(s: Sys, w: nat, step: WorkerStep, pc: Pc)
    requires s.WF() && WorkerEnabled(s, w, step) && pc.Draining? && s.workers[w].pc != pc
    requires Is(ApplyWorker(s, w, step), w, pc)
    ensures step.SeeDone? && s.workers[w].pc == Serving(pc.ep) && pc.ep < |s.pool.eps|
  {}

  // ---- waiting -------------------------------------------------------------

  /** The only two places at which a worker that has an endpoint waits: it serves,
      its circuit and session are alive and its done channel is open; or it drains,
      with all of these alive and leases outstanding. */
  ghost predicate MustWait(s: Sys, w: nat)
    requires s.WF() && w < |s.workers|
  {
    var Worker(pc, ctrlDone) := s.workers[w];
    && (pc.Serving? || pc.Draining?) && !ctrlDone && !s.pool.eps[pc.ep].cancelled
    && (if pc.Draining? then !s.appDone && HeldOn(s.leases, pc.ep) > 0
        else if s.pool.unique then On(s.leases, pc.ep, Done) == 0
        else !s.pool.eps[pc.ep].once)
  }

  /** In every state of every run a worker with an endpoint can go on unless it has
      to wait so.  In unique mode it goes on serving exactly as long as no lease of
      its endpoint is finished and signalled; in reuse mode it drains exactly as long
      as one is outstanding. */
  lemma {:induction false} WorkerWaitsIff(tr: seq<Sys>, steps: seq<Step>, k: nat, w: nat)
    requires Run(tr, steps) && k < |tr| && tr[k].WF() && w < |tr[k].workers| && !tr[k].workers[w].pc.Idle?
    ensures (forall step :: !WorkerEnabled(tr[k], w, step)) <==> MustWait(tr[k], w)
  {
    var s, pc := tr[k], tr[k].workers[w].pc;
    Reachable(tr, steps, k);
    assert SlotOk(s, w) && EpOk(s, pc.ep);
    assert pc.Built? ==> WorkerEnabled(s, w, TryPublish(Clean));
    assert pc.Leaving? ==> WorkerEnabled(s, w, TakeBack);
    assert pc.Closing? ==> WorkerEnabled(s, w, CloseCircuit);
    if pc.Serving? && !MustWait(s, w) {
      assert WorkerEnabled(s, w, SeeDone) || WorkerEnabled(s, w, SeeCircuit) || WorkerEnabled(s, w, SeeControl);
    } else if pc.Draining? && !MustWait(s, w) {
      assert WorkerEnabled(s, w, DrainEmpty) || WorkerEnabled(s, w, DrainAbort);
    }
  }

  lemma {:induction false} SignalCloses(s: Sys, l: nat)
    requires Inv(s) && l < |s.leases| && s.leases[l].phase == Finishing
    ensures var e, t := s.leases[l].ep, DoSignal(s, l);
      t.leases[l] == Lease(e, Done) && e < |t.pool.eps| && t.pool.eps[e].closes == 1
  {
    assert EpOk(s, s.leases[l].ep);
    Counted(s.leases, l);
  }

  /** A finish that has still to close its endpoint's done channel can do so, and then
      a worker that serves the endpoint can see it. */
  lemma {:induction false} SignalWakes(tr: seq<Sys>, steps: seq<Step>, k: nat, l: nat)
    requires Run(tr, steps) && k < |tr| && tr[k].WF() && l < |tr[k].leases|
    ensures LeaseEnabled(tr[k], l, SignalDone) <==> tr[k].leases[l].phase == Finishing
    ensures tr[k].leases[l].phase == Finishing ==>
      var e, t := tr[k].leases[l].ep, DoSignal(tr[k], l);
      && t.leases[l] == Lease(e, Done) && e < |t.pool.eps| && t.pool.eps[e].closes == 1 && t.WF()
      && forall w :: Is(t, w, Serving(e)) ==> WorkerEnabled(t, w, SeeDone)
  {
    Reachable(tr, steps, k);
    if tr[k].leases[l].phase == Finishing {
      SignalCloses(tr[k], l);
      StepKeeps(tr[k], ByLease(l, SignalDone));
    }
  }
}
