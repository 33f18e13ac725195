/** Whole runs of the lease protocol, across process restarts and mode switches,
    and the properties that hold of every one of them. */
module Runs {
  import opened Base
  import opened Store
  import opened PoolState
  import opened ScanLaws
  import opened Protocol
  import opened Counting
  import opened Invariant
  import opened WorkerSteps
  import opened OtherSteps

  ghost predicate Run(tr: seq<Sys>, steps: seq<Step>) {
    && |tr| == |steps| + 1
    && Init(tr[0])
    && forall k :: 0 <= k < |steps| ==> StepAt(tr, steps, k)
  }

  ghost predicate StepAt(tr: seq<Sys>, steps: seq<Step>, k: nat)
    requires k < |steps| && |tr| == |steps| + 1
  {
    IsStep(tr[k], steps[k], tr[k + 1])
  }

  ghost predicate IsStep(s: Sys, step: Step, t: Sys) {
    s.WF() && Enabled(s, step) && t == Apply(s, step)
  }

  lemma StepKeeps(s: Sys, step: Step)
    requires Inv(s) && Enabled(s, step)
    ensures Inv(Apply(s, step))
  {
    match step {
      case ByWorker(w, ws) => WorkerKeeps(s, w, ws);
      case ByWorld(es) => WorldKeeps(s, es);
      case ByCall(c, cs) => CallKeeps(s, c, cs);
      case ByLease(l, ls) => LeaseKeeps(s, l, ls);
    }
  }

  lemma InitKeeps(s: Sys)
    requires Init(s)
    ensures Inv(s)
  {
    var unique: bool, n: nat, rows: Rows :| n > 0 && s == Fresh(unique, n, rows, []);
    FreshInv(unique, n, rows, []);
  }

  /** Every state of every run satisfies the invariant. */
  lemma {:induction false} Reachable(tr: seq<Sys>, steps: seq<Step>, k: nat)
    requires Run(tr, steps) && k < |tr|
    ensures Inv(tr[k])
  {
    if k == 0 {
      InitKeeps(tr[0]);
    } else {
      Reachable(tr, steps, k - 1);
      assert StepAt(tr, steps, k - 1);
      StepKeeps(tr[k - 1], steps[k - 1]);
    }
  }

  lemma WellFormed(tr: seq<Sys>, steps: seq<Step>, k: nat)
    requires Run(tr, steps) && k < |tr|
    ensures tr[k].WF()
  {
    Reachable(tr, steps, k);
  }

  /** No restart among the steps from `j` up to `k`. */
  ghost predicate SameProcess(steps: seq<Step>, j: nat, k: nat) {
    forall m :: j <= m < k && m < |steps| ==> !IsRestart(steps[m])
  }

  predicate IsRestart(step: Step) {
    step.ByWorld? && step.world.Restart?
  }

  // ---- uniqueness ----------------------------------------------------------

  /** What a step may do to the memory that outlives the process. */
  ghost predicate Remembers(s: Sys, t: Sys) {
    s.grants <= t.grants && Grows(s.pool.rows, t.pool.rows)
  }

  lemma WorkerRemembers(s: Sys, w: nat, step: WorkerStep)
    requires s.WF() && WorkerEnabled(s, w, step)
    ensures Remembers(s, ApplyWorker(s, w, step))
  {}

  lemma LeaseRemembers(s: Sys, l: nat, step: LeaseStep)
    requires s.WF() && LeaseEnabled(s, l, step)
    ensures Remembers(s, ApplyLease(s, l, step))
  {}

  lemma CallRemembers(s: Sys, c: nat, step: CallStep)
    requires s.WF() && CallEnabled(s, c, step)
    ensures Remembers(s, ApplyCall(s, c, step))
  {
    if step.ScanSlots? {
      ScanHasEffect(s.pool, step.faults);
      AfterScanRemembers(s, c, Scan(s.pool, step.faults).0, Scan(s.pool, step.faults).1, step.late);
    }
  }

  lemma StepRemembers(s: Sys, step: Step, t: Sys)
    requires IsStep(s, step, t)
    ensures Remembers(s, t)
  {
    match step {
      case ByWorker(w, ws) => WorkerRemembers(s, w, ws);
      case ByWorld(es) =>
      case ByLease(l, ls) => LeaseRemembers(s, l, ls);
      case ByCall(c, cs) => CallRemembers(s, c, cs);
    }
  }

  lemma AfterScanRemembers(s: Sys, c: nat, q: Pool, r: ScanResult, late: bool)
    requires s.WF() && q.WF() && c < |s.calls| && s.calls[c].Scanning?
    requires |q.eps| == |s.pool.eps| && ScanEffect(s.pool, q, r)
    ensures Remembers(s, AfterScan(s, c, q, r, late))
  {}

  lemma {:induction false} RemembersChain(tr: seq<Sys>, j: nat, k: nat)
    requires j <= k < |tr|
    requires forall m :: j <= m < k ==> Remembers(tr[m], tr[m + 1])
    ensures Remembers(tr[j], tr[k])
  {
    if j < k {
      RemembersChain(tr, j, k - 1);
      assert Remembers(tr[k - 1], tr[k - 1 + 1]);
    }
  }

  /** The history of grants only grows and no used flag ever falls, whatever
      happens and however often the process is restarted. */
  lemma NothingForgotten(tr: seq<Sys>, steps: seq<Step>, j: nat, k: nat)
    requires Run(tr, steps) && j <= k < |tr|
    ensures Remembers(tr[j], tr[k])
  {
    forall m | j <= m < k ensures Remembers(tr[m], tr[m + 1]) {
      assert StepAt(tr, steps, m);
      StepRemembers(tr[m], steps[m], tr[m + 1]);
    }
    RemembersChain(tr, j, k);
  }

  /** Uniqueness over whole runs: an address leased in unique mode was never
      leased before, in either mode, in this process or an earlier one. */
  lemma NeverReassigned(tr: seq<Sys>, steps: seq<Step>, k: nat, g: nat, h: nat)
    requires Run(tr, steps) && k < |tr|
    requires g < h < |tr[k].grants| && tr[k].grants[h].unique
    ensures tr[k].grants[g].ip != tr[k].grants[h].ip
  {
    Reachable(tr, steps, k);
  }

  /** The lease that step `k` grants, if it grants one. */
  ghost predicate GrantsLease(s: Sys, step: Step, i: nat, e: nat)
    requires s.WF() && Enabled(s, step)
  {
    step.ByCall? && step.call.ScanSlots? && Scan(s.pool, step.call.faults).1 == Granted(i, e)
  }

  /** A unique-mode grant is always backed by a flag that this very step raised
      from 0 to 1, and it is the only way the history grows. */
  lemma GrantCommits(tr: seq<Sys>, steps: seq<Step>, k: nat)
    requires Run(tr, steps) && k < |steps|
    requires tr[k].WF() && Enabled(tr[k], steps[k])
    ensures tr[k + 1].grants == tr[k].grants
            || exists i: nat, e: nat :: GrantsLease(tr[k], steps[k], i, e) && e < |tr[k].pool.eps|
                 && tr[k + 1].grants == tr[k].grants + [GrantRecord(tr[k].pool.eps[e].ip, tr[k].pool.unique)]
                 && (tr[k].pool.unique ==> !Used(tr[k].pool.rows, tr[k].pool.eps[e].ip))
                 && Used(tr[k + 1].pool.rows, tr[k].pool.eps[e].ip)
  {
    var s, step := tr[k], steps[k];
    assert StepAt(tr, steps, k);
    if step.ByCall? && step.call.ScanSlots? {
      ScanHasEffect(s.pool, step.call.faults);
      var r := Scan(s.pool, step.call.faults).1;
      if r.Granted? {
        assert GrantsLease(s, step, r.slot, r.ep);
      }
    }
  }

  /** While a lease runs, no endpoint with its address can become Ready. */
  lemma RunningAddressStaysOut(tr: seq<Sys>, steps: seq<Step>, k: nat, l: nat, e: nat, fault: Fault)
    requires Run(tr, steps) && k < |tr| && tr[k].pool.unique
    requires l < |tr[k].leases| && e < |tr[k].pool.eps|
    requires tr[k].WF() && tr[k].pool.eps[e].ip == tr[k].pool.eps[tr[k].leases[l].ep].ip
    ensures Publish(tr[k].pool, e, fault).1 != Published
  {
    Reachable(tr, steps, k);
  }

  // ---- reservations --------------------------------------------------------

  /** In unique mode `reserved[ip]` is `e` exactly when `e` has that address and
      sits in its own slot. */
  lemma ReservationBijection(tr: seq<Sys>, steps: seq<Step>, k: nat, ip: IP, e: nat)
    requires Run(tr, steps) && k < |tr| && tr[k].pool.unique
    ensures var p := tr[k].pool;
      ip in p.reserved && p.reserved[ip] == e <==>
        e < |p.eps| && p.eps[e].ip == ip && p.eps[e].slot < |p.slots| && p.slots[p.eps[e].slot].ep == Some(e)
  {
    Reachable(tr, steps, k);
    var s := tr[k];
    if ip in s.pool.reserved && s.pool.reserved[ip] == e {
      assert ReservationHeld(s, ip);
    }
    if e < |s.pool.eps| && s.pool.slots[s.pool.eps[e].slot].ep == Some(e) {
      assert SlotOk(s, s.pool.eps[e].slot);
    }
  }

  /** Occupied slots hold pairwise distinct addresses. */
  lemma DistinctAddresses(tr: seq<Sys>, steps: seq<Step>, k: nat, i: nat, j: nat)
    requires Run(tr, steps) && k < |tr| && tr[k].pool.unique && tr[k].WF()
    requires i < j < |tr[k].pool.slots| && tr[k].pool.slots[i].ep.Some? && tr[k].pool.slots[j].ep.Some?
    ensures var p := tr[k].pool; p.eps[p.slots[i].ep.value].ip != p.eps[p.slots[j].ep.value].ip
  {
    Reachable(tr, steps, k);
    assert SlotOk(tr[k], i) && SlotOk(tr[k], j);
  }

  /** The address of the endpoint in a slot. */
  function AddressIn(p: Pool, i: nat): IP
    requires p.WF() && i < |p.slots| && p.slots[i].ep.Some?
  {
    p.eps[p.slots[i].ep.value].ip
  }

  /** Against a working store an acquire succeeds exactly when some live slot's
      address may still be assigned.  So it succeeds whenever the pool reports
      ready, unless the address in every live slot was consumed by a commit that
      an error hid, which can be in unique mode only. */
  lemma AcquireSucceedsIffReady(tr: seq<Sys>, steps: seq<Step>, k: nat, faults: seq<Fault>)
    requires Run(tr, steps) && k < |tr| && tr[k].WF()
    requires |faults| == |tr[k].pool.slots| && NoFaults(faults)
    ensures var p := tr[k].pool;
      Scan(p, faults).1.Granted? <==>
        exists i :: 0 <= i < |p.slots| && p.Live(i) && (p.unique ==> !Used(p.rows, AddressIn(p, i)))
    ensures var p := tr[k].pool;
      !Scan(p, faults).1.Granted? ==>
        forall i :: 0 <= i < |p.slots| && p.Live(i) ==> p.unique && AddressIn(p, i) in tr[k].tainted
  {
    Reachable(tr, steps, k);
    CleanScan(tr[k].pool, faults);
    forall i | 0 <= i < |tr[k].pool.slots|
      ensures tr[k].pool.Eligible(i) <==>
        tr[k].pool.Live(i) && (tr[k].pool.unique ==> !Used(tr[k].pool.rows, AddressIn(tr[k].pool, i)))
      ensures tr[k].pool.Live(i) && !tr[k].pool.Eligible(i) ==>
        tr[k].pool.unique && AddressIn(tr[k].pool, i) in tr[k].tainted
    {
      assert SlotOk(tr[k], i);
    }
  }

  /** An address becomes tainted only by a Consume that committed and reported
      an error. */
  predicate HidesCommit(step: Step) {
    step.ByCall? && step.call.ScanSlots? && FailedAfter in step.call.faults
  }

  lemma {:induction false} NoTaintWithoutAmbiguity(tr: seq<Sys>, steps: seq<Step>, k: nat)
    requires Run(tr, steps) && k < |tr|
    requires forall m :: 0 <= m < k ==> !HidesCommit(steps[m])
    ensures tr[k].tainted == {}
  {
    if k > 0 {
      NoTaintWithoutAmbiguity(tr, steps, k - 1);
      var s, step := tr[k - 1], steps[k - 1];
      assert StepAt(tr, steps, k - 1);
      if step.ByCall? && step.call.ScanSlots? {
        WalkFindsFirst(s.pool, step.call.faults);
        var stop := Walk(s.pool, 0, step.call.faults).1;
        if stop.Faulted? {
          assert stop.fault == step.call.faults[Offset(s.pool, stop.at)];
        }
      }
    }
  }

  // ---- no lost wakeup ------------------------------------------------------

  /** A call that waits while some slot is live can always be woken at once:
      the channel it captured has been closed. */
  lemma NoLostWakeup(tr: seq<Sys>, steps: seq<Step>, k: nat, c: nat, i: nat)
    requires Run(tr, steps) && k < |tr| && tr[k].WF()
    requires c < |tr[k].calls| && tr[k].calls[c].Waiting?
    requires i < |tr[k].pool.slots| && tr[k].pool.Live(i)
    ensures CallEnabled(tr[k], c, Wake)
  {
    Reachable(tr, steps, k);
    assert CallOk(tr[k], c, i);
  }

  /** A successful publish wakes every call that was waiting. */
  lemma PublishWakesAll(tr: seq<Sys>, steps: seq<Step>, k: nat, w: nat, fault: Fault, c: nat)
    requires Run(tr, steps) && k < |steps| && steps[k] == ByWorker(w, TryPublish(fault))
    requires w < |tr[k + 1].workers| && tr[k + 1].workers[w].pc.Serving?
    requires c < |tr[k].calls| && tr[k].calls[c].Waiting?
    ensures tr[k + 1].WF() && CallEnabled(tr[k + 1], c, Wake)
  {
    Reachable(tr, steps, k);
    Reachable(tr, steps, k + 1);
    assert StepAt(tr, steps, k);
    assert SlotOk(tr[k], w) && CallOk(tr[k], c, w);
  }

  /** Call `c` scans at step `j` and no slot is live when it is done. */
  ghost predicate EmptyScan(tr: seq<Sys>, steps: seq<Step>, j: nat, c: nat) {
    && j < |steps| && |tr| == |steps| + 1 && tr[j + 1].WF()
    && steps[j].ByCall? && steps[j].c == c && steps[j].call.ScanSlots?
    && NoneLive(tr[j + 1].pool)
  }

  /** Call `c` has decided to report, or has reported, that nothing is ready. */
  predicate Rejected(s: Sys, c: nat) {
    c < |s.calls| && (s.calls[c].Rejecting? || s.calls[c].GotNoReady?)
  }

  /** The step that brings call `c` there is an empty scan of its own. */
  lemma RejectingStep(tr: seq<Sys>, steps: seq<Step>, k: nat, c: nat)
    requires k < |steps| && |tr| == |steps| + 1 && IsStep(tr[k], steps[k], tr[k + 1]) && tr[k + 1].WF()
    requires Rejected(tr[k + 1], c)
    ensures EmptyScan(tr, steps, k, c) || Rejected(tr[k], c)
  {
    var s, step := tr[k], steps[k];
    if step.ByCall? && step.call.ScanSlots? && step.c == c {
      if Scan(s.pool, step.call.faults).1.NoReady? {
        NoReadyLeavesNoneLive(s.pool, step.call.faults);
      }
    } else {
      CallsUnchanged(s, step, c);
    }
  }

  /** ErrNoReady is only ever returned after such a scan by the same call. */
  lemma NoReadyIsHonest(tr: seq<Sys>, steps: seq<Step>, k: nat, c: nat) returns (j: nat)
    requires Run(tr, steps) && k < |tr| && Rejected(tr[k], c)
    ensures j < k && EmptyScan(tr, steps, j, c)
    ensures forall m :: j < m <= k ==> Rejected(tr[m], c)
  {
    var flag := seq(|tr|, m requires 0 <= m < |tr| => Rejected(tr[m], c));
    j := LastRise(flag, k);
    forall m | j < m <= k ensures Rejected(tr[m], c) { assert flag[m]; }
    Reachable(tr, steps, j + 1);
    assert StepAt(tr, steps, j);
    RejectingStep(tr, steps, j, c);
  }

  /** A step that does not scan for call `c` brings it no closer to ErrNoReady. */
  lemma CallsUnchanged(s: Sys, step: Step, c: nat)
    requires s.WF() && Enabled(s, step)
    requires !(step.ByCall? && step.call.ScanSlots? && step.c == c)
    requires Rejected(Apply(s, step), c)
    ensures Rejected(s, c)
  {
    match step {
      case ByWorker(w, ws) =>
      case ByWorld(es) =>
      case ByLease(l, ls) =>
      case ByCall(d, cs) =>
    }
  }
}
