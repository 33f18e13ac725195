/** When "one request per instance" is kept in unique mode: exactly if no circuit
    has ended under an outstanding lease. */
module SecondLease {
  import opened Base
  import opened Store
  import opened PoolState
  import opened ScanLaws
  import opened Protocol
  import opened Counting
  import opened Invariant
  import opened Runs
  import opened LeaseRecords

  /** Lease `l` is outstanding although its circuit has ended. */
  ghost predicate Orphaned(s: Sys, l: nat) {
    l < |s.leases| && s.leases[l].phase.Held? && s.leases[l].ep in s.ended
  }

  ghost predicate NoneOrphaned(s: Sys) {
    forall l :: 0 <= l < |s.leases| ==> !Orphaned(s, l)
  }

  /** No two outstanding leases of one instance. */
  ghost predicate OnePer(s: Sys)
    requires s.WF()
  {
    forall l, m :: 0 <= l < m < |s.leases| && s.leases[l].phase.Held? && s.leases[m].phase.Held? ==>
      s.pool.eps[s.leases[l].ep].slot != s.pool.eps[s.leases[m].ep].slot
  }

  /** No restart, no circuit that ends under a lease, and none that is leased after
      it has ended. */
  ghost predicate Gentle(s: Sys, step: Step, t: Sys) {
    !IsRestart(step) && forall l :: 0 <= l < |t.leases| && Orphaned(t, l) ==> Orphaned(s, l)
  }

  ghost predicate GentleStep(s: Sys, step: Step, t: Sys) {
    IsStep(s, step, t) && Gentle(s, step, t)
  }

  /** Steps of this kind lead from `s` to `t`. */
  ghost predicate Leads(s: Sys, steps: seq<Step>, t: Sys)
    decreases |steps|
  {
    if steps == [] then t == s
    else exists u :: GentleStep(s, steps[0], u) && Leads(u, steps[1..], t)
  }

  /** Some of them bring an instance two outstanding leases. */
  ghost predicate CanDouble(s: Sys) {
    exists steps: seq<Step>, t: Sys :: Leads(s, steps, t) && t.WF() && !OnePer(t)
  }

  // ---- the states that matter ----------------------------------------------

  ghost predicate EndedKnown(s: Sys) {
    forall e :: e in s.ended ==> e < |s.pool.eps|
  }

  ghost predicate Sound(s: Sys) {
    Inv(s) && Records(s) && EndedKnown(s)
  }

  lemma {:induction false} EndedByWorker(s: Sys, w: nat, step: WorkerStep)
    requires s.WF() && WorkerEnabled(s, w, step) && EndedKnown(s)
    ensures EndedKnown(ApplyWorker(s, w, step))
  {
    var t := ApplyWorker(s, w, step);
    assert |s.pool.eps| <= |t.pool.eps|;
    assert t.ended <= s.ended + if step.Build? then {|s.pool.eps|} else {};
  }

  lemma {:induction false} EndedByCall(s: Sys, c: nat, step: CallStep)
    requires s.WF() && CallEnabled(s, c, step) && EndedKnown(s)
    ensures EndedKnown(ApplyCall(s, c, step))
  {
    var t := ApplyCall(s, c, step);
    assert |t.pool.eps| == |s.pool.eps| && t.ended == s.ended;
  }

  lemma {:induction false} EndedByLease(s: Sys, l: nat, step: LeaseStep)
    requires s.WF() && LeaseEnabled(s, l, step) && EndedKnown(s)
    ensures EndedKnown(ApplyLease(s, l, step))
  {
    var t := ApplyLease(s, l, step);
    assert |t.pool.eps| == |s.pool.eps| && t.ended == s.ended;
  }

  lemma {:induction false} EndedStep(s: Sys, step: Step)
    requires s.WF() && Enabled(s, step) && EndedKnown(s)
    ensures EndedKnown(Apply(s, step))
  {
    match step {
      case ByWorker(w, ws) => EndedByWorker(s, w, ws);
      case ByWorld(es) =>
      case ByCall(c, cs) => EndedByCall(s, c, cs);
      case ByLease(l, ls) => EndedByLease(s, l, ls);
    }
  }

  lemma {:induction false} SoundStep(s: Sys, step: Step)
    requires Sound(s) && Enabled(s, step)
    ensures Sound(Apply(s, step))
  {
    StepKeeps(s, step);
    StepKeepsRecords(s, step, Apply(s, step));
    EndedStep(s, step);
  }

  lemma {:induction false} EndedRun(tr: seq<Sys>, steps: seq<Step>, k: nat)
    requires Run(tr, steps) && k < |tr|
    ensures EndedKnown(tr[k])
  {
    if k > 0 {
      EndedRun(tr, steps, k - 1);
      assert StepAt(tr, steps, k - 1);
      EndedStep(tr[k - 1], steps[k - 1]);
    }
  }

  lemma {:induction false} SoundRun(tr: seq<Sys>, steps: seq<Step>, k: nat)
    requires Run(tr, steps) && k < |tr|
    ensures Sound(tr[k])
  {
    Reachable(tr, steps, k);
    Recorded(tr, steps, k);
    EndedRun(tr, steps, k);
  }

  // ---- nothing orphaned: one lease per instance, for ever --------------------

  lemma {:induction false} AliveOne(s: Sys)
    requires Sound(s) && s.pool.unique && NoneOrphaned(s)
    ensures OnePer(s)
  {
    forall l, m | 0 <= l < m < |s.leases| && s.leases[l].phase.Held? && s.leases[m].phase.Held?
      ensures s.pool.eps[s.leases[l].ep].slot != s.pool.eps[s.leases[m].ep].slot
    {
      assert !Orphaned(s, l) && !Orphaned(s, m);
      LeasesApart(s, l, m);
      HeldPins(s, l);
      HeldPins(s, m);
    }
  }

  lemma {:induction false} ModeStays(s: Sys, step: Step)
    requires Sound(s) && Enabled(s, step) && !IsRestart(step)
    ensures Apply(s, step).pool.unique == s.pool.unique
  {
    if step.ByCall? && step.call.ScanSlots? {
      ScanHasEffect(s.pool, step.call.faults);
    } else {
      SoundStep(s, step);
      GrantsNothing(s, step);
    }
  }

  lemma {:induction false} AliveStep(s: Sys, step: Step, t: Sys)
    requires Sound(s) && s.pool.unique && NoneOrphaned(s) && GentleStep(s, step, t)
    ensures Sound(t) && t.pool.unique && NoneOrphaned(t)
  {
    SoundStep(s, step);
    ModeStays(s, step);
  }

  lemma {:induction false} AliveStays(s: Sys, steps: seq<Step>, t: Sys)
    requires Sound(s) && s.pool.unique && NoneOrphaned(s) && Leads(s, steps, t)
    ensures Sound(t) && t.pool.unique && NoneOrphaned(t)
    decreases |steps|
  {
    if steps != [] {
      var u :| GentleStep(s, steps[0], u) && Leads(u, steps[1..], t);
      AliveStep(s, steps[0], u);
      AliveStays(u, steps[1..], t);
    }
  }

  // ---- one orphaned: a second lease can follow ------------------------------

  lemma {:induction false} DoubledNow(s: Sys)
    requires s.WF() && !OnePer(s)
    ensures CanDouble(s)
  {
    assert Leads(s, [], s);
  }

  lemma {:induction false} DoubledLater(s: Sys, step: Step, t: Sys)
    requires GentleStep(s, step, t) && CanDouble(t)
    ensures CanDouble(s)
  {
    var steps: seq<Step>, u: Sys :| Leads(t, steps, u) && u.WF() && !OnePer(u);
    assert ([step] + steps)[1..] == steps;
    assert Leads(s, [step] + steps, u);
  }

  /** Lease `l` of instance `w` is orphaned in unique mode. */
  ghost predicate Bad(s: Sys, l: nat, w: nat) {
    && Sound(s) && s.pool.unique && !s.appDone
    && Orphaned(s, l) && s.pool.eps[s.leases[l].ep].slot == w
  }

  /** The steps used below: they grant nothing, finish nothing and end no circuit
      under a lease. */
  predicate Quiet(s: Sys, step: Step) {
    match step
    case ByWorker(_, _) => true
    case ByWorld(NewSession(_)) => true
    case ByWorld(CircuitEnds(e)) => e in s.ended || HeldOn(s.leases, e) == 0
    case ByCall(_, Begin) => true
    case _ => false
  }

  lemma {:induction false} QuietEffect(s: Sys, step: Step)
    requires s.WF() && Enabled(s, step) && Quiet(s, step) && !s.appDone
    ensures var t := Apply(s, step);
      && t.leases == s.leases && !t.appDone && s.ended <= t.ended
      && forall e :: e in t.ended ==> e in s.ended || HeldOn(s.leases, e) == 0
  {}

  lemma {:induction false} QuietGentle(s: Sys, step: Step)
    requires s.WF() && Enabled(s, step) && Quiet(s, step) && !s.appDone
    ensures Gentle(s, step, Apply(s, step))
  {
    var t := Apply(s, step);
    QuietEffect(s, step);
    forall m | 0 <= m < |t.leases| && Orphaned(t, m) ensures Orphaned(s, m) {
      Counted(s.leases, m);
    }
  }

  lemma {:induction false} QuietStep(s: Sys, step: Step, l: nat, w: nat) returns (t: Sys)
    requires Bad(s, l, w) && Enabled(s, step) && Quiet(s, step)
    ensures t == Apply(s, step) && GentleStep(s, step, t) && Bad(t, l, w)
  {
    t := Apply(s, step);
    SoundStep(s, step);
    GrantsNothing(s, step);
    QuietEffect(s, step);
    QuietGentle(s, step);
  }

  // ---- the last steps, from behind ------------------------------------------

  /** No slot is live but possibly slot `w`. */
  ghost predicate QuietElsewhere(s: Sys, w: nat)
    requires s.WF()
  {
    forall i :: 0 <= i < |s.pool.slots| && i != w ==> !s.pool.Live(i)
  }

  /** The worker of instance `w` serves endpoint `e`, which only waits for a lease. */
  ghost predicate Offered(s: Sys, w: nat, e: nat)
    requires s.WF()
  {
    && w < |s.pool.slots| && s.pool.slots[w].ep == Some(e) && s.pool.Live(w) && s.pool.Eligible(w)
    && e !in s.ended && QuietElsewhere(s, w)
  }

  lemma {:induction false} OfferTaken(p: Pool, w: nat, e: nat, faults: seq<Fault>)
    requires p.WF() && |faults| == |p.slots| && NoFaults(faults)
    requires w < |p.slots| && p.slots[w].ep == Some(e) && p.Eligible(w)
    requires forall i :: 0 <= i < |p.slots| && i != w ==> !p.Live(i)
    ensures Scan(p, faults).1 == Granted(w, e) && ScanEffect(p, Scan(p, faults).0, Granted(w, e))
  {
    CleanScan(p, faults);
    ScanHasEffect(p, faults);
  }

  /** The lease that is added is outstanding, not orphaned, and of instance `w`. */
  lemma {:induction false} Added(s: Sys, c: nat, q: Pool, w: nat, e: nat, l: nat)
    requires s.WF() && s.pool.unique && Orphaned(s, l) && s.pool.eps[s.leases[l].ep].slot == w
    requires c < |s.calls| && s.calls[c].Scanning? && e !in s.ended && q.WF()
    requires |q.eps| == |s.pool.eps| && ScanEffect(s.pool, q, Granted(w, e))
    ensures var t := AfterScan(s, c, q, Granted(w, e), false);
      && (t.WF() ==> !OnePer(t))
      && forall m :: 0 <= m < |t.leases| && Orphaned(t, m) ==> Orphaned(s, m)
  {
    var t := AfterScan(s, c, q, Granted(w, e), false);
    SameAddress(s.pool, q, Granted(w, e), s.leases[l].ep);
    SameAddress(s.pool, q, Granted(w, e), e);
    assert t.leases[l] == s.leases[l] && t.leases[|s.leases|] == Lease(e, Held);
  }

  lemma {:induction false} ScanLeases(s: Sys, c: nat, w: nat, e: nat, l: nat)
    requires Bad(s, l, w) && Offered(s, w, e) && c < |s.calls| && s.calls[c].Scanning?
    ensures CanDouble(s)
  {
    var faults := seq(|s.pool.slots|, _ => Clean);
    var step := ByCall(c, ScanSlots(faults, false));
    OfferTaken(s.pool, w, e, faults);
    var t := Apply(s, step);
    assert t == AfterScan(s, c, Scan(s.pool, faults).0, Granted(w, e), false);
    Added(s, c, Scan(s.pool, faults).0, w, e, l);
    SoundStep(s, step);
    DoubledNow(t);
    DoubledLater(s, step, t);
  }

  lemma {:induction false} OfferedDoubles(s: Sys, w: nat, e: nat, l: nat)
    requires Bad(s, l, w) && Offered(s, w, e)
    ensures CanDouble(s)
  {
    var step := ByCall(|s.calls|, Begin);
    var t := QuietStep(s, step, l, w);
    ScanLeases(t, |s.calls|, w, e, l);
    DoubledLater(s, step, t);
  }

  /** Instance `w` has a fresh endpoint over an address never seen. */
  ghost predicate Unseen(s: Sys, w: nat, e: nat)
    requires s.WF()
  {
    && w < |s.workers| && s.workers[w].pc == Built(e)
    && s.pool.eps[e].ip !in s.pool.rows && s.pool.eps[e].ip !in s.pool.reserved
    && !s.pool.eps[e].cancelled && e !in s.ended && QuietElsewhere(s, w)
  }

  lemma {:induction false} UnseenDoubles(s: Sys, w: nat, e: nat, l: nat)
    requires Bad(s, l, w) && Unseen(s, w, e)
    ensures CanDouble(s)
  {
    var step := ByWorker(w, TryPublish(Clean));
    var t := QuietStep(s, step, l, w);
    assert Publish(s.pool, e, Clean).1 == Published;
    assert t.pool.slots[w].ep == Some(e) && t.pool.Live(w) && t.pool.Eligible(w);
    forall i | 0 <= i < |t.pool.slots| && i != w ensures !t.pool.Live(i) {
      assert t.pool.slots[i] == s.pool.slots[i] && !s.pool.Live(i);
    }
    OfferedDoubles(t, w, e, l);
    DoubledLater(s, step, t);
  }

  /** There is always another address. */
  lemma {:induction false} LongerThanAll(keys: set<IP>) returns (ip: IP)
    ensures forall k :: k in keys ==> |k| < |ip|
    decreases |keys|
  {
    ip := "";
    if keys != {} {
      var k :| k in keys;
      ip := LongerThanAll(keys - {k});
      if |ip| <= |k| {
        ip := k + "x";
      }
    }
  }

  lemma {:induction false} ReservedSeen(s: Sys, ip: IP)
    requires Inv(s) && ip in s.pool.reserved
    ensures ip in s.pool.rows
  {
    assert ReservationHeld(s, ip);
    assert SlotOk(s, s.pool.eps[s.pool.reserved[ip]].slot);
  }

  lemma {:induction false} NewAddress(s: Sys) returns (ip: IP)
    requires Inv(s)
    ensures ip !in s.pool.rows && ip !in s.pool.reserved
  {
    ip := LongerThanAll(s.pool.rows.Keys);
    assert ip !in s.pool.rows.Keys;
    forall r | r in s.pool.reserved ensures r in s.pool.rows {
      ReservedSeen(s, r);
    }
  }

  lemma {:induction false} IdleDoubles(s: Sys, w: nat, l: nat)
    requires Bad(s, l, w) && s.workers[w] == Worker(Idle, false) && QuietElsewhere(s, w)
    ensures CanDouble(s)
  {
    var ip := NewAddress(s);
    var e := |s.pool.eps|;
    var step := ByWorker(w, Build(ip));
    var t := QuietStep(s, step, l, w);
    forall i | 0 <= i < |t.pool.slots| && i != w ensures !t.pool.Live(i) {
      assert t.pool.slots[i] == s.pool.slots[i] && !s.pool.Live(i);
    }
    UnseenDoubles(t, w, e, l);
    DoubledLater(s, step, t);
  }

  // ---- nothing else is offered ----------------------------------------------

  /** Of the first `n` endpoints, those without an outstanding lease are cancelled. */
  ghost predicate Swept(s: Sys, n: nat) {
    n <= |s.pool.eps| && forall e :: 0 <= e < n && HeldOn(s.leases, e) == 0 ==> s.pool.eps[e].cancelled
  }

  lemma {:induction false} SweptQuiet(s: Sys, w: nat)
    requires Inv(s) && s.pool.unique && Swept(s, |s.pool.eps|)
    ensures QuietElsewhere(s, w)
  {
    forall i | 0 <= i < |s.pool.slots| ensures !s.pool.Live(i) {
      assert SlotOk(s, i);
    }
  }

  lemma {:induction false} SweptFurther(s: Sys, n: nat)
    requires Swept(s, n) && n < |s.pool.eps|
    ensures Swept(DoCircuitEnds(s, n), n + 1)
  {}

  lemma {:induction false} SweepDoubles(s: Sys, w: nat, l: nat, n: nat)
    requires Bad(s, l, w) && s.workers[w] == Worker(Idle, false) && Swept(s, n)
    ensures CanDouble(s)
    decreases |s.pool.eps| - n
  {
    if n == |s.pool.eps| {
      SweptQuiet(s, w);
      IdleDoubles(s, w, l);
    } else if HeldOn(s.leases, n) > 0 {
      SweepDoubles(s, w, l, n + 1);
    } else {
      var step := ByWorld(CircuitEnds(n));
      var t := QuietStep(s, step, l, w);
      SweptFurther(s, n);
      SweepDoubles(t, w, l, n + 1);
      DoubledLater(s, step, t);
    }
  }

  // ---- the instance's own worker gives up what it has -------------------------

  lemma {:induction false} AtIdle(s: Sys, w: nat, l: nat)
    requires Bad(s, l, w) && s.workers[w].pc.Idle?
    ensures CanDouble(s)
  {
    var step := ByWorld(NewSession(w));
    var t := QuietStep(s, step, l, w);
    SweepDoubles(t, w, l, 0);
    DoubledLater(s, step, t);
  }

  lemma {:induction false} AtClosing(s: Sys, w: nat, l: nat)
    requires Bad(s, l, w) && s.workers[w].pc.Closing?
    ensures CanDouble(s)
  {
    var step := ByWorker(w, CloseCircuit);
    var t := QuietStep(s, step, l, w);
    AtIdle(t, w, l);
    DoubledLater(s, step, t);
  }

  lemma {:induction false} AtLeaving(s: Sys, w: nat, l: nat)
    requires Bad(s, l, w) && s.workers[w].pc.Leaving?
    ensures CanDouble(s)
  {
    var step := ByWorker(w, TakeBack);
    var t := QuietStep(s, step, l, w);
    AtClosing(t, w, l);
    DoubledLater(s, step, t);
  }

  lemma {:induction false} AtBuilt(s: Sys, w: nat, l: nat)
    requires Bad(s, l, w) && s.workers[w].pc.Built?
    ensures CanDouble(s)
  {
    var step := ByWorker(w, TryPublish(FailedBefore));
    var t := QuietStep(s, step, l, w);
    AtClosing(t, w, l);
    DoubledLater(s, step, t);
  }

  lemma {:induction false} AtServingCancelled(s: Sys, w: nat, l: nat)
    requires Bad(s, l, w) && s.workers[w].pc.Serving? && s.pool.eps[s.workers[w].pc.ep].cancelled
    ensures CanDouble(s)
  {
    var step := ByWorker(w, SeeCircuit);
    var t := QuietStep(s, step, l, w);
    AtLeaving(t, w, l);
    DoubledLater(s, step, t);
  }

  lemma {:induction false} AtServing(s: Sys, w: nat, l: nat)
    requires Bad(s, l, w) && s.workers[w].pc.Serving?
    ensures CanDouble(s)
  {
    var e := s.workers[w].pc.ep;
    if e !in s.ended && HeldOn(s.leases, e) > 0 {
      var m := SomeCounted(s.leases, e, Held);
      assert s.leases[m].ep == e && s.pool.eps[e].slot == w && m != l;
      DoubledNow(s);
    } else {
      var step := ByWorld(CircuitEnds(e));
      var t := QuietStep(s, step, l, w);
      AtServingCancelled(t, w, l);
      DoubledLater(s, step, t);
    }
  }

  lemma {:induction false} OrphanDoubles(s: Sys, l: nat)
    requires Sound(s) && s.pool.unique && !s.appDone && Orphaned(s, l)
    ensures CanDouble(s)
  {
    var w := s.pool.eps[s.leases[l].ep].slot;
    assert SlotOk(s, w);
    match s.workers[w].pc {
      case Idle => AtIdle(s, w, l);
      case Built(_) => AtBuilt(s, w, l);
      case Serving(_) => AtServing(s, w, l);
      case Leaving(_, _) => AtLeaving(s, w, l);
      case Closing(_, _) => AtClosing(s, w, l);
    }
  }

  // ---- the exact condition --------------------------------------------------

  /** In unique mode, as long as the application lives: "one request per instance"
      is kept in every continuation in which no further circuit ends under a lease,
      if and only if no circuit has ended under an outstanding one. */
  lemma {:induction false} OneLeaseIff(tr: seq<Sys>, steps: seq<Step>, k: nat)
    requires Run(tr, steps) && k < |tr| && tr[k].pool.unique && !tr[k].appDone
    ensures !CanDouble(tr[k]) <==> NoneOrphaned(tr[k])
  {
    var s := tr[k];
    SoundRun(tr, steps, k);
    if !NoneOrphaned(s) {
      var l :| 0 <= l < |s.leases| && Orphaned(s, l);
      OrphanDoubles(s, l);
    } else if CanDouble(s) {
      var steps': seq<Step>, t: Sys :| Leads(s, steps', t) && t.WF() && !OnePer(t);
      AliveStays(s, steps', t);
      AliveOne(t);
    }
  }
}
