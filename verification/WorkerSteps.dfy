/** Every worker step keeps the invariant. */
module WorkerSteps {
  import opened Base
  import opened Store
  import opened PoolState
  import opened Protocol
  import opened Counting
  import opened Invariant

  lemma ReportSlotOk(s: Sys, w: nat, state: SlotState, i: nat)
    requires s.WF() && WorkerEnabled(s, w, Report(state)) && DoReport(s, w, state).WF()
    requires i < |s.workers| && SlotOk(s, i)
    ensures SlotOk(DoReport(s, w, state), i)
  {}

  lemma ReportEpOk(s: Sys, w: nat, state: SlotState, e: nat)
    requires s.WF() && WorkerEnabled(s, w, Report(state)) && DoReport(s, w, state).WF()
    requires e < |s.pool.eps| && EpOk(s, e)
    ensures EpOk(DoReport(s, w, state), e)
  {}

  lemma {:induction false} ReportRest(s: Sys, w: nat, state: SlotState)
    requires Inv(s) && WorkerEnabled(s, w, Report(state))
    ensures var t := DoReport(s, w, state);
      && t.WF() && Books(t) && History(t)
      && (forall ip :: ip in t.pool.reserved ==> ReservationHeld(t, ip))
  {
    var t := DoReport(s, w, state);
    RequestsChanged(s.pool.slots, w, t.pool.slots[w]);
    forall ip | ip in t.pool.reserved ensures ReservationHeld(t, ip) { assert ReservationHeld(s, ip); }
  }

  lemma {:induction false} ReportCalls(s: Sys, w: nat, state: SlotState, c: nat, i: nat)
    requires s.WF() && WorkerEnabled(s, w, Report(state)) && DoReport(s, w, state).WF()
    requires c < |s.calls| && i < |s.workers| && CallOk(s, c, i)
    ensures CallOk(DoReport(s, w, state), c, i)
  {}

  lemma {:induction false} ReportKeeps(s: Sys, w: nat, state: SlotState)
    requires Inv(s) && WorkerEnabled(s, w, Report(state))
    ensures Inv(DoReport(s, w, state))
  {
    var t := DoReport(s, w, state);
    ReportRest(s, w, state);
    forall i | 0 <= i < |t.workers| ensures SlotOk(t, i) { ReportSlotOk(s, w, state, i); }
    forall e | 0 <= e < |t.pool.eps| ensures EpOk(t, e) { ReportEpOk(s, w, state, e); }
    forall c, i | 0 <= c < |t.calls| && 0 <= i < |t.workers| ensures CallOk(t, c, i) {
      ReportCalls(s, w, state, c, i);
    }
  }

  lemma BuildSlots(s: Sys, w: nat, ip: IP, i: nat)
    requires s.WF() && WorkerEnabled(s, w, Build(ip)) && DoBuild(s, w, ip).WF() && i < |s.workers| && SlotOk(s, i)
    requires forall e :: e in s.closed ==> e < |s.pool.eps|
    ensures SlotOk(DoBuild(s, w, ip), i)
  {
    NoLeases(s.leases, |s.pool.eps|);
  }

  lemma {:induction false} BuildEps(s: Sys, w: nat, ip: IP, e: nat)
    requires s.WF() && WorkerEnabled(s, w, Build(ip)) && DoBuild(s, w, ip).WF() && e <= |s.pool.eps|
    requires e < |s.pool.eps| ==> EpOk(s, e)
    requires e == |s.pool.eps| ==> e !in s.closed && LeasesOn(s.leases, e) == 0 && s.pool.slots[w].ep != Some(e)
    ensures EpOk(DoBuild(s, w, ip), e)
  {}

  lemma {:induction false} BuildCalls(s: Sys, w: nat, ip: IP, c: nat, i: nat)
    requires s.WF() && WorkerEnabled(s, w, Build(ip)) && DoBuild(s, w, ip).WF()
    requires c < |s.calls| && i < |s.workers| && CallOk(s, c, i)
    ensures CallOk(DoBuild(s, w, ip), c, i)
  {}

  lemma {:induction false} BuildReservations(s: Sys, w: nat, ip: IP, a: IP)
    requires s.WF() && WorkerEnabled(s, w, Build(ip)) && DoBuild(s, w, ip).WF() && ReservationHeld(s, a)
    ensures ReservationHeld(DoBuild(s, w, ip), a)
  {}

  /** The next endpoint has no leases yet and is nowhere. */
  lemma {:induction false} BuildFresh(s: Sys, w: nat)
    requires s.WF() && w < |s.workers| && forall e :: e in s.closed ==> e < |s.pool.eps|
    ensures var e := |s.pool.eps|; e !in s.closed && LeasesOn(s.leases, e) == 0 && s.pool.slots[w].ep != Some(e)
  {
    NoLeases(s.leases, |s.pool.eps|);
  }

  lemma {:induction false} BuildRest(s: Sys, w: nat, ip: IP)
    requires s.WF() && WorkerEnabled(s, w, Build(ip)) && Books(s) && History(s)
    ensures DoBuild(s, w, ip).WF() && Books(DoBuild(s, w, ip)) && History(DoBuild(s, w, ip))
  {}

  lemma {:induction false} BuildKeeps(s: Sys, w: nat, ip: IP)
    requires Inv(s) && WorkerEnabled(s, w, Build(ip))
    ensures Inv(DoBuild(s, w, ip))
  {
    var t := DoBuild(s, w, ip);
    BuildRest(s, w, ip);
    BuildFresh(s, w);
    forall i | 0 <= i < |t.workers| ensures SlotOk(t, i) { BuildSlots(s, w, ip, i); }
    forall e | 0 <= e < |t.pool.eps| ensures EpOk(t, e) { BuildEps(s, w, ip, e); }
    forall a | a in t.pool.reserved ensures ReservationHeld(t, a) {
      assert ReservationHeld(s, a);
      BuildReservations(s, w, ip, a);
    }
    forall c, i | 0 <= c < |t.calls| && 0 <= i < |t.workers| ensures CallOk(t, c, i) { BuildCalls(s, w, ip, c, i); }
  }

  /** `t` differs from `s` only around worker `w` and its endpoint `e`. */
  ghost predicate Around(s: Sys, t: Sys, w: nat, e: nat) {
    && s.WF() && t.WF() && w < |s.workers| == |t.workers| && e < |s.pool.eps| && Owns(s.workers[w].pc, e)
    && t == s.(pool := t.pool, workers := t.workers, closed := t.closed)
    && t.pool == s.pool.(slots := t.pool.slots, reserved := t.pool.reserved, notify := t.pool.notify,
                         eps := t.pool.eps, rows := t.pool.rows)
    && t.workers == s.workers[w := t.workers[w]]
    && t.pool.slots == s.pool.slots[w := t.pool.slots[w]]
    && t.pool.slots[w].requests == s.pool.slots[w].requests
    && |t.pool.eps| == |s.pool.eps| && t.pool.eps == s.pool.eps[e := t.pool.eps[e]]
    && t.pool.eps[e].slot == w && t.pool.eps[e].ip == s.pool.eps[e].ip
    && (forall ip :: ip in s.pool.rows ==> ip in t.pool.rows)
    && (forall ip :: Used(t.pool.rows, ip) <==> Used(s.pool.rows, ip))
    && (forall ip :: ip in s.pool.reserved && s.pool.reserved[ip] != e ==>
          ip in t.pool.reserved && t.pool.reserved[ip] == s.pool.reserved[ip])
    && (forall ip :: ip in t.pool.reserved && t.pool.reserved[ip] != e ==>
          ip in s.pool.reserved && s.pool.reserved[ip] == t.pool.reserved[ip])
    && s.closed <= t.closed <= s.closed + {e}
    && (if s.pool.notify == t.pool.notify then t.pool.Live(w) ==> s.pool.Live(w) else s.pool.notify < t.pool.notify)
  }

  lemma ElsewhereSlots(s: Sys, t: Sys, w: nat, e: nat, i: nat)
    requires Inv(s) && Around(s, t, w, e) && i < |s.workers| && i != w
    ensures SlotOk(t, i)
  {
    assert SlotOk(s, i);
  }

  lemma ElsewhereEps(s: Sys, t: Sys, w: nat, e: nat, x: nat)
    requires Inv(s) && Around(s, t, w, e) && x < |s.pool.eps| && x != e
    requires t.workers[w].pc.Idle? || t.workers[w].pc.ep == e
    requires t.pool.slots[w].ep.None? || t.pool.slots[w].ep == Some(e)
    ensures EpOk(t, x)
  {
    assert EpOk(s, x);
  }

  lemma ElsewhereReservations(s: Sys, t: Sys, w: nat, e: nat, ip: IP)
    requires Inv(s) && Around(s, t, w, e) && ip in t.pool.reserved && t.pool.reserved[ip] != e
    ensures ReservationHeld(t, ip)
  {
    assert ReservationHeld(s, ip);
    assert SlotOk(s, w);
  }

  lemma ElsewhereCalls(s: Sys, t: Sys, w: nat, e: nat)
    requires Inv(s) && Around(s, t, w, e)
    ensures forall c, i :: 0 <= c < |t.calls| && 0 <= i < |t.workers| ==> CallOk(t, c, i)
  {
    forall c, i | 0 <= c < |t.calls| && 0 <= i < |t.workers| ensures CallOk(t, c, i) {
      assert CallOk(s, c, i);
      if i != w && t.pool.slots[i].ep.Some? {
        assert SlotOk(s, i);
      }
    }
  }

  /** A local change keeps the invariant if it does so around `w` and `e`. */
  lemma LocalKeeps(s: Sys, t: Sys, w: nat, e: nat)
    requires Inv(s) && Around(s, t, w, e)
    requires SlotOk(t, w) && EpOk(t, e)
    requires t.workers[w].pc.Idle? || t.workers[w].pc.ep == e
    requires t.pool.slots[w].ep.None? || t.pool.slots[w].ep == Some(e)
    requires forall ip :: ip in t.pool.reserved && t.pool.reserved[ip] == e ==> ReservationHeld(t, ip)
    ensures Inv(t)
  {
    RequestsChanged(s.pool.slots, w, t.pool.slots[w]);
    forall i | 0 <= i < |t.workers| ensures SlotOk(t, i) {
      if i != w { ElsewhereSlots(s, t, w, e, i); }
    }
    forall x | 0 <= x < |t.pool.eps| ensures EpOk(t, x) {
      if x != e { ElsewhereEps(s, t, w, e, x); }
    }
    forall ip | ip in t.pool.reserved ensures ReservationHeld(t, ip) {
      if t.pool.reserved[ip] != e { ElsewhereReservations(s, t, w, e, ip); }
    }
    ElsewhereCalls(s, t, w, e);
  }

  lemma PublishAround(s: Sys, w: nat, fault: Fault)
    requires s.WF() && WorkerEnabled(s, w, TryPublish(fault))
    requires Disciplined(s, w)
    ensures var t := DoPublish(s, w, fault);
      && Around(s, t, w, s.workers[w].pc.ep) && t.workers[w].pc.ep == s.workers[w].pc.ep && !t.workers[w].pc.Idle?
      && (t.pool.slots[w].ep.None? || t.pool.slots[w].ep == Some(s.workers[w].pc.ep))
  {
    var e := s.workers[w].pc.ep;
    var t := DoPublish(s, w, fault);
    assert t.pool.slots == s.pool.slots[w := t.pool.slots[w]];
    assert t.pool.eps == s.pool.eps[e := s.pool.eps[e]];
  }

  lemma {:induction false} PublishLocal(s: Sys, w: nat, fault: Fault)
    requires s.WF() && WorkerEnabled(s, w, TryPublish(fault)) && DoPublish(s, w, fault).WF()
    requires SlotOk(s, w) && EpOk(s, s.workers[w].pc.ep)
    ensures SlotOk(DoPublish(s, w, fault), w)
  {
    var t := DoPublish(s, w, fault);
    assert t.leases == s.leases && t.pool.eps == s.pool.eps;
    assert Disciplined(t, w);
    assert Reserved(t, w);
    assert Progress(t, w);
  }

  lemma {:induction false} PublishEndpoint(s: Sys, w: nat, fault: Fault)
    requires s.WF() && WorkerEnabled(s, w, TryPublish(fault)) && DoPublish(s, w, fault).WF()
    requires SlotOk(s, w) && EpOk(s, s.workers[w].pc.ep)
    ensures EpOk(DoPublish(s, w, fault), s.workers[w].pc.ep)
  {}

  lemma {:induction false} PublishReservation(s: Sys, w: nat, fault: Fault, ip: IP)
    requires s.WF() && WorkerEnabled(s, w, TryPublish(fault)) && DoPublish(s, w, fault).WF()
    requires Disciplined(s, w) && ReservationHeld(s, ip)
    requires ip in DoPublish(s, w, fault).pool.reserved
    requires DoPublish(s, w, fault).pool.reserved[ip] == s.workers[w].pc.ep
    ensures ReservationHeld(DoPublish(s, w, fault), ip)
  {}

  lemma {:induction false} PublishKeeps(s: Sys, w: nat, fault: Fault)
    requires Inv(s) && WorkerEnabled(s, w, TryPublish(fault))
    ensures Inv(DoPublish(s, w, fault))
  {
    var e := s.workers[w].pc.ep;
    var t := DoPublish(s, w, fault);
    assert SlotOk(s, w) && EpOk(s, e);
    PublishAround(s, w, fault);
    PublishLocal(s, w, fault);
    PublishEndpoint(s, w, fault);
    forall ip | ip in t.pool.reserved && t.pool.reserved[ip] == e ensures ReservationHeld(t, ip) {
      assert ReservationHeld(s, ip);
      PublishReservation(s, w, fault, ip);
    }
    LocalKeeps(s, t, w, e);
  }

  lemma MoveKeeps(s: Sys, w: nat, pc: Pc)
    requires Inv(s) && w < |s.workers| && !pc.Idle? && Owns(s.workers[w].pc, pc.ep)
    requires SlotOk(Move(s, w, pc), w)
    ensures Inv(Move(s, w, pc))
  {
    var t := Move(s, w, pc);
    assert EpOk(s, pc.ep) && SlotOk(s, w);
    assert t.pool.slots == s.pool.slots[w := s.pool.slots[w]];
    assert t.pool.eps == s.pool.eps[pc.ep := s.pool.eps[pc.ep]];
    forall ip | ip in t.pool.reserved ensures ReservationHeld(t, ip) { assert ReservationHeld(s, ip); }
    LocalKeeps(s, t, w, pc.ep);
  }

  lemma SeeDoneKeeps(s: Sys, w: nat)
    requires Inv(s) && WorkerEnabled(s, w, SeeDone)
    ensures Inv(DoSeeDone(s, w))
  {
    var e := s.workers[w].pc.ep;
    assert SlotOk(s, w) && EpOk(s, e);
    var t := DoSeeDone(s, w);
    MoveKeeps(s, w, t.workers[w].pc);
  }

  lemma {:induction false} DepartSlotOk(s: Sys, w: nat, step: WorkerStep)
    requires s.WF() && WorkerEnabled(s, w, step) && ApplyWorker(s, w, step).WF()
    requires step.SeeCircuit? || step.SeeControl? || step.DrainEmpty? || step.DrainAbort?
    requires SlotOk(s, w) && EpOk(s, s.workers[w].pc.ep)
    ensures SlotOk(ApplyWorker(s, w, step), w)
  {}

  lemma {:induction false} DepartKeeps(s: Sys, w: nat, step: WorkerStep)
    requires Inv(s) && WorkerEnabled(s, w, step)
    requires step.SeeCircuit? || step.SeeControl? || step.DrainEmpty? || step.DrainAbort?
    ensures Inv(ApplyWorker(s, w, step))
  {
    assert SlotOk(s, w) && EpOk(s, s.workers[w].pc.ep);
    DepartSlotOk(s, w, step);
    MoveKeeps(s, w, ApplyWorker(s, w, step).workers[w].pc);
  }

  /** Once its worker leaves, an endpoint holds no reservation. */
  ghost predicate Unreserved(t: Sys, e: nat) {
    forall ip :: ip in t.pool.reserved ==> t.pool.reserved[ip] != e
  }

  lemma {:induction false} TakeBackAround(s: Sys, w: nat)
    requires s.WF() && WorkerEnabled(s, w, TakeBack)
    ensures Around(s, DoTakeBack(s, w), w, s.workers[w].pc.ep)
  {
    var t := DoTakeBack(s, w);
    assert t.pool.slots == s.pool.slots[w := t.pool.slots[w]];
  }

  lemma {:induction false} TakeBackFrees(s: Sys, w: nat, ip: IP)
    requires s.WF() && WorkerEnabled(s, w, TakeBack) && ReservationHeld(s, ip)
    requires ip in DoTakeBack(s, w).pool.reserved
    ensures DoTakeBack(s, w).pool.reserved[ip] != s.workers[w].pc.ep
  {}

  lemma CloseAround(s: Sys, w: nat)
    requires s.WF() && WorkerEnabled(s, w, CloseCircuit) && Disciplined(s, w)
    requires forall ip :: ip in s.pool.reserved ==> ReservationHeld(s, ip)
    ensures Around(s, DoClose(s, w), w, s.workers[w].pc.ep)
    ensures Unreserved(DoClose(s, w), s.workers[w].pc.ep)
  {
    var e := s.workers[w].pc.ep;
    var t := DoClose(s, w);
    assert t.pool.slots == s.pool.slots[w := s.pool.slots[w]];
    forall ip | ip in t.pool.reserved ensures t.pool.reserved[ip] != e { assert ReservationHeld(s, ip); }
  }

  lemma {:induction false} TakeBackKeeps(s: Sys, w: nat)
    requires Inv(s) && WorkerEnabled(s, w, TakeBack)
    ensures Inv(DoTakeBack(s, w))
  {
    var e, t := s.workers[w].pc.ep, DoTakeBack(s, w);
    TakeBackAround(s, w);
    forall ip | ip in t.pool.reserved ensures t.pool.reserved[ip] != e {
      assert ReservationHeld(s, ip);
      TakeBackFrees(s, w, ip);
    }
    assert SlotOk(s, w) && EpOk(s, e);
    LocalKeeps(s, t, w, e);
  }

  lemma CloseKeeps(s: Sys, w: nat)
    requires Inv(s) && WorkerEnabled(s, w, CloseCircuit)
    ensures Inv(DoClose(s, w))
  {
    var t := DoClose(s, w);
    assert SlotOk(s, w);
    CloseAround(s, w);
    assert EpOk(s, s.workers[w].pc.ep);
    LocalKeeps(s, t, w, s.workers[w].pc.ep);
  }

  lemma WorkerKeeps(s: Sys, w: nat, step: WorkerStep)
    requires Inv(s) && WorkerEnabled(s, w, step)
    ensures Inv(ApplyWorker(s, w, step))
  {
    match step {
      case Report(state) => ReportKeeps(s, w, state);
      case Build(ip) => BuildKeeps(s, w, ip);
      case TryPublish(fault) => PublishKeeps(s, w, fault);
      case SeeDone => SeeDoneKeeps(s, w);
      case TakeBack => TakeBackKeeps(s, w);
      case CloseCircuit => CloseKeeps(s, w);
      case _ => DepartKeeps(s, w, step);
    }
  }
}
