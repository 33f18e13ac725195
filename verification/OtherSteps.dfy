/** Acquire calls, Finish calls and the outside world keep the invariant. */
module OtherSteps {
  import opened Base
  import opened Store
  import opened PoolState
  import opened ScanLaws
  import opened Protocol
  import opened Counting
  import opened Invariant

  /** `t` keeps the slots, reservations, addresses and grants of `s`, and no
      endpoint came back to life. */
  ghost predicate Calm(s: Sys, t: Sys) {
    && s.WF() && t.WF() && |t.workers| == |s.workers|
    && t.pool.slots == s.pool.slots && t.pool.reserved == s.pool.reserved
    && t.pool.unique == s.pool.unique && t.pool.notify == s.pool.notify && t.pool.rows == s.pool.rows
    && |t.pool.eps| == |s.pool.eps|
    && (forall e {:trigger t.pool.eps[e]} :: 0 <= e < |s.pool.eps| ==>
          && t.pool.eps[e].slot == s.pool.eps[e].slot && t.pool.eps[e].ip == s.pool.eps[e].ip
          && (s.pool.eps[e].cancelled ==> t.pool.eps[e].cancelled))
    && |t.leases| == |s.leases|
    && (forall l {:trigger t.leases[l]} :: 0 <= l < |s.leases| ==> t.leases[l].ep == s.leases[l].ep)
    && t.grants == s.grants
  }

  lemma CalmKeeps(s: Sys, t: Sys)
    requires Inv(s) && Calm(s, t)
    ensures forall ip :: ip in t.pool.reserved ==> ReservationHeld(t, ip)
    ensures forall c, i ::
      0 <= c < |s.calls| && c < |t.calls| && 0 <= i < |t.workers| && t.calls[c] == s.calls[c] ==> CallOk(t, c, i)
    ensures History(t)
  {
    forall ip | ip in t.pool.reserved ensures ReservationHeld(t, ip) { assert ReservationHeld(s, ip); }
    forall c, i | 0 <= c < |s.calls| && c < |t.calls| && 0 <= i < |t.workers| && t.calls[c] == s.calls[c]
      ensures CallOk(t, c, i) { assert CallOk(s, c, i); }
  }

  /** `t` is `s` but for calls, and for endpoints and sessions that ended. */
  ghost predicate Still(s: Sys, t: Sys) {
    && Calm(s, t)
    && t.leases == s.leases && t.finishes == s.finishes && t.closed == s.closed && t.tainted == s.tainted
    && s.ended <= t.ended
    && (forall w {:trigger t.workers[w]} :: 0 <= w < |s.workers| ==>
          && t.workers[w].pc == s.workers[w].pc
          && (t.workers[w].ctrlDone && !s.workers[w].pc.Idle? ==>
                s.workers[w].ctrlDone || s.workers[w].pc.ep in t.ended))
    && (forall e {:trigger t.pool.eps[e]} :: 0 <= e < |s.pool.eps| ==>
          && t.pool.eps[e] == s.pool.eps[e].(cancelled := t.pool.eps[e].cancelled)
          && (t.pool.eps[e].cancelled ==> s.pool.eps[e].cancelled || e in t.ended)
          && (t.appDone ==> s.appDone || e in t.ended))
  }

  lemma {:induction false} StillSlotOk(s: Sys, t: Sys, i: nat)
    requires Still(s, t) && i < |s.workers| && SlotOk(s, i)
    ensures SlotOk(t, i)
  {
    assert t.workers[i].pc == s.workers[i].pc;
    assert Disciplined(t, i);
    if s.pool.slots[i].ep.Some? {
      assert t.pool.eps[s.pool.slots[i].ep.value].ip == s.pool.eps[s.pool.slots[i].ep.value].ip;
    }
    assert Reserved(t, i);
    if !s.workers[i].pc.Idle? {
      var e := s.workers[i].pc.ep;
      assert t.pool.eps[e] == s.pool.eps[e].(cancelled := t.pool.eps[e].cancelled);
    }
  }

  lemma {:induction false} StillEpOk(s: Sys, t: Sys, e: nat)
    requires Still(s, t) && e < |s.pool.eps| && EpOk(s, e)
    ensures EpOk(t, e)
  {
    assert t.pool.eps[e] == s.pool.eps[e].(cancelled := t.pool.eps[e].cancelled);
    assert t.workers[s.pool.eps[e].slot].pc == s.workers[s.pool.eps[e].slot].pc;
  }

  lemma {:induction false} StillKeeps(s: Sys, t: Sys)
    requires Inv(s) && Still(s, t) && Books(t)
    requires |s.calls| <= |t.calls|
    requires forall c :: 0 <= c < |t.calls| && t.calls[c].Waiting? ==> c < |s.calls| && t.calls[c] == s.calls[c]
    ensures Inv(t)
  {
    forall i | 0 <= i < |t.workers| ensures SlotOk(t, i) { StillSlotOk(s, t, i); }
    forall e | 0 <= e < |t.pool.eps| ensures EpOk(t, e) { StillEpOk(s, t, e); }
    CalmKeeps(s, t);
    forall c, i | 0 <= c < |t.calls| && 0 <= i < |t.workers| ensures CallOk(t, c, i) {
      if t.calls[c].Waiting? {
        assert CallOk(s, c, i);
      }
    }
  }

  // ---- scans ---------------------------------------------------------------

  /** A scan by call `c` that left `q` with result `r`. */
  ghost predicate Scanned(s: Sys, c: nat, q: Pool, r: ScanResult) {
    && s.WF() && q.WF() && c < |s.calls| && s.calls[c].Scanning?
    && |q.eps| == |s.pool.eps| && ScanEffect(s.pool, q, r)
    && (r.NoReady? ==> NoneLive(q))
  }

  lemma ScanStaysWF(s: Sys, c: nat, q: Pool, r: ScanResult, late: bool)
    requires Scanned(s, c, q, r)
    ensures AfterScan(s, c, q, r, late).WF()
  {}

  /** What happens to a slot that a scan grants from, or to any other. */
  lemma {:induction false} GrantDisciplined(s: Sys, c: nat, q: Pool, r: ScanResult, late: bool, i: nat)
    requires Scanned(s, c, q, r) && r.Granted? && AfterScan(s, c, q, r, late).WF() && i < |s.workers|
    requires Disciplined(s, i)
    ensures Disciplined(AfterScan(s, c, q, r, late), i)
  {}

  lemma {:induction false} GrantReserved(s: Sys, c: nat, q: Pool, r: ScanResult, late: bool, i: nat)
    requires Scanned(s, c, q, r) && r.Granted? && AfterScan(s, c, q, r, late).WF() && i < |s.workers|
    requires Reserved(s, i) && Reserved(s, r.slot)
    ensures Reserved(AfterScan(s, c, q, r, late), i)
  {
    Appended(s.leases, Lease(r.ep, Held));
  }

  lemma {:induction false} GrantProgressElsewhere(s: Sys, c: nat, q: Pool, r: ScanResult, late: bool, i: nat)
    requires Scanned(s, c, q, r) && r.Granted? && AfterScan(s, c, q, r, late).WF() && i < |s.workers|
    requires i != r.slot && Reserved(s, i) && Progress(s, i) && s.pool.eps[r.ep].slot == r.slot
    ensures Progress(AfterScan(s, c, q, r, late), i)
  {
    Appended(s.leases, Lease(r.ep, Held));
    if !s.workers[i].pc.Idle? {
      assert s.workers[i].pc.ep != r.ep && AtMostSkipped(s.pool, q, s.workers[i].pc.ep);
    }
  }

  lemma {:induction false} GrantProgressHere(s: Sys, c: nat, q: Pool, r: ScanResult, late: bool)
    requires Scanned(s, c, q, r) && r.Granted? && AfterScan(s, c, q, r, late).WF()
    requires Disciplined(s, r.slot) && Reserved(s, r.slot) && Progress(s, r.slot) && EpOk(s, r.ep)
    ensures Progress(AfterScan(s, c, q, r, late), r.slot)
  {
    Appended(s.leases, Lease(r.ep, Held));
  }

  lemma {:induction false} GrantSlotOk(s: Sys, c: nat, q: Pool, r: ScanResult, late: bool, i: nat)
    requires Scanned(s, c, q, r) && r.Granted? && AfterScan(s, c, q, r, late).WF() && i < |s.workers|
    requires SlotOk(s, i) && Disciplined(s, r.slot) && Reserved(s, r.slot) && EpOk(s, r.ep)
    ensures SlotOk(AfterScan(s, c, q, r, late), i)
  {
    GrantDisciplined(s, c, q, r, late, i);
    GrantReserved(s, c, q, r, late, i);
    if i == r.slot {
      GrantProgressHere(s, c, q, r, late);
    } else {
      GrantProgressElsewhere(s, c, q, r, late, i);
    }
  }

  lemma {:induction false} NoGrantReserved(s: Sys, c: nat, q: Pool, r: ScanResult, late: bool, i: nat)
    requires Scanned(s, c, q, r) && !r.Granted? && AfterScan(s, c, q, r, late).WF() && i < |s.workers|
    requires Reserved(s, i)
    ensures Reserved(AfterScan(s, c, q, r, late), i)
  {
    if s.pool.slots[i].ep.Some? {
      assert AtMostSkipped(s.pool, q, s.pool.slots[i].ep.value);
    }
  }

  lemma {:induction false} NoGrantProgress(s: Sys, c: nat, q: Pool, r: ScanResult, late: bool, i: nat)
    requires Scanned(s, c, q, r) && !r.Granted? && AfterScan(s, c, q, r, late).WF() && i < |s.workers|
    requires Reserved(s, i) && Progress(s, i)
    ensures Progress(AfterScan(s, c, q, r, late), i)
  {
    if !s.workers[i].pc.Idle? {
      assert AtMostSkipped(s.pool, q, s.workers[i].pc.ep);
    }
  }

  lemma {:induction false} NoGrantSlotOk(s: Sys, c: nat, q: Pool, r: ScanResult, late: bool, i: nat)
    requires Scanned(s, c, q, r) && !r.Granted? && AfterScan(s, c, q, r, late).WF() && i < |s.workers|
    requires SlotOk(s, i)
    ensures SlotOk(AfterScan(s, c, q, r, late), i)
  {
    NoGrantReserved(s, c, q, r, late, i);
    NoGrantProgress(s, c, q, r, late, i);
  }

  lemma {:induction false} GrantEpOk(s: Sys, c: nat, q: Pool, r: ScanResult, late: bool, e: nat)
    requires Scanned(s, c, q, r) && r.Granted? && AfterScan(s, c, q, r, late).WF() && e < |s.pool.eps|
    requires EpOk(s, e) && SlotOk(s, s.pool.eps[e].slot)
    ensures EpOk(AfterScan(s, c, q, r, late), e)
  {
    Appended(s.leases, Lease(r.ep, Held));
    if e == r.ep {
      assert s.pool.eps[e].slot == r.slot && Disciplined(s, r.slot) && Reserved(s, r.slot);
      GrantedEpOk(s, c, q, r, late);
    }
  }

  lemma {:induction false} GrantedEpOk(s: Sys, c: nat, q: Pool, r: ScanResult, late: bool)
    requires Scanned(s, c, q, r) && r.Granted? && AfterScan(s, c, q, r, late).WF()
    requires EpOk(s, r.ep) && s.pool.eps[r.ep].slot == r.slot
    requires Disciplined(s, r.slot) && Reserved(s, r.slot) && Progress(s, r.slot)
    ensures EpOk(AfterScan(s, c, q, r, late), r.ep)
  {
    Appended(s.leases, Lease(r.ep, Held));
  }

  lemma {:induction false} NoGrantEpOk(s: Sys, c: nat, q: Pool, r: ScanResult, late: bool, e: nat)
    requires Scanned(s, c, q, r) && !r.Granted? && AfterScan(s, c, q, r, late).WF() && e < |s.pool.eps|
    requires EpOk(s, e)
    ensures EpOk(AfterScan(s, c, q, r, late), e)
  {}

  lemma ScanBooks(s: Sys, c: nat, q: Pool, r: ScanResult, late: bool)
    requires Scanned(s, c, q, r) && AfterScan(s, c, q, r, late).WF() && Books(s)
    ensures Books(AfterScan(s, c, q, r, late))
  {
    CallChanged(s.calls, c, AfterScan(s, c, q, r, late).calls[c]);
    if r.Granted? {
      Appended(s.leases, Lease(r.ep, Held));
      RequestsChanged(s.pool.slots, r.slot, q.slots[r.slot]);
    }
  }

  lemma ScanHistory(s: Sys, c: nat, q: Pool, r: ScanResult, late: bool)
    requires Scanned(s, c, q, r) && AfterScan(s, c, q, r, late).WF() && History(s)
    ensures History(AfterScan(s, c, q, r, late))
  {
    var t := AfterScan(s, c, q, r, late);
    forall l | 0 <= l < |t.leases| ensures Used(t.pool.rows, t.pool.eps[t.leases[l].ep].ip) {
      assert l < |s.leases| ==> t.leases[l] == s.leases[l];
    }
    if r.Granted? {
      forall g | 0 <= g < |s.grants| ensures s.pool.unique ==> s.grants[g].ip != s.pool.eps[r.ep].ip {
        assert Used(s.pool.rows, s.grants[g].ip);
      }
    }
  }

  lemma ScanCalls(s: Sys, c: nat, q: Pool, r: ScanResult, late: bool, d: nat, i: nat)
    requires Scanned(s, c, q, r) && AfterScan(s, c, q, r, late).WF() && d < |s.calls| && i < |s.workers|
    requires CallOk(s, d, i)
    ensures CallOk(AfterScan(s, c, q, r, late), d, i)
  {}

  lemma {:induction false} ScanSlotsOk(s: Sys, c: nat, q: Pool, r: ScanResult, late: bool, i: nat)
    requires Inv(s) && Scanned(s, c, q, r) && AfterScan(s, c, q, r, late).WF() && i < |s.workers|
    ensures SlotOk(AfterScan(s, c, q, r, late), i)
  {
    assert SlotOk(s, i);
    if r.Granted? {
      assert SlotOk(s, r.slot) && EpOk(s, r.ep);
      GrantSlotOk(s, c, q, r, late, i);
    } else {
      NoGrantSlotOk(s, c, q, r, late, i);
    }
  }

  lemma {:induction false} ScanEpsOk(s: Sys, c: nat, q: Pool, r: ScanResult, late: bool, e: nat)
    requires Inv(s) && Scanned(s, c, q, r) && AfterScan(s, c, q, r, late).WF() && e < |s.pool.eps|
    ensures EpOk(AfterScan(s, c, q, r, late), e)
  {
    assert EpOk(s, e);
    if r.Granted? {
      assert SlotOk(s, s.pool.eps[e].slot);
      GrantEpOk(s, c, q, r, late, e);
    } else {
      NoGrantEpOk(s, c, q, r, late, e);
    }
  }

  lemma {:induction false} ScanReservations(s: Sys, c: nat, q: Pool, r: ScanResult, late: bool, ip: IP)
    requires Scanned(s, c, q, r) && AfterScan(s, c, q, r, late).WF() && ReservationHeld(s, ip)
    ensures ReservationHeld(AfterScan(s, c, q, r, late), ip)
  {}

  lemma AfterScanKeeps(s: Sys, c: nat, q: Pool, r: ScanResult, late: bool)
    requires Inv(s) && Scanned(s, c, q, r)
    ensures Inv(AfterScan(s, c, q, r, late))
  {
    ScanStaysWF(s, c, q, r, late);
    var t := AfterScan(s, c, q, r, late);
    forall i | 0 <= i < |t.workers| ensures SlotOk(t, i) { ScanSlotsOk(s, c, q, r, late, i); }
    forall e | 0 <= e < |t.pool.eps| ensures EpOk(t, e) { ScanEpsOk(s, c, q, r, late, e); }
    forall ip | ip in t.pool.reserved ensures ReservationHeld(t, ip) {
      assert ReservationHeld(s, ip);
      ScanReservations(s, c, q, r, late, ip);
    }
    forall d, i | 0 <= d < |t.calls| && 0 <= i < |t.workers| ensures CallOk(t, d, i) {
      assert CallOk(s, d, i);
      ScanCalls(s, c, q, r, late, d, i);
    }
    ScanBooks(s, c, q, r, late);
    ScanHistory(s, c, q, r, late);
  }

  lemma ScanKeeps(s: Sys, c: nat, faults: seq<Fault>, late: bool)
    requires Inv(s) && CallEnabled(s, c, ScanSlots(faults, late))
    ensures Inv(DoScan(s, c, faults, late))
  {
    ScanHasEffect(s.pool, faults);
    var (q, r) := Scan(s.pool, faults);
    if r.NoReady? {
      NoReadyLeavesNoneLive(s.pool, faults);
    }
    AfterScanKeeps(s, c, q, r, late);
  }

  // ---- the rest of Acquire -------------------------------------------------

  /** Changing one call to anything but a wait, without a rejection. */
  lemma {:induction false} SetCallKeeps(s: Sys, c: nat, call: Call)
    requires Inv(s) && c < |s.calls| && !call.Waiting? && !call.GotNoReady? && !s.calls[c].GotNoReady?
    ensures Inv(SetCall(s, c, call))
  {
    CallChanged(s.calls, c, call);
    StillKeeps(s, SetCall(s, c, call));
  }

  lemma {:induction false} BeginKeeps(s: Sys)
    requires Inv(s)
    ensures Inv(s.(calls := s.calls + [Scanning(false)]))
  {
    CallAppended(s.calls, Scanning(false));
    StillKeeps(s, s.(calls := s.calls + [Scanning(false)]));
  }

  lemma {:induction false} RejectKeeps(s: Sys, c: nat)
    requires Inv(s) && CallEnabled(s, c, Reject)
    ensures Inv(DoReject(s, c))
  {
    CallChanged(s.calls, c, GotNoReady);
    StillKeeps(s, DoReject(s, c));
  }

  lemma CallKeeps(s: Sys, c: nat, step: CallStep)
    requires Inv(s) && CallEnabled(s, c, step)
    ensures Inv(ApplyCall(s, c, step))
  {
    match step {
      case Begin => BeginKeeps(s);
      case ScanSlots(faults, late) => ScanKeeps(s, c, faults, late);
      case Wake => SetCallKeeps(s, c, Scanning(false));
      case Timeout => SetCallKeeps(s, c, Scanning(true));
      case Abandon => SetCallKeeps(s, c, GotError);
      case Reject => RejectKeeps(s, c);
    }
  }

  // ---- Finish --------------------------------------------------------------

  /** In unique mode the first Finish of an endpoint finds its lease held. */
  lemma FirstFinishHeld(s: Sys, l: nat)
    requires s.WF() && l < |s.leases| && EpOk(s, s.leases[l].ep) && FirstFinish(s, l)
    ensures s.leases[l].phase.Held?
    ensures HeldOn(s.leases, s.leases[l].ep) > 0
  {
    Counted(s.leases, l);
  }

  /** The slot of the endpoint after its lease finished. */
  function SlotAfter(unique: bool, slot: Slot, e: nat, err: Option<string>): Slot {
    var current := slot.ep == Some(e);
    Slot(if current && (unique || err.Some?) then Rotating else slot.state,
         if current && !unique && err.Some? then None else slot.ep,
         if err.Some? then slot.fails + 1 else 0,
         slot.requests)
  }

  function EpAfter(unique: bool, ep: Ep, err: Option<string>): Ep {
    if unique then ep.(once := true, lastErr := err)
    else ep.(active := if ep.active > 0 then ep.active - 1 else 0,
             lastErr := if err.Some? then err else ep.lastErr)
  }

  /** `t` is `s` after the held lease `l` finished with `err`. */
  ghost predicate Finished(s: Sys, t: Sys, l: nat, err: Option<string>) {
    && s.WF() && t.WF() && l < |s.leases| && s.leases[l].phase.Held?
    && var e := s.leases[l].ep;
       var i := s.pool.eps[e].slot;
       && t == s.(pool := t.pool, finishes := s.finishes + [FinishRecord(i, err.Some?)],
                  leases := s.leases[l := Lease(e, if s.pool.unique || err.Some? then Finishing else Done)])
       && t.pool == s.pool.(
            slots := s.pool.slots[i := SlotAfter(s.pool.unique, s.pool.slots[i], e, err)],
            eps := s.pool.eps[e := EpAfter(s.pool.unique, s.pool.eps[e], err)],
            completed := s.pool.completed + Bit(err.None?), failed := s.pool.failed + Bit(err.Some?))
  }

  lemma FinishEffect(s: Sys, l: nat, err: Option<string>)
    requires s.WF() && l < |s.leases| && FirstFinish(s, l) && s.leases[l].phase.Held?
    ensures Finished(s, DoFinish(s, l, err), l, err)
  {
    var e := s.leases[l].ep;
    var i := s.pool.eps[e].slot;
    var t := DoFinish(s, l, err);
    assert t.pool.slots == s.pool.slots[i := SlotAfter(s.pool.unique, s.pool.slots[i], e, err)];
    assert t.pool.eps == s.pool.eps[e := EpAfter(s.pool.unique, s.pool.eps[e], err)];
  }

  lemma {:induction false} FinishDisciplined(s: Sys, t: Sys, l: nat, err: Option<string>, i: nat)
    requires Finished(s, t, l, err) && i < |s.workers| && Disciplined(s, i)
    ensures Disciplined(t, i)
  {
    if i != s.pool.eps[s.leases[l].ep].slot {
      assert t.pool.slots[i] == s.pool.slots[i];
    }
  }

  lemma {:induction false} FinishReserved(s: Sys, t: Sys, l: nat, err: Option<string>, i: nat)
    requires Finished(s, t, l, err) && i < |s.workers| && Disciplined(s, i) && Reserved(s, i)
    requires HeldOn(s.leases, s.leases[l].ep) > 0
    ensures Reserved(t, i)
  {
    Changed(s.leases, l, t.leases[l]);
    if i != s.pool.eps[s.leases[l].ep].slot {
      assert t.pool.slots[i] == s.pool.slots[i];
    }
  }

  lemma {:induction false} FinishProgress(s: Sys, t: Sys, l: nat, err: Option<string>, i: nat)
    requires Finished(s, t, l, err) && i < |s.workers| && Progress(s, i)
    requires HeldOn(s.leases, s.leases[l].ep) > 0
    ensures Progress(t, i)
  {
    Changed(s.leases, l, t.leases[l]);
  }

  lemma {:induction false} FinishSlotOk(s: Sys, t: Sys, l: nat, err: Option<string>, i: nat)
    requires Finished(s, t, l, err) && i < |s.workers| && SlotOk(s, i)
    requires HeldOn(s.leases, s.leases[l].ep) > 0
    ensures SlotOk(t, i)
  {
    FinishDisciplined(s, t, l, err, i);
    FinishReserved(s, t, l, err, i);
    FinishProgress(s, t, l, err, i);
    FinishAppended(s.finishes, t.finishes[|s.finishes|]);
  }

  lemma FinishEpOk(s: Sys, t: Sys, l: nat, err: Option<string>, e: nat)
    requires Finished(s, t, l, err) && e < |s.pool.eps| && EpOk(s, e)
    requires HeldOn(s.leases, s.leases[l].ep) > 0
    ensures EpOk(t, e)
  {
    Changed(s.leases, l, t.leases[l]);
  }

  lemma FinishBooks(s: Sys, t: Sys, l: nat, err: Option<string>)
    requires Finished(s, t, l, err) && Books(s)
    ensures Books(t)
  {
    var i := s.pool.eps[s.leases[l].ep].slot;
    Changed(s.leases, l, t.leases[l]);
    FinishAppended(s.finishes, t.finishes[|s.finishes|]);
    RequestsChanged(s.pool.slots, i, t.pool.slots[i]);
  }

  lemma FinishRest(s: Sys, t: Sys, l: nat, err: Option<string>)
    requires Inv(s) && Finished(s, t, l, err)
    ensures forall ip :: ip in t.pool.reserved ==> ReservationHeld(t, ip)
    ensures forall c, i :: 0 <= c < |t.calls| && 0 <= i < |t.workers| ==> CallOk(t, c, i)
    ensures History(t)
  {
    forall ip | ip in t.pool.reserved ensures ReservationHeld(t, ip) { assert ReservationHeld(s, ip); }
    forall d, i | 0 <= d < |t.calls| && 0 <= i < |t.workers| ensures CallOk(t, d, i) { assert CallOk(s, d, i); }
  }

  lemma FinishKeeps(s: Sys, l: nat, err: Option<string>)
    requires Inv(s) && l < |s.leases|
    ensures Inv(DoFinish(s, l, err))
  {
    if FirstFinish(s, l) {
      assert EpOk(s, s.leases[l].ep);
      FirstFinishHeld(s, l);
      FinishEffect(s, l, err);
      AfterFinishKeeps(s, DoFinish(s, l, err), l, err);
    }
  }

  lemma AfterFinishKeeps(s: Sys, t: Sys, l: nat, err: Option<string>)
    requires Inv(s) && Finished(s, t, l, err) && HeldOn(s.leases, s.leases[l].ep) > 0
    ensures Inv(t)
  {
    forall i | 0 <= i < |t.workers| ensures SlotOk(t, i) { FinishSlotOk(s, t, l, err, i); }
    forall e | 0 <= e < |t.pool.eps| ensures EpOk(t, e) { FinishEpOk(s, t, l, err, e); }
    FinishBooks(s, t, l, err);
    FinishRest(s, t, l, err);
  }

  lemma SignalCalm(s: Sys, l: nat)
    requires s.WF() && LeaseEnabled(s, l, SignalDone)
    ensures Calm(s, DoSignal(s, l))
  {}

  lemma SignalSlotOk(s: Sys, l: nat, i: nat)
    requires s.WF() && LeaseEnabled(s, l, SignalDone) && i < |s.workers| && SlotOk(s, i)
    requires On(s.leases, s.leases[l].ep, Finishing) > 0 && DoSignal(s, l).WF()
    ensures SlotOk(DoSignal(s, l), i)
  {
    Changed(s.leases, l, DoSignal(s, l).leases[l]);
  }

  lemma SignalEpOk(s: Sys, l: nat, e: nat)
    requires s.WF() && LeaseEnabled(s, l, SignalDone) && e < |s.pool.eps| && EpOk(s, e)
    requires On(s.leases, s.leases[l].ep, Finishing) > 0 && DoSignal(s, l).WF()
    ensures EpOk(DoSignal(s, l), e)
  {
    Changed(s.leases, l, DoSignal(s, l).leases[l]);
  }

  lemma SignalKeeps(s: Sys, l: nat)
    requires Inv(s) && LeaseEnabled(s, l, SignalDone)
    ensures Inv(DoSignal(s, l))
  {
    SignalCalm(s, l);
    var t := DoSignal(s, l);
    Counted(s.leases, l);
    Changed(s.leases, l, t.leases[l]);
    forall i | 0 <= i < |t.workers| ensures SlotOk(t, i) { SignalSlotOk(s, l, i); }
    forall e | 0 <= e < |t.pool.eps| ensures EpOk(t, e) { SignalEpOk(s, l, e); }
    CalmKeeps(s, t);
  }

  lemma LeaseKeeps(s: Sys, l: nat, step: LeaseStep)
    requires Inv(s) && LeaseEnabled(s, l, step)
    ensures Inv(ApplyLease(s, l, step))
  {
    match step {
      case Finish(err) => FinishKeeps(s, l, err);
      case SignalDone => SignalKeeps(s, l);
    }
  }

  // ---- the outside world ---------------------------------------------------

  lemma {:induction false} ControlLostKeeps(s: Sys, w: nat)
    requires Inv(s) && w < |s.workers|
    ensures Inv(DoControlLost(s, w))
  {
    StillKeeps(s, DoControlLost(s, w));
  }

  lemma {:induction false} NewSessionKeeps(s: Sys, w: nat)
    requires Inv(s) && WorldEnabled(s, NewSession(w))
    ensures Inv(ApplyWorld(s, NewSession(w)))
  {
    StillKeeps(s, ApplyWorld(s, NewSession(w)));
  }

  lemma {:induction false} CircuitEndsKeeps(s: Sys, e: nat)
    requires Inv(s) && e < |s.pool.eps|
    ensures Inv(DoCircuitEnds(s, e))
  {
    StillKeeps(s, DoCircuitEnds(s, e));
  }

  lemma {:induction false} AppEndsKeeps(s: Sys)
    requires Inv(s)
    ensures Inv(DoAppEnds(s))
  {
    StillKeeps(s, DoAppEnds(s));
  }

  lemma WorldKeeps(s: Sys, step: WorldStep)
    requires Inv(s) && WorldEnabled(s, step)
    ensures Inv(ApplyWorld(s, step))
  {
    match step {
      case ControlLost(w) => ControlLostKeeps(s, w);
      case NewSession(w) => NewSessionKeeps(s, w);
      case CircuitEnds(e) => CircuitEndsKeeps(s, e);
      case AppEnds => AppEndsKeeps(s);
      case Restart(unique, n) => FreshInv(unique, n, s.pool.rows, s.grants);
    }
  }
}
