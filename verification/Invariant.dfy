/** The inductive invariant of the lease protocol, one slot, one endpoint, one
    address, one call and one set of books at a time. */
module Invariant {
  import opened Base
  import opened Store
  import opened PoolState
  import opened Protocol
  import opened Counting

  /** The worker is between a successful publish and its withdraw. */
  predicate Serves(pc: Pc, e: nat) {
    (pc.Serving? || pc.Draining? || pc.Leaving?) && pc.ep == e
  }

  predicate Owns(pc: Pc, e: nat) {
    !pc.Idle? && pc.ep == e
  }

  /** A slot holds an endpoint only while its worker serves that endpoint; in
      unique mode it holds it all that time, in reuse mode it is then Ready. */
  ghost predicate Disciplined(s: Sys, i: nat)
    requires s.WF() && i < |s.workers|
  {
    var slot, pc := s.pool.slots[i], s.workers[i].pc;
    && (slot.ep.Some? ==> Serves(pc, slot.ep.value))
    && (slot.state.Ready? || slot.state.Busy? ==> slot.ep.Some?)
    && (s.pool.unique ==> !pc.Draining?)
    && (s.pool.unique && (pc.Serving? || pc.Leaving?) ==> slot.ep == Some(pc.ep))
    && (!s.pool.unique && slot.ep.Some? ==> slot.state.Ready?)
    && (!s.pool.unique ==> !slot.state.Busy?)
  }

  /** The endpoint in the slot holds the reservation of its address; its address
      is on record, and a Ready one is unused unless an ambiguous error hid its use. */
  ghost predicate Reserved(s: Sys, i: nat)
    requires s.WF() && i < |s.workers|
  {
    s.pool.slots[i].ep.Some? ==>
      var e := s.pool.slots[i].ep.value;
      var ip := s.pool.eps[e].ip;
      && ip in s.pool.rows
      && (s.pool.unique ==>
            && ip in s.pool.reserved && s.pool.reserved[ip] == e
            && (s.pool.slots[i].state.Ready? ==> LeasesOn(s.leases, e) == 0)
            && (s.pool.slots[i].state.Ready? && Used(s.pool.rows, ip) ==> ip in s.tainted))
  }

  /** What the program counter of worker `i` says about its endpoint. */
  ghost predicate Progress(s: Sys, i: nat)
    requires s.WF() && i < |s.workers|
  {
    var Worker(pc, ctrlDone) := s.workers[i];
    !pc.Idle? ==>
      var ep := s.pool.eps[pc.ep];
      && pc.ep !in s.closed
      && (pc.Built? ==>
            LeasesOn(s.leases, pc.ep) == 0 && !ep.once && ep.closes == 0 && ep.lastErr.None? && ep.active == 0)
      && (pc.Draining? || (pc.Leaving? && pc.departure.AfterServe?) ==> ep.closes > 0)
      && (pc.Leaving? || pc.Closing? ==> HeldOn(s.leases, pc.ep) == 0 || pc.ep in s.ended)
      && (pc.Leaving? && pc.departure.OnCircuit? ==> ep.cancelled)
      && (pc.Leaving? && pc.departure.OnControl? ==> pc.ep in s.ended)
      && ((pc.Serving? || pc.Draining?) && ep.cancelled ==> LeasesOn(s.leases, pc.ep) == 0 || pc.ep in s.ended)
      && (ctrlDone ==> pc.ep in s.ended)
  }

  ghost predicate SlotOk(s: Sys, i: nat)
    requires s.WF() && i < |s.workers|
  {
    && Disciplined(s, i)
    && Reserved(s, i)
    && Progress(s, i)
    && s.pool.slots[i].fails == Streak(s.finishes, i)
  }

  /** The leases, the done channel and the circuit of endpoint `e`. */
  ghost predicate EpOk(s: Sys, e: nat)
    requires s.WF() && e < |s.pool.eps|
  {
    var ep := s.pool.eps[e];
    var held, signalling := HeldOn(s.leases, e), On(s.leases, e, Finishing);
    && (s.appDone ==> e in s.ended)
    && (e in s.closed ==> !Owns(s.workers[ep.slot].pc, e) && (held == 0 || e in s.ended))
    && (if s.pool.unique then
          && LeasesOn(s.leases, e) <= 1
          && ep.active == 0
          && ep.closes + signalling == Bit(ep.once)
          && (ep.once <==> LeasesOn(s.leases, e) == 1 && held == 0)
        else
          && ep.active == held
          && ep.closes == Bit(ep.once)
          && (ep.once || signalling > 0 ==> ep.lastErr.Some?)
          && (ep.lastErr.Some? ==> s.pool.slots[ep.slot].ep != Some(e)))
  }

  ghost predicate ReservationHeld(s: Sys, ip: IP)
    requires s.WF()
  {
    ip in s.pool.reserved ==>
      var e := s.pool.reserved[ip];
      s.pool.unique && s.pool.eps[e].ip == ip && s.pool.slots[s.pool.eps[e].slot].ep == Some(e)
  }

  /** A call that still waits on the current channel overlooks no live slot. */
  ghost predicate CallOk(s: Sys, c: nat, i: nat)
    requires s.WF() && c < |s.calls| && i < |s.workers|
  {
    s.calls[c].Waiting? ==>
      s.calls[c].notify <= s.pool.notify && (s.calls[c].notify == s.pool.notify ==> !s.pool.Live(i))
  }

  /** Exact accounting. */
  ghost predicate Books(s: Sys)
    requires s.WF()
  {
    && s.pool.requests == |s.leases|
    && s.pool.requests == s.pool.completed + s.pool.failed + AllHeld(s.leases)
    && s.pool.requests == TotalRequests(s.pool.slots)
    && s.pool.completed + s.pool.failed == |s.finishes|
    && s.pool.failed == Failures(s.finishes)
    && s.pool.rejected == NoReadyCalls(s.calls)
  }

  /** Every granted address is marked used, and no unique-mode grant repeats an
      address granted before it. */
  ghost predicate History(s: Sys)
    requires s.WF()
  {
    && (forall l :: 0 <= l < |s.leases| ==> Used(s.pool.rows, s.pool.eps[s.leases[l].ep].ip))
    && (forall g :: 0 <= g < |s.grants| ==> Used(s.pool.rows, s.grants[g].ip))
    && (forall g, h :: 0 <= g < h < |s.grants| && s.grants[h].unique ==> s.grants[g].ip != s.grants[h].ip)
  }

  ghost predicate Inv(s: Sys) {
    && s.WF()
    && (forall i :: 0 <= i < |s.workers| ==> SlotOk(s, i))
    && (forall e :: 0 <= e < |s.pool.eps| ==> EpOk(s, e))
    && (forall ip :: ip in s.pool.reserved ==> ReservationHeld(s, ip))
    && (forall c, i :: 0 <= c < |s.calls| && 0 <= i < |s.workers| ==> CallOk(s, c, i))
    && (forall e :: e in s.closed ==> e < |s.pool.eps|)
    && Books(s)
    && History(s)
  }

  lemma FreshInv(unique: bool, n: nat, rows: Rows, grants: seq<GrantRecord>)
    requires n > 0
    requires forall g :: 0 <= g < |grants| ==> Used(rows, grants[g].ip)
    requires forall g, h :: 0 <= g < h < |grants| && grants[h].unique ==> grants[g].ip != grants[h].ip
    ensures Inv(Fresh(unique, n, rows, grants))
  {
    NoRequests(Fresh(unique, n, rows, grants).pool.slots);
  }
}
