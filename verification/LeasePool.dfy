/** The pool itself: fields updated in place under one lock.  Every method is one
    critical section and is proved to do exactly what its function in PoolState
    says. */
module LeasePool {
  import opened Base
  import opened Store
  import P = PoolState

  class Endpoint {
    /** The generation: endpoints are numbered as they are created. */
    const gen: nat
    const slot: nat
    const ip: IP
    var cancelled: bool
    var once: bool
    var closes: nat
    var lastErr: Option<string>
    var active: nat

    constructor (gen: nat, slot: nat, ip: IP, cancelled: bool)
      ensures this.gen == gen
      ensures View() == P.Ep(slot, ip, cancelled, false, 0, None, 0)
    {
      this.gen, this.slot, this.ip, this.cancelled := gen, slot, ip, cancelled;
      once, closes, lastErr, active := false, 0, None, 0;
    }

    ghost function View(): P.Ep
      reads this
    {
      P.Ep(slot, ip, cancelled, once, closes, lastErr, active)
    }
  }

  /** One element of the slot array. */
  datatype Cell = Cell(state: P.SlotState, ep: Endpoint?, fails: nat, requests: nat)
  {
    ghost function View(): P.Slot {
      P.Slot(state, if ep == null then None else Some(ep.gen), fails, requests)
    }
  }

  class Pool {
    const unique: bool
    const store: Database
    const slots: array<Cell>
    var reserved: map<IP, Endpoint>
    var next: nat
    var requests: nat
    var completed: nat
    var failed: nat
    var rejected: nat
    var notify: nat
    var generations: nat
    ghost var registry: seq<Endpoint>

    ghost predicate Known(ep: Endpoint)
      reads this`registry
    {
      ep.gen < |registry| && registry[ep.gen] == ep && ep.slot < slots.Length
    }

    ghost predicate Valid()
      reads this, slots
    {
      && next < slots.Length && generations == |registry|
      && (forall e :: 0 <= e < |registry| ==> registry[e].gen == e && registry[e].slot < slots.Length)
      && (forall i :: 0 <= i < slots.Length && slots[i].ep != null ==> Known(slots[i].ep) && slots[i].ep.slot == i)
      && (forall ip :: ip in reserved ==> Known(reserved[ip]))
    }

    ghost function View(): (p: P.Pool)
      requires Valid()
      reads this, slots, store, registry
      ensures p.WF() && |p.slots| == slots.Length && |p.eps| == |registry|
    {
      P.Pool(unique,
             seq(slots.Length, i requires 0 <= i < slots.Length reads this, slots => slots[i].View()),
             map ip | ip in reserved :: reserved[ip].gen,
             next, requests, completed, failed, rejected, notify,
             seq(|registry|, e requires 0 <= e < |registry| reads this, registry => registry[e].View()),
             store.rows)
    }

    /** A pool of `n` instances over an existing store. */
    constructor (unique: bool, n: nat, store: Database)
      requires n > 0
      ensures Valid() && fresh(slots) && this.store == store
      ensures View() == P.Initial(unique, n, store.rows)
    {
      this.unique, this.store := unique, store;
      slots := new Cell[n](i => Cell(P.Starting, null, 0, 0));
      reserved := map[];
      next, requests, completed, failed, rejected, notify := 0, 0, 0, 0, 0, 0;
      generations, registry := 0, [];
    }

    method NewEndpoint(slot: nat, ip: IP, cancelled: bool) returns (ep: Endpoint)
      requires Valid() && slot < slots.Length
      modifies this`registry, this`generations
      ensures Valid() && fresh(ep) && Known(ep) && registry == old(registry) + [ep]
      ensures View() == P.Register(old(View()), slot, ip, cancelled)
    {
      ep := new Endpoint(generations, slot, ip, cancelled);
      generations := generations + 1;
      registry := registry + [ep];
    }

    /** Writes one element of the slot array. */
    method Put(i: nat, cell: Cell)
      requires Valid() && i < slots.Length && (cell.ep != null ==> Known(cell.ep) && cell.ep.slot == i)
      modifies slots
      ensures Valid() && slots[i] == cell
      ensures View() == old(View()).(slots := old(View()).slots[i := cell.View()])
    {
      slots[i] := cell;
      assert View().slots == old(View()).slots[i := cell.View()];
      assert View().eps == old(View()).eps;
    }

    /** Writes the fields of an endpoint that the pool lock guards. */
    method Record(ep: Endpoint, once: bool, lastErr: Option<string>, active: nat)
      requires Valid() && Known(ep)
      modifies ep`once, ep`lastErr, ep`active
      ensures Valid()
      ensures View() == old(View()).(
        eps := old(View()).eps[ep.gen := old(View()).eps[ep.gen].(once := once, lastErr := lastErr, active := active)])
    {
      ep.once, ep.lastErr, ep.active := once, lastErr, active;
      assert View().slots == old(View()).slots;
      assert View().eps == old(View()).eps[ep.gen := ep.View()];
    }

    method Cancel(ep: Endpoint)
      requires Valid() && Known(ep)
      modifies ep`cancelled
      ensures Valid() && View() == P.Cancel(old(View()), ep.gen)
    {
      ep.cancelled := true;
    }

    method SetState(i: nat, state: P.SlotState)
      requires Valid() && i < slots.Length
      modifies slots
      ensures Valid() && View() == P.SetState(old(View()), i, state)
    {
      Put(i, slots[i].(state := state));
    }

    method CountRejected()
      requires Valid()
      modifies this`rejected
      ensures Valid() && View() == P.CountRejected(old(View()))
    {
      rejected := rejected + 1;
    }

    method Reserve(ep: Endpoint)
      requires Valid() && Known(ep)
      modifies this`reserved
      ensures Valid() && View() == old(View()).(reserved := old(View()).reserved[ep.ip := ep.gen])
    {
      reserved := reserved[ep.ip := ep];
      assert View().slots == old(View()).slots && View().eps == old(View()).eps;
      assert View().reserved == old(View()).reserved[ep.ip := ep.gen];
    }

    /** Drops the reservation of an address if `ep` holds it. */
    method Release(ep: Endpoint)
      requires Valid() && Known(ep)
      modifies this`reserved
      ensures Valid()
      ensures View() == var p := old(View());
        if ep.ip in p.reserved && p.reserved[ep.ip] == ep.gen then p.(reserved := p.reserved - {ep.ip}) else p
    {
      if ep.ip in reserved && reserved[ep.ip] == ep {
        reserved := reserved - {ep.ip};
        assert View().slots == old(View()).slots && View().eps == old(View()).eps;
        assert View().reserved == old(View()).reserved - {ep.ip};
      }
    }

    /** Takes `ep` out of its slot if it is still there. */
    method Clear(ep: Endpoint)
      requires Valid() && Known(ep)
      modifies slots
      ensures Valid() && View() == P.ClearSlot(old(View()), ep.gen)
    {
      assert View().eps[ep.gen] == ep.View();
      if slots[ep.slot].ep == ep {
        Put(ep.slot, slots[ep.slot].(ep := null, state := P.Rotating));
      }
    }

    /** Marks the slot as rotating if `ep` is still there. */
    method Rest(ep: Endpoint)
      requires Valid() && Known(ep)
      modifies slots
      ensures Valid()
      ensures View() == var p := old(View());
        if p.slots[ep.slot].ep == Some(ep.gen)
        then p.(slots := p.slots[ep.slot := p.slots[ep.slot].(state := P.Rotating)]) else p
    {
      if slots[ep.slot].ep == ep {
        Put(ep.slot, slots[ep.slot].(state := P.Rotating));
      }
    }

    /** `broadcastLocked`: closes the wake-up channel and makes a new one. */
    method Broadcast()
      requires Valid()
      modifies this`notify
      ensures Valid() && View() == old(View()).(notify := old(View()).notify + 1)
    {
      notify := notify + 1;
      assert View().slots == old(View()).slots && View().eps == old(View()).eps;
    }

    method Observe(ep: Endpoint, fault: Fault) returns (unused: bool, broken: bool)
      requires Valid() && Known(ep)
      modifies store
      ensures Valid()
      ensures View() == old(View()).(rows := Observed(old(View()).rows, ep.ip, fault))
      ensures broken <==> !fault.Clean?
      ensures !broken ==> (unused <==> !Used(old(View()).rows, ep.ip))
    {
      unused, broken := store.Observe(ep.ip, fault);
      assert View().slots == old(View()).slots && View().eps == old(View()).eps;
    }

    /** The only entry into Ready. */
    method Publish(ep: Endpoint, fault: Fault) returns (r: P.PublishResult)
      requires Valid() && Known(ep)
      modifies this`reserved, this`notify, slots, store
      ensures Valid()
      ensures (View(), r) == P.Publish(old(View()), ep.gen, fault)
    {
      assert View().eps[ep.gen] == ep.View();
      var unused, broken := Observe(ep, fault);
      if broken {
        return P.PublishFailed;
      }
      if unique && !unused {
        return P.UsedIP;
      }
      if (unique && ep.ip in reserved) || ep.cancelled {
        return P.NotReady;
      }
      Install(ep);
      return P.Published;
    }

    /** Puts the endpoint into its slot, reserves its address and wakes all waiters. */
    method Install(ep: Endpoint)
      requires Valid() && Known(ep)
      modifies this`reserved, this`notify, slots
      ensures Valid()
      ensures var p := old(View());
        View() == p.(slots := p.slots[ep.slot := p.slots[ep.slot].(state := P.Ready, ep := Some(ep.gen))],
                     reserved := if unique then p.reserved[ep.ip := ep.gen] else p.reserved,
                     notify := p.notify + 1)
    {
      Put(ep.slot, slots[ep.slot].(ep := ep, state := P.Ready));
      if unique {
        Reserve(ep);
      }
      Broadcast();
    }

    /** `acquireLocked` and `acquireReuseLocked`: scan for a Ready instance. */
    method AcquireLocked(faults: seq<Fault>) returns (r: P.ScanResult)
      requires Valid() && |faults| == slots.Length
      modifies this`requests, this`next, slots, store, registry
      ensures Valid()
      ensures (View(), r) == P.Scan(old(View()), faults)
    {
      for offset := 0 to slots.Length
        invariant Valid() && registry == old(registry)
        invariant P.Walk(old(View()), 0, faults) == P.Walk(View(), offset, faults)
      {
        var stop;
        stop, r := TryAt(offset, faults);
        if stop {
          return;
        }
      }
      r := P.NoReady;
    }

    /** One turn of the scan's loop, at the given offset. */
    method TryAt(offset: nat, faults: seq<Fault>) returns (stop: bool, r: P.ScanResult)
      requires Valid() && offset < slots.Length == |faults|
      modifies this`requests, this`next, slots, store, registry
      ensures Valid() && registry == old(registry)
      ensures var (q, end) := P.Walk(old(View()), offset, faults);
        if stop then (View(), r) == P.Settle(q, end) else P.Walk(View(), offset + 1, faults) == (q, end)
    {
      var index := (next + offset) % slots.Length;
      var ep := slots[index].ep;
      assert ep != null ==> View().eps[ep.gen] == ep.View();
      if slots[index].state != P.Ready || ep == null || ep.cancelled {
        return false, P.NoReady;
      }
      stop, r := TryLive(index, faults[offset]);
    }

    /** The part of the loop body that runs on a live slot. */
    method TryLive(index: nat, fault: Fault) returns (stop: bool, r: P.ScanResult)
      requires Valid() && index < slots.Length && View().Live(index)
      modifies this`requests, this`next, slots, store, registry
      ensures Valid() && registry == old(registry)
      ensures var p := old(View());
        var e := p.slots[index].ep.value;
        if !fault.Clean? then stop && (View(), r) == P.Settle(p, P.Faulted(index, fault))
        else if p.Eligible(index) then stop && (View(), r) == P.Settle(p, P.Chosen(index))
        else !stop && View() == P.Cancel(p, e)
    {
      var ep := slots[index].ep;
      assert View().eps[ep.gen] == ep.View();
      var ok, broken := Consume(index, fault);
      if broken {
        return true, P.StoreFailed(ep.gen, fault);
      }
      if !ok {
        Cancel(ep);
        return false, P.NoReady;
      }
      Assign(index);
      return true, P.Granted(index, ep.gen);
    }

    /** The store update of a scan that reached a live slot. */
    method Consume(index: nat, fault: Fault) returns (ok: bool, broken: bool)
      requires Valid() && index < slots.Length && slots[index].ep != null
      modifies store
      ensures Valid()
      ensures View() == old(View()).(rows := Consumed(old(View()).rows, slots[index].ep.ip, unique, fault))
      ensures broken <==> !fault.Clean?
      ensures !broken ==> (ok <==> Matches(old(View()).rows, slots[index].ep.ip, unique))
    {
      ok, broken := store.Consume(slots[index].ep.ip, unique, fault);
      assert View().slots == old(View()).slots && View().eps == old(View()).eps;
    }

    /** The assignment of the instance once its address is consumed: in unique
        mode it becomes Busy, in reuse mode it stays Ready for more leases. */
    method Assign(index: nat)
      requires Valid() && index < slots.Length && slots[index].ep != null
      modifies this`requests, this`next, slots, slots[index].ep`once, slots[index].ep`lastErr, slots[index].ep`active
      ensures Valid()
      ensures var p, e := old(View()), old(slots[index].ep).gen;
        View() == p.(requests := p.requests + 1, next := (index + 1) % slots.Length,
                     slots := p.slots[index := p.slots[index].(state := if unique then P.Busy else p.slots[index].state,
                                                               requests := p.slots[index].requests + 1)],
                     eps := if unique then p.eps else p.eps[e := p.eps[e].(active := p.eps[e].active + 1)])
    {
      var cell := slots[index];
      Put(index, cell.(state := if unique then P.Busy else cell.state, requests := cell.requests + 1));
      Advance(index);
      if !unique {
        assert View().eps[cell.ep.gen] == cell.ep.View();
        Record(cell.ep, cell.ep.once, cell.ep.lastErr, cell.ep.active + 1);
      }
    }

    method Advance(index: nat)
      requires Valid() && index < slots.Length
      modifies this`requests, this`next
      ensures Valid()
      ensures View() == old(View()).(requests := old(View()).requests + 1, next := (index + 1) % slots.Length)
    {
      requests := requests + 1;
      next := (index + 1) % slots.Length;
      assert View().slots == old(View()).slots && View().eps == old(View()).eps;
    }

    /** Counters and failure streak. */
    method Account(i: nat, err: Option<string>)
      requires Valid() && i < slots.Length
      modifies this`failed, this`completed, slots
      ensures Valid() && View() == P.Account(old(View()), i, err)
    {
      if err.Some? {
        failed := failed + 1;
        Put(i, slots[i].(fails := slots[i].fails + 1));
      } else {
        completed := completed + 1;
        Put(i, slots[i].(fails := 0));
      }
    }

    /** The critical section of a unique-mode Finish. */
    method FinishUnique(ep: Endpoint, err: Option<string>)
      requires Valid() && Known(ep)
      modifies this`failed, this`completed, slots, ep
      ensures Valid() && View() == P.FinishUnique(old(View()), ep.gen, err)
    {
      assert View().eps[ep.gen] == ep.View();
      Record(ep, true, err, ep.active);
      Account(ep.slot, err);
      Rest(ep);
    }

    /** The part of `finishReuse` that both outcomes share. */
    method ReturnLease(ep: Endpoint, err: Option<string>)
      requires Valid() && Known(ep)
      modifies this`failed, this`completed, slots, ep
      ensures Valid() && View() == P.ReturnLease(old(View()), ep.gen, err)
    {
      assert View().eps[ep.gen] == ep.View();
      var active := if ep.active > 0 then ep.active - 1 else ep.active;
      Record(ep, ep.once, if err.Some? then err else ep.lastErr, active);
      Account(ep.slot, err);
    }

    /** `finishReuse` up to its unlock. */
    method FinishReuse(ep: Endpoint, err: Option<string>)
      requires Valid() && Known(ep)
      modifies this`failed, this`completed, slots, ep
      ensures Valid() && View() == P.FinishReuse(old(View()), ep.gen, err)
    {
      ReturnLease(ep, err);
      if err.Some? {
        Clear(ep);
      }
    }

    /** `close(ep.done)`, guarded by the endpoint's once in reuse mode. */
    method CloseDone(ep: Endpoint)
      requires Valid() && Known(ep)
      modifies ep
      ensures Valid() && View() == P.CloseDone(old(View()), ep.gen)
    {
      if unique || !ep.once {
        ep.once := true;
        ep.closes := ep.closes + 1;
      }
    }

    method Withdraw(ep: Endpoint)
      requires Valid() && Known(ep)
      modifies this`reserved, slots, ep`cancelled
      ensures Valid() && View() == P.Withdraw(old(View()), ep.gen)
    {
      Release(ep);
      Clear(ep);
      Cancel(ep);
    }

    /** Whether some instance is ready, as the readiness endpoint reports it. */
    method Ready() returns (ready: bool)
      requires Valid()
      ensures ready <==> exists i :: 0 <= i < slots.Length && View().Live(i)
    {
      for i := 0 to slots.Length
        invariant forall j :: 0 <= j < i ==> !View().Live(j)
      {
        if slots[i].state == P.Ready && slots[i].ep != null && !slots[i].ep.cancelled {
          assert View().Live(i);
          return true;
        }
      }
      return false;
    }

    method ConsecutiveFailures(i: nat) returns (n: nat)
      requires Valid() && i < slots.Length
      ensures n == View().slots[i].fails
    {
      n := slots[i].fails;
    }

    method ReuseActive(ep: Endpoint) returns (n: nat)
      requires Valid() && Known(ep)
      ensures n == View().eps[ep.gen].active
    {
      n := ep.active;
    }
  }

  /** A lease and its finish function. */
  class Lease {
    const pool: Pool
    const ep: Endpoint
    var spent: bool

    constructor (pool: Pool, ep: Endpoint)
      ensures this.pool == pool && this.ep == ep && !spent
    {
      this.pool, this.ep, spent := pool, ep, false;
    }

    /** Finish takes effect once: per endpoint in unique mode, per lease in
        reuse mode. */
    method Finish(err: Option<string>)
      requires pool.Valid() && pool.Known(ep)
      modifies this, pool`failed, pool`completed, pool.slots, ep
      ensures pool.Valid()
      ensures pool.View() ==
        var p, e := old(pool.View()), ep.gen;
        if pool.unique then
          if p.eps[e].once then p else P.CloseDone(P.FinishUnique(p, e, err), e)
        else if old(spent) then p
        else if err.Some? then P.CloseDone(P.FinishReuse(p, e, err), e)
        else P.FinishReuse(p, e, err)
      ensures spent == (if pool.unique then old(spent) else true)
    {
      if pool.unique {
        if !ep.once {
          pool.FinishUnique(ep, err);
          pool.CloseDone(ep);
        }
      } else if !spent {
        spent := true;
        pool.FinishReuse(ep, err);
        if err.Some? {
          pool.CloseDone(ep);
        }
      }
    }
  }
}
