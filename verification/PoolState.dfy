/** The state guarded by the pool lock (internal/app/pool.go), as a value, and
    the meaning of every critical section as a function on it.  Instances are
    numbered from 0; endpoints are numbered in order of creation. */
module PoolState {
  import opened Base
  import opened Store

  datatype SlotState =
    | Starting | Bootstrapping | Checking | Retrying | Rotating
    | Restarting | Errored | Stopped | Ready | Busy

  datatype Slot = Slot(state: SlotState, ep: Option<nat>, fails: nat, requests: nat)

  /** An endpoint: one verified circuit of one instance.  `closes` counts how
      often its done channel was closed; a second close would panic. */
  datatype Ep = Ep(
    slot: nat, ip: IP, cancelled: bool, once: bool,
    closes: nat, lastErr: Option<string>, active: nat)

  /** `notify` identifies the current wake-up channel: it is replaced by the
      next number whenever the channel is closed and remade. */
  datatype Pool = Pool(
    unique: bool, slots: seq<Slot>, reserved: map<IP, nat>, next: nat,
    requests: nat, completed: nat, failed: nat, rejected: nat,
    notify: nat, eps: seq<Ep>, rows: Rows)
  {
    /** Every reference is in range and a slot holds only its own endpoints. */
    ghost predicate WF() {
      && next < |slots|
      && (forall e :: 0 <= e < |eps| ==> eps[e].slot < |slots|)
      && (forall i :: 0 <= i < |slots| && slots[i].ep.Some? ==>
            slots[i].ep.value < |eps| && eps[slots[i].ep.value].slot == i)
      && (forall ip :: ip in reserved ==> reserved[ip] < |eps|)
    }

    /** The test a scan applies before it touches the store. */
    predicate Live(i: nat)
      requires i < |slots| && (slots[i].ep.Some? ==> slots[i].ep.value < |eps|)
    {
      slots[i].state.Ready? && slots[i].ep.Some? && !eps[slots[i].ep.value].cancelled
    }

    predicate Eligible(i: nat)
      requires i < |slots| && (slots[i].ep.Some? ==> slots[i].ep.value < |eps|)
    {
      Live(i) && Matches(rows, eps[slots[i].ep.value].ip, unique)
    }
  }

  function Initial(unique: bool, n: nat, rows: Rows): (p: Pool)
    requires n > 0
    ensures p.WF()
  {
    Pool(unique, seq(n, _ => Slot(Starting, None, 0, 0)), map[], 0, 0, 0, 0, 0, 0, [], rows)
  }

  // ---- endpoints -----------------------------------------------------------

  function Register(p: Pool, slot: nat, ip: IP, cancelled: bool): (q: Pool)
    requires p.WF() && slot < |p.slots|
    ensures q.WF()
  {
    p.(eps := p.eps + [Ep(slot, ip, cancelled, false, 0, None, 0)])
  }

  function Cancel(p: Pool, e: nat): (q: Pool)
    requires e < |p.eps|
    ensures p.WF() ==> q.WF()
  {
    p.(eps := p.eps[e := p.eps[e].(cancelled := true)])
  }

  function CancelAll(p: Pool): (q: Pool)
    ensures p.WF() ==> q.WF()
    ensures |q.eps| == |p.eps|
    ensures forall e :: 0 <= e < |p.eps| ==> q.eps[e] == p.eps[e].(cancelled := true)
  {
    p.(eps := seq(|p.eps|, e requires 0 <= e < |p.eps| => p.eps[e].(cancelled := true)))
  }

  /** `pool.state`: the workers' own progress reports. */
  function SetState(p: Pool, i: nat, state: SlotState): (q: Pool)
    requires i < |p.slots|
    ensures p.WF() ==> q.WF()
  {
    p.(slots := p.slots[i := p.slots[i].(state := state)])
  }

  // ---- publish -------------------------------------------------------------

  datatype PublishResult = Published | NotReady | UsedIP | PublishFailed

  function Publish(p: Pool, e: nat, fault: Fault): (r: (Pool, PublishResult))
    requires p.WF() && e < |p.eps|
    ensures r.0.WF()
  {
    var ep := p.eps[e];
    var q := p.(rows := Observed(p.rows, ep.ip, fault));
    if !fault.Clean? then
      (q, PublishFailed)
    else if p.unique && Used(q.rows, ep.ip) then
      (q, UsedIP)
    else if (p.unique && ep.ip in p.reserved) || ep.cancelled then
      (q, NotReady)
    else
      (q.(slots := p.slots[ep.slot := p.slots[ep.slot].(state := Ready, ep := Some(e))],
          reserved := if p.unique then p.reserved[ep.ip := e] else p.reserved,
          notify := p.notify + 1),
       Published)
  }

  // ---- acquire -------------------------------------------------------------

  datatype Stop = Exhausted | Faulted(at: nat, fault: Fault) | Chosen(at: nat)

  /** The slot visited at offset `k` of a scan. */
  function At(p: Pool, k: nat): (i: nat)
    requires 0 < |p.slots|
    ensures i < |p.slots|
  {
    (p.next + k) % |p.slots|
  }

  /** The part of a scan that only skips: cancels the endpoints whose address
      can no longer be consumed, until a slot stops the scan.  `faults[k]` is
      the fault the store would raise at offset `k`. */
  function Walk(p: Pool, k: nat, faults: seq<Fault>): (r: (Pool, Stop))
    requires p.WF() && k <= |p.slots| == |faults|
    ensures r.0.WF() && |r.0.slots| == |p.slots| && |r.0.eps| == |p.eps|
    ensures r.1 != Exhausted ==> r.1.at < |p.slots| && r.0.Live(r.1.at)
    decreases |p.slots| - k
  {
    if k == |p.slots| then
      (p, Exhausted)
    else
      var i := At(p, k);
      if !p.Live(i) then
        Walk(p, k + 1, faults)
      else if !faults[k].Clean? then
        (p, Faulted(i, faults[k]))
      else if !p.Eligible(i) then
        Walk(Cancel(p, p.slots[i].ep.value), k + 1, faults)
      else
        (p, Chosen(i))
  }

  /** The assignment of the endpoint in slot `i` to a new lease. */
  function Grant(p: Pool, i: nat): (q: Pool)
    requires p.WF() && i < |p.slots| && p.slots[i].ep.Some?
    ensures q.WF()
  {
    var e := p.slots[i].ep.value;
    var s := p.slots[i];
    p.(rows := Consumed(p.rows, p.eps[e].ip, p.unique, Clean),
       slots := p.slots[i := s.(state := if p.unique then Busy else s.state, requests := s.requests + 1)],
       requests := p.requests + 1,
       next := (i + 1) % |p.slots|,
       eps := if p.unique then p.eps else p.eps[e := p.eps[e].(active := p.eps[e].active + 1)])
  }

  datatype ScanResult = NoReady | StoreFailed(ep: nat, fault: Fault) | Granted(slot: nat, ep: nat)

  /** What a scan does where it stops. */
  function Settle(q: Pool, stop: Stop): (r: (Pool, ScanResult))
    requires q.WF() && (stop != Exhausted ==> stop.at < |q.slots| && q.Live(stop.at))
    ensures r.0.WF() && |r.0.slots| == |q.slots| && |r.0.eps| == |q.eps|
    ensures r.1.StoreFailed? || r.1.Granted? ==> r.1.ep < |q.eps|
  {
    match stop
    case Exhausted => (q, NoReady)
    case Faulted(i, fault) =>
      var e := q.slots[i].ep.value;
      (q.(rows := Consumed(q.rows, q.eps[e].ip, q.unique, fault)), StoreFailed(e, fault))
    case Chosen(i) => (Grant(q, i), Granted(i, q.slots[i].ep.value))
  }

  /** One call of acquireLocked, in either mode. */
  function Scan(p: Pool, faults: seq<Fault>): (r: (Pool, ScanResult))
    requires p.WF() && |faults| == |p.slots|
    ensures r.0.WF() && |r.0.slots| == |p.slots| && |r.0.eps| == |p.eps|
    ensures r.1.StoreFailed? || r.1.Granted? ==> r.1.ep < |p.eps|
  {
    var (q, stop) := Walk(p, 0, faults);
    Settle(q, stop)
  }

  function CountRejected(p: Pool): (q: Pool)
    ensures p.WF() ==> q.WF()
  {
    p.(rejected := p.rejected + 1)
  }

  // ---- finish and withdraw -------------------------------------------------

  /** Counters and failure streak, common to both modes. */
  function Account(p: Pool, i: nat, err: Option<string>): (q: Pool)
    requires i < |p.slots|
    ensures p.WF() ==> q.WF()
  {
    if err.Some? then
      p.(failed := p.failed + 1, slots := p.slots[i := p.slots[i].(fails := p.slots[i].fails + 1)])
    else
      p.(completed := p.completed + 1, slots := p.slots[i := p.slots[i].(fails := 0)])
  }

  /** The critical section of a unique-mode Finish, inside the endpoint's once. */
  function FinishUnique(p: Pool, e: nat, err: Option<string>): (q: Pool)
    requires p.WF() && e < |p.eps|
    ensures q.WF()
  {
    var i := p.eps[e].slot;
    var a := Account(p, i, err);
    a.(eps := a.eps[e := a.eps[e].(once := true, lastErr := err)],
       slots := if a.slots[i].ep == Some(e) then a.slots[i := a.slots[i].(state := Rotating)] else a.slots)
  }

  /** A reuse-mode lease comes back: one active lease less, and its error kept. */
  function ReturnLease(p: Pool, e: nat, err: Option<string>): (q: Pool)
    requires p.WF() && e < |p.eps|
    ensures q.WF() && |q.eps| == |p.eps|
  {
    var ep := p.eps[e];
    var a := Account(p, ep.slot, err);
    a.(eps := p.eps[e := ep.(active := if ep.active > 0 then ep.active - 1 else ep.active,
                             lastErr := if err.Some? then err else ep.lastErr)])
  }

  /** Takes endpoint `e` out of its slot if it is still there. */
  function ClearSlot(p: Pool, e: nat): (q: Pool)
    requires p.WF() && e < |p.eps|
    ensures q.WF()
  {
    var i := p.eps[e].slot;
    if p.slots[i].ep == Some(e) then p.(slots := p.slots[i := p.slots[i].(ep := None, state := Rotating)]) else p
  }

  /** The critical section of a reuse-mode Finish, inside the lease's once. */
  function FinishReuse(p: Pool, e: nat, err: Option<string>): (q: Pool)
    requires p.WF() && e < |p.eps|
    ensures q.WF()
  {
    var a := ReturnLease(p, e, err);
    if err.Some? then ClearSlot(a, e) else a
  }

  /** Closing the endpoint's done channel: in unique mode the once was already
      taken by Finish, in reuse mode it is taken here. */
  function CloseDone(p: Pool, e: nat): (q: Pool)
    requires e < |p.eps|
    ensures p.WF() ==> q.WF()
  {
    if !p.unique && p.eps[e].once then p
    else p.(eps := p.eps[e := p.eps[e].(once := true, closes := p.eps[e].closes + 1)])
  }

  function Withdraw(p: Pool, e: nat): (q: Pool)
    requires p.WF() && e < |p.eps|
    ensures q.WF()
  {
    var ep := p.eps[e];
    var i := ep.slot;
    p.(reserved := if ep.ip in p.reserved && p.reserved[ep.ip] == e then p.reserved - {ep.ip} else p.reserved,
       slots := if p.slots[i].ep == Some(e)
                then p.slots[i := p.slots[i].(ep := None, state := Rotating)] else p.slots,
       eps := p.eps[e := ep.(cancelled := true)])
  }
}
