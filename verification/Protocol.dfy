/** The exit-IP lease protocol as a transition system.  One step is one critical
    section or one send/receive of internal/app/pool.go and internal/app/tor.go:
    workers, Acquire calls and Finish calls interleave freely, the store may
    fail on either side of a commit, circuits and control sessions may end at
    any time, and the process may be restarted in the other mode. */
module Protocol {
  import opened Base
  import opened Store
  import opened PoolState

  /** `Held` until Finish takes effect, `Finishing` while the done channel of the
      endpoint is still to be closed by that Finish. */
  datatype Phase = Held | Finishing | Done

  datatype Lease = Lease(ep: nat, phase: Phase)

  /** Entries of the histories that the properties speak about. */
  datatype GrantRecord = GrantRecord(ip: IP, unique: bool)
  datatype FinishRecord = FinishRecord(slot: nat, failed: bool)

  /** How `cycle` or `cycleReuse` returns after it has an endpoint. */
  datatype CycleResult =
    | ServedWell | ServeError(err: string) | ServeFailures(err: string)
    | CircuitClosed | ControlClosed | UsedAddress | NotPublished | StoreError

  datatype Departure = AfterServe(rebuild: bool) | OnCircuit | OnControl

  /** Where a worker is.  `Idle` covers everything outside the part of `cycle`
      that owns an endpoint. */
  datatype Pc =
    | Idle
    | Built(ep: nat)
    | Serving(ep: nat)
    | Draining(ep: nat, rebuild: bool)
    | Leaving(ep: nat, departure: Departure)
    | Closing(ep: nat, result: CycleResult)

  datatype Worker = Worker(pc: Pc, ctrlDone: bool)

  /** Where a call of Acquire is.  `Waiting` remembers the channel it captured. */
  datatype Call =
    | Scanning(final: bool)
    | Waiting(notify: nat)
    | Rejecting
    | GotLease(lease: nat)
    | GotNoReady
    | GotError

  /** `ended`: endpoints whose circuit, control session or application has ended
      by itself.  `closed`: endpoints whose circuit the worker has closed.
      `tainted`: addresses whose consumption was committed but reported as failed. */
  datatype Sys = Sys(
    pool: Pool, workers: seq<Worker>, leases: seq<Lease>, calls: seq<Call>,
    finishes: seq<FinishRecord>, grants: seq<GrantRecord>,
    ended: set<nat>, closed: set<nat>, tainted: set<IP>, appDone: bool)
  {
    ghost predicate WF() {
      && pool.WF()
      && |workers| == |pool.slots|
      && (forall w :: 0 <= w < |workers| && !workers[w].pc.Idle? ==>
            workers[w].pc.ep < |pool.eps| && pool.eps[workers[w].pc.ep].slot == w)
      && (forall l :: 0 <= l < |leases| ==> leases[l].ep < |pool.eps|)
    }
  }

  datatype WorkerStep =
    | Report(state: SlotState)
    | Build(ip: IP)
    | TryPublish(fault: Fault)
    | SeeDone
    | SeeCircuit
    | SeeControl
    | DrainEmpty
    | DrainAbort
    | TakeBack
    | CloseCircuit

  datatype WorldStep =
    | ControlLost(w: nat)
    | NewSession(w: nat)
    | CircuitEnds(ep: nat)
    | AppEnds
    | Restart(unique: bool, n: nat)

  datatype CallStep =
    | Begin
    | ScanSlots(faults: seq<Fault>, late: bool)
    | Wake
    | Timeout
    | Abandon
    | Reject

  datatype LeaseStep =
    | Finish(err: Option<string>)
    | SignalDone

  datatype Step =
    | ByWorker(w: nat, worker: WorkerStep)
    | ByWorld(world: WorldStep)
    | ByCall(c: nat, call: CallStep)
    | ByLease(l: nat, lease: LeaseStep)

  ghost predicate Init(s: Sys) {
    exists unique: bool, n: nat, rows: Rows :: n > 0 && s == Fresh(unique, n, rows, [])
  }

  function Fresh(unique: bool, n: nat, rows: Rows, grants: seq<GrantRecord>): (s: Sys)
    requires n > 0
    ensures s.WF()
  {
    Sys(Initial(unique, n, rows), seq(n, _ => Worker(Idle, false)), [], [], [], grants, {}, {}, {}, false)
  }

  // ---- when a step may happen ----------------------------------------------

  ghost predicate WorkerEnabled(s: Sys, w: nat, step: WorkerStep)
    requires s.WF()
  {
    && w < |s.workers|
    && var Worker(pc, ctrlDone) := s.workers[w];
       match step
       case Report(state) => pc.Idle? && !state.Ready? && !state.Busy?
       case Build(ip) => pc.Idle? && !ctrlDone
       case TryPublish(fault) => pc.Built?
       case SeeDone => pc.Serving? && s.pool.eps[pc.ep].closes > 0
       case SeeCircuit => pc.Serving? && s.pool.eps[pc.ep].cancelled
       case SeeControl => pc.Serving? && ctrlDone
       case DrainEmpty => pc.Draining? && s.pool.eps[pc.ep].active == 0
       case DrainAbort => pc.Draining? && (s.pool.eps[pc.ep].cancelled || ctrlDone || s.appDone)
       case TakeBack => pc.Leaving?
       case CloseCircuit => pc.Closing?
  }

  ghost predicate WorldEnabled(s: Sys, step: WorldStep)
    requires s.WF()
  {
    match step
    case ControlLost(w) => w < |s.workers|
    case NewSession(w) => w < |s.workers| && s.workers[w].pc.Idle?
    case CircuitEnds(e) => e < |s.pool.eps|
    case AppEnds => true
    case Restart(unique, n) => n > 0
  }

  ghost predicate CallEnabled(s: Sys, c: nat, step: CallStep)
    requires s.WF()
  {
    if step.Begin? then c == |s.calls|
    else
      && c < |s.calls|
      && match step
         case Begin => false
         case ScanSlots(faults, late) => s.calls[c].Scanning? && |faults| == |s.pool.slots|
         case Wake => s.calls[c].Waiting? && s.calls[c].notify != s.pool.notify
         case Timeout => s.calls[c].Waiting?
         case Abandon => s.calls[c].Waiting?
         case Reject => s.calls[c].Rejecting?
  }

  ghost predicate LeaseEnabled(s: Sys, l: nat, step: LeaseStep)
    requires s.WF()
  {
    l < |s.leases| && (step.SignalDone? ==> s.leases[l].phase.Finishing?)
  }

  ghost predicate Enabled(s: Sys, step: Step)
    requires s.WF()
  {
    match step
    case ByWorker(w, ws) => WorkerEnabled(s, w, ws)
    case ByWorld(es) => WorldEnabled(s, es)
    case ByCall(c, cs) => CallEnabled(s, c, cs)
    case ByLease(l, ls) => LeaseEnabled(s, l, ls)
  }

  // ---- what a step does ----------------------------------------------------

  function Move(s: Sys, w: nat, pc: Pc): Sys
    requires w < |s.workers|
  {
    s.(workers := s.workers[w := s.workers[w].(pc := pc)])
  }

  function Depart(s: Sys, w: nat, departure: Departure): Sys
    requires w < |s.workers| && !s.workers[w].pc.Idle?
  {
    Move(s, w, Leaving(s.workers[w].pc.ep, departure))
  }

  function DoReport(s: Sys, w: nat, state: SlotState): Sys
    requires w < |s.pool.slots|
  {
    s.(pool := SetState(s.pool, w, state))
  }

  function DoBuild(s: Sys, w: nat, ip: IP): Sys
    requires s.WF() && w < |s.workers|
  {
    var e := |s.pool.eps|;
    Move(s, w, Built(e)).(
      pool := Register(s.pool, w, ip, s.appDone),
      ended := if s.appDone then s.ended + {e} else s.ended)
  }

  function DoPublish(s: Sys, w: nat, fault: Fault): Sys
    requires s.WF() && w < |s.workers| && s.workers[w].pc.Built?
  {
    var e := s.workers[w].pc.ep;
    var (q, r) := Publish(s.pool, e, fault);
    var pc := match r
              case Published => Serving(e)
              case NotReady => Closing(e, NotPublished)
              case UsedIP => Closing(e, UsedAddress)
              case PublishFailed => Closing(e, StoreError);
    Move(s, w, pc).(pool := q)
  }

  const MAX_SERVE_FAILURES: nat := 3

  /** `<-ep.done`: the failure streak decides whether the instance is rebuilt. */
  function DoSeeDone(s: Sys, w: nat): Sys
    requires s.WF() && w < |s.workers| && s.workers[w].pc.Serving?
  {
    var e := s.workers[w].pc.ep;
    var rebuild := s.pool.eps[e].lastErr.Some? && s.pool.slots[w].fails >= MAX_SERVE_FAILURES;
    if s.pool.unique then Depart(s, w, AfterServe(rebuild)) else Move(s, w, Draining(e, rebuild))
  }

  function ResultOf(departure: Departure, lastErr: Option<string>): CycleResult {
    match departure
    case OnCircuit => CircuitClosed
    case OnControl => ControlClosed
    case AfterServe(rebuild) =>
      if lastErr.None? then ServedWell
      else if rebuild then ServeFailures(lastErr.value) else ServeError(lastErr.value)
  }

  function DoTakeBack(s: Sys, w: nat): Sys
    requires s.WF() && w < |s.workers| && s.workers[w].pc.Leaving?
  {
    var pc := s.workers[w].pc;
    Move(s, w, Closing(pc.ep, ResultOf(pc.departure, s.pool.eps[pc.ep].lastErr))).(
      pool := Withdraw(s.pool, pc.ep))
  }

  function DoClose(s: Sys, w: nat): Sys
    requires s.WF() && w < |s.workers| && s.workers[w].pc.Closing?
  {
    var e := s.workers[w].pc.ep;
    Move(s, w, Idle).(pool := Cancel(s.pool, e), closed := s.closed + {e})
  }

  function Owned(pc: Pc): set<nat> {
    if pc.Idle? then {} else {pc.ep}
  }

  /** What call `c` and the histories make of a scan that left `q` with result `r`. */
  function AfterScan(s: Sys, c: nat, q: Pool, r: ScanResult, late: bool): Sys
    requires c < |s.calls| && s.calls[c].Scanning?
    requires r.StoreFailed? || r.Granted? ==> r.ep < |q.eps|
  {
    match r
    case NoReady =>
      s.(pool := q, calls := s.calls[c := if s.calls[c].final || late then Rejecting else Waiting(q.notify)])
    case StoreFailed(e, fault) =>
      s.(pool := q, calls := s.calls[c := GotError],
         tainted := if fault.FailedAfter? then s.tainted + {q.eps[e].ip} else s.tainted)
    case Granted(i, e) =>
      s.(pool := q, calls := s.calls[c := GotLease(|s.leases|)],
         leases := s.leases + [Lease(e, Held)],
         grants := s.grants + [GrantRecord(q.eps[e].ip, q.unique)])
  }

  function DoScan(s: Sys, c: nat, faults: seq<Fault>, late: bool): Sys
    requires s.WF() && c < |s.calls| && s.calls[c].Scanning? && |faults| == |s.pool.slots|
  {
    var (q, r) := Scan(s.pool, faults);
    AfterScan(s, c, q, r, late)
  }

  /** Whether this Finish is the first one to take effect: the once belongs to
      the endpoint in unique mode and to the lease in reuse mode. */
  predicate FirstFinish(s: Sys, l: nat)
    requires s.WF() && l < |s.leases|
  {
    if s.pool.unique then !s.pool.eps[s.leases[l].ep].once else s.leases[l].phase.Held?
  }

  function DoFinish(s: Sys, l: nat, err: Option<string>): Sys
    requires s.WF() && l < |s.leases|
  {
    var e := s.leases[l].ep;
    if !FirstFinish(s, l) then s
    else
      var signals := s.pool.unique || err.Some?;
      s.(pool := if s.pool.unique then FinishUnique(s.pool, e, err) else FinishReuse(s.pool, e, err),
         leases := s.leases[l := s.leases[l].(phase := if signals then Finishing else Done)],
         finishes := s.finishes + [FinishRecord(s.pool.eps[e].slot, err.Some?)])
  }

  function DoSignal(s: Sys, l: nat): Sys
    requires s.WF() && l < |s.leases|
  {
    s.(pool := CloseDone(s.pool, s.leases[l].ep), leases := s.leases[l := s.leases[l].(phase := Done)])
  }

  function DoCircuitEnds(s: Sys, e: nat): Sys
    requires e < |s.pool.eps|
  {
    s.(pool := Cancel(s.pool, e), ended := s.ended + {e})
  }

  function DoAppEnds(s: Sys): Sys {
    s.(pool := CancelAll(s.pool), ended := s.ended + Below(|s.pool.eps|), appDone := true)
  }

  function DoControlLost(s: Sys, w: nat): Sys
    requires w < |s.workers|
  {
    s.(workers := s.workers[w := s.workers[w].(ctrlDone := true)], ended := s.ended + Owned(s.workers[w].pc))
  }

  function DoReject(s: Sys, c: nat): Sys
    requires c < |s.calls|
  {
    s.(pool := CountRejected(s.pool), calls := s.calls[c := GotNoReady])
  }

  function SetCall(s: Sys, c: nat, call: Call): Sys
    requires c < |s.calls|
  {
    s.(calls := s.calls[c := call])
  }

  function ApplyWorker(s: Sys, w: nat, step: WorkerStep): Sys
    requires s.WF() && WorkerEnabled(s, w, step)
  {
    match step
    case Report(state) => DoReport(s, w, state)
    case Build(ip) => DoBuild(s, w, ip)
    case TryPublish(fault) => DoPublish(s, w, fault)
    case SeeDone => DoSeeDone(s, w)
    case SeeCircuit => Depart(s, w, OnCircuit)
    case SeeControl => Depart(s, w, OnControl)
    case DrainEmpty => Depart(s, w, AfterServe(s.workers[w].pc.rebuild))
    case DrainAbort => Depart(s, w, AfterServe(s.workers[w].pc.rebuild))
    case TakeBack => DoTakeBack(s, w)
    case CloseCircuit => DoClose(s, w)
  }

  function ApplyWorld(s: Sys, step: WorldStep): Sys
    requires s.WF() && WorldEnabled(s, step)
  {
    match step
    case ControlLost(w) => DoControlLost(s, w)
    case NewSession(w) => s.(workers := s.workers[w := s.workers[w].(ctrlDone := false)])
    case CircuitEnds(e) => DoCircuitEnds(s, e)
    case AppEnds => DoAppEnds(s)
    case Restart(unique, n) => Fresh(unique, n, s.pool.rows, s.grants)
  }

  function ApplyCall(s: Sys, c: nat, step: CallStep): Sys
    requires s.WF() && CallEnabled(s, c, step)
  {
    match step
    case Begin => s.(calls := s.calls + [Scanning(false)])
    case ScanSlots(faults, late) => DoScan(s, c, faults, late)
    case Wake => SetCall(s, c, Scanning(false))
    case Timeout => SetCall(s, c, Scanning(true))
    case Abandon => SetCall(s, c, GotError)
    case Reject => DoReject(s, c)
  }

  function ApplyLease(s: Sys, l: nat, step: LeaseStep): Sys
    requires s.WF() && LeaseEnabled(s, l, step)
  {
    match step
    case Finish(err) => DoFinish(s, l, err)
    case SignalDone => DoSignal(s, l)
  }

  function Apply(s: Sys, step: Step): Sys
    requires s.WF() && Enabled(s, step)
  {
    match step
    case ByWorker(w, ws) => ApplyWorker(s, w, ws)
    case ByWorld(es) => ApplyWorld(s, es)
    case ByCall(c, cs) => ApplyCall(s, c, cs)
    case ByLease(l, ls) => ApplyLease(s, l, ls)
  }
}
