/** Request handlers on top of the lease protocol: each one asks for a lease, uses
    it, finishes it and may try again, while all others, the workers and the
    outside world go on in between. */
module Handlers {
  import opened Base
  import opened Store
  import opened PoolState
  import opened ScanLaws
  import opened Protocol
  import opened Counting
  import opened Invariant
  import opened OtherSteps
  import opened Runs
  import opened LeaseRecords
  import F = Failover

  /** Where a handler is: about to choose another instance, waiting in Acquire,
      using its lease, about to finish it; or it has replied, or ended by a panic. */
  datatype Stage = Choosing | Asking | Using | Returning | Replied | Crashed

  /** `calls` are its calls of Acquire, `tried` its attempts, `met` what it met in
      each round of its loop. */
  datatype Handler =
    Handler(request: F.Request, calls: seq<nat>, tried: seq<F.Attempt>, met: seq<F.Round>, stage: Stage)
  {
    predicate Asks() { calls != [] }

    function Call(): nat
      requires Asks()
    {
      calls[|calls| - 1]
    }

    function Last(): F.Attempt
      requires tried != []
    {
      tried[|tried| - 1]
    }
  }

  /** `owners[c]` is the handler that made call `c`. */
  datatype World = World(sys: Sys, handlers: seq<Handler>, owners: seq<nat>)

  datatype HStep =
    | Arrive(request: F.Request)
    | Ask(h: nat)
    | GoOn(h: nat, call: CallStep)
    | Take(h: nat)
    | Refused(h: nat)
    | GiveUp(h: nat)
    | Try(h: nat, trip: F.Trip)
    | Return(h: nat)
    | Background(step: Step)

  /** The steps of workers, of the outside world and of a Finish that signals. */
  predicate Outside(step: Step) {
    step.ByWorker? || step.ByWorld? || (step.ByLease? && step.lease.SignalDone?)
  }

  predicate At(w: World, h: nat, stage: Stage) {
    h < |w.handlers| && w.handlers[h].stage == stage
  }

  /** The handler is in, or has just returned from, a call of Acquire. */
  predicate InCall(w: World, h: nat) {
    At(w, h, Asking) && w.handlers[h].Asks() && w.handlers[h].Call() < |w.sys.calls|
  }

  predicate HasLease(w: World, h: nat) {
    && h < |w.handlers| && w.handlers[h].Asks() && w.handlers[h].Call() < |w.sys.calls|
    && w.sys.calls[w.handlers[h].Call()].GotLease?
  }

  ghost predicate HEnabled(w: World, step: HStep) {
    && w.sys.WF()
    && match step
       case Arrive(_) => true
       case Ask(h) => At(w, h, Choosing) && |w.handlers[h].tried| < |w.sys.pool.slots|
       case GoOn(h, cs) => InCall(w, h) && !cs.Begin? && CallEnabled(w.sys, w.handlers[h].Call(), cs)
       case Take(h) => At(w, h, Asking) && HasLease(w, h)
       case Refused(h) =>
         InCall(w, h) && var call := w.sys.calls[w.handlers[h].Call()]; call.GotNoReady? || call.GotError?
       case GiveUp(h) =>
         At(w, h, Choosing) && (w.handlers[h].tried != [] || |w.handlers[h].tried| >= |w.sys.pool.slots|)
       case Try(h, trip) => At(w, h, Using) && HasLease(w, h)
       case Return(h) =>
         At(w, h, Returning) && w.handlers[h].tried != [] && w.handlers[h].Last().outcome.Returned? &&
         w.handlers[h].Last().lease < |w.sys.leases|
       case Background(ps) => Outside(ps) && Enabled(w.sys, ps)
  }

  function Put(w: World, h: nat, handler: Handler): World
    requires h < |w.handlers|
  {
    w.(handlers := w.handlers[h := handler])
  }

  /** The step of the protocol that goes with a step, if any. */
  function Beneath(w: World, step: HStep): Option<Step>
    requires HEnabled(w, step)
  {
    match step
    case Ask(_) => Some(ByCall(|w.sys.calls|, Begin))
    case GoOn(h, cs) => Some(ByCall(w.handlers[h].Call(), cs))
    case Return(h) =>
      var a := w.handlers[h].Last();
      Some(ByLease(a.lease, Finish(if a.outcome.err.Some? then Some(a.outcome.err.value.text) else None)))
    case Background(ps) => Some(ps)
    case _ => None
  }

  /** For rounds that come to no attempt. */
  const NO_TRIP := F.NoConnection(F.Failure("", false))

  /** A handler replies without another attempt. */
  function Stops(me: Handler, round: F.Round): Handler {
    me.(met := me.met + [round], stage := Replied)
  }

  /** What a step makes of the handlers. */
  function Handled(w: World, step: HStep): World
    requires HEnabled(w, step)
  {
    match step
    case Arrive(request) => w.(handlers := w.handlers + [Handler(request, [], [], [], Choosing)])
    case Ask(h) =>
      var me := w.handlers[h];
      Put(w, h, me.(calls := me.calls + [|w.sys.calls|], stage := Asking)).(owners := w.owners + [h])
    case GoOn(h, cs) => w
    case Take(h) => Put(w, h, w.handlers[h].(stage := Using))
    case Refused(h) =>
      var me := w.handlers[h];
      var result := if w.sys.calls[me.Call()].GotNoReady? then F.NoReady else F.OtherError;
      Put(w, h, Stops(me, F.Round(false, result, NO_TRIP)))
    case GiveUp(h) =>
      var me := w.handlers[h];
      Put(w, h, if |me.tried| < |w.sys.pool.slots| then Stops(me, F.Round(true, F.NoReady, NO_TRIP))
                else me.(stage := Replied))
    case Try(h, trip) =>
      var me := w.handlers[h];
      var outcome := F.OutcomeOf(me.request, trip);
      var a := F.Attempt(w.sys.calls[me.Call()].lease, outcome);
      Put(w, h, me.(tried := me.tried + [a], met := me.met + [F.Round(false, F.Granted(a.lease), trip)],
                    stage := if outcome.Panicked? then Crashed else Returning))
    case Return(h) =>
      var me := w.handlers[h];
      Put(w, h, me.(stage := if F.MayRetry(me.request, me.Last().outcome) then Choosing else Replied))
    case Background(ps) => if IsRestart(ps) then w.(handlers := [], owners := []) else w
  }

  function HApply(w: World, step: HStep): World
    requires HEnabled(w, step)
  {
    var beneath := Beneath(w, step);
    Handled(w, step).(sys := if beneath.None? then w.sys else Apply(w.sys, beneath.value))
  }

  // ---- the invariant -------------------------------------------------------

  predicate Holds(s: Sys, l: nat) {
    l < |s.leases| && s.leases[l].phase.Held?
  }

  /** Its calls are its own, in order, and all but the current one led to attempts. */
  ghost predicate CallsOk(w: World, h: nat)
    requires h < |w.handlers|
  {
    var me, n := w.handlers[h], |w.handlers[h].tried|;
    && (forall i :: 0 <= i < |me.calls| ==>
          me.calls[i] < |w.sys.calls| && me.calls[i] < |w.owners| && w.owners[me.calls[i]] == h)
    && (forall i, j :: 0 <= i < j < |me.calls| ==> me.calls[i] < me.calls[j])
    && (forall i :: 0 <= i < n && i < |me.calls| ==> w.sys.calls[me.calls[i]] == GotLease(me.tried[i].lease))
    && n <= |w.sys.pool.slots|
    && match me.stage
       case Asking => |me.calls| == n + 1 && n < |w.sys.pool.slots|
       case Using => |me.calls| == n + 1 && n < |w.sys.pool.slots| && HasLease(w, h)
       case Replied => |me.calls| == n || (|me.calls| == n + 1 && !HasLease(w, h))
       case _ => |me.calls| == n
  }

  /** Only the current lease is outstanding, and it is until it is finished. */
  ghost predicate HoldsOk(w: World, h: nat)
    requires h < |w.handlers|
  {
    var me, n := w.handlers[h], |w.handlers[h].tried|;
    && (forall i :: 0 <= i < n ==>
          (Holds(w.sys, me.tried[i].lease) <==> i == n - 1 && (me.stage.Returning? || me.stage.Crashed?)))
    && ((me.stage.Asking? || me.stage.Using?) && HasLease(w, h) ==> Holds(w.sys, w.sys.calls[me.Call()].lease))
  }

  /** It went on only after attempts that may be retried. */
  ghost predicate TriesOk(me: Handler) {
    var n := |me.tried|;
    && (forall i :: 0 <= i < n - 1 ==> F.MayRetry(me.request, me.tried[i].outcome))
    && (me.stage.Choosing? || me.stage.Asking? || me.stage.Using? ==>
          n > 0 ==> F.MayRetry(me.request, me.tried[n - 1].outcome))
    && (me.stage.Returning? || me.stage.Replied? ==> n > 0 ==> me.tried[n - 1].outcome.Returned?)
    && (me.stage.Returning? ==> n > 0)
    && (me.stage.Crashed? ==> n > 0 && me.tried[n - 1].outcome.Panicked?)
  }

  ghost predicate HandlerOk(w: World, h: nat)
    requires h < |w.handlers|
  {
    CallsOk(w, h) && HoldsOk(w, h) && TriesOk(w.handlers[h])
  }

  ghost predicate HInv(w: World) {
    && Inv(w.sys) && Records(w.sys)
    && |w.owners| == |w.sys.calls|
    && forall h :: 0 <= h < |w.handlers| ==> HandlerOk(w, h)
  }

  // ---- what a step of the protocol leaves alone ----------------------------

  /** No call but `call` moved and no lease but `lease` was finished. */
  ghost predicate Kept(s: Sys, t: Sys, call: Option<nat>, lease: Option<nat>) {
    && |s.calls| <= |t.calls| && |s.leases| <= |t.leases| && |t.pool.slots| == |s.pool.slots|
    && (forall c {:trigger t.calls[c]} :: 0 <= c < |s.calls| && call != Some(c) ==> t.calls[c] == s.calls[c])
    && (forall l {:trigger t.leases[l]} :: 0 <= l < |s.leases| && lease != Some(l) ==>
          (t.leases[l].phase.Held? <==> s.leases[l].phase.Held?))
  }

  function Moved(step: Step): Option<nat> { if step.ByCall? then Some(step.c) else None }

  function Freed(step: Step): Option<nat> { if step.ByLease? && step.lease.Finish? then Some(step.l) else None }

  lemma {:induction false} WorkerLeaves(s: Sys, w: nat, step: WorkerStep)
    requires s.WF() && WorkerEnabled(s, w, step)
    ensures Kept(s, ApplyWorker(s, w, step), None, None)
  {}

  lemma {:induction false} FinishLeaves(s: Sys, l: nat, err: Option<string>)
    requires s.WF() && LeaseEnabled(s, l, Finish(err))
    ensures Kept(s, DoFinish(s, l, err), None, Some(l))
  {}

  lemma {:induction false} CallLeaves(s: Sys, c: nat, step: CallStep)
    requires s.WF() && CallEnabled(s, c, step)
    ensures Kept(s, ApplyCall(s, c, step), Some(c), None)
    ensures var t := ApplyCall(s, c, step);
      c < |t.calls| && (t.calls[c].GotLease? ==> Holds(t, t.calls[c].lease) && t.calls[c].lease >= |s.leases|)
  {
    if step.ScanSlots? {
      ScanHasEffect(s.pool, step.faults);
    }
  }

  lemma {:induction false} StepLeaves(s: Sys, step: Step, t: Sys)
    requires IsStep(s, step, t) && !IsRestart(step)
    ensures Kept(s, t, Moved(step), Freed(step))
  {
    match step {
      case ByWorker(w, ws) => WorkerLeaves(s, w, ws);
      case ByWorld(es) =>
      case ByCall(c, cs) => CallLeaves(s, c, cs);
      case ByLease(l, ls) =>
        match ls {
          case Finish(err) => FinishLeaves(s, l, err);
          case SignalDone =>
        }
    }
  }

  /** A handler's own Finish takes effect. */
  lemma {:induction false} OwnFinishFrees(s: Sys, l: nat, err: Option<string>)
    requires Inv(s) && Holds(s, l)
    ensures !Holds(DoFinish(s, l, err), l)
  {
    Counted(s.leases, l);
    assert EpOk(s, s.leases[l].ep);
  }

  // ---- handlers that did not move ------------------------------------------

  /** Nothing in this step concerns handler `h`. */
  ghost predicate Elsewhere(w: World, h: nat, call: Option<nat>, lease: Option<nat>)
    requires h < |w.handlers|
  {
    var me := w.handlers[h];
    && (call.Some? ==> forall i :: 0 <= i < |me.calls| ==> me.calls[i] != call.value)
    && (lease.Some? ==>
          && (forall i :: 0 <= i < |me.tried| ==> me.tried[i].lease != lease.value)
          && (HasLease(w, h) ==> w.sys.calls[me.Call()].lease != lease.value))
  }

  lemma {:induction false} StaysCalls(w: World, v: World, h: nat, call: Option<nat>, lease: Option<nat>)
    requires h < |w.handlers| && h < |v.handlers| && v.handlers[h] == w.handlers[h] && CallsOk(w, h)
    requires Kept(w.sys, v.sys, call, lease) && w.owners <= v.owners && Elsewhere(w, h, call, lease)
    ensures CallsOk(v, h)
    ensures HasLease(v, h) == HasLease(w, h)
    ensures HasLease(w, h) ==> v.sys.calls[w.handlers[h].Call()] == w.sys.calls[w.handlers[h].Call()]
  {
    var me := w.handlers[h];
    forall i | 0 <= i < |me.calls| ensures v.sys.calls[me.calls[i]] == w.sys.calls[me.calls[i]] {}
  }

  lemma {:induction false} StaysOk(w: World, v: World, h: nat, call: Option<nat>, lease: Option<nat>)
    requires h < |w.handlers| && h < |v.handlers| && v.handlers[h] == w.handlers[h]
    requires HandlerOk(w, h) && CallsApart(w.sys)
    requires Kept(w.sys, v.sys, call, lease) && w.owners <= v.owners && Elsewhere(w, h, call, lease)
    ensures HandlerOk(v, h)
  {
    StaysCalls(w, v, h, call, lease);
    var me := w.handlers[h];
    forall i | 0 <= i < |me.tried| ensures Holds(v.sys, me.tried[i].lease) <==> Holds(w.sys, me.tried[i].lease) {
      assert w.sys.calls[me.calls[i]] == GotLease(me.tried[i].lease);
    }
  }

  /** The calls of another handler are elsewhere. */
  lemma {:induction false} OthersElsewhere(w: World, h: nat, g: nat, call: Option<nat>, lease: Option<nat>)
    requires h < |w.handlers| && g < |w.handlers| && g != h && CallsApart(w.sys)
    requires HandlerOk(w, h) && HandlerOk(w, g)
    requires call.Some? ==> call.value >= |w.owners| || w.owners[call.value] == g
    requires lease.Some? ==>
      exists c :: 0 <= c < |w.sys.calls| && c < |w.owners| && w.owners[c] == g
                  && w.sys.calls[c] == GotLease(lease.value)
    ensures Elsewhere(w, h, call, lease)
  {
    if lease.Some? {
      var c :| 0 <= c < |w.sys.calls| && c < |w.owners| && w.owners[c] == g && w.sys.calls[c] == GotLease(lease.value);
      var me := w.handlers[h];
      forall i | 0 <= i < |me.calls| && w.sys.calls[me.calls[i]].GotLease?
        ensures w.sys.calls[me.calls[i]].lease != lease.value
      {
        assert me.calls[i] != c;
      }
    }
  }

  // ---- every step keeps the invariant --------------------------------------

  /** What is beneath the handlers keeps its own invariants. */
  lemma {:induction false} BeneathKeeps(w: World, step: HStep)
    requires HInv(w) && HEnabled(w, step)
    ensures Beneath(w, step).Some? ==> Enabled(w.sys, Beneath(w, step).value)
    ensures Inv(HApply(w, step).sys) && Records(HApply(w, step).sys)
    ensures |HApply(w, step).owners| == |HApply(w, step).sys.calls|
    ensures Beneath(w, step).Some? && !(step.Background? && IsRestart(step.step)) ==>
      Kept(w.sys, HApply(w, step).sys, Moved(Beneath(w, step).value), Freed(Beneath(w, step).value))
  {
    var beneath := Beneath(w, step);
    if beneath.Some? {
      var t := Apply(w.sys, beneath.value);
      StepKeeps(w.sys, beneath.value);
      StepKeepsRecords(w.sys, beneath.value, t);
      if !IsRestart(beneath.value) {
        StepLeaves(w.sys, beneath.value, t);
        CallCount(w.sys, beneath.value);
      }
    }
  }

  lemma {:induction false} CallCount(s: Sys, step: Step)
    requires s.WF() && Enabled(s, step) && !IsRestart(step)
    ensures |Apply(s, step).calls| == |s.calls| + if step.ByCall? && step.call.Begin? then 1 else 0
  {
    match step {
      case ByWorker(w, ws) =>
      case ByWorld(es) =>
      case ByLease(l, ls) =>
      case ByCall(c, cs) =>
    }
  }

  /** A handler that has just asked has no lease of its new call. */
  lemma {:induction false} AskOk(w: World, h: nat)
    requires HEnabled(w, Ask(h)) && HandlerOk(w, h) && CallsApart(w.sys) && |w.owners| == |w.sys.calls|
    ensures HandlerOk(HApply(w, Ask(h)), h)
  {
    var v := HApply(w, Ask(h));
    assert v == w.(handlers := v.handlers, owners := w.owners + [h],
                   sys := w.sys.(calls := w.sys.calls + [Scanning(false)]));
    AskedCalls(w, v, h);
    AskedHolds(w, v, h);
  }

  ghost predicate Asked(w: World, v: World, h: nat) {
    && |w.owners| == |w.sys.calls| && At(w, h, Choosing) && |w.handlers[h].tried| < |w.sys.pool.slots|
    && h < |v.handlers|
    && v.handlers[h] == w.handlers[h].(calls := w.handlers[h].calls + [|w.sys.calls|], stage := Asking)
    && v == w.(handlers := v.handlers, owners := w.owners + [h],
               sys := w.sys.(calls := w.sys.calls + [Scanning(false)]))
  }

  lemma {:induction false} AskedCalls(w: World, v: World, h: nat)
    requires Asked(w, v, h) && CallsOk(w, h)
    ensures CallsOk(v, h)
  {
    var me := w.handlers[h];
    forall i | 0 <= i < |me.calls| ensures v.sys.calls[me.calls[i]] == w.sys.calls[me.calls[i]] {}
  }

  lemma {:induction false} AskedHolds(w: World, v: World, h: nat)
    requires Asked(w, v, h) && HoldsOk(w, h) && TriesOk(w.handlers[h])
    ensures HoldsOk(v, h) && TriesOk(v.handlers[h])
  {
    assert !HasLease(v, h);
  }

  /** Its own call moved, and may have got a new lease. */
  lemma {:induction false} GoOnOk(w: World, v: World, h: nat)
    requires InCall(w, h) && HandlerOk(w, h) && CallsApart(w.sys) && v == w.(sys := v.sys)
    requires Kept(w.sys, v.sys, Some(w.handlers[h].Call()), None)
    requires HasLease(v, h) ==> Holds(v.sys, v.sys.calls[w.handlers[h].Call()].lease)
    ensures HandlerOk(v, h)
  {
    var me := w.handlers[h];
    forall i | 0 <= i < |me.tried|
      ensures v.sys.calls[me.calls[i]] == w.sys.calls[me.calls[i]] && me.tried[i].lease < |w.sys.leases|
      ensures Holds(v.sys, me.tried[i].lease) <==> Holds(w.sys, me.tried[i].lease)
    {
      assert w.sys.calls[me.calls[i]] == GotLease(me.tried[i].lease);
    }
  }

  /** `v` differs from `w` only in handler `h`. */
  ghost predicate OnlyHandler(w: World, v: World, h: nat) {
    v.sys == w.sys && v.owners == w.owners && h < |w.handlers| && h < |v.handlers|
  }

  /** It notices what its call has come to, or gives up. */
  lemma {:induction false} QuietOk(w: World, v: World, h: nat, stage: Stage)
    requires OnlyHandler(w, v, h) && HandlerOk(w, h)
    requires v.handlers[h] == w.handlers[h].(met := v.handlers[h].met, stage := stage)
    requires if stage.Using? then At(w, h, Asking) && HasLease(w, h)
             else stage.Replied? && (At(w, h, Choosing) || (At(w, h, Asking) && !HasLease(w, h)))
    ensures HandlerOk(v, h)
  {}

  lemma {:induction false} TryOk(w: World, v: World, h: nat, a: F.Attempt)
    requires OnlyHandler(w, v, h) && HandlerOk(w, h) && CallsApart(w.sys)
    requires At(w, h, Using) && HasLease(w, h) && a.lease == w.sys.calls[w.handlers[h].Call()].lease
    requires v.handlers[h] ==
      w.handlers[h].(tried := w.handlers[h].tried + [a], met := v.handlers[h].met,
                     stage := if a.outcome.Panicked? then Crashed else Returning)
    ensures HandlerOk(v, h)
  {
    var me := w.handlers[h];
    forall i | 0 <= i < |me.tried| ensures me.tried[i].lease != a.lease {
      assert w.sys.calls[me.calls[i]] == GotLease(me.tried[i].lease);
    }
  }

  /** Its own lease is finished. */
  lemma {:induction false} ReturnOk(w: World, v: World, h: nat)
    requires HEnabled(w, Return(h)) && HandlerOk(w, h) && CallsApart(w.sys)
    requires v == Handled(w, Return(h)).(sys := v.sys)
    requires Kept(w.sys, v.sys, None, Some(w.handlers[h].Last().lease)) && !Holds(v.sys, w.handlers[h].Last().lease)
    ensures HandlerOk(v, h)
  {
    var me := w.handlers[h];
    var n := |me.tried|;
    forall i | 0 <= i < n
      ensures v.sys.calls[me.calls[i]] == w.sys.calls[me.calls[i]]
      ensures !Holds(v.sys, me.tried[i].lease)
    {
      assert w.sys.calls[me.calls[i]] == GotLease(me.tried[i].lease);
    }
  }

  lemma {:induction false} ArriveKeeps(w: World, request: F.Request)
    requires HInv(w) && HEnabled(w, Arrive(request))
    ensures HInv(HApply(w, Arrive(request)))
  {
    var v := HApply(w, Arrive(request));
    forall h | 0 <= h < |v.handlers| ensures HandlerOk(v, h) {
      if h < |w.handlers| {
        SameOk(w, v, h);
      }
    }
  }

  lemma {:induction false} SameOk(w: World, v: World, h: nat)
    requires h < |w.handlers| && h < |v.handlers| && v.handlers[h] == w.handlers[h]
    requires v.sys == w.sys && v.owners == w.owners && HandlerOk(w, h)
    ensures HandlerOk(v, h)
  {}

  /** The handler that a step belongs to. */
  function Actor(step: HStep): Option<nat> {
    match step
    case Arrive(_) => None
    case Background(_) => None
    case _ => Some(step.h)
  }

  lemma {:induction false} GoOnOwn(w: World, h: nat, call: CallStep)
    requires HInv(w) && HEnabled(w, GoOn(h, call)) && HandlerOk(w, h)
    ensures HandlerOk(HApply(w, GoOn(h, call)), h)
  {
    BeneathKeeps(w, GoOn(h, call));
    CallLeaves(w.sys, w.handlers[h].Call(), call);
    GoOnOk(w, HApply(w, GoOn(h, call)), h);
  }

  lemma {:induction false} ReturnOwn(w: World, h: nat)
    requires HInv(w) && HEnabled(w, Return(h)) && HandlerOk(w, h)
    ensures HandlerOk(HApply(w, Return(h)), h)
  {
    BeneathKeeps(w, Return(h));
    OwnFinishFrees(w.sys, w.handlers[h].Last().lease, Beneath(w, Return(h)).value.lease.err);
    ReturnOk(w, HApply(w, Return(h)), h);
  }

  lemma {:induction false} QuietOwn(w: World, step: HStep)
    requires HEnabled(w, step) && (step.Take? || step.Refused? || step.GiveUp?) && HandlerOk(w, step.h)
    ensures HandlerOk(Handled(w, step), step.h)
  {
    var v := Handled(w, step);
    QuietOk(w, v, step.h, v.handlers[step.h].stage);
  }

  lemma {:induction false} OwnOk(w: World, step: HStep)
    requires HInv(w) && HEnabled(w, step) && Actor(step).Some?
    ensures HandlerOk(HApply(w, step), step.h)
  {
    var h := step.h;
    assert HandlerOk(w, h);
    if step.Ask? {
      AskOk(w, h);
    } else if step.GoOn? {
      GoOnOwn(w, h, step.call);
    } else if step.Return? {
      ReturnOwn(w, h);
    } else if step.Try? {
      TryOk(w, Handled(w, step), h, Handled(w, step).handlers[h].Last());
    } else {
      QuietOwn(w, step);
    }
  }

  ghost function MovedBy(w: World, step: HStep): Option<nat>
    requires HEnabled(w, step)
  {
    if Beneath(w, step).Some? then Moved(Beneath(w, step).value) else None
  }

  ghost function FreedBy(w: World, step: HStep): Option<nat>
    requires HEnabled(w, step)
  {
    if Beneath(w, step).Some? then Freed(Beneath(w, step).value) else None
  }

  /** A handler moves only its own call and finishes only its own lease. */
  lemma {:induction false} OwnOnly(w: World, step: HStep)
    requires HEnabled(w, step) && Actor(step).Some? && step.h < |w.handlers| && HandlerOk(w, step.h)
    requires |w.owners| == |w.sys.calls|
    ensures var call := MovedBy(w, step);
      call.Some? ==> call.value >= |w.owners| || w.owners[call.value] == step.h
    ensures var lease := FreedBy(w, step);
      lease.Some? ==>
        exists c :: 0 <= c < |w.sys.calls| && c < |w.owners| && w.owners[c] == step.h
                    && w.sys.calls[c] == GotLease(lease.value)
  {
    if step.Return? {
      var me := w.handlers[step.h];
      assert w.sys.calls[me.calls[|me.tried| - 1]] == GotLease(me.Last().lease);
    }
  }

  lemma {:induction false} OthersOk(w: World, step: HStep)
    requires HInv(w) && HEnabled(w, step) && Actor(step).Some?
    ensures forall h :: 0 <= h < |w.handlers| && h != step.h ==> HandlerOk(HApply(w, step), h)
  {
    var v, g, call, lease := HApply(w, step), step.h, MovedBy(w, step), FreedBy(w, step);
    assert HandlerOk(w, g);
    BeneathKeeps(w, step);
    OwnOnly(w, step);
    assert Kept(w.sys, v.sys, call, lease);
    forall h | 0 <= h < |w.handlers| && h != g ensures HandlerOk(v, h) {
      assert HandlerOk(w, h);
      OthersElsewhere(w, h, g, call, lease);
      StaysOk(w, v, h, call, lease);
    }
  }

  lemma {:induction false} BackgroundKeeps(w: World, step: Step)
    requires HInv(w) && HEnabled(w, Background(step))
    ensures HInv(HApply(w, Background(step)))
  {
    var v := HApply(w, Background(step));
    BeneathKeeps(w, Background(step));
    if !IsRestart(step) {
      forall h | 0 <= h < |v.handlers| ensures HandlerOk(v, h) {
        assert HandlerOk(w, h);
        StaysOk(w, v, h, None, None);
      }
    }
  }

  lemma {:induction false} ActorKeeps(w: World, step: HStep)
    requires HInv(w) && HEnabled(w, step) && Actor(step).Some?
    ensures HInv(HApply(w, step))
  {
    BeneathKeeps(w, step);
    OwnOk(w, step);
    OthersOk(w, step);
    assert |Handled(w, step).handlers| == |w.handlers|;
  }

  lemma {:induction false} HStepKeeps(w: World, step: HStep)
    requires HInv(w) && HEnabled(w, step)
    ensures HInv(HApply(w, step))
  {
    if step.Arrive? {
      ArriveKeeps(w, step.request);
    } else if step.Background? {
      BackgroundKeeps(w, step.step);
    } else {
      ActorKeeps(w, step);
    }
  }

  /** A handler finishes its lease with the error of its attempt: the finish is
      recorded for the instance, as failed exactly if there was one, and the endpoint
      keeps its text. */
  lemma {:induction false} ReturnReports(w: World, h: nat)
    requires HInv(w) && HEnabled(w, Return(h))
    ensures var a, s, t := w.handlers[h].Last(), w.sys, HApply(w, Return(h)).sys;
      var e := s.leases[a.lease].ep;
      && e < |s.pool.eps| == |t.pool.eps|
      && t.finishes == s.finishes + [FinishRecord(s.pool.eps[e].slot, a.outcome.err.Some?)]
      && (a.outcome.err.Some? ==> t.pool.eps[e].lastErr == Some(a.outcome.err.value.text))
      && (a.outcome.err.None? && s.pool.unique ==> t.pool.eps[e].lastErr == None)
  {
    var a := w.handlers[h].Last();
    ReturnsHeld(w, h);
    HeldFinishes(w.sys, a.lease, if a.outcome.err.Some? then Some(a.outcome.err.value.text) else None);
  }

  lemma {:induction false} ReturnsHeld(w: World, h: nat)
    requires HInv(w) && At(w, h, Returning)
    ensures w.handlers[h].tried != [] && Holds(w.sys, w.handlers[h].Last().lease)
  {
    assert HandlerOk(w, h);
  }

  lemma {:induction false} HeldFinishes(s: Sys, l: nat, err: Option<string>)
    requires Inv(s) && Holds(s, l)
    ensures var e, t := s.leases[l].ep, DoFinish(s, l, err);
      && e < |s.pool.eps| == |t.pool.eps|
      && t.finishes == s.finishes + [FinishRecord(s.pool.eps[e].slot, err.Some?)]
      && (err.Some? || s.pool.unique ==> t.pool.eps[e].lastErr == err)
  {
    assert EpOk(s, s.leases[l].ep);
    Counted(s.leases, l);
    FinishEffect(s, l, err);
  }

  // ---- every interleaving --------------------------------------------------

  ghost predicate Leads(w: World, steps: seq<HStep>, v: World)
    decreases steps
  {
    if steps == [] then w == v
    else HEnabled(w, steps[0]) && Leads(HApply(w, steps[0]), steps[1..], v)
  }

  ghost predicate HInit(w: World) {
    Init(w.sys) && w.handlers == [] && w.owners == []
  }

  lemma {:induction false} KeptAlong(w: World, steps: seq<HStep>, v: World)
    requires HInv(w) && Leads(w, steps, v)
    ensures HInv(v)
    decreases steps
  {
    if steps != [] {
      HStepKeeps(w, steps[0]);
      KeptAlong(HApply(w, steps[0]), steps[1..], v);
    }
  }

  lemma {:induction false} Reached(w: World, steps: seq<HStep>, v: World)
    requires HInit(w) && Leads(w, steps, v)
    ensures HInv(v)
  {
    InitKeeps(w.sys);
    KeptAlong(w, steps, v);
  }

  /** A handler in Acquire goes on with the call until that has a result, and then takes
      or reports it. */
  lemma {:induction false} AskerGoesOn(v: World, h: nat)
    requires v.sys.WF() && At(v, h, Asking) && HandlerOk(v, h)
    ensures v.handlers[h].calls != [] && v.handlers[h].Call() < |v.sys.calls|
    ensures var call, faults := v.sys.calls[v.handlers[h].Call()], seq(|v.sys.pool.slots|, _ => Clean);
      && (HEnabled(v, Take(h)) <==> call.GotLease?)
      && (HEnabled(v, Refused(h)) <==> call == GotNoReady || call == GotError)
      && (call.Waiting? ==> HEnabled(v, GoOn(h, Timeout)))
      && (call.Rejecting? ==> HEnabled(v, GoOn(h, Reject)))
      && (call.Scanning? ==> HEnabled(v, GoOn(h, ScanSlots(faults, false))))
  {}

  /** How a handler that has not ended can go on: before an attempt it asks for a lease
      as long as there is an instance left to try, and gives up exactly if there is
      none or it has tried before; with a lease it tries, and after that returns. */
  lemma {:induction false} HandlerGoesOn(v: World, h: nat)
    requires HInv(v) && h < |v.handlers|
    ensures var me, size := v.handlers[h], |v.sys.pool.slots|;
      && (me.stage == Choosing ==>
            && (HEnabled(v, Ask(h)) <==> |me.tried| < size)
            && (HEnabled(v, GiveUp(h)) <==> me.tried != [] || size == 0))
      && (me.stage == Using ==> forall trip :: HEnabled(v, Try(h, trip)))
      && (me.stage == Returning ==> HEnabled(v, Return(h)))
  {
    assert HandlerOk(v, h);
    if v.handlers[h].stage == Returning {
      ReturnsHeld(v, h);
    }
  }

  /** So over every interleaving no handler is ever stuck before it has ended. */
  lemma {:induction false} NoHandlerStuck(w: World, steps: seq<HStep>, v: World, h: nat)
    requires HInit(w) && Leads(w, steps, v) && h < |v.handlers|
    requires !v.handlers[h].stage.Replied? && !v.handlers[h].stage.Crashed?
    ensures exists step :: HEnabled(v, step) && Actor(step) == Some(h)
  {
    Reached(w, steps, v);
    assert HandlerOk(v, h);
    HandlerGoesOn(v, h);
    var step := MoveOf(v, h);
    if v.handlers[h].stage == Asking {
      AskerGoesOn(v, h);
    }
    assert HEnabled(v, step) && Actor(step) == Some(h);
  }

  /** A step that the handler can take. */
  function MoveOf(v: World, h: nat): HStep
    requires h < |v.handlers|
  {
    var me, size := v.handlers[h], |v.sys.pool.slots|;
    match me.stage
    case Choosing => if |me.tried| < size then Ask(h) else GiveUp(h)
    case Using => Try(h, NO_TRIP)
    case Asking =>
      if me.calls == [] || me.Call() >= |v.sys.calls| then Take(h)
      else
        (match v.sys.calls[me.Call()]
         case GotLease(_) => Take(h)
         case Waiting(_) => GoOn(h, Timeout)
         case Rejecting => GoOn(h, Reject)
         case Scanning(_) => GoOn(h, ScanSlots(seq(size, _ => Clean), false))
         case _ => Refused(h))
    case _ => Return(h)
  }

  /** Lease `l` was granted to handler `h`. */
  ghost predicate Owns(w: World, h: nat, l: nat)
    requires h < |w.handlers|
  {
    exists c :: c in w.handlers[h].calls && c < |w.sys.calls| && w.sys.calls[c] == GotLease(l)
  }

  /** Over every interleaving a handler has at most one outstanding lease. */
  lemma {:induction false} OneLeaseAtATime(w: World, steps: seq<HStep>, v: World, h: nat, l: nat, m: nat)
    requires HInit(w) && Leads(w, steps, v) && h < |v.handlers|
    requires Owns(v, h, l) && Owns(v, h, m) && Holds(v.sys, l) && Holds(v.sys, m)
    ensures l == m
  {
    Reached(w, steps, v);
    assert HandlerOk(v, h);
    OutstandingIsLast(v, h, l);
    OutstandingIsLast(v, h, m);
  }

  lemma {:induction false} OutstandingIsLast(w: World, h: nat, l: nat)
    requires h < |w.handlers| && HandlerOk(w, h) && Owns(w, h, l) && Holds(w.sys, l)
    ensures HasLease(w, h) && w.sys.calls[w.handlers[h].Call()] == GotLease(l)
    ensures w.handlers[h].stage in {Asking, Using, Returning, Crashed}
  {
    var me := w.handlers[h];
    var c :| c in me.calls && c < |w.sys.calls| && w.sys.calls[c] == GotLease(l);
    var i :| 0 <= i < |me.calls| && me.calls[i] == c;
    assert i < |me.tried| ==> me.tried[i].lease == l;
  }

  /** The handler has no outstanding lease. */
  ghost predicate Clear(w: World, h: nat)
    requires h < |w.handlers|
  {
    forall l :: Owns(w, h, l) ==> !Holds(w.sys, l)
  }

  lemma {:induction false} ClearUnlessCrashed(w: World, h: nat)
    requires h < |w.handlers| && HandlerOk(w, h)
    requires w.handlers[h].stage.Replied? || w.handlers[h].stage.Crashed?
    ensures Clear(w, h) <==> w.handlers[h].stage.Replied?
  {
    var me, n := w.handlers[h], |w.handlers[h].tried|;
    forall l | Owns(w, h, l) && Holds(w.sys, l) ensures me.stage.Crashed? {
      OutstandingIsLast(w, h, l);
    }
    if me.stage.Crashed? {
      assert w.sys.calls[me.calls[n - 1]] == GotLease(me.tried[n - 1].lease) && me.calls[n - 1] in me.calls;
      assert Owns(w, h, me.tried[n - 1].lease) && Holds(w.sys, me.tried[n - 1].lease);
    }
  }

  lemma {:induction false} CrashedIff(me: Handler)
    requires TriesOk(me) && (me.stage.Replied? || me.stage.Crashed?)
    ensures me.stage.Replied? <==> forall i :: 0 <= i < |me.tried| ==> me.tried[i].outcome.Returned?
  {
    forall i | 0 <= i < |me.tried| - 1 ensures me.tried[i].outcome.Returned? {
      assert F.MayRetry(me.request, me.tried[i].outcome);
    }
  }

  /** A handler that has ended, by a reply or by a panic, has finished every lease
      it was granted if and only if none of its attempts panicked. */
  lemma {:induction false} AllFinishedIff(w: World, steps: seq<HStep>, v: World, h: nat)
    requires HInit(w) && Leads(w, steps, v) && h < |v.handlers|
    requires v.handlers[h].stage.Replied? || v.handlers[h].stage.Crashed?
    ensures Clear(v, h) <==>
      forall i :: 0 <= i < |v.handlers[h].tried| ==> v.handlers[h].tried[i].outcome.Returned?
  {
    Reached(w, steps, v);
    assert HandlerOk(v, h);
    ClearUnlessCrashed(v, h);
    CrashedIff(v.handlers[h]);
  }

  lemma {:induction false} AttemptsApart(w: World, h: nat, i: nat, g: nat, j: nat)
    requires h < |w.handlers| && i < |w.handlers[h].tried| && g < |w.handlers| && j < |w.handlers[g].tried|
    requires (h, i) != (g, j) && HandlerOk(w, h) && HandlerOk(w, g) && CallsApart(w.sys)
    ensures var l, m := w.handlers[h].tried[i].lease, w.handlers[g].tried[j].lease;
      l < |w.sys.leases| && m < |w.sys.leases| && l != m
  {
    var c, d := w.handlers[h].calls[i], w.handlers[g].calls[j];
    assert w.sys.calls[c] == GotLease(w.handlers[h].tried[i].lease);
    assert w.sys.calls[d] == GotLease(w.handlers[g].tried[j].lease);
    assert c != d;
  }

  /** In unique mode any two attempts, of one handler or of two, use different
      addresses. */
  lemma {:induction false} AttemptsUseDistinctAddresses(
      w: World, steps: seq<HStep>, v: World, h: nat, i: nat, g: nat, j: nat)
    requires HInit(w) && Leads(w, steps, v) && v.sys.WF() && v.sys.pool.unique
    requires h < |v.handlers| && i < |v.handlers[h].tried| && g < |v.handlers| && j < |v.handlers[g].tried|
    requires (h, i) != (g, j)
    ensures var l, m := v.handlers[h].tried[i].lease, v.handlers[g].tried[j].lease;
      && l < |v.sys.leases| && m < |v.sys.leases| && l != m
      && v.sys.pool.eps[v.sys.leases[l].ep].ip != v.sys.pool.eps[v.sys.leases[m].ep].ip
  {
    Reached(w, steps, v);
    AttemptsApart(v, h, i, g, j);
    LeasesApart(v.sys, v.handlers[h].tried[i].lease, v.handlers[g].tried[j].lease);
  }

  /** Over every interleaving no attempt follows one that committed or panicked,
      and there are at most as many as there are instances. */
  lemma {:induction false} RetriesJustified(w: World, steps: seq<HStep>, v: World, h: nat, i: nat)
    requires HInit(w) && Leads(w, steps, v) && h < |v.handlers|
    ensures |v.handlers[h].tried| <= |v.sys.pool.slots|
    ensures i + 1 < |v.handlers[h].tried| ==>
      var me := v.handlers[h];
      var outcome := me.tried[i].outcome;
      && outcome.Returned? && !outcome.responded
      && (me.request.Forward? && me.request.hasBody ==> !outcome.dialed)
  {
    Reached(w, steps, v);
    assert HandlerOk(v, h);
    if i + 1 < |v.handlers[h].tried| {
      assert F.MayRetry(v.handlers[h].request, v.handlers[h].tried[i].outcome);
    }
  }

  // ---- the loops of Failover -------------------------------------------------

  /** Attempt `i` came out as what the handler met there makes it. */
  predicate TriedAsMet(me: Handler, i: nat)
    requires i < |me.tried| && i < |me.met|
  {
    && !me.met[i].clientGone && me.met[i].acquire == F.Granted(me.tried[i].lease)
    && me.tried[i].outcome == F.OutcomeOf(me.request, me.met[i].trip)
  }

  /** Its attempts are those of the rounds it met; if it has ended, it had to, in a
      pool of `size` instances. */
  ghost predicate MetOk(me: Handler, size: nat) {
    var n := |me.tried|;
    && n <= |me.met| <= size
    && (forall i :: 0 <= i < n ==> TriedAsMet(me, i))
    && (if me.stage.Replied? && |me.met| > n then
          |me.met| == n + 1 && (if me.met[n].clientGone then n > 0 else !me.met[n].acquire.Granted?)
        else |me.met| == n)
    && (me.stage.Replied? && |me.met| == n ==>
          n == size || (n > 0 && !F.MayRetry(me.request, me.tried[n - 1].outcome)))
    && (me.stage.Crashed? ==> n > 0 && me.tried[n - 1].outcome.Panicked?)
  }

  ghost predicate AllMet(w: World) {
    forall h :: 0 <= h < |w.handlers| ==> MetOk(w.handlers[h], |w.sys.pool.slots|)
  }

  lemma {:induction false} TryMet(me: Handler, size: nat, lease: nat, trip: F.Trip)
    requires MetOk(me, size) && me.stage.Using? && |me.tried| < size
    ensures var outcome := F.OutcomeOf(me.request, trip);
      MetOk(me.(tried := me.tried + [F.Attempt(lease, outcome)],
                met := me.met + [F.Round(false, F.Granted(lease), trip)],
                stage := if outcome.Panicked? then Crashed else Returning), size)
  {
    var outcome := F.OutcomeOf(me.request, trip);
    var then' := me.(tried := me.tried + [F.Attempt(lease, outcome)],
                     met := me.met + [F.Round(false, F.Granted(lease), trip)],
                     stage := if outcome.Panicked? then Crashed else Returning);
    forall i | 0 <= i < |then'.tried| ensures TriedAsMet(then', i) {
      assert i < |me.tried| ==> TriedAsMet(me, i);
    }
  }

  lemma {:induction false} StopMet(me: Handler, size: nat, round: F.Round)
    requires MetOk(me, size) && !me.stage.Replied? && |me.tried| < size
    requires if round.clientGone then me.tried != [] else !round.acquire.Granted?
    ensures MetOk(Stops(me, round), size)
  {
    var then' := Stops(me, round);
    forall i | 0 <= i < |then'.tried| ensures TriedAsMet(then', i) {
      assert TriedAsMet(me, i);
    }
  }

  lemma {:induction false} MoveMet(me: Handler, size: nat, calls: seq<nat>, stage: Stage)
    requires MetOk(me, size) && !me.stage.Replied? && !stage.Crashed?
    requires stage.Replied? ==>
      |me.tried| == size || (me.tried != [] && !F.MayRetry(me.request, me.tried[|me.tried| - 1].outcome))
    ensures MetOk(me.(calls := calls, stage := stage), size)
  {
    var then' := me.(calls := calls, stage := stage);
    forall i | 0 <= i < |then'.tried| ensures TriedAsMet(then', i) {
      assert TriedAsMet(me, i);
    }
  }

  lemma {:induction false} GiveUpMet(me: Handler, size: nat)
    requires MetOk(me, size) && me.stage.Choosing? && (me.tried != [] || |me.tried| >= size)
    ensures MetOk(if |me.tried| < size then Stops(me, F.Round(true, F.NoReady, NO_TRIP)) else me.(stage := Replied),
                  size)
  {
    if |me.tried| < size {
      StopMet(me, size, F.Round(true, F.NoReady, NO_TRIP));
    } else {
      MoveMet(me, size, me.calls, Replied);
    }
  }

  lemma {:induction false} OwnMet(w: World, step: HStep)
    requires HEnabled(w, step) && Actor(step).Some? && HandlerOk(w, step.h)
    requires MetOk(w.handlers[step.h], |w.sys.pool.slots|)
    ensures MetOk(Handled(w, step).handlers[step.h], |w.sys.pool.slots|)
  {
    var me, size := w.handlers[step.h], |w.sys.pool.slots|;
    if step.Try? {
      TryMet(me, size, w.sys.calls[me.Call()].lease, step.trip);
    } else if step.Refused? {
      StopMet(me, size, F.Round(false, F.NoReady, NO_TRIP));
      StopMet(me, size, F.Round(false, F.OtherError, NO_TRIP));
    } else if step.GiveUp? {
      GiveUpMet(me, size);
    } else if !step.GoOn? {
      var then' := Handled(w, step).handlers[step.h];
      MoveMet(me, size, then'.calls, then'.stage);
    }
  }

  /** A step leaves the handlers of others as they are. */
  lemma {:induction false} OthersUnmoved(w: World, step: HStep, h: nat)
    requires HEnabled(w, step) && h < |w.handlers| && Actor(step) != Some(h)
    requires !(step.Background? && IsRestart(step.step))
    ensures h < |Handled(w, step).handlers| && Handled(w, step).handlers[h] == w.handlers[h]
  {}

  lemma {:induction false} HandledMet(w: World, step: HStep, h: nat)
    requires HEnabled(w, step) && AllMet(w) && h < |Handled(w, step).handlers|
    requires forall g :: 0 <= g < |w.handlers| ==> HandlerOk(w, g)
    requires !(step.Background? && IsRestart(step.step))
    ensures MetOk(Handled(w, step).handlers[h], |w.sys.pool.slots|)
  {
    if Actor(step) == Some(h) {
      OwnMet(w, step);
    } else if h < |w.handlers| {
      OthersUnmoved(w, step, h);
    }
  }

  lemma {:induction false} StepMet(w: World, step: HStep)
    requires HInv(w) && HEnabled(w, step) && AllMet(w)
    ensures AllMet(HApply(w, step))
  {
    BeneathKeeps(w, step);
    var v := HApply(w, step);
    if !(step.Background? && IsRestart(step.step)) {
      forall h | 0 <= h < |v.handlers| ensures MetOk(v.handlers[h], |v.sys.pool.slots|) {
        HandledMet(w, step, h);
      }
    }
  }

  lemma {:induction false} MetAlong(w: World, steps: seq<HStep>, v: World)
    requires HInv(w) && AllMet(w) && Leads(w, steps, v)
    ensures AllMet(v)
    decreases steps
  {
    if steps != [] {
      HStepKeeps(w, steps[0]);
      StepMet(w, steps[0]);
      MetAlong(HApply(w, steps[0]), steps[1..], v);
    }
  }

  lemma {:induction false} MetExhausts(me: Handler, world: F.World)
    requires MetOk(me, |world|) && TriesOk(me) && me.met <= world && (me.stage.Replied? || me.stage.Crashed?)
    ensures F.Faithful(me.request, world, me.tried) && F.Exhausted(me.request, world, me.tried)
  {
    forall i | 0 <= i < |me.tried|
      ensures !world[i].clientGone && world[i].acquire == F.Granted(me.tried[i].lease)
      ensures me.tried[i].outcome == F.OutcomeOf(me.request, world[i].trip)
    {
      assert TriedAsMet(me, i) && world[i] == me.met[i];
    }
  }

  /** Over every interleaving, a handler that has ended made exactly the attempts
      that its loop makes when it meets what this handler met. */
  lemma {:induction false} EndsLikeItsLoop(
      w: World, steps: seq<HStep>, v: World, h: nat, world: F.World, tried: seq<F.Attempt>)
    requires HInit(w) && Leads(w, steps, v) && h < |v.handlers|
    requires v.handlers[h].stage.Replied? || v.handlers[h].stage.Crashed?
    requires |world| == |v.sys.pool.slots| && v.handlers[h].met <= world
    ensures var me := v.handlers[h];
      F.Faithful(me.request, world, tried) && F.Exhausted(me.request, world, tried) <==> tried == me.tried
  {
    var me := v.handlers[h];
    InitKeeps(w.sys);
    MetAlong(w, steps, v);
    Reached(w, steps, v);
    assert HandlerOk(v, h);
    MetExhausts(me, world);
    if F.Faithful(me.request, world, tried) && F.Exhausted(me.request, world, tried) {
      F.FailoverDetermined(me.request, world, tried, me.tried);
    }
  }

  /** What the client is told when a handler gets no lease: a call that ended with an
      error is a 503; one that found nothing ready is a 503 with Retry-After if nothing
      was tried, and the error of the last attempt otherwise. */
  lemma {:induction false} RefusedAnswer(w: World, h: nat, world: F.World)
    requires HInv(w) && AllMet(w) && HEnabled(w, Refused(h))
    requires |world| == |w.sys.pool.slots| && Handled(w, Refused(h)).handlers[h].met <= world
    ensures var call, me := w.sys.calls[w.handlers[h].Call()], Handled(w, Refused(h)).handlers[h];
      && |me.tried| <= |world| && me.tried == w.handlers[h].tried
      && var answer := F.Verdict(me.request, world, me.tried);
         && (call == GotError ==> answer == F.Unavailable)
         && (call == GotNoReady && me.tried == [] ==> answer == F.TryLater)
         && (call == GotNoReady && me.tried != [] ==> answer == F.BadGateway || answer == F.GatewayTimeout)
  {
    RefusedMeets(w, h);
    var me := Handled(w, Refused(h)).handlers[h];
    MetExhausts(me, world);
    F.VerdictMeaning(me.request, world, me.tried);
    var n := |me.tried|;
    assert world[n] == me.met[n];
    if n > 0 {
      F.LastOutcome(me.request, world, me.tried);
    }
  }

  lemma {:induction false} RefusedMeets(w: World, h: nat)
    requires HInv(w) && AllMet(w) && HEnabled(w, Refused(h))
    ensures var before, me := w.handlers[h], Handled(w, Refused(h)).handlers[h];
      var call := w.sys.calls[before.Call()];
      && MetOk(me, |w.sys.pool.slots|) && TriesOk(me) && me.stage == Replied
      && me.tried == before.tried && |me.met| == |me.tried| + 1 && !me.met[|me.tried|].clientGone
      && (call == GotError ==> me.met[|me.tried|].acquire == F.OtherError)
      && (call == GotNoReady ==> me.met[|me.tried|].acquire == F.NoReady)
      && (me.tried != [] ==> F.MayRetry(me.request, me.tried[|me.tried| - 1].outcome))
  {
    assert HandlerOk(w, h);
    OwnMet(w, Refused(h));
  }

  /** A handler that panicked never finishes its lease: as long as the process
      lives, the lease pins its instance or the instance's circuit has ended. */
  lemma {:induction false} PanicPins(w: World, steps: seq<HStep>, v: World, h: nat)
    requires HInit(w) && Leads(w, steps, v) && v.sys.WF()
    requires h < |v.handlers| && v.handlers[h].stage.Crashed?
    ensures v.handlers[h].tried != [] && Holds(v.sys, v.handlers[h].Last().lease)
    ensures v.sys.leases[v.handlers[h].Last().lease].ep in v.sys.ended || Pinned(v.sys, v.handlers[h].Last().lease)
  {
    Reached(w, steps, v);
    assert HandlerOk(v, h);
    var l := v.handlers[h].Last().lease;
    if v.sys.leases[l].ep !in v.sys.ended {
      HeldPins(v.sys, l);
    }
  }

  /** And it stays where it is. */
  lemma {:induction false} CrashedForGood(w: World, steps: seq<HStep>, v: World, h: nat)
    requires Leads(w, steps, v) && At(w, h, Crashed)
    requires forall k :: 0 <= k < |steps| ==> !(steps[k].Background? && IsRestart(steps[k].step))
    ensures At(v, h, Crashed) && v.handlers[h] == w.handlers[h]
    decreases steps
  {
    if steps != [] {
      CrashedForGood(HApply(w, steps[0]), steps[1..], v, h);
    }
  }
}
