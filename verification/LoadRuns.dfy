/** Runs of the load tester: the API calls, the goroutine of each run and the
    goroutine of each request, interleaved in every possible way. */
module LoadRuns {
  import opened Base
  import opened RateRing
  import opened LoadTest

  /** Where a run's goroutine is: waiting for a tick, past the context check,
      holding a slot it just took, waiting for its requests, or done. */
  datatype RunPhase = Looping | Ticked | Holding | Draining | Over

  /** `slots` and `pending` are the fill of the slot channel and the wait group. */
  datatype TestRun = TestRun(phase: RunPhase, cancelled: bool, slots: nat, pending: nat)

  datatype RequestPhase = InFlight | Counted | Released | Done

  datatype Request = Request(run: nat, phase: RequestPhase)

  /** A completion as it was recorded, with the run whose request it was. */
  datatype Entry = Entry(run: nat, completion: Completion)

  datatype Sys = Sys(alive: bool, stats: Stats, runs: seq<TestRun>, requests: seq<Request>, history: seq<Entry>)

  datatype Step =
    | Start(urlOk: bool, rps: int)
    | Stop
    | Shutdown
    | Tick(run: nat)
    | TakeSlot(run: nat)
    | SkipTick(run: nat)
    | Launch(run: nat)
    | Leave(run: nat)
    | Finalize(run: nat)
    | Record(request: nat, completion: Completion)
    | Release(request: nat)
    | Complete(request: nat)

  function Initial(): Sys { Sys(true, NoStats(), [], [], []) }

  predicate Enabled(s: Sys, step: Step) {
    match step
    case Start(_, _) => true
    case Stop => true
    case Shutdown => true
    case Tick(r) => r < |s.runs| && s.runs[r].phase.Looping?
    case TakeSlot(r) => r < |s.runs| && s.runs[r].phase.Ticked? && s.runs[r].slots < MAX_IN_FLIGHT
    case SkipTick(r) => r < |s.runs| && s.runs[r].phase.Ticked? && s.runs[r].slots == MAX_IN_FLIGHT
    case Launch(r) => r < |s.runs| && s.runs[r].phase.Holding?
    case Leave(r) => r < |s.runs| && s.runs[r].phase.Looping? && s.runs[r].cancelled
    case Finalize(r) => r < |s.runs| && s.runs[r].phase.Draining? && s.runs[r].pending == 0
    case Record(q, c) =>
      q < |s.requests| && s.requests[q].phase.InFlight? && s.requests[q].run < |s.runs| && s.stats.WF() &&
      (c.canceled ==> s.runs[s.requests[q].run].cancelled)
    case Release(q) =>
      q < |s.requests| && s.requests[q].phase.Counted? && s.requests[q].run < |s.runs| &&
      s.runs[s.requests[q].run].slots > 0
    case Complete(q) =>
      q < |s.requests| && s.requests[q].phase.Released? && s.requests[q].run < |s.runs| &&
      s.runs[s.requests[q].run].pending > 0
  }

  function At(s: Sys, r: nat, phase: RunPhase): Sys
    requires r < |s.runs|
  {
    s.(runs := s.runs[r := s.runs[r].(phase := phase)])
  }

  /** `t.cancel` is that of the run started last. */
  function CancelLast(runs: seq<TestRun>): (r: seq<TestRun>)
    ensures |r| == |runs|
  {
    if runs == [] then [] else runs[|runs| - 1 := runs[|runs| - 1].(cancelled := true)]
  }

  function CancelAll(runs: seq<TestRun>): (r: seq<TestRun>)
    ensures |r| == |runs|
  {
    seq(|runs|, i requires 0 <= i < |runs| => runs[i].(cancelled := true))
  }

  function Move(s: Sys, q: nat, phase: RequestPhase): seq<Request>
    requires q < |s.requests|
  {
    s.requests[q := s.requests[q].(phase := phase)]
  }

  function Apply(s: Sys, step: Step): Sys
    requires Enabled(s, step)
  {
    match step
    case Start(urlOk, rps) =>
      if Refusal(s.stats, s.alive, urlOk, rps).Some? then s
      else s.(stats := Started(rps), runs := s.runs + [TestRun(Looping, false, 0, 0)])
    case Stop =>
      if s.stats.state.Running? then s.(stats := StopAsked(s.stats), runs := CancelLast(s.runs)) else s
    case Shutdown => s.(alive := false, runs := CancelAll(s.runs))
    case Tick(r) => At(s, r, if s.runs[r].cancelled then Draining else Ticked)
    case TakeSlot(r) => s.(runs := s.runs[r := s.runs[r].(phase := Holding, slots := s.runs[r].slots + 1)])
    case SkipTick(r) => At(s, r, Looping).(stats := Skipped(s.stats))
    case Launch(r) =>
      s.(stats := Launched(s.stats),
         runs := s.runs[r := s.runs[r].(phase := Looping, pending := s.runs[r].pending + 1)],
         requests := s.requests + [Request(r, InFlight)])
    case Leave(r) => At(s, r, Draining)
    case Finalize(r) => s.(stats := Ended(s.stats), runs := CancelLast(s.runs[r := s.runs[r].(phase := Over)]))
    case Record(q, c) =>
      s.(stats := Recorded(s.stats, c), requests := Move(s, q, Counted),
         history := s.history + [Entry(s.requests[q].run, c)])
    case Release(q) =>
      var r := s.requests[q].run;
      s.(requests := Move(s, q, Released), runs := s.runs[r := s.runs[r].(slots := s.runs[r].slots - 1)])
    case Complete(q) =>
      var r := s.requests[q].run;
      s.(requests := Move(s, q, Done), runs := s.runs[r := s.runs[r].(pending := s.runs[r].pending - 1)])
  }

  // ---- counts --------------------------------------------------------------

  predicate Is(q: Request, run: nat, phase: RequestPhase) { q.run == run && q.phase == phase }

  function In(qs: seq<Request>, run: nat, phase: RequestPhase): nat {
    if qs == [] then 0
    else In(qs[..|qs| - 1], run, phase) + Bit(Is(qs[|qs| - 1], run, phase))
  }

  /** All requests a run ever launched. */
  function Of(qs: seq<Request>, run: nat): nat {
    In(qs, run, InFlight) + In(qs, run, Counted) + In(qs, run, Released) + In(qs, run, Done)
  }

  /** What was recorded for a run, in order. */
  function Results(history: seq<Entry>, run: nat): seq<Completion> {
    if history == [] then []
    else
      var last := history[|history| - 1];
      Results(history[..|history| - 1], run) + if last.run == run then [last.completion] else []
  }

  lemma RequestAppended(qs: seq<Request>, x: Request)
    ensures forall run, phase :: In(qs + [x], run, phase) == In(qs, run, phase) + Bit(Is(x, run, phase))
  {
    assert (qs + [x])[..|qs|] == qs;
  }

  lemma {:induction false} RequestMoved(qs: seq<Request>, q: nat, x: Request)
    requires q < |qs|
    ensures forall run, phase ::
      In(qs[q := x], run, phase) + Bit(Is(qs[q], run, phase)) == In(qs, run, phase) + Bit(Is(x, run, phase))
  {
    var n := |qs| - 1;
    if q < n {
      RequestMoved(qs[..n], q, x);
      assert qs[q := x][..n] == qs[..n][q := x];
    } else {
      assert qs[q := x][..n] == qs[..n];
    }
  }

  lemma {:induction false} IsCounted(qs: seq<Request>, q: nat)
    requires q < |qs|
    ensures In(qs, qs[q].run, qs[q].phase) > 0
  {
    if q < |qs| - 1 {
      IsCounted(qs[..|qs| - 1], q);
    }
  }

  lemma {:induction false} NoRequests(qs: seq<Request>, run: nat)
    requires forall q :: 0 <= q < |qs| ==> qs[q].run < run
    ensures Of(qs, run) == 0
  {
    if qs != [] {
      NoRequests(qs[..|qs| - 1], run);
    }
  }

  lemma {:induction false} NoResults(history: seq<Entry>, run: nat)
    requires forall h :: 0 <= h < |history| ==> history[h].run < run
    ensures Results(history, run) == []
  {
    if history != [] {
      NoResults(history[..|history| - 1], run);
    }
  }

  lemma ResultAppended(history: seq<Entry>, e: Entry)
    ensures forall run ::
      Results(history + [e], run) == Results(history, run) + if e.run == run then [e.completion] else []
  {
    assert (history + [e])[..|history|] == history;
  }

  // ---- what every step keeps -----------------------------------------------

  /** A run's slot channel and wait group count its requests. */
  ghost predicate RunInv(run: TestRun, qs: seq<Request>, r: nat) {
    && run.slots == In(qs, r, InFlight) + In(qs, r, Counted) + Bit(run.phase.Holding?)
    && run.pending == In(qs, r, InFlight) + In(qs, r, Counted) + In(qs, r, Released)
    && run.slots <= MAX_IN_FLIGHT
    && (run.phase.Over? ==> run.pending == 0)
    && (run.phase.Draining? || run.phase.Over? ==> run.cancelled)
  }

  /** Only the run started last can be under way, and the state says whether it is. */
  ghost predicate StateInv(s: Sys) {
    && (forall r :: 0 <= r < |s.runs| - 1 ==> s.runs[r].phase.Over?)
    && (s.stats.state.Idle? <==> s.runs == [])
    && (s.runs != [] ==> (s.stats.state.Stopped? <==> s.runs[|s.runs| - 1].phase.Over?))
    && (s.stats.state.Stopping? ==> s.runs[|s.runs| - 1].cancelled)
    && (forall r :: 0 <= r < |s.runs| && !s.alive ==> s.runs[r].cancelled)
  }

  /** The tallies are those of the run started last, and of no other. */
  ghost predicate TallyInv(s: Sys) {
    && s.stats.WF()
    && (s.runs != [] ==> Summarises(s.stats, Results(s.history, |s.runs| - 1)))
  }

  /** So are the numbers of requests launched and in flight. */
  ghost predicate NumberInv(s: Sys) {
    if s.runs == [] then s.stats == NoStats()
    else Numbers(s, |s.runs| - 1)
  }

  ghost predicate Numbers(s: Sys, r: nat) {
    && s.stats.inFlight == In(s.requests, r, InFlight)
    && s.stats.sent == Of(s.requests, r)
    && s.stats.sent == s.stats.inFlight + |Results(s.history, r)|
  }

  ghost predicate BoundsInv(s: Sys) {
    && (forall q :: 0 <= q < |s.requests| ==> s.requests[q].run < |s.runs|)
    && (forall h :: 0 <= h < |s.history| ==> s.history[h].run < |s.runs|)
  }

  ghost predicate RunsInv(s: Sys) {
    forall r :: 0 <= r < |s.runs| ==> RunInv(s.runs[r], s.requests, r)
  }

  ghost predicate Inv(s: Sys) {
    BoundsInv(s) && RunsInv(s) && StateInv(s) && TallyInv(s) && NumberInv(s)
  }

  /** A request that is not done belongs to the run started last. */
  lemma BelongsToLast(s: Sys, q: nat)
    requires BoundsInv(s) && RunsInv(s) && StateInv(s)
    requires q < |s.requests| && !s.requests[q].phase.Done?
    ensures s.requests[q].run == |s.runs| - 1 && !s.runs[|s.runs| - 1].phase.Over?
  {
    IsCounted(s.requests, q);
    var r := s.requests[q].run;
    assert RunInv(s.runs[r], s.requests, r);
  }

  /** Steps of the request goroutines. */
  predicate OfRequest(step: Step) { step.Record? || step.Release? || step.Complete? }

  /** A step of the goroutine of run `r`, other than Launch. */
  lemma {:induction false} OwnRun(s: Sys, step: Step, r: nat)
    requires Enabled(s, step) && r < |s.runs| && RunInv(s.runs[r], s.requests, r)
    requires step == Tick(r) || step == TakeSlot(r) || step == SkipTick(r) || step == Leave(r)
    ensures var t := Apply(s, step); t.requests == s.requests && RunInv(t.runs[r], t.requests, r)
  {}

  lemma {:induction false} OverRun(s: Sys, r: nat, x: nat)
    requires Enabled(s, Finalize(r)) && x < |s.runs| && RunInv(s.runs[x], s.requests, x)
    ensures var t := Apply(s, Finalize(r)); RunInv(t.runs[x], t.requests, x)
  {}

  lemma {:induction false} CancelledRun(s: Sys, step: Step, r: nat)
    requires Enabled(s, step) && (step.Stop? || step.Shutdown?) && r < |s.runs| && RunInv(s.runs[r], s.requests, r)
    ensures var t := Apply(s, step); RunInv(t.runs[r], t.requests, r)
  {}

  lemma {:induction false} RunsKept(s: Sys, step: Step)
    requires RunsInv(s) && Enabled(s, step) && !OfRequest(step) && !step.Start? && !step.Launch?
    ensures RunsInv(Apply(s, step))
  {
    var t := Apply(s, step);
    assert |t.runs| == |s.runs| && t.requests == s.requests;
    forall r | 0 <= r < |t.runs| ensures RunInv(t.runs[r], t.requests, r) {
      assert RunInv(s.runs[r], s.requests, r);
      if step.Stop? || step.Shutdown? {
        CancelledRun(s, step, r);
      } else if step.Finalize? {
        OverRun(s, step.run, r);
      } else if r == step.run {
        OwnRun(s, step, r);
      } else {
        assert t.runs[r] == s.runs[r];
      }
    }
  }

  lemma {:induction false} RunsStart(s: Sys, urlOk: bool, rps: int)
    requires BoundsInv(s) && RunsInv(s)
    ensures RunsInv(Apply(s, Start(urlOk, rps)))
  {
    var t := Apply(s, Start(urlOk, rps));
    NoRequests(s.requests, |s.runs|);
    forall r | 0 <= r < |t.runs| ensures RunInv(t.runs[r], t.requests, r) {
      assert r < |s.runs| ==> RunInv(s.runs[r], s.requests, r);
    }
  }

  lemma {:induction false} RunsLaunch(s: Sys, x: nat)
    requires RunsInv(s) && Enabled(s, Launch(x))
    ensures RunsInv(Apply(s, Launch(x)))
  {
    var t := Apply(s, Launch(x));
    RequestAppended(s.requests, Request(x, InFlight));
    forall r | 0 <= r < |t.runs| ensures RunInv(t.runs[r], t.requests, r) {
      assert RunInv(s.runs[r], s.requests, r);
      assert r != x ==> t.runs[r] == s.runs[r];
    }
  }

  lemma {:induction false} RecordRun(s: Sys, q: nat, r: nat, c: Completion)
    requires Enabled(s, Record(q, c)) && r < |s.runs| && RunInv(s.runs[r], s.requests, r)
    ensures var t := Apply(s, Record(q, c)); RunInv(t.runs[r], t.requests, r)
  {
    RequestMoved(s.requests, q, Apply(s, Record(q, c)).requests[q]);
  }

  lemma {:induction false} ReleaseRun(s: Sys, q: nat, r: nat)
    requires Enabled(s, Release(q)) && r < |s.runs| && RunInv(s.runs[r], s.requests, r)
    requires !s.runs[s.requests[q].run].phase.Over?
    ensures var t := Apply(s, Release(q)); RunInv(t.runs[r], t.requests, r)
  {
    RequestMoved(s.requests, q, Apply(s, Release(q)).requests[q]);
  }

  lemma {:induction false} CompleteRun(s: Sys, q: nat, r: nat)
    requires Enabled(s, Complete(q)) && r < |s.runs| && RunInv(s.runs[r], s.requests, r)
    requires !s.runs[s.requests[q].run].phase.Over?
    ensures var t := Apply(s, Complete(q)); RunInv(t.runs[r], t.requests, r)
  {
    RequestMoved(s.requests, q, Apply(s, Complete(q)).requests[q]);
  }

  lemma {:induction false} RunsByRequest(s: Sys, step: Step)
    requires RunsInv(s) && Enabled(s, step) && OfRequest(step)
    requires !s.runs[s.requests[step.request].run].phase.Over?
    ensures RunsInv(Apply(s, step))
  {
    var t := Apply(s, step);
    assert |t.runs| == |s.runs|;
    forall r | 0 <= r < |t.runs| ensures RunInv(t.runs[r], t.requests, r) {
      assert RunInv(s.runs[r], s.requests, r);
      match step {
        case Record(q, c) => RecordRun(s, q, r, c);
        case Release(q) => ReleaseRun(s, q, r);
        case Complete(q) => CompleteRun(s, q, r);
      }
    }
  }

  lemma StateKept(s: Sys, step: Step)
    requires StateInv(s) && Enabled(s, step) && !OfRequest(step) && !step.Finalize?
    ensures StateInv(Apply(s, step))
  {}

  lemma StateFinalize(s: Sys, r: nat)
    requires RunsInv(s) && StateInv(s) && Enabled(s, Finalize(r))
    ensures StateInv(Apply(s, Finalize(r)))
  {
    assert RunInv(s.runs[r], s.requests, r);
  }

  lemma StateKeptByRequest(s: Sys, step: Step)
    requires StateInv(s) && Enabled(s, step) && OfRequest(step)
    ensures StateInv(Apply(s, step))
  {}

  /** Only Start and Record touch the tallies. */
  lemma TallyKept(s: Sys, step: Step)
    requires StateInv(s) && TallyInv(s) && Enabled(s, step) && !step.Start? && !step.Record?
    ensures TallyInv(Apply(s, step))
  {
    if s.runs != [] {
      SameTallies(s.stats, Apply(s, step).stats, Results(s.history, |s.runs| - 1));
    }
  }

  /** The tallies do not involve the state, nor what was launched or skipped. */
  lemma SameTallies(s: Stats, t: Stats, log: seq<Completion>)
    requires Summarises(s, log)
    requires t == s.(state := t.state, skipped := t.skipped, sent := t.sent, inFlight := t.inFlight)
    ensures Summarises(t, log)
  {}

  lemma NothingYet(rps: int)
    ensures Summarises(Started(rps), [])
  {}

  lemma TallyStart(s: Sys, urlOk: bool, rps: int)
    requires BoundsInv(s) && TallyInv(s)
    ensures TallyInv(Apply(s, Start(urlOk, rps)))
  {
    NoResults(s.history, |s.runs|);
    NothingYet(rps);
  }

  lemma TallyRecord(s: Sys, q: nat, c: Completion)
    requires TallyInv(s) && Enabled(s, Record(q, c)) && s.requests[q].run == |s.runs| - 1
    ensures TallyInv(Apply(s, Record(q, c)))
  {
    var r := s.requests[q].run;
    ResultAppended(s.history, Entry(r, c));
    assert Results(s.history + [Entry(r, c)], r) == Results(s.history, r) + [c];
    RecordSummarises(s.stats, Results(s.history, r), c);
  }

  lemma NumbersKept(s: Sys, step: Step)
    requires StateInv(s) && NumberInv(s) && Enabled(s, step)
    requires !OfRequest(step) && !step.Start? && !step.Launch?
    ensures NumberInv(Apply(s, step))
  {}

  lemma {:induction false} NumbersLaunch(s: Sys, r: nat)
    requires StateInv(s) && NumberInv(s) && Enabled(s, Launch(r))
    ensures NumberInv(Apply(s, Launch(r)))
  {
    var t := Apply(s, Launch(r));
    RequestAppended(s.requests, Request(r, InFlight));
    assert r == |s.runs| - 1 && Numbers(s, r);
    assert In(t.requests, r, InFlight) == In(s.requests, r, InFlight) + 1;
    assert Of(t.requests, r) == Of(s.requests, r) + 1;
  }

  lemma NumbersStart(s: Sys, urlOk: bool, rps: int)
    requires BoundsInv(s) && NumberInv(s)
    ensures NumberInv(Apply(s, Start(urlOk, rps)))
  {
    NoRequests(s.requests, |s.runs|);
    NoResults(s.history, |s.runs|);
  }

  lemma {:induction false} NumbersRecord(s: Sys, q: nat, c: Completion)
    requires NumberInv(s) && Enabled(s, Record(q, c)) && s.requests[q].run == |s.runs| - 1
    ensures NumberInv(Apply(s, Record(q, c)))
  {
    var t, r := Apply(s, Record(q, c)), |s.runs| - 1;
    RequestMoved(s.requests, q, t.requests[q]);
    ResultAppended(s.history, Entry(r, c));
    assert Numbers(s, r);
    assert In(t.requests, r, InFlight) == In(s.requests, r, InFlight) - 1 && Of(t.requests, r) == Of(s.requests, r);
    assert |Results(t.history, r)| == |Results(s.history, r)| + 1;
  }

  /** A recorded request that moves on is not counted again. */
  lemma {:induction false} NumbersMove(s: Sys, step: Step)
    requires NumberInv(s) && Enabled(s, step) && (step.Release? || step.Complete?)
    ensures NumberInv(Apply(s, step))
  {
    var t := Apply(s, step);
    assert t.stats == s.stats && t.history == s.history && |t.runs| == |s.runs|;
    MovedCounts(s.requests, step.request, t.requests[step.request], |s.runs| - 1);
    assert t.requests == s.requests[step.request := t.requests[step.request]];
  }

  lemma {:induction false} MovedCounts(qs: seq<Request>, q: nat, x: Request, run: nat)
    requires q < |qs| && x.run == qs[q].run && !x.phase.InFlight? && !qs[q].phase.InFlight?
    ensures In(qs[q := x], run, InFlight) == In(qs, run, InFlight) && Of(qs[q := x], run) == Of(qs, run)
  {
    RequestMoved(qs, q, x);
  }

  lemma BoundsKept(s: Sys, step: Step)
    requires BoundsInv(s) && Enabled(s, step)
    ensures BoundsInv(Apply(s, step))
  {}

  lemma {:induction false} RequestStepKeeps(s: Sys, step: Step)
    requires Inv(s) && Enabled(s, step) && OfRequest(step)
    ensures Inv(Apply(s, step))
  {
    BelongsToLast(s, step.request);
    BoundsKept(s, step);
    StateKeptByRequest(s, step);
    RunsByRequest(s, step);
    if step.Record? {
      TallyRecord(s, step.request, step.completion);
      NumbersRecord(s, step.request, step.completion);
    } else {
      TallyKept(s, step);
      NumbersMove(s, step);
    }
  }

  lemma {:induction false} GrowingStepKeeps(s: Sys, step: Step)
    requires Inv(s) && Enabled(s, step) && (step.Start? || step.Launch?)
    ensures Inv(Apply(s, step))
  {
    BoundsKept(s, step);
    StateKept(s, step);
    if step.Start? {
      RunsStart(s, step.urlOk, step.rps);
      TallyStart(s, step.urlOk, step.rps);
      NumbersStart(s, step.urlOk, step.rps);
    } else {
      RunsLaunch(s, step.run);
      TallyKept(s, step);
      NumbersLaunch(s, step.run);
    }
  }

  lemma {:induction false} StepKeeps(s: Sys, step: Step)
    requires Inv(s) && Enabled(s, step)
    ensures Inv(Apply(s, step))
  {
    if OfRequest(step) {
      RequestStepKeeps(s, step);
    } else if step.Start? || step.Launch? {
      GrowingStepKeeps(s, step);
    } else {
      BoundsKept(s, step);
      if step.Finalize? {
        StateFinalize(s, step.run);
      } else {
        StateKept(s, step);
      }
      RunsKept(s, step);
      TallyKept(s, step);
      NumbersKept(s, step);
    }
  }

  // ---- every run of the system ---------------------------------------------

  ghost predicate Leads(s: Sys, steps: seq<Step>, t: Sys)
    decreases steps
  {
    if steps == [] then s == t
    else Enabled(s, steps[0]) && Leads(Apply(s, steps[0]), steps[1..], t)
  }

  lemma {:induction false} Reached(s: Sys, steps: seq<Step>, t: Sys)
    requires Inv(s) && Leads(s, steps, t)
    ensures Inv(t)
    decreases steps
  {
    if steps != [] {
      StepKeeps(s, steps[0]);
      Reached(Apply(s, steps[0]), steps[1..], t);
    }
  }

  /** Whatever happened: every launched request is a success, a failure, a
      cancellation or in flight; no more than 128 are in flight; an unavailable
      one is a failure; and none is in flight once the test has stopped. */
  lemma Conservation(steps: seq<Step>, s: Sys)
    requires Leads(Initial(), steps, s)
    ensures s.stats.sent == s.stats.success + s.stats.failed + s.stats.canceled + s.stats.inFlight
    ensures 0 <= s.stats.inFlight <= 128
    ensures s.stats.unavailable <= s.stats.failed
    ensures s.stats.state.Idle? || s.stats.state.Stopped? ==> s.stats.inFlight == 0
  {
    Reached(Initial(), steps, s);
    if s.runs != [] {
      var r := |s.runs| - 1;
      assert Numbers(s, r) && RunInv(s.runs[r], s.requests, r);
      EachOnce(Results(s.history, r));
    }
  }

  /** The counters tally exactly what was recorded for requests of the run
      started last; nothing of an earlier run is ever among them. */
  lemma RunIsolation(steps: seq<Step>, s: Sys)
    requires Leads(Initial(), steps, s) && s.runs != []
    ensures var r := |s.runs| - 1;
      && Summarises(s.stats, Results(s.history, r))
      && s.stats.sent == Of(s.requests, r)
  {
    Reached(Initial(), steps, s);
  }

  /** And when a new run starts, all earlier ones are over, with none of their
      requests left to complete. */
  lemma OneRunAtATime(steps: seq<Step>, s: Sys, r: nat)
    requires Leads(Initial(), steps, s) && r < |s.runs| - 1
    ensures s.runs[r].phase.Over? && s.runs[r].pending == 0
    ensures forall q :: 0 <= q < |s.requests| && s.requests[q].run == r ==> s.requests[q].phase.Done?
  {
    Reached(Initial(), steps, s);
    assert RunInv(s.runs[r], s.requests, r);
    forall q | 0 <= q < |s.requests| && s.requests[q].run == r ensures s.requests[q].phase.Done? {
      IsCounted(s.requests, q);
    }
  }

  /** Start is refused for a valid request exactly while a run is under way or
      the application is ending. */
  lemma StartsWhenOver(steps: seq<Step>, s: Sys, rps: int)
    requires Leads(Initial(), steps, s) && 1 <= rps <= 1000
    ensures Refusal(s.stats, s.alive, true, rps).None? <==>
      s.alive && forall r :: 0 <= r < |s.runs| ==> s.runs[r].phase.Over?
  {
    Reached(Initial(), steps, s);
    assert s.runs != [] ==> s.runs[|s.runs| - 1].phase.Over? == s.stats.state.Stopped?;
  }

  /** The rate shown is the number of completions of the current run, canceled
      ones aside, in the last ten ticks, if the clock never stepped back. */
  lemma RateIsWindow(steps: seq<Step>, s: Sys, now: nat)
    requires Leads(Initial(), steps, s) && s.runs != []
    ensures var ticks := Ticks(Results(s.history, |s.runs| - 1));
      && Total(s.stats.ring, now) <= |Window(ticks, now)|
      && (Nondecreasing(ticks) && (forall t :: t in ticks ==> t <= now) ==>
            Total(s.stats.ring, now) == |Window(ticks, now)|)
  {
    Reached(Initial(), steps, s);
    var ticks := Ticks(Results(s.history, |s.runs| - 1));
    RingAgreesIff(s.stats.ring, ticks, now);
    if Nondecreasing(ticks) && (forall t :: t in ticks ==> t <= now) {
      RingAgrees(s.stats.ring, ticks, now);
    }
  }

  /** The guards of the model never block a goroutine that the code lets run: a
      recorded request can free its slot, and a freed one can finish. */
  lemma NeverStuck(steps: seq<Step>, s: Sys, q: nat, c: Completion)
    requires Leads(Initial(), steps, s) && q < |s.requests|
    ensures s.requests[q].run < |s.runs|
    ensures Enabled(s, Record(q, c)) <==>
      s.requests[q].phase == InFlight && (c.canceled ==> s.runs[s.requests[q].run].cancelled)
    ensures Enabled(s, Release(q)) <==> s.requests[q].phase == Counted
    ensures Enabled(s, Complete(q)) <==> s.requests[q].phase == Released
  {
    Reached(Initial(), steps, s);
    RequestMoves(s, q, c);
  }

  lemma {:induction false} RequestMoves(s: Sys, q: nat, c: Completion)
    requires BoundsInv(s) && RunsInv(s) && s.stats.WF() && q < |s.requests|
    ensures s.requests[q].run < |s.runs|
    ensures Enabled(s, Record(q, c)) <==>
      s.requests[q].phase == InFlight && (c.canceled ==> s.runs[s.requests[q].run].cancelled)
    ensures Enabled(s, Release(q)) <==> s.requests[q].phase == Counted
    ensures Enabled(s, Complete(q)) <==> s.requests[q].phase == Released
  {
    RoomForRequest(s, q);
  }

  /** A request that holds a slot, or is waited for, is counted where it has to be. */
  lemma {:induction false} RoomForRequest(s: Sys, q: nat)
    requires BoundsInv(s) && RunsInv(s) && q < |s.requests|
    ensures s.requests[q].run < |s.runs|
    ensures s.requests[q].phase == Counted ==> s.runs[s.requests[q].run].slots > 0
    ensures s.requests[q].phase == Released ==> s.runs[s.requests[q].run].pending > 0
  {
    var r := s.requests[q].run;
    IsCounted(s.requests, q);
    assert RunInv(s.runs[r], s.requests, r);
  }

  // ---- the run's own goroutine ---------------------------------------------

  /** The requests of run `r` that hold one of its slots, and those that it waits for. */
  function Holders(s: Sys, r: nat): nat { In(s.requests, r, InFlight) + In(s.requests, r, Counted) }

  function Awaited(s: Sys, r: nat): nat { Holders(s, r) + In(s.requests, r, Released) }

  lemma {:induction false} SlotMoves(s: Sys, r: nat)
    requires r < |s.runs| && RunInv(s.runs[r], s.requests, r)
    ensures Enabled(s, SkipTick(r)) <==> s.runs[r].phase == Ticked && Holders(s, r) == 128
    ensures Enabled(s, TakeSlot(r)) <==> s.runs[r].phase == Ticked && Holders(s, r) < 128
  {
    assert s.runs[r].phase == Ticked ==> s.runs[r].slots == Holders(s, r);
  }

  lemma {:induction false} OverMoves(s: Sys, r: nat)
    requires r < |s.runs| && RunInv(s.runs[r], s.requests, r)
    ensures Enabled(s, Finalize(r)) <==> s.runs[r].phase == Draining && Awaited(s, r) == 0
  {
    assert s.runs[r].pending == Awaited(s, r);
  }

  lemma {:induction false} PlainMoves(s: Sys, r: nat)
    requires r < |s.runs|
    ensures Enabled(s, Launch(r)) <==> s.runs[r].phase == Holding
    ensures Enabled(s, Tick(r)) <==> s.runs[r].phase == Looping
    ensures Enabled(s, Leave(r)) <==> s.runs[r].phase == Looping && s.runs[r].cancelled
  {}

  /** A tick is skipped exactly if 128 requests hold a slot, and otherwise taken; a run
      that was cancelled stops at its next tick; and a run is over only when none of
      its requests is left. */
  lemma {:induction false} RunMoves(steps: seq<Step>, s: Sys, r: nat)
    requires Leads(Initial(), steps, s) && r < |s.runs|
    ensures var phase := s.runs[r].phase;
      && (Enabled(s, SkipTick(r)) <==> phase == Ticked && Holders(s, r) == 128)
      && (Enabled(s, TakeSlot(r)) <==> phase == Ticked && Holders(s, r) < 128)
      && (Enabled(s, Launch(r)) <==> phase == Holding)
      && (Enabled(s, Tick(r)) <==> phase == Looping)
      && (Enabled(s, Leave(r)) <==> phase == Looping && s.runs[r].cancelled)
      && (Enabled(s, Finalize(r)) <==> phase == Draining && Awaited(s, r) == 0)
  {
    Reached(Initial(), steps, s);
    assert RunInv(s.runs[r], s.requests, r);
    SlotMoves(s, r);
    OverMoves(s, r);
    PlainMoves(s, r);
  }

  /** Where these steps bring the run's goroutine. */
  lemma {:induction false} RunPhases(s: Sys, step: Step, r: nat)
    requires Enabled(s, step) && r < |s.runs|
    requires step in {Tick(r), TakeSlot(r), SkipTick(r), Launch(r), Leave(r), Finalize(r)}
    ensures var t, run := Apply(s, step), s.runs[r];
      && |t.runs| == |s.runs|
      && t.runs[r].phase == (if step.Tick? then (if run.cancelled then Draining else Ticked)
                             else if step.TakeSlot? then Holding
                             else if step.SkipTick? || step.Launch? then Looping
                             else if step.Leave? then Draining
                             else Over)
      && (step.Launch? <==> t.requests != s.requests)
      && (step.Launch? ==> t.requests == s.requests + [Request(r, InFlight)] && t.stats == Launched(s.stats))
      && (step.SkipTick? ==> t.stats == Skipped(s.stats))
      && (step.Finalize? ==> t.stats == s.stats.(state := Stopped))
      && (step.Tick? || step.TakeSlot? || step.Leave? ==> t.stats == s.stats)
  {}

  /** What a stop and a shutdown do: a test that runs is stopping and its run is
      cancelled, any other is left alone; a shutdown cancels every run. */
  lemma {:induction false} StopMoves(steps: seq<Step>, s: Sys)
    requires Leads(Initial(), steps, s)
    ensures var t := Apply(s, Stop);
      && (s.stats.state == Running ==>
            t.stats == s.stats.(state := Stopping) && s.runs != [] && |t.runs| == |s.runs|
            && t.runs[|t.runs| - 1].cancelled)
      && (s.stats.state != Running ==> t == s)
    ensures var t := Apply(s, Shutdown);
      !t.alive && t.stats == s.stats && |t.runs| == |s.runs| && forall r :: 0 <= r < |t.runs| ==> t.runs[r].cancelled
  {
    Reached(Initial(), steps, s);
  }

  /** What a cancelled run may still launch: the request of a tick it has taken. */
  function Launchable(s: Sys, r: nat): nat
    requires r < |s.runs|
  {
    Of(s.requests, r) + Bit(s.runs[r].phase.Ticked? || s.runs[r].phase.Holding?)
  }

  lemma {:induction false} LaunchUsesUp(s: Sys, x: nat, r: nat)
    requires Enabled(s, Launch(x)) && r < |s.runs|
    ensures Launchable(Apply(s, Launch(x)), r) <= Launchable(s, r)
  {
    RequestAppended(s.requests, Request(x, InFlight));
  }

  lemma {:induction false} RequestKeeps(s: Sys, step: Step, r: nat)
    requires Enabled(s, step) && OfRequest(step) && r < |s.runs|
    ensures r < |Apply(s, step).runs| && Launchable(Apply(s, step), r) == Launchable(s, r)
  {
    RequestMoved(s.requests, step.request, Apply(s, step).requests[step.request]);
  }

  lemma {:induction false} RunKeeps(s: Sys, step: Step, r: nat)
    requires Enabled(s, step) && !OfRequest(step) && !step.Launch? && r < |s.runs| && s.runs[r].cancelled
    ensures r < |Apply(s, step).runs| && Launchable(Apply(s, step), r) <= Launchable(s, r)
  {
    assert Apply(s, step).requests == s.requests;
  }

  lemma {:induction false} StaysCancelled(s: Sys, step: Step, r: nat)
    requires Enabled(s, step) && r < |s.runs| && s.runs[r].cancelled
    ensures r < |Apply(s, step).runs| && Apply(s, step).runs[r].cancelled
  {}

  lemma {:induction false} NoMoreLaunched(s: Sys, step: Step, r: nat)
    requires Enabled(s, step) && r < |s.runs| && s.runs[r].cancelled
    ensures var t := Apply(s, step); r < |t.runs| && t.runs[r].cancelled && Launchable(t, r) <= Launchable(s, r)
  {
    StaysCancelled(s, step, r);
    if step.Launch? {
      LaunchUsesUp(s, step.run, r);
    } else if OfRequest(step) {
      RequestKeeps(s, step, r);
    } else {
      RunKeeps(s, step, r);
    }
  }

  /** Once a run is cancelled, by a stop or a shutdown, it launches at most one more
      request, and none if it waits for its next tick. */
  lemma {:induction false} CancelledLaunches(s: Sys, steps: seq<Step>, t: Sys, r: nat)
    requires Inv(s) && Leads(s, steps, t) && r < |s.runs| && s.runs[r].cancelled
    ensures r < |t.runs| && Launchable(t, r) <= Launchable(s, r)
    ensures Of(t.requests, r) <= Of(s.requests, r) + Bit(s.runs[r].phase == Ticked || s.runs[r].phase == Holding)
    decreases steps
  {
    if steps != [] {
      NoMoreLaunched(s, steps[0], r);
      StepKeeps(s, steps[0]);
      CancelledLaunches(Apply(s, steps[0]), steps[1..], t, r);
    }
  }
}
