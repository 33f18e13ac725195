/** The load tester's counters (internal/app/loadtest.go): one critical section
    after another over fields updated in place, against the list of completions
    they summarise. */
module LoadTest {
  import opened Base
  import opened RateRing

  const MAX_RPS := 1000
  const MAX_IN_FLIGHT := 128
  const UNAVAILABLE := 503

  datatype State = Idle | Running | Stopping | Stopped

  datatype StartError = BadUrl | BadRate | ShuttingDown | AlreadyActive

  /** An error's text, or the status that was not a success. */
  datatype Problem = Message(text: string) | HttpStatus(code: int)

  /** Times are in nanoseconds. */
  datatype Stats = Stats(
    state: State, targetRps: int, sent: nat, success: nat, failed: nat, unavailable: nat, canceled: nat,
    skipped: nat, inFlight: int, codes: map<int, nat>, ring: seq<Bucket>,
    totalTime: nat, successTime: nat, lastError: Option<Problem>)
  {
    predicate WF() { |ring| == WIDTH }
  }

  /** How a request ended: the status code or 0, the error if there was one, whether
      the run's context had been cancelled by then, and how long it took. */
  datatype Completion = Completion(code: int, error: Option<string>, canceled: bool, tick: nat, elapsed: nat)

  predicate Succeeded(c: Completion) { !c.canceled && c.error.None? && 200 <= c.code < 300 }

  predicate Failed(c: Completion) { !c.canceled && (c.error.Some? || c.code < 200 || c.code >= 300) }

  predicate Canceled(c: Completion) { c.canceled }

  predicate WasUnavailable(c: Completion) { !c.canceled && c.code == 503 }

  const NS_PER_MS := 1_000_000

  /** The mean of `n` times in milliseconds, 0 if there are none; a millisecond is a
      million nanoseconds. */
  function Mean(time: nat, n: nat): real {
    if n == 0 then 0.0 else time as real / 1000000.0 / n as real
  }

  function Times(codes: map<int, nat>, code: int): nat {
    if code in codes then codes[code] else 0
  }

  function NoStats(): (s: Stats)
    ensures s.WF()
  {
    Stats(Idle, 1, 0, 0, 0, 0, 0, 0, 0, map[], Empty(), 0, 0, None)
  }

  /** Why Start refuses, if it does. */
  function Refusal(s: Stats, alive: bool, urlOk: bool, rps: int): Option<StartError> {
    if !urlOk then Some(BadUrl)
    else if rps < 1 || rps > MAX_RPS then Some(BadRate)
    else if !alive then Some(ShuttingDown)
    else if s.state.Running? || s.state.Stopping? then Some(AlreadyActive)
    else None
  }

  function Started(rps: int): Stats { NoStats().(state := Running, targetRps := rps) }

  function StopAsked(s: Stats): Stats {
    if s.state.Running? then s.(state := Stopping) else s
  }

  function Launched(s: Stats): Stats { s.(sent := s.sent + 1, inFlight := s.inFlight + 1) }

  function Skipped(s: Stats): Stats { s.(skipped := s.skipped + 1) }

  function ProblemOf(c: Completion): Problem {
    if c.error.Some? then Message(c.error.value) else HttpStatus(c.code)
  }

  /** `record`. */
  function Recorded(s: Stats, c: Completion): (t: Stats)
    requires s.WF()
    ensures t.WF()
  {
    if c.canceled then s.(inFlight := s.inFlight - 1, canceled := s.canceled + 1)
    else
      s.(inFlight := s.inFlight - 1,
         codes := if c.code == 0 then s.codes else s.codes[c.code := Times(s.codes, c.code) + 1],
         unavailable := s.unavailable + if c.code == UNAVAILABLE then 1 else 0,
         success := s.success + if c.error.None? && 200 <= c.code < 300 then 1 else 0,
         failed := s.failed + if c.error.None? && 200 <= c.code < 300 then 0 else 1,
         lastError := if c.error.None? && 200 <= c.code < 300 then s.lastError else Some(ProblemOf(c)),
         totalTime := s.totalTime + c.elapsed,
         successTime := s.successTime + if c.error.None? && 200 <= c.code < 300 then c.elapsed else 0,
         ring := Put(s.ring, c.tick))
  }

  function Ended(s: Stats): Stats { s.(state := Stopped) }

  /** When a start is refused, in this order: for a bad URL, for a rate that is not
      from 1 to 1000, because the application is ending, and because a test is under
      way. */
  lemma {:induction false} RefusalMeaning(s: Stats, alive: bool, urlOk: bool, rps: int)
    ensures var r, valid := Refusal(s, alive, urlOk, rps), 1 <= rps <= 1000;
      && (r == Some(BadUrl) <==> !urlOk)
      && (r == Some(BadRate) <==> urlOk && !valid)
      && (r == Some(ShuttingDown) <==> urlOk && valid && !alive)
      && (r == Some(AlreadyActive) <==> urlOk && valid && alive && s.state in {Running, Stopping})
      && (r == None <==> urlOk && valid && alive && s.state in {Idle, Stopped})
  {}

  /** A test starts with its rate and everything else at zero; it is stopped only while
      it runs, and what is launched or skipped moves nothing else. */
  lemma {:induction false} MovesOf(s: Stats, rps: int)
    ensures var t := Started(rps);
      && t.state == Running && t.targetRps == rps && t.codes == map[] && t.lastError == None
      && t.sent == t.success == t.failed == t.unavailable == t.canceled == t.skipped == 0 && t.inFlight == 0
      && t.totalTime == t.successTime == 0 && |t.ring| == 10 && forall i :: 0 <= i < 10 ==> t.ring[i] == Bucket(0, 0)
    ensures StopAsked(s).state == (if s.state == Running then Stopping else s.state)
    ensures StopAsked(s) == s.(state := StopAsked(s).state)
    ensures Launched(s).sent == s.sent + 1 && Launched(s).inFlight == s.inFlight + 1
    ensures Launched(s) == s.(sent := Launched(s).sent, inFlight := Launched(s).inFlight)
    ensures Skipped(s).skipped == s.skipped + 1 && Skipped(s) == s.(skipped := Skipped(s).skipped)
    ensures Ended(s).state == Stopped && Ended(s) == s.(state := Ended(s).state)
  {}

  // ---- the list of completions ---------------------------------------------

  function CountIf(log: seq<Completion>, p: Completion -> bool): (n: nat)
    ensures n <= |log|
  {
    if log == [] then 0
    else CountIf(log[..|log| - 1], p) + if p(log[|log| - 1]) then 1 else 0
  }

  predicate Counted(c: Completion) { !c.canceled }

  /** The time that these completions took together. */
  function TimeOf(log: seq<Completion>, p: Completion -> bool): nat {
    if log == [] then 0
    else TimeOf(log[..|log| - 1], p) + if p(log[|log| - 1]) then log[|log| - 1].elapsed else 0
  }

  /** What was wrong with the last completion that failed. */
  function LastProblem(log: seq<Completion>): Option<Problem> {
    if log == [] then None
    else if Failed(log[|log| - 1]) then
      var last := log[|log| - 1];
      Some(if last.error.Some? then Message(last.error.value) else HttpStatus(last.code))
    else LastProblem(log[..|log| - 1])
  }

  /** The ticks of the completions that were not canceled. */
  function Ticks(log: seq<Completion>): seq<nat> {
    if log == [] then []
    else
      var last := log[|log| - 1];
      Ticks(log[..|log| - 1]) + if last.canceled then [] else [last.tick]
  }

  function WithCode(code: int): Completion -> bool {
    (c: Completion) => !c.canceled && c.code == code
  }

  /** The counters are the tallies of exactly these completions. */
  ghost predicate Summarises(s: Stats, log: seq<Completion>) {
    && s.success == CountIf(log, Succeeded)
    && s.failed == CountIf(log, Failed)
    && s.canceled == CountIf(log, Canceled)
    && s.unavailable == CountIf(log, WasUnavailable)
    && (forall code :: Times(s.codes, code) == if code == 0 then 0 else CountIf(log, WithCode(code)))
    && Shows(s.ring, Ticks(log))
    && s.totalTime == TimeOf(log, Counted) && s.successTime == TimeOf(log, Succeeded)
    && s.lastError == LastProblem(log)
  }

  lemma CountMore(log: seq<Completion>, c: Completion, p: Completion -> bool)
    ensures CountIf(log + [c], p) == CountIf(log, p) + if p(c) then 1 else 0
    ensures TimeOf(log + [c], p) == TimeOf(log, p) + if p(c) then c.elapsed else 0
  {
    assert (log + [c])[..|log|] == log;
  }

  /** Recording a completion adds it to the tallies and to nothing else. */
  lemma RecordSummarises(s: Stats, log: seq<Completion>, c: Completion)
    requires s.WF() && Summarises(s, log)
    ensures Summarises(Recorded(s, c), log + [c])
  {
    CountMore(log, c, Counted);
    CountMore(log, c, Succeeded);
    CountMore(log, c, Failed);
    CountMore(log, c, Canceled);
    CountMore(log, c, WasUnavailable);
    forall code { CountMore(log, c, WithCode(code)); }
    assert (log + [c])[..|log|] == log;
    if !c.canceled {
      PutShows(s.ring, Ticks(log), c.tick);
    } else {
      assert Ticks(log + [c]) == Ticks(log);
    }
  }

  /** Every completion counts once, as success, failure or cancellation, and an
      unavailable one is a failure. */
  lemma {:induction false} EachOnce(log: seq<Completion>)
    ensures CountIf(log, Succeeded) + CountIf(log, Failed) + CountIf(log, Canceled) == |log|
    ensures CountIf(log, Succeeded) + CountIf(log, Failed) == CountIf(log, Counted)
    ensures CountIf(log, WasUnavailable) <= CountIf(log, Failed)
  {
    if log != [] {
      EachOnce(log[..|log| - 1]);
    }
  }

  // ---- the tester itself ---------------------------------------------------

  class LoadTester {
    var state: State
    var targetRps: int
    var sent: nat
    var success: nat
    var failed: nat
    var unavailable: nat
    var canceled: nat
    var skipped: nat
    var inFlight: int
    var codes: map<int, nat>
    var totalTime: nat
    var successTime: nat
    var lastError: Option<Problem>
    const buckets: array<Bucket>

    ghost predicate Valid() { buckets.Length == WIDTH }

    ghost function View(): (s: Stats)
      requires Valid()
      reads this, buckets
      ensures s.WF()
    {
      Stats(state, targetRps, sent, success, failed, unavailable, canceled, skipped, inFlight, codes, buckets[..],
            totalTime, successTime, lastError)
    }

    constructor ()
      ensures Valid() && fresh(buckets) && View() == NoStats()
    {
      state, targetRps := Idle, 1;
      sent, success, failed, unavailable, canceled, skipped, inFlight := 0, 0, 0, 0, 0, 0, 0;
      codes, totalTime, successTime, lastError := map[], 0, 0, None;
      buckets := new Bucket[WIDTH](_ => Bucket(0, 0));
      new;
      assert buckets[..] == Empty();
    }

    method Start(alive: bool, urlOk: bool, rps: int) returns (refusal: Option<StartError>)
      requires Valid()
      modifies this, buckets
      ensures refusal == Refusal(old(View()), alive, urlOk, rps)
      ensures View() == if refusal.None? then Started(rps) else old(View())
    {
      if !urlOk {
        return Some(BadUrl);
      }
      if rps < 1 || rps > MAX_RPS {
        return Some(BadRate);
      }
      if !alive {
        return Some(ShuttingDown);
      }
      if state.Running? || state.Stopping? {
        return Some(AlreadyActive);
      }
      Reset(rps);
      return None;
    }

    method Reset(rps: int)
      requires Valid()
      modifies this, buckets
      ensures View() == Started(rps)
    {
      state, targetRps := Running, rps;
      sent, success, failed, unavailable, canceled, skipped, inFlight := 0, 0, 0, 0, 0, 0, 0;
      codes, totalTime, successTime, lastError := map[], 0, 0, None;
      Clear(buckets);
    }

    /** Answers whether the run's context is to be cancelled. */
    method Stop() returns (cancel: bool)
      requires Valid()
      modifies this`state
      ensures cancel == old(state).Running? && View() == StopAsked(old(View()))
    {
      cancel := state.Running?;
      if cancel {
        state := Stopping;
      }
    }

    method Launch()
      requires Valid()
      modifies this`sent, this`inFlight
      ensures View() == Launched(old(View()))
    {
      sent := sent + 1;
      inFlight := inFlight + 1;
    }

    method Skip()
      requires Valid()
      modifies this`skipped
      ensures View() == Skipped(old(View()))
    {
      skipped := skipped + 1;
    }

    method Record(c: Completion)
      requires Valid()
      modifies this, buckets
      ensures View() == Recorded(old(View()), c)
    {
      inFlight := inFlight - 1;
      if c.canceled {
        canceled := canceled + 1;
        return;
      }
      totalTime := totalTime + c.elapsed;
      CountCode(c.code);
      Settle(c);
      Count(buckets, c.tick);
    }

    method CountCode(code: int)
      requires Valid()
      modifies this`codes, this`unavailable
      ensures var s := old(View());
        View() == s.(codes := if code == 0 then s.codes else s.codes[code := Times(s.codes, code) + 1],
                     unavailable := s.unavailable + if code == UNAVAILABLE then 1 else 0)
    {
      if code != 0 {
        codes := codes[code := Times(codes, code) + 1];
      }
      if code == UNAVAILABLE {
        unavailable := unavailable + 1;
      }
    }

    method Settle(c: Completion)
      requires Valid()
      modifies this`success, this`failed, this`successTime, this`lastError
      ensures var s, good := old(View()), c.error.None? && 200 <= c.code < 300;
        View() == if good then s.(success := s.success + 1, successTime := s.successTime + c.elapsed)
                  else s.(failed := s.failed + 1, lastError := Some(ProblemOf(c)))
    {
      if c.error.None? && 200 <= c.code < 300 {
        success := success + 1;
        successTime := successTime + c.elapsed;
      } else {
        failed := failed + 1;
        lastError := Some(if c.error.Some? then Message(c.error.value) else HttpStatus(c.code));
      }
    }

    method End()
      requires Valid()
      modifies this`state
      ensures View() == Ended(old(View()))
    {
      state := Stopped;
    }

    /** `Snapshot`, on a tester whose counters summarise `log`. */
    method Snapshot(now: nat, ghost log: seq<Completion>)
      returns (stats: Stats, average: real, successAverage: real, rate: nat)
      requires Valid() && Summarises(View(), log)
      ensures stats == View()
      ensures average == Mean(TimeOf(log, Counted), CountIf(log, Counted))
      ensures successAverage == Mean(TimeOf(log, Succeeded), CountIf(log, Succeeded))
      ensures rate == |Visible(Ticks(log), now)|
    {
      EachOnce(log);
      average, successAverage := 0.0, 0.0;
      var n := success + failed;
      if n > 0 {
        average := totalTime as real / NS_PER_MS as real / n as real;
      }
      if success > 0 {
        successAverage := successTime as real / NS_PER_MS as real / success as real;
      }
      rate := Rate(buckets, now);
      RingTotal(buckets[..], Ticks(log), now);
      stats := Stats(state, targetRps, sent, success, failed, unavailable, canceled, skipped, inFlight, codes,
                     buckets[..], totalTime, successTime, lastError);
    }
  }
}
