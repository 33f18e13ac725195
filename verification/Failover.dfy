/** The failover loops of the proxy (internal/app/proxy.go).  What a dial, a
    round trip or a hijack does is given from outside, attempt by attempt. */
module Failover {
  import opened Base

  datatype Failure = Failure(text: string, timeout: bool)

  /** `hijackable`: whether the client's connection can be taken over, which a
      tunnel needs and only HTTP/1.1 allows. */
  datatype Request = Forward(hasBody: bool) | Connect(hijackable: bool)

  /** What one lease meets: no upstream connection; a connection, but no response,
      or for CONNECT a client whose connection could not be taken over; or a
      response with this status, relayed up to an error if there is one.  For
      CONNECT the last case is the tunnel, whose status the proxy chooses itself. */
  datatype Trip = NoConnection(err: Failure) | Lost(err: Failure) | Answered(status: nat, cut: Option<Failure>)

  /** How an attempt ends: whether response headers reached the client or, for
      CONNECT, there was an upstream connection, so that the request is over; whether
      the upstream connection was made, and the error if there was one; or by a panic. */
  datatype Outcome = Returned(responded: bool, dialed: bool, err: Option<Failure>) | Panicked

  /** The lowest status that can be written to a client; net/http panics below,
      although it reads responses with lower ones. */
  const LOWEST_STATUS := 100

  predicate Unwritable(request: Request, trip: Trip) {
    request.Forward? && trip.Answered? && trip.status < LOWEST_STATUS
  }

  const NO_HIJACK := Failure("hijacking unavailable", false)

  /** `forwardAttempt` and `connectAttempt`. */
  function OutcomeOf(request: Request, trip: Trip): Outcome {
    match trip
    case NoConnection(err) => Returned(false, false, Some(err))
    case Lost(err) => Returned(request.Connect?, true, Some(if request == Connect(false) then NO_HIJACK else err))
    case Answered(_, cut) =>
      if request == Connect(false) then Returned(true, true, Some(NO_HIJACK))
      else if Unwritable(request, trip) then Panicked
      else Returned(true, true, cut)
  }

  datatype Attempt = Attempt(lease: nat, outcome: Outcome)

  /** `OtherError`: the store failed, or the client's context ended while waiting. */
  datatype AcquireResult = Granted(lease: nat) | NoReady | OtherError

  /** What the outside world holds for one round of a handler's loop. */
  datatype Round = Round(clientGone: bool, acquire: AcquireResult, trip: Trip)

  /** One round for every attempt that the pool's size allows. */
  type World = seq<Round>

  /** How the handler uses the pool and its leases. */
  datatype PoolCall = Acquired(lease: nat) | Used(lease: nat) | Finished(lease: nat, failed: bool)

  datatype Response =
    | Relayed                 // a response or a tunnel reached the client
    | Unsupported             // 505, the client's connection can not be taken over
    | Untaken                 // taking it over failed, and nothing was written
    | Aborted                 // the stream is broken off
    | Crashed                 // the handler panicked inside an attempt
    | Silent                  // the client is gone
    | Unavailable             // 503, no lease for another reason
    | TryLater                // 503 with Retry-After
    | NoInstances             // 503 without it
    | BadGateway              // 502
    | GatewayTimeout          // 504

  function GatewayError(err: Failure): Response {
    if err.timeout then GatewayTimeout else BadGateway
  }

  /** `acquireError`. */
  function AcquireError(result: AcquireResult, lastErr: Option<Failure>): Response {
    if result != NoReady then Unavailable
    else if lastErr.Some? then GatewayError(lastErr.value)
    else TryLater
  }

  // ---- what the loops must do ----------------------------------------------

  /** Another instance may be tried after this attempt. */
  predicate MayRetry(request: Request, outcome: Outcome) {
    && outcome.Returned? && !outcome.responded && outcome.err.Some?
    && !(request.Forward? && request.hasBody && outcome.dialed)
  }

  /** The attempts are those of the first rounds, none was made after one that
      must not be retried, and no more than the pool has instances were made. */
  ghost predicate Faithful(request: Request, world: World, tried: seq<Attempt>) {
    && |tried| <= |world|
    && (forall i :: 0 <= i < |tried| ==>
          && world[i].acquire == Granted(tried[i].lease)
          && tried[i].outcome == OutcomeOf(request, world[i].trip))
    && (forall i :: 0 <= i < |tried| - 1 ==> MayRetry(request, tried[i].outcome))
    && (forall i :: 0 < i < |tried| ==> !world[i].clientGone)
  }

  function LastError(tried: seq<Attempt>): Option<Failure> {
    if tried == [] || tried[|tried| - 1].outcome.Panicked? then None else tried[|tried| - 1].outcome.err
  }

  /** What `connectAttempt` leaves the client with once it has a connection. */
  function Tunnel(hijackable: bool, trip: Trip): Response {
    if !hijackable then Unsupported else if trip.Lost? then Untaken else Relayed
  }

  /** What the client gets after the attempts that were made. */
  function Verdict(request: Request, world: World, tried: seq<Attempt>): Response
    requires |tried| <= |world|
  {
    var n := |tried|;
    if n > 0 && !MayRetry(request, tried[n - 1].outcome) then
      match tried[n - 1].outcome
      case Panicked => Crashed
      case Returned(responded, _, err) =>
        if request.Connect? then Tunnel(request.hijackable, world[n - 1].trip)
        else if err.None? then Relayed
        else if responded then Aborted
        else GatewayError(err.value)
    else if n >= |world| then
      if LastError(tried).Some? then GatewayError(LastError(tried).value) else NoInstances
    else if n > 0 && world[n].clientGone then Silent
    else AcquireError(world[n].acquire, LastError(tried))
  }

  /** The loop ended where it had to: on an attempt that settles the request,
      after as many attempts as there are instances, with the client gone, or
      without a lease. */
  predicate Exhausted(request: Request, world: World, tried: seq<Attempt>) {
    var n := |tried|;
    || (n > 0 && !MayRetry(request, tried[n - 1].outcome))
    || n >= |world|
    || (n > 0 && world[n].clientGone)
    || !world[n].acquire.Granted?
  }

  // ---- the use of leases ---------------------------------------------------

  /** What a handler has done with the pool so far: the lease it holds, the leases
      acquired and those finished, with whether there was an error, in order; and
      whether it acquired only when it held none, and used and finished only the
      one it held. */
  datatype Ledger = Ledger(held: Option<nat>, acquired: seq<nat>, finished: seq<(nat, bool)>, orderly: bool)

  const BLANK := Ledger(None, [], [], true)

  function Entered(b: Ledger, x: PoolCall): Ledger {
    match x
    case Acquired(l) => b.(held := Some(l), acquired := b.acquired + [l], orderly := b.orderly && b.held == None)
    case Used(l) => b.(orderly := b.orderly && b.held == Some(l))
    case Finished(l, failed) =>
      b.(held := None, finished := b.finished + [(l, failed)], orderly := b.orderly && b.held == Some(l))
  }

  /** Nothing was acquired while a lease was held, and every acquired lease was
      finished exactly once, except the one still held. */
  ghost predicate Balanced(b: Ledger) {
    && |b.acquired| == |b.finished| + (if b.held.Some? then 1 else 0)
    && (forall i :: 0 <= i < |b.finished| ==> b.finished[i].0 == b.acquired[i])
    && (b.held.Some? ==> b.acquired[|b.acquired| - 1] == b.held.value)
  }

  /** How many of these attempts returned: all but a last one that panicked. */
  function Returns(tried: seq<Attempt>): (n: nat)
    ensures n <= |tried|
  {
    if tried != [] && tried[|tried| - 1].outcome.Panicked? then |tried| - 1 else |tried|
  }

  /** Each lease was acquired in turn and, if its attempt returned, finished with
      that attempt's result before the next; only a last attempt that panicked
      leaves its lease held. */
  ghost predicate Settled(b: Ledger, tried: seq<Attempt>) {
    var n := Returns(tried);
    && b.orderly
    && |b.acquired| == |tried| && (forall i :: 0 <= i < |tried| ==> b.acquired[i] == tried[i].lease)
    && |b.finished| == n
    && (forall i :: 0 <= i < n ==>
          tried[i].outcome.Returned? && b.finished[i] == (tried[i].lease, tried[i].outcome.err.Some?))
    && b.held == if n < |tried| then Some(tried[n].lease) else None
  }

  // ---- the loops -----------------------------------------------------------

  /** `serveForward`. */
  method ServeForward(hasBody: bool, world: World)
    returns (response: Response, tried: seq<Attempt>, book: Ledger)
    ensures Faithful(Forward(hasBody), world, tried) && Exhausted(Forward(hasBody), world, tried)
    ensures response == Verdict(Forward(hasBody), world, tried)
    ensures Settled(book, tried)
  {
    var request := Forward(hasBody);
    var lastErr: Option<Failure> := None;
    tried, book := [], BLANK;
    for attempt := 0 to |world|
      invariant |tried| == attempt && Going(request, world, tried, book)
      invariant lastErr == LastError(tried) && (attempt > 0 ==> lastErr.Some?)
    {
      var round := world[attempt];
      if lastErr.Some? && round.clientGone {
        return Silent, tried, book;
      }
      if !round.acquire.Granted? {
        return AcquireError(round.acquire, lastErr), tried, book;
      }
      var outcome;
      outcome, tried, book := TryNext(request, world, tried, book);
      if outcome.Panicked? {
        return Crashed, tried, book;
      }
      if outcome.err.None? {
        return Relayed, tried, book;
      }
      lastErr := outcome.err;
      if outcome.responded {
        return Aborted, tried, book;
      }
      if hasBody && outcome.dialed {
        return GatewayError(outcome.err.value), tried, book;
      }
    }
    if lastErr.None? {
      return NoInstances, tried, book;
    }
    response := GatewayError(lastErr.value);
  }

  /** `serveConnect`. */
  method ServeConnect(hijackable: bool, world: World)
    returns (response: Response, tried: seq<Attempt>, book: Ledger)
    ensures Faithful(Connect(hijackable), world, tried) && Exhausted(Connect(hijackable), world, tried)
    ensures response == Verdict(Connect(hijackable), world, tried)
    ensures Settled(book, tried)
    ensures book.held == None
  {
    var request := Connect(hijackable);
    var lastErr: Option<Failure> := None;
    tried, book := [], BLANK;
    for attempt := 0 to |world|
      invariant |tried| == attempt && Going(request, world, tried, book)
      invariant lastErr == LastError(tried) && (attempt > 0 ==> lastErr.Some?)
    {
      var round := world[attempt];
      if lastErr.Some? && round.clientGone {
        return Silent, tried, book;
      }
      if !round.acquire.Granted? {
        return AcquireError(round.acquire, lastErr), tried, book;
      }
      var outcome;
      outcome, tried, book := TryNext(request, world, tried, book);
      if !outcome.responded {
        lastErr := outcome.err;
        continue;
      }
      return Tunnel(hijackable, round.trip), tried, book;
    }
    if lastErr.None? {
      return NoInstances, tried, book;
    }
    response := GatewayError(lastErr.value);
  }

  /** The loop goes on: no lease is held and the last attempt may be retried. */
  ghost predicate Going(request: Request, world: World, tried: seq<Attempt>, book: Ledger) {
    && Faithful(request, world, tried)
    && (tried != [] ==> MayRetry(request, tried[|tried| - 1].outcome))
    && Settled(book, tried) && book.held == None
  }

  /** The part of the loop body that holds a lease. */
  method TryNext(request: Request, world: World, before: seq<Attempt>, bookBefore: Ledger)
    returns (outcome: Outcome, tried: seq<Attempt>, book: Ledger)
    requires Going(request, world, before, bookBefore)
    requires |before| < |world| && world[|before|].acquire.Granted?
    requires before != [] ==> !world[|before|].clientGone
    ensures outcome == OutcomeOf(request, world[|before|].trip)
    ensures tried == before + [Attempt(world[|before|].acquire.lease, outcome)]
    ensures Faithful(request, world, tried) && Settled(book, tried)
    ensures MayRetry(request, outcome) ==> Going(request, world, tried, book)
  {
    var round := world[|before|];
    outcome, book := TryLease(request, round.acquire.lease, round.trip, bookBefore);
    tried := before + [Attempt(round.acquire.lease, outcome)];
  }

  /** A panic skips the finish. */
  method TryLease(request: Request, lease: nat, trip: Trip, before: Ledger) returns (outcome: Outcome, book: Ledger)
    requires before.orderly && before.held == None
    ensures outcome == OutcomeOf(request, trip)
    ensures book.orderly && book.acquired == before.acquired + [lease]
    ensures outcome.Panicked? ==> book.finished == before.finished && book.held == Some(lease)
    ensures outcome.Returned? ==>
      book.finished == before.finished + [(lease, outcome.err.Some?)] && book.held == None
  {
    book := Entered(before, Acquired(lease));
    book := Entered(book, Used(lease));
    outcome := OutcomeOf(request, trip);
    if outcome.Panicked? {
      return;
    }
    book := Entered(book, Finished(lease, outcome.err.Some?));
  }

  // ---- what this means -----------------------------------------------------

  /** Every lease that a handler acquired is finished when the handler returns, if
      and only if none of its attempts met a status that cannot be written. */
  lemma {:induction false} FinishedIff(request: Request, world: World, tried: seq<Attempt>, book: Ledger)
    requires Faithful(request, world, tried) && Settled(book, tried)
    ensures Balanced(book)
    ensures book.held == None <==> forall i :: 0 <= i < |tried| ==>
      !(request.Forward? && world[i].trip.Answered? && world[i].trip.status < 100)
    ensures request.Connect? ==> book.held == None
  {
    if tried != [] {
      var last := |tried| - 1;
      assert tried[last].outcome == OutcomeOf(request, world[last].trip);
      assert tried[last].outcome.Panicked? <==> Unwritable(request, world[last].trip);
      forall i | 0 <= i < last ensures !(world[i].trip.Answered? && world[i].trip.status < 100) {
        assert MayRetry(request, tried[i].outcome);
      }
    }
  }

  /** No attempt follows one after which headers were sent or a tunnel was handed
      over, nor one that may have sent the body, nor one that panicked. */
  lemma {:induction false} NoRetryAfterCommitment(request: Request, world: World, tried: seq<Attempt>, i: nat, j: nat)
    requires Faithful(request, world, tried) && i < j < |tried|
    ensures !world[i].trip.Answered? && (request.Connect? ==> world[i].trip.NoConnection?)
    ensures request.Forward? && request.hasBody ==> world[i].trip.NoConnection?
  {
    assert MayRetry(request, tried[i].outcome);
  }

  /** A status below 100 from the first instance: the handler ends by a panic and
      its lease is never finished. */
  lemma {:induction false} StrangeStatus(hasBody: bool, lease: nat)
    returns (world: World, tried: seq<Attempt>, book: Ledger)
    ensures world == [Round(false, Granted(lease), Answered(0, None))]
    ensures Faithful(Forward(hasBody), world, tried) && Exhausted(Forward(hasBody), world, tried)
    ensures Verdict(Forward(hasBody), world, tried) == Crashed
    ensures Settled(book, tried) && book.held == Some(lease)
  {
    world := [Round(false, Granted(lease), Answered(0, None))];
    tried, book := [Attempt(lease, Panicked)], Entered(Entered(BLANK, Acquired(lease)), Used(lease));
  }

  lemma {:induction false} SameSoFar(request: Request, world: World, a: seq<Attempt>, b: seq<Attempt>)
    requires Faithful(request, world, a) && Faithful(request, world, b) && |a| <= |b|
    ensures a == b[..|a|]
  {}

  /** A handler that went on had no reason to stop earlier. */
  lemma {:induction false} HadToGoOn(request: Request, world: World, b: seq<Attempt>, n: nat)
    requires Faithful(request, world, b) && n < |b|
    ensures !Exhausted(request, world, b[..n])
  {
    assert world[n].acquire == Granted(b[n].lease);
  }

  /** The attempts are settled by the world: there is only one way to fail over. */
  lemma {:induction false} FailoverDetermined(request: Request, world: World, a: seq<Attempt>, b: seq<Attempt>)
    requires Faithful(request, world, a) && Exhausted(request, world, a)
    requires Faithful(request, world, b) && Exhausted(request, world, b)
    ensures a == b
  {
    if |a| <= |b| {
      SameSoFar(request, world, a, b);
    } else {
      SameSoFar(request, world, b, a);
    }
    forall n | 0 <= n < |a| ensures !Exhausted(request, world, a[..n]) {
      HadToGoOn(request, world, a, n);
    }
    forall n | 0 <= n < |b| ensures !Exhausted(request, world, b[..n]) {
      HadToGoOn(request, world, b, n);
    }
  }

  /** The trip leaves the request open for another instance: there was no connection,
      or it was lost under a request without a body. */
  predicate LeavesOpen(request: Request, trip: Trip) {
    trip.NoConnection? || (trip.Lost? && request == Forward(false))
  }

  /** Another attempt follows exactly if the last one left the request open, there is
      an instance left to try, the client is still there and a lease was granted. */
  lemma {:induction false} GoesOnIff(request: Request, world: World, tried: seq<Attempt>, i: nat)
    requires Faithful(request, world, tried) && Exhausted(request, world, tried) && i < |tried|
    ensures i + 1 < |tried| <==>
      && LeavesOpen(request, world[i].trip) && i + 1 < |world|
      && !world[i + 1].clientGone && world[i + 1].acquire.Granted?
  {
    assert tried[i].outcome == OutcomeOf(request, world[i].trip);
    assert MayRetry(request, tried[i].outcome) <==> LeavesOpen(request, world[i].trip);
  }

  /** The first attempt is made exactly if there is an instance and a lease. */
  lemma {:induction false} StartsIff(request: Request, world: World, tried: seq<Attempt>)
    requires Faithful(request, world, tried) && Exhausted(request, world, tried)
    ensures tried != [] <==> world != [] && world[0].acquire.Granted?
  {}

  /** The attempts are over, but the last one left the request open. */
  predicate GaveUp(request: Request, world: World, n: nat) {
    0 < n <= |world| && LeavesOpen(request, world[n - 1].trip)
  }

  /** The last of `n` attempts met an error that the client is told: the body may have
      been sent, or no other instance could be tried or was ready. */
  predicate ErrorTold(request: Request, world: World, n: nat) {
    0 < n <= |world| && (
      || (request == Forward(true) && world[n - 1].trip.Lost?)
      || (GaveUp(request, world, n)
          && (n == |world| || (!world[n].clientGone && world[n].acquire == NoReady))))
  }

  /** What each answer means.  504 and 502 tell the last attempt's error, as it was a
      timeout or not.  Nothing is written exactly if the client went away before
      another try.  A 503 without a lease: for another reason than that nothing was
      ready; with Retry-After, that nothing was ready at the first try; and without
      it, that there is no instance.  A response or a tunnel was relayed whole, or a
      response broken off.  505, or nothing, exactly if there was a connection for a
      tunnel and the client's could not be taken over.  A crash, on a status below
      100. */
  lemma {:induction false} VerdictMeaning(request: Request, world: World, tried: seq<Attempt>)
    requires Faithful(request, world, tried) && Exhausted(request, world, tried)
    ensures var v, n := Verdict(request, world, tried), |tried|;
      && (v == GatewayTimeout <==> ErrorTold(request, world, n) && world[n - 1].trip.err.timeout)
      && (v == BadGateway <==> ErrorTold(request, world, n) && !world[n - 1].trip.err.timeout)
      && (v == Silent <==> GaveUp(request, world, n) && n < |world| && world[n].clientGone)
      && (v == Unavailable <==>
            && n < |world| && world[n].acquire == OtherError
            && (n == 0 || (GaveUp(request, world, n) && !world[n].clientGone)))
      && (v == TryLater <==> n == 0 && |world| > 0 && world[0].acquire == NoReady)
      && (v == NoInstances <==> |world| == 0)
  {
    if tried != [] {
      LastOutcome(request, world, tried);
    }
  }

  lemma {:induction false} LastOutcome(request: Request, world: World, tried: seq<Attempt>)
    requires Faithful(request, world, tried) && tried != []
    ensures tried[|tried| - 1].outcome == OutcomeOf(request, world[|tried| - 1].trip)
    ensures MayRetry(request, tried[|tried| - 1].outcome) <==> LeavesOpen(request, world[|tried| - 1].trip)
  {}

  lemma {:induction false} SettledMeaning(request: Request, world: World, tried: seq<Attempt>)
    requires Faithful(request, world, tried) && Exhausted(request, world, tried)
    ensures var v, n := Verdict(request, world, tried), |tried|;
      var last := if n == 0 then NoConnection(NO_HIJACK) else world[n - 1].trip;
      && (v == Relayed <==>
            && last.Answered?
            && (request == Connect(true) || (request.Forward? && last.status >= 100 && last.cut == None)))
      && (v == Aborted <==> request.Forward? && last.Answered? && last.status >= 100 && last.cut != None)
      && (v == Crashed <==> request.Forward? && last.Answered? && last.status < 100)
      && (v == Unsupported <==> request == Connect(false) && !last.NoConnection?)
      && (v == Untaken <==> request == Connect(true) && last.Lost?)
  {
    if tried != [] {
      LastOutcome(request, world, tried);
    }
  }

  /** How each lease is finished: without an error exactly if a whole response or a
      tunnel came of it. */
  lemma {:induction false} FinishedAs(request: Request, world: World, tried: seq<Attempt>, book: Ledger, i: nat)
    requires Faithful(request, world, tried) && Settled(book, tried) && i < |book.finished|
    ensures i < |tried| && book.finished[i].0 == tried[i].lease
    ensures !book.finished[i].1 <==>
      world[i].trip.Answered? && world[i].trip.cut == None && request != Connect(false)
  {
    assert tried[i].outcome == OutcomeOf(request, world[i].trip);
  }
}
