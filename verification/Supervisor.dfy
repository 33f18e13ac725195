/** The loop of superviseTor after bootstrap (internal/app/tor.go): when an
    instance is rebuilt, and how long it waits between cycles. */
module Supervisor {
  import opened Base

  datatype Error = UsedIp | ServeFailures | FreshRestart | BootstrapStuck | ControlClosed | ContextDone | OtherError

  /** What the outside world holds for one turn of the loop: whether the context
      ended before the cycle, the cycle's result, whether the context or the
      control session had ended after it, whether the pause was cut short, and
      the result of NEWNYM. */
  datatype Turn = Turn(
    goneBefore: bool, result: Option<Error>, goneAfter: bool, controlClosed: bool, pauseCut: bool,
    newnym: Option<Error>)

  const BASE := 10
  const LONGEST := 60

  /** `needsFreshRestart`. */
  predicate NeedsFreshRestart(e: Error) {
    e == FreshRestart || e == BootstrapStuck || e == ServeFailures
  }

  function Min(a: nat, b: nat): nat { if a < b then a else b }

  function Pow2(k: nat): (p: nat)
    ensures p > 0
  {
    if k == 0 then 1 else 2 * Pow2(k - 1)
  }

  // ---- the policy ----------------------------------------------------------

  /** The last `m` of these turns all ended with a used address. */
  predicate AllUsed(turns: seq<Turn>, m: nat) {
    m <= |turns| && forall k :: |turns| - m <= k < |turns| ==> turns[k].result == Some(UsedIp)
  }

  /** How many turns at the end failed, whatever the error. */
  function ErrorRun(turns: seq<Turn>): (n: nat)
    ensures n <= |turns|
  {
    if turns == [] || turns[|turns| - 1].result.None? then 0
    else ErrorRun(turns[..|turns| - 1]) + 1
  }

  /** The pause after these turns, before jitter, in seconds. */
  function Delay(turns: seq<Turn>): nat { Min(LONGEST, BASE * Pow2(ErrorRun(turns))) }

  /** The turn is broken off before the streak is looked at. */
  predicate BrokenOff(turn: Turn) { turn.goneBefore || turn.goneAfter || turn.controlClosed }

  /** Turn `k` is the last of `m` in a row that found a used address. */
  predicate StreakAt(m: nat, turns: seq<Turn>, k: nat)
    requires k < |turns|
  {
    AllUsed(turns[..k + 1], m)
  }

  predicate Restarts(unique: bool, m: nat, turns: seq<Turn>, k: nat)
    requires k < |turns|
  {
    !BrokenOff(turns[k]) && unique && StreakAt(m, turns, k)
  }

  predicate Stops(unique: bool, m: nat, turns: seq<Turn>, k: nat)
    requires k < |turns|
  {
    BrokenOff(turns[k]) || Restarts(unique, m, turns, k) || turns[k].pauseCut || turns[k].newnym.Some?
  }

  function ExitAt(unique: bool, m: nat, turns: seq<Turn>, k: nat): Error
    requires k < |turns| && Stops(unique, m, turns, k)
  {
    if turns[k].goneBefore || turns[k].goneAfter then ContextDone
    else if turns[k].controlClosed then ControlClosed
    else if Restarts(unique, m, turns, k) then FreshRestart
    else if turns[k].pauseCut then ContextDone
    else turns[k].newnym.value
  }

  // ---- the loop ------------------------------------------------------------

  /** How many turns at the end of these found a used address. */
  function UsedRun(turns: seq<Turn>): (n: nat)
    ensures n <= |turns|
  {
    if turns == [] || turns[|turns| - 1].result != Some(UsedIp) then 0
    else UsedRun(turns[..|turns| - 1]) + 1
  }

  lemma {:induction false} UsedRunMeaning(turns: seq<Turn>, m: nat)
    ensures UsedRun(turns) >= m <==> AllUsed(turns, m)
  {
    if m > 0 && turns != [] && turns[|turns| - 1].result == Some(UsedIp) {
      var before := turns[..|turns| - 1];
      UsedRunMeaning(before, m - 1);
      if AllUsed(before, m - 1) {
        forall k | |turns| - m <= k < |turns| ensures turns[k].result == Some(UsedIp) {
          assert k < |before| ==> before[k] == turns[k];
        }
      } else if m <= |turns| {
        var k :| |before| - (m - 1) <= k < |before| && before[k].result != Some(UsedIp);
        assert turns[k] == before[k];
      }
    } else if m > 0 && turns != [] {
      assert |turns| - m <= |turns| - 1;
    }
  }

  /** A run of at least `m` errors: the last `m` turns all failed, whatever the error. */
  lemma {:induction false} ErrorRunMeaning(turns: seq<Turn>, m: nat)
    ensures ErrorRun(turns) >= m <==>
      m <= |turns| && forall k :: |turns| - m <= k < |turns| ==> turns[k].result != None
  {
    if m > 0 && turns != [] && turns[|turns| - 1].result.Some? {
      var before := turns[..|turns| - 1];
      ErrorRunMeaning(before, m - 1);
      assert forall k :: 0 <= k < |before| ==> before[k] == turns[k];
      if m <= |turns| && ErrorRun(before) < m - 1 {
        var k :| |before| - (m - 1) <= k < |before| && before[k].result == None;
        assert turns[k].result == None;
      }
    } else if m > 0 && turns != [] {
      assert |turns| - m <= |turns| - 1;
    }
  }

  /** One more turn lengthens or ends the streaks, and sets the next delay. */
  lemma OneMore(m: nat, turns: seq<Turn>, k: nat)
    requires k < |turns|
    ensures UsedRun(turns[..k + 1]) == if turns[k].result == Some(UsedIp) then UsedRun(turns[..k]) + 1 else 0
    ensures StreakAt(m, turns, k) <==> UsedRun(turns[..k + 1]) >= m
    ensures Delay(turns[..k + 1]) == if turns[k].result.Some? then Min(LONGEST, Delay(turns[..k]) * 2) else BASE
  {
    assert turns[..k + 1][..k] == turns[..k];
    UsedRunMeaning(turns[..k + 1], m);
  }

  /** `shouldRestartForUsedIP`, with the streak passed in and out: it is called
      with the result of turn `k` and the streak that the turns before it left. */
  method ShouldRestartForUsedIp(
      unique: bool, m: nat, streak: nat, err: Option<Error>, ghost turns: seq<Turn>, ghost k: nat)
    returns (restart: bool, now: nat)
    requires k < |turns| && turns[k].result == err
    requires streak == if unique then UsedRun(turns[..k]) else 0
    ensures restart <==> unique && StreakAt(m, turns, k)
    ensures now == if unique then UsedRun(turns[..k + 1]) else 0
  {
    OneMore(m, turns, k);
    now := if unique && err == Some(UsedIp) then streak + 1 else 0;
    restart := unique && now >= m;
  }

  /** The loop, over as many turns as the world holds. It stops at the first turn
      at which it has to, and pauses as the policy says. */
  method Supervise(unique: bool, m: nat, turns: seq<Turn>) returns (exit: Option<Error>, made: nat, delays: seq<nat>)
    ensures made <= |turns|
    ensures forall k :: 0 <= k < made ==> !Stops(unique, m, turns, k)
    ensures exit.None? <==> made == |turns|
    ensures exit.Some? ==> Stops(unique, m, turns, made) && exit.value == ExitAt(unique, m, turns, made)
    ensures made <= |delays| <= |turns| && forall k :: 0 <= k < |delays| ==> delays[k] == Delay(turns[..k + 1])
    ensures |delays| > made <==>
      exit.Some? && !BrokenOff(turns[made]) && !Restarts(unique, m, turns, made)
  {
    var backoff, streak := BASE, 0;
    made, delays := 0, [];
    while made < |turns|
      invariant made <= |turns| && |delays| == made
      invariant forall k :: 0 <= k < made ==> !Stops(unique, m, turns, k)
      invariant forall k :: 0 <= k < made ==> delays[k] == Delay(turns[..k + 1])
      invariant backoff == Delay(turns[..made])
      invariant streak == if unique then UsedRun(turns[..made]) else 0
    {
      var turn := turns[made];
      OneMore(m, turns, made);
      if turn.goneBefore || turn.goneAfter {
        return Some(ContextDone), made, delays;
      }
      if turn.controlClosed {
        return Some(ControlClosed), made, delays;
      }
      var restart;
      restart, streak := ShouldRestartForUsedIp(unique, m, streak, turn.result, turns, made);
      if restart {
        return Some(FreshRestart), made, delays;
      }
      if turn.result.Some? {
        backoff := Min(LONGEST, backoff * 2);
      } else {
        backoff := BASE;
      }
      delays := delays + [backoff];
      if turn.pauseCut {
        return Some(ContextDone), made, delays;
      }
      if turn.newnym.Some? {
        return turn.newnym, made, delays;
      }
      made := made + 1;
    }
    exit := None;
  }

  // ---- what this means -----------------------------------------------------

  /** The delay is 10 seconds after a cycle that worked, doubles with every error
      and stays at 60: 20, 40, 60, 60 and so on. */
  lemma {:induction false} DelayLadder(turns: seq<Turn>)
    ensures BASE <= Delay(turns) <= LONGEST
    ensures Delay(turns) == match ErrorRun(turns) case 0 => 10 case 1 => 20 case 2 => 40 case _ => 60
  {
    var k := ErrorRun(turns);
    assert Pow2(1) == 2 && Pow2(2) == 4;
    if k >= 3 {
      Grows(3, k);
      assert Pow2(3) == 2 * Pow2(2);
    }
  }

  lemma {:induction false} Grows(j: nat, k: nat)
    requires j <= k
    ensures Pow2(j) <= Pow2(k)
  {
    if j < k {
      Grows(j, k - 1);
    }
  }

  /** Turn `k` ends a run of `m` used addresses in unique mode. */
  predicate StreakEnds(unique: bool, m: nat, turns: seq<Turn>, k: nat)
    requires k < |turns|
  {
    unique && m <= k + 1 && forall i :: k + 1 - m <= i <= k ==> turns[i].result == Some(UsedIp)
  }

  lemma {:induction false} StreakIs(unique: bool, m: nat, turns: seq<Turn>, k: nat)
    requires k < |turns|
    ensures StreakEnds(unique, m, turns, k) <==> unique && StreakAt(m, turns, k)
  {
    var seen := turns[..k + 1];
    assert forall i :: 0 <= i <= k ==> seen[i] == turns[i];
  }

  /** When the loop stops at a turn, and why: first that the context ended before or
      after the cycle, then that the control session did, then that a streak of used
      addresses asks for a rebuild, then that the context ended during the pause, and
      at last NEWNYM's own error. */
  lemma {:induction false} ExitMeaning(unique: bool, m: nat, turns: seq<Turn>, k: nat)
    requires k < |turns|
    ensures var t, streak := turns[k], StreakEnds(unique, m, turns, k);
      Stops(unique, m, turns, k) <==>
        t.goneBefore || t.goneAfter || t.controlClosed || streak || t.pauseCut || t.newnym != None
    ensures Stops(unique, m, turns, k) ==>
      var t, streak, why := turns[k], StreakEnds(unique, m, turns, k), ExitAt(unique, m, turns, k);
      && (t.goneBefore || t.goneAfter ==> why == ContextDone)
      && (!t.goneBefore && !t.goneAfter && t.controlClosed ==> why == ControlClosed)
      && (!t.goneBefore && !t.goneAfter && !t.controlClosed && streak ==> why == FreshRestart)
      && (!t.goneBefore && !t.goneAfter && !t.controlClosed && !streak && t.pauseCut ==> why == ContextDone)
      && (!t.goneBefore && !t.goneAfter && !t.controlClosed && !streak && !t.pauseCut ==> Some(why) == t.newnym)
  {
    StreakIs(unique, m, turns, k);
  }

  /** The errors after which an instance is rebuilt from scratch. */
  lemma {:induction false} RebuildErrors(e: Error)
    ensures NeedsFreshRestart(e) <==> e in {FreshRestart, BootstrapStuck, ServeFailures}
  {}

  /** A rebuild is asked for exactly when the last `m` results were all used
      addresses, in unique mode, and no turn before had to stop the loop. */
  lemma RestartIff(unique: bool, m: nat, turns: seq<Turn>, k: nat)
    requires k < |turns| && Stops(unique, m, turns, k)
    requires NewnymPlain(turns)
    ensures ExitAt(unique, m, turns, k) == FreshRestart <==> Restarts(unique, m, turns, k)
    ensures NeedsFreshRestart(ExitAt(unique, m, turns, k)) <==> Restarts(unique, m, turns, k)
    ensures !unique ==> !NeedsFreshRestart(ExitAt(unique, m, turns, k))
  {
    if turns[k].newnym.Some? {
      assert turns[k].newnym.value in {ControlClosed, ContextDone, OtherError};
    }
  }

  /** A control command fails because the session or the context ended, or with
      Tor's own error. */
  ghost predicate NewnymPlain(turns: seq<Turn>) {
    forall k :: 0 <= k < |turns| && turns[k].newnym.Some? ==>
      turns[k].newnym.value in {ControlClosed, ContextDone, OtherError}
  }

  /** The turn goes by without the world stopping the loop. */
  ghost predicate Quiet(turn: Turn) {
    !BrokenOff(turn) && !turn.pauseCut && turn.newnym.None?
  }

  /** A cycle's serve failures never make the loop end, however many there are in
      a row: the loop goes on if and only if no used-address streak is reached. */
  lemma GoesOnIff(unique: bool, m: nat, turns: seq<Turn>)
    requires forall k :: 0 <= k < |turns| ==> Quiet(turns[k])
    ensures (exists k :: 0 <= k < |turns| && Stops(unique, m, turns, k)) <==>
      (unique && exists k :: 0 <= k < |turns| && StreakAt(m, turns, k))
  {
    forall k | 0 <= k < |turns| ensures Stops(unique, m, turns, k) <==> unique && StreakAt(m, turns, k) {
      assert Quiet(turns[k]);
    }
  }

  /** The same turns with every serve failure replaced by an ordinary error. */
  function Plain(turns: seq<Turn>): seq<Turn> {
    seq(|turns|, k requires 0 <= k < |turns| =>
      if turns[k].result == Some(ServeFailures) then turns[k].(result := Some(OtherError)) else turns[k])
  }

  /** A cycle's serve failures are ordinary errors to this loop: it stops at the
      same turn, for the same reason and after the same delays. */
  lemma ServeFailuresAreOrdinary(unique: bool, m: nat, turns: seq<Turn>, k: nat)
    requires k < |turns|
    ensures Stops(unique, m, Plain(turns), k) == Stops(unique, m, turns, k)
    ensures Stops(unique, m, turns, k) ==> ExitAt(unique, m, Plain(turns), k) == ExitAt(unique, m, turns, k)
    ensures Delay(Plain(turns)[..k + 1]) == Delay(turns[..k + 1])
  {
    var seen := turns[..k + 1];
    assert Plain(turns)[..k + 1] == Plain(seen);
    SameErrorRun(seen);
    assert AllUsed(Plain(seen), m) == AllUsed(seen, m) by {
      assert forall i :: 0 <= i < |seen| ==>
        (Plain(seen)[i].result == Some(UsedIp)) == (seen[i].result == Some(UsedIp));
    }
  }

  lemma {:induction false} SameErrorRun(turns: seq<Turn>)
    ensures ErrorRun(Plain(turns)) == ErrorRun(turns)
  {
    if turns != [] {
      var before := turns[..|turns| - 1];
      SameErrorRun(before);
      assert Plain(turns)[..|turns| - 1] == Plain(before);
    }
  }

  /** Three serve failures in a row, each of which asks for a rebuild, are three
      ordinary retries. */
  lemma ServeFailuresRetried(unique: bool, m: nat) returns (turns: seq<Turn>)
    requires m > 0
    ensures |turns| == 3 && forall k :: 0 <= k < 3 ==> turns[k].result == Some(ServeFailures)
    ensures NeedsFreshRestart(ServeFailures)
    ensures forall k :: 0 <= k < 3 ==> !Stops(unique, m, turns, k)
  {
    var turn := Turn(false, Some(ServeFailures), false, false, false, None);
    turns := [turn, turn, turn];
    forall k | 0 <= k < 3 ensures !StreakAt(m, turns, k) {
      assert turns[..k + 1][k].result != Some(UsedIp);
    }
  }
}
