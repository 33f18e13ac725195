/** Counts over the histories, and how one more entry or one changed entry
    moves them. */
module Counting {
  import opened Base
  import opened PoolState
  import opened Protocol

  predicate Is(l: Lease, e: nat, phase: Phase) {
    l.ep == e && l.phase == phase
  }

  /** Leases on endpoint `e` in the given phase. */
  function On(ls: seq<Lease>, e: nat, phase: Phase): nat {
    if ls == [] then 0
    else On(ls[..|ls| - 1], e, phase) + Bit(Is(ls[|ls| - 1], e, phase))
  }

  /** Outstanding leases on endpoint `e`. */
  function HeldOn(ls: seq<Lease>, e: nat): nat {
    On(ls, e, Held)
  }

  /** Leases ever granted on endpoint `e`. */
  function LeasesOn(ls: seq<Lease>, e: nat): nat {
    On(ls, e, Held) + On(ls, e, Finishing) + On(ls, e, Done)
  }

  /** All outstanding leases. */
  function AllHeld(ls: seq<Lease>): nat {
    if ls == [] then 0
    else AllHeld(ls[..|ls| - 1]) + Bit(ls[|ls| - 1].phase.Held?)
  }

  function TotalRequests(slots: seq<Slot>): nat {
    if slots == [] then 0
    else TotalRequests(slots[..|slots| - 1]) + slots[|slots| - 1].requests
  }

  /** Failed finishes in a history. */
  function Failures(log: seq<FinishRecord>): nat {
    if log == [] then 0
    else Failures(log[..|log| - 1]) + Bit(log[|log| - 1].failed)
  }

  /** The length of the run of failures that ends instance `i`'s part of the log. */
  function Streak(log: seq<FinishRecord>, i: nat): nat {
    if log == [] then 0
    else Extended(Streak(log[..|log| - 1], i), log[|log| - 1], i)
  }

  /** Calls of Acquire that reported that no instance was ready. */
  function NoReadyCalls(calls: seq<Call>): nat {
    if calls == [] then 0
    else NoReadyCalls(calls[..|calls| - 1]) + Bit(calls[|calls| - 1].GotNoReady?)
  }

  lemma Appended(ls: seq<Lease>, x: Lease)
    ensures AllHeld(ls + [x]) == AllHeld(ls) + Bit(x.phase.Held?)
    ensures forall e, phase :: On(ls + [x], e, phase) == On(ls, e, phase) + Bit(Is(x, e, phase))
  {
    assert (ls + [x])[..|ls|] == ls;
  }

  lemma {:induction false} Changed(ls: seq<Lease>, l: nat, x: Lease)
    requires l < |ls|
    ensures AllHeld(ls[l := x]) + Bit(ls[l].phase.Held?) == AllHeld(ls) + Bit(x.phase.Held?)
    ensures forall e, phase ::
      On(ls[l := x], e, phase) + Bit(Is(ls[l], e, phase)) == On(ls, e, phase) + Bit(Is(x, e, phase))
  {
    var n := |ls| - 1;
    if l < n {
      Changed(ls[..n], l, x);
      assert ls[l := x][..n] == ls[..n][l := x];
    } else {
      assert ls[l := x][..n] == ls[..n];
    }
  }

  /** A lease is counted among those of its endpoint and phase. */
  lemma {:induction false} Counted(ls: seq<Lease>, l: nat)
    requires l < |ls|
    ensures On(ls, ls[l].ep, ls[l].phase) > 0
  {
    var n := |ls| - 1;
    if l < n {
      Counted(ls[..n], l);
    }
  }

  /** An endpoint that no lease mentions has no leases. */
  lemma {:induction false} NoLeases(ls: seq<Lease>, e: nat)
    requires forall l :: 0 <= l < |ls| ==> ls[l].ep != e
    ensures LeasesOn(ls, e) == 0
  {
    if ls != [] {
      NoLeases(ls[..|ls| - 1], e);
    }
  }

  /** A positive count has a witness. */
  lemma {:induction false} SomeCounted(ls: seq<Lease>, e: nat, phase: Phase) returns (l: nat)
    requires On(ls, e, phase) > 0
    ensures l < |ls| && Is(ls[l], e, phase)
  {
    l := |ls| - 1;
    if !Is(ls[l], e, phase) {
      l := SomeCounted(ls[..l], e, phase);
    }
  }

  lemma {:induction false} RequestsChanged(slots: seq<Slot>, i: nat, x: Slot)
    requires i < |slots|
    ensures TotalRequests(slots[i := x]) + slots[i].requests == TotalRequests(slots) + x.requests
  {
    var n := |slots| - 1;
    if i < n {
      RequestsChanged(slots[..n], i, x);
      assert slots[i := x][..n] == slots[..n][i := x];
    } else {
      assert slots[i := x][..n] == slots[..n];
    }
  }

  lemma {:induction false} NoRequests(slots: seq<Slot>)
    requires forall i :: 0 <= i < |slots| ==> slots[i].requests == 0
    ensures TotalRequests(slots) == 0
  {
    if slots != [] {
      NoRequests(slots[..|slots| - 1]);
    }
  }

  lemma {:induction false} CallChanged(calls: seq<Call>, c: nat, x: Call)
    requires c < |calls|
    ensures NoReadyCalls(calls[c := x]) + Bit(calls[c].GotNoReady?) == NoReadyCalls(calls) + Bit(x.GotNoReady?)
  {
    var n := |calls| - 1;
    if c < n {
      CallChanged(calls[..n], c, x);
      assert calls[c := x][..n] == calls[..n][c := x];
    } else {
      assert calls[c := x][..n] == calls[..n];
    }
  }

  lemma CallAppended(calls: seq<Call>, x: Call)
    ensures NoReadyCalls(calls + [x]) == NoReadyCalls(calls) + Bit(x.GotNoReady?)
  {
    assert (calls + [x])[..|calls|] == calls;
  }

  /** A streak of instance `i` after one more finish. */
  function Extended(streak: nat, x: FinishRecord, i: nat): nat {
    if x.slot != i then streak else if x.failed then streak + 1 else 0
  }

  lemma FinishAppended(log: seq<FinishRecord>, x: FinishRecord)
    ensures Failures(log + [x]) == Failures(log) + Bit(x.failed)
    ensures forall i :: Streak(log + [x], i) == Extended(Streak(log, i), x, i)
  {
    assert (log + [x])[..|log|] == log;
  }
}
