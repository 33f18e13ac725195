/** What a scan finds, stated without its loop: the first slot in cyclic order
    from `next` at which it must stop. */
module ScanLaws {
  import opened Base
  import opened Store
  import opened PoolState

  /** The position of slot `i` in the cyclic order of a scan. */
  function Offset(p: Pool, i: nat): (k: nat)
    requires p.WF() && i < |p.slots|
    ensures k < |p.slots|
  {
    Ahead(p.next, i, |p.slots|)
  }

  lemma OffsetInverse(p: Pool, i: nat)
    requires p.WF() && i < |p.slots|
    ensures At(p, Offset(p, i)) == i
  {
    WrapSum(p.next, Offset(p, i), |p.slots|);
  }

  lemma AtInverse(p: Pool, k: nat)
    requires p.WF() && k < |p.slots|
    ensures Offset(p, At(p, k)) == k
  {
    WrapSum(p.next, k, |p.slots|);
  }

  /** Ready and live, but its address can no longer be assigned. */
  predicate Stale(p: Pool, i: nat)
    requires p.WF() && i < |p.slots|
  {
    p.Live(i) && !p.Eligible(i)
  }

  /** `e` is the endpoint of a stale slot at an offset below `k`. */
  predicate StaleBefore(p: Pool, e: nat, k: nat)
    requires p.WF() && e < |p.eps|
  {
    var i := p.eps[e].slot;
    p.slots[i].ep == Some(e) && Stale(p, i) && Offset(p, i) < k
  }

  /** `q` is `p` with exactly those endpoints cancelled. */
  ghost predicate Skipped(p: Pool, q: Pool, k: nat)
    requires p.WF()
  {
    && q == p.(eps := q.eps)
    && |q.eps| == |p.eps|
    && forall e {:trigger q.eps[e]} {:trigger StaleBefore(p, e, k)} :: 0 <= e < |p.eps| ==>
         q.eps[e] == if StaleBefore(p, e, k) then p.eps[e].(cancelled := true) else p.eps[e]
  }

  /** A scan passes slot `i`. */
  ghost predicate Passes(p: Pool, i: nat, faults: seq<Fault>)
    requires p.WF() && i < |p.slots| == |faults|
  {
    p.Live(i) ==> Stale(p, i) && faults[Offset(p, i)].Clean?
  }

  ghost function StopOffset(p: Pool, stop: Stop): (k: nat)
    requires p.WF() && (stop != Exhausted ==> stop.at < |p.slots|)
    ensures k <= |p.slots|
  {
    if stop == Exhausted then |p.slots| else Offset(p, stop.at)
  }

  /** `stop` is the first stop in cyclic order, and `q` the state left there. */
  ghost predicate FirstStop(p: Pool, faults: seq<Fault>, q: Pool, stop: Stop)
    requires p.WF() && |p.slots| == |faults|
  {
    && (stop != Exhausted ==> stop.at < |p.slots|)
    && Skipped(p, q, StopOffset(p, stop))
    && (forall i :: 0 <= i < |p.slots| && Offset(p, i) < StopOffset(p, stop) ==> Passes(p, i, faults))
    && match stop
       case Exhausted => true
       case Faulted(i, fault) => p.Live(i) && fault == faults[Offset(p, i)] && !fault.Clean?
       case Chosen(i) => p.Eligible(i) && faults[Offset(p, i)].Clean?
  }

  /** Passing the slot at offset `k` extends the skipped part by that slot. */
  lemma SkipOne(p: Pool, t: Pool, k: nat)
    requires p.WF() && t.WF() && k < |p.slots| && Skipped(p, t, k)
    ensures var i := At(p, k);
      && (t.Live(i) <==> p.Live(i))
      && (t.Eligible(i) <==> p.Eligible(i))
      && (!p.Live(i) ==> Skipped(p, t, k + 1))
      && (Stale(p, i) ==> Skipped(p, Cancel(t, p.slots[i].ep.value), k + 1))
  {
    var i := At(p, k);
    AtInverse(p, k);
    forall e | 0 <= e < |p.eps| && StaleBefore(p, e, k + 1) && !StaleBefore(p, e, k)
      ensures p.eps[e].slot == i
    {
      OffsetInverse(p, p.eps[e].slot);
    }
  }

  lemma PassOne(p: Pool, k: nat, faults: seq<Fault>)
    requires p.WF() && k < |p.slots| == |faults|
    requires forall i :: 0 <= i < |p.slots| && Offset(p, i) < k ==> Passes(p, i, faults)
    requires Passes(p, At(p, k), faults)
    ensures forall i :: 0 <= i < |p.slots| && Offset(p, i) < k + 1 ==> Passes(p, i, faults)
  {
    forall i | 0 <= i < |p.slots| && Offset(p, i) == k ensures i == At(p, k) {
      OffsetInverse(p, i);
    }
  }

  lemma StopHere(p: Pool, t: Pool, k: nat, faults: seq<Fault>)
    requires p.WF() && t.WF() && k < |p.slots| == |faults| && Skipped(p, t, k)
    requires forall i :: 0 <= i < |p.slots| && Offset(p, i) < k ==> Passes(p, i, faults)
    requires p.Live(At(p, k)) && !Passes(p, At(p, k), faults)
    ensures var (q, stop) := Walk(t, k, faults); FirstStop(p, faults, q, stop)
  {
    AtInverse(p, k);
    SkipOne(p, t, k);
  }

  /** The pool after a scan has passed the slot at offset `k`. */
  function Past(t: Pool, k: nat): (u: Pool)
    requires t.WF() && k < |t.slots|
    ensures u.WF()
  {
    var i := At(t, k);
    if t.Live(i) then Cancel(t, t.slots[i].ep.value) else t
  }

  lemma WalkPast(p: Pool, t: Pool, k: nat, faults: seq<Fault>)
    requires p.WF() && t.WF() && k < |p.slots| == |faults| && Skipped(p, t, k)
    requires Passes(p, At(p, k), faults)
    ensures Skipped(p, Past(t, k), k + 1)
    ensures Walk(t, k, faults) == Walk(Past(t, k), k + 1, faults)
  {
    AtInverse(p, k);
    SkipOne(p, t, k);
  }

  lemma {:induction false} EndHere(p: Pool, t: Pool, faults: seq<Fault>)
    requires p.WF() && t.WF() && |p.slots| == |faults| && Skipped(p, t, |p.slots|)
    requires forall i :: 0 <= i < |p.slots| ==> Passes(p, i, faults)
    ensures FirstStop(p, faults, t, Exhausted)
  {}

  lemma {:induction false} WalkFrom(p: Pool, t: Pool, k: nat, faults: seq<Fault>)
    requires p.WF() && t.WF() && k <= |p.slots| == |faults|
    requires Skipped(p, t, k)
    requires forall i :: 0 <= i < |p.slots| && Offset(p, i) < k ==> Passes(p, i, faults)
    ensures var (q, stop) := Walk(t, k, faults); FirstStop(p, faults, q, stop)
    decreases |p.slots| - k
  {
    if k == |p.slots| {
      EndHere(p, t, faults);
    } else {
      if !Passes(p, At(p, k), faults) {
        StopHere(p, t, k, faults);
      } else {
        PassOne(p, k, faults);
        WalkPast(p, t, k, faults);
        WalkFrom(p, Past(t, k), k + 1, faults);
      }
    }
  }

  /** The scan of the code meets its description, for every pool and every
      pattern of store faults. */
  lemma WalkFindsFirst(p: Pool, faults: seq<Fault>)
    requires p.WF() && |faults| == |p.slots|
    ensures var (q, stop) := Walk(p, 0, faults); FirstStop(p, faults, q, stop)
  {
    WalkFrom(p, p, 0, faults);
  }

  /** The description leaves no freedom: it fixes the stop and the state. */
  lemma FirstStopUnique(p: Pool, faults: seq<Fault>, q: Pool, stop: Stop, q': Pool, stop': Stop)
    requires p.WF() && |faults| == |p.slots|
    requires FirstStop(p, faults, q, stop) && FirstStop(p, faults, q', stop')
    ensures stop == stop' && q == q'
  {
    var a, b := StopOffset(p, stop), StopOffset(p, stop');
    if stop != Exhausted { OffsetInverse(p, stop.at); }
    if stop' != Exhausted { OffsetInverse(p, stop'.at); }
    assert q.eps == q'.eps;
  }

  predicate NoFaults(faults: seq<Fault>) {
    forall k :: 0 <= k < |faults| ==> faults[k].Clean?
  }

  /** With a fault-free store a scan succeeds exactly when some slot is
      eligible, and otherwise leaves no slot even live. */
  lemma CleanScan(p: Pool, faults: seq<Fault>)
    requires p.WF() && |faults| == |p.slots| && NoFaults(faults)
    ensures var (q, r) := Scan(p, faults);
      && (r.Granted? <==> exists i :: 0 <= i < |p.slots| && p.Eligible(i))
      && (!r.Granted? ==> r == NoReady)
  {
    WalkFindsFirst(p, faults);
    var stop := Walk(p, 0, faults).1;
    if stop == Exhausted {
      forall i | 0 <= i < |p.slots| ensures !p.Eligible(i) {
        assert Passes(p, i, faults);
      }
    }
  }

  ghost predicate NoneLive(p: Pool)
    requires p.WF()
  {
    forall i :: 0 <= i < |p.slots| ==> !p.Live(i)
  }

  /** A scan that reports no ready instance leaves no live slot behind,
      whatever the store did. */
  lemma NoReadyLeavesNoneLive(p: Pool, faults: seq<Fault>)
    requires p.WF() && |faults| == |p.slots|
    requires Scan(p, faults).1 == NoReady
    ensures NoneLive(Scan(p, faults).0)
  {
    WalkFindsFirst(p, faults);
    var q := Walk(p, 0, faults).0;
    forall i | 0 <= i < |p.slots| ensures !q.Live(i) {
      assert Passes(p, i, faults);
      if p.Live(i) {
        assert StaleBefore(p, p.slots[i].ep.value, |p.slots|);
      }
    }
  }

  /** What a scan may have done to endpoint `e`, apart from leasing it. */
  ghost predicate AtMostSkipped(p: Pool, q: Pool, e: nat)
    requires p.WF() && e < |p.eps| == |q.eps|
  {
    || q.eps[e] == p.eps[e]
    || (q.eps[e] == p.eps[e].(cancelled := true)
        && p.slots[p.eps[e].slot].ep == Some(e) && Stale(p, p.eps[e].slot))
  }

  /** The whole effect of one scan on the pool. */
  ghost predicate ScanEffect(p: Pool, q: Pool, r: ScanResult)
    requires p.WF() && |p.eps| == |q.eps|
  {
    match r
    case NoReady =>
      && q == p.(eps := q.eps)
      && (forall e {:trigger q.eps[e]} {:trigger AtMostSkipped(p, q, e)} :: 0 <= e < |p.eps| ==> AtMostSkipped(p, q, e))
    case StoreFailed(e, fault) =>
      && e < |p.eps| && !fault.Clean? && p.Live(p.eps[e].slot) && p.slots[p.eps[e].slot].ep == Some(e)
      && q == p.(eps := q.eps, rows := Consumed(p.rows, p.eps[e].ip, p.unique, fault))
      && q.eps[e].ip == p.eps[e].ip
      && (forall x {:trigger q.eps[x]} {:trigger AtMostSkipped(p, q, x)} :: 0 <= x < |p.eps| ==> AtMostSkipped(p, q, x))
    case Granted(i, e) =>
      && i < |p.slots| && p.Eligible(i) && p.slots[i].ep == Some(e)
      && q == p.(eps := q.eps, rows := Consumed(p.rows, p.eps[e].ip, p.unique, Clean),
                 requests := p.requests + 1, next := (i + 1) % |p.slots|,
                 slots := p.slots[i := p.slots[i].(state := if p.unique then Busy else Ready,
                                                   requests := p.slots[i].requests + 1)])
      && q.eps[e] == (if p.unique then p.eps[e] else p.eps[e].(active := p.eps[e].active + 1))
      && (forall x {:trigger q.eps[x]} {:trigger AtMostSkipped(p, q, x)} ::
            0 <= x < |p.eps| && x != e ==> AtMostSkipped(p, q, x))
  }

  lemma SkippedAtMost(p: Pool, t: Pool, k: nat)
    requires p.WF() && Skipped(p, t, k)
    ensures forall e :: 0 <= e < |p.eps| ==> AtMostSkipped(p, t, e)
  {
    forall e | 0 <= e < |p.eps| ensures AtMostSkipped(p, t, e) {
      assert StaleBefore(p, e, k) ==> Stale(p, p.eps[e].slot);
    }
  }

  /** A stopping slot's endpoint was not skipped. */
  lemma StopUntouched(p: Pool, faults: seq<Fault>, t: Pool, stop: Stop)
    requires p.WF() && |faults| == |p.slots| && FirstStop(p, faults, t, stop) && stop != Exhausted
    ensures p.slots[stop.at].ep.Some? && t.eps[p.slots[stop.at].ep.value] == p.eps[p.slots[stop.at].ep.value]
  {}

  lemma ScanHasEffect(p: Pool, faults: seq<Fault>)
    requires p.WF() && |faults| == |p.slots|
    ensures var (q, r) := Scan(p, faults); ScanEffect(p, q, r)
  {
    WalkFindsFirst(p, faults);
    var (t, stop) := Walk(p, 0, faults);
    SkippedAtMost(p, t, StopOffset(p, stop));
    if stop != Exhausted {
      StopUntouched(p, faults, t, stop);
      var q := Scan(p, faults).0;
      var e := p.slots[stop.at].ep.value;
      forall x | 0 <= x < |p.eps| && x != e ensures AtMostSkipped(p, q, x) {
        assert AtMostSkipped(p, t, x);
      }
    }
  }
}
