/** The grants of every run of the lease protocol are a round-robin game. */
module Fairness {
  import opened Base
  import opened Store
  import opened PoolState
  import opened ScanLaws
  import opened Protocol
  import opened Invariant
  import opened Runs
  import opened Rotation

  /** The slots eligible in `s`, and the one that `step` grants, if any. */
  ghost function TurnOf(s: Sys, step: Step): Turn {
    if !(s.WF() && Enabled(s, step)) then Turn(0, [], None)
    else Turn(s.pool.next,
         seq(|s.pool.slots|, i requires 0 <= i < |s.pool.slots| => s.pool.Eligible(i)),
         if step.ByCall? && step.call.ScanSlots? then
           match Scan(s.pool, step.call.faults).1
           case Granted(i, e) => Some(i)
           case _ => None
         else None)
  }

  lemma ScanOrder(p: Pool, faults: seq<Fault>)
    requires p.WF() && |faults| == |p.slots| && Scan(p, faults).1.Granted?
    ensures var g := Scan(p, faults).1.slot;
      && g < |p.slots| && p.Eligible(g)
      && forall i :: 0 <= i < |p.slots| && p.Eligible(i) ==> Offset(p, g) <= Offset(p, i)
  {
    WalkFindsFirst(p, faults);
    var stop := Walk(p, 0, faults).1;
  }

  lemma TurnIsFirst(s: Sys, step: Step)
    requires s.WF() && Enabled(s, step)
    ensures FirstEligible(TurnOf(s, step), |s.pool.slots|)
  {
    if step.ByCall? && step.call.ScanSlots? && Scan(s.pool, step.call.faults).1.Granted? {
      ScanOrder(s.pool, step.call.faults);
    }
  }

  ghost predicate Holds(p: Pool, q: Pool) {
    q.next == p.next && |q.slots| == |p.slots|
  }

  lemma WorkerHolds(s: Sys, w: nat, step: WorkerStep)
    requires s.WF() && WorkerEnabled(s, w, step)
    ensures Holds(s.pool, ApplyWorker(s, w, step).pool)
  {}

  lemma LeaseHolds(s: Sys, l: nat, step: LeaseStep)
    requires s.WF() && LeaseEnabled(s, l, step)
    ensures Holds(s.pool, ApplyLease(s, l, step).pool)
  {}

  lemma CallHolds(s: Sys, c: nat, step: CallStep)
    requires s.WF() && CallEnabled(s, c, step)
    ensures var t := ApplyCall(s, c, step);
      if step.ScanSlots? then t.pool == Scan(s.pool, step.faults).0 else Holds(s.pool, t.pool)
  {}

  lemma {:induction false} ScanTurn(s: Sys, c: nat, step: CallStep)
    requires s.WF() && CallEnabled(s, c, step) && step.ScanSlots?
    ensures var t := ApplyCall(s, c, step);
      && |t.pool.slots| == |s.pool.slots|
      && t.pool.next == After(TurnOf(s, ByCall(c, step)), |s.pool.slots|)
  {
    CallHolds(s, c, step);
    ScanHasEffect(s.pool, step.faults);
  }

  /** A grant moves `next` just past the granted slot; nothing else moves it. */
  lemma {:induction false} TurnEnds(s: Sys, step: Step, t: Sys)
    requires IsStep(s, step, t) && t.WF() && !IsRestart(step)
    ensures |t.pool.slots| == |s.pool.slots|
    ensures t.pool.next == After(TurnOf(s, step), |s.pool.slots|)
  {
    match step {
      case ByWorker(w, ws) => WorkerHolds(s, w, ws);
      case ByWorld(es) =>
      case ByLease(l, ls) => LeaseHolds(s, l, ls);
      case ByCall(c, cs) => if cs.ScanSlots? { ScanTurn(s, c, cs); } else { CallHolds(s, c, cs); }
    }
  }

  /** The turns taken by the steps from `j` up to `k`. */
  ghost function TurnsOf(tr: seq<Sys>, steps: seq<Step>, j: nat, k: nat): (turns: seq<Turn>)
    requires |tr| == |steps| + 1 && j <= k < |tr|
    ensures |turns| == k - j
    ensures forall m :: 0 <= m < k - j ==> turns[m] == TurnOf(tr[j + m], steps[j + m])
  {
    seq(k - j, m requires 0 <= m < k - j => TurnOf(tr[j + m], steps[j + m]))
  }

  lemma {:induction false} SameSize(tr: seq<Sys>, steps: seq<Step>, j: nat, k: nat)
    requires Run(tr, steps) && j <= k < |tr| && SameProcess(steps, j, k)
    ensures |tr[k].pool.slots| == |tr[j].pool.slots|
  {
    if j < k {
      SameSize(tr, steps, j, k - 1);
      WellFormed(tr, steps, k);
      assert StepAt(tr, steps, k - 1);
      TurnEnds(tr[k - 1], steps[k - 1], tr[k]);
    }
  }

  lemma TurnAt(tr: seq<Sys>, steps: seq<Step>, j: nat, m: nat)
    requires Run(tr, steps) && j <= m < |steps| && SameProcess(steps, j, m + 1)
    ensures Leads(TurnOf(tr[m], steps[m]), tr[m].pool.next, tr[m + 1].pool.next, |tr[j].pool.slots|)
  {
    assert StepAt(tr, steps, m);
    WellFormed(tr, steps, m + 1);
    TurnIsFirst(tr[m], steps[m]);
    TurnEnds(tr[m], steps[m], tr[m + 1]);
    SameSize(tr, steps, j, m);
  }

  /** Where `next` stands before, between and after those turns. */
  ghost function NextsOf(tr: seq<Sys>, j: nat, k: nat): (nexts: seq<int>)
    requires j <= k < |tr|
    ensures |nexts| == k - j + 1
    ensures forall m :: 0 <= m <= k - j ==> nexts[m] == tr[j + m].pool.next
  {
    seq(k - j + 1, m requires 0 <= m < k - j + 1 => tr[j + m].pool.next)
  }

  lemma TurnLeads(tr: seq<Sys>, steps: seq<Step>, j: nat, k: nat, m: nat)
    requires Run(tr, steps) && j <= k < |tr| && SameProcess(steps, j, k) && m < k - j
    ensures Leads(TurnsOf(tr, steps, j, k)[m], NextsOf(tr, j, k)[m], NextsOf(tr, j, k)[m + 1], |tr[j].pool.slots|)
  {
    var turn, from, to := TurnsOf(tr, steps, j, k)[m], NextsOf(tr, j, k)[m], NextsOf(tr, j, k)[m + 1];
    assert turn == TurnOf(tr[j + m], steps[j + m]);
    assert from == tr[j + m].pool.next && to == tr[j + m + 1].pool.next;
    TurnAt(tr, steps, j, j + m);
  }

  lemma RunsRotate(tr: seq<Sys>, steps: seq<Step>, j: nat, k: nat)
    requires Run(tr, steps) && j <= k < |tr| && SameProcess(steps, j, k)
    ensures tr[j].WF() && RoundRobin(TurnsOf(tr, steps, j, k), |tr[j].pool.slots|)
  {
    WellFormed(tr, steps, j);
    var turns, nexts, n := TurnsOf(tr, steps, j, k), NextsOf(tr, j, k), |tr[j].pool.slots|;
    forall m, m' | 0 <= m && m' == m + 1 <= |turns| ensures Leads(turns[m], nexts[m], nexts[m'], n) {
      TurnLeads(tr, steps, j, k, m);
    }
    FromPositions(turns, nexts, n);
  }

  /** Bounded bypass over whole runs: of any N grants made while instance `i`
      is eligible, where N is the number of instances, one goes to instance `i`. */
  lemma BoundedBypass(tr: seq<Sys>, steps: seq<Step>, j: nat, k: nat, i: nat)
    requires Run(tr, steps) && j <= k < |tr| && SameProcess(steps, j, k)
    requires i < |tr[j].pool.slots|
    requires Patient(TurnsOf(tr, steps, j, k), i)
    requires Grants(TurnsOf(tr, steps, j, k)) >= |tr[j].pool.slots|
    ensures GrantsTo(TurnsOf(tr, steps, j, k), i) > 0
  {
    RunsRotate(tr, steps, j, k);
    NobodyStarves(TurnsOf(tr, steps, j, k), |tr[j].pool.slots|, i);
  }

  /** Even rotation: while every instance stays eligible, the grants of any
      stretch of a run are spread evenly to within one. */
  lemma EvenRotation(tr: seq<Sys>, steps: seq<Step>, j: nat, k: nat, a: nat, b: nat)
    requires Run(tr, steps) && j <= k < |tr| && SameProcess(steps, j, k)
    requires a < |tr[j].pool.slots| && b < |tr[j].pool.slots|
    requires forall i :: 0 <= i < |tr[j].pool.slots| ==> Patient(TurnsOf(tr, steps, j, k), i)
    ensures var turns := TurnsOf(tr, steps, j, k); GrantsTo(turns, a) <= GrantsTo(turns, b) + 1
  {
    RunsRotate(tr, steps, j, k);
    var turns := TurnsOf(tr, steps, j, k);
    if turns != [] {
      var q, r := RoundsCount(turns, |tr[j].pool.slots|);
      assert Rounds(turns, |tr[j].pool.slots|, turns[0].next, q, r);
    }
  }
}
