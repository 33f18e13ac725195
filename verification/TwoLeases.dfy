/** One instance with two outstanding leases in unique mode: its circuit ended
    under the first, and it was published again. */
module TwoLeases {
  import opened Base
  import opened Store
  import opened PoolState
  import opened Protocol
  import opened Runs

  /** A pool of one instance in unique mode whose worker has nothing to do. */
  ghost predicate OneIdle(s: Sys) {
    && s.WF() && s.pool.unique && |s.pool.slots| == 1 && s.workers == [Worker(Idle, false)]
    && s.pool.reserved == map[] && s.pool.next == 0 && !s.appDone
  }

  /** A run that ends in `s`. */
  ghost predicate Ends(tr: seq<Sys>, steps: seq<Step>, s: Sys) {
    Run(tr, steps) && tr[|tr| - 1] == s
  }

  lemma {:induction false} OneMore(tr: seq<Sys>, steps: seq<Step>, s: Sys, step: Step)
    returns (tr': seq<Sys>, steps': seq<Step>)
    requires Ends(tr, steps, s) && s.WF() && Enabled(s, step)
    ensures Ends(tr', steps', Apply(s, step))
  {
    tr', steps' := tr + [Apply(s, step)], steps + [step];
    forall k | 0 <= k < |steps'| ensures StepAt(tr', steps', k) {
      if k < |steps| {
        assert StepAt(tr, steps, k);
        assert tr'[k] == tr[k] && tr'[k + 1] == tr[k + 1] && steps'[k] == steps[k];
      }
    }
  }

  /** The worker's endpoint `e` over address `ip` is published and waits for a lease. */
  ghost predicate OneReady(s: Sys, e: nat, ip: IP) {
    && s.WF() && s.pool.unique && s.workers == [Worker(Serving(e), false)]
    && e < |s.pool.eps| && s.pool.eps[e].ip == ip && !s.pool.eps[e].cancelled
    && |s.pool.slots| == 1 && s.pool.slots[0].state.Ready? && s.pool.slots[0].ep == Some(e)
    && s.pool.reserved == map[ip := e] && s.pool.next == 0 && !s.appDone
    && ip in s.pool.rows && !s.pool.rows[ip]
  }

  lemma {:induction false} GetReady(tr: seq<Sys>, steps: seq<Step>, s: Sys, ip: IP)
    returns (tr': seq<Sys>, steps': seq<Step>, t: Sys)
    requires Ends(tr, steps, s) && OneIdle(s) && ip !in s.pool.rows
    ensures Ends(tr', steps', t) && OneReady(t, |s.pool.eps|, ip)
    ensures t.leases == s.leases && |t.pool.eps| == |s.pool.eps| + 1
    ensures t.pool.rows == s.pool.rows[ip := false]
  {
    var e := |s.pool.eps|;
    t := DoBuild(s, 0, ip);
    tr', steps' := OneMore(tr, steps, s, ByWorker(0, Build(ip)));
    var u := DoPublish(t, 0, Clean);
    tr', steps' := OneMore(tr', steps', t, ByWorker(0, TryPublish(Clean)));
    t := u;
    assert t.pool.slots[0].ep == Some(e);
  }

  lemma {:induction false} Lend(tr: seq<Sys>, steps: seq<Step>, s: Sys, e: nat, ip: IP)
    returns (tr': seq<Sys>, steps': seq<Step>, t: Sys)
    requires Ends(tr, steps, s) && OneReady(s, e, ip)
    ensures Ends(tr', steps', t) && t.WF()
    ensures t.leases == s.leases + [Lease(e, Held)] && t.workers == s.workers && !t.appDone
    ensures t.pool.unique && |t.pool.slots| == 1 && t.pool.slots[0].ep == Some(e) && t.pool.next == 0
    ensures t.pool.eps == s.pool.eps && t.pool.reserved == s.pool.reserved
    ensures t.pool.rows == s.pool.rows[ip := true]
  {
    var c := |s.calls|;
    var u := s.(calls := s.calls + [Scanning(false)]);
    tr', steps' := OneMore(tr, steps, s, ByCall(c, Begin));
    assert u == Apply(s, ByCall(c, Begin));
    assert At(u.pool, 0) == 0;
    assert u.pool.Eligible(0);
    assert Walk(u.pool, 0, [Clean]) == (u.pool, Chosen(0));
    t := DoScan(u, c, [Clean], false);
    tr', steps' := OneMore(tr', steps', u, ByCall(c, ScanSlots([Clean], false)));
  }

  lemma {:induction false} Notice(tr: seq<Sys>, steps: seq<Step>, s: Sys, e: nat)
    returns (tr': seq<Sys>, steps': seq<Step>, t: Sys)
    requires Ends(tr, steps, s) && s.WF() && s.workers == [Worker(Serving(e), false)] && e < |s.pool.eps|
    ensures Ends(tr', steps', t) && t.WF()
    ensures t.pool == Cancel(s.pool, e) && t.leases == s.leases && t.appDone == s.appDone
    ensures t.workers == [Worker(Leaving(e, OnCircuit), false)]
  {
    var u := DoCircuitEnds(s, e);
    tr', steps' := OneMore(tr, steps, s, ByWorld(CircuitEnds(e)));
    t := Depart(u, 0, OnCircuit);
    tr', steps' := OneMore(tr', steps', u, ByWorker(0, SeeCircuit));
  }

  lemma {:induction false} Lose(tr: seq<Sys>, steps: seq<Step>, s: Sys, e: nat, ip: IP)
    returns (tr': seq<Sys>, steps': seq<Step>, t: Sys)
    requires Ends(tr, steps, s) && s.WF() && s.workers == [Worker(Serving(e), false)] && !s.appDone
    requires s.pool.unique && |s.pool.slots| == 1 && s.pool.slots[0].ep == Some(e) && s.pool.next == 0
    requires e < |s.pool.eps| && s.pool.eps[e].ip == ip && s.pool.reserved == map[ip := e]
    ensures Ends(tr', steps', t) && OneIdle(t)
    ensures t.leases == s.leases && |t.pool.eps| == |s.pool.eps| && t.pool.rows == s.pool.rows
    ensures forall x :: 0 <= x < |s.pool.eps| ==> t.pool.eps[x].slot == s.pool.eps[x].slot
  {
    var u;
    tr', steps', u := Notice(tr, steps, s, e);
    t := DoTakeBack(u, 0);
    tr', steps' := OneMore(tr', steps', u, ByWorker(0, TakeBack));
    u := DoClose(t, 0);
    tr', steps' := OneMore(tr', steps', t, ByWorker(0, CloseCircuit));
    t := u;
    assert t.pool.reserved == map[];
  }

  /** So "one request per instance" can fail: two leases of one instance are
      outstanding at once. */
  lemma {:induction false} TwoOnOneInstance() returns (tr: seq<Sys>, steps: seq<Step>, s: Sys)
    ensures Ends(tr, steps, s) && s.WF() && s.pool.unique && |s.pool.slots| == 1
    ensures s.leases == [Lease(0, Held), Lease(1, Held)] && |s.pool.eps| == 2
    ensures s.pool.eps[0].slot == s.pool.eps[1].slot == 0
  {
    s := Fresh(true, 1, map[], []);
    tr, steps := [s], [];
    assert Init(s);
    assert s.workers == [Worker(Idle, false)];
    tr, steps, s := GetReady(tr, steps, s, "a");
    tr, steps, s := Lend(tr, steps, s, 0, "a");
    tr, steps, s := Lose(tr, steps, s, 0, "a");
    tr, steps, s := GetReady(tr, steps, s, "b");
    tr, steps, s := Lend(tr, steps, s, 1, "b");
  }
}
