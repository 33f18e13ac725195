/** What the critical sections of the pool answer and change, field by field.
    ScanLaws says the same of a scan, OtherSteps of a finish. */
module PoolLaws {
  import opened Base
  import opened Store
  import opened PoolState

  /** The address is on record with its flag up. */
  predicate Spent(rows: Rows, ip: IP) { ip in rows && rows[ip] }

  /** When publish gives which answer: a used or a reserved address counts in unique
      mode only, and a failing store before anything else. */
  lemma {:induction false} PublishAnswers(p: Pool, e: nat, fault: Fault)
    requires p.WF() && e < |p.eps|
    ensures var r, ip := Publish(p, e, fault).1, p.eps[e].ip;
      && (r == PublishFailed <==> fault != Clean)
      && (r == UsedIP <==> fault == Clean && p.unique && Spent(p.rows, ip))
      && (r == Published <==>
            fault == Clean && !p.eps[e].cancelled && (p.unique ==> !Spent(p.rows, ip) && ip !in p.reserved))
      && (r == NotReady <==>
            && fault == Clean && (p.eps[e].cancelled || (p.unique && ip in p.reserved))
            && !(p.unique && Spent(p.rows, ip)))
  {}

  /** Slot `i` shows endpoint `e` as Ready and is otherwise as before. */
  predicate NowReady(before: Slot, after: Slot, e: nat) {
    after.state == Ready && after.ep == Some(e) && after.fails == before.fails && after.requests == before.requests
  }

  /** What publish does: the address is on record unless the store failed first, no
      flag moves, and only a publish that succeeds touches anything else: the slot
      of the endpoint, the reservation of its address and the wake-up channel. */
  lemma {:induction false} PublishEffect(p: Pool, e: nat, fault: Fault)
    requires p.WF() && e < |p.eps|
    ensures var (q, r) := Publish(p, e, fault);
      var ip, i := p.eps[e].ip, p.eps[e].slot;
      && q == p.(rows := q.rows, slots := q.slots, reserved := q.reserved, notify := q.notify)
      && q.rows.Keys == p.rows.Keys + (if fault == FailedBefore then {} else {ip})
      && (forall x :: x in q.rows ==> (q.rows[x] <==> Spent(p.rows, x)))
      && |q.slots| == |p.slots|
      && (forall j :: 0 <= j < |p.slots| ==>
            if r == Published && j == i then NowReady(p.slots[j], q.slots[j], e) else q.slots[j] == p.slots[j])
      && (forall x :: x in q.reserved <==> x in p.reserved || (r == Published && p.unique && x == ip))
      && (forall x :: x in q.reserved ==>
            q.reserved[x] == if r == Published && p.unique && x == ip then e else p.reserved[x])
      && q.notify == p.notify + Bit(r == Published)
  {}

  /** What withdraw does: the endpoint is cancelled, its slot and its reservation
      are free again if it still had them, and no other slot, reservation or
      endpoint is touched. */
  lemma {:induction false} WithdrawEffect(p: Pool, e: nat)
    requires p.WF() && e < |p.eps|
    ensures var q, i := Withdraw(p, e), p.eps[e].slot;
      && q == p.(slots := q.slots, reserved := q.reserved, eps := q.eps)
      && |q.slots| == |p.slots| && |q.eps| == |p.eps|
      && (forall j :: 0 <= j < |p.slots| ==>
            if p.slots[j].ep == Some(e) then q.slots[j] == Slot(Rotating, None, p.slots[j].fails, p.slots[j].requests)
            else q.slots[j] == p.slots[j])
      && (forall x :: x in q.reserved <==> x in p.reserved && !(x == p.eps[e].ip && p.reserved[x] == e))
      && (forall x :: x in q.reserved ==> q.reserved[x] == p.reserved[x])
      && q.eps[e].cancelled && q.eps[e] == p.eps[e].(cancelled := q.eps[e].cancelled)
      && (forall x :: 0 <= x < |p.eps| && x != e ==> q.eps[x] == p.eps[x])
  {}

  /** A worker's progress report changes the state of its own slot. */
  lemma {:induction false} ReportEffect(p: Pool, i: nat, state: SlotState)
    requires i < |p.slots|
    ensures var q := SetState(p, i, state);
      && q == p.(slots := q.slots) && |q.slots| == |p.slots|
      && q.slots[i] == Slot(state, p.slots[i].ep, p.slots[i].fails, p.slots[i].requests)
      && (forall j :: 0 <= j < |p.slots| && j != i ==> q.slots[j] == p.slots[j])
  {}

  /** A new pool: every slot is starting, and nothing else is there but the table. */
  lemma {:induction false} InitialPool(unique: bool, n: nat, rows: Rows)
    requires n > 0
    ensures var p := Initial(unique, n, rows);
      && p.unique == unique && p.rows == rows && |p.slots| == n && p.eps == [] && p.reserved == map[] && p.next == 0
      && (forall i :: 0 <= i < n ==> p.slots[i] == Slot(Starting, None, 0, 0))
      && p.requests == p.completed == p.failed == p.rejected == 0
  {}
}
