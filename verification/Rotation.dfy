/** Round-robin selection as a game of turns: who was eligible, who was chosen,
    and where the next turn starts. */
module Rotation {
  import opened Base

  datatype Turn = Turn(next: nat, eligible: seq<bool>, grant: Option<nat>)

  /** Nobody eligible comes before the chosen one. */
  ghost predicate FirstEligible(t: Turn, n: nat) {
    && t.next < n == |t.eligible|
    && (t.grant.Some? ==> t.grant.value < n && t.eligible[t.grant.value])
    && (t.grant.Some? ==> forall i :: 0 <= i < n && t.eligible[i] ==>
          Ahead(t.next, t.grant.value, n) <= Ahead(t.next, i, n))
  }

  /** Where the turn after `t` starts. */
  function After(t: Turn, n: nat): nat
    requires n > 0
  {
    if t.grant.Some? then (t.grant.value + 1) % n else t.next
  }

  ghost predicate RoundRobin(turns: seq<Turn>, n: nat) {
    && n > 0
    && (forall m :: 0 <= m < |turns| ==> FirstEligible(turns[m], n))
    && (forall m, m' :: 0 <= m && m' == m + 1 < |turns| ==> turns[m'].next == After(turns[m], n))
  }

  /** A turn that starts at `from` and leaves `to` for the next one. */
  ghost predicate Leads(t: Turn, from: int, to: int, n: nat) {
    FirstEligible(t, n) && t.next == from && to == After(t, n)
  }

  lemma FromPositions(turns: seq<Turn>, nexts: seq<int>, n: nat)
    requires n > 0 && |nexts| == |turns| + 1
    requires forall m, m' :: 0 <= m && m' == m + 1 <= |turns| ==> Leads(turns[m], nexts[m], nexts[m'], n)
    ensures RoundRobin(turns, n)
  {
    forall m | 0 <= m < |turns| ensures FirstEligible(turns[m], n) {
      assert Leads(turns[m], nexts[m], nexts[m + 1], n);
    }
    forall m, m' | 0 <= m && m' == m + 1 < |turns| ensures turns[m'].next == After(turns[m], n) {
      assert Leads(turns[m], nexts[m], nexts[m'], n) && Leads(turns[m'], nexts[m'], nexts[m' + 1], n);
    }
  }

  /** All grants, and the grants to position `i`. */
  function Grants(turns: seq<Turn>): nat {
    if turns == [] then 0
    else Grants(turns[..|turns| - 1]) + (if turns[|turns| - 1].grant.Some? then 1 else 0)
  }

  function GrantsTo(turns: seq<Turn>, i: nat): nat {
    if turns == [] then 0
    else GrantsTo(turns[..|turns| - 1], i) + (if turns[|turns| - 1].grant == Some(i) then 1 else 0)
  }

  /** Position `i` could have been chosen in every turn that chose somebody. */
  ghost predicate Patient(turns: seq<Turn>, i: nat) {
    forall m :: 0 <= m < |turns| && turns[m].grant.Some? ==> i < |turns[m].eligible| && turns[m].eligible[i]
  }

  lemma Prefix(turns: seq<Turn>, n: nat)
    requires RoundRobin(turns, n) && turns != []
    ensures RoundRobin(turns[..|turns| - 1], n)
  {
    var shorter := turns[..|turns| - 1];
    forall m, m' | 0 <= m && m' == m + 1 < |shorter| ensures shorter[m'].next == After(shorter[m], n) {
      assert turns[m'].next == After(turns[m], n);
    }
  }

  /** The distance from `next` to `i` falls with every grant that passes `i` by. */
  lemma DistanceFalls(t: Turn, n: nat, i: nat)
    requires FirstEligible(t, n) && i < n && t.eligible[i] && t.grant.Some? && t.grant.value != i
    ensures After(t, n) < n && Ahead(After(t, n), i, n) < Ahead(t.next, i, n)
  {
    WrapSum(t.grant.value, 1, n);
  }

  lemma {:induction false} BypassShrinks(turns: seq<Turn>, n: nat, i: nat)
    requires RoundRobin(turns, n) && turns != [] && i < n
    requires Patient(turns, i) && GrantsTo(turns, i) == 0
    ensures turns[0].next < n && After(turns[|turns| - 1], n) < n
    ensures Grants(turns) + Ahead(After(turns[|turns| - 1], n), i, n) <= Ahead(turns[0].next, i, n)
  {
    var last := turns[|turns| - 1];
    var shorter := turns[..|turns| - 1];
    assert FirstEligible(last, n);
    if last.grant.Some? {
      DistanceFalls(last, n, i);
    }
    if shorter == [] {
      assert Grants(shorter) == 0;
    } else {
      Prefix(turns, n);
      BypassShrinks(shorter, n, i);
      assert last.next == After(shorter[|shorter| - 1], n);
    }
  }

  /** Of any `n` grants made while `i` could be chosen, one goes to `i`. */
  lemma NobodyStarves(turns: seq<Turn>, n: nat, i: nat)
    requires RoundRobin(turns, n) && i < n && Patient(turns, i) && Grants(turns) >= n
    ensures GrantsTo(turns, i) > 0
  {
    if GrantsTo(turns, i) == 0 {
      BypassShrinks(turns, n, i);
    }
  }

  /** The turns made `q` full rounds and `r` more grants, starting at `from`. */
  ghost predicate Rounds(turns: seq<Turn>, n: nat, from: nat, q: nat, r: nat) {
    && from < n && r < n
    && forall i :: 0 <= i < n ==> GrantsTo(turns, i) == q + (if Ahead(from, i, n) < r then 1 else 0)
  }

  /** With everybody eligible the grants go round and round. */
  lemma {:induction false} RoundsCount(turns: seq<Turn>, n: nat) returns (q: nat, r: nat)
    requires RoundRobin(turns, n) && turns != []
    requires forall i :: 0 <= i < n ==> Patient(turns, i)
    ensures Rounds(turns, n, turns[0].next, q, r)
    ensures After(turns[|turns| - 1], n) == (turns[0].next + r) % n
  {
    var from, last, shorter := turns[0].next, turns[|turns| - 1], turns[..|turns| - 1];
    assert FirstEligible(last, n) && FirstEligible(turns[0], n);
    if shorter == [] {
      q, r := 0, 0;
      WrapSum(from, 0, n);
    } else {
      Prefix(turns, n);
      forall i | 0 <= i < n ensures Patient(shorter, i) {
        assert Patient(turns, i);
      }
      q, r := RoundsCount(shorter, n);
      assert last.next == After(shorter[|shorter| - 1], n);
    }
    WrapSum(from, r, n);
    assert Rounds(shorter, n, from, q, r) && last.next == (from + r) % n;
    if last.grant.Some? {
      assert Patient(turns, last.next);
      assert last.grant.value == last.next;
      q, r := OneMore(turns, n, from, q, r);
    }
  }

  lemma OneMore(turns: seq<Turn>, n: nat, from: nat, q: nat, r: nat) returns (q': nat, r': nat)
    requires turns != [] && Rounds(turns[..|turns| - 1], n, from, q, r)
    requires turns[|turns| - 1].grant == Some((from + r) % n)
    ensures Rounds(turns, n, from, q', r')
    ensures After(turns[|turns| - 1], n) == (from + r') % n
  {
    WrapSum(from, r, n);
    WrapSum((from + r) % n, 1, n);
    WrapSum(from, r + 1, n);
    q', r' := if r + 1 == n then q + 1 else q, if r + 1 == n then 0 else r + 1;
    WrapSum(from, r', n);
  }
}
