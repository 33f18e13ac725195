/** Which reply a command can return: its own, and exactly when. */
module CommandLaws {
  import opened Base
  import opened Commands

  predicate Replied(s: Conn, c: nat, r: nat) {
    In(s, c, Got(r)) || In(s, c, Returned(r))
  }

  /** A command written while the done channel is open returns its own reply if
      it returns one, over every interleaving of callers, timeouts, closes and
      reader failures. */
  lemma OwnReply(steps: seq<Step>, t: Conn, c: nat, r: nat)
    requires Leads(Fresh(), steps, t) && Replied(t, c, r) && t.cmds[c].open
    ensures r == c
  {
    Reached(Fresh(), steps, t);
    assert CmdOk(t, c);
  }

  // ---- exactly when --------------------------------------------------------

  lemma {:induction false} StepLeavesAlone(s: Conn, step: Step, c: nat)
    requires Enabled(s, step) && c < |s.cmds| && !s.cmds[c].phase.Queued? && !s.cmds[c].phase.Holding?
    ensures var t := Apply(s, step);
      c < |t.cmds| && t.cmds[c].alone == s.cmds[c].alone && !t.cmds[c].phase.Queued? && !t.cmds[c].phase.Holding?
  {}

  lemma {:induction false} AloneForGood(s: Conn, steps: seq<Step>, t: Conn, c: nat)
    requires Leads(s, steps, t) && c < |s.cmds| && !s.cmds[c].phase.Queued? && !s.cmds[c].phase.Holding?
    ensures c < |t.cmds| && t.cmds[c].alone == s.cmds[c].alone
    decreases steps
  {
    if steps != [] {
      StepLeavesAlone(s, steps[0], c);
      AloneForGood(Apply(s, steps[0]), steps[1..], t, c);
    }
  }

  /** Every reply that command `c` can ever report after being written in `s`. */
  ghost predicate AlwaysOwn(s: Conn, c: nat)
    requires Enabled(s, Write(c))
  {
    forall steps, t, r :: Leads(Apply(s, Write(c)), steps, t) && Replied(t, c, r) ==> r == c
  }

  /** A reply to an earlier command can still reach a caller: it lies in the
      channel, or it is on its way and the reader is there to hand it over. */
  predicate StaleInReach(s: Conn) {
    s.handed.Some? || (s.reading && s.coming != [])
  }

  /** If that is so when the command is written, that reply can be returned for it. */
  lemma {:induction false} StaleReply(s: Conn, c: nat) returns (steps: seq<Step>, t: Conn)
    requires Inv(s) && Enabled(s, Write(c)) && StaleInReach(s)
    ensures Leads(Apply(s, Write(c)), steps, t)
    ensures Replied(t, c, Unclaimed(s)[0]) && Unclaimed(s)[0] != c
  {
    assert CmdOk(s, c);
    var u := Apply(s, Write(c));
    assert Absent(s, c) && Unclaimed(s)[0] != c;
    if u.handed.Some? {
      t := Apply(u, Receive(c));
      steps := [Receive(c)];
      assert Leads(t, steps[1..], t);
    } else {
      assert u.coming[0] == s.coming[0];
      var v := Apply(u, Hand);
      t := Apply(v, Receive(c));
      steps := [Hand, Receive(c)];
      assert steps[1..] == [Receive(c)] && steps[1..][1..] == [];
      assert Leads(v, steps[1..], t);
    }
  }

  /** Once the reader has returned and the channel is empty, no command gets a
      reply any more. */
  lemma {:induction false} NoReplyAnyMore(s: Conn, steps: seq<Step>, t: Conn, c: nat, r: nat)
    requires Leads(s, steps, t) && !s.reading && s.handed.None?
    requires c < |s.cmds| && !s.cmds[c].phase.Got? && !s.cmds[c].phase.Returned?
    ensures !Replied(t, c, r)
    decreases steps
  {
    if steps != [] {
      NoReplyAnyMore(Apply(s, steps[0]), steps[1..], t, c, r);
    }
  }

  /** A command returns its own reply or none, in every continuation, if and only
      if no reply to an earlier command is in reach when it is written. */
  lemma {:induction false} OwnIffAlone(before: seq<Step>, s: Conn, c: nat)
    requires Leads(Fresh(), before, s) && Enabled(s, Write(c))
    ensures AlwaysOwn(s, c) <==> !StaleInReach(s)
  {
    Reached(Fresh(), before, s);
    var u := Apply(s, Write(c));
    if Unclaimed(s) == [] {
      WriteKeepsInv(s, c);
      forall steps, t, r | Leads(u, steps, t) && Replied(t, c, r) ensures r == c {
        Reached(u, steps, t);
        AloneForGood(u, steps, t, c);
        assert CmdOk(t, c);
      }
    } else if !StaleInReach(s) {
      forall steps, t, r | Leads(u, steps, t) ensures !Replied(t, c, r) {
        NoReplyAnyMore(u, steps, t, c, r);
      }
    } else {
      var steps, t := StaleReply(s, c);
    }
  }

  lemma WriteKeepsInv(s: Conn, c: nat)
    requires Inv(s) && Enabled(s, Write(c))
    ensures Inv(Apply(s, Write(c)))
  {
    assert Leads(Apply(s, Write(c)), [], Apply(s, Write(c)));
    Reached(s, [Write(c)], Apply(s, Write(c)));
  }

  /** An open done channel is enough: it leaves nothing pending at a write, in
      reach or not. */
  lemma OpenMeansAlone(before: seq<Step>, s: Conn, c: nat)
    requires Leads(Fresh(), before, s) && Enabled(s, Write(c)) && !s.doneClosed
    ensures Unclaimed(s) == []
  {
    Reached(Fresh(), before, s);
    assert CmdOk(s, c);
  }

  /** One more step at the end. */
  lemma {:induction false} Then(s: Conn, steps: seq<Step>, t: Conn, step: Step)
    requires Leads(s, steps, t) && Enabled(t, step)
    ensures Leads(s, steps + [step], Apply(t, step))
    decreases steps
  {
    if steps == [] {
      assert Leads(Apply(t, step), [step][1..], Apply(t, step));
    } else {
      Then(Apply(s, steps[0]), steps[1..], t, step);
      assert (steps + [step])[1..] == steps[1..] + [step];
    }
  }

  /** Command 0 waits with its reply handed over, and command 1 for the token. */
  const HANDED := Conn([Cmd(Awaiting, true, true), Cmd(Queued, false, false)], Some(0), false, false, [], Some(0), true)

  lemma {:induction false} Opening() returns (steps: seq<Step>)
    ensures Leads(Fresh(), steps, HANDED)
  {
    var t := Fresh();
    assert Leads(t, [], t);
    Then(Fresh(), [], t, Call);
    t := Apply(t, Call);
    Then(Fresh(), [] + [Call], t, Call);
    t := Apply(t, Call);
    Then(Fresh(), [] + [Call] + [Call], t, Take(0));
    t := Apply(t, Take(0));
    Then(Fresh(), [] + [Call] + [Call] + [Take(0)], t, Write(0));
    t := Apply(t, Write(0));
    steps := [] + [Call] + [Call] + [Take(0)] + [Write(0)];
    Then(Fresh(), steps, t, Hand);
    steps, t := steps + [Hand], Apply(t, Hand);
    assert t.cmds == HANDED.cmds && t.coming == HANDED.coming;
  }

  /** Command 0 has left on the closed done channel, its reply still handed over. */
  const ABANDONED := Conn([Cmd(Failed, true, true), Cmd(Queued, false, false)], None, true, false, [], Some(0), true)

  lemma {:induction false} Leaving(before: seq<Step>) returns (steps: seq<Step>)
    requires Leads(Fresh(), before, HANDED)
    ensures Leads(Fresh(), steps, ABANDONED)
  {
    var t := HANDED;
    steps := before;
    Then(Fresh(), steps, t, BeginClose);
    steps, t := steps + [BeginClose], Apply(t, BeginClose);
    Then(Fresh(), steps, t, SeeDone(0));
    steps, t := steps + [SeeDone(0)], Apply(t, SeeDone(0));
    Then(Fresh(), steps, t, Release(0));
    steps, t := steps + [Release(0)], Apply(t, Release(0));
    assert t.cmds == ABANDONED.cmds;
  }

  /** But a write between the two halves of Close can meet a stale reply: command
      0 leaves on the closed done channel while its reply lies handed over, and
      command 1, writing before the connection closes, takes that reply. */
  lemma {:induction false} CloseWindow() returns (steps: seq<Step>, t: Conn)
    ensures Leads(Fresh(), steps, t) && Replied(t, 1, 0)
  {
    steps := Opening();
    steps := Leaving(steps);
    t := ABANDONED;
    Then(Fresh(), steps, t, Take(1));
    steps, t := steps + [Take(1)], Apply(t, Take(1));
    Then(Fresh(), steps, t, Write(1));
    steps, t := steps + [Write(1)], Apply(t, Write(1));
    Then(Fresh(), steps, t, Receive(1));
    steps, t := steps + [Receive(1)], Apply(t, Receive(1));
  }

  // ---- where replies come from, and who can go on ---------------------------

  /** Only taking a reply out of the channel gives a command one. */
  lemma {:induction false} ReplyByReceive(s: Conn, step: Step, c: nat, r: nat)
    requires Enabled(s, step) && Replied(Apply(s, step), c, r) && !Replied(s, c, r)
    ensures step == Receive(c) && s.handed == Some(r) && Apply(s, step).handed == None
  {}

  /** These steps of a connection lead from `s` through `u`, where command `c` takes
      reply `r` out of the channel, to `t`. */
  ghost predicate Through(s: Conn, before: seq<Step>, u: Conn, c: nat, r: nat, after: seq<Step>, t: Conn) {
    && Leads(s, before, u) && Enabled(u, Receive(c)) && u.handed == Some(r)
    && Leads(Apply(u, Receive(c)), after, t)
  }

  /** A command that returns a reply took it out of the channel before. */
  lemma {:induction false} ReplyWasTaken(s: Conn, steps: seq<Step>, t: Conn, c: nat, r: nat)
    returns (before: seq<Step>, u: Conn, after: seq<Step>)
    requires Leads(s, steps, t) && Replied(t, c, r) && !Replied(s, c, r)
    ensures Through(s, before, u, c, r, after, t) && steps == before + [Receive(c)] + after
    decreases steps
  {
    if steps == [] {
      assert false;
    } else {
      var next := Apply(s, steps[0]);
      if Replied(next, c, r) {
        ReplyByReceive(s, steps[0], c, r);
        before, u, after := [], s, steps[1..];
        assert Leads(s, [], s);
      } else {
        before, u, after := ReplyWasTaken(next, steps[1..], t, c, r);
        before := [steps[0]] + before;
        assert before[1..] + [Receive(c)] + after == steps[1..];
      }
    }
  }

  /** A command that is not over can always go on: one that waits for the token can be
      refused, one that holds it can fail to write, one that waits can run out of
      time, one that is done can release the token; and one that has to close the
      connection can once it is closed, which can go on until it is. */
  lemma {:induction false} NobodyStuck(s: Conn, c: nat)
    requires c < |s.cmds| && (s.connClosed ==> s.doneClosed)
    ensures var phase := s.cmds[c].phase;
      && (phase == Queued ==> Enabled(s, Refuse(c)) && (Enabled(s, Take(c)) <==> s.holder == None))
      && (phase == Holding ==> Enabled(s, WriteFails(c, false)) && (Enabled(s, Write(c)) <==> !s.connClosed))
      && (phase == Awaiting ==>
            && Enabled(s, RunOut(c)) && (Enabled(s, Receive(c)) <==> s.handed != None)
            && (Enabled(s, SeeDone(c)) <==> s.doneClosed))
      && (phase == MustClose ==> Enabled(s, CloseReturns(c)) || Enabled(s, BeginClose) || Enabled(s, EndClose))
      && (phase == Releasing || phase.Got? ==> Enabled(s, Release(c)))
    ensures Enabled(s, Hand) <==> s.reading && s.coming != [] && s.handed == None
  {}

  /** The reply that a step takes out of the channel, and the command that it writes. */
  function Took(s: Conn, step: Step): seq<nat> {
    if step.Receive? && s.handed.Some? then [s.handed.value] else []
  }

  function Wrote(step: Step): seq<nat> {
    if step.Write? || (step.WriteFails? && step.sent) then [step.c] else []
  }

  function Takes(s: Conn, steps: seq<Step>): seq<nat>
    decreases |steps|
  {
    if steps == [] || !Enabled(s, steps[0]) then [] else Took(s, steps[0]) + Takes(Apply(s, steps[0]), steps[1..])
  }

  function Writes(steps: seq<Step>): seq<nat> {
    if steps == [] then [] else Wrote(steps[0]) + Writes(steps[1..])
  }

  lemma {:induction false} TakenStep(s: Conn, step: Step)
    requires Enabled(s, step)
    ensures Unclaimed(s) + Wrote(step) == Took(s, step) + Unclaimed(Apply(s, step))
  {
    UnclaimedMoves(s, step);
    if step.Receive? {
      assert Unclaimed(s) == [Unclaimed(s)[0]] + Unclaimed(s)[1..];
    }
  }

  lemma {:induction false} Regrouped(
      a: seq<nat>, wrote: seq<nat>, later: seq<nat>, took: seq<nat>, b: seq<nat>, takes: seq<nat>, c: seq<nat>)
    requires a + wrote == took + b && b + later == takes + c
    ensures a + (wrote + later) == took + takes + c
  {
    assert a + (wrote + later) == a + wrote + later == took + b + later == took + (b + later);
  }

  /** Replies are taken in the order in which their commands were written, each at most
      once, and what has not been taken is still unclaimed. */
  lemma {:induction false} TakenInOrder(s: Conn, steps: seq<Step>, t: Conn)
    requires Leads(s, steps, t)
    ensures Unclaimed(s) + Writes(steps) == Takes(s, steps) + Unclaimed(t)
    decreases |steps|
  {
    if steps != [] {
      var u := Apply(s, steps[0]);
      TakenStep(s, steps[0]);
      TakenInOrder(u, steps[1..], t);
      Regrouped(Unclaimed(s), Wrote(steps[0]), Writes(steps[1..]), Took(s, steps[0]), Unclaimed(u),
                Takes(u, steps[1..]), Unclaimed(t));
    }
  }
}
