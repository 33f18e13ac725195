/** Matching replies to commands (internal/app/control.go): callers take a token,
    write, and wait; Tor answers in order, one reply each; the reader hands
    replies over through a channel of one.  Close is two steps, as in the code:
    first the done channel, then the connection. */
module Commands {
  import opened Base

  datatype Phase =
    | Queued                   // waiting for the token
    | Holding                  // has the token, has not written
    | Awaiting                 // has written
    | MustClose                // a write failed or the wait ran out: calls Close
    | Releasing                // returns an error, still holds the token
    | Got(reply: nat)          // has taken a reply, still holds the token
    | Failed
    | Returned(reply: nat)

  /** Commands are numbered; so are their replies.  `open`: the done channel was
      open when the command was written.  `alone`: no unclaimed reply was then
      pending anywhere. */
  datatype Cmd = Cmd(phase: Phase, open: bool, alone: bool)

  /** `coming`: replies that Tor has sent or will send, in order, and the reader
      has not handed over.  `handed`: the reply in the channel.  `reading`: the
      reader's loop has not returned. */
  datatype Conn = Conn(
    cmds: seq<Cmd>, holder: Option<nat>, doneClosed: bool, connClosed: bool,
    coming: seq<nat>, handed: Option<nat>, reading: bool)

  datatype Step =
    | Call
    | Take(c: nat)
    | Refuse(c: nat)
    | Write(c: nat)
    | WriteFails(c: nat, sent: bool)
    | Hand
    | ReaderEnds
    | Receive(c: nat)
    | RunOut(c: nat)
    | SeeDone(c: nat)
    | CloseReturns(c: nat)
    | Release(c: nat)
    | BeginClose
    | EndClose

  function Fresh(): Conn {
    Conn([], None, false, false, [], None, true)
  }

  /** Replies nobody has taken yet, next one first. */
  function Unclaimed(s: Conn): seq<nat> {
    (if s.handed.Some? then [s.handed.value] else []) + s.coming
  }

  predicate In(s: Conn, c: nat, phase: Phase) {
    c < |s.cmds| && s.cmds[c].phase == phase
  }

  predicate Enabled(s: Conn, step: Step) {
    match step
    case Call => true
    case Take(c) => In(s, c, Queued) && s.holder.None?
    case Refuse(c) => In(s, c, Queued)
    case Write(c) => In(s, c, Holding) && !s.connClosed
    case WriteFails(c, sent) => In(s, c, Holding) && (sent ==> !s.connClosed)
    case Hand => s.reading && s.coming != [] && s.handed.None?
    case ReaderEnds => s.reading
    case Receive(c) => In(s, c, Awaiting) && s.handed.Some?
    case RunOut(c) => In(s, c, Awaiting)
    case SeeDone(c) => In(s, c, Awaiting) && s.doneClosed
    case CloseReturns(c) => In(s, c, MustClose) && s.connClosed
    case Release(c) => c < |s.cmds| && (s.cmds[c].phase.Releasing? || s.cmds[c].phase.Got?)
    case BeginClose => !s.doneClosed
    case EndClose => s.doneClosed && !s.connClosed
  }

  function Put(s: Conn, c: nat, phase: Phase): Conn
    requires c < |s.cmds|
  {
    s.(cmds := s.cmds[c := s.cmds[c].(phase := phase)])
  }

  /** The command reaches Tor. */
  function Send(s: Conn, c: nat, phase: Phase): Conn
    requires c < |s.cmds|
  {
    s.(cmds := s.cmds[c := Cmd(phase, !s.doneClosed, Unclaimed(s) == [])], coming := s.coming + [c])
  }

  function Apply(s: Conn, step: Step): Conn
    requires Enabled(s, step)
  {
    match step
    case Call => s.(cmds := s.cmds + [Cmd(Queued, false, false)])
    case Take(c) => Put(s, c, Holding).(holder := Some(c))
    case Refuse(c) => Put(s, c, Failed)
    case Write(c) => Send(s, c, Awaiting)
    case WriteFails(c, sent) => if sent then Send(s, c, MustClose) else Put(s, c, MustClose)
    case Hand => s.(coming := s.coming[1..], handed := Some(s.coming[0]))
    case ReaderEnds => s.(reading := false)
    case Receive(c) => Put(s, c, Got(s.handed.value)).(handed := None)
    case RunOut(c) => Put(s, c, MustClose)
    case SeeDone(c) => Put(s, c, Releasing)
    case CloseReturns(c) => Put(s, c, Releasing)
    case Release(c) =>
      Put(s, c, if s.cmds[c].phase.Got? then Returned(s.cmds[c].phase.reply) else Failed).(holder := None)
    case BeginClose => s.(doneClosed := true)
    case EndClose => s.(connClosed := true)
  }

  /** `t` is reached from `s` by these steps. */
  predicate Leads(s: Conn, steps: seq<Step>, t: Conn)
    decreases steps
  {
    if steps == [] then s == t
    else Enabled(s, steps[0]) && Leads(Apply(s, steps[0]), steps[1..], t)
  }

  // ---- the invariant -------------------------------------------------------

  predicate HoldsToken(phase: Phase) {
    phase.Holding? || phase.Awaiting? || phase.MustClose? || phase.Releasing? || phase.Got?
  }

  predicate Absent(s: Conn, c: nat) {
    Lacks(Unclaimed(s), c)
  }

  /** No unclaimed reply belongs to command `c`. */
  predicate Lacks(unclaimed: seq<nat>, c: nat) {
    forall k :: 0 <= k < |unclaimed| ==> unclaimed[k] != c
  }

  /** Unclaimed replies belong to commands that were called. */
  predicate Known(s: Conn) {
    forall k :: 0 <= k < |Unclaimed(s)| ==> Unclaimed(s)[k] < |s.cmds|
  }

  /** What command `c` may find: its own reply or, if it was not written alone,
      replies that were pending before it. */
  predicate Fits(cmd: Cmd, c: nat, holder: Option<nat>, unclaimed: seq<nat>) {
    && (HoldsToken(cmd.phase) <==> holder == Some(c))
    && (cmd.open ==> cmd.alone)
    && (cmd.alone && cmd.phase.Awaiting? ==> unclaimed == [c])
    && (cmd.alone && (cmd.phase.Got? || cmd.phase.Returned?) ==> cmd.phase.reply == c)
    && (cmd.phase.Queued? || cmd.phase.Holding? ==> Lacks(unclaimed, c) && !cmd.alone && !cmd.open)
  }

  predicate CmdOk(s: Conn, c: nat)
    requires c < |s.cmds|
  {
    Fits(s.cmds[c], c, s.holder, Unclaimed(s))
  }

  /** While the done channel is open, only the token holder's own command can be
      pending, and only after it was written. */
  predicate Quiet(s: Conn) {
    && (s.connClosed ==> s.doneClosed)
    && (s.holder.Some? ==> s.holder.value < |s.cmds|)
    && (!s.doneClosed ==>
          if s.holder.None? then Unclaimed(s) == []
          else
            var cmd := s.cmds[s.holder.value];
            && !cmd.phase.Releasing?
            && (cmd.phase.Awaiting? ==> cmd.alone)
            && (cmd.phase.Holding? || cmd.phase.Got? ==> Unclaimed(s) == []))
  }

  ghost predicate Inv(s: Conn) {
    Known(s) && Quiet(s) && forall c :: 0 <= c < |s.cmds| ==> CmdOk(s, c)
  }

  /** Writing appends to the unclaimed replies, receiving takes the first one,
      and nothing else moves them. */
  lemma UnclaimedMoves(s: Conn, step: Step)
    requires Enabled(s, step)
    ensures Unclaimed(Apply(s, step)) ==
      match step
      case Write(c) => Unclaimed(s) + [c]
      case WriteFails(c, sent) => if sent then Unclaimed(s) + [c] else Unclaimed(s)
      case Receive(c) => Unclaimed(s)[1..]
      case _ => Unclaimed(s)
    ensures step.Receive? ==> Unclaimed(s) != [] && s.handed == Some(Unclaimed(s)[0])
  {}

  /** The command that a step is about. */
  function Subject(step: Step): Option<nat> {
    match step
    case Call => None
    case Hand => None
    case ReaderEnds => None
    case BeginClose => None
    case EndClose => None
    case _ => Some(step.c)
  }

  lemma {:induction false} KnownKept(s: Conn, step: Step)
    requires Known(s) && Enabled(s, step)
    ensures Known(Apply(s, step))
  {
    var t := Apply(s, step);
    UnclaimedMoves(s, step);
    assert |s.cmds| <= |t.cmds|;
    forall k | 0 <= k < |Unclaimed(t)| ensures Unclaimed(t)[k] < |t.cmds| {
      if step.Receive? {
        assert Unclaimed(t)[k] == Unclaimed(s)[k + 1];
      } else if k < |Unclaimed(s)| {
        assert Unclaimed(t)[k] == Unclaimed(s)[k];
      } else {
        assert Unclaimed(t)[k] == step.c;
      }
    }
  }

  lemma QuietKept(s: Conn, step: Step)
    requires Inv(s) && Enabled(s, step)
    ensures Quiet(Apply(s, step))
  {
    UnclaimedMoves(s, step);
    if s.holder.Some? {
      assert CmdOk(s, s.holder.value);
    }
    if Subject(step).Some? {
      assert CmdOk(s, Subject(step).value);
    }
  }

  lemma {:induction false} SubjectKept(s: Conn, step: Step, c: nat)
    requires Quiet(s) && Enabled(s, step) && Subject(step) == Some(c) && c < |s.cmds| && CmdOk(s, c)
    ensures CmdOk(Apply(s, step), c)
  {
    var t := Apply(s, step);
    UnclaimedMoves(s, step);
    if step.Write? || step.WriteFails? {
      assert Unclaimed(s) == [] ==> [] + [c] == [c];
    } else if step.Receive? {
      assert t.cmds[c] == s.cmds[c].(phase := Got(Unclaimed(s)[0])) && t.holder == s.holder;
    } else {
      assert Unclaimed(t) == Unclaimed(s);
      assert t.cmds[c] == s.cmds[c].(phase := t.cmds[c].phase);
    }
  }

  /** Command `c` stays as it is, while another one moves or the token or the
      unclaimed replies do. */
  lemma {:induction false} FitsStill(cmd: Cmd, c: nat, holder: Option<nat>, unclaimed: seq<nat>,
                                     holder': Option<nat>, unclaimed': seq<nat>)
    requires Fits(cmd, c, holder, unclaimed)
    requires holder == Some(c) <==> holder' == Some(c)
    requires Lacks(unclaimed, c) ==> Lacks(unclaimed', c)
    requires cmd.alone && cmd.phase.Awaiting? ==> unclaimed' == unclaimed
    ensures Fits(cmd, c, holder', unclaimed')
  {}

  lemma {:induction false} LacksStill(s: Conn, step: Step, c: nat)
    requires Enabled(s, step) && Subject(step) != Some(c) && Lacks(Unclaimed(s), c)
    ensures Lacks(Unclaimed(Apply(s, step)), c)
  {
    var t := Apply(s, step);
    UnclaimedMoves(s, step);
    forall k | 0 <= k < |Unclaimed(t)| ensures Unclaimed(t)[k] != c {
      if step.Receive? {
        assert Unclaimed(t)[k] == Unclaimed(s)[k + 1];
      } else if k < |Unclaimed(s)| {
        assert Unclaimed(t)[k] == Unclaimed(s)[k];
      }
    }
  }

  /** A step of another command that sends or receives needs the token. */
  lemma {:induction false} TokenElsewhere(s: Conn, step: Step, c: nat)
    requires Quiet(s) && Enabled(s, step) && Subject(step) != Some(c) && c < |s.cmds| && CmdOk(s, c)
    requires Subject(step).Some? ==> Subject(step).value < |s.cmds| && CmdOk(s, Subject(step).value)
    ensures s.holder == Some(c) <==> Apply(s, step).holder == Some(c)
    ensures s.holder == Some(c) ==> !step.Write? && !step.WriteFails? && !step.Receive?
  {}

  lemma {:induction false} OtherUnmoved(s: Conn, step: Step, c: nat)
    requires Enabled(s, step) && Subject(step) != Some(c) && c < |s.cmds|
    ensures c < |Apply(s, step).cmds| && Apply(s, step).cmds[c] == s.cmds[c]
  {}

  lemma {:induction false} Undisturbed(s: Conn, step: Step)
    requires Enabled(s, step) && !step.Write? && !step.WriteFails? && !step.Receive?
    ensures Unclaimed(Apply(s, step)) == Unclaimed(s)
  {
    UnclaimedMoves(s, step);
  }

  lemma {:induction false} OtherKept(s: Conn, step: Step, c: nat)
    requires Quiet(s) && Enabled(s, step) && Subject(step) != Some(c) && c < |s.cmds| && CmdOk(s, c)
    requires Subject(step).Some? ==> Subject(step).value < |s.cmds| && CmdOk(s, Subject(step).value)
    ensures c < |Apply(s, step).cmds| && CmdOk(Apply(s, step), c)
  {
    var t := Apply(s, step);
    OtherUnmoved(s, step, c);
    TokenElsewhere(s, step, c);
    if s.holder == Some(c) {
      Undisturbed(s, step);
    } else if Lacks(Unclaimed(s), c) {
      LacksStill(s, step, c);
    }
    FitsStill(s.cmds[c], c, s.holder, Unclaimed(s), t.holder, Unclaimed(t));
  }

  lemma CmdKept(s: Conn, step: Step, c: nat)
    requires Inv(s) && Enabled(s, step) && c < |Apply(s, step).cmds|
    ensures CmdOk(Apply(s, step), c)
  {
    if Subject(step) == Some(c) {
      SubjectKept(s, step, c);
    } else if c < |s.cmds| {
      OtherKept(s, step, c);
    } else {
      UnclaimedMoves(s, step);
      assert Absent(Apply(s, step), c);
    }
  }

  lemma {:induction false} Reached(s: Conn, steps: seq<Step>, t: Conn)
    requires Inv(s) && Leads(s, steps, t)
    ensures Inv(t)
    decreases steps
  {
    if steps != [] {
      KnownKept(s, steps[0]);
      QuietKept(s, steps[0]);
      forall c | 0 <= c < |Apply(s, steps[0]).cmds| ensures CmdOk(Apply(s, steps[0]), c) {
        CmdKept(s, steps[0], c);
      }
      Reached(Apply(s, steps[0]), steps[1..], t);
    }
  }
}
