/** Stream pinning: the event loop of one Tor session (internal/app/tor.go). */
module Streams {
  import opened Base
  import opened Text

  /** What the loop knows of an endpoint: its token and its circuit. */
  datatype Generation = Generation(token: string, circuit: string)

  /** Commands the loop sends to Tor. */
  datatype Command = Attach(stream: string, circuit: string) | CloseStream(stream: string)

  /** What the loop reacts to, and what other goroutines do in between.
      `attached` tells whether Tor accepts the ATTACHSTREAM of this event, and
      `meanwhile` which endpoints are cancelled between its check and its command. */
  datatype Input =
    | Event(text: string, attached: bool, meanwhile: set<nat>)
    | Begin(gen: Generation)
    | End
    | Cancel(which: nat)

  datatype Session = Session(
    gens: seq<Generation>, cancelled: set<nat>, current: Option<nat>,
    internal: set<string>, sent: seq<(nat, Command)>, stopped: bool)
  {
    predicate Valid() {
      current.Some? ==> current.value < |gens|
    }
  }

  const START := Session([], {}, None, {}, [], false)

  predicate IsInternalStream(fields: seq<string>) {
    || (|fields| >= 5 && HasPrefix(fields[4], "(Tor_internal):"))
    || "PURPOSE=DIR_FETCH" in fields || "PURPOSE=DIR_UPLOAD" in fields || "PURPOSE=DIRPORT_TEST" in fields
  }

  /** The marks of streams that Tor makes itself, in words: one of the three purposes,
      or a fifth field that starts so. */
  predicate NamesInternal(fields: seq<string>) {
    || (exists i :: 0 <= i < |fields| &&
          fields[i] in {"PURPOSE=DIR_FETCH", "PURPOSE=DIR_UPLOAD", "PURPOSE=DIRPORT_TEST"})
    || (|fields| > 4 && |fields[4]| >= 15 && fields[4][..15] == "(Tor_internal):")
  }

  lemma {:induction false} InternalMeaning(fields: seq<string>)
    ensures IsInternalStream(fields) <==> NamesInternal(fields)
  {
    if |fields| > 4 && HasPrefix(fields[4], "(Tor_internal):") {
      assert fields[4][..15] == "(Tor_internal):";
    }
  }

  /** The circuit event of the current endpoint's own circuit. */
  predicate EndsCircuit(fields: seq<string>, circuit: string) {
    |fields| >= 3 && fields[0] == "CIRC" && fields[1] == circuit && (fields[2] == "CLOSED" || fields[2] == "FAILED")
  }

  /** The stream events the loop looks at. */
  predicate IsStream(fields: seq<string>) {
    |fields| >= 3 && fields[0] == "STREAM"
  }

  /** The internal streams after a stream event, and before its commands. */
  function Marked(internal: set<string>, fields: seq<string>): set<string>
    requires IsStream(fields)
  {
    if IsInternalStream(fields) then internal + {fields[1]} else internal
  }

  /** The commands for one client stream event. */
  function Answer(fields: seq<string>, user: Option<string>, live: Option<Generation>, attached: bool): seq<Command>
    requires IsStream(fields)
  {
    var id := fields[1];
    if fields[2] == "NEW" || fields[2] == "NEWRESOLVE" then
      if live.None? || user != Some(live.value.token) then [CloseStream(id)]
      else if attached then [Attach(id, live.value.circuit)]
      else [Attach(id, live.value.circuit), CloseStream(id)]
    else if fields[2] == "DETACHED" then [CloseStream(id)]
    else []
  }

  /** The current endpoint, unless it is cancelled. */
  function Live(s: Session): Option<Generation>
    requires s.Valid()
  {
    if s.current.Some? && s.current.value !in s.cancelled then Some(s.gens[s.current.value]) else None
  }

  function Tag(k: nat, commands: seq<Command>): (r: seq<(nat, Command)>)
    ensures |r| == |commands|
    ensures forall i :: 0 <= i < |r| ==> r[i] == (k, commands[i])
  {
    seq(|commands|, i requires 0 <= i < |commands| => (k, commands[i]))
  }

  /** What the loop does when it ends: the current endpoint is cancelled. */
  function Leave(s: Session): (t: Session)
    ensures s.Valid() ==> t.Valid()
  {
    if s.current.Some? then s.(cancelled := s.cancelled + {s.current.value}) else s
  }

  /** The loop body on event number `k`. */
  function Handle(s: Session, k: nat, text: string, attached: bool, meanwhile: set<nat>): (t: Session)
    requires s.Valid()
    ensures t.Valid()
  {
    var fields := Fields(text);
    if |fields| < 3 then s
    else if s.current.Some? && EndsCircuit(fields, s.gens[s.current.value].circuit) then
      s.(cancelled := s.cancelled + {s.current.value})
    else if !IsStream(fields) then s
    else
      var internal := Marked(s.internal, fields);
      if fields[1] in internal then
        s.(internal := if fields[2] == "CLOSED" then internal - {fields[1]} else internal)
      else if !IsUint64(fields[1]) then Leave(s).(stopped := true)
      else s.(sent := s.sent + Tag(k, Answer(fields, FindUser(text), Live(s), attached)),
              cancelled := s.cancelled + meanwhile)
  }

  function Step(s: Session, k: nat, input: Input): (t: Session)
    requires s.Valid()
    ensures t.Valid()
  {
    match input
    case Event(text, attached, meanwhile) => if s.stopped then s else Handle(s, k, text, attached, meanwhile)
    case Begin(gen) => s.(gens := s.gens + [gen], current := Some(|s.gens|))
    case End => s.(current := None)
    case Cancel(g) => s.(cancelled := s.cancelled + {g})
  }

  /** The session after the first `k` inputs. */
  function After(inputs: seq<Input>, k: nat): (s: Session)
    requires k <= |inputs|
    ensures s.Valid()
  {
    if k == 0 then START else Step(After(inputs, k - 1), k - 1, inputs[k - 1])
  }

  // ---- the loop ------------------------------------------------------------

  class TorSession {
    var gens: seq<Generation>
    var cancelled: set<nat>
    var current: Option<nat>
    var internalStreams: set<string>
    var sent: seq<(nat, Command)>
    var stopped: bool

    ghost function View(): Session
      reads this
    {
      Session(gens, cancelled, current, internalStreams, sent, stopped)
    }

    constructor ()
      ensures View() == START
    {
      gens, cancelled, current, internalStreams, sent, stopped := [], {}, None, {}, [], false;
    }

    method SetEndpoint(gen: Option<Generation>)
      modifies this`gens, this`current
      ensures var s := old(View()).(current := None);
        View() == if gen.Some? then Step(s, 0, Begin(gen.value)) else s
    {
      if gen.Some? {
        gens, current := gens + [gen.value], Some(|gens|);
      } else {
        current := None;
      }
    }

    method Send(k: nat, command: Command)
      modifies this`sent
      ensures View() == old(View()).(sent := old(sent) + [(k, command)])
    {
      sent := sent + [(k, command)];
    }

    method CancelCurrent()
      modifies this`cancelled
      ensures View() == Leave(old(View()))
    {
      if current.Some? {
        cancelled := cancelled + {current.value};
      }
    }

    /** The body of the loop for one event. */
    method HandleEvent(k: nat, text: string, attached: bool, meanwhile: set<nat>)
      requires View().Valid()
      modifies this
      ensures View() == Handle(old(View()), k, text, attached, meanwhile)
    {
      var fields := Fields(text);
      if |fields| < 3 {
        return;
      }
      var ep := current;
      if fields[0] == "CIRC" && ep.Some? && fields[1] == gens[ep.value].circuit
         && (fields[2] == "CLOSED" || fields[2] == "FAILED") {
        cancelled := cancelled + {ep.value};
      }
      if fields[0] != "STREAM" {
        return;
      }
      if IsInternalStream(fields) {
        internalStreams := internalStreams + {fields[1]};
      }
      if fields[1] in internalStreams {
        if fields[2] == "CLOSED" {
          internalStreams := internalStreams - {fields[1]};
        }
        return;
      }
      if !IsUint64(fields[1]) {
        CancelCurrent();
        stopped := true;
        return;
      }
      HandleClient(k, text, fields, ep, attached, meanwhile);
    }

    method HandleClient(
        k: nat, text: string, fields: seq<string>, ep: Option<nat>, attached: bool, meanwhile: set<nat>)
      requires View().Valid() && IsStream(fields) && ep == current
      modifies this`sent, this`cancelled
      ensures View() == old(View()).(
        sent := old(sent) + Tag(k, Answer(fields, FindUser(text), Live(old(View())), attached)),
        cancelled := old(cancelled) + meanwhile)
    {
      if fields[2] == "NEW" || fields[2] == "NEWRESOLVE" {
        var named := FindUser(text);
        var refused := ep.None? || ep.value in cancelled || named.None? || named.value != gens[ep.value].token;
        cancelled := cancelled + meanwhile;
        if refused {
          Send(k, CloseStream(fields[1]));
          return;
        }
        Send(k, Attach(fields[1], gens[ep.value].circuit));
        if !attached {
          Send(k, CloseStream(fields[1]));
        }
      } else {
        cancelled := cancelled + meanwhile;
        if fields[2] == "DETACHED" {
          Send(k, CloseStream(fields[1]));
        }
      }
    }

    /** The whole loop over a history of events and endpoint changes; however it
        ends, it cancels the endpoint that is then current. */
    method Events(inputs: seq<Input>)
      requires View() == START
      modifies this
      ensures var s := After(inputs, |inputs|); View() == if s.stopped then s else Leave(s)
      ensures !After(inputs, |inputs|).stopped && current.Some? ==> current.value in cancelled
    {
      for k := 0 to |inputs|
        invariant View() == After(inputs, k)
      {
        match inputs[k] {
          case Event(text, attached, meanwhile) =>
            if !stopped {
              HandleEvent(k, text, attached, meanwhile);
            }
          case Begin(gen) => SetEndpoint(Some(gen));
          case End => SetEndpoint(None);
          case Cancel(g) => cancelled := cancelled + {g};
        }
      }
      if !stopped {
        CancelCurrent();
      }
    }
  }

  // ---- pinning -------------------------------------------------------------

  /** A client stream event that the loop handles. */
  predicate ClientEvent(s: Session, text: string) {
    var fields := Fields(text);
    && !s.stopped && |fields| >= 3 && fields[0] == "STREAM"
    && fields[1] !in s.internal && !NamesInternal(fields) && IsUint64(fields[1])
  }

  /** The commands that input `k` draws in session `s`. */
  function Drawn(s: Session, input: Input): seq<Command>
    requires s.Valid()
  {
    if input.Event? && ClientEvent(s, input.text)
    then Answer(Fields(input.text), FindUser(input.text), Live(s), input.attached) else []
  }

  lemma StepSends(s: Session, k: nat, input: Input)
    requires s.Valid()
    ensures Step(s, k, input).sent == s.sent + Tag(k, Drawn(s, input))
  {
    if input.Event? {
      InternalMeaning(Fields(input.text));
    }
  }

  /** Command number `m` of the session was sent for the event it is tagged with. */
  lemma {:induction false} EverySent(inputs: seq<Input>, k: nat, m: nat)
    requires k <= |inputs| && m < |After(inputs, k).sent|
    ensures var (j, command) := After(inputs, k).sent[m];
      j < k && command in Drawn(After(inputs, j), inputs[j])
  {
    if k > 0 {
      var s := After(inputs, k - 1);
      StepSends(s, k - 1, inputs[k - 1]);
      if m < |s.sent| {
        EverySent(inputs, k - 1, m);
      }
    }
  }

  /** The command attaches the stream of this event, the event carries the token
      of the endpoint that is current and live in `s`, and the circuit is that
      endpoint's. */
  ghost predicate Pinned(s: Session, text: string, command: Command)
    requires s.Valid()
  {
    && command.Attach?
    && s.current.Some? && s.current.value !in s.cancelled
    && FindUser(text) == Some(s.gens[s.current.value].token)
    && command.circuit == s.gens[s.current.value].circuit
    && |Fields(text)| >= 3 && command.stream == Fields(text)[1]
    && (Fields(text)[2] == "NEW" || Fields(text)[2] == "NEWRESOLVE")
  }

  lemma DrawnPinned(s: Session, input: Input, command: Command)
    requires s.Valid() && command in Drawn(s, input) && command.Attach?
    ensures input.Event? && Pinned(s, input.text, command)
  {}

  /** Pinning: whenever a stream is attached, its event carries the token of the
      endpoint that is current and live at that moment, and it is attached to
      that endpoint's circuit. */
  lemma AttachedToOwnCircuit(inputs: seq<Input>, k: nat, m: nat)
    requires k <= |inputs| && m < |After(inputs, k).sent| && After(inputs, k).sent[m].1.Attach?
    ensures var (j, command) := After(inputs, k).sent[m];
      j < k && inputs[j].Event? && Pinned(After(inputs, j), inputs[j].text, command)
  {
    EverySent(inputs, k, m);
    var (j, command) := After(inputs, k).sent[m];
    DrawnPinned(After(inputs, j), inputs[j], command);
  }

  /** Generations are only added and cancellations are for good. */
  predicate Extends(s: Session, t: Session) {
    s.gens <= t.gens && s.cancelled <= t.cancelled
  }

  lemma StepGrows(s: Session, k: nat, input: Input)
    requires s.Valid()
    ensures Extends(s, Step(s, k, input))
  {}

  lemma {:induction false} ExtendsChain(states: seq<Session>, j: nat, k: nat)
    requires j <= k < |states|
    requires forall m, n :: j <= m < k && n == m + 1 ==> Extends(states[m], states[n])
    ensures Extends(states[j], states[k])
  {
    if j < k {
      ExtendsChain(states, j, k - 1);
      assert Extends(states[k - 1], states[k]);
    }
  }

  lemma GensGrow(inputs: seq<Input>, j: nat, k: nat)
    requires j <= k <= |inputs|
    ensures Extends(After(inputs, j), After(inputs, k))
  {
    var states := seq(|inputs| + 1, i requires 0 <= i <= |inputs| => After(inputs, i));
    forall m, n | j <= m < k && n == m + 1 ensures Extends(states[m], states[n]) {
      StepGrows(After(inputs, m), m, inputs[m]);
    }
    ExtendsChain(states, j, k);
  }

  ghost predicate FreshTokens(gens: seq<Generation>) {
    forall a, b :: 0 <= a < b < |gens| ==> gens[a].token != gens[b].token
  }

  lemma TokenDecides(s: Session, gens: seq<Generation>, text: string, command: Command, g: nat)
    requires s.Valid() && Pinned(s, text, command) && s.gens <= gens && FreshTokens(gens)
    requires g < |gens| && FindUser(text) == Some(gens[g].token)
    ensures s.current == Some(g) && command.circuit == gens[g].circuit
  {
    assert gens[s.current.value] == s.gens[s.current.value];
  }

  /** With fresh tokens a stream that carries the token of generation `g` is
      never attached to the circuit of another generation. */
  lemma NeverAnotherGeneration(inputs: seq<Input>, k: nat, m: nat, j: nat, g: nat)
    requires k <= |inputs| && FreshTokens(After(inputs, k).gens)
    requires m < |After(inputs, k).sent| && After(inputs, k).sent[m].1.Attach? && After(inputs, k).sent[m].0 == j
    requires j < k && inputs[j].Event? && g < |After(inputs, k).gens|
    requires FindUser(inputs[j].text) == Some(After(inputs, k).gens[g].token)
    ensures After(inputs, j).current == Some(g)
    ensures After(inputs, k).sent[m].1.circuit == After(inputs, k).gens[g].circuit
  {
    AttachedToOwnCircuit(inputs, k, m);
    GensGrow(inputs, j, k);
    TokenDecides(After(inputs, j), After(inputs, k).gens, inputs[j].text, After(inputs, k).sent[m].1, g);
  }

  /** Nothing is attached to a circuit after its endpoint was cancelled, unless the
      cancellation fell between the check of that very event and its command. */
  lemma {:induction false} NoAttachAfterCancel(inputs: seq<Input>, k: nat, m: nat, j: nat, g: nat)
    requires k <= |inputs| && m < |After(inputs, k).sent| && After(inputs, k).sent[m].1.Attach?
    requires After(inputs, k).sent[m].0 == j <= |inputs| && After(inputs, j).current == Some(g)
    ensures j < k && inputs[j].Event?
    ensures forall i :: 0 <= i <= j ==> g !in After(inputs, i).cancelled
    ensures g in After(inputs, j + 1).cancelled <==> g in inputs[j].meanwhile
  {
    AttachedToOwnCircuit(inputs, k, m);
    forall i | 0 <= i <= j ensures g !in After(inputs, i).cancelled {
      GensGrow(inputs, i, j);
    }
    EverySent(inputs, k, m);
    ClientCancels(After(inputs, j), j, inputs[j]);
  }

  /** An event that draws commands cancels what was cancelled meanwhile. */
  lemma {:induction false} ClientCancels(s: Session, k: nat, input: Input)
    requires s.Valid() && input.Event? && Drawn(s, input) != []
    ensures Step(s, k, input).cancelled == s.cancelled + input.meanwhile
  {
    InternalMeaning(Fields(input.text));
  }

  /** An event that tells of the end of this circuit. */
  predicate TellsEnd(fields: seq<string>, circuit: string) {
    |fields| >= 3 && fields[..2] == ["CIRC", circuit] && fields[2] in {"CLOSED", "FAILED"}
  }

  /** A close or failure event of the current endpoint's circuit cancels it, and does
      nothing else. */
  lemma {:induction false} CircuitEventCancels(inputs: seq<Input>, k: nat)
    requires k < |inputs| && inputs[k].Event?
    requires !After(inputs, k).stopped && After(inputs, k).current.Some?
    requires TellsEnd(Fields(inputs[k].text), After(inputs, k).gens[After(inputs, k).current.value].circuit)
    ensures var s := After(inputs, k); After(inputs, k + 1) == s.(cancelled := s.cancelled + {s.current.value})
  {
    var fields := Fields(inputs[k].text);
    assert fields[0] == fields[..2][0] && fields[1] == fields[..2][1];
  }

  /** The endpoints that an input cancels: one that some other goroutine cancels, the
      current one when its circuit is told to have ended or when the loop meets a
      stream number that is none, and those that are cancelled between the check and
      the command of a client stream. */
  predicate Cancels(s: Session, input: Input, g: nat)
    requires s.Valid()
  {
    if input.Cancel? then g == input.which
    else if !input.Event? || s.stopped then false
    else
      var fields := Fields(input.text);
      if s.current.Some? && TellsEnd(fields, s.gens[s.current.value].circuit) then s.current == Some(g)
      else if !IsStream(fields) || fields[1] in Marked(s.internal, fields) then false
      else if !IsUint64(fields[1]) then s.current == Some(g)
      else g in input.meanwhile
  }

  predicate CancelsAt(inputs: seq<Input>, j: nat, g: nat)
    requires j < |inputs|
  {
    Cancels(After(inputs, j), inputs[j], g)
  }

  /** A flag that is raised at some points stays up. */
  lemma {:induction false} Accumulates(level: seq<bool>, raised: seq<bool>, k: nat)
    requires k < |level| == |raised| + 1 && !level[0]
    requires forall m, n :: 0 <= m < |raised| && n == m + 1 ==> (level[n] <==> level[m] || raised[m])
    ensures level[k] <==> exists j :: 0 <= j < k && raised[j]
  {
    if k > 0 {
      Accumulates(level, raised, k - 1);
      var m, n := k - 1, k;
      assert level[n] <==> level[m] || raised[m];
    }
  }

  /** Which endpoints are cancelled, after any history. */
  lemma {:induction false} CancelledIff(inputs: seq<Input>, k: nat, g: nat)
    requires k <= |inputs|
    ensures g in After(inputs, k).cancelled <==> exists j :: 0 <= j < k && CancelsAt(inputs, j, g)
  {
    var level := seq(|inputs| + 1, i requires 0 <= i <= |inputs| => g in After(inputs, i).cancelled);
    var raised := seq(|inputs|, i requires 0 <= i < |inputs| => CancelsAt(inputs, i, g));
    forall m, n | 0 <= m < |raised| && n == m + 1 ensures level[n] <==> level[m] || raised[m] {
      StepCancels(After(inputs, m), m, inputs[m], g);
    }
    Accumulates(level, raised, k);
    forall j | 0 <= j < k ensures raised[j] == CancelsAt(inputs, j, g) {}
  }

  lemma {:induction false} StepCancels(s: Session, k: nat, input: Input, g: nat)
    requires s.Valid()
    ensures g in Step(s, k, input).cancelled <==> g in s.cancelled || Cancels(s, input, g)
  {
    if input.Event? && !s.stopped {
      var fields := Fields(input.text);
      if |fields| >= 3 {
        assert fields[..2] == [fields[0], fields[1]];
      }
    }
  }

  /** How many endpoints were begun among the first `k` inputs. */
  function Begun(inputs: seq<Input>, k: nat): nat
    requires k <= |inputs|
  {
    if k == 0 then 0 else Begun(inputs, k - 1) + Bit(inputs[k - 1].Begin?)
  }

  /** The last of the first `k` inputs that began or ended an endpoint is this one. */
  predicate LastChange(inputs: seq<Input>, j: nat, k: nat) {
    && j < k <= |inputs| && (inputs[j].Begin? || inputs[j].End?)
    && forall i :: j < i < k ==> !inputs[i].Begin? && !inputs[i].End?
  }

  /** The first `k` inputs end with the beginning of this endpoint, events aside. */
  ghost predicate BegunLast(inputs: seq<Input>, k: nat, gen: Generation) {
    exists j: nat :: LastChange(inputs, j, k) && inputs[j] == Begin(gen)
  }

  lemma {:induction false} ChangeNow(inputs: seq<Input>, k: nat, gen: Generation)
    requires 0 < k <= |inputs| && (inputs[k - 1].Begin? || inputs[k - 1].End?)
    ensures BegunLast(inputs, k, gen) <==> inputs[k - 1] == Begin(gen)
  {
    var last := k - 1;
    assert LastChange(inputs, last, k);
    forall j: nat | LastChange(inputs, j, k) ensures j == last {
      assert !(j < last < k);
    }
  }

  lemma {:induction false} ChangeBefore(inputs: seq<Input>, k: nat, gen: Generation)
    requires 0 < k <= |inputs| && !inputs[k - 1].Begin? && !inputs[k - 1].End?
    ensures BegunLast(inputs, k, gen) <==> BegunLast(inputs, k - 1, gen)
  {
    var before := k - 1;
    forall j: nat ensures LastChange(inputs, j, k) <==> LastChange(inputs, j, before) {}
  }

  /** What an input makes of the endpoints and the current one. */
  predicate Turns(s: Session, input: Input, t: Session) {
    if input.Begin? then t.gens == s.gens + [input.gen] && t.current == Some(|s.gens|)
    else t.gens == s.gens && t.current == if input.End? then None else s.current
  }

  lemma {:induction false} StepTurns(s: Session, k: nat, input: Input)
    requires s.Valid()
    ensures Turns(s, input, Step(s, k, input))
  {}

  lemma {:induction false} TurnsChain(states: seq<Session>, inputs: seq<Input>, k: nat, gen: Generation)
    requires k < |states| == |inputs| + 1 && states[0].gens == [] && states[0].current == None
    requires forall m, n :: 0 <= m < |inputs| && n == m + 1 ==> Turns(states[m], inputs[m], states[n])
    ensures var s := states[k];
      && |s.gens| == Begun(inputs, k)
      && (s.current.Some? ==> s.current.value == |s.gens| - 1)
      && (BegunLast(inputs, k, gen) <==> s.current.Some? && |s.gens| > 0 && s.gens[|s.gens| - 1] == gen)
  {
    if k > 0 {
      var m, n := k - 1, k;
      TurnsChain(states, inputs, m, gen);
      assert Turns(states[m], inputs[m], states[n]);
      if inputs[m].Begin? || inputs[m].End? {
        ChangeNow(inputs, k, gen);
      } else {
        ChangeBefore(inputs, k, gen);
      }
    }
  }

  /** The current endpoint is the one begun last, until it is ended, whatever events
      there were in between; there is none exactly if the last change was an end. */
  lemma {:induction false} CurrentIs(inputs: seq<Input>, k: nat, gen: Generation)
    requires k <= |inputs|
    ensures var s := After(inputs, k);
      && |s.gens| == Begun(inputs, k)
      && (s.current.Some? ==> s.current.value == Begun(inputs, k) - 1)
      && (BegunLast(inputs, k, gen) <==> s.current.Some? && s.gens[s.current.value] == gen)
  {
    var states := seq(|inputs| + 1, i requires 0 <= i <= |inputs| => After(inputs, i));
    forall m, n | 0 <= m < |inputs| && n == m + 1 ensures Turns(states[m], inputs[m], states[n]) {
      StepTurns(After(inputs, m), m, inputs[m]);
    }
    TurnsChain(states, inputs, k, gen);
  }

  /** A stream number that is none ends the loop for good: the current endpoint is
      cancelled, and nothing is sent then or later. */
  lemma {:induction false} BadNumberEnds(inputs: seq<Input>, k: nat, j: nat)
    requires k < j <= |inputs| && inputs[k].Event? && !After(inputs, k).stopped
    requires IsStream(Fields(inputs[k].text)) && !IsUint64(Fields(inputs[k].text)[1])
    requires Fields(inputs[k].text)[1] !in After(inputs, k).internal && !NamesInternal(Fields(inputs[k].text))
    ensures After(inputs, j).stopped && After(inputs, j).sent == After(inputs, k).sent
    ensures After(inputs, k).current.Some? ==> After(inputs, k).current.value in After(inputs, j).cancelled
  {
    BadNumberAt(inputs, k);
    StoppedForGood(inputs, k + 1, j);
  }

  lemma {:induction false} BadNumberAt(inputs: seq<Input>, k: nat)
    requires k < |inputs| && inputs[k].Event? && !After(inputs, k).stopped
    requires IsStream(Fields(inputs[k].text)) && !IsUint64(Fields(inputs[k].text)[1])
    requires Fields(inputs[k].text)[1] !in After(inputs, k).internal && !NamesInternal(Fields(inputs[k].text))
    ensures After(inputs, k + 1).stopped && After(inputs, k + 1).sent == After(inputs, k).sent
    ensures After(inputs, k).current.Some? ==> After(inputs, k).current.value in After(inputs, k + 1).cancelled
  {
    InternalMeaning(Fields(inputs[k].text));
    BadNumberStep(After(inputs, k), k, inputs[k]);
  }

  lemma {:induction false} StoppedForGood(inputs: seq<Input>, j: nat, k: nat)
    requires j <= k <= |inputs|
    ensures Stuck(After(inputs, j), After(inputs, k))
  {
    var states := seq(|inputs| + 1, i requires 0 <= i <= |inputs| => After(inputs, i));
    forall m, n | 0 <= m < |inputs| && n == m + 1 ensures Stuck(states[m], states[n]) {
      StoppedStays(After(inputs, m), m, inputs[m]);
    }
    StuckChain(states, j, k);
  }

  /** A loop that has ended sends nothing more. */
  predicate Stuck(s: Session, t: Session) {
    s.stopped ==> t.stopped && t.sent == s.sent && s.cancelled <= t.cancelled
  }

  lemma {:induction false} StuckChain(states: seq<Session>, j: nat, k: nat)
    requires j <= k < |states|
    requires forall m, n :: 0 <= m < |states| - 1 && n == m + 1 ==> Stuck(states[m], states[n])
    ensures Stuck(states[j], states[k])
  {
    if j < k {
      StuckChain(states, j, k - 1);
      assert Stuck(states[k - 1], states[k]);
    }
  }

  lemma {:induction false} BadNumberStep(s: Session, k: nat, input: Input)
    requires s.Valid() && input.Event? && !s.stopped && IsStream(Fields(input.text))
    requires !IsUint64(Fields(input.text)[1]) && !IsInternalStream(Fields(input.text))
    requires Fields(input.text)[1] !in s.internal
    ensures Step(s, k, input).stopped && Step(s, k, input).sent == s.sent
    ensures s.current.Some? ==> s.current.value in Step(s, k, input).cancelled
  {}

  lemma {:induction false} StoppedStays(s: Session, k: nat, input: Input)
    requires s.Valid()
    ensures Stuck(s, Step(s, k, input))
  {}

  // ---- every other client stream is refused --------------------------------

  lemma SentGrows(inputs: seq<Input>, k: nat)
    requires k < |inputs|
    ensures After(inputs, k + 1).sent == After(inputs, k).sent + Tag(k, Drawn(After(inputs, k), inputs[k]))
  {
    StepSends(After(inputs, k), k, inputs[k]);
  }

  /** The commands sent for one input. */
  function NewCommands(inputs: seq<Input>, k: nat): (r: seq<Command>)
    requires k < |inputs|
  {
    SentGrows(inputs, k);
    var new_ := After(inputs, k + 1).sent[|After(inputs, k).sent|..];
    seq(|new_|, i requires 0 <= i < |new_| => new_[i].1)
  }

  lemma NewAreDrawn(inputs: seq<Input>, k: nat)
    requires k < |inputs|
    ensures NewCommands(inputs, k) == Drawn(After(inputs, k), inputs[k])
  {
    SentGrows(inputs, k);
  }

  /** What a client stream event must draw, given whether its stream belongs to
      the circuit of the live current endpoint. */
  ghost predicate Settled(fields: seq<string>, own: Option<string>, attached: bool, news: seq<Command>)
    requires IsStream(fields)
  {
    var close := CloseStream(fields[1]);
    && (fields[2] in {"NEW", "NEWRESOLVE"} && own.None? ==> news == [close])
    && (fields[2] in {"NEW", "NEWRESOLVE"} && own.Some? ==>
          news == [Attach(fields[1], own.value)] + if attached then [] else [close])
    && (fields[2] == "DETACHED" ==> news == [close])
    && (fields[2] !in {"NEW", "NEWRESOLVE", "DETACHED"} ==> news == [])
  }

  lemma AnswerSettles(fields: seq<string>, user: Option<string>, live: Option<Generation>, attached: bool)
    requires IsStream(fields)
    ensures Settled(fields, if live.Some? && user == Some(live.value.token) then Some(live.value.circuit) else None,
                    attached, Answer(fields, user, live, attached))
  {}

  /** A new or detached client stream that does not carry the token of the live
      current endpoint gets CLOSESTREAM and nothing else, and so does one whose
      attachment Tor refuses, after the attempt. */
  lemma OthersRefused(inputs: seq<Input>, k: nat)
    requires k < |inputs| && inputs[k].Event? && ClientEvent(After(inputs, k), inputs[k].text)
    ensures var live, user := Live(After(inputs, k)), FindUser(inputs[k].text);
      Settled(Fields(inputs[k].text),
              if live.Some? && user == Some(live.value.token) then Some(live.value.circuit) else None,
              inputs[k].attached, NewCommands(inputs, k))
  {
    NewAreDrawn(inputs, k);
    AnswerSettles(Fields(inputs[k].text), FindUser(inputs[k].text), Live(After(inputs, k)), inputs[k].attached);
  }

  // ---- internal streams ----------------------------------------------------

  /** Input `i` is an event about stream `id`. */
  predicate About(inputs: seq<Input>, i: nat, id: string)
    requires i < |inputs|
  {
    inputs[i].Event? && var fields := Fields(inputs[i].text); |fields| >= 3 && fields[0] == "STREAM" && fields[1] == id
  }

  predicate Closes(inputs: seq<Input>, i: nat, id: string)
    requires i < |inputs|
  {
    About(inputs, i, id) && Fields(inputs[i].text)[2] == "CLOSED"
  }

  /** Only a CLOSED event about the stream itself ends its internal mark. */
  lemma StepKeepsMark(inputs: seq<Input>, k: nat, id: string)
    requires k < |inputs| && !Closes(inputs, k, id)
    requires id in After(inputs, k).internal
    ensures id in After(inputs, k + 1).internal
  {
    var s := After(inputs, k);
    KeepsMark(s, k, inputs[k], id);
  }

  lemma {:induction false} KeepsMark(s: Session, k: nat, input: Input, id: string)
    requires s.Valid() && id in s.internal
    requires input.Event? ==> !ClosedEvent(Fields(input.text), id)
    ensures id in Step(s, k, input).internal
  {
    if input.Event? && !s.stopped {
      HandleKeepsMark(s, k, input.text, input.attached, input.meanwhile, id);
    }
  }

  /** The event says that stream `id` is closed. */
  predicate ClosedEvent(fields: seq<string>, id: string) {
    IsStream(fields) && fields[1] == id && fields[2] == "CLOSED"
  }

  /** What an event with these fields may do to the internal streams. */
  predicate MayBecome(internal: set<string>, fields: seq<string>, after: set<string>) {
    || after == internal
    || (IsStream(fields) && (after == Marked(internal, fields)
                             || (fields[2] == "CLOSED" && after == Marked(internal, fields) - {fields[1]})))
  }

  lemma {:induction false} HandleMarks(s: Session, k: nat, text: string, attached: bool, meanwhile: set<nat>)
    requires s.Valid()
    ensures MayBecome(s.internal, Fields(text), Handle(s, k, text, attached, meanwhile).internal)
  {
    var fields, t := Fields(text), Handle(s, k, text, attached, meanwhile);
    if !IsStream(fields) {
      assert t.internal == s.internal;
    } else if fields[1] !in Marked(s.internal, fields) {
      assert t.internal == s.internal;
    }
  }

  lemma {:induction false} StaysMarked(internal: set<string>, fields: seq<string>, after: set<string>, id: string)
    requires MayBecome(internal, fields, after) && id in internal && !ClosedEvent(fields, id)
    ensures id in after
  {}

  lemma {:induction false} HandleKeepsMark(
      s: Session, k: nat, text: string, attached: bool, meanwhile: set<nat>, id: string)
    requires s.Valid() && id in s.internal && !ClosedEvent(Fields(text), id)
    ensures id in Handle(s, k, text, attached, meanwhile).internal
  {
    HandleMarks(s, k, text, attached, meanwhile);
    StaysMarked(s.internal, Fields(text), Handle(s, k, text, attached, meanwhile).internal, id);
  }

  lemma {:induction false} MarkingStep(inputs: seq<Input>, k: nat, id: string)
    requires k < |inputs| && About(inputs, k, id) && NamesInternal(Fields(inputs[k].text))
    requires !After(inputs, k).stopped && !Closes(inputs, k, id)
    ensures id in After(inputs, k + 1).internal
  {
    InternalMeaning(Fields(inputs[k].text));
  }

  lemma {:induction false} StaysInternal(inputs: seq<Input>, i: nat, j: nat, id: string)
    requires i < j <= |inputs| && About(inputs, i, id) && NamesInternal(Fields(inputs[i].text))
    requires !After(inputs, i).stopped
    requires forall x :: i <= x < j ==> !Closes(inputs, x, id)
    ensures id in After(inputs, j).internal
  {
    if j == i + 1 {
      MarkingStep(inputs, i, id);
    } else {
      StaysInternal(inputs, i, j - 1, id);
      StepKeepsMark(inputs, j - 1, id);
    }
  }

  /** An event marks a stream only if it names it so, and the CLOSED of an internal
      stream takes its mark away. */
  lemma {:induction false} MarkedOnlyIf(inputs: seq<Input>, k: nat, id: string)
    requires k < |inputs|
    ensures id in After(inputs, k + 1).internal && id !in After(inputs, k).internal ==>
      About(inputs, k, id) && NamesInternal(Fields(inputs[k].text)) && !Closes(inputs, k, id)
    ensures Closes(inputs, k, id) && !After(inputs, k).stopped ==> id !in After(inputs, k + 1).internal
  {
    if inputs[k].Event? && !After(inputs, k).stopped {
      InternalMeaning(Fields(inputs[k].text));
      HandleMarks(After(inputs, k), k, inputs[k].text, inputs[k].attached, inputs[k].meanwhile);
      if Closes(inputs, k, id) {
        ClosedForgets(After(inputs, k), k, inputs[k].text, inputs[k].attached, inputs[k].meanwhile);
      }
    }
  }

  lemma {:induction false} ClosedForgets(s: Session, k: nat, text: string, attached: bool, meanwhile: set<nat>)
    requires s.Valid() && IsStream(Fields(text)) && Fields(text)[2] == "CLOSED"
    ensures Fields(text)[1] !in Handle(s, k, text, attached, meanwhile).internal
  {
    var fields, t := Fields(text), Handle(s, k, text, attached, meanwhile);
    var internal := Marked(s.internal, fields);
    if fields[1] in internal {
      assert t.internal == internal - {fields[1]};
    } else {
      assert t.internal == s.internal && s.internal <= internal;
    }
  }

  lemma {:induction false} Marks(internal: set<string>, fields: seq<string>, id: string)
    requires IsStream(fields) && fields[1] == id && (id in internal || IsInternalStream(fields))
    ensures id in Marked(internal, fields)
  {}

  lemma {:induction false} MarkedDrawsNothing(s: Session, input: Input, id: string)
    requires s.Valid() && input.Event? && IsStream(Fields(input.text)) && Fields(input.text)[1] == id
    requires id in s.internal || IsInternalStream(Fields(input.text))
    ensures Drawn(s, input) == []
  {
    Marks(s.internal, Fields(input.text), id);
  }

  lemma {:induction false} MarkedUntilClosed(inputs: seq<Input>, i: nat, j: nat, id: string)
    requires i <= j < |inputs| && About(inputs, i, id) && NamesInternal(Fields(inputs[i].text))
    requires !After(inputs, i).stopped && inputs[j].Event?
    requires forall x :: i <= x < j ==> !Closes(inputs, x, id)
    ensures id in After(inputs, j).internal || IsInternalStream(Fields(inputs[j].text))
  {
    InternalMeaning(Fields(inputs[i].text));
    if i < j {
      StaysInternal(inputs, i, j, id);
    }
  }

  /** From the event that marks it until its CLOSED, and including that one, an
      internal stream draws no command. */
  lemma {:induction false} InternalLeftAlone(inputs: seq<Input>, i: nat, j: nat, id: string)
    requires i <= j < |inputs| && About(inputs, i, id) && NamesInternal(Fields(inputs[i].text))
    requires !After(inputs, i).stopped
    requires About(inputs, j, id) && forall x :: i <= x < j ==> !Closes(inputs, x, id)
    ensures NewCommands(inputs, j) == []
  {
    MarkedUntilClosed(inputs, i, j, id);
    NewAreDrawn(inputs, j);
    MarkedDrawsNothing(After(inputs, j), inputs[j], id);
  }
}
