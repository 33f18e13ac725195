/** The pool and the control sessions together: a request leaves through the exit
    address that its lease was granted for, because the stream that checked the
    address and the streams of the lease carry the same token
    (internal/app/tor.go, internal/app/pool.go). */
module LeaseCircuits {
  import opened Base
  import opened Store
  import opened PoolState
  import opened ScanLaws
  import opened Protocol
  import opened Invariant
  import opened Runs
  import opened LeaseRecords
  import S = Streams
  import Text

  /** One control session: what its event loop met, and the exit address of every
      circuit that was extended over it. */
  datatype Tor = Tor(history: seq<S.Input>, exits: map<string, IP>)

  function Now(t: Tor): (s: S.Session)
    ensures s.Valid()
  {
    S.After(t.history, |t.history|)
  }

  /** Where an endpoint comes from: a session and a generation of it. */
  datatype Origin = Origin(session: nat, gen: nat)

  /** `line[w]` is the session that worker `w` uses, `origins[e]` the origin of
      endpoint `e`. */
  datatype Joint = Joint(sys: Sys, tors: seq<Tor>, line: seq<nat>, origins: seq<Origin>)

  /** `Extend`: a circuit is built and its endpoint becomes the session's current
      one, with a token drawn at random.  `Check`: the address check over that
      endpoint has its answer; command `m` attached its stream.  `Stream`: whatever
      else a session's loop meets. */
  datatype JStep =
    | InPool(step: Step)
    | Renew(w: nat)
    | Reset(unique: bool, n: nat)
    | Extend(w: nat, gen: S.Generation, exit: IP)
    | Check(w: nat, m: nat)
    | Stream(session: nat, input: S.Input)

  /** The token of generation `g` of session `s`. */
  function TokenOf(j: Joint, s: nat, g: nat): string
    requires s < |j.tors| && g < |Now(j.tors[s]).gens|
  {
    Now(j.tors[s]).gens[g].token
  }

  /** Command `m` of a session attaches a stream that carries the token. */
  predicate Attaches(t: Tor, m: nat, token: string) {
    && m < |Now(t).sent| && Now(t).sent[m].1.Attach?
    && Now(t).sent[m].0 < |t.history| && t.history[Now(t).sent[m].0].Event?
    && Text.FindUser(t.history[Now(t).sent[m].0].text) == Some(token)
  }

  /** The circuit that this stream is attached to. */
  function Circuit(t: Tor, m: nat): string
    requires m < |Now(t).sent| && Now(t).sent[m].1.Attach?
  {
    Now(t).sent[m].1.circuit
  }

  /** The address check of worker `w` has its answer over command `m`. */
  predicate Checked(j: Joint, w: nat, m: nat) {
    && w < |j.line| && j.line[w] < |j.tors|
    && var t := j.tors[j.line[w]];
       && Now(t).current.Some?
       && Attaches(t, m, Now(t).gens[Now(t).current.value].token) && Circuit(t, m) in t.exits
       && Origin(j.line[w], Now(t).current.value) !in j.origins
  }

  /** The address it found: that of the circuit the stream went through. */
  function Answer(j: Joint, w: nat, m: nat): IP
    requires Checked(j, w, m)
  {
    j.tors[j.line[w]].exits[Circuit(j.tors[j.line[w]], m)]
  }

  /** The steps of the protocol that are steps here as they are. */
  predicate Plain(step: Step) {
    match step
    case ByWorker(_, ws) => !ws.Build?
    case ByWorld(es) => !es.NewSession? && !es.Restart?
    case _ => true
  }

  ghost predicate JEnabled(j: Joint, step: JStep) {
    && j.sys.WF()
    && match step
       case InPool(ps) => Plain(ps) && Enabled(j.sys, ps)
       case Renew(w) => w < |j.line| && WorldEnabled(j.sys, NewSession(w))
       case Reset(_, n) => n > 0
       case Extend(w, gen, _) =>
         && w < |j.line| && w < |j.sys.workers| && j.sys.workers[w].pc.Idle? && j.line[w] < |j.tors|
         && gen.circuit !in j.tors[j.line[w]].exits
         && forall s, g :: 0 <= s < |j.tors| && 0 <= g < |Now(j.tors[s]).gens| ==> TokenOf(j, s, g) != gen.token
       case Check(w, m) => Checked(j, w, m) && WorkerEnabled(j.sys, w, Build(Answer(j, w, m)))
       case Stream(s, input) => s < |j.tors| && !input.Begin?
  }

  const EMPTY := Tor([], map[])

  function Met(t: Tor, input: S.Input): Tor { t.(history := t.history + [input]) }

  function JApply(j: Joint, step: JStep): Joint
    requires JEnabled(j, step)
  {
    match step
    case InPool(ps) => j.(sys := Apply(j.sys, ps))
    case Renew(w) =>
      j.(sys := ApplyWorld(j.sys, NewSession(w)), tors := j.tors + [EMPTY], line := j.line[w := |j.tors|])
    case Reset(unique, n) => Started(Fresh(unique, n, j.sys.pool.rows, j.sys.grants))
    case Extend(w, gen, exit) =>
      var t := j.tors[j.line[w]];
      j.(tors := j.tors[j.line[w] := Met(t, S.Begin(gen)).(exits := t.exits[gen.circuit := exit])])
    case Check(w, m) =>
      var t := j.tors[j.line[w]];
      j.(sys := ApplyWorker(j.sys, w, Build(Answer(j, w, m))),
         origins := j.origins + [Origin(j.line[w], Now(t).current.value)])
    case Stream(s, input) => j.(tors := j.tors[s := Met(j.tors[s], input)])
  }

  /** A process that has just started: one session for each worker. */
  function Started(s: Sys): Joint {
    Joint(s, seq(|s.workers|, _ => EMPTY), seq(|s.workers|, w => w), [])
  }

  ghost predicate JInit(j: Joint) {
    Init(j.sys) && j == Started(j.sys)
  }

  ghost predicate Leads(j: Joint, steps: seq<JStep>, k: Joint)
    decreases |steps|
  {
    if steps == [] then j == k else JEnabled(j, steps[0]) && Leads(JApply(j, steps[0]), steps[1..], k)
  }

  // ---- the invariant -------------------------------------------------------

  /** Every generation has a circuit whose exit is known. */
  ghost predicate TorOk(t: Tor) {
    forall g :: 0 <= g < |Now(t).gens| ==> Now(t).gens[g].circuit in t.exits
  }

  ghost predicate TokensApart(j: Joint) {
    forall s, g, r, h :: 0 <= s < |j.tors| && 0 <= g < |Now(j.tors[s]).gens|
                         && 0 <= r < |j.tors| && 0 <= h < |Now(j.tors[r]).gens| && (s, g) != (r, h) ==>
      TokenOf(j, s, g) != TokenOf(j, r, h)
  }

  ghost predicate ValidOrigin(j: Joint, o: Origin) {
    o.session < |j.tors| && o.gen < |Now(j.tors[o.session]).gens|
  }

  /** The address of endpoint `e` is the exit of its circuit. */
  ghost predicate OriginOk(j: Joint, e: nat) {
    && e < |j.origins| && e < |j.sys.pool.eps| && ValidOrigin(j, j.origins[e])
    && var t := j.tors[j.origins[e].session];
       var circuit := Now(t).gens[j.origins[e].gen].circuit;
       circuit in t.exits && t.exits[circuit] == j.sys.pool.eps[e].ip
  }

  /** The part of it that is about sessions. */
  ghost predicate SessionsOk(j: Joint) {
    && (forall w :: 0 <= w < |j.line| ==> j.line[w] < |j.tors|)
    && (forall s :: 0 <= s < |j.tors| ==> TorOk(j.tors[s]))
    && TokensApart(j)
  }

  ghost predicate JInv(j: Joint) {
    && Inv(j.sys) && Records(j.sys)
    && |j.origins| == |j.sys.pool.eps|
    && SessionsOk(j)
    && forall e :: 0 <= e < |j.origins| ==> OriginOk(j, e)
  }

  // ---- one more input ------------------------------------------------------

  lemma {:induction false} AfterPrefix(h: seq<S.Input>, x: S.Input, k: nat)
    requires k <= |h|
    ensures S.After(h + [x], k) == S.After(h, k)
  {
    if k > 0 {
      AfterPrefix(h, x, k - 1);
    }
  }

  lemma {:induction false} MetSteps(t: Tor, input: S.Input)
    ensures Now(Met(t, input)) == S.Step(Now(t), |t.history|, input)
  {
    AfterPrefix(t.history, input, |t.history|);
  }

  lemma {:induction false} StreamKeepsGens(t: Tor, input: S.Input)
    requires !input.Begin?
    ensures Now(Met(t, input)).gens == Now(t).gens
  {
    MetSteps(t, input);
  }

  lemma {:induction false} ExtendAddsGen(t: Tor, gen: S.Generation)
    ensures Now(Met(t, S.Begin(gen))).gens == Now(t).gens + [gen]
  {
    MetSteps(t, S.Begin(gen));
  }

  // ---- pinning in one session ----------------------------------------------

  /** A stream with the token of generation `g` goes through that generation's
      circuit. */
  lemma {:induction false} OwnCircuit(j: Joint, s: nat, m: nat, g: nat)
    requires TokensApart(j) && s < |j.tors| && g < |Now(j.tors[s]).gens|
    requires Attaches(j.tors[s], m, TokenOf(j, s, g))
    ensures Circuit(j.tors[s], m) == Now(j.tors[s]).gens[g].circuit
  {
    var t := j.tors[s];
    var gens := Now(t).gens;
    forall a, b | 0 <= a < b < |gens| ensures gens[a].token != gens[b].token {
      assert TokenOf(j, s, a) != TokenOf(j, s, b);
    }
    S.NeverAnotherGeneration(t.history, |t.history|, m, Now(t).sent[m].0, g);
  }

  /** A stream that is attached carries the token of a generation of its session. */
  lemma {:induction false} SomeGeneration(t: Tor, m: nat, token: string) returns (g: nat)
    requires Attaches(t, m, token)
    ensures g < |Now(t).gens| && Now(t).gens[g].token == token
  {
    S.AttachedToOwnCircuit(t.history, |t.history|, m);
    var k := Now(t).sent[m].0;
    S.GensGrow(t.history, k, |t.history|);
    g := S.After(t.history, k).current.value;
  }

  // ---- every step keeps the invariant --------------------------------------

  lemma {:induction false} WorkerEps(s: Sys, w: nat, step: WorkerStep, e: nat)
    requires s.WF() && WorkerEnabled(s, w, step) && !step.Build? && e < |s.pool.eps|
    ensures var t := ApplyWorker(s, w, step); |t.pool.eps| == |s.pool.eps| && t.pool.eps[e].ip == s.pool.eps[e].ip
  {}

  lemma {:induction false} LeaseEps(s: Sys, l: nat, step: LeaseStep, e: nat)
    requires s.WF() && LeaseEnabled(s, l, step) && e < |s.pool.eps|
    ensures var t := ApplyLease(s, l, step); |t.pool.eps| == |s.pool.eps| && t.pool.eps[e].ip == s.pool.eps[e].ip
  {
    if step.Finish? {
      FinishLeaves(s, l, step.err, e);
    }
  }

  lemma {:induction false} CallEps(s: Sys, c: nat, step: CallStep, e: nat)
    requires s.WF() && CallEnabled(s, c, step) && e < |s.pool.eps|
    ensures var t := ApplyCall(s, c, step); |t.pool.eps| == |s.pool.eps| && t.pool.eps[e].ip == s.pool.eps[e].ip
  {
    if step.ScanSlots? {
      ScanHasEffect(s.pool, step.faults);
      SameAddress(s.pool, Scan(s.pool, step.faults).0, Scan(s.pool, step.faults).1, e);
    }
  }

  lemma {:induction false} PlainEps(s: Sys, step: Step, e: nat)
    requires s.WF() && Enabled(s, step) && Plain(step) && e < |s.pool.eps|
    ensures var t := Apply(s, step); |t.pool.eps| == |s.pool.eps| && t.pool.eps[e].ip == s.pool.eps[e].ip
  {
    match step {
      case ByWorker(w, ws) => WorkerEps(s, w, ws, e);
      case ByWorld(es) =>
      case ByCall(c, cs) => CallEps(s, c, cs, e);
      case ByLease(l, ls) => LeaseEps(s, l, ls, e);
    }
  }

  lemma {:induction false} NoEps(s: Sys, step: Step)
    requires s.WF() && Enabled(s, step) && Plain(step)
    ensures |Apply(s, step).pool.eps| == |s.pool.eps|
  {
    if s.pool.eps != [] {
      PlainEps(s, step, 0);
    }
  }

  /** Sessions only learn. */
  ghost predicate Learns(t: Tor, u: Tor) {
    Now(t).gens <= Now(u).gens && forall c :: c in t.exits ==> c in u.exits && u.exits[c] == t.exits[c]
  }

  lemma {:induction false} OriginStays(j: Joint, k: Joint, e: nat)
    requires OriginOk(j, e) && e < |k.origins| && k.origins[e] == j.origins[e] && |j.tors| <= |k.tors|
    requires Learns(j.tors[j.origins[e].session], k.tors[j.origins[e].session])
    requires e < |k.sys.pool.eps| && k.sys.pool.eps[e].ip == j.sys.pool.eps[e].ip
    ensures OriginOk(k, e)
  {}

  /** What is beneath keeps its own invariants, and the addresses of endpoints. */
  ghost predicate Beneath(s: Sys, t: Sys) {
    && Inv(t) && Records(t) && |s.pool.eps| <= |t.pool.eps|
    && forall e {:trigger t.pool.eps[e]} :: 0 <= e < |s.pool.eps| ==> t.pool.eps[e].ip == s.pool.eps[e].ip
  }

  lemma {:induction false} PlainBeneath(s: Sys, step: Step)
    requires Inv(s) && Records(s) && Enabled(s, step) && Plain(step)
    ensures Beneath(s, Apply(s, step)) && |Apply(s, step).pool.eps| == |s.pool.eps|
  {
    var t := Apply(s, step);
    StepKeeps(s, step);
    StepKeepsRecords(s, step, t);
    NoEps(s, step);
    forall e | 0 <= e < |s.pool.eps| ensures t.pool.eps[e].ip == s.pool.eps[e].ip {
      PlainEps(s, step, e);
    }
  }

  lemma {:induction false} SessionBeneath(s: Sys, w: nat)
    requires Inv(s) && Records(s) && WorldEnabled(s, NewSession(w))
    ensures var t := ApplyWorld(s, NewSession(w)); Beneath(s, t) && |t.pool.eps| == |s.pool.eps|
  {
    StepKeeps(s, ByWorld(NewSession(w)));
    StepKeepsRecords(s, ByWorld(NewSession(w)), ApplyWorld(s, NewSession(w)));
  }

  lemma {:induction false} BuildBeneath(s: Sys, w: nat, ip: IP)
    requires Inv(s) && Records(s) && WorkerEnabled(s, w, Build(ip))
    ensures var t := ApplyWorker(s, w, Build(ip));
      Beneath(s, t) && |t.pool.eps| == |s.pool.eps| + 1 && t.pool.eps[|s.pool.eps|].ip == ip
  {
    StepKeeps(s, ByWorker(w, Build(ip)));
    StepKeepsRecords(s, ByWorker(w, Build(ip)), ApplyWorker(s, w, Build(ip)));
  }

  /** A step that may change everything but the origins there were. */
  lemma {:induction false} OriginsStay(j: Joint, k: Joint)
    requires JInv(j) && Beneath(j.sys, k.sys) && SessionsOk(k) && |j.tors| <= |k.tors|
    requires forall s :: 0 <= s < |j.tors| ==> Learns(j.tors[s], k.tors[s])
    requires |k.origins| == |k.sys.pool.eps| && j.origins <= k.origins
    requires forall e :: |j.origins| <= e < |k.origins| ==> OriginOk(k, e)
    ensures JInv(k)
  {
    forall e | 0 <= e < |k.origins| ensures OriginOk(k, e) {
      if e < |j.origins| {
        assert OriginOk(j, e);
        OriginStays(j, k, e);
      }
    }
  }

  lemma {:induction false} SameSessions(j: Joint, k: Joint)
    requires SessionsOk(j) && k.tors == j.tors && k.line == j.line
    ensures SessionsOk(k) && forall s :: 0 <= s < |j.tors| ==> Learns(j.tors[s], k.tors[s])
  {
    assert forall s, g :: 0 <= s < |j.tors| && 0 <= g < |Now(j.tors[s]).gens| ==> TokenOf(k, s, g) == TokenOf(j, s, g);
  }

  lemma {:induction false} PoolKeeps(j: Joint, step: Step)
    requires JInv(j) && JEnabled(j, InPool(step))
    ensures JInv(JApply(j, InPool(step)))
  {
    PlainBeneath(j.sys, step);
    Moved(j, Apply(j.sys, step));
  }

  lemma {:induction false} Moved(j: Joint, t: Sys)
    requires JInv(j) && Beneath(j.sys, t) && |t.pool.eps| == |j.sys.pool.eps|
    ensures JInv(j.(sys := t))
  {
    var k := j.(sys := t);
    SameSessions(j, k);
    OriginsStay(j, k);
  }

  /** A step that changes nothing but sessions. */
  lemma {:induction false} LearnedKeeps(j: Joint, k: Joint)
    requires JInv(j) && k.sys == j.sys && k.origins == j.origins && SessionsOk(k) && |j.tors| <= |k.tors|
    requires forall s :: 0 <= s < |j.tors| ==> Learns(j.tors[s], k.tors[s])
    ensures JInv(k)
  {
    OriginsStay(j, k);
  }

  lemma {:induction false} StreamKeeps(j: Joint, s: nat, input: S.Input)
    requires JInv(j) && JEnabled(j, Stream(s, input))
    ensures JInv(JApply(j, Stream(s, input)))
  {
    var k := j.(tors := j.tors[s := Met(j.tors[s], input)]);
    StreamKeepsGens(j.tors[s], input);
    StreamSessions(j, k, s);
    LearnedKeeps(j, k);
  }

  lemma {:induction false} StreamSessions(j: Joint, k: Joint, s: nat)
    requires SessionsOk(j) && k.line == j.line && s < |j.tors| == |k.tors| && k.tors == j.tors[s := k.tors[s]]
    requires Now(k.tors[s]).gens == Now(j.tors[s]).gens && k.tors[s].exits == j.tors[s].exits
    ensures SessionsOk(k) && forall r :: 0 <= r < |j.tors| ==> Learns(j.tors[r], k.tors[r])
  {
    forall r | 0 <= r < |k.tors|
      ensures Now(k.tors[r]).gens == Now(j.tors[r]).gens && TorOk(k.tors[r]) && Learns(j.tors[r], k.tors[r])
    {
      assert TorOk(j.tors[r]);
    }
    SameTokens(j, k);
  }

  lemma {:induction false} SameTokens(j: Joint, k: Joint)
    requires TokensApart(j) && |j.tors| <= |k.tors|
    requires forall r :: 0 <= r < |j.tors| ==> Now(k.tors[r]).gens == Now(j.tors[r]).gens
    requires forall r :: |j.tors| <= r < |k.tors| ==> Now(k.tors[r]).gens == []
    ensures TokensApart(k)
  {
    forall s, g, r, h | 0 <= s < |k.tors| && 0 <= g < |Now(k.tors[s]).gens|
                        && 0 <= r < |k.tors| && 0 <= h < |Now(k.tors[r]).gens| && (s, g) != (r, h)
      ensures TokenOf(k, s, g) != TokenOf(k, r, h)
    {
      assert TokenOf(j, s, g) != TokenOf(j, r, h);
    }
  }

  lemma {:induction false} NewToken(j: Joint, k: Joint, s: nat, gen: S.Generation)
    requires TokensApart(j) && s < |j.tors| == |k.tors|
    requires forall r :: 0 <= r < |j.tors| && r != s ==> Now(k.tors[r]).gens == Now(j.tors[r]).gens
    requires Now(k.tors[s]).gens == Now(j.tors[s]).gens + [gen]
    requires forall r, g :: 0 <= r < |j.tors| && 0 <= g < |Now(j.tors[r]).gens| ==> TokenOf(j, r, g) != gen.token
    ensures TokensApart(k)
  {
    forall a, g, b, h | 0 <= a < |k.tors| && 0 <= g < |Now(k.tors[a]).gens|
                        && 0 <= b < |k.tors| && 0 <= h < |Now(k.tors[b]).gens| && (a, g) != (b, h)
      ensures TokenOf(k, a, g) != TokenOf(k, b, h)
    {
      var old1, old2 := g < |Now(j.tors[a]).gens|, h < |Now(j.tors[b]).gens|;
      if old1 && old2 {
        assert TokenOf(j, a, g) != TokenOf(j, b, h);
      } else if old1 {
        assert TokenOf(j, a, g) != gen.token;
      } else if old2 {
        assert TokenOf(j, b, h) != gen.token;
      }
    }
  }

  lemma {:induction false} ExtendKeeps(j: Joint, w: nat, gen: S.Generation, exit: IP)
    requires JInv(j) && JEnabled(j, Extend(w, gen, exit))
    ensures JInv(JApply(j, Extend(w, gen, exit)))
  {
    var k, s := JApply(j, Extend(w, gen, exit)), j.line[w];
    ExtendAddsGen(j.tors[s], gen);
    assert Now(k.tors[s]) == Now(Met(j.tors[s], S.Begin(gen)));
    ExtendSessions(j, k, s, gen, exit);
    LearnedKeeps(j, k);
  }

  lemma {:induction false} ExtendSessions(j: Joint, k: Joint, s: nat, gen: S.Generation, exit: IP)
    requires SessionsOk(j) && k.line == j.line && s < |j.tors| == |k.tors| && k.tors == j.tors[s := k.tors[s]]
    requires Now(k.tors[s]).gens == Now(j.tors[s]).gens + [gen]
    requires gen.circuit !in j.tors[s].exits && k.tors[s].exits == j.tors[s].exits[gen.circuit := exit]
    requires forall r, g :: 0 <= r < |j.tors| && 0 <= g < |Now(j.tors[r]).gens| ==> TokenOf(j, r, g) != gen.token
    ensures SessionsOk(k) && forall r :: 0 <= r < |j.tors| ==> Learns(j.tors[r], k.tors[r])
  {
    NewToken(j, k, s, gen);
    forall r | 0 <= r < |k.tors| ensures TorOk(k.tors[r]) && Learns(j.tors[r], k.tors[r]) {
      assert TorOk(j.tors[r]);
    }
  }

  lemma {:induction false} RenewKeeps(j: Joint, w: nat)
    requires JInv(j) && JEnabled(j, Renew(w))
    ensures JInv(JApply(j, Renew(w)))
  {
    SessionBeneath(j.sys, w);
    Renewed(j, ApplyWorld(j.sys, NewSession(w)), w);
  }

  lemma {:induction false} Renewed(j: Joint, t: Sys, w: nat)
    requires JInv(j) && Beneath(j.sys, t) && |t.pool.eps| == |j.sys.pool.eps| && w < |j.line|
    ensures JInv(Joint(t, j.tors + [EMPTY], j.line[w := |j.tors|], j.origins))
  {
    var k := Joint(t, j.tors + [EMPTY], j.line[w := |j.tors|], j.origins);
    assert Now(EMPTY).gens == [];
    SameTokens(j, k);
    forall r | 0 <= r < |k.tors| ensures TorOk(k.tors[r]) {
      assert r < |j.tors| ==> TorOk(j.tors[r]);
    }
    OriginsStay(j, k);
  }

  /** The address that the check found is the exit of the endpoint's circuit. */
  lemma {:induction false} CheckKeeps(j: Joint, w: nat, m: nat)
    requires JInv(j) && JEnabled(j, Check(w, m))
    ensures JInv(JApply(j, Check(w, m)))
  {
    BuildBeneath(j.sys, w, Answer(j, w, m));
    OwnCircuit(j, j.line[w], m, Now(j.tors[j.line[w]]).current.value);
    Added(j, ApplyWorker(j.sys, w, Build(Answer(j, w, m))), Origin(j.line[w], Now(j.tors[j.line[w]]).current.value));
  }

  lemma {:induction false} Added(j: Joint, t: Sys, o: Origin)
    requires JInv(j) && Beneath(j.sys, t) && |t.pool.eps| == |j.sys.pool.eps| + 1 && ValidOrigin(j, o)
    requires var circuit, exits := Now(j.tors[o.session]).gens[o.gen].circuit, j.tors[o.session].exits;
      circuit in exits && exits[circuit] == t.pool.eps[|j.sys.pool.eps|].ip
    ensures JInv(j.(sys := t, origins := j.origins + [o]))
  {
    var k := j.(sys := t, origins := j.origins + [o]);
    SameSessions(j, k);
    assert OriginOk(k, |j.origins|);
    OriginsStay(j, k);
  }

  lemma {:induction false} StartedOk(s: Sys)
    requires Inv(s) && Records(s) && s.pool.eps == []
    ensures JInv(Started(s))
  {
    assert Now(EMPTY).gens == [];
  }

  lemma {:induction false} ResetKeeps(j: Joint, unique: bool, n: nat)
    requires JInv(j) && JEnabled(j, Reset(unique, n))
    ensures JInv(JApply(j, Reset(unique, n)))
  {
    var step := ByWorld(Restart(unique, n));
    StepKeeps(j.sys, step);
    StepKeepsRecords(j.sys, step, Apply(j.sys, step));
    StartedOk(Apply(j.sys, step));
  }

  lemma {:induction false} JStepKeeps(j: Joint, step: JStep)
    requires JInv(j) && JEnabled(j, step)
    ensures JInv(JApply(j, step))
  {
    match step {
      case InPool(ps) => PoolKeeps(j, ps);
      case Renew(w) => RenewKeeps(j, w);
      case Reset(unique, n) => ResetKeeps(j, unique, n);
      case Extend(w, gen, exit) => ExtendKeeps(j, w, gen, exit);
      case Check(w, m) => CheckKeeps(j, w, m);
      case Stream(s, input) => StreamKeeps(j, s, input);
    }
  }

  lemma {:induction false} KeptAlong(j: Joint, steps: seq<JStep>, k: Joint)
    requires JInv(j) && Leads(j, steps, k)
    ensures JInv(k)
    decreases |steps|
  {
    if steps != [] {
      JStepKeeps(j, steps[0]);
      KeptAlong(JApply(j, steps[0]), steps[1..], k);
    }
  }

  lemma {:induction false} Reached(j: Joint, steps: seq<JStep>, k: Joint)
    requires JInit(j) && Leads(j, steps, k)
    ensures JInv(k)
  {
    InitKeeps(j.sys);
    StartedOk(j.sys);
    KeptAlong(j, steps, k);
  }

  // ---- what follows --------------------------------------------------------

  /** Command `m` of a session attaches its stream to the circuit of origin `o`,
      whose exit address is `ip`. */
  ghost predicate GoesOut(k: Joint, session: nat, m: nat, o: Origin, ip: IP)
    requires session < |k.tors| && m < |Now(k.tors[session]).sent| && Now(k.tors[session]).sent[m].1.Attach?
    requires ValidOrigin(k, o)
  {
    var t := k.tors[session];
    session == o.session && Circuit(t, m) == Now(t).gens[o.gen].circuit && Circuit(t, m) in t.exits
    && t.exits[Circuit(t, m)] == ip
  }

  lemma {:induction false} OutThrough(k: Joint, e: nat, session: nat, m: nat)
    requires TokensApart(k) && OriginOk(k, e) && session < |k.tors|
    requires Attaches(k.tors[session], m, TokenOf(k, k.origins[e].session, k.origins[e].gen))
    ensures GoesOut(k, session, m, k.origins[e], k.sys.pool.eps[e].ip)
  {
    var o := k.origins[e];
    var g := SomeGeneration(k.tors[session], m, TokenOf(k, o.session, o.gen));
    assert TokenOf(k, session, g) == TokenOf(k, o.session, o.gen);
    OwnCircuit(k, session, m, g);
  }

  /** Over every interleaving: a stream that carries the token of a lease's
      endpoint, in whatever session and however late, is attached to nothing but
      that endpoint's circuit, and so leaves through the address that was granted. */
  lemma {:induction false} LeavesThroughGrantedAddress(j: Joint, steps: seq<JStep>, k: Joint, l: nat)
    requires JInit(j) && Leads(j, steps, k) && k.sys.WF() && l < |k.sys.leases|
    ensures |k.sys.leases| <= |k.sys.grants| && |k.origins| == |k.sys.pool.eps|
    ensures var o := k.origins[k.sys.leases[l].ep];
      && ValidOrigin(k, o)
      && forall session: nat, m: nat ::
           session < |k.tors| && Attaches(k.tors[session], m, TokenOf(k, o.session, o.gen)) ==>
             GoesOut(k, session, m, o, GrantOf(k.sys, l).ip)
  {
    var e := k.sys.leases[l].ep;
    Reached(j, steps, k);
    assert OriginOk(k, e);
    assert GrantOf(k.sys, l).ip == k.sys.pool.eps[e].ip;
    forall session: nat, m: nat |
      session < |k.tors| && Attaches(k.tors[session], m, TokenOf(k, k.origins[e].session, k.origins[e].gen))
      ensures GoesOut(k, session, m, k.origins[e], GrantOf(k.sys, l).ip)
    {
      OutThrough(k, e, session, m);
    }
  }
}
