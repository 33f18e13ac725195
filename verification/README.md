# TorRotatingHttpProxy: a verified model

TorRotatingHttpProxy leases verified Tor exit addresses to HTTP and CONNECT requests. In unique mode
(`UNIQUE_IP=true`) an address is leased once, ever; in reuse mode a verified circuit serves until a lease
on it fails. This project models the machinery behind that promise and proves what it keeps over every run.

Check it with `dafny verify dfyconfig.toml` (Dafny 4.11).

## What is modelled

**The lease protocol** (`internal/app/pool.go`, `store.go`, the worker functions of `tor.go`).

- `Store` holds the durable table: one row per address with a used flag. `Observe` and `Consume` are atomic
  and may also fail before or after their effect is committed (`Fault`).
- `PoolState` gives the meaning of every critical section under the pool lock as a function on a value.
  `LeasePool` is the pool itself: slot array, reservation map, cursor, counters and endpoint objects updated
  in place. Each method is proved to do what its function says. `EventLog` is the bounded event list.
- `Protocol` is the transition system above them: any number of `Acquire` calls, leases and `Finish` calls
  interleave with one worker per instance, one critical section or channel operation at a time. Circuits
  and control sessions end at any moment, the application may end, and the process may be restarted with
  the table kept and the mode switched. Every worker has a program counter, so the discipline the pool
  relies on (one publish per endpoint, a withdraw on every way out) is proved, not presupposed.
- `PoolLaws` and `ScanLaws` say, without the functions' own words, what each critical section answers and which
  fields it changes.
- `Invariant`, `WorkerSteps` and `OtherSteps` prove that every step keeps the invariant; `Runs`, `Endpoints`,
  `Fairness` and `LeaseRecords` state what follows for whole runs, `Acquire` what becomes of a call, `Cycles` how
  a worker's cycle ends and when it has to wait, `Endings` that what has ended stays ended. `Rotation` is the
  round-robin argument by itself; `ScanLaws` describes a scan without its loop; `TwoLeases` is one run, step
  by step, and `SecondLease` says from which states such a run is possible.
- `Handlers` puts request handlers on top: each asks for a lease, uses it, finishes it and may try again,
  interleaved with everything else. `LeaseCircuits` puts the control sessions beside it: endpoints come from
  circuits that a session extended, and the address check and every request of a lease are streams with the
  endpoint's token.

**The Tor control channel** (`control.go`, the event loop of `tor.go`). `Control` is the line reader with
its demultiplexing, data blocks and bounds; `ControlLaws` prints transcripts and proves the round trip.
`Wire` is the scanner that cuts characters into lines, and `WireLaws` says what comes out of a stream that
ends anywhere.
`Commands` is the serialised request/reply exchange with timeouts and the two halves of `Close`, and
`CommandLaws` says whose reply a command returns. `Streams` and `Text` are the loop that attaches or refuses streams.

**Failover** (`proxy.go`). `Failover` has the two handler loops; what the connection, the round trip and the
hijack do is given from outside, and an attempt may end by a panic.

**The load tester** (`loadtest.go`). `RateRing` is the ten-bucket ring against the unbounded list of
completions, `LoadTest` the counters as a class, `LoadRuns` the interleaving of API calls, run goroutines
and request goroutines over any number of runs.

**The supervisor** (`superviseTor` in `tor.go`). `Supervisor` has the loop with its used-address streak
and backoff.

Instances are numbered from 0 (the code's id minus 1) and endpoints in order of creation. The wake-up
channel `notify` is a number that changes whenever the channel is closed and remade. A cancellation happens
as a step of its own, before or after a scan.

## What was found

- **A reply can reach the wrong command.** `control.Close` first closes `done` and then the connection
  (control.go:43). A caller that returns because `done` is closed frees the token; the next caller may find
  the token free and the connection still open, write its command, and take the reply that belonged to the
  first one. `CloseWindow` is such a run. `OwnIffAlone` says exactly when a command is safe: if and only if,
  when it is written, no earlier reply lies in the channel and none is on its way to a reader that still
  reads. `OpenMeansAlone` shows that an open `done` channel is enough.
- **A strange status leaves a lease unfinished.** `net/http` reads a response with a status from 000 to 099
  but panics when the proxy writes such a status (proxy.go:244), so `lease.Finish` (proxy.go:150) is skipped.
  `StrangeStatus` is the failing request; `FinishedIff` says that a handler finishes all its leases if and
  only if it met no such status. `PanicPins` and `CrashedForGood` say what the lease then does for as long as
  the process lives: unless its circuit, session or the application ends, its worker stays where it is and
  cannot leave the drain by its loop condition, and in unique mode its instance serves nobody.
- **An instance can have two requests in unique mode.** README.md:145 of the repository promises one. When a
  circuit ends under a lease the instance is published again while the lease is outstanding
  (`TwoOnOneInstance`). `OneLeaseIff` says exactly when: as long as the application lives, an instance can get a
  second outstanding lease without any further circuit ending under a lease if and only if some outstanding
  lease's circuit has already ended.
- **A lost control connection can deliver a damaged line.** At the end of the stream `bufio.Scanner` also hands
  over a last line that was cut off (control.go:35-37, 86-87), and the reader takes it for a whole one. If the
  connection is lost inside `250 EXTENDED 123`, the reply that comes out may be `EXTENDED 12` (`LostDigit`); an
  event can be cut short likewise, and a stuffed line of a 650 data block can be cut to the terminator.
  `CutAnywhere` bounds the damage to one item, and `HarmlessIff` gives the exact condition: harm is done if and
  only if what was cut off, not complete up to its line end, is at least four characters of an event or of the
  last line of a reply, or the dot that begins a stuffed line of a 650 data block, and the scanner got that far.
- **A long line ends the connection.** A reply or a data block may have 4 MiB (control.go:112, 137), but the scanner
  gives up at a line of 1 MiB (control.go:37), and nothing from that line on is delivered. `WholeStreamIff` says
  that a complete stream is read back if and only if it has no such line.
- **Serving failures do not rebuild an instance.** README.md:148 of the repository says that three
  consecutive serving failures trigger a rebuild, `cycle` returns `errServeFailures` and
  `needsFreshRestart` accepts it, but `superviseTor` never returns it: it is retried like any other error (tor.go:298-300).
  `ServeFailuresRetried` is the concrete case, `ServeFailuresAreOrdinary` and `GoesOnIff` the general one.
  The decision itself is exact inside the worker (`RebuildDecision`, `CycleResultExact`).
- **Dots.** Section 4.5.2 of RFC 5321 removes any leading dot that is followed by something; the code
  removes one only if two are there. The two differ exactly on lines that start with a single dot and go
  on, which a conforming sender never emits (`DotRule`).
- **The rate ring and the clock.** The ring uses the wall clock. If it steps back, a completion inside the
  window can be overwritten and go missing (`ClockStepsBack`); `RingAgreesIff` says when it agrees.

## Model

| member | source | states |
|---|---|---|
| `Runs.NeverReassigned` | internal/app/pool.go:226-274 | in every run, across restarts, mode switches, cancellations and store errors that hide a commit, an address granted in unique mode has no earlier grant in either mode |
| `Runs.NothingForgotten` | internal/app/store.go:51-77 | over any stretch of a run the grant history only grows and no used flag falls |
| `Runs.GrantCommits` | internal/app/pool.go:237-271 | the history grows only by a scan's grant; in unique mode the flag was down before that step and is up after it |
| `Runs.RunningAddressStaysOut` | internal/app/pool.go:149-158 | in unique mode no endpoint with the address of any lease of this process, running or done, can be published |
| `Runs.ReservationBijection` | internal/app/pool.go:156-162 | in unique mode `reserved[ip]` is an endpoint exactly when that endpoint has the address and sits in its own slot |
| `Runs.DistinctAddresses` | internal/app/pool.go:142-167 | occupied slots hold pairwise distinct addresses in unique mode |
| `Runs.AcquireSucceedsIffReady` | internal/app/pool.go:367-376 | with a working store a scan grants exactly when some live slot's address may still be assigned; so when `Ready()` holds it fails only if the address of every live slot was consumed by a commit that an error hid, in unique mode |
| `Runs.NoTaintWithoutAmbiguity` | internal/app/store.go:64-77 | the exception in that statement arises only from a Consume that committed and reported an error |
| `Runs.NoLostWakeup` | internal/app/pool.go:136-140 | a call that waits while some slot is live has had its captured channel closed, so it can go on at once |
| `Runs.PublishWakesAll` | internal/app/pool.go:163-165 | after a successful publish every call that was waiting can go on |
| `Runs.NoReadyIsHonest` | internal/app/pool.go:178-216 | a call returns ErrNoReady only after a scan of its own that left no slot live, and it never leaves that path |
| `PoolLaws.PublishAnswers` | internal/app/pool.go:144-167 | the exact condition of each answer of publish: published if and only if the store worked, the circuit is alive and, in unique mode, the address is neither used nor reserved; a used address is refused in unique mode only |
| `PoolLaws.PublishEffect` | internal/app/pool.go:144-167 | field by field: the address is on record unless the store failed first, no flag moves, and only a publish that succeeds touches its slot, its reservation and the wake-up channel |
| `PoolLaws.WithdrawEffect` | internal/app/pool.go:353-365 | field by field, for current and replaced endpoints |
| `PoolLaws.ReportEffect` | internal/app/pool.go:108-134 | a progress report changes the state of its slot and nothing else |
| `PoolLaws.InitialPool` | internal/app/pool.go:90-96 | a new pool has only starting slots and zeros |
| `Acquire.ScanOutcome` | internal/app/pool.go:178-216 | in every run: a call whose scan grants gets the newest lease, one whose scan meets a failing store ends with an error, and one that finds nothing ready gives up exactly if its deadline has passed, and otherwise waits on the channel that is current at that scan |
| `Acquire.RejectedOnlyLate` | internal/app/pool.go:178-216 | a call returns ErrNoReady only after an empty scan of its own that came after its deadline: the scan was late, or the call's timer had fired just before |
| `Acquire.FinalIff` | internal/app/pool.go:200-212 | a scan is the last one exactly if the call's latest step was its timer; after any wake-up it may wait again |
| `Acquire.CallMoves` | internal/app/pool.go:193-223 | how a call starts, wakes, times out, is abandoned and is counted as rejected |
| `Acquire.CallGoesOnIff` | internal/app/pool.go:191-214 | a call can go on unless it is over, and a waiting one can wake exactly if its channel is no longer the current one |
| `Cycles.ResultBehind` | internal/app/tor.go:409-494 | in every run each result of a cycle has its deciding step in the same process: a used address exactly if publish found the flag up in unique mode with a working store, a store error exactly if the store failed, not published exactly if the address was reserved or the circuit gone, circuit or session closed exactly if the worker saw that while serving, and the others exactly if it saw its endpoint done |
| `Cycles.WorkerWaitsIff` | internal/app/tor.go:427-494 | in every state of every run a worker with an endpoint can go on unless its circuit and session are alive and it serves without a finished and signalled lease, or drains with leases outstanding |
| `Cycles.SignalWakes` | internal/app/pool.go:250-271 | a finish that has still to close the done channel can do so, and then the serving worker sees it |
| `Endings.NothingAfterTheEnd` | internal/app/tor.go:384-415 | once the application has ended no endpoint can be dialled over, none can be published and no scan grants, whatever the store does |
| `Endings.ClosedIsCut` | internal/app/tor.go:384-400 | a closed circuit's endpoint is cancelled |
| `Endings.WorldMoves` | internal/app/tor.go:82-84 | what the end of a circuit, of a session or of the application, a new session and a restart change |
| `Endpoints.RetiredForGood` | internal/app/pool.go:321-327 | an endpoint that left its slot is never leased again while the process lives, and its outstanding leases only fall |
| `Endpoints.FailureEndsService` | internal/app/pool.go:309-329 | in reuse mode this starts with the first failed lease that finishes |
| `Endpoints.DrainedForGood` | internal/app/tor.go:482-494 | when the drain ends by its loop condition, no lease of the circuit is outstanding or will ever arise |
| `Endpoints.ClosedUnderLease` | internal/app/tor.go:453-494 | a circuit is closed under a live lease only if the circuit, its control session or the application ended in an earlier step, which is returned |
| `Endpoints.LateFinish` | internal/app/pool.go:250-271 | a Finish for an endpoint that is no longer current changes no slot's endpoint or state, no reservation and no other endpoint, however late it comes |
| `Endpoints.LateWithdraw` | internal/app/pool.go:353-365 | a withdraw for an endpoint that is no longer current only cancels that endpoint |
| `Endpoints.DoneClosedOnce` | internal/app/pool.go:251-328 | no done channel is ever closed twice, in either mode |
| `Endpoints.RequestsBalance` | internal/app/pool.go:245-334 | requests equal completed plus failed plus outstanding leases, the slots' requests add up to them, and rejected counts the calls that got ErrNoReady |
| `Endpoints.LeasesPerEndpoint` | internal/app/pool.go:295-299 | a unique endpoint has at most one lease in its life; a reuse endpoint's `active` is its number of outstanding leases |
| `Endpoints.ActiveGuardIdle` | internal/app/pool.go:314-316 | the guard against `active` falling below zero never applies |
| `Endpoints.StreakMeaning` | internal/app/pool.go:254-260 | the streak that `fails` is proved to equal is the longest run of failures ending the instance's own finishes |
| `LeaseRecords.LeasesUseDistinctAddresses` | internal/app/pool.go:226-274 | in unique mode any two leases of a process have different addresses |
| `LeaseRecords.Recorded` | internal/app/pool.go:245-307 | in every run each lease is its entry of the grant history, with its endpoint's address and the mode, no two calls got the same lease, and every circuit is owned by its worker or closed |
| `LeaseRecords.OutstandingPins` | internal/app/tor.go:437-494 | an outstanding lease whose circuit has not ended keeps its worker from leaving the drain and, in unique mode, from seeing the endpoint done, and its slot is then not live |
| `LeaseRecords.CutOnlyIfEnded` | internal/app/tor.go:395-408 | the connections of an outstanding lease's circuit are cut only if the circuit, its control session or the application has ended |
| `SecondLease.OneLeaseIff` | internal/app/tor.go:419-446 | in unique mode, in any state reached while the application lives: steps in which nothing is restarted, no circuit ends under a lease and none is leased after it ended can bring an instance two outstanding leases, if and only if the circuit of some outstanding lease has already ended |
| `SecondLease.OrphanDoubles` | internal/app/tor.go:347-446 | the half that needs a run: from every state with a lease whose circuit has ended such steps are built, wherever the instance's worker is |
| `LeaseRecords.OnePerInstance` | internal/app/pool.go:234-245 | the other half, for one state: in unique mode two leases of one instance are outstanding only if the circuit of one of them has ended |
| `TwoLeases.TwoOnOneInstance` | internal/app/pool.go:353-365 | a run from a new process in which that happens |
| `LeaseCircuits.LeavesThroughGrantedAddress` | internal/app/tor.go:384-415 | over every interleaving of the pool and the control sessions: a stream with the token of a lease's endpoint, in whatever session and however late, is attached only to that endpoint's circuit, and the exit of that circuit is the address the lease was granted for |
| `LeaseCircuits.CheckKeeps` | internal/app/tor.go:409-415 | the address an endpoint is registered with is the exit of its own circuit, because the check's stream went through that circuit |
| `LeaseCircuits.JStepKeeps` | internal/app/tor.go:347-416 | every step of the two together keeps what these rest on |
| `Endpoints.RebuildDecision` | internal/app/tor.go:437-479 | a worker decides to rebuild exactly when its endpoint's last error is set and the instance's last three finishes all failed |
| `Endpoints.CycleResultExact` | internal/app/tor.go:437-479 | a worker that takes back its endpoint after serving decided so in an earlier step of the same process, which is returned; `cycle` returns errServeFailures exactly if at that step the endpoint's last error was set and the instance's last three finishes had failed, success exactly if no error was set, which is in unique mode only, and the error otherwise |
| `Endpoints.DecisionBehind` | internal/app/tor.go:437-479 | nothing but seeing the endpoint done brings a worker on that way out, and the decision it carries is the one made there |
| `Fairness.BoundedBypass` | internal/app/pool.go:230-248 | of any N grants made while an instance is eligible, N being the number of instances, one goes to it |
| `Fairness.EvenRotation` | internal/app/pool.go:279-304 | while all instances stay eligible, grant counts over any stretch of a run differ by at most one |
| `Fairness.RunsRotate` | internal/app/pool.go:230-248 | every run of the protocol is a round-robin game: first eligible from the cursor, cursor just past the grant |
| `Rotation.NobodyStarves` | internal/app/pool.go:230-248 | in any round-robin game a position that stays eligible is served within N grants |
| `Rotation.RoundsCount` | internal/app/pool.go:279-304 | with everybody eligible the grants are whole rounds plus a part of one, in cyclic order |
| `ScanLaws.WalkFindsFirst` | internal/app/pool.go:226-274 | for every pool and every pattern of store faults, a scan stops at the first slot in cyclic order that must stop it, having cancelled exactly the skipped stale endpoints |
| `ScanLaws.FirstStopUnique` | internal/app/pool.go:226-274 | that description fixes the stop and the resulting pool |
| `ScanLaws.CleanScan` | internal/app/pool.go:226-307 | with a fault-free store a scan grants exactly when some slot is eligible, and otherwise reports that none is ready |
| `ScanLaws.NoReadyLeavesNoneLive` | internal/app/pool.go:273-307 | a scan that reports none ready leaves no live slot, whatever the store did |
| `ScanLaws.ScanHasEffect` | internal/app/pool.go:226-307 | the whole effect of a scan: at most one slot, one row, the cursor and the request count change, apart from cancellations of stale endpoints |
| `WorkerSteps.WorkerKeeps` | internal/app/tor.go:347-494 | every step of a worker keeps the invariant of the protocol |
| `OtherSteps.CallKeeps` | internal/app/pool.go:178-223 | so does every step of an Acquire call |
| `OtherSteps.LeaseKeeps` | internal/app/pool.go:250-334 | so does every Finish |
| `OtherSteps.WorldKeeps` | internal/app/tor.go:82-84 | so does the end of a circuit, of a control session or of the application, and a restart |
| `Runs.Reachable` | internal/app/pool.go:74-88 | so every state of every run satisfies it |
| `LeasePool.Pool.Publish` | internal/app/pool.go:144-167 | the in-place publish equals its function: which store answers refuse it, what it installs, reserves and wakes |
| `LeasePool.Pool.AcquireLocked` | internal/app/pool.go:226-307 | the in-place scan of either mode equals the scan described by ScanLaws |
| `LeasePool.Pool.FinishUnique` | internal/app/pool.go:251-268 | the critical section of a unique-mode finish |
| `LeasePool.Pool.FinishReuse` | internal/app/pool.go:312-333 | the critical section of a reuse-mode finish |
| `LeasePool.Pool.Withdraw` | internal/app/pool.go:353-365 | the in-place withdraw |
| `LeasePool.Pool.Ready` | internal/app/pool.go:367-376 | readiness is the existence of a live slot |
| `LeasePool.Pool.SetState` | internal/app/pool.go:108-134 | a worker's progress report changes only the state of its own slot |
| `LeasePool.Lease.Finish` | internal/app/pool.go:250-329 | a finish takes effect once, per endpoint in unique mode and per lease in reuse mode, and closes the done channel exactly when the worker must wake |
| `LeasePool.Pool.constructor` | internal/app/pool.go:90-96 | a new process starts from an empty pool over the table it finds |
| `Store.Database.Observe` | internal/app/store.go:51-60 | a row is inserted only if absent, used flags are untouched, and the answer is whether the address is unused |
| `Store.Database.Consume` | internal/app/store.go:64-77 | the flag is raised if the row is there and, in unique mode, was unused; the answer says which; an error may come before or after the commit |
| `Store.Consumed` | internal/app/store.go:64-77 | exactly one address may become used, and only if the update matched |
| `Store.ConsumeOnce` | internal/app/store.go:64-77 | once a unique-mode consume succeeded, none succeeds for that address in any later table |
| `EventLog.Events.Add` | internal/app/pool.go:98-104 | the list shifted in place is always the newest hundred messages |
| `EventLog.NewestMeaning` | internal/app/pool.go:98-106 | the list is the last hundred messages in order, or all there are |
| `EventLog.Events.Shift` | internal/app/pool.go:100-101 | copying the list onto itself one place down drops its first entry |
| `Control.Reader.ReadLoop` | internal/app/control.go:82-150 | the loop delivers what the recursive reader delivers, and closes the connection however it ends |
| `Control.Reader.Deliver` | internal/app/control.go:86-149 | every return of the loop leaves the same deliveries as the recursive reader |
| `Control.Reader.ReadBlock` | internal/app/control.go:99-121 | the inner loop over a data block yields its body and the next line, or reports that it is cut off or too large |
| `ControlLaws.RoundTrip` | internal/app/control.go:86-149 | over lines, as the scanner hands them over: printing any replies with events anywhere between their lines and reading them gives back exactly the replies and the event bodies, in order |
| `WireLaws.WholeStreamIff` | internal/app/control.go:36-37 | over characters: with consumers that never stop the reader, the complete stream of such replies and events gives them back, if and only if every line, with its carriage return, stays below the scanner's 1 MiB |
| `WireLaws.HeardWhole` | internal/app/control.go:36-37 | in any case what is heard of a complete stream is what its lines up to the first one that is too long deliver |
| `ControlLaws.BlockReadIff` | internal/app/control.go:99-122 | a printed block is read back unless it is a data block of more than 4 MiB before its last line break |
| `ControlLaws.BlockStopsIff` | internal/app/control.go:123-145 | where a block stops the reader: an event with 256 waiting, a line of another code, a reply of more than 4 MiB, or a reply that is not taken |
| `ControlLaws.BlockGoesOn` | internal/app/control.go:123-149 | and what it does otherwise |
| `ControlLaws.CodeMeaning` | internal/app/control.go:91-94 | what is read as a status, and as which one |
| `ControlLaws.FrameRoundTrip` | internal/app/control.go:91-122 | one printed line or data block is read back as itself, and reading goes on behind it |
| `ControlLaws.StuffingUndone` | internal/app/control.go:109-111 | a stuffed line loses exactly its added dot and is never taken for the terminator |
| `ControlLaws.DotRule` | internal/app/control.go:109-111 | the code agrees with section 4.5.2 of RFC 5321 exactly on lines that do not start with a single dot and go on, and so on everything a conforming sender emits |
| `Wire.SplitCut` | internal/app/control.go:34-37 | the scanner hands over, of the first characters of any lines sent, the whole lines up to one that is too long, and then a beginning of the next one if the stream ends inside it |
| `Wire.SplitSent` | internal/app/control.go:34-37 | sent lines are handed over as they were, with what there is of a line that was cut off behind them |
| `WireLaws.HarmlessIff` | internal/app/control.go:86-149 | for well-formed replies with events anywhere, cut after any number of characters, and consumers that never stop the reader: what comes out is a prefix of what was sent, if and only if the stream does not end inside a line whose beginning ends an event, a reply or an event's data block |
| `WireLaws.UnharmedPrefix` | internal/app/control.go:86-149 | the half without harm, for whatever was sent and whatever the consumers do |
| `WireLaws.CutAtLineEnd` | internal/app/control.go:86-149 | a stream that ends at a line end delivers a prefix of what was sent, whatever the consumers do |
| `WireLaws.CutAnywhere` | internal/app/control.go:86-149 | a stream that ends anywhere delivers such a prefix and at most one item more |
| `WireLaws.LostDigit` | internal/app/control.go:86-149 | a reply that comes out with its last digit missing |
| `ControlLaws.PrefixOnly` | internal/app/control.go:86-149 | however the consumers or the end of the lines stop the reading, what was delivered is a prefix of what an undisturbed reader of more lines delivers; with OnlyWhatWasSent, of what was sent |
| `ControlLaws.DamagedTranscript` | internal/app/control.go:86-149 | whatever blocks were sent, of any size, with mixed codes or no last line, however many whole lines arrived and whatever the consumers did: the events that come out are the first ones sent and the replies are the first ones sent, cut at last lines |
| `ControlLaws.OnlyWhatWasSent` | internal/app/control.go:86-149 | the same from any point of the loop, on top of what was already delivered and collected |
| `ControlLaws.BlockReadBack` | internal/app/control.go:99-122 | a printed line or block of any size is read back as itself or not at all |
| `ControlLaws.CutOfTranscript` | internal/app/control.go:131-148 | for well-formed replies the cut is the replies themselves |
| `ControlLaws.StopsAtBrokenFrame` | internal/app/control.go:88-98 | nothing behind a line or block that cannot be read is delivered |
| `ControlLaws.NoOverflow` | internal/app/control.go:123-145 | no event is delivered into a full buffer and no reply after the connection closed |
| `CommandLaws.OwnReply` | internal/app/control.go:45-80 | a command written while `done` is open returns its own reply if it returns one, over every interleaving of callers, timeouts, closes and reader failures |
| `CommandLaws.OwnIffAlone` | internal/app/control.go:68-79 | a command returns its own reply or none in every continuation, if and only if when it is written no earlier reply lies in the channel and none is coming to a reader that still reads |
| `CommandLaws.OpenMeansAlone` | internal/app/control.go:51-57 | an open `done` channel at the write implies that no earlier reply is pending at all |
| `CommandLaws.StaleReply` | internal/app/control.go:68-73 | otherwise some continuation returns that reply of another command |
| `CommandLaws.NoReplyAnyMore` | internal/app/control.go:82-83 | once the reader has returned and the channel is empty, no command gets a reply |
| `CommandLaws.TakenInOrder` | internal/app/control.go:68-80 | over every interleaving replies are taken in the order in which their commands were written, each at most once, and the rest is unclaimed |
| `CommandLaws.ReplyWasTaken` | internal/app/control.go:68-73 | a command that returns a reply took it out of the channel before |
| `CommandLaws.NobodyStuck` | internal/app/control.go:45-80 | a command that is not over can go on, or the connection it has to close can be closed further |
| `CommandLaws.CloseWindow` | internal/app/control.go:43-79 | a run from a new connection in which that happens |
| `Streams.TorSession.HandleEvent` | internal/app/tor.go:75-117 | the loop body does to the session what its function says, for every event |
| `Streams.TorSession.Events` | internal/app/tor.go:59-120 | so does the loop over a whole history, and it cancels the current endpoint when it ends |
| `Streams.EverySent` | internal/app/tor.go:104-117 | every command sent answers the event it was sent for |
| `Streams.AttachedToOwnCircuit` | internal/app/tor.go:105-113 | whenever a stream is attached, its event carries the token of the endpoint current and live at that event, and it is attached to that endpoint's circuit |
| `Streams.NeverAnotherGeneration` | internal/app/tor.go:105-113 | with fresh tokens, a stream with the token of a generation is never attached to another one's circuit |
| `Streams.NoAttachAfterCancel` | internal/app/tor.go:105-113 | an event that attaches a stream found the endpoint not cancelled at any time up to its check; it is cancelled when the command has been sent exactly if that happened between the check and the command |
| `Streams.CircuitEventCancels` | internal/app/tor.go:82-84 | a close or failure event of the current circuit cancels its endpoint and does nothing else |
| `Streams.CancelledIff` | internal/app/tor.go:59-113 | after any history an endpoint is cancelled exactly if some input so far cancelled it: another goroutine, the end of its circuit, a stream number that is none, or one that fell into the handling of a client stream |
| `Streams.CurrentIs` | internal/app/tor.go:53-57 | after any history the current endpoint is the one begun last, unless it was ended |
| `Streams.BadNumberEnds` | internal/app/tor.go:100-103 | a stream number that is none ends the loop for good and cancels the current endpoint |
| `Streams.InternalMeaning` | internal/app/tor.go:123-133 | the marks of Tor's own streams, in words |
| `Streams.MarkedOnlyIf` | internal/app/tor.go:88-99 | an event marks a stream only if it bears such a mark, and the CLOSED of the stream takes it away |
| `Streams.OthersRefused` | internal/app/tor.go:104-117 | the exact commands for every client stream event: refused ones get CLOSESTREAM and nothing else, attachment failures get it after the attempt, other events get nothing |
| `Streams.InternalLeftAlone` | internal/app/tor.go:88-99 | from an event with one of the three purposes or the internal target up to and including its CLOSED, a stream draws no command |
| `Text.FieldsAreWords` | internal/app/tor.go:75-75 | the fields of a text are exactly its words, whatever white space stands before, between and after them |
| `Text.EveryTextIsSpread` | internal/app/tor.go:75-75 | every text is words with white space around them, so this settles the fields of every event |
| `Text.FindUserIff` | internal/app/tor.go:36-36 | the user name pattern yields a token exactly when the text names it, quoted and set apart, before any other |
| `Text.StreamNumberIff` | internal/app/tor.go:100-100 | a decimal number, with any leading zeros, is a stream number exactly if it fits into 64 bits |
| `Text.SpacesAre` | internal/app/tor.go:75-75 | the white space, character by character |
| `Failover.ServeForward` | internal/app/proxy.go:136-173 | the attempts, the answer and the use of the pool by the forward loop, for every sequence of outcomes: leases acquired in turn only while none is held, each finished with its attempt's result unless the attempt panicked |
| `Failover.ServeConnect` | internal/app/proxy.go:285-311 | the same for CONNECT |
| `Failover.TryLease` | internal/app/proxy.go:147-150 | one attempt uses and finishes the lease just acquired; a panic leaves it held |
| `Failover.FinishedIff` | internal/app/proxy.go:147-150 | every lease a handler acquired is finished when it returns, if and only if no attempt met a status below 100; CONNECT always finishes them |
| `Failover.StrangeStatus` | internal/app/proxy.go:244-244 | a request that ends by a panic with its lease held |
| `Failover.NoRetryAfterCommitment` | internal/app/proxy.go:154-165 | spells out the rule of retries that the contracts of ServeForward and ServeConnect establish: nothing is tried after a response, nor after a connection for a tunnel, nor after a connection for a request with a body |
| `Failover.FailoverDetermined` | internal/app/proxy.go:140-173 | these rules and the outcomes leave exactly one sequence of attempts, of at most as many as there are instances |
| `Failover.GoesOnIff` | internal/app/proxy.go:140-167 | another attempt follows exactly if the last one had no connection, or lost it under a request without a body, and there is another instance, the client is still there and a lease was granted |
| `Failover.StartsIff` | internal/app/proxy.go:140-149 | the first attempt is made exactly if there is an instance and a lease |
| `Failover.VerdictMeaning` | internal/app/proxy.go:119-198 | exact conditions in terms of what the attempts met: 504 and 502 tell the last attempt's error, as it was a timeout or not, exactly if the body may have been sent or no other instance could be tried or was ready; silence, the 503 for other reasons, the 503 with Retry-After and the one without |
| `Failover.SettledMeaning` | internal/app/proxy.go:151-162 | the same for an answer that was relayed, one that was broken off, a crash on a status below 100, a 505 and a failed takeover |
| `Failover.FinishedAs` | internal/app/proxy.go:149-150 | a lease is finished without an error exactly if a whole response or a tunnel came of it |
| `Handlers.HStepKeeps` | internal/app/proxy.go:136-173 | every step of a handler, a worker, the outside world or a restart keeps the handlers' invariant |
| `Handlers.OneLeaseAtATime` | internal/app/proxy.go:147-153 | over every interleaving a handler has at most one outstanding lease |
| `Handlers.AllFinishedIff` | internal/app/proxy.go:147-150 | a handler that has replied or crashed has no outstanding lease, if and only if none of its attempts panicked |
| `Handlers.AttemptsUseDistinctAddresses` | internal/app/proxy.go:140-167 | over every interleaving, in unique mode, any two attempts of one handler or of two run over different leases with different addresses |
| `Handlers.ReturnReports` | internal/app/proxy.go:149-150 | a handler's finish is recorded for the instance of its lease, as failed exactly if the attempt had an error, and the endpoint keeps its text |
| `Handlers.RetriesJustified` | internal/app/proxy.go:140-167 | over every interleaving no attempt follows one that responded, panicked or may have sent the body, and there are at most as many as instances |
| `Handlers.EndsLikeItsLoop` | internal/app/proxy.go:136-173 | over every interleaving, the attempts of a handler that has ended are exactly those that the loops of Failover make when they meet what the handler met round by round |
| `Handlers.NoHandlerStuck` | internal/app/proxy.go:136-173 | over every interleaving a handler that has not ended can take a step of its own |
| `Handlers.HandlerGoesOn` | internal/app/proxy.go:140-150 | before an attempt it asks for a lease exactly as long as there is an instance left to try, and may give up exactly if there is none or it has tried |
| `Handlers.RefusedAnswer` | internal/app/proxy.go:119-149 | what the client is told when a handler gets no lease, by how its call of Acquire ended and whether it had tried before |
| `Handlers.PanicPins` | internal/app/tor.go:482-494 | the lease of a crashed handler is outstanding, and pins its instance unless its circuit has ended |
| `Handlers.CrashedForGood` | internal/app/proxy.go:149-150 | a crashed handler does nothing more as long as the process lives |
| `RateRing.Count` | internal/app/loadtest.go:236-241 | the in-place update of the bucket for a tick |
| `RateRing.Clear` | internal/app/loadtest.go:90-90 | a new run starts with empty buckets |
| `RateRing.PutShows` | internal/app/loadtest.go:236-241 | recording keeps the buckets equal to what an unbounded list of completions leaves in them |
| `RateRing.RingTotal` | internal/app/loadtest.go:127-132 | for every list in any order and every snapshot tick, the sum is the number of completions in the window that no later one overwrote |
| `RateRing.RingAgreesIff` | internal/app/loadtest.go:127-132 | it is the sliding-window count exactly when nothing in the window was overwritten, and never more |
| `RateRing.RingAgrees` | internal/app/loadtest.go:127-132 | which is always so at nondecreasing ticks and a snapshot not before the last one |
| `RateRing.ClockStepsBack` | internal/app/loadtest.go:236-241 | a list with a step back for which the ring shows less |
| `LoadTest.LoadTester.Start` | internal/app/loadtest.go:69-93 | which requests are refused and why, and that a started run begins with every counter at zero |
| `LoadTest.RefusalMeaning` | internal/app/loadtest.go:70-84 | which start is refused for what: the URL, a rate not from 1 to 1000, shutting down, a test under way |
| `LoadTest.MovesOf` | internal/app/loadtest.go:85-110 | a test starts at zero with its rate; stopping, launching and skipping change nothing but what they say |
| `LoadTest.LoadTester.Record` | internal/app/loadtest.go:210-242 | the in-place accounting of a completion |
| `LoadTest.LoadTester.Snapshot` | internal/app/loadtest.go:113-134 | the averages shown are the mean times of the completions and of the successes the counters summarise, and the rate the number of the visible ones |
| `LoadTest.RecordSummarises` | internal/app/loadtest.go:210-242 | recording adds the completion to the tallies of success, failure, cancellation, unavailability, status codes, times, last error and ticks, and to no other |
| `LoadTest.EachOnce` | internal/app/loadtest.go:214-230 | every completion counts once, as success, failure or cancellation; an unavailable one is a failure |
| `LoadRuns.Conservation` | internal/app/loadtest.go:136-235 | over every interleaving: sent equals success plus failed plus canceled plus in flight, at most 128 are in flight, unavailable is at most failed, and none is in flight when idle or stopped |
| `LoadRuns.RunIsolation` | internal/app/loadtest.go:151-206 | the counters tally exactly the completions of requests of the run started last |
| `LoadRuns.OneRunAtATime` | internal/app/loadtest.go:77-102 | when a run has started, every earlier one is over and all its requests are done |
| `LoadRuns.StartsWhenOver` | internal/app/loadtest.go:79-84 | a valid start is accepted exactly when the application is alive and every run is over |
| `LoadRuns.RateIsWindow` | internal/app/loadtest.go:127-132 | over every interleaving, the rate shown is the current run's completions in the last ten ticks if the clock never stepped back, and never more |
| `LoadRuns.RunMoves` | internal/app/loadtest.go:165-206 | over every interleaving a tick is skipped exactly if 128 requests hold a slot, and a run is over only when none of its requests is left |
| `LoadRuns.RunPhases` | internal/app/loadtest.go:151-206 | where each of its steps brings a run, and which of them launches, skips or ends the test |
| `LoadRuns.StopMoves` | internal/app/loadtest.go:95-102 | a stop cancels the run under way, a shutdown cancels every run |
| `LoadRuns.CancelledLaunches` | internal/app/loadtest.go:162-170 | a cancelled run launches at most one more request, and none unless it has already taken a tick |
| `LoadRuns.NeverStuck` | internal/app/loadtest.go:176-199 | when a request may be recorded, give back its slot and leave the wait group: always when its turn comes, and as canceled only after its run was |
| `Supervisor.Supervise` | internal/app/tor.go:282-315 | the loop ends at the first turn that has to end it, with that turn's reason, after the delays the policy prescribes |
| `Supervisor.ShouldRestartForUsedIp` | internal/app/tor.go:317-324 | the streak it leaves is the number of used-address results ending the turns so far, and it asks for a restart exactly when the last m of them, in unique mode, were all used addresses |
| `Supervisor.UsedRunMeaning` | internal/app/tor.go:317-324 | a streak of at least m means that the last m results were all used addresses |
| `Supervisor.ExitMeaning` | internal/app/tor.go:282-315 | when a turn ends the loop, and with which error: the context's, the control session's, a rebuild or NEWNYM's own, in this order |
| `Supervisor.RebuildErrors` | internal/app/tor.go:326-330 | the errors after which an instance is rebuilt from scratch |
| `Supervisor.ErrorRunMeaning` | internal/app/tor.go:298-304 | the errors that count for the delay are those of the last turns without a success in between, of any kind |
| `Supervisor.RestartIff` | internal/app/tor.go:295-330 | the loop's error asks for a rebuild exactly when the last m results were used addresses in unique mode and the turn was not broken off; never in reuse mode |
| `Supervisor.DelayLadder` | internal/app/tor.go:282-304 | the delay is 10, 20, 40 or 60 seconds after no, one, two or more trailing errors |
| `Supervisor.GoesOnIff` | internal/app/tor.go:295-304 | undisturbed, the loop ends if and only if a used-address streak is reached |
| `Supervisor.ServeFailuresAreOrdinary` | internal/app/tor.go:298-300 | replacing every serve failure by an ordinary error changes neither where the loop stops nor why nor the delays |
| `Supervisor.ServeFailuresRetried` | internal/app/tor.go:298-300 | three serve failures in a row, each accepted by needsFreshRestart, end nothing |

## Left out

- Blocking: the wait loop of `Acquire`, the workers, `command` and the load tester's goroutines are step systems, not methods that block; there is no liveness beyond what is enabled.
- Wall-clock time and jitter: timeouts are steps that may happen at any moment; the supervisor's delays are bases in seconds, before the random part is added.
- Endpoints.RebuildDecision: `lastErr` and the failure count are read in one step; in the code the count is read under the lock just after `lastErr`. In reuse mode the worker reads `lastErr` without the lock (tor.go:472) while another failing lease may write it under the lock (pool.go:320); the one-step read hides this data race, and keeps only that a set error is never unset (`ErrorStays`).
- Supervisor.Supervise: runs over a given finite number of turns, each with its cycle result; bootstrap before the loop and the loop of RunWorkers around it are not modelled.
- Control.Reader.ReadLoop: works on the lines that `Wire.Split` makes of the characters that arrive; a read error is the end of these characters, as for the scanner. The sizes in which they arrive play no part.
- LeaseCircuits.LeavesThroughGrantedAddress: the exit address of a circuit is fixed when it is extended, circuit numbers are not used twice in a session, and tokens are never drawn twice. The cancellations of the pool and of the sessions are not tied to each other: both may happen at any time.
- Commands: `command` also refuses a text with line breaks and turns a reply with another code than 250 into an error; a reply is its number here.
- Text.FieldsAreWords: on code points; the decoding of UTF-8 in an event is not modelled, while the reader of the control channel counts bytes.
- Failover.ServeConnect: a 200 that could not be written to a client already taken over counts as a tunnel that broke.
- Failover.ServeForward: the one panic modelled inside an attempt is that of writing a status below 100; panics of other library code are not, nor are interim responses.
- LoadTest.LoadTester.Snapshot: averages are exact, without floating-point rounding; the start and stop times are left out, and the last error is kept as an error or a status, not as its text.
- Display: instance views (address, circuit, last check, last error, bootstrap progress), the revision counter and log output.
- HTTP, SOCKS, TLS and TCP input and output, header rewriting, CONNECT address checks, tunnel relaying, idle deadlines and the bounded listener.
- Starting and resetting Tor, its configuration text, the IP check itself and bootstrap progress parsing: the checked address is an arbitrary value.
- SQLite, its settings, counting and listing: only the atomic effect of Observe and Consume is kept.
- Configuration parsing, wiring, the web API and the dashboard.
