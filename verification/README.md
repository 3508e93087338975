# Diagnostics runtime: a verified model

A Dafny model of the troupe diagnostics layer and proofs about it. Several lifecycle producers
(acts, cues, effects, runs) write spans, instants and counters into one sequenced event log, under
any order of calls and any pattern of admission failures; a codec carries the events over a closed
wire schema; a durable writer drains them into a store; sinks, budgets and task-local span stacks
sit around them.

How it is built:

- `Events`, `Validator`, `Hub`: the vocabulary, the reference validator (operational rules, and the
  declarative meaning of acceptance they are proved equivalent to), and one stream with contiguous
  sequence numbers. A producer reads its stamp before it reaches the hub
  (`rust/src/diagnostic_runtime/load_producer.rs:558-562`), so stamps may go back along the log;
  the reserver's answers and the stamps are oracles, one per attempt, and a statement about every
  hub covers every pattern of failures and every choice of stamps.
- `Act`, `Effect`, `Cue`: each producer's mutex-guarded record and every hook as a step function on
  record and stream. `ActProofs`, `ActMarks`, `ActClosings`, `ActRun`, `EffectProofs`, `CueProofs`,
  `CueView`: what every hook keeps and what a reader of the log can tell. `Offers`, `ActAnswers`,
  `EffectAnswers`, `CueAnswers`, `RuntimeAnswers`: which hooks are legal when, exactly which events a
  legal one puts on the log, and why any other fails. `EffectOrder`,
  `ActObserved`: runs in which the order of two hooks, a span left open by custom code or a stamp
  overtaken on its way to the hub shows.
- `Stage`, `StageRuns`: acts, cues, effects and foreign producers on one stream, in any
  interleaving; the results over whole runs.
- `HubObject`, `ActObject`, `EffectObject`, `CueObject`, `RuntimeObject`: the same producers as
  objects with state that methods change; every hook is its step function, keeps the producer's
  invariant and tells its caller which spans are open.
- `ActCall`, `ActCallRun`: the coroutine that drives an act, and the two machines together.
- `Runtime`: the run lifecycle. `Writer`, `Deadline`: the durable writer and its bounded shutdown.
  `CueCapture`: shedding cues under load and the gaps that tell of them.
- `Digits`, `Decimals`, `Codec`, `CodecProofs`, `EventClasses`, `EventTables`, `EventCodec`,
  `CustomNormal`: canonical numbers, the event codec with its separate encode and decode tables, and
  the normal form of custom payloads.
- `SpanStacks`, `Budget`, `Sink`: address-keyed span stacks, the packed atomic budget, sink waiters.

Results that are not plain confirmations of the source's intent:

- Owner terminal and caller exit of an effect commute except when the effect was already cleared and
  returned, the cue completed and the caller consumed: then one order abandons the effect and the
  other consumes it (`EffectProofs.OwnerCallerCommute`, `EffectProofs.ClearedOrderShows`; a run that
  gets there is `EffectOrder.OrderShowsInARun`).
- A run that fails is laid to the failure of its start even if a scene failed before that: the start's
  return overwrites the failure on record, every other failure gives way to the first
  (`RuntimeAnswers.RunLifecycle`).
- The decoder's re-print check of a decimal is redundant but for the size bound, and the printer's
  own grammar check never fails (`Decimals.WireAcceptsPrinted`, `Decimals.TextFailsOnlyForSize`).
- An attempt to start an effect after a cue's terminal hook fails even when closing the cue failed,
  because the failure is latched on the run (`StageRuns.TerminalCloses`).
- The number of suppressed cues and the start of their gap sit behind two locks, with a reading of
  the clock between them: calls that overlap can lose a gap or misreport one, uninterrupted ones
  never do, and the gaps are exact exactly when no cue passes with an older reading than the start of
  the gap and every resumption passes balanced and with a reading not older than its cues
  (`CueCapture.OverlapLoses`, `CueCapture.OverlapMisreports`, `CueCapture.OvertakingMisreports`,
  `CueCapture.ExactIff`). This is about the protocol of the two locks: both callers hold the
  interpreter lock across it (`rust/src/orchestration/cue_future.rs:123-171`, `gil_used = true` in
  `rust/src/lib.rs:27`), so the module as it is built today does not overlap these calls.
- Every candidate of an act, a cue or an effect has its references in order, whatever the stamps, so
  the validator can object to nesting alone. It refuses a finish exactly when somebody else's span is
  still open under the span it names, or when its stamp is before that span's start, content or
  children: a custom span nobody closed, or a custom instant that overtakes the finish between its
  stamp and the hub, makes the act fail (`StageRuns.LogAlwaysValid`, `Hub.FinishRefusedIff`,
  `ActObserved.TurnEndsIff`, `ActObserved.CustomSpanBlocksTurn`,
  `ActObserved.LateInstantBlocksTurn`).
- A successful finalize reply vouches for everything accepted exactly if, when the writer looks at
  the drained status, the ingress is sealed and the fatal reservation is spent or cannot be
  authorized any more: a failure outside between that look and the reply authorizes a fatal event
  that the reply misses (`Writer.ReplyTrueIff`, `Writer.FailureReplyMisses`).

Assumptions about collaborators, all of them in `Stage.OpOk`, `Stage.ForeignOk` and `ActRun.OpOk`:
session generations start at one, an acknowledged usage event is on the stream, identifiers are
fresh, other producers leave lifecycle spans, built-in instants and activity counters of acts, cues
and effects to their owners and finish only spans of their own, and no scene ends before its cues.
They may open spans anywhere; that they finish them in time is `StageRuns.RunClear`, and that the
stamps of acts, cues and effects are not older than what is on record when they reach the hub is
`StageRuns.RunStamped`. Both are hypotheses of the absence of refusals alone; the stamps of other
producers are free.

`dafny verify dfyconfig.toml` checks the whole project.

## Model

| member | source | states |
|---|---|---|
| `StageRuns.LogAlwaysValid` | rust/src/diagnostic_runtime/act_producer.rs:666-1156 | Over every interleaving of act, cue, effect and foreign steps, with foreign spans and instants under any span, every pattern of reservation failures and every choice of stamps, the log is a valid stream, all producer invariants hold, and every candidate an act, cue or effect offered had its references in order and its own content over, so that the validator never objected to one of them but for nesting; and it objected to none at all if their stamps were not older than what was on record when they came and observers finished what they opened before the hook that closes the span above |
| `StageRuns.RunKept` | rust/src/diagnostic_runtime/cue_producer.rs:278-570 | From any stage that satisfies the invariant, every run keeps it, keeps the log valid and offers only proper candidates, for all stamps; it adds no refusal while the own stamps are not older than what is on record and every hook finds the spans it is to close clear of other producers' open spans |
| `Stage.StepKept` | rust/src/diagnostic_runtime/effect_producer.rs:217-448 | One step of any producer keeps the invariant of all of them; the log only grows; every candidate of an act, cue or effect is proper; a refusal of one needs a stamp older than what is on record or somebody else's span still open under a span the step is to close |
| `StageRuns.ActsJoin` | rust/src/diagnostic_runtime/act_producer.rs:1120-1156 | In every reachable stage: the act span of a healthy act is finished exactly when caller, settlement and usage acknowledgement are in, with the terminal of caller and remote; its last AgentTurnActive sample is 1 exactly while the turn is open; the milestones and closings on the log, with their spans, terminals and causes, are the recorded ones |
| `StageRuns.CueOnLog` | rust/src/diagnostic_runtime/cue_producer.rs:278-542 | In every reachable stage the phase and cancel request of a healthy cue can be read off the log, where each of its events follows from the one before in the right span; its last CueActive sample is 1 exactly in the three live phases, and exactly the span of its phase is open; once it has ended its last span is finished with the outcome, code and cause that the outcome it was told demands |
| `StageRuns.CueEffectsSettled` | rust/src/diagnostic_runtime/cue_producer.rs:468-543 | Once a cue has ended in good health and nothing has failed, each of its effects is finished exactly once with the terminal its record explains, or is a returned effect of a completed cue that still waits |
| `StageRuns.TerminalCloses` | rust/src/diagnostic_runtime/cue_producer.rs:468-543 | Every terminal hook closes its cue to new effects, whatever the hub answers, and a cue it ends in good health has the outcome it was told |
| `StageRuns.NoEffectAfterTerminal` | rust/src/diagnostic_runtime/effect_producer.rs:469-506 | Once closed, a cue gains no effect over any continuation of the run, and effects never change owner |
| `StageRuns.StartEffectIff` | rust/src/diagnostic_runtime/effect_producer.rs:469-556 | An effect starts exactly under a registered, dispatched cue of a run that has not failed and if its span is taken, which is when it is reserved and not stamped before the scene; otherwise nothing changes but for the latched failure |
| `StageRuns.RegistriesAnswer` | rust/src/diagnostic_runtime/effect_producer.rs:558-656 | A hook of an unregistered effect is lost, a creation under a dispatched cue latches a failure; a registered effect leaves the registry with its end; a cue hears of its caller's exit after its effects |
| `Stage.FanOutKept` | rust/src/diagnostic_runtime/effect_producer.rs:558-576 | Telling any sequence of effects of a cue's end or of its caller's exit keeps every invariant |
| `Stage.FanOutTells` | rust/src/diagnostic_runtime/effect_producer.rs:558-568 | After the fan-out of a cue's end every effect told is over or knows of it |
| `Validator.AcceptedIffAdmissible` | rust/crates/troupe-diagnostics-core/src/validate.rs:215-277 | The validator's maps accept an event exactly when it is admissible after the accepted events: links backward to known events, referenced spans open and enclosing, finishes only of open spans whose content is over |
| `Validator.CommitMirrors` | rust/crates/troupe-diagnostics-core/src/validate.rs:279-320 | Committing an accepted event keeps the maps a mirror of the accepted events |
| `Validator.FinishedOnce` | rust/crates/troupe-diagnostics-core/src/validate.rs:404-486 | In a valid stream no span is finished twice |
| `Validator.FinishFollowsStart` | rust/crates/troupe-diagnostics-core/src/validate.rs:404-486 | In a valid stream a finish follows the start it names, in the same scope |
| `Validator.SpansNest` | rust/crates/troupe-diagnostics-core/src/validate.rs:404-486 | In a valid stream a parent's finish comes after the finishes of all its children, in sequence and in time |
| `Validator.ReferenceValidator.Validate` | rust/crates/troupe-diagnostics-core/src/validate.rs:187-213 | Commits the prepared change on acceptance and leaves the maps alone on a refusal |
| `Validator.ValidateEventStream` | rust/crates/troupe-diagnostics-core/src/validate.rs:157-169 | Accepts a whole stream exactly when every event is admissible in turn |
| `Validator.VerdictIs` | rust/crates/troupe-diagnostics-core/src/validate.rs:215-486 | The verdict on an event, with its refusal code, is the one the accepted events alone determine: for each of the thirteen codes the stream condition that yields it, in the order they are looked at |
| `Hub.AdmitValid` | rust/crates/troupe-diagnostics-core/src/hub.rs:641-712 | Every admission keeps the log a valid stream that the validator mirrors |
| `Hub.SoundAccepted` | rust/crates/troupe-diagnostics-core/src/hub.rs:641-712 | A candidate with sound references whose stamp is not before the span it enters, or before anything in the span it finishes, is refused by nothing but the reserver |
| `Hub.ReferencedTakenIff` | rust/crates/troupe-diagnostics-core/src/validate.rs:321-486 | A candidate with its references in order is taken exactly when it is reserved, its stamp fits and a span it finishes has nothing open under it; otherwise the fault recorded is one of the two about nesting, finish-before-start exactly for a finish stamped before its span's start |
| `Hub.FinishRefusedIff` | rust/crates/troupe-diagnostics-core/src/validate.rs:404-486 | Whatever its stamp, a proper finish of an act, cue or effect span that gets its reservation is refused exactly when somebody else's span is still open under it or the stamp is before the span's start, its latest instant or the finish of one of its children; before the start it is a finish before start, else a child outside its parent |
| `HubObject.DiagnosticHub.AdmitCandidate` | rust/crates/troupe-diagnostics-core/src/hub.rs:641-712 | Sequence, reservation, validation, commit: a failed admission leaves log and sequence as they were |
| `Offers.OfferLog` | rust/crates/troupe-diagnostics-core/src/hub.rs:641-712 | Candidates offered one after the other until one is turned away: the log gains exactly their events if all are taken, and a proper prefix of them otherwise |
| `Offers.OfferTakenIff` | rust/crates/troupe-diagnostics-core/src/hub.rs:641-712 | Candidates with their references in order are all taken exactly if each, when its turn comes, is reserved, stamped within the span it refers to and, if it is a finish, finds nothing open under its span |
| `ActRun.StepKept` | rust/src/diagnostic_runtime/act_producer.rs:707-1156 | Every hook of an act keeps the whole act invariant, for every answer of the hub |
| `ActRun.StepElsewhere` | rust/src/diagnostic_runtime/act_producer.rs:666-1156 | No step of another producer disturbs an act, spans opened under the act's own spans included |
| `ActRun.JoinOnLog` | rust/src/diagnostic_runtime/act_producer.rs:1120-1156 | The three-way join read off the log: finished iff all three are in, once, after the caller span and any turn span, whose terminals on the log decide how the act ends: completed exactly when the caller did not fail and the remote, or without one the caller, completed |
| `ActRun.UsageMirrors` | rust/src/diagnostic_runtime/act_producer.rs:99-126 | While an act is healthy the shared usage identity mirrors prompt and settlement of the record |
| `ActRun.TokenForward` | rust/src/diagnostic_runtime/act_producer.rs:1043-1075 | Usage slot and acknowledgement only move forward, so each is taken and consumed at most once |
| `ActRun.ApplyShown` | rust/src/diagnostic_runtime/act_producer.rs:707-1156 | No hook can reach a usage-slot or usage-ack error, an early finish, a hook-before-lifecycle error or a broken expect; the turn counter agrees with the turn span |
| `ActAnswers.StartAnswered` | rust/src/diagnostic_runtime/act_producer.rs:666-705 | A new act offers its span, the caller span and the admitted instant, each caused by the one before, and is healthy exactly if all three are taken |
| `ActAnswers.DriverAnswered` | rust/src/diagnostic_runtime/act_producer.rs:707-731 | A driver is legal once and while the caller is there; then exactly the waiting instant is offered, otherwise the act fails with the one code and writes nothing |
| `ActAnswers.DriverIff` | rust/src/diagnostic_runtime/act_producer.rs:707-731 | A healthy act stays so exactly if this is its first driver, its caller is there, the event is reserved and not stamped before the act; the log then gains that one event |
| `ActAnswers.CancelAnswered` | rust/src/diagnostic_runtime/act_producer.rs:733-765 | A cancel is never illegal: a second one, and one after the caller left, changes nothing; the first is one instant in the caller span, caused by the latest milestone |
| `ActAnswers.CancelIff` | rust/src/diagnostic_runtime/act_producer.rs:733-765 | The same with the answer of the hub: taken exactly if reserved and not stamped before the caller span |
| `ActAnswers.PromptAnswered` | rust/src/diagnostic_runtime/act_producer.rs:767-847 | A prompt that names this act is legal once, after the driver and before caller or settlement; then exactly instant, turn span, active sample and activity are offered, in the turn's scope; each other case has its code |
| `ActAnswers.HandoffAnswered` | rust/src/diagnostic_runtime/act_producer.rs:849-878 | A handoff that names this act is legal once while the turn runs, whether or not a cancel was requested; then exactly one instant is offered, caused by that cancel if there was one and else by the activity; each other case has its code |
| `ActAnswers.HandoffIff` | rust/src/diagnostic_runtime/act_producer.rs:849-878 | The same with the answer of the hub: the act stays healthy exactly if the metadata names it, its turn was opened and has not ended, it was not handed over before, and the instant is reserved and not stamped before the act; the log then gains that one event and otherwise nothing |
| `ActAnswers.TerminalAnswered` | rust/src/diagnostic_runtime/act_producer.rs:880-993 | A settlement is legal once, as submitted exactly if there was a prompt and with a code exactly if it did not complete; an open turn is then announced, finished and sampled inactive, in this order and with these causes; saying again that nothing was submitted changes nothing; each other case has its code |
| `ActAnswers.CallerAnswered` | rust/src/diagnostic_runtime/act_producer.rs:995-1041 | The caller leaves once: its span is finished with the terminal of its exit, because of the cancel or the last of the milestones the source names, then the act's own span if everything else is in; without a prompt the act is settled |
| `ActAnswers.UsageAnswered` | rust/src/diagnostic_runtime/act_producer.rs:1060-1075 | An acknowledgement finishes the act exactly if the caller has left, caused by the acknowledged event |
| `ActAnswers.StepAnswered` | rust/src/diagnostic_runtime/act_producer.rs:1043-1075 | A finished act hears nothing more; the slot is given once while the act is live, turns into an acknowledgement once the shared identity is settled and is spent when handed back; the settlement is announced once |
| `ActAnswers.ExitMeans` | rust/src/diagnostic_runtime/act_producer.rs:1466-1494 | How a caller ends: completed by a normal return only, failed by an error or a refused admission, cancelled otherwise, with the code that goes with it |
| `ActAnswers.ContainingIs` | rust/src/diagnostic_runtime/act_producer.rs:1077-1098 | Custom and tool events of a live act are placed in its running turn, else in the act |
| `ActMarks.ApplyMarked` | rust/src/diagnostic_runtime/act_producer.rs:707-878 | The milestones a reader finds on the log, with their spans and causes, are those of the record: a cancel is caused by the latest milestone before it, a handoff by a cancel that preceded it, else by the activity |
| `ActClosings.ApplyClosings` | rust/src/diagnostic_runtime/act_producer.rs:880-1156 | The finishes of an act's spans on the log carry the recorded terminals and the recorded causes |
| `ActRun.CancelCausedByLatest` | rust/src/diagnostic_runtime/act_producer.rs:747-754 | The source a cancel request uses is the latest of all recorded milestones |
| `ActRun.ContainingSpanOpen` | rust/src/diagnostic_runtime/act_producer.rs:1077-1098 | The span offered to custom and tool events of a live act is open and encloses their scope |
| `ActProofs.FinishRefused` | rust/src/diagnostic_runtime/act_producer.rs:880-1156 | For every state of a healthy act and every stamp: the finish of a span whose own content is over, given the reservation, is refused exactly when a foreign span is open under it or the stamp is before something the span holds |
| `ActObserved.TurnEndsIff` | rust/src/diagnostic_runtime/act_producer.rs:880-993 | Whatever the reserver answers and whatever the stamps, the hook that ends a turn leaves the act healthy exactly when its three or four events are reserved, nobody else's span is open under the turn, its announcements are stamped within the turn's start and its finish, and nothing else the turn holds is later than the finish; if all was reserved and the act fails, the hub refused for nesting, with the fault the lemma names |
| `ActObserved.CustomSpanBlocksTurn` | rust/src/diagnostic_runtime/custom_act_binding.rs:231-236 | There is a run by the rules, with good stamps, in which a custom span left open in the turn makes the turn's finish refused and the act fail |
| `ActObserved.LateInstantBlocksTurn` | rust/src/diagnostic_runtime/load_producer.rs:574-594 | There is a run by the rules with nothing left open in which a custom instant is taken between the stamp of the turn's finish and its admission: the finish is refused and the act fails |
| `ActObject.ActLifecycleProducer.Begin` | rust/src/diagnostic_runtime/act_producer.rs:666-705 | Begins an act whose identifier is new: the invariant holds, only this act's events were added, and exactly the three of a new act if all were taken; then act and caller span are open and the usage slot is there |
| `ActObject.ActLifecycleProducer.ObserveDriverStarted` | rust/src/diagnostic_runtime/act_producer.rs:707-731 | Keeps the invariant and answers as ActAnswers.DriverAnswered says: legal once and with the caller there, then exactly the waiting instant |
| `ActObject.ActLifecycleProducer.ObserveCancelRequested` | rust/src/diagnostic_runtime/act_producer.rs:733-765 | Keeps the invariant and answers as ActAnswers.CancelAnswered says: recorded once while the caller is there, otherwise nothing happens |
| `ActObject.ActLifecycleProducer.ObservePromptSubmitted` | rust/src/diagnostic_runtime/act_producer.rs:767-847 | Keeps the invariant and answers as ActAnswers.PromptAnswered says; a healthy act has opened its one turn: the turn span is open and the last active sample is 1 |
| `ActObject.ActLifecycleProducer.ObserveSupervisorHandoff` | rust/src/diagnostic_runtime/act_producer.rs:849-878 | Keeps the invariant and answers as ActAnswers.HandoffAnswered says: a running turn is handed over once, cancelled or not, with exactly one instant caused by the cancel if there was one, and the act fails only for the named reasons or an instant turned away |
| `ActObject.ActLifecycleProducer.ObserveTurnTerminal` | rust/src/diagnostic_runtime/act_producer.rs:880-993 | Keeps the invariant and answers as ActAnswers.TerminalAnswered says; a healthy act is settled as told, its turn span is closed, its terminal recorded and the last active sample 0; reports a finish exactly if a healthy act is finished |
| `ActObject.ActLifecycleProducer.ObserveCallerFinished` | rust/src/diagnostic_runtime/act_producer.rs:995-1041 | Keeps the invariant and answers as ActAnswers.CallerAnswered says; a healthy act has closed its caller span, for the first time, with the outcome and code its exit demands; reports a finish exactly if a healthy act is finished |
| `ActObject.ActLifecycleProducer.FinishIfJoined` | rust/src/diagnostic_runtime/act_producer.rs:1120-1156 | The join itself, and that it reports a finish exactly when one was made |
| `ActObject.ActLifecycleProducer.GiveUsageSlot` | rust/src/diagnostic_runtime/act_producer.rs:1043-1049 | Keeps the invariant; the slot is given to the first who asks while the act is live, and never again |
| `ActObject.ActLifecycleProducer.AcceptUsageAck` | rust/src/diagnostic_runtime/act_producer.rs:1060-1075 | Keeps the invariant, spends the acknowledgement and answers as ActAnswers.UsageAnswered says; the act span is now open exactly as long as the caller has not left; reports a finish exactly if a healthy act is finished |
| `EffectProofs.ApplyKept` | rust/src/diagnostic_runtime/effect_producer.rs:217-448 | Every hook of an effect keeps its invariant: one span, open until the finish its record explains, which for a construction that raised is cancelled exactly if it was cancelled; no waiting except for a returned effect of a completed cue |
| `EffectAnswers.HooksAnswer` | rust/src/diagnostic_runtime/effect_producer.rs:217-448 | For every hook and every answer of the hub: when it is legal, with which code it fails otherwise, and exactly which instant or finish, with outcome, code and cause, a legal one offers; an effect that is over hears nothing more |
| `EffectAnswers.RaisedOnLog` | rust/src/diagnostic_runtime/effect_producer.rs:239-273 | A construction that raised puts exactly one event on the log, the finish of the effect's span: cancelled with the cancelled code exactly if the error was a cancellation, failed with the failed code otherwise |
| `EffectProofs.CompletedIffConsumed` | rust/src/diagnostic_runtime/effect_producer.rs:416-448 | A finish is a completed one exactly when a consumption directly precedes it; that consumption is the only one and is chained back to return and creation |
| `EffectProofs.OwnerCallerCommute` | rust/src/diagnostic_runtime/effect_producer.rs:305-381 | Owner terminal and caller exit commute: same events, same finish, in every case but the one the next row names |
| `EffectProofs.ClearedOrderShows` | rust/src/diagnostic_runtime/effect_producer.rs:305-399 | In the excluded case (cleared and returned, cue completed, caller consumed) the two orders give the same log exactly when the hub can take no event: no reservation, or a stamp before the effect's start |
| `EffectOrder.OrderShowsInARun` | rust/src/diagnostic_runtime/effect_producer.rs:305-399 | A run of created, built, returned and cleared reaches a state with neither hook heard, and there the two orders leave different logs behind |
| `EffectProofs.FinishRefused` | rust/src/diagnostic_runtime/effect_producer.rs:432-448 | For every state of a healthy effect and every stamp: its finish, given the reservation, is refused exactly when a foreign span is open under it or the stamp is before something the span holds |
| `EffectProofs.ApplySane` | rust/src/diagnostic_runtime/effect_producer.rs:416-440 | No run reaches consumed-without-return or a second finish |
| `EffectProofs.StepElsewhere` | rust/src/diagnostic_runtime/effect_producer.rs:217-448 | No step of another producer disturbs an effect |
| `EffectObject.EffectLifecycleProducer.Observe` | rust/src/diagnostic_runtime/effect_producer.rs:217-399 | Every hook keeps the effect's invariant, answers as EffectAnswers.HooksAnswer says and adds only this effect's events; a healthy effect is over exactly when its span is closed |
| `EffectObject.EffectRegistry.Deliver` | rust/src/diagnostic_runtime/effect_producer.rs:638-656 | A delivered hook removes exactly the effect it ends |
| `EffectObject.EffectRegistry.TellAll` | rust/src/diagnostic_runtime/effect_producer.rs:558-576 | The loop over an owner's producers is the fan-out over all of them in some order |
| `CueProofs.CloseCueKept` | rust/src/diagnostic_runtime/cue_producer.rs:468-543 | Closing keeps the cue invariant: span finished, active counter back to 0 |
| `CueProofs.EnqueuedKept` | rust/src/diagnostic_runtime/cue_producer.rs:308-365 | Enqueueing keeps the cue invariant for every answer of the hub |
| `CueProofs.DispatchedKept` | rust/src/diagnostic_runtime/cue_producer.rs:367-421 | Dispatch closes the wait span before it opens the execution span, for every answer of the hub |
| `CueProofs.StepElsewhere` | rust/src/diagnostic_runtime/cue_producer.rs:278-570 | No step of another producer disturbs a cue whose scene outlives it |
| `CueProofs.FinishRefused` | rust/src/diagnostic_runtime/cue_producer.rs:367-421 | For every state of a healthy cue and every stamp: the finish of its open span, given the reservation, is refused exactly when a foreign span is open under it or the stamp is before something the span holds |
| `CueAnswers.AdmitAnswered` | rust/src/diagnostic_runtime/cue_producer.rs:278-306 | A new cue offers the admitted instant and the active sample, and is healthy exactly if both are taken |
| `CueAnswers.EnqueueAnswered` | rust/src/diagnostic_runtime/cue_producer.rs:308-365 | Enqueueing is legal for an admitted cue on a running actor; then exactly instant, wait span and the mailbox depth with the running cue counted are offered; a depth that cannot be counted fails after the wait has begun; each other case has its code |
| `CueAnswers.DispatchAnswered` | rust/src/diagnostic_runtime/cue_producer.rs:367-421 | Dispatching is legal for an enqueued cue; then exactly instant, completed wait and execution span are offered |
| `CueAnswers.CancelAnswered` | rust/src/diagnostic_runtime/cue_producer.rs:423-457 | A cancel is legal once for a live cue and is placed in, and caused by, the phase it meets |
| `CueAnswers.CallerAnswered` | rust/src/diagnostic_runtime/cue_producer.rs:459-466 | The caller of a cue leaves once |
| `CueAnswers.PlanAnswered` | rust/src/diagnostic_runtime/cue_producer.rs:468-510 | A terminal hook may end a live cue: an end other than completion needs an error and only a dispatched cue completes; each other case has its code and says whether the cue is over; the cause is the cancel, else the phase |
| `CueAnswers.CloseAnswered` | rust/src/diagnostic_runtime/cue_producer.rs:510-543 | Closing offers exactly the finish of the open span, with the outcome and code of each of the four ways to end, and the inactive sample |
| `CueAnswers.RetireAnswered` | rust/src/diagnostic_runtime/cue_producer.rs:545-570 | Retiring is legal for an ended cue and samples the mailbox with the running cue counted |
| `CueView.EndsAs` | rust/src/diagnostic_runtime/cue_producer.rs:782-805 | The span a cue holds open at its end is finished completed exactly for a completed cue, cancelled exactly for a cancelled one and failed exactly for a failure or a failed cleanup, each with its own code, a failure with one that tells execution from dispatch; the cause is the cancel request as a handoff, else the phase it returns from |
| `CueView.CancelViewed` | rust/src/diagnostic_runtime/cue_producer.rs:423-458 | A cancel request keeps log and record in agreement: it is handed off from the phase it met, inside that phase's span, once |
| `CueObject.CueLifecycleProducer.ObserveAdmitted` | rust/src/diagnostic_runtime/cue_producer.rs:278-306 | Admits a cue whose identifier is new, as CueAnswers.AdmitAnswered says: the invariant holds, only this cue's events were added, and the last active sample is 1 |
| `CueObject.CueLifecycleProducer.ObserveEnqueued` | rust/src/diagnostic_runtime/cue_producer.rs:308-365 | Keeps the invariant and answers as CueAnswers.EnqueueAnswered says; a healthy cue went from admitted to enqueued, and exactly its wait span is open |
| `CueObject.CueLifecycleProducer.ObserveDispatched` | rust/src/diagnostic_runtime/cue_producer.rs:367-421 | Keeps the invariant and answers as CueAnswers.DispatchAnswered says; a healthy cue went from enqueued to dispatched: the wait span is closed and exactly the execution span is open |
| `CueObject.CueLifecycleProducer.ObserveCancelRequested` | rust/src/diagnostic_runtime/cue_producer.rs:423-457 | Keeps the invariant and answers as CueAnswers.CancelAnswered says; a healthy cue has its first cancel request recorded as the newest event |
| `CueObject.CueLifecycleProducer.ObserveTerminal` | rust/src/diagnostic_runtime/cue_producer.rs:468-543 | Every effect of the cue is told first, in some order, and then the cue's span is closed as CueAnswers.PlanAnswered and CueAnswers.CloseAnswered say, with the outcome and code of its end; the invariants of the cue and of every registered effect are kept, and a cue that ends well has nothing open and a last active sample of 0 |
| `CueObject.CueLifecycleProducer.ObserveRetired` | rust/src/diagnostic_runtime/cue_producer.rs:545-570 | Keeps the invariant and answers as CueAnswers.RetireAnswered says; retiring an ended cue changes nothing about it |
| `ActCall.RunLegal` | rust/src/act_call.rs:566-645 | Over every sequence of send, throw, close and clear with any driver results the reports are a legal script: admission first and once, one driver at most, nothing after the caller's exit, which has been reported exactly when the call is done; which exit that is says ActCall.RunExit |
| `ActCall.StepExit` | rust/src/act_call.rs:352-493 | An operation ends a live call exactly in one of five cases and reports that exit last: returned with the driver's exception if the driver was asked and raised, refused if the call never got a driver, cancelled if a cancellation was thrown and accepted, closed or cleared; admission, driver and cancel are reported before it exactly when they happened |
| `ActCall.RunExit` | rust/src/act_call.rs:566-645 | Over every run of a new call it is done exactly if some operation ended it, and the exit it reports is the one that operation decides |
| `ActCallRun.CallNeverMisreports` | rust/src/act_call.rs:352-493 | Over every run of a new call, with remote hooks of the same act and events of other producers before, between and after the reports, an act driven by a call never hits the duplicate-driver or duplicate-caller errors; a healthy act's caller has left exactly if the call is done, with the outcome and code of the exit that was reported, and it completed exactly if the operation that ended the call had the driver raise StopIteration |
| `ActCall.ActCoroutine.SendValue` | rust/src/act_call.rs:566-585 | Send in each phase keeps the script legal and ends the call exactly as ActCall.StepExit says; starting a call may fail at any stage |
| `ActCall.ActCoroutine.ThrowError` | rust/src/act_call.rs:587-606 | Throw in each phase keeps the script legal and ends the call exactly as ActCall.StepExit says; a rejected cancel keeps waiting |
| `ActCall.ActCoroutine.CloseCall` | rust/src/act_call.rs:608-618 | Close always ends the call, closed, after reporting a cancel |
| `ActCall.ActCoroutine.ClearCall` | rust/src/act_call.rs:643-645 | Clear always ends the call, cleared |
| `RuntimeAnswers.RunLifecycle` | rust/src/diagnostic_runtime/runtime_producer.rs:255-487 | Over every run of hooks, reported failures and foreign events: each emission is an event of the log, in order; every span is opened once and finished at most once; each phase of the record is what the log says of it; a closed run has finished all its spans, the run span last; an open phase at the finish is unreachable; a successful terminal outcome is the one emitted; and the run span is finished completed exactly if the lifecycle returned without error, cancelled with its code if it returned a cancellation, and otherwise with the failure of the start, else the earliest failure of a scene or of the stop before that return, else its own |
| `RuntimeAnswers.HooksAnswer` | rust/src/diagnostic_runtime/runtime_producer.rs:255-487 | For every hook and every answer of the hub: when it is legal, with which code the run fails otherwise, exactly which spans a legal one opens or finishes with which outcome and code, and what it records |
| `Runtime.StepKept` | rust/src/diagnostic_runtime/runtime_producer.rs:255-487 | Every hook keeps record, emissions and log in agreement, and whatever it adds to the log is among its emissions |
| `Runtime.StepsKept` | rust/src/diagnostic_runtime/runtime_producer.rs:224-228 | The first latched failure freezes the record, and a closed run emits nothing more |
| `RuntimeObject.StartProducer` | rust/src/diagnostic_runtime/runtime_producer.rs:167-192 | A producer exists exactly if the run span could be opened; it is in order, and the run span is the newest event and the only one it holds open |
| `RuntimeObject.RuntimeLifecycleProducer.ObserveHook` | rust/src/diagnostic_runtime/runtime_producer.rs:255-273 | Every hook answers as RuntimeAnswers.HooksAnswer says and keeps record, emissions and log in agreement; a latched failure and a closed run are final, a closed run has finished every span it opened, the run span last, and no run ends with an open phase |
| `Decimals.WireAcceptsPrinted` | rust/src/diagnostic_python/events.rs:258-265 | The wire parser accepts exactly the canonical texts within the size bound, and exactly the texts the printer can produce |
| `Decimals.TextIsValue` | rust/src/diagnostic_python/events.rs:210-224 | Two finite decimals print the same text exactly when they are the same number |
| `Decimals.PrintedDenotes` | rust/src/diagnostic_python/events.rs:210-224 | Every printed text is in the grammar, is not "-0" and denotes the printed value |
| `Decimals.TextFailsOnlyForSize` | rust/src/diagnostic_python/events.rs:210-224 | The printer's own grammar check never fails; it refuses only infinities, NaN and oversized texts |
| `Decimals.NormalizedIsFixed` | rust/src/diagnostic_python/events.rs:227-228 | Normalisation keeps value and text and is idempotent |
| `Digits.IntRoundTrip` | rust/src/diagnostic_python/events.rs:1403-1407 | Canonical integer text parses back |
| `Digits.ParseIntText` | rust/src/diagnostic_python/events.rs:1403-1407 | Parsing a canonical integer and printing it gives the text back |
| `EventCodec.EventRoundTrip` | rust/src/diagnostic_python/events.rs:1786-1919 | Every valid event without captured tool payloads, of all fourteen variants, written by the encoder's tables is read back unchanged by the decoder's |
| `EventCodec.EventBack` | rust/src/diagnostic_python/events.rs:1491-1661 | Every mapping the decoder accepts is a valid event, and the encoder writes the mapping back, as Python compares mappings |
| `EventTables.TablesAgree` | rust/src/diagnostic_python/events.rs:1125-1174 | Class attributes, encoder rows, closed field lists and decoder rows, written apart, agree for all fourteen variants and twelve detail classes: same names, each written as it is read, read no more strictly than the class asks |
| `EventTables.WriteEncodes` | rust/src/diagnostic_python/events.rs:1681-1919 | A way of writing that fits a type is the encoding of that type |
| `EventClasses.SchemaIsOk` | rust/src/diagnostic_python/events.rs:1125-1174 | No variant uses a wire field twice, at any depth |
| `CodecProofs.DecodeEncode` | rust/src/diagnostic_python/events.rs:1194-1256 | The same round trip for every field type: scopes, links, details, lists, options, entries |
| `CodecProofs.EncodeDecode` | rust/src/diagnostic_python/events.rs:1259-1387 | The same, backwards, for every field type |
| `CodecProofs.EntriesRoundTrip` | rust/src/diagnostic_python/events.rs:1769-1775 | Attributes and dimensions survive the round trip in order |
| `CodecProofs.EntriesBack` | rust/src/diagnostic_python/events.rs:1427-1446 | Accepted attributes and dimensions have unique ascending keys within bounds and encode back to the same object |
| `CodecProofs.ScalarRoundTrip` | rust/src/diagnostic_python/events.rs:1747-1760 | Tagged scalars survive the round trip |
| `CodecProofs.ScalarBack` | rust/src/diagnostic_python/events.rs:1389-1412 | An accepted tagged scalar encodes back to the same object |
| `CustomNormal.NormalizeCustomEntries` | rust/src/diagnostic_python/custom.rs:93-123 | The loop accepts a mapping exactly when keys are unique and within bounds and every value normalises, and yields the pairs in byte order |
| `CustomNormal.OrderIrrelevant` | rust/src/diagnostic_python/custom.rs:93-123 | Two mappings with the same items in any order have the same normal form, or none |
| `CustomNormal.NormalFormAccepted` | rust/src/diagnostic_python/custom.rs:93-123 | A normal form has unique byte-sorted keys within bounds and values the event accepts |
| `CustomNormal.NormalizeOrderedPairs` | rust/src/diagnostic_python/events.rs:668-693 | The constructors' loop accepts only pairs already in canonical order and normalises their values |
| `CustomNormal.AcceptedIsFixed` | rust/src/diagnostic_python/events.rs:668-693 | Accepted pairs, and so every normal form, are fixed points of the constructors' normaliser |
| `CustomNormal.OrderedMapEnumerates` | rust/src/diagnostic_runtime/custom_binding.rs:510-524 | Collected into the ordered map, the encoded pairs are enumerated as they were |
| `SpanStacks.PublishAll` | rust/src/diagnostic_runtime/custom_binding.rs:644-708 | Over every run with task death and address reuse the address-keyed stacks publish exactly what stacks keyed by task identity would, each publication at its own task's innermost open span |
| `SpanStacks.ReferenceWellPlaced` | rust/src/diagnostic_runtime/custom_binding.rs:644-708 | In the reference every start and instant refers to its own task's innermost open span or its domain, and every finish closes it |
| `SpanStacks.CustomRunBinding.CurrentParent` | rust/src/diagnostic_runtime/custom_binding.rs:159-173 | The innermost span of this very task, or the containing span; nobody else sees a difference |
| `SpanStacks.CustomRunBinding.PrepareSpanTask` | rust/src/diagnostic_runtime/custom_binding.rs:175-192 | As above, and the task has a stack of its own afterwards |
| `SpanStacks.CustomRunBinding.PushSpan` | rust/src/diagnostic_runtime/custom_binding.rs:194-202 | Pushes onto the task's own stack, or reports that it has none |
| `SpanStacks.CustomRunBinding.PopSpan` | rust/src/diagnostic_runtime/custom_binding.rs:204-223 | Pops the innermost span of this very task; an entry of a dead task is dropped |
| `SpanStacks.CustomPublisher.StartSpan` | rust/src/diagnostic_runtime/custom_binding.rs:682-697 | Parent before admission, push after it, with any steps of other tasks in between: the push always finds the prepared stack and the span is placed as if the others had gone first |
| `SpanStacks.CustomPublisher.FinishSpan` | rust/src/diagnostic_runtime/custom_binding.rs:698-707 | Closes the innermost span; without one it is a usage error and nothing else |
| `Budget.BudgetConserved` | rust/src/diagnostic_sink/budget.rs:156-198 | Over every interleaving of loads and exchanges the word decodes to the sum of holdings within both limits; the only refusals ever reported are that the request's own admission is not representable or that the limits do not allow it, never an overflow, a release beyond usage or an unrepresentable attempt |
| `Budget.RuntimeConserved` | rust/src/diagnostic_sink/budget.rs:120-198 | On a fresh budget with the limits of the runtime any number of clients stay within them over every run, and the word is the sum of what they hold |
| `Budget.BeginIff` | rust/src/diagnostic_sink/budget.rs:156-198 | A request that can be represented starts with the current word, any other is refused at once with what cannot be represented |
| `Budget.ExchangeIff` | rust/src/diagnostic_sink/budget.rs:156-198 | An exchange takes effect exactly if the limits allow it on the observed word, that word is still current and the exchange does not fail without cause; word and holdings then change together; otherwise the limits answer or the client observes again |
| `Budget.ReleaseNeverDenied` | rust/src/diagnostic_sink/budget.rs:156-198 | Over every run, spurious exchange failures included, a pure release is never answered with anything but a grant |
| `Budget.UnpackPack` | rust/src/diagnostic_sink/budget.rs:207-218 | Unpacking undoes packing |
| `Budget.PackUnpack` | rust/src/diagnostic_sink/budget.rs:207-218 | Packing undoes unpacking, for every word |
| `Budget.RuntimeBudget.TryReplace` | rust/src/diagnostic_sink/budget.rs:156-198 | Whatever other clients write in between, the outcome is decided on the word current when it takes effect, and only a grant changes it |
| `Sink.NoLostWakeup` | rust/src/diagnostic_python/sink.rs:235-302 | After a close every waiter registered and not cancelled by then is called exactly once, in order; once results are delivered nobody waits, everybody not cancelled has the one summary, and the list is empty |
| `Sink.RunKept` | rust/src/diagnostic_python/sink.rs:235-302 | The state only moves forward and the summary, once set, never changes, over every interleaving |
| `Sink.LateWaiter` | rust/src/diagnostic_python/sink.rs:251-256 | A waiter that comes after the close gets the summary at once |
| `Sink.DiagnosticSink.CloseSink` | rust/src/diagnostic_python/sink.rs:286-302 | Closes only from sealed, clears the list and calls each callback in order: the close step and all its calls of the interleaving model |
| `Sink.DiagnosticSink.AddWaiter` | rust/src/diagnostic_python/sink.rs:251-258 | Refuses while unbound, answers when closed, registers otherwise: the register step of the interleaving model |
| `Sink.DiagnosticSink.RemoveWaiter` | rust/src/diagnostic_python/sink.rs:261-266 | Removes the callback if listed and nothing else: the cancel step of the interleaving model |
| `Writer.WriterConserves` | rust/src/diagnostic_runtime/bootstrap.rs:1609-1766 | Over every interleaving of producers and writer with any failures, the store is a prefix of what was accepted and the rest is still tracked in order; reservations, fatal slot and limits are accounted for exactly; no sequence, overflow or accounting error occurs |
| `Writer.WriterRuns` | rust/crates/troupe-diagnostics-runtime/src/store/admission.rs:232-311 | From the start of a run: reserved and uncommitted events never exceed the event and byte limits, the only batch error is a clock that went back, and a reply names the last committed sequence |
| `Writer.ReserveIff` | rust/crates/troupe-diagnostics-runtime/src/store/admission.rs:232-311 | A reservation is granted exactly when the ingress is open for it and the events and bytes reserved, or accepted and not committed, stay within 32768 and 64 MiB; a normal one that does not fit seals the ingress for good and authorizes the fatal one, and nothing else changes |
| `Writer.ProducersAnswer` | rust/crates/troupe-diagnostics-runtime/src/store/admission.rs:312-432 | A committed reservation is the next event of the history and nothing is out of line; a dropped one leaves no trace and a fatal one can be made again; sealing and outside failures change exactly their flags |
| `Writer.MovesAnswer` | rust/src/diagnostic_runtime/bootstrap.rs:1666-1704 | A writer with free hands takes the next event of the history, pushes what it holds, and gives up what is pending exactly when that is due or to be flushed; only a clock that went back stops it |
| `Writer.CommitIff` | rust/src/diagnostic_runtime/bootstrap.rs:1858-1885 | A batch is in the store, in order and at once, exactly if the transaction succeeded, even if the measurement after it fails; otherwise nothing changes but the fault |
| `Writer.ActionsAnswer` | rust/src/diagnostic_runtime/bootstrap.rs:1609-1704 | The writer stops for an exhausted ingress before the quota, only a finalize command leads to a finalized store, and the drain ends exactly when nothing is reserved and everything accepted is in the store |
| `Writer.EndingAnswers` | rust/src/diagnostic_runtime/bootstrap.rs:1706-1766 | An abort closes the writer; a finalize goes through store, measurement and reply in this order and fails, with its own fault, where one of them fails |
| `Writer.ReplyMeansCommitted` | rust/src/diagnostic_runtime/bootstrap.rs:1706-1766 | If nothing could be accepted any more when the drained status was seen, a successful reply means that everything accepted is committed, whatever producers do before the reply |
| `Writer.ReplyTrueIff` | rust/src/diagnostic_runtime/bootstrap.rs:1706-1766 | Every reply that can follow the look at the drained status vouches for everything accepted if and only if at that look the ingress was sealed and the fatal reservation spent or not authorized; and, failures outside included, if and only if it was sealed and the fatal reservation spent |
| `Writer.UnsealedReplyMisses` | rust/src/diagnostic_runtime/bootstrap.rs:1706-1766 | Without the seal there is a run whose successful reply misses an accepted event |
| `Writer.FailureReplyMisses` | rust/src/diagnostic_runtime/bootstrap.rs:629-640 | Sealed, sampled, then a failure outside: the fatal event it authorizes is accepted and the successful reply misses it |
| `Writer.ReplyStaysTrue` | rust/src/diagnostic_runtime/bootstrap.rs:1706-1766 | Once nothing can be accepted any more, a true reply stays true over any continuation |
| `Writer.DrainPass` | rust/src/diagnostic_runtime/bootstrap.rs:1666-1704 | One pass of a draining writer over a sealed ingress, with producers acting before every look at the queue: everything accepted before is in the store, with no reservation left that is everything and the drain is over; with a steady clock and a working store the pass cannot fail |
| `Writer.CommitKept` | rust/src/diagnostic_runtime/bootstrap.rs:1858-1885 | Committing a batch keeps the conservation invariant, for every failure point |
| `Writer.PushConserves` | rust/crates/troupe-diagnostics-runtime/src/store/batch.rs:123-151 | A batch is given up exactly when it has 512 events or a mebibyte or its oldest event has waited 25 milliseconds; the only error is a clock that went back, nothing pushed is lost, and what stays pending is neither a full batch nor due |
| `Writer.PendingConserves` | rust/crates/troupe-diagnostics-runtime/src/store/batch.rs:153-168 | Polling gives up all that is pending exactly when it is due, flushing exactly when there is something; nothing is lost and the only error is a clock that went back |
| `Writer.EnvKept` | rust/crates/troupe-diagnostics-runtime/src/store/admission.rs:232-432 | Reservations, commits, drops and seals of producers keep the conservation invariant |
| `Deadline.ShutDown` | rust/src/diagnostic_runtime/bootstrap.rs:1330-1457 | A whole shutdown, whatever the writer answers, requests no more waiting than the configured drain timeout; it joins only a writer that took both commands and finished |
| `Deadline.WriterSupervisor.SendUntil` | rust/src/diagnostic_runtime/bootstrap.rs:1476-1501 | Command delivery polls until taken, refused or past the one deadline, and stays on budget; the result is the channel's first answer other than full |
| `Deadline.WriterSupervisor.JoinUntil` | rust/src/diagnostic_runtime/bootstrap.rs:1503-1526 | The join polls until finished or past the one deadline, and stays on budget; it joins only a finished thread |
| `Deadline.WriterSupervisor.EnsureDeadline` | rust/src/diagnostic_runtime/bootstrap.rs:1439-1445 | The deadline is fixed by the first shutdown action and never moves |
| `Deadline.WriterSupervisor.Finalize` | rust/src/diagnostic_runtime/bootstrap.rs:1330-1373 | Sends and waits against the one deadline; a success is the writer's own watermark, and the writer is abandoned only if it hung up, lost the reply or let the deadline pass |
| `Deadline.WriterSupervisor.JoinAfter` | rust/src/diagnostic_runtime/bootstrap.rs:1397-1437 | Closes and joins against the deadline already set; never joins an abandoned writer |
| `CueCapture.AlwaysCounted` | rust/crates/troupe-diagnostics-runtime/src/store/admission.rs:110-161 | Over every interleaving of calls and loads each suppressed cue is counted exactly once: still by the ingress, on its way in a call, in a reported gap, or in a gap whose start was missing; an ingress that is not paused has suppressed nothing |
| `CueCapture.PausedIff` | rust/crates/troupe-diagnostics-runtime/src/store/admission.rs:110-161 | Over every run capture is paused exactly if the last step that paused or resumed it paused it: at or above three quarters of a limit it pauses, at or below a quarter of both it resumes, and in between nothing changes |
| `CueCapture.DecideIff` | rust/crates/troupe-diagnostics-runtime/src/store/admission.rs:110-161 | A new cue is suppressed exactly while capture is paused or pauses now and the ingress is not sealed, and resumes with the count exactly if it finds capture paused and the load light and something was suppressed |
| `CueCapture.GapsTellAll` | rust/src/diagnostic_runtime/load_producer.rs:402-426 | While every passage of the gap lock is in order, whatever the clock reads, no gap start is ever missing, every suppressed cue is told of by exactly one gap or still counted, and each gap starts with its first cue and spans them all |
| `CueCapture.ExactIff` | rust/src/diagnostic_runtime/load_producer.rs:265-300 | Over every interleaving of count lock, clock reading and gap lock in which no two calls read the same time, the gaps are exact if and only if no cue passes with an older reading than the open gap's start and every resumption passes with as many cues on their way as are counted after it and with a reading not older than its cues' |
| `CueCapture.OverlapMisreports` | rust/src/diagnostic_runtime/load_producer.rs:264-301 | An overlap without any loss whose gap ends before its last cue and leaves a stale start behind |
| `CueCapture.OvertakingMisreports` | rust/src/diagnostic_runtime/load_producer.rs:402-426 | Two suppressed cues that pass in the other order than they read the clock: every resumption is balanced and the gap starts after one of its cues |
| `CueCapture.WholeExact` | rust/src/diagnostic_runtime/load_producer.rs:475-488 | Uninterrupted calls, while the clock does not run back, never miss a gap start and leave record and history in agreement |
| `CueCapture.OverlapLoses` | rust/src/diagnostic_runtime/load_producer.rs:264-301 | The count and the start of a gap sit behind two locks: two families of overlapping calls in which a gap is lost |
| `CueCapture.CaptureContext.BeginCueCapture` | rust/src/diagnostic_runtime/load_producer.rs:402-426 | An uninterrupted call is its decision and its passage through the gap; the reported gap is the one added to the history |
| `CueCapture.CaptureContext.FinishCueCapture` | rust/src/diagnostic_runtime/load_producer.rs:475-488 | The end of a run reports whatever is still suppressed as a last gap |

## Left out

- Interleaving inside a hook: a hook holds its own lock for its whole body and is one step here; admissions of other producers between two admissions of one hook are not modelled, nor is the window between span start and registration in `construction_started`.
- The observation bridge itself: which tool, thinking and custom spans it opens and when it closes them is the choice of foreign steps; that it closes them before a turn ends is not derived from its code.
- Registry keys: producers are found by unique identifier; the duplicate-key errors of the registries (`*-already-started`, `*-install-raced`, the two-index act and runtime registries) are not modelled.
- Where stamps come from: that a producer's own clock does not run back, and how far the bridge buffers an observation before it hands it on, is not derived; stamps are free, and the absence of refusals names the condition on them.
- Subscriber-local streams, the actor producer, act authority generations: easy members next to the machines modelled here.
- Suppressed cues: the stage's cues are captured ones; a suppressed cue writes nothing to the stream of the run.
- Deadline: an addition that overflows the platform's clock and falls back to the current time is not modelled.
- Writer: real files, SQLite, projections and the progress supervisor's own stall detection are not modelled; commit, quota and finalize outcomes are inputs.
- Codec: JSON text syntax, UTF-8 encoding and UUID bit layout are not modelled; keys are byte strings, a UUID is its canonical text, and key order inside closed objects is ignored as Python's dict equality does.
- Captured tool payloads and frozen JSON: the codec does not carry them.
- CustomNormal: floats enter as the decimal their shortest representation denotes; the 64 KiB payload bound is not modelled.
- Budget.PackUnpack: words are natural numbers below 2^64; `Budget.PackBits` shows that shift, or and mask on 64-bit vectors are the same packing.
- SpanStacks: closing custom spans through another task or out of order via context objects is not modelled; the stack level is.
- Sink: validation of the summary's own fields is not modelled; a summary is an opaque value.
- ActCall: the Python plumbing of futures and shields is reduced to their observable results.
- Bootstrap, server, registry publication, CLI and packaging: I/O wiring.
