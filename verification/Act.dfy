/** The lifecycle of one act: the producer record behind its mutex, every transition as a step
    function over that record and the stream, and the record's usage-finalization tokens. */
module Act {
  import opened Events
  import opened Hub

  const CALLER_CANCELLED := "act-caller-cancelled"
  const CALLER_FAILED := "act-caller-failed"

  datatype Settlement = NotSubmitted | Authoritative | Unknown

  /** The usage identity shared with the slot holder. */
  datatype Usage = Usage(promptSubmitted: bool, settlement: Option<Settlement>)

  function MarkPromptSubmitted(u: Usage): Option<Usage> {
    if u.promptSubmitted || u.settlement.Some? then None else Some(u.(promptSubmitted := true))
  }

  function Settle(u: Usage, settlement: Settlement): Option<Usage> {
    if u.settlement == Some(settlement) then Some(u)
    else if u.settlement.Some? || u.promptSubmitted == settlement.NotSubmitted? then None
    else Some(u.(settlement := Some(settlement)))
  }

  datatype ActCode =
    | DriverBeforeLifecycle | DriverTransitionInvalid | CancelBeforeLifecycle
    | TurnIdentityMismatch | TurnProviderMismatch | TurnGenerationMismatch
    | PromptBeforeDriver | PromptTransitionInvalid | UsageSlotPromptInvalid
    | HandoffBeforeTurn | HandoffTransitionInvalid
    | TurnTerminalTransitionInvalid | TurnTerminalDetailInvalid | NotSubmittedAfterTurnStart
    | UsageSlotSettlementInvalid | TurnTerminalBeforeStart
    | CallerFinishBeforeStart | CallerFinishTransitionInvalid
    | UsageAckTransitionInvalid | FinishBeforeTurnTerminal | AdmissionHookDuplicated

  /** Why a producer stopped: a failed admission, an illegal transition, or a broken `expect`. */
  datatype Fault = AdmissionFailed | StateFailed(code: ActCode) | Panicked

  datatype ActState = ActState(
    actSpan: Option<nat>,
    callerSpan: Option<nat>,
    admitted: Option<nat>,
    waiting: Option<nat>,
    prompt: Option<nat>,
    turnSpan: Option<nat>,
    turnScope: Option<Scope>,
    activity: Option<nat>,
    cancel: Option<nat>,
    handoff: Option<nat>,
    turnTerminalSequence: Option<nat>,
    turnTerminal: Option<Terminal>,
    settlement: Option<Settlement>,
    callerTerminal: Option<Terminal>,
    usageSlot: bool,
    notified: bool,
    usageAck: Option<nat>,
    finishAttempted: bool,
    failed: Option<Fault>,
    usage: Usage)

  const PREPARED: ActState :=
    ActState(None, None, None, None, None, None, None, None, None, None, None, None, None, None,
             true, false, None, false, None, Usage(false, None))

  /** The fields that never change: identity, provider and scope (with the session generation). */
  datatype Producer = Producer(id: nat, scope: Scope, identity: nat, provider: nat)

  datatype Metadata = Metadata(identity: nat, provider: nat, generation: nat)

  datatype Exit = Returned | AdmissionRefused | ExitCancelled | Closed | Cleared

  datatype Raised = NoError | StopIteration | CancelledError | OtherError

  function CallerTerminal(exit: Exit, error: Raised): Terminal {
    match exit
    case Returned =>
      if error.StopIteration? then COMPLETED
      else if error.CancelledError? then Terminal(Cancelled, Some(CALLER_CANCELLED))
      else Terminal(Failed, Some(CALLER_FAILED))
    case AdmissionRefused => Terminal(Failed, Some(CALLER_FAILED))
    case _ => Terminal(Cancelled, Some(CALLER_CANCELLED))
  }

  /** A remote that did not complete decides; then a failed caller; then the remote; then the caller. */
  function ActTerminal(caller: Terminal, remote: Option<Terminal>): Terminal {
    if remote.Some? && remote.value.outcome != Completed then remote.value
    else if caller.outcome == Failed then caller
    else if remote.Some? then remote.value
    else caller
  }

  predicate DetailIsValid(outcome: Outcome, code: Option<string>) {
    outcome.Completed? <==> code.None?
  }

  function MetadataFault(p: Producer, m: Metadata): Option<ActCode> {
    if m.identity != p.identity then Some(TurnIdentityMismatch)
    else if m.provider != p.provider then Some(TurnProviderMismatch)
    else if p.scope.generation.Some? && p.scope.generation.value != m.generation then Some(TurnGenerationMismatch)
    else None
  }

  function TurnScope(p: Producer, m: Metadata): Scope {
    Scope(p.scope.scene, p.scope.actor, p.scope.cue, None, p.scope.act, None, Some(m.generation))
  }

  function Fail(s: ActState, fault: Fault): ActState {
    if s.failed.None? then s.(failed := Some(fault)) else s
  }

  function FailState(s: ActState, code: ActCode): ActState {
    Fail(s, StateFailed(code))
  }

  function FailAdmission(s: ActState): ActState {
    Fail(s, AdmissionFailed)
  }

  /** The latest milestone reached, tried from the last kind to the first. */
  function CancelSource(s: ActState): Option<nat> {
    Or(s.turnTerminalSequence, Or(s.handoff, Or(s.activity, Or(s.prompt, Or(s.waiting, s.admitted)))))
  }

  function CallerSource(s: ActState): Option<nat> {
    Or(s.cancel, Or(s.turnTerminalSequence, Or(s.activity, Or(s.waiting, s.admitted))))
  }

  // ----- Transitions -----

  function StartAct(p: Producer, s: ActState, h: Stream): (ActState, Stream) {
    var a := Admit(h, Start(p.scope, ActLifecycle, None, []));
    if a.sequence.None? then (FailAdmission(s), a.stream) else
    var s1 := s.(actSpan := a.sequence);
    var b := Admit(a.stream, Start(p.scope, ActCaller, a.sequence, []));
    if b.sequence.None? then (FailAdmission(s1), b.stream) else
    var s2 := s1.(callerSpan := b.sequence);
    var c := Admit(b.stream,
                   Note(p.scope, ActAdmitted, a.sequence.value, Caused(b.sequence.value, FollowsFrom)));
    if c.sequence.None? then (FailAdmission(s2), c.stream)
    else (s2.(admitted := c.sequence), c.stream)
  }

  function DriverStarted(p: Producer, s: ActState, h: Stream): (ActState, Stream) {
    if s.failed.Some? then (s, h)
    else if s.actSpan.None? || s.admitted.None? then (FailState(s, DriverBeforeLifecycle), h)
    else if s.waiting.Some? || s.callerTerminal.Some? then (FailState(s, DriverTransitionInvalid), h)
    else
      var a := Admit(h, Note(p.scope, ActWaitingReady, s.actSpan.value, Caused(s.admitted.value, FollowsFrom)));
      if a.sequence.None? then (FailAdmission(s), a.stream) else (s.(waiting := a.sequence), a.stream)
  }

  function CancelRequested(p: Producer, s: ActState, h: Stream): (ActState, Stream) {
    if s.failed.Some? || s.cancel.Some? then (s, h)
    else if s.actSpan.None? || s.callerSpan.None? then (FailState(s, CancelBeforeLifecycle), h)
    else if s.callerTerminal.Some? then (s, h)
    else if CancelSource(s).None? then (Fail(s, Panicked), h)
    else
      var a := Admit(h, Note(p.scope, ActCancelRequested, s.callerSpan.value,
                             Caused(CancelSource(s).value, Handoff)));
      if a.sequence.None? then (FailAdmission(s), a.stream) else (s.(cancel := a.sequence), a.stream)
  }

  function PromptGuard(p: Producer, s: ActState, m: Metadata): Option<ActCode> {
    if MetadataFault(p, m).Some? then MetadataFault(p, m)
    else if s.actSpan.None? || s.waiting.None? then Some(PromptBeforeDriver)
    else if s.prompt.Some? || s.turnSpan.Some? || s.callerTerminal.Some? || s.settlement.Some?
    then Some(PromptTransitionInvalid)
    else if MarkPromptSubmitted(s.usage).None? then Some(UsageSlotPromptInvalid)
    else None
  }

  /** The four admissions of a submitted prompt: instant, turn span, active counter, activity. */
  function OpenTurn(p: Producer, s: ActState, h: Stream, m: Metadata): (ActState, Stream)
    requires s.actSpan.Some? && s.waiting.Some?
  {
    var scope := TurnScope(p, m);
    var a := Admit(h, Note(p.scope, ActPromptSubmitted, s.actSpan.value, Caused(s.waiting.value, FollowsFrom)));
    if a.sequence.None? then (FailAdmission(s), a.stream) else
    var b := Admit(a.stream, Start(scope, AgentTurn, s.actSpan, Caused(a.sequence.value, Dispatch)));
    if b.sequence.None? then (FailAdmission(s), b.stream) else
    var c := Admit(b.stream, Sample(scope, AgentTurnActive, 1, Caused(b.sequence.value, FollowsFrom)));
    if c.sequence.None? then (FailAdmission(s), c.stream) else
    var d := Admit(c.stream, Note(scope, AgentTurnActivity, b.sequence.value, Caused(c.sequence.value, FollowsFrom)));
    if d.sequence.None? then (FailAdmission(s), d.stream)
    else (s.(prompt := a.sequence, turnSpan := b.sequence, turnScope := Some(scope), activity := d.sequence), d.stream)
  }

  function PromptSubmitted(p: Producer, s: ActState, h: Stream, m: Metadata): (ActState, Stream) {
    if s.failed.Some? then (s, h)
    else if PromptGuard(p, s, m).Some? then (FailState(s, PromptGuard(p, s, m).value), h)
    else OpenTurn(p, s.(usage := MarkPromptSubmitted(s.usage).value), h, m)
  }

  function SupervisorHandoff(p: Producer, s: ActState, h: Stream, m: Metadata): (ActState, Stream) {
    if s.failed.Some? then (s, h)
    else if MetadataFault(p, m).Some? then (FailState(s, MetadataFault(p, m).value), h)
    else if s.actSpan.None? || s.activity.None? then (FailState(s, HandoffBeforeTurn), h)
    else if s.handoff.Some? || s.turnTerminal.Some? then (FailState(s, HandoffTransitionInvalid), h)
    else
      var source := Or(s.cancel, s.activity).value;
      var a := Admit(h, Note(p.scope, ActSupervisorHandoff, s.actSpan.value, Caused(source, Handoff)));
      if a.sequence.None? then (FailAdmission(s), a.stream) else (s.(handoff := a.sequence), a.stream)
  }

  /** The remote terminal as the act sees it; absent when no prompt was submitted. */
  function Remote(s: ActState): Option<Terminal> {
    if s.settlement == Some(NotSubmitted) then None else s.turnTerminal
  }

  function MaybeFinish(p: Producer, s: ActState, h: Stream): (ActState, Stream) {
    if s.finishAttempted || s.failed.Some? then (s, h)
    else if s.actSpan.None? || s.callerTerminal.None? || s.settlement.None? || s.usageAck.None? then (s, h)
    else if s.settlement.value != NotSubmitted && s.turnTerminal.None?
    then (FailState(s, FinishBeforeTurnTerminal), h)
    else
      var terminal := ActTerminal(s.callerTerminal.value, Remote(s));
      var s1 := s.(finishAttempted := true);
      var a := Admit(h, Finish(p.scope, s.actSpan.value, terminal, Caused(s.usageAck.value, FollowsFrom)));
      if a.sequence.None? then (FailAdmission(s1), a.stream) else (s1, a.stream)
  }

  function TerminalGuard(p: Producer, s: ActState, m: Metadata, settlement: Settlement,
                         outcome: Outcome, code: Option<string>): Option<ActCode>
  {
    if s.settlement.Some? || s.turnTerminal.Some? then Some(TurnTerminalTransitionInvalid)
    else if !DetailIsValid(outcome, code) then Some(TurnTerminalDetailInvalid)
    else if settlement.NotSubmitted? then
      if s.prompt.Some? || s.turnSpan.Some? then Some(NotSubmittedAfterTurnStart)
      else if Settle(s.usage, settlement).None? then Some(UsageSlotSettlementInvalid)
      else None
    else if s.turnSpan.None? || s.turnScope.None? || s.activity.None? then Some(TurnTerminalBeforeStart)
    else None
  }

  /** The terminal instant of a turn, followed by the settled instant when the settlement is
      authoritative. */
  function AnnounceTerminal(s: ActState, h: Stream, settlement: Settlement): Admission
    requires s.turnSpan.Some? && s.turnScope.Some? && s.activity.Some?
  {
    var scope, span := s.turnScope.value, s.turnSpan.value;
    var a := Admit(h, Note(scope, AgentTurnTerminal, span, Caused(Or(s.handoff, s.activity).value, Return)));
    if a.sequence.None? || !settlement.Authoritative? then a
    else Admit(a.stream, Note(scope, AgentTurnSettled, span, Caused(a.sequence.value, FollowsFrom)))
  }

  /** The turn's finish and inactive sample; the settlement is recorded only after both. */
  function EndTurn(s: ActState, h: Stream, source: nat, settlement: Settlement, terminal: Terminal): (ActState, Stream)
    requires s.turnSpan.Some? && s.turnScope.Some?
  {
    var scope := s.turnScope.value;
    var c := Admit(h, Finish(scope, s.turnSpan.value, terminal, Caused(source, Return)));
    if c.sequence.None? then (FailAdmission(s), c.stream) else
    var d := Admit(c.stream, Sample(scope, AgentTurnActive, 0, Caused(c.sequence.value, FollowsFrom)));
    if d.sequence.None? then (FailAdmission(s), d.stream)
    else if Settle(s.usage, settlement).None? then (FailState(s, UsageSlotSettlementInvalid), d.stream)
    else (s.(usage := Settle(s.usage, settlement).value, turnTerminalSequence := d.sequence,
             turnTerminal := Some(terminal), settlement := Some(settlement)), d.stream)
  }

  function CloseTurn(s: ActState, h: Stream, settlement: Settlement, terminal: Terminal): (ActState, Stream)
    requires s.turnSpan.Some? && s.turnScope.Some? && s.activity.Some?
  {
    var b := AnnounceTerminal(s, h, settlement);
    if b.sequence.None? then (FailAdmission(s), b.stream)
    else EndTurn(s, b.stream, b.sequence.value, settlement, terminal)
  }

  function SettleUnsubmitted(s: ActState): ActState {
    if Settle(s.usage, NotSubmitted).None? then FailState(s, UsageSlotSettlementInvalid)
    else s.(usage := Settle(s.usage, NotSubmitted).value, settlement := Some(NotSubmitted))
  }

  function TurnTerminal(p: Producer, s: ActState, h: Stream, m: Metadata, settlement: Settlement,
                        outcome: Outcome, code: Option<string>): (ActState, Stream)
  {
    if s.failed.Some? then (s, h)
    else if MetadataFault(p, m).Some? then (FailState(s, MetadataFault(p, m).value), h)
    else if s.settlement == Some(NotSubmitted) && settlement.NotSubmitted? then MaybeFinish(p, s, h)
    else
      var guard := TerminalGuard(p, s, m, settlement, outcome, code);
      if guard.Some? then (FailState(s, guard.value), h)
      else if settlement.NotSubmitted? then MaybeFinish(p, SettleUnsubmitted(s), h)
      else
        var (s1, h1) := CloseTurn(s, h, settlement, Terminal(outcome, code));
        MaybeFinish(p, s1, h1)
  }

  function CallerGuard(s: ActState): Option<Fault> {
    if s.callerSpan.None? then Some(StateFailed(CallerFinishBeforeStart))
    else if s.callerTerminal.Some? then Some(StateFailed(CallerFinishTransitionInvalid))
    else if CallerSource(s).None? then Some(Panicked)
    else None
  }

  /** A caller that leaves before any prompt settles the act as not submitted. */
  function SettleCaller(s: ActState): ActState {
    if s.prompt.None? && s.settlement.None? then SettleUnsubmitted(s) else s
  }

  function RecordCaller(p: Producer, s: ActState, h: Stream, terminal: Terminal): (ActState, Stream)
    requires s.callerSpan.Some? && CallerSource(s).Some?
  {
    var relation := if terminal.outcome.Cancelled? then Handoff else Return;
    var a := Admit(h, Finish(p.scope, s.callerSpan.value, terminal, Caused(CallerSource(s).value, relation)));
    if a.sequence.None? then (FailAdmission(s), a.stream)
    else MaybeFinish(p, SettleCaller(s.(callerTerminal := Some(terminal))), a.stream)
  }

  function CallerFinished(p: Producer, s: ActState, h: Stream, exit: Exit, error: Raised): (ActState, Stream) {
    if s.failed.Some? then (s, h)
    else if CallerGuard(s).Some? then (Fail(s, CallerGuard(s).value), h)
    else RecordCaller(p, s, h, CallerTerminal(exit, error))
  }

  function TakeUsageSlot(s: ActState): (ActState, bool) {
    if s.failed.Some? || s.actSpan.None? || s.finishAttempted then (s, false)
    else (s.(usageSlot := false), s.usageSlot)
  }

  function TakeSettlementNotification(s: ActState): (ActState, bool) {
    if s.failed.Some? || s.settlement.None? || s.notified then (s, false)
    else (s.(notified := true), true)
  }

  function UsageFinalized(p: Producer, s: ActState, h: Stream, sequence: nat): (ActState, Stream) {
    if s.failed.Some? then (s, h)
    else if s.usageSlot || s.usageAck.Some? || s.settlement.None? then (FailState(s, UsageAckTransitionInvalid), h)
    else MaybeFinish(p, s.(usageAck := Some(sequence)), h)
  }

  /** The span custom and tool events of the act are placed in, while the act is live. */
  function ContainingSpan(s: ActState): Option<nat> {
    if s.failed.Some? || s.finishAttempted || s.actSpan.None? then None
    else if s.turnSpan.Some? && s.turnTerminal.None? then s.turnSpan
    else s.actSpan
  }

  // ----- One act under its drivers -----

  /** A finished act leaves the registry: no later hook finds it. */
  predicate Retired(s: ActState) {
    s.finishAttempted && s.failed.None?
  }

  /** The usage slot and its acknowledgement are single-use values: neither can be copied. */
  datatype Token = InProducer | SlotHeld | AckHeld(sequence: nat) | Spent

  datatype Act = Act(producer: Producer, state: ActState, token: Token)

  datatype Op =
    | OpDriverStarted
    | OpCancelRequested
    | OpAdmittedAgain
    | OpPromptSubmitted(metadata: Metadata)
    | OpSupervisorHandoff(metadata: Metadata)
    | OpTurnTerminal(metadata: Metadata, settlement: Settlement, outcome: Outcome, code: Option<string>)
    | OpCallerFinished(exit: Exit, error: Raised)
    | OpTakeUsageSlot
    | OpAcknowledge(usageSequence: nat)
    | OpUsageFinalized
    | OpTakeNotification

  /** What a hook does to the record of an act that is still registered. */
  function Apply(p: Producer, s: ActState, h: Stream, op: Op): (ActState, Stream) {
    match op
    case OpDriverStarted => DriverStarted(p, s, h)
    case OpCancelRequested => CancelRequested(p, s, h)
    case OpAdmittedAgain => (FailState(s, AdmissionHookDuplicated), h)
    case OpPromptSubmitted(m) => PromptSubmitted(p, s, h, m)
    case OpSupervisorHandoff(m) => SupervisorHandoff(p, s, h, m)
    case OpTurnTerminal(m, settlement, outcome, code) => TurnTerminal(p, s, h, m, settlement, outcome, code)
    case OpCallerFinished(exit, error) => CallerFinished(p, s, h, exit, error)
    case OpTakeUsageSlot => (TakeUsageSlot(s).0, h)
    case OpTakeNotification => (TakeSettlementNotification(s).0, h)
    case OpAcknowledge(_) => (s, h)
    case OpUsageFinalized => (s, h)
  }

  /** The acknowledgement consumes the slot once the shared identity is settled; handing the
      acknowledgement back consumes it in turn. */
  function Step(a: Act, h: Stream, op: Op): (Act, Stream) {
    var p, s := a.producer, a.state;
    match op
    case OpAcknowledge(sequence) =>
      (if a.token.SlotHeld? && s.usage.settlement.Some? then a.(token := AckHeld(sequence)) else a, h)
    case OpUsageFinalized =>
      if !a.token.AckHeld? then (a, h)
      else if Retired(s) then (a.(token := Spent), h)
      else
        var (s', h') := UsageFinalized(p, s, h, a.token.sequence);
        (a.(state := s', token := Spent), h')
    case _ =>
      if Retired(s) then (a, h)
      else
        var (s', h') := Apply(p, s, h, op);
        var given := op.OpTakeUsageSlot? && TakeUsageSlot(s).1;
        (a.(state := s', token := if given then SlotHeld else a.token), h')
  }
}
