/** Whole runs of one act: every hook keeps the full invariant, and so does every step of any
    other producer on the same stream. */
module ActRun {
  import opened Events
  import opened Hub
  import opened Act
  import opened ActProofs
  import opened ActMarks
  import opened ActClosings
  import opened Validator

  // ----- The turn-active counter -----

  function TurnSample(s: ActState): Option<nat> {
    if s.turnSpan.None? then None else if s.turnTerminal.None? then Some(1) else Some(0)
  }

  /** The last AgentTurnActive sample of a healthy act is 1 exactly while its turn span is open. */
  predicate Sampled(p: Producer, s: ActState, log: seq<Event>) {
    s.failed.None? ==> LastSample(log, AgentTurnActive, ActOwner(p.id)) == TurnSample(s)
  }

  lemma MaybeFinishSampled(p: Producer, s: ActState, h: Stream)
    requires Sampled(p, s, h.log)
    ensures var r := MaybeFinish(p, s, h); Sampled(p, r.0, r.1.log)
  {
    hide Admit, LastSample;
    if s.actSpan.Some? && s.callerTerminal.Some? && s.usageAck.Some? {
      var t := ActTerminal(s.callerTerminal.value, Remote(s));
      AdmitSample(h, Finish(p.scope, s.actSpan.value, t, Caused(s.usageAck.value, FollowsFrom)),
                  AgentTurnActive, ActOwner(p.id));
    }
  }

  lemma StartActSampled(p: Producer, h: Stream)
    requires LastSample(h.log, AgentTurnActive, ActOwner(p.id)) == None
    ensures var r := StartAct(p, PREPARED, h); Sampled(p, r.0, r.1.log)
  {
    hide Admit, LastSample;
    var who := ActOwner(p.id);
    AdmitSample(h, Start(p.scope, ActLifecycle, None, []), AgentTurnActive, who);
    var a := Admit(h, Start(p.scope, ActLifecycle, None, []));
    if a.sequence.Some? {
      var c := Start(p.scope, ActCaller, a.sequence, []);
      AdmitSample(a.stream, c, AgentTurnActive, who);
      var b := Admit(a.stream, c);
      if b.sequence.Some? {
        AdmitSample(b.stream,
                    Note(p.scope, ActAdmitted, a.sequence.value, Caused(b.sequence.value, FollowsFrom)),
                    AgentTurnActive, who);
      }
    }
  }

  lemma SettleCallerSampled(p: Producer, s: ActState, log: seq<Event>)
    requires Sampled(p, s, log)
    ensures Sampled(p, SettleCaller(s), log)
  {
    hide LastSample;
  }

  lemma CallerFinishedSampled(p: Producer, s: ActState, h: Stream, exit: Exit, error: Raised)
    requires Sampled(p, s, h.log)
    ensures var r := CallerFinished(p, s, h, exit, error); Sampled(p, r.0, r.1.log)
  {
    hide Admit, LastSample, MaybeFinish, CallerTerminal, CallerSource, SettleCaller;
    if s.failed.None? && CallerGuard(s).None? {
      var t := CallerTerminal(exit, error);
      var c := Finish(p.scope, s.callerSpan.value, t,
                      Caused(CallerSource(s).value, if t.outcome.Cancelled? then Handoff else Return));
      AdmitSample(h, c, AgentTurnActive, ActOwner(p.id));
      var s1 := s.(callerTerminal := Some(t));
      SettleCallerSampled(p, s1, Admit(h, c).stream.log);
      MaybeFinishSampled(p, SettleCaller(s1), Admit(h, c).stream);
    }
  }

  lemma OpenTurnSampled(p: Producer, s: ActState, h: Stream, m: Metadata)
    requires ProducerOk(p) && s.actSpan.Some? && s.waiting.Some? && s.turnTerminal.None?
    ensures var r := OpenTurn(p, s, h, m); Sampled(p, r.0, r.1.log)
  {
    hide Admit, LastSample;
    var scope := TurnScope(p, m);
    var c1 := Note(p.scope, ActPromptSubmitted, s.actSpan.value, Caused(s.waiting.value, FollowsFrom));
    var a := Admit(h, c1);
    if a.sequence.None? { return; }
    var c2 := Start(scope, AgentTurn, s.actSpan, Caused(a.sequence.value, Dispatch));
    var b := Admit(a.stream, c2);
    if b.sequence.None? { return; }
    var c3 := Sample(scope, AgentTurnActive, 1, Caused(b.sequence.value, FollowsFrom));
    AdmitSample(b.stream, c3, AgentTurnActive, ActOwner(p.id));
    var c := Admit(b.stream, c3);
    if c.sequence.None? { return; }
    AdmitSample(c.stream, Note(scope, AgentTurnActivity, b.sequence.value, Caused(c.sequence.value, FollowsFrom)),
                AgentTurnActive, ActOwner(p.id));
  }

  lemma CloseTurnSampled(p: Producer, s: ActState, h: Stream, settlement: Settlement, t: Terminal)
    requires s.failed.None? && s.turnSpan.Some? && s.turnScope.Some? && s.activity.Some?
    requires ScopeOwner(s.turnScope.value) == ActOwner(p.id)
    ensures var r := CloseTurn(s, h, settlement, t); Sampled(p, r.0, r.1.log)
  {
    hide Admit, LastSample, AnnounceTerminal;
    var scope, b := s.turnScope.value, AnnounceTerminal(s, h, settlement);
    if b.sequence.None? { return; }
    var c := Admit(b.stream, Finish(scope, s.turnSpan.value, t, Caused(b.sequence.value, Return)));
    if c.sequence.None? { return; }
    AdmitSample(c.stream, Sample(scope, AgentTurnActive, 0, Caused(c.sequence.value, FollowsFrom)),
                AgentTurnActive, ActOwner(p.id));
  }

  lemma TurnTerminalSampled(p: Producer, s: ActState, h: Stream, m: Metadata, settlement: Settlement,
                            outcome: Outcome, code: Option<string>)
    requires Inv(p, s, h) && Sampled(p, s, h.log)
    ensures var r := TurnTerminal(p, s, h, m, settlement, outcome, code); Sampled(p, r.0, r.1.log)
  {
    hide Admit, MaybeFinish, CloseTurn, LastSample, Held, Owns, Sequenced, Milestones, MetadataFault, Settle;
    if s.failed.Some? || MetadataFault(p, m).Some? {
    } else if s.settlement == Some(NotSubmitted) && settlement.NotSubmitted? {
      MaybeFinishSampled(p, s, h);
    } else if TerminalGuard(p, s, m, settlement, outcome, code).Some? {
    } else if settlement.NotSubmitted? {
      MaybeFinishSampled(p, SettleUnsubmitted(s), h);
    } else {
      CloseTurnSampled(p, s, h, settlement, Terminal(outcome, code));
      var c := CloseTurn(s, h, settlement, Terminal(outcome, code));
      MaybeFinishSampled(p, c.0, c.1);
    }
  }

  // ----- One hook -----

  /** No impossible fault, and a counter that agrees with the turn. */
  predicate Shown(p: Producer, s: ActState, log: seq<Event>) {
    Sane(s) && Sampled(p, s, log)
  }

  /** A step that admits at most one instant and leaves the turn alone. */
  lemma InstantShown(p: Producer, s: ActState, h: Stream, c: Candidate, s': ActState)
    requires Shown(p, s, h.log) && c.body.Instant?
    requires s'.failed == Some(AdmissionFailed)
             || (s'.failed == s.failed && s'.turnSpan == s.turnSpan && s'.turnTerminal == s.turnTerminal)
    ensures Shown(p, s', Admit(h, c).stream.log)
  {
    AdmitSample(h, c, AgentTurnActive, ActOwner(p.id));
    hide Admit, LastSample;
  }

  lemma DriverStartedShown(p: Producer, s: ActState, h: Stream)
    requires Inv(p, s, h) && Shown(p, s, h.log)
    ensures var r := DriverStarted(p, s, h); Shown(p, r.0, r.1.log)
  {
    hide Admit, LastSample, Spans, Milestones, Sequenced;
    if s.failed.None? && s.waiting.None? && s.callerTerminal.None? {
      InstantShown(p, s, h, Note(p.scope, ActWaitingReady, s.actSpan.value, Caused(s.admitted.value, FollowsFrom)),
                   DriverStarted(p, s, h).0);
    }
  }

  lemma CancelRequestedShown(p: Producer, s: ActState, h: Stream)
    requires Inv(p, s, h) && Shown(p, s, h.log)
    ensures var r := CancelRequested(p, s, h); Shown(p, r.0, r.1.log)
  {
    hide Admit, LastSample, Spans, Milestones, Sequenced;
    if s.failed.None? && s.cancel.None? && s.callerTerminal.None? {
      InstantShown(p, s, h, Note(p.scope, ActCancelRequested, s.callerSpan.value, Caused(CancelSource(s).value, Handoff)),
                   CancelRequested(p, s, h).0);
    }
  }

  lemma SupervisorHandoffShown(p: Producer, s: ActState, h: Stream, m: Metadata)
    requires Inv(p, s, h) && Shown(p, s, h.log)
    ensures var r := SupervisorHandoff(p, s, h, m); Shown(p, r.0, r.1.log)
  {
    hide Admit, LastSample, Spans, Milestones, Sequenced;
    if s.failed.None? && MetadataFault(p, m).None? && s.activity.Some? && s.handoff.None? && s.turnTerminal.None? {
      InstantShown(p, s, h, Note(p.scope, ActSupervisorHandoff, s.actSpan.value,
                                 Caused(Or(s.cancel, s.activity).value, Handoff)),
                   SupervisorHandoff(p, s, h, m).0);
    }
  }

  lemma PromptSubmittedShown(p: Producer, s: ActState, h: Stream, m: Metadata)
    requires Inv(p, s, h) && Shown(p, s, h.log)
    ensures var r := PromptSubmitted(p, s, h, m); Shown(p, r.0, r.1.log)
  {
    hide Admit, LastSample, Spans, Milestones, Sequenced, OpenTurn;
    PromptSubmittedSane(p, s, h, m);
    if s.failed.None? && PromptGuard(p, s, m).None? {
      OpenTurnSampled(p, s.(usage := MarkPromptSubmitted(s.usage).value), h, m);
    }
  }

  lemma UsageFinalizedShown(p: Producer, s: ActState, h: Stream, sequence: nat)
    requires Inv(p, s, h) && Shown(p, s, h.log)
    requires s.failed.None? ==> !s.usageSlot && s.usageAck.None? && s.settlement.Some?
    ensures var r := UsageFinalized(p, s, h, sequence); Shown(p, r.0, r.1.log)
  {
    hide Spans, Milestones, Sequenced, LastSample, MaybeFinish;
    if s.failed.None? {
      var s1 := s.(usageAck := Some(sequence));
      MaybeFinishSane(p, s1, h);
      MaybeFinishSampled(p, s1, h);
    }
  }

  /** The spans a hook is to close, if all goes well. */
  function ApplyCloses(s: ActState, op: Op): set<nat> {
    match op
    case OpTurnTerminal(_, _, _, _) => TerminalCloses(s)
    case OpCallerFinished(_, _) => CallerCloses(s)
    case _ => {}
  }

  function HookCloses(a: Act, op: Op): set<nat> {
    if op.OpUsageFinalized? then if a.token.AckHeld? then UsageCloses(a.state) else {}
    else ApplyCloses(a.state, op)
  }

  lemma ApplyKept(p: Producer, s: ActState, h: Stream, op: Op)
    requires Inv(p, s, h) && OpOk(op, h)
    ensures Kept(p, h, Apply(p, s, h, op), ApplyCloses(s, op))
  {
    hide Kept, Inv, DriverStarted, CancelRequested, PromptSubmitted, SupervisorHandoff, TurnTerminal, CallerFinished;
    match op
    case OpDriverStarted => DriverStartedKept(p, s, h);
    case OpCancelRequested => CancelRequestedKept(p, s, h);
    case OpAdmittedAgain => StoppedKept(p, s, h, FailState(s, AdmissionHookDuplicated));
    case OpPromptSubmitted(m) => PromptSubmittedKept(p, s, h, m);
    case OpSupervisorHandoff(m) => SupervisorHandoffKept(p, s, h, m);
    case OpTurnTerminal(m, settlement, outcome, code) => TurnTerminalKept(p, s, h, m, settlement, outcome, code);
    case OpCallerFinished(exit, error) => CallerFinishedKept(p, s, h, exit, error);
    case OpTakeUsageSlot => FlagsKept(p, s, h, TakeUsageSlot(s).0);
    case OpTakeNotification => FlagsKept(p, s, h, TakeSettlementNotification(s).0);
    case OpAcknowledge(_) => FlagsKept(p, s, h, s);
    case OpUsageFinalized => FlagsKept(p, s, h, s);
  }

  lemma FlagsKept(p: Producer, s: ActState, h: Stream, s': ActState)
    requires Inv(p, s, h) && s' == s.(usageSlot := s'.usageSlot, notified := s'.notified)
    ensures Kept(p, h, (s', h), {})
  {
    Stays(h, ActOwner(p.id));
    hide Grows, Continues, Sequenced, Held, Owns;
  }

  lemma ApplyShown(p: Producer, s: ActState, h: Stream, op: Op)
    requires Inv(p, s, h) && Shown(p, s, h.log) && OpOk(op, h)
    ensures var r := Apply(p, s, h, op); Shown(p, r.0, r.1.log)
  {
    hide Spans, Milestones, Sequenced, LastSample;
    hide DriverStarted, CancelRequested, PromptSubmitted, SupervisorHandoff, TurnTerminal, CallerFinished;
    match op
    case OpDriverStarted => DriverStartedShown(p, s, h);
    case OpCancelRequested => CancelRequestedShown(p, s, h);
    case OpPromptSubmitted(m) => PromptSubmittedShown(p, s, h, m);
    case OpSupervisorHandoff(m) => SupervisorHandoffShown(p, s, h, m);
    case OpTurnTerminal(m, settlement, outcome, code) =>
      TurnTerminalSane(p, s, h, m, settlement, outcome, code);
      TurnTerminalSampled(p, s, h, m, settlement, outcome, code);
    case OpCallerFinished(exit, error) =>
      CallerFinishedSane(p, s, h, exit, error);
      CallerFinishedSampled(p, s, h, exit, error);
    case _ =>
  }

  // ----- The usage token -----

  /** A step that neither takes the slot nor hands back an acknowledgement. */
  predicate KeepsToken(s: ActState, s': ActState) {
    && s'.usageAck == s.usageAck && s'.usageSlot == s.usageSlot
    && (s'.failed.None? ==> s.failed.None?)
    && (s.settlement.Some? ==> s'.settlement == s.settlement)
  }

  lemma FinishToken(p: Producer, s: ActState, h: Stream)
    ensures KeepsToken(s, MaybeFinish(p, s, h).0)
  {
    hide Admit;
  }

  lemma CallerToken(p: Producer, s: ActState, h: Stream, exit: Exit, error: Raised)
    ensures KeepsToken(s, CallerFinished(p, s, h, exit, error).0)
  {
    hide Admit, MaybeFinish, CallerTerminal, CallerSource, Settle;
    forall s1, h1 ensures KeepsToken(s1, MaybeFinish(p, s1, h1).0) { FinishToken(p, s1, h1); }
  }

  lemma DriverToken(p: Producer, s: ActState, h: Stream)
    ensures KeepsToken(s, DriverStarted(p, s, h).0)
  {
    hide Admit;
  }

  lemma CancelToken(p: Producer, s: ActState, h: Stream)
    ensures KeepsToken(s, CancelRequested(p, s, h).0)
  {
    hide Admit, CancelSource;
  }

  lemma HandoffToken(p: Producer, s: ActState, h: Stream, m: Metadata)
    ensures KeepsToken(s, SupervisorHandoff(p, s, h, m).0)
  {
    hide Admit, MetadataFault;
  }

  lemma PromptToken(p: Producer, s: ActState, h: Stream, m: Metadata)
    ensures KeepsToken(s, PromptSubmitted(p, s, h, m).0)
  {
    hide Admit, PromptGuard, MarkPromptSubmitted, TurnScope;
    if s.failed.None? && PromptGuard(p, s, m).None? { GuardPasses(p, s, m); }
  }

  lemma GuardPasses(p: Producer, s: ActState, m: Metadata)
    requires PromptGuard(p, s, m).None?
    ensures s.actSpan.Some? && s.waiting.Some? && MarkPromptSubmitted(s.usage).Some?
  {
  }

  lemma TurnToken(p: Producer, s: ActState, h: Stream, m: Metadata, settlement: Settlement,
                  outcome: Outcome, code: Option<string>)
    ensures KeepsToken(s, TurnTerminal(p, s, h, m, settlement, outcome, code).0)
  {
    hide Admit, MaybeFinish, CloseTurn, Settle, MetadataFault;
    var t := Terminal(outcome, code);
    if s.failed.Some? || MetadataFault(p, m).Some? {
    } else if s.settlement == Some(NotSubmitted) && settlement.NotSubmitted? {
      FinishToken(p, s, h);
    } else if TerminalGuard(p, s, m, settlement, outcome, code).Some? {
    } else if settlement.NotSubmitted? {
      FinishToken(p, SettleUnsubmitted(s), h);
    } else {
      CloseToken(s, h, settlement, t);
      FinishToken(p, CloseTurn(s, h, settlement, t).0, CloseTurn(s, h, settlement, t).1);
    }
  }

  lemma CloseToken(s: ActState, h: Stream, settlement: Settlement, t: Terminal)
    requires s.turnSpan.Some? && s.turnScope.Some? && s.activity.Some? && s.settlement.None?
    ensures KeepsToken(s, CloseTurn(s, h, settlement, t).0)
  {
    hide Admit, AnnounceTerminal, Settle;
  }

  lemma ApplyToken(p: Producer, s: ActState, h: Stream, op: Op)
    requires !op.OpTakeUsageSlot?
    ensures KeepsToken(s, Apply(p, s, h, op).0)
  {
    hide DriverStarted, CancelRequested, TurnTerminal, CallerFinished, PromptSubmitted, SupervisorHandoff;
    match op
    case OpDriverStarted => DriverToken(p, s, h);
    case OpCancelRequested => CancelToken(p, s, h);
    case OpSupervisorHandoff(m) => HandoffToken(p, s, h, m);
    case OpPromptSubmitted(m) => PromptToken(p, s, h, m);
    case OpTurnTerminal(m, settlement, outcome, code) => TurnToken(p, s, h, m, settlement, outcome, code);
    case OpCallerFinished(exit, error) => CallerToken(p, s, h, exit, error);
    case _ =>
  }

  /** Where the slot is, in a healthy act: it is taken once, acknowledged once, and the
      acknowledgement is handed back at most once, always after the settlement. */
  ghost predicate TokenOk(a: Act, h: Stream) {
    a.state.failed.None? ==>
      && (a.token.InProducer? <==> a.state.usageSlot)
      && (a.token.Spent? <==> a.state.usageAck.Some?)
      && (a.token.AckHeld? ==> a.state.settlement.Some? && Known(h, a.token.sequence))
  }

  ghost predicate ActInv(a: Act, h: Stream) {
    && Inv(a.producer, a.state, h)
    && Shown(a.producer, a.state, h.log)
    && Marked(a.producer, a.state, h.log)
    && Closings(a.producer, a.state, h.log)
    && TokenOk(a, h)
  }

  /** What the drivers promise: session generations start at one, and the acknowledged usage
      event is on the stream. */
  predicate OpOk(op: Op, h: Stream) {
    && (op.OpPromptSubmitted? ==> op.metadata.generation > 0)
    && (op.OpAcknowledge? ==> Known(h, op.usageSequence))
  }

  // ----- Every step of the act, and every step of anybody else -----

  lemma TakeApplies(p: Producer, s: ActState, h: Stream)
    ensures Apply(p, s, h, OpTakeUsageSlot) == (TakeUsageSlot(s).0, h)
  {
  }

  lemma TokenStep(a: Act, h: Stream, op: Op)
    requires TokenOk(a, h) && Sequenced(h) && OpOk(op, h)
    requires a.state.failed.None? ==> Shape(a.state)
    requires h.log <= Step(a, h, op).1.log
    ensures TokenOk(Step(a, h, op).0, Step(a, h, op).1)
  {
    var p, s := a.producer, a.state;
    hide Apply, Sequenced, MaybeFinish;
    if op.OpUsageFinalized? {
      if a.token.AckHeld? && s.failed.None? {
        FinishToken(p, s.(usageAck := Some(a.token.sequence)), h);
      }
    } else if op.OpTakeUsageSlot? {
      TakeApplies(p, s, h);
    } else {
      ApplyToken(p, s, h, op);
    }
  }

  /** Every hook of an act keeps the whole invariant, whatever the hub answers. */
  lemma StepKept(a: Act, h: Stream, op: Op)
    requires ActInv(a, h) && OpOk(op, h)
    ensures var (a', h') := Step(a, h, op);
            && ActInv(a', h') && a'.producer == a.producer
            && Grows(h, h', ActOwner(a.producer.id)) && Continues(h, h', HookCloses(a, op))
  {
    var p, s := a.producer, a.state;
    hide TerminalCloses, CallerCloses, UsageCloses, FinishesOwn, Continues;
    hide Apply, UsageFinalized, Shown, Marked, Closings, KeepsSpans, AddsSpans, Follows, Stamped, Faithful, Spans, Milestones, Shape, Sequenced, TakeUsageSlot;
    Stays(h, ActOwner(p.id));
    ContinuesMore(h, h, {}, HookCloses(a, op));
    if op.OpUsageFinalized? {
      if a.token.AckHeld? {
        UsageFinalizedKept(p, s, h, a.token.sequence);
        UsageFinalizedShown(p, s, h, a.token.sequence);
        UsageFinalizedMarked(p, s, h, a.token.sequence);
        UsageFinalizedClosings(p, s, h, a.token.sequence);
      }
    } else {
      ApplyKept(p, s, h, op);
      ApplyShown(p, s, h, op);
      ApplyMarked(p, s, h, op);
      ApplyClosings(p, s, h, op);
    }
    TokenStep(a, h, op);
  }

  lemma SpansElsewhere(p: Producer, s: ActState, h: Stream, h': Stream, other: Owner)
    requires ProducerOk(p) && Spans(p, s, h) && Grows(h, h', other) && other != ActOwner(p.id)
    ensures Spans(p, s, h')
  {
    hide Grows, Held, Owns;
    HeldElsewhere(h, h', other, s.actSpan.value, p.scope, None, !s.finishAttempted);
    HeldElsewhere(h, h', other, s.callerSpan.value, p.scope, s.actSpan, s.callerTerminal.None?);
    if s.turnSpan.Some? {
      HeldElsewhere(h, h', other, s.turnSpan.value, s.turnScope.value, s.actSpan, s.turnTerminal.None?);
    }
    OwnsElsewhere(h, h', other, ActOwner(p.id), OwnSpans(s));
  }

  lemma ClosingsElsewhere(p: Producer, s: ActState, h: Stream, h': Stream, other: Owner)
    requires ProducerOk(p) && Spans(p, s, h) && Closings(p, s, h.log) && Grows(h, h', other) && other != ActOwner(p.id)
    ensures Closings(p, s, h'.log)
  {
    hide Grows, Held, Owns, EndingOn, Endings;
    EndingElsewhere(h, h', other, s.actSpan.value, p.scope, None, !s.finishAttempted);
    EndingElsewhere(h, h', other, s.callerSpan.value, p.scope, s.actSpan, s.callerTerminal.None?);
    if s.turnSpan.Some? {
      EndingElsewhere(h, h', other, s.turnSpan.value, s.turnScope.value, s.actSpan, s.turnTerminal.None?);
    }
    CarryClosings(p, s, h.log, s, h'.log);
  }

  /** Nobody else's step disturbs an act. */
  lemma StepElsewhere(a: Act, h: Stream, h': Stream, other: Owner)
    requires ActInv(a, h) && Grows(h, h', other) && other != ActOwner(a.producer.id) && Sequenced(h')
    ensures ActInv(a, h')
  {
    hide KeepsSpans, AddsSpans, FinishesOwn, Shape, Spans, LastSample, MarksOn, MarksOf, Endings, Sequenced;
    var p, s := a.producer, a.state;
    if s.failed.None? {
      SpansElsewhere(p, s, h, h', other);
      SampleFrame(h, h', other, AgentTurnActive, ActOwner(p.id));
      MarksFrame(h.log, h'.log, other, ActOwner(p.id));
      ClosingsElsewhere(p, s, h, h', other);
    }
  }

  /** An identifier that has left no trace on the stream. */
  ghost predicate Untouched(h: Stream, id: nat) {
    && LastSample(h.log, AgentTurnActive, ActOwner(id)) == None && MarksOn(h.log, ActOwner(id)) == NO_MARKS
    && Owns(h, ActOwner(id), {})
  }

  lemma UntouchedFrame(h: Stream, h': Stream, other: Owner, id: nat)
    requires Untouched(h, id) && Grows(h, h', other) && other != ActOwner(id)
    ensures Untouched(h', id)
  {
    hide LastSample, MarksOn, KeepsSpans, AddsSpans, FinishesOwn, Owns;
    LogSampleFrame(h.log, h'.log, other, AgentTurnActive, ActOwner(id));
    MarksFrame(h.log, h'.log, other, ActOwner(id));
    OwnsElsewhere(h, h', other, ActOwner(id), {});
  }

  lemma StartActFields(p: Producer, h: Stream)
    ensures var s := StartAct(p, PREPARED, h).0;
            Sane(s) && s.usageSlot && s.usageAck.None?
  {
    hide Admit;
  }

  /** A freshly admitted act satisfies the invariant: its identifier is new to the stream. */
  lemma StartKept(p: Producer, h: Stream)
    requires ProducerOk(p) && Sequenced(h) && Untouched(h, p.id)
    ensures var (s, h') := StartAct(p, PREPARED, h);
            && ActInv(Act(p, s, InProducer), h')
            && Grows(h, h', ActOwner(p.id)) && Continues(h, h', {})
  {
    StartActKept(p, h);
    StartActSampled(p, h);
    StartActMarked(p, h);
    StartActClosings(p, h);
    StartActFields(p, h);
    hide StartAct, Grows, Continues, Inv, Sampled, Marked, Closings;
  }

  // ----- What the invariant means -----

  /** The latest milestone of an act, whichever it is. */
  predicate IsLatest(s: ActState, sequence: nat) {
    && Some(sequence) in [s.admitted, s.waiting, s.prompt, s.activity, s.handoff, s.turnTerminalSequence]
    && forall m :: m in [s.admitted, s.waiting, s.prompt, s.activity, s.handoff, s.turnTerminalSequence] && m.Some?
                   ==> m.value <= sequence
  }

  /** Recorded milestones form a downward-closed increasing chain, so the cause of a cancel is
      always the latest of them. */
  lemma CancelCausedByLatest(a: Act, h: Stream)
    requires ActInv(a, h) && a.state.failed.None?
    ensures CancelSource(a.state).Some? && IsLatest(a.state, CancelSource(a.state).value)
  {
    hide Spans, Shown, Sequenced, Marked, Closings;
  }

  /** A finish on the log is the ending a reader finds. */
  lemma {:induction false} EndingFinishes(log: seq<Event>, span: nat, k: int)
    requires FinishesAt(log, k, span) && forall j :: FinishesAt(log, j, span) ==> j == k
    ensures EndingOn(log, span) == Some(Ending(log[k].sequence, log[k].body.terminal, log[k].causes))
    decreases |log|
  {
    var init := log[..|log| - 1];
    if k < |log| - 1 {
      assert !FinishesAt(log, |log| - 1, span);
      assert FinishesAt(init, k, span);
      forall j | FinishesAt(init, j, span) ensures j == k { assert FinishesAt(log, j, span); }
      EndingFinishes(init, span, k);
    }
  }

  /** In a valid stream a span is finished once. */
  lemma FinishIsEnding(log: seq<Event>, span: nat, k: int)
    requires ValidStream(log) && FinishesAt(log, k, span)
    ensures EndingOn(log, span) == Some(Ending(log[k].sequence, log[k].body.terminal, log[k].causes))
    ensures forall j :: FinishesAt(log, j, span) ==> j == k
  {
    hide ValidStream;
    forall j | FinishesAt(log, j, span) ensures j == k {
      if j < k { FinishedOnce(log, j, k); }
      if k < j { FinishedOnce(log, k, j); }
    }
    EndingFinishes(log, span, k);
  }

  /** How an act ends: completed only if nobody objects, and otherwise as the remote says before
      the caller; a caller's cancellation never overrides a completed remote. */
  predicate EndsAsJoined(t: Terminal, caller: Terminal, remote: Option<Terminal>) {
    && (t.outcome.Completed? <==>
          !caller.outcome.Failed? && if remote.Some? then remote.value.outcome.Completed? else caller.outcome.Completed?)
    && (t.outcome.Cancelled? <==>
          if remote.Some? then remote.value.outcome.Cancelled? else caller.outcome.Cancelled?)
    && (remote.Some? && !remote.value.outcome.Completed? ==> t == remote.value)
    && (t == caller || remote == Some(t))
  }

  /** The three-way join, read off the log: the act span of a healthy act is finished exactly
      when caller, settlement and usage acknowledgement are in, whatever their order; it is
      finished once, as caller and turn ended, caused by the acknowledgement, after the caller span
      and any turn, which are finished with the terminals the join is made of. */
  lemma JoinOnLog(a: Act, h: Stream)
    requires ActInv(a, h) && a.state.failed.None? && Mirrors(h.index, h.log) && ValidStream(h.log)
    ensures var s := a.state;
            && ((exists k :: FinishesAt(h.log, k, s.actSpan.value)) <==>
                (s.callerTerminal.Some? && s.settlement.Some? && s.usageAck.Some?))
            && forall k :: FinishesAt(h.log, k, s.actSpan.value) ==>
                 && EndsAsJoined(h.log[k].body.terminal, s.callerTerminal.value, Remote(s))
                 && h.log[k].causes == Caused(s.usageAck.value, FollowsFrom)
                 && (forall j :: FinishesAt(h.log, j, s.actSpan.value) ==> j == k)
                 && (exists f :: FinishesAt(h.log, f, s.callerSpan.value) && f < k
                                 && Some(h.log[f].body.terminal) == s.callerTerminal)
                 && (Remote(s).Some? <==> s.turnSpan.Some?)
                 && (s.turnSpan.Some? ==> exists f :: FinishesAt(h.log, f, s.turnSpan.value) && f < k
                                                      && Some(h.log[f].body.terminal) == Remote(s))
  {
    hide Mirrors, ValidStream, Held, Owns, Sequenced, Milestones, Sampled, Marked, EndingOn;
    var p, s := a.producer, a.state;
    OpenOnLog(h, s.actSpan.value, p.scope, None, !s.finishAttempted);
    forall k | FinishesAt(h.log, k, s.actSpan.value)
      ensures EndsAsJoined(h.log[k].body.terminal, s.callerTerminal.value, Remote(s))
      ensures h.log[k].causes == Caused(s.usageAck.value, FollowsFrom)
      ensures forall j :: FinishesAt(h.log, j, s.actSpan.value) ==> j == k
      ensures exists f :: FinishesAt(h.log, f, s.callerSpan.value) && f < k && Some(h.log[f].body.terminal) == s.callerTerminal
      ensures s.turnSpan.Some? ==> exists f :: FinishesAt(h.log, f, s.turnSpan.value) && f < k
                                               && Some(h.log[f].body.terminal) == Remote(s)
    {
      FinishIsEnding(h.log, s.actSpan.value, k);
      ChildFinishedBefore(h, s.callerSpan.value, p.scope, s.actSpan.value, s.callerTerminal.None?, k);
      var f :| FinishesAt(h.log, f, s.callerSpan.value) && f < k;
      FinishIsEnding(h.log, s.callerSpan.value, f);
      if s.turnSpan.Some? {
        ChildFinishedBefore(h, s.turnSpan.value, s.turnScope.value, s.actSpan.value, s.turnTerminal.None?, k);
        var g :| FinishesAt(h.log, g, s.turnSpan.value) && g < k;
        FinishIsEnding(h.log, s.turnSpan.value, g);
      }
    }
  }

  /** While an act is healthy, the shared usage identity says what the record says. */
  lemma UsageMirrors(a: Act, h: Stream)
    requires ActInv(a, h) && a.state.failed.None?
    ensures a.state.usage == Usage(a.state.prompt.Some?, a.state.settlement)
    ensures a.token.SlotHeld? || a.token.AckHeld? ==> !a.state.usageSlot && a.state.usageAck.None?
    ensures a.token.Spent? <==> a.state.usageAck.Some?
  {
    hide Spans, Milestones, Shown, Sequenced, Marked, Closings;
  }

  function Progress(t: Token): nat {
    match t
    case InProducer => 0
    case SlotHeld => 1
    case AckHeld(_) => 2
    case Spent => 3
  }

  /** The slot and its acknowledgement only ever move forward, one place at a time: each is taken,
      and consumed, at most once. */
  lemma TokenForward(a: Act, h: Stream, op: Op)
    requires ActInv(a, h)
    ensures Progress(a.token) <= Progress(Step(a, h, op).0.token) <= Progress(a.token) + 1
  {
    hide Apply, UsageFinalized, Inv, Shown, Marked, Closings;
  }

  /** The span that custom and tool events of a live act are placed in is open and encloses them. */
  lemma ContainingSpanOpen(a: Act, h: Stream)
    requires ActInv(a, h) && a.state.failed.None?
    ensures var s := a.state;
            && (ContainingSpan(s).Some? <==> !s.finishAttempted)
            && (ContainingSpan(s).Some? ==>
                  Encloses(h, ContainingSpan(s).value, if s.turnScope.Some? then s.turnScope.value else a.producer.scope))
  {
    hide Shown, Marked, Closings, Sequenced, Milestones;
  }
}
