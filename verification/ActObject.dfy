/** The act producer as an object: one record behind a lock, changed hook by hook. Between hooks the
    record, the spans of the act and the log agree; `token` follows the usage slot once it has left. */
module ActObject {
  import opened Events
  import opened Hub
  import opened HubObject
  import opened Act
  import AP = ActProofs
  import AM = ActMarks
  import AL = ActClosings
  import AA = ActAnswers
  import AR = ActRun

  /** What a caller can rely on between hooks: which spans of a healthy act are open, and what the
      log says of its turn. */
  ghost predicate Shows(s: ActState, h: Stream, id: nat) {
    s.failed.None? ==>
      && s.actSpan.Some? && s.callerSpan.Some?
      && (IsOpen(h, s.actSpan.value) <==> s.callerTerminal.None? || s.settlement.None? || s.usageAck.None?)
      && (IsOpen(h, s.callerSpan.value) <==> s.callerTerminal.None?)
      && (s.turnSpan.Some? ==> (IsOpen(h, s.turnSpan.value) <==> s.settlement.None?))
      && LastSample(h.log, AgentTurnActive, ActOwner(id)) ==
         (if s.turnSpan.None? then None else if s.settlement.None? then Some(1) else Some(0))
  }

  /** A hook on the record of an act, registered or not: the invariant stays, and only the act's own
      part of the stream grows. */
  lemma HookKept(a: Act, h: Stream, op: Op)
    requires AR.ActInv(a, h) && AR.OpOk(op, h) && !op.OpTakeUsageSlot? && !op.OpAcknowledge? && !op.OpUsageFinalized?
    ensures var r := Apply(a.producer, a.state, h, op);
            && AR.ActInv(a.(state := r.0), r.1) && Grows(h, r.1, ActOwner(a.producer.id))
            && Shows(r.0, r.1, a.producer.id) && (r.0.failed.None? ==> a.state.failed.None?)
  {
    var p, s := a.producer, a.state;
    hide Apply, AR.Shown, AM.Marked, AL.Closings, AP.Spans, AP.Milestones, AP.Shape, Sequenced, KeepsSpans, AddsSpans, FinishesOwn, Continues;
    AR.ApplyKept(p, s, h, op);
    AR.ApplyShown(p, s, h, op);
    AM.ApplyMarked(p, s, h, op);
    AL.ApplyClosings(p, s, h, op);
    AR.ApplyToken(p, s, h, op);
    InvShows(a.(state := Apply(p, s, h, op).0), Apply(p, s, h, op).1);
  }

  lemma InvShows(a: Act, h: Stream)
    requires AP.Inv(a.producer, a.state, h) && AR.Shown(a.producer, a.state, h.log)
    ensures Shows(a.state, h, a.producer.id)
  {
    hide AP.Milestones, Sequenced, Owns, LastSample;
  }

  // ----- What the hooks mean -----

  lemma BeginMeans(p: Producer, h: Stream)
    ensures var r := StartAct(p, PREPARED, h);
            && (r.0.failed.None? ==> r.0.admitted == Some(|r.1.log|) && r.0.callerTerminal.None?)
  {
    var c1 := Start(p.scope, ActLifecycle, None, []);
    AdmitCases(h, c1);
    var a := Admit(h, c1);
    if a.sequence.Some? {
      var c2 := Start(p.scope, ActCaller, a.sequence, []);
      AdmitCases(a.stream, c2);
      var b := Admit(a.stream, c2);
      if b.sequence.Some? {
        AdmitCases(b.stream, Note(p.scope, ActAdmitted, a.sequence.value, Caused(b.sequence.value, FollowsFrom)));
      }
    }
    hide Admit;
  }

  lemma StartShows(p: Producer, h: Stream)
    requires AP.ProducerOk(p) && Sequenced(h) && AR.Untouched(h, p.id)
    ensures var (s, h') := StartAct(p, PREPARED, h);
            Shows(s, h', p.id) && (s.failed.None? ==> s.actSpan.Some? && IsOpen(h', s.actSpan.value))
  {
    BeginMeans(p, h);
    AR.StartKept(p, h);
    hide StartAct, Grows, Continues, AM.Marked, AL.Closings;
    InvShows(Act(p, StartAct(p, PREPARED, h).0, InProducer), StartAct(p, PREPARED, h).1);
  }

  lemma DriverMeans(p: Producer, s: ActState, h: Stream)
    ensures var r := DriverStarted(p, s, h);
            r.0.failed.None? ==> s.waiting.None? && s.callerTerminal.None? && r.0 == s.(waiting := Some(|r.1.log|))
  {
    if s.actSpan.Some? && s.admitted.Some? {
      AdmitCases(h, Note(p.scope, ActWaitingReady, s.actSpan.value, Caused(s.admitted.value, FollowsFrom)));
    }
    hide Admit;
  }

  lemma CancelMeans(p: Producer, s: ActState, h: Stream)
    ensures var r := CancelRequested(p, s, h);
            r.0.failed.None? ==>
              && (r.0.cancel.Some? || r.0.callerTerminal.Some?)
              && (s.cancel.Some? || s.callerTerminal.Some? ==> r.0 == s)
  {
    hide Admit, CancelSource;
  }

  lemma PromptMeans(a: Act, h: Stream, m: Metadata)
    requires AR.ActInv(a, h) && m.generation > 0
    ensures var r := PromptSubmitted(a.producer, a.state, h, m);
            r.0.failed.None? ==>
              && a.state.prompt.None? && r.0.turnSpan.Some? && IsOpen(r.1, r.0.turnSpan.value)
              && LastSample(r.1.log, AgentTurnActive, ActOwner(a.producer.id)) == Some(1)
              && r.0.activity == Some(|r.1.log|) && r.0.usage.promptSubmitted
  {
    hide AR.ActInv, Grows, LastSample, PromptSubmitted;
    HookKept(a, h, OpPromptSubmitted(m));
    PromptFields(a.producer, a.state, h, m);
  }

  lemma PromptFields(p: Producer, s: ActState, h: Stream, m: Metadata)
    ensures var r := PromptSubmitted(p, s, h, m);
            r.0.failed.None? ==>
              s.prompt.None? && r.0.turnSpan.Some? && r.0.settlement.None? && r.0.activity == Some(|r.1.log|) && r.0.usage.promptSubmitted
  {
    if s.failed.None? && PromptGuard(p, s, m).None? {
      AR.GuardPasses(p, s, m);
      GuardMeans(p, s, m);
      hide PromptGuard, OpenTurn;
      OpenTurnLast(p, s.(usage := MarkPromptSubmitted(s.usage).value), h, m);
    }
  }

  lemma GuardMeans(p: Producer, s: ActState, m: Metadata)
    requires PromptGuard(p, s, m).None?
    ensures s.prompt.None? && s.settlement.None? && MarkPromptSubmitted(s.usage).value.promptSubmitted
  {
    hide MetadataFault;
  }

  lemma OpenTurnLast(p: Producer, s: ActState, h: Stream, m: Metadata)
    requires s.actSpan.Some? && s.waiting.Some? && s.failed.None?
    ensures var r := OpenTurn(p, s, h, m);
            r.0.failed.None? ==>
              r.0 == s.(prompt := r.0.prompt, turnSpan := r.0.turnSpan, turnScope := r.0.turnScope, activity := Some(|r.1.log|))
              && r.0.turnSpan.Some?
  {
    hide Admit, TurnScope, AM.MarksOn, AM.Read;
    var scope := TurnScope(p, m);
    var a := Admit(h, Note(p.scope, ActPromptSubmitted, s.actSpan.value, Caused(s.waiting.value, FollowsFrom)));
    if a.sequence.None? { return; }
    var b := Admit(a.stream, Start(scope, AgentTurn, s.actSpan, Caused(a.sequence.value, Dispatch)));
    if b.sequence.None? { return; }
    var c := Admit(b.stream, Sample(scope, AgentTurnActive, 1, Caused(b.sequence.value, FollowsFrom)));
    if c.sequence.None? { return; }
    AM.AdmitMarks(c.stream, Note(scope, AgentTurnActivity, b.sequence.value, Caused(c.sequence.value, FollowsFrom)), Outside);
  }

  lemma HandoffMeans(a: Act, h: Stream, m: Metadata)
    requires AR.ActInv(a, h)
    ensures var s, r := a.state, SupervisorHandoff(a.producer, a.state, h, m);
            r.0.failed.None? ==>
              s.handoff.None? && s.turnTerminal.None? && s.turnSpan.Some? && r.0 == s.(handoff := Some(|r.1.log|))
  {
    var p, s := a.producer, a.state;
    hide AP.Spans, AP.Milestones, AR.Shown, AM.Marked, AL.Closings, Sequenced, MetadataFault;
    if s.failed.None? && s.actSpan.Some? && s.activity.Some? {
      AdmitCases(h, Note(p.scope, ActSupervisorHandoff, s.actSpan.value, Caused(Or(s.cancel, s.activity).value, Handoff)));
    }
    hide Admit;
  }

  lemma TerminalMeans(a: Act, h: Stream, m: Metadata, settlement: Settlement, outcome: Outcome, code: Option<string>)
    requires AR.ActInv(a, h)
    ensures var r := TurnTerminal(a.producer, a.state, h, m, settlement, outcome, code);
            r.0.failed.None? ==>
              && r.0.settlement == Some(settlement)
              && (settlement != NotSubmitted ==>
                    && r.0.turnSpan.Some? && !IsOpen(r.1, r.0.turnSpan.value)
                    && r.0.turnTerminal == Some(Terminal(outcome, code))
                    && LastSample(r.1.log, AgentTurnActive, ActOwner(a.producer.id)) == Some(0))
  {
    hide AR.ActInv, Grows, LastSample, TurnTerminal;
    HookKept(a, h, OpTurnTerminal(m, settlement, outcome, code));
    TerminalFields(a.producer, a.state, h, m, settlement, outcome, code);
  }

  lemma FinishFields(p: Producer, s: ActState, h: Stream)
    ensures var s' := MaybeFinish(p, s, h).0;
            s'.failed.None? ==> s' == s.(finishAttempted := s'.finishAttempted)
  {
    hide Admit, ActTerminal;
  }

  lemma TerminalFields(p: Producer, s: ActState, h: Stream, m: Metadata, settlement: Settlement, outcome: Outcome, code: Option<string>)
    ensures var r := TurnTerminal(p, s, h, m, settlement, outcome, code);
            r.0.failed.None? ==>
              && r.0.settlement == Some(settlement)
              && (settlement != NotSubmitted ==> r.0.turnSpan.Some? && r.0.turnTerminal == Some(Terminal(outcome, code)))
  {
    hide Admit, MaybeFinish, CloseTurn, MetadataFault, Settle;
    var t := Terminal(outcome, code);
    if s.failed.Some? || MetadataFault(p, m).Some? {
    } else if s.settlement == Some(NotSubmitted) && settlement.NotSubmitted? {
      FinishFields(p, s, h);
    } else if TerminalGuard(p, s, m, settlement, outcome, code).Some? {
    } else if settlement.NotSubmitted? {
      FinishFields(p, SettleUnsubmitted(s), h);
    } else {
      CloseFields(s, h, settlement, t);
      FinishFields(p, CloseTurn(s, h, settlement, t).0, CloseTurn(s, h, settlement, t).1);
    }
  }

  lemma CloseFields(s: ActState, h: Stream, settlement: Settlement, t: Terminal)
    requires s.turnSpan.Some? && s.turnScope.Some? && s.activity.Some?
    ensures var s' := CloseTurn(s, h, settlement, t).0;
            s'.failed.None? ==> s'.settlement == Some(settlement) && s'.turnTerminal == Some(t) && s'.turnSpan == s.turnSpan
  {
    hide Admit, AnnounceTerminal, Settle;
  }

  lemma CallerMeans(a: Act, h: Stream, exit: Exit, error: Raised)
    requires AR.ActInv(a, h)
    ensures var r := CallerFinished(a.producer, a.state, h, exit, error);
            r.0.failed.None? ==>
              && a.state.callerTerminal.None? && r.0.callerSpan.Some? && !IsOpen(r.1, r.0.callerSpan.value)
              && r.0.callerTerminal.Some? && AA.ExitsAs(r.0.callerTerminal.value, exit, error)
              && (r.0.prompt.None? ==> r.0.settlement.Some?)
  {
    hide AR.ActInv, Grows, LastSample, CallerFinished, CallerTerminal;
    HookKept(a, h, OpCallerFinished(exit, error));
    CallerFields(a.producer, a.state, h, exit, error);
    AA.ExitMeans(exit, error);
  }

  lemma CallerFields(p: Producer, s: ActState, h: Stream, exit: Exit, error: Raised)
    ensures var r := CallerFinished(p, s, h, exit, error);
            r.0.failed.None? ==>
              s.callerTerminal.None? && r.0.callerTerminal == Some(CallerTerminal(exit, error)) && (r.0.prompt.None? ==> r.0.settlement.Some?)
  {
    hide Admit, MaybeFinish, CallerTerminal, CallerSource, Settle;
    forall s1, h1 ensures var s' := MaybeFinish(p, s1, h1).0; s'.failed.None? ==> s' == s1.(finishAttempted := s'.finishAttempted) {
      FinishFields(p, s1, h1);
    }
    FinishFailed(p);
  }

  lemma FinishFailed(p: Producer)
    ensures forall s: ActState, h :: s.failed.Some? ==> MaybeFinish(p, s, h) == (s, h)
  {
    hide Admit;
  }

  lemma SlotKept(a: Act, h: Stream)
    requires AR.ActInv(a, h)
    ensures var (s, given) := TakeUsageSlot(a.state);
            && AR.ActInv(a.(state := s, token := if given then SlotHeld else a.token), h)
            && (given ==> a.token == InProducer)
            && (a.state.failed.None? ==> a.state.actSpan.Some? && (a.token == InProducer <==> a.state.usageSlot))
  {
    assert a.state.failed.None? ==> a.state.actSpan.Some?;
    var p, s := a.producer, a.state;
    hide AR.Shown, AM.Marked, AL.Closings, AP.Spans, AP.Milestones, AP.Shape, Sequenced, Grows, Continues;
    AR.TakeApplies(p, s, h);
    AR.ApplyKept(p, s, h, OpTakeUsageSlot);
    AR.ApplyShown(p, s, h, OpTakeUsageSlot);
    AM.ApplyMarked(p, s, h, OpTakeUsageSlot);
    AL.ApplyClosings(p, s, h, OpTakeUsageSlot);
    hide Apply;
  }

  lemma NotificationKept(a: Act, h: Stream)
    requires AR.ActInv(a, h)
    ensures AR.ActInv(a.(state := TakeSettlementNotification(a.state).0), h)
  {
    NotificationApplies(a.producer, a.state, h);
    hide Apply, AR.ActInv, Grows, Shows, TakeSettlementNotification;
    HookKept(a, h, OpTakeNotification);
  }

  lemma NotificationApplies(p: Producer, s: ActState, h: Stream)
    ensures Apply(p, s, h, OpTakeNotification) == (TakeSettlementNotification(s).0, h)
  {
  }

  lemma AckKept(a: Act, h: Stream, sequence: nat)
    requires AR.ActInv(a, h) && a.token == SlotHeld && a.state.usage.settlement.Some? && Known(h, sequence)
    ensures AR.ActInv(a.(token := AckHeld(sequence)), h)
  {
    hide AP.Milestones, AP.Spans, Sequenced, AR.Shown, AM.Marked, AL.Closings;
  }

  lemma AckAccepted(a: Act, h: Stream)
    requires AR.ActInv(a, h) && a.token.AckHeld?
    ensures var r := UsageFinalized(a.producer, a.state, h, a.token.sequence);
            && AR.ActInv(a.(state := r.0, token := Spent), r.1) && Grows(h, r.1, ActOwner(a.producer.id))
            && Shows(r.0, r.1, a.producer.id)
            && (r.0.failed.None? ==> r.0.usageAck == Some(a.token.sequence) && r.0.actSpan.Some?
                                     && (IsOpen(r.1, r.0.actSpan.value) <==> r.0.callerTerminal.None?))
  {
    var p, s, sequence := a.producer, a.state, a.token.sequence;
    AckToken(a, h);
    hide AP.Spans, AP.Milestones, AP.Shape, Sequenced, AR.Shown, AM.Marked, AL.Closings, Continues, KeepsSpans, AddsSpans, FinishesOwn;
    AP.UsageFinalizedKept(p, s, h, sequence);
    AR.UsageFinalizedShown(p, s, h, sequence);
    AM.UsageFinalizedMarked(p, s, h, sequence);
    AL.UsageFinalizedClosings(p, s, h, sequence);
    InvShows(a.(state := UsageFinalized(p, s, h, sequence).0), UsageFinalized(p, s, h, sequence).1);
  }

  lemma AckToken(a: Act, h: Stream)
    requires AR.ActInv(a, h) && a.token.AckHeld?
    ensures var s, s' := a.state, UsageFinalized(a.producer, a.state, h, a.token.sequence).0;
            && (s.failed.None? ==> !s.usageSlot && s.usageAck.None? && s.settlement.Some? && Known(h, a.token.sequence))
            && (s'.failed.None? ==> s.failed.None? && s'.usageAck == Some(a.token.sequence) && s'.settlement.Some? && !s'.usageSlot)
  {
    hide AP.Spans, AP.Milestones, Sequenced, AR.Shown, AM.Marked, AL.Closings, MaybeFinish;
    var s := a.state.(usageAck := Some(a.token.sequence));
    FinishFields(a.producer, s, h);
    FinishFailed(a.producer);
  }

  lemma AnswerInv(a: Act, h: Stream)
    requires AR.ActInv(a, h)
    ensures AP.Inv(a.producer, a.state, h)
    ensures a.token.AckHeld? && a.state.failed.None? ==>
              !a.state.usageSlot && a.state.usageAck.None? && a.state.settlement.Some?
  {
    hide AP.Inv, AR.Shown, AM.Marked, AL.Closings;
  }

  lemma TerminalGuardOpens(p: Producer, s: ActState, m: Metadata, settlement: Settlement, outcome: Outcome, code: Option<string>)
    requires TerminalGuard(p, s, m, settlement, outcome, code).None? && !settlement.NotSubmitted?
    ensures s.turnSpan.Some? && s.turnScope.Some? && s.activity.Some?
  {
  }

  class ActLifecycleProducer {
    const producer: Producer
    const hub: DiagnosticHub
    var state: ActState
    ghost var token: Token

    ghost predicate Valid()
      reads this, hub, hub.validator
    {
      hub.Valid() && AR.ActInv(Act(producer, state, token), hub.Contents())
    }

    ghost function Now(): (ActState, Stream)
      reads this, hub, hub.validator
    {
      (state, hub.Contents())
    }

    /** The stream grew by this act's events alone, and the record shows on it. */
    ghost predicate Moved(h: Stream)
      reads this, hub, hub.validator
    {
      Grows(h, hub.Contents(), ActOwner(producer.id)) && Shows(state, hub.Contents(), producer.id)
    }

    constructor (producer: Producer, hub: DiagnosticHub)
      ensures this.producer == producer && this.hub == hub && state == PREPARED && token == InProducer
    {
      this.producer, this.hub, state, token := producer, hub, PREPARED, InProducer;
    }

    method FailDiagnostic()
      modifies this`state
      ensures state == FailAdmission(old(state))
    {
      if state.failed.None? { state := state.(failed := Some(AdmissionFailed)); }
    }

    method FailTransition(code: ActCode)
      modifies this`state
      ensures state == FailState(old(state), code)
    {
      if state.failed.None? { state := state.(failed := Some(StateFailed(code))); }
    }

    method RecordStart()
      requires hub.Valid()
      modifies this`state, hub, hub.validator
      ensures hub.Valid() && Now() == StartAct(producer, old(state), old(hub.Contents()))
    {
      hide Admit;
      var act := hub.AdmitCandidate(Start(producer.scope, ActLifecycle, None, []));
      if act.None? {
        FailDiagnostic();
        return;
      }
      state := state.(actSpan := act);
      var caller := hub.AdmitCandidate(Start(producer.scope, ActCaller, act, []));
      if caller.None? {
        FailDiagnostic();
        return;
      }
      state := state.(callerSpan := caller);
      var admitted := hub.AdmitCandidate(
        Note(producer.scope, ActAdmitted, act.value, Caused(caller.value, FollowsFrom)));
      if admitted.None? {
        FailDiagnostic();
        return;
      }
      state := state.(admitted := admitted);
    }

    method RecordDriverStarted()
      requires hub.Valid()
      modifies this`state, hub, hub.validator
      ensures hub.Valid() && Now() == DriverStarted(producer, old(state), old(hub.Contents()))
    {
      hide Admit;
      if state.failed.Some? {
        return;
      }
      if state.actSpan.None? || state.admitted.None? {
        FailTransition(DriverBeforeLifecycle);
        return;
      }
      if state.waiting.Some? || state.callerTerminal.Some? {
        FailTransition(DriverTransitionInvalid);
        return;
      }
      var waiting := hub.AdmitCandidate(
        Note(producer.scope, ActWaitingReady, state.actSpan.value, Caused(state.admitted.value, FollowsFrom)));
      if waiting.None? {
        FailDiagnostic();
        return;
      }
      state := state.(waiting := waiting);
    }

    method RecordCancelRequested()
      requires hub.Valid()
      modifies this`state, hub, hub.validator
      ensures hub.Valid() && Now() == CancelRequested(producer, old(state), old(hub.Contents()))
    {
      hide Admit;
      if state.failed.Some? || state.cancel.Some? {
        return;
      }
      if state.actSpan.None? || state.callerSpan.None? {
        FailTransition(CancelBeforeLifecycle);
        return;
      }
      if state.callerTerminal.Some? {
        return;
      }
      var source := CancelSource(state);
      if source.None? {
        state := state.(failed := Some(Panicked));
        return;
      }
      var cancel := hub.AdmitCandidate(
        Note(producer.scope, ActCancelRequested, state.callerSpan.value, Caused(source.value, Handoff)));
      if cancel.None? {
        FailDiagnostic();
        return;
      }
      state := state.(cancel := cancel);
    }

    method RecordPromptSubmitted(m: Metadata)
      requires hub.Valid()
      modifies this`state, hub, hub.validator
      ensures hub.Valid() && Now() == PromptSubmitted(producer, old(state), old(hub.Contents()), m)
    {
      hide Admit;
      if state.failed.Some? {
        return;
      }
      var fault := PromptGuard(producer, state, m);
      if fault.Some? {
        FailTransition(fault.value);
        return;
      }
      state := state.(usage := MarkPromptSubmitted(state.usage).value);
      var prompt := hub.AdmitCandidate(
        Note(producer.scope, ActPromptSubmitted, state.actSpan.value, Caused(state.waiting.value, FollowsFrom)));
      if prompt.None? {
        FailDiagnostic();
        return;
      }
      var scope := TurnScope(producer, m);
      var turn := hub.AdmitCandidate(Start(scope, AgentTurn, state.actSpan, Caused(prompt.value, Dispatch)));
      if turn.None? {
        FailDiagnostic();
        return;
      }
      var active := hub.AdmitCandidate(Sample(scope, AgentTurnActive, 1, Caused(turn.value, FollowsFrom)));
      if active.None? {
        FailDiagnostic();
        return;
      }
      var activity := hub.AdmitCandidate(
        Note(scope, AgentTurnActivity, turn.value, Caused(active.value, FollowsFrom)));
      if activity.None? {
        FailDiagnostic();
        return;
      }
      state := state.(prompt := prompt, turnSpan := turn, turnScope := Some(scope), activity := activity);
    }

    method RecordSupervisorHandoff(m: Metadata)
      requires hub.Valid()
      modifies this`state, hub, hub.validator
      ensures hub.Valid() && Now() == SupervisorHandoff(producer, old(state), old(hub.Contents()), m)
    {
      hide Admit;
      if state.failed.Some? {
        return;
      }
      var fault := MetadataFault(producer, m);
      if fault.Some? {
        FailTransition(fault.value);
        return;
      }
      if state.actSpan.None? || state.activity.None? {
        FailTransition(HandoffBeforeTurn);
        return;
      }
      if state.handoff.Some? || state.turnTerminal.Some? {
        FailTransition(HandoffTransitionInvalid);
        return;
      }
      var source := if state.cancel.Some? then state.cancel.value else state.activity.value;
      var handoff := hub.AdmitCandidate(
        Note(producer.scope, ActSupervisorHandoff, state.actSpan.value, Caused(source, Handoff)));
      if handoff.None? {
        FailDiagnostic();
        return;
      }
      state := state.(handoff := handoff);
    }

    /** Finishes the act once caller, settlement and usage acknowledgement are all recorded. */
    method FinishIfJoined() returns (finished: bool)
      requires hub.Valid()
      modifies this`state, hub, hub.validator
      ensures hub.Valid() && Now() == MaybeFinish(producer, old(state), old(hub.Contents()))
      ensures finished <==> state.finishAttempted && (state.failed.None? || old(state.finishAttempted))
      ensures old(state).failed.None? ==> (finished <==> state.failed.None? && state.finishAttempted)
    {
      hide Admit;
      if state.finishAttempted || state.failed.Some? {
        return state.finishAttempted;
      }
      if state.actSpan.None? || state.callerTerminal.None? || state.settlement.None? || state.usageAck.None? {
        return false;
      }
      var remote := None;
      if state.settlement.value != NotSubmitted {
        if state.turnTerminal.None? {
          FailTransition(FinishBeforeTurnTerminal);
          return false;
        }
        remote := state.turnTerminal;
      }
      var terminal := ActTerminal(state.callerTerminal.value, remote);
      state := state.(finishAttempted := true);
      var finish := hub.AdmitCandidate(
        Finish(producer.scope, state.actSpan.value, terminal, Caused(state.usageAck.value, FollowsFrom)));
      if finish.None? {
        FailDiagnostic();
        return false;
      }
      finished := true;
    }

    /** Settles the shared usage identity and then the record. */
    method SettleAs(settlement: Settlement) returns (settled: bool)
      modifies this`state
      ensures settled == Settle(old(state.usage), settlement).Some?
      ensures state == if settled
                       then old(state).(usage := Settle(old(state.usage), settlement).value, settlement := Some(settlement))
                       else FailState(old(state), UsageSlotSettlementInvalid)
    {
      var usage := Settle(state.usage, settlement);
      settled := usage.Some?;
      if settled {
        state := state.(usage := usage.value, settlement := Some(settlement));
      } else {
        FailTransition(UsageSlotSettlementInvalid);
      }
    }

    method Announce(settlement: Settlement) returns (cause: Option<nat>)
      requires hub.Valid() && state.turnSpan.Some? && state.turnScope.Some? && state.activity.Some?
      modifies hub, hub.validator
      ensures hub.Valid() && Admission(hub.Contents(), cause) == AnnounceTerminal(state, old(hub.Contents()), settlement)
    {
      hide Admit;
      var scope, span := state.turnScope.value, state.turnSpan.value;
      var source := if state.handoff.Some? then state.handoff.value else state.activity.value;
      cause := hub.AdmitCandidate(Note(scope, AgentTurnTerminal, span, Caused(source, Return)));
      if cause.Some? && settlement.Authoritative? {
        cause := hub.AdmitCandidate(Note(scope, AgentTurnSettled, span, Caused(cause.value, FollowsFrom)));
      }
    }

    /** Announces and closes the turn, and records its terminal. */
    method EndTurnWith(settlement: Settlement, terminal: Terminal)
      requires hub.Valid() && state.failed.None? && state.turnSpan.Some? && state.turnScope.Some? && state.activity.Some?
      modifies this`state, hub, hub.validator
      ensures hub.Valid() && Now() == CloseTurn(old(state), old(hub.Contents()), settlement, terminal)
    {
      hide Admit, Settle, AnnounceTerminal;
      var scope := state.turnScope.value;
      var cause := Announce(settlement);
      if cause.None? {
        FailDiagnostic();
        return;
      }
      var finish := hub.AdmitCandidate(Finish(scope, state.turnSpan.value, terminal, Caused(cause.value, Return)));
      if finish.None? {
        FailDiagnostic();
        return;
      }
      var inactive := hub.AdmitCandidate(Sample(scope, AgentTurnActive, 0, Caused(finish.value, FollowsFrom)));
      if inactive.None? {
        FailDiagnostic();
        return;
      }
      var settled := SettleAs(settlement);
      if settled {
        state := state.(turnTerminalSequence := inactive, turnTerminal := Some(terminal));
      }
    }

    method EndAndJoin(settlement: Settlement, terminal: Terminal) returns (finished: bool)
      requires hub.Valid() && state.failed.None? && state.turnSpan.Some? && state.turnScope.Some? && state.activity.Some?
      modifies this`state, hub, hub.validator
      ensures hub.Valid()
      ensures var (s, h) := CloseTurn(old(state), old(hub.Contents()), settlement, terminal); Now() == MaybeFinish(producer, s, h)
      ensures finished <==> state.failed.None? && state.finishAttempted
    {
      hide CloseTurn, MaybeFinish;
      EndTurnWith(settlement, terminal);
      AA.NoJoin(producer, state, hub.Contents());
      if state.failed.Some? {
        return false;
      }
      finished := FinishIfJoined();
    }

    /** Settles an act without a prompt, and tries the join. */
    method SettleAndJoin() returns (finished: bool)
      requires hub.Valid() && state.failed.None?
      modifies this`state, hub, hub.validator
      ensures hub.Valid() && Now() == MaybeFinish(producer, SettleUnsubmitted(old(state)), old(hub.Contents()))
      ensures finished <==> state.failed.None? && state.finishAttempted
    {
      hide MaybeFinish, Settle;
      var settled := SettleAs(NotSubmitted);
      AA.NoJoin(producer, state, hub.Contents());
      if !settled {
        return false;
      }
      finished := FinishIfJoined();
    }

    method RecordTurnTerminal(m: Metadata, settlement: Settlement, outcome: Outcome, code: Option<string>)
      returns (finished: bool)
      requires hub.Valid()
      modifies this`state, hub, hub.validator
      ensures hub.Valid() && Now() == TurnTerminal(producer, old(state), old(hub.Contents()), m, settlement, outcome, code)
      ensures finished <==> state.failed.None? && state.finishAttempted
    {
      hide CloseTurn, MaybeFinish, MetadataFault, SettleUnsubmitted, TerminalGuard;
      if state.failed.Some? {
        return false;
      }
      var fault := MetadataFault(producer, m);
      if fault.Some? {
        FailTransition(fault.value);
        return false;
      }
      finished := RecordNamed(m, settlement, outcome, code);
    }

    method RecordNamed(m: Metadata, settlement: Settlement, outcome: Outcome, code: Option<string>) returns (finished: bool)
      requires hub.Valid() && state.failed.None? && MetadataFault(producer, m).None?
      modifies this`state, hub, hub.validator
      ensures hub.Valid() && Now() == TurnTerminal(producer, old(state), old(hub.Contents()), m, settlement, outcome, code)
      ensures finished <==> state.failed.None? && state.finishAttempted
    {
      hide TurnTerminal, CloseTurn, MaybeFinish, MetadataFault, SettleUnsubmitted, TerminalGuard, Settle;
      AA.TerminalCases(producer, state, hub.Contents(), m, settlement, outcome, code);
      if state.settlement == Some(NotSubmitted) && settlement.NotSubmitted? {
        finished := FinishIfJoined();
        return;
      }
      var guard := TerminalGuard(producer, state, m, settlement, outcome, code);
      if guard.Some? {
        FailTransition(guard.value);
        return false;
      }
      if settlement.NotSubmitted? {
        finished := SettleAndJoin();
      } else {
        TerminalGuardOpens(producer, state, m, settlement, outcome, code);
        finished := EndAndJoin(settlement, Terminal(outcome, code));
      }
    }

    /** Closes the caller span, settles an act without a prompt, and tries the join. */
    method FinishCaller(terminal: Terminal, source: nat) returns (finished: bool)
      requires hub.Valid() && state.callerSpan.Some? && CallerSource(state) == Some(source) && state.failed.None?
      modifies this`state, hub, hub.validator
      ensures hub.Valid() && Now() == RecordCaller(producer, old(state), old(hub.Contents()), terminal)
      ensures finished <==> state.failed.None? && state.finishAttempted
    {
      hide Admit, MaybeFinish, CallerSource, Settle;
      var relation := if terminal.outcome.Cancelled? then Handoff else Return;
      var finish := hub.AdmitCandidate(Finish(producer.scope, state.callerSpan.value, terminal, Caused(source, relation)));
      if finish.None? {
        FailDiagnostic();
        return false;
      }
      state := state.(callerTerminal := Some(terminal));
      if state.prompt.None? && state.settlement.None? {
        var settled := SettleAs(NotSubmitted);
        if !settled {
          AA.NoJoin(producer, state, hub.Contents());
          return false;
        }
      }
      finished := FinishIfJoined();
    }

    method RecordCallerFinished(exit: Exit, error: Raised) returns (finished: bool)
      requires hub.Valid()
      modifies this`state, hub, hub.validator
      ensures hub.Valid() && Now() == CallerFinished(producer, old(state), old(hub.Contents()), exit, error)
      ensures finished <==> state.failed.None? && state.finishAttempted
    {
      hide CallerFinished, RecordCaller, CallerTerminal, CallerSource;
      AA.CallerCases(producer, state, hub.Contents(), exit, error);
      if state.failed.Some? {
        return false;
      }
      if state.callerSpan.None? {
        FailTransition(CallerFinishBeforeStart);
        return false;
      }
      if state.callerTerminal.Some? {
        FailTransition(CallerFinishTransitionInvalid);
        return false;
      }
      var source := CallerSource(state);
      if source.None? {
        state := state.(failed := Some(Panicked));
        return false;
      }
      finished := FinishCaller(CallerTerminal(exit, error), source.value);
    }

    method RecordSlotTaken() returns (given: bool)
      modifies this`state
      ensures (state, given) == TakeUsageSlot(old(state))
    {
      if state.failed.Some? || state.actSpan.None? || state.finishAttempted {
        return false;
      }
      given := state.usageSlot;
      state := state.(usageSlot := false);
    }

    method RecordNotification() returns (given: bool)
      modifies this`state
      ensures (state, given) == TakeSettlementNotification(old(state))
    {
      if state.failed.Some? || state.settlement.None? || state.notified {
        return false;
      }
      state := state.(notified := true);
      given := true;
    }

    method RecordUsageAck(sequence: nat) returns (finished: bool)
      requires hub.Valid()
      modifies this`state, hub, hub.validator
      ensures hub.Valid() && Now() == UsageFinalized(producer, old(state), old(hub.Contents()), sequence)
      ensures finished <==> state.failed.None? && state.finishAttempted
    {
      hide MaybeFinish;
      if state.failed.Some? {
        return false;
      }
      if state.usageSlot || state.usageAck.Some? || state.settlement.None? {
        FailTransition(UsageAckTransitionInvalid);
        return false;
      }
      state := state.(usageAck := Some(sequence));
      finished := FinishIfJoined();
    }

    // ----- Hooks -----

    /** Opens the act and the caller span and admits the act; its identifier has to be new. */
    method Begin()
      requires hub.Valid() && state == PREPARED && token == InProducer && AP.ProducerOk(producer)
      requires Sequenced(hub.Contents()) && AR.Untouched(hub.Contents(), producer.id)
      modifies this`state, hub, hub.validator
      ensures Valid() && Moved(old(hub.Contents())) && Now() == StartAct(producer, PREPARED, old(hub.Contents()))
      ensures AA.StartAnswer(producer, old(hub.Contents()), Now())
      ensures state.failed.None? ==> state.actSpan.Some? && IsOpen(hub.Contents(), state.actSpan.value)
                                     && state.admitted == Some(|hub.log|) && state.usageSlot
    {
      hide StartAct, AR.ActInv, AP.Inv, Grows, Shows, Sequenced, AR.Untouched;
      AR.StartKept(producer, hub.Contents());
      AR.StartActFields(producer, hub.Contents());
      BeginMeans(producer, hub.Contents());
      AA.StartAnswered(producer, hub.Contents());
      StartShows(producer, hub.Contents());
      RecordStart();
    }

    /** The driver starts once, while the caller is there; its mark is the newest event. */
    method ObserveDriverStarted()
      requires Valid()
      modifies this`state, hub, hub.validator
      ensures Valid() && Moved(old(hub.Contents())) && Now() == DriverStarted(producer, old(state), old(hub.Contents()))
      ensures AA.DriverAnswer(producer, old(state), old(hub.Contents()), Now())
      ensures state.failed.None? ==>
                && old(state).waiting.None? && old(state).callerTerminal.None?
                && state == old(state).(waiting := Some(|hub.log|))
    {
      hide DriverStarted, AR.ActInv, AP.Inv, Grows, Shows;
      HookKept(Act(producer, state, token), hub.Contents(), OpDriverStarted);
      AnswerInv(Act(producer, state, token), hub.Contents());
      AA.DriverAnswered(producer, state, hub.Contents());
      DriverMeans(producer, state, hub.Contents());
      RecordDriverStarted();
    }

    /** A cancel request is recorded once, unless the caller is gone. */
    method ObserveCancelRequested()
      requires Valid()
      modifies this`state, hub, hub.validator
      ensures Valid() && Moved(old(hub.Contents())) && Now() == CancelRequested(producer, old(state), old(hub.Contents()))
      ensures AA.CancelAnswer(producer, old(state), old(hub.Contents()), Now())
      ensures state.failed.None? ==>
                && (state.cancel.Some? || state.callerTerminal.Some?)
                && (old(state).cancel.Some? || old(state).callerTerminal.Some? ==> state == old(state))
    {
      hide CancelRequested, AR.ActInv, AP.Inv, Grows, Shows;
      HookKept(Act(producer, state, token), hub.Contents(), OpCancelRequested);
      AnswerInv(Act(producer, state, token), hub.Contents());
      AA.CancelAnswered(producer, state, hub.Contents());
      CancelMeans(producer, state, hub.Contents());
      RecordCancelRequested();
    }

    /** A prompt opens the one turn of the act. */
    method ObservePromptSubmitted(m: Metadata)
      requires Valid() && m.generation > 0
      modifies this`state, hub, hub.validator
      ensures Valid() && Moved(old(hub.Contents())) && Now() == PromptSubmitted(producer, old(state), old(hub.Contents()), m)
      ensures AA.PromptAnswer(producer, old(state), old(hub.Contents()), m, Now())
      ensures state.failed.None? ==>
                && old(state).prompt.None? && state.turnSpan.Some? && IsOpen(hub.Contents(), state.turnSpan.value)
                && LastSample(hub.log, AgentTurnActive, ActOwner(producer.id)) == Some(1)
                && state.activity == Some(|hub.log|) && state.usage.promptSubmitted
    {
      hide PromptSubmitted, AR.ActInv, AP.Inv, Grows, Shows;
      HookKept(Act(producer, state, token), hub.Contents(), OpPromptSubmitted(m));
      AnswerInv(Act(producer, state, token), hub.Contents());
      AA.PromptAnswered(producer, state, hub.Contents(), m);
      PromptMeans(Act(producer, state, token), hub.Contents(), m);
      RecordPromptSubmitted(m);
    }

    /** A running turn is handed to the supervisor once. */
    method ObserveSupervisorHandoff(m: Metadata)
      requires Valid()
      modifies this`state, hub, hub.validator
      ensures Valid() && Moved(old(hub.Contents())) && Now() == SupervisorHandoff(producer, old(state), old(hub.Contents()), m)
      ensures AA.HandoffAnswer(producer, old(state), old(hub.Contents()), m, Now())
      ensures state.failed.None? ==>
                && old(state).handoff.None? && old(state).turnTerminal.None? && old(state).turnSpan.Some?
                && state == old(state).(handoff := Some(|hub.log|))
    {
      hide SupervisorHandoff, AR.ActInv, AP.Inv, Grows, Shows;
      HookKept(Act(producer, state, token), hub.Contents(), OpSupervisorHandoff(m));
      AnswerInv(Act(producer, state, token), hub.Contents());
      AA.HandoffAnswered(producer, state, hub.Contents(), m);
      HandoffMeans(Act(producer, state, token), hub.Contents(), m);
      RecordSupervisorHandoff(m);
    }

    /** The remote side has settled: the turn, if there was one, is closed with its terminal. */
    method ObserveTurnTerminal(m: Metadata, settlement: Settlement, outcome: Outcome, code: Option<string>)
      returns (finished: bool)
      requires Valid()
      modifies this`state, hub, hub.validator
      ensures Valid() && Moved(old(hub.Contents())) && Now() == TurnTerminal(producer, old(state), old(hub.Contents()), m, settlement, outcome, code)
      ensures finished <==> state.failed.None? && state.finishAttempted
      ensures AA.TerminalAnswer(producer, old(state), old(hub.Contents()), m, settlement, outcome, code, Now())
      ensures state.failed.None? ==>
                && state.settlement == Some(settlement)
                && (settlement != NotSubmitted ==>
                      && state.turnSpan.Some? && !IsOpen(hub.Contents(), state.turnSpan.value)
                      && state.turnTerminal == Some(Terminal(outcome, code))
                      && LastSample(hub.log, AgentTurnActive, ActOwner(producer.id)) == Some(0))
    {
      hide TurnTerminal, AR.ActInv, AP.Inv, Grows, Shows;
      HookKept(Act(producer, state, token), hub.Contents(), OpTurnTerminal(m, settlement, outcome, code));
      AnswerInv(Act(producer, state, token), hub.Contents());
      AA.TerminalAnswered(producer, state, hub.Contents(), m, settlement, outcome, code);
      TerminalMeans(Act(producer, state, token), hub.Contents(), m, settlement, outcome, code);
      finished := RecordTurnTerminal(m, settlement, outcome, code);
    }

    /** The caller leaves once; without a prompt that settles the act. */
    method ObserveCallerFinished(exit: Exit, error: Raised) returns (finished: bool)
      requires Valid()
      modifies this`state, hub, hub.validator
      ensures Valid() && Moved(old(hub.Contents())) && Now() == CallerFinished(producer, old(state), old(hub.Contents()), exit, error)
      ensures finished <==> state.failed.None? && state.finishAttempted
      ensures AA.CallerAnswer(producer, old(state), old(hub.Contents()), exit, error, Now())
      ensures state.failed.None? ==>
                && old(state).callerTerminal.None? && !IsOpen(hub.Contents(), state.callerSpan.value)
                && state.callerTerminal.Some? && AA.ExitsAs(state.callerTerminal.value, exit, error)
                && (state.prompt.None? ==> state.settlement.Some?)
    {
      hide CallerFinished, AR.ActInv, AP.Inv, Grows, Shows, AA.ExitsAs, LastSample;
      HookKept(Act(producer, state, token), hub.Contents(), OpCallerFinished(exit, error));
      AnswerInv(Act(producer, state, token), hub.Contents());
      AA.CallerAnswered(producer, state, hub.Contents(), exit, error);
      CallerMeans(Act(producer, state, token), hub.Contents(), exit, error);
      finished := RecordCallerFinished(exit, error);
    }

    /** Hands out the usage slot at most once, and to nobody once the act is over. */
    method GiveUsageSlot() returns (given: bool)
      requires Valid()
      modifies this`state, this`token
      ensures Valid() && state == old(state).(usageSlot := old(state).usageSlot && state.usageSlot)
      ensures given ==> old(token) == InProducer && token == SlotHeld && !state.usageSlot
      ensures !given ==> token == old(token)
      ensures state.failed.None? && !state.finishAttempted ==> !state.usageSlot && (given <==> old(token) == InProducer)
    {
      hide AR.ActInv;
      SlotKept(Act(producer, state, token), hub.Contents());
      given := RecordSlotTaken();
      if given { token := SlotHeld; }
    }

    /** The holder of the slot acknowledges the final usage event, once the act is settled. */
    ghost method AcknowledgeUsage(sequence: nat)
      requires Valid() && token == SlotHeld && state.usage.settlement.Some? && Known(hub.Contents(), sequence)
      modifies this`token
      ensures Valid() && token == AckHeld(sequence)
    {
      hide AR.ActInv;
      AckKept(Act(producer, state, token), hub.Contents(), sequence);
      token := AckHeld(sequence);
    }

    /** Announces the settlement once. */
    method GiveSettlementNotification() returns (given: bool)
      requires Valid()
      modifies this`state
      ensures Valid() && state == old(state).(notified := old(state).notified || given)
      ensures given <==> old(state).failed.None? && old(state).settlement.Some? && !old(state).notified
    {
      hide AR.ActInv;
      NotificationKept(Act(producer, state, token), hub.Contents());
      given := RecordNotification();
    }

    /** Consumes the acknowledgement: a caller that has left makes the act finish now. */
    method AcceptUsageAck(sequence: nat) returns (finished: bool)
      requires Valid() && token == AckHeld(sequence)
      modifies this`state, this`token, hub, hub.validator
      ensures Valid() && Moved(old(hub.Contents())) && token == Spent
      ensures Now() == UsageFinalized(producer, old(state), old(hub.Contents()), sequence)
      ensures finished <==> state.failed.None? && state.finishAttempted
      ensures AA.UsageAnswer(producer, old(state), old(hub.Contents()), sequence, Now())
      ensures state.failed.None? ==>
                && state.usageAck == Some(sequence)
                && (IsOpen(hub.Contents(), state.actSpan.value) <==> state.callerTerminal.None?)
    {
      hide UsageFinalized, AR.ActInv, AP.Inv, Grows, Shows;
      AckAccepted(Act(producer, state, token), hub.Contents());
      AnswerInv(Act(producer, state, token), hub.Contents());
      AA.UsageAnswered(producer, state, hub.Contents(), sequence);
      finished := RecordUsageAck(sequence);
      token := Spent;
    }
  }
}
