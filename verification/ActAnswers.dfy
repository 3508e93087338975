/** What each hook of an act answers, for every record that is in order and every answer of the hub:
    which hooks are legal when, which candidates a legal one offers, and what it leaves behind. */
module ActAnswers {
  import opened Events
  import opened Hub
  import opened Offers
  import opened Act
  import opened ActProofs
  import AM = ActMarks
  import AL = ActClosings

  /** A legal hook: the act stays healthy, with this record, exactly if all candidates are taken. */
  ghost predicate Ran(h: Stream, cs: seq<Candidate>, done: ActState, r: (ActState, Stream)) {
    && r.1 == Offer(h, cs).0
    && if Offer(h, cs).1 then r.0 == done else r.0.failed == Some(AdmissionFailed)
  }

  /** An illegal hook: nothing is offered, and the act fails for this reason. */
  ghost predicate Stopped(h: Stream, code: ActCode, r: (ActState, Stream)) {
    r.1 == h && r.0.failed == Some(StateFailed(code))
  }

  /** The metadata of a turn names this act. */
  predicate Names(p: Producer, m: Metadata) {
    m.identity == p.identity && m.provider == p.provider && p.scope.generation in {None, Some(m.generation)}
  }

  /** Metadata of another act stops it; the identity is looked at first, the generation last. */
  ghost predicate Misnamed(p: Producer, h: Stream, m: Metadata, r: (ActState, Stream)) {
    if m.identity != p.identity then Stopped(h, TurnIdentityMismatch, r)
    else if m.provider != p.provider then Stopped(h, TurnProviderMismatch, r)
    else Stopped(h, TurnGenerationMismatch, r)
  }

  ghost predicate StartAnswer(p: Producer, h: Stream, r: (ActState, Stream)) {
    var n := |h.log|;
    Ran(h, [Start(p.scope, ActLifecycle, None, []), Start(p.scope, ActCaller, Some(n + 1), []),
            Note(p.scope, ActAdmitted, n + 1, Caused(n + 2, FollowsFrom))],
        PREPARED.(actSpan := Some(n + 1), callerSpan := Some(n + 2), admitted := Some(n + 3)), r)
  }

  /** The driver starts once, while the caller is there. */
  ghost predicate DriverAnswer(p: Producer, s: ActState, h: Stream, r: (ActState, Stream)) {
    if s.failed.Some? then r == (s, h)
    else if s.waiting.Some? || s.callerTerminal.Some? then Stopped(h, DriverTransitionInvalid, r)
    else
      s.actSpan.Some? && s.admitted.Some?
      && Ran(h, [Note(p.scope, ActWaitingReady, s.actSpan.value, Caused(s.admitted.value, FollowsFrom))],
             s.(waiting := Some(|h.log| + 1)), r)
  }

  /** A cancel is recorded once, while the caller is there, and is never illegal. */
  ghost predicate CancelAnswer(p: Producer, s: ActState, h: Stream, r: (ActState, Stream)) {
    if s.failed.Some? || s.cancel.Some? || s.callerTerminal.Some? then r == (s, h)
    else
      s.callerSpan.Some?
      && Ran(h, [Note(p.scope, ActCancelRequested, s.callerSpan.value, Caused(AM.LatestBefore(s, |h.log| + 1), Handoff))],
             s.(cancel := Some(|h.log| + 1)), r)
  }

  /** A prompt opens the one turn, once the driver has started and while the caller is there. */
  ghost predicate PromptAnswer(p: Producer, s: ActState, h: Stream, m: Metadata, r: (ActState, Stream)) {
    var n, scope := |h.log|, p.scope.(generation := Some(m.generation));
    if s.failed.Some? then r == (s, h)
    else if !Names(p, m) then Misnamed(p, h, m, r)
    else if s.waiting.None? then Stopped(h, PromptBeforeDriver, r)
    else if s.prompt.Some? || s.callerTerminal.Some? || s.settlement.Some? then Stopped(h, PromptTransitionInvalid, r)
    else
      s.actSpan.Some?
      && Ran(h, [Note(p.scope, ActPromptSubmitted, s.actSpan.value, Caused(s.waiting.value, FollowsFrom)),
                 Start(scope, AgentTurn, s.actSpan, Caused(n + 1, Dispatch)),
                 Sample(scope, AgentTurnActive, 1, Caused(n + 2, FollowsFrom)),
                 Note(scope, AgentTurnActivity, n + 2, Caused(n + 3, FollowsFrom))],
             s.(usage := Usage(true, None), prompt := Some(n + 1), turnSpan := Some(n + 2), turnScope := Some(scope),
                activity := Some(n + 4)), r)
  }

  /** A running turn is handed over once, because of the cancel if there was one. */
  ghost predicate HandoffAnswer(p: Producer, s: ActState, h: Stream, m: Metadata, r: (ActState, Stream)) {
    if s.failed.Some? then r == (s, h)
    else if !Names(p, m) then Misnamed(p, h, m, r)
    else if s.prompt.None? then Stopped(h, HandoffBeforeTurn, r)
    else if s.settlement.Some? || s.handoff.Some? then Stopped(h, HandoffTransitionInvalid, r)
    else
      s.actSpan.Some? && s.activity.Some?
      && Ran(h, [Note(p.scope, ActSupervisorHandoff, s.actSpan.value,
                      Caused(if s.cancel.Some? then s.cancel.value else s.activity.value, Handoff))],
             s.(handoff := Some(|h.log| + 1)), r)
  }

  /** What the end of a turn puts on the log: its terminal, which an authoritative settlement
      confirms, the finish of its span and the sample that nothing is active any more. */
  function TurnScript(s: ActState, n: nat, settlement: Settlement, t: Terminal): seq<Candidate>
    requires s.turnScope.Some? && s.turnSpan.Some? && s.activity.Some?
  {
    var scope, span := s.turnScope.value, s.turnSpan.value;
    var cause := if s.handoff.Some? then s.handoff.value else s.activity.value;
    if settlement.Authoritative? then
      [Note(scope, AgentTurnTerminal, span, Caused(cause, Return)),
       Note(scope, AgentTurnSettled, span, Caused(n + 1, FollowsFrom)),
       Finish(scope, span, t, Caused(n + 2, Return)),
       Sample(scope, AgentTurnActive, 0, Caused(n + 3, FollowsFrom))]
    else
      [Note(scope, AgentTurnTerminal, span, Caused(cause, Return)),
       Finish(scope, span, t, Caused(n + 1, Return)),
       Sample(scope, AgentTurnActive, 0, Caused(n + 2, FollowsFrom))]
  }

  /** The remote side settles an act once, as submitted exactly if there was a prompt, with a code
      exactly if it did not complete; only that nothing was submitted may be said again. */
  ghost predicate TerminalAnswer(p: Producer, s: ActState, h: Stream, m: Metadata, settlement: Settlement,
                           outcome: Outcome, code: Option<string>, r: (ActState, Stream))
  {
    if s.failed.Some? then r == (s, h)
    else if !Names(p, m) then Misnamed(p, h, m, r)
    else if s.settlement.Some? then
      if s.settlement == Some(NotSubmitted) && settlement == NotSubmitted then r == (s, h)
      else Stopped(h, TurnTerminalTransitionInvalid, r)
    else if outcome.Completed? != code.None? then Stopped(h, TurnTerminalDetailInvalid, r)
    else if settlement == NotSubmitted then
      if s.prompt.Some? then Stopped(h, NotSubmittedAfterTurnStart, r)
      else r == (s.(usage := Usage(false, Some(NotSubmitted)), settlement := Some(NotSubmitted)), h)
    else if s.prompt.None? then Stopped(h, TurnTerminalBeforeStart, r)
    else
      var n, t := |h.log|, Terminal(outcome, code);
      && s.turnScope.Some? && s.turnSpan.Some? && s.activity.Some?
      && Ran(h, TurnScript(s, n, settlement, t),
             s.(usage := Usage(true, Some(settlement)), settlement := Some(settlement), turnTerminal := Some(t),
                turnTerminalSequence := Some(n + if settlement.Authoritative? then 4 else 3)), r)
  }

  /** What joins an act: its own finish, caused by the acknowledged usage event. */
  function JoinScript(p: Producer, s: ActState): seq<Candidate> {
    if s.actSpan.None? || s.callerTerminal.None? || s.usageAck.None? then []
    else [Finish(p.scope, s.actSpan.value, ActTerminal(s.callerTerminal.value, Remote(s)), Caused(s.usageAck.value, FollowsFrom))]
  }

  /** The caller leaves once; without a prompt that settles the act, and if everything else is in it
      finishes the act. */
  ghost predicate CallerAnswer(p: Producer, s: ActState, h: Stream, exit: Exit, error: Raised, r: (ActState, Stream)) {
    if s.failed.Some? then r == (s, h)
    else if s.callerTerminal.Some? then Stopped(h, CallerFinishTransitionInvalid, r)
    else
      var t := CallerTerminal(exit, error);
      var left := s.(callerTerminal := Some(t));
      var cause := AL.CallerCause(s, |h.log| + 1);
      && s.callerSpan.Some? && cause.Some?
      && Ran(h, [Finish(p.scope, s.callerSpan.value, t, Caused(cause.value, if t.outcome.Cancelled? then Handoff else Return))]
                + JoinScript(p, left),
             if s.prompt.None? && s.settlement.None?
             then left.(usage := Usage(false, Some(NotSubmitted)), settlement := Some(NotSubmitted))
             else left.(finishAttempted := s.usageAck.Some?), r)
  }

  /** The acknowledged usage event is the last part of the join once the caller has left. */
  ghost predicate UsageAnswer(p: Producer, s: ActState, h: Stream, sequence: nat, r: (ActState, Stream)) {
    if s.failed.Some? then r == (s, h)
    else
      var known := s.(usageAck := Some(sequence));
      Ran(h, JoinScript(p, known), known.(finishAttempted := s.callerTerminal.Some?), r)
  }

  // ----- The hooks answer so -----

  lemma StartAnswered(p: Producer, h: Stream)
    ensures StartAnswer(p, h, StartAct(p, PREPARED, h))
  {
    hide Admit, Offer;
    var n := |h.log|;
    var c1, c2, c3 := Start(p.scope, ActLifecycle, None, []), Start(p.scope, ActCaller, Some(n + 1), []),
                      Note(p.scope, ActAdmitted, n + 1, Caused(n + 2, FollowsFrom));
    OfferThree(h, c1, c2, c3);
    var a := Admit(h, c1);
    if a.sequence.Some? {
      OfferTwo(a.stream, c2, c3);
      var b := Admit(a.stream, c2);
      if b.sequence.Some? { OfferOne(b.stream, c3); }
    }
  }

  lemma DriverAnswered(p: Producer, s: ActState, h: Stream)
    requires Inv(p, s, h)
    ensures DriverAnswer(p, s, h, DriverStarted(p, s, h))
  {
    hide Admit, Offer, Spans, Milestones, Sequenced;
    if s.failed.None? {
      OfferOne(h, Note(p.scope, ActWaitingReady, s.actSpan.value, Caused(s.admitted.value, FollowsFrom)));
    }
  }

  lemma CancelAnswered(p: Producer, s: ActState, h: Stream)
    requires Inv(p, s, h)
    ensures CancelAnswer(p, s, h, CancelRequested(p, s, h))
  {
    hide Admit, Offer, Spans, Sequenced;
    if s.failed.None? {
      OfferOne(h, Note(p.scope, ActCancelRequested, s.callerSpan.value, Caused(AM.LatestBefore(s, |h.log| + 1), Handoff)));
    }
  }

  lemma PromptAnswered(p: Producer, s: ActState, h: Stream, m: Metadata)
    requires Inv(p, s, h)
    ensures PromptAnswer(p, s, h, m, PromptSubmitted(p, s, h, m))
  {
    hide Admit, Offer, Spans, Milestones, Sequenced;
    if s.failed.None? && PromptGuard(p, s, m).None? {
      TurnOpens(p, s.(usage := MarkPromptSubmitted(s.usage).value), h, m);
      hide OpenTurn;
    }
  }

  lemma TurnOpens(p: Producer, s: ActState, h: Stream, m: Metadata)
    requires ProducerOk(p) && s.actSpan.Some? && s.waiting.Some? && s.failed.None?
    ensures var n, scope := |h.log|, p.scope.(generation := Some(m.generation));
            Ran(h, [Note(p.scope, ActPromptSubmitted, s.actSpan.value, Caused(s.waiting.value, FollowsFrom)),
                    Start(scope, AgentTurn, s.actSpan, Caused(n + 1, Dispatch)),
                    Sample(scope, AgentTurnActive, 1, Caused(n + 2, FollowsFrom)),
                    Note(scope, AgentTurnActivity, n + 2, Caused(n + 3, FollowsFrom))],
                s.(prompt := Some(n + 1), turnSpan := Some(n + 2), turnScope := Some(scope), activity := Some(n + 4)),
                OpenTurn(p, s, h, m))
  {
    hide Admit, Offer;
    var n, scope := |h.log|, TurnScope(p, m);
    assert scope == p.scope.(generation := Some(m.generation));
    hide TurnScope;
    var c1, c2, c3, c4 := Note(p.scope, ActPromptSubmitted, s.actSpan.value, Caused(s.waiting.value, FollowsFrom)),
                          Start(scope, AgentTurn, s.actSpan, Caused(n + 1, Dispatch)),
                          Sample(scope, AgentTurnActive, 1, Caused(n + 2, FollowsFrom)),
                          Note(scope, AgentTurnActivity, n + 2, Caused(n + 3, FollowsFrom));
    OfferFour(h, c1, c2, c3, c4);
    var a := Admit(h, c1);
    if a.sequence.Some? {
      OfferThree(a.stream, c2, c3, c4);
      var b := Admit(a.stream, c2);
      if b.sequence.Some? {
        OfferTwo(b.stream, c3, c4);
        var c := Admit(b.stream, c3);
        if c.sequence.Some? { OfferOne(c.stream, c4); }
      }
    }
  }

  lemma HandoffAnswered(p: Producer, s: ActState, h: Stream, m: Metadata)
    requires Inv(p, s, h)
    ensures HandoffAnswer(p, s, h, m, SupervisorHandoff(p, s, h, m))
  {
    hide Admit, Offer, Spans, Milestones, Sequenced;
    if s.failed.None? && s.prompt.Some? {
      OfferOne(h, Note(p.scope, ActSupervisorHandoff, s.actSpan.value,
                       Caused(if s.cancel.Some? then s.cancel.value else s.activity.value, Handoff)));
    }
  }

  lemma TurnCloses(s: ActState, h: Stream, settlement: Settlement, t: Terminal)
    requires s.turnScope.Some? && s.turnSpan.Some? && s.activity.Some? && s.failed.None?
    requires settlement != NotSubmitted && s.usage == Usage(true, None)
    ensures var n := |h.log|;
            Ran(h, TurnScript(s, n, settlement, t),
                s.(usage := Usage(true, Some(settlement)), settlement := Some(settlement), turnTerminal := Some(t),
                   turnTerminalSequence := Some(n + if settlement.Authoritative? then 4 else 3)),
                CloseTurn(s, h, settlement, t))
  {
    hide Admit, Offer, EndTurn;
    var n, script := |h.log|, TurnScript(s, |h.log|, settlement, t);
    if settlement.Authoritative? {
      OfferFour(h, script[0], script[1], script[2], script[3]);
      var a := Admit(h, script[0]);
      if a.sequence.Some? {
        OfferThree(a.stream, script[1], script[2], script[3]);
        var b := Admit(a.stream, script[1]);
        if b.sequence.Some? { TurnEnds(s, b.stream, settlement, t); }
      }
    } else {
      OfferThree(h, script[0], script[1], script[2]);
      var a := Admit(h, script[0]);
      if a.sequence.Some? { TurnEnds(s, a.stream, settlement, t); }
    }
  }

  lemma TurnEnds(s: ActState, h: Stream, settlement: Settlement, t: Terminal)
    requires s.turnScope.Some? && s.turnSpan.Some? && s.failed.None?
    requires settlement != NotSubmitted && s.usage == Usage(true, None)
    ensures var scope, n := s.turnScope.value, |h.log|;
            Ran(h, [Finish(scope, s.turnSpan.value, t, Caused(n, Return)), Sample(scope, AgentTurnActive, 0, Caused(n + 1, FollowsFrom))],
                s.(usage := Usage(true, Some(settlement)), settlement := Some(settlement), turnTerminal := Some(t),
                   turnTerminalSequence := Some(n + 2)),
                EndTurn(s, h, n, settlement, t))
  {
    hide Admit, Offer;
    var scope, n := s.turnScope.value, |h.log|;
    var c1, c2 := Finish(scope, s.turnSpan.value, t, Caused(n, Return)), Sample(scope, AgentTurnActive, 0, Caused(n + 1, FollowsFrom));
    OfferTwo(h, c1, c2);
    var a := Admit(h, c1);
    if a.sequence.Some? { OfferOne(a.stream, c2); }
  }

  /** The four ways through the end of a turn that names its act. */
  lemma TerminalCases(p: Producer, s: ActState, h: Stream, m: Metadata, settlement: Settlement, outcome: Outcome, code: Option<string>)
    requires s.failed.None? && MetadataFault(p, m).None?
    ensures var r, guard := TurnTerminal(p, s, h, m, settlement, outcome, code), TerminalGuard(p, s, m, settlement, outcome, code);
            if s.settlement == Some(NotSubmitted) && settlement.NotSubmitted? then r == MaybeFinish(p, s, h)
            else if guard.Some? then r == (FailState(s, guard.value), h)
            else if settlement.NotSubmitted? then r == MaybeFinish(p, SettleUnsubmitted(s), h)
            else
              && s.turnSpan.Some? && s.turnScope.Some? && s.activity.Some?
              && var (s1, h1) := CloseTurn(s, h, settlement, Terminal(outcome, code)); r == MaybeFinish(p, s1, h1)
  {
    hide CloseTurn, MaybeFinish, MetadataFault, SettleUnsubmitted;
  }

  lemma TerminalAnswered(p: Producer, s: ActState, h: Stream, m: Metadata, settlement: Settlement,
                         outcome: Outcome, code: Option<string>)
    requires Inv(p, s, h)
    ensures TerminalAnswer(p, s, h, m, settlement, outcome, code, TurnTerminal(p, s, h, m, settlement, outcome, code))
  {
    hide TurnTerminal, Spans, Milestones, Sequenced, CloseTurn, MaybeFinish, MetadataFault, TurnScript, Ran;
    MetadataAnswered(p, m);
    if s.failed.Some? || MetadataFault(p, m).Some? {
      TerminalStops(p, s, h, m, settlement, outcome, code);
    } else {
      TerminalCases(p, s, h, m, settlement, outcome, code);
      if settlement != NotSubmitted && s.prompt.Some? && s.settlement.None? && DetailIsValid(outcome, code) {
        TurnCloses(s, h, settlement, Terminal(outcome, code));
        SubmittedEnds(p, s, h, m, settlement, outcome, code);
      } else {
        NoJoin(p, s, h);
        NoJoin(p, SettleUnsubmitted(s), h);
      }
    }
  }

  lemma TerminalStops(p: Producer, s: ActState, h: Stream, m: Metadata, settlement: Settlement, outcome: Outcome, code: Option<string>)
    ensures var r := TurnTerminal(p, s, h, m, settlement, outcome, code);
            && (s.failed.Some? ==> r == (s, h))
            && (s.failed.None? && MetadataFault(p, m).Some? ==> r == (FailState(s, MetadataFault(p, m).value), h))
  {
    hide CloseTurn, MaybeFinish, MetadataFault;
  }

  lemma SubmittedEnds(p: Producer, s: ActState, h: Stream, m: Metadata, settlement: Settlement,
                      outcome: Outcome, code: Option<string>)
    requires Shape(s) && s.failed.None? && MetadataFault(p, m).None? && settlement != NotSubmitted && s.prompt.Some?
    requires s.settlement.None? && DetailIsValid(outcome, code)
    ensures TurnTerminal(p, s, h, m, settlement, outcome, code) == CloseTurn(s, h, settlement, Terminal(outcome, code))
  {
    hide CloseTurn, MaybeFinish, MetadataFault;
    var t := Terminal(outcome, code);
    CloseKeepsAck(s, h, settlement, t);
    NoJoin(p, CloseTurn(s, h, settlement, t).0, CloseTurn(s, h, settlement, t).1);
  }

  lemma MetadataAnswered(p: Producer, m: Metadata)
    ensures MetadataFault(p, m) ==
            if Names(p, m) then None
            else if m.identity != p.identity then Some(TurnIdentityMismatch)
            else if m.provider != p.provider then Some(TurnProviderMismatch)
            else Some(TurnGenerationMismatch)
  {
  }

  /** Without an acknowledgement, and after the finish, there is nothing to join. */
  lemma NoJoin(p: Producer, s: ActState, h: Stream)
    ensures s.usageAck.None? || s.finishAttempted || s.failed.Some? || s.callerTerminal.None? ==> MaybeFinish(p, s, h) == (s, h)
  {
  }

  lemma CloseKeepsAck(s: ActState, h: Stream, settlement: Settlement, t: Terminal)
    requires s.turnScope.Some? && s.turnSpan.Some? && s.activity.Some? && s.usageAck.None?
    ensures CloseTurn(s, h, settlement, t).0.usageAck.None?
  {
    hide Admit, AnnounceTerminal, Settle;
  }

  lemma Joins(p: Producer, s: ActState, h: Stream)
    requires s.failed.None? && !s.finishAttempted && s.actSpan.Some?
    requires s.usageAck.Some? ==> s.settlement.Some? && (s.settlement.value != NotSubmitted ==> s.turnTerminal.Some?)
    ensures Ran(h, JoinScript(p, s), s.(finishAttempted := s.callerTerminal.Some? && s.usageAck.Some?), MaybeFinish(p, s, h))
  {
    hide Admit, ActTerminal;
    if s.callerTerminal.Some? && s.usageAck.Some? { OfferOne(h, JoinScript(p, s)[0]); }
  }

  lemma CallerAnswered(p: Producer, s: ActState, h: Stream, exit: Exit, error: Raised)
    requires Inv(p, s, h)
    ensures CallerAnswer(p, s, h, exit, error, CallerFinished(p, s, h, exit, error))
  {
    hide Admit, Offer, Spans, Sequenced, CallerTerminal, RecordCaller, JoinScript, Ran, Milestones, CallerSource, AL.CallerCause;
    if s.failed.None? && s.callerTerminal.None? {
      CauseAnswered(p, s, h);
      LeaveAnswered(p, s, h, CallerTerminal(exit, error));
    }
  }

  /** The ways through the exit of a caller. */
  lemma CallerCases(p: Producer, s: ActState, h: Stream, exit: Exit, error: Raised)
    ensures var r := CallerFinished(p, s, h, exit, error);
            if s.failed.Some? then r == (s, h)
            else if s.callerSpan.None? then r == (FailState(s, CallerFinishBeforeStart), h)
            else if s.callerTerminal.Some? then r == (FailState(s, CallerFinishTransitionInvalid), h)
            else if CallerSource(s).None? then r == (s.(failed := Some(Panicked)), h)
            else r == RecordCaller(p, s, h, CallerTerminal(exit, error))
  {
    hide RecordCaller, CallerTerminal, CallerSource;
  }

  lemma CauseAnswered(p: Producer, s: ActState, h: Stream)
    requires Inv(p, s, h) && s.failed.None?
    ensures AL.CallerCause(s, |h.log| + 1) == CallerSource(s) && CallerSource(s).Some?
  {
    hide Spans, Sequenced;
  }

  lemma LeaveAnswered(p: Producer, s: ActState, h: Stream, t: Terminal)
    requires Shape(s) && s.failed.None? && s.callerTerminal.None? && CallerSource(s).Some?
    ensures var left := s.(callerTerminal := Some(t));
            Ran(h, [Finish(p.scope, s.callerSpan.value, t, Caused(CallerSource(s).value, if t.outcome.Cancelled? then Handoff else Return))]
                   + JoinScript(p, left),
                if s.prompt.None? && s.settlement.None?
                then left.(usage := Usage(false, Some(NotSubmitted)), settlement := Some(NotSubmitted))
                else left.(finishAttempted := s.usageAck.Some?),
                RecordCaller(p, s, h, t))
  {
    hide Admit, Offer, CallerSource, MaybeFinish, JoinScript;
    var left := s.(callerTerminal := Some(t));
    var c := Finish(p.scope, s.callerSpan.value, t, Caused(CallerSource(s).value, if t.outcome.Cancelled? then Handoff else Return));
    OfferCons(h, c, JoinScript(p, left));
    Joins(p, SettleCaller(left), Admit(h, c).stream);
    JoinAside(p, left);
  }

  /** Settling an act without a prompt has no bearing on its join. */
  lemma JoinAside(p: Producer, s: ActState)
    ensures s.usageAck.None? || s.settlement.Some? ==> JoinScript(p, SettleCaller(s)) == JoinScript(p, s)
  {
    hide ActTerminal;
  }

  lemma UsageAnswered(p: Producer, s: ActState, h: Stream, sequence: nat)
    requires Inv(p, s, h) && (s.failed.None? ==> !s.usageSlot && s.usageAck.None? && s.settlement.Some?)
    ensures UsageAnswer(p, s, h, sequence, UsageFinalized(p, s, h, sequence))
  {
    hide Admit, Offer, Spans, Milestones, Sequenced, MaybeFinish, JoinScript;
    if s.failed.None? { Joins(p, s.(usageAck := Some(sequence)), h); }
  }

  // ----- And when the hub takes what they offer -----

  /** An instant of the act in one of its open spans is taken exactly if it is reserved and not stamped
      before the start of the span; it is then the one event the log gains. */
  lemma InstantIff(p: Producer, s: ActState, h: Stream, scope: Scope, kind: InstantKind, span: nat, link: Link)
    requires Placed(p, s, h) && PlacedIn(p, s, scope, span) && Known(h, link.source)
    ensures var c := Note(scope, kind, span, [link]);
            && (Offer(h, [c]).1 <==> Reserved(h) && Begun(h, span, Stamp(h)))
            && Offer(h, [c]).0.log == h.log + if Offer(h, [c]).1 then [Materialize(h, c)] else []
  {
    var c := Note(scope, kind, span, [link]);
    assert Sound(h, c);
    hide Spans, Admit, Offer, Sound, Sequenced;
    OfferOne(h, c);
    AdmitLog(h, c);
    ReferencedTakenIff(h, c);
  }

  lemma DriverIff(p: Producer, s: ActState, h: Stream)
    requires Inv(p, s, h) && s.failed.None?
    ensures var r := DriverStarted(p, s, h);
            && (r.0.failed.None? <==>
                  s.waiting.None? && s.callerTerminal.None? && Reserved(h) && Begun(h, s.actSpan.value, Stamp(h)))
            && (r.0.failed.None? ==>
                  r.1.log == h.log + [Materialize(h, Note(p.scope, ActWaitingReady, s.actSpan.value, Caused(s.admitted.value, FollowsFrom)))])
            && (r.0.failed.Some? ==> r.1.log == h.log)
  {
    hide DriverStarted, Offer, Reserved, Begun, Spans, Sequenced;
    DriverAnswered(p, s, h);
    if s.waiting.None? && s.callerTerminal.None? { Healthy(p, s, h, ActWaitingReady, s.actSpan.value, Link(s.admitted.value, FollowsFrom)); }
  }

  lemma CancelIff(p: Producer, s: ActState, h: Stream)
    requires Inv(p, s, h) && s.failed.None?
    ensures var r, first := CancelRequested(p, s, h), s.cancel.None? && s.callerTerminal.None?;
            && (r.0.failed.None? <==> !first || (Reserved(h) && Begun(h, s.callerSpan.value, Stamp(h))))
            && (r.0.failed.None? && first ==>
                  r.1.log == h.log + [Materialize(h, Note(p.scope, ActCancelRequested, s.callerSpan.value,
                                                          Caused(AM.LatestBefore(s, |h.log| + 1), Handoff)))])
            && (r.0.failed.Some? || !first ==> r.1.log == h.log)
  {
    hide CancelRequested, Offer, Reserved, Begun, Spans, Sequenced;
    CancelAnswered(p, s, h);
    if s.cancel.None? && s.callerTerminal.None? {
      Healthy(p, s, h, ActCancelRequested, s.callerSpan.value, Link(AM.LatestBefore(s, |h.log| + 1), Handoff));
    }
  }

  /** The metadata names this act, its turn was opened and has not ended, it was not handed over
      before, and the hub takes the instant; a cancel that came first is its cause. */
  lemma HandoffIff(p: Producer, s: ActState, h: Stream, m: Metadata)
    requires Inv(p, s, h) && s.failed.None?
    ensures var r := SupervisorHandoff(p, s, h, m);
            && (r.0.failed.None? <==>
                  && Names(p, m) && s.prompt.Some? && s.settlement.None? && s.handoff.None?
                  && Reserved(h) && Begun(h, s.actSpan.value, Stamp(h)))
            && (r.0.failed.None? ==>
                  r.1.log == h.log + [Materialize(h, Note(p.scope, ActSupervisorHandoff, s.actSpan.value,
                                                          Caused(if s.cancel.Some? then s.cancel.value else s.activity.value, Handoff)))])
            && (r.0.failed.Some? ==> r.1.log == h.log)
  {
    hide SupervisorHandoff, Offer, Reserved, Begun, Spans, Sequenced;
    HandoffAnswered(p, s, h, m);
    if s.prompt.Some? && s.settlement.None? {
      Healthy(p, s, h, ActSupervisorHandoff, s.actSpan.value,
              Link(if s.cancel.Some? then s.cancel.value else s.activity.value, Handoff));
    }
  }

  /** A healthy act may place an instant of its own in the act span, and in the caller span while the
      caller is there. */
  lemma Healthy(p: Producer, s: ActState, h: Stream, kind: InstantKind, span: nat, link: Link)
    requires Inv(p, s, h) && s.failed.None? && Known(h, link.source)
    requires (Some(span) == s.actSpan && (s.callerTerminal.None? || s.settlement.None?)) || (Some(span) == s.callerSpan && s.callerTerminal.None?)
    ensures var c := Note(p.scope, kind, span, [link]);
            && (Offer(h, [c]).1 <==> Reserved(h) && Begun(h, span, Stamp(h)))
            && Offer(h, [c]).0.log == h.log + if Offer(h, [c]).1 then [Materialize(h, c)] else []
  {
    hide Offer, Reserved, Begun, Spans, Milestones, Sequenced;
    InstantIff(p, s, h, p.scope, kind, span, link);
  }

  /** The registry's side: a finished act hears nothing more but takes its acknowledgement back; the slot
      is given out once, while the act is live; it turns into an acknowledgement once the shared
      identity is settled, and that is spent when it is handed back. */
  lemma StepAnswered(a: Act, h: Stream, op: Op)
    requires Inv(a.producer, a.state, h)
    requires a.token.AckHeld? && a.state.failed.None? ==> !a.state.usageSlot && a.state.usageAck.None? && a.state.settlement.Some?
    ensures var (a', h') := Step(a, h, op);
            var over := a.state.finishAttempted && a.state.failed.None?;
            && a'.producer == a.producer
            && match op
               case OpAcknowledge(sequence) =>
                 h' == h && a' == if a.token == SlotHeld && a.state.usage.settlement.Some? then a.(token := AckHeld(sequence)) else a
               case OpUsageFinalized =>
                 if !a.token.AckHeld? then a' == a && h' == h
                 else if over then a' == a.(token := Spent) && h' == h
                 else a'.token == Spent && UsageAnswer(a.producer, a.state, h, a.token.sequence, (a'.state, h'))
               case OpTakeUsageSlot =>
                 var given := a.state.failed.None? && !over && a.state.usageSlot;
                 h' == h && a' == if given then a.(state := a.state.(usageSlot := false), token := SlotHeld) else a
               case OpTakeNotification =>
                 var given := a.state.failed.None? && !over && a.state.settlement.Some? && !a.state.notified;
                 h' == h && a' == if given then a.(state := a.state.(notified := true)) else a
               case _ =>
                 && a'.token == a.token
                 && if over then a' == a && h' == h else (a'.state, h') == Apply(a.producer, a.state, h, op)
  {
    if a.token.AckHeld? { UsageAnswered(a.producer, a.state, h, a.token.sequence); }
    assert a.state.failed.None? ==> a.state.actSpan.Some?;
    hide Inv, UsageAnswer, UsageFinalized, DriverStarted, CancelRequested, PromptSubmitted, SupervisorHandoff, TurnTerminal, CallerFinished;
  }

  /** How a caller ends: completed by a normal return only, failed by an error or a refused
      admission, cancelled in every other way; the code tells which. */
  predicate ExitsAs(t: Terminal, exit: Exit, error: Raised) {
    && (t.outcome.Completed? <==> exit.Returned? && error.StopIteration?)
    && (t.outcome.Failed? <==> exit.AdmissionRefused? || (exit.Returned? && (error.NoError? || error.OtherError?)))
    && (t.code.None? <==> t.outcome.Completed?)
    && (t.outcome.Failed? ==> t.code == Some(CALLER_FAILED))
    && (t.outcome.Cancelled? ==> t.code == Some(CALLER_CANCELLED))
  }

  lemma ExitMeans(exit: Exit, error: Raised)
    ensures ExitsAs(CallerTerminal(exit, error), exit, error)
  {
  }

  /** Custom and tool events of a live act are placed in its running turn, else in the act itself. */
  lemma ContainingIs(p: Producer, s: ActState, h: Stream)
    requires Inv(p, s, h)
    ensures ContainingSpan(s) ==
            if s.failed.Some? || s.finishAttempted then None
            else if s.prompt.Some? && s.settlement.None? then s.turnSpan else s.actSpan
  {
    hide Spans, Milestones, Sequenced;
  }
}
