/** How an act's spans are closed, as a reader of the log sees it: which finishes there are, with
    which terminals and causes. */
module ActClosings {
  import opened Events
  import opened Hub
  import opened Act
  import opened ActProofs
  import opened ActMarks

  datatype Ending = Ending(sequence: nat, terminal: Terminal, causes: seq<Link>)

  predicate Ends(e: Event, span: nat) {
    e.body.SpanFinished? && e.body.span == span
  }

  /** The finish of a span on the log, if any. */
  function EndingOn(log: seq<Event>, span: nat): Option<Ending> {
    if log == [] then None
    else
      var e := log[|log| - 1];
      if Ends(e, span) then Some(Ending(e.sequence, e.body.terminal, e.causes))
      else EndingOn(log[..|log| - 1], span)
  }

  /** What the caller's finish is caused by: a cancel, else the end of the turn if that came first,
      else the last milestone before it. */
  function CallerCause(s: ActState, n: nat): Option<nat> {
    if s.cancel.Some? then s.cancel
    else if Earlier(s.turnTerminalSequence, n) then s.turnTerminalSequence
    else Or(s.activity, Or(s.waiting, s.admitted))
  }

  predicate CallerEnding(s: ActState, e: Option<Ending>) {
    && (e.Some? <==> s.callerTerminal.Some?)
    && (e.Some? ==>
          && e.value.terminal == s.callerTerminal.value && CallerCause(s, e.value.sequence).Some?
          && e.value.causes == Caused(CallerCause(s, e.value.sequence).value,
                                      if e.value.terminal.outcome.Cancelled? then Handoff else Return))
  }

  /** The turn's finish returns to the announcement directly before it and precedes the sample. */
  predicate TurnEnding(s: ActState, e: Option<Ending>) {
    && (e.Some? <==> s.turnTerminal.Some?)
    && (e.Some? ==>
          && e.value.terminal == s.turnTerminal.value && e.value.sequence > 0
          && s.turnTerminalSequence == Some(e.value.sequence + 1)
          && e.value.causes == Caused(e.value.sequence - 1, Return))
  }

  predicate ActEnding(s: ActState, e: Option<Ending>) {
    && (e.Some? <==> s.finishAttempted)
    && (e.Some? ==>
          && s.callerTerminal.Some? && s.usageAck.Some?
          && e.value.terminal == ActTerminal(s.callerTerminal.value, Remote(s))
          && e.value.causes == Caused(s.usageAck.value, FollowsFrom))
  }

  predicate OwnSpan(s: ActState, span: nat) {
    Some(span) == s.actSpan || Some(span) == s.callerSpan || Some(span) == s.turnSpan
  }

  ghost predicate Endings(s: ActState, log: seq<Event>) {
    && (s.actSpan.Some? ==> ActEnding(s, EndingOn(log, s.actSpan.value)))
    && (s.callerSpan.Some? ==> CallerEnding(s, EndingOn(log, s.callerSpan.value)))
    && (s.turnSpan.Some? ==> TurnEnding(s, EndingOn(log, s.turnSpan.value)))
  }

  ghost predicate Closings(p: Producer, s: ActState, log: seq<Event>) {
    s.failed.None? ==> Endings(s, log)
  }

  lemma AdmitEnding(h: Stream, c: Candidate, span: nat)
    ensures var a := Admit(h, c);
            EndingOn(a.stream.log, span) ==
            if a.sequence.Some? && Ends(Materialize(h, c), span)
            then Some(Ending(|h.log| + 1, c.body.terminal, c.causes)) else EndingOn(h.log, span)
    ensures Admit(h, c).sequence.Some? ==> Admit(h, c).sequence.value == |h.log| + 1 == |Admit(h, c).stream.log|
  {
    AdmitCases(h, c);
    hide Admit;
    assert (h.log + [Materialize(h, c)])[..|h.log|] == h.log;
  }

  /** The same endings, for every span. */
  ghost predicate SameEndings(log: seq<Event>, log': seq<Event>) {
    forall x :: EndingOn(log', x) == EndingOn(log, x)
  }

  lemma NoEnding(h: Stream, c: Candidate)
    requires !c.body.SpanFinished?
    ensures SameEndings(h.log, Admit(h, c).stream.log)
    ensures Admit(h, c).sequence.Some? ==> Admit(h, c).sequence.value == |h.log| + 1 == |Admit(h, c).stream.log|
  {
    hide Admit, EndingOn;
    AdmitEnding(h, c, 0);
    forall x ensures EndingOn(Admit(h, c).stream.log, x) == EndingOn(h.log, x) {
      AdmitEnding(h, c, x);
    }
  }

  lemma {:induction false} EndingFrame(log: seq<Event>, log': seq<Event>, span: nat)
    requires log <= log' && forall i :: |log| <= i < |log'| ==> !Ends(log'[i], span)
    ensures EndingOn(log', span) == EndingOn(log, span)
    decreases |log'|
  {
    if log != log' {
      assert !Ends(log'[|log'| - 1], span);
      EndingFrame(log, log'[..|log'| - 1], span);
    }
  }

  /** Nobody finishes a span that somebody else holds. */
  lemma EndingElsewhere(h: Stream, h': Stream, other: Owner, span: nat, scope: Scope, parent: Option<nat>, open: bool)
    requires Grows(h, h', other) && Held(h, span, scope, parent, open) && ScopeOwner(scope) != other
    ensures EndingOn(h'.log, span) == EndingOn(h.log, span)
  {
    hide EndingOn;
    assert SameIdentity(h.index.spans[span], h'.index.spans[span]);
    forall i | |h.log| <= i < |h'.log| ensures !Ends(h'.log[i], span) {
    }
    EndingFrame(h.log, h'.log, span);
  }

  /** A span that is yet to be numbered has not been finished. */
  lemma {:induction false} NotYetEnded(log: seq<Event>, n: nat, span: nat)
    requires span > n && forall i :: 0 <= i < |log| && log[i].body.SpanFinished? ==> log[i].body.span <= n
    ensures EndingOn(log, span).None?
  {
    if log != [] { NotYetEnded(log[..|log| - 1], n, span); }
  }

  /** The fields the endings are compared with. */
  predicate SameClosing(s: ActState, s': ActState) {
    && s'.actSpan == s.actSpan && s'.callerSpan == s.callerSpan && s'.turnSpan == s.turnSpan
    && s'.callerTerminal == s.callerTerminal && s'.turnTerminal == s.turnTerminal
    && s'.turnTerminalSequence == s.turnTerminalSequence && s'.finishAttempted == s.finishAttempted
    && (s.callerTerminal.Some? ==> s'.cancel == s.cancel && s'.activity == s.activity && s'.waiting == s.waiting && s'.admitted == s.admitted)
    && (s.finishAttempted ==> s'.usageAck == s.usageAck && s'.settlement == s.settlement)
  }

  lemma CarryClosings(p: Producer, s: ActState, log: seq<Event>, s': ActState, log': seq<Event>)
    requires Closings(p, s, log)
    requires s.failed.None? ==> forall x :: OwnSpan(s, x) ==> EndingOn(log', x) == EndingOn(log, x)
    requires s'.failed.None? ==> s.failed.None? && SameClosing(s, s')
    ensures Closings(p, s', log')
  {
    hide EndingOn;
  }

  // ----- Hooks -----

  lemma StartActClosings(p: Producer, h: Stream)
    requires Sequenced(h)
    ensures var r := StartAct(p, PREPARED, h); Closings(p, r.0, r.1.log)
  {
    forall x | x > |h.log| ensures EndingOn(h.log, x).None? { NotYetEnded(h.log, |h.log|, x); }
    hide Admit, EndingOn, Sequenced;
    var c := Start(p.scope, ActLifecycle, None, []);
    NoEnding(h, c);
    var a := Admit(h, c);
    if a.sequence.None? { return; }
    var c2 := Start(p.scope, ActCaller, a.sequence, []);
    NoEnding(a.stream, c2);
    var b := Admit(a.stream, c2);
    if b.sequence.None? { return; }
    NoEnding(b.stream, Note(p.scope, ActAdmitted, a.sequence.value, Caused(b.sequence.value, FollowsFrom)));
  }

  /** A hook that admits at most one instant and changes nothing that is closed. */
  lemma InstantClosings(p: Producer, s: ActState, h: Stream, c: Candidate, s': ActState)
    requires Closings(p, s, h.log) && c.body.Instant?
    requires s'.failed.None? ==> s.failed.None? && SameClosing(s, s')
    ensures Closings(p, s', Admit(h, c).stream.log)
  {
    hide Admit, Closings, SameClosing;
    NoEnding(h, c);
    CarryClosings(p, s, h.log, s', Admit(h, c).stream.log);
  }

  lemma DriverStartedClosings(p: Producer, s: ActState, h: Stream)
    requires Closings(p, s, h.log) && (s.failed.None? ==> Shape(s))
    ensures var r := DriverStarted(p, s, h); Closings(p, r.0, r.1.log)
  {
    hide Admit, Endings;
    if s.failed.None? && s.waiting.None? && s.callerTerminal.None? {
      InstantClosings(p, s, h, Note(p.scope, ActWaitingReady, s.actSpan.value, Caused(s.admitted.value, FollowsFrom)),
                      DriverStarted(p, s, h).0);
    }
  }

  lemma CancelRequestedClosings(p: Producer, s: ActState, h: Stream)
    requires Closings(p, s, h.log) && (s.failed.None? ==> Shape(s))
    ensures var r := CancelRequested(p, s, h); Closings(p, r.0, r.1.log)
  {
    hide Admit, Endings;
    if s.failed.None? && s.cancel.None? && s.callerTerminal.None? {
      InstantClosings(p, s, h, Note(p.scope, ActCancelRequested, s.callerSpan.value, Caused(CancelSource(s).value, Handoff)),
                      CancelRequested(p, s, h).0);
    }
  }

  lemma SupervisorHandoffClosings(p: Producer, s: ActState, h: Stream, m: Metadata)
    requires Closings(p, s, h.log) && (s.failed.None? ==> Shape(s))
    ensures var r := SupervisorHandoff(p, s, h, m); Closings(p, r.0, r.1.log)
  {
    hide Admit, Endings, MetadataFault;
    if s.failed.None? && MetadataFault(p, m).None? && s.activity.Some? && s.handoff.None? && s.turnTerminal.None? {
      InstantClosings(p, s, h, Note(p.scope, ActSupervisorHandoff, s.actSpan.value,
                                    Caused(Or(s.cancel, s.activity).value, Handoff)),
                      SupervisorHandoff(p, s, h, m).0);
    }
  }

  lemma OpenTurnEndings(p: Producer, s: ActState, h: Stream, m: Metadata)
    requires s.actSpan.Some? && s.waiting.Some?
    ensures SameEndings(h.log, OpenTurn(p, s, h, m).1.log)
  {
    hide Admit, EndingOn;
    var scope := TurnScope(p, m);
    var c1 := Note(p.scope, ActPromptSubmitted, s.actSpan.value, Caused(s.waiting.value, FollowsFrom));
    NoEnding(h, c1);
    var a := Admit(h, c1);
    if a.sequence.None? { return; }
    var c2 := Start(scope, AgentTurn, s.actSpan, Caused(a.sequence.value, Dispatch));
    NoEnding(a.stream, c2);
    var b := Admit(a.stream, c2);
    if b.sequence.None? { return; }
    var c3 := Sample(scope, AgentTurnActive, 1, Caused(b.sequence.value, FollowsFrom));
    NoEnding(b.stream, c3);
    var c := Admit(b.stream, c3);
    if c.sequence.None? { return; }
    NoEnding(c.stream, Note(scope, AgentTurnActivity, b.sequence.value, Caused(c.sequence.value, FollowsFrom)));
  }

  lemma OpenTurnFields(p: Producer, s: ActState, h: Stream, m: Metadata)
    requires s.actSpan.Some? && s.waiting.Some? && s.failed.None?
    ensures var s' := OpenTurn(p, s, h, m).0;
            s'.failed.None? ==> s' == s.(prompt := s'.prompt, turnSpan := s'.turnSpan, turnScope := s'.turnScope, activity := s'.activity)
                                && s'.turnSpan.Some? && s'.turnSpan.value > |h.log|
  {
    hide Admit;
    var c1 := Note(p.scope, ActPromptSubmitted, s.actSpan.value, Caused(s.waiting.value, FollowsFrom));
    AdmitMarks(h, c1, Outside);
    var a := Admit(h, c1);
    if a.sequence.Some? {
      AdmitMarks(a.stream, Start(TurnScope(p, m), AgentTurn, s.actSpan, Caused(a.sequence.value, Dispatch)), Outside);
    }
  }

  lemma PromptSubmittedClosings(p: Producer, s: ActState, h: Stream, m: Metadata)
    requires Closings(p, s, h.log) && Sequenced(h) && (s.failed.None? ==> Shape(s) && Milestones(s, |h.log|))
    ensures var r := PromptSubmitted(p, s, h, m); Closings(p, r.0, r.1.log)
  {
    forall x | x > |h.log| ensures EndingOn(h.log, x).None? { NotYetEnded(h.log, |h.log|, x); }
    hide EndingOn, OpenTurn, PromptGuard, Sequenced;
    if s.failed.None? && PromptGuard(p, s, m).None? {
      GuardPasses(p, s, m);
      CallerOpen(p, s, m);
      var s1 := s.(usage := MarkPromptSubmitted(s.usage).value);
      OpenTurnEndings(p, s1, h, m);
      OpenTurnFields(p, s1, h, m);
      var r := OpenTurn(p, s1, h, m);
      if r.0.failed.None? {
        assert forall x :: EndingOn(r.1.log, x) == EndingOn(h.log, x);
      }
    }
  }

  lemma CallerOpen(p: Producer, s: ActState, m: Metadata)
    requires PromptGuard(p, s, m).None?
    ensures s.callerTerminal.None?
  {
  }

  /** Act, caller and turn are three spans. */
  predicate Apart(s: ActState) {
    && (s.actSpan.Some? ==> s.actSpan != s.callerSpan && s.actSpan != s.turnSpan)
    && (s.callerSpan.Some? ==> s.callerSpan != s.turnSpan)
  }

  lemma FinishedActEndings(p: Producer, s: ActState, h: Stream, t: Terminal)
    requires ProducerOk(p) && s.failed.None? && !s.finishAttempted && Apart(s) && Endings(s, h.log)
    requires s.actSpan.Some? && s.callerTerminal.Some? && s.usageAck.Some? && t == ActTerminal(s.callerTerminal.value, Remote(s))
    ensures var a := Admit(h, Finish(p.scope, s.actSpan.value, t, Caused(s.usageAck.value, FollowsFrom)));
            a.sequence.Some? ==> Endings(s.(finishAttempted := true), a.stream.log)
  {
    hide Admit, EndingOn, ActTerminal;
    var c := Finish(p.scope, s.actSpan.value, t, Caused(s.usageAck.value, FollowsFrom));
    forall x | x != s.actSpan.value ensures EndingOn(Admit(h, c).stream.log, x) == EndingOn(h.log, x) {
      AdmitEnding(h, c, x);
    }
    AdmitEnding(h, c, s.actSpan.value);
  }

  lemma MaybeFinishClosings(p: Producer, s: ActState, h: Stream)
    requires ProducerOk(p) && Closings(p, s, h.log) && Apart(s)
    ensures var r := MaybeFinish(p, s, h); Closings(p, r.0, r.1.log)
  {
    hide Admit, Endings, ActTerminal;
    if s.failed.None? && !s.finishAttempted && s.actSpan.Some? && s.callerTerminal.Some? && s.usageAck.Some? {
      FinishedActEndings(p, s, h, ActTerminal(s.callerTerminal.value, Remote(s)));
    }
  }

  lemma RecordCallerClosings(p: Producer, s: ActState, h: Stream, t: Terminal)
    requires Inv(p, s, h) && s.failed.None? && s.callerTerminal.None? && Closings(p, s, h.log)
    ensures var r := RecordCaller(p, s, h, t); Closings(p, r.0, r.1.log)
  {
    hide Admit, MaybeFinish, SettleCaller, EndingOn, Spans, Sequenced;
    var relation := if t.outcome.Cancelled? then Handoff else Return;
    var c := Finish(p.scope, s.callerSpan.value, t, Caused(CallerSource(s).value, relation));
    var a := Admit(h, c);
    if a.sequence.None? { return; }
    forall x ensures x != s.callerSpan.value ==> EndingOn(a.stream.log, x) == EndingOn(h.log, x) {
      AdmitEnding(h, c, x);
    }
    AdmitEnding(h, c, s.callerSpan.value);
    var s1 := s.(callerTerminal := Some(t));
    assert Closings(p, s1, a.stream.log);
    SettleCallerClosings(p, s1, a.stream.log);
    hide Closings, Milestones, Shape;
    MaybeFinishClosings(p, SettleCaller(s1), a.stream);
  }

  lemma SettleCallerClosings(p: Producer, s: ActState, log: seq<Event>)
    requires Closings(p, s, log) && !s.finishAttempted && Apart(s)
    ensures Closings(p, SettleCaller(s), log) && Apart(SettleCaller(s))
  {
    hide EndingOn, Settle;
  }

  lemma CallerFinishedClosings(p: Producer, s: ActState, h: Stream, exit: Exit, error: Raised)
    requires Inv(p, s, h) && Closings(p, s, h.log)
    ensures var r := CallerFinished(p, s, h, exit, error); Closings(p, r.0, r.1.log)
  {
    hide RecordCaller, CallerTerminal, Endings, Spans, Milestones, Sequenced;
    if s.failed.None? && s.callerTerminal.None? { RecordCallerClosings(p, s, h, CallerTerminal(exit, error)); }
  }

  lemma AnnounceEndings(s: ActState, h: Stream, settlement: Settlement)
    requires s.turnSpan.Some? && s.turnScope.Some? && s.activity.Some?
    ensures var b := AnnounceTerminal(s, h, settlement);
            SameEndings(h.log, b.stream.log) && (b.sequence.Some? ==> b.sequence.value == |b.stream.log|)
  {
    hide Admit, EndingOn;
    var scope, span := s.turnScope.value, s.turnSpan.value;
    var c := Note(scope, AgentTurnTerminal, span, Caused(Or(s.handoff, s.activity).value, Return));
    NoEnding(h, c);
    var a := Admit(h, c);
    if a.sequence.Some? { NoEnding(a.stream, Note(scope, AgentTurnSettled, span, Caused(a.sequence.value, FollowsFrom))); }
  }

  lemma EndTurnEndings(s: ActState, h: Stream, settlement: Settlement, t: Terminal)
    requires s.failed.None? && s.turnSpan.Some? && s.turnScope.Some?
    ensures var r := EndTurn(s, h, |h.log|, settlement, t);
            r.0.failed.None? ==>
              && EndingOn(r.1.log, s.turnSpan.value) == Some(Ending(|h.log| + 1, t, Caused(|h.log|, Return)))
              && forall x :: x != s.turnSpan.value ==> EndingOn(r.1.log, x) == EndingOn(h.log, x)
  {
    hide Admit, EndingOn, Settle;
    var span, c1 := s.turnSpan.value, Finish(s.turnScope.value, s.turnSpan.value, t, Caused(|h.log|, Return));
    var c := Admit(h, c1);
    if c.sequence.Some? {
      AdmitEnding(h, c1, span);
      var c2 := Sample(s.turnScope.value, AgentTurnActive, 0, Caused(c.sequence.value, FollowsFrom));
      NoEnding(c.stream, c2);
      forall x | x != span ensures EndingOn(c.stream.log, x) == EndingOn(h.log, x) { AdmitEnding(h, c1, x); }
    }
  }

  predicate TurnRecorded(s: ActState, r: ActState, n: nat, settlement: Settlement, t: Terminal) {
    r.failed.None? ==>
      r == s.(usage := r.usage, turnTerminalSequence := Some(n), turnTerminal := Some(t), settlement := Some(settlement))
  }

  lemma EndTurnRecord(s: ActState, h: Stream, source: nat, settlement: Settlement, t: Terminal)
    requires s.failed.None? && s.turnSpan.Some? && s.turnScope.Some?
    ensures TurnRecorded(s, EndTurn(s, h, source, settlement, t).0, |h.log| + 2, settlement, t)
  {
    hide Admit, Settle, MarksOn, Read;
    var c1 := Finish(s.turnScope.value, s.turnSpan.value, t, Caused(source, Return));
    AdmitMarks(h, c1, Outside);
    var c := Admit(h, c1);
    if c.sequence.Some? {
      AdmitMarks(c.stream, Sample(s.turnScope.value, AgentTurnActive, 0, Caused(c.sequence.value, FollowsFrom)), Outside);
    }
  }

  lemma {:induction false} EndingWithin(log: seq<Event>, span: nat)
    requires forall i :: 0 <= i < |log| ==> log[i].sequence == i + 1
    ensures EndingOn(log, span).Some? ==> EndingOn(log, span).value.sequence <= |log|
  {
    if log != [] { EndingWithin(log[..|log| - 1], span); }
  }

  /** A turn that ends after the caller does not change what caused the caller's finish. */
  lemma LaterTurnEnding(s: ActState, r: ActState, e: Option<Ending>, n: nat, settlement: Settlement, t: Terminal)
    requires CallerEnding(s, e) && TurnRecorded(s, r, n, settlement, t) && r.failed.None? && s.turnTerminalSequence.None?
    requires e.Some? ==> e.value.sequence <= n
    ensures CallerEnding(r, e)
  {
  }

  lemma EndTurnClosings(p: Producer, s: ActState, h: Stream, settlement: Settlement, t: Terminal)
    requires s.failed.None? && s.turnSpan.Some? && s.turnScope.Some?
    requires s.turnTerminalSequence.None? && !s.finishAttempted && s.callerSpan.Some? && Apart(s)
    requires Endings(s, h.log) && |h.log| > 0
    requires var e := EndingOn(h.log, s.callerSpan.value); e.Some? ==> e.value.sequence <= |h.log|
    ensures var r := EndTurn(s, h, |h.log|, settlement, t);
            Closings(p, r.0, r.1.log) && (r.0.failed.None? ==> Apart(r.0))
  {
    hide EndTurn, EndingOn;
    EndTurnEndings(s, h, settlement, t);
    EndTurnRecord(s, h, |h.log|, settlement, t);
    var r := EndTurn(s, h, |h.log|, settlement, t);
    if r.0.failed.None? {
      LaterTurnEnding(s, r.0, EndingOn(h.log, s.callerSpan.value), |h.log| + 2, settlement, t);
    }
  }

  lemma CloseTurnClosings(p: Producer, s: ActState, h: Stream, settlement: Settlement, t: Terminal)
    requires Inv(p, s, h) && s.failed.None? && s.turnSpan.Some? && s.settlement.None? && Closings(p, s, h.log)
    ensures var r := CloseTurn(s, h, settlement, t); Closings(p, r.0, r.1.log) && (r.0.failed.None? ==> Apart(r.0))
  {
    EndingWithin(h.log, s.callerSpan.value);
    hide Admit, Proper, Owns, OnlyOpen, AnnounceTerminal, EndTurn, EndingOn, Held, Sequenced;
    AnnounceEndings(s, h, settlement);
    var b := AnnounceTerminal(s, h, settlement);
    assert b.sequence.Some? ==> |h.log| < |b.stream.log| by { hide Announced, Closings, Endings; AnnounceMarked(p, s, h, settlement); }
    if b.sequence.Some? {
      CarryClosings(p, s, h.log, s, b.stream.log);
      assert EndingOn(b.stream.log, s.callerSpan.value) == EndingOn(h.log, s.callerSpan.value);
      hide Endings;
      EndTurnClosings(p, s, b.stream, settlement, t);
    }
  }

  lemma TurnTerminalClosings(p: Producer, s: ActState, h: Stream, m: Metadata, settlement: Settlement,
                             outcome: Outcome, code: Option<string>)
    requires Inv(p, s, h) && Closings(p, s, h.log)
    ensures var r := TurnTerminal(p, s, h, m, settlement, outcome, code); Closings(p, r.0, r.1.log)
  {
    hide MaybeFinish, CloseTurn, Endings, Held, Owns, Sequenced, MetadataFault, Settle;
    var t := Terminal(outcome, code);
    if s.failed.Some? || MetadataFault(p, m).Some? {
    } else if s.settlement == Some(NotSubmitted) && settlement.NotSubmitted? {
      MaybeFinishClosings(p, s, h);
    } else if TerminalGuard(p, s, m, settlement, outcome, code).Some? {
    } else if settlement.NotSubmitted? {
      UnsettledClosings(p, s, h.log);
      MaybeFinishClosings(p, SettleUnsubmitted(s), h);
    } else {
      CloseTurnClosings(p, s, h, settlement, t);
      var c := CloseTurn(s, h, settlement, t);
      if c.0.failed.None? { MaybeFinishClosings(p, c.0, c.1); } else { FailedFinish(p, c.0, c.1); }
    }
  }

  lemma FailedFinish(p: Producer, s: ActState, h: Stream)
    requires s.failed.Some?
    ensures MaybeFinish(p, s, h) == (s, h)
  {
  }

  lemma UnsettledClosings(p: Producer, s: ActState, log: seq<Event>)
    requires Closings(p, s, log) && s.failed.None? && !s.finishAttempted && s.settlement.None? && Apart(s)
    ensures Closings(p, SettleUnsubmitted(s), log) && Apart(SettleUnsubmitted(s))
  {
    hide EndingOn, Settle;
  }

  lemma UsageFinalizedClosings(p: Producer, s: ActState, h: Stream, sequence: nat)
    requires Inv(p, s, h) && Closings(p, s, h.log)
    ensures var r := UsageFinalized(p, s, h, sequence); Closings(p, r.0, r.1.log)
  {
    hide MaybeFinish, EndingOn, Spans, Sequenced;
    if s.failed.None? && !s.usageSlot && s.usageAck.None? && s.settlement.Some? {
      MaybeFinishClosings(p, s.(usageAck := Some(sequence)), h);
    }
  }

  lemma ApplyClosings(p: Producer, s: ActState, h: Stream, op: Op)
    requires Inv(p, s, h) && Closings(p, s, h.log)
    ensures var r := Apply(p, s, h, op); Closings(p, r.0, r.1.log)
  {
    hide Spans, Sequenced, Endings;
    hide DriverStarted, CancelRequested, PromptSubmitted, SupervisorHandoff, TurnTerminal, CallerFinished;
    match op
    case OpDriverStarted => DriverStartedClosings(p, s, h);
    case OpCancelRequested => CancelRequestedClosings(p, s, h);
    case OpPromptSubmitted(m) => PromptSubmittedClosings(p, s, h, m);
    case OpSupervisorHandoff(m) => SupervisorHandoffClosings(p, s, h, m);
    case OpTurnTerminal(m, settlement, outcome, code) => TurnTerminalClosings(p, s, h, m, settlement, outcome, code);
    case OpCallerFinished(exit, error) => CallerFinishedClosings(p, s, h, exit, error);
    case OpAdmittedAgain =>
    case _ => CarryClosings(p, s, h.log, Apply(p, s, h, op).0, h.log);
  }
}
