/** What a reader of the log learns about an act: which milestones it has reached, where they are
    placed and what caused them. The producer's record says exactly the same. */
module ActMarks {
  import opened Events
  import opened Hub
  import opened Act
  import opened ActProofs

  datatype Mark = Mark(sequence: nat, containing: Option<nat>, causes: seq<Link>)

  datatype Marks = Marks(
    admitted: Option<Mark>,
    waiting: Option<Mark>,
    prompt: Option<Mark>,
    activity: Option<Mark>,
    handoff: Option<Mark>,
    cancel: Option<Mark>,
    terminal: Option<Mark>,
    settled: Option<Mark>)

  const NO_MARKS := Marks(None, None, None, None, None, None, None, None)

  function Read(m: Marks, e: Event, who: Owner): Marks {
    if !e.body.Instant? || ScopeOwner(e.scope) != who then m
    else
      var k := Some(Mark(e.sequence, e.body.containing, e.causes));
      match e.body.instant
      case ActAdmitted => m.(admitted := k)
      case ActWaitingReady => m.(waiting := k)
      case ActPromptSubmitted => m.(prompt := k)
      case AgentTurnActivity => m.(activity := k)
      case ActSupervisorHandoff => m.(handoff := k)
      case ActCancelRequested => m.(cancel := k)
      case AgentTurnTerminal => m.(terminal := k)
      case AgentTurnSettled => m.(settled := k)
      case _ => m
  }

  /** The milestones of `who`, read off the log from its beginning. */
  function MarksOn(log: seq<Event>, who: Owner): Marks {
    if log == [] then NO_MARKS else Read(MarksOn(log[..|log| - 1], who), log[|log| - 1], who)
  }

  predicate Earlier(m: Option<nat>, n: nat) {
    m.Some? && m.value < n
  }

  /** The latest milestone before a point in the stream. */
  function LatestBefore(s: ActState, n: nat): nat {
    if Earlier(s.turnTerminalSequence, n) then s.turnTerminalSequence.value
    else if Earlier(s.handoff, n) then s.handoff.value
    else if Earlier(s.activity, n) then s.activity.value
    else if Earlier(s.prompt, n) then s.prompt.value
    else if Earlier(s.waiting, n) then s.waiting.value
    else if s.admitted.Some? then s.admitted.value
    else 0
  }

  function MarkOf(sequence: Option<nat>, containing: Option<nat>, source: Option<nat>, relation: Relation): Option<Mark> {
    if sequence.None? || source.None? then None
    else Some(Mark(sequence.value, containing, Caused(source.value, relation)))
  }

  /** The announcement of a turn's end, whose last event has sequence `n`: the terminal instant
      returns to the handoff or the activity, the settled instant follows it. */
  function TerminalMark(s: ActState, n: nat, settlement: Settlement): Option<Mark> {
    var at := if settlement.Authoritative? then n - 1 else n;
    if at < 0 then None else MarkOf(Some(at), s.turnSpan, Or(s.handoff, s.activity), Return)
  }

  function SettledMark(s: ActState, n: nat, settlement: Settlement): Option<Mark> {
    if n < 1 || !settlement.Authoritative? then None else MarkOf(Some(n), s.turnSpan, Some(n - 1), FollowsFrom)
  }

  /** What the record claims: each milestone follows the one before; a handoff is caused by a cancel
      that preceded it, else by the activity; a cancel by the latest milestone before it; the
      activity by the sample directly before it; a closed turn was announced just before its finish
      and its inactive sample, as settled only if the settlement is authoritative. */
  function MarksOf(s: ActState): Marks {
    Marks(
      MarkOf(s.admitted, s.actSpan, s.callerSpan, FollowsFrom),
      MarkOf(s.waiting, s.actSpan, s.admitted, FollowsFrom),
      MarkOf(s.prompt, s.actSpan, s.waiting, FollowsFrom),
      if s.activity.None? || s.activity.value == 0 then None
      else MarkOf(s.activity, s.turnSpan, Some(s.activity.value - 1), FollowsFrom),
      MarkOf(s.handoff, s.actSpan,
             if s.handoff.Some? && Earlier(s.cancel, s.handoff.value) then s.cancel else s.activity, Handoff),
      if s.cancel.None? then None
      else MarkOf(s.cancel, s.callerSpan, Some(LatestBefore(s, s.cancel.value)), Handoff),
      if Closed(s) then TerminalMark(s, s.turnTerminalSequence.value - 2, s.settlement.value) else None,
      if Closed(s) then SettledMark(s, s.turnTerminalSequence.value - 2, s.settlement.value) else None)
  }

  /** The turn has been closed, by a sample that cannot be among the first two events. */
  predicate Closed(s: ActState) {
    s.turnTerminalSequence.Some? && s.settlement.Some? && s.turnTerminalSequence.value >= 2
  }

  predicate Marked(p: Producer, s: ActState, log: seq<Event>) {
    s.failed.None? ==> MarksOn(log, ActOwner(p.id)) == MarksOf(s)
  }

  lemma AdmitMarks(h: Stream, c: Candidate, who: Owner)
    ensures var a := Admit(h, c);
            MarksOn(a.stream.log, who) ==
            if a.sequence.Some? then Read(MarksOn(h.log, who), Materialize(h, c), who) else MarksOn(h.log, who)
    ensures Admit(h, c).sequence.Some? ==> Admit(h, c).sequence.value == |h.log| + 1 == |Admit(h, c).stream.log|
  {
    AdmitCases(h, c);
    hide Admit;
    assert (h.log + [Materialize(h, c)])[..|h.log|] == h.log;
  }

  /** Steps of others leave no mark on an act. */
  lemma {:induction false} MarksFrame(log: seq<Event>, log': seq<Event>, other: Owner, who: Owner)
    requires log <= log' && who != other
    requires forall i :: |log| <= i < |log'| ==> SignatureAllowed(log'[i], other)
    ensures MarksOn(log', who) == MarksOn(log, who)
    decreases |log'|
  {
    if log != log' {
      assert SignatureAllowed(log'[|log'| - 1], other);
      MarksFrame(log, log'[..|log'| - 1], other, who);
    }
  }

  lemma StartActMarked(p: Producer, h: Stream)
    requires ProducerOk(p) && MarksOn(h.log, ActOwner(p.id)) == NO_MARKS
    ensures var r := StartAct(p, PREPARED, h); Marked(p, r.0, r.1.log)
  {
    hide Admit, MarksOn;
    var who, c := ActOwner(p.id), Start(p.scope, ActLifecycle, None, []);
    AdmitMarks(h, c, who);
    var a := Admit(h, c);
    if a.sequence.Some? {
      var c2 := Start(p.scope, ActCaller, a.sequence, []);
      AdmitMarks(a.stream, c2, who);
      var b := Admit(a.stream, c2);
      if b.sequence.Some? {
        AdmitMarks(b.stream, Note(p.scope, ActAdmitted, a.sequence.value, Caused(b.sequence.value, FollowsFrom)), who);
      }
    }
  }

  lemma DriverStartedMarked(p: Producer, s: ActState, h: Stream)
    requires Inv(p, s, h) && Marked(p, s, h.log)
    ensures var r := DriverStarted(p, s, h); Marked(p, r.0, r.1.log)
  {
    hide Admit, MarksOn, Spans, Sequenced;
    if s.failed.None? {
      AdmitMarks(h, Note(p.scope, ActWaitingReady, s.actSpan.value, Caused(s.admitted.value, FollowsFrom)), ActOwner(p.id));
    }
  }

  lemma CancelRequestedMarked(p: Producer, s: ActState, h: Stream)
    requires Inv(p, s, h) && Marked(p, s, h.log)
    ensures var r := CancelRequested(p, s, h); Marked(p, r.0, r.1.log)
  {
    hide Admit, MarksOn, Spans, Sequenced;
    if s.failed.None? && s.cancel.None? && s.callerTerminal.None? {
      AdmitMarks(h, Note(p.scope, ActCancelRequested, s.callerSpan.value, Caused(CancelSource(s).value, Handoff)),
                 ActOwner(p.id));
    }
  }

  lemma SupervisorHandoffMarked(p: Producer, s: ActState, h: Stream, m: Metadata)
    requires Inv(p, s, h) && Marked(p, s, h.log)
    ensures var r := SupervisorHandoff(p, s, h, m); Marked(p, r.0, r.1.log)
  {
    hide Admit, MarksOn, Spans, Sequenced, MetadataFault;
    if s.failed.None? && MetadataFault(p, m).None? && s.activity.Some? && s.handoff.None? && s.turnTerminal.None? {
      AdmitMarks(h, Note(p.scope, ActSupervisorHandoff, s.actSpan.value, Caused(Or(s.cancel, s.activity).value, Handoff)),
                 ActOwner(p.id));
    }
  }

  lemma MaybeFinishMarked(p: Producer, s: ActState, h: Stream)
    requires Marked(p, s, h.log)
    ensures var r := MaybeFinish(p, s, h); Marked(p, r.0, r.1.log)
  {
    hide Admit, MarksOn, MarksOf, ActTerminal, Remote;
    if s.actSpan.Some? && s.callerTerminal.Some? && s.usageAck.Some? {
      AdmitMarks(h, Finish(p.scope, s.actSpan.value, ActTerminal(s.callerTerminal.value, Remote(s)),
                           Caused(s.usageAck.value, FollowsFrom)), ActOwner(p.id));
      AttemptAside(s);
    }
  }

  lemma AttemptAside(s: ActState)
    ensures MarksOf(s.(finishAttempted := true)) == MarksOf(s)
  {
  }

  lemma PromptSubmittedMarked(p: Producer, s: ActState, h: Stream, m: Metadata)
    requires Inv(p, s, h) && Marked(p, s, h.log)
    ensures var r := PromptSubmitted(p, s, h, m); Marked(p, r.0, r.1.log)
  {
    hide MarksOn, Spans, Sequenced, OpenTurn, PromptGuard, MarksOf;
    if s.failed.None? && PromptGuard(p, s, m).None? {
      GuardPasses(p, s, m);
      OpenTurnMarked(p, s.(usage := MarkPromptSubmitted(s.usage).value), h, m) by { UsageAside(s); }
    }
  }

  lemma GuardPasses(p: Producer, s: ActState, m: Metadata)
    requires PromptGuard(p, s, m).None?
    ensures s.actSpan.Some? && s.waiting.Some? && s.prompt.None? && s.turnSpan.None? && MarkPromptSubmitted(s.usage).Some?
  {
  }

  lemma UsageAside(s: ActState)
    ensures forall u :: MarksOf(s.(usage := u)) == MarksOf(s)
  {
  }

  lemma OpenTurnMarked(p: Producer, s: ActState, h: Stream, m: Metadata)
    requires ProducerOk(p) && s.actSpan.Some? && s.waiting.Some? && s.failed.None?
    requires s.prompt.None? && s.activity.None? && s.handoff.None? && s.turnTerminalSequence.None?
    requires Reached(s.cancel, |h.log|)
    requires Marked(p, s, h.log)
    ensures var r := OpenTurn(p, s, h, m); Marked(p, r.0, r.1.log)
  {
    hide Admit, MarksOn;
    var scope, who := TurnScope(p, m), ActOwner(p.id);
    var c1 := Note(p.scope, ActPromptSubmitted, s.actSpan.value, Caused(s.waiting.value, FollowsFrom));
    AdmitMarks(h, c1, who);
    var a := Admit(h, c1);
    if a.sequence.None? { return; }
    var c2 := Start(scope, AgentTurn, s.actSpan, Caused(a.sequence.value, Dispatch));
    AdmitMarks(a.stream, c2, who);
    var b := Admit(a.stream, c2);
    if b.sequence.None? { return; }
    var c3 := Sample(scope, AgentTurnActive, 1, Caused(b.sequence.value, FollowsFrom));
    AdmitMarks(b.stream, c3, who);
    var c := Admit(b.stream, c3);
    if c.sequence.None? { return; }
    AdmitMarks(c.stream, Note(scope, AgentTurnActivity, b.sequence.value, Caused(c.sequence.value, FollowsFrom)), who);
  }

  /** The milestone fields of a record. */
  predicate SameMarks(s: ActState, s': ActState) {
    && s'.actSpan == s.actSpan && s'.callerSpan == s.callerSpan && s'.turnSpan == s.turnSpan
    && s'.admitted == s.admitted && s'.waiting == s.waiting && s'.prompt == s.prompt
    && s'.activity == s.activity && s'.handoff == s.handoff && s'.cancel == s.cancel
  }

  lemma SameMarksMarked(p: Producer, s: ActState, s': ActState, log: seq<Event>)
    requires Marked(p, s, log) && (s'.failed.None? ==> s.failed.None?) && SameMarks(s, s')
    requires s'.turnTerminalSequence == s.turnTerminalSequence
    requires s'.settlement == s.settlement || s.turnTerminalSequence.None?
    ensures Marked(p, s', log)
  {
    hide MarksOn;
  }

  lemma CallerFinishedMarked(p: Producer, s: ActState, h: Stream, exit: Exit, error: Raised)
    requires Marked(p, s, h.log) && (s.failed.None? ==> Shape(s))
    ensures var r := CallerFinished(p, s, h, exit, error); Marked(p, r.0, r.1.log)
  {
    hide Admit, MarksOn, MaybeFinish, CallerTerminal, CallerSource, SettleCaller, MarksOf;
    if s.failed.None? && CallerGuard(s).None? {
      var t := CallerTerminal(exit, error);
      var c := Finish(p.scope, s.callerSpan.value, t,
                      Caused(CallerSource(s).value, if t.outcome.Cancelled? then Handoff else Return));
      AdmitMarks(h, c, ActOwner(p.id));
      var s1 := s.(callerTerminal := Some(t));
      SettleCallerFields(s1);
      SameMarksMarked(p, s, SettleCaller(s1), Admit(h, c).stream.log);
      MaybeFinishMarked(p, SettleCaller(s1), Admit(h, c).stream);
    }
  }

  lemma SettleCallerFields(s: ActState)
    requires s.settlement.None? ==> s.turnTerminalSequence.None?
    ensures SameMarks(s, SettleCaller(s)) && SettleCaller(s).turnTerminalSequence == s.turnTerminalSequence
    ensures SettleCaller(s).settlement == s.settlement || s.turnTerminalSequence.None?
    ensures SettleCaller(s).failed.None? ==> s.failed.None?
  {
    hide Settle;
    if s.prompt.None? && s.settlement.None? {
      var r := SettleUnsubmitted(s);
      assert r == s.(usage := r.usage, settlement := r.settlement, failed := r.failed);
    }
  }

  lemma AnnounceMarked(p: Producer, s: ActState, h: Stream, settlement: Settlement)
    requires s.turnSpan.Some? && s.turnScope.Some? && s.activity.Some? && ScopeOwner(s.turnScope.value) == ActOwner(p.id)
    ensures var b := AnnounceTerminal(s, h, settlement);
            b.sequence.Some? ==>
              && |h.log| < |b.stream.log|
              && MarksOn(b.stream.log, ActOwner(p.id)) == Announced(MarksOn(h.log, ActOwner(p.id)), s, |b.stream.log|, settlement)
  {
    hide Admit, MarksOn;
    var scope, span := s.turnScope.value, s.turnSpan.value;
    var c := Note(scope, AgentTurnTerminal, span, Caused(Or(s.handoff, s.activity).value, Return));
    AdmitMarks(h, c, ActOwner(p.id));
    var a := Admit(h, c);
    if a.sequence.Some? {
      AdmitMarks(a.stream, Note(scope, AgentTurnSettled, span, Caused(a.sequence.value, FollowsFrom)), ActOwner(p.id));
    }
  }

  function Announced(m: Marks, s: ActState, n: nat, settlement: Settlement): Marks {
    m.(terminal := TerminalMark(s, n, settlement),
       settled := if settlement.Authoritative? then SettledMark(s, n, settlement) else m.settled)
  }

  lemma EndTurnFields(s: ActState, h: Stream, source: nat, settlement: Settlement, t: Terminal)
    requires s.failed.None? && s.turnSpan.Some? && s.turnScope.Some?
    ensures var r := EndTurn(s, h, source, settlement, t);
            r.0.failed.None? ==>
              && SameMarks(s, r.0) && r.0.turnTerminalSequence == Some(|h.log| + 2) && r.0.settlement == Some(settlement)
  {
    hide Admit, Settle;
    var c1 := Finish(s.turnScope.value, s.turnSpan.value, t, Caused(source, Return));
    AdmitLog(h, c1);
    var c := Admit(h, c1);
    if c.sequence.Some? {
      AdmitLog(c.stream, Sample(s.turnScope.value, AgentTurnActive, 0, Caused(c.sequence.value, FollowsFrom)));
    }
  }

  lemma EndTurnMarks(s: ActState, h: Stream, source: nat, settlement: Settlement, t: Terminal, who: Owner)
    requires s.turnSpan.Some? && s.turnScope.Some?
    ensures MarksOn(EndTurn(s, h, source, settlement, t).1.log, who) == MarksOn(h.log, who)
  {
    hide Admit, Settle, MarksOn;
    var c1 := Finish(s.turnScope.value, s.turnSpan.value, t, Caused(source, Return));
    AdmitMarks(h, c1, who);
    var c := Admit(h, c1);
    if c.sequence.Some? {
      AdmitMarks(c.stream, Sample(s.turnScope.value, AgentTurnActive, 0, Caused(c.sequence.value, FollowsFrom)), who);
    }
  }

  lemma EndTurnMarked(p: Producer, s: ActState, h: Stream, source: nat, settlement: Settlement, t: Terminal)
    requires s.failed.None? && s.turnSpan.Some? && s.turnScope.Some? && s.turnTerminalSequence.None?
    requires Reached(s.cancel, |h.log|) && !settlement.NotSubmitted?
    requires MarksOn(h.log, ActOwner(p.id)) == Announced(MarksOf(s), s, |h.log|, settlement)
    ensures var r := EndTurn(s, h, source, settlement, t); Marked(p, r.0, r.1.log)
  {
    EndTurnFields(s, h, source, settlement, t);
    EndTurnMarks(s, h, source, settlement, t, ActOwner(p.id));
    hide EndTurn, MarksOn;
  }

  lemma CloseTurnMarked(p: Producer, s: ActState, h: Stream, settlement: Settlement, t: Terminal)
    requires Inv(p, s, h) && s.failed.None? && s.turnSpan.Some? && s.settlement.None? && Marked(p, s, h.log)
    requires !settlement.NotSubmitted?
    ensures var r := CloseTurn(s, h, settlement, t); Marked(p, r.0, r.1.log)
  {
    hide AnnounceTerminal, EndTurn, MarksOn, MarksOf, Held, Sequenced;
    AnnounceMarked(p, s, h, settlement);
    var b := AnnounceTerminal(s, h, settlement);
    if b.sequence.Some? { EndTurnMarked(p, s, b.stream, b.sequence.value, settlement, t); }
  }

  lemma TurnTerminalMarked(p: Producer, s: ActState, h: Stream, m: Metadata, settlement: Settlement,
                           outcome: Outcome, code: Option<string>)
    requires Inv(p, s, h) && Marked(p, s, h.log)
    ensures var r := TurnTerminal(p, s, h, m, settlement, outcome, code); Marked(p, r.0, r.1.log)
  {
    hide MaybeFinish, CloseTurn, MarksOn, MarksOf, Spans, Sequenced, Milestones, MetadataFault, Settle;
    var t := Terminal(outcome, code);
    if s.failed.Some? || MetadataFault(p, m).Some? {
    } else if s.settlement == Some(NotSubmitted) && settlement.NotSubmitted? {
      MaybeFinishMarked(p, s, h);
    } else if TerminalGuard(p, s, m, settlement, outcome, code).Some? {
    } else if settlement.NotSubmitted? {
      SameMarksMarked(p, s, SettleUnsubmitted(s), h.log);
      MaybeFinishMarked(p, SettleUnsubmitted(s), h);
    } else {
      CloseTurnMarked(p, s, h, settlement, t);
      MaybeFinishMarked(p, CloseTurn(s, h, settlement, t).0, CloseTurn(s, h, settlement, t).1);
    }
  }

  lemma UsageFinalizedMarked(p: Producer, s: ActState, h: Stream, sequence: nat)
    requires Marked(p, s, h.log)
    ensures var r := UsageFinalized(p, s, h, sequence); Marked(p, r.0, r.1.log)
  {
    hide MaybeFinish, MarksOn, MarksOf;
    if s.failed.None? {
      SameMarksMarked(p, s, s.(usageAck := Some(sequence)), h.log);
      MaybeFinishMarked(p, s.(usageAck := Some(sequence)), h);
    }
  }

  lemma ApplyMarked(p: Producer, s: ActState, h: Stream, op: Op)
    requires Inv(p, s, h) && Marked(p, s, h.log)
    ensures var r := Apply(p, s, h, op); Marked(p, r.0, r.1.log)
  {
    hide Spans, Milestones, Sequenced, Shape, MarksOn, MarksOf;
    hide DriverStarted, CancelRequested, PromptSubmitted, SupervisorHandoff, TurnTerminal, CallerFinished;
    match op
    case OpDriverStarted => DriverStartedMarked(p, s, h);
    case OpCancelRequested => CancelRequestedMarked(p, s, h);
    case OpPromptSubmitted(m) => PromptSubmittedMarked(p, s, h, m);
    case OpSupervisorHandoff(m) => SupervisorHandoffMarked(p, s, h, m);
    case OpTurnTerminal(m, settlement, outcome, code) => TurnTerminalMarked(p, s, h, m, settlement, outcome, code);
    case OpCallerFinished(exit, error) => CallerFinishedMarked(p, s, h, exit, error);
    case OpAdmittedAgain =>
    case _ => SameMarksMarked(p, s, Apply(p, s, h, op).0, h.log);
  }
}
