/** What every transition of an act keeps. */
module ActProofs {
  import opened Events
  import opened Hub
  import opened Act
  import opened Validator

  ghost predicate ProducerOk(p: Producer) {
    && p.scope.act == Some(p.id) && p.scope.tool.None? && p.scope.effect.None?
    && !HasUnknownSentinel(p.scope)
  }

  /** How the optional fields of a healthy record hang together. The last line is the join: the
      act finishes exactly when caller, settlement and usage acknowledgement are all in. */
  ghost predicate Shape(s: ActState) {
    && s.actSpan.Some? && s.callerSpan.Some? && s.admitted.Some?
    && (s.prompt.Some? ==> s.waiting.Some?)
    && (s.prompt.Some? <==> s.turnSpan.Some?)
    && (s.prompt.Some? <==> s.turnScope.Some?)
    && (s.prompt.Some? <==> s.activity.Some?)
    && (s.handoff.Some? ==> s.activity.Some?)
    && (s.turnTerminal.Some? <==> s.turnTerminalSequence.Some?)
    && (s.turnTerminal.Some? ==> s.turnSpan.Some?)
    && (s.turnTerminal.Some? <==> s.settlement.Some? && s.settlement.value != NotSubmitted)
    && (s.settlement == Some(NotSubmitted) ==> s.prompt.None?)
    && (s.callerTerminal.Some? && s.prompt.None? ==> s.settlement.Some?)
    && s.usage == Usage(s.prompt.Some?, s.settlement)
    && (s.usageAck.Some? ==> s.settlement.Some?)
    && (s.finishAttempted <==> s.callerTerminal.Some? && s.settlement.Some? && s.usageAck.Some?)
  }

  predicate Before(first: Option<nat>, second: Option<nat>) {
    first.Some? && second.Some? ==> first.value < second.value
  }

  predicate Reached(m: Option<nat>, n: nat) {
    m.Some? ==> 1 <= m.value <= n
  }

  /** The milestones form one increasing chain, all of them already in the log. */
  predicate Milestones(s: ActState, n: nat) {
    && Before(s.actSpan, s.callerSpan) && Before(s.callerSpan, s.admitted)
    && Before(s.admitted, s.waiting)
    && Before(s.waiting, s.prompt)
    && Before(s.prompt, s.turnSpan) && Before(s.turnSpan, s.activity)
    && Before(s.activity, s.handoff)
    && Before(s.activity, s.turnTerminalSequence) && Before(s.handoff, s.turnTerminalSequence)
    && Reached(s.actSpan, n) && Reached(s.admitted, n) && Reached(s.waiting, n) && Reached(s.activity, n)
    && Reached(s.handoff, n) && Reached(s.turnTerminalSequence, n) && Reached(s.cancel, n)
    && Reached(s.usageAck, n)
  }

  ghost predicate TurnScopeOk(p: Producer, scope: Scope) {
    && scope == p.scope.(generation := scope.generation)
    && scope.generation.Some? && scope.generation.value > 0
    && (p.scope.generation.Some? ==> scope.generation == p.scope.generation)
  }

  function OwnSpans(s: ActState): set<nat> {
    (if s.actSpan.Some? then {s.actSpan.value} else {})
    + (if s.callerSpan.Some? then {s.callerSpan.value} else {})
    + if s.turnSpan.Some? then {s.turnSpan.value} else {}
  }

  /** Which spans the act has, and which of them are open. */
  ghost predicate Spans(p: Producer, s: ActState, h: Stream) {
    && s.actSpan.Some? && s.callerSpan.Some? && (s.turnSpan.Some? ==> s.turnScope.Some?)
    && Held(h, s.actSpan.value, p.scope, None, !s.finishAttempted)
    && Held(h, s.callerSpan.value, p.scope, s.actSpan, s.callerTerminal.None?)
    && Owns(h, ActOwner(p.id), OwnSpans(s))
    && s.turnSpan != s.callerSpan
    && (s.turnSpan.Some? ==>
          && TurnScopeOk(p, s.turnScope.value)
          && Held(h, s.turnSpan.value, s.turnScope.value, s.actSpan, s.turnTerminal.None?))
  }

  ghost predicate Placed(p: Producer, s: ActState, h: Stream) {
    ProducerOk(p) && Sequenced(h) && Spans(p, s, h)
  }

  ghost predicate Inv(p: Producer, s: ActState, h: Stream) {
    && ProducerOk(p) && Sequenced(h)
    && (s.failed.None? ==> Shape(s) && Milestones(s, |h.log|) && Spans(p, s, h))
  }

  /** A hook keeps the invariant, and closes no spans but these. */
  ghost predicate Kept(p: Producer, h: Stream, r: (ActState, Stream), closing: set<nat>) {
    Inv(p, r.0, r.1) && Grows(h, r.1, ActOwner(p.id)) && Continues(h, r.1, closing)
  }

  // ----- The spans a hook is to close -----

  function JoinCloses(s: ActState): set<nat> {
    if s.failed.None? && !s.finishAttempted && s.actSpan.Some? && s.callerTerminal.Some? && s.settlement.Some? && s.usageAck.Some?
    then {s.actSpan.value} else {}
  }

  function TerminalCloses(s: ActState): set<nat> {
    if s.failed.None? && s.turnSpan.Some? && s.turnTerminal.None? then {s.turnSpan.value} else {}
  }

  function CallerCloses(s: ActState): set<nat> {
    if s.failed.None? && s.callerSpan.Some? && s.callerTerminal.None?
    then {s.callerSpan.value} + (if s.actSpan.Some? && s.usageAck.Some? then {s.actSpan.value} else {})
    else {}
  }

  function UsageCloses(s: ActState): set<nat> {
    if s.failed.None? && s.actSpan.Some? && s.callerTerminal.Some? && s.usageAck.None? then {s.actSpan.value} else {}
  }

  // ----- Single admissions of an act -----

  /** The spans of the act in which a healthy act may place an instant. */
  predicate PlacedIn(p: Producer, s: ActState, scope: Scope, span: nat) {
    || (Some(span) == s.actSpan && scope == p.scope && !s.finishAttempted)
    || (Some(span) == s.callerSpan && scope == p.scope && s.callerTerminal.None?)
    || (Some(span) == s.turnSpan && Some(scope) == s.turnScope && s.turnTerminal.None?)
  }

  lemma SameSpansKept(p: Producer, s: ActState, h: Stream, h': Stream)
    requires Spans(p, s, h) && SameSpans(h, h')
    ensures Spans(p, s, h')
  {
  }

  lemma InstantKept(p: Producer, s: ActState, h: Stream, scope: Scope, kind: InstantKind, span: nat, link: Link)
    requires Placed(p, s, h) && PlacedIn(p, s, scope, span) && Known(h, link.source)
    ensures var a := Admit(h, Note(scope, kind, span, [link]));
            Moves(h, a, ActOwner(p.id), {}) && Placed(p, s, a.stream)
  {
    var c := Note(scope, kind, span, [link]);
    NoteStep(h, c, ActOwner(p.id));
    SameSpansKept(p, s, h, Admit(h, c).stream);
    hide Admit;
  }

  lemma SampleKept(p: Producer, s: ActState, h: Stream, value: nat, link: Link)
    requires Placed(p, s, h) && s.turnSpan.Some? && Known(h, link.source)
    ensures var a := Admit(h, Sample(s.turnScope.value, AgentTurnActive, value, [link]));
            Moves(h, a, ActOwner(p.id), {}) && Placed(p, s, a.stream)
  {
    var c := Sample(s.turnScope.value, AgentTurnActive, value, [link]);
    NoteStep(h, c, ActOwner(p.id));
    SameSpansKept(p, s, h, Admit(h, c).stream);
    hide Admit;
  }

  lemma TurnStartKept(p: Producer, s: ActState, h: Stream, scope: Scope, link: Link)
    requires Placed(p, s, h) && !s.finishAttempted && s.turnSpan.None?
    requires TurnScopeOk(p, scope) && Known(h, link.source)
    ensures var a := Admit(h, Start(scope, AgentTurn, s.actSpan, [link]));
            && Moves(h, a, ActOwner(p.id), {})
            && (a.sequence.Some? && s.turnTerminal.None? ==>
                  Placed(p, s.(turnSpan := a.sequence, turnScope := Some(scope)), a.stream))
  {
    var c, me := Start(scope, AgentTurn, s.actSpan, [link]), ActOwner(p.id);
    assert OwnedBy(h, c, me) && Referenced(h, c);
    hide Admit, Grows, Continues, OwnedBy, Referenced;
    AdmitStep(h, c, me);
    var a := Admit(h, c);
    if a.sequence.Some? && s.turnTerminal.None? {
      SpanKnown(h, s.callerSpan.value);
      hide Held, Owns;
      HeldAfterStart(h, c, s.actSpan.value, p.scope, None, true);
      HeldAfterStart(h, c, s.callerSpan.value, p.scope, s.actSpan, s.callerTerminal.None?);
      OwnsAfterStart(h, c, me, OwnSpans(s));
      assert OwnSpans(s.(turnSpan := a.sequence)) == OwnSpans(s) + {a.sequence.value};
      hide Sequenced;
    }
  }

  /** The record that goes with a finished span. */
  function Closed(s: ActState, span: nat, t: Terminal): ActState {
    if Some(span) == s.actSpan then s.(finishAttempted := true)
    else if Some(span) == s.callerSpan then s.(callerTerminal := Some(t))
    else s.(turnTerminal := Some(t))
  }

  /** The spans of the act that may be finished: nothing of the act's own is open under them. */
  predicate Finishable(p: Producer, s: ActState, scope: Scope, span: nat) {
    && PlacedIn(p, s, scope, span)
    && (Some(span) == s.actSpan ==> s.callerTerminal.Some? && (s.turnSpan.Some? ==> s.turnTerminal.Some?))
  }

  /** An act's finish has its references in order. */
  lemma FinishReferenced(p: Producer, s: ActState, h: Stream, span: nat, scope: Scope, t: Terminal, link: Link)
    requires Placed(p, s, h) && Finishable(p, s, scope, span) && Known(h, link.source)
    ensures var c := Finish(scope, span, t, [link]);
            && Referenced(h, c) && OwnedBy(h, c, ActOwner(p.id)) && OwnDone(h, span)
            && RecordOwner(h.index.spans[span]) == ActOwner(p.id)
    ensures s.actSpan != s.callerSpan && s.actSpan != s.turnSpan
  {
  }

  lemma FinishedSpans(p: Producer, s: ActState, h: Stream, span: nat, scope: Scope, t: Terminal, link: Link)
    requires Placed(p, s, h) && Finishable(p, s, scope, span) && Known(h, link.source)
    ensures var a := Admit(h, Finish(scope, span, t, [link]));
            && Moves(h, a, ActOwner(p.id), {span})
            && (a.sequence.Some? ==> Placed(p, Closed(s, span, t), a.stream))
  {
    var c, me := Finish(scope, span, t, [link]), ActOwner(p.id);
    FinishReferenced(p, s, h, span, scope, t, link);
    hide Admit, Grows, Continues, OwnedBy, Referenced, OwnDone, Held, Owns;
    AdmitStep(h, c, me);
    if Admit(h, c).sequence.Some? {
      HeldAfterFinish(h, c, s.actSpan.value, p.scope, None, !s.finishAttempted);
      HeldAfterFinish(h, c, s.callerSpan.value, p.scope, s.actSpan, s.callerTerminal.None?);
      if s.turnSpan.Some? { HeldAfterFinish(h, c, s.turnSpan.value, s.turnScope.value, s.actSpan, s.turnTerminal.None?); }
      OwnsAfterFinish(h, c, me, OwnSpans(s));
    }
    hide Sequenced;
  }

  /** A healthy act's span whose own content is over can be finished, given the reservation, exactly
      when nobody else's span is still open under it and the stamp is not before what it holds. */
  lemma FinishRefused(p: Producer, s: ActState, h: Stream, span: nat, scope: Scope, t: Terminal, link: Link)
    requires Inv(p, s, h) && s.failed.None? && Finishable(p, s, scope, span) && Known(h, link.source)
    requires Reserved(h)
    ensures var c := Finish(scope, span, t, [link]);
            var a := Admit(h, c);
            && (a.sequence.None? <==> !Clear(h, span) || !OverBy(h, span, Stamp(h)))
            && (a.sequence.None? && h.refusal.None? ==> a.stream.refusal == Some(RefusalCode(h, c)))
  {
    hide Admit, Clear, OverBy, Milestones, Spans;
    FinishReferenced(p, s, h, span, scope, t, link);
    FinishRefusedIff(h, Finish(scope, span, t, [link]));
  }

  lemma TurnFinishKept(p: Producer, s: ActState, h: Stream, t: Terminal, link: Link)
    requires Placed(p, s, h) && s.turnSpan.Some? && s.turnTerminal.None? && Known(h, link.source)
    ensures var a := Admit(h, Finish(s.turnScope.value, s.turnSpan.value, t, [link]));
            && Moves(h, a, ActOwner(p.id), {s.turnSpan.value})
            && (a.sequence.Some? ==> Placed(p, s.(turnTerminal := Some(t)), a.stream))
  {
    FinishReferenced(p, s, h, s.turnSpan.value, s.turnScope.value, t, link);
    FinishedSpans(p, s, h, s.turnSpan.value, s.turnScope.value, t, link);
  }

  lemma CallerFinishKept(p: Producer, s: ActState, h: Stream, t: Terminal, link: Link)
    requires Placed(p, s, h) && s.callerTerminal.None? && Known(h, link.source)
    ensures var a := Admit(h, Finish(p.scope, s.callerSpan.value, t, [link]));
            && Moves(h, a, ActOwner(p.id), {s.callerSpan.value})
            && (a.sequence.Some? ==> Placed(p, s.(callerTerminal := Some(t)), a.stream))
  {
    FinishReferenced(p, s, h, s.callerSpan.value, p.scope, t, link);
    FinishedSpans(p, s, h, s.callerSpan.value, p.scope, t, link);
  }

  lemma ActFinishKept(p: Producer, s: ActState, h: Stream, t: Terminal, link: Link)
    requires Placed(p, s, h) && !s.finishAttempted && s.callerTerminal.Some?
    requires s.turnSpan.Some? ==> s.turnTerminal.Some?
    requires Known(h, link.source)
    ensures var a := Admit(h, Finish(p.scope, s.actSpan.value, t, [link]));
            && Moves(h, a, ActOwner(p.id), {s.actSpan.value})
            && (a.sequence.Some? ==> Placed(p, s.(finishAttempted := true), a.stream))
  {
    FinishReferenced(p, s, h, s.actSpan.value, p.scope, t, link);
    FinishedSpans(p, s, h, s.actSpan.value, p.scope, t, link);
  }

  lemma ActStartKept(p: Producer, h: Stream)
    requires ProducerOk(p) && Sequenced(h) && Owns(h, ActOwner(p.id), {})
    ensures var a := Admit(h, Start(p.scope, ActLifecycle, None, []));
            && Moves(h, a, ActOwner(p.id), {})
            && (a.sequence.Some? ==> Held(a.stream, a.sequence.value, p.scope, None, true)
                                     && Owns(a.stream, ActOwner(p.id), {a.sequence.value}))
  {
    var c := Start(p.scope, ActLifecycle, None, []);
    AdmitStep(h, c, ActOwner(p.id));
    AdmitSpans(h, c);
    hide Admit, Grows, Continues;
  }

  lemma CallerStartKept(p: Producer, h: Stream, act: nat)
    requires ProducerOk(p) && Sequenced(h)
    requires Held(h, act, p.scope, None, true) && Owns(h, ActOwner(p.id), {act})
    ensures var a := Admit(h, Start(p.scope, ActCaller, Some(act), []));
            && Moves(h, a, ActOwner(p.id), {})
            && (a.sequence.Some? ==>
                  Placed(p, PREPARED.(actSpan := Some(act), callerSpan := a.sequence), a.stream))
  {
    var c, me := Start(p.scope, ActCaller, Some(act), []), ActOwner(p.id);
    assert OwnedBy(h, c, me) && Referenced(h, c);
    hide Admit, Grows, Continues, OwnedBy, Referenced;
    AdmitStep(h, c, me);
    AdmitSpans(h, c);
    hide Sequenced;
  }

  // ----- Transitions -----

  lemma StoppedKept(p: Producer, s: ActState, h: Stream, s': ActState)
    requires Inv(p, s, h) && (s' == s || s'.failed.Some?)
    ensures forall closing :: Kept(p, h, (s', h), closing)
  {
    Stays(h, ActOwner(p.id));
    forall closing ensures Continues(h, h, closing) { ContinuesMore(h, h, {}, closing); }
    hide Grows, Continues, Shape, Milestones, Spans;
  }

  lemma MovedKept(p: Producer, h: Stream, h': Stream, s': ActState, closing: set<nat>)
    requires ProducerOk(p) && Grows(h, h', ActOwner(p.id)) && Continues(h, h', closing)
    requires s'.failed.None? ==> Shape(s') && Milestones(s', |h'.log|) && Spans(p, s', h')
    ensures Kept(p, h, (s', h'), closing)
  {
    hide Grows, Shape, Milestones, Spans;
  }

  lemma StartActKept(p: Producer, h: Stream)
    requires ProducerOk(p) && Sequenced(h) && Owns(h, ActOwner(p.id), {})
    ensures Kept(p, h, StartAct(p, PREPARED, h), {})
  {
    hide Kept, Admit, Grows, Follows, Stamped, Faithful, Held, Owns, Sequenced, TurnScopeOk;
    var r := StartAct(p, PREPARED, h);
    ActStartKept(p, h);
    var a := Admit(h, Start(p.scope, ActLifecycle, None, []));
    if a.sequence.Some? {
      CallerStartKept(p, a.stream, a.sequence.value);
      var b := Admit(a.stream, Start(p.scope, ActCaller, a.sequence, []));
      Chain(h, a.stream, b.stream, ActOwner(p.id), {}, {});
      if b.sequence.Some? {
        var s := PREPARED.(actSpan := a.sequence, callerSpan := b.sequence);
        InstantKept(p, s, b.stream, p.scope, ActAdmitted, a.sequence.value, Link(b.sequence.value, FollowsFrom));
        Chain(h, b.stream, r.1, ActOwner(p.id), {}, {});
      }
    }
    MovedKept(p, h, r.1, r.0, {});
  }

  lemma DriverStartedKept(p: Producer, s: ActState, h: Stream)
    requires Inv(p, s, h)
    ensures Kept(p, h, DriverStarted(p, s, h), {})
  {
    hide Kept, Admit, Grows, Follows, Stamped, Faithful, Held, Owns, Sequenced;
    var r := DriverStarted(p, s, h);
    if s.failed.Some? || s.waiting.Some? || s.callerTerminal.Some? {
      StoppedKept(p, s, h, r.0);
    } else {
      InstantKept(p, s, h, p.scope, ActWaitingReady, s.actSpan.value, Link(s.admitted.value, FollowsFrom));
      MovedKept(p, h, r.1, r.0, {});
    }
  }

  lemma CancelRequestedKept(p: Producer, s: ActState, h: Stream)
    requires Inv(p, s, h)
    ensures Kept(p, h, CancelRequested(p, s, h), {})
  {
    hide Kept, Admit, Grows, Follows, Stamped, Faithful, Held, Owns, Sequenced, CancelSource, Milestones;
    var r := CancelRequested(p, s, h);
    if s.failed.Some? || s.cancel.Some? || s.callerTerminal.Some? {
      StoppedKept(p, s, h, r.0);
    } else {
      CancelKnown(s, h);
      InstantKept(p, s, h, p.scope, ActCancelRequested, s.callerSpan.value, Link(CancelSource(s).value, Handoff));
      if r.0.failed.None? { CancelMilestones(s, |h.log|, r.1); }
      hide Continues;
      MovedKept(p, h, r.1, r.0, {});
    }
  }

  lemma CancelKnown(s: ActState, h: Stream)
    requires Shape(s) && Milestones(s, |h.log|)
    ensures CancelSource(s).Some? && Known(h, CancelSource(s).value)
  {
  }

  lemma CancelMilestones(s: ActState, n: nat, h: Stream)
    requires Milestones(s, n) && |h.log| == n + 1
    ensures Milestones(s.(cancel := Some(n + 1)), |h.log|)
  {
  }

  lemma SupervisorHandoffKept(p: Producer, s: ActState, h: Stream, m: Metadata)
    requires Inv(p, s, h)
    ensures Kept(p, h, SupervisorHandoff(p, s, h, m), {})
  {
    hide Kept, Admit, Grows, Follows, Stamped, Faithful, Held, Owns, Sequenced, MetadataFault;
    var r := SupervisorHandoff(p, s, h, m);
    if s.failed.Some? || MetadataFault(p, m).Some? || s.activity.None? || s.handoff.Some? || s.turnTerminal.Some? {
      StoppedKept(p, s, h, r.0);
    } else {
      InstantKept(p, s, h, p.scope, ActSupervisorHandoff, s.actSpan.value,
                  Link(Or(s.cancel, s.activity).value, Handoff));
      MovedKept(p, h, r.1, r.0, {});
    }
  }

  lemma PromptSubmittedKept(p: Producer, s: ActState, h: Stream, m: Metadata)
    requires Inv(p, s, h) && m.generation > 0
    ensures Kept(p, h, PromptSubmitted(p, s, h, m), {})
  {
    hide Kept, Admit, Grows, Follows, Stamped, Faithful, Held, Owns, Sequenced;
    var r, me := PromptSubmitted(p, s, h, m), ActOwner(p.id);
    if s.failed.Some? || PromptGuard(p, s, m).Some? {
      StoppedKept(p, s, h, r.0);
      return;
    }
    var scope := TurnScope(p, m);
    assert TurnScopeOk(p, scope);
    var link := Link(s.waiting.value, FollowsFrom);
    InstantKept(p, s, h, p.scope, ActPromptSubmitted, s.actSpan.value, link);
    var a := Admit(h, Note(p.scope, ActPromptSubmitted, s.actSpan.value, [link]));
    if a.sequence.Some? {
      var link2 := Link(a.sequence.value, Dispatch);
      TurnStartKept(p, s, a.stream, scope, link2);
      var b := Admit(a.stream, Start(scope, AgentTurn, s.actSpan, [link2]));
      Chain(h, a.stream, b.stream, me, {}, {});
      if b.sequence.Some? {
        TurnOpenedKept(p, s.(turnSpan := b.sequence, turnScope := Some(scope)), h, b.stream);
      }
    }
    MovedKept(p, h, r.1, r.0, {});
  }

  /** The counter and the activity instant that follow an opened turn span. */
  lemma TurnOpenedKept(p: Producer, s: ActState, h: Stream, h2: Stream)
    requires Placed(p, s, h2) && s.turnSpan == Some(|h2.log|) && s.turnTerminal.None? && |h2.log| > 0
    requires Grows(h, h2, ActOwner(p.id)) && Continues(h, h2, {})
    ensures var c := Admit(h2, Sample(s.turnScope.value, AgentTurnActive, 1, Caused(s.turnSpan.value, FollowsFrom)));
            && Moves(h2, c, ActOwner(p.id), {}) && Grows(h, c.stream, ActOwner(p.id)) && Continues(h, c.stream, {})
            && (c.sequence.Some? ==>
                  var d := Admit(c.stream, Note(s.turnScope.value, AgentTurnActivity, s.turnSpan.value,
                                                Caused(c.sequence.value, FollowsFrom)));
                  && Moves(c.stream, d, ActOwner(p.id), {}) && Placed(p, s, d.stream)
                  && Grows(h, d.stream, ActOwner(p.id)) && Continues(h, d.stream, {}))
  {
    hide Admit, Grows, Follows, Stamped, Faithful, Held, Owns, Sequenced;
    var link := Link(s.turnSpan.value, FollowsFrom);
    SampleKept(p, s, h2, 1, link);
    var c := Admit(h2, Sample(s.turnScope.value, AgentTurnActive, 1, [link]));
    Chain(h, h2, c.stream, ActOwner(p.id), {}, {});
    if c.sequence.Some? {
      var link2 := Link(c.sequence.value, FollowsFrom);
      InstantKept(p, s, c.stream, s.turnScope.value, AgentTurnActivity, s.turnSpan.value, link2);
      var d := Admit(c.stream, Note(s.turnScope.value, AgentTurnActivity, s.turnSpan.value, [link2]));
      Chain(h, c.stream, d.stream, ActOwner(p.id), {}, {});
    }
  }

  lemma MaybeFinishKept(p: Producer, s: ActState, h: Stream)
    requires ProducerOk(p) && Sequenced(h)
    requires s.failed.None? ==> Joining(s) && Milestones(s, |h.log|) && Spans(p, s, h)
    ensures Kept(p, h, MaybeFinish(p, s, h), JoinCloses(s))
  {
    hide Kept, Admit, Grows, Follows, Stamped, Faithful, Held, Owns, Sequenced;
    var r := MaybeFinish(p, s, h);
    Stays(h, ActOwner(p.id));
    if s.failed.None? && !s.finishAttempted && s.callerTerminal.Some? && s.settlement.Some? && s.usageAck.Some? {
      var t := ActTerminal(s.callerTerminal.value, Remote(s));
      ActFinishKept(p, s, h, t, Link(s.usageAck.value, FollowsFrom));
    }
    MovedKept(p, h, r.1, r.0, JoinCloses(s));
  }

  /** A record on its way into the join: everything but the finish itself. */
  ghost predicate Joining(s: ActState) {
    && Shape(s.(finishAttempted := s.callerTerminal.Some? && s.settlement.Some? && s.usageAck.Some?))
    && (s.finishAttempted ==> s.callerTerminal.Some? && s.settlement.Some? && s.usageAck.Some?)
  }

  lemma UsageFinalizedKept(p: Producer, s: ActState, h: Stream, sequence: nat)
    requires Inv(p, s, h) && (s.failed.None? ==> Known(h, sequence))
    ensures Kept(p, h, UsageFinalized(p, s, h, sequence), UsageCloses(s))
  {
    hide Kept, Admit, Grows, Follows, Stamped, Faithful, Held, Owns, Sequenced, MaybeFinish;
    if s.failed.Some? || s.usageSlot || s.usageAck.Some? || s.settlement.None? {
      StoppedKept(p, s, h, UsageFinalized(p, s, h, sequence).0);
    } else {
      MaybeFinishKept(p, s.(usageAck := Some(sequence)), h);
    }
  }

  lemma KeptAfter(p: Producer, h: Stream, h1: Stream, r: (ActState, Stream), closing: set<nat>, closing2: set<nat>)
    requires Grows(h, h1, ActOwner(p.id)) && Continues(h, h1, closing) && Kept(p, h1, r, closing2)
    ensures Kept(p, h, r, closing + closing2)
  {
    Chain(h, h1, r.1, ActOwner(p.id), closing, closing2);
    hide Grows, Continues, Inv;
  }

  lemma SettledCallerKept(p: Producer, s: ActState, h: Stream)
    requires Shape(s.(callerTerminal := None)) && s.callerTerminal.Some? && !s.finishAttempted && s.failed.None?
    requires Milestones(s, |h.log|) && Spans(p, s, h)
    ensures var s' := SettleCaller(s);
            s'.failed.None? && Joining(s') && Milestones(s', |h.log|) && Spans(p, s', h)
  {
    hide Held, Owns;
  }

  lemma SettledCallerCloses(s: ActState, t: Terminal)
    requires Shape(s) && s.failed.None? && s.callerTerminal.None?
    ensures {s.callerSpan.value} + JoinCloses(SettleCaller(s.(callerTerminal := Some(t)))) == CallerCloses(s)
  {
  }

  lemma RecordCallerKept(p: Producer, s: ActState, h: Stream, t: Terminal)
    requires Inv(p, s, h) && s.failed.None? && s.callerTerminal.None?
    ensures Kept(p, h, RecordCaller(p, s, h, t), CallerCloses(s))
  {
    hide Kept, Admit, Grows, Follows, Stamped, Faithful, Held, Owns, Sequenced, MaybeFinish, SettleCaller;
    var r, link := RecordCaller(p, s, h, t), Link(CallerSource(s).value, if t.outcome.Cancelled? then Handoff else Return);
    CallerFinishKept(p, s, h, t, link);
    var a := Admit(h, Finish(p.scope, s.callerSpan.value, t, [link]));
    if a.sequence.None? {
      ContinuesMore(h, r.1, {s.callerSpan.value}, CallerCloses(s));
      MovedKept(p, h, r.1, r.0, CallerCloses(s));
    } else {
      var s1 := s.(callerTerminal := Some(t));
      assert s1.(callerTerminal := None) == s;
      SettledCallerKept(p, s1, a.stream);
      SettledCallerCloses(s, t);
      hide Shape, Milestones, Spans, Joining, JoinCloses;
      MaybeFinishKept(p, SettleCaller(s1), a.stream);
      KeptAfter(p, h, a.stream, r, {s.callerSpan.value}, JoinCloses(SettleCaller(s1)));
    }
  }

  lemma CallerFinishedKept(p: Producer, s: ActState, h: Stream, exit: Exit, error: Raised)
    requires Inv(p, s, h)
    ensures Kept(p, h, CallerFinished(p, s, h, exit, error), CallerCloses(s))
  {
    hide Kept, RecordCaller, CallerTerminal, Spans, Milestones, Sequenced;
    if s.failed.Some? || s.callerTerminal.Some? {
      StoppedKept(p, s, h, CallerFinished(p, s, h, exit, error).0);
    } else {
      RecordCallerKept(p, s, h, CallerTerminal(exit, error));
    }
  }

  lemma AnnounceKept(p: Producer, s: ActState, h: Stream, settlement: Settlement)
    requires Placed(p, s, h) && s.turnSpan.Some? && s.turnTerminal.None? && s.activity.Some?
    requires Known(h, Or(s.handoff, s.activity).value)
    ensures var b := AnnounceTerminal(s, h, settlement);
            && Grows(h, b.stream, ActOwner(p.id)) && Continues(h, b.stream, {}) && Placed(p, s, b.stream)
            && |h.log| <= |b.stream.log| && (b.sequence.Some? ==> Known(b.stream, b.sequence.value))
  {
    hide Admit, Grows, Follows, Stamped, Faithful, Held, Owns, Sequenced;
    var scope, span, link := s.turnScope.value, s.turnSpan.value, Link(Or(s.handoff, s.activity).value, Return);
    InstantKept(p, s, h, scope, AgentTurnTerminal, span, link);
    var a := Admit(h, Note(scope, AgentTurnTerminal, span, [link]));
    if a.sequence.Some? && settlement.Authoritative? {
      var link2 := Link(a.sequence.value, FollowsFrom);
      InstantKept(p, s, a.stream, scope, AgentTurnSettled, span, link2);
      Chain(h, a.stream, Admit(a.stream, Note(scope, AgentTurnSettled, span, [link2])).stream, ActOwner(p.id), {}, {});
    }
  }

  lemma EndTurnKept(p: Producer, s: ActState, h: Stream, source: nat, settlement: Settlement, t: Terminal)
    requires Inv(p, s, h) && s.failed.None? && s.turnSpan.Some? && s.settlement.None?
    requires settlement != NotSubmitted && Known(h, source)
    ensures var r := EndTurn(s, h, source, settlement, t);
            && Grows(h, r.1, ActOwner(p.id)) && Continues(h, r.1, {s.turnSpan.value})
            && (r.0.failed.None? ==> Joining(r.0) && Milestones(r.0, |r.1.log|) && Spans(p, r.0, r.1))
  {
    hide Admit, Grows, Follows, Stamped, Faithful, Held, Owns, Sequenced;
    var scope, link := s.turnScope.value, Link(source, Return);
    TurnFinishKept(p, s, h, t, link);
    var c := Admit(h, Finish(scope, s.turnSpan.value, t, [link]));
    if c.sequence.None? { return; }
    var link2 := Link(c.sequence.value, FollowsFrom);
    SampleKept(p, s.(turnTerminal := Some(t)), c.stream, 0, link2);
    Chain(h, c.stream, Admit(c.stream, Sample(scope, AgentTurnActive, 0, [link2])).stream, ActOwner(p.id),
          {s.turnSpan.value}, {});
  }

  lemma PlacedInv(p: Producer, s: ActState, h: Stream, h': Stream)
    requires Inv(p, s, h) && Placed(p, s, h') && |h.log| <= |h'.log|
    ensures Inv(p, s, h')
  {
    hide Sequenced, Spans, Shape;
  }

  lemma CloseTurnKept(p: Producer, s: ActState, h: Stream, settlement: Settlement, t: Terminal)
    requires Inv(p, s, h) && s.failed.None? && s.turnSpan.Some? && s.settlement.None?
    requires settlement != NotSubmitted
    ensures var r := CloseTurn(s, h, settlement, t);
            && Grows(h, r.1, ActOwner(p.id)) && Continues(h, r.1, {s.turnSpan.value})
            && (r.0.failed.None? ==> Joining(r.0) && Milestones(r.0, |r.1.log|) && Spans(p, r.0, r.1))
  {
    AnnounceKept(p, s, h, settlement);
    var b := AnnounceTerminal(s, h, settlement);
    hide AnnounceTerminal, EndTurn, Grows, Continues, Spans, Joining;
    if b.sequence.Some? {
      PlacedInv(p, s, h, b.stream);
      hide Milestones, Shape, Inv;
      EndTurnKept(p, s, b.stream, b.sequence.value, settlement, t);
      Chain(h, b.stream, EndTurn(s, b.stream, b.sequence.value, settlement, t).1, ActOwner(p.id), {}, {s.turnSpan.value});
    } else {
      ContinuesMore(h, b.stream, {}, {s.turnSpan.value});
    }
  }

  /** A turn that ends does not complete the join: its usage is not acknowledged yet. */
  lemma CloseTurnWaits(p: Producer, s: ActState, h: Stream, settlement: Settlement, t: Terminal)
    requires s.usageAck.None? && s.turnSpan.Some? && s.turnScope.Some? && s.activity.Some?
    ensures JoinCloses(CloseTurn(s, h, settlement, t).0) == {}
  {
    hide Admit, AnnounceTerminal;
  }

  lemma TurnTerminalKept(p: Producer, s: ActState, h: Stream, m: Metadata, settlement: Settlement,
                         outcome: Outcome, code: Option<string>)
    requires Inv(p, s, h)
    ensures Kept(p, h, TurnTerminal(p, s, h, m, settlement, outcome, code), TerminalCloses(s))
  {
    hide Kept, Admit, Grows, Follows, Stamped, Faithful, Held, Owns, Sequenced, MaybeFinish, CloseTurn, MetadataFault;
    var r := TurnTerminal(p, s, h, m, settlement, outcome, code);
    if s.failed.Some? || MetadataFault(p, m).Some? {
      StoppedKept(p, s, h, r.0);
    } else if s.settlement == Some(NotSubmitted) && settlement.NotSubmitted? {
      MaybeFinishKept(p, s, h);
    } else if TerminalGuard(p, s, m, settlement, outcome, code).Some? {
      StoppedKept(p, s, h, r.0);
    } else if settlement.NotSubmitted? {
      MaybeFinishKept(p, SettleUnsubmitted(s), h);
    } else {
      CloseTurnKept(p, s, h, settlement, Terminal(outcome, code));
      var c := CloseTurn(s, h, settlement, Terminal(outcome, code));
      MaybeFinishKept(p, c.0, c.1);
      CloseTurnWaits(p, s, h, settlement, Terminal(outcome, code));
      KeptAfter(p, h, c.1, r, {s.turnSpan.value}, {});
      assert {s.turnSpan.value} + {} == TerminalCloses(s);
    }
  }

  // ----- Codes and panics no run can reach -----

  /** The faults a run can end in. The usage-slot and acknowledgement errors, the early finish,
      the hooks before the lifecycle and both `expect`s are not among them. */
  predicate Reachable(fault: Fault) {
    && fault != Panicked
    && fault != StateFailed(UsageSlotPromptInvalid)
    && fault != StateFailed(UsageSlotSettlementInvalid)
    && fault != StateFailed(UsageAckTransitionInvalid)
    && fault != StateFailed(FinishBeforeTurnTerminal)
    && fault != StateFailed(DriverBeforeLifecycle)
    && fault != StateFailed(CancelBeforeLifecycle)
    && fault != StateFailed(CallerFinishBeforeStart)
  }

  predicate Sane(s: ActState) {
    s.failed.Some? ==> Reachable(s.failed.value)
  }

  lemma MaybeFinishSane(p: Producer, s: ActState, h: Stream)
    requires Sane(s) && (s.failed.None? ==> Joining(s))
    ensures Sane(MaybeFinish(p, s, h).0)
  {
    hide Admit;
  }

  lemma PromptSubmittedSane(p: Producer, s: ActState, h: Stream, m: Metadata)
    requires Sane(s) && (s.failed.None? ==> Shape(s))
    ensures Sane(PromptSubmitted(p, s, h, m).0)
  {
    hide Admit;
  }

  lemma SettleCallerSane(s: ActState)
    requires Shape(s.(callerTerminal := None)) && s.callerTerminal.Some? && !s.finishAttempted && s.failed.None?
    ensures SettleCaller(s).failed.None? && Joining(SettleCaller(s))
  {
  }

  lemma CallerFinishedSane(p: Producer, s: ActState, h: Stream, exit: Exit, error: Raised)
    requires Sane(s) && (s.failed.None? ==> Shape(s))
    ensures Sane(CallerFinished(p, s, h, exit, error).0)
  {
    hide Admit, MaybeFinish, CallerTerminal, SettleCaller, Joining;
    if s.failed.None? && s.callerTerminal.None? {
      var t := CallerTerminal(exit, error);
      var c := Finish(p.scope, s.callerSpan.value, t,
                      Caused(CallerSource(s).value, if t.outcome.Cancelled? then Handoff else Return));
      var s1 := s.(callerTerminal := Some(t));
      assert s1.(callerTerminal := None) == s;
      SettleCallerSane(s1);
      MaybeFinishSane(p, SettleCaller(s1), Admit(h, c).stream);
    }
  }

  lemma CloseTurnSane(s: ActState, h: Stream, settlement: Settlement, t: Terminal)
    requires s.failed.None? && Shape(s) && s.turnSpan.Some? && s.settlement.None? && settlement != NotSubmitted
    ensures var r := CloseTurn(s, h, settlement, t); Sane(r.0) && (r.0.failed.None? ==> Joining(r.0))
  {
    hide Admit, AnnounceTerminal;
  }

  lemma TurnTerminalSane(p: Producer, s: ActState, h: Stream, m: Metadata, settlement: Settlement,
                         outcome: Outcome, code: Option<string>)
    requires Sane(s) && (s.failed.None? ==> Shape(s))
    ensures Sane(TurnTerminal(p, s, h, m, settlement, outcome, code).0)
  {
    hide Admit, MaybeFinish, CloseTurn;
    if s.failed.Some? || MetadataFault(p, m).Some? {
    } else if s.settlement == Some(NotSubmitted) && settlement.NotSubmitted? {
      MaybeFinishSane(p, s, h);
    } else if TerminalGuard(p, s, m, settlement, outcome, code).Some? {
    } else if settlement.NotSubmitted? {
      MaybeFinishSane(p, SettleUnsubmitted(s), h);
    } else {
      CloseTurnSane(s, h, settlement, Terminal(outcome, code));
      var c := CloseTurn(s, h, settlement, Terminal(outcome, code));
      MaybeFinishSane(p, c.0, c.1);
    }
  }
}
