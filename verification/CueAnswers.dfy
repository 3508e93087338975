/** What each hook of a cue answers, for every record that is in order and every answer of the hub:
    which hooks are legal when, what a legal one offers, and what it leaves behind. */
module CueAnswers {
  import opened Events
  import opened Hub
  import opened Offers
  import opened Effect
  import opened Cue

  /** A legal hook: the cue stays healthy, with this record, exactly if all candidates are taken. */
  ghost predicate Ran(h: Stream, cs: seq<Candidate>, done: CueState, r: (CueState, Stream)) {
    && r.1 == Offer(h, cs).0
    && if Offer(h, cs).1 then r.0 == done else r.0.failed == Some(CueAdmissionFailed)
  }

  /** An illegal hook: nothing is offered, and the cue fails for this reason. */
  ghost predicate Stopped(h: Stream, code: CueCode, r: (CueState, Stream)) {
    r.1 == h && r.0.failed == Some(CueStateFailed(code))
  }

  ghost predicate AdmitAnswer(p: CueProducer, h: Stream, r: (CueState, Stream)) {
    Ran(h, [Note(p.scope, CueAdmitted, p.scene, []), Sample(p.scope, CueActive, 1, Caused(|h.log| + 1, FollowsFrom))],
        FRESH.(phase := Admitted(|h.log| + 1)), r)
  }

  /** An admitted cue is enqueued on a running actor; the depth counts the running cue, and one that
      cannot be counted fails after the wait has begun. */
  ghost predicate EnqueueAnswer(p: CueProducer, s: CueState, h: Stream, queued: nat, running: bool, r: (CueState, Stream)) {
    if s.failed.Some? then r == (s, h)
    else if !s.phase.Admitted? then Stopped(h, EnqueueTransitionInvalid, r)
    else if !running then Stopped(h, RunningSnapshotInvalid, r)
    else
      var n := |h.log|;
      var wait := [Note(p.scope, CueEnqueued, p.scene, Caused(s.phase.sequence, FollowsFrom)),
                   Start(p.scope, CueMailboxWait, Some(p.scene), Caused(n + 1, FollowsFrom))];
      if queued + 1 > MAX_U64 then
        && r.1 == Offer(h, wait).0
        && r.0.failed == Some(if Offer(h, wait).1 then CueStateFailed(DepthOverflow) else CueAdmissionFailed)
      else
        Ran(h, [wait[0], wait[1], Sample(p.actorScope, ActorMailboxDepth, queued + 1, Caused(n + 1, FollowsFrom))],
            s.(phase := Enqueued(n + 1, n + 2)), r)
  }

  /** An enqueued cue is dispatched: the wait completes and the execution begins. */
  ghost predicate DispatchAnswer(p: CueProducer, s: CueState, h: Stream, r: (CueState, Stream)) {
    if s.failed.Some? then r == (s, h)
    else if !s.phase.Enqueued? then Stopped(h, DispatchTransitionInvalid, r)
    else
      var n := |h.log|;
      Ran(h, [Note(p.scope, CueDispatched, s.phase.waitSpan, Caused(s.phase.sequence, Dispatch)),
              Finish(p.scope, s.phase.waitSpan, Terminal(Completed, None), Caused(n + 1, Dispatch)),
              Start(p.scope, CueExecution, Some(p.scene), Caused(n + 1, Dispatch))],
          s.(phase := Dispatched(n + 3)), r)
  }

  /** A cancel is requested once, of a cue that is admitted, enqueued or dispatched, and placed there. */
  ghost predicate CancelAnswer(p: CueProducer, s: CueState, h: Stream, r: (CueState, Stream)) {
    var done := s.(cancel := Some(|h.log| + 1));
    if s.failed.Some? then r == (s, h)
    else if s.cancel.Some? then Stopped(h, CancelTransitionInvalid, r)
    else
      match s.phase
      case Admitted(sequence) =>
        Ran(h, [Note(p.scope, CueCancelRequested, p.scene, Caused(sequence, Handoff))], done, r)
      case Enqueued(sequence, wait) =>
        Ran(h, [Note(p.scope, CueCancelRequested, wait, Caused(sequence, Handoff))], done, r)
      case Dispatched(execution) =>
        Ran(h, [Note(p.scope, CueCancelRequested, execution, Caused(execution, Handoff))], done, r)
      case _ => Stopped(h, CancelTransitionInvalid, r)
  }

  /** The caller of a cue leaves once. */
  predicate CallerAnswer(s: CueState, s': CueState) {
    if s.callerFinished then s'.failed.Some? && (s.failed.None? ==> s'.failed == Some(CueStateFailed(CallerTransitionInvalid)))
    else s' == s.(callerFinished := true)
  }

  /** Whether a terminal hook may end the cue: it is live, an end other than completion has an error,
      and only a dispatched cue completes; without an error, and after a failure, it is over anyway. */
  predicate PlanAnswer(s: CueState, outcome: CueOutcome, hasError: bool, plan: Plan) {
    if s.failed.Some? then plan == Stop(s.(phase := Ended(None)))
    else if !outcome.CueCompleted? && !hasError then
      plan == Stop(s.(phase := Ended(None), failed := Some(CueStateFailed(TerminalErrorUnavailable))))
    else if s.phase.Starting? || s.phase.Ended? then plan == Stop(s.(failed := Some(CueStateFailed(TerminalTransitionInvalid))))
    else if outcome.CueCompleted? && !s.phase.Dispatched? then plan == Stop(s.(failed := Some(CueStateFailed(CompletedBeforeDispatch))))
    else plan.Proceed? && plan.span == OpenSpan(s.phase) && plan.cause == EndSource(s) && plan.relation.Handoff? == s.cancel.Some?
                       && plan.relation in {Handoff, Return}
  }

  /** What the end of a live cue comes from: its cancel request, else its execution, else the last
      step that brought it where it is. */
  function EndSource(s: CueState): nat {
    if s.cancel.Some? then s.cancel.value
    else
      match s.phase
      case Admitted(sequence) => sequence
      case Enqueued(sequence, _) => sequence
      case Dispatched(execution) => execution
      case _ => 0
  }

  /** The terminal of the span a cue holds open, for each of the four ways to end. */
  function EndTerminal(outcome: CueOutcome, dispatched: bool): Terminal {
    match outcome
    case CueCompleted => Terminal(Completed, None)
    case CueCancelled => Terminal(Cancelled, Some("cue-cancelled"))
    case CueCleanupFailed => Terminal(Failed, Some("cue-cleanup-failed"))
    case CueFailed => Terminal(Failed, Some(if dispatched then "cue-execution-failed" else "cue-dispatch-failed"))
  }

  ghost predicate CloseAnswer(p: CueProducer, s: CueState, h: Stream, outcome: CueOutcome, r: (CueState, Stream)) {
    var n, source, relation := |h.log|, EndSource(s), if s.cancel.Some? then Handoff else Return;
    if OpenSpan(s.phase).None? then
      Ran(h, [Sample(p.scope, CueActive, 0, Caused(source, FollowsFrom))],
          s.(phase := Ended(Some(n + 1)), outcome := Some(outcome)), r)
    else
      Ran(h, [Finish(p.scope, OpenSpan(s.phase).value, EndTerminal(outcome, s.phase.Dispatched?), Caused(source, relation)),
              Sample(p.scope, CueActive, 0, Caused(n + 1, FollowsFrom))],
          s.(phase := Ended(Some(n + 2)), outcome := Some(outcome)), r)
  }

  /** An ended cue is retired with a last look at the mailbox. */
  ghost predicate RetireAnswer(p: CueProducer, s: CueState, h: Stream, queued: nat, running: bool, r: (CueState, Stream)) {
    var depth := queued + if running then 1 else 0;
    if s.failed.Some? then r == (s, h)
    else if !s.phase.Ended? then Stopped(h, RetireTransitionInvalid, r)
    else if depth > MAX_U64 then Stopped(h, DepthOverflow, r)
    else
      Ran(h, [Sample(p.actorScope, ActorMailboxDepth, depth,
                     if s.phase.terminal.Some? then Caused(s.phase.terminal.value, FollowsFrom) else [])], s, r)
  }

  // ----- The hooks answer so -----

  lemma AdmitAnswered(p: CueProducer, h: Stream)
    ensures AdmitAnswer(p, h, AdmitCue(p, FRESH, h))
  {
    hide Admit, Offer;
    var c1, c2 := Note(p.scope, CueAdmitted, p.scene, []), Sample(p.scope, CueActive, 1, Caused(|h.log| + 1, FollowsFrom));
    OfferTwo(h, c1, c2);
    var a := Admit(h, c1);
    if a.sequence.Some? { OfferOne(a.stream, c2); }
  }

  lemma EnqueueAnswered(p: CueProducer, s: CueState, h: Stream, queued: nat, running: bool)
    ensures EnqueueAnswer(p, s, h, queued, running, EnqueueCue(p, s, h, queued, running))
  {
    hide Admit, Offer;
    if s.failed.None? && s.phase.Admitted? && running {
      var n := |h.log|;
      var c1, c2 := Note(p.scope, CueEnqueued, p.scene, Caused(s.phase.sequence, FollowsFrom)),
                    Start(p.scope, CueMailboxWait, Some(p.scene), Caused(n + 1, FollowsFrom));
      var c3 := Sample(p.actorScope, ActorMailboxDepth, queued + 1, Caused(n + 1, FollowsFrom));
      OfferThree(h, c1, c2, c3);
      OfferTwo(h, c1, c2);
      var a := Admit(h, c1);
      if a.sequence.Some? {
        OfferTwo(a.stream, c2, c3);
        OfferOne(a.stream, c2);
        var b := Admit(a.stream, c2);
        if b.sequence.Some? { OfferOne(b.stream, c3); }
      }
    }
  }

  lemma DispatchAnswered(p: CueProducer, s: CueState, h: Stream)
    ensures DispatchAnswer(p, s, h, DispatchCue(p, s, h))
  {
    hide Admit, Offer;
    if s.failed.None? && s.phase.Enqueued? {
      var n := |h.log|;
      var c1, c2 := Note(p.scope, CueDispatched, s.phase.waitSpan, Caused(s.phase.sequence, Dispatch)),
                    Finish(p.scope, s.phase.waitSpan, Terminal(Completed, None), Caused(n + 1, Dispatch));
      var c3 := Start(p.scope, CueExecution, Some(p.scene), Caused(n + 1, Dispatch));
      OfferThree(h, c1, c2, c3);
      var a := Admit(h, c1);
      if a.sequence.Some? {
        OfferTwo(a.stream, c2, c3);
        var b := Admit(a.stream, c2);
        if b.sequence.Some? { OfferOne(b.stream, c3); }
      }
    }
  }

  lemma CancelAnswered(p: CueProducer, s: CueState, h: Stream)
    ensures CancelAnswer(p, s, h, CancelCue(p, s, h))
  {
    hide Admit, Offer;
    if CancelPlace(p, s.phase).Some? {
      var (source, span) := CancelPlace(p, s.phase).value;
      OfferOne(h, Note(p.scope, CueCancelRequested, span, Caused(source, Handoff)));
    }
  }

  lemma CallerAnswered(s: CueState)
    ensures CallerAnswer(s, FinishCueCaller(s))
  {
  }

  lemma PlanAnswered(s: CueState, outcome: CueOutcome, hasError: bool)
    ensures PlanAnswer(s, outcome, hasError, PlanTerminal(s, outcome, hasError))
  {
  }

  lemma CloseAnswered(p: CueProducer, s: CueState, h: Stream, outcome: CueOutcome, hasError: bool)
    requires s.failed.None? && PlanTerminal(s, outcome, hasError).Proceed?
    ensures CloseAnswer(p, s, h, outcome, CloseCue(p, s, h, outcome, PlanTerminal(s, outcome, hasError)))
  {
    hide Admit, Offer;
    var plan, source := PlanTerminal(s, outcome, hasError), EndSource(s);
    if plan.span.None? {
      OfferOne(h, Sample(p.scope, CueActive, 0, Caused(source, FollowsFrom)));
    } else {
      var c1 := Finish(p.scope, plan.span.value, CueTerminalOf(outcome, s.phase), Caused(source, plan.relation));
      var c2 := Sample(p.scope, CueActive, 0, Caused(|h.log| + 1, FollowsFrom));
      OfferTwo(h, c1, c2);
      var a := Admit(h, c1);
      if a.sequence.Some? { OfferOne(a.stream, c2); }
    }
  }

  lemma RetireAnswered(p: CueProducer, s: CueState, h: Stream, queued: nat, running: bool)
    ensures RetireAnswer(p, s, h, queued, running, RetireCue(p, s, h, queued, running))
  {
    hide Admit, Offer;
    if s.failed.None? && s.phase.Ended? && MailboxDepth(queued, running).Some? {
      var causes := if s.phase.terminal.Some? then Caused(s.phase.terminal.value, FollowsFrom) else [];
      OfferOne(h, Sample(p.actorScope, ActorMailboxDepth, MailboxDepth(queued, running).value, causes));
    }
  }
}
