/** What each hook of an effect answers, for every record that is in order and every answer of the
    hub: which hooks are legal when, what a legal one offers, and what it leaves behind. */
module EffectAnswers {
  import opened Events
  import opened Hub
  import opened Offers
  import opened Effect
  import opened EffectProofs

  /** A legal hook: the effect stays healthy, with this record, exactly if all candidates are taken. */
  ghost predicate Ran(h: Stream, cs: seq<Candidate>, done: EffectState, r: (EffectState, Stream)) {
    && r.1 == Offer(h, cs).0
    && if Offer(h, cs).1 then r.0 == done else r.0.failed == Some(EffectAdmissionFailed) && r.0.finishAttempted
  }

  /** An illegal hook: nothing is offered, and the effect fails for this reason. */
  ghost predicate Stopped(h: Stream, code: EffectCode, r: (EffectState, Stream)) {
    r.1 == h && r.0.failed == Some(EffectStateFailed(code)) && r.0.finishAttempted
  }

  /** The one finish of an effect. */
  ghost predicate Ended(p: Producer, s: EffectState, h: Stream, outcome: Outcome, code: string, cause: nat, relation: Relation,
                        r: (EffectState, Stream))
  {
    Ran(h, [Finish(p.scope, p.span, Terminal(outcome, Some(code)), Caused(cause, relation))], s.(finishAttempted := true), r)
  }

  /** A returned effect of a completed cue: consumed if the caller says so, abandoned if it says that
      or the effect was dropped, and otherwise waiting. */
  ghost predicate Settled(p: Producer, s: EffectState, h: Stream, r: (EffectState, Stream)) {
    && s.returned.Some?
    && if s.callerOutcome == Some(Consumed) then
         Ran(h, [Note(p.scope, EffectConsumed, p.span, Caused(s.returned.value, Handoff)),
                 Finish(p.scope, p.span, Terminal(Completed, None), Caused(|h.log| + 1, FollowsFrom))],
             s.(finishAttempted := true), r)
       else if s.callerOutcome == Some(Abandoned) || s.cleared then
         Ended(p, s, h, Cancelled, "effect-consumer-abandoned", s.returned.value, Handoff, r)
       else r == (s, h)
  }

  ghost predicate CreatedAnswer(p: Producer, s: EffectState, h: Stream, r: (EffectState, Stream)) {
    if s.created.Some? || s.constructionFinished then Stopped(h, CreatedTransitionInvalid, r)
    else Ran(h, [Note(p.scope, EffectCreated, p.span, Caused(p.span, FollowsFrom))], s.(created := Some(|h.log| + 1)), r)
  }

  /** A construction ends once; one that raised ends the effect, cancelled exactly if it was cancelled. */
  ghost predicate BuiltAnswer(p: Producer, s: EffectState, h: Stream, error: Option<BuildError>, r: (EffectState, Stream)) {
    var built := s.(constructionFinished := true, raised := error);
    if s.constructionFinished then Stopped(h, ConstructionTransitionInvalid, r)
    else if error.None? then if s.created.None? then Stopped(h, FinishedWithoutCreate, r) else r == (built, h)
    else
      var cause := if s.created.Some? then s.created.value else p.span;
      if error.value.BuildCancelled?
      then Ended(p, built, h, Cancelled, "effect-construction-cancelled", cause, FollowsFrom, r)
      else Ended(p, built, h, Failed, "effect-construction-failed", cause, FollowsFrom, r)
  }

  ghost predicate ReturnedAnswer(p: Producer, s: EffectState, h: Stream, r: (EffectState, Stream)) {
    if s.returned.Some? then r == (s, h)
    else if s.created.None? then Stopped(h, ReturnedWithoutCreate, r)
    else if !s.constructionFinished then Stopped(h, ReturnedTransitionInvalid, r)
    else Ran(h, [Note(p.scope, EffectReturned, p.span, Caused(s.created.value, Return))], s.(returned := Some(|h.log| + 1)), r)
  }

  /** The end of the cue ends the effect, unless it is a returned one of a completed cue. */
  ghost predicate OwnerAnswer(p: Producer, s: EffectState, h: Stream, outcome: CueOutcome, source: nat, r: (EffectState, Stream)) {
    var told := s.(ownerTerminal := Some(outcome));
    if s.ownerTerminal.Some? then Stopped(h, OwnerTransitionInvalid, r)
    else
      match outcome
      case CueCancelled => Ended(p, told, h, Cancelled, "effect-owner-cancelled", source, Handoff, r)
      case CueFailed => Ended(p, told, h, Failed, "effect-owner-failed", source, Return, r)
      case CueCleanupFailed => Ended(p, told, h, Failed, "effect-owner-cleanup-failed", source, Handoff, r)
      case CueCompleted =>
        if s.returned.None? then Ended(p, told, h, Failed, "effect-not-returned", source, Return, r) else Settled(p, told, h, r)
  }

  ghost predicate CallerAnswer(p: Producer, s: EffectState, h: Stream, outcome: CallerOutcome, r: (EffectState, Stream)) {
    var heard := s.(callerOutcome := Some(outcome));
    if s.callerOutcome.Some? then r == (s, h)
    else if s.ownerTerminal.Some? then Settled(p, heard, h, r)
    else r == (heard, h)
  }

  ghost predicate ClearedAnswer(p: Producer, s: EffectState, h: Stream, r: (EffectState, Stream)) {
    var dropped := s.(cleared := true);
    if s.cleared then r == (s, h) else if s.ownerTerminal.Some? then Settled(p, dropped, h, r) else r == (dropped, h)
  }

  /** An effect that is over hears nothing more. */
  ghost predicate Answer(p: Producer, s: EffectState, h: Stream, op: Op, r: (EffectState, Stream)) {
    if s.failed.Some? || s.finishAttempted then r == (s, h)
    else
      match op
      case OpCreated => CreatedAnswer(p, s, h, r)
      case OpConstructionFinished(error) => BuiltAnswer(p, s, h, error, r)
      case OpReturned => ReturnedAnswer(p, s, h, r)
      case OpOwnerTerminal(outcome, source) => OwnerAnswer(p, s, h, outcome, source, r)
      case OpCallerFinished(outcome) => CallerAnswer(p, s, h, outcome, r)
      case OpCleared => ClearedAnswer(p, s, h, r)
  }

  lemma FinishEnds(p: Producer, s: EffectState, h: Stream, t: Terminal, cause: nat, relation: Relation)
    requires s.failed.None? && !s.finishAttempted
    ensures Ran(h, [Finish(p.scope, p.span, t, Caused(cause, relation))], s.(finishAttempted := true), EffectFinish(p, s, h, t, cause, relation))
  {
    hide Admit, Offer;
    OfferOne(h, Finish(p.scope, p.span, t, Caused(cause, relation)));
  }

  lemma ConsumeEnds(p: Producer, s: EffectState, h: Stream)
    requires s.failed.None? && !s.finishAttempted && s.returned.Some?
    ensures Ran(h, [Note(p.scope, EffectConsumed, p.span, Caused(s.returned.value, Handoff)),
                    Finish(p.scope, p.span, COMPLETED, Caused(|h.log| + 1, FollowsFrom))],
                s.(finishAttempted := true), ConsumeAndFinish(p, s, h))
  {
    hide Admit, Offer;
    var c1, c2 := Note(p.scope, EffectConsumed, p.span, Caused(s.returned.value, Handoff)),
                  Finish(p.scope, p.span, COMPLETED, Caused(|h.log| + 1, FollowsFrom));
    OfferTwo(h, c1, c2);
    var a := Admit(h, c1);
    if a.sequence.Some? { OfferOne(a.stream, c2); }
  }

  lemma NotesAnswered(p: Producer, s: EffectState, h: Stream)
    requires s.failed.None? && !s.finishAttempted && Shape(s)
    ensures CreatedAnswer(p, s, h, Created(p, s, h)) && ReturnedAnswer(p, s, h, Returned(p, s, h))
  {
    hide Admit, Offer;
    OfferOne(h, Note(p.scope, EffectCreated, p.span, Caused(p.span, FollowsFrom)));
    if s.created.Some? { OfferOne(h, Note(p.scope, EffectReturned, p.span, Caused(s.created.value, Return))); }
  }

  lemma BuiltAnswered(p: Producer, s: EffectState, h: Stream, error: Option<BuildError>)
    requires s.failed.None? && !s.finishAttempted
    ensures BuiltAnswer(p, s, h, error, ConstructionFinished(p, s, h, error))
  {
    hide EffectFinish, Ran;
    if error.Some? {
      FinishEnds(p, s.(constructionFinished := true, raised := error), h,
                 if error.value.BuildCancelled? then CONSTRUCTION_CANCELLED else CONSTRUCTION_FAILED,
                 if s.created.Some? then s.created.value else p.span, FollowsFrom);
    }
  }

  lemma OwnerAnswered(p: Producer, s: EffectState, h: Stream, outcome: CueOutcome, source: nat)
    requires s.failed.None? && !s.finishAttempted && Shape(s)
    ensures OwnerAnswer(p, s, h, outcome, source, OwnerTerminal(p, s, h, outcome, source))
  {
    hide EffectFinish, ConsumeAndFinish, Ran;
    var told := s.(ownerTerminal := Some(outcome));
    FinishEnds(p, told, h, OWNER_CANCELLED, source, Handoff);
    FinishEnds(p, told, h, OWNER_FAILED, source, Return);
    FinishEnds(p, told, h, OWNER_CLEANUP_FAILED, source, Handoff);
    FinishEnds(p, told, h, NOT_RETURNED, source, Return);
    if s.returned.Some? {
      ConsumeEnds(p, told, h);
      FinishEnds(p, told, h, CONSUMER_ABANDONED, s.returned.value, Handoff);
    }
  }

  lemma WaitersAnswered(p: Producer, s: EffectState, h: Stream, caller: CallerOutcome)
    requires s.failed.None? && !s.finishAttempted && Shape(s)
    ensures CallerAnswer(p, s, h, caller, CallerFinished(p, s, h, caller)) && ClearedAnswer(p, s, h, Cleared(p, s, h))
  {
    hide EffectFinish, ConsumeAndFinish, Ran;
    var heard, dropped := s.(callerOutcome := Some(caller)), s.(cleared := true);
    if s.returned.Some? {
      ConsumeEnds(p, heard, h);
      FinishEnds(p, heard, h, CONSUMER_ABANDONED, s.returned.value, Handoff);
      FinishEnds(p, dropped, h, CONSUMER_ABANDONED, s.returned.value, Handoff);
    }
  }

  /** Every hook of every effect, whatever the hub answers. */
  lemma HooksAnswer(p: Producer, s: EffectState, h: Stream, op: Op)
    requires Inv(p, s, h)
    ensures Answer(p, s, h, op, Apply(p, s, h, op))
  {
    hide Placed, Logged, Sequenced, CreatedAnswer, BuiltAnswer, ReturnedAnswer, OwnerAnswer, CallerAnswer, ClearedAnswer;
    if s.failed.None? && !s.finishAttempted {
      hide Created, ConstructionFinished, Returned, OwnerTerminal, CallerFinished, Cleared;
      match op
      case OpConstructionFinished(error) => BuiltAnswered(p, s, h, error);
      case OpOwnerTerminal(outcome, source) => OwnerAnswered(p, s, h, outcome, source);
      case OpCallerFinished(caller) => WaitersAnswered(p, s, h, caller);
      case OpCleared => WaitersAnswered(p, s, h, Consumed);
      case _ => NotesAnswered(p, s, h);
    }
  }

  /** The finish of an effect whose construction raised: cancelled exactly if that was a cancellation,
      failed otherwise, with the code that goes with it, and nothing else is added to the log. */
  lemma RaisedOnLog(p: Producer, s: EffectState, h: Stream, error: BuildError)
    requires Inv(p, s, h) && s.failed.None? && !s.finishAttempted && !s.constructionFinished
    ensures var r := ConstructionFinished(p, s, h, Some(error));
            r.0.failed.None? ==>
              && |r.1.log| == |h.log| + 1 && h.log <= r.1.log
              && var e := r.1.log[|h.log|];
                 && e.body.SpanFinished? && e.body.span == p.span && e.scope == p.scope
                 && (e.body.terminal.outcome.Cancelled? <==> error.BuildCancelled?)
                 && (e.body.terminal.outcome.Failed? <==> error.BuildFailed?)
                 && e.body.terminal.code ==
                    Some(if error.BuildCancelled? then "effect-construction-cancelled" else "effect-construction-failed")
  {
    hide Placed, Logged, Sequenced, ConstructionFinished, Offer;
    BuiltAnswered(p, s, h, Some(error));
    var cause := if s.created.Some? then s.created.value else p.span;
    var c := Finish(p.scope, p.span, if error.BuildCancelled? then CONSTRUCTION_CANCELLED else CONSTRUCTION_FAILED, Caused(cause, FollowsFrom));
    OfferOne(h, c);
    AdmitLog(h, c);
    hide Admit;
  }
}
