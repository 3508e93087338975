/** The cue producer as an object: between hooks its record, its spans and the log agree, and its
    terminal hook tells the effects before it closes its span. */
module CueObject {
  import opened Events
  import opened Hub
  import opened HubObject
  import opened Effect
  import opened EffectObject
  import opened Cue
  import CA = CueAnswers
  import CP = CueProofs
  import CV = CueView
  import EP = EffectProofs
  import S = Stage

  /** What a caller can rely on between hooks: exactly the span of the phase is open, and the last
      active sample is 1 until the cue has ended. */
  ghost predicate Shows(p: CueProducer, s: CueState, h: Stream) {
    s.failed.None? ==>
      && (forall x :: x in h.index.spans && RecordOwner(h.index.spans[x]) == CueOwner(p.id) ==>
            (h.index.spans[x].finishedAt.None? <==> OpenSpan(s.phase) == Some(x)))
      && (OpenSpan(s.phase).Some? ==> IsOpen(h, OpenSpan(s.phase).value))
      && LastSample(h.log, CueActive, CueOwner(p.id)) == CP.ActiveSample(s.phase)
  }

  lemma KeptShows(p: CueProducer, h: Stream, r: (CueState, Stream), closing: set<nat>)
    requires CP.Kept(p, h, r, closing) && CV.Viewed(p, r.0, r.1.log)
    ensures CV.CueInv(p, r.0, r.1) && Shows(p, r.0, r.1) && Grows(h, r.1, CueOwner(p.id))
  {
    hide Grows, Continues, Sequenced, CV.Viewed, LastSample, CP.SceneOpen;
  }

  lemma AdmittedMeans(p: CueProducer, h: Stream)
    requires CP.Inv(p, FRESH, h) && CV.ViewOn(h.log, CueOwner(p.id)) == CV.UNSEEN
    ensures var r := AdmitCue(p, FRESH, h);
            && CV.CueInv(p, r.0, r.1) && Shows(p, r.0, r.1) && Grows(h, r.1, CueOwner(p.id))
            && (r.0.failed.None? ==> r.0.phase.Admitted?)
  {
    CP.AdmittedKept(p, h);
    CV.AdmittedViewed(p, h) by { hide CP.Holds, CP.SceneOpen; }
    hide CP.Inv, CV.Viewed, CP.Kept, CV.CueInv, Shows;
    KeptShows(p, h, AdmitCue(p, FRESH, h), {});
    hide Admit, Grows;
  }

  lemma ActorApart(p: CueProducer, s: CueState, h: Stream)
    requires CP.Inv(p, s, h)
    ensures CP.ProducerOk(p) && ScopeOwner(p.actorScope) != CueOwner(p.id)
  {
    hide CP.Holds, CP.SceneOpen, Sequenced;
  }

  lemma EnqueuedMeans(p: CueProducer, s: CueState, h: Stream, queued: nat, running: bool)
    requires CV.CueInv(p, s, h)
    ensures var r := EnqueueCue(p, s, h, queued, running);
            && CV.CueInv(p, r.0, r.1) && Shows(p, r.0, r.1) && Grows(h, r.1, CueOwner(p.id))
            && (r.0.failed.None? ==> s.phase.Admitted? && r.0.phase.Enqueued?)
  {
    hide CP.Inv, CV.Viewed, CP.Kept, Shows, EnqueueCue, Grows;
    ActorApart(p, s, h);
    CP.EnqueuedKept(p, s, h, queued, running);
    CV.EnqueuedViewed(p, s, h, queued, running);
    KeptShows(p, h, EnqueueCue(p, s, h, queued, running), {});
    EnqueuedPhase(p, s, h, queued, running);
  }

  lemma EnqueuedPhase(p: CueProducer, s: CueState, h: Stream, queued: nat, running: bool)
    ensures EnqueueCue(p, s, h, queued, running).0.failed.None? ==>
              s.phase.Admitted? && EnqueueCue(p, s, h, queued, running).0.phase.Enqueued?
    ensures DispatchCue(p, s, h).0.failed.None? ==> s.phase.Enqueued? && DispatchCue(p, s, h).0.phase.Dispatched?
  {
    hide Admit;
  }

  lemma DispatchedMeans(p: CueProducer, s: CueState, h: Stream)
    requires CV.CueInv(p, s, h)
    ensures var r := DispatchCue(p, s, h);
            && CV.CueInv(p, r.0, r.1) && Shows(p, r.0, r.1) && Grows(h, r.1, CueOwner(p.id))
            && (r.0.failed.None? ==> s.phase.Enqueued? && r.0.phase.Dispatched?)
  {
    hide CP.Inv, CV.Viewed, CP.Kept, Shows, DispatchCue, Grows;
    ActorApart(p, s, h);
    CP.DispatchedKept(p, s, h);
    CV.DispatchedViewed(p, s, h);
    KeptShows(p, h, DispatchCue(p, s, h), CP.DispatchCloses(s));
    EnqueuedPhase(p, s, h, 0, true);
  }

  lemma CancelMeans(p: CueProducer, s: CueState, h: Stream)
    requires CV.CueInv(p, s, h)
    ensures var r := CancelCue(p, s, h);
            && CV.CueInv(p, r.0, r.1) && Shows(p, r.0, r.1) && Grows(h, r.1, CueOwner(p.id))
            && (r.0.failed.None? ==> s.cancel.None? && r.0 == s.(cancel := Some(|r.1.log|)))
  {
    ActorApart(p, s, h);
    CP.CancelRequestedKept(p, s, h);
    CV.CancelViewed(p, s, h);
    hide CP.Inv, CV.Viewed, CP.Kept, CV.CueInv, Shows;
    KeptShows(p, h, CancelCue(p, s, h), {});
    CancelLast(p, s, h);
    hide CancelCue, Grows;
  }

  lemma CancelLast(p: CueProducer, s: CueState, h: Stream)
    ensures var r := CancelCue(p, s, h);
            r.0.failed.None? ==> s.cancel.None? && r.0 == s.(cancel := Some(|r.1.log|))
  {
    if CancelPlace(p, s.phase).Some? {
      var (source, span) := CancelPlace(p, s.phase).value;
      AdmitCases(h, Note(p.scope, CueCancelRequested, span, Caused(source, Handoff)));
    }
    hide Admit;
  }

  lemma RetiredMeans(p: CueProducer, s: CueState, h: Stream, queued: nat, running: bool)
    requires CV.CueInv(p, s, h)
    ensures var r := RetireCue(p, s, h, queued, running);
            && CV.CueInv(p, r.0, r.1) && Shows(p, r.0, r.1) && Grows(h, r.1, CueOwner(p.id))
            && (r.0.failed.None? ==> r.0 == s && s.phase.Ended?)
  {
    ActorApart(p, s, h);
    CP.RetiredKept(p, s, h, queued, running);
    CV.RetiredViewed(p, s, h, queued, running);
    hide CP.Inv, CV.Viewed, CP.Kept, CV.CueInv, Shows;
    KeptShows(p, h, RetireCue(p, s, h, queued, running), {});
    hide Admit, Grows;
  }

  /** Closing leaves nothing of the cue open. */
  lemma CloseMeans(p: CueProducer, s: CueState, h: Stream, outcome: CueOutcome, hasError: bool)
    requires CV.CueInv(p, s, h) && PlanTerminal(s, outcome, hasError).Proceed?
    ensures var r := CloseCue(p, s, h, outcome, PlanTerminal(s, outcome, hasError));
            && CV.CueInv(p, r.0, r.1) && Shows(p, r.0, r.1) && Grows(h, r.1, CueOwner(p.id)) && Sequenced(r.1)
            && (r.0.failed.None? ==> r.0.phase.Ended? && LastSample(r.1.log, CueActive, CueOwner(p.id)) == Some(0))
  {
    assert s.failed.None?;
    var plan := PlanTerminal(s, outcome, hasError);
    hide CP.Inv, CV.Viewed, CP.Kept, Shows, PlanTerminal, CloseCue, Grows;
    ActorApart(p, s, h);
    CP.CloseCueKept(p, s, h, outcome, hasError);
    CV.CloseViewed(p, s, h, outcome, hasError);
    KeptShows(p, h, CloseCue(p, s, h, outcome, plan), CP.OpenSpans(s.phase));
    ClosedPhase(p, s, h, outcome, plan);
    EndedShows(p, CloseCue(p, s, h, outcome, plan).0, CloseCue(p, s, h, outcome, plan).1);
  }

  lemma EndedShows(p: CueProducer, s: CueState, h: Stream)
    requires CP.Inv(p, s, h)
    ensures Sequenced(h)
    ensures s.failed.None? && s.phase.Ended? ==> LastSample(h.log, CueActive, CueOwner(p.id)) == Some(0)
  {
    hide Sequenced, CP.Holds, LastSample;
  }

  lemma ClosedPhase(p: CueProducer, s: CueState, h: Stream, outcome: CueOutcome, plan: Plan)
    requires plan.Proceed?
    ensures CloseCue(p, s, h, outcome, plan).0.failed.None? ==> CloseCue(p, s, h, outcome, plan).0.phase.Ended?
  {
    hide Admit;
  }

  lemma TerminalCause(p: CueProducer, s: CueState, h: Stream, outcome: CueOutcome, hasError: bool)
    requires CV.CueInv(p, s, h)
    ensures var plan := PlanTerminal(s, outcome, hasError);
            && (plan.Proceed? ==> Known(h, plan.cause) && s.failed.None?)
            && (plan.Stop? ==> CV.CueInv(p, plan.state, h) && Shows(p, plan.state, h) && plan.state.failed.Some?)
  {
    var plan := PlanTerminal(s, outcome, hasError);
    hide CP.Holds, CP.SceneOpen, CP.Sampled, Sequenced, CV.Viewed, LastSample;
    if plan.Proceed? {
      CP.PlanKnown(p, s, h, outcome, hasError);
    } else {
      assert plan.state.failed.Some?;
      StoppedViewed(p, plan.state, h);
    }
  }

  lemma StoppedViewed(p: CueProducer, s: CueState, h: Stream)
    requires s.failed.Some?
    ensures CV.Viewed(p, s, h.log)
  {
  }

  lemma Spared(p: CueProducer, s: CueState, h: Stream, h': Stream)
    requires CV.CueInv(p, s, h) && CV.SparesCues(h, h')
    ensures CV.CueInv(p, s, h')
  {
    hide CV.CueInv;
  }

  lemma EffectSpared(p: Producer, s: EffectState, h: Stream, h': Stream, cue: nat)
    requires EffectInv(p, s, h) && Grows(h, h', CueOwner(cue)) && Sequenced(h')
    ensures EffectInv(p, s, h')
  {
    hide Grows, Sequenced;
    EP.StepElsewhere(p, s, h, h', CueOwner(cue));
  }

  class CueLifecycleProducer {
    const producer: CueProducer
    const hub: DiagnosticHub
    var state: CueState

    ghost function Now(): (CueState, Stream)
      reads this, hub, hub.validator
    {
      (state, hub.Contents())
    }

    constructor (producer: CueProducer, hub: DiagnosticHub)
      ensures this.producer == producer && this.hub == hub && state == FRESH
    {
      this.producer, this.hub, state := producer, hub, FRESH;
    }

    method FailDiagnostic()
      modifies this`state
      ensures state == CueFailAdmission(old(state))
    {
      if state.failed.None? { state := state.(failed := Some(CueAdmissionFailed)); }
    }

    method FailTransition(code: CueCode)
      modifies this`state
      ensures state == CueFailState(old(state), code)
    {
      if state.failed.None? { state := state.(failed := Some(CueStateFailed(code))); }
    }

    method RecordAdmitted()
      requires hub.Valid()
      modifies this`state, hub, hub.validator
      ensures hub.Valid() && Now() == AdmitCue(producer, old(state), old(hub.Contents()))
    {
      hide Admit;
      if !state.phase.Starting? {
        FailTransition(AdmissionTransitionInvalid);
        return;
      }
      var admitted := hub.AdmitCandidate(Note(producer.scope, CueAdmitted, producer.scene, []));
      if admitted.None? {
        FailDiagnostic();
        return;
      }
      var active := hub.AdmitCandidate(
        Sample(producer.scope, CueActive, 1, Caused(admitted.value, FollowsFrom)));
      if active.None? {
        FailDiagnostic();
        return;
      }
      state := state.(phase := Admitted(admitted.value));
    }

    method RecordEnqueued(queued: nat, running: bool)
      requires hub.Valid()
      modifies this`state, hub, hub.validator
      ensures hub.Valid() && Now() == EnqueueCue(producer, old(state), old(hub.Contents()), queued, running)
    {
      hide Admit;
      if state.failed.Some? {
        return;
      }
      if !state.phase.Admitted? {
        FailTransition(EnqueueTransitionInvalid);
        return;
      }
      if !running {
        FailTransition(RunningSnapshotInvalid);
        return;
      }
      var enqueued := hub.AdmitCandidate(
        Note(producer.scope, CueEnqueued, producer.scene, Caused(state.phase.sequence, FollowsFrom)));
      if enqueued.None? {
        FailDiagnostic();
        return;
      }
      var wait := hub.AdmitCandidate(
        Start(producer.scope, CueMailboxWait, Some(producer.scene), Caused(enqueued.value, FollowsFrom)));
      if wait.None? {
        FailDiagnostic();
        return;
      }
      var depth := MailboxDepth(queued, running);
      if depth.None? {
        FailTransition(DepthOverflow);
        return;
      }
      var counted := hub.AdmitCandidate(
        Sample(producer.actorScope, ActorMailboxDepth, depth.value, Caused(enqueued.value, FollowsFrom)));
      if counted.None? {
        FailDiagnostic();
        return;
      }
      state := state.(phase := Enqueued(enqueued.value, wait.value));
    }

    method RecordDispatched()
      requires hub.Valid()
      modifies this`state, hub, hub.validator
      ensures hub.Valid() && Now() == DispatchCue(producer, old(state), old(hub.Contents()))
    {
      hide Admit;
      if state.failed.Some? {
        return;
      }
      if !state.phase.Enqueued? {
        FailTransition(DispatchTransitionInvalid);
        return;
      }
      var wait := state.phase.waitSpan;
      var dispatched := hub.AdmitCandidate(
        Note(producer.scope, CueDispatched, wait, Caused(state.phase.sequence, Dispatch)));
      if dispatched.None? {
        FailDiagnostic();
        return;
      }
      var finish := hub.AdmitCandidate(Finish(producer.scope, wait, COMPLETED, Caused(dispatched.value, Dispatch)));
      if finish.None? {
        FailDiagnostic();
        return;
      }
      var execution := hub.AdmitCandidate(
        Start(producer.scope, CueExecution, Some(producer.scene), Caused(dispatched.value, Dispatch)));
      if execution.None? {
        FailDiagnostic();
        return;
      }
      state := state.(phase := Dispatched(execution.value));
    }

    method RecordCancelRequested()
      requires hub.Valid()
      modifies this`state, hub, hub.validator
      ensures hub.Valid() && Now() == CancelCue(producer, old(state), old(hub.Contents()))
    {
      hide Admit;
      if state.failed.Some? {
        return;
      }
      var place := CancelPlace(producer, state.phase);
      if state.cancel.Some? || place.None? {
        FailTransition(CancelTransitionInvalid);
        return;
      }
      var (source, span) := place.value;
      var cancel := hub.AdmitCandidate(Note(producer.scope, CueCancelRequested, span, Caused(source, Handoff)));
      if cancel.None? {
        FailDiagnostic();
        return;
      }
      state := state.(cancel := cancel);
    }

    method ObserveCallerFinished()
      modifies this`state
      ensures state == FinishCueCaller(old(state))
    {
      if state.callerFinished {
        FailTransition(CallerTransitionInvalid);
        return;
      }
      state := state.(callerFinished := true);
    }

    method Close(outcome: CueOutcome, plan: Plan)
      requires hub.Valid() && plan.Proceed?
      modifies this`state, hub, hub.validator
      ensures hub.Valid() && Now() == CloseCue(producer, old(state), old(hub.Contents()), outcome, plan)
    {
      hide Admit;
      var sequence := Some(plan.cause);
      if plan.span.Some? {
        sequence := hub.AdmitCandidate(
          Finish(producer.scope, plan.span.value, CueTerminalOf(outcome, state.phase), Caused(plan.cause, plan.relation)));
        if sequence.None? {
          FailDiagnostic();
          return;
        }
      }
      var inactive := hub.AdmitCandidate(Sample(producer.scope, CueActive, 0, Caused(sequence.value, FollowsFrom)));
      if inactive.None? {
        FailDiagnostic();
        return;
      }
      state := state.(phase := Ended(inactive), outcome := Some(outcome));
    }

    method RecordRetired(queued: nat, running: bool)
      requires hub.Valid()
      modifies this`state, hub, hub.validator
      ensures hub.Valid() && Now() == RetireCue(producer, old(state), old(hub.Contents()), queued, running)
    {
      hide Admit;
      if !state.phase.Ended? {
        FailTransition(RetireTransitionInvalid);
        return;
      }
      if state.failed.Some? {
        return;
      }
      var depth := MailboxDepth(queued, running);
      if depth.None? {
        FailTransition(DepthOverflow);
        return;
      }
      var causes := if state.phase.terminal.Some? then Caused(state.phase.terminal.value, FollowsFrom) else [];
      var counted := hub.AdmitCandidate(Sample(producer.actorScope, ActorMailboxDepth, depth.value, causes));
      if counted.None? {
        FailDiagnostic();
      }
    }

    // ----- Hooks -----

    ghost predicate Valid()
      reads this, hub, hub.validator
    {
      hub.Valid() && CV.CueInv(producer, state, hub.Contents())
    }

    /** The stream grew by this cue's events alone, and the record shows on it. */
    ghost predicate Moved(h: Stream)
      reads this, hub, hub.validator
    {
      Grows(h, hub.Contents(), CueOwner(producer.id)) && Shows(producer, state, hub.Contents())
    }

    /** Admits a cue whose identifier is new into an open scene. */
    method ObserveAdmitted()
      requires hub.Valid() && state == FRESH && CP.Inv(producer, FRESH, hub.Contents())
      requires CV.ViewOn(hub.log, CueOwner(producer.id)) == CV.UNSEEN
      modifies this`state, hub, hub.validator
      ensures Valid() && Moved(old(hub.Contents())) && Now() == AdmitCue(producer, FRESH, old(hub.Contents()))
      ensures CA.AdmitAnswer(producer, old(hub.Contents()), Now())
      ensures state.failed.None? ==>
                state.phase.Admitted? && LastSample(hub.log, CueActive, CueOwner(producer.id)) == Some(1)
    {
      hide AdmitCue, CV.CueInv, Grows, CP.Inv, CV.ViewOn;
      AdmittedMeans(producer, hub.Contents());
      CA.AdmitAnswered(producer, hub.Contents());
      RecordAdmitted();
    }

    /** An admitted cue is enqueued once, and its wait span opens. */
    method ObserveEnqueued(queued: nat, running: bool)
      requires Valid()
      modifies this`state, hub, hub.validator
      ensures Valid() && Moved(old(hub.Contents())) && Now() == EnqueueCue(producer, old(state), old(hub.Contents()), queued, running)
      ensures CA.EnqueueAnswer(producer, old(state), old(hub.Contents()), queued, running, Now())
      ensures state.failed.None? ==>
                old(state).phase.Admitted? && state.phase.Enqueued? && IsOpen(hub.Contents(), state.phase.waitSpan)
    {
      hide EnqueueCue, CV.CueInv, Grows;
      EnqueuedMeans(producer, state, hub.Contents(), queued, running);
      CA.EnqueueAnswered(producer, state, hub.Contents(), queued, running);
      RecordEnqueued(queued, running);
    }

    /** Dispatching closes the wait span and opens the execution span, and nothing else is open. */
    method ObserveDispatched()
      requires Valid()
      modifies this`state, hub, hub.validator
      ensures Valid() && Moved(old(hub.Contents())) && Now() == DispatchCue(producer, old(state), old(hub.Contents()))
      ensures CA.DispatchAnswer(producer, old(state), old(hub.Contents()), Now())
      ensures state.failed.None? ==>
                old(state).phase.Enqueued? && state.phase.Dispatched? && IsOpen(hub.Contents(), state.phase.executionSpan)
    {
      hide DispatchCue, CV.CueInv, Grows;
      DispatchedMeans(producer, state, hub.Contents());
      CA.DispatchAnswered(producer, state, hub.Contents());
      RecordDispatched();
    }

    /** A cancel request is recorded once and leaves the phase alone. */
    method ObserveCancelRequested()
      requires Valid()
      modifies this`state, hub, hub.validator
      ensures Valid() && Moved(old(hub.Contents())) && Now() == CancelCue(producer, old(state), old(hub.Contents()))
      ensures CA.CancelAnswer(producer, old(state), old(hub.Contents()), Now())
      ensures state.failed.None? ==> old(state).cancel.None? && state == old(state).(cancel := Some(|hub.log|))
    {
      hide CancelCue, CV.CueInv, Grows, Shows;
      CancelMeans(producer, state, hub.Contents());
      CA.CancelAnswered(producer, state, hub.Contents());
      RecordCancelRequested();
    }

    /** The terminal hook: unless it has to stop, every effect of the cue is told first, in some
        order, and only then is the cue's own span closed; a cue that ends well has nothing open, and
        the effects that still wait are in good order. */
    method ObserveTerminal(outcome: CueOutcome, hasError: bool, registry: EffectRegistry)
      requires Valid() && registry.Valid() && registry.hub == hub
      modifies this`state, hub, hub.validator, registry, registry.active.Values
      ensures Valid() && registry.Valid() && Shows(producer, state, hub.Contents())
      ensures CA.PlanAnswer(old(state), outcome, hasError, PlanTerminal(old(state), outcome, hasError))
      ensures var plan := PlanTerminal(old(state), outcome, hasError);
              if plan.Stop? then state == plan.state && unchanged(hub, hub.validator, registry)
              else exists order ::
                     && S.Enumerates(old(registry.Contents()), producer.id, order)
                     && var told := S.FanOut(old(registry.Contents()), order, OpOwnerTerminal(outcome, plan.cause));
                        && Now() == CloseCue(producer, old(state), told.h, outcome, plan)
                        && CA.CloseAnswer(producer, old(state), told.h, outcome, Now())
                        && registry.Entries() == Registered(told) && registry.latched == told.latched
      ensures state.failed.None? ==>
                state.phase.Ended? && LastSample(hub.log, CueActive, CueOwner(producer.id)) == Some(0)
    {
      hide CA.CloseAnswer, CA.PlanAnswer, S.FanOut, CloseCue, Registered, PlanTerminal, CV.CueInv, EffectInv, CV.SparesCues, Grows, Sequenced, Shows;
      var plan := PlanTerminal(state, outcome, hasError);
      TerminalCause(producer, state, hub.Contents(), outcome, hasError);
      CA.PlanAnswered(state, outcome, hasError);
      if plan.Stop? {
        state := plan.state;
        return;
      }
      ghost var h, was := hub.Contents(), state;
      registry.TellAll(producer.id, OpOwnerTerminal(outcome, plan.cause));
      ghost var h1 := hub.Contents();
      Spared(producer, was, h, h1);
      CloseMeans(producer, was, h1, outcome, hasError);
      CA.CloseAnswered(producer, was, h1, outcome, hasError);
      Close(outcome, plan);
      forall k | k in registry.active
        ensures EffectInv(registry.active[k].producer, registry.active[k].state, hub.Contents())
      {
        EffectSpared(registry.active[k].producer, registry.active[k].state, h1, hub.Contents(), producer.id);
      }
    }

    /** Retiring an ended cue samples the mailbox and changes nothing about the cue. */
    method ObserveRetired(queued: nat, running: bool)
      requires Valid()
      modifies this`state, hub, hub.validator
      ensures Valid() && Moved(old(hub.Contents())) && Now() == RetireCue(producer, old(state), old(hub.Contents()), queued, running)
      ensures CA.RetireAnswer(producer, old(state), old(hub.Contents()), queued, running, Now())
      ensures state.failed.None? ==> state == old(state) && state.phase.Ended?
    {
      hide RetireCue, CV.CueInv, Grows, Shows;
      RetiredMeans(producer, state, hub.Contents(), queued, running);
      CA.RetireAnswered(producer, state, hub.Contents(), queued, running);
      RecordRetired(queued, running);
    }
  }
}
