/** The run producer as an object: between hooks its record, its emissions and the log agree. */
module RuntimeObject {
  import opened Events
  import opened Hub
  import opened HubObject
  import opened Runtime
  import RA = RuntimeAnswers

  lemma ObserveMeans(r: Run, hook: Hook)
    requires Inv(r)
    ensures var r' := Observe(r, hook);
            && Inv(r') && AllTraced(r, r') && r'.s.failure != Some(StateFailed(FinishedWithOpenPhase))
            && (r.s.failure.Some? ==> r'.s == r.s && r'.trace == r.trace)
            && (r.s.closed ==> r'.s.closed && r'.trace == r.trace)
            && (r'.s.closed ==> OpenSpans(r'.trace) == {} && r'.s.lifecycleTerminal.Some?
                                && FinishedLast(r'.trace, r'.s.runSpan, r'.s.lifecycleTerminal.value))
  {
    hide Observe, AllTraced, Inv;
    StepKept(r, Observed(hook));
    if r.s.failure.Some? { FailureIsFinal(r, Observed(hook)); }
    if r.s.closed { ClosedIsFinal(r, Observed(hook)); }
    ClosedMeans(Observe(r, hook));
  }

  lemma ClosedMeans(r: Run)
    requires Inv(r)
    ensures r.s.failure != Some(StateFailed(FinishedWithOpenPhase))
    ensures r.s.closed ==> OpenSpans(r.trace) == {} && r.s.lifecycleTerminal.Some?
                           && FinishedLast(r.trace, r.s.runSpan, r.s.lifecycleTerminal.value)
  {
    hide Orderly, PhaseOn, Shown, OpenSpans;
  }

  lemma BeginMeans(h: Stream)
    ensures Begin(h).Some? ==>
              var r := Begin(h).value; r.s.runSpan == |r.h.log| && OpenSpans(r.trace) == {r.s.runSpan}
  {
    var c := Start(EMPTY_SCOPE, SpanKind.RunLifecycle, None, []);
    AdmitCases(h, c);
    hide Admit;
    if Begin(h).Some? {
      OpenSnoc([], Opened(Begin(h).value.s.runSpan, SpanKind.RunLifecycle));
      assert [] + [Opened(Begin(h).value.s.runSpan, SpanKind.RunLifecycle)] == Begin(h).value.trace;
      assert OpenSpans([]) == {};
    }
  }

  class RuntimeLifecycleProducer {
    const hub: DiagnosticHub
    var state: RunState
    ghost var trace: seq<Emission>

    ghost function Now(): Run
      reads this, hub, hub.validator
    {
      Run(state, hub.Contents(), trace)
    }

    constructor (hub: DiagnosticHub, span: nat)
      ensures this.hub == hub
      ensures Now() == Run(FreshRun(span), hub.Contents(), [Opened(span, SpanKind.RunLifecycle)])
    {
      this.hub := hub;
      state := FreshRun(span);
      trace := [Opened(span, SpanKind.RunLifecycle)];
    }

    method LatchFailure(failure: Failure)
      modifies this`state
      ensures Now() == Latch(old(Now()), failure)
    {
      if state.failure.None? {
        state := state.(failure := Some(failure));
      }
    }

    method StartChild(kind: SpanKind) returns (span: Option<nat>)
      requires hub.Valid()
      modifies this, hub, hub.validator
      ensures hub.Valid() && (Now(), span) == OpenChild(old(Now()), kind)
    {
      hide Admit;
      span := hub.AdmitCandidate(Start(EMPTY_SCOPE, kind, Some(state.runSpan), []));
      if span.None? {
        LatchFailure(AdmissionFailed);
      } else {
        trace := trace + [Opened(span.value, kind)];
      }
    }

    method FinishSpan(span: nat, terminal: Terminal) returns (ok: bool)
      requires hub.Valid()
      modifies this, hub, hub.validator
      ensures hub.Valid() && (Now(), ok) == CloseSpan(old(Now()), span, terminal)
    {
      hide Admit;
      var sequence := hub.AdmitCandidate(Finish(EMPTY_SCOPE, span, terminal, []));
      ok := sequence.Some?;
      if ok {
        trace := trace + [Finished(sequence.value, span, terminal)];
      } else {
        LatchFailure(AdmissionFailed);
      }
    }

    method EndCapture(capture: Capture) returns (ok: bool)
      requires hub.Valid()
      modifies this, hub, hub.validator
      ensures hub.Valid() && (Now(), ok) == FinishCapture(old(Now()), capture)
    {
      hide Admit;
      match capture {
        case NoGap => ok := true;
        case CaptureFailed =>
          LatchFailure(AdmissionFailed);
          ok := false;
        case Gap =>
          var sequence := hub.AdmitCandidate(Candidate(EMPTY_SCOPE, [], Recorded(None)));
          ok := sequence.Some?;
          if ok {
            trace := trace + [GapNoted(sequence.value)];
          } else {
            LatchFailure(AdmissionFailed);
          }
      }
    }

    method ReturnFromStart(error: Option<Error>)
      requires hub.Valid()
      modifies this, hub, hub.validator
      ensures hub.Valid() && Now() == FinishStart(old(Now()), error)
    {
      hide CloseSpan;
      if !state.start.Open? {
        LatchFailure(StateFailed(StartReturnWithoutEntry));
        return;
      }
      var terminal := PhaseTerminal(error, START_CANCELLED, START_FAILED);
      var span := state.start.span;
      if error.Some? {
        state := state.(firstUserFailure := Some(terminal));
      }
      var ok := FinishSpan(span, terminal);
      if ok {
        state := state.(start := Ended(terminal));
      }
    }

    method ReturnFromStop(error: Option<Error>)
      requires hub.Valid()
      modifies this, hub, hub.validator
      ensures hub.Valid() && Now() == FinishStop(old(Now()), error)
    {
      hide CloseSpan;
      if !state.stop.Open? {
        LatchFailure(StateFailed(StopReturnWithoutEntry));
        return;
      }
      var terminal := PhaseTerminal(error, STOP_CANCELLED, STOP_FAILED);
      var span := state.stop.span;
      if error.Some? && state.firstUserFailure.None? {
        state := state.(firstUserFailure := Some(terminal));
      }
      var ok := FinishSpan(span, terminal);
      if ok {
        state := state.(stop := Ended(terminal));
      }
    }

    method ReturnFromLifecycle(error: Option<Error>)
      modifies this
      ensures Now() == LifecycleReturn(old(Now()), error)
    {
      if state.lifecycleTerminal.Some? || state.closed {
        LatchFailure(StateFailed(LifecycleReturnInvalid));
        return;
      }
      if !ShapeProven(state) {
        LatchFailure(StateFailed(UnprovenPhases));
        return;
      }
      var terminal: Terminal;
      match error {
        case None =>
          if state.firstUserFailure.Some? {
            LatchFailure(StateFailed(SuccessAfterFailure));
            return;
          }
          terminal := COMPLETED;
        case Some(Cancellation) => terminal := Terminal(Cancelled, Some(RUN_CANCELLED));
        case Some(OtherFailure) =>
          terminal := if state.firstUserFailure.Some? then state.firstUserFailure.value
                      else Terminal(Failed, Some(RUN_FAILED));
      }
      state := state.(lifecycleTerminal := Some(terminal));
    }

    /** Ends capture, then the shutdown phase, then the run span, stopping at the first failure. */
    method EndRun(capture: Capture)
      requires hub.Valid()
      modifies this, hub, hub.validator
      ensures hub.Valid() && Now() == FinishRun(old(Now()), capture)
    {
      hide CloseSpan, FinishCapture;
      if state.closed {
        LatchFailure(StateFailed(RunFinishInvalid));
        return;
      }
      if state.lifecycleTerminal.None? {
        LatchFailure(StateFailed(FinishedBeforeReturn));
        return;
      }
      var terminal := state.lifecycleTerminal.value;
      var span := state.runSpan;
      if state.start.Open? || state.stop.Open? {
        LatchFailure(StateFailed(FinishedWithOpenPhase));
        return;
      }
      var captured := EndCapture(capture);
      if !captured {
        return;
      }
      if state.shutdown.Open? {
        var ended := FinishSpan(state.shutdown.span, ShutdownTerminal(terminal.outcome));
        if !ended {
          return;
        }
        state := state.(shutdown := Ended(ShutdownTerminal(terminal.outcome)));
      }
      var finished := FinishSpan(span, terminal);
      if finished {
        state := state.(closed := true);
      }
    }

    method EnterPhase(hook: Hook)
      requires hub.Valid() && (hook.StartEntered? || hook.StopEntered? || hook.ShutdownRequested?)
      requires state.failure.None?
      modifies this, hub, hub.validator
      ensures hub.Valid() && Now() == Observe(old(Now()), hook)
    {
      hide OpenChild;
      if hook.StartEntered? {
        if !state.started || !state.start.NotEntered? {
          LatchFailure(StateFailed(StartInvalid));
          return;
        }
        var span := StartChild(ProductionStart);
        if span.Some? { state := state.(start := Open(span.value)); }
      } else if hook.StopEntered? {
        if !state.started || !EndedWell(state.start) || !state.stop.NotEntered? {
          LatchFailure(StateFailed(StopInvalid));
          return;
        }
        var span := StartChild(ProductionStop);
        if span.Some? { state := state.(stop := Open(span.value)); }
      } else if !state.closed {
        if !state.shutdown.NotEntered? {
          LatchFailure(StateFailed(ShutdownInvalid));
          return;
        }
        var span := StartChild(ProductionShutdown);
        if span.Some? { state := state.(shutdown := Open(span.value)); }
      }
    }

    ghost predicate Valid()
      reads this, hub, hub.validator
    {
      hub.Valid() && Inv(Now())
    }

    /** A hook keeps everything in agreement. A latched failure is final, and so is a closed run,
        which has finished every span it opened, the run span last; whatever the hook put on the log
        is among the emissions, and no run ends with an open phase. */
    method ObserveHook(hook: Hook)
      requires Valid()
      modifies this, hub, hub.validator
      ensures Valid() && Now() == Observe(old(Now()), hook) && RA.Answer(old(Now()), hook, Now())
      ensures old(state).failure.Some? ==> state == old(state) && trace == old(trace)
      ensures old(state).closed ==> state.closed && trace == old(trace)
      ensures AllTraced(old(Now()), Now()) && state.failure != Some(StateFailed(FinishedWithOpenPhase))
      ensures state.closed ==>
                OpenSpans(trace) == {} && state.lifecycleTerminal.Some? && FinishedLast(trace, state.runSpan, state.lifecycleTerminal.value)
    {
      hide Observe, Inv, AllTraced, RA.Answer;
      ObserveMeans(Now(), hook);
      RA.HooksAnswer(Now(), hook);
      RecordHook(hook);
    }

    /** Dispatches a hook; nothing happens once a failure has been latched. */
    method RecordHook(hook: Hook)
      requires hub.Valid()
      modifies this, hub, hub.validator
      ensures hub.Valid() && Now() == Observe(old(Now()), hook)
    {
      hide FinishStart, FinishStop, FinishRun, LifecycleReturn;
      if state.failure.Some? {
        return;
      }
      match hook {
        case RunStarted =>
          if state.started || state.closed {
            LatchFailure(StateFailed(RunStartInvalid));
          } else {
            state := state.(started := true);
          }
        case SceneReturned(error) =>
          if error == Some(OtherFailure) && state.firstUserFailure.None? {
            state := state.(firstUserFailure := Some(Terminal(Failed, Some(SCENE_FAILED))));
          }
        case StartReturned(error) => ReturnFromStart(error);
        case StopReturned(error) => ReturnFromStop(error);
        case LifecycleReturned(error) => ReturnFromLifecycle(error);
        case RunFinished(capture) => EndRun(capture);
        case _ => EnterPhase(hook);
      }
    }
  }

  /** Starting a run: the run span first, then the producer that holds it. */
  method StartProducer(hub: DiagnosticHub) returns (producer: RuntimeLifecycleProducer?)
    requires hub.Valid()
    modifies hub, hub.validator
    ensures hub.Valid() && (producer == null <==> Begin(old(hub.Contents())).None?)
    ensures producer != null ==> producer.hub == hub && producer.Valid() && Some(producer.Now()) == Begin(old(hub.Contents()))
    ensures producer != null ==>
              && producer.state.runSpan == |hub.log| && !producer.state.started && producer.state.failure.None?
              && OpenSpans(producer.trace) == {producer.state.runSpan}
  {
    BeginInv(hub.Contents());
    BeginMeans(hub.Contents());
    hide Admit, Inv, OpenSpans;
    var span := hub.AdmitCandidate(Start(EMPTY_SCOPE, SpanKind.RunLifecycle, None, []));
    if span.None? {
      return null;
    }
    producer := new RuntimeLifecycleProducer(hub, span.value);
  }
}
