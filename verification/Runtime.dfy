/** The lifecycle of one run: its run span, the start, stop and shutdown phases under it, and the
    failure that is latched first and never changes. */
module Runtime {
  import opened Events
  import opened Hub

  const START_CANCELLED := "production-start-cancelled"
  const START_FAILED := "production-start-failed"
  const SCENE_FAILED := "production-scene-failed"
  const STOP_CANCELLED := "production-stop-cancelled"
  const STOP_FAILED := "production-stop-failed"
  const RUN_CANCELLED := "production-lifecycle-cancelled"
  const RUN_FAILED := "production-lifecycle-failed"
  const SHUTDOWN_CANCELLED := "production-shutdown-cancelled"
  const SHUTDOWN_FAILED := "production-shutdown-failed"

  datatype Phase = NotEntered | Open(span: nat) | Ended(terminal: Terminal)

  datatype RunCode =
    | RunStartInvalid | StartInvalid | StartReturnWithoutEntry | StopInvalid | StopReturnWithoutEntry
    | ShutdownInvalid | LifecycleReturnInvalid | UnprovenPhases | SuccessAfterFailure
    | RunFinishInvalid | FinishedBeforeReturn | FinishedWithOpenPhase
    | OutcomeBeforeFinish | OutcomeMissing | Reported(code: string)

  datatype Failure = AdmissionFailed | StateFailed(code: RunCode)

  datatype RunState = RunState(
    runSpan: nat,
    started: bool,
    start: Phase,
    stop: Phase,
    shutdown: Phase,
    firstUserFailure: Option<Terminal>,
    lifecycleTerminal: Option<Terminal>,
    closed: bool,
    failure: Option<Failure>)

  /** What the producer put on the stream, in order, each with its sequence. */
  datatype Emission =
    | Opened(span: nat, kind: SpanKind)
    | Finished(at: nat, span: nat, terminal: Terminal)
    | GapNoted(at: nat)

  datatype Run = Run(s: RunState, h: Stream, trace: seq<Emission>)

  /** An error a hook was given: a cancellation or any other. */
  datatype Error = Cancellation | OtherFailure

  datatype Capture = NoGap | Gap | CaptureFailed

  datatype Hook =
    | RunStarted
    | StartEntered
    | StartReturned(error: Option<Error>)
    | SceneReturned(error: Option<Error>)
    | StopEntered
    | StopReturned(error: Option<Error>)
    | ShutdownRequested
    | LifecycleReturned(error: Option<Error>)
    | RunFinished(capture: Capture)

  function Latch(r: Run, failure: Failure): Run {
    if r.s.failure.None? then r.(s := r.s.(failure := Some(failure))) else r
  }

  function LatchState(r: Run, code: RunCode): Run {
    Latch(r, StateFailed(code))
  }

  function PhaseTerminal(error: Option<Error>, cancelled: string, failed: string): Terminal {
    match error
    case None => COMPLETED
    case Some(Cancellation) => Terminal(Cancelled, Some(cancelled))
    case Some(OtherFailure) => Terminal(Failed, Some(failed))
  }

  /** Opens a phase span under the run span. */
  function OpenChild(r: Run, kind: SpanKind): (Run, Option<nat>) {
    var a := Admit(r.h, Start(EMPTY_SCOPE, kind, Some(r.s.runSpan), []));
    if a.sequence.None? then (Latch(r.(h := a.stream), AdmissionFailed), None)
    else (r.(h := a.stream, trace := r.trace + [Opened(a.sequence.value, kind)]), a.sequence)
  }

  function CloseSpan(r: Run, span: nat, t: Terminal): (Run, bool) {
    var a := Admit(r.h, Finish(EMPTY_SCOPE, span, t, []));
    if a.sequence.None? then (Latch(r.(h := a.stream), AdmissionFailed), false)
    else (r.(h := a.stream, trace := r.trace + [Finished(a.sequence.value, span, t)]), true)
  }

  function EnterStart(r: Run): Run {
    if !r.s.started || !r.s.start.NotEntered? then LatchState(r, StartInvalid)
    else
      var (r1, span) := OpenChild(r, ProductionStart);
      if span.None? then r1 else r1.(s := r1.s.(start := Open(span.value)))
  }

  function FinishStart(r: Run, error: Option<Error>): Run {
    if !r.s.start.Open? then LatchState(r, StartReturnWithoutEntry)
    else
      var t := PhaseTerminal(error, START_CANCELLED, START_FAILED);
      var r0 := if error.Some? then r.(s := r.s.(firstUserFailure := Some(t))) else r;
      var (r1, ok) := CloseSpan(r0, r.s.start.span, t);
      if ok then r1.(s := r1.s.(start := Ended(t))) else r1
  }

  function ObserveSceneReturn(r: Run, error: Option<Error>): Run {
    if error == Some(OtherFailure) && r.s.firstUserFailure.None?
    then r.(s := r.s.(firstUserFailure := Some(Terminal(Failed, Some(SCENE_FAILED)))))
    else r
  }

  predicate EndedWell(phase: Phase) {
    phase.Ended? && phase.terminal.outcome.Completed?
  }

  function EnterStop(r: Run): Run {
    if !r.s.started || !EndedWell(r.s.start) || !r.s.stop.NotEntered? then LatchState(r, StopInvalid)
    else
      var (r1, span) := OpenChild(r, ProductionStop);
      if span.None? then r1 else r1.(s := r1.s.(stop := Open(span.value)))
  }

  function FinishStop(r: Run, error: Option<Error>): Run {
    if !r.s.stop.Open? then LatchState(r, StopReturnWithoutEntry)
    else
      var t := PhaseTerminal(error, STOP_CANCELLED, STOP_FAILED);
      var r0 := if error.Some? && r.s.firstUserFailure.None? then r.(s := r.s.(firstUserFailure := Some(t))) else r;
      var (r1, ok) := CloseSpan(r0, r.s.stop.span, t);
      if ok then r1.(s := r1.s.(stop := Ended(t))) else r1
  }

  function EnterShutdown(r: Run): Run {
    if r.s.closed then r
    else if !r.s.shutdown.NotEntered? then LatchState(r, ShutdownInvalid)
    else
      var (r1, span) := OpenChild(r, ProductionShutdown);
      if span.None? then r1 else r1.(s := r1.s.(shutdown := Open(span.value)))
  }

  /** Either start and stop are both over, or start ended badly and stop was never entered. */
  predicate ShapeProven(s: RunState) {
    (EndedWell(s.start) && s.stop.Ended?) || (s.start.Ended? && !EndedWell(s.start) && s.stop.NotEntered?)
  }

  function LifecycleReturn(r: Run, error: Option<Error>): Run {
    if r.s.lifecycleTerminal.Some? || r.s.closed then LatchState(r, LifecycleReturnInvalid)
    else if !ShapeProven(r.s) then LatchState(r, UnprovenPhases)
    else if error.None? && r.s.firstUserFailure.Some? then LatchState(r, SuccessAfterFailure)
    else
      var t := match error
        case None => COMPLETED
        case Some(Cancellation) => Terminal(Cancelled, Some(RUN_CANCELLED))
        case Some(OtherFailure) =>
          if r.s.firstUserFailure.Some? then r.s.firstUserFailure.value else Terminal(Failed, Some(RUN_FAILED));
      r.(s := r.s.(lifecycleTerminal := Some(t)))
  }

  function ShutdownTerminal(outcome: Outcome): Terminal {
    match outcome
    case Completed => COMPLETED
    case Cancelled => Terminal(Cancelled, Some(SHUTDOWN_CANCELLED))
    case Failed => Terminal(Failed, Some(SHUTDOWN_FAILED))
  }

  /** The capture gap that closes the run's cue capture, if one is due. */
  function FinishCapture(r: Run, capture: Capture): (Run, bool) {
    match capture
    case NoGap => (r, true)
    case CaptureFailed => (Latch(r, AdmissionFailed), false)
    case Gap =>
      var a := Admit(r.h, Candidate(EMPTY_SCOPE, [], Recorded(None)));
      if a.sequence.None? then (Latch(r.(h := a.stream), AdmissionFailed), false)
      else (r.(h := a.stream, trace := r.trace + [GapNoted(a.sequence.value)]), true)
  }

  /** Closes an open shutdown phase as the run itself ended. */
  function FinishShutdown(r: Run, outcome: Outcome): (Run, bool) {
    if !r.s.shutdown.Open? then (r, true)
    else
      var t := ShutdownTerminal(outcome);
      var (r1, ok) := CloseSpan(r, r.s.shutdown.span, t);
      (if ok then r1.(s := r1.s.(shutdown := Ended(t))) else r1, ok)
  }

  function FinishRun(r: Run, capture: Capture): Run {
    if r.s.closed then LatchState(r, RunFinishInvalid)
    else if r.s.lifecycleTerminal.None? then LatchState(r, FinishedBeforeReturn)
    else if r.s.start.Open? || r.s.stop.Open? then LatchState(r, FinishedWithOpenPhase)
    else
      var (r1, captured) := FinishCapture(r, capture);
      if !captured then r1 else
      var (r2, ended) := FinishShutdown(r1, r.s.lifecycleTerminal.value.outcome);
      if !ended then r2 else
      var (r3, finished) := CloseSpan(r2, r.s.runSpan, r.s.lifecycleTerminal.value);
      if finished then r3.(s := r3.s.(closed := true)) else r3
  }

  function StartRun(r: Run): Run {
    if r.s.started || r.s.closed then LatchState(r, RunStartInvalid) else r.(s := r.s.(started := true))
  }

  function Observe(r: Run, hook: Hook): Run {
    if r.s.failure.Some? then r
    else
      match hook
      case RunStarted => StartRun(r)
      case StartEntered => EnterStart(r)
      case StartReturned(error) => FinishStart(r, error)
      case SceneReturned(error) => ObserveSceneReturn(r, error)
      case StopEntered => EnterStop(r)
      case StopReturned(error) => FinishStop(r, error)
      case ShutdownRequested => EnterShutdown(r)
      case LifecycleReturned(error) => LifecycleReturn(r, error)
      case RunFinished(capture) => FinishRun(r, capture)
  }

  datatype Answer = Ok(outcome: Outcome) | Err(failure: Failure)

  function TerminalOutcome(s: RunState): Answer {
    if s.failure.Some? then Err(s.failure.value)
    else if !s.closed then Err(StateFailed(OutcomeBeforeFinish))
    else if s.lifecycleTerminal.None? then Err(StateFailed(OutcomeMissing))
    else Ok(s.lifecycleTerminal.value.outcome)
  }

  // ----- Runs: hooks, failures latched by other producers, and their events in between -----

  datatype Op = Observed(hook: Hook) | Latched(code: string) | Foreign(candidate: Candidate)

  function Step(r: Run, op: Op): Run {
    match op
    case Observed(hook) => Observe(r, hook)
    case Latched(code) => LatchState(r, Reported(code))
    case Foreign(c) => r.(h := Admit(r.h, c).stream)
  }

  function FreshRun(span: nat): RunState {
    RunState(span, false, NotEntered, NotEntered, NotEntered, None, None, false, None)
  }

  /** A new producer opens the run span, or is not created at all. */
  function Begin(h: Stream): Option<Run> {
    var a := Admit(h, Start(EMPTY_SCOPE, SpanKind.RunLifecycle, None, []));
    if a.sequence.None? then None
    else
      Some(Run(FreshRun(a.sequence.value), a.stream, [Opened(a.sequence.value, SpanKind.RunLifecycle)]))
  }

  // ----- What the emissions show -----

  function OpenSpans(trace: seq<Emission>): set<nat> {
    if trace == [] then {}
    else
      var before, e := OpenSpans(trace[..|trace| - 1]), trace[|trace| - 1];
      match e
      case Opened(span, _) => before + {span}
      case Finished(_, span, _) => before - {span}
      case GapNoted(_) => before
  }

  function ReadPhase(phase: Phase, e: Emission, kind: SpanKind): Phase {
    match e
    case Opened(span, k) => if k == kind then Open(span) else phase
    case Finished(_, span, t) => if phase == Open(span) then Ended(t) else phase
    case GapNoted(_) => phase
  }

  /** What the emissions say of the span of a kind. */
  function PhaseOn(trace: seq<Emission>, kind: SpanKind): Phase {
    if trace == [] then NotEntered else ReadPhase(PhaseOn(trace[..|trace| - 1], kind), trace[|trace| - 1], kind)
  }

  /** Record and emissions agree on every phase and on the run itself. */
  predicate PhasesShown(s: RunState, trace: seq<Emission>) {
    && s.start == PhaseOn(trace, ProductionStart)
    && s.stop == PhaseOn(trace, ProductionStop)
    && s.shutdown == PhaseOn(trace, ProductionShutdown)
    && (!s.closed ==> PhaseOn(trace, SpanKind.RunLifecycle) == Open(s.runSpan))
    && (s.closed && s.lifecycleTerminal.Some? ==> PhaseOn(trace, SpanKind.RunLifecycle) == Ended(s.lifecycleTerminal.value))
  }

  function Place(e: Emission): nat {
    if e.Opened? then e.span else e.at
  }

  /** The event of the log an emission stands for; phases are children of the run span. */
  predicate OnLog(e: Emission, run: nat, log: seq<Event>) {
    && 1 <= Place(e) <= |log|
    && log[Place(e) - 1].scope == EMPTY_SCOPE
    && log[Place(e) - 1].body ==
       match e
       case Opened(_, kind) => SpanStarted(Some(kind), if kind == SpanKind.RunLifecycle then None else Some(run))
       case Finished(_, span, t) => SpanFinished(false, span, t)
       case GapNoted(_) => Recorded(None)
  }

  /** Every emission is on the log, in the order of the trace. */
  predicate Shown(run: nat, trace: seq<Emission>, log: seq<Event>) {
    && (forall i :: 0 <= i < |trace| ==> OnLog(trace[i], run, log))
    && (forall i, j :: 0 <= i < j < |trace| ==> Place(trace[i]) < Place(trace[j]))
  }

  /** Whatever the log gained is in the trace. */
  predicate AllTraced(r: Run, r': Run) {
    |r'.h.log| - |r.h.log| == |r'.trace| - |r.trace|
  }

  /** The spans the record holds open. */
  predicate Holding(s: RunState, span: nat) {
    || (!s.closed && span == s.runSpan)
    || s.start == Open(span) || s.stop == Open(span) || s.shutdown == Open(span)
  }

  /** Each span opened once, finished at most once and only while open. */
  ghost predicate Orderly(trace: seq<Emission>) {
    forall i :: 0 <= i < |trace| ==>
      && (trace[i].Opened? ==> forall j :: 0 <= j < i && trace[j].Opened? ==> trace[j].span != trace[i].span)
      && (trace[i].Finished? ==> trace[i].span in OpenSpans(trace[..i]))
  }

  predicate Differ(p: Phase, q: Phase) {
    p.Open? && q.Open? ==> p.span != q.span
  }

  predicate Separate(s: RunState) {
    && Differ(s.start, s.stop) && Differ(s.start, s.shutdown) && Differ(s.stop, s.shutdown)
    && Differ(Open(s.runSpan), s.start) && Differ(Open(s.runSpan), s.stop) && Differ(Open(s.runSpan), s.shutdown)
  }

  predicate FinishedLast(trace: seq<Emission>, span: nat, t: Terminal) {
    && trace != [] && trace[|trace| - 1].Finished?
    && trace[|trace| - 1].span == span && trace[|trace| - 1].terminal == t
  }

  /** The last emission of a closed run is the finish of the run span, as the lifecycle ended. */
  predicate ClosedLast(s: RunState, trace: seq<Emission>) {
    s.closed ==> s.lifecycleTerminal.Some? && FinishedLast(trace, s.runSpan, s.lifecycleTerminal.value)
  }

  /** What the record says of the emissions. */
  ghost predicate Accounted(s: RunState, trace: seq<Emission>) {
    && Separate(s) && ClosedLast(s, trace) && PhasesShown(s, trace)
    && (forall x :: x in OpenSpans(trace) <==> Holding(s, x))
    && (s.lifecycleTerminal.Some? ==> ShapeProven(s))
    && (s.closed ==> !s.shutdown.Open?)
    && s.failure != Some(StateFailed(FinishedWithOpenPhase))
    && (!s.start.NotEntered? ==> s.started)
    && OutcomesAgree(s)
  }

  /** A phase that ended badly is a user failure; a completed run completed start and stop; the
      shutdown phase ends as the run does. */
  predicate OutcomesAgree(s: RunState) {
    && (s.start.Ended? && !EndedWell(s.start) ==> s.firstUserFailure.Some?)
    && (s.stop.Ended? && !EndedWell(s.stop) ==> s.firstUserFailure.Some?)
    && (s.lifecycleTerminal.Some? && s.lifecycleTerminal.value.outcome.Completed? ==> EndedWell(s.start) && EndedWell(s.stop))
    && (s.firstUserFailure.Some? ==> !s.firstUserFailure.value.outcome.Completed?)
    && (s.shutdown.Ended? ==>
          s.lifecycleTerminal.Some? && s.shutdown.terminal.outcome == s.lifecycleTerminal.value.outcome)
  }

  /** The emissions are orderly, and all of them are on the stream. */
  ghost predicate Traced(trace: seq<Emission>, n: nat) {
    && Orderly(trace)
    && (forall i :: 0 <= i < |trace| && trace[i].Opened? ==> trace[i].span <= n)
    && (forall x :: x in OpenSpans(trace) ==> x <= n)
  }

  ghost predicate Inv(r: Run) {
    Traced(r.trace, |r.h.log|) && Accounted(r.s, r.trace) && Shown(r.s.runSpan, r.trace, r.h.log)
  }

  lemma OpenSnoc(trace: seq<Emission>, e: Emission)
    ensures OpenSpans(trace + [e]) ==
            if e.Opened? then OpenSpans(trace) + {e.span}
            else if e.Finished? then OpenSpans(trace) - {e.span}
            else OpenSpans(trace)
    ensures forall k :: PhaseOn(trace + [e], k) == ReadPhase(PhaseOn(trace, k), e, k)
  {
    assert (trace + [e])[..|trace|] == trace;
  }

  lemma OrderlySnoc(trace: seq<Emission>, e: Emission)
    requires Orderly(trace)
    requires e.Opened? ==> forall j :: 0 <= j < |trace| && trace[j].Opened? ==> trace[j].span != e.span
    requires e.Finished? ==> e.span in OpenSpans(trace)
    ensures Orderly(trace + [e])
  {
    forall i | 0 <= i < |trace| + 1 && (trace + [e])[i].Finished?
      ensures (trace + [e])[i].span in OpenSpans((trace + [e])[..i])
    {
      assert (trace + [e])[..i] == trace[..i];
    }
  }

  lemma ShownSnoc(r: Run, h: Stream, e: Emission)
    requires Shown(r.s.runSpan, r.trace, r.h.log) && r.h.log <= h.log && |r.h.log| < Place(e) && OnLog(e, r.s.runSpan, h.log)
    ensures Shown(r.s.runSpan, r.trace + [e], h.log)
  {
  }

  lemma OpenChildKept(r: Run, kind: SpanKind)
    requires Traced(r.trace, |r.h.log|) && Shown(r.s.runSpan, r.trace, r.h.log) && kind != SpanKind.RunLifecycle
    ensures var (r1, span) := OpenChild(r, kind);
            && Traced(r1.trace, |r1.h.log|) && Shown(r1.s.runSpan, r1.trace, r1.h.log) && AllTraced(r, r1)
            && (span.None? ==> r1 == Latch(r.(h := r1.h), AdmissionFailed))
            && (span.Some? ==> r1 == r.(h := r1.h, trace := r.trace + [Opened(span.value, kind)])
                               && span.value !in OpenSpans(r.trace)
                               && OpenSpans(r1.trace) == OpenSpans(r.trace) + {span.value}
                               && forall k :: PhaseOn(r1.trace, k) == if k == kind then Open(span.value) else PhaseOn(r.trace, k))
  {
    var c := Start(EMPTY_SCOPE, kind, Some(r.s.runSpan), []);
    AdmitCases(r.h, c);
    var a := Admit(r.h, c);
    hide Admit;
    if a.sequence.Some? {
      var e := Opened(a.sequence.value, kind);
      OpenSnoc(r.trace, e);
      OrderlySnoc(r.trace, e);
      ShownSnoc(r, a.stream, e);
    }
    hide Orderly, OpenSpans, PhaseOn;
  }

  lemma CloseSpanKept(r: Run, span: nat, t: Terminal)
    requires Traced(r.trace, |r.h.log|) && Shown(r.s.runSpan, r.trace, r.h.log) && span in OpenSpans(r.trace)
    ensures var (r1, ok) := CloseSpan(r, span, t);
            && Traced(r1.trace, |r1.h.log|) && Shown(r1.s.runSpan, r1.trace, r1.h.log) && AllTraced(r, r1)
            && (!ok ==> r1 == Latch(r.(h := r1.h), AdmissionFailed))
            && (ok ==> r1 == r.(h := r1.h, trace := r1.trace) && FinishedLast(r1.trace, span, t)
                       && OpenSpans(r1.trace) == OpenSpans(r.trace) - {span}
                       && forall k :: PhaseOn(r1.trace, k) ==
                                      if PhaseOn(r.trace, k) == Open(span) then Ended(t) else PhaseOn(r.trace, k))
  {
    var c := Finish(EMPTY_SCOPE, span, t, []);
    AdmitCases(r.h, c);
    var a := Admit(r.h, c);
    hide Admit;
    if a.sequence.Some? {
      var e := Finished(a.sequence.value, span, t);
      OpenSnoc(r.trace, e);
      OrderlySnoc(r.trace, e);
      ShownSnoc(r, a.stream, e);
    }
    hide Orderly, OpenSpans, PhaseOn;
  }

  lemma CaptureKept(r: Run, capture: Capture)
    requires Traced(r.trace, |r.h.log|) && Shown(r.s.runSpan, r.trace, r.h.log)
    ensures var (r1, ok) := FinishCapture(r, capture);
            && Traced(r1.trace, |r1.h.log|) && Shown(r1.s.runSpan, r1.trace, r1.h.log) && AllTraced(r, r1)
            && (!ok ==> r1 == Latch(r.(h := r1.h), AdmissionFailed))
            && (ok ==> r1 == r.(h := r1.h, trace := r1.trace) && OpenSpans(r1.trace) == OpenSpans(r.trace)
                       && forall k :: PhaseOn(r1.trace, k) == PhaseOn(r.trace, k))
  {
    var c := Candidate(EMPTY_SCOPE, [], Recorded(None));
    AdmitCases(r.h, c);
    var a := Admit(r.h, c);
    hide Admit;
    if capture.Gap? && a.sequence.Some? {
      var e := GapNoted(a.sequence.value);
      OpenSnoc(r.trace, e);
      OrderlySnoc(r.trace, e);
      ShownSnoc(r, a.stream, e);
    }
    hide Orderly, OpenSpans, PhaseOn;
  }

  /** A phase that may be entered opens a span nothing else holds. */
  lemma EnterStartKept(r: Run)
    requires Inv(r) && r.s.failure.None?
    ensures Inv(EnterStart(r)) && AllTraced(r, EnterStart(r))
  {
    hide Traced, Shown, OpenSpans, PhaseOn, OpenChild;
    if r.s.started && r.s.start.NotEntered? {
      OpenChildKept(r, ProductionStart);
      var (r1, span) := OpenChild(r, ProductionStart);
    }
  }

  lemma EnterStopKept(r: Run)
    requires Inv(r) && r.s.failure.None?
    ensures Inv(EnterStop(r)) && AllTraced(r, EnterStop(r))
  {
    hide Traced, Shown, OpenSpans, PhaseOn, OpenChild;
    if r.s.started && EndedWell(r.s.start) && r.s.stop.NotEntered? {
      OpenChildKept(r, ProductionStop);
      var (r1, span) := OpenChild(r, ProductionStop);
    }
  }

  lemma EnterShutdownKept(r: Run)
    requires Inv(r) && r.s.failure.None?
    ensures Inv(EnterShutdown(r)) && AllTraced(r, EnterShutdown(r))
  {
    hide Traced, Shown, OpenSpans, PhaseOn, OpenChild;
    if !r.s.closed && r.s.shutdown.NotEntered? {
      OpenChildKept(r, ProductionShutdown);
      var (r1, span) := OpenChild(r, ProductionShutdown);
    }
  }

  lemma FinishStartKept(r: Run, error: Option<Error>)
    requires Inv(r) && r.s.failure.None?
    ensures Inv(FinishStart(r, error)) && AllTraced(r, FinishStart(r, error))
  {
    hide Traced, Shown, OpenSpans, PhaseOn, CloseSpan;
    if r.s.start.Open? {
      var t := PhaseTerminal(error, START_CANCELLED, START_FAILED);
      var r0 := if error.Some? then r.(s := r.s.(firstUserFailure := Some(t))) else r;
      CloseSpanKept(r0, r.s.start.span, t);
      var (r1, ok) := CloseSpan(r0, r.s.start.span, t);
    }
  }

  lemma FinishStopKept(r: Run, error: Option<Error>)
    requires Inv(r) && r.s.failure.None?
    ensures Inv(FinishStop(r, error)) && AllTraced(r, FinishStop(r, error))
  {
    hide Traced, Shown, OpenSpans, PhaseOn, CloseSpan;
    if r.s.stop.Open? {
      var t := PhaseTerminal(error, STOP_CANCELLED, STOP_FAILED);
      var r0 := if error.Some? && r.s.firstUserFailure.None? then r.(s := r.s.(firstUserFailure := Some(t))) else r;
      CloseSpanKept(r0, r.s.stop.span, t);
      var (r1, ok) := CloseSpan(r0, r.s.stop.span, t);
    }
  }

  lemma FinishShutdownKept(r: Run, outcome: Outcome)
    requires Inv(r) && r.s.failure.None? && !r.s.closed
    requires r.s.lifecycleTerminal.Some? && r.s.lifecycleTerminal.value.outcome == outcome
    ensures var (r1, ok) := FinishShutdown(r, outcome);
            && Inv(r1) && AllTraced(r, r1)
            && (ok ==> r1 == r.(h := r1.h, trace := r1.trace, s := r.s.(shutdown := r1.s.shutdown)) && !r1.s.shutdown.Open?)
  {
    hide Traced, Shown, OpenSpans, PhaseOn, CloseSpan;
    if r.s.shutdown.Open? {
      CloseSpanKept(r, r.s.shutdown.span, ShutdownTerminal(outcome));
      var (r1, ok) := CloseSpan(r, r.s.shutdown.span, ShutdownTerminal(outcome));
    }
  }

  /** The shutdown phase closes, and then the run span, as the last thing emitted. */
  lemma FinishRunKept(r: Run, capture: Capture)
    requires Inv(r) && r.s.failure.None?
    ensures Inv(FinishRun(r, capture)) && AllTraced(r, FinishRun(r, capture))
  {
    hide Traced, Shown, OpenSpans, PhaseOn, FinishCapture, FinishShutdown, CloseSpan;
    if !r.s.closed && r.s.lifecycleTerminal.Some? {
      CaptureKept(r, capture);
      var (r1, captured) := FinishCapture(r, capture);
      if captured {
        var t := r.s.lifecycleTerminal.value;
        FinishShutdownKept(r1, t.outcome);
        var (r2, ended) := FinishShutdown(r1, t.outcome);
        if ended {
          CloseSpanKept(r2, r.s.runSpan, t);
          var (r3, finished) := CloseSpan(r2, r.s.runSpan, t);
        }
      }
    }
  }

  lemma StepKept(r: Run, op: Op)
    requires Inv(r)
    ensures Inv(Step(r, op)) && (op.Observed? ==> AllTraced(r, Step(r, op)))
  {
    hide Traced, Shown, OpenSpans, PhaseOn, EnterStart, FinishStart, EnterStop, FinishStop, EnterShutdown, FinishRun;
    match op
    case Foreign(c) => ForeignKept(r, c);
    case Latched(code) =>
    case Observed(hook) =>
      if r.s.failure.None? {
        match hook
        case RunStarted =>
        case StartEntered => EnterStartKept(r);
        case StartReturned(error) => FinishStartKept(r, error);
        case SceneReturned(error) =>
        case StopEntered => EnterStopKept(r);
        case StopReturned(error) => FinishStopKept(r, error);
        case ShutdownRequested => EnterShutdownKept(r);
        case LifecycleReturned(error) =>
        case RunFinished(capture) => FinishRunKept(r, capture);
      }
  }

  lemma ForeignKept(r: Run, c: Candidate)
    requires Inv(r)
    ensures Inv(r.(h := Admit(r.h, c).stream))
  {
    AdmitCases(r.h, c);
    hide Admit, OpenSpans, PhaseOn, Orderly, Accounted;
  }

  /** A closed run emits nothing more, and its outcome is settled. */
  lemma ClosedIsFinal(r: Run, op: Op)
    requires Inv(r) && r.s.closed
    ensures var r' := Step(r, op);
            r'.trace == r.trace && r'.s.closed && r'.s.lifecycleTerminal == r.s.lifecycleTerminal
  {
    hide Admit, Traced, Shown, OpenSpans, PhaseOn;
  }

  /** The first latched failure never changes, and from then on nothing else does. */
  lemma FailureIsFinal(r: Run, op: Op)
    requires r.s.failure.Some?
    ensures Step(r, op).s == r.s && Step(r, op).trace == r.trace
  {
  }

  function Steps(r: Run, ops: seq<Op>): Run
    decreases |ops|
  {
    if ops == [] then r else Steps(Step(r, ops[0]), ops[1..])
  }

  lemma {:induction false} StepsKept(r: Run, ops: seq<Op>)
    requires Inv(r)
    ensures Inv(Steps(r, ops))
    ensures r.s.failure.Some? ==> Steps(r, ops).s == r.s
    ensures r.s.closed ==> Steps(r, ops).trace == r.trace && Steps(r, ops).s.closed
    decreases |ops|
  {
    hide Inv, Step;
    if ops != [] {
      StepKept(r, ops[0]);
      if r.s.failure.Some? { FailureIsFinal(r, ops[0]); }
      if r.s.closed { ClosedIsFinal(r, ops[0]); }
      StepsKept(Step(r, ops[0]), ops[1..]);
    }
  }

  lemma BeginInv(h: Stream)
    ensures Begin(h).Some? ==> Inv(Begin(h).value)
  {
    var c := Start(EMPTY_SCOPE, SpanKind.RunLifecycle, None, []);
    AdmitCases(h, c);
    var a := Admit(h, c);
    hide Admit;
    if a.sequence.Some? {
      var e := Opened(a.sequence.value, SpanKind.RunLifecycle);
      OpenSnoc([], e);
      assert [] + [e] == [e];
      assert OpenSpans([]) == {} && forall k :: PhaseOn([], k) == NotEntered;
    }
  }
}
