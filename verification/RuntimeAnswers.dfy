/** What each hook of a run answers, and how a run ends: from the hooks alone, whatever the hub
    answers and whatever other producers do in between. */
module RuntimeAnswers {
  import opened Events
  import opened Hub
  import opened Offers
  import opened Runtime

  /** A legal hook: the run stays healthy, with this record and these emissions, exactly if all
      candidates are taken. */
  ghost predicate Ran(r: Run, cs: seq<Candidate>, emitted: seq<Emission>, done: RunState, r': Run) {
    && r'.h == Offer(r.h, cs).0
    && if Offer(r.h, cs).1 then r'.s == done && r'.trace == r.trace + emitted else r'.s.failure == Some(AdmissionFailed)
  }

  /** An illegal hook: nothing is offered, and the run fails for this reason. */
  ghost predicate Stopped(r: Run, code: RunCode, r': Run) {
    r' == r.(s := r.s.(failure := Some(StateFailed(code))))
  }

  ghost predicate Opens(r: Run, kind: SpanKind, done: RunState, r': Run) {
    Ran(r, [Start(EMPTY_SCOPE, kind, Some(r.s.runSpan), [])], [Opened(|r.h.log| + 1, kind)], done, r')
  }

  ghost predicate Closes(r: Run, span: nat, t: Terminal, done: RunState, r': Run) {
    Ran(r, [Finish(EMPTY_SCOPE, span, t, [])], [Finished(|r.h.log| + 1, span, t)], done, r')
  }

  predicate Completed(phase: Phase) {
    phase.Ended? && phase.terminal.outcome.Completed?
  }

  /** A phase ends as its return says. */
  function PhaseEnd(error: Option<Error>, cancelled: string, failed: string): Terminal {
    if error.None? then Terminal(Outcome.Completed, None)
    else if error.value.Cancellation? then Terminal(Cancelled, Some(cancelled))
    else Terminal(Failed, Some(failed))
  }

  /** The lifecycle may return once start and stop are over, or start ended badly and stop was left out. */
  predicate Returnable(s: RunState) {
    if Completed(s.start) then s.stop.Ended? else s.start.Ended? && s.stop.NotEntered?
  }

  /** How the run ends: as the lifecycle returned; an error that is no cancellation is laid to the
      user failure on record, if there is one. */
  function RunEnd(error: Option<Error>, failure: Option<Terminal>): Terminal {
    if error.None? then Terminal(Outcome.Completed, None)
    else if error.value.Cancellation? then Terminal(Cancelled, Some("production-lifecycle-cancelled"))
    else if failure.Some? then failure.value
    else Terminal(Failed, Some("production-lifecycle-failed"))
  }

  function ShutdownEnd(outcome: Outcome): Terminal {
    if outcome.Completed? then Terminal(Outcome.Completed, None)
    else if outcome.Cancelled? then Terminal(Cancelled, Some("production-shutdown-cancelled"))
    else Terminal(Failed, Some("production-shutdown-failed"))
  }

  /** What ends a run, in this order: the gap of the cue capture if one is due, the shutdown phase if
      it is open, and the run span. */
  ghost predicate FinishAnswer(r: Run, capture: Capture, r': Run) {
    var s, n := r.s, |r.h.log|;
    if s.closed then Stopped(r, RunFinishInvalid, r')
    else if s.lifecycleTerminal.None? then Stopped(r, FinishedBeforeReturn, r')
    else if capture.CaptureFailed? then r' == r.(s := s.(failure := Some(AdmissionFailed)))
    else
      var t := s.lifecycleTerminal.value;
      var end, gap := ShutdownEnd(t.outcome), Candidate(EMPTY_SCOPE, [], Recorded(None));
      var last := Finish(EMPTY_SCOPE, s.runSpan, t, []);
      var g := if capture.Gap? then 1 else 0;
      var noted := if capture.Gap? then [GapNoted(n + 1)] else [];
      var before := if capture.Gap? then [gap] else [];
      if s.shutdown.Open? then
        Ran(r, before + [Finish(EMPTY_SCOPE, s.shutdown.span, end, []), last],
            noted + [Finished(n + g + 1, s.shutdown.span, end), Finished(n + g + 2, s.runSpan, t)],
            s.(shutdown := Ended(end), closed := true), r')
      else Ran(r, before + [last], noted + [Finished(n + g + 1, s.runSpan, t)], s.(closed := true), r')
  }

  ghost predicate Answer(r: Run, hook: Hook, r': Run) {
    var s, n := r.s, |r.h.log|;
    if s.failure.Some? then r' == r
    else
      match hook
      case RunStarted =>
        if s.started || s.closed then Stopped(r, RunStartInvalid, r') else r' == r.(s := s.(started := true))
      case StartEntered =>
        if !s.started || !s.start.NotEntered? then Stopped(r, StartInvalid, r')
        else Opens(r, ProductionStart, s.(start := Open(n + 1)), r')
      case StartReturned(error) =>
        if !s.start.Open? then Stopped(r, StartReturnWithoutEntry, r')
        else
          var t := PhaseEnd(error, "production-start-cancelled", "production-start-failed");
          Closes(r, s.start.span, t,
                 s.(start := Ended(t), firstUserFailure := if error.Some? then Some(t) else s.firstUserFailure), r')
      case SceneReturned(error) =>
        r' == if error == Some(OtherFailure) && s.firstUserFailure.None?
              then r.(s := s.(firstUserFailure := Some(Terminal(Failed, Some("production-scene-failed"))))) else r
      case StopEntered =>
        if !s.started || !Completed(s.start) || !s.stop.NotEntered? then Stopped(r, StopInvalid, r')
        else Opens(r, ProductionStop, s.(stop := Open(n + 1)), r')
      case StopReturned(error) =>
        if !s.stop.Open? then Stopped(r, StopReturnWithoutEntry, r')
        else
          var t := PhaseEnd(error, "production-stop-cancelled", "production-stop-failed");
          Closes(r, s.stop.span, t,
                 s.(stop := Ended(t),
                    firstUserFailure := if error.Some? && s.firstUserFailure.None? then Some(t) else s.firstUserFailure), r')
      case ShutdownRequested =>
        if s.closed then r' == r
        else if !s.shutdown.NotEntered? then Stopped(r, ShutdownInvalid, r')
        else Opens(r, ProductionShutdown, s.(shutdown := Open(n + 1)), r')
      case LifecycleReturned(error) =>
        if s.lifecycleTerminal.Some? || s.closed then Stopped(r, LifecycleReturnInvalid, r')
        else if !Returnable(s) then Stopped(r, UnprovenPhases, r')
        else if error.None? && s.firstUserFailure.Some? then Stopped(r, SuccessAfterFailure, r')
        else r' == r.(s := s.(lifecycleTerminal := Some(RunEnd(error, s.firstUserFailure))))
      case RunFinished(capture) => FinishAnswer(r, capture, r')
  }

  // ----- The hooks answer so -----

  lemma OpenChildRuns(r: Run, kind: SpanKind)
    requires r.s.failure.None?
    ensures var (r1, span) := OpenChild(r, kind);
            && Offer(r.h, [Start(EMPTY_SCOPE, kind, Some(r.s.runSpan), [])]) == (r1.h, span.Some?)
            && (span.Some? ==> span.value == |r.h.log| + 1 && r1 == r.(h := r1.h, trace := r.trace + [Opened(span.value, kind)]))
            && (span.None? ==> r1 == r.(h := r1.h, s := r.s.(failure := Some(AdmissionFailed))))
  {
    hide Admit, Offer;
    OfferOne(r.h, Start(EMPTY_SCOPE, kind, Some(r.s.runSpan), []));
  }

  lemma CloseSpanRuns(r: Run, span: nat, t: Terminal)
    requires r.s.failure.None?
    ensures var (r1, ok) := CloseSpan(r, span, t);
            && Offer(r.h, [Finish(EMPTY_SCOPE, span, t, [])]) == (r1.h, ok)
            && (ok ==> r1 == r.(h := r1.h, trace := r.trace + [Finished(|r.h.log| + 1, span, t)]) && |r1.h.log| == |r.h.log| + 1)
            && (!ok ==> r1 == r.(h := r1.h, s := r.s.(failure := Some(AdmissionFailed))))
  {
    hide Admit, Offer;
    var c := Finish(EMPTY_SCOPE, span, t, []);
    OfferOne(r.h, c);
    AdmitLog(r.h, c);
  }

  lemma CaptureRuns(r: Run, capture: Capture)
    requires r.s.failure.None? && !capture.CaptureFailed?
    ensures var (r1, ok) := FinishCapture(r, capture);
            && Offer(r.h, if capture.Gap? then [Candidate(EMPTY_SCOPE, [], Recorded(None))] else []) == (r1.h, ok)
            && (ok ==> && r1 == r.(h := r1.h, trace := r.trace + if capture.Gap? then [GapNoted(|r.h.log| + 1)] else [])
                       && |r1.h.log| == |r.h.log| + if capture.Gap? then 1 else 0)
            && (!ok ==> r1 == r.(h := r1.h, s := r.s.(failure := Some(AdmissionFailed))))
  {
    hide Admit;
    var c := Candidate(EMPTY_SCOPE, [], Recorded(None));
    OfferOne(r.h, c);
    AdmitLog(r.h, c);
  }

  lemma OpensRun(r: Run, kind: SpanKind, done: RunState)
    requires r.s.failure.None?
    ensures var (r1, span) := OpenChild(r, kind);
            Opens(r, kind, done, if span.None? then r1 else r1.(s := done)) && (span.Some? ==> span.value == |r.h.log| + 1 && r1.s == r.s)
  {
    hide OpenChild, Offer;
    OpenChildRuns(r, kind);
    var (r1, span) := OpenChild(r, kind);
    assert Offer(r.h, [Start(EMPTY_SCOPE, kind, Some(r.s.runSpan), [])]) == (r1.h, span.Some?);
  }

  lemma ClosesRun(r: Run, r0: Run, span: nat, t: Terminal, done: RunState)
    requires r.s.failure.None? && r0 == r.(s := r0.s) && r0.s.failure.None?
    ensures var (r1, ok) := CloseSpan(r0, span, t); Closes(r, span, t, done, if ok then r1.(s := done) else r1)
  {
    hide CloseSpan, Offer;
    CloseSpanRuns(r0, span, t);
  }

  lemma EntersAnswer(r: Run)
    requires r.s.failure.None?
    ensures Answer(r, StartEntered, EnterStart(r)) && Answer(r, StopEntered, EnterStop(r)) && Answer(r, ShutdownRequested, EnterShutdown(r))
  {
    hide OpenChild, Opens;
    var n := |r.h.log|;
    var (r1, span1) := OpenChild(r, ProductionStart);
    var (r2, span2) := OpenChild(r, ProductionStop);
    var (r3, span3) := OpenChild(r, ProductionShutdown);
    var started, stopping, shutting := r.s.(start := Open(n + 1)), r.s.(stop := Open(n + 1)), r.s.(shutdown := Open(n + 1));
    OpensRun(r, ProductionStart, started);
    OpensRun(r, ProductionStop, stopping);
    OpensRun(r, ProductionShutdown, shutting);
    if r.s.started && r.s.start.NotEntered? { assert EnterStart(r) == if span1.None? then r1 else r1.(s := started); }
    if r.s.started && EndedWell(r.s.start) && r.s.stop.NotEntered? { assert EnterStop(r) == if span2.None? then r2 else r2.(s := stopping); }
    if !r.s.closed && r.s.shutdown.NotEntered? { assert EnterShutdown(r) == if span3.None? then r3 else r3.(s := shutting); }
  }

  lemma ClosedKeeps(r: Run, span: nat, t: Terminal)
    ensures var (r1, ok) := CloseSpan(r, span, t); ok ==> r1.s == r.s
  {
    hide Admit;
  }

  lemma StartAnswers(r: Run, error: Option<Error>)
    requires r.s.failure.None?
    ensures Answer(r, StartReturned(error), FinishStart(r, error))
  {
    hide CloseSpan, Closes;
    if r.s.start.Open? {
      var t := PhaseTerminal(error, START_CANCELLED, START_FAILED);
      var r0 := if error.Some? then r.(s := r.s.(firstUserFailure := Some(t))) else r;
      ClosesRun(r, r0, r.s.start.span, t, r0.s.(start := Ended(t)));
      ClosedKeeps(r0, r.s.start.span, t);
    }
  }

  lemma StopAnswers(r: Run, error: Option<Error>)
    requires r.s.failure.None?
    ensures Answer(r, StopReturned(error), FinishStop(r, error))
  {
    hide CloseSpan, Closes;
    if r.s.stop.Open? {
      var t := PhaseTerminal(error, STOP_CANCELLED, STOP_FAILED);
      var r0 := if error.Some? && r.s.firstUserFailure.None? then r.(s := r.s.(firstUserFailure := Some(t))) else r;
      ClosesRun(r, r0, r.s.stop.span, t, r0.s.(stop := Ended(t)));
      ClosedKeeps(r0, r.s.stop.span, t);
    }
  }

  lemma PhasesAnswer(r: Run, hook: Hook)
    requires r.s.failure.None? && !hook.RunFinished?
    ensures Answer(r, hook, Observe(r, hook))
  {
    match hook
    case RunStarted =>
    case SceneReturned(_) =>
    case LifecycleReturned(_) =>
    case StartReturned(error) =>
      hide FinishStart, Answer;
      StartAnswers(r, error);
    case StopReturned(error) =>
      hide FinishStop, Answer;
      StopAnswers(r, error);
    case _ =>
      hide EnterStart, EnterStop, EnterShutdown, Answer;
      EntersAnswer(r);
  }

  /** Two offers in a row are one. */
  lemma {:induction false} OfferBoth(h: Stream, cs: seq<Candidate>, ds: seq<Candidate>)
    ensures Offer(h, cs + ds) == if Offer(h, cs).1 then Offer(Offer(h, cs).0, ds) else Offer(h, cs)
    decreases |cs|
  {
    hide Admit;
    if cs == [] {
      assert cs + ds == ds;
    } else {
      assert (cs + ds)[0] == cs[0] && (cs + ds)[1..] == cs[1..] + ds;
      var a := Admit(h, cs[0]);
      if a.sequence.Some? { OfferBoth(a.stream, cs[1..], ds); }
    }
  }

  /** The shutdown phase and the run span, once the gap is out of the way. */
  lemma EndRuns(r: Run)
    requires r.s.failure.None? && r.s.lifecycleTerminal.Some?
    ensures var t, n := r.s.lifecycleTerminal.value, |r.h.log|;
            var end, last := ShutdownEnd(t.outcome), Finish(EMPTY_SCOPE, r.s.runSpan, t, []);
            var (r2, ended) := FinishShutdown(r, t.outcome);
            var (r3, finished) := CloseSpan(r2, r.s.runSpan, t);
            var r' := if !ended then r2 else if finished then r3.(s := r3.s.(closed := true)) else r3;
            if r.s.shutdown.Open? then
              Ran(r, [Finish(EMPTY_SCOPE, r.s.shutdown.span, end, []), last],
                  [Finished(n + 1, r.s.shutdown.span, end), Finished(n + 2, r.s.runSpan, t)],
                  r.s.(shutdown := Ended(end), closed := true), r')
            else Ran(r, [last], [Finished(n + 1, r.s.runSpan, t)], r.s.(closed := true), r')
  {
    hide CloseSpan, Offer, Admit;
    var t := r.s.lifecycleTerminal.value;
    var last := Finish(EMPTY_SCOPE, r.s.runSpan, t, []);
    if r.s.shutdown.Open? {
      var end := ShutdownTerminal(t.outcome);
      var c := Finish(EMPTY_SCOPE, r.s.shutdown.span, end, []);
      CloseSpanRuns(r, r.s.shutdown.span, end);
      OfferTwo(r.h, c, last);
      OfferOne(r.h, c);
      var (r2, ended) := FinishShutdown(r, t.outcome);
      if ended { CloseSpanRuns(r2, r.s.runSpan, t); }
    } else {
      CloseSpanRuns(r, r.s.runSpan, t);
    }
  }

  lemma FinishAnswered(r: Run, capture: Capture)
    requires r.s.failure.None? && !r.s.start.Open? && !r.s.stop.Open?
    ensures FinishAnswer(r, capture, FinishRun(r, capture))
  {
    hide FinishShutdown, CloseSpan, Offer, Admit;
    if !r.s.closed && r.s.lifecycleTerminal.Some? && !capture.CaptureFailed? {
      CaptureRuns(r, capture);
      var (r1, captured) := FinishCapture(r, capture);
      var t := r.s.lifecycleTerminal.value;
      var before := if capture.Gap? then [Candidate(EMPTY_SCOPE, [], Recorded(None))] else [];
      var end, last := ShutdownEnd(t.outcome), Finish(EMPTY_SCOPE, r.s.runSpan, t, []);
      if r.s.shutdown.Open? {
        OfferBoth(r.h, before, [Finish(EMPTY_SCOPE, r.s.shutdown.span, end, []), last]);
      } else {
        OfferBoth(r.h, before, [last]);
      }
      hide FinishCapture;
      if captured { EndRuns(r1); }
    }
  }

  /** Every hook of every run that is in order. */
  lemma HooksAnswer(r: Run, hook: Hook)
    requires Inv(r)
    ensures Answer(r, hook, Observe(r, hook))
  {
    if r.s.failure.None? {
      if hook.RunFinished? {
        hide Traced, Shown, OpenSpans, PhaseOn, FinishRun, FinishAnswer;
        if r.s.start.Open? || r.s.stop.Open? {
          UnreturnedAnswered(r, hook.capture);
        } else {
          FinishAnswered(r, hook.capture);
        }
      } else {
        hide Inv, Observe, Answer;
        PhasesAnswer(r, hook);
      }
    }
  }

  /** With a phase open the lifecycle has not returned. */
  lemma UnreturnedAnswered(r: Run, capture: Capture)
    requires Inv(r) && r.s.failure.None? && (r.s.start.Open? || r.s.stop.Open?)
    ensures FinishAnswer(r, capture, FinishRun(r, capture))
  {
    hide Traced, Shown, OpenSpans, PhaseOn;
  }

  // ----- How a run ends, from its hooks -----

  function Hooks(ops: seq<Op>): seq<Hook> {
    if ops == [] then []
    else Hooks(ops[..|ops| - 1]) + if ops[|ops| - 1].Observed? then [ops[|ops| - 1].hook] else []
  }

  /** The place of the first return of the lifecycle among the hooks, or their number. */
  function FirstReturn(hooks: seq<Hook>): nat {
    if hooks == [] then 0
    else
      var n := |hooks| - 1;
      var before := FirstReturn(hooks[..n]);
      if before < n || hooks[n].LifecycleReturned? then before else n + 1
  }

  /** The failure a run is laid to: that of its start if it failed, else the earliest failure of a
      scene or of the stop. */
  function UserFailure(hooks: seq<Hook>): Option<Terminal> {
    if hooks == [] then None
    else
      var n := |hooks| - 1;
      var before, hook := UserFailure(hooks[..n]), hooks[n];
      if hook.StartReturned? && hook.error.Some? then Some(PhaseEnd(hook.error, "production-start-cancelled", "production-start-failed"))
      else if before.Some? then before
      else if hook == SceneReturned(Some(OtherFailure)) then Some(Terminal(Failed, Some("production-scene-failed")))
      else if hook.StopReturned? && hook.error.Some? then Some(PhaseEnd(hook.error, "production-stop-cancelled", "production-stop-failed"))
      else None
  }

  /** The record follows the hooks: until the lifecycle returns it knows the user failure, and from
      then on how the run ends. */
  predicate Follows(s: RunState, hooks: seq<Hook>) {
    var n := FirstReturn(hooks);
    && n <= |hooks|
    && (s.lifecycleTerminal.Some? ==>
          n < |hooks| && hooks[n].LifecycleReturned?
          && s.lifecycleTerminal.value == RunEnd(hooks[n].error, UserFailure(hooks[..n])))
    && (s.failure.None? && s.lifecycleTerminal.None? ==> n == |hooks| && s.firstUserFailure == UserFailure(hooks))
  }

  lemma {:induction false} FirstReturnBounds(hooks: seq<Hook>)
    ensures var n := FirstReturn(hooks); n <= |hooks| && (n < |hooks| ==> hooks[n].LifecycleReturned?)
  {
    if hooks != [] { FirstReturnBounds(hooks[..|hooks| - 1]); }
  }

  /** What a hook does to the two fields, as far as the run goes on. */
  lemma HookFields(r: Run, hook: Hook)
    requires Inv(r)
    ensures var s, s' := r.s, Observe(r, hook).s;
            && (s.failure.Some? ==> s' == s)
            && (s'.lifecycleTerminal.Some? && s.lifecycleTerminal.None? ==>
                  hook.LifecycleReturned? && s.failure.None? && s'.lifecycleTerminal.value == RunEnd(hook.error, s.firstUserFailure))
            && (s.lifecycleTerminal.Some? ==> s'.lifecycleTerminal == s.lifecycleTerminal)
            && (s'.failure.None? && s'.lifecycleTerminal.None? ==>
                  && !hook.LifecycleReturned? && s.failure.None? && s.lifecycleTerminal.None?
                  && s'.firstUserFailure ==
                     (if hook.StartReturned? && hook.error.Some?
                      then Some(PhaseEnd(hook.error, "production-start-cancelled", "production-start-failed"))
                      else if s.firstUserFailure.Some? then s.firstUserFailure
                      else if hook == SceneReturned(Some(OtherFailure)) then Some(Terminal(Failed, Some("production-scene-failed")))
                      else if hook.StopReturned? && hook.error.Some?
                      then Some(PhaseEnd(hook.error, "production-stop-cancelled", "production-stop-failed")) else None))
  {
    hide Inv, Offer, Admit;
    KeepsTerminal(r, hook);
    hide Observe;
    HooksAnswer(r, hook);
  }

  lemma KeepsTerminal(r: Run, hook: Hook)
    ensures var s' := Observe(r, hook).s;
            && (r.s.lifecycleTerminal.Some? ==> s'.lifecycleTerminal == r.s.lifecycleTerminal)
            && (s'.lifecycleTerminal.Some? && r.s.lifecycleTerminal.None? ==> hook.LifecycleReturned? && s'.failure.None?)
  {
    hide Admit;
  }

  lemma StepFollows(r: Run, op: Op, ops: seq<Op>)
    requires Inv(r) && Follows(r.s, Hooks(ops))
    ensures Follows(Step(r, op).s, Hooks(ops + [op]))
  {
    assert (ops + [op])[..|ops|] == ops;
    var hooks := Hooks(ops);
    hide Inv;
    if op.Observed? {
      var more := hooks + [op.hook];
      assert Hooks(ops + [op]) == more && more[..|hooks|] == hooks;
      FirstReturnBounds(hooks);
      HookFields(r, op.hook);
      var n := FirstReturn(hooks);
      assert n < |hooks| ==> more[..n] == hooks[..n] && more[n] == hooks[n];
      hide Observe, Hooks, RunEnd, PhaseEnd;
    } else {
      hide Admit, UserFailure, FirstReturn;
      assert Hooks(ops + [op]) == hooks;
    }
  }

  lemma {:induction false} StepsFollow(r: Run, done: seq<Op>, ops: seq<Op>)
    requires Inv(r) && Follows(r.s, Hooks(done))
    ensures Inv(Steps(r, ops)) && Follows(Steps(r, ops).s, Hooks(done + ops))
    decreases |ops|
  {
    hide Step, Inv, Follows, Hooks;
    if ops == [] {
      assert done + ops == done;
    } else {
      StepKept(r, ops[0]);
      StepFollows(r, ops[0], done);
      StepsFollow(Step(r, ops[0]), done + [ops[0]], ops[1..]);
      assert done + [ops[0]] + ops[1..] == done + ops;
    }
  }

  /** Every run of hooks, reported failures and foreign events: emissions are events of the log, in
      order; spans are opened once and finished at most once; the record of each phase is what the
      log says of it; a closed run has finished every span it opened, the run span last; a run
      never finishes with an open phase; a successful terminal outcome is the one on the stream;
      the outcomes of run and phases agree; and a closed run ended as its hooks demand: completed
      exactly if the lifecycle returned without error, cancelled if it returned a cancellation, and
      otherwise with the failure of the start, else the earliest failure of a scene or of the stop
      before that return, else its own. */
  lemma RunLifecycle(h: Stream, ops: seq<Op>)
    ensures Begin(h).Some? ==>
              var r := Steps(Begin(h).value, ops);
              && Shown(r.s.runSpan, r.trace, r.h.log) && Orderly(r.trace) && PhasesShown(r.s, r.trace)
              && r.s.failure != Some(StateFailed(FinishedWithOpenPhase))
              && (r.s.closed ==> OpenSpans(r.trace) == {} && r.s.lifecycleTerminal.Some?
                                 && FinishedLast(r.trace, r.s.runSpan, r.s.lifecycleTerminal.value))
              && (TerminalOutcome(r.s).Ok? ==>
                    && r.trace != [] && r.trace[|r.trace| - 1].Finished?
                    && r.trace[|r.trace| - 1].span == r.s.runSpan
                    && r.trace[|r.trace| - 1].terminal.outcome == TerminalOutcome(r.s).outcome)
              && (r.s.closed && r.s.failure.None? ==> TerminalOutcome(r.s).Ok?)
              && (r.s.failure.Some? ==> TerminalOutcome(r.s) == Err(r.s.failure.value))
              && (r.s.failure.None? && !r.s.closed ==> TerminalOutcome(r.s) == Err(StateFailed(OutcomeBeforeFinish)))
              && OutcomesAgree(r.s)
              && (r.s.closed ==> EndsAsHooked(r, Hooks(ops)))
  {
    hide Begin, Steps, Orderly, PhaseOn, Shown, EndsAsHooked;
    if Begin(h).Some? {
      BeginInv(h);
      StepsKept(Begin(h).value, ops);
      if Steps(Begin(h).value, ops).s.closed { RunEndsAs(h, ops); }
    }
  }

  /** The last event of the run finishes its span as the first return of the lifecycle demands. */
  predicate EndsAsHooked(r: Run, hooks: seq<Hook>) {
    var n := FirstReturn(hooks);
    && n < |hooks| && hooks[n].LifecycleReturned?
    && FinishedLast(r.trace, r.s.runSpan, RunEnd(hooks[n].error, UserFailure(hooks[..n])))
    && OnLog(r.trace[|r.trace| - 1], r.s.runSpan, r.h.log)
  }

  lemma RunEndsAs(h: Stream, ops: seq<Op>)
    requires Begin(h).Some? && Steps(Begin(h).value, ops).s.closed
    ensures EndsAsHooked(Steps(Begin(h).value, ops), Hooks(ops))
  {
    var r := Begin(h).value;
    assert r.s == FreshRun(r.s.runSpan);
    BeginInv(h);
    hide Begin, Steps, Inv;
    assert Hooks([]) == [];
    StepsFollow(r, [], ops);
    assert [] + ops == ops;
    EndShown(Steps(r, ops));
  }

  lemma EndShown(r: Run)
    requires Inv(r) && r.s.closed
    ensures r.s.lifecycleTerminal.Some? && FinishedLast(r.trace, r.s.runSpan, r.s.lifecycleTerminal.value)
    ensures OnLog(r.trace[|r.trace| - 1], r.s.runSpan, r.h.log)
  {
    hide Traced, OpenSpans, PhaseOn, OnLog;
  }
}
