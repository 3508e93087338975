/** What a reader of the log learns about a cue: its phase, its cancel request, and how each of its
    events follows from the one before. The producer's record says exactly the same. */
module CueView {
  import opened Events
  import opened Validator
  import opened Hub
  import opened Effect
  import opened Cue
  import opened CueProofs
  import AM = ActMarks

  type Mark = AM.Mark

  /** The milestones and the two spans of a cue, each with its place and its causes. */
  datatype View = View(
    admitted: Option<Mark>,
    enqueued: Option<Mark>,
    wait: Option<Mark>,
    dispatched: Option<Mark>,
    execution: Option<Mark>,
    cancel: Option<Mark>,
    ended: Option<nat>)

  const UNSEEN := View(None, None, None, None, None, None, None)

  function Read(v: View, e: Event, who: Owner): View {
    if ScopeOwner(e.scope) != who then v
    else
      match e.body
      case Instant(kind, containing) =>
        var mark := Some(AM.Mark(e.sequence, containing, e.causes));
        if kind == CueAdmitted then v.(admitted := mark)
        else if kind == CueEnqueued then v.(enqueued := mark)
        else if kind == CueDispatched then v.(dispatched := mark)
        else if kind == CueCancelRequested then v.(cancel := mark)
        else v
      case SpanStarted(kind, parent) =>
        var mark := Some(AM.Mark(e.sequence, parent, e.causes));
        if kind == Some(CueMailboxWait) then v.(wait := mark)
        else if kind == Some(CueExecution) then v.(execution := mark)
        else v
      case Counter(kind, sample) => if kind == CueActive && sample == 0 then v.(ended := Some(e.sequence)) else v
      case _ => v
  }

  function ViewOn(log: seq<Event>, who: Owner): View {
    if log == [] then UNSEEN else Read(ViewOn(log[..|log| - 1], who), log[|log| - 1], who)
  }

  predicate At(mark: Option<Mark>, sequence: nat) {
    mark.Some? && mark.value.sequence == sequence
  }

  /** The phase a view stands for. */
  predicate PhaseShown(v: View, phase: CuePhase) {
    match phase
    case Starting => v == UNSEEN
    case Admitted(sequence) =>
      At(v.admitted, sequence) && v.enqueued.None? && v.wait.None? && v.dispatched.None? && v.execution.None? && v.ended.None?
    case Enqueued(sequence, wait) =>
      At(v.enqueued, sequence) && At(v.wait, wait) && v.dispatched.None? && v.execution.None? && v.ended.None?
    case Dispatched(execution) => At(v.execution, execution) && v.ended.None?
    case Ended(terminal) => terminal.Some? && v.ended == terminal
  }

  /** A mark placed in `inside` and caused by `cause`. */
  predicate Follows(mark: Option<Mark>, cause: Option<Mark>, relation: Relation, inside: nat) {
    mark.Some? ==>
      cause.Some? && mark.value.containing == Some(inside) && mark.value.causes == Caused(cause.value.sequence, relation)
  }

  predicate Preceded(mark: Option<Mark>, sequence: nat) {
    mark.Some? && mark.value.sequence < sequence
  }

  /** Each event of a cue follows from the one before: enqueued from admitted, the wait span from
      enqueued, the dispatch inside the wait span, the execution span from the dispatch; a cancel is
      handed off from the phase it met, inside that phase's span. */
  predicate Chained(p: CueProducer, v: View) {
    && (v.admitted.Some? ==> v.admitted.value.containing == Some(p.scene) && v.admitted.value.causes == [])
    && Follows(v.enqueued, v.admitted, FollowsFrom, p.scene)
    && Follows(v.wait, v.enqueued, FollowsFrom, p.scene)
    && (v.dispatched.Some? ==> v.wait.Some? && Follows(v.dispatched, v.enqueued, Dispatch, v.wait.value.sequence))
    && Follows(v.execution, v.dispatched, Dispatch, p.scene)
    && (v.cancel.Some? ==>
          if Preceded(v.execution, v.cancel.value.sequence)
          then Follows(v.cancel, v.execution, Handoff, v.execution.value.sequence)
          else if Preceded(v.wait, v.cancel.value.sequence)
          then Follows(v.cancel, v.enqueued, Handoff, v.wait.value.sequence)
          else Follows(v.cancel, v.admitted, Handoff, p.scene))
  }

  predicate CancelShown(v: View, cancel: Option<nat>) {
    v.cancel.Some? == cancel.Some? && (cancel.Some? ==> At(v.cancel, cancel.value))
  }

  /** How the last span of a cue ends: completed, cancelled or failed as the cue did, with a code that
      tells a failed cleanup from a failure, and a failure in execution from one before it. */
  predicate EndsWith(t: Terminal, outcome: CueOutcome, dispatched: bool) {
    && (t.outcome.Completed? <==> outcome.CueCompleted?)
    && (t.outcome.Cancelled? <==> outcome.CueCancelled?)
    && (t.outcome.Failed? <==> outcome.CueFailed? || outcome.CueCleanupFailed?)
    && (t.code.None? <==> outcome.CueCompleted?)
    && (outcome.CueCancelled? ==> t.code == Some("cue-cancelled"))
    && (outcome.CueCleanupFailed? ==> t.code == Some("cue-cleanup-failed"))
    && (outcome.CueFailed? ==> t.code == Some(if dispatched then "cue-execution-failed" else "cue-dispatch-failed"))
  }

  predicate SpanEnds(log: seq<Event>, k: int, span: nat, outcome: CueOutcome, dispatched: bool, causes: seq<Link>) {
    FinishesAt(log, k, span) && EndsWith(log[k].body.terminal, outcome, dispatched) && log[k].causes == causes
  }

  /** A cancel request is handed off to the end of a cue; otherwise it returns from its phase. */
  function EndCause(v: View): seq<Link> {
    if v.cancel.Some? then Caused(v.cancel.value.sequence, Handoff)
    else if v.execution.Some? then Caused(v.execution.value.sequence, Return)
    else if v.enqueued.Some? then Caused(v.enqueued.value.sequence, Return)
    else []
  }

  /** The end of a cue on the log: its execution span ends as its outcome demands or, if it was never
      dispatched, its wait span does; only a dispatched cue completes. */
  ghost predicate EndedAs(v: View, log: seq<Event>, outcome: CueOutcome) {
    && (outcome.CueCompleted? ==> v.execution.Some?)
    && (v.execution.Some? ==> exists k :: SpanEnds(log, k, v.execution.value.sequence, outcome, true, EndCause(v)))
    && (v.execution.None? && v.wait.Some? ==>
          exists k :: SpanEnds(log, k, v.wait.value.sequence, outcome, false, EndCause(v)))
  }

  ghost predicate Viewed(p: CueProducer, s: CueState, log: seq<Event>) {
    s.failed.None? ==>
      var v := ViewOn(log, CueOwner(p.id));
      && PhaseShown(v, s.phase) && CancelShown(v, s.cancel) && Chained(p, v)
      && (s.phase.Ended? ==> s.outcome.Some? && EndedAs(v, log, s.outcome.value))
  }

  /** What is on the log stays there. */
  lemma EndedStays(v: View, log: seq<Event>, log': seq<Event>, outcome: CueOutcome)
    requires EndedAs(v, log, outcome) && log <= log'
    ensures EndedAs(v, log', outcome)
  {
    if v.execution.Some? {
      var k :| SpanEnds(log, k, v.execution.value.sequence, outcome, true, EndCause(v));
      assert SpanEnds(log', k, v.execution.value.sequence, outcome, true, EndCause(v));
    } else if v.wait.Some? {
      var k :| SpanEnds(log, k, v.wait.value.sequence, outcome, false, EndCause(v));
      assert SpanEnds(log', k, v.wait.value.sequence, outcome, false, EndCause(v));
    }
  }

  /** Steps of others do not change what the log says of a cue. */
  lemma ViewedFrame(p: CueProducer, s: CueState, log: seq<Event>, log': seq<Event>, other: Owner)
    requires Viewed(p, s, log) && log <= log' && other != CueOwner(p.id)
    requires forall i :: |log| <= i < |log'| ==> SignatureAllowed(log'[i], other)
    ensures Viewed(p, s, log')
  {
    hide ViewOn, PhaseShown, Chained, EndedAs;
    ViewFrame(log, log', other, CueOwner(p.id));
    if s.failed.None? && s.phase.Ended? { EndedStays(ViewOn(log, CueOwner(p.id)), log, log', s.outcome.value); }
  }

  lemma AdmitView(h: Stream, c: Candidate, who: Owner)
    ensures var a := Admit(h, c);
            ViewOn(a.stream.log, who) ==
            if a.sequence.Some? then Read(ViewOn(h.log, who), Materialize(h, c), who) else ViewOn(h.log, who)
    ensures Admit(h, c).sequence.Some? ==> Admit(h, c).sequence.value == Materialize(h, c).sequence == |Admit(h, c).stream.log|
  {
    AdmitCases(h, c);
    hide Admit;
    assert (h.log + [Materialize(h, c)])[..|h.log|] == h.log;
  }

  /** Marks are sequence numbers of the log. */
  lemma {:induction false} ViewBounded(log: seq<Event>, who: Owner)
    requires forall i :: 0 <= i < |log| ==> log[i].sequence == i + 1
    ensures var v := ViewOn(log, who);
            && (v.wait.Some? ==> Preceded(v.wait, |log| + 1)) && (v.execution.Some? ==> Preceded(v.execution, |log| + 1))
  {
    if log != [] { ViewBounded(log[..|log| - 1], who); }
  }

  /** Steps of others do not change what the log says of a cue. */
  lemma {:induction false} ViewFrame(log: seq<Event>, log': seq<Event>, other: Owner, who: Owner)
    requires log <= log' && who != other
    requires forall i :: |log| <= i < |log'| ==> SignatureAllowed(log'[i], other)
    ensures ViewOn(log', who) == ViewOn(log, who)
    decreases |log'|
  {
    if log != log' {
      assert SignatureAllowed(log'[|log'| - 1], other);
      ViewFrame(log, log'[..|log'| - 1], other, who);
    }
  }

  lemma AdmittedViewed(p: CueProducer, h: Stream)
    requires ProducerOk(p) && ViewOn(h.log, CueOwner(p.id)) == UNSEEN
    ensures var r := AdmitCue(p, FRESH, h); Viewed(p, r.0, r.1.log)
  {
    hide Admit, ViewOn;
    var c := Note(p.scope, CueAdmitted, p.scene, []);
    AdmitView(h, c, CueOwner(p.id));
    var a := Admit(h, c);
    if a.sequence.Some? {
      AdmitView(a.stream, Sample(p.scope, CueActive, 1, Caused(a.sequence.value, FollowsFrom)), CueOwner(p.id));
    }
  }

  lemma EnqueuedViewed(p: CueProducer, s: CueState, h: Stream, queued: nat, running: bool)
    requires ProducerOk(p) && ScopeOwner(p.actorScope) != CueOwner(p.id) && Viewed(p, s, h.log) && Inv(p, s, h)
    ensures var r := EnqueueCue(p, s, h, queued, running); Viewed(p, r.0, r.1.log)
  {
    hide Admit, ViewOn, Holds, Sampled, SceneOpen, Sequenced, LastSample;
    if s.failed.None? && s.phase.Admitted? && running {
      var me, c := CueOwner(p.id), Note(p.scope, CueEnqueued, p.scene, Caused(s.phase.sequence, FollowsFrom));
      AdmitView(h, c, me);
      var a := Admit(h, c);
      if a.sequence.None? { return; }
      var cause := Caused(a.sequence.value, FollowsFrom);
      AdmitView(a.stream, Start(p.scope, CueMailboxWait, Some(p.scene), cause), me);
      var b := Admit(a.stream, Start(p.scope, CueMailboxWait, Some(p.scene), cause));
      if b.sequence.Some? && MailboxDepth(queued, running).Some? {
        AdmitView(b.stream, Sample(p.actorScope, ActorMailboxDepth, MailboxDepth(queued, running).value, cause), me);
      }
    }
  }

  lemma DispatchedViewed(p: CueProducer, s: CueState, h: Stream)
    requires ProducerOk(p) && Viewed(p, s, h.log) && Inv(p, s, h)
    ensures var r := DispatchCue(p, s, h); Viewed(p, r.0, r.1.log)
  {
    hide Admit, ViewOn, Holds, Sampled, SceneOpen, Sequenced, LastSample;
    if s.failed.None? && s.phase.Enqueued? {
      var me, span := CueOwner(p.id), s.phase.waitSpan;
      var c := Note(p.scope, CueDispatched, span, Caused(s.phase.sequence, Dispatch));
      AdmitView(h, c, me);
      var a := Admit(h, c);
      if a.sequence.None? { return; }
      var cause := Caused(a.sequence.value, Dispatch);
      AdmitView(a.stream, Finish(p.scope, span, COMPLETED, cause), me);
      var b := Admit(a.stream, Finish(p.scope, span, COMPLETED, cause));
      if b.sequence.Some? { AdmitView(b.stream, Start(p.scope, CueExecution, Some(p.scene), cause), me); }
    }
  }

  lemma CancelViewed(p: CueProducer, s: CueState, h: Stream)
    requires ProducerOk(p) && Viewed(p, s, h.log) && Inv(p, s, h)
    ensures var r := CancelCue(p, s, h); Viewed(p, r.0, r.1.log)
  {
    hide Admit, ViewOn;
    if s.failed.None? && s.cancel.None? && CancelPlace(p, s.phase).Some? {
      ViewBounded(h.log, CueOwner(p.id));
      hide Inv;
      var (source, span) := CancelPlace(p, s.phase).value;
      AdmitView(h, Note(p.scope, CueCancelRequested, span, Caused(source, Handoff)), CueOwner(p.id));
    }
  }

  /** Closing adds nothing to the view but the end. */
  lemma CloseView(p: CueProducer, s: CueState, h: Stream, outcome: CueOutcome, plan: Plan)
    requires ProducerOk(p) && plan.Proceed? && s.failed.None?
    ensures var r, me := CloseCue(p, s, h, outcome, plan), CueOwner(p.id);
            r.0.failed.None? ==>
              && r.0.phase.Ended? && r.0.phase.terminal.Some? && r.0 == s.(phase := r.0.phase, outcome := Some(outcome))
              && ViewOn(r.1.log, me) == ViewOn(h.log, me).(ended := r.0.phase.terminal)
  {
    hide Admit, ViewOn, CueTerminalOf;
    var me := CueOwner(p.id);
    if plan.span.None? {
      AdmitView(h, Sample(p.scope, CueActive, 0, Caused(plan.cause, FollowsFrom)), me);
    } else {
      var c := Finish(p.scope, plan.span.value, CueTerminalOf(outcome, s.phase), Caused(plan.cause, plan.relation));
      AdmitView(h, c, me);
      var a := Admit(h, c);
      if a.sequence.Some? {
        AdmitView(a.stream, Sample(p.scope, CueActive, 0, Caused(a.sequence.value, FollowsFrom)), me);
      }
    }
  }

  lemma CloseViewed(p: CueProducer, s: CueState, h: Stream, outcome: CueOutcome, hasError: bool)
    requires ProducerOk(p) && Viewed(p, s, h.log) && PlanTerminal(s, outcome, hasError).Proceed? && s.failed.None?
    ensures var r := CloseCue(p, s, h, outcome, PlanTerminal(s, outcome, hasError)); Viewed(p, r.0, r.1.log)
  {
    hide ViewOn, CloseCue, EndsWith;
    var plan, v := PlanTerminal(s, outcome, hasError), ViewOn(h.log, CueOwner(p.id));
    var r := CloseCue(p, s, h, outcome, plan);
    CloseView(p, s, h, outcome, plan);
    if OpenSpan(s.phase).Some? { EndsAs(p, s, h, outcome, hasError); }
    EndCauseAside(v);
  }

  /** A sample does not change what caused the end. */
  lemma EndCauseAside(v: View)
    ensures forall n :: EndCause(v.(ended := n)) == EndCause(v)
  {
  }

  lemma TerminalMeans(outcome: CueOutcome, phase: CuePhase)
    ensures EndsWith(CueTerminalOf(outcome, phase), outcome, phase.Dispatched?)
  {
  }

  lemma RetiredViewed(p: CueProducer, s: CueState, h: Stream, queued: nat, running: bool)
    requires ScopeOwner(p.actorScope) != CueOwner(p.id) && Viewed(p, s, h.log)
    ensures var r := RetireCue(p, s, h, queued, running); Viewed(p, r.0, r.1.log)
  {
    hide Admit, ViewOn, EndedAs;
    if s.failed.None? && s.phase.Ended? && MailboxDepth(queued, running).Some? {
      var causes := if s.phase.terminal.Some? then Caused(s.phase.terminal.value, FollowsFrom) else [];
      var c := Sample(p.actorScope, ActorMailboxDepth, MailboxDepth(queued, running).value, causes);
      AdmitView(h, c, CueOwner(p.id));
      AdmitLog(h, c);
      EndedStays(ViewOn(h.log, CueOwner(p.id)), h.log, Admit(h, c).stream.log, s.outcome.value);
    }
  }

  /** A cue that ends with a span open ends that span as its outcome demands; a cancel request is
      handed off to it, else it returns from the phase. */
  lemma EndsAs(p: CueProducer, s: CueState, h: Stream, outcome: CueOutcome, hasError: bool)
    requires s.failed.None? && PlanTerminal(s, outcome, hasError).Proceed? && OpenSpan(s.phase).Some?
    ensures var r := CloseCue(p, s, h, outcome, PlanTerminal(s, outcome, hasError));
            var causes := if s.cancel.Some? then Caused(s.cancel.value, Handoff)
                          else Caused(if s.phase.Dispatched? then s.phase.executionSpan else s.phase.sequence, Return);
            r.0.failed.None? ==>
              exists k :: SpanEnds(r.1.log, k, OpenSpan(s.phase).value, outcome, s.phase.Dispatched?, causes)
  {
    hide Admit, CueTerminalOf;
    var plan := PlanTerminal(s, outcome, hasError);
    var c := Finish(p.scope, plan.span.value, CueTerminalOf(outcome, s.phase), Caused(plan.cause, plan.relation));
    AdmitLog(h, c);
    var a := Admit(h, c);
    if a.sequence.Some? {
      var c2 := Sample(p.scope, CueActive, 0, Caused(a.sequence.value, FollowsFrom));
      AdmitLog(a.stream, c2);
      TerminalMeans(outcome, s.phase);
      assert Admit(a.stream, c2).stream.log[|h.log|] == Materialize(h, c);
      assert SpanEnds(Admit(a.stream, c2).stream.log, |h.log|, plan.span.value, outcome, s.phase.Dispatched?, c.causes);
    }
  }

  /** The record of a cue, its spans and the log agree. */
  ghost predicate CueInv(p: CueProducer, s: CueState, h: Stream) {
    Inv(p, s, h) && Viewed(p, s, h.log)
  }

  /** A step that leaves every cue as it was. */
  ghost predicate SparesCues(h: Stream, h': Stream) {
    forall p, s :: CueInv(p, s, h) ==> CueInv(p, s, h')
  }

  /** No step of an effect disturbs a cue. */
  lemma EffectSpares(h: Stream, h': Stream, effect: nat)
    requires Grows(h, h', EffectOwner(effect)) && Sequenced(h')
    ensures SparesCues(h, h')
  {
    forall p, s | CueInv(p, s, h) ensures CueInv(p, s, h') {
      StepElsewhere(p, s, h, h', EffectOwner(effect));
      hide Inv, ViewOn, KeepsSpans, AddsSpans, FinishesOwn, Sequenced;
      ViewedFrame(p, s, h.log, h'.log, EffectOwner(effect));
    }
  }
}
