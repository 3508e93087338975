/** The lifecycle of one cue: admitted, enqueued, dispatched, terminal, retired. The terminal
    hook hands the outcome to the effects of the cue before it closes the cue's own span. */
module Cue {
  import opened Events
  import opened Hub
  import opened Effect

  const CUE_CANCELLED := "cue-cancelled"
  const CUE_DISPATCH_FAILED := "cue-dispatch-failed"
  const CUE_EXECUTION_FAILED := "cue-execution-failed"
  const CUE_CLEANUP_FAILED := "cue-cleanup-failed"

  datatype CuePhase =
    | Starting
    | Admitted(sequence: nat)
    | Enqueued(sequence: nat, waitSpan: nat)
    | Dispatched(executionSpan: nat)
    | Ended(terminal: Option<nat>)

  datatype CueCode =
    | AdmissionTransitionInvalid | EnqueueTransitionInvalid | RunningSnapshotInvalid | DepthOverflow
    | DispatchTransitionInvalid | CancelTransitionInvalid | CallerTransitionInvalid
    | TerminalErrorUnavailable | TerminalTransitionInvalid | CompletedBeforeDispatch
    | RetireTransitionInvalid

  datatype CueFault = CueAdmissionFailed | CueStateFailed(code: CueCode)

  /** `outcome` is history: what the terminal hook was told, which only the cue's last finish shows. */
  datatype CueState = CueState(
    phase: CuePhase,
    cancel: Option<nat>,
    callerFinished: bool,
    outcome: Option<CueOutcome>,
    failed: Option<CueFault>)

  const FRESH: CueState := CueState(Starting, None, false, None, None)

  datatype CueProducer = CueProducer(id: nat, scope: Scope, actorScope: Scope, scene: nat)

  function CueFail(s: CueState, fault: CueFault): CueState {
    if s.failed.None? then s.(failed := Some(fault)) else s
  }

  function CueFailState(s: CueState, code: CueCode): CueState {
    CueFail(s, CueStateFailed(code))
  }

  function CueFailAdmission(s: CueState): CueState {
    CueFail(s, CueAdmissionFailed)
  }

  function MailboxDepth(queued: nat, running: bool): Option<nat> {
    var total := queued + if running then 1 else 0;
    if total > MAX_U64 then None else Some(total)
  }

  /** How the cue's span ends; a failure before dispatch is a dispatch failure. */
  function CueTerminalOf(outcome: CueOutcome, phase: CuePhase): Terminal {
    match outcome
    case CueCompleted => COMPLETED
    case CueCancelled => Terminal(Cancelled, Some(CUE_CANCELLED))
    case CueCleanupFailed => Terminal(Failed, Some(CUE_CLEANUP_FAILED))
    case CueFailed => Terminal(Failed, Some(if phase.Dispatched? then CUE_EXECUTION_FAILED else CUE_DISPATCH_FAILED))
  }

  function AdmitCue(p: CueProducer, s: CueState, h: Stream): (CueState, Stream) {
    if !s.phase.Starting? then (CueFailState(s, AdmissionTransitionInvalid), h)
    else
      var a := Admit(h, Note(p.scope, CueAdmitted, p.scene, []));
      if a.sequence.None? then (CueFailAdmission(s), a.stream) else
      var b := Admit(a.stream, Sample(p.scope, CueActive, 1, Caused(a.sequence.value, FollowsFrom)));
      if b.sequence.None? then (CueFailAdmission(s), b.stream)
      else (s.(phase := Admitted(a.sequence.value)), b.stream)
  }

  function EnqueueCue(p: CueProducer, s: CueState, h: Stream, queued: nat, running: bool): (CueState, Stream) {
    if s.failed.Some? then (s, h)
    else if !s.phase.Admitted? then (CueFailState(s, EnqueueTransitionInvalid), h)
    else if !running then (CueFailState(s, RunningSnapshotInvalid), h)
    else
      var a := Admit(h, Note(p.scope, CueEnqueued, p.scene, Caused(s.phase.sequence, FollowsFrom)));
      if a.sequence.None? then (CueFailAdmission(s), a.stream) else
      var cause := Caused(a.sequence.value, FollowsFrom);
      var b := Admit(a.stream, Start(p.scope, CueMailboxWait, Some(p.scene), cause));
      if b.sequence.None? then (CueFailAdmission(s), b.stream)
      else if MailboxDepth(queued, running).None? then (CueFailState(s, DepthOverflow), b.stream)
      else
        var c := Admit(b.stream, Sample(p.actorScope, ActorMailboxDepth, MailboxDepth(queued, running).value, cause));
        if c.sequence.None? then (CueFailAdmission(s), c.stream)
        else (s.(phase := Enqueued(a.sequence.value, b.sequence.value)), c.stream)
  }

  function DispatchCue(p: CueProducer, s: CueState, h: Stream): (CueState, Stream) {
    if s.failed.Some? then (s, h)
    else if !s.phase.Enqueued? then (CueFailState(s, DispatchTransitionInvalid), h)
    else
      var a := Admit(h, Note(p.scope, CueDispatched, s.phase.waitSpan, Caused(s.phase.sequence, Dispatch)));
      if a.sequence.None? then (CueFailAdmission(s), a.stream) else
      var cause := Caused(a.sequence.value, Dispatch);
      var b := Admit(a.stream, Finish(p.scope, s.phase.waitSpan, COMPLETED, cause));
      if b.sequence.None? then (CueFailAdmission(s), b.stream) else
      var c := Admit(b.stream, Start(p.scope, CueExecution, Some(p.scene), cause));
      if c.sequence.None? then (CueFailAdmission(s), c.stream)
      else (s.(phase := Dispatched(c.sequence.value)), c.stream)
  }

  /** Where a cancel request is recorded: its cause and the span that contains it. */
  function CancelPlace(p: CueProducer, phase: CuePhase): Option<(nat, nat)> {
    match phase
    case Admitted(sequence) => Some((sequence, p.scene))
    case Enqueued(sequence, wait) => Some((sequence, wait))
    case Dispatched(execution) => Some((execution, execution))
    case _ => None
  }

  function CancelCue(p: CueProducer, s: CueState, h: Stream): (CueState, Stream) {
    if s.failed.Some? then (s, h)
    else if s.cancel.Some? || CancelPlace(p, s.phase).None? then (CueFailState(s, CancelTransitionInvalid), h)
    else
      var (source, span) := CancelPlace(p, s.phase).value;
      var a := Admit(h, Note(p.scope, CueCancelRequested, span, Caused(source, Handoff)));
      if a.sequence.None? then (CueFailAdmission(s), a.stream) else (s.(cancel := a.sequence), a.stream)
  }

  function FinishCueCaller(s: CueState): CueState {
    if s.callerFinished then CueFailState(s, CallerTransitionInvalid) else s.(callerFinished := true)
  }

  /** What the terminal hook is to do: stop with a record, or close `span` (if any) with this
      cause after the effects have been told. */
  datatype Plan = Stop(state: CueState) | Proceed(span: Option<nat>, cause: nat, relation: Relation)

  function PlanTerminal(s: CueState, outcome: CueOutcome, hasError: bool): Plan {
    if s.failed.Some? then Stop(s.(phase := Ended(None)))
    else if outcome != CueCompleted && !hasError
    then Stop(CueFailState(s, TerminalErrorUnavailable).(phase := Ended(None)))
    else if s.phase.Starting? || s.phase.Ended? then Stop(CueFailState(s, TerminalTransitionInvalid))
    else if outcome == CueCompleted && !s.phase.Dispatched? then Stop(CueFailState(s, CompletedBeforeDispatch))
    else
      var fallback := if s.phase.Dispatched? then s.phase.executionSpan else s.phase.sequence;
      Proceed(OpenSpan(s.phase), Or(s.cancel, Some(fallback)).value, if s.cancel.Some? then Handoff else Return)
  }

  /** The span the cue holds open in a phase. */
  function OpenSpan(phase: CuePhase): Option<nat> {
    match phase
    case Enqueued(_, wait) => Some(wait)
    case Dispatched(execution) => Some(execution)
    case _ => None
  }

  function CloseCue(p: CueProducer, s: CueState, h: Stream, outcome: CueOutcome, plan: Plan): (CueState, Stream)
    requires plan.Proceed?
  {
    var a := if plan.span.None? then Admission(h, Some(plan.cause))
             else Admit(h, Finish(p.scope, plan.span.value, CueTerminalOf(outcome, s.phase), Caused(plan.cause, plan.relation)));
    if a.sequence.None? then (CueFailAdmission(s), a.stream) else
    var b := Admit(a.stream, Sample(p.scope, CueActive, 0, Caused(a.sequence.value, FollowsFrom)));
    if b.sequence.None? then (CueFailAdmission(s), b.stream)
    else (s.(phase := Ended(b.sequence), outcome := Some(outcome)), b.stream)
  }

  function RetireCue(p: CueProducer, s: CueState, h: Stream, queued: nat, running: bool): (CueState, Stream) {
    if !s.phase.Ended? then (CueFailState(s, RetireTransitionInvalid), h)
    else if s.failed.Some? then (s, h)
    else if MailboxDepth(queued, running).None? then (CueFailState(s, DepthOverflow), h)
    else
      var causes := if s.phase.terminal.Some? then Caused(s.phase.terminal.value, FollowsFrom) else [];
      var a := Admit(h, Sample(p.actorScope, ActorMailboxDepth, MailboxDepth(queued, running).value, causes));
      if a.sequence.None? then (CueFailAdmission(s), a.stream) else (s, a.stream)
  }

  /** The execution span under which effects and acts may start: only while dispatched. */
  function Lineage(s: CueState): Option<nat> {
    if s.phase.Dispatched? then Some(s.phase.executionSpan) else None
  }
}

/** What every hook of a cue keeps. */
module CueProofs {
  import opened Events
  import opened Validator
  import opened Hub
  import opened Effect
  import opened Cue

  ghost predicate ProducerOk(p: CueProducer) {
    && p.scope.cue == Some(p.id)
    && p.scope.effect.None? && p.scope.act.None? && p.scope.tool.None? && p.scope.generation.None?
    && p.actorScope.generation.None? && p.actorScope.cue.None?
  }

  /** The scene span is open and encloses the cue; some other producer owns it. */
  ghost predicate SceneOpen(p: CueProducer, h: Stream) {
    Encloses(h, p.scene, p.scope) && RecordOwner(h.index.spans[p.scene]) == Outside
  }

  /** `span` is the only open span of the cue. */
  ghost predicate Holds(p: CueProducer, h: Stream, span: Option<nat>) {
    && OnlyOpen(h, CueOwner(p.id), span)
    && (span.Some? ==> Held(h, span.value, p.scope, Some(p.scene), true))
  }

  function Sequence(phase: CuePhase): Option<nat> {
    match phase
    case Admitted(sequence) => Some(sequence)
    case Enqueued(sequence, _) => Some(sequence)
    case Ended(terminal) => terminal
    case _ => None
  }

  predicate Reached(m: Option<nat>, n: nat) {
    m.Some? ==> 1 <= m.value <= n
  }

  function ActiveSample(phase: CuePhase): Option<nat> {
    match phase
    case Starting => None
    case Ended(_) => Some(0)
    case _ => Some(1)
  }

  /** The last CueActive sample is 1 exactly while the cue is admitted, enqueued or dispatched. */
  predicate Sampled(p: CueProducer, s: CueState, log: seq<Event>) {
    LastSample(log, CueActive, CueOwner(p.id)) == ActiveSample(s.phase)
  }

  predicate Marks(s: CueState, n: nat) {
    && Reached(Sequence(s.phase), n) && Reached(s.cancel, n)
    && (s.phase.Ended? ==> s.phase.terminal.Some?)
  }

  ghost predicate Inv(p: CueProducer, s: CueState, h: Stream) {
    && ProducerOk(p) && Sequenced(h)
    && (s.failed.None? ==>
          && Marks(s, |h.log|)
          && Holds(p, h, OpenSpan(s.phase))
          && (!s.phase.Ended? ==> SceneOpen(p, h))
          && Sampled(p, s, h.log))
  }

  /** A hook keeps the invariant, and closes no spans but these. */
  ghost predicate Kept(p: CueProducer, h: Stream, r: (CueState, Stream), closing: set<nat>) {
    Inv(p, r.0, r.1) && Grows(h, r.1, CueOwner(p.id)) && Continues(h, r.1, closing)
  }

  function OpenSpans(phase: CuePhase): set<nat> {
    if OpenSpan(phase).Some? then {OpenSpan(phase).value} else {}
  }

  /** The spans the two hooks that finish one are to close. */
  function DispatchCloses(s: CueState): set<nat> {
    if s.failed.None? && s.phase.Enqueued? then {s.phase.waitSpan} else {}
  }

  function TerminalCloses(s: CueState, outcome: CueOutcome, hasError: bool): set<nat> {
    if PlanTerminal(s, outcome, hasError).Proceed? then OpenSpans(s.phase) else {}
  }

  // ----- Single admissions -----

  ghost predicate Placed(p: CueProducer, h: Stream, span: Option<nat>) {
    ProducerOk(p) && Sequenced(h) && Holds(p, h, span) && SceneOpen(p, h)
  }

  lemma SameSpansPlaced(p: CueProducer, h: Stream, h': Stream, span: Option<nat>)
    requires SameSpans(h, h') && ProducerOk(p) && Sequenced(h')
    ensures Placed(p, h, span) ==> Placed(p, h', span)
    ensures Holds(p, h, span) ==> Holds(p, h', span)
  {
  }

  lemma InstantKept(p: CueProducer, h: Stream, kind: InstantKind, span: Option<nat>, inside: nat, causes: seq<Link>)
    requires Placed(p, h, span) && (inside == p.scene || Some(inside) == span)
    requires |causes| <= 1 && (|causes| == 1 ==> Known(h, causes[0].source))
    ensures var a := Admit(h, Note(p.scope, kind, inside, causes));
            && Moves(h, a, CueOwner(p.id), {}) && Placed(p, a.stream, span)
            && LastSample(a.stream.log, CueActive, CueOwner(p.id)) == LastSample(h.log, CueActive, CueOwner(p.id))
  {
    var c := Note(p.scope, kind, inside, causes);
    NoteStep(h, c, CueOwner(p.id));
    AdmitSample(h, c, CueActive, CueOwner(p.id));
    hide Admit, LastSample;
    SameSpansPlaced(p, h, Admit(h, c).stream, span);
  }

  lemma SampleKept(p: CueProducer, h: Stream, scope: Scope, counter: CounterKind, value: nat, span: Option<nat>, causes: seq<Link>)
    requires ProducerOk(p) && Sequenced(h) && Holds(p, h, span)
    requires (scope == p.scope && counter == CueActive) || (scope == p.actorScope && counter == ActorMailboxDepth)
    requires |causes| <= 1 && (|causes| == 1 ==> Known(h, causes[0].source))
    ensures var a := Admit(h, Sample(scope, counter, value, causes));
            && Moves(h, a, CueOwner(p.id), {}) && Holds(p, a.stream, span) && (SceneOpen(p, h) ==> SceneOpen(p, a.stream))
            && LastSample(a.stream.log, CueActive, CueOwner(p.id)) ==
               (if a.sequence.Some? && counter == CueActive then Some(value)
                else LastSample(h.log, CueActive, CueOwner(p.id)))
  {
    var c := Sample(scope, counter, value, causes);
    NoteStep(h, c, CueOwner(p.id));
    AdmitSample(h, c, CueActive, CueOwner(p.id));
    hide Admit, LastSample;
    SameSpansPlaced(p, h, Admit(h, c).stream, span);
  }

  lemma StartKept(p: CueProducer, h: Stream, kind: SpanKind, link: Link)
    requires Placed(p, h, None) && Known(h, link.source) && (kind.CueMailboxWait? || kind.CueExecution?)
    ensures var a := Admit(h, Start(p.scope, kind, Some(p.scene), [link]));
            && Moves(h, a, CueOwner(p.id), {})
            && (a.sequence.Some? ==> Placed(p, a.stream, a.sequence))
            && LastSample(a.stream.log, CueActive, CueOwner(p.id)) == LastSample(h.log, CueActive, CueOwner(p.id))
  {
    var c, me := Start(p.scope, kind, Some(p.scene), [link]), CueOwner(p.id);
    assert OwnedBy(h, c, me) && Referenced(h, c);
    hide Admit, Grows, Continues, LastSample, OwnedBy, Referenced;
    AdmitStep(h, c, me);
    AdmitSample(h, c, CueActive, me);
    if Admit(h, c).sequence.Some? { StartPlaced(p, h, c); }
    hide Sequenced, Placed;
  }

  lemma StartPlaced(p: CueProducer, h: Stream, c: Candidate)
    requires Placed(p, h, None) && c.body.SpanStarted? && c.body.parent == Some(p.scene) && c.scope == p.scope
    requires c.body.kind == Some(CueMailboxWait) || c.body.kind == Some(CueExecution)
    requires Admit(h, c).sequence.Some? && Sequenced(Admit(h, c).stream)
    ensures Placed(p, Admit(h, c).stream, Admit(h, c).sequence)
  {
    AdmitSpans(h, c);
    hide Admit, Sequenced;
  }

  /** A cue's finish has its references in order, and nothing of the cue's own is open under it. */
  lemma FinishReferenced(p: CueProducer, h: Stream, span: nat, t: Terminal, link: Link)
    requires ProducerOk(p) && Sequenced(h) && Holds(p, h, Some(span)) && Known(h, link.source)
    ensures var c := Finish(p.scope, span, t, [link]);
            && Referenced(h, c) && OwnedBy(h, c, CueOwner(p.id)) && OwnDone(h, span)
            && RecordOwner(h.index.spans[span]) == CueOwner(p.id)
  {
  }

  /** The open span of a healthy cue can be finished, given the reservation, exactly when nobody
      else's span is still open under it and the stamp is not before what it holds. */
  lemma FinishRefused(p: CueProducer, s: CueState, h: Stream, t: Terminal, link: Link)
    requires Inv(p, s, h) && s.failed.None? && OpenSpan(s.phase).Some? && Known(h, link.source)
    requires Reserved(h)
    ensures var span := OpenSpan(s.phase).value;
            var c := Finish(p.scope, span, t, [link]);
            var a := Admit(h, c);
            && (a.sequence.None? <==> !Clear(h, span) || !OverBy(h, span, Stamp(h)))
            && (a.sequence.None? && h.refusal.None? ==> a.stream.refusal == Some(RefusalCode(h, c)))
  {
    hide Admit, Clear, OverBy, SceneOpen, Sampled, Marks;
    FinishReferenced(p, h, OpenSpan(s.phase).value, t, link);
    FinishRefusedIff(h, Finish(p.scope, OpenSpan(s.phase).value, t, [link]));
  }

  lemma FinishKept(p: CueProducer, h: Stream, span: nat, t: Terminal, link: Link)
    requires ProducerOk(p) && Sequenced(h) && Holds(p, h, Some(span)) && Known(h, link.source)
    ensures var a := Admit(h, Finish(p.scope, span, t, [link]));
            && Moves(h, a, CueOwner(p.id), {span})
            && (a.sequence.Some? ==> Holds(p, a.stream, None))
            && (SceneOpen(p, h) ==> SceneOpen(p, a.stream))
            && LastSample(a.stream.log, CueActive, CueOwner(p.id)) == LastSample(h.log, CueActive, CueOwner(p.id))
  {
    var c, me := Finish(p.scope, span, t, [link]), CueOwner(p.id);
    FinishReferenced(p, h, span, t, link);
    hide Admit, Grows, Continues, LastSample, OwnedBy, Referenced, OwnDone;
    AdmitStep(h, c, me);
    AdmitSpans(h, c);
    AdmitSample(h, c, CueActive, me);
    hide Sequenced;
  }

  // ----- Hooks -----

  lemma MovedKept(p: CueProducer, h: Stream, h': Stream, s': CueState, closing: set<nat>)
    requires ProducerOk(p) && Grows(h, h', CueOwner(p.id)) && Continues(h, h', closing)
    requires s'.failed.None? ==>
               && Marks(s', |h'.log|) && Holds(p, h', OpenSpan(s'.phase))
               && (!s'.phase.Ended? ==> SceneOpen(p, h')) && Sampled(p, s', h'.log)
    ensures Kept(p, h, (s', h'), closing)
  {
    hide Grows, Marks, Holds, SceneOpen, Sampled;
  }

  lemma StoppedKept(p: CueProducer, s: CueState, h: Stream, s': CueState)
    requires Inv(p, s, h) && (s'.failed.Some? || s' == s.(callerFinished := s'.callerFinished))
    ensures Kept(p, h, (s', h), {})
  {
    Stays(h, CueOwner(p.id));
    hide Grows, Continues, Sequenced, Holds, SceneOpen;
  }

  lemma AdmittedKept(p: CueProducer, h: Stream)
    requires Inv(p, FRESH, h)
    ensures Kept(p, h, AdmitCue(p, FRESH, h), {})
  {
    hide Kept, Admit, Grows, Follows, Stamped, Faithful, Held, OnlyOpen, Sequenced, SceneOpen, LastSample;
    var r := AdmitCue(p, FRESH, h);
    InstantKept(p, h, CueAdmitted, None, p.scene, []);
    var a := Admit(h, Note(p.scope, CueAdmitted, p.scene, []));
    if a.sequence.Some? {
      SampleKept(p, a.stream, p.scope, CueActive, 1, None, Caused(a.sequence.value, FollowsFrom));
      Chain(h, a.stream, r.1, CueOwner(p.id), {}, {});
    }
    MovedKept(p, h, r.1, r.0, {});
  }

  lemma EnqueuedKept(p: CueProducer, s: CueState, h: Stream, queued: nat, running: bool)
    requires Inv(p, s, h)
    ensures Kept(p, h, EnqueueCue(p, s, h, queued, running), {})
  {
    hide Kept, Admit, Grows, Follows, Stamped, Faithful, Held, OnlyOpen, Sequenced, SceneOpen, LastSample;
    var r, me := EnqueueCue(p, s, h, queued, running), CueOwner(p.id);
    if s.failed.Some? || !s.phase.Admitted? || !running {
      StoppedKept(p, s, h, r.0);
      return;
    }
    var link := Link(s.phase.sequence, FollowsFrom);
    InstantKept(p, h, CueEnqueued, None, p.scene, [link]);
    var a := Admit(h, Note(p.scope, CueEnqueued, p.scene, [link]));
    if a.sequence.Some? {
      var link2 := Link(a.sequence.value, FollowsFrom);
      StartKept(p, a.stream, CueMailboxWait, link2);
      var b := Admit(a.stream, Start(p.scope, CueMailboxWait, Some(p.scene), [link2]));
      Chain(h, a.stream, b.stream, me, {}, {});
      if b.sequence.Some? && MailboxDepth(queued, running).Some? {
        SampleKept(p, b.stream, p.actorScope, ActorMailboxDepth, MailboxDepth(queued, running).value, b.sequence, [link2]);
        Chain(h, b.stream, r.1, me, {}, {});
      }
    }
    MovedKept(p, h, r.1, r.0, {});
  }

  lemma DispatchedKept(p: CueProducer, s: CueState, h: Stream)
    requires Inv(p, s, h)
    ensures Kept(p, h, DispatchCue(p, s, h), DispatchCloses(s))
  {
    hide Kept, Admit, Grows, Follows, Stamped, Faithful, Held, OnlyOpen, Sequenced, SceneOpen, LastSample;
    var r, me := DispatchCue(p, s, h), CueOwner(p.id);
    if s.failed.Some? || !s.phase.Enqueued? {
      StoppedKept(p, s, h, r.0);
      return;
    }
    var span, link := s.phase.waitSpan, Link(s.phase.sequence, Dispatch);
    InstantKept(p, h, CueDispatched, Some(span), span, [link]);
    var a := Admit(h, Note(p.scope, CueDispatched, span, [link]));
    if a.sequence.Some? {
      var link2 := Link(a.sequence.value, Dispatch);
      FinishKept(p, a.stream, span, COMPLETED, link2);
      var b := Admit(a.stream, Finish(p.scope, span, COMPLETED, [link2]));
      Chain(h, a.stream, b.stream, me, {}, {span});
      if b.sequence.Some? {
        StartKept(p, b.stream, CueExecution, link2);
        Chain(h, b.stream, r.1, me, {span}, {});
      }
    }
    if a.sequence.None? { ContinuesMore(h, r.1, {}, {span}); }
    MovedKept(p, h, r.1, r.0, {span});
  }

  lemma CancelRequestedKept(p: CueProducer, s: CueState, h: Stream)
    requires Inv(p, s, h)
    ensures Kept(p, h, CancelCue(p, s, h), {})
  {
    hide Kept, Admit, Grows, Follows, Stamped, Faithful, OnlyOpen, SceneOpen, LastSample;
    var r := CancelCue(p, s, h);
    if s.failed.Some? || s.cancel.Some? || CancelPlace(p, s.phase).None? {
      StoppedKept(p, s, h, r.0);
    } else {
      var (source, inside) := CancelPlace(p, s.phase).value;
      if s.phase.Dispatched? { SpanKnown(h, source); }
      hide Sequenced, Held;
      InstantKept(p, h, CueCancelRequested, OpenSpan(s.phase), inside, Caused(source, Handoff));
      MovedKept(p, h, r.1, r.0, {});
    }
  }

  lemma StoppedTerminalKept(p: CueProducer, s: CueState, h: Stream, outcome: CueOutcome, hasError: bool)
    requires Inv(p, s, h) && PlanTerminal(s, outcome, hasError).Stop?
    ensures Kept(p, h, (PlanTerminal(s, outcome, hasError).state, h), {})
  {
    hide Kept, Inv;
    StoppedKept(p, s, h, PlanTerminal(s, outcome, hasError).state);
  }

  /** The cause a cue's terminal passes on is on the stream. */
  lemma PlanKnown(p: CueProducer, s: CueState, h: Stream, outcome: CueOutcome, hasError: bool)
    requires Inv(p, s, h) && PlanTerminal(s, outcome, hasError).Proceed?
    ensures Known(h, PlanTerminal(s, outcome, hasError).cause)
  {
    if s.phase.Dispatched? { SpanKnown(h, s.phase.executionSpan); }
  }

  lemma CloseCueKept(p: CueProducer, s: CueState, h: Stream, outcome: CueOutcome, hasError: bool)
    requires Inv(p, s, h) && PlanTerminal(s, outcome, hasError).Proceed?
    ensures Kept(p, h, CloseCue(p, s, h, outcome, PlanTerminal(s, outcome, hasError)), OpenSpans(s.phase))
  {
    hide Kept, Admit, Grows, Follows, Stamped, Faithful, Held, OnlyOpen, Sequenced, SceneOpen, LastSample;
    var plan, me := PlanTerminal(s, outcome, hasError), CueOwner(p.id);
    var r, link := CloseCue(p, s, h, outcome, plan), Link(plan.cause, plan.relation);
    PlanKnown(p, s, h, outcome, hasError);
    Stays(h, me);
    if plan.span.None? {
      SampleKept(p, h, p.scope, CueActive, 0, None, Caused(plan.cause, FollowsFrom));
    } else {
      FinishKept(p, h, plan.span.value, CueTerminalOf(outcome, s.phase), link);
      var a := Admit(h, Finish(p.scope, plan.span.value, CueTerminalOf(outcome, s.phase), [link]));
      if a.sequence.Some? {
        SampleKept(p, a.stream, p.scope, CueActive, 0, None, Caused(a.sequence.value, FollowsFrom));
        Chain(h, a.stream, r.1, me, {plan.span.value}, {});
      }
    }
    MovedKept(p, h, r.1, r.0, OpenSpans(s.phase));
  }

  lemma RetiredKept(p: CueProducer, s: CueState, h: Stream, queued: nat, running: bool)
    requires Inv(p, s, h)
    ensures Kept(p, h, RetireCue(p, s, h, queued, running), {})
  {
    hide Kept, Admit, Grows, Follows, Stamped, Faithful, Held, OnlyOpen, Sequenced, SceneOpen, LastSample;
    var r := RetireCue(p, s, h, queued, running);
    if s.failed.Some? || !s.phase.Ended? || MailboxDepth(queued, running).None? {
      StoppedKept(p, s, h, r.0);
    } else {
      SampleKept(p, h, p.actorScope, ActorMailboxDepth, MailboxDepth(queued, running).value, None,
                 Caused(s.phase.terminal.value, FollowsFrom));
      MovedKept(p, h, r.1, r.0, {});
    }
  }

  lemma OnlyOpenElsewhere(h: Stream, h': Stream, other: Owner, who: Owner, span: Option<nat>)
    requires OnlyOpen(h, who, span) && Grows(h, h', other) && other != who
    ensures OnlyOpen(h', who, span)
  {
    forall s | s in h'.index.spans && RecordOwner(h'.index.spans[s]) == who && h'.index.spans[s].finishedAt.None?
      ensures span == Some(s)
    {
      assert s in h.index.spans;
      assert SameIdentity(h.index.spans[s], h'.index.spans[s]);
    }
  }

  /** Nobody else's step disturbs a cue, as long as the scene outlives it. */
  lemma StepElsewhere(p: CueProducer, s: CueState, h: Stream, h': Stream, other: Owner)
    requires Inv(p, s, h) && Grows(h, h', other) && other != CueOwner(p.id) && Sequenced(h')
    requires other == Outside && s.failed.None? && !s.phase.Ended? ==> IsOpen(h', p.scene)
    ensures Inv(p, s, h')
  {
    hide Sequenced, LastSample, Held, OnlyOpen;
    if s.failed.None? {
      OnlyOpenElsewhere(h, h', other, CueOwner(p.id), OpenSpan(s.phase));
      SampleFrame(h, h', other, CueActive, CueOwner(p.id));
      if OpenSpan(s.phase).Some? {
        HeldElsewhere(h, h', other, OpenSpan(s.phase).value, p.scope, Some(p.scene), true);
      }
      if !s.phase.Ended? {
        assert SameIdentity(h.index.spans[p.scene], h'.index.spans[p.scene]);
      }
    }
  }
}
