/** The lifecycle of one effect: created and returned under its cue, then closed by whichever
    of cue terminal, caller exit and clear completes the picture. */
module Effect {
  import opened Events
  import opened Hub

  const CONSTRUCTION_CANCELLED := Terminal(Cancelled, Some("effect-construction-cancelled"))
  const CONSTRUCTION_FAILED := Terminal(Failed, Some("effect-construction-failed"))
  const NOT_RETURNED := Terminal(Failed, Some("effect-not-returned"))
  const CONSUMER_ABANDONED := Terminal(Cancelled, Some("effect-consumer-abandoned"))
  const OWNER_CANCELLED := Terminal(Cancelled, Some("effect-owner-cancelled"))
  const OWNER_FAILED := Terminal(Failed, Some("effect-owner-failed"))
  const OWNER_CLEANUP_FAILED := Terminal(Failed, Some("effect-owner-cleanup-failed"))

  datatype CueOutcome = CueCompleted | CueFailed | CueCancelled | CueCleanupFailed

  datatype CallerOutcome = Consumed | Abandoned

  datatype EffectCode =
    | CreatedTransitionInvalid | ConstructionTransitionInvalid | FinishedWithoutCreate
    | ReturnedWithoutCreate | ReturnedTransitionInvalid | OwnerTransitionInvalid
    | ConsumedWithoutReturn | FinishTransitionInvalid

  datatype EffectFault = EffectAdmissionFailed | EffectStateFailed(code: EffectCode)

  /** What a construction can end with instead of an effect: a cancellation or any other error. */
  datatype BuildError = BuildCancelled | BuildFailed

  /** `raised` is history: the error a construction ended with, which only its finish shows. */
  datatype EffectState = EffectState(
    created: Option<nat>,
    constructionFinished: bool,
    raised: Option<BuildError>,
    returned: Option<nat>,
    ownerTerminal: Option<CueOutcome>,
    callerOutcome: Option<CallerOutcome>,
    cleared: bool,
    finishAttempted: bool,
    failed: Option<EffectFault>)

  const CONSTRUCTING: EffectState := EffectState(None, false, None, None, None, None, false, false, None)

  /** The fields fixed when the lifecycle span starts; `owner` is the cue. */
  datatype Producer = Producer(id: nat, owner: nat, scope: Scope, span: nat, scene: nat)

  function Fail(s: EffectState, fault: EffectFault): EffectState {
    s.(failed := if s.failed.None? then Some(fault) else s.failed, finishAttempted := true)
  }

  function FailState(s: EffectState, code: EffectCode): EffectState {
    Fail(s, EffectStateFailed(code))
  }

  function EffectFinish(p: Producer, s: EffectState, h: Stream, t: Terminal, source: nat, relation: Relation):
    (EffectState, Stream)
  {
    if s.finishAttempted then (FailState(s, FinishTransitionInvalid), h)
    else
      var s1 := s.(finishAttempted := true);
      var a := Admit(h, Finish(p.scope, p.span, t, Caused(source, relation)));
      if a.sequence.None? then (Fail(s1, EffectAdmissionFailed), a.stream) else (s1, a.stream)
  }

  function AbandonAndFinish(p: Producer, s: EffectState, h: Stream, returned: nat): (EffectState, Stream) {
    EffectFinish(p, s, h, CONSUMER_ABANDONED, returned, Handoff)
  }

  function ConsumeAndFinish(p: Producer, s: EffectState, h: Stream): (EffectState, Stream) {
    if s.returned.None? then (FailState(s, ConsumedWithoutReturn), h)
    else
      var a := Admit(h, Note(p.scope, EffectConsumed, p.span, Caused(s.returned.value, Handoff)));
      if a.sequence.None? then (Fail(s, EffectAdmissionFailed), a.stream)
      else EffectFinish(p, s, a.stream, COMPLETED, a.sequence.value, FollowsFrom)
  }

  function Created(p: Producer, s: EffectState, h: Stream): (EffectState, Stream) {
    if s.failed.Some? || s.finishAttempted then (s, h)
    else if s.created.Some? || s.constructionFinished then (FailState(s, CreatedTransitionInvalid), h)
    else
      var a := Admit(h, Note(p.scope, EffectCreated, p.span, Caused(p.span, FollowsFrom)));
      if a.sequence.None? then (Fail(s, EffectAdmissionFailed), a.stream) else (s.(created := a.sequence), a.stream)
  }

  function ConstructionFinished(p: Producer, s: EffectState, h: Stream, error: Option<BuildError>): (EffectState, Stream) {
    if s.failed.Some? || s.finishAttempted then (s, h)
    else if s.constructionFinished then (FailState(s, ConstructionTransitionInvalid), h)
    else
      var s1 := s.(constructionFinished := true, raised := error);
      if error.None? then
        (if s.created.None? then FailState(s1, FinishedWithoutCreate) else s1, h)
      else
        var source := if s.created.Some? then s.created.value else p.span;
        EffectFinish(p, s1, h, if error.value.BuildCancelled? then CONSTRUCTION_CANCELLED else CONSTRUCTION_FAILED,
                     source, FollowsFrom)
  }

  function Returned(p: Producer, s: EffectState, h: Stream): (EffectState, Stream) {
    if s.failed.Some? || s.finishAttempted then (s, h)
    else if s.returned.Some? then (s, h)
    else if s.created.None? then (FailState(s, ReturnedWithoutCreate), h)
    else if !s.constructionFinished || s.ownerTerminal.Some? then (FailState(s, ReturnedTransitionInvalid), h)
    else
      var a := Admit(h, Note(p.scope, EffectReturned, p.span, Caused(s.created.value, Return)));
      if a.sequence.None? then (Fail(s, EffectAdmissionFailed), a.stream) else (s.(returned := a.sequence), a.stream)
  }

  function OwnerTerminal(p: Producer, s: EffectState, h: Stream, outcome: CueOutcome, source: nat): (EffectState, Stream) {
    if s.failed.Some? || s.finishAttempted then (s, h)
    else if s.ownerTerminal.Some? then (FailState(s, OwnerTransitionInvalid), h)
    else
      var s1 := s.(ownerTerminal := Some(outcome));
      match outcome
      case CueCompleted =>
        if s.returned.None? then EffectFinish(p, s1, h, NOT_RETURNED, source, Return)
        else if s.callerOutcome == Some(Consumed) then ConsumeAndFinish(p, s1, h)
        else if s.callerOutcome == Some(Abandoned) || s.cleared then AbandonAndFinish(p, s1, h, s.returned.value)
        else (s1, h)
      case CueCancelled => EffectFinish(p, s1, h, OWNER_CANCELLED, source, Handoff)
      case CueFailed => EffectFinish(p, s1, h, OWNER_FAILED, source, Return)
      case CueCleanupFailed => EffectFinish(p, s1, h, OWNER_CLEANUP_FAILED, source, Handoff)
  }

  function CallerFinished(p: Producer, s: EffectState, h: Stream, outcome: CallerOutcome): (EffectState, Stream) {
    if s.failed.Some? || s.finishAttempted || s.callerOutcome.Some? then (s, h)
    else
      var s1 := s.(callerOutcome := Some(outcome));
      if s.ownerTerminal == Some(CueCompleted) && s.returned.Some? then
        if outcome.Consumed? then ConsumeAndFinish(p, s1, h) else AbandonAndFinish(p, s1, h, s.returned.value)
      else (s1, h)
  }

  function Cleared(p: Producer, s: EffectState, h: Stream): (EffectState, Stream) {
    if s.failed.Some? || s.finishAttempted || s.cleared then (s, h)
    else
      var s1 := s.(cleared := true);
      if s.ownerTerminal == Some(CueCompleted) && s.returned.Some? then AbandonAndFinish(p, s1, h, s.returned.value)
      else (s1, h)
  }

  /** The hooks of one effect. */
  datatype Op =
    | OpCreated
    | OpConstructionFinished(error: Option<BuildError>)
    | OpReturned
    | OpOwnerTerminal(outcome: CueOutcome, source: nat)
    | OpCallerFinished(caller: CallerOutcome)
    | OpCleared

  function Apply(p: Producer, s: EffectState, h: Stream, op: Op): (EffectState, Stream) {
    match op
    case OpCreated => Created(p, s, h)
    case OpConstructionFinished(error) => ConstructionFinished(p, s, h, error)
    case OpReturned => Returned(p, s, h)
    case OpOwnerTerminal(outcome, source) => OwnerTerminal(p, s, h, outcome, source)
    case OpCallerFinished(outcome) => CallerFinished(p, s, h, outcome)
    case OpCleared => Cleared(p, s, h)
  }
}

/** What every hook of an effect keeps. */
module EffectProofs {
  import opened Events
  import opened Validator
  import opened Hub
  import opened Effect

  ghost predicate ProducerOk(p: Producer) {
    && p.scope.effect == Some(p.id) && p.scope.cue == Some(p.owner)
    && p.scope.act.None? && p.scope.tool.None? && p.scope.generation.None?
  }

  /** A healthy effect that its owner has left behind is a returned one of a completed cue,
      waiting for its caller. */
  predicate Waiting(s: EffectState) {
    && s.ownerTerminal == Some(CueCompleted) && s.returned.Some?
    && s.callerOutcome.None? && !s.cleared
  }

  predicate Shape(s: EffectState) {
    && (s.returned.Some? ==> s.created.Some? && s.constructionFinished)
    && (s.constructionFinished && !s.finishAttempted ==> s.created.Some?)
    && (s.ownerTerminal.Some? && !s.finishAttempted ==> Waiting(s))
  }

  predicate NoteAt(log: seq<Event>, p: Producer, sequence: nat, kind: InstantKind, link: Link) {
    && 1 <= sequence <= |log|
    && log[sequence - 1].body == Instant(kind, Some(p.span))
    && log[sequence - 1].scope == p.scope && log[sequence - 1].causes == [link]
  }

  /** Whether a finish with this terminal is the one this record calls for. */
  predicate Explains(s: EffectState, t: Terminal) {
    match s.ownerTerminal
    case None =>
      && s.constructionFinished && s.raised.Some?
      && (t.outcome.Cancelled? <==> s.raised.value.BuildCancelled?)
      && (t == CONSTRUCTION_CANCELLED || t == CONSTRUCTION_FAILED)
    case Some(CueCancelled) => t == OWNER_CANCELLED
    case Some(CueFailed) => t == OWNER_FAILED
    case Some(CueCleanupFailed) => t == OWNER_CLEANUP_FAILED
    case Some(CueCompleted) =>
      if s.returned.None? then t == NOT_RETURNED
      else if s.callerOutcome == Some(Consumed) then t == COMPLETED
      else t == CONSUMER_ABANDONED && (s.callerOutcome == Some(Abandoned) || s.cleared)
  }

  /** How each kind of finish is related to its cause. */
  function FinishRelation(t: Terminal): Relation {
    if t.outcome.Completed? || t == CONSTRUCTION_CANCELLED || t == CONSTRUCTION_FAILED then FollowsFrom
    else if t == NOT_RETURNED || t == OWNER_FAILED then Return
    else Handoff
  }

  /** Abandonment is caused by the return, a failed construction by the creation or the span itself. */
  predicate CausedRight(p: Producer, s: EffectState, t: Terminal, link: Link) {
    && link.relation == FinishRelation(t)
    && (t == CONSUMER_ABANDONED ==> s.returned == Some(link.source))
    && (s.ownerTerminal.None? ==> link.source == if s.created.Some? then s.created.value else p.span)
  }

  /** A completed finish directly follows the consumption that causes it, which follows the
      return; any other finish stands alone. */
  predicate FinishShape(log: seq<Event>, p: Producer, s: EffectState, k: int) {
    && FinishesAt(log, k, p.span)
    && Explains(s, log[k].body.terminal)
    && |log[k].causes| == 1 && CausedRight(p, s, log[k].body.terminal, log[k].causes[0])
    && (log[k].body.terminal == COMPLETED ==>
          && k >= 1 && s.returned.Some?
          && NoteAt(log, p, k, EffectConsumed, Link(s.returned.value, Handoff))
          && log[k].causes == [Link(k, FollowsFrom)])
  }

  predicate ConsumedAt(log: seq<Event>, j: int, id: nat) {
    && 0 <= j < |log| && log[j].body.Instant? && log[j].body.instant == EffectConsumed
    && ScopeOwner(log[j].scope) == EffectOwner(id)
  }

  ghost predicate Logged(p: Producer, s: EffectState, log: seq<Event>) {
    && (s.created.Some? ==> NoteAt(log, p, s.created.value, EffectCreated, Link(p.span, FollowsFrom)))
    && (s.returned.Some? ==> s.created.Some? && s.created.value < s.returned.value
                             && NoteAt(log, p, s.returned.value, EffectReturned, Link(s.created.value, Return)))
    && (s.finishAttempted ==> exists k :: FinishShape(log, p, s, k))
    && (forall j :: ConsumedAt(log, j, p.id) ==>
          s.finishAttempted && FinishesAt(log, j + 1, p.span) && log[j + 1].body.terminal == COMPLETED)
  }

  ghost predicate Placed(p: Producer, h: Stream, open: bool) {
    && ProducerOk(p) && Sequenced(h)
    && Held(h, p.span, p.scope, Some(p.scene), open) && Owns(h, EffectOwner(p.id), {p.span})
  }

  ghost predicate Inv(p: Producer, s: EffectState, h: Stream) {
    && ProducerOk(p) && Sequenced(h)
    && (s.failed.Some? ==> s.finishAttempted)
    && (s.failed.None? ==> Shape(s) && Logged(p, s, h.log) && Placed(p, h, !s.finishAttempted))
  }

  /** A hook keeps the invariant, and closes no spans but these. */
  ghost predicate Kept(p: Producer, h: Stream, r: (EffectState, Stream), closing: set<nat>) {
    Inv(p, r.0, r.1) && Grows(h, r.1, EffectOwner(p.id)) && Continues(h, r.1, closing)
  }

  /** Whether a hook is to finish the effect, and so to close its span. */
  predicate Ending(s: EffectState, op: Op) {
    && s.failed.None? && !s.finishAttempted
    && match op
       case OpCreated => false
       case OpReturned => false
       case OpConstructionFinished(error) => !s.constructionFinished && error.Some?
       case OpOwnerTerminal(outcome, _) =>
         s.ownerTerminal.None? && (outcome.CueCompleted? && s.returned.Some? ==> s.callerOutcome.Some? || s.cleared)
       case OpCallerFinished(_) => s.callerOutcome.None? && s.ownerTerminal.Some?
       case OpCleared => !s.cleared && s.ownerTerminal.Some?
  }

  function Closes(p: Producer, s: EffectState, op: Op): set<nat> {
    if Ending(s, op) then {p.span} else {}
  }

  // ----- Single admissions -----

  lemma InstantKept(p: Producer, h: Stream, kind: InstantKind, link: Link)
    requires Placed(p, h, true) && Known(h, link.source)
    ensures var a := Admit(h, Note(p.scope, kind, p.span, [link]));
            && Moves(h, a, EffectOwner(p.id), {}) && Placed(p, a.stream, true)
            && (a.sequence.Some? ==> a.stream.log == h.log + [Materialize(h, Note(p.scope, kind, p.span, [link]))])
  {
    var c := Note(p.scope, kind, p.span, [link]);
    assert OwnedBy(h, c, EffectOwner(p.id)) && Referenced(h, c);
    hide Admit, Sequenced, Grows, OwnedBy, Referenced;
    NoteStep(h, c, EffectOwner(p.id));
    AdmitCases(h, c);
    SameSpansPlaced(p, h, Admit(h, c).stream);
  }

  lemma SameSpansPlaced(p: Producer, h: Stream, h': Stream)
    requires Placed(p, h, true) && SameSpans(h, h') && Sequenced(h')
    ensures Placed(p, h', true)
  {
    hide Sequenced;
  }

  /** An effect's finish has its references in order, and nothing of its own is open under it. */
  lemma FinishReferenced(p: Producer, h: Stream, t: Terminal, link: Link)
    requires Placed(p, h, true) && Known(h, link.source)
    ensures var c := Finish(p.scope, p.span, t, [link]);
            && Referenced(h, c) && OwnedBy(h, c, EffectOwner(p.id)) && OwnDone(h, p.span)
            && RecordOwner(h.index.spans[p.span]) == EffectOwner(p.id)
  {
  }

  /** The span of a healthy effect can be finished, given the reservation, exactly when nobody
      else's span is still open under it and the stamp is not before what it holds. */
  lemma FinishRefused(p: Producer, s: EffectState, h: Stream, t: Terminal, link: Link)
    requires Inv(p, s, h) && s.failed.None? && !s.finishAttempted && Known(h, link.source) && Reserved(h)
    ensures var c := Finish(p.scope, p.span, t, [link]);
            var a := Admit(h, c);
            && (a.sequence.None? <==> !Clear(h, p.span) || !OverBy(h, p.span, Stamp(h)))
            && (a.sequence.None? && h.refusal.None? ==> a.stream.refusal == Some(RefusalCode(h, c)))
  {
    hide Admit, Clear, OverBy, Logged, Placed;
    FinishReferenced(p, h, t, link);
    FinishRefusedIff(h, Finish(p.scope, p.span, t, [link]));
  }

  lemma FinishKept(p: Producer, h: Stream, t: Terminal, link: Link)
    requires Placed(p, h, true) && Known(h, link.source)
    ensures var a := Admit(h, Finish(p.scope, p.span, t, [link]));
            && Moves(h, a, EffectOwner(p.id), {p.span})
            && (a.sequence.Some? ==> Placed(p, a.stream, false)
                                     && a.stream.log == h.log + [Materialize(h, Finish(p.scope, p.span, t, [link]))])
  {
    var c := Finish(p.scope, p.span, t, [link]);
    FinishReferenced(p, h, t, link);
    hide Admit, Grows, Continues, OwnedBy, Referenced, OwnDone;
    AdmitStep(h, c, EffectOwner(p.id));
    AdmitSpans(h, c);
  }

  lemma StartKept(p: Producer, h: Stream, link: Link)
    requires ProducerOk(p) && Sequenced(h) && Known(h, link.source)
    requires Encloses(h, p.scene, p.scope) && RecordOwner(h.index.spans[p.scene]) == Outside
    requires Owns(h, EffectOwner(p.id), {})
    ensures var a := Admit(h, Start(p.scope, EffectLifecycle, Some(p.scene), [link]));
            && Moves(h, a, EffectOwner(p.id), {})
            && (a.sequence.Some? ==>
                  && Placed(p.(span := a.sequence.value), a.stream, true)
                  && a.stream.log == h.log + [Materialize(h, Start(p.scope, EffectLifecycle, Some(p.scene), [link]))])
  {
    var c := Start(p.scope, EffectLifecycle, Some(p.scene), [link]);
    assert OwnedBy(h, c, EffectOwner(p.id)) && Referenced(h, c);
    hide Admit, Grows, Continues, OwnedBy, Referenced;
    AdmitStep(h, c, EffectOwner(p.id));
    AdmitSpans(h, c);
  }

  // ----- Hooks -----

  /** The record of an open effect, before the flags of the running hook are accounted for. */
  ghost predicate Ready(p: Producer, s: EffectState, h: Stream) {
    && s.failed.None? && !s.finishAttempted && Placed(p, h, true) && Logged(p, s, h.log)
    && (s.returned.Some? ==> s.created.Some? && s.constructionFinished)
  }

  lemma MovedKept(p: Producer, h: Stream, h': Stream, s': EffectState, closing: set<nat>)
    requires ProducerOk(p) && Grows(h, h', EffectOwner(p.id)) && Continues(h, h', closing)
    requires s'.failed.Some? ==> s'.finishAttempted
    requires s'.failed.None? ==> Shape(s') && Logged(p, s', h'.log) && Placed(p, h', !s'.finishAttempted)
    ensures Kept(p, h, (s', h'), closing)
  {
    hide Grows, Shape, Logged, Placed;
  }

  lemma StoppedKept(p: Producer, s: EffectState, h: Stream, s': EffectState)
    requires ProducerOk(p) && Sequenced(h)
    requires s'.failed.Some? ==> s'.finishAttempted
    requires s'.failed.None? ==> Shape(s') && Logged(p, s', h.log) && Placed(p, h, !s'.finishAttempted)
    ensures Kept(p, h, (s', h), {})
  {
    Stays(h, EffectOwner(p.id));
    MovedKept(p, h, h, s', {});
  }

  lemma EffectFinishKept(p: Producer, s: EffectState, h: Stream, t: Terminal, source: nat, relation: Relation)
    requires Ready(p, s, h) && Known(h, source) && Explains(s, t) && t != COMPLETED
    requires CausedRight(p, s, t, Link(source, relation))
    ensures Kept(p, h, EffectFinish(p, s, h, t, source, relation), {p.span})
  {
    hide Kept, Admit, Grows, Follows, Stamped, Faithful, Held, Sequenced;
    FinishKept(p, h, t, Link(source, relation));
    var r := EffectFinish(p, s, h, t, source, relation);
    if r.0.failed.None? {
      FinishIsShown(p, s, h.log, r.1.log, |h.log|);
    }
    MovedKept(p, h, r.1, r.0, {p.span});
  }

  /** A finish appended to the log explains the record that called for it. */
  lemma FinishIsShown(p: Producer, s: EffectState, log: seq<Event>, log': seq<Event>, k: nat)
    requires Logged(p, s, log) && !s.finishAttempted && log <= log' && |log'| == k + 1
    requires FinishShape(log', p, s, k)
    requires |log| == k || (|log| + 1 == k && log'[k].body.terminal == COMPLETED)
    ensures Logged(p, s.(finishAttempted := true), log')
  {
    assert FinishShape(log', p, s.(finishAttempted := true), k);
    forall j | ConsumedAt(log', j, p.id) ensures j == k - 1 && |log| + 1 == k {
      if j < |log| { assert ConsumedAt(log, j, p.id); }
    }
  }

  lemma ConsumeKept(p: Producer, s: EffectState, h: Stream)
    requires Ready(p, s, h) && s.returned.Some? && Explains(s, COMPLETED)
    ensures Kept(p, h, ConsumeAndFinish(p, s, h), {p.span})
  {
    hide Kept, Admit, Grows, Follows, Stamped, Faithful, Held, Sequenced;
    var r, link := ConsumeAndFinish(p, s, h), Link(s.returned.value, Handoff);
    InstantKept(p, h, EffectConsumed, link);
    var a := Admit(h, Note(p.scope, EffectConsumed, p.span, [link]));
    if a.sequence.Some? {
      var link2 := Link(a.sequence.value, FollowsFrom);
      FinishKept(p, a.stream, COMPLETED, link2);
      Chain(h, a.stream, Admit(a.stream, Finish(p.scope, p.span, COMPLETED, [link2])).stream, EffectOwner(p.id), {}, {p.span});
      if r.0.failed.None? {
        FinishIsShown(p, s, h.log, r.1.log, |h.log| + 1);
      }
    } else {
      ContinuesMore(h, r.1, {}, {p.span});
    }
    MovedKept(p, h, r.1, r.0, {p.span});
  }

  lemma NotedLogged(p: Producer, s: EffectState, s': EffectState, log: seq<Event>, log': seq<Event>)
    requires Logged(p, s, log) && !s.finishAttempted && !s'.finishAttempted
    requires log <= log' && forall j :: |log| <= j < |log'| ==> !ConsumedAt(log', j, p.id)
    requires s'.created == s.created ||
             (s'.created.Some? && NoteAt(log', p, s'.created.value, EffectCreated, Link(p.span, FollowsFrom)) && s.returned.None?)
    requires s'.returned == s.returned ||
             (s'.returned.Some? && s'.created.Some? && s'.created.value < s'.returned.value
              && NoteAt(log', p, s'.returned.value, EffectReturned, Link(s'.created.value, Return)))
    ensures Logged(p, s', log')
  {
    forall j | ConsumedAt(log', j, p.id) ensures false {
      assert j < |log|;
      assert ConsumedAt(log, j, p.id);
    }
  }

  lemma CreatedKept(p: Producer, s: EffectState, h: Stream)
    requires Inv(p, s, h)
    ensures Kept(p, h, Created(p, s, h), {})
  {
    hide Kept, Admit, Grows, Follows, Stamped, Faithful, Sequenced, Logged;
    var r := Created(p, s, h);
    if s.failed.Some? || s.finishAttempted || s.created.Some? || s.constructionFinished {
      StoppedKept(p, s, h, r.0);
    } else {
      SpanKnown(h, p.span);
      InstantKept(p, h, EffectCreated, Link(p.span, FollowsFrom));
      if r.0.failed.None? { NotedLogged(p, s, r.0, h.log, r.1.log); }
      MovedKept(p, h, r.1, r.0, {});
    }
  }

  lemma ReturnedKept(p: Producer, s: EffectState, h: Stream)
    requires Inv(p, s, h)
    ensures Kept(p, h, Returned(p, s, h), {})
  {
    hide Kept, Admit, Grows, Follows, Stamped, Faithful, Held, Sequenced;
    var r := Returned(p, s, h);
    if s.failed.Some? || s.finishAttempted || s.returned.Some? || s.created.None?
       || !s.constructionFinished || s.ownerTerminal.Some? {
      StoppedKept(p, s, h, r.0);
    } else {
      InstantKept(p, h, EffectReturned, Link(s.created.value, Return));
      if r.0.failed.None? { NotedLogged(p, s, r.0, h.log, r.1.log); }
      MovedKept(p, h, r.1, r.0, {});
    }
  }

  lemma ConstructionFinishedKept(p: Producer, s: EffectState, h: Stream, error: Option<BuildError>)
    requires Inv(p, s, h)
    ensures Kept(p, h, ConstructionFinished(p, s, h, error), Closes(p, s, OpConstructionFinished(error)))
  {
    hide Kept, Grows, Follows, Stamped, Faithful, Sequenced, EffectFinish;
    var r, s1 := ConstructionFinished(p, s, h, error), s.(constructionFinished := true, raised := error);
    if s.failed.Some? || s.finishAttempted || s.constructionFinished {
      StoppedKept(p, s, h, r.0);
    } else if error.None? {
      NotedLogged(p, s, s1, h.log, h.log);
      StoppedKept(p, s, h, r.0);
    } else {
      NotedLogged(p, s, s1, h.log, h.log);
      SpanKnown(h, p.span);
      var source := if s.created.Some? then s.created.value else p.span;
      EffectFinishKept(p, s1, h, if error.value.BuildCancelled? then CONSTRUCTION_CANCELLED else CONSTRUCTION_FAILED,
                       source, FollowsFrom);
    }
  }

  lemma OwnerTerminalKept(p: Producer, s: EffectState, h: Stream, outcome: CueOutcome, source: nat)
    requires Inv(p, s, h) && Known(h, source)
    ensures Kept(p, h, OwnerTerminal(p, s, h, outcome, source), Closes(p, s, OpOwnerTerminal(outcome, source)))
  {
    hide Kept, Grows, Follows, Stamped, Faithful, Held, Sequenced, EffectFinish, ConsumeAndFinish;
    var r, s1 := OwnerTerminal(p, s, h, outcome, source), s.(ownerTerminal := Some(outcome));
    if s.failed.Some? || s.finishAttempted || s.ownerTerminal.Some? {
      StoppedKept(p, s, h, r.0);
      return;
    }
    NotedLogged(p, s, s1, h.log, h.log);
    match outcome
    case CueCompleted =>
      if s.returned.None? {
        EffectFinishKept(p, s1, h, NOT_RETURNED, source, Return);
      } else if s.callerOutcome == Some(Consumed) {
        ConsumeKept(p, s1, h);
      } else if s.callerOutcome.Some? || s.cleared {
        assert s.callerOutcome.Some? ==> s.callerOutcome.value.Abandoned?;
        EffectFinishKept(p, s1, h, CONSUMER_ABANDONED, s.returned.value, Handoff);
      } else {
        StoppedKept(p, s, h, r.0);
      }
    case CueCancelled => EffectFinishKept(p, s1, h, OWNER_CANCELLED, source, Handoff);
    case CueFailed => EffectFinishKept(p, s1, h, OWNER_FAILED, source, Return);
    case CueCleanupFailed => EffectFinishKept(p, s1, h, OWNER_CLEANUP_FAILED, source, Handoff);
  }

  lemma CallerFinishedKept(p: Producer, s: EffectState, h: Stream, outcome: CallerOutcome)
    requires Inv(p, s, h)
    ensures Kept(p, h, CallerFinished(p, s, h, outcome), Closes(p, s, OpCallerFinished(outcome)))
  {
    hide Kept, Grows, Follows, Stamped, Faithful, Held, Sequenced, EffectFinish, ConsumeAndFinish;
    var r, s1 := CallerFinished(p, s, h, outcome), s.(callerOutcome := Some(outcome));
    if s.failed.Some? || s.finishAttempted || s.callerOutcome.Some? {
      StoppedKept(p, s, h, r.0);
      return;
    }
    NotedLogged(p, s, s1, h.log, h.log);
    if s.ownerTerminal.None? {
      StoppedKept(p, s, h, r.0);
    } else if outcome.Consumed? {
      ConsumeKept(p, s1, h);
    } else {
      EffectFinishKept(p, s1, h, CONSUMER_ABANDONED, s.returned.value, Handoff);
    }
  }

  lemma ClearedKept(p: Producer, s: EffectState, h: Stream)
    requires Inv(p, s, h)
    ensures Kept(p, h, Cleared(p, s, h), Closes(p, s, OpCleared))
  {
    hide Kept, Grows, Follows, Stamped, Faithful, Held, Sequenced, EffectFinish;
    var r, s1 := Cleared(p, s, h), s.(cleared := true);
    if s.failed.Some? || s.finishAttempted || s.cleared {
      StoppedKept(p, s, h, r.0);
      return;
    }
    NotedLogged(p, s, s1, h.log, h.log);
    if s.ownerTerminal.None? {
      StoppedKept(p, s, h, r.0);
    } else {
      EffectFinishKept(p, s1, h, CONSUMER_ABANDONED, s.returned.value, Handoff);
    }
  }

  /** Every hook of an effect keeps its invariant, whatever the hub answers. */
  lemma ApplyKept(p: Producer, s: EffectState, h: Stream, op: Op)
    requires Inv(p, s, h) && (op.OpOwnerTerminal? ==> Known(h, op.source))
    ensures Kept(p, h, Apply(p, s, h, op), Closes(p, s, op))
  {
    hide Kept, Inv, Created, ConstructionFinished, Returned, OwnerTerminal, CallerFinished, Cleared;
    match op
    case OpCreated => CreatedKept(p, s, h);
    case OpConstructionFinished(error) => ConstructionFinishedKept(p, s, h, error);
    case OpReturned => ReturnedKept(p, s, h);
    case OpOwnerTerminal(outcome, source) => OwnerTerminalKept(p, s, h, outcome, source);
    case OpCallerFinished(outcome) => CallerFinishedKept(p, s, h, outcome);
    case OpCleared => ClearedKept(p, s, h);
  }

  /** Nobody else's step disturbs an effect. */
  lemma StepElsewhere(p: Producer, s: EffectState, h: Stream, h': Stream, other: Owner)
    requires Inv(p, s, h) && Grows(h, h', other) && other != EffectOwner(p.id) && Sequenced(h')
    ensures Inv(p, s, h')
  {
    hide KeepsSpans, AddsSpans, FinishesOwn, Held, Owns, Sequenced;
    if s.failed.None? {
      HeldElsewhere(h, h', other, p.span, p.scope, Some(p.scene), !s.finishAttempted);
      OwnsElsewhere(h, h', other, EffectOwner(p.id), {p.span});
      forall j | ConsumedAt(h'.log, j, p.id) ensures ConsumedAt(h.log, j, p.id) {
        assert |h.log| <= j ==> SignatureAllowed(h'.log[j], other);
      }
      if s.finishAttempted {
        var k :| FinishShape(h.log, p, s, k);
        assert FinishShape(h'.log, p, s, k);
      }
    }
  }

  /** The faults a run can end in: never a consumption without a return, never a second finish. */
  predicate Sane(s: EffectState) {
    && s.failed != Some(EffectStateFailed(ConsumedWithoutReturn))
    && s.failed != Some(EffectStateFailed(FinishTransitionInvalid))
  }

  lemma ApplySane(p: Producer, s: EffectState, h: Stream, op: Op)
    requires Sane(s) && (s.failed.None? ==> Shape(s))
    ensures Sane(Apply(p, s, h, op).0)
  {
    hide Admit;
  }

  // ----- Order of owner and caller -----

  /** Whether the order of the two hooks shows: the effect was cleared and returned, its cue
      completed, and the caller claims to have consumed it. */
  predicate OrderShows(s: EffectState, outcome: CueOutcome, caller: CallerOutcome) {
    s.cleared && s.returned.Some? && outcome.CueCompleted? && caller.Consumed?
  }

  /** Owner terminal and caller exit commute: same events, same finish, same record but for the
      caller outcome that a finished record no longer takes. */
  lemma OwnerCallerCommute(p: Producer, s: EffectState, h: Stream, outcome: CueOutcome, source: nat, caller: CallerOutcome)
    requires s.failed.None? && !s.finishAttempted && s.ownerTerminal.None? && s.callerOutcome.None?
    requires !OrderShows(s, outcome, caller)
    ensures var o := OwnerTerminal(p, s, h, outcome, source);
            var oc := CallerFinished(p, o.0, o.1, caller);
            var c := CallerFinished(p, s, h, caller);
            var co := OwnerTerminal(p, c.0, c.1, outcome, source);
            oc.1 == co.1 && oc.0.(callerOutcome := Some(caller)) == co.0
  {
    hide Admit;
  }

  /** In the excluded case the two orders end differently exactly when the hub can take an event, that
      is, given the reservation and a stamp not before the effect's start: one abandons the effect,
      the other starts to consume it. */
  lemma ClearedOrderShows(p: Producer, s: EffectState, h: Stream, outcome: CueOutcome, source: nat, caller: CallerOutcome)
    requires Inv(p, s, h)
    requires s.failed.None? && !s.finishAttempted && s.ownerTerminal.None? && s.callerOutcome.None?
    requires OrderShows(s, outcome, caller)
    ensures var o := OwnerTerminal(p, s, h, outcome, source);
            var oc := CallerFinished(p, o.0, o.1, caller);
            var c := CallerFinished(p, s, h, caller);
            var co := OwnerTerminal(p, c.0, c.1, outcome, source);
            oc.1.log == co.1.log <==> !(Reserved(h) && Begun(h, p.span, Stamp(h)))
  {
    hide Held, Faithful, Sequenced, Grows, Proper, RefusalCode;
    var link := Link(s.returned.value, Handoff);
    var c1, c2 := Finish(p.scope, p.span, CONSUMER_ABANDONED, [link]), Note(p.scope, EffectConsumed, p.span, [link]);
    NoteSound(p, h, link, EffectConsumed);
    ReferencedTakenIff(h, c2);
    FinishReferenced(p, h, CONSUMER_ABANDONED, link);
    ReferencedTakenIff(h, c1);
    assert InTime(h, c1) ==> Begun(h, p.span, Stamp(h));
    AdmitCases(h, c1);
    AdmitCases(h, c2);
    hide Sound, Admit;
    var a := Admit(h, c2);
    if a.sequence.Some? {
      var c3 := Finish(p.scope, p.span, COMPLETED, Caused(a.sequence.value, FollowsFrom));
      AdmitCases(a.stream, c3);
      assert Admit(a.stream, c3).stream.log[|h.log|] == Materialize(h, c2);
      assert Admit(h, c1).sequence.Some? ==> Admit(h, c1).stream.log[|h.log|] == Materialize(h, c1);
    }
  }

  lemma NoteSound(p: Producer, h: Stream, link: Link, kind: InstantKind)
    requires Placed(p, h, true) && Known(h, link.source)
    ensures Sound(h, Note(p.scope, kind, p.span, [link]))
  {
  }

  /** Read off the log: a finish is a completed one exactly when a consumption directly precedes
      it, and then that consumption is the only one and is chained back to return and creation. */
  lemma CompletedIffConsumed(p: Producer, s: EffectState, h: Stream, k: int)
    requires Inv(p, s, h) && s.failed.None? && Mirrors(h.index, h.log) && ValidStream(h.log)
    requires FinishesAt(h.log, k, p.span)
    ensures h.log[k].body.terminal.outcome == Completed <==> ConsumedAt(h.log, k - 1, p.id)
    ensures ConsumedAt(h.log, k - 1, p.id) ==>
              && s.returned.Some? && s.created.Some?
              && p.span <= s.created.value < s.returned.value < k
              && NoteAt(h.log, p, k, EffectConsumed, Link(s.returned.value, Handoff))
              && NoteAt(h.log, p, s.returned.value, EffectReturned, Link(s.created.value, Return))
              && NoteAt(h.log, p, s.created.value, EffectCreated, Link(p.span, FollowsFrom))
              && forall j :: ConsumedAt(h.log, j, p.id) ==> j == k - 1
  {
    hide Held, ValidStream, Mirrors;
    OneFinish(h.log, p.span, k);
    OpenOnLog(h, p.span, p.scope, Some(p.scene), !s.finishAttempted);
    assert FinishShape(h.log, p, s, k);
    if ConsumedAt(h.log, k - 1, p.id) {
      CauseIsEarlier(h.log, s.created.value);
      CauseIsEarlier(h.log, k);
    }
  }

  lemma OneFinish(log: seq<Event>, span: nat, k: int)
    requires ValidStream(log) && FinishesAt(log, k, span)
    ensures forall j :: FinishesAt(log, j, span) ==> j == k
  {
    forall j | FinishesAt(log, j, span) ensures j == k {
      if j < k { FinishedOnce(log, j, k); }
      if k < j { FinishedOnce(log, k, j); }
    }
  }

  lemma CauseIsEarlier(log: seq<Event>, sequence: nat)
    requires ValidStream(log) && 1 <= sequence <= |log| && |log[sequence - 1].causes| == 1
    ensures log[sequence - 1].causes[0].source < log[sequence - 1].sequence
  {
    assert LinkAdmissible(log[..sequence - 1], log[sequence - 1], log[sequence - 1].causes[0]);
  }
}
