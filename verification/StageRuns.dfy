/** What holds of every run of acts, cues, effects and foreign producers on one stream. */
module StageRuns {
  import opened Events
  import opened Validator
  import opened Hub
  import opened Offers
  import opened Stage
  import A = Act
  import AR = ActRun
  import E = Effect
  import EP = EffectProofs
  import C = Cue
  import CA = CueAnswers
  import CP = CueProofs
  import CV = CueView
  import AM = ActMarks
  import AL = ActClosings

  ghost function NewStage(run: nat, fate: nat -> bool, stamps: nat -> nat): Stage {
    Stage(NewStream(run, fate, stamps), false, map[], map[], map[])
  }

  function Run(w: Stage, ops: seq<StageOp>): Stage
    decreases |ops|
  {
    if ops == [] then w else Run(Step(w, ops[0]), ops[1..])
  }

  ghost predicate RunOk(w: Stage, ops: seq<StageOp>)
    decreases |ops|
  {
    ops == [] || (OpOk(w, ops[0]) && RunOk(Step(w, ops[0]), ops[1..]))
  }

  /** The observers' side of the bargain: whoever opened spans under a span of an act, a cue or an
      effect has finished them when the hook comes that is to close that span. */
  ghost predicate RunClear(w: Stage, ops: seq<StageOp>)
    decreases |ops|
  {
    ops == [] || (OpClear(w, ops[0]) && RunClear(Step(w, ops[0]), ops[1..]))
  }

  /** The stamps' side: the candidates of an act, a cue or an effect carry stamps not older than what
      is on record when they reach the hub. The stamps of other producers are free. */
  ghost predicate RunStamped(w: Stage, ops: seq<StageOp>)
    decreases |ops|
  {
    ops == [] || (OpStamped(w, ops[0]) && RunStamped(Step(w, ops[0]), ops[1..]))
  }

  ghost predicate OpStamped(w: Stage, op: StageOp) {
    op.Foreign? || Stamped(w.h, Step(w, op).h.attempts)
  }

  lemma ForeignQuiet(w: Stage, op: StageOp)
    ensures op.Foreign? ==> Step(w, op).h.refusal == w.h.refusal
  {
    hide Admit;
  }

  lemma {:induction false} RunKept(w: Stage, ops: seq<StageOp>)
    requires Inv(w) && RunOk(w, ops)
    ensures Inv(Run(w, ops)) && Extends(w.h, Run(w, ops).h)
    ensures RunStamped(w, ops) && RunClear(w, ops) ==> Run(w, ops).h.refusal == w.h.refusal
    decreases |ops|
  {
    hide Inv, Step, OpOk, Sequenced, Stamped, KeepsCurrent, Faithful, AllClear;
    if ops == [] {
      StaysKept(w);
      hide Accepts, KeepsClear;
      assert Kept(w, w, {});
    } else {
      StepKept(w, ops[0]);
      ForeignQuiet(w, ops[0]);
      var w1 := Step(w, ops[0]);
      RunKept(w1, ops[1..]);
      CurrentTransitive(w.h, w1.h, Run(w1, ops[1..]).h);
    }
  }

  lemma NewStageInv(run: nat, fate: nat -> bool, stamps: nat -> nat)
    ensures var w := NewStage(run, fate, stamps);
            Inv(w) && Faithful(w.h)
  {
  }

  /** Log well-formedness over every interleaving, every pattern of admission failures and every
      choice of stamps: the log is always a valid stream, every producer's invariant holds, and
      every candidate of an act, a cue or an effect was proper, so that the validator could object
      to nothing but nesting. Nor did it object to that, as long as their stamps were not older
      than what was on record and observers finished what they opened in time. */
  lemma LogAlwaysValid(run: nat, fate: nat -> bool, stamps: nat -> nat, ops: seq<StageOp>)
    requires RunOk(NewStage(run, fate, stamps), ops)
    ensures var w := Run(NewStage(run, fate, stamps), ops);
            && Inv(w) && Faithful(w.h) && ValidStream(w.h.log)
            && !w.h.strayed && OnlyNesting(w.h.refusal)
            && (RunStamped(NewStage(run, fate, stamps), ops) && RunClear(NewStage(run, fate, stamps), ops) ==>
                  w.h.refusal == None)
  {
    hide Inv, Run, RunOk, RunClear, RunStamped, Mirrors, ValidStream, Sequenced, KeepsCurrent;
    NewStageInv(run, fate, stamps);
    RunKept(NewStage(run, fate, stamps), ops);
  }

  /** What a reader of the log sees of an effect whose cue has ended in good health, as long as
      nothing failed: one finish that the record explains, or none yet and a returned effect of a
      completed cue that still waits for its caller or its clearing. */
  lemma CueEffectsSettled(w: Stage, i: nat)
    requires Inv(w) && Faithful(w.h) && !w.latched
    requires i in w.effects && EndedWell(w, w.effects[i].producer.owner)
    ensures var e := w.effects[i];
            if e.listed
            then EP.Waiting(e.state) && forall k :: !FinishesAt(w.h.log, k, e.producer.span)
            else exists k ::
                   && EP.FinishShape(w.h.log, e.producer, e.state, k)
                   && forall j :: FinishesAt(w.h.log, j, e.producer.span) ==> j == k
  {
    hide ActsOk, CuesOk, Fresh, Sequenced, Mirrors, ValidStream, Held, EP.FinishShape, EP.NoteAt, EP.ConsumedAt;
    var e := w.effects[i];
    assert EffectOk(e, i, w);
    if e.listed {
      OpenOnLog(w.h, e.producer.span, e.producer.scope, Some(e.producer.scene), true);
    } else {
      var k :| EP.FinishShape(w.h.log, e.producer, e.state, k);
      ShapeFinishes(w.h.log, e.producer, e.state, k);
      EP.OneFinish(w.h.log, e.producer.span, k);
    }
  }

  lemma ShapeFinishes(log: seq<Event>, p: E.Producer, s: E.EffectState, k: int)
    requires EP.FinishShape(log, p, s, k)
    ensures FinishesAt(log, k, p.span)
  {
  }

  /** The log tells the phase of a healthy cue. When it has ended all its spans are closed and its
      last active sample is 0, and its last span ended as its outcome demands; until then exactly the
      span of its phase is open and the sample is 1. */
  lemma CueOnLog(w: Stage, i: nat)
    requires Inv(w) && i in w.cues && w.cues[i].state.failed.None?
    ensures var s := w.cues[i].state;
            && CV.Viewed(w.cues[i].producer, s, w.h.log)
            && (s.phase.Ended? ==> s.outcome.Some? && CV.EndedAs(CV.ViewOn(w.h.log, CueOwner(i)), w.h.log, s.outcome.value))
            && LastSample(w.h.log, CueActive, CueOwner(i)) == CP.ActiveSample(s.phase)
            && (forall x :: x in w.h.index.spans && RecordOwner(w.h.index.spans[x]) == CueOwner(i) ==>
                 (w.h.index.spans[x].finishedAt.None? <==> C.OpenSpan(s.phase) == Some(x)))
            && (C.OpenSpan(s.phase).Some? ==> IsOpen(w.h, C.OpenSpan(s.phase).value))
  {
    hide ActsOk, EffectsOk, Fresh, Told, Sequenced, LastSample, CV.ViewOn, CV.EndedAs;
    assert CueOk(w.cues[i], i, w);
  }

  /** The join of every act of every run, its counter, its milestones with their causes, and the
      finishes of its spans with theirs. */
  lemma ActsJoin(w: Stage, i: nat)
    requires Inv(w) && Faithful(w.h) && i in w.acts && w.acts[i].state.failed.None?
    ensures var s := w.acts[i].state;
            && s.actSpan.Some? && s.callerSpan.Some?
            && ((exists k :: FinishesAt(w.h.log, k, s.actSpan.value)) <==>
                (s.callerTerminal.Some? && s.settlement.Some? && s.usageAck.Some?))
            && (forall k :: FinishesAt(w.h.log, k, s.actSpan.value) ==>
                 && s.callerTerminal.Some?
                 && AR.EndsAsJoined(w.h.log[k].body.terminal, s.callerTerminal.value, A.Remote(s)))
            && AL.Closings(w.acts[i].producer, s, w.h.log)
            && LastSample(w.h.log, AgentTurnActive, ActOwner(i)) == AR.TurnSample(s)
            && AM.MarksOn(w.h.log, ActOwner(i)) == AM.MarksOf(s)
  {
    hide CuesOk, EffectsOk, Fresh, Told, Sequenced, LastSample, Mirrors, ValidStream, Held, AM.MarksOn, AM.MarksOf, AL.EndingOn;
    AR.JoinOnLog(w.acts[i], w.h);
  }

  // ----- When an effect starts -----

  /** An effect starts exactly under a registered cue that is dispatched, in a run that has not failed,
      and only if its span is taken, which is when it is reserved and not stamped before the scene;
      otherwise nothing changes, but for the failure that a turned away span is. */
  lemma StartEffectIff(w: Stage, id: nat, owner: nat)
    requires Inv(w) && id !in w.effects
    ensures var w' := Step(w, StartEffect(id, owner));
            if owner in w.cues && w.cues[owner].listed && w.cues[owner].state.phase.Dispatched? && !w.latched then
              var cue := w.cues[owner].producer;
              var scope, cause := cue.scope.(effect := Some(id)), w.cues[owner].state.phase.executionSpan;
              var (h, taken) := Offer(w.h, [Start(scope, EffectLifecycle, Some(cue.scene), Caused(cause, FollowsFrom))]);
              && (taken <==> Reserved(w.h) && Begun(w.h, cue.scene, Stamp(w.h)))
              && w' == if taken
                       then w.(h := h, effects := w.effects[id := EffectEntry(E.Producer(id, owner, scope, |w.h.log| + 1, cue.scene),
                                                                               E.CONSTRUCTING, true, false)])
                       else w.(h := h, latched := true)
            else w' == w
  {
    hide Inv, Admit, Offer, Reserved, Begun;
    if MayStart(w, owner) && !w.latched {
      var cue := w.cues[owner].producer;
      var scope, cause := cue.scope.(effect := Some(id)), w.cues[owner].state.phase.executionSpan;
      var c := Start(scope, EffectLifecycle, Some(cue.scene), Caused(cause, FollowsFrom));
      LineageOpen(w, owner, id);
      SpanKnown(w.h, cause);
      OfferOne(w.h, c);
      EffectStartIff(w.h, c, cue.scene);
    }
  }

  lemma EffectStartIff(h: Stream, c: Candidate, scene: nat)
    requires Sequenced(h) && c.body == SpanStarted(Some(EffectLifecycle), Some(scene)) && |c.causes| == 1
    requires Known(h, c.causes[0].source) && Encloses(h, scene, c.scope) && !HasUnknownSentinel(c.scope)
    ensures Admit(h, c).sequence.Some? <==> Reserved(h) && Begun(h, scene, Stamp(h))
  {
    hide Admit, Sequenced;
    ReferencedTakenIff(h, c);
  }

  /** The registries' side: a hook of an unregistered effect is lost, and the first one under a
      dispatched cue is a failure; a registered one is applied and leaves the registry with the
      effect's end; and a cue whose effects have heard of its caller's exit hears of it as well. */
  lemma RegistriesAnswer(w: Stage, id: nat, owner: nat, hook: E.Op, caller: E.CallerOutcome, order: seq<nat>)
    ensures !(id in w.effects && w.effects[id].listed) ==>
              Step(w, EffectHook(id, owner, hook)) ==
              if hook.OpCreated? && owner in w.cues && w.cues[owner].listed && w.cues[owner].state.phase.Dispatched?
              then w.(latched := true) else w
    ensures id in w.effects && w.effects[id].listed ==>
              var (s, h) := E.Apply(w.effects[id].producer, w.effects[id].state, w.h, hook);
              Step(w, EffectHook(id, owner, hook)) ==
              w.(h := h, latched := w.latched || s.failed.Some?,
                 effects := w.effects[id := w.effects[id].(state := s, listed := !s.finishAttempted)])
    ensures var w', told := Step(w, CueCaller(id, caller, order)), FanOut(w, order, E.OpCallerFinished(caller));
            if !(id in w.cues && w.cues[id].listed) then w' == told
            else
              && w' == told.(cues := w'.cues, latched := w'.latched) && id in w'.cues && w'.cues == w.cues[id := w'.cues[id]]
              && w'.cues[id] == w.cues[id].(state := w'.cues[id].state) && CA.CallerAnswer(w.cues[id].state, w'.cues[id].state)
              && w'.latched == (told.latched || w'.cues[id].state.failed.Some?)
  {
    hide E.Apply;
    CallerHeard(w, id, caller, order);
  }

  lemma CallerHeard(w: Stage, id: nat, caller: E.CallerOutcome, order: seq<nat>)
    ensures var told := FanOut(w, order, E.OpCallerFinished(caller)); told.cues == w.cues
    ensures id in w.cues ==> CA.CallerAnswer(w.cues[id].state, C.FinishCueCaller(w.cues[id].state))
  {
    if id in w.cues { CA.CallerAnswered(w.cues[id].state); }
  }

  // ----- No effect starts once its cue has heard its end -----

  /** The cue shows no lineage any more, or the run has failed. */
  predicate Closed(w: Stage, cue: nat) {
    cue in w.cues && (w.latched || w.cues[cue].state.phase.Ended? || !w.cues[cue].listed)
  }

  /** Every terminal hook closes its cue to new effects, whatever the hub answered; a cue it ends in
      good health has the outcome it was told. */
  lemma TerminalCloses(w: Stage, id: nat, outcome: E.CueOutcome, hasError: bool, actorGone: bool, order: seq<nat>)
    requires id in w.cues
    ensures Closed(Step(w, CueTerminal(id, outcome, hasError, actorGone, order)), id)
    ensures var w' := Step(w, CueTerminal(id, outcome, hasError, actorGone, order));
            EndedWell(w', id) && !EndedWell(w, id) ==> w'.cues[id].state.outcome == Some(outcome)
  {
    hide FanOut, C.CloseCue;
    if CueListed(w, id) {
      var s, plan := w.cues[id].state, C.PlanTerminal(w.cues[id].state, outcome, hasError);
      if plan.Proceed? {
        CloseEnds(w.cues[id].producer, s, FanOut(w, order, E.OpOwnerTerminal(outcome, plan.cause)).h, outcome, plan);
      }
    }
  }

  lemma CloseEnds(p: C.CueProducer, s: C.CueState, h: Stream, outcome: E.CueOutcome, plan: C.Plan)
    requires plan.Proceed?
    ensures var s' := C.CloseCue(p, s, h, outcome, plan).0;
            s'.failed.Some? || (s'.phase.Ended? && s'.outcome == Some(outcome))
  {
    hide Admit;
  }

  lemma {:induction false} FanOutLatches(w: Stage, order: seq<nat>, op: E.Op)
    ensures w.latched ==> FanOut(w, order, op).latched
    ensures FanOut(w, order, op).effects.Keys == w.effects.Keys
    ensures forall e :: e in w.effects ==> FanOut(w, order, op).effects[e].producer == w.effects[e].producer
    decreases |order|
  {
    hide E.Apply;
    if order != [] { FanOutLatches(EffectStep(w, order[0], op), order[1..], op); }
  }

  /** Effects keep their owner, and none of them is new to the cue. */
  ghost predicate NoNewEffect(w: Stage, w': Stage, cue: nat) {
    && (forall e :: e in w.effects ==> e in w'.effects && w'.effects[e].producer == w.effects[e].producer)
    && (forall e :: e in w'.effects && w'.effects[e].producer.owner == cue ==> e in w.effects)
  }

  /** Once closed, a cue stays closed and gains no effect, whatever happens next. */
  lemma ClosedStays(w: Stage, op: StageOp, cue: nat)
    requires Closed(w, cue) && OpOk(w, op)
    ensures Closed(Step(w, op), cue) && NoNewEffect(w, Step(w, op), cue)
  {
    hide Admit, FanOut, TerminalStep, E.Apply, A.Step, A.StartAct, Enumerates, ForeignOk;
    match op
    case CueCaller(_, caller, order) => FanOutLatches(w, order, E.OpCallerFinished(caller));
    case CueTerminal(id, outcome, hasError, actorGone, order) =>
      if CueListed(w, id) { TerminalStays(w, id, outcome, hasError, actorGone, order, cue); }
    case CueEnqueue(_, _, _) => CueHooksStay(w, op, cue);
    case CueRetire(_, _, _) => CueHooksStay(w, op, cue);
    case CueDispatch(_) => CueHooksStay(w, op, cue);
    case CueCancel(_) => CueHooksStay(w, op, cue);
    case StartEffect(id, owner) => StartEffectStays(w, id, owner, cue);
    case _ =>
  }

  lemma StartEffectStays(w: Stage, id: nat, owner: nat, cue: nat)
    requires Closed(w, cue) && id !in w.effects
    ensures Closed(StartEffectStep(w, id, owner), cue) && NoNewEffect(w, StartEffectStep(w, id, owner), cue)
  {
    hide Admit;
  }

  lemma CueHooksStay(w: Stage, op: StageOp, cue: nat)
    requires Closed(w, cue) && (op.CueEnqueue? || op.CueDispatch? || op.CueCancel? || op.CueRetire?)
    ensures Closed(Step(w, op), cue) && NoNewEffect(w, Step(w, op), cue)
  {
    hide C.EnqueueCue, C.DispatchCue, C.CancelCue, C.RetireCue;
    match op
    case CueEnqueue(id, queued, running) => HooksStay(w, id, queued, running);
    case CueRetire(id, queued, running) => HooksStay(w, id, queued, running);
    case CueDispatch(id) => HooksStay(w, id, 0, true);
    case CueCancel(id) => HooksStay(w, id, 0, true);
  }

  lemma HooksStay(w: Stage, id: nat, queued: nat, running: bool)
    ensures id in w.cues && w.cues[id].state.phase.Ended? ==>
              var p, s := w.cues[id].producer, w.cues[id].state;
              && C.EnqueueCue(p, s, w.h, queued, running).0.phase.Ended?
              && C.DispatchCue(p, s, w.h).0.phase.Ended? && C.CancelCue(p, s, w.h).0.phase.Ended?
              && C.RetireCue(p, s, w.h, queued, running).0.phase.Ended?
  {
    if id in w.cues { QuietHooks(w.cues[id].producer, w.cues[id].state, w.h, queued, running); }
  }

  lemma TerminalStays(w: Stage, id: nat, outcome: E.CueOutcome, hasError: bool, actorGone: bool, order: seq<nat>, cue: nat)
    requires Closed(w, cue) && CueListed(w, id)
    ensures var w' := TerminalStep(w, id, outcome, hasError, actorGone, order);
            Closed(w', cue) && NoNewEffect(w, w', cue)
  {
    hide Admit, FanOut, E.Apply;
    var plan := C.PlanTerminal(w.cues[id].state, outcome, hasError);
    if plan.Proceed? { FanOutLatches(w, order, E.OpOwnerTerminal(outcome, plan.cause)); }
  }

  lemma {:induction false} NoEffectAfterTerminal(w: Stage, ops: seq<StageOp>, cue: nat)
    requires Closed(w, cue) && RunOk(w, ops)
    ensures Closed(Run(w, ops), cue) && NoNewEffect(w, Run(w, ops), cue)
    decreases |ops|
  {
    hide Step, OpOk, Closed;
    if ops != [] {
      ClosedStays(w, ops[0], cue);
      NoEffectAfterTerminal(Step(w, ops[0]), ops[1..], cue);
    }
  }
}
