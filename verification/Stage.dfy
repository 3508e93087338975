/** Acts, cues and effects on one stream, in any interleaving, beside any other producer. Each
    hook is one step; whatever the hub answers, the steps keep the invariant of every producer. */
module Stage {
  import opened Events
  import opened Validator
  import opened Hub
  import A = Act
  import AR = ActRun
  import AP = ActProofs
  import E = Effect
  import EP = EffectProofs
  import C = Cue
  import CP = CueProofs
  import CV = CueView

  datatype CueEntry = CueEntry(producer: C.CueProducer, state: C.CueState, listed: bool)

  /** `dropped` marks an effect whose construction came back with another identity. */
  datatype EffectEntry = EffectEntry(producer: E.Producer, state: E.EffectState, listed: bool, dropped: bool)

  /** `latched` is the run's first failure: from then on no effect starts. */
  datatype Stage = Stage(
    h: Stream,
    latched: bool,
    acts: map<nat, A.Act>,
    cues: map<nat, CueEntry>,
    effects: map<nat, EffectEntry>)

  datatype StageOp =
    | StartAct(act: A.Producer)
    | ActHook(id: nat, hook: A.Op)
    | StartCue(cue: C.CueProducer)
    | CueEnqueue(id: nat, queued: nat, running: bool)
    | CueDispatch(id: nat)
    | CueCancel(id: nat)
    | CueCaller(id: nat, caller: E.CallerOutcome, order: seq<nat>)
    | CueTerminal(id: nat, outcome: E.CueOutcome, hasError: bool, actorGone: bool, order: seq<nat>)
    | CueRetire(id: nat, queued: nat, running: bool)
    | StartEffect(id: nat, owner: nat)
    | EffectHook(id: nat, owner: nat, effectHook: E.Op)
    | EffectIdentityChanged(id: nat)
    | Foreign(candidate: Candidate, latches: bool)

  // ----- Steps -----

  function WithAct(w: Stage, id: nat, a: A.Act, h: Stream): Stage {
    w.(h := h, acts := w.acts[id := a], latched := w.latched || a.state.failed.Some?)
  }

  function WithCue(w: Stage, id: nat, c: CueEntry, h: Stream): Stage {
    w.(h := h, cues := w.cues[id := c], latched := w.latched || c.state.failed.Some?)
  }

  function WithEffect(w: Stage, id: nat, e: EffectEntry, h: Stream): Stage {
    w.(h := h, effects := w.effects[id := e], latched := w.latched || e.state.failed.Some?)
  }

  /** A hook on a cue that is not registered latches a failure and changes nothing else. */
  predicate CueListed(w: Stage, id: nat) {
    id in w.cues && w.cues[id].listed
  }

  function CueStep(w: Stage, id: nat, r: (C.CueState, Stream), listed: bool): Stage
    requires id in w.cues
  {
    WithCue(w, id, w.cues[id].(state := r.0, listed := listed), r.1)
  }

  predicate EffectListed(w: Stage, id: nat) {
    id in w.effects && w.effects[id].listed
  }

  /** A hook removes the effect from the registry when it reports the effect over. */
  function EffectStep(w: Stage, id: nat, op: E.Op): Stage {
    if !EffectListed(w, id) then w
    else
      var e := w.effects[id];
      var (s, h) := E.Apply(e.producer, e.state, w.h, op);
      WithEffect(w, id, e.(state := s, listed := !s.finishAttempted), h)
  }

  function FanOut(w: Stage, order: seq<nat>, op: E.Op): (r: Stage)
    ensures r.cues == w.cues && r.acts == w.acts
    decreases |order|
  {
    if order == [] then w else FanOut(EffectStep(w, order[0], op), order[1..], op)
  }

  function TerminalStep(w: Stage, id: nat, outcome: E.CueOutcome, hasError: bool, actorGone: bool, order: seq<nat>): Stage
    requires id in w.cues
  {
    var c := w.cues[id];
    var plan := C.PlanTerminal(c.state, outcome, hasError);
    if plan.Stop? then CueStep(w, id, (plan.state, w.h), !actorGone)
    else
      var told := FanOut(w, order, E.OpOwnerTerminal(outcome, plan.cause));
      CueStep(told, id, C.CloseCue(c.producer, c.state, told.h, outcome, plan), !actorGone)
  }

  /** The cue is dispatched: it has an execution span to show. */
  predicate MayStart(w: Stage, owner: nat) {
    CueListed(w, owner) && C.Lineage(w.cues[owner].state).Some?
  }

  /** An effect starts under a dispatched cue, unless the run has already failed. */
  function StartEffectStep(w: Stage, id: nat, owner: nat): Stage {
    if !MayStart(w, owner) || w.latched then w
    else
      var cue := w.cues[owner].producer;
      var scope := cue.scope.(effect := Some(id));
      var causes := Caused(C.Lineage(w.cues[owner].state).value, FollowsFrom);
      var a := Admit(w.h, Start(scope, EffectLifecycle, Some(cue.scene), causes));
      if a.sequence.None? then w.(h := a.stream, latched := true)
      else
        var p := E.Producer(id, owner, scope, a.sequence.value, cue.scene);
        WithEffect(w, id, EffectEntry(p, E.CONSTRUCTING, true, false), a.stream)
  }

  /** The tallies about candidates speak of acts, cues and effects alone: a foreign candidate that is
      refused or strays is not held against them. */
  function Aside(h': Stream, h: Stream): Stream {
    h'.(refusal := h.refusal, strayed := h.strayed)
  }

  function ForeignStep(w: Stage, c: Candidate, latches: bool): Stage {
    w.(h := Aside(Admit(w.h, c).stream, w.h), latched := w.latched || latches)
  }

  function Step(w: Stage, op: StageOp): Stage {
    match op
    case StartAct(p) =>
      var (s, h) := A.StartAct(p, A.PREPARED, w.h);
      WithAct(w, p.id, A.Act(p, s, A.InProducer), h)
    case ActHook(id, hook) =>
      if id !in w.acts then w
      else
        var (a, h) := A.Step(w.acts[id], w.h, hook);
        WithAct(w, id, a, h)
    case StartCue(p) =>
      var (s, h) := C.AdmitCue(p, C.FRESH, w.h);
      WithCue(w, p.id, CueEntry(p, s, true), h)
    case CueEnqueue(id, queued, running) =>
      if !CueListed(w, id) then w.(latched := true)
      else CueStep(w, id, C.EnqueueCue(w.cues[id].producer, w.cues[id].state, w.h, queued, running), true)
    case CueDispatch(id) =>
      if !CueListed(w, id) then w.(latched := true)
      else CueStep(w, id, C.DispatchCue(w.cues[id].producer, w.cues[id].state, w.h), true)
    case CueCancel(id) =>
      if !CueListed(w, id) then w.(latched := true)
      else CueStep(w, id, C.CancelCue(w.cues[id].producer, w.cues[id].state, w.h), true)
    case CueCaller(id, caller, order) =>
      var told := FanOut(w, order, E.OpCallerFinished(caller));
      if !CueListed(told, id) then told
      else CueStep(told, id, (C.FinishCueCaller(told.cues[id].state), told.h), true)
    case CueTerminal(id, outcome, hasError, actorGone, order) =>
      if !CueListed(w, id) then w.(latched := true)
      else TerminalStep(w, id, outcome, hasError, actorGone, order)
    case CueRetire(id, queued, running) =>
      if !CueListed(w, id) then w.(latched := true)
      else CueStep(w, id, C.RetireCue(w.cues[id].producer, w.cues[id].state, w.h, queued, running), false)
    case StartEffect(id, owner) => StartEffectStep(w, id, owner)
    case EffectHook(id, owner, hook) =>
      if !EffectListed(w, id) && hook.OpCreated? && MayStart(w, owner) then w.(latched := true)
      else EffectStep(w, id, hook)
    case EffectIdentityChanged(id) =>
      if !EffectListed(w, id) then w
      else w.(effects := w.effects[id := w.effects[id].(listed := false, dropped := true)], latched := true)
    case Foreign(c, latches) => ForeignStep(w, c, latches)
  }

  // ----- What callers and other producers promise -----

  /** The registered effects of a cue, in whatever order the registry yields them. */
  ghost predicate Enumerates(w: Stage, owner: nat, order: seq<nat>) {
    && (forall e :: e in order <==> EffectListed(w, e) && w.effects[e].producer.owner == owner)
    && Distinct(order)
  }

  predicate Distinct(order: seq<nat>) {
    forall i, j :: 0 <= i < j < |order| ==> order[i] != order[j]
  }

  /** Other producers leave the lifecycle spans, built-in instants and activity counters of acts, cues
      and effects to them, and no scene ends before its cues. They may open spans of their own, tool
      calls, thinking or custom, under any span and in any scope. */
  ghost predicate ForeignOk(w: Stage, c: Candidate) {
    && (Signed(c.body) ==> ScopeOwner(c.scope) == Outside)
    && (c.body.SpanFinished? ==>
          && (c.body.span in w.h.index.spans ==> RecordOwner(w.h.index.spans[c.body.span]) == Outside)
          && forall i :: i in w.cues && w.cues[i].state.failed.None? && !w.cues[i].state.phase.Ended? ==>
                           w.cues[i].producer.scene != c.body.span)
  }

  ghost predicate OpOk(w: Stage, op: StageOp) {
    match op
    case StartAct(p) => p.id !in w.acts && AP.ProducerOk(p)
    case ActHook(_, hook) => AR.OpOk(hook, w.h)
    case StartCue(p) => p.id !in w.cues && CP.ProducerOk(p) && CP.SceneOpen(p, w.h)
    case CueCaller(id, _, order) => Enumerates(w, id, order)
    case CueTerminal(id, _, _, _, order) => Enumerates(w, id, order)
    case StartEffect(id, _) => id !in w.effects
    case EffectHook(_, _, hook) => !hook.OpOwnerTerminal? && !hook.OpCallerFinished?
    case Foreign(c, _) => ForeignOk(w, c)
    case _ => true
  }

  // ----- The spans a step is to close -----

  function EffectCloses(w: Stage, id: nat, op: E.Op): set<nat> {
    if EffectListed(w, id) then EP.Closes(w.effects[id].producer, w.effects[id].state, op) else {}
  }

  function FanCloses(w: Stage, order: seq<nat>, op: E.Op): set<nat> {
    if order == [] then {} else EffectCloses(w, order[0], op) + FanCloses(w, order[1..], op)
  }

  function TerminalCloses(w: Stage, id: nat, outcome: E.CueOutcome, hasError: bool, order: seq<nat>): set<nat>
    requires id in w.cues
  {
    var s := w.cues[id].state;
    var plan := C.PlanTerminal(s, outcome, hasError);
    if plan.Stop? then {} else FanCloses(w, order, E.OpOwnerTerminal(outcome, plan.cause)) + CP.OpenSpans(s.phase)
  }

  /** Known before the step: the spans of acts, cues and effects it finishes if all goes well. */
  function OpCloses(w: Stage, op: StageOp): set<nat> {
    match op
    case ActHook(id, hook) => if id in w.acts then AR.HookCloses(w.acts[id], hook) else {}
    case CueDispatch(id) => if CueListed(w, id) then CP.DispatchCloses(w.cues[id].state) else {}
    case CueCaller(_, caller, order) => FanCloses(w, order, E.OpCallerFinished(caller))
    case CueTerminal(id, outcome, hasError, _, order) =>
      if CueListed(w, id) then TerminalCloses(w, id, outcome, hasError, order) else {}
    case EffectHook(id, _, hook) => EffectCloses(w, id, hook)
    case _ => {}
  }

  /** Whoever placed spans under a span that the step is to close has finished them. */
  ghost predicate OpClear(w: Stage, op: StageOp) {
    AllClear(w.h, OpCloses(w, op))
  }

  // ----- The invariant -----

  ghost predicate ActsOk(w: Stage) {
    forall i :: i in w.acts ==>
      w.acts[i].producer.id == i && AR.ActInv(w.acts[i], w.h) && (w.acts[i].state.failed.Some? ==> w.latched)
  }

  ghost predicate CueOk(c: CueEntry, i: nat, w: Stage) {
    && c.producer.id == i && CP.Inv(c.producer, c.state, w.h) && CV.Viewed(c.producer, c.state, w.h.log)
    && (c.state.failed.Some? ==> w.latched)
  }

  ghost predicate CuesOk(w: Stage) {
    forall i :: i in w.cues ==> CueOk(w.cues[i], i, w)
  }

  /** No registry entry survives a finish, and no effect leaves the registry otherwise unless its
      identity changed. */
  ghost predicate EffectOk(e: EffectEntry, i: nat, w: Stage) {
    && e.producer.id == i && EP.Inv(e.producer, e.state, w.h) && EP.Sane(e.state)
    && (e.listed <==> !e.state.finishAttempted && !e.dropped)
    && (e.state.failed.Some? || e.dropped ==> w.latched)
  }

  ghost predicate EffectsOk(w: Stage) {
    forall i :: i in w.effects ==> EffectOk(w.effects[i], i, w)
  }

  ghost predicate CueUntouched(h: Stream, i: nat) {
    && LastSample(h.log, CueActive, CueOwner(i)) == None && OnlyOpen(h, CueOwner(i), None)
    && CV.ViewOn(h.log, CueOwner(i)) == CV.UNSEEN
  }

  /** Identifiers not used yet have left no trace. */
  ghost predicate Fresh(w: Stage) {
    && (forall i :: i !in w.acts ==> AR.Untouched(w.h, i))
    && (forall i :: i !in w.cues ==> CueUntouched(w.h, i))
    && (forall i :: i !in w.effects ==> EffectUntouched(w.h, i))
  }

  ghost predicate EffectUntouched(h: Stream, i: nat) {
    Owns(h, EffectOwner(i), {}) && forall j :: !EP.ConsumedAt(h.log, j, i)
  }

  /** Every registered effect of a cue that ended in good health has been told. */
  ghost predicate Told(w: Stage) {
    forall i :: i in w.effects && w.effects[i].listed && EndedWell(w, w.effects[i].producer.owner) ==>
                  w.effects[i].state.ownerTerminal.Some?
  }

  predicate EndedWell(w: Stage, cue: nat) {
    cue in w.cues && w.cues[cue].state.phase.Ended? && w.cues[cue].state.failed.None?
  }

  ghost predicate Inv(w: Stage) {
    && Sequenced(w.h) && ActsOk(w) && CuesOk(w) && EffectsOk(w) && Fresh(w) && Told(w)
    && forall i :: i in w.effects ==> w.effects[i].producer.owner in w.cues
  }

  // ----- Frames: a step of one producer leaves the others as they were -----

  lemma ActsElsewhere(w: Stage, h: Stream, latched: bool, other: Owner)
    requires ActsOk(w) && Grows(w.h, h, other) && Sequenced(h) && (w.latched ==> latched)
    requires forall i :: i in w.acts ==> other != ActOwner(i)
    ensures ActsOk(w.(h := h, latched := latched))
  {
    forall i | i in w.acts ensures AR.ActInv(w.acts[i], h) {
      AR.StepElsewhere(w.acts[i], w.h, h, other);
    }
    hide AR.ActInv, Grows;
  }

  lemma CuesElsewhere(w: Stage, h: Stream, latched: bool, other: Owner)
    requires CuesOk(w) && Grows(w.h, h, other) && Sequenced(h) && (w.latched ==> latched)
    requires forall i :: i in w.cues ==> other != CueOwner(i)
    requires forall i :: i in w.cues && other == Outside && w.cues[i].state.failed.None? && !w.cues[i].state.phase.Ended?
                         ==> IsOpen(h, w.cues[i].producer.scene)
    ensures CuesOk(w.(h := h, latched := latched))
  {
    forall i | i in w.cues
      ensures CP.Inv(w.cues[i].producer, w.cues[i].state, h) && CV.Viewed(w.cues[i].producer, w.cues[i].state, h.log)
    {
      assert CueOk(w.cues[i], i, w);
      CP.StepElsewhere(w.cues[i].producer, w.cues[i].state, w.h, h, other);
      hide CP.Inv, CV.ViewOn, KeepsSpans, AddsSpans, FinishesOwn;
      CV.ViewedFrame(w.cues[i].producer, w.cues[i].state, w.h.log, h.log, other);
    }
    hide CP.Inv, CV.Viewed, Grows;
  }

  lemma EffectsElsewhere(w: Stage, h: Stream, latched: bool, other: Owner)
    requires EffectsOk(w) && Grows(w.h, h, other) && Sequenced(h) && (w.latched ==> latched)
    requires forall i :: i in w.effects ==> other != EffectOwner(i)
    ensures EffectsOk(w.(h := h, latched := latched))
  {
    forall i | i in w.effects ensures EP.Inv(w.effects[i].producer, w.effects[i].state, h) {
      assert EffectOk(w.effects[i], i, w);
      EP.StepElsewhere(w.effects[i].producer, w.effects[i].state, w.h, h, other);
    }
    hide EP.Inv, Grows;
  }

  lemma FreshElsewhere(w: Stage, h: Stream, other: Owner)
    requires Fresh(w) && Grows(w.h, h, other)
    ensures forall i :: i !in w.acts && other != ActOwner(i) ==> AR.Untouched(h, i)
    ensures forall i :: i !in w.cues && other != CueOwner(i) ==> CueUntouched(h, i)
    ensures forall i :: i !in w.effects && other != EffectOwner(i) ==> EffectUntouched(h, i)
  {
    hide LastSample, OnlyOpen, AR.Untouched, Owns, KeepsSpans, AddsSpans, FinishesOwn;
    forall i | i !in w.acts && other != ActOwner(i) ensures AR.Untouched(h, i) {
      AR.UntouchedFrame(w.h, h, other, i);
    }
    forall i | i !in w.cues && other != CueOwner(i)
      ensures CueUntouched(h, i)
    {
      SampleFrame(w.h, h, other, CueActive, CueOwner(i));
      CP.OnlyOpenElsewhere(w.h, h, other, CueOwner(i), None);
      CV.ViewFrame(w.h.log, h.log, other, CueOwner(i));
    }
    forall i | i !in w.effects && other != EffectOwner(i) ensures EffectUntouched(h, i) {
      OwnsElsewhere(w.h, h, other, EffectOwner(i), {});
      forall j ensures !EP.ConsumedAt(h.log, j, i) {
        assert |w.h.log| <= j < |h.log| ==> SignatureAllowed(h.log[j], other);
        assert !EP.ConsumedAt(w.h.log, j, i);
      }
    }
  }

  lemma CuesSame(w: Stage, w': Stage)
    requires CuesOk(w) && w'.h == w.h && w'.latched == w.latched && w'.cues == w.cues
    ensures CuesOk(w')
  {
    hide CP.Inv, CV.Viewed;
    forall i | i in w'.cues ensures CueOk(w'.cues[i], i, w') { assert CueOk(w.cues[i], i, w); }
  }

  lemma EffectsSame(w: Stage, w': Stage)
    requires EffectsOk(w) && w'.h == w.h && w'.latched == w.latched && w'.effects == w.effects
    ensures EffectsOk(w')
  {
    hide EP.Inv, EP.Sane;
    forall i | i in w'.effects ensures EffectOk(w'.effects[i], i, w') { assert EffectOk(w.effects[i], i, w); }
  }

  lemma CuesLess(w: Stage, rest: Stage, id: nat)
    requires CuesOk(w) && rest == w.(cues := w.cues - {id})
    ensures CuesOk(rest)
  {
    hide CP.Inv, CV.Viewed;
    forall i | i in rest.cues ensures CueOk(rest.cues[i], i, rest) { assert CueOk(w.cues[i], i, w); }
  }

  lemma EffectsLess(w: Stage, rest: Stage, id: nat)
    requires EffectsOk(w) && rest == w.(effects := w.effects - {id})
    ensures EffectsOk(rest)
  {
    hide EP.Inv, EP.Sane;
    forall i | i in rest.effects ensures EffectOk(rest.effects[i], i, rest) { assert EffectOk(w.effects[i], i, w); }
  }

  lemma CueJoins(rest: Stage, w': Stage, id: nat)
    requires CuesOk(rest) && rest.h == w'.h && rest.latched == w'.latched
    requires id in w'.cues && CueOk(w'.cues[id], id, w') && rest.cues == w'.cues - {id}
    ensures CuesOk(w')
  {
    hide CP.Inv, CV.Viewed;
    forall i | i in w'.cues ensures CueOk(w'.cues[i], i, w') {
      if i != id { assert rest.cues[i] == w'.cues[i] && CueOk(rest.cues[i], i, rest); }
    }
  }

  lemma ActKept(w: Stage, id: nat, a: A.Act, h: Stream)
    requires Inv(w) && a.producer.id == id && AR.ActInv(a, h) && Grows(w.h, h, ActOwner(id)) && Sequenced(h)
    ensures Inv(WithAct(w, id, a, h))
  {
    hide Sequenced, Grows, AR.ActInv, AR.Untouched, CueUntouched, EffectUntouched, CueOk, EffectOk;
    var w', l := WithAct(w, id, a, h), w.latched || a.state.failed.Some?;
    var rest := w.(acts := w.acts - {id});
    ActsElsewhere(rest, h, l, ActOwner(id));
    CuesElsewhere(w, h, l, ActOwner(id));
    EffectsElsewhere(w, h, l, ActOwner(id));
    FreshElsewhere(w, h, ActOwner(id));
    assert ActsOk(w') by {
      forall i | i in w'.acts ensures w'.acts[i].producer.id == i && AR.ActInv(w'.acts[i], h)
                                      && (w'.acts[i].state.failed.Some? ==> w'.latched)
      {
        if i != id { assert rest.acts[i] == w'.acts[i]; }
      }
    }
    CuesSame(w.(h := h, latched := l), w');
    EffectsSame(w.(h := h, latched := l), w');
    assert Told(w') by { assert forall c :: EndedWell(w', c) <==> EndedWell(w, c); }
  }

  lemma EffectKept(w: Stage, id: nat, e: EffectEntry, h: Stream)
    requires Inv(w) && Grows(w.h, h, EffectOwner(id)) && Sequenced(h)
    requires EffectOk(e, id, WithEffect(w, id, e, h)) && e.producer.owner in w.cues
    requires e.listed && EndedWell(w, e.producer.owner) ==> e.state.ownerTerminal.Some?
    ensures Inv(WithEffect(w, id, e, h))
  {
    hide Sequenced, Grows, AR.ActInv, AR.Untouched, CueUntouched, EffectUntouched, CP.Inv, CV.Viewed, EP.Inv, EP.Sane, CueOk, EffectOk;
    var w', l := WithEffect(w, id, e, h), w.latched || e.state.failed.Some?;
    var rest := w.(effects := w.effects - {id});
    ActsElsewhere(w, h, l, EffectOwner(id));
    CuesElsewhere(w, h, l, EffectOwner(id));
    EffectsLess(w, rest, id);
    EffectsElsewhere(rest, h, l, EffectOwner(id));
    FreshElsewhere(w, h, EffectOwner(id));
    CuesSame(w.(h := h, latched := l), w');
    EffectJoins(rest.(h := h, latched := l), w', id);
    assert Told(w') by { assert forall c :: EndedWell(w', c) <==> EndedWell(w, c); }
  }

  lemma EffectJoins(rest: Stage, w': Stage, id: nat)
    requires EffectsOk(rest) && rest.h == w'.h && rest.latched == w'.latched
    requires id in w'.effects && EffectOk(w'.effects[id], id, w') && rest.effects == w'.effects - {id}
    ensures EffectsOk(w')
  {
    hide EP.Inv, EP.Sane;
    forall i | i in w'.effects ensures EffectOk(w'.effects[i], i, w') {
      if i != id { assert rest.effects[i] == w'.effects[i] && EffectOk(rest.effects[i], i, rest); }
    }
  }

  lemma CueKept(w: Stage, id: nat, c: CueEntry, h: Stream)
    requires Inv(w) && Grows(w.h, h, CueOwner(id)) && Sequenced(h)
    requires c.producer.id == id && CP.Inv(c.producer, c.state, h) && CV.Viewed(c.producer, c.state, h.log)
    requires c.state.failed.None? && c.state.phase.Ended? ==> EndedWell(w, id) || AllTold(w, id)
    ensures Inv(WithCue(w, id, c, h))
  {
    hide Sequenced, Grows, AR.ActInv, AR.Untouched, CueUntouched, EffectUntouched, CP.Inv, CV.Viewed, EP.Inv, EP.Sane, EffectOk;
    var w', l := WithCue(w, id, c, h), w.latched || c.state.failed.Some?;
    var rest := w.(cues := w.cues - {id});
    ActsElsewhere(w, h, l, CueOwner(id));
    CuesLess(w, rest, id);
    CuesElsewhere(rest, h, l, CueOwner(id));
    EffectsElsewhere(w, h, l, CueOwner(id));
    FreshElsewhere(w, h, CueOwner(id));
    CueJoins(rest.(h := h, latched := l), w', id);
    EffectsSame(w.(h := h, latched := l), w');
    assert Told(w') by { assert forall x :: EndedWell(w', x) ==> EndedWell(w, x) || (x == id && AllTold(w, id)); }
  }

  /** Every registered effect of the cue has heard of its end. */
  ghost predicate AllTold(w: Stage, cue: nat) {
    forall i :: i in w.effects && w.effects[i].listed && w.effects[i].producer.owner == cue ==>
                  w.effects[i].state.ownerTerminal.Some?
  }

  lemma LatchKept(w: Stage, latched: bool)
    requires Inv(w) && (w.latched ==> latched)
    ensures Inv(w.(latched := latched))
  {
    hide Sequenced, AR.ActInv, AR.Untouched, CueUntouched, EffectUntouched, CP.Inv, CV.Viewed, EP.Inv;
    var w' := w.(latched := latched);
    assert CuesOk(w') by { assert forall c, i :: CueOk(c, i, w) ==> CueOk(c, i, w'); }
    assert EffectsOk(w') by { assert forall e, i :: EffectOk(e, i, w) ==> EffectOk(e, i, w'); }
    assert Told(w') by { assert forall c :: EndedWell(w', c) <==> EndedWell(w, c); }
  }

  // ----- Steps keep the invariant -----

  /** What a step promises about the stream, whoever took it. */
  ghost predicate Advanced(w: Stage, w': Stage, closing: set<nat>) {
    Inv(w') && Extends(w.h, w'.h) && Accepts(w.h, w'.h, closing) && |w.h.log| <= |w'.h.log|
  }

  /** A step of an act, a cue or an effect. */
  ghost predicate Kept(w: Stage, w': Stage, closing: set<nat>) {
    Inv(w') && Continues(w.h, w'.h, closing) && |w.h.log| <= |w'.h.log|
  }

  lemma GrowsLonger(h: Stream, h': Stream, who: Owner)
    requires Grows(h, h', who)
    ensures |h.log| <= |h'.log|
  {
  }

  /** An effect only ever learns more, and once told of its owner's end it stays told or is over. */
  lemma ApplyTells(p: E.Producer, s: E.EffectState, h: Stream, op: E.Op)
    ensures var s' := E.Apply(p, s, h, op).0;
            && (s.ownerTerminal.Some? ==> s'.ownerTerminal.Some?)
            && (op.OpOwnerTerminal? ==> s'.finishAttempted || s'.failed.Some? || s'.ownerTerminal.Some?)
            && (s'.failed.None? ==> s.failed.None?)
  {
    hide Admit;
  }

  lemma EffectStepKept(w: Stage, id: nat, op: E.Op)
    requires Inv(w) && (op.OpOwnerTerminal? ==> Known(w.h, op.source))
    ensures Kept(w, EffectStep(w, id, op), EffectCloses(w, id, op))
  {
    if EffectListed(w, id) {
      var e := w.effects[id];
      assert EffectOk(e, id, w);
      hide Sequenced, E.Apply, EP.Inv, AR.ActInv, CP.Inv, Fresh, EP.Sane, EP.Closes, KeepsClear;
      EP.ApplyKept(e.producer, e.state, w.h, op);
      ApplyIsSane(e, w.h, op);
      ApplyTells(e.producer, e.state, w.h, op);
      var (s, h) := E.Apply(e.producer, e.state, w.h, op);
      FailedIsOver(e.producer, s, h);
      GrowsLonger(w.h, h, EffectOwner(id));
      hide Grows, Continues;
      EffectKept(w, id, e.(state := s, listed := !s.finishAttempted), h);
    } else {
      Stays(w.h, Outside);
    }
  }

  lemma ApplyIsSane(e: EffectEntry, h: Stream, op: E.Op)
    requires EP.Inv(e.producer, e.state, h) && EP.Sane(e.state)
    ensures EP.Sane(E.Apply(e.producer, e.state, h, op).0)
  {
    hide Sequenced, EP.Placed, EP.Logged, E.Apply, EP.Sane;
    EP.ApplySane(e.producer, e.state, h, op);
  }

  lemma FailedIsOver(p: E.Producer, s: E.EffectState, h: Stream)
    requires EP.Inv(p, s, h)
    ensures s.failed.Some? ==> s.finishAttempted
  {
  }

  /** The fan-out over the effects of a cue keeps everything; afterwards each of them is over or
      has been told. */
  lemma {:induction false} FanOutKept(w: Stage, order: seq<nat>, op: E.Op)
    requires Inv(w) && (op.OpOwnerTerminal? ==> Known(w.h, op.source)) && Distinct(order)
    ensures Kept(w, FanOut(w, order, op), FanCloses(w, order, op))
    decreases |order|
  {
    hide Inv, Continues, EffectStep, EffectCloses;
    if order == [] {
      StaysKept(w);
    } else {
      EffectStepKept(w, order[0], op);
      var w1 := EffectStep(w, order[0], op);
      FanOutKept(w1, order[1..], op);
      FanClosesApart(w, order[0], op, order[1..]);
      ContinuesTransitive(w.h, w1.h, FanOut(w1, order[1..], op).h, EffectCloses(w, order[0], op), FanCloses(w, order[1..], op));
    }
  }

  /** What a hook of one effect does has no bearing on what the others are to close. */
  lemma {:induction false} FanClosesApart(w: Stage, id: nat, op: E.Op, order: seq<nat>)
    requires id !in order
    ensures FanCloses(EffectStep(w, id, op), order, op) == FanCloses(w, order, op)
  {
    hide E.Apply, EP.Closes;
    if order != [] { FanClosesApart(w, id, op, order[1..]); }
  }

  lemma StaysKept(w: Stage)
    requires Inv(w)
    ensures forall closing :: Kept(w, w, closing)
  {
    Stays(w.h, Outside);
    forall closing ensures Continues(w.h, w.h, closing) { ContinuesMore(w.h, w.h, {}, closing); }
  }

  predicate Informed(e: EffectEntry) {
    e.listed ==> e.state.ownerTerminal.Some?
  }

  /** A step of the registry: the same effects, none re-registered, none that forgets. */
  ghost predicate Advances(w: Stage, w': Stage) {
    && w'.effects.Keys == w.effects.Keys
    && forall i :: i in w.effects ==>
         && w'.effects[i].producer == w.effects[i].producer
         && (w'.effects[i].listed ==> w.effects[i].listed)
         && (Informed(w.effects[i]) ==> Informed(w'.effects[i]))
  }

  lemma RegisteredEffect(w: Stage, id: nat)
    requires Inv(w) && id in w.effects
    ensures var s := w.effects[id].state; s.failed.Some? ==> s.finishAttempted
  {
    hide ActsOk, CuesOk, Fresh, Told, EP.Placed, EP.Logged;
    assert EffectOk(w.effects[id], id, w);
  }

  lemma EffectStepAdvances(w: Stage, id: nat, op: E.Op)
    requires Inv(w)
    ensures var w' := EffectStep(w, id, op);
            Advances(w, w') && (op.OpOwnerTerminal? && id in w'.effects ==> Informed(w'.effects[id]))
  {
    hide E.Apply, Inv;
    if EffectListed(w, id) {
      var e := w.effects[id];
      RegisteredEffect(w, id);
      ApplyTells(e.producer, e.state, w.h, op);
      FailedFinishes(e.producer, e.state, w.h, op);
    }
  }

  lemma FailedFinishes(p: E.Producer, s: E.EffectState, h: Stream, op: E.Op)
    requires s.failed.Some? ==> s.finishAttempted
    ensures var s' := E.Apply(p, s, h, op).0; s'.failed.Some? ==> s'.finishAttempted
  {
    hide Admit;
  }

  lemma {:induction false} FanOutTells(w: Stage, order: seq<nat>, op: E.Op)
    requires Inv(w) && op.OpOwnerTerminal? && Known(w.h, op.source)
    ensures var w' := FanOut(w, order, op);
            Advances(w, w') && forall i :: i in order && i in w'.effects ==> Informed(w'.effects[i])
    decreases |order|
  {
    hide Inv, EffectStep, Continues, Informed;
    if order != [] {
      EffectStepKept(w, order[0], op);
      EffectStepAdvances(w, order[0], op);
      var w1 := EffectStep(w, order[0], op);
      FanOutTells(w1, order[1..], op);
      assert forall i :: i in order ==> i == order[0] || i in order[1..];
    }
  }

  lemma CueOf(w: Stage, id: nat)
    requires Inv(w) && id in w.cues
    ensures w.cues[id].producer.id == id && CP.Inv(w.cues[id].producer, w.cues[id].state, w.h)
    ensures CV.Viewed(w.cues[id].producer, w.cues[id].state, w.h.log) && CP.ProducerOk(w.cues[id].producer)
  {
    hide ActsOk, EffectsOk, Fresh, Told, CV.Viewed, Sequenced, CP.Holds, CP.SceneOpen;
    assert CueOk(w.cues[id], id, w);
  }

  /** A hook that touches one cue only; ending in good health requires the effects to know. */
  lemma CueStepKept(w: Stage, id: nat, r: (C.CueState, Stream), listed: bool, closing: set<nat>)
    requires Inv(w) && id in w.cues && CP.Kept(w.cues[id].producer, w.h, r, closing)
    requires CV.Viewed(w.cues[id].producer, r.0, r.1.log)
    requires r.0.failed.None? && r.0.phase.Ended? ==> EndedWell(w, id) || AllTold(w, id)
    ensures Kept(w, CueStep(w, id, r, listed), closing)
  {
    CueOf(w, id);
    GrowsLonger(w.h, r.1, CueOwner(id));
    assert Sequenced(r.1);
    hide Inv, Grows, Continues, Sequenced, CP.Inv, CV.Viewed;
    CueKept(w, id, w.cues[id].(state := r.0, listed := listed), r.1);
  }

  /** A hook other than the terminal one neither ends a cue nor revives it. */
  lemma QuietHooks(p: C.CueProducer, s: C.CueState, h: Stream, queued: nat, running: bool)
    ensures forall r :: r in [C.EnqueueCue(p, s, h, queued, running), C.DispatchCue(p, s, h), C.CancelCue(p, s, h),
                              C.RetireCue(p, s, h, queued, running), (C.FinishCueCaller(s), h)] ==>
              (r.0.failed.None? ==> s.failed.None?) && (r.0.phase.Ended? <==> s.phase.Ended?)
  {
    hide Admit;
  }

  lemma TerminalStepKept(w: Stage, id: nat, outcome: E.CueOutcome, hasError: bool, actorGone: bool, order: seq<nat>)
    requires Inv(w) && CueListed(w, id) && Enumerates(w, id, order)
    ensures Kept(w, TerminalStep(w, id, outcome, hasError, actorGone, order), TerminalCloses(w, id, outcome, hasError, order))
  {
    hide Inv, CP.Inv, CP.Kept, CV.ViewOn, Continues, FanOut, FanCloses, C.CloseCue, CueStep;
    var c := w.cues[id];
    var plan := C.PlanTerminal(c.state, outcome, hasError);
    CueOf(w, id);
    if plan.Stop? {
      CP.StoppedTerminalKept(c.producer, c.state, w.h, outcome, hasError);
      CueStepKept(w, id, (plan.state, w.h), !actorGone, {});
    } else {
      CP.PlanKnown(c.producer, c.state, w.h, outcome, hasError);
      var op := E.OpOwnerTerminal(outcome, plan.cause);
      FanOutKept(w, order, op);
      FanOutTells(w, order, op);
      var told := FanOut(w, order, op);
      CueOf(told, id);
      CP.CloseCueKept(c.producer, c.state, told.h, outcome, hasError);
      CV.CloseViewed(c.producer, c.state, told.h, outcome, hasError);
      var r := C.CloseCue(c.producer, c.state, told.h, outcome, plan);
      CueStepKept(told, id, r, !actorGone, CP.OpenSpans(c.state.phase));
      ContinuesTransitive(w.h, told.h, CueStep(told, id, r, !actorGone).h, FanCloses(w, order, op), CP.OpenSpans(c.state.phase));
    }
  }

  lemma SameUntouched(h: Stream, h': Stream, i: nat)
    requires EffectUntouched(h, i) && h'.log == h.log && h'.index == h.index
    ensures EffectUntouched(h', i)
  {
    hide EP.ConsumedAt;
  }

  /** A step on the stream by nobody of this stage. */
  lemma ElsewhereKept(w: Stage, h: Stream, latched: bool, other: Owner)
    requires Inv(w) && Grows(w.h, h, other) && Sequenced(h) && (w.latched ==> latched)
    requires other == Outside || (other.EffectOwner? && other.id !in w.effects && h.log == w.h.log && h.index == w.h.index)
    requires forall i :: i in w.cues && other == Outside && w.cues[i].state.failed.None? && !w.cues[i].state.phase.Ended?
                         ==> IsOpen(h, w.cues[i].producer.scene)
    ensures Inv(w.(h := h, latched := latched))
  {
    hide Sequenced, Grows, AR.ActInv, AR.Untouched, CueUntouched, EffectUntouched, CP.Inv, CV.Viewed, EP.Inv;
    var w' := w.(h := h, latched := latched);
    ActsElsewhere(w, h, latched, other);
    CuesElsewhere(w, h, latched, other);
    EffectsElsewhere(w, h, latched, other);
    FreshElsewhere(w, h, other);
    if other.EffectOwner? { SameUntouched(w.h, h, other.id); }
    assert Told(w') by { assert forall c :: EndedWell(w', c) <==> EndedWell(w, c); }
  }

  /** While nothing has failed, a dispatched cue shows an open execution span in an open scene. */
  lemma LineageOpen(w: Stage, owner: nat, id: nat)
    requires Inv(w) && MayStart(w, owner) && !w.latched
    ensures var cue := w.cues[owner].producer;
            && IsOpen(w.h, C.Lineage(w.cues[owner].state).value)
            && Encloses(w.h, cue.scene, cue.scope.(effect := Some(id)))
            && RecordOwner(w.h.index.spans[cue.scene]) == Outside
            && CP.ProducerOk(cue) && cue.id == owner && Sequenced(w.h)
  {
    hide ActsOk, EffectsOk, Fresh, Told, OnlyOpen, LastSample;
    assert CueOk(w.cues[owner], owner, w);
    hide Sequenced;
  }

  lemma FreshEffect(w: Stage, p: E.Producer, h: Stream)
    requires Inv(w) && p.id !in w.effects && EP.Placed(p, h, true)
    requires w.h.log <= h.log && |h.log| == |w.h.log| + 1 && h.log[|w.h.log|].body.SpanStarted?
    ensures EP.Inv(p, E.CONSTRUCTING, h)
  {
    hide ActsOk, CuesOk, EffectsOk, Told, Sequenced, Held;
    assert EffectUntouched(w.h, p.id);
    forall j ensures !EP.ConsumedAt(h.log, j, p.id) {
      assert !EP.ConsumedAt(w.h.log, j, p.id);
    }
  }

  lemma NoEffectYet(w: Stage, id: nat)
    requires Inv(w) && id !in w.effects
    ensures Owns(w.h, EffectOwner(id), {})
  {
    hide ActsOk, CuesOk, EffectsOk, Told, Sequenced, Owns;
    assert EffectUntouched(w.h, id);
  }

  lemma StartEffectKept(w: Stage, id: nat, owner: nat)
    requires Inv(w) && id !in w.effects
    ensures Kept(w, StartEffectStep(w, id, owner), {})
  {
    hide Inv, Continues, Admit, Grows, Sequenced, Encloses, EP.Inv, EP.Placed;
    if !MayStart(w, owner) || w.latched {
      StaysKept(w);
      return;
    }
    LineageOpen(w, owner, id);
    var cue, span := w.cues[owner].producer, C.Lineage(w.cues[owner].state).value;
    var scope := cue.scope.(effect := Some(id));
    var p, link := E.Producer(id, owner, scope, 0, cue.scene), Link(span, FollowsFrom);
    SpanKnown(w.h, span);
    assert Owns(w.h, EffectOwner(id), {}) by { NoEffectYet(w, id); }
    EP.StartKept(p, w.h, link);
    AdmitCases(w.h, Start(scope, EffectLifecycle, Some(cue.scene), [link]));
    var a := Admit(w.h, Start(scope, EffectLifecycle, Some(cue.scene), [link]));
    ContinuesSequenced(w.h, a.stream, {});
    GrowsLonger(w.h, a.stream, EffectOwner(id));
    if a.sequence.None? {
      ElsewhereKept(w, a.stream, true, EffectOwner(id));
    } else {
      FreshEffect(w, p.(span := a.sequence.value), a.stream);
      EffectKept(w, id, EffectEntry(p.(span := a.sequence.value), E.CONSTRUCTING, true, false), a.stream);
    }
  }

  lemma ContinuesSequenced(h: Stream, h': Stream, closing: set<nat>)
    requires Continues(h, h', closing)
    ensures Sequenced(h')
  {
    hide Sequenced, Follows, Stamped, Faithful, Accepts, KeepsClear;
  }

  lemma ForeignGrows(w: Stage, c: Candidate)
    requires Sequenced(w.h) && ForeignOk(w, c)
    ensures Grows(w.h, Admit(w.h, c).stream, Outside)
    ensures forall i :: i in w.cues && w.cues[i].state.failed.None? && !w.cues[i].state.phase.Ended? ==>
                          IsOpen(w.h, w.cues[i].producer.scene) ==>
                            IsOpen(Admit(w.h, c).stream, w.cues[i].producer.scene)
  {
    AdmitCases(w.h, c);
    hide Admit;
  }

  lemma ForeignContinues(h: Stream, c: Candidate)
    requires Sequenced(h)
    ensures Extends(h, Aside(Admit(h, c).stream, h))
  {
    hide Admit, Sequenced, KeepsCurrent, Mirrors, ValidStream, Proper, Commit, Committable;
    AdmitSequenced(h, c);
    AdmitKeepsCurrent(h, c);
    AdmitCases(h, c);
    if Faithful(h) { AdmitValid(h, c); }
    AsideSame(h, Admit(h, c).stream);
  }

  /** The tallies about candidates play no part in the other invariants. */
  lemma AsideSame(h: Stream, h': Stream)
    ensures Sequenced(h') ==> Sequenced(Aside(h', h))
    ensures KeepsCurrent(h, h') ==> KeepsCurrent(h, Aside(h', h))
    ensures forall n :: Generous(h', n) ==> Generous(Aside(h', h), n)
    ensures Grows(h, h', Outside) ==> Grows(h, Aside(h', h), Outside)
  {
    forall t: nat ensures Current(Aside(h', h), t) <==> Current(h', t) { }
    hide Current;
  }

  lemma ForeignKept(w: Stage, c: Candidate, latches: bool)
    requires Inv(w) && ForeignOk(w, c)
    ensures Advanced(w, ForeignStep(w, c, latches), {})
  {
    hide Admit, Inv, ForeignOk, KeepsSpans, AddsSpans, FinishesOwn, Sequenced, Follows, Stamped, Faithful;
    var h' := Aside(Admit(w.h, c).stream, w.h);
    InvSequenced(w);
    ForeignGrows(w, c);
    ForeignContinues(w.h, c);
    AsideSame(w.h, Admit(w.h, c).stream);
    hide Grows;
    GrowsLonger(w.h, h', Outside);
    forall i | i in w.cues && w.cues[i].state.failed.None? && !w.cues[i].state.phase.Ended?
      ensures IsOpen(h', w.cues[i].producer.scene)
    {
      SceneOf(w, i);
    }
    ElsewhereKept(w, h', w.latched || latches, Outside);
  }

  lemma InvSequenced(w: Stage)
    requires Inv(w)
    ensures Sequenced(w.h)
  {
    hide ActsOk, CuesOk, EffectsOk, Fresh, Told, Sequenced;
  }

  lemma SceneOf(w: Stage, i: nat)
    requires Inv(w) && i in w.cues && w.cues[i].state.failed.None? && !w.cues[i].state.phase.Ended?
    ensures IsOpen(w.h, w.cues[i].producer.scene)
  {
    hide ActsOk, EffectsOk, Fresh, Told, OnlyOpen, LastSample, Sequenced;
    assert CueOk(w.cues[i], i, w);
  }

  lemma StartActKept(w: Stage, p: A.Producer)
    requires Inv(w) && p.id !in w.acts && AP.ProducerOk(p)
    ensures Kept(w, Step(w, StartAct(p)), {})
  {
    assert AR.Untouched(w.h, p.id) by { hide ActsOk, CuesOk, EffectsOk, Told, AR.Untouched; }
    InvSequenced(w);
    hide Inv, AR.ActInv, Grows, Continues, Sequenced, A.StartAct, AR.Untouched;
    AR.StartKept(p, w.h);
    var (s, h) := A.StartAct(p, A.PREPARED, w.h);
    ContinuesSequenced(w.h, h, {});
    GrowsLonger(w.h, h, ActOwner(p.id));
    ActKept(w, p.id, A.Act(p, s, A.InProducer), h);
  }

  lemma ActHookKept(w: Stage, id: nat, hook: A.Op)
    requires Inv(w) && AR.OpOk(hook, w.h)
    ensures Kept(w, Step(w, ActHook(id, hook)), OpCloses(w, ActHook(id, hook)))
  {
    if id in w.acts {
      assert w.acts[id].producer.id == id && AR.ActInv(w.acts[id], w.h);
      hide Inv, AR.ActInv, Grows, Continues, Sequenced, A.Step, AR.HookCloses;
      AR.StepKept(w.acts[id], w.h, hook);
      var (a, h) := A.Step(w.acts[id], w.h, hook);
      ContinuesSequenced(w.h, h, AR.HookCloses(w.acts[id], hook));
      GrowsLonger(w.h, h, ActOwner(id));
      ActKept(w, id, a, h);
    } else {
      StaysKept(w);
    }
  }

  lemma FreshCue(w: Stage, p: C.CueProducer)
    requires Inv(w) && p.id !in w.cues && CP.ProducerOk(p) && CP.SceneOpen(p, w.h)
    ensures CP.Inv(p, C.FRESH, w.h) && CV.ViewOn(w.h.log, CueOwner(p.id)) == CV.UNSEEN
  {
    hide ActsOk, CuesOk, EffectsOk, Told, Sequenced, LastSample, OnlyOpen, CP.SceneOpen, CV.ViewOn;
  }

  lemma StartCueKept(w: Stage, p: C.CueProducer)
    requires Inv(w) && p.id !in w.cues && CP.ProducerOk(p) && CP.SceneOpen(p, w.h)
    ensures Kept(w, Step(w, StartCue(p)), {})
  {
    hide Inv, CP.Inv, Grows, Continues, Sequenced;
    FreshCue(w, p);
    CP.AdmittedKept(p, w.h);
    CV.AdmittedViewed(p, w.h);
    var (s, h) := C.AdmitCue(p, C.FRESH, w.h);
    assert !s.phase.Ended? by { hide Admit; }
    hide C.AdmitCue, CV.Viewed;
    ContinuesSequenced(w.h, h, {});
    GrowsLonger(w.h, h, CueOwner(p.id));
    CueKept(w, p.id, CueEntry(p, s, true), h);
  }

  lemma KeptAdvances(w: Stage, w': Stage, closing: set<nat>)
    requires Kept(w, w', closing)
    ensures Advanced(w, w', closing)
  {
    hide Inv, Extends, Accepts, KeepsClear;
  }

  /** Every step of any producer keeps the invariant of all of them and the validity of the log;
      every candidate of an act, a cue or an effect is proper, and one is refused only if its stamp
      is older than what is on record or somebody else's span is still open under a span the step
      is to close. */
  lemma StepKept(w: Stage, op: StageOp)
    requires Inv(w) && OpOk(w, op)
    ensures Advanced(w, Step(w, op), OpCloses(w, op))
  {
    hide Advanced, Inv, ForeignOk, ForeignStep;
    match op
    case Foreign(c, latches) => ForeignKept(w, c, latches);
    case _ =>
      OwnStepKept(w, op);
      KeptAdvances(w, Step(w, op), OpCloses(w, op));
  }

  lemma OwnStepKept(w: Stage, op: StageOp)
    requires Inv(w) && OpOk(w, op) && !op.Foreign?
    ensures Kept(w, Step(w, op), OpCloses(w, op))
  {
    hide Kept, Inv, Continues, CP.Kept, CP.Inv, EffectListed, EffectCloses, FanCloses, TerminalCloses;
    match op
    case StartAct(p) => StartActKept(w, p);
    case ActHook(id, hook) => ActHookKept(w, id, hook);
    case StartCue(p) => StartCueKept(w, p);
    case CueTerminal(id, outcome, hasError, actorGone, order) =>
      if CueListed(w, id) {
        TerminalStepKept(w, id, outcome, hasError, actorGone, order);
      } else {
        LatchStepKept(w);
      }
    case CueCaller(id, caller, order) => CueCallerKept(w, id, caller, order);
    case StartEffect(id, owner) => StartEffectKept(w, id, owner);
    case EffectHook(id, owner, hook) =>
      LatchStepKept(w);
      EffectStepKept(w, id, hook);
    case EffectIdentityChanged(id) => IdentityKept(w, id);
    case _ => CueHookKept(w, op);
  }

  lemma LatchStepKept(w: Stage)
    requires Inv(w)
    ensures forall closing :: Kept(w, w.(latched := true), closing)
  {
    hide Inv, Continues;
    StaysKept(w);
    LatchKept(w, true);
    forall closing ensures Kept(w, w.(latched := true), closing) { assert Kept(w, w, closing); }
  }

  lemma CueHookKept(w: Stage, op: StageOp)
    requires Inv(w) && (op.CueEnqueue? || op.CueDispatch? || op.CueCancel? || op.CueRetire?)
    ensures Kept(w, Step(w, op), OpCloses(w, op))
  {
    hide Kept, Inv, Continues, CP.Kept, CP.Inv, CV.Viewed, CueStep, CP.DispatchCloses, C.EnqueueCue, C.DispatchCue, C.CancelCue, C.RetireCue;
    if !CueListed(w, op.id) {
      LatchStepKept(w);
      return;
    }
    var id, p, s := op.id, w.cues[op.id].producer, w.cues[op.id].state;
    CueOf(w, id);
    match op
    case CueEnqueue(_, queued, running) =>
      QuietHooks(p, s, w.h, queued, running);
      CP.EnqueuedKept(p, s, w.h, queued, running);
      CV.EnqueuedViewed(p, s, w.h, queued, running);
      CueStepKept(w, id, C.EnqueueCue(p, s, w.h, queued, running), true, {});
    case CueDispatch(_) =>
      QuietHooks(p, s, w.h, 0, true);
      CP.DispatchedKept(p, s, w.h);
      CV.DispatchedViewed(p, s, w.h);
      CueStepKept(w, id, C.DispatchCue(p, s, w.h), true, CP.DispatchCloses(s));
    case CueCancel(_) =>
      QuietHooks(p, s, w.h, 0, true);
      CP.CancelRequestedKept(p, s, w.h);
      CV.CancelViewed(p, s, w.h);
      CueStepKept(w, id, C.CancelCue(p, s, w.h), true, {});
    case CueRetire(_, queued, running) =>
      QuietHooks(p, s, w.h, queued, running);
      CP.RetiredKept(p, s, w.h, queued, running);
      CV.RetiredViewed(p, s, w.h, queued, running);
      CueStepKept(w, id, C.RetireCue(p, s, w.h, queued, running), false, {});
  }

  lemma CueCallerKept(w: Stage, id: nat, caller: E.CallerOutcome, order: seq<nat>)
    requires Inv(w) && Distinct(order)
    ensures Kept(w, Step(w, CueCaller(id, caller, order)), FanCloses(w, order, E.OpCallerFinished(caller)))
  {
    hide Inv, Continues, CP.Kept, CP.Inv, CV.ViewOn, CueStep, FanOut, FanCloses;
    FanOutKept(w, order, E.OpCallerFinished(caller));
    var told := FanOut(w, order, E.OpCallerFinished(caller));
    if CueListed(told, id) {
      CueOf(told, id);
      var p, s := told.cues[id].producer, told.cues[id].state;
      CP.StoppedKept(p, s, told.h, C.FinishCueCaller(s));
      CueStepKept(told, id, (C.FinishCueCaller(s), told.h), true, {});
      ContinuesTransitive(w.h, told.h, CueStep(told, id, (C.FinishCueCaller(s), told.h), true).h,
                          FanCloses(w, order, E.OpCallerFinished(caller)), {});
      assert FanCloses(w, order, E.OpCallerFinished(caller)) + {} == FanCloses(w, order, E.OpCallerFinished(caller));
    }
  }

  lemma IdentityKept(w: Stage, id: nat)
    requires Inv(w)
    ensures Kept(w, Step(w, EffectIdentityChanged(id)), {})
  {
    hide Inv, EP.Inv, EP.Sane, Grows, Continues;
    if EffectListed(w, id) {
      var e := w.effects[id].(listed := false, dropped := true);
      LatchKept(w, true);
      InvSequenced(w);
      Stays(w.h, EffectOwner(id));
      EffectOf(w, id);
      EffectKept(w.(latched := true), id, e, w.h);
    } else {
      StaysKept(w);
    }
  }

  lemma EffectOf(w: Stage, id: nat)
    requires Inv(w) && id in w.effects
    ensures EffectOk(w.effects[id], id, w) && w.effects[id].producer.owner in w.cues
  {
    hide ActsOk, CuesOk, Fresh, Told, EffectOk;
  }
}
