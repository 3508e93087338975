/** A run in which the order of a cue's end and its caller's exit shows: the effect has been returned
    and cleared, and neither has been heard of yet. */
module EffectOrder {
  import opened Events
  import opened Validator
  import opened Hub
  import opened Effect
  import opened EffectProofs

  lemma NoteGranted(p: Producer, h: Stream, kind: InstantKind, link: Link, n: nat)
    requires Placed(p, h, true) && Known(h, link.source) && Generous(h, n + 1)
    ensures var a := Admit(h, Note(p.scope, kind, p.span, [link]));
            a.sequence == Some(|h.log| + 1) && Generous(a.stream, n)
  {
    NoteSound(p, h, link, kind);
    hide Admit, Sound, Stamped;
    SoundGranted(h, Note(p.scope, kind, p.span, [link]), n);
  }

  lemma CreatedGranted(p: Producer, s: EffectState, h: Stream)
    requires Inv(p, s, h) && s == CONSTRUCTING && Generous(h, 8)
    ensures var (s', h') := Created(p, s, h); s' == CONSTRUCTING.(created := Some(|h.log| + 1)) && Generous(h', 7)
  {
    SpanKnown(h, p.span);
    hide Admit, Stamped, Sequenced, Placed, Logged;
    NoteGranted(p, h, EffectCreated, Link(p.span, FollowsFrom), 7);
  }

  lemma ReturnedGranted(p: Producer, s: EffectState, h: Stream)
    requires Inv(p, s, h) && s == CONSTRUCTING.(created := s.created, constructionFinished := true) && Generous(h, 7)
    ensures var (s', h') := Returned(p, s, h); s' == s.(returned := Some(|h.log| + 1)) && Generous(h', 6)
  {
    hide Admit, Stamped, Sequenced, Placed;
    NoteGranted(p, h, EffectReturned, Link(s.created.value, Return), 6);
  }

  /** Created, built, returned and cleared: the hooks of an effect that is dropped while its cue runs. */
  function Dropped(p: Producer, h: Stream): (EffectState, Stream) {
    var (s1, h1) := Created(p, CONSTRUCTING, h);
    var (s2, h2) := ConstructionFinished(p, s1, h1, None);
    var (s3, h3) := Returned(p, s2, h2);
    Cleared(p, s3, h3)
  }

  lemma DroppedShows(p: Producer, h: Stream)
    requires Inv(p, CONSTRUCTING, h) && Generous(h, 8)
    ensures var (s, h') := Dropped(p, h);
            && Inv(p, s, h') && Generous(h', 6)
            && s.failed.None? && !s.finishAttempted && s.ownerTerminal.None? && s.callerOutcome.None?
            && OrderShows(s, CueCompleted, Consumed)
  {
    hide Inv, Generous, Created, Returned, Grows, Continues;
    CreatedGranted(p, CONSTRUCTING, h);
    HookKept(p, CONSTRUCTING, h, OpCreated);
    var (s1, h1) := Created(p, CONSTRUCTING, h);
    HookKept(p, s1, h1, OpConstructionFinished(None));
    var (s2, h2) := ConstructionFinished(p, s1, h1, None);
    ReturnedGranted(p, s2, h2);
    HookKept(p, s2, h2, OpReturned);
    var (s3, h3) := Returned(p, s2, h2);
    HookKept(p, s3, h3, OpCleared);
  }

  lemma HookKept(p: Producer, s: EffectState, h: Stream, op: Op)
    requires Inv(p, s, h) && !op.OpOwnerTerminal?
    ensures Inv(p, Apply(p, s, h, op).0, Apply(p, s, h, op).1)
  {
    hide Inv, Apply, Grows, Continues;
    ApplyKept(p, s, h, op);
  }

  const SCENE := EMPTY_SCOPE.(scene := Some(0))

  const DROPPED := Producer(0, 0, SCENE.(cue := Some(0), effect := Some(0)), 2, 1)

  ghost function Empty(): Stream {
    NewStream(0, (_: nat) => true, (_: nat) => 0)
  }

  ghost function SceneStarted(): Stream {
    Admit(Empty(), Start(SCENE, SceneLifecycle, None, [])).stream
  }

  ghost function EffectStarted(): Stream {
    Admit(SceneStarted(), Start(DROPPED.scope, EffectLifecycle, Some(1), Caused(1, FollowsFrom))).stream
  }

  lemma EmptyIsGenerous()
    ensures Sequenced(Empty()) && Generous(Empty(), 10) && |Empty().log| == 0 && Empty().index == EMPTY_INDEX
  {
  }

  lemma SceneIsOpen()
    ensures var h := SceneStarted();
            && Sequenced(h) && Generous(h, 9) && |h.log| == 1 && Encloses(h, 1, DROPPED.scope)
            && RecordOwner(h.index.spans[1]) == Outside && Owns(h, EffectOwner(0), {})
            && !h.log[0].body.Instant?
  {
    EmptyIsGenerous();
    var c := Start(SCENE, SceneLifecycle, None, []);
    assert Sound(Empty(), c) by { hide Empty; }
    hide Empty;
    SoundGranted(Empty(), c, 9);
    AdmitSpans(Empty(), c);
    AdmitCases(Empty(), c);
    hide Admit, Stamped, Sequenced, Commit, Committable;
  }

  lemma EffectIsOpen()
    ensures Inv(DROPPED, CONSTRUCTING, EffectStarted()) && Generous(EffectStarted(), 8)
  {
    SceneIsOpen();
    hide SceneStarted;
    var h, link := SceneStarted(), Link(1, FollowsFrom);
    var c := Start(DROPPED.scope, EffectLifecycle, Some(1), [link]);
    assert Sound(h, c) by { hide Generous; }
    hide Sound, Generous, Grows, Continues, Placed, Admit, Encloses, Owns;
    SoundGranted(h, c, 8);
    StartKept(DROPPED, h, link);
    FirstInv(h, Admit(h, c).stream, c);
  }

  lemma FirstInv(h: Stream, h': Stream, c: Candidate)
    requires Placed(DROPPED, h', true) && |h.log| == 1 && !h.log[0].body.Instant? && !c.body.Instant?
    requires h'.log == h.log + [Materialize(h, c)]
    ensures Inv(DROPPED, CONSTRUCTING, h')
  {
    hide Held, Owns, Sequenced;
    assert forall j :: !ConsumedAt(h'.log, j, 0);
  }

  /** Such a run exists, and there the two orders leave different logs behind. */
  lemma OrderShowsInARun()
    ensures var (s, h) := Dropped(DROPPED, EffectStarted());
            var o := OwnerTerminal(DROPPED, s, h, CueCompleted, 1);
            var oc := CallerFinished(DROPPED, o.0, o.1, Consumed);
            var c := CallerFinished(DROPPED, s, h, Consumed);
            var co := OwnerTerminal(DROPPED, c.0, c.1, CueCompleted, 1);
            Inv(DROPPED, s, h) && oc.1.log != co.1.log
  {
    EffectIsOpen();
    hide EffectStarted;
    DroppedShows(DROPPED, EffectStarted());
    var (s, h) := Dropped(DROPPED, EffectStarted());
    hide Dropped, OwnerTerminal, CallerFinished, Inv;
    ClearedOrderShows(DROPPED, s, h, CueCompleted, 1, Consumed);
  }
}
