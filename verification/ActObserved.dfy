/** Acts under observation: custom code opens spans and places instants of its own under the spans of
    an act. When every reservation is granted, a turn can be ended exactly when whatever was opened
    under it has been finished and the stamps fit what it holds. */
module ActObserved {
  import opened Events
  import opened Validator
  import opened Hub
  import opened Act
  import opened ActProofs
  import AR = ActRun
  import S = Stage
  import SR = StageRuns

  lemma NoteGranted(p: Producer, s: ActState, h: Stream, scope: Scope, kind: InstantKind, span: nat, link: Link, n: nat)
    requires Placed(p, s, h) && PlacedIn(p, s, scope, span) && Known(h, link.source) && Generous(h, n + 1)
    ensures var a := Admit(h, Note(scope, kind, span, [link]));
            && a.sequence == Some(|h.log| + 1) && a.stream.refusal == h.refusal
            && Generous(a.stream, n) && |a.stream.log| == |h.log| + 1 && Placed(p, s, a.stream)
            && a.stream.attempts == h.attempts + 1 && SameSpans(h, a.stream)
  {
    var c := Note(scope, kind, span, [link]);
    assert Sound(h, c);
    NoteStep(h, c, ActOwner(p.id));
    hide Admit, Sound, Grows, Continues, Stamped;
    SoundGranted(h, c, n);
    SameSpansKept(p, s, h, Admit(h, c).stream);
  }

  lemma SampleGranted(p: Producer, s: ActState, h: Stream, value: nat, link: Link, n: nat)
    requires Placed(p, s, h) && s.turnSpan.Some? && Known(h, link.source) && Generous(h, n + 1)
    ensures var a := Admit(h, Sample(s.turnScope.value, AgentTurnActive, value, [link]));
            && a.sequence == Some(|h.log| + 1) && a.stream.refusal == h.refusal
            && Generous(a.stream, n) && |a.stream.log| == |h.log| + 1 && Placed(p, s, a.stream)
            && a.stream.attempts == h.attempts + 1 && SameSpans(h, a.stream)
  {
    var c := Sample(s.turnScope.value, AgentTurnActive, value, [link]);
    assert Sound(h, c);
    NoteStep(h, c, ActOwner(p.id));
    hide Admit, Sound, Grows, Continues, Stamped;
    SoundGranted(h, c, n);
    SameSpansKept(p, s, h, Admit(h, c).stream);
  }

  lemma ClearSame(h: Stream, h': Stream, span: nat)
    requires SameSpans(h, h')
    ensures Clear(h, span) <==> Clear(h', span)
  {
  }

  // ----- The end of a turn -----

  /** An instant inside the open turn: taken exactly when it is reserved and its stamp is not before
      the turn's start. */
  lemma NoteTakenIff(p: Producer, s: ActState, h: Stream, kind: InstantKind, link: Link)
    requires Placed(p, s, h) && s.turnSpan.Some? && s.turnTerminal.None? && Known(h, link.source)
    ensures var span := s.turnSpan.value;
            var a := Admit(h, Note(s.turnScope.value, kind, span, [link]));
            && (a.sequence.Some? <==> Reserved(h) && Begun(h, span, Stamp(h)))
            && (a.sequence.None? && Reserved(h) && h.refusal.None? ==> a.stream.refusal == Some(ChildOutsideParent))
            && (a.sequence.Some? ==> a.sequence == Some(|a.stream.log|) && Taken(h, a.stream, span, 1) && Placed(p, s, a.stream))
  {
    hide Sound, Spans, Referenced, OwnedBy, Sequenced, Admit, InTime, OverBy, Begun, Taken, SameSpans, Reserved, Proper;
    TurnNoteSound(p, s, h, kind, link);
    var span, c := s.turnSpan.value, Note(s.turnScope.value, kind, s.turnSpan.value, [link]);
    ReferencedTakenIff(h, c);
    AdmitLog(h, c);
    NoteStays(h, c, ActOwner(p.id));
    SameSpansKept(p, s, h, Admit(h, c).stream);
    if Admit(h, c).sequence.Some? {
      TakenNote(h, c, span);
    }
  }

  lemma NoteStays(h: Stream, c: Candidate, who: Owner)
    requires Sequenced(h) && OwnedBy(h, c, who) && Referenced(h, c) && !who.Outside? && c.body.Instant?
    ensures Sequenced(Admit(h, c).stream) && SameSpans(h, Admit(h, c).stream)
  {
    hide OwnedBy, Referenced, Admit, SameSpans, Grows;
    NoteStep(h, c, who);
    AdmitSequenced(h, c);
  }

  lemma TurnNoteSound(p: Producer, s: ActState, h: Stream, kind: InstantKind, link: Link)
    requires Placed(p, s, h) && s.turnSpan.Some? && s.turnTerminal.None? && Known(h, link.source)
    ensures var c := Note(s.turnScope.value, kind, s.turnSpan.value, [link]);
            && Sound(h, c) && Referenced(h, c) && OwnedBy(h, c, ActOwner(p.id)) && s.turnScope.Some?
            && (InTime(h, c) <==> Begun(h, s.turnSpan.value, Stamp(h))) && RefusalCode(h, c) == ChildOutsideParent
  {
  }

  /** What `n` instants taken into a span change about it. */
  ghost predicate Taken(h: Stream, h': Stream, span: nat, n: nat) {
    && |h'.log| == |h.log| + n && h'.refusal == h.refusal
    && h'.attempts == h.attempts + n && h'.stamps == h.stamps && h'.fate == h.fate
    && (Clear(h', span) <==> Clear(h, span))
    && forall t: nat :: && (Begun(h', span, t) <==> Begun(h, span, t))
                        && (OverBy(h', span, t) <==> OverBy(h, span, t) && NotLater(h, n, t))
  }

  lemma TakenNote(h: Stream, c: Candidate, span: nat)
    requires Sequenced(h) && Referenced(h, c) && c.body.Instant? && c.body.containing == Some(span)
    requires Admit(h, c).sequence.Some? && SameSpans(h, Admit(h, c).stream)
    ensures Taken(h, Admit(h, c).stream, span, 1)
  {
    assert span in h.index.spans;
    ReferencedTakenIff(h, c);
    hide Admit, Begun, OverBy, Clear, SameSpans, Sequenced, Proper, Referenced;
    var h' := Admit(h, c).stream;
    AdmitCases(h, c);
    ClearSame(h, h', span);
    forall t: nat ensures && (Begun(h', span, t) <==> Begun(h, span, t))
                          && (OverBy(h', span, t) <==> OverBy(h, span, t) && NotLater(h, 1, t))
    {
      NoteContained(h, c, span, t);
      assert NotLater(h, 1, t) <==> Stamp(h) <= t;
    }
  }

  lemma TakenTwice(h: Stream, h1: Stream, h2: Stream, span: nat)
    requires Taken(h, h1, span, 1) && Taken(h1, h2, span, 1)
    ensures Taken(h, h2, span, 2)
    ensures BegunBy(h, span, 2) <==> Begun(h, span, Stamp(h)) && Begun(h1, span, Stamp(h1))
    ensures ReservedFor(h, 2) <==> Reserved(h) && Reserved(h1)
  {
    hide Begun, OverBy, Clear;
    forall t: nat ensures NotLater(h, 2, t) <==> NotLater(h, 1, t) && NotLater(h1, 1, t) {
      assert NotLater(h, 2, t) <==> h.stamps(h.attempts) <= t && h.stamps(h.attempts + 1) <= t;
    }
  }

  /** How many instants announce the end of a turn. */
  function Announcements(settlement: Settlement): nat {
    if settlement.Authoritative? then 2 else 1
  }

  /** The next `n` stamps are not before the start of the span. */
  ghost predicate BegunBy(h: Stream, span: nat, n: nat) {
    forall k: nat :: h.attempts <= k < h.attempts + n ==> Begun(h, span, h.stamps(k))
  }

  /** The next `n` stamps are not after `t`. */
  ghost predicate NotLater(h: Stream, n: nat, t: nat) {
    forall k: nat :: h.attempts <= k < h.attempts + n ==> h.stamps(k) <= t
  }

  lemma AnnounceIff(p: Producer, s: ActState, h: Stream, settlement: Settlement)
    requires Placed(p, s, h) && s.turnSpan.Some? && s.turnTerminal.None? && s.activity.Some?
    requires Known(h, Or(s.handoff, s.activity).value)
    ensures var b, span, m := AnnounceTerminal(s, h, settlement), s.turnSpan.value, Announcements(settlement);
            && (b.sequence.Some? <==> ReservedFor(h, m) && BegunBy(h, span, m))
            && (b.sequence.None? && ReservedFor(h, m) && h.refusal.None? ==> b.stream.refusal == Some(ChildOutsideParent))
            && (b.sequence.Some? ==> b.sequence == Some(|b.stream.log|) && Taken(h, b.stream, span, m) && Placed(p, s, b.stream))
  {
    hide Admit, Begun, Taken, Sequenced, Held, Owns;
    var scope, span, link := s.turnScope.value, s.turnSpan.value, Link(Or(s.handoff, s.activity).value, Return);
    NoteTakenIff(p, s, h, AgentTurnTerminal, link);
    assert BegunBy(h, span, 1) <==> Begun(h, span, Stamp(h));
    assert BegunBy(h, span, 2) ==> BegunBy(h, span, 1);
    ReservedOne(h);
    hide BegunBy, ReservedFor, Reserved;
    var a := Admit(h, Note(scope, AgentTurnTerminal, span, [link]));
    if a.sequence.Some? && settlement.Authoritative? {
      var link2 := Link(a.sequence.value, FollowsFrom);
      TakenKeeps(h, a.stream, span);
      NoteTakenIff(p, s, a.stream, AgentTurnSettled, link2);
      SettledIff(h, a.stream, Admit(a.stream, Note(scope, AgentTurnSettled, span, [link2])), span);
    }
  }

  lemma ReservedOne(h: Stream)
    ensures (ReservedFor(h, 1) <==> Reserved(h)) && (ReservedFor(h, 2) ==> Reserved(h))
  {
  }

  lemma TakenKeeps(h: Stream, h': Stream, span: nat)
    requires Taken(h, h', span, 1)
    ensures h'.refusal == h.refusal && |h.log| <= |h'.log|
  {
    hide Begun, OverBy, Clear;
  }

  lemma SettledIff(h: Stream, h1: Stream, b: Admission, span: nat)
    requires Taken(h, h1, span, 1) && Reserved(h) && Begun(h, span, Stamp(h))
    requires b.sequence.Some? <==> Reserved(h1) && Begun(h1, span, Stamp(h1))
    requires b.sequence.Some? ==> Taken(h1, b.stream, span, 1)
    ensures b.sequence.Some? <==> ReservedFor(h, 2) && BegunBy(h, span, 2)
    ensures b.sequence.Some? ==> Taken(h, b.stream, span, 2)
    ensures ReservedFor(h, 2) ==> Reserved(h1)
  {
    hide Begun, OverBy, Clear;
    if b.sequence.Some? { TakenTwice(h, h1, b.stream, span); }
    assert ReservedFor(h, 2) ==> h.fate(h.attempts + 1);
    assert BegunBy(h, span, 2) ==> Begun(h, span, h.stamps(h.attempts + 1));
  }

  /** The stamps fit a turn that is about to end: its announcements are not before its start, and
      its finish is not before the announcements nor before anything else the turn holds. */
  ghost predicate EndsInTime(h: Stream, span: nat, settlement: Settlement) {
    var n := Announcements(settlement);
    var last := h.stamps(h.attempts + n);
    BegunBy(h, span, n) && NotLater(h, n, last) && OverBy(h, span, last)
  }

  /** The hook that ends an open turn, whatever the reserver answers and whatever the stamps: the act
      stays healthy exactly when its events are reserved, nobody else's span is open under the turn
      and the stamps fit; otherwise it fails, and if all was reserved it is because the hub refused
      an instant or the finish for its nesting. */
  lemma TurnEndsIff(p: Producer, s: ActState, h: Stream, m: Metadata, settlement: Settlement,
                    outcome: Outcome, code: Option<string>)
    requires Inv(p, s, h) && s.failed.None? && s.turnSpan.Some? && s.settlement.None? && MetadataFault(p, m).None?
    requires settlement != NotSubmitted && DetailIsValid(outcome, code)
    ensures var r, span := TurnTerminal(p, s, h, m, settlement, outcome, code), s.turnSpan.value;
            var reserved := ReservedFor(h, Announcements(settlement) + 2);
            && (r.0.failed.None? <==> reserved && Clear(h, span) && EndsInTime(h, span, settlement))
            && (r.0.failed.None? ==> r.1.refusal == h.refusal && r.0.settlement == Some(settlement))
            && (r.0.failed.Some? ==> r.0.failed == Some(AdmissionFailed))
            && (r.0.failed.Some? && reserved && h.refusal.None? ==> r.1.refusal == Some(TurnRefusal(h, span, settlement)))
  {
    hide AnnounceTerminal, EndTurn, Held, Owns, Clear, OverBy, Begun, MetadataFault, BegunBy, NotLater, Taken;
    AnnounceIff(p, s, h, settlement);
    var b := AnnounceTerminal(s, h, settlement);
    var span, t := s.turnSpan.value, Terminal(outcome, code);
    ReservedMore(h, Announcements(settlement));
    hide ReservedFor;
    if b.sequence.Some? {
      EndsAfter(h, b.stream, span, settlement);
      PlacedInv(p, s, h, b.stream);
      hide Inv;
      EndTurnIff(p, s, b.stream, b.sequence.value, settlement, t);
      assert MaybeFinish(p, CloseTurn(s, h, settlement, t).0, CloseTurn(s, h, settlement, t).1) == CloseTurn(s, h, settlement, t);
    }
  }

  /** Once the announcements are taken, the stamps fit exactly when the stamp of the finish does. */
  lemma EndsAfter(h: Stream, h': Stream, span: nat, settlement: Settlement)
    requires var n := Announcements(settlement); Taken(h, h', span, n) && BegunBy(h, span, n)
    ensures EndsInTime(h, span, settlement) <==> OverBy(h', span, Stamp(h'))
    ensures Begun(h', span, Stamp(h')) <==> Begun(h, span, h.stamps(h.attempts + Announcements(settlement)))
    ensures (Clear(h', span) <==> Clear(h, span)) && |h.log| <= |h'.log| && h'.refusal == h.refusal
    ensures ReservedFor(h, Announcements(settlement)) ==> (ReservedFor(h, Announcements(settlement) + 2) <==> ReservedFor(h', 2))
  {
    hide Begun, OverBy, Clear, BegunBy, NotLater;
    var n := Announcements(settlement);
    if ReservedFor(h', 2) && ReservedFor(h, n) {
      assert forall k: nat :: h.attempts <= k < h.attempts + n + 2 ==>
        h.fate(k) by { assert forall k: nat :: h'.attempts <= k < h'.attempts + 2 ==> h'.fate(k); }
    }
  }

  lemma ReservedMore(h: Stream, n: nat)
    ensures ReservedFor(h, n + 2) ==> ReservedFor(h, n)
  {
  }

  /** The fault the hub finds when such a turn cannot end. */
  ghost function TurnRefusal(h: Stream, span: nat, settlement: Settlement): Code {
    var n := Announcements(settlement);
    if BegunBy(h, span, n) && !Begun(h, span, h.stamps(h.attempts + n)) then FinishBeforeStart else ChildOutsideParent
  }

  lemma TurnApart(p: Producer, s: ActState, h: Stream)
    requires Inv(p, s, h) && s.failed.None? && s.turnSpan.Some?
    ensures s.turnSpan != s.actSpan
  {
    hide Shape, Milestones, Owns;
  }

  /** The finish itself: taken exactly when it is reserved, the turn is clear and the stamp fits. */
  lemma TurnFinishIff(p: Producer, s: ActState, h: Stream, source: nat, t: Terminal)
    requires Inv(p, s, h) && s.failed.None? && s.turnSpan.Some? && s.settlement.None? && Known(h, source)
    ensures var span := s.turnSpan.value;
            var a := Admit(h, Finish(s.turnScope.value, span, t, Caused(source, Return)));
            && (a.sequence.Some? <==> Reserved(h) && Clear(h, span) && OverBy(h, span, Stamp(h)))
            && (a.sequence.Some? ==> Placed(p, s.(turnTerminal := Some(t)), a.stream) && a.stream.refusal == h.refusal
                                     && a.sequence.value == |a.stream.log|)
            && (a.sequence.None? && Reserved(h) && h.refusal.None? ==>
                  a.stream.refusal == Some(if Begun(h, span, Stamp(h)) then ChildOutsideParent else FinishBeforeStart))
            && (a.sequence.Some? ==> (Reserved(a.stream) <==> ReservedFor(h, 2)))
  {
    TurnApart(p, s, h);
    hide Admit, Clear, OverBy, Begun, Milestones, Held, Owns, Sequenced, TurnScopeOk, Grows, Continues, Reserved, ReservedFor;
    var scope, span, link := s.turnScope.value, s.turnSpan.value, Link(source, Return);
    var c := Finish(scope, span, t, [link]);
    if Reserved(h) { FinishRefused(p, s, h, span, scope, t, link); }
    TurnFinishKept(p, s, h, t, link);
    AdmitLog(h, c);
    FinishReferenced(p, s, h, span, scope, t, link);
    ReferencedTakenIff(h, c);
    ReservedNext(h, c);
  }

  lemma ReservedNext(h: Stream, c: Candidate)
    ensures Admit(h, c).sequence.Some? ==> (Reserved(Admit(h, c).stream) <==> ReservedFor(h, 2))
  {
    AdmitCases(h, c);
    AdmitLog(h, c);
    hide Prepare, Proper;
    assert ReservedFor(h, 2) ==> h.fate(h.attempts + 1);
    assert Admit(h, c).sequence.Some? ==> Reserved(h);
  }

  lemma EndTurnIff(p: Producer, s: ActState, h: Stream, source: nat, settlement: Settlement, t: Terminal)
    requires Inv(p, s, h) && s.failed.None? && s.turnSpan.Some? && s.settlement.None? && settlement != NotSubmitted
    requires Known(h, source)
    ensures var r, span := EndTurn(s, h, source, settlement, t), s.turnSpan.value;
            && (r.0.failed.None? <==> ReservedFor(h, 2) && Clear(h, span) && OverBy(h, span, Stamp(h)))
            && (r.0.failed.None? ==> r.1.refusal == h.refusal && r.0.settlement == Some(settlement) && r.0.usageAck.None?)
            && (r.0.failed.Some? ==> r.0.failed == Some(AdmissionFailed))
            && (r.0.failed.Some? && ReservedFor(h, 2) && h.refusal.None? ==>
                  r.1.refusal == Some(if Begun(h, span, Stamp(h)) then ChildOutsideParent else FinishBeforeStart))
  {
    SettleFits(s, settlement);
    assert s.turnScope.Some? && s.usageAck.None? && s.usage == Usage(true, None) by { hide Spans, Milestones; }
    ReservedOne(h);
    hide Admit, Clear, OverBy, Begun, Inv, Placed, Settle, Reserved, ReservedFor;
    TurnFinishIff(p, s, h, source, t);
    var c := Admit(h, Finish(s.turnScope.value, s.turnSpan.value, t, Caused(source, Return)));
    if c.sequence.Some? {
      SampleTaken(p, s.(turnTerminal := Some(t)), c.stream, Link(c.sequence.value, FollowsFrom));
    }
  }

  /** The inactive sample stands in no span, so no stamp is too old for it. */
  lemma SampleTaken(p: Producer, s: ActState, h: Stream, link: Link)
    requires Placed(p, s, h) && s.turnSpan.Some? && Known(h, link.source)
    ensures var a := Admit(h, Sample(s.turnScope.value, AgentTurnActive, 0, [link]));
            (a.sequence.Some? <==> Reserved(h)) && a.stream.refusal == h.refusal
  {
    var c := Sample(s.turnScope.value, AgentTurnActive, 0, [link]);
    assert Sound(h, c);
    hide Admit, Sound;
    SoundAccepted(h, c);
  }

  /** The shared identity takes the settlement of a submitted prompt. */
  lemma SettleFits(s: ActState, settlement: Settlement)
    requires settlement != NotSubmitted
    ensures s.usage == Usage(true, None) ==> Settle(s.usage, settlement).Some?
  {
  }

  // ----- Two runs in which a turn cannot end -----

  lemma StartGranted(p: Producer, h: Stream)
    requires ProducerOk(p) && Sequenced(h) && Owns(h, ActOwner(p.id), {}) && Generous(h, 9)
    ensures var (s, h') := StartAct(p, PREPARED, h);
            && s.failed.None? && Generous(h', 6) && h'.refusal == h.refusal && h'.attempts == h.attempts + 3
            && s == PREPARED.(actSpan := s.actSpan, callerSpan := s.callerSpan, admitted := s.admitted)
  {
    hide Admit, Stamped, Held, Owns, Grows, Continues;
    var c1 := Start(p.scope, ActLifecycle, None, []);
    ActStartKept(p, h);
    SoundGranted(h, c1, 8);
    var a := Admit(h, c1);
    var act, c2 := a.sequence.value, Start(p.scope, ActCaller, a.sequence, []);
    assert Sound(a.stream, c2) by { HeldEncloses(a.stream, act, p.scope); }
    CallerStartKept(p, a.stream, act);
    SoundGranted(a.stream, c2, 7);
    var b := Admit(a.stream, c2);
    hide Sequenced;
    NoteGranted(p, PREPARED.(actSpan := a.sequence, callerSpan := b.sequence), b.stream, p.scope, ActAdmitted, act,
                Link(b.sequence.value, FollowsFrom), 6);
  }

  lemma HeldEncloses(h: Stream, span: nat, scope: Scope)
    requires Held(h, span, scope, None, true)
    ensures Encloses(h, span, scope)
  {
  }

  lemma DriverGranted(p: Producer, s: ActState, h: Stream)
    requires Inv(p, s, h) && s.failed.None? && s.waiting.None? && s.callerTerminal.None? && Generous(h, 6)
    ensures var (s', h') := DriverStarted(p, s, h);
            && s' == s.(waiting := Some(|h.log| + 1)) && Generous(h', 5) && h'.refusal == h.refusal
            && h'.attempts == h.attempts + 1
  {
    hide Admit, Stamped, Held, Owns, Sequenced;
    NoteGranted(p, s, h, p.scope, ActWaitingReady, s.actSpan.value, Link(s.admitted.value, FollowsFrom), 5);
  }

  /** No span on record came after this one, so none stands under it. */
  ghost predicate Newest(h: Stream, span: nat) {
    forall x :: x in h.index.spans ==> x <= span
  }

  lemma NewestClear(h: Stream, span: nat)
    requires Sequenced(h) && Newest(h, span) && span in h.index.spans && RecordOwner(h.index.spans[span]) != Outside
    ensures Clear(h, span)
  {
  }

  lemma TurnStartGranted(p: Producer, s: ActState, h: Stream, scope: Scope, link: Link, n: nat)
    requires Placed(p, s, h) && !s.finishAttempted && s.turnSpan.None? && s.turnTerminal.None?
    requires TurnScopeOk(p, scope) && Known(h, link.source) && Generous(h, n + 1)
    ensures var a := Admit(h, Start(scope, AgentTurn, s.actSpan, [link]));
            && a.sequence == Some(|h.log| + 1) && a.stream.refusal == h.refusal
            && Generous(a.stream, n) && |a.stream.log| == |h.log| + 1 && a.stream.attempts == h.attempts + 1
            && Placed(p, s.(turnSpan := a.sequence, turnScope := Some(scope)), a.stream)
            && Newest(a.stream, a.sequence.value)
  {
    var c := Start(scope, AgentTurn, s.actSpan, [link]);
    assert Sound(h, c);
    TurnStartKept(p, s, h, scope, link);
    AdmitSpans(h, c);
    SoundGranted(h, c, n);
    hide Admit, Sound, Grows, Continues, Stamped, Spans, TurnScopeOk, SameIdentity;
    assert forall x :: x in h.index.spans ==> x <= |h.log|;
  }

  lemma PromptGranted(p: Producer, s: ActState, h: Stream, m: Metadata)
    requires Inv(p, s, h) && s.failed.None? && s.waiting.Some? && s.prompt.None? && s.callerTerminal.None? && s.settlement.None?
    requires MetadataFault(p, m).None? && m.generation > 0 && Generous(h, 5)
    ensures var (s', h') := PromptSubmitted(p, s, h, m);
            && s'.failed.None? && s'.turnSpan.Some? && s'.settlement.None? && s'.callerTerminal.None?
            && Generous(h', 1) && h'.refusal == h.refusal && h'.attempts == h.attempts + 4
            && Newest(h', s'.turnSpan.value)
  {
    hide Admit, Stamped, Held, Owns, Sequenced;
    var scope, s1, link := TurnScope(p, m), s.(usage := MarkPromptSubmitted(s.usage).value), Link(s.waiting.value, FollowsFrom);
    assert TurnScopeOk(p, scope);
    hide TurnScope, TurnScopeOk;
    NoteGranted(p, s1, h, p.scope, ActPromptSubmitted, s.actSpan.value, link, 4);
    var a := Admit(h, Note(p.scope, ActPromptSubmitted, s.actSpan.value, [link]));
    var link2 := Link(a.sequence.value, Dispatch);
    TurnStartGranted(p, s1, a.stream, scope, link2, 3);
    var b := Admit(a.stream, Start(scope, AgentTurn, s.actSpan, [link2]));
    var s2, link3 := s1.(turnSpan := b.sequence, turnScope := Some(scope)), Link(b.sequence.value, FollowsFrom);
    SampleGranted(p, s2, b.stream, 1, link3, 2);
    var c := Admit(b.stream, Sample(scope, AgentTurnActive, 1, [link3]));
    NoteGranted(p, s2, c.stream, scope, AgentTurnActivity, b.sequence.value, Link(c.sequence.value, FollowsFrom), 1);
  }

  /** A custom span in the scope of the open turn. */
  function CustomSpan(s: ActState): Candidate
    requires s.turnScope.Some?
  {
    Candidate(s.turnScope.value, [], SpanStarted(None, s.turnSpan))
  }

  /** A custom instant in the open turn. */
  function CustomInstant(s: ActState): Candidate
    requires s.turnScope.Some?
  {
    Candidate(s.turnScope.value, [], Instant(OtherInstant, s.turnSpan))
  }

  /** The hub takes the custom span, and then the turn is not clear. */
  lemma CustomSpanTaken(p: Producer, s: ActState, h: Stream)
    requires Inv(p, s, h) && s.failed.None? && s.turnSpan.Some? && s.turnTerminal.None? && Generous(h, 1)
    ensures var a := Admit(h, CustomSpan(s));
            && Generous(a.stream, 0) && a.stream.attempts == h.attempts + 1 && !Clear(a.stream, s.turnSpan.value)
  {
    var c := CustomSpan(s);
    assert Sound(h, c);
    AdmitSpans(h, c);
    SoundGranted(h, c, 0);
    hide Admit, Sound, Stamped, Sequenced, Milestones, Owns;
    assert Admit(h, c).sequence.value in Admit(h, c).stream.index.spans;
  }

  /** The hub takes the custom instant, and then the turn is not over before its stamp. */
  lemma CustomInstantTaken(p: Producer, s: ActState, h: Stream)
    requires Inv(p, s, h) && s.failed.None? && s.turnSpan.Some? && s.turnTerminal.None? && Generous(h, 1)
    ensures var a := Admit(h, CustomInstant(s));
            && Generous(a.stream, 0) && a.stream.attempts == h.attempts + 1 && SameSpans(h, a.stream)
            && forall t: nat :: t < Stamp(h) ==> !OverBy(a.stream, s.turnSpan.value, t)
  {
    var c := CustomInstant(s);
    assert Sound(h, c) && s.turnSpan.value in h.index.spans;
    SoundGranted(h, c, 0);
    AdmitSpans(h, c);
    hide Admit, Sound, Stamped, Sequenced, Milestones, Owns, OverBy;
    forall t: nat ensures t < Stamp(h) ==> !OverBy(Admit(h, c).stream, s.turnSpan.value, t) {
      NoteContained(h, c, s.turnSpan.value, t);
    }
  }

  const OBSERVED := Producer(0, EMPTY_SCOPE.(act := Some(0)), 0, 0)

  const META := Metadata(0, 0, 1)

  /** One stamp, the ninth, may be later than the others. */
  function Stamps(ninth: nat): nat -> nat {
    (k: nat) => if k == 8 then ninth else 0
  }

  /** A stage with one healthy act on it and nothing refused so far, `n` attempts before the tenth. */
  ghost predicate OneAct(w: S.Stage, a: Act, n: nat, ninth: nat) {
    && S.Inv(w) && w.acts == map[0 := a] && a.producer == OBSERVED && a.state.failed.None?
    && Generous(w.h, n) && w.h.refusal.None? && w.h.attempts + n == 9 && w.h.stamps == Stamps(ninth)
  }

  lemma OneActInv(w: S.Stage, a: Act, n: nat, ninth: nat)
    requires OneAct(w, a, n, ninth)
    ensures Inv(OBSERVED, a.state, w.h) && Shape(a.state)
  {
    hide S.CuesOk, S.EffectsOk, S.Fresh, S.Told, Spans, Milestones, Generous, AR.Shown;
    assert w.acts[0] == a;
    assert AR.ActInv(a, w.h);
  }

  lemma StartIs(w: S.Stage, p: Producer)
    requires p.id !in w.acts && ProducerOk(p)
    ensures var op, r := S.StartAct(p), StartAct(p, PREPARED, w.h);
            && S.OpOk(w, op) && S.Step(w, op).h == r.1 && S.Step(w, op).acts == w.acts[p.id := Act(p, r.0, InProducer)]
  {
    hide StartAct;
  }

  lemma HookIs(w: S.Stage, hook: Op)
    requires 0 in w.acts && AR.OpOk(hook, w.h)
    ensures var op, r := S.ActHook(0, hook), Step(w.acts[0], w.h, hook);
            && S.OpOk(w, op) && S.Step(w, op).h == r.1 && S.Step(w, op).acts == w.acts[0 := r.0]
            && S.OpCloses(w, op) == AR.HookCloses(w.acts[0], hook)
  {
    hide Step, AR.HookCloses;
  }

  predicate Custom(c: Candidate) {
    || (c.body.SpanStarted? && c.body.kind.None?)
    || (c.body.Instant? && c.body.instant == OtherInstant)
  }

  lemma ForeignIs(w: S.Stage, c: Candidate)
    requires Custom(c)
    ensures var op := S.Foreign(c, false);
            S.OpOk(w, op) && S.Step(w, op).h == S.Aside(Admit(w.h, c).stream, w.h) && S.Step(w, op).acts == w.acts
  {
    hide Admit;
  }

  /** A hook that leaves the act healthy leads to another such stage. */
  lemma HookStep(w: S.Stage, a: Act, n: nat, hook: Op, m: nat, ninth: nat)
    requires OneAct(w, a, n, ninth) && AR.OpOk(hook, w.h)
    requires var (a', h') := Step(a, w.h, hook);
             a'.state.failed.None? && Generous(h', m) && h'.refusal.None? && h'.attempts + m == 9
    ensures S.OpOk(w, S.ActHook(0, hook)) && OneAct(S.Step(w, S.ActHook(0, hook)), Step(a, w.h, hook).0, m, ninth)
  {
    hide S.Inv, Step, Stamped, S.Step, S.OpOk, Stamps, KeepsCurrent;
    HookIs(w, hook);
    assert w.acts[0] == a;
    S.StepKept(w, S.ActHook(0, hook));
    hide Generous;
    StepProducer(a, w.h, hook);
    assert map[0 := a][0 := Step(a, w.h, hook).0] == map[0 := Step(a, w.h, hook).0];
  }

  lemma StepProducer(a: Act, h: Stream, op: Op)
    ensures Step(a, h, op).0.producer == a.producer
  {
    hide Apply, UsageFinalized;
  }

  lemma NoActYet(w: S.Stage)
    requires S.Inv(w) && w.acts == map[]
    ensures Sequenced(w.h) && Owns(w.h, ActOwner(0), {})
  {
    hide S.CuesOk, S.EffectsOk, S.Told, Sequenced, Owns;
    assert AR.Untouched(w.h, 0);
  }

  lemma StartStep(ninth: nat) returns (a: Act)
    ensures var w, op := FirstStage(ninth), S.StartAct(OBSERVED); S.OpOk(w, op) && OneAct(S.Step(w, op), a, 6, ninth)
    ensures a.state == PREPARED.(actSpan := a.state.actSpan, callerSpan := a.state.callerSpan, admitted := a.state.admitted)
  {
    hide FirstStage, Stamps, S.Inv, Generous, KeepsCurrent, Sequenced, Owns, StartAct, S.Step, S.OpOk, Faithful, Accepts;
    var w := FirstStage(ninth);
    FirstStageInv(ninth);
    a := Act(OBSERVED, StartAct(OBSERVED, PREPARED, w.h).0, InProducer);
    NoActYet(w);
    StartIs(w, OBSERVED);
    StartGranted(OBSERVED, w.h);
    S.StepKept(w, S.StartAct(OBSERVED));
    assert map[][0 := a] == map[0 := a];
  }

  lemma DriverStep(w: S.Stage, a: Act, ninth: nat) returns (a': Act)
    requires OneAct(w, a, 6, ninth) && a.state.waiting.None? && a.state.callerTerminal.None?
    ensures S.OpOk(w, S.ActHook(0, OpDriverStarted)) && OneAct(S.Step(w, S.ActHook(0, OpDriverStarted)), a', 5, ninth)
    ensures a'.state == a.state.(waiting := a'.state.waiting) && a'.state.waiting.Some?
  {
    OneActInv(w, a, 6, ninth);
    assert !Retired(a.state);
    hide S.Inv, Stamped, Inv, Shape, DriverStarted, S.Step, S.OpOk, Stamps;
    DriverGranted(OBSERVED, a.state, w.h);
    a' := Step(a, w.h, OpDriverStarted).0;
    HookStep(w, a, 6, OpDriverStarted, 5, ninth);
  }

  lemma PromptStep(w: S.Stage, a: Act, ninth: nat) returns (a': Act)
    requires OneAct(w, a, 5, ninth) && a.state.waiting.Some? && a.state.callerTerminal.None?
    requires a.state.prompt.None? && a.state.settlement.None?
    ensures S.OpOk(w, S.ActHook(0, OpPromptSubmitted(META)))
    ensures OneAct(S.Step(w, S.ActHook(0, OpPromptSubmitted(META))), a', 1, ninth)
    ensures a'.state.turnSpan.Some? && a'.state.settlement.None?
    ensures Newest(S.Step(w, S.ActHook(0, OpPromptSubmitted(META))).h, a'.state.turnSpan.value)
  {
    OneActInv(w, a, 5, ninth);
    assert !Retired(a.state);
    hide S.Inv, Stamped, Inv, Shape, PromptSubmitted, S.Step, S.OpOk, Stamps;
    PromptGranted(OBSERVED, a.state, w.h, META);
    a' := Step(a, w.h, OpPromptSubmitted(META)).0;
    HookStep(w, a, 5, OpPromptSubmitted(META), 1, ninth);
    OneActIs(w, a, 5, ninth);
    HookIs(w, OpPromptSubmitted(META));
  }

  lemma CustomStep(w: S.Stage, a: Act, c: Candidate, ninth: nat)
    requires OneAct(w, a, 1, ninth)
    requires Custom(c)
    requires Generous(Admit(w.h, c).stream, 0) && Admit(w.h, c).stream.attempts == w.h.attempts + 1
    ensures var op := S.Foreign(c, false);
            && S.OpOk(w, op) && OneAct(S.Step(w, op), a, 0, ninth) && S.OpClear(w, op)
            && S.Step(w, op).h == S.Aside(Admit(w.h, c).stream, w.h)
  {
    assert S.OpCloses(w, S.Foreign(c, false)) == {};
    hide S.Inv, Admit, S.Step, S.OpOk, S.OpCloses, Stamps, Stamped, KeepsCurrent;
    ForeignIs(w, c);
    S.StepKept(w, S.Foreign(c, false));
    S.AsideSame(w.h, Admit(w.h, c).stream);
  }

  const TURN_ENDS := OpTurnTerminal(META, Unknown, Completed, None)

  /** Before the last step the turn is open, and it is not clear or it holds a later stamp. */
  ghost predicate Blocked(w: S.Stage, s: ActState) {
    s.turnSpan.Some? && s.settlement.None? && (!Clear(w.h, s.turnSpan.value) || !OverBy(w.h, s.turnSpan.value, 0))
  }

  lemma TurnStep(w: S.Stage, a: Act, ninth: nat)
    requires OneAct(w, a, 0, ninth) && Blocked(w, a.state)
    ensures var r := Step(a, w.h, TURN_ENDS);
            r.0.state.failed == Some(AdmissionFailed) && r.1.refusal == Some(ChildOutsideParent)
  {
    OneActInv(w, a, 0, ninth);
    var s := a.state;
    assert s.turnTerminal.None? && !Retired(s);
    assert w.h.stamps(10) == 0 && w.h.stamps(9) == 0;
    hide S.Inv, Inv, Stamped, Clear, OverBy, Begun, TurnTerminal, Shape;
    TurnEndsIff(OBSERVED, s, w.h, META, Unknown, Completed, None);
    assert BegunBy(w.h, s.turnSpan.value, 1) ==> Begun(w.h, s.turnSpan.value, w.h.stamps(9));
  }

  /** The act has failed for a finish that the hub refused. */
  ghost predicate Refused(w: S.Stage) {
    0 in w.acts && w.acts[0].state.failed == Some(AdmissionFailed) && w.h.refusal == Some(ChildOutsideParent)
  }

  lemma OneActIs(w: S.Stage, a: Act, n: nat, ninth: nat)
    requires OneAct(w, a, n, ninth)
    ensures 0 in w.acts && w.acts[0] == a
  {
    hide S.Inv, Generous;
  }

  /** The last hook closes at most the turn. */
  lemma TurnCloses(w: S.Stage, a: Act, ninth: nat)
    requires OneAct(w, a, 0, ninth) && Blocked(w, a.state)
    ensures AR.HookCloses(a, TURN_ENDS) == {a.state.turnSpan.value}
  {
    OneActInv(w, a, 0, ninth);
    hide S.Inv, Clear, OverBy, Generous;
  }

  lemma LastStep(w: S.Stage, a: Act, ninth: nat)
    requires OneAct(w, a, 0, ninth) && Blocked(w, a.state)
    ensures S.OpOk(w, S.ActHook(0, TURN_ENDS)) && (S.OpClear(w, S.ActHook(0, TURN_ENDS)) <==> Clear(w.h, a.state.turnSpan.value))
    ensures Refused(S.Step(w, S.ActHook(0, TURN_ENDS)))
  {
    hide OneAct, Step, Clear, OverBy, S.Step, S.OpOk, S.OpCloses, AR.HookCloses;
    TurnStep(w, a, ninth);
    TurnCloses(w, a, ninth);
    OneActIs(w, a, 0, ninth);
    HookIs(w, TURN_ENDS);
    assert AllClear(w.h, {a.state.turnSpan.value}) <==> Clear(w.h, a.state.turnSpan.value);
  }

  lemma RunUnfolds(w: S.Stage, ops: seq<S.StageOp>, n: nat)
    requires n < |ops|
    ensures SR.Run(w, ops[n..]) == SR.Run(S.Step(w, ops[n]), ops[n + 1..])
    ensures SR.RunOk(w, ops[n..]) <==> S.OpOk(w, ops[n]) && SR.RunOk(S.Step(w, ops[n]), ops[n + 1..])
    ensures SR.RunClear(w, ops[n..]) <==> S.OpClear(w, ops[n]) && SR.RunClear(S.Step(w, ops[n]), ops[n + 1..])
  {
    hide S.Step, S.OpOk, S.OpClear;
    assert ops[n..][1..] == ops[n + 1..] && ops[n..][0] == ops[n];
  }

  lemma EmptyRun(w: S.Stage, ops: seq<S.StageOp>)
    ensures var n := |ops|; SR.Run(w, ops[n..]) == w && SR.RunOk(w, ops[n..]) && SR.RunClear(w, ops[n..])
  {
  }

  ghost function FirstStage(ninth: nat): S.Stage {
    SR.NewStage(0, (_: nat) => true, Stamps(ninth))
  }

  lemma FirstStageInv(ninth: nat)
    ensures var w := FirstStage(ninth);
            && S.Inv(w) && w.acts == map[] && Generous(w.h, 9) && w.h.refusal.None?
            && w.h.attempts == 0 && w.h.stamps == Stamps(ninth)
  {
    SR.NewStageInv(0, (_: nat) => true, Stamps(ninth));
    hide S.Inv, Faithful;
  }

  const START := S.StartAct(OBSERVED)
  const DRIVER := S.ActHook(0, OpDriverStarted)
  const PROMPT := S.ActHook(0, OpPromptSubmitted(META))
  const TERMINAL := S.ActHook(0, TURN_ENDS)

  /** None of the first three hooks closes a span. */
  lemma OpeningClear(w: S.Stage)
    ensures S.OpClear(w, START) && S.OpClear(w, DRIVER) && S.OpClear(w, PROMPT)
  {
    hide Clear;
  }

  /** What the first three hooks lead to. */
  ghost predicate Opening(ninth: nat, w: S.Stage) {
    var w0 := FirstStage(ninth);
    var w1 := S.Step(w0, START);
    var w2 := S.Step(w1, DRIVER);
    && S.OpOk(w0, START) && S.OpOk(w1, DRIVER) && S.OpOk(w2, PROMPT) && w == S.Step(w2, PROMPT)
    && S.OpClear(w0, START) && S.OpClear(w1, DRIVER) && S.OpClear(w2, PROMPT)
  }

  /** A stage with an open turn, and nothing under it. */
  lemma TurnOpens(ninth: nat) returns (a: Act, w: S.Stage)
    ensures Opening(ninth, w)
    ensures OneAct(w, a, 1, ninth) && a.state.turnSpan.Some? && a.state.settlement.None? && Newest(w.h, a.state.turnSpan.value)
  {
    hide S.Step, S.OpOk, S.OpClear, OneAct, FirstStage, Newest;
    var a1 := StartStep(ninth);
    var w1 := S.Step(FirstStage(ninth), START);
    var a2 := DriverStep(w1, a1, ninth);
    var w2 := S.Step(w1, DRIVER);
    a := PromptStep(w2, a2, ninth);
    w := S.Step(w2, PROMPT);
    OpeningClear(FirstStage(ninth));
    OpeningClear(w1);
    OpeningClear(w2);
  }

  /** The first three hooks, something custom, and the end of the turn. */
  function Script(c: Candidate): seq<S.StageOp> {
    [START, DRIVER, PROMPT, S.Foreign(c, false), TERMINAL]
  }

  /** The script is within the rules and ends with the act failed for a refused finish. */
  ghost predicate EndsRefused(ninth: nat, c: Candidate) {
    SR.RunOk(FirstStage(ninth), Script(c)) && Refused(SR.Run(FirstStage(ninth), Script(c)))
  }

  lemma ScriptRuns(ninth: nat, a: Act, w: S.Stage, c: Candidate, w4: S.Stage)
    requires Opening(ninth, w) && w4 == S.Step(w, S.Foreign(c, false))
    requires S.OpOk(w, S.Foreign(c, false)) && S.OpClear(w, S.Foreign(c, false))
    requires OneAct(w4, a, 0, ninth) && Blocked(w4, a.state)
    ensures EndsRefused(ninth, c)
    ensures SR.RunClear(FirstStage(ninth), Script(c)) <==> Clear(w4.h, a.state.turnSpan.value)
  {
    var w0, ops := FirstStage(ninth), Script(c);
    hide S.Step, S.OpOk, S.OpClear, SR.Run, SR.RunOk, SR.RunClear, OneAct, FirstStage, Refused, Clear, OverBy;
    var w1 := S.Step(w0, START);
    var w2 := S.Step(w1, DRIVER);
    LastStep(w4, a, ninth);
    assert ops[0..] == ops;
    RunUnfolds(w0, ops, 0);
    RunUnfolds(w1, ops, 1);
    RunUnfolds(w2, ops, 2);
    RunUnfolds(w, ops, 3);
    RunUnfolds(w4, ops, 4);
    EmptyRun(S.Step(w4, TERMINAL), ops);
  }

  lemma ScopeThere(w: S.Stage, a: Act, ninth: nat)
    requires OneAct(w, a, 1, ninth) && a.state.turnSpan.Some? && a.state.settlement.None?
    ensures a.state.turnScope.Some? && Inv(OBSERVED, a.state, w.h) && a.state.failed.None? && a.state.turnTerminal.None?
    ensures Stamp(w.h) == ninth && Generous(w.h, 1)
    ensures Newest(w.h, a.state.turnSpan.value) ==> Clear(w.h, a.state.turnSpan.value)
  {
    OneActInv(w, a, 1, ninth);
    assert a.state.turnTerminal.None? && a.state.turnScope.Some?;
    if Newest(w.h, a.state.turnSpan.value) {
      hide S.Inv, Generous, Milestones, Shape, Owns, Newest;
      NewestClear(w.h, a.state.turnSpan.value);
    }
    hide S.Inv, Inv, Generous;
  }

  lemma SpanBlocks(w: S.Stage, a: Act) returns (c: Candidate, w4: S.Stage)
    requires OneAct(w, a, 1, 0) && a.state.turnSpan.Some? && a.state.settlement.None?
    ensures c.body.SpanStarted? && c.body.kind.None?
    ensures w4 == S.Step(w, S.Foreign(c, false)) && S.OpOk(w, S.Foreign(c, false)) && S.OpClear(w, S.Foreign(c, false))
    ensures OneAct(w4, a, 0, 0) && Blocked(w4, a.state) && !Clear(w4.h, a.state.turnSpan.value)
  {
    hide OneAct, S.Step, S.OpOk, S.OpClear, Inv, Generous, OverBy, Admit;
    ScopeThere(w, a, 0);
    c := CustomSpan(a.state);
    CustomSpanTaken(OBSERVED, a.state, w.h);
    CustomStep(w, a, c, 0);
    w4 := S.Step(w, S.Foreign(c, false));
    AsideHolds(Admit(w.h, c).stream, w.h, a.state.turnSpan.value);
  }

  lemma InstantBlocks(w: S.Stage, a: Act) returns (c: Candidate, w4: S.Stage)
    requires OneAct(w, a, 1, 1) && a.state.turnSpan.Some? && a.state.settlement.None? && Newest(w.h, a.state.turnSpan.value)
    ensures c.body.Instant?
    ensures w4 == S.Step(w, S.Foreign(c, false)) && S.OpOk(w, S.Foreign(c, false)) && S.OpClear(w, S.Foreign(c, false))
    ensures OneAct(w4, a, 0, 1) && Blocked(w4, a.state) && Clear(w4.h, a.state.turnSpan.value)
  {
    hide OneAct, S.Step, S.OpOk, S.OpClear, Inv, Generous, OverBy, Admit, Clear, SameSpans, Newest;
    ScopeThere(w, a, 1);
    c := CustomInstant(a.state);
    CustomInstantTaken(OBSERVED, a.state, w.h);
    ClearSame(w.h, Admit(w.h, c).stream, a.state.turnSpan.value);
    AsideHolds(Admit(w.h, c).stream, w.h, a.state.turnSpan.value);
    hide S.Aside, CustomInstant;
    CustomStep(w, a, c, 1);
    w4 := S.Step(w, S.Foreign(c, false));
  }

  lemma AsideHolds(h': Stream, h: Stream, span: nat)
    ensures Clear(S.Aside(h', h), span) <==> Clear(h', span)
    ensures OverBy(S.Aside(h', h), span, 0) <==> OverBy(h', span, 0)
  {
  }

  /** There is a run in which every stamp is good and every caller and observer plays by the rules but
      for a custom span left open: the end of the turn is refused and the act fails for it. */
  lemma CustomSpanBlocksTurn() returns (c: Candidate)
    ensures c.body.SpanStarted? && c.body.kind.None?
    ensures EndsRefused(0, c) && !SR.RunClear(FirstStage(0), Script(c))
  {
    hide OneAct, Opening, FirstStage, Script, EndsRefused, SR.RunClear, Clear, Newest, S.Step, S.OpOk, S.OpClear, Blocked;
    var a, w := TurnOpens(0);
    var w4;
    c, w4 := SpanBlocks(w, a);
    ScriptRuns(0, a, w, c, w4);
  }

  /** There is a run in which nothing is left open, but a custom instant carries a later stamp than the
      finish of the turn that reaches the hub after it: the finish is refused and the act fails. */
  lemma LateInstantBlocksTurn() returns (c: Candidate)
    ensures c.body.Instant?
    ensures EndsRefused(1, c) && SR.RunClear(FirstStage(1), Script(c))
  {
    hide OneAct, Opening, FirstStage, Script, EndsRefused, SR.RunClear, Clear, Newest, S.Step, S.OpOk, S.OpClear, Blocked;
    var a, w := TurnOpens(1);
    var w4;
    c, w4 := InstantBlocks(w, a);
    ScriptRuns(1, a, w, c, w4);
  }
}
