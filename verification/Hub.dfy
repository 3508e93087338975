/** The diagnostic hub: one stream with contiguous sequence numbers. An admission can be turned
    away by the sequence space, by the reserver, or by the reference validator. A candidate brings
    the stamp its producer read before it reached the hub, so stamps may go back along the log. The
    reserver's answers and the stamps are oracles, one per attempt: a statement about every hub
    covers every pattern of reservation failures and every choice of stamps. */
module Hub {
  import opened Events
  import opened Validator

  /** What a producer hands to the hub beside its stamp; the hub assigns run and sequence. */
  datatype Candidate = Candidate(scope: Scope, causes: seq<Link>, body: Body)

  /** `stamps(n)` is the stamp of the n-th candidate to reach the hub. `refusal` is the first fault
      the validator found, and `strayed` tells whether some candidate was not `Proper`. */
  datatype Stream = Stream(
    run: nat,
    fate: nat -> bool,
    stamps: nat -> nat,
    attempts: nat,
    log: seq<Event>,
    index: Index,
    refusal: Option<Code>,
    strayed: bool)

  datatype Admission = Admission(stream: Stream, sequence: Option<nat>)

  ghost function NewStream(run: nat, fate: nat -> bool, stamps: nat -> nat): Stream {
    Stream(run, fate, stamps, 0, [], EMPTY_INDEX, None, false)
  }

  /** The stamp of the next candidate. */
  function Stamp(h: Stream): nat {
    h.stamps(h.attempts)
  }

  function Materialize(h: Stream, c: Candidate): Event {
    Event(h.run, |h.log| + 1, Stamp(h), c.scope, c.causes, c.body)
  }

  predicate Reserved(h: Stream) {
    |h.log| < MAX_U64 && h.fate(h.attempts)
  }

  function Admit(h: Stream, c: Candidate): Admission {
    var tried := h.(attempts := h.attempts + 1, strayed := h.strayed || !Proper(h, c));
    if !Reserved(h) then Admission(tried, None)
    else
      var e := Materialize(h, c);
      match Prepare(h.index, e)
      case Refused(code) =>
        Admission(tried.(refusal := if h.refusal.None? then Some(code) else h.refusal), None)
      case Accepted(change) =>
        Admission(tried.(log := h.log + [e], index := Commit(h.index, e, change)), Some(e.sequence))
  }

  function Start(scope: Scope, kind: SpanKind, parent: Option<nat>, causes: seq<Link>): Candidate {
    Candidate(scope, causes, SpanStarted(Some(kind), parent))
  }

  function Finish(scope: Scope, span: nat, terminal: Terminal, causes: seq<Link>): Candidate {
    Candidate(scope, causes, SpanFinished(false, span, terminal))
  }

  function Note(scope: Scope, instant: InstantKind, containing: nat, causes: seq<Link>): Candidate {
    Candidate(scope, causes, Instant(instant, Some(containing)))
  }

  function Sample(scope: Scope, counter: CounterKind, value: nat, causes: seq<Link>): Candidate {
    Candidate(scope, causes, Counter(counter, value))
  }

  // ----- Invariants of a stream -----

  /** Sequence numbers are 1, 2, 3, ... and the validator knows exactly those. */
  ghost predicate Sequenced(h: Stream) {
    && (forall s :: s in h.index.sequences <==> 1 <= s <= |h.log|)
    && (forall s :: s in h.index.spans ==> 1 <= s <= |h.log|)
    && (forall s :: s in h.index.spans && h.index.spans[s].parent.Some? ==> h.index.spans[s].parent.value < s)
    && (h.index.run.Some? ==> h.index.run.value == h.run)
    && (forall i :: 0 <= i < |h.log| ==> h.log[i].sequence == i + 1)
    && (forall i :: 0 <= i < |h.log| && h.log[i].body.SpanFinished? ==> h.log[i].body.span in h.index.spans)
  }

  predicate NotAfter(at: Option<nat>, now: nat) {
    at.Some? ==> at.value <= now
  }

  /** Nothing on record is later than `t`. */
  ghost predicate Current(h: Stream, t: nat) {
    forall s :: s in h.index.spans ==>
      && h.index.spans[s].startedAt <= t
      && NotAfter(h.index.spans[s].finishedAt, t)
      && NotAfter(h.index.spans[s].latestContainedAt, t)
  }

  /** Up to attempt `n` no stamp is older than what is on record now or than a stamp before it. */
  ghost predicate Stamped(h: Stream, n: nat) {
    forall k: nat :: h.attempts <= k < n ==>
      Current(h, h.stamps(k)) && forall j: nat :: h.attempts <= j < k ==> h.stamps(j) <= h.stamps(k)
  }

  /** The record stays within any bound on the stamps used since. */
  ghost predicate KeepsCurrent(h: Stream, h': Stream) {
    forall t: nat :: Current(h, t) && (forall k: nat :: h.attempts <= k < h'.attempts ==> h.stamps(k) <= t) ==>
      Current(h', t)
  }

  /** The two ways an admission can end. */
  lemma AdmitCases(h: Stream, c: Candidate)
    ensures var a, e := Admit(h, c), Materialize(h, c);
            && a.stream.run == h.run && a.stream.fate == h.fate && a.stream.stamps == h.stamps
            && a.stream.attempts == h.attempts + 1
            && a.stream.strayed == (h.strayed || !Proper(h, c))
            && (a.sequence.None? ==> a.stream.log == h.log && a.stream.index == h.index)
            && (a.sequence.Some? ==>
                  && a.sequence.value == |h.log| + 1
                  && a.stream.log == h.log + [e]
                  && a.stream.index == Commit(h.index, e, BodyChange(e))
                  && Committable(h.index, e)
                  && (c.body.SpanStarted? && c.body.parent.Some? ==>
                        c.body.parent.value <= |h.log| && c.body.parent.value in h.index.spans))
  {
    var e := Materialize(h, c);
    if Prepare(h.index, e).Accepted? { AcceptedCommits(h.index, e); }
    hide Prepare;
  }

  lemma AdmitLog(h: Stream, c: Candidate)
    ensures var a := Admit(h, c);
            && a.stream.log == (if a.sequence.Some? then h.log + [Materialize(h, c)] else h.log)
            && (a.sequence.Some? ==> a.sequence.value == |h.log| + 1)
  {
    hide Prepare, Proper;
  }

  lemma AdmitSequenced(h: Stream, c: Candidate)
    requires Sequenced(h)
    ensures Sequenced(Admit(h, c).stream)
  {
    AdmitCases(h, c);
    hide Admit;
  }

  lemma AdmitKeepsCurrent(h: Stream, c: Candidate)
    ensures KeepsCurrent(h, Admit(h, c).stream)
  {
    var h' := Admit(h, c).stream;
    forall t: nat | Current(h, t) && (forall k: nat :: h.attempts <= k < h'.attempts ==> h.stamps(k) <= t)
      ensures Current(h', t)
    {
      AdmitCurrent(h, c, t);
    }
  }

  lemma AdmitCurrent(h: Stream, c: Candidate, t: nat)
    requires Current(h, t) && Stamp(h) <= t
    ensures Current(Admit(h, c).stream, t)
  {
    AdmitCases(h, c);
    hide Admit, Proper;
  }

  /** Stamps in good order stay so as they are used up. */
  lemma StampedAfter(h: Stream, h': Stream, n: nat)
    requires Stamped(h, n) && KeepsCurrent(h, h') && h.attempts <= h'.attempts <= n && h'.stamps == h.stamps
    ensures Stamped(h', n) && Stamped(h, h'.attempts)
  {
    forall k: nat | h'.attempts <= k < n ensures Current(h', h'.stamps(k)) {
      assert Current(h, h.stamps(k));
    }
    hide Current;
  }

  /** The accepted log is always a valid stream, mirrored by the validator. */
  lemma AdmitValid(h: Stream, c: Candidate)
    requires Mirrors(h.index, h.log) && ValidStream(h.log)
    ensures var h' := Admit(h, c).stream; Mirrors(h'.index, h'.log) && ValidStream(h'.log)
  {
    var h' := Admit(h, c).stream;
    AdmitCases(h, c);
    hide Prepare, Mirrors, Admissible, Commit, Committable;
    if h'.log != h.log {
      var e := Materialize(h, c);
      AcceptedIffAdmissible(h.index, h.log, e);
      CommitMirrors(h.index, h.log, e);
      forall i | 0 <= i < |h'.log| ensures Admissible(h'.log[..i], h'.log[i]) {
        assert h'.log[..i] == if i < |h.log| then h.log[..i] else h.log;
      }
    }
  }

  // ----- When a candidate cannot be refused -----

  predicate IsOpen(h: Stream, span: nat) {
    span in h.index.spans && h.index.spans[span].finishedAt.None?
  }

  predicate Encloses(h: Stream, span: nat, scope: Scope) {
    IsOpen(h, span) && ScopeContains(h.index.spans[span].scope, scope)
  }

  predicate ChildrenDone(h: Stream, span: nat) {
    forall c :: c in h.index.spans && h.index.spans[c].parent == Some(span) ==>
                  h.index.spans[c].finishedAt.Some?
  }

  predicate ReferencedBody(h: Stream, c: Candidate) {
    match c.body
    case SpanStarted(_, parent) => parent.Some? ==> Encloses(h, parent.value, c.scope)
    case SpanFinished(custom, span, _) =>
      && IsOpen(h, span)
      && h.index.spans[span].scope == c.scope
      && (h.index.spans[span].kind.None? <==> custom)
    case Instant(_, containing) => containing.Some? ==> Encloses(h, containing.value, c.scope)
    case Counter(_, _) => true
    case Recorded(affected) => affected.None?
  }

  predicate Known(h: Stream, sequence: nat) {
    1 <= sequence <= |h.log|
  }

  /** The references of the candidate are in order, whatever its stamp. */
  predicate Referenced(h: Stream, c: Candidate) {
    && !HasUnknownSentinel(c.scope)
    && |c.causes| <= 1
    && (|c.causes| == 1 ==> Known(h, c.causes[0].source))
    && ReferencedBody(h, c)
  }

  /** And what its producer itself placed under a span it finishes is over. */
  predicate Proper(h: Stream, c: Candidate) {
    Referenced(h, c) && (c.body.SpanFinished? ==> OwnDone(h, c.body.span))
  }

  /** And what anybody placed under a span it finishes is over. */
  predicate Sound(h: Stream, c: Candidate) {
    Referenced(h, c) && (c.body.SpanFinished? ==> ChildrenDone(h, c.body.span))
  }

  /** The span, once on record, had started by `t`. */
  predicate Begun(h: Stream, span: nat, t: nat) {
    span in h.index.spans ==> h.index.spans[span].startedAt <= t
  }

  /** Neither the span's start nor anything placed in it is later than `t`. */
  predicate OverBy(h: Stream, span: nat, t: nat) {
    && Begun(h, span, t)
    && (span in h.index.spans ==> NotAfter(h.index.spans[span].latestContainedAt, t))
    && forall c :: c in h.index.spans && h.index.spans[c].parent == Some(span) ==>
                     NotAfter(h.index.spans[c].finishedAt, t)
  }

  /** The stamp of the candidate fits the span it is placed in or finishes. */
  predicate InTime(h: Stream, c: Candidate) {
    match c.body
    case SpanStarted(_, parent) => parent.Some? ==> Begun(h, parent.value, Stamp(h))
    case SpanFinished(_, span, _) => OverBy(h, span, Stamp(h))
    case Instant(_, containing) => containing.Some? ==> Begun(h, containing.value, Stamp(h))
    case Counter(_, _) => true
    case Recorded(_) => true
  }

  /** What the validator says to a candidate that fails for its stamp or for an open child. */
  function RefusalCode(h: Stream, c: Candidate): Code {
    if c.body.SpanFinished? && !Begun(h, c.body.span, Stamp(h)) then FinishBeforeStart else ChildOutsideParent
  }

  lemma ReferencedLinks(h: Stream, c: Candidate)
    requires Sequenced(h) && Referenced(h, c)
    ensures LinksFault(h.index, |h.log| + 1, c.causes).None?
  {
    if |c.causes| == 1 { assert c.causes[1..] == []; }
  }

  lemma ReferencedFault(h: Stream, c: Candidate)
    requires Sequenced(h) && Referenced(h, c)
    ensures var fault := BodyFault(h.index, Materialize(h, c));
            && (fault.None? <==> Sound(h, c) && InTime(h, c))
            && (fault.Some? ==> fault.value == RefusalCode(h, c))
  {
  }

  /** A candidate with its references in order that gets its reservation is taken exactly when its
      stamp fits and a span it finishes has nothing open under it; otherwise the fault is one of two. */
  lemma ReferencedTakenIff(h: Stream, c: Candidate)
    requires Sequenced(h) && Referenced(h, c)
    ensures var a := Admit(h, c);
            && (a.sequence.Some? <==> Reserved(h) && Sound(h, c) && InTime(h, c))
            && a.stream.refusal == if Reserved(h) && a.sequence.None? && h.refusal.None? then Some(RefusalCode(h, c)) else h.refusal
  {
    ReferencedLinks(h, c);
    ReferencedFault(h, c);
    hide LinksFault, BodyFault, Sound, InTime, RefusalCode, Proper;
  }

  /** A sound candidate whose stamp fits is never refused by the validator. */
  lemma SoundAccepted(h: Stream, c: Candidate)
    requires Sequenced(h) && Sound(h, c) && InTime(h, c)
    ensures Admit(h, c).stream.refusal == h.refusal
    ensures Admit(h, c).sequence.Some? <==> Reserved(h)
  {
    hide Admit, InTime, Sequenced;
    ReferencedTakenIff(h, c);
  }

  lemma CurrentInTime(h: Stream, c: Candidate)
    requires Current(h, Stamp(h))
    ensures InTime(h, c)
  {
  }

  // ----- Who owns a span, and what a step of one owner leaves alone -----

  datatype Owner = ActOwner(id: nat) | EffectOwner(id: nat) | CueOwner(id: nat) | Outside

  /** The producer a scope identifies: the identifiers are unique per producer. */
  function ScopeOwner(scope: Scope): Owner {
    if scope.tool.Some? then Outside
    else if scope.act.Some? then ActOwner(scope.act.value)
    else if scope.effect.Some? then EffectOwner(scope.effect.value)
    else if scope.cue.Some? then CueOwner(scope.cue.value)
    else Outside
  }

  function RecordOwner(record: SpanRecord): Owner {
    if record.kind.None? || !Lifecycle(record.kind.value) then Outside else ScopeOwner(record.scope)
  }

  predicate SameIdentity(r: SpanRecord, r': SpanRecord) {
    r.kind == r'.kind && r.scope == r'.scope && r.parent == r'.parent
  }

  /** A new span of an act, cue or effect stands alone, or under a span of its own, or under an
      outside span; an outside span stands anywhere. */
  predicate ParentAllowed(h: Stream, record: SpanRecord, who: Owner) {
    record.parent.Some? ==>
      && record.parent.value in h.index.spans
      && (who.Outside? || RecordOwner(h.index.spans[record.parent.value]) in {who, Outside})
  }

  /** The events only the owner of their scope may emit: lifecycle spans, built-in instants and the
      two activity counters. */
  predicate Signed(body: Body) {
    || (body.Counter? && (body.counter == CueActive || body.counter == AgentTurnActive))
    || (body.Instant? && body.instant != OtherInstant)
    || (body.SpanStarted? && body.kind.Some? && Lifecycle(body.kind.value))
  }

  predicate SignatureAllowed(e: Event, who: Owner) {
    Signed(e.body) ==> ScopeOwner(e.scope) == who
  }

  ghost predicate KeepsSpans(h: Stream, h': Stream, who: Owner) {
    forall s :: s in h.index.spans ==>
      && s in h'.index.spans
      && SameIdentity(h.index.spans[s], h'.index.spans[s])
      && (RecordOwner(h.index.spans[s]) != who || h.index.spans[s].finishedAt.Some? ==>
            h.index.spans[s].finishedAt == h'.index.spans[s].finishedAt)
  }

  ghost predicate AddsSpans(h: Stream, h': Stream, who: Owner) {
    forall s :: s in h'.index.spans && s !in h.index.spans ==>
      && RecordOwner(h'.index.spans[s]) == who
      && ParentAllowed(h', h'.index.spans[s], who)
  }

  /** Every finish from place `n` on names a span of `who`. */
  ghost predicate FinishesOwn(h: Stream, n: nat, who: Owner) {
    forall i :: n <= i < |h.log| && h.log[i].body.SpanFinished? ==>
      h.log[i].body.span in h.index.spans && RecordOwner(h.index.spans[h.log[i].body.span]) == who
  }

  /** `h'` continues `h` by admissions of `who`: the log only grows, spans of others keep their
      state, and nobody else's spans, marks and counters are added to. */
  ghost predicate Grows(h: Stream, h': Stream, who: Owner) {
    && h'.run == h.run && h'.fate == h.fate && h'.stamps == h.stamps
    && h.log <= h'.log
    && KeepsSpans(h, h', who)
    && AddsSpans(h, h', who)
    && FinishesOwn(h', |h.log|, who)
    && (forall i :: |h.log| <= i < |h'.log| ==> SignatureAllowed(h'.log[i], who))
  }

  lemma GrowsTransitive(h: Stream, h1: Stream, h2: Stream, who: Owner)
    requires Grows(h, h1, who) && Grows(h1, h2, who)
    ensures Grows(h, h2, who)
  {
    forall s | s in h2.index.spans && s !in h.index.spans
      ensures RecordOwner(h2.index.spans[s]) == who && ParentAllowed(h2, h2.index.spans[s], who)
    {
      if s in h1.index.spans {
        assert SameIdentity(h1.index.spans[s], h2.index.spans[s]);
        assert ParentAllowed(h1, h1.index.spans[s], who);
      }
    }
    forall i | |h.log| <= i < |h2.log| && h2.log[i].body.SpanFinished?
      ensures h2.log[i].body.span in h2.index.spans && RecordOwner(h2.index.spans[h2.log[i].body.span]) == who
    {
      if i < |h1.log| { assert SameIdentity(h1.index.spans[h1.log[i].body.span], h2.index.spans[h1.log[i].body.span]); }
    }
  }

  /** The candidates `who` may admit. */
  predicate OwnedBy(h: Stream, c: Candidate, who: Owner) {
    match c.body
    case SpanStarted(kind, parent) =>
      && kind.Some? && Lifecycle(kind.value)
      && ScopeOwner(c.scope) == who
      && (parent.Some? ==> parent.value in h.index.spans
                           && RecordOwner(h.index.spans[parent.value]) in {who, Outside})
    case SpanFinished(_, span, _) => span in h.index.spans && RecordOwner(h.index.spans[span]) == who
    case _ => Signed(c.body) ==> ScopeOwner(c.scope) == who
  }

  lemma AdmitGrows(h: Stream, c: Candidate, who: Owner)
    requires Sequenced(h) && OwnedBy(h, c, who)
    ensures Grows(h, Admit(h, c).stream, who)
  {
    AdmitCases(h, c);
    AdmitOwnSpans(h, c, who);
    hide Admit, KeepsSpans, AddsSpans, Sequenced, Commit, Committable;
  }

  lemma AdmitOwnSpans(h: Stream, c: Candidate, who: Owner)
    requires Sequenced(h) && OwnedBy(h, c, who)
    ensures var h' := Admit(h, c).stream; KeepsSpans(h, h', who) && AddsSpans(h, h', who) && FinishesOwn(h', |h.log|, who)
  {
    AdmitCases(h, c);
    hide Admit;
  }

  /** A span on record, with its place and whether it is still open. */
  predicate Held(h: Stream, span: nat, scope: Scope, parent: Option<nat>, open: bool) {
    && span in h.index.spans
    && h.index.spans[span].kind.Some? && Lifecycle(h.index.spans[span].kind.value)
    && h.index.spans[span].scope == scope
    && h.index.spans[span].parent == parent
    && (h.index.spans[span].finishedAt.None? <==> open)
  }

  /** `who` has no spans but these. */
  ghost predicate Owns(h: Stream, who: Owner, spans: set<nat>) {
    forall s :: s in h.index.spans && RecordOwner(h.index.spans[s]) == who ==> s in spans
  }

  /** No span of anybody else is open under this span of an act, cue or effect. */
  ghost predicate Clear(h: Stream, span: nat) {
    && span in h.index.spans && RecordOwner(h.index.spans[span]) != Outside
    && forall c :: c in h.index.spans && h.index.spans[c].parent == Some(span) && h.index.spans[c].finishedAt.None? ==>
                     RecordOwner(h.index.spans[c]) == RecordOwner(h.index.spans[span])
  }

  ghost predicate AllClear(h: Stream, spans: set<nat>) {
    forall x :: x in spans ==> Clear(h, x)
  }

  /** What the producer itself placed under one of its spans is over. */
  predicate OwnDone(h: Stream, span: nat) {
    forall c :: c in h.index.spans && h.index.spans[c].parent == Some(span) && span in h.index.spans
                && RecordOwner(h.index.spans[c]) == RecordOwner(h.index.spans[span]) ==>
                  h.index.spans[c].finishedAt.Some?
  }

  /** The only open span of `who` is `span`, if any. */
  ghost predicate OnlyOpen(h: Stream, who: Owner, span: Option<nat>) {
    forall s :: s in h.index.spans && RecordOwner(h.index.spans[s]) == who && h.index.spans[s].finishedAt.None? ==>
                  span == Some(s)
  }

  /** The log is a valid stream and the validator's indexes mirror it. */
  ghost predicate Faithful(h: Stream) {
    Mirrors(h.index, h.log) && ValidStream(h.log)
  }

  /** The only faults an act, a cue or an effect can meet. */
  predicate OnlyNesting(refusal: Option<Code>) {
    refusal in {None, Some(ChildOutsideParent), Some(FinishBeforeStart)}
  }

  /** Further attempts on the same stream, each with a proper candidate. */
  ghost predicate Follows(h: Stream, h': Stream) {
    && h'.stamps == h.stamps && h.attempts <= h'.attempts
    && h'.strayed == h.strayed
    && (OnlyNesting(h.refusal) ==> OnlyNesting(h'.refusal))
    && KeepsCurrent(h, h')
  }

  /** What every step leaves behind: a sequenced stream and a valid log. */
  ghost predicate Extends(h: Stream, h': Stream) {
    && Sequenced(h')
    && (Faithful(h) ==> Faithful(h'))
    && Follows(h, h')
  }

  /** Nothing has been refused, unless a stamp was older than what was on record or a span that was
      to be closed still held an open span of somebody else. */
  ghost predicate Accepts(h: Stream, h': Stream, closing: set<nat>) {
    Stamped(h, h'.attempts) && AllClear(h, closing) ==> h'.refusal == h.refusal
  }

  ghost predicate KeepsClear(h: Stream, h': Stream) {
    forall x :: Clear(h, x) ==> Clear(h', x)
  }

  /** A step of an act, cue or effect that may close the spans `closing`. */
  ghost predicate Continues(h: Stream, h': Stream, closing: set<nat>) {
    Extends(h, h') && Accepts(h, h', closing) && KeepsClear(h, h')
  }

  /** A producer's own step opens nothing of its own under a span of others. */
  lemma GrowsKeepsClear(h: Stream, h': Stream, who: Owner)
    requires Grows(h, h', who) && !who.Outside?
    ensures KeepsClear(h, h')
  {
    forall x | Clear(h, x) ensures Clear(h', x) {
      assert SameIdentity(h.index.spans[x], h'.index.spans[x]);
      forall c | c in h'.index.spans && h'.index.spans[c].parent == Some(x) && h'.index.spans[c].finishedAt.None?
        ensures RecordOwner(h'.index.spans[c]) == RecordOwner(h'.index.spans[x])
      {
        if c in h.index.spans {
          assert SameIdentity(h.index.spans[c], h'.index.spans[c]);
        } else {
          assert ParentAllowed(h', h'.index.spans[c], who);
        }
      }
    }
  }

  /** The span a candidate would close. */
  function Closing(c: Candidate): set<nat> {
    if c.body.SpanFinished? then {c.body.span} else {}
  }

  lemma ClearIsSound(h: Stream, c: Candidate)
    requires Proper(h, c) && AllClear(h, Closing(c))
    ensures Sound(h, c)
  {
    if c.body.SpanFinished? {
      assert Clear(h, c.body.span);
    }
  }

  /** A proper finish that gets its reservation is refused, whatever its stamp, exactly when a span
      of somebody else is still open under the span it names, or the stamp is before that span's
      start, its latest content or the finish of one of its children. */
  lemma FinishRefusedIff(h: Stream, c: Candidate)
    requires Sequenced(h) && Reserved(h) && Proper(h, c)
    requires c.body.SpanFinished? && RecordOwner(h.index.spans[c.body.span]) != Outside
    ensures var a, span := Admit(h, c), c.body.span;
            && (a.sequence.None? <==> !Clear(h, span) || !OverBy(h, span, Stamp(h)))
            && (a.sequence.None? && h.refusal.None? ==> a.stream.refusal == Some(RefusalCode(h, c)))
  {
    assert Sound(h, c) <==> Clear(h, c.body.span);
    hide Admit, Sound, Clear, OverBy, Proper, Sequenced;
    ReferencedTakenIff(h, c);
  }

  lemma ProperFollows(h: Stream, c: Candidate)
    requires Sequenced(h) && Proper(h, c)
    ensures Follows(h, Admit(h, c).stream) && Accepts(h, Admit(h, c).stream, Closing(c))
  {
    AdmitKeepsCurrent(h, c);
    AdmitCases(h, c);
    ReferencedTakenIff(h, c);
    hide Admit, KeepsCurrent, AllClear, InTime, Sound, Current, Sequenced, Commit, Committable;
    if Stamped(h, h.attempts + 1) && AllClear(h, Closing(c)) {
      CurrentInTime(h, c);
      ClearIsSound(h, c);
    }
  }

  /** One admission of a proper candidate by its owner. */
  lemma AdmitStep(h: Stream, c: Candidate, who: Owner)
    requires Sequenced(h) && OwnedBy(h, c, who) && Referenced(h, c) && !who.Outside?
    requires c.body.SpanFinished? ==> OwnDone(h, c.body.span)
    ensures var a := Admit(h, c);
            && Grows(h, a.stream, who) && Continues(h, a.stream, Closing(c)) && Sequenced(a.stream)
            && (a.sequence.Some? ==> a.sequence.value == |h.log| + 1 == |a.stream.log|
                                     && a.stream.log == h.log + [Materialize(h, c)])
            && (a.sequence.None? ==> a.stream.log == h.log && a.stream.index == h.index)
  {
    AdmitSequenced(h, c);
    AdmitGrows(h, c, who);
    GrowsKeepsClear(h, Admit(h, c).stream, who);
    if Faithful(h) { AdmitValid(h, c); }
    ProperFollows(h, c);
    AdmitCases(h, c);
    hide Faithful, Grows, KeepsClear, Follows, Accepts, Admit, Sequenced, Proper, Commit, Committable;
  }

  /** How an admission changes the spans on record: only a finish closes one, and only the one
      it names; only a start adds one, numbered by its own sequence. */
  lemma AdmitSpans(h: Stream, c: Candidate)
    requires Sequenced(h)
    ensures var a := Admit(h, c);
            && (forall x :: x in h.index.spans ==>
                 && x in a.stream.index.spans
                 && SameIdentity(h.index.spans[x], a.stream.index.spans[x])
                 && (a.stream.index.spans[x].finishedAt.Some? <==>
                     h.index.spans[x].finishedAt.Some? ||
                     (a.sequence.Some? && c.body.SpanFinished? && c.body.span == x)))
            && (forall x :: x in a.stream.index.spans && x !in h.index.spans ==>
                 && a.sequence == Some(x) && c.body.SpanStarted?
                 && SameIdentity(a.stream.index.spans[x],
                                 SpanRecord(c.body.kind, c.scope, 0, None, None, c.body.parent))
                 && a.stream.index.spans[x].finishedAt.None?)
            && (a.sequence.Some? && c.body.SpanStarted? ==> a.sequence.value in a.stream.index.spans
                                                            && a.sequence.value !in h.index.spans)
  {
    AdmitCases(h, c);
    hide Admit;
  }

  /** A start leaves the spans on record as they are. */
  lemma HeldAfterStart(h: Stream, c: Candidate, span: nat, scope: Scope, parent: Option<nat>, open: bool)
    requires Sequenced(h) && c.body.SpanStarted? && Held(h, span, scope, parent, open)
    ensures Held(Admit(h, c).stream, span, scope, parent, open)
  {
    AdmitSpans(h, c);
    hide Admit, Sequenced;
  }

  /** A finish closes the span it names and no other. */
  lemma HeldAfterFinish(h: Stream, c: Candidate, span: nat, scope: Scope, parent: Option<nat>, open: bool)
    requires Sequenced(h) && c.body.SpanFinished? && Admit(h, c).sequence.Some? && Held(h, span, scope, parent, open)
    ensures Held(Admit(h, c).stream, span, scope, parent, open && c.body.span != span)
  {
    AdmitSpans(h, c);
    hide Admit, Sequenced;
  }

  lemma OwnsAfterFinish(h: Stream, c: Candidate, who: Owner, spans: set<nat>)
    requires Sequenced(h) && c.body.SpanFinished? && Owns(h, who, spans)
    ensures Owns(Admit(h, c).stream, who, spans)
  {
    AdmitSpans(h, c);
    hide Admit, Sequenced;
  }

  /** A start adds one span to what its producer owns. */
  lemma OwnsAfterStart(h: Stream, c: Candidate, who: Owner, spans: set<nat>)
    requires Sequenced(h) && c.body.SpanStarted? && c.body.kind.Some? && Lifecycle(c.body.kind.value)
    requires Admit(h, c).sequence.Some? && Owns(h, who, spans)
    ensures var a := Admit(h, c);
            Owns(a.stream, who, spans + {a.sequence.value}) && Held(a.stream, a.sequence.value, c.scope, c.body.parent, true)
  {
    AdmitSpans(h, c);
    hide Admit, Sequenced;
  }

  /** The same spans, with the same places and the same ones open. */
  ghost predicate SameSpans(h: Stream, h': Stream) {
    && h.index.spans.Keys == h'.index.spans.Keys
    && forall x :: x in h.index.spans ==>
         && SameIdentity(h.index.spans[x], h'.index.spans[x])
         && (h.index.spans[x].finishedAt.None? <==> h'.index.spans[x].finishedAt.None?)
  }

  /** An admission that neither starts nor finishes a span. */
  lemma NoteStep(h: Stream, c: Candidate, who: Owner)
    requires Sequenced(h) && OwnedBy(h, c, who) && Referenced(h, c) && !who.Outside?
    requires c.body.Instant? || c.body.Counter?
    ensures Moves(h, Admit(h, c), who, {})
    ensures SameSpans(h, Admit(h, c).stream)
  {
    hide Admit, Grows, Continues, OwnedBy, Referenced, Sequenced;
    AdmitStep(h, c, who);
    AdmitSpans(h, c);
  }

  /** A step of `who` that extends the log by at most one event, the next in sequence. */
  ghost predicate Moves(h: Stream, a: Admission, who: Owner, closing: set<nat>) {
    && Grows(h, a.stream, who) && Continues(h, a.stream, closing)
    && (a.sequence.Some? ==> a.sequence.value == |h.log| + 1 == |a.stream.log|)
    && (a.sequence.None? ==> a.stream.log == h.log)
  }

  lemma Stays(h: Stream, who: Owner)
    requires Sequenced(h)
    ensures Grows(h, h, who) && Continues(h, h, {})
  {
    hide Faithful;
  }

  lemma ContinuesTransitive(h: Stream, h1: Stream, h2: Stream, closing: set<nat>, closing2: set<nat>)
    requires Continues(h, h1, closing) && Continues(h1, h2, closing2)
    ensures Continues(h, h2, closing + closing2)
  {
    hide Faithful, Sequenced, Stamped, KeepsCurrent, Clear;
    assert AllClear(h, closing + closing2) ==> AllClear(h, closing) && AllClear(h1, closing2);
    if Stamped(h, h2.attempts) { StampedAfter(h, h1, h2.attempts); }
    CurrentTransitive(h, h1, h2);
  }

  lemma CurrentTransitive(h: Stream, h1: Stream, h2: Stream)
    requires KeepsCurrent(h, h1) && KeepsCurrent(h1, h2)
    requires h1.stamps == h.stamps && h.attempts <= h1.attempts <= h2.attempts
    ensures KeepsCurrent(h, h2)
  {
    hide Current;
  }

  lemma ContinuesMore(h: Stream, h': Stream, closing: set<nat>, more: set<nat>)
    requires Continues(h, h', closing) && closing <= more
    ensures Continues(h, h', more)
  {
    hide Extends, KeepsClear, Stamped, Clear;
  }

  /** Two admissions in a row are a step of the same owner. */
  lemma Chain(h: Stream, h1: Stream, h2: Stream, who: Owner, closing: set<nat>, closing2: set<nat>)
    requires Grows(h, h1, who) && Grows(h1, h2, who) && Continues(h, h1, closing) && Continues(h1, h2, closing2)
    ensures Grows(h, h2, who) && Continues(h, h2, closing + closing2)
  {
    GrowsTransitive(h, h1, h2, who);
    ContinuesTransitive(h, h1, h2, closing, closing2);
    hide Grows, Continues;
  }

  lemma SpanKnown(h: Stream, span: nat)
    requires Sequenced(h) && span in h.index.spans
    ensures Known(h, span)
  {
  }

  // ----- Frames -----

  /** A step of `other` leaves a span of somebody else as it was. */
  lemma HeldElsewhere(h: Stream, h': Stream, other: Owner, span: nat, scope: Scope, parent: Option<nat>, open: bool)
    requires Grows(h, h', other) && Held(h, span, scope, parent, open) && ScopeOwner(scope) != other
    ensures Held(h', span, scope, parent, open)
  {
    assert SameIdentity(h.index.spans[span], h'.index.spans[span]);
  }

  /** A step of `other` opens no span in anybody else's name. */
  lemma OwnsElsewhere(h: Stream, h': Stream, other: Owner, who: Owner, spans: set<nat>)
    requires Grows(h, h', other) && who != other && Owns(h, who, spans)
    ensures Owns(h', who, spans)
  {
    forall s | s in h'.index.spans && RecordOwner(h'.index.spans[s]) == who ensures s in spans {
      assert s in h.index.spans;
      assert SameIdentity(h.index.spans[s], h'.index.spans[s]);
    }
  }

  // ----- Reading spans off the log -----

  /** A span on record is closed exactly when its finish is on the log. */
  lemma OpenOnLog(h: Stream, span: nat, scope: Scope, parent: Option<nat>, open: bool)
    requires Mirrors(h.index, h.log) && Held(h, span, scope, parent, open)
    ensures open <==> forall k :: !FinishesAt(h.log, k, span)
  {
    assert FinishMirrors(h.index, h.log, span);
  }

  /** A parent's finish comes after the finish of a child on record. */
  lemma ChildFinishedBefore(h: Stream, child: nat, scope: Scope, parent: nat, open: bool, k: int)
    requires Mirrors(h.index, h.log) && ValidStream(h.log)
    requires Held(h, child, scope, Some(parent), open) && FinishesAt(h.log, k, parent)
    ensures exists f :: FinishesAt(h.log, f, child) && f < k
  {
    var c :| StartsAt(h.log, c, child);
    assert RecordMirrors(h.index, h.log, c);
    SpansNest(h.log, c, parent, k);
  }

  // ----- Counters -----

  /** The last sample of `counter` that `who` put on the log. */
  function LastSample(log: seq<Event>, counter: CounterKind, who: Owner): Option<nat> {
    if log == [] then None
    else
      var e := log[|log| - 1];
      if e.body.Counter? && e.body.counter == counter && ScopeOwner(e.scope) == who then Some(e.body.sample)
      else LastSample(log[..|log| - 1], counter, who)
  }

  lemma AdmitSample(h: Stream, c: Candidate, counter: CounterKind, who: Owner)
    ensures var a := Admit(h, c);
            LastSample(a.stream.log, counter, who) ==
            if a.sequence.Some? && c.body.Counter? && c.body.counter == counter && ScopeOwner(c.scope) == who
            then Some(c.body.sample) else LastSample(h.log, counter, who)
  {
    AdmitCases(h, c);
    hide Admit;
    assert (h.log + [Materialize(h, c)])[..|h.log|] == h.log;
  }

  /** Steps of others leave the counter of `who` alone. */
  lemma {:induction false} SampleFrame(h: Stream, h': Stream, other: Owner, counter: CounterKind, who: Owner)
    requires Grows(h, h', other) && who != other && (counter == CueActive || counter == AgentTurnActive)
    ensures LastSample(h'.log, counter, who) == LastSample(h.log, counter, who)
  {
    hide KeepsSpans, AddsSpans;
    LogSampleFrame(h.log, h'.log, other, counter, who);
  }

  lemma {:induction false} LogSampleFrame(log: seq<Event>, log': seq<Event>, other: Owner, counter: CounterKind, who: Owner)
    requires log <= log' && who != other && (counter == CueActive || counter == AgentTurnActive)
    requires forall i :: |log| <= i < |log'| ==> SignatureAllowed(log'[i], other)
    ensures LastSample(log', counter, who) == LastSample(log, counter, who)
    decreases |log'|
  {
    if log != log' {
      assert SignatureAllowed(log'[|log'| - 1], other);
      LogSampleFrame(log, log'[..|log'| - 1], other, counter, who);
    } 
  }

  /** An instant taken into a span becomes part of what the span holds. */
  lemma NoteContained(h: Stream, c: Candidate, span: nat, t: nat)
    requires Sequenced(h) && c.body.Instant? && c.body.containing == Some(span) && Admit(h, c).sequence.Some?
    requires span in h.index.spans
    ensures var h' := Admit(h, c).stream;
            && (Begun(h', span, t) <==> Begun(h, span, t))
            && (OverBy(h', span, t) <==> OverBy(h, span, t) && Stamp(h) <= t)
  {
    AdmitCases(h, c);
    hide Admit, Proper;
    var h' := Admit(h, c).stream;
    assert forall x :: x in h.index.spans ==>
      h'.index.spans[x].parent == h.index.spans[x].parent && h'.index.spans[x].finishedAt == h.index.spans[x].finishedAt;
  }

  // ----- Reservations ahead -----

  /** The next `n` attempts are reserved, if all before them are taken. */
  ghost predicate ReservedFor(h: Stream, n: nat) {
    (n > 0 ==> |h.log| + n <= MAX_U64) && forall k: nat :: h.attempts <= k < h.attempts + n ==> h.fate(k)
  }

  // ----- When every reservation is granted -----

  /** Every reservation is granted, and the sequence space has room for `n` more events. */
  ghost predicate Granted(h: Stream, n: nat) {
    (forall k :: h.fate(k)) && |h.log| + n < MAX_U64
  }

  /** And the next `n` stamps are in good order; there is room for eight more events after those. */
  ghost predicate Generous(h: Stream, n: nat) {
    Granted(h, n + 8) && Stamped(h, h.attempts + n)
  }

  lemma SoundGranted(h: Stream, c: Candidate, n: nat)
    requires Sequenced(h) && Sound(h, c) && Generous(h, n + 1)
    ensures var a := Admit(h, c);
            && a.sequence == Some(|h.log| + 1) && a.stream.refusal == h.refusal
            && Sequenced(a.stream) && Generous(a.stream, n) && |a.stream.log| == |h.log| + 1
            && a.stream.attempts == h.attempts + 1
  {
    CurrentInTime(h, c);
    SoundAccepted(h, c);
    AdmitSequenced(h, c);
    GenerousAfter(h, c, n);
    AdmitCases(h, c);
    hide Admit, Sound, Sequenced, Stamped, Proper, Commit, Committable;
  }

  lemma GenerousAfter(h: Stream, c: Candidate, n: nat)
    requires Generous(h, n + 1)
    ensures Generous(Admit(h, c).stream, n)
  {
    AdmitKeepsCurrent(h, c);
    AdmitCases(h, c);
    hide Admit, Stamped, KeepsCurrent, Proper, Commit, Committable;
    StampedAfter(h, Admit(h, c).stream, h.attempts + n + 1);
  }
}
