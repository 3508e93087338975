/** The reference validator every admission passes through, and what it means: an event is
    accepted exactly when it is admissible after the events accepted before it. */
module Validator {
  import opened Events

  datatype Code =
    | CrossRun | ForwardLink | SelfLink | FinishBeforeStart | DoubleFinish | ChildOutsideParent
    | KindMismatch | TooManyCausalLinks | ReferenceNotFound | ReferenceClosed | ScopeMismatch
    | InvalidScope | DuplicateSequence

  datatype SpanRecord = SpanRecord(
    kind: Option<SpanKind>,
    scope: Scope,
    startedAt: nat,
    finishedAt: Option<nat>,
    latestContainedAt: Option<nat>,
    parent: Option<nat>)

  datatype Change =
    | RecordEvent
    | StartSpan(record: SpanRecord)
    | FinishSpan(span: nat, finishedAt: nat)
    | ContainedInstant(within: nat, containedAt: nat)

  datatype Verdict = Accepted(change: Change) | Refused(code: Code)

  /** The validator's indexes over the accepted events. */
  datatype Index = Index(run: Option<nat>, sequences: set<nat>, spans: map<nat, SpanRecord>)

  const EMPTY_INDEX: Index := Index(None, {}, map[])

  function LinkFault(v: Index, sequence: nat, link: Link): Option<Code> {
    if link.source == sequence then Some(SelfLink)
    else if link.source > sequence then Some(ForwardLink)
    else if link.source !in v.sequences then Some(ReferenceNotFound)
    else None
  }

  function LinksFault(v: Index, sequence: nat, links: seq<Link>): Option<Code> {
    if links == [] then None
    else
      var fault := LinkFault(v, sequence, links[0]);
      if fault.Some? then fault else LinksFault(v, sequence, links[1..])
  }

  function MissingSpanCode(v: Index, span: nat): Code {
    if span in v.sequences then KindMismatch else ReferenceNotFound
  }

  /** Why `span` cannot be referenced as an open span by an event with this sequence. */
  function OpenFault(v: Index, sequence: nat, span: nat): Option<Code> {
    if span == sequence then Some(SelfLink)
    else if span > sequence then Some(ForwardLink)
    else if span !in v.spans then Some(MissingSpanCode(v, span))
    else if v.spans[span].finishedAt.Some? then Some(ReferenceClosed)
    else None
  }

  /** The fault of an event placed inside `span`, as a child span or a contained instant. */
  function InsideFault(v: Index, e: Event, span: nat): Option<Code> {
    var fault := OpenFault(v, e.sequence, span);
    if fault.Some? then fault
    else if span in v.spans && !ScopeContains(v.spans[span].scope, e.scope) then Some(ScopeMismatch)
    else if span in v.spans && e.elapsed < v.spans[span].startedAt then Some(ChildOutsideParent)
    else None
  }

  predicate ChildStillOpen(v: Index, span: nat, elapsed: nat) {
    exists c :: c in v.spans && v.spans[c].parent == Some(span) &&
                (v.spans[c].finishedAt.None? || v.spans[c].finishedAt.value > elapsed)
  }

  function FinishFault(v: Index, e: Event, custom: bool, span: nat): Option<Code> {
    if span >= e.sequence then Some(FinishBeforeStart)
    else if span !in v.spans then Some(MissingSpanCode(v, span))
    else
      var record := v.spans[span];
      if record.kind.None? != custom then Some(KindMismatch)
      else if record.finishedAt.Some? then Some(DoubleFinish)
      else if record.scope != e.scope then Some(ScopeMismatch)
      else if e.elapsed < record.startedAt then Some(FinishBeforeStart)
      else if record.latestContainedAt.Some? && record.latestContainedAt.value > e.elapsed
      then Some(ChildOutsideParent)
      else if ChildStillOpen(v, span, e.elapsed) then Some(ChildOutsideParent)
      else None
  }

  function BodyFault(v: Index, e: Event): Option<Code> {
    match e.body
    case SpanStarted(_, parent) => if parent.None? then None else InsideFault(v, e, parent.value)
    case SpanFinished(custom, span, _) => FinishFault(v, e, custom, span)
    case Instant(_, containing) =>
      if containing.None? then None else InsideFault(v, e, containing.value)
    case Counter(_, _) => None
    case Recorded(_) => None
  }

  function BodyChange(e: Event): Change {
    match e.body
    case SpanStarted(kind, parent) =>
      StartSpan(SpanRecord(kind, e.scope, e.elapsed, None, None, parent))
    case SpanFinished(_, span, _) => FinishSpan(span, e.elapsed)
    case Instant(_, containing) =>
      if containing.None? then RecordEvent else ContainedInstant(containing.value, e.elapsed)
    case Counter(_, _) => RecordEvent
    case Recorded(_) => RecordEvent
  }

  predicate ScopeInvalid(e: Event) {
    || HasUnknownSentinel(e.scope)
    || (e.body.Recorded? && e.body.affected.Some? && HasUnknownSentinel(e.body.affected.value))
  }

  function Prepare(v: Index, e: Event): Verdict {
    if v.run.Some? && v.run.value != e.run then Refused(CrossRun)
    else if e.sequence in v.sequences then Refused(DuplicateSequence)
    else if ScopeInvalid(e) then Refused(InvalidScope)
    else if |e.causes| > MAX_CAUSAL_LINKS then Refused(TooManyCausalLinks)
    else
      var links := LinksFault(v, e.sequence, e.causes);
      if links.Some? then Refused(links.value)
      else
        var fault := BodyFault(v, e);
        if fault.Some? then Refused(fault.value) else Accepted(BodyChange(e))
  }

  function Later(current: Option<nat>, elapsed: nat): nat {
    if current.None? || current.value < elapsed then elapsed else current.value
  }

  function ChangedSpans(spans: map<nat, SpanRecord>, sequence: nat, change: Change): map<nat, SpanRecord> {
    match change
    case RecordEvent => spans
    case StartSpan(record) => spans[sequence := record]
    case FinishSpan(span, at) =>
      if span in spans then spans[span := spans[span].(finishedAt := Some(at))] else spans
    case ContainedInstant(span, at) =>
      if span in spans
      then spans[span := spans[span].(latestContainedAt := Some(Later(spans[span].latestContainedAt, at)))]
      else spans
  }

  function Commit(v: Index, e: Event, change: Change): Index {
    Index(Some(e.run), v.sequences + {e.sequence}, ChangedSpans(v.spans, e.sequence, change))
  }

  // ----- What acceptance means, stated over the accepted events alone -----

  predicate StartsAt(log: seq<Event>, i: int, span: nat) {
    0 <= i < |log| && log[i].body.SpanStarted? && log[i].sequence == span
  }

  predicate FinishesAt(log: seq<Event>, k: int, span: nat) {
    0 <= k < |log| && log[k].body.SpanFinished? && log[k].body.span == span
  }

  predicate ContainsAt(log: seq<Event>, j: int, span: nat) {
    0 <= j < |log| && log[j].body.Instant? && log[j].body.containing == Some(span)
  }

  predicate ChildAt(log: seq<Event>, c: int, span: nat) {
    0 <= c < |log| && log[c].body.SpanStarted? && log[c].body.parent == Some(span)
  }

  /** `span` was started and not yet finished, and `e` fits inside it. */
  ghost predicate FitsInside(log: seq<Event>, e: Event, span: nat) {
    && span < e.sequence
    && (exists i :: StartsAt(log, i, span) && ScopeContains(log[i].scope, e.scope)
                    && log[i].elapsed <= e.elapsed)
    && (forall k :: !FinishesAt(log, k, span))
  }

  /** `span` was started with this scope and family, was never finished, and everything placed
      inside it is over by now. */
  ghost predicate MayFinish(log: seq<Event>, e: Event, custom: bool, span: nat) {
    && span < e.sequence
    && (exists i :: StartsAt(log, i, span) && log[i].scope == e.scope
                    && (log[i].body.kind.None? <==> custom) && log[i].elapsed <= e.elapsed)
    && (forall k :: !FinishesAt(log, k, span))
    && (forall j :: ContainsAt(log, j, span) ==> log[j].elapsed <= e.elapsed)
    && (forall c :: ChildAt(log, c, span) ==>
                      exists k :: FinishesAt(log, k, log[c].sequence) && log[k].elapsed <= e.elapsed)
  }

  ghost predicate BodyAdmissible(log: seq<Event>, e: Event) {
    match e.body
    case SpanStarted(_, parent) => parent.Some? ==> FitsInside(log, e, parent.value)
    case SpanFinished(custom, span, _) => MayFinish(log, e, custom, span)
    case Instant(_, containing) => containing.Some? ==> FitsInside(log, e, containing.value)
    case Counter(_, _) => true
    case Recorded(_) => true
  }

  ghost predicate LinkAdmissible(log: seq<Event>, e: Event, link: Link) {
    link.source < e.sequence && exists i :: 0 <= i < |log| && log[i].sequence == link.source
  }

  ghost predicate Admissible(log: seq<Event>, e: Event) {
    && (forall i :: 0 <= i < |log| ==> log[i].run == e.run && log[i].sequence != e.sequence)
    && !ScopeInvalid(e)
    && |e.causes| <= MAX_CAUSAL_LINKS
    && (forall n :: 0 <= n < |e.causes| ==> LinkAdmissible(log, e, e.causes[n]))
    && BodyAdmissible(log, e)
  }

  ghost predicate ValidStream(log: seq<Event>) {
    forall i :: 0 <= i < |log| ==> Admissible(log[..i], log[i])
  }

  // ----- The indexes mirror the accepted events -----

  ghost predicate RecordMirrors(v: Index, log: seq<Event>, i: int)
    requires 0 <= i < |log| && log[i].body.SpanStarted?
  {
    var span := log[i].sequence;
    && span in v.spans
    && var record := v.spans[span];
       && record.kind == log[i].body.kind
       && record.scope == log[i].scope
       && record.startedAt == log[i].elapsed
       && record.parent == log[i].body.parent
  }

  ghost predicate FinishMirrors(v: Index, log: seq<Event>, span: nat)
    requires span in v.spans
  {
    && (forall k :: FinishesAt(log, k, span) ==> v.spans[span].finishedAt == Some(log[k].elapsed))
    && (v.spans[span].finishedAt.Some? ==> exists k :: FinishesAt(log, k, span))
  }

  ghost predicate ContentMirrors(v: Index, log: seq<Event>, span: nat)
    requires span in v.spans
  {
    var latest := v.spans[span].latestContainedAt;
    && (forall j :: ContainsAt(log, j, span) ==> latest.Some? && log[j].elapsed <= latest.value)
    && (latest.Some? ==> exists j :: ContainsAt(log, j, span) && log[j].elapsed == latest.value)
  }

  ghost predicate MirrorsHeads(v: Index, log: seq<Event>) {
    && (log == [] ==> v.run == None)
    && (forall i :: 0 <= i < |log| ==> v.run == Some(log[i].run))
    && (forall i :: 0 <= i < |log| ==> log[i].sequence in v.sequences)
    && (forall s :: s in v.sequences ==> exists i :: 0 <= i < |log| && log[i].sequence == s)
  }

  ghost predicate MirrorsStarts(v: Index, log: seq<Event>) {
    && v.spans.Keys <= v.sequences
    && (forall i :: 0 <= i < |log| && log[i].body.SpanStarted? ==> RecordMirrors(v, log, i))
    && (forall s :: s in v.spans ==> exists i :: StartsAt(log, i, s))
  }

  ghost predicate MirrorsFinishes(v: Index, log: seq<Event>) {
    && (forall s :: s in v.spans ==> FinishMirrors(v, log, s))
    && (forall k :: 0 <= k < |log| && log[k].body.SpanFinished? ==> log[k].body.span in v.spans)
  }

  ghost predicate MirrorsContents(v: Index, log: seq<Event>) {
    && (forall s :: s in v.spans ==> ContentMirrors(v, log, s))
    && (forall j :: 0 <= j < |log| && log[j].body.Instant? && log[j].body.containing.Some?
                    ==> log[j].body.containing.value in v.spans)
  }

  ghost predicate Mirrors(v: Index, log: seq<Event>) {
    && MirrorsHeads(v, log)
    && MirrorsStarts(v, log)
    && MirrorsFinishes(v, log)
    && MirrorsContents(v, log)
  }

  lemma {:induction false} LinksFaultIff(v: Index, log: seq<Event>, e: Event, links: seq<Link>)
    requires Mirrors(v, log)
    ensures LinksFault(v, e.sequence, links).None? <==>
            forall n :: 0 <= n < |links| ==> LinkAdmissible(log, e, links[n])
  {
    if links != [] {
      LinksFaultIff(v, log, e, links[1..]);
      assert LinkFault(v, e.sequence, links[0]).None? <==> LinkAdmissible(log, e, links[0]);
      assert forall n :: 1 <= n < |links| ==> links[n] == links[1..][n - 1];
    }
  }

  lemma InsideFaultIff(v: Index, log: seq<Event>, e: Event, span: nat)
    requires Mirrors(v, log)
    ensures InsideFault(v, e, span).None? <==> FitsInside(log, e, span)
  {
    if span in v.spans {
      assert FinishMirrors(v, log, span);
      var i :| StartsAt(log, i, span);
      assert RecordMirrors(v, log, i);
      assert forall n :: StartsAt(log, n, span) ==> RecordMirrors(v, log, n);
    } else {
      assert forall i :: StartsAt(log, i, span) ==> RecordMirrors(v, log, i);
    }
  }

  lemma ChildrenIff(v: Index, log: seq<Event>, span: nat, elapsed: nat)
    requires Mirrors(v, log)
    ensures !ChildStillOpen(v, span, elapsed) <==>
            forall c :: ChildAt(log, c, span) ==>
                          exists k :: FinishesAt(log, k, log[c].sequence) && log[k].elapsed <= elapsed
  {
    forall c | ChildAt(log, c, span)
      ensures log[c].sequence in v.spans && v.spans[log[c].sequence].parent == Some(span)
      ensures (exists k :: FinishesAt(log, k, log[c].sequence) && log[k].elapsed <= elapsed) <==>
              (v.spans[log[c].sequence].finishedAt.Some?
               && v.spans[log[c].sequence].finishedAt.value <= elapsed)
    {
      assert RecordMirrors(v, log, c);
      assert FinishMirrors(v, log, log[c].sequence);
    }
    forall s | s in v.spans && v.spans[s].parent == Some(span)
      ensures exists c :: ChildAt(log, c, span) && log[c].sequence == s
    {
      var i :| StartsAt(log, i, s);
      assert RecordMirrors(v, log, i);
      assert ChildAt(log, i, span);
    }
  }

  lemma FinishFaultIff(v: Index, log: seq<Event>, e: Event, custom: bool, span: nat)
    requires Mirrors(v, log)
    ensures FinishFault(v, e, custom, span).None? <==> MayFinish(log, e, custom, span)
  {
    hide Mirrors, ChildStillOpen;
    ChildrenIff(v, log, span, e.elapsed);
    SpanKnows(v, log, span);
    hide ScopeContains, ChildAt;
    if span in v.spans {
      LaterContent(v, log, span, e.elapsed);
      var i :| StartsAt(log, i, span);
    }
  }

  /** The validator's maps decide admissibility exactly. */
  lemma AcceptedIffAdmissible(v: Index, log: seq<Event>, e: Event)
    requires Mirrors(v, log)
    ensures Prepare(v, e).Accepted? <==> Admissible(log, e)
  {
    LinksFaultIff(v, log, e, e.causes);
    assert (v.run.Some? && v.run.value != e.run) <==> !(forall i :: 0 <= i < |log| ==> log[i].run == e.run) by {
      if log != [] { assert v.run == Some(log[0].run); }
    }
    assert e.sequence in v.sequences <==> !(forall i :: 0 <= i < |log| ==> log[i].sequence != e.sequence);
    match e.body
    case SpanStarted(_, parent) => if parent.Some? { InsideFaultIff(v, log, e, parent.value); }
    case SpanFinished(custom, span, _) => FinishFaultIff(v, log, e, custom, span);
    case Instant(_, containing) => if containing.Some? { InsideFaultIff(v, log, e, containing.value); }
    case Counter(_, _) =>
    case Recorded(_) =>
  }

  // ----- Why an event is refused, read off the accepted events -----

  ghost predicate OnRecord(log: seq<Event>, sequence: nat) {
    exists i :: 0 <= i < |log| && log[i].sequence == sequence
  }

  ghost predicate Started(log: seq<Event>, span: nat) {
    exists i :: StartsAt(log, i, span)
  }

  ghost predicate Over(log: seq<Event>, span: nat) {
    exists k :: FinishesAt(log, k, span)
  }

  /** The first link that does not lead back to an accepted event decides. */
  ghost function LinksWhy(log: seq<Event>, e: Event, links: seq<Link>): Option<Code> {
    if links == [] then None
    else if links[0].source == e.sequence then Some(SelfLink)
    else if links[0].source > e.sequence then Some(ForwardLink)
    else if !OnRecord(log, links[0].source) then Some(ReferenceNotFound)
    else LinksWhy(log, e, links[1..])
  }

  /** An event cannot stand in a span that is itself or comes later, that is something else than a span
      or nothing at all, that is over, that does not enclose its scope or that started after it. */
  ghost function InsideWhy(log: seq<Event>, e: Event, span: nat): Option<Code> {
    if span == e.sequence then Some(SelfLink)
    else if span > e.sequence then Some(ForwardLink)
    else if !Started(log, span) then Some(if OnRecord(log, span) then KindMismatch else ReferenceNotFound)
    else if Over(log, span) then Some(ReferenceClosed)
    else if !exists i :: StartsAt(log, i, span) && ScopeContains(log[i].scope, e.scope) then Some(ScopeMismatch)
    else if !exists i :: StartsAt(log, i, span) && log[i].elapsed <= e.elapsed then Some(ChildOutsideParent)
    else None
  }

  /** A finish cannot name a span that is still to come, something else than a span of its family, one
      that is over, one of another scope or one that starts later; and everything in it has to be
      over by then. */
  ghost function FinishWhy(log: seq<Event>, e: Event, custom: bool, span: nat): Option<Code> {
    if span >= e.sequence then Some(FinishBeforeStart)
    else if !Started(log, span) then Some(if OnRecord(log, span) then KindMismatch else ReferenceNotFound)
    else if !exists i :: StartsAt(log, i, span) && (log[i].body.kind.None? <==> custom) then Some(KindMismatch)
    else if Over(log, span) then Some(DoubleFinish)
    else if !exists i :: StartsAt(log, i, span) && log[i].scope == e.scope then Some(ScopeMismatch)
    else if !exists i :: StartsAt(log, i, span) && log[i].elapsed <= e.elapsed then Some(FinishBeforeStart)
    else if exists j :: ContainsAt(log, j, span) && log[j].elapsed > e.elapsed then Some(ChildOutsideParent)
    else if exists c :: ChildAt(log, c, span) && !exists k :: FinishesAt(log, k, log[c].sequence) && log[k].elapsed <= e.elapsed
    then Some(ChildOutsideParent)
    else None
  }

  ghost function BodyWhy(log: seq<Event>, e: Event): Option<Code> {
    match e.body
    case SpanStarted(_, parent) => if parent.None? then None else InsideWhy(log, e, parent.value)
    case SpanFinished(custom, span, _) => FinishWhy(log, e, custom, span)
    case Instant(_, containing) => if containing.None? then None else InsideWhy(log, e, containing.value)
    case Counter(_, _) => None
    case Recorded(_) => None
  }

  ghost function Why(log: seq<Event>, e: Event): Option<Code> {
    if exists i :: 0 <= i < |log| && log[i].run != e.run then Some(CrossRun)
    else if OnRecord(log, e.sequence) then Some(DuplicateSequence)
    else if ScopeInvalid(e) then Some(InvalidScope)
    else if |e.causes| > 16 then Some(TooManyCausalLinks)
    else
      var links := LinksWhy(log, e, e.causes);
      if links.Some? then links else BodyWhy(log, e)
  }

  lemma {:induction false} LinksWhyIs(v: Index, log: seq<Event>, e: Event, links: seq<Link>)
    requires Mirrors(v, log)
    ensures LinksFault(v, e.sequence, links) == LinksWhy(log, e, links)
  {
    if links != [] {
      assert OnRecord(log, links[0].source) <==> links[0].source in v.sequences;
      LinksWhyIs(v, log, e, links[1..]);
    }
  }

  /** The maps know the same starts and finishes as the log. */
  lemma SpanKnows(v: Index, log: seq<Event>, span: nat)
    requires Mirrors(v, log)
    ensures OnRecord(log, span) <==> span in v.sequences
    ensures Started(log, span) <==> span in v.spans
    ensures span in v.spans ==> (Over(log, span) <==> v.spans[span].finishedAt.Some?)
    ensures forall i :: StartsAt(log, i, span) ==>
              && span in v.spans && v.spans[span].kind == log[i].body.kind && v.spans[span].scope == log[i].scope
              && v.spans[span].startedAt == log[i].elapsed
  {
    forall i | StartsAt(log, i, span) ensures RecordMirrors(v, log, i) { }
    if span in v.spans { assert FinishMirrors(v, log, span); }
  }

  lemma InsideWhyIs(v: Index, log: seq<Event>, e: Event, span: nat)
    requires Mirrors(v, log)
    ensures InsideFault(v, e, span) == InsideWhy(log, e, span)
  {
    hide Mirrors, OnRecord, Over;
    SpanKnows(v, log, span);
    if span in v.spans { var i :| StartsAt(log, i, span); }
  }

  lemma FinishWhyIs(v: Index, log: seq<Event>, e: Event, custom: bool, span: nat)
    requires Mirrors(v, log)
    ensures FinishFault(v, e, custom, span) == FinishWhy(log, e, custom, span)
  {
    hide Mirrors, ChildStillOpen, OnRecord, Over;
    SpanKnows(v, log, span);
    ChildrenIff(v, log, span, e.elapsed);
    if span in v.spans {
      LaterContent(v, log, span, e.elapsed);
      var i :| StartsAt(log, i, span);
    }
  }

  lemma LaterContent(v: Index, log: seq<Event>, span: nat, elapsed: nat)
    requires Mirrors(v, log) && span in v.spans
    ensures var latest := v.spans[span].latestContainedAt;
            (exists j :: ContainsAt(log, j, span) && log[j].elapsed > elapsed) <==> latest.Some? && latest.value > elapsed
  {
    assert ContentMirrors(v, log, span);
  }

  /** The verdict of the validator, with its code, is the one the accepted events alone determine. */
  lemma VerdictIs(v: Index, log: seq<Event>, e: Event)
    requires Mirrors(v, log)
    ensures Prepare(v, e) == match Why(log, e) case None => Accepted(BodyChange(e)) case Some(code) => Refused(code)
  {
    HeadsKnow(v, log, e);
    LinksWhyIs(v, log, e, e.causes);
    match e.body
    case SpanStarted(_, parent) => if parent.Some? { InsideWhyIs(v, log, e, parent.value); }
    case SpanFinished(custom, span, _) => FinishWhyIs(v, log, e, custom, span);
    case Instant(_, containing) => if containing.Some? { InsideWhyIs(v, log, e, containing.value); }
    case Counter(_, _) =>
    case Recorded(_) =>
    hide Mirrors, LinksFault, LinksWhy, InsideFault, InsideWhy, FinishFault, FinishWhy;
  }

  lemma HeadsKnow(v: Index, log: seq<Event>, e: Event)
    requires Mirrors(v, log)
    ensures (v.run.Some? && v.run.value != e.run) <==> exists i :: 0 <= i < |log| && log[i].run != e.run
    ensures OnRecord(log, e.sequence) <==> e.sequence in v.sequences
  {
    if log != [] { assert v.run == Some(log[0].run); }
  }

  /** What acceptance leaves for the commit: a fresh sequence, and referenced spans that exist. */
  predicate Committable(v: Index, e: Event) {
    && e.sequence !in v.sequences
    && (v.run.Some? ==> v.run.value == e.run)
    && (e.body.SpanFinished? ==>
          && e.body.span in v.spans && v.spans[e.body.span].finishedAt.None?
          && v.spans[e.body.span].scope == e.scope
          && (v.spans[e.body.span].kind.None? <==> e.body.custom))
    && (e.body.Instant? && e.body.containing.Some? ==> e.body.containing.value in v.spans)
  }

  lemma AcceptedCommits(v: Index, e: Event)
    requires Prepare(v, e).Accepted?
    ensures Prepare(v, e).change == BodyChange(e) && Committable(v, e)
    ensures e.body.SpanStarted? && e.body.parent.Some? ==>
              e.body.parent.value < e.sequence && e.body.parent.value in v.spans
  {
  }

  lemma CommitMirrorsStarts(v: Index, log: seq<Event>, e: Event)
    requires MirrorsStarts(v, log) && Committable(v, e)
    ensures MirrorsStarts(Commit(v, e, BodyChange(e)), log + [e])
  {
    var v', log' := Commit(v, e, BodyChange(e)), log + [e];
    forall i | 0 <= i < |log'| && log'[i].body.SpanStarted? ensures RecordMirrors(v', log', i) {
      if i < |log| { assert RecordMirrors(v, log, i); }
    }
    forall s | s in v'.spans ensures exists i :: StartsAt(log', i, s) {
      if s in v.spans {
        var i :| StartsAt(log, i, s);
        assert StartsAt(log', i, s);
      } else {
        assert StartsAt(log', |log|, s);
      }
    }
  }

  lemma CommitMirrorsFinishes(v: Index, log: seq<Event>, e: Event)
    requires MirrorsFinishes(v, log) && v.spans.Keys <= v.sequences && Committable(v, e)
    ensures MirrorsFinishes(Commit(v, e, BodyChange(e)), log + [e])
  {
    var v', log' := Commit(v, e, BodyChange(e)), log + [e];
    forall s | s in v'.spans ensures FinishMirrors(v', log', s) {
      assert forall k :: FinishesAt(log', k, s) ==> k == |log| || FinishesAt(log, k, s);
      assert forall k :: FinishesAt(log, k, s) ==> FinishesAt(log', k, s);
      assert e.body.SpanFinished? && e.body.span == s ==> FinishesAt(log', |log|, s);
      assert s in v.spans ==> FinishMirrors(v, log, s);
    }
  }

  lemma CommitMirrorsContents(v: Index, log: seq<Event>, e: Event)
    requires MirrorsContents(v, log) && v.spans.Keys <= v.sequences && Committable(v, e)
    ensures MirrorsContents(Commit(v, e, BodyChange(e)), log + [e])
  {
    var v', log' := Commit(v, e, BodyChange(e)), log + [e];
    forall s | s in v'.spans ensures ContentMirrors(v', log', s) {
      assert forall j :: ContainsAt(log', j, s) ==> j == |log| || ContainsAt(log, j, s);
      assert forall j :: ContainsAt(log, j, s) ==> ContainsAt(log', j, s);
      assert e.body.Instant? && e.body.containing == Some(s) ==> ContainsAt(log', |log|, s);
      assert s in v.spans ==> ContentMirrors(v, log, s);
    }
  }

  lemma CommitMirrorsHeads(v: Index, log: seq<Event>, e: Event)
    requires MirrorsHeads(v, log) && Committable(v, e)
    ensures MirrorsHeads(Commit(v, e, BodyChange(e)), log + [e])
  {
    var v', log' := Commit(v, e, BodyChange(e)), log + [e];
    forall s | s in v'.sequences ensures exists i :: 0 <= i < |log'| && log'[i].sequence == s {
      if s == e.sequence {
        assert log'[|log|].sequence == s;
      } else {
        var i :| 0 <= i < |log| && log[i].sequence == s;
        assert log'[i].sequence == s;
      }
    }
  }

  /** Committing an accepted event keeps the indexes a mirror of the accepted events. */
  lemma CommitMirrors(v: Index, log: seq<Event>, e: Event)
    requires Mirrors(v, log) && Prepare(v, e).Accepted?
    ensures Mirrors(Commit(v, e, BodyChange(e)), log + [e])
  {
    AcceptedCommits(v, e);
    hide Prepare;
    CommitMirrorsHeads(v, log, e);
    CommitMirrorsStarts(v, log, e);
    CommitMirrorsFinishes(v, log, e);
    CommitMirrorsContents(v, log, e);
  }

  // ----- What a valid stream guarantees -----

  lemma SequencesDistinct(log: seq<Event>, i: int, j: int)
    requires ValidStream(log) && 0 <= i < j < |log|
    ensures log[i].sequence != log[j].sequence
  {
    assert Admissible(log[..j], log[j]);
    assert log[..j][i] == log[i];
  }

  /** In a valid stream no span is finished twice. */
  lemma FinishedOnce(log: seq<Event>, k1: int, k2: int)
    requires ValidStream(log) && 0 <= k1 < k2 < |log|
    requires log[k1].body.SpanFinished? && log[k2].body.SpanFinished?
    ensures log[k1].body.span != log[k2].body.span
  {
    assert Admissible(log[..k2], log[k2]);
    assert !FinishesAt(log[..k2], k1, log[k2].body.span);
  }

  /** In a valid stream a finish follows the start it names, with the same scope. */
  lemma FinishFollowsStart(log: seq<Event>, span: nat, k: int)
    requires ValidStream(log) && FinishesAt(log, k, span)
    ensures exists i :: StartsAt(log, i, span) && i < k && log[i].scope == log[k].scope
  {
    assert Admissible(log[..k], log[k]);
    assert MayFinish(log[..k], log[k], log[k].body.custom, span);
    var i :| StartsAt(log[..k], i, span) && log[..k][i].scope == log[k].scope;
    assert StartsAt(log, i, span);
  }

  /** A child starts inside its parent: after the parent's start and before its finish. */
  lemma ChildStartsInside(log: seq<Event>, c: int, span: nat, k: int)
    requires ValidStream(log) && ChildAt(log, c, span) && FinishesAt(log, k, span)
    ensures exists i :: StartsAt(log, i, span) && i < c < k && log[i].elapsed <= log[c].elapsed
  {
    assert Admissible(log[..c], log[c]);
    assert FitsInside(log[..c], log[c], span);
    var i :| StartsAt(log[..c], i, span) && log[..c][i].elapsed <= log[c].elapsed;
    assert StartsAt(log, i, span);
    assert !FinishesAt(log[..c], k, span);
  }

  /** Spans nest: when a parent finishes, its children have finished before it, no later by the
      run clock either. */
  lemma SpansNest(log: seq<Event>, c: int, span: nat, k: int)
    requires ValidStream(log) && ChildAt(log, c, span) && FinishesAt(log, k, span)
    ensures exists f :: FinishesAt(log, f, log[c].sequence) && c < f < k && log[f].elapsed <= log[k].elapsed
  {
    ChildStartsInside(log, c, span, k);
    assert Admissible(log[..k], log[k]);
    assert MayFinish(log[..k], log[k], log[k].body.custom, span);
    assert ChildAt(log[..k], c, span);
    var f :| FinishesAt(log[..k], f, log[..k][c].sequence) && log[..k][f].elapsed <= log[k].elapsed;
    assert FinishesAt(log, f, log[c].sequence);
    FinishFollowsStart(log, log[c].sequence, f);
    var s :| StartsAt(log, s, log[c].sequence) && s < f;
    if s < c { SequencesDistinct(log, s, c); }
    if c < s { SequencesDistinct(log, c, s); }
  }

  /** The validator object: `validate` prepares a change and commits it only on acceptance. */
  class ReferenceValidator {
    var run: Option<nat>
    var sequences: set<nat>
    var spans: map<nat, SpanRecord>

    constructor ()
      ensures Contents() == EMPTY_INDEX && Mirrors(Contents(), [])
    {
      run, sequences, spans := None, {}, map[];
    }

    function Contents(): Index
      reads this
    {
      Index(run, sequences, spans)
    }

    /** Commits the prepared change on acceptance and leaves the indexes alone on a refusal. */
    method Validate(e: Event) returns (fault: Option<Code>)
      modifies this
      ensures match Prepare(old(Contents()), e)
              case Accepted(change) => fault.None? && Contents() == Commit(old(Contents()), e, change)
              case Refused(code) => fault == Some(code) && Contents() == old(Contents())
    {
      var verdict := Prepare(Contents(), e);
      if verdict.Refused? {
        return Some(verdict.code);
      }
      sequences := sequences + {e.sequence};
      match verdict.change {
        case RecordEvent =>
        case StartSpan(record) => spans := spans[e.sequence := record];
        case FinishSpan(span, at) => spans := spans[span := spans[span].(finishedAt := Some(at))];
        case ContainedInstant(span, at) =>
          var latest := spans[span].latestContainedAt;
          spans := spans[span := spans[span].(latestContainedAt := Some(Later(latest, at)))];
      }
      run := Some(e.run);
      fault := None;
    }
  }

  /** Validates a whole stream: it is accepted exactly when every event is admissible in turn. */
  method ValidateEventStream(events: seq<Event>) returns (fault: Option<Code>)
    ensures fault.None? <==> ValidStream(events)
  {
    var validator := new ReferenceValidator();
    hide Prepare, Mirrors, Admissible, Commit;
    for n := 0 to |events|
      invariant Mirrors(validator.Contents(), events[..n])
      invariant forall i :: 0 <= i < n ==> Admissible(events[..i], events[i])
    {
      ghost var v := validator.Contents();
      AcceptedIffAdmissible(v, events[..n], events[n]);
      fault := validator.Validate(events[n]);
      if fault.Some? {
        return;
      }
      AcceptedCommits(v, events[n]);
      CommitMirrors(v, events[..n], events[n]);
      assert events[..n] + [events[n]] == events[..n + 1];
    }
    assert events[..|events|] == events;
    fault := None;
  }
}
