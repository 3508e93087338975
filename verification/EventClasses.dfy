/** The fourteen event classes: their attributes, their detail classes, and what their constructors
    demand of single attributes and of several together. */
module EventClasses {
  import opened Events
  import opened Codec
  import opened CodecProofs

  /** `sub` is the span kind or the instant kind of the variants that have one, and empty otherwise. */
  datatype WireEvent = WireEvent(kind: string, sub: string, values: seq<Value>)

  const SCOPE: Ty := RecordTy([
    (SceneId, OptTy(IdTy)), (ActorId, OptTy(IdTy)), (CueId, OptTy(IdTy)), (EffectId, OptTy(IdTy)),
    (ActId, OptTy(IdTy)), (ToolCallId, OptTy(IdTy)), (SessionGeneration, OptTy(U64Ty(true)))])

  const CAUSAL_LINK: Ty := RecordTy([(SourceSequence, U64Ty(true)), (RelationField, EnumTy(Relations))])

  function Common(kind: string): seq<(Field, Ty)> {
    [(Kind, EnumTy(Only(kind))), (SchemaVersion, VersionTy), (RunId, UuidTy), (Sequence, U64Ty(true)),
     (ElapsedNs, U64Ty(false)), (ScopeField, SCOPE), (CausedBy, ListTy(CAUSAL_LINK, Some(MAX_CAUSAL_LINKS)))]
  }

  // ----- Details -----

  datatype DetailClass =
    | EmptyDetail | PathDetail | LoadDetail | ConstructDetail | ActorDetail | EffectDetail | SessionDetail
    | BrokenDetail | TerminalDetail | ToolDetail | ResultDetail | FailedDetail

  const OPT_STR: Ty := OptTy(StrTy)
  const ISSUE: Ty := RecordTy([(CodeField, StrTy), (Path, StrTy)])

  /** The fields of each detail class; captured tool payloads do not go over the wire. */
  function DetailFields(d: DetailClass): seq<(Field, Ty)> {
    match d
    case EmptyDetail => []
    case PathDetail => [(ProductionRoot, StrTy), (Package, StrTy)]
    case LoadDetail => [(Package, StrTy)]
    case ConstructDetail => [(Package, StrTy), (ClassName, StrTy)]
    case ActorDetail => [(DisplayName, StrTy), (ActorType, StrTy)]
    case EffectDetail => [(EffectType, StrTy)]
    case SessionDetail => [(Provider, StrTy), (EffectiveModel, OPT_STR), (EffectiveEffort, OPT_STR)]
    case BrokenDetail => [(Provider, StrTy), (EffectiveModel, OPT_STR), (EffectiveEffort, OPT_STR), (ErrorCode, StrTy)]
    case TerminalDetail => [(ErrorCode, OPT_STR)]
    case ToolDetail =>
      [(Title, StrTy), (ToolKind, EnumTy(ToolKinds)), (Status, EnumTy(ToolStatuses)), (ErrorCode, OPT_STR)]
    case ResultDetail => [(Issue, OptTy(ISSUE)), (ErrorCode, OPT_STR)]
    case FailedDetail =>
      [(Component, EnumTy(Only("sink"))), (ComponentId, IdTy), (Stage, StrTy), (ErrorCode, StrTy),
       (RelatedEventSequence, OPT_SPAN)]
  }

  function SpanDetail(kind: string): Option<DetailClass> {
    if kind in {"run.lifecycle", "production.start", "production.stop", "production.shutdown", "scene.lifecycle",
                "scene.drain", "scene.cleanup", "cue.mailbox_wait", "cue.execution", "act.caller", "agent.thinking"}
    then Some(EmptyDetail)
    else if kind == "production.path_resolution" then Some(PathDetail)
    else if kind == "production.load" then Some(LoadDetail)
    else if kind == "production.construct" then Some(ConstructDetail)
    else if kind == "actor.handle_lifetime" then Some(ActorDetail)
    else if kind == "effect.lifecycle" then Some(EffectDetail)
    else if kind in {"agent.session.opening", "agent.session.lifecycle", "agent.session.closing", "act.lifecycle", "agent.turn"}
    then Some(SessionDetail)
    else if kind == "tool.call" then Some(ToolDetail)
    else None
  }

  function InstantDetail(kind: string): Option<DetailClass> {
    if kind in {"cue.admitted", "cue.enqueued", "cue.dispatched", "cue.cancel_requested", "act.admitted",
                "act.waiting_ready", "act.prompt_submitted", "act.cancel_requested", "act.supervisor_handoff",
                "agent.turn.activity"}
    then Some(EmptyDetail)
    else if kind == "actor.cast" then Some(ActorDetail)
    else if kind in {"effect.created", "effect.returned", "effect.consumed"} then Some(EffectDetail)
    else if kind == "agent.session.ready" then Some(SessionDetail)
    else if kind == "agent.session.broken" then Some(BrokenDetail)
    else if kind in {"agent.turn.terminal", "agent.turn.settled"} then Some(TerminalDetail)
    else if kind == "tool.updated" then Some(ToolDetail)
    else if kind in {"result.submitted", "result.rejected", "result.repair_requested", "result.accepted", "result.missing"}
    then Some(ResultDetail)
    else if kind == "diagnostic.component_failed" then Some(FailedDetail)
    else None
  }

  // ----- Variants -----

  const OPT_U64: Ty := OptTy(U64Ty(false))
  const OPT_SPAN: Ty := OptTy(U64Ty(true))
  const OPT_TOKEN: Ty := OptTy(TokenTy)
  const PLAN_ENTRY: Ty := RecordTy([(Content, StrTy), (Priority, EnumTy(Priorities)), (Status, EnumTy(Statuses))])
  const INTERVAL: Ty := RecordTy([(StartNs, U64Ty(false)), (EndNs, U64Ty(false))])

  datatype Variant =
    | SpanStartedV(span: string, detail: DetailClass) | InstantV(instant: string, detail: DetailClass)
    | SpanFinishedV | CounterV | MessageDeltaV | MessageCompletedV | PlanV | ContextUsageV | TokenUsageV | GapV
    | CustomSpanStartedV | CustomSpanFinishedV | CustomInstantV | CustomCounterV

  function OwnFields(v: Variant): seq<(Field, Ty)> {
    match v
    case SpanStartedV(span, detail) =>
      [(SpanKindField, EnumTy(Only(span))), (Detail, RecordTy(DetailFields(detail))), (ParentSpanId, OPT_SPAN)]
    case InstantV(instant, detail) =>
      [(InstantKindField, EnumTy(Only(instant))), (Detail, RecordTy(DetailFields(detail))), (ContainingSpanId, OPT_SPAN)]
    case SpanFinishedV => [(SpanId, U64Ty(true)), (OutcomeField, EnumTy(Outcomes)), (ErrorCode, OPT_STR)]
    case CounterV => [(CounterKindField, EnumTy(CounterKinds)), (ValueField, U64Ty(false))]
    case MessageDeltaV => [(MessageId, IdTy), (SourceMessageId, OPT_STR), (TextDelta, StrTy)]
    case MessageCompletedV =>
      [(MessageId, IdTy), (Utf8Bytes, U64Ty(false)), (UnicodeScalarCount, U64Ty(false)), (Truncated, BoolTy)]
    case PlanV => [(EntriesField, ListTy(PLAN_ENTRY, None)), (Truncated, BoolTy)]
    case ContextUsageV =>
      [(ContextUsedTokens, OPT_U64), (ContextWindowTokens, OPT_U64), (CumulativeCostAmount, OptTy(DecimalTy)),
       (CumulativeCostCurrency, OPT_STR), (SampleOrigin, EnumTy(Origins)), (ObservedElapsedNs, OPT_U64)]
    case TokenUsageV =>
      [(Availability, EnumTy(Availabilities)), (Source, OptTy(EnumTy(Sources))),
       (UnavailableReason, OptTy(EnumTy(Reasons))), (ProviderTotalTokens, OPT_TOKEN), (InputTokens, OPT_TOKEN),
       (OutputTokens, OPT_TOKEN), (ThoughtTokens, OPT_TOKEN), (CachedReadTokens, OPT_TOKEN),
       (CachedWriteTokens, OPT_TOKEN)]
    case GapV =>
      [(ProducerField, StrTy), (Component, OPT_STR), (Reason, StrTy), (DroppedCount, OPT_U64),
       (AffectedElapsed, OptTy(INTERVAL)), (AffectedKind, OptTy(EnumTy(EventKinds))), (AffectedScope, OptTy(SCOPE))]
    case CustomSpanStartedV => [(NameField, CustomNameTy), (ParentSpanId, OPT_SPAN), (Attributes, EntriesTy(false))]
    case CustomSpanFinishedV => [(SpanId, U64Ty(true)), (OutcomeField, EnumTy(Outcomes))]
    case CustomInstantV =>
      [(NameField, CustomNameTy), (ContainingSpanId, OPT_SPAN), (Severity, OptTy(EnumTy(Severities))),
       (Attributes, EntriesTy(false))]
    case CustomCounterV =>
      [(NameField, CustomNameTy), (ValueField, NumberTy), (Unit, OptTy(UnitTy)), (Dimensions, EntriesTy(true))]
  }

  function VariantOf(kind: string, sub: string): Option<Variant> {
    if kind == "span_started" then
      var detail := SpanDetail(sub);
      if detail.None? then None else Some(SpanStartedV(sub, detail.value))
    else if kind == "instant_occurred" then
      var detail := InstantDetail(sub);
      if detail.None? then None else Some(InstantV(sub, detail.value))
    else if sub != "" then None
    else if kind == "span_finished" then Some(SpanFinishedV)
    else if kind == "counter_sampled" then Some(CounterV)
    else if kind == "agent_message_delta" then Some(MessageDeltaV)
    else if kind == "agent_message_completed" then Some(MessageCompletedV)
    else if kind == "agent_plan_snapshot" then Some(PlanV)
    else if kind == "context_usage_sampled" then Some(ContextUsageV)
    else if kind == "act_token_usage_finalized" then Some(TokenUsageV)
    else if kind == "observation_gap" then Some(GapV)
    else if kind == "custom_span_started" then Some(CustomSpanStartedV)
    else if kind == "custom_span_finished" then Some(CustomSpanFinishedV)
    else if kind == "custom_instant_occurred" then Some(CustomInstantV)
    else if kind == "custom_counter_sampled" then Some(CustomCounterV)
    else None
  }

  function SchemaOf(kind: string, v: Variant): seq<(Field, Ty)> {
    Common(kind) + OwnFields(v)
  }

  // ----- Conditions across fields -----

  /** Causal links point backward. */
  predicate LinksBackward(vs: seq<Value>) {
    |vs| > 6 && vs[3].VInt? && vs[6].VList? ==>
      forall i :: 0 <= i < |vs[6].items| ==>
        var link := vs[6].items[i];
        link.VRec? && |link.fields| == 2 && link.fields[0].VInt? ==> link.fields[0].number < vs[3].number
  }

  predicate NotAbove(a: Value, b: Value) {
    a.VInt? && b.VInt? ==> a.number <= b.number
  }

  predicate IsoCurrency(s: string) {
    |s| == 3 && forall i :: 0 <= i < 3 ==> 'A' <= s[i] <= 'Z'
  }

  /** Usage within the window; amount and currency together; a carried-forward sample knows when it
      was observed. */
  predicate ContextRule(vs: seq<Value>) {
    |vs| == 6 ==>
      && NotAbove(vs[0], vs[1])
      && (vs[2].VDec? && vs[2].decimal.Finite? ==> !vs[2].decimal.negative || vs[2].decimal.coefficient == 0)
      && (vs[2].VNone? <==> vs[3].VNone?)
      && (vs[3].VStr? ==> IsoCurrency(vs[3].text))
      && (vs[4] == VStr("carried_forward") ==> !vs[5].VNone?)
  }

  /** Complete, partial and unavailable usage exclude each other. */
  predicate UsageRule(vs: seq<Value>) {
    |vs| == 9 ==>
      var primary := !vs[3].VNone? && !vs[4].VNone? && !vs[5].VNone?;
      var any := exists i :: 3 <= i < 9 && !vs[i].VNone?;
      || (vs[0] == VStr("available") && primary && !vs[1].VNone? && vs[2].VNone?)
      || (vs[0] == VStr("partial") && any && !primary && !vs[1].VNone? && vs[2].VNone?)
      || (vs[0] == VStr("unavailable") && !any && vs[1].VNone? && !vs[2].VNone?)
  }

  predicate GapRule(vs: seq<Value>) {
    |vs| == 7 && vs[4].VRec? && |vs[4].fields| == 2 ==> NotAbove(vs[4].fields[0], vs[4].fields[1])
  }

  /** The stage of a component failure and its error code belong together. */
  predicate FailureRule(vs: seq<Value>) {
    |vs| == 3 && vs[1].VRec? && |vs[1].fields| == 5 ==>
      var stage, code := vs[1].fields[2], vs[1].fields[3];
      || (stage == VStr("enqueue") && code == VStr("delivery_queue_unavailable"))
      || (stage == VStr("callback") && (code == VStr("callback_raised") || code == VStr("callback_invalid_return")))
  }

  predicate Rules(v: Variant, vs: seq<Value>) {
    && LinksBackward(vs)
    && (|vs| >= 7 ==>
          && (v.ContextUsageV? ==> ContextRule(vs[7..]))
          && (v.TokenUsageV? ==> UsageRule(vs[7..]))
          && (v.GapV? ==> GapRule(vs[7..]))
          && (v.InstantV? && v.detail.FailedDetail? ==> FailureRule(vs[7..])))
  }

  // ----- Schemas are well formed -----

  predicate DistinctFields(fields: seq<(Field, Ty)>) {
    forall i, j :: 0 <= i < j < |fields| ==> fields[i].0 != fields[j].0
  }

  predicate FieldsOk(fields: seq<(Field, Ty)>) {
    DistinctFields(fields) && forall i :: 0 <= i < |fields| ==> SchemaOk(fields[i].1)
  }

  /** A type that holds no record. */
  predicate Flat(ty: Ty) {
    Leaf(ty) || ty.EntriesTy? || (ty.OptTy? && Leaf(ty.inner))
  }

  lemma FlatFieldsOk(fields: seq<(Field, Ty)>)
    requires DistinctFields(fields) && forall i :: 0 <= i < |fields| ==> Flat(fields[i].1)
    ensures FieldsOk(fields) && SchemaOk(RecordTy(fields))
  {
    forall i | 0 <= i < |fields| ensures SchemaOk(fields[i].1) {
      assert Flat(fields[i].1);
    }
  }

  lemma ScopeDistinct()
    ensures DistinctFields(SCOPE.fields)
  {
  }

  lemma ScopeOk()
    ensures SchemaOk(SCOPE)
  {
    ScopeDistinct();
    hide SchemaOk, DistinctFields;
    FlatFieldsOk(SCOPE.fields);
  }

  lemma PlanEntryOk()
    ensures SchemaOk(PLAN_ENTRY)
  {
    hide SchemaOk;
    FlatFieldsOk(PLAN_ENTRY.fields);
  }

  lemma PairOk(a: Field, s: Ty, b: Field, t: Ty)
    requires a != b && Flat(s) && Flat(t)
    ensures SchemaOk(RecordTy([(a, s), (b, t)]))
  {
    hide SchemaOk;
    FlatFieldsOk([(a, s), (b, t)]);
  }

  lemma PairsOk()
    ensures SchemaOk(CAUSAL_LINK) && SchemaOk(INTERVAL) && SchemaOk(ISSUE)
  {
    hide SchemaOk;
    PairOk(SourceSequence, U64Ty(true), RelationField, EnumTy(Relations));
    PairOk(StartNs, U64Ty(false), EndNs, U64Ty(false));
    PairOk(CodeField, StrTy, Path, StrTy);
  }

  /** Wrapping a good type. */
  lemma WrappedOk(ty: Ty)
    requires SchemaOk(ty) && !ty.OptTy?
    ensures SchemaOk(OptTy(ty)) && forall most :: SchemaOk(ListTy(ty, most))
  {
  }

  lemma DetailDistinct(d: DetailClass)
    ensures DistinctFields(DetailFields(d))
  {
  }

  lemma DetailFlat(d: DetailClass)
    requires !d.ResultDetail?
    ensures forall i :: 0 <= i < |DetailFields(d)| ==> Flat(DetailFields(d)[i].1)
  {
  }

  lemma DetailOk(d: DetailClass)
    ensures SchemaOk(RecordTy(DetailFields(d)))
  {
    DetailDistinct(d);
    if d.ResultDetail? {
      PairsOk();
      hide ISSUE;
    } else {
      DetailFlat(d);
      hide SchemaOk, DetailFields;
      FlatFieldsOk(DetailFields(d));
    }
  }

  predicate IsCommon(f: Field) {
    f.Kind? || f.SchemaVersion? || f.RunId? || f.Sequence? || f.ElapsedNs? || f.ScopeField? || f.CausedBy?
  }

  lemma CommonDistinct(kind: string)
    ensures DistinctFields(Common(kind)) && forall i :: 0 <= i < |Common(kind)| ==> IsCommon(Common(kind)[i].0)
  {
  }

  lemma CommonOk(kind: string)
    ensures FieldsOk(Common(kind)) && forall i :: 0 <= i < |Common(kind)| ==> IsCommon(Common(kind)[i].0)
  {
    CommonDistinct(kind);
    ScopeOk();
    PairsOk();
    WrappedOk(CAUSAL_LINK);
    hide DistinctFields, IsCommon;
    var c := Common(kind);
    forall i | 0 <= i < |c| ensures SchemaOk(c[i].1) {
      assert i == 5 || i == 6 || Leaf(c[i].1);
    }
  }

  lemma OwnDistinct(v: Variant)
    ensures DistinctFields(OwnFields(v))
  {
    hide DetailFields;
    match v
    case TokenUsageV => TokenUsageDistinct();
    case GapV => GapDistinct();
    case ContextUsageV => ContextDistinct();
    case _ =>
  }

  lemma ContextDistinct()
    ensures DistinctFields(OwnFields(ContextUsageV))
  {
  }

  lemma TokenUsageDistinct()
    ensures DistinctFields(OwnFields(TokenUsageV))
  {
  }

  lemma GapDistinct()
    ensures DistinctFields(OwnFields(GapV))
  {
  }

  lemma OwnNotCommon(v: Variant)
    ensures forall i :: 0 <= i < |OwnFields(v)| ==> !IsCommon(OwnFields(v)[i].0)
  {
    hide DetailFields;
  }

  lemma OwnFlat(v: Variant)
    requires !v.SpanStartedV? && !v.InstantV? && !v.PlanV? && !v.GapV?
    ensures forall i :: 0 <= i < |OwnFields(v)| ==> Flat(OwnFields(v)[i].1)
  {
  }

  lemma NestedFieldsOk(v: Variant)
    requires v.SpanStartedV? || v.InstantV? || v.PlanV? || v.GapV?
    ensures forall i :: 0 <= i < |OwnFields(v)| ==> SchemaOk(OwnFields(v)[i].1)
  {
    if v.GapV? {
      ScopeOk();
      PairsOk();
      WrappedOk(SCOPE);
      WrappedOk(INTERVAL);
    } else if v.PlanV? {
      PlanEntryOk();
      WrappedOk(PLAN_ENTRY);
    } else {
      DetailOk(v.detail);
    }
    hide DetailFields;
    var f := OwnFields(v);
    forall i | 0 <= i < |f| ensures SchemaOk(f[i].1) {
      assert v.GapV? ==> i == 4 || i == 6 || Flat(f[i].1);
      assert v.PlanV? ==> i == 0 || Flat(f[i].1);
      assert v.SpanStartedV? || v.InstantV? ==> i == 1 || Flat(f[i].1);
    }
  }

  lemma OwnOk(v: Variant)
    ensures FieldsOk(OwnFields(v))
  {
    OwnDistinct(v);
    hide SchemaOk, OwnFields, DistinctFields;
    if v.SpanStartedV? || v.InstantV? || v.PlanV? || v.GapV? {
      NestedFieldsOk(v);
    } else {
      OwnFlat(v);
      FlatFieldsOk(OwnFields(v));
    }
  }

  lemma SchemaIsOk(kind: string, v: Variant)
    ensures SchemaOk(RecordTy(SchemaOf(kind, v)))
  {
    CommonOk(kind);
    OwnOk(v);
    OwnNotCommon(v);
    hide Common, OwnFields, IsCommon;
  }
}
