/** The encoder and the decoder of events are two sets of tables, written apart: what goes under
    which wire name, and what is read from it into which attribute. The tables agree with each
    other and with the event classes. */
module EventTables {
  import opened Events
  import opened Digits
  import opened Codec
  import opened CodecProofs
  import opened EventClasses

  // ----- Writing -----

  /** How the encoder writes an attribute: as it is, as text, or piece by piece. */
  datatype Put =
    | Raw
    | Str
    | DecText
    | Tagged
    | Opt(put: Put)
    | Obj(attributes: seq<Field>, rows: seq<Row>)
    | ListOf(item: Put)
    | Entries(dimensions: bool)

  /** The wire name, the attribute written under it, and how. */
  datatype Row = Row(wire: Field, attribute: Field, put: Put)

  /** The attribute of an object. */
  function At(attributes: seq<Field>, values: seq<Value>, attribute: Field): Value {
    if attributes == [] || values == [] then VNone
    else if attributes[0] == attribute then values[0]
    else At(attributes[1..], values[1..], attribute)
  }

  function WriteRaw(v: Value): Json {
    match v
    case VStr(s) => JStr(s)
    case VBool(b) => JBool(b)
    case VInt(i) => JInt(i)
    case _ => JNull
  }

  function WriteText(v: Value): Json {
    match v
    case VStr(s) => JStr(s)
    case VInt(i) => JStr(IntText(i))
    case _ => JNull
  }

  function Write(put: Put, v: Value): Json {
    match put
    case Raw => WriteRaw(v)
    case Str => WriteText(v)
    case DecText => if v.VDec? then JStr(DecimalTextOf(v.decimal)) else JNull
    case Tagged => EncodeScalar(v)
    case Opt(inner) => if v.VNone? then JNull else Write(inner, v)
    case Obj(attributes, rows) =>
      if v.VRec?
      then JObj(seq(|rows|, i requires 0 <= i < |rows| =>
                      (Name(rows[i].wire), Write(rows[i].put, At(attributes, v.fields, rows[i].attribute)))))
      else JNull
    case ListOf(item) =>
      if v.VList? then JList(seq(|v.items|, i requires 0 <= i < |v.items| => Write(item, v.items[i]))) else JNull
    case Entries(dimensions) =>
      if v.VEntries?
      then JObj(seq(|v.pairs|, i requires 0 <= i < |v.pairs| => (Text(v.pairs[i].0), EncodeEntry(dimensions, v.pairs[i].1))))
      else JNull
  }

  const PUT_SCOPE := Obj([SceneId, ActorId, CueId, EffectId, ActId, ToolCallId, SessionGeneration],
    [Row(SceneId, SceneId, Raw), Row(ActorId, ActorId, Raw), Row(CueId, CueId, Raw), Row(EffectId, EffectId, Raw),
     Row(ActId, ActId, Raw), Row(ToolCallId, ToolCallId, Raw), Row(SessionGeneration, SessionGeneration, Opt(Str))])

  const PUT_LINK := Obj([SourceSequence, RelationField], [Row(SourceSequence, SourceSequence, Str), Row(RelationField, RelationField, Raw)])

  const PUT_COMMON: seq<Row> :=
    [Row(Kind, Kind, Raw), Row(SchemaVersion, SchemaVersion, Raw), Row(RunId, RunId, Str), Row(Sequence, Sequence, Str),
     Row(ElapsedNs, ElapsedNs, Str), Row(ScopeField, ScopeField, PUT_SCOPE), Row(CausedBy, CausedBy, ListOf(PUT_LINK))]

  const PUT_SESSION: seq<Row> :=
    [Row(Provider, Provider, Raw), Row(EffectiveModel, EffectiveModel, Raw), Row(EffectiveEffort, EffectiveEffort, Raw)]

  const PUT_TOOL: seq<Row> :=
    [Row(Title, Title, Raw), Row(ToolKind, ToolKind, Raw), Row(Status, Status, Raw), Row(ErrorCode, ErrorCode, Raw)]

  const PUT_ISSUE := Obj([CodeField, Path], [Row(CodeField, CodeField, Raw), Row(Path, Path, Raw)])

  /** The details of a span start, and those of an instant; other classes are not handled there. */
  function PutSpanDetail(d: DetailClass): Option<seq<Row>> {
    match d
    case EmptyDetail => Some([])
    case PathDetail => Some([Row(ProductionRoot, ProductionRoot, Raw), Row(Package, Package, Raw)])
    case LoadDetail => Some([Row(Package, Package, Raw)])
    case ConstructDetail => Some([Row(Package, Package, Raw), Row(ClassName, ClassName, Raw)])
    case ActorDetail => Some([Row(DisplayName, DisplayName, Raw), Row(ActorType, ActorType, Raw)])
    case EffectDetail => Some([Row(EffectType, EffectType, Raw)])
    case SessionDetail => Some(PUT_SESSION)
    case ToolDetail => Some(PUT_TOOL)
    case _ => None
  }

  function PutInstantDetail(d: DetailClass): Option<seq<Row>> {
    match d
    case EmptyDetail => Some([])
    case ActorDetail => Some([Row(DisplayName, DisplayName, Raw), Row(ActorType, ActorType, Raw)])
    case EffectDetail => Some([Row(EffectType, EffectType, Raw)])
    case SessionDetail => Some(PUT_SESSION)
    case BrokenDetail =>
      Some([Row(Provider, Provider, Raw), Row(EffectiveModel, EffectiveModel, Raw),
            Row(EffectiveEffort, EffectiveEffort, Raw), Row(ErrorCode, ErrorCode, Raw)])
    case TerminalDetail => Some([Row(ErrorCode, ErrorCode, Raw)])
    case ToolDetail => Some(PUT_TOOL)
    case ResultDetail => Some([Row(Issue, Issue, Opt(PUT_ISSUE)), Row(ErrorCode, ErrorCode, Raw)])
    case FailedDetail =>
      Some([Row(Component, Component, Raw), Row(ComponentId, ComponentId, Raw), Row(Stage, Stage, Raw),
            Row(ErrorCode, ErrorCode, Raw), Row(RelatedEventSequence, RelatedEventSequence, Opt(Str))])
    case _ => None
  }

  function PutDetail(d: DetailClass, rows: Option<seq<Row>>): Put {
    Obj(NamesOf(DetailFields(d)), if rows.Some? then rows.value else [])
  }

  const PUT_PLAN_ENTRY := Obj([Content, Priority, Status], [Row(Content, Content, Raw), Row(Priority, Priority, Raw), Row(Status, Status, Raw)])
  const PUT_INTERVAL := Obj([StartNs, EndNs], [Row(StartNs, StartNs, Str), Row(EndNs, EndNs, Str)])

  function PutOwn(v: Variant): seq<Row> {
    match v
    case SpanStartedV(_, d) =>
      [Row(SpanKindField, SpanKindField, Raw), Row(Detail, Detail, PutDetail(d, PutSpanDetail(d))),
       Row(ParentSpanId, ParentSpanId, Opt(Str))]
    case InstantV(_, d) =>
      [Row(InstantKindField, InstantKindField, Raw), Row(Detail, Detail, PutDetail(d, PutInstantDetail(d))),
       Row(ContainingSpanId, ContainingSpanId, Opt(Str))]
    case SpanFinishedV => [Row(SpanId, SpanId, Str), Row(OutcomeField, OutcomeField, Raw), Row(ErrorCode, ErrorCode, Raw)]
    case CounterV => [Row(CounterKindField, CounterKindField, Raw), Row(ValueField, ValueField, Str)]
    case MessageDeltaV =>
      [Row(MessageId, MessageId, Raw), Row(SourceMessageId, SourceMessageId, Raw), Row(TextDelta, TextDelta, Raw)]
    case MessageCompletedV =>
      [Row(MessageId, MessageId, Raw), Row(Utf8Bytes, Utf8Bytes, Str), Row(UnicodeScalarCount, UnicodeScalarCount, Str),
       Row(Truncated, Truncated, Raw)]
    case PlanV => [Row(EntriesField, EntriesField, ListOf(PUT_PLAN_ENTRY)), Row(Truncated, Truncated, Raw)]
    case ContextUsageV =>
      [Row(ContextUsedTokens, ContextUsedTokens, Opt(Str)), Row(ContextWindowTokens, ContextWindowTokens, Opt(Str)),
       Row(CumulativeCostAmount, CumulativeCostAmount, Opt(DecText)), Row(CumulativeCostCurrency, CumulativeCostCurrency, Raw),
       Row(SampleOrigin, SampleOrigin, Raw), Row(ObservedElapsedNs, ObservedElapsedNs, Opt(Str))]
    case TokenUsageV =>
      [Row(Availability, Availability, Raw), Row(Source, Source, Raw), Row(UnavailableReason, UnavailableReason, Raw),
       Row(ProviderTotalTokens, ProviderTotalTokens, Opt(Str)), Row(InputTokens, InputTokens, Opt(Str)),
       Row(OutputTokens, OutputTokens, Opt(Str)), Row(ThoughtTokens, ThoughtTokens, Opt(Str)),
       Row(CachedReadTokens, CachedReadTokens, Opt(Str)), Row(CachedWriteTokens, CachedWriteTokens, Opt(Str))]
    case GapV =>
      [Row(ProducerField, ProducerField, Raw), Row(Component, Component, Raw), Row(Reason, Reason, Raw),
       Row(DroppedCount, DroppedCount, Opt(Str)), Row(AffectedElapsed, AffectedElapsed, Opt(PUT_INTERVAL)),
       Row(AffectedKind, AffectedKind, Raw), Row(AffectedScope, AffectedScope, Opt(PUT_SCOPE))]
    case CustomSpanStartedV =>
      [Row(NameField, NameField, Raw), Row(ParentSpanId, ParentSpanId, Opt(Str)), Row(Attributes, Attributes, Entries(false))]
    case CustomSpanFinishedV => [Row(SpanId, SpanId, Str), Row(OutcomeField, OutcomeField, Raw)]
    case CustomInstantV =>
      [Row(NameField, NameField, Raw), Row(ContainingSpanId, ContainingSpanId, Opt(Str)), Row(Severity, Severity, Raw),
       Row(Attributes, Attributes, Entries(false))]
    case CustomCounterV =>
      [Row(NameField, NameField, Raw), Row(ValueField, ValueField, Tagged), Row(Unit, Unit, Raw),
       Row(Dimensions, Dimensions, Entries(true))]
  }

  // ----- Reading -----

  /** The attribute, the wire name it is read from, and how; the constructor checks it again. */
  datatype Read = Read(attribute: Field, wire: Field, ty: Ty)

  /** The names a mapping must have, no more and no fewer. */
  const COMMON_WIRE: seq<Field> := [Kind, SchemaVersion, RunId, Sequence, ElapsedNs, ScopeField, CausedBy]

  function WireFields(v: Variant): seq<Field> {
    match v
    case SpanStartedV(_, _) => [SpanKindField, Detail, ParentSpanId]
    case SpanFinishedV => [SpanId, OutcomeField, ErrorCode]
    case InstantV(_, _) => [InstantKindField, Detail, ContainingSpanId]
    case CounterV => [CounterKindField, ValueField]
    case MessageDeltaV => [MessageId, SourceMessageId, TextDelta]
    case MessageCompletedV => [MessageId, Utf8Bytes, UnicodeScalarCount, Truncated]
    case PlanV => [EntriesField, Truncated]
    case ContextUsageV =>
      [ContextUsedTokens, ContextWindowTokens, CumulativeCostAmount, CumulativeCostCurrency, SampleOrigin, ObservedElapsedNs]
    case TokenUsageV =>
      [Availability, Source, UnavailableReason, ProviderTotalTokens, InputTokens, OutputTokens, ThoughtTokens,
       CachedReadTokens, CachedWriteTokens]
    case GapV => [ProducerField, Component, Reason, DroppedCount, AffectedElapsed, AffectedKind, AffectedScope]
    case CustomSpanStartedV => [NameField, ParentSpanId, Attributes]
    case CustomSpanFinishedV => [SpanId, OutcomeField]
    case CustomInstantV => [NameField, ContainingSpanId, Severity, Attributes]
    case CustomCounterV => [NameField, ValueField, Unit, Dimensions]
  }

  const READ_SCOPE: Ty := RecordTy([
    (SceneId, OptTy(IdTy)), (ActorId, OptTy(IdTy)), (CueId, OptTy(IdTy)), (EffectId, OptTy(IdTy)),
    (ActId, OptTy(IdTy)), (ToolCallId, OptTy(IdTy)), (SessionGeneration, OptTy(U64Ty(true)))])

  const READ_LINK: Ty := RecordTy([(SourceSequence, U64Ty(true)), (RelationField, EnumTy(Relations))])

  function ReadCommon(kind: string): seq<Read> {
    [Read(Kind, Kind, EnumTy(Only(kind))), Read(SchemaVersion, SchemaVersion, VersionTy), Read(RunId, RunId, UuidTy),
     Read(Sequence, Sequence, U64Ty(true)), Read(ElapsedNs, ElapsedNs, U64Ty(false)), Read(ScopeField, ScopeField, READ_SCOPE),
     Read(CausedBy, CausedBy, ListTy(READ_LINK, Some(16)))]
  }

  const READ_SESSION: seq<(Field, Ty)> :=
    [(Provider, StrTy), (EffectiveModel, OptTy(StrTy)), (EffectiveEffort, OptTy(StrTy))]

  const READ_TOOL: seq<(Field, Ty)> :=
    [(Title, StrTy), (ToolKind, EnumTy(ToolKinds)), (Status, EnumTy(ToolStatuses)), (ErrorCode, OptTy(StrTy))]

  function ReadSpanDetail(d: DetailClass): Option<seq<(Field, Ty)>> {
    match d
    case EmptyDetail => Some([])
    case PathDetail => Some([(ProductionRoot, StrTy), (Package, StrTy)])
    case LoadDetail => Some([(Package, StrTy)])
    case ConstructDetail => Some([(Package, StrTy), (ClassName, StrTy)])
    case ActorDetail => Some([(DisplayName, StrTy), (ActorType, StrTy)])
    case EffectDetail => Some([(EffectType, StrTy)])
    case SessionDetail => Some(READ_SESSION)
    case ToolDetail => Some(READ_TOOL)
    case _ => None
  }

  function ReadInstantDetail(d: DetailClass): Option<seq<(Field, Ty)>> {
    match d
    case EmptyDetail => Some([])
    case ActorDetail => Some([(DisplayName, StrTy), (ActorType, StrTy)])
    case EffectDetail => Some([(EffectType, StrTy)])
    case SessionDetail => Some(READ_SESSION)
    case BrokenDetail =>
      Some([(Provider, StrTy), (EffectiveModel, OptTy(StrTy)), (EffectiveEffort, OptTy(StrTy)), (ErrorCode, StrTy)])
    case TerminalDetail => Some([(ErrorCode, OptTy(StrTy))])
    case ToolDetail => Some(READ_TOOL)
    case ResultDetail =>
      Some([(Issue, OptTy(RecordTy([(CodeField, StrTy), (Path, StrTy)]))), (ErrorCode, OptTy(StrTy))])
    case FailedDetail =>
      Some([(Component, StrTy), (ComponentId, IdTy), (Stage, StrTy), (ErrorCode, StrTy),
            (RelatedEventSequence, OptTy(U64Ty(true)))])
    case _ => None
  }

  function ReadDetail(fields: Option<seq<(Field, Ty)>>): Ty {
    RecordTy(if fields.Some? then fields.value else [])
  }

  const OPT_TEXT: Ty := OptTy(StrTy)
  const OPT_COUNT: Ty := OptTy(U64Ty(false))
  const OPT_ID: Ty := OptTy(U64Ty(true))
  const OPT_TOKENS: Ty := OptTy(TokenTy)

  function ReadOwn(v: Variant): seq<Read> {
    match v
    case SpanStartedV(span, d) =>
      [Read(SpanKindField, SpanKindField, EnumTy(Only(span))), Read(Detail, Detail, ReadDetail(ReadSpanDetail(d))),
       Read(ParentSpanId, ParentSpanId, OPT_ID)]
    case SpanFinishedV =>
      [Read(SpanId, SpanId, U64Ty(true)), Read(OutcomeField, OutcomeField, EnumTy(Outcomes)), Read(ErrorCode, ErrorCode, OPT_TEXT)]
    case InstantV(instant, d) =>
      [Read(InstantKindField, InstantKindField, EnumTy(Only(instant))), Read(Detail, Detail, ReadDetail(ReadInstantDetail(d))),
       Read(ContainingSpanId, ContainingSpanId, OPT_ID)]
    case CounterV => [Read(CounterKindField, CounterKindField, EnumTy(CounterKinds)), Read(ValueField, ValueField, U64Ty(false))]
    case MessageDeltaV =>
      [Read(MessageId, MessageId, IdTy), Read(SourceMessageId, SourceMessageId, OPT_TEXT), Read(TextDelta, TextDelta, StrTy)]
    case MessageCompletedV =>
      [Read(MessageId, MessageId, IdTy), Read(Utf8Bytes, Utf8Bytes, U64Ty(false)),
       Read(UnicodeScalarCount, UnicodeScalarCount, U64Ty(false)), Read(Truncated, Truncated, BoolTy)]
    case PlanV =>
      [Read(EntriesField, EntriesField,
            ListTy(RecordTy([(Content, StrTy), (Priority, EnumTy(Priorities)), (Status, EnumTy(Statuses))]), None)),
       Read(Truncated, Truncated, BoolTy)]
    case ContextUsageV =>
      [Read(ContextUsedTokens, ContextUsedTokens, OPT_COUNT), Read(ContextWindowTokens, ContextWindowTokens, OPT_COUNT),
       Read(CumulativeCostAmount, CumulativeCostAmount, OptTy(DecimalTy)),
       Read(CumulativeCostCurrency, CumulativeCostCurrency, OPT_TEXT), Read(SampleOrigin, SampleOrigin, EnumTy(Origins)),
       Read(ObservedElapsedNs, ObservedElapsedNs, OPT_COUNT)]
    case TokenUsageV =>
      [Read(Availability, Availability, EnumTy(Availabilities)), Read(Source, Source, OptTy(EnumTy(Sources))),
       Read(UnavailableReason, UnavailableReason, OptTy(EnumTy(Reasons))),
       Read(ProviderTotalTokens, ProviderTotalTokens, OPT_TOKENS), Read(InputTokens, InputTokens, OPT_TOKENS),
       Read(OutputTokens, OutputTokens, OPT_TOKENS), Read(ThoughtTokens, ThoughtTokens, OPT_TOKENS),
       Read(CachedReadTokens, CachedReadTokens, OPT_TOKENS), Read(CachedWriteTokens, CachedWriteTokens, OPT_TOKENS)]
    case GapV =>
      [Read(ProducerField, ProducerField, StrTy), Read(Component, Component, OPT_TEXT), Read(Reason, Reason, StrTy),
       Read(DroppedCount, DroppedCount, OPT_COUNT),
       Read(AffectedElapsed, AffectedElapsed, OptTy(RecordTy([(StartNs, U64Ty(false)), (EndNs, U64Ty(false))]))),
       Read(AffectedKind, AffectedKind, OptTy(EnumTy(EventKinds))), Read(AffectedScope, AffectedScope, OptTy(READ_SCOPE))]
    case CustomSpanStartedV =>
      [Read(NameField, NameField, CustomNameTy), Read(ParentSpanId, ParentSpanId, OPT_ID),
       Read(Attributes, Attributes, EntriesTy(false))]
    case CustomSpanFinishedV => [Read(SpanId, SpanId, U64Ty(true)), Read(OutcomeField, OutcomeField, EnumTy(Outcomes))]
    case CustomInstantV =>
      [Read(NameField, NameField, CustomNameTy), Read(ContainingSpanId, ContainingSpanId, OPT_ID),
       Read(Severity, Severity, OptTy(EnumTy(Severities))), Read(Attributes, Attributes, EntriesTy(false))]
    case CustomCounterV =>
      [Read(NameField, NameField, CustomNameTy), Read(ValueField, ValueField, NumberTy), Read(Unit, Unit, OPT_TEXT),
       Read(Dimensions, Dimensions, EntriesTy(true))]
  }

  // ----- When a way of writing fits a way of reading, and both fit a class -----

  predicate PlainText(ty: Ty) {
    ty.StrTy? || ty.UnitTy? || ty.IdTy? || ty.CustomNameTy? || ty.EnumTy?
  }

  predicate Fits(put: Put, ty: Ty) {
    match put
    case Raw => PlainText(ty) || ty.BoolTy? || ty.VersionTy? || (ty.OptTy? && PlainText(ty.inner))
    case Str => ty.U64Ty? || ty.TokenTy? || ty.UuidTy?
    case DecText => ty.DecimalTy?
    case Tagged => ty.NumberTy?
    case Opt(inner) => ty.OptTy? && Fits(inner, ty.inner)
    case Obj(attributes, rows) =>
      && ty.RecordTy? && |rows| == |ty.fields| && attributes == NamesOf(ty.fields)
      && forall i :: 0 <= i < |rows| ==>
           rows[i].wire == rows[i].attribute == ty.fields[i].0 && Fits(rows[i].put, ty.fields[i].1)
    case ListOf(item) => ty.ListTy? && Fits(item, ty.item)
    case Entries(dimensions) => ty == EntriesTy(dimensions)
  }

  /** The decoder is as strict as the class or leaves a condition on text to its constructor. */
  predicate Covers(read: Ty, class_: Ty) {
    || read == class_
    || (read.StrTy? && PlainText(class_))
    || (read.OptTy? && class_.OptTy? && Covers(read.inner, class_.inner))
    || (read.RecordTy? && class_.RecordTy? && |read.fields| == |class_.fields|
        && forall i :: 0 <= i < |read.fields| ==>
             read.fields[i].0 == class_.fields[i].0 && Covers(read.fields[i].1, class_.fields[i].1))
  }

  lemma {:induction false} AtFinds(attributes: seq<Field>, values: seq<Value>, i: nat)
    requires |attributes| == |values| && i < |attributes|
    requires forall a, b :: 0 <= a < b < |attributes| ==> attributes[a] != attributes[b]
    ensures At(attributes, values, attributes[i]) == values[i]
  {
    if i > 0 { AtFinds(attributes[1..], values[1..], i - 1); }
  }

  /** A fitting way of writing is the encoding. */
  lemma {:induction false} WriteEncodes(put: Put, ty: Ty, v: Value)
    requires Fits(put, ty) && SchemaOk(ty) && HasType(ty, v)
    ensures Write(put, v) == Encode(ty, v)
    decreases put
  {
    match put
    case Opt(inner) => if !v.VNone? { WriteEncodes(inner, ty.inner, v); }
    case Obj(attributes, rows) =>
      forall i | 0 <= i < |rows|
        ensures Write(rows[i].put, At(attributes, v.fields, rows[i].attribute)) == Encode(ty.fields[i].1, v.fields[i])
      {
        AtFinds(attributes, v.fields, i);
        WriteEncodes(rows[i].put, ty.fields[i].1, v.fields[i]);
      }
    case ListOf(item) =>
      forall i | 0 <= i < |v.items| ensures Write(item, v.items[i]) == Encode(ty.item, v.items[i]) {
        WriteEncodes(item, ty.item, v.items[i]);
      }
    case _ =>
  }

  /** What the class accepts the decoder does, and its schema is as good. */
  lemma {:induction false} CoversTypes(read: Ty, class_: Ty, v: Value)
    requires Covers(read, class_) && HasType(class_, v)
    ensures HasType(read, v)
    decreases read
  {
    if read != class_ {
      match read
      case OptTy(inner) => if !v.VNone? { CoversTypes(inner, class_.inner, v); }
      case RecordTy(fields) =>
        forall i | 0 <= i < |fields| ensures HasType(fields[i].1, v.fields[i]) {
          CoversTypes(fields[i].1, class_.fields[i].1, v.fields[i]);
        }
      case _ =>
    }
  }

  lemma {:induction false} CoversOk(read: Ty, class_: Ty)
    requires Covers(read, class_) && SchemaOk(class_)
    ensures SchemaOk(read) && (read.OptTy? <==> class_.OptTy?)
    decreases read
  {
    if read != class_ {
      match read
      case OptTy(inner) => CoversOk(inner, class_.inner);
      case RecordTy(fields) =>
        forall i | 0 <= i < |fields| ensures SchemaOk(fields[i].1) { CoversOk(fields[i].1, class_.fields[i].1); }
      case _ =>
    }
  }

  // ----- The tables agree -----

  /** Row by row: the wire name is the closed one, written from and read into the attribute of that
      name, written as it is read, and read as loosely as the class allows or as strictly as it asks. */
  predicate Agree(fields: seq<(Field, Ty)>, rows: seq<Row>, wires: seq<Field>, gets: seq<Read>) {
    && |fields| == |rows| == |wires| == |gets|
    && forall i :: 0 <= i < |fields| ==>
         && fields[i].0 == rows[i].attribute == rows[i].wire == wires[i] == gets[i].wire == gets[i].attribute
         && Fits(rows[i].put, gets[i].ty) && Covers(gets[i].ty, fields[i].1)
  }

  lemma AgreeConcat(f: seq<(Field, Ty)>, r: seq<Row>, w: seq<Field>, d: seq<Read>,
                    f': seq<(Field, Ty)>, r': seq<Row>, w': seq<Field>, d': seq<Read>)
    requires Agree(f, r, w, d) && Agree(f', r', w', d')
    ensures Agree(f + f', r + r', w + w', d + d')
  {
    hide Fits, Covers;
  }

  /** Fitting and covering without a record in between. */
  predicate FlatFit(put: Put, ty: Ty) {
    match put
    case Raw => PlainText(ty) || ty.BoolTy? || ty.VersionTy? || (ty.OptTy? && PlainText(ty.inner))
    case Str => ty.U64Ty? || ty.TokenTy? || ty.UuidTy?
    case Tagged => ty.NumberTy?
    case Opt(inner) =>
      ty.OptTy? && ((inner.Str? && (ty.inner.U64Ty? || ty.inner.TokenTy?)) || (inner.DecText? && ty.inner.DecimalTy?))
    case Entries(dimensions) => ty == EntriesTy(dimensions)
    case _ => false
  }

  predicate FlatCover(read: Ty, class_: Ty) {
    read == class_ || (read.StrTy? && PlainText(class_)) || (read == OptTy(StrTy) && class_.OptTy? && PlainText(class_.inner))
  }

  lemma FlatFits(put: Put, ty: Ty)
    requires FlatFit(put, ty)
    ensures Fits(put, ty)
  {
  }

  lemma FlatCovers(read: Ty, class_: Ty)
    requires FlatCover(read, class_)
    ensures Covers(read, class_)
  {
  }

  predicate FlatRows(attributes: seq<Field>, rows: seq<Row>, fields: seq<(Field, Ty)>) {
    && |attributes| == |rows| == |fields|
    && forall i :: 0 <= i < |rows| ==>
         attributes[i] == rows[i].wire == rows[i].attribute == fields[i].0 && FlatFit(rows[i].put, fields[i].1)
  }

  lemma ObjFits(attributes: seq<Field>, rows: seq<Row>, fields: seq<(Field, Ty)>)
    requires FlatRows(attributes, rows, fields)
    ensures Fits(Obj(attributes, rows), RecordTy(fields))
  {
    assert attributes == NamesOf(fields);
    forall i | 0 <= i < |rows| ensures Fits(rows[i].put, fields[i].1) { FlatFits(rows[i].put, fields[i].1); }
    hide FlatFit;
  }

  predicate FlatFields(read: seq<(Field, Ty)>, class_: seq<(Field, Ty)>) {
    |read| == |class_| && forall i :: 0 <= i < |read| ==> read[i].0 == class_[i].0 && FlatCover(read[i].1, class_[i].1)
  }

  lemma RecordCovers(read: seq<(Field, Ty)>, class_: seq<(Field, Ty)>)
    requires FlatFields(read, class_)
    ensures Covers(RecordTy(read), RecordTy(class_))
  {
    forall i | 0 <= i < |read| ensures Covers(read[i].1, class_[i].1) { FlatCovers(read[i].1, class_[i].1); }
    hide FlatCover;
  }

  lemma ScopeAgrees()
    ensures Fits(PUT_SCOPE, READ_SCOPE) && READ_SCOPE == SCOPE
  {
    var a, r, f := PUT_SCOPE.attributes, PUT_SCOPE.rows, READ_SCOPE.fields;
    assert |a| == |r| == |f| == 7;
    hide Fits;
    forall i | 0 <= i < 7 ensures a[i] == r[i].wire == r[i].attribute == f[i].0 && FlatFit(r[i].put, f[i].1) {
    }
    ObjFits(a, r, f);
  }

  lemma LinkAgrees()
    ensures Fits(PUT_LINK, READ_LINK) && READ_LINK == CAUSAL_LINK
  {
    hide Fits;
    ObjFits(PUT_LINK.attributes, PUT_LINK.rows, READ_LINK.fields);
  }

  lemma IssueAgrees()
    ensures Fits(PUT_ISSUE, ISSUE)
  {
    hide Fits;
    ObjFits(PUT_ISSUE.attributes, PUT_ISSUE.rows, ISSUE.fields);
  }

  lemma IntervalAgrees()
    ensures Fits(PUT_INTERVAL, INTERVAL)
  {
    hide Fits;
    ObjFits(PUT_INTERVAL.attributes, PUT_INTERVAL.rows, INTERVAL.fields);
  }

  lemma PlanEntryAgrees()
    ensures Fits(PUT_PLAN_ENTRY, PLAN_ENTRY)
  {
    hide Fits;
    ObjFits(PUT_PLAN_ENTRY.attributes, PUT_PLAN_ENTRY.rows, PLAN_ENTRY.fields);
  }

  lemma ListFits(item: Put, ty: Ty, most: Option<nat>)
    requires Fits(item, ty)
    ensures Fits(ListOf(item), ListTy(ty, most)) && Fits(Opt(item), OptTy(ty))
  {
  }

  lemma SameCovers(ty: Ty)
    ensures Covers(ty, ty)
  {
  }

  lemma CommonAgrees(kind: string)
    ensures Agree(Common(kind), PUT_COMMON, COMMON_WIRE, ReadCommon(kind))
  {
    ScopeAgrees();
    LinkAgrees();
    ListFits(PUT_LINK, READ_LINK, Some(16));
    var f, r, d := Common(kind), PUT_COMMON, ReadCommon(kind);
    hide PUT_SCOPE, READ_SCOPE, SCOPE, PUT_LINK, READ_LINK, CAUSAL_LINK, Fits, Covers;
    forall i | 0 <= i < |f| ensures Fits(r[i].put, d[i].ty) && Covers(d[i].ty, f[i].1) {
      SameCovers(f[i].1);
      if i < 5 { FlatFits(r[i].put, d[i].ty); }
    }
  }

  /** The tables of one detail class, row by row. */
  predicate DetailRows(fields: seq<(Field, Ty)>, rows: seq<Row>, read: seq<(Field, Ty)>) {
    FlatRows(NamesOf(fields), rows, read) && FlatFields(read, fields)
  }

  lemma SpanDetailFlat(d: DetailClass)
    requires PutSpanDetail(d).Some?
    ensures ReadSpanDetail(d).Some? && DetailRows(DetailFields(d), PutSpanDetail(d).value, ReadSpanDetail(d).value)
  {
  }

  lemma SpanDetailAgrees(d: DetailClass)
    requires PutSpanDetail(d).Some?
    ensures Fits(PutDetail(d, PutSpanDetail(d)), ReadDetail(ReadSpanDetail(d)))
    ensures Covers(ReadDetail(ReadSpanDetail(d)), RecordTy(DetailFields(d)))
  {
    SpanDetailFlat(d);
    hide PutSpanDetail, ReadSpanDetail, DetailFields, Fits, Covers;
    ObjFits(NamesOf(DetailFields(d)), PutSpanDetail(d).value, ReadSpanDetail(d).value);
    RecordCovers(ReadSpanDetail(d).value, DetailFields(d));
  }

  predicate InstantRows(d: DetailClass) {
    PutInstantDetail(d).Some? && ReadInstantDetail(d).Some?
    && DetailRows(DetailFields(d), PutInstantDetail(d).value, ReadInstantDetail(d).value)
  }

  lemma FailedRows()
    ensures InstantRows(FailedDetail)
  {
    var f, r, g := DetailFields(FailedDetail), PutInstantDetail(FailedDetail).value, ReadInstantDetail(FailedDetail).value;
    assert |f| == |r| == |g|;
    hide DetailFields, PutInstantDetail, ReadInstantDetail;
    forall i | 0 <= i < |f|
      ensures f[i].0 == r[i].attribute == r[i].wire == g[i].0
      ensures FlatFit(r[i].put, g[i].1) && FlatCover(g[i].1, f[i].1)
    {
    }
  }

  lemma BrokenRows()
    ensures InstantRows(BrokenDetail)
  {
  }

  lemma ToolRows()
    ensures InstantRows(ToolDetail)
  {
  }

  lemma ShortRows(d: DetailClass)
    requires d.EmptyDetail? || d.ActorDetail? || d.EffectDetail? || d.TerminalDetail?
    ensures InstantRows(d)
  {
  }

  lemma SessionRows()
    ensures InstantRows(SessionDetail)
  {
  }

  lemma InstantDetailFlat(d: DetailClass)
    requires PutInstantDetail(d).Some? && !d.ResultDetail?
    ensures InstantRows(d)
  {
    hide InstantRows;
    match d
    case FailedDetail => FailedRows();
    case BrokenDetail => BrokenRows();
    case ToolDetail => ToolRows();
    case SessionDetail => SessionRows();
    case _ => ShortRows(d);
  }

  lemma ResultDetailAgrees()
    ensures Fits(PutDetail(ResultDetail, PutInstantDetail(ResultDetail)), ReadDetail(ReadInstantDetail(ResultDetail)))
    ensures ReadDetail(ReadInstantDetail(ResultDetail)) == RecordTy(DetailFields(ResultDetail))
  {
    IssueAgrees();
    ListFits(PUT_ISSUE, ISSUE, None);
    FlatFits(Raw, OptTy(StrTy));
    var fields := DetailFields(ResultDetail);
    hide PUT_ISSUE;
    var put := PutDetail(ResultDetail, PutInstantDetail(ResultDetail));
    assert put.attributes == NamesOf(fields);
  }

  lemma InstantDetailAgrees(d: DetailClass)
    requires PutInstantDetail(d).Some?
    ensures Fits(PutDetail(d, PutInstantDetail(d)), ReadDetail(ReadInstantDetail(d)))
    ensures Covers(ReadDetail(ReadInstantDetail(d)), RecordTy(DetailFields(d)))
  {
    if d.ResultDetail? {
      ResultDetailAgrees();
      hide PutInstantDetail, ReadInstantDetail, DetailFields, Fits, Covers;
      SameCovers(RecordTy(DetailFields(d)));
    } else {
      InstantDetailFlat(d);
      hide PutInstantDetail, ReadInstantDetail, DetailFields, Fits, Covers;
      ObjFits(NamesOf(DetailFields(d)), PutInstantDetail(d).value, ReadInstantDetail(d).value);
      RecordCovers(ReadInstantDetail(d).value, DetailFields(d));
    }
  }

  /** Every class that a kind of span or instant names is handled on both sides. */
  lemma SpanDetailsHandled(kind: string)
    requires SpanDetail(kind).Some?
    ensures PutSpanDetail(SpanDetail(kind).value).Some?
  {
  }

  lemma InstantDetailsHandled(kind: string)
    requires InstantDetail(kind).Some?
    ensures PutInstantDetail(InstantDetail(kind).value).Some?
  {
  }

  predicate Handled(v: Variant) {
    && (v.SpanStartedV? ==> PutSpanDetail(v.detail).Some?)
    && (v.InstantV? ==> PutInstantDetail(v.detail).Some?)
  }

  predicate FlatAgree(fields: seq<(Field, Ty)>, rows: seq<Row>, wires: seq<Field>, gets: seq<Read>, nested: set<nat>) {
    && |fields| == |rows| == |wires| == |gets|
    && forall i :: 0 <= i < |fields| ==>
         && fields[i].0 == rows[i].attribute == rows[i].wire == wires[i] == gets[i].wire == gets[i].attribute
         && (i !in nested ==> FlatFit(rows[i].put, gets[i].ty) && FlatCover(gets[i].ty, fields[i].1))
  }

  lemma FlatAgrees(fields: seq<(Field, Ty)>, rows: seq<Row>, wires: seq<Field>, gets: seq<Read>, nested: set<nat>)
    requires FlatAgree(fields, rows, wires, gets, nested)
    requires forall i :: i in nested && i < |fields| ==> Fits(rows[i].put, gets[i].ty) && Covers(gets[i].ty, fields[i].1)
    ensures Agree(fields, rows, wires, gets)
  {
    hide Fits, Covers, FlatFit, FlatCover;
    forall i | 0 <= i < |fields| ensures Fits(rows[i].put, gets[i].ty) && Covers(gets[i].ty, fields[i].1) {
      if i !in nested {
        FlatFits(rows[i].put, gets[i].ty);
        FlatCovers(gets[i].ty, fields[i].1);
      }
    }
  }

  /** The places of the attributes that are records or lists of records. */
  function Nested(v: Variant): set<nat> {
    if v.SpanStartedV? || v.InstantV? then {1} else if v.PlanV? then {0} else if v.GapV? then {4, 6} else {}
  }

  predicate OwnRows(v: Variant) {
    FlatAgree(OwnFields(v), PutOwn(v), WireFields(v), ReadOwn(v), Nested(v))
  }

  lemma DetailedRows(v: Variant)
    requires v.SpanStartedV? || v.InstantV?
    ensures OwnRows(v)
  {
    hide PutDetail, ReadDetail, DetailFields;
  }

  lemma PlainRows(v: Variant)
    requires !v.SpanStartedV? && !v.InstantV?
    ensures OwnRows(v)
  {
    PlainNames(v);
    PlainPuts(v);
    PlainReads(v);
    PlainTypes(v);
    hide OwnFields, PutOwn, WireFields, ReadOwn, FlatFit, FlatCover;
  }

  lemma PlainNames(v: Variant)
    requires !v.SpanStartedV? && !v.InstantV?
    ensures var f, w := OwnFields(v), WireFields(v); |f| == |w| && forall i :: 0 <= i < |f| ==> f[i].0 == w[i]
  {
    hide SCOPE, INTERVAL, PLAN_ENTRY, DetailFields;
  }

  lemma PlainPuts(v: Variant)
    requires !v.SpanStartedV? && !v.InstantV?
    ensures var w, r := WireFields(v), PutOwn(v);
            |w| == |r| && forall i :: 0 <= i < |w| ==> w[i] == r[i].attribute == r[i].wire
  {
    hide PUT_SCOPE, SCOPE, PUT_INTERVAL, PUT_PLAN_ENTRY, PutDetail;
  }

  lemma PlainReads(v: Variant)
    requires !v.SpanStartedV? && !v.InstantV?
    ensures var w, g := WireFields(v), ReadOwn(v);
            |w| == |g| && forall i :: 0 <= i < |w| ==> w[i] == g[i].wire == g[i].attribute
  {
    hide READ_SCOPE, SCOPE, INTERVAL, PLAN_ENTRY, ReadDetail;
  }

  lemma PlainTypes(v: Variant)
    requires !v.SpanStartedV? && !v.InstantV?
    ensures var f, r, g := OwnFields(v), PutOwn(v), ReadOwn(v);
            forall i :: 0 <= i < |f| && i < |r| && i < |g| && i !in Nested(v) ==> FlatFit(r[i].put, g[i].ty) && FlatCover(g[i].ty, f[i].1)
  {
    hide PUT_SCOPE, READ_SCOPE, SCOPE, PUT_INTERVAL, INTERVAL, PUT_PLAN_ENTRY, PLAN_ENTRY, PutDetail, ReadDetail, DetailFields;
  }

  lemma OwnFlatAgree(v: Variant)
    ensures OwnRows(v)
  {
    hide OwnRows;
    if v.SpanStartedV? || v.InstantV? { DetailedRows(v); } else { PlainRows(v); }
  }

  lemma NestedAgrees(v: Variant)
    requires Handled(v)
    ensures forall i :: i in Nested(v) && i < |OwnFields(v)| ==>
              i < |PutOwn(v)| && i < |ReadOwn(v)| && Fits(PutOwn(v)[i].put, ReadOwn(v)[i].ty) && Covers(ReadOwn(v)[i].ty, OwnFields(v)[i].1)
  {
    hide Fits, Covers;
    if v.SpanStartedV? {
      SpanDetailAgrees(v.detail);
      hide PutDetail, ReadDetail, DetailFields;
    } else if v.InstantV? {
      InstantDetailAgrees(v.detail);
      hide PutDetail, ReadDetail, DetailFields;
    } else if v.PlanV? {
      PlanEntryAgrees();
      ListFits(PUT_PLAN_ENTRY, PLAN_ENTRY, None);
      SameCovers(OwnFields(PlanV)[0].1);
    } else if v.GapV? {
      IntervalAgrees();
      ScopeAgrees();
      ListFits(PUT_INTERVAL, INTERVAL, None);
      ListFits(PUT_SCOPE, READ_SCOPE, None);
      SameCovers(OwnFields(GapV)[4].1);
      SameCovers(OwnFields(GapV)[6].1);
    }
  }

  lemma OwnAgrees(v: Variant)
    requires Handled(v)
    ensures Agree(OwnFields(v), PutOwn(v), WireFields(v), ReadOwn(v))
  {
    OwnFlatAgree(v);
    NestedAgrees(v);
    hide OwnFields, PutOwn, WireFields, ReadOwn, Agree, Fits, Covers;
    FlatAgrees(OwnFields(v), PutOwn(v), WireFields(v), ReadOwn(v), Nested(v));
  }

  function Rows(v: Variant): seq<Row> {
    PUT_COMMON + PutOwn(v)
  }

  function Wires(v: Variant): seq<Field> {
    COMMON_WIRE + WireFields(v)
  }

  function Reads(kind: string, v: Variant): seq<Read> {
    ReadCommon(kind) + ReadOwn(v)
  }

  /** Class, encoder, closed field list and decoder say the same of all fourteen variants. */
  lemma TablesAgree(kind: string, v: Variant)
    requires Handled(v)
    ensures Agree(SchemaOf(kind, v), Rows(v), Wires(v), Reads(kind, v))
  {
    CommonAgrees(kind);
    OwnAgrees(v);
    hide Common, OwnFields, PUT_COMMON, PutOwn, COMMON_WIRE, WireFields, ReadCommon, ReadOwn, Agree;
    AgreeConcat(Common(kind), PUT_COMMON, COMMON_WIRE, ReadCommon(kind), OwnFields(v), PutOwn(v), WireFields(v), ReadOwn(v));
  }
}
