/** The closed-schema event codec at mapping level. A schema says what each wire field holds; one
    encoder and one decoder follow it. Field names are the constructors of `Field`; attribute and
    dimension keys are byte strings. */
module Codec {
  import opened Events
  import opened Digits
  import D = Decimals

  const MAX_CUSTOM_ATTRIBUTES: nat := 32
  const MAX_CUSTOM_DIMENSIONS: nat := 8
  const MAX_CUSTOM_LIST_ITEMS: nat := 64
  const MAX_CUSTOM_KEY_BYTES: nat := 64

  datatype Field =
    | Kind | SchemaVersion | RunId | Sequence | ElapsedNs | ScopeField | CausedBy
    | SceneId | ActorId | CueId | EffectId | ActId | ToolCallId | SessionGeneration
    | SourceSequence | RelationField
    | SpanKindField | Detail | ParentSpanId | SpanId | OutcomeField | ErrorCode
    | InstantKindField | ContainingSpanId | CounterKindField | ValueField
    | MessageId | SourceMessageId | TextDelta | Utf8Bytes | UnicodeScalarCount | Truncated
    | EntriesField | Content | Priority | Status
    | ContextUsedTokens | ContextWindowTokens | CumulativeCostAmount | CumulativeCostCurrency
    | SampleOrigin | ObservedElapsedNs
    | Availability | Source | UnavailableReason | ProviderTotalTokens | InputTokens | OutputTokens
    | ThoughtTokens | CachedReadTokens | CachedWriteTokens
    | ProducerField | Component | Reason | DroppedCount | AffectedElapsed | AffectedKind | AffectedScope
    | StartNs | EndNs
    | NameField | Attributes | Severity | Unit | Dimensions
    | ProductionRoot | Package | ClassName | DisplayName | ActorType | EffectType
    | Provider | EffectiveModel | EffectiveEffort | Title | ToolKind
    | Issue | CodeField | Path | ComponentId | Stage | RelatedEventSequence
    | TypeField

  datatype Key = Name(field: Field) | Text(text: string)

  /** A wire value: what a JSON object decodes to, with the insertion order of its keys. */
  datatype Json =
    | JNull
    | JBool(flag: bool)
    | JInt(number: int)
    | JStr(text: string)
    | JList(items: seq<Json>)
    | JObj(entries: seq<(Key, Json)>)

  /** A Python value held by an event. */
  datatype Value =
    | VNone
    | VBool(flag: bool)
    | VInt(number: int)
    | VDec(decimal: D.Decimal)
    | VStr(text: string)
    | VRec(fields: seq<Value>)
    | VList(items: seq<Value>)
    | VEntries(pairs: seq<(string, Value)>)

  /** The closed vocabularies; `Only` is the vocabulary of one word. */
  datatype Vocabulary =
    | Only(word: string) | Relations | Outcomes | CounterKinds | EventKinds | ToolKinds | ToolStatuses
    | Priorities | Statuses | Origins | Availabilities | Sources | Reasons | Severities

  datatype Ty =
    | StrTy
    | UnitTy
    | BoolTy
    | VersionTy
    | UuidTy
    | IdTy
    | CustomNameTy
    | EnumTy(vocabulary: Vocabulary)
    | U64Ty(nonzero: bool)
    | TokenTy
    | DecimalTy
    | NumberTy
    | OptTy(inner: Ty)
    | RecordTy(fields: seq<(Field, Ty)>)
    | ListTy(item: Ty, most: Option<nat>)
    | EntriesTy(dimensions: bool)

  // ----- Text conditions -----

  predicate IsHex(c: char) {
    '0' <= c <= '9' || 'a' <= c <= 'f'
  }

  /** The canonical lowercase form of a UUID. */
  predicate CanonicalUuid(s: string) {
    |s| == 36 && forall i :: 0 <= i < 36 ==> if i == 8 || i == 13 || i == 18 || i == 23 then s[i] == '-' else IsHex(s[i])
  }

  predicate RunLocalId(s: string) {
    1 <= |s| <= 128 && forall i :: 0 <= i < |s| ==> s[i] < 128 as char
  }

  predicate NameStart(c: char) {
    'a' <= c <= 'z'
  }

  predicate NamePart(c: char) {
    NameStart(c) || IsDigit(c) || c == '_'
  }

  /** Dotted segments, each a lowercase letter followed by letters, digits and underscores. */
  predicate DottedName(s: string) {
    && s != [] && NameStart(s[0])
    && (forall i :: 0 <= i < |s| ==> NamePart(s[i]) || s[i] == '.')
    && (forall i :: 0 <= i < |s| && s[i] == '.' ==> i + 1 < |s| && NameStart(s[i + 1]))
  }

  predicate CustomName(s: string) {
    |s| <= 128 && DottedName(s) && '.' in s && !("troupe." <= s)
  }

  predicate Allowed(v: Vocabulary, s: string) {
    match v
    case Only(word) => s == word
    case Relations => s in {"dispatch", "return", "handoff", "retry", "follows_from"}
    case Outcomes => s in {"completed", "cancelled", "failed"}
    case CounterKinds =>
      s in {"actor.mailbox_depth", "cue.active", "agent.turn.active", "result.validation_rejections",
            "diagnostic.dropped_events"}
    case EventKinds =>
      s in {"span_started", "span_finished", "instant_occurred", "counter_sampled", "agent_message_delta",
            "agent_message_completed", "agent_plan_snapshot", "context_usage_sampled",
            "act_token_usage_finalized", "observation_gap", "custom_span_started", "custom_span_finished",
            "custom_instant_occurred", "custom_counter_sampled"}
    case ToolKinds =>
      s in {"read", "edit", "delete", "move", "search", "execute", "think", "fetch", "switch_mode", "other"}
    case ToolStatuses => s in {"pending", "in_progress", "completed", "failed"}
    case Priorities => s in {"high", "medium", "low"}
    case Statuses => s in {"pending", "in_progress", "completed"}
    case Origins => s in {"provider", "carried_forward"}
    case Availabilities => s in {"available", "partial", "unavailable"}
    case Sources => s in {"acp.prompt_response.usage"}
    case Reasons => s in {"prompt_not_submitted", "source_unsupported", "usage_not_reported", "turn_settlement_unknown"}
    case Severities => s in {"debug", "info", "warning", "error"}
  }

  // ----- Keys in byte order -----

  predicate Before(a: string, b: string) {
    if a == [] then b != []
    else b != [] && (a[0] < b[0] || (a[0] == b[0] && Before(a[1..], b[1..])))
  }

  predicate KeyOk(key: string) {
    1 <= |key| <= MAX_CUSTOM_KEY_BYTES
  }

  /** Strictly ascending: unique keys in canonical order. */
  predicate Ascending(keys: seq<string>) {
    forall i :: 0 <= i < |keys| - 1 ==> Before(keys[i], keys[i + 1])
  }

  // ----- Scalars and attributes -----

  predicate IsScalar(v: Value) {
    v.VNone? || v.VBool? || v.VInt? || v.VStr? || (v.VDec? && D.Normalized(v.decimal) == Some(v.decimal))
  }

  predicate IsAttribute(v: Value) {
    IsScalar(v) || (v.VList? && |v.items| <= MAX_CUSTOM_LIST_ITEMS && forall i :: 0 <= i < |v.items| ==> IsScalar(v.items[i]))
  }

  predicate IsEntry(dimensions: bool, v: Value) {
    if dimensions then IsScalar(v) && !v.VNone? else IsAttribute(v)
  }

  function Tagged(tag: string, value: Json): Json {
    JObj([(Name(TypeField), JStr(tag)), (Name(ValueField), value)])
  }

  function DecimalTextOf(d: D.Decimal): string {
    var t := D.DecimalText(d);
    if t.Some? then t.value else ""
  }

  function EncodeScalar(v: Value): Json {
    match v
    case VBool(b) => Tagged("boolean", JBool(b))
    case VInt(i) => Tagged("integer", JStr(IntText(i)))
    case VDec(d) => Tagged("decimal", JStr(DecimalTextOf(d)))
    case VStr(s) => Tagged("string", JStr(s))
    case _ => JObj([(Name(TypeField), JStr("null"))])
  }

  function EncodeAttribute(v: Value): Json {
    if v.VList? then Tagged("list", JList(seq(|v.items|, i requires 0 <= i < |v.items| => EncodeScalar(v.items[i]))))
    else EncodeScalar(v)
  }

  function Lookup(entries: seq<(Key, Json)>, key: Key): Option<Json> {
    if entries == [] then None
    else if entries[0].0 == key then Some(entries[0].1)
    else Lookup(entries[1..], key)
  }

  /** The keys are exactly these, no more and no fewer. */
  predicate ClosedTo(entries: seq<(Key, Json)>, names: seq<Field>) {
    && (forall i :: 0 <= i < |entries| ==> entries[i].0.Name? && entries[i].0.field in names)
    && (forall n :: n in names ==> Lookup(entries, Name(n)).Some?)
  }

  function TagOf(j: Json): Option<string> {
    if !j.JObj? then None
    else
      var tag := Lookup(j.entries, Name(TypeField));
      if tag.Some? && tag.value.JStr? then Some(tag.value.text) else None
  }

  function DecodeUntagged(tag: string, raw: Json): Option<Value> {
    if tag == "boolean" then (if raw.JBool? then Some(VBool(raw.flag)) else None)
    else if tag == "integer" then (if raw.JStr? && CanonicalInt(raw.text) then Some(VInt(ParseInt(raw.text))) else None)
    else if tag == "decimal" then
      (if raw.JStr? && D.FromWire(raw.text).Some? then Some(VDec(D.FromWire(raw.text).value)) else None)
    else if tag == "string" then (if raw.JStr? then Some(VStr(raw.text)) else None)
    else None
  }

  function DecodeScalar(j: Json): Option<Value> {
    var tag := TagOf(j);
    if tag.None? then None
    else if tag.value == "null" then (if ClosedTo(j.entries, [TypeField]) then Some(VNone) else None)
    else if !ClosedTo(j.entries, [TypeField, ValueField]) then None
    else DecodeUntagged(tag.value, Lookup(j.entries, Name(ValueField)).value)
  }

  function DecodeAttribute(j: Json): Option<Value> {
    if TagOf(j) != Some("list") then DecodeScalar(j)
    else if !ClosedTo(j.entries, [TypeField, ValueField]) then None
    else
      var raw := Lookup(j.entries, Name(ValueField)).value;
      if !raw.JList? || |raw.items| > MAX_CUSTOM_LIST_ITEMS then None
      else if exists i :: 0 <= i < |raw.items| && DecodeScalar(raw.items[i]).None? then None
      else Some(VList(seq(|raw.items|, i requires 0 <= i < |raw.items| && DecodeScalar(raw.items[i]).Some? => DecodeScalar(raw.items[i]).value)))
  }

  function DecodeEntry(dimensions: bool, j: Json): Option<Value> {
    if dimensions then (if DecodeScalar(j) == Some(VNone) then None else DecodeScalar(j)) else DecodeAttribute(j)
  }

  function EncodeEntry(dimensions: bool, v: Value): Json {
    if dimensions then EncodeScalar(v) else EncodeAttribute(v)
  }

  // ----- Schemas -----

  predicate HasType(ty: Ty, v: Value) {
    match ty
    case StrTy => v.VStr?
    case UnitTy => v.VStr? && 1 <= |v.text| <= 32
    case BoolTy => v.VBool?
    case VersionTy => v == VInt(1)
    case UuidTy => v.VStr? && CanonicalUuid(v.text)
    case IdTy => v.VStr? && RunLocalId(v.text)
    case CustomNameTy => v.VStr? && CustomName(v.text)
    case EnumTy(vocabulary) => v.VStr? && Allowed(vocabulary, v.text)
    case U64Ty(nonzero) => v.VInt? && (if nonzero then 1 else 0) <= v.number <= MAX_U64
    case TokenTy => v.VInt? && v.number >= 0
    case DecimalTy => v.VDec? && IsScalar(v)
    case NumberTy => (v.VInt? || v.VDec?) && IsScalar(v)
    case OptTy(inner) => v.VNone? || HasType(inner, v)
    case RecordTy(fields) => v.VRec? && |v.fields| == |fields| && forall i :: 0 <= i < |fields| ==> HasType(fields[i].1, v.fields[i])
    case ListTy(item, most) =>
      && v.VList? && (most.Some? ==> |v.items| <= most.value)
      && forall i :: 0 <= i < |v.items| ==> HasType(item, v.items[i])
    case EntriesTy(dimensions) =>
      && v.VEntries? && |v.pairs| <= (if dimensions then MAX_CUSTOM_DIMENSIONS else MAX_CUSTOM_ATTRIBUTES)
      && (forall i :: 0 <= i < |v.pairs| ==> KeyOk(v.pairs[i].0) && IsEntry(dimensions, v.pairs[i].1))
      && Ascending(KeysOf(v.pairs))
  }

  function KeysOf(pairs: seq<(string, Value)>): (keys: seq<string>)
    ensures |keys| == |pairs| && forall i :: 0 <= i < |keys| ==> keys[i] == pairs[i].0
  {
    seq(|pairs|, i requires 0 <= i < |pairs| => pairs[i].0)
  }

  /** No field twice in a record, and no optional value whose own encoding is null. */
  predicate SchemaOk(ty: Ty) {
    match ty
    case OptTy(inner) => !inner.OptTy? && SchemaOk(inner)
    case RecordTy(fields) =>
      && (forall i, j :: 0 <= i < j < |fields| ==> fields[i].0 != fields[j].0)
      && (forall i :: 0 <= i < |fields| ==> SchemaOk(fields[i].1))
    case ListTy(item, _) => SchemaOk(item)
    case _ => true
  }

  function NamesOf(fields: seq<(Field, Ty)>): (names: seq<Field>)
    ensures |names| == |fields| && forall i :: 0 <= i < |names| ==> names[i] == fields[i].0
  {
    seq(|fields|, i requires 0 <= i < |fields| => fields[i].0)
  }

  function Encode(ty: Ty, v: Value): Json {
    match ty
    case VersionTy => if v.VInt? then JInt(v.number) else JNull
    case BoolTy => if v.VBool? then JBool(v.flag) else JNull
    case U64Ty(_) => if v.VInt? then JStr(IntText(v.number)) else JNull
    case TokenTy => if v.VInt? then JStr(IntText(v.number)) else JNull
    case DecimalTy => if v.VDec? then JStr(DecimalTextOf(v.decimal)) else JNull
    case NumberTy => EncodeScalar(v)
    case OptTy(inner) => if v.VNone? then JNull else Encode(inner, v)
    case RecordTy(fields) =>
      if v.VRec? && |v.fields| == |fields|
      then JObj(seq(|fields|, i requires 0 <= i < |fields| => (Name(fields[i].0), Encode(fields[i].1, v.fields[i]))))
      else JNull
    case ListTy(item, _) =>
      if v.VList? then JList(seq(|v.items|, i requires 0 <= i < |v.items| => Encode(item, v.items[i]))) else JNull
    case EntriesTy(dimensions) =>
      if v.VEntries?
      then JObj(seq(|v.pairs|, i requires 0 <= i < |v.pairs| => (Text(v.pairs[i].0), EncodeEntry(dimensions, v.pairs[i].1))))
      else JNull
    case _ => if v.VStr? then JStr(v.text) else JNull
  }

  function DecodeNumber(j: Json, least: nat, most: Option<nat>): Option<Value> {
    if j.JStr? && CanonicalNat(j.text) && least <= Number(j.text) && (most.Some? ==> Number(j.text) <= most.value)
    then Some(VInt(Number(j.text))) else None
  }

  predicate TextOk(ty: Ty, s: string) {
    match ty
    case UnitTy => 1 <= |s| <= 32
    case UuidTy => CanonicalUuid(s)
    case IdTy => RunLocalId(s)
    case CustomNameTy => CustomName(s)
    case EnumTy(vocabulary) => Allowed(vocabulary, s)
    case _ => true
  }

  predicate EntriesOk(entries: seq<(Key, Json)>, dimensions: bool) {
    && |entries| <= (if dimensions then MAX_CUSTOM_DIMENSIONS else MAX_CUSTOM_ATTRIBUTES)
    && (forall i :: 0 <= i < |entries| ==>
          entries[i].0.Text? && KeyOk(entries[i].0.text) && DecodeEntry(dimensions, entries[i].1).Some?)
    && (forall i :: 0 <= i < |entries| - 1 ==> Before(entries[i].0.text, entries[i + 1].0.text))
  }

  function Decode(ty: Ty, j: Json): Option<Value> {
    match ty
    case VersionTy => if j == JInt(1) then Some(VInt(1)) else None
    case BoolTy => if j.JBool? then Some(VBool(j.flag)) else None
    case U64Ty(nonzero) => DecodeNumber(j, if nonzero then 1 else 0, Some(MAX_U64))
    case TokenTy => DecodeNumber(j, 0, None)
    case DecimalTy => if j.JStr? && D.FromWire(j.text).Some? then Some(VDec(D.FromWire(j.text).value)) else None
    case NumberTy =>
      var v := DecodeScalar(j);
      if v.Some? && (v.value.VInt? || v.value.VDec?) then v else None
    case OptTy(inner) => if j.JNull? then Some(VNone) else Decode(inner, j)
    case RecordTy(fields) =>
      if !j.JObj? || !ClosedTo(j.entries, NamesOf(fields)) then None
      else if exists i :: 0 <= i < |fields| && Decode(fields[i].1, FieldOf(j.entries, fields[i].0)).None? then None
      else Some(VRec(seq(|fields|, i requires 0 <= i < |fields| && Decode(fields[i].1, FieldOf(j.entries, fields[i].0)).Some? =>
                                     Decode(fields[i].1, FieldOf(j.entries, fields[i].0)).value)))
    case ListTy(item, most) =>
      if !j.JList? || (most.Some? && |j.items| > most.value) then None
      else if exists i :: 0 <= i < |j.items| && Decode(item, j.items[i]).None? then None
      else Some(VList(seq(|j.items|, i requires 0 <= i < |j.items| && Decode(item, j.items[i]).Some? => Decode(item, j.items[i]).value)))
    case EntriesTy(dimensions) =>
      if !j.JObj? || !EntriesOk(j.entries, dimensions) then None
      else Some(VEntries(DecodePairs(j.entries, dimensions)))
    case _ => if j.JStr? && TextOk(ty, j.text) then Some(VStr(j.text)) else None
  }

  function DecodePairs(entries: seq<(Key, Json)>, dimensions: bool): (pairs: seq<(string, Value)>)
    requires EntriesOk(entries, dimensions)
    ensures |pairs| == |entries|
    ensures forall i :: 0 <= i < |pairs| ==> pairs[i] == (entries[i].0.text, DecodeEntry(dimensions, entries[i].1).value)
  {
    seq(|entries|, i requires 0 <= i < |entries| => (entries[i].0.text, DecodeEntry(dimensions, entries[i].1).value))
  }

  /** The value under a field name; absent fields have been excluded before. */
  function FieldOf(entries: seq<(Key, Json)>, field: Field): Json {
    var found := Lookup(entries, Name(field));
    if found.Some? then found.value else JNull
  }
}
