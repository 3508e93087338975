/** The event codec: an event is written by the encoder's tables, a mapping is read by the decoder's
    and then has to pass the constructor of its class. */
module EventCodec {
  import opened Events
  import opened Codec
  import opened CodecProofs
  import opened EventClasses
  import opened EventTables

  /** What the constructors of the event classes accept, tool payload capture aside. */
  predicate ValidEvent(e: WireEvent) {
    var v := VariantOf(e.kind, e.sub);
    && v.Some?
    && HasType(RecordTy(SchemaOf(e.kind, v.value)), VRec(e.values))
    && Rules(v.value, e.values)
  }

  function EventPut(kind: string, v: Variant): Put {
    Obj(NamesOf(SchemaOf(kind, v)), Rows(v))
  }

  function EncodeEvent(e: WireEvent): Json
    requires ValidEvent(e)
  {
    Write(EventPut(e.kind, VariantOf(e.kind, e.sub).value), VRec(e.values))
  }

  function TextField(entries: seq<(Key, Json)>, field: Field): Option<string> {
    var found := Lookup(entries, Name(field));
    if found.Some? && found.value.JStr? then Some(found.value.text) else None
  }

  /** The kind, and the span or instant kind if the variant has one, choose the tables. */
  function SubOf(entries: seq<(Key, Json)>, kind: string): Option<string> {
    if kind == "span_started" then TextField(entries, SpanKindField)
    else if kind == "instant_occurred" then TextField(entries, InstantKindField)
    else Some("")
  }

  /** The value the decoder gives an attribute. */
  function ReadAttribute(gets: seq<Read>, attribute: Field, entries: seq<(Key, Json)>): Option<Value> {
    if gets == [] then None
    else if gets[0].attribute == attribute then Decode(gets[0].ty, FieldOf(entries, gets[0].wire))
    else ReadAttribute(gets[1..], attribute, entries)
  }

  function DecodeRows(attributes: seq<Field>, wires: seq<Field>, gets: seq<Read>, j: Json): Option<Value> {
    if !j.JObj? || !ClosedTo(j.entries, wires) then None
    else if exists i :: 0 <= i < |attributes| && ReadAttribute(gets, attributes[i], j.entries).None? then None
    else Some(VRec(seq(|attributes|, i requires 0 <= i < |attributes| && ReadAttribute(gets, attributes[i], j.entries).Some? =>
                                       ReadAttribute(gets, attributes[i], j.entries).value)))
  }

  function DecodeEvent(j: Json): Option<WireEvent> {
    if !j.JObj? || TextField(j.entries, Kind).None? then None
    else
      var kind := TextField(j.entries, Kind).value;
      var sub := SubOf(j.entries, kind);
      if sub.None? || VariantOf(kind, sub.value).None? then None
      else
        var variant := VariantOf(kind, sub.value).value;
        var v := DecodeRows(NamesOf(SchemaOf(kind, variant)), Wires(variant), Reads(kind, variant), j);
        if v.None? || !HasType(RecordTy(SchemaOf(kind, variant)), v.value) || !Rules(variant, v.value.fields) then None
        else Some(WireEvent(kind, sub.value, v.value.fields))
  }

  // ----- The decoder's table as a record type -----

  function ReadFields(gets: seq<Read>): (fields: seq<(Field, Ty)>)
    ensures |fields| == |gets| && forall i :: 0 <= i < |gets| ==> fields[i] == (gets[i].attribute, gets[i].ty)
  {
    seq(|gets|, i requires 0 <= i < |gets| => (gets[i].attribute, gets[i].ty))
  }

  lemma {:induction false} ReadAttributeAt(gets: seq<Read>, i: nat, entries: seq<(Key, Json)>)
    requires i < |gets| && forall a, b :: 0 <= a < b < |gets| ==> gets[a].attribute != gets[b].attribute
    ensures ReadAttribute(gets, gets[i].attribute, entries) == Decode(gets[i].ty, FieldOf(entries, gets[i].wire))
  {
    if i > 0 { ReadAttributeAt(gets[1..], i - 1, entries); }
  }

  /** Where the tables agree, reading by the table is decoding by the record type. */
  lemma RowsDecode(fields: seq<(Field, Ty)>, rows: seq<Row>, wires: seq<Field>, gets: seq<Read>, j: Json)
    requires Agree(fields, rows, wires, gets) && DistinctFields(fields)
    ensures DecodeRows(NamesOf(fields), wires, gets, j) == Decode(RecordTy(ReadFields(gets)), j)
  {
    var rec := ReadFields(gets);
    hide Fits, Covers, Lookup, FieldOf;
    assert NamesOf(rec) == wires == NamesOf(fields);
    if j.JObj? {
      forall i | 0 <= i < |fields|
        ensures ReadAttribute(gets, NamesOf(fields)[i], j.entries) == Decode(rec[i].1, FieldOf(j.entries, rec[i].0))
      {
        ReadAttributeAt(gets, i, j.entries);
      }
      hide ReadAttribute;
      var a, b := DecodeRows(NamesOf(fields), wires, gets, j), Decode(RecordTy(rec), j);
      if a.Some? && b.Some? { assert a.value.fields == b.value.fields; }
    }
  }

  lemma AgreeRecord(fields: seq<(Field, Ty)>, rows: seq<Row>, wires: seq<Field>, gets: seq<Read>)
    requires Agree(fields, rows, wires, gets) && SchemaOk(RecordTy(fields))
    ensures Fits(Obj(NamesOf(fields), rows), RecordTy(ReadFields(gets)))
    ensures Covers(RecordTy(ReadFields(gets)), RecordTy(fields)) && SchemaOk(RecordTy(ReadFields(gets)))
  {
    assert NamesOf(fields) == NamesOf(ReadFields(gets));
    assert Covers(RecordTy(ReadFields(gets)), RecordTy(fields));
    CoversOk(RecordTy(ReadFields(gets)), RecordTy(fields));
  }

  lemma VariantHandled(kind: string, sub: string)
    requires VariantOf(kind, sub).Some?
    ensures Handled(VariantOf(kind, sub).value)
  {
    VariantKinds(kind, sub);
    VariantDetails(kind, sub);
    hide VariantOf, SpanDetail, InstantDetail, PutSpanDetail, PutInstantDetail;
    if kind == "span_started" { SpanDetailsHandled(sub); }
    if kind == "instant_occurred" { InstantDetailsHandled(sub); }
  }

  lemma VariantDetails(kind: string, sub: string)
    requires VariantOf(kind, sub).Some?
    ensures var v := VariantOf(kind, sub).value;
            && (kind == "span_started" ==> v.SpanStartedV? && SpanDetail(sub) == Some(v.detail))
            && (kind == "instant_occurred" ==> v.InstantV? && InstantDetail(sub) == Some(v.detail))
  {
    hide SpanDetail, InstantDetail;
  }

  /** What the three tables of a variant come to: one record type, which encoder and decoder share
      and which accepts whatever the class accepts. */
  lemma VariantTables(kind: string, sub: string) returns (rec: Ty)
    requires VariantOf(kind, sub).Some?
    ensures var v := VariantOf(kind, sub).value;
            && rec == RecordTy(ReadFields(Reads(kind, v))) && SchemaOk(rec)
            && Fits(EventPut(kind, v), rec) && Covers(rec, RecordTy(SchemaOf(kind, v)))
            && forall j :: DecodeRows(NamesOf(SchemaOf(kind, v)), Wires(v), Reads(kind, v), j) == Decode(rec, j)
  {
    var v := VariantOf(kind, sub).value;
    rec := RecordTy(ReadFields(Reads(kind, v)));
    VariantHandled(kind, sub);
    TablesAgree(kind, v);
    SchemaIsOk(kind, v);
    SchemaDistinct(kind, v);
    hide VariantOf, SchemaOf, Rows, Wires, Reads, Agree, Fits, Covers, SchemaOk, Decode, DecodeRows, DistinctFields;
    AgreeRecord(SchemaOf(kind, v), Rows(v), Wires(v), Reads(kind, v));
    forall j ensures DecodeRows(NamesOf(SchemaOf(kind, v)), Wires(v), Reads(kind, v), j) == Decode(rec, j) {
      RowsDecode(SchemaOf(kind, v), Rows(v), Wires(v), Reads(kind, v), j);
    }
  }

  lemma SchemaDistinct(kind: string, v: Variant)
    ensures DistinctFields(SchemaOf(kind, v))
  {
    SchemaIsOk(kind, v);
    hide SchemaOf;
  }

  // ----- The two directions -----

  /** A field whose vocabulary is one word encodes as that word. */
  lemma WordEncoded(fields: seq<(Field, Ty)>, vs: seq<Value>, i: nat, word: string)
    requires SchemaOk(RecordTy(fields)) && HasType(RecordTy(fields), VRec(vs)) && i < |fields|
    requires fields[i].1 == EnumTy(Only(word))
    ensures Encode(RecordTy(fields), VRec(vs)).JObj?
    ensures TextField(Encode(RecordTy(fields), VRec(vs)).entries, fields[i].0) == Some(word)
  {
    RecordLookup(fields, VRec(vs), i);
    assert HasType(fields[i].1, vs[i]);
    hide Lookup, SchemaOk;
  }

  lemma ReadHeads(kind: string, v: Variant)
    ensures |Reads(kind, v)| > 7 && Reads(kind, v)[0] == Read(Kind, Kind, EnumTy(Only(kind)))
    ensures v.SpanStartedV? ==> Reads(kind, v)[7] == Read(SpanKindField, SpanKindField, EnumTy(Only(v.span)))
    ensures v.InstantV? ==> Reads(kind, v)[7] == Read(InstantKindField, InstantKindField, EnumTy(Only(v.instant)))
  {
    hide ReadDetail, READ_SCOPE, READ_LINK;
  }

  lemma VariantKinds(kind: string, sub: string)
    requires VariantOf(kind, sub).Some?
    ensures var v := VariantOf(kind, sub).value;
            && (if kind == "span_started" then v.SpanStartedV? && v.span == sub
                else if kind == "instant_occurred" then v.InstantV? && v.instant == sub
                else sub == "")
            && (v.SpanStartedV? ==> kind == "span_started") && (v.InstantV? ==> kind == "instant_occurred")
  {
    hide SpanDetail, InstantDetail;
  }

  /** The kind of an encoded event, and its span or instant kind, are found where they belong. */
  lemma KindsEncoded(e: WireEvent, rec: Ty)
    requires ValidEvent(e) && rec == RecordTy(ReadFields(Reads(e.kind, VariantOf(e.kind, e.sub).value)))
    requires SchemaOk(rec) && HasType(rec, VRec(e.values)) && EncodeEvent(e) == Encode(rec, VRec(e.values))
    ensures EncodeEvent(e).JObj? && TextField(EncodeEvent(e).entries, Kind) == Some(e.kind)
    ensures SubOf(EncodeEvent(e).entries, e.kind) == Some(e.sub)
  {
    var v := VariantOf(e.kind, e.sub).value;
    ReadHeads(e.kind, v);
    VariantKinds(e.kind, e.sub);
    hide SchemaOf, Encode, Write, HasType, SchemaOk, Rules, VariantOf, TextField, Reads;
    WordEncoded(rec.fields, e.values, 0, e.kind);
    if v.SpanStartedV? || v.InstantV? { WordEncoded(rec.fields, e.values, 7, e.sub); }
  }

  /** Every valid event without captured tool payloads survives the round trip. */
  lemma EventRoundTrip(e: WireEvent)
    requires ValidEvent(e)
    ensures DecodeEvent(EncodeEvent(e)) == Some(e)
  {
    var v := VariantOf(e.kind, e.sub).value;
    var rec := VariantTables(e.kind, e.sub);
    hide SchemaOf, Encode, Write, Decode, HasType, SchemaOk, Rules, VariantOf, TextField, SubOf, Fits, Covers, EventPut, DecodeRows;
    CoversTypes(rec, RecordTy(SchemaOf(e.kind, v)), VRec(e.values));
    WriteEncodes(EventPut(e.kind, v), rec, VRec(e.values));
    DecodeEncode(rec, VRec(e.values));
    KindsEncoded(e, rec);
  }

  /** Every mapping the decoder accepts is a valid event, and encoding that event gives the mapping
      back, as Python compares mappings. */
  lemma EventBack(j: Json)
    requires DictOk(j) && DecodeEvent(j).Some?
    ensures ValidEvent(DecodeEvent(j).value) && SameWire(EncodeEvent(DecodeEvent(j).value), j)
  {
    var kind := TextField(j.entries, Kind).value;
    var sub := SubOf(j.entries, kind).value;
    var v := VariantOf(kind, sub).value;
    var rec := VariantTables(kind, sub);
    hide SchemaOf, Encode, Write, Decode, HasType, SchemaOk, Rules, VariantOf, TextField, SubOf, SameWire, Fits, Covers, EventPut, DecodeRows;
    EncodeDecode(rec, j);
    WriteEncodes(EventPut(kind, v), rec, Decode(rec, j).value);
    RecordValue(rec, Decode(rec, j).value);
  }

  lemma RecordValue(rec: Ty, v: Value)
    requires rec.RecordTy? && HasType(rec, v)
    ensures v.VRec? && v == VRec(v.fields)
  {
  }
}
