/** The codec is a round trip in both directions. */
module CodecProofs {
  import opened Events
  import opened Digits
  import opened Codec
  import D = Decimals

  /** A Python dict has no key twice, at any depth. */
  ghost predicate DictOk(j: Json) {
    match j
    case JList(items) => forall i :: 0 <= i < |items| ==> DictOk(items[i])
    case JObj(entries) =>
      && (forall i, k :: 0 <= i < k < |entries| ==> entries[i].0 != entries[k].0)
      && (forall i :: 0 <= i < |entries| ==> DictOk(entries[i].1))
    case _ => true
  }

  /** Equality of wire values as Python compares them: the order of an object's keys is no matter. */
  ghost predicate SameWire(a: Json, b: Json) {
    match a
    case JList(items) =>
      b.JList? && |b.items| == |items| && forall i :: 0 <= i < |items| ==> SameWire(items[i], b.items[i])
    case JObj(entries) =>
      && b.JObj?
      && (forall i :: 0 <= i < |entries| ==>
            && Lookup(b.entries, entries[i].0).Some?
            && SameWire(entries[i].1, Lookup(b.entries, entries[i].0).value))
      && (forall i :: 0 <= i < |b.entries| ==> Lookup(entries, b.entries[i].0).Some?)
    case _ => a == b
  }

  lemma {:induction false} LookupAt(entries: seq<(Key, Json)>, i: nat)
    requires i < |entries| && forall a, b :: 0 <= a < b < |entries| ==> entries[a].0 != entries[b].0
    ensures Lookup(entries, entries[i].0) == Some(entries[i].1)
  {
    if i > 0 { LookupAt(entries[1..], i - 1); }
  }

  lemma {:induction false} LookupFinds(entries: seq<(Key, Json)>, key: Key)
    ensures Lookup(entries, key).Some? ==> exists i :: 0 <= i < |entries| && entries[i] == (key, Lookup(entries, key).value)
    ensures Lookup(entries, key).None? ==> forall i :: 0 <= i < |entries| ==> entries[i].0 != key
  {
    if entries != [] {
      LookupFinds(entries[1..], key);
      if entries[0].0 == key {
        assert entries[0] == (key, Lookup(entries, key).value);
      } else if Lookup(entries, key).Some? {
        var i :| 0 <= i < |entries[1..]| && entries[1..][i] == (key, Lookup(entries[1..], key).value);
        assert entries[i + 1] == (key, Lookup(entries, key).value);
      }
    }
  }

  lemma LookupDict(entries: seq<(Key, Json)>, key: Key)
    requires DictOk(JObj(entries)) && Lookup(entries, key).Some?
    ensures DictOk(Lookup(entries, key).value)
  {
    LookupFinds(entries, key);
  }

  // ----- Scalars -----

  lemma TagsDiffer()
    ensures "boolean" != "null" && "integer" != "null" && "decimal" != "null" && "string" != "null" && "list" != "null"
    ensures "integer" != "boolean" && "decimal" != "boolean" && "string" != "boolean"
    ensures "decimal" != "integer" && "string" != "integer" && "string" != "decimal"
    ensures "null" != "list" && "boolean" != "list" && "integer" != "list" && "decimal" != "list" && "string" != "list"
  {
    assert "boolean"[0] == 'b' && "integer"[0] == 'i' && "decimal"[0] == 'd' && "string"[0] == 's'
           && "null"[0] == 'n' && "list"[0] == 'l';
  }

  lemma TaggedLookup(tag: string, value: Json)
    ensures var e := Tagged(tag, value).entries;
            && Lookup(e, Name(TypeField)) == Some(JStr(tag)) && Lookup(e, Name(ValueField)) == Some(value)
            && ClosedTo(e, [TypeField, ValueField])
  {
    var e := Tagged(tag, value).entries;
    assert e[1..] == [(Name(ValueField), value)];
  }

  lemma ScalarRoundTrip(v: Value)
    requires IsScalar(v)
    ensures DecodeScalar(EncodeScalar(v)) == Some(v)
  {
    TagsDiffer();
    hide IntText, ParseInt, CanonicalInt, D.FromWire, D.DecimalText, D.Normalized;
    match v
    case VBool(b) => TaggedLookup("boolean", JBool(b));
    case VInt(i) =>
      IntRoundTrip(i);
      TaggedLookup("integer", JStr(IntText(i)));
    case VDec(d) =>
      DecimalRoundTrip(d);
      TaggedLookup("decimal", JStr(DecimalTextOf(d)));
    case VStr(s) => TaggedLookup("string", JStr(s));
    case VNone =>
  }

  lemma DecimalRoundTrip(d: D.Decimal)
    requires D.Normalized(d) == Some(d)
    ensures D.FromWire(DecimalTextOf(d)) == Some(d)
  {
    hide D.CanonicalDecimal, D.Printed, D.Parsed;
    D.WireAcceptsPrinted(DecimalTextOf(d));
  }

  lemma DecimalBack(s: string)
    requires D.FromWire(s).Some?
    ensures IsScalar(VDec(D.FromWire(s).value)) && DecimalTextOf(D.FromWire(s).value) == s
  {
    hide D.CanonicalDecimal, D.Printed, D.Parsed;
    D.WireAcceptsPrinted(s);
  }

  lemma TaggedSame(tag: string, value: Json, j: Json)
    requires j.JObj? && ClosedTo(j.entries, [TypeField, ValueField])
    requires Lookup(j.entries, Name(TypeField)) == Some(JStr(tag))
    requires SameWire(value, Lookup(j.entries, Name(ValueField)).value)
    ensures SameWire(Tagged(tag, value), j)
  {
    TaggedLookup(tag, value);
  }

  lemma ScalarBack(j: Json)
    requires DecodeScalar(j).Some?
    ensures IsScalar(DecodeScalar(j).value) && SameWire(EncodeScalar(DecodeScalar(j).value), j)
  {
    hide IntText, ParseInt, CanonicalInt, D.FromWire, D.DecimalText, D.Normalized;
    var tag := TagOf(j).value;
    if tag != "null" {
      var raw := Lookup(j.entries, Name(ValueField)).value;
      if tag == "integer" { ParseIntText(raw.text); }
      if tag == "decimal" { DecimalBack(raw.text); }
      var v := DecodeScalar(j).value;
      if tag == "boolean" { TaggedSame(tag, JBool(v.flag), j); }
      else if tag == "integer" { TaggedSame(tag, JStr(IntText(v.number)), j); }
      else if tag == "decimal" { TaggedSame(tag, JStr(DecimalTextOf(v.decimal)), j); }
      else { TaggedSame(tag, JStr(v.text), j); }
    } else {
      assert j.entries != [];
    }
  }

  lemma AttributeRoundTrip(v: Value)
    requires IsAttribute(v)
    ensures DecodeAttribute(EncodeAttribute(v)) == Some(v)
  {
    TagsDiffer();
    if v.VList? {
      var raw := JList(seq(|v.items|, i requires 0 <= i < |v.items| => EncodeScalar(v.items[i])));
      TaggedLookup("list", raw);
      forall i | 0 <= i < |v.items| ensures DecodeScalar(raw.items[i]) == Some(v.items[i]) {
        ScalarRoundTrip(v.items[i]);
      }
      hide DecodeScalar, EncodeScalar;
      assert EncodeAttribute(v) == Tagged("list", raw);
      assert DecodeAttribute(Tagged("list", raw)).value.items == v.items;
    } else {
      ScalarRoundTrip(v);
      assert TagOf(EncodeScalar(v)) != Some("list") by { ScalarTag(v); }
      hide DecodeScalar, EncodeScalar;
    }
  }

  lemma ScalarTag(v: Value)
    requires IsScalar(v)
    ensures TagOf(EncodeScalar(v)) != Some("list")
  {
    TagsDiffer();
    hide IntText, D.DecimalText, D.Normalized;
  }

  lemma AttributeBack(j: Json)
    requires DecodeAttribute(j).Some?
    ensures IsAttribute(DecodeAttribute(j).value) && SameWire(EncodeAttribute(DecodeAttribute(j).value), j)
  {
    if TagOf(j) == Some("list") {
      var raw, v := Lookup(j.entries, Name(ValueField)).value, DecodeAttribute(j).value;
      forall i | 0 <= i < |raw.items|
        ensures IsScalar(v.items[i]) && SameWire(EncodeScalar(v.items[i]), raw.items[i])
      {
        ScalarBack(raw.items[i]);
      }
      hide DecodeScalar, EncodeScalar, IsScalar;
      TaggedSame("list", JList(seq(|v.items|, i requires 0 <= i < |v.items| => EncodeScalar(v.items[i]))), j);
    } else {
      ScalarBack(j);
      ScalarNotList(j);
      hide DecodeScalar, EncodeScalar, SameWire;
    }
  }

  lemma ScalarNotList(j: Json)
    requires DecodeScalar(j).Some?
    ensures !DecodeScalar(j).value.VList?
  {
    hide D.FromWire, CanonicalInt, ParseInt;
  }

  lemma EntryRoundTrip(dimensions: bool, v: Value)
    requires IsEntry(dimensions, v)
    ensures DecodeEntry(dimensions, EncodeEntry(dimensions, v)) == Some(v)
  {
    hide DecodeScalar, EncodeScalar, DecodeAttribute, EncodeAttribute;
    if dimensions { ScalarRoundTrip(v); } else { AttributeRoundTrip(v); }
  }

  lemma EntryBack(dimensions: bool, j: Json)
    requires DecodeEntry(dimensions, j).Some?
    ensures var v := DecodeEntry(dimensions, j).value;
            IsEntry(dimensions, v) && SameWire(EncodeEntry(dimensions, v), j)
  {
    hide DecodeScalar, EncodeScalar, DecodeAttribute, EncodeAttribute, SameWire;
    if dimensions { ScalarBack(j); } else { AttributeBack(j); }
  }

  // ----- Entries -----

  lemma EntriesRoundTrip(dimensions: bool, v: Value)
    requires HasType(EntriesTy(dimensions), v)
    ensures Decode(EntriesTy(dimensions), Encode(EntriesTy(dimensions), v)) == Some(v)
  {
    hide DecodeEntry, EncodeEntry, IsEntry, KeyOk, Before;
    var entries := Encode(EntriesTy(dimensions), v).entries;
    forall i | 0 <= i < |entries|
      ensures entries[i].0 == Text(v.pairs[i].0) && DecodeEntry(dimensions, entries[i].1) == Some(v.pairs[i].1)
    {
      EntryRoundTrip(dimensions, v.pairs[i].1);
    }
    forall i | 0 <= i < |entries| - 1 ensures Before(entries[i].0.text, entries[i + 1].0.text) {
      assert Before(KeysOf(v.pairs)[i], KeysOf(v.pairs)[i + 1]);
    }
    assert EntriesOk(entries, dimensions);
    assert DecodePairs(entries, dimensions) == v.pairs;
  }

  lemma EntriesBack(dimensions: bool, j: Json)
    requires Decode(EntriesTy(dimensions), j).Some? && DictOk(j)
    ensures var v := Decode(EntriesTy(dimensions), j).value;
            HasType(EntriesTy(dimensions), v) && SameWire(Encode(EntriesTy(dimensions), v), j)
  {
    hide DecodeEntry, EncodeEntry, IsEntry, KeyOk, Before, Lookup;
    var v := Decode(EntriesTy(dimensions), j).value;
    var entries := Encode(EntriesTy(dimensions), v).entries;
    forall i | 0 <= i < |entries|
      ensures IsEntry(dimensions, v.pairs[i].1) && entries[i].0 == j.entries[i].0
      ensures Lookup(j.entries, entries[i].0) == Some(j.entries[i].1) && Lookup(entries, entries[i].0).Some?
      ensures SameWire(entries[i].1, j.entries[i].1)
    {
      EntryBack(dimensions, j.entries[i].1);
      LookupAt(j.entries, i);
      LookupFinds(entries, entries[i].0);
    }
  }

  // ----- Records, lists, everything -----

  lemma RecordLookup(fields: seq<(Field, Ty)>, v: Value, i: nat)
    requires SchemaOk(RecordTy(fields)) && HasType(RecordTy(fields), v) && i < |fields|
    ensures FieldOf(Encode(RecordTy(fields), v).entries, fields[i].0) == Encode(fields[i].1, v.fields[i])
    ensures Lookup(Encode(RecordTy(fields), v).entries, Name(fields[i].0)).Some?
  {
    LookupAt(Encode(RecordTy(fields), v).entries, i);
  }

  /** Decoding what was encoded gives the value back. */
  lemma {:induction false} DecodeEncode(ty: Ty, v: Value)
    requires SchemaOk(ty) && HasType(ty, v)
    ensures Decode(ty, Encode(ty, v)) == Some(v)
    ensures !ty.OptTy? ==> !Encode(ty, v).JNull?
    decreases ty
  {
    match ty
    case OptTy(inner) => if !v.VNone? { DecodeEncode(inner, v); }
    case RecordTy(fields) => RecordRoundTrip(fields, v);
    case ListTy(item, most) => ListRoundTrip(item, most, v);
    case EntriesTy(dimensions) => EntriesRoundTrip(dimensions, v);
    case _ => LeafRoundTrip(ty, v);
  }

  lemma RecordRoundTrip(fields: seq<(Field, Ty)>, v: Value)
    requires SchemaOk(RecordTy(fields)) && HasType(RecordTy(fields), v)
    ensures Decode(RecordTy(fields), Encode(RecordTy(fields), v)) == Some(v)
    decreases RecordTy(fields), 0
  {
    var entries := Encode(RecordTy(fields), v).entries;
    forall i | 0 <= i < |fields|
      ensures FieldOf(entries, fields[i].0) == Encode(fields[i].1, v.fields[i])
      ensures Lookup(entries, Name(fields[i].0)).Some? && entries[i].0 == Name(NamesOf(fields)[i])
      ensures Decode(fields[i].1, Encode(fields[i].1, v.fields[i])) == Some(v.fields[i])
    {
      RecordLookup(fields, v, i);
      DecodeEncode(fields[i].1, v.fields[i]);
    }
    hide Lookup, FieldOf, HasType, SchemaOk;
    assert ClosedTo(entries, NamesOf(fields));
    var d := Decode(RecordTy(fields), JObj(entries));
    assert d.Some? && d.value.fields == v.fields;
  }

  lemma ListRoundTrip(item: Ty, most: Option<nat>, v: Value)
    requires SchemaOk(ListTy(item, most)) && HasType(ListTy(item, most), v)
    ensures Decode(ListTy(item, most), Encode(ListTy(item, most), v)) == Some(v)
    decreases ListTy(item, most), 0
  {
    var items := Encode(ListTy(item, most), v).items;
    forall i | 0 <= i < |items| ensures Decode(item, items[i]) == Some(v.items[i]) {
      DecodeEncode(item, v.items[i]);
    }
    hide HasType, SchemaOk;
    assert Decode(ListTy(item, most), JList(items)).value.items == v.items;
  }

  predicate Leaf(ty: Ty) {
    !ty.OptTy? && !ty.RecordTy? && !ty.ListTy? && !ty.EntriesTy?
  }

  predicate Textual(ty: Ty) {
    ty.StrTy? || ty.UnitTy? || ty.UuidTy? || ty.IdTy? || ty.CustomNameTy? || ty.EnumTy?
  }

  lemma TextRoundTrip(ty: Ty, v: Value)
    requires Textual(ty) && HasType(ty, v)
    ensures Decode(ty, Encode(ty, v)) == Some(v) && !Encode(ty, v).JNull?
  {
    hide Allowed, CustomName, CanonicalUuid, RunLocalId;
  }

  lemma NumberRoundTrip(ty: Ty, v: Value)
    requires (ty.U64Ty? || ty.TokenTy?) && HasType(ty, v)
    ensures Decode(ty, Encode(ty, v)) == Some(v) && !Encode(ty, v).JNull?
  {
    NatTextCanonical(v.number);
    hide NatText, Number, CanonicalNat;
  }

  lemma LeafRoundTrip(ty: Ty, v: Value)
    requires Leaf(ty) && HasType(ty, v)
    ensures Decode(ty, Encode(ty, v)) == Some(v) && !Encode(ty, v).JNull?
  {
    if Textual(ty) {
      TextRoundTrip(ty, v);
    } else if ty.U64Ty? || ty.TokenTy? {
      NumberRoundTrip(ty, v);
    } else if ty.DecimalTy? {
      DecimalRoundTrip(v.decimal);
      hide D.Normalized, D.FromWire, D.DecimalText;
    } else if ty.NumberTy? {
      ScalarRoundTrip(v);
      hide DecodeScalar, D.Normalized;
    }
  }

  /** Encoding what was decoded gives the wire value back, up to the order of record keys; and
      what is decoded is always well typed. */
  lemma {:induction false} EncodeDecode(ty: Ty, j: Json)
    requires SchemaOk(ty) && DictOk(j) && Decode(ty, j).Some?
    ensures HasType(ty, Decode(ty, j).value) && SameWire(Encode(ty, Decode(ty, j).value), j)
    decreases ty
  {
    match ty
    case OptTy(inner) => if !j.JNull? { EncodeDecode(inner, j); NeverNone(inner, j); }
    case RecordTy(fields) => RecordBack(fields, j);
    case ListTy(item, most) => ListBack(item, most, j);
    case EntriesTy(dimensions) => EntriesBack(dimensions, j);
    case _ => LeafBack(ty, j);
  }

  lemma NeverNone(ty: Ty, j: Json)
    requires Decode(ty, j).Some? && !ty.OptTy?
    ensures !Decode(ty, j).value.VNone?
  {
    hide DecodeScalar;
  }

  lemma RecordBack(fields: seq<(Field, Ty)>, j: Json)
    requires SchemaOk(RecordTy(fields)) && DictOk(j) && Decode(RecordTy(fields), j).Some?
    ensures var v := Decode(RecordTy(fields), j).value;
            HasType(RecordTy(fields), v) && SameWire(Encode(RecordTy(fields), v), j)
    decreases RecordTy(fields), 0
  {
    var v := Decode(RecordTy(fields), j).value;
    var entries := Encode(RecordTy(fields), v).entries;
    forall i | 0 <= i < |fields|
      ensures Lookup(j.entries, Name(fields[i].0)).Some? && entries[i].0 == Name(fields[i].0)
      ensures HasType(fields[i].1, v.fields[i])
      ensures SameWire(entries[i].1, Lookup(j.entries, Name(fields[i].0)).value)
      ensures Lookup(entries, Name(fields[i].0)).Some?
    {
      assert NamesOf(fields)[i] in NamesOf(fields);
      LookupDict(j.entries, Name(fields[i].0));
      EncodeDecode(fields[i].1, FieldOf(j.entries, fields[i].0));
      LookupFinds(entries, Name(fields[i].0));
    }
    forall k | 0 <= k < |j.entries| ensures Lookup(entries, j.entries[k].0).Some? {
      var i :| 0 <= i < |fields| && NamesOf(fields)[i] == j.entries[k].0.field;
    }
    hide Lookup, Decode, SchemaOk;
    assert Encode(RecordTy(fields), v) == JObj(entries);
  }

  lemma ListBack(item: Ty, most: Option<nat>, j: Json)
    requires SchemaOk(ListTy(item, most)) && DictOk(j) && Decode(ListTy(item, most), j).Some?
    ensures var v := Decode(ListTy(item, most), j).value;
            HasType(ListTy(item, most), v) && SameWire(Encode(ListTy(item, most), v), j)
    decreases ListTy(item, most), 0
  {
    var v := Decode(ListTy(item, most), j).value;
    forall i | 0 <= i < |j.items| ensures HasType(item, v.items[i]) && SameWire(Encode(item, v.items[i]), j.items[i]) {
      EncodeDecode(item, j.items[i]);
    }
  }

  lemma TextBack(ty: Ty, j: Json)
    requires Textual(ty) && Decode(ty, j).Some?
    ensures HasType(ty, Decode(ty, j).value) && SameWire(Encode(ty, Decode(ty, j).value), j)
  {
    hide Allowed, CustomName, CanonicalUuid, RunLocalId;
  }

  lemma NumberBack(ty: Ty, j: Json)
    requires (ty.U64Ty? || ty.TokenTy?) && Decode(ty, j).Some?
    ensures HasType(ty, Decode(ty, j).value) && SameWire(Encode(ty, Decode(ty, j).value), j)
  {
    NumberText(j.text);
    hide NatText, Number, CanonicalNat;
  }

  lemma LeafBack(ty: Ty, j: Json)
    requires Leaf(ty) && Decode(ty, j).Some?
    ensures HasType(ty, Decode(ty, j).value) && SameWire(Encode(ty, Decode(ty, j).value), j)
  {
    if Textual(ty) {
      TextBack(ty, j);
    } else if ty.U64Ty? || ty.TokenTy? {
      NumberBack(ty, j);
    } else if ty.DecimalTy? {
      DecimalBack(j.text);
      hide D.Normalized, D.FromWire, D.DecimalText;
    } else if ty.NumberTy? {
      ScalarBack(j);
      hide DecodeScalar, EncodeScalar, D.Normalized;
    }
  }
}
