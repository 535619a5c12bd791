/** What the decoder accepts, said through the encoder alone. */
module WireMeaning {
  import opened Wrappers
  import opened CamelCase
  import opened WireCodec

  /** `j` writes `v` at type `t`: it is the encoding of `v`, except that a whole number may
      stand for the float it equals, and that a key may be left out whose attribute equals
      its field's default. */
  ghost predicate Written(v: Value, j: Json, t: Type)
    decreases t
  {
    match t
    case OptionalType(inner) => if v == NoneValue then j == JNull else Written(v, j, inner)
    case FloatType => j == ToWire(v) || WholeFloat(v, j)
    case TupleOf(element) =>
      && v.TupleValue? && j.JArray? && |j.elements| == |v.items|
      && forall i | 0 <= i < |v.items| :: Written(v.items[i], j.elements[i], element)
    case ListType(element) =>
      && v.ListValue? && j.JArray? && |j.elements| == |v.items|
      && forall i | 0 <= i < |v.items| :: Written(v.items[i], j.elements[i], element)
    case TupleType(elements) =>
      && v.TupleValue? && j.JArray? && |j.elements| == |v.items| == |elements|
      && forall i | 0 <= i < |v.items| :: Written(v.items[i], j.elements[i], elements[i])
    case DictType(element) =>
      && v.DictValue? && j.JObject? && j.entries.Keys == v.entries.Keys
      && forall key | key in j.entries :: Written(v.entries[key], j.entries[key], element)
    case ClassType(_, fields) =>
      && v.Instance? && j.JObject? && |v.attributes| == |fields|
      && (forall key | key in j.entries :: HasKey(v.attributes, key))
      && forall i | 0 <= i < |fields| ::
           if ToCamel(v.attributes[i].name) in j.entries
           then Written(v.attributes[i].value, j.entries[ToCamel(v.attributes[i].name)], fields[i].hint)
           else fields[i].fallback == Some(v.attributes[i].value)
    case _ => j == ToWire(v)
  }

  predicate WholeFloat(v: Value, j: Json) {
    match (v, j)
    case (FloatValue(Finite(x)), JInt(i)) => x == i as real
    case _ => false
  }

  /** Null is written for nothing but the missing value. */
  lemma {:induction false} NullWritesNone(v: Value, t: Type)
    requires WellTyped(v, t) && Written(v, JNull, t)
    ensures v == NoneValue
    decreases t
  {
    OnlyNoneIsNull(v);
    match t
    case OptionalType(inner) => if v != NoneValue { NullWritesNone(v, inner); }
    case _ =>
  }

  predicate IsLeaf(t: Type) {
    t.BoolType? || t.IntType? || t.FloatType? || t.StringType? || t.EnumType?
  }

  lemma LeafDecodes(v: Value, j: Json, t: Type)
    requires IsLeaf(t) && WellTyped(v, t) && Written(v, j, t)
    ensures DecodeValue(j, t) == Some(v)
  {
  }

  lemma DataDecodes(v: Value, j: Json, t: Type)
    requires (t.UnionType? || t.OpaqueType?) && WellTyped(v, t) && Written(v, j, t)
    ensures DecodeValue(j, t) == Some(v)
  {
    DataOfWire(v);
    OnlyNoneIsNull(v);
  }

  /** What writes a well-typed value decodes to it. */
  lemma {:induction false} WrittenDecodes(v: Value, j: Json, t: Type)
    requires WellTyped(v, t) && Written(v, j, t)
    ensures DecodeValue(j, t) == Some(v)
    decreases t, 0
  {
    match t
    case UnionType(_) => DataDecodes(v, j, t);
    case OpaqueType => DataDecodes(v, j, t);
    case OptionalType(inner) =>
      if v != NoneValue {
        if j == JNull { NullWritesNone(v, inner); }
        WrittenDecodes(v, j, inner);
      }
    case TupleOf(element) => WrittenAll(v.items, j.elements, element);
    case ListType(element) => WrittenAll(v.items, j.elements, element);
    case TupleType(elements) => WrittenEach(v.items, j.elements, elements);
    case DictType(element) => WrittenEntries(v.entries, j.entries, element);
    case ClassType(name, fields) => WrittenFields(name, v.attributes, j.entries, fields);
    case _ => LeafDecodes(v, j, t);
  }

  lemma WrittenAll(items: seq<Value>, wire: seq<Json>, t: Type)
    requires |items| == |wire|
    requires forall i | 0 <= i < |items| :: WellTyped(items[i], t) && Written(items[i], wire[i], t)
    ensures DecodeAll(wire, t) == Some(items)
    decreases t, 1
  {
    forall i | 0 <= i < |items| ensures DecodeValue(wire[i], t) == Some(items[i]) {
      WrittenDecodes(items[i], wire[i], t);
    }
    assert DecodeAll(wire, t).value == items;
  }

  lemma WrittenEach(items: seq<Value>, wire: seq<Json>, types: seq<Type>)
    requires |items| == |wire| == |types|
    requires forall i | 0 <= i < |items| :: WellTyped(items[i], types[i]) && Written(items[i], wire[i], types[i])
    ensures DecodeEach(wire, types) == Some(items)
    decreases types, 1
  {
    forall i | 0 <= i < |items| ensures DecodeValue(wire[i], types[i]) == Some(items[i]) {
      WrittenDecodes(items[i], wire[i], types[i]);
    }
    assert DecodeEach(wire, types).value == items;
  }

  lemma WrittenEntries(entries: map<string, Value>, wire: map<string, Json>, t: Type)
    requires wire.Keys == entries.Keys
    requires forall key | key in wire :: WellTyped(entries[key], t) && Written(entries[key], wire[key], t)
    ensures DecodeEntries(wire, t) == Some(entries)
    decreases t, 1
  {
    forall key | key in wire ensures DecodeValue(wire[key], t) == Some(entries[key]) {
      WrittenDecodes(entries[key], wire[key], t);
    }
    SameEntries(wire, t, entries);
  }

  lemma WrittenFields(name: string, attributes: seq<Attribute>, wire: map<string, Json>, fields: seq<Field>)
    requires WellTyped(Instance(name, attributes), ClassType(name, fields))
    requires Written(Instance(name, attributes), JObject(wire), ClassType(name, fields))
    ensures DecodeValue(JObject(wire), ClassType(name, fields)) == Some(Instance(name, attributes))
    decreases fields, 1
  {
    InstanceShape(name, attributes, fields);
    forall i | 0 <= i < |fields|
      ensures DecodeField(wire, fields[i]) == Some(attributes[i].value)
    {
      var key := ToCamel(fields[i].name);
      if key in wire { WrittenDecodes(attributes[i].value, wire[key], fields[i].hint); }
    }
    forall key | key in wire
      ensures key in Keys(fields)
    {
      assert HasKey(attributes, key);
    }
    AttributesDecode(attributes, wire, fields);
    DecodeObject(wire, name, fields);
  }

  lemma AttributesDecode(attributes: seq<Attribute>, wire: map<string, Json>, fields: seq<Field>)
    requires |attributes| == |fields| && forall i | 0 <= i < |fields| ::
      attributes[i].name == fields[i].name && DecodeField(wire, fields[i]) == Some(attributes[i].value)
    ensures DecodeFields(wire, fields) == Some(attributes)
  {
    var decoded := DecodeFields(wire, fields).value;
    assert forall i | 0 <= i < |fields| :: decoded[i] == attributes[i];
    assert decoded == attributes;
  }

  /** What decodes to a value writes it. */
  lemma {:induction false} DecodedIsWritten(j: Json, t: Type)
    requires DecodeValue(j, t).Some?
    ensures Written(DecodeValue(j, t).value, j, t)
    decreases t, 0
  {
    match t
    case UnionType(_) => DataIsData(j);
    case OpaqueType => DataIsData(j);
    case OptionalType(inner) =>
      if j != JNull {
        DecodedIsWritten(j, inner);
        if DecodeValue(j, inner) == Some(NoneValue) { NoneComesFromNull(j, inner); }
      }
    case TupleOf(element) => DecodedAllAreWritten(j.elements, element);
    case ListType(element) => DecodedAllAreWritten(j.elements, element);
    case TupleType(elements) =>
      forall i | 0 <= i < |elements|
        ensures Written(DecodeEach(j.elements, elements).value[i], j.elements[i], elements[i])
      {
        DecodedIsWritten(j.elements[i], elements[i]);
      }
    case DictType(element) =>
      forall key | key in j.entries
        ensures Written(DecodeValue(j.entries[key], element).value, j.entries[key], element)
      {
        DecodedIsWritten(j.entries[key], element);
      }
    case ClassType(name, fields) => DecodedFieldsAreWritten(name, j.entries, fields);
    case _ =>
  }

  lemma {:induction false} NoneComesFromNull(j: Json, t: Type)
    requires DecodeValue(j, t) == Some(NoneValue)
    ensures j == JNull
    decreases t
  {
    match t
    case OptionalType(inner) => if j != JNull { NoneComesFromNull(j, inner); }
    case _ =>
  }

  lemma DecodedAllAreWritten(wire: seq<Json>, t: Type)
    requires DecodeAll(wire, t).Some?
    ensures forall i | 0 <= i < |wire| :: Written(DecodeAll(wire, t).value[i], wire[i], t)
    decreases t, 1
  {
    forall i | 0 <= i < |wire| ensures Written(DecodeAll(wire, t).value[i], wire[i], t) {
      DecodedIsWritten(wire[i], t);
    }
  }

  lemma DecodedFieldsAreWritten(name: string, wire: map<string, Json>, fields: seq<Field>)
    requires DecodeValue(JObject(wire), ClassType(name, fields)).Some?
    ensures Written(DecodeValue(JObject(wire), ClassType(name, fields)).value, JObject(wire), ClassType(name, fields))
    decreases fields, 1
  {
    DecodeObject(wire, name, fields);
    var attributes := DecodeFields(wire, fields).value;
    forall i | 0 <= i < |fields|
      ensures if ToCamel(attributes[i].name) in wire
              then Written(attributes[i].value, wire[ToCamel(attributes[i].name)], fields[i].hint)
              else fields[i].fallback == Some(attributes[i].value)
    {
      var key := ToCamel(fields[i].name);
      assert DecodeField(wire, fields[i]) == Some(attributes[i].value);
      if key in wire { DecodedIsWritten(wire[key], fields[i].hint); }
    }
    forall key | key in wire
      ensures HasKey(attributes, key)
    {
      assert key in Keys(fields);
      var i :| 0 <= i < |fields| && key == ToCamel(fields[i].name);
      assert key == ToCamel(attributes[i].name);
    }
  }

  /** JSON decodes to a value exactly when it writes that value and the value is of the type:
      for every well-formed type, any JSON and any value. */
  lemma DecodesExactlyWhatIsWritten(v: Value, j: Json, t: Type)
    requires WellFormed(t)
    ensures DecodeValue(j, t) == Some(v) <==> WellTyped(v, t) && Written(v, j, t)
  {
    hide *;
    if DecodeValue(j, t) == Some(v) {
      DecodedIsWellTyped(j, t);
      DecodedIsWritten(j, t);
    }
    if WellTyped(v, t) && Written(v, j, t) { WrittenDecodes(v, j, t); }
  }

  /** Any keys whose attributes equal their defaults may be left out of an encoding. */
  lemma DefaultsMayBeLeftOut(name: string, attributes: seq<Attribute>, fields: seq<Field>, left: set<string>)
    requires WellFormed(ClassType(name, fields)) && WellTyped(Instance(name, attributes), ClassType(name, fields))
    requires forall i | 0 <= i < |fields| && ToCamel(fields[i].name) in left ::
      fields[i].fallback == Some(attributes[i].value)
    ensures DecodeValue(JObject(ToWireObject(attributes) - left), ClassType(name, fields))
         == Some(Instance(name, attributes))
  {
    var v, t, wire := Instance(name, attributes), ClassType(name, fields), ToWireObject(attributes);
    var rest := wire - left;
    RoundTrip(v, t);
    DecodedIsWritten(ToWire(v), t);
    InstanceShape(name, attributes, fields);
    forall i | 0 <= i < |fields|
      ensures if ToCamel(attributes[i].name) in rest
              then Written(attributes[i].value, rest[ToCamel(attributes[i].name)], fields[i].hint)
              else fields[i].fallback == Some(attributes[i].value)
    {
      assert attributes[i].name == fields[i].name;
    }
    assert Written(v, JObject(rest), t);
    WrittenDecodes(v, JObject(rest), t);
  }
}
