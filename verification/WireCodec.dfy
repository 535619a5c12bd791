/** The typed wire codec: any value to JSON, and JSON back to a value of a given type. */
module WireCodec {
  import opened Wrappers
  import opened CamelCase

  // -- JSON, values and types ---------------------------------------------------------------

  datatype Number = Finite(real) | NotFinite

  datatype Json =
    | JNull
    | JBool(bool)
    | JInt(int)
    | JFloat(Number)
    | JString(string)
    | JArray(elements: seq<Json>)
    | JObject(entries: map<string, Json>)

  datatype Attribute = Attribute(name: string, value: Value)

  datatype Value =
    | NoneValue
    | BoolValue(bool)
    | IntValue(int)
    | FloatValue(Number)
    | StringValue(string)
    | EnumValue(enumName: string, member: string)
    | ListValue(items: seq<Value>)
    | TupleValue(items: seq<Value>)
    | DictValue(entries: map<string, Value>)
    | Instance(className: string, attributes: seq<Attribute>)

  datatype Field = Field(name: string, hint: Type, fallback: Option<Value>)

  datatype Type =
    | BoolType
    | IntType
    | FloatType
    | StringType
    | OpaqueType
    | EnumType(enumName: string, members: seq<string>)
    | OptionalType(Type)
    | UnionType(nullable: bool)
    | TupleOf(Type)
    | TupleType(seq<Type>)
    | ListType(Type)
    | DictType(Type)
    | ClassType(className: string, fields: seq<Field>)

  // -- encoding -----------------------------------------------------------------------------

  /** The encoder looks only at the value: sequences of either kind become arrays, and an
      instance becomes an object with camelCase keys, a later attribute winning a key. */
  function ToWire(v: Value): Json {
    match v
    case NoneValue => JNull
    case BoolValue(b) => JBool(b)
    case IntValue(i) => JInt(i)
    case FloatValue(x) => JFloat(x)
    case StringValue(s) => JString(s)
    case EnumValue(_, member) => JString(member)
    case ListValue(items) => JArray(ToWireAll(items))
    case TupleValue(items) => JArray(ToWireAll(items))
    case DictValue(entries) => JObject(map key | key in entries :: ToWire(entries[key]))
    case Instance(_, attributes) => JObject(ToWireObject(attributes))
  }

  function ToWireAll(items: seq<Value>): (r: seq<Json>)
    ensures |r| == |items| && forall i | 0 <= i < |r| :: r[i] == ToWire(items[i])
  {
    if items == [] then [] else [ToWire(items[0])] + ToWireAll(items[1..])
  }

  function ToWireObject(attributes: seq<Attribute>): map<string, Json> {
    if attributes == [] then map[]
    else
      var last := |attributes| - 1;
      ToWireObject(attributes[..last])[ToCamel(attributes[last].name) := ToWire(attributes[last].value)]
  }

  // -- decoding -----------------------------------------------------------------------------

  /** JSON data kept as it came, where the type asks for nothing. */
  function Data(j: Json): Value {
    match j
    case JNull => NoneValue
    case JBool(b) => BoolValue(b)
    case JInt(i) => IntValue(i)
    case JFloat(x) => FloatValue(x)
    case JString(s) => StringValue(s)
    case JArray(items) => ListValue(DataAll(items))
    case JObject(entries) => DictValue(map key | key in entries :: Data(entries[key]))
  }

  function DataAll(items: seq<Json>): (r: seq<Value>)
    ensures |r| == |items| && forall i | 0 <= i < |r| :: r[i] == Data(items[i])
  {
    if items == [] then [] else [Data(items[0])] + DataAll(items[1..])
  }

  /** `None` stands for an INVALID_PARAMS error. */
  function DecodeValue(j: Json, t: Type): Option<Value>
    decreases t, 0
  {
    match t
    case UnionType(nullable) => if j == JNull && !nullable then None else Some(Data(j))
    case OptionalType(inner) => if j == JNull then Some(NoneValue) else DecodeValue(j, inner)
    case OpaqueType => if j == JNull then None else Some(Data(j))
    case BoolType => if j.JBool? then Some(Data(j)) else None
    case IntType => if j.JInt? then Some(Data(j)) else None
    case StringType => if j.JString? then Some(Data(j)) else None
    case FloatType => (
      match j
      case JInt(i) => Some(FloatValue(Finite(i as real)))
      case JFloat(Finite(x)) => Some(FloatValue(Finite(x)))
      case _ => None)
    case EnumType(name, members) => (
      match j
      case JString(s) => if s in members then Some(EnumValue(name, s)) else None
      case _ => None)
    case TupleOf(element) => (
      match j
      case JArray(items) => var r := DecodeAll(items, element); if r.Some? then Some(TupleValue(r.value)) else None
      case _ => None)
    case TupleType(elements) => (
      match j
      case JArray(items) =>
        if |items| != |elements| then None
        else var r := DecodeEach(items, elements); if r.Some? then Some(TupleValue(r.value)) else None
      case _ => None)
    case ListType(element) => (
      match j
      case JArray(items) => var r := DecodeAll(items, element); if r.Some? then Some(ListValue(r.value)) else None
      case _ => None)
    case DictType(element) => (
      match j
      case JObject(entries) => var r := DecodeEntries(entries, element); if r.Some? then Some(DictValue(r.value)) else None
      case _ => None)
    case ClassType(name, fields) => (
      match j
      case JObject(entries) =>
        if entries.Keys <= Keys(fields) then
          var r := DecodeFields(entries, fields);
          if r.Some? then Some(Instance(name, r.value)) else None
        else None
      case _ => None)
  }

  function DecodeAll(items: seq<Json>, t: Type): (r: Option<seq<Value>>)
    ensures r.Some? ==> |r.value| == |items|
    ensures r.Some? <==> forall i | 0 <= i < |items| :: DecodeValue(items[i], t).Some?
    ensures r.Some? ==> forall i | 0 <= i < |items| :: DecodeValue(items[i], t) == Some(r.value[i])
    decreases t, |items| + 1
  {
    if items == [] then Some([])
    else
      var first, rest := DecodeValue(items[0], t), DecodeAll(items[1..], t);
      assert items == [items[0]] + items[1..];
      if first.Some? && rest.Some? then Some([first.value] + rest.value) else None
  }

  function DecodeEach(items: seq<Json>, types: seq<Type>): (r: Option<seq<Value>>)
    requires |items| == |types|
    ensures r.Some? ==> |r.value| == |items|
    ensures r.Some? <==> forall i | 0 <= i < |items| :: DecodeValue(items[i], types[i]).Some?
    ensures r.Some? ==> forall i | 0 <= i < |items| :: DecodeValue(items[i], types[i]) == Some(r.value[i])
    decreases types, |items| + 1
  {
    if items == [] then Some([])
    else
      var first, rest := DecodeValue(items[0], types[0]), DecodeEach(items[1..], types[1..]);
      assert items == [items[0]] + items[1..] && types == [types[0]] + types[1..];
      if first.Some? && rest.Some? then Some([first.value] + rest.value) else None
  }

  function DecodeEntries(entries: map<string, Json>, t: Type): (r: Option<map<string, Value>>)
    ensures r.Some? <==> forall key | key in entries :: DecodeValue(entries[key], t).Some?
    ensures r.Some? ==> r.value.Keys == entries.Keys
    ensures r.Some? ==> forall key | key in entries :: DecodeValue(entries[key], t) == Some(r.value[key])
    decreases t, 1
  {
    if forall key | key in entries :: DecodeValue(entries[key], t).Some?
    then Some(map key | key in entries :: DecodeValue(entries[key], t).value)
    else None
  }

  function Keys(fields: seq<Field>): (r: set<string>)
    ensures forall key :: key in r <==> exists i | 0 <= i < |fields| :: key == ToCamel(fields[i].name)
  {
    set i | 0 <= i < |fields| :: ToCamel(fields[i].name)
  }

  /** One field: from its key, or else from its default. */
  function DecodeField(entries: map<string, Json>, field: Field): Option<Value>
    decreases field, 1
  {
    var key := ToCamel(field.name);
    if key in entries then DecodeValue(entries[key], field.hint) else field.fallback
  }

  function DecodeFields(entries: map<string, Json>, fields: seq<Field>): (r: Option<seq<Attribute>>)
    ensures r.Some? ==> |r.value| == |fields|
    ensures r.Some? <==> forall i | 0 <= i < |fields| :: DecodeField(entries, fields[i]).Some?
    ensures r.Some? ==> forall i | 0 <= i < |fields| ::
      r.value[i].name == fields[i].name && DecodeField(entries, fields[i]) == Some(r.value[i].value)
    decreases fields, 2
  {
    if fields == [] then Some([])
    else
      var first, rest := DecodeField(entries, fields[0]), DecodeFields(entries, fields[1..]);
      assert fields == [fields[0]] + fields[1..];
      if first.Some? && rest.Some? then Some([Attribute(fields[0].name, first.value)] + rest.value) else None
  }

  // -- well-typed values of well-formed types -----------------------------------------------

  /** Values made of JSON data only. */
  predicate IsData(v: Value) {
    match v
    case NoneValue | BoolValue(_) | IntValue(_) | FloatValue(_) | StringValue(_) => true
    case ListValue(items) => forall i | 0 <= i < |items| :: IsData(items[i])
    case DictValue(entries) => forall key | key in entries :: IsData(entries[key])
    case _ => false
  }

  predicate WellTyped(v: Value, t: Type)
    decreases t
  {
    match t
    case UnionType(nullable) => IsData(v) && (v == NoneValue ==> nullable)
    case OptionalType(inner) => v == NoneValue || WellTyped(v, inner)
    case OpaqueType => IsData(v) && v != NoneValue
    case BoolType => v.BoolValue?
    case IntType => v.IntValue?
    case FloatType => (match v case FloatValue(Finite(_)) => true case _ => false)
    case StringType => v.StringValue?
    case EnumType(name, members) => v.EnumValue? && v.enumName == name && v.member in members
    case TupleOf(element) => (
      match v
      case TupleValue(items) => forall i | 0 <= i < |items| :: WellTyped(items[i], element)
      case _ => false)
    case TupleType(elements) => (
      match v
      case TupleValue(items) =>
        |items| == |elements| && forall i | 0 <= i < |items| :: WellTyped(items[i], elements[i])
      case _ => false)
    case ListType(element) => (
      match v
      case ListValue(items) => forall i | 0 <= i < |items| :: WellTyped(items[i], element)
      case _ => false)
    case DictType(element) => (
      match v
      case DictValue(entries) => forall key | key in entries :: WellTyped(entries[key], element)
      case _ => false)
    case ClassType(name, fields) => (
      match v
      case Instance(className, attributes) =>
        && className == name && |attributes| == |fields|
        && forall i | 0 <= i < |fields| ::
          attributes[i].name == fields[i].name && WellTyped(attributes[i].value, fields[i].hint)
      case _ => false)
  }

  predicate DistinctKeys(fields: seq<Field>) {
    forall i, j | 0 <= i < j < |fields| :: ToCamel(fields[i].name) != ToCamel(fields[j].name)
  }

  /** Every class gives its fields distinct wire keys and defaults of the right type. */
  predicate WellFormed(t: Type) {
    match t
    case OptionalType(inner) => WellFormed(inner)
    case TupleOf(element) => WellFormed(element)
    case TupleType(elements) => forall i | 0 <= i < |elements| :: WellFormed(elements[i])
    case ListType(element) => WellFormed(element)
    case DictType(element) => WellFormed(element)
    case ClassType(_, fields) =>
      && DistinctKeys(fields)
      && forall i | 0 <= i < |fields| ::
        && WellFormed(fields[i].hint)
        && (fields[i].fallback.Some? ==> WellTyped(fields[i].fallback.value, fields[i].hint))
    case _ => true
  }

  // -- data survives unchanged --------------------------------------------------------------

  lemma {:induction false} DataOfWire(v: Value)
    requires IsData(v)
    ensures Data(ToWire(v)) == v
  {
    match v
    case ListValue(items) =>
      forall i | 0 <= i < |items| ensures Data(ToWire(items[i])) == items[i] { DataOfWire(items[i]); }
    case DictValue(entries) =>
      forall key | key in entries ensures Data(ToWire(entries[key])) == entries[key] { DataOfWire(entries[key]); }
    case _ =>
  }

  lemma {:induction false} DataIsData(j: Json)
    ensures IsData(Data(j))
    ensures ToWire(Data(j)) == j
  {
    match j
    case JArray(items) =>
      forall i | 0 <= i < |items| ensures IsData(Data(items[i])) && ToWire(Data(items[i])) == items[i] {
        DataIsData(items[i]);
      }
    case JObject(entries) =>
      forall key | key in entries ensures IsData(Data(entries[key])) && ToWire(Data(entries[key])) == entries[key] {
        DataIsData(entries[key]);
      }
    case _ =>
  }

  // -- the object of an instance ------------------------------------------------------------

  /** The last attribute with a key is the one found under it. */
  lemma {:induction false} LastAttributeWins(attributes: seq<Attribute>, i: nat)
    requires i < |attributes|
    requires forall j | i < j < |attributes| :: ToCamel(attributes[j].name) != ToCamel(attributes[i].name)
    ensures ToCamel(attributes[i].name) in ToWireObject(attributes)
    ensures ToWireObject(attributes)[ToCamel(attributes[i].name)] == ToWire(attributes[i].value)
  {
    hide ToWire, ToCamel;
    var last := |attributes| - 1;
    if i < last {
      assert attributes[..last][i] == attributes[i];
      LastAttributeWins(attributes[..last], i);
    }
  }

  predicate HasKey(attributes: seq<Attribute>, key: string) {
    exists i | 0 <= i < |attributes| :: key == ToCamel(attributes[i].name)
  }

  lemma {:induction false} NoOtherKeys(attributes: seq<Attribute>, key: string)
    requires key in ToWireObject(attributes)
    ensures HasKey(attributes, key)
  {
    if attributes != [] {
      var last := |attributes| - 1;
      if key != ToCamel(attributes[last].name) {
        NoOtherKeys(attributes[..last], key);
        var i :| 0 <= i < last && key == ToCamel(attributes[..last][i].name);
        assert key == ToCamel(attributes[i].name);
      }
    }
  }

  // -- decoding undoes encoding -------------------------------------------------------------

  lemma OnlyNoneIsNull(v: Value)
    ensures ToWire(v) == JNull <==> v == NoneValue
  {
  }

  /** Decoding the encoding of a well-typed value gives the value back. */
  lemma {:induction false} RoundTrip(v: Value, t: Type)
    requires WellFormed(t) && WellTyped(v, t)
    ensures DecodeValue(ToWire(v), t) == Some(v)
    decreases t, 0
  {
    OnlyNoneIsNull(v);
    match t
    case UnionType(_) => DataOfWire(v);
    case OpaqueType => DataOfWire(v);
    case OptionalType(inner) => if v != NoneValue { RoundTrip(v, inner); }
    case TupleOf(element) => RoundTripAll(v.items, element);
    case ListType(element) => RoundTripAll(v.items, element);
    case TupleType(elements) => RoundTripEach(v.items, elements);
    case DictType(element) => RoundTripEntries(v.entries, element);
    case ClassType(name, fields) => RoundTripFields(v.attributes, fields);
    case _ =>
  }

  lemma RoundTripEntries(entries: map<string, Value>, t: Type)
    requires WellFormed(t) && forall key | key in entries :: WellTyped(entries[key], t)
    ensures DecodeEntries(ToWire(DictValue(entries)).entries, t) == Some(entries)
    decreases t, 1
  {
    var wire := ToWire(DictValue(entries)).entries;
    assert wire.Keys == entries.Keys;
    forall key | key in wire ensures DecodeValue(wire[key], t) == Some(entries[key]) {
      RoundTrip(entries[key], t);
    }
    SameEntries(wire, t, entries);
  }

  lemma SameEntries(wire: map<string, Json>, t: Type, entries: map<string, Value>)
    requires wire.Keys == entries.Keys
    requires forall key | key in wire :: DecodeValue(wire[key], t) == Some(entries[key])
    ensures DecodeEntries(wire, t) == Some(entries)
  {
    assert DecodeEntries(wire, t).value == entries;
  }

  lemma RoundTripAll(items: seq<Value>, t: Type)
    requires WellFormed(t) && forall i | 0 <= i < |items| :: WellTyped(items[i], t)
    ensures DecodeAll(ToWireAll(items), t) == Some(items)
    decreases t, 1
  {
    var wire := ToWireAll(items);
    forall i | 0 <= i < |items| ensures DecodeValue(wire[i], t) == Some(items[i]) {
      RoundTrip(items[i], t);
    }
    assert DecodeAll(wire, t).value == items;
  }

  lemma RoundTripEach(items: seq<Value>, types: seq<Type>)
    requires |items| == |types|
    requires forall i | 0 <= i < |items| :: WellFormed(types[i]) && WellTyped(items[i], types[i])
    ensures DecodeEach(ToWireAll(items), types) == Some(items)
    decreases types, 1
  {
    var wire := ToWireAll(items);
    forall i | 0 <= i < |items| ensures DecodeValue(wire[i], types[i]) == Some(items[i]) {
      RoundTrip(items[i], types[i]);
    }
    assert DecodeEach(wire, types).value == items;
  }

  predicate AttributesFit(attributes: seq<Attribute>, fields: seq<Field>) {
    && |attributes| == |fields|
    && forall i | 0 <= i < |fields| ::
      && attributes[i].name == fields[i].name
      && WellFormed(fields[i].hint) && WellTyped(attributes[i].value, fields[i].hint)
  }

  lemma RoundTripFields(attributes: seq<Attribute>, fields: seq<Field>)
    requires DistinctKeys(fields) && AttributesFit(attributes, fields)
    ensures ToWireObject(attributes).Keys <= Keys(fields)
    ensures DecodeFields(ToWireObject(attributes), fields) == Some(attributes)
    decreases fields, 1
  {
    var wire := ToWireObject(attributes);
    forall key | key in wire
      ensures key in Keys(fields)
    {
      NoOtherKeys(attributes, key);
    }
    forall i | 0 <= i < |fields|
      ensures DecodeField(wire, fields[i]) == Some(attributes[i].value)
    {
      LastAttributeWins(attributes, i);
      RoundTrip(attributes[i].value, fields[i].hint);
    }
    var decoded := DecodeFields(wire, fields).value;
    assert forall i | 0 <= i < |fields| :: decoded[i] == attributes[i];
    assert decoded == attributes;
  }

  // -- what decoding yields -------------------------------------------------------------------

  /** A successful decode is a well-typed value. */
  lemma {:induction false} DecodedIsWellTyped(j: Json, t: Type)
    requires WellFormed(t) && DecodeValue(j, t).Some?
    ensures WellTyped(DecodeValue(j, t).value, t)
    decreases t, 0
  {
    match t
    case UnionType(_) => DataIsData(j);
    case OpaqueType => DataIsData(j);
    case OptionalType(inner) => if j != JNull { DecodedIsWellTyped(j, inner); }
    case TupleOf(element) => DecodedAllAreWellTyped(j, element);
    case ListType(element) => DecodedAllAreWellTyped(j, element);
    case TupleType(elements) =>
      match j {
        case JArray(items) =>
          forall i | 0 <= i < |items| ensures WellTyped(DecodeEach(items, elements).value[i], elements[i]) {
            DecodedIsWellTyped(items[i], elements[i]);
          }
      }
    case DictType(element) =>
      match j {
        case JObject(entries) =>
          forall key | key in entries ensures WellTyped(DecodeValue(entries[key], element).value, element) {
            DecodedIsWellTyped(entries[key], element);
          }
      }
    case ClassType(name, fields) =>
      match j {
        case JObject(entries) =>
          forall i | 0 <= i < |fields|
            ensures WellTyped(DecodeField(entries, fields[i]).value, fields[i].hint)
          {
            DecodedFieldIsWellTyped(entries, fields[i]);
          }
      }
    case _ =>
  }

  lemma DecodedAllAreWellTyped(j: Json, t: Type)
    requires WellFormed(t) && j.JArray? && DecodeAll(j.elements, t).Some?
    ensures forall i | 0 <= i < |j.elements| :: WellTyped(DecodeAll(j.elements, t).value[i], t)
    decreases t, 1
  {
    forall i | 0 <= i < |j.elements| ensures WellTyped(DecodeAll(j.elements, t).value[i], t) {
      DecodedIsWellTyped(j.elements[i], t);
    }
  }

  lemma DecodedFieldIsWellTyped(entries: map<string, Json>, field: Field)
    requires WellFormed(field.hint) && (field.fallback.Some? ==> WellTyped(field.fallback.value, field.hint))
    requires DecodeField(entries, field).Some?
    ensures WellTyped(DecodeField(entries, field).value, field.hint)
    decreases field, 1
  {
    var key := ToCamel(field.name);
    if key in entries { DecodedIsWellTyped(entries[key], field.hint); }
  }

  /** Encoding and decoding again changes nothing that one decode has settled: defaults are
      filled and whole numbers widened once. */
  lemma DecodeEncodeDecode(j: Json, t: Type)
    requires WellFormed(t)
    ensures var r := DecodeValue(j, t); r.Some? ==> DecodeValue(ToWire(r.value), t) == r
  {
    if DecodeValue(j, t).Some? {
      DecodedIsWellTyped(j, t);
      RoundTrip(DecodeValue(j, t).value, t);
    }
  }

  // -- when keys are distinct -----------------------------------------------------------------

  predicate SnakeNames(fields: seq<Field>) {
    forall i | 0 <= i < |fields| :: IsSnake(fields[i].name)
  }

  /** A class's wire keys are distinct exactly when its names stay distinct without the
      underscores that capitalise nothing. */
  lemma DistinctKeysIff(fields: seq<Field>)
    requires SnakeNames(fields)
    ensures DistinctKeys(fields)
      <==> forall i, j | 0 <= i < j < |fields| :: Squash(fields[i].name) != Squash(fields[j].name)
  {
    forall i, j | 0 <= i < j < |fields|
      ensures ToCamel(fields[i].name) == ToCamel(fields[j].name)
        <==> Squash(fields[i].name) == Squash(fields[j].name)
    {
      SameKeyIff(fields[i].name, fields[j].name);
    }
  }

  /** How a class type decodes an object. */
  lemma DecodeObject(entries: map<string, Json>, name: string, fields: seq<Field>)
    ensures DecodeValue(JObject(entries), ClassType(name, fields)) ==
      if entries.Keys <= Keys(fields) && DecodeFields(entries, fields).Some?
      then Some(Instance(name, DecodeFields(entries, fields).value)) else None
  {
  }

  /** Distinct names in snake_case whose later words start with a letter: such a class gives
      its fields distinct keys, so every well-typed instance round-trips. */
  lemma SnakeNamesRoundTrip(name: string, fields: seq<Field>, v: Value)
    requires SnakeNames(fields) && forall i | 0 <= i < |fields| :: WordsStartWithLetters(fields[i].name)
    requires forall i, j | 0 <= i < j < |fields| :: fields[i].name != fields[j].name
    requires FieldsAreSound(fields) && WellTyped(v, ClassType(name, fields))
    ensures DistinctKeys(fields) && RoundTrips(v, ClassType(name, fields))
  {
    forall i | 0 <= i < |fields| ensures Squash(fields[i].name) == fields[i].name {
      SquashKeepsWords(fields[i].name);
    }
    DistinctKeysIff(fields);
    RoundTrip(v, ClassType(name, fields));
  }

  predicate RoundTrips(v: Value, t: Type) {
    DecodeValue(ToWire(v), t) == Some(v)
  }

  /** All that `WellFormed` asks of a class besides distinct keys. */
  predicate FieldsAreSound(fields: seq<Field>) {
    forall i | 0 <= i < |fields| ::
      && WellFormed(fields[i].hint)
      && (fields[i].fallback.Some? ==> WellTyped(fields[i].fallback.value, fields[i].hint))
  }

  function LastWithKey(attributes: seq<Attribute>, key: string, n: nat): (k: int)
    requires n <= |attributes|
    ensures -1 <= k < n && (k >= 0 ==> ToCamel(attributes[k].name) == key)
    ensures forall j | k < j < n :: ToCamel(attributes[j].name) != key
  {
    if n == 0 then -1
    else if ToCamel(attributes[n - 1].name) == key then n - 1
    else LastWithKey(attributes, key, n - 1)
  }

  /** A key that a later attribute shares never shows attribute `i`. */
  lemma SharedKeyHidesIt(attributes: seq<Attribute>, i: nat, j: nat, v: Value)
    requires i < j < |attributes| && ToCamel(attributes[i].name) == ToCamel(attributes[j].name)
    ensures var key := ToCamel(attributes[i].name);
      var changed := attributes[i := attributes[i].(value := v)];
      && key in ToWireObject(attributes) && key in ToWireObject(changed)
      && ToWireObject(changed)[key] == ToWireObject(attributes)[key]
  {
    var k: nat := LastWithKey(attributes, ToCamel(attributes[i].name), |attributes|);
    assert k >= j;
    LastAttributeWins(attributes, k);
    LastAttributeWins(attributes[i := attributes[i].(value := v)], k);
  }

  lemma DecodesField(attributes: seq<Attribute>, name: string, fields: seq<Field>, i: nat)
    requires |attributes| == |fields| && i < |fields|
    requires RoundTrips(Instance(name, attributes), ClassType(name, fields))
    ensures DecodeField(ToWireObject(attributes), fields[i]) == Some(attributes[i].value)
  {
    DecodeObject(ToWireObject(attributes), name, fields);
  }

  /** Of two instances that differ in a field whose key a later field shares, at most one
      round-trips, whatever the fields' types and defaults. */
  lemma CollisionLosesAValue(name: string, base: seq<Attribute>, fields: seq<Field>, i: nat, j: nat, v: Value)
    requires |base| == |fields| && forall k | 0 <= k < |fields| :: base[k].name == fields[k].name
    requires i < j < |fields| && ToCamel(fields[i].name) == ToCamel(fields[j].name)
    requires v != base[i].value
    ensures var changed := base[i := base[i].(value := v)];
      !RoundTrips(Instance(name, base), ClassType(name, fields))
      || !RoundTrips(Instance(name, changed), ClassType(name, fields))
  {
    var changed := base[i := base[i].(value := v)];
    if RoundTrips(Instance(name, base), ClassType(name, fields))
       && RoundTrips(Instance(name, changed), ClassType(name, fields)) {
      SharedKeyHidesIt(base, i, j, v);
      DecodesField(base, name, fields, i);
      DecodesField(changed, name, fields, i);
      assert false;
    }
  }

  ghost predicate HasTwoValues(t: Type) {
    exists v, w :: v != w && WellTyped(v, t) && WellTyped(w, t)
  }

  lemma OtherValue(t: Type, v: Value) returns (w: Value)
    requires HasTwoValues(t)
    ensures WellTyped(w, t) && w != v
  {
    var x, y :| x != y && WellTyped(x, t) && WellTyped(y, t);
    w := if x != v then x else y;
  }

  /** The first `n` attributes of an instance. */
  lemma {:induction false} SomeAttributes(fields: seq<Field>, n: nat) returns (attributes: seq<Attribute>)
    requires n <= |fields| && forall i | 0 <= i < |fields| :: HasTwoValues(fields[i].hint)
    ensures |attributes| == n && forall i | 0 <= i < n ::
      attributes[i].name == fields[i].name && WellTyped(attributes[i].value, fields[i].hint)
  {
    hide WellTyped, HasTwoValues;
    if n == 0 {
      attributes := [];
    } else {
      var before := SomeAttributes(fields, n - 1);
      var v := OtherValue(fields[n - 1].hint, NoneValue);
      attributes := before + [Attribute(fields[n - 1].name, v)];
    }
  }

  lemma SomeInstance(name: string, fields: seq<Field>) returns (attributes: seq<Attribute>)
    requires forall i | 0 <= i < |fields| :: HasTwoValues(fields[i].hint)
    ensures WellTyped(Instance(name, attributes), ClassType(name, fields))
  {
    attributes := SomeAttributes(fields, |fields|);
  }

  lemma InstanceShape(name: string, attributes: seq<Attribute>, fields: seq<Field>)
    requires WellTyped(Instance(name, attributes), ClassType(name, fields))
    ensures |attributes| == |fields|
    ensures forall k | 0 <= k < |fields| :: attributes[k].name == fields[k].name
  {
  }

  lemma ChangedInstance(name: string, attributes: seq<Attribute>, fields: seq<Field>, i: nat, v: Value)
    requires WellTyped(Instance(name, attributes), ClassType(name, fields))
    requires i < |fields| == |attributes| && WellTyped(v, fields[i].hint)
    ensures WellTyped(Instance(name, attributes[i := attributes[i].(value := v)]), ClassType(name, fields))
  {
  }

  /** A class whose fields share a key has a well-typed instance that does not come back. */
  lemma CollisionHasAVictim(name: string, fields: seq<Field>) returns (v: Value)
    requires !DistinctKeys(fields) && forall i | 0 <= i < |fields| :: HasTwoValues(fields[i].hint)
    ensures WellTyped(v, ClassType(name, fields)) && !RoundTrips(v, ClassType(name, fields))
  {
    var i: nat, j: nat :| i < j < |fields| && ToCamel(fields[i].name) == ToCamel(fields[j].name);
    hide *;
    var base := SomeInstance(name, fields);
    InstanceShape(name, base, fields);
    var w := OtherValue(fields[i].hint, base[i].value);
    ChangedInstance(name, base, fields, i, w);
    CollisionLosesAValue(name, base, fields, i, j, w);
    var changed := base[i := base[i].(value := w)];
    v := if RoundTrips(Instance(name, base), ClassType(name, fields)) then Instance(name, changed) else Instance(name, base);
  }

  /** For every class of sound fields, each of a type with more than one value: all its
      instances round-trip exactly when its wire keys are distinct. */
  lemma RoundTripNeedsDistinctKeys(name: string, fields: seq<Field>)
    requires FieldsAreSound(fields) && forall i | 0 <= i < |fields| :: HasTwoValues(fields[i].hint)
    ensures DistinctKeys(fields)
      <==> forall v | WellTyped(v, ClassType(name, fields)) :: RoundTrips(v, ClassType(name, fields))
  {
    var t := ClassType(name, fields);
    if DistinctKeys(fields) {
      forall v | WellTyped(v, t) ensures RoundTrips(v, t) { RoundTrip(v, t); }
    } else {
      var v := CollisionHasAVictim(name, fields);
      assert WellTyped(v, t) && !RoundTrips(v, t);
    }
  }

  // -- the decoder's loop -----------------------------------------------------------------------

  /** The constructor call: given keyword arguments first, defaults for the rest. */
  function Construct(fields: seq<Field>, kwargs: map<string, Value>): (r: seq<Attribute>)
    requires forall i | 0 <= i < |fields| :: fields[i].name in kwargs || fields[i].fallback.Some?
    ensures |r| == |fields|
    ensures forall i | 0 <= i < |fields| :: r[i] == Attribute(fields[i].name,
      if fields[i].name in kwargs then kwargs[fields[i].name] else fields[i].fallback.value)
  {
    seq(|fields|, i requires 0 <= i < |fields| => Attribute(fields[i].name,
      if fields[i].name in kwargs then kwargs[fields[i].name] else fields[i].fallback.value))
  }

  /** The keyword arguments after the first `n` fields. */
  predicate Filled(entries: map<string, Json>, fields: seq<Field>, kwargs: map<string, Value>, n: nat)
    requires n <= |fields|
  {
    && (forall i | 0 <= i < n ::
          && DecodeField(entries, fields[i]).Some?
          && (fields[i].name in kwargs <==> ToCamel(fields[i].name) in entries)
          && (fields[i].name in kwargs ==> kwargs[fields[i].name] == DecodeField(entries, fields[i]).value))
    && forall i | n <= i < |fields| :: fields[i].name !in kwargs
  }

  lemma ConstructIsDecode(entries: map<string, Json>, fields: seq<Field>, kwargs: map<string, Value>)
    requires Filled(entries, fields, kwargs, |fields|)
    ensures forall i | 0 <= i < |fields| :: fields[i].name in kwargs || fields[i].fallback.Some?
    ensures DecodeFields(entries, fields) == Some(Construct(fields, kwargs))
  {
    var r, s := DecodeFields(entries, fields).value, Construct(fields, kwargs);
    assert forall i | 0 <= i < |fields| :: r[i] == s[i];
    assert r == s;
  }

  lemma FilledStep(entries: map<string, Json>, fields: seq<Field>, kwargs: map<string, Value>, n: nat)
    requires forall i, j | 0 <= i < j < |fields| :: fields[i].name != fields[j].name
    requires n < |fields| && Filled(entries, fields, kwargs, n) && DecodeField(entries, fields[n]).Some?
    ensures ToCamel(fields[n].name) !in entries ==> Filled(entries, fields, kwargs, n + 1)
    ensures ToCamel(fields[n].name) in entries ==>
      Filled(entries, fields, kwargs[fields[n].name := DecodeField(entries, fields[n]).value], n + 1)
  {
    hide DecodeField, ToCamel;
  }

  /** Decodes one object field by field, refusing it at the first field that fails. */
  method FromWire(data: Json, name: string, fields: seq<Field>) returns (r: Option<Value>)
    requires forall i, j | 0 <= i < j < |fields| :: fields[i].name != fields[j].name
    ensures r == DecodeValue(data, ClassType(name, fields))
    // No unknown key, and every field decodes from its key or else has a default.
    ensures r.Some? <==>
      && data.JObject?
      && (forall key | key in data.entries :: exists i | 0 <= i < |fields| :: key == ToCamel(fields[i].name))
      && (forall i | 0 <= i < |fields| ::
            if ToCamel(fields[i].name) in data.entries
            then DecodeValue(data.entries[ToCamel(fields[i].name)], fields[i].hint).Some?
            else fields[i].fallback.Some?)
    // Each attribute is what its key decodes to, or else its default.
    ensures r.Some? ==>
      && r.value.Instance? && r.value.className == name && |r.value.attributes| == |fields|
      && (forall i | 0 <= i < |fields| ::
            && r.value.attributes[i].name == fields[i].name
            && Some(r.value.attributes[i].value) ==
               if ToCamel(fields[i].name) in data.entries
               then DecodeValue(data.entries[ToCamel(fields[i].name)], fields[i].hint)
               else fields[i].fallback)
  {
    if !data.JObject? { return None; }
    var entries := data.entries;
    DecodeObject(entries, name, fields);
    if !(entries.Keys <= Keys(fields)) { return None; }
    var kwargs: map<string, Value> := map[];
    for n := 0 to |fields|
      invariant Filled(entries, fields, kwargs, n)
    {
      var key := ToCamel(fields[n].name);
      ghost var decoded := DecodeField(entries, fields[n]);
      if key !in entries {
        if fields[n].fallback.None? {
          assert decoded.None?;
          return None;
        }
        FilledStep(entries, fields, kwargs, n);
      } else {
        var value := DecodeValue(entries[key], fields[n].hint);
        assert value == decoded;
        if value.None? { return None; }
        FilledStep(entries, fields, kwargs, n);
        kwargs := kwargs[fields[n].name := value.value];
      }
    }
    ConstructIsDecode(entries, fields, kwargs);
    r := Some(Instance(name, Construct(fields, kwargs)));
  }
}
