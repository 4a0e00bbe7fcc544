/** Tool inputs as JSON and as the protocol's `Struct`: `struct_to_json` and `json_to_struct`. */
module JsonStruct {
  import opened Options

  datatype Json =
    | Null
    | Bool(b: bool)
    | Number(n: real)
    | String(s: string)
    | Array(items: seq<Json>)
    | Object(members: map<string, Json>)

  datatype Struct = Struct(fields: map<string, Value>)

  datatype Value = Value(kind: Option<Kind>)

  datatype Kind =
    | NullValue(code: int)
    | NumberValue(n: real)
    | StringValue(s: string)
    | BoolValue(b: bool)
    | StructValue(inner: Struct)
    | ListValue(values: seq<Value>)

  function StructToJson(s: Struct): Json {
    Object(map k | k in s.fields :: ValueToJson(s.fields[k]))
  }

  function ValueToJson(v: Value): Json {
    match v.kind
    case None => Null
    case Some(NullValue(_)) => Null
    case Some(NumberValue(n)) => Number(n)
    case Some(StringValue(s)) => String(s)
    case Some(BoolValue(b)) => Bool(b)
    case Some(StructValue(s)) => StructToJson(s)
    case Some(ListValue(values)) => Array(seq(|values|, i requires 0 <= i < |values| => ValueToJson(values[i])))
  }

  function JsonToValue(j: Json): Value
    decreases j, 1
  {
    match j
    case Null => Value(Some(NullValue(0)))
    case Bool(b) => Value(Some(BoolValue(b)))
    case Number(n) => Value(Some(NumberValue(n)))
    case String(s) => Value(Some(StringValue(s)))
    case Array(items) => Value(Some(ListValue(seq(|items|, i requires 0 <= i < |items| => JsonToValue(items[i])))))
    case Object(_) => Value(Some(StructValue(JsonToStruct(j))))
  }

  /** Anything but an object becomes an empty `Struct`. */
  function JsonToStruct(j: Json): Struct
    decreases j, 0
  {
    if j.Object? then Struct(map k | k in j.members :: JsonToValue(j.members[k])) else Struct(map[])
  }

  /** Converting JSON and back gives the same JSON. */
  lemma {:induction false} JsonSurvives(j: Json)
    ensures ValueToJson(JsonToValue(j)) == j
    ensures j.Object? ==> StructToJson(JsonToStruct(j)) == j
  {
    match j
    case Array(items) =>
      forall i | 0 <= i < |items| ensures ValueToJson(JsonToValue(items[i])) == items[i] { JsonSurvives(items[i]); }
    case Object(members) =>
      forall k | k in members ensures ValueToJson(JsonToValue(members[k])) == members[k] { JsonSurvives(members[k]); }
      assert StructToJson(JsonToStruct(j)).members == members;
    case _ =>
  }

  /** The value has a kind, the null one where it is null, and so have the values in it. */
  predicate Plain(v: Value) {
    match v.kind
    case None => false
    case Some(NullValue(code)) => code == 0
    case Some(StructValue(s)) => PlainStruct(s)
    case Some(ListValue(values)) => forall i :: 0 <= i < |values| ==> Plain(values[i])
    case _ => true
  }

  predicate PlainStruct(s: Struct) {
    forall k :: k in s.fields ==> Plain(s.fields[k])
  }

  /** Converting a value to JSON and back gives it back exactly if it is plain. */
  lemma {:induction false} PlainSurvives(v: Value)
    ensures JsonToValue(ValueToJson(v)) == v <==> Plain(v)
    decreases v
  {
    match v.kind
    case Some(StructValue(s)) => PlainStructSurvives(s);
    case Some(ListValue(values)) =>
      forall i | 0 <= i < |values| ensures JsonToValue(ValueToJson(values[i])) == values[i] <==> Plain(values[i]) {
        PlainSurvives(values[i]);
      }
      var again := JsonToValue(ValueToJson(v)).kind.value.values;
      assert |again| == |values| && forall i :: 0 <= i < |values| ==> again[i] == JsonToValue(ValueToJson(values[i]));
      if again == values {
        forall i | 0 <= i < |values| ensures Plain(values[i]) { assert again[i] == values[i]; }
      }
    case _ =>
  }

  lemma {:induction false} PlainStructSurvives(s: Struct)
    ensures JsonToStruct(StructToJson(s)) == s <==> PlainStruct(s)
    decreases s
  {
    forall k | k in s.fields ensures JsonToValue(ValueToJson(s.fields[k])) == s.fields[k] <==> Plain(s.fields[k]) {
      PlainSurvives(s.fields[k]);
    }
    var again := JsonToStruct(StructToJson(s)).fields;
    assert again.Keys == s.fields.Keys;
    assert forall k :: k in s.fields ==> again[k] == JsonToValue(ValueToJson(s.fields[k]));
    if again == s.fields {
      forall k | k in s.fields ensures Plain(s.fields[k]) { assert again[k] == s.fields[k]; }
    }
  }

  // ----- what corresponds to what

  /** The JSON value and the protocol's value say the same; a value without a kind says nothing, as null does. */
  ghost predicate SaysSame(j: Json, v: Value)
    decreases j
  {
    match j
    case Null => v.kind.None? || v.kind.value.NullValue?
    case Bool(b) => v.kind == Some(BoolValue(b))
    case Number(n) => v.kind == Some(NumberValue(n))
    case String(s) => v.kind == Some(StringValue(s))
    case Array(items) =>
      && v.kind.Some? && v.kind.value.ListValue? && |v.kind.value.values| == |items|
      && forall i :: 0 <= i < |items| ==> SaysSame(items[i], v.kind.value.values[i])
    case Object(members) =>
      && v.kind.Some? && v.kind.value.StructValue? && v.kind.value.inner.fields.Keys == members.Keys
      && forall k :: k in members ==> SaysSame(members[k], v.kind.value.inner.fields[k])
  }

  /** What JSON is converted to says the same. */
  lemma {:induction false} ToValueSaysSame(j: Json)
    ensures SaysSame(j, JsonToValue(j))
  {
    match j
    case Array(items) =>
      forall i | 0 <= i < |items| ensures SaysSame(items[i], JsonToValue(items[i])) { ToValueSaysSame(items[i]); }
    case Object(members) =>
      forall k | k in members ensures SaysSame(members[k], JsonToValue(members[k])) { ToValueSaysSame(members[k]); }
    case _ =>
  }

  /** And so does the JSON that a value is converted to. */
  lemma {:induction false} ToJsonSaysSame(v: Value)
    ensures SaysSame(ValueToJson(v), v)
    decreases v
  {
    match v.kind
    case Some(StructValue(s)) => StructSaysSame(s);
    case Some(ListValue(values)) =>
      forall i | 0 <= i < |values| ensures SaysSame(ValueToJson(values[i]), values[i]) { ToJsonSaysSame(values[i]); }
    case _ =>
  }

  lemma {:induction false} StructSaysSame(s: Struct)
    ensures SaysSame(StructToJson(s), Value(Some(StructValue(s))))
    decreases s
  {
    forall k | k in s.fields ensures SaysSame(ValueToJson(s.fields[k]), s.fields[k]) { ToJsonSaysSame(s.fields[k]); }
    assert StructToJson(s).members.Keys == s.fields.Keys;
  }
}
