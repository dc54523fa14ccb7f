/** Translation of event payloads from JSON to protobuf structs (src/api/grpc/mod.rs:111-136). */
module Json {
  import opened Floats

  /** The integers a parsed number can hold: signed or unsigned, 64 bits. */
  type Int64 = i: int | -0x8000_0000_0000_0000 <= i < 0x1_0000_0000_0000_0000

  /** A parsed JSON number: an integer literal that fits 64 bits, or a 64-bit float. */
  datatype Number = Whole(i: Int64) | Float(f: F64)

  datatype Json =
    | Null
    | Bool(b: bool)
    | Num(n: Number)
    | Text(s: string)
    | Array(items: seq<Json>)
    | Object(fields: map<string, Json>)

  datatype Value =
    | NullValue
    | BoolValue(b: bool)
    | NumberValue(f: F64)
    | StringValue(s: string)
    | ListValue(values: seq<Value>)
    | StructValue(struct: Struct)

  datatype Struct = Struct(fields: map<string, Value>)

  // ---------- numbers ----------

  function Magnitude(i: int): nat {
    if i < 0 then -i else i
  }

  /** The float nearest to the number. */
  function AsF64(n: Number): F64 {
    match n
    case Whole(i) =>
      RoundNatIsFloat(Magnitude(i));
      var f := RoundNat(Magnitude(i)) as real;
      if i < 0 then 0.0 - f else f
    case Float(f) => f
  }

  // ---------- the translation ----------

  function ToStruct(json: Json): Struct
    decreases json, 0
  {
    if json.Object? then Struct(map k | k in json.fields :: ToValue(json.fields[k])) else Struct(map[])
  }

  function ToValue(json: Json): Value
    decreases json, 1
  {
    match json
    case Null => NullValue
    case Bool(b) => BoolValue(b)
    case Num(n) => NumberValue(AsF64(n))
    case Text(s) => StringValue(s)
    case Array(items) => ListValue(seq(|items|, i requires 0 <= i < |items| => ToValue(items[i])))
    case Object(_) => StructValue(ToStruct(json))
  }

  /** What the value is for each kind of JSON. */
  lemma ValueOfEachKind(json: Json)
    ensures match json
            case Null => ToValue(json).NullValue?
            case Bool(b) => ToValue(json).BoolValue? && (ToValue(json).b <==> b)
            case Num(n) => ToValue(json).NumberValue? && (n.Float? ==> ToValue(json).f == n.f)
            case Text(s) => ToValue(json).StringValue? && ToValue(json).s == s
            case Array(items) =>
              ToValue(json).ListValue? && |ToValue(json).values| == |items|
              && forall i :: 0 <= i < |items| ==> ToValue(json).values[i] == ToValue(items[i])
            case Object(fields) =>
              ToValue(json).StructValue? && ToValue(json).struct == ToStruct(json)
              && ToStruct(json).fields.Keys == fields.Keys
              && forall k :: k in fields ==> ToStruct(json).fields[k] == ToValue(fields[k])
    ensures !json.Object? ==> ToStruct(json).fields == map[]
  {
  }

  // ---------- reading it back ----------

  /** The value is an integer that fits 64 bits. */
  predicate IsInt64(f: real) {
    f.Floor as real == f && -0x8000_0000_0000_0000 <= f.Floor < 0x1_0000_0000_0000_0000
  }

  /** An integer that fits is read as an integer, any other value as a float. */
  function FromF64(f: F64): Number {
    if IsInt64(f) then Whole(f.Floor) else Float(f)
  }

  function FromStruct(struct: Struct): Json {
    Object(map k | k in struct.fields :: FromValue(struct.fields[k]))
  }

  function FromValue(value: Value): Json {
    match value
    case NullValue => Null
    case BoolValue(b) => Bool(b)
    case NumberValue(f) => Num(FromF64(f))
    case StringValue(s) => Text(s)
    case ListValue(values) => Array(seq(|values|, i requires 0 <= i < |values| => FromValue(values[i])))
    case StructValue(struct) => FromStruct(struct)
  }

  /** An integer with at most 53 significant bits, or a float that is not an integer of 64 bits. */
  ghost predicate Faithful(n: Number) {
    match n
    case Whole(i) => Representable(Magnitude(i))
    case Float(f) => !IsInt64(f)
  }

  ghost predicate AllFaithful(json: Json) {
    match json
    case Num(n) => Faithful(n)
    case Array(items) => forall i | 0 <= i < |items| :: AllFaithful(items[i])
    case Object(fields) => forall k | k in fields :: AllFaithful(fields[k])
    case _ => true
  }

  /** No float is nearer to an integer than the one it becomes. */
  lemma AsF64IsNearest(i: Int64, g: F64)
    ensures Abs(AsF64(Whole(i)) - i as real) <= Abs(g - i as real)
  {
    var n := Magnitude(i);
    var whole := Abs(g).Floor;
    if whole as real == Abs(g) {
      WholeFloatIsRepresentable(g, whole);
      var _, _ := RoundNatIsNearest(n, whole);
    } else {
      FractionIsSmall(g);
      assert IsScaled(MANTISSA, MANTISSA, 0);
      var _, _ := RoundNatIsNearest(n, MANTISSA);
      if n <= MANTISSA {
        assert IsScaled(n, n, 0);
        RoundNatKeeps(n);
      }
    }
  }

  lemma NumberSurvives(n: Number)
    ensures FromF64(AsF64(n)) == n <==> Faithful(n)
  {
    if n.Whole? {
      RoundNatKeeps(Magnitude(n.i));
      assert AsF64(n) == n.i as real <==> Faithful(n);
      assert (n.i as real).Floor == n.i;
    }
  }

  lemma FloatReadsBack(f: F64)
    ensures AsF64(FromF64(f)) == f
  {
    if IsInt64(f) {
      WholeFloatIsRepresentable(f, Magnitude(f.Floor));
      RoundNatKeeps(Magnitude(f.Floor));
    }
  }

  lemma {:induction false} ValueSurvives(json: Json)
    ensures FromValue(ToValue(json)) == json <==> AllFaithful(json)
    decreases json
  {
    match json
    case Num(n) => NumberSurvives(n);
    case Array(items) =>
      forall i | 0 <= i < |items| ensures FromValue(ToValue(items[i])) == items[i] <==> AllFaithful(items[i]) {
        ValueSurvives(items[i]);
      }
      var back := FromValue(ToValue(json));
      assert |back.items| == |items|;
      assert forall i :: 0 <= i < |items| ==> back.items[i] == FromValue(ToValue(items[i]));
      assert back == json <==> back.items == items;
    case Object(fields) =>
      forall k | k in fields ensures FromValue(ToValue(fields[k])) == fields[k] <==> AllFaithful(fields[k]) {
        ValueSurvives(fields[k]);
      }
      assert ToValue(json) == StructValue(ToStruct(json));
      assert FromValue(StructValue(ToStruct(json))) == FromStruct(ToStruct(json));
      var back := FromStruct(ToStruct(json));
      assert back.fields.Keys == fields.Keys;
      assert forall k :: k in fields ==> back.fields[k] == FromValue(ToValue(fields[k]));
      assert back == json <==> back.fields == fields;
    case _ =>
  }

  /** Lossless translation: a payload of any depth can be read back from its struct exactly when it is an object all
      of whose numbers survive the conversion to 64-bit floats. */
  lemma PayloadSurvives(json: Json)
    ensures FromStruct(ToStruct(json)) == json <==> json.Object? && AllFaithful(json)
  {
    if json.Object? {
      ValueSurvives(json);
    }
  }

  /** So no two such payloads share a struct. */
  lemma TranslationIsInjective(a: Json, b: Json)
    requires a.Object? && AllFaithful(a) && b.Object? && AllFaithful(b) && ToStruct(a) == ToStruct(b)
    ensures a == b
  {
    PayloadSurvives(a);
    PayloadSurvives(b);
  }

  /** Reading any value and translating it again gives the value back. */
  lemma {:induction false} ValueReadsBack(value: Value)
    ensures ToValue(FromValue(value)) == value
    decreases value
  {
    match value
    case NumberValue(f) => FloatReadsBack(f);
    case ListValue(values) =>
      forall i | 0 <= i < |values| ensures ToValue(FromValue(values[i])) == values[i] {
        ValueReadsBack(values[i]);
      }
    case StructValue(struct) =>
      forall k | k in struct.fields ensures ToValue(FromValue(struct.fields[k])) == struct.fields[k] {
        ValueReadsBack(struct.fields[k]);
      }
      assert ToStruct(FromStruct(struct)).fields == struct.fields;
    case _ =>
  }

  /** Every struct is the translation of the payload read from it. */
  lemma StructReadsBack(struct: Struct)
    ensures ToStruct(FromStruct(struct)) == struct
  {
    ValueReadsBack(StructValue(struct));
  }

  /** Every payload, of any kind, shares its struct with exactly one object whose numbers all survive, and this is
      another payload exactly when the payload itself does not survive. */
  lemma LossyPayloadsCollide(json: Json)
    ensures var twin := FromStruct(ToStruct(json));
            && twin.Object? && AllFaithful(twin) && ToStruct(twin) == ToStruct(json)
            && (twin != json <==> !(json.Object? && AllFaithful(json)))
  {
    StructReadsBack(ToStruct(json));
    PayloadSurvives(json);
    PayloadSurvives(FromStruct(ToStruct(json)));
  }
}
