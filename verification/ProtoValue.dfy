/**
 Conversion between JSON values and google.protobuf.Value messages (src/transport/grpc.ts).

 Objects are maps from their own keys. Assigning the key "__proto__" of an ordinary object creates no own
 key, so both conversions lose it.
 */
module ProtoValue {

  datatype Json =
    | Null
    | Str(s: string)
    | Num(n: real)
    | Bool(b: bool)
    | Arr(items: seq<Json>)
    | Obj(fields: map<string, Json>)

  datatype Flag = Unset | Set

  datatype StringField = NoString | AString(s: string)

  datatype NumberField = NoNumber | ANumber(n: real)

  datatype BoolField = NoBool | ABool(b: bool)

  datatype ListField = NoList | AList(values: seq<Proto>)

  datatype StructField = NoStruct | AStruct(fields: map<string, Proto>)

  /** What `fromProtoValue` may be handed: nothing, a bare value, or a message with any of its fields. */
  datatype Proto =
    | Missing
    | Bare(value: Json)
    | Message(nullValue: Flag, stringValue: StringField, numberValue: NumberField, boolValue: BoolField,
              listValue: ListField, structValue: StructField)

  const EMPTY := Message(Unset, NoString, NoNumber, NoBool, NoList, NoStruct)

  const PROTO := "__proto__"

  function ToProto(v: Json): Proto {
    match v
    case Null => EMPTY.(nullValue := Set)
    case Str(s) => EMPTY.(stringValue := AString(s))
    case Num(n) => EMPTY.(numberValue := ANumber(n))
    case Bool(b) => EMPTY.(boolValue := ABool(b))
    case Arr(items) => EMPTY.(listValue := AList(seq(|items|, i requires 0 <= i < |items| => ToProto(items[i]))))
    case Obj(fields) => EMPTY.(structValue := AStruct(map k | k in fields && k != PROTO :: ToProto(fields[k])))
  }

  function FromProto(p: Proto): Json {
    match p
    case Missing => Null
    case Bare(v) =>
      match v {
        case Str(s) => if s == "" then Null else v
        case Num(n) => if n == 0.0 then Null else v
        case Bool(b) => if !b then Null else v
        case _ => Null
      }
    case Message(nil, s, n, b, l, st) =>
      if s.AString? && s.s != "" then Str(s.s)
      else if n.ANumber? && n.n != 0.0 then Num(n.n)
      else if b.ABool? && b.b then Bool(b.b)
      else if nil == Set then Null
      else if l.AList? then Arr(seq(|l.values|, i requires 0 <= i < |l.values| => FromProto(l.values[i])))
      else if st.AStruct? then Obj(map k | k in st.fields && k != PROTO :: FromProto(st.fields[k]))
      else Null
  }

  /** `ToProto` as the source fills its record, one entry at a time. */
  method Encode(v: Json) returns (p: Proto)
    ensures p == ToProto(v)
    decreases v
  {
    match v {
      case Arr(items) =>
        var values := [];
        for i := 0 to |items|
          invariant values == seq(i, j requires 0 <= j < i => ToProto(items[j]))
        {
          var value := Encode(items[i]);
          values := values + [value];
        }
        assert values == ToProto(v).listValue.values;
        p := EMPTY.(listValue := AList(values));
      case Obj(entries) =>
        var fields: map<string, Proto> := map[];
        var keys := entries.Keys;
        while keys != {}
          invariant keys <= entries.Keys
          invariant fields == map k | k in entries && k !in keys && k != PROTO :: ToProto(entries[k])
          decreases keys
        {
          var k :| k in keys;
          var value := Encode(entries[k]);
          if k != PROTO {
            fields := fields[k := value];
          }
          keys := keys - {k};
        }
        assert fields == ToProto(v).structValue.fields;
        p := EMPTY.(structValue := AStruct(fields));
      case Null =>
        p := EMPTY.(nullValue := Set);
      case Str(s) =>
        p := EMPTY.(stringValue := AString(s));
      case Num(n) =>
        p := EMPTY.(numberValue := ANumber(n));
      case Bool(b) =>
        p := EMPTY.(boolValue := ABool(b));
    }
  }

  /** The message of a value sets one field, the one of the value's kind, and so do the messages inside; objects
      keep their keys but one. */
  ghost predicate Represents(p: Proto, v: Json)
    decreases v
  {
    match v
    case Null => p == Message(Set, NoString, NoNumber, NoBool, NoList, NoStruct)
    case Str(s) => p == Message(Unset, AString(s), NoNumber, NoBool, NoList, NoStruct)
    case Num(n) => p == Message(Unset, NoString, ANumber(n), NoBool, NoList, NoStruct)
    case Bool(b) => p == Message(Unset, NoString, NoNumber, ABool(b), NoList, NoStruct)
    case Arr(items) =>
      && p.Message? && p.listValue.AList?
      && p == Message(Unset, NoString, NoNumber, NoBool, p.listValue, NoStruct)
      && |p.listValue.values| == |items|
      && forall i | 0 <= i < |items| :: Represents(p.listValue.values[i], items[i])
    case Obj(fields) =>
      && p.Message? && p.structValue.AStruct?
      && p == Message(Unset, NoString, NoNumber, NoBool, NoList, p.structValue)
      && p.structValue.fields.Keys == fields.Keys - {"__proto__"}
      && forall k | k in fields && k != "__proto__" :: Represents(p.structValue.fields[k], fields[k])
  }

  /** The encoding of a value is the one message that represents it. */
  lemma {:induction false} EncodingIsExact(v: Json, p: Proto)
    ensures Represents(p, v) <==> p == ToProto(v)
    decreases v
  {
    match v
    case Arr(items) =>
      var values := ToProto(v).listValue.values;
      forall i, x | 0 <= i < |items|
        ensures Represents(x, items[i]) <==> x == values[i]
      {
        EncodingIsExact(items[i], x);
      }
      if Represents(p, v) {
        forall i | 0 <= i < |items|
          ensures p.listValue.values[i] == values[i]
        {
          assert Represents(p.listValue.values[i], items[i]);
        }
      }
    case Obj(fields) =>
      var encoded := ToProto(v).structValue.fields;
      forall k, x | k in fields
        ensures Represents(x, fields[k]) <==> x == ToProto(fields[k])
      {
        EncodingIsExact(fields[k], x);
      }
      assert encoded.Keys == fields.Keys - {"__proto__"};
      if Represents(p, v) {
        forall k | k in encoded
          ensures p.structValue.fields[k] == encoded[k]
        {
          assert Represents(p.structValue.fields[k], fields[k]);
        }
        assert p.structValue.fields == encoded;
      }
    case _ =>
  }

  /** Of the fields of a message the first that counts decides: a text that is not empty, a number that is not 0,
      a true flag, the null flag, a list, a struct. A default that is set is as good as unset. */
  lemma {:induction false} FieldPrecedence(p: Proto)
    requires p.Message?
    ensures FromProto(p.(stringValue := AString(""))) == FromProto(p.(stringValue := NoString))
    ensures FromProto(p.(numberValue := ANumber(0.0))) == FromProto(p.(numberValue := NoNumber))
    ensures FromProto(p.(boolValue := ABool(false))) == FromProto(p.(boolValue := NoBool))
    ensures forall s | s != "" :: FromProto(p.(stringValue := AString(s))) == Str(s)
    ensures forall n | n != 0.0 ::
              FromProto(p.(stringValue := NoString, numberValue := ANumber(n))) == Num(n)
    ensures FromProto(p.(stringValue := NoString, numberValue := NoNumber, boolValue := ABool(true))) == Bool(true)
    ensures FromProto(Message(Set, NoString, NoNumber, NoBool, p.listValue, p.structValue)) == Null
    ensures FromProto(EMPTY) == FromProto(Missing) == Null
  {
  }

  /** Lists keep their items in order, structs their keys but one; a struct beside a list does not matter. */
  lemma {:induction false} Containers(values: seq<Proto>, struct: StructField, fields: map<string, Proto>)
    ensures var v := FromProto(Message(Unset, NoString, NoNumber, NoBool, AList(values), struct));
            && v.Arr? && |v.items| == |values|
            && forall i | 0 <= i < |values| :: v.items[i] == FromProto(values[i])
    ensures var v := FromProto(Message(Unset, NoString, NoNumber, NoBool, NoList, AStruct(fields)));
            && v.Obj? && v.fields.Keys == fields.Keys - {"__proto__"}
            && forall k | k in v.fields :: v.fields[k] == FromProto(fields[k])
  {
  }

  /** Nothing, and every bare value but a text, number or flag that is not a default, is read as null. */
  lemma {:induction false} BareValues(v: Json)
    ensures FromProto(Bare(v)) == v || FromProto(Bare(v)) == Null
    ensures FromProto(Bare(v)) == v && v != Null <==>
            (v.Str? && v.s != "") || (v.Num? && v.n != 0.0) || (v.Bool? && v.b)
  {
  }

  /** Falsy leaves become null, and the key that cannot be assigned is gone. */
  function Normal(v: Json): Json {
    match v
    case Null => Null
    case Str(s) => if s == "" then Null else v
    case Num(n) => if n == 0.0 then Null else v
    case Bool(b) => if !b then Null else v
    case Arr(items) => Arr(seq(|items|, i requires 0 <= i < |items| => Normal(items[i])))
    case Obj(fields) => Obj(map k | k in fields && k != PROTO :: Normal(fields[k]))
  }

  /** No leaf is "", 0 or false, and no object has the key "__proto__". */
  predicate Clean(v: Json) {
    match v
    case Null => true
    case Str(s) => s != ""
    case Num(n) => n != 0.0
    case Bool(b) => b
    case Arr(items) => forall i | 0 <= i < |items| :: Clean(items[i])
    case Obj(fields) => PROTO !in fields && forall k | k in fields :: Clean(fields[k])
  }

  /** The round trip of any JSON value, at any nesting, is its normal form. */
  lemma {:induction false} RoundTripNormalizes(v: Json)
    ensures FromProto(ToProto(v)) == Normal(v)
  {
    match v
    case Arr(items) =>
      forall i | 0 <= i < |items|
        ensures FromProto(ToProto(items[i])) == Normal(items[i])
      {
        RoundTripNormalizes(items[i]);
      }
    case Obj(fields) =>
      forall k | k in fields
        ensures FromProto(ToProto(fields[k])) == Normal(fields[k])
      {
        RoundTripNormalizes(fields[k]);
      }
    case _ =>
  }

  lemma {:induction false} NormalIsClean(v: Json)
    ensures Clean(Normal(v))
  {
    match v
    case Arr(items) =>
      forall i | 0 <= i < |items|
        ensures Clean(Normal(items[i]))
      {
        NormalIsClean(items[i]);
      }
    case Obj(fields) =>
      forall k | k in fields
        ensures Clean(Normal(fields[k]))
      {
        NormalIsClean(fields[k]);
      }
    case _ =>
  }

  /** The round trip is the identity exactly on clean values. */
  lemma {:induction false} UnchangedIffClean(v: Json)
    ensures FromProto(ToProto(v)) == v <==> Clean(v)
  {
    RoundTripNormalizes(v);
    NormalIsClean(v);
    if Clean(v) {
      CleanIsNormal(v);
    }
  }

  lemma {:induction false} CleanIsNormal(v: Json)
    requires Clean(v)
    ensures Normal(v) == v
  {
    match v
    case Arr(items) =>
      forall i | 0 <= i < |items|
        ensures Normal(items[i]) == items[i]
      {
        CleanIsNormal(items[i]);
      }
      assert Normal(v).items == items;
    case Obj(fields) =>
      forall k | k in fields
        ensures Normal(fields[k]) == fields[k]
      {
        CleanIsNormal(fields[k]);
      }
      assert Normal(v).fields == fields;
    case _ =>
  }

  lemma {:induction false} NormalIsIdempotent(v: Json)
    ensures Normal(Normal(v)) == Normal(v)
  {
    NormalIsClean(v);
    CleanIsNormal(Normal(v));
  }

  lemma {:induction false} DecodedIsClean(p: Proto)
    ensures Clean(FromProto(p))
  {
    match p
    case Message(nil, s, n, b, l, st) =>
      if l.AList? {
        forall i | 0 <= i < |l.values|
          ensures Clean(FromProto(l.values[i]))
        {
          DecodedIsClean(l.values[i]);
        }
      }
      if st.AStruct? {
        forall k | k in st.fields
          ensures Clean(FromProto(st.fields[k]))
        {
          DecodedIsClean(st.fields[k]);
        }
      }
    case _ =>
  }

  /** The values a message can decode to, whatever fields it has, are exactly the clean ones. */
  lemma {:induction false} DecodableIffClean(v: Json)
    ensures (exists p :: FromProto(p) == v) <==> Clean(v)
  {
    if Clean(v) {
      UnchangedIffClean(v);
    }
    forall p | FromProto(p) == v
      ensures Clean(v)
    {
      DecodedIsClean(p);
    }
  }
}
