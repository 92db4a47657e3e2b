/**
 The schema combinators used for resolver rows, as a small syntax with a parse interpreter, and laws that
 hold for every schema.
 */
module Schemas {
  import opened Wrappers
  import opened Text

  /** A parsed JSON value; `Undefined` is what reading a missing key gives. */
  datatype Value =
    | Undefined
    | Null
    | Bool(b: bool)
    | Num(n: real)
    | Str(s: string)
    | Arr(items: seq<Value>)
    | Obj(fields: map<string, Value>)

  datatype Schema =
    | Text(trim: bool, minLength: nat, maxLength: Option<nat>)
    | Enum(options: seq<string>)
    | Boolean
    | Number(integer: bool, min: Option<real>, max: Option<real>)
    | Array(item: Schema, maxItems: Option<nat>)
    | Nullable(inner: Schema)
    | Default(inner: Schema, value: Value)
    | Object(shape: Fields)

  /** The fields of an object schema, in order. */
  datatype Fields = End | Field(name: string, schema: Schema, rest: Fields)

  const MAX_SAFE_INTEGER: real := 9007199254740991.0

  /** The value read at a key. */
  function Get(m: map<string, Value>, key: string): Value {
    if key in m then m[key] else Undefined
  }

  predicate InRange(n: real, integer: bool, min: Option<real>, max: Option<real>) {
    && (integer ==> n.Floor as real == n && -MAX_SAFE_INTEGER <= n <= MAX_SAFE_INTEGER)
    && (min.Some? ==> min.value <= n)
    && (max.Some? ==> n <= max.value)
  }

  predicate LengthOk(n: nat, min: nat, max: Option<nat>) {
    min <= n && (max.Some? ==> n <= max.value)
  }

  /** The parsed value, or `None` where the schema reports issues. */
  function Parse(s: Schema, v: Value): Option<Value>
    decreases s, 0
  {
    match s
    case Text(trim, min, max) =>
      if v.Str? then
        var t := if trim then Trim(v.s) else v.s;
        if LengthOk(|t|, min, max) then Some(Str(t)) else None
      else None
    case Enum(options) => if v.Str? && v.s in options then Some(v) else None
    case Boolean => if v.Bool? then Some(v) else None
    case Number(integer, min, max) => if v.Num? && InRange(v.n, integer, min, max) then Some(v) else None
    case Array(item, max) =>
      if v.Arr? && LengthOk(|v.items|, 0, max) then
        var items := ParseItems(item, v.items);
        if items.Some? then Some(Arr(items.value)) else None
      else None
    case Nullable(inner) => if v == Null then Some(Null) else Parse(inner, v)
    case Default(inner, value) => if v == Undefined then Some(value) else Parse(inner, v)
    case Object(shape) =>
      if v.Obj? then
        var fields := ParseFields(shape, v.fields);
        if fields.Some? then Some(Obj(fields.value)) else None
      else None
  }

  function ParseItems(item: Schema, items: seq<Value>): Option<seq<Value>>
    decreases item, |items| + 1
  {
    if items == [] then Some([])
    else
      var head, tail := Parse(item, items[0]), ParseItems(item, items[1..]);
      if head.Some? && tail.Some? then Some([head.value] + tail.value) else None
  }

  /** Unknown keys are stripped; a missing key is parsed as `Undefined`. */
  function ParseFields(shape: Fields, m: map<string, Value>): Option<map<string, Value>>
    decreases shape, 0
  {
    match shape
    case End => Some(map[])
    case Field(name, schema, rest) =>
      var value, more := Parse(schema, Get(m, name)), ParseFields(rest, m);
      if value.Some? && more.Some? then Some(more.value[name := value.value]) else None
  }

  // ----- well-formed schemas

  function Names(shape: Fields): set<string> {
    match shape
    case End => {}
    case Field(name, _, rest) => {name} + Names(rest)
  }

  /** Names are distinct, and a default is itself a parsed value. */
  predicate WellFormed(s: Schema) {
    match s
    case Array(item, _) => WellFormed(item)
    case Nullable(inner) => WellFormed(inner)
    case Default(inner, value) => WellFormed(inner) && value != Undefined && Parse(inner, value) == Some(value)
    case Object(shape) => WellFormedFields(shape)
    case _ => true
  }

  predicate WellFormedFields(shape: Fields) {
    match shape
    case End => true
    case Field(name, schema, rest) => name !in Names(rest) && WellFormed(schema) && WellFormedFields(rest)
  }

  // ----- parsing twice is parsing once

  lemma {:induction false} TrimTwice(s: string)
    ensures Trim(Trim(s)) == Trim(s)
  {
    TrimStartDone(s);
    TrimEndDone(TrimStart(s));
  }

  lemma {:induction false} TrimStartDone(s: string)
    ensures TrimStart(s) != "" ==> !IsSpace(TrimStart(s)[0])
  {
    if s != "" && IsSpace(s[0]) { TrimStartDone(s[1..]); }
  }

  lemma {:induction false} TrimEndDone(s: string)
    requires s != "" ==> !IsSpace(s[0])
    ensures TrimStart(TrimEnd(s)) == TrimEnd(s) && TrimEnd(TrimEnd(s)) == TrimEnd(s)
    decreases |s|
  {
    if s != "" && IsSpace(s[|s| - 1]) { TrimEndDone(s[..|s| - 1]); }
  }

  /** A parsed value parses to itself, for every schema. */
  lemma {:induction false} ParseIsIdempotent(s: Schema, v: Value)
    requires WellFormed(s) && Parse(s, v).Some?
    ensures Parse(s, Parse(s, v).value) == Parse(s, v)
    ensures Parse(s, v).value != Undefined
    decreases s, 0
  {
    match s
    case Text(trim, _, _) => if trim { TrimTwice(v.s); }
    case Array(item, _) => ParseItemsIsIdempotent(item, v.items);
    case Nullable(inner) => if v != Null { ParseIsIdempotent(inner, v); }
    case Default(inner, value) => if v != Undefined { ParseIsIdempotent(inner, v); }
    case Object(shape) => ParseFieldsIsIdempotent(shape, v.fields, ParseFields(shape, v.fields).value);
    case _ =>
  }

  lemma {:induction false} ParseItemsIsIdempotent(item: Schema, items: seq<Value>)
    requires WellFormed(item) && ParseItems(item, items).Some?
    ensures ParseItems(item, ParseItems(item, items).value) == ParseItems(item, items)
    ensures |ParseItems(item, items).value| == |items|
    decreases item, |items| + 1
  {
    if items != [] {
      ParseIsIdempotent(item, items[0]);
      ParseItemsIsIdempotent(item, items[1..]);
      assert ParseItems(item, items).value[1..] == ParseItems(item, items[1..]).value;
    }
  }

  ghost predicate AgreeOn(a: map<string, Value>, b: map<string, Value>, names: set<string>) {
    forall k | k in names :: Get(a, k) == Get(b, k)
  }

  /** Any record that agrees with a parsed one on the fields of the shape parses to it. */
  lemma {:induction false} ParseFieldsIsIdempotent(shape: Fields, m: map<string, Value>, other: map<string, Value>)
    requires WellFormedFields(shape) && ParseFields(shape, m).Some?
    requires AgreeOn(other, ParseFields(shape, m).value, Names(shape))
    ensures ParseFields(shape, m).value.Keys == Names(shape)
    ensures ParseFields(shape, other) == ParseFields(shape, m)
    decreases shape, 0
  {
    match shape
    case End =>
    case Field(name, schema, rest) =>
      var r, tail := ParseFields(shape, m).value, ParseFields(rest, m).value;
      ParseIsIdempotent(schema, Get(m, name));
      KeysAreNames(rest, m);
      assert r == tail[name := Parse(schema, Get(m, name)).value];
      assert Get(other, name) == r[name];
      forall k | k in Names(rest) ensures Get(other, k) == Get(tail, k) {
        assert Get(other, k) == Get(r, k);
      }
      ParseFieldsIsIdempotent(rest, m, other);
  }

  /** Parsing reads no other fields than those of the shape. */
  lemma {:induction false} ParseFieldsReadsNames(shape: Fields, a: map<string, Value>, b: map<string, Value>)
    requires AgreeOn(a, b, Names(shape))
    ensures ParseFields(shape, a) == ParseFields(shape, b)
  {
    match shape
    case End =>
    case Field(name, _, rest) =>
      assert Get(a, name) == Get(b, name);
      ParseFieldsReadsNames(rest, a, b);
  }

  /** The result has exactly the fields of the shape. */
  lemma {:induction false} KeysAreNames(shape: Fields, m: map<string, Value>)
    requires ParseFields(shape, m).Some?
    ensures ParseFields(shape, m).value.Keys == Names(shape)
  {
    match shape
    case End =>
    case Field(_, _, rest) => KeysAreNames(rest, m);
  }

  // ----- omitting fields

  /** `schema.omit(keys)` on the shape. */
  function Omit(shape: Fields, keys: set<string>): Fields {
    match shape
    case End => End
    case Field(name, schema, rest) =>
      if name in keys then Omit(rest, keys) else Field(name, schema, Omit(rest, keys))
  }

  /** The fields `omit` leaves out. */
  function Pick(shape: Fields, keys: set<string>): Fields {
    match shape
    case End => End
    case Field(name, schema, rest) =>
      if name in keys then Field(name, schema, Pick(rest, keys)) else Pick(rest, keys)
  }

  lemma {:induction false} OmitNames(shape: Fields, keys: set<string>)
    ensures Names(Omit(shape, keys)) == Names(shape) - keys
    ensures Names(Pick(shape, keys)) == Names(shape) * keys
    ensures WellFormedFields(shape) ==> WellFormedFields(Omit(shape, keys)) && WellFormedFields(Pick(shape, keys))
  {
    match shape
    case End =>
    case Field(_, _, rest) => OmitNames(rest, keys);
  }

  /** The omit law, for every shape: the full shape accepts a record exactly when the omitted shape and the
      left-out fields both do, and then its result is the two results together. */
  lemma {:induction false} OmitLaw(shape: Fields, keys: set<string>, m: map<string, Value>)
    requires WellFormedFields(shape)
    ensures var full := ParseFields(shape, m);
            var kept, left := ParseFields(Omit(shape, keys), m), ParseFields(Pick(shape, keys), m);
            && (full.Some? <==> kept.Some? && left.Some?)
            && (full.Some? ==> full.value == kept.value + left.value
                               && full.value - keys == kept.value && left.value.Keys <= keys)
  {
    var full, kept := ParseFields(shape, m), ParseFields(Omit(shape, keys), m);
    match shape
    case End =>
      assert full.value - keys == kept.value;
    case Field(name, schema, rest) =>
      OmitLaw(rest, keys, m);
      OmitNames(rest, keys);
      if full.Some? {
        KeysAreNames(rest, m);
        KeysAreNames(Omit(rest, keys), m);
        KeysAreNames(Pick(rest, keys), m);
        OmitStep(rest, keys, m, name, Parse(schema, Get(m, name)).value);
      }
  }

  lemma OmitStep(rest: Fields, keys: set<string>, m: map<string, Value>, name: string, value: Value)
    requires ParseFields(rest, m).Some?
    requires ParseFields(Omit(rest, keys), m).Some? && ParseFields(Pick(rest, keys), m).Some?
    requires var r := ParseFields(rest, m).value;
      var kept, left := ParseFields(Omit(rest, keys), m).value, ParseFields(Pick(rest, keys), m).value;
      name !in r && r == kept + left && r - keys == kept && left.Keys <= keys
    ensures var r := ParseFields(rest, m).value;
      var kept, left := ParseFields(Omit(rest, keys), m).value, ParseFields(Pick(rest, keys), m).value;
      if name in keys then r[name := value] == kept + left[name := value] && r[name := value] - keys == kept
      else r[name := value] == kept[name := value] + left && r[name := value] - keys == kept[name := value]
  {}

  // ----- fields of a parsed record

  function SchemaOf(shape: Fields, name: string): Schema
    requires name in Names(shape)
  {
    if shape.name == name then shape.schema else SchemaOf(shape.rest, name)
  }

  /** Each field of a parsed record is what its own schema makes of the value read. */
  lemma {:induction false} FieldIsParsed(shape: Fields, m: map<string, Value>, name: string)
    requires WellFormedFields(shape) && ParseFields(shape, m).Some? && name in Names(shape)
    ensures name in ParseFields(shape, m).value
    ensures Parse(SchemaOf(shape, name), Get(m, name)) == Some(ParseFields(shape, m).value[name])
    ensures WellFormed(SchemaOf(shape, name))
  {
    KeysAreNames(shape, m);
    if shape.name != name { FieldIsParsed(shape.rest, m, name); }
  }

  /** A record with a field its schema refuses is refused. */
  lemma {:induction false} RefusedField(shape: Fields, m: map<string, Value>, name: string)
    requires WellFormedFields(shape) && name in Names(shape)
    requires Parse(SchemaOf(shape, name), Get(m, name)).None?
    ensures ParseFields(shape, m).None?
  {
    if ParseFields(shape, m).Some? { FieldIsParsed(shape, m, name); }
  }

  /** Every field of the shape is there and parses to itself. */
  predicate SelfParsing(shape: Fields, m: map<string, Value>) {
    match shape
    case End => true
    case Field(name, schema, rest) =>
      name in m && Parse(schema, m[name]) == Some(m[name]) && SelfParsing(rest, m)
  }

  lemma {:induction false} SelfParsingParses(shape: Fields, m: map<string, Value>)
    requires SelfParsing(shape, m)
    ensures ParseFields(shape, m).Some?
    ensures forall k | k in Names(shape) ::
      k in m && k in ParseFields(shape, m).value && ParseFields(shape, m).value[k] == m[k]
  {
    match shape
    case End =>
    case Field(_, _, rest) => SelfParsingParses(rest, m);
  }

  /** A record of exactly the fields of the shape, each parsing to itself, parses to itself. */
  lemma {:induction false} SelfParsingIsFixed(shape: Fields, m: map<string, Value>)
    requires SelfParsing(shape, m) && m.Keys <= Names(shape)
    ensures ParseFields(shape, m) == Some(m)
  {
    SelfParsingParses(shape, m);
    KeysAreNames(shape, m);
    var r := ParseFields(shape, m).value;
    assert r.Keys == m.Keys;
    assert r == m;
  }

  // ----- filling in omitted fields

  /** Parse a record with some fields omitted, then add values of those fields that parse to themselves: the
      full shape accepts the result as it is, and leaving the added fields out again gives the parse back. */
  lemma {:induction false} FillingLaw(shape: Fields, keys: set<string>, m: map<string, Value>, fill: map<string, Value>)
    requires WellFormedFields(shape) && ParseFields(Omit(shape, keys), m).Some?
    requires ParseFields(Pick(shape, keys), fill) == Some(fill)
    ensures var kept := ParseFields(Omit(shape, keys), m).value;
            ParseFields(shape, kept + fill) == Some(kept + fill) && (kept + fill) - keys == kept
  {
    var kept := ParseFields(Omit(shape, keys), m).value;
    var full := kept + fill;
    OmitNames(shape, keys);
    KeysAreNames(Omit(shape, keys), m);
    KeysAreNames(Pick(shape, keys), fill);
    ParseFieldsIsIdempotent(Omit(shape, keys), m, full);
    ParseFieldsIsIdempotent(Pick(shape, keys), fill, full);
    OmitLaw(shape, keys, full);
    assert full - keys == kept;
  }

  // ----- what the parsed values are

  predicate Trimmed(t: string) { t != "" ==> !IsSpace(t[0]) && !IsSpace(t[|t| - 1]) }

  /** A value is already of the form the schema describes: no white space to trim, no unknown key, nothing missing. */
  predicate Conforms(s: Schema, v: Value)
    decreases s, 1
  {
    match s
    case Text(trim, min, max) => v.Str? && LengthOk(|v.s|, min, max) && (trim ==> Trimmed(v.s))
    case Enum(options) => v.Str? && v.s in options
    case Boolean => v.Bool?
    case Number(integer, min, max) => v.Num? && InRange(v.n, integer, min, max)
    case Array(item, max) =>
      v.Arr? && LengthOk(|v.items|, 0, max) && forall k | 0 <= k < |v.items| :: Conforms(item, v.items[k])
    case Nullable(inner) => v == Null || Conforms(inner, v)
    case Default(inner, _) => v != Undefined && Conforms(inner, v)
    case Object(shape) => v.Obj? && v.fields.Keys == Names(shape) && ConformsFields(shape, v.fields)
  }

  predicate ConformsFields(shape: Fields, m: map<string, Value>)
    decreases shape, 0
  {
    match shape
    case End => true
    case Field(name, schema, rest) => name in m && Conforms(schema, m[name]) && ConformsFields(rest, m)
  }

  lemma {:induction false} TrimFixed(t: string)
    ensures Trim(t) == t <==> Trimmed(t)
  {
    TrimStartDone(t);
    TrimEndShort(TrimStart(t));
    if Trim(t) == t {
      assert |TrimStart(t)| == |t|;
      TrimStartShort(t);
    }
  }

  lemma {:induction false} TrimStartShort(t: string)
    ensures |TrimStart(t)| == |t| ==> TrimStart(t) == t && (t != "" ==> !IsSpace(t[0]))
  {}

  lemma {:induction false} TrimEndShort(t: string)
    ensures |TrimEnd(t)| == |t| ==> TrimEnd(t) == t && (t != "" ==> !IsSpace(t[|t| - 1]))
  {}

  /** The values a schema leaves as they are, are exactly the conforming ones. */
  lemma {:induction false} FixedIffConforms(s: Schema, v: Value)
    requires WellFormed(s)
    ensures Parse(s, v) == Some(v) <==> Conforms(s, v)
    decreases s, 1
  {
    match s
    case Text(trim, _, _) => if v.Str? { TrimFixed(v.s); }
    case Array(item, _) => if v.Arr? { ItemsFixedIffConform(item, v.items); }
    case Nullable(inner) => FixedIffConforms(inner, v);
    case Default(inner, value) => FixedIffConforms(inner, v);
    case Object(shape) => if v.Obj? { FieldsFixedIffConform(shape, v.fields); }
    case _ =>
  }

  lemma {:induction false} ItemsFixedIffConform(item: Schema, items: seq<Value>)
    requires WellFormed(item)
    ensures ParseItems(item, items) == Some(items) <==> forall k | 0 <= k < |items| :: Conforms(item, items[k])
    decreases item, |items| + 2
  {
    if items != [] {
      FixedIffConforms(item, items[0]);
      ItemsFixedIffConform(item, items[1..]);
      assert forall k | 0 < k < |items| :: items[k] == items[1..][k - 1];
      if ParseItems(item, items) == Some(items) {
        var head, tail := Parse(item, items[0]).value, ParseItems(item, items[1..]).value;
        assert [head] + tail == items;
        assert items[0] == ([head] + tail)[0] && items[1..] == ([head] + tail)[1..];
      }
      if forall k | 0 <= k < |items| :: Conforms(item, items[k]) {
        assert [items[0]] + items[1..] == items;
      }
    }
  }

  lemma {:induction false} FieldsFixedIffConform(shape: Fields, m: map<string, Value>)
    requires WellFormedFields(shape)
    ensures ParseFields(shape, m) == Some(m) <==> m.Keys == Names(shape) && ConformsFields(shape, m)
    decreases shape, 1
  {
    SelfParsingIffConforms(shape, m);
    if ParseFields(shape, m) == Some(m) {
      KeysAreNames(shape, m);
      ParsedIsSelfParsing(shape, m);
    } else if m.Keys == Names(shape) && ConformsFields(shape, m) {
      SelfParsingIsFixed(shape, m);
    }
  }

  lemma {:induction false} SelfParsingIffConforms(shape: Fields, m: map<string, Value>)
    requires WellFormedFields(shape)
    ensures SelfParsing(shape, m) <==> ConformsFields(shape, m)
    decreases shape, 0
  {
    match shape
    case End =>
    case Field(name, schema, rest) =>
      if name in m { FixedIffConforms(schema, m[name]); }
      SelfParsingIffConforms(rest, m);
  }

  /** If every field read is the field parsed, the record is self-parsing. */
  lemma {:induction false} ParsedIsSelfParsing(shape: Fields, m: map<string, Value>)
    requires WellFormedFields(shape) && ParseFields(shape, m).Some?
    requires forall k | k in Names(shape) ::
      k in m && k in ParseFields(shape, m).value && ParseFields(shape, m).value[k] == m[k]
    ensures SelfParsing(shape, m)
  {
    match shape
    case End =>
    case Field(name, schema, rest) =>
      KeysAreNames(rest, m);
      ParsedIsSelfParsing(rest, m);
  }

  /** Every parsed value conforms. */
  lemma {:induction false} ParsedConforms(s: Schema, v: Value)
    requires WellFormed(s) && Parse(s, v).Some?
    ensures Conforms(s, Parse(s, v).value)
  {
    ParseIsIdempotent(s, v);
    FixedIffConforms(s, Parse(s, v).value);
  }
}
