/**
 What parsing means, apart from how it is done: which value a schema reads a value as, and which values it refuses.
 */
module SchemaReadings {
  import opened Wrappers
  import opened Text
  import opened Schemas

  // ----- trimming

  predicate White(s: string) { forall k | 0 <= k < |s| :: s[k] in WHITE_SPACE }

  /** Nothing to trim. */
  predicate Tight(t: string) { t != "" ==> t[0] !in WHITE_SPACE && t[|t| - 1] !in WHITE_SPACE }

  /** `t` is `s` without the white space around it. */
  ghost predicate TrimsTo(s: string, t: string) {
    (exists a, b :: s == a + t + b && White(a) && White(b)) && Tight(t)
  }

  predicate Blank(s: string) { forall k | 0 <= k < |s| :: IsSpace(s[k]) }

  lemma WhiteIsBlank(s: string)
    ensures White(s) <==> Blank(s)
  {
    forall k | 0 <= k < |s| ensures IsSpace(s[k]) <==> s[k] in WHITE_SPACE { SpaceIsListed(s[k]); }
  }

  lemma TightIsTrimmed(t: string)
    ensures Tight(t) <==> Trimmed(t)
  {
    if t != "" {
      SpaceIsListed(t[0]);
      SpaceIsListed(t[|t| - 1]);
    }
  }

  lemma {:induction false} TrimStartSkips(a: string, s: string)
    requires Blank(a)
    ensures TrimStart(a + s) == TrimStart(s)
  {
    if a == "" {
      assert a + s == s;
    } else {
      assert (a + s)[1..] == a[1..] + s;
      TrimStartSkips(a[1..], s);
    }
  }

  lemma {:induction false} TrimEndSkips(s: string, b: string)
    requires Blank(b)
    ensures TrimEnd(s + b) == TrimEnd(s)
    decreases |b|
  {
    if b == "" {
      assert s + b == s;
    } else {
      var n := |b| - 1;
      assert (s + b)[..|s + b| - 1] == s + b[..n];
      TrimEndSkips(s, b[..n]);
    }
  }

  lemma {:induction false} TrimStartParts(s: string) returns (a: string)
    ensures s == a + TrimStart(s) && Blank(a)
  {
    a := "";
    if s != "" && IsSpace(s[0]) {
      a := TrimStartParts(s[1..]);
      a := [s[0]] + a;
    }
  }

  lemma {:induction false} TrimEndParts(s: string) returns (b: string)
    ensures s == TrimEnd(s) + b && Blank(b)
    ensures TrimEnd(s) != "" ==> !IsSpace(TrimEnd(s)[|TrimEnd(s)| - 1])
    decreases |s|
  {
    b := "";
    if s != "" && IsSpace(s[|s| - 1]) {
      b := TrimEndParts(s[..|s| - 1]);
      b := b + [s[|s| - 1]];
    }
  }

  lemma TrimCuts(a: string, t: string, b: string)
    requires Blank(a) && Blank(b) && Trimmed(t)
    ensures Trim(a + t + b) == t
  {
    assert a + t + b == a + (t + b);
    TrimStartSkips(a, t + b);
    if t == "" {
      assert t + b == b + "";
      TrimStartSkips(b, "");
    } else {
      TrimEndSkips(t, b);
    }
  }

  lemma TrimParts(s: string) returns (a: string, b: string)
    ensures s == a + Trim(s) + b && Blank(a) && Blank(b) && Trimmed(Trim(s))
  {
    a := TrimStartParts(s);
    b := TrimEndParts(TrimStart(s));
    TrimStartDone(s);
    if Trim(s) != "" { assert Trim(s)[0] == TrimStart(s)[0]; }
    Regroup(s, a, TrimStart(s), Trim(s), b);
  }

  lemma Regroup(s: string, a: string, rest: string, t: string, b: string)
    requires s == a + rest && rest == t + b
    ensures s == a + t + b
  {}

  /** Trimming takes away the white space around a text, and nothing else. */
  lemma {:induction false} TrimIs(s: string, t: string)
    ensures TrimsTo(s, t) <==> t == Trim(s)
  {
    TightIsTrimmed(t);
    if TrimsTo(s, t) {
      var a, b :| s == a + t + b && White(a) && White(b);
      WhiteIsBlank(a);
      WhiteIsBlank(b);
      TrimCuts(a, t, b);
    }
    if t == Trim(s) {
      var a, b := TrimParts(s);
      WhiteIsBlank(a);
      WhiteIsBlank(b);
    }
  }

  // ----- what a schema reads a value as

  predicate Within(n: nat, min: nat, max: Option<nat>) { min <= n && (max == None || n <= max.value) }

  /** A whole number of at most 53 bits. */
  predicate SafeInteger(x: real) {
    x == x.Floor as real && -9007199254740991 <= x.Floor <= 9007199254740991
  }

  /** The schema accepts `v` and makes `r` of it. */
  ghost predicate Reads(s: Schema, v: Value, r: Value)
    decreases s, 0
  {
    match s
    case Text(trim, min, max) =>
      && v.Str? && r.Str? && Within(|r.s|, min, max)
      && if trim then TrimsTo(v.s, r.s) else r.s == v.s
    case Enum(options) => v.Str? && v.s in options && r == v
    case Boolean => v.Bool? && r == v
    case Number(integer, min, max) =>
      && v.Num? && r == v && (integer ==> SafeInteger(v.n))
      && (min == None || v.n >= min.value) && (max == None || v.n <= max.value)
    case Array(item, max) =>
      && v.Arr? && r.Arr? && |r.items| == |v.items| && Within(|v.items|, 0, max)
      && forall k | 0 <= k < |v.items| :: Reads(item, v.items[k], r.items[k])
    case Nullable(inner) => if v == Null then r == Null else Reads(inner, v, r)
    case Default(inner, value) => if v == Undefined then r == value else Reads(inner, v, r)
    case Object(shape) => v.Obj? && r.Obj? && r.fields.Keys == Names(shape) && ReadsFields(shape, v.fields, r.fields)
  }

  /** Each field of the shape is read from its key, a missing one from `Undefined`. */
  ghost predicate ReadsFields(shape: Fields, m: map<string, Value>, r: map<string, Value>)
    decreases shape, 0
  {
    match shape
    case End => true
    case Field(name, schema, rest) =>
      && name in r && ReadsFields(rest, m, r)
      && Reads(schema, if name in m then m[name] else Undefined, r[name])
  }

  lemma SafeIs(x: real)
    ensures SafeInteger(x) <==> x.Floor as real == x && -MAX_SAFE_INTEGER <= x <= MAX_SAFE_INTEGER
  {}

  /** Parsing gives exactly the value the schema reads, for every schema; it refuses what the schema cannot read. */
  lemma {:induction false} ParseIff(s: Schema, v: Value, r: Value)
    requires WellFormed(s)
    ensures Parse(s, v) == Some(r) <==> Reads(s, v, r)
    decreases s, 0
  {
    match s
    case Text(trim, _, _) => if v.Str? && r.Str? { TrimIs(v.s, r.s); }
    case Number(_, _, _) => if v.Num? { SafeIs(v.n); }
    case Array(item, _) => if v.Arr? && r.Arr? { ParseItemsIff(item, v.items, r.items); }
    case Nullable(inner) => if v != Null { ParseIff(inner, v, r); }
    case Default(inner, value) => if v != Undefined { ParseIff(inner, v, r); }
    case Object(shape) => if v.Obj? && r.Obj? { ParseFieldsIff(shape, v.fields, r.fields); }
    case _ =>
  }

  lemma {:induction false} ParseItemsIff(item: Schema, items: seq<Value>, r: seq<Value>)
    requires WellFormed(item)
    ensures ParseItems(item, items) == Some(r)
       <==> |r| == |items| && forall k | 0 <= k < |items| :: Reads(item, items[k], r[k])
    decreases item, |items| + 1
  {
    if items != [] && |r| == |items| {
      ParseIff(item, items[0], r[0]);
      ParseItemsIff(item, items[1..], r[1..]);
      assert r == [r[0]] + r[1..];
    } else if ParseItems(item, items).Some? {
      ParsedLength(item, items);
    }
  }

  lemma {:induction false} ParsedLength(item: Schema, items: seq<Value>)
    requires ParseItems(item, items).Some?
    ensures |ParseItems(item, items).value| == |items|
  {
    if items != [] { ParsedLength(item, items[1..]); }
  }

  lemma {:induction false} ParseFieldsIff(shape: Fields, m: map<string, Value>, r: map<string, Value>)
    requires WellFormedFields(shape)
    ensures ParseFields(shape, m) == Some(r) <==> r.Keys == Names(shape) && ReadsFields(shape, m, r)
    decreases shape, 0
  {
    match shape
    case End =>
    case Field(name, schema, rest) =>
      if name in r {
        ParseIff(schema, Get(m, name), r[name]);
        ParseFieldsIff(rest, m, r - {name});
        ReadsOthers(rest, m, r, r - {name});
        if ParseFields(rest, m).Some? { KeysAreNames(rest, m); }
        assert r == (r - {name})[name := r[name]];
        if ParseFields(shape, m) == Some(r) { assert ParseFields(rest, m).value == r - {name}; }
      }
  }

  lemma {:induction false} ReadsOthers(
    shape: Fields, m: map<string, Value>, a: map<string, Value>, b: map<string, Value>)
    requires forall k | k in Names(shape) :: Get(a, k) == Get(b, k) && (k in a <==> k in b)
    ensures ReadsFields(shape, m, a) <==> ReadsFields(shape, m, b)
  {
    match shape
    case End =>
    case Field(name, _, rest) =>
      assert Get(a, name) == Get(b, name);
      ReadsOthers(rest, m, a, b);
  }

  // ----- what a schema refuses

  ghost predicate Refuses(s: Schema, v: Value)
    decreases s, 0
  {
    match s
    case Text(trim, min, max) =>
      !v.Str? || forall t | (if trim then TrimsTo(v.s, t) else t == v.s) :: !Within(|t|, min, max)
    case Enum(options) => !v.Str? || v.s !in options
    case Boolean => !v.Bool?
    case Number(integer, min, max) =>
      || !v.Num? || (integer && !SafeInteger(v.n))
      || (min.Some? && v.n < min.value) || (max.Some? && v.n > max.value)
    case Array(item, max) =>
      || !v.Arr? || (max.Some? && |v.items| > max.value)
      || exists k :: 0 <= k < |v.items| && Refuses(item, v.items[k])
    case Nullable(inner) => v != Null && Refuses(inner, v)
    case Default(inner, value) => v != Undefined && Refuses(inner, v)
    case Object(shape) => !v.Obj? || RefusesField(shape, v.fields)
  }

  ghost predicate RefusesField(shape: Fields, m: map<string, Value>)
    decreases shape, 0
  {
    match shape
    case End => false
    case Field(name, schema, rest) =>
      Refuses(schema, if name in m then m[name] else Undefined) || RefusesField(rest, m)
  }

  /** What is refused, for every schema.  So `null` is refused at a default whose inner schema refuses it. */
  lemma {:induction false} RefusedIff(s: Schema, v: Value)
    ensures Parse(s, v) == None <==> Refuses(s, v)
    decreases s, 0
  {
    match s
    case Text(trim, min, max) => if v.Str? { TextRefusedIff(trim, min, max, v.s); }
    case Number(_, _, _) => if v.Num? { SafeIs(v.n); }
    case Array(item, _) => if v.Arr? { ItemsRefusedIff(item, v.items); }
    case Nullable(inner) => if v != Null { RefusedIff(inner, v); }
    case Default(inner, value) => if v != Undefined { RefusedIff(inner, v); }
    case Object(shape) => if v.Obj? { FieldsRefusedIff(shape, v.fields); }
    case _ =>
  }

  lemma TextRefusedIff(trim: bool, min: nat, max: Option<nat>, s: string)
    ensures Parse(Schema.Text(trim, min, max), Str(s)) == None <==> Refuses(Schema.Text(trim, min, max), Str(s))
  {
    if trim {
      forall t ensures TrimsTo(s, t) <==> t == Trim(s) { TrimIs(s, t); }
    }
  }

  lemma {:induction false} ItemsRefusedIff(item: Schema, items: seq<Value>)
    ensures ParseItems(item, items) == None <==> exists k :: 0 <= k < |items| && Refuses(item, items[k])
    decreases item, |items| + 1
  {
    if items != [] {
      RefusedIff(item, items[0]);
      ItemsRefusedIff(item, items[1..]);
      assert forall k | 1 <= k < |items| :: items[k] == items[1..][k - 1];
    }
  }

  lemma {:induction false} FieldsRefusedIff(shape: Fields, m: map<string, Value>)
    ensures ParseFields(shape, m) == None <==> RefusesField(shape, m)
    decreases shape, 0
  {
    match shape
    case End =>
    case Field(name, schema, rest) =>
      RefusedIff(schema, Get(m, name));
      FieldsRefusedIff(rest, m);
  }

  /** A trimmed text loses exactly the white space around it, and its length then decides. */
  lemma {:induction false} TextIsTrimmed(a: string, t: string, b: string, min: nat, max: Option<nat>)
    requires White(a) && White(b) && Tight(t)
    ensures Parse(Schema.Text(true, min, max), Str(a + t + b))
         == if min <= |t| && (max == None || |t| <= max.value) then Some(Str(t)) else None
  {
    assert TrimsTo(a + t + b, t);
    TrimIs(a + t + b, t);
  }
}
