/**
 A row of the current version that loses a well-formed promise because another field is malformed.
 */
module StoredRowExample {
  import opened Wrappers
  import opened Schemas
  import opened StoredRow

  /** A promise the agent made. */
  const MADE: map<string, Value> := map[
    "made" := Bool(true), "owner" := Str("agent"), "commitment" := Null, "due_hint" := Null,
    "confidence" := Num(0.0), "evidence" := NO_EVIDENCE]

  const HEAD_ROW: map<string, Value> := map[
    "customer_match" := Obj(map[
      "customer_id" := Null, "phone" := Null, "name_hint" := Null, "confidence" := Num(0.0)]),
    "product_mentions" := Arr([]), "psych_tags" := Arr([]), "call_intent" := Str("sale")]

  const SIGNAL_ROW: map<string, Value> := map[
    "shipping_signals" := Obj(map[
      "address_mentioned" := Bool(false), "tracking_asked" := Bool(false), "complaint" := Bool(false)]),
    "payment_signals" := Obj(map[
      "method_mentioned" := Bool(false), "refund_asked" := Bool(false), "complaint" := Bool(false)]),
    "urgency_signal" := Str("low")]

  function V5Row(): map<string, Value> { Unknowns(Str("unknown"))["promise" := Obj(MADE)] }

  /** The signals and the brief are left to their defaults. */
  const TAIL_ROW: map<string, Value> := map[
    "competitor_mentioned" := Arr([]), "summary" := Str(""), "language_detected" := Str("en"),
    "resolved_with_version" := Num(5.0)]

  lemma MadeParses(shape: Fields, m: map<string, Value>)
    requires Object(shape) == PROMISE && m == MADE
    ensures Parse(Object(shape), Obj(m)) == Some(Obj(m))
  {
    PromiseTail(shape, m);
    PeelSelf(shape, m);
    PeelSelf(shape.rest, m);
    RecordIsFixed(shape, m);
  }

  lemma HeadAccepts(customer: Schema, product: Schema, tag: Schema, intent: Schema, rest: Fields, m: map<string, Value>)
    requires Parse(customer, Get(m, "customer_match")).Some? && Get(m, "product_mentions") == Arr([])
    requires Get(m, "psych_tags") == Arr([]) && Parse(intent, Get(m, "call_intent")).Some?
    requires ParseFields(rest, m).Some?
    ensures ParseFields(HeadShape(customer, product, tag, intent, rest), m).Some?
  {
    var shape := HeadShape(customer, product, tag, intent, rest);
    assert ParseItems(product, []) == Some([]) && ParseItems(tag, []) == Some([]);
    PeelParse(shape, m);
    PeelParse(shape.rest, m);
    PeelParse(shape.rest.rest, m);
    PeelParse(shape.rest.rest.rest, m);
  }

  lemma SignalAccepts(shipping: Schema, payment: Schema, urgency: Schema, rest: Fields, m: map<string, Value>)
    requires Parse(shipping, Get(m, "shipping_signals")).Some? && Parse(payment, Get(m, "payment_signals")).Some?
    requires Parse(urgency, Get(m, "urgency_signal")).Some? && ParseFields(rest, m).Some?
    ensures ParseFields(SignalShape(shipping, payment, urgency, rest), m).Some?
  {
    var shape := SignalShape(shipping, payment, urgency, rest);
    PeelParse(shape, m);
    PeelParse(shape.rest, m);
    PeelParse(shape.rest.rest, m);
  }

  lemma V5Accepts(
    conversation: Schema, mood: Schema, issue: Schema, promise: Schema, nextAction: Schema, rest: Fields,
    m: map<string, Value>)
    requires Parse(conversation, Get(m, "conversation")).Some? && Parse(mood, Get(m, "customer_mood")).Some?
    requires Parse(issue, Get(m, "customer_issue")).Some? && Parse(promise, Get(m, "promise")).Some?
    requires Parse(nextAction, Get(m, "next_action")).Some? && ParseFields(rest, m).Some?
    ensures ParseFields(V5Shape(conversation, mood, issue, promise, nextAction, rest), m).Some?
  {
    var shape := V5Shape(conversation, mood, issue, promise, nextAction, rest);
    PeelParse(shape, m);
    PeelParse(shape.rest, m);
    PeelParse(shape.rest.rest, m);
    PeelParse(shape.rest.rest.rest, m);
    PeelParse(shape.rest.rest.rest.rest, m);
  }

  lemma TailAccepts(signals: Schema, brief: Schema, m: map<string, Value>)
    requires Parse(signals, Get(m, "operational_signals")).Some? && Parse(brief, Get(m, "person_brief")).Some?
    requires Get(m, "competitor_mentioned") == Arr([]) && Get(m, "summary") == Str("")
    requires Get(m, "language_detected") == Str("en") && Get(m, "resolved_with_version") == Num(5.0)
    ensures ParseFields(TailShape(signals, brief), m).Some?
  {
    var shape := TailShape(signals, brief);
    assert ParseItems(ANY_STRING, []) == Some([]);
    PeelParse(shape, m);
    PeelParse(shape.rest, m);
    PeelParse(shape.rest.rest, m);
    PeelParse(shape.rest.rest.rest, m);
    PeelParse(shape.rest.rest.rest.rest, m);
    PeelParse(shape.rest.rest.rest.rest.rest, m);
  }

  // What the lemmas above read of the row.

  ghost predicate HeadOf(m: map<string, Value>) {
    && Get(m, "customer_match") == HEAD_ROW["customer_match"] && Get(m, "product_mentions") == Arr([])
    && Get(m, "psych_tags") == Arr([]) && Get(m, "call_intent") == Str("sale")
  }

  ghost predicate SignalsOf(m: map<string, Value>) {
    && Get(m, "shipping_signals") == SIGNAL_ROW["shipping_signals"]
    && Get(m, "payment_signals") == SIGNAL_ROW["payment_signals"] && Get(m, "urgency_signal") == Str("low")
  }

  ghost predicate V5Of(m: map<string, Value>) {
    var u := Unknowns(Str("unknown"));
    && Get(m, "conversation") == u["conversation"] && Get(m, "customer_mood") == u["customer_mood"]
    && Get(m, "customer_issue") == u["customer_issue"] && Get(m, "promise") == Obj(MADE)
    && Get(m, "next_action") == u["next_action"]
  }

  ghost predicate TailOf(m: map<string, Value>) {
    && Get(m, "operational_signals") == Undefined && Get(m, "person_brief") == Undefined
    && Get(m, "competitor_mentioned") == Arr([]) && Get(m, "summary") == Str("")
    && Get(m, "language_detected") == Str("en") && Get(m, "resolved_with_version") == Num(5.0)
  }

  lemma PartsOf()
    ensures HeadOf(HEAD_ROW) && SignalsOf(SIGNAL_ROW) && TailOf(TAIL_ROW)
    ensures HEAD_ROW.Keys <= HEAD_KEYS && SIGNAL_ROW.Keys <= SIGNAL_KEYS && TAIL_ROW.Keys <= TAIL_KEYS
  {}

  lemma V5PartOf()
    ensures V5Of(V5Row()) && V5Row().Keys <= V5_KEYS
  {}

  /** Parts with fields of their own keep their values when put together. */
  lemma Together(a: map<string, Value>, b: map<string, Value>, c: map<string, Value>, d: map<string, Value>)
    requires HeadOf(a) && SignalsOf(b) && V5Of(c) && TailOf(d)
    requires a.Keys <= HEAD_KEYS && b.Keys <= SIGNAL_KEYS && c.Keys <= V5_KEYS && d.Keys <= TAIL_KEYS
    ensures HeadOf(a + b + c + d) && SignalsOf(a + b + c + d) && V5Of(a + b + c + d) && TailOf(a + b + c + d)
  {
    HeadKeysFresh();
    SignalKeysFresh();
    V5KeysFresh();
    KeptGet(a, b, c, d);
  }

  lemma KeptGet(a: map<string, Value>, b: map<string, Value>, c: map<string, Value>, d: map<string, Value>)
    requires a.Keys <= HEAD_KEYS && b.Keys <= SIGNAL_KEYS && c.Keys <= V5_KEYS && d.Keys <= TAIL_KEYS
    requires HEAD_KEYS !! SIGNAL_KEYS + (V5_KEYS + TAIL_KEYS) && SIGNAL_KEYS !! V5_KEYS + TAIL_KEYS
    requires V5_KEYS !! TAIL_KEYS
    ensures forall k | k in HEAD_KEYS :: Get(a + b + c + d, k) == Get(a, k)
    ensures forall k | k in SIGNAL_KEYS :: Get(a + b + c + d, k) == Get(b, k)
    ensures forall k | k in V5_KEYS :: Get(a + b + c + d, k) == Get(c, k)
    ensures forall k | k in TAIL_KEYS :: Get(a + b + c + d, k) == Get(d, k)
  {}

  lemma HeadParses()
    ensures Parse(CUSTOMER_MATCH, HEAD_ROW["customer_match"]).Some? && Parse(CALL_INTENT, Str("sale")).Some?
  {}

  lemma SignalsParse()
    ensures Parse(SHIPPING_SIGNALS, SIGNAL_ROW["shipping_signals"]).Some?
    ensures Parse(PAYMENT_SIGNALS, SIGNAL_ROW["payment_signals"]).Some?
    ensures Parse(URGENCY, Str("low")).Some?
  {}

  lemma TailParses(m: map<string, Value>)
    requires TailOf(m)
    ensures ParseFields(OUTPUT_TAIL, m).Some?
  {
    TailAccepts(SIGNALS, PERSON_BRIEF, m);
  }

  lemma V5Parses(m: map<string, Value>)
    requires V5Of(m) && ParseFields(OUTPUT_TAIL, m).Some?
    ensures ParseFields(OUTPUT_V5, m).Some?
  {
    var unknown := Str("unknown");
    var u := Unknowns(unknown);
    UnknownConversation(CONVERSATION.shape, unknown, u["conversation"].fields);
    UnknownMood(CUSTOMER_MOOD.shape, unknown, u["customer_mood"].fields);
    UnknownIssue(CUSTOMER_ISSUE.shape, unknown, u["customer_issue"].fields);
    MadeParses(PROMISE.shape, MADE);
    UnknownNextAction(NEXT_ACTION.shape, unknown, u["next_action"].fields);
    V5Accepts(CONVERSATION, CUSTOMER_MOOD, CUSTOMER_ISSUE, PROMISE, NEXT_ACTION, OUTPUT_TAIL, m);
  }

  lemma OutputParses(m: map<string, Value>)
    requires HeadOf(m) && SignalsOf(m) && ParseFields(OUTPUT_V5, m).Some?
    ensures ParseFields(OUTPUT, m).Some?
  {
    OutputIsFourParts();
    HeadParses();
    SignalsParse();
    SignalAccepts(SHIPPING_SIGNALS, PAYMENT_SIGNALS, URGENCY, OUTPUT_V5, m);
    HeadAccepts(CUSTOMER_MATCH, PRODUCT_MENTION, PSYCH_TAG, CALL_INTENT, OUTPUT_SIGNALS, m);
  }

  lemma NullMoodRefused(shape: Fields, m: map<string, Value>)
    requires shape == V5_SHAPE && Get(m, "customer_mood") == Null
    ensures ParseFields(shape, m).None?
  {
    PeelParse(shape, m);
    PeelParse(shape.rest, m);
  }

  lemma MigratedPromise(fields: map<string, Value>)
    ensures Prop(Prop(Migrated(fields), "promise"), "made") == Bool(false)
  {}

  lemma NullMoodLosesPromise(output: Fields, m: map<string, Value>)
    requires WellFormedFields(output) && Pick(output, V5_KEYS) == V5_SHAPE && ParseFields(output, m).Some?
    ensures var r := ReadStored(output, Obj(m["customer_mood" := Null]));
            r.Success? && r.migratedFromVersion.Some? && Prop(Prop(r.data, "promise"), "made") == Bool(false)
  {
    NullMoodRefused(V5_SHAPE, m["customer_mood" := Null]);
    OneBadPart(output, m, "customer_mood", Null);
    MigratedPromise(ParseFields(output, m).value - V5_KEYS);
  }

  /** There is a current row with a promise the agent made. */
  lemma {:induction false} RowWithPromise() returns (m: map<string, Value>)
    ensures ParseFields(OUTPUT, m).Some? && Get(m, "promise") == Obj(MADE)
  {
    m := HEAD_ROW + SIGNAL_ROW + V5Row() + TAIL_ROW;
    PartsOf();
    V5PartOf();
    Together(HEAD_ROW, SIGNAL_ROW, V5Row(), TAIL_ROW);
    TailParses(m);
    V5Parses(m);
    OutputParses(m);
  }

  /** With `null` for the mood any current row, that one included, is read as migrated and without its promise. */
  lemma {:induction false} MalformedMoodDropsPromise(m: map<string, Value>)
    requires ParseFields(OUTPUT, m).Some?
    ensures var r := ParseStored(Obj(m["customer_mood" := Null]));
            r.Success? && r.migratedFromVersion.Some? && Prop(Prop(r.data, "promise"), "made") == Bool(false)
  {
    OutputOk();
    NullMoodLosesPromise(OUTPUT, m);
  }
}
