/**
 Transcript-resolver rows: the current schema, the legacy schema derived from it, and the reader of stored rows
 that migrates a legacy row.
 */
module StoredRow {
  import opened Wrappers
  import opened Schemas

  const ANY_STRING := Text(false, 0, None)
  const CONFIDENCE := Number(false, Some(0.0), Some(1.0))

  const DIRECTIONS: seq<string> := ["inbound", "outbound", "unknown"]

  const EVIDENCE: Schema := Object(
    Field("speaker", Enum(["customer", "agent", "system", "unknown"]),
    Field("text", Text(true, 1, Some(500)), End)))

  const EVIDENCE_LIST: Schema := Default(Array(EVIDENCE, Some(6)), Arr([]))

  const CONVERSATION: Schema := Object(
    Field("direction", Enum(DIRECTIONS),
    Field("kind", Enum([
      "customer_conversation", "voicemail", "automated_system", "carrier_vendor", "agent_only", "unknown"]),
    Field("customer_present", Boolean,
    Field("confidence", CONFIDENCE,
    Field("evidence", EVIDENCE_LIST, End))))))

  const CUSTOMER_MOOD: Schema := Object(
    Field("label", Enum([
      "positive", "calm", "neutral", "confused", "anxious", "frustrated", "angry", "urgent", "unknown"]),
    Field("confidence", CONFIDENCE,
    Field("evidence", EVIDENCE_LIST, End))))

  const CUSTOMER_ISSUE: Schema := Object(
    Field("detected", Boolean,
    Field("category", Nullable(Text(true, 0, Some(80))),
    Field("description", Nullable(Text(true, 0, Some(800))),
    Field("confidence", CONFIDENCE,
    Field("evidence", EVIDENCE_LIST, End))))))

  const PROMISE: Schema := Object(
    Field("made", Boolean,
    Field("owner", Enum(["agent", "customer", "none"]),
    Field("commitment", Nullable(Text(true, 0, Some(600))),
    Field("due_hint", Nullable(Text(true, 0, Some(120))),
    Field("confidence", CONFIDENCE,
    Field("evidence", EVIDENCE_LIST, End)))))))

  const NEXT_ACTION: Schema := Object(
    Field("required", Boolean,
    Field("owner", Enum(["staff", "customer", "none"]),
    Field("action", Nullable(Text(true, 0, Some(600))),
    Field("expected_outcome", Nullable(Text(true, 0, Some(600))),
    Field("priority", Enum(["low", "medium", "high", "urgent"]),
    Field("confidence", CONFIDENCE,
    Field("evidence", EVIDENCE_LIST, End))))))))

  const OPERATIONAL_SIGNAL: Schema := Object(
    Field("intent", Enum([
      "heat_press_machine_purchase_intent", "spare_part_purchase_intent", "heat_press_purchase_intent",
      "dtf_supply_reorder_signal", "quote_request", "callback_requested", "refund_requested",
      "shipping_status_question", "financing_question", "price_objection", "product_fit_question",
      "sample_request", "machine_upgrade_interest", "training_installation_need",
      "existing_customer_expansion_signal", "human_review_required", "no_action"]),
    Field("confidence", CONFIDENCE,
    Field("action_required", Boolean,
    Field("recommended_axis", Nullable(Enum(["sales", "account"])),
    Field("reason", Text(false, 0, Some(500)),
    Field("suggested_task_title", Nullable(Text(false, 0, Some(120))), End)))))))

  function ShortText(max: nat): Schema { Default(Text(false, 0, Some(max)), Str("")) }

  const SUGGESTED_ACTIONS: Schema := Default(Array(Text(false, 0, Some(160)), Some(6)), Arr([]))

  const BRIEF_SHAPE: Fields :=
    Field("why_calling", ShortText(800),
    Field("upset_about", ShortText(800),
    Field("call_goal", ShortText(500),
    Field("suggested_actions", SUGGESTED_ACTIONS,
    Field("transcript_snippet", ShortText(600),
    Field("direction", Default(Enum(DIRECTIONS), Str("unknown")),
    Field("mood", ShortText(120),
    Field("issue", ShortText(800),
    Field("promise", ShortText(600),
    Field("next_action", ShortText(600),
    Field("evidence", EVIDENCE_LIST, End)))))))))))

  const EMPTY_BRIEF: map<string, Value> := map[
    "why_calling" := Str(""), "upset_about" := Str(""), "call_goal" := Str(""), "suggested_actions" := Arr([]),
    "transcript_snippet" := Str(""), "direction" := Str("unknown"), "mood" := Str(""), "issue" := Str(""),
    "promise" := Str(""), "next_action" := Str(""), "evidence" := Arr([])]

  const PERSON_BRIEF: Schema := Default(Object(BRIEF_SHAPE), Obj(EMPTY_BRIEF))

  const CUSTOMER_MATCH: Schema := Object(
    Field("customer_id", Nullable(ANY_STRING),
    Field("phone", Nullable(ANY_STRING),
    Field("name_hint", Nullable(ANY_STRING),
    Field("confidence", CONFIDENCE, End)))))

  const PRODUCT_MENTION: Schema := Object(
    Field("sku", Nullable(ANY_STRING),
    Field("name_hint", Nullable(ANY_STRING),
    Field("confidence", CONFIDENCE, End))))

  const SHIPPING_SIGNALS: Schema := Object(
    Field("address_mentioned", Boolean, Field("tracking_asked", Boolean, Field("complaint", Boolean, End))))

  const PAYMENT_SIGNALS: Schema := Object(
    Field("method_mentioned", Boolean, Field("refund_asked", Boolean, Field("complaint", Boolean, End))))

  const PSYCH_TAG: Schema := Enum([
    "angry", "purchase_intent", "shipping_issue", "refund_intent", "complaint", "info_request", "follow_up",
    "satisfied"])

  const CALL_INTENT: Schema := Enum(["sale", "support", "inquiry", "complaint", "follow_up"])
  const URGENCY: Schema := Enum(["low", "medium", "high", "critical"])
  const SIGNALS: Schema := Default(Array(OPERATIONAL_SIGNAL, None), Arr([]))
  const VERSION_NUMBER: Schema := Number(true, Some(1.0), None)

  const OUTPUT: Fields :=
    Field("customer_match", CUSTOMER_MATCH,
    Field("product_mentions", Array(PRODUCT_MENTION, None),
    Field("psych_tags", Array(PSYCH_TAG, None),
    Field("call_intent", CALL_INTENT,
    Field("shipping_signals", SHIPPING_SIGNALS,
    Field("payment_signals", PAYMENT_SIGNALS,
    Field("urgency_signal", URGENCY,
    Field("conversation", CONVERSATION,
    Field("customer_mood", CUSTOMER_MOOD,
    Field("customer_issue", CUSTOMER_ISSUE,
    Field("promise", PROMISE,
    Field("next_action", NEXT_ACTION,
    Field("operational_signals", SIGNALS,
    Field("person_brief", PERSON_BRIEF,
    Field("competitor_mentioned", Array(ANY_STRING, None),
    Field("summary", Text(false, 0, Some(1200)),
    Field("language_detected", ANY_STRING,
    Field("resolved_with_version", VERSION_NUMBER, End))))))))))))))))))

  const V5_KEYS: set<string> := {"conversation", "customer_mood", "customer_issue", "promise", "next_action"}

  // ----- the reader

  datatype StoredResult = Success(data: Value, migratedFromVersion: Option<real>) | Failure

  /** A property read. */
  function Prop(v: Value, key: string): Value { if v.Obj? then Get(v.fields, key) else Undefined }

  const NO_EVIDENCE: Value := Arr([])

  /** What a legacy row gets for the fields of version 5: nothing is inferred but the direction. */
  function Unknowns(direction: Value): map<string, Value> {
    map[
      "conversation" := Obj(map[
        "direction" := direction, "kind" := Str("unknown"), "customer_present" := Bool(false),
        "confidence" := Num(0.0), "evidence" := NO_EVIDENCE]),
      "customer_mood" := Obj(map["label" := Str("unknown"), "confidence" := Num(0.0), "evidence" := NO_EVIDENCE]),
      "customer_issue" := Obj(map[
        "detected" := Bool(false), "category" := Null, "description" := Null,
        "confidence" := Num(0.0), "evidence" := NO_EVIDENCE]),
      "promise" := Obj(map[
        "made" := Bool(false), "owner" := Str("none"), "commitment" := Null, "due_hint" := Null,
        "confidence" := Num(0.0), "evidence" := NO_EVIDENCE]),
      "next_action" := Obj(map[
        "required" := Bool(false), "owner" := Str("none"), "action" := Null, "expected_outcome" := Null,
        "priority" := Str("low"), "confidence" := Num(0.0), "evidence" := NO_EVIDENCE])]
  }

  /** The version a legacy row carries. */
  function VersionOf(fields: map<string, Value>): real {
    var v := Get(fields, "resolved_with_version");
    if v.Num? then v.n else 0.0
  }

  /** `parseStoredTranscriptResolverOutput`. */
  function ParseStored(v: Value): StoredResult { ReadStored(OUTPUT, v) }

  /** The reader for a given current schema; the legacy one omits the fields of version 5. */
  function ReadStored(output: Fields, v: Value): StoredResult {
    var current := Parse(Object(output), v);
    if current.Some? then Success(current.value, None)
    else
      var legacy := Parse(Object(Omit(output, V5_KEYS)), v);
      if legacy.None? then Failure
      else
        var fields := legacy.value.fields;
        var direction := Prop(Get(fields, "person_brief"), "direction");
        Success(Obj(fields + Unknowns(direction)), Some(VersionOf(fields)))
  }

  // ----- the schemas are well formed

  lemma EvidenceWellFormed()
    ensures WellFormed(EVIDENCE_LIST) && Parse(EVIDENCE_LIST, NO_EVIDENCE) == Some(NO_EVIDENCE)
  {
    assert ParseItems(EVIDENCE, []) == Some([]);
  }

  lemma ConversationWellFormed()
    ensures WellFormed(CONVERSATION)
  {
    EvidenceWellFormed();
  }

  lemma MoodWellFormed()
    ensures WellFormed(CUSTOMER_MOOD)
  {
    EvidenceWellFormed();
  }

  lemma IssueWellFormed()
    ensures WellFormed(CUSTOMER_ISSUE)
  {
    EvidenceWellFormed();
  }

  lemma PromiseWellFormed()
    ensures WellFormed(PROMISE)
  {
    EvidenceWellFormed();
  }

  lemma NextActionWellFormed()
    ensures WellFormed(NEXT_ACTION)
  {
    EvidenceWellFormed();
  }

  const BRIEF_TAIL: Fields :=
    Field("direction", Default(Enum(DIRECTIONS), Str("unknown")),
    Field("mood", ShortText(120),
    Field("issue", ShortText(800),
    Field("promise", ShortText(600),
    Field("next_action", ShortText(600),
    Field("evidence", EVIDENCE_LIST, End))))))

  /** The brief's first five fields, for any schemas of theirs, in front of others. */
  function BriefHead(text800: Schema, text500: Schema, actions: Schema, text600: Schema, rest: Fields): Fields {
    Field("why_calling", text800,
    Field("upset_about", text800,
    Field("call_goal", text500,
    Field("suggested_actions", actions,
    Field("transcript_snippet", text600, rest)))))
  }

  lemma BriefIsHeadAndTail()
    ensures BRIEF_SHAPE == BriefHead(ShortText(800), ShortText(500), SUGGESTED_ACTIONS, ShortText(600), BRIEF_TAIL)
  {}

  lemma BriefTailNames()
    ensures Names(BRIEF_TAIL) == {"direction", "mood", "issue", "promise", "next_action", "evidence"}
  {}

  lemma BriefTailWellFormed()
    ensures WellFormedFields(BRIEF_TAIL)
  {
    EvidenceWellFormed();
  }

  lemma BriefHeadOk(text800: Schema, text500: Schema, actions: Schema, text600: Schema, rest: Fields)
    requires WellFormed(text800) && WellFormed(text500) && WellFormed(actions) && WellFormed(text600)
    requires WellFormedFields(rest)
    requires Names(rest) == {"direction", "mood", "issue", "promise", "next_action", "evidence"}
    ensures WellFormedFields(BriefHead(text800, text500, actions, text600, rest))
  {
    var shape := BriefHead(text800, text500, actions, text600, rest);
    Peel(shape);
    Peel(shape.rest);
    Peel(shape.rest.rest);
    Peel(shape.rest.rest.rest);
    Peel(shape.rest.rest.rest.rest);
  }

  lemma ShortTextWellFormed(max: nat)
    ensures WellFormed(ShortText(max))
  {}

  lemma ActionsWellFormed()
    ensures WellFormed(SUGGESTED_ACTIONS)
  {
    assert ParseItems(Text(false, 0, Some(160)), []) == Some([]);
  }

  lemma BriefWellFormed()
    ensures WellFormedFields(BRIEF_SHAPE)
  {
    BriefIsHeadAndTail();
    BriefTailNames();
    BriefTailWellFormed();
    ShortTextWellFormed(800);
    ShortTextWellFormed(500);
    ShortTextWellFormed(600);
    ActionsWellFormed();
    BriefHeadOk(ShortText(800), ShortText(500), SUGGESTED_ACTIONS, ShortText(600), BRIEF_TAIL);
  }

  lemma EmptyBriefTail()
    ensures SelfParsing(BRIEF_TAIL, EMPTY_BRIEF)
  {
    EvidenceWellFormed();
  }

  lemma BriefHeadSelf(
    text800: Schema, text500: Schema, actions: Schema, text600: Schema, rest: Fields, m: map<string, Value>)
    requires {"why_calling", "upset_about", "call_goal", "suggested_actions", "transcript_snippet"} <= m.Keys
    requires m["why_calling"] == m["upset_about"] == m["call_goal"] == m["transcript_snippet"] == Str("")
    requires m["suggested_actions"] == Arr([]) && Parse(actions, Arr([])) == Some(Arr([]))
    requires Parse(text800, Str("")) == Parse(text500, Str("")) == Parse(text600, Str("")) == Some(Str(""))
    requires SelfParsing(rest, m)
    ensures SelfParsing(BriefHead(text800, text500, actions, text600, rest), m)
  {
    var shape := BriefHead(text800, text500, actions, text600, rest);
    PeelSelf(shape, m);
    PeelSelf(shape.rest, m);
    PeelSelf(shape.rest.rest, m);
    PeelSelf(shape.rest.rest.rest, m);
    PeelSelf(shape.rest.rest.rest.rest, m);
  }

  lemma EmptyBriefValues()
    ensures {"why_calling", "upset_about", "call_goal", "suggested_actions", "transcript_snippet"} <= EMPTY_BRIEF.Keys
    ensures EMPTY_BRIEF["why_calling"] == EMPTY_BRIEF["upset_about"] == EMPTY_BRIEF["call_goal"] == Str("")
    ensures EMPTY_BRIEF["transcript_snippet"] == Str("") && EMPTY_BRIEF["suggested_actions"] == Arr([])
  {}

  lemma ShortTextEmpty(max: nat)
    ensures Parse(ShortText(max), Str("")) == Some(Str(""))
  {}

  lemma EmptyBriefHead()
    ensures SelfParsing(BRIEF_SHAPE, EMPTY_BRIEF)
  {
    BriefIsHeadAndTail();
    EmptyBriefValues();
    EmptyBriefTail();
    ActionsWellFormed();
    ShortTextEmpty(800);
    ShortTextEmpty(500);
    ShortTextEmpty(600);
    BriefHeadSelf(ShortText(800), ShortText(500), SUGGESTED_ACTIONS, ShortText(600), BRIEF_TAIL, EMPTY_BRIEF);
  }

  lemma EmptyBriefKeys()
    ensures EMPTY_BRIEF.Keys <= Names(BRIEF_SHAPE)
  {}

  lemma EmptyBriefParses()
    ensures ParseFields(BRIEF_SHAPE, EMPTY_BRIEF) == Some(EMPTY_BRIEF)
  {
    EmptyBriefHead();
    EmptyBriefKeys();
    SelfParsingIsFixed(BRIEF_SHAPE, EMPTY_BRIEF);
  }

  lemma SignalsWellFormed()
    ensures WellFormed(Array(OPERATIONAL_SIGNAL, None))
  {}

  lemma MatchWellFormed()
    ensures WellFormed(CUSTOMER_MATCH) && WellFormed(PRODUCT_MENTION)
  {}

  lemma SmallWellFormed()
    ensures WellFormed(SHIPPING_SIGNALS) && WellFormed(PAYMENT_SIGNALS)
  {}

  lemma DefaultRecordWellFormed(shape: Fields, m: map<string, Value>)
    requires WellFormedFields(shape) && ParseFields(shape, m) == Some(m)
    ensures WellFormed(Default(Object(shape), Obj(m)))
  {}

  lemma BriefDefaultWellFormed()
    ensures WellFormed(PERSON_BRIEF)
  {
    BriefWellFormed();
    EmptyBriefParses();
    DefaultRecordWellFormed(BRIEF_SHAPE, EMPTY_BRIEF);
  }

  lemma SignalsDefaultWellFormed()
    ensures WellFormed(SIGNALS)
  {
    SignalsWellFormed();
    assert ParseItems(OPERATIONAL_SIGNAL, []) == Some([]);
  }

  /** One field off a shape. */
  lemma Peel(shape: Fields)
    requires shape.Field?
    ensures WellFormedFields(shape)
      <==> shape.name !in Names(shape.rest) && WellFormed(shape.schema) && WellFormedFields(shape.rest)
    ensures Names(shape) == {shape.name} + Names(shape.rest)
  {}

  lemma PeelPick(shape: Fields, keys: set<string>)
    requires shape.Field?
    ensures Pick(shape, keys)
         == if shape.name in keys then Field(shape.name, shape.schema, Pick(shape.rest, keys))
            else Pick(shape.rest, keys)
  {}

  lemma PeelSelf(shape: Fields, m: map<string, Value>)
    requires shape.Field?
    ensures SelfParsing(shape, m)
      <==> shape.name in m && Parse(shape.schema, m[shape.name]) == Some(m[shape.name]) && SelfParsing(shape.rest, m)
    ensures Names(shape) == {shape.name} + Names(shape.rest)
  {}

  lemma PeelParse(shape: Fields, m: map<string, Value>)
    requires shape.Field?
    ensures ParseFields(shape, m).Some?
       <==> Parse(shape.schema, Get(m, shape.name)).Some? && ParseFields(shape.rest, m).Some?
  {}

  // The output schema in four parts, for any schemas of the fields, so that each part is a proof of its own.

  function HeadShape(customer: Schema, product: Schema, tag: Schema, intent: Schema, rest: Fields): Fields {
    Field("customer_match", customer,
    Field("product_mentions", Array(product, None),
    Field("psych_tags", Array(tag, None),
    Field("call_intent", intent, rest))))
  }

  function SignalShape(shipping: Schema, payment: Schema, urgency: Schema, rest: Fields): Fields {
    Field("shipping_signals", shipping,
    Field("payment_signals", payment,
    Field("urgency_signal", urgency, rest)))
  }

  function V5Shape(conversation: Schema, mood: Schema, issue: Schema, promise: Schema, nextAction: Schema, rest: Fields)
    : Fields
  {
    Field("conversation", conversation,
    Field("customer_mood", mood,
    Field("customer_issue", issue,
    Field("promise", promise,
    Field("next_action", nextAction, rest)))))
  }

  function TailShape(signals: Schema, brief: Schema): Fields {
    Field("operational_signals", signals,
    Field("person_brief", brief,
    Field("competitor_mentioned", Array(ANY_STRING, None),
    Field("summary", Text(false, 0, Some(1200)),
    Field("language_detected", ANY_STRING,
    Field("resolved_with_version", VERSION_NUMBER, End))))))
  }

  const OUTPUT_TAIL: Fields := TailShape(SIGNALS, PERSON_BRIEF)
  const OUTPUT_V5: Fields := V5Shape(CONVERSATION, CUSTOMER_MOOD, CUSTOMER_ISSUE, PROMISE, NEXT_ACTION, OUTPUT_TAIL)
  const OUTPUT_SIGNALS: Fields := SignalShape(SHIPPING_SIGNALS, PAYMENT_SIGNALS, URGENCY, OUTPUT_V5)

  lemma OutputIsFourParts()
    ensures OUTPUT == HeadShape(CUSTOMER_MATCH, PRODUCT_MENTION, PSYCH_TAG, CALL_INTENT, OUTPUT_SIGNALS)
  {}

  const TAIL_KEYS: set<string> := {
    "operational_signals", "person_brief", "competitor_mentioned", "summary", "language_detected",
    "resolved_with_version"}

  lemma TailShapeOk(signals: Schema, brief: Schema)
    requires WellFormed(signals) && WellFormed(brief)
    ensures WellFormedFields(TailShape(signals, brief)) && Names(TailShape(signals, brief)) == TAIL_KEYS
  {
    var shape := TailShape(signals, brief);
    Peel(shape);
    Peel(shape.rest);
    Peel(shape.rest.rest);
    Peel(shape.rest.rest.rest);
    Peel(shape.rest.rest.rest.rest);
    Peel(shape.rest.rest.rest.rest.rest);
  }

  lemma TailShapePick(signals: Schema, brief: Schema)
    ensures Pick(TailShape(signals, brief), V5_KEYS) == End
  {
    var shape := TailShape(signals, brief);
    PeelPick(shape, V5_KEYS);
    PeelPick(shape.rest, V5_KEYS);
    PeelPick(shape.rest.rest, V5_KEYS);
    PeelPick(shape.rest.rest.rest, V5_KEYS);
    PeelPick(shape.rest.rest.rest.rest, V5_KEYS);
    PeelPick(shape.rest.rest.rest.rest.rest, V5_KEYS);
  }

  lemma V5ShapeOk(conversation: Schema, mood: Schema, issue: Schema, promise: Schema, nextAction: Schema, rest: Fields)
    requires WellFormed(conversation) && WellFormed(mood) && WellFormed(issue)
    requires WellFormed(promise) && WellFormed(nextAction)
    requires WellFormedFields(rest) && V5_KEYS !! Names(rest)
    ensures WellFormedFields(V5Shape(conversation, mood, issue, promise, nextAction, rest))
    ensures Names(V5Shape(conversation, mood, issue, promise, nextAction, rest)) == V5_KEYS + Names(rest)
  {
    var shape := V5Shape(conversation, mood, issue, promise, nextAction, rest);
    Peel(shape);
    Peel(shape.rest);
    Peel(shape.rest.rest);
    Peel(shape.rest.rest.rest);
    Peel(shape.rest.rest.rest.rest);
    assert forall k | k in V5_KEYS :: k !in Names(rest);
  }

  lemma V5KeysFresh()
    ensures V5_KEYS !! TAIL_KEYS
  {}

  lemma V5ShapePick(
    conversation: Schema, mood: Schema, issue: Schema, promise: Schema, nextAction: Schema, rest: Fields)
    requires Pick(rest, V5_KEYS) == End
    ensures Pick(V5Shape(conversation, mood, issue, promise, nextAction, rest), V5_KEYS)
         == V5Shape(conversation, mood, issue, promise, nextAction, End)
  {
    var shape := V5Shape(conversation, mood, issue, promise, nextAction, rest);
    PeelPick(shape, V5_KEYS);
    PeelPick(shape.rest, V5_KEYS);
    PeelPick(shape.rest.rest, V5_KEYS);
    PeelPick(shape.rest.rest.rest, V5_KEYS);
    PeelPick(shape.rest.rest.rest.rest, V5_KEYS);
  }

  const SIGNAL_KEYS: set<string> := {"shipping_signals", "payment_signals", "urgency_signal"}

  lemma SignalShapeOk(shipping: Schema, payment: Schema, urgency: Schema, rest: Fields)
    requires WellFormed(shipping) && WellFormed(payment) && WellFormed(urgency)
    requires WellFormedFields(rest) && SIGNAL_KEYS !! Names(rest)
    ensures WellFormedFields(SignalShape(shipping, payment, urgency, rest))
    ensures Names(SignalShape(shipping, payment, urgency, rest)) == SIGNAL_KEYS + Names(rest)
  {
    var shape := SignalShape(shipping, payment, urgency, rest);
    Peel(shape);
    Peel(shape.rest);
    Peel(shape.rest.rest);
    assert forall k | k in SIGNAL_KEYS :: k !in Names(rest);
  }

  lemma SignalKeysFresh()
    ensures SIGNAL_KEYS !! V5_KEYS + TAIL_KEYS
  {}

  lemma SignalShapePick(shipping: Schema, payment: Schema, urgency: Schema, rest: Fields)
    ensures Pick(SignalShape(shipping, payment, urgency, rest), V5_KEYS) == Pick(rest, V5_KEYS)
  {
    var shape := SignalShape(shipping, payment, urgency, rest);
    PeelPick(shape, V5_KEYS);
    PeelPick(shape.rest, V5_KEYS);
    PeelPick(shape.rest.rest, V5_KEYS);
  }

  const HEAD_KEYS: set<string> := {"customer_match", "product_mentions", "psych_tags", "call_intent"}

  lemma HeadShapeOk(customer: Schema, product: Schema, tag: Schema, intent: Schema, rest: Fields)
    requires WellFormed(customer) && WellFormed(product) && WellFormed(tag) && WellFormed(intent)
    requires WellFormedFields(rest) && HEAD_KEYS !! Names(rest)
    ensures WellFormedFields(HeadShape(customer, product, tag, intent, rest))
    ensures Names(rest) <= Names(HeadShape(customer, product, tag, intent, rest))
  {
    var shape := HeadShape(customer, product, tag, intent, rest);
    Peel(shape);
    Peel(shape.rest);
    Peel(shape.rest.rest);
    Peel(shape.rest.rest.rest);
    assert forall k | k in HEAD_KEYS :: k !in Names(rest);
  }

  lemma HeadKeysFresh()
    ensures HEAD_KEYS !! SIGNAL_KEYS + (V5_KEYS + TAIL_KEYS)
  {}

  lemma HeadShapePick(customer: Schema, product: Schema, tag: Schema, intent: Schema, rest: Fields)
    ensures Pick(HeadShape(customer, product, tag, intent, rest), V5_KEYS) == Pick(rest, V5_KEYS)
  {
    var shape := HeadShape(customer, product, tag, intent, rest);
    PeelPick(shape, V5_KEYS);
    PeelPick(shape.rest, V5_KEYS);
    PeelPick(shape.rest.rest, V5_KEYS);
    PeelPick(shape.rest.rest.rest, V5_KEYS);
  }

  lemma TailOk()
    ensures WellFormedFields(OUTPUT_TAIL) && Names(OUTPUT_TAIL) == TAIL_KEYS && Pick(OUTPUT_TAIL, V5_KEYS) == End
  {
    SignalsDefaultWellFormed();
    BriefDefaultWellFormed();
    TailShapeOk(SIGNALS, PERSON_BRIEF);
    TailShapePick(SIGNALS, PERSON_BRIEF);
  }

  const V5_SHAPE: Fields := V5Shape(CONVERSATION, CUSTOMER_MOOD, CUSTOMER_ISSUE, PROMISE, NEXT_ACTION, End)

  lemma V5Ok()
    ensures WellFormedFields(OUTPUT_V5) && Names(OUTPUT_V5) == V5_KEYS + TAIL_KEYS
    ensures Pick(OUTPUT_V5, V5_KEYS) == V5_SHAPE
  {
    TailOk();
    ConversationWellFormed(); MoodWellFormed(); IssueWellFormed(); PromiseWellFormed(); NextActionWellFormed();
    V5KeysFresh();
    V5ShapeOk(CONVERSATION, CUSTOMER_MOOD, CUSTOMER_ISSUE, PROMISE, NEXT_ACTION, OUTPUT_TAIL);
    V5ShapePick(CONVERSATION, CUSTOMER_MOOD, CUSTOMER_ISSUE, PROMISE, NEXT_ACTION, OUTPUT_TAIL);
  }

  /** The output schema is well formed, and omitting the five fields leaves out exactly those. */
  lemma OutputOk()
    ensures WellFormedFields(OUTPUT) && TAIL_KEYS <= Names(OUTPUT) && V5_KEYS <= Names(OUTPUT)
    ensures Pick(OUTPUT, V5_KEYS) == V5_SHAPE
  {
    OutputIsFourParts();
    V5Ok();
    MatchWellFormed();
    SmallWellFormed();
    SignalKeysFresh();
    SignalShapeOk(SHIPPING_SIGNALS, PAYMENT_SIGNALS, URGENCY, OUTPUT_V5);
    SignalShapePick(SHIPPING_SIGNALS, PAYMENT_SIGNALS, URGENCY, OUTPUT_V5);
    HeadKeysFresh();
    HeadShapeOk(CUSTOMER_MATCH, PRODUCT_MENTION, PSYCH_TAG, CALL_INTENT, OUTPUT_SIGNALS);
    HeadShapePick(CUSTOMER_MATCH, PRODUCT_MENTION, PSYCH_TAG, CALL_INTENT, OUTPUT_SIGNALS);
  }

  // ----- the values filled in parse to themselves

  /** A record of at most seven fields that parse to themselves. */
  lemma RecordIsFixed(shape: Fields, m: map<string, Value>)
    requires SelfParsing(shape, m) && m.Keys <= Names(shape)
    ensures Parse(Object(shape), Obj(m)) == Some(Obj(m))
  {
    SelfParsingIsFixed(shape, m);
  }

  /** The confidence and evidence every one of the five records ends with. */
  lemma EvidenceTail(shape: Fields, m: map<string, Value>)
    requires shape == Field("confidence", CONFIDENCE, Field("evidence", EVIDENCE_LIST, End))
    requires Get(m, "confidence") == Num(0.0) && Get(m, "evidence") == NO_EVIDENCE
    ensures SelfParsing(shape, m) && Names(shape) == {"confidence", "evidence"}
  {
    EvidenceWellFormed();
    PeelSelf(shape, m);
    PeelSelf(shape.rest, m);
  }

  lemma UnknownConversation(shape: Fields, direction: Value, m: map<string, Value>)
    requires Object(shape) == CONVERSATION && Obj(m) == Unknowns(direction)["conversation"]
    requires direction.Str? && direction.s in DIRECTIONS
    ensures Parse(Object(shape), Obj(m)) == Some(Obj(m))
  {
    PeelSelf(shape, m);
    PeelSelf(shape.rest, m);
    PeelSelf(shape.rest.rest, m);
    EvidenceTail(shape.rest.rest.rest, m);
    RecordIsFixed(shape, m);
  }

  lemma UnknownMood(shape: Fields, direction: Value, m: map<string, Value>)
    requires Object(shape) == CUSTOMER_MOOD && Obj(m) == Unknowns(direction)["customer_mood"]
    ensures Parse(Object(shape), Obj(m)) == Some(Obj(m))
  {
    PeelSelf(shape, m);
    EvidenceTail(shape.rest, m);
    RecordIsFixed(shape, m);
  }

  lemma IssueTail(shape: Fields, m: map<string, Value>)
    requires Object(shape) == CUSTOMER_ISSUE
    requires Get(m, "category") == Get(m, "description") == Null
    requires Get(m, "confidence") == Num(0.0) && Get(m, "evidence") == NO_EVIDENCE
    ensures SelfParsing(shape.rest, m)
    ensures Names(shape.rest) == {"category", "description", "confidence", "evidence"}
  {
    PeelSelf(shape.rest, m);
    PeelSelf(shape.rest.rest, m);
    EvidenceTail(shape.rest.rest.rest, m);
  }

  lemma UnknownIssue(shape: Fields, direction: Value, m: map<string, Value>)
    requires Object(shape) == CUSTOMER_ISSUE && Obj(m) == Unknowns(direction)["customer_issue"]
    ensures Parse(Object(shape), Obj(m)) == Some(Obj(m))
  {
    IssueTail(shape, m);
    PeelSelf(shape, m);
    RecordIsFixed(shape, m);
  }

  lemma PromiseTail(shape: Fields, m: map<string, Value>)
    requires Object(shape) == PROMISE
    requires Get(m, "commitment") == Get(m, "due_hint") == Null
    requires Get(m, "confidence") == Num(0.0) && Get(m, "evidence") == NO_EVIDENCE
    ensures SelfParsing(shape.rest.rest, m)
    ensures Names(shape.rest.rest) == {"commitment", "due_hint", "confidence", "evidence"}
  {
    PeelSelf(shape.rest.rest, m);
    PeelSelf(shape.rest.rest.rest, m);
    EvidenceTail(shape.rest.rest.rest.rest, m);
  }

  lemma UnknownPromise(shape: Fields, direction: Value, m: map<string, Value>)
    requires Object(shape) == PROMISE && Obj(m) == Unknowns(direction)["promise"]
    ensures Parse(Object(shape), Obj(m)) == Some(Obj(m))
  {
    PromiseTail(shape, m);
    PeelSelf(shape, m);
    PeelSelf(shape.rest, m);
    RecordIsFixed(shape, m);
  }

  lemma NextActionTail(shape: Fields, m: map<string, Value>)
    requires Object(shape) == NEXT_ACTION
    requires Get(m, "action") == Get(m, "expected_outcome") == Null && Get(m, "priority") == Str("low")
    requires Get(m, "confidence") == Num(0.0) && Get(m, "evidence") == NO_EVIDENCE
    ensures SelfParsing(shape.rest.rest, m)
    ensures Names(shape.rest.rest) == {"action", "expected_outcome", "priority", "confidence", "evidence"}
  {
    PeelSelf(shape.rest.rest, m);
    PeelSelf(shape.rest.rest.rest, m);
    PeelSelf(shape.rest.rest.rest.rest, m);
    EvidenceTail(shape.rest.rest.rest.rest.rest, m);
  }

  lemma UnknownNextAction(shape: Fields, direction: Value, m: map<string, Value>)
    requires Object(shape) == NEXT_ACTION && Obj(m) == Unknowns(direction)["next_action"]
    ensures Parse(Object(shape), Obj(m)) == Some(Obj(m))
  {
    NextActionTail(shape, m);
    PeelSelf(shape, m);
    PeelSelf(shape.rest, m);
    RecordIsFixed(shape, m);
  }

  lemma UnknownsParse(direction: Value)
    requires direction.Str? && direction.s in DIRECTIONS
    ensures ParseFields(V5_SHAPE, Unknowns(direction)) == Some(Unknowns(direction))
  {
    var m, shape := Unknowns(direction), V5_SHAPE;
    UnknownConversation(CONVERSATION.shape, direction, m["conversation"].fields);
    UnknownMood(CUSTOMER_MOOD.shape, direction, m["customer_mood"].fields);
    UnknownIssue(CUSTOMER_ISSUE.shape, direction, m["customer_issue"].fields);
    UnknownPromise(PROMISE.shape, direction, m["promise"].fields);
    UnknownNextAction(NEXT_ACTION.shape, direction, m["next_action"].fields);
    PeelSelf(shape, m);
    PeelSelf(shape.rest, m);
    PeelSelf(shape.rest.rest, m);
    PeelSelf(shape.rest.rest.rest, m);
    PeelSelf(shape.rest.rest.rest.rest, m);
    SelfParsingIsFixed(shape, m);
  }

  // ----- what a legacy parse gives

  lemma {:induction false} SchemaOfOmitted(shape: Fields, keys: set<string>, name: string)
    requires name in Names(shape) && name !in keys
    ensures name in Names(Omit(shape, keys)) && SchemaOf(Omit(shape, keys), name) == SchemaOf(shape, name)
  {
    OmitNames(shape, keys);
    if shape.name != name { SchemaOfOmitted(shape.rest, keys, name); }
  }

  lemma TailSchemas(name: string)
    requires name == "person_brief" || name == "resolved_with_version"
    ensures name in Names(OUTPUT_TAIL)
    ensures SchemaOf(OUTPUT_TAIL, name)
         == if name == "person_brief" then PERSON_BRIEF else VERSION_NUMBER
  {
    TailOk();
  }

  predicate IsSuffix(rest: Fields, shape: Fields) {
    rest == shape || (shape.Field? && IsSuffix(rest, shape.rest))
  }

  /** A field keeps its schema when distinct fields are put in front. */
  lemma {:induction false} SuffixSchema(shape: Fields, rest: Fields, name: string)
    requires IsSuffix(rest, shape) && WellFormedFields(shape) && name in Names(rest)
    ensures name in Names(shape) && SchemaOf(shape, name) == SchemaOf(rest, name)
  {
    if rest != shape { SuffixSchema(shape.rest, rest, name); }
  }

  lemma {:induction false} SuffixTransitive(a: Fields, b: Fields, c: Fields)
    requires IsSuffix(a, b) && IsSuffix(b, c)
    ensures IsSuffix(a, c)
  {
    if b != c { SuffixTransitive(a, b, c.rest); }
  }

  lemma V5Suffix(conversation: Schema, mood: Schema, issue: Schema, promise: Schema, nextAction: Schema, rest: Fields)
    ensures IsSuffix(rest, V5Shape(conversation, mood, issue, promise, nextAction, rest))
  {
    var shape := V5Shape(conversation, mood, issue, promise, nextAction, rest);
    assert IsSuffix(rest, shape.rest.rest.rest.rest.rest);
    assert IsSuffix(rest, shape.rest.rest.rest.rest);
    assert IsSuffix(rest, shape.rest.rest.rest);
    assert IsSuffix(rest, shape.rest.rest);
  }

  lemma SignalSuffix(shipping: Schema, payment: Schema, urgency: Schema, rest: Fields)
    ensures IsSuffix(rest, SignalShape(shipping, payment, urgency, rest))
  {
    var shape := SignalShape(shipping, payment, urgency, rest);
    assert IsSuffix(rest, shape.rest.rest.rest);
    assert IsSuffix(rest, shape.rest.rest);
  }

  lemma HeadSuffix(customer: Schema, product: Schema, tag: Schema, intent: Schema, rest: Fields)
    ensures IsSuffix(rest, HeadShape(customer, product, tag, intent, rest))
  {
    var shape := HeadShape(customer, product, tag, intent, rest);
    assert IsSuffix(rest, shape.rest.rest.rest.rest);
    assert IsSuffix(rest, shape.rest.rest.rest);
    assert IsSuffix(rest, shape.rest.rest);
  }

  lemma TailIsSuffix()
    ensures IsSuffix(OUTPUT_TAIL, OUTPUT)
  {
    OutputIsFourParts();
    V5Suffix(CONVERSATION, CUSTOMER_MOOD, CUSTOMER_ISSUE, PROMISE, NEXT_ACTION, OUTPUT_TAIL);
    SignalSuffix(SHIPPING_SIGNALS, PAYMENT_SIGNALS, URGENCY, OUTPUT_V5);
    HeadSuffix(CUSTOMER_MATCH, PRODUCT_MENTION, PSYCH_TAG, CALL_INTENT, OUTPUT_SIGNALS);
    SuffixTransitive(OUTPUT_TAIL, OUTPUT_V5, OUTPUT_SIGNALS);
    SuffixTransitive(OUTPUT_TAIL, OUTPUT_SIGNALS, OUTPUT);
  }

  /** What the migration needs to know of the current schema. */
  ghost predicate Migratable(output: Fields) {
    && WellFormedFields(output)
    && Pick(output, V5_KEYS) == V5_SHAPE
    && HasField(output, "person_brief", PERSON_BRIEF)
    && HasField(output, "resolved_with_version", VERSION_NUMBER)
  }

  predicate HasField(shape: Fields, name: string, schema: Schema) {
    name in Names(shape) && SchemaOf(shape, name) == schema
  }

  lemma OutputHasField(name: string, schema: Schema)
    requires HasField(OUTPUT_TAIL, name, schema)
    ensures HasField(OUTPUT, name, schema)
  {
    OutputOk();
    TailIsSuffix();
    SuffixSchema(OUTPUT, OUTPUT_TAIL, name);
  }

  lemma OutputIsMigratable()
    ensures Migratable(OUTPUT)
  {
    OutputOk();
    TailSchemas("person_brief");
    TailSchemas("resolved_with_version");
    OutputHasField("person_brief", PERSON_BRIEF);
    OutputHasField("resolved_with_version", VERSION_NUMBER);
  }

  lemma LegacyHasField(output: Fields, name: string, schema: Schema)
    requires WellFormedFields(output) && HasField(output, name, schema) && name !in V5_KEYS
    ensures WellFormedFields(Omit(output, V5_KEYS)) && HasField(Omit(output, V5_KEYS), name, schema)
  {
    OmitNames(output, V5_KEYS);
    SchemaOfOmitted(output, V5_KEYS, name);
  }

  lemma BriefDirectionSchema()
    ensures "direction" in Names(BRIEF_SHAPE)
    ensures SchemaOf(BRIEF_SHAPE, "direction") == Default(Enum(DIRECTIONS), Str("unknown"))
  {
    BriefWellFormed();
    BriefTailNames();
    assert IsSuffix(BRIEF_TAIL, BRIEF_SHAPE.rest.rest.rest.rest.rest);
    assert IsSuffix(BRIEF_TAIL, BRIEF_SHAPE.rest.rest.rest.rest);
    assert IsSuffix(BRIEF_TAIL, BRIEF_SHAPE.rest.rest.rest);
    assert IsSuffix(BRIEF_TAIL, BRIEF_SHAPE.rest.rest);
    SuffixSchema(BRIEF_SHAPE, BRIEF_TAIL, "direction");
  }

  predicate IsDirection(v: Value) { v.Str? && v.s in DIRECTIONS }

  lemma DirectionParsed(shape: Fields, m: map<string, Value>)
    requires WellFormedFields(shape) && ParseFields(shape, m).Some?
    requires HasField(shape, "direction", Default(Enum(DIRECTIONS), Str("unknown")))
    ensures IsDirection(Get(ParseFields(shape, m).value, "direction"))
  {
    FieldIsParsed(shape, m, "direction");
    assert "unknown" in DIRECTIONS;
  }

  lemma RecordHasDirection(shape: Fields, empty: map<string, Value>, row: Value)
    requires WellFormed(Default(Object(shape), Obj(empty))) && Parse(Default(Object(shape), Obj(empty)), row).Some?
    requires HasField(shape, "direction", Default(Enum(DIRECTIONS), Str("unknown")))
    ensures IsDirection(Prop(Parse(Default(Object(shape), Obj(empty)), row).value, "direction"))
  {
    ParseIsIdempotent(Default(Object(shape), Obj(empty)), row);
    DirectionParsed(shape, Parse(Default(Object(shape), Obj(empty)), row).value.fields);
  }

  /** Whatever the row held, the parsed brief has a direction, `unknown` if need be. */
  lemma BriefHasDirection(row: Value)
    requires Parse(PERSON_BRIEF, row).Some?
    ensures IsDirection(Prop(Parse(PERSON_BRIEF, row).value, "direction"))
  {
    BriefDefaultWellFormed();
    BriefDirectionSchema();
    RecordHasDirection(BRIEF_SHAPE, EMPTY_BRIEF, row);
  }

  function LegacyFields(output: Fields, m: map<string, Value>): Option<map<string, Value>> {
    ParseFields(Omit(output, V5_KEYS), m)
  }

  lemma LegacyDirection(output: Fields, m: map<string, Value>)
    requires Migratable(output) && LegacyFields(output, m).Some?
    ensures IsDirection(Prop(Get(LegacyFields(output, m).value, "person_brief"), "direction"))
  {
    LegacyHasField(output, "person_brief", PERSON_BRIEF);
    FieldIsParsed(Omit(output, V5_KEYS), m, "person_brief");
    BriefHasDirection(Get(m, "person_brief"));
  }

  lemma LegacyVersion(output: Fields, m: map<string, Value>)
    requires Migratable(output) && LegacyFields(output, m).Some?
    ensures Get(m, "resolved_with_version") == Num(VersionOf(LegacyFields(output, m).value))
    ensures VersionOf(LegacyFields(output, m).value) >= 1.0
  {
    LegacyHasField(output, "resolved_with_version", VERSION_NUMBER);
    FieldIsParsed(Omit(output, V5_KEYS), m, "resolved_with_version");
  }

  /** A legacy parse with its unknowns filled in is a parse of the current schema. */
  lemma Filled(output: Fields, m: map<string, Value>)
    requires Migratable(output) && LegacyFields(output, m).Some?
    ensures var fields := LegacyFields(output, m).value;
            var full := fields + Unknowns(Prop(Get(fields, "person_brief"), "direction"));
            ParseFields(output, full) == Some(full) && full - V5_KEYS == fields
  {
    var direction := Prop(Get(LegacyFields(output, m).value, "person_brief"), "direction");
    LegacyDirection(output, m);
    UnknownsParse(direction);
    FillingLaw(output, V5_KEYS, m, Unknowns(direction));
  }

  // ----- the reader

  function LegacyParse(v: Value): Option<Value> { Parse(Object(Omit(OUTPUT, V5_KEYS)), v) }

  /** Restricted to the legacy fields. */
  function Legacy(v: Value): Value { if v.Obj? then Obj(v.fields - V5_KEYS) else v }

  lemma ReadLaws(output: Fields, v: Value)
    requires Migratable(output)
    ensures var r := ReadStored(output, v);
      && (r.Success? <==> Parse(Object(Omit(output, V5_KEYS)), v).Some?)
      && (r.Success? ==> Parse(Object(Omit(output, V5_KEYS)), v) == Some(Legacy(r.data)))
      && (r.Success? ==> Parse(Object(output), r.data) == Some(r.data))
  {
    if v.Obj? {
      OmitLaw(output, V5_KEYS, v.fields);
      if ParseFields(output, v.fields).Some? {
        ParseIsIdempotent(Object(output), v);
      } else if LegacyFields(output, v.fields).Some? {
        Filled(output, v.fields);
      }
    }
  }

  /** Filling in leaves the legacy fields and gives the conversation its direction. */
  lemma FilledProps(fields: map<string, Value>, direction: Value)
    ensures var full := Obj(fields + Unknowns(direction));
      && Prop(Prop(full, "conversation"), "direction") == direction
      && Prop(full, "person_brief") == Get(fields, "person_brief")
  {}

  lemma MigratedLaws(output: Fields, v: Value)
    requires Migratable(output) && Parse(Object(output), v).None? && ReadStored(output, v).Success?
    ensures var r := ReadStored(output, v);
      && r.migratedFromVersion.Some? && r.migratedFromVersion.value >= 1.0
      && v.Obj? && Get(v.fields, "resolved_with_version") == Num(r.migratedFromVersion.value)
      && Prop(Prop(r.data, "conversation"), "direction") == Prop(Prop(r.data, "person_brief"), "direction")
      && IsDirection(Prop(Prop(r.data, "conversation"), "direction"))
  {
    LegacyVersion(output, v.fields);
    LegacyDirection(output, v.fields);
    var fields := LegacyFields(output, v.fields).value;
    FilledProps(fields, Prop(Get(fields, "person_brief"), "direction"));
  }

  /** The legacy fields with the unknowns filled in. */
  function Migrated(fields: map<string, Value>): Value {
    Obj(fields + Unknowns(Prop(Get(fields, "person_brief"), "direction")))
  }

  /** For any current schema: a row that is read was migrated exactly when the left-out fields, taken together, are
      refused; then all of them are replaced. */
  lemma MigratedWhen(output: Fields, m: map<string, Value>)
    requires WellFormedFields(output) && ReadStored(output, Obj(m)).Success?
    ensures var r := ReadStored(output, Obj(m));
      && (r.migratedFromVersion.Some? <==> ParseFields(Pick(output, V5_KEYS), m).None?)
      && (r.migratedFromVersion.Some? ==> LegacyFields(output, m).Some?
                                          && r.data == Migrated(LegacyFields(output, m).value))
  {
    OmitLaw(output, V5_KEYS, m);
  }

  /** One of the left-out fields of a current row is changed so that they are refused: all of them are replaced. */
  lemma OneBadPart(output: Fields, m: map<string, Value>, key: string, bad: Value)
    requires WellFormedFields(output) && ParseFields(output, m).Some? && key in V5_KEYS
    requires ParseFields(Pick(output, V5_KEYS), m[key := bad]).None?
    ensures var r := ReadStored(output, Obj(m[key := bad]));
            r.Success? && r.migratedFromVersion.Some? && r.data == Migrated(ParseFields(output, m).value - V5_KEYS)
  {
    var m' := m[key := bad];
    OmitLaw(output, V5_KEYS, m);
    OmitNames(output, V5_KEYS);
    assert AgreeOn(m, m', Names(Omit(output, V5_KEYS)));
    ParseFieldsReadsNames(Omit(output, V5_KEYS), m, m');
    OmitLaw(output, V5_KEYS, m');
  }

  /** For any current schema: one malformed left-out field in a current row, and the reader replaces all of them,
      well-formed ones included. */
  lemma {:induction false} OneBadFieldReplacesAll(output: Fields, m: map<string, Value>, key: string, bad: Value)
    requires WellFormedFields(output) && ParseFields(output, m).Some?
    requires key in V5_KEYS && key in Names(output) && Parse(SchemaOf(output, key), bad).None?
    ensures var r := ReadStored(output, Obj(m[key := bad]));
            r.Success? && r.migratedFromVersion.Some? && r.data == Migrated(ParseFields(output, m).value - V5_KEYS)
  {
    var m' := m[key := bad];
    RefusedField(output, m', key);
    OmitLaw(output, V5_KEYS, m);
    OmitLaw(output, V5_KEYS, m');
    OmitNames(output, V5_KEYS);
    assert AgreeOn(m, m', Names(Omit(output, V5_KEYS)));
    ParseFieldsReadsNames(Omit(output, V5_KEYS), m, m');
    OneBadPart(output, m, key, bad);
  }

  /** A stored row is read exactly when the legacy schema accepts it. */
  lemma {:induction false} ReadIffLegacyAccepts(v: Value)
    ensures ParseStored(v).Success? <==> LegacyParse(v).Some?
  {
    OutputIsMigratable();
    ReadLaws(OUTPUT, v);
  }

  /** What is read, restricted to the legacy fields, is the legacy parse: migration infers nothing there. */
  lemma {:induction false} ReadKeepsLegacyFields(v: Value)
    requires ParseStored(v).Success?
    ensures LegacyParse(v) == Some(Legacy(ParseStored(v).data))
  {
    OutputIsMigratable();
    ReadLaws(OUTPUT, v);
  }

  /** Reading is a retraction: what was read has the form of the current schema, migrated or not, and reading it
      again gives the same data and no migration. */
  lemma {:induction false} RereadIsCurrent(v: Value)
    requires ParseStored(v).Success?
    ensures Conforms(Object(OUTPUT), ParseStored(v).data)
    ensures ParseStored(ParseStored(v).data) == Success(ParseStored(v).data, None)
  {
    OutputIsMigratable();
    ReadLaws(OUTPUT, v);
    FixedIffConforms(Object(OUTPUT), ParseStored(v).data);
  }

  /** For any such schema: exactly the rows whose left-out fields are refused, which are those the schema rejects,
      count as migrated. */
  lemma MigratedRowsOf(output: Fields, v: Value)
    requires Migratable(output) && ReadStored(output, v).Success?
    ensures v.Obj? && (ReadStored(output, v).migratedFromVersion.Some? <==> Parse(Object(output), v).None?)
    ensures Parse(Object(output), v).None? <==> ParseFields(Pick(output, V5_KEYS), v.fields).None?
  {
    MigratedWhen(output, v.fields);
    if Parse(Object(output), v).None? { MigratedLaws(output, v); }
  }

  /** A row counts as migrated exactly when its version-5 fields, taken together, are refused, which is when the
      current schema rejects it; it then reports the version it carries, which is at least 1, and takes its call
      direction from its own brief. */
  lemma {:induction false} MigratedRows(v: Value)
    requires ParseStored(v).Success?
    ensures v.Obj? && (ParseStored(v).migratedFromVersion.Some? <==> ParseFields(V5_SHAPE, v.fields).None?)
    ensures ParseStored(v).migratedFromVersion.Some? <==> Parse(Object(OUTPUT), v).None?
    ensures ParseStored(v).migratedFromVersion.Some? ==>
      var r := ParseStored(v);
      && Get(v.fields, "resolved_with_version") == Num(r.migratedFromVersion.value)
      && r.migratedFromVersion.value >= 1.0
      && Prop(Prop(r.data, "conversation"), "direction") == Prop(Prop(r.data, "person_brief"), "direction")
      && IsDirection(Prop(Prop(r.data, "conversation"), "direction"))
  {
    OutputOk();
    OutputIsMigratable();
    MigratedRowsOf(OUTPUT, v);
    if Parse(Object(OUTPUT), v).None? { MigratedLaws(OUTPUT, v); }
  }

  /** Nothing is claimed about the part: no confidence and no evidence. */
  predicate Unclaimed(part: Value) {
    part.Obj? && Get(part.fields, "confidence") == Num(0.0) && Get(part.fields, "evidence") == Arr([])
  }

  predicate NoConversation(c: Value) {
    && Unclaimed(c) && Prop(c, "kind") == Str("unknown") && Prop(c, "customer_present") == Bool(false)
  }

  predicate NoMood(mood: Value) { Unclaimed(mood) && Prop(mood, "label") == Str("unknown") }

  predicate NoIssue(issue: Value) {
    && Unclaimed(issue) && Prop(issue, "detected") == Bool(false)
    && Prop(issue, "category") == Prop(issue, "description") == Null
  }

  predicate NoPromise(promise: Value) {
    && Unclaimed(promise) && Prop(promise, "made") == Bool(false) && Prop(promise, "owner") == Str("none")
    && Prop(promise, "commitment") == Prop(promise, "due_hint") == Null
  }

  predicate NoNextAction(action: Value) {
    && Unclaimed(action) && Prop(action, "required") == Bool(false) && Prop(action, "owner") == Str("none")
    && Prop(action, "action") == Prop(action, "expected_outcome") == Null && Prop(action, "priority") == Str("low")
  }

  lemma ConversationClaimsNothing(direction: Value)
    ensures Unknowns(direction).Keys == V5_KEYS && NoConversation(Unknowns(direction)["conversation"])
  {}

  lemma MoodAndIssueClaimNothing(direction: Value)
    ensures Unknowns(direction).Keys == V5_KEYS
    ensures NoMood(Unknowns(direction)["customer_mood"]) && NoIssue(Unknowns(direction)["customer_issue"])
  {}

  lemma PromiseClaimsNothing(direction: Value)
    ensures Unknowns(direction).Keys == V5_KEYS && NoPromise(Unknowns(direction)["promise"])
  {}

  lemma NextActionClaimsNothing(direction: Value)
    ensures Unknowns(direction).Keys == V5_KEYS && NoNextAction(Unknowns(direction)["next_action"])
  {}

  lemma MigratedParts(output: Fields, v: Value)
    requires ReadStored(output, v).Success? && ReadStored(output, v).migratedFromVersion.Some?
    ensures var d := ReadStored(output, v).data;
      && NoConversation(Prop(d, "conversation")) && NoMood(Prop(d, "customer_mood"))
      && NoIssue(Prop(d, "customer_issue")) && NoPromise(Prop(d, "promise")) && NoNextAction(Prop(d, "next_action"))
  {
    var legacy := Parse(Object(Omit(output, V5_KEYS)), v).value.fields;
    var direction := Prop(Get(legacy, "person_brief"), "direction");
    var u := Unknowns(direction);
    ConversationClaimsNothing(direction);
    MoodAndIssueClaimNothing(direction);
    PromiseClaimsNothing(direction);
    NextActionClaimsNothing(direction);
    assert ReadStored(output, v).data == Obj(legacy + u);
    forall key | key in V5_KEYS ensures Prop(Obj(legacy + u), key) == u[key] {}
  }

  /** A migrated row claims nothing about the call but its brief's direction: no customer, mood, issue, promise or
      action, no confidence and no evidence. */
  lemma {:induction false} MigratedRowClaimsNothing(v: Value)
    requires ParseStored(v).Success? && ParseStored(v).migratedFromVersion.Some?
    ensures var d := ParseStored(v).data;
      && NoConversation(Prop(d, "conversation")) && NoMood(Prop(d, "customer_mood"))
      && NoIssue(Prop(d, "customer_issue")) && NoPromise(Prop(d, "promise")) && NoNextAction(Prop(d, "next_action"))
      && Prop(Prop(d, "conversation"), "direction") == Prop(Prop(d, "person_brief"), "direction")
  {
    MigratedRows(v);
    MigratedParts(OUTPUT, v);
  }
}
