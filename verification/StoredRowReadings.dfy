/**
 Which stored rows are read, and which count as migrated, on the values of the row.
 */
module StoredRowReadings {
  import opened Wrappers
  import opened Schemas
  import opened SchemaReadings
  import opened StoredRow

  // ----- values

  predicate OneOf(v: Value, options: seq<string>) { v.Str? && v.s in options }

  predicate Unit(v: Value) { v.Num? && 0.0 <= v.n <= 1.0 }

  /** A text of at most so many characters. */
  predicate UpTo(v: Value, max: nat) { v.Str? && |v.s| <= max }

  /** A text of so many characters once the white space around it is gone. */
  ghost predicate Between(v: Value, min: nat, max: nat) {
    v.Str? && exists t :: TrimsTo(v.s, t) && min <= |t| <= max
  }

  ghost predicate NullOrUpTo(v: Value, max: nat) { v == Null || Between(v, 0, max) }

  ghost predicate EvidenceItem(v: Value) {
    && v.Obj? && OneOf(Prop(v, "speaker"), ["customer", "agent", "system", "unknown"])
    && Between(Prop(v, "text"), 1, 500)
  }

  /** Left out, or at most six items. */
  ghost predicate EvidenceOk(v: Value) {
    v == Undefined || (v.Arr? && |v.items| <= 6 && forall k | 0 <= k < |v.items| :: EvidenceItem(v.items[k]))
  }

  ghost predicate ClaimOk(v: Value) { Unit(Prop(v, "confidence")) && EvidenceOk(Prop(v, "evidence")) }

  // ----- the five parts of version 5

  ghost predicate ConversationOk(v: Value) {
    && v.Obj? && OneOf(Prop(v, "direction"), ["inbound", "outbound", "unknown"])
    && OneOf(Prop(v, "kind"), [
         "customer_conversation", "voicemail", "automated_system", "carrier_vendor", "agent_only", "unknown"])
    && Prop(v, "customer_present").Bool? && ClaimOk(v)
  }

  ghost predicate MoodOk(v: Value) {
    && v.Obj? && OneOf(Prop(v, "label"), [
         "positive", "calm", "neutral", "confused", "anxious", "frustrated", "angry", "urgent", "unknown"])
    && ClaimOk(v)
  }

  ghost predicate IssueOk(v: Value) {
    && v.Obj? && Prop(v, "detected").Bool? && NullOrUpTo(Prop(v, "category"), 80)
    && NullOrUpTo(Prop(v, "description"), 800) && ClaimOk(v)
  }

  ghost predicate PromiseOk(v: Value) {
    && v.Obj? && Prop(v, "made").Bool? && OneOf(Prop(v, "owner"), ["agent", "customer", "none"])
    && NullOrUpTo(Prop(v, "commitment"), 600) && NullOrUpTo(Prop(v, "due_hint"), 120) && ClaimOk(v)
  }

  ghost predicate NextActionOk(v: Value) {
    && v.Obj? && Prop(v, "required").Bool? && OneOf(Prop(v, "owner"), ["staff", "customer", "none"])
    && NullOrUpTo(Prop(v, "action"), 600) && NullOrUpTo(Prop(v, "expected_outcome"), 600)
    && OneOf(Prop(v, "priority"), ["low", "medium", "high", "urgent"]) && ClaimOk(v)
  }

  lemma TextIff(v: Value, min: nat, max: nat)
    ensures Parse(Text(true, min, Some(max)), v).Some? <==> Between(v, min, max)
  {
    if v.Str? {
      var r := Parse(Text(true, min, Some(max)), v);
      if r.Some? { ParseIff(Text(true, min, Some(max)), v, r.value); }
      if t :| TrimsTo(v.s, t) && min <= |t| <= max { TrimIs(v.s, t); }
    }
  }

  lemma NullableIff(v: Value, max: nat)
    ensures Parse(Nullable(Text(true, 0, Some(max))), v).Some? <==> NullOrUpTo(v, max)
  {
    TextIff(v, 0, max);
  }

  lemma EnumIff(v: Value, options: seq<string>)
    ensures Parse(Enum(options), v).Some? <==> OneOf(v, options)
  {}

  lemma {:induction false} ItemsIff(item: Schema, items: seq<Value>)
    ensures ParseItems(item, items).Some? <==> forall k | 0 <= k < |items| :: Parse(item, items[k]).Some?
  {
    if items != [] {
      ItemsIff(item, items[1..]);
      assert forall k | 1 <= k < |items| :: items[k] == items[1..][k - 1];
    }
  }

  lemma EvidenceItemIff(shape: Fields, v: Value)
    requires Object(shape) == EVIDENCE
    ensures Parse(Object(shape), v).Some? <==> EvidenceItem(v)
  {
    if v.Obj? {
      PeelParse(shape, v.fields);
      PeelParse(shape.rest, v.fields);
      EnumIff(Get(v.fields, "speaker"), ["customer", "agent", "system", "unknown"]);
      TextIff(Get(v.fields, "text"), 1, 500);
    }
  }

  lemma ListIff(item: Schema, max: Option<nat>, v: Value)
    ensures Parse(Array(item, max), v).Some?
       <==> && v.Arr? && (max == None || |v.items| <= max.value)
            && forall k | 0 <= k < |v.items| :: Parse(item, v.items[k]).Some?
  {
    if v.Arr? { ItemsIff(item, v.items); }
  }

  lemma EvidenceIff(v: Value)
    ensures Parse(EVIDENCE_LIST, v).Some? <==> EvidenceOk(v)
  {
    ListIff(EVIDENCE, Some(6), v);
    if v.Arr? {
      forall k | 0 <= k < |v.items| ensures Parse(EVIDENCE, v.items[k]).Some? <==> EvidenceItem(v.items[k]) {
        EvidenceItemIff(EVIDENCE.shape, v.items[k]);
      }
    }
  }

  lemma ClaimIff(shape: Fields, v: Value)
    requires v.Obj? && shape == Field("confidence", CONFIDENCE, Field("evidence", EVIDENCE_LIST, End))
    ensures ParseFields(shape, v.fields).Some? <==> ClaimOk(v)
  {
    PeelParse(shape, v.fields);
    PeelParse(shape.rest, v.fields);
    EvidenceIff(Get(v.fields, "evidence"));
  }

  lemma ConversationIff(shape: Fields, v: Value)
    requires Object(shape) == CONVERSATION
    ensures Parse(Object(shape), v).Some? <==> ConversationOk(v)
  {
    if v.Obj? {
      PeelParse(shape, v.fields);
      PeelParse(shape.rest, v.fields);
      PeelParse(shape.rest.rest, v.fields);
      ClaimIff(shape.rest.rest.rest, v);
    }
  }

  lemma MoodIff(shape: Fields, v: Value)
    requires Object(shape) == CUSTOMER_MOOD
    ensures Parse(Object(shape), v).Some? <==> MoodOk(v)
  {
    if v.Obj? {
      PeelParse(shape, v.fields);
      ClaimIff(shape.rest, v);
    }
  }

  lemma IssueIff(shape: Fields, v: Value)
    requires Object(shape) == CUSTOMER_ISSUE
    ensures Parse(Object(shape), v).Some? <==> IssueOk(v)
  {
    if v.Obj? {
      PeelParse(shape, v.fields);
      PeelParse(shape.rest, v.fields);
      PeelParse(shape.rest.rest, v.fields);
      NullableIff(Get(v.fields, "category"), 80);
      NullableIff(Get(v.fields, "description"), 800);
      ClaimIff(shape.rest.rest.rest, v);
    }
  }

  lemma PromiseIff(shape: Fields, v: Value)
    requires Object(shape) == PROMISE
    ensures Parse(Object(shape), v).Some? <==> PromiseOk(v)
  {
    if v.Obj? {
      PeelParse(shape, v.fields);
      PeelParse(shape.rest, v.fields);
      PeelParse(shape.rest.rest, v.fields);
      PeelParse(shape.rest.rest.rest, v.fields);
      NullableIff(Get(v.fields, "commitment"), 600);
      NullableIff(Get(v.fields, "due_hint"), 120);
      ClaimIff(shape.rest.rest.rest.rest, v);
    }
  }

  lemma NextActionIff(shape: Fields, v: Value)
    requires Object(shape) == NEXT_ACTION
    ensures Parse(Object(shape), v).Some? <==> NextActionOk(v)
  {
    if v.Obj? {
      PeelParse(shape, v.fields);
      PeelParse(shape.rest, v.fields);
      PeelParse(shape.rest.rest, v.fields);
      PeelParse(shape.rest.rest.rest, v.fields);
      PeelParse(shape.rest.rest.rest.rest, v.fields);
      NullableIff(Get(v.fields, "action"), 600);
      NullableIff(Get(v.fields, "expected_outcome"), 600);
      ClaimIff(shape.rest.rest.rest.rest.rest, v);
    }
  }

  lemma V5Iff(
    conversation: Schema, mood: Schema, issue: Schema, promise: Schema, nextAction: Schema, rest: Fields,
    m: map<string, Value>)
    ensures ParseFields(V5Shape(conversation, mood, issue, promise, nextAction, rest), m).Some?
       <==> && Parse(conversation, Get(m, "conversation")).Some? && Parse(mood, Get(m, "customer_mood")).Some?
            && Parse(issue, Get(m, "customer_issue")).Some? && Parse(promise, Get(m, "promise")).Some?
            && Parse(nextAction, Get(m, "next_action")).Some? && ParseFields(rest, m).Some?
  {
    var shape := V5Shape(conversation, mood, issue, promise, nextAction, rest);
    PeelParse(shape, m);
    PeelParse(shape.rest, m);
    PeelParse(shape.rest.rest, m);
    PeelParse(shape.rest.rest.rest, m);
    PeelParse(shape.rest.rest.rest.rest, m);
  }

  /** The five parts of version 5 are all well formed. */
  ghost predicate V5PartsOk(row: Value) {
    && ConversationOk(Prop(row, "conversation")) && MoodOk(Prop(row, "customer_mood"))
    && IssueOk(Prop(row, "customer_issue")) && PromiseOk(Prop(row, "promise"))
    && NextActionOk(Prop(row, "next_action"))
  }

  lemma V5PartsIff(m: map<string, Value>)
    ensures ParseFields(V5_SHAPE, m).Some? <==> V5PartsOk(Obj(m))
  {
    V5Iff(CONVERSATION, CUSTOMER_MOOD, CUSTOMER_ISSUE, PROMISE, NEXT_ACTION, End, m);
    ConversationIff(CONVERSATION.shape, Get(m, "conversation"));
    MoodIff(CUSTOMER_MOOD.shape, Get(m, "customer_mood"));
    IssueIff(CUSTOMER_ISSUE.shape, Get(m, "customer_issue"));
    PromiseIff(PROMISE.shape, Get(m, "promise"));
    NextActionIff(NEXT_ACTION.shape, Get(m, "next_action"));
  }

  /** A row that is read counts as migrated exactly when one of its five parts is missing or malformed. */
  lemma {:induction false} MigratedIff(row: Value)
    requires ParseStored(row).Success?
    ensures ParseStored(row).migratedFromVersion.Some? <==> !V5PartsOk(row)
  {
    MigratedRows(row);
    V5PartsIff(row.fields);
  }

  // ----- the other fields

  predicate NullOrText(v: Value) { v == Null || v.Str? }

  /** Left out, or a text of at most so many characters. */
  predicate BriefText(v: Value, max: nat) { v == Undefined || UpTo(v, max) }

  predicate ThreeFlags(v: Value, a: string, b: string, c: string) {
    v.Obj? && Prop(v, a).Bool? && Prop(v, b).Bool? && Prop(v, c).Bool?
  }

  predicate MatchOk(v: Value) {
    && v.Obj? && NullOrText(Prop(v, "customer_id")) && NullOrText(Prop(v, "phone"))
    && NullOrText(Prop(v, "name_hint")) && Unit(Prop(v, "confidence"))
  }

  predicate MentionOk(v: Value) {
    v.Obj? && NullOrText(Prop(v, "sku")) && NullOrText(Prop(v, "name_hint")) && Unit(Prop(v, "confidence"))
  }

  predicate TagOk(v: Value) {
    OneOf(v, [
      "angry", "purchase_intent", "shipping_issue", "refund_intent", "complaint", "info_request", "follow_up",
      "satisfied"])
  }

  predicate SignalOk(v: Value) {
    && v.Obj? && OneOf(Prop(v, "intent"), [
         "heat_press_machine_purchase_intent", "spare_part_purchase_intent", "heat_press_purchase_intent",
         "dtf_supply_reorder_signal", "quote_request", "callback_requested", "refund_requested",
         "shipping_status_question", "financing_question", "price_objection", "product_fit_question",
         "sample_request", "machine_upgrade_interest", "training_installation_need",
         "existing_customer_expansion_signal", "human_review_required", "no_action"])
    && Unit(Prop(v, "confidence")) && Prop(v, "action_required").Bool?
    && (Prop(v, "recommended_axis") == Null || OneOf(Prop(v, "recommended_axis"), ["sales", "account"]))
    && UpTo(Prop(v, "reason"), 500)
    && (Prop(v, "suggested_task_title") == Null || UpTo(Prop(v, "suggested_task_title"), 120))
  }

  predicate ActionsOk(v: Value) {
    v == Undefined || (v.Arr? && |v.items| <= 6 && forall k | 0 <= k < |v.items| :: UpTo(v.items[k], 160))
  }

  /** Left out, or a record whose fields may each be left out, but not be `null`. */
  ghost predicate BriefOk(v: Value) {
    v == Undefined ||
    (&& v.Obj? && BriefText(Prop(v, "why_calling"), 800) && BriefText(Prop(v, "upset_about"), 800)
     && BriefText(Prop(v, "call_goal"), 500) && ActionsOk(Prop(v, "suggested_actions"))
     && BriefText(Prop(v, "transcript_snippet"), 600)
     && (Prop(v, "direction") == Undefined || OneOf(Prop(v, "direction"), ["inbound", "outbound", "unknown"]))
     && BriefText(Prop(v, "mood"), 120) && BriefText(Prop(v, "issue"), 800) && BriefText(Prop(v, "promise"), 600)
     && BriefText(Prop(v, "next_action"), 600) && EvidenceOk(Prop(v, "evidence")))
  }

  predicate VersionOk(v: Value) { v.Num? && SafeInteger(v.n) && v.n >= 1.0 }

  ghost predicate HeadFieldsOk(row: Value) {
    && MatchOk(Prop(row, "customer_match"))
    && Prop(row, "product_mentions").Arr? && (forall v | v in Prop(row, "product_mentions").items :: MentionOk(v))
    && Prop(row, "psych_tags").Arr? && (forall v | v in Prop(row, "psych_tags").items :: TagOk(v))
    && OneOf(Prop(row, "call_intent"), ["sale", "support", "inquiry", "complaint", "follow_up"])
  }

  predicate SignalFieldsOk(row: Value) {
    && ThreeFlags(Prop(row, "shipping_signals"), "address_mentioned", "tracking_asked", "complaint")
    && ThreeFlags(Prop(row, "payment_signals"), "method_mentioned", "refund_asked", "complaint")
    && OneOf(Prop(row, "urgency_signal"), ["low", "medium", "high", "critical"])
  }

  ghost predicate TailFieldsOk(row: Value) {
    && (var signals := Prop(row, "operational_signals");
        signals == Undefined || (signals.Arr? && forall v | v in signals.items :: SignalOk(v)))
    && BriefOk(Prop(row, "person_brief"))
    && Prop(row, "competitor_mentioned").Arr? && (forall v | v in Prop(row, "competitor_mentioned").items :: v.Str?)
    && UpTo(Prop(row, "summary"), 1200) && Prop(row, "language_detected").Str?
    && VersionOk(Prop(row, "resolved_with_version"))
  }

  lemma RecordIff(shape: Fields, v: Value)
    ensures Parse(Object(shape), v).Some? <==> v.Obj? && ParseFields(shape, v.fields).Some?
  {}

  lemma MatchIff(shape: Fields, v: Value)
    requires Object(shape) == CUSTOMER_MATCH
    ensures Parse(Object(shape), v).Some? <==> MatchOk(v)
  {
    if v.Obj? {
      PeelParse(shape, v.fields);
      PeelParse(shape.rest, v.fields);
      PeelParse(shape.rest.rest, v.fields);
      PeelParse(shape.rest.rest.rest, v.fields);
    }
  }

  lemma MentionIff(shape: Fields, v: Value)
    requires Object(shape) == PRODUCT_MENTION
    ensures Parse(Object(shape), v).Some? <==> MentionOk(v)
  {
    if v.Obj? {
      PeelParse(shape, v.fields);
      PeelParse(shape.rest, v.fields);
      PeelParse(shape.rest.rest, v.fields);
    }
  }

  lemma FlagsIff(shape: Fields, a: string, b: string, c: string, v: Value)
    requires shape == Field(a, Boolean, Field(b, Boolean, Field(c, Boolean, End)))
    ensures Parse(Object(shape), v).Some? <==> ThreeFlags(v, a, b, c)
  {
    if v.Obj? {
      PeelParse(shape, v.fields);
      PeelParse(shape.rest, v.fields);
      PeelParse(shape.rest.rest, v.fields);
    }
  }

  lemma SignalIff(shape: Fields, v: Value)
    requires Object(shape) == OPERATIONAL_SIGNAL
    ensures Parse(Object(shape), v).Some? <==> SignalOk(v)
  {
    if v.Obj? {
      PeelParse(shape, v.fields);
      PeelParse(shape.rest, v.fields);
      PeelParse(shape.rest.rest, v.fields);
      PeelParse(shape.rest.rest.rest, v.fields);
      PeelParse(shape.rest.rest.rest.rest, v.fields);
      PeelParse(shape.rest.rest.rest.rest.rest, v.fields);
    }
  }

  lemma ShortTextIff(max: nat, v: Value)
    ensures Parse(ShortText(max), v).Some? <==> BriefText(v, max)
  {}

  lemma ActionsIff(v: Value)
    ensures Parse(SUGGESTED_ACTIONS, v).Some? <==> ActionsOk(v)
  {
    ListIff(Text(false, 0, Some(160)), Some(6), v);
  }

  lemma BriefTailIff(shape: Fields, v: Value)
    requires v.Obj? && shape == BRIEF_TAIL
    ensures ParseFields(shape, v.fields).Some? <==>
      && (Prop(v, "direction") == Undefined || OneOf(Prop(v, "direction"), ["inbound", "outbound", "unknown"]))
      && BriefText(Prop(v, "mood"), 120) && BriefText(Prop(v, "issue"), 800) && BriefText(Prop(v, "promise"), 600)
      && BriefText(Prop(v, "next_action"), 600) && EvidenceOk(Prop(v, "evidence"))
  {
    PeelParse(shape, v.fields);
    PeelParse(shape.rest, v.fields);
    PeelParse(shape.rest.rest, v.fields);
    PeelParse(shape.rest.rest.rest, v.fields);
    PeelParse(shape.rest.rest.rest.rest, v.fields);
    PeelParse(shape.rest.rest.rest.rest.rest, v.fields);
    EvidenceIff(Get(v.fields, "evidence"));
  }

  lemma BriefHeadIff(
    text800: Schema, text500: Schema, actions: Schema, text600: Schema, rest: Fields, m: map<string, Value>)
    ensures ParseFields(BriefHead(text800, text500, actions, text600, rest), m).Some?
       <==> && Parse(text800, Get(m, "why_calling")).Some? && Parse(text800, Get(m, "upset_about")).Some?
            && Parse(text500, Get(m, "call_goal")).Some? && Parse(actions, Get(m, "suggested_actions")).Some?
            && Parse(text600, Get(m, "transcript_snippet")).Some? && ParseFields(rest, m).Some?
  {
    var shape := BriefHead(text800, text500, actions, text600, rest);
    PeelParse(shape, m);
    PeelParse(shape.rest, m);
    PeelParse(shape.rest.rest, m);
    PeelParse(shape.rest.rest.rest, m);
    PeelParse(shape.rest.rest.rest.rest, m);
  }

  lemma BriefIff(v: Value)
    ensures Parse(PERSON_BRIEF, v).Some? <==> BriefOk(v)
  {
    if v.Obj? {
      var m := v.fields;
      BriefIsHeadAndTail();
      BriefHeadIff(ShortText(800), ShortText(500), SUGGESTED_ACTIONS, ShortText(600), BRIEF_TAIL, m);
      BriefTailIff(BRIEF_TAIL, v);
      ShortTextIff(800, Get(m, "why_calling"));
      ShortTextIff(800, Get(m, "upset_about"));
      ShortTextIff(500, Get(m, "call_goal"));
      ShortTextIff(600, Get(m, "transcript_snippet"));
      ActionsIff(Get(m, "suggested_actions"));
      RecordIff(BRIEF_SHAPE, v);
    }
  }

  lemma HeadIff(
    customer: Schema, product: Schema, tag: Schema, intent: Schema, rest: Fields, m: map<string, Value>)
    ensures ParseFields(HeadShape(customer, product, tag, intent, rest), m).Some?
       <==> && Parse(customer, Get(m, "customer_match")).Some?
            && Parse(Array(product, None), Get(m, "product_mentions")).Some?
            && Parse(Array(tag, None), Get(m, "psych_tags")).Some?
            && Parse(intent, Get(m, "call_intent")).Some? && ParseFields(rest, m).Some?
  {
    var shape := HeadShape(customer, product, tag, intent, rest);
    PeelParse(shape, m);
    PeelParse(shape.rest, m);
    PeelParse(shape.rest.rest, m);
    PeelParse(shape.rest.rest.rest, m);
  }

  lemma SignalsIff(shipping: Schema, payment: Schema, urgency: Schema, rest: Fields, m: map<string, Value>)
    ensures ParseFields(SignalShape(shipping, payment, urgency, rest), m).Some?
       <==> && Parse(shipping, Get(m, "shipping_signals")).Some? && Parse(payment, Get(m, "payment_signals")).Some?
            && Parse(urgency, Get(m, "urgency_signal")).Some? && ParseFields(rest, m).Some?
  {
    var shape := SignalShape(shipping, payment, urgency, rest);
    PeelParse(shape, m);
    PeelParse(shape.rest, m);
    PeelParse(shape.rest.rest, m);
  }

  lemma TailIff(signals: Schema, brief: Schema, m: map<string, Value>)
    ensures ParseFields(TailShape(signals, brief), m).Some?
       <==> && Parse(signals, Get(m, "operational_signals")).Some? && Parse(brief, Get(m, "person_brief")).Some?
            && Parse(Array(ANY_STRING, None), Get(m, "competitor_mentioned")).Some?
            && UpTo(Get(m, "summary"), 1200) && Get(m, "language_detected").Str?
            && VersionOk(Get(m, "resolved_with_version"))
  {
    var shape := TailShape(signals, brief);
    PeelParse(shape, m);
    PeelParse(shape.rest, m);
    PeelParse(shape.rest.rest, m);
    PeelParse(shape.rest.rest.rest, m);
    PeelParse(shape.rest.rest.rest.rest, m);
    PeelParse(shape.rest.rest.rest.rest.rest, m);
    var version := Get(m, "resolved_with_version");
    if version.Num? { SafeIs(version.n); }
  }

  // ----- omitting version 5 from the four parts

  lemma PeelOmit(shape: Fields, keys: set<string>)
    requires shape.Field?
    ensures Omit(shape, keys)
         == if shape.name in keys then Omit(shape.rest, keys)
            else Field(shape.name, shape.schema, Omit(shape.rest, keys))
  {}

  lemma OmitHead(customer: Schema, product: Schema, tag: Schema, intent: Schema, rest: Fields)
    ensures Omit(HeadShape(customer, product, tag, intent, rest), V5_KEYS)
         == HeadShape(customer, product, tag, intent, Omit(rest, V5_KEYS))
  {
    var shape := HeadShape(customer, product, tag, intent, rest);
    PeelOmit(shape, V5_KEYS);
    PeelOmit(shape.rest, V5_KEYS);
    PeelOmit(shape.rest.rest, V5_KEYS);
    PeelOmit(shape.rest.rest.rest, V5_KEYS);
  }

  lemma OmitSignals(shipping: Schema, payment: Schema, urgency: Schema, rest: Fields)
    ensures Omit(SignalShape(shipping, payment, urgency, rest), V5_KEYS)
         == SignalShape(shipping, payment, urgency, Omit(rest, V5_KEYS))
  {
    var shape := SignalShape(shipping, payment, urgency, rest);
    PeelOmit(shape, V5_KEYS);
    PeelOmit(shape.rest, V5_KEYS);
    PeelOmit(shape.rest.rest, V5_KEYS);
  }

  lemma OmitV5(conversation: Schema, mood: Schema, issue: Schema, promise: Schema, nextAction: Schema, rest: Fields)
    ensures Omit(V5Shape(conversation, mood, issue, promise, nextAction, rest), V5_KEYS) == Omit(rest, V5_KEYS)
  {
    var shape := V5Shape(conversation, mood, issue, promise, nextAction, rest);
    PeelOmit(shape, V5_KEYS);
    PeelOmit(shape.rest, V5_KEYS);
    PeelOmit(shape.rest.rest, V5_KEYS);
    PeelOmit(shape.rest.rest.rest, V5_KEYS);
    PeelOmit(shape.rest.rest.rest.rest, V5_KEYS);
  }

  lemma OmitTail(signals: Schema, brief: Schema)
    ensures Omit(TailShape(signals, brief), V5_KEYS) == TailShape(signals, brief)
  {
    var shape := TailShape(signals, brief);
    PeelOmit(shape, V5_KEYS);
    PeelOmit(shape.rest, V5_KEYS);
    PeelOmit(shape.rest.rest, V5_KEYS);
    PeelOmit(shape.rest.rest.rest, V5_KEYS);
    PeelOmit(shape.rest.rest.rest.rest, V5_KEYS);
    PeelOmit(shape.rest.rest.rest.rest.rest, V5_KEYS);
  }

  lemma LegacyParts()
    ensures Omit(OUTPUT, V5_KEYS)
         == HeadShape(CUSTOMER_MATCH, PRODUCT_MENTION, PSYCH_TAG, CALL_INTENT,
              SignalShape(SHIPPING_SIGNALS, PAYMENT_SIGNALS, URGENCY, OUTPUT_TAIL))
  {
    OutputIsFourParts();
    OmitTail(SIGNALS, PERSON_BRIEF);
    OmitV5(CONVERSATION, CUSTOMER_MOOD, CUSTOMER_ISSUE, PROMISE, NEXT_ACTION, OUTPUT_TAIL);
    OmitSignals(SHIPPING_SIGNALS, PAYMENT_SIGNALS, URGENCY, OUTPUT_V5);
    OmitHead(CUSTOMER_MATCH, PRODUCT_MENTION, PSYCH_TAG, CALL_INTENT, OUTPUT_SIGNALS);
  }

  // ----- the reader

  lemma HeadFieldsIff(rest: Fields, m: map<string, Value>)
    ensures ParseFields(HeadShape(CUSTOMER_MATCH, PRODUCT_MENTION, PSYCH_TAG, CALL_INTENT, rest), m).Some?
       <==> HeadFieldsOk(Obj(m)) && ParseFields(rest, m).Some?
  {
    HeadIff(CUSTOMER_MATCH, PRODUCT_MENTION, PSYCH_TAG, CALL_INTENT, rest, m);
    MatchIff(CUSTOMER_MATCH.shape, Get(m, "customer_match"));
    MentionsIff(Get(m, "product_mentions"));
    TagsIff(Get(m, "psych_tags"));
  }

  lemma MentionsIff(v: Value)
    ensures Parse(Array(PRODUCT_MENTION, None), v).Some? <==> v.Arr? && forall item | item in v.items :: MentionOk(item)
  {
    ListIff(PRODUCT_MENTION, None, v);
    forall item ensures Parse(PRODUCT_MENTION, item).Some? <==> MentionOk(item) {
      MentionIff(PRODUCT_MENTION.shape, item);
    }
  }

  lemma TagsIff(v: Value)
    ensures Parse(Array(PSYCH_TAG, None), v).Some? <==> v.Arr? && forall item | item in v.items :: TagOk(item)
  {
    ListIff(PSYCH_TAG, None, v);
    forall item ensures Parse(PSYCH_TAG, item).Some? <==> TagOk(item) {
      EnumIff(item, PSYCH_TAG.options);
    }
  }

  lemma OperationalIff(v: Value)
    ensures Parse(SIGNALS, v).Some? <==> v == Undefined || (v.Arr? && forall item | item in v.items :: SignalOk(item))
  {
    ListIff(OPERATIONAL_SIGNAL, None, v);
    forall item ensures Parse(OPERATIONAL_SIGNAL, item).Some? <==> SignalOk(item) {
      SignalIff(OPERATIONAL_SIGNAL.shape, item);
    }
  }

  lemma SignalFieldsIff(rest: Fields, m: map<string, Value>)
    ensures ParseFields(SignalShape(SHIPPING_SIGNALS, PAYMENT_SIGNALS, URGENCY, rest), m).Some?
       <==> SignalFieldsOk(Obj(m)) && ParseFields(rest, m).Some?
  {
    SignalsIff(SHIPPING_SIGNALS, PAYMENT_SIGNALS, URGENCY, rest, m);
    var shipping, payment := Get(m, "shipping_signals"), Get(m, "payment_signals");
    FlagsIff(SHIPPING_SIGNALS.shape, "address_mentioned", "tracking_asked", "complaint", shipping);
    FlagsIff(PAYMENT_SIGNALS.shape, "method_mentioned", "refund_asked", "complaint", payment);
  }

  lemma TailFieldsIff(m: map<string, Value>)
    ensures ParseFields(OUTPUT_TAIL, m).Some? <==> TailFieldsOk(Obj(m))
  {
    TailIff(SIGNALS, PERSON_BRIEF, m);
    OperationalIff(Get(m, "operational_signals"));
    BriefIff(Get(m, "person_brief"));
    ListIff(ANY_STRING, None, Get(m, "competitor_mentioned"));
  }

  /** A stored value is read exactly when it is a record whose fields other than the five of version 5 are well
      formed. */
  lemma {:induction false} ReadIff(row: Value)
    ensures ParseStored(row).Success?
       <==> row.Obj? && HeadFieldsOk(row) && SignalFieldsOk(row) && TailFieldsOk(row)
  {
    ReadIffLegacyAccepts(row);
    RecordIff(Omit(OUTPUT, V5_KEYS), row);
    if row.Obj? {
      LegacyParts();
      HeadFieldsIff(SignalShape(SHIPPING_SIGNALS, PAYMENT_SIGNALS, URGENCY, OUTPUT_TAIL), row.fields);
      SignalFieldsIff(OUTPUT_TAIL, row.fields);
      TailFieldsIff(row.fields);
    }
  }
}
