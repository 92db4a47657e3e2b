/**
 The registry of operational intents, in its own order, and facts about that order.
 */
module IntentRegistry {
  import opened IntentText
  import opened IntentDetector
  import opened IntentReadings

  const SPARE_PART_PURCHASE_INTENT: Entry := Entry("spare_part_purchase_intent", [
    "spare part", "replacement part", "part for", "parts for", "machine part", "printer part", "yedek parca",
    "parca", "parcasi", "parca sor", "parca isteyen", "parca arayan", "wiper blade", "blade", "handle",
    "sliding handle", "nozzle", "damper", "cap top", "printhead", "motherboard", "sensor", "belt", "cable",
    "tube"])

  const HEAT_PRESS_MACHINE_PURCHASE_INTENT: Entry := Entry("heat_press_machine_purchase_intent", [
    "heat press machine", "new heat press", "buy heat press", "purchase heat press", "heat press price",
    "hydraulic press machine", "press machine", "machine purchase", "new machine", "hydro heat press",
    "dual station", "auto open", "clamshell", "swing away", "pneumatic", "16x20", "15x15"])

  const HEAT_PRESS_PURCHASE_INTENT: Entry := Entry("heat_press_purchase_intent", [
    "heat press", "hydro", "hydraulic press", "press machine", "machine purchase", "dual station",
    "auto open", "clamshell", "swing away", "pneumatic", "16x20", "15x15", "heat platen",
    "sublimation press", "mug press", "cap press", "rhinestone press"])

  const DTF_SUPPLY_REORDER_SIGNAL: Entry := Entry("dtf_supply_reorder_signal", [
    "dtf supply", "dtf supplies", "supplies", "ink", "white ink", "cmyk", "powder", "adhesive powder",
    "hot melt", "film", "pet film", "roll film", "transfer film", "transfer", "gang sheet", "dtf transfers",
    "consumable", "cleaning solution", "printhead", "maintenance", "reorder", "restock", "running low",
    "out of ink", "out of film", "out of powder", "need more", "again"])

  const QUOTE_REQUEST: Entry := Entry("quote_request", [
    "quote", "estimate", "proposal", "invoice", "pricing send", "send pricing", "send me price",
    "purchase order", "po", "bulk pricing", "volume pricing", "wholesale", "reseller", "net terms"])

  const CALLBACK_REQUESTED: Entry := Entry("callback_requested", [
    "call back", "callback", "call me", "call me back", "can someone call", "ring me", "missed call",
    "voicemail", "left a message", "reach out", "follow up", "schedule a call", "tekrar ara"])

  const REFUND_REQUESTED: Entry := Entry("refund_requested", [
    "refund", "return", "chargeback", "cancel order", "cancel my order", "money back", "dispute", "exchange",
    "return label", "replacement", "iade"])

  const SHIPPING_STATUS_QUESTION: Entry := Entry("shipping_status_question", [
    "shipping", "delivery", "tracking", "freight", "liftgate", "address", "where is my order", "eta",
    "lost package", "damaged shipment", "dock", "kargo"])

  const FINANCING_QUESTION: Entry := Entry("financing_question", [
    "financing", "finance", "lease", "leasing", "timepayment", "monthly payment", "payment plan",
    "installments", "shop pay", "affirm", "down payment", "credit application", "finans"])

  const PRICE_OBJECTION: Entry := Entry("price_objection", [
    "price", "discount", "expensive", "too much", "cheaper", "price match", "match price",
    "competitor cheaper", "coupon", "promo", "deal", "budget", "can you do better", "fiyat", "indirim"])

  const PRODUCT_FIT_QUESTION: Entry := Entry("product_fit_question", [
    "which machine", "which one", "right machine", "what size", "what do i need", "compare", "recommend",
    "recommendation", "fit my", "beginner", "startup", "starter", "best for shirts", "best for hats",
    "compatibility", "compatible", "works with", "production volume", "uygun"])

  const SAMPLE_REQUEST: Entry := Entry("sample_request", [
    "sample", "samples", "test print", "demo print", "sample pack", "proof", "see quality", "numune"])

  const MACHINE_UPGRADE_INTEREST: Entry := Entry("machine_upgrade_interest", [
    "upgrade", "bigger machine", "larger machine", "second machine", "another machine", "replace my machine",
    "faster machine", "higher volume", "more production", "add station", "dual station upgrade",
    "new location"])

  const TRAINING_INSTALLATION_NEED: Entry := Entry("training_installation_need", [
    "training", "installation", "install", "setup", "assembly", "how to use", "onboarding", "calibration",
    "pressure setting", "temperature setting", "time setting", "not heating", "wont heat", "won't heat",
    "uneven pressure", "peeling", "curing", "error code", "not working", "troubleshoot", "kurulum", "egitim"])

  const EXISTING_CUSTOMER_EXPANSION_SIGNAL: Entry := Entry("existing_customer_expansion_signal", [
    "existing customer", "buy more", "add another", "new product", "also need", "upsell", "more locations",
    "new location", "expanding", "new employee", "new line", "more volume", "second unit"])

  const HUMAN_REVIEW_REQUIRED: Entry := Entry("human_review_required", [
    "human review required", "structured output conflict", "uncertain operational intent"])

  const NO_ACTION_ENTRY: Entry := Entry("no_action", [
    "no action", "not actionable", "wrong number", "spam", "silent call"])

  const REGISTRY: seq<Entry> := [
    SPARE_PART_PURCHASE_INTENT, HEAT_PRESS_MACHINE_PURCHASE_INTENT, HEAT_PRESS_PURCHASE_INTENT,
    DTF_SUPPLY_REORDER_SIGNAL, QUOTE_REQUEST, CALLBACK_REQUESTED, REFUND_REQUESTED, SHIPPING_STATUS_QUESTION,
    FINANCING_QUESTION, PRICE_OBJECTION, PRODUCT_FIT_QUESTION, SAMPLE_REQUEST, MACHINE_UPGRADE_INTEREST,
    TRAINING_INSTALLATION_NEED, EXISTING_CUSTOMER_EXPANSION_SIGNAL, HUMAN_REVIEW_REQUIRED, NO_ACTION_ENTRY]

  /** The position of each intent. */
  function Position(value: string): int {
    if value == "spare_part_purchase_intent" then 0
    else if value == "heat_press_machine_purchase_intent" then 1
    else if value == "heat_press_purchase_intent" then 2
    else if value == "dtf_supply_reorder_signal" then 3
    else if value == "quote_request" then 4
    else if value == "callback_requested" then 5
    else if value == "refund_requested" then 6
    else if value == "shipping_status_question" then 7
    else if value == "financing_question" then 8
    else if value == "price_objection" then 9
    else if value == "product_fit_question" then 10
    else if value == "sample_request" then 11
    else if value == "machine_upgrade_interest" then 12
    else if value == "training_installation_need" then 13
    else if value == "existing_customer_expansion_signal" then 14
    else if value == "human_review_required" then 15
    else 16
  }

  lemma PositionIsEarly(i: nat)
    requires i < 9
    ensures Position(REGISTRY[i].value) == i
  {}

  lemma PositionIsLate(i: nat)
    requires 9 <= i < |REGISTRY|
    ensures Position(REGISTRY[i].value) == i
  {}

  lemma PositionIs(i: nat)
    requires i < |REGISTRY|
    ensures Position(REGISTRY[i].value) == i
  {
    if i < 9 { PositionIsEarly(i); } else { PositionIsLate(i); }
  }

  lemma RegistryIsRanked()
    ensures Ranked(REGISTRY)
  {
    forall i, j | 0 <= i < j < |REGISTRY| ensures REGISTRY[i].value != REGISTRY[j].value {
      PositionIs(i);
      PositionIs(j);
    }
  }

  /** In the shipped registry, adding text never lowers priority. */
  lemma {:induction false} MoreTextRanksNoLower(a: string, b: string)
    ensures Rank(REGISTRY, Detect(REGISTRY, a + " " + b)) <= Rank(REGISTRY, Detect(REGISTRY, a))
    ensures Rank(REGISTRY, Detect(REGISTRY, a + " " + b)) <= Rank(REGISTRY, Detect(REGISTRY, b))
  {
    RegistryIsRanked();
    AddingTextNeverLowersPriority(REGISTRY, a, b);
  }

  /** Small letters, digits and single inner spaces: the keywords the normaliser leaves alone. */
  predicate PlainKeyword(k: string) {
    && k != ""
    && (forall i | 0 <= i < |k| :: 'a' <= k[i] <= 'z' || '0' <= k[i] <= '9' || (k[i] == ' ' && 0 < i < |k| - 1))
    && (forall i | 0 < i < |k| && k[i] == ' ' :: k[i - 1] != ' ')
  }

  lemma PlainIsNormal(k: string)
    requires PlainKeyword(k)
    ensures Normalize(k) == k
  {
    assert CanonicalText(k);
    FixedIffCanonical(k);
  }

  lemma PlainInPlain(k2: string, k1: string, rest: string)
    requires PlainKeyword(k2) && PlainKeyword(k1) && k2 == k1 + rest && (rest != "" ==> rest[0] == ' ')
    ensures HasKeyword(Normalize(k2), k1)
  {
    PlainIsNormal(k1);
    PlainIsNormal(k2);
    assert k2[0..|k1|] == k1;
    assert IsWordChar(k1[0]) && IsWordChar(k1[|k1| - 1]);
    assert k2[0] == k1[0] && k2[|k1| - 1] == k1[|k1| - 1] && (rest != "" ==> k2[|k1|] == ' ');
    assert MatchAt(k2, k1, 0);
  }

  lemma LongerKeywordIsDead(registry: seq<Entry>, j: nat, m: nat, i: nat, n: nat, rest: string, value: string)
    requires i < j < |registry| && m < |registry[j].keywords| && n < |registry[i].keywords|
    requires registry[i].value != NO_ACTION
    requires PlainKeyword(registry[j].keywords[m]) && PlainKeyword(registry[i].keywords[n])
    requires registry[j].keywords[m] == registry[i].keywords[n] + rest && (rest != "" ==> rest[0] == ' ')
    ensures Detect(registry[j := Without(registry[j], m)], value) == Detect(registry, value)
  {
    PlainInPlain(registry[j].keywords[m], registry[i].keywords[n], rest);
    ShadowedKeywordIsDead(registry, j, m, i, n, value);
  }

  lemma DualStationIsPlain()
    ensures PlainKeyword("dual station")
  {}

  lemma UpgradeIsPlain()
    ensures PlainKeyword("dual station upgrade")
  {}

  /** The keyword "dual station upgrade" of the upgrade entry decides nothing: "dual station", which ranks
      eleven entries earlier, is part of it. */
  lemma DualStationUpgradeIsDead(value: string)
    ensures REGISTRY[12].keywords[10] == "dual station upgrade"
    ensures Detect(REGISTRY[12 := Without(REGISTRY[12], 10)], value) == Detect(REGISTRY, value)
  {
    DualStationIsPlain();
    UpgradeIsPlain();
    assert REGISTRY[1].keywords[10] == "dual station";
    assert "dual station" + " upgrade" == "dual station upgrade";
    LongerKeywordIsDead(REGISTRY, 12, 10, 1, 10, " upgrade", value);
  }

  /** So does "printhead" of the supply entry: the spare-part entry has it first. */
  lemma SupplyPrintheadIsDead(value: string)
    ensures REGISTRY[3].keywords[18] == "printhead"
    ensures Detect(REGISTRY[3 := Without(REGISTRY[3], 18)], value) == Detect(REGISTRY, value)
  {
    assert REGISTRY[0].keywords[19] == "printhead";
    assert "printhead" + "" == "printhead";
    LongerKeywordIsDead(REGISTRY, 3, 18, 0, 19, "", value);
  }

  // ----- one keyword of each intent, in any text

  /** A keyword, the intent it speaks for, and where the registry has it. */
  datatype Sample = Sample(keyword: string, intent: string, at: nat)

  const SAMPLES: seq<Sample> := [
    Sample("nozzle", "spare_part_purchase_intent", 16),
    Sample("clamshell", "heat_press_machine_purchase_intent", 12),
    Sample("heat press", "heat_press_purchase_intent", 0),
    Sample("reorder", "dtf_supply_reorder_signal", 20),
    Sample("quote", "quote_request", 0),
    Sample("callback", "callback_requested", 1),
    Sample("refund", "refund_requested", 0),
    Sample("freight", "shipping_status_question", 3),
    Sample("financing", "financing_question", 0),
    Sample("discount", "price_objection", 1),
    Sample("starter", "product_fit_question", 11),
    Sample("sample", "sample_request", 0),
    Sample("upgrade", "machine_upgrade_interest", 0),
    Sample("setup", "training_installation_need", 3),
    Sample("upsell", "existing_customer_expansion_signal", 5),
    Sample("human review required", "human_review_required", 0)
  ]

  lemma SamplesAreListed1(i: nat)
    requires 0 <= i < 8
    ensures var w := SAMPLES[i];
      && REGISTRY[i].value == w.intent && w.at < |REGISTRY[i].keywords| && REGISTRY[i].keywords[w.at] == w.keyword
  {}

  lemma SamplesAreListed2(i: nat)
    requires 8 <= i < 16
    ensures var w := SAMPLES[i];
      && REGISTRY[i].value == w.intent && w.at < |REGISTRY[i].keywords| && REGISTRY[i].keywords[w.at] == w.keyword
  {}

  lemma SamplesArePlain1(i: nat)
    requires 0 <= i < 4
    ensures PlainKeyword(SAMPLES[i].keyword)
  {}

  lemma SamplesArePlain2(i: nat)
    requires 4 <= i < 8
    ensures PlainKeyword(SAMPLES[i].keyword)
  {}

  lemma SamplesArePlain3(i: nat)
    requires 8 <= i < 12
    ensures PlainKeyword(SAMPLES[i].keyword)
  {}

  lemma SamplesArePlain4(i: nat)
    requires 12 <= i < 15
    ensures PlainKeyword(SAMPLES[i].keyword)
  {}

  lemma PlainBeside(a: string, b: string)
    requires PlainKeyword(a) && PlainKeyword(b)
    ensures PlainKeyword(a + " " + b)
  {}

  lemma ThreePlainWords(k: string, a: string, b: string, c: string)
    requires k == a + " " + (b + " " + c) && PlainKeyword(a) && PlainKeyword(b) && PlainKeyword(c)
    ensures PlainKeyword(k)
  {
    PlainBeside(b, c);
    PlainBeside(a, b + " " + c);
  }

  lemma ReviewWordsArePlain()
    ensures PlainKeyword("human") && PlainKeyword("review")
  {}

  lemma RequiredIsPlain()
    ensures PlainKeyword("required")
  {}

  lemma LastSampleIs(k: string)
    requires k == SAMPLES[15].keyword
    ensures k == "human" + " " + ("review" + " " + "required")
  {}

  lemma LastSampleIsPlain(k: string)
    requires k == SAMPLES[15].keyword
    ensures PlainKeyword(k)
  {
    LastSampleIs(k);
    ReviewWordsArePlain();
    RequiredIsPlain();
    ThreePlainWords(k, "human", "review", "required");
  }

  /** A text with "refund" in it, say, before and behind which no word goes on, is detected as `refund_requested` or an
      intent that ranks earlier; and so for each other intent. */
  lemma {:induction false} SampleIsFound(i: nat, x: string, y: string)
    requires i < |SAMPLES| && !WordEnds(FlatMap(x, Reading)) && !WordStarts(FlatMap(y, Reading))
    ensures Rank(REGISTRY, Detect(REGISTRY, x + SAMPLES[i].keyword + y)) <= Rank(REGISTRY, SAMPLES[i].intent) == i
  {
    if i < 8 { SamplesAreListed1(i); } else { SamplesAreListed2(i); }
    if i < 4 { SamplesArePlain1(i); } else if i < 8 { SamplesArePlain2(i); }
    else if i < 12 { SamplesArePlain3(i); } else if i < 15 { SamplesArePlain4(i); }
    else { LastSampleIsPlain(SAMPLES[i].keyword); }
    var w := SAMPLES[i];
    RegistryIsRanked();
    RankAt(REGISTRY, i);
    PlainIsCanonical(w.keyword);
    FoundInText(REGISTRY, i, w.at, x, y);
  }

  lemma PlainIsCanonical(k: string)
    requires PlainKeyword(k)
    ensures CanonicalText(k) && WordStarts(k) && WordEnds(k)
  {}
}
