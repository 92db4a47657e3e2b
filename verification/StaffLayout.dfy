/**
 When one application of the rewriter is enough, read off the text itself: the 23 phrase rules as rows of words,
 and how far each is from the rows that survive to the tokens.
 */
module StaffLayout {
  import opened Wrappers
  import opened Text
  import opened Words
  import opened Delimited
  import opened StaffText
  import opened StaffChains
  import opened StaffTokens
  import opened StaffImages
  import opened StaffTables
  import opened StaffIdempotence
  import opened StaffBound
  import opened StaffInput

  // ----- a rule as its words

  /** Two words become two words. */
  predicate Two(r: Rule, x: string, y: string, a: string, c: char, b: string) {
    r.words == [x, y] && Letters(x) && Letters(y) && TwoWordText(r.replacement, a, c, b)
  }

  lemma TwoReads(r: Rule, x: string, y: string, a: string, c: char, b: string)
    requires Two(r, x, y, a, c, b)
    ensures FormsOf(r) == [{x}, if r.plural then {y, y + "s"} else {y}] && Image(r) == [Some(a), Some(b)]
  {
    PairForms(r.words, r.plural, x, y);
    TwoLinks(a, c, b);
  }

  /** Two words become three. */
  predicate ToThree(r: Rule, x: string, y: string, a: string, c: char, m: string, d: char, b: string) {
    r.words == [x, y] && Letters(x) && Letters(y) && ThreeWordText(r.replacement, a, c, m, d, b)
  }

  lemma ToThreeReads(r: Rule, x: string, y: string, a: string, c: char, m: string, d: char, b: string)
    requires ToThree(r, x, y, a, c, m, d, b)
    ensures FormsOf(r) == [{x}, if r.plural then {y, y + "s"} else {y}]
    ensures Image(r) == [Some(LowerText(a)), Some(m), Some(b)]
  {
    PairForms(r.words, r.plural, x, y);
    ThreeLinks(r.replacement, a, c, m, d, b);
  }

  // ----- rules without any of the words of the rows

  const ROW_WORDS: set<string> := {
    "ai", "analysis", "stale", "automation", "service", "commission", "follow", "up", "workflow", "rule", "rules",
    "trace"}

  /** None of these words is in the rule. */
  ghost predicate Away(r: Rule, words: set<string>) {
    && Image(r) != [] && (forall k | 0 <= k < |FormsOf(r)| :: FormsOf(r)[k] !! words)
    && forall k | 0 <= k < |Image(r)| :: !In(Image(r)[k], words)
  }

  ghost predicate Neutral(r: Rule) { Away(r, ROW_WORDS) }

  lemma AwayIsFar(r: Rule, words: set<string>, forms: seq<set<string>>, barred: set<string>)
    requires Away(r, words) && forms != [] && barred <= words
    requires forall k | 0 <= k < |forms| :: forms[k] <= words
    ensures Far(r, forms, barred)
  {}

  ghost predicate PairsFarFrom(r: Rule) {
    Far(r, AI_ANALYSIS, {}) && Far(r, STALE_AUTOMATION, {}) && Far(r, SERVICE_COMMISSION, {})
  }

  ghost predicate LooseFarFrom(r: Rule) {
    && Far(r, STALE_WORKFLOW, RULES) && Far(r, STALE_WORKFLOW + RULE_TRACE, {})
    && Far(r, STALE_AI_WORKFLOW, RULES) && Far(r, STALE_AI_WORKFLOW + RULE_TRACE, {})
  }

  ghost predicate FollowUpFarFrom(r: Rule) { Far(r, STALE_FOLLOW_UP, {}) }

  lemma NeutralFar(r: Rule)
    requires Neutral(r)
    ensures PairsFarFrom(r) && FollowUpFarFrom(r) && Far(r, STALE_STALE_FOLLOW_UP, {}) && Far(r, STALE_WORKFLOW, {})
  {
    AwayIsFar(r, ROW_WORDS, AI_ANALYSIS, {});
    AwayIsFar(r, ROW_WORDS, STALE_AUTOMATION, {});
    AwayIsFar(r, ROW_WORDS, SERVICE_COMMISSION, {});
    AwayIsFar(r, ROW_WORDS, STALE_FOLLOW_UP, {});
    AwayIsFar(r, ROW_WORDS, STALE_STALE_FOLLOW_UP, {});
    AwayIsFar(r, ROW_WORDS, STALE_WORKFLOW, {});
  }

  const LOOSE_WORDS: set<string> := {"stale", "ai", "workflow", "rule", "rules", "trace"}

  lemma AwayLoose(r: Rule)
    requires Away(r, LOOSE_WORDS)
    ensures LooseFarFrom(r)
  {
    AwayIsFar(r, LOOSE_WORDS, STALE_WORKFLOW, RULES);
    AwayIsFar(r, LOOSE_WORDS, STALE_WORKFLOW + RULE_TRACE, {});
    AwayIsFar(r, LOOSE_WORDS, STALE_AI_WORKFLOW, RULES);
    AwayIsFar(r, LOOSE_WORDS, STALE_AI_WORKFLOW + RULE_TRACE, {});
  }

  lemma TwoNeutral(r: Rule, x: string, y: string, ys: string, a: string, c: char, b: string)
    requires Two(r, x, y, a, c, b) && (r.plural ==> ys == y + "s") && {x, y, ys, a, b} !! ROW_WORDS
    ensures Neutral(r)
  {
    TwoReads(r, x, y, a, c, b);
  }

  lemma ToThreeNeutral(
    r: Rule, x: string, y: string, ys: string, a: string, c: char, m: string, d: char, b: string)
    requires ToThree(r, x, y, a, c, m, d, b) && (r.plural ==> ys == y + "s")
    requires {x, y, ys, LowerText(a), m, b} !! ROW_WORDS
    ensures Neutral(r)
  {
    ToThreeReads(r, x, y, a, c, m, d, b);
  }

  lemma OneNeutral(r: Rule, x: string, y: string, w: string)
    requires r.words == [x, y] && !r.plural && Letters(x) && Letters(y) && r.replacement == w && Letters(w)
    requires {x, y, w} !! ROW_WORDS
    ensures Neutral(r)
  {
    PairForms(r.words, r.plural, x, y);
    OneLink(w);
  }

  // ----- the neutral rules of the table

  lemma NeutralA(k: nat, r: Rule)
    requires (k == 1 || k == 3) && PHRASES_A[k] == r
    ensures Neutral(r)
  {
    if k == 1 {
      assert "customer" + [' '] + "priority" == "customer priority";
      TwoNeutral(r, "segment", "priority", "priority", "customer", ' ', "priority");
    } else {
      OneNeutral(r, "admin", "transfer", "transferred");
    }
  }

  lemma NeutralSupportCase(r: Rule)
    requires PHRASES_C[0] == r
    ensures Neutral(r)
  {
    assert "customer" + [' '] + "request" == "customer request" && "case" + "s" == "cases";
    TwoNeutral(r, "support", "case", "cases", "customer", ' ', "request");
  }

  lemma NeutralSupportAxis(r: Rule)
    requires PHRASES_C[1] == r
    ensures Neutral(r)
  {
    assert "customer" + [' '] + ("request" + [' '] + "focus") == "customer request focus";
    LettersLower("customer");
    ToThreeNeutral(r, "support", "axis", "axis", "customer", ' ', "request", ' ', "focus");
  }

  lemma NeutralSales(r: Rule)
    requires PHRASES_C[2] == r
    ensures Neutral(r)
  {
    assert "purchase" + [' '] + ("intent" + [' '] + "focus") == "purchase intent focus";
    LettersLower("purchase");
    ToThreeNeutral(r, "sales", "axis", "axis", "purchase", ' ', "intent", ' ', "focus");
  }

  lemma NeutralShopify(r: Rule)
    requires PHRASES_C[3] == r
    ensures Neutral(r)
  {
    assert "Shopify" + [' '] + ("customer" + [' '] + "list") == "Shopify customer list";
    assert "segment" + "s" == "segments" && LowerText("Shopify") == "shopify";
    ToThreeNeutral(r, "shopify", "segment", "segments", "Shopify", ' ', "customer", ' ', "list");
  }

  lemma NeutralCustomer(r: Rule)
    requires PHRASES_C[4] == r
    ensures Neutral(r)
  {
    assert "customer" + [' '] + "list" == "customer list" && "segment" + "s" == "segments";
    TwoNeutral(r, "customer", "segment", "segments", "customer", ' ', "list");
  }

  lemma NeutralExcerpt(k: nat, r: Rule)
    requires k < 2 && PHRASES_D[k] == r
    ensures Neutral(r)
  {
    if k == 0 {
      assert "call" + [' '] + "excerpt" == "call excerpt" && "snippet" + "s" == "snippets";
      TwoNeutral(r, "transcript", "snippet", "snippets", "call", ' ', "excerpt");
    } else {
      assert "call" + [' '] + "preview" == "call preview" && "preview" + "s" == "previews";
      TwoNeutral(r, "transcript", "preview", "previews", "call", ' ', "preview");
    }
  }

  lemma NeutralResolver(r: Rule)
    requires PHRASES_D[2] == r
    ensures Neutral(r)
  {
    assert "call" + [' '] + "summary" == "call summary";
    TwoNeutral(r, "transcript", "resolver", "resolver", "call", ' ', "summary");
  }

  lemma NeutralAt(k: nat, r: Rule)
    requires (k == 1 || k == 3 || 13 <= k <= 20) && k < |PHRASES| && PHRASES[k] == r
    ensures Neutral(r)
  {
    if k < 13 {
      NeutralA(k, r);
    } else if k < 18 {
      assert r == PHRASES_C[k - 13];
      if k == 13 { NeutralSupportCase(r); } else if k == 14 { NeutralSupportAxis(r); }
      else if k == 15 { NeutralSales(r); } else if k == 16 { NeutralShopify(r); } else { NeutralCustomer(r); }
    } else {
      assert r == PHRASES_D[k - 18];
      if k < 20 { NeutralExcerpt(k - 18, r); } else { NeutralResolver(r); }
    }
  }

  // ----- the other rules of the table

  ghost predicate Reads(r: Rule, forms: seq<set<string>>, image: seq<Link>) {
    FormsOf(r) == forms && Image(r) == image
  }

  lemma CallAnalysisReads(r: Rule)
    requires r == PHRASES_A[0]
    ensures Reads(r, [{"call"}, {"analysis"}], [Some("call"), Some("summary")])
  {
    assert "call" + [' '] + "summary" == "call summary";
    TwoReads(r, "call", "analysis", "call", ' ', "summary");
  }

  lemma StaleFollowUpReads(r: Rule)
    requires r == PHRASES_A[2]
    ensures Reads(r, STALE_FOLLOW_UP, FOLLOW_UP)
  {
    assert "follow" + ['-'] + "up" == "follow-up";
    TripleForms(r.words, "stale", "follow", "up");
    TwoLinks("follow", '-', "up");
  }

  lemma ServiceRequestReads(r: Rule)
    requires r == PHRASES_A[4]
    ensures Reads(r, [{"service"}, {"request", "requests"}], [Some("customer"), Some("request")])
  {
    assert "customer" + [' '] + "request" == "customer request" && "request" + "s" == "requests";
    TwoReads(r, "service", "request", "customer", ' ', "request");
  }

  lemma CreateTaskReads(r: Rule)
    requires r == PHRASES_A[5]
    ensures Reads(r, [{"create"}, {"task"}], [Some("create"), Some("follow"), Some("up")])
  {
    assert "create" + [' '] + ("follow" + ['-'] + "up") == "create follow-up";
    LettersLower("create");
    ToThreeReads(r, "create", "task", "create", ' ', "follow", '-', "up");
  }

  lemma MatchedRuleReads(r: Rule)
    requires r == PHRASES_B[0]
    ensures Reads(r, [{"matched"}, RULES], [Some("matched"), Some("routing")])
  {
    assert "matched" + [' '] + "routing" == "matched routing" && "rule" + "s" == "rules";
    TwoReads(r, "matched", "rule", "matched", ' ', "routing");
  }

  lemma RuleTraceReads(r: Rule)
    requires r == PHRASES_B[1]
    ensures Reads(r, RULE_TRACE, ROUTING_DETAIL)
  {
    assert "routing" + [' '] + "detail" == "routing detail";
    TwoReads(r, "rule", "trace", "routing", ' ', "detail");
  }

  lemma PluralTripleForms(words: seq<string>, x: string, y: string, z: string)
    requires words == [x, y, z] && Letters(x) && Letters(y) && Letters(z)
    ensures Forms(words, true) == [{x}, {y}, {z, z + "s"}]
  {
    LettersLower(x);
    assert words[1..] == [y, z];
    PairForms(words[1..], true, y, z);
  }

  lemma ThreeReads(r: Rule, x: string, y: string, z: string, a: string, c: char, b: string)
    requires r.words == [x, y, z] && r.plural && Letters(x) && Letters(y) && Letters(z)
    requires TwoWordText(r.replacement, a, c, b)
    ensures Reads(r, [{x}, {y}] + [{z, z + "s"}], [Some(a), Some(b)])
  {
    PluralTripleForms(r.words, x, y, z);
    TwoLinks(a, c, b);
  }

  lemma AiWorkflowRuleReads(r: Rule)
    requires r == PHRASES_B[2]
    ensures Reads(r, AI_WORKFLOW + [RULES], CALL_ROUTING)
  {
    assert "call" + [' '] + "routing" == "call routing" && "rule" + "s" == "rules";
    ThreeReads(r, "ai", "workflow", "rule", "call", ' ', "routing");
  }

  lemma AiWorkflowReads(r: Rule)
    requires r == PHRASES_B[3]
    ensures Reads(r, AI_WORKFLOW, FOLLOW_UP)
  {
    assert "follow" + ['-'] + "up" == "follow-up";
    TwoReads(r, "ai", "workflow", "follow", '-', "up");
  }

  lemma WorkflowRulesReads(r: Rule)
    requires r == WORKFLOW_RULES
    ensures Reads(r, [{"workflow"}, RULES], CALL_ROUTING)
  {
    assert "call" + [' '] + "routing" == "call routing" && "rule" + "s" == "rules";
    TwoReads(r, "workflow", "rule", "call", ' ', "routing");
  }

  lemma WorkflowRuleReads(r: Rule)
    requires r == WORKFLOW_RULE
    ensures Reads(r, [{"workflow"}, {"rule"}], CALL_ROUTING)
  {
    assert "call" + [' '] + "routing" == "call routing";
    TwoReads(r, "workflow", "rule", "call", ' ', "routing");
  }

  lemma RuleEngineReads(r: Rule)
    requires r == PHRASES_B[6]
    ensures Reads(r, [{"rule"}, {"engine"}], CALL_ROUTING)
  {
    assert "call" + [' '] + "routing" == "call routing";
    TwoReads(r, "rule", "engine", "call", ' ', "routing");
  }

  lemma AiResolverReads(r: Rule)
    requires r == PHRASES_D[3]
    ensures Reads(r, [{"ai"}, {"resolver"}], [Some("call"), Some("summary")])
  {
    assert "call" + [' '] + "summary" == "call summary";
    TwoReads(r, "ai", "resolver", "call", ' ', "summary");
  }

  lemma AiModelReads(r: Rule)
    requires r == PHRASES_D[4]
    ensures Reads(r, [{"ai"}, {"model"}], [Some("call"), Some("model")])
  {
    assert "call" + [' '] + "model" == "call model";
    TwoReads(r, "ai", "model", "call", ' ', "model");
  }

  // ----- how far they are from the rows

  lemma CallAnalysisFar(r: Rule)
    requires Reads(r, [{"call"}, {"analysis"}], [Some("call"), Some("summary")])
    ensures PairsFarFrom(r) && Away(r, LOOSE_WORDS) && Far(r, STALE_STALE_FOLLOW_UP, {})
  {}

  lemma StaleFollowUpPairsFar(r: Rule)
    requires Reads(r, STALE_FOLLOW_UP, FOLLOW_UP)
    ensures PairsFarFrom(r)
  {}

  lemma StaleFollowUpLooseFar(r: Rule)
    requires Reads(r, STALE_FOLLOW_UP, FOLLOW_UP)
    ensures LooseFarFrom(r)
  {}

  lemma ServiceRequestPairsFar(r: Rule)
    requires Reads(r, [{"service"}, {"request", "requests"}], [Some("customer"), Some("request")])
    ensures PairsFarFrom(r)
  {}

  lemma ServiceRequestRowsFar(r: Rule)
    requires Reads(r, [{"service"}, {"request", "requests"}], [Some("customer"), Some("request")])
    ensures Away(r, LOOSE_WORDS) && FollowUpFarFrom(r)
  {}

  lemma CreateTaskPairsFar(r: Rule)
    requires Reads(r, [{"create"}, {"task"}], [Some("create"), Some("follow"), Some("up")])
    ensures PairsFarFrom(r)
  {}

  lemma CreateTaskRowsFar(r: Rule)
    requires Reads(r, [{"create"}, {"task"}], [Some("create"), Some("follow"), Some("up")])
    ensures Away(r, LOOSE_WORDS) && FollowUpFarFrom(r)
  {}

  lemma MatchedRuleFar(r: Rule)
    requires Reads(r, [{"matched"}, RULES], [Some("matched"), Some("routing")])
    ensures PairsFarFrom(r) && LooseFarFrom(r) && FollowUpFarFrom(r)
  {}

  lemma RuleTraceFar(r: Rule)
    requires Reads(r, RULE_TRACE, ROUTING_DETAIL)
    ensures PairsFarFrom(r) && FollowUpFarFrom(r)
  {}

  lemma AiWorkflowRuleFar(r: Rule)
    requires Reads(r, AI_WORKFLOW + [RULES], CALL_ROUTING)
    ensures PairsFarFrom(r) && FollowUpFarFrom(r) && Far(r, STALE_WORKFLOW, RULES)
  {}

  lemma AiWorkflowFar(r: Rule)
    requires Reads(r, AI_WORKFLOW, FOLLOW_UP)
    ensures PairsFarFrom(r) && Far(r, STALE_WORKFLOW, RULES)
  {}

  lemma WorkflowRuleFar(r: Rule)
    requires Reads(r, [{"workflow"}, RULES], CALL_ROUTING) || Reads(r, [{"workflow"}, {"rule"}], CALL_ROUTING)
    ensures PairsFarFrom(r) && FollowUpFarFrom(r)
  {}

  lemma RuleEngineFar(r: Rule)
    requires Reads(r, [{"rule"}, {"engine"}], CALL_ROUTING)
    ensures PairsFarFrom(r)
  {}

  lemma RuleEngineRowsFar(r: Rule)
    requires Reads(r, [{"rule"}, {"engine"}], CALL_ROUTING)
    ensures FollowUpFarFrom(r) && Far(r, STALE_WORKFLOW, {})
  {}

  lemma AiResolverFar(r: Rule)
    requires Reads(r, [{"ai"}, {"resolver"}], [Some("call"), Some("summary")])
    ensures PairsFarFrom(r) && FollowUpFarFrom(r) && Far(r, STALE_WORKFLOW, {})
  {}

  lemma AiModelFar(r: Rule)
    requires Reads(r, [{"ai"}, {"model"}], [Some("call"), Some("model")])
    ensures PairsFarFrom(r) && FollowUpFarFrom(r) && Far(r, STALE_WORKFLOW, {})
  {}

  // ----- the whole table

  lemma FirstFar(k: nat, r: Rule)
    requires k < 7 && PHRASES[k] == r
    ensures PairsFarFrom(r) && LooseFarFrom(r)
    ensures if k < 2 then Far(r, STALE_STALE_FOLLOW_UP, {}) else k > 2 ==> FollowUpFarFrom(r)
  {
    if k == 1 || k == 3 {
      NeutralAt(k, r);
      NeutralFar(r);
      assert LOOSE_WORDS <= ROW_WORDS;
      AwayLoose(r);
    } else if k == 0 {
      CallAnalysisReads(r);
      CallAnalysisFar(r);
      AwayLoose(r);
    } else if k == 2 {
      StaleFollowUpReads(r);
      StaleFollowUpPairsFar(r);
      StaleFollowUpLooseFar(r);
    } else if k == 4 {
      ServiceRequestReads(r);
      ServiceRequestPairsFar(r);
      ServiceRequestRowsFar(r);
      AwayLoose(r);
    } else if k == 5 {
      CreateTaskReads(r);
      CreateTaskPairsFar(r);
      CreateTaskRowsFar(r);
      AwayLoose(r);
    } else {
      MatchedRuleReads(r);
      MatchedRuleFar(r);
    }
  }

  lemma MiddleFar(k: nat, r: Rule)
    requires 7 <= k < 12 && PHRASES[k] == r
    ensures PairsFarFrom(r) && (k != 9 ==> FollowUpFarFrom(r))
    ensures k == 8 || k == 9 ==> Far(r, STALE_WORKFLOW, RULES)
  {
    assert r == PHRASES_B[k - 6];
    if k == 7 { RuleTraceReads(r); RuleTraceFar(r); }
    else if k == 8 { AiWorkflowRuleReads(r); AiWorkflowRuleFar(r); }
    else if k == 9 { AiWorkflowReads(r); AiWorkflowFar(r); }
    else if k == 10 { WorkflowRulesReads(r); WorkflowRuleFar(r); }
    else { WorkflowRuleReads(r); WorkflowRuleFar(r); }
  }

  lemma LastFar(k: nat, r: Rule)
    requires 12 <= k < |PHRASES| && PHRASES[k] == r
    ensures PairsFarFrom(r) && FollowUpFarFrom(r) && Far(r, STALE_WORKFLOW, {})
  {
    if k == 12 {
      assert r == PHRASES_B[6];
      RuleEngineReads(r);
      RuleEngineFar(r);
      RuleEngineRowsFar(r);
    } else if k < 21 {
      NeutralAt(k, r);
      NeutralFar(r);
    } else {
      assert r == PHRASES_D[k - 18];
      if k == 21 { AiResolverReads(r); AiResolverFar(r); } else { AiModelReads(r); AiModelFar(r); }
    }
  }

  lemma PhrasesFar(rules: seq<Rule>)
    requires rules == PHRASES
    ensures PairsFar(rules) && FollowUpFar(rules) && WorkflowFar(rules)
  {
    forall k | 0 <= k < |rules|
      ensures PairsFarFrom(rules[k])
      ensures k < 7 ==> LooseFarFrom(rules[k])
      ensures k < 2 ==> Far(rules[k], STALE_STALE_FOLLOW_UP, {})
      ensures k > 2 && k != 9 ==> FollowUpFarFrom(rules[k])
      ensures k == 8 || k == 9 ==> Far(rules[k], STALE_WORKFLOW, RULES)
      ensures k >= 12 ==> Far(rules[k], STALE_WORKFLOW, {})
    {
      if k < 7 { FirstFar(k, rules[k]); } else if k < 12 { MiddleFar(k, rules[k]); } else { LastFar(k, rules[k]); }
    }
  }

  lemma StaleFollowUpLaid(r: Rule)
    requires r == PHRASES[2]
    ensures Reads(r, STALE_FOLLOW_UP, FOLLOW_UP)
  {
    assert r == PHRASES_A[2];
    StaleFollowUpReads(r);
  }

  lemma RuleTraceLaid(r: Rule)
    requires r == PHRASES[7]
    ensures Reads(r, RULE_TRACE, ROUTING_DETAIL)
  {
    assert r == PHRASES_B[1];
    RuleTraceReads(r);
  }

  lemma AiWorkflowRuleLaid(r: Rule)
    requires r == PHRASES[8]
    ensures Reads(r, AI_WORKFLOW + [RULES], CALL_ROUTING)
  {
    assert r == PHRASES_B[2];
    AiWorkflowRuleReads(r);
  }

  lemma AiWorkflowLaid(r: Rule)
    requires r == PHRASES[9]
    ensures Reads(r, AI_WORKFLOW, FOLLOW_UP)
  {
    assert r == PHRASES_B[3];
    AiWorkflowReads(r);
  }

  lemma WorkflowRulesLaid(r: Rule)
    requires r == PHRASES[10]
    ensures Reads(r, [{"workflow"}, RULES], CALL_ROUTING)
  {
    assert r == PHRASES_B[4];
    WorkflowRulesReads(r);
  }

  lemma WorkflowRuleLaid(r: Rule)
    requires r == PHRASES[11]
    ensures Reads(r, [{"workflow"}, {"rule"}], CALL_ROUTING)
  {
    assert r == PHRASES_B[5];
    WorkflowRuleReads(r);
  }

  lemma PhrasesLaid(rules: seq<Rule>)
    requires rules == PHRASES
    ensures Laid(rules)
  {
    StaleFollowUpLaid(rules[2]);
    RuleTraceLaid(rules[7]);
    AiWorkflowRuleLaid(rules[8]);
    AiWorkflowLaid(rules[9]);
    WorkflowRulesLaid(rules[10]);
    WorkflowRuleLaid(rules[11]);
  }

  /** One application is enough exactly when none of the rows stands in the text it is applied to. */
  lemma {:induction false} OneIsEnoughIff(raw: string)
    ensures Safe(Safe(raw)) == Safe(raw) <==> !Restarts(Chain(Split(raw)))
  {
    var p := FoldPieces(Split(raw), PHRASES);
    IdempotentIff(raw);
    SplitCanonical(raw);
    FoldCanonical(Split(raw), PHRASES);
    FoldIsPieces(raw, PHRASES);
    SplitJoin(p);
    LeftoverIff(p);
    FoldChain(Split(raw), PHRASES);
    PhrasesFar(PHRASES);
    PhrasesLaid(PHRASES);
    LeftoversFrom(Chain(Split(raw)), PHRASES);
  }
}
