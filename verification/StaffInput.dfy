/**
 The rows of words that survive the phrase passes, followed through the passes one after the other.
 */
module StaffInput {
  import opened Wrappers
  import opened Words
  import opened Delimited
  import opened StaffChains
  import opened StaffImages
  import opened StaffIdempotence
  import opened StaffBound
  import opened StaffPatterns

  function Image(r: Rule): seq<Link> { Chain(Split(r.replacement)) }

  // ----- the passes one after the other

  /** The chain after the first `n` passes. */
  function Stage(c: seq<Link>, rules: seq<Rule>, n: nat): seq<Link>
    requires n <= |rules|
  {
    if n == 0 then c else Rewritten(Stage(c, rules, n - 1), FormsOf(rules[n - 1]), Image(rules[n - 1]))
  }

  lemma {:induction false} FoldedFrom(c: seq<Link>, rules: seq<Rule>, n: nat)
    requires n <= |rules|
    ensures Folded(Stage(c, rules, n), rules[n..]) == Stage(c, rules, |rules|)
    decreases |rules| - n
  {
    if n < |rules| {
      FoldedFrom(c, rules, n + 1);
      assert rules[n..][1..] == rules[n + 1..];
    }
  }

  ghost predicate Far(r: Rule, forms: seq<set<string>>, barred: set<string>) {
    Apart(FormsOf(r), Image(r), forms, barred)
  }

  ghost predicate AllFar(rules: seq<Rule>, i: nat, j: nat, forms: seq<set<string>>, barred: set<string>)
    requires i <= j <= |rules|
  {
    forall k | i <= k < j :: Far(rules[k], forms, barred)
  }

  lemma StageKeeps(c: seq<Link>, rules: seq<Rule>, n: nat, forms: seq<set<string>>, barred: set<string>)
    requires n < |rules| && Far(rules[n], forms, barred)
    ensures Shows(Stage(c, rules, n + 1), forms, barred) <==> Shows(Stage(c, rules, n), forms, barred)
  {
    ShowsKept(Stage(c, rules, n), FormsOf(rules[n]), Image(rules[n]), forms, barred);
  }

  /** Whether the row stands in the chain after so many passes. */
  function ShownAt(c: seq<Link>, rules: seq<Rule>, forms: seq<set<string>>, barred: set<string>): nat -> bool {
    (n: nat) => n <= |rules| && Shows(Stage(c, rules, n), forms, barred)
  }

  lemma {:induction false} SameThroughout(p: nat -> bool, i: nat, j: nat)
    requires i <= j && forall n: nat | i <= n < j :: p(n + 1) == p(n)
    ensures p(j) == p(i)
    decreases j - i
  {
    if i < j {
      SameThroughout(p, i, j - 1);
      assert p(j - 1 + 1) == p(j - 1);
    }
  }

  lemma StageSame(
    c: seq<Link>, rules: seq<Rule>, i: nat, j: nat, n: nat, forms: seq<set<string>>, barred: set<string>)
    requires i <= n < j <= |rules| && AllFar(rules, i, j, forms, barred)
    ensures ShownAt(c, rules, forms, barred)(n + 1) == ShownAt(c, rules, forms, barred)(n)
  {
    StageKeeps(c, rules, n, forms, barred);
  }

  lemma StagesKeep(c: seq<Link>, rules: seq<Rule>, i: nat, j: nat, forms: seq<set<string>>, barred: set<string>)
    requires i <= j <= |rules| && AllFar(rules, i, j, forms, barred)
    ensures Shows(Stage(c, rules, j), forms, barred) <==> Shows(Stage(c, rules, i), forms, barred)
  {
    var p := ShownAt(c, rules, forms, barred);
    forall n: nat | i <= n < j ensures p(n + 1) == p(n) {
      StageSame(c, rules, i, j, n, forms, barred);
    }
    SameThroughout(p, i, j);
  }

  // ----- the rows

  const RULES: set<string> := {"rule", "rules"}
  const RULE_TRACE: seq<set<string>> := [{"rule"}, {"trace"}]
  const AI_WORKFLOW: seq<set<string>> := [{"ai"}, {"workflow"}]
  const AI_ANALYSIS: seq<set<string>> := [{"ai"}, {"analysis"}]
  const STALE_AUTOMATION: seq<set<string>> := [{"stale"}, {"automation"}]
  const SERVICE_COMMISSION: seq<set<string>> := [{"service"}, {"commission"}]
  const STALE_WORKFLOW: seq<set<string>> := [{"stale"}, {"workflow"}]
  const STALE_AI_WORKFLOW: seq<set<string>> := [{"stale"}, {"ai"}, {"workflow"}]
  const STALE_STALE_FOLLOW_UP: seq<set<string>> := [{"stale"}, {"stale"}, {"follow"}, {"up"}]
  const CALL_ROUTING: seq<Link> := [Some("call"), Some("routing")]
  const ROUTING_DETAIL: seq<Link> := [Some("routing"), Some("detail")]

  /** The row stands where no rule of a "... rule" phrase takes its end: no "rule" or "rules" follows, or a "rule"
      that "rule trace" takes first. */
  predicate Loose(c: seq<Link>, forms: seq<set<string>>) {
    Shows(c, forms, RULES) || Contains(c, forms + RULE_TRACE)
  }

  /** What makes a second application change the text. */
  predicate Restarts(c: seq<Link>) {
    || Contains(c, AI_ANALYSIS) || Contains(c, STALE_AUTOMATION) || Contains(c, SERVICE_COMMISSION)
    || Contains(c, STALE_STALE_FOLLOW_UP) || Loose(c, STALE_WORKFLOW) || Loose(c, STALE_AI_WORKFLOW)
  }

  /** What the rows need of the table: the six rules that take or make one, and how far the others are from it. */
  ghost predicate Laid(rules: seq<Rule>) {
    && |rules| == 23
    && FormsOf(rules[2]) == STALE_FOLLOW_UP && Image(rules[2]) == FOLLOW_UP
    && FormsOf(rules[7]) == RULE_TRACE && Image(rules[7]) == ROUTING_DETAIL
    && FormsOf(rules[8]) == AI_WORKFLOW + [RULES] && Image(rules[8]) == CALL_ROUTING
    && FormsOf(rules[9]) == AI_WORKFLOW && Image(rules[9]) == FOLLOW_UP
    && FormsOf(rules[10]) == [{"workflow"}, RULES] && Image(rules[10]) == CALL_ROUTING
    && FormsOf(rules[11]) == [{"workflow"}, {"rule"}] && Image(rules[11]) == CALL_ROUTING
  }

  ghost predicate PairsFar(rules: seq<Rule>) {
    && AllFar(rules, 0, |rules|, AI_ANALYSIS, {}) && AllFar(rules, 0, |rules|, STALE_AUTOMATION, {})
    && AllFar(rules, 0, |rules|, SERVICE_COMMISSION, {})
  }

  ghost predicate FollowUpFar(rules: seq<Rule>)
    requires |rules| == 23
  {
    && AllFar(rules, 0, 2, STALE_STALE_FOLLOW_UP, {})
    && AllFar(rules, 3, 9, STALE_FOLLOW_UP, {}) && AllFar(rules, 10, 23, STALE_FOLLOW_UP, {})
  }

  ghost predicate WorkflowFar(rules: seq<Rule>)
    requires |rules| == 23
  {
    && AllFar(rules, 0, 7, STALE_WORKFLOW, RULES) && AllFar(rules, 0, 7, STALE_WORKFLOW + RULE_TRACE, {})
    && AllFar(rules, 0, 7, STALE_AI_WORKFLOW, RULES) && AllFar(rules, 0, 7, STALE_AI_WORKFLOW + RULE_TRACE, {})
    && AllFar(rules, 8, 10, STALE_WORKFLOW, RULES) && AllFar(rules, 12, 23, STALE_WORKFLOW, {})
  }

  // ----- the six passes

  /** The pass of line 9: "stale follow up" is left where the word stood twice. */
  lemma StaleFollowUpPass(c: seq<Link>)
    ensures Contains(Rewritten(c, STALE_FOLLOW_UP, FOLLOW_UP), STALE_FOLLOW_UP) <==> Contains(c, STALE_STALE_FOLLOW_UP)
  {
    var made: seq<set<string>> := [{"follow"}, {"up"}];
    assert [{"stale"}] + made == STALE_FOLLOW_UP && [{"stale"}] + STALE_FOLLOW_UP == STALE_STALE_FOLLOW_UP;
    ShowsMadeAgain(c, {"stale"}, FOLLOW_UP, made);
  }

  /** The pass of line 14: "rule trace" takes the "rule". */
  lemma RuleTracePass(c: seq<Link>, forms: seq<set<string>>)
    requires forms == STALE_WORKFLOW || forms == STALE_AI_WORKFLOW
    ensures Shows(Rewritten(c, RULE_TRACE, ROUTING_DETAIL), forms, RULES) <==> Loose(c, forms)
  {
    ShowsFreed(c, RULE_TRACE, ROUTING_DETAIL, forms, RULES);
  }

  /** The pass of line 15 takes "ai workflow" where a "rule" follows. */
  lemma AiWorkflowRulePass(c: seq<Link>)
    ensures Contains(Rewritten(c, AI_WORKFLOW + [RULES], CALL_ROUTING), STALE_AI_WORKFLOW)
       <==> Shows(c, STALE_AI_WORKFLOW, RULES)
  {
    assert [{"stale"}] + AI_WORKFLOW == STALE_AI_WORKFLOW;
    ShowsEaten(c, {"stale"}, AI_WORKFLOW, RULES, CALL_ROUTING, {});
    ShowsNothingBarred(Rewritten(c, AI_WORKFLOW + [RULES], CALL_ROUTING), STALE_AI_WORKFLOW);
  }

  /** The pass of line 16 makes a "follow up" of what is left of "ai workflow". */
  lemma AiWorkflowPass(c: seq<Link>)
    ensures Contains(Rewritten(c, AI_WORKFLOW, FOLLOW_UP), STALE_FOLLOW_UP)
       <==> Contains(c, STALE_FOLLOW_UP) || Contains(c, STALE_AI_WORKFLOW)
  {
    var made: seq<set<string>> := [{"follow"}, {"up"}];
    assert [{"stale"}] + made == STALE_FOLLOW_UP && [{"stale"}] + AI_WORKFLOW == STALE_AI_WORKFLOW;
    ShowsMade(c, AI_WORKFLOW, FOLLOW_UP, {"stale"}, made);
  }

  /** The passes of lines 17 and 18 take "workflow" where one of their words follows. */
  lemma WorkflowRulePass(c: seq<Link>, eaten: set<string>, barred: set<string>)
    requires barred <= eaten <= RULES
    ensures Shows(Rewritten(c, [{"workflow"}, eaten], CALL_ROUTING), STALE_WORKFLOW, barred)
       <==> Shows(c, STALE_WORKFLOW, eaten)
  {
    var lead: seq<set<string>> := [{"workflow"}];
    assert [{"stale"}] + lead == STALE_WORKFLOW && lead + [eaten] == [{"workflow"}, eaten];
    ShowsEaten(c, {"stale"}, lead, eaten, CALL_ROUTING, barred);
  }

  // ----- the rows through the stages

  lemma StageIs(c: seq<Link>, rules: seq<Rule>, n: nat, forms: seq<set<string>>, image: seq<Link>)
    requires n < |rules| && FormsOf(rules[n]) == forms && Image(rules[n]) == image
    ensures Stage(c, rules, n + 1) == Rewritten(Stage(c, rules, n), forms, image)
  {}

  lemma RowKept(c: seq<Link>, rules: seq<Rule>, i: nat, j: nat, forms: seq<set<string>>)
    requires i <= j <= |rules| && AllFar(rules, i, j, forms, {})
    ensures Contains(Stage(c, rules, j), forms) <==> Contains(Stage(c, rules, i), forms)
  {
    StagesKeep(c, rules, i, j, forms, {});
    ShowsNothingBarred(Stage(c, rules, i), forms);
    ShowsNothingBarred(Stage(c, rules, j), forms);
  }

  lemma LooseAfterTrace(c: seq<Link>, rules: seq<Rule>, forms: seq<set<string>>)
    requires Laid(rules) && (forms == STALE_WORKFLOW || forms == STALE_AI_WORKFLOW)
    requires AllFar(rules, 0, 7, forms, RULES) && AllFar(rules, 0, 7, forms + RULE_TRACE, {})
    ensures Shows(Stage(c, rules, 8), forms, RULES) <==> Loose(c, forms)
  {
    StagesKeep(c, rules, 0, 7, forms, RULES);
    RowKept(c, rules, 0, 7, forms + RULE_TRACE);
    StageIs(c, rules, 7, RULE_TRACE, ROUTING_DETAIL);
    RuleTracePass(Stage(c, rules, 7), forms);
  }

  lemma AiWorkflowLeft(c: seq<Link>, rules: seq<Rule>)
    requires Laid(rules) && WorkflowFar(rules)
    ensures Contains(Stage(c, rules, 9), STALE_AI_WORKFLOW) <==> Loose(c, STALE_AI_WORKFLOW)
  {
    LooseAfterTrace(c, rules, STALE_AI_WORKFLOW);
    StageIs(c, rules, 8, AI_WORKFLOW + [RULES], CALL_ROUTING);
    AiWorkflowRulePass(Stage(c, rules, 8));
  }

  lemma WorkflowLeft(c: seq<Link>, rules: seq<Rule>)
    requires Laid(rules) && WorkflowFar(rules)
    ensures Contains(Stage(c, rules, 23), STALE_WORKFLOW) <==> Loose(c, STALE_WORKFLOW)
  {
    LooseAfterTrace(c, rules, STALE_WORKFLOW);
    StagesKeep(c, rules, 8, 10, STALE_WORKFLOW, RULES);
    StageIs(c, rules, 10, [{"workflow"}, RULES], CALL_ROUTING);
    StageIs(c, rules, 11, [{"workflow"}, {"rule"}], CALL_ROUTING);
    WorkflowRulePass(Stage(c, rules, 10), RULES, {"rule"});
    WorkflowRulePass(Stage(c, rules, 11), {"rule"}, {});
    StagesKeep(c, rules, 12, 23, STALE_WORKFLOW, {});
    ShowsNothingBarred(Stage(c, rules, 23), STALE_WORKFLOW);
  }

  lemma FollowUpLeft(c: seq<Link>, rules: seq<Rule>)
    requires Laid(rules) && FollowUpFar(rules) && WorkflowFar(rules)
    ensures Contains(Stage(c, rules, 23), STALE_FOLLOW_UP)
       <==> Contains(c, STALE_STALE_FOLLOW_UP) || Loose(c, STALE_AI_WORKFLOW)
  {
    RowKept(c, rules, 0, 2, STALE_STALE_FOLLOW_UP);
    StageIs(c, rules, 2, STALE_FOLLOW_UP, FOLLOW_UP);
    StaleFollowUpPass(Stage(c, rules, 2));
    RowKept(c, rules, 3, 9, STALE_FOLLOW_UP);
    AiWorkflowLeft(c, rules);
    StageIs(c, rules, 9, AI_WORKFLOW, FOLLOW_UP);
    AiWorkflowPass(Stage(c, rules, 9));
    RowKept(c, rules, 10, 23, STALE_FOLLOW_UP);
  }

  /** What the phrase passes leave for the tokens, read off the chain before them. */
  lemma LeftoversFrom(c: seq<Link>, rules: seq<Rule>)
    requires Laid(rules) && PairsFar(rules) && FollowUpFar(rules) && WorkflowFar(rules)
    ensures LeftoverFree(Folded(c, rules)) <==> !Restarts(c)
  {
    FoldedFrom(c, rules, 0);
    assert rules[0..] == rules;
    RowKept(c, rules, 0, 23, AI_ANALYSIS);
    RowKept(c, rules, 0, 23, STALE_AUTOMATION);
    RowKept(c, rules, 0, 23, SERVICE_COMMISSION);
    FollowUpLeft(c, rules);
    WorkflowLeft(c, rules);
  }
}
