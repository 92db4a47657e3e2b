/**
 When one application of the rewriter is enough, and how many are, read off the text before it.
 */
module StaffIdempotence {
  import opened Words
  import opened Delimited
  import opened StaffText
  import opened StaffChains
  import opened StaffTokens
  import opened StaffConvergence
  import opened StaffImages
  import opened StaffTables

  // ----- the five phrases and what the tokens turn into them

  const CALL_ANALYSIS: seq<set<string>> := [{"call"}, {"analysis"}]
  const ADMIN_TRANSFER: seq<set<string>> := [{"admin"}, {"transfer"}]
  const SERVICE_REQUEST: seq<set<string>> := [{"service"}, REQUESTS]
  const CREATE_TASK: seq<set<string>> := [{"create"}, {"task"}]

  /** The phrases without a forbidden word. */
  const OPEN_PHRASES: seq<Rule> := [PHRASES_A[0], PHRASES_A[2], PHRASES_A[3], PHRASES_A[4], PHRASES_A[5]]

  /** What the token passes still turn into a phrase, with what two applications make of it. */
  const LEFTOVERS: seq<Rule> := [
    Rule(["ai", "analysis"], false, "call summary"),
    Rule(["stale", "follow", "up"], false, "follow-up"),
    Rule(["stale", "workflow"], false, "follow-up"),
    Rule(["stale", "automation"], false, "follow-up"),
    Rule(["service", "commission"], false, "customer request")]

  lemma PairForms(words: seq<string>, plural: bool, x: string, y: string)
    requires words == [x, y] && Letters(x) && Letters(y)
    ensures Forms(words, plural) == [{x}, if plural then {y, y + "s"} else {y}]
  {
    LettersLower(x);
    LettersLower(y);
    LettersLower(y + "s");
    assert words[1..] == [y];
  }

  lemma TripleForms(words: seq<string>, x: string, y: string, z: string)
    requires words == [x, y, z] && Letters(x) && Letters(y) && Letters(z)
    ensures Forms(words, false) == [{x}, {y}, {z}]
  {
    LettersLower(x);
    assert words[1..] == [y, z];
    PairForms(words[1..], false, y, z);
  }

  function FormsOf(r: Rule): seq<set<string>> { Forms(r.words, r.plural) }

  lemma PhraseForms()
    ensures FormsOf(PHRASES_A[0]) == CALL_ANALYSIS && FormsOf(PHRASES_A[2]) == STALE_FOLLOW_UP
    ensures FormsOf(PHRASES_A[3]) == ADMIN_TRANSFER && FormsOf(PHRASES_A[4]) == SERVICE_REQUEST
    ensures FormsOf(PHRASES_A[5]) == CREATE_TASK
  {
    PairForms(PHRASES_A[0].words, false, "call", "analysis");
    TripleForms(PHRASES_A[2].words, "stale", "follow", "up");
    PairForms(PHRASES_A[3].words, false, "admin", "transfer");
    assert "request" + "s" == "requests";
    PairForms(PHRASES_A[4].words, true, "service", "request");
    PairForms(PHRASES_A[5].words, false, "create", "task");
  }

  lemma LeftoverForms()
    ensures FormsOf(LEFTOVERS[0]) == [{"ai"}, {"analysis"}] && FormsOf(LEFTOVERS[1]) == STALE_FOLLOW_UP
    ensures FormsOf(LEFTOVERS[2]) == [{"stale"}, {"workflow"}] && FormsOf(LEFTOVERS[3]) == [{"stale"}, {"automation"}]
    ensures FormsOf(LEFTOVERS[4]) == [{"service"}, {"commission"}]
  {
    PairForms(LEFTOVERS[0].words, false, "ai", "analysis");
    TripleForms(LEFTOVERS[1].words, "stale", "follow", "up");
    PairForms(LEFTOVERS[2].words, false, "stale", "workflow");
    PairForms(LEFTOVERS[3].words, false, "stale", "automation");
    PairForms(LEFTOVERS[4].words, false, "service", "commission");
  }

  lemma {:induction false} PairUnion(c: seq<Link>, a: set<string>, a2: set<string>, b: set<string>, b2: set<string>)
    ensures Contains(c, [a + a2, b]) <==> Contains(c, [a, b]) || Contains(c, [a2, b])
    ensures Contains(c, [a, b + b2]) <==> Contains(c, [a, b]) || Contains(c, [a, b2])
  {
    PairStarts(c, a, b); PairStarts(c, a2, b); PairStarts(c, a, b2);
    PairStarts(c, a + a2, b); PairStarts(c, a, b + b2);
    if c != [] { PairUnion(c[1..], a, a2, b, b2); }
  }

  ghost predicate PhraseFree(c: seq<Link>) {
    && !Contains(c, CALL_ANALYSIS) && !Contains(c, STALE_FOLLOW_UP) && !Contains(c, ADMIN_TRANSFER)
    && !Contains(c, SERVICE_REQUEST) && !Contains(c, CREATE_TASK)
  }

  ghost predicate LeftoverFree(c: seq<Link>) {
    && !Contains(c, [{"ai"}, {"analysis"}]) && !Contains(c, STALE_FOLLOW_UP) && !Contains(c, [{"stale"}, {"workflow"}])
    && !Contains(c, [{"stale"}, {"automation"}]) && !Contains(c, [{"service"}, {"commission"}])
  }

  lemma ForbiddenPhrases(k: nat)
    requires k < |PHRASES| && (k == 1 || k > 5)
    ensures Blocked(PHRASES[k])
  {
    if k == 1 { BlockedA(); }
    else if k < 13 { BlockedB(); assert PHRASES[k] == PHRASES_B[k - 6]; }
    else if k < 18 { BlockedC(); assert PHRASES[k] == PHRASES_C[k - 13]; }
    else { BlockedD(); assert PHRASES[k] == PHRASES_D[k - 18]; }
  }

  lemma SettledForms(ps: seq<Piece>, rules: seq<Rule>)
    requires Canonical(ps)
    ensures Settled(ps, rules) <==> forall k | 0 <= k < |rules| :: !Contains(Chain(ps), FormsOf(rules[k]))
  {
    forall k | 0 <= k < |rules| ensures HasPhrase(ps, rules[k]) <==> Contains(Chain(ps), FormsOf(rules[k])) {
      HasPhraseChain(ps, rules[k]);
    }
  }

  lemma FiveForms(c: seq<Link>, rules: seq<Rule>)
    requires |rules| == 5
    ensures (forall k | 0 <= k < |rules| :: !Contains(c, FormsOf(rules[k]))) <==>
      && !Contains(c, FormsOf(rules[0])) && !Contains(c, FormsOf(rules[1])) && !Contains(c, FormsOf(rules[2]))
      && !Contains(c, FormsOf(rules[3])) && !Contains(c, FormsOf(rules[4]))
  {}

  /** On text without forbidden words only these phrases matter. */
  lemma SettledFirst(ps: seq<Piece>)
    requires NoForbidden(ps)
    ensures Settled(ps, PHRASES) <==> Settled(ps, OPEN_PHRASES)
  {
    forall k | 0 <= k < |PHRASES| && (k == 1 || k > 5) ensures !HasPhrase(ps, PHRASES[k]) {
      ForbiddenPhrases(k);
      BlockedHasNoPhrase(ps, PHRASES[k]);
    }
    assert forall k | 0 <= k < 5 :: OPEN_PHRASES[k] == PHRASES[if k == 0 then 0 else k + 1];
    assert forall k | 0 <= k < 6 && k != 1 :: PHRASES[k] == OPEN_PHRASES[if k == 0 then 0 else k - 1];
  }

  lemma SettledIff(ps: seq<Piece>)
    requires Canonical(ps) && NoForbidden(ps)
    ensures Settled(ps, PHRASES) <==> PhraseFree(Chain(ps))
  {
    SettledFirst(ps);
    SettledForms(ps, OPEN_PHRASES);
    FiveForms(Chain(ps), OPEN_PHRASES);
    PhraseForms();
  }

  lemma LeftoverIff(ps: seq<Piece>)
    requires Canonical(ps)
    ensures Settled(ps, LEFTOVERS) <==> LeftoverFree(Chain(ps))
  {
    SettledForms(ps, LEFTOVERS);
    FiveForms(Chain(ps), LEFTOVERS);
    LeftoverForms();
  }

  lemma PhrasesClear(ps: seq<Piece>)
    requires Canonical(ps)
    ensures var c := Chain(FoldPieces(ps, PHRASES));
      && !Contains(c, CALL_ANALYSIS) && !Contains(c, ADMIN_TRANSFER)
      && !Contains(c, SERVICE_REQUEST) && !Contains(c, CREATE_TASK)
  {
    PhraseClears(ps, 0, {"call"}, {"analysis"});
    PhraseClears(ps, 3, {"admin"}, {"transfer"});
    PhraseClears(ps, 4, {"service"}, REQUESTS);
    PhraseClears(ps, 5, {"create"}, {"task"});
  }

  /** After all phrase passes nothing is left for the pass of a two-word phrase. */
  lemma PhraseClears(ps: seq<Piece>, k: nat, a: set<string>, b: set<string>)
    requires Canonical(ps) && k < |PHRASES_A| && (a <= RESIDUE || b <= RESIDUE)
    requires a <= RESIDUE + {"call", "create"} && b <= RESIDUE + REQUESTS + {"transfer"}
    requires k in {0, 3, 4, 5} && [CALL_ANALYSIS, [], [], ADMIN_TRANSFER, SERVICE_REQUEST, CREATE_TASK][k] == [a, b]
    ensures !Contains(Chain(FoldPieces(ps, PHRASES)), [a, b])
  {
    PhraseForms();
    assert PHRASES[k] == PHRASES_A[k] && PHRASES[k] in PHRASES;
    PhrasesHarmless();
    forall r | r in PHRASES ensures Fenced(Chain(Split(r.replacement)), a, b) {
      HarmlessFences(r.replacement, a, b);
    }
    FoldLeavesNoPair(ps, PHRASES, a, b);
  }

  /** The tokens complete a phrase exactly where a leftover stands. */
  lemma TokensComplete(c: seq<Link>)
    requires !Contains(c, CALL_ANALYSIS) && !Contains(c, ADMIN_TRANSFER)
    requires !Contains(c, SERVICE_REQUEST) && !Contains(c, CREATE_TASK)
    ensures PhraseFree(Mapped(c, TOKENS)) <==> LeftoverFree(c)
  {
    EndsMakeCallAnalysis(); EndsMakeServiceRequest(); EndsMakeNoTransfer(); EndsMakeNoTask();
    TokensMakePair({"call"}, {"analysis"}, {"call"} + {"ai"}, {"analysis"});
    TokensMakePair({"service"}, REQUESTS, {"service"}, REQUESTS + {"commission"});
    TokensMakePair({"admin"}, {"transfer"}, {"admin"}, {"transfer"});
    TokensMakePair({"create"}, {"task"}, {"create"}, {"task"});
    TokensMakeFollowUp();
    MappedPair(c, TOKENS, {"call"}, {"analysis"}, {"call"} + {"ai"}, {"analysis"});
    MappedPair(c, TOKENS, {"service"}, REQUESTS, {"service"}, REQUESTS + {"commission"});
    MappedPair(c, TOKENS, {"admin"}, {"transfer"}, {"admin"}, {"transfer"});
    MappedPair(c, TOKENS, {"create"}, {"task"}, {"create"}, {"task"});
    MappedTriple(c, TOKENS, FOLLOW_UPS);
    PairUnion(c, {"call"}, {"ai"}, {"analysis"}, {});
    PairUnion(c, {"service"}, {}, REQUESTS, {"commission"});
    assert FOLLOW_UPS == {"workflow"} + {"automation"};
    PairUnion(c, {"stale"}, {}, {"workflow"}, {"automation"});
  }

  /** The rewriter is not idempotent.  The exact condition, on the text between the phrase passes and the token
      passes: none of the five leftovers stands in it. */
  lemma {:induction false} IdempotentIff(raw: string)
    ensures Safe(Safe(raw)) == Safe(raw) <==> Settled(Split(Fold(raw, PHRASES)), LEFTOVERS)
  {
    var p := FoldPieces(Split(raw), PHRASES);
    SplitCanonical(raw);
    FoldCanonical(Split(raw), PHRASES);
    FoldIsPieces(raw, PHRASES);
    SplitJoin(p);
    TablesOk();
    RewriteTwice(raw, PHRASES, TOKENS);
    OutputPieces(raw, PHRASES, TOKENS);
    TokensClosed(TOKENS);
    OutputChain(raw, PHRASES, TOKENS);
    SplitCanonical(Safe(raw));
    SettledIff(Split(Safe(raw)));
    LeftoverIff(p);
    PhrasesClear(Split(raw));
    TokensComplete(Chain(p));
  }

  lemma OutputChain(raw: string, phrases: seq<Rule>, tokens: seq<Rule>)
    requires Closed(tokens)
    ensures Chain(Split(Rewrite(raw, phrases, tokens))) == Mapped(Chain(FoldPieces(Split(raw), phrases)), tokens)
  {
    var p := FoldPieces(Split(raw), phrases);
    RewriteIsPieces(raw, phrases, tokens);
    FoldIsMap(p, tokens);
    TidyChain(FoldPieces(p, tokens));
    MapChain(p, tokens);
  }

  // ----- how many applications are enough

  lemma {:induction false} LinksAvoid(c: seq<Link>, words: set<string>)
    requires forall x | x in c :: !In(x, words)
    ensures forall w | w in WordsIn(c) :: w !in words
  {
    if c != [] {
      assert c[0] in c && !In(c[0], words);
      LinksAvoid(c[1..], words);
    }
  }

  lemma NoReplacementHasResidue(r: Rule)
    requires r in PHRASES || r in TOKENS
    ensures Avoids(Split(r.replacement), RESIDUE)
  {
    if r in PHRASES {
      PhrasesHarmless();
      HarmlessLinks(r.replacement);
    } else {
      var k :| 0 <= k < |TOKENS| && TOKENS[k] == r;
      TokensMake(k);
      var first, last := TokenLinks(r);
    }
    LinksAvoid(Chain(Split(r.replacement)), RESIDUE);
    WordsOfChain(Split(r.replacement));
  }

  /** No application adds a word among analysis, stale, admin, service and task. */
  lemma {:induction false} ResidueNeverGrows(raw: string)
    ensures ResidueOf(Safe(raw)) <= ResidueOf(raw)
  {
    var p := FoldPieces(Split(raw), PHRASES);
    forall r | r in PHRASES || r in TOKENS ensures Avoids(Split(r.replacement), RESIDUE) {
      NoReplacementHasResidue(r);
    }
    FoldAddsNoResidue(Split(raw), PHRASES);
    FoldAddsNoResidue(p, TOKENS);
    RewriteIsPieces(raw, PHRASES, TOKENS);
    TidyWords(FoldPieces(p, TOKENS));
  }

  /** After the first application, one more for each such word of the input, and the text is settled for good;
      an input without these words needs none. */
  lemma {:induction false} Settles(raw: string, n: nat)
    requires n >= ResidueOf(raw)
    ensures Safe(Iterate(Safe, Safe(raw), n)) == Iterate(Safe, Safe(raw), n)
  {
    ResidueNeverGrows(raw);
    forall t: string ensures Safe(Safe(t)) == Safe(t) || ResidueOf(Safe(Safe(t))) < ResidueOf(Safe(t)) {
      Converges(t);
    }
    SettlesBy(Safe, ResidueOf, raw, n);
  }
}
