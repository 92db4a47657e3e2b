/**
 The replacements of the two rule tables: what they may begin and end with.
 */
module StaffTables {
  import opened Wrappers
  import opened Text
  import opened Regex
  import opened Words
  import opened Delimited
  import opened StaffText
  import opened StaffChains
  import opened StaffTokens
  import opened StaffConvergence
  import opened StaffImages

  /** The tokens that become "follow-up". */
  const FOLLOW_UPS: set<string> := {"workflow", "automation"}

  /** The forms of the second word of "service request". */
  const REQUESTS: set<string> := {"request", "requests"}

  lemma OneLink(w: string)
    requires Letters(w)
    ensures Chain(Split(w)) == [Some(w)]
  {
    OneWord(w);
    assert Chain([Word(w)]) == LinkOf(Word(w)) + Chain([Word(w)][1..]);
    LettersLower(w);
  }

  lemma PairChain(w: string, c: char)
    requires Member(Separator, c)
    ensures Chain([Word(w), Gap(c)]) == [Some(LowerText(w))]
  {
    var ps := [Word(w), Gap(c)];
    assert ps[1..] == [Gap(c)] && ps[1..][1..] == [];
    assert Chain(ps[1..]) == LinkOf(Gap(c)) + Chain(ps[1..][1..]) == [];
  }

  lemma LinkThen(a: string, c: char, rest: string)
    requires a != "" && AllAlnum(a) && !IsAlnum(c) && Member(Separator, c)
    ensures Chain(Split(a + [c] + rest)) == [Some(LowerText(a))] + Chain(Split(rest))
  {
    SplitThen(a, c, rest);
    ChainConcat([Word(a), Gap(c)], Split(rest));
    PairChain(a, c);
  }

  lemma TwoLinks(a: string, c: char, b: string)
    requires Letters(a) && Letters(b) && !IsAlnum(c) && Member(Separator, c)
    ensures Chain(Split(a + [c] + b)) == [Some(a), Some(b)]
  {
    LettersLower(a);
    LinkThen(a, c, b);
    OneLink(b);
  }

  /** How a token's replacement may begin and end, so that tokens complete only five kinds of phrase. */
  predicate TokenEnds(key: string, first: string, last: string) {
    && first !in RESIDUE && last !in RESIDUE
    && first != "transfer" && first != "requests" && first != "up" && last != "create"
    && (first == "request" <==> key == "commission") && (last == "call" <==> key == "ai")
    && (first == "follow" <==> key in FOLLOW_UPS) && (first == "follow" ==> last == "up")
  }

  predicate TwoWordText(s: string, a: string, c: char, b: string) {
    s == a + [c] + b && Letters(a) && Letters(b) && !IsAlnum(c) && Member(Separator, c)
  }

  ghost predicate TokenMakes(r: Rule) {
    || (Letters(r.replacement) && TokenEnds(Key(r), r.replacement, r.replacement))
    || (exists a, c, b :: TwoWordText(r.replacement, a, c, b) && TokenEnds(Key(r), a, b))
  }

  lemma OneWordMakes(r: Rule, key: string, w: string)
    requires Key(r) == key && r.replacement == w && Letters(w) && TokenEnds(key, w, w)
    ensures TokenMakes(r)
  {}

  lemma TwoWordsMake(r: Rule, key: string, a: string, c: char, b: string)
    requires Key(r) == key && TwoWordText(r.replacement, a, c, b) && TokenEnds(key, a, b)
    ensures TokenMakes(r)
  {}

  lemma OneWordTokensMakeA()
    ensures TokenMakes(TOKENS_A[0]) && TokenMakes(TOKENS_A[2]) && TokenMakes(TOKENS_A[3]) && TokenMakes(TOKENS_A[4])
  {
    KeysOfA();
    OneWordMakes(TOKENS_A[0], "ai", "call");
    OneWordMakes(TOKENS_A[2], "rule", "routing");
    OneWordMakes(TOKENS_A[3], "rules", "routing");
    OneWordMakes(TOKENS_A[4], "axis", "focus");
  }

  lemma OneWordTokensMakeB()
    ensures TokenMakes(TOKENS_B[5]) && TokenMakes(TOKENS_B[6]) && TokenMakes(TOKENS_B[7])
  {
    KeysOfB();
    OneWordMakes(TOKENS_B[5], "resolver", "summary");
    OneWordMakes(TOKENS_B[6], "debug", "review");
    OneWordMakes(TOKENS_B[7], "commission", "request");
  }

  lemma FollowUpTokensMake()
    ensures TokenMakes(TOKENS_A[1]) && TokenMakes(TOKENS_A[8])
  {
    KeysOfA();
    assert "follow" + ['-'] + "up" == "follow-up";
    TwoWordsMake(TOKENS_A[1], "workflow", "follow", '-', "up");
    TwoWordsMake(TOKENS_A[8], "automation", "follow", '-', "up");
  }

  lemma SaleTokensMake()
    ensures TokenMakes(TOKENS_A[5]) && TokenMakes(TOKENS_A[6]) && TokenMakes(TOKENS_A[7])
  {
    KeysOfA();
    assert "purchase" + [' '] + "intent" == "purchase intent";
    assert "customer" + [' '] + "request" == "customer request";
    TwoWordsMake(TOKENS_A[5], "sales", "purchase", ' ', "intent");
    TwoWordsMake(TOKENS_A[6], "sale", "purchase", ' ', "intent");
    TwoWordsMake(TOKENS_A[7], "support", "customer", ' ', "request");
  }

  lemma ListTokensMake()
    ensures TokenMakes(TOKENS_B[0]) && TokenMakes(TOKENS_B[1]) && TokenMakes(TOKENS_B[2])
  {
    KeysOfB();
    assert "customer" + [' '] + "lists" == "customer lists";
    assert "customer" + [' '] + "list" == "customer list";
    TwoWordsMake(TOKENS_B[0], "segments", "customer", ' ', "lists");
    TwoWordsMake(TOKENS_B[1], "segment", "customer", ' ', "list");
    TwoWordsMake(TOKENS_B[2], "kanban", "customer", ' ', "list");
  }

  lemma SummaryTokensMake()
    ensures TokenMakes(TOKENS_B[3]) && TokenMakes(TOKENS_B[4])
  {
    KeysOfB();
    assert "call" + [' '] + "summary" == "call summary";
    TwoWordsMake(TOKENS_B[3], "transcript", "call", ' ', "summary");
    TwoWordsMake(TOKENS_B[4], "transcripts", "call", ' ', "summary");
  }

  lemma TokensMake(k: nat)
    requires k < |TOKENS|
    ensures TokenMakes(TOKENS[k])
  {
    if k < 9 {
      assert TOKENS[k] == TOKENS_A[k];
      OneWordTokensMakeA(); FollowUpTokensMake(); SaleTokensMake();
    } else {
      assert TOKENS[k] == TOKENS_B[k - 9];
      OneWordTokensMakeB(); ListTokensMake(); SummaryTokensMake();
    }
  }

  /** One or two words. */
  predicate OneOrTwo(image: seq<Link>, first: string, last: string) {
    image == [Some(first), Some(last)] || (image == [Some(first)] && first == last)
  }

  lemma TokenLinks(r: Rule) returns (first: string, last: string)
    requires TokenMakes(r)
    ensures OneOrTwo(Chain(Split(r.replacement)), first, last) && TokenEnds(Key(r), first, last)
  {
    if Letters(r.replacement) && TokenEnds(Key(r), r.replacement, r.replacement) {
      first, last := r.replacement, r.replacement;
      OneLink(first);
    } else {
      var a, c, b :| TwoWordText(r.replacement, a, c, b) && TokenEnds(Key(r), a, b);
      TwoLinks(a, c, b);
      first, last := a, b;
    }
  }

  /** For every word: its image, and how that image begins and ends. */
  lemma TokenImage(w: string) returns (first: string, last: string)
    ensures OneOrTwo(ImageOf(TOKENS, w), first, last)
    ensures if w in FORBIDDEN then TokenEnds(w, first, last) else ImageOf(TOKENS, w) == [Some(w)] && first == w
  {
    TokensPurge();
    var k := ImageIs(TOKENS, w);
    if k < |TOKENS| {
      TokensMake(k);
      first, last := TokenLinks(TOKENS[k]);
    } else {
      first, last := w, w;
    }
  }

  lemma NoPairWithin(image: seq<Link>, first: string, last: string, a: set<string>, b: set<string>)
    requires OneOrTwo(image, first, last) && (image == [Some(first)] || first !in a || last !in b)
    ensures !Contains(image, [a, b])
  {
    PairStarts([], a, b);
    PairStarts([Some(first)], a, b);
    PairStarts([Some(last)], a, b);
    assert [Some(first)][1..] == [] == [Some(last)][1..];
    PairConcat([Some(first)], [Some(last)], a, b);
  }

  /** What the tokens must not do to keep the pair, and what they may turn into its words. */
  ghost predicate EndsMake(a: set<string>, b: set<string>, a2: set<string>, b2: set<string>) {
    && (forall key, first, last | key in FORBIDDEN && TokenEnds(key, first, last) ::
          (last in a <==> key in a2) && (first in b <==> key in b2) && (first !in a || last !in b))
    && (forall w | w !in FORBIDDEN :: (w in a <==> w in a2) && (w in b <==> w in b2))
  }

  lemma TokensMakePair(a: set<string>, b: set<string>, a2: set<string>, b2: set<string>)
    requires EndsMake(a, b, a2, b2)
    ensures Makes(TOKENS, a, b, a2, b2)
  {
    forall w: string ensures MakesAt(ImageOf(TOKENS, w), w, a, b, a2, b2) {
      var first, last := TokenImage(w);
      NoPairWithin(ImageOf(TOKENS, w), first, last, a, b);
    }
  }

  lemma EndsMakeCallAnalysis()
    ensures EndsMake({"call"}, {"analysis"}, {"call"} + {"ai"}, {"analysis"})
  {}

  lemma EndsMakeServiceRequest()
    ensures EndsMake({"service"}, REQUESTS, {"service"}, REQUESTS + {"commission"})
  {}

  lemma EndsMakeNoTransfer()
    ensures EndsMake({"admin"}, {"transfer"}, {"admin"}, {"transfer"})
  {}

  lemma EndsMakeNoTask()
    ensures EndsMake({"create"}, {"task"}, {"create"}, {"task"})
  {}

  lemma TokensMakeFollowUp()
    ensures MakesFollowUp(TOKENS, FOLLOW_UPS)
  {
    forall w: string ensures MakesFollowUpAt(ImageOf(TOKENS, w), w, FOLLOW_UPS) {
      var first, last := TokenImage(w);
    }
  }

  /** How a phrase's replacement may begin and end, so that it completes no other phrase. */
  predicate PhraseEnds(first: string, last: string) {
    && first !in RESIDUE && first !in REQUESTS && first != "transfer"
    && last !in RESIDUE && last != "call" && last != "create"
  }

  predicate ThreeWordText(s: string, a: string, c: char, m: string, d: char, b: string) {
    && s == a + [c] + (m + [d] + b) && a != "" && AllAlnum(a) && Letters(m) && Letters(b)
    && !IsAlnum(c) && Member(Separator, c) && !IsAlnum(d) && Member(Separator, d)
  }

  ghost predicate Harmless(s: string) {
    || (Letters(s) && PhraseEnds(s, s))
    || (exists a, c, b :: TwoWordText(s, a, c, b) && PhraseEnds(a, b))
    || (exists a, c, m, d, b :: ThreeWordText(s, a, c, m, d, b) && PhraseEnds(LowerText(a), b) && m !in RESIDUE)
  }

  lemma HarmlessTwo(s: string, a: string, c: char, b: string)
    requires TwoWordText(s, a, c, b) && PhraseEnds(a, b)
    ensures Harmless(s)
  {}

  lemma HarmlessThree(s: string, a: string, c: char, m: string, d: char, b: string)
    requires ThreeWordText(s, a, c, m, d, b) && PhraseEnds(LowerText(a), b) && m !in RESIDUE
    ensures Harmless(s)
  {}

  lemma CallTexts()
    ensures Harmless("call summary") && Harmless("call routing")
  {
    assert "call" + [' '] + "summary" == "call summary";
    assert "call" + [' '] + "routing" == "call routing";
    HarmlessTwo("call summary", "call", ' ', "summary");
    HarmlessTwo("call routing", "call", ' ', "routing");
  }

  lemma TranscriptTexts()
    ensures Harmless("call excerpt") && Harmless("call preview") && Harmless("call model")
  {
    assert "call" + [' '] + "excerpt" == "call excerpt";
    assert "call" + [' '] + "preview" == "call preview";
    assert "call" + [' '] + "model" == "call model";
    HarmlessTwo("call excerpt", "call", ' ', "excerpt");
    HarmlessTwo("call preview", "call", ' ', "preview");
    HarmlessTwo("call model", "call", ' ', "model");
  }

  lemma CustomerTexts()
    ensures Harmless("customer priority") && Harmless("customer request") && Harmless("customer list")
  {
    assert "customer" + [' '] + "priority" == "customer priority";
    assert "customer" + [' '] + "request" == "customer request";
    assert "customer" + [' '] + "list" == "customer list";
    HarmlessTwo("customer priority", "customer", ' ', "priority");
    HarmlessTwo("customer request", "customer", ' ', "request");
    HarmlessTwo("customer list", "customer", ' ', "list");
  }

  lemma RoutingTexts()
    ensures Harmless("matched routing") && Harmless("routing detail")
  {
    assert "matched" + [' '] + "routing" == "matched routing";
    assert "routing" + [' '] + "detail" == "routing detail";
    HarmlessTwo("matched routing", "matched", ' ', "routing");
    HarmlessTwo("routing detail", "routing", ' ', "detail");
  }

  lemma FollowUpTexts()
    ensures Harmless("transferred") && Harmless("follow-up")
  {
    assert "follow" + ['-'] + "up" == "follow-up";
    HarmlessTwo("follow-up", "follow", '-', "up");
  }

  lemma CreateText()
    ensures Harmless("create follow-up")
  {
    assert "create" + [' '] + ("follow" + ['-'] + "up") == "create follow-up";
    LettersLower("create");
    HarmlessThree("create follow-up", "create", ' ', "follow", '-', "up");
  }

  lemma RequestFocusText()
    ensures Harmless("customer request focus")
  {
    assert "customer" + [' '] + ("request" + [' '] + "focus") == "customer request focus";
    LettersLower("customer");
    HarmlessThree("customer request focus", "customer", ' ', "request", ' ', "focus");
  }

  lemma IntentFocusText()
    ensures Harmless("purchase intent focus")
  {
    assert "purchase" + [' '] + ("intent" + [' '] + "focus") == "purchase intent focus";
    LettersLower("purchase");
    HarmlessThree("purchase intent focus", "purchase", ' ', "intent", ' ', "focus");
  }

  lemma ShopifyText()
    ensures Harmless("Shopify customer list")
  {
    assert "Shopify" + [' '] + ("customer" + [' '] + "list") == "Shopify customer list";
    assert LowerText("Shopify") == "shopify";
    HarmlessThree("Shopify customer list", "Shopify", ' ', "customer", ' ', "list");
  }

  lemma HarmlessA(k: nat)
    requires k < |PHRASES_A|
    ensures Harmless(PHRASES_A[k].replacement)
  {
    if k == 0 { CallTexts(); } else if k == 2 { FollowUpTexts(); } else if k == 3 { FollowUpTexts(); }
    else if k == 5 { CreateText(); } else { CustomerTexts(); }
  }

  lemma HarmlessB(k: nat)
    requires k < |PHRASES_B|
    ensures Harmless(PHRASES_B[k].replacement)
  {
    if k < 2 { RoutingTexts(); } else if k == 3 { FollowUpTexts(); } else { CallTexts(); }
  }

  lemma HarmlessC(k: nat)
    requires k < |PHRASES_C|
    ensures Harmless(PHRASES_C[k].replacement)
  {
    if k == 1 { RequestFocusText(); } else if k == 2 { IntentFocusText(); } else if k == 3 { ShopifyText(); }
    else { CustomerTexts(); }
  }

  lemma HarmlessD(k: nat)
    requires k < |PHRASES_D|
    ensures Harmless(PHRASES_D[k].replacement)
  {
    if k == 0 || k == 1 || k == 4 { TranscriptTexts(); } else { CallTexts(); }
  }

  lemma PhrasesHarmless()
    ensures forall r | r in PHRASES :: Harmless(r.replacement)
  {
    forall r | r in PHRASES ensures Harmless(r.replacement) {
      if r in PHRASES_A {
        var k :| 0 <= k < |PHRASES_A| && PHRASES_A[k] == r;
        HarmlessA(k);
      } else if r in PHRASES_B {
        var k :| 0 <= k < |PHRASES_B| && PHRASES_B[k] == r;
        HarmlessB(k);
      } else if r in PHRASES_C {
        var k :| 0 <= k < |PHRASES_C| && PHRASES_C[k] == r;
        HarmlessC(k);
      } else {
        var k :| 0 <= k < |PHRASES_D| && PHRASES_D[k] == r;
        HarmlessD(k);
      }
    }
  }

  /** No word of these is among those of the pair. */
  lemma {:induction false} NoPairAmong(image: seq<Link>, a: set<string>, b: set<string>)
    requires (forall x | x in image :: !In(x, a)) || (forall x | x in image :: !In(x, b))
    ensures !Contains(image, [a, b])
  {
    PairStarts(image, a, b);
    if image != [] { NoPairAmong(image[1..], a, b); }
  }

  lemma ThreeLinks(s: string, a: string, c: char, m: string, d: char, b: string)
    requires ThreeWordText(s, a, c, m, d, b)
    ensures Chain(Split(s)) == [Some(LowerText(a)), Some(m), Some(b)]
  {
    LinkThen(a, c, m + [d] + b);
    TwoLinks(m, d, b);
  }

  /** A harmless replacement as links. */
  ghost predicate HarmlessChain(c: seq<Link>) {
    && c != [] && (forall x | x in c :: x.Some? && x.value !in RESIDUE)
    && PhraseEnds(c[0].value, c[|c| - 1].value)
  }

  lemma HarmlessWords(c: seq<Link>, first: string, middle: string, last: string)
    requires OneOrTwo(c, first, last) || c == [Some(first), Some(middle), Some(last)]
    requires PhraseEnds(first, last) && middle !in RESIDUE
    ensures HarmlessChain(c)
  {}

  lemma HarmlessLinks(s: string)
    requires Harmless(s)
    ensures HarmlessChain(Chain(Split(s)))
  {
    if Letters(s) && PhraseEnds(s, s) {
      OneLink(s);
      HarmlessWords(Chain(Split(s)), s, s, s);
    } else if a, c, b :| TwoWordText(s, a, c, b) && PhraseEnds(a, b) {
      TwoLinks(a, c, b);
      HarmlessWords(Chain(Split(s)), a, a, b);
    } else {
      var a, c, m, d, b :| ThreeWordText(s, a, c, m, d, b) && PhraseEnds(LowerText(a), b) && m !in RESIDUE;
      ThreeLinks(s, a, c, m, d, b);
      HarmlessWords(Chain(Split(s)), LowerText(a), m, b);
    }
  }

  lemma HarmlessFences(s: string, a: set<string>, b: set<string>)
    requires Harmless(s) && (a <= RESIDUE || b <= RESIDUE)
    requires a <= RESIDUE + {"call", "create"} && b <= RESIDUE + REQUESTS + {"transfer"}
    ensures Fenced(Chain(Split(s)), a, b)
  {
    HarmlessLinks(s);
    NoPairAmong(Chain(Split(s)), a, b);
  }
}
