/**
 What the rewriter makes of a text: the tables of the source as phrases and their final texts, and as a dictionary.
 */
module StaffDictionary {
  import opened Wrappers
  import opened Text
  import opened Words
  import opened Delimited
  import opened StaffText
  import opened StaffChains
  import opened StaffTokens
  import opened StaffConvergence
  import opened StaffSpelling

  // ----- the tables

  /** A phrase, with the spellings of each of its words, and what it becomes. */
  datatype Row = Row(words: seq<seq<string>>, text: string)

  const ROWS: seq<Row> := ROWS_A + ROWS_B + ROWS_C + ROWS_D

  const ROWS_A: seq<Row> := [
    Row([["call"], ["analysis"]], "call summary"),
    Row([["segment"], ["priority"]], "customer priority"),
    Row([["stale"], ["follow"], ["up"]], "follow-up"),
    Row([["admin"], ["transfer"]], "transferred"),
    Row([["service"], ["request", "requests"]], "customer request"),
    Row([["create"], ["task"]], "create follow-up")]

  const ROWS_B: seq<Row> := [
    Row([["matched"], ["rule", "rules"]], "matched routing"),
    Row([["rule"], ["trace"]], "routing detail"),
    Row([["ai"], ["workflow"], ["rule", "rules"]], "call routing"),
    Row([["ai"], ["workflow"]], "follow-up"),
    Row([["workflow"], ["rule", "rules"]], "call routing"),
    Row([["workflow"], ["rule"]], "call routing"),
    Row([["rule"], ["engine"]], "call routing")]

  const ROWS_C: seq<Row> := [
    Row([["support"], ["case", "cases"]], "customer request"),
    Row([["support"], ["axis"]], "customer request focus"),
    Row([["sales"], ["axis"]], "purchase intent focus"),
    Row([["shopify"], ["segment", "segments"]], "Shopify customer list"),
    Row([["customer"], ["segment", "segments"]], "customer list")]

  const ROWS_D: seq<Row> := [
    Row([["transcript"], ["snippet", "snippets"]], "call excerpt"),
    Row([["transcript"], ["preview", "previews"]], "call preview"),
    Row([["transcript"], ["resolver"]], "call summary"),
    Row([["ai"], ["resolver"]], "call summary"),
    Row([["ai"], ["model"]], "call model")]

  /** What a word that staff must not see becomes. */
  function Image(w: string): Option<string> {
    if w == "ai" then Some("call")
    else if w == "workflow" || w == "automation" then Some("follow-up")
    else if w == "rule" || w == "rules" then Some("routing")
    else if w == "axis" then Some("focus")
    else if w == "sales" || w == "sale" then Some("purchase intent")
    else if w == "support" then Some("customer request")
    else if w == "segments" then Some("customer lists")
    else if w == "segment" || w == "kanban" then Some("customer list")
    else if w == "transcript" || w == "transcripts" then Some("call summary")
    else if w == "resolver" then Some("summary")
    else if w == "debug" then Some("review")
    else if w == "commission" then Some("request")
    else None
  }

  /** What a word becomes, in whatever letter case it is; every other word stays as it is. */
  function Meaning(u: string): string {
    if Image(LowerText(u)).Some? then Image(LowerText(u)).value else u
  }

  /** The text word by word; nothing else changes. */
  function Translated(ps: seq<Piece>): string {
    if ps == [] then ""
    else
      match ps[0]
      case Word(u) => Meaning(u) + Translated(ps[1..])
      case Gap(c) => [c] + Translated(ps[1..])
  }

  lemma MeaningIs(u: string, w: string)
    requires Letters(w)
    ensures Spells(u, w) && Image(w).Some? ==> Meaning(u) == Image(w).value
  {
    SpellsIs(u, w);
  }

  lemma OtherWordsStay(u: string)
    requires forall w | w in FORBIDDEN :: !Spells(u, w)
    ensures Meaning(u) == u
  {
    if Image(LowerText(u)).Some? {
      ImageWords(LowerText(u));
      SpellsIs(u, LowerText(u));
    }
  }

  lemma ImageWords(w: string)
    ensures Image(w).Some? <==> w in FORBIDDEN
    ensures w in FORBIDDEN ==> Letters(w)
  {}

  // ----- the rules are the tables

  ghost predicate Tabled(r: Rule, row: Row) {
    AllLetters(r.words) && row.words == Spellings(r.words, r.plural) && row.text == r.replacement
  }

  lemma TwoTabled(r: Rule, row: Row, x: string, y: string, ys: string)
    requires r.words == [x, y] && Letters(x) && Letters(y) && ys == y + "s" && row.text == r.replacement
    requires row.words == [[x], if r.plural then [y, ys] else [y]]
    ensures Tabled(r, row)
  {
    assert r.words[1..] == [y];
    assert Spellings(r.words, r.plural) == [[x]] + Spellings([y], r.plural);
  }

  lemma ThreeTabled(r: Rule, row: Row, x: string, y: string, z: string, zs: string)
    requires r.words == [x, y, z] && Letters(x) && Letters(y) && Letters(z) && zs == z + "s"
    requires row.text == r.replacement && row.words == [[x], [y], if r.plural then [z, zs] else [z]]
    ensures Tabled(r, row)
  {
    assert r.words[1..] == [y, z] && [y, z][1..] == [z];
    assert Spellings([y, z], r.plural) == [[y]] + Spellings([z], r.plural);
    assert Spellings(r.words, r.plural) == [[x]] + Spellings([y, z], r.plural);
  }

  lemma TabledA1()
    ensures Tabled(PHRASES_A[0], ROWS_A[0])
    ensures Tabled(PHRASES_A[1], ROWS_A[1])
    ensures Tabled(PHRASES_A[2], ROWS_A[2])
  {
    assert "analysis" + "s" == "analysiss";
    TwoTabled(PHRASES_A[0], ROWS_A[0], "call", "analysis", "analysiss");
    assert "priority" + "s" == "prioritys";
    TwoTabled(PHRASES_A[1], ROWS_A[1], "segment", "priority", "prioritys");
    assert "up" + "s" == "ups";
    ThreeTabled(PHRASES_A[2], ROWS_A[2], "stale", "follow", "up", "ups");
  }

  lemma TabledA2()
    ensures Tabled(PHRASES_A[3], ROWS_A[3])
    ensures Tabled(PHRASES_A[4], ROWS_A[4])
    ensures Tabled(PHRASES_A[5], ROWS_A[5])
  {
    assert "transfer" + "s" == "transfers";
    TwoTabled(PHRASES_A[3], ROWS_A[3], "admin", "transfer", "transfers");
    assert "request" + "s" == "requests";
    TwoTabled(PHRASES_A[4], ROWS_A[4], "service", "request", "requests");
    assert "task" + "s" == "tasks";
    TwoTabled(PHRASES_A[5], ROWS_A[5], "create", "task", "tasks");
  }

  lemma TabledB1()
    ensures Tabled(PHRASES_B[0], ROWS_B[0])
    ensures Tabled(PHRASES_B[1], ROWS_B[1])
    ensures Tabled(PHRASES_B[2], ROWS_B[2])
    ensures Tabled(PHRASES_B[3], ROWS_B[3])
  {
    assert "rule" + "s" == "rules";
    TwoTabled(PHRASES_B[0], ROWS_B[0], "matched", "rule", "rules");
    assert "trace" + "s" == "traces";
    TwoTabled(PHRASES_B[1], ROWS_B[1], "rule", "trace", "traces");
    assert "rule" + "s" == "rules";
    ThreeTabled(PHRASES_B[2], ROWS_B[2], "ai", "workflow", "rule", "rules");
    assert "workflow" + "s" == "workflows";
    TwoTabled(PHRASES_B[3], ROWS_B[3], "ai", "workflow", "workflows");
  }

  lemma TabledB2()
    ensures Tabled(PHRASES_B[4], ROWS_B[4])
    ensures Tabled(PHRASES_B[5], ROWS_B[5])
    ensures Tabled(PHRASES_B[6], ROWS_B[6])
  {
    assert "rule" + "s" == "rules";
    TwoTabled(PHRASES_B[4], ROWS_B[4], "workflow", "rule", "rules");
    assert "rule" + "s" == "rules";
    TwoTabled(PHRASES_B[5], ROWS_B[5], "workflow", "rule", "rules");
    assert "engine" + "s" == "engines";
    TwoTabled(PHRASES_B[6], ROWS_B[6], "rule", "engine", "engines");
  }

  lemma TabledC1()
    ensures Tabled(PHRASES_C[0], ROWS_C[0])
    ensures Tabled(PHRASES_C[1], ROWS_C[1])
    ensures Tabled(PHRASES_C[2], ROWS_C[2])
  {
    assert "case" + "s" == "cases";
    TwoTabled(PHRASES_C[0], ROWS_C[0], "support", "case", "cases");
    assert "axis" + "s" == "axiss";
    TwoTabled(PHRASES_C[1], ROWS_C[1], "support", "axis", "axiss");
    assert "axis" + "s" == "axiss";
    TwoTabled(PHRASES_C[2], ROWS_C[2], "sales", "axis", "axiss");
  }

  lemma TabledC2()
    ensures Tabled(PHRASES_C[3], ROWS_C[3])
    ensures Tabled(PHRASES_C[4], ROWS_C[4])
  {
    assert "segment" + "s" == "segments";
    TwoTabled(PHRASES_C[3], ROWS_C[3], "shopify", "segment", "segments");
    assert "segment" + "s" == "segments";
    TwoTabled(PHRASES_C[4], ROWS_C[4], "customer", "segment", "segments");
  }

  lemma TabledD1()
    ensures Tabled(PHRASES_D[0], ROWS_D[0])
    ensures Tabled(PHRASES_D[1], ROWS_D[1])
    ensures Tabled(PHRASES_D[2], ROWS_D[2])
  {
    assert "snippet" + "s" == "snippets";
    TwoTabled(PHRASES_D[0], ROWS_D[0], "transcript", "snippet", "snippets");
    assert "preview" + "s" == "previews";
    TwoTabled(PHRASES_D[1], ROWS_D[1], "transcript", "preview", "previews");
    assert "resolver" + "s" == "resolvers";
    TwoTabled(PHRASES_D[2], ROWS_D[2], "transcript", "resolver", "resolvers");
  }

  lemma TabledD2()
    ensures Tabled(PHRASES_D[3], ROWS_D[3])
    ensures Tabled(PHRASES_D[4], ROWS_D[4])
  {
    assert "resolver" + "s" == "resolvers";
    TwoTabled(PHRASES_D[3], ROWS_D[3], "ai", "resolver", "resolvers");
    assert "model" + "s" == "models";
    TwoTabled(PHRASES_D[4], ROWS_D[4], "ai", "model", "models");
  }

  lemma TabledA(k: nat)
    requires k < 6
    ensures Tabled(PHRASES_A[k], ROWS_A[k])
  {
    TabledA1();
    TabledA2();
  }

  lemma TabledB(k: nat)
    requires k < 7
    ensures Tabled(PHRASES_B[k], ROWS_B[k])
  {
    TabledB1();
    TabledB2();
  }

  lemma TabledC(k: nat)
    requires k < 5
    ensures Tabled(PHRASES_C[k], ROWS_C[k])
  {
    TabledC1();
    TabledC2();
  }

  lemma TabledD(k: nat)
    requires k < 5
    ensures Tabled(PHRASES_D[k], ROWS_D[k])
  {
    TabledD1();
    TabledD2();
  }

  lemma PhrasesTabled(k: nat)
    requires k < 23
    ensures |PHRASES| == |ROWS| == 23 && Tabled(PHRASES[k], ROWS[k])
  {
    PartsAligned(k);
    if k < 6 {
      TabledA(k);
    } else if k < 13 {
      TabledB(k - 6);
    } else if k < 18 {
      TabledC(k - 13);
    } else {
      TabledD(k - 18);
    }
  }

  lemma PartsAligned(k: nat)
    requires k < 23
    ensures |PHRASES| == |ROWS| == 23
    ensures k < 6 ==> PHRASES[k] == PHRASES_A[k] && ROWS[k] == ROWS_A[k]
    ensures 6 <= k < 13 ==> PHRASES[k] == PHRASES_B[k - 6] && ROWS[k] == ROWS_B[k - 6]
    ensures 13 <= k < 18 ==> PHRASES[k] == PHRASES_C[k - 13] && ROWS[k] == ROWS_C[k - 13]
    ensures 18 <= k ==> PHRASES[k] == PHRASES_D[k - 18] && ROWS[k] == ROWS_D[k - 18]
  {}

  lemma TokensAreImagesA(k: nat)
    requires k < 9
    ensures Image(Key(TOKENS_A[k])) == Some(TOKENS_A[k].replacement)
  {
    KeysOfA();
  }

  lemma TokensAreImagesB(k: nat)
    requires k < 4
    ensures Image(Key(TOKENS_B[k])) == Some(TOKENS_B[k].replacement)
  {
    KeysOfB();
  }

  lemma TranscriptsAreImages(k: nat)
    requires 4 <= k < 6
    ensures Image(Key(TOKENS_B[k])) == Some(TOKENS_B[k].replacement)
  {
    KeysOfB();
  }

  lemma DebugAndCommissionAreImages(k: nat)
    requires 6 <= k < 8
    ensures Image(Key(TOKENS_B[k])) == Some(TOKENS_B[k].replacement)
  {
    KeysOfB();
  }

  lemma TokensAreImages(k: nat)
    requires k < |TOKENS|
    ensures Image(Key(TOKENS[k])) == Some(TOKENS[k].replacement)
  {
    if k < 9 {
      assert TOKENS[k] == TOKENS_A[k];
      TokensAreImagesA(k);
    } else {
      assert TOKENS[k] == TOKENS_B[k - 9];
      if k < 13 { TokensAreImagesB(k - 9); }
      else if k < 15 { TranscriptsAreImages(k - 9); }
      else { DebugAndCommissionAreImages(k - 9); }
    }
  }

  // ----- texts without a phrase

  /** The dictionary of these rules. */
  ghost predicate Means(tokens: seq<Rule>) { forall u :: Join(Lookup(tokens, u)) == Meaning(u) }

  /** Each rule gives the image of its word, and every word with an image has a rule. */
  ghost predicate Gives(tokens: seq<Rule>) {
    && Functional(tokens)
    && (forall k | 0 <= k < |tokens| :: Image(Key(tokens[k])) == Some(tokens[k].replacement))
    && (forall w | Image(w).Some? :: exists k :: 0 <= k < |tokens| && Key(tokens[k]) == w)
  }

  lemma TokensGive()
    ensures Gives(TOKENS)
  {
    TokensClosed(TOKENS);
    TokensPurge();
    forall k | 0 <= k < |TOKENS| ensures Image(Key(TOKENS[k])) == Some(TOKENS[k].replacement) { TokensAreImages(k); }
    forall w | Image(w).Some? ensures w in FORBIDDEN { ImageWords(w); }
  }

  lemma TokenMeans(tokens: seq<Rule>, u: string)
    requires Gives(tokens)
    ensures Join(Lookup(tokens, u)) == Meaning(u)
  {
    if k :| 0 <= k < |tokens| && Key(tokens[k]) == LowerText(u) {
      LookupFinds(tokens, u, k);
      JoinSplit(tokens[k].replacement);
    } else {
      LookupMisses(tokens, u);
      assert [Word(u)][1..] == [];
    }
  }

  lemma {:induction false} MapMeans(ps: seq<Piece>, tokens: seq<Rule>)
    requires Means(tokens)
    ensures Join(MapWords(ps, tokens)) == Translated(ps)
  {
    if ps != [] {
      MapMeans(ps[1..], tokens);
      var head := if ps[0].Word? then Lookup(tokens, ps[0].text) else [ps[0]];
      JoinConcat(head, MapWords(ps[1..], tokens));
      if ps[0].Gap? { assert [ps[0]][1..] == []; }
    }
  }

  lemma TokensMean()
    ensures Means(TOKENS)
  {
    TokensGive();
    forall u ensures Join(Lookup(TOKENS, u)) == Meaning(u) { TokenMeans(TOKENS, u); }
  }

  /** The 17 token passes translate a text word by word, and so do they in any other order, or with some repeated. */
  lemma {:induction false} TokenOrderIsIrrelevant(s: string, rules: seq<Rule>)
    requires forall r :: r in rules <==> r in TOKENS
    ensures Fold(s, rules) == Fold(s, TOKENS) == Translated(Split(s))
  {
    TokensClosed(rules);
    TokensClosed(TOKENS);
    FoldIsPieces(s, rules);
    FoldIsPieces(s, TOKENS);
    FoldIsMap(Split(s), rules);
    FoldIsMap(Split(s), TOKENS);
    SameEntriesSameMap(Split(s), rules, TOKENS);
    TokensMean();
    MapMeans(Split(s), TOKENS);
  }

  lemma {:induction false} FoldWithoutPhrase(ps: seq<Piece>, rules: seq<Rule>)
    requires forall r | r in rules :: !HasPhrase(ps, r)
    ensures FoldPieces(ps, rules) == ps
    decreases |rules|
  {
    if rules != [] {
      PassWithoutPhrase(ps, rules[0]);
      FoldWithoutPhrase(ps, rules[1..]);
    }
  }

  lemma TranslatesWith(raw: string, phrases: seq<Rule>, tokens: seq<Rule>)
    requires Closed(tokens) && Means(tokens) && forall r | r in phrases :: !HasPhrase(Split(raw), r)
    ensures Rewrite(raw, phrases, tokens) == Trim(Collapse(Translated(Split(raw))))
  {
    var ps := Split(raw);
    FoldIsPieces(raw, phrases);
    FoldWithoutPhrase(ps, phrases);
    JoinSplit(raw);
    FoldIsPieces(raw, tokens);
    FoldIsMap(ps, tokens);
    MapMeans(ps, tokens);
  }

  /** A text in which none of the phrases stands is translated word by word, and its white space tidied. */
  lemma {:induction false} WithoutPhrases(raw: string)
    requires forall k | 0 <= k < |ROWS| :: !StandsIn(raw, ROWS[k].words)
    ensures Safe(raw) == Trim(Collapse(Translated(Split(raw))))
  {
    forall r | r in PHRASES ensures !HasPhrase(Split(raw), r) {
      var k :| 0 <= k < |PHRASES| && PHRASES[k] == r;
      PhrasesTabled(k);
      HasPhraseIff(raw, r);
    }
    TokensMean();
    TokensClosed(TOKENS);
    TranslatesWith(raw, PHRASES, TOKENS);
  }

  lemma {:induction false} TranslatedConcat(a: seq<Piece>, b: seq<Piece>)
    ensures Translated(a + b) == Translated(a) + Translated(b)
  {
    if a == [] {
      assert a + b == b;
    } else {
      assert (a + b)[1..] == a[1..] + b;
      TranslatedConcat(a[1..], b);
    }
  }

  /** A word of the text, whatever stands around it, becomes its image. */
  lemma WordTranslated(x: string, u: string, y: string)
    requires u != "" && AllAlnum(u) && !EndsInAlnum(x) && !StartsWithAlnum(y)
    ensures Translated(Split(x + (u + y))) == Translated(Split(x)) + (Meaning(u) + Translated(Split(y)))
  {
    SplitConcat(x, u + y);
    SplitWord(u, y);
    TranslatedConcat(Split(x), Split(u + y));
    assert Split(u + y)[1..] == Split(y);
  }

  lemma NothingStandsInNothing(k: nat)
    requires k < |ROWS|
    ensures !StandsIn("", ROWS[k].words)
  {
    PhrasesTabled(k);
    var r := PHRASES[k];
    forall p | ReadsAs(p, ROWS[k].words) ensures p != "" { ReadsStart(p, r.words, r.plural); }
  }

  /** `null` and `undefined` are shown as the empty text. */
  lemma {:induction false} NothingIsEmpty()
    ensures StaffSafeDisplayText(None) == ""
  {
    forall k | 0 <= k < |ROWS| ensures !StandsIn("", ROWS[k].words) { NothingStandsInNothing(k); }
    WithoutPhrases("");
  }
}
