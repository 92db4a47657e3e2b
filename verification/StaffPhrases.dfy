/**
 What a text that is nothing but one of the phrases becomes.
 */
module StaffPhrases {
  import opened Text
  import opened Words
  import opened Delimited
  import opened StaffText
  import opened StaffTokens
  import opened StaffConvergence
  import opened StaffSpelling
  import opened StaffDictionary

  // ----- the words of a phrase

  /** Every spelling of the phrase is one of these words. */
  ghost predicate Lists(words: seq<seq<string>>, vocabulary: set<string>) {
    forall i, m | 0 <= i < |words| && 0 <= m < |words[i]| :: Letters(words[i][m]) && words[i][m] in vocabulary
  }

  lemma GapWords(g: string, rest: string)
    requires Separators(g)
    ensures WordsOf(Split(g + rest)) == WordsOf(Split(rest))
  {
    SkipsGap(g, rest);
    SkipSeparatorsWords(Split(g + rest));
    SkipSeparatorsWords(Split(rest));
  }

  lemma OneWordOf(u: string, ws: seq<string>, vocabulary: set<string>)
    requires SpellsOne(u, ws) && forall m | 0 <= m < |ws| :: Letters(ws[m]) && ws[m] in vocabulary
    ensures u != "" && AllAlnum(u) && LowerText(u) in vocabulary
  {
    var i :| 0 <= i < |ws| && Spells(u, ws[i]);
    SpellsIs(u, ws[i]);
    LettersLower(ws[i]);
    IsWord(u, ws[i]);
  }

  lemma {:induction false} ReadsWords(p: string, words: seq<seq<string>>, vocabulary: set<string>)
    requires ReadsAs(p, words) && Lists(words, vocabulary)
    ensures forall w | w in WordsOf(Split(p)) :: w in vocabulary
    decreases |words|
  {
    if |words| == 1 {
      OneWordOf(p, words[0], vocabulary);
      SplitWord(p, "");
      assert p + "" == p;
      assert WordsOf([Word(p)]) == [LowerText(p)] + WordsOf([Word(p)][1..]);
    } else {
      var a, g, rest :| p == a + g + rest && SpellsOne(a, words[0]) && Separators(g) && ReadsAs(rest, words[1..]);
      OneWordOf(a, words[0], vocabulary);
      assert forall i | 0 <= i < |words[1..]| :: words[1..][i] == words[i + 1];
      ReadsWords(rest, words[1..], vocabulary);
      WordFirst(a, g, rest);
      GapWords(g, rest);
      assert Split(p)[1..] == Split(g + rest);
    }
  }

  /** The rule needs a word that is none of these. */
  ghost predicate Foreign(r: Rule, vocabulary: set<string>) {
    exists i: nat, words :: Needs(r, i, words) && words !! vocabulary
  }

  lemma ForeignIsIdle(ps: seq<Piece>, r: Rule, vocabulary: set<string>)
    requires Foreign(r, vocabulary) && forall w | w in WordsOf(ps) :: w in vocabulary
    ensures Pass(ps, r) == ps
  {
    var i: nat, words :| Needs(r, i, words) && words !! vocabulary;
    PassIdle(ps, r, i, words);
  }

  // ----- what the phrase becomes

  /** No pass changes the text, and there is no white space to tidy. */
  ghost predicate Final(row: Row) {
    var text := row.text;
    && Avoids(Split(text), FORBIDDEN) && Avoids(Split(text), RESIDUE)
    && text != "" && !IsSpace(text[0]) && !IsSpace(text[|text| - 1])
    && forall i | 0 < i < |text| && IsSpace(text[i]) :: text[i] == ' ' && !IsSpace(text[i - 1])
  }

  lemma FinalIsTidy(row: Row)
    requires Final(row)
    ensures Trim(Collapse(row.text)) == row.text
  {
    CollapseSingleSpaced(row.text, false);
  }

  lemma FinalIsIdle(row: Row, r: Rule)
    requires Final(row) && PhraseOk(r)
    ensures Pass(Split(row.text), r) == Split(row.text)
  {
    if Blocked(r) {
      var k: nat :| Needs(r, k, FORBIDDEN);
      PassIdle(Split(row.text), r, k, FORBIDDEN);
    } else {
      var k: nat :| Needs(r, k, RESIDUE);
      PassIdle(Split(row.text), r, k, RESIDUE);
    }
  }

  /** Only rule `k` acts. */
  lemma {:induction false} OneRuleActs(ps: seq<Piece>, qs: seq<Piece>, rules: seq<Rule>, k: nat)
    requires k < |rules| && Pass(ps, rules[k]) == qs
    requires forall j | 0 <= j < k :: Pass(ps, rules[j]) == ps
    requires forall j | k < j < |rules| :: Pass(qs, rules[j]) == qs
    ensures FoldPieces(ps, rules) == qs
    decreases |rules|
  {
    if k == 0 {
      NoRuleActs(qs, rules[1..]);
    } else {
      assert Pass(ps, rules[0]) == ps;
      OneRuleActs(ps, qs, rules[1..], k - 1);
    }
  }

  lemma {:induction false} NoRuleActs(ps: seq<Piece>, rules: seq<Rule>)
    requires forall j | 0 <= j < |rules| :: Pass(ps, rules[j]) == ps
    ensures FoldPieces(ps, rules) == ps
    decreases |rules|
  {
    if rules != [] {
      assert Pass(ps, rules[0]) == ps;
      NoRuleActs(ps, rules[1..]);
    }
  }

  lemma PhrasePass(s: string, r: Rule, row: Row)
    requires Tabled(r, row) && ReadsAs(s, row.words)
    ensures Pass(Split(s), r) == Split(row.text)
  {
    ReadsAfter(s, r.words, r.plural, "");
    assert s + "" == s;
    assert Split(r.replacement) + [] == Split(r.replacement);
  }

  lemma TokensLeave(row: Row, tokens: seq<Rule>)
    requires Final(row) && Purging(tokens)
    ensures FoldPieces(Split(row.text), tokens) == Split(row.text)
  {
    var text := row.text;
    FoldIsMap(Split(text), tokens);
    forall k | 0 <= k < |tokens| ensures Key(tokens[k]) !in WordsOf(Split(text)) {}
    MapUntouched(Split(text), tokens);
  }

  /** For any such tables: a text that is the phrase of a row becomes the text of the row, if the rules before look for
      other words. */
  lemma BecomesWith(
    s: string, k: nat, row: Row, vocabulary: set<string>, phrases: seq<Rule>, tokens: seq<Rule>)
    requires k < |phrases| && Tabled(phrases[k], row) && ReadsAs(s, row.words) && Final(row)
    requires Purging(tokens) && forall r | r in phrases :: PhraseOk(r)
    requires Lists(row.words, vocabulary) && forall j | 0 <= j < k :: Foreign(phrases[j], vocabulary)
    ensures Rewrite(s, phrases, tokens) == row.text
  {
    ReadsWords(s, row.words, vocabulary);
    forall j | 0 <= j < k ensures Pass(Split(s), phrases[j]) == Split(s) {
      ForeignIsIdle(Split(s), phrases[j], vocabulary);
    }
    PhrasePass(s, phrases[k], row);
    forall j | k < j < |phrases| ensures Pass(Split(row.text), phrases[j]) == Split(row.text) {
      FinalIsIdle(row, phrases[j]);
    }
    OneRuleActs(Split(s), Split(row.text), phrases, k);
    FoldIsPieces(s, phrases);
    JoinSplit(row.text);
    FoldIsPieces(row.text, tokens);
    TokensLeave(row, tokens);
    FinalIsTidy(row);
  }

  // ----- the final texts

  lemma OneFinal(row: Row, w: string)
    requires row.text == w && Letters(w) && w !in FORBIDDEN && w !in RESIDUE
    ensures Final(row)
  {
    OneWord(w);
  }

  lemma TwoFinal(row: Row, a: string, c: char, b: string)
    requires row.text == a + [c] + b && Letters(a) && Letters(b) && (c == ' ' || c == '-')
    requires {a, b} !! FORBIDDEN && {a, b} !! RESIDUE
    ensures Final(row)
  {
    TwoWords(a, c, b);
    TwoSpaced(row.text, a, c, b);
  }

  lemma TwoSpaced(text: string, a: string, c: char, b: string)
    requires text == a + [c] + b && Letters(a) && Letters(b) && (c == ' ' || c == '-')
    ensures text != "" && !IsSpace(text[0]) && !IsSpace(text[|text| - 1])
    ensures forall i | 0 < i < |text| && IsSpace(text[i]) :: text[i] == ' ' && !IsSpace(text[i - 1])
  {}

  lemma ThreeFinal(row: Row, a: string, low: string, c: char, b: string, d: char, e: string)
    requires row.text == a + [c] + (b + [d] + e) && a != "" && AllAlnum(a) && Letters(b) && Letters(e)
    requires (c == ' ' || c == '-') && (d == ' ' || d == '-') && low == LowerText(a)
    requires {low, b, e} !! FORBIDDEN && {low, b, e} !! RESIDUE
    ensures Final(row)
  {
    ThreeFinalWords(row.text, a, c, b, d, e);
    ThreeSpaced(row.text, a, c, b, d, e);
  }

  lemma ThreeFinalWords(text: string, a: string, c: char, b: string, d: char, e: string)
    requires text == a + [c] + (b + [d] + e) && a != "" && AllAlnum(a) && Letters(b) && Letters(e)
    requires (c == ' ' || c == '-') && (d == ' ' || d == '-')
    ensures WordsOf(Split(text)) == [LowerText(a), b, e]
  {
    var tail := b + [d] + e;
    TwoWords(b, d, e);
    SplitThen(a, c, tail);
    WordGapWords(a, c, Split(tail));
  }

  lemma ThreeSpaced(text: string, a: string, c: char, b: string, d: char, e: string)
    requires text == a + [c] + (b + [d] + e) && a != "" && AllAlnum(a) && Letters(b) && Letters(e)
    requires (c == ' ' || c == '-') && (d == ' ' || d == '-')
    ensures text != "" && !IsSpace(text[0]) && !IsSpace(text[|text| - 1])
    ensures forall i | 0 < i < |text| && IsSpace(text[i]) :: text[i] == ' ' && !IsSpace(text[i - 1])
  {}

  lemma FinalA0()
    ensures Final(ROWS_A[0])
  {
    assert "call" + [' '] + "summary" == "call summary";
    TwoFinal(ROWS_A[0], "call", ' ', "summary");
  }

  lemma FinalA1()
    ensures Final(ROWS_A[1])
  {
    assert "customer" + [' '] + "priority" == "customer priority";
    TwoFinal(ROWS_A[1], "customer", ' ', "priority");
  }

  lemma FinalA2()
    ensures Final(ROWS_A[2])
  {
    assert "follow" + ['-'] + "up" == "follow-up";
    TwoFinal(ROWS_A[2], "follow", '-', "up");
  }

  lemma FinalA3()
    ensures Final(ROWS_A[3])
  {
    OneFinal(ROWS_A[3], "transferred");
  }

  lemma FinalA4()
    ensures Final(ROWS_A[4])
  {
    assert "customer" + [' '] + "request" == "customer request";
    TwoFinal(ROWS_A[4], "customer", ' ', "request");
  }

  lemma FinalA5()
    ensures Final(ROWS_A[5])
  {
    assert "create" + [' '] + ("follow" + ['-'] + "up") == "create follow-up";
    LettersLower("create");
    ThreeFinal(ROWS_A[5], "create", "create", ' ', "follow", '-', "up");
  }

  lemma FinalA(k: nat)
    requires k < 6
    ensures Final(ROWS_A[k])
  {
    if k == 0 { FinalA0(); }
    else if k == 1 { FinalA1(); }
    else if k == 2 { FinalA2(); }
    else if k == 3 { FinalA3(); }
    else if k == 4 { FinalA4(); }
    else { FinalA5(); }
  }

  lemma FinalB0()
    ensures Final(ROWS_B[0])
  {
    assert "matched" + [' '] + "routing" == "matched routing";
    TwoFinal(ROWS_B[0], "matched", ' ', "routing");
  }

  lemma FinalB1()
    ensures Final(ROWS_B[1])
  {
    assert "routing" + [' '] + "detail" == "routing detail";
    TwoFinal(ROWS_B[1], "routing", ' ', "detail");
  }

  lemma FinalB2()
    ensures Final(ROWS_B[2])
  {
    assert "call" + [' '] + "routing" == "call routing";
    TwoFinal(ROWS_B[2], "call", ' ', "routing");
  }

  lemma FinalB3()
    ensures Final(ROWS_B[3])
  {
    assert "follow" + ['-'] + "up" == "follow-up";
    TwoFinal(ROWS_B[3], "follow", '-', "up");
  }

  lemma FinalB4()
    ensures Final(ROWS_B[4])
  {
    assert "call" + [' '] + "routing" == "call routing";
    TwoFinal(ROWS_B[4], "call", ' ', "routing");
  }

  lemma FinalB5()
    ensures Final(ROWS_B[5])
  {
    assert "call" + [' '] + "routing" == "call routing";
    TwoFinal(ROWS_B[5], "call", ' ', "routing");
  }

  lemma FinalB6()
    ensures Final(ROWS_B[6])
  {
    assert "call" + [' '] + "routing" == "call routing";
    TwoFinal(ROWS_B[6], "call", ' ', "routing");
  }

  lemma FinalB(k: nat)
    requires k < 7
    ensures Final(ROWS_B[k])
  {
    if k == 0 { FinalB0(); }
    else if k == 1 { FinalB1(); }
    else if k == 2 { FinalB2(); }
    else if k == 3 { FinalB3(); }
    else if k == 4 { FinalB4(); }
    else if k == 5 { FinalB5(); }
    else { FinalB6(); }
  }

  lemma FinalC0()
    ensures Final(ROWS_C[0])
  {
    assert "customer" + [' '] + "request" == "customer request";
    TwoFinal(ROWS_C[0], "customer", ' ', "request");
  }

  lemma FinalC1()
    ensures Final(ROWS_C[1])
  {
    assert "customer" + [' '] + ("request" + [' '] + "focus") == "customer request focus";
    LettersLower("customer");
    ThreeFinal(ROWS_C[1], "customer", "customer", ' ', "request", ' ', "focus");
  }

  lemma FinalC2()
    ensures Final(ROWS_C[2])
  {
    assert "purchase" + [' '] + ("intent" + [' '] + "focus") == "purchase intent focus";
    LettersLower("purchase");
    ThreeFinal(ROWS_C[2], "purchase", "purchase", ' ', "intent", ' ', "focus");
  }

  lemma FinalC3()
    ensures Final(ROWS_C[3])
  {
    assert "Shopify" + [' '] + ("customer" + [' '] + "list") == "Shopify customer list";
    assert LowerText("Shopify") == "shopify";
    ThreeFinal(ROWS_C[3], "Shopify", "shopify", ' ', "customer", ' ', "list");
  }

  lemma FinalC4()
    ensures Final(ROWS_C[4])
  {
    assert "customer" + [' '] + "list" == "customer list";
    TwoFinal(ROWS_C[4], "customer", ' ', "list");
  }

  lemma FinalC(k: nat)
    requires k < 5
    ensures Final(ROWS_C[k])
  {
    if k == 0 { FinalC0(); }
    else if k == 1 { FinalC1(); }
    else if k == 2 { FinalC2(); }
    else if k == 3 { FinalC3(); }
    else { FinalC4(); }
  }

  lemma FinalD0()
    ensures Final(ROWS_D[0])
  {
    assert "call" + [' '] + "excerpt" == "call excerpt";
    TwoFinal(ROWS_D[0], "call", ' ', "excerpt");
  }

  lemma FinalD1()
    ensures Final(ROWS_D[1])
  {
    assert "call" + [' '] + "preview" == "call preview";
    TwoFinal(ROWS_D[1], "call", ' ', "preview");
  }

  lemma FinalD2()
    ensures Final(ROWS_D[2])
  {
    assert "call" + [' '] + "summary" == "call summary";
    TwoFinal(ROWS_D[2], "call", ' ', "summary");
  }

  lemma FinalD3()
    ensures Final(ROWS_D[3])
  {
    assert "call" + [' '] + "summary" == "call summary";
    TwoFinal(ROWS_D[3], "call", ' ', "summary");
  }

  lemma FinalD4()
    ensures Final(ROWS_D[4])
  {
    assert "call" + [' '] + "model" == "call model";
    TwoFinal(ROWS_D[4], "call", ' ', "model");
  }

  lemma FinalD(k: nat)
    requires k < 5
    ensures Final(ROWS_D[k])
  {
    if k == 0 { FinalD0(); }
    else if k == 1 { FinalD1(); }
    else if k == 2 { FinalD2(); }
    else if k == 3 { FinalD3(); }
    else { FinalD4(); }
  }

  lemma RowIsFinal(k: nat)
    requires k < 23
    ensures Final(ROWS[k])
  {
    PartsAligned(k);
    if k < 6 { FinalA(k); } else if k < 13 { FinalB(k - 6); }
    else if k < 18 { FinalC(k - 13); } else { FinalD(k - 18); }
  }

  // ----- the words of the rows

  function Vocabulary(k: nat): set<string> {
    if k == 0 then {"call", "analysis"}
    else if k == 1 then {"segment", "priority"}
    else if k == 2 then {"stale", "follow", "up"}
    else if k == 3 then {"admin", "transfer"}
    else if k == 4 then {"service", "request", "requests"}
    else if k == 5 then {"create", "task"}
    else if k == 6 then {"matched", "rule", "rules"}
    else if k == 7 then {"rule", "trace"}
    else if k == 8 then {"ai", "workflow", "rule", "rules"}
    else if k == 9 then {"ai", "workflow"}
    else if k == 10 then {"workflow", "rule", "rules"}
    else if k == 11 then {"workflow", "rule"}
    else if k == 12 then {"rule", "engine"}
    else if k == 13 then {"support", "case", "cases"}
    else if k == 14 then {"support", "axis"}
    else if k == 15 then {"sales", "axis"}
    else if k == 16 then {"shopify", "segment", "segments"}
    else if k == 17 then {"customer", "segment", "segments"}
    else if k == 18 then {"transcript", "snippet", "snippets"}
    else if k == 19 then {"transcript", "preview", "previews"}
    else if k == 20 then {"transcript", "resolver"}
    else if k == 21 then {"ai", "resolver"}
    else {"ai", "model"}
  }

  lemma ListedA(k: nat)
    requires k < 6
    ensures Lists(ROWS_A[k].words, Vocabulary(k))
  {}

  lemma ListedB(k: nat)
    requires k < 7
    ensures Lists(ROWS_B[k].words, Vocabulary(k + 6))
  {}

  lemma ListedC(k: nat)
    requires k < 5
    ensures Lists(ROWS_C[k].words, Vocabulary(k + 13))
  {}

  lemma ListedD(k: nat)
    requires k < 5
    ensures Lists(ROWS_D[k].words, Vocabulary(k + 18))
  {}

  lemma RowIsListed(k: nat)
    requires k < 23
    ensures Lists(ROWS[k].words, Vocabulary(k))
  {
    PartsAligned(k);
    if k < 6 { ListedA(k); } else if k < 13 { ListedB(k - 6); }
    else if k < 18 { ListedC(k - 13); } else { ListedD(k - 18); }
  }

  lemma ForeignBy(r: Rule, i: nat, w: string, vocabulary: set<string>)
    requires i < |r.words| && r.words[i] == w && Letters(w) && w !in vocabulary
    requires r.plural && i == |r.words| - 1 ==> w + "s" !in vocabulary
    ensures Foreign(r, vocabulary)
  {
    LettersLower(w);
    LettersLower(w + "s");
    assert Needs(r, i, {w} + (if r.plural && i == |r.words| - 1 then {w + "s"} else {}));
  }

  lemma ForeignA0(k: nat)
    requires 0 < k < 23
    ensures Foreign(PHRASES_A[0], Vocabulary(k))
  {
    ForeignBy(PHRASES_A[0], 1, "analysis", Vocabulary(k));
  }

  lemma ForeignA1(k: nat)
    requires 1 < k < 23
    ensures Foreign(PHRASES_A[1], Vocabulary(k))
  {
    ForeignBy(PHRASES_A[1], 1, "priority", Vocabulary(k));
  }

  lemma ForeignA2(k: nat)
    requires 2 < k < 23
    ensures Foreign(PHRASES_A[2], Vocabulary(k))
  {
    ForeignBy(PHRASES_A[2], 0, "stale", Vocabulary(k));
  }

  lemma ForeignA3(k: nat)
    requires 3 < k < 23
    ensures Foreign(PHRASES_A[3], Vocabulary(k))
  {
    ForeignBy(PHRASES_A[3], 0, "admin", Vocabulary(k));
  }

  lemma ForeignA4(k: nat)
    requires 4 < k < 23
    ensures Foreign(PHRASES_A[4], Vocabulary(k))
  {
    ForeignBy(PHRASES_A[4], 0, "service", Vocabulary(k));
  }

  lemma ForeignA5(k: nat)
    requires 5 < k < 23
    ensures Foreign(PHRASES_A[5], Vocabulary(k))
  {
    ForeignBy(PHRASES_A[5], 1, "task", Vocabulary(k));
  }

  lemma ForeignB0(k: nat)
    requires 6 < k < 23
    ensures Foreign(PHRASES_B[0], Vocabulary(k))
  {
    ForeignBy(PHRASES_B[0], 0, "matched", Vocabulary(k));
  }

  lemma ForeignB1(k: nat)
    requires 7 < k < 23
    ensures Foreign(PHRASES_B[1], Vocabulary(k))
  {
    ForeignBy(PHRASES_B[1], 1, "trace", Vocabulary(k));
  }

  lemma ForeignB2(k: nat)
    requires 8 < k < 23
    ensures Foreign(PHRASES_B[2], Vocabulary(k))
  {
    if k == 9 || k == 21 || k == 22 {
      assert "rule" + "s" == "rules";
      ForeignBy(PHRASES_B[2], 2, "rule", Vocabulary(k));
    } else {
      ForeignBy(PHRASES_B[2], 0, "ai", Vocabulary(k));
    }
  }

  lemma ForeignB3(k: nat)
    requires 9 < k < 23
    ensures Foreign(PHRASES_B[3], Vocabulary(k))
  {
    if k == 21 || k == 22 {
      ForeignBy(PHRASES_B[3], 1, "workflow", Vocabulary(k));
    } else {
      ForeignBy(PHRASES_B[3], 0, "ai", Vocabulary(k));
    }
  }

  lemma ForeignB4(k: nat)
    requires 10 < k < 23 && k != 11
    ensures Foreign(PHRASES_B[4], Vocabulary(k))
  {
    ForeignBy(PHRASES_B[4], 0, "workflow", Vocabulary(k));
  }

  lemma ForeignB5(k: nat)
    requires 11 < k < 23
    ensures Foreign(PHRASES_B[5], Vocabulary(k))
  {
    ForeignBy(PHRASES_B[5], 0, "workflow", Vocabulary(k));
  }

  lemma ForeignB6(k: nat)
    requires 12 < k < 23
    ensures Foreign(PHRASES_B[6], Vocabulary(k))
  {
    ForeignBy(PHRASES_B[6], 1, "engine", Vocabulary(k));
  }

  lemma ForeignC0(k: nat)
    requires 13 < k < 23
    ensures Foreign(PHRASES_C[0], Vocabulary(k))
  {
    assert "case" + "s" == "cases";
    ForeignBy(PHRASES_C[0], 1, "case", Vocabulary(k));
  }

  lemma ForeignC1(k: nat)
    requires 14 < k < 23
    ensures Foreign(PHRASES_C[1], Vocabulary(k))
  {
    ForeignBy(PHRASES_C[1], 0, "support", Vocabulary(k));
  }

  lemma ForeignC2(k: nat)
    requires 15 < k < 23
    ensures Foreign(PHRASES_C[2], Vocabulary(k))
  {
    ForeignBy(PHRASES_C[2], 0, "sales", Vocabulary(k));
  }

  lemma ForeignC3(k: nat)
    requires 16 < k < 23
    ensures Foreign(PHRASES_C[3], Vocabulary(k))
  {
    ForeignBy(PHRASES_C[3], 0, "shopify", Vocabulary(k));
  }

  lemma ForeignC4(k: nat)
    requires 17 < k < 23
    ensures Foreign(PHRASES_C[4], Vocabulary(k))
  {
    ForeignBy(PHRASES_C[4], 0, "customer", Vocabulary(k));
  }

  lemma ForeignD0(k: nat)
    requires 18 < k < 23
    ensures Foreign(PHRASES_D[0], Vocabulary(k))
  {
    assert "snippet" + "s" == "snippets";
    ForeignBy(PHRASES_D[0], 1, "snippet", Vocabulary(k));
  }

  lemma ForeignD1(k: nat)
    requires 19 < k < 23
    ensures Foreign(PHRASES_D[1], Vocabulary(k))
  {
    assert "preview" + "s" == "previews";
    ForeignBy(PHRASES_D[1], 1, "preview", Vocabulary(k));
  }

  lemma ForeignD2(k: nat)
    requires 20 < k < 23
    ensures Foreign(PHRASES_D[2], Vocabulary(k))
  {
    ForeignBy(PHRASES_D[2], 0, "transcript", Vocabulary(k));
  }

  lemma ForeignD3(k: nat)
    requires 21 < k < 23
    ensures Foreign(PHRASES_D[3], Vocabulary(k))
  {
    ForeignBy(PHRASES_D[3], 1, "resolver", Vocabulary(k));
  }

  lemma ForeignA(j: nat, k: nat)
    requires j < 6 && j < k < 23 && k != 11
    ensures Foreign(PHRASES_A[j], Vocabulary(k))
  {
    if j == 0 { ForeignA0(k); }
    else if j == 1 { ForeignA1(k); }
    else if j == 2 { ForeignA2(k); }
    else if j == 3 { ForeignA3(k); }
    else if j == 4 { ForeignA4(k); }
    else { ForeignA5(k); }
  }

  lemma ForeignB(j: nat, k: nat)
    requires j < 7 && j + 6 < k < 23 && k != 11
    ensures Foreign(PHRASES_B[j], Vocabulary(k))
  {
    if j == 0 { ForeignB0(k); }
    else if j == 1 { ForeignB1(k); }
    else if j == 2 { ForeignB2(k); }
    else if j == 3 { ForeignB3(k); }
    else if j == 4 { ForeignB4(k); }
    else if j == 5 { ForeignB5(k); }
    else { ForeignB6(k); }
  }

  lemma ForeignC(j: nat, k: nat)
    requires j < 5 && j + 13 < k < 23 && k != 11
    ensures Foreign(PHRASES_C[j], Vocabulary(k))
  {
    if j == 0 { ForeignC0(k); }
    else if j == 1 { ForeignC1(k); }
    else if j == 2 { ForeignC2(k); }
    else if j == 3 { ForeignC3(k); }
    else { ForeignC4(k); }
  }

  lemma ForeignD(j: nat, k: nat)
    requires j < 4 && j + 18 < k < 23 && k != 11
    ensures Foreign(PHRASES_D[j], Vocabulary(k))
  {
    if j == 0 { ForeignD0(k); }
    else if j == 1 { ForeignD1(k); }
    else if j == 2 { ForeignD2(k); }
    else { ForeignD3(k); }
  }

  lemma EarlierIsForeign(j: nat, k: nat)
    requires j < k < 23 && k != 11
    ensures Foreign(PHRASES[j], Vocabulary(k))
  {
    PartsAligned(j);
    if j < 6 { ForeignA(j, k); } else if j < 13 { ForeignB(j - 6, k); }
    else if j < 18 { ForeignC(j - 13, k); } else { ForeignD(j - 18, k); }
  }

  /** The singular of line 18 is a case of line 17. */
  lemma SingularIsPlural(s: string)
    requires ReadsAs(s, ROWS_B[5].words)
    ensures ReadsAs(s, ROWS_B[4].words) && ROWS_B[4].text == ROWS_B[5].text
  {
    var one, two := ROWS_B[5].words, ROWS_B[4].words;
    var a, g, rest :| s == a + g + rest && SpellsOne(a, one[0]) && Separators(g) && ReadsAs(rest, one[1..]);
    assert one[1..] == [["rule"]] && two[1..] == [["rule", "rules"]];
    assert Spells(rest, ["rule", "rules"][0]);
    assert ReadsAs(rest, two[1..]);
  }

  lemma BecomesItsText(s: string, k: nat)
    requires k < 23 && k != 11 && ReadsAs(s, ROWS[k].words)
    ensures Safe(s) == ROWS[k].text
  {
    PhrasesTabled(k);
    RowIsFinal(k);
    RowIsListed(k);
    forall j | 0 <= j < k ensures Foreign(PHRASES[j], Vocabulary(k)) { EarlierIsForeign(j, k); }
    TablesOk();
    BecomesWith(s, k, ROWS[k], Vocabulary(k), PHRASES, TOKENS);
  }

  /** A text that is one of the phrases, in any letter case and with any separators, becomes the final text of it. */
  lemma {:induction false} PhraseBecomes(s: string, k: nat)
    requires k < |ROWS| && ReadsAs(s, ROWS[k].words)
    ensures Safe(s) == ROWS[k].text
  {
    if k == 11 {
      PartsAligned(11);
      PartsAligned(10);
      SingularIsPlural(s);
      BecomesItsText(s, 10);
    } else {
      BecomesItsText(s, k);
    }
  }
}
