/**
 Applying the rewriter again: it is not idempotent, but it settles; and a pass that can never fire.
 */
module StaffConvergence {
  import opened Text
  import opened Words
  import opened Delimited
  import opened StaffText
  import opened StaffChains
  import opened StaffTokens

  // ----- what a phrase consumes

  lemma {:induction false} SkipSeparatorsWords(ps: seq<Piece>)
    ensures WordsOf(SkipSeparators(ps)) == WordsOf(ps)
  {
    if ps != [] && ps[0].Gap? && SkipSeparators(ps) != ps { SkipSeparatorsWords(ps[1..]); }
  }

  /** The `k`-th word an occurrence of the phrase is made of. */
  predicate WordFits(words: seq<string>, plural: bool, k: nat, w: string)
    requires k < |words|
  {
    || w == LowerText(words[k])
    || (plural && k == |words| - 1 && w == LowerText(words[k] + "s"))
  }

  lemma WordFitsCons(words: seq<string>, plural: bool, u: string, more: seq<string>)
    requires |words| > 1 && u == LowerText(words[0]) && |more| == |words| - 1
    requires forall k | 0 <= k < |more| :: WordFits(words[1..], plural, k, more[k])
    ensures forall k | 0 <= k < |words| :: WordFits(words, plural, k, ([u] + more)[k])
  {
    forall k | 0 <= k < |words| ensures WordFits(words, plural, k, ([u] + more)[k]) {
      if k > 0 { assert WordFits(words[1..], plural, k - 1, more[k - 1]); }
    }
  }

  lemma {:induction false} PhraseConsumes(ps: seq<Piece>, words: seq<string>, plural: bool) returns (taken: seq<string>)
    requires words != [] && AfterPhrase(ps, words, plural).Some?
    ensures |taken| == |words| && WordsOf(ps) == taken + WordsOf(AfterPhrase(ps, words, plural).value)
    ensures forall k | 0 <= k < |words| :: WordFits(words, plural, k, taken[k])
    decreases |words|
  {
    var u := LowerText(ps[0].text);
    if |words| == 1 {
      taken := [u];
    } else {
      var next := SkipSeparators(ps[1..]);
      SkipSeparatorsWords(ps[1..]);
      var more := PhraseConsumes(next, words[1..], plural);
      var after := WordsOf(AfterPhrase(ps, words, plural).value);
      taken := [u] + more;
      assert [u] + (more + after) == taken + after;
      WordFitsCons(words, plural, u, more);
    }
  }

  /** Some word of the phrase, in each of its forms, is in the set. */
  predicate Needs(r: Rule, k: nat, words: set<string>) {
    && k < |r.words| && LowerText(r.words[k]) in words
    && (r.plural && k == |r.words| - 1 ==> LowerText(r.words[k] + "s") in words)
  }

  ghost predicate Avoids(ps: seq<Piece>, words: set<string>) {
    forall k | 0 <= k < |WordsOf(ps)| :: WordsOf(ps)[k] !in words
  }

  lemma AvoidsTail(ps: seq<Piece>, words: set<string>)
    requires Avoids(ps, words) && ps != []
    ensures Avoids(ps[1..], words)
  {
    WordsConcat([ps[0]], ps[1..]);
    assert [ps[0]] + ps[1..] == ps;
    var n := |WordsOf([ps[0]])|;
    assert forall k | 0 <= k < |WordsOf(ps[1..])| :: WordsOf(ps[1..])[k] == WordsOf(ps)[n + k];
  }

  lemma OccurrenceNeeds(ps: seq<Piece>, r: Rule, k: nat, words: set<string>)
    requires Needs(r, k, words) && AfterPhrase(ps, r.words, r.plural).Some?
    ensures !Avoids(ps, words)
  {
    var taken := PhraseConsumes(ps, r.words, r.plural);
    assert WordFits(r.words, r.plural, k, taken[k]);
    assert taken[k] == WordsOf(ps)[k];
  }

  /** A phrase that needs a word the text lacks changes nothing. */
  lemma {:induction false} PassIdle(ps: seq<Piece>, r: Rule, k: nat, words: set<string>)
    requires Needs(r, k, words) && Avoids(ps, words)
    ensures Pass(ps, r) == ps && !HasPhrase(ps, r)
  {
    if AfterPhrase(ps, r.words, r.plural).Some? {
      OccurrenceNeeds(ps, r, k, words);
    } else if ps != [] {
      AvoidsTail(ps, words);
      PassIdle(ps[1..], r, k, words);
      HasPhraseTail(ps, r);
    }
  }

  /** Without an occurrence a pass changes nothing. */
  lemma {:induction false} PassWithoutPhrase(ps: seq<Piece>, r: Rule)
    requires !HasPhrase(ps, r)
    ensures Pass(ps, r) == ps
  {
    if ps != [] {
      assert ps[0..] == ps;
      HasPhraseTail(ps, r);
      PassWithoutPhrase(ps[1..], r);
    }
  }

  // ----- the words a second application can still consume

  const RESIDUE: set<string> := {"analysis", "stale", "admin", "service", "task"}

  function CountIn(ws: seq<string>, words: set<string>): nat {
    if ws == [] then 0 else (if ws[0] in words then 1 else 0) + CountIn(ws[1..], words)
  }

  lemma {:induction false} CountInConcat(a: seq<string>, b: seq<string>, words: set<string>)
    ensures CountIn(a + b, words) == CountIn(a, words) + CountIn(b, words)
  {
    if a == [] {
      assert a + b == b;
    } else {
      assert (a + b)[1..] == a[1..] + b;
      CountInConcat(a[1..], b, words);
    }
  }

  lemma {:induction false} CountInPositive(ws: seq<string>, k: nat, words: set<string>)
    requires k < |ws| && ws[k] in words
    ensures CountIn(ws, words) > 0
  {
    if k > 0 { CountInPositive(ws[1..], k - 1, words); }
  }

  lemma {:induction false} CountInNone(ws: seq<string>, words: set<string>)
    requires forall k | 0 <= k < |ws| :: ws[k] !in words
    ensures CountIn(ws, words) == 0
  {
    if ws != [] { CountInNone(ws[1..], words); }
  }

  function Residue(ps: seq<Piece>): nat { CountIn(WordsOf(ps), RESIDUE) }

  /** The replacement brings in neither a forbidden word nor one the phrases still consume. */
  ghost predicate Clean(r: Rule) {
    Avoids(Split(r.replacement), RESIDUE) && Avoids(Split(r.replacement), FORBIDDEN)
  }

  /** A phrase that, on text without forbidden words, either cannot occur or uses up a residue word. */
  ghost predicate Blocked(r: Rule) { exists k: nat :: Needs(r, k, FORBIDDEN) }

  ghost predicate Reducing(r: Rule) { Clean(r) && exists k: nat :: Needs(r, k, RESIDUE) }

  lemma {:induction false} PassAvoids(ps: seq<Piece>, r: Rule, words: set<string>)
    requires Avoids(ps, words) && Avoids(Split(r.replacement), words)
    ensures Avoids(Pass(ps, r), words)
    decreases |ps|
  {
    if ps != [] {
      if AfterPhrase(ps, r.words, r.plural).Some? {
        var rest := AfterPhrase(ps, r.words, r.plural).value;
        var taken := PhraseConsumes(ps, r.words, r.plural);
        assert forall k | 0 <= k < |WordsOf(rest)| :: WordsOf(rest)[k] == WordsOf(ps)[|taken| + k];
        PassAvoids(rest, r, words);
        WordsConcat(Split(r.replacement), Pass(rest, r));
      } else {
        AvoidsTail(ps, words);
        PassAvoids(ps[1..], r, words);
        WordsConcat([ps[0]], Pass(ps[1..], r));
        WordsConcat([ps[0]], ps[1..]);
        assert [ps[0]] + ps[1..] == ps;
        assert forall k | 0 <= k < |WordsOf([ps[0]])| :: WordsOf([ps[0]])[k] == WordsOf(ps)[k];
      }
    }
  }

  /** Without an occurrence a pass changes nothing; with one it uses up residue words. */
  lemma {:induction false} PassReduces(ps: seq<Piece>, r: Rule)
    requires Reducing(r)
    ensures !HasPhrase(ps, r) ==> Pass(ps, r) == ps
    ensures HasPhrase(ps, r) ==> Residue(Pass(ps, r)) < Residue(ps)
    ensures Residue(Pass(ps, r)) <= Residue(ps)
    decreases |ps|
  {
    if ps == [] {
      assert !HasPhrase(ps, r);
    } else if AfterPhrase(ps, r.words, r.plural).Some? {
      assert ps[0..] == ps;
      PassReducesHit(ps, r);
      PassReduces(AfterPhrase(ps, r.words, r.plural).value, r);
    } else {
      PassReduces(ps[1..], r);
      HasPhraseTail(ps, r);
      ResidueCons(ps[0], ps[1..]);
      ResidueCons(ps[0], Pass(ps[1..], r));
      assert [ps[0]] + ps[1..] == ps;
    }
  }

  lemma ResidueCons(p: Piece, ps: seq<Piece>)
    ensures Residue([p] + ps) == Residue([p]) + Residue(ps)
  {
    WordsConcat([p], ps);
    CountInConcat(WordsOf([p]), WordsOf(ps), RESIDUE);
  }

  /** A replacement without residue words adds none. */
  lemma {:induction false} PassAddsNoResidue(ps: seq<Piece>, r: Rule)
    requires Avoids(Split(r.replacement), RESIDUE)
    ensures Residue(Pass(ps, r)) <= Residue(ps)
    decreases |ps|
  {
    if ps != [] {
      if AfterPhrase(ps, r.words, r.plural).Some? {
        var rest := AfterPhrase(ps, r.words, r.plural).value;
        var taken := PhraseConsumes(ps, r.words, r.plural);
        PassAddsNoResidue(rest, r);
        CountInConcat(taken, WordsOf(rest), RESIDUE);
        WordsConcat(Split(r.replacement), Pass(rest, r));
        CountInNone(WordsOf(Split(r.replacement)), RESIDUE);
        CountInConcat(WordsOf(Split(r.replacement)), WordsOf(Pass(rest, r)), RESIDUE);
      } else {
        PassAddsNoResidue(ps[1..], r);
        ResidueCons(ps[0], ps[1..]);
        ResidueCons(ps[0], Pass(ps[1..], r));
        assert [ps[0]] + ps[1..] == ps;
      }
    }
  }

  lemma {:induction false} FoldAddsNoResidue(ps: seq<Piece>, rules: seq<Rule>)
    requires forall r | r in rules :: Avoids(Split(r.replacement), RESIDUE)
    ensures Residue(FoldPieces(ps, rules)) <= Residue(ps)
    decreases |rules|
  {
    if rules != [] {
      PassAddsNoResidue(ps, rules[0]);
      FoldAddsNoResidue(Pass(ps, rules[0]), rules[1..]);
    }
  }

  lemma PassReducesHit(ps: seq<Piece>, r: Rule)
    requires Reducing(r) && ps != [] && AfterPhrase(ps, r.words, r.plural).Some?
    ensures var rest := AfterPhrase(ps, r.words, r.plural).value;
            Residue(ps) > Residue(rest) && Residue(Pass(ps, r)) == Residue(Pass(rest, r))
  {
    var rest := AfterPhrase(ps, r.words, r.plural).value;
    var taken := PhraseConsumes(ps, r.words, r.plural);
    var k: nat :| Needs(r, k, RESIDUE);
    assert WordFits(r.words, r.plural, k, taken[k]);
    CountInPositive(taken, k, RESIDUE);
    CountInConcat(taken, WordsOf(rest), RESIDUE);
    WordsConcat(Split(r.replacement), Pass(rest, r));
    CountInNone(WordsOf(Split(r.replacement)), RESIDUE);
    CountInConcat(WordsOf(Split(r.replacement)), WordsOf(Pass(rest, r)), RESIDUE);
  }

  // ----- the phrase passes on text without forbidden words

  ghost predicate Settled(ps: seq<Piece>, rules: seq<Rule>) {
    forall k | 0 <= k < |rules| :: !HasPhrase(ps, rules[k])
  }

  lemma BlockedHasNoPhrase(ps: seq<Piece>, r: Rule)
    requires Blocked(r) && NoForbidden(ps)
    ensures !HasPhrase(ps, r) && Pass(ps, r) == ps
  {
    var k: nat :| Needs(r, k, FORBIDDEN);
    PassIdle(ps, r, k, FORBIDDEN);
  }

  lemma PhraseReduces(ps: seq<Piece>, r: Rule)
    requires NoForbidden(ps) && PhraseOk(r)
    ensures NoForbidden(Pass(ps, r)) && Residue(Pass(ps, r)) <= Residue(ps)
    ensures if HasPhrase(ps, r) then Residue(Pass(ps, r)) < Residue(ps) else Pass(ps, r) == ps
  {
    if Blocked(r) {
      BlockedHasNoPhrase(ps, r);
    } else {
      PassReduces(ps, r);
      PassAvoids(ps, r, FORBIDDEN);
    }
  }

  lemma SettledTail(ps: seq<Piece>, rules: seq<Rule>)
    requires rules != []
    ensures Settled(ps, rules) <==> !HasPhrase(ps, rules[0]) && Settled(ps, rules[1..])
  {
    assert forall k | 0 < k < |rules| :: rules[k] == rules[1..][k - 1];
  }

  lemma {:induction false} PhrasesReduce(ps: seq<Piece>, rules: seq<Rule>)
    requires NoForbidden(ps) && forall r | r in rules :: PhraseOk(r)
    ensures NoForbidden(FoldPieces(ps, rules))
    ensures Residue(FoldPieces(ps, rules)) <= Residue(ps)
    ensures Settled(ps, rules) ==> FoldPieces(ps, rules) == ps
    ensures !Settled(ps, rules) ==> Residue(FoldPieces(ps, rules)) < Residue(ps)
    decreases |rules|
  {
    if rules != [] {
      assert PhraseOk(rules[0]);
      PhraseReduces(ps, rules[0]);
      PhrasesReduce(Pass(ps, rules[0]), rules[1..]);
      SettledTail(ps, rules);
    }
  }

  // ----- the table

  lemma Needs0(r: Rule, words: set<string>)
    requires LowerText(r.words[0]) in words && |r.words| > 1
    ensures exists k: nat :: Needs(r, k, words)
  {
    assert Needs(r, 0, words);
  }

  lemma NeedsLast(r: Rule, words: set<string>)
    requires |r.words| > 0 && LowerText(r.words[|r.words| - 1]) in words
    requires r.plural ==> LowerText(r.words[|r.words| - 1] + "s") in words
    ensures exists k: nat :: Needs(r, k, words)
  {
    assert Needs(r, |r.words| - 1, words);
  }

  lemma TokenLower()
    ensures LowerText("ai") == "ai" && LowerText("workflow") == "workflow" && LowerText("rule") == "rule"
    ensures LowerText("rules") == "rules" && LowerText("support") == "support" && LowerText("sales") == "sales"
    ensures LowerText("segment") == "segment" && LowerText("segments") == "segments"
    ensures LowerText("transcript") == "transcript"
  {
    LettersLower("ai"); LettersLower("workflow"); LettersLower("rule"); LettersLower("rules"); LettersLower("support");
    LettersLower("sales"); LettersLower("segment"); LettersLower("segments"); LettersLower("transcript");
  }

  lemma BlockedA()
    ensures Blocked(PHRASES_A[1])
  {
    TokenLower();
    Needs0(PHRASES_A[1], FORBIDDEN);
  }

  lemma BlockedB()
    ensures forall k | 0 <= k < 7 :: Blocked(PHRASES_B[k])
  {
    TokenLower();
    assert "rule" + "s" == "rules";
    NeedsLast(PHRASES_B[0], FORBIDDEN);
    Needs0(PHRASES_B[1], FORBIDDEN);
    Needs0(PHRASES_B[2], FORBIDDEN);
    Needs0(PHRASES_B[3], FORBIDDEN);
    Needs0(PHRASES_B[4], FORBIDDEN);
    Needs0(PHRASES_B[5], FORBIDDEN);
    Needs0(PHRASES_B[6], FORBIDDEN);
  }

  lemma BlockedC()
    ensures forall k | 0 <= k < 5 :: Blocked(PHRASES_C[k])
  {
    TokenLower();
    assert "segment" + "s" == "segments";
    Needs0(PHRASES_C[0], FORBIDDEN);
    Needs0(PHRASES_C[1], FORBIDDEN);
    Needs0(PHRASES_C[2], FORBIDDEN);
    NeedsLast(PHRASES_C[3], FORBIDDEN);
    NeedsLast(PHRASES_C[4], FORBIDDEN);
  }

  lemma BlockedD()
    ensures forall k | 0 <= k < 5 :: Blocked(PHRASES_D[k])
  {
    TokenLower();
    Needs0(PHRASES_D[0], FORBIDDEN);
    Needs0(PHRASES_D[1], FORBIDDEN);
    Needs0(PHRASES_D[2], FORBIDDEN);
    Needs0(PHRASES_D[3], FORBIDDEN);
    Needs0(PHRASES_D[4], FORBIDDEN);
  }

  lemma CleanOne(r: Rule, w: string)
    requires r.replacement == w && Letters(w) && w !in FORBIDDEN && w !in RESIDUE
    ensures Clean(r)
  {
    OneWord(w);
  }

  lemma CleanTwo(r: Rule, a: string, c: char, b: string)
    requires r.replacement == a + [c] + b && Letters(a) && !IsAlnum(c) && Letters(b)
    requires a !in FORBIDDEN && a !in RESIDUE && b !in FORBIDDEN && b !in RESIDUE
    ensures Clean(r)
  {
    TwoWords(a, c, b);
  }

  lemma ThreeWords(a: string, c: char, b: string, d: char, e: string)
    requires Letters(a) && !IsAlnum(c) && Letters(b) && !IsAlnum(d) && Letters(e)
    ensures WordsOf(Split(a + [c] + (b + [d] + e))) == [a, b, e]
  {
    TwoWords(b, d, e);
    WordThen(a, c, b + [d] + e);
  }

  lemma CleanThree(r: Rule, a: string, c: char, b: string, d: char, e: string)
    requires r.replacement == a + [c] + (b + [d] + e)
    requires Letters(a) && !IsAlnum(c) && Letters(b) && !IsAlnum(d) && Letters(e)
    requires forall w | w in {a, b, e} :: w !in FORBIDDEN && w !in RESIDUE
    ensures Clean(r)
  {
    ThreeWords(a, c, b, d, e);
  }

  lemma CallAnalysisReduces()
    ensures Reducing(PHRASES_A[0])
  {
    LettersLower("analysis");
    assert "call" + [' '] + "summary" == "call summary";
    CleanTwo(PHRASES_A[0], "call", ' ', "summary");
    NeedsLast(PHRASES_A[0], RESIDUE);
  }

  lemma StaleFollowUpReduces()
    ensures Reducing(PHRASES_A[2])
  {
    LettersLower("stale");
    assert "follow" + ['-'] + "up" == "follow-up";
    CleanTwo(PHRASES_A[2], "follow", '-', "up");
    Needs0(PHRASES_A[2], RESIDUE);
  }

  lemma AdminTransferReduces()
    ensures Reducing(PHRASES_A[3])
  {
    LettersLower("admin");
    CleanOne(PHRASES_A[3], "transferred");
    Needs0(PHRASES_A[3], RESIDUE);
  }

  lemma ServiceRequestReduces()
    ensures Reducing(PHRASES_A[4])
  {
    LettersLower("service");
    assert "customer" + [' '] + "request" == "customer request";
    CleanTwo(PHRASES_A[4], "customer", ' ', "request");
    Needs0(PHRASES_A[4], RESIDUE);
  }

  lemma CreateFollowUpClean(r: Rule)
    requires r.replacement == "create follow-up"
    ensures Clean(r)
  {
    assert "follow" + ['-'] + "up" == "follow-up";
    assert "create" + [' '] + "follow-up" == "create follow-up";
    CleanThree(r, "create", ' ', "follow", '-', "up");
  }

  lemma CreateTaskReduces()
    ensures Reducing(PHRASES_A[5])
  {
    LettersLower("task");
    CreateFollowUpClean(PHRASES_A[5]);
    NeedsLast(PHRASES_A[5], RESIDUE);
  }

  ghost predicate PhraseOk(r: Rule) { Blocked(r) || Reducing(r) }

  lemma PhrasesAOk(k: nat)
    requires k < |PHRASES_A|
    ensures PhraseOk(PHRASES_A[k])
  {
    if k == 0 { CallAnalysisReduces(); }
    else if k == 1 { BlockedA(); }
    else if k == 2 { StaleFollowUpReduces(); }
    else if k == 3 { AdminTransferReduces(); }
    else if k == 4 { ServiceRequestReduces(); }
    else { CreateTaskReduces(); }
  }

  lemma PhrasesOk()
    ensures forall r | r in PHRASES :: PhraseOk(r)
  {
    BlockedB(); BlockedC(); BlockedD();
    forall r | r in PHRASES ensures PhraseOk(r) {
      InParts(r);
      if k :| 0 <= k < |PHRASES_A| && PHRASES_A[k] == r { PhrasesAOk(k); }
    }
  }

  lemma InParts(r: Rule)
    requires r in PHRASES
    ensures || (exists k :: 0 <= k < |PHRASES_A| && PHRASES_A[k] == r)
            || (exists k :: 0 <= k < 7 && PHRASES_B[k] == r)
            || (exists k :: 0 <= k < 5 && PHRASES_C[k] == r)
            || (exists k :: 0 <= k < 5 && PHRASES_D[k] == r)
  {}

  // ----- tidy text stays as it is

  /** No white space but single spaces. */
  ghost predicate Collapsed(ps: seq<Piece>) {
    ps == [] ||
    ((IsBlank(ps[0]) ==> ps[0].c == ' ' && (ps[1..] != [] ==> !IsBlank(ps[1]))) && Collapsed(ps[1..]))
  }

  ghost predicate IsTidy(ps: seq<Piece>) {
    Collapsed(ps) && (ps != [] ==> !IsBlank(ps[0]) && !IsBlank(ps[|ps| - 1]))
  }

  lemma {:induction false} CollapseCollapses(ps: seq<Piece>, inRun: bool)
    ensures Collapsed(CollapsePieces(ps, inRun))
    ensures inRun && CollapsePieces(ps, inRun) != [] ==> !IsBlank(CollapsePieces(ps, inRun)[0])
  {
    if ps != [] {
      var blank := IsBlank(ps[0]);
      var tail := CollapsePieces(ps[1..], blank);
      CollapseCollapses(ps[1..], blank);
      if blank && inRun {
        assert CollapsePieces(ps, inRun) == tail;
      } else {
        assert CollapsePieces(ps, inRun)[1..] == tail;
      }
    }
  }

  lemma {:induction false} CollapseIdle(ps: seq<Piece>, inRun: bool)
    requires Collapsed(ps) && (inRun && ps != [] ==> !IsBlank(ps[0]))
    ensures CollapsePieces(ps, inRun) == ps
  {
    if ps != [] { CollapseIdle(ps[1..], IsBlank(ps[0])); }
  }

  lemma {:induction false} CollapsedPrefix(ps: seq<Piece>, n: nat)
    requires Collapsed(ps) && n <= |ps|
    ensures Collapsed(ps[..n])
  {
    if n > 0 {
      assert ps[..n][1..] == ps[1..][..n - 1];
      CollapsedPrefix(ps[1..], n - 1);
    }
  }

  lemma {:induction false} TrimFrontTidies(ps: seq<Piece>)
    requires Collapsed(ps)
    ensures Collapsed(TrimFront(ps)) && (TrimFront(ps) != [] ==> !IsBlank(TrimFront(ps)[0]))
  {
    if ps != [] && IsBlank(ps[0]) { TrimFrontTidies(ps[1..]); }
  }

  lemma {:induction false} TrimBackTidies(ps: seq<Piece>)
    requires Collapsed(ps) && (ps != [] ==> !IsBlank(ps[0]))
    ensures IsTidy(TrimBack(ps))
    decreases |ps|
  {
    if ps != [] && IsBlank(ps[|ps| - 1]) {
      CollapsedPrefix(ps, |ps| - 1);
      TrimBackTidies(ps[..|ps| - 1]);
    }
  }

  lemma TidyTidies(ps: seq<Piece>)
    ensures IsTidy(Tidy(ps))
    ensures IsTidy(ps) ==> Tidy(ps) == ps
  {
    CollapseCollapses(ps, false);
    TrimFrontTidies(CollapsePieces(ps));
    TrimBackTidies(TrimFront(CollapsePieces(ps)));
    if IsTidy(ps) { CollapseIdle(ps, false); }
  }

  // ----- a second application

  lemma TokensIdle(ps: seq<Piece>, tokens: seq<Rule>)
    requires NoForbidden(ps) && Purging(tokens)
    ensures FoldPieces(ps, tokens) == ps
  {
    FoldIsMap(ps, tokens);
    MapUntouched(ps, tokens);
  }

  /** On pieces the rewriter has produced: settled text is left alone, other text loses residue words. */
  lemma {:induction false} SecondApplication(ps: seq<Piece>, phrases: seq<Rule>, tokens: seq<Rule>)
    requires NoForbidden(ps) && IsTidy(ps)
    requires Purging(tokens) && forall r | r in phrases :: PhraseOk(r)
    ensures Settled(ps, phrases) ==> RewritePieces(ps, phrases, tokens) == ps
    ensures !Settled(ps, phrases) ==> Residue(RewritePieces(ps, phrases, tokens)) < Residue(ps)
  {
    PhrasesReduce(ps, phrases);
    TokensIdle(FoldPieces(ps, phrases), tokens);
    TidyWords(FoldPieces(ps, phrases));
    TidyTidies(ps);
  }

  /** How many words of the text are among analysis, stale, admin, service and task. */
  function ResidueOf(s: string): nat { Residue(Split(s)) }

  lemma OutputPieces(raw: string, phrases: seq<Rule>, tokens: seq<Rule>)
    requires Purging(tokens)
    ensures NoForbidden(Split(Rewrite(raw, phrases, tokens))) && IsTidy(Split(Rewrite(raw, phrases, tokens)))
  {
    RewriteHasNoForbidden(raw, phrases, tokens);
    RewriteIsPieces(raw, phrases, tokens);
    TidyTidies(FoldPieces(FoldPieces(Split(raw), phrases), tokens));
  }

  /** For any tables of this kind: applied to an output, the rewriter leaves it alone exactly when no phrase rule
      has an occurrence in it, and otherwise uses up residue words. */
  lemma {:induction false} RewriteTwice(raw: string, phrases: seq<Rule>, tokens: seq<Rule>)
    requires Purging(tokens) && forall r | r in phrases :: PhraseOk(r)
    ensures var s := Rewrite(raw, phrases, tokens);
            var t := Rewrite(s, phrases, tokens);
            && (t == s <==> Settled(Split(s), phrases))
            && (t == s || ResidueOf(t) < ResidueOf(s))
  {
    var s := Rewrite(raw, phrases, tokens);
    var t := Rewrite(s, phrases, tokens);
    OutputPieces(raw, phrases, tokens);
    SecondApplication(Split(s), phrases, tokens);
    RewriteIsPieces(s, phrases, tokens);
    JoinSplit(s);
    JoinSplit(t);
  }

  lemma TablesOk()
    ensures Purging(TOKENS) && forall r | r in PHRASES :: PhraseOk(r)
  {
    TokensPurge();
    PhrasesOk();
  }

  /** Re-applying converges: a further application changes nothing, or uses up residue words. */
  lemma {:induction false} Converges(raw: string)
    ensures Safe(Safe(raw)) == Safe(raw) || ResidueOf(Safe(Safe(raw))) < ResidueOf(Safe(raw))
  {
    TablesOk();
    RewriteTwice(raw, PHRASES, TOKENS);
  }

  /** `n` further applications. */
  function Iterate(f: string -> string, s: string, n: nat): string
    decreases n
  {
    if n == 0 then s else Iterate(f, f(s), n - 1)
  }

  lemma {:induction false} IterateFixed(f: string -> string, s: string, n: nat)
    requires f(s) == s
    ensures Iterate(f, s, n) == s
    decreases n
  {
    if n > 0 { IterateFixed(f, s, n - 1); }
  }

  lemma {:induction false} SettlesBy(f: string -> string, measure: string -> nat, raw: string, n: nat)
    requires forall t :: f(f(t)) == f(t) || measure(f(f(t))) < measure(f(t))
    requires n >= measure(f(raw))
    ensures f(Iterate(f, f(raw), n)) == Iterate(f, f(raw), n)
    decreases n
  {
    if f(f(raw)) == f(raw) { IterateFixed(f, f(raw), n); } else { SettlesBy(f, measure, f(raw), n - 1); }
  }

  // ----- the pass of line 18

  /** Neither word of the phrase can be made out of the replacement. */
  ghost predicate Foreign(r: Rule) {
    && |r.words| == 2
    && Split(r.replacement) != []
    && Split(r.replacement)[0].Word? && !Is(Split(r.replacement)[0].text, r.words[1])
    && forall k | 0 <= k < |Split(r.replacement)| && Split(r.replacement)[k].Word? ::
         !Is(Split(r.replacement)[k].text, r.words[0])
  }

  lemma PassStart(ps: seq<Piece>, r: Rule)
    requires Foreign(r) && ps != []
    ensures Pass(ps, r) != []
    ensures AfterPhrase(ps, r.words, r.plural).Some? ==> Pass(ps, r)[0] == Split(r.replacement)[0]
    ensures AfterPhrase(ps, r.words, r.plural).None? ==> Pass(ps, r)[0] == ps[0]
  {}

  lemma {:induction false} PassKeepsSeparators(ps: seq<Piece>, r: Rule)
    requires Foreign(r)
    ensures SkipSeparators(Pass(ps, r)) == Pass(SkipSeparators(ps), r)
    ensures SkipSeparators(ps) == ps ==> SkipSeparators(Pass(ps, r)) == Pass(ps, r)
  {
    if ps != [] {
      PassStart(ps, r);
      if SkipSeparators(ps) != ps {
        assert Pass(ps, r)[1..] == Pass(ps[1..], r);
        PassKeepsSeparators(ps[1..], r);
      }
    }
  }

  /** At a word that starts no occurrence before the pass, none starts after it. */
  lemma MissStaysMiss(ps: seq<Piece>, r: Rule)
    requires Foreign(r) && ps != [] && AfterPhrase(ps, r.words, r.plural).None?
    ensures AfterPhrase(Pass(ps, r), r.words, false).None?
  {
    var out := Pass(ps, r);
    assert out == [ps[0]] + Pass(ps[1..], r) && out[1..] == Pass(ps[1..], r);
    PassKeepsSeparators(ps[1..], r);
    var next := SkipSeparators(ps[1..]);
    if ps[0].Word? && Is(ps[0].text, r.words[0]) && next != [] {
      PassStart(next, r);
      if next == ps[1..] { assert SkipSeparators(out[1..]) == out[1..]; }
    }
  }

  lemma {:induction false} NothingLeft(ps: seq<Piece>, r: Rule)
    requires Foreign(r)
    ensures !HasPhrase(Pass(ps, r), Rule(r.words, false, r.replacement))
    decreases |ps|
  {
    var q := Rule(r.words, false, r.replacement);
    if ps != [] {
      var out := Pass(ps, r);
      var rest := AfterPhrase(ps, r.words, r.plural);
      if rest.Some? {
        NothingLeft(rest.value, r);
        NothingInReplacement(Split(r.replacement), Pass(rest.value, r), q);
      } else {
        NothingLeft(ps[1..], r);
        MissStaysMiss(ps, r);
        assert out[1..] == Pass(ps[1..], r);
        HasPhraseTail(out, q);
      }
    }
  }

  lemma {:induction false} NothingInReplacement(a: seq<Piece>, b: seq<Piece>, q: Rule)
    requires forall k | 0 <= k < |a| && a[k].Word? :: !Is(a[k].text, q.words[0])
    requires |q.words| == 2 && !HasPhrase(b, q)
    ensures !HasPhrase(a + b, q)
  {
    if a == [] {
      assert a + b == b;
    } else {
      assert (a + b)[1..] == a[1..] + b;
      NothingInReplacement(a[1..], b, q);
      HasPhraseTail(a + b, q);
    }
  }

  /** Once a plural pass with a foreign replacement has run, its singular form has nothing left to replace. */
  lemma {:induction false} SingularAfterPluralIsIdle(s: string, r: Rule)
    requires Foreign(r)
    ensures Replace(Replace(s, r), Rule(r.words, false, r.replacement)) == Replace(s, r)
  {
    var ps, q := Pass(Split(s), r), Rule(r.words, false, r.replacement);
    NothingLeft(Split(s), r);
    PassWithoutPhrase(ps, q);
    ReplaceIsPass(s, r);
    SplitCanonical(s);
    PassCanonical(Split(s), r);
    SplitJoin(ps);
    ReplaceIsPass(Join(ps), q);
  }

  lemma TwoWordsForeign(r: Rule, a: string, c: char, b: string)
    requires r.replacement == a + [c] + b && Letters(a) && !IsAlnum(c) && Letters(b) && |r.words| == 2
    requires Lower(r.words[0][0]) !in {a[0], b[0]} && Lower(r.words[1][0]) != a[0]
    ensures Foreign(r)
  {
    TwoWords(a, c, b);
    assert LowerText(a)[0] == a[0] && LowerText(b)[0] == b[0];
    assert LowerText(r.words[0])[0] == Lower(r.words[0][0]) && LowerText(r.words[1])[0] == Lower(r.words[1][0]);
  }

  /** The pass of line 18 never changes anything: the scan of line 17 leaves no delimited occurrence. */
  lemma {:induction false} SingularWorkflowRuleIsIdle(s: string)
    ensures Replace(Replace(s, WORKFLOW_RULES), WORKFLOW_RULE) == Replace(s, WORKFLOW_RULES)
  {
    assert "call" + [' '] + "routing" == "call routing";
    TwoWordsForeign(WORKFLOW_RULES, "call", ' ', "routing");
    SingularAfterPluralIsIdle(s, WORKFLOW_RULES);
  }
}
