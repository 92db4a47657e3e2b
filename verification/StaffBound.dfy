/**
 The bound on the applications is reached: for every n a text with n residue words that needs n more.
 */
module StaffBound {
  import opened Wrappers
  import opened Text
  import opened Words
  import opened Delimited
  import opened StaffText
  import opened StaffChains
  import opened StaffTokens
  import opened StaffConvergence
  import opened StaffImages
  import opened StaffTables
  import opened StaffIdempotence

  // ----- rule lists on chains

  function Folded(c: seq<Link>, rules: seq<Rule>): seq<Link>
    decreases |rules|, |c|
  {
    if rules == [] then c
    else Folded(Rewritten(c, FormsOf(rules[0]), Chain(Split(rules[0].replacement))), rules[1..])
  }

  lemma {:induction false} FoldChain(ps: seq<Piece>, rules: seq<Rule>)
    requires Canonical(ps)
    ensures Chain(FoldPieces(ps, rules)) == Folded(Chain(ps), rules)
    decreases |rules|
  {
    if rules != [] {
      PassChain(ps, rules[0]);
      PassCanonical(ps, rules[0]);
      FoldChain(Pass(ps, rules[0]), rules[1..]);
    }
  }

  ghost predicate Within(c: seq<Link>, words: set<string>) {
    forall i | 0 <= i < |c| :: In(c[i], words)
  }

  /** Some word of the phrase is none of these. */
  ghost predicate Misses(r: Rule, words: set<string>) {
    exists k | 0 <= k < |r.words| :: FormsOf(r)[k] !! words
  }

  lemma {:induction false} StartsAt(c: seq<Link>, forms: seq<set<string>>, k: nat)
    requires Starts(c, forms) && k < |forms|
    ensures In(c[k], forms[k])
  {
    if k > 0 { StartsAt(c[1..], forms[1..], k - 1); }
  }

  lemma {:induction false} MissedIsIdle(c: seq<Link>, r: Rule, words: set<string>)
    requires Within(c, words) && Misses(r, words)
    ensures Rewritten(c, FormsOf(r), Chain(Split(r.replacement))) == c
    decreases |c|
  {
    if c != [] {
      if Starts(c, FormsOf(r)) {
        var k :| 0 <= k < |r.words| && FormsOf(r)[k] !! words;
        StartsAt(c, FormsOf(r), k);
      } else {
        MissedIsIdle(c[1..], r, words);
      }
    }
  }

  lemma {:induction false} MissedAreIdle(c: seq<Link>, rules: seq<Rule>, words: set<string>)
    requires Within(c, words) && forall r | r in rules :: Misses(r, words)
    ensures Folded(c, rules) == c
    decreases |rules|
  {
    if rules != [] {
      MissedIsIdle(c, rules[0], words);
      MissedAreIdle(c, rules[1..], words);
    }
  }

  /** Only one of the rules acts. */
  lemma {:induction false} OneActs(c: seq<Link>, c': seq<Link>, rules: seq<Rule>, k: nat, words: set<string>)
    requires k < |rules| && forall i | 0 <= i < |rules| && i != k :: Misses(rules[i], words)
    requires Within(c, words) && Within(c', words)
    requires Rewritten(c, FormsOf(rules[k]), Chain(Split(rules[k].replacement))) == c'
    ensures Folded(c, rules) == c'
    decreases |rules|
  {
    if k == 0 {
      MissedAreIdle(c', rules[1..], words);
    } else {
      MissedIsIdle(c, rules[0], words);
      OneActs(c, c', rules[1..], k - 1, words);
    }
  }

  // ----- which phrases miss the words of the example

  lemma {:induction false} FormAt(words: seq<string>, plural: bool, k: nat)
    requires k < |words|
    ensures Forms(words, plural)[k]
         == {LowerText(words[k])} + if plural && k == |words| - 1 then {LowerText(words[k] + "s")} else {}
  {
    if k > 0 { FormAt(words[1..], plural, k - 1); }
  }

  /** Read off length and first letter: no word of the phrase, plural or not, is "automation". */
  predicate NoAutomation(r: Rule) {
    forall k | 0 <= k < |r.words| :: |r.words[k]| < 9 || Lower(r.words[k][0]) != 'a'
  }

  lemma NoAutomationA()
    ensures forall r | r in PHRASES_A :: NoAutomation(r)
  {}

  lemma NoAutomationB()
    ensures forall r | r in PHRASES_B :: NoAutomation(r)
  {}

  lemma NoAutomationC()
    ensures forall r | r in PHRASES_C :: NoAutomation(r)
  {}

  lemma NoAutomationD()
    ensures forall r | r in PHRASES_D :: NoAutomation(r)
  {}

  lemma NotAutomation(w: string)
    requires w != "" && (|w| < 9 || Lower(w[0]) != 'a')
    ensures LowerText(w) != "automation" && LowerText(w + "s") != "automation"
  {
    assert LowerText(w)[0] == Lower(w[0]) && LowerText(w + "s")[0] == Lower(w[0]);
  }

  lemma BlockedMisses(r: Rule, words: set<string>)
    requires Blocked(r) && NoAutomation(r) && words * FORBIDDEN <= {"automation"}
    ensures Misses(r, words)
  {
    var k: nat :| Needs(r, k, FORBIDDEN);
    FormAt(r.words, r.plural, k);
    NotAutomation(r.words[k]);
    assert FormsOf(r)[k] <= FORBIDDEN - {"automation"};
  }

  const WHOLE: set<string> := {"stale", "automation"}
  const PARTS: set<string> := {"stale", "follow", "up"}

  lemma OpenMisses(k: nat, words: set<string>)
    requires k in {0, 2, 3, 4, 5} && (words == WHOLE || (words == PARTS && k != 2))
    ensures Misses(PHRASES_A[k], words)
  {
    PhraseForms();
    var forms := FormsOf(PHRASES_A[k]);
    if k == 0 { assert forms[1] !! words; }
    else if k == 2 { assert forms[1] !! words; }
    else if k == 3 { assert forms[0] !! words; }
    else if k == 4 { assert forms[0] !! words; }
    else { assert forms[1] !! words; }
  }

  lemma NoPhraseHasAutomation(r: Rule)
    requires r in PHRASES
    ensures NoAutomation(r)
  {
    NoAutomationA(); NoAutomationB(); NoAutomationC(); NoAutomationD();
    InParts(r);
  }

  lemma ForbiddenMisses(k: nat, r: Rule, words: set<string>)
    requires k < |PHRASES| && PHRASES[k] == r && (k == 1 || k > 5) && words * FORBIDDEN <= {"automation"}
    ensures Misses(r, words)
  {
    ForbiddenPhrases(k);
    NoPhraseHasAutomation(r);
    BlockedMisses(r, words);
  }

  lemma PhraseMisses(k: nat, r: Rule, words: set<string>)
    requires k < |PHRASES| && PHRASES[k] == r && (words == WHOLE || (words == PARTS && k != 2))
    ensures Misses(r, words)
  {
    if k == 1 || k > 5 {
      ForbiddenMisses(k, r, words);
    } else {
      assert r == PHRASES_A[k];
      OpenMisses(k, words);
    }
  }

  // ----- the example

  /** `n` times "stale", then the rest. */
  function Stale(n: nat, rest: seq<Link>): seq<Link> {
    if n == 0 then rest else [Some("stale")] + Stale(n - 1, rest)
  }

  const FOLLOW_UP: seq<Link> := [Some("follow"), Some("up")]

  lemma {:induction false} StaleWithin(n: nat, rest: seq<Link>, words: set<string>)
    requires Within(rest, words) && "stale" in words
    ensures Within(Stale(n, rest), words)
  {
    if n > 0 { StaleWithin(n - 1, rest, words); }
  }

  /** The pass of line 9 takes one "stale" away. */
  lemma {:induction false} StalePass(n: nat, image: seq<Link>)
    requires image == FOLLOW_UP
    ensures Rewritten(Stale(n, FOLLOW_UP), STALE_FOLLOW_UP, image) == Stale(if n == 0 then 0 else n - 1, FOLLOW_UP)
  {
    var c := Stale(n, FOLLOW_UP);
    TripleStarts(c);
    if n > 1 {
      StalePass(n - 1, image);
    } else if n == 1 {
      assert c == [Some("stale"), Some("follow"), Some("up")];
      assert c[3..] == [];
    } else {
      TripleStarts(c[1..]);
      assert c[1..][1..] == [];
    }
  }

  lemma FollowUpMapped()
    ensures Mapped(FOLLOW_UP, TOKENS) == FOLLOW_UP
  {
    var c := FOLLOW_UP;
    var first, last := TokenImage("follow");
    var up, end := TokenImage("up");
    assert Mapped(c, TOKENS) == ImageOf(TOKENS, "follow") + Mapped(c[1..], TOKENS);
    assert Mapped(c[1..], TOKENS) == ImageOf(TOKENS, "up") + Mapped(c[1..][1..], TOKENS);
    assert c[1..][1..] == [];
  }

  lemma AutomationMapped(c: seq<Link>)
    requires c == [Some("automation")]
    ensures Mapped(c, TOKENS) == FOLLOW_UP
  {
    TokensMakeFollowUp();
    assert MakesFollowUpAt(ImageOf(TOKENS, "automation"), "automation", FOLLOW_UPS);
    assert c[1..] == [];
  }

  /** The token passes leave "stale". */
  lemma {:induction false} StaleMapped(n: nat, rest: seq<Link>)
    ensures Mapped(Stale(n, rest), TOKENS) == Stale(n, Mapped(rest, TOKENS))
  {
    if n > 0 {
      var first, last := TokenImage("stale");
      StaleMapped(n - 1, rest);
    }
  }

  /** One application, given what the phrase passes and the token passes make of the chain. */
  lemma RewriteChain(
    raw: string, phrases: seq<Rule>, tokens: seq<Rule>, c: seq<Link>, phrased: seq<Link>, out: seq<Link>)
    requires Closed(tokens) && Chain(Split(raw)) == c
    requires Folded(c, phrases) == phrased && Mapped(phrased, tokens) == out
    ensures Chain(Split(Rewrite(raw, phrases, tokens))) == out
  {
    SplitCanonical(raw);
    FoldChain(Split(raw), phrases);
    OutputChain(raw, phrases, tokens);
  }

  /** "stale ... stale automation" becomes "stale ... stale follow-up". */
  lemma WholeStep(raw: string, n: nat)
    requires Chain(Split(raw)) == Stale(n, [Some("automation")])
    ensures Chain(Split(Safe(raw))) == Stale(n, FOLLOW_UP)
  {
    var c := Stale(n, [Some("automation")]);
    forall r | r in PHRASES ensures Misses(r, WHOLE) {
      var k :| 0 <= k < |PHRASES| && PHRASES[k] == r;
      PhraseMisses(k, r, WHOLE);
    }
    StaleWithin(n, [Some("automation")], WHOLE);
    MissedAreIdle(c, PHRASES, WHOLE);
    StaleMapped(n, [Some("automation")]);
    AutomationMapped([Some("automation")]);
    TokensClosed(TOKENS);
    RewriteChain(raw, PHRASES, TOKENS, c, c, Stale(n, FOLLOW_UP));
  }

  /** The third rule alone acts on "stale ... stale follow-up". */
  ghost predicate TakesStale(phrases: seq<Rule>) {
    && |phrases| > 2 && FormsOf(phrases[2]) == STALE_FOLLOW_UP
    && Chain(Split(phrases[2].replacement)) == FOLLOW_UP
    && forall k | 0 <= k < |phrases| && k != 2 :: Misses(phrases[k], PARTS)
  }

  ghost predicate KeepsStale(tokens: seq<Rule>) {
    Closed(tokens) && forall n: nat :: Mapped(Stale(n, FOLLOW_UP), tokens) == Stale(n, FOLLOW_UP)
  }

  /** Each further application takes one "stale" away. */
  lemma PartsStep(s: string, n: nat, phrases: seq<Rule>, tokens: seq<Rule>)
    requires TakesStale(phrases) && KeepsStale(tokens)
    requires n > 0 && Chain(Split(s)) == Stale(n, FOLLOW_UP)
    ensures Chain(Split(Rewrite(s, phrases, tokens))) == Stale(n - 1, FOLLOW_UP)
  {
    var c, c' := Stale(n, FOLLOW_UP), Stale(n - 1, FOLLOW_UP);
    StaleWithin(n, FOLLOW_UP, PARTS);
    StaleWithin(n - 1, FOLLOW_UP, PARTS);
    StalePass(n, FOLLOW_UP);
    OneActs(c, c', phrases, 2, PARTS);
    RewriteChain(s, phrases, tokens, c, c', c');
  }

  lemma PhrasesTakeStale(phrases: seq<Rule>)
    requires phrases == PHRASES
    ensures TakesStale(phrases)
  {
    forall k | 0 <= k < |phrases| && k != 2 ensures Misses(phrases[k], PARTS) {
      PhraseMisses(k, phrases[k], PARTS);
    }
    PhraseForms();
    assert phrases[2] == PHRASES_A[2];
    assert "follow" + ['-'] + "up" == "follow-up";
    TwoLinks("follow", '-', "up");
  }

  lemma TokensKeepStale()
    ensures KeepsStale(TOKENS)
  {
    TokensClosed(TOKENS);
    forall n: nat ensures Mapped(Stale(n, FOLLOW_UP), TOKENS) == Stale(n, FOLLOW_UP) {
      StaleMapped(n, FOLLOW_UP);
      FollowUpMapped();
    }
  }

  lemma {:induction false} StaleDiffers(n: nat)
    requires n > 0
    ensures Stale(n, FOLLOW_UP) != Stale(n - 1, FOLLOW_UP)
  {
    if n > 1 { StaleDiffers(n - 1); }
  }

  /** Each application of `f` takes a text of level `k` to a different one of level `k - 1`. */
  ghost predicate StepsDown(f: string -> string, level: (string, nat) -> bool) {
    forall t, k: nat | k > 0 && level(t, k) :: level(f(t), k - 1) && f(t) != t
  }

  lemma {:induction false} LevelAfter(
    f: string -> string, level: (string, nat) -> bool, s: string, n: nat, m: nat)
    requires StepsDown(f, level) && m <= n && level(s, n)
    ensures level(Iterate(f, s, m), n - m)
    ensures m < n ==> f(Iterate(f, s, m)) != Iterate(f, s, m)
    decreases m
  {
    if m > 0 { LevelAfter(f, level, f(s), n - 1, m - 1); }
  }

  predicate IsStale(s: string, n: nat) { Chain(Split(s)) == Stale(n, FOLLOW_UP) }

  lemma SafeStepsDown()
    ensures StepsDown(Safe, IsStale)
  {
    PhrasesTakeStale(PHRASES);
    TokensKeepStale();
    forall t: string, k: nat | k > 0 && IsStale(t, k) ensures IsStale(Safe(t), k - 1) && Safe(t) != t {
      PartsStep(t, k, PHRASES, TOKENS);
      StaleDiffers(k);
    }
  }

  // ----- the text

  /** `n` times a word and a space, then the last word. */
  function Repeated(w: string, n: nat, last: string): seq<Piece>
    decreases n, |w|
  {
    if n == 0 then [Word(last)] else [Word(w)] + ([Gap(' ')] + Repeated(w, n - 1, last))
  }

  lemma WordInFront(w: string, ps: seq<Piece>)
    requires Letters(w) && Canonical(ps)
    ensures Canonical([Word(w)] + ([Gap(' ')] + ps))
    ensures Chain([Word(w)] + ([Gap(' ')] + ps)) == [Some(LowerText(w))] + Chain(ps)
  {
    var tail := [Gap(' ')] + ps;
    LettersLower(w);
    assert tail[1..] == ps && ([Word(w)] + tail)[1..] == tail;
    assert Chain(tail) == [] + Chain(ps) == Chain(ps);
  }

  lemma {:induction false} RepeatedChain(w: string, n: nat, last: string)
    requires Letters(w) && Letters(last) && LowerText(w) == "stale"
    ensures Canonical(Repeated(w, n, last)) && Chain(Repeated(w, n, last)) == Stale(n, [Some(LowerText(last))])
    decreases n
  {
    if n == 0 {
      LettersLower(last);
      assert [Word(last)][1..] == [];
    } else {
      RepeatedChain(w, n - 1, last);
      WordInFront(w, Repeated(w, n - 1, last));
    }
  }

  function StaleText(n: nat): string { Join(Repeated("stale", n, "automation")) }

  lemma StaleTextChain(n: nat)
    ensures Chain(Split(StaleText(n))) == Stale(n, [Some("automation")])
  {
    LettersLower("stale");
    LettersLower("automation");
    RepeatedChain("stale", n, "automation");
    SplitJoin(Repeated("stale", n, "automation"));
  }

  lemma {:induction false} StaleResidue(n: nat)
    ensures CountIn(WordsIn(Stale(n, [Some("automation")])), RESIDUE) == n
  {
    var c := Stale(n, [Some("automation")]);
    if n == 0 {
      assert c[1..] == [];
      assert WordsIn(c) == ["automation"] + WordsIn(c[1..]);
      assert WordsIn(c)[1..] == [];
    } else {
      StaleResidue(n - 1);
      assert c[1..] == Stale(n - 1, [Some("automation")]);
      assert WordsIn(c)[1..] == WordsIn(c[1..]);
    }
  }

  /** The bound of `Settles` is reached: for every `n` this text has `n` of the five words; each of the first `n`
      further applications takes one "stale" away, and until then the next one still changes the text. */
  lemma {:induction false} BoundIsReached(n: nat, m: nat)
    requires m <= n
    ensures ResidueOf(StaleText(n)) == n
    ensures IsStale(Iterate(Safe, Safe(StaleText(n)), m), n - m)
    ensures m < n ==> Safe(Iterate(Safe, Safe(StaleText(n)), m)) != Iterate(Safe, Safe(StaleText(n)), m)
  {
    StaleTextChain(n);
    StaleResidue(n);
    WordsOfChain(Split(StaleText(n)));
    WholeStep(StaleText(n), n);
    SafeStepsDown();
    LevelAfter(Safe, IsStale, Safe(StaleText(n)), n, m);
  }

  lemma ShowThree(w: string, c: char, last: string)
    ensures Join([Word(w)] + ([Gap(c)] + [Word(last)])) == w + [c] + last
  {
    JoinConcat([Word(w)], [Gap(c)] + [Word(last)]);
    JoinConcat([Gap(c)], [Word(last)]);
    assert Join([Word(w)]) == w + Join([Word(w)][1..]) && Join([Word(last)]) == last + Join([Word(last)][1..]);
    assert Join([Gap(c)]) == [c] + Join([Gap(c)][1..]);
  }

  lemma SmallestCase(raw: string, n: nat)
    requires raw == "stale automation" && n == 1
    ensures IsStale(Safe(raw), n) && Safe(Safe(raw)) != Safe(raw)
  {
    ShowThree("stale", ' ', "automation");
    assert Repeated("stale", n, "automation") == [Word("stale")] + ([Gap(' ')] + [Word("automation")]);
    assert "stale" + [' '] + "automation" == raw;
    BoundIsReached(n, n - 1);
  }

  /** The smallest case: "stale automation" becomes "stale follow-up", which a second application changes. */
  lemma {:induction false} OneApplicationIsNotEnough(raw: string)
    requires raw == "stale automation"
    ensures IsStale(Safe(raw), 1) && Safe(Safe(raw)) != Safe(raw)
  {
    SmallestCase(raw, 1);
  }
}
