/**
 The token passes: none of the forbidden words survives, and their order does not matter.
 */
module StaffTokens {
  import opened Wrappers
  import opened Text
  import opened Words
  import opened Delimited
  import opened StaffText
  import opened StaffChains

  // ----- the table

  /** The 17 tokens staff must not see, in lower case. */
  const FORBIDDEN: set<string> := {
    "ai", "workflow", "rule", "rules", "axis", "sales", "sale", "support", "automation",
    "segments", "segment", "kanban", "transcript", "transcripts", "resolver", "debug", "commission"}

  predicate Letters(w: string) {
    w != "" && forall k | 0 <= k < |w| :: 'a' <= w[k] <= 'z'
  }

  lemma LettersLower(w: string)
    requires Letters(w)
    ensures LowerText(w) == w && AllAlnum(w)
  {}

  lemma OneWord(w: string)
    requires Letters(w)
    ensures Split(w) == [Word(w)] && WordsOf(Split(w)) == [w]
  {
    LettersLower(w);
    SplitWord(w, "");
    assert w + "" == w;
    assert WordsOf([Word(w)]) == [w] + WordsOf([Word(w)][1..]);
  }

  lemma SplitThen(a: string, c: char, rest: string)
    requires a != "" && AllAlnum(a) && !IsAlnum(c)
    ensures Split(a + [c] + rest) == [Word(a), Gap(c)] + Split(rest)
  {
    SplitWord(a, [c] + rest);
    assert a + ([c] + rest) == a + [c] + rest;
    assert ([c] + rest)[1..] == rest;
  }

  lemma WordThen(a: string, c: char, rest: string)
    requires Letters(a) && !IsAlnum(c)
    ensures Split(a + [c] + rest) == [Word(a), Gap(c)] + Split(rest)
    ensures WordsOf(Split(a + [c] + rest)) == [a] + WordsOf(Split(rest))
  {
    LettersLower(a);
    SplitThen(a, c, rest);
    WordGapWords(a, c, Split(rest));
  }

  lemma WordGapWords(a: string, c: char, ps: seq<Piece>)
    ensures WordsOf([Word(a), Gap(c)] + ps) == [LowerText(a)] + WordsOf(ps)
  {
    var all := [Word(a), Gap(c)] + ps;
    assert all[1..] == [Gap(c)] + ps && all[1..][1..] == ps;
  }

  lemma TwoWords(a: string, c: char, b: string)
    requires Letters(a) && !IsAlnum(c) && Letters(b)
    ensures Split(a + [c] + b) == [Word(a), Gap(c), Word(b)]
    ensures WordsOf(Split(a + [c] + b)) == [a, b]
  {
    WordThen(a, c, b);
    OneWord(b);
  }

  function Key(r: Rule): string { LowerText(r.words[0]) }

  /** A rule of one forbidden word whose replacement has no forbidden word. */
  ghost predicate TokenOk(r: Rule) {
    && |r.words| == 1 && !r.plural && Key(r) in FORBIDDEN
    && forall k | 0 <= k < |WordsOf(Split(r.replacement))| :: WordsOf(Split(r.replacement))[k] !in FORBIDDEN
  }

  lemma OneWordOk(r: Rule, key: string, w: string)
    requires |r.words| == 1 && !r.plural && Key(r) == key && key in FORBIDDEN
    requires r.replacement == w && Letters(w) && w !in FORBIDDEN
    ensures TokenOk(r)
  {
    OneWord(w);
  }

  lemma TwoWordsOk(r: Rule, key: string, a: string, c: char, b: string)
    requires |r.words| == 1 && !r.plural && Key(r) == key && key in FORBIDDEN
    requires r.replacement == a + [c] + b
    requires Letters(a) && !IsAlnum(c) && Letters(b) && a !in FORBIDDEN && b !in FORBIDDEN
    ensures TokenOk(r)
  {
    TwoWords(a, c, b);
  }

  lemma TokensAOneWord()
    ensures TokenOk(TOKENS_A[0]) && TokenOk(TOKENS_A[2]) && TokenOk(TOKENS_A[3]) && TokenOk(TOKENS_A[4])
  {
    KeysOfA();
    OneWordOk(TOKENS_A[0], "ai", "call");
    OneWordOk(TOKENS_A[2], "rule", "routing");
    OneWordOk(TOKENS_A[3], "rules", "routing");
    OneWordOk(TOKENS_A[4], "axis", "focus");
  }

  lemma TokensATwoWords()
    ensures TokenOk(TOKENS_A[1]) && TokenOk(TOKENS_A[5]) && TokenOk(TOKENS_A[6])
    ensures TokenOk(TOKENS_A[7]) && TokenOk(TOKENS_A[8])
  {
    KeysOfA();
    assert "follow" + ['-'] + "up" == "follow-up";
    assert "purchase" + [' '] + "intent" == "purchase intent";
    assert "customer" + [' '] + "request" == "customer request";
    TwoWordsOk(TOKENS_A[1], "workflow", "follow", '-', "up");
    TwoWordsOk(TOKENS_A[5], "sales", "purchase", ' ', "intent");
    TwoWordsOk(TOKENS_A[6], "sale", "purchase", ' ', "intent");
    TwoWordsOk(TOKENS_A[7], "support", "customer", ' ', "request");
    TwoWordsOk(TOKENS_A[8], "automation", "follow", '-', "up");
  }

  lemma TokensBTwoWords()
    ensures forall k | 0 <= k < 5 :: TokenOk(TOKENS_B[k])
  {
    KeysOfB();
    assert "customer" + [' '] + "lists" == "customer lists";
    assert "customer" + [' '] + "list" == "customer list";
    assert "call" + [' '] + "summary" == "call summary";
    TwoWordsOk(TOKENS_B[0], "segments", "customer", ' ', "lists");
    TwoWordsOk(TOKENS_B[1], "segment", "customer", ' ', "list");
    TwoWordsOk(TOKENS_B[2], "kanban", "customer", ' ', "list");
    TwoWordsOk(TOKENS_B[3], "transcript", "call", ' ', "summary");
    TwoWordsOk(TOKENS_B[4], "transcripts", "call", ' ', "summary");
  }

  lemma TokensBOneWord()
    ensures forall k | 5 <= k < 8 :: TokenOk(TOKENS_B[k])
  {
    KeysOfB();
    OneWordOk(TOKENS_B[5], "resolver", "summary");
    OneWordOk(TOKENS_B[6], "debug", "review");
    OneWordOk(TOKENS_B[7], "commission", "request");
  }

  lemma TokensOk()
    ensures forall r | r in TOKENS :: TokenOk(r)
  {
    TokensAOneWord();
    TokensATwoWords();
    TokensBTwoWords();
    TokensBOneWord();
    forall r | r in TOKENS ensures TokenOk(r) {
      if r in TOKENS_A {
        var k :| 0 <= k < 9 && TOKENS_A[k] == r;
      } else {
        var k :| 0 <= k < 8 && TOKENS_B[k] == r;
      }
    }
  }

  lemma KeysOfA()
    ensures Key(TOKENS_A[0]) == "ai" && Key(TOKENS_A[1]) == "workflow" && Key(TOKENS_A[2]) == "rule"
    ensures Key(TOKENS_A[3]) == "rules" && Key(TOKENS_A[4]) == "axis" && Key(TOKENS_A[5]) == "sales"
    ensures Key(TOKENS_A[6]) == "sale" && Key(TOKENS_A[7]) == "support" && Key(TOKENS_A[8]) == "automation"
  {
    assert LowerText("AI") == "ai";
    LettersLower("workflow"); LettersLower("rule"); LettersLower("rules"); LettersLower("axis");
    LettersLower("sales"); LettersLower("sale"); LettersLower("support"); LettersLower("automation");
  }

  lemma KeysOfB()
    ensures Key(TOKENS_B[0]) == "segments" && Key(TOKENS_B[1]) == "segment" && Key(TOKENS_B[2]) == "kanban"
    ensures Key(TOKENS_B[3]) == "transcript" && Key(TOKENS_B[4]) == "transcripts" && Key(TOKENS_B[5]) == "resolver"
    ensures Key(TOKENS_B[6]) == "debug" && Key(TOKENS_B[7]) == "commission"
  {
    LettersLower("segments"); LettersLower("segment"); LettersLower("kanban"); LettersLower("transcript");
    LettersLower("transcripts"); LettersLower("resolver"); LettersLower("debug"); LettersLower("commission");
  }

  /** Every forbidden word has its rule. */
  lemma ForbiddenHasRule(w: string)
    requires w in FORBIDDEN
    ensures exists r :: r in TOKENS && Key(r) == w
  {
    KeysOfA();
    KeysOfB();
    if i :| 0 <= i < 9 && Key(TOKENS_A[i]) == w {
      assert TOKENS_A[i] in TOKENS;
    } else {
      NotInA(w);
      var j :| 0 <= j < 8 && Key(TOKENS_B[j]) == w;
      assert TOKENS_B[j] in TOKENS;
    }
  }

  lemma NotInA(w: string)
    requires w in FORBIDDEN && forall i | 0 <= i < 9 :: Key(TOKENS_A[i]) != w
    ensures exists j :: 0 <= j < 8 && Key(TOKENS_B[j]) == w
  {
    KeysOfA();
    KeysOfB();
  }

  // ----- token passes as a dictionary

  /** What a dictionary of one-word rules makes of one word: its first entry for that word, if any. */
  function Lookup(rules: seq<Rule>, u: string): seq<Piece>
    decreases |rules|, |u|
  {
    if rules == [] then [Word(u)]
    else if LowerText(u) == Key(rules[0]) then Split(rules[0].replacement)
    else Lookup(rules[1..], u)
  }

  function MapWords(ps: seq<Piece>, rules: seq<Rule>): seq<Piece> {
    if ps == [] then []
    else (if ps[0].Word? then Lookup(rules, ps[0].text) else [ps[0]]) + MapWords(ps[1..], rules)
  }

  lemma {:induction false} MapConcat(a: seq<Piece>, b: seq<Piece>, rules: seq<Rule>)
    ensures MapWords(a + b, rules) == MapWords(a, rules) + MapWords(b, rules)
  {
    if a == [] {
      assert a + b == b;
    } else {
      assert (a + b)[1..] == a[1..] + b;
      MapConcat(a[1..], b, rules);
    }
  }

  lemma {:induction false} MapNothing(ps: seq<Piece>)
    ensures MapWords(ps, []) == ps
  {
    if ps != [] { MapNothing(ps[1..]); }
  }

  lemma {:induction false} PassIsMap(ps: seq<Piece>, r: Rule)
    requires |r.words| == 1 && !r.plural
    ensures Pass(ps, r) == MapWords(ps, [r])
  {
    if ps != [] {
      PassIsMap(ps[1..], r);
      assert [r][1..] == [];
      if ps[0].Word? {
        assert Lookup([r], ps[0].text)
            == if LowerText(ps[0].text) == Key(r) then Split(r.replacement) else Lookup([], ps[0].text);
      }
    }
  }

  /** No word of these pieces has an entry. */
  ghost predicate Untouched(ps: seq<Piece>, rules: seq<Rule>) {
    forall k | 0 <= k < |rules| :: Key(rules[k]) !in WordsOf(ps)
  }

  lemma {:induction false} LookupMisses(rules: seq<Rule>, u: string)
    requires forall k | 0 <= k < |rules| :: Key(rules[k]) != LowerText(u)
    ensures Lookup(rules, u) == [Word(u)]
  {
    if rules != [] { LookupMisses(rules[1..], u); }
  }

  lemma {:induction false} MapUntouched(ps: seq<Piece>, rules: seq<Rule>)
    requires Untouched(ps, rules)
    ensures MapWords(ps, rules) == ps
  {
    if ps != [] {
      if ps[0].Word? {
        assert LowerText(ps[0].text) == WordsOf(ps)[0];
        LookupMisses(rules, ps[0].text);
      }
      assert forall w | w in WordsOf(ps[1..]) :: w in WordsOf(ps);
      MapUntouched(ps[1..], rules);
    }
  }

  /** No replacement contains a token of these rules. */
  ghost predicate Closed(rules: seq<Rule>) {
    && (forall i | 0 <= i < |rules| :: |rules[i].words| == 1 && !rules[i].plural)
    && (forall i | 0 <= i < |rules| :: Untouched(Split(rules[i].replacement), rules))
  }

  lemma ClosedTail(rules: seq<Rule>)
    requires Closed(rules) && rules != []
    ensures Closed(rules[1..]) && Untouched(Split(rules[0].replacement), rules[1..])
  {
    forall i | 0 <= i < |rules[1..]| ensures Untouched(Split(rules[1..][i].replacement), rules[1..]) {
      assert Untouched(Split(rules[i + 1].replacement), rules);
    }
  }

  lemma {:induction false} MapTwice(ps: seq<Piece>, r: Rule, rules: seq<Rule>)
    requires Untouched(Split(r.replacement), rules)
    ensures MapWords(MapWords(ps, [r]), rules) == MapWords(ps, [r] + rules)
  {
    if ps != [] {
      var head := if ps[0].Word? then Lookup([r], ps[0].text) else [ps[0]];
      MapConcat(head, MapWords(ps[1..], [r]), rules);
      MapTwice(ps[1..], r, rules);
      HeadTwice(ps[0], r, rules);
    }
  }

  lemma HeadTwice(p: Piece, r: Rule, rules: seq<Rule>)
    requires Untouched(Split(r.replacement), rules)
    ensures MapWords(if p.Word? then Lookup([r], p.text) else [p], rules)
         == if p.Word? then Lookup([r] + rules, p.text) else [p]
  {
    assert ([r] + rules)[1..] == rules && [r][1..] == [];
    assert [p][1..] == [];
    if p.Word? {
      if LowerText(p.text) == Key(r) {
        MapUntouched(Split(r.replacement), rules);
      } else {
        assert Lookup([r], p.text) == Lookup([], p.text) == [p];
        assert MapWords([p], rules) == Lookup(rules, p.text) + MapWords([], rules);
      }
    }
  }

  /** One pass per token, in any order of a closed list, is one simultaneous dictionary pass. */
  lemma {:induction false} FoldIsMap(ps: seq<Piece>, rules: seq<Rule>)
    requires Closed(rules)
    ensures FoldPieces(ps, rules) == MapWords(ps, rules)
    decreases |rules|
  {
    if rules == [] {
      MapNothing(ps);
    } else {
      ClosedTail(rules);
      PassIsMap(ps, rules[0]);
      FoldIsMap(Pass(ps, rules[0]), rules[1..]);
      MapTwice(ps, rules[0], rules[1..]);
      assert [rules[0]] + rules[1..] == rules;
    }
  }

  // ----- the order of the passes

  /** Entries for one word agree. */
  ghost predicate Functional(rules: seq<Rule>) {
    forall i, j | 0 <= i < |rules| && 0 <= j < |rules| && Key(rules[i]) == Key(rules[j]) ::
      rules[i].replacement == rules[j].replacement
  }

  lemma {:induction false} LookupFinds(rules: seq<Rule>, u: string, k: nat)
    requires Functional(rules) && k < |rules| && Key(rules[k]) == LowerText(u)
    ensures Lookup(rules, u) == Split(rules[k].replacement)
  {
    if Key(rules[0]) != LowerText(u) {
      assert rules[k] == rules[1..][k - 1];
      LookupFinds(rules[1..], u, k - 1);
    }
  }

  lemma {:induction false} SameEntriesSameMap(ps: seq<Piece>, a: seq<Rule>, b: seq<Rule>)
    requires Functional(a) && Functional(b) && forall r :: r in a <==> r in b
    ensures MapWords(ps, a) == MapWords(ps, b)
  {
    if ps != [] {
      SameEntriesSameMap(ps[1..], a, b);
      if ps[0].Word? { SameEntriesSameLookup(a, b, ps[0].text); }
    }
  }

  lemma SameEntriesSameLookup(a: seq<Rule>, b: seq<Rule>, u: string)
    requires Functional(a) && Functional(b) && forall r :: r in a <==> r in b
    ensures Lookup(a, u) == Lookup(b, u)
  {
    if k :| 0 <= k < |a| && Key(a[k]) == LowerText(u) {
      assert a[k] in b;
      var j :| 0 <= j < |b| && b[j] == a[k];
      LookupFinds(a, u, k);
      LookupFinds(b, u, j);
    } else {
      forall j | 0 <= j < |b| ensures Key(b[j]) != LowerText(u) { assert b[j] in a; }
      LookupMisses(a, u);
      LookupMisses(b, u);
    }
  }

  lemma TokensClosed(rules: seq<Rule>)
    requires forall r | r in rules :: r in TOKENS
    ensures Closed(rules) && Functional(rules)
  {
    TokensOk();
    TokensFunctional();
    forall i | 0 <= i < |rules| ensures |rules[i].words| == 1 && !rules[i].plural
      && Untouched(Split(rules[i].replacement), rules)
    {
      assert rules[i] in TOKENS && TokenOk(rules[i]);
      forall k | 0 <= k < |rules| ensures Key(rules[k]) !in WordsOf(Split(rules[i].replacement)) {
        assert rules[k] in TOKENS && TokenOk(rules[k]);
      }
    }
    forall i, j | 0 <= i < |rules| && 0 <= j < |rules| && Key(rules[i]) == Key(rules[j])
      ensures rules[i].replacement == rules[j].replacement
    {
      assert rules[i] in TOKENS && rules[j] in TOKENS;
      var k :| 0 <= k < |TOKENS| && TOKENS[k] == rules[i];
      var l :| 0 <= l < |TOKENS| && TOKENS[l] == rules[j];
    }
  }

  lemma TokensFunctional()
    ensures forall i, j | 0 <= i < |TOKENS| && 0 <= j < |TOKENS| && Key(TOKENS[i]) == Key(TOKENS[j]) :: i == j
  {
    forall i, j | 0 <= i < |TOKENS| && 0 <= j < |TOKENS| && Key(TOKENS[i]) == Key(TOKENS[j])
      ensures i == j
    {
      TokenRank(i);
      TokenRank(j);
    }
  }

  /** The position of a token in the table, read off the token. */
  function Rank(key: string): int {
    if key == "ai" then 0 else if key == "workflow" then 1 else if key == "rule" then 2 else if key == "rules" then 3
    else if key == "axis" then 4 else if key == "sales" then 5 else if key == "sale" then 6
    else if key == "support" then 7 else if key == "automation" then 8 else if key == "segments" then 9
    else if key == "segment" then 10 else if key == "kanban" then 11 else if key == "transcript" then 12
    else if key == "transcripts" then 13 else if key == "resolver" then 14 else if key == "debug" then 15
    else if key == "commission" then 16 else -1
  }

  lemma TokenRank(i: nat)
    requires i < |TOKENS|
    ensures Rank(Key(TOKENS[i])) == i
  {
    KeysOfA();
    KeysOfB();
    if i < 9 { assert TOKENS[i] == TOKENS_A[i]; } else { assert TOKENS[i] == TOKENS_B[i - 9]; }
  }

  // ----- no forbidden word survives

  /** `t` stands in `s` as a whole word, in any letter case. */
  ghost predicate Occurs(s: string, t: string) {
    exists i, j | 0 <= i <= j <= |s| :: OccursAt(s, t, i, j)
  }

  ghost predicate OccursAt(s: string, t: string, i: nat, j: nat)
    requires i <= j <= |s|
  {
    (i == 0 || !IsAlnum(s[i - 1])) && Boundary(s, j) && Is(s[i..j], t)
  }

  lemma {:induction false} OccurrenceIsWord(s: string, t: string, i: nat, j: nat)
    requires i <= j <= |s| && t != "" && AllAlnum(t) && OccursAt(s, t, i, j)
    ensures LowerText(t) in WordsOf(Split(s))
    decreases |s|
  {
    IsKeepsAlnum(s[i..j], t);
    assert IsAlnum(s[i..j][0]);
    if IsAlnum(s[0]) {
      var n := WordLength(s);
      if i == 0 {
        OccurrenceAtStart(s, t, j);
      } else {
        OccurrenceAfterWord(s, t, i, j);
        Shift(s, t, i, j, n);
        OccurrenceIsWord(s[n..], t, i - n, j - n);
        LaterWord(s, n, LowerText(t));
      }
    } else {
      Shift(s, t, i, j, 1);
      OccurrenceIsWord(s[1..], t, i - 1, j - 1);
      LaterWord(s, 1, LowerText(t));
    }
  }

  /** An occurrence that is not the first word starts after it and a delimiter. */
  lemma OccurrenceAfterWord(s: string, t: string, i: nat, j: nat)
    requires 0 < i <= j <= |s| && t != "" && AllAlnum(t) && OccursAt(s, t, i, j)
    ensures i > WordLength(s)
  {
    var n := WordLength(s);
    IsKeepsAlnum(s[i..j], t);
    assert IsAlnum(s[i..j][0]);
    assert forall k | 0 <= k < n :: s[..n][k] == s[k];
  }

  lemma FirstWordIsWord(u: string, rest: string)
    requires u != "" && AllAlnum(u) && (rest != "" ==> !IsAlnum(rest[0]))
    ensures LowerText(u) in WordsOf(Split(u + rest))
  {
    SplitWord(u, rest);
    assert ([Word(u)] + Split(rest))[1..] == Split(rest);
    assert WordsOf([Word(u)] + Split(rest))[0] == LowerText(u);
  }

  lemma FirstWordIs(s: string, u: string, rest: string, t: string)
    requires s == u + rest && (rest == "" || !IsAlnum(rest[0]))
    requires Is(u, t) && t != "" && AllAlnum(t)
    ensures LowerText(t) in WordsOf(Split(s))
  {
    IsKeepsAlnum(u, t);
    FirstWordIsWord(u, rest);
  }

  lemma BoundaryRest(s: string, j: nat)
    requires j <= |s| && Boundary(s, j)
    ensures s == s[0..j] + s[j..] && (s[j..] == "" || !IsAlnum(s[j..][0]))
  {}

  lemma OccurrenceAtStart(s: string, t: string, j: nat)
    requires j <= |s| && t != "" && AllAlnum(t) && OccursAt(s, t, 0, j)
    ensures LowerText(t) in WordsOf(Split(s))
  {
    BoundaryRest(s, j);
    FirstWordIs(s, s[0..j], s[j..], t);
  }

  /** A word after the first piece is a word of the text. */
  lemma LaterWord(s: string, n: nat, w: string)
    requires s != "" && n == (if IsAlnum(s[0]) then WordLength(s) else 1) && w in WordsOf(Split(s[n..]))
    ensures w in WordsOf(Split(s))
  {
    assert Split(s)[1..] == Split(s[n..]);
  }

  lemma Shift(s: string, t: string, i: nat, j: nat, n: nat)
    requires i <= j <= |s| && n <= i && OccursAt(s, t, i, j)
    ensures OccursAt(s[n..], t, i - n, j - n)
  {
    assert s[n..][i - n..j - n] == s[i..j];
  }

  lemma {:induction false} MapRemoves(ps: seq<Piece>, rules: seq<Rule>, key: string)
    requires Closed(rules) && exists k :: 0 <= k < |rules| && Key(rules[k]) == key
    ensures key !in WordsOf(MapWords(ps, rules))
  {
    if ps != [] {
      var head := if ps[0].Word? then Lookup(rules, ps[0].text) else [ps[0]];
      if ps[0].Word? { LookupRemoves(rules, rules, ps[0].text, key); } else { assert WordsOf([ps[0]]) == []; }
      MapRemoves(ps[1..], rules, key);
      WordsConcat(head, MapWords(ps[1..], rules));
    }
  }

  lemma {:induction false} LookupRemoves(all: seq<Rule>, rules: seq<Rule>, u: string, key: string)
    requires Closed(all) && (forall r | r in rules :: r in all)
    requires exists k :: 0 <= k < |all| && Key(all[k]) == key
    requires LowerText(u) == key ==> exists k :: 0 <= k < |rules| && Key(rules[k]) == key
    ensures key !in WordsOf(Lookup(rules, u))
    decreases |rules|
  {
    if rules == [] {
      assert [Word(u)][1..] == [];
      assert WordsOf([Word(u)]) == [LowerText(u)] + WordsOf([]) == [LowerText(u)];
    } else if LowerText(u) == Key(rules[0]) {
      assert rules[0] in all;
      var i :| 0 <= i < |all| && all[i] == rules[0];
      assert Untouched(Split(all[i].replacement), all);
    } else {
      if LowerText(u) == key {
        var k :| 0 <= k < |rules| && Key(rules[k]) == key;
        assert Key(rules[1..][k - 1]) == key;
      }
      LookupRemoves(all, rules[1..], u, key);
    }
  }

  ghost predicate NoForbidden(ps: seq<Piece>) {
    forall k | 0 <= k < |WordsOf(ps)| :: WordsOf(ps)[k] !in FORBIDDEN
  }

  /** The tokens of a closed table that has a rule for every forbidden word, and rules for no other. */
  ghost predicate Purging(tokens: seq<Rule>) {
    && Closed(tokens)
    && (forall k | 0 <= k < |tokens| :: Key(tokens[k]) in FORBIDDEN)
    && (forall w | w in FORBIDDEN :: exists k :: 0 <= k < |tokens| && Key(tokens[k]) == w)
  }

  lemma TokensPurge()
    ensures Purging(TOKENS)
  {
    TokensClosed(TOKENS);
    TokensOk();
    forall k | 0 <= k < |TOKENS| ensures Key(TOKENS[k]) in FORBIDDEN {
      assert TOKENS[k] in TOKENS && TokenOk(TOKENS[k]);
    }
    forall w | w in FORBIDDEN ensures exists k :: 0 <= k < |TOKENS| && Key(TOKENS[k]) == w {
      ForbiddenHasRule(w);
    }
  }

  lemma {:induction false} RewriteHasNoForbidden(raw: string, phrases: seq<Rule>, tokens: seq<Rule>)
    requires Purging(tokens)
    ensures NoForbidden(Split(Rewrite(raw, phrases, tokens)))
  {
    RewriteIsPieces(raw, phrases, tokens);
    var phrased := FoldPieces(Split(raw), phrases);
    FoldIsMap(phrased, tokens);
    TidyWords(FoldPieces(phrased, tokens));
    forall w | w in FORBIDDEN ensures w !in WordsOf(MapWords(phrased, tokens)) {
      MapRemoves(phrased, tokens, w);
    }
  }

  /** For every input, none of the 17 tokens stands in the output as a whole word, in any letter case, despite
      the later passes and the white-space clean-up. */
  lemma {:induction false} OutputIsStaffSafe(value: Option<string>, t: string)
    requires t != "" && AllAlnum(t) && LowerText(t) in FORBIDDEN
    ensures !Occurs(StaffSafeDisplayText(value), t)
  {
    var raw := if value.Some? then value.value else "";
    var s := Safe(raw);
    TokensPurge();
    RewriteHasNoForbidden(raw, PHRASES, TOKENS);
    if i, j :| 0 <= i <= j <= |s| && OccursAt(s, t, i, j) {
      OccurrenceIsWord(s, t, i, j);
    }
  }
}
