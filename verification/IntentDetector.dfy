/**
 The operational-intent detector: whole-word keyword search over a registry, first match wins.
 */
module IntentDetector {
  import opened Text
  import opened IntentText

  datatype Entry = Entry(value: string, keywords: seq<string>)

  const NO_ACTION := "no_action"

  // ----- whole-word occurrence

  /** A word character of `\b` (section 22.2.2.4 of ECMA-262), without the `i` and `u` flags. */
  predicate IsWordChar(c: char) { IsAlnum(c) || c == '_' }

  predicate WordAt(s: string, i: int) { 0 <= i < |s| && IsWordChar(s[i]) }

  /** `\b` at position `i`. */
  predicate Break(s: string, i: int) { WordAt(s, i - 1) != WordAt(s, i) }

  predicate MatchAt(text: string, k: string, i: nat) {
    i + |k| <= |text| && text[i..i + |k|] == k && Break(text, i) && Break(text, i + |k|)
  }

  /** `new RegExp('\\b' + escaped + '\\b').test(text)`: some position matches. */
  predicate Contains(text: string, k: string) {
    exists i | 0 <= i <= |text| :: MatchAt(text, k, i)
  }

  /** `workflowHumanTextHasKeyword`, `text` being normalised already. */
  predicate HasKeyword(text: string, keyword: string) {
    Normalize(keyword) != "" && Contains(text, Normalize(keyword))
  }

  // ----- detection

  predicate Matches(text: string, e: Entry) {
    e.value != NO_ACTION && exists k | 0 <= k < |e.keywords| :: HasKeyword(text, e.keywords[k])
  }

  /** Index of the first matching entry, or the length of the registry. */
  function Find(registry: seq<Entry>, text: string): (n: nat)
    ensures n <= |registry|
    ensures n < |registry| ==> Matches(text, registry[n])
    ensures forall i | 0 <= i < n :: !Matches(text, registry[i])
  {
    if registry == [] then 0
    else if Matches(text, registry[0]) then 0
    else
      var n := Find(registry[1..], text);
      assert forall i | 0 < i < n + 1 :: registry[i] == registry[1..][i - 1];
      1 + n
  }

  /** `detectOperationalIntentFromText`. */
  function Detect(registry: seq<Entry>, value: string): string {
    var n := Find(registry, Normalize(value));
    if n < |registry| then registry[n].value else NO_ACTION
  }

  /** Detection is decided by the normalised text alone. */
  lemma DetectNormalized(registry: seq<Entry>, value: string)
    ensures Detect(registry, Normalize(value)) == Detect(registry, value)
  {
    FixedIffCanonical(value);
  }

  // ----- the order of the registry is a priority

  /** Values are distinct and `no_action` comes last. */
  ghost predicate Ranked(registry: seq<Entry>) {
    && registry != [] && registry[|registry| - 1].value == NO_ACTION
    && forall i, j | 0 <= i < j < |registry| :: registry[i].value != registry[j].value
  }

  function Rank(registry: seq<Entry>, value: string): nat {
    if registry == [] || registry[0].value == value then 0 else 1 + Rank(registry[1..], value)
  }

  lemma {:induction false} RankAt(registry: seq<Entry>, n: nat)
    requires Ranked(registry) && n < |registry|
    ensures Rank(registry, registry[n].value) == n
  {
    if n > 0 {
      assert registry[n] == registry[1..][n - 1];
      assert Ranked(registry[1..]) by {
        assert forall i | 0 <= i < |registry[1..]| :: registry[1..][i] == registry[i + 1];
      }
      RankAt(registry[1..], n - 1);
    }
  }

  // ----- adding text

  lemma BreakLeft(x: string, y: string, i: int)
    requires i <= |x|
    ensures Break(x + " " + y, i) == Break(x, i)
  {
    var s := x + " " + y;
    assert forall k | 0 <= k < |x| :: s[k] == x[k];
    assert s[|x|] == ' ';
  }

  lemma BreakRight(x: string, y: string, i: int)
    requires 0 <= i
    ensures Break(x + " " + y, |x| + 1 + i) == Break(y, i)
  {
    var s, n := x + " " + y, |x| + 1;
    assert s[|x|] == ' ';
    assert forall k | 0 <= k < |y| :: s[n + k] == y[k];
  }

  lemma MatchLeft(x: string, y: string, k: string, i: nat)
    requires MatchAt(x, k, i)
    ensures MatchAt(x + " " + y, k, i)
  {
    BreakLeft(x, y, i);
    BreakLeft(x, y, i + |k|);
    assert (x + " " + y)[i..i + |k|] == x[i..i + |k|];
  }

  lemma MatchRight(x: string, y: string, k: string, i: nat)
    requires MatchAt(y, k, i)
    ensures MatchAt(x + " " + y, k, |x| + 1 + i)
  {
    var n := |x| + 1;
    BreakRight(x, y, i);
    BreakRight(x, y, i + |k|);
    assert (x + " " + y)[n + i..n + i + |k|] == y[i..i + |k|];
  }

  /** A match survives text put before or after, a space away. */
  lemma ContainsBeside(x: string, y: string, k: string)
    requires Contains(x, k) || Contains(y, k)
    ensures Contains(x + " " + y, k)
  {
    if i :| 0 <= i <= |x| && MatchAt(x, k, i) {
      MatchLeft(x, y, k, i);
    } else {
      var i :| 0 <= i <= |y| && MatchAt(y, k, i);
      MatchRight(x, y, k, i);
    }
  }

  lemma ContainsInBeside(x: string, y: string, k: string)
    requires k != "" && (Contains(x, k) || Contains(y, k))
    ensures Contains(Beside(x, y), k)
  {
    assert forall i :: !MatchAt("", k, i);
    if x != "" && y != "" { ContainsBeside(x, y, k); }
  }

  lemma HasKeywordBeside(x: string, y: string, keyword: string)
    requires HasKeyword(x, keyword) || HasKeyword(y, keyword)
    ensures HasKeyword(Beside(x, y), keyword)
  {
    ContainsInBeside(x, y, Normalize(keyword));
  }

  lemma MatchesBeside(x: string, y: string, e: Entry)
    requires Matches(x, e) || Matches(y, e)
    ensures Matches(Beside(x, y), e)
  {
    var k :| 0 <= k < |e.keywords| && (HasKeyword(x, e.keywords[k]) || HasKeyword(y, e.keywords[k]));
    HasKeywordBeside(x, y, e.keywords[k]);
  }

  /** On normalised texts: the first match in two texts side by side is no later than in either. */
  lemma {:induction false} FindBeside(registry: seq<Entry>, x: string, y: string)
    ensures Find(registry, Beside(x, y)) <= Find(registry, x)
    ensures Find(registry, Beside(x, y)) <= Find(registry, y)
  {
    var n := Find(registry, Beside(x, y));
    forall i | 0 <= i < n ensures !Matches(x, registry[i]) && !Matches(y, registry[i]) {
      if Matches(x, registry[i]) || Matches(y, registry[i]) { MatchesBeside(x, y, registry[i]); }
    }
  }

  /** The rank of the detected intent is the index of the first match, or that of `no_action`. */
  lemma RankOfDetected(registry: seq<Entry>, value: string)
    requires Ranked(registry)
    ensures var n := Find(registry, Normalize(value));
            Rank(registry, Detect(registry, value)) == if n < |registry| then n else |registry| - 1
  {
    var n := Find(registry, Normalize(value));
    RankAt(registry, if n < |registry| then n else |registry| - 1);
  }

  /** Adding text never lowers priority: the intent detected in `a + " " + b` ranks at or before those detected
      in `a` and in `b`. */
  lemma {:induction false} AddingTextNeverLowersPriority(registry: seq<Entry>, a: string, b: string)
    requires Ranked(registry)
    ensures Rank(registry, Detect(registry, a + " " + b)) <= Rank(registry, Detect(registry, a))
    ensures Rank(registry, Detect(registry, a + " " + b)) <= Rank(registry, Detect(registry, b))
  {
    NormalizeDistributes(a, b);
    FindBeside(registry, Normalize(a), Normalize(b));
    RankOfDetected(registry, a);
    RankOfDetected(registry, b);
    RankOfDetected(registry, a + " " + b);
  }

  // ----- overlapping keywords

  lemma MatchInMatch(text: string, k2: string, k1: string, i: nat, j: nat)
    requires MatchAt(text, k2, i) && MatchAt(k2, k1, j)
    ensures MatchAt(text, k1, i + j)
  {
    SliceOfSlice(text, i, |k2|, j, |k1|);
    BreakInside(text, k2, i, j);
    BreakInside(text, k2, i, j + |k1|);
  }

  /** A whole-word part of a whole-word part is a whole-word part. */
  lemma {:induction false} ContainsTransitive(text: string, k2: string, k1: string)
    requires Contains(text, k2) && Contains(k2, k1)
    ensures Contains(text, k1)
  {
    var i :| 0 <= i <= |text| && MatchAt(text, k2, i);
    var j :| 0 <= j <= |k2| && MatchAt(k2, k1, j);
    MatchInMatch(text, k2, k1, i, j);
  }

  lemma SliceOfSlice(s: string, i: nat, n: nat, j: nat, m: nat)
    requires i + n <= |s| && j + m <= n
    ensures s[i..i + n][j..j + m] == s[i + j..i + j + m]
  {
    var part := s[i..i + n];
    var inner := part[j..j + m];
    assert forall k | 0 <= k < m :: inner[k] == s[i + j + k];
  }

  lemma BreakInside(text: string, k: string, i: nat, j: nat)
    requires MatchAt(text, k, i) && j <= |k| && Break(k, j)
    ensures Break(text, i + j)
  {
    assert forall m | 0 <= m < |k| :: text[i + m] == text[i..i + |k|][m] == k[m];
  }

  /** If `k1` is a whole-word sub-phrase of `k2`, every text with `k2` has `k1`. */
  lemma SubPhrase(text: string, k2: string, k1: string)
    requires HasKeyword(Normalize(k2), k1) && HasKeyword(text, k2)
    ensures HasKeyword(text, k1)
  {
    ContainsTransitive(text, Normalize(k2), Normalize(k1));
  }

  function Drop(ks: seq<string>, m: nat): seq<string>
    requires m < |ks|
  {
    ks[..m] + ks[m + 1..]
  }

  function Without(e: Entry, m: nat): Entry
    requires m < |e.keywords|
  {
    Entry(e.value, Drop(e.keywords, m))
  }

  /** Keyword `m` of entry `j` never decides anything: keyword `n` of an earlier entry, or another of the same
      entry, occurs in it as whole words. */
  ghost predicate Shadowed(registry: seq<Entry>, j: nat, m: nat, i: nat, n: nat)
    requires j < |registry| && m < |registry[j].keywords|
  {
    && i <= j && n < |registry[i].keywords| && (i == j ==> n != m)
    && registry[i].value != NO_ACTION
    && HasKeyword(Normalize(registry[j].keywords[m]), registry[i].keywords[n])
  }

  lemma AnyWithout(ks: seq<string>, m: nat, p: string -> bool)
    requires m < |ks|
    ensures (exists k :: 0 <= k < |ks| && p(ks[k])) <==>
            p(ks[m]) || exists k :: 0 <= k < |Drop(ks, m)| && p(Drop(ks, m)[k])
  {
    var rest := Drop(ks, m);
    assert forall k | 0 <= k < |rest| :: rest[k] == ks[if k < m then k else k + 1];
    if k :| 0 <= k < |ks| && p(ks[k]) && !p(ks[m]) {
      assert rest[if k < m then k else k - 1] == ks[k];
    }
  }

  function Hits(text: string): string -> bool {
    k => HasKeyword(text, k)
  }

  lemma MatchesIsAny(text: string, e: Entry)
    ensures Matches(text, e) <==>
            e.value != NO_ACTION && exists k :: 0 <= k < |e.keywords| && Hits(text)(e.keywords[k])
  {
    assert forall k | 0 <= k < |e.keywords| :: Hits(text)(e.keywords[k]) == HasKeyword(text, e.keywords[k]);
  }

  lemma WithoutMatches(text: string, e: Entry, m: nat)
    requires m < |e.keywords|
    ensures Matches(text, e) <==>
            Matches(text, Without(e, m)) || (e.value != NO_ACTION && HasKeyword(text, e.keywords[m]))
  {
    MatchesIsAny(text, e);
    MatchesIsAny(text, Without(e, m));
    AnyWithout(e.keywords, m, Hits(text));
  }

  lemma {:induction false} FindIs(registry: seq<Entry>, text: string, n: nat)
    requires n <= |registry| && (n < |registry| ==> Matches(text, registry[n]))
    requires forall i | 0 <= i < n :: !Matches(text, registry[i])
    ensures Find(registry, text) == n
  {}

  lemma ShadowMatches(registry: seq<Entry>, j: nat, m: nat, i: nat, n: nat, text: string)
    requires j < |registry| && m < |registry[j].keywords| && Shadowed(registry, j, m, i, n)
    requires HasKeyword(text, registry[j].keywords[m])
    ensures Matches(text, if i == j then Without(registry[j], m) else registry[i])
  {
    SubPhrase(text, registry[j].keywords[m], registry[i].keywords[n]);
    if i == j {
      var ks := Without(registry[j], m).keywords;
      assert ks[if n < m then n else n - 1] == registry[j].keywords[n];
    }
  }

  /** Deleting a shadowed keyword changes no first match. */
  lemma {:induction false} ShadowedKeywordIsNeverFirst(
    registry: seq<Entry>, j: nat, m: nat, i: nat, n: nat, text: string)
    requires j < |registry| && m < |registry[j].keywords| && Shadowed(registry, j, m, i, n)
    ensures Find(registry[j := Without(registry[j], m)], text) == Find(registry, text)
  {
    var other := registry[j := Without(registry[j], m)];
    var f := Find(registry, text);
    WithoutMatches(text, registry[j], m);
    if HasKeyword(text, registry[j].keywords[m]) { ShadowMatches(registry, j, m, i, n, text); }
    forall t | 0 <= t < f ensures !Matches(text, other[t]) {
      if t != j { assert other[t] == registry[t]; }
    }
    FindIs(other, text, f);
  }

  /** Entry order decides overlaps: a shadowed keyword can be deleted without changing what any text is
      detected as. */
  lemma {:induction false} ShadowedKeywordIsDead(registry: seq<Entry>, j: nat, m: nat, i: nat, n: nat, value: string)
    requires j < |registry| && m < |registry[j].keywords| && Shadowed(registry, j, m, i, n)
    ensures Detect(registry[j := Without(registry[j], m)], value) == Detect(registry, value)
  {
    ShadowedKeywordIsNeverFirst(registry, j, m, i, n, Normalize(value));
  }

  /** `\b` can stand at both ends of the normalised keyword. */
  predicate Bounded(k: string) { k != "" && IsWordChar(k[0]) && IsWordChar(k[|k| - 1]) }

  /** A keyword between word breaks is found in itself. */
  lemma BoundedContainsItself(k: string)
    requires Bounded(k)
    ensures Contains(k, k)
  {
    assert k[0..0 + |k|] == k;
    assert MatchAt(k, k, 0);
  }

  ghost predicate SomeShadow(registry: seq<Entry>, j: nat, m: nat)
    requires j < |registry| && m < |registry[j].keywords|
  {
    exists i: nat, n: nat :: i < |registry| && Shadowed(registry, j, m, i, n)
  }

  lemma MatchingKeyword(text: string, e: Entry) returns (k: nat)
    requires Matches(text, e)
    ensures e.value != NO_ACTION && k < |e.keywords| && HasKeyword(text, e.keywords[k])
  {
    k :| 0 <= k < |e.keywords| && HasKeyword(text, e.keywords[k]);
  }

  lemma ShadowExists(registry: seq<Entry>, j: nat, m: nat, i: nat, n: nat)
    requires j < |registry| && m < |registry[j].keywords| && Shadowed(registry, j, m, i, n)
    ensures SomeShadow(registry, j, m)
  {}

  // In the keyword's own text every other match is a shadow.

  lemma EarlierShadow(registry: seq<Entry>, j: nat, m: nat, i: nat)
    requires i < j < |registry| && m < |registry[j].keywords|
    requires Matches(Normalize(registry[j].keywords[m]), registry[i])
    ensures SomeShadow(registry, j, m)
  {
    var n := MatchingKeyword(Normalize(registry[j].keywords[m]), registry[i]);
    ShadowExists(registry, j, m, i, n);
  }

  lemma OwnShadow(registry: seq<Entry>, j: nat, m: nat)
    requires j < |registry| && m < |registry[j].keywords|
    requires Matches(Normalize(registry[j].keywords[m]), Without(registry[j], m))
    ensures SomeShadow(registry, j, m)
  {
    var k := MatchingKeyword(Normalize(registry[j].keywords[m]), Without(registry[j], m));
    var n := if k < m then k else k + 1;
    assert registry[j].keywords[n] == Without(registry[j], m).keywords[k];
    ShadowExists(registry, j, m, j, n);
  }

  /** Without a shadow the keyword decides its own text. */
  lemma UnshadowedDecides(registry: seq<Entry>, j: nat, m: nat)
    requires Ranked(registry) && j < |registry| && m < |registry[j].keywords| && registry[j].value != NO_ACTION
    requires Bounded(Normalize(registry[j].keywords[m])) && !SomeShadow(registry, j, m)
    ensures var value := registry[j].keywords[m];
            Detect(registry[j := Without(registry[j], m)], value) != Detect(registry, value)
  {
    var value := registry[j].keywords[m];
    var text, other := Normalize(value), registry[j := Without(registry[j], m)];
    BoundedContainsItself(text);
    assert HasKeyword(text, registry[j].keywords[m]);
    forall i | 0 <= i <= j ensures !Matches(text, other[i]) && (i < j ==> !Matches(text, registry[i])) {
      if Matches(text, other[i]) {
        if i < j { EarlierShadow(registry, j, m, i); } else { OwnShadow(registry, j, m); }
      }
    }
    FindIs(registry, text, j);
    assert Find(other, text) > j;
    assert forall i | j < i < |registry| :: other[i] == registry[i];
  }

  /** Exactly the shadowed keywords decide nothing: in a ranked registry a keyword of an entry other than `no_action`
      can be deleted without changing any detection if and only if a keyword of an earlier entry, or another of its
      own, stands in it as whole words. */
  lemma {:induction false} KeywordIsDeadIff(registry: seq<Entry>, j: nat, m: nat)
    requires Ranked(registry) && j < |registry| && m < |registry[j].keywords| && registry[j].value != NO_ACTION
    requires Bounded(Normalize(registry[j].keywords[m]))
    ensures (forall value :: Detect(registry[j := Without(registry[j], m)], value) == Detect(registry, value))
            <==> SomeShadow(registry, j, m)
  {
    if SomeShadow(registry, j, m) {
      var i: nat, n: nat :| i < |registry| && Shadowed(registry, j, m, i, n);
      forall value: string
        ensures Detect(registry[j := Without(registry[j], m)], value) == Detect(registry, value)
      {
        ShadowedKeywordIsDead(registry, j, m, i, n, value);
      }
    } else {
      UnshadowedDecides(registry, j, m);
    }
  }
}
