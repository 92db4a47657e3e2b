/**
 What the normaliser and the whole-word search mean, with the characters written out.
 */
module IntentReadings {
  import opened Text
  import opened IntentText
  import opened IntentDetector

  // ----- the normaliser as one table

  /** What becomes of one character. */
  function Reading(c: char): string {
    var n := c as int;
    if 'A' <= c <= 'Z' then [(n + 32) as char]
    else if c == '_' || c == '-' then " "
    else if 0x300 <= n <= 0x36f then ""
    else if 0xc0 <= n <= 0xc5 || 0xe0 <= n <= 0xe5 then "a"
    else if n == 0xc7 || n == 0xe7 then "c"
    else if 0xc8 <= n <= 0xcb || 0xe8 <= n <= 0xeb then "e"
    else if 0xcc <= n <= 0xcf || 0xec <= n <= 0xef || n == 0x130 || n == 0x131 then "i"
    else if n == 0xd1 || n == 0xf1 then "n"
    else if 0xd2 <= n <= 0xd6 || 0xf2 <= n <= 0xf6 then "o"
    else if 0xd9 <= n <= 0xdc || 0xf9 <= n <= 0xfc then "u"
    else if n == 0xdd || n == 0xfd || n == 0xff then "y"
    else if n == 0x11e || n == 0x11f then "g"
    else if n == 0x15e || n == 0x15f then "s"
    else if n == 0xc6 || n == 0xd0 || n == 0xd8 || n == 0xde then [(n + 32) as char]
    else [c]
  }

  lemma OneCharacter(c: char)
    ensures Characters([c]) == Reading(c)
  {
    FlatMapOne(c, LowerChar);
    if c == '\U{130}' {
      DottedReduces('i', '\U{307}');
    } else {
      LowerTwice(c);
      var l := LowerChar(c)[0];
      assert LowerChar(c) == [l];
      PassesReduce(l);
      LoweredReads(c);
    }
  }

  lemma LoweredReads(c: char)
    requires c != '\U{130}'
    ensures |LowerChar(c)| == 1 && Reduced(LowerChar(c)[0]) == Reading(c)
  {}

  /** The six passes over the characters are one pass of the table. */
  lemma {:induction false} CharactersAreReadings(s: string)
    ensures Characters(s) == FlatMap(s, Reading)
  {
    if s == "" {
      assert Characters(s) == "";
    } else {
      assert s == [s[0]] + s[1..];
      CharactersConcat([s[0]], s[1..]);
      OneCharacter(s[0]);
      CharactersAreReadings(s[1..]);
    }
  }

  // ----- whole words

  /** The text ends with a letter, a digit or `_`. */
  predicate WordEnds(x: string) {
    x != "" && var c := x[|x| - 1]; 'a' <= c <= 'z' || 'A' <= c <= 'Z' || '0' <= c <= '9' || c == '_'
  }

  predicate WordStarts(y: string) {
    y != "" && var c := y[0]; 'a' <= c <= 'z' || 'A' <= c <= 'Z' || '0' <= c <= '9' || c == '_'
  }

  /** `k` stands in the text, and at each of its ends exactly one side is of a word. */
  ghost predicate Stands(text: string, k: string) {
    exists x, y :: text == x + k + y && WordEnds(x) != WordStarts(k + y) && WordEnds(x + k) != WordStarts(y)
  }

  /** `k` stands in the text, and no word goes on before or behind it. */
  ghost predicate StandsAlone(text: string, k: string) {
    exists x, y :: text == x + k + y && !WordEnds(x) && !WordStarts(y)
  }

  lemma BreakBetween(s: string, x: string, y: string)
    requires s == x + y
    ensures Break(s, |x|) <==> WordEnds(x) != WordStarts(y)
  {
    if x != "" { assert s[|x| - 1] == x[|x| - 1]; }
    if y != "" { assert s[|x|] == y[0]; }
  }

  lemma MatchBetween(text: string, x: string, k: string, y: string)
    requires text == x + k + y
    ensures MatchAt(text, k, |x|)
       <==> WordEnds(x) != WordStarts(k + y) && WordEnds(x + k) != WordStarts(y)
  {
    assert text == x + (k + y);
    BreakBetween(text, x, k + y);
    BreakBetween(text, x + k, y);
    assert text[|x|..|x| + |k|] == k;
  }

  lemma ContainsStands(text: string, k: string)
    requires Contains(text, k)
    ensures Stands(text, k)
  {
    var i :| 0 <= i <= |text| && MatchAt(text, k, i);
    CutAt(text, k, i);
    StandsBy(text, text[..i], k, text[i + |k|..]);
  }

  lemma CutAt(text: string, k: string, i: nat)
    requires i + |k| <= |text| && text[i..i + |k|] == k
    ensures text == text[..i] + k + text[i + |k|..]
  {}

  lemma StandsBy(text: string, x: string, k: string, y: string)
    requires text == x + k + y && MatchAt(text, k, |x|)
    ensures Stands(text, k)
  {
    MatchBetween(text, x, k, y);
  }

  lemma StandsContains(text: string, k: string)
    requires Stands(text, k)
    ensures Contains(text, k)
  {
    var x, y :| text == x + k + y && WordEnds(x) != WordStarts(k + y) && WordEnds(x + k) != WordStarts(y);
    MatchBetween(text, x, k, y);
    assert 0 <= |x| <= |text|;
  }

  /** The search finds exactly the keywords that stand in the text. */
  lemma {:induction false} HasKeywordIff(text: string, keyword: string)
    ensures HasKeyword(text, keyword) <==> Normalize(keyword) != "" && Stands(text, Normalize(keyword))
  {
    var k := Normalize(keyword);
    if Contains(text, k) { ContainsStands(text, k); }
    if Stands(text, k) { StandsContains(text, k); }
  }

  lemma AloneBetween(x: string, k: string, y: string)
    requires WordStarts(k) && WordEnds(k)
    ensures WordStarts(k + y) && WordEnds(x + k)
  {
    assert (k + y)[0] == k[0] && (x + k)[|x + k| - 1] == k[|k| - 1];
  }

  /** A keyword that begins and ends with a letter or digit is found exactly where it stands alone. */
  lemma {:induction false} StandsAloneIff(text: string, keyword: string)
    requires WordStarts(Normalize(keyword)) && WordEnds(Normalize(keyword))
    ensures HasKeyword(text, keyword) <==> StandsAlone(text, Normalize(keyword))
  {
    var k := Normalize(keyword);
    HasKeywordIff(text, keyword);
    forall x, y ensures WordStarts(k + y) && WordEnds(x + k) { AloneBetween(x, k, y); }
    if Stands(text, k) {
      var x, y :| text == x + k + y && WordEnds(x) != WordStarts(k + y) && WordEnds(x + k) != WordStarts(y);
      assert text == x + k + y && !WordEnds(x) && !WordStarts(y);
    }
    if StandsAlone(text, k) {
      var x, y :| text == x + k + y && !WordEnds(x) && !WordStarts(y);
      assert WordEnds(x) != WordStarts(k + y) && WordEnds(x + k) != WordStarts(y);
    }
  }

  // ----- detection

  /** Some keyword of entry `i` stands in the text. */
  ghost predicate Speaks(registry: seq<Entry>, i: nat, text: string)
    requires i < |registry|
  {
    exists k :: 0 <= k < |registry[i].keywords| && Normalize(registry[i].keywords[k]) != ""
                && Stands(text, Normalize(registry[i].keywords[k]))
  }

  lemma MatchesIff(registry: seq<Entry>, i: nat, text: string)
    requires i < |registry|
    ensures Matches(text, registry[i]) <==> registry[i].value != "no_action" && Speaks(registry, i, text)
  {
    forall k | 0 <= k < |registry[i].keywords|
      ensures HasKeyword(text, registry[i].keywords[k])
         <==> Normalize(registry[i].keywords[k]) != "" && Stands(text, Normalize(registry[i].keywords[k]))
    {
      HasKeywordIff(text, registry[i].keywords[k]);
    }
  }

  lemma FirstMatchDecides(registry: seq<Entry>, value: string, i: nat)
    requires Ranked(registry) && i < |registry|
    ensures Detect(registry, value) == registry[i].value
       <==> && (i < |registry| - 1 ==> Matches(Normalize(value), registry[i]))
            && forall j | 0 <= j < i :: !Matches(Normalize(value), registry[j])
  {
    var n := Find(registry, Normalize(value));
    var last := |registry| - 1;
    if n < |registry| && n != i { assert registry[n].value != registry[i].value; }
    if i < last { assert registry[i].value != registry[last].value; }
  }

  lemma OnlyTheLastIsSilent(registry: seq<Entry>, j: nat)
    requires Ranked(registry) && j < |registry| - 1
    ensures registry[j].value != "no_action"
  {}

  /** An intent is detected exactly when a keyword of its entry stands in the normalised text and none of an earlier
      entry does, and `no_action` exactly when none of any other entry does. */
  lemma {:induction false} DetectIff(registry: seq<Entry>, value: string, i: nat)
    requires Ranked(registry) && i < |registry|
    ensures Detect(registry, value) == registry[i].value
       <==> && (i < |registry| - 1 ==> Speaks(registry, i, Normalize(value)))
            && forall j | 0 <= j < i :: !Speaks(registry, j, Normalize(value))
  {
    FirstMatchDecides(registry, value, i);
    forall j | 0 <= j <= i && j < |registry| - 1
      ensures Matches(Normalize(value), registry[j]) <==> Speaks(registry, j, Normalize(value))
    {
      MatchesIff(registry, j, Normalize(value));
      OnlyTheLastIsSilent(registry, j);
    }
  }

  /** Detection always gives the intent of an entry: the first with a keyword that stands in the text, or `no_action`,
      the last, exactly when no keyword of the others does. */
  lemma {:induction false} DetectIsFirst(registry: seq<Entry>, value: string)
    requires Ranked(registry)
    ensures var text, r, last := Normalize(value), Rank(registry, Detect(registry, value)), |registry| - 1;
      && r <= last && registry[r].value == Detect(registry, value) && registry[last].value == "no_action"
      && (r < last ==> Speaks(registry, r, text))
      && forall j | 0 <= j < r :: !Speaks(registry, j, text)
  {
    RankOfDetected(registry, value);
    DetectIff(registry, value, Rank(registry, Detect(registry, value)));
  }

  // ----- a keyword in raw text

  lemma {:induction false} CollapseConcat(a: string, b: string, inRun: bool)
    ensures Collapse(a + b, inRun)
         == Collapse(a, inRun) + Collapse(b, if a == "" then inRun else IsSpace(a[|a| - 1]))
  {
    if a == "" {
      assert a + b == b;
    } else {
      assert (a + b)[1..] == a[1..] + b && (a + b)[0] == a[0];
      if |a| > 1 { assert a[1..][|a[1..]| - 1] == a[|a| - 1]; }
      CollapseConcat(a[1..], b, IsSpace(a[0]));
      CollapseStep(a, b, inRun);
    }
  }

  lemma CollapseStep(a: string, b: string, inRun: bool)
    requires a != ""
    ensures var head := if !IsSpace(a[0]) then [a[0]] else if inRun then "" else " ";
      && Collapse(a + b, inRun) == head + Collapse((a + b)[1..], IsSpace(a[0]))
      && Collapse(a, inRun) == head + Collapse(a[1..], IsSpace(a[0]))
  {}

  /** No word character begins or ends where none did. */
  lemma {:induction false} CollapseEnds(s: string, inRun: bool)
    ensures !WordEnds(s) ==> !WordEnds(Collapse(s, inRun))
    ensures !WordStarts(s) ==> !inRun ==> !WordStarts(Collapse(s, inRun))
  {
    if s != "" {
      CollapseEnds(s[1..], IsSpace(s[0]));
      var head := if IsSpace(s[0]) then (if inRun then "" else " ") else [s[0]];
      var tail := Collapse(s[1..], IsSpace(s[0]));
      assert Collapse(s, inRun) == head + tail;
      if tail == "" { assert head + tail == head; } else { LastOf(head, tail); }
      if |s| > 1 { assert s[1..][|s[1..]| - 1] == s[|s| - 1]; }
    }
  }

  lemma {:induction false} TrimStartBefore(a: string, s: string)
    requires s != "" && !IsSpace(s[0])
    ensures TrimStart(a + s) == TrimStart(a) + s
    ensures !WordEnds(a) ==> !WordEnds(TrimStart(a))
  {
    if a == "" {
      assert a + s == s;
    } else if IsSpace(a[0]) {
      assert (a + s)[1..] == a[1..] + s;
      TrimStartBefore(a[1..], s);
    }
  }

  lemma {:induction false} TrimEndBehind(s: string, b: string)
    requires s != "" && !IsSpace(s[|s| - 1])
    ensures TrimEnd(s + b) == s + TrimEnd(b)
    ensures !WordStarts(b) ==> !WordStarts(TrimEnd(b))
    decreases |b|
  {
    if b == "" {
      assert s + b == s;
    } else if IsSpace(b[|b| - 1]) {
      assert (s + b)[..|s + b| - 1] == s + b[..|b| - 1];
      TrimEndBehind(s, b[..|b| - 1]);
    } else {
      assert (s + b)[|s + b| - 1] == b[|b| - 1];
    }
  }

  lemma LastOf(x: string, k: string)
    requires k != ""
    ensures x + k != "" && (x + k)[|x + k| - 1] == k[|k| - 1]
  {}

  lemma FirstOf(k: string, y: string)
    requires k != ""
    ensures k + y != "" && (k + y)[0] == k[0]
  {}

  lemma WordIsNoSpace(k: string)
    requires WordStarts(k) && WordEnds(k)
    ensures !IsSpace(k[0]) && !IsSpace(k[|k| - 1])
  {}

  lemma CollapseBefore(x: string, k: string)
    requires SingleSpaced(k) && k != "" && !IsSpace(k[0]) && !IsSpace(k[|k| - 1])
    ensures Collapse(x + k, false) == Collapse(x, false) + k
  {
    CollapseConcat(x, k, false);
    CollapseSingleSpaced(k, if x == "" then false else IsSpace(x[|x| - 1]));
  }

  lemma CollapseKeeps(x: string, k: string, y: string)
    requires SingleSpaced(k) && WordStarts(k) && WordEnds(k)
    ensures Collapse(x + k + y, false) == Collapse(x, false) + k + Collapse(y, false)
  {
    WordIsNoSpace(k);
    CollapseBefore(x, k);
    LastOf(x, k);
    CollapseConcat(x + k, y, false);
  }

  lemma TrimKeeps(a: string, k: string, b: string)
    requires WordStarts(k) && WordEnds(k)
    ensures Trim(a + (k + b)) == TrimStart(a) + k + TrimEnd(b)
  {
    WordIsNoSpace(k);
    FirstOf(k, b);
    TrimStartBefore(a, k + b);
    LastOf(TrimStart(a), k);
    TrimEndBehind(TrimStart(a) + k, b);
    Shift(TrimStart(a), k, b);
  }

  lemma Shift(a: string, k: string, b: string)
    ensures a + (k + b) == a + k + b
  {}

  /** Tidying the white space keeps a word of normal text where it stands alone. */
  lemma TidyKeeps(x: string, k: string, y: string)
    requires SingleSpaced(k) && WordStarts(k) && WordEnds(k) && !WordEnds(x) && !WordStarts(y)
    ensures StandsAlone(Trim(Collapse(x + k + y)), k)
  {
    CollapseKeeps(x, k, y);
    CollapseEnds(x, false);
    CollapseEnds(y, false);
    TrimKeeps(Collapse(x), k, Collapse(y));
    Shift(Collapse(x), k, Collapse(y));
    WordIsNoSpace(k);
    TrimStartBefore(Collapse(x), k);
    TrimEndBehind(k, Collapse(y));
  }

  /** Any text with a normal keyword of entry `i` in it, between characters that are not of a word, is detected as that
      intent or one that ranks earlier.  `_` and `-` count as spaces here. */
  lemma {:induction false} FoundInText(registry: seq<Entry>, i: nat, m: nat, x: string, y: string)
    requires Ranked(registry) && i < |registry| - 1 && m < |registry[i].keywords|
    requires var k := registry[i].keywords[m]; CanonicalText(k) && WordStarts(k) && WordEnds(k)
    requires !WordEnds(FlatMap(x, Reading)) && !WordStarts(FlatMap(y, Reading))
    ensures Rank(registry, Detect(registry, x + registry[i].keywords[m] + y)) <= i
  {
    var k := registry[i].keywords[m];
    var value := x + k + y;
    CharactersConcat(x + k, y);
    CharactersConcat(x, k);
    CharactersFixed(k);
    CharactersAreReadings(x);
    CharactersAreReadings(y);
    TidyKeeps(Characters(x), k, Characters(y));
    FixedIffCanonical(k);
    StandsAloneIff(Normalize(value), k);
    assert Matches(Normalize(value), registry[i]) by {
      assert registry[i].value != registry[|registry| - 1].value;
    }
    RankOfDetected(registry, value);
  }
}
