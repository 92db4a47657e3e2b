/**
 The text normaliser of the intent detector: lower case, dotless i, canonical decomposition, marks removed,
 `_` and `-` to spaces, white space tidied.
 */
module IntentText {
  import opened Text
  import opened Wrappers

  function FlatMap(s: string, f: char -> string): string {
    if s == "" then "" else f(s[0]) + FlatMap(s[1..], f)
  }

  predicate IsLatinCapital(c: char) { 0xc0 <= c as int <= 0xde && c as int != 0xd7 }

  /** `toLowerCase` on ASCII, Latin-1 and the Turkish letters; other characters are taken as caseless. */
  function LowerChar(c: char): string {
    if 'A' <= c <= 'Z' || IsLatinCapital(c) then [((c as int) + 32) as char]
    else if c == '\U{130}' then ['i', '\U{307}']
    else if c == '\U{11e}' then ['\U{11f}']
    else if c == '\U{15e}' then ['\U{15f}']
    else [c]
  }

  function Dotless(c: char): string { if c == '\U{131}' then "i" else [c] }

  /** The letter a Latin-1 or Turkish small letter decomposes to, or the character itself. */
  function Base(c: char): char {
    var n := c as int;
    if 0xe0 <= n <= 0xe5 then 'a'
    else if n == 0xe7 then 'c'
    else if 0xe8 <= n <= 0xeb then 'e'
    else if 0xec <= n <= 0xef then 'i'
    else if n == 0xf1 then 'n'
    else if 0xf2 <= n <= 0xf6 then 'o'
    else if 0xf9 <= n <= 0xfc then 'u'
    else if n == 0xfd || n == 0xff then 'y'
    else if n == 0x11f then 'g'
    else if n == 0x15f then 's'
    else c
  }

  /** The combining mark of the decomposition. */
  function MarkOf(c: char): char {
    var n := c as int;
    if n in {0xe0, 0xe8, 0xec, 0xf2, 0xf9} then '\U{300}'
    else if n in {0xe1, 0xe9, 0xed, 0xf3, 0xfa, 0xfd} then '\U{301}'
    else if n in {0xe2, 0xea, 0xee, 0xf4, 0xfb} then '\U{302}'
    else if n in {0xe3, 0xf1, 0xf5} then '\U{303}'
    else if n in {0xe4, 0xeb, 0xef, 0xf6, 0xfc, 0xff} then '\U{308}'
    else if n == 0xe5 then '\U{30a}'
    else if n == 0x11f then '\U{306}'
    else '\U{327}'
  }

  /** Canonical decomposition (NFD, UAX #15) of one character after lower-casing. */
  function Decompose(c: char): string {
    if Base(c) == c then [c] else [Base(c), MarkOf(c)]
  }

  predicate IsMark(c: char) { 0x300 <= c as int <= 0x36f }

  function StripMark(c: char): string { if IsMark(c) then "" else [c] }

  function Dash(c: char): string { if c == '_' || c == '-' then " " else [c] }

  /** The character passes, in the order of the source. */
  function Characters(s: string): string { AfterLower(FlatMap(s, LowerChar)) }

  function AfterLower(s: string): string {
    FlatMap(FlatMap(FlatMap(FlatMap(s, Dotless), Decompose), StripMark), Dash)
  }

  /** `normalizeWorkflowHumanText` on a string; `null` and `undefined` give the empty string. */
  function Normalize(s: string): string { Trim(Collapse(Characters(s))) }

  // ----- the character passes

  lemma {:induction false} FlatMapConcat(a: string, b: string, f: char -> string)
    ensures FlatMap(a + b, f) == FlatMap(a, f) + FlatMap(b, f)
  {
    if a == "" {
      assert a + b == b;
    } else {
      assert (a + b)[1..] == a[1..] + b;
      FlatMapConcat(a[1..], b, f);
    }
  }

  /** A character none of the passes changes. */
  predicate Stable(c: char) {
    LowerChar(c) == [c] && Dotless(c) == [c] && Decompose(c) == [c] && StripMark(c) == [c] && Dash(c) == [c]
  }

  predicate AllStable(s: string) { forall i | 0 <= i < |s| :: Stable(s[i]) }

  /** What the passes after lower-casing make of one character. */
  function Reduced(c: char): string {
    var b := Base(Dotless(c)[0]);
    if IsMark(b) then "" else Dash(b)
  }

  lemma PassesReduce(c: char)
    ensures AfterLower([c]) == Reduced(c)
  {
    var d := Dotless(c)[0];
    var b := Base(d);
    FlatMapOne(c, Dotless);
    FlatMapOne(d, Decompose);
    if b == d { FlatMapOne(b, StripMark); } else { FlatMapTwo(b, MarkOf(d), StripMark); }
    if !IsMark(b) { FlatMapOne(b, Dash); }
  }

  lemma ReducedStable(c: char)
    requires LowerChar(c) == [c]
    ensures AllStable(Reduced(c))
  {}

  /** The two characters of a lower-cased dotted capital I. */
  lemma DottedReduces(c: char, mark: char)
    requires c == 'i' && mark == '\U{307}'
    ensures AfterLower([c, mark]) == "i"
  {
    FlatMapTwo(c, mark, Dotless);
    assert [c] + [mark] == [c, mark];
    FlatMapTwo(c, mark, Decompose);
    FlatMapTwo(c, mark, StripMark);
    assert [c] + "" == [c];
    FlatMapOne(c, Dash);
  }

  lemma LowerTwice(c: char)
    requires c != '\U{130}'
    ensures |LowerChar(c)| == 1 && LowerChar(LowerChar(c)[0]) == LowerChar(c)
  {}

  /** The passes on a single character. */
  lemma CharacterStable(c: char)
    ensures AllStable(Characters([c]))
  {
    FlatMapOne(c, LowerChar);
    assert Characters([c]) == AfterLower(LowerChar(c));
    if c == '\U{130}' {
      DottedReduces('i', '\U{307}');
    } else {
      LowerTwice(c);
      var l := LowerChar(c)[0];
      assert LowerChar(c) == [l];
      PassesReduce(l);
      ReducedStable(l);
    }
  }

  lemma FlatMapOne(c: char, f: char -> string)
    ensures FlatMap([c], f) == f(c)
  {
    assert [c][1..] == "";
    assert FlatMap([c], f) == f(c) + FlatMap("", f);
  }

  lemma FlatMapTwo(c: char, d: char, f: char -> string)
    ensures FlatMap([c, d], f) == f(c) + f(d)
  {
    assert [c, d][1..] == [d];
    FlatMapOne(d, f);
  }

  lemma CharactersConcat(a: string, b: string)
    ensures Characters(a + b) == Characters(a) + Characters(b)
  {
    FlatMapConcat(a, b, LowerChar);
    var a1, b1 := FlatMap(a, LowerChar), FlatMap(b, LowerChar);
    FlatMapConcat(a1, b1, Dotless);
    var a2, b2 := FlatMap(a1, Dotless), FlatMap(b1, Dotless);
    FlatMapConcat(a2, b2, Decompose);
    var a3, b3 := FlatMap(a2, Decompose), FlatMap(b2, Decompose);
    FlatMapConcat(a3, b3, StripMark);
    FlatMapConcat(FlatMap(a3, StripMark), FlatMap(b3, StripMark), Dash);
  }

  lemma {:induction false} CharactersStable(s: string)
    ensures AllStable(Characters(s))
  {
    if s != "" {
      assert s == [s[0]] + s[1..];
      CharactersConcat([s[0]], s[1..]);
      CharacterStable(s[0]);
      CharactersStable(s[1..]);
    }
  }

  lemma {:induction false} FlatMapFixed(s: string, f: char -> string)
    requires forall i | 0 <= i < |s| :: f(s[i]) == [s[i]]
    ensures FlatMap(s, f) == s
  {
    if s != "" { FlatMapFixed(s[1..], f); }
  }

  lemma CharactersFixed(s: string)
    requires AllStable(s)
    ensures Characters(s) == s
  {
    FlatMapFixed(s, LowerChar);
    FlatMapFixed(s, Dotless);
    FlatMapFixed(s, Decompose);
    FlatMapFixed(s, StripMark);
    FlatMapFixed(s, Dash);
  }

  // ----- white space, as words and single spaces

  function WordRun(s: string): (n: nat)
    ensures n <= |s| && (forall k | 0 <= k < n :: !IsSpace(s[k])) && (n < |s| ==> IsSpace(s[n]))
  {
    if s != "" && !IsSpace(s[0]) then
      var n := WordRun(s[1..]);
      assert forall k | 1 <= k < n + 1 :: s[k] == s[1..][k - 1];
      1 + n
    else 0
  }

  /** The maximal runs of characters that are not white space. */
  function Fields(s: string): seq<string> {
    if s == "" then []
    else if IsSpace(s[0]) then Fields(s[1..])
    else [s[..WordRun(s)]] + Fields(s[WordRun(s)..])
  }

  function Unwords(ws: seq<string>): string {
    if ws == [] then "" else if |ws| == 1 then ws[0] else ws[0] + " " + Unwords(ws[1..])
  }

  predicate IsField(w: string) { w != "" && forall k | 0 <= k < |w| :: !IsSpace(w[k]) }

  lemma {:induction false} FieldsAreFields(s: string)
    ensures forall k | 0 <= k < |Fields(s)| :: IsField(Fields(s)[k])
  {
    if s != "" {
      if IsSpace(s[0]) { FieldsAreFields(s[1..]); } else { FieldsAreFields(s[WordRun(s)..]); }
    }
  }

  /** What collapsing and trimming the end make of a text, when its start is not at a fresh space. */
  lemma {:induction false} CollapseFields(s: string, inRun: bool)
    ensures Fields(s) == [] ==> Collapse(s, inRun) == if inRun || s == "" then "" else " "
    ensures Fields(s) != [] ==>
      TrimEnd(Collapse(s, inRun)) == (if IsSpace(s[0]) && !inRun then " " else "") + Unwords(Fields(s))
    decreases |s|
  {
    if s != "" {
      if IsSpace(s[0]) {
        CollapseFields(s[1..], true);
        SpaceThenTail(s, inRun);
      } else {
        var n := WordRun(s);
        var w, rest := s[..n], s[n..];
        assert s == w + rest;
        CollapseRun(w, rest, inRun);
        CollapseFields(rest, false);
        WordsThenTail(w, rest);
      }
    }
  }

  lemma SpaceStep(s: string, inRun: bool)
    requires s != "" && IsSpace(s[0])
    ensures Fields(s) == Fields(s[1..])
    ensures Collapse(s, inRun) == (if inRun then "" else " ") + Collapse(s[1..], true)
  {}

  lemma FieldsNotBlank(s: string)
    requires Fields(s) != []
    ensures Unwords(Fields(s)) != ""
  {
    FieldsAreFields(s);
    UnwordsNotBlank(Fields(s));
  }

  lemma SpaceThenTail(s: string, inRun: bool)
    requires s != "" && IsSpace(s[0])
    requires Fields(s[1..]) == [] ==> Collapse(s[1..], true) == ""
    requires Fields(s[1..]) != [] ==> TrimEnd(Collapse(s[1..], true)) == "" + Unwords(Fields(s[1..]))
    ensures Fields(s) == [] ==> Collapse(s, inRun) == if inRun then "" else " "
    ensures Fields(s) != [] ==> TrimEnd(Collapse(s, inRun)) == (if inRun then "" else " ") + Unwords(Fields(s))
  {
    SpaceStep(s, inRun);
    if Fields(s) != [] {
      FieldsNotBlank(s);
      GapThenTail(if inRun then "" else " ", Collapse(s[1..], true), Unwords(Fields(s)));
    }
  }

  lemma GapThenTail(gap: string, tail: string, words: string)
    requires TrimEnd(tail) == "" + words && words != ""
    ensures TrimEnd(gap + tail) == gap + words
  {
    TrimEndPrefix(gap, tail);
  }

  lemma WordsThenTail(w: string, rest: string)
    requires IsField(w) && (rest != "" ==> IsSpace(rest[0]))
    requires Fields(rest) == [] ==> Collapse(rest, false) == if rest == "" then "" else " "
    requires Fields(rest) != [] ==> TrimEnd(Collapse(rest, false)) == " " + Unwords(Fields(rest))
    ensures TrimEnd(w + Collapse(rest, false)) == Unwords([w] + Fields(rest))
  {
    var tail := Collapse(rest, false);
    if Fields(rest) == [] {
      TrimEndField(w);
      assert w + "" == w;
      if rest != "" { assert (w + " ")[..|w + " "| - 1] == w; }
    } else {
      TrimEndPrefix(w, tail);
      assert ([w] + Fields(rest))[1..] == Fields(rest);
    }
  }

  lemma UnwordsNotBlank(ws: seq<string>)
    requires ws != [] && ws[0] != ""
    ensures Unwords(ws) != ""
  {}

  lemma TrimEndField(w: string)
    requires IsField(w)
    ensures TrimEnd(w) == w
  {}

  /** Trimming the end stays inside a tail that is not all white space. */
  lemma {:induction false} TrimEndPrefix(p: string, t: string)
    requires TrimEnd(t) != ""
    ensures TrimEnd(p + t) == p + TrimEnd(t)
    decreases |t|
  {
    if IsSpace(t[|t| - 1]) {
      assert (p + t)[..|p + t| - 1] == p + t[..|t| - 1];
      TrimEndPrefix(p, t[..|t| - 1]);
    }
  }

  lemma {:induction false} CollapseSkipsStart(s: string)
    ensures TrimStart(Collapse(s, true)) == TrimStart(Collapse(s, false))
    ensures s != "" && IsSpace(s[0]) ==> TrimStart(Collapse(s, false)) == TrimStart(Collapse(s[1..], true))
  {
    if s != "" && IsSpace(s[0]) {
      var tail := Collapse(s[1..], true);
      assert Collapse(s, false) == " " + tail && (" " + tail)[1..] == tail;
      assert Collapse(s, true) == "" + tail == tail;
    }
  }

  /** Collapsing white space and trimming is joining the fields with single spaces. */
  lemma {:induction false} TidyIsUnwords(s: string)
    ensures Trim(Collapse(s)) == Unwords(Fields(s))
    decreases |s|
  {
    if s != "" {
      if IsSpace(s[0]) {
        CollapseSkipsStart(s);
        CollapseSkipsStart(s[1..]);
        TidyIsUnwords(s[1..]);
      } else {
        CollapseFields(s, false);
        assert "" + Unwords(Fields(s)) == Unwords(Fields(s));
      }
    }
  }

  lemma {:induction false} WordRunIs(w: string, rest: string)
    requires (forall k | 0 <= k < |w| :: !IsSpace(w[k])) && (rest != "" ==> IsSpace(rest[0]))
    ensures WordRun(w + rest) == |w|
  {
    if w == "" {
      assert w + rest == rest;
    } else {
      assert (w + rest)[1..] == w[1..] + rest;
      WordRunIs(w[1..], rest);
    }
  }

  lemma FieldThen(w: string, rest: string)
    requires IsField(w) && (rest != "" ==> IsSpace(rest[0]))
    ensures Fields(w + rest) == [w] + Fields(rest)
  {
    WordRunIs(w, rest);
    assert (w + rest)[..|w|] == w && (w + rest)[|w|..] == rest;
  }

  lemma FieldThenConcat(w: string, rest: string, b: string)
    requires IsField(w) && (rest != "" ==> IsSpace(rest[0]))
    requires Fields(rest + " " + b) == Fields(rest) + Fields(b)
    ensures Fields(w + rest + " " + b) == Fields(w + rest) + Fields(b)
  {
    FieldThen(w, rest);
    FieldThen(w, rest + " " + b);
    Append(w, rest, " ", b);
    Append([w], Fields(rest), Fields(b), []);
    assert Fields(b) + [] == Fields(b);
  }

  lemma {:induction false} FieldsConcat(a: string, b: string)
    ensures Fields(a + " " + b) == Fields(a) + Fields(b)
    decreases |a|
  {
    if a == "" {
      assert a + " " + b == " " + b && (" " + b)[1..] == b;
    } else if IsSpace(a[0]) {
      assert (a + " " + b)[1..] == a[1..] + " " + b;
      FieldsConcat(a[1..], b);
    } else {
      var w, rest := a[..WordRun(a)], a[WordRun(a)..];
      FieldsConcat(rest, b);
      FieldThenConcat(w, rest, b);
      assert a == w + rest;
    }
  }

  lemma FieldsOfField(w: string)
    requires IsField(w)
    ensures Fields(w) == [w]
  {
    FieldThen(w, "");
    assert w + "" == w;
  }

  // ----- what the normaliser promises

  /** No white space but single inner spaces. */
  ghost predicate SingleSpaced(s: string) {
    forall i | 0 <= i < |s| && IsSpace(s[i]) :: s[i] == ' ' && 0 < i < |s| - 1 && !IsSpace(s[i - 1])
  }

  /** No character a pass would change, no white space but single inner spaces. */
  ghost predicate CanonicalText(s: string) {
    && AllStable(s)
    && SingleSpaced(s)
  }

  lemma {:induction false} UnwordsStable(ws: seq<string>)
    requires forall k | 0 <= k < |ws| :: AllStable(ws[k])
    ensures AllStable(Unwords(ws))
  {
    if |ws| > 1 { UnwordsStable(ws[1..]); }
  }

  lemma {:induction false} FieldsStable(s: string)
    requires AllStable(s)
    ensures forall k | 0 <= k < |Fields(s)| :: AllStable(Fields(s)[k])
  {
    if s != "" {
      if IsSpace(s[0]) {
        FieldsStable(s[1..]);
      } else {
        FieldsStable(s[WordRun(s)..]);
        assert AllStable(s[..WordRun(s)]);
      }
    }
  }

  lemma {:induction false} UnwordsSpaced(ws: seq<string>)
    requires forall k | 0 <= k < |ws| :: IsField(ws[k])
    ensures var s := Unwords(ws);
            && (ws != [] ==> s != "" && !IsSpace(s[0]))
            && SingleSpaced(s)
  {
    if |ws| > 1 {
      UnwordsSpaced(ws[1..]);
      var s, n, rest := Unwords(ws), |ws[0]|, Unwords(ws[1..]);
      assert s == ws[0] + " " + rest;
      forall i | 0 <= i < |s| && IsSpace(s[i])
        ensures s[i] == ' ' && 0 < i < |s| - 1 && !IsSpace(s[i - 1])
      {
        if i > n { assert s[i] == rest[i - n - 1]; if i > n + 1 { assert s[i - 1] == rest[i - n - 2]; } }
      }
    }
  }

  lemma NormalizeIsUnwords(s: string)
    ensures Normalize(s) == Unwords(Fields(Characters(s)))
  {
    TidyIsUnwords(Characters(s));
  }

  /** The result is canonical: no upper case, no `_` or `-`, no mark, no double or outer space. */
  lemma NormalizeIsCanonical(s: string)
    ensures CanonicalText(Normalize(s))
    ensures forall i | 0 <= i < |Normalize(s)| :: var c := Normalize(s)[i];
              !('A' <= c <= 'Z') && c != '_' && c != '-' && !IsMark(c)
  {
    NormalizeIsUnwords(s);
    CharactersStable(s);
    FieldsStable(Characters(s));
    UnwordsStable(Fields(Characters(s)));
    FieldsAreFields(Characters(s));
    UnwordsSpaced(Fields(Characters(s)));
  }

  lemma {:induction false} CanonicalIsUnwords(s: string)
    requires SingleSpaced(s)
    ensures Unwords(Fields(s)) == s
    decreases |s|
  {
    if s != "" {
      var n := WordRun(s);
      assert n > 0;
      if n == |s| {
        FieldsOfField(s);
      } else {
        var rest := s[n + 1..];
        assert s == s[..n] + " " + rest;
        FieldsConcat(s[..n], rest);
        FieldsOfField(s[..n]);
        CanonicalTail(s, n);
        CanonicalIsUnwords(rest);
        assert ([s[..n]] + Fields(rest))[1..] == Fields(rest);
      }
    }
  }

  lemma CanonicalTail(s: string, n: nat)
    requires SingleSpaced(s)
    requires 0 < n < |s| && IsSpace(s[n])
    ensures s[n + 1..] != "" && !IsSpace(s[n + 1..][0]) && SingleSpaced(s[n + 1..])
  {
    var t := s[n + 1..];
    assert t[0] == s[n + 1];
    forall i | 0 <= i < |t| && IsSpace(t[i]) ensures t[i] == ' ' && 0 < i < |t| - 1 && !IsSpace(t[i - 1]) {
      assert t[i] == s[n + 1 + i];
    }
  }

  /** The canonical texts are exactly those the normaliser leaves alone, and it is idempotent. */
  lemma {:induction false} FixedIffCanonical(s: string)
    ensures Normalize(s) == s <==> CanonicalText(s)
    ensures Normalize(Normalize(s)) == Normalize(s)
  {
    forall t: string | CanonicalText(t) ensures Normalize(t) == t {
      CharactersFixed(t);
      NormalizeIsUnwords(t);
      CanonicalIsUnwords(t);
    }
    NormalizeIsCanonical(s);
  }

  /** Two normalised texts side by side. */
  function Beside(x: string, y: string): string {
    if x == "" then y else if y == "" then x else x + " " + y
  }

  predicate AllFields(ws: seq<string>) { forall k | 0 <= k < |ws| :: IsField(ws[k]) }

  lemma {:induction false} UnwordsConcat(a: seq<string>, b: seq<string>)
    requires AllFields(a) && AllFields(b)
    ensures Unwords(a + b) == Beside(Unwords(a), Unwords(b))
  {
    if a == [] {
      assert a + b == b;
    } else if b == [] {
      assert a + b == a;
    } else {
      UnwordsNotBlank(a);
      UnwordsNotBlank(b);
      if |a| > 1 {
        UnwordsNotBlank(a[1..]);
        UnwordsConcat(a[1..], b);
      }
      UnwordsStep(a, b);
    }
  }

  lemma UnwordsStep(a: seq<string>, b: seq<string>)
    requires a != [] && b != []
    requires |a| > 1 ==> Unwords(a[1..] + b) == Unwords(a[1..]) + " " + Unwords(b)
    ensures Unwords(a + b) == Unwords(a) + " " + Unwords(b)
  {
    assert (a + b)[1..] == a[1..] + b;
    if |a| == 1 {
      assert a[1..] + b == b;
    } else {
      Associate(a[0], Unwords(a[1..]), Unwords(b));
    }
  }

  lemma Associate(x: string, y: string, z: string)
    ensures x + " " + (y + " " + z) == x + " " + y + " " + z
  {}

  lemma CharactersBeside(a: string, gap: string, b: string)
    requires AllStable(gap)
    ensures Characters(a + gap + b) == Characters(a) + gap + Characters(b)
  {
    CharactersConcat(a + gap, b);
    CharactersConcat(a, gap);
    CharactersFixed(gap);
  }

  /** The normaliser distributes over a space. */
  lemma {:induction false} NormalizeDistributes(a: string, b: string)
    ensures Normalize(a + " " + b) == Beside(Normalize(a), Normalize(b))
  {
    var ca, cb := Characters(a), Characters(b);
    CharactersBeside(a, " ", b);
    FieldsConcat(ca, cb);
    TidyIsUnwords(ca);
    TidyIsUnwords(cb);
    TidyIsUnwords(ca + " " + cb);
    FieldsAreFields(ca);
    FieldsAreFields(cb);
    UnwordsConcat(Fields(ca), Fields(cb));
  }
}
