/**
 The delimited replacement of the staff-text rewriter: `(^|[^A-Za-z0-9])phrase(?=$|[^A-Za-z0-9])` with the
 flags `gi`, replaced globally.  The character scan is proved equal to a pass over words.
 */
module Delimited {
  import opened Wrappers
  import opened Text
  import opened Regex
  import opened Words

  type Alnums = w: string | w != "" && AllAlnum(w) witness "a"
  type Phrase = ws: seq<Alnums> | ws != [] witness ["a"]

  /** A phrase of one or more words joined by `[\s._-]+`; `plural` allows one `s` after the last. */
  datatype Rule = Rule(words: Phrase, plural: bool, replacement: string)

  // ----- the regular expression

  /** `(?=$|[^A-Za-z0-9])` at the end of the expression. */
  const SUFFIX := Ahead(Alt(AtEnd(Accept), One(NotAlnum, Accept)), Accept)

  function Literal(w: string, next: Pattern): Pattern {
    if w == "" then next else One(Letter(w[0]), Literal(w[1..], next))
  }

  function LastPattern(plural: bool): Pattern {
    if plural then Opt(Letter('s'), SUFFIX) else SUFFIX
  }

  function PhrasePattern(words: seq<string>, plural: bool): Pattern
    requires words != []
  {
    if |words| == 1 then Literal(words[0], LastPattern(plural))
    else Literal(words[0], Plus(Separator, PhrasePattern(words[1..], plural)))
  }

  /** `(^|[^A-Za-z0-9])` in front. */
  function DelimitedPattern(core: Pattern): Pattern {
    Alt(Start(Group(core)), One(NotAlnum, Group(core)))
  }

  /** `replaceDelimited` and, for a rule of one word, `replaceToken`. */
  function Replace(s: string, r: Rule): string
  {
    ReplaceAll(DelimitedPattern(PhrasePattern(r.words, r.plural)), r.replacement, s)
  }

  // ----- the pass over words

  predicate Is(u: string, w: string) { LowerText(u) == LowerText(w) }

  predicate LastIs(u: string, w: string, plural: bool) {
    Is(u, w) || (plural && Is(u, w + "s"))
  }

  function SkipSeparators(ps: seq<Piece>): (r: seq<Piece>)
    ensures |r| <= |ps|
  {
    if ps != [] && ps[0].Gap? && Member(Separator, ps[0].c) then SkipSeparators(ps[1..]) else ps
  }

  /** If the pieces start with the phrase, the pieces after it. */
  function AfterPhrase(ps: seq<Piece>, words: seq<string>, plural: bool): (r: Option<seq<Piece>>)
    requires words != []
    ensures r.Some? ==> |r.value| < |ps|
    decreases |words|
  {
    if ps == [] || !ps[0].Word? then None
    else if |words| == 1 then
      if LastIs(ps[0].text, words[0], plural) then Some(ps[1..]) else None
    else
      var next := SkipSeparators(ps[1..]);
      if Is(ps[0].text, words[0]) && |next| < |ps| - 1 then AfterPhrase(next, words[1..], plural) else None
  }

  /** Left to right, every occurrence of the phrase becomes the replacement; all else stays as it is. */
  function Pass(ps: seq<Piece>, r: Rule): seq<Piece>
    decreases |ps|
  {
    if ps == [] then []
    else
      match AfterPhrase(ps, r.words, r.plural)
      case Some(rest) => Split(r.replacement) + Pass(rest, r)
      case None => [ps[0]] + Pass(ps[1..], r)
  }

  // ----- the scan and the pass agree

  /** A literal is matched letter by letter, in either case. */
  lemma {:induction false} LiteralEnds(w: string, next: Pattern, s: string, i: nat, g: nat)
    requires i <= |s|
    ensures Ends(Literal(w, next), s, i, g)
         == if i + |w| <= |s| && Is(s[i..i + |w|], w) then Ends(next, s, i + |w|, g) else []
    decreases |w|
  {
    if w == "" {
      assert Is(s[i..i], w);
    } else if Has(Letter(w[0]), s, i) {
      LiteralEnds(w[1..], next, s, i + 1, g);
      if i + |w| <= |s| { IsStep(s, i, w); }
    } else if i + |w| <= |s| {
      assert LowerText(s[i..i + |w|])[0] == Lower(s[i]) && LowerText(w)[0] == Lower(w[0]);
    }
  }

  lemma IsStep(s: string, i: nat, w: string)
    requires w != "" && i + |w| <= |s| && Lower(s[i]) == Lower(w[0])
    ensures Is(s[i..i + |w|], w) <==> Is(s[i + 1..i + |w|], w[1..])
  {
    var u := s[i..i + |w|];
    assert u[1..] == s[i + 1..i + |w|];
    if Is(u[1..], w[1..]) {
      forall k | 0 <= k < |w| ensures LowerText(u)[k] == LowerText(w)[k] {
        if k > 0 { assert LowerText(u[1..])[k - 1] == LowerText(w[1..])[k - 1]; }
      }
    }
    if Is(u, w) {
      forall k | 0 <= k < |w| - 1 ensures LowerText(u[1..])[k] == LowerText(w[1..])[k] {
        assert LowerText(u)[k + 1] == LowerText(w)[k + 1];
      }
    }
  }

  lemma LowerKeepsAlnum(c: char, d: char)
    requires Lower(c) == Lower(d)
    ensures IsAlnum(c) == IsAlnum(d)
  {}

  lemma IsKeepsAlnum(u: string, w: string)
    requires Is(u, w)
    ensures |u| == |w| && (AllAlnum(w) ==> AllAlnum(u))
  {
    forall k | 0 <= k < |w| ensures IsAlnum(u[k]) == IsAlnum(w[k]) {
      assert LowerText(u)[k] == LowerText(w)[k];
      LowerKeepsAlnum(u[k], w[k]);
    }
  }

  /** A position where a word ends. */
  predicate Boundary(s: string, e: nat)
    requires e <= |s|
  {
    e == |s| || !IsAlnum(s[e])
  }

  lemma SuffixEnds(s: string, e: nat, g: nat)
    requires e <= |s|
    ensures Ends(SUFFIX, s, e, g) == if Boundary(s, e) then [Match(g, e)] else []
  {
    assert Ends(AtEnd(Accept), s, e, g) == if e == |s| then [Match(g, e)] else [];
    assert Ends(One(NotAlnum, Accept), s, e, g) == if Has(NotAlnum, s, e) then [Match(g, e + 1)] else [];
  }

  /** Where a word that may carry a plural `s` ends, when its letters have matched up to `e`. */
  function LastHit(s: string, e: nat, plural: bool): (hit: Option<nat>)
    requires e <= |s|
    ensures hit.Some? ==> e <= hit.value <= |s| && Boundary(s, hit.value)
  {
    if plural && e < |s| && Lower(s[e]) == 's' && Boundary(s, e + 1) then Some(e + 1)
    else if Boundary(s, e) then Some(e) else None
  }

  function OneOrNone(hit: Option<nat>, g: nat): seq<Match> {
    if hit.Some? then [Match(g, hit.value)] else []
  }

  lemma LastEnds(s: string, e: nat, g: nat, plural: bool)
    requires e <= |s|
    ensures Ends(LastPattern(plural), s, e, g) == OneOrNone(LastHit(s, e, plural), g)
  {
    SuffixEnds(s, e, g);
    if plural {
      if e < |s| { SuffixEnds(s, e + 1, g); }
      assert Ends(LastPattern(true), s, e, g)
          == (if Has(Letter('s'), s, e) then Ends(SUFFIX, s, e + 1, g) else []) + Ends(SUFFIX, s, e, g);
    }
  }

  /** At a position that is not inside a word, a literal of letters and digits that ends at a boundary is
      the whole word there. */
  lemma LiteralIsWord(s: string, i: nat, w: string)
    requires i + |w| <= |s| && w != "" && AllAlnum(w) && Boundary(s, i + |w|)
    ensures Is(s[i..i + |w|], w) <==>
            WordLength(s[i..]) == |w| && Is(s[i..][..WordLength(s[i..])], w)
    ensures Is(s[i..i + |w|], w) ==> Split(s[i..]) == [Word(s[i..i + |w|])] + Split(s[i + |w|..])
  {
    var u := s[i..i + |w|];
    if Is(u, w) {
      IsKeepsAlnum(u, w);
      assert s[i..] == u + s[i + |w|..];
      WordLengthIs(u, s[i + |w|..]);
      SplitWord(u, s[i + |w|..]);
      assert s[i..][..|w|] == u;
    } else if WordLength(s[i..]) == |w| {
      assert s[i..][..|w|] == u;
    }
  }

  predicate WordsOk(words: seq<string>) {
    words != [] && forall k | 0 <= k < |words| :: words[k] != "" && AllAlnum(words[k])
  }

  /** Where the run of separators from `e` ends. */
  function SeparatorsEnd(s: string, e: nat): (f: nat)
    requires e <= |s|
    ensures e <= f <= |s|
    decreases |s| - e
  {
    if e < |s| && Member(Separator, s[e]) then SeparatorsEnd(s, e + 1) else e
  }

  /** The last word of a phrase read off the text: where it ends, plural or not. */
  function LastWordHit(w: string, plural: bool, s: string, i: nat): (hit: Option<nat>)
    requires i <= |s|
    ensures hit.Some? ==> i <= hit.value <= |s| && Boundary(s, hit.value)
  {
    if i + |w| <= |s| && Is(s[i..i + |w|], w) then LastHit(s, i + |w|, plural) else None
  }

  /** The phrase read off the text without backtracking: where its occurrence at `i` ends. */
  function Hit(words: seq<string>, plural: bool, s: string, i: nat): (hit: Option<nat>)
    requires words != [] && i <= |s|
    ensures hit.Some? ==> i <= hit.value <= |s| && Boundary(s, hit.value)
    decreases |words|
  {
    var e := i + |words[0]|;
    if |words| == 1 then LastWordHit(words[0], plural, s, i)
    else if e < |s| && Is(s[i..e], words[0]) && Member(Separator, s[e]) then
      Hit(words[1..], plural, s, SeparatorsEnd(s, e))
    else None
  }

  /** What the text and its pieces must agree on at one position. */
  ghost predicate Agrees(s: string, i: nat, hit: Option<nat>, after: Option<seq<Piece>>) {
    match hit
    case None => after == None
    case Some(e) => i < e <= |s| && after == Some(Split(s[e..]))
  }

  /** The piece a text starts with, when it starts with a word. */
  lemma WordHead(s: string, i: nat)
    requires i <= |s|
    ensures i == |s| || !IsAlnum(s[i]) ==> Split(s[i..]) == [] || Split(s[i..])[0].Gap?
    ensures i < |s| && IsAlnum(s[i]) ==>
              var n := WordLength(s[i..]);
              && n > 0 && i + n <= |s| && Boundary(s, i + n)
              && Split(s[i..]) == [Word(s[i..i + n])] + Split(s[i + n..])
  {
    if i < |s| && IsAlnum(s[i]) {
      var n := WordLength(s[i..]);
      assert s[i..][..n] == s[i..i + n] && s[i..][n..] == s[i + n..];
      if n < |s[i..]| { assert s[i..][n] == s[i + n]; }
    }
  }

  lemma NoWordNoPhrase(words: seq<string>, plural: bool, s: string, i: nat)
    requires words != [] && i <= |s| && (i == |s| || !IsAlnum(s[i]))
    ensures AfterPhrase(Split(s[i..]), words, plural) == None
  {
    WordHead(s, i);
  }

  lemma LastWordAgrees(s: string, i: nat, w: string, plural: bool)
    requires i <= |s| && w != "" && AllAlnum(w)
    ensures Agrees(s, i, LastWordHit(w, plural, s, i), AfterPhrase(Split(s[i..]), [w], plural))
  {
    if LastWordHit(w, plural, s, i).Some? {
      LastWordFound(s, i, w, plural);
    } else if i < |s| && IsAlnum(s[i]) {
      LastWordMissed(s, i, w, plural);
    } else {
      NoWordNoPhrase([w], plural, s, i);
    }
  }

  lemma LastWordFound(s: string, i: nat, w: string, plural: bool)
    requires i + |w| <= |s| && w != "" && AllAlnum(w)
    requires Is(s[i..i + |w|], w) && LastHit(s, i + |w|, plural).Some?
    ensures AfterPhrase(Split(s[i..]), [w], plural) == Some(Split(s[LastHit(s, i + |w|, plural).value..]))
  {
    var e := i + |w|;
    if LastHit(s, e, plural).value == e {
      WholeWordFound(s, i, w, w, plural);
    } else {
      PluralIs(s, i, w);
      WholeWordFound(s, i, w, w + "s", plural);
    }
  }

  lemma WholeWordFound(s: string, i: nat, w: string, form: string, plural: bool)
    requires i + |form| <= |s| && form != "" && AllAlnum(form) && Boundary(s, i + |form|)
    requires Is(s[i..i + |form|], form) && (form == w || (plural && form == w + "s"))
    ensures AfterPhrase(Split(s[i..]), [w], plural) == Some(Split(s[i + |form|..]))
  {
    var f := i + |form|;
    LiteralIsWord(s, i, form);
    assert LastIs(s[i..f], w, plural);
    assert ([Word(s[i..f])] + Split(s[f..]))[1..] == Split(s[f..]);
  }

  lemma LastWordMissed(s: string, i: nat, w: string, plural: bool)
    requires i < |s| && IsAlnum(s[i]) && w != "" && AllAlnum(w)
    requires i + |w| > |s| || !Is(s[i..i + |w|], w) || LastHit(s, i + |w|, plural).None?
    ensures AfterPhrase(Split(s[i..]), [w], plural) == None
  {
    WordHead(s, i);
    var n := WordLength(s[i..]);
    if plural && Is(s[i..i + n], w + "s") {
      assert n == |w| + 1;
      PluralSplit(s, i, w);
    }
  }

  lemma PluralIs(s: string, i: nat, w: string)
    requires i + |w| < |s| && Is(s[i..i + |w|], w) && Lower(s[i + |w|]) == 's'
    ensures Is(s[i..i + |w| + 1], w + "s")
  {
    forall k | 0 <= k < |w| + 1
      ensures LowerText(s[i..i + |w| + 1])[k] == LowerText(w + "s")[k]
    {
      if k < |w| { assert LowerText(s[i..i + |w|])[k] == LowerText(w)[k]; }
    }
  }

  lemma PluralSplit(s: string, i: nat, w: string)
    requires i + |w| < |s| && Is(s[i..i + |w| + 1], w + "s")
    ensures Is(s[i..i + |w|], w) && Lower(s[i + |w|]) == 's'
  {
    var u, v := s[i..i + |w| + 1], w + "s";
    forall k | 0 <= k < |w| ensures LowerText(s[i..i + |w|])[k] == LowerText(w)[k] {
      assert LowerText(u)[k] == LowerText(v)[k];
    }
    assert LowerText(u)[|w|] == LowerText(v)[|w|];
  }

  lemma {:induction false} SkipSeparatorsIs(s: string, e: nat)
    requires e <= |s| && Boundary(s, e)
    ensures SkipSeparators(Split(s[e..])) == Split(s[SeparatorsEnd(s, e)..])
    decreases |s| - e
  {
    if e < |s| {
      assert s[e..][1..] == s[e + 1..];
      assert Split(s[e..]) == [Gap(s[e])] + Split(s[e + 1..]);
      assert Split(s[e..])[1..] == Split(s[e + 1..]);
      if Member(Separator, s[e]) {
        if e + 1 < |s| && IsAlnum(s[e + 1]) { WordHead(s, e + 1); } else { SkipSeparatorsIs(s, e + 1); }
      }
    }
  }

  lemma PhraseNeedsWord(words: seq<string>, plural: bool, s: string, i: nat, g: nat)
    requires WordsOk(words) && i <= |s| && Boundary(s, i)
    ensures Ends(PhrasePattern(words, plural), s, i, g) == []
  {
    var w := words[0];
    assert w != "" && IsAlnum(w[0]);
    if Has(Letter(w[0]), s, i) { LowerKeepsAlnum(s[i], w[0]); }
  }

  /** Of the runs a greedy `[\s._-]+` may match, only the longest can be followed by a word. */
  lemma {:induction false} SeparatorsThenPhrase(words: seq<string>, plural: bool, s: string, e: nat, g: nat)
    requires WordsOk(words) && e <= |s|
    ensures Ends(Plus(Separator, PhrasePattern(words, plural)), s, e, g)
         == if Has(Separator, s, e) then Ends(PhrasePattern(words, plural), s, SeparatorsEnd(s, e), g) else []
    decreases |s| - e
  {
    if Has(Separator, s, e) {
      SeparatorsThenPhrase(words, plural, s, e + 1, g);
      if Has(Separator, s, e + 1) { PhraseNeedsWord(words, plural, s, e + 1, g); }
    }
  }

  lemma LastWordEnds(w: string, plural: bool, s: string, i: nat, g: nat)
    requires i <= |s|
    ensures Ends(Literal(w, LastPattern(plural)), s, i, g) == OneOrNone(LastWordHit(w, plural, s, i), g)
  {
    var last := LastPattern(plural);
    if i + |w| <= |s| { LastEnds(s, i + |w|, g, plural); }
    LiteralThen(w, last, s, i, g, if i + |w| <= |s| then OneOrNone(LastHit(s, i + |w|, plural), g) else []);
  }

  lemma LiteralThen(w: string, next: Pattern, s: string, i: nat, g: nat, ends: seq<Match>)
    requires i <= |s| && (i + |w| <= |s| ==> Ends(next, s, i + |w|, g) == ends)
    ensures Ends(Literal(w, next), s, i, g) == if i + |w| <= |s| && Is(s[i..i + |w|], w) then ends else []
  {
    LiteralEnds(w, next, s, i, g);
  }

  /** The separators after a word and what must follow them. */
  function TailHit(words: seq<string>, plural: bool, s: string, e: nat): Option<nat>
    requires words != [] && e <= |s|
  {
    if Has(Separator, s, e) then Hit(words, plural, s, SeparatorsEnd(s, e)) else None
  }

  lemma {:induction false} TailEnds(words: seq<string>, plural: bool, s: string, e: nat, g: nat)
    requires WordsOk(words) && e <= |s|
    ensures Ends(Plus(Separator, PhrasePattern(words, plural)), s, e, g) == OneOrNone(TailHit(words, plural, s, e), g)
    decreases |words|, 1
  {
    SeparatorsThenPhrase(words, plural, s, e, g);
    if Has(Separator, s, e) { PhraseEnds(words, plural, s, SeparatorsEnd(s, e), g); }
  }

  lemma HeadEnds(words: seq<string>, plural: bool, next: Pattern, s: string, i: nat, g: nat)
    requires WordsOk(words) && |words| > 1 && i <= |s|
    requires var e := i + |words[0]|;
      e <= |s| ==> Ends(next, s, e, g) == OneOrNone(TailHit(words[1..], plural, s, e), g)
    ensures Ends(Literal(words[0], next), s, i, g) == OneOrNone(Hit(words, plural, s, i), g)
  {
    var e := i + |words[0]|;
    LiteralThen(words[0], next, s, i, g, if e <= |s| then OneOrNone(TailHit(words[1..], plural, s, e), g) else []);
  }

  lemma WordsTail(words: seq<string>)
    requires WordsOk(words) && |words| > 1
    ensures WordsOk(words[1..])
  {}

  /** The backtracking match of the phrase is the phrase read off the text. */
  lemma {:induction false} PhraseEnds(words: seq<string>, plural: bool, s: string, i: nat, g: nat)
    requires WordsOk(words) && i <= |s|
    ensures Ends(PhrasePattern(words, plural), s, i, g) == OneOrNone(Hit(words, plural, s, i), g)
    decreases |words|, 0
  {
    if |words| == 1 {
      LastWordEnds(words[0], plural, s, i, g);
    } else {
      WordsTail(words);
      if i + |words[0]| <= |s| { TailEnds(words[1..], plural, s, i + |words[0]|, g); }
      HeadEnds(words, plural, Plus(Separator, PhrasePattern(words[1..], plural)), s, i, g);
    }
  }

  lemma {:induction false} PhraseAgrees(words: seq<string>, plural: bool, s: string, i: nat)
    requires WordsOk(words) && i <= |s|
    ensures Agrees(s, i, Hit(words, plural, s, i), AfterPhrase(Split(s[i..]), words, plural))
    decreases |words|
  {
    var w := words[0];
    var e := i + |w|;
    if |words| == 1 {
      assert words == [w];
      LastWordAgrees(s, i, w, plural);
    } else if e < |s| && Is(s[i..e], w) && Member(Separator, s[e]) {
      FirstWordFound(words, plural, s, i);
      PhraseAgrees(words[1..], plural, s, SeparatorsEnd(s, e));
    } else {
      FirstWordMissed(words, plural, s, i);
    }
  }

  lemma FirstWordFound(words: seq<string>, plural: bool, s: string, i: nat)
    requires WordsOk(words) && |words| > 1 && i + |words[0]| < |s|
    requires Is(s[i..i + |words[0]|], words[0]) && Member(Separator, s[i + |words[0]|])
    ensures AfterPhrase(Split(s[i..]), words, plural)
         == AfterPhrase(Split(s[SeparatorsEnd(s, i + |words[0]|)..]), words[1..], plural)
  {
    var e := i + |words[0]|;
    LiteralIsWord(s, i, words[0]);
    SkipSeparatorsIs(s, e);
    assert Split(s[i..])[1..] == Split(s[e..]);
    SeparatorsShorten(s, e);
  }

  lemma FirstWordMissed(words: seq<string>, plural: bool, s: string, i: nat)
    requires WordsOk(words) && |words| > 1 && i <= |s|
    requires var e := i + |words[0]|; e >= |s| || !Is(s[i..e], words[0]) || !Member(Separator, s[e])
    ensures AfterPhrase(Split(s[i..]), words, plural) == None
  {
    WordHead(s, i);
    if i < |s| && IsAlnum(s[i]) {
      var n := WordLength(s[i..]);
      assert Split(s[i..])[1..] == Split(s[i + n..]);
      if Is(s[i..i + n], words[0]) {
        assert n == |words[0]|;
        if i + n < |s| { assert s[i + n..][0] == s[i + n]; assert Split(s[i + n..])[0] == Gap(s[i + n]); }
      }
    }
  }

  lemma SeparatorsShorten(s: string, e: nat)
    requires e < |s| && Member(Separator, s[e])
    ensures |SkipSeparators(Split(s[e..]))| < |Split(s[e..])|
  {
    assert s[e..][0] == s[e] && !IsAlnum(s[e]);
  }

  function HitOf(r: Rule, s: string, i: nat): (hit: Option<nat>)
    requires i <= |s|
    ensures hit.Some? ==> i <= hit.value <= |s| && Boundary(s, hit.value)
  {
    Hit(r.words, r.plural, s, i)
  }

  /** The pass over the text from `i` on. */
  function PassFrom(r: Rule, s: string, i: nat): string
    requires i <= |s|
  {
    Join(Pass(Split(s[i..]), r))
  }

  lemma PassAtHit(r: Rule, s: string, i: nat)
    requires i <= |s| && HitOf(r, s, i).Some?
    ensures i < HitOf(r, s, i).value
    ensures PassFrom(r, s, i) == r.replacement + PassFrom(r, s, HitOf(r, s, i).value)
  {
    PhraseAgrees(r.words, r.plural, s, i);
    var rest := Split(s[HitOf(r, s, i).value..]);
    JoinConcat(Split(r.replacement), Pass(rest, r));
    JoinSplit(r.replacement);
  }

  lemma PassKeepsHead(ps: seq<Piece>, r: Rule)
    requires ps != [] && AfterPhrase(ps, r.words, r.plural).None?
    ensures Join(Pass(ps, r)) == Show(ps[0]) + Join(Pass(ps[1..], r))
  {
    var rest := Pass(ps[1..], r);
    assert Pass(ps, r) == [ps[0]] + rest;
    assert ([ps[0]] + rest)[1..] == rest;
  }

  lemma PassAtMiss(r: Rule, s: string, i: nat)
    requires i < |s| && HitOf(r, s, i).None?
    ensures PieceEnd(s, i) <= |s| && PassFrom(r, s, i) == s[i..PieceEnd(s, i)] + PassFrom(r, s, PieceEnd(s, i))
  {
    PhraseAgrees(r.words, r.plural, s, i);
    PieceHead(s, i);
    PassKeepsHead(Split(s[i..]), r);
  }

  /** Where the piece at `i` ends. */
  function PieceEnd(s: string, i: nat): (e: nat)
    requires i < |s|
    ensures i <= e <= |s|
  {
    i + (if IsAlnum(s[i]) then WordLength(s[i..]) else 1)
  }

  lemma PieceHead(s: string, i: nat)
    requires i < |s|
    ensures i < PieceEnd(s, i) && Split(s[i..]) != []
    ensures Show(Split(s[i..])[0]) == s[i..PieceEnd(s, i)] && Split(s[i..])[1..] == Split(s[PieceEnd(s, i)..])
  {
    WordHead(s, i);
    if !IsAlnum(s[i]) {
      assert s[i..][1..] == s[i + 1..];
      assert s[i..i + 1] == [s[i]];
    }
  }

  /** No phrase begins with a character that is neither letter nor digit, or at the end. */
  lemma GapIsMiss(r: Rule, s: string, i: nat)
    requires i <= |s| && Boundary(s, i)
    ensures HitOf(r, s, i).None?
  {
    var w := r.words[0];
    assert w != "" && IsAlnum(w[0]);
    if i + |w| <= |s| {
      assert LowerText(w)[0] == Lower(w[0]) && LowerText(s[i..i + |w|])[0] == Lower(s[i]);
      if Lower(s[i]) == Lower(w[0]) { LowerKeepsAlnum(s[i], w[0]); }
    }
  }

  // The scan, for any way `hit` of finding a phrase and any text `pass` that starts it afresh.

  ghost predicate Fits(hit: nat -> Option<nat>, pass: nat -> string, replacement: string, s: string, i: nat)
    requires i <= |s|
  {
    match hit(i)
    case Some(e) => i < e <= |s| && Boundary(s, e) && !Boundary(s, i) && pass(i) == replacement + pass(e)
    case None =>
      if i == |s| then pass(i) == ""
      else i < PieceEnd(s, i) && pass(i) == s[i..PieceEnd(s, i)] + pass(PieceEnd(s, i))
  }

  ghost predicate Advances(hit: nat -> Option<nat>, s: string) {
    forall j: nat | j <= |s| :: hit(j).Some? ==> j < hit(j).value <= |s|
  }

  /** The match the scan finds at `i`, given where the core matches. */
  function FoundBy(hit: nat -> Option<nat>, s: string, i: nat): Option<Match> {
    if i == 0 && hit(0).Some? then Some(Match(0, hit(0).value))
    else if i < |s| && !IsAlnum(s[i]) && hit(i + 1).Some? then Some(Match(i + 1, hit(i + 1).value))
    else None
  }

  function FindFun(hit: nat -> Option<nat>, s: string): nat -> Option<Match> {
    (j: nat) => FoundBy(hit, s, j)
  }

  /** The scan with the core's matches given by `hit`. */
  function ScanBy(hit: nat -> Option<nat>, replacement: string, s: string, i: nat): string
    requires i <= |s| && Advances(hit, s)
  {
    ReplaceBy(FindFun(hit, s), replacement, s, i)
  }

  lemma ScanStep(hit: nat -> Option<nat>, replacement: string, s: string, i: nat)
    requires i <= |s| && Advances(hit, s)
    ensures i == 0 && hit(0).Some? ==>
      ScanBy(hit, replacement, s, 0) == replacement + ScanBy(hit, replacement, s, hit(0).value)
    ensures !(i == 0 && hit(0).Some?) && i < |s| && !IsAlnum(s[i]) && hit(i + 1).Some? ==>
      ScanBy(hit, replacement, s, i) == [s[i]] + replacement + ScanBy(hit, replacement, s, hit(i + 1).value)
    ensures !(i == 0 && hit(0).Some?) && i < |s| && (IsAlnum(s[i]) || hit(i + 1).None?) ==>
      ScanBy(hit, replacement, s, i) == [s[i]] + ScanBy(hit, replacement, s, i + 1)
    ensures !(i == 0 && hit(0).Some?) && i == |s| ==> ScanBy(hit, replacement, s, i) == ""
  {
    var m := FindFun(hit, s)(i);
    assert m == FoundBy(hit, s, i);
    if i < |s| { assert s[i..i + 1] == [s[i]]; }
    assert s[0..0] == "";
  }

  lemma {:induction false} ScanCopies(
    hit: nat -> Option<nat>, replacement: string, s: string, i: nat, e: nat)
    requires Advances(hit, s)
    requires 0 < i <= e <= |s| && forall k | i <= k < e :: IsAlnum(s[k])
    ensures ScanBy(hit, replacement, s, i) == s[i..e] + ScanBy(hit, replacement, s, e)
    decreases e - i
  {
    if i < e {
      var tail := ScanBy(hit, replacement, s, e);
      ScanCopies(hit, replacement, s, i + 1, e);
      ScanStep(hit, replacement, s, i);
      Regroup(s, i, e, tail);
    }
  }

  /** The scan of the piece at `j`, which is not at the start and begins no phrase. */
  lemma {:induction false} ScanMiss(
    hit: nat -> Option<nat>, pass: nat -> string, replacement: string, s: string, j: nat)
    requires Advances(hit, s) && forall k: nat | k <= |s| :: Fits(hit, pass, replacement, s, k)
    requires 0 < j <= |s| && hit(j).None?
    ensures ScanBy(hit, replacement, s, j) == pass(j)
    decreases |s| - j, 1
  {
    assert Fits(hit, pass, replacement, s, j);
    ScanStep(hit, replacement, s, j);
    if j < |s| && IsAlnum(s[j]) {
      var e := j + WordLength(s[j..]);
      forall k | j <= k < e ensures IsAlnum(s[k]) { assert s[j..][..e - j][k - j] == s[k]; }
      ScanCopies(hit, replacement, s, j, e);
      if e < |s| { assert s[j..][e - j] == s[e]; }
      ScanFits(hit, pass, replacement, s, e);
    } else if j < |s| {
      ScanFits(hit, pass, replacement, s, j);
    }
  }

  /** After the start, at the end of a word or of a replaced phrase, the scan emits the pass. */
  lemma {:induction false} ScanFits(
    hit: nat -> Option<nat>, pass: nat -> string, replacement: string, s: string, i: nat)
    requires Advances(hit, s) && forall k: nat | k <= |s| :: Fits(hit, pass, replacement, s, k)
    requires 0 < i <= |s| && Boundary(s, i)
    ensures ScanBy(hit, replacement, s, i) == pass(i)
    decreases |s| - i, 0
  {
    assert Fits(hit, pass, replacement, s, i);
    ScanStep(hit, replacement, s, i);
    if i < |s| {
      assert s[i..i + 1] == [s[i]];
      ScanAfterGap(hit, pass, replacement, s, i);
    }
  }

  lemma {:induction false} ScanAfterGap(
    hit: nat -> Option<nat>, pass: nat -> string, replacement: string, s: string, i: nat)
    requires Advances(hit, s) && forall k: nat | k <= |s| :: Fits(hit, pass, replacement, s, k)
    requires i < |s| && !IsAlnum(s[i]) && (i == 0 ==> hit(0).None?)
    ensures ScanBy(hit, replacement, s, i) == [s[i]] + pass(i + 1)
    decreases |s| - i - 1, 2
  {
    assert Fits(hit, pass, replacement, s, i) && Fits(hit, pass, replacement, s, i + 1);
    ScanStep(hit, replacement, s, i);
    match hit(i + 1)
    case Some(e) =>
      ScanFits(hit, pass, replacement, s, e);
      assert [s[i]] + replacement + pass(e) == [s[i]] + (replacement + pass(e));
    case None =>
      ScanMiss(hit, pass, replacement, s, i + 1);
  }

  /** A word at the start that begins no phrase is copied. */
  lemma ScanCopiesFirst(hit: nat -> Option<nat>, replacement: string, s: string, e: nat)
    requires Advances(hit, s) && hit(0).None?
    requires 0 < e <= |s| && forall k | 0 <= k < e :: IsAlnum(s[k])
    ensures ScanBy(hit, replacement, s, 0) == s[0..e] + ScanBy(hit, replacement, s, e)
  {
    ScanStep(hit, replacement, s, 0);
    assert IsAlnum(s[0]);
    ScanCopies(hit, replacement, s, 1, e);
    Regroup(s, 0, e, ScanBy(hit, replacement, s, e));
  }

  lemma ScanFirstWord(
    hit: nat -> Option<nat>, pass: nat -> string, replacement: string, s: string, e: nat)
    requires Advances(hit, s) && forall k: nat | k <= |s| :: Fits(hit, pass, replacement, s, k)
    requires 0 < e <= |s| && Boundary(s, e) && (forall k | 0 <= k < e :: IsAlnum(s[k])) && hit(0).None?
    ensures ScanBy(hit, replacement, s, 0) == s[0..e] + pass(e)
  {
    ScanCopiesFirst(hit, replacement, s, e);
    ScanFits(hit, pass, replacement, s, e);
  }

  lemma Regroup(s: string, i: nat, e: nat, tail: string)
    requires i < e <= |s|
    ensures s[i..e] + tail == [s[i]] + (s[i + 1..e] + tail)
  {}

  /** From the start the scan is the pass. */
  lemma {:induction false} ScanIsPass(
    hit: nat -> Option<nat>, pass: nat -> string, replacement: string, s: string)
    requires Advances(hit, s) && forall k: nat | k <= |s| :: Fits(hit, pass, replacement, s, k)
    ensures ScanBy(hit, replacement, s, 0) == pass(0)
  {
    assert Fits(hit, pass, replacement, s, 0);
    ScanStep(hit, replacement, s, 0);
    if hit(0).Some? {
      ScanFits(hit, pass, replacement, s, hit(0).value);
    } else if s != "" {
      if IsAlnum(s[0]) {
        var e := PieceEnd(s, 0);
        assert s[0..] == s;
        assert forall k | 0 <= k < e :: s[..e][k] == s[k];
        ScanFirstWord(hit, pass, replacement, s, e);
      } else {
        ScanAfterGap(hit, pass, replacement, s, 0);
        assert s[0..1] == [s[0]];
      }
    }
  }

  // The rule's own `hit` and `pass`.

  function HitFun(r: Rule, s: string): nat -> Option<nat>
  {
    (j: nat) => if j <= |s| then HitOf(r, s, j) else None
  }

  function PassFun(r: Rule, s: string): nat -> string
  {
    (j: nat) => if j <= |s| then PassFrom(r, s, j) else ""
  }

  lemma RuleFits(r: Rule, s: string, i: nat)
    requires i <= |s|
    ensures Fits(HitFun(r, s), PassFun(r, s), r.replacement, s, i)
  {
    var hit, pass := HitFun(r, s), PassFun(r, s);
    assert hit(i) == HitOf(r, s, i) && pass(i) == PassFrom(r, s, i);
    if i == |s| {
      GapIsMiss(r, s, i);
      assert s[i..] == "";
    } else if HitOf(r, s, i).Some? {
      var e := HitOf(r, s, i).value;
      PassAtHit(r, s, i);
      if Boundary(s, i) { GapIsMiss(r, s, i); }
      assert pass(e) == PassFrom(r, s, e);
    } else {
      PassAtMiss(r, s, i);
      PieceHead(s, i);
      var e := PieceEnd(s, i);
      assert pass(e) == PassFrom(r, s, e);
    }
  }

  /** The replacement depends only on what is found where. */
  lemma {:induction false} SameFinds(
    f: nat -> Option<Match>, g: nat -> Option<Match>, replacement: string, s: string, i: nat)
    requires i <= |s| && forall j: nat | j <= |s| :: f(j) == g(j) && InRange(f(j), j, |s|)
    ensures ReplaceBy(f, replacement, s, i) == ReplaceBy(g, replacement, s, i)
    decreases |s| - i
  {
    var m := f(i);
    if m.Some? && m.value.end > i {
      SameFinds(f, g, replacement, s, m.value.end);
    } else if i < |s| {
      SameFinds(f, g, replacement, s, i + 1);
    }
  }

  /** At the very start the core may begin there; later it must follow a character that is neither
      letter nor digit. */
  lemma FoundWhereHit(core: Pattern, hit: nat -> Option<nat>, s: string, i: nat)
    requires i <= |s| && Ends(core, s, i, i) == OneOrNone(hit(i), i)
    requires i < |s| ==> Ends(core, s, i + 1, i + 1) == OneOrNone(hit(i + 1), i + 1)
    ensures FirstMatch(DelimitedPattern(core), s, i) == FoundBy(hit, s, i)
  {
    var left, right := Start(Group(core)), One(NotAlnum, Group(core));
    assert Ends(left, s, i, i) == if i == 0 then Ends(core, s, i, i) else [];
    assert Ends(right, s, i, i) == if Has(NotAlnum, s, i) then Ends(core, s, i + 1, i + 1) else [];
  }

  lemma PrefixFound(r: Rule, s: string, i: nat)
    requires i <= |s|
    ensures FirstMatch(DelimitedPattern(PhrasePattern(r.words, r.plural)), s, i) == FoundBy(HitFun(r, s), s, i)
  {
    PhraseEnds(r.words, r.plural, s, i, i);
    if i < |s| { PhraseEnds(r.words, r.plural, s, i + 1, i + 1); }
    FoundWhereHit(PhrasePattern(r.words, r.plural), HitFun(r, s), s, i);
  }

  /** The character scan of a delimited replacement is the pass over words: every delimited occurrence is
      replaced, also when two share one delimiter, and everything else keeps its order and text. */
  lemma {:induction false} ReplaceIsPass(s: string, r: Rule)
    ensures Replace(s, r) == Join(Pass(Split(s), r))
  {
    var hit, pass := HitFun(r, s), PassFun(r, s);
    forall k: nat | k <= |s| ensures Fits(hit, pass, r.replacement, s, k) {
      RuleFits(r, s, k);
    }
    forall j: nat | j <= |s| ensures hit(j).Some? ==> j < hit(j).value <= |s| {
      assert Fits(hit, pass, r.replacement, s, j);
    }
    var f, g := Finder(DelimitedPattern(PhrasePattern(r.words, r.plural)), s), FindFun(hit, s);
    forall j: nat | j <= |s| ensures f(j) == g(j) && InRange(f(j), j, |s|) {
      PrefixFound(r, s, j);
    }
    SameFinds(f, g, r.replacement, s, 0);
    ScanIsPass(hit, pass, r.replacement, s);
    assert s[0..] == s;
  }
}
