/**
 Where a phrase stands in a text, with the letters and separators written out.
 */
module StaffSpelling {
  import opened Wrappers
  import opened Text
  import opened Regex
  import opened Words
  import opened Delimited
  import opened StaffText
  import opened StaffChains
  import opened StaffTokens

  // ----- words and phrases

  /** `u` is the word `w` of small letters, in any letter case. */
  predicate Spells(u: string, w: string) {
    |u| == |w| && forall k | 0 <= k < |w| :: u[k] == w[k] || ('A' <= u[k] <= 'Z' && u[k] as int + 32 == w[k] as int)
  }

  lemma SpellsIs(u: string, w: string)
    requires Letters(w)
    ensures Spells(u, w) <==> LowerText(u) == w
  {
    if LowerText(u) == w {
      assert forall k | 0 <= k < |w| :: LowerText(u)[k] == w[k];
    }
  }

  /** White space, `.`, `_` and `-`. */
  predicate Separators(g: string) {
    g != "" && forall k | 0 <= k < |g| :: g[k] == '.' || g[k] == '_' || g[k] == '-' || g[k] in WHITE_SPACE
  }

  predicate EndsInAlnum(x: string) {
    x != "" && var c := x[|x| - 1]; 'a' <= c <= 'z' || 'A' <= c <= 'Z' || '0' <= c <= '9'
  }

  predicate StartsWithAlnum(y: string) {
    y != "" && var c := y[0]; 'a' <= c <= 'z' || 'A' <= c <= 'Z' || '0' <= c <= '9'
  }

  /** `u` is one of these words. */
  ghost predicate SpellsOne(u: string, ws: seq<string>) { exists i :: 0 <= i < |ws| && Spells(u, ws[i]) }

  /** The text is a phrase: one of each of these words in a row, with separators between them. */
  ghost predicate ReadsAs(p: string, words: seq<seq<string>>)
    decreases |words|
  {
    words != [] &&
    if |words| == 1 then SpellsOne(p, words[0])
    else exists a, g, rest ::
      p == a + g + rest && SpellsOne(a, words[0]) && Separators(g) && ReadsAs(rest, words[1..])
  }

  /** The phrase stands in the text, with no letter or digit before or behind it. */
  ghost predicate StandsIn(raw: string, words: seq<seq<string>>) {
    exists x, p, y :: raw == x + p + y && ReadsAs(p, words) && !EndsInAlnum(x) && !StartsWithAlnum(y)
  }

  // ----- what a rule looks for

  predicate AllLetters(words: seq<string>) { forall i | 0 <= i < |words| :: Letters(words[i]) }

  /** The spellings a rule accepts, word by word. */
  function Spellings(words: seq<string>, plural: bool): (r: seq<seq<string>>)
    requires words != []
    ensures |r| == |words|
    decreases |words|
  {
    if |words| > 1 then [[words[0]]] + Spellings(words[1..], plural)
    else if plural then [[words[0], words[0] + "s"]]
    else [[words[0]]]
  }

  lemma OneSpelling(u: string, w: string)
    requires Letters(w)
    ensures SpellsOne(u, [w]) <==> Is(u, w)
  {
    SpellsIs(u, w);
    LettersLower(w);
    assert [w][0] == w;
  }

  lemma LastSpelling(u: string, w: string, plural: bool)
    requires Letters(w)
    ensures SpellsOne(u, if plural then [w, w + "s"] else [w]) <==> LastIs(u, w, plural)
  {
    OneSpelling(u, w);
    if plural {
      OneSpelling(u, w + "s");
      assert [w, w + "s"][0] == w && [w, w + "s"][1] == w + "s";
      assert [w + "s"][0] == w + "s" && [w][0] == w;
    }
  }

  lemma IsWord(u: string, w: string)
    requires Letters(w) && Is(u, w)
    ensures u != "" && AllAlnum(u)
  {
    IsKeepsAlnum(u, w);
    LettersLower(w);
  }

  lemma LastIsWord(u: string, w: string, plural: bool)
    requires Letters(w) && LastIs(u, w, plural)
    ensures u != "" && AllAlnum(u)
  {
    if Is(u, w) { IsWord(u, w); } else { IsWord(u, w + "s"); }
  }

  // ----- separators on pieces

  lemma SeparatorIs(c: char)
    ensures Member(Separator, c) <==> c == '.' || c == '_' || c == '-' || c in WHITE_SPACE
    ensures Member(Separator, c) ==> !IsAlnum(c)
  {
    SpaceIsListed(c);
  }

  lemma {:induction false} SkipsGap(g: string, rest: string)
    requires g != "" ==> Separators(g)
    ensures SkipSeparators(Split(g + rest)) == SkipSeparators(Split(rest))
    ensures g != "" ==> |SkipSeparators(Split(g + rest))| < |Split(g + rest)| && !IsAlnum(g[0])
  {
    if g == "" {
      assert g + rest == rest;
    } else {
      var s := g + rest;
      SeparatorIs(g[0]);
      assert s[0] == g[0] && s[1..] == g[1..] + rest;
      assert g[1..] != "" ==> Separators(g[1..]);
      SkipsGap(g[1..], rest);
      assert Split(s) == [Gap(g[0])] + Split(g[1..] + rest);
      assert Split(s)[1..] == Split(g[1..] + rest);
    }
  }

  // ----- a phrase in front of a text

  lemma {:induction false} ReadsStart(p: string, words: seq<string>, plural: bool)
    requires words != [] && AllLetters(words) && ReadsAs(p, Spellings(words, plural))
    ensures p != "" && IsAlnum(p[0])
  {
    if |words| == 1 {
      LastSpelling(p, words[0], plural);
      LastIsWord(p, words[0], plural);
    } else {
      var all := Spellings(words, plural);
      var a, g, rest :| p == a + g + rest && SpellsOne(a, all[0]) && Separators(g) && ReadsAs(rest, all[1..]);
      OneSpelling(a, words[0]);
      IsWord(a, words[0]);
      assert p[0] == a[0];
    }
  }

  lemma WordFirst(a: string, g: string, rest: string)
    requires a != "" && AllAlnum(a) && Separators(g)
    ensures Split(a + g + rest) == [Word(a)] + Split(g + rest)
  {
    SeparatorIs(g[0]);
    assert a + g + rest == a + (g + rest) && (g + rest)[0] == g[0];
    SplitWord(a, g + rest);
  }

  /** A text that begins with the phrase is seen to, and what follows is left. */
  lemma {:induction false} ReadsAfter(p: string, words: seq<string>, plural: bool, rest: string)
    requires words != [] && AllLetters(words) && ReadsAs(p, Spellings(words, plural)) && !StartsWithAlnum(rest)
    ensures AfterPhrase(Split(p + rest), words, plural) == Some(Split(rest))
    decreases |words|
  {
    if |words| == 1 {
      LastSpelling(p, words[0], plural);
      LastIsWord(p, words[0], plural);
      SplitWord(p, rest);
      assert Split(p + rest)[1..] == Split(rest);
    } else {
      var all := Spellings(words, plural);
      var a, g, more :| p == a + g + more && SpellsOne(a, all[0]) && Separators(g) && ReadsAs(more, all[1..]);
      assert all[1..] == Spellings(words[1..], plural);
      OneSpelling(a, words[0]);
      IsWord(a, words[0]);
      ReadsAfter(more, words[1..], plural, rest);
      ReadsStart(more, words[1..], plural);
      FirstOf(more, rest);
      AfterFirst(a, g, more + rest, words, plural);
      Append(a, g, more, rest);
      Regroup(a, g, more, rest);
    }
  }

  lemma FirstOf(x: string, y: string)
    requires x != ""
    ensures x + y != "" && (x + y)[0] == x[0]
  {}

  lemma Regroup(a: string, g: string, more: string, rest: string)
    ensures a + g + more + rest == a + g + (more + rest)
  {}

  lemma AfterFirst(a: string, g: string, more: string, words: seq<string>, plural: bool)
    requires |words| > 1 && Is(a, words[0]) && a != "" && AllAlnum(a) && Separators(g) && more != "" && IsAlnum(more[0])
    ensures AfterPhrase(Split(a + g + more), words, plural) == AfterPhrase(Split(more), words[1..], plural)
  {
    WordFirst(a, g, more);
    SkipsGap(g, more);
    var ps := Split(a + g + more);
    assert ps[1..] == Split(g + more);
    assert Split(more)[0].Word?;
    assert SkipSeparators(Split(more)) == Split(more);
  }

  // ----- what an occurrence on pieces is in the text

  lemma {:induction false} SkippedText(ps: seq<Piece>) returns (g: string)
    ensures Join(ps) == g + Join(SkipSeparators(ps)) && (g != "" ==> Separators(g))
    ensures |SkipSeparators(ps)| < |ps| ==> g != ""
  {
    g := "";
    if ps != [] && ps[0].Gap? && Member(Separator, ps[0].c) {
      SeparatorIs(ps[0].c);
      g := SkippedText(ps[1..]);
      g := [ps[0].c] + g;
    }
  }

  lemma ReadsCons(a: string, g: string, rest: string, words: seq<seq<string>>)
    requires |words| > 1 && SpellsOne(a, words[0]) && Separators(g) && ReadsAs(rest, words[1..])
    ensures ReadsAs(a + g + rest, words)
  {}

  lemma TakenText(u: string, tail: string, g: string, after: string, more: string, rest: string)
    requires tail == g + after && after == more + rest
    ensures u + tail == u + g + more + rest
  {}

  /** What an occurrence takes of the text reads as the phrase. */
  lemma {:induction false} AfterReads(ps: seq<Piece>, words: seq<string>, plural: bool) returns (p: string)
    requires words != [] && AllLetters(words) && AfterPhrase(ps, words, plural).Some?
    ensures Join(ps) == p + Join(AfterPhrase(ps, words, plural).value) && ReadsAs(p, Spellings(words, plural))
    decreases |words|
  {
    var u := ps[0].text;
    if |words| == 1 {
      LastSpelling(u, words[0], plural);
      p := u;
    } else {
      var next := SkipSeparators(ps[1..]);
      OneSpelling(u, words[0]);
      var g := SkippedText(ps[1..]);
      var more := AfterReads(next, words[1..], plural);
      assert Spellings(words, plural)[1..] == Spellings(words[1..], plural);
      ReadsCons(u, g, more, Spellings(words, plural));
      TakenText(u, Join(ps[1..]), g, Join(next), more, Join(AfterPhrase(next, words[1..], plural).value));
      p := u + g + more;
    }
  }

  lemma SplitConcatWord(w: string, rest: string, s: string)
    requires w != "" && AllAlnum(w) && rest != "" && !IsAlnum(rest[0])
    requires Split(rest + s) == Split(rest) + Split(s)
    ensures Split(w + rest + s) == Split(w + rest) + Split(s)
  {
    Associates(w, rest, s);
    FirstOf(rest, s);
    SplitWord(w, rest + s);
    SplitWord(w, rest);
    InFront([Word(w)], Split(rest), Split(s));
  }

  lemma InFront(a: seq<Piece>, b: seq<Piece>, c: seq<Piece>)
    ensures a + (b + c) == (a + b) + c
  {}

  lemma LastKept(x: string, n: nat)
    requires n < |x|
    ensures EndsInAlnum(x[n..]) <==> EndsInAlnum(x)
  {
    assert x[n..][|x| - n - 1] == x[|x| - 1];
  }

  lemma Cut<T>(s: seq<T>, n: nat)
    requires n <= |s|
    ensures s == s[..n] + s[n..]
  {}

  /** A word at the start of a text that does not end in one. */
  lemma WordTaken(x: string, n: nat)
    requires 0 < n <= |x| && AllAlnum(x[..n]) && (n < |x| ==> !IsAlnum(x[n])) && !EndsInAlnum(x)
    ensures n < |x| && !IsAlnum(x[n..][0]) && !EndsInAlnum(x[n..])
  {
    assert x[..n][n - 1] == x[n - 1];
    LastKept(x, n);
  }

  lemma SplitConcatGap(c: char, rest: string, s: string)
    requires !IsAlnum(c) && Split(rest + s) == Split(rest) + Split(s)
    ensures Split([c] + rest + s) == Split([c] + rest) + Split(s)
  {
    Associates([c], rest, s);
    assert ([c] + rest)[1..] == rest && ([c] + (rest + s))[1..] == rest + s;
    InFront([Gap(c)], Split(rest), Split(s));
  }

  lemma {:induction false} SplitConcat(x: string, s: string)
    requires !EndsInAlnum(x)
    ensures Split(x + s) == Split(x) + Split(s)
    decreases |x|
  {
    if x == "" {
      assert x + s == s;
    } else if IsAlnum(x[0]) {
      var n := WordLength(x);
      WordTaken(x, n);
      Cut(x, n);
      SplitConcat(x[n..], s);
      SplitConcatWord(x[..n], x[n..], s);
    } else {
      if |x| > 1 { LastKept(x, 1); }
      SplitConcat(x[1..], s);
      Cut(x, 1);
      assert x[..1] == [x[0]];
      SplitConcatGap(x[0], x[1..], s);
    }
  }

  lemma {:induction false} JoinEnds(ps: seq<Piece>)
    requires Canonical(ps) && ps != [] && ps[|ps| - 1].Gap?
    ensures Join(ps) != "" && !EndsInAlnum(Join(ps))
  {
    if |ps| == 1 {
      assert Join(ps) == Show(ps[0]) + Join(ps[1..]) == [ps[0].c];
    } else {
      assert ps[1..][|ps[1..]| - 1] == ps[|ps| - 1];
      JoinEnds(ps[1..]);
    }
  }

  lemma {:induction false} GapBefore(ps: seq<Piece>, i: nat)
    requires Canonical(ps) && 0 < i < |ps| && ps[i].Word?
    ensures ps[i - 1].Gap?
  {
    if i > 1 { GapBefore(ps[1..], i - 1); }
  }

  lemma {:induction false} CanonicalFrom(ps: seq<Piece>, i: nat)
    requires Canonical(ps) && i <= |ps|
    ensures Canonical(ps[i..])
  {
    if i == 0 {
      assert ps[0..] == ps;
    } else {
      CanonicalFrom(ps[1..], i - 1);
      assert ps[1..][i - 1..] == ps[i..];
    }
  }

  lemma GapEnds(ps: seq<Piece>, i: nat)
    requires Canonical(ps) && 0 < i < |ps| && ps[i].Word?
    ensures !EndsInAlnum(Join(ps[..i]))
  {
    GapBefore(ps, i);
    CanonicalPrefix(ps, i);
    assert ps[..i][i - 1] == ps[i - 1];
    JoinEnds(ps[..i]);
  }

  lemma JoinAt(ps: seq<Piece>, i: nat)
    requires i <= |ps|
    ensures Join(ps) == Join(ps[..i]) + Join(ps[i..])
  {
    Cut(ps, i);
    JoinConcat(ps[..i], ps[i..]);
  }

  lemma NothingBefore(ps: seq<Piece>)
    ensures Join(ps[..0]) == "" && !EndsInAlnum(Join(ps[..0]))
  {}

  lemma BeforeWord(ps: seq<Piece>, i: nat)
    requires Canonical(ps) && i < |ps| && ps[i].Word?
    ensures !EndsInAlnum(Join(ps[..i]))
  {
    if i > 0 { GapEnds(ps, i); } else { NothingBefore(ps); }
  }

  lemma BehindPhrase(ps: seq<Piece>, words: seq<string>, plural: bool)
    requires Canonical(ps) && words != [] && AfterPhrase(ps, words, plural).Some?
    ensures !StartsWithAlnum(Join(AfterPhrase(ps, words, plural).value))
  {
    AfterPhraseCanonical(ps, words, plural);
    JoinGapFirst(AfterPhrase(ps, words, plural).value);
  }

  lemma StandsAt(raw: string, words: seq<seq<string>>, x: string, p: string, y: string, tail: string)
    requires raw == x + tail && tail == p + y && ReadsAs(p, words) && !EndsInAlnum(x) && !StartsWithAlnum(y)
    ensures StandsIn(raw, words)
  {
    assert raw == x + p + y;
  }

  lemma HasPhraseStands(raw: string, r: Rule)
    requires AllLetters(r.words) && HasPhrase(Split(raw), r)
    ensures StandsIn(raw, Spellings(r.words, r.plural))
  {
    var ps := Split(raw);
    SplitCanonical(raw);
    JoinSplit(raw);
    var i :| 0 <= i <= |ps| && AfterPhrase(ps[i..], r.words, r.plural).Some?;
    CanonicalFrom(ps, i);
    JoinAt(ps, i);
    BeforeWord(ps, i);
    BehindPhrase(ps[i..], r.words, r.plural);
    var p := AfterReads(ps[i..], r.words, r.plural);
    StandsAt(raw, Spellings(r.words, r.plural), Join(ps[..i]), p,
      Join(AfterPhrase(ps[i..], r.words, r.plural).value), Join(ps[i..]));
  }

  lemma PhraseAt(ps: seq<Piece>, front: seq<Piece>, back: seq<Piece>, r: Rule)
    requires ps == front + back && AfterPhrase(back, r.words, r.plural).Some?
    ensures HasPhrase(ps, r)
  {
    assert ps[|front|..] == back;
  }

  lemma PhraseBetween(x: string, p: string, y: string, r: Rule)
    requires AllLetters(r.words) && ReadsAs(p, Spellings(r.words, r.plural)) && !EndsInAlnum(x) && !StartsWithAlnum(y)
    ensures HasPhrase(Split(x + (p + y)), r)
  {
    SplitConcat(x, p + y);
    ReadsAfter(p, r.words, r.plural, y);
    PhraseAt(Split(x + (p + y)), Split(x), Split(p + y), r);
  }

  lemma StandsHasPhrase(raw: string, r: Rule)
    requires AllLetters(r.words) && StandsIn(raw, Spellings(r.words, r.plural))
    ensures HasPhrase(Split(raw), r)
  {
    var words := Spellings(r.words, r.plural);
    var x, p, y :| raw == x + p + y && ReadsAs(p, words) && !EndsInAlnum(x) && !StartsWithAlnum(y);
    Associates(x, p, y);
    PhraseBetween(x, p, y, r);
  }

  lemma Associates(x: string, p: string, y: string)
    ensures x + p + y == x + (p + y)
  {}

  /** A rule's phrase occurs exactly where it stands in the text: its words in a row, in any letter case, separators
      between them, and no letter or digit before or behind. */
  lemma {:induction false} HasPhraseIff(raw: string, r: Rule)
    requires AllLetters(r.words)
    ensures HasPhrase(Split(raw), r) <==> StandsIn(raw, Spellings(r.words, r.plural))
  {
    if HasPhrase(Split(raw), r) { HasPhraseStands(raw, r); }
    if StandsIn(raw, Spellings(r.words, r.plural)) { StandsHasPhrase(raw, r); }
  }

  predicate IsWordPiece(p: Piece) {
    p.Word? && p.text != ""
    && forall k | 0 <= k < |p.text| ::
         'a' <= p.text[k] <= 'z' || 'A' <= p.text[k] <= 'Z' || '0' <= p.text[k] <= '9'
  }

  predicate IsGapPiece(p: Piece) {
    p.Gap? && !('a' <= p.c <= 'z') && !('A' <= p.c <= 'Z') && !('0' <= p.c <= '9')
  }

  /** The pieces of a text: its maximal runs of letters and digits, and every other character by itself. */
  lemma {:induction false} SplitIs(s: string)
    ensures Join(Split(s)) == s
    ensures forall i | 0 <= i < |Split(s)| :: IsWordPiece(Split(s)[i]) || IsGapPiece(Split(s)[i])
    ensures forall i | 0 < i < |Split(s)| && Split(s)[i].Word? :: Split(s)[i - 1].Gap?
  {
    JoinSplit(s);
    SplitCanonical(s);
    var ps := Split(s);
    forall i | 0 <= i < |ps| ensures IsWordPiece(ps[i]) || IsGapPiece(ps[i]) { CanonicalFrom(ps, i); }
    forall i | 0 < i < |ps| && ps[i].Word? ensures ps[i - 1].Gap? { GapBefore(ps, i); }
  }
}
