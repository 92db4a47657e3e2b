/**
 What a phrase can see of a text: its words in lower case, and the characters that break a phrase apart.
 */
module StaffChains {
  import opened Wrappers
  import opened Text
  import opened Regex
  import opened Words
  import opened Delimited
  import opened StaffText

  /** A word in lower case, or a break: a character that stands in no phrase. */
  type Link = Option<string>

  function LinkOf(p: Piece): seq<Link> {
    match p
    case Word(text) => [Some(LowerText(text))]
    case Gap(c) => if Member(Separator, c) then [] else [None]
  }

  function Chain(ps: seq<Piece>): seq<Link> {
    if ps == [] then [] else LinkOf(ps[0]) + Chain(ps[1..])
  }

  lemma {:induction false} ChainConcat(a: seq<Piece>, b: seq<Piece>)
    ensures Chain(a + b) == Chain(a) + Chain(b)
  {
    if a == [] {
      assert a + b == b;
    } else {
      assert (a + b)[1..] == a[1..] + b;
      ChainConcat(a[1..], b);
    }
  }

  function WordsIn(c: seq<Link>): seq<string> {
    if c == [] then [] else (if c[0].Some? then [c[0].value] else []) + WordsIn(c[1..])
  }

  lemma {:induction false} WordsOfChain(ps: seq<Piece>)
    ensures WordsOf(ps) == WordsIn(Chain(ps))
  {
    if ps != [] {
      WordsOfChain(ps[1..]);
      if LinkOf(ps[0]) != [] { assert Chain(ps)[1..] == Chain(ps[1..]); } else { assert Chain(ps) == Chain(ps[1..]); }
    }
  }

  // ----- phrases in chains

  predicate In(x: Link, words: set<string>) { x.Some? && x.value in words }

  /** What each word of the phrase may be. */
  function Forms(words: seq<string>, plural: bool): (forms: seq<set<string>>)
    requires words != []
    ensures |forms| == |words|
    decreases |words|
  {
    if |words| > 1 then [{LowerText(words[0])}] + Forms(words[1..], plural)
    else if plural then [{LowerText(words[0]), LowerText(words[0] + "s")}]
    else [{LowerText(words[0])}]
  }

  predicate Starts(c: seq<Link>, forms: seq<set<string>>): (b: bool)
    ensures b ==> |forms| <= |c|
  {
    forms == [] || (c != [] && In(c[0], forms[0]) && Starts(c[1..], forms[1..]))
  }

  predicate Contains(c: seq<Link>, forms: seq<set<string>>) {
    Starts(c, forms) || (c != [] && Contains(c[1..], forms))
  }

  lemma {:induction false} SkipSeparatorsChain(ps: seq<Piece>)
    ensures Chain(SkipSeparators(ps)) == Chain(ps)
    ensures var next := SkipSeparators(ps); next != [] && next[0].Gap? ==> LinkOf(next[0]) == [None]
  {
    if ps != [] && SkipSeparators(ps) != ps { SkipSeparatorsChain(ps[1..]); }
  }

  /** At a word, the phrase occurs exactly when the chain starts with it. */
  lemma {:induction false} AfterPhraseChain(ps: seq<Piece>, words: seq<string>, plural: bool)
    requires Canonical(ps) && ps != [] && ps[0].Word? && words != []
    ensures AfterPhrase(ps, words, plural).Some? <==> Starts(Chain(ps), Forms(words, plural))
    ensures var rest := AfterPhrase(ps, words, plural);
            rest.Some? ==> |words| <= |Chain(ps)| && Chain(rest.value) == Chain(ps)[|words|..]
    decreases |words|
  {
    assert Chain(ps)[1..] == Chain(ps[1..]);
    if |words| == 1 {
      assert Forms(words, plural)[1..] == [];
    } else {
      var next := SkipSeparators(ps[1..]);
      SkipSeparatorsChain(ps[1..]);
      SkipSeparatorsCanonical(ps[1..]);
      assert Forms(words, plural)[1..] == Forms(words[1..], plural);
      if next != [] && next[0].Word? {
        AfterPhraseChain(next, words[1..], plural);
        if AfterPhrase(next, words[1..], plural).Some? {
          assert Chain(ps)[|words|..] == Chain(next)[|words| - 1..];
        }
      } else {
        assert !Starts(Chain(next), Forms(words[1..], plural));
      }
    }
  }

  ghost predicate HasPhrase(ps: seq<Piece>, r: Rule) {
    exists i | 0 <= i <= |ps| :: AfterPhrase(ps[i..], r.words, r.plural).Some?
  }

  lemma HasPhraseTail(ps: seq<Piece>, r: Rule)
    requires ps != [] && AfterPhrase(ps, r.words, r.plural).None?
    ensures HasPhrase(ps, r) <==> HasPhrase(ps[1..], r)
  {
    assert ps[0..] == ps;
    if HasPhrase(ps, r) {
      var i :| 0 <= i <= |ps| && AfterPhrase(ps[i..], r.words, r.plural).Some?;
      assert ps[1..][i - 1..] == ps[i..];
    }
    if HasPhrase(ps[1..], r) {
      var i :| 0 <= i <= |ps[1..]| && AfterPhrase(ps[1..][i..], r.words, r.plural).Some?;
      assert ps[1..][i..] == ps[i + 1..];
    }
  }

  /** An occurrence of a rule in a text is an occurrence of its forms in the chain. */
  lemma {:induction false} HasPhraseChain(ps: seq<Piece>, r: Rule)
    requires Canonical(ps)
    ensures HasPhrase(ps, r) <==> Contains(Chain(ps), Forms(r.words, r.plural))
  {
    var forms := Forms(r.words, r.plural);
    if ps == [] {
    } else if AfterPhrase(ps, r.words, r.plural).Some? {
      assert ps[0..] == ps;
      AfterPhraseChain(ps, r.words, r.plural);
    } else {
      HasPhraseTail(ps, r);
      HasPhraseChain(ps[1..], r);
      if ps[0].Word? { AfterPhraseChain(ps, r.words, r.plural); }
      if LinkOf(ps[0]) == [] { assert Chain(ps) == Chain(ps[1..]); } else { assert Chain(ps)[1..] == Chain(ps[1..]); }
    }
  }

  // ----- passes on chains

  /** A pass, seen on the chain. */
  function Rewritten(c: seq<Link>, forms: seq<set<string>>, image: seq<Link>): seq<Link>
    requires forms != []
    decreases |c|
  {
    if c == [] then []
    else if Starts(c, forms) then image + Rewritten(c[|forms|..], forms, image)
    else [c[0]] + Rewritten(c[1..], forms, image)
  }

  lemma {:induction false} PassChain(ps: seq<Piece>, r: Rule)
    requires Canonical(ps)
    ensures Chain(Pass(ps, r)) == Rewritten(Chain(ps), Forms(r.words, r.plural), Chain(Split(r.replacement)))
    decreases |ps|
  {
    if ps != [] {
      var rest := AfterPhrase(ps, r.words, r.plural);
      if ps[0].Word? { AfterPhraseChain(ps, r.words, r.plural); }
      if rest.Some? {
        AfterPhraseCanonical(ps, r.words, r.plural);
        PassChain(rest.value, r);
        ChainConcat(Split(r.replacement), Pass(rest.value, r));
      } else {
        PassChain(ps[1..], r);
        assert Pass(ps, r)[1..] == Pass(ps[1..], r);
        if LinkOf(ps[0]) == [] {
          assert Chain(ps) == Chain(ps[1..]) && Chain(Pass(ps, r)) == Chain(Pass(ps[1..], r));
        } else {
          assert Chain(ps)[1..] == Chain(ps[1..]);
        }
      }
    }
  }

  /** White space is only separators: cleaning it up does not touch the chain. */
  lemma BlankIsNoLink(p: Piece)
    requires IsBlank(p)
    ensures LinkOf(p) == [] == LinkOf(Gap(' '))
  {}

  lemma {:induction false} CollapseChain(ps: seq<Piece>, inRun: bool)
    ensures Chain(CollapsePieces(ps, inRun)) == Chain(ps)
  {
    if ps != [] {
      var tail := CollapsePieces(ps[1..], IsBlank(ps[0]));
      CollapseChain(ps[1..], IsBlank(ps[0]));
      var head := if IsBlank(ps[0]) then (if inRun then [] else [Gap(' ')]) else [ps[0]];
      if IsBlank(ps[0]) { BlankIsNoLink(ps[0]); }
      assert CollapsePieces(ps, inRun) == head + tail;
      ChainConcat(head, tail);
    }
  }

  lemma {:induction false} TrimFrontChain(ps: seq<Piece>)
    ensures Chain(TrimFront(ps)) == Chain(ps)
  {
    if ps != [] && IsBlank(ps[0]) {
      BlankIsNoLink(ps[0]);
      TrimFrontChain(ps[1..]);
    }
  }

  lemma DropBlank(front: seq<Piece>, last: Piece)
    requires IsBlank(last)
    ensures Chain(front + [last]) == Chain(front)
  {
    BlankIsNoLink(last);
    ChainConcat(front, [last]);
    assert Chain([last]) == LinkOf(last) + Chain([last][1..]);
  }

  lemma {:induction false} TrimBackChain(ps: seq<Piece>)
    ensures Chain(TrimBack(ps)) == Chain(ps)
    decreases |ps|
  {
    if ps != [] && IsBlank(ps[|ps| - 1]) {
      var front := ps[..|ps| - 1];
      TrimBackChain(front);
      DropBlank(front, ps[|ps| - 1]);
      assert ps == front + [ps[|ps| - 1]];
    }
  }

  lemma TidyChain(ps: seq<Piece>)
    ensures Chain(Tidy(ps)) == Chain(ps)
  {
    CollapseChain(ps, false);
    TrimFrontChain(CollapsePieces(ps));
    TrimBackChain(TrimFront(CollapsePieces(ps)));
  }

  lemma TidyWords(ps: seq<Piece>)
    ensures WordsOf(Tidy(ps)) == WordsOf(ps)
  {
    TidyChain(ps);
    WordsOfChain(ps);
    WordsOfChain(Tidy(ps));
  }

  // ----- two words in a row

  lemma PairStarts(c: seq<Link>, a: set<string>, b: set<string>)
    ensures Starts(c, [a, b]) <==> |c| > 1 && In(c[0], a) && In(c[1], b)
  {
    assert [a, b][1..] == [b] && [b][1..] == [];
    if c != [] { assert Starts(c[1..], [b]) <==> |c| > 1 && In(c[1], b); }
  }

  lemma {:induction false} PairConcat(x: seq<Link>, y: seq<Link>, a: set<string>, b: set<string>)
    requires x != []
    ensures Contains(x + y, [a, b]) <==>
            || Contains(x, [a, b]) || Contains(y, [a, b])
            || (y != [] && In(x[|x| - 1], a) && In(y[0], b))
  {
    PairStarts(x, a, b);
    PairStarts(y, a, b);
    PairStarts(x + y, a, b);
    assert (x + y)[1..] == x[1..] + y;
    if |x| == 1 {
      assert x[1..] + y == y;
    } else {
      PairConcat(x[1..], y, a, b);
    }
  }

  /** Putting the image next to other words makes no pair. */
  ghost predicate Fenced(image: seq<Link>, a: set<string>, b: set<string>) {
    && image != [] && !Contains(image, [a, b])
    && !In(image[0], b) && !In(image[|image| - 1], a)
  }

  lemma RewrittenStart(c: seq<Link>, forms: seq<set<string>>, image: seq<Link>)
    requires forms != [] && image != [] && c != []
    ensures var out := Rewritten(c, forms, image);
            out != [] && out[0] == if Starts(c, forms) then image[0] else c[0]
  {}

  /** A pass that looks for the pair leaves none, and no other pass brings it back. */
  lemma {:induction false} NoPairAfter(
    c: seq<Link>, forms: seq<set<string>>, image: seq<Link>, a: set<string>, b: set<string>)
    requires forms != [] && Fenced(image, a, b) && (forms == [a, b] || !Contains(c, [a, b]))
    ensures !Contains(Rewritten(c, forms, image), [a, b])
    decreases |c|
  {
    if c != [] {
      PairStarts(c, a, b);
      var k := if Starts(c, forms) then |forms| else 1;
      var rest := c[k..];
      if forms != [a, b] { NoPairBehind(c, k, a, b); }
      NoPairAfter(rest, forms, image, a, b);
      if rest != [] { RewrittenStart(rest, forms, image); }
      if Starts(c, forms) {
        PairConcat(image, Rewritten(rest, forms, image), a, b);
      } else {
        PairConcat([c[0]], Rewritten(rest, forms, image), a, b);
        assert [c[0]][1..] == [];
        PairStarts([c[0]], a, b);
      }
    }
  }

  lemma {:induction false} NoPairBehind(c: seq<Link>, k: nat, a: set<string>, b: set<string>)
    requires k <= |c| && !Contains(c, [a, b])
    ensures !Contains(c[k..], [a, b])
  {
    if k == 0 {
      assert c[0..] == c;
    } else {
      NoPairBehind(c[1..], k - 1, a, b);
      assert c[1..][k - 1..] == c[k..];
    }
  }

  /** One of the rules looks for the pair, and none of them makes it anew: it is gone at the end. */
  lemma {:induction false} FoldLeavesNoPair(ps: seq<Piece>, rules: seq<Rule>, a: set<string>, b: set<string>)
    requires Canonical(ps) && forall r | r in rules :: Fenced(Chain(Split(r.replacement)), a, b)
    requires !Contains(Chain(ps), [a, b]) || exists r :: r in rules && Forms(r.words, r.plural) == [a, b]
    ensures !Contains(Chain(FoldPieces(ps, rules)), [a, b])
    decreases |rules|
  {
    if rules != [] {
      var r := rules[0];
      PassChain(ps, r);
      PassCanonical(ps, r);
      if Forms(r.words, r.plural) == [a, b] || !Contains(Chain(ps), [a, b]) {
        NoPairAfter(Chain(ps), Forms(r.words, r.plural), Chain(Split(r.replacement)), a, b);
      }
      FoldLeavesNoPair(Pass(ps, r), rules[1..], a, b);
    }
  }
}
