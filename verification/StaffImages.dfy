/**
 The token passes as a dictionary on chains, and which phrases they complete.
 */
module StaffImages {
  import opened Wrappers
  import opened Text
  import opened Words
  import opened Delimited
  import opened StaffChains
  import opened StaffTokens

  // ----- the token passes on chains

  /** What a dictionary of one-word rules makes of a word in lower case. */
  function ImageOf(rules: seq<Rule>, w: string): seq<Link>
    decreases |rules|, |w|
  {
    if rules == [] then [Some(w)]
    else if w == Key(rules[0]) then Chain(Split(rules[0].replacement))
    else ImageOf(rules[1..], w)
  }

  function ImageOfLink(rules: seq<Rule>, x: Link): seq<Link> {
    if x.Some? then ImageOf(rules, x.value) else [None]
  }

  function Mapped(c: seq<Link>, rules: seq<Rule>): seq<Link>
    decreases |c|, |rules|
  {
    if c == [] then [] else ImageOfLink(rules, c[0]) + Mapped(c[1..], rules)
  }

  lemma {:induction false} LookupChain(rules: seq<Rule>, u: string)
    ensures Chain(Lookup(rules, u)) == ImageOf(rules, LowerText(u))
  {
    if rules == [] {
      assert [Word(u)][1..] == [];
    } else {
      LookupChain(rules[1..], u);
    }
  }

  lemma {:induction false} MapChain(ps: seq<Piece>, rules: seq<Rule>)
    ensures Chain(MapWords(ps, rules)) == Mapped(Chain(ps), rules)
  {
    if ps != [] {
      MapChain(ps[1..], rules);
      var head := if ps[0].Word? then Lookup(rules, ps[0].text) else [ps[0]];
      ChainConcat(head, MapWords(ps[1..], rules));
      if ps[0].Word? { LookupChain(rules, ps[0].text); } else { assert [ps[0]][1..] == []; }
      if LinkOf(ps[0]) == [] { assert Chain(ps) == Chain(ps[1..]); } else { assert Chain(ps)[1..] == Chain(ps[1..]); }
    }
  }

  /** The first rule for a word decides; without one the word stays. */
  lemma {:induction false} ImageIs(rules: seq<Rule>, w: string) returns (k: nat)
    ensures k <= |rules| && forall i | 0 <= i < k :: Key(rules[i]) != w
    ensures k == |rules| ==> ImageOf(rules, w) == [Some(w)]
    ensures k < |rules| ==> Key(rules[k]) == w && ImageOf(rules, w) == Chain(Split(rules[k].replacement))
    decreases |rules|
  {
    if rules == [] || Key(rules[0]) == w {
      k := 0;
    } else {
      var j := ImageIs(rules[1..], w);
      assert forall i | 1 <= i < |rules| :: rules[i] == rules[1..][i - 1];
      k := j + 1;
    }
  }

  /** Through the dictionary exactly the words of `a2` end in one of `a`, and exactly those of `b2` begin with one
      of `b`; no image holds the pair by itself. */
  ghost predicate Makes(rules: seq<Rule>, a: set<string>, b: set<string>, a2: set<string>, b2: set<string>) {
    forall w: string :: MakesAt(ImageOf(rules, w), w, a, b, a2, b2)
  }

  ghost predicate MakesAt(
    image: seq<Link>, w: string, a: set<string>, b: set<string>, a2: set<string>, b2: set<string>)
  {
    && image != [] && !Contains(image, [a, b])
    && (In(image[|image| - 1], a) <==> w in a2)
    && (In(image[0], b) <==> w in b2)
  }

  /** The pair stands in the mapped chain exactly where its sources stand in the chain. */
  lemma {:induction false} MappedPair(
    c: seq<Link>, rules: seq<Rule>, a: set<string>, b: set<string>, a2: set<string>, b2: set<string>)
    requires Makes(rules, a, b, a2, b2)
    ensures Contains(Mapped(c, rules), [a, b]) <==> Contains(c, [a2, b2])
    decreases |c|
  {
    PairStarts(c, a2, b2);
    if c == [] {
      PairStarts([], a, b);
    } else {
      var head, tail := ImageOfLink(rules, c[0]), Mapped(c[1..], rules);
      LinkMakes(rules, c[0], a, b, a2, b2);
      MappedPair(c[1..], rules, a, b, a2, b2);
      PairConcat(head, tail, a, b);
      if |c| > 1 {
        LinkMakes(rules, c[1], a, b, a2, b2);
        assert tail[0] == ImageOfLink(rules, c[1])[0];
      }
    }
  }

  lemma LinkMakes(rules: seq<Rule>, x: Link, a: set<string>, b: set<string>, a2: set<string>, b2: set<string>)
    requires Makes(rules, a, b, a2, b2)
    ensures var image := ImageOfLink(rules, x);
            && image != [] && !Contains(image, [a, b])
            && (In(image[|image| - 1], a) <==> In(x, a2)) && (In(image[0], b) <==> In(x, b2))
  {
    if x.Some? {
      assert MakesAt(ImageOf(rules, x.value), x.value, a, b, a2, b2);
    } else {
      PairStarts([None], a, b);
      PairStarts([None][1..], a, b);
    }
  }

  // ----- "stale follow-up"

  const STALE_FOLLOW_UP: seq<set<string>> := [{"stale"}, {"follow"}, {"up"}]

  /** Through the dictionary only "stale" makes "stale", only "up" begins with "up", and "follow" comes from itself
      or, with "up" behind it, from the words of `whole`. */
  ghost predicate MakesFollowUp(rules: seq<Rule>, whole: set<string>) {
    forall w: string :: MakesFollowUpAt(ImageOf(rules, w), w, whole)
  }

  ghost predicate MakesFollowUpAt(image: seq<Link>, w: string, whole: set<string>) {
    && image != []
    && (if w == "stale" then image == [Some("stale")] else Some("stale") !in image)
    && (image[0] == Some("up") <==> w == "up")
    && (if w in whole then image == [Some("follow"), Some("up")]
        else if w == "follow" then image == [Some("follow")]
        else image[0] != Some("follow"))
  }

  lemma TripleStarts(c: seq<Link>)
    ensures Starts(c, STALE_FOLLOW_UP)
       <==> |c| > 2 && c[0] == Some("stale") && c[1] == Some("follow") && c[2] == Some("up")
  {
    assert STALE_FOLLOW_UP[1..] == [{"follow"}, {"up"}];
    if c != [] { PairStarts(c[1..], {"follow"}, {"up"}); }
  }

  lemma {:induction false} TripleSkips(x: seq<Link>, y: seq<Link>)
    requires Some("stale") !in x
    ensures Contains(x + y, STALE_FOLLOW_UP) <==> Contains(y, STALE_FOLLOW_UP)
  {
    if x == [] {
      assert x + y == y;
    } else {
      assert (x + y)[1..] == x[1..] + y;
      TripleStarts(x + y);
      TripleSkips(x[1..], y);
    }
  }

  lemma {:induction false} MappedTriple(c: seq<Link>, rules: seq<Rule>, whole: set<string>)
    requires MakesFollowUp(rules, whole)
    ensures Contains(Mapped(c, rules), STALE_FOLLOW_UP)
       <==> Contains(c, STALE_FOLLOW_UP) || Contains(c, [{"stale"}, whole])
    decreases |c|
  {
    TripleStarts(c);
    PairStarts(c, {"stale"}, whole);
    if c == [] {
      TripleStarts([]);
    } else {
      var head, tail := ImageOfLink(rules, c[0]), Mapped(c[1..], rules);
      MappedTriple(c[1..], rules, whole);
      if c[0].Some? { assert MakesFollowUpAt(ImageOf(rules, c[0].value), c[0].value, whole); }
      if c[0] == Some("stale") {
        assert (head + tail)[1..] == tail;
        TripleStarts(head + tail);
        MappedFollowUp(c[1..], rules, whole);
      } else {
        TripleSkips(head, tail);
      }
    }
  }

  predicate FollowUpFirst(c: seq<Link>) { |c| > 1 && c[0] == Some("follow") && c[1] == Some("up") }

  lemma MappedFollowUp(c: seq<Link>, rules: seq<Rule>, whole: set<string>)
    requires MakesFollowUp(rules, whole)
    ensures FollowUpFirst(Mapped(c, rules)) <==> FollowUpFirst(c) || (c != [] && In(c[0], whole))
  {
    if c != [] && c[0].Some? {
      assert MakesFollowUpAt(ImageOf(rules, c[0].value), c[0].value, whole);
      if |c| > 1 {
        assert Mapped(c[1..], rules) == ImageOfLink(rules, c[1]) + Mapped(c[2..], rules);
        if c[1].Some? { assert MakesFollowUpAt(ImageOf(rules, c[1].value), c[1].value, whole); }
      }
    }
  }
}
