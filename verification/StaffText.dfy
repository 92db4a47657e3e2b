/**
 The staff-text rewriter: phrase passes, token passes, white space.  Its effect is stated on pieces of text
 (words and the characters between them); `RewriteIsPieces` is the bridge from the character-level code.
 */
module StaffText {
  import opened Wrappers
  import opened Text
  import opened Words
  import opened Delimited

  const PHRASES: seq<Rule> := PHRASES_A + PHRASES_B + PHRASES_C + PHRASES_D

  const PHRASES_A: seq<Rule> := [
    Rule(["call", "analysis"], false, "call summary"),
    Rule(["segment", "priority"], false, "customer priority"),
    Rule(["stale", "follow", "up"], false, "follow-up"),
    Rule(["admin", "transfer"], false, "transferred"),
    Rule(["service", "request"], true, "customer request"),
    Rule(["create", "task"], false, "create follow-up")]

  const PHRASES_B: seq<Rule> := [
    Rule(["matched", "rule"], true, "matched routing"),
    Rule(["rule", "trace"], false, "routing detail"),
    Rule(["ai", "workflow", "rule"], true, "call routing"),
    Rule(["ai", "workflow"], false, "follow-up"),
    WORKFLOW_RULES,
    WORKFLOW_RULE,
    Rule(["rule", "engine"], false, "call routing")]

  const WORKFLOW_RULES: Rule := Rule(["workflow", "rule"], true, "call routing")
  const WORKFLOW_RULE: Rule := Rule(["workflow", "rule"], false, "call routing")

  const PHRASES_C: seq<Rule> := [
    Rule(["support", "case"], true, "customer request"),
    Rule(["support", "axis"], false, "customer request focus"),
    Rule(["sales", "axis"], false, "purchase intent focus"),
    Rule(["shopify", "segment"], true, "Shopify customer list"),
    Rule(["customer", "segment"], true, "customer list")]

  const PHRASES_D: seq<Rule> := [
    Rule(["transcript", "snippet"], true, "call excerpt"),
    Rule(["transcript", "preview"], true, "call preview"),
    Rule(["transcript", "resolver"], false, "call summary"),
    Rule(["ai", "resolver"], false, "call summary"),
    Rule(["ai", "model"], false, "call model")]

  const TOKENS: seq<Rule> := TOKENS_A + TOKENS_B

  const TOKENS_A: seq<Rule> := [
    Rule(["AI"], false, "call"),
    Rule(["workflow"], false, "follow-up"),
    Rule(["rule"], false, "routing"),
    Rule(["rules"], false, "routing"),
    Rule(["axis"], false, "focus"),
    Rule(["sales"], false, "purchase intent"),
    Rule(["sale"], false, "purchase intent"),
    Rule(["support"], false, "customer request"),
    Rule(["automation"], false, "follow-up")]

  const TOKENS_B: seq<Rule> := [
    Rule(["segments"], false, "customer lists"),
    Rule(["segment"], false, "customer list"),
    Rule(["kanban"], false, "customer list"),
    Rule(["transcript"], false, "call summary"),
    Rule(["transcripts"], false, "call summary"),
    Rule(["resolver"], false, "summary"),
    Rule(["debug"], false, "review"),
    Rule(["commission"], false, "request")]

  /** `reduce` over a rule list. */
  function Fold(s: string, rules: seq<Rule>): string
    decreases |rules|, |s|
  {
    if rules == [] then s else Fold(Replace(s, rules[0]), rules[1..])
  }

  /** `staffSafeDisplayText`; `None` is `null` or `undefined`. */
  function StaffSafeDisplayText(value: Option<string>): string {
    Safe(if value.Some? then value.value else "")
  }

  function Safe(raw: string): string { Rewrite(raw, PHRASES, TOKENS) }

  /** The rewriter for any two rule tables. */
  function Rewrite(raw: string, phrases: seq<Rule>, tokens: seq<Rule>): string {
    Trim(Collapse(Fold(Fold(raw, phrases), tokens)))
  }

  // ----- the same on pieces

  function FoldPieces(ps: seq<Piece>, rules: seq<Rule>): seq<Piece>
    decreases |rules|, |ps|
  {
    if rules == [] then ps else FoldPieces(Pass(ps, rules[0]), rules[1..])
  }

  predicate IsBlank(p: Piece) { p.Gap? && IsSpace(p.c) }

  function CollapsePieces(ps: seq<Piece>, inRun: bool := false): seq<Piece> {
    if ps == [] then []
    else if IsBlank(ps[0]) then (if inRun then [] else [Gap(' ')]) + CollapsePieces(ps[1..], true)
    else [ps[0]] + CollapsePieces(ps[1..], false)
  }

  function TrimFront(ps: seq<Piece>): seq<Piece> {
    if ps != [] && IsBlank(ps[0]) then TrimFront(ps[1..]) else ps
  }

  function TrimBack(ps: seq<Piece>): seq<Piece> {
    if ps != [] && IsBlank(ps[|ps| - 1]) then TrimBack(ps[..|ps| - 1]) else ps
  }

  function Tidy(ps: seq<Piece>): seq<Piece> { TrimBack(TrimFront(CollapsePieces(ps))) }

  function RewritePieces(ps: seq<Piece>, phrases: seq<Rule>, tokens: seq<Rule>): seq<Piece> {
    Tidy(FoldPieces(FoldPieces(ps, phrases), tokens))
  }

  // ----- pieces stay canonical

  lemma {:induction false} CanonicalConcat(a: seq<Piece>, b: seq<Piece>)
    requires Canonical(a) && Canonical(b) && GapFirst(b)
    ensures Canonical(a + b)
  {
    if a == [] {
      assert a + b == b;
    } else {
      assert (a + b)[1..] == a[1..] + b;
      CanonicalConcat(a[1..], b);
    }
  }

  lemma {:induction false} CanonicalPrefix(ps: seq<Piece>, n: nat)
    requires Canonical(ps) && n <= |ps|
    ensures Canonical(ps[..n])
  {
    if n > 0 {
      assert ps[..n][1..] == ps[1..][..n - 1];
      CanonicalPrefix(ps[1..], n - 1);
    }
  }

  lemma {:induction false} SkipSeparatorsCanonical(ps: seq<Piece>)
    requires Canonical(ps)
    ensures Canonical(SkipSeparators(ps))
  {
    if ps != [] { SkipSeparatorsCanonical(ps[1..]); }
  }

  lemma {:induction false} AfterPhraseCanonical(ps: seq<Piece>, words: seq<string>, plural: bool)
    requires Canonical(ps) && words != []
    ensures var rest := AfterPhrase(ps, words, plural); rest.Some? ==> Canonical(rest.value) && GapFirst(rest.value)
    decreases |words|
  {
    if ps != [] && ps[0].Word? && |words| > 1 {
      SkipSeparatorsCanonical(ps[1..]);
      AfterPhraseCanonical(SkipSeparators(ps[1..]), words[1..], plural);
    }
  }

  lemma {:induction false} PassCanonical(ps: seq<Piece>, r: Rule)
    requires Canonical(ps)
    ensures Canonical(Pass(ps, r))
    ensures GapFirst(ps) ==> GapFirst(Pass(ps, r))
    decreases |ps|
  {
    if ps != [] {
      var rest := AfterPhrase(ps, r.words, r.plural);
      AfterPhraseCanonical(ps, r.words, r.plural);
      if rest.Some? {
        PassCanonical(rest.value, r);
        SplitCanonical(r.replacement);
        CanonicalConcat(Split(r.replacement), Pass(rest.value, r));
      } else {
        PassCanonical(ps[1..], r);
        assert Pass(ps, r)[1..] == Pass(ps[1..], r);
      }
    }
  }

  lemma {:induction false} FoldCanonical(ps: seq<Piece>, rules: seq<Rule>)
    requires Canonical(ps)
    ensures Canonical(FoldPieces(ps, rules))
    decreases |rules|
  {
    if rules != [] {
      PassCanonical(ps, rules[0]);
      FoldCanonical(Pass(ps, rules[0]), rules[1..]);
    }
  }

  lemma {:induction false} CollapseCanonical(ps: seq<Piece>, inRun: bool)
    requires Canonical(ps)
    ensures Canonical(CollapsePieces(ps, inRun))
    ensures GapFirst(ps) && !inRun ==> GapFirst(CollapsePieces(ps, inRun))
  {
    if ps != [] {
      CollapseCanonical(ps[1..], IsBlank(ps[0]));
      if !IsBlank(ps[0]) {
        assert CollapsePieces(ps, inRun)[1..] == CollapsePieces(ps[1..], false);
      } else if !inRun {
        assert CollapsePieces(ps, inRun)[1..] == CollapsePieces(ps[1..], true);
      } else {
        assert CollapsePieces(ps, inRun) == CollapsePieces(ps[1..], true);
      }
    }
  }

  lemma {:induction false} TrimCanonical(ps: seq<Piece>)
    requires Canonical(ps)
    ensures Canonical(TrimFront(ps)) && Canonical(TrimBack(ps))
  {
    if ps != [] {
      if IsBlank(ps[0]) { TrimCanonical(ps[1..]); }
      if IsBlank(ps[|ps| - 1]) {
        CanonicalPrefix(ps, |ps| - 1);
        TrimCanonical(ps[..|ps| - 1]);
      }
    }
  }

  lemma TidyCanonical(ps: seq<Piece>)
    requires Canonical(ps)
    ensures Canonical(Tidy(ps))
  {
    CollapseCanonical(ps, false);
    TrimCanonical(CollapsePieces(ps));
    TrimCanonical(TrimFront(CollapsePieces(ps)));
  }

  // ----- the code and the pieces agree

  lemma {:induction false} FoldIsPieces(s: string, rules: seq<Rule>)
    ensures Fold(s, rules) == Join(FoldPieces(Split(s), rules))
    decreases |rules|
  {
    JoinSplit(s);
    if rules != [] {
      var r := rules[0];
      SplitCanonical(s);
      PassCanonical(Split(s), r);
      ReplaceIsPass(s, r);
      SplitJoin(Pass(Split(s), r));
      FoldIsPieces(Replace(s, r), rules[1..]);
    }
  }

  lemma AlnumIsNoSpace(c: char)
    ensures !(IsAlnum(c) && IsSpace(c))
  {}

  lemma {:induction false} CollapseIsPieces(ps: seq<Piece>, inRun: bool)
    requires Canonical(ps)
    ensures Collapse(Join(ps), inRun) == Join(CollapsePieces(ps, inRun))
  {
    if ps != [] {
      CollapseIsPieces(ps[1..], IsBlank(ps[0]));
      if ps[0].Word? {
        forall k | 0 <= k < |ps[0].text| ensures !IsSpace(ps[0].text[k]) { AlnumIsNoSpace(ps[0].text[k]); }
        CollapseRun(ps[0].text, Join(ps[1..]), inRun);
        assert CollapsePieces(ps, inRun)[1..] == CollapsePieces(ps[1..], false);
      } else {
        assert Join(ps)[1..] == Join(ps[1..]);
        var tail := CollapsePieces(ps[1..], IsBlank(ps[0]));
        if IsBlank(ps[0]) && inRun {
          assert [] + tail == tail;
        } else {
          assert CollapsePieces(ps, inRun)[1..] == tail;
        }
      }
    }
  }

  lemma {:induction false} TrimFrontIs(ps: seq<Piece>)
    requires Canonical(ps)
    ensures TrimStart(Join(ps)) == Join(TrimFront(ps))
  {
    if ps != [] {
      if ps[0].Word? {
        AlnumIsNoSpace(ps[0].text[0]);
      } else {
        assert Join(ps)[1..] == Join(ps[1..]);
        if IsBlank(ps[0]) { TrimFrontIs(ps[1..]); }
      }
    }
  }

  lemma LastProper(ps: seq<Piece>)
    requires Canonical(ps) && ps != []
    ensures Proper(ps[|ps| - 1])
  {
    if |ps| > 1 { LastProper(ps[1..]); }
  }

  lemma {:induction false} TrimBackIs(ps: seq<Piece>)
    requires Canonical(ps)
    ensures TrimEnd(Join(ps)) == Join(TrimBack(ps))
    decreases |ps|
  {
    if ps != [] {
      var front, last := ps[..|ps| - 1], ps[|ps| - 1];
      assert ps == front + [last];
      JoinConcat(front, [last]);
      assert Join([last]) == Show(last) + Join([]) == Show(last);
      LastProper(ps);
      if last.Word? {
        AlnumIsNoSpace(last.text[|last.text| - 1]);
      } else {
        assert Join(ps)[..|Join(ps)| - 1] == Join(front);
        if IsBlank(last) {
          CanonicalPrefix(ps, |ps| - 1);
          TrimBackIs(front);
        }
      }
    }
  }

  lemma TidyIs(ps: seq<Piece>)
    requires Canonical(ps)
    ensures Trim(Collapse(Join(ps))) == Join(Tidy(ps))
  {
    CollapseIsPieces(ps, false);
    CollapseCanonical(ps, false);
    TrimFrontIs(CollapsePieces(ps));
    TrimCanonical(CollapsePieces(ps));
    TrimBackIs(TrimFront(CollapsePieces(ps)));
  }

  /** The rewriter, character by character, is the word-level rewriter. */
  lemma {:induction false} RewriteIsPieces(raw: string, phrases: seq<Rule>, tokens: seq<Rule>)
    ensures Split(Rewrite(raw, phrases, tokens)) == RewritePieces(Split(raw), phrases, tokens)
  {
    SplitCanonical(raw);
    FoldIsPieces(raw, phrases);
    FoldCanonical(Split(raw), phrases);
    var phrased := FoldPieces(Split(raw), phrases);
    SplitJoin(phrased);
    FoldIsPieces(Join(phrased), tokens);
    FoldCanonical(phrased, tokens);
    var folded := FoldPieces(phrased, tokens);
    TidyIs(folded);
    TidyCanonical(folded);
    SplitJoin(Tidy(folded));
  }
}
