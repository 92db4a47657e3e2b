/**
 Text as words and the characters between them.
 */
module Words {
  import opened Text

  /** A maximal run of letters and digits, or one other character. */
  datatype Piece = Word(text: string) | Gap(c: char)

  /** Length of the run of letters and digits that `s` starts with. */
  function WordLength(s: string): (n: nat)
    ensures n <= |s| && AllAlnum(s[..n])
    ensures n < |s| ==> !IsAlnum(s[n])
  {
    if s != "" && IsAlnum(s[0]) then
      var n := 1 + WordLength(s[1..]);
      assert forall k | 1 <= k < n :: s[k] == s[1..][..n - 1][k - 1];
      n
    else 0
  }

  function Split(s: string): seq<Piece> {
    if s == "" then []
    else if IsAlnum(s[0]) then [Word(s[..WordLength(s)])] + Split(s[WordLength(s)..])
    else [Gap(s[0])] + Split(s[1..])
  }

  function Show(p: Piece): string {
    match p
    case Word(text) => text
    case Gap(c) => [c]
  }

  function Join(ps: seq<Piece>): string {
    if ps == [] then "" else Show(ps[0]) + Join(ps[1..])
  }

  /** A word is all letters and digits, a gap is neither. */
  predicate Proper(p: Piece) {
    match p
    case Word(text) => text != "" && AllAlnum(text)
    case Gap(c) => !IsAlnum(c)
  }

  /** Proper pieces, no word next to another. */
  predicate Canonical(ps: seq<Piece>) {
    ps == [] || (Proper(ps[0]) && (ps[0].Word? ==> GapFirst(ps[1..])) && Canonical(ps[1..]))
  }

  predicate GapFirst(ps: seq<Piece>) { ps == [] || ps[0].Gap? }

  lemma {:induction false} SplitCanonical(s: string)
    ensures Canonical(Split(s))
    ensures s != "" && !IsAlnum(s[0]) ==> Split(s)[0] == Gap(s[0])
  {
    if s != "" {
      if IsAlnum(s[0]) {
        SplitCanonical(s[WordLength(s)..]);
        assert Split(s)[1..] == Split(s[WordLength(s)..]);
      } else {
        SplitCanonical(s[1..]);
        assert Split(s)[1..] == Split(s[1..]);
      }
    }
  }

  lemma {:induction false} JoinSplit(s: string)
    ensures Join(Split(s)) == s
  {
    if s != "" {
      if IsAlnum(s[0]) {
        JoinSplit(s[WordLength(s)..]);
        assert Split(s)[1..] == Split(s[WordLength(s)..]);
      } else {
        JoinSplit(s[1..]);
        assert Split(s)[1..] == Split(s[1..]);
      }
    }
  }

  lemma {:induction false} WordLengthIs(w: string, rest: string)
    requires AllAlnum(w) && (rest != "" ==> !IsAlnum(rest[0]))
    ensures WordLength(w + rest) == |w|
  {
    if w == "" {
      assert w + rest == rest;
    } else {
      assert (w + rest)[1..] == w[1..] + rest;
      assert IsAlnum(w[0]);
      WordLengthIs(w[1..], rest);
    }
  }

  /** Splitting puts a word in front of a text that does not go on with a letter or digit. */
  lemma SplitWord(w: string, rest: string)
    requires w != "" && AllAlnum(w) && (rest != "" ==> !IsAlnum(rest[0]))
    ensures Split(w + rest) == [Word(w)] + Split(rest)
  {
    WordLengthIs(w, rest);
    assert IsAlnum(w[0]) && (w + rest)[0] == w[0];
    assert (w + rest)[..|w|] == w && (w + rest)[|w|..] == rest;
  }

  lemma JoinGapFirst(ps: seq<Piece>)
    requires Canonical(ps) && GapFirst(ps)
    ensures Join(ps) != "" ==> !IsAlnum(Join(ps)[0])
  {}

  lemma {:induction false} SplitJoin(ps: seq<Piece>)
    requires Canonical(ps)
    ensures Split(Join(ps)) == ps
  {
    if ps != [] {
      SplitJoin(ps[1..]);
      if ps[0].Word? {
        JoinGapFirst(ps[1..]);
        SplitWord(ps[0].text, Join(ps[1..]));
      } else {
        assert Join(ps)[1..] == Join(ps[1..]);
      }
    }
  }

  lemma {:induction false} JoinConcat(a: seq<Piece>, b: seq<Piece>)
    ensures Join(a + b) == Join(a) + Join(b)
  {
    if a == [] {
      assert a + b == b;
    } else {
      assert (a + b)[1..] == a[1..] + b;
      JoinConcat(a[1..], b);
    }
  }

  /** The words of a text, in order, in lower case. */
  function WordsOf(ps: seq<Piece>): seq<string> {
    if ps == [] then []
    else (if ps[0].Word? then [LowerText(ps[0].text)] else []) + WordsOf(ps[1..])
  }

  lemma {:induction false} WordsConcat(a: seq<Piece>, b: seq<Piece>)
    ensures WordsOf(a + b) == WordsOf(a) + WordsOf(b)
  {
    if a == [] {
      assert a + b == b;
    } else {
      assert (a + b)[1..] == a[1..] + b;
      WordsConcat(a[1..], b);
    }
  }
}
