/**
 Backtracking regular expressions as in section 22.2.2 of ECMA-262.  Like the matchers there, every pattern
 carries what must match after it; it yields its matches in the order a backtracking matcher tries them.
 */
module Regex {
  import opened Wrappers
  import opened Text

  /** Character sets, all under the `i` flag. */
  datatype CharSet = Letter(c: char) | NotAlnum | Separator

  predicate Member(cs: CharSet, c: char) {
    match cs
    case Letter(d) => Lower(c) == Lower(d)
    case NotAlnum => !IsAlnum(c)
    case Separator => IsSpace(c) || c == '.' || c == '_' || c == '-'  // [\s._-]
  }

  datatype Pattern =
    | Accept
    | Start(next: Pattern)                 // ^
    | AtEnd(next: Pattern)                 // $
    | One(cs: CharSet, next: Pattern)
    | Plus(cs: CharSet, next: Pattern)     // greedy +
    | Opt(cs: CharSet, next: Pattern)      // greedy ?
    | Alt(left: Pattern, right: Pattern)
    | Ahead(body: Pattern, next: Pattern)  // (?=...)
    | Group(next: Pattern)                 // the end of the first capturing group

  /** A match, with the end of its first group. */
  datatype Match = Match(group: nat, end: nat)

  predicate Has(cs: CharSet, s: string, i: nat) { i < |s| && Member(cs, s[i]) }

  /** All matches of `p` in `s` at `i`, preferred first; `g` is where the group ended. */
  function Ends(p: Pattern, s: string, i: nat, g: nat): seq<Match>
    requires i <= |s|
    decreases p, |s| - i
  {
    match p
    case Accept => [Match(g, i)]
    case Start(next) => if i == 0 then Ends(next, s, i, g) else []
    case AtEnd(next) => if i == |s| then Ends(next, s, i, g) else []
    case One(cs, next) => if Has(cs, s, i) then Ends(next, s, i + 1, g) else []
    case Plus(cs, next) => if Has(cs, s, i) then Ends(p, s, i + 1, g) + Ends(next, s, i + 1, g) else []
    case Opt(cs, next) => (if Has(cs, s, i) then Ends(next, s, i + 1, g) else []) + Ends(next, s, i, g)
    case Alt(left, right) => Ends(left, s, i, g) + Ends(right, s, i, g)
    case Ahead(body, next) => if Ends(body, s, i, g) != [] then Ends(next, s, i, g) else []
    case Group(next) => Ends(next, s, i, i)
  }

  predicate InRange(m: Option<Match>, i: nat, n: nat) {
    m.Some? ==> i <= m.value.group <= m.value.end <= n
  }

  lemma {:induction false} EndsInRange(p: Pattern, s: string, i: nat, g: nat)
    requires g <= i <= |s|
    ensures forall k | 0 <= k < |Ends(p, s, i, g)| :: InRange(Some(Ends(p, s, i, g)[k]), g, |s|)
    decreases p, |s| - i
  {
    match p
    case Accept =>
    case Start(next) => if i == 0 { EndsInRange(next, s, i, g); }
    case AtEnd(next) => if i == |s| { EndsInRange(next, s, i, g); }
    case One(cs, next) => if Has(cs, s, i) { EndsInRange(next, s, i + 1, g); }
    case Plus(cs, next) => if Has(cs, s, i) { EndsInRange(p, s, i + 1, g); EndsInRange(next, s, i + 1, g); }
    case Opt(cs, next) => if Has(cs, s, i) { EndsInRange(next, s, i + 1, g); } EndsInRange(next, s, i, g);
    case Alt(left, right) => EndsInRange(left, s, i, g); EndsInRange(right, s, i, g);
    case Ahead(_, next) => EndsInRange(next, s, i, g);
    case Group(next) => EndsInRange(next, s, i, i);
  }

  /** The match a matcher reports at `i`: the first one found. */
  function FirstMatch(p: Pattern, s: string, i: nat): (m: Option<Match>)
    requires i <= |s|
    ensures InRange(m, i, |s|)
  {
    EndsInRange(p, s, i, i);
    if Ends(p, s, i, i) == [] then None else Some(Ends(p, s, i, i)[0])
  }

  /** `s.replace(/(prefix)core/g, (_, p) => p + replacement)` from position `i` on, `find` giving the match at
      each position (section 22.2.6.11 of ECMA-262): the leftmost match is rewritten, the scan goes on at
      its end, one further if it is empty. */
  function ReplaceBy(find: nat -> Option<Match>, replacement: string, s: string, i: nat): string
    requires i <= |s| && forall j: nat | j <= |s| :: InRange(find(j), j, |s|)
    decreases |s| - i
  {
    assert InRange(find(i), i, |s|);
    var m := find(i);
    if m.Some? && m.value.end > i then
      s[i..m.value.group] + replacement + ReplaceBy(find, replacement, s, m.value.end)
    else
      (if m.Some? then replacement else "")
      + (if i < |s| then [s[i]] + ReplaceBy(find, replacement, s, i + 1) else "")
  }

  function Finder(p: Pattern, s: string): nat -> Option<Match> {
    (j: nat) => if j <= |s| then FirstMatch(p, s, j) else None
  }

  function ReplaceAll(p: Pattern, replacement: string, s: string): string {
    ReplaceBy(Finder(p, s), replacement, s, 0)
  }
}
