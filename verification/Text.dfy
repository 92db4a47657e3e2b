/**
 Characters and whitespace as the regular expressions and string methods of the source see them.
 */
module Text {
  predicate IsAlnum(c: char) {
    'a' <= c <= 'z' || 'A' <= c <= 'Z' || '0' <= c <= '9'
  }

  /** Case folding of a case-insensitive, non-Unicode regular expression on the letters used in it:
      only A-Z and a-z are identified (`Canonicalize` never maps another character into ASCII). */
  function Lower(c: char): char {
    if 'A' <= c <= 'Z' then ((c as int) + 32) as char else c
  }

  function LowerText(s: string): (r: string)
    ensures |r| == |s|
  {
    seq(|s|, i requires 0 <= i < |s| => Lower(s[i]))
  }

  predicate AllAlnum(s: string) {
    forall i | 0 <= i < |s| :: IsAlnum(s[i])
  }

  /** White space and line terminators: what `\s` matches and `trim` removes. */
  predicate IsSpace(c: char) {
    var n := c as int;
    || 9 <= n <= 13 || n == 32 || n == 0xa0 || n == 0xfeff || n == 0x1680 || 0x2000 <= n <= 0x200a
    || n == 0x2028 || n == 0x2029 || n == 0x202f || n == 0x205f || n == 0x3000
  }

  /** The white space and line terminators of ECMA-262, sections 12.2 and 12.3. */
  const WHITE_SPACE: string :=
    "\t\n\U{b}\U{c}\r \U{a0}\U{1680}\U{2000}\U{2001}\U{2002}\U{2003}\U{2004}\U{2005}\U{2006}\U{2007}\U{2008}\U{2009}"
    + "\U{200a}\U{2028}\U{2029}\U{202f}\U{205f}\U{3000}\U{feff}"

  lemma SpaceIsListed(c: char)
    ensures IsSpace(c) <==> c in WHITE_SPACE
  {}

  /** `replace(/\s+/g, ' ')`: a run of white space becomes one space.  `inRun`: a run was just replaced. */
  function Collapse(s: string, inRun: bool := false): string {
    if s == "" then ""
    else if IsSpace(s[0]) then (if inRun then "" else " ") + Collapse(s[1..], true)
    else [s[0]] + Collapse(s[1..], false)
  }

  function TrimStart(s: string): (r: string)
    ensures |r| <= |s|
  {
    if s != "" && IsSpace(s[0]) then TrimStart(s[1..]) else s
  }

  function TrimEnd(s: string): (r: string)
    ensures |r| <= |s|
  {
    if s != "" && IsSpace(s[|s| - 1]) then TrimEnd(s[..|s| - 1]) else s
  }

  function Trim(s: string): (r: string)
    ensures |r| <= |s|
  {
    TrimEnd(TrimStart(s))
  }

  /** Collapsing copies a run without white space. */
  lemma {:induction false} CollapseRun(w: string, rest: string, inRun: bool)
    requires forall k | 0 <= k < |w| :: !IsSpace(w[k])
    ensures Collapse(w + rest, inRun) == w + Collapse(rest, if w == "" then inRun else false)
  {
    if w == "" {
      assert w + rest == rest;
    } else {
      assert (w + rest)[1..] == w[1..] + rest;
      CollapseRun(w[1..], rest, false);
    }
  }

  /** White space that is only single spaces is not changed. */
  lemma {:induction false} CollapseSingleSpaced(s: string, inRun: bool)
    requires s != "" ==> !IsSpace(s[|s| - 1]) && (IsSpace(s[0]) ==> !inRun)
    requires forall i | 0 <= i < |s| && IsSpace(s[i]) :: s[i] == ' ' && (i > 0 ==> !IsSpace(s[i - 1]))
    ensures Collapse(s, inRun) == s
  {
    if s != "" {
      assert forall i | 0 <= i < |s[1..]| :: s[1..][i] == s[i + 1];
      if |s| > 1 && IsSpace(s[0]) { assert !IsSpace(s[1]); }
      CollapseSingleSpaced(s[1..], IsSpace(s[0]));
    }
  }
}
