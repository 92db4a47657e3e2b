/**
 Rows of words that may not be followed by certain words, and what a pass does to them.
 */
module StaffPatterns {
  import opened StaffChains

  /** The chain starts with the forms, and what follows is none of the barred words. */
  predicate Hits(c: seq<Link>, forms: seq<set<string>>, barred: set<string>) {
    if forms == [] then c == [] || !In(c[0], barred)
    else c != [] && In(c[0], forms[0]) && Hits(c[1..], forms[1..], barred)
  }

  predicate Shows(c: seq<Link>, forms: seq<set<string>>, barred: set<string>) {
    Hits(c, forms, barred) || (c != [] && Shows(c[1..], forms, barred))
  }

  lemma {:induction false} HitsNothingBarred(c: seq<Link>, forms: seq<set<string>>)
    ensures Hits(c, forms, {}) <==> Starts(c, forms)
  {
    if forms != [] && c != [] { HitsNothingBarred(c[1..], forms[1..]); }
  }

  lemma {:induction false} ShowsNothingBarred(c: seq<Link>, forms: seq<set<string>>)
    ensures Shows(c, forms, {}) <==> Contains(c, forms)
  {
    HitsNothingBarred(c, forms);
    if c != [] { ShowsNothingBarred(c[1..], forms); }
  }

  /** Barring more words matters only where one of them follows. */
  lemma {:induction false} HitsBarred(c: seq<Link>, forms: seq<set<string>>, some: set<string>, more: set<string>)
    requires some <= more
    ensures Hits(c, forms, more) ==> Hits(c, forms, some)
    ensures Hits(c, forms, some) && !Starts(c, forms + [more]) ==> Hits(c, forms, more)
    decreases |forms|
  {
    if forms == [] {
      assert forms + [more] == [more] && [more][1..] == [];
      assert c != [] ==> (Starts(c, [more]) <==> In(c[0], more));
    } else if c != [] {
      assert (forms + [more])[1..] == forms[1..] + [more];
      HitsBarred(c[1..], forms[1..], some, more);
    }
  }

  lemma {:induction false} HitsOrBarred(c: seq<Link>, forms: seq<set<string>>, barred: set<string>)
    ensures Hits(c, forms, barred) ==> !Starts(c, forms + [barred])
    decreases |forms|
  {
    if forms == [] {
      assert forms + [barred] == [barred];
    } else if c != [] {
      assert (forms + [barred])[1..] == forms[1..] + [barred];
      HitsOrBarred(c[1..], forms[1..], barred);
    }
  }

  // ----- a pass that begins and ends no such row

  /** The pass neither takes nor makes one of the words at its first place. */
  ghost predicate Clear(rule: seq<set<string>>, image: seq<Link>, words: set<string>)
    requires rule != [] && image != []
  {
    rule[0] !! words && !In(image[0], words)
  }

  /** Rows the pass does not touch stay where they are. */
  lemma {:induction false} HitsKept(
    c: seq<Link>, rule: seq<set<string>>, image: seq<Link>, forms: seq<set<string>>, barred: set<string>)
    requires rule != [] && image != [] && Clear(rule, image, barred)
    requires forall i | 0 <= i < |forms| :: Clear(rule, image, forms[i])
    ensures Hits(Rewritten(c, rule, image), forms, barred) <==> Hits(c, forms, barred)
    decreases |forms|
  {
    var out := Rewritten(c, rule, image);
    if c != [] {
      RewrittenStart(c, rule, image);
      if forms != [] {
        assert Clear(rule, image, forms[0]);
        if !Starts(c, rule) {
          assert out[1..] == Rewritten(c[1..], rule, image);
          HitsKept(c[1..], rule, image, forms[1..], barred);
        }
      }
    }
  }

  /** The pass and the row never share a word: the row's first word is not made, none of its later ones is where a
      match begins, and where a match has its first word the next ones differ. */
  ghost predicate Apart(rule: seq<set<string>>, image: seq<Link>, forms: seq<set<string>>, barred: set<string>) {
    && rule != [] && image != [] && forms != [] && Clear(rule, image, barred)
    && (forall i | 1 <= i < |forms| :: Clear(rule, image, forms[i]))
    && (forall k | 0 <= k < |image| :: !In(image[k], forms[0]))
    && (forall k | 0 <= k < |rule| ::
          rule[k] !! forms[0] || (k + 1 < |rule| && |forms| > 1 && rule[k + 1] !! forms[1]))
  }

  lemma {:induction false} ShowsSkipImage(
    image: seq<Link>, rest: seq<Link>, forms: seq<set<string>>, barred: set<string>)
    requires forms != [] && forall k | 0 <= k < |image| :: !In(image[k], forms[0])
    ensures Shows(image + rest, forms, barred) <==> Shows(rest, forms, barred)
  {
    if image == [] {
      assert image + rest == rest;
    } else {
      assert (image + rest)[1..] == image[1..] + rest;
      ShowsSkipImage(image[1..], rest, forms, barred);
    }
  }

  /** No row starts within a match. */
  lemma {:induction false} ShowsSkipMatch(
    c: seq<Link>, rule: seq<set<string>>, forms: seq<set<string>>, barred: set<string>)
    requires forms != [] && Starts(c, rule)
    requires forall k | 0 <= k < |rule| ::
      rule[k] !! forms[0] || (k + 1 < |rule| && |forms| > 1 && rule[k + 1] !! forms[1])
    ensures Shows(c, forms, barred) <==> Shows(c[|rule|..], forms, barred)
    decreases |rule|
  {
    if rule == [] {
      assert c[0..] == c;
    } else {
      assert c[1..][|rule| - 1..] == c[|rule|..];
      forall k | 0 <= k < |rule[1..]|
        ensures rule[1..][k] !! forms[0] || (k + 1 < |rule[1..]| && |forms| > 1 && rule[1..][k + 1] !! forms[1])
      {
        assert rule[1..][k] == rule[k + 1];
      }
      ShowsSkipMatch(c[1..], rule[1..], forms, barred);
      assert !Hits(c, forms, barred);
    }
  }

  /** A pass apart from the row neither makes one nor takes one away. */
  lemma {:induction false} ShowsKept(
    c: seq<Link>, rule: seq<set<string>>, image: seq<Link>, forms: seq<set<string>>, barred: set<string>)
    requires Apart(rule, image, forms, barred)
    ensures Shows(Rewritten(c, rule, image), forms, barred) <==> Shows(c, forms, barred)
    decreases |c|
  {
    if c != [] {
      if Starts(c, rule) {
        ShowsKept(c[|rule|..], rule, image, forms, barred);
        ShowsSkipImage(image, Rewritten(c[|rule|..], rule, image), forms, barred);
        ShowsSkipMatch(c, rule, forms, barred);
      } else {
        ShowsKept(c[1..], rule, image, forms, barred);
        forall i | 0 <= i < |forms[1..]| ensures Clear(rule, image, forms[1..][i]) {
          assert forms[1..][i] == forms[i + 1];
        }
        HitsKept(c[1..], rule, image, forms[1..], barred);
        assert Rewritten(c, rule, image)[1..] == Rewritten(c[1..], rule, image);
      }
    }
  }

  // ----- a pass that takes the row together with a barred word

  lemma {:induction false} LeadEaten(
    c: seq<Link>, lead: seq<set<string>>, eaten: set<string>, image: seq<Link>, barred: set<string>)
    requires lead != [] && image != [] && barred <= eaten
    requires Clear(lead + [eaten], image, barred) && !In(image[0], lead[0])
    requires forall i | 1 <= i < |lead| :: Clear(lead + [eaten], image, lead[i])
    ensures Hits(Rewritten(c, lead + [eaten], image), lead, barred) <==> Hits(c, lead, eaten)
  {
    var rule := lead + [eaten];
    if c != [] {
      HitsOrBarred(c, lead, eaten);
      if !Starts(c, rule) {
        assert Rewritten(c, rule, image)[1..] == Rewritten(c[1..], rule, image);
        HitsKept(c[1..], rule, image, lead[1..], barred);
        HitsBarred(c, lead, barred, eaten);
      }
    }
  }

  /** The pass takes the row's later words where a word it wants follows them: the row is left where none does. */
  lemma {:induction false} ShowsEaten(
    c: seq<Link>, first: set<string>, lead: seq<set<string>>, eaten: set<string>, image: seq<Link>, barred: set<string>)
    requires lead != [] && image != [] && barred <= eaten
    requires Clear(lead + [eaten], image, barred) && !In(image[0], lead[0])
    requires forall i | 1 <= i < |lead| :: Clear(lead + [eaten], image, lead[i])
    requires forall k | 0 <= k < |image| :: !In(image[k], first)
    requires forall k | 0 <= k <= |lead| :: (lead + [eaten])[k] !! first
    ensures Shows(Rewritten(c, lead + [eaten], image), [first] + lead, barred) <==> Shows(c, [first] + lead, eaten)
    decreases |c|
  {
    var rule, forms := lead + [eaten], [first] + lead;
    if c != [] {
      if Starts(c, rule) {
        ShowsEaten(c[|rule|..], first, lead, eaten, image, barred);
        ShowsSkipImage(image, Rewritten(c[|rule|..], rule, image), forms, barred);
        ShowsSkipMatch(c, rule, forms, eaten);
      } else {
        ShowsEaten(c[1..], first, lead, eaten, image, barred);
        LeadEaten(c[1..], lead, eaten, image, barred);
        assert Rewritten(c, rule, image)[1..] == Rewritten(c[1..], rule, image) && forms[1..] == lead;
      }
    }
  }

  // ----- a pass that takes a barred word away

  lemma {:induction false} HitsFreed(
    c: seq<Link>, rule: seq<set<string>>, image: seq<Link>, forms: seq<set<string>>, barred: set<string>)
    requires rule != [] && image != [] && !In(image[0], barred)
    requires forall i | 0 <= i < |forms| :: Clear(rule, image, forms[i])
    ensures Hits(Rewritten(c, rule, image), forms, barred) <==> Hits(c, forms, barred) || Starts(c, forms + rule)
    decreases |forms|
  {
    var out := Rewritten(c, rule, image);
    if c != [] {
      RewrittenStart(c, rule, image);
      if forms == [] {
        assert forms + rule == rule;
      } else {
        assert Clear(rule, image, forms[0]) && (forms + rule)[1..] == forms[1..] + rule;
        if !Starts(c, rule) {
          assert out[1..] == Rewritten(c[1..], rule, image);
          HitsFreed(c[1..], rule, image, forms[1..], barred);
        }
      }
    } else {
      assert forms + rule != [];
    }
  }

  /** Where the pass takes the words behind the row away, the row is no longer followed by them. */
  lemma {:induction false} ShowsFreed(
    c: seq<Link>, rule: seq<set<string>>, image: seq<Link>, forms: seq<set<string>>, barred: set<string>)
    requires rule != [] && image != [] && forms != [] && !In(image[0], barred)
    requires forall i | 0 <= i < |forms| :: Clear(rule, image, forms[i])
    requires forall k | 0 <= k < |image| :: !In(image[k], forms[0])
    requires forall k | 0 <= k < |rule| :: rule[k] !! forms[0]
    ensures Shows(Rewritten(c, rule, image), forms, barred)
       <==> Shows(c, forms, barred) || Contains(c, forms + rule)
    decreases |c|
  {
    if c == [] {
      assert forms + rule != [];
    } else if Starts(c, rule) {
      var rest := c[|rule|..];
      ShowsFreed(rest, rule, image, forms, barred);
      ShowsSkipImage(image, Rewritten(rest, rule, image), forms, barred);
      ShowsSkipMatch(c, rule, forms, barred);
      ShowsSkipMatch(c, rule, forms + rule, {});
      ShowsNothingBarred(c, forms + rule);
      ShowsNothingBarred(rest, forms + rule);
    } else {
      ShowsFreed(c[1..], rule, image, forms, barred);
      HitsFreed(c, rule, image, forms, barred);
      assert Rewritten(c, rule, image)[1..] == Rewritten(c[1..], rule, image);
    }
  }

  // ----- a pass that makes the end of the row

  lemma {:induction false} HitsPrefix(image: seq<Link>, rest: seq<Link>, made: seq<set<string>>)
    requires |image| == |made| && forall k | 0 <= k < |made| :: In(image[k], made[k])
    ensures Hits(image + rest, made, {})
  {
    if made != [] {
      assert (image + rest)[1..] == image[1..] + rest;
      HitsPrefix(image[1..], rest, made[1..]);
    }
  }

  /** The image is the row `made`, and the pass disturbs none of its later words. */
  ghost predicate Spells(rule: seq<set<string>>, image: seq<Link>, made: seq<set<string>>) {
    && rule != [] && made != [] && |image| == |made|
    && (forall k | 0 <= k < |made| :: In(image[k], made[k]))
    && (forall k | 1 <= k < |made| :: Clear(rule, image, made[k]))
  }

  lemma {:induction false} HitsMade(c: seq<Link>, rule: seq<set<string>>, image: seq<Link>, made: seq<set<string>>)
    requires Spells(rule, image, made)
    ensures Hits(Rewritten(c, rule, image), made, {}) <==> Starts(c, rule) || Hits(c, made, {})
  {
    if c != [] {
      if Starts(c, rule) {
        HitsPrefix(image, Rewritten(c[|rule|..], rule, image), made);
      } else {
        assert Rewritten(c, rule, image)[1..] == Rewritten(c[1..], rule, image);
        HitsKept(c[1..], rule, image, made[1..], {});
      }
    }
  }

  /** A word in front of what the pass makes: it was in front of the same words, or of a match. */
  lemma {:induction false} ShowsMade(
    c: seq<Link>, rule: seq<set<string>>, image: seq<Link>, first: set<string>, made: seq<set<string>>)
    requires Spells(rule, image, made)
    requires (forall k | 0 <= k < |image| :: !In(image[k], first)) && forall k | 0 <= k < |rule| :: rule[k] !! first
    ensures Contains(Rewritten(c, rule, image), [first] + made)
       <==> Contains(c, [first] + made) || Contains(c, [first] + rule)
    decreases |c|
  {
    var out, before, after := Rewritten(c, rule, image), [first] + made, [first] + rule;
    assert before[1..] == made && after[1..] == rule;
    if c != [] {
      if Starts(c, rule) {
        var rest := c[|rule|..];
        ShowsMade(rest, rule, image, first, made);
        ContainsSkip(c, rule, image, Rewritten(rest, rule, image), before);
        ContainsSkip(c, rule, image, Rewritten(rest, rule, image), after);
      } else {
        ShowsMade(c[1..], rule, image, first, made);
        assert out[1..] == Rewritten(c[1..], rule, image);
        HitsMade(c[1..], rule, image, made);
        HitsNothingBarred(out[1..], made);
        HitsNothingBarred(c[1..], made);
      }
    }
  }

  lemma ContainsSkip(
    c: seq<Link>, rule: seq<set<string>>, image: seq<Link>, rest: seq<Link>, forms: seq<set<string>>)
    requires forms != [] && Starts(c, rule) && forall k | 0 <= k < |image| :: !In(image[k], forms[0])
    requires forall k | 0 <= k < |rule| ::
      rule[k] !! forms[0] || (k + 1 < |rule| && |forms| > 1 && rule[k + 1] !! forms[1])
    ensures Contains(c, forms) <==> Contains(c[|rule|..], forms)
    ensures Contains(image + rest, forms) <==> Contains(rest, forms)
  {
    ShowsSkipImage(image, rest, forms, {});
    ShowsSkipMatch(c, rule, forms, {});
    ShowsNothingBarred(c, forms);
    ShowsNothingBarred(c[|rule|..], forms);
    ShowsNothingBarred(image + rest, forms);
    ShowsNothingBarred(rest, forms);
  }

  /** The pass for a word and a row that puts the row back: a match is left where the word stood twice. */
  lemma {:induction false} ShowsMadeAgain(c: seq<Link>, first: set<string>, image: seq<Link>, made: seq<set<string>>)
    requires Spells([first] + made, image, made)
    requires (forall k | 0 <= k < |image| :: !In(image[k], first)) && forall k | 0 <= k < |made| :: made[k] !! first
    ensures Contains(Rewritten(c, [first] + made, image), [first] + made) <==> Contains(c, [first] + ([first] + made))
    decreases |c|
  {
    var rule := [first] + made;
    var out, twice := Rewritten(c, rule, image), [first] + rule;
    assert rule[1..] == made && twice[1..] == rule;
    if c != [] {
      if Starts(c, rule) {
        var rest := c[|rule|..];
        ShowsMadeAgain(rest, first, image, made);
        assert forall k | 1 <= k < |rule| :: rule[k] == made[k - 1];
        ShowsSkipImage(image, Rewritten(rest, rule, image), rule, {});
        ShowsNothingBarred(out, rule);
        ShowsNothingBarred(Rewritten(rest, rule, image), rule);
        ContainsSkip(c, rule, image, rest, twice);
      } else {
        ShowsMadeAgain(c[1..], first, image, made);
        assert out[1..] == Rewritten(c[1..], rule, image);
        HitsMade(c[1..], rule, image, made);
        HitsNothingBarred(out[1..], made);
        HitsNothingBarred(c[1..], made);
      }
    }
  }
}
