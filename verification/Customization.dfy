/**
 The `superRefine` validators of frontend customizations and algorithm strategies: loops that collect ids in
 a set and append issues to a context.  Each is proved against the log it must write, and the logs are then
 characterised: when they are empty, and how long they are.
 */
module Customization {
  import opened Wrappers

  datatype Issue =
    | Duplicate(kind: string, id: string)
    | UnknownGroup(navId: string, group: string)
    | HiddenDefault
    | VisibleAndHidden(field: string)
    | SectionOrderUnsupported

  datatype Group = Group(id: string, caption: string, order: nat)

  datatype NavItem = NavItem(navId: string, group: Option<string>, hidden: bool)

  datatype Navigation = Navigation(id: string, defaultNavId: Option<string>, groups: seq<Group>, items: seq<NavItem>)

  datatype ElementOverride = ElementOverride(
    id: string, elementId: string,
    visibleFields: Option<seq<string>>, hiddenFields: Option<seq<string>>, sectionOrder: Option<seq<string>>)

  datatype Definition = Definition(
    blocks: seq<string>, contentBlocks: seq<string>,
    elementOverrides: seq<ElementOverride>, navigationOverrides: seq<Navigation>)

  datatype Band = Band(id: string, caption: string)

  /** An id and what it names, as the message of a duplicate needs them. */
  datatype Entry = Entry(id: string, kind: string)

  /** The refinement context issues are added to. */
  class Context {
    var issues: seq<Issue>

    constructor ()
      ensures issues == []
    {
      issues := [];
    }

    method AddIssue(issue: Issue)
      modifies this
      ensures issues == old(issues) + [issue]
    {
      issues := issues + [issue];
    }
  }

  // ----- duplicates

  function Ids(entries: seq<Entry>): set<string> { set k | 0 <= k < |entries| :: entries[k].id }

  predicate Distinct(entries: seq<Entry>) {
    forall i, j | 0 <= i < j < |entries| :: entries[i].id != entries[j].id
  }

  /** One issue for every entry whose id came before, in order. */
  function DuplicateLog(entries: seq<Entry>): seq<Issue> {
    if entries == [] then []
    else
      var before, last := entries[..|entries| - 1], entries[|entries| - 1];
      DuplicateLog(before) + (if last.id in Ids(before) then [Duplicate(last.kind, last.id)] else [])
  }

  lemma IdsStep(entries: seq<Entry>)
    requires entries != []
    ensures Ids(entries) == Ids(entries[..|entries| - 1]) + {entries[|entries| - 1].id}
  {
    var n := |entries| - 1;
    forall id | id in Ids(entries) ensures id in Ids(entries[..n]) + {entries[n].id} {
      var k :| 0 <= k < |entries| && entries[k].id == id;
      if k < n { assert entries[..n][k].id == id; }
    }
    forall id | id in Ids(entries[..n]) ensures id in Ids(entries) {
      var k :| 0 <= k < n && entries[..n][k].id == id;
      assert entries[k].id == id;
    }
  }

  /** The log has exactly (entries - distinct ids) issues. */
  lemma {:induction false} DuplicateLogLength(entries: seq<Entry>)
    ensures |DuplicateLog(entries)| == |entries| - |Ids(entries)|
  {
    if entries != [] {
      DuplicateLogLength(entries[..|entries| - 1]);
      IdsStep(entries);
    }
  }

  /** It is empty exactly when the ids are pairwise distinct. */
  lemma {:induction false} DuplicateLogEmpty(entries: seq<Entry>)
    ensures DuplicateLog(entries) == [] <==> Distinct(entries)
  {
    if entries != [] {
      var n := |entries| - 1;
      var before := entries[..n];
      DuplicateLogEmpty(before);
      if entries[n].id in Ids(before) {
        var k :| 0 <= k < n && before[k].id == entries[n].id;
        assert entries[k].id == entries[n].id;
      } else if Distinct(before) {
        forall i, j | 0 <= i < j < |entries| ensures entries[i].id != entries[j].id {
          assert before[i].id in Ids(before);
          if j < n { assert before[i] == entries[i] && before[j] == entries[j]; }
        }
      } else {
        var i, j :| 0 <= i < j < n && before[i].id == before[j].id;
        assert entries[i].id == entries[j].id;
      }
    }
  }

  /** Entries of one kind. */
  function Named(ids: seq<string>, kind: string): seq<Entry> {
    seq(|ids|, i requires 0 <= i < |ids| => Entry(ids[i], kind))
  }

  function SetOf(ids: seq<string>): set<string> { set id | id in ids }

  /** No id twice. */
  predicate AllDifferent(ids: seq<string>) { forall i, j | 0 <= i < j < |ids| :: ids[i] != ids[j] }

  ghost predicate Twice(ids: seq<string>, id: string) {
    exists i, j :: 0 <= i < j < |ids| && ids[i] == id && ids[j] == id
  }

  lemma NamedAre(ids: seq<string>, kind: string)
    ensures Ids(Named(ids, kind)) == SetOf(ids)
    ensures Distinct(Named(ids, kind)) <==> AllDifferent(ids)
  {
    var entries := Named(ids, kind);
    assert forall i | 0 <= i < |ids| :: entries[i].id == ids[i];
  }

  lemma IdsOfParts(a: seq<Entry>, b: seq<Entry>)
    ensures Ids(a + b) == Ids(a) + Ids(b)
  {
    var all := a + b;
    forall x ensures x in Ids(all) <==> x in Ids(a) || x in Ids(b) {
      if x in Ids(a) { var i :| 0 <= i < |a| && a[i].id == x; assert all[i].id == x; }
      if x in Ids(b) { var i :| 0 <= i < |b| && b[i].id == x; assert all[|a| + i].id == x; }
    }
  }

  lemma DistinctParts(a: seq<Entry>, b: seq<Entry>)
    ensures Distinct(a + b) <==> Distinct(a) && Distinct(b) && Ids(a) !! Ids(b)
  {
    var all := a + b;
    assert forall i | 0 <= i < |a| :: all[i] == a[i];
    assert forall i | 0 <= i < |b| :: all[|a| + i] == b[i];
    if Distinct(a) && Distinct(b) && !Distinct(all) {
      var i, j :| 0 <= i < j < |all| && all[i].id == all[j].id;
      assert a[i].id in Ids(a) && b[j - |a|].id in Ids(b);
    }
  }

  lemma NamedStep(a: seq<Entry>, ids: seq<string>, kind: string)
    requires ids != []
    ensures var n := |ids| - 1;
            a + Named(ids, kind) == (a + Named(ids[..n], kind)) + [Entry(ids[n], kind)]
  {}

  lemma TwiceStep(ids: seq<string>, id: string)
    requires ids != []
    ensures var n := |ids| - 1; Twice(ids, id) <==> Twice(ids[..n], id) || (ids[n] == id && id in ids[..n])
  {
    var n := |ids| - 1;
    if i, j :| 0 <= i < j < |ids| && ids[i] == id && ids[j] == id {
      if j < n { assert ids[..n][i] == id && ids[..n][j] == id; } else { assert ids[..n][i] == id; }
    }
    if i, j :| 0 <= i < j < n && ids[..n][i] == id && ids[..n][j] == id { assert ids[i] == id && ids[j] == id; }
    if ids[n] == id && id in ids[..n] {
      var i :| 0 <= i < n && ids[..n][i] == id;
      assert ids[i] == id && ids[n] == id;
    }
  }

  lemma LoggedNext(before: seq<Entry>, e: Entry)
    ensures DuplicateLog(before + [e])
         == DuplicateLog(before) + (if e.id in Ids(before) then [Duplicate(e.kind, e.id)] else [])
  {
    var all := before + [e];
    assert all[..|all| - 1] == before;
  }

  /** What a list of one kind adds to the log: its ids that came before, in it or in the lists before. */
  lemma {:induction false} NamedIssues(a: seq<Entry>, ids: seq<string>, kind: string, k: string, id: string)
    ensures Duplicate(k, id) in DuplicateLog(a + Named(ids, kind))
       <==> || Duplicate(k, id) in DuplicateLog(a)
            || (k == kind && id in ids && (id in Ids(a) || Twice(ids, id)))
    decreases |ids|
  {
    if ids == [] {
      assert a + Named(ids, kind) == a;
    } else {
      var n := |ids| - 1;
      NamedIssues(a, ids[..n], kind, k, id);
      NamedStep(a, ids, kind);
      TwiceStep(ids, id);
      LoggedNext(a + Named(ids[..n], kind), Entry(ids[n], kind));
      IdsOfParts(a, Named(ids[..n], kind));
      NamedAre(ids[..n], kind);
      InFront(ids, id);
    }
  }

  /** A list on its own. */
  lemma AloneIssues(ids: seq<string>, kind: string, k: string, id: string)
    ensures Duplicate(k, id) in DuplicateLog(Named(ids, kind)) <==> k == kind && Twice(ids, id)
  {
    NamedIssues([], ids, kind, k, id);
    assert [] + Named(ids, kind) == Named(ids, kind);
    assert DuplicateLog([]) == [] && Ids([]) == {};
  }

  lemma InFront(ids: seq<string>, id: string)
    requires ids != []
    ensures var n := |ids| - 1; id in ids <==> id in ids[..n] || id == ids[n]
    ensures var n := |ids| - 1; id in ids[..n] <==> id in SetOf(ids[..n])
  {
    assert ids == ids[..|ids| - 1] + [ids[|ids| - 1]];
  }

  /** The loop all four validators share: log an id already in the set, then add it. */
  lemma LogStep(entries: seq<Entry>, k: nat)
    requires k < |entries|
    ensures Ids(entries[..k + 1]) == Ids(entries[..k]) + {entries[k].id}
    ensures DuplicateLog(entries[..k + 1])
         == DuplicateLog(entries[..k])
            + (if entries[k].id in Ids(entries[..k]) then [Duplicate(entries[k].kind, entries[k].id)] else [])
  {
    IdsStep(entries[..k + 1]);
    assert entries[..k + 1][..k] == entries[..k];
  }

  // ----- customization definition

  function ElementIds(overrides: seq<ElementOverride>): (ids: seq<string>)
    ensures |ids| == |overrides| && forall i | 0 <= i < |ids| :: ids[i] == overrides[i].id
  {
    seq(|overrides|, i requires 0 <= i < |overrides| => overrides[i].id)
  }

  function NavigationIds(overrides: seq<Navigation>): (ids: seq<string>)
    ensures |ids| == |overrides| && forall i | 0 <= i < |ids| :: ids[i] == overrides[i].id
  {
    seq(|overrides|, i requires 0 <= i < |overrides| => overrides[i].id)
  }

  /** The four lists of a definition, in the order the validator goes through them. */
  function DefinitionEntries(d: Definition): seq<Entry> {
    Named(d.blocks, "frontend block") + Named(d.contentBlocks, "frontend content block")
    + Named(ElementIds(d.elementOverrides), "frontend element override")
    + Named(NavigationIds(d.navigationOverrides), "frontend navigation override")
  }

  /** No id twice, neither within a list nor in two of them. */
  ghost predicate IdsAreUnique(d: Definition) {
    && AllDifferent(d.blocks) && AllDifferent(d.contentBlocks)
    && (forall i, j | 0 <= i < j < |d.elementOverrides| :: d.elementOverrides[i].id != d.elementOverrides[j].id)
    && (forall i, j | 0 <= i < j < |d.navigationOverrides| ::
          d.navigationOverrides[i].id != d.navigationOverrides[j].id)
    && (forall b | b in d.contentBlocks :: b !in d.blocks)
    && (forall o | o in d.elementOverrides :: o.id !in d.blocks && o.id !in d.contentBlocks)
    && (forall o | o in d.navigationOverrides :: o.id !in d.blocks && o.id !in d.contentBlocks)
    && (forall o, p | o in d.elementOverrides && p in d.navigationOverrides :: o.id != p.id)
  }

  /** The ids of a definition. */
  function IdSet(d: Definition): set<string> {
    SetOf(d.blocks) + SetOf(d.contentBlocks)
    + (set o | o in d.elementOverrides :: o.id) + (set o | o in d.navigationOverrides :: o.id)
  }

  method RefineDefinition(d: Definition, ctx: Context)
    modifies ctx
    ensures ctx.issues == old(ctx.issues) + DuplicateLog(DefinitionEntries(d))
    ensures ctx.issues == old(ctx.issues) <==> IdsAreUnique(d)
  {
    var ids: set<string> := {};
    var entries := DefinitionEntries(d);
    var k := 0;
    while k < |entries|
      invariant 0 <= k <= |entries|
      invariant ids == Ids(entries[..k])
      invariant ctx.issues == old(ctx.issues) + DuplicateLog(entries[..k])
    {
      var item := entries[k];
      LogStep(entries, k);
      if item.id in ids {
        ctx.AddIssue(Duplicate(item.kind, item.id));
      }
      ids := ids + {item.id};
      k := k + 1;
    }
    assert entries[..k] == entries;
    DefinitionAcceptedIff(d);
  }

  /** The entries of the four lists, given the ids of the last two. */
  function FourLists(blocks: seq<string>, content: seq<string>, elements: seq<string>, navs: seq<string>): seq<Entry> {
    Named(blocks, "frontend block") + Named(content, "frontend content block")
    + Named(elements, "frontend element override") + Named(navs, "frontend navigation override")
  }

  lemma FourIds(blocks: seq<string>, content: seq<string>, elements: seq<string>, navs: seq<string>)
    ensures Ids(FourLists(blocks, content, elements, navs))
         == SetOf(blocks) + SetOf(content) + SetOf(elements) + SetOf(navs)
  {
    var a, b := Named(blocks, "frontend block"), Named(content, "frontend content block");
    var c, e := Named(elements, "frontend element override"), Named(navs, "frontend navigation override");
    NamedAre(blocks, "frontend block");
    NamedAre(content, "frontend content block");
    NamedAre(elements, "frontend element override");
    NamedAre(navs, "frontend navigation override");
    IdsOfParts(a, b);
    IdsOfParts(a + b, c);
    IdsOfParts(a + b + c, e);
  }

  lemma Apart(a: seq<string>, b: seq<string>)
    ensures SetOf(a) !! SetOf(b) <==> forall x | x in b :: x !in a
  {
    assert forall x :: x in b <==> x in SetOf(b);
  }

  lemma FourDistinct(blocks: seq<string>, content: seq<string>, elements: seq<string>, navs: seq<string>)
    ensures Distinct(FourLists(blocks, content, elements, navs)) <==>
      && AllDifferent(blocks) && AllDifferent(content) && AllDifferent(elements) && AllDifferent(navs)
      && (forall x | x in content :: x !in blocks)
      && (forall x | x in elements :: x !in blocks && x !in content)
      && (forall x | x in navs :: x !in blocks && x !in content && x !in elements)
  {
    Apart(blocks, content);
    Apart(blocks, elements);
    Apart(content, elements);
    Apart(blocks, navs);
    Apart(content, navs);
    Apart(elements, navs);
    var a, b := Named(blocks, "frontend block"), Named(content, "frontend content block");
    var c, e := Named(elements, "frontend element override"), Named(navs, "frontend navigation override");
    NamedAre(blocks, "frontend block");
    NamedAre(content, "frontend content block");
    NamedAre(elements, "frontend element override");
    NamedAre(navs, "frontend navigation override");
    IdsOfParts(a, b);
    IdsOfParts(a + b, c);
    DistinctParts(a, b);
    DistinctParts(a + b, c);
    DistinctParts(a + b + c, e);
  }

  lemma IdListsAre(d: Definition)
    ensures forall x :: x in ElementIds(d.elementOverrides) <==> exists o :: o in d.elementOverrides && o.id == x
    ensures forall x :: x in NavigationIds(d.navigationOverrides)
                        <==> exists o :: o in d.navigationOverrides && o.id == x
  {
    forall x ensures x in ElementIds(d.elementOverrides) <==> exists o :: o in d.elementOverrides && o.id == x {
      if o :| o in d.elementOverrides && o.id == x {
        var i :| 0 <= i < |d.elementOverrides| && d.elementOverrides[i] == o;
        assert ElementIds(d.elementOverrides)[i] == x;
      }
    }
    forall x
      ensures x in NavigationIds(d.navigationOverrides) <==> exists o :: o in d.navigationOverrides && o.id == x
    {
      if o :| o in d.navigationOverrides && o.id == x {
        var i :| 0 <= i < |d.navigationOverrides| && d.navigationOverrides[i] == o;
        assert NavigationIds(d.navigationOverrides)[i] == x;
      }
    }
  }

  lemma OverrideIdsAre(d: Definition, ids: seq<string>)
    ensures (forall x | x in ElementIds(d.elementOverrides) :: x !in ids)
       <==> forall o | o in d.elementOverrides :: o.id !in ids
    ensures (forall x | x in NavigationIds(d.navigationOverrides) :: x !in ids)
       <==> forall o | o in d.navigationOverrides :: o.id !in ids
  {
    IdListsAre(d);
  }

  lemma OverridesApart(d: Definition)
    ensures (forall x | x in NavigationIds(d.navigationOverrides) :: x !in ElementIds(d.elementOverrides))
       <==> forall o, p | o in d.elementOverrides && p in d.navigationOverrides :: o.id != p.id
  {
    IdListsAre(d);
    if x :| x in NavigationIds(d.navigationOverrides) && x in ElementIds(d.elementOverrides) {
      var o :| o in d.elementOverrides && o.id == x;
      var p :| p in d.navigationOverrides && p.id == x;
      assert o.id == p.id;
    } else {
      forall o, p | o in d.elementOverrides && p in d.navigationOverrides ensures o.id != p.id {
        assert o.id in ElementIds(d.elementOverrides) && p.id in NavigationIds(d.navigationOverrides);
      }
    }
  }

  lemma OverridesDiffer(d: Definition)
    ensures AllDifferent(ElementIds(d.elementOverrides)) <==>
      forall i, j | 0 <= i < j < |d.elementOverrides| :: d.elementOverrides[i].id != d.elementOverrides[j].id
    ensures AllDifferent(NavigationIds(d.navigationOverrides)) <==>
      forall i, j | 0 <= i < j < |d.navigationOverrides| :: d.navigationOverrides[i].id != d.navigationOverrides[j].id
  {
    var elements, navs := ElementIds(d.elementOverrides), NavigationIds(d.navigationOverrides);
    if i, j :| 0 <= i < j < |elements| && d.elementOverrides[i].id == d.elementOverrides[j].id {
      assert elements[i] == elements[j];
    }
    if i, j :| 0 <= i < j < |navs| && d.navigationOverrides[i].id == d.navigationOverrides[j].id {
      assert navs[i] == navs[j];
    }
  }

  /** The definition validator accepts exactly when the ids of blocks, content blocks, element overrides and navigation
      overrides are all different. */
  lemma {:induction false} DefinitionAcceptedIff(d: Definition)
    ensures DuplicateLog(DefinitionEntries(d)) == [] <==> IdsAreUnique(d)
  {
    var elements, navs := ElementIds(d.elementOverrides), NavigationIds(d.navigationOverrides);
    OverrideIdsAre(d, d.blocks);
    OverrideIdsAre(d, d.contentBlocks);
    OverridesApart(d);
    OverridesDiffer(d);
    FourDistinct(d.blocks, d.contentBlocks, elements, navs);
    assert DefinitionEntries(d) == FourLists(d.blocks, d.contentBlocks, elements, navs);
    DuplicateLogEmpty(DefinitionEntries(d));
  }

  /** It logs as many issues as there are entries in the four lists beyond their different ids. */
  lemma {:induction false} DefinitionLogLaw(d: Definition)
    ensures |DuplicateLog(DefinitionEntries(d))|
         == |d.blocks| + |d.contentBlocks| + |d.elementOverrides| + |d.navigationOverrides| - |IdSet(d)|
  {
    IdListsAre(d);
    FourIds(d.blocks, d.contentBlocks, ElementIds(d.elementOverrides), NavigationIds(d.navigationOverrides));
    DuplicateLogLength(DefinitionEntries(d));
    assert Ids(DefinitionEntries(d)) == IdSet(d);
  }

  /** The first two lists. */
  lemma TwoIssues(blocks: seq<string>, content: seq<string>, kind: string, id: string)
    ensures var two := Named(blocks, "frontend block") + Named(content, "frontend content block");
      && Ids(two) == SetOf(blocks) + SetOf(content)
      && (Duplicate(kind, id) in DuplicateLog(two) <==>
            || (kind == "frontend block" && Twice(blocks, id))
            || (kind == "frontend content block" && id in content && (id in blocks || Twice(content, id))))
  {
    var a, b := Named(blocks, "frontend block"), Named(content, "frontend content block");
    AloneIssues(blocks, "frontend block", kind, id);
    NamedIssues(a, content, "frontend content block", kind, id);
    NamedAre(blocks, "frontend block");
    NamedAre(content, "frontend content block");
    IdsOfParts(a, b);
  }

  /** A further list behind others. */
  lemma FurtherIssues(a: seq<Entry>, known: set<string>, ids: seq<string>, name: string, kind: string, id: string)
    requires Ids(a) == known
    ensures Ids(a + Named(ids, name)) == known + SetOf(ids)
    ensures Duplicate(kind, id) in DuplicateLog(a + Named(ids, name))
       <==> || Duplicate(kind, id) in DuplicateLog(a)
            || (kind == name && id in ids && (id in known || Twice(ids, id)))
  {
    NamedIssues(a, ids, name, kind, id);
    NamedAre(ids, name);
    IdsOfParts(a, Named(ids, name));
  }

  lemma FourIssues(
    blocks: seq<string>, content: seq<string>, elements: seq<string>, navs: seq<string>, kind: string, id: string)
    ensures Duplicate(kind, id) in DuplicateLog(FourLists(blocks, content, elements, navs)) <==>
      || (kind == "frontend block" && Twice(blocks, id))
      || (kind == "frontend content block" && id in content && (id in blocks || Twice(content, id)))
      || (kind == "frontend element override" && id in elements
          && (id in blocks || id in content || Twice(elements, id)))
      || (kind == "frontend navigation override" && id in navs
          && (id in blocks || id in content || id in elements || Twice(navs, id)))
  {
    var two := Named(blocks, "frontend block") + Named(content, "frontend content block");
    var known := SetOf(blocks) + SetOf(content);
    TwoIssues(blocks, content, kind, id);
    FurtherIssues(two, known, elements, "frontend element override", kind, id);
    FurtherIssues(two + Named(elements, "frontend element override"), known + SetOf(elements), navs,
      "frontend navigation override", kind, id);
  }

  /** Which issues: an id that repeats within its list or is taken from an earlier one, with the name of the list it
      repeats in. */
  lemma {:induction false} DefinitionIssues(d: Definition, kind: string, id: string)
    ensures Duplicate(kind, id) in DuplicateLog(DefinitionEntries(d)) <==>
      var elements, navs := ElementIds(d.elementOverrides), NavigationIds(d.navigationOverrides);
      || (kind == "frontend block" && Twice(d.blocks, id))
      || (kind == "frontend content block" && id in d.contentBlocks && (id in d.blocks || Twice(d.contentBlocks, id)))
      || (kind == "frontend element override" && id in elements
          && (id in d.blocks || id in d.contentBlocks || Twice(elements, id)))
      || (kind == "frontend navigation override" && id in navs
          && (id in d.blocks || id in d.contentBlocks || id in elements || Twice(navs, id)))
  {
    FourIssues(
      d.blocks, d.contentBlocks, ElementIds(d.elementOverrides), NavigationIds(d.navigationOverrides), kind, id);
  }

  // ----- algorithm strategy

  function BandIds(bands: seq<Band>): (ids: seq<string>)
    ensures |ids| == |bands| && forall i | 0 <= i < |ids| :: ids[i] == bands[i].id
  {
    seq(|bands|, i requires 0 <= i < |bands| => bands[i].id)
  }

  function BandEntries(bands: seq<Band>): seq<Entry> { Named(BandIds(bands), "score band") }

  method RefineStrategy(scoreBands: seq<Band>, ctx: Context)
    modifies ctx
    ensures ctx.issues == old(ctx.issues) + DuplicateLog(BandEntries(scoreBands))
    ensures ctx.issues == old(ctx.issues)
       <==> forall i, j | 0 <= i < j < |scoreBands| :: scoreBands[i].id != scoreBands[j].id
  {
    var scoreBandIds: set<string> := {};
    ghost var entries := BandEntries(scoreBands);
    var k := 0;
    while k < |scoreBands|
      invariant 0 <= k <= |scoreBands|
      invariant scoreBandIds == Ids(entries[..k])
      invariant ctx.issues == old(ctx.issues) + DuplicateLog(entries[..k])
    {
      var band := scoreBands[k];
      LogStep(entries, k);
      if band.id in scoreBandIds {
        ctx.AddIssue(Duplicate("score band", band.id));
      }
      scoreBandIds := scoreBandIds + {band.id};
      k := k + 1;
    }
    assert entries[..k] == entries;
    StrategyLogLaw(scoreBands);
  }

  /** The bands are accepted exactly when their ids are different; otherwise each repeated entry is logged. */
  lemma {:induction false} StrategyLogLaw(bands: seq<Band>)
    ensures DuplicateLog(BandEntries(bands)) == []
       <==> forall i, j | 0 <= i < j < |bands| :: bands[i].id != bands[j].id
    ensures |DuplicateLog(BandEntries(bands))| == |bands| - |set b | b in bands :: b.id|
  {
    var ids := BandIds(bands);
    NamedAre(ids, "score band");
    DuplicateLogEmpty(BandEntries(bands));
    DuplicateLogLength(BandEntries(bands));
    assert SetOf(ids) == set b | b in bands :: b.id;
  }

  /** Which issues: one for each id that repeats. */
  lemma {:induction false} StrategyIssues(bands: seq<Band>, kind: string, id: string)
    ensures Duplicate(kind, id) in DuplicateLog(BandEntries(bands))
       <==> kind == "score band" && exists i, j :: 0 <= i < j < |bands| && bands[i].id == id && bands[j].id == id
  {
    var ids := BandIds(bands);
    AloneIssues(ids, "score band", kind, id);
    if i, j :| 0 <= i < j < |bands| && bands[i].id == id && bands[j].id == id {
      assert ids[i] == id && ids[j] == id;
    }
  }

  // ----- navigation override

  function GroupIds(groups: seq<Group>): (ids: seq<string>)
    ensures |ids| == |groups| && forall i | 0 <= i < |ids| :: ids[i] == groups[i].id
  {
    seq(|groups|, i requires 0 <= i < |groups| => groups[i].id)
  }

  function ItemIds(items: seq<NavItem>): (ids: seq<string>)
    ensures |ids| == |items| && forall i | 0 <= i < |ids| :: ids[i] == items[i].navId
  {
    seq(|items|, i requires 0 <= i < |items| => items[i].navId)
  }

  function GroupEntries(groups: seq<Group>): seq<Entry> { Named(GroupIds(groups), "navigation group") }

  function ItemEntries(items: seq<NavItem>): seq<Entry> { Named(ItemIds(items), "navigation item") }

  /** A group that is named, not left out or empty. */
  predicate NamesGroup(item: NavItem) { item.group.Some? && item.group.value != "" }

  predicate UnknownGroupAt(item: NavItem, groupIds: set<string>) {
    NamesGroup(item) && item.group.value !in groupIds
  }

  /** The issues of the item loop: for each item the duplicate first, then the unknown group. */
  function RepeatedItem(before: seq<NavItem>, item: NavItem): seq<Issue> {
    if item.navId in Ids(ItemEntries(before)) then [Duplicate("navigation item", item.navId)] else []
  }

  function StrayItem(item: NavItem, groupIds: set<string>): seq<Issue> {
    if UnknownGroupAt(item, groupIds) then [UnknownGroup(item.navId, item.group.value)] else []
  }

  function ItemLog(items: seq<NavItem>, groupIds: set<string>): seq<Issue> {
    if items == [] then []
    else
      var before, last := items[..|items| - 1], items[|items| - 1];
      ItemLog(before, groupIds) + RepeatedItem(before, last) + StrayItem(last, groupIds)
  }

  function FindItem(items: seq<NavItem>, navId: string): (r: Option<NavItem>)
    ensures r.None? <==> forall k | 0 <= k < |items| :: items[k].navId != navId
    ensures r.Some? ==> r.value.navId == navId && r.value in items
  {
    if items == [] then None else if items[0].navId == navId then Some(items[0]) else FindItem(items[1..], navId)
  }

  function DefaultLog(v: Navigation): seq<Issue> {
    if v.defaultNavId.None? || v.defaultNavId.value == "" then []
    else
      var item := FindItem(v.items, v.defaultNavId.value);
      if item.Some? && item.value.hidden then [HiddenDefault] else []
  }

  function NavigationLog(v: Navigation): seq<Issue> {
    DuplicateLog(GroupEntries(v.groups)) + ItemLog(v.items, Ids(GroupEntries(v.groups))) + DefaultLog(v)
  }

  lemma ItemStep(items: seq<NavItem>, k: nat)
    requires k < |items|
    ensures ItemEntries(items[..k]) == ItemEntries(items)[..k]
    ensures ItemEntries(items)[k] == Entry(items[k].navId, "navigation item")
    ensures Ids(ItemEntries(items[..k + 1])) == Ids(ItemEntries(items[..k])) + {items[k].navId}
    ensures items[..k + 1][..k] == items[..k]
  {
    assert ItemEntries(items[..k]) == ItemEntries(items)[..k];
    assert ItemEntries(items[..k + 1]) == ItemEntries(items)[..k + 1];
    LogStep(ItemEntries(items), k);
  }

  lemma ItemLogStep(items: seq<NavItem>, groupIds: set<string>, k: nat)
    requires k < |items|
    ensures ItemLog(items[..k + 1], groupIds)
         == ItemLog(items[..k], groupIds) + RepeatedItem(items[..k], items[k]) + StrayItem(items[k], groupIds)
  {
    assert items[..k + 1][..k] == items[..k];
  }

  /** The first loop of the navigation validator; it leaves the set of declared group ids. */
  method RefineGroups(groups: seq<Group>, ctx: Context) returns (groupIds: set<string>)
    modifies ctx
    ensures groupIds == set g | g in groups :: g.id
    ensures ctx.issues == old(ctx.issues) + DuplicateLog(GroupEntries(groups))
  {
    groupIds := {};
    ghost var entries := GroupEntries(groups);
    var k := 0;
    while k < |groups|
      invariant 0 <= k <= |groups|
      invariant groupIds == Ids(entries[..k])
      invariant ctx.issues == old(ctx.issues) + DuplicateLog(entries[..k])
    {
      var group := groups[k];
      LogStep(entries, k);
      if group.id in groupIds {
        ctx.AddIssue(Duplicate("navigation group", group.id));
      }
      groupIds := groupIds + {group.id};
      k := k + 1;
    }
    assert entries[..k] == entries;
    GroupIdsAre(groups);
  }

  lemma GroupIdsAre(groups: seq<Group>)
    ensures Ids(GroupEntries(groups)) == set g | g in groups :: g.id
  {
    var entries := GroupEntries(groups);
    assert forall k | 0 <= k < |groups| :: entries[k].id == groups[k].id;
  }

  /** The second loop: items against each other and against the declared groups. */
  method RefineItems(items: seq<NavItem>, groupIds: set<string>, ctx: Context)
    modifies ctx
    ensures ctx.issues == old(ctx.issues) + ItemLog(items, groupIds)
  {
    var itemIds: set<string> := {};
    var k := 0;
    while k < |items|
      invariant 0 <= k <= |items|
      invariant itemIds == Ids(ItemEntries(items[..k]))
      invariant ctx.issues == old(ctx.issues) + ItemLog(items[..k], groupIds)
    {
      var item := items[k];
      ItemStep(items, k);
      ItemLogStep(items, groupIds, k);
      ghost var before, repeated := ctx.issues, RepeatedItem(items[..k], item);
      if item.navId in itemIds {
        ctx.AddIssue(Duplicate("navigation item", item.navId));
      }
      assert ctx.issues == before + repeated;
      ghost var between, stray := ctx.issues, StrayItem(item, groupIds);
      if item.group.Some? && item.group.value != "" && item.group.value !in groupIds {
        ctx.AddIssue(UnknownGroup(item.navId, item.group.value));
      }
      assert ctx.issues == between + stray;
      Append(old(ctx.issues), ItemLog(items[..k], groupIds), repeated, stray);
      itemIds := itemIds + {item.navId};
      k := k + 1;
    }
    assert items[..k] == items;
  }

  method RefineNavigation(value: Navigation, ctx: Context)
    modifies ctx
    ensures ctx.issues == old(ctx.issues) + NavigationLog(value)
  {
    var groupIds := RefineGroups(value.groups, ctx);
    GroupIdsAre(value.groups);
    RefineItems(value.items, groupIds, ctx);
    ghost var before := ctx.issues;
    if value.defaultNavId.Some? && value.defaultNavId.value != "" {
      var defaultItem := FindItem(value.items, value.defaultNavId.value);
      if defaultItem.Some? && defaultItem.value.hidden {
        ctx.AddIssue(HiddenDefault);
      }
    }
    assert ctx.issues == before + DefaultLog(value);
    ghost var groupLog, itemLog := DuplicateLog(GroupEntries(value.groups)), ItemLog(value.items, groupIds);
    Append(old(ctx.issues), groupLog, itemLog, DefaultLog(value));
  }

  ghost predicate AllGroupsKnown(items: seq<NavItem>, groupIds: set<string>) {
    forall k | 0 <= k < |items| :: !UnknownGroupAt(items[k], groupIds)
  }

  lemma GroupsKnownStep(items: seq<NavItem>, groupIds: set<string>)
    requires items != []
    ensures AllGroupsKnown(items, groupIds) <==>
            AllGroupsKnown(items[..|items| - 1], groupIds) && !UnknownGroupAt(items[|items| - 1], groupIds)
  {
    var n := |items| - 1;
    if AllGroupsKnown(items, groupIds) {
      assert forall k | 0 <= k < n :: items[..n][k] == items[k];
    }
    if AllGroupsKnown(items[..n], groupIds) {
      assert forall k | 0 <= k < n :: !UnknownGroupAt(items[..n][k], groupIds);
    }
  }

  lemma {:induction false} ItemLogParts(items: seq<NavItem>, groupIds: set<string>)
    ensures ItemLog(items, groupIds) == []
       <==> DuplicateLog(ItemEntries(items)) == [] && AllGroupsKnown(items, groupIds)
  {
    if items != [] {
      var n := |items| - 1;
      ItemLogParts(items[..n], groupIds);
      GroupsKnownStep(items, groupIds);
      ItemStep(items, n);
      LogStep(ItemEntries(items), n);
      assert ItemEntries(items)[..n + 1] == ItemEntries(items);
    }
  }

  lemma ItemLogEmpty(items: seq<NavItem>, groupIds: set<string>)
    ensures ItemLog(items, groupIds) == [] <==> Distinct(ItemEntries(items)) && AllGroupsKnown(items, groupIds)
  {
    ItemLogParts(items, groupIds);
    DuplicateLogEmpty(ItemEntries(items));
  }

  /** The items whose group is named and not declared. */
  function Strays(items: seq<NavItem>, groupIds: set<string>): set<int> {
    set k | 0 <= k < |items| && items[k].group.Some? && items[k].group.value != ""
            && items[k].group.value !in groupIds
  }

  lemma StraysStep(items: seq<NavItem>, groupIds: set<string>)
    requires items != []
    ensures var n := |items| - 1;
            && n !in Strays(items[..n], groupIds)
            && Strays(items, groupIds)
               == Strays(items[..n], groupIds) + (if UnknownGroupAt(items[n], groupIds) then {n} else {})
  {
    var n := |items| - 1;
    assert forall k | 0 <= k < n :: items[..n][k] == items[k];
  }

  lemma ItemIdsAre(items: seq<NavItem>)
    ensures Ids(ItemEntries(items)) == set i | i in items :: i.navId
  {
    var entries := ItemEntries(items);
    assert forall k | 0 <= k < |items| :: entries[k].id == items[k].navId;
  }

  function ItemIdSet(items: seq<NavItem>): set<string> { set i | i in items :: i.navId }

  lemma ItemCountStep(items: seq<NavItem>)
    requires items != []
    ensures var n := |items| - 1;
            |ItemIdSet(items)| == |ItemIdSet(items[..n])| + (if items[n].navId in ItemIdSet(items[..n]) then 0 else 1)
  {
    var n := |items| - 1;
    var before, after := ItemIdSet(items[..n]), ItemIdSet(items);
    assert items == items[..n] + [items[n]];
    forall x ensures x in after <==> x in before || x == items[n].navId {
      if x == items[n].navId { assert items[n] in items; }
    }
    assert after == before + {items[n].navId};
    if items[n].navId in before { assert after == before; }
  }

  lemma ItemLogCounts(items: seq<NavItem>, groupIds: set<string>)
    requires items != []
    ensures var n := |items| - 1;
            |ItemLog(items, groupIds)| == |ItemLog(items[..n], groupIds)|
              + (if items[n].navId in ItemIdSet(items[..n]) then 1 else 0)
              + (if UnknownGroupAt(items[n], groupIds) then 1 else 0)
  {
    var n := |items| - 1;
    ItemIdsAre(items[..n]);
    var before := ItemLog(items[..n], groupIds);
    var repeated, stray := RepeatedItem(items[..n], items[n]), StrayItem(items[n], groupIds);
    assert ItemLog(items, groupIds) == before + repeated + stray;
    assert |before + repeated + stray| == |before| + |repeated| + |stray|;
  }

  lemma {:induction false} ItemLogCount(items: seq<NavItem>, groupIds: set<string>)
    ensures |ItemLog(items, groupIds)| == |items| - |ItemIdSet(items)| + |Strays(items, groupIds)|
  {
    if items == [] {
      assert ItemIdSet(items) == {};
    } else {
      ItemLogCount(items[..|items| - 1], groupIds);
      ItemCountStep(items);
      ItemLogCounts(items, groupIds);
      StraysStep(items, groupIds);
    }
  }

  /** The item loop logs (items - different nav ids) duplicates and one issue for each undeclared group. */
  lemma {:induction false} ItemLogLength(items: seq<NavItem>, groupIds: set<string>)
    ensures |ItemLog(items, groupIds)| == |items| - |set i | i in items :: i.navId| + |Strays(items, groupIds)|
  {
    ItemLogCount(items, groupIds);
    assert ItemIdSet(items) == set i | i in items :: i.navId;
  }

  /** The same item id stands twice. */
  ghost predicate ItemTwice(items: seq<NavItem>, id: string) {
    exists i, j :: 0 <= i < j < |items| && items[i].navId == id && items[j].navId == id
  }

  /** An item names an undeclared group. */
  ghost predicate Stray(items: seq<NavItem>, groupIds: set<string>, navId: string, group: string) {
    exists item :: item in items && item.navId == navId && item.group == Some(group)
                   && group != "" && group !in groupIds
  }

  lemma ItemTwiceStep(items: seq<NavItem>, id: string)
    requires items != []
    ensures var n := |items| - 1;
            ItemTwice(items, id) <==> ItemTwice(items[..n], id)
                                      || (items[n].navId == id && id in Ids(ItemEntries(items[..n])))
  {
    var n := |items| - 1;
    ItemIdsAre(items[..n]);
    if i, j :| 0 <= i < j < |items| && items[i].navId == id && items[j].navId == id {
      assert items[..n][i] in items[..n] && items[..n][i].navId == id;
      if j < n { assert items[..n][j].navId == id; }
    }
    if i, j :| 0 <= i < j < n && items[..n][i].navId == id && items[..n][j].navId == id {
      assert items[i].navId == id && items[j].navId == id;
    }
    if items[n].navId == id && id in Ids(ItemEntries(items[..n])) {
      var item :| item in items[..n] && item.navId == id;
      var i :| 0 <= i < n && items[..n][i] == item;
      assert items[i].navId == id && items[n].navId == id;
    }
  }

  /** Which issues the item loop logs: an id that repeats, and a named group that is not declared, with its item. */
  lemma {:induction false} ItemIssues(
    items: seq<NavItem>, groupIds: set<string>, kind: string, id: string, group: string)
    ensures Duplicate(kind, id) in ItemLog(items, groupIds) <==> kind == "navigation item" && ItemTwice(items, id)
    ensures UnknownGroup(id, group) in ItemLog(items, groupIds) <==> Stray(items, groupIds, id, group)
    ensures HiddenDefault !in ItemLog(items, groupIds)
  {
    if items != [] {
      var n := |items| - 1;
      ItemIssues(items[..n], groupIds, kind, id, group);
      ItemTwiceStep(items, id);
      StrayStep(items, groupIds, id, group);
    }
  }

  lemma StrayStep(items: seq<NavItem>, groupIds: set<string>, navId: string, group: string)
    requires items != []
    ensures var n := |items| - 1;
            Stray(items, groupIds, navId, group)
            <==> Stray(items[..n], groupIds, navId, group)
                 || UnknownGroup(navId, group) in StrayItem(items[n], groupIds)
  {
    assert items == items[..|items| - 1] + [items[|items| - 1]];
  }

  /** What the navigation validator is for. */
  ghost predicate NavigationOk(v: Navigation) {
    && (forall i, j | 0 <= i < j < |v.groups| :: v.groups[i].id != v.groups[j].id)
    && (forall i, j | 0 <= i < j < |v.items| :: v.items[i].navId != v.items[j].navId)
    && (forall k | 0 <= k < |v.items| && v.items[k].group.Some? && v.items[k].group.value != "" ::
          exists g :: 0 <= g < |v.groups| && v.groups[g].id == v.items[k].group.value)
    && (v.defaultNavId.Some? && v.defaultNavId.value != "" ==>
          forall k | 0 <= k < |v.items| && v.items[k].navId == v.defaultNavId.value :: !v.items[k].hidden)
  }

  lemma GroupDeclared(v: Navigation, item: NavItem)
    requires NamesGroup(item)
    ensures UnknownGroupAt(item, Ids(GroupEntries(v.groups)))
      <==> !exists g :: 0 <= g < |v.groups| && v.groups[g].id == item.group.value
  {
    var entries := GroupEntries(v.groups);
    assert forall g | 0 <= g < |v.groups| :: entries[g].id == v.groups[g].id;
  }

  /** With distinct nav ids, the item found is the only one, so the check reaches all items. */
  lemma DefaultLogEmpty(v: Navigation)
    requires Distinct(ItemEntries(v.items)) && v.defaultNavId.Some? && v.defaultNavId.value != ""
    ensures DefaultLog(v) == []
      <==> forall k | 0 <= k < |v.items| && v.items[k].navId == v.defaultNavId.value :: !v.items[k].hidden
  {
    var id := v.defaultNavId.value;
    var found := FindItem(v.items, id);
    if found.Some? {
      var f :| 0 <= f < |v.items| && v.items[f] == found.value;
      forall k | 0 <= k < |v.items| && v.items[k].navId == id ensures k == f {
        assert ItemEntries(v.items)[k].id == ItemEntries(v.items)[f].id;
      }
    }
  }

  lemma GroupsAccepted(groups: seq<Group>)
    ensures DuplicateLog(GroupEntries(groups)) == []
       <==> forall i, j | 0 <= i < j < |groups| :: groups[i].id != groups[j].id
  {
    NamedAre(GroupIds(groups), "navigation group");
    DuplicateLogEmpty(GroupEntries(groups));
  }

  lemma ItemsDistinct(items: seq<NavItem>)
    ensures Distinct(ItemEntries(items)) <==> forall i, j | 0 <= i < j < |items| :: items[i].navId != items[j].navId
  {
    NamedAre(ItemIds(items), "navigation item");
  }

  lemma GroupsKnown(v: Navigation)
    ensures AllGroupsKnown(v.items, Ids(GroupEntries(v.groups))) <==>
      forall k | 0 <= k < |v.items| && v.items[k].group.Some? && v.items[k].group.value != "" ::
        exists g :: 0 <= g < |v.groups| && v.groups[g].id == v.items[k].group.value
  {
    forall k | 0 <= k < |v.items| && NamesGroup(v.items[k])
      ensures UnknownGroupAt(v.items[k], Ids(GroupEntries(v.groups)))
        <==> !exists g :: 0 <= g < |v.groups| && v.groups[g].id == v.items[k].group.value
    {
      GroupDeclared(v, v.items[k]);
    }
  }

  /** The navigation validator logs nothing exactly when group ids are distinct, item ids are distinct, every named
      group is declared, and no item for the default id is hidden. */
  lemma {:induction false} NavigationAcceptedIff(v: Navigation)
    ensures NavigationLog(v) == [] <==> NavigationOk(v)
  {
    GroupsAccepted(v.groups);
    ItemLogEmpty(v.items, Ids(GroupEntries(v.groups)));
    ItemsDistinct(v.items);
    GroupsKnown(v);
    if Distinct(ItemEntries(v.items)) && v.defaultNavId.Some? && v.defaultNavId.value != "" { DefaultLogEmpty(v); }
  }

  /** Which issues the navigation validator logs, on the fields of the override. */
  lemma {:induction false} NavigationIssues(v: Navigation, kind: string, id: string, group: string)
    ensures Duplicate(kind, id) in NavigationLog(v) <==>
      || (kind == "navigation group"
          && exists i, j :: 0 <= i < j < |v.groups| && v.groups[i].id == id && v.groups[j].id == id)
      || (kind == "navigation item" && ItemTwice(v.items, id))
    ensures UnknownGroup(id, group) in NavigationLog(v) <==> Stray(v.items, set g | g in v.groups :: g.id, id, group)
    ensures HiddenDefault in NavigationLog(v) <==>
      v.defaultNavId.Some? && v.defaultNavId.value != ""
      && exists k :: 0 <= k < |v.items| && FirstWith(v.items, k, v.defaultNavId.value) && v.items[k].hidden
  {
    var groupIds := set g | g in v.groups :: g.id;
    GroupIdsAre(v.groups);
    ItemIssues(v.items, groupIds, kind, id, group);
    GroupIssues(v.groups, kind, id);
    if v.defaultNavId.Some? { FirstIsFound(v.items, v.defaultNavId.value); }
  }

  /** Item `k` is the first with this id. */
  ghost predicate FirstWith(items: seq<NavItem>, k: int, navId: string)
    requires 0 <= k < |items|
  {
    items[k].navId == navId && forall j | 0 <= j < k :: items[j].navId != navId
  }

  lemma {:induction false} FirstIsFound(items: seq<NavItem>, navId: string)
    ensures FindItem(items, navId).Some? <==> exists k :: 0 <= k < |items| && FirstWith(items, k, navId)
    ensures forall k | 0 <= k < |items| && FirstWith(items, k, navId) :: FindItem(items, navId) == Some(items[k])
  {
    if items != [] {
      FirstIsFound(items[1..], navId);
      if items[0].navId == navId {
        assert FirstWith(items, 0, navId);
      } else {
        forall k | 1 <= k < |items| ensures FirstWith(items, k, navId) <==> FirstWith(items[1..], k - 1, navId) {
          assert forall j | 1 <= j < k :: items[j] == items[1..][j - 1];
        }
        if k :| 0 <= k < |items[1..]| && FirstWith(items[1..], k, navId) { assert FirstWith(items, k + 1, navId); }
      }
    }
  }

  lemma GroupIssues(groups: seq<Group>, kind: string, id: string)
    ensures forall issue | issue in DuplicateLog(GroupEntries(groups)) :: issue.Duplicate?
    ensures Duplicate(kind, id) in DuplicateLog(GroupEntries(groups))
       <==> kind == "navigation group"
            && exists i, j :: 0 <= i < j < |groups| && groups[i].id == id && groups[j].id == id
  {
    var ids := GroupIds(groups);
    AloneIssues(ids, "navigation group", kind, id);
    OnlyDuplicates(GroupEntries(groups));
    if i, j :| 0 <= i < j < |groups| && groups[i].id == id && groups[j].id == id {
      assert ids[i] == id && ids[j] == id;
    }
  }

  lemma {:induction false} OnlyDuplicates(entries: seq<Entry>)
    ensures forall issue | issue in DuplicateLog(entries) :: issue.Duplicate?
  {
    if entries != [] { OnlyDuplicates(entries[..|entries| - 1]); }
  }

  // ----- element override

  function OrEmpty(fields: Option<seq<string>>): seq<string> { if fields.Some? then fields.value else [] }

  function ConflictLog(visible: set<string>, hidden: seq<string>): seq<Issue> {
    if hidden == [] then []
    else
      var before, last := hidden[..|hidden| - 1], hidden[|hidden| - 1];
      ConflictLog(visible, before) + (if last in visible then [VisibleAndHidden(last)] else [])
  }

  function VisibleSet(v: ElementOverride): set<string> { set f | f in OrEmpty(v.visibleFields) }

  function ElementLog(v: ElementOverride): seq<Issue> {
    ConflictLog(VisibleSet(v), OrEmpty(v.hiddenFields))
    + (if OrEmpty(v.sectionOrder) != [] && v.elementId != "task.modal" then [SectionOrderUnsupported] else [])
  }

  method RefineElement(value: ElementOverride, ctx: Context)
    modifies ctx
    ensures ctx.issues == old(ctx.issues) + ElementLog(value)
  {
    var visible := VisibleSet(value);
    var hidden := OrEmpty(value.hiddenFields);
    var k := 0;
    while k < |hidden|
      invariant 0 <= k <= |hidden|
      invariant ctx.issues == old(ctx.issues) + ConflictLog(visible, hidden[..k])
    {
      assert hidden[..k + 1][..k] == hidden[..k];
      if hidden[k] in visible {
        ctx.AddIssue(VisibleAndHidden(hidden[k]));
      }
      k := k + 1;
    }
    assert hidden[..k] == hidden;
    if OrEmpty(value.sectionOrder) != [] && value.elementId != "task.modal" {
      ctx.AddIssue(SectionOrderUnsupported);
    }
  }

  /** The conflicts logged are the hidden fields, with repeats, that are also visible. */
  lemma {:induction false} ConflictLogMembers(visible: set<string>, hidden: seq<string>, f: string)
    ensures multiset(ConflictLog(visible, hidden))[VisibleAndHidden(f)]
         == if f in visible then multiset(hidden)[f] else 0
  {
    if hidden != [] {
      var before, last := hidden[..|hidden| - 1], hidden[|hidden| - 1];
      ConflictLogMembers(visible, before, f);
      assert hidden == before + [last];
    }
  }

  /** An element override is accepted exactly when no field is both visible and hidden, and sections are ordered
      only for `task.modal`. */
  lemma {:induction false} ElementAcceptedIff(v: ElementOverride)
    ensures ElementLog(v) == [] <==>
      && (v.hiddenFields.Some? && v.visibleFields.Some? ==>
            forall f | f in v.hiddenFields.value :: f !in v.visibleFields.value)
      && (v.sectionOrder.Some? && v.sectionOrder.value != [] ==> v.elementId == "task.modal")
  {
    ConflictLogEmpty(VisibleSet(v), OrEmpty(v.hiddenFields));
  }

  lemma {:induction false} ConflictLogEmpty(visible: set<string>, hidden: seq<string>)
    ensures ConflictLog(visible, hidden) == [] <==> forall f | f in hidden :: f !in visible
  {
    if hidden != [] {
      var before, last := hidden[..|hidden| - 1], hidden[|hidden| - 1];
      ConflictLogEmpty(visible, before);
      assert hidden == before + [last];
    }
  }
}
