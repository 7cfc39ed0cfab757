/**
 * The contributions page (src/app/contributions/page.tsx): one section per category
 * of `typeOrder` that has entries, each listing its whole group with every feature.
 */
module ContributionsPage {
  import opened Wrappers
  import opened Display
  import opened Listing
  import opened ResumeData
  import ContributionList

  /** The page's categories: those of `typeOrder` present in the grouping, in that order. */
  function PageTypes(cs: seq<Contribution>): seq<string> {
    HighlightTypes(ContributionList.TypeOrder, {}, Kinds(cs, ContributionKind))
  }

  /** A card: the description when truthy, and every feature when the list is non-empty. */
  datatype Card = Card(entry: Contribution, badge: Variant, description: Option<string>, features: Option<seq<string>>)

  function Features(features: Option<seq<string>>): (r: Option<seq<string>>)
    ensures r.Some? <==> features.Some? && features.value != []
    ensures r.Some? ==> r == features
  {
    if features.Some? && |features.value| > 0 then features else None
  }

  function MakeCard(c: Contribution): Card {
    Card(c, ContributionList.TypeVariant(c.kind), Shown(c.description), Features(c.features))
  }

  datatype Section = Section(kind: string, heading: string, badge: CountBadge, cards: seq<Card>)

  /** The section of one category; the labels are those of the full-mode list. */
  function MakeSection(k: string, group: seq<Contribution>): (s: Section)
    ensures |s.cards| == |group|
    ensures forall j :: 0 <= j < |group| ==> s.cards[j].entry == group[j]
    ensures s.badge.count == |group| && (s.badge.unit == "project" <==> |group| == 1)
  {
    Section(k, ContributionList.Heading(Full, k),
            CountBadge(ContributionList.TypeVariant(k), |group|, Noun(|group|, "project", "projects")),
            seq(|group|, j requires 0 <= j < |group| => MakeCard(group[j])))
  }

  function Sections(cs: seq<Contribution>): (ss: seq<Section>)
    ensures |ss| == |PageTypes(cs)|
  {
    var ts := PageTypes(cs);
    seq(|ts|, i requires 0 <= i < |ts| => MakeSection(ts[i], Filter(cs, ContributionKind, ts[i])))
  }

  /** The entries the page lists, section after section. */
  function Rendered(cs: seq<Contribution>): seq<Contribution> {
    ConcatGroups(cs, ContributionKind, PageTypes(cs))
  }

  /** Sections come in the order tool, community, github, each only when it has entries. */
  lemma PageOrder(cs: seq<Contribution>)
    ensures var g := Grouped(cs, ContributionKind);
            PageTypes(cs)
            == (if "tool" in g then ["tool"] else []) + (if "community" in g then ["community"] else [])
               + (if "github" in g then ["github"] else [])
  {
    var present := Kinds(cs, ContributionKind);
    assert ContributionList.TypeOrder[0] == "tool";
    assert ContributionList.TypeOrder[1..] == ["community", "github"];
    assert ["community", "github"][1..] == ["github"];
    assert HighlightTypes(["github"], {}, present) == (if "github" in present then ["github"] else []);
    assert HighlightTypes(["community", "github"], {}, present)
           == (if "community" in present then ["community"] else []) + HighlightTypes(["github"], {}, present);
  }

  /** Each section lists its whole, non-empty group in input order, untruncated. */
  lemma SectionIsWholeGroup(cs: seq<Contribution>, i: int)
    requires 0 <= i < |Sections(cs)|
    ensures var s, k := Sections(cs)[i], PageTypes(cs)[i];
            k in Grouped(cs, ContributionKind) && s.kind == k
            && var g := Grouped(cs, ContributionKind)[k];
            g != [] && |s.cards| == |g| && forall j :: 0 <= j < |g| ==> s.cards[j].entry == g[j]
  {
    var ts := PageTypes(cs);
    assert ts[i] in ts;
    HighlightTypesMember(ContributionList.TypeOrder, {}, Kinds(cs, ContributionKind), ts[i]);
    KindsPresent(cs, ContributionKind, ts[i]);
  }

  /** A priority-filtered list of categories has no repeats. */
  lemma PageTypesDistinct(cs: seq<Contribution>)
    ensures Distinct(PageTypes(cs))
  {
    var ts := PageTypes(cs);
    forall i, j | 0 <= i < j < |ts| ensures ts[i] != ts[j] {
      HighlightTypesInOrder(ContributionList.TypeOrder, {}, Kinds(cs, ContributionKind), i, j);
    }
  }

  /**
   * The page lists every contribution of type tool, community or github exactly as
   * often as it occurs, and never one of any other type.
   */
  lemma RenderedEntries(cs: seq<Contribution>, c: Contribution)
    ensures multiset(Rendered(cs))[c]
            == if c.kind in ContributionList.TypeOrder then multiset(cs)[c] else 0
  {
    PageTypesDistinct(cs);
    ConcatGroupsCount(cs, ContributionKind, PageTypes(cs), c);
    HighlightTypesMember(ContributionList.TypeOrder, {}, Kinds(cs, ContributionKind), c.kind);
    if c in cs {
      var i :| 0 <= i < |cs| && cs[i] == c;
      KindOfEntryPresent(cs, ContributionKind, i);
    }
  }

  /** The rendered cards, section after section, are exactly the rendered entries. */
  lemma {:induction false} SectionsRenderEntries(cs: seq<Contribution>, ks: seq<string>)
    ensures var ss := seq(|ks|, i requires 0 <= i < |ks| => MakeSection(ks[i], Filter(cs, ContributionKind, ks[i])));
            CardEntries(ss) == ConcatGroups(cs, ContributionKind, ks)
  {
    if ks != [] {
      var ss := seq(|ks|, i requires 0 <= i < |ks| => MakeSection(ks[i], Filter(cs, ContributionKind, ks[i])));
      var rest := seq(|ks| - 1, i requires 0 <= i < |ks| - 1 => MakeSection(ks[1..][i], Filter(cs, ContributionKind, ks[1..][i])));
      assert ss[1..] == rest;
      SectionsRenderEntries(cs, ks[1..]);
      var g := Filter(cs, ContributionKind, ks[0]);
      assert Entries(ss[0].cards) == g;
    }
  }

  function Entries(cards: seq<Card>): (r: seq<Contribution>)
    ensures |r| == |cards|
    ensures forall j :: 0 <= j < |cards| ==> r[j] == cards[j].entry
  {
    seq(|cards|, j requires 0 <= j < |cards| => cards[j].entry)
  }

  function CardEntries(ss: seq<Section>): seq<Contribution> {
    if ss == [] then [] else Entries(ss[0].cards) + CardEntries(ss[1..])
  }

  /** The entries behind the page's cards are the concatenated groups of its categories. */
  lemma PageCards(cs: seq<Contribution>)
    ensures CardEntries(Sections(cs)) == Rendered(cs)
  {
    SectionsRenderEntries(cs, PageTypes(cs));
  }
}
