/**
 * The contributions section of the home page and of the contributions listing in
 * full mode (src/components/sections/contribution-list.tsx): which categories are
 * shown and in what order, how many entries each shows, the "And N more" line, the
 * feature preview of each card, and the extra GitHub section of full mode.
 */
module ContributionList {
  import opened Wrappers
  import opened Display
  import opened Listing
  import opened ResumeData

  const TypeOrder: seq<string> := ["tool", "community", "github"]

  /** Entries shown per category in highlight mode. */
  function Cap(k: string): nat {
    if k == "tool" then 2
    else if k == "community" then 2
    else if k == "github" then 3
    else 2
  }

  /** Highlight mode filters `TypeOrder` and skips "github". */
  const Spec := ListSpec(TypeOrder, {"github"}, Cap)

  function TypeVariant(k: string): Variant {
    match k
    case "tool" => Info
    case "community" => Success
    case "github" => Secondary
    case _ => Secondary
  }

  /** Tool and community badges have their own colours; github shares the default with every unknown type. */
  lemma TypeVariants(k: string)
    ensures TypeVariant(k) == Info <==> k == "tool"
    ensures TypeVariant(k) == Success <==> k == "community"
    ensures TypeVariant(k) == Secondary <==> k !in {"tool", "community"}
  {
  }

  /** `typeLabels[type]`; the tool label depends on the mode. */
  function TypeLabel(mode: Mode, k: string): Option<string> {
    if k == "tool" then Some(if mode == Full then "Research & Development Tools" else "Research Tools")
    else if k == "community" then Some("Community Projects")
    else if k == "github" then Some("Open Source Libraries")
    else None
  }

  /** `typeLabels[type] || type`. */
  function Heading(mode: Mode, k: string): string {
    if Truthy(TypeLabel(mode, k)) then TypeLabel(mode, k).value else k
  }

  /** `typeLabels[type]?.toLowerCase() || type`, the noun of the "And N more" line. */
  function MoreLabel(mode: Mode, k: string): string {
    var name := TypeLabel(mode, k);
    if name.Some? && Lower(name.value) != [] then Lower(name.value) else k
  }

  /** The features under a card: the first ones, and the "+N more features" count if any. */
  datatype FeatureBlock = FeatureBlock(features: seq<string>, moreCount: Option<nat>)

  /**
   * The feature list of a card: nothing for an absent or empty list, every feature
   * in full mode, and in highlight mode the first two and a count of the rest.
   */
  function FeaturePreview(mode: Mode, features: Option<seq<string>>): (r: Option<FeatureBlock>)
    ensures r.Some? <==> features.Some? && features.value != []
    ensures r.Some? ==> r.value.features <= features.value
    ensures r.Some? ==> |r.value.features| + r.value.moreCount.GetOr(0) == |features.value|
    ensures r.Some? && mode == Full ==> r.value.features == features.value && r.value.moreCount == None
    ensures r.Some? && mode == Highlight ==>
              |r.value.features| == Min(2, |features.value|)
              && (r.value.moreCount.Some? <==> |features.value| > 2)
  {
    match features
    case None => None
    case Some(fs) =>
      if |fs| > 0 && mode == Full then Some(FeatureBlock(fs, None))
      else if |fs| > 0 then Some(FeatureBlock(Take(fs, 2), if |fs| > 2 then Some(|fs| - 2) else None))
      else None
  }

  /** One contribution card; the GitHub grid shows no features. */
  datatype Card = Card(entry: Contribution, description: Option<string>, badge: Variant, features: Option<FeatureBlock>)

  function MakeCard(mode: Mode, section: string, c: Contribution): Card {
    Card(c, Shown(c.description), TypeVariant(c.kind),
         if section == "github" then None else FeaturePreview(mode, c.features))
  }

  datatype Section = Section(kind: string, heading: string, badge: CountBadge, cards: seq<Card>, more: Option<MoreLine>)

  function MakeSection(mode: Mode, p: Panel<Contribution>): Section {
    Section(p.kind, Heading(mode, p.kind),
            CountBadge(TypeVariant(p.kind), |p.group|, Noun(|p.group|, "project", "projects")),
            seq(|p.shown|, j requires 0 <= j < |p.shown| => MakeCard(mode, p.kind, p.shown[j])),
            if p.showMore then Some(MoreLine(p.remaining, MoreLabel(mode, p.kind))) else None)
  }

  /** Everything the component selects for rendering. */
  datatype View = View(title: string, viewAllLink: bool, sections: seq<Section>, additional: Option<seq<GitHubLink>>)

  function Render(mode: Mode, cs: seq<Contribution>): (v: View)
    ensures |v.sections| == |TypesToShow(cs, ContributionKind, mode, Spec)|
    ensures v.viewAllLink <==> mode == Highlight
    ensures v.additional.Some? <==> mode == Full
    ensures v.additional.Some? ==> v.additional.value == AdditionalGitHubContributions(cs)
  {
    var ps := Panels(cs, ContributionKind, mode, Spec);
    View(if mode == Highlight then "Open Source Contributions" else "Open Source Projects & Contributions",
         mode == Highlight,
         seq(|ps|, i requires 0 <= i < |ps| => MakeSection(mode, ps[i])),
         if mode == Full then Some(AdditionalGitHubContributions(cs)) else None)
  }

  /** Highlight mode lists tool and then community, each only when present; never github. */
  lemma HighlightCategories(cs: seq<Contribution>)
    ensures TypesToShow(cs, ContributionKind, Highlight, Spec)
            == (if "tool" in Grouped(cs, ContributionKind) then ["tool"] else [])
               + (if "community" in Grouped(cs, ContributionKind) then ["community"] else [])
  {
    var present := Kinds(cs, ContributionKind);
    assert TypeOrder[0] == "tool" && TypeOrder[1..] == ["community", "github"];
    assert ["community", "github"][1..] == ["github"];
    assert HighlightTypes(["github"], {"github"}, present) == [];
    assert HighlightTypes(["community", "github"], {"github"}, present)
           == (if "community" in present then ["community"] else []);
  }

  /**
   * Full mode lists every category once, tool before community before github, and
   * unknown categories after them in lexicographic order.
   */
  lemma FullCategories(cs: seq<Contribution>, i: int, j: int)
    requires 0 <= i < j < |TypesToShow(cs, ContributionKind, Full, Spec)|
    ensures multiset(TypesToShow(cs, ContributionKind, Full, Spec)) == multiset(Kinds(cs, ContributionKind))
    ensures var ts := TypesToShow(cs, ContributionKind, Full, Spec);
            ts[j] != "tool"
            && (ts[j] == "community" ==> ts[i] == "tool")
            && (ts[j] == "github" ==> ts[i] in {"tool", "community"})
            && (ts[i] !in TypeOrder ==> ts[j] !in TypeOrder && LexCompare(ts[i], ts[j]) < 0)
  {
    var ts := TypesToShow(cs, ContributionKind, Full, Spec);
    FullTypes(cs, ContributionKind, Spec);
    SortedRanks(TypeOrder, ts, i, j);
    assert IndexOf(TypeOrder, "tool") == 0;
    assert IndexOf(TypeOrder, "community") == 1;
    assert IndexOf(TypeOrder, "github") == 2;
  }

  /** The section built from one panel: its badge, its cards and its "And N more" line. */
  lemma SectionOfPanel(mode: Mode, k: string, g: seq<Contribution>)
    ensures var s := MakeSection(mode, MakePanel(mode, Cap(k), k, g));
            s.kind == k
            && s.badge.count == |g| && (s.badge.unit == "project" <==> |g| == 1)
            && |s.cards| <= |g| && (forall c :: 0 <= c < |s.cards| ==> s.cards[c].entry == g[c])
            && (mode == Full ==> |s.cards| == |g|)
            && (mode == Highlight ==> |s.cards| == Min(if k == "github" then 3 else 2, |g|))
            && (s.more.Some? <==> mode == Highlight && |s.cards| < |g|)
            && (s.more.Some? ==> s.more.value.count == |g| - |s.cards| && s.more.value.noun == MoreLabel(mode, k))
  {
    var p := MakePanel(mode, Cap(k), k, g);
    var s := MakeSection(mode, p);
    forall c | 0 <= c < |s.cards| ensures s.cards[c].entry == g[c] {
      assert s.cards[c] == MakeCard(mode, k, p.shown[c]);
    }
  }

  /**
   * Each section shows its category's group: the whole group in full mode, in
   * highlight mode its first 2 entries (3 for github), with "And N more" exactly
   * when entries are left, N being the number left.
   */
  lemma SectionContents(mode: Mode, cs: seq<Contribution>, i: int)
    requires 0 <= i < |Render(mode, cs).sections|
    ensures var s, k := Render(mode, cs).sections[i], TypesToShow(cs, ContributionKind, mode, Spec)[i];
            k in Grouped(cs, ContributionKind) && Grouped(cs, ContributionKind)[k] != []
            && s == MakeSection(mode, MakePanel(mode, Cap(k), k, Grouped(cs, ContributionKind)[k]))
  {
    PanelGroups(cs, ContributionKind, mode, Spec, i);
  }

  /** A GitHub card never shows features; any other card previews them by mode. */
  lemma CardFeatures(mode: Mode, section: string, c: Contribution)
    ensures section == "github" ==> MakeCard(mode, section, c).features == None
    ensures section != "github" ==> MakeCard(mode, section, c).features == FeaturePreview(mode, c.features)
    ensures MakeCard(mode, section, c).description.Some? <==> Truthy(c.description)
  {
  }

  /** The "And N more" noun: the lower-cased label, or the raw type for unknown types. */
  lemma MoreLabels(mode: Mode, k: string)
    ensures k == "tool" ==> MoreLabel(mode, k) == (if mode == Full then "research & development tools" else "research tools")
    ensures k == "community" ==> MoreLabel(mode, k) == "community projects"
    ensures k == "github" ==> MoreLabel(mode, k) == "open source libraries"
    ensures k !in TypeOrder ==> MoreLabel(mode, k) == k && Heading(mode, k) == k
  {
    if k == "tool" {
      ToolNoun(mode);
    } else if k == "community" {
      CommunityNoun(mode);
    } else if k == "github" {
      GitHubNoun(mode);
    }
  }

  lemma ToolNoun(mode: Mode)
    ensures MoreLabel(mode, "tool") == if mode == Full then "research & development tools" else "research tools"
  {
    if mode == Full {
      LowerLiteral("Research & Development Tools", "research & development tools");
    } else {
      LowerLiteral("Research Tools", "research tools");
    }
  }

  lemma CommunityNoun(mode: Mode)
    ensures MoreLabel(mode, "community") == "community projects"
  {
    LowerLiteral("Community Projects", "community projects");
  }

  lemma GitHubNoun(mode: Mode)
    ensures MoreLabel(mode, "github") == "open source libraries"
  {
    LowerLiteral("Open Source Libraries", "open source libraries");
  }
}
