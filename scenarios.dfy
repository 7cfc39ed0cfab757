/**
 * Facts about the shipped résumé content (src/data/resume.ts): how it groups, which
 * categories each list shows, and what the speaking section displays.
 */
module Scenarios {
  import opened Wrappers
  import opened Display
  import opened Listing
  import opened ResumeData
  import ContributionList
  import ContributionsPage
  import PublicationList
  import SpeakingHighlights

  /** The category of each entry, in order. */
  function KindSeq<T>(xs: seq<T>, kind: T -> string): (r: seq<string>)
    ensures |r| == |xs| && forall i :: 0 <= i < |xs| ==> r[i] == kind(xs[i])
  {
    seq(|xs|, i requires 0 <= i < |xs| => kind(xs[i]))
  }

  function Same(s: string): string { s }

  /** The grouping's keys and group sizes, read off the category sequence. */
  lemma GroupsFromKinds<T>(xs: seq<T>, kind: T -> string, ks: seq<string>, k: string)
    requires KindSeq(xs, kind) == ks
    ensures Kinds(xs, kind) == Kinds(ks, Same)
    ensures k in Kinds(ks, Same) ==> |Grouped(xs, kind)[k]| == |Filter(ks, Same, k)|
  {
    GroupingByKinds(xs, kind, k);
  }

  /** Grouping sees only the categories: keys and group sizes follow from them alone. */
  lemma {:induction false} GroupingByKinds<T>(xs: seq<T>, kind: T -> string, k: string)
    ensures Kinds(xs, kind) == Kinds(KindSeq(xs, kind), Same)
    ensures |Filter(xs, kind, k)| == |Filter(KindSeq(xs, kind), Same, k)|
  {
    if xs != [] {
      var init := xs[..|xs| - 1];
      GroupingByKinds(init, kind, k);
      assert KindSeq(xs, kind)[..|xs| - 1] == KindSeq(init, kind);
    }
  }

  /** `n` entries of category `k` in a row. */
  function Run(k: string, n: nat): (r: seq<string>)
    ensures |r| == n && forall i :: 0 <= i < n ==> r[i] == k
  {
    seq(n, i => k)
  }

  lemma {:induction false} KindsAppendRun(a: seq<string>, k: string, n: nat)
    requires n >= 1
    ensures Kinds(a + Run(k, n), Same) == if k in Kinds(a, Same) then Kinds(a, Same) else Kinds(a, Same) + [k]
  {
    var b := a + Run(k, n - 1);
    RunSnoc(a, k, n);
    KindsSnoc(b, k, Same);
    if n == 1 {
      assert b == a;
    } else {
      KindsAppendRun(a, k, n - 1);
      assert k in Kinds(b, Same);
    }
  }

  lemma RunSnoc(a: seq<string>, k: string, n: nat)
    requires n >= 1
    ensures a + Run(k, n) == a + Run(k, n - 1) + [k]
  {
    assert Run(k, n) == Run(k, n - 1) + [k];
  }

  lemma {:induction false} RunCount(k: string, n: nat, j: string)
    ensures multiset(Run(k, n))[j] == if j == k then n else 0
  {
    if n > 0 {
      RunCount(k, n - 1, j);
      assert Run(k, n) == Run(k, n - 1) + [k];
    }
  }

  lemma {:induction false} FilterSameLength(ks: seq<string>, k: string)
    ensures |Filter(ks, Same, k)| == multiset(ks)[k]
  {
    if ks != [] {
      var init := ks[..|ks| - 1];
      FilterSameLength(init, k);
      assert ks == init + [ks[|ks| - 1]];
    }
  }

  const ContributionKinds := ["tool", "community", "community", "community", "github", "github", "github", "github", "github"]

  lemma ShippedContributionKinds()
    ensures KindSeq(ShippedContributions, ContributionKind) == ContributionKinds
  {
  }

  lemma ContributionKindsKeys()
    ensures Kinds(ContributionKinds, Same) == ["tool", "community", "github"]
  {
    assert ContributionKinds == Run("tool", 1) + Run("community", 3) + Run("github", 5);
    ThreeRunsKeys("tool", "community", "github", 1, 3, 5);
  }

  lemma ContributionKindsSizes()
    ensures |Filter(ContributionKinds, Same, "tool")| == 1
    ensures |Filter(ContributionKinds, Same, "community")| == 3
    ensures |Filter(ContributionKinds, Same, "github")| == 5
  {
    FilterSameLength(ContributionKinds, "tool");
    FilterSameLength(ContributionKinds, "community");
    FilterSameLength(ContributionKinds, "github");
  }

  /** The shipped contributions group into tool: 1, community: 3, github: 5. */
  lemma ShippedContributionGroups()
    ensures var g := Grouped(ShippedContributions, ContributionKind);
            Kinds(ShippedContributions, ContributionKind) == ["tool", "community", "github"]
            && |g["tool"]| == 1 && |g["community"]| == 3 && |g["github"]| == 5
  {
    ShippedContributionKinds();
    GroupingByKinds(ShippedContributions, ContributionKind, "tool");
    GroupingByKinds(ShippedContributions, ContributionKind, "community");
    GroupingByKinds(ShippedContributions, ContributionKind, "github");
    ContributionKindsKeys();
    ContributionKindsSizes();
  }

  const PublicationKinds := Run("certificate", 3) + Run("paper", 1) + Run("thesis", 1) + Run("book", 2) + Run("blog", 9)

  lemma ShippedPublicationKinds()
    ensures KindSeq(ShippedPublications, PublicationKind) == PublicationKinds
  {
  }

  lemma PublicationKindsKeys()
    ensures Kinds(PublicationKinds, Same) == ["certificate", "paper", "thesis", "book", "blog"]
  {
    FiveRunsKeys("certificate", "paper", "thesis", "book", "blog", 3, 1, 1, 2, 9);
  }

  /** Five runs of distinct categories are seen in the order of the runs. */
  lemma FiveRunsKeys(k0: string, k1: string, k2: string, k3: string, k4: string,
                     n0: nat, n1: nat, n2: nat, n3: nat, n4: nat)
    requires n0 >= 1 && n1 >= 1 && n2 >= 1 && n3 >= 1 && n4 >= 1
    requires k1 != k0 && k2 !in {k0, k1} && k3 !in {k0, k1, k2} && k4 !in {k0, k1, k2, k3}
    ensures Kinds(Run(k0, n0) + Run(k1, n1) + Run(k2, n2) + Run(k3, n3) + Run(k4, n4), Same) == [k0, k1, k2, k3, k4]
  {
    FourRunsKeys(k0, k1, k2, k3, n0, n1, n2, n3);
    NewRun(Run(k0, n0) + Run(k1, n1) + Run(k2, n2) + Run(k3, n3), [k0, k1, k2, k3], k4, n4);
  }

  lemma FourRunsKeys(k0: string, k1: string, k2: string, k3: string, n0: nat, n1: nat, n2: nat, n3: nat)
    requires n0 >= 1 && n1 >= 1 && n2 >= 1 && n3 >= 1
    requires k1 != k0 && k2 !in {k0, k1} && k3 !in {k0, k1, k2}
    ensures Kinds(Run(k0, n0) + Run(k1, n1) + Run(k2, n2) + Run(k3, n3), Same) == [k0, k1, k2, k3]
  {
    ThreeRunsKeys(k0, k1, k2, n0, n1, n2);
    NewRun(Run(k0, n0) + Run(k1, n1) + Run(k2, n2), [k0, k1, k2], k3, n3);
  }

  lemma ThreeRunsKeys(k0: string, k1: string, k2: string, n0: nat, n1: nat, n2: nat)
    requires n0 >= 1 && n1 >= 1 && n2 >= 1
    requires k1 != k0 && k2 !in {k0, k1}
    ensures Kinds(Run(k0, n0) + Run(k1, n1) + Run(k2, n2), Same) == [k0, k1, k2]
  {
    TwoRunsKeys(k0, k1, n0, n1);
    NewRun(Run(k0, n0) + Run(k1, n1), [k0, k1], k2, n2);
  }

  lemma TwoRunsKeys(k0: string, k1: string, n0: nat, n1: nat)
    requires n0 >= 1 && n1 >= 1 && k1 != k0
    ensures Kinds(Run(k0, n0) + Run(k1, n1), Same) == [k0, k1]
  {
    OneRunKeys(k0, n0);
    NewRun(Run(k0, n0), [k0], k1, n1);
  }

  lemma OneRunKeys(k: string, n: nat)
    requires n >= 1
    ensures Kinds(Run(k, n), Same) == [k]
  {
    KindsAppendRun([], k, n);
    assert [] + Run(k, n) == Run(k, n);
  }

  /** A run of a new category adds that category to the keys, at the end. */
  lemma NewRun(a: seq<string>, ks: seq<string>, k: string, n: nat)
    requires Kinds(a, Same) == ks && k !in ks && n >= 1
    ensures Kinds(a + Run(k, n), Same) == ks + [k]
  {
    KindsAppendRun(a, k, n);
  }

  lemma PublicationKindsSizes()
    ensures |Filter(PublicationKinds, Same, "certificate")| == 3
    ensures |Filter(PublicationKinds, Same, "paper")| == 1
    ensures |Filter(PublicationKinds, Same, "thesis")| == 1
    ensures |Filter(PublicationKinds, Same, "book")| == 2
    ensures |Filter(PublicationKinds, Same, "blog")| == 9
  {
    var ks, ns := ["certificate", "paper", "thesis", "book", "blog"], [3, 1, 1, 2, 9];
    FiveRunsCount(ks[0], ks[1], ks[2], ks[3], ks[4], ns[0], ns[1], ns[2], ns[3], ns[4], "certificate");
    FiveRunsCount(ks[0], ks[1], ks[2], ks[3], ks[4], ns[0], ns[1], ns[2], ns[3], ns[4], "paper");
    FiveRunsCount(ks[0], ks[1], ks[2], ks[3], ks[4], ns[0], ns[1], ns[2], ns[3], ns[4], "thesis");
    FiveRunsCount(ks[0], ks[1], ks[2], ks[3], ks[4], ns[0], ns[1], ns[2], ns[3], ns[4], "book");
    FiveRunsCount(ks[0], ks[1], ks[2], ks[3], ks[4], ns[0], ns[1], ns[2], ns[3], ns[4], "blog");
  }

  /** In five runs of categories, a category's group has the sizes of its runs added up. */
  lemma FiveRunsCount(k0: string, k1: string, k2: string, k3: string, k4: string,
                      n0: nat, n1: nat, n2: nat, n3: nat, n4: nat, k: string)
    ensures |Filter(Run(k0, n0) + Run(k1, n1) + Run(k2, n2) + Run(k3, n3) + Run(k4, n4), Same, k)|
            == (if k == k0 then n0 else 0) + (if k == k1 then n1 else 0) + (if k == k2 then n2 else 0)
               + (if k == k3 then n3 else 0) + (if k == k4 then n4 else 0)
  {
    var a, b, c, d, e := Run(k0, n0), Run(k1, n1), Run(k2, n2), Run(k3, n3), Run(k4, n4);
    RunCount(k0, n0, k);
    RunCount(k1, n1, k);
    RunCount(k2, n2, k);
    RunCount(k3, n3, k);
    RunCount(k4, n4, k);
    assert multiset(a + b + c + d + e) == multiset(a) + multiset(b) + multiset(c) + multiset(d) + multiset(e);
    FilterSameLength(a + b + c + d + e, k);
  }

  /** The shipped publications have the categories certificate, paper, thesis, book, blog, first seen in that order. */
  lemma ShippedPublicationKeys()
    ensures Kinds(ShippedPublications, PublicationKind) == ["certificate", "paper", "thesis", "book", "blog"]
  {
    ShippedPublicationKinds();
    PublicationKindsKeys();
    GroupsFromKinds(ShippedPublications, PublicationKind, PublicationKinds, "");
  }

  /** A group's size, read off the category sequence. */
  lemma GroupSize<T>(xs: seq<T>, kind: T -> string, ks: seq<string>, k: string, n: nat)
    requires KindSeq(xs, kind) == ks && k in Kinds(ks, Same) && |Filter(ks, Same, k)| == n
    ensures k in Grouped(xs, kind) && |Grouped(xs, kind)[k]| == n
  {
    GroupingByKinds(xs, kind, k);
  }

  /** The shipped publications group into certificate: 3, paper: 1, thesis: 1, book: 2, blog: 9. */
  lemma ShippedPublicationGroups()
    ensures var g := Grouped(ShippedPublications, PublicationKind);
            "certificate" in g && |g["certificate"]| == 3 && "paper" in g && |g["paper"]| == 1
            && "thesis" in g && |g["thesis"]| == 1 && "book" in g && |g["book"]| == 2
            && "blog" in g && |g["blog"]| == 9
  {
    var ps, ks := ShippedPublications, PublicationKinds;
    ShippedPublicationKinds();
    PublicationKindsKeys();
    PublicationKindsSizes();
    GroupSize(ps, PublicationKind, ks, "certificate", 3);
    GroupSize(ps, PublicationKind, ks, "paper", 1);
    GroupSize(ps, PublicationKind, ks, "thesis", 1);
    GroupSize(ps, PublicationKind, ks, "book", 2);
    GroupSize(ps, PublicationKind, ks, "blog", 9);
  }

  /** A chain of neighbours in comparator order is strictly sorted. */
  lemma {:induction false} ChainSorted(order: seq<string>, s: seq<string>)
    requires forall i :: 0 <= i < |s| - 1 ==> Before(order, s[i], s[i + 1])
    ensures StrictlySorted(order, s)
  {
    if |s| > 1 {
      ChainSorted(order, s[1..]);
      forall j | 1 < j < |s| ensures Before(order, s[0], s[j]) {
        assert s[1..][j - 1] == s[j];
        BeforeTransitive(order, s[0], s[1], s[j]);
      }
    }
  }

  /** The publication list shows blog, paper, thesis, certificate in highlight mode; the two books are left out. */
  lemma ShippedPublicationHighlightTypes()
    ensures TypesToShow(ShippedPublications, PublicationKind, Highlight, PublicationList.Spec)
            == ["blog", "paper", "thesis", "certificate"]
  {
    ShippedPublicationKeys();
    HighlightWithAllListed(ShippedPublications);
  }

  lemma HighlightWithAllListed(ps: seq<Publication>)
    requires Kinds(ps, PublicationKind) == ["certificate", "paper", "thesis", "book", "blog"]
    ensures TypesToShow(ps, PublicationKind, Highlight, PublicationList.Spec) == ["blog", "paper", "thesis", "certificate"]
  {
    PublicationList.HighlightCategories(ps);
  }

  const PublicationFullOrder := ["blog", "paper", "thesis", "certificate", "book"]

  lemma PublicationFullOrderSorted()
    ensures StrictlySorted(PublicationList.TypeOrder, PublicationFullOrder)
  {
    PublicationList.Ranks();
    assert IndexOf(PublicationList.TypeOrder, "book") == -1;
    ChainSorted(PublicationList.TypeOrder, PublicationFullOrder);
  }

  lemma FullOrderPermutes<X>(x0: X, x1: X, x2: X, x3: X, x4: X)
    ensures multiset([x4, x1, x2, x0, x3]) == multiset([x0, x1, x2, x3, x4])
  {
    SeqBag(x4, x1, x2, x0, x3);
    SeqBag(x0, x1, x2, x3, x4);
    BagPermutes(x0, x1, x2, x3, x4);
  }

  lemma SeqBag<X>(a: X, b: X, c: X, d: X, e: X)
    ensures multiset([a, b, c, d, e]) == multiset{a, b, c, d, e}
  {
    assert multiset([a, b, c, d]) == multiset{a, b, c, d};
  }

  lemma BagPermutes<X>(x0: X, x1: X, x2: X, x3: X, x4: X)
    ensures multiset{x4, x1, x2, x0, x3} == multiset{x0, x1, x2, x3, x4}
  {
  }

  /** In full mode the books come last, after the four listed categories. */
  lemma ShippedPublicationFullTypes()
    ensures TypesToShow(ShippedPublications, PublicationKind, Full, PublicationList.Spec) == PublicationFullOrder
  {
    var full := TypesToShow(ShippedPublications, PublicationKind, Full, PublicationList.Spec);
    ShippedPublicationKeys();
    PublicationFullOrderSorted();
    FullTypes(ShippedPublications, PublicationKind, PublicationList.Spec);
    FullOrderPermutes("certificate", "paper", "thesis", "book", "blog");
    SortedUnique(PublicationList.TypeOrder, PublicationFullOrder, full);
  }

  /**
   * The highlight contribution list: the one tool in full, then two of the three
   * community projects with "And 1 more community projects"; the GitHub libraries
   * are not listed.
   */
  lemma ShippedContributionHighlight()
    ensures var v := ContributionList.Render(Highlight, ShippedContributions);
            |v.sections| == 2
            && v.sections[0].kind == "tool" && |v.sections[0].cards| == 1 && v.sections[0].more == None
            && v.sections[1].kind == "community" && |v.sections[1].cards| == 2
            && v.sections[1].more == Some(MoreLine(1, "community projects"))
  {
    ShippedContributionGroups();
    HighlightOfGroups(ShippedContributions);
  }

  lemma HighlightOfGroups(cs: seq<Contribution>)
    requires var g := Grouped(cs, ContributionKind);
             Kinds(cs, ContributionKind) == ["tool", "community", "github"] && |g["tool"]| == 1 && |g["community"]| == 3
    ensures var v := ContributionList.Render(Highlight, cs);
            |v.sections| == 2
            && v.sections[0].kind == "tool" && |v.sections[0].cards| == 1 && v.sections[0].more == None
            && v.sections[1].kind == "community" && |v.sections[1].cards| == 2
            && v.sections[1].more == Some(MoreLine(1, "community projects"))
  {
    var g := Grouped(cs, ContributionKind);
    ContributionList.HighlightCategories(cs);
    ContributionList.SectionContents(Highlight, cs, 0);
    ContributionList.SectionContents(Highlight, cs, 1);
    ContributionList.SectionOfPanel(Highlight, "tool", g["tool"]);
    ContributionList.SectionOfPanel(Highlight, "community", g["community"]);
    ContributionList.MoreLabels(Highlight, "community");
  }

  /** Full mode lists tool, community and github. */
  lemma ShippedContributionFullTypes()
    ensures TypesToShow(ShippedContributions, ContributionKind, Full, ContributionList.Spec) == ["tool", "community", "github"]
  {
    var full := ["tool", "community", "github"];
    ShippedContributionGroups();
    ContributionFullOrderSorted();
    FullTypes(ShippedContributions, ContributionKind, ContributionList.Spec);
    SortedUnique(ContributionList.TypeOrder, full, TypesToShow(ShippedContributions, ContributionKind, Full, ContributionList.Spec));
  }

  lemma ContributionFullOrderSorted()
    ensures StrictlySorted(ContributionList.TypeOrder, ["tool", "community", "github"])
  {
    assert IndexOf(ContributionList.TypeOrder, "tool") == 0;
    assert IndexOf(ContributionList.TypeOrder, "community") == 1;
    assert IndexOf(ContributionList.TypeOrder, "github") == 2;
    ChainSorted(ContributionList.TypeOrder, ["tool", "community", "github"]);
  }

  /** The contributions page has a section for each of tool, community and github. */
  lemma ShippedContributionPage()
    ensures ContributionsPage.PageTypes(ShippedContributions) == ["tool", "community", "github"]
  {
    ShippedContributionGroups();
    PageWithAllTypes(ShippedContributions);
  }

  lemma PageWithAllTypes(cs: seq<Contribution>)
    requires Kinds(cs, ContributionKind) == ["tool", "community", "github"]
    ensures ContributionsPage.PageTypes(cs) == ["tool", "community", "github"]
  {
    ContributionsPage.PageOrder(cs);
  }

  /** The categories of the six shipped talks. */
  lemma ShippedTalkKinds()
    ensures |ShippedTalks| == 6
    ensures seq(6, i requires 0 <= i < 6 => ShippedTalks[i].kind)
            == ["workshop", "invited", "briefing", "keynote", "internal", "internal"]
  {
  }

  /** Talks 0, 1 and 3 of six featured and the others not: those three are the featured list. */
  lemma FeaturedOfSix(ts: seq<Talk>)
    requires |ts| == 6
    requires SpeakingHighlights.IsFeatured(ts[0]) && SpeakingHighlights.IsFeatured(ts[1])
    requires !SpeakingHighlights.IsFeatured(ts[2]) && SpeakingHighlights.IsFeatured(ts[3])
    requires !SpeakingHighlights.IsFeatured(ts[4]) && !SpeakingHighlights.IsFeatured(ts[5])
    ensures SpeakingHighlights.Featured(ts) == [ts[0], ts[1], ts[3]]
  {
    FeaturedPrefix(ts);
    assert ts[..4][..3] == ts[..3] && ts[..5][..4] == ts[..4] && ts[..6] == ts;
    assert SpeakingHighlights.Featured(ts[..4]) == [ts[0], ts[1], ts[3]];
    assert SpeakingHighlights.Featured(ts[..5]) == [ts[0], ts[1], ts[3]];
  }

  lemma FeaturedPrefix(ts: seq<Talk>)
    requires |ts| >= 3
    requires SpeakingHighlights.IsFeatured(ts[0]) && SpeakingHighlights.IsFeatured(ts[1])
    requires !SpeakingHighlights.IsFeatured(ts[2])
    ensures SpeakingHighlights.Featured(ts[..3]) == [ts[0], ts[1]]
  {
    assert ts[..3][..2] == ts[..2] && ts[..2][..1] == ts[..1] && ts[..1][..0] == [];
    assert SpeakingHighlights.Featured(ts[..1]) == [ts[0]];
    assert SpeakingHighlights.Featured(ts[..2]) == [ts[0], ts[1]];
  }

  /** Of the six shipped talks, the workshop, the invited talk and the keynote are featured. */
  lemma ShippedFeaturedTalks()
    ensures |ShippedTalks| == 6
    ensures SpeakingHighlights.Featured(ShippedTalks) == [ShippedTalks[0], ShippedTalks[1], ShippedTalks[3]]
  {
    var ts := ShippedTalks;
    ShippedTalkKinds();
    assert ts[0].kind == "workshop" && ts[1].kind == "invited" && ts[2].kind == "briefing";
    assert ts[3].kind == "keynote" && ts[4].kind == "internal" && ts[5].kind == "internal";
    FeaturedOfSix(ts);
  }

  /**
   * The highlight speaking section shows the three featured talks and says
   * "And 2 more speaking engagements" although three talks are not shown.
   */
  lemma ShippedSpeakingHighlight()
    ensures var v := SpeakingHighlights.Render(Highlight, ShippedTalks);
            |v.cards| == 3 && v.more == Some(2) && |ShippedTalks| - |v.cards| == 3
  {
    ShippedFeaturedTalks();
  }

  /** With no entry of category `k` before position `n` and only such entries after it, the group is the suffix. */
  lemma {:induction false} FilterSuffix<T>(xs: seq<T>, kind: T -> string, k: string, n: nat)
    requires n <= |xs|
    requires forall i :: 0 <= i < n ==> kind(xs[i]) != k
    requires forall i :: n <= i < |xs| ==> kind(xs[i]) == k
    ensures Filter(xs, kind, k) == xs[n..]
  {
    if xs != [] {
      var init := xs[..|xs| - 1];
      if |xs| == n {
        FilterSuffix(init, kind, k, n - 1);
      } else {
        FilterSuffix(init, kind, k, n);
        assert xs[n..] == init[n..] + [xs[|xs| - 1]];
      }
    }
  }

  /** The GitHub group of the shipped contributions is their last five entries. */
  lemma ShippedGitHubGroup()
    ensures Filter(ShippedContributions, ContributionKind, "github") == ShippedContributions[4..]
  {
    var cs := ShippedContributions;
    ShippedContributionKinds();
    assert forall i :: 0 <= i < |cs| ==> cs[i].kind == ContributionKinds[i];
    FilterSuffix(cs, ContributionKind, "github", 4);
  }

  /**
   * The full contribution list adds one link per GitHub project, in order, with the
   * project's name and URL.
   */
  lemma ShippedGitHubLinks()
    ensures var links := AdditionalGitHubContributions(ShippedContributions);
            |links| == 5
            && forall i :: 0 <= i < 5 ==>
                 links[i].name == ShippedContributions[4 + i].name && links[i].url == ShippedContributions[4 + i].url
  {
    ShippedGitHubGroup();
  }
}
