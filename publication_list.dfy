/**
 * The publications section (src/components/sections/publication-list.tsx): the
 * categories shown and their order, the entries per category, the "And N more"
 * line, the item count badge, and the venue / date / views line of each entry.
 */
module PublicationList {
  import opened Wrappers
  import opened Display
  import opened Listing
  import opened ResumeData

  const TypeOrder: seq<string> := ["blog", "paper", "thesis", "certificate"]

  /** Entries shown per category in highlight mode. */
  function Cap(k: string): nat {
    if k == "blog" then 6
    else if k == "certificate" then 3
    else 2
  }

  /** Highlight mode shows every present category of `TypeOrder`. */
  const Spec := ListSpec(TypeOrder, {}, Cap)

  function TypeVariant(k: string): Variant {
    match k
    case "blog" => Info
    case "paper" => Success
    case "thesis" => Warning
    case "certificate" => Secondary
    case "article" => Outline
    case "book" => Destructive
    case _ => Secondary
  }

  /** Each known category but certificate has its own colour; certificates share the default with unknown types. */
  lemma TypeVariants(k: string)
    ensures TypeVariant(k) == Info <==> k == "blog"
    ensures TypeVariant(k) == Success <==> k == "paper"
    ensures TypeVariant(k) == Warning <==> k == "thesis"
    ensures TypeVariant(k) == Outline <==> k == "article"
    ensures TypeVariant(k) == Destructive <==> k == "book"
    ensures TypeVariant(k) == Secondary <==> k !in {"blog", "paper", "thesis", "article", "book"}
  {
  }

  function TypeLabel(k: string): Option<string> {
    match k
    case "blog" => Some("Technical Blog Posts")
    case "paper" => Some("Academic Papers")
    case "thesis" => Some("Thesis")
    case "certificate" => Some("Certifications")
    case "article" => Some("Articles")
    case "book" => Some("Books")
    case _ => None
  }

  /** `typeLabels[type] || type`. */
  function Heading(k: string): string {
    if Truthy(TypeLabel(k)) then TypeLabel(k).value else k
  }

  /** `typeLabels[type]?.toLowerCase() || type`. */
  function MoreLabel(k: string): string {
    var name := TypeLabel(k);
    if name.Some? && Lower(name.value) != [] then Lower(name.value) else k
  }

  /** One piece of the line under a title. */
  datatype Meta = Venue(venue: string) | Date(date: string) | Views(views: string) | Dot

  /**
   * The line under a title as the component writes it: the venue; a dot before the
   * date when there is a venue; a dot before the views when there is a venue or a date.
   */
  function MetaLine(p: Publication): seq<Meta> {
    var venue, date, views := Truthy(p.venue), Truthy(p.date), Truthy(p.views);
    (if venue then [Venue(p.venue.value)] else [])
    + (if date then (if venue then [Dot] else []) + [Date(p.date.value)] else [])
    + (if views then (if venue || date then [Dot] else []) + [Views(p.views.value)] else [])
  }

  /** The fields present, in order, without separators. */
  function MetaFields(p: Publication): (r: seq<Meta>)
    ensures forall i :: 0 <= i < |r| ==> r[i] != Dot
  {
    (if Truthy(p.venue) then [Venue(p.venue.value)] else [])
    + (if Truthy(p.date) then [Date(p.date.value)] else [])
    + (if Truthy(p.views) then [Views(p.views.value)] else [])
  }

  /** The pieces joined with a dot between each two neighbours. */
  function Intersperse(xs: seq<Meta>): (r: seq<Meta>)
    ensures xs == [] <==> r == []
  {
    if |xs| <= 1 then xs else [xs[0], Dot] + Intersperse(xs[1..])
  }

  /**
   * The separator logic amounts to joining the present fields with dots, so a dot
   * appears only between two fields, never first, last or twice in a row.
   */
  lemma MetaLineJoinsFields(p: Publication)
    ensures MetaLine(p) == Intersperse(MetaFields(p))
    ensures var m := MetaLine(p);
            m != [] ==> m[0] != Dot && m[|m| - 1] != Dot
    ensures var m := MetaLine(p);
            forall i :: 0 <= i < |m| - 1 ==> !(m[i] == Dot && m[i + 1] == Dot)
  {
    MetaLineIsJoin(p);
    IntersperseDots(MetaFields(p));
  }

  lemma MetaLineIsJoin(p: Publication)
    ensures MetaLine(p) == Intersperse(MetaFields(p))
  {
    var fs := MetaFields(p);
    if |fs| == 3 {
      assert fs[1..][1..] == [fs[2]];
      assert Intersperse(fs[1..]) == [fs[1], Dot, fs[2]];
      assert Intersperse(fs) == [fs[0], Dot, fs[1], Dot, fs[2]];
    } else if |fs| == 2 {
      assert fs[1..] == [fs[1]];
      assert Intersperse(fs) == [fs[0], Dot, fs[1]];
    }
  }

  /** Joining dot-free pieces puts a dot only strictly between two pieces. */
  lemma {:induction false} IntersperseDots(xs: seq<Meta>)
    requires forall i :: 0 <= i < |xs| ==> xs[i] != Dot
    ensures var m := Intersperse(xs);
            m != [] ==> m[0] != Dot && m[|m| - 1] != Dot
    ensures var m := Intersperse(xs);
            forall i :: 0 <= i < |m| - 1 ==> !(m[i] == Dot && m[i + 1] == Dot)
  {
    if |xs| > 1 {
      var m, rest := Intersperse(xs), Intersperse(xs[1..]);
      IntersperseDots(xs[1..]);
      assert m == [xs[0], Dot] + rest;
      forall i | 0 <= i < |m| - 1 ensures !(m[i] == Dot && m[i + 1] == Dot) {
        if i >= 2 {
          assert m[i] == rest[i - 2] && m[i + 1] == rest[i - 1];
        }
      }
    }
  }

  /** A dot precedes the date exactly when there is a venue, and the views when there is a venue or a date. */
  lemma MetaDots(p: Publication)
    ensures var m := MetaLine(p);
            Truthy(p.date) && Truthy(p.venue) ==> m[..3] == [Venue(p.venue.value), Dot, Date(p.date.value)]
    ensures Truthy(p.date) && !Truthy(p.venue) ==> MetaLine(p)[0] == Date(p.date.value)
    ensures var m := MetaLine(p);
            Truthy(p.views) ==>
              (|m| >= 1 && m[|m| - 1] == Views(p.views.value)
               && (Truthy(p.venue) || Truthy(p.date) ==> |m| >= 3 && m[|m| - 2] == Dot)
               && (!Truthy(p.venue) && !Truthy(p.date) ==> m == [Views(p.views.value)]))
  {
  }

  /** One entry: the link is shown when the URL is truthy, and so is the description. */
  datatype Card = Card(entry: Publication, link: Option<string>, meta: seq<Meta>, description: Option<string>)

  function MakeCard(p: Publication): Card {
    Card(p, Shown(p.url), MetaLine(p), Shown(p.description))
  }

  datatype Section = Section(kind: string, heading: string, badge: CountBadge, cards: seq<Card>, more: Option<MoreLine>)

  function MakeSection(mode: Mode, p: Panel<Publication>): Section {
    Section(p.kind, Heading(p.kind),
            CountBadge(TypeVariant(p.kind), |p.group|, Noun(|p.group|, "item", "items")),
            seq(|p.shown|, j requires 0 <= j < |p.shown| => MakeCard(p.shown[j])),
            if p.showMore then Some(MoreLine(p.remaining, MoreLabel(p.kind))) else None)
  }

  datatype View = View(title: string, viewAllLink: bool, sections: seq<Section>)

  function Render(mode: Mode, ps: seq<Publication>): (v: View)
    ensures |v.sections| == |TypesToShow(ps, PublicationKind, mode, Spec)|
    ensures v.viewAllLink <==> mode == Highlight
  {
    var panels := Panels(ps, PublicationKind, mode, Spec);
    View(if mode == Highlight then "Publications & Writings" else "Selected Publications & Writings",
         mode == Highlight,
         seq(|panels|, i requires 0 <= i < |panels| => MakeSection(mode, panels[i])))
  }

  /** Highlight mode lists the present categories of blog, paper, thesis, certificate in that order. */
  lemma HighlightCategories(ps: seq<Publication>)
    ensures var g := Grouped(ps, PublicationKind);
            TypesToShow(ps, PublicationKind, Highlight, Spec)
            == (if "blog" in g then ["blog"] else []) + (if "paper" in g then ["paper"] else [])
               + (if "thesis" in g then ["thesis"] else []) + (if "certificate" in g then ["certificate"] else [])
  {
    HighlightOfFour("blog", "paper", "thesis", "certificate", Kinds(ps, PublicationKind));
  }

  /** Highlight mode over a four-entry priority list with nothing hidden, spelled out. */
  lemma HighlightOfFour(a: string, b: string, c: string, d: string, present: seq<string>)
    ensures HighlightTypes([a, b, c, d], {}, present)
            == (if a in present then [a] else []) + (if b in present then [b] else [])
               + (if c in present then [c] else []) + (if d in present then [d] else [])
  {
    assert [a, b, c, d][1..] == [b, c, d] && [b, c, d][1..] == [c, d] && [c, d][1..] == [d];
    assert HighlightTypes([d], {}, present) == (if d in present then [d] else []);
    assert HighlightTypes([c, d], {}, present) == (if c in present then [c] else []) + HighlightTypes([d], {}, present);
    assert HighlightTypes([b, c, d], {}, present) == (if b in present then [b] else []) + HighlightTypes([c, d], {}, present);
  }

  /** Books and articles, or any category outside the priority list, are never highlighted. */
  lemma HighlightNeverUnlisted(ps: seq<Publication>, k: string)
    requires k !in TypeOrder
    ensures k !in TypesToShow(ps, PublicationKind, Highlight, Spec)
  {
    HighlightTypesMember(TypeOrder, {}, Kinds(ps, PublicationKind), k);
  }

  /**
   * Full mode lists every category once: blog, paper, thesis, certificate in that
   * order, then the others (book, article, ...) in lexicographic order.
   */
  lemma FullCategories(ps: seq<Publication>, i: int, j: int)
    requires 0 <= i < j < |TypesToShow(ps, PublicationKind, Full, Spec)|
    ensures multiset(TypesToShow(ps, PublicationKind, Full, Spec)) == multiset(Kinds(ps, PublicationKind))
    ensures var ts := TypesToShow(ps, PublicationKind, Full, Spec);
            (ts[j] in TypeOrder ==> ts[i] in TypeOrder && IndexOf(TypeOrder, ts[i]) < IndexOf(TypeOrder, ts[j]))
            && (ts[i] !in TypeOrder ==> ts[j] !in TypeOrder && LexCompare(ts[i], ts[j]) < 0)
  {
    FullTypes(ps, PublicationKind, Spec);
    SortedRanks(TypeOrder, TypesToShow(ps, PublicationKind, Full, Spec), i, j);
  }

  /** The priority ranks of the four known categories. */
  lemma Ranks()
    ensures IndexOf(TypeOrder, "blog") == 0 && IndexOf(TypeOrder, "paper") == 1
    ensures IndexOf(TypeOrder, "thesis") == 2 && IndexOf(TypeOrder, "certificate") == 3
  {
  }

  /** The section built from one panel: its badge, its cards and its "And N more" line. */
  lemma SectionOfPanel(mode: Mode, k: string, g: seq<Publication>)
    ensures var s := MakeSection(mode, MakePanel(mode, Cap(k), k, g));
            s.kind == k
            && s.badge.count == |g| && (s.badge.unit == "item" <==> |g| == 1)
            && |s.cards| <= |g| && (forall c :: 0 <= c < |s.cards| ==> s.cards[c].entry == g[c])
            && (mode == Full ==> |s.cards| == |g|)
            && (mode == Highlight ==>
                  |s.cards| == Min(if k == "blog" then 6 else if k == "certificate" then 3 else 2, |g|))
            && (s.more.Some? <==> mode == Highlight && |s.cards| < |g|)
            && (s.more.Some? ==> s.more.value.count == |g| - |s.cards| && s.more.value.noun == MoreLabel(k))
  {
    var p := MakePanel(mode, Cap(k), k, g);
    var s := MakeSection(mode, p);
    forall c | 0 <= c < |s.cards| ensures s.cards[c].entry == g[c] {
      assert s.cards[c] == MakeCard(p.shown[c]);
    }
  }

  /** Each section is built from the whole, non-empty group of its category. */
  lemma SectionContents(mode: Mode, ps: seq<Publication>, i: int)
    requires 0 <= i < |Render(mode, ps).sections|
    ensures var s, k := Render(mode, ps).sections[i], TypesToShow(ps, PublicationKind, mode, Spec)[i];
            k in Grouped(ps, PublicationKind) && Grouped(ps, PublicationKind)[k] != []
            && s == MakeSection(mode, MakePanel(mode, Cap(k), k, Grouped(ps, PublicationKind)[k]))
  {
    PanelGroups(ps, PublicationKind, mode, Spec, i);
  }
}
